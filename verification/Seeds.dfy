/** No seed is lost: once noted for a directory, a path stays noted until it is pushed, except
    through the root's second calibration. */
module Seeds {
  import opened ScanTypes
  import opened Counting
  import opened Text
  import opened Provenance
  import opened Paths
  import opened Generation
  import opened Accounting
  import opened Invariants
  import opened Ledgers
  import opened ScanModel
  import opened Pushing
  import opened Soundness
  import opened Stepping

  /** p is waiting for d's calibration, or was pushed for d. */
  ghost predicate Noted(s: Scan, d: string, p: string)
  {
    d in s.book.dirs && (p in s.book.dirs[d].known || p in s.book.dirs[d].pending)
  }

  /** A path the scan owes a directory: one a seed named, or one of the template's. */
  datatype Want = Want(dir: string, path: string, seed: bool)

  /** The want is not forgotten: a seed's path is noted; a template path is known to every
      directory past its calibration. */
  ghost predicate Due(env: Env, s: Scan, w: Want)
  {
    if w.seed then Noted(s, w.dir, w.path)
    else w.path in PathsOf(env.template)
         && (w.dir in s.book.dirs ==> s.book.dirs[w.dir].phase == Calibrating || w.path in s.book.dirs[w.dir].known)
  }

  // ---- Opening a directory --------------------------------------------------------------

  ghost function NmapPaths(env: Env, d: string): set<string>
  {
    if d == "" then set i | 0 <= i < |env.nmap| :: env.nmap[i].path else {}
  }

  /** The paths pushed for d: the template's, its pending seeds', and at the root the nmap ones. */
  ghost function PushedPaths(env: Env, s: Scan, d: string): set<string>
    requires d in s.book.dirs
  {
    PathsOf(env.template) + s.book.dirs[d].pending.Keys + NmapPaths(env, d)
  }

  lemma SeqPaths(cands: seq<Candidate>, p: string)
    ensures p in (set c | c in multiset(cands) :: c.path) <==> exists i :: 0 <= i < |cands| && cands[i].path == p
  {
    if i :| 0 <= i < |cands| && cands[i].path == p {
      assert cands[i] in multiset(cands);
    }
  }

  lemma TemplatePushed(env: Env, s: Scoring, d: string, cands: seq<Candidate>, p: string)
    requires |cands| == |env.template| && forall i :: 0 <= i < |cands| ==> FromTemplate(env, s, d, cands[i], env.template[i])
    ensures p in (set c | c in multiset(cands) :: c.path) <==> p in PathsOf(env.template)
  {
    SeqPaths(cands, p);
    if i :| 0 <= i < |cands| && cands[i].path == p {
      assert FromTemplate(env, s, d, cands[i], env.template[i]);
    }
    if p in PathsOf(env.template) {
      var i :| 0 <= i < |env.template| && env.template[i].path == p;
      assert FromTemplate(env, s, d, cands[i], env.template[i]);
    }
  }

  lemma NmapPushed(env: Env, depth: int, d: string, p: string)
    ensures p in (set c | c in multiset(NmapCandidates(env, depth, d)) :: c.path) <==> p in NmapPaths(env, d)
  {
    var cands := NmapCandidates(env, depth, d);
    SeqPaths(cands, p);
    if d == "" {
      forall i | 0 <= i < |cands| ensures cands[i].path == env.nmap[i].path {
      }
    }
  }

  lemma LeftoverPushed(env: Env, s: Scoring, d: string, pending: map<string, Candidate>, gone: set<string>, p: string)
    requires PendingOk(pending, d)
    ensures p in (set c | c in Leftovers(env, s, pending - gone) :: c.path) <==> p in pending && p !in gone
  {
    var left := pending - gone;
    if p in pending && p !in gone {
      assert Scored(env, s, left[p]) in Leftovers(env, s, left) && Scored(env, s, left[p]).path == p;
    }
    if c :| c in Leftovers(env, s, left) && c.path == p {
      LeftoverFrom(env, s, d, pending, gone, c);
    }
  }

  lemma UnionPaths(a: multiset<Candidate>, b: multiset<Candidate>, p: string)
    ensures p in (set c | c in a + b :: c.path) <==> p in (set c | c in a :: c.path) || p in (set c | c in b :: c.path)
  {
    if c :| c in a + b && c.path == p {
      assert c in a || c in b;
    }
  }

  lemma OfSet(over: set<Candidate>, p: string)
    ensures p in (set c | c in multiset(over) :: c.path) <==> p in (set c | c in over :: c.path)
  {
  }

  lemma ThreePaths(a: multiset<Candidate>, b: multiset<Candidate>, c: multiset<Candidate>, p: string)
    ensures p in (set x | x in a + b + c :: x.path)
       <==> p in (set x | x in a :: x.path) || p in (set x | x in b :: x.path) || p in (set x | x in c :: x.path)
  {
    UnionPaths(a, b, p);
    UnionPaths(a + b, c, p);
  }

  /** A path is pushed for d exactly if the template, a pending seed or an nmap seed names it. */
  lemma SetForPaths(env: Env, s: Scoring, d: string, depth: int, pending: map<string, Candidate>, p: string)
    requires PendingOk(pending, d)
    ensures p in (set c | c in SetFor(env, s, d, depth, pending) :: c.path)
       <==> p in PathsOf(env.template) + pending.Keys + NmapPaths(env, d)
  {
    hide FoldEntry, Folded, Leftovers, Scored, Score, NmapCandidates, NmapPaths, PathsOf, FromTemplate;
    var folded := Folded(env, s, d, depth, env.template, pending);
    FoldedFacts(env, s, d, depth, env.template, pending);
    TemplatePushed(env, s, d, folded.0, p);
    LeftoverPushed(env, s, d, pending, PathsOf(env.template), p);
    NmapPushed(env, depth, d, p);
    OfSet(Leftovers(env, s, folded.1), p);
    ThreePaths(multiset(folded.0), multiset(Leftovers(env, s, folded.1)), multiset(NmapCandidates(env, depth, d)), p);
  }

  lemma OpenKnows(env: Env, s: Scan, d: string, p: string)
    requires d in s.book.dirs && PendingOk(s.book.dirs[d].pending, d)
    ensures p in PushCandidates(env, s, d).book.dirs[d].known <==> p in PushedPaths(env, s, d)
  {
    hide SetFor, BudgetOf, PathsOf, NmapPaths;
    SetForPaths(env, s.scoring, d, s.book.dirs[d].depth, s.book.dirs[d].pending, p);
  }

  lemma PushKeeps(env: Env, s: Scan, d: string, w: Want)
    requires Ending(env, s, d) && Due(env, s, w)
    ensures Due(env, PushCandidates(env, s, d), w)
  {
    hide CandidateSet, BudgetOf, Rest, DirOk, Refs, PathsOf, NmapPaths;
    OpenKnows(env, s, d, w.path);
  }

  // ---- Calibration ----------------------------------------------------------------------

  /** Finishing d's calibration starts it over. */
  predicate Relapses(env: Env, s: Scan, d: string)
  {
    d == "" && !s.rootRefined && Grew(s.exts, env.calibrate(d, false).exts)
  }

  lemma SameDirs(env: Env, s: Scan, r: Scan, w: Want)
    requires r.book.dirs == s.book.dirs
    ensures Due(env, r, w) == Due(env, s, w)
  {
  }

  lemma {:induction false} FinishNotes(env: Env, s: Scan, d: string, w: Want)
    requires Ending(env, s, d) && Due(env, s, w)
    requires w.seed && w.dir == d ==> !Relapses(env, s, d)
    ensures Due(env, FinishCalibration(env, s, d), w)
    decreases if s.rootRefined then 0 else 1, 1
  {
    hide Ending, Due, Room, Places, PushCandidates, Pivot, ReprioritizeIfChanged, Grew;
    var cal := env.calibrate(d, s.rootRefined);
    var s1 := s.(spaDirs := s.spaDirs[d := cal.spa]);
    AlikeKeeps(env, s, s1);
    SameDirs(env, s, s1, w);
    if d == "" && !s.rootRefined {
      var s2 := ReprioritizeIfChanged(env, s1.(rootRefined := true, scoring := s1.scoring.(profile := cal.profile)));
      ReprioritizeEnding(env, s1, cal.profile, d);
      ReprioritizeDirs(env, s1.(rootRefined := true, scoring := s1.scoring.(profile := cal.profile)));
      SameDirs(env, s, s2, w);
      if Grew(s2.exts, cal.exts) {
        AlikeKeeps(env, s2, s2.(exts := cal.exts));
        SameDirs(env, s2, s2.(exts := cal.exts), w);
        AgainNotes(env, s2.(exts := cal.exts), d, w);
      } else {
        PivotEnding(env, s2, d, cal.spa);
        SameDirs(env, s2, Pivot(env, s2, d, cal.spa), w);
        PushKeeps(env, Pivot(env, s2, d, cal.spa), d, w);
      }
    } else {
      PivotEnding(env, s1, d, cal.spa);
      SameDirs(env, s1, Pivot(env, s1, d, cal.spa), w);
      PushKeeps(env, Pivot(env, s1, d, cal.spa), d, w);
    }
  }

  lemma ReprioritizeDirs(env: Env, s: Scan)
    ensures ReprioritizeIfChanged(env, s).book.dirs == s.book.dirs && ReprioritizeIfChanged(env, s).exts == s.exts
  {
  }

  /** A second calibration of the root leaves every other directory's paths noted. */
  lemma {:induction false} AgainNotes(env: Env, s: Scan, d: string, w: Want)
    requires Ending(env, s, d) && Due(env, s, w) && s.rootRefined && (w.seed ==> w.dir != d)
    ensures Due(env, Recalibrate(env, s, d), w)
    decreases 0, 2
  {
    hide Ending, Room, Places, FinishCalibration, Probes;
    var probes := Probes(env, d, s.exts, 0);
    AgainSteps(env, s, d, probes);
    if probes == [] {
      FinishNotes(env, s.(book := Restarted(s.book, d, probes)), d, w);
    }
  }

  lemma {:induction false} StartNotes(env: Env, s: Scan, d: string, depth: int, w: Want)
    requires Sound(env, s) && Due(env, s, w) && d !in s.book.dirs
    ensures Due(env, StartCalibration(env, s, d, depth), w)
  {
    hide Ending, Sound, Room, Places, FinishCalibration, Probes;
    var probes := Probes(env, d, s.exts, 0);
    BeginSteps(env, s, d, depth, probes);
    if probes == [] {
      FinishNotes(env, s.(book := Started(s.book, d, depth, probes)), d, w);
    }
  }

  lemma ChildNotes(env: Env, s: Scan, d: string, depth: int, w: Want)
    requires Sound(env, s) && Due(env, s, w)
    ensures Due(env, EnqueueChild(env, s, d, depth), w)
  {
    hide Sound, Due, StartCalibration;
    if d !in s.book.dirs {
      StartNotes(env, s, d, depth, w);
    }
  }

  lemma CollectNotes(env: Env, s: Scan, d: string, w: Want)
    requires Sound(env, s) && d in s.book.probes && Due(env, s, w)
    requires w.seed && w.dir == d ==> !Relapses(env, s, d)
    ensures d in s.book.dirs && Due(env, CollectProbe(env, s, d), w)
  {
    hide Ending, Sound, Room, Places, FinishCalibration, Grew;
    BackSteps(env, s, d);
    var s1 := s.(book := ProbeBack(s.book, d));
    if s1.book.dirs[d].probesDone >= s1.book.dirs[d].probesTotal {
      FinishNotes(env, s1, d, w);
    }
  }

  // ---- Results --------------------------------------------------------------------------

  lemma {:induction false} GeneratedNotes(env: Env, s: Scan, d: string, cs: seq<Candidate>, w: Want)
    requires Due(env, s, w)
    ensures Due(env, EnqueueAll(env, s, d, cs), w)
  {
    hide Scored;
    if cs != [] {
      GeneratedNotes(env, s, d, cs[..|cs| - 1], w);
    }
  }

  lemma LearnNotes(env: Env, s: Scan, c: Candidate, r: Response, now: real, w: Want)
    requires r.Answered? && Due(env, s, w)
    ensures Due(env, LearnFromHit(env, s, c, r, now), w)
  {
    hide Due, EnqueueAll, Generate, Learnable;
    if Learnable(env, s, c.parentDir, r.confidence) {
      var lesson := Lesson(c.parentDir, c.path, r.protected, r.indexOf);
      var s1 := s.(scoring := s.scoring.(lessons := s.scoring.lessons + [lesson]));
      SameDirs(env, s, s1, w);
      GeneratedNotes(env, s1, c.parentDir, Generate(c), w);
      var s2 := EnqueueAll(env, s1, c.parentDir, Generate(c));
      SameDirs(env, s2, MarkDirty(env, s2, now), w);
    }
  }

  lemma HitNotes(env: Env, s: Scan, c: Candidate, r: Response, now: real, w: Want)
    requires Sound(env, s) && r.Answered? && c.parentDir in s.book.dirs && s.book.dirs[c.parentDir].phase != Calibrating
    requires Due(env, s, w)
    ensures Due(env, HandleHit(env, s, c, r, now), w)
  {
    hide Sound, Room, Places, Due, LearnFromHit, EnqueueChild, WithinLimits, Aliased;
    var url := Url(env, c.parentDir, c.path);
    if r.hash in s.seen {
      SameDirs(env, s, HandleHit(env, s, c, r, now), w);
    } else {
      var s1 := s.(seen := s.seen[r.hash := [url]],
                   findings := s.findings + [Finding(url, r.hash, r.confidence, c.provenance, [])],
                   book := s.book.(log := s.book.log.(novel := s.book.log.novel + 1)));
      NovelSound(env, s, s1);
      SameDirs(env, s, s1, w);
      LearnSound(env, s1, c, r, now);
      LearnNotes(env, s1, c, r, now, w);
      ChildNotes(env, LearnFromHit(env, s1, c, r, now), c.parentDir + "/" + c.path, c.depth, w);
    }
  }

  lemma SettledNotes(env: Env, s: Scan, c: Candidate, w: Want)
    requires c.parentDir in s.book.dirs && s.book.dirs[c.parentDir].phase != Calibrating && Due(env, s, w)
    ensures Due(env, s.(book := Settled(s.book, c)), w)
  {
  }

  lemma TrappedNotes(env: Env, s: Scan, d: string, capped: bool, wildcard: bool, w: Want)
    requires d in s.book.dirs && Due(env, s, w)
    ensures Due(env, s.(book := Trapped(s.book, d, capped, wildcard)), w)
  {
  }

  lemma RealNotes(env: Env, s: Scan, c: Candidate, r: Response, now: real, w: Want)
    requires Sound(env, s) && c in s.book.flying && Due(env, s, w)
    ensures c.parentDir in s.book.dirs && Due(env, HandleReal(env, s, c, r, now), w)
  {
    hide Sound, Room, Places, Due, HandleHit, Concluded, Settled;
    FlyingDir(env, s, c);
    if r.Failed? {
      SettledNotes(env, s, c, w);
    } else {
      var s1 := s.(book := Trapped(s.book, c.parentDir, r.tarpit, false));
      TrapSound(env, s, c.parentDir, r.tarpit, false);
      TrappedNotes(env, s, c.parentDir, r.tarpit, false, w);
      FlyingDir(env, s1, c);
      HitSound(env, s1, c, r, now);
      HitNotes(env, s1, c, r, now, w);
      HitFlies(env, s1, c, r, now);
      ConcludedNotes(env, if r.hit then HandleHit(env, s1, c, r, now) else s1, c, r, w);
    }
  }

  lemma ConcludedNotes(env: Env, s: Scan, c: Candidate, r: Response, w: Want)
    requires Sound(env, s) && c in s.book.flying && r.Answered? && Due(env, s, w)
    ensures Due(env, Concluded(env, s, c, r), w)
  {
    hide Sound, Due, Settled, HarvestResponse, Url;
    FlyingDir(env, s, c);
    var s1 := s.(book := Trapped(s.book, c.parentDir, false, r.wildcard));
    TrappedNotes(env, s, c.parentDir, false, r.wildcard, w);
    HarvestAlike(env, s1, Url(env, c.parentDir, c.path), r.body);
    var s2 := HarvestResponse(env, s1, Url(env, c.parentDir, c.path), r.body);
    SameDirs(env, s1, s2, w);
    SettledNotes(env, s2, c, w);
  }

  // ---- Seeds ----------------------------------------------------------------------------

  lemma SwappedDirs(b: Book, c: Candidate, c': Candidate)
    ensures Swapped(b, c, c').dirs == b.dirs
  {
  }

  lemma HeldNotes(env: Env, s: Scan, d: string, c: Candidate, w: Want)
    requires d in s.book.dirs
    ensures Due(env, s, w) || (w.seed && w.dir == d && w.path == c.path) ==> Due(env, s.(book := Held(s.book, d, c)), w)
  {
  }

  lemma AddedNotes(env: Env, s: Scan, d: string, c: Candidate, w: Want)
    requires d in s.book.dirs
    ensures Due(env, s, w) || (w.seed && w.dir == d && w.path == c.path) ==> Due(env, s.(book := Added(s.book, d, c)), w)
  {
  }

  /** Staging notes the candidate, and forgets nothing. */
  lemma StageNotes(env: Env, s: Scan, d: string, c: Candidate, pick: Candidate, w: Want)
    requires Due(env, s, w) || (w.seed && d in s.book.dirs && w.dir == d && w.path == c.path)
    ensures Due(env, StageDirCandidate(env, s, d, c, pick), w)
  {
    hide Score, Merged, Held, Added, Swapped;
    var s0 := s.(book := s.book.(log := s.book.log.(staged := s.book.log.staged + 1)));
    if d in s.book.dirs {
      var c' := Scored(env, s.scoring, c.(depth := s.book.dirs[d].depth + 1));
      HeldNotes(env, s0, d, c, w);
      AddedNotes(env, s0, d, c', w);
      SwappedDirs(s0.book, pick, Scored(env, s.scoring, Merged(pick, c)));
    }
  }

  /** One ancestor's turn forgets nothing, makes the ancestor, and notes it under its parent. */
  lemma ChainStepNotes(env: Env, s: Scan, segs: seq<string>, prio: real, provenance: string, pick: Candidate, i: nat,
                       w: Want)
    requires Sound(env, s) && i < |segs|
    requires Due(env, s, w) || (w == Want(DirOf(segs, i), segs[i], true) && DirOf(segs, i) in s.book.dirs)
    ensures Due(env, ChainStep(env, s, segs, prio, provenance, pick, i), w)
  {
    hide Sound, Room, Places, Due, StageDirCandidate, StartCalibration, DirOf;
    ChainedSound(env, s);
    var s1 := s.(book := s.book.(log := s.book.log.(chained := s.book.log.chained + 1)));
    SameDirs(env, s, s1, w);
    if Due(env, s, w) {
      ChildNotes(env, s1, DirOf(segs, i + 1), i + 1, w);
    }
    StageNotes(env, EnqueueChild(env, s1, DirOf(segs, i + 1), i + 1), DirOf(segs, i),
               AncestorCandidate(segs, i, prio, provenance), pick, w);
  }

  lemma ChainStepExists(env: Env, s: Scan, segs: seq<string>, prio: real, provenance: string, pick: Candidate, i: nat)
    requires i < |segs|
    ensures DirOf(segs, i + 1) in ChainStep(env, s, segs, prio, provenance, pick, i).book.dirs
  {
    hide StageDirCandidate, StartCalibration, DirOf, AncestorCandidate;
    StartedExists(env, s.(book := s.book.(log := s.book.log.(chained := s.book.log.chained + 1))), DirOf(segs, i + 1), i + 1);
  }

  lemma StartedExists(env: Env, s: Scan, d: string, depth: int)
    ensures d in EnqueueChild(env, s, d, depth).book.dirs
  {
    hide FinishCalibration, Probes;
  }

  lemma {:induction false} ChainNotes(env: Env, s: Scan, segs: seq<string>, prio: real, provenance: string,
                                      picks: seq<Candidate>, n: nat, w: Want)
    requires Sound(env, s) && n < |segs| && |picks| == |segs| && Due(env, s, w)
    ensures Due(env, EnsureDirChain(env, s, segs, prio, provenance, picks, n), w)
    decreases n
  {
    hide Sound, Room, Places, Due, ChainStep, DirOf;
    if n > 0 {
      ChainSound(env, s, segs, prio, provenance, picks, n - 1);
      ChainNotes(env, s, segs, prio, provenance, picks, n - 1, w);
      var s1 := EnsureDirChain(env, s, segs, prio, provenance, picks, n - 1);
      ChainStepNotes(env, s1, segs, prio, provenance, picks[n - 1], n - 1, w);
    }
  }

  /** Every ancestor exists after the chain. */
  lemma {:induction false} ChainExists(env: Env, s: Scan, segs: seq<string>, prio: real, provenance: string,
                                       picks: seq<Candidate>, n: nat, i: nat)
    requires n < |segs| && |picks| == |segs| && "" in s.book.dirs && i <= n
    ensures DirOf(segs, i) in EnsureDirChain(env, s, segs, prio, provenance, picks, n).book.dirs
    decreases n
  {
    hide ChainStep, DirOf;
    if n > 0 {
      var s1 := EnsureDirChain(env, s, segs, prio, provenance, picks, n - 1);
      ChainStepExists(env, s1, segs, prio, provenance, picks[n - 1], n - 1);
      if i < n {
        ChainExists(env, s, segs, prio, provenance, picks, n - 1, i);
      }
    } else {
      EmptyChain(segs);
    }
  }

  lemma EmptyChain(segs: seq<string>)
    ensures DirOf(segs, 0) == ""
  {
  }

  /** Every ancestor is noted under its own parent. */
  lemma {:induction false} ChainNoted(env: Env, s: Scan, segs: seq<string>, prio: real, provenance: string,
                                      picks: seq<Candidate>, n: nat, i: nat)
    requires Sound(env, s) && n < |segs| && |picks| == |segs| && "" in s.book.dirs && i < n
    ensures Noted(EnsureDirChain(env, s, segs, prio, provenance, picks, n), DirOf(segs, i), segs[i])
    decreases n
  {
    hide Sound, Room, Places, Noted, PathsOf, ChainStep, DirOf;
    var s1 := EnsureDirChain(env, s, segs, prio, provenance, picks, n - 1);
    ChainSound(env, s, segs, prio, provenance, picks, n - 1);
    if i < n - 1 {
      ChainNoted(env, s, segs, prio, provenance, picks, n - 1, i);
    } else {
      ChainExists(env, s, segs, prio, provenance, picks, n - 1, i);
    }
    ChainStepNotes(env, s1, segs, prio, provenance, picks[n - 1], n - 1, Want(DirOf(segs, i), segs[i], true));
  }

  /** An admitted seed's leaf is noted for its directory, and so is each ancestor for its own parent. */
  lemma SeedNoted(env: Env, s: Scan, sd: Seed, picks: seq<Candidate>, i: nat)
    requires Sound(env, s) && "" in s.book.dirs && |picks| == |Segments(sd.path)| && Admitted(env, sd)
    requires i < |Segments(sd.path)|
    ensures Noted(EnqueueSeed(env, s, sd, picks), DirOf(Segments(sd.path), i), Segments(sd.path)[i])
  {
    hide Sound, Room, Places, Noted, PathsOf, StageDirCandidate, EnsureDirChain, Segments, DirOf, Admitted;
    var segs := Segments(sd.path);
    var n := |segs| - 1;
    var s0 := SeedCounted(env, s);
    SeedCountedSound(env, s);
    ChainExists(env, s0, segs, sd.basePrio, sd.provenance, picks, n, i);
    if i < n {
      ChainNoted(env, s0, segs, sd.basePrio, sd.provenance, picks, n, i);
    }
    var s1 := EnsureDirChain(env, s0, segs, sd.basePrio, sd.provenance, picks, n);
    StageNotes(env, s1, DirOf(segs, n), LeafCandidate(segs, sd), picks[n], Want(DirOf(segs, i), segs[i], true));
  }

  ghost function SeedCounted(env: Env, s: Scan): Scan
  {
    s.(book := s.book.(log := s.book.log.(seeds := s.book.log.seeds + 1)))
  }

  lemma SeedCountedSound(env: Env, s: Scan)
    requires Sound(env, s)
    ensures Sound(env, SeedCounted(env, s))
  {
    hide Sound, Room, Places;
    var log := s.book.log;
    assert log.(seeds := log.seeds + 1) == log.(seeds := log.seeds + 1, chained := log.chained, staged := log.staged);
    CountedSound(env, s, log.seeds + 1, log.chained, log.staged);
  }

  /** A seed disturbs no noted path. */
  lemma SeedKeepsNotes(env: Env, s: Scan, sd: Seed, picks: seq<Candidate>, w: Want)
    requires Sound(env, s) && |picks| == |Segments(sd.path)| && Due(env, s, w)
    ensures Due(env, EnqueueSeed(env, s, sd, picks), w)
  {
    hide Sound, Room, Places, Due, StageDirCandidate, EnsureDirChain, Segments, DirOf, Admitted;
    if Admitted(env, sd) {
      var segs := Segments(sd.path);
      var n := |segs| - 1;
      SeedCountedSound(env, s);
      SameDirs(env, s, SeedCounted(env, s), w);
      ChainNotes(env, SeedCounted(env, s), segs, sd.basePrio, sd.provenance, picks, n, w);
      var s1 := EnsureDirChain(env, SeedCounted(env, s), segs, sd.basePrio, sd.provenance, picks, n);
      StageNotes(env, s1, DirOf(segs, n), LeafCandidate(segs, sd), picks[n], w);
    }
  }

  /** A seed whose path is queued is merged into the candidate there, and nothing else in the queue changes:
      the larger prior, exactly both's sources, a score to match. */
  lemma StageMerges(env: Env, s: Scan, d: string, c: Candidate, pick: Candidate)
    requires d in s.book.dirs && s.book.dirs[d].phase != Calibrating && c.path in s.book.dirs[d].known
    requires pick in s.book.queue && KeyOf(pick) == (d, c.path)
    ensures exists m :: MergeOf(m, pick, c) && m.score == Score(env, s.scoring, m)
                        && StageDirCandidate(env, s, d, c, pick).book.queue == s.book.queue - multiset{pick} + multiset{m}
  {
    hide Score, MergeOf;
    var m := Scored(env, s.scoring, Merged(pick, c));
    MergedIs(env, s.scoring, pick, c);
    ScoredIsCurrent(env, s.scoring, Merged(pick, c), 0);
    assert StageDirCandidate(env, s, d, c, pick).book.queue == s.book.queue - multiset{pick} + multiset{m};
  }

  // ---- The root's second calibration ----------------------------------------------------

  /** What becomes of the root's pending seeds when its first calibration ends: they are pushed,
      unless the extension set grew. Then only a path the template or nmap names anyway is. */
  lemma RelapseForgets(env: Env, s: Scan, p: string)
    requires Ending(env, s, "") && Relapses(env, s, "")
    ensures var again := Probes(env, "", env.calibrate("", false).exts, 0);
            Noted(FinishCalibration(env, s, ""), "", p) <==> again == [] && p in PathsOf(env.template) + NmapPaths(env, "")
  {
    hide Ending, Room, Places, Pivot, Probes, Grew, ReprioritizeIfChanged, PathsOf, NmapPaths;
    var cal := env.calibrate("", false);
    var s1 := s.(spaDirs := s.spaDirs["" := cal.spa]);
    AlikeKeeps(env, s, s1);
    var s1' := s1.(rootRefined := true, scoring := s1.scoring.(profile := cal.profile));
    ReprioritizeEnding(env, s1, cal.profile, "");
    ReprioritizeDirs(env, s1');
    var s3 := ReprioritizeIfChanged(env, s1').(exts := cal.exts);
    AlikeKeeps(env, ReprioritizeIfChanged(env, s1'), s3);
    RecalibrateForgets(env, s3, p);
  }

  lemma RecalibrateForgets(env: Env, s: Scan, p: string)
    requires Ending(env, s, "") && s.rootRefined
    ensures var again := Probes(env, "", s.exts, 0);
            Noted(Recalibrate(env, s, ""), "", p) <==> again == [] && p in PathsOf(env.template) + NmapPaths(env, "")
  {
    hide Ending, Room, Places, FinishCalibration, Probes, PathsOf, NmapPaths, Within, SameHistory, SameClock, Restarted;
    var probes := Probes(env, "", s.exts, 0);
    AgainSteps(env, s, "", probes);
    RestartedBare(s.book, probes);
    if probes == [] { OpensBare(env, s.(book := Restarted(s.book, "", probes)), p); }
  }

  /** Opened with nothing pending, a refined root knows what the template and nmap name. */
  lemma OpensBare(env: Env, s: Scan, p: string)
    requires Ending(env, s, "") && s.rootRefined && "" in s.book.dirs && s.book.dirs[""].pending == map[]
    ensures Noted(FinishCalibration(env, s, ""), "", p) <==> p in PathsOf(env.template) + NmapPaths(env, "")
  {
    hide Ending, Room, Places, Pivot, PathsOf, NmapPaths, PushCandidates, Within, SameHistory, SameClock, SetFor;
    var cal := env.calibrate("", true);
    var s1 := s.(spaDirs := s.spaDirs["" := cal.spa]);
    AlikeKeeps(env, s, s1);
    PivotEnding(env, s1, "", cal.spa);
    OpenKnows(env, Pivot(env, s1, "", cal.spa), "", p);
    ClearedPending(env, Pivot(env, s1, "", cal.spa));
  }

  lemma RestartedBare(b: Book, probes: seq<string>)
    requires "" in b.dirs
    ensures var b' := Restarted(b, "", probes); "" in b'.dirs && b'.dirs[""].pending == map[] && b'.dirs[""].known == {}
  {
  }

  lemma ClearedPending(env: Env, s: Scan)
    requires "" in s.book.dirs
    ensures "" in PushCandidates(env, s, "").book.dirs && PushCandidates(env, s, "").book.dirs[""].pending == map[]
  {
  }

  /** What a second calibration of the root pushes at once, if it has nothing to probe. */
  ghost function NamedAgain(env: Env): set<string>
  {
    if Probes(env, "", env.calibrate("", false).exts, 0) == [] then PathsOf(env.template) + NmapPaths(env, "") else {}
  }

  lemma EndingHas(env: Env, s: Scan, d: string)
    requires Ending(env, s, d)
    ensures d in s.book.dirs
  {
  }

  ghost predicate AllSurvive(env: Env, s: Scan)
    requires "" in s.book.dirs
  {
    forall p :: p in s.book.dirs[""].pending ==> Noted(FinishCalibration(env, s, ""), "", p)
  }

  /** The root's pending seeds all survive its first calibration if and only if it does not start
      over, or nothing was in scope to probe again and the template or nmap names them all. */
  lemma RootSeedsSurvive(env: Env, s: Scan)
    requires Ending(env, s, "")
    ensures "" in s.book.dirs
    ensures AllSurvive(env, s) <==> !Relapses(env, s, "") || s.book.dirs[""].pending.Keys <= NamedAgain(env)
  {
    hide Ending, FinishCalibration, Probes, PathsOf, NmapPaths, Relapses;
    EndingHas(env, s, "");
    forall p | p in s.book.dirs[""].pending
      ensures Noted(FinishCalibration(env, s, ""), "", p) <==> !Relapses(env, s, "") || p in NamedAgain(env)
    {
      if Relapses(env, s, "") {
        RelapseForgets(env, s, p);
      } else {
        FinishNotes(env, s, "", Want("", p, true));
      }
    }
  }

  /** How a pending seed is queued: merged into the first template entry at its path, or by itself. */
  ghost predicate QueuedAs(env: Env, s: Scan, d: string, p: string, c: Candidate)
    requires d in s.book.dirs && p in s.book.dirs[d].pending
  {
    var r := s.book.dirs[d];
    if p in PathsOf(env.template) then
      exists i :: 0 <= i < |env.template| && env.template[i].path == p && FirstThere(env.template, i)
                  && MergeOf(c, TemplateCandidate(env, d, r.depth, env.template[i]), r.pending[p])
    else c == Scored(env, s.scoring, r.pending[p])
  }

  /** Every seed pending when a directory opens is queued there, with the larger prior and exactly the sources
      of the seed and the template entry it meets, or as it is. */
  lemma SeedsCarried(env: Env, s: Scan, d: string, p: string)
    requires d in s.book.dirs && PendingOk(s.book.dirs[d].pending, d) && p in s.book.dirs[d].pending
    ensures exists c :: c in PushCandidates(env, s, d).book.queue && KeyOf(c) == (d, p) && QueuedAs(env, s, d, p, c)
  {
    hide Leftovers, Score, NmapCandidates, PathsOf, BudgetOf, Folded, MergeOf, CandidateSet, Merged;
    var r := s.book.dirs[d];
    if p in PathsOf(env.template) {
      var i := FirstOne(env.template, p);
      FoldedMerges(env, s.scoring, d, r.depth, env.template, r.pending, i);
      var e := TemplateCandidate(env, d, r.depth, env.template[i]);
      MergedIs(env, s.scoring, e, r.pending[p]);
      MergedKey(e, r.pending[p]);
      InSet(env, s, d, i, p);
      assert QueuedAs(env, s, d, p, Scored(env, s.scoring, Merged(e, r.pending[p])));
    } else {
      InSet(env, s, d, 0, p);
      assert QueuedAs(env, s, d, p, Scored(env, s.scoring, r.pending[p]));
    }
  }

  /** What the template's i-th entry becomes, and each left-over seed, is queued. */
  lemma InSet(env: Env, s: Scan, d: string, i: nat, p: string)
    requires d in s.book.dirs && PendingOk(s.book.dirs[d].pending, d)
    ensures var r := s.book.dirs[d];
            && (i < |env.template| ==> Scored(env, s.scoring, FromEntry(env, d, r.depth, env.template, r.pending, i))
                                       in PushCandidates(env, s, d).book.queue)
            && (p in r.pending && p !in PathsOf(env.template) ==>
                  Scored(env, s.scoring, r.pending[p]) in PushCandidates(env, s, d).book.queue)
  {
    hide Leftovers, Scored, NmapCandidates, PathsOf, BudgetOf, Folded, FromEntry, FromTemplate, Keys, WithoutFirst;
    var r := s.book.dirs[d];
    var folded := Folded(env, s.scoring, d, r.depth, env.template, r.pending);
    FoldedFacts(env, s.scoring, d, r.depth, env.template, r.pending);
    if i < |env.template| {
      FoldedMerges(env, s.scoring, d, r.depth, env.template, r.pending, i);
      assert folded.0[i] in multiset(folded.0);
    }
    if p in r.pending && p !in PathsOf(env.template) {
      LeftoverHas(env, s.scoring, d, r.pending, PathsOf(env.template), p);
    }
  }
}
