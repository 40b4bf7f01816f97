/** What the operations do to the tree: which directories they add and how deep, what they leave of the others,
    and how deep every candidate is. */
module Growth {
  import opened ScanTypes
  import opened Counting
  import opened Text
  import opened Provenance
  import opened Paths
  import opened Generation
  import opened Accounting
  import opened Pushing
  import opened ScanModel
  import opened Theorems

  function Slashes(s: string): nat
  {
    if s == "" then 0 else Slashes(s[..|s| - 1]) + if s[|s| - 1] == '/' then 1 else 0
  }

  lemma {:induction false} SlashesAppend(a: string, b: string)
    ensures Slashes(a + b) == Slashes(a) + Slashes(b)
  {
    if b == "" {
      assert a + b == a;
    } else {
      assert (a + b)[..|a + b| - 1] == a + b[..|b| - 1];
      SlashesAppend(a, b[..|b| - 1]);
    }
  }

  lemma ChildSlashes(d: string, p: string)
    ensures Slashes(d + "/" + p) >= Slashes(d) + 1
  {
    SlashesAppend(d, "/");
    SlashesAppend(d + "/", p);
    assert "/"[..0] == "";
  }

  lemma {:induction false} CleanSlashes(s: string)
    requires '/' !in s
    ensures Slashes(s) == 0
  {
    if s != "" { CleanSlashes(s[..|s| - 1]); }
  }

  ghost predicate Clean(segs: seq<string>)
  {
    forall i :: 0 <= i < |segs| ==> '/' !in segs[i]
  }

  /** The directory of the first n segments is n levels down. */
  lemma {:induction false} SegmentSlashes(segs: seq<string>, n: nat)
    requires n <= |segs| && Clean(segs)
    ensures Slashes(DirOf(segs, n)) == n
  {
    if n > 0 {
      var d := DirOf(segs, n - 1);
      SegmentSlashes(segs, n - 1);
      SlashesAppend(d, "/");
      SlashesAppend(d + "/", segs[n - 1]);
      CleanSlashes(segs[n - 1]);
      assert "/"[..0] == "";
    }
  }

  // ---- Levels ---------------------------------------------------------------------------

  /** A candidate is below its directory, at most one level, and no deeper than any limit allows. */
  predicate Fits(env: Env, dirs: map<string, DirRec>, c: Candidate)
  {
    && c.parentDir in dirs && dirs[c.parentDir].depth < c.depth <= Slashes(c.parentDir) + 1 && c.depth <= Deepest(env)
  }

  predicate InScope(env: Env, d: string, paths: seq<string>)
  {
    forall p :: p in paths ==> env.inScope(Url(env, d, p))
  }

  /** A directory is no deeper than its name says and than any limit allows, its probes are in scope, and while it calibrates
      it is no trap. */
  predicate Placed(env: Env, d: string, r: DirRec)
  {
    && 0 <= r.depth <= Slashes(d) && r.depth < Deepest(env) && (d != "" ==> r.depth >= 1) && InScope(env, d, r.probeQueue)
    && (r.phase == Calibrating ==> !r.capped && !r.wildcard)
  }

  ghost predicate AllPlaced(env: Env, dirs: map<string, DirRec>)
  {
    forall d :: d in dirs ==> Placed(env, d, dirs[d])
  }

  ghost predicate AllFit(env: Env, dirs: map<string, DirRec>, m: multiset<Candidate>)
  {
    forall c :: c in m ==> Fits(env, dirs, c)
  }

  /** The seeds pending in d, in these directories. */
  ghost predicate PendingFit(env: Env, dirs: map<string, DirRec>, d: string, pending: map<string, Candidate>)
  {
    forall p :: p in pending ==> pending[p].parentDir == d && Fits(env, dirs, pending[p])
  }

  ghost predicate AllPending(env: Env, dirs: map<string, DirRec>)
  {
    forall d :: d in dirs ==> PendingFit(env, dirs, d, dirs[d].pending)
  }

  ghost predicate Leveled(env: Env, b: Book)
  {
    AllPlaced(env, b.dirs) && AllFit(env, b.dirs, b.queue) && AllFit(env, b.dirs, b.flying) && AllPending(env, b.dirs)
  }

  /** What a record keeps: its depth; once past calibration, that; and whether it is a trap. */
  predicate KeptRec(a: DirRec, b: DirRec)
  {
    && b.depth == a.depth && (a.phase != Calibrating ==> b.phase != Calibrating)
    && (a.phase != Calibrating || (!a.capped && !a.wildcard) ==> b.capped == a.capped && b.wildcard == a.wildcard)
  }

  ghost predicate KeptDirs(dirs: map<string, DirRec>, dirs': map<string, DirRec>)
  {
    forall d :: d in dirs ==> d in dirs' && KeptRec(dirs[d], dirs'[d])
  }

  /** New directories are no traps. */
  ghost predicate Untrapped(dirs: map<string, DirRec>, dirs': map<string, DirRec>)
  {
    forall d :: d in dirs' && d !in dirs ==> !dirs'[d].capped && !dirs'[d].wildcard
  }

  /** From s to r the records are kept, new ones are no traps, overrides are as they were, and levels stay right. */
  ghost predicate Grows(env: Env, s: Scan, r: Scan)
  {
    && r.scoring.overrides == s.scoring.overrides && KeptDirs(s.book.dirs, r.book.dirs) && Untrapped(s.book.dirs, r.book.dirs)
    && (Leveled(env, s.book) ==> Leveled(env, r.book))
  }

  lemma Then(env: Env, s: Scan, t: Scan, r: Scan)
    requires Grows(env, s, t) && Grows(env, t, r)
    ensures Grows(env, s, r)
  {
    hide Leveled;
  }

  /** Nothing new in the queue or the flight, and every directory where it was: everything fits as before. */
  lemma FitStill(env: Env, dirs: map<string, DirRec>, dirs': map<string, DirRec>, m: multiset<Candidate>, m': multiset<Candidate>)
    requires AllFit(env, dirs, m) && KeptDirs(dirs, dirs') && forall c :: c in m' ==> c in m
    ensures AllFit(env, dirs', m')
  {
    hide Slashes, Deepest;
  }

  lemma PendingStill(env: Env, dirs: map<string, DirRec>, dirs': map<string, DirRec>, d: string, pending: map<string, Candidate>)
    requires PendingFit(env, dirs, d, pending) && KeptDirs(dirs, dirs')
    ensures PendingFit(env, dirs', d, pending)
  {
    hide Slashes, Deepest;
  }

  /** A step that touches no directory, and neither the queue nor the flight but to take out. */
  lemma MovedGrows(env: Env, s: Scan, r: Scan)
    requires r.book.dirs == s.book.dirs && r.scoring.overrides == s.scoring.overrides
    requires (forall c :: c in r.book.queue ==> c in s.book.queue) && forall c :: c in r.book.flying ==> c in s.book.flying
    ensures Grows(env, s, r)
  {
    hide Fits, Placed;
  }

  /** One record rewritten, but kept, with the seeds pending in it. */
  ghost predicate OneTouched(dirs: map<string, DirRec>, dirs': map<string, DirRec>, d: string)
  {
    && d in dirs && d in dirs' && dirs' == dirs[d := dirs'[d]] && KeptRec(dirs[d], dirs'[d])
    && (forall p :: p in dirs'[d].probeQueue ==> p in dirs[d].probeQueue)
    && dirs'[d].pending == dirs[d].pending && (dirs'[d].phase == Calibrating ==> dirs[d].phase == Calibrating)
  }

  lemma TouchedDirs(env: Env, dirs: map<string, DirRec>, dirs': map<string, DirRec>, d: string)
    requires OneTouched(dirs, dirs', d)
    ensures KeptDirs(dirs, dirs') && Untrapped(dirs, dirs')
    ensures AllPlaced(env, dirs) ==> AllPlaced(env, dirs')
    ensures AllPending(env, dirs) ==> AllPending(env, dirs')
  {
    hide Slashes, Deepest, PendingFit;
    if AllPending(env, dirs) {
      forall e | e in dirs' ensures PendingFit(env, dirs', e, dirs'[e].pending) {
        PendingStill(env, dirs, dirs', e, dirs[e].pending);
      }
    }
  }

  lemma TouchedGrows(env: Env, s: Scan, r: Scan, d: string)
    requires OneTouched(s.book.dirs, r.book.dirs, d) && r.scoring.overrides == s.scoring.overrides
    requires (forall c :: c in r.book.queue ==> c in s.book.queue)
    requires forall c :: c in r.book.flying ==> c in s.book.flying || c in s.book.queue
    ensures Grows(env, s, r)
  {
    hide AllFit, AllPlaced, AllPending, KeptDirs, Untrapped, OneTouched;
    TouchedDirs(env, s.book.dirs, r.book.dirs, d);
    if Leveled(env, s.book) {
      FitStill(env, s.book.dirs, r.book.dirs, s.book.queue, r.book.queue);
      FitBoth(env, s.book.dirs, s.book.queue, s.book.flying);
      FitStill(env, s.book.dirs, r.book.dirs, s.book.queue + s.book.flying, r.book.flying);
    }
  }

  lemma FitBoth(env: Env, dirs: map<string, DirRec>, a: multiset<Candidate>, b: multiset<Candidate>)
    ensures AllFit(env, dirs, a + b) <==> AllFit(env, dirs, a) && AllFit(env, dirs, b)
  {
    hide Fits;
    if AllFit(env, dirs, a + b) {
      forall c | c in a ensures Fits(env, dirs, c) { assert c in a + b; }
      forall c | c in b ensures Fits(env, dirs, c) { assert c in a + b; }
    }
  }

  lemma ScoredFits(env: Env, dirs: map<string, DirRec>, s: Scoring, c: Candidate)
    ensures Fits(env, dirs, Scored(env, s, c)) == Fits(env, dirs, c)
  {
    hide Slashes, Deepest, Score;
  }

  /** A step that rescores the queue. */
  lemma RescoredGrows(env: Env, s: Scan, r: Scan, scoring: Scoring)
    requires r.book.dirs == s.book.dirs && r.book.flying == s.book.flying && r.scoring.overrides == s.scoring.overrides
    requires r.book.queue == MapAll(s.book.queue, Scorer(env, scoring))
    ensures Grows(env, s, r)
  {
    hide Fits, Placed, Score, MapAll, AllPlaced, AllPending;
    var f := Scorer(env, scoring);
    MapPreimage(s.book.queue, f);
    forall c | c in r.book.queue && Leveled(env, s.book) ensures Fits(env, r.book.dirs, c) {
      var x :| x in s.book.queue && f(x) == c;
      ScoredFits(env, s.book.dirs, scoring, x);
    }
  }

  /** One candidate more in the queue, or in place of another. */
  lemma AddedFits(env: Env, dirs: map<string, DirRec>, m: multiset<Candidate>, m': multiset<Candidate>, c: Candidate)
    requires AllFit(env, dirs, m) && Fits(env, dirs, c) && forall x :: x in m' ==> x in m || x == c
    ensures AllFit(env, dirs, m')
  {
    hide Fits;
  }

  // ---- Calibration ----------------------------------------------------------------------

  /** A directory may be added here, so deep. */
  predicate Addable(env: Env, d: string, depth: int)
  {
    0 <= depth <= Slashes(d) && depth < Deepest(env) && (d != "" ==> depth >= 1)
  }

  lemma {:induction false} DrawnInScope(env: Env, d: string, ext: string, k: nat, i: nat)
    requires i <= N_PROBES
    ensures InScope(env, d, ProbesOf(env, d, ext, k, i))
    decreases N_PROBES - i
  {
    hide Url;
    if i < N_PROBES { DrawnInScope(env, d, ext, k, i + 1); }
  }

  lemma {:induction false} ProbesInScope(env: Env, d: string, exts: seq<string>, e: nat)
    requires e <= |exts|
    ensures InScope(env, d, Probes(env, d, exts, e))
    decreases |exts| - e
  {
    hide ProbesOf, Url;
    if e < |exts| {
      DrawnInScope(env, d, exts[e], N_PROBES * e, 0);
      ProbesInScope(env, d, exts, e + 1);
    }
  }

  /** A fresh record is put at d, where there was none or one that was calibrating. */
  lemma FreshGrows(env: Env, s: Scan, r: Scan, d: string, depth: int, probes: seq<string>)
    requires if d in s.book.dirs then s.book.dirs[d].phase == Calibrating && depth == s.book.dirs[d].depth else Addable(env, d, depth)
    requires r == s.(book := s.book.(dirs := s.book.dirs[d := FreshDir(depth, probes)], order := r.book.order)) && InScope(env, d, probes)
    ensures Grows(env, s, r)
  {
    hide Slashes, Deepest, AllFit, PendingFit;
    var dirs, dirs' := s.book.dirs, r.book.dirs;
    assert KeptDirs(dirs, dirs');
    if Leveled(env, s.book) {
      FitStill(env, dirs, dirs', s.book.queue, s.book.queue);
      FitStill(env, dirs, dirs', s.book.flying, s.book.flying);
      forall e | e in dirs' ensures PendingFit(env, dirs', e, dirs'[e].pending) {
        if e == d { NonePending(env, dirs', d); } else { PendingStill(env, dirs, dirs', e, dirs[e].pending); }
      }
    }
  }

  lemma NonePending(env: Env, dirs: map<string, DirRec>, d: string)
    ensures PendingFit(env, dirs, d, map[])
  {
  }

  lemma PivotGrows(env: Env, s: Scan, d: string, spa: bool)
    ensures Grows(env, s, Pivot(env, s, d, spa))
  {
    hide Score, MapAll, Grows;
    if d == "" && spa {
      RescoredGrows(env, s, Pivot(env, s, d, spa), s.scoring.(spaMode := true));
    } else {
      MovedGrows(env, s, s);
    }
  }

  lemma RefinedGrows(env: Env, s: Scan, profile: nat)
    ensures var r := ReprioritizeIfChanged(env, s.(rootRefined := true, scoring := s.scoring.(profile := profile)));
            Grows(env, s, r) && r.book.dirs == s.book.dirs
  {
    hide Score, MapAll, Grows;
    var s1 := s.(rootRefined := true, scoring := s.scoring.(profile := profile));
    if env.signature(profile) == s.lastSig {
      MovedGrows(env, s, s1);
    } else {
      RescoredGrows(env, s, ReprioritizeIfChanged(env, s1), s1.scoring);
    }
  }

  /** Under d, one level below it, or as deep as a seed pending there. */
  ghost predicate Pushed(d: string, depth: int, pending: map<string, Candidate>, c: Candidate)
  {
    && c.parentDir == d && (c.depth == depth + 1 || exists p :: p in pending && c.depth == pending[p].depth)
  }

  lemma FromEntryPushed(env: Env, s: Scoring, d: string, depth: int, pending: map<string, Candidate>, i: nat)
    requires i < |env.template|
    ensures Pushed(d, depth, pending, Scored(env, s, FromEntry(env, d, depth, env.template, pending, i)))
  {
    hide Score;
  }

  lemma SetPushed(env: Env, s: Scoring, d: string, depth: int, pending: map<string, Candidate>, c: Candidate)
    requires c in SetFor(env, s, d, depth, pending) && forall p :: p in pending ==> pending[p].parentDir == d
    ensures Pushed(d, depth, pending, c)
  {
    hide Score, FoldEntry, Folded, FromTemplate, PathsOf, FromEntry;
    var folded := Folded(env, s, d, depth, env.template, pending);
    FoldedFacts(env, s, d, depth, env.template, pending);
    if c in folded.0 {
      var i :| 0 <= i < |folded.0| && folded.0[i] == c;
      FoldedMerges(env, s, d, depth, env.template, pending, i);
      FromEntryPushed(env, s, d, depth, pending, i);
    } else if c in Leftovers(env, s, folded.1) {
      var p :| p in folded.1 && Scored(env, s, folded.1[p]) == c;
      assert c.depth == pending[p].depth;
    } else {
      assert c in NmapCandidates(env, depth, d);
      var i :| 0 <= i < |NmapCandidates(env, depth, d)| && NmapCandidates(env, depth, d)[i] == c;
    }
  }

  lemma PushedFits(env: Env, dirs: map<string, DirRec>, d: string, c: Candidate)
    requires d in dirs && Placed(env, d, dirs[d]) && PendingFit(env, dirs, d, dirs[d].pending)
    requires Pushed(d, dirs[d].depth, dirs[d].pending, c)
    ensures Fits(env, dirs, c)
  {
    hide Slashes;
  }

  lemma PushGrows(env: Env, s: Scan, d: string)
    requires d in s.book.dirs
    ensures Grows(env, s, PushCandidates(env, s, d))
  {
    hide Keys, WithoutFirst, BudgetOf, SetFor, Slashes, Deepest, AllFit, PendingFit, Pushed, Fits;
    var r := PushCandidates(env, s, d);
    var dirs, dirs' := s.book.dirs, r.book.dirs;
    if Leveled(env, s.book) {
      SetFits(env, s, d);
      FitBoth(env, dirs, s.book.queue, CandidateSet(env, s, d));
      FitStill(env, dirs, dirs', s.book.queue + CandidateSet(env, s, d), r.book.queue);
      FitStill(env, dirs, dirs', s.book.flying, s.book.flying);
      forall e | e in dirs' ensures PendingFit(env, dirs', e, dirs'[e].pending) {
        if e == d { NonePending(env, dirs', d); } else { PendingStill(env, dirs, dirs', e, dirs[e].pending); }
      }
    }
  }

  lemma SetFits(env: Env, s: Scan, d: string)
    requires d in s.book.dirs && Leveled(env, s.book)
    ensures AllFit(env, s.book.dirs, CandidateSet(env, s, d))
  {
    hide SetFor, Slashes, Deepest, Pushed, Fits, Placed;
    var r := s.book.dirs[d];
    PendingUnder(env, s.book.dirs, d);
    forall c | c in CandidateSet(env, s, d) ensures Fits(env, s.book.dirs, c) {
      SetPushed(env, s.scoring, d, r.depth, r.pending, c);
      PushedFits(env, s.book.dirs, d, c);
    }
  }

  lemma PendingUnder(env: Env, dirs: map<string, DirRec>, d: string)
    requires d in dirs && PendingFit(env, dirs, d, dirs[d].pending)
    ensures forall p :: p in dirs[d].pending ==> dirs[d].pending[p].parentDir == d
  {
  }

  lemma EndGrows(env: Env, s: Scan, d: string, spa: bool)
    requires d in s.book.dirs
    ensures Grows(env, s, PushCandidates(env, Pivot(env, s, d, spa), d))
  {
    hide Grows, Pivot, PushCandidates;
    PivotGrows(env, s, d, spa);
    PushGrows(env, Pivot(env, s, d, spa), d);
    Then(env, s, Pivot(env, s, d, spa), PushCandidates(env, Pivot(env, s, d, spa), d));
  }

  lemma SpaDirGrows(env: Env, s: Scan, d: string, spa: bool)
    ensures Grows(env, s, s.(spaDirs := s.spaDirs[d := spa]))
  {
    hide Grows;
    MovedGrows(env, s, s.(spaDirs := s.spaDirs[d := spa]));
  }

  /** Ending a calibration adds no directory but to the candidates of its own. */
  lemma {:induction false} FinishGrows(env: Env, s: Scan, d: string)
    requires d in s.book.dirs && s.book.dirs[d].phase == Calibrating
    ensures Grows(env, s, FinishCalibration(env, s, d))
    decreases if s.rootRefined then 0 else 1, 1
  {
    hide Grows, Pivot, PushCandidates, Grew, ReprioritizeIfChanged, Recalibrate;
    var cal := env.calibrate(d, s.rootRefined);
    var s1 := s.(spaDirs := s.spaDirs[d := cal.spa]);
    SpaDirGrows(env, s, d, cal.spa);
    if d == "" && !s.rootRefined {
      var s2 := ReprioritizeIfChanged(env, s1.(rootRefined := true, scoring := s1.scoring.(profile := cal.profile)));
      RefinedGrows(env, s1, cal.profile);
      Then(env, s, s1, s2);
      if Grew(s2.exts, cal.exts) {
        MovedGrows(env, s2, s2.(exts := cal.exts));
        Then(env, s, s2, s2.(exts := cal.exts));
        AgainGrows(env, s2.(exts := cal.exts), d);
        Then(env, s, s2.(exts := cal.exts), FinishCalibration(env, s, d));
      } else {
        EndGrows(env, s2, d, cal.spa);
        Then(env, s, s2, FinishCalibration(env, s, d));
      }
    } else {
      EndGrows(env, s1, d, cal.spa);
      Then(env, s, s1, FinishCalibration(env, s, d));
    }
  }

  lemma {:induction false} AgainGrows(env: Env, s: Scan, d: string)
    requires d in s.book.dirs && s.book.dirs[d].phase == Calibrating && s.rootRefined
    ensures Grows(env, s, Recalibrate(env, s, d))
    decreases 0, 2
  {
    hide Grows, FinishCalibration, Probes, WithoutFirst;
    var probes := Probes(env, d, s.exts, 0);
    var s1 := s.(book := Restarted(s.book, d, probes));
    ProbesInScope(env, d, s.exts, 0);
    FreshGrows(env, s, s1, d, s.book.dirs[d].depth, probes);
    if probes == [] {
      FinishGrows(env, s1, d);
      Then(env, s, s1, FinishCalibration(env, s1, d));
    }
  }

  lemma StartGrows(env: Env, s: Scan, d: string, depth: int)
    requires d !in s.book.dirs && Addable(env, d, depth)
    ensures Grows(env, s, StartCalibration(env, s, d, depth))
  {
    hide Grows, FinishCalibration, Probes, Addable;
    var probes := Probes(env, d, s.exts, 0);
    var s1 := s.(book := Started(s.book, d, depth, probes));
    ProbesInScope(env, d, s.exts, 0);
    FreshGrows(env, s, s1, d, depth, probes);
    if probes == [] {
      FinishGrows(env, s1, d);
      Then(env, s, s1, FinishCalibration(env, s1, d));
    }
  }

  lemma ChildGrows(env: Env, s: Scan, d: string, depth: int)
    requires Addable(env, d, depth)
    ensures Grows(env, s, EnqueueChild(env, s, d, depth))
  {
    hide Grows, StartCalibration, Addable;
    if d in s.book.dirs { MovedGrows(env, s, s); } else { StartGrows(env, s, d, depth); }
  }

  // ---- Seeds ----------------------------------------------------------------------------

  /** A seed for d is at the level of its path. */
  predicate SeedFits(env: Env, d: string, c: Candidate)
  {
    c.parentDir == d && c.depth == Slashes(d) + 1 <= Deepest(env)
  }

  lemma SeedIsBelow(env: Env, dirs: map<string, DirRec>, d: string, c: Candidate)
    requires d in dirs && Placed(env, d, dirs[d]) && SeedFits(env, d, c)
    ensures Fits(env, dirs, c)
  {
  }

  lemma SeedUnder(env: Env, d: string, c: Candidate)
    requires SeedFits(env, d, c)
    ensures c.parentDir == d
  {
  }

  lemma MergedFits(env: Env, dirs: map<string, DirRec>, a: Candidate, b: Candidate)
    ensures Fits(env, dirs, Merged(a, b)) == Fits(env, dirs, a)
  {
    hide Slashes, Deepest;
  }

  lemma HeldGrows(env: Env, s: Scan, d: string, c: Candidate)
    requires d in s.book.dirs && SeedFits(env, d, c)
    ensures Grows(env, s, s.(book := Held(s.book, d, c)))
  {
    hide Slashes, Deepest, AllFit, PendingFit, Fits, Merged, SeedFits;
    var r := s.(book := Held(s.book, d, c));
    var dirs, dirs' := s.book.dirs, r.book.dirs;
    assert KeptDirs(dirs, dirs');
    SeedUnder(env, d, c);
    if Leveled(env, s.book) {
      FitStill(env, dirs, dirs', s.book.queue, s.book.queue);
      FitStill(env, dirs, dirs', s.book.flying, s.book.flying);
      SeedIsBelow(env, dirs, d, c);
      HeldFits(env, dirs, d, dirs[d].pending, c);
      forall e | e in dirs' ensures PendingFit(env, dirs', e, dirs'[e].pending) {
        PendingStill(env, dirs, dirs', e, if e == d then dirs'[d].pending else dirs[e].pending);
      }
    }
  }

  lemma HeldFits(env: Env, dirs: map<string, DirRec>, d: string, pending: map<string, Candidate>, c: Candidate)
    requires PendingFit(env, dirs, d, pending) && Fits(env, dirs, c) && c.parentDir == d
    ensures PendingFit(env, dirs, d, pending[c.path := if c.path in pending then Merged(pending[c.path], c) else c])
  {
    hide Fits;
    if c.path in pending { MergedFits(env, dirs, pending[c.path], c); }
  }

  lemma SwappedGrows(env: Env, s: Scan, pick: Candidate, c: Candidate)
    requires pick in s.book.queue
    ensures Grows(env, s, s.(book := Swapped(s.book, pick, Scored(env, s.scoring, Merged(pick, c)))))
  {
    hide Fits, Placed, Score, Merged;
    var m := Scored(env, s.scoring, Merged(pick, c));
    MergedFits(env, s.book.dirs, pick, c);
    ScoredFits(env, s.book.dirs, s.scoring, Merged(pick, c));
    if Leveled(env, s.book) { AddedFits(env, s.book.dirs, s.book.queue, Swapped(s.book, pick, m).queue, m); }
  }

  lemma AddedGrows(env: Env, s: Scan, d: string, c: Candidate)
    requires d in s.book.dirs && c.parentDir == d && s.book.dirs[d].phase != Calibrating
    ensures Grows(env, s, s.(book := Added(s.book, d, Scored(env, s.scoring, c.(depth := s.book.dirs[d].depth + 1)))))
  {
    hide Slashes, Deepest, AllFit, AllPlaced, AllPending, Score, KeyOf, KeptDirs, Untrapped;
    var x := Scored(env, s.scoring, c.(depth := s.book.dirs[d].depth + 1));
    var r := s.(book := Added(s.book, d, x));
    TouchedDirs(env, s.book.dirs, r.book.dirs, d);
    if Leveled(env, s.book) {
      FitStill(env, s.book.dirs, r.book.dirs, s.book.queue, s.book.queue);
      FitStill(env, s.book.dirs, r.book.dirs, s.book.flying, s.book.flying);
      NextFits(env, r.book.dirs, d, x);
      AddedFits(env, r.book.dirs, s.book.queue, r.book.queue, x);
    }
  }

  lemma NextFits(env: Env, dirs: map<string, DirRec>, d: string, c: Candidate)
    requires AllPlaced(env, dirs) && d in dirs && c.parentDir == d && c.depth == dirs[d].depth + 1
    ensures Fits(env, dirs, c)
  {
    hide Slashes, Deepest;
    assert Placed(env, d, dirs[d]);
  }

  lemma StageGrows(env: Env, s: Scan, d: string, c: Candidate, pick: Candidate)
    requires SeedFits(env, d, c)
    ensures Grows(env, s, StageDirCandidate(env, s, d, c, pick))
  {
    hide Held, Swapped, Added, Score, Merged, Grows, SeedFits;
    var s1 := s.(book := s.book.(log := s.book.log.(staged := s.book.log.staged + 1)));
    MovedGrows(env, s, s1);
    if d in s.book.dirs {
      SeedUnder(env, d, c);
      if s.book.dirs[d].phase == Calibrating {
        HeldGrows(env, s1, d, c);
      } else if c.path in s.book.dirs[d].known {
        if pick in s.book.queue { SwappedGrows(env, s1, pick, c); }
        MovedGrows(env, s1, s1);
      } else {
        AddedGrows(env, s1, d, c);
      }
      Then(env, s, s1, StageDirCandidate(env, s, d, c, pick));
    }
  }

  lemma ChainStepGrows(env: Env, s: Scan, segs: seq<string>, prio: real, provenance: string, pick: Candidate, i: nat)
    requires i + 1 < |segs| <= Deepest(env) && Clean(segs)
    ensures Grows(env, s, ChainStep(env, s, segs, prio, provenance, pick, i))
  {
    hide StageDirCandidate, EnqueueChild, Grows, DirOf, Slashes, Deepest, Clean;
    var s1 := s.(book := s.book.(log := s.book.log.(chained := s.book.log.chained + 1)));
    var s2 := EnqueueChild(env, s1, DirOf(segs, i + 1), i + 1);
    MovedGrows(env, s, s1);
    SegmentSlashes(segs, i);
    SegmentSlashes(segs, i + 1);
    ChildGrows(env, s1, DirOf(segs, i + 1), i + 1);
    Then(env, s, s1, s2);
    StageGrows(env, s2, DirOf(segs, i), AncestorCandidate(segs, i, prio, provenance), pick);
    Then(env, s, s2, ChainStep(env, s, segs, prio, provenance, pick, i));
  }

  lemma {:induction false} ChainGrows(env: Env, s: Scan, segs: seq<string>, prio: real, provenance: string,
                                      picks: seq<Candidate>, n: nat)
    requires n < |segs| <= Deepest(env) && |picks| == |segs| && Clean(segs)
    ensures Grows(env, s, EnsureDirChain(env, s, segs, prio, provenance, picks, n))
    decreases n
  {
    hide ChainStep, Grows, Deepest, Clean;
    if n == 0 {
      MovedGrows(env, s, s);
    } else {
      var t := EnsureDirChain(env, s, segs, prio, provenance, picks, n - 1);
      ChainGrows(env, s, segs, prio, provenance, picks, n - 1);
      ChainStepGrows(env, t, segs, prio, provenance, picks[n - 1], n - 1);
      Then(env, s, t, EnsureDirChain(env, s, segs, prio, provenance, picks, n));
    }
  }

  lemma SeedGrows(env: Env, s: Scan, sd: Seed, picks: seq<Candidate>)
    requires |picks| == |Segments(sd.path)|
    ensures Grows(env, s, EnqueueSeed(env, s, sd, picks))
  {
    hide StageDirCandidate, EnsureDirChain, Segments, DirOf, Admitted, Grows, Slashes, Deepest;
    MovedGrows(env, s, s);
    if Admitted(env, sd) {
      var segs := Segments(sd.path);
      var n := |segs| - 1;
      AdmittedShort(env, sd);
      SegmentsClean(sd.path);
      SegmentSlashes(segs, n);
      var s0 := s.(book := s.book.(log := s.book.log.(seeds := s.book.log.seeds + 1)));
      MovedGrows(env, s, s0);
      var s1 := EnsureDirChain(env, s0, segs, sd.basePrio, sd.provenance, picks, n);
      ChainGrows(env, s0, segs, sd.basePrio, sd.provenance, picks, n);
      Then(env, s, s0, s1);
      StageGrows(env, s1, DirOf(segs, n), LeafCandidate(segs, sd), picks[n]);
      Then(env, s, s1, EnqueueSeed(env, s, sd, picks));
    }
  }

  lemma SegmentsClean(path: string)
    ensures Clean(Segments(path))
  {
    SplitIsClean(Trim(path, '/'), '/');
  }

  // ---- Results --------------------------------------------------------------------------

  lemma {:induction false} AllGrow(env: Env, s: Scan, d: string, cs: seq<Candidate>)
    requires d in s.book.dirs && s.book.dirs[d].phase != Calibrating && forall i :: 0 <= i < |cs| ==> cs[i].parentDir == d
    ensures Grows(env, s, EnqueueAll(env, s, d, cs))
  {
    hide Added, Grows, Score;
    if cs == [] {
      MovedGrows(env, s, s);
    } else {
      var n := |cs| - 1;
      AllGrow(env, s, d, cs[..n]);
      var t := EnqueueAll(env, s, d, cs[..n]);
      StillOpen(env, s, t, d);
      GeneratedGrows(env, t, d, cs[n]);
      Then(env, s, t, EnqueueAll(env, s, d, cs));
    }
  }

  lemma StillOpen(env: Env, s: Scan, t: Scan, d: string)
    requires Grows(env, s, t) && d in s.book.dirs
    ensures d in t.book.dirs && KeptRec(s.book.dirs[d], t.book.dirs[d])
  {
  }

  lemma GeneratedGrows(env: Env, s: Scan, d: string, c: Candidate)
    requires d in s.book.dirs && s.book.dirs[d].phase != Calibrating && c.parentDir == d
    ensures Grows(env, s, EnqueueGenerated(env, s, d, c))
  {
    hide Added, Grows, Score;
    MovedGrows(env, s, s);
    AddedGrows(env, s, d, c);
  }

  lemma LearnGrows(env: Env, s: Scan, c: Candidate, r: Response, now: real)
    requires r.Answered? && c.parentDir in s.book.dirs && s.book.dirs[c.parentDir].phase != Calibrating
    ensures Grows(env, s, LearnFromHit(env, s, c, r, now))
  {
    hide EnqueueAll, Generate, Learnable, Score, MapAll, Grows, MarkDirty;
    MovedGrows(env, s, s);
    if Learnable(env, s, c.parentDir, r.confidence) {
      var lesson := Lesson(c.parentDir, c.path, r.protected, r.indexOf);
      var s1 := s.(scoring := s.scoring.(lessons := s.scoring.lessons + [lesson]));
      var s2 := EnqueueAll(env, s1, c.parentDir, Generate(c));
      MovedGrows(env, s, s1);
      AllGrow(env, s1, c.parentDir, Generate(c));
      Then(env, s, s1, s2);
      MarkGrows(env, s2, now);
      Then(env, s, s2, MarkDirty(env, s2, now));
    }
  }

  lemma MarkGrows(env: Env, s: Scan, now: real)
    ensures Grows(env, s, MarkDirty(env, s, now))
  {
    hide Score, MapAll, Grows;
    var r := MarkDirty(env, s, now);
    if r.book == s.book { MovedGrows(env, s, r); } else { RescoredGrows(env, s, r, s.scoring); }
  }

  lemma ChildAddable(env: Env, dirs: map<string, DirRec>, c: Candidate)
    requires AllPlaced(env, dirs) && Fits(env, dirs, c) && c.depth + 1 <= env.maxDepth
    ensures Addable(env, c.parentDir + "/" + c.path, c.depth)
  {
    assert Placed(env, c.parentDir, dirs[c.parentDir]);
    ChildSlashes(c.parentDir, c.path);
  }

  lemma HitGrows(env: Env, s: Scan, c: Candidate, r: Response, now: real)
    requires r.Answered? && Leveled(env, s.book) && c in s.book.flying
    requires c.parentDir in s.book.dirs && s.book.dirs[c.parentDir].phase != Calibrating
    ensures Grows(env, s, HandleHit(env, s, c, r, now))
  {
    hide LearnFromHit, EnqueueChild, Aliased, Grows, Url, Fits, SameClock, Addable;
    var url := Url(env, c.parentDir, c.path);
    if r.hash in s.seen {
      MovedGrows(env, s, HandleHit(env, s, c, r, now));
    } else {
      var s1 := s.(seen := s.seen[r.hash := [url]],
                   findings := s.findings + [Finding(url, r.hash, r.confidence, c.provenance, [])],
                   book := s.book.(log := s.book.log.(novel := s.book.log.novel + 1)));
      var s2 := LearnFromHit(env, s1, c, r, now);
      MovedGrows(env, s, s1);
      LearnGrows(env, s1, c, r, now);
      Then(env, s, s1, s2);
      if WithinLimits(env, s2, c, r.late) {
        ChildAddable(env, s.book.dirs, c);
        ChildGrows(env, s2, c.parentDir + "/" + c.path, c.depth);
        Then(env, s, s2, EnqueueChild(env, s2, c.parentDir + "/" + c.path, c.depth));
      }
    }
  }

  // ---- Traps ----------------------------------------------------------------------------

  /** As with KeptRec, but the record may have become a trap: capped with a tarpit, a wildcard suspect with a wildcard. */
  predicate TrapRec(a: DirRec, b: DirRec, tarpit: bool, wildcard: bool)
  {
    && b.depth == a.depth && (a.phase != Calibrating ==> b.phase != Calibrating)
    && (a.phase != Calibrating || (!a.capped && !a.wildcard) ==>
          b.capped == (a.capped || tarpit) && b.wildcard == (a.wildcard || wildcard))
  }

  /** From s to r the tree grew, and of the directories that were there d alone may have become a trap. */
  ghost predicate Traps(env: Env, s: Scan, r: Scan, d: string, tarpit: bool, wildcard: bool)
  {
    && r.scoring.overrides == s.scoring.overrides && Untrapped(s.book.dirs, r.book.dirs)
    && (forall e :: e in s.book.dirs ==>
          e in r.book.dirs && TrapRec(s.book.dirs[e], r.book.dirs[e], tarpit && e == d, wildcard && e == d))
    && (Leveled(env, s.book) ==> Leveled(env, r.book)) && d in s.book.dirs && s.book.dirs[d].phase != Calibrating
  }

  lemma GrowsTraps(env: Env, s: Scan, r: Scan, d: string)
    requires Grows(env, s, r) && d in s.book.dirs && s.book.dirs[d].phase != Calibrating
    ensures Traps(env, s, r, d, false, false)
  {
    hide Leveled;
  }

  lemma TrapsThen(env: Env, s: Scan, t: Scan, r: Scan, d: string, a: bool, b: bool, a': bool, b': bool)
    requires Traps(env, s, t, d, a, b) && Traps(env, t, r, d, a', b')
    ensures Traps(env, s, r, d, a || a', b || b')
  {
    hide Leveled;
  }

  lemma TrappedTraps(env: Env, s: Scan, d: string, tarpit: bool, wildcard: bool)
    requires d in s.book.dirs && s.book.dirs[d].phase != Calibrating
    ensures Traps(env, s, s.(book := Trapped(s.book, d, tarpit, wildcard)), d, tarpit, wildcard)
  {
    hide Leveled;
    if Leveled(env, s.book) { TrappedLevels(env, s.book, d, tarpit, wildcard); }
  }

  lemma TrappedLevels(env: Env, b: Book, d: string, tarpit: bool, wildcard: bool)
    requires Leveled(env, b) && d in b.dirs && b.dirs[d].phase != Calibrating
    ensures Leveled(env, Trapped(b, d, tarpit, wildcard))
  {
    hide Slashes, Deepest, AllFit, PendingFit;
    var dirs' := Trapped(b, d, tarpit, wildcard).dirs;
    DeepStill(env, b.dirs, dirs', b.queue);
    DeepStill(env, b.dirs, dirs', b.flying);
    forall e | e in dirs' ensures PendingFit(env, dirs', e, dirs'[e].pending) {
      DeepPending(env, b.dirs, dirs', e, b.dirs[e].pending);
    }
  }

  /** Only the depths of the directories matter to what fits. */
  lemma DeepStill(env: Env, dirs: map<string, DirRec>, dirs': map<string, DirRec>, m: multiset<Candidate>)
    requires AllFit(env, dirs, m) && forall d :: d in dirs ==> d in dirs' && dirs'[d].depth == dirs[d].depth
    ensures AllFit(env, dirs', m)
  {
    hide Slashes, Deepest;
  }

  lemma DeepPending(env: Env, dirs: map<string, DirRec>, dirs': map<string, DirRec>, d: string, pending: map<string, Candidate>)
    requires PendingFit(env, dirs, d, pending) && forall e :: e in dirs ==> e in dirs' && dirs'[e].depth == dirs[e].depth
    ensures PendingFit(env, dirs', d, pending)
  {
    hide Slashes, Deepest;
  }

  lemma SettledGrows(env: Env, s: Scan, c: Candidate)
    requires c.parentDir in s.book.dirs && s.book.dirs[c.parentDir].phase != Calibrating
    ensures Grows(env, s, s.(book := Settled(s.book, c)))
  {
    hide Grows;
    TouchedGrows(env, s, s.(book := Settled(s.book, c)), c.parentDir);
  }

  lemma HarvestGrows(env: Env, s: Scan, url: string, body: Body)
    ensures Grows(env, s, HarvestResponse(env, s, url, body)) && HarvestResponse(env, s, url, body).book == s.book
  {
    hide Grows;
    MovedGrows(env, s, HarvestResponse(env, s, url, body));
  }

  lemma ConcludedTraps(env: Env, s: Scan, c: Candidate, r: Response)
    requires r.Answered? && c.parentDir in s.book.dirs && s.book.dirs[c.parentDir].phase != Calibrating
    ensures Traps(env, s, Concluded(env, s, c, r), c.parentDir, false, r.wildcard)
  {
    hide Grows, Traps, Trapped, Settled, HarvestResponse, Url, SameHistory, SameClock;
    var d := c.parentDir;
    var s1 := s.(book := Trapped(s.book, d, false, r.wildcard));
    var s2 := HarvestResponse(env, s1, Url(env, d, c.path), r.body);
    TrappedTraps(env, s, d, false, r.wildcard);
    TrapHas(env, s, s1, d, false, r.wildcard);
    HarvestGrows(env, s1, Url(env, d, c.path), r.body);
    SettledGrows(env, s2, c);
    Then(env, s1, s2, Concluded(env, s, c, r));
    GrowsTraps(env, s1, Concluded(env, s, c, r), d);
    TrapsThen(env, s, s1, Concluded(env, s, c, r), d, false, r.wildcard, false, false);
  }

  lemma TrapHas(env: Env, s: Scan, r: Scan, d: string, tarpit: bool, wildcard: bool)
    requires Traps(env, s, r, d, tarpit, wildcard)
    ensures d in r.book.dirs && r.book.dirs[d].phase != Calibrating && (Leveled(env, s.book) ==> Leveled(env, r.book))
  {
    hide Leveled;
  }

  /** Handling a result: its directory is capped from then on if a tarpit was seen, and a wildcard suspect if a wildcard was;
      nothing else about any directory's traps or depth changes. */
  lemma RealTraps(env: Env, s: Scan, c: Candidate, r: Response, now: real)
    requires c.parentDir in s.book.dirs && s.book.dirs[c.parentDir].phase != Calibrating
    requires Leveled(env, s.book) && c in s.book.flying
    ensures Traps(env, s, HandleReal(env, s, c, r, now), c.parentDir, r.Answered? && r.tarpit, r.Answered? && r.wildcard)
  {
    hide Grows, Traps, Trapped, Settled, HandleHit, Concluded, Leveled;
    var d := c.parentDir;
    if r.Failed? {
      SettledGrows(env, s, c);
      GrowsTraps(env, s, HandleReal(env, s, c, r, now), d);
    } else {
      var s1 := s.(book := Trapped(s.book, d, r.tarpit, false));
      TrappedTraps(env, s, d, r.tarpit, false);
      TrapHas(env, s, s1, d, r.tarpit, false);
      TrappedFlight(s.book, d, r.tarpit, false);
      var s2 := if r.hit then HandleHit(env, s1, c, r, now) else s1;
      if r.hit { HitGrows(env, s1, c, r, now); } else { MovedGrows(env, s1, s1); }
      GrowsTraps(env, s1, s2, d);
      TrapsThen(env, s, s1, s2, d, r.tarpit, false, false, false);
      TrapHas(env, s1, s2, d, false, false);
      ConcludedTraps(env, s2, c, r);
      TrapsThen(env, s, s2, HandleReal(env, s, c, r, now), d, r.tarpit, false, false, r.wildcard);
    }
  }

  lemma TrappedFlight(b: Book, d: string, tarpit: bool, wildcard: bool)
    requires d in b.dirs
    ensures Trapped(b, d, tarpit, wildcard).flying == b.flying
  {
  }

  // ---- Dispatch and control -------------------------------------------------------------

  lemma DiscardGrows(env: Env, s: Scan, c: Candidate, over: bool)
    requires c.parentDir in s.book.dirs && s.book.dirs[c.parentDir].phase != Calibrating
    ensures Grows(env, s, s.(book := Discarded(s.book, c, over)))
  {
    hide Grows, KeyOf;
    TouchedGrows(env, s, s.(book := Discarded(s.book, c, over)), c.parentDir);
  }

  lemma DispatchGrows(env: Env, s: Scan, c: Candidate)
    requires c in s.book.queue && c.parentDir in s.book.dirs && s.book.dirs[c.parentDir].phase != Calibrating
    ensures Grows(env, s, Dispatch(s, c))
  {
    hide Grows, KeyOf;
    TouchedGrows(env, s, Dispatch(s, c), c.parentDir);
  }

  lemma {:induction false} SweepOutGrows(env: Env, s: Scan, removed: seq<Candidate>)
    requires forall i :: 0 <= i < |removed| ==>
               removed[i].parentDir in s.book.dirs && s.book.dirs[removed[i].parentDir].phase != Calibrating
    ensures Grows(env, s, SweepOut(s, removed))
  {
    hide Grows, Discarded;
    if removed == [] {
      MovedGrows(env, s, s);
    } else {
      var n := |removed| - 1;
      SweepOutGrows(env, s, removed[..n]);
      var t := SweepOut(s, removed[..n]);
      StillOpen(env, s, t, removed[n].parentDir);
      DiscardGrows(env, t, removed[n], false);
      Then(env, s, t, SweepOut(s, removed));
    }
  }

  lemma ProbeOutGrows(env: Env, s: Scan, d: string)
    requires d in s.book.dirs && |s.book.dirs[d].probeQueue| > 0
    ensures Grows(env, s, s.(book := ProbeOut(s.book, d)))
  {
    hide Grows;
    TouchedGrows(env, s, s.(book := ProbeOut(s.book, d)), d);
  }

  lemma CollectGrows(env: Env, s: Scan, d: string)
    requires d in s.book.dirs && s.book.dirs[d].phase == Calibrating
    ensures Grows(env, s, CollectProbe(env, s, d))
  {
    hide Grows, FinishCalibration;
    var s1 := s.(book := ProbeBack(s.book, d));
    TouchedGrows(env, s, s1, d);
    if s1.book.dirs[d].probesDone >= s1.book.dirs[d].probesTotal {
      FinishGrows(env, s1, d);
      Then(env, s, s1, CollectProbe(env, s, d));
    }
  }
}
