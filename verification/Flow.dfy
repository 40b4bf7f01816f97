/** What the operations do to what is on its way: requests, probes and page fetches in flight, probes and
    pages still queued, and running producers. */
module Flow {
  import opened ScanTypes
  import opened Counting
  import opened Text
  import opened Provenance
  import opened Paths
  import opened Generation
  import opened Accounting
  import opened ScanModel

  /** The page an SPA pivot fetches. */
  function RootPage(env: Env): string
  {
    env.target + "/"
  }

  /** From s to r no page was queued that had been visited before: none at all, or the root page, if in scope. */
  ghost predicate Pages(env: Env, s: Scan, r: Scan)
  {
    && s.visited <= r.visited
    && (r.harvestQueue == s.harvestQueue
        || (env.inScope(RootPage(env)) && RootPage(env) !in s.visited && RootPage(env) in r.visited
            && r.harvestQueue == s.harvestQueue + [RootPage(env)]))
  }

  /** No calibration has more probes than this. */
  predicate Width(env: Env, s: Scan, m: nat)
  {
    N_PROBES * |s.exts| <= m && N_PROBES * |env.calibrate("", false).exts| <= m
  }

  /** From s to r a directory got at most m probes to send, when it was opened, and the root once more when
      it was refined. */
  ghost predicate Draws(env: Env, s: Scan, r: Scan, m: nat)
  {
    && s.book.dirs.Keys <= r.book.dirs.Keys && (s.rootRefined ==> r.rootRefined) && (Width(env, s, m) ==> Width(env, r, m))
    && (Width(env, s, m) ==> forall d :: d in r.book.dirs ==>
          |r.book.dirs[d].probeQueue| <= (if d in s.book.dirs then |s.book.dirs[d].probeQueue| else m)
                                         + (if d == "" && !s.rootRefined && r.rootRefined then m else 0))
  }

  /** From s to r nothing left or came back, no producer started or ended, pages and probes as above. */
  ghost predicate Flows(env: Env, s: Scan, r: Scan, m: nat)
  {
    && r.book.flying == s.book.flying && r.book.probes == s.book.probes && r.harvestFlying == s.harvestFlying
    && r.producers == s.producers && Pages(env, s, r) && Draws(env, s, r, m)
  }

  lemma Then(env: Env, s: Scan, t: Scan, r: Scan, m: nat)
    requires Flows(env, s, t, m) && Flows(env, t, r, m)
    ensures Flows(env, s, r, m)
  {
    hide RootPage;
    DrawsThen(env, s, t, r, m);
  }

  lemma DrawsThen(env: Env, s: Scan, t: Scan, r: Scan, m: nat)
    requires Draws(env, s, t, m) && Draws(env, t, r, m)
    ensures Draws(env, s, r, m)
  {
    hide Width;
  }

  /** The directories keep their probes, and nothing else of the flow changed. */
  ghost predicate Idle(s: Scan, r: Scan)
  {
    && r.book.flying == s.book.flying && r.book.probes == s.book.probes && r.harvestFlying == s.harvestFlying
    && r.producers == s.producers && r.visited == s.visited && r.harvestQueue == s.harvestQueue
    && r.exts == s.exts && r.rootRefined == s.rootRefined && r.book.dirs.Keys == s.book.dirs.Keys
    && forall d :: d in s.book.dirs ==> r.book.dirs[d].probeQueue == s.book.dirs[d].probeQueue
  }

  lemma IdleFlows(env: Env, s: Scan, r: Scan, m: nat)
    requires Idle(s, r)
    ensures Flows(env, s, r, m)
  {
    hide RootPage;
  }

  // ---- Probes ---------------------------------------------------------------------------

  lemma {:induction false} FewDrawn(env: Env, d: string, ext: string, k: nat, i: nat)
    requires i <= N_PROBES
    ensures |ProbesOf(env, d, ext, k, i)| <= N_PROBES - i
    decreases N_PROBES - i
  {
    hide Url;
    if i < N_PROBES { FewDrawn(env, d, ext, k, i + 1); }
  }

  lemma {:induction false} FewProbes(env: Env, d: string, exts: seq<string>, e: nat)
    requires e <= |exts|
    ensures |Probes(env, d, exts, e)| <= N_PROBES * (|exts| - e)
    decreases |exts| - e
  {
    hide ProbesOf;
    if e < |exts| {
      FewDrawn(env, d, exts[e], N_PROBES * e, 0);
      FewProbes(env, d, exts, e + 1);
    }
  }

  /** The random name drawn next after so many, with its extension. */
  function Drawn(env: Env, d: string, ext: string, k: nat, j: nat): string
  {
    env.token(d, k + j) + ext
  }

  lemma {:induction false} DrawnAre(env: Env, d: string, ext: string, k: nat, i: nat, p: string)
    requires i <= N_PROBES
    ensures p in ProbesOf(env, d, ext, k, i)
       <==> env.inScope(Url(env, d, p)) && exists j :: i <= j < N_PROBES && p == Drawn(env, d, ext, k, j)
    decreases N_PROBES - i
  {
    hide Url;
    if i < N_PROBES {
      DrawnAre(env, d, ext, k, i + 1, p);
      if p in ProbesOf(env, d, ext, k, i) && p !in ProbesOf(env, d, ext, k, i + 1) {
        assert p == Drawn(env, d, ext, k, i);
      }
    }
  }

  /** A calibration probes with exactly five random names for each extension, less those out of scope. */
  lemma {:induction false} ProbesAre(env: Env, d: string, exts: seq<string>, e: nat, p: string)
    requires e <= |exts|
    ensures p in Probes(env, d, exts, e)
       <==> env.inScope(Url(env, d, p)) && exists x, j :: e <= x < |exts| && 0 <= j < 5 && p == Drawn(env, d, exts[x], 5 * x, j)
    decreases |exts| - e
  {
    hide Url, ProbesOf;
    if e < |exts| {
      ProbesAre(env, d, exts, e + 1, p);
      DrawnAre(env, d, exts[e], 5 * e, 0, p);
      if p in ProbesOf(env, d, exts[e], 5 * e, 0) {
        var j :| 0 <= j < 5 && p == Drawn(env, d, exts[e], 5 * e, j);
      } else if env.inScope(Url(env, d, p)) {
        if x, j :| e <= x < |exts| && 0 <= j < 5 && p == Drawn(env, d, exts[x], 5 * x, j) {
          assert x != e;
        }
      }
    }
  }

  lemma {:induction false} DrawnInFull(env: Env, d: string, ext: string, k: nat, i: nat)
    requires i <= N_PROBES && forall u :: env.inScope(u)
    ensures |ProbesOf(env, d, ext, k, i)| == N_PROBES - i
    decreases N_PROBES - i
  {
    if i < N_PROBES { DrawnInFull(env, d, ext, k, i + 1); }
  }

  /** With everything in scope that is five probes an extension. */
  lemma {:induction false} ProbesInFull(env: Env, d: string, exts: seq<string>, e: nat)
    requires e <= |exts| && forall u :: env.inScope(u)
    ensures |Probes(env, d, exts, e)| == 5 * (|exts| - e)
    decreases |exts| - e
  {
    hide ProbesOf;
    if e < |exts| {
      DrawnInFull(env, d, exts[e], N_PROBES * e, 0);
      ProbesInFull(env, d, exts, e + 1);
    }
  }

  // ---- Calibration ----------------------------------------------------------------------

  lemma StartedFlows(env: Env, s: Scan, d: string, depth: int, m: nat)
    requires d !in s.book.dirs
    ensures Flows(env, s, s.(book := Started(s.book, d, depth, Probes(env, d, s.exts, 0))), m)
  {
    hide Probes, RootPage;
    FewProbes(env, d, s.exts, 0);
  }

  lemma RestartedFlows(env: Env, s: Scan, r: Scan, m: nat)
    requires "" in s.book.dirs && !s.rootRefined
    requires r.rootRefined && (r.exts == s.exts || r.exts == env.calibrate("", false).exts)
    requires Idle(s, r.(rootRefined := s.rootRefined, exts := s.exts))
    ensures Flows(env, s, r.(book := Restarted(r.book, "", Probes(env, "", r.exts, 0))), m)
  {
    hide Probes, RootPage, WithoutFirst;
    FewProbes(env, "", r.exts, 0);
  }

  lemma RefinedFlows(env: Env, s: Scan, r: Scan, m: nat)
    requires r.rootRefined && Idle(s, r.(rootRefined := s.rootRefined))
    ensures Flows(env, s, r, m)
  {
    hide RootPage;
  }

  lemma PivotFlows(env: Env, s: Scan, d: string, spa: bool, m: nat)
    ensures Flows(env, s, Pivot(env, s, d, spa), m)
  {
    hide Score, MapAll;
  }

  lemma PushFlows(env: Env, s: Scan, d: string, m: nat)
    requires d in s.book.dirs
    ensures Flows(env, s, PushCandidates(env, s, d), m)
  {
    hide CandidateSet, BudgetOf, Keys, WithoutFirst;
    IdleFlows(env, s, PushCandidates(env, s, d), m);
  }

  lemma EndFlows(env: Env, s: Scan, d: string, spa: bool, m: nat)
    requires d in s.book.dirs
    ensures Flows(env, s, PushCandidates(env, Pivot(env, s, d, spa), d), m)
  {
    hide Flows, Pivot, PushCandidates;
    PivotFlows(env, s, d, spa, m);
    PushFlows(env, Pivot(env, s, d, spa), d, m);
    Then(env, s, Pivot(env, s, d, spa), PushCandidates(env, Pivot(env, s, d, spa), d), m);
  }

  lemma SpaDirFlows(env: Env, s: Scan, d: string, spa: bool, m: nat)
    ensures Flows(env, s, s.(spaDirs := s.spaDirs[d := spa]), m)
  {
    hide RootPage;
    IdleFlows(env, s, s.(spaDirs := s.spaDirs[d := spa]), m);
  }

  lemma RefinedIdle(env: Env, s: Scan, profile: nat)
    ensures var r := ReprioritizeIfChanged(env, s.(rootRefined := true, scoring := s.scoring.(profile := profile)));
            r.rootRefined && Idle(s, r.(rootRefined := s.rootRefined))
  {
    hide Score, MapAll;
  }

  lemma {:induction false} FinishFlows(env: Env, s: Scan, d: string, m: nat)
    requires d in s.book.dirs
    ensures Flows(env, s, FinishCalibration(env, s, d), m)
    decreases if s.rootRefined then 0 else 1
  {
    hide Flows, Pivot, PushCandidates, Probes, Grew, ReprioritizeIfChanged, Restarted;
    var cal := env.calibrate(d, s.rootRefined);
    var s1 := s.(spaDirs := s.spaDirs[d := cal.spa]);
    SpaDirFlows(env, s, d, cal.spa, m);
    if d == "" && !s.rootRefined {
      var s2 := ReprioritizeIfChanged(env, s1.(rootRefined := true, scoring := s1.scoring.(profile := cal.profile)));
      RefinedIdle(env, s1, cal.profile);
      if Grew(s2.exts, cal.exts) {
        var s3 := s2.(exts := cal.exts);
        var s4 := s3.(book := Restarted(s3.book, "", Probes(env, "", s3.exts, 0)));
        RestartedFlows(env, s1, s3, m);
        Then(env, s, s1, s4, m);
        if Probes(env, "", s3.exts, 0) == [] {
          RestartedHas(s3.book, "", []);
          FinishFlows(env, s4, "", m);
          Then(env, s, s4, FinishCalibration(env, s4, ""), m);
        }
      } else {
        RefinedFlows(env, s1, s2, m);
        Then(env, s, s1, s2, m);
        EndFlows(env, s2, d, cal.spa, m);
        Then(env, s, s2, FinishCalibration(env, s, d), m);
      }
    } else {
      EndFlows(env, s1, d, cal.spa, m);
      Then(env, s, s1, FinishCalibration(env, s, d), m);
    }
  }

  lemma RestartedHas(b: Book, d: string, probes: seq<string>)
    requires d in b.dirs
    ensures d in Restarted(b, d, probes).dirs
  {
  }

  lemma StartFlows(env: Env, s: Scan, d: string, depth: int, m: nat)
    requires d !in s.book.dirs
    ensures Flows(env, s, StartCalibration(env, s, d, depth), m)
  {
    hide Flows, FinishCalibration, Probes;
    var s1 := s.(book := Started(s.book, d, depth, Probes(env, d, s.exts, 0)));
    StartedFlows(env, s, d, depth, m);
    if Probes(env, d, s.exts, 0) == [] {
      FinishFlows(env, s1, d, m);
      Then(env, s, s1, FinishCalibration(env, s1, d), m);
    }
  }

  lemma ChildFlows(env: Env, s: Scan, d: string, depth: int, m: nat)
    ensures Flows(env, s, EnqueueChild(env, s, d, depth), m)
  {
    hide StartCalibration, RootPage;
    if d !in s.book.dirs { StartFlows(env, s, d, depth, m); }
  }

  // ---- Seeds ----------------------------------------------------------------------------

  lemma BookFlows(env: Env, s: Scan, b: Book, m: nat)
    requires Idle(s, s.(book := b))
    ensures Flows(env, s, s.(book := b), m)
  {
    IdleFlows(env, s, s.(book := b), m);
  }

  /** The books of one and the other have the same probes to send, and the same on their way. */
  ghost predicate IdleBooks(b: Book, b': Book)
  {
    && b'.flying == b.flying && b'.probes == b.probes && b'.dirs.Keys == b.dirs.Keys
    && forall d :: d in b.dirs ==> b'.dirs[d].probeQueue == b.dirs[d].probeQueue
  }

  lemma LandedIdle(b: Book, d: string, c: Candidate, added: Candidate, pick: Candidate, merged: Candidate)
    requires d in b.dirs
    ensures IdleBooks(b, Held(b, d, c)) && IdleBooks(b, Swapped(b, pick, merged)) && IdleBooks(b, Added(b, d, added))
  {
    hide Merged, KeyOf;
  }

  lemma LandedBookIdle(env: Env, s: Scoring, b: Book, d: string, c: Candidate, pick: Candidate)
    ensures IdleBooks(b, LandedBook(env, s, b, d, c, pick))
  {
    hide Scored, Merged, Held, Swapped, Added;
    if d in b.dirs {
      LandedIdle(b, d, c, Scored(env, s, c.(depth := b.dirs[d].depth + 1)), pick, Scored(env, s, Merged(pick, c)));
    }
  }

  lemma StageFlows(env: Env, s: Scan, d: string, c: Candidate, pick: Candidate, m: nat)
    ensures Flows(env, s, StageDirCandidate(env, s, d, c, pick), m)
  {
    hide LandedBook, SameHistory, SameClock, Flows;
    LandedBookIdle(env, s.scoring, s.book.(log := s.book.log.(staged := s.book.log.staged + 1)), d, c, pick);
    BookFlows(env, s, StageDirCandidate(env, s, d, c, pick).book, m);
  }

  lemma ChainStepFlows(env: Env, s: Scan, segs: seq<string>, prio: real, provenance: string, pick: Candidate, i: nat, m: nat)
    requires i < |segs|
    ensures Flows(env, s, ChainStep(env, s, segs, prio, provenance, pick, i), m)
  {
    hide StageDirCandidate, EnqueueChild, Flows, DirOf;
    var s1 := s.(book := s.book.(log := s.book.log.(chained := s.book.log.chained + 1)));
    BookFlows(env, s, s1.book, m);
    var s2 := EnqueueChild(env, s1, DirOf(segs, i + 1), i + 1);
    ChildFlows(env, s1, DirOf(segs, i + 1), i + 1, m);
    Then(env, s, s1, s2, m);
    StageFlows(env, s2, DirOf(segs, i), AncestorCandidate(segs, i, prio, provenance), pick, m);
    Then(env, s, s2, ChainStep(env, s, segs, prio, provenance, pick, i), m);
  }

  lemma {:induction false} ChainFlows(env: Env, s: Scan, segs: seq<string>, prio: real, provenance: string,
                                      picks: seq<Candidate>, n: nat, m: nat)
    requires n < |segs| && |picks| == |segs|
    ensures Flows(env, s, EnsureDirChain(env, s, segs, prio, provenance, picks, n), m)
    decreases n
  {
    hide ChainStep, Flows;
    if n == 0 {
      BookFlows(env, s, s.book, m);
    } else {
      var t := EnsureDirChain(env, s, segs, prio, provenance, picks, n - 1);
      ChainFlows(env, s, segs, prio, provenance, picks, n - 1, m);
      ChainStepFlows(env, t, segs, prio, provenance, picks[n - 1], n - 1, m);
      Then(env, s, t, EnsureDirChain(env, s, segs, prio, provenance, picks, n), m);
    }
  }

  lemma SeedFlows(env: Env, s: Scan, sd: Seed, picks: seq<Candidate>, m: nat)
    requires |picks| == |Segments(sd.path)|
    ensures Flows(env, s, EnqueueSeed(env, s, sd, picks), m)
  {
    hide StageDirCandidate, EnsureDirChain, Segments, DirOf, Admitted, Flows;
    BookFlows(env, s, s.book, m);
    if Admitted(env, sd) {
      var segs := Segments(sd.path);
      var n := |segs| - 1;
      var s0 := s.(book := s.book.(log := s.book.log.(seeds := s.book.log.seeds + 1)));
      BookFlows(env, s, s0.book, m);
      var s1 := EnsureDirChain(env, s0, segs, sd.basePrio, sd.provenance, picks, n);
      ChainFlows(env, s0, segs, sd.basePrio, sd.provenance, picks, n, m);
      Then(env, s, s0, s1, m);
      StageFlows(env, s1, DirOf(segs, n), LeafCandidate(segs, sd), picks[n], m);
      Then(env, s, s1, EnqueueSeed(env, s, sd, picks), m);
    }
  }

  // ---- Results --------------------------------------------------------------------------

  lemma {:induction false} AllIdle(env: Env, s: Scan, d: string, cs: seq<Candidate>)
    ensures Idle(s, EnqueueAll(env, s, d, cs))
  {
    hide Scored;
    if cs != [] { AllIdle(env, s, d, cs[..|cs| - 1]); }
  }

  lemma LearnIdle(env: Env, s: Scan, c: Candidate, r: Response, now: real)
    requires r.Answered?
    ensures Idle(s, LearnFromHit(env, s, c, r, now))
  {
    hide EnqueueAll, Generate, Learnable, Score, MapAll;
    if Learnable(env, s, c.parentDir, r.confidence) {
      var lesson := Lesson(c.parentDir, c.path, r.protected, r.indexOf);
      AllIdle(env, s.(scoring := s.scoring.(lessons := s.scoring.lessons + [lesson])), c.parentDir, Generate(c));
    }
  }

  lemma HitFlows(env: Env, s: Scan, c: Candidate, r: Response, now: real, m: nat)
    requires r.Answered?
    ensures Flows(env, s, HandleHit(env, s, c, r, now), m)
  {
    hide LearnFromHit, EnqueueChild, WithinLimits, Aliased, Flows, Url;
    var url := Url(env, c.parentDir, c.path);
    if r.hash in s.seen {
      IdleFlows(env, s, HandleHit(env, s, c, r, now), m);
    } else {
      var s1 := s.(seen := s.seen[r.hash := [url]],
                   findings := s.findings + [Finding(url, r.hash, r.confidence, c.provenance, [])],
                   book := s.book.(log := s.book.log.(novel := s.book.log.novel + 1)));
      var s2 := LearnFromHit(env, s1, c, r, now);
      LearnIdle(env, s1, c, r, now);
      IdleFlows(env, s, s2, m);
      ChildFlows(env, s2, c.parentDir + "/" + c.path, c.depth, m);
      Then(env, s, s2, EnqueueChild(env, s2, c.parentDir + "/" + c.path, c.depth), m);
    }
  }

  /** Handling a result takes it off the flight, and starts at most one producer. */
  ghost predicate Returns(env: Env, s: Scan, c: Candidate, r: Scan, m: nat)
  {
    && r.book.flying == s.book.flying - multiset{c} && s.producers <= r.producers <= s.producers + 1
    && Flows(env, s, r.(producers := s.producers, book := r.book.(flying := s.book.flying)), m)
  }

  lemma VisitFlows(env: Env, s: Scan, urls: set<string>, m: nat)
    ensures Flows(env, s, s.(visited := s.visited + urls), m)
  {
    hide RootPage;
  }

  lemma SettledIdle(b: Book, c: Candidate, wildcard: bool)
    requires c.parentDir in b.dirs
    ensures IdleBooks(b, Trapped(b, c.parentDir, false, wildcard))
    ensures Settled(b, c).flying == b.flying - multiset{c} && IdleBooks(b, Settled(b, c).(flying := b.flying))
  {
  }

  lemma HarvestIs(env: Env, s: Scan, url: string, body: Body) returns (urls: set<string>)
    ensures var r := HarvestResponse(env, s, url, body);
            && s.producers <= r.producers <= s.producers + 1 && r.(producers := s.producers) == s.(visited := s.visited + urls)
  {
    urls := HarvestResponse(env, s, url, body).visited;
    if HarvestResponse(env, s, url, body).visited == s.visited { urls := {}; }
  }

  lemma SettlesReturns(env: Env, s: Scan, t: Scan, h: Scan, c: Candidate, m: nat)
    requires Flows(env, s, t, m) && h.(producers := t.producers) == t && t.producers <= h.producers <= t.producers + 1
    requires c.parentDir in t.book.dirs
    ensures Returns(env, s, c, h.(book := Settled(h.book, c)), m)
  {
    hide Flows, Settled;
    SettledIdle(t.book, c, false);
    BookFlows(env, t, Settled(t.book, c).(flying := t.book.flying), m);
    Then(env, s, t, t.(book := Settled(t.book, c).(flying := t.book.flying)), m);
    SameFlight(env, s, t, m);
    assert h.(producers := s.producers, book := Settled(h.book, c).(flying := s.book.flying))
           == t.(book := Settled(t.book, c).(flying := t.book.flying));
  }

  lemma SameFlight(env: Env, s: Scan, t: Scan, m: nat)
    requires Flows(env, s, t, m)
    ensures t.book.flying == s.book.flying && t.producers == s.producers
  {
  }

  lemma ConcludedReturns(env: Env, s: Scan, c: Candidate, r: Response, m: nat)
    requires r.Answered? && c.parentDir in s.book.dirs
    ensures Returns(env, s, c, Concluded(env, s, c, r), m)
  {
    hide Url, Flows, Trapped, Settled, HarvestResponse, Returns;
    var s1 := s.(book := Trapped(s.book, c.parentDir, false, r.wildcard));
    SettledIdle(s.book, c, r.wildcard);
    BookFlows(env, s, s1.book, m);
    var h := HarvestResponse(env, s1, Url(env, c.parentDir, c.path), r.body);
    var urls := HarvestIs(env, s1, Url(env, c.parentDir, c.path), r.body);
    var s2 := s1.(visited := s1.visited + urls);
    VisitFlows(env, s1, urls, m);
    Then(env, s, s1, s2, m);
    SettlesReturns(env, s, s2, h, c, m);
    HarvestBook(env, s1, Url(env, c.parentDir, c.path), r.body);
  }

  lemma HarvestBook(env: Env, s: Scan, url: string, body: Body)
    ensures HarvestResponse(env, s, url, body).book == s.book
  {
  }

  lemma ThenReturns(env: Env, s: Scan, t: Scan, c: Candidate, r: Scan, m: nat)
    requires Flows(env, s, t, m) && Returns(env, t, c, r, m)
    ensures Returns(env, s, c, r, m)
  {
    hide RootPage, Draws;
    DrawsThen(env, s, t, r.(producers := t.producers, book := r.book.(flying := t.book.flying)), m);
    assert Draws(env, s, r.(producers := s.producers, book := r.book.(flying := s.book.flying)), m);
  }

  lemma FailedReturns(env: Env, s: Scan, c: Candidate, m: nat)
    requires c.parentDir in s.book.dirs
    ensures Returns(env, s, c, s.(book := Settled(s.book, c)), m)
  {
    hide RootPage;
  }

  lemma RealReturns(env: Env, s: Scan, c: Candidate, r: Response, now: real, m: nat)
    requires c.parentDir in s.book.dirs
    ensures Returns(env, s, c, HandleReal(env, s, c, r, now), m)
  {
    hide HandleHit, Concluded, Flows, Returns, Settled;
    if r.Failed? {
      FailedReturns(env, s, c, m);
    } else {
      var s1 := s.(book := Trapped(s.book, c.parentDir, r.tarpit, false));
      var s2 := if r.hit then HandleHit(env, s1, c, r, now) else s1;
      BookFlows(env, s, s1.book, m);
      if r.hit {
        HitFlows(env, s1, c, r, now, m);
        Then(env, s, s1, s2, m);
      }
      StillThere(env, s, s2, c, m);
      ConcludedReturns(env, s2, c, r, m);
      ThenReturns(env, s, s2, c, HandleReal(env, s, c, r, now), m);
    }
  }

  lemma StillThere(env: Env, s: Scan, t: Scan, c: Candidate, m: nat)
    requires Flows(env, s, t, m) && c.parentDir in s.book.dirs
    ensures c.parentDir in t.book.dirs
  {
  }

  // ---- Control --------------------------------------------------------------------------

  lemma SweepOutIdle(s: Scan, removed: seq<Candidate>)
    requires forall i :: 0 <= i < |removed| ==> removed[i].parentDir in s.book.dirs
    ensures Idle(s, SweepOut(s, removed))
  {
    hide DiscardedAll;
    AllDiscardedIdle(s.book, removed);
  }

  lemma DiscardedIdle(b: Book, c: Candidate, over: bool)
    requires c.parentDir in b.dirs
    ensures IdleBooks(b, Discarded(b, c, over))
  {
  }

  lemma {:induction false} AllDiscardedIdle(b: Book, cs: seq<Candidate>)
    requires forall i :: 0 <= i < |cs| ==> cs[i].parentDir in b.dirs
    ensures IdleBooks(b, DiscardedAll(b, cs, false))
  {
    hide Discarded;
    if cs != [] {
      var n := |cs| - 1;
      AllDiscardedIdle(b, cs[..n]);
      DiscardedIdle(DiscardedAll(b, cs[..n], false), cs[n], false);
    }
  }

  lemma SweepIdle(env: Env, s: Scan, pattern: string, kind: OverrideKind, factor: Factor)
    ensures Idle(s, Sweep(env, WithOverride(s, pattern, kind, factor)))
  {
    hide Score, MapAll;
  }

  lemma PinFlows(env: Env, s: Scan, pattern: string, picks: seq<Candidate>, m: nat)
    requires |picks| == |Segments(pattern)|
    ensures Flows(env, s, ApplyPin(env, s, pattern, picks), m)
  {
    hide EnqueueSeed, Segments, IsGlob, Sweep, Flows;
    var s1 := Sweep(env, WithOverride(s, pattern, Boost, PIN_SCORE));
    SweepIdle(env, s, pattern, Boost, PIN_SCORE);
    IdleFlows(env, s, s1, m);
    if !IsGlob(pattern) {
      SeedFlows(env, s1, Seed(pattern, false, 1.0, "user:pin"), picks, m);
      Then(env, s, s1, ApplyPin(env, s, pattern, picks), m);
    }
  }
}
