/** The cached scores over whole runs, nmap seeds included: which can be stale, and until when. */
module Scores {
  import opened ScanTypes
  import opened Counting
  import opened Text
  import opened Paths
  import opened Generation
  import opened Accounting
  import opened Invariants
  import opened Ledgers
  import opened Pushing
  import opened ScanModel
  import opened Soundness
  import opened Stepping
  import opened History
  import opened Runs
  import opened Theorems

  /** Whenever nothing is marked dirty, every queued score is the one scoreCandidate would compute now; when
      something is, fewer than reprioHits hits are missing from it. The one exception is an nmap seed with
      its fixed score, until the first sweep after it was queued. */
  lemma ScoresCoherent(env: Env, states: seq<Scan>, events: seq<Event>, c: Candidate)
    requires IsRun(env, states, events) && Fresh(env, states[0]) && Configured(env) && Cacheable(env)
    requires c in states[|events|].book.queue && (states[|events|].swept || !IsNmapSeed(env, c))
    ensures var s := states[|events|];
            && (!s.dirty ==> c.score == Score(env, s.scoring, c))
            && exists k: nat :: k < env.reprioHits && k <= |s.scoring.lessons| && c.score == ScoreBefore(env, s.scoring, c, k)
  {
    hide Fresh, StepAt, Inv, Ledgered, Cacheable, Room, Places, SeedsOk, Novel, Score, IsNmapSeed, Reflects;
    RunReaches(env, states, events);
    var s := states[|events|];
    assert Vouched(env, s, c, s.hitsSince);
    LagIs(env, s.scoring, c, s.hitsSince);
  }

  lemma LagIs(env: Env, s: Scoring, c: Candidate, lag: nat)
    requires Reflects(env, s, c, lag)
    ensures exists k: nat :: k <= lag && k <= |s.lessons| && c.score == ScoreBefore(env, s, c, k)
    ensures lag == 0 ==> c.score == Score(env, s, c)
  {
    hide Score;
    assert s.lessons[..|s.lessons| - 0] == s.lessons;
  }

  lemma FewSweeps(env: Env, states: seq<Scan>, events: seq<Event>)
    requires IsRun(env, states, events) && Fresh(env, states[0]) && Configured(env)
    ensures var s := states[|events|];
            s.sweeps > 0 ==> s.sweeps <= 1 + |s.scoring.lessons| / env.reprioHits
                                         + ((s.lastSweep - env.start) / env.reprioInterval).Floor
  {
    hide Fresh, StepAt, Sound, Room, Places, SeedsOk, Novel;
    RunReaches(env, states, events);
    if states[|events|].sweeps > 0 {
      SweepBound(env, states[|events|]);
    }
  }

  // ---- When the nmap seeds are swept ----------------------------------------------------

  predicate RootOpened(s: Scan)
  {
    "" in s.book.log.openedWith
  }

  /** What the root's calibration decides is as it was. */
  ghost predicate SameRoot(s: Scan, r: Scan)
  {
    && r.scoring.profile == s.scoring.profile && r.scoring.spaMode == s.scoring.spaMode && r.rootRefined == s.rootRefined && r.exts == s.exts
    && ("" in r.spaDirs <==> "" in s.spaDirs) && ("" in s.spaDirs ==> r.spaDirs[""] == s.spaDirs[""])
  }

  /** From s to r the root was not opened or decided on, and every sweep was one the throttle counts. */
  ghost predicate SweptAs(s: Scan, r: Scan)
  {
    && SameRoot(s, r) && RootOpened(r) == RootOpened(s) && r.sweeps >= s.sweeps && r.swept == (s.swept || r.sweeps > s.sweeps)
  }

  lemma FinishSwept(env: Env, s: Scan, d: string)
    requires d in s.book.dirs && d != ""
    ensures SweptAs(s, FinishCalibration(env, s, d))
  {
    hide CandidateSet, BudgetOf;
  }

  lemma StartSwept(env: Env, s: Scan, d: string, depth: int)
    requires d != ""
    ensures SweptAs(s, StartCalibration(env, s, d, depth))
  {
    hide FinishCalibration, Probes;
    var probes := Probes(env, d, s.exts, 0);
    if probes == [] { FinishSwept(env, s.(book := Started(s.book, d, depth, probes)), d); }
  }

  lemma ChildSwept(env: Env, s: Scan, d: string, depth: int)
    requires d != ""
    ensures SweptAs(s, EnqueueChild(env, s, d, depth))
  {
    hide StartCalibration;
    if d !in s.book.dirs { StartSwept(env, s, d, depth); }
  }

  lemma StageSwept(env: Env, s: Scan, d: string, c: Candidate, pick: Candidate)
    ensures SweptAs(s, StageDirCandidate(env, s, d, c, pick))
  {
    hide LandedBook, SameHistory, SameClock, SweptAs;
    LandedOpens(env, s.scoring, s.book.(log := s.book.log.(staged := s.book.log.staged + 1)), d, c, pick);
    BookSwept(s, StageDirCandidate(env, s, d, c, pick).book);
  }

  lemma LandedOpens(env: Env, s: Scoring, b: Book, d: string, c: Candidate, pick: Candidate)
    ensures LandedBook(env, s, b, d, c, pick).log.openedWith == b.log.openedWith
  {
    hide Scored, Merged, Held, Swapped, Added;
    if d in b.dirs {
      LandedLogs(b, d, c, Scored(env, s, c.(depth := b.dirs[d].depth + 1)), pick, Scored(env, s, Merged(pick, c)));
    }
  }

  lemma LandedLogs(b: Book, d: string, c: Candidate, added: Candidate, pick: Candidate, merged: Candidate)
    requires d in b.dirs
    ensures Held(b, d, c).log == b.log && Swapped(b, pick, merged).log == b.log
    ensures Added(b, d, added).log.openedWith == b.log.openedWith
  {
    hide Merged;
  }

  lemma ChainStepSwept(env: Env, s: Scan, segs: seq<string>, prio: real, provenance: string, pick: Candidate, i: nat)
    requires i < |segs|
    ensures SweptAs(s, ChainStep(env, s, segs, prio, provenance, pick, i))
  {
    hide StageDirCandidate, EnqueueChild;
    var s1 := s.(book := s.book.(log := s.book.log.(chained := s.book.log.chained + 1)));
    ChildSwept(env, s1, DirOf(segs, i + 1), i + 1);
    StageSwept(env, EnqueueChild(env, s1, DirOf(segs, i + 1), i + 1), DirOf(segs, i), AncestorCandidate(segs, i, prio, provenance), pick);
  }

  lemma {:induction false} ChainSwept(env: Env, s: Scan, segs: seq<string>, prio: real, provenance: string, picks: seq<Candidate>, n: nat)
    requires n < |segs| && |picks| == |segs|
    ensures SweptAs(s, EnsureDirChain(env, s, segs, prio, provenance, picks, n))
    decreases n
  {
    hide ChainStep;
    if n > 0 {
      ChainSwept(env, s, segs, prio, provenance, picks, n - 1);
      ChainStepSwept(env, EnsureDirChain(env, s, segs, prio, provenance, picks, n - 1), segs, prio, provenance, picks[n - 1], n - 1);
    }
  }

  lemma SeedSwept(env: Env, s: Scan, sd: Seed, picks: seq<Candidate>)
    requires |picks| == |Segments(sd.path)|
    ensures SweptAs(s, EnqueueSeed(env, s, sd, picks))
  {
    hide StageDirCandidate, EnsureDirChain, Segments, DirOf, Admitted;
    if Admitted(env, sd) {
      var segs := Segments(sd.path);
      var n := |segs| - 1;
      var s0 := s.(book := s.book.(log := s.book.log.(seeds := s.book.log.seeds + 1)));
      ChainSwept(env, s0, segs, sd.basePrio, sd.provenance, picks, n);
      var s1 := EnsureDirChain(env, s0, segs, sd.basePrio, sd.provenance, picks, n);
      StageSwept(env, s1, DirOf(segs, n), LeafCandidate(segs, sd), picks[n]);
    }
  }

  lemma {:induction false} AllSwept(env: Env, s: Scan, d: string, cs: seq<Candidate>)
    ensures SweptAs(s, EnqueueAll(env, s, d, cs))
  {
    hide Scored;
    if cs != [] { AllSwept(env, s, d, cs[..|cs| - 1]); }
  }

  lemma LearnSwept(env: Env, s: Scan, c: Candidate, r: Response, now: real)
    requires r.Answered?
    ensures SweptAs(s, LearnFromHit(env, s, c, r, now))
  {
    hide EnqueueAll, Generate, Learnable;
    if Learnable(env, s, c.parentDir, r.confidence) {
      var lesson := Lesson(c.parentDir, c.path, r.protected, r.indexOf);
      AllSwept(env, s.(scoring := s.scoring.(lessons := s.scoring.lessons + [lesson])), c.parentDir, Generate(c));
    }
  }

  lemma HitSwept(env: Env, s: Scan, c: Candidate, r: Response, now: real)
    requires r.Answered?
    ensures SweptAs(s, HandleHit(env, s, c, r, now))
  {
    hide LearnFromHit, EnqueueChild, WithinLimits, Aliased;
    if r.hash !in s.seen {
      var s1 := s.(seen := s.seen[r.hash := [Url(env, c.parentDir, c.path)]],
                   findings := s.findings + [Finding(Url(env, c.parentDir, c.path), r.hash, r.confidence, c.provenance, [])],
                   book := s.book.(log := s.book.log.(novel := s.book.log.novel + 1)));
      LearnSwept(env, s1, c, r, now);
      ChildSwept(env, LearnFromHit(env, s1, c, r, now), c.parentDir + "/" + c.path, c.depth);
    }
  }

  lemma HarvestSwept(env: Env, s: Scan, url: string, body: Body)
    ensures SweptAs(s, HarvestResponse(env, s, url, body)) && HarvestResponse(env, s, url, body).book == s.book
  {
  }

  lemma ConcludedSwept(env: Env, s: Scan, c: Candidate, r: Response)
    requires r.Answered?
    ensures SweptAs(s, Concluded(env, s, c, r))
  {
    hide Url, SweptAs, HarvestResponse, Trapped, Settled;
    var s1 := if c.parentDir in s.book.dirs then s.(book := Trapped(s.book, c.parentDir, false, r.wildcard)) else s;
    var s2 := HarvestResponse(env, s1, Url(env, c.parentDir, c.path), r.body);
    SameLog(s.book, c, r.wildcard);
    SameLog(s2.book, c, r.wildcard);
    BookSwept(s, s1.book);
    HarvestSwept(env, s1, Url(env, c.parentDir, c.path), r.body);
    Chained(s, s1, s2);
    BookSwept(s2, Concluded(env, s, c, r).book);
    Chained(s, s2, Concluded(env, s, c, r));
  }

  lemma SameLog(b: Book, c: Candidate, wildcard: bool)
    ensures c.parentDir in b.dirs ==> Trapped(b, c.parentDir, false, wildcard).log == b.log && Settled(b, c).log == b.log
  {
    hide Accounted;
  }

  lemma Chained(s: Scan, t: Scan, r: Scan)
    requires SweptAs(s, t) && SweptAs(t, r)
    ensures SweptAs(s, r)
  {
  }

  lemma BookSwept(s: Scan, b: Book)
    requires b.log.openedWith == s.book.log.openedWith
    ensures SweptAs(s, s.(book := b))
  {
  }

  lemma RealSwept(env: Env, s: Scan, c: Candidate, r: Response, now: real)
    requires c.parentDir in s.book.dirs
    ensures SweptAs(s, HandleReal(env, s, c, r, now))
  {
    hide HandleHit, Concluded, SweptAs, Accounted;
    if r.Failed? {
      BookSwept(s, Settled(s.book, c));
    } else {
      var s1 := s.(book := Trapped(s.book, c.parentDir, r.tarpit, false));
      BookSwept(s, s1.book);
      var s2 := if r.hit then HandleHit(env, s1, c, r, now) else s1;
      if r.hit {
        HitSwept(env, s1, c, r, now);
        Chained(s, s1, s2);
      }
      ConcludedSwept(env, s2, c, r);
      Chained(s, s2, HandleReal(env, s, c, r, now));
    }
  }

  lemma {:induction false} SweepOutOpens(b: Book, removed: seq<Candidate>)
    requires forall i :: 0 <= i < |removed| ==> removed[i].parentDir in b.dirs
    ensures DiscardedAll(b, removed, false).log.openedWith == b.log.openedWith
  {
    hide Accounted, KeyOf;
    if removed != [] { SweepOutOpens(b, removed[..|removed| - 1]); }
  }

  lemma SweepOutSwept(s: Scan, removed: seq<Candidate>)
    requires forall i :: 0 <= i < |removed| ==> removed[i].parentDir in s.book.dirs
    ensures SweptAs(s, SweepOut(s, removed))
  {
    hide DiscardedAll;
    SweepOutOpens(s.book, removed);
  }

  /** The root's own calibration: until it opens everything is vouched for; then the nmap seeds are not. */
  lemma {:induction false} RootSwept(env: Env, s: Scan)
    requires "" in s.book.dirs && s.swept && !RootOpened(s)
    ensures var r := FinishCalibration(env, s, ""); r.sweeps == s.sweeps && r.swept == (!RootOpened(r) || env.nmap == [])
    decreases if s.rootRefined then 0 else 1
  {
    hide CandidateSet, BudgetOf, Probes, Grew;
    var cal := env.calibrate("", s.rootRefined);
    if !s.rootRefined {
      var s2 := ReprioritizeIfChanged(env, s.(spaDirs := s.spaDirs["" := cal.spa], rootRefined := true,
                                              scoring := s.scoring.(profile := cal.profile)));
      var s3 := s2.(exts := cal.exts);
      if Grew(s2.exts, cal.exts) && Probes(env, "", s3.exts, 0) == [] {
        RootSwept(env, s3.(book := Restarted(s3.book, "", [])));
      }
    }
  }

  /** The step rescores everything queued: a boost, demotion or pin, or a sweep the throttle counts. */
  ghost predicate SweepsAt(env: Env, s: Scan, e: Event)
    requires Enabled(env, s, e)
  {
    e.Weighted? || e.Pinned? || Next(env, s, e).sweeps > s.sweeps
  }

  /** What a step does to the record, once the root is open and before. */
  ghost predicate RecordStep(env: Env, s: Scan, r: Scan, sweeps: bool)
  {
    if RootOpened(s) then RootOpened(r) && r.swept == (s.swept || sweeps)
    else s.swept ==> r.swept == (!RootOpened(r) || env.nmap == [])
  }

  lemma AsRecord(env: Env, s: Scan, r: Scan)
    requires SweptAs(s, r)
    ensures RecordStep(env, s, r, r.sweeps > s.sweeps)
  {
  }

  lemma PinSwept(env: Env, s: Scan, pattern: string, picks: seq<Candidate>)
    requires |picks| == |Segments(pattern)|
    ensures RecordStep(env, s, ApplyPin(env, s, pattern, picks), true)
  {
    hide EnqueueSeed, Segments, IsGlob;
    var s1 := Sweep(env, WithOverride(s, pattern, Boost, PIN_SCORE));
    if !IsGlob(pattern) { SeedSwept(env, s1, Seed(pattern, false, 1.0, "user:pin"), picks); }
  }

  lemma CollectSwept(env: Env, s: Scan, d: string)
    requires d in s.book.dirs && (d == "" ==> !RootOpened(s))
    ensures var r := CollectProbe(env, s, d); RecordStep(env, s, r, r.sweeps > s.sweeps)
  {
    hide FinishCalibration;
    var s1 := s.(book := ProbeBack(s.book, d));
    if d != "" {
      FinishSwept(env, s1, d);
    } else if s.swept {
      RootSwept(env, s1);
    }
  }

  lemma BarSwept(s: Scan, pattern: string, removed: seq<Candidate>)
    requires forall i :: 0 <= i < |removed| ==> removed[i].parentDir in s.book.dirs
    ensures SweptAs(s, Bar(s, pattern, removed))
  {
    hide DiscardedAll;
    SweepOutSwept(WithOverride(s, pattern, Exclude, 1.0), removed);
  }

  lemma DispatchSwept(s: Scan, c: Candidate)
    requires c.parentDir in s.book.dirs
    ensures SweptAs(s, Dispatch(s, c)) && SweptAs(s, ScanModel.Discard(s, c))
  {
    hide Accounted;
  }

  lemma CalibratingRoot(env: Env, s: Scan, d: string)
    requires Sound(env, s) && d in s.book.probes
    ensures d in s.book.dirs && (d == "" ==> !RootOpened(s))
  {
    hide Conserved, KnownIsPushed, Unrepeated, PushedOnce, Cacheable, In;
    assert DirOk(s.book, d);
    assert d in s.book.log.openedWith ==> d in OpenDirs(s.book);
  }

  lemma StepRecord(env: Env, s: Scan, e: Event)
    requires Sound(env, s) && Enabled(env, s, e)
    ensures RecordStep(env, s, Next(env, s, e), SweepsAt(env, s, e))
  {
    hide Sound, Blocked, Swept, FirstToProbe, Segments, CollectProbe, HandleReal, EnqueueSeed, ApplyPin, Bar, Dispatch, ScanModel.Discard,
         ProbesWait, Timed, ProbeOut, Sweep, RecordStep, SweptAs, FetchOut, EnqueueHarvestFetch, HandleHarvest;
    var r := Next(env, s, e);
    match e
    case Requested(c) => DispatchSwept(s, c); AsRecord(env, s, r);
    case Skipped(c) => DispatchSwept(s, c); AsRecord(env, s, r);
    case ProbeBackAt(d) => CalibratingRoot(env, s, d); CollectSwept(env, s, d);
    case ResultBack(c, response, now) => RealSwept(env, s, c, response, now); AsRecord(env, s, r);
    case Seeded(sd, picks) => SeedSwept(env, s, sd, picks); AsRecord(env, s, r);
    case Pinned(pattern, picks) => PinSwept(env, s, pattern, picks);
    case Weighted(pattern, kind, factor) => WeightedSwept(env, s, pattern, kind, factor);
    case Barred(pattern, removed) => BarSwept(s, pattern, removed); AsRecord(env, s, r);
    case ProbeSent(d) => ProbeHas(s, d); ProbeOutSwept(s, d); AsRecord(env, s, r);
    case FetchSent => PagesSwept(env, s, "", NoBody); AsRecord(env, s, r);
    case FetchBack(url, body) => PagesSwept(env, s, url, body); AsRecord(env, s, r);
    case FetchAsked(url) => PagesSwept(env, s, url, NoBody); AsRecord(env, s, r);
    case ProducerDone => PagesSwept(env, s, "", NoBody); AsRecord(env, s, r);
  }

  lemma WeightedSwept(env: Env, s: Scan, pattern: string, kind: OverrideKind, factor: real)
    ensures RecordStep(env, s, ApplyOverride(env, s, pattern, kind, factor), true)
  {
    hide FactorOf;
  }

  lemma ProbeHas(s: Scan, d: string)
    requires FirstToProbe(s, d)
    ensures d in s.book.dirs && |s.book.dirs[d].probeQueue| > 0
  {
  }

  lemma ProbeOutSwept(s: Scan, d: string)
    requires d in s.book.dirs && |s.book.dirs[d].probeQueue| > 0
    ensures SweptAs(s, s.(book := ProbeOut(s.book, d)))
  {
  }

  lemma PagesSwept(env: Env, s: Scan, url: string, body: Body)
    ensures SweptAs(s, EnqueueHarvestFetch(env, s, url)) && SweptAs(s, HandleHarvest(s, url, body))
    ensures s.harvestQueue != [] ==> SweptAs(s, FetchOut(s))
    ensures s.producers > 0 ==> SweptAs(s, s.(producers := s.producers - 1))
  {
    hide SameHistory, SameClock;
  }

  /** Some step since the root was opened rescored everything queued. */
  ghost predicate SweptSince(env: Env, states: seq<Scan>, events: seq<Event>)
    requires IsRun(env, states, events)
  {
    exists i :: 0 <= i < |events| && SweptStep(env, states, events, i)
  }

  ghost predicate SweptStep(env: Env, states: seq<Scan>, events: seq<Event>, i: nat)
    requires |states| == |events| + 1 && i < |events|
  {
    StepAt(env, states, events, i) && RootOpened(states[i]) && SweepsAt(env, states[i], events[i])
  }

  /** The record is what its name says: with nmap seeds and the root open, it is set exactly if some step
      since the root was opened rescored everything. */
  lemma {:induction false} SweptIs(env: Env, states: seq<Scan>, events: seq<Event>)
    requires IsRun(env, states, events) && Fresh(env, states[0])
    ensures states[|events|].swept <==> !RootOpened(states[|events|]) || env.nmap == [] || SweptSince(env, states, events)
  {
    hide Enabled, Next, Sound, Room, Places, Fresh, RecordStep, SweepsAt;
    if events == [] {
      FreshSwept(env, states[0]);
    } else {
      var n := |events| - 1;
      var earlier, first := states[..n + 1], events[..n];
      PrefixRun(env, states, events);
      SweptIs(env, earlier, first);
      FreshSound(env, states[0]);
      RunSound(env, states, events, n);
      StepRecord(env, states[n], events[n]);
      SinceGoesOn(env, states, events);
      RecordGoesOn(env, states[n], states[n + 1], SweepsAt(env, states[n], events[n]), SweptSince(env, earlier, first));
    }
  }

  lemma RecordGoesOn(env: Env, s: Scan, r: Scan, sweeps: bool, before: bool)
    requires RecordStep(env, s, r, sweeps) && (s.swept <==> !RootOpened(s) || env.nmap == [] || before)
    requires before ==> RootOpened(s)
    ensures r.swept <==> !RootOpened(r) || env.nmap == [] || before || (RootOpened(s) && sweeps)
  {
  }

  lemma SinceGoesOn(env: Env, states: seq<Scan>, events: seq<Event>)
    requires IsRun(env, states, events) && events != [] && Fresh(env, states[0])
    ensures var n := |events| - 1;
            && IsRun(env, states[..n + 1], events[..n]) && StepAt(env, states, events, n)
            && (SweptSince(env, states, events) <==>
                  SweptSince(env, states[..n + 1], events[..n]) || (RootOpened(states[n]) && SweepsAt(env, states[n], events[n])))
            && (SweptSince(env, states[..n + 1], events[..n]) ==> RootOpened(states[n]))
  {
    hide Enabled, Next, SweepsAt, Fresh;
    var n := |events| - 1;
    PrefixRun(env, states, events);
    var earlier, first := states[..n + 1], events[..n];
    forall i | 0 <= i < n ensures SweptStep(env, earlier, first, i) == SweptStep(env, states, events, i) {
      assert earlier[i] == states[i] && earlier[i + 1] == states[i + 1] && first[i] == events[i];
    }
    if SweptSince(env, earlier, first) {
      var i :| 0 <= i < |first| && SweptStep(env, earlier, first, i);
      assert SweptStep(env, states, events, i);
      StaysOpened(env, states, events, i, n);
    }
    if SweptSince(env, states, events) {
      var i :| 0 <= i < |events| && SweptStep(env, states, events, i);
      if i < n { assert SweptStep(env, earlier, first, i); }
    }
    if RootOpened(states[n]) && SweepsAt(env, states[n], events[n]) {
      assert SweptStep(env, states, events, n);
    }
  }

  lemma {:induction false} StaysOpened(env: Env, states: seq<Scan>, events: seq<Event>, i: nat, j: nat)
    requires IsRun(env, states, events) && Fresh(env, states[0]) && i <= j < |states| && RootOpened(states[i])
    ensures RootOpened(states[j])
    decreases j - i
  {
    hide Enabled, Next, Sound, Room, Places, Fresh, SweepsAt;
    if i < j {
      StaysOpened(env, states, events, i, j - 1);
      FreshSound(env, states[0]);
      RunSound(env, states, events, j - 1);
      assert StepAt(env, states, events, j - 1);
      StepRecord(env, states[j - 1], events[j - 1]);
    }
  }

  lemma FreshSwept(env: Env, s: Scan)
    requires Fresh(env, s)
    ensures s.swept == (!RootOpened(s) || env.nmap == [])
  {
    hide FinishCalibration, Probes;
    var profile: nat, exts, producers: nat, last: real :|
      s == StartCalibration(env, Blank(env, profile, exts, producers, last), "", 0);
    var b := Blank(env, profile, exts, producers, last);
    var probes := Probes(env, "", b.exts, 0);
    if probes == [] { RootSwept(env, b.(book := Started(b.book, "", 0, probes))); }
  }

  ghost predicate Coherent(env: Env, s: Scan)
  {
    forall c :: c in s.book.queue ==> c.score == Score(env, s.scoring, c)
  }

  /** Each nmap seed still queued as it was has, by chance, the score scoreCandidate gives it. */
  ghost predicate SeedsScoreFixed(env: Env, s: Scan)
  {
    forall c :: c in s.book.queue && IsNmapSeed(env, c) ==> Score(env, s.scoring, c) == NMAP_SEED_SCORE
  }

  /** A clean frontier is coherent if and only if everything was rescored since the root was opened, or each
      nmap seed still queued as it was would score exactly what it was given. */
  lemma CoherentExactly(env: Env, states: seq<Scan>, events: seq<Event>)
    requires IsRun(env, states, events) && Fresh(env, states[0]) && Configured(env) && Cacheable(env)
    requires !states[|events|].dirty
    ensures Coherent(env, states[|events|]) <==> SweptSince(env, states, events) || SeedsScoreFixed(env, states[|events|])
  {
    hide Fresh, StepAt, Configured, Cacheable, Score, IsNmapSeed, SweptSince, RootOpened, ScoreBefore;
    var s := states[|events|];
    SweptIs(env, states, events);
    forall c | c in s.book.queue && (s.swept || !IsNmapSeed(env, c)) ensures c.score == Score(env, s.scoring, c) {
      ScoresCoherent(env, states, events, c);
    }
    forall c | c in s.book.queue && IsNmapSeed(env, c) ensures c.score == NMAP_SEED_SCORE { FixedScore(env, c); }
  }

  lemma FixedScore(env: Env, c: Candidate)
    requires IsNmapSeed(env, c)
    ensures c.score == NMAP_SEED_SCORE
  {
  }
}
