/** What may be requested and what may be recursed into, over whole runs: exclusions, scope, traps, budgets, depth. */
module Gates {
  import opened ScanTypes
  import opened Counting
  import opened Text
  import opened Paths
  import opened Accounting
  import opened Invariants
  import opened Ledgers
  import opened ScanModel
  import opened Soundness
  import opened Stepping
  import opened Runs
  import opened Theorems
  import opened Growth
  import opened Flow
  import opened Progress
  import Blast

  // ---- One request ----------------------------------------------------------------------

  /** When a request is sent no probe and no page waits, and its candidate is in scope, not excluded, and in a directory that
      is being scanned, is no tarpit and has budget left. */
  lemma RequestGates(env: Env, states: seq<Scan>, events: seq<Event>, i: nat)
    requires IsRun(env, states, events) && Sound(env, states[0]) && i < |events| && events[i].Requested?
    ensures var s, c := states[i], events[i].cand;
            && env.inScope(env.target + c.parentDir + "/" + c.path)
            && (forall k :: 0 <= k < |s.scoring.overrides| && s.scoring.overrides[k].kind == Exclude ==>
                  !env.matches(s.scoring.overrides[k].pattern, c.parentDir, c.path))
            && c in s.book.queue && c.parentDir in s.book.dirs && s.book.dirs[c.parentDir].phase == Scanning
            && !s.book.dirs[c.parentDir].capped && s.book.dirs[c.parentDir].dispatched < s.book.dirs[c.parentDir].budget
            && s.harvestQueue == [] && forall d :: d in s.book.dirs ==> s.book.dirs[d].probeQueue == []
  {
    hide Room, Places, Next, Rest;
    RunSound(env, states, events, i);
    assert StepAt(env, states, events, i);
    QueuedIsScanning(states[i].book, events[i].cand);
    NoProbeWaits(states[i]);
  }

  lemma NoProbeWaits(s: Scan)
    requires Inv(s.book) && !ProbesWait(s)
    ensures forall d :: d in s.book.dirs ==> s.book.dirs[d].probeQueue == []
  {
    forall d | d in s.book.dirs ensures s.book.dirs[d].probeQueue == [] {
      assert DirOk(s.book, d);
      assert multiset(s.book.order)[d] > 0 ==> d in s.book.order;
    }
  }

  /** What the loop discards failed one of these gates, so a discard is never made without a reason. */
  lemma DiscardGates(env: Env, states: seq<Scan>, events: seq<Event>, i: nat)
    requires IsRun(env, states, events) && Sound(env, states[0]) && i < |events| && events[i].Skipped?
    ensures var s, c := states[i], events[i].cand;
            && c.parentDir in s.book.dirs
            && (|| !env.inScope(env.target + c.parentDir + "/" + c.path)
                || (exists k :: 0 <= k < |s.scoring.overrides| && s.scoring.overrides[k].kind == Exclude
                                && env.matches(s.scoring.overrides[k].pattern, c.parentDir, c.path))
                || s.book.dirs[c.parentDir].capped || s.book.dirs[c.parentDir].dispatched >= s.book.dirs[c.parentDir].budget)
  {
    hide Room, Places, Next, Rest, Inv;
    assert StepAt(env, states, events, i);
  }

  // ---- What a step does to the tree -----------------------------------------------------

  predicate TarpitSeen(e: Event, d: string)
  {
    e.ResultBack? && e.cand.parentDir == d && e.response.Answered? && e.response.tarpit
  }

  predicate WildcardSeen(e: Event, d: string)
  {
    e.ResultBack? && e.cand.parentDir == d && e.response.Answered? && e.response.wildcard
  }

  /** The override an event records. */
  function OverrideAt(e: Event): seq<Override>
  {
    match e
    case Weighted(pattern, kind, factor) => [Override(pattern, kind, if factor > 0.0 then factor else 1.0)]
    case Pinned(pattern, picks) => [Override(pattern, Boost, 1000.0)]
    case Barred(pattern, removed) => [Override(pattern, Exclude, 1.0)]
    case _ => []
  }

  function OverridesIn(events: seq<Event>): seq<Override>
  {
    if events == [] then [] else OverridesIn(events[..|events| - 1]) + OverrideAt(events[|events| - 1])
  }

  /** An event adds the override it records and nothing else, traps at most the directory its answer comes from, leaves every
      other directory's depth and traps alone, and keeps the levels. */
  ghost predicate TreeStep(env: Env, s: Scan, e: Event, r: Scan)
  {
    && r.scoring.overrides == s.scoring.overrides + OverrideAt(e) && Untrapped(s.book.dirs, r.book.dirs)
    && (forall d :: d in s.book.dirs ==>
          d in r.book.dirs && TrapRec(s.book.dirs[d], r.book.dirs[d], TarpitSeen(e, d), WildcardSeen(e, d)))
    && Leveled(env, r.book) && (e.ResultBack? ==> e.cand.parentDir in s.book.dirs && s.book.dirs[e.cand.parentDir].phase != Calibrating)
  }

  lemma GrowsStep(env: Env, s: Scan, e: Event, r: Scan)
    requires Grows(env, s, r) && Leveled(env, s.book) && !e.ResultBack? && OverrideAt(e) == []
    ensures TreeStep(env, s, e, r)
  {
    hide Leveled;
    assert s.scoring.overrides + [] == s.scoring.overrides;
  }

  lemma TrapsStep(env: Env, s: Scan, c: Candidate, response: Response, now: real, r: Scan)
    requires Traps(env, s, r, c.parentDir, response.Answered? && response.tarpit, response.Answered? && response.wildcard)
    requires Leveled(env, s.book)
    ensures TreeStep(env, s, ResultBack(c, response, now), r)
  {
    hide Leveled;
    assert s.scoring.overrides + [] == s.scoring.overrides;
  }

  /** Recording an override touches nothing else. */
  lemma RecordedStep(env: Env, s: Scan, e: Event, t: Scan, r: Scan)
    requires t == s.(scoring := s.scoring.(overrides := s.scoring.overrides + OverrideAt(e)))
    requires Leveled(env, s.book) && Grows(env, t, r) && !e.ResultBack?
    ensures TreeStep(env, s, e, r)
  {
    hide Leveled;
  }

  lemma OverrideGrows(env: Env, s: Scan)
    ensures Grows(env, s, Sweep(env, s))
  {
    hide MapAll, Score, Grows;
    RescoredGrows(env, s, Sweep(env, s), s.scoring);
  }

  lemma PinGrows(env: Env, s: Scan, pattern: string, picks: seq<Candidate>)
    requires |picks| == |Segments(pattern)|
    ensures Grows(env, WithOverride(s, pattern, Boost, PIN_SCORE), ApplyPin(env, s, pattern, picks))
  {
    hide Grows, EnqueueSeed, Segments, IsGlob, Sweep;
    var t := WithOverride(s, pattern, Boost, PIN_SCORE);
    OverrideGrows(env, t);
    if !IsGlob(pattern) {
      SeedGrows(env, Sweep(env, t), Seed(pattern, false, 1.0, "user:pin"), picks);
      Growth.Then(env, t, Sweep(env, t), ApplyPin(env, s, pattern, picks));
    }
  }

  lemma BarGrows(env: Env, s: Scan, pattern: string, removed: seq<Candidate>)
    requires Sound(env, s) && multiset(removed) <= s.book.queue
    requires forall i :: 0 <= i < |removed| ==> removed[i].parentDir in s.book.dirs
    ensures Grows(env, WithOverride(s, pattern, Exclude, 1.0), Bar(s, pattern, removed))
  {
    hide Grows, SweepOut, Rest, Inv;
    forall i | 0 <= i < |removed|
      ensures removed[i].parentDir in s.book.dirs && s.book.dirs[removed[i].parentDir].phase != Calibrating
    {
      assert removed[i] in multiset(removed);
      QueuedIsScanning(s.book, removed[i]);
    }
    SweepOutGrows(env, WithOverride(s, pattern, Exclude, 1.0), removed);
  }

  lemma CandidateGrows(env: Env, s: Scan, c: Candidate)
    requires Sound(env, s) && c in s.book.queue
    ensures c.parentDir in s.book.dirs && Grows(env, s, Dispatch(s, c)) && Grows(env, s, ScanModel.Discard(s, c))
  {
    hide Grows, Rest, Inv, Dispatch;
    QueuedIsScanning(s.book, c);
    DispatchGrows(env, s, c);
    DiscardGrows(env, s, c, OverBudget(s, c));
  }

  lemma ProbeGrows(env: Env, s: Scan, d: string)
    requires FirstToProbe(s, d)
    ensures d in s.book.dirs && |s.book.dirs[d].probeQueue| > 0 && Grows(env, s, s.(book := ProbeOut(s.book, d)))
  {
    hide Grows, ProbeOut;
    ProbeOutGrows(env, s, d);
  }

  lemma ProbedIsCalibrating(s: Scan, d: string)
    requires Inv(s.book) && d in s.book.probes
    ensures d in s.book.dirs && s.book.dirs[d].phase == Calibrating
  {
    assert DirOk(s.book, d);
  }

  lemma SameTree(env: Env, s: Scan, r: Scan)
    requires r.book == s.book && r.scoring == s.scoring
    ensures Grows(env, s, r)
  {
    hide Grows;
    MovedGrows(env, s, r);
  }

  lemma ResultTraps(env: Env, s: Scan, c: Candidate, r: Response, now: real)
    requires Sound(env, s) && Leveled(env, s.book) && c in s.book.flying
    ensures c.parentDir in s.book.dirs && TreeStep(env, s, ResultBack(c, r, now), HandleReal(env, s, c, r, now))
  {
    hide Rest, Inv, HandleReal, Leveled, Traps, TreeStep;
    QueuedIsScanning(s.book, c);
    RealTraps(env, s, c, r, now);
    TrapsStep(env, s, c, r, now, HandleReal(env, s, c, r, now));
  }

  lemma StepTree(env: Env, s: Scan, e: Event)
    requires Sound(env, s) && Leveled(env, s.book) && Enabled(env, s, e)
    ensures TreeStep(env, s, e, Next(env, s, e))
  {
    hide Sound, Leveled, Grows, TreeStep, Blocked, Segments, CollectProbe, HandleReal, EnqueueSeed, ApplyPin, SweepOut, Dispatch,
         ScanModel.Discard, ProbesWait, FirstToProbe, ProbeOut, Sweep, Throttles, SameHistory, SameClock;
    var r := Next(env, s, e);
    match e
    case ProbeSent(d) => ProbeGrows(env, s, d); GrowsStep(env, s, e, r);
    case FetchSent => SameTree(env, s, r); GrowsStep(env, s, e, r);
    case Requested(c) => CandidateGrows(env, s, c); GrowsStep(env, s, e, r);
    case Skipped(c) => CandidateGrows(env, s, c); GrowsStep(env, s, e, r);
    case ProbeBackAt(d) => SoundInv(env, s); ProbedIsCalibrating(s, d); CollectGrows(env, s, d); GrowsStep(env, s, e, r);
    case FetchBack(url, body) => SameTree(env, s, r); GrowsStep(env, s, e, r);
    case ResultBack(c, response, now) => ResultTraps(env, s, c, response, now);
    case Seeded(sd, picks) => SeedGrows(env, s, sd, picks); GrowsStep(env, s, e, r);
    case FetchAsked(url) => SameTree(env, s, r); GrowsStep(env, s, e, r);
    case ProducerDone => SameTree(env, s, r); GrowsStep(env, s, e, r);
    case Weighted(pattern, kind, factor) =>
      OverrideGrows(env, WithOverride(s, pattern, kind, FactorOf(factor)));
      RecordedStep(env, s, e, WithOverride(s, pattern, kind, FactorOf(factor)), r);
    case Pinned(pattern, picks) =>
      PinGrows(env, s, pattern, picks);
      RecordedStep(env, s, e, WithOverride(s, pattern, Boost, PIN_SCORE), r);
    case Barred(pattern, removed) =>
      BarGrows(env, s, pattern, removed);
      RecordedStep(env, s, e, WithOverride(s, pattern, Exclude, 1.0), r);
  }

  lemma SoundInv(env: Env, s: Scan)
    requires Sound(env, s)
    ensures Inv(s.book)
  {
    hide Inv, Rest;
  }

  // ---- Over a run -----------------------------------------------------------------------

  lemma FreshTree(env: Env, s: Scan)
    requires Fresh(env, s)
    ensures Leveled(env, s.book) && s.scoring.overrides == [] && s.book.dirs.Keys == {""}
    ensures !s.book.dirs[""].capped && !s.book.dirs[""].wildcard && s.book.dirs[""].depth == 0
  {
    hide StartCalibration, Deepest, Grows;
    var profile: nat, exts, producers: nat, last: real :|
      s == StartCalibration(env, Blank(env, profile, exts, producers, last), "", 0);
    var b := Blank(env, profile, exts, producers, last);
    StartGrows(env, b, "", 0);
    FromBlank(env, b, s);
    Blast.ChildDirs(env, b, "", 0);
  }

  lemma FromBlank(env: Env, b: Scan, s: Scan)
    requires Grows(env, b, s) && b.book.dirs == map[] && b.book.queue == multiset{} && b.book.flying == multiset{}
    ensures Leveled(env, s.book) && s.scoring.overrides == b.scoring.overrides
    ensures forall d :: d in s.book.dirs ==> !s.book.dirs[d].capped && !s.book.dirs[d].wildcard
  {
    hide Fits, Placed;
  }

  ghost predicate Tarpit(events: seq<Event>, d: string)
  {
    exists i :: 0 <= i < |events| && TarpitSeen(events[i], d)
  }

  ghost predicate Wildcard(events: seq<Event>, d: string)
  {
    exists i :: 0 <= i < |events| && WildcardSeen(events[i], d)
  }

  lemma SeenSnoc(events: seq<Event>, d: string)
    requires events != []
    ensures var n := |events| - 1;
            && (Tarpit(events, d) <==> Tarpit(events[..n], d) || TarpitSeen(events[n], d))
            && (Wildcard(events, d) <==> Wildcard(events[..n], d) || WildcardSeen(events[n], d))
  {
    hide TarpitSeen, WildcardSeen;
    var n := |events| - 1;
    var first := events[..n];
    if i :| 0 <= i < |first| && TarpitSeen(first[i], d) { assert TarpitSeen(events[i], d); }
    if i :| 0 <= i < |first| && WildcardSeen(first[i], d) { assert WildcardSeen(events[i], d); }
    if i :| 0 <= i < n && TarpitSeen(events[i], d) { assert TarpitSeen(first[i], d); }
    if i :| 0 <= i < n && WildcardSeen(events[i], d) { assert WildcardSeen(first[i], d); }
  }

  predicate WasCapped(s: Scan, d: string) { d in s.book.dirs && s.book.dirs[d].capped }

  predicate WasSuspect(s: Scan, d: string) { d in s.book.dirs && s.book.dirs[d].wildcard }

  /** What events make of the tree: every override is recorded, in order; a directory is capped exactly if it was at the start or
      an answer from it showed a tarpit, and a wildcard suspect exactly if it was or one showed a wildcard; levels are right. */
  ghost predicate Record(env: Env, s0: Scan, events: seq<Event>, s: Scan)
  {
    && s.scoring.overrides == s0.scoring.overrides + OverridesIn(events) && Leveled(env, s.book)
    && (forall d :: d in s.book.dirs ==> DirRecord(s0, events, s.book.dirs[d], d))
    && forall d :: d in s0.book.dirs || Tarpit(events, d) || Wildcard(events, d) ==> d in s.book.dirs
  }

  lemma RecordSnoc(env: Env, s0: Scan, events: seq<Event>, s: Scan, r: Scan)
    requires events != [] && Record(env, s0, events[..|events| - 1], s) && TreeStep(env, s, events[|events| - 1], r)
    ensures Record(env, s0, events, r)
  {
    hide Tarpit, Wildcard, TarpitSeen, WildcardSeen, Leveled, TrapRec, WasCapped, WasSuspect;
    var n := |events| - 1;
    forall d ensures d in r.book.dirs ==> DirRecord(s0, events, r.book.dirs[d], d)
             ensures d in s0.book.dirs || Tarpit(events, d) || Wildcard(events, d) ==> d in r.book.dirs
    {
      SeenSnoc(events, d);
      SeenIn(events[n], d);
      if d in s.book.dirs {
        NoTrapYet(env, s, d);
        DirSnoc(s0, events, s.book.dirs[d], r.book.dirs[d], d);
      } else if d in r.book.dirs {
        NewRecord(s0, events, r.book.dirs[d], d);
      }
    }
  }

  /** What the events make of one directory. */
  ghost predicate DirRecord(s0: Scan, events: seq<Event>, r: DirRec, d: string)
  {
    (r.capped <==> WasCapped(s0, d) || Tarpit(events, d)) && (r.wildcard <==> WasSuspect(s0, d) || Wildcard(events, d))
  }

  lemma SeenIn(e: Event, d: string)
    ensures TarpitSeen(e, d) || WildcardSeen(e, d) ==> e.ResultBack? && e.cand.parentDir == d
  {
  }

  lemma NoTrapYet(env: Env, s: Scan, d: string)
    requires Leveled(env, s.book) && d in s.book.dirs
    ensures s.book.dirs[d].phase == Calibrating ==> !s.book.dirs[d].capped && !s.book.dirs[d].wildcard
  {
    assert Placed(env, d, s.book.dirs[d]);
  }

  lemma DirSnoc(s0: Scan, events: seq<Event>, a: DirRec, b: DirRec, d: string)
    requires events != [] && DirRecord(s0, events[..|events| - 1], a, d)
    requires TrapRec(a, b, TarpitSeen(events[|events| - 1], d), WildcardSeen(events[|events| - 1], d))
    requires a.phase == Calibrating ==> !a.capped && !a.wildcard
    ensures DirRecord(s0, events, b, d)
  {
    hide Tarpit, Wildcard, TarpitSeen, WildcardSeen;
    SeenSnoc(events, d);
  }

  lemma NewRecord(s0: Scan, events: seq<Event>, r: DirRec, d: string)
    requires d !in s0.book.dirs && !r.capped && !r.wildcard && !Tarpit(events, d) && !Wildcard(events, d)
    ensures DirRecord(s0, events, r, d)
  {
  }

  lemma {:induction false} RunRecords(env: Env, states: seq<Scan>, events: seq<Event>)
    requires IsRun(env, states, events) && Sound(env, states[0]) && Leveled(env, states[0].book)
    ensures Record(env, states[0], events, states[|events|])
  {
    hide Enabled, Next, Sound, Room, Places, TreeStep;
    if events == [] {
      NothingSeen(env, states[0]);
    } else {
      hide Record;
      var n := |events| - 1;
      PrefixRun(env, states, events);
      RunRecords(env, states[..n + 1], events[..n]);
      RunSound(env, states, events, n);
      RecordLevels(env, states[0], events[..n], states[n]);
      StepTree(env, states[n], events[n]);
      RecordSnoc(env, states[0], events, states[n], states[n + 1]);
    }
  }

  lemma NothingSeen(env: Env, s: Scan)
    requires Leveled(env, s.book)
    ensures Record(env, s, [], s)
  {
    hide Leveled;
    assert s.scoring.overrides + [] == s.scoring.overrides;
  }

  lemma RecordLevels(env: Env, s0: Scan, events: seq<Event>, s: Scan)
    requires Record(env, s0, events, s)
    ensures Leveled(env, s.book)
  {
    hide Leveled;
  }

  /** What is so after the first n events of a run, from a state where levels are right. */
  lemma RecordAt(env: Env, states: seq<Scan>, events: seq<Event>, n: nat)
    requires IsRun(env, states, events) && Sound(env, states[0]) && Leveled(env, states[0].book) && n <= |events|
    ensures Record(env, states[0], events[..n], states[n])
  {
    hide Enabled, Next, Sound, Room, Places, Record, Leveled;
    PrefixIs(env, states, events, n);
    RunRecords(env, states[..n + 1], events[..n]);
  }

  lemma PrefixIs(env: Env, states: seq<Scan>, events: seq<Event>, n: nat)
    requires IsRun(env, states, events) && n <= |events|
    ensures IsRun(env, states[..n + 1], events[..n])
  {
    hide Enabled, Next;
    var earlier, first := states[..n + 1], events[..n];
    forall i | 0 <= i < n ensures StepAt(env, earlier, first, i) { assert StepAt(env, states, events, i); }
  }

  lemma {:induction false} Excludes(events: seq<Event>, i: nat)
    requires i < |events| && events[i].Barred?
    ensures Override(events[i].pattern, Exclude, 1.0) in OverridesIn(events)
  {
    var n := |events| - 1;
    if i < n { Excludes(events[..n], i); }
  }

  lemma {:induction false} ExcludedBy(events: seq<Event>, ov: Override) returns (i: nat)
    requires ov in OverridesIn(events) && ov.kind == Exclude
    requires forall k :: 0 <= k < |events| && events[k].Weighted? ==> events[k].kind != Exclude
    ensures i < |events| && events[i].Barred? && events[i].pattern == ov.pattern
  {
    var n := |events| - 1;
    if ov in OverridesIn(events[..n]) { i := ExcludedBy(events[..n], ov); } else { i := n; }
  }

  /** An excluded candidate is never requested: after an exclusion no later request of the run matches its pattern, whenever
      its candidate was queued. */
  lemma ExcludedForGood(env: Env, states: seq<Scan>, events: seq<Event>, i: nat, j: nat)
    requires IsRun(env, states, events) && Sound(env, states[0]) && Leveled(env, states[0].book)
    requires i < j < |events| && events[i].Barred? && events[j].Requested?
    ensures !env.matches(events[i].pattern, events[j].cand.parentDir, events[j].cand.path)
  {
    hide Enabled, Next, Sound, Room, Places, Leveled, Tarpit, Wildcard;
    RecordAt(env, states, events, j);
    RequestGates(env, states, events, j);
    Excludes(events[..j], i);
    var overrides := states[j].scoring.overrides;
    assert Override(events[i].pattern, Exclude, 1.0) in overrides;
    var k :| 0 <= k < |overrides| && overrides[k] == Override(events[i].pattern, Exclude, 1.0);
  }

  lemma NoneFresh(env: Env, s: Scan, d: string)
    requires Fresh(env, s)
    ensures Leveled(env, s.book) && !WasCapped(s, d) && !WasSuspect(s, d) && s.scoring.overrides == []
  {
    hide Leveled, Fresh;
    FreshTree(env, s);
  }

  /** And nothing else is: from a start without overrides a path is excluded exactly if an earlier exclusion of the run matches it. */
  lemma ExcludedIs(env: Env, states: seq<Scan>, events: seq<Event>, d: string, p: string)
    requires IsRun(env, states, events) && Sound(env, states[0]) && Leveled(env, states[0].book) && states[0].scoring.overrides == []
    ensures Excluded(env, states[|events|].scoring.overrides, d, p)
       <==> exists i :: 0 <= i < |events| && events[i].Barred? && env.matches(events[i].pattern, d, p)
  {
    hide Enabled, Next, Sound, Room, Places, Leveled, Tarpit, Wildcard;
    RunRecords(env, states, events);
    var overrides := states[|events|].scoring.overrides;
    assert overrides == OverridesIn(events);
    if i :| 0 <= i < |events| && events[i].Barred? && env.matches(events[i].pattern, d, p) {
      Excludes(events, i);
      var k :| 0 <= k < |overrides| && overrides[k] == Override(events[i].pattern, Exclude, 1.0);
    }
    if Excluded(env, overrides, d, p) {
      var k :| 0 <= k < |overrides| && overrides[k].kind == Exclude && env.matches(overrides[k].pattern, d, p);
      WeightsOnly(env, states, events);
      var i := ExcludedBy(events, overrides[k]);
    }
  }

  lemma WeightsOnly(env: Env, states: seq<Scan>, events: seq<Event>)
    requires IsRun(env, states, events)
    ensures forall k :: 0 <= k < |events| && events[k].Weighted? ==> events[k].kind != Exclude
  {
    hide Next;
    forall k | 0 <= k < |events| && events[k].Weighted? ensures events[k].kind != Exclude { assert StepAt(env, states, events, k); }
  }

  /** In a fresh run a directory is capped exactly if one of its answers showed a tarpit, and a wildcard suspect exactly if one
      showed a wildcard. */
  lemma TrapsAre(env: Env, states: seq<Scan>, events: seq<Event>, d: string)
    requires IsRun(env, states, events) && Fresh(env, states[0]) && d in states[|events|].book.dirs
    ensures var r := states[|events|].book.dirs[d]; (r.capped <==> Tarpit(events, d)) && (r.wildcard <==> Wildcard(events, d))
  {
    hide Enabled, Next, Sound, Room, Places, Leveled, Tarpit, Wildcard, Fresh;
    FreshSound(env, states[0]);
    NoneFresh(env, states[0], d);
    RunRecords(env, states, events);
  }

  /** A tarpit stops dispatch: after an answer that shows one, no later request of the run is in that directory. */
  lemma TarpitStops(env: Env, states: seq<Scan>, events: seq<Event>, i: nat, j: nat, d: string)
    requires IsRun(env, states, events) && Sound(env, states[0]) && Leveled(env, states[0].book)
    requires i < j < |events| && TarpitSeen(events[i], d) && events[j].Requested?
    ensures events[j].cand.parentDir != d
  {
    hide Enabled, Next, Sound, Room, Places, Leveled, Wildcard, TarpitSeen;
    RecordAt(env, states, events, j);
    RequestGates(env, states, events, j);
    assert TarpitSeen(events[..j][i], d);
  }

  // ---- Recursion ------------------------------------------------------------------------

  lemma LearnedDirs(env: Env, s: Scan, c: Candidate, r: Response, now: real)
    requires r.Answered? && c.parentDir in s.book.dirs && s.book.dirs[c.parentDir].phase != Calibrating
    ensures var t := LearnFromHit(env, s, c, r, now);
            && t.book.dirs.Keys == s.book.dirs.Keys && t.book.dirs[c.parentDir].capped == s.book.dirs[c.parentDir].capped
            && t.book.dirs[c.parentDir].wildcard == s.book.dirs[c.parentDir].wildcard
  {
    hide LearnFromHit, Leveled;
    LearnIdle(env, s, c, r, now);
    LearnGrows(env, s, c, r, now);
  }

  /** The condition for a result to open a directory. */
  predicate Opens(env: Env, s: Scan, c: Candidate, r: Response)
  {
    && r.Answered? && r.hit && r.hash !in s.seen && c.kind == TypeDir && r.dirLike && r.confidence >= RECURSE_MIN_CONF
    && c.depth < env.maxDepth && env.inScope(env.target + c.parentDir + "/" + c.path) && !r.tarpit && !r.late
    && c.parentDir in s.book.dirs && !s.book.dirs[c.parentDir].capped && !s.book.dirs[c.parentDir].wildcard
  }

  /** A child directory, if it was not there yet, is as deep as its candidate. */
  lemma ChildDepth(env: Env, s: Scan, d: string, depth: int)
    requires d !in s.book.dirs
    ensures var r := EnqueueChild(env, s, d, depth); d in r.book.dirs && r.book.dirs[d].depth == depth
  {
    hide FinishCalibration, Probes, Leveled;
    var probes := Probes(env, d, s.exts, 0);
    if probes == [] { FinishGrows(env, s.(book := Started(s.book, d, depth, probes)), d); }
  }

  /** From s to r exactly these directories are new, the child so deep. */
  ghost predicate NewDirs(s: Scan, r: Scan, opened_: bool, d: string, depth: int)
  {
    && r.book.dirs.Keys == s.book.dirs.Keys + (if opened_ then {d} else {})
    && (opened_ && d !in s.book.dirs ==> r.book.dirs[d].depth == depth)
  }

  lemma HitOpens(env: Env, s: Scan, c: Candidate, r: Response, now: real)
    requires c.parentDir in s.book.dirs && s.book.dirs[c.parentDir].phase != Calibrating && r.Answered? && r.hit && !r.tarpit
    ensures NewDirs(s, HandleHit(env, s, c, r, now), Opens(env, s, c, r), c.parentDir + "/" + c.path, c.depth)
  {
    hide LearnFromHit, EnqueueChild, Aliased;
    var url, d := Url(env, c.parentDir, c.path), c.parentDir + "/" + c.path;
    if r.hash !in s.seen {
      var s1 := s.(seen := s.seen[r.hash := [url]],
                   findings := s.findings + [Finding(url, r.hash, r.confidence, c.provenance, [])],
                   book := s.book.(log := s.book.log.(novel := s.book.log.novel + 1)));
      var s2 := LearnFromHit(env, s1, c, r, now);
      LearnedDirs(env, s1, c, r, now);
      Blast.ChildDirs(env, s2, d, c.depth);
      if d !in s2.book.dirs { ChildDepth(env, s2, d, c.depth); }
    }
  }

  lemma CappedOpensNone(env: Env, s: Scan, c: Candidate, r: Response, now: real)
    requires c.parentDir in s.book.dirs && s.book.dirs[c.parentDir].phase != Calibrating && r.Answered? && s.book.dirs[c.parentDir].capped
    ensures HandleHit(env, s, c, r, now).book.dirs.Keys == s.book.dirs.Keys
  {
    hide LearnFromHit, EnqueueChild, Aliased, Url;
    if r.hash !in s.seen {
      var url := Url(env, c.parentDir, c.path);
      var s1 := s.(seen := s.seen[r.hash := [url]],
                   findings := s.findings + [Finding(url, r.hash, r.confidence, c.provenance, [])],
                   book := s.book.(log := s.book.log.(novel := s.book.log.novel + 1)));
      LearnedDirs(env, s1, c, r, now);
    }
  }

  lemma ConcludedDirs(env: Env, s: Scan, c: Candidate, r: Response)
    requires r.Answered? && c.parentDir in s.book.dirs && s.book.dirs[c.parentDir].phase != Calibrating
    ensures var t := Concluded(env, s, c, r);
            t.book.dirs.Keys == s.book.dirs.Keys && forall d :: d in s.book.dirs ==> t.book.dirs[d].depth == s.book.dirs[d].depth
  {
    hide Url;
  }

  /** A result opens a directory if and only if it is a novel, sure, directory-like hit on a directory candidate above the depth
      limit, in scope, from a branch that has time left and is neither a tarpit, with this answer, nor a wildcard suspect.
      That directory is the candidate's own, and as deep as the candidate. */
  lemma ResultOpens(env: Env, s: Scan, c: Candidate, r: Response, now: real)
    requires Inv(s.book) && c in s.book.flying
    ensures c.parentDir in s.book.dirs
    ensures NewDirs(s, HandleReal(env, s, c, r, now), Opens(env, s, c, r), c.parentDir + "/" + c.path, c.depth)
  {
    hide HandleHit, Concluded, Inv, Opens, NewDirs, Trapped, Settled;
    QueuedIsScanning(s.book, c);
    TrapOpens(env, s, c, r);
    if r.Answered? {
      var s1 := s.(book := Trapped(s.book, c.parentDir, r.tarpit, false));
      AnsweredOpens(env, s1, c, r, now);
      SameNew(s, s1, HandleReal(env, s, c, r, now), Opens(env, s, c, r), c.parentDir + "/" + c.path, c.depth);
    } else {
      FailedOpens(s, c);
    }
  }

  lemma FailedOpens(s: Scan, c: Candidate)
    requires c.parentDir in s.book.dirs
    ensures NewDirs(s, s.(book := Settled(s.book, c)), false, c.parentDir + "/" + c.path, c.depth)
  {
  }

  lemma SameNew(s: Scan, t: Scan, r: Scan, opened_: bool, d: string, depth: int)
    requires NewDirs(t, r, opened_, d, depth) && t.book.dirs.Keys == s.book.dirs.Keys
    ensures NewDirs(s, r, opened_, d, depth)
  {
  }

  lemma NewThen(s: Scan, t: Scan, r: Scan, opened_: bool, d: string, depth: int)
    requires NewDirs(s, t, opened_, d, depth) && r.book.dirs.Keys == t.book.dirs.Keys
    requires forall e :: e in t.book.dirs ==> r.book.dirs[e].depth == t.book.dirs[e].depth
    ensures NewDirs(s, r, opened_, d, depth)
  {
  }

  /** The same once the tarpit test has been made. */
  lemma AnsweredOpens(env: Env, s: Scan, c: Candidate, r: Response, now: real)
    requires c.parentDir in s.book.dirs && s.book.dirs[c.parentDir].phase != Calibrating && r.Answered?
    requires r.tarpit ==> s.book.dirs[c.parentDir].capped
    ensures var t := Concluded(env, if r.hit then HandleHit(env, s, c, r, now) else s, c, r);
            NewDirs(s, t, Opens(env, s, c, r), c.parentDir + "/" + c.path, c.depth)
  {
    hide HandleHit, Concluded, NewDirs;
    var s2 := if r.hit then HandleHit(env, s, c, r, now) else s;
    var d := c.parentDir + "/" + c.path;
    if r.hit && !r.tarpit {
      HitOpens(env, s, c, r, now);
    } else {
      if r.hit { CappedOpensNone(env, s, c, r, now); }
      NoneNew(s, s2, d, c.depth);
    }
    HitStays(env, s, c, r, now);
    ConcludedDirs(env, s2, c, r);
    NewThen(s, s2, Concluded(env, s2, c, r), Opens(env, s, c, r), d, c.depth);
  }

  lemma NoneNew(s: Scan, r: Scan, d: string, depth: int)
    requires r.book.dirs.Keys == s.book.dirs.Keys
    ensures NewDirs(s, r, false, d, depth)
  {
  }

  lemma TrapOpens(env: Env, s: Scan, c: Candidate, r: Response)
    requires c.parentDir in s.book.dirs
    ensures !r.Answered? ==> !Opens(env, s, c, r)
    ensures r.Answered? ==>
              var s1 := s.(book := Trapped(s.book, c.parentDir, r.tarpit, false));
              && Opens(env, s1, c, r) == Opens(env, s, c, r) && s1.book.dirs.Keys == s.book.dirs.Keys
              && s1.book.dirs[c.parentDir].phase == s.book.dirs[c.parentDir].phase && (r.tarpit ==> s1.book.dirs[c.parentDir].capped)
  {
  }

  lemma HitStays(env: Env, s: Scan, c: Candidate, r: Response, now: real)
    requires c.parentDir in s.book.dirs && s.book.dirs[c.parentDir].phase != Calibrating && r.Answered?
    ensures var t := HandleHit(env, s, c, r, now); c.parentDir in t.book.dirs && t.book.dirs[c.parentDir].phase != Calibrating
  {
    hide LearnFromHit, EnqueueChild, Aliased, Url, Leveled;
    if r.hash !in s.seen {
      var url := Url(env, c.parentDir, c.path);
      var s1 := s.(seen := s.seen[r.hash := [url]],
                   findings := s.findings + [Finding(url, r.hash, r.confidence, c.provenance, [])],
                   book := s.book.(log := s.book.log.(novel := s.book.log.novel + 1)));
      var s2 := LearnFromHit(env, s1, c, r, now);
      LearnGrows(env, s1, c, r, now);
      ChildElsewhere(env, s2, c.parentDir + "/" + c.path, c.depth, c.parentDir);
    }
  }

  lemma ChildElsewhere(env: Env, s: Scan, d: string, depth: int, e: string)
    requires e in s.book.dirs
    ensures var r := EnqueueChild(env, s, d, depth);
            e in r.book.dirs && (s.book.dirs[e].phase != Calibrating ==> r.book.dirs[e].phase != Calibrating)
  {
    hide FinishCalibration, Probes, Leveled;
    if d !in s.book.dirs {
      var probes := Probes(env, d, s.exts, 0);
      if probes == [] { FinishGrows(env, s.(book := Started(s.book, d, depth, probes)), d); }
    }
  }

  /** A wildcard suspect stops recursion, and only that: after an answer that shows a wildcard, no result from its directory opens
      another, while the answer itself leaves the directory capped or not as its own tarpit test says. */
  lemma WildcardStops(env: Env, states: seq<Scan>, events: seq<Event>, i: nat, j: nat, d: string)
    requires IsRun(env, states, events) && Sound(env, states[0]) && Leveled(env, states[0].book)
    requires i < |events| && WildcardSeen(events[i], d)
    ensures d in states[i].book.dirs && d in states[i + 1].book.dirs
    ensures states[i + 1].book.dirs[d].capped == (states[i].book.dirs[d].capped || events[i].response.tarpit)
    ensures i < j < |events| && events[j].ResultBack? && events[j].cand.parentDir == d ==>
              states[j + 1].book.dirs.Keys == states[j].book.dirs.Keys
  {
    hide Enabled, Next, Sound, Room, Places, Leveled, Tarpit, WildcardSeen, HandleReal;
    RunSound(env, states, events, i);
    RecordAt(env, states, events, i);
    assert StepAt(env, states, events, i);
    WildcardStep(env, states[i], events[i], d);
    if i < j < |events| && events[j].ResultBack? && events[j].cand.parentDir == d {
      RunSound(env, states, events, j);
      RecordAt(env, states, events, j);
      assert WildcardSeen(events[..j][i], d);
      assert StepAt(env, states, events, j);
      SuspectOpensNone(env, states[j], events[j], d);
    }
  }

  lemma WildcardStep(env: Env, s: Scan, e: Event, d: string)
    requires Sound(env, s) && Leveled(env, s.book) && Enabled(env, s, e) && WildcardSeen(e, d)
    ensures var r := Next(env, s, e);
            d in s.book.dirs && d in r.book.dirs && r.book.dirs[d].capped == (s.book.dirs[d].capped || e.response.tarpit)
  {
    hide Sound, Leveled, Next;
    StepTree(env, s, e);
  }

  lemma SuspectOpensNone(env: Env, s: Scan, e: Event, d: string)
    requires Sound(env, s) && Enabled(env, s, e) && e.ResultBack? && e.cand.parentDir == d && d in s.book.dirs && s.book.dirs[d].wildcard
    ensures Next(env, s, e).book.dirs.Keys == s.book.dirs.Keys
  {
    hide Inv, Rest, HandleReal;
    ResultOpens(env, s, e.cand, e.response, e.now);
  }

  // ---- Depth ----------------------------------------------------------------------------

  function Max(a: int, b: int): int { if a >= b then a else b }

  /** Recursion is bounded: in every state of a fresh run no directory but the root is deeper than the larger depth limit less
      one, every candidate queued or in flight is deeper than its directory, and none is deeper than the limit. */
  lemma DepthBounded(env: Env, states: seq<Scan>, events: seq<Event>)
    requires IsRun(env, states, events) && Fresh(env, states[0])
    ensures var s, limit := states[|events|], Max(env.maxDepth, env.crawlDepth);
            && (forall d :: d in s.book.dirs ==> if d == "" then s.book.dirs[d].depth == 0 else 1 <= s.book.dirs[d].depth <= limit - 1)
            && (forall c :: c in s.book.queue || c in s.book.flying ==>
                  c.parentDir in s.book.dirs && s.book.dirs[c.parentDir].depth < c.depth <= Max(1, limit))
  {
    hide Enabled, Next, Sound, Room, Places, Leveled, Fresh, Record;
    FreshSound(env, states[0]);
    NoneFresh(env, states[0], "");
    RunRecords(env, states, events);
    RecordLevels(env, states[0], events, states[|events|]);
    LevelsBound(env, states[|events|].book);
  }

  lemma LevelsBound(env: Env, b: Book)
    requires Leveled(env, b)
    ensures var limit := Max(env.maxDepth, env.crawlDepth);
            && (forall d :: d in b.dirs ==> if d == "" then b.dirs[d].depth == 0 else 1 <= b.dirs[d].depth <= limit - 1)
            && (forall c :: c in b.queue || c in b.flying ==>
                  c.parentDir in b.dirs && b.dirs[c.parentDir].depth < c.depth <= Max(1, limit))
  {
    forall d | d in b.dirs
      ensures if d == "" then b.dirs[d].depth == 0 else 1 <= b.dirs[d].depth <= Max(env.maxDepth, env.crawlDepth) - 1
    {
      assert Placed(env, d, b.dirs[d]);
    }
  }

  /** Each recursion goes down: a directory a result opens is deeper than the one the result is from, and above the limit for
      recursion. */
  lemma RecursionDescends(env: Env, states: seq<Scan>, events: seq<Event>, i: nat, d: string)
    requires IsRun(env, states, events) && Fresh(env, states[0]) && i < |events| && events[i].ResultBack?
    requires d in states[i + 1].book.dirs && d !in states[i].book.dirs
    ensures var s, c := states[i], events[i].cand;
            && c.parentDir in s.book.dirs && d == c.parentDir + "/" + c.path
            && s.book.dirs[c.parentDir].depth < states[i + 1].book.dirs[d].depth == c.depth < env.maxDepth
  {
    hide Sound, Room, Places, Leveled, Fresh, Record, HandleReal, Next, Enabled;
    FreshSound(env, states[0]);
    NoneFresh(env, states[0], "");
    RunSound(env, states, events, i);
    RecordAt(env, states, events, i);
    RecordLevels(env, states[0], events[..i], states[i]);
    LevelsBound(env, states[i].book);
    assert StepAt(env, states, events, i);
    BackOpens(env, states[i], events[i]);
  }

  lemma BackOpens(env: Env, s: Scan, e: Event)
    requires Sound(env, s) && Enabled(env, s, e) && e.ResultBack?
    ensures e.cand in s.book.flying
    ensures NewDirs(s, Next(env, s, e), Opens(env, s, e.cand, e.response), e.cand.parentDir + "/" + e.cand.path, e.cand.depth)
  {
    hide Inv, Rest, HandleReal, Opens, NewDirs;
    ResultOpens(env, s, e.cand, e.response, e.now);
  }

  // ---- Scope ----------------------------------------------------------------------------

  /** The URL an event sends a request to, in the state it happens in. */
  function SentTo(env: Env, s: Scan, e: Event): Option<string>
  {
    match e
    case ProbeSent(d) =>
      if d in s.book.dirs && s.book.dirs[d].probeQueue != [] then Some(Url(env, d, s.book.dirs[d].probeQueue[0])) else None
    case FetchSent => if s.harvestQueue != [] then Some(s.harvestQueue[0]) else None
    case Requested(c) => Some(Url(env, c.parentDir, c.path))
    case _ => None
  }

  /** Nothing out of scope is ever sent: no probe, no page fetch and no request. */
  lemma NothingOutOfScope(env: Env, states: seq<Scan>, events: seq<Event>, i: nat)
    requires IsRun(env, states, events) && Fresh(env, states[0]) && i < |events|
    ensures var url := SentTo(env, states[i], events[i]);
            && (events[i].ProbeSent? || events[i].FetchSent? || events[i].Requested? <==> url.Some?)
            && (url.Some? ==> env.inScope(url.value))
  {
    hide Fresh, Sound, Room, Places, Leveled, Record, Url, Next;
    FreshSound(env, states[0]);
    NoneFresh(env, states[0], "");
    RecordAt(env, states, events, i);
    RecordLevels(env, states[0], events[..i], states[i]);
    ProbesScoped(env, states[i]);
    QueuedIsVisited(env, states, events, i);
    assert StepAt(env, states, events, i);
  }

  lemma ProbesScoped(env: Env, s: Scan)
    requires Leveled(env, s.book)
    ensures forall d, p :: d in s.book.dirs && p in s.book.dirs[d].probeQueue ==> env.inScope(Url(env, d, p))
  {
    hide Url;
    forall d | d in s.book.dirs ensures InScope(env, d, s.book.dirs[d].probeQueue) { assert Placed(env, d, s.book.dirs[d]); }
  }
}
