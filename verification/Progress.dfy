/** The loop's own steps are bounded: what the bound on requests is for. */
module Progress {
  import opened ScanTypes
  import opened Counting
  import opened Text
  import opened Paths
  import opened Accounting
  import opened Invariants
  import opened Ledgers
  import opened ScanModel
  import opened Soundness
  import opened History
  import opened Seeds
  import opened Runs
  import opened Theorems
  import opened Flow

  datatype Sort = AProbe | AFetch | ARequest | ADiscard | AProbeBack | AFetchBack | AResult | AnEnd | AnAsk | Other

  function SortOf(e: Event): Sort
  {
    match e
    case ProbeSent(d) => AProbe
    case FetchSent => AFetch
    case Requested(c) => ARequest
    case Skipped(c) => ADiscard
    case ProbeBackAt(d) => AProbeBack
    case FetchBack(url, body) => AFetchBack
    case ResultBack(c, response, now) => AResult
    case ProducerDone => AnEnd
    case FetchAsked(url) => AnAsk
    case _ => Other
  }

  /** How many events of a sort a run has. */
  function Tally(events: seq<Event>, k: Sort): nat
  {
    if events == [] then 0 else Tally(events[..|events| - 1], k) + if SortOf(events[|events| - 1]) == k then 1 else 0
  }

  /** How many steps the loop takes of its own accord. */
  function Steps(events: seq<Event>): nat
  {
    if events == [] then 0 else Steps(events[..|events| - 1]) + if Productive(events[|events| - 1]) then 1 else 0
  }

  /** Where the probes went. */
  ghost function ProbesTo(events: seq<Event>): multiset<string>
  {
    if events == [] then multiset{}
    else ProbesTo(events[..|events| - 1])
         + if events[|events| - 1].ProbeSent? then multiset{events[|events| - 1].dir} else multiset{}
  }

  lemma {:induction false} StepsAre(events: seq<Event>)
    ensures Steps(events) == Tally(events, AProbe) + Tally(events, AFetch) + Tally(events, ARequest) + Tally(events, ADiscard)
                             + Tally(events, AProbeBack) + Tally(events, AFetchBack) + Tally(events, AResult) + Tally(events, AnEnd)
  {
    if events != [] { StepsAre(events[..|events| - 1]); }
  }

  lemma {:induction false} RequestTally(events: seq<Event>)
    ensures |RequestCount(events)| == Tally(events, ARequest)
  {
    hide KeyOf;
    if events != [] { RequestTally(events[..|events| - 1]); }
  }

  lemma {:induction false} DiscardTally(events: seq<Event>)
    ensures |DropCount(events)| >= Tally(events, ADiscard)
  {
    hide KeyOf, AllKeys;
    if events != [] { DiscardTally(events[..|events| - 1]); }
  }

  lemma {:induction false} ProbeTally(events: seq<Event>)
    ensures |ProbesTo(events)| == Tally(events, AProbe)
  {
    if events != [] { ProbeTally(events[..|events| - 1]); }
  }

  // ---- What each step does --------------------------------------------------------------

  /** From s to r the event e moved what is on its way as it should. */
  ghost predicate Moves(env: Env, s: Scan, e: Event, r: Scan, m: nat)
  {
    var k := SortOf(e);
    && |r.book.flying| == |s.book.flying| + (if k == ARequest then 1 else 0) - (if k == AResult then 1 else 0)
    && |r.book.probes| == |s.book.probes| + (if k == AProbe then 1 else 0) - (if k == AProbeBack then 1 else 0)
    && |r.harvestFlying| == |s.harvestFlying| + (if k == AFetch then 1 else 0) - (if k == AFetchBack then 1 else 0)
    && s.visited <= r.visited
    && |r.harvestQueue| + (if k == AFetch then 1 else 0) + RootDue(env, r)
       <= |s.harvestQueue| + RootDue(env, s) + (if k == AnAsk then 1 else 0)
    && r.producers + (if k == AnEnd then 1 else 0) <= s.producers + (if k == AFetchBack || k == AResult then 1 else 0)
    && ProbeMoves(env, s, e, r, m)
  }

  /** One for the root page, until it has been visited. */
  function RootDue(env: Env, s: Scan): nat
  {
    if RootPage(env) in s.visited then 0 else 1
  }

  ghost predicate ProbeMoves(env: Env, s: Scan, e: Event, r: Scan, m: nat)
  {
    && s.book.dirs.Keys <= r.book.dirs.Keys && (s.rootRefined ==> r.rootRefined) && (Width(env, s, m) ==> Width(env, r, m))
    && (Width(env, s, m) ==> forall d :: d in r.book.dirs ==>
          |r.book.dirs[d].probeQueue| + (if e == ProbeSent(d) then 1 else 0)
          <= (if d in s.book.dirs then |s.book.dirs[d].probeQueue| else m)
             + (if d == "" && !s.rootRefined && r.rootRefined then m else 0))
  }

  lemma DrawsMove(env: Env, s: Scan, e: Event, r: Scan, m: nat)
    requires Draws(env, s, r, m) && !e.ProbeSent?
    ensures ProbeMoves(env, s, e, r, m)
  {
    hide Width;
  }

  lemma PagesMove(env: Env, s: Scan, r: Scan)
    requires Pages(env, s, r)
    ensures s.visited <= r.visited && |r.harvestQueue| + RootDue(env, r) <= |s.harvestQueue| + RootDue(env, s)
  {
    hide RootPage;
  }

  lemma FlowMoves(env: Env, s: Scan, e: Event, r: Scan, m: nat)
    requires Flows(env, s, r, m) && SortOf(e) == Other
    ensures Moves(env, s, e, r, m)
  {
    hide RootDue, Draws, ProbeMoves, Pages;
    DrawsMove(env, s, e, r, m);
    PagesMove(env, s, r);
  }

  lemma ReturnMoves(env: Env, s: Scan, c: Candidate, response: Response, now: real, r: Scan, m: nat)
    requires Returns(env, s, c, r, m) && c in s.book.flying
    ensures Moves(env, s, ResultBack(c, response, now), r, m)
  {
    hide RootDue, Draws, ProbeMoves, Pages;
    assert s.book.flying == (s.book.flying - multiset{c}) + multiset{c};
    ReturnDraws(env, s, c, r, m);
    PagesMove(env, s, r);
    DrawsMove(env, s, ResultBack(c, response, now), r, m);
  }

  lemma ReturnDraws(env: Env, s: Scan, c: Candidate, r: Scan, m: nat)
    requires Returns(env, s, c, r, m)
    ensures Draws(env, s, r, m) && Pages(env, s, r)
  {
    hide RootPage;
  }

  lemma ProbeOutMoves(env: Env, s: Scan, d: string, m: nat)
    requires d in s.book.dirs && |s.book.dirs[d].probeQueue| > 0
    ensures Moves(env, s, ProbeSent(d), s.(book := ProbeOut(s.book, d)), m)
  {
    hide RootPage;
  }

  lemma FetchMoves(env: Env, s: Scan, m: nat)
    requires s.harvestQueue != []
    ensures Moves(env, s, FetchSent, FetchOut(s), m)
  {
    hide RootPage;
  }

  lemma AskMoves(env: Env, s: Scan, url: string, m: nat)
    ensures Moves(env, s, FetchAsked(url), EnqueueHarvestFetch(env, s, url), m)
  {
    hide RootPage;
  }

  lemma FetchBackMoves(env: Env, s: Scan, url: string, body: Body, m: nat)
    requires url in s.harvestFlying
    ensures Moves(env, s, FetchBack(url, body), HandleHarvest(s, url, body), m)
  {
    hide RootPage;
    assert s.harvestFlying == (s.harvestFlying - multiset{url}) + multiset{url};
  }

  lemma EndMoves(env: Env, s: Scan, m: nat)
    requires s.producers > 0
    ensures Moves(env, s, ProducerDone, s.(producers := s.producers - 1), m)
  {
    hide RootPage;
  }

  lemma DispatchMoves(env: Env, s: Scan, c: Candidate, m: nat)
    requires c.parentDir in s.book.dirs
    ensures Moves(env, s, Requested(c), Dispatch(s, c), m) && Moves(env, s, Skipped(c), ScanModel.Discard(s, c), m)
  {
    hide RootPage, KeyOf;
  }

  lemma CollectMoves(env: Env, s: Scan, d: string, m: nat)
    requires d in s.book.dirs && d in s.book.probes
    ensures Moves(env, s, ProbeBackAt(d), CollectProbe(env, s, d), m)
  {
    hide RootDue, Draws, ProbeMoves, Pages, FinishCalibration;
    var r := CollectProbe(env, s, d);
    assert s.book.probes == (s.book.probes - multiset{d}) + multiset{d};
    CollectFlows(env, s, d, m);
    PagesMove(env, s, r);
    DrawsMove(env, s, ProbeBackAt(d), r, m);
  }

  lemma BackDraws(env: Env, s: Scan, d: string, m: nat)
    requires d in s.book.dirs
    ensures Draws(env, s, s.(book := ProbeBack(s.book, d)), m)
  {
  }

  lemma CollectFlows(env: Env, s: Scan, d: string, m: nat)
    requires d in s.book.dirs
    ensures var r := CollectProbe(env, s, d);
            && r.book.flying == s.book.flying && r.book.probes == s.book.probes - multiset{d} && r.harvestFlying == s.harvestFlying
            && r.producers == s.producers && Pages(env, s, r) && Draws(env, s, r, m)
  {
    hide RootPage, FinishCalibration, Draws;
    var s1 := s.(book := ProbeBack(s.book, d));
    BackDraws(env, s, d, m);
    FinishFlows(env, s1, d, m);
    DrawsThen(env, s, s1, FinishCalibration(env, s1, d), m);
  }

  lemma IdleMoves(env: Env, s: Scan, e: Event, r: Scan, m: nat)
    requires Idle(s, r) && SortOf(e) == Other
    ensures Moves(env, s, e, r, m)
  {
    hide Flows;
    IdleFlows(env, s, r, m);
    FlowMoves(env, s, e, r, m);
  }

  /** Whatever happens, it moves what is on its way as it should. */
  lemma StepMoves(env: Env, s: Scan, e: Event, m: nat)
    requires Enabled(env, s, e)
    ensures Moves(env, s, e, Next(env, s, e), m)
  {
    hide Moves, Blocked, Swept, Segments, CollectProbe, HandleReal, EnqueueSeed, ApplyPin, SweepOut, Dispatch, ScanModel.Discard,
         ProbesWait, Timed, ProbeOut, Sweep, FetchOut, EnqueueHarvestFetch, HandleHarvest, Flows, Returns, Idle;
    var r := Next(env, s, e);
    match e
    case ProbeSent(d) => ProbeOutMoves(env, s, d, m);
    case FetchSent => FetchMoves(env, s, m);
    case Requested(c) => DispatchMoves(env, s, c, m);
    case Skipped(c) => DispatchMoves(env, s, c, m);
    case ProbeBackAt(d) => CollectMoves(env, s, d, m);
    case FetchBack(url, body) => FetchBackMoves(env, s, url, body, m);
    case ResultBack(c, response, now) => RealReturns(env, s, c, response, now, m); ReturnMoves(env, s, c, response, now, r, m);
    case Seeded(sd, picks) => SeedFlows(env, s, sd, picks, m); FlowMoves(env, s, e, r, m);
    case FetchAsked(url) => AskMoves(env, s, url, m);
    case ProducerDone => EndMoves(env, s, m);
    case Weighted(pattern, kind, factor) => SweepIdle(env, s, pattern, kind, FactorOf(factor)); IdleMoves(env, s, e, r, m);
    case Pinned(pattern, picks) => PinFlows(env, s, pattern, picks, m); FlowMoves(env, s, e, r, m);
    case Barred(pattern, removed) => BarIdle(s, pattern, removed); IdleMoves(env, s, e, r, m);
  }

  lemma BarIdle(s: Scan, pattern: string, removed: seq<Candidate>)
    requires forall i :: 0 <= i < |removed| ==> removed[i].parentDir in s.book.dirs
    ensures Idle(s, Bar(s, pattern, removed))
  {
    hide SweepOut;
    SweepOutIdle(WithOverride(s, pattern, Exclude, 1.0), removed);
  }

  // ---- What a run adds up to ------------------------------------------------------------

  /** The counts of a run against what is on its way at its end. */
  ghost predicate Added(env: Env, s0: Scan, events: seq<Event>, s: Scan, m: nat)
  {
    && |s.book.flying| + Tally(events, AResult) == |s0.book.flying| + Tally(events, ARequest)
    && |s.book.probes| + Tally(events, AProbeBack) == |s0.book.probes| + Tally(events, AProbe)
    && |s.harvestFlying| + Tally(events, AFetchBack) == |s0.harvestFlying| + Tally(events, AFetch)
    && |s.harvestQueue| + RootDue(env, s) + Tally(events, AFetch) <= |s0.harvestQueue| + RootDue(env, s0) + Tally(events, AnAsk)
    && s.producers + Tally(events, AnEnd) <= s0.producers + Tally(events, AFetchBack) + Tally(events, AResult)
  }

  /** Each directory was sent at most m probes by now, the root twice as many once refined. */
  ghost predicate Probed(env: Env, events: seq<Event>, s: Scan, m: nat)
  {
    && Width(env, s, m)
    && forall d :: ProbedAt(env, events, s, m, d)
  }

  lemma {:induction false} RunAdds(env: Env, states: seq<Scan>, events: seq<Event>, m: nat)
    requires IsRun(env, states, events) && Probed(env, [], states[0], m)
    ensures Added(env, states[0], events, states[|events|], m) && Probed(env, events, states[|events|], m)
  {
    hide Enabled, Next, Probed, Moves;
    if events != [] {
      var n := |events| - 1;
      PrefixRun(env, states, events);
      RunAdds(env, states[..n + 1], events[..n], m);
      StepMoves(env, states[n], events[n], m);
      if events[n].ProbeSent? { ProbedDir(env, states[n], events[n].dir); }
      StepAdds(env, states[0], events, states[n], states[n + 1], m);
      StepProbed(env, events, states[n], states[n + 1], m);
    }
  }

  lemma StepAdds(env: Env, s0: Scan, events: seq<Event>, s: Scan, r: Scan, m: nat)
    requires events != [] && Added(env, s0, events[..|events| - 1], s, m) && Moves(env, s, events[|events| - 1], r, m)
    ensures Added(env, s0, events, r, m)
  {
    hide ProbeMoves, RootDue;
  }

  lemma ProbedDir(env: Env, s: Scan, d: string)
    requires Enabled(env, s, ProbeSent(d))
    ensures d in s.book.dirs
  {
  }

  lemma StepProbed(env: Env, events: seq<Event>, s: Scan, r: Scan, m: nat)
    requires events != [] && Probed(env, events[..|events| - 1], s, m) && Moves(env, s, events[|events| - 1], r, m)
    requires events[|events| - 1].ProbeSent? ==> events[|events| - 1].dir in s.book.dirs
    ensures Probed(env, events, r, m)
  {
    hide RootDue, Width, ProbesTo, SortOf;
    forall d ensures ProbedAt(env, events, r, m, d) {
      ProbeStep(env, events, s, r, m, d);
    }
  }

  ghost predicate ProbedAt(env: Env, events: seq<Event>, s: Scan, m: nat, d: string)
  {
    if d !in s.book.dirs then ProbesTo(events)[d] == 0
    else ProbesTo(events)[d] + |s.book.dirs[d].probeQueue| <= m + (if d == "" && s.rootRefined then m else 0)
  }

  lemma ProbeStep(env: Env, events: seq<Event>, s: Scan, r: Scan, m: nat, d: string)
    requires events != [] && ProbedAt(env, events[..|events| - 1], s, m, d) && ProbeMoves(env, s, events[|events| - 1], r, m)
    requires Width(env, s, m) && (events[|events| - 1].ProbeSent? ==> events[|events| - 1].dir in s.book.dirs)
    ensures ProbedAt(env, events, r, m, d)
  {
    hide Width;
    var e := events[|events| - 1];
    assert ProbesTo(events)[d] == ProbesTo(events[..|events| - 1])[d] + if e == ProbeSent(d) then 1 else 0;
  }

  /** A multiset whose elements come from so many and repeat so often is so large at most. */
  lemma {:induction false} SizeBound(p: multiset<string>, ds: set<string>, m: nat)
    requires forall d :: d in p ==> d in ds && p[d] <= m
    ensures |p| <= |ds| * m
    decreases ds
  {
    if ds == {} {
      forall d ensures d !in p {
      }
      assert p == multiset{};
    } else {
      var d :| d in ds;
      var rest := p[d := 0];
      SizeBound(rest, ds - {d}, m);
      assert |p| == |rest| + p[d];
      assert |ds| * m == |ds - {d}| * m + m;
    }
  }

  lemma ProbesBounded(env: Env, events: seq<Event>, s: Scan, m: nat)
    requires Probed(env, events, s, m)
    ensures Tally(events, AProbe) <= |s.book.dirs| * (2 * m)
  {
    hide Width, Tally;
    forall d | d in ProbesTo(events) ensures d in s.book.dirs.Keys && ProbesTo(events)[d] <= 2 * m {
      assert ProbedAt(env, events, s, m, d);
    }
    SizeBound(ProbesTo(events), s.book.dirs.Keys, 2 * m);
    ProbeTally(events);
    assert |s.book.dirs.Keys| == |s.book.dirs|;
  }

  /** The width of a scan that starts with these extensions. */
  function WidthOf(env: Env, exts: seq<string>): nat
  {
    var cal := env.calibrate("", false);
    N_PROBES * if |exts| >= |cal.exts| then |exts| else |cal.exts|
  }

  lemma StartProbed(env: Env, profile: nat, exts: seq<string>, producers: nat, last: real)
    ensures var s := StartCalibration(env, Blank(env, profile, exts, producers, last), "", 0);
            && Probed(env, [], s, WidthOf(env, exts)) && s.producers == producers
            && s.book.flying == multiset{} && s.book.probes == multiset{} && s.harvestFlying == multiset{}
            && |s.harvestQueue| + RootDue(env, s) <= 1
  {
    hide StartCalibration;
    var b := Blank(env, profile, exts, producers, last);
    StartFlows(env, b, "", 0, WidthOf(env, exts));
  }

  /** The most steps a run can take: K different hit contents, S seeds applied, F pages asked for, E
      extensions at most, and P producers at the start. */
  ghost function StepBound(env: Env, contents: nat, seeds: nat, asked: nat, width: nat, producers: nat): int
  {
    4 * width * DirBound(env, contents, seeds) + 3 * (asked + 1) + 3 * PushBound(env, contents, seeds) + producers
  }

  /** The scan's termination measure: whatever users and producers send and responses say, the loop's own
      steps in a run never exceed this bound. So with bounded content and input every run comes to rest. */
  lemma StepsBounded(env: Env, profile: nat, exts: seq<string>, producers: nat, last: real, states: seq<Scan>, events: seq<Event>)
    requires IsRun(env, states, events) && Configured(env)
    requires states[0] == StartCalibration(env, Blank(env, profile, exts, producers, last), "", 0)
    ensures Steps(events) <= StepBound(env, |states[|events|].seen|, SeedsIn(env, events), Tally(events, AnAsk), WidthOf(env, exts), producers)
  {
    hide StepAt, StartCalibration, Probed, DirBound, PushBound, WidthOf, RootDue, Tally, Configured;
    var m, s := WidthOf(env, exts), states[|events|];
    var k, seeds := |s.seen|, SeedsIn(env, events);
    assert Fresh(env, states[0]);
    RequestsBounded(env, states, events);
    StartProbed(env, profile, exts, producers, last);
    RunAdds(env, states, events, m);
    ProbesBounded(env, events, s, m);
    StepsAre(events);
    RequestTally(events);
    DiscardTally(events);
    WidthTimes(|s.book.dirs|, DirBound(env, k, seeds), m);
  }

  lemma WidthTimes(n: nat, b: int, m: nat)
    requires n <= b
    ensures n * (2 * m) * 2 <= 4 * m * b
  {
    assert 4 * m * b - n * (2 * m) * 2 == 4 * m * (b - n);
  }

  // ---- Pages ----------------------------------------------------------------------------

  /** Every page queued is in scope, has been visited and is queued once, and none of these is queued. */
  ghost predicate Fetching(env: Env, s: Scan, old_: set<string>)
  {
    && old_ <= s.visited && (forall u :: u in s.harvestQueue ==> u in s.visited && u !in old_ && env.inScope(u))
    && forall i, j :: 0 <= i < j < |s.harvestQueue| ==> s.harvestQueue[i] != s.harvestQueue[j]
  }

  lemma FlowFetches(env: Env, s: Scan, r: Scan, old_: set<string>)
    requires Fetching(env, s, old_) && Pages(env, s, r)
    ensures Fetching(env, r, old_)
  {
    hide RootPage;
  }

  lemma StepFetches(env: Env, s: Scan, e: Event, old_: set<string>)
    requires Enabled(env, s, e) && Fetching(env, s, old_)
    ensures Fetching(env, Next(env, s, e), old_)
  {
    hide Blocked, Swept, Segments, CollectProbe, HandleReal, EnqueueSeed, ApplyPin, SweepOut, ProbesWait, Timed, Sweep, Draws, Pages,
         Fetching, FirstToProbe, Dispatchable;
    var r := Next(env, s, e);
    match e
    case ProbeBackAt(d) =>
      CollectFlows(env, s, d, 0);
      FlowFetches(env, s, r, old_);
    case ResultBack(c, response, now) =>
      RealReturns(env, s, c, response, now, 0);
      ReturnDraws(env, s, c, r, 0);
      FlowFetches(env, s, r, old_);
    case Seeded(sd, picks) => SeedFlows(env, s, sd, picks, 0); FlowFetches(env, s, r, old_);
    case Pinned(pattern, picks) => PinFlows(env, s, pattern, picks, 0); FlowFetches(env, s, r, old_);
    case Weighted(pattern, kind, factor) => SweepIdle(env, s, pattern, kind, FactorOf(factor)); SameFetches(env, s, r, old_);
    case Barred(pattern, removed) => BarIdle(s, pattern, removed); SameFetches(env, s, r, old_);
    case FetchAsked(url) => AskedFetches(env, s, url, old_);
    case FetchSent => SentFetches(env, s, old_);
    case _ => SameFetches(env, s, r, old_);
  }

  lemma SameFetches(env: Env, s: Scan, r: Scan, old_: set<string>)
    requires Fetching(env, s, old_) && r.harvestQueue == s.harvestQueue && r.visited == s.visited
    ensures Fetching(env, r, old_)
  {
  }

  lemma AskedFetches(env: Env, s: Scan, url: string, old_: set<string>)
    requires Fetching(env, s, old_)
    ensures Fetching(env, EnqueueHarvestFetch(env, s, url), old_)
  {
  }

  lemma SentFetches(env: Env, s: Scan, old_: set<string>)
    requires Fetching(env, s, old_) && s.harvestQueue != []
    ensures Fetching(env, FetchOut(s), old_)
  {
  }

  lemma {:induction false} RunFetches(env: Env, states: seq<Scan>, events: seq<Event>, i: nat, old_: set<string>)
    requires IsRun(env, states, events) && Fetching(env, states[0], old_) && i < |states|
    ensures Fetching(env, states[i], old_)
  {
    hide Enabled, Next, Fetching;
    if i > 0 {
      RunFetches(env, states, events, i - 1, old_);
      assert StepAt(env, states, events, i - 1);
      StepFetches(env, states[i - 1], events[i - 1], old_);
    }
  }

  lemma FreshFetches(env: Env, s: Scan)
    requires Fresh(env, s)
    ensures Fetching(env, s, {})
  {
    hide StartCalibration, Draws;
    var profile: nat, exts, producers: nat, last: real :|
      s == StartCalibration(env, Blank(env, profile, exts, producers, last), "", 0);
    var b := Blank(env, profile, exts, producers, last);
    StartFlows(env, b, "", 0, 0);
    FlowFetches(env, b, s, {});
  }

  /** The pages queued to fetch have all been marked visited and are in scope, in every state of a fresh run. */
  lemma QueuedIsVisited(env: Env, states: seq<Scan>, events: seq<Event>, i: nat)
    requires IsRun(env, states, events) && Fresh(env, states[0]) && i < |states|
    ensures forall u :: u in states[i].harvestQueue ==> u in states[i].visited && env.inScope(u)
  {
    hide StepAt, Fresh;
    FreshFetches(env, states[0]);
    RunFetches(env, states, events, i, {});
  }

  lemma SuffixRun(env: Env, states: seq<Scan>, events: seq<Event>, n: nat)
    requires IsRun(env, states, events) && n <= |events|
    ensures IsRun(env, states[n..], events[n..])
  {
    hide Enabled, Next;
    var later, rest := states[n..], events[n..];
    forall i | 0 <= i < |rest| ensures StepAt(env, later, rest, i) { assert StepAt(env, states, events, n + i); }
  }

  lemma SentIsOld(env: Env, s: Scan)
    requires Fetching(env, s, {}) && s.harvestQueue != []
    ensures Fetching(env, FetchOut(s), {s.harvestQueue[0]})
  {
  }

  lemma QueueHasPage(env: Env, states: seq<Scan>, events: seq<Event>, i: nat)
    requires IsRun(env, states, events) && i < |events| && events[i].FetchSent?
    ensures states[i].harvestQueue != [] && states[i + 1] == FetchOut(states[i])
  {
    hide ProbesWait;
    assert StepAt(env, states, events, i);
  }

  /** No page is fetched twice in a run. */
  lemma FetchedOnce(env: Env, states: seq<Scan>, events: seq<Event>, i: nat, j: nat)
    requires IsRun(env, states, events) && Fresh(env, states[0]) && i < j < |events| && events[i].FetchSent? && events[j].FetchSent?
    ensures states[i].harvestQueue != [] && states[j].harvestQueue != [] && states[i].harvestQueue[0] != states[j].harvestQueue[0]
  {
    hide StepAt, Fresh, Fetching;
    FreshFetches(env, states[0]);
    RunFetches(env, states, events, i, {});
    QueueHasPage(env, states, events, i);
    QueueHasPage(env, states, events, j);
    var u := states[i].harvestQueue[0];
    SentIsOld(env, states[i]);
    SuffixRun(env, states, events, i + 1);
    RunFetches(env, states[i + 1..], events[i + 1..], j - i - 1, {u});
    NotQueued(env, states[j], u);
  }

  lemma NotQueued(env: Env, s: Scan, u: string)
    requires Fetching(env, s, {u})
    ensures u !in s.harvestQueue
  {
  }
}
