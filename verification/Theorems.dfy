/** What holds over whole runs of the scan. */
module Theorems {
  import opened ScanTypes
  import opened Text
  import opened Provenance
  import opened Paths
  import opened Counting
  import opened Accounting
  import opened Invariants
  import opened Tallies
  import opened Ledgers
  import opened Pushing
  import opened ScanModel
  import opened Soundness
  import opened Stepping
  import opened History
  import opened Seeds
  import opened Runs

  /** Every state of a run that starts sound is sound, and the bounds never tighten. */
  lemma {:induction false} RunSound(env: Env, states: seq<Scan>, events: seq<Event>, i: nat)
    requires IsRun(env, states, events) && Sound(env, states[0]) && i < |states|
    ensures Sound(env, states[i]) && Within(env, states[0], states[i], 0, 0)
  {
    hide Sound, Room, Places, Enabled, Next;
    if i > 0 {
      RunSound(env, states, events, i - 1);
      assert StepAt(env, states, events, i - 1);
      StepSound(env, states[i - 1], events[i - 1]);
    }
  }

  // ---- What a step adds to the history --------------------------------------------------

  function Requests(e: Event): multiset<Key>
  {
    if e.Requested? then multiset{KeyOf(e.cand)} else multiset{}
  }

  function AllKeys(cs: seq<Candidate>): multiset<Key>
  {
    if cs == [] then multiset{} else AllKeys(cs[..|cs| - 1]) + multiset{KeyOf(cs[|cs| - 1])}
  }

  function Drops(e: Event): multiset<Key>
  {
    if e.Skipped? then multiset{KeyOf(e.cand)} else if e.Barred? then AllKeys(e.removed) else multiset{}
  }

  /** recordDispatch: the directory last sent to, and how often in a row. */
  function Turn(turn: (string, nat), e: Event): (string, nat)
  {
    if !e.Requested? then turn else if e.cand.parentDir == turn.0 then (turn.0, turn.1 + 1) else (e.cand.parentDir, 1)
  }

  ghost predicate SameTurn(s: Scan, r: Scan)
  {
    r.lastDir == s.lastDir && r.streak == s.streak
  }

  lemma {:induction false} SweepOutHistory(s: Scan, removed: seq<Candidate>)
    requires forall i :: 0 <= i < |removed| ==> removed[i].parentDir in s.book.dirs
    ensures var r := SweepOut(s, removed);
            && r.book.log == s.book.log.(dropped := s.book.log.dropped + AllKeys(removed))
            && SameClock(s, r) && SameTurn(s, r) && r.seen == s.seen && r.findings == s.findings
  {
    hide Accounted, KeyOf;
    if removed != [] {
      SweepOutHistory(s, removed[..|removed| - 1]);
    }
  }

  lemma SeedHistory(env: Env, s: Scan, sd: Seed, picks: seq<Candidate>)
    requires |picks| == |Segments(sd.path)|
    ensures var r := EnqueueSeed(env, s, sd, picks); var n := |Segments(sd.path)|;
            && r.book.log.sent == s.book.log.sent && r.book.log.dropped == s.book.log.dropped
            && r.book.log.lost == s.book.log.lost && r.book.log.novel == s.book.log.novel
            && r.seen == s.seen && r.findings == s.findings && SameClock(s, r) && SameTurn(s, r) && s.book.dirs.Keys <= r.book.dirs.Keys
            && var k := if Admitted(env, sd) then 1 else 0;
            && r.book.log.seeds == s.book.log.seeds + k
            && r.book.log.chained == s.book.log.chained + k * (n - 1) && r.book.log.staged == s.book.log.staged + k * n
  {
    hide StageDirCandidate, EnsureDirChain, Segments, DirOf, Admitted;
  }

  lemma LearnHistory(env: Env, s: Scan, c: Candidate, r: Response, now: real)
    requires r.Answered?
    ensures var t := HandleHit(env, s, c, r, now);
            && t.book.log == s.book.log.(novel := t.book.log.novel, pushed := t.book.log.pushed, openedWith := t.book.log.openedWith)
            && s.book.dirs.Keys <= t.book.dirs.Keys && SameTurn(s, t)
  {
    hide LearnFromHit, EnqueueChild, WithinLimits, Aliased;
  }

  lemma ConcludedHistory(env: Env, s: Scan, c: Candidate, r: Response)
    requires r.Answered?
    ensures SameTurn(s, Concluded(env, s, c, r))
    ensures Concluded(env, s, c, r).book.log == s.book.log && s.book.dirs.Keys <= Concluded(env, s, c, r).book.dirs.Keys
  {
    hide Url, Settled, Trapped, HarvestResponse;
    SettledLog(s, c, r.wildcard);
    HarvestAlike(env, s, Url(env, c.parentDir, c.path), r.body);
    if c.parentDir in s.book.dirs {
      var s1 := s.(book := Trapped(s.book, c.parentDir, false, r.wildcard));
      HarvestAlike(env, s1, Url(env, c.parentDir, c.path), r.body);
    }
  }

  lemma SettledLog(s: Scan, c: Candidate, wildcard: bool)
    ensures c.parentDir in s.book.dirs ==>
              var b := Trapped(s.book, c.parentDir, false, wildcard);
              && b.log == s.book.log && b.dirs.Keys == s.book.dirs.Keys
              && Settled(b, c).log == s.book.log && Settled(b, c).dirs.Keys == s.book.dirs.Keys
  {
    hide Accounted;
  }

  lemma RealHistory(env: Env, s: Scan, c: Candidate, r: Response, now: real)
    requires c.parentDir in s.book.dirs
    ensures var t := HandleReal(env, s, c, r, now);
            && t.book.log == s.book.log.(novel := t.book.log.novel, pushed := t.book.log.pushed, openedWith := t.book.log.openedWith)
            && s.book.dirs.Keys <= t.book.dirs.Keys && SameTurn(s, t)
  {
    hide HandleHit, Concluded, Accounted;
    if r.Answered? {
      var s1 := s.(book := Trapped(s.book, c.parentDir, r.tarpit, false));
      LearnHistory(env, s1, c, r, now);
      ConcludedHistory(env, if r.hit then HandleHit(env, s1, c, r, now) else s1, c, r);
    }
  }

  /** The seeds' share of directories and pushes, with D bounding the admitted depth. */
  ghost predicate SeedsOk(env: Env, s: Scan)
  {
    var deep := Deepest(env);
    s.book.log.chained <= s.book.log.seeds * (deep - 1) && s.book.log.staged <= s.book.log.seeds * deep
  }

  function Deepest(env: Env): (d: int)
    ensures d >= env.maxDepth && d >= env.crawlDepth && d >= 1
  {
    var d := if env.maxDepth > env.crawlDepth then env.maxDepth else env.crawlDepth;
    if d < 1 then 1 else d
  }

  lemma AdmittedShort(env: Env, sd: Seed)
    requires Admitted(env, sd)
    ensures |Segments(sd.path)| <= Deepest(env)
  {
  }

  lemma ShareGrows(seeds: int, deep: int)
    ensures (seeds + 1) * deep == seeds * deep + deep
    ensures (seeds + 1) * (deep - 1) == seeds * (deep - 1) + (deep - 1)
  {
  }

  lemma SeedsStayOk(env: Env, s: Scan, sd: Seed, picks: seq<Candidate>)
    requires SeedsOk(env, s) && |picks| == |Segments(sd.path)|
    ensures SeedsOk(env, EnqueueSeed(env, s, sd, picks))
  {
    hide EnqueueSeed, Segments, Admitted, Deepest;
    SeedHistory(env, s, sd, picks);
    if Admitted(env, sd) {
      AdmittedShort(env, sd);
      ShareGrows(s.book.log.seeds, Deepest(env));
    }
  }

  /** Nothing sent, dropped or lost, no directory gone, and the turn where it was. */
  ghost predicate SameLedger(s: Scan, r: Scan)
  {
    && r.book.log.sent == s.book.log.sent && r.book.log.dropped == s.book.log.dropped && r.book.log.lost == s.book.log.lost
    && s.book.dirs.Keys <= r.book.dirs.Keys && SameTurn(s, r)
  }

  lemma QuietLedgers(env: Env, s: Scan, e: Event)
    requires Enabled(env, s, e)
    requires e.ProbeSent? || e.FetchSent? || e.FetchBack? || e.FetchAsked? || e.ProducerDone? || e.ProbeBackAt? || e.Weighted?
    ensures SameLedger(s, Next(env, s, e))
  {
    hide FinishCalibration, HandleReal, EnqueueSeed, ApplyPin, Bar, Dispatch, ScanModel.Discard, Multiplier;
  }

  lemma DispatchLedger(s: Scan, c: Candidate)
    requires c.parentDir in s.book.dirs
    ensures Dispatch(s, c).book.log == s.book.log.(sent := s.book.log.sent + multiset{KeyOf(c)})
    ensures Discard(s, c).book.log == s.book.log.(dropped := s.book.log.dropped + multiset{KeyOf(c)})
    ensures Dispatch(s, c).book.dirs.Keys == s.book.dirs.Keys && Discard(s, c).book.dirs.Keys == s.book.dirs.Keys
    ensures (Dispatch(s, c).lastDir, Dispatch(s, c).streak) == Turn((s.lastDir, s.streak), Requested(c)) && SameTurn(s, Discard(s, c))
  {
    hide Accounted;
  }

  /** From s to r, e sent what it requests and dropped what it discards; nothing was lost. */
  ghost predicate LedgerStep(s: Scan, e: Event, r: Scan)
  {
    && r.book.log.sent == s.book.log.sent + Requests(e) && r.book.log.dropped == s.book.log.dropped + Drops(e)
    && r.book.log.lost == s.book.log.lost && s.book.dirs.Keys <= r.book.dirs.Keys
    && (r.lastDir, r.streak) == Turn((s.lastDir, s.streak), e)
  }

  lemma DispatchSteps(env: Env, s: Scan, c: Candidate)
    requires c.parentDir in s.book.dirs
    ensures LedgerStep(s, Requested(c), Dispatch(s, c)) && LedgerStep(s, Skipped(c), Discard(s, c))
  {
    hide Dispatch, ScanModel.Discard;
    DispatchLedger(s, c);
  }

  lemma RealSteps(env: Env, s: Scan, c: Candidate, response: Response, now: real)
    requires c.parentDir in s.book.dirs
    ensures LedgerStep(s, ResultBack(c, response, now), HandleReal(env, s, c, response, now))
  {
    hide HandleReal;
    RealHistory(env, s, c, response, now);
  }

  lemma SeedSteps(env: Env, s: Scan, sd: Seed, pattern: string, picks: seq<Candidate>)
    ensures |picks| == |Segments(sd.path)| ==> LedgerStep(s, Seeded(sd, picks), EnqueueSeed(env, s, sd, picks))
    ensures |picks| == |Segments(pattern)| ==> LedgerStep(s, Pinned(pattern, picks), ApplyPin(env, s, pattern, picks))
  {
    hide EnqueueSeed, ApplyPin, Segments, SeedsOk;
    if |picks| == |Segments(sd.path)| { SeedHistory(env, s, sd, picks); }
    if |picks| == |Segments(pattern)| { PinHistory(env, s, pattern, picks); }
  }

  lemma BarSteps(env: Env, s: Scan, pattern: string, removed: seq<Candidate>)
    requires forall i :: 0 <= i < |removed| ==> removed[i].parentDir in s.book.dirs
    ensures LedgerStep(s, Barred(pattern, removed), Bar(s, pattern, removed))
  {
    hide DiscardedAll;
    SweepOutHistory(WithOverride(s, pattern, Exclude, 1.0), removed);
  }

  /** A step sends what it requests, drops what it discards, and loses nothing. */
  lemma StepLedger(env: Env, s: Scan, e: Event)
    requires Enabled(env, s, e)
    ensures LedgerStep(s, e, Next(env, s, e))
  {
    hide Blocked, Swept, FirstToProbe, Segments, CollectProbe, HandleReal, EnqueueSeed, ApplyPin, Bar, ProbesWait, Sweep,
         Dispatch, ScanModel.Discard, LedgerStep, FrontierTurn;
    match e
    case Requested(c) => DispatchSteps(env, s, c);
    case Skipped(c) => DispatchSteps(env, s, c);
    case ResultBack(c, response, now) => RealSteps(env, s, c, response, now);
    case Seeded(sd, picks) => SeedSteps(env, s, sd, "", picks);
    case Pinned(pattern, picks) => SeedSteps(env, s, Seed("", false, 0.0, ""), pattern, picks);
    case Barred(pattern, removed) => BarSteps(env, s, pattern, removed);
    case _ => QuietLedgers(env, s, e); QuietSteps(s, e, Next(env, s, e));
  }

  lemma QuietSteps(s: Scan, e: Event, r: Scan)
    requires SameLedger(s, r) && !e.Requested? && !e.Skipped? && !e.Barred?
    ensures LedgerStep(s, e, r)
  {
  }

  /** A step keeps the seeds within their share. */
  lemma StepSeeds(env: Env, s: Scan, e: Event)
    requires Enabled(env, s, e) && SeedsOk(env, s)
    ensures SeedsOk(env, Next(env, s, e))
  {
    hide Blocked, Swept, FirstToProbe, Segments, CollectProbe, HandleReal, EnqueueSeed, SweepOut, ApplyPin, ProbesWait, Sweep, SeedsOk;
    var r := Next(env, s, e);
    match e
    case ResultBack(c, response, now) => RealHistory(env, s, c, response, now); SeedCounts(env, s, r);
    case Seeded(sd, picks) => SeedsStayOk(env, s, sd, picks);
    case Pinned(pattern, picks) => PinHistory(env, s, pattern, picks);
    case Barred(pattern, removed) => SweepOutHistory(WithOverride(s, pattern, Exclude, 1.0), removed); SeedCounts(env, s, r);
    case _ => SeedCounts(env, s, r);
  }

  /** The seed an event applies: an injected one, or the one a literal pin stands for. */
  function SeedOf(e: Event): Option<Seed>
  {
    match e
    case Seeded(sd, picks) => Some(sd)
    case Pinned(pattern, picks) => if IsGlob(pattern) then None else Some(Seed(pattern, false, 1.0, "user:pin"))
    case _ => None
  }

  /** How many seeds an event applies: one, if it applies a seed that is admitted. */
  function SeedsAt(env: Env, e: Event): nat
  {
    if SeedOf(e).Some? && Admitted(env, SeedOf(e).value) then 1 else 0
  }

  /** How many seeds a run applies. */
  function SeedsIn(env: Env, events: seq<Event>): nat
  {
    if events == [] then 0 else SeedsIn(env, events[..|events| - 1]) + SeedsAt(env, events[|events| - 1])
  }

  lemma PinCount(env: Env, s: Scan, pattern: string, picks: seq<Candidate>)
    requires |picks| == |Segments(pattern)|
    ensures ApplyPin(env, s, pattern, picks).book.log.seeds == s.book.log.seeds + SeedsAt(env, Pinned(pattern, picks))
  {
    hide EnqueueSeed, Segments, IsGlob, Sweep, Admitted;
    var s1 := Sweep(env, WithOverride(s, pattern, Boost, PIN_SCORE));
    if !IsGlob(pattern) { SeedHistory(env, s1, Seed(pattern, false, 1.0, "user:pin"), picks); }
  }

  /** The recorded number of seeds grows by exactly the seeds an event applies. */
  lemma StepSeedCount(env: Env, s: Scan, e: Event)
    requires Enabled(env, s, e)
    ensures Next(env, s, e).book.log.seeds == s.book.log.seeds + SeedsAt(env, e)
  {
    hide Blocked, Swept, FirstToProbe, Segments, CollectProbe, HandleReal, EnqueueSeed, SweepOut, ApplyPin, ProbesWait, Sweep, Admitted,
         Timed, Throttles, Dispatch, ScanModel.Discard, EnqueueHarvestFetch, HandleHarvest;
    match e
    case ResultBack(c, response, now) => RealHistory(env, s, c, response, now);
    case Seeded(sd, picks) => SeedHistory(env, s, sd, picks);
    case Pinned(pattern, picks) => PinCount(env, s, pattern, picks);
    case Barred(pattern, removed) => SweepOutHistory(WithOverride(s, pattern, Exclude, 1.0), removed);
    case Requested(c) => DispatchCount(s, c);
    case Skipped(c) => DispatchCount(s, c);
    case FetchSent => PageCount(env, s, "", NoBody);
    case FetchAsked(url) => PageCount(env, s, url, NoBody);
    case FetchBack(url, body) => PageCount(env, s, url, body);
    case _ =>
  }

  lemma PageCount(env: Env, s: Scan, url: string, body: Body)
    ensures EnqueueHarvestFetch(env, s, url).book == s.book && HandleHarvest(s, url, body).book == s.book
    ensures s.harvestQueue != [] ==> FetchOut(s).book == s.book
  {
    hide SameHistory, SameClock;
  }

  lemma DispatchCount(s: Scan, c: Candidate)
    requires c.parentDir in s.book.dirs
    ensures Dispatch(s, c).book.log.seeds == s.book.log.seeds && ScanModel.Discard(s, c).book.log.seeds == s.book.log.seeds
  {
    hide Accounted, KeyOf;
  }

  lemma SeedCounts(env: Env, s: Scan, r: Scan)
    requires r.book.log.seeds == s.book.log.seeds && r.book.log.chained == s.book.log.chained && r.book.log.staged == s.book.log.staged
    ensures SeedsOk(env, r) == SeedsOk(env, s)
  {
  }

  lemma PinHistory(env: Env, s: Scan, pattern: string, picks: seq<Candidate>)
    requires |picks| == |Segments(pattern)|
    ensures var r := ApplyPin(env, s, pattern, picks);
            && r.book.log.sent == s.book.log.sent && r.book.log.dropped == s.book.log.dropped
            && r.book.log.lost == s.book.log.lost && r.book.log.novel == s.book.log.novel
            && r.seen == s.seen && r.findings == s.findings && SameClock(s, r)
            && s.book.dirs.Keys <= r.book.dirs.Keys && SameTurn(s, r) && (SeedsOk(env, s) ==> SeedsOk(env, r))
  {
    hide EnqueueSeed, Segments, IsGlob, SeedsOk, Sweep;
    var s1 := Sweep(env, WithOverride(s, pattern, Boost, PIN_SCORE));
    SeedCounts(env, s, s1);
    if !IsGlob(pattern) {
      SeedHistory(env, s1, Seed(pattern, false, 1.0, "user:pin"), picks);
      if SeedsOk(env, s1) {
        SeedsStayOk(env, s1, Seed(pattern, false, 1.0, "user:pin"), picks);
      }
    }
  }

  lemma StepNovel(env: Env, s: Scan, e: Event)
    requires Novel(s) && Enabled(env, s, e)
    ensures Novel(Next(env, s, e))
  {
    hide Recorded, Blocked, Swept, FirstToProbe, Segments, CollectProbe, HandleReal, EnqueueSeed, SweepOut, ApplyPin, ProbesWait, Sweep, SeedsOk;
    match e
    case ResultBack(c, response, now) => RealNovel(env, s, c, response, now);
    case Seeded(sd, picks) => SeedHistory(env, s, sd, picks);
    case Pinned(pattern, picks) => PinHistory(env, s, pattern, picks);
    case Barred(pattern, removed) => SweepOutHistory(WithOverride(s, pattern, Exclude, 1.0), removed);
    case _ =>
  }

  lemma StepThrottled(env: Env, s: Scan, e: Event)
    requires Throttled(env, s) && Enabled(env, s, e) && Configured(env)
    ensures Throttled(env, Next(env, s, e))
  {
    hide Throttled, Blocked, Swept, FirstToProbe, Segments, CollectProbe, HandleReal, EnqueueSeed, SweepOut, ApplyPin, ProbesWait, Sweep, SeedsOk;
    match e
    case ResultBack(c, response, now) => RealThrottled(env, s, c, response, now);
    case Seeded(sd, picks) => SeedHistory(env, s, sd, picks); ClockOnly(env, s, Next(env, s, e));
    case Pinned(pattern, picks) => PinHistory(env, s, pattern, picks); ClockOnly(env, s, Next(env, s, e));
    case Barred(pattern, removed) =>
      SweepOutHistory(WithOverride(s, pattern, Exclude, 1.0), removed);
      ClockOnly(env, s, Next(env, s, e));
    case _ => ClockOnly(env, s, Next(env, s, e));
  }

  // ---- The request bound ----------------------------------------------------------------

  ghost function RequestCount(events: seq<Event>): multiset<Key>
  {
    if events == [] then multiset{}
    else RequestCount(events[..|events| - 1]) + Requests(events[|events| - 1])
  }

  ghost function DropCount(events: seq<Event>): multiset<Key>
  {
    if events == [] then multiset{}
    else DropCount(events[..|events| - 1]) + Drops(events[|events| - 1])
  }

  lemma PrefixRun(env: Env, states: seq<Scan>, events: seq<Event>)
    requires IsRun(env, states, events) && events != []
    ensures var n := |events| - 1; IsRun(env, states[..n + 1], events[..n]) && StepAt(env, states, events, n)
  {
    var n := |events| - 1;
    var earlier, first := states[..n + 1], events[..n];
    hide Enabled, Next;
    forall i | 0 <= i < n ensures StepAt(env, earlier, first, i) {
      assert StepAt(env, states, events, i);
    }
  }

  /** The books' history is the run's own: what was sent, what was dropped, and how many seeds were applied. */
  lemma {:induction false} RunHistory(env: Env, states: seq<Scan>, events: seq<Event>)
    requires IsRun(env, states, events)
    ensures var s0, s := states[0], states[|events|];
            && s.book.log.sent == s0.book.log.sent + RequestCount(events)
            && s.book.log.dropped == s0.book.log.dropped + DropCount(events) && s.book.log.lost == s0.book.log.lost
            && s0.book.dirs.Keys <= s.book.dirs.Keys && (SeedsOk(env, s0) ==> SeedsOk(env, s))
            && s.book.log.seeds == s0.book.log.seeds + SeedsIn(env, events)
            && (Novel(s0) ==> Novel(s))
            && (Configured(env) && Throttled(env, s0) ==> Throttled(env, s))
  {
    hide Enabled, Next, SeedsOk, Novel, Throttled, SeedsAt;
    if events != [] {
      var n := |events| - 1;
      PrefixRun(env, states, events);
      RunHistory(env, states[..n + 1], events[..n]);
      var s, e := states[n], events[n];
      StepLedger(env, s, e);
      StepSeedCount(env, s, e);
      if SeedsOk(env, s) { StepSeeds(env, s, e); }
      if Novel(s) { StepNovel(env, s, e); }
      if Configured(env) && Throttled(env, s) { StepThrottled(env, s, e); }
    }
  }

  lemma FreshHistory(env: Env, s: Scan)
    requires Fresh(env, s) && Configured(env)
    ensures s.book.log.sent == multiset{} && s.book.log.dropped == multiset{} && s.book.log.lost == map[] && s.book.log.seeds == 0
    ensures SeedsOk(env, s) && Novel(s) && Throttled(env, s)
  {
    hide StartCalibration;
    var profile: nat, exts, producers: nat, last: real :|
      s == StartCalibration(env, Blank(env, profile, exts, producers, last), "", 0);
    var b := Blank(env, profile, exts, producers, last);
    assert Paid(env, b, 0, 0);
    ClockOnly(env, b, s);
  }

  /** With K novel contents and S admitted seeds of at most D segments, a template of T entries and
      N nmap seeds: at most (1 + K + S(D-1))T + N + SD + 11K candidates are ever pushed, in at most
      1 + K + S(D-1) directories. */
  ghost function DirBound(env: Env, novel: nat, seeds: nat): int
  {
    1 + novel + seeds * (Deepest(env) - 1)
  }

  ghost function PushBound(env: Env, novel: nat, seeds: nat): int
  {
    DirBound(env, novel, seeds) * |env.template| + |env.nmap| + seeds * Deepest(env) + 11 * novel
  }

  lemma PushesBounded(env: Env, s: Scan)
    requires Room(env, s) >= 0 && Places(s) >= 0 && SeedsOk(env, s)
    ensures |s.book.dirs| <= DirBound(env, s.book.log.novel, s.book.log.seeds)
    ensures |s.book.log.pushed| <= PushBound(env, s.book.log.novel, s.book.log.seeds)
  {
    Smaller(OpenDirs(s.book), s.book.dirs.Keys);
    assert |s.book.dirs.Keys| == |s.book.dirs|;
    var t, n, m := |env.template|, |OpenDirs(s.book)|, DirBound(env, s.book.log.novel, s.book.log.seeds);
    TimesMono(n, m, t);
  }

  lemma TimesMono(n: int, m: int, t: nat)
    requires n <= m
    ensures t * n <= m * t
  {
    assert m * t - t * n == (m - n) * t;
  }

  lemma SentIsPushed(env: Env, s: Scan)
    requires Sound(env, s)
    ensures |s.book.log.sent| + |s.book.log.dropped| <= |s.book.log.pushed|
    ensures forall k: Key :: s.book.log.sent[k] <= s.book.log.pushed[k]
  {
    hide Inv, Cacheable, KnownIsPushed, PushedOnce, Keys;
    assert |Keys(s.book.queue) + s.book.log.sent + s.book.log.dropped| == |s.book.log.pushed|;
  }

  /** What every state of a fresh run has. */
  ghost predicate Reached(env: Env, s: Scan)
  {
    && Sound(env, s) && Room(env, s) >= 0 && Places(s) >= 0
    && SeedsOk(env, s) && Novel(s) && Throttled(env, s)
    && "" in s.book.dirs && s.book.log.lost == map[]
  }

  /** In any reached state, sends and discards together stay within the bound. */
  lemma ReachedBounded(env: Env, s: Scan)
    requires Reached(env, s)
    ensures s.book.log.novel == |s.seen|
    ensures |s.book.log.sent| + |s.book.log.dropped| <= PushBound(env, |s.seen|, s.book.log.seeds)
    ensures |s.book.dirs| <= DirBound(env, |s.seen|, s.book.log.seeds)
  {
    hide Sound, Room, Places, SeedsOk, Throttled, PushBound, DirBound;
    PushesBounded(env, s);
    SentIsPushed(env, s);
  }

  lemma RunReaches(env: Env, states: seq<Scan>, events: seq<Event>)
    requires IsRun(env, states, events) && Fresh(env, states[0]) && Configured(env)
    ensures var s := states[|events|];
            && Reached(env, s) && s.book.log.sent == RequestCount(events) && s.book.log.dropped == DropCount(events)
            && s.book.log.seeds == SeedsIn(env, events)
  {
    hide Sound, Room, Places, SeedsOk, Novel, Throttled, Fresh, Configured, StepAt;
    FreshSound(env, states[0]);
    FreshHistory(env, states[0]);
    RunSound(env, states, events, |events|);
    RunHistory(env, states, events);
  }

  /** A whole run is bounded: requests and discards never exceed the bound, which depends only on how many
      different contents the hits had and how many seeds the run's own events applied. */
  lemma RequestsBounded(env: Env, states: seq<Scan>, events: seq<Event>)
    requires IsRun(env, states, events) && Fresh(env, states[0]) && Configured(env)
    ensures var k, seeds := |states[|events|].seen|, SeedsIn(env, events);
            && |RequestCount(events)| + |DropCount(events)| <= PushBound(env, k, seeds)
            && |states[|events|].book.dirs| <= DirBound(env, k, seeds)
  {
    hide StepAt, Fresh, Configured, Reached, PushBound, DirBound;
    RunReaches(env, states, events);
    ReachedBounded(env, states[|events|]);
  }

  // ---- At most once ---------------------------------------------------------------------

  lemma {:induction false} CountedTwice(events: seq<Event>, i: nat, j: nat)
    requires i < j < |events| && events[i].Requested? && events[j].Requested?
    requires KeyOf(events[i].cand) == KeyOf(events[j].cand)
    ensures RequestCount(events)[KeyOf(events[i].cand)] >= 2
  {
    hide KeyOf;
    var n := |events| - 1;
    if j < n {
      CountedTwice(events[..n], i, j);
    } else {
      assert events[..n][i] == events[i];
      CountedOnce(events[..n], i);
    }
  }

  lemma {:induction false} CountedOnce(events: seq<Event>, i: nat)
    requires i < |events| && events[i].Requested?
    ensures RequestCount(events)[KeyOf(events[i].cand)] >= 1
  {
    hide KeyOf;
    var n := |events| - 1;
    if i < n {
      CountedOnce(events[..n], i);
    }
  }

  lemma OnceEach(env: Env, s: Scan, k: Key)
    requires Sound(env, s) && Unrepeated(LimitsOf(env), s.book)
    ensures s.book.log.sent[k] <= 1
  {
    hide Inv, Cacheable, KnownIsPushed, Unrepeated, Tallied, Budgeted;
    assert s.book.log.pushed[k] <= 1;
  }

  /** What keeps paths from being pushed twice: distinct template paths once anything was opened, and, once
      the root was, nmap paths apart from each other, the template, and the seeds pending just then. */
  ghost predicate KeptApart(env: Env, s: Scan)
  {
    && (s.book.log.openedWith == map[] || DistinctPaths(env.template))
    && ("" in s.book.log.openedWith ==> NmapApart(env.nmap, env.template, s.book.log.openedWith[""]))
  }

  /** Over a whole run nothing is pushed twice if and only if paths are kept apart. */
  lemma OncePushed(env: Env, states: seq<Scan>, events: seq<Event>)
    requires IsRun(env, states, events) && Fresh(env, states[0]) && Configured(env)
    ensures var s := states[|events|]; (forall k: Key :: s.book.log.pushed[k] <= 1) <==> KeptApart(env, s)
  {
    hide Fresh, Configured, Room, Places, SeedsOk, Novel, Throttled, StepAt, DistinctPaths, NmapApart, Inv;
    RunReaches(env, states, events);
    ApartIs(env, states[|events|]);
  }

  lemma ApartIs(env: Env, s: Scan)
    ensures Unrepeated(LimitsOf(env), s.book) <==> KeptApart(env, s)
  {
    hide DistinctPaths, NmapApart;
  }

  /** No (directory, path) pair is requested twice in a run, if its paths are kept apart. Without nmap seeds
      that only takes distinct template paths. */
  lemma AtMostOnce(env: Env, states: seq<Scan>, events: seq<Event>, i: nat, j: nat)
    requires IsRun(env, states, events) && Fresh(env, states[0]) && Configured(env)
    requires KeptApart(env, states[|events|])
    requires i < j < |events| && events[i].Requested? && events[j].Requested?
    ensures KeyOf(events[i].cand) != KeyOf(events[j].cand)
  {
    hide Fresh, Configured, Sound, Room, Places, SeedsOk, Novel, Throttled, StepAt, KeptApart;
    RunReaches(env, states, events);
    ApartIs(env, states[|events|]);
    OnceEach(env, states[|events|], KeyOf(events[i].cand));
    if KeyOf(events[i].cand) == KeyOf(events[j].cand) {
      CountedTwice(events, i, j);
    }
  }

  lemma NoNmapApart(env: Env, s: Scan)
    requires env.nmap == [] && DistinctPaths(env.template)
    ensures KeptApart(env, s)
  {
  }

  // ---- Nothing stranded, nothing finished early -----------------------------------------

  /** The loop's own events, as opposed to what users and producers may throw in. */
  predicate Productive(e: Event)
  {
    e.ProbeSent? || e.FetchSent? || e.Requested? || e.Skipped? || e.ProbeBackAt? || e.FetchBack? || e.ResultBack? || e.ProducerDone?
  }

  /** Nothing queued, nothing out, nobody producing. */
  ghost predicate Quiescent(s: Scan)
  {
    && s.book.queue == multiset{} && s.book.flying == multiset{} && s.book.probes == multiset{}
    && s.harvestFlying == multiset{} && s.harvestQueue == [] && s.producers == 0 && !ProbesWait(s)
  }

  lemma {:induction false} FirstProbe(s: Scan, n: nat, d: string) returns (first: string)
    requires Refs(s.book) && n <= |s.book.order|
    requires forall j :: 0 <= j < n ==> s.book.dirs[s.book.order[j]].probeQueue == []
    requires exists j :: n <= j < |s.book.order| && s.book.dirs[s.book.order[j]].probeQueue != []
    ensures FirstToProbe(s, first)
    decreases |s.book.order| - n
  {
    first := s.book.order[n];
    if s.book.dirs[first].probeQueue == [] {
      first := FirstProbe(s, n + 1, d);
    }
  }

  lemma SomethingReturns(env: Env, s: Scan) returns (e: Event)
    requires Refs(s.book)
    requires s.book.flying != multiset{} || s.book.probes != multiset{} || s.harvestFlying != multiset{} || s.producers > 0
    ensures Enabled(env, s, e) && Productive(e)
  {
    if s.book.flying != multiset{} {
      var c :| c in s.book.flying;
      e := ResultBack(c, Failed, if s.lastSweep > env.start then s.lastSweep else env.start);
    } else if s.book.probes != multiset{} {
      var d :| d in s.book.probes;
      e := ProbeBackAt(d);
    } else if s.harvestFlying != multiset{} {
      var url :| url in s.harvestFlying;
      e := FetchBack(url, NoBody);
    } else {
      e := ProducerDone;
    }
  }

  lemma ProbeGoes(s: Scan) returns (e: Event)
    requires Refs(s.book) && ProbesWait(s)
    ensures e.ProbeSent? && FirstToProbe(s, e.dir)
  {
    hide FirstToProbe;
    var d :| d in s.book.order && d in s.book.dirs && s.book.dirs[d].probeQueue != [];
    var j: nat :| j < |s.book.order| && s.book.order[j] == d;
    var first := FirstProbe(s, 0, d);
    e := ProbeSent(first);
  }

  /** Something productive can always happen, unless all is quiet. */
  lemma SomethingHappens(env: Env, s: Scan) returns (e: Event)
    requires Inv(s.book) && !Quiescent(s)
    ensures Enabled(env, s, e) && Productive(e)
  {
    hide DirOk, Refs, FirstToProbe, Dispatchable, Blocked, ProbesWait;
    if s.book.flying != multiset{} || s.book.probes != multiset{} || s.harvestFlying != multiset{} || s.producers > 0 {
      e := SomethingReturns(env, s);
    } else if ProbesWait(s) {
      e := ProbeGoes(s);
    } else if s.harvestQueue != [] {
      e := FetchSent;
    } else {
      e := FrontierMoves(env, s);
    }
  }

  /** A queued candidate can be discarded or dispatched; none is ever stuck behind the yield cap. */
  lemma FrontierMoves(env: Env, s: Scan) returns (e: Event)
    requires Refs(s.book) && s.book.queue != multiset{} && FrontierTurn(s)
    ensures Enabled(env, s, e) && (e.Requested? || e.Skipped?)
  {
    hide Blocked, ProbesWait;
    if c :| c in s.book.queue && Blocked(env, s, c) {
      e := Skipped(c);
    } else if c :| c in s.book.queue && !Throttles(env, s, c) {
      e := Requested(c);
    } else {
      var c :| c in s.book.queue;
      e := Requested(c);
    }
  }

  /** When all is quiet, a directory is unfinished exactly if requests of its were lost. */
  lemma QuietDirectory(s: Scan, d: string)
    requires Inv(s.book) && Quiescent(s) && d in s.book.dirs
    ensures s.book.dirs[d].phase == Done <==> Lost(s.book, d) == 0
  {
    assert DirOk(s.book, d);
    CountNone(s.book.queue, (c: Candidate) => c.parentDir == d);
    CountNone(s.book.flying, (c: Candidate) => c.parentDir == d);
    assert multiset(s.book.order)[d] > 0 ==> d in s.book.order;
  }

  /** A quiet scan is finished if and only if no request was ever lost. */
  lemma QuietIsFinished(s: Scan)
    requires Inv(s.book) && Quiescent(s)
    ensures Finished(s) <==> forall d :: d in s.book.dirs ==> Lost(s.book, d) == 0
  {
    hide Inv;
    forall d | d in s.book.dirs ensures s.book.dirs[d].phase == Done <==> Lost(s.book, d) == 0 {
      QuietDirectory(s, d);
    }
  }

  /** No reachable state of a fresh run is stuck: it is finished, or something productive can happen. */
  lemma NeverStuck(env: Env, states: seq<Scan>, events: seq<Event>) returns (e: Event)
    requires IsRun(env, states, events) && Fresh(env, states[0]) && Configured(env)
    ensures var s := states[|events|]; Finished(s) || (Enabled(env, s, e) && Productive(e))
  {
    hide Fresh, Configured, StepAt, Rest, Room, Places, SeedsOk, Novel, Throttled, Inv, Finished;
    RunReaches(env, states, events);
    var s := states[|events|];
    e := ProducerDone;
    if Quiescent(s) {
      QuietIsFinished(s);
    } else {
      e := SomethingHappens(env, s);
    }
  }

  // ---- Budgets --------------------------------------------------------------------------

  /** Nothing was pushed when d opened with these paths pending. */
  predicate OpenedBare(env: Env, d: string, pending: set<string>)
  {
    env.template == [] && pending == {} && (d == "" ==> env.nmap == [])
  }

  /** The budget of an open directory: what was pushed there, or, with a budget B configured, B and what
      was pushed beyond the template. */
  ghost predicate BudgetIs(env: Env, s: Scan, d: string)
    requires d in s.book.dirs
  {
    var pushed := Under(s.book.log.pushed, d);
    && d in s.book.log.openedWith
    && s.book.dirs[d].budget == if env.perDirBudget <= 0 || OpenedBare(env, d, s.book.log.openedWith[d]) then pushed
                                else env.perDirBudget + pushed - |env.template|
  }

  lemma DirBudget(env: Env, s: Scan, d: string)
    requires Sound(env, s) && d in s.book.dirs && s.book.dirs[d].phase != Calibrating
    ensures Under(s.book.log.sent, d) == s.book.dirs[d].dispatched <= s.book.dirs[d].budget
    ensures BudgetIs(env, s, d)
  {
    hide Cacheable, Conserved, KnownIsPushed, PushedOnce, Under, In, Unrepeated, DistinctPaths, ApartFrom;
    assert DirOk(s.book, d);
    assert d in OpenDirs(s.book);
  }

  /** Budgets over whole runs: no directory is sent more requests than its budget, nothing is sent to one
      that is not open, and a budget has exactly the value above. So with a template, a directory's budget
      is larger than the configured one if and only if more was pushed there than the template. */
  lemma BudgetHolds(env: Env, states: seq<Scan>, events: seq<Event>, d: string)
    requires IsRun(env, states, events) && Fresh(env, states[0]) && Configured(env)
    ensures var s, n := states[|events|], Under(RequestCount(events), d);
            if d !in s.book.dirs || s.book.dirs[d].phase == Calibrating then n == 0
            else
              && n <= s.book.dirs[d].budget && BudgetIs(env, s, d)
              && (env.perDirBudget > 0 && env.template != [] ==>
                    (s.book.dirs[d].budget > env.perDirBudget <==> Under(s.book.log.pushed, d) > |env.template|))
  {
    hide Fresh, Configured, Room, Places, SeedsOk, Novel, Throttled, StepAt, Rest, Inv, Under;
    RunReaches(env, states, events);
    var s := states[|events|];
    if d in s.book.dirs && s.book.dirs[d].phase != Calibrating {
      DirBudget(env, s, d);
    } else {
      NotOpen(env, s, d);
    }
  }

  lemma NotOpen(env: Env, s: Scan, d: string)
    requires Sound(env, s) && (d in s.book.dirs ==> s.book.dirs[d].phase == Calibrating)
    ensures Under(s.book.log.sent, d) == 0
  {
    hide Cacheable, Conserved, KnownIsPushed, PushedOnce, Under, In, Budgeted, Unrepeated;
    assert d in s.book.dirs ==> DirOk(s.book, d);
  }

  /** With no per-directory budget configured, no queued candidate is ever over budget. */
  lemma BudgetNeverBites(env: Env, s: Scan, c: Candidate)
    requires Sound(env, s) && env.perDirBudget <= 0 && c in s.book.queue
    ensures c.parentDir in s.book.dirs && !OverBudget(s, c)
  {
    hide Cacheable, Conserved, KnownIsPushed;
    QueuedIsScanning(s.book, c);
    assert DirOk(s.book, c.parentDir);
    CountHas(s.book.queue, c, (x: Candidate) => x.parentDir == c.parentDir);
  }

  /** So the loop only ever throws away what is out of scope, excluded, or in a tarpit. */
  lemma OnlyTrapsDiscard(env: Env, states: seq<Scan>, events: seq<Event>, i: nat)
    requires IsRun(env, states, events) && Sound(env, states[0]) && env.perDirBudget <= 0
    requires i < |events| && events[i].Skipped?
    ensures var s, c := states[i], events[i].cand;
            && c.parentDir in s.book.dirs
            && (s.book.dirs[c.parentDir].capped || !env.inScope(Url(env, c.parentDir, c.path))
                || Excluded(env, s.scoring.overrides, c.parentDir, c.path))
  {
    hide Sound, Room, Places, Url, Excluded;
    RunSound(env, states, events, i);
    assert StepAt(env, states, events, i);
    BudgetNeverBites(env, states[i], events[i].cand);
  }

  // ---- Nothing left out -----------------------------------------------------------------

  lemma DiscardNotes(env: Env, s: Scan, c: Candidate, over: bool, w: Want)
    requires Sound(env, s) && c in s.book.queue && Due(env, s, w)
    ensures c.parentDir in s.book.dirs && Due(env, s.(book := Discarded(s.book, c, over)), w)
  {
    hide Rest, DirOk;
    QueuedIsScanning(s.book, c);
  }

  lemma {:induction false} SweepOutNotes(env: Env, s: Scan, removed: seq<Candidate>, w: Want)
    requires Sound(env, s) && multiset(removed) <= s.book.queue && Due(env, s, w)
    requires forall i :: 0 <= i < |removed| ==> removed[i].parentDir in s.book.dirs
    ensures Due(env, SweepOut(s, removed), w)
  {
    hide Sound, Room, Places, Due, Discarded;
    if removed != [] {
      var n := |removed| - 1;
      assert removed == removed[..n] + [removed[n]];
      SweepOutNotes(env, s, removed[..n], w);
      SweepOutSound(env, s, removed[..n]);
      DiscardedRest(s.book, removed[..n], false);
      DiscardNotes(env, SweepOut(s, removed[..n]), removed[n], false, w);
    }
  }

  lemma PinNotes(env: Env, s: Scan, pattern: string, picks: seq<Candidate>, w: Want)
    requires Sound(env, s) && |picks| == |Segments(pattern)| && Due(env, s, w)
    ensures Due(env, ApplyPin(env, s, pattern, picks), w)
  {
    hide Sound, Room, Places, EnqueueSeed, Segments, IsGlob, Due;
    OverrideSound(env, s, pattern, Boost, PIN_SCORE);
    var s1 := Sweep(env, WithOverride(s, pattern, Boost, PIN_SCORE));
    SameDirs(env, s, s1, w);
    if !IsGlob(pattern) {
      SeedKeepsNotes(env, s1, Seed(pattern, false, 1.0, "user:pin"), picks, w);
    }
  }

  lemma BarNotes(env: Env, s: Scan, pattern: string, removed: seq<Candidate>, w: Want)
    requires Sound(env, s) && multiset(removed) <= s.book.queue && Due(env, s, w)
    requires forall i :: 0 <= i < |removed| ==> removed[i].parentDir in s.book.dirs
    ensures Due(env, Bar(s, pattern, removed), w)
  {
    hide Sound, Due, SweepOut;
    ExcludeSound(env, s, pattern);
    SameDirs(env, s, WithOverride(s, pattern, Exclude, 1.0), w);
    SweepOutNotes(env, WithOverride(s, pattern, Exclude, 1.0), removed, w);
  }

  lemma DispatchNotes(env: Env, s: Scan, c: Candidate, w: Want)
    requires c.parentDir in s.book.dirs && Due(env, s, w)
    ensures Due(env, Dispatch(s, c), w)
  {
  }

  lemma ProbeOutNotes(env: Env, s: Scan, d: string, w: Want)
    requires d in s.book.dirs && |s.book.dirs[d].probeQueue| > 0 && Due(env, s, w)
    ensures Due(env, s.(book := ProbeOut(s.book, d)), w)
  {
  }

  /** No step forgets what is due, unless it starts the root's calibration over. */
  lemma StepDue(env: Env, s: Scan, e: Event, w: Want)
    requires Sound(env, s) && Enabled(env, s, e) && Due(env, s, w)
    requires w.seed ==> !Relapses(env, s, w.dir)
    ensures Due(env, Next(env, s, e), w)
  {
    hide Sound, Due, Blocked, Swept, Segments, CollectProbe, HandleReal, EnqueueSeed, ApplyPin, Bar, Dispatch, Relapses, Discarded, ProbeOut, Sweep,
         ProbesWait, Timed, FetchOut, ApplyOverride;
    var r := Next(env, s, e);
    match e
    case ProbeSent(d) => ProbeOutNotes(env, s, d, w);
    case Requested(c) => DispatchNotes(env, s, c, w);
    case Skipped(c) => DiscardNotes(env, s, c, OverBudget(s, c), w);
    case ProbeBackAt(d) => CollectNotes(env, s, d, w);
    case ResultBack(c, response, now) => RealNotes(env, s, c, response, now, w);
    case Seeded(sd, picks) => SeedKeepsNotes(env, s, sd, picks, w);
    case Pinned(pattern, picks) => PinNotes(env, s, pattern, picks, w);
    case Barred(pattern, removed) => SweptQueued(env, s, pattern, removed); BarNotes(env, s, pattern, removed, w);
    case _ => OthersDirs(env, s, e); SameDirs(env, s, r, w);
  }

  /** The other events leave the directories alone. */
  lemma OthersDirs(env: Env, s: Scan, e: Event)
    requires Enabled(env, s, e)
    requires e.FetchSent? || e.FetchBack? || e.FetchAsked? || e.ProducerDone? || e.Weighted?
    ensures Next(env, s, e).book.dirs == s.book.dirs
  {
    hide Blocked, Swept, Segments, ProbesWait, FirstToProbe, Dispatchable, Timed, ApplyOverride, HandleReal, EnqueueSeed,
         ApplyPin, Bar, Dispatch, ScanModel.Discard, CollectProbe, ProbeOut;
    match e
    case Weighted(pattern, kind, factor) => WeightedDirs(env, s, pattern, kind, factor);
    case _ =>
  }

  lemma WeightedDirs(env: Env, s: Scan, pattern: string, kind: OverrideKind, factor: real)
    ensures ApplyOverride(env, s, pattern, kind, factor).book.dirs == s.book.dirs
  {
    hide Sweep, FactorOf;
    SweptDirs(env, WithOverride(s, pattern, kind, FactorOf(factor)));
  }

  lemma SweptDirs(env: Env, s: Scan)
    ensures Sweep(env, s).book.dirs == s.book.dirs
  {
  }

  lemma {:induction false} RunDue(env: Env, states: seq<Scan>, events: seq<Event>, i: nat, j: nat, w: Want)
    requires IsRun(env, states, events) && Sound(env, states[0]) && i <= j < |states|
    requires Due(env, states[i], w)
    requires w.seed ==> forall k :: i <= k < j ==> !Relapses(env, states[k], w.dir)
    ensures Due(env, states[j], w)
    decreases j - i
  {
    hide Sound, Room, Places, Due, Relapses, Enabled, Next;
    if i < j {
      RunDue(env, states, events, i, j - 1, w);
      RunSound(env, states, events, j - 1);
      assert StepAt(env, states, events, j - 1);
      StepDue(env, states[j - 1], events[j - 1], w);
    }
  }

  /** In a finished scan everything due has been pushed, and hence requested or discarded. */
  lemma DueIsDone(env: Env, s: Scan, w: Want)
    requires Sound(env, s) && Finished(s) && Due(env, s, w) && w.dir in s.book.dirs
    ensures (w.dir, w.path) in s.book.log.sent + s.book.log.dropped
  {
    hide Cacheable, PushedOnce;
    assert DirOk(s.book, w.dir);
    assert s.book.log.pushed[(w.dir, w.path)] > 0;
    assert Keys(s.book.queue) == multiset{};
  }

  lemma FreshDue(env: Env, s: Scan, w: Want)
    requires Fresh(env, s) && !w.seed && w.path in PathsOf(env.template)
    ensures Due(env, s, w)
  {
    hide Sound, Room, Places, PathsOf, StartCalibration;
    var profile: nat, exts, producers: nat, last: real :|
      s == StartCalibration(env, Blank(env, profile, exts, producers, last), "", 0);
    var b := Blank(env, profile, exts, producers, last);
    BlankSound(env, profile, exts, producers, last);
    StartNotes(env, b, "", 0, w);
  }

  /** Coverage: when a scan finishes, every template path of every directory it ever opened has been
      requested in that directory, or discarded there by an exclusion or one of the loop's gates. */
  lemma EveryPathTried(env: Env, states: seq<Scan>, events: seq<Event>, d: string, p: string)
    requires IsRun(env, states, events) && Fresh(env, states[0]) && Configured(env)
    requires Finished(states[|events|]) && d in states[|events|].book.dirs && p in PathsOf(env.template)
    ensures (d, p) in RequestCount(events) + DropCount(events)
  {
    hide Sound, Room, Places, SeedsOk, Novel, Throttled, Fresh, Configured, StepAt, Finished, Due, PathsOf;
    var w := Want(d, p, false);
    FreshSound(env, states[0]);
    FreshDue(env, states[0], w);
    RunDue(env, states, events, 0, |events|, w);
    RunReaches(env, states, events);
    DueIsDone(env, states[|events|], w);
  }

  /** An event that applies an admitted seed notes its leaf and each ancestor. */
  lemma EventNotes(env: Env, s: Scan, e: Event, sd: Seed, k: nat)
    requires Sound(env, s) && "" in s.book.dirs && Enabled(env, s, e)
    requires SeedOf(e) == Some(sd) && Admitted(env, sd) && k < |Segments(sd.path)|
    ensures Noted(Next(env, s, e), DirOf(Segments(sd.path), k), Segments(sd.path)[k])
  {
    hide Sound, Room, Places, Noted, EnqueueSeed, Segments, DirOf, Admitted, Sweep, IsGlob;
    match e
    case Seeded(seed, picks) => SeedNoted(env, s, sd, picks, k);
    case Pinned(pattern, picks) =>
      OverrideSound(env, s, pattern, Boost, PIN_SCORE);
      SweptDirs(env, WithOverride(s, pattern, Boost, PIN_SCORE));
      SeedNoted(env, Sweep(env, WithOverride(s, pattern, Boost, PIN_SCORE)), sd, picks, k);
  }

  /** No seed is lost: when the scan finishes, every segment of every admitted seed, pinned ones included,
      has been requested or discarded under its parent, if the root's calibration did not start over
      meanwhile. */
  lemma EverySeedTried(env: Env, states: seq<Scan>, events: seq<Event>, i: nat, sd: Seed, k: nat)
    requires IsRun(env, states, events) && Fresh(env, states[0]) && Configured(env) && Finished(states[|events|])
    requires i < |events| && SeedOf(events[i]) == Some(sd) && Admitted(env, sd) && k < |Segments(sd.path)|
    requires var d := DirOf(Segments(sd.path), k); forall j :: i < j < |events| ==> !Relapses(env, states[j], d)
    ensures var segs := Segments(sd.path); (DirOf(segs, k), segs[k]) in RequestCount(events) + DropCount(events)
  {
    hide Sound, Room, Places, SeedsOk, Novel, Throttled, Fresh, Configured, Finished, Due, Relapses, Segments, DirOf, Admitted, SeedOf,
         Enabled, Next;
    var w := Want(DirOf(Segments(sd.path), k), Segments(sd.path)[k], true);
    FreshSound(env, states[0]);
    RunSound(env, states, events, i);
    RunDirs(env, states, events, i);
    assert StepAt(env, states, events, i);
    EventNotes(env, states[i], events[i], sd, k);
    NotedIsDue(env, states[i + 1], w);
    RunDue(env, states, events, i + 1, |events|, w);
    RunReaches(env, states, events);
    NotedIsDue(env, states[|events|], w);
    DueIsDone(env, states[|events|], w);
  }

  lemma NotedIsDue(env: Env, s: Scan, w: Want)
    requires w.seed
    ensures Due(env, s, w) == Noted(s, w.dir, w.path)
    ensures Due(env, s, w) ==> w.dir in s.book.dirs
  {
  }

  lemma {:induction false} RunDirs(env: Env, states: seq<Scan>, events: seq<Event>, i: nat)
    requires IsRun(env, states, events) && i < |states|
    ensures states[0].book.dirs.Keys <= states[i].book.dirs.Keys
  {
    hide Enabled, Next;
    if i > 0 {
      RunDirs(env, states, events, i - 1);
      assert StepAt(env, states, events, i - 1);
      StepLedger(env, states[i - 1], events[i - 1]);
    }
  }

  // ---- Turns ----------------------------------------------------------------------------

  /** The directory of the last request of a run, and how many requests in a row went there. */
  function Turns(events: seq<Event>): (string, nat)
  {
    if events == [] then ("", 0) else Turn(Turns(events[..|events| - 1]), events[|events| - 1])
  }

  lemma {:induction false} TurnsAre(env: Env, states: seq<Scan>, events: seq<Event>)
    requires IsRun(env, states, events) && Fresh(env, states[0])
    ensures (states[|events|].lastDir, states[|events|].streak) == Turns(events)
  {
    hide Enabled, Next, StartCalibration;
    if events != [] {
      var n := |events| - 1;
      PrefixRun(env, states, events);
      TurnsAre(env, states[..n + 1], events[..n]);
      StepLedger(env, states[n], events[n]);
    }
  }

  /** The last n requests all went to this directory. */
  predicate LastTo(events: seq<Event>, d: string, n: nat)
  {
    n == 0 || (events != [] && var k := |events| - 1;
               if events[k].Requested? then events[k].cand.parentDir == d && LastTo(events[..k], d, n - 1) else LastTo(events[..k], d, n))
  }

  lemma {:induction false} LastAreTurns(events: seq<Event>, d: string, n: nat)
    ensures LastTo(events, d, n) <==> n == 0 || (d == Turns(events).0 && Turns(events).1 >= n)
    decreases |events|
  {
    if events != [] {
      var k := |events| - 1;
      LastAreTurns(events[..k], d, n);
      if n > 0 { LastAreTurns(events[..k], d, n - 1); }
    }
  }

  /** The yield cap holds a candidate back exactly when the last burst of requests all went to its directory. */
  lemma HeldBackIs(env: Env, states: seq<Scan>, events: seq<Event>, c: Candidate)
    requires IsRun(env, states, events) && Fresh(env, states[0])
    ensures Throttles(env, states[|events|], c) <==> env.subtreeBurst > 0 && LastTo(events, c.parentDir, env.subtreeBurst)
  {
    hide Enabled, Next, Fresh, LastTo, Turns;
    TurnsAre(env, states, events);
    if env.subtreeBurst > 0 { LastAreTurns(events, c.parentDir, env.subtreeBurst); }
  }

  lemma StreakIsFair(env: Env, s: Scan, c: Candidate)
    requires Enabled(env, s, Requested(c)) && env.subtreeBurst > 0 && Dispatch(s, c).streak > env.subtreeBurst
    ensures forall x :: x in s.book.queue ==> x.parentDir == c.parentDir
  {
    hide Blocked, ProbesWait;
  }

  /** The subtree yield cap: in no run do more than a burst of requests in a row go to one directory
      while any other has anything queued. */
  lemma TurnsAreFair(env: Env, states: seq<Scan>, events: seq<Event>)
    requires IsRun(env, states, events) && Fresh(env, states[0]) && env.subtreeBurst > 0
    requires events != [] && events[|events| - 1].Requested? && Turns(events).1 > env.subtreeBurst
    ensures forall x :: x in states[|events| - 1].book.queue ==> x.parentDir == Turns(events).0
  {
    hide Enabled, Next, Fresh;
    var n := |events| - 1;
    PrefixRun(env, states, events);
    TurnsAre(env, states[..n + 1], events[..n]);
    TurnsAre(env, states, events);
    RequestIs(env, states[n], events[n]);
    StreakIsFair(env, states[n], events[n].cand);
  }

  lemma RequestIs(env: Env, s: Scan, e: Event)
    requires Enabled(env, s, e) && e.Requested?
    ensures e.cand.parentDir in s.book.dirs && Next(env, s, e) == Dispatch(s, e.cand) && Dispatch(s, e.cand).lastDir == e.cand.parentDir
  {
    hide Blocked, ProbesWait;
  }
}
