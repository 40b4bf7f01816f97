/** The scan as a transition system: events, which of them can happen, and what each does. */
module Runs {
  import opened ScanTypes
  import opened Text
  import opened Provenance
  import opened Paths
  import opened Counting
  import opened Accounting
  import opened Invariants
  import opened Tallies
  import opened Ledgers
  import opened ScanModel
  import opened Soundness
  import opened Stepping
  import opened History
  import opened Seeds

  /** One thing the coordinator's loop does: a dispatch tick's outcome, a result, a producer's
      message or a control command. */
  datatype Event =
    | ProbeSent(dir: string)
    | FetchSent
    | Requested(cand: Candidate)
    | Skipped(cand: Candidate)
    | ProbeBackAt(dir: string)
    | FetchBack(url: string, body: Body)
    | ResultBack(cand: Candidate, response: Response, now: real)
    | Seeded(seed: Seed, picks: seq<Candidate>)
    | FetchAsked(url: string)
    | ProducerDone
    | Weighted(pattern: string, kind: OverrideKind, factor: real)
    | Pinned(pattern: string, picks: seq<Candidate>)
    | Barred(pattern: string, removed: seq<Candidate>)

  ghost predicate ProbesWait(s: Scan)
  {
    exists d :: d in s.book.order && d in s.book.dirs && s.book.dirs[d].probeQueue != []
  }

  /** The first directory in the calibrating order with a probe to send. */
  ghost predicate FirstToProbe(s: Scan, d: string)
  {
    exists i :: 0 <= i < |s.book.order| && s.book.order[i] == d && d in s.book.dirs && s.book.dirs[d].probeQueue != []
                && forall j :: 0 <= j < i ==> s.book.order[j] in s.book.dirs && s.book.dirs[s.book.order[j]].probeQueue == []
  }

  /** nextDispatchable looks at the frontier only when nothing more urgent waits. */
  ghost predicate FrontierTurn(s: Scan)
  {
    !ProbesWait(s) && s.harvestQueue == []
  }

  /** Whether the subtree yield cap holds the candidate back for now. */
  predicate Throttles(env: Env, s: Scan, c: Candidate)
  {
    env.subtreeBurst > 0 && c.parentDir == s.lastDir && s.streak >= env.subtreeBurst
  }

  /** The candidate may go out: not discarded, and not held back unless nothing else is left. */
  ghost predicate Dispatchable(env: Env, s: Scan, c: Candidate)
  {
    && c in s.book.queue && c.parentDir in s.book.dirs && !Blocked(env, s, c)
    && (Throttles(env, s, c) ==> forall x :: x in s.book.queue ==>
          x.parentDir == s.lastDir && x.parentDir in s.book.dirs && !Blocked(env, s, x))
  }

  /** What applyExclude takes out: exactly the queued candidates that match. */
  ghost predicate Swept(env: Env, s: Scan, pattern: string, removed: seq<Candidate>)
  {
    && multiset(removed) <= s.book.queue
    && (forall c :: c in removed ==> env.matches(pattern, c.parentDir, c.path))
    && (forall c :: c in s.book.queue - multiset(removed) ==> !env.matches(pattern, c.parentDir, c.path))
  }

  ghost predicate Enabled(env: Env, s: Scan, e: Event)
  {
    match e
    case ProbeSent(d) => FirstToProbe(s, d)
    case FetchSent => !ProbesWait(s) && s.harvestQueue != []
    case Requested(c) => FrontierTurn(s) && Dispatchable(env, s, c)
    case Skipped(c) => FrontierTurn(s) && c in s.book.queue && c.parentDir in s.book.dirs && Blocked(env, s, c)
    case ProbeBackAt(d) => d in s.book.probes && d in s.book.dirs
    case FetchBack(url, body) => url in s.harvestFlying
    case ResultBack(c, r, now) => c in s.book.flying && c.parentDir in s.book.dirs && Timed(env, s, now)
    case Seeded(sd, picks) => |picks| == |Segments(sd.path)|
    case FetchAsked(url) => true
    case ProducerDone => s.producers > 0
    case Weighted(pattern, kind, factor) => kind != Exclude
    case Pinned(pattern, picks) => |picks| == |Segments(pattern)|
    case Barred(pattern, removed) =>
      Swept(env, s, pattern, removed) && forall i :: 0 <= i < |removed| ==> removed[i].parentDir in s.book.dirs
  }

  function FetchOut(s: Scan): Scan
    requires s.harvestQueue != []
  {
    s.(harvestQueue := s.harvestQueue[1..], harvestFlying := s.harvestFlying + multiset{s.harvestQueue[0]})
  }

  function Bar(s: Scan, pattern: string, removed: seq<Candidate>): Scan
    requires forall i :: 0 <= i < |removed| ==> removed[i].parentDir in s.book.dirs
  {
    SweepOut(WithOverride(s, pattern, Exclude, 1.0), removed)
  }

  ghost function Next(env: Env, s: Scan, e: Event): Scan
    requires Enabled(env, s, e)
  {
    match e
    case ProbeSent(d) => s.(book := ProbeOut(s.book, d))
    case FetchSent => FetchOut(s)
    case Requested(c) => Dispatch(s, c)
    case Skipped(c) => Discard(s, c)
    case ProbeBackAt(d) => CollectProbe(env, s, d)
    case FetchBack(url, body) => HandleHarvest(s, url, body)
    case ResultBack(c, r, now) => HandleReal(env, s, c, r, now)
    case Seeded(sd, picks) => EnqueueSeed(env, s, sd, picks)
    case FetchAsked(url) => EnqueueHarvestFetch(env, s, url)
    case ProducerDone => s.(producers := s.producers - 1)
    case Weighted(pattern, kind, factor) => ApplyOverride(env, s, pattern, kind, factor)
    case Pinned(pattern, picks) => ApplyPin(env, s, pattern, picks)
    case Barred(pattern, removed) => Bar(s, pattern, removed)
  }

  /** Before the root is seeded: a profile already scored in, an extension set, running producers. */
  function Blank(env: Env, profile: nat, exts: seq<string>, producers: nat, last: real): Scan
  {
    Scan(Book(map[], [], multiset{}, multiset{}, multiset{},
              Ledger(multiset{}, multiset{}, multiset{}, map[], 0, 0, 0, 0, map[])),
         Scoring(profile, [], false, []), env.signature(profile), false, 0, last, 0,
         map[], [], map[], exts, false, [], multiset{}, {}, producers, "", 0, true)
  }

  ghost predicate Fresh(env: Env, s: Scan)
  {
    exists profile: nat, exts, producers: nat, last: real ::
      s == StartCalibration(env, Blank(env, profile, exts, producers, last), "", 0)
  }

  /** A run: each state follows from the one before by an event that could happen. */
  ghost predicate IsRun(env: Env, states: seq<Scan>, events: seq<Event>)
  {
    && |states| == |events| + 1
    && forall i :: 0 <= i < |events| ==> StepAt(env, states, events, i)
  }

  ghost predicate StepAt(env: Env, states: seq<Scan>, events: seq<Event>, i: nat)
    requires |states| == |events| + 1 && i < |events|
  {
    Enabled(env, states[i], events[i]) && states[i + 1] == Next(env, states[i], events[i])
  }

  /** dispatchLoop's finish test. */
  ghost predicate Finished(s: Scan)
  {
    && s.book.queue == multiset{} && s.book.flying == multiset{} && s.book.probes == multiset{}
    && s.harvestFlying == multiset{} && s.harvestQueue == [] && s.producers == 0
    && forall d :: d in s.book.dirs ==> s.book.dirs[d].phase == Done
  }

  /** The engine's defaults make both throttles positive. */
  ghost predicate Configured(env: Env)
  {
    env.reprioHits > 0 && env.reprioInterval > 0.0
  }

  // ---- Every step -----------------------------------------------------------------------

  lemma ProbeOutSound(env: Env, s: Scan, d: string)
    requires Sound(env, s) && FirstToProbe(s, d)
    ensures var r := s.(book := ProbeOut(s.book, d)); Sound(env, r) && Within(env, s, r, 0, 0)
  {
    hide Inv, Rest, PushRoom, DirRoom, Quietly;
    ProbeOutKeeps(s.book, d);
    ProbeQuietly(s.book, d);
    QuietSound(env, s, ProbeOut(s.book, d));
  }

  lemma PinSound(env: Env, s: Scan, pattern: string, picks: seq<Candidate>)
    requires Sound(env, s) && |picks| == |Segments(pattern)|
    ensures Sound(env, ApplyPin(env, s, pattern, picks)) && Within(env, s, ApplyPin(env, s, pattern, picks), 0, 0)
  {
    hide Sound, Room, Places, EnqueueSeed, WithOverride, Sweep, Segments, IsGlob;
    OverrideSound(env, s, pattern, Boost, PIN_SCORE);
    var s1 := Sweep(env, WithOverride(s, pattern, Boost, PIN_SCORE));
    if !IsGlob(pattern) {
      SeedSound(env, s1, Seed(pattern, false, 1.0, "user:pin"), picks);
    }
  }

  lemma BarSound(env: Env, s: Scan, pattern: string, removed: seq<Candidate>)
    requires Sound(env, s) && multiset(removed) <= s.book.queue
    requires forall i :: 0 <= i < |removed| ==> removed[i].parentDir in s.book.dirs
    ensures Sound(env, Bar(s, pattern, removed)) && Within(env, s, Bar(s, pattern, removed), 0, 0)
  {
    hide Sound, Room, Places, SweepOut;
    ExcludeSound(env, s, pattern);
    SweepOutSound(env, WithOverride(s, pattern, Exclude, 1.0), removed);
  }

  /** Whatever happens, the scan stays sound, and neither bound gets tighter. */
  lemma StepSound(env: Env, s: Scan, e: Event)
    requires Sound(env, s) && Enabled(env, s, e)
    ensures Sound(env, Next(env, s, e)) && Within(env, s, Next(env, s, e), 0, 0)
  {
    hide Sound, Room, Places, Blocked, Swept, FirstToProbe, Segments, CollectProbe, HandleReal, EnqueueSeed, ApplyPin, Bar, Dispatch,
         ProbesWait, Timed, ProbeOut;
    match e
    case ProbeSent(d) => ProbeOutSound(env, s, d);
    case FetchSent => AlikeKeeps(env, s, FetchOut(s));
    case Requested(c) => Unblocked(env, s, c); DispatchSound(env, s, c);
    case Skipped(c) => DropSound(env, s, c, OverBudget(s, c));
    case ProbeBackAt(d) => CollectSound(env, s, d);
    case FetchBack(url, body) => AlikeKeeps(env, s, HandleHarvest(s, url, body));
    case ResultBack(c, r, now) => RealSound(env, s, c, r, now);
    case Seeded(sd, picks) => SeedSound(env, s, sd, picks);
    case FetchAsked(url) => AlikeKeeps(env, s, EnqueueHarvestFetch(env, s, url));
    case ProducerDone => AlikeKeeps(env, s, Next(env, s, e));
    case Weighted(pattern, kind, factor) => OverrideSound(env, s, pattern, kind, FactorOf(factor));
    case Pinned(pattern, picks) => PinSound(env, s, pattern, picks);
    case Barred(pattern, removed) => SweptQueued(env, s, pattern, removed); BarSound(env, s, pattern, removed);
  }

  lemma Unblocked(env: Env, s: Scan, c: Candidate)
    requires c.parentDir in s.book.dirs && !Blocked(env, s, c)
    ensures !OverBudget(s, c)
  {
  }

  lemma SweptQueued(env: Env, s: Scan, pattern: string, removed: seq<Candidate>)
    requires Swept(env, s, pattern, removed)
    ensures multiset(removed) <= s.book.queue
  {
  }

  lemma BlankSound(env: Env, profile: nat, exts: seq<string>, producers: nat, last: real)
    ensures Sound(env, Blank(env, profile, exts, producers, last))
    ensures Room(env, Blank(env, profile, exts, producers, last)) == 0 && Places(Blank(env, profile, exts, producers, last)) == 0
  {
    var s := Blank(env, profile, exts, producers, last);
    assert PendingKeys(s.book) == {} && OpenDirs(s.book) == {};
    assert Keys(multiset{}) == multiset{};
  }

  lemma FreshSound(env: Env, s: Scan)
    requires Fresh(env, s)
    ensures Sound(env, s) && Room(env, s) >= 0 && Places(s) >= 0
    ensures "" in s.book.dirs && s.book.log.lost == map[]
  {
    hide Sound, Room, Places, FinishCalibration, Probes;
    var profile: nat, exts, producers: nat, last: real :|
      s == StartCalibration(env, Blank(env, profile, exts, producers, last), "", 0);
    BlankSound(env, profile, exts, producers, last);
    StartSound(env, Blank(env, profile, exts, producers, last), "", 0);
  }
}
