/** One dispatch tick of the coordinator object is a stretch of a run of the transition system:
    the discards one by one, then the request. */
module Ticks {
  import opened ScanTypes
  import opened Counting
  import opened Accounting
  import opened Invariants
  import opened ScanModel
  import opened FrontierHeap
  import opened Soundness
  import opened Stepping
  import opened Runs
  import opened Theorems
  import opened Engine
  import opened Paths
  import Blast

  ghost function Thinned(s: Scan, thrown: seq<Candidate>): Scan
    requires forall i :: 0 <= i < |thrown| ==> thrown[i].parentDir in s.book.dirs
  {
    s.(book := DiscardedAll(s.book, thrown, true))
  }

  lemma ThinnedMore(s: Scan, thrown: seq<Candidate>, i: nat)
    requires i < |thrown| && forall j :: 0 <= j < |thrown| ==> thrown[j].parentDir in s.book.dirs
    ensures Thinned(s, thrown[..i + 1]) == ScanModel.Discard(Thinned(s, thrown[..i]), thrown[i])
  {
    hide Discarded;
    assert thrown[..i + 1][..i] == thrown[..i];
  }

  lemma ThinnedRest(s: Scan, thrown: seq<Candidate>)
    requires forall j :: 0 <= j < |thrown| ==> thrown[j].parentDir in s.book.dirs
    ensures var t := Thinned(s, thrown);
            && t.scoring == s.scoring && t.lastDir == s.lastDir && t.streak == s.streak && t.harvestQueue == s.harvestQueue
            && t.book.order == s.book.order && SameGates(s.book.dirs, t.book.dirs) && t.book.queue == s.book.queue - multiset(thrown)
  {
    DiscardedRest(s.book, thrown, true);
  }

  lemma RejectedAt(g: Gate, b: Book, thrown: seq<Candidate>, i: nat)
    requires Rejected(g, b, thrown) && i < |thrown|
    ensures forall j :: 0 <= j < |thrown| ==> thrown[j].parentDir in b.dirs
    ensures Is(g, b, thrown[i], Throw) && thrown[i] in b.queue - multiset(thrown[..i])
  {
    hide JudgedBy;
    forall j | 0 <= j < |thrown| ensures thrown[j].parentDir in b.dirs { assert Is(g, b, thrown[j], Throw); }
    assert thrown == thrown[..i] + [thrown[i]] + thrown[i + 1..];
    StillThere(b.queue, thrown[..i], thrown[i], thrown[i + 1..]);
  }

  /** Every discard of the search is a step of the run. */
  lemma SkipHappens(env: Env, s: Scan, thrown: seq<Candidate>, i: nat)
    requires FrontierTurn(s) && Rejected(GateOf(env, s), s.book, thrown) && i < |thrown|
    ensures forall j :: 0 <= j < |thrown| ==> thrown[j].parentDir in s.book.dirs
    ensures var t := Thinned(s, thrown[..i]);
            Enabled(env, t, Skipped(thrown[i])) && Next(env, t, Skipped(thrown[i])) == Thinned(s, thrown[..i + 1])
  {
    hide Is, Rejected, Thinned, SameGates, FrontierTurn, Blocked, ScanModel.Discard;
    RejectedAt(GateOf(env, s), s.book, thrown, i);
    var t := Thinned(s, thrown[..i]);
    ThinnedRest(s, thrown[..i]);
    ThinnedMore(s, thrown, i);
    ThinnedTurn(s, thrown[..i]);
    SameVerdict(GateOf(env, s), s.book, t.book, thrown[i], Throw);
    VerdictBlocks(env, t, thrown[i], Throw);
  }

  lemma StillThere(q: multiset<Candidate>, a: seq<Candidate>, c: Candidate, b: seq<Candidate>)
    requires multiset(a + [c] + b) <= q
    ensures c in q - multiset(a)
  {
    assert multiset(a + [c] + b) == multiset(a) + multiset{c} + multiset(b);
  }

  lemma ThinnedTurn(s: Scan, thrown: seq<Candidate>)
    requires FrontierTurn(s) && forall j :: 0 <= j < |thrown| ==> thrown[j].parentDir in s.book.dirs
    ensures FrontierTurn(Thinned(s, thrown))
  {
    hide Thinned;
    ThinnedRest(s, thrown);
  }

  lemma VerdictBlocks(env: Env, s: Scan, c: Candidate, v: Verdict)
    requires Is(GateOf(env, s), s.book, c, v)
    ensures c.parentDir in s.book.dirs && (v == Throw <==> Blocked(env, s, c))
    ensures v == Wait <==> !Blocked(env, s, c) && Throttles(env, s, c)
  {
    hide Rejects;
  }

  /** What the object sends out, the transition system could request. */
  lemma ChosenHappens(env: Env, s: Scan, c: Candidate)
    requires FrontierTurn(s) && Chosen(GateOf(env, s), s.book, c)
    ensures Enabled(env, s, Requested(c))
  {
    hide Blocked, JudgedBy, Is, FrontierTurn;
    var g := GateOf(env, s);
    if Is(g, s.book, c, Go) {
      VerdictBlocks(env, s, c, Go);
    } else {
      forall x | x in s.book.queue ensures Is(g, s.book, x, Wait) && x.parentDir in s.book.dirs && !Blocked(env, s, x) && Throttles(env, s, x) {
        VerdictBlocks(env, s, x, Wait);
      }
    }
  }

  /** The object's tick, as a run: after the discards and the request the scan holds exactly the books,
      the directory and the streak that NextCandidate leaves. */
  lemma TickIsRun(env: Env, s: Scan, thrown: seq<Candidate>, c: Candidate, after: Book, lastDir: string, streak: nat)
      returns (states: seq<Scan>, events: seq<Event>)
    requires FrontierTurn(s) && Rejected(GateOf(env, s), s.book, thrown)
    requires forall j :: 0 <= j < |thrown| ==> thrown[j].parentDir in s.book.dirs
    requires Outcome(GateOf(env, s), DiscardedAll(s.book, thrown, true), Some(c), after, lastDir, streak)
    ensures IsRun(env, states, events) && states[0] == s && |events| == |thrown| + 1
    ensures events[|thrown|] == Requested(c) && forall i :: 0 <= i < |thrown| ==> events[i] == Skipped(thrown[i])
    ensures states[|events|] == s.(book := after, lastDir := lastDir, streak := streak)
  {
    hide Enabled, Next, Rejected, Chosen, FrontierTurn, Thinned, Outcome, DiscardedAll;
    var n := |thrown|;
    var t := Thinned(s, thrown);
    states := seq(n + 1, i requires 0 <= i <= n => Thinned(s, thrown[..i])) + [s.(book := after, lastDir := lastDir, streak := streak)];
    events := seq(n, i requires 0 <= i < n => Skipped(thrown[i])) + [Requested(c)];
    assert thrown[..n] == thrown;
    LastStep(env, s, thrown, c, after, lastDir, streak);
    forall i | 0 <= i < |events| ensures StepAt(env, states, events, i) {
      if i < n { SkipHappens(env, s, thrown, i); }
    }
    assert thrown[..0] == [];
    NoneThinned(s);
  }

  lemma NoneThinned(s: Scan)
    ensures Thinned(s, []) == s
  {
  }

  lemma LastStep(env: Env, s: Scan, thrown: seq<Candidate>, c: Candidate, after: Book, lastDir: string, streak: nat)
    requires FrontierTurn(s) && forall j :: 0 <= j < |thrown| ==> thrown[j].parentDir in s.book.dirs
    requires Outcome(GateOf(env, s), DiscardedAll(s.book, thrown, true), Some(c), after, lastDir, streak)
    ensures Enabled(env, Thinned(s, thrown), Requested(c))
    ensures Next(env, Thinned(s, thrown), Requested(c)) == s.(book := after, lastDir := lastDir, streak := streak)
  {
    hide Chosen, FrontierTurn, Thinned, Sent, SameGates, Dispatch, Dispatchable, DiscardedAll, Enabled, Next;
    ThinnedTurn(s, thrown);
    ThinnedRest(s, thrown);
    ThinnedBook(s, thrown);
    ChosenDir(GateOf(env, s), DiscardedAll(s.book, thrown, true), c);
    ChosenHappens(env, Thinned(s, thrown), c);
    DispatchIs(s, thrown, c);
    NextRequested(env, Thinned(s, thrown), c);
  }

  lemma NextRequested(env: Env, s: Scan, c: Candidate)
    requires c.parentDir in s.book.dirs && Enabled(env, s, Requested(c))
    ensures Next(env, s, Requested(c)) == Dispatch(s, c)
  {
    hide Dispatch, HandleReal, CollectProbe, EnqueueSeed, ApplyPin, Bar, Dispatchable, FrontierTurn;
  }

  lemma ThinnedBook(s: Scan, thrown: seq<Candidate>)
    requires forall j :: 0 <= j < |thrown| ==> thrown[j].parentDir in s.book.dirs
    ensures Thinned(s, thrown).book == DiscardedAll(s.book, thrown, true)
  {
  }

  lemma DispatchIs(s: Scan, thrown: seq<Candidate>, c: Candidate)
    requires forall j :: 0 <= j < |thrown| ==> thrown[j].parentDir in s.book.dirs
    requires c.parentDir in DiscardedAll(s.book, thrown, true).dirs
    ensures Dispatch(Thinned(s, thrown), c)
            == s.(book := Sent(DiscardedAll(s.book, thrown, true), c), lastDir := c.parentDir,
                  streak := if c.parentDir == s.lastDir then s.streak + 1 else 1)
  {
    hide Sent, DiscardedAll;
  }

  // ---- The loop -------------------------------------------------------------------------

  /** Two runs, the second from where the first ends. */
  lemma Joined(env: Env, a: seq<Scan>, ea: seq<Event>, b: seq<Scan>, eb: seq<Event>)
    requires IsRun(env, a, ea) && IsRun(env, b, eb) && a[|ea|] == b[0]
    ensures IsRun(env, a + b[1..], ea + eb) && (a + b[1..])[|ea + eb|] == b[|eb|]
  {
    hide Enabled, Next;
    var c, ec := a + b[1..], ea + eb;
    forall i | 0 <= i < |ec| ensures StepAt(env, c, ec, i) {
      if i < |ea| {
        assert StepAt(env, a, ea, i);
      } else {
        assert StepAt(env, b, eb, i - |ea|);
      }
    }
  }

  lemma OneStep(env: Env, s: Scan, e: Event)
    requires Enabled(env, s, e)
    ensures IsRun(env, [s, Next(env, s, e)], [e])
  {
    hide Enabled, Next;
    assert StepAt(env, [s, Next(env, s, e)], [e], 0);
  }

  /** The discards of a tick that found nothing to send are a run as well. */
  lemma DiscardsAreRun(env: Env, s: Scan, thrown: seq<Candidate>) returns (states: seq<Scan>, events: seq<Event>)
    requires FrontierTurn(s) && Rejected(GateOf(env, s), s.book, thrown)
    requires forall j :: 0 <= j < |thrown| ==> thrown[j].parentDir in s.book.dirs
    ensures IsRun(env, states, events) && states[0] == s && states[|events|] == Thinned(s, thrown)
  {
    hide Enabled, Next, Rejected, FrontierTurn, Thinned;
    var n := |thrown|;
    states := seq(n + 1, i requires 0 <= i <= n => Thinned(s, thrown[..i]));
    events := seq(n, i requires 0 <= i < n => Skipped(thrown[i]));
    assert thrown[..n] == thrown && thrown[..0] == [];
    NoneThinned(s);
    forall i | 0 <= i < |events| ensures StepAt(env, states, events, i) { SkipHappens(env, s, thrown, i); }
  }

  /** Whatever the frontier's turn does is a run. */
  lemma ServedIsRun(env: Env, s: Scan, thrown: seq<Candidate>, r: Option<Candidate>, t: Scan)
      returns (states: seq<Scan>, events: seq<Event>)
    requires FrontierTurn(s) && Served(env, s, thrown, r, t)
    ensures IsRun(env, states, events) && states[0] == s && states[|events|] == t
    ensures r.Some? ==> events != [] && events[|events| - 1] == Requested(r.value)
    ensures r.None? ==> t.book.queue == multiset{}
  {
    hide Rejected, FrontierTurn, DiscardedAll, Chosen, Sent, Enabled, Next;
    if r.Some? {
      states, events := TickIsRun(env, s, thrown, r.value, t.book, t.lastDir, t.streak);
    } else {
      states, events := DiscardsAreRun(env, s, thrown);
    }
  }

  lemma ProbeHappens(env: Env, s: Scan, d: string)
    requires FirstToProbe(s, d)
    ensures Enabled(env, s, ProbeSent(d)) && Next(env, s, ProbeSent(d)) == s.(book := ProbeOut(s.book, d))
  {
    hide ProbeOut, FirstToProbe;
  }

  lemma FetchHappens(env: Env, s: Scan)
    requires !ProbesWait(s) && s.harvestQueue != []
    ensures Enabled(env, s, FetchSent) && Next(env, s, FetchSent) == FetchOut(s)
  {
    hide ProbesWait, FetchOut;
  }

  /** The event a work item stands for. */
  predicate Sends(e: Event, item: WorkItem)
  {
    match item
    case Probe(dir, path) => e == ProbeSent(dir)
    case Fetch(url) => e == FetchSent
    case Real(c) => e == Requested(c)
  }

  /** A dispatch tick: whatever it discards and sends is a run of the transition system, and if it sends
      nothing there is nothing left to send. */
  method DispatchTick(c: Coordinator) returns (item: Option<WorkItem>, ghost states: seq<Scan>, ghost events: seq<Event>)
    requires c.frontier.Valid() && Inv(c.Abs().book)
    modifies c, c.frontier
    ensures c.frontier.Valid()
    ensures IsRun(c.env, states, events) && states[0] == old(c.Abs()) && states[|events|] == c.Abs()
    ensures item.Some? ==> events != [] && Sends(events[|events| - 1], item.value)
    ensures item.None? ==> FrontierTurn(old(c.Abs())) && c.Abs().book.queue == multiset{}
  {
    hide Coordinator.Abs, Frontier.Valid, Frontier.Contents, Inv, Served, Best, FrontierTurn, FirstToProbe, ProbesWait, ProbeOut, FetchOut,
         DiscardedAll, Enabled, Next, IsRun;
    ghost var s := c.Abs();
    ghost var thrown;
    item, thrown := c.NextDispatchable();
    if item.Some? && item.value.Probe? {
      ProbeHappens(c.env, s, item.value.dir);
      OneStep(c.env, s, ProbeSent(item.value.dir));
      states, events := [s, c.Abs()], [ProbeSent(item.value.dir)];
    } else if item.Some? && item.value.Fetch? {
      FetchHappens(c.env, s);
      OneStep(c.env, s, FetchSent);
      states, events := [s, c.Abs()], [FetchSent];
    } else {
      states, events := ServedIsRun(c.env, s, thrown, if item.None? then None else Some(item.value.cand), c.Abs());
    }
  }

  /** A coordinator with its root seeded is at a fresh start. */
  method Begin(env: Env, profile: nat, exts: seq<string>, producers: nat, last: real, epsilon: bool, orderJitter: bool)
      returns (c: Coordinator)
    ensures fresh(c) && fresh(c.frontier) && c.frontier.Valid() && c.env == env && Fresh(env, c.Abs())
  {
    hide Coordinator.Abs, Frontier.Valid, Frontier.Contents, StartCalibration, Blank;
    c := new Coordinator(env, profile, exts, producers, last, epsilon, orderJitter);
    c.StartCalibration("", 0);
  }

  lemma SeedHappens(env: Env, s: Scan, sd: Seed, picks: seq<Candidate>)
    requires |picks| == |Segments(sd.path)|
    ensures Enabled(env, s, Seeded(sd, picks)) && Next(env, s, Seeded(sd, picks)) == EnqueueSeed(env, s, sd, picks)
  {
    hide Segments, EnqueueSeed;
  }

  /** Seeds applied one after the other: a run, seed by seed. */
  method ApplySeeds(c: Coordinator, seeds: seq<Seed>)
      returns (ghost states: seq<Scan>, ghost events: seq<Event>, ghost picks: seq<seq<Candidate>>)
    requires c.frontier.Valid()
    modifies c, c.frontier
    ensures c.frontier.Valid() && IsRun(c.env, states, events) && states[0] == old(c.Abs()) && states[|events|] == c.Abs()
    ensures |events| == |seeds| && forall i :: 0 <= i < |seeds| ==> events[i].Seeded? && events[i].seed == seeds[i]
    ensures |picks| == |seeds| && forall i :: 0 <= i < |seeds| ==> |picks[i]| == |Segments(seeds[i].path)|
    ensures c.Abs() == Blast.ApplyBatch(c.env, old(c.Abs()), seeds, picks)
  {
    hide Coordinator.Abs, Frontier.Valid, Frontier.Contents, Segments, EnqueueSeed, Enabled, Next;
    ghost var s := c.Abs();
    picks, states, events := [], [s], [];
    var i := 0;
    while i < |seeds|
      invariant i <= |seeds| && c.frontier.Valid() && |picks| == i == |events|
      invariant forall j :: 0 <= j < i ==> |picks[j]| == |Segments(seeds[j].path)|
      invariant c.Abs() == Blast.ApplyBatch(c.env, s, seeds[..i], picks)
      invariant IsRun(c.env, states, events) && states[0] == s && states[|events|] == c.Abs()
      invariant forall j :: 0 <= j < i ==> events[j].Seeded? && events[j].seed == seeds[j]
    {
      ghost var t := c.Abs();
      ghost var p := c.EnqueueSeed(seeds[i]);
      SeedHappens(c.env, t, seeds[i], p);
      OneStep(c.env, t, Seeded(seeds[i], p));
      Joined(c.env, states, events, [t, c.Abs()], [Seeded(seeds[i], p)]);
      states, events := states + [t, c.Abs()][1..], events + [Seeded(seeds[i], p)];
      assert seeds[..i + 1][..i] == seeds[..i] && (picks + [p])[..i] == picks;
      picks := picks + [p];
      i := i + 1;
    }
    assert seeds[..i] == seeds;
  }

  /** applySeedBatch: the capped batch, seed by seed. It is a run, and however large the batch, it makes the
      tree grow by at most the cap. */
  method ApplySeedBatch(c: Coordinator, batch: seq<Seed>) returns (ghost states: seq<Scan>, ghost events: seq<Event>)
    requires c.frontier.Valid()
    modifies c, c.frontier
    ensures c.frontier.Valid() && IsRun(c.env, states, events) && states[0] == old(c.Abs()) && states[|events|] == c.Abs()
    ensures forall i :: 0 <= i < |events| ==> events[i].Seeded? && events[i].seed in batch
    ensures |c.Abs().book.dirs| <= |old(c.Abs()).book.dirs| + Blast.MAX_NEW_DIRS
  {
    hide Coordinator.Abs, Frontier.Valid, Frontier.Contents, Segments, IsRun, Blast.NewDirs, Blast.StablySorted, Blast.ApplyBatch;
    ghost var s := c.Abs();
    var sorted, kept := CappedBatch(c, batch);
    ghost var picks;
    states, events, picks := ApplySeeds(c, kept);
    Blast.BlastRadius(c.env, s, kept, picks);
  }

  /** The user's injected terms, as seeds; empty ones are passed over. */
  function Injected(terms: seq<string>): seq<Seed>
  {
    if terms == [] then []
    else if terms[0] == "" then Injected(terms[1..])
    else [Seed(terms[0], false, 1.0, "user")] + Injected(terms[1..])
  }

  /** capBatch against the coordinator's own directories. */
  method CappedBatch(c: Coordinator, batch: seq<Seed>) returns (sorted: seq<Seed>, kept: seq<Seed>)
    ensures Blast.StablySorted(batch, sorted) && kept <= sorted && forall sd :: sd in kept ==> sd in batch
    ensures |Blast.NewDirs(c.Abs().book.dirs.Keys, kept)| <= Blast.MAX_NEW_DIRS
  {
    hide Blast.NewDirs, Frontier.Contents, Blast.StablySorted;
    sorted, kept := Blast.CapBatch(c.dirs.Keys, batch);
    forall sd | sd in kept ensures sd in batch { Blast.SortedHas(batch, sorted, sd); }
  }

  /** What one turn of the loop is about: a dispatch tick, a message, a batch of seeds, or injected terms. */
  datatype Input = Tick | Received(message: Message) | Batch(seeds: seq<Seed>) | Inject(terms: seq<string>)

  /** One turn of dispatchLoop. What the object has done so far is a run of the transition system, and after
      the turn it still is: so whatever holds of all runs holds of every life of the object. */
  method Turn(c: Coordinator, input: Input, ghost states: seq<Scan>, ghost events: seq<Event>)
      returns (ghost states': seq<Scan>, ghost events': seq<Event>)
    requires c.frontier.Valid() && IsRun(c.env, states, events) && Sound(c.env, states[0]) && states[|events|] == c.Abs()
    requires input.Received? ==> Arrives(c.env, c.Abs(), input.message)
    modifies c, c.frontier
    ensures c.frontier.Valid() && IsRun(c.env, states', events') && states'[|events'|] == c.Abs()
    ensures states <= states' && events <= events'
  {
    hide Coordinator.Abs, Frontier.Valid, Frontier.Contents, Rest, Inv, Room, Places, Arrives, Delivers, Enabled, Next, StepAt, FrontierTurn, Sends;
    RunSound(c.env, states, events, |events|);
    ghost var more, steps;
    match input
    case Tick =>
      var item;
      item, more, steps := DispatchTick(c);
      Extended(c.env, states, events, more, steps);
      states', events' := states + more[1..], events + steps;
    case Received(m) =>
      ghost var s := c.Abs();
      ghost var e := c.Handle(m);
      OneStep(c.env, s, e);
      Extended(c.env, states, events, [s, c.Abs()], [e]);
      states', events' := states + [s, c.Abs()][1..], events + [e];
    case Batch(seeds) =>
      more, steps := ApplySeedBatch(c, seeds);
      Extended(c.env, states, events, more, steps);
      states', events' := states + more[1..], events + steps;
    case Inject(terms) =>
      ghost var picks;
      more, steps, picks := ApplySeeds(c, Injected(terms));
      Extended(c.env, states, events, more, steps);
      states', events' := states + more[1..], events + steps;
  }

  lemma Extended(env: Env, a: seq<Scan>, ea: seq<Event>, b: seq<Scan>, eb: seq<Event>)
    requires IsRun(env, a, ea) && IsRun(env, b, eb) && a[|ea|] == b[0]
    ensures IsRun(env, a + b[1..], ea + eb) && (a + b[1..])[|ea + eb|] == b[|eb|]
    ensures a <= a + b[1..] && ea <= ea + eb
  {
    hide IsRun;
    Joined(env, a, ea, b, eb);
  }
}
