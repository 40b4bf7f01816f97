/** The goroutines around the coordinator and the channels between them, as interleaved steps:
    workers, harvest producers, and callers of the control interface. */
module Channels {
  import opened ScanTypes

  const CONTROL_CAP: nat := 32

  /** A producer with sends left to make; `blocked` while it waits on one. */
  datatype Producer = Producer(todo: nat, blocked: bool, ended: bool)

  /** A control caller: waiting for room, waiting for a snapshot, or back. */
  datatype Caller = Submitting(snapshot: bool) | Awaiting | Returned

  /** `work` and `results` are the items in the two buffered channels, `busy` and `ready` the workers
      with a request out and with a result to hand back, `holding` whether dispatch has an item it
      could not hand off yet. `slots` is the injection channel's capacity: none in the engine. */
  datatype Net = Net(
    cap: nat, workers: nat,
    work: nat, busy: nat, ready: nat, results: nat, holding: bool, inFlight: int,
    slots: nat, buffered: nat, producers: seq<Producer>, pending: int, promised: nat, applied: nat,
    control: seq<Option<nat>>, callers: seq<Caller>,
    finished: bool)

  datatype Step =
    | Tick                            // dispatch begins to hand out one item
    | HandOff                         // the item is in workCh
    | Receive(spawns: seq<nat>)       // a result is handled; producers with so many sends may start
    | Take                            // an idle worker takes an item
    | Complete                        // a request is answered, or times out
    | Deliver                         // a worker's result is in resultsCh
    | Begin(i: nat)                   // a producer reaches its next send
    | Rendezvous(i: nat)              // the coordinator receives and applies it
    | Buffer(i: nat)                  // with a buffered channel, the send is merely stored
    | Drain                           // and applied later
    | End(i: nat)                     // a producer is done
    | Submit(i: nat)                  // a caller's command is queued
    | Apply                           // the coordinator applies a command
    | GiveUp(i: nat)                  // a caller sees that the scan is over
    | Finish                          // the finish test holds, and Run returns

  function Spawned(spawns: seq<nat>): seq<Producer>
  {
    seq(|spawns|, i requires 0 <= i < |spawns| => Producer(spawns[i], false, false))
  }

  function Total(spawns: seq<nat>): nat
  {
    if spawns == [] then 0 else Total(spawns[..|spawns| - 1]) + spawns[|spawns| - 1]
  }

  predicate Enabled(n: Net, e: Step)
  {
    match e
    case Tick => !n.finished && !n.holding
    case HandOff => n.holding && n.work < n.cap
    case Receive(spawns) => !n.finished && n.results > 0
    case Take => n.work > 0 && n.busy + n.ready < n.workers
    case Complete => n.busy > 0
    case Deliver => n.ready > 0 && n.results < n.cap
    case Begin(i) => i < |n.producers| && !n.producers[i].blocked && n.producers[i].todo > 0
    case Rendezvous(i) => !n.finished && !n.holding && i < |n.producers| && n.producers[i].blocked && n.slots == 0
    case Buffer(i) => i < |n.producers| && n.producers[i].blocked && n.buffered < n.slots
    case Drain => !n.finished && !n.holding && n.buffered > 0
    case End(i) => i < |n.producers| && n.producers[i].todo == 0 && !n.producers[i].ended
    case Submit(i) => i < |n.callers| && n.callers[i].Submitting? && |n.control| < CONTROL_CAP
    case Apply => !n.finished && !n.holding && n.control != []
    case GiveUp(i) => n.finished && i < |n.callers| && !n.callers[i].Returned?
    case Finish => !n.finished && !n.holding && n.inFlight == 0 && n.pending == 0
  }

  function Sent(p: Producer): Producer
  {
    p.(todo := if p.todo > 0 then p.todo - 1 else 0, blocked := false)
  }

  function Next(n: Net, e: Step): Net
    requires Enabled(n, e)
  {
    match e
    case Tick => n.(holding := true, inFlight := n.inFlight + 1)
    case HandOff => n.(holding := false, work := n.work + 1)
    case Receive(spawns) =>
      n.(results := n.results - 1, inFlight := n.inFlight - 1, producers := n.producers + Spawned(spawns),
         pending := n.pending + |spawns|, promised := n.promised + Total(spawns))
    case Take => n.(work := n.work - 1, busy := n.busy + 1)
    case Complete => n.(busy := n.busy - 1, ready := n.ready + 1)
    case Deliver => n.(ready := n.ready - 1, results := n.results + 1)
    case Begin(i) => n.(producers := n.producers[i := n.producers[i].(blocked := true)])
    case Rendezvous(i) => n.(producers := n.producers[i := Sent(n.producers[i])], applied := n.applied + 1)
    case Buffer(i) => n.(producers := n.producers[i := Sent(n.producers[i])], buffered := n.buffered + 1)
    case Drain => n.(buffered := n.buffered - 1, applied := n.applied + 1)
    case End(i) => n.(producers := n.producers[i := n.producers[i].(ended := true)], pending := n.pending - 1)
    case Submit(i) =>
      n.(control := n.control + [if n.callers[i].snapshot then Some(i) else None],
         callers := n.callers[i := if n.callers[i].snapshot then Awaiting else Returned])
    case Apply =>
      var c := n.control[0];
      n.(control := n.control[1..],
         callers := if c.Some? && c.value < |n.callers| then n.callers[c.value := Returned] else n.callers)
    case GiveUp(i) => n.(callers := n.callers[i := Returned])
    case Finish => n.(finished := true)
  }

  /** Some workers, channels to match, producers and callers already there. */
  predicate Start(n: Net, spawns: seq<nat>)
  {
    && n.cap > 0 && n.workers > 0 && n.work == n.busy == n.ready == n.results == 0 && !n.holding && n.inFlight == 0
    && n.buffered == 0 && n.producers == Spawned(spawns) && n.pending == |spawns| && n.promised == Total(spawns) && n.applied == 0
    && n.control == [] && (forall i :: 0 <= i < |n.callers| ==> n.callers[i].Submitting?) && !n.finished
  }

  ghost predicate IsRun(nets: seq<Net>, steps: seq<Step>)
  {
    |nets| == |steps| + 1 && forall i :: 0 <= i < |steps| ==> RunStep(nets, steps, i)
  }

  ghost predicate RunStep(nets: seq<Net>, steps: seq<Step>, i: nat)
    requires |nets| == |steps| + 1 && i < |steps|
  {
    Enabled(nets[i], steps[i]) && nets[i + 1] == Next(nets[i], steps[i])
  }

  lemma PrefixRun(nets: seq<Net>, steps: seq<Step>)
    requires IsRun(nets, steps) && steps != []
    ensures var k := |steps| - 1; IsRun(nets[..k + 1], steps[..k]) && RunStep(nets, steps, k)
  {
    hide Enabled, Next;
    var k := |steps| - 1;
    var nets', steps' := nets[..k + 1], steps[..k];
    forall i | 0 <= i < k ensures RunStep(nets', steps', i) { assert RunStep(nets, steps, i); }
    assert RunStep(nets, steps, k);
  }

  // ---- The invariant --------------------------------------------------------------------

  ghost function Live(ps: seq<Producer>): nat
  {
    if ps == [] then 0 else Live(ps[..|ps| - 1]) + if ps[|ps| - 1].ended then 0 else 1
  }

  ghost function Todo(ps: seq<Producer>): nat
  {
    if ps == [] then 0 else Todo(ps[..|ps| - 1]) + ps[|ps| - 1].todo
  }

  /** inFlight counts exactly what is on its way somewhere. */
  ghost predicate Counted(n: Net)
  {
    && n.inFlight == n.work + n.busy + n.ready + n.results + (if n.holding then 1 else 0)
    && n.work <= n.cap && n.results <= n.cap && n.busy + n.ready <= n.workers && n.cap > 0 && n.workers > 0
  }

  /** Each producer ends with nothing left to send; each promised send is applied, stored or to come. */
  ghost predicate Producing(n: Net)
  {
    && (forall i :: 0 <= i < |n.producers| ==>
          (n.producers[i].ended ==> n.producers[i].todo == 0) && (n.producers[i].blocked ==> n.producers[i].todo > 0))
    && n.pending == Live(n.producers) && n.promised == n.applied + n.buffered + Todo(n.producers)
    && n.buffered <= n.slots
  }

  /** The command of a caller awaiting its snapshot is queued with the coordinator. */
  ghost predicate Queued(n: Net)
  {
    && |n.control| <= CONTROL_CAP
    && forall i :: 0 <= i < |n.callers| && n.callers[i].Awaiting? ==> Some(i) in n.control
  }

  ghost predicate Inv(n: Net) { Counted(n) && Producing(n) && Queued(n) }

  lemma {:induction false} LiveUpdate(ps: seq<Producer>, i: nat, p: Producer)
    requires i < |ps|
    ensures Live(ps[i := p]) == Live(ps) - (if ps[i].ended then 0 else 1) + (if p.ended then 0 else 1)
    ensures Todo(ps[i := p]) == Todo(ps) - ps[i].todo + p.todo
  {
    var n := |ps| - 1;
    if i < n {
      LiveUpdate(ps[..n], i, p);
      assert ps[i := p][..n] == ps[..n][i := p];
    } else {
      assert ps[i := p][..n] == ps[..n];
    }
  }

  lemma {:induction false} LiveAppend(ps: seq<Producer>, spawns: seq<nat>)
    ensures Live(ps + Spawned(spawns)) == Live(ps) + |spawns| && Todo(ps + Spawned(spawns)) == Todo(ps) + Total(spawns)
  {
    var all := ps + Spawned(spawns);
    if spawns == [] {
      assert all == ps;
    } else {
      var n := |spawns| - 1;
      LiveAppend(ps, spawns[..n]);
      assert all[..|all| - 1] == ps + Spawned(spawns[..n]);
    }
  }

  lemma {:induction false} AllEnded(ps: seq<Producer>)
    requires forall i :: 0 <= i < |ps| ==> ps[i].ended ==> ps[i].todo == 0
    ensures Live(ps) == 0 ==> Todo(ps) == 0 && forall i :: 0 <= i < |ps| ==> ps[i].ended
  {
    if ps != [] {
      var n := |ps| - 1;
      AllEnded(ps[..n]);
      if Live(ps) == 0 {
        forall i | 0 <= i < |ps| ensures ps[i].ended { if i < n { assert ps[..n][i] == ps[i]; } }
      }
    }
  }

  lemma StepCounted(n: Net, e: Step)
    requires Counted(n) && Enabled(n, e)
    ensures Counted(Next(n, e))
  {
    hide Total, Spawned;
  }

  lemma StepProducing(n: Net, e: Step)
    requires Producing(n) && Enabled(n, e)
    ensures Producing(Next(n, e))
  {
    hide Live, Todo, Total;
    match e
    case Receive(spawns) => LiveAppend(n.producers, spawns);
    case Begin(i) => LiveUpdate(n.producers, i, n.producers[i].(blocked := true));
    case Rendezvous(i) => LiveUpdate(n.producers, i, Sent(n.producers[i]));
    case Buffer(i) => LiveUpdate(n.producers, i, Sent(n.producers[i]));
    case End(i) => LiveUpdate(n.producers, i, n.producers[i].(ended := true));
    case _ =>
  }

  lemma StepQueued(n: Net, e: Step)
    requires Queued(n) && Enabled(n, e)
    ensures Queued(Next(n, e))
  {
    hide Total, Spawned;
    var r := Next(n, e);
    forall i | 0 <= i < |r.callers| && r.callers[i].Awaiting? ensures Some(i) in r.control {
      if e.Submit? && i == e.i {
        assert r.control[|n.control|] == Some(i);
      } else {
        var k :| 0 <= k < |n.control| && n.control[k] == Some(i);
        if e.Apply? {
          assert k > 0 && r.control[k - 1] == Some(i);
        } else {
          assert r.control[k] == Some(i);
        }
      }
    }
  }

  lemma StartInv(n: Net, spawns: seq<nat>)
    requires Start(n, spawns)
    ensures Inv(n)
  {
    LiveAppend([], spawns);
    assert [] + Spawned(spawns) == Spawned(spawns);
  }

  lemma {:induction false} RunInv(nets: seq<Net>, steps: seq<Step>, spawns: seq<nat>, i: nat)
    requires IsRun(nets, steps) && Start(nets[0], spawns) && i < |nets|
    ensures Inv(nets[i])
  {
    hide Enabled, Next, Counted, Producing, Queued;
    if i == 0 {
      StartInv(nets[0], spawns);
    } else {
      RunInv(nets, steps, spawns, i - 1);
      assert RunStep(nets, steps, i - 1);
      StepCounted(nets[i - 1], steps[i - 1]);
      StepProducing(nets[i - 1], steps[i - 1]);
      StepQueued(nets[i - 1], steps[i - 1]);
    }
  }

  // ---- No deadlock ----------------------------------------------------------------------

  /** A step of the coordinator or a worker that moves an item along. */
  predicate Moves(e: Step)
  {
    e.HandOff? || e.Receive? || e.Take? || e.Complete? || e.Deliver?
  }

  /** While anything is on its way and Run has not returned, an item can move: the coordinator and the
      workers never deadlock, not even with both channels full and dispatch blocked. */
  lemma NoDeadlock(n: Net) returns (e: Step)
    requires Counted(n) && !n.finished && n.inFlight > 0
    ensures Enabled(n, e) && Moves(e)
  {
    if n.results > 0 {
      e := Receive([]);
    } else if n.ready > 0 {
      e := Deliver;
    } else if n.busy > 0 {
      e := Complete;
    } else if n.work > 0 {
      e := Take;
    } else {
      e := HandOff;
    }
  }

  /** How many moves are left before everything on its way has been handled. */
  function Distance(n: Net): nat
  {
    (if n.holding then 5 else 0) + 4 * n.work + 3 * n.busy + 2 * n.ready + n.results
  }

  lemma MovesGetCloser(n: Net, e: Step)
    requires Enabled(n, e)
    ensures Moves(e) ==> Distance(Next(n, e)) < Distance(n)
    ensures !Moves(e) && !e.Tick? ==> Distance(Next(n, e)) == Distance(n)
  {
  }

  ghost function MoveCount(steps: seq<Step>): nat
  {
    if steps == [] then 0 else MoveCount(steps[..|steps| - 1]) + if Moves(steps[|steps| - 1]) then 1 else 0
  }

  /** A dispatch completes: until its hand-off no new item sets out, so the others can make at most so
      many moves before nothing but the hand-off is left. */
  lemma {:induction false} DispatchCompletes(nets: seq<Net>, steps: seq<Step>)
    requires IsRun(nets, steps) && nets[0].holding && forall i :: 0 <= i < |steps| ==> !steps[i].HandOff?
    ensures MoveCount(steps) + Distance(nets[|steps|]) <= Distance(nets[0]) && nets[|steps|].holding
  {
    hide Distance, Moves;
    if steps != [] {
      var k := |steps| - 1;
      PrefixRun(nets, steps);
      DispatchCompletes(nets[..k + 1], steps[..k]);
      MovesGetCloser(nets[k], steps[k]);
    }
  }

  // ---- Finishing ------------------------------------------------------------------------

  /** The scan finishes only with every worker idle, both channels empty, every producer ended and,
      the injection channel being unbuffered, every promised batch applied. */
  lemma FinishIsClean(n: Net)
    requires Inv(n) && Enabled(n, Finish)
    ensures n.work == n.busy == n.ready == n.results == 0 && !n.holding
    ensures forall i :: 0 <= i < |n.producers| ==> n.producers[i].ended
    ensures n.slots == 0 ==> n.applied == n.promised
  {
    AllEnded(n.producers);
  }

  /** With room for even one stored batch that would not be so: a run that finishes with a batch that
      was sent and never applied. */
  lemma BufferingWouldLose(cap: nat, slots: nat) returns (nets: seq<Net>, steps: seq<Step>)
    requires cap > 0 && slots > 0
    ensures |nets| == |steps| + 1 && IsRun(nets, steps) && Start(nets[0], [1]) && nets[0].slots == slots
    ensures nets[|steps|].finished && nets[|steps|].applied < nets[|steps|].promised
  {
    assert Total([1]) == 1 by { assert [1][..0] == []; }
    var n0 := Net(cap, cap, 0, 0, 0, 0, false, 0, slots, 0, Spawned([1]), 1, 1, 0, [], [], false);
    var n1 := Next(n0, Begin(0));
    var n2 := Next(n1, Buffer(0));
    var n3 := Next(n2, End(0));
    var n4 := Next(n3, Finish);
    nets, steps := [n0, n1, n2, n3, n4], [Begin(0), Buffer(0), End(0), Finish];
  }

  /** While the scan runs, a blocked producer is received as soon as dispatch is not holding an item. */
  lemma ProducerIsReceived(n: Net, i: nat)
    requires Inv(n) && n.slots == 0 && !n.finished && i < |n.producers| && n.producers[i].blocked
    ensures Enabled(n, Rendezvous(i)) || n.holding
    ensures n.pending > 0
  {
    AllEnded(n.producers);
  }

  // ---- Control callers ------------------------------------------------------------------

  /** Callers that have not come back. */
  ghost function Waiting(cs: seq<Caller>): nat
  {
    if cs == [] then 0 else Waiting(cs[..|cs| - 1]) + if cs[|cs| - 1].Returned? then 0 else 1
  }

  lemma {:induction false} WaitingUpdate(cs: seq<Caller>, i: nat, c: Caller)
    requires i < |cs|
    ensures Waiting(cs[i := c]) == Waiting(cs) - (if cs[i].Returned? then 0 else 1) + (if c.Returned? then 0 else 1)
  {
    var n := |cs| - 1;
    if i < n {
      WaitingUpdate(cs[..n], i, c);
      assert cs[i := c][..n] == cs[..n][i := c];
    } else {
      assert cs[i := c][..n] == cs[..n];
    }
  }

  lemma {:induction false} SomeoneWaits(cs: seq<Caller>) returns (i: nat)
    requires Waiting(cs) > 0
    ensures i < |cs| && !cs[i].Returned?
  {
    var n := |cs| - 1;
    if cs[n].Returned? { i := SomeoneWaits(cs[..n]); } else { i := n; }
  }

  lemma {:induction false} NoneWait(cs: seq<Caller>)
    ensures Waiting(cs) == 0 <==> forall i :: 0 <= i < |cs| ==> cs[i].Returned?
  {
    if cs != [] {
      var n := |cs| - 1;
      NoneWait(cs[..n]);
      assert forall i :: 0 <= i < n ==> cs[..n][i] == cs[i];
    }
  }

  ghost function GiveUps(steps: seq<Step>): nat
  {
    if steps == [] then 0 else GiveUps(steps[..|steps| - 1]) + if steps[|steps| - 1].GiveUp? then 1 else 0
  }

  /** A step after the finish brings no caller back into waiting, and each giving up takes one out of it. */
  lemma StepWaits(n: Net, e: Step)
    requires n.finished && Enabled(n, e)
    ensures Next(n, e).finished && Waiting(Next(n, e).callers) + (if e.GiveUp? then 1 else 0) <= Waiting(n.callers)
  {
    hide Waiting, Spawned, Total;
    if e.Submit? || e.GiveUp? { WaitingUpdate(n.callers, e.i, Next(n, e).callers[e.i]); }
  }

  /** Once Run has returned every caller comes back: callers give up at most as often as some are waiting, and
      as long as one has not come back, one can give up. */
  lemma {:induction false} EveryCallerReturns(nets: seq<Net>, steps: seq<Step>)
    requires IsRun(nets, steps) && nets[0].finished
    ensures var n := nets[|steps|];
            && n.finished && GiveUps(steps) + Waiting(n.callers) <= Waiting(nets[0].callers)
            && ((forall i :: 0 <= i < |n.callers| ==> n.callers[i].Returned?) || exists i :: Enabled(n, GiveUp(i)))
  {
    hide Next, Waiting;
    if steps != [] {
      var k := |steps| - 1;
      PrefixRun(nets, steps);
      EveryCallerReturns(nets[..k + 1], steps[..k]);
      StepWaits(nets[k], steps[k]);
    }
    var n := nets[|steps|];
    NoneWait(n.callers);
    if Waiting(n.callers) > 0 {
      var i := SomeoneWaits(n.callers);
      assert Enabled(n, GiveUp(i));
    }
  }

  ghost function Applies(steps: seq<Step>): nat
  {
    if steps == [] then 0 else Applies(steps[..|steps| - 1]) + if steps[|steps| - 1].Apply? then 1 else 0
  }

  /** A queued command either has been applied, its caller back, or has moved up by one for each that was. */
  lemma {:induction false} MovesUp(nets: seq<Net>, steps: seq<Step>, i: nat, k: nat)
    requires IsRun(nets, steps) && i < |nets[0].callers| && k < |nets[0].control| && nets[0].control[k] == Some(i)
    ensures var n, a := nets[|steps|], Applies(steps);
            && |n.callers| == |nets[0].callers|
            && if a > k then n.callers[i].Returned? else k - a < |n.control| && n.control[k - a] == Some(i)
  {
    if steps != [] {
      hide Enabled, Next, RunStep;
      var m := |steps| - 1;
      PrefixRun(nets, steps);
      MovesUp(nets[..m + 1], steps[..m], i, k);
      StepMovesUp(nets[m], steps[m], i, k - Applies(steps[..m]));
    }
  }

  lemma StepMovesUp(n: Net, e: Step, i: nat, k: int)
    requires Enabled(n, e) && i < |n.callers| && k < |n.control|
    requires if k < 0 then n.callers[i].Returned? else n.control[k] == Some(i)
    ensures var r, k' := Next(n, e), k - if e.Apply? then 1 else 0;
            && |r.callers| == |n.callers|
            && if k' < 0 then r.callers[i].Returned? else k' < |r.control| && r.control[k'] == Some(i)
  {
    hide Total, Spawned;
  }

  /** While the scan runs, a caller awaiting its snapshot is answered: its command is queued, at most 31 are
      before it, it is back once they and it have been applied, and unless dispatch holds an item the next one can be. */
  lemma CallerIsAnswered(before: seq<Net>, first: seq<Step>, spawns: seq<nat>, nets: seq<Net>, steps: seq<Step>, i: nat) returns (k: nat)
    requires IsRun(before, first) && Start(before[0], spawns) && IsRun(nets, steps) && nets[0] == before[|first|]
    requires i < |nets[0].callers| && nets[0].callers[i].Awaiting?
    ensures k < |nets[0].control| <= CONTROL_CAP && |nets[|steps|].callers| == |nets[0].callers|
    ensures Applies(steps) > k ==> nets[|steps|].callers[i].Returned?
    ensures var n := nets[|steps|]; Applies(steps) > k || n.finished || n.holding || Enabled(n, Apply)
  {
    hide Next, Counted, Producing;
    RunInv(before, first, spawns, |first|);
    k :| 0 <= k < |nets[0].control| && nets[0].control[k] == Some(i);
    MovesUp(nets, steps, i, k);
  }

  /** The done channel is what that takes: after the finish a caller awaiting a snapshot has no other way back. */
  lemma OnlyGivingUp(n: Net, i: nat, e: Step)
    requires n.finished && i < |n.callers| && n.callers[i].Awaiting? && Enabled(n, e) && e != GiveUp(i)
    ensures i < |Next(n, e).callers| && Next(n, e).callers[i].Awaiting?
  {
  }
}
