/** One hub client's outbound buffers: an important lane that is never dropped, a latest lane that
    keeps the newest of each kind, and a hit lane that folds its overflow into a count. */
module HubClient {
  import opened ScanTypes

  const CLIENT_BUF_CAP: nat := 256

  /** A number as JSON takes it, or one that it does not: an infinity or a NaN. */
  datatype Num = Finite(value: real) | NotFinite

  /** A raw payload: none, or some bytes, which are JSON or not. */
  datatype Raw = NoPayload | Json | Garbage

  /** An event; `body` stands for the fields that always encode. */
  datatype Ev = Ev(kind: string, body: int, year: int, confidence: Num, tech: seq<Num>, payload: Raw)
  datatype Lane = ImportantLane | LatestLane | HitLane
  datatype Message = Single(ev: Ev) | Coalesced(count: nat)

  function Classify(ev: Ev): Lane
  {
    if ev.kind == "stats" || ev.kind == "frontier.snapshot" then LatestLane
    else if ev.kind == "hit" then HitLane
    else ImportantLane
  }

  /** What marshalEvent can write: years of four digits, finite numbers and a payload that is JSON. A
      count of folded hits always encodes. */
  predicate Encodes(m: Message)
  {
    m.Single? ==>
      && 0 <= m.ev.year <= 9999 && m.ev.confidence.Finite? && m.ev.payload != Garbage
      && forall i :: 0 <= i < |m.ev.tech| ==> m.ev.tech[i].Finite?
  }

  datatype Buffers = Buffers(important: seq<Ev>, latest: map<string, Ev>, hits: seq<Ev>, hitDropped: nat)

  predicate Pending(b: Buffers)
  {
    b.important != [] || b.latest != map[] || b.hitDropped > 0 || b.hits != []
  }

  function Offered(b: Buffers, ev: Ev): Buffers
  {
    match Classify(ev)
    case LatestLane => b.(latest := b.latest[ev.kind := ev])
    case HitLane =>
      if |b.hits| >= CLIENT_BUF_CAP then b.(hits := b.hits[1..] + [ev], hitDropped := b.hitDropped + 1)
      else b.(hits := b.hits + [ev])
    case ImportantLane => b.(important := b.important + [ev])
  }

  /** What next() pops; `kind` is the latest kind the map yields, when that lane's turn comes. */
  function Popped(b: Buffers, kind: string): (Option<Message>, Buffers)
  {
    if b.important != [] then (Some(Single(b.important[0])), b.(important := b.important[1..]))
    else if kind in b.latest then (Some(Single(b.latest[kind])), b.(latest := b.latest - {kind}))
    else if b.hitDropped > 0 then (Some(Coalesced(b.hitDropped)), b.(hitDropped := 0))
    else if b.hits != [] then (Some(Single(b.hits[0])), b.(hits := b.hits[1..]))
    else (None, b)
  }

  /** The choice is one the code could make: a present kind when only that lane's turn has come. */
  predicate MayPop(b: Buffers, kind: string)
  {
    b.important == [] && b.latest != map[] ==> kind in b.latest
  }

  /** The client object: the hub's goroutine enqueues, the sender's goroutine takes. */
  class Client {
    var important: seq<Ev>
    var latest: map<string, Ev>
    var hits: seq<Ev>
    var hitDropped: nat
    var closed: bool
    /** The one-slot wake channel. */
    var wake: bool

    constructor ()
      ensures Bufs() == Buffers([], map[], [], 0) && !closed && !wake
    {
      important, latest, hits, hitDropped, closed, wake := [], map[], [], 0, false, false;
    }

    function Bufs(): Buffers
      reads this
    {
      Buffers(important, latest, hits, hitDropped)
    }

    method Enqueue(ev: Ev) returns (kept: bool)
      modifies this
      ensures closed == old(closed)
      ensures old(closed) ==> !kept && Bufs() == old(Bufs()) && wake == old(wake)
      ensures !old(closed) ==> Bufs() == Offered(old(Bufs()), ev) && wake
      ensures !old(closed) ==> (kept <==> !(Classify(ev).HitLane? && |old(hits)| >= CLIENT_BUF_CAP))
    {
      var dropped := false;
      if closed { return false; }
      match Classify(ev) {
        case LatestLane => latest := latest[ev.kind := ev];
        case HitLane =>
          if |hits| >= CLIENT_BUF_CAP {
            hits := hits[1..];
            hitDropped := hitDropped + 1;
            dropped := true;
          }
          hits := hits + [ev];
        case ImportantLane => important := important + [ev];
      }
      wake := true;
      kept := !dropped;
    }

    /** next(): the most urgent message, taken out whether or not it can be encoded. */
    method Next() returns (msg: Option<Message>, ok: bool, ghost kind: string)
      modifies this`important, this`latest, this`hits, this`hitDropped
      ensures MayPop(old(Bufs()), kind) && (msg, Bufs()) == Popped(old(Bufs()), kind)
      ensures ok <==> msg.Some? && Encodes(msg.value)
      ensures msg.None? <==> !Pending(old(Bufs()))
    {
      kind := "";
      if |important| > 0 {
        msg := Some(Single(important[0]));
        important := important[1..];
      } else if latest != map[] {
        var k :| k in latest;
        kind := k;
        msg := Some(Single(latest[k]));
        latest := latest - {k};
      } else if hitDropped > 0 {
        msg := Some(Coalesced(hitDropped));
        hitDropped := 0;
      } else if |hits| > 0 {
        msg := Some(Single(hits[0]));
        hits := hits[1..];
      } else {
        return None, false, "";
      }
      ok := Encodes(msg.value);
    }

    method Shutdown()
      modifies this`closed
      ensures closed
    {
      closed := true;
    }
  }

  // ---- The two goroutines, interleaved --------------------------------------------------

  /** The client between the hub and its sender. `signalling` while the hub is between its unlock and
      its wake signal; `draining` while the sender is in its inner loop. `accepted` and `taken` are history:
      what was offered while open, and what the sender has popped, in order. */
  datatype World = World(buf: Buffers, closed: bool, wake: bool, signalling: bool, draining: bool,
                         accepted: seq<Ev>, taken: seq<Message>)

  datatype Step = Offer(ev: Ev) | Signal | Wake | Take(kind: string) | Close

  predicate Enabled(w: World, e: Step)
  {
    match e
    case Offer(ev) => !w.signalling
    case Signal => w.signalling
    case Wake => !w.draining && w.wake && !w.closed
    case Take(kind) => w.draining && MayPop(w.buf, kind)
    case Close => !w.signalling
  }

  function Next(w: World, e: Step): World
  {
    match e
    case Offer(ev) =>
      if w.closed then w
      else w.(buf := Offered(w.buf, ev), signalling := true, accepted := w.accepted + [ev])
    case Signal => w.(wake := true, signalling := false)
    case Wake => w.(wake := false, draining := true)
    case Take(kind) =>
      var (msg, rest) := Popped(w.buf, kind);
      if msg.None? then w.(draining := false)
      else w.(buf := rest, draining := Encodes(msg.value), taken := w.taken + [msg.value])
    case Close => w.(closed := true)
  }

  const INITIAL: World := World(Buffers([], map[], [], 0), false, false, false, false, [], [])

  ghost predicate IsRun(worlds: seq<World>, steps: seq<Step>)
  {
    && |worlds| == |steps| + 1 && worlds[0] == INITIAL
    && forall i :: 0 <= i < |steps| ==> RunStep(worlds, steps, i)
  }

  ghost predicate RunStep(worlds: seq<World>, steps: seq<Step>, i: nat)
    requires |worlds| == |steps| + 1 && i < |steps|
  {
    Enabled(worlds[i], steps[i]) && worlds[i + 1] == Next(worlds[i], steps[i])
  }

  // ---- Lanes of a history ---------------------------------------------------------------

  /** The events of one lane, in order. */
  ghost function OfLane(evs: seq<Ev>, lane: Lane): seq<Ev>
  {
    if evs == [] then []
    else
      var n := |evs| - 1;
      OfLane(evs[..n], lane) + if Classify(evs[n]) == lane then [evs[n]] else []
  }

  /** The single events among these messages. */
  ghost function Singles(ms: seq<Message>): seq<Ev>
  {
    if ms == [] then []
    else
      var n := |ms| - 1;
      Singles(ms[..n]) + if ms[n].Single? then [ms[n].ev] else []
  }

  /** The counts of the coalesced messages. */
  ghost function Folded(ms: seq<Message>): nat
  {
    if ms == [] then 0
    else
      var n := |ms| - 1;
      Folded(ms[..n]) + if ms[n].Coalesced? then ms[n].count else 0
  }

  /** a is b with some elements left out. */
  ghost predicate Subsequence(a: seq<Ev>, b: seq<Ev>)
  {
    a == [] || (b != [] && ((a[|a| - 1] == b[|b| - 1] && Subsequence(a[..|a| - 1], b[..|b| - 1]))
                            || Subsequence(a, b[..|b| - 1])))
  }

  lemma {:induction false} SubsequenceDrops(a: seq<Ev>, b: seq<Ev>, i: nat)
    requires Subsequence(a, b) && i < |a|
    ensures Subsequence(a[..i] + a[i + 1..], b)
    decreases |b|
  {
    var n, m := |a| - 1, |b| - 1;
    var c := a[..i] + a[i + 1..];
    if a[n] == b[m] && Subsequence(a[..n], b[..m]) {
      if i == n {
        assert c == a[..n];
        SubsequenceWeakens(a[..n], b);
      } else {
        SubsequenceDrops(a[..n], b[..m], i);
        assert c[..|c| - 1] == a[..n][..i] + a[..n][i + 1..];
      }
    } else {
      SubsequenceDrops(a, b[..m], i);
    }
  }

  lemma SubsequenceWeakens(a: seq<Ev>, b: seq<Ev>)
    requires b != [] && Subsequence(a, b[..|b| - 1])
    ensures Subsequence(a, b)
  {
  }

  lemma SubsequenceExtends(a: seq<Ev>, b: seq<Ev>, ev: Ev)
    requires Subsequence(a, b)
    ensures Subsequence(a + [ev], b + [ev]) && Subsequence(a, b + [ev])
  {
    assert (a + [ev])[..|a|] == a && (b + [ev])[..|b|] == b;
  }

  /** The last event of one kind. */
  ghost predicate Newest(evs: seq<Ev>, ev: Ev)
  {
    exists i :: 0 <= i < |evs| && evs[i] == ev && forall j :: i < j < |evs| ==> evs[j].kind != ev.kind
  }

  // ---- The invariant --------------------------------------------------------------------

  /** The important lane is lossless and in order: what was taken and what is buffered is what came. */
  ghost predicate ImportantKept(w: World)
  {
    OfLane(Singles(w.taken), ImportantLane) + w.buf.important == OfLane(w.accepted, ImportantLane)
  }

  /** Every hit has been taken, folded into a count that was taken or into the one that waits, or is buffered;
      in order; at most 256 wait. */
  ghost predicate HitsKept(w: World)
  {
    var mine := OfLane(Singles(w.taken), HitLane);
    && |OfLane(w.accepted, HitLane)| == |mine| + Folded(w.taken) + w.buf.hitDropped + |w.buf.hits|
    && Subsequence(mine + w.buf.hits, OfLane(w.accepted, HitLane))
    && |w.buf.hits| <= CLIENT_BUF_CAP
  }

  /** The newest event of a latest kind is the buffered one, or has been taken. */
  ghost predicate LatestKept(w: World)
  {
    && (forall k :: k in w.buf.latest ==> w.buf.latest[k].kind == k && Newest(w.accepted, w.buf.latest[k]))
    && forall ev :: Classify(ev) == LatestLane && Newest(w.accepted, ev) ==>
         (ev.kind in w.buf.latest && w.buf.latest[ev.kind] == ev) || (ev.kind !in w.buf.latest && ev in Singles(w.taken))
  }

  /** The buffers hold only events of their own lane. */
  ghost predicate Sorted(b: Buffers)
  {
    && (forall i :: 0 <= i < |b.important| ==> Classify(b.important[i]) == ImportantLane)
    && (forall i :: 0 <= i < |b.hits| ==> Classify(b.hits[i]) == HitLane)
    && forall k :: k in b.latest ==> Classify(b.latest[k]) == LatestLane
  }

  ghost predicate Kept(w: World)
  {
    Sorted(w.buf) && ImportantKept(w) && HitsKept(w) && LatestKept(w)
  }

  /** A sender at rest with something to send has a wake token, or is about to get one. */
  ghost predicate Awake(w: World)
  {
    !w.draining && !w.closed && Pending(w.buf) ==> w.wake || w.signalling
  }

  lemma LaneSnoc(evs: seq<Ev>, ev: Ev, lane: Lane)
    ensures OfLane(evs + [ev], lane) == if Classify(ev) == lane then OfLane(evs, lane) + [ev] else OfLane(evs, lane)
  {
    assert (evs + [ev])[..|evs|] == evs;
  }

  lemma TakenSnoc(ms: seq<Message>, m: Message)
    ensures Singles(ms + [m]) == if m.Single? then Singles(ms) + [m.ev] else Singles(ms)
    ensures Folded(ms + [m]) == Folded(ms) + if m.Coalesced? then m.count else 0
  {
    assert (ms + [m])[..|ms|] == ms;
  }

  lemma OfferImportant(w: World, ev: Ev)
    requires ImportantKept(w)
    ensures ImportantKept(w.(buf := Offered(w.buf, ev), accepted := w.accepted + [ev]))
  {
    LaneSnoc(w.accepted, ev, ImportantLane);
  }

  lemma OfferHit(w: World, ev: Ev)
    requires HitsKept(w)
    ensures HitsKept(w.(buf := Offered(w.buf, ev), accepted := w.accepted + [ev]))
  {
    hide Folded, OfLane, Subsequence, Singles;
    LaneSnoc(w.accepted, ev, HitLane);
    if Classify(ev) == HitLane {
      var mine := OfLane(Singles(w.taken), HitLane);
      var all := OfLane(w.accepted, HitLane);
      if |w.buf.hits| >= CLIENT_BUF_CAP {
        SubsequenceDrops(mine + w.buf.hits, all, |mine|);
        assert (mine + w.buf.hits)[..|mine|] + (mine + w.buf.hits)[|mine| + 1..] == mine + w.buf.hits[1..];
        SubsequenceExtends(mine + w.buf.hits[1..], all, ev);
        assert mine + w.buf.hits[1..] + [ev] == mine + (w.buf.hits[1..] + [ev]);
      } else {
        SubsequenceExtends(mine + w.buf.hits, all, ev);
        assert mine + w.buf.hits + [ev] == mine + (w.buf.hits + [ev]);
      }
    }
  }

  lemma NewestAfter(evs: seq<Ev>, ev: Ev, x: Ev)
    ensures Newest(evs + [ev], ev)
    ensures x.kind != ev.kind ==> (Newest(evs + [ev], x) <==> Newest(evs, x))
    ensures x.kind == ev.kind && Newest(evs + [ev], x) ==> x == ev
  {
    var all := evs + [ev];
    assert all[|evs|] == ev;
    if Newest(all, x) {
      var i :| 0 <= i < |all| && all[i] == x && forall j :: i < j < |all| ==> all[j].kind != x.kind;
      if i < |evs| {
        assert all[|evs|].kind != x.kind;
        assert evs[i] == x && forall j :: i < j < |evs| ==> evs[j] == all[j];
      }
    }
    if x.kind != ev.kind && Newest(evs, x) {
      var i :| 0 <= i < |evs| && evs[i] == x && forall j :: i < j < |evs| ==> evs[j].kind != x.kind;
      assert all[i] == x;
    }
  }

  lemma OfferLatest(w: World, ev: Ev)
    requires LatestKept(w) && Sorted(w.buf)
    ensures LatestKept(w.(buf := Offered(w.buf, ev), accepted := w.accepted + [ev]))
  {
    hide Newest, Singles;
    var w' := w.(buf := Offered(w.buf, ev), accepted := w.accepted + [ev]);
    forall k | k in w'.buf.latest ensures w'.buf.latest[k].kind == k && Newest(w'.accepted, w'.buf.latest[k]) {
      NewestAfter(w.accepted, ev, w'.buf.latest[k]);
      if k == ev.kind {
        assert k in w.buf.latest ==> Classify(w.buf.latest[k]) == Classify(ev);
      }
    }
    forall x | Classify(x) == LatestLane && Newest(w'.accepted, x)
      ensures (x.kind in w'.buf.latest && w'.buf.latest[x.kind] == x) || (x.kind !in w'.buf.latest && x in Singles(w'.taken))
    {
      NewestAfter(w.accepted, ev, x);
    }
  }

  lemma OfferKeeps(w: World, ev: Ev)
    requires Kept(w)
    ensures Kept(w.(buf := Offered(w.buf, ev), accepted := w.accepted + [ev]))
  {
    hide ImportantKept, HitsKept, LatestKept;
    OfferImportant(w, ev);
    OfferHit(w, ev);
    OfferLatest(w, ev);
  }

  ghost function Taken(w: World, kind: string): World
    requires Popped(w.buf, kind).0.Some?
  {
    w.(buf := Popped(w.buf, kind).1, taken := w.taken + [Popped(w.buf, kind).0.value])
  }

  lemma TakeImportant(w: World, kind: string)
    requires ImportantKept(w) && Sorted(w.buf) && Popped(w.buf, kind).0.Some?
    ensures ImportantKept(Taken(w, kind))
  {
    hide OfLane, Singles, Folded;
    var m := Popped(w.buf, kind).0.value;
    TakenSnoc(w.taken, m);
    if m.Single? {
      LaneSnoc(Singles(w.taken), m.ev, ImportantLane);
      if w.buf.important != [] {
        var mine := OfLane(Singles(w.taken), ImportantLane);
        assert w.buf.important == [m.ev] + w.buf.important[1..];
        assert mine + [m.ev] + w.buf.important[1..] == mine + w.buf.important;
      }
    }
  }

  lemma TakeHit(w: World, kind: string)
    requires HitsKept(w) && Sorted(w.buf) && Popped(w.buf, kind).0.Some?
    ensures HitsKept(Taken(w, kind))
  {
    hide Folded, OfLane, Subsequence, Singles;
    var m := Popped(w.buf, kind).0.value;
    TakenSnoc(w.taken, m);
    if m.Single? {
      LaneSnoc(Singles(w.taken), m.ev, HitLane);
      var mine := OfLane(Singles(w.taken), HitLane);
      if Classify(m.ev) == HitLane {
        assert w.buf.hits == [m.ev] + w.buf.hits[1..];
        assert mine + [m.ev] + w.buf.hits[1..] == mine + w.buf.hits;
      }
    }
  }

  lemma TakeLatest(w: World, kind: string)
    requires LatestKept(w) && Sorted(w.buf) && Popped(w.buf, kind).0.Some?
    ensures LatestKept(Taken(w, kind))
  {
    hide Newest, Singles, Folded, Sorted;
    var w' := Taken(w, kind);
    var m := Popped(w.buf, kind).0.value;
    TakenSnoc(w.taken, m);
    assert forall k :: k in w'.buf.latest ==> k in w.buf.latest && w'.buf.latest[k] == w.buf.latest[k];
    assert forall x :: x in Singles(w.taken) ==> x in Singles(w'.taken);
    forall x | Classify(x) == LatestLane && Newest(w'.accepted, x)
      ensures (x.kind in w'.buf.latest && w'.buf.latest[x.kind] == x) || (x.kind !in w'.buf.latest && x in Singles(w'.taken))
    {
      if x.kind in w.buf.latest && x.kind !in w'.buf.latest {
        assert m == Single(x);
      }
    }
  }

  lemma TakeKeeps(w: World, kind: string)
    requires Kept(w) && Popped(w.buf, kind).0.Some?
    ensures Kept(Taken(w, kind))
  {
    hide ImportantKept, HitsKept, LatestKept;
    TakeImportant(w, kind);
    TakeHit(w, kind);
    TakeLatest(w, kind);
  }

  lemma SameKept(w: World, v: World)
    requires v.buf == w.buf && v.accepted == w.accepted && v.taken == w.taken
    ensures Kept(v) == Kept(w)
  {
    hide OfLane, Singles, Folded, Subsequence, Newest;
  }

  /** What is taken is always the most urgent: a hit or a count only with nothing important and no telemetry waiting, a hit only
      with no count due, telemetry only with nothing important; and of a lane kept in order the oldest. */
  lemma MostUrgent(b: Buffers, kind: string)
    requires Sorted(b) && MayPop(b, kind)
    ensures match Popped(b, kind).0
            case None => !Pending(b)
            case Some(Coalesced(n)) => b.important == [] && b.latest == map[] && n == b.hitDropped > 0
            case Some(Single(ev)) =>
              match Classify(ev)
              case ImportantLane => b.important != [] && ev == b.important[0]
              case LatestLane => b.important == [] && kind in b.latest && ev == b.latest[kind]
              case HitLane => b.important == [] && b.latest == map[] && b.hitDropped == 0 && b.hits != [] && ev == b.hits[0]
  {
  }

  lemma StepKeeps(w: World, e: Step)
    requires Kept(w) && Enabled(w, e)
    ensures Kept(Next(w, e))
  {
    hide Kept;
    match e
    case Offer(ev) =>
      OfferKeeps(w, ev);
      if w.closed { return; }
      SameKept(w.(buf := Offered(w.buf, ev), accepted := w.accepted + [ev]), Next(w, Offer(ev)));
    case Take(kind) =>
      if Popped(w.buf, kind).0.Some? {
        TakeKeeps(w, kind);
        SameKept(Taken(w, kind), Next(w, e));
      } else {
        SameKept(w, Next(w, e));
      }
    case _ => SameKept(w, Next(w, e));
  }

  /** Over any interleaving: the important lane is a lossless queue, the latest lane holds the newest of
      each kind, and every hit is accounted for. */
  lemma {:induction false} NothingUnaccounted(worlds: seq<World>, steps: seq<Step>, i: nat)
    requires IsRun(worlds, steps) && i < |worlds|
    ensures Kept(worlds[i])
  {
    hide Enabled, Next;
    if i > 0 {
      NothingUnaccounted(worlds, steps, i - 1);
      assert RunStep(worlds, steps, i - 1);
      hide Kept;
      StepKeeps(worlds[i - 1], steps[i - 1]);
    }
  }

  // ---- Wake-ups -------------------------------------------------------------------------

  /** The message this step takes cannot be encoded while more is waiting, and no token is there. */
  predicate Stalls(w: World, e: Step)
  {
    && e.Take? && Popped(w.buf, e.kind).0.Some? && !Encodes(Popped(w.buf, e.kind).0.value)
    && Pending(Popped(w.buf, e.kind).1) && !w.wake && !w.signalling && !w.closed
  }

  /** A step loses a wake-up if and only if it pops a message that cannot be encoded, with more behind
      it and no token: the sender's loop takes the failure for an empty buffer. */
  lemma WakeLost(w: World, e: Step)
    requires Awake(w) && Enabled(w, e)
    ensures Awake(Next(w, e)) <==> !Stalls(w, e)
  {
  }

  // ---- What the engine broadcasts -------------------------------------------------------

  /** Twice, so many times over. */
  function Doubled(n: nat): (r: real)
    ensures r >= 1.0
  {
    if n == 0 then 1.0 else 2.0 * Doubled(n - 1)
  }

  /** Where a double overflows. */
  function Double(x: real): Num
  {
    if -Doubled(1024) < x < Doubled(1024) then Finite(x) else NotFinite
  }

  /** How sure Classify is of a hit. */
  function HitConfidence(otherClass: bool, far: bool, longer: bool, protected: bool): real
  {
    var sum := 0.5 + (if otherClass then 0.2 else 0.0) + (if far then 0.2 else 0.0) + (if longer then 0.1 else 0.0);
    var conf := if sum > 0.99 then 0.99 else sum;
    if protected && conf < 0.85 then 0.85 else conf
  }

  /** A technology's confidence after some votes for it. */
  function Fused(votes: seq<real>): real
  {
    if votes == [] then 0.0
    else
      var t := 1.0 - (1.0 - Fused(votes[..|votes| - 1])) * (1.0 - votes[|votes| - 1]);
      if t > 0.99 then 0.99 else t
  }

  /** payloadFor: what does not encode leaves no payload. */
  function PayloadFor(numbers: seq<Num>): Raw
  {
    if forall i :: 0 <= i < |numbers| ==> numbers[i].Finite? then Json else NoPayload
  }

  /** What the engine has to report: a hit, technologies with the votes for each, or anything else; with the
      numbers that go into the payload. */
  datatype Report =
    | HitSeen(otherClass: bool, far: bool, longer: bool, protected: bool, numbers: seq<Num>)
    | TechSeen(kind: string, votes: seq<seq<real>>)
    | Other(kind: string, numbers: seq<Num>)

  function EventOf(r: Report, body: int, year: int): Ev
  {
    match r
    case HitSeen(o, f, l, p, numbers) => Ev("hit", body, year, Double(HitConfidence(o, f, l, p)), [], PayloadFor(numbers))
    case TechSeen(kind, votes) =>
      Ev(kind, body, year, Finite(0.0), seq(|votes|, i requires 0 <= i < |votes| => Double(Fused(votes[i]))), NoPayload)
    case Other(kind, numbers) => Ev(kind, body, year, Finite(0.0), [], PayloadFor(numbers))
  }

  /** Rules vote with a confidence from 0 to 1. */
  ghost predicate Votes(votes: seq<real>)
  {
    forall i :: 0 <= i < |votes| ==> 0.0 <= votes[i] <= 1.0
  }

  /** However many votes, a technology's confidence stays between 0 and 0.99. */
  lemma {:induction false} FusedBounded(votes: seq<real>)
    requires Votes(votes)
    ensures 0.0 <= Fused(votes) <= 0.99
  {
    if votes != [] {
      var n := |votes| - 1;
      FusedBounded(votes[..n]);
      var doubt, voted := 1.0 - Fused(votes[..n]), 1.0 - votes[n];
      PartOf(doubt, voted);
    }
  }

  lemma PartOf(x: real, y: real)
    requires 0.0 <= x <= 1.0 && 0.0 <= y <= 1.0
    ensures 0.0 <= x * y <= x
  {
    var rest := 1.0 - y;
    assert x == x * y + x * rest;
  }

  /** An event the engine makes of what it has seen, dated with a year of four digits. */
  ghost predicate Emitted(ev: Ev)
  {
    exists r: Report, body: int, year: int ::
      0 <= year <= 9999 && (r.TechSeen? ==> forall i :: 0 <= i < |r.votes| ==> Votes(r.votes[i])) && ev == EventOf(r, body, year)
  }

  /** Whatever the engine emits can be encoded: a payload that cannot has been left out before. */
  lemma EmittedEncodes(ev: Ev)
    requires Emitted(ev)
    ensures Encodes(Single(ev))
  {
    hide Doubled, Fused;
    var r: Report, body: int, year: int :|
      0 <= year <= 9999 && (r.TechSeen? ==> forall i :: 0 <= i < |r.votes| ==> Votes(r.votes[i])) && ev == EventOf(r, body, year);
    if r.TechSeen? {
      forall i | 0 <= i < |ev.tech| ensures ev.tech[i].Finite? {
        FusedBounded(r.votes[i]);
      }
    }
  }

  /** Everything buffered and everything taken out can be encoded. */
  ghost predicate AllEncode(w: World)
  {
    && (forall i :: 0 <= i < |w.buf.important| ==> Encodes(Single(w.buf.important[i])))
    && (forall i :: 0 <= i < |w.buf.hits| ==> Encodes(Single(w.buf.hits[i])))
    && (forall k :: k in w.buf.latest ==> Encodes(Single(w.buf.latest[k])))
    && (forall i :: 0 <= i < |w.taken| ==> Encodes(w.taken[i]))
  }

  /** Only events of the engine are offered. */
  ghost predicate FromEngine(steps: seq<Step>)
  {
    forall i :: 0 <= i < |steps| && steps[i].Offer? ==> Emitted(steps[i].ev)
  }

  lemma StepEncodes(w: World, e: Step)
    requires AllEncode(w) && Enabled(w, e) && (e.Offer? ==> Encodes(Single(e.ev)))
    ensures AllEncode(Next(w, e))
  {
    hide Encodes;
    if e.Take? && Popped(w.buf, e.kind).0.Some? { PoppedEncodes(w, e.kind); }
  }

  /** Over any interleaving in which the hub is offered what the engine emits, every message taken out of the
      buffers can be encoded, and no wake-up is ever lost. */
  lemma {:induction false} NeverAsleep(worlds: seq<World>, steps: seq<Step>, i: nat)
    requires IsRun(worlds, steps) && i < |worlds| && FromEngine(steps)
    ensures AllEncode(worlds[i]) && Awake(worlds[i])
  {
    hide Enabled, Next, Awake, AllEncode, Emitted, Encodes;
    if i > 0 {
      NeverAsleep(worlds, steps, i - 1);
      assert RunStep(worlds, steps, i - 1);
      var w, e := worlds[i - 1], steps[i - 1];
      if e.Offer? { EmittedEncodes(e.ev); }
      StepEncodes(w, e);
      NoStall(w, e);
      WakeLost(w, e);
    } else {
      QuietAtFirst();
    }
  }

  lemma NoStall(w: World, e: Step)
    requires AllEncode(w) && Enabled(w, e)
    ensures !Stalls(w, e)
  {
    hide Encodes;
    if e.Take? && Popped(w.buf, e.kind).0.Some? { PoppedEncodes(w, e.kind); }
  }

  lemma PoppedEncodes(w: World, kind: string)
    requires AllEncode(w) && Popped(w.buf, kind).0.Some?
    ensures Encodes(Popped(w.buf, kind).0.value)
  {
    hide Emitted;
  }

  lemma QuietAtFirst()
    ensures AllEncode(INITIAL) && Awake(INITIAL)
  {
  }

  /** With an event that cannot be encoded, were there one, whatever is behind it would wait, with nobody to
      wake the sender, until the next event is offered. */
  lemma AsleepTillNextOffer(ev: Ev, behind: Ev) returns (worlds: seq<World>, steps: seq<Step>)
    requires Classify(ev) == ImportantLane && Classify(behind) == ImportantLane && !Encodes(Single(ev))
    ensures IsRun(worlds, steps) && !Awake(worlds[|steps|])
    ensures forall next :: Awake(Next(Next(worlds[|steps|], Offer(next)), Signal))
  {
    hide Encodes;
    var w1 := Next(INITIAL, Offer(ev));
    var w2 := Next(w1, Signal);
    var w3 := Next(w2, Offer(behind));
    var w4 := Next(w3, Signal);
    var w5 := Next(w4, Wake);
    var w6 := Next(w5, Take(""));
    assert w5.buf == Buffers([ev, behind], map[], [], 0);
    worlds, steps := [INITIAL, w1, w2, w3, w4, w5, w6], [Offer(ev), Signal, Offer(behind), Signal, Wake, Take("")];
  }
}
