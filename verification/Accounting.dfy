/** The coordinator's books: directories, the frontier, and what is in flight, as one value.
    Every operation that moves the numbers is a function here; the invariant they keep is `Inv`. */
module Accounting {
  import opened ScanTypes
  import opened Counting
  import opened Provenance

  datatype Phase = Calibrating | Scanning | Done

  datatype DirRec = DirRec(
    depth: int,
    phase: Phase,
    probeQueue: seq<string>,
    probesDone: nat,
    probesTotal: nat,
    total: nat,
    accounted: nat,
    dispatched: nat,
    budget: int,
    capped: bool,
    wildcard: bool,
    pruned: bool,
    known: set<string>,
    pending: map<string, Candidate>)

  type Key = (string, string)

  /** History: every (dir, path) pushed, sent and dropped unrequested; requests a resume has
      lost; novel hits; seeds applied, ancestors chained and candidates staged; and, for every
      directory opened, the paths pending there at that moment. */
  datatype Ledger = Ledger(
    pushed: multiset<Key>,
    sent: multiset<Key>,
    dropped: multiset<Key>,
    lost: map<string, nat>,
    novel: nat,
    seeds: nat,
    chained: nat,
    staged: nat,
    openedWith: map<string, set<string>>)

  datatype Book = Book(
    dirs: map<string, DirRec>,
    order: seq<string>,
    queue: multiset<Candidate>,
    flying: multiset<Candidate>,
    probes: multiset<string>,
    log: Ledger)

  function KeyOf(c: Candidate): Key { (c.parentDir, c.path) }

  /** How many of these candidates live under d. */
  ghost function In(m: multiset<Candidate>, d: string): nat
  {
    Count(m, (c: Candidate) => c.parentDir == d)
  }

  /** The keys of these candidates. */
  ghost function Keys(m: multiset<Candidate>): multiset<Key>
  {
    MapAll(m, KeyOf)
  }

  function Lost(b: Book, d: string): nat
  {
    if d in b.log.lost then b.log.lost[d] else 0
  }

  lemma InPlus(m: multiset<Candidate>, c: Candidate)
    ensures forall d :: In(m + multiset{c}, d) == In(m, d) + (if c.parentDir == d then 1 else 0)
  {
    forall d ensures In(m + multiset{c}, d) == In(m, d) + (if c.parentDir == d then 1 else 0) {
      CountAdd(m, c, (x: Candidate) => x.parentDir == d);
    }
  }

  lemma InMinus(m: multiset<Candidate>, c: Candidate)
    requires c in m
    ensures forall d :: In(m, d) == In(m - multiset{c}, d) + (if c.parentDir == d then 1 else 0)
  {
    assert m == (m - multiset{c}) + multiset{c};
    InPlus(m - multiset{c}, c);
  }

  // ---- Operations -----------------------------------------------------------------------

  function FreshDir(depth: int, probes: seq<string>): DirRec
  {
    DirRec(depth, Calibrating, probes, 0, |probes|, 0, 0, 0, 0, false, false, false, {}, map[])
  }

  /** startCalibration: a new record, whatever was at d before, last in the calibrating order. */
  function Started(b: Book, d: string, depth: int, probes: seq<string>): Book
  {
    b.(dirs := b.dirs[d := FreshDir(depth, probes)], order := b.order + [d])
  }

  function WithoutFirst(order: seq<string>, d: string): seq<string>
  {
    if order == [] then []
    else if order[0] == d then order[1..]
    else [order[0]] + WithoutFirst(order[1..], d)
  }

  /** finishCalibration followed by pushing the whole candidate set of d. */
  ghost function Opened(b: Book, d: string, cands: multiset<Candidate>, budget: int): Book
    requires d in b.dirs
  {
    var r := b.dirs[d].(known := (set c | c in cands :: c.path), pending := map[], total := |cands|,
                        phase := if |cands| == 0 then Done else Scanning,
                        budget := if |cands| == 0 then b.dirs[d].budget else budget);
    b.(dirs := b.dirs[d := r], order := WithoutFirst(b.order, d), queue := b.queue + cands,
       log := b.log.(pushed := b.log.pushed + Keys(cands), openedWith := b.log.openedWith[d := b.dirs[d].pending.Keys]))
  }

  /** The root's second calibration: the old record, its pending seeds with it, is dropped. */
  function Restarted(b: Book, d: string, probes: seq<string>): Book
    requires d in b.dirs
  {
    Started(b.(order := WithoutFirst(b.order, d)), d, b.dirs[d].depth, probes)
  }

  function ProbeOut(b: Book, d: string): Book
    requires d in b.dirs && |b.dirs[d].probeQueue| > 0
  {
    b.(dirs := b.dirs[d := b.dirs[d].(probeQueue := b.dirs[d].probeQueue[1..])],
       probes := b.probes + multiset{d})
  }

  function ProbeBack(b: Book, d: string): Book
    requires d in b.dirs
  {
    b.(dirs := b.dirs[d := b.dirs[d].(probesDone := b.dirs[d].probesDone + 1)],
       probes := b.probes - multiset{d})
  }

  /** candidatesAccountedFor++ and maybeFinishDir. */
  function Accounted(r: DirRec): DirRec
  {
    r.(accounted := r.accounted + 1, phase := if r.accounted + 1 >= r.total then Done else r.phase)
  }

  /** A queued candidate thrown away unrequested; `over` when the budget was what stopped it. */
  function Discarded(b: Book, c: Candidate, over: bool): Book
    requires c.parentDir in b.dirs
  {
    var r := b.dirs[c.parentDir];
    b.(dirs := b.dirs[c.parentDir := Accounted(r).(pruned := r.pruned || over)],
       queue := b.queue - multiset{c}, log := b.log.(dropped := b.log.dropped + multiset{KeyOf(c)}))
  }

  /** Candidates discarded one after the other; with `checked`, budgets may be what stops them. */
  function DiscardedAll(b: Book, cs: seq<Candidate>, checked: bool): (r: Book)
    requires forall i :: 0 <= i < |cs| ==> cs[i].parentDir in b.dirs
    ensures r.dirs.Keys == b.dirs.Keys
  {
    if cs == [] then b
    else
      var n := |cs| - 1;
      var b1 := DiscardedAll(b, cs[..n], checked);
      var d := cs[n].parentDir;
      Discarded(b1, cs[n], checked && b1.dirs[d].dispatched >= b1.dirs[d].budget)
  }

  /** A queued candidate handed to a worker. */
  function Sent(b: Book, c: Candidate): Book
    requires c.parentDir in b.dirs
  {
    var r := b.dirs[c.parentDir];
    b.(dirs := b.dirs[c.parentDir := r.(dispatched := r.dispatched + 1)],
       queue := b.queue - multiset{c}, flying := b.flying + multiset{c},
       log := b.log.(sent := b.log.sent + multiset{KeyOf(c)}))
  }

  /** A request's result accounted for. */
  function Settled(b: Book, c: Candidate): Book
    requires c.parentDir in b.dirs
  {
    b.(dirs := b.dirs[c.parentDir := Accounted(b.dirs[c.parentDir])], flying := b.flying - multiset{c})
  }

  /** enqueueGenerated's push; it also reopens a finished directory (stageDirCandidate). */
  function Added(b: Book, d: string, c: Candidate): Book
    requires d in b.dirs
  {
    var r := b.dirs[d];
    b.(dirs := b.dirs[d := r.(total := r.total + 1, budget := r.budget + 1, known := r.known + {c.path},
                                  phase := if r.phase == Done then Scanning else r.phase)],
       queue := b.queue + multiset{c},
       log := b.log.(pushed := b.log.pushed + multiset{KeyOf(c)}))
  }

  /** A seed held for a directory still calibrating. */
  function Merged(old_: Candidate, c: Candidate): Candidate
  {
    old_.(basePrio := if c.basePrio > old_.basePrio then c.basePrio else old_.basePrio,
          provenance := Union(old_.provenance, c.provenance))
  }

  function Held(b: Book, d: string, c: Candidate): Book
    requires d in b.dirs
  {
    var p := b.dirs[d].pending;
    var c' := if c.path in p then Merged(p[c.path], c) else c;
    b.(dirs := b.dirs[d := b.dirs[d].(pending := p[c.path := c'])])
  }

  /** One queued candidate rewritten in place. */
  function Swapped(b: Book, c: Candidate, c': Candidate): Book
  {
    b.(queue := b.queue - multiset{c} + multiset{c'})
  }

  /** Every queued candidate rescored. */
  ghost function Rescored(b: Book, f: Candidate -> Candidate): Book
  {
    b.(queue := MapAll(b.queue, f))
  }

  function Trapped(b: Book, d: string, capped: bool, wildcard: bool): Book
    requires d in b.dirs
  {
    b.(dirs := b.dirs[d := b.dirs[d].(capped := b.dirs[d].capped || capped, wildcard := b.dirs[d].wildcard || wildcard)])
  }

  // ---- The invariant --------------------------------------------------------------------

  ghost predicate PendingOk(p: map<string, Candidate>, d: string)
  {
    forall k :: k in p ==> p[k].path == k && p[k].parentDir == d
  }

  /** A directory that is calibrating has no candidate anywhere and is in the order once. */
  ghost predicate Quiet(b: Book, d: string)
    requires d in b.dirs
  {
    var r := b.dirs[d];
    && r.phase == Calibrating && r.total == 0 && r.accounted == 0 && r.dispatched == 0 && r.budget == 0
    && r.known == {} && PendingOk(r.pending, d)
    && In(b.queue, d) == 0 && In(b.flying, d) == 0 && Lost(b, d) == 0
    && multiset(b.order)[d] == 1
    && r.probesDone + |r.probeQueue| + b.probes[d] == r.probesTotal
  }

  /** A directory past calibration: the total is what is accounted, queued, in flight and lost,
      and it is done exactly when all of it is accounted for. */
  ghost predicate Balanced(b: Book, d: string)
    requires d in b.dirs
  {
    var r := b.dirs[d];
    && r.phase != Calibrating
    && r.total == r.accounted + In(b.queue, d) + In(b.flying, d) + Lost(b, d)
    && (r.phase == Done <==> r.accounted == r.total)
    && r.dispatched <= r.accounted + In(b.flying, d) + Lost(b, d)
    && r.dispatched <= r.budget
    && multiset(b.order)[d] == 0 && r.probeQueue == [] && b.probes[d] == 0 && r.pending == map[]
  }

  ghost predicate DirOk(b: Book, d: string)
    requires d in b.dirs
  {
    if b.dirs[d].phase == Calibrating then Quiet(b, d) && b.dirs[d].probesDone < b.dirs[d].probesTotal
    else Balanced(b, d)
  }

  /** Nothing queued, flying, probing or ordered names a directory that does not exist. */
  ghost predicate Refs(b: Book)
  {
    && (forall c :: c in b.queue ==> c.parentDir in b.dirs)
    && (forall c :: c in b.flying ==> c.parentDir in b.dirs)
    && (forall d :: d in b.probes ==> d in b.dirs)
    && (forall d :: d in b.order ==> d in b.dirs)
    && (forall d :: d in b.log.lost ==> d in b.dirs)
  }

  ghost predicate Inv(b: Book)
  {
    Refs(b) && forall d :: d in b.dirs ==> DirOk(b, d)
  }

  /** The invariant with d at the very end of its calibration: all its probes are back. */
  ghost predicate Finishing(b: Book, d: string)
  {
    && Refs(b) && d in b.dirs && Quiet(b, d) && b.dirs[d].probesDone == b.dirs[d].probesTotal
    && forall e :: e in b.dirs && e != d ==> DirOk(b, e)
  }
}
