/** What the history in the books adds up to: every push is queued, sent or dropped, a path is
    known exactly if it was pushed, and pushes and directories stay within a bound. */
module Ledgers {
  import opened ScanTypes
  import opened Counting
  import opened Accounting
  import opened Invariants
  import opened Tallies

  /** Template size, nmap seeds, by how much a budget exceeds a total, whether template paths are
      distinct, and whether nmap paths stay apart from each other, the template and these. */
  datatype Limits = Limits(template: nat, nmap: nat, slack: int, distinct: bool, apart: set<string> -> bool)

  /** Every push is still queued, was sent, or was dropped. */
  ghost predicate Conserved(b: Book)
  {
    Keys(b.queue) + b.log.sent + b.log.dropped == b.log.pushed
  }

  ghost predicate KnownIsPushed(b: Book)
  {
    forall d, p :: b.log.pushed[(d, p)] > 0 <==> d in b.dirs && p in b.dirs[d].known
  }

  ghost predicate PushedOnce(b: Book)
  {
    forall k: Key :: b.log.pushed[k] <= 1
  }

  /** Nothing at all was pushed for a directory that was opened with these paths pending. */
  predicate Bare(l: Limits, d: string, pending: set<string>)
  {
    l.template == 0 && pending == {} && (d == "" ==> l.nmap == 0)
  }

  /** Exactly the directories past calibration were opened, and each budget is the total plus the slack,
      or just the total if there was nothing to push. */
  ghost predicate Budgeted(l: Limits, b: Book)
  {
    && b.log.openedWith.Keys == OpenDirs(b)
    && forall d :: d in b.log.openedWith && d in b.dirs ==>
         b.dirs[d].budget - b.dirs[d].total == if Bare(l, d, b.log.openedWith[d]) then 0 else l.slack
  }

  /** What keeps pushes from repeating: distinct template paths, and nmap paths apart at the root's opening. */
  ghost predicate Unrepeated(l: Limits, b: Book)
  {
    (b.log.openedWith == map[] || l.distinct) && ("" in b.log.openedWith ==> l.apart(b.log.openedWith[""]))
  }

  ghost predicate Ledgered(l: Limits, b: Book)
  {
    && Conserved(b) && KnownIsPushed(b) && Tallied(b) && Budgeted(l, b)
    && (PushedOnce(b) <==> Unrepeated(l, b))
  }

  ghost function PendingKeys(b: Book): set<Key>
  {
    set d, p | d in b.dirs && p in b.dirs[d].pending :: (d, p)
  }

  ghost function OpenDirs(b: Book): set<string>
  {
    set d | d in b.dirs && b.dirs[d].phase != Calibrating
  }

  /** How many more pushes the bound allows, counting every pending seed as a push to come. */
  ghost function PushRoom(l: Limits, b: Book): int
  {
    l.template * |OpenDirs(b)| + (if "" in OpenDirs(b) then l.nmap else 0)
    + b.log.staged + 11 * b.log.novel - |b.log.pushed| - |PendingKeys(b)|
  }

  /** How many more directories the bound allows. */
  ghost function DirRoom(b: Book): int
  {
    (if "" in b.dirs then 1 else 0) + b.log.novel + b.log.chained - |b.dirs|
  }

  /** Same directories, the same ones past calibration, the same pending seeds. */
  ghost predicate SameShape(b: Book, b': Book)
  {
    && b'.dirs.Keys == b.dirs.Keys
    && forall d :: d in b.dirs ==>
         b'.dirs[d].pending == b.dirs[d].pending && (b'.dirs[d].phase == Calibrating <==> b.dirs[d].phase == Calibrating)
  }

  lemma ShapeRooms(l: Limits, b: Book, b': Book)
    requires SameShape(b, b')
    ensures PushRoom(l, b') - PushRoom(l, b)
            == b'.log.staged - b.log.staged + 11 * b'.log.novel - 11 * b.log.novel + |b.log.pushed| - |b'.log.pushed|
    ensures DirRoom(b') - DirRoom(b) == b'.log.novel - b.log.novel + b'.log.chained - b.log.chained
  {
    assert PendingKeys(b') == PendingKeys(b);
    assert OpenDirs(b') == OpenDirs(b);
    assert |b'.dirs| == |b'.dirs.Keys| == |b.dirs.Keys| == |b.dirs|;
  }

  /** The same pushes and the same known paths. */
  ghost predicate SamePushes(b: Book, b': Book)
  {
    && b'.log.pushed == b.log.pushed && b'.dirs.Keys == b.dirs.Keys
    && forall d :: d in b.dirs ==> b'.dirs[d].known == b.dirs[d].known
  }

  lemma PushesCarry(b: Book, b': Book)
    requires KnownIsPushed(b) && SamePushes(b, b')
    ensures KnownIsPushed(b') && (PushedOnce(b) <==> PushedOnce(b'))
  {
    forall e, p ensures b'.log.pushed[(e, p)] > 0 <==> e in b'.dirs && p in b'.dirs[e].known {
      assert b.log.pushed[(e, p)] > 0 <==> e in b.dirs && p in b.dirs[e].known;
    }
  }

  /** Budgets still as far from totals, and the same directories opened. */
  ghost predicate SameBudgets(b: Book, b': Book)
  {
    && b'.log.openedWith == b.log.openedWith && OpenDirs(b') == OpenDirs(b)
    && forall d :: d in b.log.openedWith && d in b'.dirs ==>
         d in b.dirs && b'.dirs[d].budget - b'.dirs[d].total == b.dirs[d].budget - b.dirs[d].total
  }

  lemma BudgetsCarry(l: Limits, b: Book, b': Book)
    requires Budgeted(l, b) && SameBudgets(b, b')
    ensures Budgeted(l, b') && (Unrepeated(l, b') <==> Unrepeated(l, b))
  {
  }

  /** What an operation that neither pushes, sends nor drops may change: nothing the ledger reads. */
  ghost predicate Quietly(b: Book, b': Book)
  {
    && b'.log == b.log && Keys(b'.queue) == Keys(b.queue)
    && SameShape(b, b') && SamePushes(b, b') && SameBudgets(b, b') && SameTallies(b, b')
  }

  lemma QuietlyKeeps(l: Limits, b: Book, b': Book)
    requires Ledgered(l, b) && Quietly(b, b')
    ensures Ledgered(l, b')
  {
    hide Tallied, Budgeted, KnownIsPushed, SameTallies, SamePushes, SameBudgets, Unrepeated, PushedOnce;
    PushesCarry(b, b');
    TalliesCarry(b, b');
    BudgetsCarry(l, b, b');
  }

  lemma QuietlyRooms(l: Limits, b: Book, b': Book)
    requires Quietly(b, b')
    ensures PushRoom(l, b') == PushRoom(l, b) && DirRoom(b') == DirRoom(b)
  {
    ShapeRooms(l, b, b');
  }

  lemma ProbeQuietly(b: Book, d: string)
    requires d in b.dirs
    ensures |b.dirs[d].probeQueue| > 0 ==> Quietly(b, ProbeOut(b, d))
    ensures Quietly(b, ProbeBack(b, d))
  {
    hide Quietly;
    if |b.dirs[d].probeQueue| > 0 { ProbeOutQuietly(b, d); }
    ProbeBackQuietly(b, d);
  }

  lemma ProbeOutQuietly(b: Book, d: string)
    requires d in b.dirs && |b.dirs[d].probeQueue| > 0
    ensures Quietly(b, ProbeOut(b, d))
  {
    hide Keys;
  }

  lemma ProbeBackQuietly(b: Book, d: string)
    requires d in b.dirs
    ensures Quietly(b, ProbeBack(b, d))
  {
    hide Keys;
  }

  lemma SettleQuietly(b: Book, c: Candidate)
    requires c.parentDir in b.dirs && b.dirs[c.parentDir].phase != Calibrating
    ensures Quietly(b, Settled(b, c))
  {
  }

  lemma TrapQuietly(b: Book, d: string, capped: bool, wildcard: bool)
    requires d in b.dirs
    ensures Quietly(b, Trapped(b, d, capped, wildcard))
  {
  }

  lemma RescoreQuietly(b: Book, f: Candidate -> Candidate)
    requires forall c :: KeyOf(f(c)) == KeyOf(c)
    ensures Quietly(b, Rescored(b, f))
  {
    MapThrough(b.queue, f, KeyOf);
  }

  lemma SwapQuietly(b: Book, c: Candidate, c': Candidate)
    requires c in b.queue && KeyOf(c') == KeyOf(c)
    ensures Quietly(b, Swapped(b, c, c'))
  {
    MapImage(b.queue, c, KeyOf);
    MapAdd(b.queue - multiset{c}, c', KeyOf);
  }

  lemma SendConserves(b: Book, c: Candidate)
    requires Conserved(b) && c in b.queue && c.parentDir in b.dirs
    ensures Conserved(Sent(b, c))
  {
    MapImage(b.queue, c, KeyOf);
  }

  lemma SendLedger(l: Limits, b: Book, c: Candidate)
    requires Ledgered(l, b) && c in b.queue && c.parentDir in b.dirs
    ensures Ledgered(l, Sent(b, c))
  {
    hide Tallied, Budgeted, KnownIsPushed, Conserved, Unrepeated, PushedOnce;
    SendConserves(b, c);
    SendTallies(b, c);
    BudgetsCarry(l, b, Sent(b, c));
    PushesCarry(b, Sent(b, c));
  }

  lemma SendRoom(l: Limits, b: Book, c: Candidate)
    requires c.parentDir in b.dirs
    ensures PushRoom(l, Sent(b, c)) == PushRoom(l, b) && DirRoom(Sent(b, c)) == DirRoom(b)
  {
    ShapeRooms(l, b, Sent(b, c));
  }

  lemma DiscardConserves(b: Book, c: Candidate, over: bool)
    requires Conserved(b) && c in b.queue && c.parentDir in b.dirs
    ensures Conserved(Discarded(b, c, over))
  {
    MapImage(b.queue, c, KeyOf);
  }

  lemma DiscardLedger(l: Limits, b: Book, c: Candidate, over: bool)
    requires Ledgered(l, b) && c in b.queue && c.parentDir in b.dirs && b.dirs[c.parentDir].phase != Calibrating
    ensures Ledgered(l, Discarded(b, c, over))
  {
    hide Tallied, Budgeted, KnownIsPushed, Conserved, Unrepeated, PushedOnce;
    DiscardConserves(b, c, over);
    DiscardTallies(b, c, over);
    BudgetsCarry(l, b, Discarded(b, c, over));
    PushesCarry(b, Discarded(b, c, over));
  }

  lemma DiscardRoom(l: Limits, b: Book, c: Candidate, over: bool)
    requires c.parentDir in b.dirs && b.dirs[c.parentDir].phase != Calibrating
    ensures PushRoom(l, Discarded(b, c, over)) == PushRoom(l, b) && DirRoom(Discarded(b, c, over)) == DirRoom(b)
  {
    ShapeRooms(l, b, Discarded(b, c, over));
  }

  lemma AddHistory(b: Book, d: string, c: Candidate)
    requires Conserved(b) && KnownIsPushed(b) && d in b.dirs && c.parentDir == d && c.path !in b.dirs[d].known
    ensures Conserved(Added(b, d, c)) && KnownIsPushed(Added(b, d, c))
    ensures PushedOnce(b) <==> PushedOnce(Added(b, d, c))
  {
    hide PushedOnce, KnownIsPushed, Keys;
    AddConserves(b, d, c);
    AddKnown(b, d, c);
  }

  lemma AddConserves(b: Book, d: string, c: Candidate)
    requires Conserved(b) && d in b.dirs
    ensures Conserved(Added(b, d, c))
  {
    MapAdd(b.queue, c, KeyOf);
  }

  lemma AddKnown(b: Book, d: string, c: Candidate)
    requires KnownIsPushed(b) && d in b.dirs && c.parentDir == d && c.path !in b.dirs[d].known
    ensures KnownIsPushed(Added(b, d, c)) && (PushedOnce(b) <==> PushedOnce(Added(b, d, c)))
  {
    var b' := Added(b, d, c);
    assert b.log.pushed[(d, c.path)] == 0;
    assert forall k: Key :: b'.log.pushed[k] == if k == (d, c.path) then 1 else b.log.pushed[k];
    forall e, p ensures b'.log.pushed[(e, p)] > 0 <==> e in b'.dirs && p in b'.dirs[e].known {
      assert b.log.pushed[(e, p)] > 0 <==> e in b.dirs && p in b.dirs[e].known;
    }
  }

  lemma AddLedger(l: Limits, b: Book, d: string, c: Candidate)
    requires Ledgered(l, b) && d in b.dirs && b.dirs[d].phase != Calibrating
    requires c.parentDir == d && c.path !in b.dirs[d].known
    ensures Ledgered(l, Added(b, d, c))
  {
    hide Tallied, Budgeted, KnownIsPushed, Conserved, Unrepeated, PushedOnce;
    AddHistory(b, d, c);
    AddTallies(b, d, c);
    BudgetsCarry(l, b, Added(b, d, c));
  }

  lemma AddRoom(l: Limits, b: Book, d: string, c: Candidate)
    requires d in b.dirs && b.dirs[d].phase != Calibrating
    ensures PushRoom(l, Added(b, d, c)) == PushRoom(l, b) - 1 && DirRoom(Added(b, d, c)) == DirRoom(b)
  {
    ShapeRooms(l, b, Added(b, d, c));
  }

  lemma HoldLedger(l: Limits, b: Book, d: string, c: Candidate)
    requires Ledgered(l, b) && d in b.dirs && b.dirs[d].phase == Calibrating
    ensures Ledgered(l, Held(b, d, c))
  {
    hide Tallied, Budgeted, KnownIsPushed, Keys, Unrepeated, PushedOnce;
    PushesCarry(b, Held(b, d, c));
    TalliesCarry(b, Held(b, d, c));
    BudgetsCarry(l, b, Held(b, d, c));
  }

  lemma HoldRoom(l: Limits, b: Book, d: string, c: Candidate)
    requires d in b.dirs && b.dirs[d].phase == Calibrating
    ensures PushRoom(l, Held(b, d, c)) >= PushRoom(l, b) - 1 && DirRoom(Held(b, d, c)) == DirRoom(b)
  {
    var b' := Held(b, d, c);
    assert PendingKeys(b') == PendingKeys(b) + {(d, c.path)};
    assert OpenDirs(b') == OpenDirs(b);
    assert b'.dirs.Keys == b.dirs.Keys;
  }

  /** Starting a directory uses one place, which the root brings with it. */
  lemma StartLedger(l: Limits, b: Book, d: string, depth: int, probes: seq<string>)
    requires Ledgered(l, b) && d !in b.dirs
    ensures Ledgered(l, Started(b, d, depth, probes))
  {
    hide Tallied, Unrepeated, Budgeted, Conserved, KnownIsPushed, Keys, PushedOnce;
    StartTallies(l, b, d, depth, probes);
    StartKnown(b, d, depth, probes);
  }

  lemma StartTallies(l: Limits, b: Book, d: string, depth: int, probes: seq<string>)
    requires Tallied(b) && Budgeted(l, b) && d !in b.dirs
    ensures var b' := Started(b, d, depth, probes); Tallied(b') && Budgeted(l, b') && (Unrepeated(l, b') <==> Unrepeated(l, b))
  {
    hide Tallied, Unrepeated, Keys;
    var b' := Started(b, d, depth, probes);
    TalliesCarry(b, b');
    assert OpenDirs(b') == OpenDirs(b);
    BudgetsCarry(l, b, b');
  }

  lemma StartKnown(b: Book, d: string, depth: int, probes: seq<string>)
    requires Conserved(b) && KnownIsPushed(b) && d !in b.dirs
    ensures var b' := Started(b, d, depth, probes); Conserved(b') && KnownIsPushed(b') && (PushedOnce(b') <==> PushedOnce(b))
  {
    hide Keys;
    var b' := Started(b, d, depth, probes);
    forall e, p ensures b'.log.pushed[(e, p)] > 0 <==> e in b'.dirs && p in b'.dirs[e].known {
      assert b.log.pushed[(e, p)] > 0 <==> e in b.dirs && p in b.dirs[e].known;
    }
  }

  lemma StartRoom(l: Limits, b: Book, d: string, depth: int, probes: seq<string>)
    requires d !in b.dirs
    ensures PushRoom(l, Started(b, d, depth, probes)) == PushRoom(l, b)
  {
    var b' := Started(b, d, depth, probes);
    assert PendingKeys(b') == PendingKeys(b);
    assert OpenDirs(b') == OpenDirs(b);
  }

  lemma StartPlace(b: Book, d: string, depth: int, probes: seq<string>)
    requires d !in b.dirs
    ensures DirRoom(Started(b, d, depth, probes)) == DirRoom(b) - (if d == "" then 0 else 1)
  {
    var b' := Started(b, d, depth, probes);
    assert b'.dirs.Keys == b.dirs.Keys + {d};
  }

  /** Nothing has been pushed or sent yet. */
  predicate Untouched(r: DirRec)
  {
    r.known == {} && r.total == 0 && r.dispatched == 0 && r.budget == 0
  }

  lemma RestartLedger(l: Limits, b: Book, d: string, probes: seq<string>)
    requires Ledgered(l, b) && d in b.dirs && b.dirs[d].phase == Calibrating && Untouched(b.dirs[d])
    ensures Ledgered(l, Restarted(b, d, probes))
  {
    hide Tallied, Budgeted, KnownIsPushed, Keys, Unrepeated, PushedOnce;
    PushesCarry(b, Restarted(b, d, probes));
    TalliesCarry(b, Restarted(b, d, probes));
    BudgetsCarry(l, b, Restarted(b, d, probes));
  }

  lemma RestartRoom(l: Limits, b: Book, d: string, probes: seq<string>)
    requires d in b.dirs && b.dirs[d].phase == Calibrating
    ensures var b' := Restarted(b, d, probes); PushRoom(l, b') >= PushRoom(l, b) && DirRoom(b') == DirRoom(b)
  {
    var b' := Restarted(b, d, probes);
    Smaller(PendingKeys(b'), PendingKeys(b));
    assert OpenDirs(b') == OpenDirs(b);
    assert b'.dirs.Keys == b.dirs.Keys;
  }

  lemma Smaller<T>(a: set<T>, b: set<T>)
    requires a <= b
    ensures |a| <= |b|
  {
    assert b == a + (b - a);
  }

  /** The pending seeds of one directory, as keys, are as many as its pending map holds. */
  lemma {:induction false} PendingSize(d: string, ps: set<string>)
    ensures |set p | p in ps :: (d, p)| == |ps|
    decreases |ps|
  {
    if ps != {} {
      var q :| q in ps;
      PendingSize(d, ps - {q});
      assert (set p | p in ps :: (d, p)) == (set p | p in ps - {q} :: (d, p)) + {(d, q)};
    } else {
      assert (set p | p in ps :: (d, p)) == {};
    }
  }

  /** Opening a directory: its pending seeds become pushes, beside the template. */
  lemma OpenLedger(l: Limits, b: Book, d: string, cands: multiset<Candidate>, budget: int)
    requires Ledgered(l, b) && d in b.dirs && b.dirs[d].phase == Calibrating && Untouched(b.dirs[d])
    requires forall c :: c in cands ==> c.parentDir == d
    requires |cands| == 0 <==> Bare(l, d, b.dirs[d].pending.Keys)
    requires |cands| > 0 ==> budget == |cands| + l.slack
    requires (forall k: Key :: Keys(cands)[k] <= 1) <==> l.distinct && (d == "" ==> l.apart(b.dirs[d].pending.Keys))
    ensures Ledgered(l, Opened(b, d, cands, budget))
  {
    hide Tallied, KnownIsPushed, PushedOnce, Conserved, Budgeted, Unrepeated, Keys, Opened;
    OpenHistory(b, d, cands, budget);
    OpenTallies(b, d, cands, budget);
    OpenConserves(b, d, cands, budget);
    OpenBudgets(l, b, d, cands, budget);
    OpenDistinct(l, b, d, cands, budget);
  }

  lemma OpenConserves(b: Book, d: string, cands: multiset<Candidate>, budget: int)
    requires Conserved(b) && d in b.dirs
    ensures Conserved(Opened(b, d, cands, budget))
  {
    MapUnion(b.queue, cands, KeyOf);
  }

  lemma OpenBudgets(l: Limits, b: Book, d: string, cands: multiset<Candidate>, budget: int)
    requires Budgeted(l, b) && d in b.dirs && b.dirs[d].phase == Calibrating && Untouched(b.dirs[d])
    requires |cands| == 0 <==> Bare(l, d, b.dirs[d].pending.Keys)
    requires |cands| > 0 ==> budget == |cands| + l.slack
    ensures Budgeted(l, Opened(b, d, cands, budget))
  {
    hide Keys, WithoutFirst;
    var b' := Opened(b, d, cands, budget);
    assert OpenDirs(b') == OpenDirs(b) + {d};
    assert b'.log.openedWith.Keys == b.log.openedWith.Keys + {d};
  }

  lemma OpenDistinct(l: Limits, b: Book, d: string, cands: multiset<Candidate>, budget: int)
    requires Budgeted(l, b) && d in b.dirs && b.dirs[d].phase == Calibrating
    ensures var b' := Opened(b, d, cands, budget);
            Unrepeated(l, b') <==> Unrepeated(l, b) && l.distinct && (d == "" ==> l.apart(b.dirs[d].pending.Keys))
  {
    hide Keys, WithoutFirst;
    var b' := Opened(b, d, cands, budget);
    assert d !in OpenDirs(b);
    assert d in b'.log.openedWith;
  }

  /** A key occurs among d's candidates exactly if it is d's and one of their paths. */
  lemma KeysPresent(d: string, cands: multiset<Candidate>)
    requires forall c :: c in cands ==> c.parentDir == d
    ensures forall e, p :: (e, p) in Keys(cands) <==> e == d && p in (set c | c in cands :: c.path)
  {
    MapPreimage(cands, KeyOf);
    forall c | c in cands ensures KeyOf(c) in Keys(cands) { MapImage(cands, c, KeyOf); }
  }

  lemma OpenHistory(b: Book, d: string, cands: multiset<Candidate>, budget: int)
    requires KnownIsPushed(b) && d in b.dirs && b.dirs[d].known == {}
    requires forall c :: c in cands ==> c.parentDir == d
    ensures KnownIsPushed(Opened(b, d, cands, budget))
    ensures (forall k: Key :: Keys(cands)[k] <= 1) && PushedOnce(b) <==> PushedOnce(Opened(b, d, cands, budget))
  {
    var b' := Opened(b, d, cands, budget);
    KeysPresent(d, cands);
    forall e, p ensures b'.log.pushed[(e, p)] > 0 <==> e in b'.dirs && p in b'.dirs[e].known {
      assert b.log.pushed[(e, p)] > 0 <==> e in b.dirs && p in b.dirs[e].known;
      assert (e, p) in Keys(cands) <==> e == d && p in (set c | c in cands :: c.path);
    }
    forall k: Key ensures b'.log.pushed[k] == b.log.pushed[k] + Keys(cands)[k] && (b.log.pushed[k] == 0 || Keys(cands)[k] == 0) {
      var (e, p) := k;
      assert b.log.pushed[(e, p)] > 0 <==> e in b.dirs && p in b.dirs[e].known;
      assert (e, p) in Keys(cands) <==> e == d && p in (set c | c in cands :: c.path);
    }
  }

  lemma OpenRoom(l: Limits, b: Book, d: string, cands: multiset<Candidate>, budget: int)
    requires d in b.dirs && b.dirs[d].phase == Calibrating
    requires |cands| <= l.template + |b.dirs[d].pending| + (if d == "" then l.nmap else 0)
    ensures PushRoom(l, Opened(b, d, cands, budget)) >= PushRoom(l, b)
    ensures DirRoom(Opened(b, d, cands, budget)) == DirRoom(b)
  {
    var b' := Opened(b, d, cands, budget);
    OpenShape(b, d, cands, budget);
    OpenPending(b, b', d);
    assert b'.dirs.Keys == b.dirs.Keys;
    assert l.template * (|OpenDirs(b)| + 1) == l.template * |OpenDirs(b)| + l.template;
    MapPreimage(cands, KeyOf);
  }

  lemma OpenShape(b: Book, d: string, cands: multiset<Candidate>, budget: int)
    requires d in b.dirs && b.dirs[d].phase == Calibrating
    ensures var b' := Opened(b, d, cands, budget);
            OpenDirs(b') == OpenDirs(b) + {d} && |OpenDirs(b')| == |OpenDirs(b)| + 1
  {
    assert OpenDirs(Opened(b, d, cands, budget)) == OpenDirs(b) + {d};
  }

  /** Clearing one directory's pending seeds. */
  lemma OpenPending(b: Book, b': Book, d: string)
    requires d in b.dirs && b'.dirs.Keys == b.dirs.Keys && b'.dirs[d].pending == map[]
    requires forall e :: e in b.dirs && e != d ==> b'.dirs[e].pending == b.dirs[e].pending
    ensures |PendingKeys(b)| == |PendingKeys(b')| + |b.dirs[d].pending|
  {
    PendingSize(d, b.dirs[d].pending.Keys);
    PendingSplit(b, b', d);
  }

  ghost function MyPending(b: Book, d: string): set<Key>
    requires d in b.dirs
  {
    set p | p in b.dirs[d].pending.Keys :: (d, p)
  }

  lemma PendingSplit(b: Book, b': Book, d: string)
    requires d in b.dirs && b'.dirs.Keys == b.dirs.Keys && b'.dirs[d].pending == map[]
    requires forall e :: e in b.dirs && e != d ==> b'.dirs[e].pending == b.dirs[e].pending
    ensures |PendingKeys(b)| == |PendingKeys(b')| + |MyPending(b, d)|
  {
    forall k: Key ensures k in PendingKeys(b) <==> k in PendingKeys(b') || k in MyPending(b, d) {
      if k.0 == d {
        assert k in MyPending(b, d) <==> k.1 in b.dirs[d].pending;
      }
    }
    assert PendingKeys(b) == PendingKeys(b') + MyPending(b, d);
    assert PendingKeys(b') !! MyPending(b, d);
  }
}
