/** Every accounting operation keeps the books balanced. */
module Invariants {
  import opened ScanTypes
  import opened Counting
  import opened Accounting

  lemma {:induction false} WithoutFirstCounts(order: seq<string>, d: string)
    ensures multiset(WithoutFirst(order, d)) == multiset(order) - multiset{d}
  {
    if order == [] {
    } else if order[0] == d {
      assert order == [d] + order[1..];
    } else {
      WithoutFirstCounts(order[1..], d);
      assert order == [order[0]] + order[1..];
    }
  }

  /** Two books agree on everything the invariant says about e. */
  ghost predicate Same(b: Book, b': Book, e: string)
  {
    && e in b.dirs && e in b'.dirs && b'.dirs[e] == b.dirs[e]
    && In(b'.queue, e) == In(b.queue, e) && In(b'.flying, e) == In(b.flying, e)
    && b'.probes[e] == b.probes[e] && multiset(b'.order)[e] == multiset(b.order)[e]
    && Lost(b', e) == Lost(b, e)
  }

  lemma Carry(b: Book, b': Book, e: string)
    requires Same(b, b', e) && DirOk(b, e)
    ensures DirOk(b', e)
  {
  }

  ghost predicate Others(b: Book, d: string)
  {
    forall e :: e in b.dirs && e != d ==> DirOk(b, e)
  }

  /** From b to b' nothing changed for any directory but d. */
  ghost predicate Only(b: Book, b': Book, d: string)
  {
    && b'.dirs.Keys <= b.dirs.Keys + {d}
    && forall e :: e in b.dirs && e != d ==> Same(b, b', e)
  }

  /** An operation that touches only d leaves every other directory balanced. */
  lemma OthersKept(b: Book, b': Book, d: string)
    requires Others(b, d) && Only(b, b', d)
    ensures Others(b', d)
  {
    forall e | e in b'.dirs && e != d ensures DirOk(b', e) {
      assert e in b.dirs;
      Carry(b, b', e);
    }
  }

  /** An operation that touches only d, and leaves d in order, keeps the whole invariant. */
  lemma Rebuild(b: Book, b': Book, d: string)
    requires Others(b, d) && d in b'.dirs && Only(b, b', d)
    requires Refs(b') && DirOk(b', d)
    ensures Inv(b')
  {
    OthersKept(b, b', d);
  }

  /** Candidates of d add to d's count only. */
  lemma InOfUnion(q: multiset<Candidate>, cands: multiset<Candidate>, d: string)
    requires forall c :: c in cands ==> c.parentDir == d
    ensures forall e :: In(q + cands, e) == In(q, e) + (if e == d then |cands| else 0)
  {
    forall e ensures In(q + cands, e) == In(q, e) + (if e == d then |cands| else 0) {
      var p := (c: Candidate) => c.parentDir == e;
      CountUnion(q, cands, p);
      if e == d { CountAll(cands, p); } else { CountNone(cands, p); }
    }
  }

  // What each operation touches, apart from the invariant.

  lemma StartTouches(b: Book, d: string, depth: int, probes: seq<string>)
    ensures var b' := Started(b, d, depth, probes);
            Only(b, b', d) && (Refs(b) ==> Refs(b')) && multiset(b'.order)[d] == multiset(b.order)[d] + 1
  {
    assert multiset(b.order + [d]) == multiset(b.order) + multiset{d};
  }

  lemma OrderTouches(b: Book, d: string)
    requires d in b.order
    ensures var b' := b.(order := WithoutFirst(b.order, d));
            Only(b, b', d) && (Refs(b) ==> Refs(b')) && multiset(b'.order)[d] == multiset(b.order)[d] - 1
  {
    var b' := b.(order := WithoutFirst(b.order, d));
    WithoutFirstCounts(b.order, d);
    forall x | x in b'.order ensures x in b.order {
      assert x in multiset(b'.order);
      assert x in multiset(b.order);
    }
  }

  lemma OpenTouches(b: Book, d: string, cands: multiset<Candidate>, budget: int)
    requires d in b.dirs && d in b.order && forall c :: c in cands ==> c.parentDir == d
    ensures var b' := Opened(b, d, cands, budget);
            && Only(b, b', d) && (Refs(b) ==> Refs(b')) && multiset(b'.order)[d] == multiset(b.order)[d] - 1
            && In(b'.queue, d) == In(b.queue, d) + |cands|
  {
    OrderTouches(b, d);
    InOfUnion(b.queue, cands, d);
  }

  lemma ProbeTouches(b: Book, d: string)
    requires d in b.dirs
    ensures |b.dirs[d].probeQueue| > 0 ==> Only(b, ProbeOut(b, d), d) && (Refs(b) ==> Refs(ProbeOut(b, d)))
    ensures Only(b, ProbeBack(b, d), d) && (Refs(b) ==> Refs(ProbeBack(b, d)))
  {
  }

  lemma DiscardTouches(b: Book, c: Candidate, over: bool)
    requires c in b.queue && c.parentDir in b.dirs
    ensures var b' := Discarded(b, c, over);
            && Only(b, b', c.parentDir) && (Refs(b) ==> Refs(b'))
            && In(b.queue, c.parentDir) == In(b'.queue, c.parentDir) + 1
  {
    InMinus(b.queue, c);
  }

  /** The directories' gates and probes have not moved. */
  ghost predicate SameGates(a: map<string, DirRec>, b: map<string, DirRec>)
  {
    a.Keys == b.Keys && forall d :: d in a ==>
      && b[d].capped == a[d].capped && b[d].dispatched == a[d].dispatched && b[d].budget == a[d].budget
      && b[d].probeQueue == a[d].probeQueue
  }

  lemma GatesChain(a: map<string, DirRec>, b: map<string, DirRec>, c: map<string, DirRec>)
    requires SameGates(a, b) && SameGates(b, c)
    ensures SameGates(a, c)
  {
  }

  lemma DiscardRest(b: Book, c: Candidate, over: bool)
    requires c.parentDir in b.dirs
    ensures var r := Discarded(b, c, over);
            && r.queue == b.queue - multiset{c} && r.order == b.order && r.flying == b.flying && r.probes == b.probes
            && SameGates(b.dirs, r.dirs)
  {
  }

  lemma MinusOneMore(q: multiset<Candidate>, a: multiset<Candidate>, c: Candidate)
    ensures q - (a + multiset{c}) == q - a - multiset{c}
  {
  }

  /** Discarding takes the candidates off the queue, and moves no gate. */
  lemma {:induction false} DiscardedRest(b: Book, cs: seq<Candidate>, checked: bool)
    requires forall i :: 0 <= i < |cs| ==> cs[i].parentDir in b.dirs
    ensures var r := DiscardedAll(b, cs, checked);
            && r.queue == b.queue - multiset(cs) && r.order == b.order && r.flying == b.flying && r.probes == b.probes
            && SameGates(b.dirs, r.dirs)
  {
    hide Discarded;
    if cs != [] {
      hide SameGates;
      var n := |cs| - 1;
      assert cs == cs[..n] + [cs[n]];
      DiscardedRest(b, cs[..n], checked);
      var b1 := DiscardedAll(b, cs[..n], checked);
      var d := cs[n].parentDir;
      var over := checked && b1.dirs[d].dispatched >= b1.dirs[d].budget;
      DiscardRest(b1, cs[n], over);
      GatesChain(b.dirs, b1.dirs, Discarded(b1, cs[n], over).dirs);
      MinusOneMore(b.queue, multiset(cs[..n]), cs[n]);
    }
  }

  lemma SendTouches(b: Book, c: Candidate)
    requires c in b.queue && c.parentDir in b.dirs
    ensures var b' := Sent(b, c);
            && Only(b, b', c.parentDir) && (Refs(b) ==> Refs(b'))
            && In(b.queue, c.parentDir) == In(b'.queue, c.parentDir) + 1
            && In(b'.flying, c.parentDir) == In(b.flying, c.parentDir) + 1
  {
    InMinus(b.queue, c);
    InPlus(b.flying, c);
  }

  lemma SettleTouches(b: Book, c: Candidate)
    requires c in b.flying && c.parentDir in b.dirs
    ensures var b' := Settled(b, c);
            && Only(b, b', c.parentDir) && (Refs(b) ==> Refs(b'))
            && In(b.flying, c.parentDir) == In(b'.flying, c.parentDir) + 1
  {
    InMinus(b.flying, c);
  }

  lemma AddTouches(b: Book, d: string, c: Candidate)
    requires d in b.dirs && c.parentDir == d
    ensures var b' := Added(b, d, c);
            Only(b, b', d) && (Refs(b) ==> Refs(b')) && In(b'.queue, d) == In(b.queue, d) + 1
  {
    InPlus(b.queue, c);
  }

  lemma SwapTouches(b: Book, c: Candidate, c': Candidate)
    requires c in b.queue && c.parentDir in b.dirs && KeyOf(c') == KeyOf(c)
    ensures var b' := Swapped(b, c, c');
            && Only(b, b', c.parentDir) && (Refs(b) ==> Refs(b'))
            && In(b'.queue, c.parentDir) == In(b.queue, c.parentDir)
  {
    InMinus(b.queue, c);
    InPlus(b.queue - multiset{c}, c');
  }

  lemma RecordTouches(b: Book, d: string, r: DirRec)
    ensures Only(b, b.(dirs := b.dirs[d := r]), d) && (Refs(b) ==> Refs(b.(dirs := b.dirs[d := r])))
  {
  }

  /** A directory that does not exist has no candidates. */
  lemma Unmentioned(b: Book, d: string)
    requires Refs(b) && d !in b.dirs
    ensures In(b.queue, d) == 0 && In(b.flying, d) == 0 && b.probes[d] == 0 && Lost(b, d) == 0
    ensures multiset(b.order)[d] == 0
  {
    CountNone(b.queue, (c: Candidate) => c.parentDir == d);
    CountNone(b.flying, (c: Candidate) => c.parentDir == d);
  }

  /** A new directory leaves the books balanced, but for itself if it has nothing to probe. */
  lemma StartKeeps(b: Book, d: string, depth: int, probes: seq<string>)
    requires Inv(b) && d !in b.dirs
    ensures probes != [] ==> Inv(Started(b, d, depth, probes))
    ensures probes == [] ==> Finishing(Started(b, d, depth, probes), d)
  {
    Unmentioned(b, d);
    StartFresh(b, d, depth, probes);
  }

  lemma StartFresh(b: Book, d: string, depth: int, probes: seq<string>)
    requires Refs(b) && Others(b, d)
    requires In(b.queue, d) == 0 && In(b.flying, d) == 0 && b.probes[d] == 0 && Lost(b, d) == 0
    requires multiset(b.order)[d] == 0
    ensures probes != [] ==> Inv(Started(b, d, depth, probes))
    ensures probes == [] ==> Finishing(Started(b, d, depth, probes), d)
  {
    StartTouches(b, d, depth, probes);
    OthersKept(b, Started(b, d, depth, probes), d);
  }

  lemma RestartKeeps(b: Book, d: string, probes: seq<string>)
    requires Finishing(b, d)
    ensures probes != [] ==> Inv(Restarted(b, d, probes))
    ensures probes == [] ==> Finishing(Restarted(b, d, probes), d)
  {
    assert d in multiset(b.order);
    OrderTouches(b, d);
    OthersKept(b, b.(order := WithoutFirst(b.order, d)), d);
    StartFresh(b.(order := WithoutFirst(b.order, d)), d, b.dirs[d].depth, probes);
  }

  /** Opening a directory: its whole candidate set is queued and counted. */
  lemma OpenKeeps(b: Book, d: string, cands: multiset<Candidate>, budget: int)
    requires Finishing(b, d)
    requires forall c :: c in cands ==> c.parentDir == d
    requires budget >= 0
    ensures Inv(Opened(b, d, cands, budget))
  {
    assert d in multiset(b.order);
    OpenTouches(b, d, cands, budget);
    Rebuild(b, Opened(b, d, cands, budget), d);
  }

  lemma ProbeOutKeeps(b: Book, d: string)
    requires Inv(b) && d in b.dirs && |b.dirs[d].probeQueue| > 0
    ensures Inv(ProbeOut(b, d))
  {
    hide In, Refs, Only, Others;
    assert DirOk(b, d);
    ProbeTouches(b, d);
    Rebuild(b, ProbeOut(b, d), d);
  }

  /** A probe's return: the directory is still calibrating, or exactly at the end of it. */
  lemma ProbeBackKeeps(b: Book, d: string)
    requires Inv(b) && d in b.probes
    ensures d in b.dirs && b.dirs[d].phase == Calibrating
    ensures b.dirs[d].probesDone + 1 < b.dirs[d].probesTotal ==> Inv(ProbeBack(b, d))
    ensures b.dirs[d].probesDone + 1 >= b.dirs[d].probesTotal ==> Finishing(ProbeBack(b, d), d)
  {
    assert DirOk(b, d);
    ProbeTouches(b, d);
    OthersKept(b, ProbeBack(b, d), d);
  }

  /** A queued candidate's directory is always scanning: the silent drop of a candidate of any
      other directory cannot happen. */
  lemma QueuedIsScanning(b: Book, c: Candidate)
    requires Inv(b) && (c in b.queue || c in b.flying)
    ensures c.parentDir in b.dirs && b.dirs[c.parentDir].phase == Scanning
  {
    var d := c.parentDir;
    assert DirOk(b, d);
    if c in b.queue {
      CountHas(b.queue, c, (x: Candidate) => x.parentDir == d);
    } else {
      CountHas(b.flying, c, (x: Candidate) => x.parentDir == d);
    }
  }

  lemma DiscardKeeps(b: Book, c: Candidate, over: bool)
    requires Inv(b) && c in b.queue
    ensures c.parentDir in b.dirs && Inv(Discarded(b, c, over))
  {
    hide In, Refs, Only, Others;
    QueuedIsScanning(b, c);
    assert DirOk(b, c.parentDir);
    DiscardTouches(b, c, over);
    Rebuild(b, Discarded(b, c, over), c.parentDir);
  }

  lemma SendKeeps(b: Book, c: Candidate)
    requires Inv(b) && c in b.queue
    requires c.parentDir in b.dirs && b.dirs[c.parentDir].dispatched < b.dirs[c.parentDir].budget
    ensures Inv(Sent(b, c))
  {
    hide In, Refs, Only, Others;
    QueuedIsScanning(b, c);
    assert DirOk(b, c.parentDir);
    SendTouches(b, c);
    Rebuild(b, Sent(b, c), c.parentDir);
  }

  lemma SettleKeeps(b: Book, c: Candidate)
    requires Inv(b) && c in b.flying
    ensures c.parentDir in b.dirs && Inv(Settled(b, c))
  {
    hide In, Refs, Only, Others;
    QueuedIsScanning(b, c);
    assert DirOk(b, c.parentDir);
    SettleTouches(b, c);
    Rebuild(b, Settled(b, c), c.parentDir);
  }

  /** A new candidate in a directory that is scanning, or done and thereby reopened. */
  lemma AddKeeps(b: Book, d: string, c: Candidate)
    requires Inv(b) && d in b.dirs && b.dirs[d].phase != Calibrating && c.parentDir == d
    ensures Inv(Added(b, d, c))
  {
    hide In, Refs, Only, Others;
    assert DirOk(b, d);
    AddTouches(b, d, c);
    Rebuild(b, Added(b, d, c), d);
  }

  lemma HoldKeeps(b: Book, d: string, c: Candidate)
    requires Inv(b) && d in b.dirs && b.dirs[d].phase == Calibrating && c.parentDir == d
    ensures Inv(Held(b, d, c))
  {
    assert DirOk(b, d);
    RecordTouches(b, d, Held(b, d, c).dirs[d]);
    Rebuild(b, Held(b, d, c), d);
  }

  lemma SwapKeeps(b: Book, c: Candidate, c': Candidate)
    requires Inv(b) && c in b.queue && KeyOf(c') == KeyOf(c)
    ensures Inv(Swapped(b, c, c'))
  {
    hide In, Refs, Only, Others;
    QueuedIsScanning(b, c);
    assert DirOk(b, c.parentDir);
    SwapTouches(b, c, c');
    Rebuild(b, Swapped(b, c, c'), c.parentDir);
  }

  /** Rescoring keeps every key, so it moves no count. */
  lemma RescoreCounts(m: multiset<Candidate>, f: Candidate -> Candidate)
    requires forall c :: KeyOf(f(c)) == KeyOf(c)
    ensures forall d :: In(MapAll(m, f), d) == In(m, d)
    ensures Keys(MapAll(m, f)) == Keys(m)
  {
    forall d ensures In(MapAll(m, f), d) == In(m, d) {
      forall c: Candidate ensures f(c).parentDir == c.parentDir { assert KeyOf(f(c)) == KeyOf(c); }
      MapCount(m, f, (c: Candidate) => c.parentDir == d);
    }
    MapThrough(m, f, KeyOf);
  }

  lemma RescoreRefs(b: Book, f: Candidate -> Candidate)
    requires Refs(b) && forall c :: KeyOf(f(c)) == KeyOf(c)
    ensures Refs(Rescored(b, f))
    ensures forall e :: e in b.dirs ==> Same(b, Rescored(b, f), e)
  {
    RescoreCounts(b.queue, f);
    MapPreimage(b.queue, f);
    var b' := Rescored(b, f);
    forall c | c in b'.queue ensures c.parentDir in b'.dirs {
      var x :| x in b.queue && f(x) == c;
      assert KeyOf(f(x)) == KeyOf(x);
    }
  }

  lemma RescoreKeeps(b: Book, f: Candidate -> Candidate)
    requires Inv(b) && forall c :: KeyOf(f(c)) == KeyOf(c)
    ensures Inv(Rescored(b, f))
  {
    RescoreRefs(b, f);
    forall e | e in b.dirs ensures DirOk(Rescored(b, f), e) { Carry(b, Rescored(b, f), e); }
  }

  lemma RescoreFinishing(b: Book, f: Candidate -> Candidate, d: string)
    requires Finishing(b, d) && forall c :: KeyOf(f(c)) == KeyOf(c)
    ensures Finishing(Rescored(b, f), d)
  {
    RescoreRefs(b, f);
    OthersKept(b, Rescored(b, f), d);
    assert Same(b, Rescored(b, f), d);
  }

  lemma TrapKeeps(b: Book, d: string, capped: bool, wildcard: bool)
    requires Inv(b) && d in b.dirs
    ensures Inv(Trapped(b, d, capped, wildcard))
  {
    hide In, Refs, Only, Others;
    assert DirOk(b, d);
    RecordTouches(b, d, Trapped(b, d, capped, wildcard).dirs[d]);
    Rebuild(b, Trapped(b, d, capped, wildcard), d);
  }
}
