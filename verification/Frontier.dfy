/** The coordinator's priority frontier: a binary max-heap by score, kept in one slice. */
module FrontierHeap {
  import opened ScanTypes
  import opened Heap
  import opened Counting
  import opened Sorting

  /** The seeded random stream: only the range of a draw matters here. */
  class Rng {
    constructor () {}

    method Intn(n: nat) returns (r: nat)
      requires n > 0
      ensures r < n
    {
      r :| r < n;
    }

    method Coin() returns (heads: bool)
    {
      heads :| true;
    }
  }

  ghost predicate IsTop(all: multiset<Candidate>, m: Candidate)
  {
    m in all && forall x :: x in all ==> x.score <= m.score
  }

  function Scaled(max: real, frac: real): (t: real)
    requires frac >= 0.0
    ensures max > 0.0 ==> t <= max
  {
    max * (1.0 - frac)
  }

  /** c scores within the fraction of the top score when that is positive, and is a top one when not. */
  ghost predicate InBand(all: multiset<Candidate>, c: Candidate, frac: real)
    requires frac >= 0.0
  {
    exists m :: IsTop(all, m) && c.score >= if m.score > 0.0 then Scaled(m.score, frac) else m.score
  }

  lemma TopIn(all: multiset<Candidate>, m: Candidate, c: Candidate, frac: real)
    requires frac >= 0.0 && IsTop(all, m)
    requires c.score >= m.score || (m.score > 0.0 && c.score >= Scaled(m.score, frac))
    ensures InBand(all, c, frac)
  {
  }

  class Frontier {
    var items: seq<Candidate>

    ghost predicate Valid()
      reads this
    {
      IsHeap(items)
    }

    ghost function Contents(): multiset<Candidate>
      reads this
    {
      multiset(items)
    }

    constructor ()
      ensures Valid() && Contents() == multiset{}
    {
      items := [];
    }

    predicate Empty()
      reads this
      ensures Empty() <==> Contents() == multiset{}
    {
      assert items != [] ==> items[0] in multiset(items);
      items == []
    }

    function Len(): (n: nat)
      reads this
      ensures n == |Contents()|
    {
      |items|
    }

    /** container/heap's sift-down: true if the element at i0 moved. */
    method Down(i0: nat, n: nat) returns (moved: bool)
      requires n <= |items|
      modifies this
      ensures items == SiftDown(old(items), i0, n)
      ensures moved == Sinks(old(items), i0, n)
    {
      var i: nat := i0;
      while Sinks(items, i, n)
        invariant i0 <= i && n <= |items| == |old(items)|
        invariant SiftDown(items, i, n) == SiftDown(old(items), i0, n)
        invariant i == i0 ==> items == old(items)
        invariant i > i0 ==> Sinks(old(items), i0, n)
        decreases n - i
      {
        var j := LargerChild(items, i, n);
        items := Swapped(items, i, j);
        i := j;
      }
      moved := i > i0;
    }

    /** container/heap's sift-up. */
    method Up(j0: nat)
      requires j0 < |items|
      modifies this
      ensures items == SiftUp(old(items), j0)
    {
      var j: nat := j0;
      while j > 0 && items[j].score > items[Parent(j)].score
        invariant j < |items| == |old(items)|
        invariant SiftUp(items, j) == SiftUp(old(items), j0)
        decreases j
      {
        var i := Parent(j);
        items := Swapped(items, i, j);
        j := i;
      }
    }

    /** container/heap's Fix: repairs a heap after its element i changed. */
    method Fix(i: nat)
      requires i < |items| && HeapBut(items, |items|, i)
      modifies this
      ensures Valid() && Contents() == old(Contents())
    {
      FixRestores(items, i, |items|);
      assert forall s: seq<Candidate> :: s[..|s|] == s && s + s[|s|..] == s;
      var moved := Down(i, |items|);
      if !moved {
        Up(i);
      }
    }

    /** container/heap's Init. */
    method Init()
      modifies this
      ensures Valid() && Contents() == old(Contents())
    {
      var n := |items|;
      var i: nat := n / 2;
      HeapifyOrders(items, i);
      while i > 0
        invariant |items| == n
        invariant Heapify(items, i) == Heapify(old(items), n / 2)
      {
        i := i - 1;
        var _ := Down(i, n);
      }
    }

    method Push(c: Candidate)
      requires Valid()
      modifies this
      ensures Valid() && Contents() == old(Contents()) + multiset{c}
    {
      items := items + [c];
      var n := |items| - 1;
      assert OrderedAbove(items, |items|, n) by {
        forall k | 0 < k < |items| && k != n ensures Edge(items, k) { assert Edge(old(items), k); }
      }
      SiftUpOrders(items, n);
      SiftUpPermutes(items, n);
      Up(n);
    }

    /** container/heap's Pop: the root, which is a maximum. */
    method Pop() returns (c: Candidate)
      requires Valid() && !Empty()
      modifies this
      ensures Valid() && old(Contents()) == Contents() + multiset{c}
      ensures forall x :: x in old(Contents()) ==> x.score <= c.score
    {
      var _ := TopOf();
      c := RemoveAt(0);
    }

    /** container/heap's Remove, which Pop is too with i = 0. */
    method RemoveAt(i: nat) returns (c: Candidate)
      requires Valid() && i < |items|
      modifies this
      ensures Valid() && c == old(items)[i]
      ensures old(Contents()) == Contents() + multiset{c}
    {
      var n := |items| - 1;
      c := items[i];
      RemovedRestores(items, i);
      if n != i {
        items := Swapped(items, i, n);
        var moved := Down(i, n);
        items := items[..n];
        if !moved {
          Up(i);
        }
      } else {
        items := items[..n];
      }
    }

    /** Rescores every queued candidate in place and re-heapifies. */
    method Reprioritize(fn: Candidate -> Candidate)
      modifies this
      ensures Valid() && Contents() == MapAll(old(Contents()), fn)
    {
      var i := 0;
      while i < |items|
        invariant i <= |items| == |old(items)|
        invariant forall k :: 0 <= k < |items| ==> items[k] == if k < i then fn(old(items)[k]) else old(items)[k]
      {
        items := items[i := fn(items[i])];
        i := i + 1;
      }
      MapSeq(old(items), items, fn);
      Init();
    }

    /** A candidate drawn from the middle third by score. */
    method SampleMidTier(rng: Rng) returns (r: Option<Candidate>)
      requires Valid()
      modifies this
      ensures Valid()
      ensures r.None? <==> old(Contents()) == multiset{}
      ensures r.None? ==> Contents() == old(Contents())
      ensures r.Some? ==> old(Contents()) == Contents() + multiset{r.value}
      ensures r.Some? && |old(items)| >= 2 ==>
                && Count(Contents(), (c: Candidate) => c.score >= r.value.score) >= |old(items)| / 3
                && Count(Contents(), (c: Candidate) => c.score <= r.value.score) >= |old(items)| - 2 * |old(items)| / 3
    {
      var n := |items|;
      if n == 0 { return None; }
      assert items[0] in Contents();
      var order := Sort(items);
      var lo, hi := n / 3, 2 * n / 3;
      if hi <= lo { lo, hi := 0, n; }
      var p := rng.Intn(hi - lo);
      p := lo + p;
      var c := RemoveAt(order[p]);
      RankOf(old(items), order, p, Contents());
      r := Some(c);
    }

    /** A candidate within the given fraction of the top score; a maximum if that is not positive. */
    method PopBand(rng: Rng, bandFrac: real) returns (c: Candidate)
      requires Valid() && !Empty() && 0.0 <= bandFrac
      modifies this
      ensures Valid() && old(Contents()) == Contents() + multiset{c}
      ensures InBand(old(Contents()), c, bandFrac)
    {
      ghost var top := TopOf();
      var max := items[0].score;
      if |items| <= 1 || max <= 0.0 {
        c := RemoveAt(0);
        TopIn(old(Contents()), top, c, bandFrac);
        return;
      }
      var thresh := Scaled(max, bandFrac);
      var band := AtLeast(thresh);
      assert 0 in band;
      var draw := rng.Intn(|band|);
      assert band[draw] in band;
      c := RemoveAt(band[draw]);
      TopIn(old(Contents()), top, c, bandFrac);
    }

    lemma TopOf() returns (top: Candidate)
      requires Valid() && !Empty()
      ensures top == items[0] && IsTop(Contents(), top)
    {
      top := items[0];
      forall x | x in Contents() ensures x.score <= top.score {
        var k: nat :| k < |items| && items[k] == x;
        RootIsMax(items, k);
      }
    }

    /** The positions that score at least thresh. */
    method AtLeast(thresh: real) returns (band: seq<nat>)
      ensures forall k :: k in band <==> 0 <= k < |items| && items[k].score >= thresh
    {
      band := [];
      var i := 0;
      while i < |items|
        invariant i <= |items|
        invariant forall k :: k in band <==> 0 <= k < i && items[k].score >= thresh
      {
        if items[i].score >= thresh { band := band + [i]; }
        i := i + 1;
      }
    }

    /** Rewrites the queued candidate at (dir, path), if any, and repairs the heap around it. */
    method UpdateMatching(dir: string, path: string, fn: Candidate -> Candidate) returns (found: bool)
      requires Valid()
      modifies this
      ensures Valid()
      ensures found <==> exists c :: c in old(Contents()) && c.parentDir == dir && c.path == path
      ensures !found ==> Contents() == old(Contents())
      ensures found ==> exists c :: c in old(Contents()) && c.parentDir == dir && c.path == path
                                    && Contents() == old(Contents()) - multiset{c} + multiset{fn(c)}
    {
      var i := 0;
      while i < |items|
        invariant i <= |items| && items == old(items)
        invariant forall k :: 0 <= k < i ==> items[k].parentDir != dir || items[k].path != path
      {
        if items[i].parentDir == dir && items[i].path == path {
          ghost var c := items[i];
          assert c in Contents();
          ReplaceOne(items, |items|, i, fn(items[i]));
          items := items[i := fn(items[i])];
          Fix(i);
          return true;
        }
        i := i + 1;
      }
      return false;
    }

    /** A copy of every queued candidate. */
    method All() returns (all: seq<Candidate>)
      ensures multiset(all) == Contents()
    {
      all := items;
    }

    /** Takes out every candidate that matches: what is returned and what stays split the frontier. */
    method RemoveMatching(pred: Candidate -> bool) returns (removed: seq<Candidate>)
      modifies this
      ensures Valid()
      ensures old(Contents()) == Contents() + multiset(removed)
      ensures forall c :: c in removed ==> pred(c)
      ensures forall c :: c in Contents() ==> !pred(c)
    {
      removed := [];
      var kept: seq<Candidate> := [];
      var i := 0;
      while i < |items|
        invariant i <= |items| && items == old(items)
        invariant multiset(kept) + multiset(removed) == multiset(items[..i])
        invariant forall c :: c in removed ==> pred(c)
        invariant forall c :: c in kept ==> !pred(c)
      {
        assert items[..i + 1] == items[..i] + [items[i]];
        if pred(items[i]) {
          removed := removed + [items[i]];
        } else {
          kept := kept + [items[i]];
        }
        i := i + 1;
      }
      assert items[..|items|] == items;
      items := kept;
      Init();
    }

    /** The k highest queued candidates, best first; the heap is not touched. */
    method TopK(k: nat) returns (top: seq<Candidate>, ghost rest: seq<Candidate>)
      ensures |top| == if |items| > k then k else |items|
      ensures Falling(top)
      ensures multiset(top) + multiset(rest) == Contents()
      ensures forall x, y :: x in top && y in rest ==> x.score >= y.score
    {
      var order := Sort(items);
      var sorted: seq<Candidate> := [];
      var i := 0;
      while i < |order|
        invariant i <= |order| && |sorted| == i
        invariant sorted == Pick(items, order)[..i]
      {
        sorted := sorted + [items[order[i]]];
        i := i + 1;
      }
      assert sorted == Pick(items, order);
      if |sorted| > k {
        top, rest := sorted[..k], sorted[k..];
        assert sorted == top + rest;
      } else {
        top, rest := sorted, [];
      }
    }
  }

  /** Swapping a heap's last element into place i leaves the shorter heap wrong at most around i. */
  lemma RemovedHeap(s: seq<Candidate>, i: nat)
    requires IsHeap(s) && i < |s| - 1
    ensures HeapBut(Swapped(s, i, |s| - 1), |s| - 1, i)
  {
    var n := |s| - 1;
    var t := Swapped(s, i, n);
    forall k | 0 < k < n && k != i && Parent(k) != i ensures Edge(t, k) {
      assert Edge(s, k);
    }
    forall k | 0 < k < n && Parent(k) == i && i > 0 ensures Skip(t, k) {
      assert Edge(s, k) && Edge(s, i);
    }
  }

  /** What Remove leaves: the last element goes to place i, is fixed there, and the tail is cut. */
  ghost function Removed(s: seq<Candidate>, i: nat): (t: seq<Candidate>)
    requires i < |s|
    ensures |t| == |s| - 1
  {
    var n := |s| - 1;
    if i == n then s[..n]
    else
      var u := Swapped(s, i, n);
      if Sinks(u, i, n) then SiftDown(u, i, n)[..n] else SiftUp(u[..n], i)
  }

  lemma RemovedRestores(s: seq<Candidate>, i: nat)
    requires IsHeap(s) && i < |s|
    ensures IsHeap(Removed(s, i))
    ensures multiset(s) == multiset(Removed(s, i)) + multiset{s[i]}
  {
    var n := |s| - 1;
    if i == n {
      assert s == s[..n] + [s[n]];
      forall k | 0 < k < n ensures Edge(s[..n], k) { assert Edge(s, k); }
    } else {
      SwappedPermutes(s, i, n);
      RemovedHeap(s, i);
      FixAndCut(Swapped(s, i, n), i);
    }
  }

  lemma FixAndCut(u: seq<Candidate>, i: nat)
    requires i < |u| - 1 && HeapBut(u, |u| - 1, i)
    ensures var n := |u| - 1;
            var t := if Sinks(u, i, n) then SiftDown(u, i, n)[..n] else SiftUp(u[..n], i);
            IsHeap(t) && multiset(u) == multiset(t) + multiset{u[n]}
  {
    var n := |u| - 1;
    hide SiftDown, SiftUp, Sinks, HeapBut;
    FixRestores(u, i, n);
    FixedPrefix(u, i, n);
    CutLast(Fixed(u, i, n), u[n]) by { assert Fixed(u, i, n)[n..][0] == u[n..][0]; }
  }

  lemma FixedPrefix(u: seq<Candidate>, i: nat, n: nat)
    requires i < n <= |u|
    ensures Fixed(u, i, n)[..n] == if Sinks(u, i, n) then SiftDown(u, i, n)[..n] else SiftUp(u[..n], i)
  {
  }

  lemma CutLast(f: seq<Candidate>, c: Candidate)
    requires |f| > 0 && f[|f| - 1] == c
    ensures multiset(f) == multiset(f[..|f| - 1]) + multiset{c}
  {
    assert f == f[..|f| - 1] + [c];
  }
}
