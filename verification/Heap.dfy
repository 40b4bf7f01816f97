/** Array-shaped binary max-heaps of candidates, as facts about sequences. */
module Heap {
  import opened ScanTypes

  function Parent(k: nat): nat
    requires k > 0
  {
    (k - 1) / 2
  }

  /** The element at k scores no more than its parent. */
  ghost predicate Edge(s: seq<Candidate>, k: nat)
    requires 0 < k < |s|
  {
    s[Parent(k)].score >= s[k].score
  }

  /** The element at k scores no more than its grandparent. */
  ghost predicate Skip(s: seq<Candidate>, k: nat)
    requires 0 < k < |s| && Parent(k) > 0
  {
    s[Parent(Parent(k))].score >= s[k].score
  }

  /** Every child below n whose parent is at lo or later scores no more than that parent. */
  ghost predicate OrderedFrom(s: seq<Candidate>, n: nat, lo: nat)
    requires n <= |s|
  {
    forall k :: 0 < k < n && Parent(k) >= lo ==> Edge(s, k)
  }

  ghost predicate IsHeap(s: seq<Candidate>)
  {
    OrderedFrom(s, |s|, 0)
  }

  /** Ordered except that the element at `hole` may be too small for its children. */
  ghost predicate OrderedBelow(s: seq<Candidate>, n: nat, lo: nat, hole: nat)
    requires n <= |s|
  {
    && (forall k :: 0 < k < n && Parent(k) >= lo && Parent(k) != hole ==> Edge(s, k))
    && (forall k :: 0 < k < n && Parent(k) == hole && hole > 0 && Parent(hole) >= lo ==> Skip(s, k))
  }

  /** Ordered except that the element at `hole` may be too large for its parent. */
  ghost predicate OrderedAbove(s: seq<Candidate>, n: nat, hole: nat)
    requires n <= |s|
  {
    && (forall k :: 0 < k < n && k != hole ==> Edge(s, k))
    && (forall k :: 0 < k < n && Parent(k) == hole && hole > 0 ==> Skip(s, k))
  }

  /** The root of a heap scores at least as much as every element. */
  lemma {:induction false} RootIsMax(s: seq<Candidate>, k: nat)
    requires IsHeap(s) && k < |s|
    ensures s[0].score >= s[k].score
    decreases k
  {
    if k > 0 {
      assert Edge(s, k);
      RootIsMax(s, Parent(k));
    }
  }

  function Swapped(s: seq<Candidate>, i: nat, j: nat): (t: seq<Candidate>)
    requires i < |s| && j < |s|
    ensures |t| == |s|
  {
    s[i := s[j]][j := s[i]]
  }

  lemma SwappedPermutes(s: seq<Candidate>, i: nat, j: nat)
    requires i < |s| && j < |s|
    ensures multiset(Swapped(s, i, j)) == multiset(s)
  {
  }

  /** The larger child of i below n, the left one on a tie; n if there is none. */
  function LargerChild(s: seq<Candidate>, i: nat, n: nat): (j: nat)
    requires n <= |s|
    ensures j < n ==> 0 < j && i < j && Parent(j) == i
    ensures j >= n ==> 2 * i + 1 >= n
  {
    var j1 := 2 * i + 1;
    if j1 >= n then n
    else if j1 + 1 < n && s[j1 + 1].score > s[j1].score then j1 + 1
    else j1
  }

  /** Whether sifting i down moves it at all. */
  predicate Sinks(s: seq<Candidate>, i: nat, n: nat)
    requires n <= |s|
  {
    var j := LargerChild(s, i, n);
    j < n && s[j].score > s[i].score
  }

  function SiftDown(s: seq<Candidate>, i: nat, n: nat): (t: seq<Candidate>)
    requires n <= |s|
    ensures |t| == |s|
    decreases n - i
  {
    if !Sinks(s, i, n) then s
    else
      var j := LargerChild(s, i, n);
      SiftDown(Swapped(s, i, j), j, n)
  }

  function SiftUp(s: seq<Candidate>, j: nat): (t: seq<Candidate>)
    requires j < |s|
    ensures |t| == |s|
    decreases j
  {
    if j == 0 || s[j].score <= s[Parent(j)].score then s
    else SiftUp(Swapped(s, Parent(j), j), Parent(j))
  }

  lemma {:induction false} SiftDownPermutes(s: seq<Candidate>, i: nat, n: nat)
    requires n <= |s|
    ensures multiset(SiftDown(s, i, n)) == multiset(s)
    decreases n - i
  {
    if Sinks(s, i, n) {
      var j := LargerChild(s, i, n);
      SwappedPermutes(s, i, j);
      SiftDownPermutes(Swapped(s, i, j), j, n);
    }
  }

  lemma {:induction false} SiftUpPermutes(s: seq<Candidate>, j: nat)
    requires j < |s|
    ensures multiset(SiftUp(s, j)) == multiset(s)
    decreases j
  {
    if j != 0 && s[j].score > s[Parent(j)].score {
      SwappedPermutes(s, Parent(j), j);
      SiftUpPermutes(Swapped(s, Parent(j), j), Parent(j));
    }
  }

  /** One sift-down step towards the larger child moves the hole there. */
  lemma SiftDownStep(s: seq<Candidate>, i: nat, n: nat, lo: nat)
    requires n <= |s| && lo <= i && OrderedBelow(s, n, lo, i) && Sinks(s, i, n)
    ensures OrderedBelow(Swapped(s, i, LargerChild(s, i, n)), n, lo, LargerChild(s, i, n))
  {
    var j := LargerChild(s, i, n);
    var t := Swapped(s, i, j);
    forall k | 0 < k < n && Parent(k) >= lo && Parent(k) != j ensures Edge(t, k) {
      if k == i {
        assert Skip(s, j);
      } else if Parent(k) == i {
        assert k == 2 * i + 1 || k == 2 * i + 2;
      } else {
        assert Edge(s, k);
      }
    }
    forall k | 0 < k < n && Parent(k) == j && j > 0 && Parent(j) >= lo ensures Skip(t, k) {
      assert Edge(s, k);
    }
  }

  /** Sifting down repairs the order below the hole. */
  lemma {:induction false} SiftDownOrders(s: seq<Candidate>, i: nat, n: nat, lo: nat)
    requires n <= |s| && lo <= i && OrderedBelow(s, n, lo, i)
    ensures OrderedFrom(SiftDown(s, i, n), n, lo)
    decreases n - i
  {
    var j := LargerChild(s, i, n);
    if Sinks(s, i, n) {
      SiftDownStep(s, i, n, lo);
      SiftDownOrders(Swapped(s, i, j), j, n, lo);
    } else {
      forall k | 0 < k < n && Parent(k) >= lo ensures Edge(s, k) {
        if Parent(k) == i {
          assert k == 2 * i + 1 || k == 2 * i + 2;
        }
      }
    }
  }

  /** Sifting i down leaves alone everything but i and its descendants below n. */
  lemma {:induction false} SiftDownFrame(s: seq<Candidate>, i: nat, n: nat, k: nat)
    requires n <= |s| && k < |s| && (k < i || i < k <= 2 * i || n <= k)
    ensures SiftDown(s, i, n)[k] == s[k]
    decreases n - i
  {
    if Sinks(s, i, n) {
      var j := LargerChild(s, i, n);
      SiftDownFrame(Swapped(s, i, j), j, n, k);
    }
  }

  /** An element that sinks is replaced by its larger child. */
  lemma SiftDownTop(s: seq<Candidate>, i: nat, n: nat)
    requires n <= |s| && Sinks(s, i, n)
    ensures SiftDown(s, i, n)[i] == s[LargerChild(s, i, n)]
  {
    var j := LargerChild(s, i, n);
    SiftDownFrame(Swapped(s, i, j), j, n, i);
  }

  /** One sift-up step moves the hole to the parent. */
  lemma SiftUpStep(s: seq<Candidate>, j: nat)
    requires 0 < j < |s| && OrderedAbove(s, |s|, j) && s[j].score > s[Parent(j)].score
    ensures OrderedAbove(Swapped(s, Parent(j), j), |s|, Parent(j))
  {
    var i := Parent(j);
    var t := Swapped(s, i, j);
    forall k | 0 < k < |s| && k != i ensures Edge(t, k) {
      if Parent(k) == j {
        assert Skip(s, k);
      } else if k != j {
        assert Edge(s, k);
      }
    }
    forall k | 0 < k < |s| && Parent(k) == i && i > 0 ensures Skip(t, k) {
      assert Edge(s, i);
      if k != j { assert Edge(s, k); }
    }
  }

  /** Sifting up repairs the order above the hole. */
  lemma {:induction false} SiftUpOrders(s: seq<Candidate>, j: nat)
    requires j < |s| && OrderedAbove(s, |s|, j)
    ensures IsHeap(SiftUp(s, j))
    decreases j
  {
    if j != 0 && s[j].score > s[Parent(j)].score {
      SiftUpStep(s, j);
      SiftUpOrders(Swapped(s, Parent(j), j), Parent(j));
    }
  }

  /** A heap in which one element has been replaced: its own two edges may be wrong, no other. */
  ghost predicate HeapBut(s: seq<Candidate>, n: nat, i: nat)
    requires n <= |s|
  {
    && (forall k :: 0 < k < n && k != i && Parent(k) != i ==> Edge(s, k))
    && (forall k :: 0 < k < n && Parent(k) == i && i > 0 ==> Skip(s, k))
  }

  lemma ReplaceOne(s: seq<Candidate>, n: nat, i: nat, c: Candidate)
    requires n <= |s| && i < n && OrderedFrom(s, n, 0)
    ensures HeapBut(s[i := c], n, i)
  {
    forall k | 0 < k < n && k != i && Parent(k) != i ensures Edge(s[i := c], k) {
      assert Edge(s, k);
    }
    forall k | 0 < k < n && Parent(k) == i && i > 0 ensures Skip(s[i := c], k) {
      assert Edge(s, k) && Edge(s, i);
    }
  }

  /** container/heap's Fix: down, and up only if down did not move the element. */
  function Fixed(s: seq<Candidate>, i: nat, n: nat): (t: seq<Candidate>)
    requires i < n <= |s|
    ensures |t| == |s|
  {
    if Sinks(s, i, n) then SiftDown(s, i, n) else SiftUp(s[..n], i) + s[n..]
  }

  lemma FixAbove(s: seq<Candidate>, i: nat, n: nat)
    requires i < n <= |s| && HeapBut(s, n, i) && !Sinks(s, i, n)
    ensures OrderedAbove(s[..n], n, i)
  {
    forall k | 0 < k < n && k != i ensures Edge(s[..n], k) {
      if Parent(k) == i {
        assert k == 2 * i + 1 || k == 2 * i + 2;
      } else {
        assert Edge(s, k);
      }
    }
    forall k | 0 < k < n && Parent(k) == i && i > 0 ensures Skip(s[..n], k) {
      assert Skip(s, k);
    }
  }

  /** Fix restores the heap after one element has been replaced. */
  lemma FixRestores(s: seq<Candidate>, i: nat, n: nat)
    requires i < n <= |s| && HeapBut(s, n, i)
    ensures IsHeap(Fixed(s, i, n)[..n])
    ensures multiset(Fixed(s, i, n)) == multiset(s)
    ensures Fixed(s, i, n)[n..] == s[n..]
  {
    var t := SiftDown(s, i, n);
    SiftDownOrders(s, i, n, i);
    if Sinks(s, i, n) {
      SiftDownPermutes(s, i, n);
      forall k | 0 < k < n ensures Edge(t, k) {
        if Parent(k) < i {
          SiftDownFrame(s, i, n, Parent(k));
          if k == i {
            SiftDownTop(s, i, n);
            assert Skip(s, LargerChild(s, i, n));
          } else {
            SiftDownFrame(s, i, n, k);
            assert Edge(s, k);
          }
        }
      }
      forall k | n <= k < |s| ensures t[k] == s[k] { SiftDownFrame(s, i, n, k); }
      assert forall k | 0 < k < n :: Edge(t[..n], k) by {
        forall k | 0 < k < n ensures Edge(t[..n], k) { assert Edge(t, k); }
      }
    } else {
      assert t == s;
      FixAbove(s, i, n);
      SiftUpOrders(s[..n], i);
      SiftUpPermutes(s[..n], i);
      assert s == s[..n] + s[n..];
    }
  }

  /** container/heap's Init, from position i down to the root. */
  function Heapify(s: seq<Candidate>, i: nat): (t: seq<Candidate>)
    ensures |t| == |s|
    decreases i
  {
    if i == 0 then s else Heapify(SiftDown(s, i - 1, |s|), i - 1)
  }

  lemma {:induction false} HeapifyOrders(s: seq<Candidate>, i: nat)
    requires OrderedFrom(s, |s|, i)
    ensures IsHeap(Heapify(s, i))
    ensures multiset(Heapify(s, i)) == multiset(s)
    decreases i
  {
    if i > 0 {
      assert OrderedBelow(s, |s|, i - 1, i - 1);
      SiftDownOrders(s, i - 1, |s|, i - 1);
      SiftDownPermutes(s, i - 1, |s|);
      HeapifyOrders(SiftDown(s, i - 1, |s|), i - 1);
    }
  }
}
