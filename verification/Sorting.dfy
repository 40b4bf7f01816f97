/** Orders of positions by falling score, as sort.Slice produces them. */
module Sorting {
  import opened ScanTypes
  import opened Counting

  /** The candidates at the given positions, in that order. */
  ghost function Pick(s: seq<Candidate>, order: seq<nat>): (t: seq<Candidate>)
    requires forall i :: 0 <= i < |order| ==> order[i] < |s|
    ensures |t| == |order|
  {
    seq(|order|, i requires 0 <= i < |order| => s[order[i]])
  }

  ghost predicate Falling(t: seq<Candidate>)
  {
    forall i, j :: 0 <= i < j < |t| ==> t[i].score >= t[j].score
  }

  /** Every position of s once, by falling score. */
  ghost predicate SortedOrder(s: seq<Candidate>, order: seq<nat>)
  {
    && |order| == |s|
    && (forall i :: 0 <= i < |order| ==> order[i] < |s|)
    && Falling(Pick(s, order))
    && multiset(Pick(s, order)) == multiset(s)
  }

  /** Where position k goes in an order of the positions before it. */
  function Slot(s: seq<Candidate>, order: seq<nat>, k: nat): (i: nat)
    requires k < |s| && forall i :: 0 <= i < |order| ==> order[i] < |s|
    ensures i <= |order|
    ensures forall j :: 0 <= j < i ==> s[order[j]].score >= s[k].score
    ensures i < |order| ==> s[order[i]].score < s[k].score
  {
    if |order| == 0 || s[order[0]].score < s[k].score then 0
    else
      var i := Slot(s, order[1..], k);
      assert forall j :: 1 <= j < i + 1 ==> order[j] == order[1..][j - 1];
      i + 1
  }

  method Sort(s: seq<Candidate>) returns (order: seq<nat>)
    ensures SortedOrder(s, order)
  {
    order := [];
    var k := 0;
    while k < |s|
      invariant k <= |s| && |order| == k
      invariant forall i :: 0 <= i < |order| ==> order[i] < k
      invariant Falling(Pick(s, order))
      invariant multiset(Pick(s, order)) == multiset(s[..k])
    {
      var i := Slot(s, order, k);
      InsertKeeps(s, order, k, i);
      order := order[..i] + [k] + order[i..];
      k := k + 1;
    }
    assert s[..|s|] == s;
  }

  lemma InsertKeeps(s: seq<Candidate>, order: seq<nat>, k: nat, i: nat)
    requires k < |s| && |order| == k && (forall i :: 0 <= i < |order| ==> order[i] < k)
    requires Falling(Pick(s, order)) && multiset(Pick(s, order)) == multiset(s[..k])
    requires i == Slot(s, order, k)
    ensures var o := order[..i] + [k] + order[i..];
            Falling(Pick(s, o)) && multiset(Pick(s, o)) == multiset(s[..k + 1])
  {
    hide Falling;
    var o := order[..i] + [k] + order[i..];
    var t := Pick(s, order);
    InsertFalls(t, s[k], i);
    InsertAdds(t, s[k], i);
    PickSplice(s, order, k, i);
    assert s[..k + 1] == s[..k] + [s[k]];
  }

  lemma PickSplice(s: seq<Candidate>, order: seq<nat>, k: nat, i: nat)
    requires k < |s| && i <= |order| && forall i :: 0 <= i < |order| ==> order[i] < |s|
    ensures Pick(s, order[..i] + [k] + order[i..]) == Pick(s, order)[..i] + [s[k]] + Pick(s, order)[i..]
  {
  }

  lemma InsertAdds(t: seq<Candidate>, c: Candidate, i: nat)
    requires i <= |t|
    ensures multiset(t[..i] + [c] + t[i..]) == multiset(t) + multiset{c}
  {
    assert t == t[..i] + t[i..];
  }

  lemma InsertFalls(t: seq<Candidate>, c: Candidate, i: nat)
    requires Falling(t) && i <= |t|
    requires forall j :: 0 <= j < i ==> t[j].score >= c.score
    requires i < |t| ==> t[i].score < c.score
    ensures Falling(t[..i] + [c] + t[i..])
  {
  }

  /** The element at place p of an order has p others no lower and the rest no higher. */
  lemma RankOf(s: seq<Candidate>, order: seq<nat>, p: nat, rest: multiset<Candidate>)
    requires SortedOrder(s, order) && p < |order|
    requires multiset(s) == rest + multiset{s[order[p]]}
    ensures Count(rest, (c: Candidate) => c.score >= s[order[p]].score) >= p
    ensures Count(rest, (c: Candidate) => c.score <= s[order[p]].score) >= |order| - 1 - p
  {
    RankInFalling(Pick(s, order), p, rest);
  }

  lemma RankInFalling(t: seq<Candidate>, p: nat, rest: multiset<Candidate>)
    requires Falling(t) && p < |t| && multiset(t) == rest + multiset{t[p]}
    ensures Count(rest, (c: Candidate) => c.score >= t[p].score) >= p
    ensures Count(rest, (c: Candidate) => c.score <= t[p].score) >= |t| - 1 - p
  {
    var a, b := t[..p], t[p + 1..];
    var high := (c: Candidate) => c.score >= t[p].score;
    var low := (c: Candidate) => c.score <= t[p].score;
    WithoutOne(t, p, rest);
    CountUnion(multiset(a), multiset(b), high);
    CountUnion(multiset(a), multiset(b), low);
    CountAll(multiset(a), high);
    CountAll(multiset(b), low);
  }

  lemma WithoutOne(t: seq<Candidate>, p: nat, rest: multiset<Candidate>)
    requires p < |t| && multiset(t) == rest + multiset{t[p]}
    ensures rest == multiset(t[..p]) + multiset(t[p + 1..])
  {
    assert t == t[..p] + [t[p]] + t[p + 1..];
    Cancel(rest, multiset(t[..p]) + multiset(t[p + 1..]), t[p]);
  }

  lemma Cancel(a: multiset<Candidate>, b: multiset<Candidate>, x: Candidate)
    requires a + multiset{x} == b + multiset{x}
    ensures a == b
  {
    assert a == (a + multiset{x}) - multiset{x};
    assert b == (b + multiset{x}) - multiset{x};
  }
}
