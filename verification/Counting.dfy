/** Counting the elements of a multiset that satisfy a predicate, and mapping a multiset. */
module Counting {

  ghost function Count<T(!new)>(m: multiset<T>, p: T -> bool): nat
    decreases |m|
  {
    if m == multiset{} then 0
    else
      var x :| x in m;
      (if p(x) then 1 else 0) + Count(m - multiset{x}, p)
  }

  lemma Reordered<T>(m: multiset<T>, x: T, y: T)
    requires y in m && y != x
    ensures m + multiset{x} - multiset{y} == m - multiset{y} + multiset{x} && m == m - multiset{y} + multiset{y}
  {
  }

  lemma {:induction false} CountAdd<T(!new)>(m: multiset<T>, x: T, p: T -> bool)
    ensures Count(m + multiset{x}, p) == Count(m, p) + (if p(x) then 1 else 0)
    decreases |m|
  {
    var n := m + multiset{x};
    var y :| y in n && Count(n, p) == (if p(y) then 1 else 0) + Count(n - multiset{y}, p);
    if y == x {
      assert n - multiset{y} == m;
    } else {
      Reordered(m, x, y);
      CountAdd(m - multiset{y}, x, p);
      CountAdd(m - multiset{y}, y, p);
    }
  }

  lemma CountRemove<T(!new)>(m: multiset<T>, x: T, p: T -> bool)
    requires x in m
    ensures Count(m - multiset{x}, p) == Count(m, p) - (if p(x) then 1 else 0)
  {
    assert m == (m - multiset{x}) + multiset{x};
    CountAdd(m - multiset{x}, x, p);
  }

  lemma {:induction false} CountUnion<T(!new)>(a: multiset<T>, b: multiset<T>, p: T -> bool)
    ensures Count(a + b, p) == Count(a, p) + Count(b, p)
    decreases |b|
  {
    if b == multiset{} {
      assert a + b == a;
    } else {
      var x :| x in b;
      var b' := b - multiset{x};
      assert b == b' + multiset{x};
      assert a + b == (a + b') + multiset{x};
      CountUnion(a, b', p);
      CountAdd(a + b', x, p);
      CountAdd(b', x, p);
    }
  }

  lemma {:induction false} CountNone<T(!new)>(m: multiset<T>, p: T -> bool)
    requires forall x :: x in m ==> !p(x)
    ensures Count(m, p) == 0
    decreases |m|
  {
    if m != multiset{} {
      var x :| x in m && Count(m, p) == (if p(x) then 1 else 0) + Count(m - multiset{x}, p);
      CountNone(m - multiset{x}, p);
    }
  }

  lemma {:induction false} CountAll<T(!new)>(m: multiset<T>, p: T -> bool)
    requires forall x :: x in m ==> p(x)
    ensures Count(m, p) == |m|
    decreases |m|
  {
    if m != multiset{} {
      var x :| x in m && Count(m, p) == (if p(x) then 1 else 0) + Count(m - multiset{x}, p);
      CountAll(m - multiset{x}, p);
    }
  }

  lemma CountHas<T(!new)>(m: multiset<T>, x: T, p: T -> bool)
    requires x in m && p(x)
    ensures Count(m, p) >= 1
  {
    CountRemove(m, x, p);
  }

  lemma {:induction false} CountWitness<T(!new)>(m: multiset<T>, p: T -> bool) returns (x: T)
    requires Count(m, p) > 0
    ensures x in m && p(x)
    decreases |m|
  {
    var y :| y in m && Count(m, p) == (if p(y) then 1 else 0) + Count(m - multiset{y}, p);
    if p(y) { x := y; } else { x := CountWitness(m - multiset{y}, p); }
  }

  /** The multiset of images of m's elements under f. */
  ghost function MapAll<T(!new), U(!new)>(m: multiset<T>, f: T -> U): multiset<U>
    decreases |m|
  {
    if m == multiset{} then multiset{}
    else
      var x :| x in m;
      MapAll(m - multiset{x}, f) + multiset{f(x)}
  }

  /** Only what f makes of the elements matters. */
  lemma {:induction false} MapSame<T(!new), U(!new)>(m: multiset<T>, f: T -> U, g: T -> U)
    requires forall x :: x in m ==> f(x) == g(x)
    ensures MapAll(m, f) == MapAll(m, g)
    decreases |m|
  {
    if m == multiset{} {
    } else {
      var x :| x in m;
      assert m == m - multiset{x} + multiset{x};
      MapSame(m - multiset{x}, f, g);
      MapAdd(m - multiset{x}, x, f);
      MapAdd(m - multiset{x}, x, g);
    }
  }

  lemma {:induction false} MapAdd<T(!new), U(!new)>(m: multiset<T>, x: T, f: T -> U)
    ensures MapAll(m + multiset{x}, f) == MapAll(m, f) + multiset{f(x)}
    decreases |m|
  {
    var n := m + multiset{x};
    var y :| y in n && MapAll(n, f) == MapAll(n - multiset{y}, f) + multiset{f(y)};
    if y == x {
      assert n - multiset{y} == m;
    } else {
      Reordered(m, x, y);
      MapAdd(m - multiset{y}, x, f);
      MapAdd(m - multiset{y}, y, f);
      PlusSwaps(MapAll(m - multiset{y}, f), f(x), f(y));
    }
  }

  lemma PlusSwaps<U>(m: multiset<U>, a: U, b: U)
    ensures m + multiset{a} + multiset{b} == m + multiset{b} + multiset{a}
  {
  }

  /** A map that leaves p's truth alone leaves the count alone, and every image has a preimage. */
  lemma {:induction false} MapCount<T(!new)>(m: multiset<T>, f: T -> T, p: T -> bool)
    requires forall x :: p(f(x)) == p(x)
    ensures Count(MapAll(m, f), p) == Count(m, p)
    decreases |m|
  {
    if m != multiset{} {
      var x :| x in m;
      var rest := m - multiset{x};
      assert m == rest + multiset{x};
      MapAdd(rest, x, f);
      CountAdd(rest, x, p);
      MapCount(rest, f, p);
      CountAdd(MapAll(rest, f), f(x), p);
    }
  }

  lemma {:induction false} MapPreimage<T(!new), U(!new)>(m: multiset<T>, f: T -> U)
    ensures forall y :: y in MapAll(m, f) ==> exists x :: x in m && f(x) == y
    ensures |MapAll(m, f)| == |m|
    decreases |m|
  {
    if m != multiset{} {
      var x :| x in m && MapAll(m, f) == MapAll(m - multiset{x}, f) + multiset{f(x)};
      MapPreimage(m - multiset{x}, f);
    }
  }

  lemma {:induction false} MapSeq<T(!new), U(!new)>(s: seq<T>, t: seq<U>, f: T -> U)
    requires |s| == |t| && forall i :: 0 <= i < |s| ==> t[i] == f(s[i])
    ensures multiset(t) == MapAll(multiset(s), f)
  {
    if s == [] {
      assert t == [];
    } else {
      var n := |s| - 1;
      MapSeq(s[..n], t[..n], f);
      assert s == s[..n] + [s[n]] && t == t[..n] + [t[n]];
      MapAdd(multiset(s[..n]), s[n], f);
    }
  }

  lemma {:induction false} MapUnion<T(!new), U(!new)>(a: multiset<T>, b: multiset<T>, f: T -> U)
    ensures MapAll(a + b, f) == MapAll(a, f) + MapAll(b, f)
    decreases |b|
  {
    if b == multiset{} {
      assert a + b == a;
    } else {
      var x :| x in b;
      var rest := b - multiset{x};
      assert b == rest + multiset{x};
      assert a + b == (a + rest) + multiset{x};
      MapUnion(a, rest, f);
      MapAdd(a + rest, x, f);
      MapAdd(rest, x, f);
    }
  }

  lemma MapImage<T(!new), U(!new)>(m: multiset<T>, x: T, f: T -> U)
    requires x in m
    ensures MapAll(m, f) == MapAll(m - multiset{x}, f) + multiset{f(x)}
  {
    MapAdd(m - multiset{x}, x, f);
    assert m == (m - multiset{x}) + multiset{x};
  }

  /** Mapping twice is mapping by the second alone, when the first does not change its result. */
  lemma {:induction false} MapThrough<T(!new), U(!new)>(m: multiset<T>, f: T -> T, g: T -> U)
    requires forall x :: g(f(x)) == g(x)
    ensures MapAll(MapAll(m, f), g) == MapAll(m, g)
    decreases |m|
  {
    if m != multiset{} {
      var x :| x in m;
      var rest := m - multiset{x};
      assert m == rest + multiset{x};
      MapThrough(rest, f, g);
      MapAdd(rest, x, f);
      MapAdd(rest, x, g);
      MapAdd(MapAll(rest, f), f(x), g);
    }
  }
}
