/** The character n-gram model: counts per context, their totals, and the smoothed probabilities. */
module Markov {
  import opened Reals

  const ALPHABET_SIZE: nat := 256

  type Byte = b: nat | b < ALPHABET_SIZE
  type Context = seq<Byte>

  const START: Byte := 94
  const END: Byte := 36

  function Repeat(n: nat): (s: seq<Byte>)
    ensures |s| == n
  {
    seq(n, i => START)
  }

  function Pad(order: nat, segment: seq<Byte>): seq<Byte>
  {
    Repeat(order) + segment + [END]
  }

  function CountAt(counts: map<Context, map<Byte, nat>>, ctx: Context, b: Byte): nat
  {
    if ctx in counts && b in counts[ctx] then counts[ctx][b] else 0
  }

  function TotalAt(totals: map<Context, nat>, ctx: Context): nat
  {
    if ctx in totals then totals[ctx] else 0
  }

  /** The counts of one context over the first n bytes of the alphabet. */
  function SumTo(counts: map<Context, map<Byte, nat>>, ctx: Context, n: nat): nat
    requires n <= ALPHABET_SIZE
  {
    if n == 0 then 0 else SumTo(counts, ctx, n - 1) + CountAt(counts, ctx, n - 1)
  }

  /** Every context's total is the sum of its counts. */
  ghost predicate TotalsAreSums(counts: map<Context, map<Byte, nat>>, totals: map<Context, nat>)
  {
    forall ctx: Context :: TotalAt(totals, ctx) == SumTo(counts, ctx, ALPHABET_SIZE)
  }

  ghost function Sum(totals: map<Context, nat>): nat
  {
    if totals == map[] then 0
    else
      var ctx :| ctx in totals;
      totals[ctx] + Sum(totals - {ctx})
  }

  lemma {:induction false} SumWithout(totals: map<Context, nat>, ctx: Context)
    requires ctx in totals
    ensures Sum(totals) == totals[ctx] + Sum(totals - {ctx})
    decreases totals.Keys
  {
    var x :| x in totals && Sum(totals) == totals[x] + Sum(totals - {x});
    if x != ctx {
      SumWithout(totals - {x}, ctx);
      SumWithout(totals - {ctx}, x);
      assert totals - {x} - {ctx} == totals - {ctx} - {x};
    }
  }

  function Bumped(totals: map<Context, nat>, ctx: Context): map<Context, nat>
  {
    totals[ctx := TotalAt(totals, ctx) + 1]
  }

  lemma BumpAddsOne(totals: map<Context, nat>, ctx: Context)
    ensures Sum(Bumped(totals, ctx)) == Sum(totals) + 1
  {
    var b := Bumped(totals, ctx);
    SumWithout(b, ctx);
    assert b - {ctx} == totals - {ctx};
    if ctx in totals {
      SumWithout(totals, ctx);
    } else {
      assert totals - {ctx} == totals;
    }
  }

  function Tallied(counts: map<Context, map<Byte, nat>>, ctx: Context, b: Byte): map<Context, map<Byte, nat>>
  {
    counts[ctx := (if ctx in counts then counts[ctx] else map[])[b := CountAt(counts, ctx, b) + 1]]
  }

  lemma {:induction false} TallySum(counts: map<Context, map<Byte, nat>>, ctx: Context, b: Byte, other: Context, n: nat)
    requires n <= ALPHABET_SIZE
    ensures SumTo(Tallied(counts, ctx, b), other, n) == SumTo(counts, other, n) + if other == ctx && b < n then 1 else 0
  {
    if n > 0 {
      TallySum(counts, ctx, b, other, n - 1);
    }
  }

  lemma TallyKeeps(counts: map<Context, map<Byte, nat>>, totals: map<Context, nat>, ctx: Context, b: Byte)
    requires TotalsAreSums(counts, totals)
    ensures TotalsAreSums(Tallied(counts, ctx, b), Bumped(totals, ctx))
  {
    forall other: Context ensures TotalAt(Bumped(totals, ctx), other) == SumTo(Tallied(counts, ctx, b), other, ALPHABET_SIZE) {
      TallySum(counts, ctx, b, other, ALPHABET_SIZE);
    }
  }

  /** The saved form. */
  datatype State = State(counts: map<Context, map<Byte, nat>>, totals: map<Context, nat>, trained: nat)

  class Model {
    const order: nat
    const minSamples: nat
    var counts: map<Context, map<Byte, nat>>
    var totals: map<Context, nat>
    var trained: nat

    constructor (order: nat, minSamples: nat)
      requires order > 0
      ensures this.order == order && this.minSamples == minSamples && Valid() && Sum(totals) == 0 && trained == 0
    {
      this.order, this.minSamples := order, minSamples;
      counts, totals, trained := map[], map[], 0;
      new;
      forall ctx: Context ensures TotalAt(totals, ctx) == SumTo(counts, ctx, ALPHABET_SIZE) {
        EmptySum(ctx, ALPHABET_SIZE);
      }
    }

    ghost predicate Valid()
      reads this
    {
      order > 0 && TotalsAreSums(counts, totals)
    }

    /** One n-gram seen. */
    method Tally(ctx: Context, next: Byte)
      requires Valid()
      modifies this`counts, this`totals
      ensures Valid() && counts == Tallied(old(counts), ctx, next) && Sum(totals) == Sum(old(totals)) + 1
    {
      TallyKeeps(counts, totals, ctx, next);
      BumpAddsOne(totals, ctx);
      counts := Tallied(counts, ctx, next);
      totals := Bumped(totals, ctx);
    }

    /** One confirmed segment: every window of the padded text adds one to its count and its total. */
    method Train(segment: seq<Byte>)
      requires Valid()
      modifies this`counts, this`totals, this`trained
      ensures Valid()
      ensures segment == [] ==> unchanged(this)
      ensures segment != [] ==> && trained == old(trained) + 1 && Sum(totals) == Sum(old(totals)) + |segment| + 1
                                && Added(old(counts), counts, Pad(order, segment), order, |segment| + 1)
    {
      hide TotalsAreSums, Sum, Added, Tallied;
      if segment == [] { return; }
      var s := Pad(order, segment);
      var i := 0;
      NothingAdded(counts, s, order);
      while i + order < |s|
        invariant i + order <= |s| && trained == old(trained) && Valid() && Sum(totals) == Sum(old(totals)) + i
        invariant Added(old(counts), counts, s, order, i)
      {
        OneAdded(old(counts), counts, s, order, i);
        Tally(s[i..i + order], s[i + order]);
        i := i + 1;
      }
      trained := trained + 1;
    }

    method MarshalState() returns (s: State)
      ensures s == State(counts, totals, trained)
    {
      s := State(counts, totals, trained);
    }

    method LoadState(s: State)
      requires TotalsAreSums(s.counts, s.totals) && order > 0
      modifies this`counts, this`totals, this`trained
      ensures Valid() && counts == s.counts && totals == s.totals && trained == s.trained
    {
      counts, totals, trained := s.counts, s.totals, s.trained;
    }
  }

  lemma {:induction false} EmptySum(ctx: Context, n: nat)
    requires n <= ALPHABET_SIZE
    ensures SumTo(map[], ctx, n) == 0
  {
    if n > 0 {
      EmptySum(ctx, n - 1);
    }
  }

  /** How many of the first k windows of s are ctx followed by b. */
  function Windows(s: seq<Byte>, order: nat, ctx: Context, b: Byte, k: nat): nat
    requires k + order <= |s|
  {
    if k == 0 then 0
    else Windows(s, order, ctx, b, k - 1) + if s[k - 1..k - 1 + order] == ctx && s[k - 1 + order] == b then 1 else 0
  }

  /** Every count has grown by its number of occurrences among the first k windows. */
  ghost predicate Added(before: map<Context, map<Byte, nat>>, after: map<Context, map<Byte, nat>>, s: seq<Byte>, order: nat, k: nat)
    requires k + order <= |s|
  {
    forall ctx: Context, b: Byte :: CountAt(after, ctx, b) == CountAt(before, ctx, b) + Windows(s, order, ctx, b, k)
  }

  lemma NothingAdded(counts: map<Context, map<Byte, nat>>, s: seq<Byte>, order: nat)
    requires order <= |s|
    ensures Added(counts, counts, s, order, 0)
  {
  }

  lemma OneAdded(before: map<Context, map<Byte, nat>>, after: map<Context, map<Byte, nat>>, s: seq<Byte>, order: nat, k: nat)
    requires k + order < |s| && Added(before, after, s, order, k)
    ensures Added(before, Tallied(after, s[k..k + order], s[k + order]), s, order, k + 1)
  {
    var next := Tallied(after, s[k..k + order], s[k + order]);
    forall ctx: Context, b: Byte ensures CountAt(next, ctx, b) == CountAt(before, ctx, b) + Windows(s, order, ctx, b, k + 1) {
      assert CountAt(after, ctx, b) == CountAt(before, ctx, b) + Windows(s, order, ctx, b, k);
    }
  }

  // ---- Probabilities --------------------------------------------------------------------

  /** The Laplace-smoothed chance of b after ctx. */
  function Probability(s: State, ctx: Context, b: Byte): real
  {
    (CountAt(s.counts, ctx, b) + 1) as real / (TotalAt(s.totals, ctx) + ALPHABET_SIZE) as real
  }

  function ProbabilityTo(s: State, ctx: Context, n: nat): real
    requires n <= ALPHABET_SIZE
  {
    if n == 0 then 0.0 else ProbabilityTo(s, ctx, n - 1) + Probability(s, ctx, n - 1)
  }

  lemma {:induction false} PartialProbability(s: State, ctx: Context, n: nat)
    requires n <= ALPHABET_SIZE
    ensures ProbabilityTo(s, ctx, n) == (SumTo(s.counts, ctx, n) + n) as real / (TotalAt(s.totals, ctx) + ALPHABET_SIZE) as real
  {
    var d := (TotalAt(s.totals, ctx) + ALPHABET_SIZE) as real;
    if n > 0 {
      PartialProbability(s, ctx, n - 1);
      var a, b := SumTo(s.counts, ctx, n - 1) + n - 1, CountAt(s.counts, ctx, n - 1) + 1;
      SumOfQuotients(a as real, b as real, d);
    }
  }

  lemma SumOfQuotients(a: real, b: real, d: real)
    requires d > 0.0
    ensures a / d + b / d == (a + b) / d
  {
  }

  lemma {:induction false} SumGrows(counts: map<Context, map<Byte, nat>>, ctx: Context, n: nat, b: Byte)
    requires b < n <= ALPHABET_SIZE
    ensures CountAt(counts, ctx, b) <= SumTo(counts, ctx, n)
  {
    if b < n - 1 {
      SumGrows(counts, ctx, n - 1, b);
    }
  }

  /** For every context the smoothed probabilities of the 256 bytes add up to one exactly, and each
      lies strictly between zero and one. */
  lemma ProbabilitiesSumToOne(s: State, ctx: Context)
    requires TotalsAreSums(s.counts, s.totals)
    ensures ProbabilityTo(s, ctx, ALPHABET_SIZE) == 1.0
    ensures forall b: Byte :: 0.0 < Probability(s, ctx, b) < 1.0
  {
    hide SumTo, ProbabilityTo;
    PartialProbability(s, ctx, ALPHABET_SIZE);
    assert SumTo(s.counts, ctx, ALPHABET_SIZE) == TotalAt(s.totals, ctx);
    SelfQuotient((TotalAt(s.totals, ctx) + ALPHABET_SIZE) as real);
    forall b: Byte ensures 0.0 < Probability(s, ctx, b) < 1.0 {
      SumGrows(s.counts, ctx, ALPHABET_SIZE, b);
      Fraction((CountAt(s.counts, ctx, b) + 1) as real, (TotalAt(s.totals, ctx) + ALPHABET_SIZE) as real);
    }
  }

  /** A model loaded from another's saved state gives every byte after every context the same chance. */
  method SaveAndLoad(from: Model, to: Model)
    requires from.Valid() && to.order > 0
    modifies to
    ensures to.Valid() && to.trained == old(from.trained)
    ensures forall ctx: Context, b: Byte ::
              Probability(State(to.counts, to.totals, to.trained), ctx, b)
              == old(Probability(State(from.counts, from.totals, from.trained), ctx, b))
  {
    var saved := from.MarshalState();
    to.LoadState(saved);
  }
}
