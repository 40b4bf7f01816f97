/** What the counters of a directory mean: the total is the pushes made there, the dispatched count
    the requests sent there. */
module Tallies {
  import opened ScanTypes
  import opened Counting
  import opened Accounting

  /** How many of these keys lie under d. */
  ghost function Under(m: multiset<Key>, d: string): nat
  {
    Count(m, (k: Key) => k.0 == d)
  }

  ghost predicate Tallied(b: Book)
  {
    forall d :: Under(b.log.pushed, d) == (if d in b.dirs then b.dirs[d].total else 0)
             && Under(b.log.sent, d) == (if d in b.dirs then b.dirs[d].dispatched else 0)
  }

  /** Totals and dispatched counts agree, a directory that is only in one of the books having none. */
  ghost predicate SameTallies(b: Book, b': Book)
  {
    && b'.log.pushed == b.log.pushed && b'.log.sent == b.log.sent
    && forall d ::
         && (if d in b'.dirs then b'.dirs[d].total else 0) == (if d in b.dirs then b.dirs[d].total else 0)
         && (if d in b'.dirs then b'.dirs[d].dispatched else 0) == (if d in b.dirs then b.dirs[d].dispatched else 0)
  }

  lemma TalliesCarry(b: Book, b': Book)
    requires Tallied(b) && SameTallies(b, b')
    ensures Tallied(b')
  {
    hide Under;
  }

  lemma UnderAdd(m: multiset<Key>, k: Key)
    ensures forall d :: Under(m + multiset{k}, d) == Under(m, d) + (if k.0 == d then 1 else 0)
  {
    forall d ensures Under(m + multiset{k}, d) == Under(m, d) + (if k.0 == d then 1 else 0) {
      CountAdd(m, k, (x: Key) => x.0 == d);
    }
  }

  lemma SendTallies(b: Book, c: Candidate)
    requires Tallied(b) && c.parentDir in b.dirs
    ensures Tallied(Sent(b, c))
  {
    hide Under;
    UnderAdd(b.log.sent, KeyOf(c));
  }

  lemma AddTallies(b: Book, d: string, c: Candidate)
    requires Tallied(b) && d in b.dirs && c.parentDir == d
    ensures Tallied(Added(b, d, c))
  {
    hide Under;
    UnderAdd(b.log.pushed, KeyOf(c));
  }

  lemma DiscardTallies(b: Book, c: Candidate, over: bool)
    requires Tallied(b) && c.parentDir in b.dirs
    ensures Tallied(Discarded(b, c, over))
  {
    TalliesCarry(b, Discarded(b, c, over));
  }

  /** Candidates of one directory add to its tally only. */
  lemma UnderUnion(m: multiset<Key>, cands: multiset<Candidate>, d: string)
    requires forall c :: c in cands ==> c.parentDir == d
    ensures forall e :: Under(m + Keys(cands), e) == Under(m, e) + (if e == d then |cands| else 0)
  {
    MapPreimage(cands, KeyOf);
    forall e ensures Under(m + Keys(cands), e) == Under(m, e) + (if e == d then |cands| else 0) {
      var p := (k: Key) => k.0 == e;
      CountUnion(m, Keys(cands), p);
      if e == d { CountAll(Keys(cands), p); } else { CountNone(Keys(cands), p); }
    }
  }

  lemma OpenTallies(b: Book, d: string, cands: multiset<Candidate>, budget: int)
    requires Tallied(b) && d in b.dirs && b.dirs[d].total == 0
    requires forall c :: c in cands ==> c.parentDir == d
    ensures Tallied(Opened(b, d, cands, budget))
  {
    hide Under, Keys;
    UnderUnion(b.log.pushed, cands, d);
  }
}
