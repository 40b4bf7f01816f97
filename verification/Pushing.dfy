/** What the candidate set pushed for a directory consists of. */
module Pushing {
  import opened ScanTypes
  import opened Counting
  import opened Text
  import opened Provenance
  import opened Accounting
  import opened Ledgers
  import opened ScanModel

  /** The paths of a template. */
  ghost function PathsOf(template: seq<Entry>): set<string>
  {
    set i | 0 <= i < |template| :: template[i].path
  }

  lemma PathsSnoc(template: seq<Entry>)
    requires template != []
    ensures PathsOf(template) == PathsOf(template[..|template| - 1]) + {template[|template| - 1].path}
  {
    var n := |template| - 1;
    forall p | p in PathsOf(template) ensures p in PathsOf(template[..n]) + {template[n].path} {
      var i :| 0 <= i < |template| && template[i].path == p;
      if i < n { assert template[..n][i].path == p; }
    }
    forall p | p in PathsOf(template[..n]) ensures p in PathsOf(template) {
      var i :| 0 <= i < n && template[..n][i].path == p;
      assert template[i].path == p;
    }
    assert template[n].path in PathsOf(template);
  }

  /** No path occurs twice in the template. */
  ghost predicate DistinctPaths(template: seq<Entry>)
  {
    forall i, j :: 0 <= i < j < |template| ==> template[i].path != template[j].path
  }

  /** Under d, at its template path, with a current score. */
  ghost predicate FromTemplate(env: Env, s: Scoring, d: string, c: Candidate, e: Entry)
  {
    c.path == e.path && c.parentDir == d && c.score == Score(env, s, c)
  }

  lemma EntryFacts(env: Env, s: Scoring, d: string, depth: int, e: Entry, acc: (seq<Candidate>, map<string, Candidate>))
    ensures var r := FoldEntry(env, s, d, depth, e, acc);
            && |r.0| == |acc.0| + 1 && r.0[..|acc.0|] == acc.0 && FromTemplate(env, s, d, r.0[|acc.0|], e)
            && r.1 == acc.1 - {e.path}
  {
  }

  /** Folding keeps the template's order and paths, under d, with current scores; what is left of
      the pending seeds is exactly those at no template path. */
  lemma {:induction false} FoldedFacts(env: Env, s: Scoring, d: string, depth: int, template: seq<Entry>, pending: map<string, Candidate>)
    ensures var r := Folded(env, s, d, depth, template, pending);
            && (forall i :: 0 <= i < |r.0| ==> FromTemplate(env, s, d, r.0[i], template[i]))
            && r.1 == pending - PathsOf(template)
    decreases |template|
  {
    hide FoldEntry, FromTemplate, Score;
    if template != [] {
      var n := |template| - 1;
      var acc := Folded(env, s, d, depth, template[..n], pending);
      FoldedFacts(env, s, d, depth, template[..n], pending);
      EntryFacts(env, s, d, depth, template[n], acc);
      PathsSnoc(template);
      var r := Folded(env, s, d, depth, template, pending);
      forall i | 0 <= i < |r.0| ensures FromTemplate(env, s, d, r.0[i], template[i]) {
        if i < n { assert r.0[i] == acc.0[i]; }
      }
    } else {
      assert PathsOf(template) == {};
    }
  }

  /** m is a with b merged into it: the larger prior, and exactly the sources either names. */
  ghost predicate MergeOf(m: Candidate, a: Candidate, b: Candidate)
  {
    && m.path == a.path && m.parentDir == a.parentDir
    && m.basePrio == (if a.basePrio >= b.basePrio then a.basePrio else b.basePrio)
    && Sources(m.provenance) == Sources(a.provenance) + Sources(b.provenance)
  }

  lemma MergedIs(env: Env, s: Scoring, a: Candidate, b: Candidate)
    ensures MergeOf(Merged(a, b), a, b) && MergeOf(Scored(env, s, Merged(a, b)), a, b)
  {
    hide Score, Sources;
    UnionSources(a.provenance, b.provenance);
  }

  /** The i-th entry is the first at its path. */
  predicate FirstThere(template: seq<Entry>, i: nat)
    requires i < |template|
  {
    forall j :: 0 <= j < i ==> template[j].path != template[i].path
  }

  /** What the i-th entry becomes: merged with the seed pending at its path, if it is the first there. */
  function FromEntry(env: Env, d: string, depth: int, template: seq<Entry>, pending: map<string, Candidate>, i: nat): Candidate
    requires i < |template|
  {
    var c := TemplateCandidate(env, d, depth, template[i]);
    if c.path in pending && FirstThere(template, i) then Merged(c, pending[c.path]) else c
  }

  /** Folding pushes each entry, and merges each pending seed into the first entry at its path. */
  lemma {:induction false} FoldedMerges(env: Env, s: Scoring, d: string, depth: int, template: seq<Entry>,
                                        pending: map<string, Candidate>, i: nat)
    requires i < |template|
    ensures Folded(env, s, d, depth, template, pending).0[i] == Scored(env, s, FromEntry(env, d, depth, template, pending, i))
    decreases |template|
  {
    hide Score, Merged, PathsOf, FoldEntry, FromEntry, FromTemplate;
    var n := |template| - 1;
    var acc := Folded(env, s, d, depth, template[..n], pending);
    EntryFacts(env, s, d, depth, template[n], acc);
    FoldedFacts(env, s, d, depth, template[..n], pending);
    if i < n {
      FoldedMerges(env, s, d, depth, template[..n], pending, i);
      EntryBefore(env, d, depth, template, pending, i);
      assert Folded(env, s, d, depth, template, pending).0[i] == acc.0[i];
    } else {
      LastEntry(env, s, d, depth, template, pending, acc);
    }
  }

  lemma EntryBefore(env: Env, d: string, depth: int, template: seq<Entry>, pending: map<string, Candidate>, i: nat)
    requires i < |template| - 1
    ensures FromEntry(env, d, depth, template[..|template| - 1], pending, i) == FromEntry(env, d, depth, template, pending, i)
  {
    hide Merged;
  }

  lemma LastEntry(env: Env, s: Scoring, d: string, depth: int, template: seq<Entry>, pending: map<string, Candidate>,
                  acc: (seq<Candidate>, map<string, Candidate>))
    requires template != [] && acc.1 == pending - PathsOf(template[..|template| - 1])
    ensures var n := |template| - 1;
            FoldEntry(env, s, d, depth, template[n], acc).0[|acc.0|] == Scored(env, s, FromEntry(env, d, depth, template, pending, n))
  {
    hide Score, Merged, PathsOf;
    FirstIs(template);
  }

  lemma FirstIs(template: seq<Entry>)
    requires template != []
    ensures var n := |template| - 1; FirstThere(template, n) <==> template[n].path !in PathsOf(template[..n])
  {
  }

  /** A path of the template has a first entry. */
  lemma {:induction false} FirstOne(template: seq<Entry>, p: string) returns (i: nat)
    requires p in PathsOf(template)
    ensures i < |template| && template[i].path == p && FirstThere(template, i)
  {
    var n := |template| - 1;
    PathsSnoc(template);
    if p in PathsOf(template[..n]) {
      i := FirstOne(template[..n], p);
      assert forall j :: 0 <= j <= i ==> template[..n][j] == template[j];
    } else {
      FirstIs(template);
      i := n;
    }
  }

  /** Left-over seeds keep their own paths, so there are as many candidates as seeds. */
  lemma {:induction false} LeftoverSize(env: Env, s: Scoring, left: map<string, Candidate>)
    requires forall p :: p in left ==> left[p].path == p
    ensures |Leftovers(env, s, left)| == |left|
    decreases |left|
  {
    if left != map[] {
      var p :| p in left;
      var rest := left - {p};
      LeftoverSize(env, s, rest);
      LeftoverSplit(env, s, left, p);
      assert left.Keys == rest.Keys + {p};
    }
  }

  lemma LeftoverSplit(env: Env, s: Scoring, left: map<string, Candidate>, p: string)
    requires p in left && forall q :: q in left ==> left[q].path == q
    ensures Leftovers(env, s, left) == Leftovers(env, s, left - {p}) + {Scored(env, s, left[p])}
    ensures Scored(env, s, left[p]) !in Leftovers(env, s, left - {p})
  {
    var rest := left - {p};
    forall c | c in Leftovers(env, s, left) ensures c in Leftovers(env, s, rest) + {Scored(env, s, left[p])} {
      var q :| q in left && c == Scored(env, s, left[q]);
      if q != p { assert q in rest && rest[q] == left[q]; }
    }
    forall c | c in Leftovers(env, s, rest) ensures c in Leftovers(env, s, left) && c.path != p {
      var q :| q in rest && c == Scored(env, s, rest[q]);
      assert q in left && rest[q] == left[q];
    }
  }

  /** Each left-over candidate is its pending seed rescored. */
  ghost predicate FromPending(env: Env, s: Scoring, d: string, c: Candidate, pending: map<string, Candidate>)
  {
    && c.parentDir == d && c.score == Score(env, s, c) && c.path in pending && c == Scored(env, s, pending[c.path])
  }

  lemma LeftoverFrom(env: Env, s: Scoring, d: string, pending: map<string, Candidate>, gone: set<string>, c: Candidate)
    requires PendingOk(pending, d) && c in Leftovers(env, s, pending - gone)
    ensures FromPending(env, s, d, c, pending) && c.path !in gone
  {
    var p :| p in pending - gone && c == Scored(env, s, (pending - gone)[p]);
    assert pending[p].path == p && pending[p].parentDir == d;
  }

  lemma LeftoverCount(env: Env, s: Scoring, d: string, pending: map<string, Candidate>, gone: set<string>)
    requires PendingOk(pending, d)
    ensures |Leftovers(env, s, pending - gone)| == |pending - gone| <= |pending|
  {
    LeftoverSize(env, s, pending - gone);
    Smaller((pending - gone).Keys, pending.Keys);
  }

  lemma LeftoverHas(env: Env, s: Scoring, d: string, pending: map<string, Candidate>, gone: set<string>, p: string)
    requires PendingOk(pending, d) && p in pending && p !in gone
    ensures Scored(env, s, pending[p]) in Leftovers(env, s, pending - gone)
  {
    assert p in pending - gone;
    assert Scored(env, s, (pending - gone)[p]) in Leftovers(env, s, pending - gone);
  }

  lemma LeftoverApart(env: Env, s: Scoring, d: string, left: map<string, Candidate>)
    requires forall p :: p in left ==> left[p].path == p
    ensures var over := Leftovers(env, s, left); forall a, b :: a in over && b in over && a.path == b.path ==> a == b
  {
  }

  lemma PendingApart(env: Env, s: Scoring, d: string, pending: map<string, Candidate>, gone: set<string>)
    requires PendingOk(pending, d)
    ensures var over := Leftovers(env, s, pending - gone); forall a, b :: a in over && b in over && a.path == b.path ==> a == b
  {
    LeftoverApart(env, s, d, pending - gone);
  }

  /** The three parts of the set pushed for d. */
  ghost predicate Parts(env: Env, s: Scoring, d: string, pending: map<string, Candidate>, all: multiset<Candidate>,
                        cands: seq<Candidate>, over: set<Candidate>, nmap: seq<Candidate>)
  {
    && all == multiset(cands) + multiset(over) + multiset(nmap)
    && |cands| == |env.template| && (forall i :: 0 <= i < |cands| ==> FromTemplate(env, s, d, cands[i], env.template[i]))
    && (forall c :: c in over ==> FromPending(env, s, d, c, pending) && c.path !in PathsOf(env.template))
    && (forall c :: c in nmap ==> c.parentDir == d) && |nmap| <= (if d == "" then |env.nmap| else 0)
    && |over| == |pending - PathsOf(env.template)| <= |pending|
  }

  lemma SetParts(env: Env, s: Scan, d: string) returns (cands: seq<Candidate>, over: set<Candidate>, nmap: seq<Candidate>)
    requires d in s.book.dirs && PendingOk(s.book.dirs[d].pending, d)
    ensures Parts(env, s.scoring, d, s.book.dirs[d].pending, CandidateSet(env, s, d), cands, over, nmap)
    ensures over == Leftovers(env, s.scoring, s.book.dirs[d].pending - PathsOf(env.template))
    ensures cands == Folded(env, s.scoring, d, s.book.dirs[d].depth, env.template, s.book.dirs[d].pending).0
    ensures IsNmap(env, d, nmap) && nmap == NmapCandidates(env, s.book.dirs[d].depth, d)
    ensures BudgetOf(env, s, d) == (if env.perDirBudget > 0 then env.perDirBudget else |cands|) + |over| + |nmap|
  {
    hide NmapCandidates, IsNmap, IsNmapSeed, PathsOf, Leftovers, Score, Parts, FromTemplate, PendingOk;
    var r := s.book.dirs[d];
    var folded := Folded(env, s.scoring, d, r.depth, env.template, r.pending);
    FoldedFacts(env, s.scoring, d, r.depth, env.template, r.pending);
    cands, over, nmap := folded.0, Leftovers(env, s.scoring, folded.1), NmapCandidates(env, r.depth, d);
    PartsOf(env, s.scoring, d, r.depth, r.pending);
    NmapIs(env, r.depth, d);
  }

  lemma PartsOf(env: Env, s: Scoring, d: string, depth: int, pending: map<string, Candidate>)
    requires PendingOk(pending, d)
    ensures var (cands, left) := Folded(env, s, d, depth, env.template, pending);
            && Parts(env, s, d, pending, SetFor(env, s, d, depth, pending), cands, Leftovers(env, s, left), NmapCandidates(env, depth, d))
            && |Leftovers(env, s, left)| == |left|
  {
    hide NmapCandidates, IsNmap, IsNmapSeed, PathsOf, Leftovers, FromTemplate, Parts, Folded;
    FoldedFacts(env, s, d, depth, env.template, pending);
    LeftoverCount(env, s, d, pending, PathsOf(env.template));
    NmapIs(env, depth, d);
    PartsAre(env, s, d, pending, Folded(env, s, d, depth, env.template, pending).0, NmapCandidates(env, depth, d));
  }

  lemma PartsAre(env: Env, s: Scoring, d: string, pending: map<string, Candidate>, cands: seq<Candidate>, nmap: seq<Candidate>)
    requires PendingOk(pending, d) && IsNmap(env, d, nmap)
    requires |cands| == |env.template| && forall i :: 0 <= i < |cands| ==> FromTemplate(env, s, d, cands[i], env.template[i])
    ensures var over := Leftovers(env, s, pending - PathsOf(env.template));
            Parts(env, s, d, pending, multiset(cands) + multiset(over) + multiset(nmap), cands, over, nmap)
  {
    hide PathsOf, Leftovers, FromTemplate, FromPending, PendingOk, IsNmapSeed;
    var gone := PathsOf(env.template);
    var over := Leftovers(env, s, pending - gone);
    forall c | c in over ensures FromPending(env, s, d, c, pending) && c.path !in gone {
      LeftoverFrom(env, s, d, pending, gone, c);
    }
    LeftoverCount(env, s, d, pending, gone);
  }

  lemma NmapIs(env: Env, depth: int, d: string)
    ensures var nmap := NmapCandidates(env, depth, d); IsNmap(env, d, nmap) && forall c :: c in nmap ==> c.parentDir == d && IsNmapSeed(env, c)
  {
  }

  /** An nmap seed as it is queued, with its fixed score. */
  ghost predicate IsNmapSeed(env: Env, c: Candidate)
  {
    exists i :: 0 <= i < |env.nmap| && c == NmapCandidate(c.depth - 1, "", env.nmap[i])
  }

  lemma PartsFacts(env: Env, s: Scoring, d: string, pending: map<string, Candidate>, all: multiset<Candidate>,
                   cands: seq<Candidate>, over: set<Candidate>, nmap: seq<Candidate>)
    requires Parts(env, s, d, pending, all, cands, over, nmap) && forall c :: c in nmap ==> IsNmapSeed(env, c)
    ensures forall c :: c in all ==> c.parentDir == d
    ensures forall c :: c in all ==> c.score == Score(env, s, c) || (d == "" && IsNmapSeed(env, c))
  {
    hide IsNmapSeed, FromTemplate, Score, Parts;
    forall c | c in all ensures c.parentDir == d && (c.score == Score(env, s, c) || (d == "" && IsNmapSeed(env, c))) {
      PartFact(env, s, d, pending, all, cands, over, nmap, c);
    }
  }

  lemma PartFact(env: Env, s: Scoring, d: string, pending: map<string, Candidate>, all: multiset<Candidate>,
                 cands: seq<Candidate>, over: set<Candidate>, nmap: seq<Candidate>, c: Candidate)
    requires Parts(env, s, d, pending, all, cands, over, nmap) && c in all
    ensures c.parentDir == d && (c.score == Score(env, s, c) || (d == "" && c in nmap))
  {
    hide Score;
    assert c in multiset(cands) || c in multiset(over) || c in multiset(nmap);
    if c in cands {
      var i :| 0 <= i < |cands| && cands[i] == c;
      assert FromTemplate(env, s, d, cands[i], env.template[i]);
    }
  }

  lemma PartsSizes(env: Env, s: Scoring, d: string, pending: map<string, Candidate>, all: multiset<Candidate>,
                   cands: seq<Candidate>, over: set<Candidate>, nmap: seq<Candidate>)
    requires Parts(env, s, d, pending, all, cands, over, nmap)
    ensures |all| == |cands| + |over| + |nmap| && |cands| == |env.template| && |over| <= |pending|
    ensures |all| == 0 <==> env.template == [] && pending == map[] && nmap == []
  {
    hide FromTemplate, FromPending, PathsOf;
    Sizes(cands, over, nmap);
    NothingOver(env, pending);
  }

  lemma NothingOver(env: Env, pending: map<string, Candidate>)
    ensures env.template == [] ==> pending - PathsOf(env.template) == pending
    ensures |pending| == 0 <==> pending == map[]
  {
    if env.template == [] { assert PathsOf(env.template) == {}; }
  }

  /** Everything pushed for d lives under d; the set is as large as template, left-over seeds and
      nmap seeds together; every score but an nmap seed's is current. */
  lemma SetFacts(env: Env, s: Scan, d: string)
    requires d in s.book.dirs && PendingOk(s.book.dirs[d].pending, d)
    ensures forall c :: c in CandidateSet(env, s, d) ==> c.parentDir == d
    ensures forall c :: c in CandidateSet(env, s, d) ==> c.score == Score(env, s.scoring, c) || (d == "" && IsNmapSeed(env, c))
    ensures |CandidateSet(env, s, d)| <= |env.template| + |s.book.dirs[d].pending| + (if d == "" then |env.nmap| else 0)
    ensures BudgetOf(env, s, d) - |CandidateSet(env, s, d)| == if env.perDirBudget > 0 then env.perDirBudget - |env.template| else 0
    ensures |CandidateSet(env, s, d)| == 0 <==> env.template == [] && s.book.dirs[d].pending == map[] && (d == "" ==> env.nmap == [])
    ensures BudgetOf(env, s, d) >= 0
  {
    hide IsNmapSeed, NmapCandidates, CandidateSet, Parts, Folded, Leftovers, PathsOf, BudgetOf;
    var cands, over, nmap := SetParts(env, s, d);
    NmapIs(env, s.book.dirs[d].depth, d);
    PartsFacts(env, s.scoring, d, s.book.dirs[d].pending, CandidateSet(env, s, d), cands, over, nmap);
    PartsSizes(env, s.scoring, d, s.book.dirs[d].pending, CandidateSet(env, s, d), cands, over, nmap);
  }

  lemma Sizes(a: seq<Candidate>, b: set<Candidate>, c: seq<Candidate>)
    ensures |multiset(a) + multiset(b) + multiset(c)| == |a| + |b| + |c|
  {
  }

  /** nmap paths can be told apart from each other, from the template, and from these pending seeds. */
  ghost predicate NmapApart(nmap: seq<NmapSeed>, template: seq<Entry>, pending: set<string>)
  {
    && (forall i, j :: 0 <= i < j < |nmap| ==> nmap[i].path != nmap[j].path)
    && forall i :: 0 <= i < |nmap| ==> nmap[i].path !in PathsOf(template) && nmap[i].path !in pending
  }

  ghost function ApartFrom(nmap: seq<NmapSeed>, template: seq<Entry>): set<string> -> bool
  {
    pending => NmapApart(nmap, template, pending)
  }

  /** What an entry is queued as, pending being the seed held at its path if there is one to merge. */
  ghost predicate EntryAs(env: Env, s: Scoring, d: string, depth: int, e: Entry, pending: Option<Candidate>, c: Candidate)
  {
    && c.path == e.path && c.parentDir == d && c.depth == depth + 1 && c.score == Score(env, s, c)
    && c.kind == (if env.corpus then e.kind else if e.kind == TypeFile then TypeFile else TypeDir)
    && c.tags == (if env.corpus then e.tags else ["generic"])
    && c.basePrio == (if pending.Some? && pending.value.basePrio > e.basePrio then pending.value.basePrio else e.basePrio)
    && Sources(c.provenance) == Sources(if env.corpus then e.provenance else if d == "" then "wordlist" else "recursion:" + d)
                                + (if pending.Some? then Sources(pending.value.provenance) else {})
  }

  /** Every template entry is queued when a directory opens: with its own path, tags and kind, the larger of its prior and that of
      the seed pending at its path, the sources of both, and a current score. */
  lemma EntryQueued(env: Env, s: Scan, d: string, i: nat) returns (c: Candidate)
    requires d in s.book.dirs && i < |env.template|
    ensures c in CandidateSet(env, s, d)
    ensures var r, e := s.book.dirs[d], env.template[i];
            EntryAs(env, s.scoring, d, r.depth, e,
                    if e.path in r.pending && FirstThere(env.template, i) then Some(r.pending[e.path]) else None, c)
  {
    hide Folded, Score, Leftovers, NmapCandidates, Sources, FirstThere;
    var r := s.book.dirs[d];
    var e := env.template[i];
    FoldedMerges(env, s.scoring, d, r.depth, env.template, r.pending, i);
    c := Folded(env, s.scoring, d, r.depth, env.template, r.pending).0[i];
    assert c in multiset(Folded(env, s.scoring, d, r.depth, env.template, r.pending).0);
    ScoreOfScored(env, s.scoring, FromEntry(env, d, r.depth, env.template, r.pending, i));
    if e.path in r.pending && FirstThere(env.template, i) {
      UnionSources(TemplateCandidate(env, d, r.depth, e).provenance, r.pending[e.path].provenance);
    }
  }

  lemma ScoreOfScored(env: Env, s: Scoring, c: Candidate)
    ensures Scored(env, s, c).score == Score(env, s, Scored(env, s, c))
  {
  }

  /** No key is pushed twice for a directory if and only if the template's paths are distinct and,
      at the root, the nmap paths are apart from each other, the template and the pending seeds. */
  lemma OnceExactly(env: Env, s: Scan, d: string)
    requires d in s.book.dirs && PendingOk(s.book.dirs[d].pending, d)
    ensures (forall k: Key :: Keys(CandidateSet(env, s, d))[k] <= 1)
       <==> DistinctPaths(env.template) && (d == "" ==> NmapApart(env.nmap, env.template, s.book.dirs[d].pending.Keys))
  {
    hide Keys, CandidateSet, DistinctPaths, NmapApart, PathsOf, Parts, IsNmap, PendingOk, Leftovers, Folded, BudgetOf;
    var pending := s.book.dirs[d].pending;
    var cands, over, nmap := SetParts(env, s, d);
    PendingApart(env, s.scoring, d, pending, PathsOf(env.template));
    if DistinctPaths(env.template) && (d == "" ==> NmapApart(env.nmap, env.template, pending.Keys)) {
      PartsApart(env, s.scoring, d, pending, CandidateSet(env, s, d), cands, over, nmap);
    } else {
      var k := SomethingTwice(env, s, d, cands, over, nmap);
    }
  }

  lemma PartsApart(env: Env, s: Scoring, d: string, pending: map<string, Candidate>, all: multiset<Candidate>,
                   cands: seq<Candidate>, over: set<Candidate>, nmap: seq<Candidate>)
    requires Parts(env, s, d, pending, all, cands, over, nmap) && IsNmap(env, d, nmap)
    requires DistinctPaths(env.template) && (d == "" ==> NmapApart(env.nmap, env.template, pending.Keys))
    requires forall a, b :: a in over && b in over && a.path == b.path ==> a == b
    ensures forall k: Key :: Keys(all)[k] <= 1
  {
    hide Keys, PathsOf, DistinctPaths;
    TemplateApart(env, s, d, cands);
    SeqKeys(cands);
    SetKeys(over);
    SeqKeys(nmap);
    forall a | a in cands ensures a.path in PathsOf(env.template) { InTemplate(env, s, d, cands, a); }
    DisjointKeys(multiset(cands), multiset(over));
    DisjointKeys(multiset(cands) + multiset(over), multiset(nmap));
  }

  /** The i-th candidate stands for the i-th nmap seed. */
  ghost predicate IsNmap(env: Env, d: string, nmap: seq<Candidate>)
  {
    && |nmap| == (if d == "" then |env.nmap| else 0)
    && forall i :: 0 <= i < |nmap| ==> nmap[i].path == env.nmap[i].path && nmap[i].parentDir == d
  }

  lemma InTemplate(env: Env, s: Scoring, d: string, cands: seq<Candidate>, c: Candidate)
    requires |cands| == |env.template| && c in cands
    requires forall i :: 0 <= i < |cands| ==> FromTemplate(env, s, d, cands[i], env.template[i])
    ensures c.path in PathsOf(env.template)
  {
    var i :| 0 <= i < |cands| && cands[i] == c;
    assert FromTemplate(env, s, d, cands[i], env.template[i]);
    assert env.template[i].path in PathsOf(env.template);
  }

  lemma KeyTwice(a: multiset<Candidate>, b: multiset<Candidate>, x: Candidate, y: Candidate)
    requires x in a && y in b && KeyOf(x) == KeyOf(y)
    ensures Keys(a + b)[KeyOf(x)] >= 2
  {
    hide KeyOf;
    MapUnion(a, b, KeyOf);
    MapImage(a, x, KeyOf);
    MapImage(b, y, KeyOf);
  }

  lemma SeqTwice(cs: seq<Candidate>, i: nat, j: nat)
    requires i < j < |cs| && KeyOf(cs[i]) == KeyOf(cs[j])
    ensures Keys(multiset(cs))[KeyOf(cs[i])] >= 2
  {
    hide KeyOf, Keys;
    assert cs == cs[..j] + cs[j..];
    assert cs[..j][i] == cs[i] && cs[j..][0] == cs[j];
    KeyTwice(multiset(cs[..j]), multiset(cs[j..]), cs[i], cs[j]);
  }

  lemma MoreKeys(a: multiset<Candidate>, b: multiset<Candidate>, k: Key)
    ensures Keys(a + b)[k] >= Keys(a)[k] && Keys(a + b)[k] >= Keys(b)[k]
  {
    MapUnion(a, b, KeyOf);
  }

  /** A key pushed twice, when the paths are not apart. */
  lemma SomethingTwice(env: Env, s: Scan, d: string, cands: seq<Candidate>, over: set<Candidate>, nmap: seq<Candidate>)
    returns (k: Key)
    requires d in s.book.dirs
    requires var pending := s.book.dirs[d].pending;
             && Parts(env, s.scoring, d, pending, CandidateSet(env, s, d), cands, over, nmap) && IsNmap(env, d, nmap)
             && PendingOk(pending, d) && over == Leftovers(env, s.scoring, pending - PathsOf(env.template))
             && !(DistinctPaths(env.template) && (d == "" ==> NmapApart(env.nmap, env.template, pending.Keys)))
    ensures Keys(CandidateSet(env, s, d))[k] >= 2
  {
    hide Keys, CandidateSet, Leftovers, PathsOf, PendingOk, FromPending;
    var pending, mc, mo, mn := s.book.dirs[d].pending, multiset(cands), multiset(over), multiset(nmap);
    if i, j :| 0 <= i < j < |env.template| && env.template[i].path == env.template[j].path {
      k := KeyOf(cands[i]);
      assert FromTemplate(env, s.scoring, d, cands[i], env.template[i]) && FromTemplate(env, s.scoring, d, cands[j], env.template[j]);
      SeqTwice(cands, i, j);
      MoreKeys(mc, mo, k);
    } else if i, j :| 0 <= i < j < |env.nmap| && env.nmap[i].path == env.nmap[j].path {
      k := KeyOf(nmap[i]);
      SeqTwice(nmap, i, j);
    } else {
      var i :| 0 <= i < |env.nmap| && (env.nmap[i].path in PathsOf(env.template) || env.nmap[i].path in pending);
      k := KeyOf(nmap[i]);
      var x := AtPath(env, s, d, cands, over, env.nmap[i].path);
      KeyTwice(mc + mo, mn, x, nmap[i]);
    }
    MoreKeys(mc + mo, mn, k);
  }

  /** The template or the left-over seeds have a candidate at every path either names. */
  lemma AtPath(env: Env, s: Scan, d: string, cands: seq<Candidate>, over: set<Candidate>, p: string) returns (x: Candidate)
    requires d in s.book.dirs && PendingOk(s.book.dirs[d].pending, d)
    requires |cands| == |env.template|
    requires forall i :: 0 <= i < |cands| ==> FromTemplate(env, s.scoring, d, cands[i], env.template[i])
    requires over == Leftovers(env, s.scoring, s.book.dirs[d].pending - PathsOf(env.template))
    requires p in PathsOf(env.template) || p in s.book.dirs[d].pending
    ensures x in multiset(cands) + multiset(over) && KeyOf(x) == (d, p)
  {
    hide Leftovers;
    if p in PathsOf(env.template) {
      var i :| 0 <= i < |env.template| && env.template[i].path == p;
      assert FromTemplate(env, s.scoring, d, cands[i], env.template[i]);
      x := cands[i];
    } else {
      LeftoverHas(env, s.scoring, d, s.book.dirs[d].pending, PathsOf(env.template), p);
      x := Scored(env, s.scoring, s.book.dirs[d].pending[p]);
    }
  }

  lemma TemplateApart(env: Env, s: Scoring, d: string, cands: seq<Candidate>)
    requires DistinctPaths(env.template) && |cands| == |env.template|
    requires forall i :: 0 <= i < |cands| ==> FromTemplate(env, s, d, cands[i], env.template[i])
    ensures forall i, j :: 0 <= i < j < |cands| ==> cands[i].path != cands[j].path
  {
    forall i, j | 0 <= i < j < |cands| ensures cands[i].path != cands[j].path {
      assert FromTemplate(env, s, d, cands[i], env.template[i]) && FromTemplate(env, s, d, cands[j], env.template[j]);
    }
  }

  lemma DisjointKeys(a: multiset<Candidate>, b: multiset<Candidate>)
    requires (forall k: Key :: Keys(a)[k] <= 1) && (forall k: Key :: Keys(b)[k] <= 1)
    requires forall x, y :: x in a && y in b ==> KeyOf(x) != KeyOf(y)
    ensures forall k: Key :: Keys(a + b)[k] <= 1
  {
    MapUnion(a, b, KeyOf);
    MapPreimage(a, KeyOf);
    MapPreimage(b, KeyOf);
    forall k | k in Keys(a) ensures k !in Keys(b) {
      var x :| x in a && KeyOf(x) == k;
      forall y | y in b ensures KeyOf(y) != k { assert KeyOf(x) != KeyOf(y); }
    }
  }

  lemma {:induction false} SeqKeys(cands: seq<Candidate>)
    requires forall i, j :: 0 <= i < j < |cands| ==> cands[i].path != cands[j].path
    ensures forall k: Key :: Keys(multiset(cands))[k] <= 1
    decreases |cands|
  {
    if cands != [] {
      var n := |cands| - 1;
      SeqKeys(cands[..n]);
      assert cands == cands[..n] + [cands[n]];
      OneMoreKey(multiset(cands[..n]), cands[n]);
    }
  }

  lemma {:induction false} SetKeys(cs: set<Candidate>)
    requires forall a, b :: a in cs && b in cs && a.path == b.path ==> a == b
    ensures forall k: Key :: Keys(multiset(cs))[k] <= 1
    decreases cs
  {
    if cs != {} {
      var c :| c in cs;
      SetKeys(cs - {c});
      assert multiset(cs) == multiset(cs - {c}) + multiset{c};
      OneMoreKey(multiset(cs - {c}), c);
    }
  }

  lemma OneMoreKey(m: multiset<Candidate>, c: Candidate)
    requires forall k: Key :: Keys(m)[k] <= 1
    requires forall x :: x in m ==> x.path != c.path
    ensures forall k: Key :: Keys(m + multiset{c})[k] <= 1
  {
    MapAdd(m, c, KeyOf);
    MapPreimage(m, KeyOf);
    assert KeyOf(c) !in Keys(m);
  }
}
