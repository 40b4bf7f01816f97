/** Corpus terms: expanded into concrete paths, then merged path by path. */
module Corpus {
  import opened ScanTypes

  const STEM_DECAY: real := 0.9
  const BACKUP_BOOST: real := 1.3
  const BACKUP_SUFFIXES: seq<string> := [".bak", ".old", ".zip", ".tar.gz", ".swp", "~"]

  datatype Term = Term(path: string, kind: Kind, basePrio: real, score: real, tags: set<string>, provenance: string)

  /** What a merged path carries: tags and provenances of every occurrence. */
  datatype Merged = Merged(path: string, kind: Kind, basePrio: real, score: real, tags: set<string>, provenance: set<string>)

  /** The target's extensions, whether they show a backend stack, the static score, and which names
      are sensitive. */
  datatype Target = Target(exts: seq<string>, stack: bool, score: (real, set<string>) -> real, sensitive: string -> bool)

  // ---- Expansion ------------------------------------------------------------------------

  /** A generic word's kind follows its shape. */
  function Shape(c: Term): Kind
  {
    if "generic" in c.tags && (c.kind == TypeDir || c.kind == TypeFile) then
      if '.' in c.path then TypeFile else TypeDir
    else c.kind
  }

  function BackupOf(g: Target, c: Term, i: nat): Term
    requires i < |BACKUP_SUFFIXES|
  {
    var prio := c.basePrio * BACKUP_BOOST;
    Term(c.path + BACKUP_SUFFIXES[i], TypeFile, prio, g.score(prio, c.tags), c.tags, c.provenance + ":backup")
  }

  function Backups(g: Target, c: Term): seq<Term>
  {
    if c.kind != TypeFile || !g.sensitive(c.path) then []
    else seq(|BACKUP_SUFFIXES|, i requires 0 <= i < |BACKUP_SUFFIXES| => BackupOf(g, c, i))
  }

  function Decay(i: nat): real
  {
    if i == 0 then 1.0 else Decay(i - 1) * STEM_DECAY
  }

  function StemOf(g: Target, c: Term, i: nat): Term
    requires i < |g.exts|
  {
    var prio := c.basePrio * Decay(i);
    Term(c.path + g.exts[i], TypeFile, prio, g.score(prio, c.tags), c.tags, c.provenance + ":stem")
  }

  /** The stem with the first n extensions, each followed by its backups. */
  function Stems(g: Target, c: Term, n: nat): seq<Term>
    requires n <= |g.exts|
  {
    if n == 0 then [] else Stems(g, c, n - 1) + [StemOf(g, c, n - 1)] + Backups(g, StemOf(g, c, n - 1))
  }

  function ExpandOne(g: Target, c: Term): seq<Term>
  {
    match Shape(c)
    case TypeFile => [c.(kind := TypeFile)] + Backups(g, c.(kind := TypeFile))
    case TypeFullPath => [c.(kind := TypeFullPath)] + Backups(g, c.(kind := TypeFullPath))
    case TypeDir => [c.(kind := TypeDir)] + (if "generic" in c.tags && g.stack then Stems(g, c, |g.exts|) else [])
    case TypeStem => Stems(g, c, |g.exts|)
  }

  function ExpandAll(g: Target, cs: seq<Term>): seq<Term>
  {
    if cs == [] then [] else ExpandAll(g, cs[..|cs| - 1]) + ExpandOne(g, cs[|cs| - 1])
  }

  method BackupsFor(g: Target, c: Term) returns (out: seq<Term>)
    ensures out == Backups(g, c)
  {
    out := [];
    if c.kind != TypeFile || !g.sensitive(c.path) { return; }
    for i := 0 to |BACKUP_SUFFIXES|
      invariant out == Backups(g, c)[..i]
    {
      out := out + [BackupOf(g, c, i)];
    }
  }

  method ExpandStem(g: Target, c: Term) returns (out: seq<Term>)
    ensures out == Stems(g, c, |g.exts|)
  {
    hide Backups;
    out := [];
    var decay := 1.0;
    for i := 0 to |g.exts|
      invariant out == Stems(g, c, i) && decay == Decay(i)
    {
      var prio := c.basePrio * decay;
      assert prio == c.basePrio * Decay(i);
      var cc := Term(c.path + g.exts[i], TypeFile, prio, g.score(prio, c.tags), c.tags, c.provenance + ":stem");
      assert cc == StemOf(g, c, i);
      var backups := BackupsFor(g, cc);
      out := out + [cc] + backups;
      decay := decay * STEM_DECAY;
    }
  }

  method ExpandTerm(g: Target, c: Term) returns (out: seq<Term>)
    ensures out == ExpandOne(g, c)
  {
    hide Backups, Stems;
    var effective := Shape(c);
    var more: seq<Term> := [];
    match effective {
      case TypeFile => more := BackupsFor(g, c.(kind := TypeFile)); out := [c.(kind := TypeFile)] + more;
      case TypeFullPath => more := BackupsFor(g, c.(kind := TypeFullPath)); out := [c.(kind := TypeFullPath)] + more;
      case TypeDir =>
        if "generic" in c.tags && g.stack { more := ExpandStem(g, c); }
        out := [c.(kind := TypeDir)] + more;
      case TypeStem => out := ExpandStem(g, c);
    }
  }

  /** Expand: every term expanded, then merged by path. */
  method Expand(g: Target, cs: seq<Term>) returns (out: seq<Merged>)
    ensures Deduped(ExpandAll(g, cs), out)
  {
    hide ExpandOne, Deduped;
    var all: seq<Term> := [];
    assert cs[..0] == [];
    for i := 0 to |cs|
      invariant all == ExpandAll(g, cs[..i])
    {
      assert cs[..i + 1][..i] == cs[..i];
      var one := ExpandTerm(g, cs[i]);
      all := all + one;
    }
    assert cs[..|cs|] == cs;
    out := Dedup(all);
  }

  lemma {:induction false} DecayFalls(i: nat, j: nat)
    requires i < j
    ensures 0.0 < Decay(j) < Decay(i) <= 1.0
  {
    if i + 1 < j {
      DecayFalls(i, j - 1);
    } else if i > 0 {
      DecayFalls(i - 1, i);
    }
  }

  /** The stack's first extension ranks above every later one of the same stem. */
  lemma StemsRank(g: Target, c: Term, i: nat, j: nat)
    requires i < j < |g.exts| && c.basePrio > 0.0
    ensures StemOf(g, c, j).basePrio < StemOf(g, c, i).basePrio <= c.basePrio
  {
    DecayFalls(i, j);
    assert c.basePrio * Decay(i) - c.basePrio * Decay(j) == c.basePrio * (Decay(i) - Decay(j)) > 0.0;
    assert c.basePrio - c.basePrio * Decay(i) == c.basePrio * (1.0 - Decay(i));
  }

  lemma {:induction false} ExpandKeeps(g: Target, cs: seq<Term>, i: nat)
    requires i < |cs| && Shape(cs[i]) != TypeStem
    ensures cs[i].(kind := Shape(cs[i])) in ExpandAll(g, cs)
  {
    hide Stems, Backups;
    var n := |cs| - 1;
    if i < n {
      ExpandKeeps(g, cs[..n], i);
    } else {
      assert cs[i].(kind := Shape(cs[i])) == ExpandOne(g, cs[i])[0];
    }
  }

  /** A directory-shaped word stays recursion-eligible: whatever file forms its expansion also produced
      at the same path, however they score, the merged path is a directory. */
  lemma DirectoryStays(g: Target, cs: seq<Term>, out: seq<Merged>, i: nat)
    requires i < |cs| && Shape(cs[i]) == TypeDir && Deduped(ExpandAll(g, cs), out)
    ensures exists j :: 0 <= j < |out| && out[j].path == cs[i].path && out[j].kind == TypeDir
  {
    hide ExpandAll;
    ExpandKeeps(g, cs, i);
    var all := ExpandAll(g, cs);
    var t := cs[i].(kind := TypeDir);
    assert t in At(all, t.path);
    var j :| 0 <= j < |out| && out[j].path == t.path;
    assert Survives(At(all, t.path), out[j]);
  }

  // ---- Merging --------------------------------------------------------------------------

  /** The occurrences of one path. */
  ghost function At(terms: seq<Term>, p: string): set<Term>
  {
    set t | t in terms && t.path == p
  }

  ghost predicate TopScore(ts: set<Term>, x: real)
  {
    (exists t :: t in ts && t.score == x) && forall t :: t in ts ==> t.score <= x
  }

  ghost function TagsOf(ts: set<Term>): set<string>
  {
    set t, g | t in ts && g in t.tags :: g
  }

  ghost function ProvenanceOf(ts: set<Term>): set<string>
  {
    set t | t in ts && t.provenance != "" :: t.provenance
  }

  /** The surviving term: the top score, every tag and provenance, a directory exactly if any occurrence
      was one; its prior, and its kind if no directory is among them, are a top-scoring occurrence's. */
  ghost predicate Survives(ts: set<Term>, m: Merged)
  {
    && TopScore(ts, m.score) && m.tags == TagsOf(ts) && m.provenance == ProvenanceOf(ts)
    && (exists u :: u in ts && u.score == m.score && u.basePrio == m.basePrio && (m.kind == u.kind || m.kind == TypeDir))
    && (m.kind == TypeDir <==> exists u :: u in ts && u.kind == TypeDir)
  }

  /** The running record of one path, before the directory rule is applied. */
  ghost predicate Running(ts: set<Term>, best: Merged, anyDir: bool)
  {
    && TopScore(ts, best.score) && best.tags == TagsOf(ts) && best.provenance == ProvenanceOf(ts)
    && (exists u :: u in ts && u.score == best.score && u.basePrio == best.basePrio && u.kind == best.kind)
    && (anyDir <==> exists u :: u in ts && u.kind == TypeDir)
  }

  function Alone(t: Term): Merged
  {
    Merged(t.path, t.kind, t.basePrio, t.score, t.tags, if t.provenance == "" then {} else {t.provenance})
  }

  function Joined(best: Merged, t: Term): Merged
  {
    var tagged := best.(tags := best.tags + t.tags, provenance := best.provenance + if t.provenance == "" then {} else {t.provenance});
    if t.score > best.score then tagged.(score := t.score, basePrio := t.basePrio, kind := t.kind) else tagged
  }

  lemma JoinRuns(ts: set<Term>, best: Merged, anyDir: bool, t: Term)
    requires Running(ts, best, anyDir)
    ensures Running(ts + {t}, Joined(best, t), anyDir || t.kind == TypeDir)
  {
    var all := ts + {t};
    assert TagsOf(all) == TagsOf(ts) + t.tags;
    assert ProvenanceOf(all) == ProvenanceOf(ts) + if t.provenance == "" then {} else {t.provenance};
    assert t in all;
    var u :| u in ts && u.score == best.score && u.basePrio == best.basePrio && u.kind == best.kind;
    assert u in all;
  }

  lemma FirstRuns(t: Term)
    ensures Running({t}, Alone(t), t.kind == TypeDir)
  {
    assert TagsOf({t}) == t.tags;
    assert t in {t};
  }

  lemma RunSurvives(ts: set<Term>, best: Merged, anyDir: bool)
    requires Running(ts, best, anyDir)
    ensures Survives(ts, if anyDir then best.(kind := TypeDir) else best)
  {
  }

  ghost predicate Gathered(terms: seq<Term>, best: map<string, Merged>, anyDir: set<string>, order: seq<string>)
  {
    && (forall p :: p in best <==> At(terms, p) != {})
    && (forall p :: p in best ==> best[p].path == p && Running(At(terms, p), best[p], p in anyDir))
    && (forall p :: p in order <==> p in best)
    && (forall p :: p in anyDir ==> p in best)
    && (forall i, j :: 0 <= i < j < |order| ==> order[i] != order[j])
  }

  lemma AtSnoc(terms: seq<Term>, t: Term, p: string)
    ensures At(terms + [t], p) == if t.path == p then At(terms, p) + {t} else At(terms, p)
  {
  }

  lemma GatherAdds(terms: seq<Term>, best: map<string, Merged>, anyDir: set<string>, order: seq<string>, t: Term)
    requires Gathered(terms, best, anyDir, order)
    ensures var dirs := if t.kind == TypeDir then anyDir + {t.path} else anyDir;
            if t.path in best then Gathered(terms + [t], best[t.path := Joined(best[t.path], t)], dirs, order)
            else Gathered(terms + [t], best[t.path := Alone(t)], dirs, order + [t.path])
  {
    hide At, Running;
    forall p ensures At(terms + [t], p) == if t.path == p then At(terms, p) + {t} else At(terms, p) { AtSnoc(terms, t, p); }
    if t.path in best {
      JoinRuns(At(terms, t.path), best[t.path], t.path in anyDir, t);
    } else {
      assert {} + {t} == {t};
      FirstRuns(t);
    }
  }

  /** The survivor of p. */
  function Final(best: map<string, Merged>, anyDir: set<string>, p: string): Merged
    requires p in best
  {
    if p in anyDir then best[p].(kind := TypeDir) else best[p]
  }

  lemma FinalSurvives(terms: seq<Term>, best: map<string, Merged>, anyDir: set<string>, order: seq<string>, p: string)
    requires Gathered(terms, best, anyDir, order) && p in best
    ensures Final(best, anyDir, p).path == p && At(terms, p) != {} && Survives(At(terms, p), Final(best, anyDir, p))
  {
    hide At, Running, Survives;
    RunSurvives(At(terms, p), best[p], p in anyDir);
  }

  /** Each path once, its survivor standing for all its occurrences. */
  ghost predicate Deduped(terms: seq<Term>, out: seq<Merged>)
  {
    && (forall i :: 0 <= i < |out| ==> At(terms, out[i].path) != {} && Survives(At(terms, out[i].path), out[i]))
    && (forall i, j :: 0 <= i < j < |out| ==> out[i].path != out[j].path)
    && forall p :: At(terms, p) != {} ==> exists i :: 0 <= i < |out| && out[i].path == p
  }

  method Dedup(terms: seq<Term>) returns (out: seq<Merged>)
    ensures Deduped(terms, out)
  {
    hide Gathered, Deduped, Joined, Alone;
    var best: map<string, Merged> := map[];
    var anyDir: set<string> := {};
    var order: seq<string> := [];
    NothingGathered();
    assert terms[..0] == [];
    var i := 0;
    while i < |terms|
      invariant i <= |terms| && Gathered(terms[..i], best, anyDir, order)
    {
      var t := terms[i];
      assert terms[..i + 1] == terms[..i] + [t];
      GatherAdds(terms[..i], best, anyDir, order, t);
      if t.path in best {
        best := best[t.path := Joined(best[t.path], t)];
      } else {
        order := order + [t.path];
        best := best[t.path := Alone(t)];
      }
      if t.kind == TypeDir { anyDir := anyDir + {t.path}; }
      i := i + 1;
    }
    assert terms[..i] == terms;
    out := ReadGathered(terms, best, anyDir, order);
  }

  lemma NothingGathered()
    ensures Gathered([], map[], {}, [])
  {
  }

  method ReadGathered(ghost terms: seq<Term>, best: map<string, Merged>, anyDir: set<string>, order: seq<string>) returns (out: seq<Merged>)
    requires Gathered(terms, best, anyDir, order)
    ensures Deduped(terms, out)
  {
    hide Deduped, Running, At;
    out := [];
    var i := 0;
    while i < |order|
      invariant i <= |order| && |out| == i
      invariant forall j :: 0 <= j < i ==> order[j] in best && out[j] == Final(best, anyDir, order[j])
    {
      assert order[i] in order;
      var c := best[order[i]];
      if order[i] in anyDir { c := c.(kind := TypeDir); }
      out := out + [c];
      i := i + 1;
    }
    GatherRead(terms, best, anyDir, order, out);
  }

  lemma GatherRead(terms: seq<Term>, best: map<string, Merged>, anyDir: set<string>, order: seq<string>, out: seq<Merged>)
    requires Gathered(terms, best, anyDir, order) && |out| == |order|
    requires forall j :: 0 <= j < |out| ==> order[j] in best && out[j] == Final(best, anyDir, order[j])
    ensures Deduped(terms, out)
  {
    hide At, Running, Survives, Final;
    forall i | 0 <= i < |out|
      ensures out[i].path == order[i] && At(terms, out[i].path) != {} && Survives(At(terms, out[i].path), out[i])
    {
      FinalSurvives(terms, best, anyDir, order, order[i]);
    }
    forall p | At(terms, p) != {} ensures exists i :: 0 <= i < |out| && out[i].path == p {
      assert p in best && p in order;
      var i :| 0 <= i < |order| && order[i] == p;
      assert out[i].path == p;
    }
  }

  /** Merging the same terms in another order keeps the same paths with the same score, tags, provenance,
      and the same answer to whether the path is a directory. */
  lemma DedupIsOrderFree(a: seq<Term>, b: seq<Term>, x: seq<Merged>, y: seq<Merged>, i: nat)
    requires (forall t :: t in a <==> t in b) && Deduped(a, x) && Deduped(b, y) && i < |x|
    ensures exists j :: 0 <= j < |y| && y[j].path == x[i].path && y[j].score == x[i].score && y[j].tags == x[i].tags
                        && y[j].provenance == x[i].provenance && (y[j].kind == TypeDir <==> x[i].kind == TypeDir)
  {
    hide TagsOf, ProvenanceOf;
    var p := x[i].path;
    assert At(a, p) == At(b, p);
    var j :| 0 <= j < |y| && y[j].path == p;
    assert Survives(At(b, p), y[j]) && Survives(At(a, p), x[i]);
  }
}
