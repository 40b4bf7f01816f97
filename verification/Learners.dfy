/** The learners behind the dynamic score: what confirmed hits say about a directory, which terms and
    extensions were hit there, and the boost that follows. */
module Learners {
  import opened ScanTypes
  import opened Reals

  datatype DirContext = DirContext(sawProtected: bool, sawIndexOf: bool, hitCount: nat)

  const BLANK: DirContext := DirContext(false, false, 0)
  const EXT_PIVOT: real := 0.6

  /** Terminal segment, extension, companions and sensitivity are simple lookups, given from outside. */
  datatype Tables = Tables(
    segment: string -> string,
    extension: string -> string,
    companion: (string, string) -> bool,
    sensitive: Candidate -> bool)

  function ContextAt(ctx: map<string, DirContext>, dir: string): DirContext
  {
    if dir in ctx then ctx[dir] else BLANK
  }

  function SetAt(sets: map<string, set<string>>, dir: string): set<string>
  {
    if dir in sets then sets[dir] else {}
  }

  // ---- What the learners should know, from the hits alone -------------------------------

  ghost predicate Protected(hits: seq<Lesson>, dir: string)
  {
    exists h :: h in hits && h.protected && h.dir == dir
  }

  /** The listing was found at the hit itself. */
  ghost predicate Listed(hits: seq<Lesson>, dir: string)
  {
    exists h :: h in hits && h.indexOf && h.dir + "/" + h.path == dir
  }

  ghost function HitsIn(hits: seq<Lesson>, dir: string): nat
  {
    if hits == [] then 0 else HitsIn(hits[..|hits| - 1], dir) + if hits[|hits| - 1].dir == dir then 1 else 0
  }

  ghost function TermsOf(t: Tables, hits: seq<Lesson>, dir: string): set<string>
  {
    set h | h in hits && h.dir == dir :: t.segment(h.path)
  }

  ghost function ExtsOf(t: Tables, hits: seq<Lesson>, dir: string): set<string>
  {
    set h | h in hits && h.dir == dir && t.extension(h.path) != "" :: t.extension(h.path)
  }

  ghost predicate KnowsContext(ctx: map<string, DirContext>, hits: seq<Lesson>)
  {
    forall dir :: ContextAt(ctx, dir) == DirContext(Protected(hits, dir), Listed(hits, dir), HitsIn(hits, dir))
  }

  ghost predicate KnowsTerms(t: Tables, terms: map<string, set<string>>, exts: map<string, set<string>>, hits: seq<Lesson>)
  {
    (forall dir :: SetAt(terms, dir) == TermsOf(t, hits, dir)) && forall dir :: SetAt(exts, dir) == ExtsOf(t, hits, dir)
  }

  class DynamicScorer {
    const tables: Tables
    var dirCtx: map<string, DirContext>
    var hitTerms: map<string, set<string>>
    var hitExts: map<string, set<string>>
    ghost var hits: seq<Lesson>

    constructor (tables: Tables)
      ensures Valid() && hits == [] && this.tables == tables
    {
      this.tables := tables;
      dirCtx, hitTerms, hitExts, hits := map[], map[], map[], [];
    }

    ghost predicate Valid()
      reads this
    {
      KnowsContext(dirCtx, hits) && KnowsTerms(tables, hitTerms, hitExts, hits)
    }

    method ObserveProtected(dir: string)
      modifies this`dirCtx
      ensures dirCtx == old(dirCtx)[dir := ContextAt(old(dirCtx), dir).(sawProtected := true)]
    {
      dirCtx := dirCtx[dir := ContextAt(dirCtx, dir).(sawProtected := true)];
    }

    method ObserveIndexOf(childDir: string)
      modifies this`dirCtx
      ensures dirCtx == old(dirCtx)[childDir := ContextAt(old(dirCtx), childDir).(sawIndexOf := true)]
    {
      dirCtx := dirCtx[childDir := ContextAt(dirCtx, childDir).(sawIndexOf := true)];
    }

    method RecordHit(dir: string)
      modifies this`dirCtx
      ensures dirCtx == old(dirCtx)[dir := ContextAt(old(dirCtx), dir).(hitCount := ContextAt(old(dirCtx), dir).hitCount + 1)]
    {
      var dc := ContextAt(dirCtx, dir);
      dirCtx := dirCtx[dir := dc.(hitCount := dc.hitCount + 1)];
    }

    /** AssocEngine's RecordHit: the hit's terminal segment and extension. */
    method RecordTerm(dir: string, path: string)
      modifies this`hitTerms, this`hitExts
      ensures hitTerms == old(hitTerms)[dir := SetAt(old(hitTerms), dir) + {tables.segment(path)}]
      ensures hitExts == if tables.extension(path) == "" then old(hitExts)
                         else old(hitExts)[dir := SetAt(old(hitExts), dir) + {tables.extension(path)}]
    {
      hitTerms := hitTerms[dir := SetAt(hitTerms, dir) + {tables.segment(path)}];
      var ext := tables.extension(path);
      if ext != "" {
        hitExts := hitExts[dir := SetAt(hitExts, dir) + {ext}];
      }
    }

    /** learnFromHit's updates: afterwards the learners know exactly the hits they were taught. */
    method Learn(h: Lesson)
      requires Valid()
      modifies this
      ensures Valid() && hits == old(hits) + [h]
    {
      hide KnowsContext, KnowsTerms;
      if h.protected {
        ObserveProtected(h.dir);
      }
      if h.indexOf {
        ObserveIndexOf(h.dir + "/" + h.path);
      }
      RecordHit(h.dir);
      RecordTerm(h.dir, h.path);
      ContextLearns(old(dirCtx), hits, h);
      TermsLearn(tables, old(hitTerms), old(hitExts), hits, h);
      hits := hits + [h];
    }

    /** semSignal: an open listing lifts everything in it, a locked directory its sensitive candidates. */
    function SemSignal(c: Candidate): (s: real)
      requires Valid()
      reads this
      ensures s == 1.0 <==> Listed(hits, c.parentDir) || (Protected(hits, c.parentDir) && tables.sensitive(c))
      ensures s == 0.0 || s == 1.0
    {
      if c.parentDir !in dirCtx then
        assert ContextAt(dirCtx, c.parentDir) == BLANK;
        0.0
      else
        assert ContextAt(dirCtx, c.parentDir) == dirCtx[c.parentDir];
        if dirCtx[c.parentDir].sawIndexOf then 1.0
        else if dirCtx[c.parentDir].sawProtected && tables.sensitive(c) then 1.0
        else 0.0
    }

    /** assocSignal: full for a companion of a term hit in the directory, partial for its extension. */
    function AssocSignal(c: Candidate): (s: real)
      requires Valid()
      reads this
      ensures s == AssocOf(tables, hits, c)
    {
      assert SetAt(hitTerms, c.parentDir) == TermsOf(tables, hits, c.parentDir);
      assert SetAt(hitExts, c.parentDir) == ExtsOf(tables, hits, c.parentDir);
      var seg := tables.segment(c.path);
      if exists term :: term in SetAt(hitTerms, c.parentDir) && tables.companion(term, seg) then 1.0
      else if tables.extension(c.path) != "" && tables.extension(c.path) in SetAt(hitExts, c.parentDir) then EXT_PIVOT
      else 0.0
    }
  }

  /** The context of every directory after one more hit. */
  function Taught(ctx: map<string, DirContext>, h: Lesson): map<string, DirContext>
  {
    var a := if h.protected then ctx[h.dir := ContextAt(ctx, h.dir).(sawProtected := true)] else ctx;
    var child := h.dir + "/" + h.path;
    var b := if h.indexOf then a[child := ContextAt(a, child).(sawIndexOf := true)] else a;
    b[h.dir := ContextAt(b, h.dir).(hitCount := ContextAt(b, h.dir).hitCount + 1)]
  }

  lemma HitsSnoc(hits: seq<Lesson>, h: Lesson, dir: string)
    ensures HitsIn(hits + [h], dir) == HitsIn(hits, dir) + if h.dir == dir then 1 else 0
    ensures Protected(hits + [h], dir) <==> Protected(hits, dir) || (h.protected && h.dir == dir)
    ensures Listed(hits + [h], dir) <==> Listed(hits, dir) || (h.indexOf && h.dir + "/" + h.path == dir)
  {
    assert (hits + [h])[..|hits|] == hits;
    assert h in hits + [h];
    forall x ensures x in hits + [h] <==> x in hits || x == h {}
  }

  lemma ContextLearns(ctx: map<string, DirContext>, hits: seq<Lesson>, h: Lesson)
    requires KnowsContext(ctx, hits)
    ensures KnowsContext(Taught(ctx, h), hits + [h])
  {
    hide Protected, Listed;
    forall dir ensures ContextAt(Taught(ctx, h), dir)
                       == DirContext(Protected(hits + [h], dir), Listed(hits + [h], dir), HitsIn(hits + [h], dir))
    {
      HitsSnoc(hits, h, dir);
      assert ContextAt(ctx, dir) == DirContext(Protected(hits, dir), Listed(hits, dir), HitsIn(hits, dir));
    }
  }

  lemma TermsLearn(t: Tables, terms: map<string, set<string>>, exts: map<string, set<string>>, hits: seq<Lesson>, h: Lesson)
    requires KnowsTerms(t, terms, exts, hits)
    ensures KnowsTerms(t, terms[h.dir := SetAt(terms, h.dir) + {t.segment(h.path)}],
                       if t.extension(h.path) == "" then exts else exts[h.dir := SetAt(exts, h.dir) + {t.extension(h.path)}],
                       hits + [h])
  {
    forall dir ensures TermsOf(t, hits + [h], dir) == TermsOf(t, hits, dir) + if h.dir == dir then {t.segment(h.path)} else {} {
      TermsSnoc(t, hits, h, dir);
    }
    forall dir ensures ExtsOf(t, hits + [h], dir)
                       == ExtsOf(t, hits, dir) + if h.dir == dir && t.extension(h.path) != "" then {t.extension(h.path)} else {}
    {
      TermsSnoc(t, hits, h, dir);
    }
  }

  lemma TermsSnoc(t: Tables, hits: seq<Lesson>, h: Lesson, dir: string)
    ensures TermsOf(t, hits + [h], dir) == TermsOf(t, hits, dir) + if h.dir == dir then {t.segment(h.path)} else {}
    ensures ExtsOf(t, hits + [h], dir)
            == ExtsOf(t, hits, dir) + if h.dir == dir && t.extension(h.path) != "" then {t.extension(h.path)} else {}
  {
    assert h in hits + [h];
    assert forall x :: x in hits + [h] <==> x in hits || x == h;
  }

  // ---- Learning only lifts --------------------------------------------------------------

  ghost function SemOf(t: Tables, hits: seq<Lesson>, c: Candidate): real
  {
    if Listed(hits, c.parentDir) || (Protected(hits, c.parentDir) && t.sensitive(c)) then 1.0 else 0.0
  }

  ghost function AssocOf(t: Tables, hits: seq<Lesson>, c: Candidate): real
  {
    if exists term :: term in TermsOf(t, hits, c.parentDir) && t.companion(term, t.segment(c.path)) then 1.0
    else if t.extension(c.path) != "" && t.extension(c.path) in ExtsOf(t, hits, c.parentDir) then EXT_PIVOT
    else 0.0
  }

  /** A further hit never lowers a candidate's response or association signal. */
  lemma SignalsGrow(t: Tables, hits: seq<Lesson>, h: Lesson, c: Candidate)
    ensures SemOf(t, hits, c) <= SemOf(t, hits + [h], c)
    ensures AssocOf(t, hits, c) <= AssocOf(t, hits + [h], c)
  {
    hide Listed, Protected, TermsOf, ExtsOf;
    HitsSnoc(hits, h, c.parentDir);
    TermsSnoc(t, hits, h, c.parentDir);
    if term :| term in TermsOf(t, hits, c.parentDir) && t.companion(term, t.segment(c.path)) {
      assert term in TermsOf(t, hits + [h], c.parentDir);
    }
  }

  datatype Weights = Weights(sem: real, assoc: real, conv: real)

  function Boost(w: Weights, sem: real, assoc: real, conv: real): real
  {
    (1.0 + w.sem * sem) * (1.0 + w.assoc * assoc) * (1.0 + w.conv * conv)
  }

  lemma Times(a: real, b: real, c: real, d: real)
    requires 0.0 <= a <= b && 0.0 <= c <= d
    ensures 0.0 <= a * c <= b * d
  {
    assert b * d - a * c == b * (d - c) + (b - a) * c;
  }

  /** With weights that are not negative the boost never lowers a score, and grows with each signal. */
  lemma BoostGrows(w: Weights, a: real, b: real, c: real, a': real, b': real, c': real)
    requires w.sem >= 0.0 && w.assoc >= 0.0 && w.conv >= 0.0
    requires 0.0 <= a <= a' && 0.0 <= b <= b' && 0.0 <= c <= c'
    ensures 1.0 <= Boost(w, a, b, c) <= Boost(w, a', b', c')
  {
    Times(w.sem, w.sem, a, a');
    Times(w.assoc, w.assoc, b, b');
    Times(w.conv, w.conv, c, c');
    var x, y, z := 1.0 + w.sem * a, 1.0 + w.assoc * b, 1.0 + w.conv * c;
    var x', y', z' := 1.0 + w.sem * a', 1.0 + w.assoc * b', 1.0 + w.conv * c';
    Times(1.0, x, 1.0, y);
    Times(1.0, x * y, 1.0, z);
    Times(x, x', y, y');
    Times(x * y, x' * y', z, z');
  }
}
