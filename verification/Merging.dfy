/** Merging what several sources say: raw seeds by path, and corpus candidates by path. */
module Merging {
  import opened ScanTypes
  import opened Text
  import opened Provenance

  datatype RawSeed = RawSeed(path: string, source: string)
  datatype NormSeed = NormSeed(path: string, isDirHint: bool, basePrio: real, provenance: string)

  const PRIO_ROBOTS_DISALLOW: real := 0.95
  const PRIO_SITEMAP: real := 0.90
  const PRIO_ROBOTS_ALLOW: real := 0.85
  const PRIO_WAYBACK_RECENT: real := 0.85
  const PRIO_WAYBACK_OLD: real := 0.70
  const PRIO_CRAWL_HTML: real := 0.90
  const PRIO_CRAWL_JS: real := 0.85
  const PRIO_HEADLESS: real := 0.90

  function Before(s: string, sep: char): string
  {
    if s == "" || s[0] == sep then "" else [s[0]] + Before(s[1..], sep)
  }

  function AfterLast(s: string, sep: char): string
  {
    if sep !in s then s else AfterLast(s[1..], sep)
  }

  function StripQuery(p: string): string { Before(p, '?') }

  function IsDirHint(p: string): bool { '.' !in AfterLast(p, '/') }

  /** The prior of a source; `recent` says which captures count as recent. */
  function BasePrio(source: string, recent: string -> bool): real
  {
    if source == "robots:disallow" then PRIO_ROBOTS_DISALLOW
    else if source == "sitemap" then PRIO_SITEMAP
    else if source == "robots:allow" then PRIO_ROBOTS_ALLOW
    else if source == "crawl:html" then PRIO_CRAWL_HTML
    else if source == "crawl:js" then PRIO_CRAWL_JS
    else if source == "headless" then PRIO_HEADLESS
    else if "wayback:" <= source then if recent(source[8..]) then PRIO_WAYBACK_RECENT else PRIO_WAYBACK_OLD
    else PRIO_ROBOTS_ALLOW
  }

  /** What a normalization depends on besides its input. */
  datatype Rules = Rules(seedAssets: bool, recent: string -> bool, asset: string -> bool)

  /** The raw seed survives: it names a path, and is not Wayback's static-asset noise. */
  predicate Wanted(rules: Rules, r: RawSeed)
  {
    var p := StripQuery(r.path);
    p != "" && p != "/" && (rules.seedAssets || !("wayback" <= r.source && rules.asset(p)))
  }

  // ---- What normalization means, whatever the order -------------------------------------

  /** The wanted raw seeds naming p. */
  ghost function Naming(rules: Rules, raws: seq<RawSeed>, p: string): set<RawSeed>
  {
    set r | r in raws && Wanted(rules, r) && StripQuery(r.path) == p
  }

  ghost function SourcesOf(rs: set<RawSeed>): set<string>
  {
    set r, s | r in rs && s in Sources(r.source) :: s
  }

  /** x is the largest prior among these raw seeds. */
  ghost predicate MaxPrio(rules: Rules, rs: set<RawSeed>, x: real)
  {
    (exists r :: r in rs && BasePrio(r.source, rules.recent) == x) && forall r :: r in rs ==> BasePrio(r.source, rules.recent) <= x
  }

  /** One merged seed stands for all raw seeds at its path. */
  ghost predicate StandsFor(rules: Rules, rs: set<RawSeed>, s: NormSeed)
  {
    s.isDirHint == IsDirHint(s.path) && MaxPrio(rules, rs, s.basePrio) && Sources(s.provenance) == SourcesOf(rs)
  }

  /** Each wanted path occurs once, standing for everything that named it. */
  ghost predicate Normalized(rules: Rules, raws: seq<RawSeed>, out: seq<NormSeed>)
  {
    && (forall i :: 0 <= i < |out| ==> Naming(rules, raws, out[i].path) != {} && StandsFor(rules, Naming(rules, raws, out[i].path), out[i]))
    && (forall i, j :: 0 <= i < j < |out| ==> out[i].path != out[j].path)
    && forall p :: Naming(rules, raws, p) != {} ==> exists i :: 0 <= i < |out| && out[i].path == p
  }

  lemma NamingSnoc(rules: Rules, raws: seq<RawSeed>, r: RawSeed, p: string)
    ensures Naming(rules, raws + [r], p)
            == if Wanted(rules, r) && StripQuery(r.path) == p then Naming(rules, raws, p) + {r} else Naming(rules, raws, p)
  {
  }

  lemma MergeStands(rules: Rules, rs: set<RawSeed>, s: NormSeed, r: RawSeed)
    requires StandsFor(rules, rs, s)
    ensures var prio := BasePrio(r.source, rules.recent);
            StandsFor(rules, rs + {r}, s.(basePrio := if prio > s.basePrio then prio else s.basePrio,
                                          provenance := Union(s.provenance, r.source)))
  {
    UnionSources(s.provenance, r.source);
    assert SourcesOf(rs + {r}) == SourcesOf(rs) + Sources(r.source);
  }

  lemma FirstStands(rules: Rules, r: RawSeed)
    ensures var p := StripQuery(r.path);
            StandsFor(rules, {r}, NormSeed(p, IsDirHint(p), BasePrio(r.source, rules.recent), r.source))
  {
    assert SourcesOf({r}) == Sources(r.source);
  }

  /** The table built so far: the paths in order of first mention, each with its merged seed. */
  ghost predicate Tabled(rules: Rules, raws: seq<RawSeed>, byPath: map<string, NormSeed>, order: seq<string>)
  {
    && (forall p :: p in byPath <==> Naming(rules, raws, p) != {})
    && (forall p :: p in byPath ==> byPath[p].path == p && StandsFor(rules, Naming(rules, raws, p), byPath[p]))
    && (forall p :: p in order <==> p in byPath)
    && (forall i, j :: 0 <= i < j < |order| ==> order[i] != order[j])
  }

  lemma TableSkips(rules: Rules, raws: seq<RawSeed>, byPath: map<string, NormSeed>, order: seq<string>, r: RawSeed)
    requires Tabled(rules, raws, byPath, order) && !Wanted(rules, r)
    ensures Tabled(rules, raws + [r], byPath, order)
  {
    hide Wanted, StandsFor, Naming;
    forall p ensures Naming(rules, raws + [r], p) == Naming(rules, raws, p) { NamingSnoc(rules, raws, r, p); }
  }

  lemma TableMerges(rules: Rules, raws: seq<RawSeed>, byPath: map<string, NormSeed>, order: seq<string>, r: RawSeed)
    requires Tabled(rules, raws, byPath, order) && Wanted(rules, r) && StripQuery(r.path) in byPath
    ensures var p, prio := StripQuery(r.path), BasePrio(r.source, rules.recent);
            var s := byPath[p];
            var s' := s.(basePrio := if prio > s.basePrio then prio else s.basePrio, provenance := Union(s.provenance, r.source));
            Tabled(rules, raws + [r], byPath[p := s'], order)
  {
    hide Wanted, StandsFor, Naming, Union, BasePrio;
    var p := StripQuery(r.path);
    forall q ensures Naming(rules, raws + [r], q) == if q == p then Naming(rules, raws, p) + {r} else Naming(rules, raws, q) {
      NamingSnoc(rules, raws, r, q);
    }
    MergeStands(rules, Naming(rules, raws, p), byPath[p], r);
  }

  lemma TableAdds(rules: Rules, raws: seq<RawSeed>, byPath: map<string, NormSeed>, order: seq<string>, r: RawSeed)
    requires Tabled(rules, raws, byPath, order) && Wanted(rules, r) && StripQuery(r.path) !in byPath
    ensures var p := StripQuery(r.path);
            var s := NormSeed(p, IsDirHint(p), BasePrio(r.source, rules.recent), r.source);
            Tabled(rules, raws + [r], byPath[p := s], order + [p])
  {
    hide Wanted, StandsFor, Naming, BasePrio;
    var p := StripQuery(r.path);
    forall q ensures Naming(rules, raws + [r], q) == if q == p then Naming(rules, raws, p) + {r} else Naming(rules, raws, q) {
      NamingSnoc(rules, raws, r, q);
    }
    assert Naming(rules, raws, p) == {};
    assert {} + {r} == {r};
    FirstStands(rules, r);
  }

  lemma TableRead(rules: Rules, raws: seq<RawSeed>, byPath: map<string, NormSeed>, order: seq<string>, out: seq<NormSeed>)
    requires Tabled(rules, raws, byPath, order)
    requires |out| == |order| && forall i :: 0 <= i < |out| ==> order[i] in byPath && out[i] == byPath[order[i]]
    ensures Normalized(rules, raws, out)
  {
    hide StandsFor, Naming;
    forall p | Naming(rules, raws, p) != {} ensures exists i :: 0 <= i < |out| && out[i].path == p {
      assert p in byPath && p in order;
      var i :| 0 <= i < |order| && order[i] == p;
      assert out[i].path == p;
    }
  }

  method Normalize(raws: seq<RawSeed>, rules: Rules) returns (out: seq<NormSeed>)
    ensures Normalized(rules, raws, out)
  {
    hide Tabled, Wanted, BasePrio, IsDirHint, StripQuery, Normalized, Union;
    var byPath: map<string, NormSeed> := map[];
    var order: seq<string> := [];
    EmptyTable(rules);
    assert raws[..0] == [];
    var i := 0;
    while i < |raws|
      invariant i <= |raws| && Tabled(rules, raws[..i], byPath, order)
    {
      var r := raws[i];
      assert raws[..i + 1] == raws[..i] + [r];
      if !Wanted(rules, r) {
        TableSkips(rules, raws[..i], byPath, order, r);
      } else {
        var p, prio := StripQuery(r.path), BasePrio(r.source, rules.recent);
        if p in byPath {
          TableMerges(rules, raws[..i], byPath, order, r);
          var s := byPath[p];
          var provenance := UnionProvenance(s.provenance, r.source);
          byPath := byPath[p := s.(basePrio := if prio > s.basePrio then prio else s.basePrio, provenance := provenance)];
        } else {
          TableAdds(rules, raws[..i], byPath, order, r);
          byPath := byPath[p := NormSeed(p, IsDirHint(p), prio, r.source)];
          order := order + [p];
        }
      }
      i := i + 1;
    }
    assert raws[..i] == raws;
    out := ReadTable(rules, raws, byPath, order);
  }

  method ReadTable(rules: Rules, ghost raws: seq<RawSeed>, byPath: map<string, NormSeed>, order: seq<string>) returns (out: seq<NormSeed>)
    requires Tabled(rules, raws, byPath, order)
    ensures Normalized(rules, raws, out)
  {
    hide Normalized, StandsFor, Naming;
    out := [];
    var i := 0;
    while i < |order|
      invariant i <= |order| == |order| && |out| == i && forall j :: 0 <= j < i ==> order[j] in byPath && out[j] == byPath[order[j]]
    {
      assert order[i] in order;
      out := out + [byPath[order[i]]];
      i := i + 1;
    }
    TableRead(rules, raws, byPath, order, out);
  }

  lemma EmptyTable(rules: Rules)
    ensures Tabled(rules, [], map[], [])
  {
  }

  /** The order of the input does not matter: two normalizations of the same raw seeds, in any order,
      agree on the paths, and at each path on the hint, the prior and the sources. */
  lemma OrderDoesNotMatter(rules: Rules, a: seq<RawSeed>, b: seq<RawSeed>, x: seq<NormSeed>, y: seq<NormSeed>, i: nat)
    requires (forall r :: r in a <==> r in b) && Normalized(rules, a, x) && Normalized(rules, b, y) && i < |x|
    ensures exists j :: 0 <= j < |y| && Agree(x[i], y[j])
  {
    hide StandsFor, Wanted;
    var p := x[i].path;
    assert Naming(rules, a, p) == Naming(rules, b, p);
    var j :| 0 <= j < |y| && y[j].path == p;
    SameStand(rules, Naming(rules, a, p), x[i], y[j]);
  }

  ghost predicate Agree(x: NormSeed, y: NormSeed)
  {
    x.path == y.path && x.isDirHint == y.isDirHint && x.basePrio == y.basePrio && Sources(x.provenance) == Sources(y.provenance)
  }

  lemma SameStand(rules: Rules, rs: set<RawSeed>, x: NormSeed, y: NormSeed)
    requires StandsFor(rules, rs, x) && StandsFor(rules, rs, y) && x.path == y.path
    ensures Agree(x, y)
  {
    hide BasePrio, Sources;
  }
}
