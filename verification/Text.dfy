/** The few string operations the engine leans on: splitting, joining, trimming, searching. */
module Text {

  /** Go's strings.Split for a one-character separator: always at least one part. */
  function Split(s: string, sep: char): (parts: seq<string>)
    ensures |parts| > 0
  {
    if s == "" then [""]
    else
      var rest := Split(s[1..], sep);
      if s[0] == sep then [""] + rest else [[s[0]] + rest[0]] + rest[1..]
  }

  function Join(parts: seq<string>, sep: char): string
  {
    if |parts| == 0 then ""
    else if |parts| == 1 then parts[0]
    else parts[0] + [sep] + Join(parts[1..], sep)
  }

  lemma {:induction false} SplitIsClean(s: string, sep: char)
    ensures forall i :: 0 <= i < |Split(s, sep)| ==> sep !in Split(s, sep)[i]
  {
    if s != "" {
      SplitIsClean(s[1..], sep);
    }
  }

  lemma {:induction false} SplitOfClean(s: string, sep: char)
    requires sep !in s
    ensures Split(s, sep) == [s]
  {
    if s != "" {
      SplitOfClean(s[1..], sep);
      assert s == [s[0]] + s[1..];
    }
  }

  /** Splitting around a separator splits both sides on their own. */
  lemma {:induction false} SplitAppend(a: string, b: string, sep: char)
    ensures Split(a + [sep] + b, sep) == Split(a, sep) + Split(b, sep)
  {
    if a == "" {
      assert a + [sep] + b == [sep] + b;
    } else {
      var whole := a + [sep] + b;
      assert whole[0] == a[0] && whole[1..] == a[1..] + [sep] + b;
      SplitAppend(a[1..], b, sep);
    }
  }

  /** Joining and splitting again gives the parts back, when no part holds the separator. */
  lemma {:induction false} SplitJoin(parts: seq<string>, sep: char)
    requires |parts| > 0 && forall i :: 0 <= i < |parts| ==> sep !in parts[i]
    ensures Split(Join(parts, sep), sep) == parts
  {
    if |parts| == 1 {
      SplitOfClean(parts[0], sep);
    } else {
      SplitJoin(parts[1..], sep);
      SplitAppend(parts[0], Join(parts[1..], sep), sep);
      SplitOfClean(parts[0], sep);
      assert parts == [parts[0]] + parts[1..];
    }
  }

  function TrimLeft(s: string, c: char): string
  {
    if |s| > 0 && s[0] == c then TrimLeft(s[1..], c) else s
  }

  function TrimRight(s: string, c: char): string
  {
    if |s| > 0 && s[|s| - 1] == c then TrimRight(s[..|s| - 1], c) else s
  }

  /** Go's strings.Trim for a one-character cutset. */
  function Trim(s: string, c: char): string
  {
    TrimRight(TrimLeft(s, c), c)
  }

  function TrimPrefix(s: string, prefix: string): string
  {
    if prefix <= s then s[|prefix|..] else s
  }

  predicate Contains(s: string, sub: string)
  {
    sub <= s || (s != "" && Contains(s[1..], sub))
  }
}

/** Provenance tags: "+"-joined, merged without repeats. */
module Provenance {
  import opened Text

  /** First occurrences of the non-empty parts, in order, leaving out those already seen. */
  function Dedupe(parts: seq<string>, seen: set<string>): seq<string>
  {
    if parts == [] then []
    else if parts[0] == "" || parts[0] in seen then Dedupe(parts[1..], seen)
    else [parts[0]] + Dedupe(parts[1..], seen + {parts[0]})
  }

  function Union(a: string, b: string): string
  {
    if a == "" then b
    else if b == "" then a
    else Join(Dedupe(Split(a + ['+'] + b, '+'), {}), '+')
  }

  /** The sources a provenance string names. */
  ghost function Sources(s: string): set<string>
  {
    NonEmpty(Split(s, '+'))
  }

  ghost function NonEmpty(parts: seq<string>): set<string>
  {
    set p | p in parts && p != ""
  }

  lemma {:induction false} DedupeKeeps(parts: seq<string>, seen: set<string>)
    ensures NonEmpty(Dedupe(parts, seen)) == NonEmpty(parts) - seen
    ensures forall i :: 0 <= i < |Dedupe(parts, seen)| ==> Dedupe(parts, seen)[i] in parts
    ensures forall i :: 0 <= i < |Dedupe(parts, seen)| ==> Dedupe(parts, seen)[i] != "" && Dedupe(parts, seen)[i] !in seen
    ensures forall i, j :: 0 <= i < j < |Dedupe(parts, seen)| ==> Dedupe(parts, seen)[i] != Dedupe(parts, seen)[j]
  {
    if parts != [] {
      var x := parts[0];
      assert parts == [x] + parts[1..];
      assert NonEmpty(parts) == NonEmpty(parts[1..]) + (if x == "" then {} else {x});
      if x == "" || x in seen {
        DedupeKeeps(parts[1..], seen);
      } else {
        var rest := Dedupe(parts[1..], seen + {x});
        DedupeKeeps(parts[1..], seen + {x});
        assert NonEmpty([x] + rest) == {x} + NonEmpty(rest);
      }
    }
  }

  /** Merging two provenances names exactly the sources either names. */
  lemma UnionSources(a: string, b: string)
    ensures Sources(Union(a, b)) == Sources(a) + Sources(b)
  {
    if a != "" && b != "" {
      var parts := Split(a + ['+'] + b, '+');
      var out := Dedupe(parts, {});
      DedupeKeeps(parts, {});
      SplitAppend(a, b, '+');
      SplitIsClean(a + ['+'] + b, '+');
      assert NonEmpty(Split(a, '+') + Split(b, '+')) == Sources(a) + Sources(b);
      assert NonEmpty(out) == NonEmpty(parts);
      if out == [] {
        assert Sources("") == {};
      } else {
        SplitJoin(out, '+');
      }
    }
  }

  /** A merge of two non-empty provenances names each source once. */
  lemma UnionNamesOnce(a: string, b: string)
    requires a != "" && b != "" && Union(a, b) != ""
    ensures var parts := Split(Union(a, b), '+');
            forall i, j :: 0 <= i < j < |parts| ==> parts[i] != parts[j]
  {
    var parts := Split(a + ['+'] + b, '+');
    DedupeKeeps(parts, {});
    SplitIsClean(a + ['+'] + b, '+');
    SplitJoin(Dedupe(parts, {}), '+');
  }

  method UnionProvenance(a: string, b: string) returns (r: string)
    ensures r == Union(a, b)
  {
    if a == "" { return b; }
    if b == "" { return a; }
    var parts := Split(a + ['+'] + b, '+');
    var seen: set<string> := {};
    var out: seq<string> := [];
    var i := 0;
    while i < |parts|
      invariant i <= |parts|
      invariant out + Dedupe(parts[i..], seen) == Dedupe(parts, {})
    {
      assert parts[i..][1..] == parts[i + 1..];
      if parts[i] != "" && parts[i] !in seen {
        seen := seen + {parts[i]};
        out := out + [parts[i]];
      }
      i := i + 1;
    }
    assert out == out + Dedupe([], seen);
    r := Join(out, '+');
  }

  /** Whether a provenance names an active-harvest source. */
  predicate IsHarvest(provenance: string)
  {
    Contains(provenance, "crawl:") || Contains(provenance, "headless")
  }
}

/** Seed paths and the directories they pass through. */
module Paths {
  import opened Text

  /** The directory named by the first n segments: "" for none, "/a/b" for two. */
  function DirOf(segs: seq<string>, n: nat): string
    requires n <= |segs|
  {
    if n == 0 then "" else DirOf(segs, n - 1) + "/" + segs[n - 1]
  }

  function Segments(path: string): (segs: seq<string>)
    ensures |segs| > 0
  {
    Split(Trim(path, '/'), '/')
  }

  /** The ancestor directories of a path, outermost first. */
  function Ancestors(segs: seq<string>): (dirs: seq<string>)
    requires |segs| > 0
    ensures |dirs| == |segs| - 1
  {
    seq(|segs| - 1, i requires 0 <= i < |segs| - 1 => DirOf(segs, i + 1))
  }

  method SeedAncestorDirs(segs: seq<string>) returns (ancestors: seq<string>)
    requires |segs| > 0
    ensures ancestors == Ancestors(segs)
  {
    var dir := "";
    ancestors := [];
    var i := 0;
    while i < |segs| - 1
      invariant i <= |segs| - 1 && dir == DirOf(segs, i)
      invariant ancestors == Ancestors(segs)[..i]
    {
      dir := dir + "/" + segs[i];
      ancestors := ancestors + [dir];
      i := i + 1;
    }
  }

  /** An ancestor's name under its own parent is its last segment. */
  lemma NameOfAncestor(segs: seq<string>, n: nat)
    requires 0 < n <= |segs|
    ensures TrimPrefix(DirOf(segs, n), DirOf(segs, n - 1) + "/") == segs[n - 1]
  {
  }

  /** Deeper ancestors are longer, so the chain never repeats a directory. */
  lemma {:induction false} AncestorsDiffer(segs: seq<string>, m: nat, n: nat)
    requires m < n <= |segs|
    ensures |DirOf(segs, m)| < |DirOf(segs, n)|
    decreases n
  {
    if m < n - 1 {
      AncestorsDiffer(segs, m, n - 1);
    }
  }
}
