/** The blast radius of a seed batch: how many new directories one batch may bring. */
module Blast {
  import opened ScanTypes
  import opened Counting
  import opened Text
  import opened Paths
  import opened Accounting
  import opened Ledgers
  import opened ScanModel

  const MAX_NEW_DIRS: nat := 500

  // ---- The stable sort ------------------------------------------------------------------

  ghost predicate Falling(s: seq<Seed>)
  {
    forall i, j :: 0 <= i < j < |s| ==> s[i].basePrio >= s[j].basePrio
  }

  /** The seeds of one priority, in order. */
  ghost function OfPrio(s: seq<Seed>, p: real): seq<Seed>
  {
    if s == [] then []
    else
      var n := |s| - 1;
      OfPrio(s[..n], p) + if s[n].basePrio == p then [s[n]] else []
  }

  /** `out` is `s` sorted by falling priority, equals kept in order. */
  ghost predicate StablySorted(s: seq<Seed>, out: seq<Seed>)
  {
    Falling(out) && forall p :: OfPrio(out, p) == OfPrio(s, p)
  }

  lemma {:induction false} OfPrioAppend(a: seq<Seed>, b: seq<Seed>, p: real)
    ensures OfPrio(a + b, p) == OfPrio(a, p) + OfPrio(b, p)
  {
    if b == [] {
      assert a + b == a;
    } else {
      var n := |b| - 1;
      OfPrioAppend(a, b[..n], p);
      assert (a + b)[..|a + b| - 1] == a + b[..n];
    }
  }

  lemma {:induction false} OfPrioNone(s: seq<Seed>, p: real)
    requires forall i :: 0 <= i < |s| ==> s[i].basePrio != p
    ensures OfPrio(s, p) == []
  {
    if s != [] {
      OfPrioNone(s[..|s| - 1], p);
    }
  }

  lemma {:induction false} OfPrioHas(s: seq<Seed>, p: real, sd: Seed)
    ensures sd in OfPrio(s, p) <==> sd in s && sd.basePrio == p
  {
    if s != [] {
      var n := |s| - 1;
      OfPrioHas(s[..n], p, sd);
      assert s == s[..n] + [s[n]];
    }
  }

  /** Sorting neither loses nor makes up a seed. */
  lemma SortedHas(s: seq<Seed>, out: seq<Seed>, sd: Seed)
    requires StablySorted(s, out)
    ensures sd in out <==> sd in s
  {
    hide OfPrio;
    OfPrioHas(s, sd.basePrio, sd);
    OfPrioHas(out, sd.basePrio, sd);
  }

  lemma InsertPrio(a: seq<Seed>, sd: Seed, b: seq<Seed>, p: real)
    requires forall j :: 0 <= j < |b| ==> b[j].basePrio < sd.basePrio
    ensures OfPrio(a + [sd] + b, p) == OfPrio(a + b, p) + if sd.basePrio == p then [sd] else []
  {
    OfPrioAppend(a + [sd], b, p);
    OfPrioAppend(a, [sd], p);
    OfPrioAppend(a, b, p);
    assert OfPrio([sd], p) == OfPrio([], p) + if sd.basePrio == p then [sd] else [];
    if sd.basePrio == p {
      OfPrioNone(b, p);
    }
  }

  /** Inserting after everything at least as urgent keeps the order and each priority's sequence. */
  lemma InsertStable(s: seq<Seed>, out: seq<Seed>, i: nat, sd: Seed)
    requires StablySorted(s, out) && i <= |out|
    requires (forall j :: 0 <= j < i ==> out[j].basePrio >= sd.basePrio) && (forall j :: i <= j < |out| ==> out[j].basePrio < sd.basePrio)
    ensures StablySorted(s + [sd], out[..i] + [sd] + out[i..])
  {
    hide OfPrio;
    forall p ensures OfPrio(out[..i] + [sd] + out[i..], p) == OfPrio(s + [sd], p) {
      assert out == out[..i] + out[i..];
      InsertPrio(out[..i], sd, out[i..], p);
      InsertPrio(s, sd, [], p);
      assert s + [sd] + [] == s + [sd] && s + [] == s;
    }
  }

  method SortSeeds(seeds: seq<Seed>) returns (out: seq<Seed>)
    ensures StablySorted(seeds, out)
  {
    hide OfPrio;
    out := [];
    assert seeds[..0] == [];
    var k := 0;
    while k < |seeds|
      invariant k <= |seeds| && StablySorted(seeds[..k], out)
    {
      var i := |out|;
      while i > 0 && out[i - 1].basePrio < seeds[k].basePrio
        invariant 0 <= i <= |out|
        invariant forall j :: i <= j < |out| ==> out[j].basePrio < seeds[k].basePrio
      {
        i := i - 1;
      }
      assert forall j :: 0 <= j < i ==> out[j].basePrio >= out[i - 1].basePrio;
      InsertStable(seeds[..k], out, i, seeds[k]);
      assert seeds[..k + 1] == seeds[..k] + [seeds[k]];
      out := out[..i] + [seeds[k]] + out[i..];
      k := k + 1;
    }
    assert seeds[..k] == seeds;
  }

  // ---- The cap --------------------------------------------------------------------------

  /** The directories a seed passes through. */
  ghost function Chain(sd: Seed): set<string>
  {
    set d | d in Ancestors(Segments(sd.path))
  }

  /** The directories these seeds pass through that do not exist yet. */
  ghost function NewDirs(dirs: set<string>, seeds: seq<Seed>): set<string>
  {
    if seeds == [] then {}
    else NewDirs(dirs, seeds[..|seeds| - 1]) + (Chain(seeds[|seeds| - 1]) - dirs)
  }

  lemma {:induction false} NewDirsGrow(dirs: set<string>, seeds: seq<Seed>, k: nat)
    requires k <= |seeds|
    ensures NewDirs(dirs, seeds[..k]) <= NewDirs(dirs, seeds)
  {
    if k < |seeds| {
      var n := |seeds| - 1;
      assert seeds[..n][..k] == seeds[..k];
      NewDirsGrow(dirs, seeds[..n], k);
    } else {
      assert seeds[..k] == seeds;
    }
  }

  lemma CapHolds(dirs: set<string>, sorted: seq<Seed>, i: nat)
    requires i < |sorted| && |NewDirs(dirs, sorted[..i + 1])| > MAX_NEW_DIRS
    ensures forall k :: i < k <= |sorted| ==> |NewDirs(dirs, sorted[..k])| > MAX_NEW_DIRS
  {
    hide NewDirs;
    forall k | i < k <= |sorted| ensures |NewDirs(dirs, sorted[..k])| > MAX_NEW_DIRS {
      assert sorted[..k][..i + 1] == sorted[..i + 1];
      NewDirsGrow(dirs, sorted[..k], i + 1);
      Smaller(NewDirs(dirs, sorted[..i + 1]), NewDirs(dirs, sorted[..k]));
    }
  }

  lemma NewDirsNext(dirs: set<string>, sorted: seq<Seed>, i: nat)
    requires i < |sorted|
    ensures NewDirs(dirs, sorted[..i + 1])
            == NewDirs(dirs, sorted[..i]) + ((set d | d in Ancestors(Segments(sorted[i].path))) - dirs)
  {
    hide Segments, Ancestors;
    assert sorted[..i + 1][..i] == sorted[..i];
  }

  /** capBatch: the longest prefix of the sorted batch that stays within the cap. */
  method CapBatch(dirs: set<string>, seeds: seq<Seed>) returns (sorted: seq<Seed>, kept: seq<Seed>)
    ensures StablySorted(seeds, sorted) && kept <= sorted
    ensures |NewDirs(dirs, kept)| <= MAX_NEW_DIRS
    ensures forall k :: |kept| < k <= |sorted| ==> |NewDirs(dirs, sorted[..k])| > MAX_NEW_DIRS
  {
    hide NewDirs, StablySorted, Segments, Ancestors;
    sorted := SortSeeds(seeds);
    var newDirs: set<string> := {};
    NoNewDirs(dirs);
    assert sorted[..0] == [];
    var i := 0;
    while i < |sorted|
      invariant i <= |sorted| && newDirs == NewDirs(dirs, sorted[..i]) && |newDirs| <= MAX_NEW_DIRS
    {
      var chain := SeedAncestorDirs(Segments(sorted[i].path));
      newDirs := AddMissing(dirs, newDirs, chain);
      NewDirsNext(dirs, sorted, i);
      if |newDirs| > MAX_NEW_DIRS {
        CapHolds(dirs, sorted, i);
        return sorted, sorted[..i];
      }
      i := i + 1;
    }
    assert sorted[..i] == sorted;
    kept := sorted;
  }

  lemma NoNewDirs(dirs: set<string>)
    ensures NewDirs(dirs, []) == {}
  {
  }

  method AddMissing(dirs: set<string>, newDirs: set<string>, chain: seq<string>) returns (added: set<string>)
    ensures added == newDirs + ((set d | d in chain) - dirs)
  {
    added := newDirs;
    var j := 0;
    while j < |chain|
      invariant j <= |chain| && added == newDirs + ((set d | d in chain[..j]) - dirs)
    {
      assert chain[..j + 1] == chain[..j] + [chain[j]];
      if chain[j] !in dirs {
        added := added + {chain[j]};
      }
      j := j + 1;
    }
    assert chain[..j] == chain;
  }

  // ---- What applying a capped batch adds ------------------------------------------------

  lemma {:induction false} FinishDirs(env: Env, s: Scan, d: string)
    requires d in s.book.dirs
    ensures FinishCalibration(env, s, d).book.dirs.Keys == s.book.dirs.Keys
    decreases if s.rootRefined then 0 else 1, 1
  {
    hide Probes, CandidateSet, BudgetOf, Grew;
    var cal := env.calibrate(d, s.rootRefined);
    var s1 := s.(spaDirs := s.spaDirs[d := cal.spa]);
    if d == "" && !s.rootRefined {
      var s2 := ReprioritizeIfChanged(env, s1.(rootRefined := true, scoring := s1.scoring.(profile := cal.profile)));
      if Grew(s2.exts, cal.exts) {
        AgainDirs(env, s2.(exts := cal.exts), d);
      }
    }
  }

  lemma {:induction false} AgainDirs(env: Env, s: Scan, d: string)
    requires d in s.book.dirs && s.rootRefined
    ensures Recalibrate(env, s, d).book.dirs.Keys == s.book.dirs.Keys
    decreases 0, 2
  {
    hide FinishCalibration, Probes;
    var probes := Probes(env, d, s.exts, 0);
    if probes == [] {
      FinishDirs(env, s.(book := Restarted(s.book, d, probes)), d);
    }
  }

  /** A directory joins the tree, and nothing else does. */
  lemma ChildDirs(env: Env, s: Scan, d: string, depth: int)
    ensures EnqueueChild(env, s, d, depth).book.dirs.Keys == s.book.dirs.Keys + {d}
  {
    hide FinishCalibration, Probes;
    var probes := Probes(env, d, s.exts, 0);
    if d !in s.book.dirs && probes == [] {
      FinishDirs(env, s.(book := Started(s.book, d, depth, probes)), d);
    }
  }

  lemma StageDirs(env: Env, s: Scan, d: string, c: Candidate, pick: Candidate)
    ensures StageDirCandidate(env, s, d, c, pick).book.dirs.Keys == s.book.dirs.Keys
  {
    hide Scored, Merged;
  }

  lemma ChainStepDirs(env: Env, s: Scan, segs: seq<string>, prio: real, provenance: string, pick: Candidate, i: nat)
    requires i < |segs|
    ensures ChainStep(env, s, segs, prio, provenance, pick, i).book.dirs.Keys == s.book.dirs.Keys + {DirOf(segs, i + 1)}
  {
    hide StageDirCandidate, EnqueueChild, DirOf;
    var s1 := s.(book := s.book.(log := s.book.log.(chained := s.book.log.chained + 1)));
    ChildDirs(env, s1, DirOf(segs, i + 1), i + 1);
    StageDirs(env, EnqueueChild(env, s1, DirOf(segs, i + 1), i + 1), DirOf(segs, i), AncestorCandidate(segs, i, prio, provenance), pick);
  }

  /** The first n of the directories a path passes through. */
  function Passed(segs: seq<string>, n: nat): set<string>
    requires n < |segs|
  {
    set d | d in Ancestors(segs)[..n]
  }

  lemma {:induction false} ChainDirs(env: Env, s: Scan, segs: seq<string>, prio: real, provenance: string, picks: seq<Candidate>, n: nat)
    requires n < |segs| && |picks| == |segs|
    ensures EnsureDirChain(env, s, segs, prio, provenance, picks, n).book.dirs.Keys == s.book.dirs.Keys + Passed(segs, n)
    decreases n
  {
    hide ChainStep, DirOf, Passed;
    PassedNext(segs, n);
    if n > 0 {
      ChainDirs(env, s, segs, prio, provenance, picks, n - 1);
      ChainStepDirs(env, EnsureDirChain(env, s, segs, prio, provenance, picks, n - 1), segs, prio, provenance, picks[n - 1], n - 1);
      AddedLast(s.book.dirs.Keys, Passed(segs, n - 1), DirOf(segs, n));
    }
  }

  lemma AddedLast<T>(a: set<T>, b: set<T>, x: T)
    ensures a + b + {x} == a + (b + {x})
  {
  }

  lemma PassedNext(segs: seq<string>, n: nat)
    requires n < |segs|
    ensures Passed(segs, n) == if n == 0 then {} else Passed(segs, n - 1) + {DirOf(segs, n)}
  {
    hide DirOf;
    if n > 0 {
      assert Ancestors(segs)[..n] == Ancestors(segs)[..n - 1] + [DirOf(segs, n)];
    }
  }

  /** A seed adds exactly the directories it passes through, if it is admitted at all. */
  lemma SeedDirs(env: Env, s: Scan, sd: Seed, picks: seq<Candidate>)
    requires |picks| == |Segments(sd.path)|
    ensures EnqueueSeed(env, s, sd, picks).book.dirs.Keys == s.book.dirs.Keys + if Admitted(env, sd) then Chain(sd) else {}
  {
    hide StageDirCandidate, EnsureDirChain, Segments, DirOf, Admitted, Ancestors;
    if Admitted(env, sd) {
      var segs := Segments(sd.path);
      var n := |segs| - 1;
      var s0 := s.(book := s.book.(log := s.book.log.(seeds := s.book.log.seeds + 1)));
      ChainDirs(env, s0, segs, sd.basePrio, sd.provenance, picks, n);
      assert Passed(segs, n) == Chain(sd) by {
        assert Ancestors(segs)[..n] == Ancestors(segs);
      }
      var s1 := EnsureDirChain(env, s0, segs, sd.basePrio, sd.provenance, picks, n);
      StageDirs(env, s1, DirOf(segs, n), LeafCandidate(segs, sd), picks[n]);
    }
  }

  /** applySeedBatch after the cap: one seed after the other. */
  ghost function ApplyBatch(env: Env, s: Scan, seeds: seq<Seed>, picks: seq<seq<Candidate>>): Scan
    requires |picks| == |seeds| && forall i :: 0 <= i < |seeds| ==> |picks[i]| == |Segments(seeds[i].path)|
  {
    if seeds == [] then s
    else
      var n := |seeds| - 1;
      EnqueueSeed(env, ApplyBatch(env, s, seeds[..n], picks[..n]), seeds[n], picks[n])
  }

  lemma {:induction false} BatchDirs(env: Env, s: Scan, seeds: seq<Seed>, picks: seq<seq<Candidate>>)
    requires |picks| == |seeds| && forall i :: 0 <= i < |seeds| ==> |picks[i]| == |Segments(seeds[i].path)|
    ensures ApplyBatch(env, s, seeds, picks).book.dirs.Keys <= s.book.dirs.Keys + NewDirs(s.book.dirs.Keys, seeds)
  {
    hide EnqueueSeed, Segments, Chain, Admitted;
    if seeds != [] {
      var n := |seeds| - 1;
      BatchDirs(env, s, seeds[..n], picks[..n]);
      SeedDirs(env, ApplyBatch(env, s, seeds[..n], picks[..n]), seeds[n], picks[n]);
    }
  }

  /** A capped batch, whatever it held, makes the tree grow by at most the cap. */
  lemma BlastRadius(env: Env, s: Scan, kept: seq<Seed>, picks: seq<seq<Candidate>>)
    requires |picks| == |kept| && forall i :: 0 <= i < |kept| ==> |picks[i]| == |Segments(kept[i].path)|
    requires |NewDirs(s.book.dirs.Keys, kept)| <= MAX_NEW_DIRS
    ensures |ApplyBatch(env, s, kept, picks).book.dirs| <= |s.book.dirs| + MAX_NEW_DIRS
  {
    hide Segments, ApplyBatch, NewDirs;
    BatchDirs(env, s, kept, picks);
    var after := ApplyBatch(env, s, kept, picks).book.dirs;
    Smaller(after.Keys, s.book.dirs.Keys + NewDirs(s.book.dirs.Keys, kept));
    assert |after| == |after.Keys| && |s.book.dirs| == |s.book.dirs.Keys|;
  }
}
