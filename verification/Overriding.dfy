/** Which way overrides and the SPA pivot move scores: what boosts, demotions and pins do to everything queued. */
module Overriding {
  import opened ScanTypes
  import opened Counting
  import opened Text
  import opened Provenance
  import opened Paths
  import opened Accounting
  import opened ScanModel

  // ---- One override more ----------------------------------------------------------------

  /** What an override makes of a score, where its pattern matches: a boost multiplies, a demotion divides. */
  function MovedScore(kind: OverrideKind, factor: Factor, score: real): real
    requires kind != Exclude
  {
    if kind == Boost then score * factor else score / factor
  }

  lemma Divided(a: real, b: real)
    requires b > 0.0
    ensures a / b * b == a
  {
  }

  /** One more override: a boost multiplies the multiplier by its factor, a demotion divides it, wherever the
      pattern matches; anywhere else, and as an exclusion, it changes nothing. */
  lemma OneMore(env: Env, overrides: seq<Override>, ov: Override, d: string, p: string)
    ensures var m, m' := Multiplier(env, overrides, d, p), Multiplier(env, overrides + [ov], d, p);
            if ov.kind == Exclude || !env.matches(ov.pattern, d, p) then m' == m
            else if ov.kind == Boost then m' == m * ov.factor
            else m' * ov.factor == m
  {
    var all := overrides + [ov];
    assert all[..|overrides|] == overrides;
    Divided(Multiplier(env, overrides, d, p), ov.factor);
  }

  /** The factors of the matching overrides of one kind, multiplied. */
  function Factors(env: Env, overrides: seq<Override>, kind: OverrideKind, d: string, p: string): real
  {
    if overrides == [] then 1.0
    else
      var n := |overrides| - 1;
      var ov := overrides[n];
      Factors(env, overrides[..n], kind, d, p) * if ov.kind == kind && env.matches(ov.pattern, d, p) then ov.factor else 1.0
  }

  lemma Swap(a: real, b: real, c: real)
    ensures a * b * c == a * c * b
  {
  }

  /** Overrides compose: the multiplier is all matching boosts over all matching demotions, in whatever order they came. */
  lemma {:induction false} AllCompose(env: Env, overrides: seq<Override>, d: string, p: string)
    ensures Multiplier(env, overrides, d, p) * Factors(env, overrides, Demote, d, p) == Factors(env, overrides, Boost, d, p)
  {
    hide Multiplier, Factors;
    if overrides == [] {
      NoneCompose(env, d, p);
    } else {
      var n := |overrides| - 1;
      var ov := overrides[n];
      AllCompose(env, overrides[..n], d, p);
      assert overrides == overrides[..n] + [ov];
      OneMore(env, overrides[..n], ov, d, p);
      LastFactor(env, overrides, Boost, d, p);
      LastFactor(env, overrides, Demote, d, p);
      Composes(Multiplier(env, overrides[..n], d, p), Multiplier(env, overrides, d, p), ov.factor,
               Factors(env, overrides[..n], Demote, d, p), Factors(env, overrides, Demote, d, p),
               Factors(env, overrides[..n], Boost, d, p), Factors(env, overrides, Boost, d, p),
               if ov.kind == Exclude || !env.matches(ov.pattern, d, p) then Exclude else ov.kind);
    }
  }

  lemma NoneCompose(env: Env, d: string, p: string)
    ensures Multiplier(env, [], d, p) == 1.0 && forall kind :: Factors(env, [], kind, d, p) == 1.0
  {
  }

  lemma Composes(m: real, m': real, f: real, demotes: real, demotes': real, boosts: real, boosts': real, kind: OverrideKind)
    requires m * demotes == boosts
    requires match kind
             case Boost => m' == m * f && demotes' == demotes && boosts' == boosts * f
             case Demote => m' * f == m && demotes' == demotes * f && boosts' == boosts
             case Exclude => m' == m && demotes' == demotes && boosts' == boosts
    ensures m' * demotes' == boosts'
  {
    Swap(m, f, demotes);
    Swap(m', f, demotes);
    Regroup(m', demotes, f);
  }

  lemma Regroup(a: real, b: real, c: real)
    ensures a * b * c == a * (b * c)
  {
  }

  lemma LastFactor(env: Env, overrides: seq<Override>, kind: OverrideKind, d: string, p: string)
    requires overrides != []
    ensures var n, f := |overrides| - 1, Factors(env, overrides, kind, d, p);
            if overrides[n].kind == kind && env.matches(overrides[n].pattern, d, p)
            then f == Factors(env, overrides[..n], kind, d, p) * overrides[n].factor
            else f == Factors(env, overrides[..n], kind, d, p)
  {
  }

  // ---- The queue ------------------------------------------------------------------------

  /** The scoring with one override more. */
  function With(s: Scoring, pattern: string, kind: OverrideKind, factor: Factor): Scoring
  {
    s.(overrides := s.overrides + [Override(pattern, kind, factor)])
  }

  predicate Current(env: Env, s: Scoring, c: Candidate)
  {
    c.score == Score(env, s, c)
  }

  lemma Associated(a: real, m: real, f: real)
    requires f > 0.0
    ensures a * (m * f) == a * m * f
  {
  }

  lemma ScoreMoves(env: Env, s: Scoring, pattern: string, kind: OverrideKind, factor: Factor, c: Candidate)
    requires kind != Exclude
    ensures Score(env, With(s, pattern, kind, factor), c)
            == if env.matches(pattern, c.parentDir, c.path) then MovedScore(kind, factor, Score(env, s, c)) else Score(env, s, c)
  {
    hide Multiplier;
    var m := Multiplier(env, s.overrides, c.parentDir, c.path);
    var m' := Multiplier(env, s.overrides + [Override(pattern, kind, factor)], c.parentDir, c.path);
    OneMore(env, s.overrides, Override(pattern, kind, factor), c.parentDir, c.path);
    var prior := env.boosted(s.profile, s.lessons, c.basePrio, c.tags, c.parentDir, c.path);
    var damped := if s.spaMode && !IsHarvest(c.provenance) then prior * SPA_SCORE_DOWN else prior;
    if env.matches(pattern, c.parentDir, c.path) {
      if kind == Boost {
        Associated(damped, m, factor);
      } else {
        Associated(damped, m', factor);
        Quotiented(damped * m', factor, damped * m);
      }
    }
  }

  lemma Quotiented(x: real, f: real, y: real)
    requires f > 0.0 && x * f == y
    ensures x == y / f
  {
  }

  /** What becomes of a queued candidate: with a current score it is moved where the pattern matches and left alone
      where it does not; any other gets a current score. */
  ghost function Reweighted(env: Env, s: Scoring, pattern: string, kind: OverrideKind, factor: Factor): Candidate -> Candidate
    requires kind != Exclude
  {
    (c: Candidate) =>
      if !Current(env, s, c) then Scored(env, With(s, pattern, kind, factor), c)
      else if env.matches(pattern, c.parentDir, c.path) then c.(score := MovedScore(kind, factor, c.score))
      else c
  }

  lemma SweepMoves(env: Env, s: Scan, pattern: string, kind: OverrideKind, factor: Factor)
    requires kind != Exclude
    ensures Sweep(env, WithOverride(s, pattern, kind, factor)).book.queue
            == MapAll(s.book.queue, Reweighted(env, s.scoring, pattern, kind, factor))
  {
    hide MapAll, Score, MovedScore;
    var f, g := Scorer(env, With(s.scoring, pattern, kind, factor)), Reweighted(env, s.scoring, pattern, kind, factor);
    forall c | c in s.book.queue ensures f(c) == g(c) { ScoreMoves(env, s.scoring, pattern, kind, factor, c); }
    MapSame(s.book.queue, f, g);
  }

  /** A boost or a demotion: everything queued stays queued, every match with a current score scores the factor times,
      or the factor-th part of, what it did, and everything else with a current score is as it was. A factor that
      is not positive counts as one. */
  lemma OverrideMoves(env: Env, s: Scan, pattern: string, kind: OverrideKind, factor: real)
    requires kind != Exclude
    ensures var f: Factor := if factor > 0.0 then factor else 1.0;
            ApplyOverride(env, s, pattern, kind, factor).book.queue == MapAll(s.book.queue, Reweighted(env, s.scoring, pattern, kind, f))
  {
    hide Sweep, MapAll;
    SweepMoves(env, s, pattern, kind, FactorOf(factor));
  }

  // ---- Pins -----------------------------------------------------------------------------

  /** From s to r nothing left the queue but under these keys. */
  ghost predicate Spares(s: Scan, r: Scan, keys: set<Key>)
  {
    forall c :: KeyOf(c) !in keys ==> r.book.queue[c] >= s.book.queue[c]
  }

  lemma SparesThen(s: Scan, t: Scan, r: Scan, keys: set<Key>)
    requires Spares(s, t, keys) && Spares(t, r, keys)
    ensures Spares(s, r, keys)
  {
  }

  lemma ChildSpares(env: Env, s: Scan, d: string, depth: int, keys: set<Key>)
    requires d != ""
    ensures Spares(s, EnqueueChild(env, s, d, depth), keys)
  {
    hide Probes, CandidateSet, BudgetOf, Keys, WithoutFirst;
  }

  lemma StageSpares(env: Env, s: Scan, d: string, c: Candidate, pick: Candidate, keys: set<Key>)
    requires (d, c.path) in keys
    ensures Spares(s, StageDirCandidate(env, s, d, c, pick), keys)
  {
    hide Score, Merged;
  }

  /** The keys of the segments of a path, each under its parent. */
  ghost function SegmentKeys(segs: seq<string>): set<Key>
  {
    set k | 0 <= k < |segs| :: (DirOf(segs, k), segs[k])
  }

  lemma KeyIn(segs: seq<string>, k: nat)
    requires k < |segs|
    ensures (DirOf(segs, k), segs[k]) in SegmentKeys(segs)
  {
  }

  lemma {:induction false} ChainSpares(env: Env, s: Scan, segs: seq<string>, prio: real, provenance: string,
                                       picks: seq<Candidate>, n: nat)
    requires n < |segs| && |picks| == |segs|
    ensures Spares(s, EnsureDirChain(env, s, segs, prio, provenance, picks, n), SegmentKeys(segs))
    decreases n
  {
    hide ChainStep, Spares, SegmentKeys;
    if n == 0 {
      SameSpares(s, s, SegmentKeys(segs));
    } else {
      var t := EnsureDirChain(env, s, segs, prio, provenance, picks, n - 1);
      ChainSpares(env, s, segs, prio, provenance, picks, n - 1);
      ChainStepSpares(env, t, segs, prio, provenance, picks[n - 1], n - 1);
      SparesThen(s, t, EnsureDirChain(env, s, segs, prio, provenance, picks, n), SegmentKeys(segs));
    }
  }

  lemma ChainStepSpares(env: Env, s: Scan, segs: seq<string>, prio: real, provenance: string, pick: Candidate, i: nat)
    requires i < |segs|
    ensures Spares(s, ChainStep(env, s, segs, prio, provenance, pick, i), SegmentKeys(segs))
  {
    hide StageDirCandidate, EnqueueChild, Spares, SegmentKeys;
    var s1 := s.(book := s.book.(log := s.book.log.(chained := s.book.log.chained + 1)));
    var s2 := EnqueueChild(env, s1, DirOf(segs, i + 1), i + 1);
    SameSpares(s, s1, SegmentKeys(segs));
    ChildSpares(env, s1, DirOf(segs, i + 1), i + 1, SegmentKeys(segs));
    SparesThen(s, s1, s2, SegmentKeys(segs));
    KeyIn(segs, i);
    StageSpares(env, s2, DirOf(segs, i), AncestorCandidate(segs, i, prio, provenance), pick, SegmentKeys(segs));
    SparesThen(s, s2, ChainStep(env, s, segs, prio, provenance, pick, i), SegmentKeys(segs));
  }

  lemma SameSpares(s: Scan, r: Scan, keys: set<Key>)
    requires r.book.queue == s.book.queue
    ensures Spares(s, r, keys)
  {
  }

  /** A seed leaves everything queued that is not at one of its own segments. */
  lemma SeedSpares(env: Env, s: Scan, sd: Seed, picks: seq<Candidate>)
    requires |picks| == |Segments(sd.path)|
    ensures Spares(s, EnqueueSeed(env, s, sd, picks), SegmentKeys(Segments(sd.path)))
  {
    hide StageDirCandidate, EnsureDirChain, Segments, Admitted, Spares, SegmentKeys;
    var segs := Segments(sd.path);
    SameSpares(s, s, SegmentKeys(segs));
    if Admitted(env, sd) {
      var n := |segs| - 1;
      var s0 := s.(book := s.book.(log := s.book.log.(seeds := s.book.log.seeds + 1)));
      var s1 := EnsureDirChain(env, s0, segs, sd.basePrio, sd.provenance, picks, n);
      SameSpares(s, s0, SegmentKeys(segs));
      ChainSpares(env, s0, segs, sd.basePrio, sd.provenance, picks, n);
      SparesThen(s, s0, s1, SegmentKeys(segs));
      KeyIn(segs, n);
      StageSpares(env, s1, DirOf(segs, n), LeafCandidate(segs, sd), picks[n], SegmentKeys(segs));
      SparesThen(s, s1, EnqueueSeed(env, s, sd, picks), SegmentKeys(segs));
    }
  }

  /** A pin: every queued match with a current score scores a thousand times what it did, and everything else with a
      current score is as it was; of a literal pin, but for the candidates at its own segments, which may merge with it. */
  lemma PinMoves(env: Env, s: Scan, pattern: string, picks: seq<Candidate>)
    requires |picks| == |Segments(pattern)|
    ensures var r, moved := ApplyPin(env, s, pattern, picks), MapAll(s.book.queue, Reweighted(env, s.scoring, pattern, Boost, 1000.0));
            && ('*' in pattern || '?' in pattern || '[' in pattern ==> r.book.queue == moved)
            && forall c :: KeyOf(c) !in SegmentKeys(Segments(pattern)) ==> r.book.queue[c] >= moved[c]
  {
    hide Sweep, MapAll, EnqueueSeed, Segments, SegmentKeys, Reweighted;
    SweepMoves(env, s, pattern, Boost, PIN_SCORE);
    var s1 := Sweep(env, WithOverride(s, pattern, Boost, PIN_SCORE));
    if !IsGlob(pattern) { SeedSpares(env, s1, Seed(pattern, false, 1.0, "user:pin"), picks); }
  }

  /** A literal pin is a seed too, if it is admitted as one; a glob is none. */
  lemma PinSeeds(env: Env, s: Scan, pattern: string, picks: seq<Candidate>)
    requires |picks| == |Segments(pattern)|
    ensures var literal := '*' !in pattern && '?' !in pattern && '[' !in pattern;
            ApplyPin(env, s, pattern, picks).book.log.seeds
            == s.book.log.seeds + if literal && Admitted(env, Seed(pattern, false, 1.0, "user:pin")) then 1 else 0
  {
    hide Segments, EnsureDirChain, StageDirCandidate, Admitted;
  }

  // ---- The SPA pivot --------------------------------------------------------------------

  /** In SPA mode everything scores a tenth, except what active harvesting found. */
  lemma SpaDamps(env: Env, s: Scoring, c: Candidate)
    requires !s.spaMode
    ensures Score(env, s.(spaMode := true), c) == Score(env, s, c) * if IsHarvest(c.provenance) then 1.0 else 0.1
  {
    hide Multiplier, IsHarvest;
    var prior := env.boosted(s.profile, s.lessons, c.basePrio, c.tags, c.parentDir, c.path);
    Swap(prior, SPA_SCORE_DOWN, Multiplier(env, s.overrides, c.parentDir, c.path));
  }

  /** What the pivot makes of a queued candidate with a current score; any other gets a current one. */
  ghost function Damped(env: Env, s: Scoring): Candidate -> Candidate
  {
    (c: Candidate) =>
      if !Current(env, s, c) then Scored(env, s.(spaMode := true), c)
      else if IsHarvest(c.provenance) then c
      else c.(score := c.score * 0.1)
  }

  /** When the root turns out to be an SPA everything queued stays queued: what harvesting found as it was, the rest
      at a tenth. Nothing else pivots. */
  lemma PivotMoves(env: Env, s: Scan, d: string, spa: bool)
    requires !s.scoring.spaMode
    ensures var r := Pivot(env, s, d, spa);
            if d == "" && spa
            then r.scoring == s.scoring.(spaMode := true) && r.book.queue == MapAll(s.book.queue, Damped(env, s.scoring))
            else r == s
  {
    if d == "" && spa {
      hide MapAll, Score, IsHarvest;
      var f, g := Scorer(env, s.scoring.(spaMode := true)), Damped(env, s.scoring);
      forall c | c in s.book.queue ensures f(c) == g(c) { SpaDamps(env, s.scoring, c); }
      MapSame(s.book.queue, f, g);
    }
  }
}
