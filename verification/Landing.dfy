/** Where an admitted seed ends up: which seeds are admitted, and as what each segment is queued. */
module Landing {
  import opened ScanTypes
  import opened Counting
  import opened Text
  import opened Provenance
  import opened Paths
  import opened Accounting
  import opened ScanModel
  import opened Soundness
  import opened Overriding
  import Losses

  /** A seed is applied exactly if its path is not empty, no deeper than its provenance allows, and in scope; any other changes
      nothing. */
  lemma SeedApplied(env: Env, s: Scan, sd: Seed, picks: seq<Candidate>)
    requires |picks| == |Segments(sd.path)|
    ensures var r, limit := EnqueueSeed(env, s, sd, picks), if IsHarvest(sd.provenance) then env.crawlDepth else env.maxDepth;
            if Trim(sd.path, '/') != "" && |Segments(sd.path)| <= limit && env.inScope(env.target + "/" + Trim(sd.path, '/'))
            then r.book.log.seeds == s.book.log.seeds + 1 else r == s
  {
    hide StageDirCandidate, EnsureDirChain, Segments, IsHarvest, Trim;
  }

  // ---- One stage ------------------------------------------------------------------------

  /** Queued under d at this path: with this prior, provenance and kind, and a score that is current. */
  ghost predicate Lands(env: Env, s: Scan, d: string, p: string, kind: Kind, prio: real, provenance: string, c: Candidate)
  {
    && c in s.book.queue && KeyOf(c) == (d, p) && c.kind == kind && c.basePrio == prio && c.provenance == provenance
    && c.score == Score(env, s.scoring, c)
  }

  /** The directory is past calibration and does not know the path. */
  predicate Open(s: Scan, d: string, p: string)
  {
    d in s.book.dirs && s.book.dirs[d].phase != Calibrating && p !in s.book.dirs[d].known
  }

  lemma StageLands(env: Env, s: Scan, d: string, c: Candidate, pick: Candidate) returns (x: Candidate)
    requires Open(s, d, c.path) && c.parentDir == d
    ensures var r := StageDirCandidate(env, s, d, c, pick);
            Lands(env, r, d, c.path, c.kind, c.basePrio, c.provenance, x) && r.scoring == s.scoring
  {
    hide Score, SameHistory, SameClock;
    x := Scored(env, s.scoring, c.(depth := s.book.dirs[d].depth + 1));
    ScoredIsCurrent(env, s.scoring, c.(depth := s.book.dirs[d].depth + 1), 0);
  }

  /** What is queued stays so, and with the same score. */
  lemma StillLands(env: Env, s: Scan, r: Scan, keys: set<Key>, d: string, p: string, kind: Kind, prio: real,
                   provenance: string, c: Candidate)
    requires Lands(env, s, d, p, kind, prio, provenance, c) && Spares(s, r, keys) && (d, p) !in keys && r.scoring == s.scoring
    ensures Lands(env, r, d, p, kind, prio, provenance, c)
  {
    hide Score;
    assert r.book.queue[c] >= s.book.queue[c] > 0;
  }

  // ---- The chain ------------------------------------------------------------------------

  lemma StageLeaves(env: Env, s: Scan, e: string, c: Candidate, pick: Candidate, d: string)
    requires d in s.book.dirs && d != e
    ensures var r := StageDirCandidate(env, s, e, c, pick); d in r.book.dirs && r.book.dirs[d] == s.book.dirs[d] && r.scoring == s.scoring
  {
    hide Score, Merged;
  }

  lemma ChildLeaves(env: Env, s: Scan, e: string, depth: int, d: string)
    requires d in s.book.dirs && e != ""
    ensures var r := EnqueueChild(env, s, e, depth); d in r.book.dirs && r.book.dirs[d] == s.book.dirs[d] && r.scoring == s.scoring
  {
    hide StartCalibration;
    if e !in s.book.dirs {
      Losses.StartElsewhere(env, s, e, depth);
      ChildScores(env, s, e, depth);
    }
  }

  lemma ChildScores(env: Env, s: Scan, e: string, depth: int)
    requires e != ""
    ensures StartCalibration(env, s, e, depth).scoring == s.scoring
  {
    hide Probes, CandidateSet, BudgetOf, SameHistory, SameClock;
  }

  lemma StepLeaves(env: Env, s: Scan, segs: seq<string>, prio: real, provenance: string, pick: Candidate, i: nat, d: string)
    requires i < |segs| && d in s.book.dirs && d != DirOf(segs, i)
    ensures var r := ChainStep(env, s, segs, prio, provenance, pick, i);
            d in r.book.dirs && r.book.dirs[d] == s.book.dirs[d] && r.scoring == s.scoring
  {
    hide StageDirCandidate, EnqueueChild, DirOf;
    var s1 := s.(book := s.book.(log := s.book.log.(chained := s.book.log.chained + 1)));
    Named(segs, i);
    ChildLeaves(env, s1, DirOf(segs, i + 1), i + 1, d);
    StageLeaves(env, EnqueueChild(env, s1, DirOf(segs, i + 1), i + 1), DirOf(segs, i),
                AncestorCandidate(segs, i, prio, provenance), pick, d);
  }

  lemma Named(segs: seq<string>, i: nat)
    requires i < |segs|
    ensures DirOf(segs, i + 1) != ""
  {
  }

  lemma Apart(segs: seq<string>, i: nat, k: nat)
    requires i < k <= |segs|
    ensures DirOf(segs, i) != DirOf(segs, k)
  {
    AncestorsDiffer(segs, i, k);
  }

  lemma {:induction false} ChainLeaves(env: Env, s: Scan, segs: seq<string>, prio: real, provenance: string,
                                       picks: seq<Candidate>, n: nat, k: nat)
    requires n <= k < |segs| == |picks| && DirOf(segs, k) in s.book.dirs
    ensures var d, r := DirOf(segs, k), EnsureDirChain(env, s, segs, prio, provenance, picks, n);
            d in r.book.dirs && r.book.dirs[d] == s.book.dirs[d] && r.scoring == s.scoring
    decreases n
  {
    hide ChainStep, DirOf;
    if n > 0 {
      ChainLeaves(env, s, segs, prio, provenance, picks, n - 1, k);
      Apart(segs, n - 1, k);
      StepLeaves(env, EnsureDirChain(env, s, segs, prio, provenance, picks, n - 1),
                 segs, prio, provenance, picks[n - 1], n - 1, DirOf(segs, k));
    }
  }

  lemma StepLands(env: Env, s: Scan, segs: seq<string>, prio: real, provenance: string, pick: Candidate, k: nat) returns (x: Candidate)
    requires k < |segs| && Open(s, DirOf(segs, k), segs[k])
    ensures var r := ChainStep(env, s, segs, prio, provenance, pick, k);
            Lands(env, r, DirOf(segs, k), segs[k], TypeDir, prio, provenance, x)
  {
    hide StageDirCandidate, EnqueueChild, DirOf, Lands;
    var s1 := s.(book := s.book.(log := s.book.log.(chained := s.book.log.chained + 1)));
    Named(segs, k);
    ChildLeaves(env, s1, DirOf(segs, k + 1), k + 1, DirOf(segs, k));
    x := StageLands(env, EnqueueChild(env, s1, DirOf(segs, k + 1), k + 1), DirOf(segs, k),
                    AncestorCandidate(segs, k, prio, provenance), pick);
  }

  lemma StepSpares(env: Env, s: Scan, segs: seq<string>, prio: real, provenance: string, pick: Candidate, i: nat)
    requires i < |segs|
    ensures var r := ChainStep(env, s, segs, prio, provenance, pick, i);
            Spares(s, r, {(DirOf(segs, i), segs[i])}) && r.scoring == s.scoring
  {
    hide StageDirCandidate, EnqueueChild, Spares, DirOf;
    var keys := {(DirOf(segs, i), segs[i])};
    var s1 := s.(book := s.book.(log := s.book.log.(chained := s.book.log.chained + 1)));
    var s2 := EnqueueChild(env, s1, DirOf(segs, i + 1), i + 1);
    Named(segs, i);
    SameSpares(s, s1, keys);
    ChildSpares(env, s1, DirOf(segs, i + 1), i + 1, keys);
    SparesThen(s, s1, s2, keys);
    StageSpares(env, s2, DirOf(segs, i), AncestorCandidate(segs, i, prio, provenance), pick, keys);
    SparesThen(s, s2, ChainStep(env, s, segs, prio, provenance, pick, i), keys);
    ChainScores(env, s, segs, prio, provenance, pick, i);
  }

  lemma ChainScores(env: Env, s: Scan, segs: seq<string>, prio: real, provenance: string, pick: Candidate, i: nat)
    requires i < |segs|
    ensures ChainStep(env, s, segs, prio, provenance, pick, i).scoring == s.scoring
  {
    hide StartCalibration, DirOf, LandedBook;
    Named(segs, i);
    ChildScores(env, s.(book := s.book.(log := s.book.log.(chained := s.book.log.chained + 1))), DirOf(segs, i + 1), i + 1);
  }

  /** An ancestor whose parent was past calibration and did not know its name is queued there as a directory, with the seed's
      prior and provenance. */
  lemma {:induction false} ChainLands(env: Env, s: Scan, segs: seq<string>, prio: real, provenance: string,
                                      picks: seq<Candidate>, n: nat, k: nat) returns (x: Candidate)
    requires k < n < |segs| == |picks| && Open(s, DirOf(segs, k), segs[k])
    ensures Lands(env, EnsureDirChain(env, s, segs, prio, provenance, picks, n), DirOf(segs, k), segs[k], TypeDir, prio, provenance, x)
    decreases n
  {
    hide ChainStep, DirOf, Lands, Spares;
    var t := EnsureDirChain(env, s, segs, prio, provenance, picks, n - 1);
    if k == n - 1 {
      ChainLeaves(env, s, segs, prio, provenance, picks, n - 1, k);
      x := StepLands(env, t, segs, prio, provenance, picks[n - 1], k);
    } else {
      x := ChainLands(env, s, segs, prio, provenance, picks, n - 1, k);
      Apart(segs, k, n - 1);
      StepSpares(env, t, segs, prio, provenance, picks[n - 1], n - 1);
      StillLands(env, t, ChainStep(env, t, segs, prio, provenance, picks[n - 1], n - 1), {(DirOf(segs, n - 1), segs[n - 1])},
                 DirOf(segs, k), segs[k], TypeDir, prio, provenance, x);
    }
  }

  /** A segment of an admitted seed whose directory is past calibration and does not know it is queued there, with the seed's own
      prior and provenance: an ancestor as a directory, the leaf as what the seed says it is. */
  lemma SegmentLands(env: Env, s: Scan, sd: Seed, picks: seq<Candidate>, k: nat) returns (x: Candidate)
    requires |picks| == |Segments(sd.path)| && Admitted(env, sd) && k < |Segments(sd.path)|
    requires Open(s, DirOf(Segments(sd.path), k), Segments(sd.path)[k])
    ensures var segs := Segments(sd.path);
            Lands(env, EnqueueSeed(env, s, sd, picks), DirOf(segs, k), segs[k],
                  if k < |segs| - 1 || sd.isDirHint then TypeDir else TypeFile, sd.basePrio, sd.provenance, x)
  {
    hide StageDirCandidate, EnsureDirChain, Segments, DirOf, Admitted, Lands, Spares;
    var segs := Segments(sd.path);
    var n := |segs| - 1;
    var s0 := s.(book := s.book.(log := s.book.log.(seeds := s.book.log.seeds + 1)));
    var s1 := EnsureDirChain(env, s0, segs, sd.basePrio, sd.provenance, picks, n);
    if k == n {
      ChainLeaves(env, s0, segs, sd.basePrio, sd.provenance, picks, n, k);
      x := StageLands(env, s1, DirOf(segs, n), LeafCandidate(segs, sd), picks[n]);
    } else {
      x := ChainLands(env, s0, segs, sd.basePrio, sd.provenance, picks, n, k);
      Apart(segs, k, n);
      var r := StageDirCandidate(env, s1, DirOf(segs, n), LeafCandidate(segs, sd), picks[n]);
      StageSpares(env, s1, DirOf(segs, n), LeafCandidate(segs, sd), picks[n], {(DirOf(segs, n), segs[n])});
      StageScores(env, s1, DirOf(segs, n), LeafCandidate(segs, sd), picks[n]);
      StillLands(env, s1, r, {(DirOf(segs, n), segs[n])}, DirOf(segs, k), segs[k], TypeDir, sd.basePrio, sd.provenance, x);
    }
  }

  lemma StageScores(env: Env, s: Scan, d: string, c: Candidate, pick: Candidate)
    ensures StageDirCandidate(env, s, d, c, pick).scoring == s.scoring
  {
    hide LandedBook, SameHistory, SameClock;
  }
}
