/** Results, seeds, dispatch and control commands keep the scan sound, within the request bound. */
module Stepping {
  import opened ScanTypes
  import opened Counting
  import opened Paths
  import opened Generation
  import opened Accounting
  import opened Invariants
  import opened Tallies
  import opened Ledgers
  import opened ScanModel
  import opened Pushing
  import opened Soundness

  /** Sound, with the cached scores up to `lag` lessons behind. */
  ghost predicate Lagging(env: Env, s: Scan, lag: nat)
  {
    Inv(s.book) && Ledgered(LimitsOf(env), s.book) && (Cacheable(env) ==> CacheOk(env, s, lag))
  }

  // ---- Learning -------------------------------------------------------------------------

  /** A queued candidate's replacement or addition with a current score leaves the cache as it was. */
  lemma CacheWith(env: Env, s: Scan, b: Book, c: Candidate, lag: nat)
    requires CacheOk(env, s, lag) && b.queue <= s.book.queue + multiset{Scored(env, s.scoring, c)}
    ensures CacheOk(env, s.(book := b), lag)
  {
    hide Reflects, Scored, IsNmapSeed;
    ScoredIsCurrent(env, s.scoring, c, lag);
    forall x | x in b.queue ensures Vouched(env, s, x, lag) {
      assert x in s.book.queue + multiset{Scored(env, s.scoring, c)};
    }
  }

  /** A new candidate, current in score, in a directory past calibration. */
  lemma AddLags(env: Env, s: Scan, d: string, c: Candidate, lag: nat)
    requires Lagging(env, s, lag) && d in s.book.dirs && s.book.dirs[d].phase != Calibrating
    requires c.parentDir == d && c.path !in s.book.dirs[d].known
    ensures var r := s.(book := Added(s.book, d, Scored(env, s.scoring, c)));
            Lagging(env, r, lag) && Within(env, s, r, 1, 0)
  {
    hide Inv, Ledgered, Cacheable, CacheOk, PushRoom, DirRoom;
    var c' := Scored(env, s.scoring, c);
    AddKeeps(s.book, d, c');
    AddLedger(LimitsOf(env), s.book, d, c');
    AddRoom(LimitsOf(env), s.book, d, c');
    if Cacheable(env) {
      CacheWith(env, s, Added(s.book, d, c'), c, lag);
    }
  }

  lemma GeneratedLags(env: Env, s: Scan, d: string, c: Candidate, lag: nat)
    requires Lagging(env, s, lag) && c.parentDir == d && d in s.book.dirs && s.book.dirs[d].phase != Calibrating
    ensures var r := EnqueueGenerated(env, s, d, c);
            && Lagging(env, r, lag) && Within(env, s, r, 1, 0)
            && d in r.book.dirs && r.book.dirs[d].phase != Calibrating
  {
    hide Lagging, Room, Places, Scored;
    if s.book.dirs[d].phase != Done && c.path !in s.book.dirs[d].known {
      AddLags(env, s, d, c.(depth := s.book.dirs[d].depth + 1), lag);
    }
  }

  lemma {:induction false} AllLag(env: Env, s: Scan, d: string, cs: seq<Candidate>, lag: nat)
    requires Lagging(env, s, lag) && d in s.book.dirs && s.book.dirs[d].phase != Calibrating
    requires forall c :: c in cs ==> c.parentDir == d
    ensures var r := EnqueueAll(env, s, d, cs);
            && Lagging(env, r, lag) && Within(env, s, r, |cs|, 0)
            && d in r.book.dirs && r.book.dirs[d].phase != Calibrating
  {
    hide Lagging, Room, Places, EnqueueGenerated;
    if cs != [] {
      var n := |cs| - 1;
      AllLag(env, s, d, cs[..n], lag);
      GeneratedLags(env, EnqueueAll(env, s, d, cs[..n]), d, cs[n], lag);
    }
  }

  lemma GenerateStays(c: Candidate)
    ensures forall g :: g in Generate(c) ==> g.parentDir == c.parentDir
  {
  }

  /** One more lesson puts every cached score one lesson further behind. */
  lemma LessonLags(env: Env, s: Scan, lesson: Lesson, lag: nat)
    requires Lagging(env, s, lag)
    ensures Lagging(env, s.(scoring := s.scoring.(lessons := s.scoring.lessons + [lesson])), lag + 1)
  {
    hide Inv, Ledgered, Cacheable, Score;
    var l := s.scoring.lessons;
    var t := s.scoring.(lessons := l + [lesson]);
    if Cacheable(env) {
      forall c | c in s.book.queue ensures Vouched(env, s.(scoring := t), c, lag + 1) {
        if Reflects(env, s.scoring, c, lag) {
          var k: nat :| k <= lag && k <= |l| && c.score == ScoreBefore(env, s.scoring, c, k);
          assert t.lessons[..|t.lessons| - (k + 1)] == l[..|l| - k];
          assert ScoreBefore(env, t, c, k + 1) == ScoreBefore(env, s.scoring, c, k);
        }
      }
    }
  }

  /** markScorerDirty accounts for the lesson: swept in at once, or one more unreflected hit. */
  lemma MarkDirtySound(env: Env, s: Scan, now: real)
    requires Lagging(env, s, s.hitsSince + 1)
    ensures Sound(env, MarkDirty(env, s, now)) && Within(env, s, MarkDirty(env, s, now), 0, 0)
  {
    hide Inv, Ledgered, Cacheable, CacheOk, Room, Places, RunDynamicReprio;
    var s1 := s.(dirty := true, hitsSince := s.hitsSince + 1);
    if Cacheable(env) { SameSignature(env, s, s.hitsSince + 1); }
    SweptClean(env, s1, now);
    AlikeCache(env, s, s1, s.hitsSince + 1);
  }

  lemma SameSignature(env: Env, s: Scan, lag: nat)
    requires CacheOk(env, s, lag)
    ensures s.lastSig == env.signature(s.scoring.profile)
  {
  }

  lemma AlikeCache(env: Env, s: Scan, t: Scan, lag: nat)
    requires t.book == s.book && t.scoring == s.scoring && t.lastSig == s.lastSig && t.swept == s.swept
    ensures CacheOk(env, t, lag) == CacheOk(env, s, lag)
    ensures Room(env, t) == Room(env, s) && Places(t) == Places(s)
  {
    hide Reflects, PushRoom, DirRoom;
  }

  /** Right after a sweep nothing is unreflected. */
  lemma SweptClean(env: Env, s: Scan, now: real)
    requires Inv(s.book) && Ledgered(LimitsOf(env), s.book) && s.dirty
    requires Cacheable(env) ==> s.lastSig == env.signature(s.scoring.profile)
    ensures Sound(env, RunDynamicReprio(env, s, now)) && Within(env, s, RunDynamicReprio(env, s, now), 0, 0)
    ensures forall c :: c in RunDynamicReprio(env, s, now).book.queue ==> c.score == Score(env, s.scoring, c)
  {
    hide Inv, Ledgered, Reflects, PushRoom, DirRoom, Score;
    var r := RunDynamicReprio(env, s, now);
    SweepSound(env, s);
    SweepCache(env, s);
    forall c | c in r.book.queue ensures Reflects(env, r.scoring, c, 0) {
      CurrentReflects(env, s.scoring, c, 0);
    }
  }

  lemma LearnSound(env: Env, s: Scan, c: Candidate, r: Response, now: real)
    requires Sound(env, s) && r.Answered? && c.parentDir in s.book.dirs && s.book.dirs[c.parentDir].phase != Calibrating
    ensures Sound(env, LearnFromHit(env, s, c, r, now)) && Within(env, s, LearnFromHit(env, s, c, r, now), 11, 0)
  {
    hide Inv, Ledgered, CacheOk, Cacheable, PushRoom, DirRoom, MarkDirty, EnqueueAll, Generate, Learnable;
    if Learnable(env, s, c.parentDir, r.confidence) {
      var lesson := Lesson(c.parentDir, c.path, r.protected, r.indexOf);
      var s1 := s.(scoring := s.scoring.(lessons := s.scoring.lessons + [lesson]));
      LessonLags(env, s, lesson, s.hitsSince);
      GenerateStays(c);
      AllLag(env, s1, c.parentDir, Generate(c), s.hitsSince + 1);
      MarkDirtySound(env, EnqueueAll(env, s1, c.parentDir, Generate(c)), now);
    }
  }

  // ---- Results --------------------------------------------------------------------------

  /** A step of the books the ledger does not notice. */
  lemma QuietSound(env: Env, s: Scan, b: Book)
    requires Sound(env, s) && Inv(b) && Quietly(s.book, b) && b.queue == s.book.queue
    ensures Sound(env, s.(book := b)) && Within(env, s, s.(book := b), 0, 0)
  {
    hide Inv, Ledgered, Cacheable, CacheOk, PushRoom, DirRoom, Quietly;
    QuietlyKeeps(LimitsOf(env), s.book, b);
    QuietlyRooms(LimitsOf(env), s.book, b);
    SteppedRest(env, s, b);
  }

  lemma TrapSound(env: Env, s: Scan, d: string, capped: bool, wildcard: bool)
    requires Sound(env, s) && d in s.book.dirs
    ensures var r := s.(book := Trapped(s.book, d, capped, wildcard)); Sound(env, r) && Within(env, s, r, 0, 0)
  {
    hide Inv, Rest, PushRoom, DirRoom, Quietly;
    TrapKeeps(s.book, d, capped, wildcard);
    TrapQuietly(s.book, d, capped, wildcard);
    QuietSound(env, s, Trapped(s.book, d, capped, wildcard));
  }

  lemma SettleSound(env: Env, s: Scan, c: Candidate)
    requires Sound(env, s) && c in s.book.flying
    ensures c.parentDir in s.book.dirs
    ensures var r := s.(book := Settled(s.book, c)); Sound(env, r) && Within(env, s, r, 0, 0)
  {
    hide Inv, Rest, PushRoom, DirRoom, Quietly;
    SettleKeeps(s.book, c);
    QueuedIsScanning(s.book, c);
    SettleQuietly(s.book, c);
    QuietSound(env, s, Settled(s.book, c));
  }

  /** A novel hit counted: eleven more pushes and one more directory are allowed for. */
  lemma NovelSound(env: Env, s: Scan, t: Scan)
    requires Sound(env, s) && t.book == s.book.(log := s.book.log.(novel := s.book.log.novel + 1))
    requires t.scoring == s.scoring && t.lastSig == s.lastSig && t.hitsSince == s.hitsSince && t.swept == s.swept
    ensures Sound(env, t) && Room(env, t) == Room(env, s) + 11 && Places(t) == Places(s) + 1
  {
    hide PushRoom, DirRoom, Inv, Rest;
    var log := s.book.log;
    CountersMoot(env, s, log.novel + 1, log.seeds, log.chained, log.staged);
    AlikeKeeps(env, s.(book := t.book), t);
    NovelRooms(LimitsOf(env), s.book);
  }

  lemma NovelRooms(l: Limits, b: Book)
    ensures var b' := b.(log := b.log.(novel := b.log.novel + 1));
            PushRoom(l, b') == PushRoom(l, b) + 11 && DirRoom(b') == DirRoom(b) + 1
  {
    ShapeRooms(l, b, b.(log := b.log.(novel := b.log.novel + 1)));
  }

  /** The books with other novelty and seed counters. */
  ghost function Recounted(b: Book, novel: nat, seeds: nat, chained: nat, staged: nat): Book
  {
    b.(log := b.log.(novel := novel, seeds := seeds, chained := chained, staged := staged))
  }

  lemma RecountedInv(b: Book, novel: nat, seeds: nat, chained: nat, staged: nat)
    requires Inv(b)
    ensures Inv(Recounted(b, novel, seeds, chained, staged))
  {
    hide DirOk;
    var b' := Recounted(b, novel, seeds, chained, staged);
    forall d | d in b'.dirs ensures DirOk(b', d) { Carry(b, b', d); }
  }

  lemma RecountedLedger(l: Limits, b: Book, novel: nat, seeds: nat, chained: nat, staged: nat)
    requires Ledgered(l, b)
    ensures Ledgered(l, Recounted(b, novel, seeds, chained, staged))
  {
    hide Tallied, KnownIsPushed, Keys;
    PushesCarry(b, Recounted(b, novel, seeds, chained, staged));
    TalliesCarry(b, Recounted(b, novel, seeds, chained, staged));
  }

  /** The seed and novelty counters are read by the bound alone. */
  lemma CountersMoot(env: Env, s: Scan, novel: nat, seeds: nat, chained: nat, staged: nat)
    requires Sound(env, s)
    ensures Sound(env, s.(book := Recounted(s.book, novel, seeds, chained, staged)))
  {
    hide Inv, Ledgered, Cacheable, Reflects;
    RecountedInv(s.book, novel, seeds, chained, staged);
    RecountedLedger(LimitsOf(env), s.book, novel, seeds, chained, staged);
  }

  /** A hit costs at most the eleven pushes and the one directory its novelty brings. */
  lemma HitSound(env: Env, s: Scan, c: Candidate, r: Response, now: real)
    requires Sound(env, s) && r.Answered? && c.parentDir in s.book.dirs && s.book.dirs[c.parentDir].phase != Calibrating
    ensures Sound(env, HandleHit(env, s, c, r, now)) && Within(env, s, HandleHit(env, s, c, r, now), 0, 0)
  {
    hide Sound, Room, Places, LearnFromHit, EnqueueChild, WithinLimits, Aliased;
    var url := Url(env, c.parentDir, c.path);
    if r.hash in s.seen {
      AlikeKeeps(env, s, HandleHit(env, s, c, r, now));
    } else {
      var s1 := s.(seen := s.seen[r.hash := [url]],
                   findings := s.findings + [Finding(url, r.hash, r.confidence, c.provenance, [])],
                   book := s.book.(log := s.book.log.(novel := s.book.log.novel + 1)));
      NovelSound(env, s, s1);
      LearnSound(env, s1, c, r, now);
      ChildSound(env, LearnFromHit(env, s1, c, r, now), c.parentDir + "/" + c.path, c.depth);
    }
  }

  lemma HitFlies(env: Env, s: Scan, c: Candidate, r: Response, now: real)
    requires r.Answered?
    ensures HandleHit(env, s, c, r, now).book.flying == s.book.flying
  {
    hide LearnFromHit, EnqueueChild, WithinLimits, Aliased;
  }

  lemma FlyingDir(env: Env, s: Scan, c: Candidate)
    requires Sound(env, s) && c in s.book.flying
    ensures c.parentDir in s.book.dirs && s.book.dirs[c.parentDir].phase != Calibrating
  {
    hide Rest;
    QueuedIsScanning(s.book, c);
  }

  lemma HarvestAlike(env: Env, s: Scan, url: string, body: Body)
    ensures Alike(s, HarvestResponse(env, s, url, body))
  {
  }

  lemma ConcludedSound(env: Env, s: Scan, c: Candidate, r: Response)
    requires Sound(env, s) && c in s.book.flying && r.Answered?
    ensures Sound(env, Concluded(env, s, c, r)) && Within(env, s, Concluded(env, s, c, r), 0, 0)
  {
    hide Sound, Room, Places, Settled, HarvestResponse, Url;
    FlyingDir(env, s, c);
    var s1 := s.(book := Trapped(s.book, c.parentDir, false, r.wildcard));
    TrapSound(env, s, c.parentDir, false, r.wildcard);
    var s2 := HarvestResponse(env, s1, Url(env, c.parentDir, c.path), r.body);
    HarvestAlike(env, s1, Url(env, c.parentDir, c.path), r.body);
    AlikeKeeps(env, s1, s2);
    SettleSound(env, s2, c);
  }

  lemma RealSound(env: Env, s: Scan, c: Candidate, r: Response, now: real)
    requires Sound(env, s) && c in s.book.flying
    ensures c.parentDir in s.book.dirs
    ensures Sound(env, HandleReal(env, s, c, r, now)) && Within(env, s, HandleReal(env, s, c, r, now), 0, 0)
  {
    hide Sound, Room, Places, HandleHit, Settled, Concluded;
    FlyingDir(env, s, c);
    if r.Failed? {
      SettleSound(env, s, c);
    } else {
      var s1 := s.(book := Trapped(s.book, c.parentDir, r.tarpit, false));
      TrapSound(env, s, c.parentDir, r.tarpit, false);
      FlyingDir(env, s1, c);
      HitSound(env, s1, c, r, now);
      HitFlies(env, s1, c, r, now);
      ConcludedSound(env, if r.hit then HandleHit(env, s1, c, r, now) else s1, c, r);
    }
  }

  // ---- Seeds ----------------------------------------------------------------------------

  lemma CounterRooms(l: Limits, b: Book, seeds: nat, chained: nat, staged: nat)
    ensures var b' := b.(log := b.log.(seeds := seeds, chained := chained, staged := staged));
            && PushRoom(l, b') == PushRoom(l, b) + staged - b.log.staged
            && DirRoom(b') == DirRoom(b) + chained - b.log.chained
  {
    ShapeRooms(l, b, b.(log := b.log.(seeds := seeds, chained := chained, staged := staged)));
  }

  /** Counting a seed, an ancestor and a staged candidate allows a directory and a push. */
  lemma CountedSound(env: Env, s: Scan, seeds: nat, chained: nat, staged: nat)
    requires Sound(env, s)
    ensures var r := s.(book := s.book.(log := s.book.log.(seeds := seeds, chained := chained, staged := staged)));
            && Sound(env, r) && Room(env, r) == Room(env, s) + staged - s.book.log.staged
            && Places(r) == Places(s) + chained - s.book.log.chained
  {
    hide Inv, Rest, PushRoom, DirRoom;
    CountersMoot(env, s, s.book.log.novel, seeds, chained, staged);
    CounterRooms(LimitsOf(env), s.book, seeds, chained, staged);
  }

  lemma HoldSound(env: Env, s: Scan, d: string, c: Candidate)
    requires Sound(env, s) && d in s.book.dirs && s.book.dirs[d].phase == Calibrating && c.parentDir == d
    ensures var r := s.(book := Held(s.book, d, c)); Sound(env, r) && Within(env, s, r, 1, 0)
  {
    hide Inv, Ledgered, Cacheable, CacheOk, PushRoom, DirRoom;
    HoldKeeps(s.book, d, c);
    HoldLedger(LimitsOf(env), s.book, d, c);
    HoldRoom(LimitsOf(env), s.book, d, c);
    SteppedRest(env, s, Held(s.book, d, c));
  }

  lemma SwapSound(env: Env, s: Scan, pick: Candidate, c: Candidate)
    requires Sound(env, s) && pick in s.book.queue && KeyOf(c) == KeyOf(pick)
    ensures var r := s.(book := Swapped(s.book, pick, Scored(env, s.scoring, c)));
            Sound(env, r) && Within(env, s, r, 0, 0)
  {
    hide Inv, Ledgered, Cacheable, CacheOk, PushRoom, DirRoom, Quietly, Score;
    var c' := Scored(env, s.scoring, c);
    SwapKeeps(s.book, pick, c');
    SwapQuietly(s.book, pick, c');
    QuietlyKeeps(LimitsOf(env), s.book, Swapped(s.book, pick, c'));
    QuietlyRooms(LimitsOf(env), s.book, Swapped(s.book, pick, c'));
    if Cacheable(env) {
      CacheWith(env, s, Swapped(s.book, pick, c'), c, s.hitsSince);
    }
  }

  lemma StageSound(env: Env, s: Scan, d: string, c: Candidate, pick: Candidate)
    requires Sound(env, s) && c.parentDir == d
    ensures Sound(env, StageDirCandidate(env, s, d, c, pick)) && Within(env, s, StageDirCandidate(env, s, d, c, pick), 0, 0)
  {
    hide Sound, Room, Places, Scored, Held, Swapped, Added, Merged;
    var log := s.book.log.(seeds := s.book.log.seeds, chained := s.book.log.chained, staged := s.book.log.staged + 1);
    assert log == s.book.log.(staged := s.book.log.staged + 1);
    var s0 := s.(book := s.book.(log := log));
    CountedSound(env, s, s.book.log.seeds, s.book.log.chained, s.book.log.staged + 1);
    if d !in s.book.dirs {
    } else if s.book.dirs[d].phase == Calibrating {
      HoldSound(env, s0, d, c);
    } else if c.path in s.book.dirs[d].known {
      if pick in s.book.queue && KeyOf(pick) == (d, c.path) {
        MergedKey(pick, c);
        SwapSound(env, s0, pick, Merged(pick, c));
      }
    } else {
      StageAdds(env, s0, d, c.(depth := s.book.dirs[d].depth + 1));
    }
  }

  lemma MergedKey(a: Candidate, b: Candidate)
    ensures KeyOf(Merged(a, b)) == KeyOf(a)
  {
  }

  lemma StageAdds(env: Env, s: Scan, d: string, c: Candidate)
    requires Sound(env, s) && d in s.book.dirs && s.book.dirs[d].phase != Calibrating
    requires c.parentDir == d && c.path !in s.book.dirs[d].known
    ensures var r := s.(book := Added(s.book, d, Scored(env, s.scoring, c)));
            Sound(env, r) && Within(env, s, r, 1, 0)
  {
    hide Inv, Ledgered, Cacheable, CacheOk, Room, Places, Scored;
    AddLags(env, s, d, c, s.hitsSince);
  }

  lemma ChainedSound(env: Env, s: Scan)
    requires Sound(env, s)
    ensures var r := s.(book := s.book.(log := s.book.log.(chained := s.book.log.chained + 1)));
            Sound(env, r) && Within(env, s, r, 0, -1)
  {
    hide Sound, Room, Places;
    var log := s.book.log;
    assert log.(chained := log.chained + 1) == log.(seeds := log.seeds, chained := log.chained + 1, staged := log.staged);
    CountedSound(env, s, log.seeds, log.chained + 1, log.staged);
  }

  lemma ChainStepSound(env: Env, s: Scan, segs: seq<string>, prio: real, provenance: string, pick: Candidate, i: nat)
    requires Sound(env, s) && i < |segs|
    ensures var r := ChainStep(env, s, segs, prio, provenance, pick, i);
            Sound(env, r) && Within(env, s, r, 0, 0)
  {
    hide Sound, Room, Places, StageDirCandidate, EnqueueChild, DirOf;
    ChainedSound(env, s);
    var s1 := s.(book := s.book.(log := s.book.log.(chained := s.book.log.chained + 1)));
    ChildSound(env, s1, DirOf(segs, i + 1), i + 1);
    var s2 := EnqueueChild(env, s1, DirOf(segs, i + 1), i + 1);
    StageSound(env, s2, DirOf(segs, i), AncestorCandidate(segs, i, prio, provenance), pick);
  }

  lemma {:induction false} ChainSound(env: Env, s: Scan, segs: seq<string>, prio: real, provenance: string,
                                      picks: seq<Candidate>, n: nat)
    requires Sound(env, s) && n < |segs| && |picks| == |segs|
    ensures var r := EnsureDirChain(env, s, segs, prio, provenance, picks, n);
            Sound(env, r) && Within(env, s, r, 0, 0)
    decreases n
  {
    hide Sound, Room, Places, ChainStep;
    if n > 0 {
      ChainSound(env, s, segs, prio, provenance, picks, n - 1);
      var s1 := EnsureDirChain(env, s, segs, prio, provenance, picks, n - 1);
      ChainStepSound(env, s1, segs, prio, provenance, picks[n - 1], n - 1);
    }
  }

  lemma SeedSound(env: Env, s: Scan, sd: Seed, picks: seq<Candidate>)
    requires Sound(env, s) && |picks| == |Segments(sd.path)|
    ensures Sound(env, EnqueueSeed(env, s, sd, picks)) && Within(env, s, EnqueueSeed(env, s, sd, picks), 0, 0)
  {
    hide Sound, Room, Places, StageDirCandidate, EnsureDirChain, Segments, DirOf, Admitted;
    if Admitted(env, sd) {
      var segs := Segments(sd.path);
      var log := s.book.log;
      CountedSound(env, s, log.seeds + 1, log.chained, log.staged);
      var s0 := s.(book := s.book.(log := log.(seeds := log.seeds + 1)));
      assert log.(seeds := log.seeds + 1) == log.(seeds := log.seeds + 1, chained := log.chained, staged := log.staged);
      ChainSound(env, s0, segs, sd.basePrio, sd.provenance, picks, |segs| - 1);
      var s1 := EnsureDirChain(env, s0, segs, sd.basePrio, sd.provenance, picks, |segs| - 1);
      StageSound(env, s1, DirOf(segs, |segs| - 1), LeafCandidate(segs, sd), picks[|segs| - 1]);
    }
  }

  // ---- Dispatch -------------------------------------------------------------------------

  lemma FewerCached(env: Env, s: Scan, b: Book, lag: nat)
    requires CacheOk(env, s, lag) && b.queue <= s.book.queue
    ensures CacheOk(env, s.(book := b), lag)
  {
    hide Reflects, IsNmapSeed;
    forall x | x in b.queue ensures Vouched(env, s, x, lag) {
      assert x in s.book.queue;
    }
  }

  lemma DropSound(env: Env, s: Scan, c: Candidate, over: bool)
    requires Sound(env, s) && c in s.book.queue
    ensures c.parentDir in s.book.dirs
    ensures var r := s.(book := Discarded(s.book, c, over)); Sound(env, r) && Within(env, s, r, 0, 0)
  {
    hide Inv, Ledgered, Cacheable, CacheOk, PushRoom, DirRoom;
    QueuedIsScanning(s.book, c);
    DiscardKeeps(s.book, c, over);
    DiscardLedger(LimitsOf(env), s.book, c, over);
    DiscardRoom(LimitsOf(env), s.book, c, over);
    if Cacheable(env) {
      FewerCached(env, s, Discarded(s.book, c, over), s.hitsSince);
    }
  }

  lemma DispatchSound(env: Env, s: Scan, c: Candidate)
    requires Sound(env, s) && c in s.book.queue && c.parentDir in s.book.dirs && !OverBudget(s, c)
    ensures Sound(env, Dispatch(s, c)) && Within(env, s, Dispatch(s, c), 0, 0)
  {
    hide Inv, Ledgered, Cacheable, CacheOk, PushRoom, DirRoom;
    SendKeeps(s.book, c);
    SendLedger(LimitsOf(env), s.book, c);
    SendRoom(LimitsOf(env), s.book, c);
    if Cacheable(env) {
      FewerCached(env, s, Sent(s.book, c), s.hitsSince);
    }
    AlikeKeeps(env, s.(book := Sent(s.book, c)), Dispatch(s, c));
  }

  // ---- Control --------------------------------------------------------------------------

  lemma SweepOutLast(s: Scan, removed: seq<Candidate>)
    requires removed != [] && forall i :: 0 <= i < |removed| ==> removed[i].parentDir in s.book.dirs
    ensures var n := |removed| - 1; var s1 := SweepOut(s, removed[..n]);
            removed[n].parentDir in s1.book.dirs && SweepOut(s, removed) == s1.(book := Discarded(s1.book, removed[n], false))
  {
    hide Discarded;
  }

  lemma {:induction false} SweepOutSound(env: Env, s: Scan, removed: seq<Candidate>)
    requires Sound(env, s) && multiset(removed) <= s.book.queue
    requires forall i :: 0 <= i < |removed| ==> removed[i].parentDir in s.book.dirs
    ensures Sound(env, SweepOut(s, removed)) && Within(env, s, SweepOut(s, removed), 0, 0)
  {
    hide Sound, Room, Places, Discarded, SweepOut;
    if removed == [] {
      NoneOut(s);
    } else {
      var n := |removed| - 1;
      SweepOutLast(s, removed);
      assert removed == removed[..n] + [removed[n]];
      SweepOutSound(env, s, removed[..n]);
      StillQueued(s, removed);
      DropSound(env, SweepOut(s, removed[..n]), removed[n], false);
    }
  }

  lemma NoneOut(s: Scan)
    ensures SweepOut(s, []) == s
  {
  }

  lemma StillQueued(s: Scan, removed: seq<Candidate>)
    requires removed != [] && multiset(removed) <= s.book.queue
    requires forall i :: 0 <= i < |removed| ==> removed[i].parentDir in s.book.dirs
    ensures removed[|removed| - 1] in SweepOut(s, removed[..|removed| - 1]).book.queue
  {
    hide SameGates, DiscardedAll;
    var n := |removed| - 1;
    assert removed == removed[..n] + [removed[n]];
    DiscardedRest(s.book, removed[..n], false);
  }

  lemma ExcludeIsSilent(env: Env, overrides: seq<Override>, x: Override, dir: string, path: string)
    requires x.kind == Exclude
    ensures Multiplier(env, overrides + [x], dir, path) == Multiplier(env, overrides, dir, path)
  {
    assert (overrides + [x])[..|overrides|] == overrides;
  }

  /** An exclusion changes no score. */
  lemma ExcludeSound(env: Env, s: Scan, pattern: string)
    requires Sound(env, s)
    ensures var r := WithOverride(s, pattern, Exclude, 1.0); Sound(env, r) && Within(env, s, r, 0, 0)
  {
    hide Inv, Ledgered, Cacheable, PushRoom, DirRoom, Multiplier;
    var r := WithOverride(s, pattern, Exclude, 1.0);
    if Cacheable(env) {
      forall c | c in s.book.queue ensures Vouched(env, r, c, s.hitsSince) {
        if Reflects(env, s.scoring, c, s.hitsSince) {
          var k: nat :| k <= s.hitsSince && k <= |s.scoring.lessons| && c.score == ScoreBefore(env, s.scoring, c, k);
          ExcludeIsSilent(env, s.scoring.overrides, Override(pattern, Exclude, 1.0), c.parentDir, c.path);
          assert ScoreBefore(env, r.scoring, c, k) == ScoreBefore(env, s.scoring, c, k);
        }
      }
    }
  }

  lemma OverrideSound(env: Env, s: Scan, pattern: string, kind: OverrideKind, factor: Factor)
    requires Sound(env, s)
    ensures var r := Sweep(env, WithOverride(s, pattern, kind, factor)); Sound(env, r) && Within(env, s, r, 0, 0)
  {
    hide Inv, Ledgered, Reflects, PushRoom, DirRoom;
    SweepSound(env, WithOverride(s, pattern, kind, factor));
  }
}
