/** The coordinator's directory records, frontier and dispatch loop as one object that changes its own
    fields in place. Every method is proved against the books' operations. */
module Engine {
  import opened ScanTypes
  import opened Counting
  import opened Provenance
  import opened Paths
  import opened Generation
  import opened FrontierHeap
  import opened Accounting
  import opened Invariants
  import opened ScanModel
  import opened Pushing
  import opened Soundness
  import opened History
  import opened Seeds
  import opened Runs

  const ORDER_JITTER_BAND: real := 0.05

  datatype WorkItem = Probe(dir: string, path: string) | Fetch(url: string) | Real(cand: Candidate)

  class Coordinator {
    const env: Env
    const frontier: Frontier
    const rng: Rng
    const epsilon: bool
    const orderJitter: bool
    var dirs: map<string, DirRec>
    var calibratingOrder: seq<string>
    var harvestFetchQueue: seq<string>
    var scoring: Scoring
    var scorerDirty: bool
    var hitsSinceReprio: nat
    var lastDynReprio: real
    var dynReprioCount: nat
    var lastReprioSig: string
    var baselines: map<string, bool>
    var extSet: seq<string>
    var rootRefined: bool
    var seenContent: map<int, seq<string>>
    var findings: seq<Finding>
    var crawlVisited: set<string>
    var pendingHarvest: nat
    var lastDispatchDir: string
    var dispatchStreak: nat
    ghost var flying: multiset<Candidate>
    ghost var probes: multiset<string>
    ghost var log: Ledger
    ghost var harvestFlying: multiset<string>
    ghost var swept: bool

    constructor (env: Env, profile: nat, exts: seq<string>, producers: nat, last: real, epsilon: bool, orderJitter: bool)
      ensures frontier.Valid() && fresh(frontier) && this.env == env
      ensures Abs() == Blank(env, profile, exts, producers, last)
    {
      this.env, this.epsilon, this.orderJitter := env, epsilon, orderJitter;
      dirs, calibratingOrder, scoring := map[], [], Scoring(profile, [], false, []);
      harvestFetchQueue, lastDispatchDir, dispatchStreak := [], "", 0;
      scorerDirty, hitsSinceReprio, lastDynReprio, dynReprioCount := false, 0, last, 0;
      seenContent, findings, crawlVisited, pendingHarvest := map[], [], {}, producers;
      lastReprioSig, baselines, extSet, rootRefined := env.signature(profile), map[], exts, false;
      harvestFlying, swept := multiset{}, true;
      flying, probes := multiset{}, multiset{};
      log := Ledger(multiset{}, multiset{}, multiset{}, map[], 0, 0, 0, 0, map[]);
      frontier := new Frontier();
      rng := new Rng();
    }

    /** A coordinator put together from what was saved: nothing queued to probe or fetch, nothing in flight. */
    constructor FromParts(env: Env, frontier: Frontier, dirs: map<string, DirRec>, scoring: Scoring, seen: map<int, seq<string>>,
                          findings: seq<Finding>, baselines: map<string, bool>, exts: seq<string>, refined: bool, visited: set<string>,
                          last: real, ghost log: Ledger, epsilon: bool, orderJitter: bool)
      ensures this.env == env && this.frontier == frontier
      ensures Abs() == Scan(Book(dirs, [], frontier.Contents(), multiset{}, multiset{}, log), scoring, "", false, 0, last, 0,
                            seen, findings, baselines, exts, refined, [], multiset{}, visited, 0, "", 0, false)
    {
      hide Frontier.Contents, Frontier.Valid;
      this.env, this.frontier, this.epsilon, this.orderJitter := env, frontier, epsilon, orderJitter;
      this.dirs, calibratingOrder, this.scoring := dirs, [], scoring;
      harvestFetchQueue, lastDispatchDir, dispatchStreak := [], "", 0;
      scorerDirty, hitsSinceReprio, lastDynReprio, dynReprioCount := false, 0, last, 0;
      seenContent, this.findings, crawlVisited, pendingHarvest := seen, findings, visited, 0;
      lastReprioSig, this.baselines, extSet, rootRefined := "", baselines, exts, refined;
      harvestFlying, flying, probes, swept := multiset{}, multiset{}, multiset{}, false;
      this.log := log;
      rng := new Rng();
    }

    ghost function Books(): Book
      reads this, frontier
    {
      Book(dirs, calibratingOrder, frontier.Contents(), flying, probes, log)
    }

    /** The scan these fields describe. */
    ghost function Abs(): Scan
      reads this, frontier
    {
      Scan(Books(), scoring, lastReprioSig, scorerDirty, hitsSinceReprio, lastDynReprio, dynReprioCount,
           seenContent, findings, baselines, extSet, rootRefined, harvestFetchQueue, harvestFlying, crawlVisited,
           pendingHarvest, lastDispatchDir, dispatchStreak, swept)
    }

    // ---- Scores and overrides -----------------------------------------------------------

    /** Frontier.Reprioritize(applyScore). */
    method ReprioritizeAll()
      modifies this`swept, frontier
      ensures frontier.Valid() && Abs() == Sweep(env, old(Abs()))
    {
      hide Frontier.Valid, Frontier.Contents, SameHistory, SameClock, Score, MapAll;
      frontier.Reprioritize(Scorer(env, scoring));
      swept := true;
    }

    /** reprioritizeIfChanged: a sweep, if the profile's signature is a new one. */
    method ReprioritizeIfChanged()
      requires frontier.Valid()
      modifies this`lastReprioSig, this`swept, frontier
      ensures frontier.Valid() && Abs() == ScanModel.ReprioritizeIfChanged(env, old(Abs()))
    {
      hide Frontier.Valid, Frontier.Contents, SameHistory, SameClock, Sweep;
      if env.signature(scoring.profile) == lastReprioSig { return; }
      lastReprioSig := env.signature(scoring.profile);
      ReprioritizeAll();
    }

    method AddOverride(pattern: string, kind: OverrideKind, factor: Factor)
      modifies this`scoring
      ensures Abs() == WithOverride(old(Abs()), pattern, kind, factor)
    {
      hide Frontier.Valid, Frontier.Contents;
      scoring := scoring.(overrides := scoring.overrides + [Override(pattern, kind, factor)]);
    }

    method ApplyOverride(pattern: string, factor: real, kind: OverrideKind)
      modifies this`scoring, this`swept, frontier
      ensures frontier.Valid() && Abs() == ScanModel.ApplyOverride(env, old(Abs()), pattern, kind, factor)
    {
      hide Frontier.Valid, Frontier.Contents, Abs, WithOverride, Sweep;
      AddOverride(pattern, kind, FactorOf(factor));
      ReprioritizeAll();
    }

    /** applyPin: a large boost, and for a literal path a seed as well. */
    method ApplyPin(pattern: string) returns (ghost picks: seq<Candidate>)
      requires frontier.Valid()
      modifies this`scoring, this`dirs, this`calibratingOrder, this`baselines, this`rootRefined, this`lastReprioSig, this`extSet,
               this`crawlVisited, this`harvestFetchQueue, this`log, this`swept, frontier
      ensures frontier.Valid() && |picks| == |Segments(pattern)| && Abs() == ScanModel.ApplyPin(env, old(Abs()), pattern, picks)
    {
      hide Frontier.Valid, Frontier.Contents, Abs, WithOverride, Sweep, Segments, ScanModel.EnqueueSeed, IsGlob;
      AddOverride(pattern, Boost, PIN_SCORE);
      ReprioritizeAll();
      if IsGlob(pattern) {
        picks := NoPicks(Segments(pattern));
      } else {
        picks := EnqueueSeed(Seed(pattern, false, 1.0, "user:pin"));
      }
    }

    method IsExcluded(dir: string, path: string) returns (found: bool)
      ensures found == Excluded(env, scoring.overrides, dir, path)
    {
      var i := 0;
      while i < |scoring.overrides|
        invariant i <= |scoring.overrides|
        invariant forall j :: 0 <= j < i ==>
          scoring.overrides[j].kind != Exclude || !env.matches(scoring.overrides[j].pattern, dir, path)
      {
        var ov := scoring.overrides[i];
        if ov.kind == Exclude && env.matches(ov.pattern, dir, path) { return true; }
        i := i + 1;
      }
      found := false;
    }

    method OverrideMultiplier(dir: string, path: string) returns (m: Factor)
      ensures m == Multiplier(env, scoring.overrides, dir, path)
    {
      m := 1.0;
      var i := 0;
      while i < |scoring.overrides|
        invariant i <= |scoring.overrides| && m == Multiplier(env, scoring.overrides[..i], dir, path)
      {
        var ov := scoring.overrides[i];
        assert scoring.overrides[..i + 1][..i] == scoring.overrides[..i];
        if ov.kind != Exclude && env.matches(ov.pattern, dir, path) {
          if ov.kind == Boost { m := Product(m, ov.factor); } else { m := Quotient(m, ov.factor); }
        }
        i := i + 1;
      }
      assert scoring.overrides[..i] == scoring.overrides;
    }

    // ---- Accounting ---------------------------------------------------------------------

    /** candidatesAccountedFor++, then maybeFinishDir. */
    method AccountFor(dir: string)
      requires dir in dirs
      modifies this`dirs
      ensures dirs == old(dirs)[dir := Accounted(old(dirs)[dir])]
    {
      var ds := dirs[dir];
      ds := ds.(accounted := ds.accounted + 1);
      if ds.accounted >= ds.total { ds := ds.(phase := Done); }
      dirs := dirs[dir := ds];
    }

    /** A request's result is in. */
    method Settle(c: Candidate)
      requires c.parentDir in dirs
      modifies this`dirs, this`flying
      ensures Books() == Settled(old(Books()), c)
    {
      hide Accounted, Frontier.Contents;
      AccountFor(c.parentDir);
      flying := flying - multiset{c};
    }

    /** Accounts for candidates swept out of the frontier. */
    method AccountAll(ghost b: Book, removed: seq<Candidate>)
      requires dirs == b.dirs && log == b.log && forall i :: 0 <= i < |removed| ==> removed[i].parentDir in b.dirs
      modifies this`dirs, this`log
      ensures AccountsFor(b, removed, dirs, log)
    {
      hide Accounted, AccountsFor;
      var i := 0;
      NothingSwept(b);
      assert removed[..0] == [];
      while i < |removed|
        invariant i <= |removed| && AccountsFor(b, removed[..i], dirs, log)
      {
        assert removed[..i + 1][..i] == removed[..i];
        OneMoreSwept(b, removed[..i + 1], dirs, log);
        AccountFor(removed[i].parentDir);
        log := log.(dropped := log.dropped + multiset{KeyOf(removed[i])});
        i := i + 1;
      }
      assert removed[..i] == removed;
    }

    /** Takes every queued match out of the frontier. */
    method TakeOut(pattern: string) returns (removed: seq<Candidate>)
      requires frontier.Valid() && forall c :: c in frontier.Contents() ==> c.parentDir in dirs
      modifies frontier
      ensures frontier.Valid() && old(frontier.Contents()) == frontier.Contents() + multiset(removed)
      ensures forall c :: c in removed ==> env.matches(pattern, c.parentDir, c.path) && c.parentDir in dirs
      ensures forall c :: c in frontier.Contents() ==> !env.matches(pattern, c.parentDir, c.path)
    {
      hide Frontier.Valid, Frontier.Contents;
      removed := frontier.RemoveMatching((c: Candidate) => env.matches(pattern, c.parentDir, c.path));
      forall c | c in removed ensures c.parentDir in dirs { assert c in old(frontier.Contents()); }
    }

    /** Sweeps every queued match out, and accounts for each. */
    method SweepMatches(pattern: string) returns (removed: seq<Candidate>)
      requires frontier.Valid() && forall c :: c in frontier.Contents() ==> c.parentDir in dirs
      modifies this`dirs, this`log, frontier
      ensures frontier.Valid() && old(frontier.Contents()) == frontier.Contents() + multiset(removed)
      ensures forall c :: c in removed ==> env.matches(pattern, c.parentDir, c.path) && c.parentDir in old(dirs)
      ensures forall c :: c in frontier.Contents() ==> !env.matches(pattern, c.parentDir, c.path)
      ensures Books() == DiscardedAll(old(Books()), removed, false)
    {
      hide Frontier.Valid, Frontier.Contents, DiscardedAll, AccountsFor;
      ghost var b := Books();
      removed := TakeOut(pattern);
      AccountAll(b, removed);
      AccountedBook(b, removed, dirs, log);
    }

    /** The same, of the scan: exactly the queued matches are swept out. */
    method SweepScan(pattern: string) returns (removed: seq<Candidate>)
      requires frontier.Valid() && Refs(Abs().book)
      modifies this`dirs, this`log, frontier
      ensures frontier.Valid() && Swept(env, old(Abs()), pattern, removed)
      ensures forall i :: 0 <= i < |removed| ==> removed[i].parentDir in old(Abs()).book.dirs
      ensures Abs() == SweepOut(old(Abs()), removed)
    {
      hide Frontier.Valid, Frontier.Contents, DiscardedAll;
      removed := SweepMatches(pattern);
      SweptOut(env, old(Abs()), pattern, removed, frontier.Contents());
    }

    /** applyExclude: no candidate that matches stays queued, or is sent later. */
    method ApplyExclude(pattern: string) returns (removed: seq<Candidate>)
      requires frontier.Valid() && Refs(Abs().book)
      modifies this`scoring, this`dirs, this`log, frontier
      ensures frontier.Valid() && Swept(env, old(Abs()), pattern, removed)
      ensures forall i :: 0 <= i < |removed| ==> removed[i].parentDir in old(Abs()).book.dirs
      ensures Abs() == Bar(old(Abs()), pattern, removed)
    {
      hide Frontier.Valid, Frontier.Contents, Abs, SweepOut, Refs;
      AddOverride(pattern, Exclude, 1.0);
      removed := SweepScan(pattern);
    }

    // ---- Generated candidates and seeds -------------------------------------------------

    method EnqueueGenerated(dir: string, c: Candidate) returns (added: bool)
      requires frontier.Valid()
      modifies this`dirs, this`log, frontier
      ensures frontier.Valid() && Books() == Generated(env, scoring, old(Books()), dir, c)
      ensures added <==> dir in old(dirs) && old(dirs)[dir].phase != Done && c.path !in old(dirs)[dir].known
    {
      hide Frontier.Valid, Frontier.Contents, SameHistory, SameClock, Score;
      added := dir in dirs && dirs[dir].phase != Done && c.path !in dirs[dir].known;
      if !added { return; }
      var ds := dirs[dir];
      dirs := dirs[dir := ds.(known := ds.known + {c.path}, total := ds.total + 1, budget := ds.budget + 1)];
      var g := Scored(env, scoring, c.(depth := ds.depth + 1));
      frontier.Push(g);
      log := log.(pushed := log.pushed + multiset{KeyOf(g)});
    }

    /** learnFromHit's generation: every candidate the hit suggests, in order. */
    method EnqueueAllGenerated(c: Candidate)
      requires frontier.Valid()
      modifies this`dirs, this`log, frontier
      ensures frontier.Valid() && Abs() == EnqueueAll(env, old(Abs()), c.parentDir, Generate(c))
    {
      hide SameHistory, SameClock, EnqueueAll, Frontier.Valid, Frontier.Contents, ScanModel.Generated, Generate;
      var gs := GenerateFor(c);
      var i := 0;
      assert gs[..0] == [];
      while i < |gs|
        invariant i <= |gs| && frontier.Valid()
        invariant Books() == GeneratedAll(env, scoring, old(Books()), c.parentDir, gs[..i])
      {
        assert gs[..i + 1][..i] == gs[..i];
        var added := EnqueueGenerated(c.parentDir, gs[i]);
        i := i + 1;
      }
      assert gs[..i] == gs;
      GeneratedIsEnqueued(env, old(Abs()), c.parentDir, gs);
    }

    /** runDynamicReprio: a sweep, if anything is waiting for one. */
    method RunDynamicReprio(now: real)
      requires frontier.Valid()
      modifies this`scorerDirty, this`hitsSinceReprio, this`lastDynReprio, this`dynReprioCount, this`swept, frontier
      ensures frontier.Valid() && Abs() == ScanModel.RunDynamicReprio(env, old(Abs()), now)
    {
      hide Frontier.Valid, Frontier.Contents, SameHistory, Sweep, Abs;
      var waiting := Waiting();
      if waiting {
        ReprioritizeAll();
        ResetThrottle(now);
      }
    }

    method Waiting() returns (b: bool)
      ensures b == Abs().dirty
    {
      b := scorerDirty;
    }

    method ResetThrottle(now: real)
      modifies this`scorerDirty, this`hitsSinceReprio, this`lastDynReprio, this`dynReprioCount
      ensures Abs() == old(Abs()).(dirty := false, hitsSince := 0, lastSweep := now, sweeps := old(Abs()).sweeps + 1)
    {
      hide Frontier.Valid, Frontier.Contents;
      assert old(Abs()).sweeps == dynReprioCount;
      scorerDirty, hitsSinceReprio, lastDynReprio, dynReprioCount := false, 0, now, dynReprioCount + 1;
      assert Books() == old(Books());
    }

    /** markScorerDirty: sweeps at once if enough hits or enough time have gone by. */
    method MarkScorerDirty(now: real)
      requires frontier.Valid()
      modifies this`scorerDirty, this`hitsSinceReprio, this`lastDynReprio, this`dynReprioCount, this`swept, frontier
      ensures frontier.Valid() && Abs() == MarkDirty(env, old(Abs()), now)
    {
      hide Frontier.Valid, Frontier.Contents, SameHistory, SameClock, ScanModel.RunDynamicReprio, Abs;
      var due := NoteHit(now);
      if due {
        RunDynamicReprio(now);
      }
    }

    method NoteHit(now: real) returns (due: bool)
      modifies this`scorerDirty, this`hitsSinceReprio
      ensures var s := old(Abs());
              && Abs() == s.(dirty := true, hitsSince := s.hitsSince + 1)
              && due == (s.hitsSince + 1 >= env.reprioHits || now - s.lastSweep >= env.reprioInterval)
    {
      hide Frontier.Valid, Frontier.Contents;
      scorerDirty, hitsSinceReprio := true, hitsSinceReprio + 1;
      due := hitsSinceReprio >= env.reprioHits || now - lastDynReprio >= env.reprioInterval;
      assert Books() == old(Books());
    }

    /** learnableHit: the poisoning gate. */
    predicate LearnableHit(dir: string, confidence: real)
      reads this
    {
      confidence >= env.learnMinConf && (dir in dirs ==> !dirs[dir].wildcard) && (dir in baselines ==> !baselines[dir])
    }

    method AddLesson(c: Candidate, r: Response)
      requires r.Answered?
      modifies this`scoring
      ensures var s := old(Abs());
              Abs() == s.(scoring := s.scoring.(lessons := s.scoring.lessons + [Lesson(c.parentDir, c.path, r.protected, r.indexOf)]))
    {
      hide Frontier.Valid, Frontier.Contents;
      scoring := scoring.(lessons := scoring.lessons + [Lesson(c.parentDir, c.path, r.protected, r.indexOf)]);
    }

    /** learnFromHit: past the gate, the lesson is learned, its candidates are queued, and the frontier is
        marked, or swept. */
    method LearnFromHit(c: Candidate, r: Response, now: real)
      requires frontier.Valid() && r.Answered?
      modifies this`scoring, this`dirs, this`log, this`scorerDirty, this`hitsSinceReprio, this`lastDynReprio, this`dynReprioCount, this`swept, frontier
      ensures frontier.Valid() && Abs() == ScanModel.LearnFromHit(env, old(Abs()), c, r, now)
    {
      hide Frontier.Valid, Frontier.Contents, SameHistory, SameClock, Generate, EnqueueAll, MarkDirty, Abs, LearnableHit, Learnable;
      LearnableAs(c.parentDir, r.confidence);
      if LearnableHit(c.parentDir, r.confidence) {
        AddLesson(c, r);
        EnqueueAllGenerated(c);
        MarkScorerDirty(now);
      }
    }

    lemma LearnableAs(dir: string, confidence: real)
      ensures LearnableHit(dir, confidence) == Learnable(env, Abs(), dir, confidence)
    {
    }

    /** handleHit's novelty gate: seen content becomes an alias of its first finding, new content a finding. */
    method RecordContent(url: string, hash: int, confidence: real, provenance: string) returns (novel: bool)
      modifies this`seenContent, this`findings, this`log
      ensures novel <==> hash !in old(Abs()).seen
      ensures Abs() == Recording(old(Abs()), url, hash, confidence, provenance)
    {
      hide Frontier.Valid, Frontier.Contents, Aliased;
      novel := hash !in seenContent;
      if novel {
        NewFinding(url, hash, confidence, provenance);
      } else {
        NewAlias(url, hash);
      }
    }

    method NewFinding(url: string, hash: int, confidence: real, provenance: string)
      modifies this`seenContent, this`findings, this`log
      ensures var s := old(Abs());
              Abs() == s.(seen := s.seen[hash := [url]], findings := s.findings + [Finding(url, hash, confidence, provenance, [])],
                          book := s.book.(log := s.book.log.(novel := s.book.log.novel + 1)))
    {
      hide Frontier.Valid, Frontier.Contents, Abs;
      NoteNovel();
      AddFinding(url, hash, confidence, provenance);
    }

    method NoteNovel()
      modifies this`log
      ensures var s := old(Abs()); Abs() == s.(book := s.book.(log := s.book.log.(novel := s.book.log.novel + 1)))
    {
      hide Frontier.Valid, Frontier.Contents;
      log := log.(novel := log.novel + 1);
    }

    method AddFinding(url: string, hash: int, confidence: real, provenance: string)
      modifies this`seenContent, this`findings
      ensures var s := old(Abs());
              Abs() == s.(seen := s.seen[hash := [url]], findings := s.findings + [Finding(url, hash, confidence, provenance, [])])
    {
      hide Frontier.Valid, Frontier.Contents;
      seenContent, findings := seenContent[hash := [url]], findings + [Finding(url, hash, confidence, provenance, [])];
      assert Books() == old(Books());
    }

    method NewAlias(url: string, hash: int)
      requires hash in Abs().seen
      modifies this`seenContent, this`findings
      ensures var s := old(Abs());
              Abs() == s.(seen := s.seen[hash := s.seen[hash] + [url]], findings := Aliased(s.findings, hash, url))
    {
      hide Frontier.Valid, Frontier.Contents, Aliased;
      seenContent := seenContent[hash := seenContent[hash] + [url]];
      AliasFirst(hash, url);
      assert Books() == old(Books());
    }

    /** handleHit: content seen before is an alias; new content is a finding, is learned from, and may be
        a directory to go into. */
    method HandleHit(c: Candidate, r: Response, now: real)
      requires frontier.Valid() && r.Answered?
      modifies this`seenContent, this`findings, this`scorerDirty, this`hitsSinceReprio, this`lastDynReprio, this`dynReprioCount
      modifies this`scoring, this`dirs, this`calibratingOrder, this`baselines, this`rootRefined, this`lastReprioSig, this`extSet,
               this`crawlVisited, this`harvestFetchQueue, this`log, this`swept, frontier
      ensures frontier.Valid() && Abs() == ScanModel.HandleHit(env, old(Abs()), c, r, now)
    {
      hide Frontier.Valid, Frontier.Contents, SameHistory, SameClock, Abs, Aliased, Url, ScanModel.LearnFromHit, ScanModel.EnqueueChild,
           ScanModel.WithinLimits;
      var novel := RecordContent(Url(env, c.parentDir, c.path), r.hash, r.confidence, c.provenance);
      if !novel { return; }
      LearnFromHit(c, r, now);
      var inLimits := WithinLimits(c, r.late);
      if c.kind == TypeDir && r.dirLike && r.confidence >= RECURSE_MIN_CONF && inLimits {
        EnqueueChild(c.parentDir + "/" + c.path, c.depth);
      }
    }

    /** withinLimits: depth, scope and the branch's traps. */
    method WithinLimits(c: Candidate, late: bool) returns (ok: bool)
      ensures ok == ScanModel.WithinLimits(env, Abs(), c, late)
    {
      hide Url;
      if c.depth + 1 > env.maxDepth { return false; }
      if !env.inScope(Url(env, c.parentDir, c.path)) { return false; }
      if c.parentDir in dirs && (dirs[c.parentDir].capped || dirs[c.parentDir].wildcard || late) { return false; }
      ok := true;
    }

    /** checkTarpit and checkWildcardHitRate: what a window concludes is never taken back. */
    method Trap(dir: string, capped: bool, wildcard: bool)
      requires dir in Abs().book.dirs
      modifies this`dirs
      ensures Abs() == old(Abs()).(book := Trapped(old(Abs()).book, dir, capped, wildcard))
    {
      hide Frontier.Valid, Frontier.Contents;
      var ds := dirs[dir];
      if capped { ds := ds.(capped := true); }
      if wildcard { ds := ds.(wildcard := true); }
      dirs := dirs[dir := ds];
    }

    method SettleScan(c: Candidate)
      requires c.parentDir in Abs().book.dirs
      modifies this`dirs, this`flying
      ensures Abs() == old(Abs()).(book := Settled(old(Abs()).book, c))
    {
      hide Frontier.Valid, Frontier.Contents, Settled;
      Settle(c);
    }

    /** harvestResponse: a producer for each page not mined yet. */
    method HarvestResponse(url: string, body: Body)
      modifies this`crawlVisited, this`pendingHarvest
      ensures Abs() == ScanModel.HarvestResponse(env, old(Abs()), url, body)
    {
      hide Frontier.Valid, Frontier.Contents, SameHistory, SameClock, Abs;
      var wanted := (body == Html && (env.crawl || env.jsHarvest)) || (body == Script && env.jsHarvest);
      if wanted {
        var seen := Visited(url);
        if !seen {
          Visit(url);
          SpawnHarvest();
        }
      }
    }

    method Visited(url: string) returns (seen: bool)
      ensures seen == (url in Abs().visited)
    {
      seen := url in crawlVisited;
    }

    method Visit(url: string)
      modifies this`crawlVisited
      ensures Abs() == old(Abs()).(visited := old(Abs()).visited + {url})
    {
      hide Frontier.Valid, Frontier.Contents;
      crawlVisited := crawlVisited + {url};
    }

    /** handleReal: a failed request is only accounted for; an answer is first checked for traps, learned
        from if it is a hit, and harvested. */
    method HandleReal(c: Candidate, r: Response, now: real)
      requires frontier.Valid() && c.parentDir in Abs().book.dirs
      modifies this`seenContent, this`findings, this`scorerDirty, this`hitsSinceReprio, this`lastDynReprio, this`dynReprioCount,
               this`flying, this`pendingHarvest
      modifies this`scoring, this`dirs, this`calibratingOrder, this`baselines, this`rootRefined, this`lastReprioSig, this`extSet,
               this`crawlVisited, this`harvestFetchQueue, this`log, this`swept, frontier
      ensures frontier.Valid() && Abs() == ScanModel.HandleReal(env, old(Abs()), c, r, now)
    {
      hide Frontier.Valid, Frontier.Contents, SameHistory, SameClock, Abs, Trapped, Settled, ScanModel.HandleHit, Concluded;
      if r.Failed? {
        SettleScan(c);
        return;
      }
      TrappedDirs(Abs().book, c.parentDir, r.tarpit, false);
      Trap(c.parentDir, r.tarpit, false);
      if r.hit {
        HitDirs(env, Abs(), c, r, now);
        HandleHit(c, r, now);
      }
      Conclude(c, r);
    }

    method Conclude(c: Candidate, r: Response)
      requires r.Answered? && c.parentDir in Abs().book.dirs
      modifies this`dirs, this`flying, this`crawlVisited, this`pendingHarvest
      ensures Abs() == Concluded(env, old(Abs()), c, r)
    {
      hide Frontier.Valid, Frontier.Contents, SameHistory, SameClock, Abs, Trapped, Settled, ScanModel.HarvestResponse, Url;
      ghost var s1 := Abs().(book := Trapped(Abs().book, c.parentDir, false, r.wildcard));
      TrappedDirs(Abs().book, c.parentDir, false, r.wildcard);
      HarvestDirs(env, s1, Url(env, c.parentDir, c.path), r.body);
      Trap(c.parentDir, false, r.wildcard);
      HarvestResponse(Url(env, c.parentDir, c.path), r.body);
      SettleScan(c);
    }

    /** handleHarvestFetchResult: a producer for a page that came back. */
    method HandleHarvest(url: string, body: Body)
      modifies this`harvestFlying, this`pendingHarvest
      ensures Abs() == ScanModel.HandleHarvest(old(Abs()), url, body)
    {
      hide Frontier.Valid, Frontier.Contents, Abs;
      FetchIsBack(url);
      if body != NoBody {
        SpawnHarvest();
      }
    }

    method FetchIsBack(url: string)
      modifies this`harvestFlying
      ensures Abs() == old(Abs()).(harvestFlying := old(Abs()).harvestFlying - multiset{url})
    {
      hide Frontier.Valid, Frontier.Contents;
      harvestFlying := harvestFlying - multiset{url};
    }

    /** spawnHarvest: one more producer. */
    method SpawnHarvest()
      modifies this`pendingHarvest
      ensures Abs() == old(Abs()).(producers := old(Abs()).producers + 1)
    {
      hide Frontier.Valid, Frontier.Contents;
      pendingHarvest := pendingHarvest + 1;
    }

    method AliasFirst(hash: int, url: string)
      modifies this`findings
      ensures findings == Aliased(old(findings), hash, url)
    {
      hide Aliased;
      var i := 0;
      while i < |findings|
        invariant i <= |findings| && findings == old(findings)
        invariant Aliased(findings, hash, url) == findings[..i] + Aliased(findings[i..], hash, url)
      {
        AliasedNext(findings, i, hash, url);
        if findings[i].hash == hash {
          findings := findings[i := findings[i].(aliases := findings[i].aliases + [url])];
          return;
        }
        i := i + 1;
      }
      AliasedNone(hash, url);
    }

    /** enqueueHarvestFetch: in scope and never visited. */
    method EnqueueHarvestFetch(url: string)
      modifies this`crawlVisited, this`harvestFetchQueue
      ensures Abs() == ScanModel.EnqueueHarvestFetch(env, old(Abs()), url)
    {
      hide Frontier.Valid, Frontier.Contents, SameHistory, SameClock, Abs;
      var seen := Visited(url);
      if env.inScope(url) && !seen {
        Visit(url);
        QueueFetch(url);
      }
    }

    method QueueFetch(url: string)
      modifies this`harvestFetchQueue
      ensures Abs() == old(Abs()).(harvestQueue := old(Abs()).harvestQueue + [url])
    {
      hide Frontier.Valid, Frontier.Contents;
      harvestFetchQueue := harvestFetchQueue + [url];
    }

    /** A seed held back until its directory's calibration is over. */
    method Hold(dir: string, c: Candidate)
      requires dir in dirs
      modifies this`dirs
      ensures Books() == Held(old(Books()), dir, c)
    {
      hide Frontier.Contents;
      var ds := dirs[dir];
      var held := c;
      if c.path in ds.pending {
        var existing := ds.pending[c.path];
        var provenance := UnionProvenance(existing.provenance, c.provenance);
        if c.basePrio > existing.basePrio { existing := existing.(basePrio := c.basePrio); }
        held := existing.(provenance := provenance);
      }
      dirs := dirs[dir := ds.(pending := ds.pending[c.path := held])];
    }

    /** Merges the candidate into the one queued at its path, if one is: larger prior, both
        provenances, a score to match. */
    method MergeQueued(dir: string, c: Candidate) returns (ghost pick: Candidate)
      requires frontier.Valid()
      modifies frontier
      ensures frontier.Valid() && Picked(old(Books()).queue, (dir, c.path), pick)
      ensures Books() == if pick in old(Books()).queue && KeyOf(pick) == (dir, c.path)
                         then Swapped(old(Books()), pick, Scored(env, scoring, Merged(pick, c))) else old(Books())
    {
      hide Frontier.Valid, Frontier.Contents, Scored, Merged;
      var e, s := env, scoring;
      var found := frontier.UpdateMatching(dir, c.path, (x: Candidate) => Scored(e, s, Merged(x, c)));
      pick := c;
      if found {
        ghost var x :| x in old(frontier.Contents()) && x.parentDir == dir && x.path == c.path
                 && frontier.Contents() == old(frontier.Contents()) - multiset{x} + multiset{Scored(e, s, Merged(x, c))};
        pick := x;
      }
    }

    // ---- Calibration --------------------------------------------------------------------

    method RemoveCalibratingDir(dir: string)
      modifies this`calibratingOrder
      ensures calibratingOrder == WithoutFirst(old(calibratingOrder), dir)
    {
      hide WithoutFirst;
      var order := calibratingOrder;
      var i := 0;
      while i < |order|
        invariant i <= |order| && calibratingOrder == order
        invariant WithoutFirst(order, dir) == order[..i] + WithoutFirst(order[i..], dir)
      {
        OrderGoesOn(order, i, dir);
        if order[i] == dir {
          calibratingOrder := order[..i] + order[i + 1..];
          return;
        }
        i := i + 1;
      }
      NoneToRemove(order, dir);
    }

    /** One probe's result; whether it was the last one. */
    method CountProbe(dir: string) returns (last: bool)
      requires dir in dirs
      modifies this`dirs, this`probes
      ensures Books() == ProbeBack(old(Books()), dir)
      ensures last == (dirs[dir].probesDone >= dirs[dir].probesTotal)
    {
      hide Frontier.Contents;
      dirs := dirs[dir := dirs[dir].(probesDone := dirs[dir].probesDone + 1)];
      probes := probes - multiset{dir};
      last := dirs[dir].probesDone >= dirs[dir].probesTotal;
    }

    // ---- Dispatch -----------------------------------------------------------------------

    /** The first probe of the first calibrating directory that still has one to send. */
    method NextProbe() returns (d: Option<string>)
      requires forall e :: e in calibratingOrder ==> e in dirs
      modifies this`dirs, this`probes
      ensures d.None? ==> Books() == old(Books()) && forall e :: e in calibratingOrder ==> dirs[e].probeQueue == []
      ensures d.Some? ==> exists i: nat :: FirstAt(calibratingOrder, old(dirs), i, d.value)
      ensures d.Some? ==> d.value in old(dirs) && old(dirs)[d.value].probeQueue != [] && Books() == ProbeOut(old(Books()), d.value)
    {
      hide Frontier.Contents;
      var i: nat := 0;
      while i < |calibratingOrder|
        invariant i <= |calibratingOrder| && dirs == old(dirs) && probes == old(probes)
        invariant forall j :: 0 <= j < i ==> dirs[calibratingOrder[j]].probeQueue == []
      {
        var e := calibratingOrder[i];
        if dirs[e].probeQueue != [] {
          dirs := dirs[e := dirs[e].(probeQueue := dirs[e].probeQueue[1..])];
          probes := probes + multiset{e};
          assert FirstAt(calibratingOrder, old(dirs), i, e);
          return Some(e);
        }
        i := i + 1;
      }
      d := None;
    }

    /** popNext: usually a best candidate; with exploration or jitter on, perhaps another. */
    method PopNext() returns (r: Option<Candidate>)
      requires frontier.Valid()
      modifies frontier
      ensures frontier.Valid()
      ensures r.None? <==> old(frontier.Contents()) == multiset{}
      ensures r.None? ==> frontier.Contents() == old(frontier.Contents())
      ensures r.Some? ==> old(frontier.Contents()) == frontier.Contents() + multiset{r.value}
      ensures r.Some? && !epsilon && !orderJitter ==> forall x :: x in old(frontier.Contents()) ==> x.score <= r.value.score
    {
      hide Frontier.Valid, Frontier.Contents, InBand;
      var explore := rng.Coin();
      if epsilon && frontier.Len() > 2 && explore {
        r := frontier.SampleMidTier(rng);
        if r.Some? { return; }
      }
      if frontier.Empty() { return None; }
      var c;
      if orderJitter {
        c := frontier.PopBand(rng, ORDER_JITTER_BAND);
      } else {
        c := frontier.Pop();
      }
      r := Some(c);
    }

    /** recordDispatch. */
    method RecordDispatch(dir: string)
      modifies this`lastDispatchDir, this`dispatchStreak
      ensures lastDispatchDir == dir
      ensures dispatchStreak == if dir == old(lastDispatchDir) then old(dispatchStreak) + 1 else 1
    {
      if dir == lastDispatchDir {
        dispatchStreak := dispatchStreak + 1;
      } else {
        lastDispatchDir, dispatchStreak := dir, 1;
      }
    }

    method PutBack(held: seq<Candidate>)
      requires frontier.Valid()
      modifies frontier
      ensures frontier.Valid() && frontier.Contents() == old(frontier.Contents()) + multiset(held)
    {
      hide Frontier.Valid, Frontier.Contents;
      var i := 0;
      assert held[..0] == [];
      while i < |held|
        invariant i <= |held| && frontier.Valid()
        invariant frontier.Contents() == old(frontier.Contents()) + multiset(held[..i])
      {
        assert held[..i + 1] == held[..i] + [held[i]];
        frontier.Push(held[i]);
        i := i + 1;
      }
      assert held[..i] == held;
    }

    /** Throws a popped candidate away: over budget, capped, out of scope or excluded. */
    method Discard(c: Candidate, ghost b: Book)
      requires c.parentDir in dirs && Books() == b.(queue := frontier.Contents())
      modifies this`dirs, this`log
      ensures Books() == Discarded(b, c, b.dirs[c.parentDir].dispatched >= b.dirs[c.parentDir].budget).(queue := frontier.Contents())
    {
      hide Frontier.Contents, Accounted;
      var ds := dirs[c.parentDir];
      PrunedWhen(ds);
      if ds.dispatched >= ds.budget && !ds.pruned {
        dirs := dirs[c.parentDir := ds.(pruned := true)];
      }
      AccountFor(c.parentDir);
      log := log.(dropped := log.dropped + multiset{KeyOf(c)});
    }

    /** Hands a popped candidate out, and puts the held ones back. */
    method SendOut(c: Candidate, held: seq<Candidate>)
      requires frontier.Valid() && c.parentDir in dirs
      modifies this`dirs, this`lastDispatchDir, this`dispatchStreak, this`flying, this`log, frontier
      ensures frontier.Valid()
      ensures lastDispatchDir == c.parentDir
      ensures dispatchStreak == if c.parentDir == old(lastDispatchDir) then old(dispatchStreak) + 1 else 1
      ensures Books() == Sent(old(Books()).(queue := old(frontier.Contents()) + multiset(held) + multiset{c}), c)
    {
      hide Frontier.Valid, Frontier.Contents, KeyOf;
      RecordDispatch(c.parentDir);
      dirs := dirs[c.parentDir := dirs[c.parentDir].(dispatched := dirs[c.parentDir].dispatched + 1)];
      PutBack(held);
      flying := flying + multiset{c};
      log := log.(sent := log.sent + multiset{KeyOf(c)});
    }

    /** What nextDispatchable does with a popped candidate. */
    method Judge(c: Candidate) returns (v: Verdict)
      requires c.parentDir in dirs
      ensures v == JudgedBy(Gate(env, scoring.overrides, lastDispatchDir, dispatchStreak), dirs[c.parentDir], c)
    {
      hide Excluded;
      var ds := dirs[c.parentDir];
      var excluded := IsExcluded(c.parentDir, c.path);
      if ds.capped || ds.dispatched >= ds.budget { return Throw; }
      if !env.inScope(Url(env, c.parentDir, c.path)) || excluded { return Throw; }
      if env.subtreeBurst > 0 && c.parentDir == lastDispatchDir && dispatchStreak >= env.subtreeBurst { return Wait; }
      v := Go;
    }

    /** Discards a popped candidate, as one more step of the search. */
    method ThrowAway(c: Candidate, ghost g: Gate, ghost b0: Book, ghost b: Book, ghost thrown: seq<Candidate>, ghost held: seq<Candidate>)
        returns (ghost b': Book, ghost thrown': seq<Candidate>)
      requires Searching(g, b0, b, thrown, held) && c in b.queue && Is(g, b, c, Throw)
      requires Books() == b.(queue := frontier.Contents()) && b.queue == frontier.Contents() + multiset{c} + multiset(held)
      modifies this`dirs, this`log
      ensures Searching(g, b0, b', thrown', held)
      ensures Books() == b'.(queue := frontier.Contents()) && b'.queue == frontier.Contents() + multiset(held)
    {
      hide Frontier.Contents, Inv, JudgedBy, Searching, Discarded;
      SearchThrows(g, b0, b, thrown, held, c);
      Discard(c, b);
      thrown' := thrown + [c];
      b' := DiscardedAll(b0, thrown', true);
    }

    /** One popped candidate: it may go, or is held back, or thrown away. */
    method Consider(c: Candidate, held: seq<Candidate>, ghost g: Gate, ghost b0: Book, ghost b: Book, ghost thrown: seq<Candidate>)
        returns (go: bool, held': seq<Candidate>, ghost b': Book, ghost thrown': seq<Candidate>)
      requires Searching(g, b0, b, thrown, held) && g == Gate(env, scoring.overrides, lastDispatchDir, dispatchStreak)
      requires Books() == b.(queue := frontier.Contents()) && b.queue == frontier.Contents() + multiset{c} + multiset(held)
      modifies this`dirs, this`log
      ensures go ==> Is(g, b, c, Go) && held' == held && b' == b && thrown' == thrown && Books() == old(Books())
      ensures !go ==> && Searching(g, b0, b', thrown', held') && (held' == held || held' == held + [c])
                      && Books() == b'.(queue := frontier.Contents()) && b'.queue == frontier.Contents() + multiset(held')
    {
      hide Frontier.Contents, Inv, JudgedBy, Searching;
      // A candidate of a directory that is not scanning would be dropped silently here; by the
      // invariant there is none.
      SearchIsLive(g, b0, b, thrown, held, c);
      var verdict := Judge(c);
      go, held', b', thrown' := verdict == Go, held, b, thrown;
      if verdict == Wait {
        SearchHolds(g, b0, b, thrown, held, c);
        held' := held + [c];
      } else if verdict == Throw {
        b', thrown' := ThrowAway(c, g, b0, b, thrown, held);
      }
    }

    /** nextDispatchable's loop: pops until a candidate may go out, discarding what no longer may,
        and holding back what the yield cap defers. */
    method Sift(ghost g: Gate, ghost b0: Book)
        returns (found: Option<Candidate>, held: seq<Candidate>, ghost b: Book, ghost thrown: seq<Candidate>)
      requires frontier.Valid() && Inv(b0) && Books() == b0
      requires g == Gate(env, scoring.overrides, lastDispatchDir, dispatchStreak)
      modifies this`dirs, this`log, frontier
      ensures frontier.Valid() && Searching(g, b0, b, thrown, held) && Books() == b.(queue := frontier.Contents())
      ensures found.None? ==> frontier.Contents() == multiset{} && b.queue == multiset(held)
      ensures found.Some? ==> Is(g, b, found.value, Go) && b.queue == frontier.Contents() + multiset{found.value} + multiset(held)
      ensures !epsilon && !orderJitter ==> Ranked(frontier.Contents(), held)
      ensures !epsilon && !orderJitter && found.Some? ==> forall x :: x in frontier.Contents() ==> x.score <= found.value.score
    {
      hide Frontier.Valid, Frontier.Contents, Inv, Is, Searching, Ranked;
      b, thrown, held := b0, [], [];
      SearchStarts(g, b);
      while true
        invariant frontier.Valid() && Searching(g, b0, b, thrown, held)
        invariant Books() == b.(queue := frontier.Contents()) && b.queue == frontier.Contents() + multiset(held)
        invariant !epsilon && !orderJitter ==> Ranked(frontier.Contents(), held)
        decreases |frontier.Contents()|
      {
        ghost var before := frontier.Contents();
        found := PopNext();
        if found.None? { return; }
        if !epsilon && !orderJitter { RankedStays(before, frontier.Contents(), held, found.value); }
        var go;
        go, held, b, thrown := Consider(found.value, held, g, b0, b, thrown);
        if go { return; }
      }
    }

    /** What was found goes out, and the held go back: on the books, nothing but the request has happened. */
    method Serve(c: Candidate, held: seq<Candidate>, ghost b: Book)
      requires frontier.Valid() && c.parentDir in b.dirs && Books() == b.(queue := frontier.Contents())
      requires b.(queue := frontier.Contents()).(queue := frontier.Contents() + multiset(held) + multiset{c}) == b
      modifies this`dirs, this`lastDispatchDir, this`dispatchStreak, this`flying, this`log, frontier
      ensures frontier.Valid() && Books() == Sent(b, c)
      ensures lastDispatchDir == c.parentDir
      ensures dispatchStreak == if c.parentDir == old(lastDispatchDir) then old(dispatchStreak) + 1 else 1
    {
      hide Frontier.Valid, Frontier.Contents, Sent;
      SendOut(c, held);
    }

    /** The frontier's part of nextDispatchable: what is found goes out, and the held go back; if only
        held ones are left, the first of them goes out. */
    method NextCandidate() returns (r: Option<Candidate>, ghost thrown: seq<Candidate>)
      requires frontier.Valid() && Inv(Books())
      modifies this`dirs, this`lastDispatchDir, this`dispatchStreak, this`flying, this`log, frontier
      ensures frontier.Valid()
      ensures var g := Gate(env, scoring.overrides, old(lastDispatchDir), old(dispatchStreak));
              && Rejected(g, old(Books()), thrown)
              && Outcome(g, DiscardedAll(old(Books()), thrown, true), r, Books(), lastDispatchDir, dispatchStreak)
              && (r.Some? && !epsilon && !orderJitter ==> Best(g, DiscardedAll(old(Books()), thrown, true), r.value))
    {
      hide Frontier.Valid, Frontier.Contents, Inv, JudgedBy, Rejected, Outcome, Best, Searching, Ranked, Sent, Discarded,
           DiscardedAll, Chosen, Is, Books;
      ghost var g, b0 := Gate(env, scoring.overrides, lastDispatchDir, dispatchStreak), Books();
      var held;
      ghost var b;
      r, held, b, thrown := Sift(g, b0);
      if r.None? && held == [] {
        SearchEnds(g, b0, b, thrown);
        return;
      }
      SearchDecides(g, b0, b, thrown, r, held, frontier.Contents(), !epsilon && !orderJitter);
      if r.None? {
        r, held := Some(held[0]), held[1..];
      }
      ChosenDir(g, b, r.value);
      Serve(r.value, held, b);
      OutcomeIs(g, b, r.value);
    }

    method ProbeScan() returns (d: Option<string>, path: string)
      requires Refs(Abs().book)
      modifies this`dirs, this`probes
      ensures d.None? ==> !ProbesWait(old(Abs())) && Abs() == old(Abs())
      ensures d.Some? ==> var s := old(Abs());
                          && FirstToProbe(s, d.value) && path == FirstOf(s.book.dirs[d.value])
                          && Abs() == s.(book := ProbeOut(s.book, d.value))
    {
      hide Frontier.Contents, Frontier.Valid, ProbeOut;
      path := "";
      var was := dirs;
      d := NextProbe();
      if d.Some? {
        path := FirstOf(was[d.value]);
        ghost var i: nat :| FirstAt(calibratingOrder, was, i, d.value);
        assert old(Abs()).book.order[i] == d.value;
      }
    }

    method FetchScan() returns (url: Option<string>)
      modifies this`harvestFetchQueue, this`harvestFlying
      ensures var s := old(Abs());
              if s.harvestQueue == [] then url == None && Abs() == s else url == Some(s.harvestQueue[0]) && Abs() == FetchOut(s)
    {
      hide Frontier.Contents, Frontier.Valid;
      if harvestFetchQueue == [] { return None; }
      url := Some(harvestFetchQueue[0]);
      harvestFlying := harvestFlying + multiset{harvestFetchQueue[0]};
      harvestFetchQueue := harvestFetchQueue[1..];
      assert Books() == old(Books());
    }

    method CandidateScan() returns (r: Option<Candidate>, ghost thrown: seq<Candidate>)
      requires frontier.Valid() && Inv(Abs().book)
      modifies this`dirs, this`lastDispatchDir, this`dispatchStreak, this`flying, this`log, frontier
      ensures frontier.Valid() && Served(env, old(Abs()), thrown, r, Abs())
      ensures r.Some? && !epsilon && !orderJitter ==>
                Best(GateOf(env, old(Abs())), DiscardedAll(old(Abs()).book, thrown, true), r.value)
    {
      hide Frontier.Valid, Frontier.Contents, Inv, Rejected, Outcome, Best, DiscardedAll;
      r, thrown := NextCandidate();
      RejectedDirs(GateOf(env, old(Abs())), old(Abs()).book, thrown);
    }

    /** nextDispatchable: a calibration probe first, then a harvest fetch, then the frontier. */
    method NextDispatchable() returns (item: Option<WorkItem>, ghost thrown: seq<Candidate>)
      requires frontier.Valid() && Inv(Abs().book)
      modifies this`dirs, this`probes, this`harvestFetchQueue, this`harvestFlying, this`lastDispatchDir, this`dispatchStreak,
               this`flying, this`log, frontier
      ensures frontier.Valid()
      ensures item.Some? && item.value.Probe? ==>
                var s := old(Abs());
                && FirstToProbe(s, item.value.dir) && item.value.path == FirstOf(s.book.dirs[item.value.dir])
                && Abs() == s.(book := ProbeOut(s.book, item.value.dir))
      ensures item.Some? && item.value.Fetch? ==>
                var s := old(Abs());
                !ProbesWait(s) && s.harvestQueue != [] && item.value.url == s.harvestQueue[0] && Abs() == FetchOut(s)
      ensures item.None? || item.value.Real? ==>
                var s := old(Abs()); var r := if item.None? then None else Some(item.value.cand);
                && FrontierTurn(s) && Served(env, s, thrown, r, Abs())
                && (r.Some? && !epsilon && !orderJitter ==> Best(GateOf(env, s), DiscardedAll(s.book, thrown, true), r.value))
    {
      hide Frontier.Valid, Frontier.Contents, Abs, Served, Best, GateOf, ProbeOut, FetchOut, DiscardedAll, DirOk, FirstToProbe, ProbesWait;
      thrown := [];
      var d, path := ProbeScan();
      if d.Some? {
        return Some(Probe(d.value, path)), thrown;
      }
      var url := FetchScan();
      if url.Some? {
        return Some(Fetch(url.value)), thrown;
      }
      var c;
      c, thrown := CandidateScan();
      item := if c.None? then None else Some(Real(c.value));
    }

    // ---- Messages -----------------------------------------------------------------------

    /** handleResult: a probe's, a harvest fetch's, or a candidate's. */
    method HandleResult(m: Message) returns (ghost e: Event)
      requires m.ProbeResult? || m.FetchResult? || m.RealResult?
      requires frontier.Valid() && Sound(env, Abs()) && Arrives(env, Abs(), m)
      modifies this, frontier
      ensures frontier.Valid() && Delivers(m, e) && Enabled(env, old(Abs()), e) && Abs() == Next(env, old(Abs()), e)
    {
      hide Frontier.Valid, Frontier.Contents, SameHistory, SameClock, Abs, PendingOk, Segments, Swept, Timed, DirOk, Rest,
           ScanModel.CollectProbe, ScanModel.HandleHarvest, ScanModel.HandleReal, ScanModel.EnqueueSeed, ScanModel.EnqueueHarvestFetch,
           ScanModel.ApplyOverride, ScanModel.ApplyPin, Bar, Dispatch, ScanModel.Discard, FetchOut, FrontierTurn, ProbesWait, FirstToProbe,
           Blocked, ProbeOut, Dispatchable;
      match m
      case ProbeResult(dir) =>
        ProbedOk(Abs().book, dir);
        CollectProbe(dir);
        e := ProbeBackAt(dir);
      case FetchResult(url, body) =>
        HandleHarvest(url, body);
        e := FetchBack(url, body);
      case RealResult(c, response, now) =>
        HandleReal(c, response, now);
        e := ResultBack(c, response, now);
    }

    /** applyControl: a boost or a demotion, a pin, an exclusion. */
    method ApplyControl(m: Message) returns (ghost e: Event)
      requires m.Weigh? || m.PinDown? || m.ShutOut?
      requires frontier.Valid() && Sound(env, Abs()) && Arrives(env, Abs(), m)
      modifies this, frontier
      ensures frontier.Valid() && Delivers(m, e) && Enabled(env, old(Abs()), e) && Abs() == Next(env, old(Abs()), e)
    {
      hide Frontier.Valid, Frontier.Contents, SameHistory, SameClock, Abs, PendingOk, Segments, Swept, Timed, DirOk, Rest,
           ScanModel.CollectProbe, ScanModel.HandleHarvest, ScanModel.HandleReal, ScanModel.EnqueueSeed, ScanModel.EnqueueHarvestFetch,
           ScanModel.ApplyOverride, ScanModel.ApplyPin, Bar, Dispatch, ScanModel.Discard, FetchOut, FrontierTurn, ProbesWait, FirstToProbe,
           Blocked, ProbeOut, Dispatchable, Refs;
      match m
      case Weigh(pattern, kind, factor) =>
        ApplyOverride(pattern, factor, kind);
        e := Weighted(pattern, kind, factor);
      case PinDown(pattern) =>
        ghost var picks := ApplyPin(pattern);
        e := Pinned(pattern, picks);
      case ShutOut(pattern) =>
        var removed := ApplyExclude(pattern);
        e := Barred(pattern, removed);
    }

    /** What producers send besides seeds: a page to fetch, or that they are done. */
    method TakeIn(m: Message) returns (ghost e: Event)
      requires m.FetchRequest? || m.ProducerEnded?
      requires frontier.Valid() && Sound(env, Abs()) && Arrives(env, Abs(), m)
      modifies this, frontier
      ensures frontier.Valid() && Delivers(m, e) && Enabled(env, old(Abs()), e) && Abs() == Next(env, old(Abs()), e)
    {
      hide Frontier.Valid, Frontier.Contents, SameHistory, SameClock, Abs, PendingOk, Segments, Swept, Timed, DirOk, Rest,
           ScanModel.CollectProbe, ScanModel.HandleHarvest, ScanModel.HandleReal, ScanModel.EnqueueSeed, ScanModel.EnqueueHarvestFetch,
           ScanModel.ApplyOverride, ScanModel.ApplyPin, Bar, Dispatch, ScanModel.Discard, FetchOut, FrontierTurn, ProbesWait, FirstToProbe,
           Blocked, ProbeOut, Dispatchable, Sound;
      match m
      case FetchRequest(url) =>
        EnqueueHarvestFetch(url);
        e := FetchAsked(url);
      case ProducerEnded =>
        EndProducer();
        e := ProducerDone;
    }

    /** dispatchLoop's cases for what arrives, seed batches aside. Whatever it is, the object takes a step of
        the transition system. */
    method Handle(m: Message) returns (ghost e: Event)
      requires frontier.Valid() && Sound(env, Abs()) && Arrives(env, Abs(), m)
      modifies this, frontier
      ensures frontier.Valid() && Delivers(m, e) && Enabled(env, old(Abs()), e) && Abs() == Next(env, old(Abs()), e)
    {
      hide Frontier.Valid, Frontier.Contents, Abs, Sound, Arrives, Delivers, Enabled, Next;
      if m.ProbeResult? || m.FetchResult? || m.RealResult? {
        e := HandleResult(m);
      } else if m.FetchRequest? || m.ProducerEnded? {
        e := TakeIn(m);
      } else {
        e := ApplyControl(m);
      }
    }

    /** spawnHarvest's goroutine is done. */
    method EndProducer()
      requires Abs().producers > 0
      modifies this`pendingHarvest
      ensures Abs() == old(Abs()).(producers := old(Abs()).producers - 1)
    {
      hide Frontier.Valid, Frontier.Contents;
      pendingHarvest := pendingHarvest - 1;
    }

    /** mergeOrEnqueueGenerated and the states around it: held while the directory calibrates; merged if
        its path is known; else new, and the directory reopened if it was done. */
    method Land(dir: string, c: Candidate) returns (ghost pick: Candidate)
      requires frontier.Valid()
      modifies this`dirs, this`log, frontier
      ensures frontier.Valid() && Picked(old(Books()).queue, (dir, c.path), pick)
      ensures Books() == LandedBook(env, scoring, old(Books()), dir, c, pick)
    {
      hide Frontier.Valid, Frontier.Contents, Scored, Merged, Swapped, Held, Added, Picked;
      pick := SomePick(Books().queue, (dir, c.path), c);
      if dir !in dirs { return; }
      if dirs[dir].phase == Calibrating {
        Hold(dir, c);
      } else if c.path in dirs[dir].known {
        pick := MergeQueued(dir, c);
      } else {
        AdmitSeed(dir, c);
      }
    }

    method LandScan(dir: string, c: Candidate) returns (ghost pick: Candidate)
      requires frontier.Valid()
      modifies this`dirs, this`log, frontier
      ensures frontier.Valid() && Picked(old(Abs()).book.queue, (dir, c.path), pick)
      ensures Abs() == Landed(env, old(Abs()), dir, c, pick)
    {
      hide Frontier.Valid, Frontier.Contents, SameHistory, SameClock, LandedBook, Picked;
      pick := Land(dir, c);
    }

    method NoteStaged()
      modifies this`log
      ensures var s := old(Abs()); Abs() == s.(book := s.book.(log := s.book.log.(staged := s.book.log.staged + 1)))
    {
      hide Frontier.Valid, Frontier.Contents;
      log := log.(staged := log.staged + 1);
    }

    /** stageDirCandidate, counted in the history. */
    method StageDirCandidate(dir: string, c: Candidate) returns (ghost pick: Candidate)
      requires frontier.Valid()
      modifies this`dirs, this`log, frontier
      ensures frontier.Valid() && Picked(old(Abs()).book.queue, (dir, c.path), pick)
      ensures Abs() == ScanModel.StageDirCandidate(env, old(Abs()), dir, c, pick)
    {
      hide Frontier.Valid, Frontier.Contents, SameHistory, SameClock, Landed, Picked, Abs;
      NoteStaged();
      pick := LandScan(dir, c);
    }

    method NoteChained()
      modifies this`log
      ensures var s := old(Abs()); Abs() == s.(book := s.book.(log := s.book.log.(chained := s.book.log.chained + 1)))
    {
      hide Frontier.Valid, Frontier.Contents;
      log := log.(chained := log.chained + 1);
    }

    method NoteSeed()
      modifies this`log
      ensures var s := old(Abs()); Abs() == s.(book := s.book.(log := s.book.log.(seeds := s.book.log.seeds + 1)))
    {
      hide Frontier.Valid, Frontier.Contents;
      log := log.(seeds := log.seeds + 1);
    }

    /** ensureDirChain: every ancestor is opened, and named under its own parent. */
    method EnsureDirChain(segs: seq<string>, prio: real, provenance: string) returns (ghost picks: seq<Candidate>)
      requires frontier.Valid() && |segs| > 0
      modifies this`scoring, this`dirs, this`calibratingOrder, this`baselines, this`rootRefined, this`lastReprioSig, this`extSet,
               this`crawlVisited, this`harvestFetchQueue, this`log, this`swept, frontier
      ensures frontier.Valid() && |picks| == |segs|
      ensures Abs() == ScanModel.EnsureDirChain(env, old(Abs()), segs, prio, provenance, picks, |segs| - 1)
    {
      hide Frontier.Valid, Frontier.Contents, SameHistory, SameClock, Abs, DirOf, ScanModel.EnqueueChild, ScanModel.StageDirCandidate, ChainStep;
      ghost var s := Abs();
      picks := NoPicks(segs);
      var i := 0;
      while i < |segs| - 1
        invariant i <= |segs| - 1 && |picks| == |segs| && frontier.Valid()
        invariant Abs() == ScanModel.EnsureDirChain(env, s, segs, prio, provenance, picks, i)
      {
        ghost var pick := ChainOne(segs, prio, provenance, i);
        ChainPicks(env, s, segs, prio, provenance, picks, picks[i := pick], i);
        picks := picks[i := pick];
        i := i + 1;
      }
    }

    method ChainOne(segs: seq<string>, prio: real, provenance: string, i: nat) returns (ghost pick: Candidate)
      requires frontier.Valid() && i < |segs|
      modifies this`scoring, this`dirs, this`calibratingOrder, this`baselines, this`rootRefined, this`lastReprioSig, this`extSet,
               this`crawlVisited, this`harvestFetchQueue, this`log, this`swept, frontier
      ensures frontier.Valid() && Abs() == ChainStep(env, old(Abs()), segs, prio, provenance, pick, i)
    {
      hide Frontier.Valid, Frontier.Contents, SameHistory, SameClock, Abs, DirOf, ScanModel.EnqueueChild, ScanModel.StageDirCandidate, Picked;
      NoteChained();
      EnqueueChild(DirOf(segs, i + 1), i + 1);
      pick := StageDirCandidate(DirOf(segs, i), AncestorCandidate(segs, i, prio, provenance));
    }

    /** enqueueSeed: an admitted seed gets its ancestors, and its leaf is staged under the last of them. */
    method EnqueueSeed(sd: Seed) returns (ghost picks: seq<Candidate>)
      requires frontier.Valid()
      modifies this`scoring, this`dirs, this`calibratingOrder, this`baselines, this`rootRefined, this`lastReprioSig, this`extSet,
               this`crawlVisited, this`harvestFetchQueue, this`log, this`swept, frontier
      ensures frontier.Valid() && |picks| == |Segments(sd.path)| && Abs() == ScanModel.EnqueueSeed(env, old(Abs()), sd, picks)
    {
      hide Frontier.Valid, Frontier.Contents, SameHistory, SameClock, Abs, DirOf, Segments, Admitted, Picked,
           ScanModel.EnsureDirChain, ScanModel.StageDirCandidate;
      var segs := Segments(sd.path);
      picks := NoPicks(segs);
      if Admitted(env, sd) {
        ghost var s := Abs();
        NoteSeed();
        ghost var s0, n := Abs(), |segs| - 1;
        picks := EnsureDirChain(segs, sd.basePrio, sd.provenance);
        ghost var pick := StageDirCandidate(DirOf(segs, |segs| - 1), LeafCandidate(segs, sd));
        ChainPicks(env, s0, segs, sd.basePrio, sd.provenance, picks, picks[n := pick], n);
        picks := picks[n := pick];
      }
    }

    /** A seed at a new path of a scanning directory, or of a done one that it reopens. */
    method AdmitSeed(dir: string, c: Candidate)
      requires frontier.Valid() && dir in dirs && dirs[dir].phase != Calibrating && c.path !in dirs[dir].known
      modifies this`dirs, this`log, frontier
      ensures frontier.Valid()
      ensures Books() == Added(old(Books()), dir, Scored(env, scoring, c.(depth := old(dirs)[dir].depth + 1)))
    {
      hide Frontier.Valid, Frontier.Contents, Scored, Added;
      ghost var b := Books();
      if dirs[dir].phase == Done {
        dirs := dirs[dir := dirs[dir].(phase := Scanning)];
      }
      ReopenedAdds(b, dir, Scored(env, scoring, c.(depth := dirs[dir].depth + 1)));
      var added := EnqueueGenerated(dir, c);
    }

    // ---- Opening a directory ------------------------------------------------------------

    /** A new record, its probes drawn extension by extension. */
    method BeginCalibration(dir: string, depth: int) returns (empty: bool)
      modifies this`dirs, this`calibratingOrder
      ensures Books() == Started(old(Books()), dir, depth, Probes(env, dir, extSet, 0))
      ensures empty <==> Probes(env, dir, extSet, 0) == []
    {
      hide Frontier.Contents;
      var queue := DrawProbes(dir, extSet);
      dirs := dirs[dir := FreshDir(depth, queue)];
      calibratingOrder := calibratingOrder + [dir];
      empty := queue == [];
    }

    method Begin(dir: string, depth: int) returns (empty: bool)
      modifies this`dirs, this`calibratingOrder
      ensures var s := old(Abs()); var probes := Probes(env, dir, s.exts, 0);
              && Abs() == s.(book := Started(s.book, dir, depth, probes)) && (empty <==> probes == [])
    {
      hide Frontier.Contents, Started, Probes;
      empty := BeginCalibration(dir, depth);
    }

    /** The root again, from scratch: its old record is replaced. */
    method Restart(dir: string) returns (empty: bool)
      requires dir in Abs().book.dirs
      modifies this`dirs, this`calibratingOrder
      ensures var s := old(Abs()); var probes := Probes(env, dir, s.exts, 0);
              && Abs() == s.(book := Restarted(s.book, dir, probes)) && (empty <==> probes == [])
    {
      hide Frontier.Contents, Probes, WithoutFirst;
      var depth := dirs[dir].depth;
      RemoveCalibratingDir(dir);
      empty := BeginCalibration(dir, depth);
    }

    /** startCalibration: with nothing in scope to probe with, the calibration is over at once. */
    method StartCalibration(dir: string, depth: int)
      requires frontier.Valid()
      modifies this`scoring, this`dirs, this`calibratingOrder, this`baselines, this`rootRefined, this`lastReprioSig, this`extSet,
               this`crawlVisited, this`harvestFetchQueue, this`log, this`swept, frontier
      ensures frontier.Valid() && Abs() == ScanModel.StartCalibration(env, old(Abs()), dir, depth)
      decreases if Abs().rootRefined then 0 else 1, 2
    {
      hide Frontier.Valid, Frontier.Contents, SameHistory, SameClock, Abs, Probes, Started, ScanModel.FinishCalibration, PendingOk;
      ghost var s := Abs();
      var empty := Begin(dir, depth);
      if empty {
        FreshPending(s.book, dir, depth, Probes(env, dir, s.exts, 0));
        FinishCalibration(dir);
      }
    }

    /** The extension set grew: the directory is calibrated once more. */
    method Recalibrate(dir: string)
      requires frontier.Valid() && dir in Abs().book.dirs && Abs().rootRefined
      modifies this`scoring, this`dirs, this`calibratingOrder, this`baselines, this`rootRefined, this`lastReprioSig, this`extSet,
               this`crawlVisited, this`harvestFetchQueue, this`log, this`swept, frontier
      ensures frontier.Valid() && Abs() == ScanModel.Recalibrate(env, old(Abs()), dir)
      decreases 0, 2
    {
      hide Frontier.Valid, Frontier.Contents, SameHistory, SameClock, Abs, Probes, Restarted, ScanModel.FinishCalibration, PendingOk;
      ghost var s := Abs();
      var empty := Restart(dir);
      if empty {
        AgainPending(s.book, dir, Probes(env, dir, s.exts, 0));
        FinishCalibration(dir);
      }
    }

    /** The baseline of a directory whose probes are all back; whether the root is to be refined now. */
    method Baseline(dir: string) returns (cal: Calib, first: bool)
      modifies this`baselines
      ensures var s := old(Abs());
              && cal == env.calibrate(dir, s.rootRefined) && first == (dir == "" && !s.rootRefined)
              && Abs() == s.(spaDirs := s.spaDirs[dir := cal.spa])
    {
      hide Frontier.Valid, Frontier.Contents;
      cal := env.calibrate(dir, rootRefined);
      baselines := baselines[dir := cal.spa];
      first := dir == "" && !rootRefined;
    }

    /** RefineAfterCalibration: a new profile, once a scan. */
    method Refine(profile: nat)
      modifies this`rootRefined, this`scoring
      ensures Abs() == old(Abs()).(rootRefined := true, scoring := old(Abs()).scoring.(profile := profile))
    {
      hide Frontier.Valid, Frontier.Contents;
      rootRefined, scoring := true, scoring.(profile := profile);
      assert Books() == old(Books());
    }

    /** extSetGrew: whether some new extension is not among those calibrated with. */
    method ExtSetGrew(exts: seq<string>) returns (grew: bool)
      ensures grew == Grew(Abs().exts, exts)
    {
      var i := 0;
      while i < |exts|
        invariant i <= |exts| && forall j :: 0 <= j < i ==> exts[j] in extSet
      {
        if exts[i] !in extSet { return true; }
        i := i + 1;
      }
      grew := false;
    }

    method SetExtensions(exts: seq<string>)
      modifies this`extSet
      ensures Abs() == old(Abs()).(exts := exts)
    {
      hide Frontier.Valid, Frontier.Contents;
      extSet := exts;
    }

    method EnterSpaMode()
      modifies this`scoring
      ensures Abs() == old(Abs()).(scoring := old(Abs()).scoring.(spaMode := true))
    {
      hide Frontier.Valid, Frontier.Contents;
      scoring := scoring.(spaMode := true);
    }

    /** spaPivot, when the root turns out to answer everything alike. */
    method Pivot(dir: string, spa: bool)
      requires frontier.Valid()
      modifies this`scoring, this`crawlVisited, this`harvestFetchQueue, this`swept, frontier
      ensures frontier.Valid() && Abs() == ScanModel.Pivot(env, old(Abs()), dir, spa)
    {
      hide Frontier.Valid, Frontier.Contents, SameHistory, SameClock, Abs, Sweep, ScanModel.EnqueueHarvestFetch;
      if dir == "" && spa {
        EnterSpaMode();
        ReprioritizeAll();
        if env.crawl || env.jsHarvest {
          EnqueueHarvestFetch(env.target + "/");
        }
      }
    }

    /** finishCalibration: refined and perhaps calibrated once more at the root; else opened. */
    method FinishCalibration(dir: string)
      requires frontier.Valid() && dir in Abs().book.dirs && PendingOk(Abs().book.dirs[dir].pending, dir)
      modifies this`scoring, this`dirs, this`calibratingOrder, this`baselines, this`rootRefined, this`lastReprioSig, this`extSet,
               this`crawlVisited, this`harvestFetchQueue, this`log, this`swept, frontier
      ensures frontier.Valid() && Abs() == ScanModel.FinishCalibration(env, old(Abs()), dir)
      decreases if Abs().rootRefined then 0 else 1, 1
    {
      hide Frontier.Valid, Frontier.Contents, SameHistory, SameClock, Abs, Grew, PendingOk, ScanModel.PushCandidates, ScanModel.Pivot,
           ScanModel.ReprioritizeIfChanged, ScanModel.Recalibrate;
      var cal, first := Baseline(dir);
      if first {
        Refine(cal.profile);
        ReprioritizeKeeps(env, Abs());
        ReprioritizeIfChanged();
        var grew := ExtSetGrew(cal.exts);
        if grew {
          SetExtensions(cal.exts);
          Recalibrate(dir);
          return;
        }
      }
      Pivot(dir, cal.spa);
      OpenDirectory(dir);
    }

    /** collectProbe: the last result ends the calibration. */
    method CollectProbe(dir: string)
      requires frontier.Valid() && dir in Abs().book.dirs && PendingOk(Abs().book.dirs[dir].pending, dir)
      modifies this`probes
      modifies this`scoring, this`dirs, this`calibratingOrder, this`baselines, this`rootRefined, this`lastReprioSig, this`extSet,
               this`crawlVisited, this`harvestFetchQueue, this`log, this`swept, frontier
      ensures frontier.Valid() && Abs() == ScanModel.CollectProbe(env, old(Abs()), dir)
    {
      hide Frontier.Valid, Frontier.Contents, SameHistory, SameClock, Abs, PendingOk, ScanModel.FinishCalibration;
      var last := Probed(dir);
      if last {
        FinishCalibration(dir);
      }
    }

    method Probed(dir: string) returns (last: bool)
      requires dir in Abs().book.dirs
      modifies this`dirs, this`probes
      ensures var s := old(Abs()); var b := ProbeBack(s.book, dir);
              Abs() == s.(book := b) && last == (b.dirs[dir].probesDone >= b.dirs[dir].probesTotal)
    {
      hide Frontier.Contents;
      last := CountProbe(dir);
    }

    /** enqueueChildDirectory. */
    method EnqueueChild(dir: string, depth: int)
      requires frontier.Valid()
      modifies this`scoring, this`dirs, this`calibratingOrder, this`baselines, this`rootRefined, this`lastReprioSig, this`extSet,
               this`crawlVisited, this`harvestFetchQueue, this`log, this`swept, frontier
      ensures frontier.Valid() && Abs() == ScanModel.EnqueueChild(env, old(Abs()), dir, depth)
    {
      hide Frontier.Valid, Frontier.Contents, SameHistory, SameClock, Abs, ScanModel.StartCalibration;
      var exists_ := HasDir(dir);
      if !exists_ {
        StartCalibration(dir, depth);
      }
    }

    method HasDir(dir: string) returns (found: bool)
      ensures found == (dir in Abs().book.dirs)
    {
      found := dir in dirs;
    }

    method DrawProbes(dir: string, exts: seq<string>) returns (queue: seq<string>)
      ensures queue == Probes(env, dir, exts, 0)
    {
      hide Probes;
      queue := [];
      var e := 0;
      while e < |exts|
        invariant e <= |exts| && queue + Probes(env, dir, exts, e) == Probes(env, dir, exts, 0)
      {
        var drawn := DrawFor(dir, exts[e], N_PROBES * e);
        DrawnExt(env, dir, exts, e, queue);
        queue := queue + drawn;
        e := e + 1;
      }
      DrawnAll(env, dir, exts, queue);
    }

    method DrawFor(dir: string, ext: string, k: nat) returns (queue: seq<string>)
      ensures queue == ProbesOf(env, dir, ext, k, 0)
    {
      hide ProbesOf, Url;
      queue := [];
      var i := 0;
      while i < N_PROBES
        invariant i <= N_PROBES && queue + ProbesOf(env, dir, ext, k, i) == ProbesOf(env, dir, ext, k, 0)
      {
        DrawnOne(env, dir, ext, k, i, queue);
        var p := env.token(dir, k + i) + ext;
        if env.inScope(Url(env, dir, p)) {
          queue := queue + [p];
        }
        i := i + 1;
      }
      DrawnNone(env, dir, ext, k, queue);
    }

    /** The template's part of pushCandidates: each entry merged with the seed pending at its path. */
    method PushTemplate(dir: string, depth: int, pending: map<string, Candidate>)
        returns (left: map<string, Candidate>, known: set<string>)
      requires frontier.Valid()
      modifies frontier
      ensures frontier.Valid() && known == PathsOf(env.template)
      ensures var folded := Folded(env, scoring, dir, depth, env.template, pending);
              left == folded.1 && frontier.Contents() == old(frontier.Contents()) + multiset(folded.0)
    {
      hide Frontier.Valid, Frontier.Contents, Scored, FoldEntry, Folded, PathsOf, Merged;
      left, known := pending, {};
      FoldStarts(env, scoring, dir, depth, pending);
      var i := 0;
      while i < |env.template|
        invariant i <= |env.template| && frontier.Valid() && known == PathsOf(env.template[..i])
        invariant left == Folded(env, scoring, dir, depth, env.template[..i], pending).1
        invariant frontier.Contents() == old(frontier.Contents())
                                         + multiset(Folded(env, scoring, dir, depth, env.template[..i], pending).0)
      {
        FoldGoesOn(env, scoring, dir, depth, env.template, pending, i);
        var c := TemplateCandidate(env, dir, depth, env.template[i]);
        if c.path in left {
          var path := c.path;
          c := MergeSeed(c, left[path]);
          left := left - {path};
        }
        frontier.Push(Scored(env, scoring, c));
        known := known + {env.template[i].path};
        i := i + 1;
      }
      assert env.template[..i] == env.template;
    }

    /** The pending seeds no template entry took. */
    method PushLeftovers(left: map<string, Candidate>)
      requires frontier.Valid() && forall p :: p in left ==> left[p].path == p
      modifies frontier
      ensures frontier.Valid() && frontier.Contents() == old(frontier.Contents()) + multiset(Leftovers(env, scoring, left))
    {
      hide Frontier.Valid, Frontier.Contents, Scored, Leftovers;
      var rest := left;
      while rest != map[]
        invariant rest.Keys <= left.Keys && (forall p :: p in rest ==> rest[p] == left[p]) && frontier.Valid()
        invariant frontier.Contents() + multiset(Leftovers(env, scoring, rest))
                  == old(frontier.Contents()) + multiset(Leftovers(env, scoring, left))
        decreases |rest|
      {
        var p :| p in rest;
        OneLeftover(env, scoring, rest, p);
        frontier.Push(Scored(env, scoring, rest[p]));
        rest := rest - {p};
      }
      NoLeftovers(env, scoring);
    }

    method PushNmap(dir: string, depth: int) returns (known: set<string>)
      requires frontier.Valid()
      modifies frontier
      ensures frontier.Valid() && known == NmapPaths(env, dir)
      ensures frontier.Contents() == old(frontier.Contents()) + multiset(NmapCandidates(env, depth, dir))
    {
      hide Frontier.Valid, Frontier.Contents, NmapCandidate;
      known := {};
      if dir == "" {
        var i := 0;
        ghost var all := NmapCandidates(env, depth, dir);
        assert all[..0] == [];
        while i < |env.nmap|
          invariant i <= |env.nmap| && frontier.Valid() && known == set j | 0 <= j < i :: env.nmap[j].path
          invariant frontier.Contents() == old(frontier.Contents()) + multiset(all[..i])
        {
          assert all[..i + 1] == all[..i] + [all[i]];
          frontier.Push(NmapCandidate(depth, dir, env.nmap[i]));
          known := known + {env.nmap[i].path};
          i := i + 1;
        }
        assert all[..i] == all;
      }
    }

    /** pushCandidates on the frontier: the whole candidate set, its paths, and how many seeds were left over. */
    method PushCandidates(dir: string, depth: int, pending: map<string, Candidate>) returns (known: set<string>, leftovers: nat)
      requires frontier.Valid() && PendingOk(pending, dir)
      modifies frontier
      ensures frontier.Valid() && frontier.Contents() == old(frontier.Contents()) + SetFor(env, scoring, dir, depth, pending)
      ensures known == PathsOf(env.template) + (pending - PathsOf(env.template)).Keys + NmapPaths(env, dir)
      ensures leftovers == |pending - PathsOf(env.template)|
    {
      hide Frontier.Valid, Frontier.Contents, Folded, Leftovers, NmapCandidates, PathsOf, NmapPaths, FromTemplate;
      FoldedFacts(env, scoring, dir, depth, env.template, pending);
      var left, paths := PushTemplate(dir, depth, pending);
      PushLeftovers(left);
      var nmap := PushNmap(dir, depth);
      known, leftovers := paths + left.Keys + nmap, |left|;
    }

    method Open(dir: string)
      requires frontier.Valid() && dir in dirs && PendingOk(dirs[dir].pending, dir)
      modifies this`dirs, this`calibratingOrder, this`log, frontier
      ensures frontier.Valid()
      ensures var r := old(dirs)[dir];
              Books() == Opened(old(Books()), dir, SetFor(env, scoring, dir, r.depth, r.pending),
                                BudgetFor(env, dir, |r.pending - PathsOf(env.template)|))
    {
      hide Frontier.Valid, Frontier.Contents, Opened, SetFor, BudgetFor, PathsOf, WithoutFirst, PendingOk;
      ghost var b := Books();
      RemoveCalibratingDir(dir);
      FillDirectory(dir, b);
    }

    method OpenScan(dir: string)
      requires frontier.Valid() && dir in Abs().book.dirs && PendingOk(Abs().book.dirs[dir].pending, dir)
      modifies this`dirs, this`calibratingOrder, this`log, frontier
      ensures frontier.Valid()
      ensures var s := old(Abs()); var r := s.book.dirs[dir];
              Abs() == s.(book := Opened(s.book, dir, SetFor(env, s.scoring, dir, r.depth, r.pending),
                                         BudgetFor(env, dir, |r.pending - PathsOf(env.template)|)))
    {
      hide Frontier.Valid, Frontier.Contents, Opened, SetFor, BudgetFor, PathsOf, PendingOk;
      Open(dir);
    }

    /** pushCandidates and the end of the calibration: the directory leaves the calibrating order, and its
        whole candidate set is queued, counted and budgeted for. */
    method OpenDirectory(dir: string)
      requires frontier.Valid() && dir in Abs().book.dirs && PendingOk(Abs().book.dirs[dir].pending, dir)
      modifies this`dirs, this`calibratingOrder, this`log, this`swept, frontier
      ensures frontier.Valid() && Abs() == ScanModel.PushCandidates(env, old(Abs()), dir)
    {
      hide Frontier.Valid, Frontier.Contents, Abs, SameHistory, SameClock, Opened, SetFor, BudgetFor, PathsOf, PendingOk, ScanModel.PushCandidates;
      OpensAs(env, Abs(), dir);
      OpenScan(dir);
      NoteNmap(dir);
    }

    method NoteNmap(dir: string)
      modifies this`swept
      ensures Abs() == old(Abs()).(swept := old(Abs()).swept && (dir != "" || env.nmap == []))
    {
      hide Frontier.Valid, Frontier.Contents;
      swept := swept && (dir != "" || env.nmap == []);
    }

    /** The candidate set of a directory that has left the calibrating order: queued, counted, budgeted for. */
    method FillDirectory(dir: string, ghost b: Book)
      requires frontier.Valid() && dir in dirs && PendingOk(dirs[dir].pending, dir)
      requires Books() == b.(order := WithoutFirst(b.order, dir))
      modifies this`dirs, this`log, frontier
      ensures frontier.Valid()
      ensures var r := b.dirs[dir];
              Books() == Opened(b, dir, SetFor(env, scoring, dir, r.depth, r.pending),
                                BudgetFor(env, dir, |r.pending - PathsOf(env.template)|))
    {
      hide Frontier.Valid, Frontier.Contents, Opened, SetFor, BudgetFor, PathsOf, NmapPaths, Keys, Counted, WithoutFirst, PendingOk;
      var ds := dirs[dir];
      OpenedIs(env, scoring, b, dir);
      var known, leftovers := PushCandidates(dir, ds.depth, ds.pending);
      dirs := dirs[dir := Counted(env, dir, ds, known, leftovers)];
      log := log.(pushed := log.pushed + Keys(SetFor(env, scoring, dir, ds.depth, ds.pending)), openedWith := log.openedWith[dir := ds.pending.Keys]);
    }

    /** allDirsDone. */
    method AllDirsDone() returns (done: bool)
      ensures done <==> forall d :: d in dirs ==> dirs[d].phase == Done
    {
      var left := dirs.Keys;
      while left != {}
        invariant left <= dirs.Keys && forall d :: d in dirs && d !in left ==> dirs[d].phase == Done
        decreases left
      {
        var d :| d in left;
        if dirs[d].phase != Done { return false; }
        left := left - {d};
      }
      done := true;
    }
  }

  /** What dispatchLoop can receive, besides batches of seeds. */
  datatype Message =
    | ProbeResult(dir: string)
    | FetchResult(url: string, body: Body)
    | RealResult(cand: Candidate, response: Response, now: real)
    | FetchRequest(url: string)
    | ProducerEnded
    | Weigh(pattern: string, kind: OverrideKind, factor: real)
    | PinDown(pattern: string)
    | ShutOut(pattern: string)

  /** Results come back for what is in flight, no earlier than the last sweep; only running producers end. */
  ghost predicate Arrives(env: Env, s: Scan, m: Message)
  {
    match m
    case ProbeResult(dir) => dir in s.book.probes
    case FetchResult(url, body) => url in s.harvestFlying
    case RealResult(c, response, now) => c in s.book.flying && Timed(env, s, now)
    case ProducerEnded => s.producers > 0
    case Weigh(pattern, kind, factor) => kind != Exclude
    case _ => true
  }

  ghost predicate Delivers(m: Message, e: Event)
  {
    match m
    case ProbeResult(dir) => e == ProbeBackAt(dir)
    case FetchResult(url, body) => e == FetchBack(url, body)
    case RealResult(c, response, now) => e == ResultBack(c, response, now)
    case FetchRequest(url) => e == FetchAsked(url)
    case ProducerEnded => e == ProducerDone
    case Weigh(pattern, kind, factor) => e == Weighted(pattern, kind, factor)
    case PinDown(pattern) => e.Pinned? && e.pattern == pattern
    case ShutOut(pattern) => e.Barred? && e.pattern == pattern
  }

  lemma RejectedDirs(g: Gate, b: Book, cs: seq<Candidate>)
    requires Rejected(g, b, cs)
    ensures forall i :: 0 <= i < |cs| ==> cs[i].parentDir in b.dirs
  {
    hide JudgedBy;
    forall i | 0 <= i < |cs| ensures cs[i].parentDir in b.dirs { assert Is(g, b, cs[i], Throw); }
  }

  lemma ProbedOk(b: Book, d: string)
    requires Inv(b) && d in b.probes
    ensures d in b.dirs && PendingOk(b.dirs[d].pending, d)
  {
    assert DirOk(b, d);
  }

  /** The gate the object goes by, in a scan with these overrides and this streak. */
  ghost function GateOf(env: Env, s: Scan): Gate
  {
    Gate(env, s.scoring.overrides, s.lastDir, s.streak)
  }

  /** From s to t these were thrown away and r was sent out, with nothing else changed. */
  ghost predicate Served(env: Env, s: Scan, thrown: seq<Candidate>, r: Option<Candidate>, t: Scan)
  {
    && Rejected(GateOf(env, s), s.book, thrown)
    && (forall i :: 0 <= i < |thrown| ==> thrown[i].parentDir in s.book.dirs)
    && Outcome(GateOf(env, s), DiscardedAll(s.book, thrown, true), r, t.book, t.lastDir, t.streak)
    && t == s.(book := t.book, lastDir := t.lastDir, streak := t.streak)
  }

  /** d is the i-th calibrating directory, and those before it have no probe left to send. */
  ghost predicate FirstAt(order: seq<string>, dirs: map<string, DirRec>, i: nat, d: string)
  {
    i < |order| && order[i] == d && forall j :: 0 <= j < i ==> order[j] in dirs && dirs[order[j]].probeQueue == []
  }

  // ---- The search for a candidate -------------------------------------------------------

  datatype Verdict = Throw | Wait | Go

  /** Everything but the directory that decides on a candidate. */
  datatype Gate = Gate(env: Env, overrides: seq<Override>, lastDir: string, streak: nat)

  function JudgedBy(g: Gate, r: DirRec, c: Candidate): Verdict
  {
    if Rejects(g.env, g.overrides, r, c) then Throw
    else if g.env.subtreeBurst > 0 && c.parentDir == g.lastDir && g.streak >= g.env.subtreeBurst then Wait
    else Go
  }

  ghost predicate Is(g: Gate, b: Book, c: Candidate, v: Verdict)
  {
    c.parentDir in b.dirs && JudgedBy(g, b.dirs[c.parentDir], c) == v
  }

  /** Every one of them was queued, and could not go out. */
  ghost predicate Rejected(g: Gate, b: Book, cs: seq<Candidate>)
  {
    multiset(cs) <= b.queue && forall i :: 0 <= i < |cs| ==> Is(g, b, cs[i], Throw)
  }

  /** What is sent out may go; or it waits with everything else that is queued. If nothing is sent,
      nothing is queued. */
  ghost predicate Outcome(g: Gate, b: Book, r: Option<Candidate>, after: Book, lastDir: string, streak: nat)
  {
    if r.None? then b.queue == multiset{} && after == b && lastDir == g.lastDir && streak == g.streak
    else
      && Chosen(g, b, r.value) && after == Sent(b, r.value)
      && lastDir == r.value.parentDir && streak == if lastDir == g.lastDir then g.streak + 1 else 1
  }

  ghost predicate Chosen(g: Gate, b: Book, c: Candidate)
  {
    && c in b.queue && c.parentDir in b.dirs
    && (Is(g, b, c, Go) || forall x :: x in b.queue ==> Is(g, b, x, Wait))
  }

  /** No queued candidate scores higher, except those waiting for another directory's turn. */
  ghost predicate Best(g: Gate, b: Book, c: Candidate)
  {
    forall x :: x in b.queue ==> x.score <= c.score || (Is(g, b, x, Wait) && !Is(g, b, c, Wait))
  }

  ghost predicate Searching(g: Gate, b0: Book, b: Book, thrown: seq<Candidate>, held: seq<Candidate>)
  {
    && Rejected(g, b0, thrown) && b == DiscardedAll(b0, thrown, true) && Inv(b) && SameGates(b0.dirs, b.dirs)
    && b.queue == b0.queue - multiset(thrown)
    && forall h :: h in held ==> Is(g, b, h, Wait)
  }

  ghost predicate Ranked(queue: multiset<Candidate>, held: seq<Candidate>)
  {
    && (forall x, h :: x in queue && h in held ==> x.score <= h.score)
    && forall h :: h in held ==> h.score <= held[0].score
  }

  lemma SearchStarts(g: Gate, b: Book)
    requires Inv(b)
    ensures Searching(g, b, b, [], []) && Ranked(b.queue, [])
  {
    hide Inv, JudgedBy;
  }

  lemma SearchIsLive(g: Gate, b0: Book, b: Book, thrown: seq<Candidate>, held: seq<Candidate>, c: Candidate)
    requires Searching(g, b0, b, thrown, held) && c in b.queue
    ensures c.parentDir in b.dirs && b.dirs[c.parentDir].phase == Scanning
    ensures forall i :: 0 <= i < |thrown| ==> thrown[i].parentDir in b0.dirs
  {
    hide Inv, JudgedBy;
    QueuedIsScanning(b, c);
  }

  lemma SameVerdict(g: Gate, a: Book, b: Book, c: Candidate, v: Verdict)
    requires SameGates(a.dirs, b.dirs)
    ensures Is(g, b, c, v) == Is(g, a, c, v)
  {
    if c.parentDir in a.dirs {
      SameJudged(g, a.dirs[c.parentDir], b.dirs[c.parentDir], c);
    }
  }

  lemma SameJudged(g: Gate, a: DirRec, b: DirRec, c: Candidate)
    requires b.capped == a.capped && b.dispatched == a.dispatched && b.budget == a.budget
    ensures JudgedBy(g, b, c) == JudgedBy(g, a, c)
  {
    hide Excluded;
  }

  lemma DiscardsMore(b0: Book, thrown: seq<Candidate>, c: Candidate)
    requires c.parentDir in b0.dirs && forall i :: 0 <= i < |thrown| ==> thrown[i].parentDir in b0.dirs
    ensures forall i :: 0 <= i < |thrown + [c]| ==> (thrown + [c])[i].parentDir in b0.dirs
    ensures var b := DiscardedAll(b0, thrown, true);
            DiscardedAll(b0, thrown + [c], true) == Discarded(b, c, b.dirs[c.parentDir].dispatched >= b.dirs[c.parentDir].budget)
  {
    hide Discarded;
    assert (thrown + [c])[..|thrown|] == thrown;
  }

  lemma OneLess(q0: multiset<Candidate>, thrown: seq<Candidate>, c: Candidate)
    requires multiset(thrown) <= q0 && c in q0 - multiset(thrown)
    ensures multiset(thrown + [c]) <= q0 && q0 - multiset(thrown) - multiset{c} == q0 - multiset(thrown + [c])
  {
    assert multiset(thrown + [c]) == multiset(thrown) + multiset{c};
  }

  lemma RejectsMore(g: Gate, b0: Book, thrown: seq<Candidate>, c: Candidate)
    requires Rejected(g, b0, thrown) && c in b0.queue - multiset(thrown) && Is(g, b0, c, Throw)
    ensures Rejected(g, b0, thrown + [c])
  {
    hide Is;
    OneLess(b0.queue, thrown, c);
  }

  lemma SearchThrows(g: Gate, b0: Book, b: Book, thrown: seq<Candidate>, held: seq<Candidate>, c: Candidate)
    requires Searching(g, b0, b, thrown, held) && c in b.queue && Is(g, b, c, Throw)
    ensures forall i :: 0 <= i < |thrown + [c]| ==> (thrown + [c])[i].parentDir in b0.dirs
    ensures var b' := DiscardedAll(b0, thrown + [c], true);
            && b' == Discarded(b, c, b.dirs[c.parentDir].dispatched >= b.dirs[c.parentDir].budget)
            && Searching(g, b0, b', thrown + [c], held) && b'.queue == b.queue - multiset{c}
  {
    hide Inv, JudgedBy, Discarded, DiscardedAll, SameGates;
    SameVerdict(g, b0, b, c, Throw);
    DiscardsMore(b0, thrown, c);
    RejectsMore(g, b0, thrown, c);
    var over := b.dirs[c.parentDir].dispatched >= b.dirs[c.parentDir].budget;
    DiscardKeeps(b, c, over);
    DiscardRest(b, c, over);
    OneLess(b0.queue, thrown, c);
    GatesChain(b0.dirs, b.dirs, Discarded(b, c, over).dirs);
    forall h | h in held ensures Is(g, Discarded(b, c, over), h, Wait) {
      SameVerdict(g, b, Discarded(b, c, over), h, Wait);
    }
  }

  lemma SearchHolds(g: Gate, b0: Book, b: Book, thrown: seq<Candidate>, held: seq<Candidate>, c: Candidate)
    requires Searching(g, b0, b, thrown, held) && Is(g, b, c, Wait)
    ensures Searching(g, b0, b, thrown, held + [c]) && multiset(held + [c]) == multiset(held) + multiset{c}
  {
    hide Inv, Is, Rejected, DiscardedAll, SameGates;
  }

  lemma SearchFinds(g: Gate, b0: Book, b: Book, thrown: seq<Candidate>, held: seq<Candidate>, c: Candidate)
    requires Searching(g, b0, b, thrown, held) && c in b.queue && Is(g, b, c, Go)
    ensures Rejected(g, b0, thrown) && b == DiscardedAll(b0, thrown, true) && Chosen(g, b, c)
  {
    hide Inv, JudgedBy, SameGates;
  }

  lemma SearchEnds(g: Gate, b0: Book, b: Book, thrown: seq<Candidate>)
    requires Searching(g, b0, b, thrown, []) && b.queue == multiset{}
    ensures Rejected(g, b0, thrown) && b == DiscardedAll(b0, thrown, true) && Outcome(g, b, None, b, g.lastDir, g.streak)
  {
    hide Inv, Is, SameGates;
  }

  lemma SearchServes(g: Gate, b0: Book, b: Book, thrown: seq<Candidate>, held: seq<Candidate>)
    requires Searching(g, b0, b, thrown, held) && held != [] && b.queue == multiset(held)
    ensures Rejected(g, b0, thrown) && b == DiscardedAll(b0, thrown, true) && Chosen(g, b, held[0])
    ensures b.queue == multiset(held[1..]) + multiset{held[0]}
  {
    hide Inv, JudgedBy, SameGates;
    assert held[0] in held && held == [held[0]] + held[1..];
  }

  lemma Rejoined(b: Book, rest: multiset<Candidate>, held: seq<Candidate>, c: Candidate)
    requires b.queue == rest + multiset{c} + multiset(held)
    ensures b.(queue := rest).(queue := rest + multiset(held) + multiset{c}) == b
  {
    assert rest + multiset(held) + multiset{c} == b.queue;
  }

  /** What was found, or else the first one held, goes out. */
  lemma ChosenDir(g: Gate, b: Book, c: Candidate)
    requires Chosen(g, b, c)
    ensures c.parentDir in b.dirs
  {
  }

  lemma SearchDecides(g: Gate, b0: Book, b: Book, thrown: seq<Candidate>, found: Option<Candidate>, held: seq<Candidate>,
                      rest: multiset<Candidate>, greedy: bool)
    requires Searching(g, b0, b, thrown, held) && (found.Some? || held != [])
    requires found.None? ==> rest == multiset{} && b.queue == multiset(held)
    requires found.Some? ==> Is(g, b, found.value, Go) && b.queue == rest + multiset{found.value} + multiset(held)
    requires greedy ==> Ranked(rest, held) && (found.Some? ==> forall x :: x in rest ==> x.score <= found.value.score)
    ensures var (c, back) := if found.Some? then (found.value, held) else (held[0], held[1..]);
            && Rejected(g, b0, thrown) && b == DiscardedAll(b0, thrown, true) && Chosen(g, b, c) && (greedy ==> Best(g, b, c))
            && b.(queue := rest).(queue := rest + multiset(back) + multiset{c}) == b
  {
    hide Inv, Is, Rejected, Chosen, Best, Searching, Ranked, DiscardedAll;
    if found.Some? {
      SearchFinds(g, b0, b, thrown, held, found.value);
      if greedy { BestFound(g, b0, b, thrown, held, rest, found.value); }
      Rejoined(b, rest, held, found.value);
    } else {
      SearchServes(g, b0, b, thrown, held);
      if greedy { BestServed(g, b, held, rest); }
      Rejoined(b, rest, held[1..], held[0]);
    }
  }

  lemma DrawnOne(env: Env, dir: string, ext: string, k: nat, i: nat, queue: seq<string>)
    requires i < N_PROBES
    ensures var p := env.token(dir, k + i) + ext;
            queue + ProbesOf(env, dir, ext, k, i)
            == (if env.inScope(Url(env, dir, p)) then queue + [p] else queue) + ProbesOf(env, dir, ext, k, i + 1)
  {
    hide Url;
    var p, rest := env.token(dir, k + i) + ext, ProbesOf(env, dir, ext, k, i + 1);
    if env.inScope(Url(env, dir, p)) {
      assert ProbesOf(env, dir, ext, k, i) == [p] + rest;
      assert queue + ([p] + rest) == queue + [p] + rest;
    } else {
      assert ProbesOf(env, dir, ext, k, i) == [] + rest;
    }
  }

  lemma DrawnNone(env: Env, dir: string, ext: string, k: nat, queue: seq<string>)
    ensures queue + ProbesOf(env, dir, ext, k, N_PROBES) == queue
  {
  }

  lemma DrawnExt(env: Env, dir: string, exts: seq<string>, e: nat, queue: seq<string>)
    requires e < |exts|
    ensures queue + Probes(env, dir, exts, e) == queue + ProbesOf(env, dir, exts[e], N_PROBES * e, 0) + Probes(env, dir, exts, e + 1)
  {
  }

  lemma DrawnAll(env: Env, dir: string, exts: seq<string>, queue: seq<string>)
    ensures queue + Probes(env, dir, exts, |exts|) == queue
  {
  }

  /** The record of a directory whose candidates have been pushed: totals and budget, or done at once. */
  function Counted(env: Env, dir: string, ds: DirRec, known: set<string>, leftovers: nat): DirRec
  {
    var total := |env.template| + leftovers + if dir == "" then |env.nmap| else 0;
    var r := ds.(known := known, pending := map[], total := total);
    if total == 0 then r.(phase := Done) else r.(phase := Scanning, budget := BudgetFor(env, dir, leftovers))
  }

  lemma KeysOutside(pending: map<string, Candidate>, gone: set<string>)
    ensures gone + (pending - gone).Keys == gone + pending.Keys
  {
  }

  /** The known paths are the template's, the left-over seeds' and the nmap ones. */
  lemma SetKnown(env: Env, s: Scoring, d: string, depth: int, pending: map<string, Candidate>)
    requires PendingOk(pending, d)
    ensures (set c | c in SetFor(env, s, d, depth, pending) :: c.path)
            == PathsOf(env.template) + (pending - PathsOf(env.template)).Keys + NmapPaths(env, d)
  {
    hide SetFor, PathsOf, NmapPaths;
    var known := set c | c in SetFor(env, s, d, depth, pending) :: c.path;
    forall p ensures p in known <==> p in PathsOf(env.template) + pending.Keys + NmapPaths(env, d) {
      SetForPaths(env, s, d, depth, pending, p);
    }
    KeysOutside(pending, PathsOf(env.template));
  }

  lemma SetSize(env: Env, s: Scoring, d: string, depth: int, pending: map<string, Candidate>)
    requires PendingOk(pending, d)
    ensures |SetFor(env, s, d, depth, pending)|
            == |env.template| + |pending - PathsOf(env.template)| + (if d == "" then |env.nmap| else 0)
  {
    hide Leftovers, PathsOf, FromTemplate;
    var folded := Folded(env, s, d, depth, env.template, pending);
    FoldedFacts(env, s, d, depth, env.template, pending);
    LeftoverCount(env, s, d, pending, PathsOf(env.template));
    Sizes(folded.0, Leftovers(env, s, folded.1), NmapCandidates(env, depth, d));
  }

  /** The record of a directory just opened. */
  lemma RecordOpened(env: Env, s: Scoring, b: Book, d: string)
    requires d in b.dirs && PendingOk(b.dirs[d].pending, d)
    ensures var r := b.dirs[d]; var left := r.pending - PathsOf(env.template);
            Opened(b, d, SetFor(env, s, d, r.depth, r.pending), BudgetFor(env, d, |left|)).dirs
            == b.dirs[d := Counted(env, d, r, PathsOf(env.template) + left.Keys + NmapPaths(env, d), |left|)]
  {
    hide SetFor, BudgetFor, PathsOf, NmapPaths, Counted, Opened;
    var r := b.dirs[d];
    var left := r.pending - PathsOf(env.template);
    SetKnown(env, s, d, r.depth, r.pending);
    SetSize(env, s, d, r.depth, r.pending);
    CountedAs(env, b, d, SetFor(env, s, d, r.depth, r.pending), PathsOf(env.template) + left.Keys + NmapPaths(env, d), |left|);
  }

  lemma CountedAs(env: Env, b: Book, d: string, cands: multiset<Candidate>, known: set<string>, leftovers: nat)
    requires d in b.dirs && known == (set c | c in cands :: c.path)
    requires |cands| == |env.template| + leftovers + (if d == "" then |env.nmap| else 0)
    ensures Opened(b, d, cands, BudgetFor(env, d, leftovers)).dirs == b.dirs[d := Counted(env, d, b.dirs[d], known, leftovers)]
  {
    hide BudgetFor;
  }

  lemma OpenedIs(env: Env, s: Scoring, b: Book, d: string)
    requires d in b.dirs && PendingOk(b.dirs[d].pending, d)
    ensures var r := b.dirs[d]; var left := r.pending - PathsOf(env.template); var cands := SetFor(env, s, d, r.depth, r.pending);
            var known := PathsOf(env.template) + left.Keys + NmapPaths(env, d);
            Opened(b, d, cands, BudgetFor(env, d, |left|))
            == Book(b.dirs[d := Counted(env, d, r, known, |left|)], WithoutFirst(b.order, d), b.queue + cands, b.flying, b.probes,
                    b.log.(pushed := b.log.pushed + Keys(cands), openedWith := b.log.openedWith[d := r.pending.Keys]))
  {
    hide SetFor, BudgetFor, PathsOf, NmapPaths, Counted, Keys;
    RecordOpened(env, s, b, d);
  }

  lemma FoldStarts(env: Env, s: Scoring, d: string, depth: int, pending: map<string, Candidate>)
    ensures Folded(env, s, d, depth, env.template[..0], pending) == ([], pending) && PathsOf(env.template[..0]) == {}
  {
  }

  lemma FoldGoesOn(env: Env, s: Scoring, d: string, depth: int, template: seq<Entry>, pending: map<string, Candidate>, i: nat)
    requires i < |template|
    ensures PathsOf(template[..i + 1]) == PathsOf(template[..i]) + {template[i].path}
    ensures var acc, next := Folded(env, s, d, depth, template[..i], pending), Folded(env, s, d, depth, template[..i + 1], pending);
            var c := TemplateCandidate(env, d, depth, template[i]);
            && c.path == template[i].path
            && next.1 == (if c.path in acc.1 then acc.1 - {c.path} else acc.1)
            && multiset(next.0) == multiset(acc.0)
                 + multiset{Scored(env, s, if c.path in acc.1 then Merged(c, acc.1[c.path]) else c)}
  {
    hide PathsOf, Scored, Merged;
    assert template[..i + 1][..i] == template[..i];
    PathsSnoc(template[..i + 1]);
    FoldedEntry(env, s, d, depth, template[i], Folded(env, s, d, depth, template[..i], pending));
  }

  lemma FoldedEntry(env: Env, s: Scoring, d: string, depth: int, e: Entry, acc: (seq<Candidate>, map<string, Candidate>))
    ensures var next := FoldEntry(env, s, d, depth, e, acc);
            var c := TemplateCandidate(env, d, depth, e);
            && c.path == e.path
            && next.1 == (if c.path in acc.1 then acc.1 - {c.path} else acc.1)
            && multiset(next.0) == multiset(acc.0)
                 + multiset{Scored(env, s, if c.path in acc.1 then Merged(c, acc.1[c.path]) else c)}
  {
    hide Scored, Merged;
  }

  /** mergeSeedCandidate: the larger prior, both provenances. */
  method MergeSeed(c: Candidate, seed: Candidate) returns (m: Candidate)
    ensures m == Merged(c, seed)
  {
    m := c;
    if seed.basePrio > m.basePrio { m := m.(basePrio := seed.basePrio); }
    var provenance := UnionProvenance(m.provenance, seed.provenance);
    m := m.(provenance := provenance);
  }

  lemma OneLeftover(env: Env, s: Scoring, rest: map<string, Candidate>, p: string)
    requires p in rest && forall q :: q in rest ==> rest[q].path == q
    ensures multiset(Leftovers(env, s, rest)) == multiset(Leftovers(env, s, rest - {p})) + multiset{Scored(env, s, rest[p])}
  {
    hide Leftovers, Scored;
    LeftoverSplit(env, s, rest, p);
  }

  lemma NoLeftovers(env: Env, s: Scoring)
    ensures Leftovers(env, s, map[]) == {}
  {
  }

  /** Candidates generated one after the other. */
  function GeneratedAll(env: Env, s: Scoring, b: Book, d: string, cs: seq<Candidate>): Book
  {
    if cs == [] then b
    else ScanModel.Generated(env, s, GeneratedAll(env, s, b, d, cs[..|cs| - 1]), d, cs[|cs| - 1])
  }

  /** The generation loop is the model's EnqueueAll. */
  lemma {:induction false} GeneratedIsEnqueued(env: Env, s: Scan, d: string, cs: seq<Candidate>)
    ensures EnqueueAll(env, s, d, cs) == s.(book := GeneratedAll(env, s.scoring, s.book, d, cs))
  {
    hide ScanModel.Generated;
    if cs != [] {
      GeneratedIsEnqueued(env, s, d, cs[..|cs| - 1]);
    }
  }

  lemma SweptOut(env: Env, s: Scan, pattern: string, removed: seq<Candidate>, rest: multiset<Candidate>)
    requires s.book.queue == rest + multiset(removed)
    requires forall c :: c in removed ==> env.matches(pattern, c.parentDir, c.path)
    requires forall c :: c in rest ==> !env.matches(pattern, c.parentDir, c.path)
    ensures Swept(env, s, pattern, removed)
  {
    assert s.book.queue - multiset(removed) == rest;
  }

  /** The pick is queued under that key, if anything is. */
  ghost predicate Picked(queue: multiset<Candidate>, k: Key, pick: Candidate)
  {
    (pick in queue && KeyOf(pick) == k) || forall x :: x in queue ==> KeyOf(x) != k
  }

  lemma SomePick(queue: multiset<Candidate>, k: Key, c: Candidate) returns (pick: Candidate)
    ensures Picked(queue, k, pick)
  {
    pick := c;
    if x :| x in queue && KeyOf(x) == k { pick := x; }
  }

  lemma FreshPending(b: Book, d: string, depth: int, probes: seq<string>)
    ensures d in Started(b, d, depth, probes).dirs && PendingOk(Started(b, d, depth, probes).dirs[d].pending, d)
  {
  }

  lemma AgainPending(b: Book, d: string, probes: seq<string>)
    requires d in b.dirs
    ensures d in Restarted(b, d, probes).dirs && PendingOk(Restarted(b, d, probes).dirs[d].pending, d)
  {
  }

  lemma ReprioritizeKeeps(env: Env, s: Scan)
    ensures ScanModel.ReprioritizeIfChanged(env, s).book.dirs == s.book.dirs
    ensures ScanModel.ReprioritizeIfChanged(env, s).rootRefined == s.rootRefined
  {
    SweptDirsStay(env, s);
  }

  lemma SweptDirsStay(env: Env, s: Scan)
    ensures ScanModel.ReprioritizeIfChanged(env, s).book.dirs == s.book.dirs
  {
    hide Score;
  }

  lemma OpensAs(env: Env, s: Scan, d: string)
    requires d in s.book.dirs
    ensures var r := s.book.dirs[d];
            ScanModel.PushCandidates(env, s, d)
            == s.(book := Opened(s.book, d, SetFor(env, s.scoring, d, r.depth, r.pending),
                                 BudgetFor(env, d, |r.pending - PathsOf(env.template)|)),
                  swept := s.swept && (d != "" || env.nmap == []))
  {
    hide Opened, SetFor, BudgetFor, PathsOf, FromTemplate;
    var r := s.book.dirs[d];
    FoldedFacts(env, s.scoring, d, r.depth, env.template, r.pending);
  }

  /** What the novelty gate records. */
  function Recording(s: Scan, url: string, hash: int, confidence: real, provenance: string): Scan
  {
    if hash in s.seen then s.(seen := s.seen[hash := s.seen[hash] + [url]], findings := Aliased(s.findings, hash, url))
    else s.(seen := s.seen[hash := [url]], findings := s.findings + [Finding(url, hash, confidence, provenance, [])],
            book := s.book.(log := s.book.log.(novel := s.book.log.novel + 1)))
  }

  lemma TrappedDirs(b: Book, d: string, capped: bool, wildcard: bool)
    requires d in b.dirs
    ensures Trapped(b, d, capped, wildcard).dirs.Keys == b.dirs.Keys
  {
  }

  lemma HitDirs(env: Env, s: Scan, c: Candidate, r: Response, now: real)
    requires r.Answered?
    ensures s.book.dirs.Keys <= ScanModel.HandleHit(env, s, c, r, now).book.dirs.Keys
  {
    hide ScanModel.LearnFromHit, ScanModel.EnqueueChild, ScanModel.WithinLimits, Aliased, Url;
  }

  lemma HarvestDirs(env: Env, s: Scan, url: string, body: Body)
    ensures ScanModel.HarvestResponse(env, s, url, body).book == s.book
  {
  }

  /** Placeholder picks, where nothing has been staged yet. */
  function NoPicks(segs: seq<string>): (picks: seq<Candidate>)
    ensures |picks| == |segs|
  {
    seq(|segs|, i => Candidate("", TypeDir, 0.0, 0.0, 0, "", "", []))
  }

  /** A chain reads no pick beyond its length. */
  lemma {:induction false} ChainPicks(env: Env, s: Scan, segs: seq<string>, prio: real, provenance: string,
                                      p: seq<Candidate>, q: seq<Candidate>, n: nat)
    requires n < |segs| && |p| == |segs| && |q| == |segs| && p[..n] == q[..n]
    ensures ScanModel.EnsureDirChain(env, s, segs, prio, provenance, p, n) == ScanModel.EnsureDirChain(env, s, segs, prio, provenance, q, n)
  {
    hide ChainStep, SameClock;
    if n > 0 {
      assert p[..n][..n - 1] == p[..n - 1] && q[..n][..n - 1] == q[..n - 1];
      assert p[n - 1] == p[..n][n - 1] == q[..n][n - 1] == q[n - 1];
      ChainPicks(env, s, segs, prio, provenance, p, q, n - 1);
    }
  }

  lemma OrderGoesOn(order: seq<string>, i: nat, d: string)
    requires i < |order|
    ensures order[..i] + WithoutFirst(order[i..], d)
            == if order[i] == d then order[..i] + order[i + 1..] else order[..i + 1] + WithoutFirst(order[i + 1..], d)
  {
    assert order[i..][1..] == order[i + 1..];
    if order[i] != d {
      assert order[..i] + ([order[i]] + WithoutFirst(order[i + 1..], d)) == order[..i + 1] + WithoutFirst(order[i + 1..], d);
    }
  }

  lemma NoneToRemove(order: seq<string>, d: string)
    ensures order[..|order|] + WithoutFirst(order[|order|..], d) == order
  {
  }

  lemma AliasedNext(findings: seq<Finding>, i: nat, hash: int, url: string)
    requires i < |findings| && Aliased(findings, hash, url) == findings[..i] + Aliased(findings[i..], hash, url)
    ensures if findings[i].hash == hash
            then Aliased(findings, hash, url) == findings[i := findings[i].(aliases := findings[i].aliases + [url])]
            else Aliased(findings, hash, url) == findings[..i + 1] + Aliased(findings[i + 1..], hash, url)
  {
    assert findings[i..][1..] == findings[i + 1..];
  }

  lemma AliasedNone(hash: int, url: string)
    ensures Aliased([], hash, url) == []
  {
  }

  method GenerateFor(c: Candidate) returns (out: seq<Candidate>)
    ensures out == Generate(c)
  {
    out := [];
    if c.kind == TypeFile {
      out := BackupsFor(c);
    }
    var siblings := SiblingsFor(c);
    out := out + siblings;
  }

  function FirstOf(r: DirRec): string
  {
    if r.probeQueue == [] then "" else r.probeQueue[0]
  }

  /** Reopening a done directory and then adding to it is adding to it. */
  lemma ReopenedAdds(b: Book, d: string, c: Candidate)
    requires d in b.dirs && b.dirs[d].phase != Calibrating
    ensures Added(b.(dirs := b.dirs[d := b.dirs[d].(phase := Scanning)]), d, c) == Added(b, d, c)
  {
    var r := b.dirs[d];
    var b1 := b.(dirs := b.dirs[d := r.(phase := Scanning)]);
    assert Added(b1, d, c).dirs == Added(b, d, c).dirs;
  }

  lemma OutcomeIs(g: Gate, b: Book, c: Candidate)
    requires Chosen(g, b, c)
    ensures Outcome(g, b, Some(c), Sent(b, c), c.parentDir, if c.parentDir == g.lastDir then g.streak + 1 else 1)
  {
    hide Chosen, Sent;
  }

  /** Taking the best one off, whether it is then held back or not, leaves the rest ranked. */
  lemma RankedStays(before: multiset<Candidate>, after: multiset<Candidate>, held: seq<Candidate>, c: Candidate)
    requires Ranked(before, held) && before == after + multiset{c} && forall x :: x in before ==> x.score <= c.score
    ensures Ranked(after, held) && Ranked(after, held + [c])
  {
    assert c in before && forall x :: x in after ==> x in before;
    assert held != [] ==> (held + [c])[0] == held[0] && held[0] in held;
  }

  lemma BestFound(g: Gate, b0: Book, b: Book, thrown: seq<Candidate>, held: seq<Candidate>, rest: multiset<Candidate>, c: Candidate)
    requires Searching(g, b0, b, thrown, held) && Is(g, b, c, Go)
    requires b.queue == rest + multiset{c} + multiset(held) && forall x :: x in rest + multiset{c} ==> x.score <= c.score
    ensures Best(g, b, c)
  {
    hide Inv, JudgedBy, Rejected, DiscardedAll, SameGates;
    forall x | x in b.queue ensures x.score <= c.score || Is(g, b, x, Wait) {
      assert x in rest + multiset{c} || x in held;
    }
  }

  lemma BestServed(g: Gate, b: Book, held: seq<Candidate>, rest: multiset<Candidate>)
    requires held != [] && b.queue == multiset(held) && Ranked(rest, held)
    ensures Best(g, b, held[0])
  {
    hide Is;
  }

  /** The part of DiscardedAll that applyExclude's loop builds up. */
  ghost predicate AccountsFor(b: Book, cs: seq<Candidate>, dirs: map<string, DirRec>, log: Ledger)
  {
    && (forall i :: 0 <= i < |cs| ==> cs[i].parentDir in b.dirs)
    && dirs == DiscardedAll(b, cs, false).dirs && log == DiscardedAll(b, cs, false).log
  }

  lemma AccountedBook(b: Book, cs: seq<Candidate>, dirs: map<string, DirRec>, log: Ledger)
    requires AccountsFor(b, cs, dirs, log)
    ensures forall i :: 0 <= i < |cs| ==> cs[i].parentDir in b.dirs
    ensures DiscardedAll(b, cs, false) == b.(dirs := dirs, log := log, queue := b.queue - multiset(cs))
  {
    hide SameGates;
    DiscardedRest(b, cs, false);
  }

  lemma NothingSwept(b: Book)
    ensures AccountsFor(b, [], b.dirs, b.log)
  {
  }

  lemma OneMoreSwept(b: Book, cs: seq<Candidate>, dirs: map<string, DirRec>, log: Ledger)
    requires cs != [] && cs[|cs| - 1].parentDir in b.dirs && AccountsFor(b, cs[..|cs| - 1], dirs, log)
    ensures var c := cs[|cs| - 1];
            && c.parentDir in dirs
            && AccountsFor(b, cs, dirs[c.parentDir := Accounted(dirs[c.parentDir])],
                           log.(dropped := log.dropped + multiset{KeyOf(c)}))
  {
    hide Accounted;
    SweptMore(b, cs);
  }

  lemma SweptMore(b: Book, cs: seq<Candidate>)
    requires cs != [] && forall i :: 0 <= i < |cs| ==> cs[i].parentDir in b.dirs
    ensures var n := |cs| - 1; var b1 := DiscardedAll(b, cs[..n], false); var d := cs[n].parentDir;
            && DiscardedAll(b, cs, false).dirs == b1.dirs[d := Accounted(b1.dirs[d])]
            && DiscardedAll(b, cs, false).log == b1.log.(dropped := b1.log.dropped + multiset{KeyOf(cs[n])})
  {
    hide Accounted;
    var b1 := DiscardedAll(b, cs[..|cs| - 1], false);
    PrunedNot(b1.dirs[cs[|cs| - 1].parentDir]);
  }

  lemma PrunedWhen(r: DirRec)
    ensures Accounted(r.(pruned := true)) == Accounted(r).(pruned := true)
    ensures r.pruned ==> Accounted(r) == Accounted(r).(pruned := true)
    ensures Accounted(r).pruned == r.pruned
  {
  }

  lemma PrunedNot(r: DirRec)
    ensures Accounted(r).(pruned := r.pruned || false) == Accounted(r)
  {
  }
}
