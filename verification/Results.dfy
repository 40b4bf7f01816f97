/** What a result does besides the books: what is learned and found, what that queues, and which answers and pages are mined. */
module Results {
  import opened ScanTypes
  import opened Counting
  import opened Text
  import opened Provenance
  import opened Paths
  import opened Generation
  import opened Accounting
  import opened Invariants
  import opened ScanModel
  import opened Soundness
  import opened Runs
  import opened Theorems
  import opened Flow
  import opened Progress
  import opened Growth
  import opened Gates
  import Landing

  /** The condition for a result to be learned from. */
  predicate Teaches(env: Env, s: Scan, c: Candidate, r: Response)
  {
    && r.Answered? && r.hit && r.hash !in s.seen && r.confidence >= env.learnMinConf
    && c.parentDir in s.book.dirs && !s.book.dirs[c.parentDir].wildcard
    && (c.parentDir in s.spaDirs ==> !s.spaDirs[c.parentDir])
  }

  function PathsIn(cs: seq<Candidate>): set<string>
  {
    set i | 0 <= i < |cs| :: cs[i].path
  }

  lemma PathsInSnoc(cs: seq<Candidate>)
    requires cs != []
    ensures PathsIn(cs) == PathsIn(cs[..|cs| - 1]) + {cs[|cs| - 1].path}
  {
    var n := |cs| - 1;
    forall p | p in PathsIn(cs) ensures p in PathsIn(cs[..n]) + {cs[n].path} {
      var i :| 0 <= i < |cs| && cs[i].path == p;
      if i < n { assert cs[..n][i].path == p; }
    }
    forall p | p in PathsIn(cs[..n]) ensures p in PathsIn(cs) {
      var i :| 0 <= i < n && cs[..n][i].path == p;
      assert cs[i].path == p;
    }
    assert cs[n].path in PathsIn(cs);
  }

  /** From a to b these paths became known, each new one counted and budgeted for once. */
  predicate Learned(a: DirRec, b: DirRec, paths: set<string>)
  {
    && b.known == a.known + paths && b.total == a.total + |paths - a.known| && b.budget == a.budget + |paths - a.known|
    && b.phase == a.phase && b.capped == a.capped && b.wildcard == a.wildcard
  }

  lemma OneMoreLearned(a: DirRec, b: DirRec, r: DirRec, paths: set<string>, p: string)
    requires Learned(a, b, paths)
    requires if p in b.known then r == b
             else r.known == b.known + {p} && r.total == b.total + 1 && r.budget == b.budget + 1
                  && r.phase == b.phase && r.capped == b.capped && r.wildcard == b.wildcard
    ensures Learned(a, r, paths + {p})
  {
    if p in b.known {
      assert paths + {p} - a.known == paths - a.known;
    } else {
      assert paths + {p} - a.known == (paths - a.known) + {p};
    }
  }

  lemma {:induction false} AllLearned(env: Env, s: Scan, d: string, cs: seq<Candidate>)
    requires d in s.book.dirs && s.book.dirs[d].phase == Scanning
    ensures var r := EnqueueAll(env, s, d, cs);
            d in r.book.dirs && Learned(s.book.dirs[d], r.book.dirs[d], PathsIn(cs)) && r.scoring == s.scoring
  {
    hide Learned, Generated, PathsIn, SameHistory, SameClock;
    if cs == [] {
      NothingLearned(s.book.dirs[d]);
    } else {
      var n := |cs| - 1;
      AllLearned(env, s, d, cs[..n]);
      var t := EnqueueAll(env, s, d, cs[..n]);
      SamePhase(s.book.dirs[d], t.book.dirs[d], PathsIn(cs[..n]));
      PathsInSnoc(cs);
      OneGenerated(env, s.scoring, t.book, d, cs[n]);
      OneMoreLearned(s.book.dirs[d], t.book.dirs[d], Generated(env, s.scoring, t.book, d, cs[n]).dirs[d], PathsIn(cs[..n]), cs[n].path);
    }
  }

  lemma OneGenerated(env: Env, s: Scoring, b: Book, d: string, c: Candidate)
    requires d in b.dirs && b.dirs[d].phase == Scanning
    ensures var b' := Generated(env, s, b, d, c);
            && d in b'.dirs
            && if c.path in b.dirs[d].known then b'.dirs[d] == b.dirs[d]
               else && b'.dirs[d].known == b.dirs[d].known + {c.path} && b'.dirs[d].total == b.dirs[d].total + 1
                    && b'.dirs[d].budget == b.dirs[d].budget + 1 && b'.dirs[d].phase == Scanning
                    && b'.dirs[d].capped == b.dirs[d].capped && b'.dirs[d].wildcard == b.dirs[d].wildcard
  {
    hide Score, KeyOf;
  }

  lemma NothingLearned(a: DirRec)
    ensures Learned(a, a, PathsIn([]))
  {
    assert PathsIn([]) == {};
  }

  lemma SamePhase(a: DirRec, b: DirRec, paths: set<string>)
    requires Learned(a, b, paths)
    ensures b.phase == a.phase
  {
  }

  /** A lesson leaves the frontier swept with it just now, or so few hits and so little time behind that it need not be yet. */
  ghost predicate Throttle(env: Env, r: Scan, now: real)
  {
    if r.dirty then r.hitsSince < env.reprioHits && now - r.lastSweep < env.reprioInterval else r.lastSweep == now && r.hitsSince == 0
  }

  lemma LearnTeaches(env: Env, s: Scan, c: Candidate, r: Response, now: real)
    requires r.Answered? && c.parentDir in s.book.dirs && s.book.dirs[c.parentDir].phase == Scanning
    ensures var d, t := c.parentDir, LearnFromHit(env, s, c, r, now);
            if r.confidence >= env.learnMinConf && !s.book.dirs[d].wildcard && (d in s.spaDirs ==> !s.spaDirs[d]) then
              && t.scoring.lessons == s.scoring.lessons + [Lesson(d, c.path, r.protected, r.indexOf)] && Throttle(env, t, now)
              && d in t.book.dirs && Learned(s.book.dirs[d], t.book.dirs[d], PathsIn(Generate(c)))
            else t == s
  {
    hide EnqueueAll, Generate, Score, MapAll, Learned, PathsIn, SameHistory;
    var lesson := Lesson(c.parentDir, c.path, r.protected, r.indexOf);
    AllLearned(env, s.(scoring := s.scoring.(lessons := s.scoring.lessons + [lesson])), c.parentDir, Generate(c));
  }

  /** The candidates a result may add to its directory. */
  function Found(env: Env, s: Scan, c: Candidate, r: Response): set<string>
  {
    if Teaches(env, s, c, r) then PathsIn(Generate(c)) else {}
  }

  lemma HitTeaches(env: Env, s: Scan, c: Candidate, r: Response, now: real)
    requires r.Answered? && r.hit && c.parentDir in s.book.dirs && s.book.dirs[c.parentDir].phase == Scanning
    ensures var d, t := c.parentDir, HandleHit(env, s, c, r, now);
            && t.scoring.lessons == s.scoring.lessons
                                    + (if Teaches(env, s, c, r) then [Lesson(d, c.path, r.protected, r.indexOf)] else [])
            && (Teaches(env, s, c, r) ==> Throttle(env, t, now))
            && d in t.book.dirs && Learned(s.book.dirs[d], t.book.dirs[d], Found(env, s, c, r))
  {
    hide LearnFromHit, EnqueueChild, WithinLimits, Aliased, Url, Generate, Learned, PathsIn;
    var d := c.parentDir;
    NoneLearned(s.book.dirs[d]);
    assert s.scoring.lessons + [] == s.scoring.lessons;
    if r.hash !in s.seen {
      var url := Url(env, c.parentDir, c.path);
      var s1 := s.(seen := s.seen[r.hash := [url]],
                   findings := s.findings + [Finding(url, r.hash, r.confidence, c.provenance, [])],
                   book := s.book.(log := s.book.log.(novel := s.book.log.novel + 1)));
      var s2 := LearnFromHit(env, s1, c, r, now);
      LearnTeaches(env, s1, c, r, now);
      if WithinLimits(env, s2, c, r.late) { Landing.ChildLeaves(env, s2, d + "/" + c.path, c.depth, d); }
    }
  }

  lemma NoneLearned(a: DirRec)
    ensures Learned(a, a, {})
  {
  }

  /** The lessons, one more exactly when the result teaches; with it, the generated paths known, counted and budgeted for, each
      once, and the throttle kept. A result that does not teach teaches nothing and adds no path. */
  lemma ResultTeaches(env: Env, s: Scan, c: Candidate, r: Response, now: real)
    requires Inv(s.book) && c in s.book.flying
    ensures var d, t := c.parentDir, HandleReal(env, s, c, r, now);
            && d in s.book.dirs && d in t.book.dirs
            && t.scoring.lessons == s.scoring.lessons
                                    + (if Teaches(env, s, c, r) then [Lesson(d, c.path, r.protected, r.indexOf)] else [])
            && (Teaches(env, s, c, r) ==> Throttle(env, t, now))
            && Gained(s.book.dirs[d], t.book.dirs[d], Found(env, s, c, r))
  {
    hide HandleHit, Concluded, Inv, Found, Teaches, Gained, Learned, Trapped;
    QueuedIsScanning(s.book, c);
    assert s.scoring.lessons + [] == s.scoring.lessons;
    var d := c.parentDir;
    TrapTeaches(env, s, c, r);
    if r.Answered? {
      var s1 := s.(book := Trapped(s.book, d, r.tarpit, false));
      var s2 := if r.hit then HandleHit(env, s1, c, r, now) else s1;
      if r.hit {
        HitTeaches(env, s1, c, r, now);
        LearnedGains(s1.book.dirs[d], s2.book.dirs[d], Found(env, s1, c, r));
      } else {
        NothingGained(s1.book.dirs[d], s1.book.dirs[d]);
      }
      ConcludedLeaves(env, s2, c, r);
      StillGains(s.book.dirs[d], s1.book.dirs[d], s2.book.dirs[d], Concluded(env, s2, c, r).book.dirs[d], Found(env, s, c, r));
    } else {
      NothingGained(s.book.dirs[d], HandleReal(env, s, c, r, now).book.dirs[d]);
    }
  }

  /** From a to b these paths became known, each new one counted and budgeted for once. */
  predicate Gained(a: DirRec, b: DirRec, paths: set<string>)
  {
    b.known == a.known + paths && b.total == a.total + |paths - a.known| && b.budget == a.budget + |paths - a.known|
  }

  lemma LearnedGains(a: DirRec, b: DirRec, paths: set<string>)
    requires Learned(a, b, paths)
    ensures Gained(a, b, paths)
  {
  }

  lemma NothingGained(a: DirRec, b: DirRec)
    requires b.known == a.known && b.total == a.total && b.budget == a.budget
    ensures Gained(a, b, {})
  {
  }

  lemma StillGains(a: DirRec, a': DirRec, b': DirRec, b: DirRec, paths: set<string>)
    requires Gained(a', b', paths) && a'.known == a.known && a'.total == a.total && a'.budget == a.budget
    requires b.known == b'.known && b.total == b'.total && b.budget == b'.budget
    ensures Gained(a, b, paths)
  {
  }

  /** A tarpit in the same answer changes nothing about it. */
  lemma TrapTeaches(env: Env, s: Scan, c: Candidate, r: Response)
    requires c.parentDir in s.book.dirs
    ensures Teaches(env, s, c, r) ==> r.Answered? && r.hit
    ensures Found(env, s, c, r) == if Teaches(env, s, c, r) then PathsIn(Generate(c)) else {}
    ensures r.Answered? ==>
              var d, s1 := c.parentDir, s.(book := Trapped(s.book, c.parentDir, r.tarpit, false));
              && Teaches(env, s1, c, r) == Teaches(env, s, c, r) && Found(env, s1, c, r) == Found(env, s, c, r)
              && d in s1.book.dirs && s1.book.dirs[d].phase == s.book.dirs[d].phase && s1.book.dirs[d].known == s.book.dirs[d].known
              && s1.book.dirs[d].total == s.book.dirs[d].total && s1.book.dirs[d].budget == s.book.dirs[d].budget
  {
    hide PathsIn, Generate;
  }

  lemma ConcludedLeaves(env: Env, s: Scan, c: Candidate, r: Response)
    requires r.Answered? && c.parentDir in s.book.dirs
    ensures var d, t := c.parentDir, Concluded(env, s, c, r);
            && t.scoring == s.scoring && t.dirty == s.dirty && t.hitsSince == s.hitsSince && t.lastSweep == s.lastSweep
            && d in t.book.dirs && t.book.dirs[d].known == s.book.dirs[d].known && t.book.dirs[d].total == s.book.dirs[d].total
            && t.book.dirs[d].budget == s.book.dirs[d].budget
  {
    hide Url;
  }

  // ---- Findings -------------------------------------------------------------------------

  /** A hit with new content adds one finding, with its URL, confidence and provenance; one with known content adds
      its URL as the
      last alias of exactly one finding with that content; nothing else touches the findings. */
  ghost predicate Finds(env: Env, s: Scan, c: Candidate, r: Response, findings: seq<Finding>)
  {
    var url := env.target + c.parentDir + "/" + c.path;
    if r.Failed? || !r.hit then findings == s.findings
    else if r.hash !in s.seen then findings == s.findings + [Finding(url, r.hash, r.confidence, c.provenance, [])]
    else
      || (findings == s.findings && forall i :: 0 <= i < |s.findings| ==> s.findings[i].hash != r.hash)
      || exists i :: 0 <= i < |s.findings| && s.findings[i].hash == r.hash
                     && findings == s.findings[i := s.findings[i].(aliases := s.findings[i].aliases + [url])]
  }

  lemma {:induction false} AliasedOne(findings: seq<Finding>, hash: int, url: string)
    ensures var r := Aliased(findings, hash, url);
            || (r == findings && forall i :: 0 <= i < |findings| ==> findings[i].hash != hash)
            || exists i :: 0 <= i < |findings| && findings[i].hash == hash
                           && r == findings[i := findings[i].(aliases := findings[i].aliases + [url])]
  {
    if findings == [] {
    } else if findings[0].hash == hash {
      assert Aliased(findings, hash, url) == findings[0 := findings[0].(aliases := findings[0].aliases + [url])];
    } else {
      var rest := findings[1..];
      AliasedOne(rest, hash, url);
      var r := Aliased(rest, hash, url);
      if i :| 0 <= i < |rest| && rest[i].hash == hash && r == rest[i := rest[i].(aliases := rest[i].aliases + [url])] {
        assert findings[i + 1] == rest[i];
        assert [findings[0]] + r == findings[i + 1 := findings[i + 1].(aliases := findings[i + 1].aliases + [url])];
      } else {
        assert [findings[0]] + rest == findings;
        forall i | 0 <= i < |findings| ensures findings[i].hash != hash { if i > 0 { assert findings[i] == rest[i - 1]; } }
      }
    }
  }

  lemma HitFinds(env: Env, s: Scan, c: Candidate, r: Response, now: real)
    requires r.Answered?
    ensures var url, t := Url(env, c.parentDir, c.path), HandleHit(env, s, c, r, now);
            t.findings == if r.hash in s.seen then Aliased(s.findings, r.hash, url)
                          else s.findings + [Finding(url, r.hash, r.confidence, c.provenance, [])]
  {
    hide LearnFromHit, EnqueueChild, WithinLimits, Aliased, Url, SameClock;
  }

  lemma ConcludedFindings(env: Env, s: Scan, c: Candidate, r: Response)
    requires r.Answered?
    ensures Concluded(env, s, c, r).findings == s.findings
  {
    hide Settled, Trapped, Url, SameClock;
  }

  lemma ResultFinds(env: Env, s: Scan, c: Candidate, r: Response, now: real)
    requires c.parentDir in s.book.dirs
    ensures Finds(env, s, c, r, HandleReal(env, s, c, r, now).findings)
  {
    hide HandleHit, Concluded, Settled, Trapped, Aliased;
    if r.Answered? {
      var s1 := s.(book := Trapped(s.book, c.parentDir, r.tarpit, false));
      if r.hit {
        HitFinds(env, s1, c, r, now);
        AliasedOne(s.findings, r.hash, env.target + c.parentDir + "/" + c.path);
      }
      ConcludedFindings(env, if r.hit then HandleHit(env, s1, c, r, now) else s1, c, r);
    }
  }

  // ---- Mining ---------------------------------------------------------------------------

  /** The bodies worth mining: a page while crawling or script harvesting is on, a script while the latter is. */
  predicate Minable(env: Env, body: Body)
  {
    match body
    case Html => env.crawl || env.jsHarvest
    case Script => env.jsHarvest
    case NoBody => false
  }

  /** The condition for an answer to be mined: its body is worth it, and its URL was neither mined nor queued to fetch before. */
  predicate Mines(env: Env, s: Scan, c: Candidate, r: Response)
  {
    r.Answered? && Url(env, c.parentDir, c.path) !in s.visited && Minable(env, r.body)
  }

  lemma HitMinesNone(env: Env, s: Scan, c: Candidate, r: Response, now: real)
    requires r.Answered?
    ensures var t := HandleHit(env, s, c, r, now);
            t.visited == s.visited && t.producers == s.producers && t.harvestQueue == s.harvestQueue
  {
    hide LearnFromHit, EnqueueChild, WithinLimits, Aliased, Url, SameHistory, SameClock;
    var url := Url(env, c.parentDir, c.path);
    if r.hash !in s.seen {
      var s1 := s.(seen := s.seen[r.hash := [url]],
                   findings := s.findings + [Finding(url, r.hash, r.confidence, c.provenance, [])],
                   book := s.book.(log := s.book.log.(novel := s.book.log.novel + 1)));
      LearnMinesNone(env, s1, c, r, now);
      ChildMinesNone(env, LearnFromHit(env, s1, c, r, now), c.parentDir + "/" + c.path, c.depth);
    }
  }

  lemma LearnMinesNone(env: Env, s: Scan, c: Candidate, r: Response, now: real)
    requires r.Answered?
    ensures var t := LearnFromHit(env, s, c, r, now);
            t.visited == s.visited && t.producers == s.producers && t.harvestQueue == s.harvestQueue
  {
    hide EnqueueAll, Generate, Score, MapAll, Learnable;
    AllMineNone(env, s.(scoring := s.scoring.(lessons := s.scoring.lessons + [Lesson(c.parentDir, c.path, r.protected, r.indexOf)])),
                c.parentDir, Generate(c));
  }

  lemma {:induction false} AllMineNone(env: Env, s: Scan, d: string, cs: seq<Candidate>)
    ensures var t := EnqueueAll(env, s, d, cs); t.visited == s.visited && t.producers == s.producers && t.harvestQueue == s.harvestQueue
  {
    hide Generated;
    if cs != [] { AllMineNone(env, s, d, cs[..|cs| - 1]); }
  }

  lemma ChildMinesNone(env: Env, s: Scan, d: string, depth: int)
    requires d != ""
    ensures var t := EnqueueChild(env, s, d, depth);
            t.visited == s.visited && t.producers == s.producers && t.harvestQueue == s.harvestQueue
  {
    hide Probes, CandidateSet, BudgetOf, SameHistory, SameClock;
  }

  /** An answer starts a producer, and marks its page visited, exactly when it is mined. */
  lemma ResultMines(env: Env, s: Scan, c: Candidate, r: Response, now: real)
    requires c.parentDir in s.book.dirs
    ensures var t := HandleReal(env, s, c, r, now);
            && t.producers == s.producers + (if Mines(env, s, c, r) then 1 else 0)
            && t.visited == s.visited + (if Mines(env, s, c, r) then {Url(env, c.parentDir, c.path)} else {})
            && t.harvestQueue == s.harvestQueue
  {
    hide HandleHit, Concluded, Trapped, Url, SameHistory, SameClock;
    if r.Answered? {
      var s1 := s.(book := Trapped(s.book, c.parentDir, r.tarpit, false));
      if r.hit { HitMinesNone(env, s1, c, r, now); }
      ConcludedMines(env, if r.hit then HandleHit(env, s1, c, r, now) else s1, c, r);
    }
  }

  lemma HarvestMines(env: Env, s: Scan, url: string, body: Body)
    ensures var t, mined := HarvestResponse(env, s, url, body), url !in s.visited && Minable(env, body);
            && t.producers == s.producers + (if mined then 1 else 0) && t.visited == s.visited + (if mined then {url} else {})
            && t.harvestQueue == s.harvestQueue
  {
    assert s.visited + {} == s.visited;
  }

  lemma ConcludedMines(env: Env, s: Scan, c: Candidate, r: Response)
    requires r.Answered?
    ensures var t := Concluded(env, s, c, r);
            && t.producers == s.producers + (if Mines(env, s, c, r) then 1 else 0)
            && t.visited == s.visited + (if Mines(env, s, c, r) then {Url(env, c.parentDir, c.path)} else {})
            && t.harvestQueue == s.harvestQueue
  {
    hide Settled, Trapped, Url, SameHistory, SameClock, HarvestResponse, Minable;
    var s1 := if c.parentDir in s.book.dirs then s.(book := Trapped(s.book, c.parentDir, false, r.wildcard)) else s;
    HarvestMines(env, s1, Url(env, c.parentDir, c.path), r.body);
  }

  // ---- Over a run -----------------------------------------------------------------------

  lemma {:induction false} VisitedStays(env: Env, states: seq<Scan>, events: seq<Event>, i: nat, j: nat)
    requires IsRun(env, states, events) && i <= j < |states|
    ensures states[i].visited <= states[j].visited
    decreases j - i
  {
    hide Enabled, Next;
    if i < j {
      VisitedStays(env, states, events, i, j - 1);
      assert StepAt(env, states, events, j - 1);
      StepMoves(env, states[j - 1], events[j - 1], 0);
    }
  }

  lemma MinedIsVisited(env: Env, s: Scan, e: Event)
    requires Enabled(env, s, e) && e.ResultBack? && Mines(env, s, e.cand, e.response)
    ensures Url(env, e.cand.parentDir, e.cand.path) in Next(env, s, e).visited
  {
    hide HandleReal, Mines, Url;
    ResultMines(env, s, e.cand, e.response, e.now);
  }

  /** No URL's answers are mined twice in a run. */
  lemma MinedOnce(env: Env, states: seq<Scan>, events: seq<Event>, i: nat, j: nat)
    requires IsRun(env, states, events) && i < j < |events| && events[i].ResultBack? && events[j].ResultBack?
    requires Mines(env, states[i], events[i].cand, events[i].response) && Mines(env, states[j], events[j].cand, events[j].response)
    ensures events[i].cand.parentDir + "/" + events[i].cand.path != events[j].cand.parentDir + "/" + events[j].cand.path
  {
    hide Enabled, Next;
    assert StepAt(env, states, events, i);
    MinedIsVisited(env, states[i], events[i]);
    VisitedStays(env, states, events, i + 1, j);
    if events[i].cand.parentDir + "/" + events[i].cand.path == events[j].cand.parentDir + "/" + events[j].cand.path {
      SameUrl(env, events[i].cand, events[j].cand);
    }
  }

  lemma SameUrl(env: Env, a: Candidate, b: Candidate)
    requires a.parentDir + "/" + a.path == b.parentDir + "/" + b.path
    ensures Url(env, a.parentDir, a.path) == Url(env, b.parentDir, b.path)
  {
    assert Url(env, a.parentDir, a.path) == env.target + (a.parentDir + "/" + a.path);
    assert Url(env, b.parentDir, b.path) == env.target + (b.parentDir + "/" + b.path);
  }

  // ---- Pages ----------------------------------------------------------------------------

  /** The pages known and queued are the same. */
  predicate SamePages(s: Scan, r: Scan)
  {
    r.visited == s.visited && r.harvestQueue == s.harvestQueue
  }

  /** One page more is known, and queued. */
  predicate OnePage(s: Scan, r: Scan, u: string)
  {
    u !in s.visited && r.visited == s.visited + {u} && r.harvestQueue == s.harvestQueue + [u]
  }

  lemma StagePages(env: Env, s: Scan, d: string, c: Candidate, pick: Candidate)
    ensures SamePages(s, StageDirCandidate(env, s, d, c, pick))
  {
    hide LandedBook, SameHistory, SameClock;
  }

  lemma ChainStepPages(env: Env, s: Scan, segs: seq<string>, prio: real, provenance: string, pick: Candidate, i: nat)
    requires i < |segs|
    ensures SamePages(s, ChainStep(env, s, segs, prio, provenance, pick, i))
  {
    hide StageDirCandidate, EnqueueChild, DirOf;
    var s1 := s.(book := s.book.(log := s.book.log.(chained := s.book.log.chained + 1)));
    Landing.Named(segs, i);
    ChildMinesNone(env, s1, DirOf(segs, i + 1), i + 1);
    StagePages(env, EnqueueChild(env, s1, DirOf(segs, i + 1), i + 1), DirOf(segs, i), AncestorCandidate(segs, i, prio, provenance), pick);
  }

  lemma {:induction false} ChainPages(env: Env, s: Scan, segs: seq<string>, prio: real, provenance: string, picks: seq<Candidate>, n: nat)
    requires n < |segs| && |picks| == |segs|
    ensures SamePages(s, EnsureDirChain(env, s, segs, prio, provenance, picks, n))
    decreases n
  {
    hide ChainStep;
    if n > 0 {
      ChainPages(env, s, segs, prio, provenance, picks, n - 1);
      ChainStepPages(env, EnsureDirChain(env, s, segs, prio, provenance, picks, n - 1), segs, prio, provenance, picks[n - 1], n - 1);
    }
  }

  lemma SeedPages(env: Env, s: Scan, sd: Seed, picks: seq<Candidate>)
    requires |picks| == |Segments(sd.path)|
    ensures SamePages(s, EnqueueSeed(env, s, sd, picks))
  {
    hide StageDirCandidate, EnsureDirChain, Segments, DirOf, Admitted;
    if Admitted(env, sd) {
      var segs := Segments(sd.path);
      var n := |segs| - 1;
      var s0 := s.(book := s.book.(log := s.book.log.(seeds := s.book.log.seeds + 1)));
      ChainPages(env, s0, segs, sd.basePrio, sd.provenance, picks, n);
      StagePages(env, EnsureDirChain(env, s0, segs, sd.basePrio, sd.provenance, picks, n), DirOf(segs, n),
                 LeafCandidate(segs, sd), picks[n]);
    }
  }

  lemma SweepPages(env: Env, s: Scan, pattern: string, kind: OverrideKind, factor: Factor)
    ensures SamePages(s, Sweep(env, WithOverride(s, pattern, kind, factor)))
  {
    hide MapAll, Score, SameHistory, SameClock;
  }

  lemma PinPages(env: Env, s: Scan, pattern: string, picks: seq<Candidate>)
    requires |picks| == |Segments(pattern)|
    ensures SamePages(s, ApplyPin(env, s, pattern, picks))
  {
    hide EnqueueSeed, Segments, Sweep, IsGlob;
    SweepPages(env, s, pattern, Boost, PIN_SCORE);
    SeedPages(env, Sweep(env, WithOverride(s, pattern, Boost, PIN_SCORE)), Seed(pattern, false, 1.0, "user:pin"), picks);
  }

  /** Ending a calibration queues no page but the root page, and that at most once. */
  lemma {:induction false} FinishPages(env: Env, s: Scan, d: string)
    requires d in s.book.dirs
    ensures var r := FinishCalibration(env, s, d); SamePages(s, r) || OnePage(s, r, RootPage(env))
    decreases if s.rootRefined then 0 else 1, 1
  {
    hide Pivot, PushCandidates, Grew, ReprioritizeIfChanged, Recalibrate, SameHistory, SameClock, RootPage;
    var cal := env.calibrate(d, s.rootRefined);
    var s1 := s.(spaDirs := s.spaDirs[d := cal.spa]);
    if d == "" && !s.rootRefined {
      var s1' := s1.(rootRefined := true, scoring := s1.scoring.(profile := cal.profile));
      var s2 := ReprioritizeIfChanged(env, s1');
      RefinedPages(env, s1');
      if Grew(s2.exts, cal.exts) { AgainPages(env, s2.(exts := cal.exts), d); } else { EndPages(env, s2, d, cal.spa); }
    } else {
      EndPages(env, s1, d, cal.spa);
    }
  }

  lemma {:induction false} AgainPages(env: Env, s: Scan, d: string)
    requires d in s.book.dirs && s.rootRefined
    ensures var r := Recalibrate(env, s, d); SamePages(s, r) || OnePage(s, r, RootPage(env))
    decreases 0, 2
  {
    hide FinishCalibration, Probes, WithoutFirst, SameHistory, SameClock, RootPage;
    var probes := Probes(env, d, s.exts, 0);
    if probes == [] { FinishPages(env, s.(book := Restarted(s.book, d, probes)), d); }
  }

  lemma RefinedPages(env: Env, s: Scan)
    ensures SamePages(s, ReprioritizeIfChanged(env, s)) && ReprioritizeIfChanged(env, s).book.dirs == s.book.dirs
  {
    hide MapAll, Score, SameHistory, SameClock;
  }

  lemma EndPages(env: Env, s: Scan, d: string, spa: bool)
    requires d in s.book.dirs
    ensures var r := PushCandidates(env, Pivot(env, s, d, spa), d); SamePages(s, r) || OnePage(s, r, RootPage(env))
  {
    hide CandidateSet, BudgetOf, MapAll, Score, SameHistory, SameClock, WithoutFirst, Keys;
  }

  lemma CollectPages(env: Env, s: Scan, d: string)
    requires d in s.book.dirs
    ensures var r := CollectProbe(env, s, d); SamePages(s, r) || OnePage(s, r, RootPage(env))
  {
    hide FinishCalibration, SameHistory, SameClock, RootPage;
    FinishPages(env, s.(book := ProbeBack(s.book, d)), d);
  }

  /** What an event does to the pages: it queues one that was not known, has the first one fetched, mines the answer it brings,
      or leaves them as they are. */
  ghost predicate PageStep(env: Env, s: Scan, e: Event, r: Scan)
  {
    if e.FetchSent? then s.harvestQueue != [] && r.visited == s.visited && r.harvestQueue == s.harvestQueue[1..]
    else if e.ResultBack? && Mines(env, s, e.cand, e.response) then
      r.harvestQueue == s.harvestQueue && r.visited == s.visited + {Url(env, e.cand.parentDir, e.cand.path)}
    else SamePages(s, r) || exists u :: OnePage(s, r, u)
  }

  lemma ResultPages(env: Env, s: Scan, c: Candidate, response: Response, now: real)
    requires c.parentDir in s.book.dirs
    ensures PageStep(env, s, ResultBack(c, response, now), HandleReal(env, s, c, response, now))
  {
    hide HandleReal, Mines, Url;
    ResultMines(env, s, c, response, now);
    assert s.visited + {} == s.visited;
  }

  lemma AskedPages(env: Env, s: Scan, url: string)
    ensures var r := EnqueueHarvestFetch(env, s, url);
            if env.inScope(url) && url !in s.visited then OnePage(s, r, url) else SamePages(s, r)
  {
    hide SameHistory, SameClock;
  }

  lemma StepPages(env: Env, s: Scan, e: Event)
    requires Enabled(env, s, e)
    ensures PageStep(env, s, e, Next(env, s, e))
  {
    hide HandleReal, Mines, Blocked, Segments, EnqueueSeed, ApplyPin, CollectProbe, DiscardedAll, Sent, Discarded, ProbeOut,
         ProbesWait, FirstToProbe, EnqueueHarvestFetch, SameHistory, SameClock, Sweep, Throttles, Swept, OnePage, Url;
    match e
    case ProbeBackAt(d) => CollectPages(env, s, d);
    case ResultBack(c, response, now) => ResultPages(env, s, c, response, now);
    case Seeded(sd, picks) => SeedPages(env, s, sd, picks);
    case Weighted(pattern, kind, factor) => SweepPages(env, s, pattern, kind, FactorOf(factor));
    case Pinned(pattern, picks) => PinPages(env, s, pattern, picks);
    case FetchAsked(url) => AskedPages(env, s, url);
    case _ =>
  }

  /** The page was fetched, or an answer from it mined. */
  ghost predicate Tried(env: Env, states: seq<Scan>, events: seq<Event>, u: string)
    requires |states| == |events| + 1
  {
    exists i :: 0 <= i < |events| && TriedAt(env, states[i], events[i], u)
  }

  predicate TriedAt(env: Env, s: Scan, e: Event, u: string)
  {
    || (e.FetchSent? && s.harvestQueue != [] && s.harvestQueue[0] == u)
    || (e.ResultBack? && Mines(env, s, e.cand, e.response) && Url(env, e.cand.parentDir, e.cand.path) == u)
  }

  lemma TriedSnoc(env: Env, states: seq<Scan>, events: seq<Event>, u: string)
    requires |states| == |events| + 1 && events != []
    ensures var n := |events| - 1;
            Tried(env, states, events, u) <==> Tried(env, states[..n + 1], events[..n], u) || TriedAt(env, states[n], events[n], u)
  {
    hide TriedAt;
    var n := |events| - 1;
    var earlier, first := states[..n + 1], events[..n];
    if i :| 0 <= i < n && TriedAt(env, earlier[i], first[i], u) { assert TriedAt(env, states[i], events[i], u); }
    if i :| 0 <= i < n && TriedAt(env, states[i], events[i], u) { assert TriedAt(env, earlier[i], first[i], u); }
  }

  /** A page is known exactly if it is queued to fetch, or was fetched or mined. */
  lemma {:induction false} VisitedIs(env: Env, states: seq<Scan>, events: seq<Event>, u: string)
    requires IsRun(env, states, events) && Fresh(env, states[0])
    ensures u in states[|events|].visited <==> u in states[|events|].harvestQueue || Tried(env, states, events, u)
  {
    hide Enabled, Next, Fresh, PageStep, TriedAt, Tried;
    if events == [] {
      FreshPages(env, states[0], u);
      NoneTried(env, states, u);
    } else {
      var n := |events| - 1;
      PrefixRun(env, states, events);
      VisitedIs(env, states[..n + 1], events[..n], u);
      TriedSnoc(env, states, events, u);
      StepPages(env, states[n], events[n]);
      VisitedStep(env, states[n], events[n], states[n + 1], u, Tried(env, states[..n + 1], events[..n], u));
    }
  }

  lemma NoneTried(env: Env, states: seq<Scan>, u: string)
    requires |states| == 1
    ensures !Tried(env, states, [], u)
  {
  }

  lemma VisitedStep(env: Env, s: Scan, e: Event, r: Scan, u: string, tried: bool)
    requires PageStep(env, s, e, r) && (u in s.visited <==> u in s.harvestQueue || tried)
    ensures u in r.visited <==> u in r.harvestQueue || tried || TriedAt(env, s, e, u)
  {
    hide Mines, Url;
    if e.FetchSent? && s.harvestQueue != [] {
      assert s.harvestQueue == [s.harvestQueue[0]] + s.harvestQueue[1..];
    }
  }

  lemma FreshPages(env: Env, s: Scan, u: string)
    requires Fresh(env, s)
    ensures u in s.visited <==> u in s.harvestQueue
  {
    hide FinishCalibration, Probes, SameHistory, SameClock;
    var profile: nat, exts, producers: nat, last: real :|
      s == StartCalibration(env, Blank(env, profile, exts, producers, last), "", 0);
    var b := Blank(env, profile, exts, producers, last);
    var probes := Probes(env, "", b.exts, 0);
    if probes == [] { FinishPages(env, b.(book := Started(b.book, "", 0, probes)), ""); }
  }

  /** No page is forgotten: when a run finishes, every page in scope that was asked for has been fetched, or an answer from it
      mined. */
  lemma PagesTried(env: Env, states: seq<Scan>, events: seq<Event>, i: nat)
    requires IsRun(env, states, events) && Fresh(env, states[0]) && Finished(states[|events|])
    requires i < |events| && events[i].FetchAsked? && env.inScope(events[i].url)
    ensures Tried(env, states, events, events[i].url)
  {
    hide Enabled, Next, Fresh, Tried, SameHistory, SameClock;
    assert StepAt(env, states, events, i);
    AskedIsKnown(env, states[i], events[i]);
    VisitedStays(env, states, events, i + 1, |events|);
    VisitedIs(env, states, events, events[i].url);
  }

  lemma AskedIsKnown(env: Env, s: Scan, e: Event)
    requires Enabled(env, s, e) && e.FetchAsked? && env.inScope(e.url)
    ensures e.url in Next(env, s, e).visited
  {
    hide EnqueueHarvestFetch, SameHistory, SameClock;
    AskedPages(env, s, e.url);
    assert s.visited <= EnqueueHarvestFetch(env, s, e.url).visited;
  }

  /** The lesson an event teaches in the state it happens in. */
  function LessonAt(env: Env, s: Scan, e: Event): seq<Lesson>
  {
    if e.ResultBack? && Teaches(env, s, e.cand, e.response)
    then [Lesson(e.cand.parentDir, e.cand.path, e.response.protected, e.response.indexOf)] else []
  }

  lemma SeedTeachesNone(env: Env, s: Scan, sd: Seed, picks: seq<Candidate>)
    requires |picks| == |Segments(sd.path)|
    ensures EnqueueSeed(env, s, sd, picks).scoring.lessons == s.scoring.lessons
  {
    hide Segments, EnsureDirChain, StageDirCandidate, Admitted;
  }

  lemma SweepTeachesNone(env: Env, s: Scan, pattern: string, kind: OverrideKind, factor: Factor)
    ensures Sweep(env, WithOverride(s, pattern, kind, factor)).scoring.lessons == s.scoring.lessons
  {
    hide MapAll, Score;
  }

  lemma PinTeachesNone(env: Env, s: Scan, pattern: string, picks: seq<Candidate>)
    requires |picks| == |Segments(pattern)|
    ensures ApplyPin(env, s, pattern, picks).scoring.lessons == s.scoring.lessons
  {
    hide EnqueueSeed, Segments, Sweep, IsGlob;
    SweepTeachesNone(env, s, pattern, Boost, PIN_SCORE);
    SeedTeachesNone(env, Sweep(env, WithOverride(s, pattern, Boost, PIN_SCORE)), Seed(pattern, false, 1.0, "user:pin"), picks);
  }

  lemma StepTeaches(env: Env, s: Scan, e: Event)
    requires Sound(env, s) && Enabled(env, s, e)
    ensures Next(env, s, e).scoring.lessons == s.scoring.lessons + LessonAt(env, s, e)
  {
    hide Inv, Rest, HandleReal, Teaches, Blocked, Segments, EnqueueSeed, ApplyPin, CollectProbe, SweepOut, Dispatch, ScanModel.Discard,
         ProbesWait, FirstToProbe, EnqueueHarvestFetch, HandleHarvest, SameHistory, Sweep, ProbeOut, FetchOut, Throttles, Swept;
    assert s.scoring.lessons + [] == s.scoring.lessons;
    match e
    case Requested(c) => OtherTeachesNone(env, s, c);
    case Skipped(c) => OtherTeachesNone(env, s, c);
    case FetchSent => PagesTeachNone(env, s, "", NoBody);
    case FetchAsked(url) => PagesTeachNone(env, s, url, NoBody);
    case FetchBack(url, body) => PagesTeachNone(env, s, url, body);
    case ResultBack(c, response, now) => ResultTeaches(env, s, c, response, now);
    case Seeded(sd, picks) => SeedTeachesNone(env, s, sd, picks);
    case Weighted(pattern, kind, factor) => SweepTeachesNone(env, s, pattern, kind, FactorOf(factor));
    case Pinned(pattern, picks) => PinTeachesNone(env, s, pattern, picks);
    case Barred(pattern, removed) => BarTeachesNone(s, pattern, removed);
    case _ =>
  }

  lemma OtherTeachesNone(env: Env, s: Scan, c: Candidate)
    requires c.parentDir in s.book.dirs
    ensures Dispatch(s, c).scoring == s.scoring && ScanModel.Discard(s, c).scoring == s.scoring
  {
    hide Sent, Discarded;
  }

  lemma PagesTeachNone(env: Env, s: Scan, url: string, body: Body)
    ensures EnqueueHarvestFetch(env, s, url).scoring == s.scoring && HandleHarvest(s, url, body).scoring == s.scoring
    ensures s.harvestQueue != [] ==> FetchOut(s).scoring == s.scoring
  {
  }

  lemma BarTeachesNone(s: Scan, pattern: string, removed: seq<Candidate>)
    requires forall i :: 0 <= i < |removed| ==> removed[i].parentDir in s.book.dirs
    ensures Bar(s, pattern, removed).scoring.lessons == s.scoring.lessons
  {
    hide DiscardedAll;
  }

  /** The learners are not poisoned: every lesson of a fresh run comes from a hit with enough confidence, in a directory that no
      answer before had shown to be a wildcard. */
  lemma {:induction false} LessonsAreSure(env: Env, states: seq<Scan>, events: seq<Event>, l: Lesson) returns (i: nat)
    requires IsRun(env, states, events) && Fresh(env, states[0]) && l in states[|events|].scoring.lessons
    ensures i < |events| && events[i].ResultBack? && events[i].response.Answered? && events[i].response.hit
    ensures events[i].response.confidence >= env.learnMinConf && !Wildcard(events[..i], events[i].cand.parentDir)
    ensures l == Lesson(events[i].cand.parentDir, events[i].cand.path, events[i].response.protected, events[i].response.indexOf)
  {
    hide Enabled, Next, Sound, Room, Places, Fresh, Wildcard, Tarpit;
    if events == [] {
      FreshTaught(env, states[0]);
      assert false;
    } else {
      var n := |events| - 1;
      PrefixRun(env, states, events);
      FreshSound(env, states[0]);
      RunSound(env, states, events, n);
      StepTeaches(env, states[n], events[n]);
      if l in states[n].scoring.lessons {
        i := LessonsAreSure(env, states[..n + 1], events[..n], l);
        assert events[..n][..i] == events[..i];
      } else {
        i := n;
        TrapsAre(env, states[..n + 1], events[..n], events[n].cand.parentDir);
      }
    }
  }

  lemma FreshTaught(env: Env, s: Scan)
    requires Fresh(env, s)
    ensures s.scoring.lessons == []
  {
    hide StartCalibration;
  }
}
