/** Save and resume: what a snapshot holds, what a scan restored from it keeps, and what it lost. */
module Session {
  import opened ScanTypes
  import opened Counting
  import opened Provenance
  import opened FrontierHeap
  import opened Accounting
  import opened Invariants
  import opened Tallies
  import opened Ledgers
  import opened Pushing
  import opened ScanModel
  import opened Soundness
  import opened Stepping
  import opened History
  import opened Seeds
  import opened Runs
  import opened Theorems
  import opened Scores

  datatype DirSnap = DirSnap(
    depth: int,
    state: Phase,
    total: nat,
    accounted: nat,
    dispatched: nat,
    budget: int,
    wildcard: bool,
    capped: bool,
    pruned: bool,
    known: set<string>)

  datatype Saved = Saved(
    frontier: multiset<Candidate>,
    dirs: map<string, DirSnap>,
    spaDirs: map<string, bool>,
    findings: seq<Finding>,
    seen: map<int, seq<string>>,
    profile: nat,
    lessons: seq<Lesson>,
    visited: set<string>,
    spaMode: bool,
    rootRefined: bool)

  function SnapDir(r: DirRec): DirSnap
  {
    DirSnap(r.depth, r.phase, r.total, r.accounted, r.dispatched, r.budget, r.wildcard, r.capped, r.pruned, r.known)
  }

  /** buildSnapshot. What is in flight, pending, queued to fetch or overriding is not in it. */
  function BuildSnapshot(s: Scan): Saved
  {
    Saved(s.book.queue, map d | d in s.book.dirs :: SnapDir(s.book.dirs[d]), s.spaDirs, s.findings, s.seen,
          s.scoring.profile, s.scoring.lessons, s.visited, s.scoring.spaMode, s.rootRefined)
  }

  function RestoreDir(d: DirSnap): DirRec
  {
    DirRec(d.depth, if d.state == Done then Done else Scanning, [], 0, 0, d.total, d.accounted, d.dispatched, d.budget,
           d.capped, d.wildcard, d.pruned, d.known, map[])
  }

  /** restoreSnapshot up to the directories it recalibrates. The history goes on where it was. */
  function Restored(saved: Saved, exts: seq<string>, last: real, log: Ledger): Scan
  {
    var book := Book(map d | d in saved.dirs && saved.dirs[d].state != Calibrating :: RestoreDir(saved.dirs[d]), [],
                     saved.frontier, multiset{}, multiset{}, log);
    Scan(book, Scoring(saved.profile, saved.lessons, saved.spaMode, []), "", false, 0, last, 0,
         saved.seen, saved.findings, saved.spaDirs, exts, saved.rootRefined, [], multiset{}, saved.visited, 0, "", 0, false)
  }

  /** The directories that were calibrating start over, one after the other. */
  ghost function Recalibrated(env: Env, s: Scan, saved: Saved, order: seq<string>): Scan
    requires forall d :: d in order ==> d in saved.dirs
  {
    if order == [] then s
    else
      var n := |order| - 1;
      var s1 := Recalibrated(env, s, saved, order[..n]);
      if order[n] in s1.book.dirs then s1 else StartCalibration(env, s1, order[n], saved.dirs[order[n]].depth)
  }

  /** The history as a resume sees it: what was in flight is lost. */
  ghost function LogAfter(b: Book): Ledger
  {
    b.log.(lost := map d | d in b.dirs && b.dirs[d].phase != Calibrating :: In(b.flying, d) + Lost(b, d))
  }

  /** The directories to recalibrate, in whatever order the saved map yields them. */
  ghost predicate Restarts(s: Scan, order: seq<string>)
  {
    && (forall d :: d in order <==> d in s.book.dirs && s.book.dirs[d].phase == Calibrating)
    && (forall i, j :: 0 <= i < j < |order| ==> order[i] != order[j])
  }

  ghost function Base(s: Scan, exts: seq<string>, last: real): Scan
  {
    Restored(BuildSnapshot(s), exts, last, LogAfter(s.book))
  }

  ghost function Resume(env: Env, s: Scan, exts: seq<string>, last: real, order: seq<string>): Scan
    requires Restarts(s, order)
  {
    Recalibrated(env, Base(s, exts, last), BuildSnapshot(s), order)
  }

  /** buildSnapshot's loop over the directories. */
  method SnapDirs(dirs: map<string, DirRec>) returns (snaps: map<string, DirSnap>)
    ensures snaps == map d | d in dirs :: SnapDir(dirs[d])
  {
    hide SnapDir;
    snaps := map[];
    var left := dirs.Keys;
    while left != {}
      invariant left <= dirs.Keys && snaps.Keys == dirs.Keys - left
      invariant forall d :: d in snaps ==> snaps[d] == SnapDir(dirs[d])
      decreases left
    {
      var d :| d in left;
      snaps := snaps[d := SnapDir(dirs[d])];
      left := left - {d};
    }
  }

  /** restoreSnapshot's loop over the directories: those past calibration come back, the others are
      listed, each once, to be calibrated again. */
  method RestoreDirs(snaps: map<string, DirSnap>) returns (dirs: map<string, DirRec>, again: seq<string>)
    ensures dirs == map d | d in snaps && snaps[d].state != Calibrating :: RestoreDir(snaps[d])
    ensures forall d :: d in again <==> d in snaps && snaps[d].state == Calibrating
    ensures forall i, j :: 0 <= i < j < |again| ==> again[i] != again[j]
  {
    hide RestoreDir;
    dirs, again := map[], [];
    var left := snaps.Keys;
    while left != {}
      invariant left <= snaps.Keys
      invariant forall d :: d in dirs <==> d in snaps && d !in left && snaps[d].state != Calibrating
      invariant forall d :: d in dirs ==> dirs[d] == RestoreDir(snaps[d])
      invariant forall d :: d in again <==> d in snaps && d !in left && snaps[d].state == Calibrating
      invariant forall i, j :: 0 <= i < j < |again| ==> again[i] != again[j]
      decreases left
    {
      var d :| d in left;
      if snaps[d].state == Calibrating {
        again := again + [d];
      } else {
        dirs := dirs[d := RestoreDir(snaps[d])];
      }
      left := left - {d};
    }
  }

  /** restoreSnapshot's loop over the saved frontier. */
  method RestoreFrontier(saved: seq<Candidate>) returns (frontier: Frontier)
    ensures fresh(frontier) && frontier.Valid() && frontier.Contents() == multiset(saved)
  {
    hide Frontier.Valid, Frontier.Contents;
    frontier := new Frontier();
    var i := 0;
    assert saved[..0] == [];
    while i < |saved|
      invariant i <= |saved| && frontier.Valid() && frontier.Contents() == multiset(saved[..i]) && fresh(frontier)
    {
      assert saved[..i + 1] == saved[..i] + [saved[i]];
      frontier.Push(saved[i]);
      i := i + 1;
    }
    assert saved[..i] == saved;
  }

  // ---- What a restored directory keeps --------------------------------------------------

  /** A directory past calibration comes back as it was, but for its probe counters. */
  lemma DirRoundTrip(b: Book, d: string)
    requires Inv(b) && d in b.dirs && b.dirs[d].phase != Calibrating
    ensures RestoreDir(SnapDir(b.dirs[d])) == b.dirs[d].(probesDone := 0, probesTotal := 0)
  {
    assert DirOk(b, d);
  }

  /** Everything the snapshot promises: the frontier, the findings, the novelty record, the learners,
      and each finished or scanning directory's counters and known paths. */
  lemma RestoreKeeps(env: Env, s: Scan, exts: seq<string>, last: real)
    requires Inv(s.book)
    ensures var r := Base(s, exts, last);
            && r.book.queue == s.book.queue && r.findings == s.findings && r.seen == s.seen && r.visited == s.visited
            && r.scoring == s.scoring.(overrides := []) && r.spaDirs == s.spaDirs && r.rootRefined == s.rootRefined
            && (forall d :: d in r.book.dirs <==> d in s.book.dirs && s.book.dirs[d].phase != Calibrating)
            && (forall d :: d in r.book.dirs ==> r.book.dirs[d] == s.book.dirs[d].(probesDone := 0, probesTotal := 0))
  {
    hide Inv;
    forall d | d in s.book.dirs && s.book.dirs[d].phase != Calibrating
      ensures RestoreDir(SnapDir(s.book.dirs[d])) == s.book.dirs[d].(probesDone := 0, probesTotal := 0)
    {
      DirRoundTrip(s.book, d);
    }
  }

  /** Each restored directory is short by exactly its candidates in flight at the save, on top of
      what an earlier resume had already lost. */
  lemma Shortfall(s: Scan, exts: seq<string>, last: real, d: string)
    requires Inv(s.book) && d in Base(s, exts, last).book.dirs
    ensures var r := Base(s, exts, last);
            && d in s.book.dirs
            && r.book.dirs[d].total - r.book.dirs[d].accounted - In(r.book.queue, d) == In(s.book.flying, d) + Lost(s.book, d)
  {
    assert DirOk(s.book, d);
  }

  // ---- A restored scan is balanced again ------------------------------------------------

  lemma BaseBalanced(s: Scan, exts: seq<string>, last: real, d: string)
    requires Inv(s.book) && d in Base(s, exts, last).book.dirs
    ensures DirOk(Base(s, exts, last).book, d)
  {
    assert DirOk(s.book, d);
    CountNone(multiset{}, (c: Candidate) => c.parentDir == d);
  }

  lemma BaseInv(s: Scan, exts: seq<string>, last: real)
    requires Inv(s.book)
    ensures Inv(Base(s, exts, last).book)
  {
    hide DirOk;
    var b := Base(s, exts, last).book;
    forall d | d in b.dirs ensures DirOk(b, d) { BaseBalanced(s, exts, last, d); }
    forall c | c in b.queue ensures c.parentDir in b.dirs { QueuedIsScanning(s.book, c); }
  }

  lemma NothingYet(b: Book, d: string)
    requires Inv(b) && d in b.dirs && b.dirs[d].phase == Calibrating
    ensures Untouched(b.dirs[d])
  {
    assert DirOk(b, d);
  }

  lemma BaseTallies(s: Scan, exts: seq<string>, last: real)
    requires Inv(s.book) && Tallied(s.book)
    ensures Tallied(Base(s, exts, last).book)
  {
    hide Inv, Tallied, In, Lost;
    var b, b' := s.book, Base(s, exts, last).book;
    forall d | d in b.dirs && b.dirs[d].phase == Calibrating ensures Untouched(b.dirs[d]) { NothingYet(b, d); }
    assert SameTallies(b, b');
    TalliesCarry(b, b');
  }

  lemma BaseLedger(l: Limits, s: Scan, exts: seq<string>, last: real)
    requires Inv(s.book) && Ledgered(l, s.book)
    ensures Ledgered(l, Base(s, exts, last).book)
  {
    hide Inv, Keys, Tallied, Budgeted, Unrepeated, KnownIsPushed, PushedOnce, Base;
    BaseTallies(s, exts, last);
    BaseBudgets(l, s, exts, last);
    BaseKnown(s, exts, last);
  }

  lemma BaseBudgets(l: Limits, s: Scan, exts: seq<string>, last: real)
    requires Budgeted(l, s.book)
    ensures var b := Base(s, exts, last).book; Budgeted(l, b) && (Unrepeated(l, b) <==> Unrepeated(l, s.book))
  {
    hide In, Lost, Unrepeated;
    assert OpenDirs(Base(s, exts, last).book) == OpenDirs(s.book);
    BudgetsCarry(l, s.book, Base(s, exts, last).book);
  }

  lemma BaseKnown(s: Scan, exts: seq<string>, last: real)
    requires Inv(s.book) && Conserved(s.book) && KnownIsPushed(s.book)
    ensures var b := Base(s, exts, last).book; Conserved(b) && KnownIsPushed(b) && (PushedOnce(b) <==> PushedOnce(s.book))
  {
    hide Inv, Keys, Lost, In;
    var b, b' := s.book, Base(s, exts, last).book;
    forall d, p ensures b'.log.pushed[(d, p)] > 0 <==> d in b'.dirs && p in b'.dirs[d].known {
      assert b.log.pushed[(d, p)] > 0 <==> d in b.dirs && p in b.dirs[d].known;
      if d in b.dirs && b.dirs[d].phase == Calibrating { NothingYet(b, d); }
    }
  }

  lemma BaseSound(env: Env, s: Scan, exts: seq<string>, last: real)
    requires Sound(env, s) && env.resumed
    ensures Sound(env, Base(s, exts, last))
  {
    hide Inv, Ledgered, Base;
    BaseInv(s, exts, last);
    BaseLedger(LimitsOf(env), s, exts, last);
  }

  /** A snapshot of a sound scan, resumed, is sound again: whatever was in flight, the books balance
      once the lost requests are counted. */
  lemma {:induction false} RecalibratedSound(env: Env, s: Scan, saved: Saved, order: seq<string>)
    requires Sound(env, s) && forall d :: d in order ==> d in saved.dirs
    ensures Sound(env, Recalibrated(env, s, saved, order)) && Room(env, Recalibrated(env, s, saved, order)) >= Room(env, s)
    ensures Recalibrated(env, s, saved, order).book.log.lost == s.book.log.lost
    ensures Places(Recalibrated(env, s, saved, order)) >= Places(s) - |order| + (if "" in order && "" !in s.book.dirs then 1 else 0)
    ensures s.book.dirs.Keys <= Recalibrated(env, s, saved, order).book.dirs.Keys
  {
    hide Sound, Room, Places, StartCalibration;
    if order != [] {
      var n := |order| - 1;
      assert order == order[..n] + [order[n]];
      RecalibratedSound(env, s, saved, order[..n]);
      var s1 := Recalibrated(env, s, saved, order[..n]);
      if order[n] !in s1.book.dirs {
        StartSound(env, s1, order[n], saved.dirs[order[n]].depth);
      }
    }
  }

  lemma ResumeSound(env: Env, s: Scan, exts: seq<string>, last: real, order: seq<string>)
    requires Sound(env, s) && env.resumed && Restarts(s, order)
    ensures Sound(env, Resume(env, s, exts, last, order))
    ensures Resume(env, s, exts, last, order).book.log.lost == LogAfter(s.book).lost
  {
    hide Sound, Room, Places;
    BaseSound(env, s, exts, last);
    RecalibratedSound(env, Base(s, exts, last), BuildSnapshot(s), order);
  }

  // ---- Finishing after a resume ---------------------------------------------------------

  /** A quiet resumed scan is finished if and only if no candidate was in flight when it was saved
      and none had been lost before. */
  lemma ResumedFinish(env: Env, s: Scan, exts: seq<string>, last: real, order: seq<string>,
                      states: seq<Scan>, events: seq<Event>)
    requires Sound(env, s) && env.resumed && Restarts(s, order)
    requires IsRun(env, states, events) && states[0] == Resume(env, s, exts, last, order)
    requires Quiescent(states[|events|])
    ensures Finished(states[|events|]) <==> s.book.flying == multiset{} && forall d :: Lost(s.book, d) == 0
  {
    hide Rest, Inv, Room, Places, StepAt, Quiescent, Finished, Resume, SeedsOk;
    ResumeSound(env, s, exts, last, order);
    RunSound(env, states, events, |events|);
    RunHistory(env, states, events);
    QuietIsFinished(states[|events|]);
    ResumedLost(s, states[|events|]);
  }

  lemma ResumedLost(s: Scan, t: Scan)
    requires Inv(s.book) && Inv(t.book) && t.book.log.lost == LogAfter(s.book).lost
    ensures (forall d :: d in t.book.dirs ==> Lost(t.book, d) == 0) <==> s.book.flying == multiset{} && forall d :: Lost(s.book, d) == 0
  {
    hide DirOk, In;
    forall d ensures Lost(t.book, d) == In(s.book.flying, d) + Lost(s.book, d) {
      LostAt(s.book, t.book, d);
    }
    if c :| c in s.book.flying {
      FlyingCounts(s.book, c);
    } else {
      forall d ensures In(s.book.flying, d) == 0 { NoneFlying(d); }
    }
  }

  lemma NoneFlying(d: string)
    ensures In(multiset{}, d) == 0
  {
  }

  lemma FlyingCounts(b: Book, c: Candidate)
    requires c in b.flying
    ensures In(b.flying, c.parentDir) > 0
  {
    CountHas(b.flying, c, (x: Candidate) => x.parentDir == c.parentDir);
  }

  lemma LostAt(b: Book, t: Book, d: string)
    requires Inv(b) && t.log.lost == LogAfter(b).lost
    ensures Lost(t, d) == In(b.flying, d) + Lost(b, d)
  {
    if d !in b.dirs {
      Unmentioned(b, d);
    } else {
      assert DirOk(b, d);
    }
  }

  // ---- What a resume forgets ------------------------------------------------------------

  function Prior(env: Env, s: Scoring, c: Candidate): real
  {
    Score(env, s.(overrides := []), c)
  }

  /** No boost, demotion or pin moves the candidate's score. */
  predicate Unmoved(env: Env, s: Scoring, c: Candidate)
  {
    Prior(env, s, c) == 0.0 || Multiplier(env, s.overrides, c.parentDir, c.path) == 1.0
  }

  /** The overrides are not saved: right after a resume the cached scores are coherent if and only if
      no queued candidate of nonzero score was being boosted, demoted or pinned. */
  lemma OverridesForgotten(env: Env, s: Scan, exts: seq<string>, last: real)
    requires Coherent(env, s)
    ensures Coherent(env, Base(s, exts, last)) <==> forall c :: c in s.book.queue ==> Unmoved(env, s.scoring, c)
  {
    hide Multiplier, Score, Unmoved;
    forall c | c in s.book.queue
      ensures c.score == Score(env, s.scoring.(overrides := []), c) <==> Unmoved(env, s.scoring, c)
    {
      UnmovedIs(env, s.scoring, c);
    }
  }

  lemma UnmovedIs(env: Env, s: Scoring, c: Candidate)
    requires c.score == Score(env, s, c)
    ensures c.score == Score(env, s.(overrides := []), c) <==> Unmoved(env, s, c)
  {
    hide Multiplier, Score;
    Unweighted(env, s, c);
    Cancels(Prior(env, s, c), Multiplier(env, s.overrides, c.parentDir, c.path));
  }

  lemma Unweighted(env: Env, s: Scoring, c: Candidate)
    ensures Score(env, s, c) == Prior(env, s, c) * Multiplier(env, s.overrides, c.parentDir, c.path)
  {
    hide Multiplier, IsHarvest;
    NoMultiplier(env, c.parentDir, c.path);
  }

  lemma NoMultiplier(env: Env, dir: string, path: string)
    ensures Multiplier(env, [], dir, path) == 1.0
  {
  }

  lemma Cancels(a: real, m: real)
    ensures a * m == a <==> a == 0.0 || m == 1.0
  {
    assert a * m - a == a * (m - 1.0);
  }

  // ---- The bounds across a save ---------------------------------------------------------

  lemma BaseRoom(l: Limits, s: Scan, exts: seq<string>, last: real)
    requires Inv(s.book)
    ensures PushRoom(l, Base(s, exts, last).book) >= PushRoom(l, s.book)
  {
    hide Inv, In, Lost;
    var b := Base(s, exts, last).book;
    assert OpenDirs(b) == OpenDirs(s.book);
    assert PendingKeys(b) == {};
  }

  lemma {:induction false} Distinct(order: seq<string>, ds: set<string>)
    requires forall d :: d in order <==> d in ds
    requires forall i, j :: 0 <= i < j < |order| ==> order[i] != order[j]
    ensures |order| == |ds|
  {
    if order != [] {
      var n := |order| - 1;
      assert order == order[..n] + [order[n]];
      Distinct(order[..n], ds - {order[n]});
    } else {
      assert ds == {};
    }
  }

  lemma BasePlaces(s: Scan, exts: seq<string>, last: real, order: seq<string>)
    requires Restarts(s, order) && "" in s.book.dirs
    ensures Places(Base(s, exts, last)) == Places(s) + |order| - (if "" in order then 1 else 0)
    ensures "" in order <==> "" !in Base(s, exts, last).book.dirs
  {
    hide In, Lost;
    var b := Base(s, exts, last).book;
    var gone := set d | d in s.book.dirs && s.book.dirs[d].phase == Calibrating;
    Distinct(order, gone);
    assert b.dirs.Keys == s.book.dirs.Keys - gone;
    assert |b.dirs| == |b.dirs.Keys| && |s.book.dirs| == |s.book.dirs.Keys|;
  }

  /** Saving and resuming loosens no bound. */
  lemma ResumeRooms(env: Env, s: Scan, exts: seq<string>, last: real, order: seq<string>)
    requires Sound(env, s) && env.resumed && Restarts(s, order) && "" in s.book.dirs
    ensures Within(env, s, Resume(env, s, exts, last, order), 0, 0)
  {
    hide Rest, Inv, PushRoom, DirRoom, Base, Recalibrated;
    BaseSound(env, s, exts, last);
    BaseRoom(LimitsOf(env), s, exts, last);
    BasePlaces(s, exts, last, order);
    RecalibratedSound(env, Base(s, exts, last), BuildSnapshot(s), order);
  }

  lemma {:induction false} RecalibratedHistory(env: Env, s: Scan, saved: Saved, order: seq<string>)
    requires forall d :: d in order ==> d in saved.dirs
    ensures SameHistory(s, Recalibrated(env, s, saved, order))
  {
    hide StartCalibration;
    if order != [] {
      RecalibratedHistory(env, s, saved, order[..|order| - 1]);
    }
  }

  lemma ResumeHistory(env: Env, s: Scan, exts: seq<string>, last: real, order: seq<string>)
    requires Restarts(s, order)
    ensures var r, log := Resume(env, s, exts, last, order), s.book.log;
            && r.book.log.sent == log.sent && r.book.log.dropped == log.dropped && r.book.log.novel == log.novel
            && r.book.log.seeds == log.seeds && r.book.log.chained == log.chained && r.book.log.staged == log.staged
  {
    RecalibratedHistory(env, Base(s, exts, last), BuildSnapshot(s), order);
  }

  lemma ResumeNovel(env: Env, s: Scan, exts: seq<string>, last: real, order: seq<string>)
    requires Restarts(s, order) && Novel(s)
    ensures Novel(Resume(env, s, exts, last, order))
  {
    hide Recorded;
    RecalibratedHistory(env, Base(s, exts, last), BuildSnapshot(s), order);
  }

  lemma IsNovel(s: Scan)
    requires Novel(s)
    ensures s.book.log.novel == |s.seen|
  {
  }

  /** The end of a run from a resumed scan, with the history of both sides of the save. */
  lemma AcrossHistory(env: Env, s: Scan, exts: seq<string>, last: real, order: seq<string>, states: seq<Scan>, events: seq<Event>)
    requires env.resumed && Sound(env, s) && SeedsOk(env, s) && Restarts(s, order)
    requires IsRun(env, states, events) && states[0] == Resume(env, s, exts, last, order)
    ensures var t := states[|events|];
            && Sound(env, t) && SeedsOk(env, t) && Within(env, states[0], t, 0, 0) && (Novel(s) ==> Novel(t))
            && t.book.log.sent == s.book.log.sent + RequestCount(events)
            && t.book.log.dropped == s.book.log.dropped + DropCount(events)
            && t.book.log.seeds == s.book.log.seeds + SeedsIn(env, events)
  {
    hide Sound, Room, Places, StepAt, Resume, SeedsOk, Novel;
    ResumeSound(env, s, exts, last, order);
    ResumeHistory(env, s, exts, last, order);
    SeedCounts(env, s, states[0]);
    if Novel(s) { ResumeNovel(env, s, exts, last, order); }
    RunSound(env, states, events, |events|);
    RunHistory(env, states, events);
  }

  lemma NoTighter(env: Env, s: Scan, t: Scan, r: Scan)
    requires Room(env, s) >= 0 && Places(s) >= 0 && Within(env, s, t, 0, 0) && Within(env, t, r, 0, 0)
    ensures Room(env, r) >= 0 && Places(r) >= 0
  {
    hide Room, Places;
  }

  lemma EndBounded(env: Env, t: Scan)
    requires Sound(env, t) && Room(env, t) >= 0 && Places(t) >= 0 && SeedsOk(env, t) && Novel(t)
    ensures |t.book.log.sent| <= PushBound(env, |t.seen|, t.book.log.seeds)
  {
    hide Sound, Room, Places, SeedsOk, PushBound, DirBound, Novel;
    IsNovel(t);
    PushesBounded(env, t);
    SentIsPushed(env, t);
  }

  /** A resumed scan's runs obey the same bound, the saved scan's own requests included. */
  lemma BoundedAcross(env: Env, s: Scan, exts: seq<string>, last: real, order: seq<string>, states: seq<Scan>, events: seq<Event>)
    requires env.resumed && Sound(env, s) && Room(env, s) >= 0 && Places(s) >= 0 && SeedsOk(env, s) && Novel(s) && "" in s.book.dirs
    requires Restarts(s, order) && IsRun(env, states, events) && states[0] == Resume(env, s, exts, last, order)
    ensures |s.book.log.sent| + |RequestCount(events)|
            <= PushBound(env, |states[|events|].seen|, s.book.log.seeds + SeedsIn(env, events))
  {
    hide Sound, Room, Places, StepAt, Resume, SeedsOk, PushBound, DirBound, Novel, Restarts, SeedsIn, Within;
    ResumeRooms(env, s, exts, last, order);
    AcrossHistory(env, s, exts, last, order, states, events);
    NoTighter(env, s, states[0], states[|events|]);
    EndBounded(env, states[|events|]);
  }

  /** No (directory, path) pair is requested twice, whichever side of the save, if paths are kept apart. */
  lemma OnceAcross(env: Env, s: Scan, exts: seq<string>, last: real, order: seq<string>, states: seq<Scan>, events: seq<Event>, k: Key)
    requires env.resumed && Sound(env, s) && SeedsOk(env, s) && Restarts(s, order)
    requires IsRun(env, states, events) && states[0] == Resume(env, s, exts, last, order) && KeptApart(env, states[|events|])
    ensures s.book.log.sent[k] + RequestCount(events)[k] <= 1
  {
    hide Sound, Room, Places, StepAt, Resume, SeedsOk, KeptApart, Novel;
    AcrossHistory(env, s, exts, last, order, states, events);
    ApartIs(env, states[|events|]);
    OnceEach(env, states[|events|], k);
  }

  /** What a fresh run reaches is what a resume starts from. */
  lemma SavedReached(env: Env, s: Scan)
    requires Reached(env, s)
    ensures var e := env.(resumed := true);
            Sound(e, s) && Room(e, s) >= 0 && Places(s) >= 0 && SeedsOk(e, s) && Novel(s) && "" in s.book.dirs
  {
    hide Inv, Ledgered, CacheOk, Novel, Throttled, PushRoom, DirRoom;
  }
}
