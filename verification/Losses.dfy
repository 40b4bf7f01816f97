/** What a resume loses for good: the pages queued to fetch, and the seeds pending in directories that were
    still calibrating. */
module Losses {
  import opened ScanTypes
  import opened Counting
  import opened Accounting
  import opened Invariants
  import opened ScanModel
  import opened Pushing
  import opened Soundness
  import opened Seeds
  import opened Runs
  import opened History
  import opened Theorems
  import opened Ledgers
  import opened Session
  import opened Flow
  import opened Progress
  import opened Growth
  import opened Gates
  import Blast

  // ---- Pages ----------------------------------------------------------------------------

  lemma {:induction false} RecalibratedFetches(env: Env, s: Scan, saved: Saved, order: seq<string>, old_: set<string>)
    requires Fetching(env, s, old_) && forall d :: d in order ==> d in saved.dirs
    ensures Fetching(env, Recalibrated(env, s, saved, order), old_)
  {
    hide StartCalibration, Fetching, Draws, Pages;
    if order != [] {
      var n := |order| - 1;
      RecalibratedFetches(env, s, saved, order[..n], old_);
      var s1 := Recalibrated(env, s, saved, order[..n]);
      if order[n] !in s1.book.dirs {
        StartFlows(env, s1, order[n], saved.dirs[order[n]].depth, 0);
        FlowFetches(env, s1, Recalibrated(env, s, saved, order), old_);
      }
    }
  }

  /** A page queued to fetch at the save is never fetched after the resume: it is already marked visited, and
      no run of the resumed scan queues such a page again. */
  lemma QueuedFetchForgotten(env: Env, states0: seq<Scan>, events0: seq<Event>, resumed: Env, exts: seq<string>, last: real,
                             order: seq<string>, states: seq<Scan>, events: seq<Event>, i: nat)
    requires IsRun(env, states0, events0) && Fresh(env, states0[0]) && Restarts(states0[|events0|], order)
    requires IsRun(resumed, states, events) && states[0] == Resume(resumed, states0[|events0|], exts, last, order)
    requires i < |events| && events[i].FetchSent?
    ensures states[i].harvestQueue != [] && states[i].harvestQueue[0] !in states0[|events0|].harvestQueue
  {
    hide Fresh, Restarts, Recalibrated, Next, Enabled;
    var s := states0[|events0|];
    QueuedIsVisited(env, states0, events0, |events0|);
    BaseFetches(resumed, s, exts, last);
    SavedDirs(s, exts, last, order);
    RecalibratedFetches(resumed, Base(s, exts, last), BuildSnapshot(s), order, s.visited);
    RunFetches(resumed, states, events, i, s.visited);
    assert StepAt(resumed, states, events, i);
    FetchNeedsPage(resumed, states[i]);
  }

  lemma FetchNeedsPage(env: Env, s: Scan)
    requires Enabled(env, s, FetchSent)
    ensures s.harvestQueue != []
  {
    hide ProbesWait;
  }

  lemma BaseFetches(env: Env, s: Scan, exts: seq<string>, last: real)
    ensures Fetching(env, Base(s, exts, last), s.visited)
  {
  }

  lemma SavedDirs(s: Scan, exts: seq<string>, last: real, order: seq<string>)
    requires Restarts(s, order)
    ensures forall d :: d in order ==> d in BuildSnapshot(s).dirs && d !in Base(s, exts, last).book.dirs
  {
    hide LogAfter, RestoreDir;
  }

  // ---- Pending seeds --------------------------------------------------------------------

  /** Ending a calibration that does not start over pushes just what the template, nmap and the pending seeds
      name. */
  lemma FinishPlain(env: Env, s: Scan, d: string, p: string)
    requires Ending(env, s, d) && !Relapses(env, s, d)
    ensures d in s.book.dirs
    ensures Noted(FinishCalibration(env, s, d), d, p) <==> p in PushedPaths(env, s, d)
  {
    hide Ending, Room, Places, PushCandidates, Pivot, ReprioritizeIfChanged, Grew, PathsOf, NmapPaths;
    EndingHas(env, s, d);
    var cal := env.calibrate(d, s.rootRefined);
    var s1 := s.(spaDirs := s.spaDirs[d := cal.spa]);
    AlikeKeeps(env, s, s1);
    if d == "" && !s.rootRefined {
      var s1' := s1.(rootRefined := true, scoring := s1.scoring.(profile := cal.profile));
      ReprioritizeEnding(env, s1, cal.profile, d);
      ReprioritizeDirs(env, s1');
      OpensWith(env, ReprioritizeIfChanged(env, s1'), d, cal.spa, p);
    } else {
      OpensWith(env, s1, d, cal.spa, p);
    }
  }

  lemma OpensWith(env: Env, s: Scan, d: string, spa: bool, p: string)
    requires Ending(env, s, d)
    ensures d in s.book.dirs
    ensures Noted(PushCandidates(env, Pivot(env, s, d, spa), d), d, p) <==> p in PushedPaths(env, s, d)
  {
    hide Ending, Room, Places, PushCandidates, Pivot, PathsOf, NmapPaths;
    EndingPending(env, s, d);
    PivotEnding(env, s, d, spa);
    EndingPending(env, Pivot(env, s, d, spa), d);
    OpenKnows(env, Pivot(env, s, d, spa), d, p);
    PushedPending(env, Pivot(env, s, d, spa), d);
  }

  lemma EndingPending(env: Env, s: Scan, d: string)
    requires Ending(env, s, d)
    ensures d in s.book.dirs && PendingOk(s.book.dirs[d].pending, d)
  {
    hide Rest;
  }

  lemma PushedPending(env: Env, s: Scan, d: string)
    requires d in s.book.dirs
    ensures var b := PushCandidates(env, s, d).book; b.dirs.Keys == s.book.dirs.Keys && b.dirs[d].pending == map[]
  {
    hide CandidateSet, BudgetOf;
  }

  /** What the extensions are once the root's calibration has been started in a scan with these. */
  function ExtsAfter(env: Env, exts: seq<string>, refined: bool): seq<string>
  {
    var more := env.calibrate("", false).exts;
    if Probes(env, "", exts, 0) == [] && !refined && Grew(exts, more) then more else exts
  }

  /** Starting d's calibration in a scan with these extensions sends no probe at all. */
  predicate Unprobed(env: Env, exts: seq<string>, refined: bool, d: string)
  {
    Probes(env, d, exts, 0) == [] && (d == "" ==> Probes(env, d, ExtsAfter(env, exts, refined), 0) == [])
  }

  /** A directory that is calibrated anew knows a path at once exactly if it had nothing to probe and the
      template or nmap names the path. */
  lemma StartNoted(env: Env, s: Scan, d: string, depth: int, p: string)
    requires Sound(env, s) && d !in s.book.dirs
    ensures Noted(StartCalibration(env, s, d, depth), d, p)
       <==> Unprobed(env, s.exts, s.rootRefined, d) && p in PathsOf(env.template) + NmapPaths(env, d)
  {
    hide Sound, Ending, Room, Places, FinishCalibration, Probes, PathsOf, NmapPaths, Grew;
    var probes := Probes(env, d, s.exts, 0);
    BeginSteps(env, s, d, depth, probes);
    if probes == [] {
      var s1 := s.(book := Started(s.book, d, depth, probes));
      if Relapses(env, s1, d) {
        RelapseForgets(env, s1, p);
      } else {
        FinishPlain(env, s1, d, p);
      }
    }
  }

  /** From s to r the directories other than e are as they were. */
  ghost predicate Elsewhere(s: Scan, r: Scan, e: string)
  {
    forall d :: d in s.book.dirs && d != e ==> d in r.book.dirs && r.book.dirs[d] == s.book.dirs[d]
  }

  lemma EndElsewhere(env: Env, s: Scan, e: string, spa: bool)
    requires e in s.book.dirs
    ensures var r := PushCandidates(env, Pivot(env, s, e, spa), e);
            Elsewhere(s, r, e) && r.exts == s.exts && r.rootRefined == s.rootRefined
  {
    hide CandidateSet, BudgetOf, Score, MapAll, Keys, SameHistory, SameClock, WithoutFirst;
  }

  lemma RestartElsewhere(s: Scan, e: string, probes: seq<string>)
    requires e in s.book.dirs
    ensures Elsewhere(s, s.(book := Restarted(s.book, e, probes)), e) && e in Restarted(s.book, e, probes).dirs
  {
    hide WithoutFirst;
  }

  lemma ElsewhereThen(s: Scan, t: Scan, r: Scan, e: string)
    requires Elsewhere(s, t, e) && Elsewhere(t, r, e)
    ensures Elsewhere(s, r, e)
  {
  }

  lemma SameElsewhere(s: Scan, t: Scan, r: Scan, e: string)
    requires t.book.dirs == s.book.dirs
    ensures Elsewhere(s, r, e) == Elsewhere(t, r, e)
  {
  }

  /** A calibration leaves the other directories alone, and the extensions too, unless the root's first one grows
      them. */
  lemma {:induction false} FinishElsewhere(env: Env, s: Scan, e: string)
    requires e in s.book.dirs
    ensures var r := FinishCalibration(env, s, e);
            && Elsewhere(s, r, e) && r.exts == (if Relapses(env, s, e) then env.calibrate("", false).exts else s.exts)
            && (e != "" || s.rootRefined ==> r.rootRefined == s.rootRefined)
    decreases if s.rootRefined then 0 else 1, 1
  {
    hide Elsewhere, Recalibrate, PushCandidates, Pivot, ReprioritizeIfChanged, Restarted, Probes, Grew, SameHistory, SameClock;
    var cal := env.calibrate(e, s.rootRefined);
    var s1 := s.(spaDirs := s.spaDirs[e := cal.spa]);
    var r := FinishCalibration(env, s, e);
    if e == "" && !s.rootRefined {
      var s1' := s1.(rootRefined := true, scoring := s1.scoring.(profile := cal.profile));
      var s2 := ReprioritizeIfChanged(env, s1');
      ReprioritizeDirs(env, s1');
      SameElsewhere(s, s2, r, e);
      if Grew(s2.exts, cal.exts) {
        AgainElsewhere(env, s2.(exts := cal.exts), e);
        SameElsewhere(s2, s2.(exts := cal.exts), r, e);
      } else {
        EndElsewhere(env, s2, e, cal.spa);
      }
    } else {
      SameElsewhere(s, s1, r, e);
      EndElsewhere(env, s1, e, cal.spa);
    }
  }

  lemma {:induction false} AgainElsewhere(env: Env, s: Scan, e: string)
    requires e in s.book.dirs && s.rootRefined
    ensures var r := Recalibrate(env, s, e);
            Elsewhere(s, r, e) && r.exts == s.exts && r.rootRefined == s.rootRefined
    decreases 0, 2
  {
    hide Elsewhere, FinishCalibration, Restarted, Probes, Grew;
    var probes := Probes(env, e, s.exts, 0);
    var s1 := s.(book := Restarted(s.book, e, probes));
    RestartElsewhere(s, e, probes);
    if probes == [] {
      FinishElsewhere(env, s1, e);
      ElsewhereThen(s, s1, FinishCalibration(env, s1, e), e);
    }
  }

  lemma StartElsewhere(env: Env, s: Scan, e: string, depth: int)
    requires e !in s.book.dirs
    ensures var r := StartCalibration(env, s, e, depth);
            && Elsewhere(s, r, e) && r.exts == (if e == "" then ExtsAfter(env, s.exts, s.rootRefined) else s.exts)
            && (e != "" ==> r.rootRefined == s.rootRefined)
  {
    hide FinishCalibration, Probes, Elsewhere, Grew;
    var probes := Probes(env, e, s.exts, 0);
    var s1 := s.(book := Started(s.book, e, depth, probes));
    StartedElsewhere(s, e, depth, probes);
    if probes == [] {
      FinishElsewhere(env, s1, e);
      ElsewhereThen(s, s1, FinishCalibration(env, s1, e), e);
    }
  }

  lemma StartedElsewhere(s: Scan, e: string, depth: int, probes: seq<string>)
    requires e !in s.book.dirs
    ensures Elsewhere(s, s.(book := Started(s.book, e, depth, probes)), e)
  {
  }

  /** The extensions a resumed scan calibrates d with: the given ones, unless the root comes before it and
      grows them. */
  function ExtsFor(env: Env, exts: seq<string>, refined: bool, before: seq<string>): seq<string>
  {
    if "" in before then ExtsAfter(env, exts, refined) else exts
  }

  /** The last directory to start over does so in the scan the others left. */
  lemma LastStarts(env: Env, s: Scan, saved: Saved, order: seq<string>)
    requires order != [] && forall d :: d in order ==> d in saved.dirs
    ensures Recalibrated(env, s, saved, order)
            == EnqueueChild(env, Recalibrated(env, s, saved, order[..|order| - 1]), order[|order| - 1],
                            saved.dirs[order[|order| - 1]].depth)
  {
    hide StartCalibration;
  }

  /** What one more directory to start over adds. */
  lemma LastDirs(env: Env, s: Scan, saved: Saved, order: seq<string>)
    requires order != [] && forall d :: d in order ==> d in saved.dirs
    ensures Recalibrated(env, s, saved, order).book.dirs.Keys
            == Recalibrated(env, s, saved, order[..|order| - 1]).book.dirs.Keys + {order[|order| - 1]}
  {
    hide Recalibrated, EnqueueChild;
    LastStarts(env, s, saved, order);
    Blast.ChildDirs(env, Recalibrated(env, s, saved, order[..|order| - 1]), order[|order| - 1], saved.dirs[order[|order| - 1]].depth);
  }

  lemma {:induction false} RecalibratedDirs(env: Env, s: Scan, saved: Saved, order: seq<string>)
    requires forall d :: d in order ==> d in saved.dirs
    ensures forall d :: d in Recalibrated(env, s, saved, order).book.dirs <==> d in s.book.dirs || d in order
  {
    if order == [] {
    } else {
      hide Recalibrated;
      RecalibratedDirs(env, s, saved, order[..|order| - 1]);
      LastDirs(env, s, saved, order);
    }
  }

  lemma LastExts(env: Env, s: Scan, saved: Saved, order: seq<string>)
    requires order != [] && forall d :: d in order ==> d in saved.dirs
    requires order[|order| - 1] !in Recalibrated(env, s, saved, order[..|order| - 1]).book.dirs
    ensures var e, s1, r := order[|order| - 1], Recalibrated(env, s, saved, order[..|order| - 1]), Recalibrated(env, s, saved, order);
            && r.exts == (if e == "" then ExtsAfter(env, s1.exts, s1.rootRefined) else s1.exts)
            && (e != "" ==> r.rootRefined == s1.rootRefined)
  {
    hide Recalibrated, StartCalibration, ExtsAfter, Elsewhere;
    LastStarts(env, s, saved, order);
    StartElsewhere(env, Recalibrated(env, s, saved, order[..|order| - 1]), order[|order| - 1], saved.dirs[order[|order| - 1]].depth);
  }

  lemma {:induction false} RecalibratedExts(env: Env, s: Scan, saved: Saved, order: seq<string>)
    requires forall d :: d in order ==> d in saved.dirs && d !in s.book.dirs
    requires forall i, j :: 0 <= i < j < |order| ==> order[i] != order[j]
    ensures Recalibrated(env, s, saved, order).exts == ExtsFor(env, s.exts, s.rootRefined, order)
    ensures "" !in order ==> Recalibrated(env, s, saved, order).rootRefined == s.rootRefined
  {
    if order == [] {
    } else {
      hide Recalibrated, ExtsAfter;
      var init := order[..|order| - 1];
      RecalibratedExts(env, s, saved, init);
      RecalibratedDirs(env, s, saved, init);
      LastExts(env, s, saved, order);
      assert order == init + [order[|order| - 1]];
    }
  }

  lemma {:induction false} RecalibratedKeeps(env: Env, s: Scan, saved: Saved, order: seq<string>, n: nat, d: string)
    requires n <= |order| && (forall e :: e in order ==> e in saved.dirs) && d in Recalibrated(env, s, saved, order[..n]).book.dirs
    ensures var r := Recalibrated(env, s, saved, order);
            d in r.book.dirs && r.book.dirs[d] == Recalibrated(env, s, saved, order[..n]).book.dirs[d]
    decreases |order|
  {
    hide Recalibrated;
    if n < |order| {
      var k := |order| - 1;
      assert order[..k][..n] == order[..n];
      RecalibratedKeeps(env, s, saved, order[..k], n, d);
      NextKeeps(env, s, saved, order, d);
    } else {
      assert order[..n] == order;
    }
  }

  lemma NextKeeps(env: Env, s: Scan, saved: Saved, order: seq<string>, d: string)
    requires order != [] && (forall e :: e in order ==> e in saved.dirs)
    requires d in Recalibrated(env, s, saved, order[..|order| - 1]).book.dirs
    ensures var r := Recalibrated(env, s, saved, order);
            d in r.book.dirs && r.book.dirs[d] == Recalibrated(env, s, saved, order[..|order| - 1]).book.dirs[d]
  {
    hide Recalibrated, StartCalibration, ExtsAfter;
    var k := |order| - 1;
    var s1 := Recalibrated(env, s, saved, order[..k]);
    LastStarts(env, s, saved, order);
    if order[k] !in s1.book.dirs { StartElsewhere(env, s1, order[k], saved.dirs[order[k]].depth); }
  }

  /** A seed pending in a directory that was calibrating at the save survives the resume if and only if the
      directory, calibrated anew, has nothing in scope to probe, and the template or nmap names the path. */
  lemma PendingForgotten(env: Env, s: Scan, exts: seq<string>, last: real, order: seq<string>, i: nat, p: string)
    requires Sound(env, s) && env.resumed && Restarts(s, order) && i < |order|
    requires p in s.book.dirs[order[i]].pending
    ensures Noted(Resume(env, s, exts, last, order), order[i], p)
       <==> Unprobed(env, ExtsFor(env, exts, s.rootRefined, order[..i]), s.rootRefined, order[i])
            && p in PathsOf(env.template) + NmapPaths(env, order[i])
  {
    hide Sound, Room, Places, StartCalibration, PathsOf, NmapPaths, Unprobed, ExtsFor, Base, BuildSnapshot, Recalibrated, Noted;
    var base, saved, d := Base(s, exts, last), BuildSnapshot(s), order[i];
    BaseSound(env, s, exts, last);
    SavedDirs(s, exts, last, order);
    BaseStarts(s, exts, last);
    RestartedAt(env, base, saved, order, i, p);
  }

  lemma BaseStarts(s: Scan, exts: seq<string>, last: real)
    ensures var b := Base(s, exts, last); b.exts == exts && b.rootRefined == s.rootRefined
  {
  }

  /** The i-th directory to start over, whatever starts over before and after it. */
  lemma RestartedAt(env: Env, s: Scan, saved: Saved, order: seq<string>, i: nat, p: string)
    requires Sound(env, s) && (forall d :: d in order ==> d in saved.dirs && d !in s.book.dirs) && i < |order|
    requires forall i, j :: 0 <= i < j < |order| ==> order[i] != order[j]
    ensures Noted(Recalibrated(env, s, saved, order), order[i], p)
       <==> Unprobed(env, ExtsFor(env, s.exts, s.rootRefined, order[..i]), s.rootRefined, order[i])
            && p in PathsOf(env.template) + NmapPaths(env, order[i])
  {
    hide Sound, Recalibrated, PathsOf, NmapPaths, Unprobed, ExtsFor;
    LastNoted(env, s, saved, order[..i + 1], p);
    assert order[..i + 1][..i] == order[..i];
    RecalibratedDirs(env, s, saved, order[..i + 1]);
    RecalibratedKeeps(env, s, saved, order, i + 1, order[i]);
  }

  lemma LastNoted(env: Env, s: Scan, saved: Saved, order: seq<string>, p: string)
    requires Sound(env, s) && (forall d :: d in order ==> d in saved.dirs && d !in s.book.dirs) && order != []
    requires forall i, j :: 0 <= i < j < |order| ==> order[i] != order[j]
    ensures var d, before := order[|order| - 1], order[..|order| - 1];
            Noted(Recalibrated(env, s, saved, order), d, p)
            <==> Unprobed(env, ExtsFor(env, s.exts, s.rootRefined, before), s.rootRefined, d)
                 && p in PathsOf(env.template) + NmapPaths(env, d)
  {
    hide Sound, Room, Places, StartCalibration, PathsOf, NmapPaths, Unprobed, ExtsFor, Recalibrated, Noted;
    var n := |order| - 1;
    var d, before := order[n], Recalibrated(env, s, saved, order[..n]);
    RecalibratedSound(env, s, saved, order[..n]);
    RecalibratedExts(env, s, saved, order[..n]);
    RecalibratedDirs(env, s, saved, order[..n]);
    assert d !in before.book.dirs;
    LastStarts(env, s, saved, order);
    StartNoted(env, before, d, saved.dirs[d].depth, p);
    RefinedOnly(env, before.exts, before.rootRefined, s.rootRefined, d);
  }

  lemma RefinedOnly(env: Env, exts: seq<string>, a: bool, b: bool, d: string)
    requires d == "" ==> a == b
    ensures Unprobed(env, exts, a, d) == Unprobed(env, exts, b, d)
  {
    hide Probes;
  }

  // ---- What is not lost -----------------------------------------------------------------

  lemma BaseDue(env: Env, s: Scan, exts: seq<string>, last: real, w: Want)
    requires !w.seed && Due(env, s, w)
    ensures Due(env, Base(s, exts, last), w)
  {
    hide PathsOf, LogAfter;
  }

  lemma {:induction false} RecalibratedDue(env: Env, s: Scan, saved: Saved, order: seq<string>, w: Want)
    requires Sound(env, s) && Due(env, s, w) && forall d :: d in order ==> d in saved.dirs
    ensures Due(env, Recalibrated(env, s, saved, order), w)
  {
    hide Sound, Room, Places, Due, EnqueueChild;
    if order == [] {
    } else {
      var n := |order| - 1;
      RecalibratedDue(env, s, saved, order[..n], w);
      RecalibratedSound(env, s, saved, order[..n]);
      LastStarts(env, s, saved, order);
      ChildNotes(env, Recalibrated(env, s, saved, order[..n]), order[n], saved.dirs[order[n]].depth, w);
    }
  }

  /** In a quiet scan no directory is still calibrating, so everything due has been pushed, and sent or dropped. */
  lemma QuietDone(env: Env, s: Scan, w: Want)
    requires Sound(env, s) && Quiescent(s) && Due(env, s, w) && !w.seed && w.dir in s.book.dirs
    ensures (w.dir, w.path) in s.book.log.sent + s.book.log.dropped
  {
    hide Cacheable, PushedOnce, PathsOf, FirstToProbe;
    assert DirOk(s.book, w.dir);
    QuietDirectory(s, w.dir);
    assert s.book.dirs[w.dir].phase == Calibrating ==> multiset(s.book.order)[w.dir] > 0;
    assert s.book.log.pushed[(w.dir, w.path)] > 0;
    assert Keys(s.book.queue) == multiset{};
  }

  /** Coverage across a save and a resume: when the resumed scan comes to rest, every template path of every
      directory has been requested or discarded, on one side of the save or the other. What was in flight at
      the save counts as requested; its answer is what got lost. */
  lemma EveryPathAcross(env: Env, states0: seq<Scan>, events0: seq<Event>, exts: seq<string>, last: real, order: seq<string>,
                        states: seq<Scan>, events: seq<Event>, d: string, p: string)
    requires IsRun(env, states0, events0) && Fresh(env, states0[0]) && Configured(env) && Restarts(states0[|events0|], order)
    requires var e := env.(resumed := true); IsRun(e, states, events) && states[0] == Resume(e, states0[|events0|], exts, last, order)
    requires Quiescent(states[|events|]) && d in states[|events|].book.dirs && p in PathsOf(env.template)
    ensures (d, p) in RequestCount(events0) + DropCount(events0) + RequestCount(events) + DropCount(events)
  {
    hide Sound, Room, Places, SeedsOk, Novel, Throttled, Fresh, Configured, StepAt, Due, PathsOf, Restarts,
         Recalibrated, Base, BuildSnapshot, Quiescent;
    var w, s, e := Want(d, p, false), states0[|events0|], env.(resumed := true);
    FreshSound(env, states0[0]);
    FreshDue(env, states0[0], w);
    RunDue(env, states0, events0, 0, |events0|, w);
    RunReaches(env, states0, events0);
    SavedReached(env, s);
    SameDue(env, e, s, w);
    SavedDirs(s, exts, last, order);
    BaseSound(e, s, exts, last);
    BaseDue(e, s, exts, last, w);
    RecalibratedDue(e, Base(s, exts, last), BuildSnapshot(s), order, w);
    ResumeSound(e, s, exts, last, order);
    RunDue(e, states, events, 0, |events|, w);
    AcrossHistory(e, s, exts, last, order, states, events);
    QuietDone(e, states[|events|], w);
  }

  lemma SameDue(env: Env, e: Env, s: Scan, w: Want)
    requires Due(env, s, w) && !w.seed && e.template == env.template
    ensures Due(e, s, w)
  {
    hide PathsOf;
  }

  // ---- Exclusions -----------------------------------------------------------------------

  lemma BaseLeveled(env: Env, s: Scan, exts: seq<string>, last: real)
    requires Inv(s.book) && Leveled(env, s.book)
    ensures Leveled(env, Base(s, exts, last).book)
  {
    hide Inv, Base, Placed, Fits, PendingFit, SameHistory;
    RestoreKeeps(env, s, exts, last);
    var dirs, dirs' := s.book.dirs, Base(s, exts, last).book.dirs;
    forall d | d in dirs' ensures Placed(env, d, dirs'[d]) && PendingFit(env, dirs', d, dirs'[d].pending) {
      NoneHeld(s.book, d);
      SamePlaced(env, d, dirs[d]);
      NonePending(env, dirs', d);
    }
    forall c | c in s.book.queue ensures Fits(env, dirs', c) {
      QueuedIsScanning(s.book, c);
      SameFits(env, dirs, dirs', c);
    }
    NothingFlies(env, s, exts, last);
  }

  lemma NoneHeld(b: Book, d: string)
    requires Inv(b) && d in b.dirs && b.dirs[d].phase != Calibrating
    ensures b.dirs[d].pending == map[]
  {
    assert DirOk(b, d);
  }

  lemma SamePlaced(env: Env, d: string, r: DirRec)
    requires Placed(env, d, r)
    ensures Placed(env, d, r.(probesDone := 0, probesTotal := 0))
  {
    hide Slashes, Deepest, InScope;
  }

  lemma SameFits(env: Env, dirs: map<string, DirRec>, dirs': map<string, DirRec>, c: Candidate)
    requires Fits(env, dirs, c) && c.parentDir in dirs' && dirs'[c.parentDir].depth == dirs[c.parentDir].depth
    ensures Fits(env, dirs', c)
  {
    hide Slashes, Deepest;
  }

  lemma NothingFlies(env: Env, s: Scan, exts: seq<string>, last: real)
    ensures var b := Base(s, exts, last).book; b.flying == multiset{} && AllFit(env, b.dirs, b.flying)
  {
    hide Fits, LogAfter;
  }

  lemma {:induction false} RecalibratedLeveled(env: Env, s: Scan, saved: Saved, order: seq<string>)
    requires Leveled(env, s.book) && forall d :: d in order ==> d in saved.dirs && Addable(env, d, saved.dirs[d].depth)
    ensures Leveled(env, Recalibrated(env, s, saved, order).book)
    ensures Recalibrated(env, s, saved, order).scoring.overrides == s.scoring.overrides
  {
    hide Leveled, EnqueueChild, Addable;
    if order == [] {
    } else {
      hide Recalibrated;
      var n := |order| - 1;
      RecalibratedLeveled(env, s, saved, order[..n]);
      LastStarts(env, s, saved, order);
      ChildGrows(env, Recalibrated(env, s, saved, order[..n]), order[n], saved.dirs[order[n]].depth);
    }
  }

  /** A resumed scan starts with its levels right, and without a single override. */
  lemma ResumeLeveled(env: Env, s: Scan, exts: seq<string>, last: real, order: seq<string>)
    requires Inv(s.book) && Leveled(env, s.book) && Restarts(s, order)
    ensures var r := Resume(env, s, exts, last, order); Leveled(env, r.book) && r.scoring.overrides == []
  {
    hide Inv, Leveled, Recalibrated, Addable;
    BaseLeveled(env, s, exts, last);
    SavedDirs(s, exts, last, order);
    SavedAddable(env, s, order);
    RecalibratedLeveled(env, Base(s, exts, last), BuildSnapshot(s), order);
  }

  lemma SavedAddable(env: Env, s: Scan, order: seq<string>)
    requires Leveled(env, s.book) && Restarts(s, order)
    ensures forall d :: d in order ==> d in BuildSnapshot(s).dirs && Addable(env, d, BuildSnapshot(s).dirs[d].depth)
  {
    hide Slashes, Deepest, InScope;
    forall d | d in order ensures d in BuildSnapshot(s).dirs && Addable(env, d, BuildSnapshot(s).dirs[d].depth) {
      assert Placed(env, d, s.book.dirs[d]);
    }
  }

  /** An exclusion does not survive a resume: in a resumed run a path is excluded exactly if an exclusion made since matches it. */
  lemma ExclusionsForgotten(env: Env, s: Scan, exts: seq<string>, last: real, order: seq<string>,
                            states: seq<Scan>, events: seq<Event>, d: string, p: string)
    requires env.resumed && Sound(env, s) && Leveled(env, s.book) && Restarts(s, order)
    requires IsRun(env, states, events) && states[0] == Resume(env, s, exts, last, order)
    ensures Excluded(env, states[|events|].scoring.overrides, d, p)
       <==> exists i :: 0 <= i < |events| && events[i].Barred? && env.matches(events[i].pattern, d, p)
  {
    hide StepAt, Room, Places, Inv, Rest, Leveled, Resume, Excluded;
    ResumeLeveled(env, s, exts, last, order);
    ResumeSound(env, s, exts, last, order);
    ExcludedIs(env, states, events, d, p);
  }
}
