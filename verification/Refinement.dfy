/** What the root's calibration decides, over whole runs: the profile, the extensions and the SPA mode. */
module Refinement {
  import opened ScanTypes
  import opened Counting
  import opened Text
  import opened Paths
  import opened Accounting
  import opened Invariants
  import opened Ledgers
  import opened ScanModel
  import opened Soundness
  import opened Stepping
  import opened Runs
  import opened Theorems
  import opened Scores

  /** Some of the extensions are new. */
  predicate AnyNew(exts: seq<string>, more: seq<string>)
  {
    exists e :: e in more && e !in exts
  }

  lemma GrewIs(exts: seq<string>, more: seq<string>)
    ensures Grew(exts, more) <==> AnyNew(exts, more)
  {
    if e :| e in more && e !in exts {
      var i :| 0 <= i < |more| && more[i] == e;
    }
    if i :| 0 <= i < |more| && more[i] !in exts { assert more[i] in more; }
  }

  /** What the root is calibrated as in the end, in a scan that starts with these extensions: the first time, or the second
      when that one found an extension the scan did not have. */
  function Verdict(env: Env, exts: seq<string>): bool
  {
    if AnyNew(exts, env.calibrate("", false).exts) then env.calibrate("", true).spa else env.calibrate("", false).spa
  }

  /** A scan that started with this profile and these extensions has them until the root's first calibration ends; from then on
      it has the profile that calibration refined, and its extensions if one of them was new. It is in SPA mode exactly when
      the root has been opened and its last calibration showed an SPA. */
  ghost predicate Decided(env: Env, profile: nat, exts: seq<string>, s: Scan)
  {
    var first := env.calibrate("", false);
    && s.scoring.profile == (if s.rootRefined then first.profile else profile)
    && s.exts == (if s.rootRefined && AnyNew(exts, first.exts) then first.exts else exts)
    && (s.rootRefined ==> RootOpened(s) || AnyNew(exts, first.exts))
    && (RootOpened(s) ==> s.rootRefined && "" in s.spaDirs && s.spaDirs[""] == Verdict(env, exts))
    && (s.scoring.spaMode <==> RootOpened(s) && Verdict(env, exts))
  }

  lemma SameDecided(env: Env, profile: nat, exts: seq<string>, s: Scan, r: Scan)
    requires Decided(env, profile, exts, s) && SameRoot(s, r) && RootOpened(r) == RootOpened(s)
    ensures Decided(env, profile, exts, r)
  {
    hide AnyNew, Verdict;
  }

  /** What opening the root leaves. */
  lemma EndDecides(env: Env, s: Scan, spa: bool)
    requires "" in s.book.dirs && !s.scoring.spaMode
    ensures var r := PushCandidates(env, Pivot(env, s, "", spa), "");
            && RootOpened(r) && r.scoring.profile == s.scoring.profile && r.scoring.spaMode == spa && r.rootRefined == s.rootRefined
            && r.exts == s.exts && r.spaDirs == s.spaDirs
  {
    hide Pivot, PushCandidates, SameHistory, SameClock;
    RootPivots(env, s, spa);
    RootPushes(env, Pivot(env, s, "", spa));
  }

  lemma RootPivots(env: Env, s: Scan, spa: bool)
    requires "" in s.book.dirs && !s.scoring.spaMode
    ensures var r := Pivot(env, s, "", spa);
            && "" in r.book.dirs && r.scoring == s.scoring.(spaMode := spa) && r.rootRefined == s.rootRefined
            && r.exts == s.exts && r.spaDirs == s.spaDirs
  {
    hide MapAll, Score, SameHistory, SameClock;
  }

  lemma RootPushes(env: Env, s: Scan)
    requires "" in s.book.dirs
    ensures var r := PushCandidates(env, s, "");
            RootOpened(r) && r.scoring == s.scoring && r.rootRefined == s.rootRefined && r.exts == s.exts && r.spaDirs == s.spaDirs
  {
    hide CandidateSet, BudgetOf, WithoutFirst, Keys, SameHistory, SameClock;
  }

  lemma {:induction false} FinishDecides(env: Env, profile: nat, exts: seq<string>, s: Scan)
    requires "" in s.book.dirs && Decided(env, profile, exts, s) && !RootOpened(s)
    ensures Decided(env, profile, exts, FinishCalibration(env, s, ""))
    decreases if s.rootRefined then 0 else 1, 1
  {
    hide Pivot, PushCandidates, Grew, AnyNew, ReprioritizeIfChanged, Recalibrate, SameHistory, SameClock;
    var cal := env.calibrate("", s.rootRefined);
    var s1 := s.(spaDirs := s.spaDirs["" := cal.spa]);
    if !s.rootRefined {
      var s1' := s1.(rootRefined := true, scoring := s1.scoring.(profile := cal.profile));
      var s2 := ReprioritizeIfChanged(env, s1');
      RefinedAs(env, s1');
      GrewIs(exts, cal.exts);
      if Grew(s2.exts, cal.exts) {
        AgainDecides(env, profile, exts, s2.(exts := cal.exts));
      } else {
        EndDecides(env, s2, cal.spa);
      }
    } else {
      EndDecides(env, s1, cal.spa);
    }
  }

  lemma RefinedAs(env: Env, s: Scan)
    ensures var r := ReprioritizeIfChanged(env, s);
            && SameRoot(s, r) && r.spaDirs == s.spaDirs && r.book.log == s.book.log && r.book.dirs == s.book.dirs
  {
    hide MapAll, Score;
  }

  lemma {:induction false} AgainDecides(env: Env, profile: nat, exts: seq<string>, s: Scan)
    requires "" in s.book.dirs && s.rootRefined && Decided(env, profile, exts, s) && !RootOpened(s)
    ensures Decided(env, profile, exts, Recalibrate(env, s, ""))
    decreases 0, 2
  {
    hide FinishCalibration, Probes, AnyNew, WithoutFirst, Verdict, SameHistory, SameClock;
    var probes := Probes(env, "", s.exts, 0);
    var s1 := s.(book := Restarted(s.book, "", probes));
    SameDecided(env, profile, exts, s, s1);
    if probes == [] { FinishDecides(env, profile, exts, s1); }
  }

  /** The calibration of any other directory records whether it is an SPA shell, and decides nothing else. */
  lemma ChildDecides(env: Env, s: Scan, d: string)
    requires d in s.book.dirs && d != ""
    ensures var r := FinishCalibration(env, s, d);
            && SameRoot(s, r) && r.spaDirs == s.spaDirs[d := env.calibrate(d, s.rootRefined).spa]
            && d in r.book.log.openedWith && d in r.book.dirs && r.book.dirs[d].phase != Calibrating
  {
    hide CandidateSet, BudgetOf, WithoutFirst, Keys, SameHistory, SameClock;
  }

  // ---- Over a run -----------------------------------------------------------------------

  lemma CollectDecides(env: Env, profile: nat, exts: seq<string>, s: Scan, d: string)
    requires d in s.book.dirs && (d == "" ==> !RootOpened(s)) && Decided(env, profile, exts, s)
    ensures Decided(env, profile, exts, CollectProbe(env, s, d))
  {
    hide FinishCalibration, Decided, SameHistory, SameClock;
    var s1 := s.(book := ProbeBack(s.book, d));
    SameDecided(env, profile, exts, s, s1);
    if s1.book.dirs[d].probesDone >= s1.book.dirs[d].probesTotal {
      if d != "" {
        FinishSwept(env, s1, d);
        SameDecided(env, profile, exts, s1, FinishCalibration(env, s1, d));
      } else {
        FinishDecides(env, profile, exts, s1);
      }
    }
  }

  lemma SweepSame(env: Env, s: Scan, pattern: string, kind: OverrideKind, factor: Factor)
    ensures var r := Sweep(env, WithOverride(s, pattern, kind, factor)); SameRoot(s, r) && RootOpened(r) == RootOpened(s)
  {
    hide MapAll, Score;
  }

  lemma PinDecides(env: Env, profile: nat, exts: seq<string>, s: Scan, pattern: string, picks: seq<Candidate>)
    requires |picks| == |Segments(pattern)| && Decided(env, profile, exts, s)
    ensures Decided(env, profile, exts, ApplyPin(env, s, pattern, picks))
  {
    hide EnqueueSeed, Segments, IsGlob, Sweep, Decided;
    var s1 := Sweep(env, WithOverride(s, pattern, Boost, PIN_SCORE));
    SweepSame(env, s, pattern, Boost, PIN_SCORE);
    SameDecided(env, profile, exts, s, s1);
    if !IsGlob(pattern) {
      SeedSwept(env, s1, Seed(pattern, false, 1.0, "user:pin"), picks);
      SameDecided(env, profile, exts, s1, ApplyPin(env, s, pattern, picks));
    }
  }

  lemma StepDecides(env: Env, profile: nat, exts: seq<string>, s: Scan, e: Event)
    requires Sound(env, s) && Enabled(env, s, e) && Decided(env, profile, exts, s)
    ensures Decided(env, profile, exts, Next(env, s, e))
  {
    hide Sound, Blocked, Runs.Swept, FirstToProbe, Segments, CollectProbe, HandleReal, EnqueueSeed, ApplyPin, Bar, Dispatch,
         ScanModel.Discard, ProbesWait, ProbeOut, Sweep, FetchOut, EnqueueHarvestFetch, HandleHarvest, Decided, SameRoot, RootOpened, SameHistory, SameClock;
    var r := Next(env, s, e);
    match e
    case ProbeSent(d) => ProbeHas(s, d); ProbeOutSwept(s, d); SweptDecides(env, profile, exts, s, r);
    case FetchSent => PagesSwept(env, s, "", NoBody); SweptDecides(env, profile, exts, s, r);
    case FetchBack(url, body) => PagesSwept(env, s, url, body); SweptDecides(env, profile, exts, s, r);
    case FetchAsked(url) => PagesSwept(env, s, url, NoBody); SweptDecides(env, profile, exts, s, r);
    case ProducerDone => PagesSwept(env, s, "", NoBody); SweptDecides(env, profile, exts, s, r);
    case Requested(c) => DispatchSwept(s, c); SweptDecides(env, profile, exts, s, r);
    case Skipped(c) => DispatchSwept(s, c); SweptDecides(env, profile, exts, s, r);
    case ProbeBackAt(d) => CalibratingRoot(env, s, d); CollectDecides(env, profile, exts, s, d);
    case ResultBack(c, response, now) => RealSwept(env, s, c, response, now); SweptDecides(env, profile, exts, s, r);
    case Seeded(sd, picks) => SeedSwept(env, s, sd, picks); SweptDecides(env, profile, exts, s, r);
    case Pinned(pattern, picks) => PinDecides(env, profile, exts, s, pattern, picks);
    case Weighted(pattern, kind, factor) => SweepSame(env, s, pattern, kind, FactorOf(factor)); SameDecided(env, profile, exts, s, r);
    case Barred(pattern, removed) => BarSwept(s, pattern, removed); SweptDecides(env, profile, exts, s, r);
  }

  lemma SweptDecides(env: Env, profile: nat, exts: seq<string>, s: Scan, r: Scan)
    requires SweptAs(s, r) && Decided(env, profile, exts, s)
    ensures Decided(env, profile, exts, r)
  {
    hide Decided, SameRoot;
    SameDecided(env, profile, exts, s, r);
  }

  lemma StartDecides(env: Env, profile: nat, exts: seq<string>, producers: nat, last: real)
    ensures Decided(env, profile, exts, StartCalibration(env, Blank(env, profile, exts, producers, last), "", 0))
  {
    hide FinishCalibration, Probes, AnyNew, Verdict, SameHistory, SameClock;
    var b := Blank(env, profile, exts, producers, last);
    var probes := Probes(env, "", b.exts, 0);
    if probes == [] { FinishDecides(env, profile, exts, b.(book := Started(b.book, "", 0, probes))); }
  }

  /** The root is decided on once, over whole runs from a fresh start. */
  lemma {:induction false} RootDecided(env: Env, profile: nat, exts: seq<string>, producers: nat, last: real,
                                       states: seq<Scan>, events: seq<Event>)
    requires IsRun(env, states, events) && states[0] == StartCalibration(env, Blank(env, profile, exts, producers, last), "", 0)
    ensures Decided(env, profile, exts, states[|events|])
  {
    hide Sound, Room, Places, Enabled, Next, StartCalibration, Decided;
    if events == [] {
      StartDecides(env, profile, exts, producers, last);
    } else {
      var n := |events| - 1;
      PrefixRun(env, states, events);
      RootDecided(env, profile, exts, producers, last, states[..n + 1], events[..n]);
      assert Fresh(env, states[0]);
      FreshSound(env, states[0]);
      RunSound(env, states, events, n);
      StepDecides(env, profile, exts, states[n], events[n]);
    }
  }
}
