/** The request rate's adaptive backoff: multiplicative decrease on an onset, additive recovery. */
module RateLimiter {

  /** The rate an active backoff starts from when pacing was off. */
  const FALLBACK_RATE: real := 2.0

  /** The limiter's adaptive state: current rate, ceiling, last trigger or recovery step. */
  datatype Aimd = Aimd(rate: real, rateCap: real, lastTrigger: real, triggered: bool)

  function CapSet(s: Aimd, cap: real): Aimd
  {
    s.(rateCap := cap, rate := cap)
  }

  function Backed(s: Aimd, decrease: real, now: real): Aimd
  {
    var base := if s.rate <= 0.0 then FALLBACK_RATE else s.rate;
    s.(rate := base * decrease, lastTrigger := now, triggered := true)
  }

  predicate Settling(s: Aimd, now: real, settle: real)
  {
    s.triggered && now - s.lastTrigger < settle
  }

  /** A recovery step, if a clean window has passed, and whether it completed the recovery. */
  function Recovered(s: Aimd, step: real, window: real, now: real): (Aimd, bool)
  {
    if !s.triggered || now - s.lastTrigger < window then (s, false)
    else if s.rateCap <= 0.0 then (s.(lastTrigger := now, rate := 0.0, triggered := false), true)
    else if s.rate + step >= s.rateCap then (s.(lastTrigger := now, rate := s.rateCap, triggered := false), true)
    else (s.(lastTrigger := now, rate := s.rate + step), false)
  }

  class Limiter {
    var rate: real
    var rateCap: real
    var lastTrigger: real
    var triggered: bool

    constructor (rate: real)
      ensures State() == Built(rate)
    {
      this.rate, rateCap, lastTrigger, triggered := rate, rate, 0.0, false;
    }

    function State(): Aimd
      reads this
    {
      Aimd(rate, rateCap, lastTrigger, triggered)
    }

    method SetRateCap(cap: real)
      modifies this
      ensures State() == CapSet(old(State()), cap)
    {
      rateCap := cap;
      rate := cap;
    }

    method TriggerBackoff(decrease: real, now: real)
      modifies this
      ensures State() == Backed(old(State()), decrease, now)
    {
      var base := rate;
      if base <= 0.0 { base := FALLBACK_RATE; }
      rate := base * decrease;
      lastTrigger := now;
      triggered := true;
    }

    method MaybeRecover(step: real, window: real, now: real) returns (done: bool)
      modifies this
      ensures (State(), done) == Recovered(old(State()), step, window, now)
    {
      if !triggered || now - lastTrigger < window { return false; }
      lastTrigger := now;
      if rateCap <= 0.0 {
        rate := 0.0;
        triggered := false;
        return true;
      }
      rate := rate + step;
      if rate >= rateCap {
        rate := rateCap;
        triggered := false;
        return true;
      }
      done := false;
    }

    /** The saved state comes back, whatever the ceiling now is. */
    method SetAimdState(rate: real, lastTrigger: real, triggered: bool)
      modifies this
      ensures State() == Resumed(Aimd(rate, rate, lastTrigger, triggered), old(rateCap))
    {
      this.rate := rate;
      this.lastTrigger := lastTrigger;
      this.triggered := triggered;
    }
  }

  // ---- The coordinator drives it --------------------------------------------------------

  /** A preset's backoff settings. */
  datatype Spec = Spec(decrease: real, step: real, window: real)

  predicate Sensible(spec: Spec)
  {
    0.0 < spec.decrease <= 1.0 && spec.step > 0.0 && spec.window > 0.0
  }

  /** An onset at a time, a tick at a time, or a new ceiling. */
  datatype Cue = Onset(at: real) | Tick(at: real) | Ceiling(cap: real)

  /** triggerBackoff and maybeRecoverBackoff. */
  function Next(spec: Spec, s: Aimd, e: Cue): Aimd
  {
    match e
    case Onset(now) => if Settling(s, now, spec.window) then s else Backed(s, spec.decrease, now)
    case Tick(now) => Recovered(s, spec.step, spec.window, now).0
    case Ceiling(cap) => CapSet(s, cap)
  }

  function Run(spec: Spec, s: Aimd, cues: seq<Cue>): Aimd
  {
    if cues == [] then s else Next(spec, Run(spec, s, cues[..|cues| - 1]), cues[|cues| - 1])
  }

  ghost predicate InOrder(cues: seq<Cue>)
  {
    forall i, j :: 0 <= i < j < |cues| && !cues[i].Ceiling? && !cues[j].Ceiling? ==> cues[i].at <= cues[j].at
  }

  predicate WithinCap(s: Aimd)
  {
    s.rateCap > 0.0 ==> 0.0 < s.rate <= s.rateCap
  }

  lemma Shrinks(x: real, f: real)
    requires x > 0.0 && 0.0 < f <= 1.0
    ensures 0.0 < x * f <= x
  {
    assert x - x * f == x * (1.0 - f);
  }

  lemma BackedBelow(s: Aimd, decrease: real, now: real)
    requires 0.0 < decrease <= 1.0
    ensures Backed(s, decrease, now).rate > 0.0
    ensures s.rate > 0.0 ==> Backed(s, decrease, now).rate <= s.rate
  {
    Shrinks(if s.rate <= 0.0 then FALLBACK_RATE else s.rate, decrease);
  }

  /** Under a positive ceiling the rate is always positive and never above it. */
  lemma {:induction false} RateWithinCap(spec: Spec, s: Aimd, cues: seq<Cue>)
    requires Sensible(spec) && WithinCap(s)
    ensures WithinCap(Run(spec, s, cues))
  {
    if cues != [] {
      var n := |cues| - 1;
      RateWithinCap(spec, s, cues[..n]);
      var t := Run(spec, s, cues[..n]);
      if cues[n].Onset? {
        BackedBelow(t, spec.decrease, cues[n].at);
      }
    }
  }

  /** The cue lowers the rate (or starts pacing an unpaced target). */
  predicate Effective(spec: Spec, s: Aimd, e: Cue)
  {
    e.Onset? && !Settling(s, e.at, spec.window)
  }

  /** After an effective onset at time t0, any state reached by time t1 is still settling from it, or a
      full window has passed. */
  ghost predicate Since(spec: Spec, s: Aimd, t0: real, t1: real)
  {
    s.lastTrigger <= t1 && (if s.triggered then s.lastTrigger >= t0 else s.lastTrigger >= t0 + spec.window)
  }

  lemma {:induction false} SinceRuns(spec: Spec, s: Aimd, cues: seq<Cue>, t0: real, t1: real)
    requires Sensible(spec) && Since(spec, s, t0, t1) && InOrder(cues) && t0 <= t1
    requires forall i :: 0 <= i < |cues| && !cues[i].Ceiling? ==> t1 <= cues[i].at
    ensures forall t2 :: t1 <= t2 && (forall i :: 0 <= i < |cues| && !cues[i].Ceiling? ==> cues[i].at <= t2) ==>
              Since(spec, Run(spec, s, cues), t0, t2)
  {
    if cues != [] {
      var n := |cues| - 1;
      var e := cues[n];
      assert forall i :: 0 <= i < n ==> cues[..n][i] == cues[i];
      SinceRuns(spec, s, cues[..n], t0, t1);
      var r := Run(spec, s, cues[..n]);
      forall t2 | t1 <= t2 && (forall i :: 0 <= i < |cues| && !cues[i].Ceiling? ==> cues[i].at <= t2)
        ensures Since(spec, Run(spec, s, cues), t0, t2)
      {
        if !e.Ceiling? {
          assert cues[n].at <= t2;
          assert Since(spec, r, t0, e.at);
        } else {
          assert Since(spec, r, t0, t2);
        }
      }
    }
  }

  /** Two effective decreases are always at least a recovery window apart, recovered or not between. */
  lemma DecreasesApart(spec: Spec, s: Aimd, first: Cue, between: seq<Cue>, second: Cue)
    requires Sensible(spec) && InOrder([first] + between + [second])
    requires Effective(spec, s, first) && Effective(spec, Run(spec, Next(spec, s, first), between), second)
    ensures second.at >= first.at + spec.window
  {
    hide Run, Next, Since, InOrder;
    AllBetween(first, between, second);
    FirstSince(spec, s, first);
    SinceRuns(spec, Next(spec, s, first), between, first.at, first.at);
    NotSettling(spec, Run(spec, Next(spec, s, first), between), first.at, second);
  }

  /** The cues between the two come in order, none before the first or after the second. */
  lemma AllBetween(first: Cue, between: seq<Cue>, second: Cue)
    requires InOrder([first] + between + [second]) && first.Onset? && second.Onset?
    ensures InOrder(between) && first.at <= second.at
    ensures forall i :: 0 <= i < |between| && !between[i].Ceiling? ==> first.at <= between[i].at <= second.at
  {
    var all := [first] + between + [second];
    var n := |between|;
    assert all[0] == first && all[n + 1] == second && forall i :: 0 <= i < n ==> all[i + 1] == between[i];
    forall i, j | 0 <= i < j < n && !between[i].Ceiling? && !between[j].Ceiling? ensures between[i].at <= between[j].at {
      assert all[i + 1].at <= all[j + 1].at;
    }
    forall i | 0 <= i < n && !between[i].Ceiling? ensures first.at <= between[i].at <= second.at {
      assert all[0].at <= all[i + 1].at <= all[n + 1].at;
    }
    assert all[0].at <= all[n + 1].at;
  }

  lemma FirstSince(spec: Spec, s: Aimd, first: Cue)
    requires Effective(spec, s, first)
    ensures Since(spec, Next(spec, s, first), first.at, first.at)
  {
  }

  lemma NotSettling(spec: Spec, s: Aimd, t0: real, second: Cue)
    requires Effective(spec, s, second) && Since(spec, s, t0, second.at)
    ensures second.at >= t0 + spec.window
  {
  }

  // ---- Decrease -------------------------------------------------------------------------

  /** An onset that counts multiplies the rate, or the fallback rate of an unpaced target, by the decrease, and
      starts the clock; one that does not leaves everything as it is. */
  lemma OnsetDecreases(spec: Spec, s: Aimd, now: real)
    ensures var r := Next(spec, s, Onset(now));
            if !s.triggered || now >= s.lastTrigger + spec.window then
              && r.rate == (if s.rate > 0.0 then s.rate else FALLBACK_RATE) * spec.decrease
              && r.triggered && r.lastTrigger == now && r.rateCap == s.rateCap
            else r == s
  {
  }

  function Power(x: real, n: nat): real
  {
    if n == 0 then 1.0 else Power(x, n - 1) * x
  }

  lemma {:induction false} PowerShrinks(x: real, n: nat)
    requires 0.0 < x < 1.0
    ensures 0.0 < Power(x, n) && (n > 0 ==> Power(x, n) < 1.0)
  {
    if n > 0 {
      PowerShrinks(x, n - 1);
      Smaller(x, Power(x, n - 1));
    }
  }

  lemma Smaller(x: real, y: real)
    requires 0.0 < x < 1.0 && 0.0 < y
    ensures 0.0 < y * x < y
  {
    var rest := 1.0 - x;
    assert y == y * x + y * rest;
  }

  /** How many of these cues are onsets that count. */
  function Onsets(spec: Spec, s: Aimd, cues: seq<Cue>): nat
  {
    if cues == [] then 0
    else
      var n := |cues| - 1;
      Onsets(spec, s, cues[..n]) + if Effective(spec, Run(spec, s, cues[..n]), cues[n]) then 1 else 0
  }

  lemma Regroup(a: real, b: real, c: real)
    ensures a * b * c == a * (b * c)
  {
  }

  /** Onsets compound: with n that count, and nothing else between, the rate is what it was times the n-th power
      of the decrease. */
  lemma {:induction false} OnsetsCompound(spec: Spec, s: Aimd, cues: seq<Cue>)
    requires Sensible(spec) && s.rate > 0.0 && forall i :: 0 <= i < |cues| ==> cues[i].Onset?
    ensures Run(spec, s, cues).rate == s.rate * Power(spec.decrease, Onsets(spec, s, cues)) > 0.0
  {
    if cues == [] {
    } else {
      var n := |cues| - 1;
      OnsetsCompound(spec, s, cues[..n]);
      var t, k := Run(spec, s, cues[..n]), Onsets(spec, s, cues[..n]);
      OnsetDecreases(spec, t, cues[n].at);
      Shrinks(t.rate, spec.decrease);
      Regroup(s.rate, Power(spec.decrease, k), spec.decrease);
      hide Run, Onsets, Next;
      CountOne(spec, s, cues);
    }
  }

  lemma CountOne(spec: Spec, s: Aimd, cues: seq<Cue>)
    requires cues != []
    ensures var n := |cues| - 1;
            && Run(spec, s, cues) == Next(spec, Run(spec, s, cues[..n]), cues[n])
            && Onsets(spec, s, cues) == Onsets(spec, s, cues[..n]) + if Effective(spec, Run(spec, s, cues[..n]), cues[n]) then 1 else 0
  {
  }

  /** So a backoff always slows down. */
  lemma OnsetsSlow(spec: Spec, s: Aimd, cues: seq<Cue>)
    requires Sensible(spec) && spec.decrease < 1.0 && s.rate > 0.0 && forall i :: 0 <= i < |cues| ==> cues[i].Onset?
    ensures Onsets(spec, s, cues) > 0 ==> Run(spec, s, cues).rate < s.rate
  {
    hide Run, Onsets, Power, Next;
    OnsetsCompound(spec, s, cues);
    var n := Onsets(spec, s, cues);
    PowerShrinks(spec.decrease, n);
    if n > 0 { Smaller(Power(spec.decrease, n), s.rate); }
  }

  // ---- Recovery -------------------------------------------------------------------------

  function Min(a: real, b: real): real { if a <= b then a else b }

  /** The time of the trigger or step before the i-th tick. */
  function Before(last: real, times: seq<real>, i: nat): real
    requires i <= |times|
  {
    if i == 0 then last else times[i - 1]
  }

  /** Ticks a clean window apart, each counted from the step before. */
  ghost predicate Clean(window: real, last: real, times: seq<real>)
  {
    forall i :: 0 <= i < |times| ==> times[i] - Before(last, times, i) >= window
  }

  lemma CleanPrefix(window: real, last: real, times: seq<real>)
    requires Clean(window, last, times) && times != []
    ensures var n := |times| - 1;
            Clean(window, last, times[..n]) && times[n] - Before(last, times[..n], n) >= window
  {
    var n := |times| - 1;
    forall i | 0 <= i < n ensures times[..n][i] - Before(last, times[..n], i) >= window {
      assert times[i] - Before(last, times, i) >= window;
    }
    assert times[n] - Before(last, times, n) >= window;
  }

  function Ticks(spec: Spec, s: Aimd, times: seq<real>): Aimd
  {
    if times == [] then s
    else Recovered(Ticks(spec, s, times[..|times| - 1]), spec.step, spec.window, times[|times| - 1]).0
  }

  /** One clean tick adds a step, up to the cap, and reports when that reaches it. */
  lemma CleanTick(spec: Spec, s: Aimd, now: real)
    requires Sensible(spec) && s.triggered && s.rateCap > 0.0 && now - s.lastTrigger >= spec.window
    ensures var (r, done) := Recovered(s, spec.step, spec.window, now);
            && r.rate == Min(s.rateCap, s.rate + spec.step) && r.rateCap == s.rateCap && r.lastTrigger == now
            && (done <==> s.rate + spec.step >= s.rateCap) && (r.triggered <==> !done)
  {
  }

  /** What n clean ticks after s come to. */
  ghost predicate Recovering(spec: Spec, s: Aimd, r: Aimd, n: nat, last: real)
  {
    var sum := s.rate + n as real * spec.step;
    && r.rate == Min(s.rateCap, sum) && r.rateCap == s.rateCap
    && (r.triggered <==> sum < s.rateCap) && (r.triggered ==> r.lastTrigger == last)
  }

  lemma StepSum(spec: Spec, n: nat)
    ensures (n + 1) as real * spec.step == n as real * spec.step + spec.step
  {
  }

  /** After n clean windows the rate is min(cap, rate0 + n * step), and the backoff is over exactly when
      that has reached the cap. */
  lemma {:induction false} RecoveryIsLinear(spec: Spec, s: Aimd, times: seq<real>)
    requires Sensible(spec) && s.triggered && 0.0 < s.rate < s.rateCap && Clean(spec.window, s.lastTrigger, times)
    ensures Recovering(spec, s, Ticks(spec, s, times), |times|, Before(s.lastTrigger, times, |times|))
  {
    hide Clean;
    if times != [] {
      var n := |times| - 1;
      CleanPrefix(spec.window, s.lastTrigger, times);
      RecoveryIsLinear(spec, s, times[..n]);
      StepSum(spec, n);
      var r := Ticks(spec, s, times[..n]);
      if r.triggered {
        CleanTick(spec, r, times[n]);
      }
    }
  }

  /** Recovery is reported on one clean tick only: the one that first brings the sum up to the cap. */
  lemma ReportedOnce(spec: Spec, s: Aimd, times: seq<real>)
    requires Sensible(spec) && s.triggered && 0.0 < s.rate < s.rateCap && Clean(spec.window, s.lastTrigger, times) && times != []
    ensures var n := |times| - 1;
            Recovered(Ticks(spec, s, times[..n]), spec.step, spec.window, times[n]).1
            <==> s.rate + n as real * spec.step < s.rateCap <= s.rate + |times| as real * spec.step
  {
    hide Clean, Ticks;
    var n := |times| - 1;
    CleanPrefix(spec.window, s.lastTrigger, times);
    RecoveryIsLinear(spec, s, times[..n]);
    StepSum(spec, n);
    var r := Ticks(spec, s, times[..n]);
    if r.triggered {
      CleanTick(spec, r, times[n]);
    }
  }

  // ---- An unbounded target --------------------------------------------------------------

  /** While a backoff is active there is real pacing. */
  predicate Paced(s: Aimd)
  {
    s.triggered ==> s.rate > 0.0
  }

  /** Onsets and ticks keep an active backoff paced; a new ceiling does if and only if it is positive
      or no backoff is active. */
  lemma PacedSteps(spec: Spec, s: Aimd, e: Cue)
    requires Sensible(spec) && Paced(s)
    ensures Paced(Next(spec, s, e)) <==> e.Ceiling? && s.triggered ==> e.cap > 0.0
  {
    if e.Onset? {
      BackedBelow(s, spec.decrease, e.at);
    }
  }

  /** From a trigger until recovery the target is paced, if the ceiling is not reset meanwhile. */
  lemma {:induction false} PacedRuns(spec: Spec, s: Aimd, cues: seq<Cue>)
    requires Sensible(spec) && Paced(s) && forall i :: 0 <= i < |cues| ==> !cues[i].Ceiling?
    ensures Paced(Run(spec, s, cues))
  {
    if cues != [] {
      var n := |cues| - 1;
      PacedRuns(spec, s, cues[..n]);
      PacedSteps(spec, Run(spec, s, cues[..n]), cues[n]);
    }
  }

  /** An unbounded target is lifted all at once: by the first tick a window after the trigger, and by none before. */
  lemma {:induction false} UnboundedRecovers(spec: Spec, s: Aimd, times: seq<real>)
    requires s.triggered && s.rateCap <= 0.0
    ensures var r := Ticks(spec, s, times);
            if exists i :: 0 <= i < |times| && times[i] >= s.lastTrigger + spec.window then r.rate == 0.0 && !r.triggered else r == s
  {
    if times == [] {
    } else {
      var n := |times| - 1;
      var earlier := times[..n];
      UnboundedRecovers(spec, s, earlier);
      if i :| 0 <= i < |earlier| && earlier[i] >= s.lastTrigger + spec.window {
        assert times[i] >= s.lastTrigger + spec.window;
      }
      if i :| 0 <= i < n && times[i] >= s.lastTrigger + spec.window {
        assert earlier[i] >= s.lastTrigger + spec.window;
      }
    }
  }

  // ---- Save and resume ------------------------------------------------------------------

  /** A limiter as it is built. */
  function Built(cap: real): Aimd { Aimd(cap, cap, 0.0, false) }

  /** A resumed limiter gets the saved rate, but its own ceiling. */
  function Resumed(saved: Aimd, cap: real): Aimd { saved.(rateCap := cap) }

  /** Whatever a limiter did before the save, its rate comes back within the new ceiling. */
  ghost predicate AlwaysWithin(spec: Spec, oldCap: real, cap: real)
  {
    forall first, cues :: Run(spec, Built(first), cues).rateCap == oldCap ==> WithinCap(Resumed(Run(spec, Built(first), cues), cap))
  }

  /** A rate comes back within a positive ceiling, whatever happened before the save, if and only if the old
      ceiling was positive and no higher. */
  lemma ResumedRate(spec: Spec, oldCap: real, cap: real)
    requires Sensible(spec) && cap > 0.0
    ensures AlwaysWithin(spec, oldCap, cap) <==> 0.0 < oldCap <= cap
  {
    hide Next;
    if 0.0 < oldCap <= cap {
      forall first, cues | Run(spec, Built(first), cues).rateCap == oldCap
        ensures WithinCap(Resumed(Run(spec, Built(first), cues), cap))
      {
        RateWithinCap(spec, Built(first), cues);
      }
    } else {
      assert Run(spec, Built(oldCap), []).rateCap == oldCap;
      assert !WithinCap(Resumed(Run(spec, Built(oldCap), []), cap));
    }
  }

  lemma {:induction false} TicksIdle(spec: Spec, s: Aimd, times: seq<real>)
    requires !s.triggered
    ensures Ticks(spec, s, times) == s
  {
    if times != [] { TicksIdle(spec, s, times[..|times| - 1]); }
  }

  /** Saved under a ceiling of ten requests a second and resumed under one of two, a limiter sends ten, and no
      tick ever brings that down. */
  lemma ResumedTooFast(spec: Spec) returns (cues: seq<Cue>, s: Aimd)
    requires Sensible(spec)
    ensures s == Resumed(Run(spec, Built(5.0), cues), 2.0)
    ensures forall times :: Ticks(spec, s, times).rate == 10.0 > s.rateCap
  {
    cues := [Ceiling(10.0)];
    assert Run(spec, Built(5.0), cues[..0]) == Built(5.0);
    s := Resumed(Run(spec, Built(5.0), cues), 2.0);
    forall times ensures Ticks(spec, s, times).rate == 10.0 { TicksIdle(spec, s, times); }
  }
}
