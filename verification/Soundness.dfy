/** Every coordinator operation keeps the books balanced, the history in step, the cached scores
    traceable, and the request bound unbroken. */
module Soundness {
  import opened ScanTypes
  import opened Counting
  import opened Accounting
  import opened Invariants
  import opened Tallies
  import opened Ledgers
  import opened ScanModel
  import opened Pushing
  import opened Paths
  import opened Generation

  ghost function LimitsOf(env: Env): Limits
  {
    Limits(|env.template|, |env.nmap|, if env.perDirBudget > 0 then env.perDirBudget - |env.template| else 0,
           DistinctPaths(env.template), ApartFrom(env.nmap, env.template))
  }

  ghost function Room(env: Env, s: Scan): int { PushRoom(LimitsOf(env), s.book) }

  ghost function Places(s: Scan): int { DirRoom(s.book) }

  // ---- The score cache ------------------------------------------------------------------

  /** A profile change that alters a score is always visible in the signature. */
  ghost predicate Faithful(env: Env)
  {
    forall p, q, l, b, t, d, x :: env.signature(p) == env.signature(q) ==> env.boosted(p, l, b, t, d, x) == env.boosted(q, l, b, t, d, x)
  }

  /** The score the candidate would get had the last k lessons not been learned. */
  ghost function ScoreBefore(env: Env, s: Scoring, c: Candidate, k: nat): real
    requires k <= |s.lessons|
  {
    Score(env, s.(lessons := s.lessons[..|s.lessons| - k]), c)
  }

  /** c's cached score misses at most the last `lag` lessons, and nothing else. */
  ghost predicate Reflects(env: Env, s: Scoring, c: Candidate, lag: nat)
  {
    exists k: nat :: k <= lag && k <= |s.lessons| && c.score == ScoreBefore(env, s, c, k)
  }

  /** Its score can be accounted for: it misses few lessons, or it is an nmap seed no sweep has touched. */
  ghost predicate Vouched(env: Env, s: Scan, c: Candidate, lag: nat)
  {
    Reflects(env, s.scoring, c, lag) || (!s.swept && IsNmapSeed(env, c))
  }

  ghost predicate CacheOk(env: Env, s: Scan, lag: nat)
  {
    && (forall c :: c in s.book.queue ==> Vouched(env, s, c, lag))
    && s.lastSig == env.signature(s.scoring.profile)
  }

  /** The setting in which cached scores can be trusted at all: a resumed scan has lost its overrides. */
  ghost predicate Cacheable(env: Env)
  {
    !env.resumed && Faithful(env)
  }

  lemma CurrentReflects(env: Env, s: Scoring, c: Candidate, lag: nat)
    requires c.score == Score(env, s, c)
    ensures Reflects(env, s, c, lag)
  {
    assert s.lessons[..|s.lessons| - 0] == s.lessons;
    assert c.score == ScoreBefore(env, s, c, 0);
  }

  lemma ScoredIsCurrent(env: Env, s: Scoring, c: Candidate, lag: nat)
    ensures Scored(env, s, c).score == Score(env, s, Scored(env, s, c))
    ensures Reflects(env, s, Scored(env, s, c), lag)
  {
    CurrentReflects(env, s, Scored(env, s, c), lag);
  }

  /** Sweeping makes every score current, whatever it was. */
  lemma SweepCache(env: Env, s: Scan)
    ensures forall c :: c in Sweep(env, s).book.queue ==> c.score == Score(env, s.scoring, c)
    ensures forall c :: c in Sweep(env, s).book.queue ==> Reflects(env, s.scoring, c, s.hitsSince)
  {
    hide Score, Scored, Reflects;
    var f := Scorer(env, s.scoring);
    MapPreimage(s.book.queue, f);
    forall c | c in Sweep(env, s).book.queue
      ensures c.score == Score(env, s.scoring, c) && Reflects(env, s.scoring, c, s.hitsSince)
    {
      var x :| x in s.book.queue && f(x) == c;
      ScoredIsCurrent(env, s.scoring, x, s.hitsSince);
    }
  }

  // ---- The invariant of the whole scan --------------------------------------------------

  /** Everything but the balance of the books. */
  ghost predicate Rest(env: Env, s: Scan)
  {
    && Ledgered(LimitsOf(env), s.book)
    && (Cacheable(env) ==> CacheOk(env, s, s.hitsSince))
  }

  ghost predicate Sound(env: Env, s: Scan)
  {
    Inv(s.book) && Rest(env, s)
  }

  /** Sound but for d, which has just got its last probe back. */
  ghost predicate Ending(env: Env, s: Scan, d: string)
  {
    Finishing(s.book, d) && Rest(env, s)
  }

  /** One more push or directory than before at most. */
  ghost predicate Within(env: Env, s: Scan, r: Scan, pushes: int, dirs: int)
  {
    Room(env, r) >= Room(env, s) - pushes && Places(r) >= Places(s) - dirs
  }

  /** The two differ in nothing soundness reads. */
  ghost predicate Alike(s: Scan, r: Scan)
  {
    r.book == s.book && r.scoring == s.scoring && r.lastSig == s.lastSig && r.hitsSince == s.hitsSince && r.swept == s.swept
  }

  lemma AlikeKeeps(env: Env, s: Scan, r: Scan)
    requires Alike(s, r)
    ensures Sound(env, r) == Sound(env, s)
    ensures forall d :: Ending(env, r, d) == Ending(env, s, d)
    ensures Room(env, r) == Room(env, s) && Places(r) == Places(s)
  {
    hide Inv, Finishing, Ledgered, PushRoom, DirRoom;
    assert Rest(env, r) == Rest(env, s);
  }

  lemma SweepRest(env: Env, s: Scan)
    requires Ledgered(LimitsOf(env), s.book)
    requires Cacheable(env) ==> s.lastSig == env.signature(s.scoring.profile)
    ensures Rest(env, Sweep(env, s)) && Within(env, s, Sweep(env, s), 0, 0)
  {
    var f := Scorer(env, s.scoring);
    RescoreQuietly(s.book, f);
    QuietlyKeeps(LimitsOf(env), s.book, Rescored(s.book, f));
    QuietlyRooms(LimitsOf(env), s.book, Rescored(s.book, f));
    SweepCache(env, s);
  }

  lemma SweepSound(env: Env, s: Scan)
    requires Inv(s.book) && Ledgered(LimitsOf(env), s.book)
    requires Cacheable(env) ==> s.lastSig == env.signature(s.scoring.profile)
    ensures Sound(env, Sweep(env, s)) && Within(env, s, Sweep(env, s), 0, 0)
  {
    SweepRest(env, s);
    RescoreKeeps(s.book, Scorer(env, s.scoring));
  }

  lemma SweepEnding(env: Env, s: Scan, d: string)
    requires Finishing(s.book, d) && Ledgered(LimitsOf(env), s.book)
    requires Cacheable(env) ==> s.lastSig == env.signature(s.scoring.profile)
    ensures Ending(env, Sweep(env, s), d) && Within(env, s, Sweep(env, s), 0, 0)
  {
    SweepRest(env, s);
    RescoreFinishing(s.book, Scorer(env, s.scoring), d);
  }

  lemma SignatureHolds(env: Env, s: Scan, profile: nat)
    requires Cacheable(env) && CacheOk(env, s, s.hitsSince) && env.signature(profile) == s.lastSig
    ensures CacheOk(env, s.(scoring := s.scoring.(profile := profile)), s.hitsSince)
  {
    hide Multiplier;
    var t := s.(scoring := s.scoring.(profile := profile));
    forall c | c in s.book.queue ensures Vouched(env, t, c, s.hitsSince) {
      if Reflects(env, s.scoring, c, s.hitsSince) {
        var k: nat :| k <= s.hitsSince && k <= |s.scoring.lessons| && c.score == ScoreBefore(env, s.scoring, c, k);
        assert ScoreBefore(env, t.scoring, c, k) == ScoreBefore(env, s.scoring, c, k);
      }
    }
  }

  /** A changed profile is swept in, unless no score can tell the two profiles apart. */
  lemma ReprioritizeEnding(env: Env, s: Scan, profile: nat, d: string)
    requires Ending(env, s, d)
    ensures var s1 := s.(rootRefined := true, scoring := s.scoring.(profile := profile));
            Ending(env, ReprioritizeIfChanged(env, s1), d) && Within(env, s, ReprioritizeIfChanged(env, s1), 0, 0)
  {
    hide Inv, Finishing, Ledgered, CacheOk, PushRoom, DirRoom;
    var s0 := s.(scoring := s.scoring.(profile := profile));
    var s1 := s0.(rootRefined := true);
    AlikeKeeps(env, s0, s1);
    if env.signature(profile) == s.lastSig {
      if Cacheable(env) {
        SignatureHolds(env, s, profile);
      }
    } else {
      SweepEnding(env, s1.(lastSig := env.signature(profile)), d);
    }
  }

  lemma SpaEnding(env: Env, s: Scan, d: string)
    requires Ending(env, s, d)
    ensures var r := Sweep(env, s.(scoring := s.scoring.(spaMode := true))); Ending(env, r, d) && Within(env, s, r, 0, 0)
  {
    hide Finishing, Ledgered, Vouched, PushRoom, DirRoom;
    SweepEnding(env, s.(scoring := s.scoring.(spaMode := true)), d);
  }

  lemma PivotEnding(env: Env, s: Scan, d: string, spa: bool)
    requires Ending(env, s, d)
    ensures Ending(env, Pivot(env, s, d, spa), d) && Within(env, s, Pivot(env, s, d, spa), 0, 0)
  {
    hide Ending, Room, Places, Sweep;
    if d == "" && spa {
      SpaEnding(env, s, d);
      AlikeKeeps(env, Sweep(env, s.(scoring := s.scoring.(spaMode := true))), Pivot(env, s, d, spa));
    }
  }

  lemma PushLedger(env: Env, s: Scan, d: string)
    requires Finishing(s.book, d) && Ledgered(LimitsOf(env), s.book)
    ensures Ledgered(LimitsOf(env), PushCandidates(env, s, d).book)
  {
    hide Ledgered, CandidateSet, BudgetOf, Opened, DirOk, Refs, DistinctPaths, NmapApart;
    SetFacts(env, s, d);
    OnceExactly(env, s, d);
    OpenLedger(LimitsOf(env), s.book, d, CandidateSet(env, s, d), BudgetOf(env, s, d));
  }

  lemma PushCache(env: Env, s: Scan, d: string)
    requires Cacheable(env) && d in s.book.dirs && PendingOk(s.book.dirs[d].pending, d) && CacheOk(env, s, s.hitsSince)
    ensures CacheOk(env, PushCandidates(env, s, d), s.hitsSince)
  {
    hide CandidateSet, BudgetOf, Score, Reflects;
    SetFacts(env, s, d);
    var r := PushCandidates(env, s, d);
    forall c | c in r.book.queue ensures Vouched(env, r, c, s.hitsSince) {
      if c in s.book.queue {
        assert Vouched(env, s, c, s.hitsSince);
      } else if c.score == Score(env, s.scoring, c) {
        CurrentReflects(env, s.scoring, c, s.hitsSince);
      }
    }
  }

  lemma PushSound(env: Env, s: Scan, d: string)
    requires Ending(env, s, d)
    ensures Sound(env, PushCandidates(env, s, d)) && Within(env, s, PushCandidates(env, s, d), 0, 0)
  {
    hide Ledgered, PushRoom, DirRoom, Opened, CandidateSet, BudgetOf, DirOk, Refs;
    SetFacts(env, s, d);
    PushLedger(env, s, d);
    OpenKeeps(s.book, d, CandidateSet(env, s, d), BudgetOf(env, s, d));
    OpenRoom(LimitsOf(env), s.book, d, CandidateSet(env, s, d), BudgetOf(env, s, d));
    if Cacheable(env) {
      PushCache(env, s, d);
    }
  }

  /** A step of the books that leaves the queue alone leaves the cached scores alone. */
  lemma SteppedRest(env: Env, s: Scan, b: Book)
    requires Rest(env, s) && b.queue == s.book.queue && Ledgered(LimitsOf(env), b)
    ensures Rest(env, s.(book := b))
  {
    hide Ledgered, Reflects;
  }

  lemma BeginSteps(env: Env, s: Scan, d: string, depth: int, probes: seq<string>)
    requires Sound(env, s) && d !in s.book.dirs
    ensures var s1 := s.(book := Started(s.book, d, depth, probes));
            && (if probes == [] then Ending(env, s1, d) else Sound(env, s1))
            && Within(env, s, s1, 0, if d == "" then 0 else 1)
  {
    hide Inv, Finishing, Ledgered, Cacheable, CacheOk, PushRoom, DirRoom;
    StartKeeps(s.book, d, depth, probes);
    StartLedger(LimitsOf(env), s.book, d, depth, probes);
    StartRoom(LimitsOf(env), s.book, d, depth, probes);
    StartPlace(s.book, d, depth, probes);
    SteppedRest(env, s, Started(s.book, d, depth, probes));
  }

  lemma AgainSteps(env: Env, s: Scan, d: string, probes: seq<string>)
    requires Ending(env, s, d)
    ensures d in s.book.dirs
    ensures var s1 := s.(book := Restarted(s.book, d, probes));
            && (if probes == [] then Ending(env, s1, d) else Sound(env, s1))
            && Within(env, s, s1, 0, 0)
  {
    hide Inv, Ledgered, Cacheable, CacheOk, PushRoom, DirRoom, DirOk, Refs;
    RestartKeeps(s.book, d, probes);
    RestartLedger(LimitsOf(env), s.book, d, probes);
    RestartRoom(LimitsOf(env), s.book, d, probes);
    SteppedRest(env, s, Restarted(s.book, d, probes));
  }

  lemma BackSteps(env: Env, s: Scan, d: string)
    requires Sound(env, s) && d in s.book.probes
    ensures d in s.book.dirs
    ensures var s1 := s.(book := ProbeBack(s.book, d));
            && (if s1.book.dirs[d].probesDone >= s1.book.dirs[d].probesTotal then Ending(env, s1, d) else Sound(env, s1))
            && Within(env, s, s1, 0, 0)
  {
    hide Inv, Finishing, Ledgered, Cacheable, CacheOk, PushRoom, DirRoom, Quietly;
    ProbeBackKeeps(s.book, d);
    ProbeQuietly(s.book, d);
    QuietlyKeeps(LimitsOf(env), s.book, ProbeBack(s.book, d));
    QuietlyRooms(LimitsOf(env), s.book, ProbeBack(s.book, d));
    SteppedRest(env, s, ProbeBack(s.book, d));
  }

  lemma {:induction false} FinishSound(env: Env, s: Scan, d: string)
    requires Ending(env, s, d)
    ensures Sound(env, FinishCalibration(env, s, d)) && Within(env, s, FinishCalibration(env, s, d), 0, 0)
    decreases if s.rootRefined then 0 else 1, 1
  {
    hide Ending, Sound, Room, Places, PushCandidates, Pivot, ReprioritizeIfChanged, Grew;
    var cal := env.calibrate(d, s.rootRefined);
    var s1 := s.(spaDirs := s.spaDirs[d := cal.spa]);
    AlikeKeeps(env, s, s1);
    if d == "" && !s.rootRefined {
      var s2 := ReprioritizeIfChanged(env, s1.(rootRefined := true, scoring := s1.scoring.(profile := cal.profile)));
      ReprioritizeEnding(env, s1, cal.profile, d);
      if Grew(s2.exts, cal.exts) {
        AlikeKeeps(env, s2, s2.(exts := cal.exts));
        RecalibrateSound(env, s2.(exts := cal.exts), d);
      } else {
        PivotEnding(env, s2, d, cal.spa);
        PushSound(env, Pivot(env, s2, d, cal.spa), d);
      }
    } else {
      PivotEnding(env, s1, d, cal.spa);
      PushSound(env, Pivot(env, s1, d, cal.spa), d);
    }
  }

  lemma {:induction false} RecalibrateSound(env: Env, s: Scan, d: string)
    requires Ending(env, s, d) && s.rootRefined
    ensures Sound(env, Recalibrate(env, s, d)) && Within(env, s, Recalibrate(env, s, d), 0, 0)
    decreases 0, 2
  {
    hide Ending, Sound, Room, Places, FinishCalibration, Restarted, Probes;
    var probes := Probes(env, d, s.exts, 0);
    AgainSteps(env, s, d, probes);
    if probes == [] {
      FinishSound(env, s.(book := Restarted(s.book, d, probes)), d);
    }
  }

  lemma {:induction false} StartSound(env: Env, s: Scan, d: string, depth: int)
    requires Sound(env, s) && d !in s.book.dirs
    ensures Sound(env, StartCalibration(env, s, d, depth))
    ensures Within(env, s, StartCalibration(env, s, d, depth), 0, if d == "" then 0 else 1)
    decreases if s.rootRefined then 0 else 1, 2
  {
    hide Ending, Sound, Room, Places, FinishCalibration, Started, Probes;
    var probes := Probes(env, d, s.exts, 0);
    BeginSteps(env, s, d, depth, probes);
    if probes == [] {
      FinishSound(env, s.(book := Started(s.book, d, depth, probes)), d);
    }
  }

  lemma ChildSound(env: Env, s: Scan, d: string, depth: int)
    requires Sound(env, s)
    ensures Sound(env, EnqueueChild(env, s, d, depth)) && Within(env, s, EnqueueChild(env, s, d, depth), 0, 1)
  {
    if d !in s.book.dirs {
      StartSound(env, s, d, depth);
    }
  }

  lemma CollectSound(env: Env, s: Scan, d: string)
    requires Sound(env, s) && d in s.book.probes
    ensures d in s.book.dirs
    ensures Sound(env, CollectProbe(env, s, d)) && Within(env, s, CollectProbe(env, s, d), 0, 0)
  {
    hide Ending, Sound, Room, Places, FinishCalibration;
    BackSteps(env, s, d);
    var s1 := s.(book := ProbeBack(s.book, d));
    if s1.book.dirs[d].probesDone >= s1.book.dirs[d].probesTotal {
      FinishSound(env, s1, d);
    }
  }
}
