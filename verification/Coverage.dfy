/** What is never dropped is sent: the paths and seeds that no gate or exclusion stops. */
module Coverage {
  import opened ScanTypes
  import opened Paths
  import opened Counting
  import opened Accounting
  import opened Invariants
  import opened Tallies
  import opened Ledgers
  import opened Pushing
  import opened ScanModel
  import opened Soundness
  import opened Stepping
  import opened History
  import opened Seeds
  import opened Runs
  import opened Theorems
  import opened Growth
  import opened Gates

  /** Nothing stands against requesting this path now: it is in scope and not excluded, and its directory is
      not capped. */
  ghost predicate Free(env: Env, s: Scan, k: Key)
  {
    && env.inScope(Url(env, k.0, k.1)) && !Excluded(env, s.scoring.overrides, k.0, k.1)
    && (k.0 in s.book.dirs ==> !s.book.dirs[k.0].capped)
  }

  ghost predicate AlwaysFree(env: Env, states: seq<Scan>, k: Key)
  {
    forall i :: 0 <= i < |states| ==> Free(env, states[i], k)
  }

  lemma {:induction false} KeyAmong(cs: seq<Candidate>, k: Key)
    ensures AllKeys(cs)[k] > 0 ==> exists i :: 0 <= i < |cs| && KeyOf(cs[i]) == k
  {
    hide KeyOf;
    if cs != [] {
      var n := |cs| - 1;
      KeyAmong(cs[..n], k);
      if AllKeys(cs[..n])[k] > 0 {
        var i :| 0 <= i < n && KeyOf(cs[..n][i]) == k;
        assert KeyOf(cs[i]) == k;
      } else if AllKeys(cs)[k] > 0 {
        assert KeyOf(cs[n]) == k;
      }
    }
  }

  /** An exclusion sweep drops only what it excludes from then on. */
  lemma BarredIsExcluded(env: Env, s: Scan, pattern: string, removed: seq<Candidate>, k: Key)
    requires Enabled(env, s, Barred(pattern, removed)) && AllKeys(removed)[k] > 0
    ensures Excluded(env, Next(env, s, Barred(pattern, removed)).scoring.overrides, k.0, k.1)
  {
    hide DiscardedAll, AllKeys;
    KeyAmong(removed, k);
    var i :| 0 <= i < |removed| && KeyOf(removed[i]) == k;
    assert removed[i] in removed;
    var overrides := s.scoring.overrides + [Override(pattern, Exclude, 1.0)];
    assert overrides[|s.scoring.overrides|].kind == Exclude && env.matches(overrides[|s.scoring.overrides|].pattern, k.0, k.1);
  }

  /** Without a configured budget no step drops a path that is free before and after it. */
  lemma FreeNotDropped(env: Env, states: seq<Scan>, events: seq<Event>, i: nat, k: Key)
    requires IsRun(env, states, events) && Sound(env, states[0]) && env.perDirBudget <= 0 && AlwaysFree(env, states, k)
    requires i < |events|
    ensures Drops(events[i])[k] == 0
  {
    hide Sound, Next, Enabled, Excluded, Url;
    assert Free(env, states[i], k) && Free(env, states[i + 1], k);
    assert StepAt(env, states, events, i);
    if events[i].Skipped? {
      OnlyTrapsDiscard(env, states, events, i);
    } else if events[i].Barred? && Drops(events[i])[k] > 0 {
      BarredIsExcluded(env, states[i], events[i].pattern, events[i].removed, k);
    }
  }

  lemma {:induction false} FreeNeverDropped(env: Env, states: seq<Scan>, events: seq<Event>, n: nat, k: Key)
    requires IsRun(env, states, events) && Sound(env, states[0]) && env.perDirBudget <= 0 && AlwaysFree(env, states, k)
    requires n <= |events|
    ensures DropCount(events[..n])[k] == 0
  {
    hide Sound, StepAt, AlwaysFree, Drops;
    if n > 0 {
      FreeNeverDropped(env, states, events, n - 1, k);
      FreeNotDropped(env, states, events, n - 1, k);
      assert events[..n][..n - 1] == events[..n - 1];
    }
  }

  lemma FreeIsSent(env: Env, states: seq<Scan>, events: seq<Event>, k: Key)
    requires IsRun(env, states, events) && Fresh(env, states[0]) && env.perDirBudget <= 0 && AlwaysFree(env, states, k)
    requires k in RequestCount(events) + DropCount(events)
    ensures k in RequestCount(events)
  {
    hide Sound, Room, Places, StepAt, AlwaysFree, Fresh;
    FreshSound(env, states[0]);
    FreeNeverDropped(env, states, events, |events|, k);
    assert events[..|events|] == events;
  }

  /** Without a configured budget, when a scan finishes every template path of every directory it opened has
      been requested there, if nothing ever stood against it: none is dropped. */
  lemma FreePathsSent(env: Env, states: seq<Scan>, events: seq<Event>, d: string, p: string)
    requires IsRun(env, states, events) && Fresh(env, states[0]) && Configured(env) && env.perDirBudget <= 0
    requires Finished(states[|events|]) && d in states[|events|].book.dirs && p in PathsOf(env.template)
    requires AlwaysFree(env, states, (d, p))
    ensures (d, p) in RequestCount(events)
  {
    hide Fresh, Configured, StepAt, Finished, AlwaysFree, PathsOf;
    EveryPathTried(env, states, events, d, p);
    FreeIsSent(env, states, events, (d, p));
  }

  /** The same of everything a directory ever knew: seeds, generated candidates and nmap paths as well. */
  lemma FreeKnownSent(env: Env, states: seq<Scan>, events: seq<Event>, d: string, p: string)
    requires IsRun(env, states, events) && Fresh(env, states[0]) && Configured(env) && env.perDirBudget <= 0
    requires var s := states[|events|]; Finished(s) && d in s.book.dirs && p in s.book.dirs[d].known
    requires AlwaysFree(env, states, (d, p))
    ensures (d, p) in RequestCount(events)
  {
    hide Fresh, Configured, StepAt, AlwaysFree, Sound, Room, Places, SeedsOk, Novel, Throttled, Finished;
    RunReaches(env, states, events);
    KnownIsDone(env, states[|events|], d, p);
    FreeIsSent(env, states, events, (d, p));
  }

  lemma KnownIsDone(env: Env, s: Scan, d: string, p: string)
    requires Sound(env, s) && Finished(s) && d in s.book.dirs && p in s.book.dirs[d].known
    ensures (d, p) in s.book.log.sent + s.book.log.dropped
  {
    hide Inv, Cacheable, PushedOnce, Unrepeated, Tallied, Budgeted;
    assert s.book.log.pushed[(d, p)] > 0;
    assert Keys(s.book.queue) == multiset{};
  }

  /** And of every segment of every admitted seed, injected or pinned, if the root's calibration did not start
      over after it. */
  lemma FreeSeedsSent(env: Env, states: seq<Scan>, events: seq<Event>, i: nat, sd: Seed, k: nat)
    requires IsRun(env, states, events) && Fresh(env, states[0]) && Configured(env) && env.perDirBudget <= 0
    requires Finished(states[|events|])
    requires i < |events| && SeedOf(events[i]) == Some(sd) && Admitted(env, sd) && k < |Segments(sd.path)|
    requires var d := DirOf(Segments(sd.path), k);
             AlwaysFree(env, states, (d, Segments(sd.path)[k])) && forall j :: i < j < |events| ==> !Relapses(env, states[j], d)
    ensures var segs := Segments(sd.path); (DirOf(segs, k), segs[k]) in RequestCount(events)
  {
    hide Fresh, Configured, StepAt, AlwaysFree, Segments, DirOf, Admitted, Relapses, Finished, SeedOf;
    EverySeedTried(env, states, events, i, sd, k);
    FreeIsSent(env, states, events, (DirOf(Segments(sd.path), k), Segments(sd.path)[k]));
  }

  /** Nothing in the whole run stands against a path: it is in scope, no exclusion matches it, and no answer from its directory
      showed a tarpit. */
  ghost predicate Untouched(env: Env, events: seq<Event>, k: Key)
  {
    && env.inScope(Url(env, k.0, k.1)) && !Tarpit(events, k.0)
    && forall i :: 0 <= i < |events| && events[i].Barred? ==> !env.matches(events[i].pattern, k.0, k.1)
  }

  lemma UntouchedIsFree(env: Env, states: seq<Scan>, events: seq<Event>, k: Key)
    requires IsRun(env, states, events) && Fresh(env, states[0]) && Untouched(env, events, k)
    ensures AlwaysFree(env, states, k)
  {
    hide Fresh, Enabled, Next, TarpitSeen, Url, Excluded, Sound, Room, Places, Leveled;
    FreshSound(env, states[0]);
    NoneFresh(env, states[0], k.0);
    forall n | 0 <= n < |states| ensures Free(env, states[n], k) {
      var first := events[..n];
      PrefixIs(env, states, events, n);
      ExcludedIs(env, states[..n + 1], first, k.0, k.1);
      if k.0 in states[n].book.dirs { TrapsAre(env, states[..n + 1], first, k.0); }
      if Tarpit(first, k.0) { TarpitLater(events, n, k.0); assert false; }
    }
  }

  lemma TarpitLater(events: seq<Event>, n: nat, d: string)
    requires n <= |events| && Tarpit(events[..n], d)
    ensures Tarpit(events, d)
  {
    hide TarpitSeen;
    var first := events[..n];
    var i :| 0 <= i < |first| && TarpitSeen(first[i], d);
    assert TarpitSeen(events[i], d);
  }

  /** So, without a configured budget, a finished run has requested every template path in scope, in every directory it opened
      and found to be no tarpit, unless an exclusion matches it. */
  lemma UntouchedPathsSent(env: Env, states: seq<Scan>, events: seq<Event>, d: string, p: string)
    requires IsRun(env, states, events) && Fresh(env, states[0]) && Configured(env) && env.perDirBudget <= 0
    requires Finished(states[|events|]) && d in states[|events|].book.dirs && p in PathsOf(env.template)
    requires Untouched(env, events, (d, p))
    ensures (d, p) in RequestCount(events)
  {
    hide Fresh, Configured, StepAt, Finished, AlwaysFree, PathsOf, Untouched;
    UntouchedIsFree(env, states, events, (d, p));
    FreePathsSent(env, states, events, d, p);
  }
}
