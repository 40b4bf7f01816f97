/** Two invariants of their own: the novelty gate's record of content, and the throttle on sweeps. */
module History {
  import opened ScanTypes
  import opened Accounting
  import opened Generation
  import opened Reals
  import opened ScanModel

  // ---- Novelty --------------------------------------------------------------------------

  /** Each body hash seen belongs to exactly one finding, and its record is that finding's URL
      followed by its aliases. */
  ghost predicate Recorded(seen: map<int, seq<string>>, findings: seq<Finding>)
  {
    && (forall i :: 0 <= i < |findings| ==>
          findings[i].hash in seen && seen[findings[i].hash] == [findings[i].url] + findings[i].aliases)
    && (forall i, j :: 0 <= i < j < |findings| ==> findings[i].hash != findings[j].hash)
    && |seen| == |findings|
  }

  /** As many findings as novel hits. */
  ghost predicate Novel(s: Scan)
  {
    Recorded(s.seen, s.findings) && |s.findings| == s.book.log.novel
  }

  /** Aliasing adds the URL to the one finding with that content, and leaves the rest alone. */
  lemma {:induction false} AliasedAt(findings: seq<Finding>, hash: int, url: string, i: nat)
    requires i < |findings| && findings[i].hash == hash
    requires forall j :: 0 <= j < |findings| && j != i ==> findings[j].hash != hash
    ensures Aliased(findings, hash, url) == findings[i := findings[i].(aliases := findings[i].aliases + [url])]
  {
    if i > 0 {
      AliasedAt(findings[1..], hash, url, i - 1);
      assert findings == [findings[0]] + findings[1..];
    }
  }

  ghost function Hashes(findings: seq<Finding>): set<int>
  {
    set i | 0 <= i < |findings| :: findings[i].hash
  }

  lemma {:induction false} HashesSize(findings: seq<Finding>)
    requires forall i, j :: 0 <= i < j < |findings| ==> findings[i].hash != findings[j].hash
    ensures |Hashes(findings)| == |findings|
  {
    if findings == [] {
      assert Hashes(findings) == {};
    } else {
      var n := |findings| - 1;
      HashesSize(findings[..n]);
      forall h | h in Hashes(findings) ensures h in Hashes(findings[..n]) + {findings[n].hash} {
        var i :| 0 <= i < |findings| && findings[i].hash == h;
        if i < n { assert findings[..n][i].hash == h; }
      }
      forall h | h in Hashes(findings[..n]) ensures h in Hashes(findings) && h != findings[n].hash {
        var i :| 0 <= i < n && findings[..n][i].hash == h;
        assert findings[i].hash == h;
      }
      assert findings[n].hash in Hashes(findings);
      assert Hashes(findings) == Hashes(findings[..n]) + {findings[n].hash};
    }
  }

  lemma SubsetOfSameSize<T>(a: set<T>, b: set<T>)
    requires a <= b && |a| == |b|
    ensures a == b
  {
    assert b == a + (b - a);
    assert |b - a| == 0;
  }

  /** Seen content always has a finding. */
  lemma SeenIsFound(seen: map<int, seq<string>>, findings: seq<Finding>, hash: int)
    requires Recorded(seen, findings) && hash in seen
    ensures exists i :: 0 <= i < |findings| && findings[i].hash == hash
  {
    HashesSize(findings);
    forall h | h in Hashes(findings) ensures h in seen.Keys {
      var i :| 0 <= i < |findings| && findings[i].hash == h;
    }
    SubsetOfSameSize(Hashes(findings), seen.Keys);
    assert hash in Hashes(findings);
  }

  lemma RepeatRecorded(seen: map<int, seq<string>>, findings: seq<Finding>, hash: int, url: string)
    requires Recorded(seen, findings) && hash in seen
    ensures Recorded(seen[hash := seen[hash] + [url]], Aliased(findings, hash, url))
  {
    SeenIsFound(seen, findings, hash);
    var i :| 0 <= i < |findings| && findings[i].hash == hash;
    AliasedAt(findings, hash, url, i);
    assert seen[hash := seen[hash] + [url]].Keys == seen.Keys;
  }

  lemma FirstRecorded(seen: map<int, seq<string>>, findings: seq<Finding>, f: Finding)
    requires Recorded(seen, findings) && f.hash !in seen && f.aliases == []
    ensures Recorded(seen[f.hash := [f.url]], findings + [f])
  {
    assert seen[f.hash := [f.url]].Keys == seen.Keys + {f.hash};
  }

  /** A hit with content seen before adds no finding; one with new content adds exactly one. */
  lemma HitNovel(env: Env, s: Scan, c: Candidate, r: Response, now: real)
    requires Novel(s) && r.Answered?
    ensures Novel(HandleHit(env, s, c, r, now))
    ensures HandleHit(env, s, c, r, now).book.log.novel == s.book.log.novel + (if r.hash in s.seen then 0 else 1)
  {
    hide Recorded, LearnFromHit, EnqueueChild, WithinLimits, Aliased;
    var url := Url(env, c.parentDir, c.path);
    if r.hash in s.seen {
      RepeatRecorded(s.seen, s.findings, r.hash, url);
    } else {
      FirstRecorded(s.seen, s.findings, Finding(url, r.hash, r.confidence, c.provenance, []));
    }
  }

  lemma RealNovel(env: Env, s: Scan, c: Candidate, r: Response, now: real)
    requires Novel(s) && c.parentDir in s.book.dirs
    ensures Novel(HandleReal(env, s, c, r, now))
  {
    hide Recorded, HandleHit, HarvestResponse, Url;
    if r.Answered? {
      var s1 := s.(book := Trapped(s.book, c.parentDir, r.tarpit, false));
      HitNovel(env, s1, c, r, now);
    }
  }

  // ---- The sweep throttle ---------------------------------------------------------------

  /** Fewer than reprioHits lessons wait for a sweep, none when nothing is marked; and sweeps after
      the first are paid for, each by reprioHits lessons or by reprioInterval of time. */
  ghost predicate Paid(env: Env, s: Scan, byHits: nat, byTime: nat)
  {
    && s.sweeps <= 1 + byHits + byTime
    && byHits * env.reprioHits + s.hitsSince <= |s.scoring.lessons|
    && (byTime > 0 ==> byTime as real * env.reprioInterval <= s.lastSweep - env.start)
    && (s.sweeps > 0 ==> s.lastSweep >= env.start)
  }

  ghost predicate Throttled(env: Env, s: Scan)
  {
    && s.hitsSince < env.reprioHits && (!s.dirty ==> s.hitsSince == 0)
    && (s.sweeps == 0 ==> s.hitsSince <= |s.scoring.lessons|)
    && exists h: nat, t: nat :: Paid(env, s, h, t)
  }

  ghost predicate Timed(env: Env, s: Scan, now: real)
  {
    now >= env.start && (s.sweeps > 0 ==> now >= s.lastSweep)
  }

  lemma ClockOnly(env: Env, s: Scan, r: Scan)
    requires SameClock(s, r)
    ensures Throttled(env, r) == Throttled(env, s)
  {
    forall h: nat, t: nat ensures Paid(env, r, h, t) == Paid(env, s, h, t) {
    }
  }

  /** One lesson, then markScorerDirty. */
  lemma MarkThrottled(env: Env, s: Scan, t: Scan, now: real)
    requires Throttled(env, s) && Timed(env, s, now) && env.reprioInterval > 0.0
    requires t.dirty == s.dirty && t.hitsSince == s.hitsSince && t.lastSweep == s.lastSweep && t.sweeps == s.sweeps
    requires |t.scoring.lessons| == |s.scoring.lessons| + 1
    ensures Throttled(env, MarkDirty(env, t, now))
  {
    var byHits: nat, byTime: nat :| Paid(env, s, byHits, byTime);
    var r := MarkDirty(env, t, now);
    if r.sweeps == t.sweeps {
      assert Paid(env, r, byHits, byTime);
    } else if s.sweeps == 0 {
      assert Paid(env, r, 0, 0);
    } else if t.hitsSince + 1 >= env.reprioHits {
      assert (byHits + 1) * env.reprioHits == byHits * env.reprioHits + env.reprioHits;
      assert Paid(env, r, byHits + 1, byTime);
    } else {
      assert (byTime + 1) as real * env.reprioInterval == byTime as real * env.reprioInterval + env.reprioInterval;
      assert Paid(env, r, byHits, byTime + 1);
    }
  }

  lemma LearnThrottled(env: Env, s: Scan, c: Candidate, r: Response, now: real)
    requires r.Answered? && Throttled(env, s) && Timed(env, s, now) && env.reprioInterval > 0.0
    ensures Throttled(env, LearnFromHit(env, s, c, r, now))
  {
    hide Throttled, MarkDirty, EnqueueAll, Generate, Learnable;
    if Learnable(env, s, c.parentDir, r.confidence) {
      var lesson := Lesson(c.parentDir, c.path, r.protected, r.indexOf);
      var s1 := s.(scoring := s.scoring.(lessons := s.scoring.lessons + [lesson]));
      MarkThrottled(env, s, EnqueueAll(env, s1, c.parentDir, Generate(c)), now);
    }
  }

  lemma HitThrottled(env: Env, s: Scan, c: Candidate, r: Response, now: real)
    requires r.Answered? && Throttled(env, s) && Timed(env, s, now) && env.reprioInterval > 0.0
    ensures Throttled(env, HandleHit(env, s, c, r, now))
  {
    hide Throttled, LearnFromHit, EnqueueChild, WithinLimits, Aliased;
    if r.hash in s.seen {
      ClockOnly(env, s, HandleHit(env, s, c, r, now));
    } else {
      var url := Url(env, c.parentDir, c.path);
      var s1 := s.(seen := s.seen[r.hash := [url]],
                   findings := s.findings + [Finding(url, r.hash, r.confidence, c.provenance, [])],
                   book := s.book.(log := s.book.log.(novel := s.book.log.novel + 1)));
      ClockOnly(env, s, s1);
      LearnThrottled(env, s1, c, r, now);
      ClockOnly(env, LearnFromHit(env, s1, c, r, now), HandleHit(env, s, c, r, now));
    }
  }

  lemma RealThrottled(env: Env, s: Scan, c: Candidate, r: Response, now: real)
    requires c.parentDir in s.book.dirs
    requires Throttled(env, s) && Timed(env, s, now) && env.reprioInterval > 0.0
    ensures Throttled(env, HandleReal(env, s, c, r, now))
  {
    hide Throttled, HandleHit, HarvestResponse, Url;
    if r.Failed? {
      ClockOnly(env, s, HandleReal(env, s, c, r, now));
    } else {
      var s1 := s.(book := Trapped(s.book, c.parentDir, r.tarpit, false));
      ClockOnly(env, s, s1);
      HitThrottled(env, s1, c, r, now);
      ClockOnly(env, if r.hit then HandleHit(env, s1, c, r, now) else s1, HandleReal(env, s, c, r, now));
    }
  }

  /** The bound on sweeps, in the scan's own counts. */
  lemma SweepBound(env: Env, s: Scan)
    requires Throttled(env, s) && env.reprioInterval > 0.0 && s.lastSweep >= env.start
    ensures s.sweeps <= 1 + |s.scoring.lessons| / env.reprioHits + ((s.lastSweep - env.start) / env.reprioInterval).Floor
  {
    var h: nat, t: nat :| Paid(env, s, h, t);
    Quotients(h, env.reprioHits, |s.scoring.lessons|);
    RealQuotients(t, env.reprioInterval, s.lastSweep - env.start);
  }

  lemma Quotients(n: nat, k: nat, total: nat)
    requires k > 0 && n * k <= total
    ensures n <= total / k
  {
    var q := total / k;
    assert total < (q + 1) * k;
    Cancel(n as real, (q + 1) as real, k as real);
  }

  lemma RealQuotients(n: nat, k: real, total: real)
    requires k > 0.0 && total >= 0.0 && (n > 0 ==> n as real * k <= total)
    ensures n <= (total / k).Floor
  {
    var q := total / k;
    assert q * k == total;
    if n > 0 && n as real > q {
      Cancel(q, n as real, 0.0 - k);
    }
  }
}
