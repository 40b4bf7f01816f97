/** Saving and resuming the coordinator object: what is read from one object rebuilds another, and from
    there on the new object's life is a run of a resumed scan. */
module Resuming {
  import opened ScanTypes
  import opened Counting
  import opened FrontierHeap
  import opened Accounting
  import opened ScanModel
  import opened Runs
  import opened Session
  import opened Engine

  /** buildSnapshot reads the object and changes nothing. */
  method Save(c: Coordinator) returns (saved: Saved)
    requires c.frontier.Valid()
    ensures saved == BuildSnapshot(c.Abs())
  {
    hide Frontier.Valid, SnapDir;
    var dirs := SnapDirs(c.dirs);
    var all := c.frontier.All();
    saved := Saved(multiset(all), dirs, c.baselines, c.findings, c.seenContent, c.scoring.profile, c.scoring.lessons,
                   c.crawlVisited, c.scoring.spaMode, c.rootRefined);
  }

  /** restoreSnapshot up to the directories that were calibrating, with the frontier in its saved order. */
  method Rebuild(env: Env, saved: Saved, queued: seq<Candidate>, exts: seq<string>, last: real, ghost log: Ledger,
                 epsilon: bool, orderJitter: bool) returns (c: Coordinator, again: seq<string>)
    requires multiset(queued) == saved.frontier
    ensures fresh(c) && fresh(c.frontier) && c.frontier.Valid() && c.env == env
    ensures c.Abs() == Restored(saved, exts, last, log)
    ensures Listed(saved, again)
  {
    hide Frontier.Valid, Frontier.Contents, RestoreDir;
    var frontier := RestoreFrontier(queued);
    var dirs;
    dirs, again := RestoreDirs(saved.dirs);
    c := new Coordinator.FromParts(env, frontier, dirs, Scoring(saved.profile, saved.lessons, saved.spaMode, []), saved.seen,
                                   saved.findings, saved.spaDirs, exts, saved.rootRefined, saved.visited, last, log, epsilon, orderJitter);
  }

  /** The directories saved while calibrating, each once. */
  ghost predicate Listed(saved: Saved, again: seq<string>)
  {
    && (forall d :: d in again <==> d in saved.dirs && saved.dirs[d].state == Calibrating)
    && forall i, j :: 0 <= i < j < |again| ==> again[i] != again[j]
  }

  /** restoreSnapshot's last loop: what was calibrating starts over. */
  method CalibrateAgain(c: Coordinator, saved: Saved, again: seq<string>)
    requires c.frontier.Valid() && forall d :: d in again ==> d in saved.dirs
    modifies c, c.frontier
    ensures c.frontier.Valid() && c.Abs() == Recalibrated(c.env, old(c.Abs()), saved, again)
  {
    hide Frontier.Valid, Frontier.Contents, Coordinator.Abs, StartCalibration;
    ghost var s := c.Abs();
    var i := 0;
    assert again[..0] == [];
    while i < |again|
      invariant i <= |again| && c.frontier.Valid() && c.Abs() == Recalibrated(c.env, s, saved, again[..i])
    {
      assert again[..i + 1][..i] == again[..i];
      c.EnqueueChild(again[i], saved.dirs[again[i]].depth);
      i := i + 1;
    }
    assert again[..i] == again;
  }

  /** Save and resume as one: the new object holds exactly the resumed scan of the old object's. */
  method SaveAndResume(c: Coordinator, env: Env, exts: seq<string>, last: real, epsilon: bool, orderJitter: bool)
      returns (r: Coordinator, ghost order: seq<string>)
    requires c.frontier.Valid()
    ensures fresh(r) && r.frontier.Valid() && r.env == env
    ensures Restarts(c.Abs(), order) && r.Abs() == Resume(env, c.Abs(), exts, last, order)
  {
    hide Frontier.Valid, Frontier.Contents, Coordinator.Abs, Recalibrated, Restored, SnapDir, LogAfter;
    ghost var s := c.Abs();
    var saved := Save(c);
    var queued := c.frontier.All();
    QueuedIs(c, queued);
    var again;
    r, again := Rebuild(env, saved, queued, exts, last, LogAfter(s.book), epsilon, orderJitter);
    ListedRestarts(s, again);
    CalibrateAgain(r, saved, again);
    order := again;
  }

  lemma QueuedIs(c: Coordinator, queued: seq<Candidate>)
    requires multiset(queued) == c.frontier.Contents()
    ensures multiset(queued) == BuildSnapshot(c.Abs()).frontier
  {
    hide Frontier.Contents, SnapDir;
  }

  lemma ListedRestarts(s: Scan, again: seq<string>)
    requires Listed(BuildSnapshot(s), again)
    ensures Restarts(s, again)
  {
  }
}
