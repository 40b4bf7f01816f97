/** Small scans that show what can go wrong. Each run starts fresh and takes only steps that can happen. */
module Examples {
  import opened ScanTypes
  import opened Counting
  import opened Text
  import opened Paths
  import opened Accounting
  import opened Tallies
  import opened Pushing
  import opened ScanModel
  import opened Soundness
  import opened Seeds
  import opened Runs
  import opened Theorems
  import opened Scores
  import opened Session

  const TARGET := "http://target"
  const APP := Entry("app", TypeFile, 0.5, [], "wordlist")
  const LOGIN := NmapSeed("login", "nmap:443")
  const AGAIN := NmapSeed("app", "nmap:443")

  /** A site with three URLs in scope and a budget of one request a directory. Of the random names it is
      probed with, only the first can be in scope; its pages show the stack that has these extensions. */
  function Site(template: seq<Entry>, nmap: seq<NmapSeed>, exts: seq<string>, resumed: bool): Env
  {
    Env(TARGET, (u: string) => u in {TARGET + "/app", TARGET + "/login", TARGET + "/probe"}, (pattern, d, p) => pattern == p,
        (profile, lessons, prio, tags, d, p) => prio, profile => "", (d, i) => if i == 0 then "probe" else "elsewhere",
        (d, refined) => Calib(false, 0, exts), false, template, nmap, 1, 5, 5, 200, 0.5, 25, 0.5, false, false, 0.0, resumed)
  }

  lemma {:induction false} NothingElse(env: Env, ext: string, i: nat)
    requires i <= N_PROBES && forall j: nat :: i <= j ==> !env.inScope(Url(env, "", env.token("", j) + ext))
    ensures ProbesOf(env, "", ext, 0, i) == []
    decreases N_PROBES - i
  {
    if i < N_PROBES {
      assert !env.inScope(Url(env, "", env.token("", i) + ext));
      NothingElse(env, ext, i + 1);
    }
  }

  lemma SiteScope(template: seq<Entry>, nmap: seq<NmapSeed>, exts: seq<string>, resumed: bool, ext: string, j: nat)
    ensures var env := Site(template, nmap, exts, resumed);
            env.inScope(Url(env, "", env.token("", j) + ext)) <==> j == 0 && ext == ""
  {
    var env := Site(template, nmap, exts, resumed);
    var url := Url(env, "", env.token("", j) + ext);
    if j == 0 {
      assert url == TARGET + "/probe" + ext;
      if ext == "" { assert url == TARGET + "/probe"; }
      assert |url| == 19 + |ext|;
      assert |TARGET + "/app"| == 17;
      assert (TARGET + "/login")[14] == 'l' && url[14] == 'p';
      assert |TARGET + "/login"| == 19 && |TARGET + "/probe"| == 19;
    } else {
      assert |url| == 23 + |ext|;
      assert |TARGET + "/app"| == 17 && |TARGET + "/login"| == 19 && |TARGET + "/probe"| == 19;
    }
  }

  /** With an extension to append, none of the names is in scope. */
  lemma NoProbes(template: seq<Entry>, nmap: seq<NmapSeed>, resumed: bool)
    ensures Probes(Site(template, nmap, [".php"], resumed), "", [".php"], 0) == []
  {
    var env := Site(template, nmap, [".php"], resumed);
    hide Site;
    forall j: nat ensures !env.inScope(Url(env, "", env.token("", j) + ".php")) {
      SiteScope(template, nmap, [".php"], resumed, ".php", j);
    }
    NothingElse(env, ".php", 0);
    assert Probes(env, "", [".php"], 1) == [];
  }

  /** Without one, the first is. */
  lemma OneProbe(template: seq<Entry>, nmap: seq<NmapSeed>, exts: seq<string>)
    ensures Probes(Site(template, nmap, exts, false), "", [""], 0) == ["probe"]
  {
    var env := Site(template, nmap, exts, false);
    forall j: nat ensures env.inScope(Url(env, "", env.token("", j) + "")) <==> j == 0 {
      SiteScope(template, nmap, exts, false, "", j);
    }
    NothingElse(env, "", 1);
    assert env.token("", 0) + "" == "probe";
    assert ProbesOf(env, "", "", 0, 0) == ["probe"] + ProbesOf(env, "", "", 0, 1);
    assert Probes(env, "", [""], 1) == [];
  }

  lemma SiteIs(template: seq<Entry>, nmap: seq<NmapSeed>, exts: seq<string>)
    ensures var env := Site(template, nmap, exts, false);
            && Configured(env) && Cacheable(env) && env.subtreeBurst == 200 && env.perDirBudget == 1
            && env.inScope(Url(env, "", "app")) && env.inScope(Url(env, "", "login"))
  {
    var env := Site(template, nmap, exts, false);
    assert Url(env, "", "app") == TARGET + "/app";
    assert Url(env, "", "login") == TARGET + "/login";
  }

  /** The root's record as its first calibration ends at once. */
  function Begun(env: Env, exts: seq<string>): Scan
  {
    var s := Blank(env, 0, exts, 0, 0.0);
    s.(book := Started(s.book, "", 0, []), rootRefined := true, spaDirs := map["" := false])
  }

  /** With nothing to probe, the root opens the moment it is seeded. */
  lemma OpensAtOnce(template: seq<Entry>, nmap: seq<NmapSeed>, resumed: bool)
    ensures var env := Site(template, nmap, [".php"], resumed);
            var s := PushCandidates(env, Begun(env, [".php"]), "");
            Fresh(env, s)
  {
    hide PushCandidates, Probes;
    var env := Site(template, nmap, [".php"], resumed);
    NoProbes(template, nmap, resumed);
    var blank := Blank(env, 0, [".php"], 0, 0.0);
    assert map[]["" := false] == map["" := false];
    assert PushCandidates(env, Begun(env, [".php"]), "") == StartCalibration(env, blank, "", 0);
  }

  /** A scan with nothing in it but the root, at the end of a calibration without probes. */
  ghost predicate RootBegun(s: Scan)
  {
    && s.book.dirs == map["" := FreshDir(0, [])] && s.book.order == [""] && s.book.queue == multiset{} && s.book.flying == multiset{}
    && s.book.probes == multiset{} && s.book.log.lost == map[] && s.harvestQueue == [] && s.harvestFlying == multiset{}
    && s.scoring == Scoring(0, [], false, []) && !s.dirty && s.lastDir == "" && s.streak == 0
  }

  lemma BegunIs(env: Env, exts: seq<string>)
    ensures RootBegun(Begun(env, exts))
  {
  }

  function Page(): Candidate { Candidate("app", TypeFile, 0.5, 0.5, 1, "", "wordlist", ["generic"]) }

  function Service(n: NmapSeed): Candidate { NmapCandidate(0, "", n) }

  /** A scan of the one-page template with these candidates just queued, and nothing else done. */
  ghost predicate JustOpened(env: Env, s: Scan, queue: multiset<Candidate>)
  {
    && s.book.dirs.Keys == {""} && s.book.queue == queue && s.book.flying == multiset{} && s.book.probes == multiset{}
    && s.book.order == [] && s.book.log.lost == map[] && s.harvestQueue == [] && s.harvestFlying == multiset{}
    && s.scoring == Scoring(0, [], false, []) && !s.dirty && s.lastDir == "" && s.streak == 0
    && var r := s.book.dirs[""];
       r.phase == Scanning && r.dispatched == r.accounted == 0 && r.total == |queue| && !r.capped && r.budget == |queue|
  }

  lemma OnePage(nmap: seq<NmapSeed>, resumed: bool)
    ensures var env := Site([APP], nmap, [".php"], resumed);
            Folded(env, Scoring(0, [], false, []), "", 0, [APP], map[]) == ([Page()], map[])
  {
    var env := Site([APP], nmap, [".php"], resumed);
    FoldOne(env, Scoring(0, [], false, []), APP);
    assert Multiplier(env, [], "", "app") == 1.0;
  }

  lemma FoldOne(env: Env, s: Scoring, e: Entry)
    ensures Folded(env, s, "", 0, [e], map[]) == ([Scored(env, s, TemplateCandidate(env, "", 0, e))], map[])
  {
    hide Scored, TemplateCandidate;
    var template := [e];
    var none: map<string, Candidate> := map[];
    assert template[..0] == [];
    assert Folded(env, s, "", 0, template[..0], none) == ([], none);
    assert none - {TemplateCandidate(env, "", 0, e).path} == none;
    var c := TemplateCandidate(env, "", 0, e);
    assert c.path !in none && [] + [Scored(env, s, c)] == [Scored(env, s, c)];
  }

  lemma OpenedAs(nmap: seq<NmapSeed>, resumed: bool, s: Scan)
    requires |nmap| <= 1 && RootBegun(s)
    ensures var env := Site([APP], nmap, [".php"], resumed);
            JustOpened(env, PushCandidates(env, s, ""),
                       if nmap == [] then multiset{Page()} else multiset{Page(), Service(nmap[0])})
  {
    hide Site, Keys, CandidateSet, BudgetOf, Page, Service, SameHistory, SameClock;
    QueuedAtFirst(nmap, resumed, s);
    BudgetAtFirst(nmap, resumed, s);
  }

  lemma QueuedAtFirst(nmap: seq<NmapSeed>, resumed: bool, s: Scan)
    requires |nmap| <= 1 && RootBegun(s)
    ensures var env := Site([APP], nmap, [".php"], resumed);
            CandidateSet(env, s, "") == if nmap == [] then multiset{Page()} else multiset{Page(), Service(nmap[0])}
  {
    hide Folded, Score, Keys, NmapCandidates, NmapCandidate, Page, Service;
    var env := Site([APP], nmap, [".php"], resumed);
    OnePage(nmap, resumed);
    OneService(env);
    assert Leftovers(env, Scoring(0, [], false, []), map[]) == {};
    assert multiset([Page()]) == multiset{Page()};
  }

  lemma BudgetAtFirst(nmap: seq<NmapSeed>, resumed: bool, s: Scan)
    requires |nmap| <= 1 && RootBegun(s)
    ensures BudgetOf(Site([APP], nmap, [".php"], resumed), s, "") == 1 + |nmap|
  {
    hide Folded, Score, Page;
    OnePage(nmap, resumed);
  }

  lemma OneService(env: Env)
    requires |env.nmap| <= 1
    ensures NmapCandidates(env, 0, "") == if env.nmap == [] then [] else [Service(env.nmap[0])]
  {
  }

  // ---- What can go wrong ----------------------------------------------------------------

  /** Right after the root opens, an nmap seed's cached score is not the one the scorer would give it. */
  lemma StaleSeed() returns (env: Env, s: Scan)
    ensures Fresh(env, s) && Configured(env) && Cacheable(env) && !s.dirty && !Coherent(env, s)
  {
    env := Site([APP], [LOGIN], [".php"], false);
    s := PushCandidates(env, Begun(env, [".php"]), "");
    hide Fresh, PushCandidates, CandidateSet, Begun;
    SiteIs([APP], [LOGIN], [".php"]);
    OpensAtOnce([APP], [LOGIN], false);
    BegunIs(env, [".php"]);
    OpenedAs([LOGIN], false, Begun(env, [".php"]));
    assert Service(LOGIN) in s.book.queue;
    assert Multiplier(env, [], "", "login") == 1.0;
    assert Score(env, s.scoring, Service(LOGIN)) == 1.0 && Service(LOGIN).score == 2.0;
  }

  /** The candidates queued at first can all be requested, one after the other. */
  lemma FirstRequest(env: Env, s: Scan, queue: multiset<Candidate>, c: Candidate)
    requires JustOpened(env, s, queue) && c in queue && c.parentDir == "" && env.inScope(Url(env, "", c.path)) && env.subtreeBurst == 200
    ensures Enabled(env, s, Requested(c)) && c.parentDir in s.book.dirs && Next(env, s, Requested(c)) == Dispatch(s, c)
  {
    hide Url;
  }

  lemma SecondRequest(env: Env, s: Scan, c1: Candidate, c2: Candidate)
    requires JustOpened(env, s, multiset{c1, c2}) && c1.parentDir == c2.parentDir == ""
    requires env.inScope(Url(env, "", c2.path)) && env.subtreeBurst == 200
    ensures c1.parentDir in s.book.dirs && c2.parentDir in Dispatch(s, c1).book.dirs
    ensures Enabled(env, Dispatch(s, c1), Requested(c2)) && Next(env, Dispatch(s, c1), Requested(c2)) == Dispatch(Dispatch(s, c1), c2)
  {
    hide Url, Keys;
    assert multiset{c1, c2} - multiset{c1} == multiset{c2};
  }

  /** The template's page and then an nmap seed are requested, both of the root. */
  lemma TwoRequests(n: NmapSeed) returns (env: Env, states: seq<Scan>, events: seq<Event>)
    requires n == LOGIN || n == AGAIN
    ensures IsRun(env, states, events) && Fresh(env, states[0]) && Configured(env) && env == Site([APP], [n], [".php"], false)
    ensures events == [Requested(Page()), Requested(Service(n))]
  {
    hide Fresh, PushCandidates, CandidateSet, Blank, Enabled, Next, Site, Under, RequestCount, JustOpened, Dispatch, Url,
         Blocked, IsRun, Cacheable, Keys;
    env := Site([APP], [n], [".php"], false);
    var s := PushCandidates(env, Begun(env, [".php"]), "");
    var c1, c2 := Page(), Service(n);
    SiteIs([APP], [n], [".php"]);
    OpensAtOnce([APP], [n], false);
    BegunIs(env, [".php"]);
    OpenedAs([n], false, Begun(env, [".php"]));
    FirstRequest(env, s, multiset{c1, c2}, c1);
    SecondRequest(env, s, c1, c2);
    states, events := [s, Dispatch(s, c1), Dispatch(Dispatch(s, c1), c2)], [Requested(c1), Requested(c2)];
    TwoSteps(env, states, events);
  }

  /** A directory with a budget of one is sent two requests. */
  lemma OverBudgetRun() returns (env: Env, states: seq<Scan>, events: seq<Event>)
    ensures IsRun(env, states, events) && Fresh(env, states[0]) && Configured(env)
    ensures env.perDirBudget == 1 && Under(RequestCount(events), "") == 2
  {
    hide Fresh, IsRun, Under, RequestCount;
    env, states, events := TwoRequests(LOGIN);
    TwoCounted(Page(), Service(LOGIN));
  }

  /** One path is requested twice, once for the template and once for nmap. */
  lemma RequestedTwice() returns (env: Env, states: seq<Scan>, events: seq<Event>)
    ensures IsRun(env, states, events) && Fresh(env, states[0]) && Configured(env) && DistinctPaths(env.template)
    ensures |events| == 2 && events[0].Requested? && events[1].Requested? && KeyOf(events[0].cand) == KeyOf(events[1].cand)
  {
    hide Fresh, IsRun;
    env, states, events := TwoRequests(AGAIN);
  }

  lemma TwoSteps(env: Env, states: seq<Scan>, events: seq<Event>)
    requires |states| == 3 && |events| == 2 && Enabled(env, states[0], events[0]) && Enabled(env, states[1], events[1])
    requires states[1] == Next(env, states[0], events[0]) && states[2] == Next(env, states[1], events[1])
    ensures IsRun(env, states, events)
  {
    hide Enabled, Next;
    assert StepAt(env, states, events, 0) && StepAt(env, states, events, 1);
  }

  lemma TwoCounted(c1: Candidate, c2: Candidate)
    requires c1.parentDir == c2.parentDir == ""
    ensures Under(RequestCount([Requested(c1), Requested(c2)]), "") == 2
  {
    var events := [Requested(c1), Requested(c2)];
    assert events[..1] == [Requested(c1)] && events[..1][..0] == [];
    assert RequestCount(events[..1]) == multiset{KeyOf(c1)};
    assert RequestCount(events) == multiset{KeyOf(c1)} + multiset{KeyOf(c2)};
    var p := (k: Key) => k.0 == "";
    CountAdd(multiset{}, KeyOf(c1), p);
    CountAdd(multiset{KeyOf(c1)}, KeyOf(c2), p);
    assert multiset{} + multiset{KeyOf(c1)} == multiset{KeyOf(c1)};
  }

  /** Saved with its one request in flight, a scan resumes into a state with nothing queued, nothing out and
      nothing to do, that does not count as finished. */
  lemma ResumeHangs() returns (env: Env, states: seq<Scan>, events: seq<Event>, resumed: Env, r: Scan)
    ensures IsRun(env, states, events) && Fresh(env, states[0]) && Configured(env)
    ensures Restarts(states[|events|], []) && r == Resume(resumed, states[|events|], [".php"], 0.0, [])
    ensures !Finished(r) && forall e :: Productive(e) ==> !Enabled(resumed, r, e)
  {
    hide Fresh, PushCandidates, CandidateSet, Blank, Enabled, Next, Site, JustOpened, Dispatch, Url, Blocked, Cacheable, Resume, Restarts,
         Finished, Quiescent;
    env, resumed := Site([APP], [], [".php"], false), Site([APP], [], [".php"], true);
    var s, c := PushCandidates(env, Begun(env, [".php"]), ""), Page();
    SiteIs([APP], [], [".php"]);
    OpensAtOnce([APP], [], false);
    BegunIs(env, [".php"]);
    OpenedAs([], false, Begun(env, [".php"]));
    FirstRequest(env, s, multiset{c}, c);
    states, events := [s, Dispatch(s, c)], [Requested(c)];
    assert StepAt(env, states, events, 0);
    SavedInFlight(env, s, c, resumed);
    r := Resume(resumed, Dispatch(s, c), [".php"], 0.0, []);
    NothingEnabled(resumed, r);
  }

  lemma SavedInFlight(env: Env, s: Scan, c: Candidate, resumed: Env)
    requires JustOpened(env, s, multiset{c}) && c.parentDir == ""
    ensures c.parentDir in s.book.dirs && Restarts(Dispatch(s, c), [])
    ensures var r := Resume(resumed, Dispatch(s, c), [".php"], 0.0, []); Quiescent(r) && !Finished(r)
  {
    hide LogAfter, Keys;
    assert multiset{c} - multiset{c} == multiset{};
    var r := Resume(resumed, Dispatch(s, c), [".php"], 0.0, []);
    assert r == Base(Dispatch(s, c), [".php"], 0.0);
    assert "" in r.book.dirs && r.book.dirs[""].phase != Done;
  }

  lemma NothingEnabled(env: Env, s: Scan)
    requires Quiescent(s)
    ensures forall e :: Productive(e) ==> !Enabled(env, s, e)
  {
  }

  // ---- A seed that is never requested ----------------------------------------------------

  function Robots(): Seed { Seed("login", false, 0.95, "robots:disallow") }

  /** Nothing is anywhere but in the root's record. */
  ghost predicate Empty(s: Scan)
  {
    && s.book.dirs.Keys == {""} && s.book.queue == multiset{} && s.book.flying == multiset{} && s.book.probes == multiset{}
    && s.harvestFlying == multiset{} && s.harvestQueue == [] && s.producers == 0
  }

  lemma NothingToPush(env: Env, s: Scoring, depth: int)
    requires env.template == [] && env.nmap == []
    ensures SetFor(env, s, "", depth, map[]) == multiset{}
  {
    assert Leftovers(env, s, map[]) == {};
  }

  /** The root opens with nothing in it, and is done. */
  lemma EmptyOpens(env: Env, s: Scan)
    requires Empty(s) && s.rootRefined && s.book.dirs[""].pending == map[] && env.template == [] && env.nmap == []
    requires env.calibrate("", true) == Calib(false, 0, [".php"])
    ensures Finished(FinishCalibration(env, s, ""))
  {
    hide WithoutFirst, Keys, SetFor, SameHistory, SameClock, BudgetOf, Probes;
    NothingToPush(env, s.scoring, s.book.dirs[""].depth);
    var r := FinishCalibration(env, s, "");
    assert s.book.queue + multiset{} == s.book.queue;
    assert r.book.dirs.Keys == {""} && r.book.dirs[""].phase == Done;
  }

  /** The root starts over, with nothing to probe. */
  lemma EmptyRelapses(env: Env, s: Scan)
    requires env == Site([], [], [".php"], false)
    requires Empty(s) && !s.rootRefined && s.exts == [""] && s.lastSig == ""
    ensures Finished(FinishCalibration(env, s, ""))
  {
    hide WithoutFirst, Probes, PushCandidates, SameHistory, SameClock, Finished, Pivot;
    var s3 := s.(spaDirs := s.spaDirs["" := false], rootRefined := true, scoring := s.scoring.(profile := 0), exts := [".php"]);
    assert Grew([""], [".php"]) by { assert [".php"][0] !in [""]; }
    NoProbes([], [], false);
    assert FinishCalibration(env, s, "") == Recalibrate(env, s3, "");
    var s4 := s3.(book := Restarted(s3.book, "", []));
    EmptyOpens(env, s4);
    assert Recalibrate(env, s3, "") == FinishCalibration(env, s4, "");
  }

  lemma SeedPath()
    ensures Segments("login") == ["login"] && Trim("login", '/') == "login"
  {
    SplitOfClean("login", '/');
  }

  /** The root waits for its one probe, before and after the seed is held for it. */
  function Waiting(env: Env): Scan
  {
    var s := Blank(env, 0, [""], 0, 0.0);
    s.(book := Started(s.book, "", 0, ["probe"]))
  }

  function HeldSeed(): Candidate { LeafCandidate(["login"], Robots()) }

  function WithSeed(s: Scan): Scan
    requires "" in s.book.dirs
  {
    s.(book := Held(s.book, "", HeldSeed()).(log := s.book.log.(seeds := s.book.log.seeds + 1, staged := s.book.log.staged + 1)))
  }

  lemma WaitsForOne(template: seq<Entry>)
    ensures var env := Site(template, [], [".php"], false); Fresh(env, Waiting(env))
  {
    hide Probes, FinishCalibration;
    var env := Site(template, [], [".php"], false);
    OneProbe(template, [], [".php"]);
    assert Waiting(env) == StartCalibration(env, Blank(env, 0, [""], 0, 0.0), "", 0);
  }

  lemma SeedComes(env: Env, s: Scan, pick: Candidate)
    requires "" in s.book.dirs && s.book.dirs[""].phase == Calibrating && Admitted(env, Robots())
    ensures Enabled(env, s, Seeded(Robots(), [pick])) && Next(env, s, Seeded(Robots(), [pick])) == WithSeed(s)
  {
    hide Admitted, Merged, SameHistory, SameClock, Segments;
    SeedPath();
    assert EnsureDirChain(env, s, ["login"], 0.95, "robots:disallow", [pick], 0) == s;
  }

  lemma SeedIsIn(env: Env)
    requires env == Site([], [], [".php"], false)
    ensures Admitted(env, Robots())
  {
    SeedPath();
    assert env.target + "/" + "login" == TARGET + "/login";
  }

  /** The probe goes out and comes back. */
  lemma ProbeComesBack(env: Env, s: Scan)
    requires env == Site([], [], [".php"], false) && s == WithSeed(Waiting(env))
    ensures Enabled(env, s, ProbeSent("")) && "" in s.book.dirs && s.book.dirs[""].probeQueue != []
    ensures var s1 := s.(book := ProbeOut(s.book, ""));
            && Next(env, s, ProbeSent("")) == s1 && Enabled(env, s1, ProbeBackAt(""))
            && Finished(Next(env, s1, ProbeBackAt("")))
  {
    hide FinishCalibration, Finished, LeafCandidate, Site;
    var s1 := s.(book := ProbeOut(s.book, ""));
    var s2 := s1.(book := ProbeBack(s1.book, ""));
    assert s.book.order[0] == "";
    assert multiset{""} - multiset{""} == multiset{};
    SiteSig(env);
    EmptyRelapses(env, s2);
    assert CollectProbe(env, s1, "") == FinishCalibration(env, s2, "");
  }

  lemma SiteSig(env: Env)
    requires env == Site([], [], [".php"], false)
    ensures env.signature(0) == "" && Configured(env)
  {
  }

  /** A whole run that finishes without ever requesting a seed it admitted: the seed comes in while the root is
      being probed, and the one probe comes back and gives the stack away. */
  lemma SeedLost() returns (env: Env, states: seq<Scan>, events: seq<Event>)
    ensures IsRun(env, states, events) && Fresh(env, states[0]) && Configured(env) && Finished(states[|events|])
    ensures events != [] && SeedOf(events[0]) == Some(Robots()) && Admitted(env, Robots()) && RequestCount(events) == multiset{}
  {
    hide Fresh, Enabled, Next, Site, Admitted, WithSeed, Waiting, Robots, Finished, CollectProbe, ProbeOut, RequestCount;
    env := Site([], [], [".php"], false);
    var pick, s0 := Page(), Waiting(env);
    WaitsForOne([]);
    SeedIsIn(env);
    SiteSig(env);
    WaitingRoot(env);
    SeedComes(env, s0, pick);
    var s1 := WithSeed(s0);
    ProbeComesBack(env, s1);
    var s2 := Next(env, s1, ProbeSent(""));
    events := [Seeded(Robots(), [pick]), ProbeSent(""), ProbeBackAt("")];
    states := [s0, s1, s2, Next(env, s2, ProbeBackAt(""))];
    assert StepAt(env, states, events, 0) && StepAt(env, states, events, 1) && StepAt(env, states, events, 2);
    NoneRequested(events);
  }

  lemma WaitingRoot(env: Env)
    ensures "" in Waiting(env).book.dirs && Waiting(env).book.dirs[""].phase == Calibrating
  {
  }

  lemma {:induction false} NoneRequested(events: seq<Event>)
    requires forall i :: 0 <= i < |events| ==> !events[i].Requested?
    ensures RequestCount(events) == multiset{}
  {
    if events == [] {
    } else {
      NoneRequested(events[..|events| - 1]);
    }
  }

  // ---- An exclusion a resume forgets ----------------------------------------------------

  /** An exclusion while the root calibrates, when there is nothing to take out yet. */
  lemma BarsEarly(env: Env, s: Scan)
    requires s == Waiting(env)
    ensures Enabled(env, s, Barred("app", [])) && Next(env, s, Barred("app", [])) == WithOverride(s, "app", Exclude, 1.0)
  {
    assert s.book.queue - multiset([]) == multiset{};
  }

  /** The saved root starts over, and with the extension now known has nothing to probe. */
  lemma RestartsBare(env: Env, s: Scan, resumed: Env)
    requires s == WithOverride(Waiting(env), "app", Exclude, 1.0) && resumed == Site([APP], [], [".php"], true)
    ensures Restarts(s, [""])
    ensures var r := Resume(resumed, s, [".php"], 0.0, [""]); JustOpened(resumed, r, multiset{Page()})
  {
    hide PushCandidates, JustOpened, Probes, SameHistory, SameClock, Site;
    var base := Base(s, [".php"], 0.0);
    BareBase(env, s);
    NoProbes([APP], [], true);
    SiteDecides(resumed);
    var begun := base.(book := Started(base.book, "", 0, []), rootRefined := true, spaDirs := base.spaDirs["" := false]);
    assert Resume(resumed, s, [".php"], 0.0, [""]) == StartCalibration(resumed, base, "", 0) by {
      assert [""][..0] == [];
      assert Recalibrated(resumed, base, BuildSnapshot(s), [""][..0]) == base;
    }
    assert StartCalibration(resumed, base, "", 0) == PushCandidates(resumed, begun, "");
    OpenedAs([], true, begun);
  }

  lemma SiteDecides(env: Env)
    requires env == Site([APP], [], [".php"], true)
    ensures env.calibrate("", false) == Calib(false, 0, [".php"]) && env.signature(0) == ""
  {
  }

  lemma BareBase(env: Env, s: Scan)
    requires s == WithOverride(Waiting(env), "app", Exclude, 1.0)
    ensures var b := Base(s, [".php"], 0.0);
            && b.book.dirs == map[] && b.book.order == [] && b.book.queue == multiset{} && b.book.flying == multiset{}
            && b.book.probes == multiset{} && b.book.log.lost == map[] && b.harvestQueue == [] && b.harvestFlying == multiset{}
            && b.scoring == Scoring(0, [], false, [])
            && !b.dirty && b.lastDir == "" && b.streak == 0 && b.lastSig == "" && b.exts == [".php"] && !b.rootRefined
    ensures BuildSnapshot(s).dirs.Keys == {""} && BuildSnapshot(s).dirs[""].depth == 0
    ensures Restarts(s, [""])
  {
  }

  /** A path is excluded, the scan saved and resumed, and the path requested. */
  lemma ExclusionForgotten() returns (env: Env, states: seq<Scan>, events: seq<Event>, resumed: Env, r: Scan, c: Candidate)
    ensures IsRun(env, states, events) && Fresh(env, states[0]) && events == [Barred("app", [])]
    ensures env.matches("app", c.parentDir, c.path)
    ensures Restarts(states[1], [""]) && r == Resume(resumed, states[1], [".php"], 0.0, [""]) && Enabled(resumed, r, Requested(c))
  {
    hide Fresh, Enabled, Next, JustOpened, Resume, Restarts, Waiting, Url;
    env, resumed, c := Site([APP], [], [".php"], false), Site([APP], [], [".php"], true), Page();
    var s := Waiting(env);
    var s1 := WithOverride(s, "app", Exclude, 1.0);
    WaitsForOne([APP]);
    BarsEarly(env, s);
    states, events := [s, s1], [Barred("app", [])];
    assert StepAt(env, states, events, 0);
    RestartsBare(env, s1, resumed);
    r := Resume(resumed, s1, [".php"], 0.0, [""]);
    PageInScope();
    FirstRequest(resumed, r, multiset{c}, c);
  }

  lemma PageInScope()
    ensures var env := Site([APP], [], [".php"], true); env.inScope(Url(env, "", "app")) && env.subtreeBurst == 200
  {
    assert Url(Site([APP], [], [".php"], true), "", "app") == TARGET + "/app";
  }
}
