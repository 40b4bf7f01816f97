/** The whole scan as one value, and every coordinator operation as a function on it.
    Network answers, calibration outcomes and the request scorer are parameters. */
module ScanModel {
  import opened ScanTypes
  import opened Counting
  import opened Text
  import opened Provenance
  import opened Paths
  import opened Generation
  import opened Accounting

  const N_PROBES: nat := 5
  const RECURSE_MIN_CONF: real := 0.7
  const SPA_SCORE_DOWN: real := 0.1
  const PIN_SCORE: Factor := 1000.0
  const NMAP_SEED_SCORE: real := 2.0

  type Factor = x: real | x > 0.0 witness 1.0

  datatype Entry = Entry(path: string, kind: Kind, basePrio: real, tags: seq<string>, provenance: string)
  datatype NmapSeed = NmapSeed(path: string, provenance: string)
  datatype Seed = Seed(path: string, isDirHint: bool, basePrio: real, provenance: string)

  datatype OverrideKind = Boost | Demote | Exclude
  datatype Override = Override(pattern: string, kind: OverrideKind, factor: Factor)

  /** Everything a score depends on besides the candidate: the profile (by version), what the
      learners have seen, the SPA mode and the manual overrides. */
  datatype Scoring = Scoring(profile: nat, lessons: seq<Lesson>, spaMode: bool, overrides: seq<Override>)

  /** What calibrating a directory turns out to be: its baseline's SPA flag and, for the root's
      first calibration, the refined profile and its extension set. */
  datatype Calib = Calib(spa: bool, profile: nat, exts: seq<string>)

  datatype Env = Env(
    target: string,
    inScope: string -> bool,
    matches: (string, string, string) -> bool,
    boosted: (nat, seq<Lesson>, real, seq<string>, string, string) -> real,
    signature: nat -> string,
    token: (string, nat) -> string,
    calibrate: (string, bool) -> Calib,
    corpus: bool,
    template: seq<Entry>,
    nmap: seq<NmapSeed>,
    perDirBudget: int,
    maxDepth: int,
    crawlDepth: int,
    subtreeBurst: int,
    learnMinConf: real,
    reprioHits: int,
    reprioInterval: real,
    crawl: bool,
    jsHarvest: bool,
    start: real,
    resumed: bool)

  datatype Finding = Finding(url: string, hash: int, confidence: real, provenance: string, aliases: seq<string>)

  datatype Body = NoBody | Html | Script

  /** A request's outcome as the coordinator reads it. The trap flags say what the sliding
      windows conclude from this response; `late` that the branch's time is up. */
  datatype Response =
    | Failed
    | Answered(hit: bool, confidence: real, hash: int, dirLike: bool, protected: bool, indexOf: bool,
               tarpit: bool, wildcard: bool, late: bool, body: Body)

  /** `swept` is history: false from when nmap seeds are queued with their fixed score until the next sweep. */
  datatype Scan = Scan(
    book: Book,
    scoring: Scoring,
    lastSig: string,
    dirty: bool,
    hitsSince: nat,
    lastSweep: real,
    sweeps: nat,
    seen: map<int, seq<string>>,
    findings: seq<Finding>,
    spaDirs: map<string, bool>,
    exts: seq<string>,
    rootRefined: bool,
    harvestQueue: seq<string>,
    harvestFlying: multiset<string>,
    visited: set<string>,
    producers: nat,
    lastDir: string,
    streak: nat,
    swept: bool)

  /** Nothing found, sent, settled, dropped, lost, chained, staged or seeded between the two, and no directory gone. */
  ghost predicate SameHistory(s: Scan, r: Scan)
  {
    && r.seen == s.seen && r.findings == s.findings && r.book.flying == s.book.flying
    && r.book.log.sent == s.book.log.sent && r.book.log.dropped == s.book.log.dropped
    && r.book.log.lost == s.book.log.lost && r.book.log.novel == s.book.log.novel
    && r.book.log.seeds == s.book.log.seeds && r.book.log.chained == s.book.log.chained
    && r.book.log.staged == s.book.log.staged && r.lastDir == s.lastDir && r.streak == s.streak
    && s.book.dirs.Keys <= r.book.dirs.Keys
  }

  /** The reprioritization throttle has not moved, and nothing was learned. */
  ghost predicate SameClock(s: Scan, r: Scan)
  {
    && r.dirty == s.dirty && r.hitsSince == s.hitsSince && r.lastSweep == s.lastSweep && r.sweeps == s.sweeps
    && r.scoring.lessons == s.scoring.lessons
  }

  // ---- Scoring --------------------------------------------------------------------------

  /** overrideMultiplier: every matching boost, demotion and pin, composed left to right. */
  function Multiplier(env: Env, overrides: seq<Override>, dir: string, path: string): Factor
  {
    if overrides == [] then 1.0
    else
      var n := |overrides| - 1;
      var ov := overrides[n];
      var m: Factor := Multiplier(env, overrides[..n], dir, path);
      if ov.kind == Exclude || !env.matches(ov.pattern, dir, path) then m
      else if ov.kind == Boost then Product(m, ov.factor)
      else Quotient(m, ov.factor)
  }

  function Product(a: Factor, b: Factor): Factor { a * b }

  function Quotient(a: Factor, b: Factor): Factor
  {
    assert a / b * b == a;
    a / b
  }

  function Score(env: Env, s: Scoring, c: Candidate): real
  {
    var prior := env.boosted(s.profile, s.lessons, c.basePrio, c.tags, c.parentDir, c.path);
    var damped := if s.spaMode && !IsHarvest(c.provenance) then prior * SPA_SCORE_DOWN else prior;
    damped * Multiplier(env, s.overrides, c.parentDir, c.path)
  }

  function Scored(env: Env, s: Scoring, c: Candidate): Candidate
  {
    c.(score := Score(env, s, c))
  }

  function Scorer(env: Env, s: Scoring): Candidate -> Candidate
  {
    (c: Candidate) => Scored(env, s, c)
  }

  predicate Excluded(env: Env, overrides: seq<Override>, dir: string, path: string)
  {
    exists i :: 0 <= i < |overrides| && overrides[i].kind == Exclude && env.matches(overrides[i].pattern, dir, path)
  }

  /** Frontier.Reprioritize(applyScore). */
  ghost function Sweep(env: Env, s: Scan): (r: Scan)
    ensures SameHistory(s, r) && SameClock(s, r)
  {
    s.(book := Rescored(s.book, Scorer(env, s.scoring)), swept := true)
  }

  ghost function ReprioritizeIfChanged(env: Env, s: Scan): (r: Scan)
    ensures SameHistory(s, r) && SameClock(s, r) && r.rootRefined == s.rootRefined
  {
    if env.signature(s.scoring.profile) == s.lastSig then s
    else Sweep(env, s.(lastSig := env.signature(s.scoring.profile)))
  }

  ghost function RunDynamicReprio(env: Env, s: Scan, now: real): (r: Scan)
    ensures SameHistory(s, r)
  {
    if !s.dirty then s
    else Sweep(env, s).(dirty := false, hitsSince := 0, lastSweep := now, sweeps := s.sweeps + 1)
  }

  ghost function MarkDirty(env: Env, s: Scan, now: real): (r: Scan)
    ensures SameHistory(s, r)
  {
    var s1 := s.(dirty := true, hitsSince := s.hitsSince + 1);
    if s1.hitsSince >= env.reprioHits || now - s.lastSweep >= env.reprioInterval
    then RunDynamicReprio(env, s1, now) else s1
  }

  // ---- Calibration ----------------------------------------------------------------------

  function Url(env: Env, dir: string, path: string): string
  {
    env.target + dir + "/" + path
  }

  /** The probe paths of one extension, from its i-th draw on; k draws came before. */
  function ProbesOf(env: Env, dir: string, ext: string, k: nat, i: nat): seq<string>
    requires i <= N_PROBES
    decreases N_PROBES - i
  {
    if i == N_PROBES then []
    else
      var p := env.token(dir, k + i) + ext;
      (if env.inScope(Url(env, dir, p)) then [p] else []) + ProbesOf(env, dir, ext, k, i + 1)
  }

  function Probes(env: Env, dir: string, exts: seq<string>, e: nat): seq<string>
    requires e <= |exts|
    decreases |exts| - e
  {
    if e == |exts| then []
    else ProbesOf(env, dir, exts[e], N_PROBES * e, 0) + Probes(env, dir, exts, e + 1)
  }

  /** extSetGrew: some new extension is not among the old. */
  predicate Grew(old_: seq<string>, exts: seq<string>)
  {
    exists i :: 0 <= i < |exts| && exts[i] !in old_
  }

  ghost function StartCalibration(env: Env, s: Scan, d: string, depth: int): (r: Scan)
    ensures SameHistory(s, r) && SameClock(s, r)
    decreases if s.rootRefined then 0 else 1, 2
  {
    var probes := Probes(env, d, s.exts, 0);
    var s1 := s.(book := Started(s.book, d, depth, probes));
    if probes == [] then FinishCalibration(env, s1, d) else s1
  }

  ghost function FinishCalibration(env: Env, s: Scan, d: string): (r: Scan)
    requires d in s.book.dirs
    ensures SameHistory(s, r) && SameClock(s, r)
    decreases if s.rootRefined then 0 else 1, 1
  {
    var cal := env.calibrate(d, s.rootRefined);
    var s1 := s.(spaDirs := s.spaDirs[d := cal.spa]);
    if d == "" && !s.rootRefined then
      var s2 := ReprioritizeIfChanged(env, s1.(rootRefined := true, scoring := s1.scoring.(profile := cal.profile)));
      if Grew(s2.exts, cal.exts) then Recalibrate(env, s2.(exts := cal.exts), d)
      else PushCandidates(env, Pivot(env, s2, d, cal.spa), d)
    else PushCandidates(env, Pivot(env, s1, d, cal.spa), d)
  }

  /** The extension set grew: the directory is calibrated again from scratch. */
  ghost function Recalibrate(env: Env, s: Scan, d: string): (r: Scan)
    requires d in s.book.dirs && s.rootRefined
    ensures SameHistory(s, r) && SameClock(s, r)
    decreases 0, 2
  {
    var probes := Probes(env, d, s.exts, 0);
    var s1 := s.(book := Restarted(s.book, d, probes));
    if probes == [] then FinishCalibration(env, s1, d) else s1
  }

  /** The SPA pivot, for the root only. */
  ghost function Pivot(env: Env, s: Scan, d: string, spa: bool): (r: Scan)
    ensures r.book.dirs == s.book.dirs && SameHistory(s, r) && SameClock(s, r)
  {
    if d == "" && spa then
      var s1 := Sweep(env, s.(scoring := s.scoring.(spaMode := true)));
      if env.crawl || env.jsHarvest then EnqueueHarvestFetch(env, s1, env.target + "/") else s1
    else s
  }

  function EnqueueHarvestFetch(env: Env, s: Scan, url: string): (r: Scan)
    ensures SameHistory(s, r) && SameClock(s, r)
  {
    if !env.inScope(url) || url in s.visited then s
    else s.(visited := s.visited + {url}, harvestQueue := s.harvestQueue + [url])
  }

  function TemplateCandidate(env: Env, d: string, depth: int, e: Entry): Candidate
  {
    if env.corpus then Candidate(e.path, e.kind, e.basePrio, 0.0, depth + 1, d, e.provenance, e.tags)
    else Candidate(e.path, if e.kind == TypeFile then TypeFile else TypeDir, e.basePrio, 0.0, depth + 1, d,
                   if d == "" then "wordlist" else "recursion:" + d, ["generic"])
  }

  /** One template entry: merged with the pending seed at its path if there is one. */
  function FoldEntry(env: Env, s: Scoring, d: string, depth: int, e: Entry,
                     acc: (seq<Candidate>, map<string, Candidate>)): (seq<Candidate>, map<string, Candidate>)
  {
    var c := TemplateCandidate(env, d, depth, e);
    var merged := if c.path in acc.1 then Merged(c, acc.1[c.path]) else c;
    (acc.0 + [Scored(env, s, merged)], acc.1 - {c.path})
  }

  /** The template's candidates for d, each merged with the pending seed at its path, and the
      pending seeds left over. */
  function Folded(env: Env, s: Scoring, d: string, depth: int, template: seq<Entry>,
                  pending: map<string, Candidate>): (r: (seq<Candidate>, map<string, Candidate>))
    ensures |r.0| == |template|
  {
    if template == [] then ([], pending)
    else
      var n := |template| - 1;
      FoldEntry(env, s, d, depth, template[n], Folded(env, s, d, depth, template[..n], pending))
  }

  function Leftovers(env: Env, s: Scoring, left: map<string, Candidate>): set<Candidate>
  {
    set p | p in left :: Scored(env, s, left[p])
  }

  function NmapCandidate(depth: int, d: string, n: NmapSeed): Candidate
  {
    Candidate(n.path, TypeFullPath, 1.0, NMAP_SEED_SCORE, depth + 1, d, n.provenance, [])
  }

  function NmapCandidates(env: Env, depth: int, d: string): (r: seq<Candidate>)
    ensures |r| == if d == "" then |env.nmap| else 0
  {
    if d == "" then seq(|env.nmap|, i requires 0 <= i < |env.nmap| => NmapCandidate(depth, d, env.nmap[i])) else []
  }

  /** What is pushed for a directory with these pending seeds: template, left-over seeds, nmap. */
  ghost function SetFor(env: Env, s: Scoring, d: string, depth: int, pending: map<string, Candidate>): multiset<Candidate>
  {
    var (cands, left) := Folded(env, s, d, depth, env.template, pending);
    multiset(cands) + multiset(Leftovers(env, s, left)) + multiset(NmapCandidates(env, depth, d))
  }

  /** The whole candidate set pushed for d. */
  ghost function CandidateSet(env: Env, s: Scan, d: string): multiset<Candidate>
    requires d in s.book.dirs
  {
    SetFor(env, s.scoring, d, s.book.dirs[d].depth, s.book.dirs[d].pending)
  }

  function BudgetFor(env: Env, d: string, leftovers: nat): int
  {
    var extra := leftovers + if d == "" then |env.nmap| else 0;
    (if env.perDirBudget > 0 then env.perDirBudget else |env.template|) + extra
  }

  ghost function BudgetOf(env: Env, s: Scan, d: string): int
    requires d in s.book.dirs
  {
    var r := s.book.dirs[d];
    BudgetFor(env, d, |Folded(env, s.scoring, d, r.depth, env.template, r.pending).1|)
  }

  ghost function PushCandidates(env: Env, s: Scan, d: string): (r: Scan)
    requires d in s.book.dirs
    ensures SameHistory(s, r) && SameClock(s, r)
  {
    s.(book := Opened(s.book, d, CandidateSet(env, s, d), BudgetOf(env, s, d)), swept := s.swept && (d != "" || env.nmap == []))
  }

  ghost function CollectProbe(env: Env, s: Scan, d: string): (r: Scan)
    requires d in s.book.dirs
    ensures SameHistory(s, r) && SameClock(s, r)
  {
    var s1 := s.(book := ProbeBack(s.book, d));
    if s1.book.dirs[d].probesDone >= s1.book.dirs[d].probesTotal then FinishCalibration(env, s1, d) else s1
  }

  ghost function EnqueueChild(env: Env, s: Scan, d: string, depth: int): (r: Scan)
    ensures SameHistory(s, r) && SameClock(s, r)
  {
    if d in s.book.dirs then s else StartCalibration(env, s, d, depth)
  }

  // ---- Results --------------------------------------------------------------------------

  /** enqueueGenerated on the books: refused by a missing or finished directory, or a known path. */
  function Generated(env: Env, s: Scoring, b: Book, d: string, c: Candidate): Book
  {
    if d !in b.dirs || b.dirs[d].phase == Done || c.path in b.dirs[d].known then b
    else Added(b, d, Scored(env, s, c.(depth := b.dirs[d].depth + 1)))
  }

  function EnqueueGenerated(env: Env, s: Scan, d: string, c: Candidate): (r: Scan)
    ensures SameHistory(s, r) && SameClock(s, r)
  {
    s.(book := Generated(env, s.scoring, s.book, d, c))
  }

  function EnqueueAll(env: Env, s: Scan, d: string, cs: seq<Candidate>): (r: Scan)
    ensures SameHistory(s, r) && SameClock(s, r)
  {
    if cs == [] then s
    else EnqueueGenerated(env, EnqueueAll(env, s, d, cs[..|cs| - 1]), d, cs[|cs| - 1])
  }

  predicate Learnable(env: Env, s: Scan, d: string, confidence: real)
  {
    && confidence >= env.learnMinConf
    && (d in s.book.dirs ==> !s.book.dirs[d].wildcard)
    && (d in s.spaDirs ==> !s.spaDirs[d])
  }

  ghost function LearnFromHit(env: Env, s: Scan, c: Candidate, r: Response, now: real): (t: Scan)
    requires r.Answered?
    ensures SameHistory(s, t)
  {
    if !Learnable(env, s, c.parentDir, r.confidence) then s
    else
      var lesson := Lesson(c.parentDir, c.path, r.protected, r.indexOf);
      var s1 := s.(scoring := s.scoring.(lessons := s.scoring.lessons + [lesson]));
      MarkDirty(env, EnqueueAll(env, s1, c.parentDir, Generate(c)), now)
  }

  predicate WithinLimits(env: Env, s: Scan, c: Candidate, late: bool)
  {
    && c.depth + 1 <= env.maxDepth
    && env.inScope(Url(env, c.parentDir, c.path))
    && (c.parentDir in s.book.dirs ==>
          !s.book.dirs[c.parentDir].capped && !s.book.dirs[c.parentDir].wildcard && !late)
  }

  /** The first finding with this content gets one more alias. */
  function Aliased(findings: seq<Finding>, hash: int, url: string): (r: seq<Finding>)
    ensures |r| == |findings|
  {
    if findings == [] then []
    else if findings[0].hash == hash then [findings[0].(aliases := findings[0].aliases + [url])] + findings[1..]
    else [findings[0]] + Aliased(findings[1..], hash, url)
  }

  ghost function HandleHit(env: Env, s: Scan, c: Candidate, r: Response, now: real): Scan
    requires r.Answered?
  {
    var url := Url(env, c.parentDir, c.path);
    if r.hash in s.seen then
      s.(seen := s.seen[r.hash := s.seen[r.hash] + [url]], findings := Aliased(s.findings, r.hash, url))
    else
      var s1 := s.(seen := s.seen[r.hash := [url]],
                   findings := s.findings + [Finding(url, r.hash, r.confidence, c.provenance, [])],
                   book := s.book.(log := s.book.log.(novel := s.book.log.novel + 1)));
      var s2 := LearnFromHit(env, s1, c, r, now);
      if c.kind == TypeDir && r.dirLike && r.confidence >= RECURSE_MIN_CONF && WithinLimits(env, s2, c, r.late)
      then EnqueueChild(env, s2, c.parentDir + "/" + c.path, c.depth)
      else s2
  }

  function HarvestResponse(env: Env, s: Scan, url: string, body: Body): (r: Scan)
    ensures SameHistory(s, r) && SameClock(s, r)
  {
    var wanted := (body == Html && (env.crawl || env.jsHarvest)) || (body == Script && env.jsHarvest);
    if !wanted || url in s.visited then s
    else s.(visited := s.visited + {url}, producers := s.producers + 1)
  }

  /** What handleReal does with an answer after any hit in it: the trap check, harvesting, accounting. */
  function Concluded(env: Env, s: Scan, c: Candidate, r: Response): Scan
    requires r.Answered?
  {
    var s1 := if c.parentDir in s.book.dirs
              then s.(book := Trapped(s.book, c.parentDir, false, r.wildcard)) else s;
    var s2 := HarvestResponse(env, s1, Url(env, c.parentDir, c.path), r.body);
    if c.parentDir in s2.book.dirs then s2.(book := Settled(s2.book, c)) else s2
  }

  ghost function HandleReal(env: Env, s: Scan, c: Candidate, r: Response, now: real): Scan
    requires c.parentDir in s.book.dirs
  {
    if r.Failed? then s.(book := Settled(s.book, c))
    else
      var s1 := s.(book := Trapped(s.book, c.parentDir, r.tarpit, false));
      Concluded(env, if r.hit then HandleHit(env, s1, c, r, now) else s1, c, r)
  }

  function HandleHarvest(s: Scan, url: string, body: Body): Scan
  {
    s.(harvestFlying := s.harvestFlying - multiset{url},
       producers := if body == NoBody then s.producers else s.producers + 1)
  }

  // ---- Seeds ----------------------------------------------------------------------------

  /** mergeOrEnqueueGenerated and stageDirCandidate on the books. `pick` is the queued candidate the
      frontier finds at the seed's path, when there is one. */
  function LandedBook(env: Env, s: Scoring, b: Book, d: string, c: Candidate, pick: Candidate): Book
  {
    if d !in b.dirs then b
    else if b.dirs[d].phase == Calibrating then Held(b, d, c)
    else if c.path in b.dirs[d].known then
      if pick in b.queue && KeyOf(pick) == (d, c.path) then Swapped(b, pick, Scored(env, s, Merged(pick, c))) else b
    else Added(b, d, Scored(env, s, c.(depth := b.dirs[d].depth + 1)))
  }

  function Landed(env: Env, s: Scan, d: string, c: Candidate, pick: Candidate): (r: Scan)
    ensures SameHistory(s, r) && SameClock(s, r)
  {
    s.(book := LandedBook(env, s.scoring, s.book, d, c, pick))
  }

  /** The same, counted in the history. */
  function StageDirCandidate(env: Env, s: Scan, d: string, c: Candidate, pick: Candidate): (r: Scan)
    ensures SameClock(s, r)
    ensures r.seen == s.seen && r.findings == s.findings && r.book.flying == s.book.flying && r.book.log.novel == s.book.log.novel
    ensures s.book.dirs.Keys <= r.book.dirs.Keys && r.lastDir == s.lastDir && r.streak == s.streak
    ensures r.book.log.staged == s.book.log.staged + 1 && r.book.log.chained == s.book.log.chained && r.book.log.seeds == s.book.log.seeds
    ensures r.book.log.sent == s.book.log.sent && r.book.log.dropped == s.book.log.dropped && r.book.log.lost == s.book.log.lost
  {
    Landed(env, s.(book := s.book.(log := s.book.log.(staged := s.book.log.staged + 1))), d, c, pick)
  }

  function AncestorCandidate(segs: seq<string>, i: nat, prio: real, provenance: string): Candidate
    requires i < |segs|
  {
    Candidate(segs[i], TypeDir, prio, 0.0, i + 1, DirOf(segs, i), provenance, ["generic"])
  }

  /** ensureDirChain's i-th turn: the ancestor itself, and its name under its own parent. */
  ghost function ChainStep(env: Env, s: Scan, segs: seq<string>, prio: real, provenance: string,
                           pick: Candidate, i: nat): (r: Scan)
    requires i < |segs|
    ensures SameClock(s, r)
    ensures r.seen == s.seen && r.findings == s.findings && r.book.flying == s.book.flying && r.book.log.novel == s.book.log.novel
    ensures s.book.dirs.Keys <= r.book.dirs.Keys && r.lastDir == s.lastDir && r.streak == s.streak
    ensures r.book.log.staged == s.book.log.staged + 1 && r.book.log.chained == s.book.log.chained + 1 && r.book.log.seeds == s.book.log.seeds
    ensures r.book.log.sent == s.book.log.sent && r.book.log.dropped == s.book.log.dropped && r.book.log.lost == s.book.log.lost
  {
    var s1 := s.(book := s.book.(log := s.book.log.(chained := s.book.log.chained + 1)));
    var s2 := EnqueueChild(env, s1, DirOf(segs, i + 1), i + 1);
    StageDirCandidate(env, s2, DirOf(segs, i), AncestorCandidate(segs, i, prio, provenance), pick)
  }

  /** ensureDirChain over the first n ancestors. */
  ghost function EnsureDirChain(env: Env, s: Scan, segs: seq<string>, prio: real, provenance: string,
                                picks: seq<Candidate>, n: nat): (r: Scan)
    requires n < |segs| && |picks| == |segs|
    ensures SameClock(s, r)
    ensures r.seen == s.seen && r.findings == s.findings && r.book.flying == s.book.flying && r.book.log.novel == s.book.log.novel
    ensures s.book.dirs.Keys <= r.book.dirs.Keys && r.lastDir == s.lastDir && r.streak == s.streak
    ensures r.book.log.staged == s.book.log.staged + n && r.book.log.chained == s.book.log.chained + n && r.book.log.seeds == s.book.log.seeds
    ensures r.book.log.sent == s.book.log.sent && r.book.log.dropped == s.book.log.dropped && r.book.log.lost == s.book.log.lost
    decreases n
  {
    if n == 0 then s
    else ChainStep(env, EnsureDirChain(env, s, segs, prio, provenance, picks, n - 1), segs, prio, provenance, picks[n - 1], n - 1)
  }

  /** The seed passes enqueueSeed's filters: not empty, not too deep, in scope. */
  predicate Admitted(env: Env, sd: Seed)
  {
    var path := Trim(sd.path, '/');
    var depth := if IsHarvest(sd.provenance) then env.crawlDepth else env.maxDepth;
    path != "" && |Segments(sd.path)| <= depth && env.inScope(env.target + "/" + path)
  }

  function LeafCandidate(segs: seq<string>, sd: Seed): Candidate
    requires |segs| > 0
  {
    Candidate(segs[|segs| - 1], if sd.isDirHint then TypeDir else TypeFile, sd.basePrio, 0.0, |segs|,
              DirOf(segs, |segs| - 1), sd.provenance, ["generic"])
  }

  ghost function EnqueueSeed(env: Env, s: Scan, sd: Seed, picks: seq<Candidate>): Scan
    requires |picks| == |Segments(sd.path)|
  {
    if !Admitted(env, sd) then s
    else
      var segs := Segments(sd.path);
      var n := |segs| - 1;
      var s0 := s.(book := s.book.(log := s.book.log.(seeds := s.book.log.seeds + 1)));
      var s1 := EnsureDirChain(env, s0, segs, sd.basePrio, sd.provenance, picks, n);
      StageDirCandidate(env, s1, DirOf(segs, n), LeafCandidate(segs, sd), picks[n])
  }

  // ---- Dispatch -------------------------------------------------------------------------

  predicate OverBudget(s: Scan, c: Candidate)
    requires c.parentDir in s.book.dirs
  {
    s.book.dirs[c.parentDir].dispatched >= s.book.dirs[c.parentDir].budget
  }

  /** nextDispatchable's discard tests, for a candidate of the directory with record r. */
  predicate Rejects(env: Env, overrides: seq<Override>, r: DirRec, c: Candidate)
  {
    || r.capped
    || r.dispatched >= r.budget
    || !env.inScope(Url(env, c.parentDir, c.path))
    || Excluded(env, overrides, c.parentDir, c.path)
  }

  predicate Blocked(env: Env, s: Scan, c: Candidate)
    requires c.parentDir in s.book.dirs
  {
    Rejects(env, s.scoring.overrides, s.book.dirs[c.parentDir], c)
  }

  function Discard(s: Scan, c: Candidate): Scan
    requires c.parentDir in s.book.dirs
  {
    s.(book := Discarded(s.book, c, OverBudget(s, c)))
  }

  function Dispatch(s: Scan, c: Candidate): Scan
    requires c.parentDir in s.book.dirs
  {
    s.(book := Sent(s.book, c), lastDir := c.parentDir,
       streak := if c.parentDir == s.lastDir then s.streak + 1 else 1)
  }

  // ---- Control --------------------------------------------------------------------------

  /** applyExclude: the swept candidates, in the order they come out, are accounted for. */
  function SweepOut(s: Scan, removed: seq<Candidate>): Scan
    requires forall i :: 0 <= i < |removed| ==> removed[i].parentDir in s.book.dirs
  {
    s.(book := DiscardedAll(s.book, removed, false))
  }

  function WithOverride(s: Scan, pattern: string, kind: OverrideKind, factor: Factor): Scan
  {
    s.(scoring := s.scoring.(overrides := s.scoring.overrides + [Override(pattern, kind, factor)]))
  }

  predicate IsGlob(pattern: string) { '*' in pattern || '?' in pattern || '[' in pattern }

  ghost function ApplyPin(env: Env, s: Scan, pattern: string, picks: seq<Candidate>): Scan
    requires |picks| == |Segments(pattern)|
  {
    var s1 := Sweep(env, WithOverride(s, pattern, Boost, PIN_SCORE));
    if IsGlob(pattern) then s1 else EnqueueSeed(env, s1, Seed(pattern, false, 1.0, "user:pin"), picks)
  }

  function FactorOf(factor: real): Factor { if factor <= 0.0 then 1.0 else factor }

  ghost function ApplyOverride(env: Env, s: Scan, pattern: string, kind: OverrideKind, factor: real): Scan
  {
    Sweep(env, WithOverride(s, pattern, kind, FactorOf(factor)))
  }
}
