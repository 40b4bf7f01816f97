# The scan coordinator, proved

This project models the engine of a web path scanner: one coordinator goroutine that owns a priority
frontier and a record per directory (calibrating, scanning, done), and around it the channels, the hub
that streams events to clients, the adaptive rate limiter, the learners behind a score, and the merging
of seeds and corpus terms. It proves what the engine promises over whole runs: that a scan is bounded,
never stuck and never finished early, that it comes to rest, that nothing is left out without a reason,
exactly when a path is requested once and when cached scores are true, and what a save and resume keeps.

## How it is laid out

- `ScanTypes`, `Text`, `Counting`, `Reals`: candidates, strings, counting multisets, real products.
- `Heap`, `Sorting`, `Frontier`: the binary max-heap and its extractors, in place.
- `Accounting`, `Invariants`, `Tallies`, `Ledgers`: the directory records, the frontier and what is in flight as one
  value (`Book`), the operations on it, the invariant they keep, and the history they add up to.
- `Scan`, `Pushing`: the whole scan as one value and every coordinator operation as a function on it;
  what the candidate set pushed for a directory consists of.
- `Soundness`, `Stepping`, `History`, `Seeds`: each operation keeps the books balanced, the history in
  step, the cached scores traceable, the novelty record, the sweep throttle, and every noted path.
- `Runs`, `Theorems`, `Scores`, `Coverage`: the coordinator loop as a transition system, and the results about
  its runs: bounds, progress, at-most-once, budgets, cached scores, and what is certain to be requested.
- `Growth`, `Gates`: what operations do to the tree, and over runs what may be requested and recursed into:
  exclusions, scope, traps, budgets, depth.
- `Overriding`, `Landing`, `Results`, `Refinement`: which way overrides and the SPA pivot move scores, where a seed lands,
  what a result teaches, finds and mines, and what the root's calibration decides.
- `Flow`, `Progress`: what every operation does to probes, pages and producers, and the bound on the steps of a run.
- `Session`, `Losses`: save and resume, what carries over and what is lost for good.
- `Examples`: concrete runs for each way a promise fails.
- `Coordinator`, `Ticks`, `Resuming`: the coordinator object, which changes its fields in place. Every method
  is proved to take the object from the scan it holds (`Abs`) to the one the model operation gives; every
  turn of its loop extends a run of the transition system, so what is proved of runs holds of the object;
  and an object rebuilt from a save holds the resumed scan.
- `Blast`, `Channels`, `Hub`, `Limiter`, `Generation`, `Markov`, `Learners`, `Merging`, `Corpus`: batch
  caps, goroutines and channels, hub clients, rate control, sibling paths, n-grams, signals, merges.

Everything outside the coordinator is a parameter of `Env`: scope checks, pattern matching, the boost of a
score given what was learned, probe tokens, what a calibration turns out to be. A response is an arbitrary
value, time is any real that does not go backwards, and random draws are arbitrary choices. Scores, priors
and rates are reals. The history a `Book` carries in `log` (what was pushed, sent, dropped, lost) and a scan's `swept` are only
recorded, never read by an operation; `Theorems.RunHistory` and `Scores.SweptIs` tie them to the events of a run.

## What turned out not to hold

- **A root seed can be lost.** When refinement after the root's first calibration grows the extension set,
  the root's record is replaced and its pending seeds go with it (internal/engine/coordinator.go:964-970).
  `Seeds.RootSeedsSurvive` gives the exact condition; `Examples.SeedLost` is a run that finishes without ever
  requesting a seed it admitted.
- **nmap seeds can have stale scores.** They are queued with a fixed score. Until the next sweep a clean frontier
  is coherent if and only if each of them happens to score just that (`Scores.CoherentExactly`); everything
  else queued is coherent all the same. `Examples.StaleSeed` is an instance.
- **A path can be requested twice.** nmap seeds are pushed without a dedup check. `Theorems.OncePushed` says exactly
  when nothing is pushed twice, over whole runs; `Examples.RequestedTwice` is a run that requests one path twice.
- **A per-directory budget is not a cap on requests.** Every generated path, reopening seed, left-over seed and
  nmap path raises it. `Theorems.BudgetHolds` gives its exact value, and when that is over the configured
  one; `Examples.OverBudgetRun` is a run that goes over.
- **A resume can hang.** A candidate in flight at the save is in no snapshot and is never accounted for;
  `Session.ResumedFinish` shows a resumed scan can finish if and only if there was none, and
  `Examples.ResumeHangs` is a scan that resumes with nothing left to do and does not count as finished.
  Pages queued to fetch are lost for good (`Losses.QueuedFetchForgotten`), and so are the seeds pending in
  calibrating directories, but for the case in `Losses.PendingForgotten`.
- **An exclusion does not survive a resume.** Overrides are not saved. `Losses.ExclusionsForgotten` says exactly what
  a resumed scan excludes; in `Examples.ExclusionForgotten` it may request what was excluded before the save.
- **A resumed rate can exceed its ceiling**, if and only if the old ceiling was higher or there was none:
  `RateLimiter.ResumedRate`, `RateLimiter.ResumedTooFast`.
- **A new ceiling can end pacing during a backoff**, if it is not positive: `RateLimiter.PacedSteps`.
- **Sibling numbers wrap.** Past the largest int the five generated paths no longer read back;
  `Generation.SiblingsAreExact` says exactly when they do.

A client's sender takes a message it cannot encode for an empty buffer (internal/daemon/hub.go:233-284), so such a
message would lose a wake-up; `HubClient.WakeLost` is the exact condition. Nothing the engine emits meets it:
`HubClient.NeverAsleep`.

One comment disagrees with its code: exclusion is described as checked at every push
(internal/engine/control.go:205-210), while the code checks it at dispatch and sweeps once. The model
follows the code.

## Model

| member | source | states |
|---|---|---|
| Theorems.RequestsBounded | internal/engine/coordinator.go:1133-1171 | in any run from a fresh start, requests plus discards are at most (1+K+S(D-1))T + N + SD + 11K and directories at most 1+K+S(D-1), for K distinct hit contents, S the admitted seeds among the events of the run (injected or literal pins) of depth at most D, T template entries and N nmap seeds |
| Progress.StepsBounded | internal/engine/coordinator.go:553-611 | the termination measure of a scan: all steps of the loop itself in a run (probes, fetches, requests and discards, their results, producers ending) are bounded by the content found, the seeds applied, the pages asked for, the extensions and the producers at the start |
| Progress.ProbesBounded | internal/engine/coordinator.go:825-861 | no directory is sent more probes than five for each extension, the root twice as many when it is calibrated again, so all probes of a run are bounded by the directories |
| Flow.ProbesAre | internal/engine/coordinator.go:825-852 | a calibration probes with exactly five random names for each extension, less those out of scope |
| Flow.ProbesInFull | internal/engine/coordinator.go:825-852 | with everything in scope that is five probes an extension |
| Flow.FinishFlows | internal/engine/coordinator.go:926-982 | ending a calibration sends nothing and gets nothing back; it draws new probes only for a root that starts over, once, and queues no page visited before, the root page apart |
| Flow.RealReturns | internal/engine/coordinator.go:1071-1128 | handling a result takes just it off the flight, starts at most one producer, and draws probes only for a directory it opens |
| Theorems.ReachedBounded | internal/engine/coordinator.go:1001-1069 | the same bound in any state with the run invariant, with K shown to be the number of body hashes seen |
| Theorems.PushesBounded | internal/engine/dynamic.go:59-78 | room left in the two potentials, and the seeds within their share, turn into the closed bound on pushes and directories |
| Theorems.NeverStuck | internal/engine/coordinator.go:553-611 | no reachable state is stuck: the finish test holds, or an in-flight request, a queued probe or fetch, a producer or a queued candidate gives a step that can happen |
| Theorems.SomethingHappens | internal/engine/coordinator.go:666-767 | in any balanced state that is not quiet some productive step is enabled |
| Theorems.FrontierMoves | internal/engine/coordinator.go:713-766 | a non-empty frontier always yields a discard or a dispatch: the yield cap never strands a candidate |
| Theorems.QuietIsFinished | internal/engine/coordinator.go:606-609 | when nothing is queued, in flight or producing, the finish test holds if and only if no directory has lost requests |
| Theorems.OncePushed | internal/engine/coordinator.go:1001-1069 | over a whole run nothing is pushed twice if and only if, once anything was opened, the template paths are distinct, and once the root was, the nmap paths were apart from each other, the template and the seeds pending just then |
| Theorems.AtMostOnce | internal/engine/dynamic.go:59-78 | under that condition, nmap seeds included, no two requests of a run have the same directory and path |
| Examples.RequestedTwice | internal/engine/coordinator.go:1055-1068 | a run from a fresh start that requests one path twice, once for the template and once for an nmap seed |
| Theorems.NoNmapApart | internal/engine/coordinator.go:1055-1068 | without nmap seeds the condition is that the template paths are distinct |
| Pushing.OnceExactly | internal/engine/coordinator.go:1001-1069 | no path is pushed twice for a directory if and only if the template paths are distinct and, at the root, the nmap paths are apart from each other, the template and the pending seeds |
| Theorems.BudgetHolds | internal/engine/coordinator.go:723-731 | over a whole run no directory is sent more requests than its budget, none before it is open; its budget is exactly PerDirBudget plus what was pushed there less the template (what was pushed, without a configured budget or for a directory opened with nothing), so it exceeds the configured one if and only if more than the template was pushed |
| Examples.OverBudgetRun | internal/engine/coordinator.go:1047-1053 | a run from a fresh start in which a directory with a configured budget of one is sent two requests |
| Theorems.BudgetNeverBites | internal/engine/coordinator.go:1047-1053 | with no per-directory budget a queued candidate is never over budget, so the budget discard is dead code |
| Theorems.OnlyTrapsDiscard | internal/engine/coordinator.go:723-738 | with no per-directory budget, whatever the loop discards is capped, out of scope or excluded |
| Gates.RequestGates | internal/engine/coordinator.go:667-751 | whenever a request is sent in a run, its URL is in scope, no recorded exclusion matches it, its directory is being scanned, is not capped and has budget left, and no probe of any directory and no page waits |
| Gates.DiscardGates | internal/engine/coordinator.go:719-738 | whatever the loop discards failed one of these gates |
| Gates.ExcludedForGood | internal/engine/control.go:236-257 | after an exclusion no later request of the run matches its pattern, whenever its candidate was queued |
| Gates.ExcludedIs | internal/engine/control.go:211-257 | from a start without overrides a path is excluded exactly if an earlier exclusion of the run matches it |
| Gates.RunRecords | internal/engine/control.go:197-234 | the overrides of a run are exactly those its events record, in order; which directories are traps is exactly what its answers showed; and every directory and candidate is at its level |
| Gates.TrapsAre | internal/engine/coordinator.go:1252-1279 | in a fresh run a directory is capped exactly if one of its answers showed a tarpit, and a wildcard suspect exactly if one showed a wildcard |
| Gates.TarpitStops | internal/engine/coordinator.go:1271-1279 | after an answer that shows a tarpit no later request of the run is in its directory |
| Gates.WildcardStops | internal/engine/coordinator.go:1252-1266 | after an answer that shows a wildcard no later result from its directory opens another, while that answer leaves the directory capped or not as its own tarpit test says |
| Gates.ResultOpens | internal/engine/coordinator.go:1166-1250 | a result opens a directory if and only if it is a novel, sure, directory-like hit on a directory candidate above the depth limit, in scope, with time left, in a directory that is no tarpit, this answer included, and no wildcard suspect; it is the candidate's own, and as deep as the candidate |
| Gates.DepthBounded | internal/engine/coordinator.go:1208-1212 | in every state of a fresh run no directory but the root is deeper than max(MaxDepth, CrawlDepth) - 1, and every candidate queued or in flight is deeper than its directory and no deeper than the limit |
| Gates.RecursionDescends | internal/engine/coordinator.go:1166-1250 | a directory a result opens is deeper than the one the result is from, and above MaxDepth |
| Growth.RealTraps | internal/engine/coordinator.go:1095-1117 | handling a result caps its directory exactly with a tarpit and makes it a wildcard suspect exactly with a wildcard, and changes no other directory's traps and no depth |
| Gates.NothingOutOfScope | internal/engine/coordinator.go:667-750 | in no fresh run is a probe, a page fetch or a request sent to a URL out of scope |
| Coverage.FreeNeverDropped | internal/engine/coordinator.go:719-739 | with no per-directory budget, a path in scope and, throughout the run, not excluded and in an uncapped directory is never dropped, neither by the loop nor by an exclusion sweep |
| Coverage.FreePathsSent | internal/engine/coordinator.go:1021-1045 | such a template path is requested, in every directory a finished run opened |
| Coverage.FreeKnownSent | internal/engine/coordinator.go:666-767 | and so is every such path that was ever queued: left-over seeds, siblings, backups, late seeds, nmap paths |
| Coverage.FreeSeedsSent | internal/engine/seed.go:115-147 | and so is every such segment of every admitted seed or literal pin, if the root does not start over after it |
| Coverage.UntouchedPathsSent | internal/engine/coordinator.go:1021-1045 | without a configured budget a finished run has requested every template path in scope, in every directory it opened, unless an exclusion of the run matches it or an answer from the directory showed a tarpit |
| Theorems.EveryPathTried | internal/engine/coordinator.go:1021-1045 | whatever the gates do: when a run finishes, every template path of every directory it opened was requested there or discarded there |
| Theorems.EverySeedTried | internal/engine/seed.go:115-147 | when a run finishes, every segment of every admitted seed, injected or a literal pin, was requested or discarded under its parent, unless the root calibration started over in between |
| Scores.ScoresCoherent | internal/engine/corpus_select.go:176-217 | in any fresh run with a faithful profile signature, each queued candidate of a clean frontier has the score scoreCandidate would compute now, and of a dirty one misses fewer than reprioHits hits; the one exception is an nmap seed queued with its fixed score, until the first sweep after that |
| Scores.FewSweeps | internal/engine/dynamic.go:85-105 | sweeps never exceed 1 + hits/reprioHits + elapsed/reprioInterval |
| Overriding.OneMore | internal/engine/control.go:262-276 | one more override multiplies the multiplier by its factor as a boost, divides it as a demotion, wherever its pattern matches, and changes nothing elsewhere or as an exclusion |
| Overriding.AllCompose | internal/engine/control.go:259-276 | the multiplier is the product of all matching boosts over that of all matching demotions, in whatever order they came |
| Overriding.OverrideMoves | internal/engine/control.go:228-234 | after a boost or demotion everything queued is still queued; every match with a current score scores the factor times, or the factor-th part of, what it did, and everything else with a current score is as it was |
| Overriding.PinMoves | internal/engine/control.go:197-203 | after a pin every queued match with a current score scores a thousand times what it did and everything else with a current score is as it was, but, for a literal pin, the candidates at its own segments |
| Overriding.PinSeeds | internal/engine/control.go:204-209 | a pin without wildcards applies one seed, if it is admitted; one with wildcards none |
| Overriding.SeedSpares | internal/engine/seed.go:115-147 | a seed leaves everything queued that is not at one of its own segments |
| Overriding.SpaDamps | internal/engine/corpus_select.go:182-188 | in SPA mode everything scores a tenth, except what active harvesting found |
| Overriding.PivotMoves | internal/engine/harvest.go:246-260 | when the root turns out to be an SPA everything queued stays queued, what harvesting found as it was and the rest at a tenth; nothing else pivots |
| Refinement.RootDecided | internal/engine/coordinator.go:926-982 | over a whole run: profile and extensions are those of the start until the root's first calibration ends, then the refined ones, the extensions if one was new; and the scan is in SPA mode exactly when the root has been opened and its last calibration showed an SPA |
| Refinement.ChildDecides | internal/engine/coordinator.go:926-982 | the calibration of any other directory records whether it is an SPA shell, opens it, and decides nothing about the root |
| Scores.SweptIs | internal/engine/coordinator.go:1055-1068 | the record of nmap seeds still with their fixed score is exact: over a run it says that the root was opened with some and that no step since has rescored the frontier |
| Scores.CoherentExactly | internal/engine/coordinator.go:1055-1068 | a clean frontier is coherent if and only if some step since the root was opened rescored it, or every nmap seed still queued as it was scores exactly its fixed score |
| Examples.StaleSeed | internal/engine/coordinator.go:1055-1068 | a fresh, clean scan whose queued nmap seed has a score that is not the one scoreCandidate would compute |
| Theorems.TurnsAreFair | internal/engine/coordinator.go:740-743 | in no run do more than a burst of requests in a row go to one directory while another has anything queued |
| Theorems.TurnsAre | internal/engine/dynamic.go:131-138 | the stored directory and streak are those of the last requests of the run |
| Theorems.HeldBackIs | internal/engine/coordinator.go:740-743 | the yield cap holds a candidate back exactly when the last burst of requests all went to its directory |
| Tallies.OpenTallies | internal/engine/coordinator.go:1046-1053 | opening a directory keeps its total the pushes made there and its dispatched count the requests sent there |
| Theorems.RunSound | internal/engine/coordinator.go:553-611 | every state of a run that starts sound is sound, and neither bound gets tighter |
| Theorems.RunHistory | internal/engine/coordinator.go:1133-1171 | along a run the books record exactly the requests, the discards and the admitted seeds of its events, lose nothing, and keep novelty and throttle in order |
| Theorems.StepSeedCount | internal/engine/seed.go:115-147 | an event counts one seed exactly if it applies an admitted one, injected or a literal pin |
| Theorems.StepLedger | internal/engine/coordinator.go:553-611 | each event sends exactly what it requests and drops exactly what it discards |
| Invariants.StartKeeps | internal/engine/coordinator.go:825-861 | a new directory keeps the books balanced; with nothing in scope to probe it is at the end of its calibration at once |
| Invariants.RestartKeeps | internal/engine/coordinator.go:964-970 | calibrating a directory over again keeps the books balanced |
| Invariants.OpenKeeps | internal/engine/coordinator.go:1001-1069 | pushing a whole candidate set keeps total = accounted + queued + in flight, and an empty set leaves the directory done |
| Invariants.ProbeBackKeeps | internal/engine/coordinator.go:905-924 | a probe result leaves probesDone + queued + in flight = probesTotal, or the directory exactly at the end of calibration |
| Invariants.QueuedIsScanning | internal/engine/coordinator.go:719-722 | a queued or in-flight candidate belongs to a scanning directory: the silent drop is unreachable |
| Invariants.DiscardKeeps | internal/engine/coordinator.go:723-739 | a discard keeps every directory balanced, and finishes one exactly when all of it is accounted for |
| Invariants.SendKeeps | internal/engine/coordinator.go:745-750 | a dispatch keeps every directory balanced and within its budget |
| Invariants.SettleKeeps | internal/engine/coordinator.go:1123-1127 | accounting a result keeps every directory balanced |
| Invariants.AddKeeps | internal/engine/dynamic.go:59-78 | a generated candidate, or a seed reopening a done directory, keeps the books balanced |
| Invariants.HoldKeeps | internal/engine/seed.go:250-263 | a seed held for a calibrating directory keeps the books balanced |
| Invariants.SwapKeeps | internal/engine/seed.go:278-291 | merging a seed into a queued candidate moves no count |
| Invariants.RescoreKeeps | internal/engine/corpus_select.go:196-217 | rescoring every queued candidate moves no count |
| Invariants.DiscardedRest | internal/engine/control.go:211-222 | a sweep of discards takes exactly those candidates off the queue and moves no gate of any directory |
| Invariants.WithoutFirstCounts | internal/engine/coordinator.go:883-890 | leaving the calibrating order removes one occurrence of that directory and no other |
| Ledgers.OpenLedger | internal/engine/coordinator.go:1001-1069 | after opening a directory, every push is still queued, sent or dropped, a path is known exactly if pushed, and nothing was pushed twice |
| Ledgers.OpenRoom | internal/engine/coordinator.go:1001-1069 | opening a directory costs no room in the push bound: its template and pending seeds were already paid for |
| Ledgers.AddLedger | internal/engine/dynamic.go:59-78 | a generated push keeps conservation, known = pushed, once each, and budget = total |
| Ledgers.DiscardLedger | internal/engine/coordinator.go:723-739 | a discard keeps conservation of pushes and budget = total |
| Ledgers.SendLedger | internal/engine/coordinator.go:745-750 | a dispatch keeps conservation of pushes |
| Ledgers.HoldRoom | internal/engine/seed.go:250-263 | a held seed costs at most one push of the bound |
| Ledgers.RestartRoom | internal/engine/coordinator.go:964-970 | starting the calibration over never tightens a bound |
| Soundness.FinishSound | internal/engine/coordinator.go:926-982 | ending a calibration, refinement, second calibration and SPA pivot included, leaves the scan sound and no bound tighter |
| Soundness.RecalibrateSound | internal/engine/coordinator.go:964-970 | the second root calibration leaves the scan sound |
| Soundness.CollectSound | internal/engine/coordinator.go:905-924 | collecting a probe leaves the scan sound |
| Soundness.ReprioritizeEnding | internal/engine/corpus_select.go:207-217 | a changed profile is swept into every cached score, or cannot change any |
| Soundness.PivotEnding | internal/engine/harvest.go:246-260 | the SPA pivot leaves every cached score current and the books as they were |
| Soundness.PushSound | internal/engine/coordinator.go:1001-1069 | pushed candidates are counted, budgeted for, distinct when the template is, and scored as of now |
| Stepping.RealSound | internal/engine/coordinator.go:1071-1128 | handling any result leaves the scan sound and no bound tighter |
| Stepping.HitSound | internal/engine/coordinator.go:1133-1171 | a hit is paid for: a novel one by the eleven pushes and the one directory its content brings, a repeated one costs nothing |
| Stepping.LearnSound | internal/engine/dynamic.go:29-51 | learning from a hit pushes at most eleven candidates and keeps every cached score within its lag |
| Stepping.MarkDirtySound | internal/engine/dynamic.go:85-91 | marking dirty accounts for the new lesson: swept in at once, or one more unreflected hit |
| Stepping.LessonLags | internal/engine/dynamic.go:29-51 | one lesson puts every cached score exactly one lesson further behind |
| Stepping.StageSound | internal/engine/seed.go:231-291 | staging a seed in a calibrating, scanning, done or missing directory leaves the scan sound within one push |
| Stepping.ChainSound | internal/engine/seed.go:188-199 | materializing ancestors leaves the scan sound, each paid for by one directory and one push |
| Stepping.SeedSound | internal/engine/seed.go:115-147 | applying a seed leaves the scan sound within its share of both bounds |
| Stepping.SweepOutSound | internal/engine/control.go:211-222 | an exclusion sweep leaves the scan sound, with every swept candidate accounted for |
| Stepping.ExcludeSound | internal/engine/control.go:211-222 | an exclusion by itself changes no score |
| Stepping.OverrideSound | internal/engine/control.go:197-234 | a boost, demotion or pin leaves every cached score current |
| Runs.StepSound | internal/engine/coordinator.go:553-611 | whatever event the loop handles, the scan stays sound |
| Runs.FreshSound | internal/engine/coordinator.go:812-814 | a freshly seeded root is sound, with no room yet spent |
| History.HitNovel | internal/engine/coordinator.go:1133-1171 | seen content stays the finding URL followed by its aliases, one finding per hash; content seen before adds no finding, new content exactly one |
| History.RealNovel | internal/engine/coordinator.go:1071-1128 | handling any result keeps the novelty record |
| History.SeenIsFound | internal/engine/coordinator.go:1138-1146 | content that has been seen always has its finding |
| History.RepeatRecorded | internal/engine/coordinator.go:1138-1146 | the alias lands on the one finding with that content |
| History.MarkThrottled | internal/engine/dynamic.go:85-105 | fewer than reprioHits hits ever wait, none when clean, and each sweep after the first is paid for by hits or by time |
| History.SweepBound | internal/engine/dynamic.go:85-105 | the paid-for sweeps are bounded by hits/reprioHits + elapsed/reprioInterval + 1 |
| Results.ResultTeaches | internal/engine/dynamic.go:12-78 | the learners take in exactly one lesson, exactly when the result is a novel hit with enough confidence in a directory that is neither a wildcard suspect nor an SPA shell; the generated paths then become known, each new one counted and budgeted for once, and the frontier is swept unless few hits and little time have gone by |
| Results.LessonsAreSure | internal/engine/dynamic.go:9-26 | every lesson of a fresh run comes from a hit with enough confidence in a directory no answer before had shown to be a wildcard |
| Results.ResultFinds | internal/engine/coordinator.go:1133-1164 | a hit with new content adds one finding with its URL, confidence and provenance; one with known content adds one alias to one finding; nothing else touches the findings |
| Results.ResultMines | internal/engine/harvest.go:74-94 | an answer starts a producer and marks its page visited exactly when its page was not visited before and its body is worth mining under the crawl and script harvesting settings |
| Results.MinedOnce | internal/engine/harvest.go:30-47 | no URL has its answers mined twice in a run |
| Results.VisitedIs | internal/engine/harvest.go:199-210 | in a fresh run a page is marked visited exactly if it is queued to fetch, was fetched, or an answer from it was mined |
| Results.PagesTried | internal/engine/harvest.go:199-210 | when a run finishes every page in scope that was asked for was fetched, or an answer from it mined |
| Progress.FetchedOnce | internal/engine/harvest.go:199-210 | no page is fetched twice in a run |
| Seeds.SeedNoted | internal/engine/seed.go:115-147 | after an admitted seed its leaf is pending or known in its directory, and so is each ancestor under its own parent |
| Landing.SeedApplied | internal/engine/seed.go:115-130 | a seed is applied exactly if its path is not empty, no deeper than its provenance allows, and in scope; any other changes nothing |
| Landing.SegmentLands | internal/engine/seed.go:115-147 | a segment of an admitted seed whose directory is past calibration and does not know it is queued there with the seed's own prior and provenance and a current score, an ancestor as a directory, the leaf as the seed says |
| Seeds.SetForPaths | internal/engine/coordinator.go:1016-1045 | a path is pushed for a directory exactly if the template, a pending seed or an nmap seed names it |
| Seeds.SeedsCarried | internal/engine/seed.go:397-407 | every seed pending when a directory opens is queued there: merged into the first template entry at its path, with exactly the larger prior and the sources of both, or by itself, rescored |
| Seeds.StageMerges | internal/engine/seed.go:278-291 | a late seed at a queued path replaces one candidate by one with exactly the larger prior, the sources of both and a current score, and leaves the rest of the frontier alone |
| Seeds.FinishNotes | internal/engine/coordinator.go:926-982 | ending a calibration forgets no pending seed and no template path, unless the root starts over |
| Seeds.RelapseForgets | internal/engine/coordinator.go:964-970 | when the root starts over, a pending seed is kept if and only if nothing was in scope to probe again and template or nmap name it |
| Seeds.RootSeedsSurvive | internal/engine/coordinator.go:964-970 | all pending seeds survive the root calibration if and only if the extension set did not grow, or what is pushed again names them all |
| Examples.SeedLost | internal/engine/coordinator.go:964-970 | a whole run that finishes without ever requesting a seed it admitted: it was pending when the root started over |
| Seeds.RealNotes | internal/engine/coordinator.go:1071-1128 | handling a result forgets no noted path |
| Pushing.FoldedFacts | internal/engine/seed.go:397-407 | folding keeps the template order and paths with current scores; what is left over is exactly the seeds at no template path |
| Pushing.FoldedMerges | internal/engine/seed.go:397-407 | the i-th candidate pushed is the i-th entry, rescored; the first entry at the path of a pending seed is merged with it, and no other entry |
| Pushing.MergedIs | internal/engine/seed.go:397-407 | a merge has exactly the larger prior and exactly the sources either names |
| Pushing.EntryQueued | internal/engine/coordinator.go:1021-1045 | every template entry is queued when a directory opens, one level below it, with its own path, kind and tags, the larger of its prior and that of the seed pending at its path, the sources of both, and a current score |
| Pushing.SetFacts | internal/engine/coordinator.go:1047-1053 | the pushed set lies under its directory, has the size the totals count, and without a configured budget the budget is that size |
| Session.RestoreKeeps | internal/engine/session.go:223-303 | restore keeps the frontier, findings, novelty map, learners and visited set, and each non-calibrating directory but for its probe counters |
| Session.Shortfall | internal/engine/session.go:125-189 | each restored directory is short by exactly its candidates in flight at the save |
| Session.ResumeSound | internal/engine/session.go:223-303 | a resumed scan is balanced again once the lost requests are counted |
| Session.ResumedFinish | internal/engine/session.go:125-189 | a quiet resumed scan is finished if and only if no candidate was in flight at the save and none was lost before |
| Examples.ResumeHangs | internal/engine/session.go:125-189 | a run of one request, saved with it in flight: the resumed scan is not finished, and no step of the loop can happen |
| Session.BoundedAcross | internal/engine/session.go:223-303 | requests before the save and after the resume together obey the same bound, with the seeds of both sides |
| Session.OnceAcross | internal/engine/session.go:223-303 | if paths are kept apart, no pair is requested twice, whichever side of the save |
| Session.AcrossHistory | internal/engine/session.go:223-303 | at the end of a resumed run the books record the requests, discards and seeds of both sides of the save, and the novelty record holds |
| Losses.EveryPathAcross | internal/engine/session.go:223-303 | when a resumed scan comes to rest, every template path of every directory was requested or discarded, on one side of the save or the other; what was in flight counts as requested |
| Losses.ExclusionsForgotten | internal/engine/session.go:125-189 | an exclusion does not survive a resume: in a resumed run a path is excluded exactly if an exclusion made since matches it |
| Examples.ExclusionForgotten | internal/engine/session.go:125-189 | a path is excluded, the scan saved and resumed, and the path may then be requested |
| Losses.ResumeLeveled | internal/engine/session.go:223-303 | a resumed scan starts with every directory and candidate at its level, so the results about exclusions and traps hold of its runs |
| Losses.PendingForgotten | internal/engine/session.go:233-239 | a seed pending in a calibrating directory at the save, the root included, is known to the resumed scan if and only if the directory has nothing in scope to probe, nor the root when its extensions grew, and the template or nmap names the path |
| Losses.RestartedAt | internal/engine/session.go:300-302 | what a directory knows after the resume is decided by its own recalibration alone, with the extensions the root left if it came before |
| Session.OverridesForgotten | internal/engine/session.go:125-189 | overrides are not saved: cached scores are coherent after a resume if and only if no queued candidate of nonzero score was moved by one |
| Session.SnapDirs | internal/engine/session.go:126-147 | the loop over the directories snapshots each of them |
| Session.RestoreDirs | internal/engine/session.go:229-255 | the loop restores each directory past calibration and lists the others once each |
| Session.RestoreFrontier | internal/engine/session.go:224-227 | the restored frontier is a heap with exactly the saved candidates |
| FrontierHeap.Frontier.Push | internal/engine/frontier.go:22-24 | adds exactly the candidate and keeps the heap |
| FrontierHeap.Frontier.Pop | internal/engine/frontier.go:28-30 | takes out a maximum and keeps the heap |
| FrontierHeap.Frontier.RemoveAt | internal/engine/frontier.go:54-73 | takes out exactly the element at a position and keeps the heap |
| FrontierHeap.Frontier.Reprioritize | internal/engine/frontier.go:42-47 | maps every queued candidate and re-establishes the heap |
| FrontierHeap.Frontier.SampleMidTier | internal/engine/frontier.go:54-73 | takes out one with at least n/3 others no lower and n - 2n/3 others no higher |
| FrontierHeap.Frontier.PopBand | internal/engine/frontier.go:87-107 | takes out one within the band of a positive maximum, a maximum otherwise |
| FrontierHeap.Frontier.UpdateMatching | internal/engine/frontier.go:116-125 | replaces exactly one matching candidate, if there is one, and keeps the heap |
| FrontierHeap.Frontier.RemoveMatching | internal/engine/frontier.go:138-151 | splits the frontier into what matches and what does not, and keeps the heap |
| FrontierHeap.Frontier.TopK | internal/engine/frontier.go:156-163 | returns the k largest, best first, without touching the heap |
| FrontierHeap.Frontier.Fix | internal/engine/frontier.go:116-125 | one changed element is sifted back into order, nothing gained or lost |
| FrontierHeap.Frontier.Init | internal/engine/frontier.go:42-47 | any slice becomes a heap with the same elements |
| FrontierHeap.RemovedRestores | internal/engine/frontier.go:172-178 | removing position i by swap, cut and sift leaves a heap without exactly that element |
| Heap.RootIsMax | internal/engine/frontier.go:28-30 | the root of a heap is a maximum |
| Heap.FixRestores | internal/engine/frontier.go:116-125 | down-then-up sifting restores a heap that is wrong around one position only |
| Heap.HeapifyOrders | internal/engine/frontier.go:42-47 | sifting down from the middle to the front orders the whole slice |
| Sorting.RankOf | internal/engine/frontier.go:54-73 | the element at rank p of a sorted frontier has p others no lower and the rest no higher |
| Engine.Coordinator.NextCandidate | internal/engine/coordinator.go:713-766 | the pop, hold and push-back loop: what is discarded could not go, what is sent may go or waits with everything queued, the rest is queued again |
| Engine.Coordinator.Sift | internal/engine/coordinator.go:713-751 | the loop stops at a candidate that may go, with everything popped before it either discarded or held in score order |
| Engine.Coordinator.NextDispatchable | internal/engine/coordinator.go:666-767 | a probe first, then a fetch, then the frontier: the object changes by exactly that, and greedily the candidate is a best one not waiting; what gates a request `Gates.RequestGates` states |
| Engine.Coordinator.Handle | internal/engine/coordinator.go:564-578 | whatever message arrives, the object takes exactly the step of the transition system that stands for it |
| Engine.Coordinator.HandleResult | internal/engine/coordinator.go:892-903 | a probe, harvest or candidate result is the matching step |
| Engine.Coordinator.ApplyControl | internal/engine/control.go:105-145 | a boost, a demotion, a pin or an exclusion is the matching step |
| Engine.Coordinator.HandleReal | internal/engine/coordinator.go:1071-1128 | the object ends in the state of the model operation, whose effect `Gates.ResultOpens`, `Growth.RealTraps`, `Results.ResultTeaches`, `Results.ResultFinds` and `Results.ResultMines` state |
| Engine.Coordinator.HandleHit | internal/engine/coordinator.go:1133-1171 | seen content only gains an alias; new content is recorded, learned from and perhaps recursed into |
| Engine.Coordinator.WithinLimits | internal/engine/coordinator.go:1208-1236 | the limits on the object are those of the model, whose effect `Gates.ResultOpens` and `Gates.DepthBounded` state |
| Engine.Coordinator.FinishCalibration | internal/engine/coordinator.go:926-982 | refines the root once, calibrates it again if the extensions grew, pivots on an SPA, and opens the directory |
| Engine.Coordinator.StartCalibration | internal/engine/coordinator.go:825-861 | a new record last in the calibrating order with the probes in scope; with none the calibration ends at once |
| Engine.Coordinator.Recalibrate | internal/engine/coordinator.go:964-970 | the root record is replaced, its pending seeds with it |
| Engine.Coordinator.CollectProbe | internal/engine/coordinator.go:905-924 | the last probe result ends the calibration |
| Engine.Coordinator.Pivot | internal/engine/harvest.go:246-260 | an SPA root rescores everything queued and fetches the root page |
| Engine.Coordinator.ReprioritizeIfChanged | internal/engine/corpus_select.go:207-217 | sweeps exactly if the profile signature is new |
| Engine.Coordinator.EnqueueSeed | internal/engine/seed.go:115-147 | an admitted seed gets its ancestors and its leaf; any other changes nothing |
| Engine.Coordinator.EnsureDirChain | internal/engine/seed.go:188-199 | opens each ancestor and names it under its own parent, outermost first |
| Engine.Coordinator.StageDirCandidate | internal/engine/seed.go:231-264 | held, merged, added or dropped by the state of the directory, and merged whenever anything queued has its path |
| Engine.Coordinator.ApplyPin | internal/engine/control.go:197-209 | the boost for every pattern, the seed for a literal one |
| Engine.Coordinator.ApplyExclude | internal/engine/control.go:211-222 | takes out exactly the queued matches and accounts for each |
| Engine.Coordinator.ApplyOverride | internal/engine/control.go:228-234 | records the override and rescores the whole frontier |
| Engine.Coordinator.LearnFromHit | internal/engine/dynamic.go:29-51 | past the poisoning gate the lesson is learned, its candidates queued, and the frontier marked or swept; short of it nothing changes |
| Engine.Coordinator.MarkScorerDirty | internal/engine/dynamic.go:85-91 | sweeps exactly when enough hits or enough time have gone by |
| Engine.Coordinator.RunDynamicReprio | internal/engine/dynamic.go:96-105 | sweeps and resets the throttle exactly if something is waiting |
| Engine.Coordinator.OpenDirectory | internal/engine/coordinator.go:1001-1069 | queues exactly the candidate set of the template, the pending seeds and nmap, and sets totals, known paths and budget to match |
| Engine.Coordinator.EnqueueHarvestFetch | internal/engine/harvest.go:199-210 | queues a URL that is in scope and not yet visited, and marks it visited |
| Ticks.Turn | internal/engine/coordinator.go:563-604 | one turn of the loop on a tick, a message, a seed batch or injected terms: what the object has done in its life so far is a run of the transition system, and stays one, so every result about runs holds of the object |
| Ticks.DispatchTick | internal/engine/coordinator.go:588-604 | a tick is a run: its discards one by one, then what it sends; if it sends nothing, nothing is left to send |
| Ticks.ApplySeedBatch | internal/engine/seed.go:312-351 | a batch of any size is capped, applied as a run of seeds from it, and makes the tree grow by at most 500 directories |
| Ticks.ApplySeeds | internal/engine/seed.go:316-319 | seeds are applied one after the other, in order, each a step of a run |
| Ticks.Begin | internal/engine/coordinator.go:812-814 | a new coordinator with its root seeded is at a fresh start |
| Ticks.TickIsRun | internal/engine/coordinator.go:713-766 | the search, whatever it discarded, ends as a run of discards and one request |
| Resuming.SaveAndResume | internal/engine/session.go:125-303 | an object rebuilt from what was saved of another holds exactly the resumed scan |
| Resuming.Save | internal/engine/session.go:125-189 | the snapshot read off the object is the snapshot of its scan |
| Resuming.CalibrateAgain | internal/engine/session.go:300-302 | the directories saved while calibrating start over, one after the other |
| Engine.Coordinator.PopNext | internal/engine/dynamic.go:112-125 | takes one candidate out; without exploration or jitter a maximum |
| Engine.Coordinator.RecordDispatch | internal/engine/dynamic.go:131-138 | the streak counts dispatches in a row from one directory |
| Engine.Coordinator.NextProbe | internal/engine/coordinator.go:667-674 | the first probe of the first calibrating directory that has one |
| Engine.Coordinator.Discard | internal/engine/coordinator.go:723-739 | a discard in place is the books discard, the pruned flag included |
| Engine.Coordinator.Settle | internal/engine/coordinator.go:1123-1127 | accounting a result in place |
| Engine.Coordinator.IsExcluded | internal/engine/control.go:250-257 | true exactly if some exclusion matches |
| Engine.Coordinator.OverrideMultiplier | internal/engine/control.go:262-276 | the loop gives the multiplier, which by `Overriding.AllCompose` is the matching boosts over the matching demotions |
| Engine.Coordinator.EnqueueGenerated | internal/engine/dynamic.go:59-78 | queues, counts and budgets a new path once; refuses a known path, a done or a missing directory |
| Engine.Coordinator.MergeQueued | internal/engine/seed.go:278-291 | merges into a queued candidate at that path, if there is one |
| Engine.Coordinator.Hold | internal/engine/seed.go:254-263 | a second seed at a pending path merges into the first |
| Engine.MergeSeed | internal/engine/seed.go:397-407 | the larger prior and both provenances |
| Engine.Coordinator.DrawProbes | internal/engine/coordinator.go:831-852 | draws the probes extension by extension from one token stream, keeping those in scope |
| Engine.Coordinator.RemoveCalibratingDir | internal/engine/coordinator.go:883-890 | removes the first occurrence from the calibrating order |
| Engine.Coordinator.PushTemplate | internal/engine/corpus_select.go:108-132 | pushes each template entry, merged with the seed pending at its path, and leaves the other seeds |
| Engine.Coordinator.PushLeftovers | internal/engine/corpus_select.go:133-141 | pushes each seed no template entry took |
| Engine.Coordinator.AllDirsDone | internal/engine/coordinator.go:632-639 | true exactly if every directory is done |
| Blast.CapBatch | internal/engine/seed.go:330-351 | the longest prefix of the stably sorted batch whose ancestor chains name at most 500 absent directories |
| Blast.SortSeeds | internal/engine/seed.go:334-335 | falling priority, equals in order, nothing gained or lost |
| Blast.BlastRadius | internal/engine/seed.go:312-351 | applying a capped batch grows the tree by at most 500 directories |
| Blast.SeedDirs | internal/engine/seed.go:115-199 | a seed adds exactly the directories it passes through, if it is admitted |
| Paths.SeedAncestorDirs | internal/engine/seed.go:155-164 | the ancestor directories, outermost first |
| Paths.AncestorsDiffer | internal/engine/seed.go:155-164 | a chain never repeats a directory |
| Paths.NameOfAncestor | internal/engine/seed.go:188-199 | an ancestor named under its own parent is its last segment |
| Channels.RunInv | internal/engine/coordinator.go:553-630 | inFlight counts exactly the items in workCh, at workers, in resultsCh and held by dispatch; every promised send is applied or still to come; the command of every caller awaiting its snapshot is queued |
| Channels.NoDeadlock | internal/engine/coordinator.go:619-630 | while anything is in flight the coordinator or a worker can move, even with both channels full and dispatch blocked |
| Channels.DispatchCompletes | internal/engine/coordinator.go:619-630 | until a hand-off the moves of everyone else are bounded by a falling distance |
| Channels.MovesGetCloser | internal/engine/worker.go:30-47 | every move of a worker or the coordinator brings what is in flight closer to handled |
| Channels.FinishIsClean | internal/engine/coordinator.go:606-609 | at the finish channels are empty, workers idle, producers ended and every sent batch applied |
| Channels.BufferingWouldLose | internal/engine/coordinator.go:447-456 | with even one buffered slot some run would finish with a batch unapplied |
| Channels.ProducerIsReceived | internal/engine/seed.go:371-376 | a blocked producer keeps the scan running and is received as soon as dispatch is not blocked |
| Channels.EveryCallerReturns | internal/engine/control.go:86-100 | over any steps after Run has returned callers give up at most as often as some were waiting, and as long as one has not come back one can give up |
| Channels.CallerIsAnswered | internal/engine/session.go:107-120 | over any run, a caller awaiting its snapshot is back once the at most 32 commands up to its own have been applied, and until then, while the scan runs and dispatch holds no item, the next can be |
| Channels.OnlyGivingUp | internal/engine/session.go:107-120 | after Run has returned a caller awaiting a snapshot has no other way back than the done channel |
| HubClient.NothingUnaccounted | internal/daemon/hub.go:200-260 | over any interleaving: hits accepted = taken out singly + in counts taken out + in the count waiting + buffered (at most 256), in order; what was taken of the important lane and what is buffered is what came; the newest of each latest kind is buffered or was taken |
| HubClient.WakeLost | internal/daemon/hub.go:233-284 | a step loses a wake-up if and only if it pops an unencodable message with more behind it and no token |
| HubClient.NeverAsleep | internal/daemon/hub.go:266-284 | over any interleaving in which the hub is offered what the engine emits, every message taken out can be encoded, so it goes to the transport, and no wake-up is ever lost |
| HubClient.EmittedEncodes | internal/engine/events.go:134-143 | whatever the engine emits can be encoded: bounded confidences, and payloads that are left out when they cannot be |
| HubClient.FusedBounded | internal/profile/types.go:101-104 | after any votes from 0 to 1 the confidence of a technology is between 0 and 0.99 |
| HubClient.AsleepTillNextOffer | internal/daemon/hub.go:266-284 | with an event that cannot be encoded, were there one, a message behind it would wait unsent until the next event is offered |
| HubClient.Client.Enqueue | internal/daemon/hub.go:200-227 | replaces the latest, folds the oldest hit into the count at 256, or appends; reports exactly whether a hit was folded |
| HubClient.Client.Next | internal/daemon/hub.go:233-260 | takes the most urgent message out, and reports nothing when it cannot be encoded |
| HubClient.Client.Shutdown | internal/daemon/hub.go:289-299 | the client is closed: Enqueue then takes nothing |
| HubClient.MostUrgent | internal/daemon/hub.go:229-260 | what is taken is always the most urgent: a hit only with nothing important, no telemetry and no count waiting, telemetry only with nothing important; of a lane kept in order the oldest |
| HubClient.OfferHit | internal/daemon/hub.go:208-216 | an offered hit keeps every hit accounted for and the order |
| HubClient.SubsequenceDrops | internal/daemon/hub.go:211-213 | folding the oldest buffered hit leaves a subsequence of what was accepted |
| RateLimiter.RateWithinCap | internal/httpclient/ratelimit.go:88-211 | under a positive ceiling the rate is always positive and never above it |
| RateLimiter.DecreasesApart | internal/engine/coordinator.go:1359-1369 | two effective decreases are always at least a recovery window apart |
| RateLimiter.RecoveryIsLinear | internal/httpclient/ratelimit.go:192-211 | after n clean windows the rate is min(cap, rate0 + n step) and the backoff is over exactly when that reaches the cap |
| RateLimiter.ReportedOnce | internal/httpclient/ratelimit.go:192-211 | recovery is reported on exactly the tick whose sum first reaches the cap |
| RateLimiter.PacedSteps | internal/httpclient/ratelimit.go:169-211 | onsets and ticks keep an active backoff paced; a new ceiling does if and only if it is positive or no backoff is active |
| RateLimiter.PacedRuns | internal/httpclient/ratelimit.go:169-211 | from a trigger until recovery an unbounded target is paced, if the ceiling is not reset |
| RateLimiter.ResumedRate | internal/httpclient/ratelimit.go:216-224 | whatever a limiter did before the save, its rate comes back within a positive new ceiling, if and only if the old ceiling was positive and no higher |
| RateLimiter.ResumedTooFast | internal/httpclient/ratelimit.go:216-224 | a limiter saved under a ceiling of ten and resumed under one of two: its rate is ten after any ticks |
| RateLimiter.Limiter.SetRateCap | internal/httpclient/ratelimit.go:88-91 | a new ceiling, which is also the rate at once |
| RateLimiter.Limiter.SetAimdState | internal/httpclient/ratelimit.go:220-224 | the saved rate and backoff under the ceiling the limiter has |
| RateLimiter.OnsetDecreases | internal/engine/coordinator.go:1359-1369 | an onset multiplies the rate, or the fallback rate of an unpaced target, by the decrease and starts the clock, exactly if nothing is backed off or a recovery window has passed since; otherwise it changes nothing |
| RateLimiter.OnsetsCompound | internal/httpclient/ratelimit.go:163-177 | with n onsets that count, and nothing else between, the rate is what it was times the n-th power of the decrease |
| RateLimiter.OnsetsSlow | internal/httpclient/ratelimit.go:163-177 | so with a decrease below one any onset that counts leaves the rate below what it was |
| RateLimiter.UnboundedRecovers | internal/httpclient/ratelimit.go:192-204 | an unbounded target is lifted all at once by the first tick a window after the trigger, and by none before |
| RateLimiter.Limiter.TriggerBackoff | internal/httpclient/ratelimit.go:169-177 | the onset in place, as the results above have it |
| RateLimiter.Limiter.MaybeRecover | internal/httpclient/ratelimit.go:192-211 | one step per clean window, lifting an unbounded target at once |
| Generation.SiblingsAreExact | internal/engine/assoc.go:229-254 | the five siblings re-split to the same prefix and the next five values in the old width or more if and only if the last sum does not overflow |
| Generation.SiblingReadsBack | internal/engine/assoc.go:229-254 | printing then parsing a sibling gives the same prefix and n + i |
| Generation.OverflowDoesNot | internal/engine/assoc.go:239-246 | a sum past the largest int does not read back |
| Generation.SiblingsDiffer | internal/engine/assoc.go:229-254 | siblings differ from each other and from the hit |
| Generation.SiblingsFor | internal/engine/assoc.go:229-254 | the loop yields the five siblings, zero-padded |
| Generation.BackupsFor | internal/engine/assoc.go:213-223 | the loop yields the six backups |
| Decimal.PrintThenRead | internal/engine/assoc.go:239-246 | a printed number reads back |
| Decimal.SplitIsUnique | internal/engine/assoc.go:39-42 | the trailing digits and the prefix of a path are determined by its text |
| Markov.Model.Train | internal/engine/markov.go:52-67 | every n-gram count grows by its occurrences in the padded text, totals stay the sums of counts, and all totals together grow by length + 1 |
| Markov.ProbabilitiesSumToOne | internal/engine/markov.go:121-131 | for every context the smoothed probabilities of the 256 bytes sum to exactly 1, each strictly between 0 and 1 |
| Markov.PartialProbability | internal/engine/markov.go:121-131 | partial sums of probabilities are partial sums of counts over the smoothed total |
| Markov.SaveAndLoad | internal/engine/markov.go:81-109 | save and load reproduce every probability |
| Markov.TallyKeeps | internal/engine/markov.go:57-64 | counting one n-gram keeps every total the sum of its counts |
| Merging.Normalize | internal/seed/normalize.go:57-91 | each wanted path once, with the largest prior and exactly the sources that named it |
| Merging.OrderDoesNotMatter | internal/seed/normalize.go:57-91 | any reordering of the raw seeds normalizes to the same paths, priors and sources |
| Provenance.UnionSources | internal/seed/normalize.go:98-115 | a merged provenance names exactly the sources either names |
| Provenance.UnionNamesOnce | internal/seed/normalize.go:98-115 | and names each of them once |
| Provenance.UnionProvenance | internal/seed/normalize.go:98-115 | the loop joins first occurrences in order |
| Text.SplitJoin | internal/seed/normalize.go:104-114 | splitting undoes joining when no part holds the separator |
| Corpus.Dedup | internal/corpus/expand.go:176-221 | each path once, with the top score, every tag and provenance, and a directory exactly if any occurrence was one |
| Corpus.DedupIsOrderFree | internal/corpus/expand.go:176-221 | the order of the terms does not matter to path, score, tags, provenance and directory status |
| Corpus.Expand | internal/corpus/expand.go:50-93 | every term expanded by its shape, then merged by path |
| Corpus.DirectoryStays | internal/corpus/expand.go:50-93 | a directory-shaped word stays a directory after expansion and merging, however its file forms score |
| Corpus.StemsRank | internal/corpus/expand.go:99-117 | an earlier extension of a stem always has the larger prior |
| Corpus.ExpandStem | internal/corpus/expand.go:99-117 | the loop yields each extension with its decayed prior and its backups |
| Corpus.BackupsFor | internal/corpus/expand.go:121-138 | six boosted backups of a sensitive file, none otherwise |
| Learners.DynamicScorer.Learn | internal/engine/dynamic.go:29-51 | after any hits the learners know exactly those: contexts, terms and extensions of every directory |
| Learners.DynamicScorer.SemSignal | internal/engine/scorer.go:116-128 | full exactly for an open listing, or a sensitive candidate of a locked directory, among the hits |
| Learners.DynamicScorer.AssocSignal | internal/engine/assoc.go:172-195 | full for a companion of a term hit in the directory, partial for its extension |
| Learners.SignalsGrow | internal/engine/scorer.go:116-148 | a further hit never lowers a candidate signal |
| Learners.BoostGrows | internal/engine/scorer.go:94-100 | with non-negative weights the boost is at least 1 and grows with each signal |
| Losses.QueuedFetchForgotten | internal/engine/session.go:125-189 | no fetch in any run of the resumed scan is of a page that was queued to fetch at the save of a fresh run |
| Progress.QueuedIsVisited | internal/engine/harvest.go:199-210 | in every state of a fresh run each page queued to fetch is marked visited and in scope |
| Session.SavedReached | internal/engine/session.go:207-219 | what a fresh run reaches meets every premise of the results about resumed runs |

## Left out

- The directory records are values in the coordinator object's map, reassigned on each change, so a second pointer to one record (a result handler's, across the root's second calibration) is not captured.
- What is in flight is ghost state of the object; the counters for it, and workers holding it, are in `Channels`.
- The loop around `Ticks.Turn` never ends by itself here: its finish test is `Runs.Finished`, read off the scan.
- Runs take a fresh or resumed, unpaused scan with a fixed worker count; pause, stop, mode switches and a live concurrency change are not events.
- Scores.ScoresCoherent: stated for fresh runs, because a resume forgets the overrides behind cached scores (`Session.OverridesForgotten`), and for a profile signature that sees every score-changing refinement, because with another one a refinement is never swept in.
- Theorems.EverySeedTried: assumes the root's calibration does not start over after the seed, because the seed can then be lost (`Seeds.RelapseForgets`, `Examples.SeedLost`).
- Coverage.FreeSeedsSent: makes the same assumption, for the same reason.
- Body classification, calibration, content hashing, trap windows, WAF detection: each response says what they conclude.
- Profiling, corpus selection, nmap and robots, sitemap and archive fetching, HTML and script mining: their output is an arbitrary batch of seeds.
- HTTP, TLS, header profiles, pacing intervals and jitter: the limiter's rate is modelled, the random interval is not.
- Logarithms in the n-gram likelihood: the individual smoothed factors are proved, their geometric mean is not modelled.
- The mined co-occurrence table: no scan loads one.
- Terminal segments, extensions, companion tables, sensitivity lists and capture recency are given functions in the learner, merging and corpus modules.
- Floating-point rounding: scores, priors and rates are exact reals.
- Producers that give up on cancellation, and the hub's register and unregister channels: the channel model ends with the scan.
- Events, audit records, statistics, previews, REST handlers and the web interface: no coordinator decision reads them.
