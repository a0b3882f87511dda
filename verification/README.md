# The factory's schedulers, protocols and ledgers, verified

A Dafny model of the moving parts of the software-factory headquarters: the pool that runs
several factory tasks at once, the queue that carries the founder's requests from the web
console to the machine at home, the overnight improve loop, the publisher that keeps a remote
mirror in step, the caches, limiters, ledgers and small parsers around them. Each module
follows one of the repository's files; what runs concurrently is a state machine over its
steps, what updates an object or loops is a class or a method proved against a specification,
and what only computes is a function with lemmas.

`dafny verify dfyconfig.toml` checks everything.

| module | what it is a model of |
|---|---|
| `Collections` | shared vocabulary: filters, sums, numerals, white space, the stable sort |
| `WorkerPool` | lanes sharing one counter and one results array, under every order of completion |
| `IntentQueue`, `IntentEndpoint`, `IntentConsole` | the founder-intent protocol: every blob operation a step; one undisturbed poll as code; the console over both |
| `ObjectiveRetry`, `ImproveLoop` | the overnight loop and the validate-then-revive of a failed objective |
| `Publisher` | publish on change, per-task fingerprints, failure streak, backoff |
| `CompanyCache` | a time-limited cache under overlapping builds |
| `TaskBoard`, `CostByRun`, `WeeklyReport` | the board and its filters; one ledger summed by two scripts; the ranked report |
| `LoginThrottle` | a fixed-window limiter and its sliding-window bound |
| `ModelPolicy` | the role-to-model policy over ordered JSON objects |
| `TestRoots` | concurrent test suites claiming and sweeping roots in one directory |
| `HighRiskPreflight` | the preflight over a dependency graph and the scheduler it holds back |
| `HeadlineSplit`, `EnvFiles` | text cut without loss; two `.env` readers compared |

## What the code does where its comments promise otherwise

The model keeps the code as it is. Where a promise fails, a lemma gives a concrete run, and
another says exactly when it holds.

- Claiming an intent is described as once-only. It is, until a report deletes the claimed
  blob: that opens the way to another run exactly when the intent's pending blob is still listed
  (its delete failed silently) or another claim has already read it (`UnmarkReopensExactly`, over
  a whole run `CarefulExactly`; runs: `FailedUnlistRunsTwice`, `OverlappingPollsRunTwice`). A
  report that never arrives does leave the intent claimed and never re-run
  (`ClaimedIsNeverRerun`).
- "One click, one intent" holds until a request of the same key is answered or given up for lost
  (`OneAskUntilReleased`). In general a press queues another intent exactly when its key does not
  show "queued" (`AnotherIntentExactly`), and a run leaves a key with two intents exactly when it
  was asked, released by a reply, a lost reply or a watcher, and asked again
  (`TwoIntentsExactly`; one such run: `SecondPressQueuesAgain`).
- Reviving a failed objective is all-or-nothing unless a failed high-risk builder still waits for
  approval: `resumeState` then throws half-way, with the earlier tasks already rewritten
  (`RetryObjective`, `PartialRevivalIsReal`).
- A concurrency argument that is not a number gives a pool without lanes: nothing runs, and
  printing the report throws; it also throws on the first task whose error was contained
  (`NoLanesNoWork`, `RunMany`). A worker that throws before returning a promise, or rejects with
  no error at all, escapes the containment and takes its lane down (`SettledPool`).
- Eight attempts a minute allow fifteen admissions inside one window's length, ends included, and
  that is tight; sixteen need one millisecond more (`AtMostFifteen`, `BoundsAreReached`).
- "Never retry faster than the floor" fails exactly when something has failed and the configured
  floor is above the backoff cap (`RetryFasterThanFloorExactly`).
- A write that took effect although the publisher was told it failed can leave the mirror wrong
  for as long as the task stays as it was (`UnheardWriteSticks`). What the publisher remembers is
  true at every moment of a run exactly when no such write goes over an older version that is
  remembered (`CoherentExactly`, for the snapshot `SnapshotCoherentExactly`).
- A skipped attempt does not look at the task details: one that changed or was refused waits for
  the next attempt that publishes (`OutstandingUntilPublished`), which comes with the next change
  of the snapshot or, at the latest, the first attempt a heartbeat later whose snapshot is built
  and accepted (`PublishesExactly`).
- The company cache steps back to an older build exactly when builds overlap and finish in the
  other order, and serves it as fresh
  (`CacheStepsBackExactly`, `LaterReadCanBeOlder`).
- Roots of the older naming are said to parse to no pid. Those whose random suffix begins with a
  digit parse to one (`LegacyNameHasNoPidExactly`).
- A sweep takes a live root exactly when that very name was claimed anew between its check and
  its removal and another running suite holds it, which needs a reused pid and a repeated random
  suffix (`SweepsAreSafe`, `ReusedNameIsTaken`; otherwise never: `NoLiveRootIsTaken`).
- On a file with CRLF line ends the root `.env` reader drops every non-empty binding, which the
  dashboard's reader keeps (`CarriageReturnLosesBinding`, `LinesAgreeExactly`).

## Model

| member | source | states |
|---|---|---|
| WorkerPool.EveryInterleaving | scripts/factory-run-many.mjs:40-52 | in every order of completion: no index starts twice; there are as many lanes as fit below both the size and the number of items, so never more calls in flight, each on an index of its own; no lane idles while an item is unclaimed; and only a call's own outcome is ever at its index |
| WorkerPool.LaneCount | scripts/factory-run-many.mjs:50 | no more lanes than items or than the size, none for a size that is not a number, and fewer than the items only if not one more whole lane fits below the size |
| WorkerPool.EveryMoment | scripts/factory-run-many.mjs:43-49 | the pool's invariant survives any schedule of settlements |
| WorkerPool.LaunchKeeps | scripts/factory-run-many.mjs:50 | starting k lanes establishes the invariant, with k lanes |
| WorkerPool.ResumeKeeps | scripts/factory-run-many.mjs:45-47 | one settlement keeps the invariant, and fills exactly one hole of the results or, if it escapes containment, brings its lane down |
| WorkerPool.SettledPool | scripts/factory-run-many.mjs:47-51 | with nothing in flight: no lane crashed iff every call is contained (or there are no lanes), and the results are then the sequential map |
| WorkerPool.NoLanesNoWork | scripts/factory-run-many.mjs:25-50 | there are no lanes exactly for an empty list, a size that is not a number or one below 1; every slot then stays a hole |
| WorkerPool.LanePool.constructor | scripts/factory-run-many.mjs:41-42 | an empty counter over a results array of holes |
| WorkerPool.LanePool.TakeNext | scripts/factory-run-many.mjs:45-47 | the code's claim of the next index is the machine's step |
| WorkerPool.LanePool.Open | scripts/factory-run-many.mjs:50 | starting a lane is the machine's step |
| WorkerPool.LanePool.Settle | scripts/factory-run-many.mjs:47-48 | writing a settled entry in place and claiming on, or crashing, is the machine's step |
| WorkerPool.RunPool | scripts/factory-run-many.mjs:40-52 | whichever call settles next, with `LaneCount` lanes: with a lane, the pool fulfils iff every call is contained, with the sequential map, and otherwise rejects with the first lane crash of some schedule |
| WorkerPool.PrintReport | scripts/factory-run-many.mjs:77-85 | throws at the first row that is a hole or a contained error; otherwise exits 0 iff every task is merge-ready |
| WorkerPool.RunMany | scripts/factory-run-many.mjs:25-92 | end to end: the whole report prints iff the argument is a number and no task was refused, exits 0 iff all are merge-ready, and the command aborts iff some refusal carries no error |
| IntentQueue.EveryRun | control-plane/api/_lib/queue.mjs:164-226 | in every interleaving of polls, crashes and lost replies: a claimed blob that was never deleted guards its intent, and a result says done only if a winning call's handler succeeded |
| IntentQueue.ClaimedIsNeverRerun | scripts/hq-intents.mjs:223-232 | as long as no report deleted the claimed blob, the intent's handler runs at most once |
| IntentQueue.RerunIffExposed | control-plane/api/_lib/queue.mjs:164-224 | with the claimed blob gone and no won record outstanding, some continuation runs the intent again iff it is still listed or still held by a claim |
| IntentQueue.AtMostOnce | control-plane/api/_lib/queue.mjs:159-224 | in every run whose deletions of a claimed blob find the intent neither listed nor held, each intent's handler runs at most once |
| IntentQueue.UnmarkReopensExactly | control-plane/api/_lib/queue.mjs:191-224 | after one deletion of a claimed blob some continuation runs the intent again iff it is then still listed or held |
| IntentQueue.CarefulExactly | control-plane/api/_lib/queue.mjs:164-224 | over every run: no report can be followed by another run of its intent iff each deletion of a claimed blob found the intent neither listed nor held |
| IntentQueue.FailedUnlistRunsTwice | control-plane/api/_lib/queue.mjs:191-224 | a run in which the silent delete failure makes the next poll run the intent again |
| IntentQueue.OverlappingPollsRunTwice | control-plane/api/_lib/queue.mjs:167-224 | a run in which two overlapping polls run the intent twice with no failure at all |
| IntentQueue.CycleEffect | control-plane/api/_lib/queue.mjs:176-226 | a claim carried through to its report: exactly one handler run, the claimed blobs as before, the intent unlisted unless the delete failed |
| IntentEndpoint.IntentStore.Enqueue | control-plane/api/_lib/queue.mjs:115-140 | accepted iff at most 200 are waiting, then appended behind all others |
| IntentEndpoint.IntentStore.Claim | control-plane/api/_lib/queue.mjs:164-196 | won iff listed and not claimed; then claimed, and unlisted unless the delete fails; otherwise nothing changes |
| IntentEndpoint.IntentStore.ClaimPending | control-plane/api/intents.mjs:32-41 | hands out exactly the unclaimed ones of the first twenty, in order, each once |
| IntentEndpoint.IntentStore.Report | control-plane/api/_lib/queue.mjs:199-226 | writes the result, then deletes the claimed blob unless that fails |
| IntentEndpoint.Once | scripts/hq-intents.mjs:215-238 | one poll: the batch runs in order, rejected ones call no handler, every outcome that reaches the store is recorded, and exactly those lost, or whose claimed blob could not be deleted, stay claimed |
| IntentEndpoint.ReportedAt | scripts/hq-intents.mjs:222-235 | after a batch an id's result is its own verdict if it was in the batch and not lost, else what it was |
| IntentEndpoint.Loop | scripts/hq-intents.mjs:260-279 | undisturbed polls run the waiting intents exactly once each, in the order asked, twenty to a poll |
| IntentConsole.DoneIsNeverALie | control-plane/public/app.js:172-233 | a key shows done only if some intent submitted under it was queued, won by the machine, and its handler there succeeded |
| IntentConsole.SeenIsShown | control-plane/public/app.js:216-226 | in every run, when a watcher sees its intent the key turns to done iff the listing that was fetched had it as done, else to failed |
| IntentConsole.WatchedCanBeShown | control-plane/public/app.js:208-226 | whatever else is going on, a watched intent with a result can be fetched and seen, and its key then shows done iff the result is done, with every other key as it was |
| IntentConsole.AlwaysHonest | control-plane/public/app.js:206-229 | any mix of presses, replies, watchers and queue steps keeps the console honest |
| IntentConsole.ConsoleRefinesQueue | control-plane/public/app.js:172-233 | every run of the console is a run of the queue |
| IntentConsole.OneAskUntilReleased | control-plane/public/app.js:172-204 | however often a key is pressed, until a request of it is answered or lost, or a watcher of it is done, only the first press sends and the key owns at most one intent |
| IntentConsole.AnotherIntentExactly | control-plane/public/app.js:172-179 | in every reachable state a key that owns an intent queues another with the next press and accept iff it does not show queued |
| IntentConsole.TwoIntentsExactly | control-plane/public/app.js:172-233 | a run leaves a key with two intents iff it was pressed and accepted, then released by a reply, a lost reply or a finished watcher, then pressed and accepted again |
| IntentConsole.SecondPressQueuesAgain | control-plane/public/app.js:174-199 | a press after the accepted reply queues a second intent for the same ask |
| IntentConsole.PendingIntents.Submit | control-plane/public/app.js:172-181 | the code up to its request is the machine's press: a key that shows queued sends nothing, any other shows queued and sends |
| IntentConsole.PendingIntents.Settle | control-plane/public/app.js:183-203 | the code from the reply on is the machine's step: waiting, with the watch of the id if one came, forgotten on an expired session, failed on any other reply or none, and no other key changes |
| IntentConsole.PendingIntents.Conclude | control-plane/public/app.js:218-232 | a watcher's end: done if the listing it took has the intent as done, failed if as anything else, slow after forty polls without it if the key is still tracked, and no other key changes |
| IntentConsole.Watch | control-plane/public/app.js:208-229 | takes the first listing that has the intent, in at most forty polls |
| ObjectiveRetry.TaskStore.RetryObjective | scripts/factory-improve-loop.mjs:107-127 | true only for an objective with failed nodes, none running, all infra-blocked, none the integration; false writes nothing; true on resume rewrote exactly those tasks; throws after validation iff a failed task awaits approval, and then exactly the tasks before it were rewritten |
| ObjectiveRetry.RetryableExactly | scripts/factory-improve-loop.mjs:107-120 | retryable iff something has failed or is blocked, no node runs, and each such node names a readable task that the infrastructure blocked and is not the integration |
| ObjectiveRetry.RevivedOnce | factory/lib/task-workflow.mjs:365-385 | a revived task is active without its blocker, its events extended, with exactly one more retry event, last, carrying the reason; an incident with attempts is closed unless the task was only paused |
| ObjectiveRetry.ReviveAllAt | scripts/factory-improve-loop.mjs:121-125 | after reviving, each path's task is revived once if it is named, else untouched |
| ObjectiveRetry.PartialRevivalIsReal | scripts/factory-improve-loop.mjs:121-125 | an objective that validates and whose revival stops after the first of its two tasks |
| ImproveLoop.EveryNightIsLawful | scripts/factory-improve-loop.mjs:180-245 | every night's log is lawful event by event (budget, round cap, each result, answer and pressure as that round's night has it, resume obligation, one wait between rounds, the exact backoff or gap, the reason it ends) and it ends |
| ImproveLoop.ResultsAreTheNights | scripts/factory-improve-loop.mjs:138-207 | each round's logged result is what its night made of the objective it resumed or planned: stuck, broken, settled, or a planning that threw |
| ImproveLoop.StuckIsResumed | scripts/factory-improve-loop.mjs:209-237 | after a night that leaves its round blocked, integration-blocked or incomplete, the next round, if any, runs that same objective, which the night had found retryable and revived exactly once, successfully, in between |
| ImproveLoop.NeverFreshOverWork | scripts/factory-improve-loop.mjs:138-223 | in every lawful log the first round runs the objective it was told to resume, and each later one exactly the work that the night before got stuck on: a fresh objective only if it left none |
| ImproveLoop.ThrowsThatGoOn | scripts/factory-improve-loop.mjs:138-223 | a night whose round threw is followed by another round only if the round was fresh and its planning, before anything was written, failed for a transient reason |
| ImproveLoop.WaitsInsideTheBudget | scripts/factory-improve-loop.mjs:186-242 | no wait passes the deadline, no round starts at or after it or beyond the cap, and the k-th pressured round in a row asks for 20, 45, 90, 180, 180, ... minutes clamped to the time left |
| ImproveLoop.EndsForAReason | scripts/factory-improve-loop.mjs:195-245 | the budget is given as the reason only within a minute of the deadline and the cap only at the cap, neither over work that needs a person; recovery, a crash, a dry run and a signal only when there is one |
| ImproveLoop.BodyAllowed | scripts/factory-improve-loop.mjs:195-243 | one pass of the loop only adds lawful events and leaves the variables in step with the log |
| ImproveLoop.PlayRound | scripts/factory-improve-loop.mjs:196-223 | after any log the loop's variables are in step with, the round and its decisions add only lawful events and leave the variables in step, or end for a lawful reason |
| ImproveLoop.ReadPressure | scripts/factory-improve-loop.mjs:225-242 | after any log whose round has ended, the wait and the revival check add only lawful events and leave the variables in step, or end for a lawful reason |
| ImproveLoop.Loop | scripts/factory-improve-loop.mjs:195-245 | the while loop writes the specified log |
| ImproveLoop.RunNight | scripts/factory-improve-loop.mjs:185-245 | the whole command: a log that is lawful and over, each round's result what its night came to, nowhere starting fresh over unrecovered work, its first round on the objective asked for unless a signal came in the initial wait or there is no round or no time |
| LoginThrottle.Limiter.TooMany | control-plane/api/session.mjs:25-33 | refuses from this client's record alone, updates it and no other |
| LoginThrottle.Serve | control-plane/api/session.mjs:25-33 | over a whole history each attempt is answered as its own client's past says |
| LoginThrottle.ClientsAreIndependent | control-plane/api/session.mjs:23-32 | a client's record is what its own attempts alone would make it |
| LoginThrottle.LateAttemptsAreAdmitted | control-plane/api/session.mjs:27-30 | an attempt more than the window after the window's start is admitted and opens a new one |
| LoginThrottle.RefusedExactly | control-plane/api/session.mjs:25-33 | an attempt is refused iff it falls within the length of its client's current window, in which the client has tried eight times or more already |
| LoginThrottle.AtMostFifteen | control-plane/api/session.mjs:18-33 | in time order, at most fifteen admissions of a client fall in any interval of the window's length |
| LoginThrottle.AnyLength | control-plane/api/session.mjs:18-33 | the bound for intervals of any length |
| LoginThrottle.BoundsAreReached | control-plane/api/session.mjs:18-33 | fifteen are reached, and sixteen in one millisecond more |
| TaskBoard.BuildBoard | control-plane/public/board.mjs:98-136 | each column holds exactly the rows that are its own by status and stage, newest first, each card showing how long ago its row moved and stalled iff that is three days or more and it is not done; counts, total and stalled are those of the cards |
| TaskBoard.ColumnHolds | control-plane/public/board.mjs:36-75 | blocked and failed rows are Blocked, finished ones Done, all others by stage (gates, builder and release, product and architect, else Inbox), each once for each time it was published; stalled is three days without movement outside Done |
| TaskBoard.ColumnOrder | control-plane/public/board.mjs:124-128 | the newest rows are on top, and rows of one date keep the order in which they were published |
| TaskBoard.GroupCards | control-plane/public/board.mjs:99-123 | each column receives exactly its cards, in row order |
| TaskBoard.SortColumns | control-plane/public/board.mjs:124-128 | every column, and nothing else, is sorted stably |
| TaskBoard.BothBoards | control-plane/public/board.mjs:98-141 | the stalled-only board's columns are the stalled parts of the full board's, and its total is the full board's stalled count |
| TaskBoard.FilterCommutesWithBoard | control-plane/public/board.mjs:98-128 | any row filter that the cards can answer commutes with grouping and sorting |
| TaskBoard.StalledBoard | control-plane/public/board.mjs:139-141 | the stalled filter commutes with the board, column by column, in order |
| TaskBoard.ProjectBoard | control-plane/public/board.mjs:158-161 | so does the project filter, which without a project changes nothing |
| TaskBoard.ColumnsPartition | control-plane/public/board.mjs:131-133 | over the six columns every card counts exactly once |
| CostByRun.WeeklyCostByRun | scripts/factory-weekly-cost-report.mjs:55-71 | the list is the sorted table of the counted events, the total is its sum |
| CostByRun.SplitCostByRun | scripts/hq-cost-by-run.mjs:20-30 | the rows are the table of the live events |
| CostByRun.LiveExactly | scripts/factory-weekly-cost-report.mjs:56-61 | what counts is no reversal, superseded by no event of the ledger and, for the weekly report, in the window |
| CostByRun.TableIsRows | scripts/factory-weekly-cost-report.mjs:59-68 | each run with a live event has exactly one row: its earliest time and its own sums |
| CostByRun.TableConserves | scripts/factory-weekly-cost-report.mjs:63-70 | the totals are the plain sums over the events |
| CostByRun.UnpricedAreCounted | scripts/factory-weekly-cost-report.mjs:65 | the cost is the sum of the prices there are; events without one are counted |
| CostByRun.ScriptsAgree | scripts/hq-cost-by-run.mjs:20-33 | with every live event in the window both scripts report the same runs with the same sums, and the totals of the sorted lists equal the sums over events neither reversed nor superseded |
| CostByRun.BothTotals | scripts/hq-cost-by-run.mjs:31-33 | the two programs run on one such ledger print equal totals |
| CostByRun.TimesAgreeInOrder | scripts/hq-cost-by-run.mjs:26 | the times shown agree when the ledger is in time order |
| CostByRun.WeeklyListIgnoresLedgerOrder | scripts/factory-weekly-cost-report.mjs:58-69 | permuting the ledger leaves the weekly list unchanged |
| CostByRun.SplitAddsUp | scripts/hq-cost-by-run.mjs:42-47 | totals before and after any split time add up to the total |
| WeeklyReport.Cmp | scripts/factory-weekly-cost-report.mjs:43-44 | at most zero iff lexicographically at least as dear, zero iff the costs are equal |
| WeeklyReport.CmpIsTotal | scripts/factory-weekly-cost-report.mjs:44 | a total preorder whose only ties are equal costs |
| WeeklyReport.CausesCount | scripts/factory-weekly-cost-report.mjs:74-85 | against each cause stand exactly its own rows, counted and summed; the counts add up to the rows with a reason or a failure |
| WeeklyReport.CostSumIsPerMeasure | scripts/factory-weekly-cost-report.mjs:83-102 | quota, money, credits and minutes are each summed on their own |
| WeeklyReport.CausesAreDistinct | scripts/factory-weekly-cost-report.mjs:76-84 | one row a cause, none without a ledger row |
| WeeklyReport.FailuresByCause | scripts/factory-weekly-cost-report.mjs:74-87 | the list is the table, by count, then the dearer first, measure by measure, then name |
| WeeklyReport.BuildReport | scripts/factory-weekly-cost-report.mjs:89-117 | each studio's row is its own sums and the rows add up to the report; top is maximal among the flagged rows, ranked the best five in order |
| Publisher.HqPublisher.Attempt | scripts/hq-publish.mjs:102-147 | the code's attempt, over its state and the far store, is the specified one |
| Publisher.HqPublisher.Pass | scripts/hq-publish.mjs:192-212 | one pass of the loop: it fails iff no snapshot was built, or one that was due was not accepted; the streak then grows, else it is cleared with the first-failure time; fingerprint and time move only with an accepted publish |
| Publisher.HqPublisher.Loop | scripts/hq-publish.mjs:187-216 | a whole run is the specified one |
| Publisher.CoherentForever | scripts/hq-publish.mjs:102-147 | if failed writes left the store alone, every remembered fingerprint is that of the document the store holds, after every run |
| Publisher.DetailCoherence | scripts/hq-publish.mjs:127-133 | one detail breaks that iff its write took effect unheard while an older version is remembered |
| Publisher.CoherentExactly | scripts/hq-publish.mjs:102-147 | over a run every remembered detail fingerprint is true at every moment iff no detail's write took effect unheard over an older remembered version |
| Publisher.SnapshotCoherentExactly | scripts/hq-publish.mjs:110-119 | over a run the remembered snapshot fingerprint is always true iff no other snapshot's write took effect unheard |
| Publisher.AllAcceptedMeansCurrent | scripts/hq-publish.mjs:124-135 | after a publish whose writes all succeed the store agrees with every current detail, and keeps the others |
| Publisher.TaskIsCurrent | scripts/hq-publish.mjs:124-135 | whatever becomes of the other details, a task all of whose writes were accepted is current in the store and in what is remembered, and one without a detail is untouched |
| Publisher.SkippedIsCurrent | scripts/hq-publish.mjs:110-117 | in any run a skip means the store holds a snapshot with that content, published less than a heartbeat before, and leaves every task detail untouched |
| Publisher.PublishesExactly | factory/lib/hq/publish-cadence.mjs:91-102 | in any run an attempt publishes iff its snapshot was built, its write accepted, and its content differs from the last published or that was a heartbeat ago; it is skipped iff neither |
| Publisher.OutstandingUntilPublished | scripts/hq-publish.mjs:117-135 | a changed or refused detail reaches the store at the next attempt that publishes, and nothing changes before |
| Publisher.RefusedChangesNothing | scripts/hq-publish.mjs:126-134 | a task all of whose writes were refused is as it was, in the store and in what is remembered, so it stays outstanding |
| Publisher.StreakCountsTrailingFailures | scripts/hq-publish.mjs:195-208 | the streak is the number of trailing attempts that failed (no snapshot, or due and not accepted), zero iff the last one was accepted or not due; the first-failure time is set iff it is positive, to the first of them |
| Publisher.LastPublishIsRemembered | scripts/hq-publish.mjs:195-198 | after any run the fingerprint and time compared against are those of the last attempt that was due and accepted |
| Publisher.UnheardWriteSticks | scripts/hq-publish.mjs:127-133 | through any run in which the task stays as it was, a version that slipped in unheard stays in the store |
| Publisher.DelayGrows | factory/lib/hq/publish-cadence.mjs:111-119 | the delay is the floor without failures and after the first, doubles until the cap and never passes it |
| Publisher.RetryFasterThanFloorExactly | factory/lib/hq/publish-cadence.mjs:79-119 | a delay is below the floor iff something failed and the floor is above the cap |
| CompanyCache.KeyIsInjective | dashboard/backend/server.mjs:430-432 | the key tells all four enrichments apart |
| CompanyCache.EveryAnswerIsHonest | dashboard/backend/server.mjs:424-449 | under any overlap, fresh means the requested flags and a build begun less than the TTL ago; a forced request is never served from the cache |
| CompanyCache.CacheStepsBackExactly | dashboard/backend/server.mjs:433-447 | between two moments of a run the cached build gets older iff the last one of its key to finish in between was already going at the first and had begun before the one cached then |
| CompanyCache.LaterReadCanBeOlder | dashboard/backend/server.mjs:433-448 | a run in which a later reader gets an older company |
| CompanyCache.CompanyRoute.Look | dashboard/backend/server.mjs:430-438 | a build begins iff the request is forced or every cached build with its flags began at least the TTL ago; an answer is such a build, younger |
| CompanyCache.CompanyRoute.Store | dashboard/backend/server.mjs:447-448 | the handler after its await |
| ModelPolicy.Idempotent | scripts/apply-model-policy.mjs:90-125 | planning on a plan's own result reports nothing and changes nothing |
| ModelPolicy.NoChangesExactly | scripts/apply-model-policy.mjs:95-124 | no changes iff the configuration is left as it is iff it already complies |
| ModelPolicy.ReportExactly | scripts/apply-model-policy.mjs:97-122 | the changes reported are exactly those made (default model, newly registered references, agents whose entry differs), and the warnings are the routed agents that do not exist, in order |
| ModelPolicy.CompleteAndFramed | scripts/apply-model-policy.mjs:98-122 | every routed agent that exists follows its route with all references registered; every other agent, field and truthy entry is as it was |
| ModelPolicy.PlanIsCompliant | scripts/apply-model-policy.mjs:90-125 | a plan's result complies |
| ModelPolicy.CompliantIsFixed | scripts/apply-model-policy.mjs:90-125 | a compliant configuration is planned without change |
| ModelPolicy.RegisterSpec | scripts/apply-model-policy.mjs:83-88 | a missing or falsy reference is registered with an empty entry, every other reference and every other key stays |
| ModelPolicy.TheRoutesAreDistinct | scripts/apply-model-policy.mjs:41-81 | the policy's own table names each agent once and only well-formed references |
| ModelPolicy.WithModels | scripts/apply-model-policy.mjs:83-88 | a fresh entry with the references registered |
| ModelPolicy.ComputePlan | scripts/apply-model-policy.mjs:90-125 | the code computes the specified plan, its errors included |
| TestRoots.OwnerPidRoundTrip | scripts/run-factory-tests.mjs:51-67 | the pid printed into a root's name is recovered, whatever follows it |
| TestRoots.LegacyNameHasNoPidExactly | scripts/run-factory-tests.mjs:63-67 | a name without a pid segment reads as no pid iff its suffix does not begin with a digit |
| TestRoots.SweepsAreSafe | scripts/run-factory-tests.mjs:49-74 | under any interleaving a sweep never takes its own root or a foreign name, and a live root iff that name was claimed anew since its check and another running suite holds it; nothing leaves the directory but the name being removed and a passing suite's own root |
| TestRoots.NoLiveRootIsTaken | scripts/run-factory-tests.mjs:49-61 | from any directory, with names never made twice, no live root is ever taken |
| TestRoots.ReusedNameIsTaken | scripts/run-factory-tests.mjs:57-61 | a run in which a reused pid and suffix lose a live root |
| TestRoots.TmpDir.Sweep | scripts/run-factory-tests.mjs:57-61 | removes exactly the listed prefixed roots of others whose owner is not running |
| HighRiskPreflight.Objective.Preflight | dashboard/backend/server.mjs:646-668 | blocks iff some node is high-risk and there is no founder key, and then blocks exactly the high-risk nodes, holds exactly the pending nodes that depend on one, and leaves every other status |
| HighRiskPreflight.NothingTaintedEverStarts | dashboard/backend/server.mjs:642-658 | afterwards, in any run with any resumes, no high-risk node and none downstream at any depth is started |
| HighRiskPreflight.CanStartExactly | factory/lib/objective/graph.mjs:37-43 | of an all-pending acyclic graph a node can still start in some run iff it is neither |
| HighRiskPreflight.ResumeRestores | factory/lib/objective/orchestrator.mjs:784-816 | a node that was started and stopped is ready again once revived, or done once its publication is; a held one is, once released, as if it never had been |
| HighRiskPreflight.ReleasedExactly | factory/lib/objective/orchestrator.mjs:810-815 | a held node is released iff nothing it depends on has stopped |
| HighRiskPreflight.PreflightFrame | dashboard/backend/server.mjs:649-658 | all other nodes keep their status |
| HighRiskPreflight.TaintedByDependency | factory/lib/objective/graph.mjs:46-60 | downstream at any depth is: high-risk, or depending on something downstream |
| HeadlineSplit.NothingIsLost | control-plane/public/home.mjs:72-88 | the headline's stem and the remainder rebuild the question up to white space at the cut and the ends; the remainder leads the detail and `why` is kept |
| HeadlineSplit.HeadlineIsShort | control-plane/public/home.mjs:70-85 | a headline has at most 141 characters |
| HeadlineSplit.BoundIsReached | control-plane/public/home.mjs:70-85 | and 141 is reached |
| HeadlineSplit.CutAtABoundary | control-plane/public/home.mjs:76-80 | the cut is after the first sentence end if that lies in (40, 140], else at the last blank in (40, 120], else at 120 |
| EnvFiles.AssignmentIsItsPattern | ecosystem.config.cjs:55 | text of the pattern's shape is read as its name and value |
| EnvFiles.AssignmentSplits | ecosystem.config.cjs:55 | and what is accepted has that shape |
| EnvFiles.ReadEnvFile | ecosystem.config.cjs:50-66 | the loop over the lines, later bindings winning |
| EnvFiles.LastBindingWins | ecosystem.config.cjs:54-64 | a name has the value of the last line that binds it |
| EnvFiles.LinesJoin | ecosystem.config.cjs:54 | the lines are the text cut at its newlines |
| EnvFiles.PrintedLine | dashboard/backend/ecosystem.config.cjs:46-57 | both readers read KEY="value" alike, and recover the value iff it has no line terminator |
| EnvFiles.PrintedFile | ecosystem.config.cjs:54-64 | the same for a whole file, both readers |
| EnvFiles.LinesAgreeExactly | dashboard/backend/ecosystem.config.cjs:46-57 | the readers read a line alike iff it is not read as an export, no carriage return trails its value, and it is no unquoted value with " #" |
| EnvFiles.CommentIsCut | ecosystem.config.cjs:57-62 | the root reader cuts an unquoted value at its first " #", the dashboard's reader keeps it whole |
| EnvFiles.ExportIsRootOnly | ecosystem.config.cjs:55 | an export line is read by the root reader as the assignment behind the keyword, by the dashboard's not at all |
| EnvFiles.FilesAgree | ecosystem.config.cjs:50-66 | on files of such lines they read the same environment |
| EnvFiles.CarriageReturnLosesBinding | ecosystem.config.cjs:54-56 | a CRLF line's non-empty binding is dropped by one reader and kept by the other |

## Left out

- WorkerPool.RunPool: what the other lanes still do after the first lane crash is not in its result, as it is not in the source's; `EveryInterleaving` covers it.
- WorkerPool.RunMany: the elapsed times and the padded line layout are not modelled.
- IntentQueue: authentication, shape checks, ids and record contents; a blob read that fails half-way is a call that is simply abandoned.
- IntentEndpoint.Loop: signals and the interval between polls; the number of polls is a parameter.
- IntentConsole.Watch: which 25 results a listing holds is not modelled: a poll may or may not find the intent; drawing is not part of this model.
- ImproveLoop: what a round does inside (decomposition, dispatch, pull requests) and how it is assessed are inputs, as is the reading of cron; that only planning marks an error transient is factory/lib/objective/decompose.mjs:39-73; the clock never moves back; a crash of the process is an end of its own.
- ObjectiveRetry: classification of a blocker's prose and the validity of an approval signature are inputs.
- Publisher: building snapshots and details is an input; fingerprints are an opaque function, so two documents with one fingerprint count as equal; the wording of alerts is left out.
- TaskBoard: title, outcome line and other display fields of a card; date parsing and string collation are parameters.
- CostByRun: task, stage and model columns; timestamps are compared as numbers; collation of run ids is taken to separate different ids.
- WeeklyReport.BuildReport: latest quota, retried tasks and reviews; costs are reals; a studio named like a property every object inherits is not modelled.
- LoginThrottle: the client name is taken as given, and one process holds the map.
- CompanyCache: the other routes, and errors while sending.
- ModelPolicy.ComputePlan: change messages are kept as what they are about; an array where `defaults` or a routed agent is expected counts as the type error a scalar there gives; reading and writing the file is left out.
- TestRoots: pids too long for an exact number, permissions, and what a root contains.
- HighRiskPreflight.CanStartExactly: acyclicity is given as a rank; cancelling an objective and other edits of the graph by hand are left out.
- HeadlineSplit: characters are UTF-16 code units, as the source's string operations count them.
- EnvFiles: files that cannot be read, and the merging with the process environment.
- Not part of this model, because they would add only easy members or are input and output: rendering, routing, cookies, process managers, subprocess calls, pricing tables, vocabulary tables and one-line formatters.
