# Verified model of the request-handling worker

The program takes customer requests over an API, queues their ids in Redis, and drives each one through a fixed
pipeline (classify, extract, retrieve, create a ticket, reply, notify, persist, report, or stop for human review).
Delivery is at least once: workers crash, a reaper redelivers, failures are requeued, operators retry and replay.
What makes this safe is spread over three stores: the queue's heartbeats and delivery counters, the database's
status, attempts and node checkpoints, and the idempotency keys at the adapters. This project models those parts
and proves what they guarantee together. Three smaller parts with real arithmetic are included: the daily budget
breaker, the rate limiter, and the evaluation metrics and spend report.

## How the project is laid out

| file | contents |
|---|---|
| RedisLists.dfy | list commands on sequences, and counting lemmas |
| QueueModel.dfy, JobQueue.dfy, DeadLetter.dfy, Fifo.dfy | the queue as a value, as the class that updates it in place, and over runs of its methods |
| RedisInterleaving.dfy, MethodCommands.dfy, CommandLoss.dfy | the same queue one Redis command at a time, any number of processes interleaved; taken without interruption the commands are the queue methods; lost work at that granularity |
| Pipeline.dfy, RequestRow.dfy | the graph; one request's row and the transactions on it |
| JobLifecycle.dfy | one request's share of the whole system as a state machine, and what every step of it keeps |
| AttemptBound.dfy, Termination.dfy | bounds on attempts and claims; a lexicographic measure |
| JobSystem.dfy, SystemBound.dfy, SettledStatus.dfy | the whole system, its refinement to `JobLifecycle` per request, and the promises lifted to it |
| DriveOutcome.dfy | what one drive makes of a request, given how its nodes end |
| Worker.dfy, Api.dfy | the worker, the repository and the API endpoints as classes, each method tied to the system steps it performs |
| Adapters.dfy, Nodes.dfy, PipelineRunner.dfy | the keyed sandbox adapters, the nine nodes, the streaming loop |
| EffectPlan.dfy, EffectHistory.dfy | effects of any crash-ridden history against one uninterrupted run |
| PipelineChoice.dfy, SwitchedEffects.dfy | the same when drives run different pipelines: what each did, and when it is still one run's |
| EndToEnd.dfy | the protocol and the pipeline in one machine: what the database says against what happened outside |
| JiraRest.dfy | search-before-create over a channel that loses requests and answers |
| Retry.dfy, LlmLedger.dfy | retry loop, provider failover, usage rows of a run and whether they are recorded |
| Budget.dfy, RateLimit.dfy | the spend breaker and the fixed-window limiter over all traces |
| EvalMetrics.dfy, CostReport.dfy | scoring identities; the one-pass report against plain sums |

## What is assumed

- Queue methods are atomic in `JobLifecycle` and above; `RedisInterleaving` drops this.
- Database calls and callbacks do not raise in the worker's methods. The machines of `JobLifecycle` and `JobSystem` have
  the step in which an exception escapes and the ack still runs; `JobLifecycle.RaiseOutsideTryLosesWork` says exactly
  when that loses the request, and `RequestRow.RaiseAfterFinalizeOverwritesOutcome` what a late exception overwrites.
  The attempt bound and termination exclude it.
- No two workers hold the same id between claim and ack. A reap of a live job is allowed.
  `RequestRow.ConcurrentDrivesOverwriteCompleted` and `RedisInterleaving.FreshClaimCanBeReaped` show why it matters
  and that the queue itself does not enforce it; `JobLifecycle.HeldBecomesClaimableExactlyWhen` lists the steps that put
  a second copy of a held job up for claims. What is proved in `RedisInterleaving`, `CommandLoss`, `EffectHistory`,
  `PipelineChoice` and `SwitchedEffects` holds with any number of holders and drives of one request.
- For effects in `EffectHistory` and `EndToEnd`: model and knowledge answers are functions of their input, and every drive
  uses the same pipeline. `SwitchedEffects` drops this: every drive may run its own pipeline. Then each effect still
  happens at most once and passes its own pipeline's gate (`SwitchedEffects.SwitchedEffectsOnceAndGated`), but together
  they need not be one run's: the budget breaker is safe for a request exactly when one of its two pipelines sends it to
  review or they agree on two of its ticket, its mail and its notification
  (`SwitchedEffects.SwitchingIsSafeExactlyWhen`).
- For Jira: drives of one request follow one another, and a search sees earlier creates. `JiraRest.TwoDrivesOpenTwoIssues`
  and `JiraRest.SecondIssueExactlyWhen` show what happens otherwise.

## Where the code and its documentation differ

- app/jobs/worker.py:340-342 and docs/adr/0008-reliable-queue-and-observability.md:29-32 say `process_request` never
  raises. `_begin`, `_load_state` and `_select_pipeline` run outside the guarded block, and the ack still runs.
- docs/adr/0016-cost-tracking.md:26-31 and app/jobs/worker.py:83-84 say cost is never lost. `_persist_cost` is skipped
  on any exception or crash before it. `LlmLedger.FailedRunLosesItsCost` and `LlmLedger.CrashBeforePersistLosesCost`
  are two failing inputs, and `LlmLedger.SpendRecordedExactlyWhen` is the exact condition. So the daily cap bounds what is
  recorded, not what is paid: `Budget.FailuresEvadeTheCap` and `Budget.IncurredBounded`.
- docs/adr/0004-async-job-processing-redis.md:23 promises at-least-once delivery. With atomic queue methods,
  `JobLifecycle.NoLostWork` names the two steps that can still lose a request and proves that nothing else does; at the
  granularity of Redis commands a reap or replay that crashes with the last copy in hand is a third, and
  `CommandLoss.LostExactlyWhen` proves that list complete.
- COMPLETED does not imply artifacts: see `JobLifecycle.NoArtifactsExactlyWhen`.
- ADR 17 gives a label search as the guard against duplicate tickets. An empty response body counts as "not found"
  (app/adapters/jira/rest.py:76-78, 109), and then a second issue is created.
- app/security/rate_limit.py:30-32 counts and sets the expiry in two commands. If only the first takes effect, the
  identity is locked out for good once its allowance is used: `RateLimit.LockedOutExactlyWhen`.

## Model

| member | source | states |
|---|---|---|
| QueueModel.ReapKeepsExactlyFresh | app/jobs/queue.py:69-93 | for any queue, repeated ids included, a reap leaves in processing exactly the entries younger than the visibility timeout, in order |
| QueueModel.ReapSparesExactlyTheYoung | app/jobs/queue.py:75-80 | a job in flight survives a reap if and only if its claim time is stored and less than the visibility timeout ago |
| QueueModel.ReapForgetsTakenClaims | app/jobs/queue.py:77-84 | a reap removes the heartbeat of an id if and only if it is in flight and stored too long ago; all others keep their value |
| QueueModel.ReapPartitions | app/jobs/queue.py:69-93 | with one copy per id, redelivered ids go to the FIFO tail in reverse snapshot order and exhausted ones to the dead list |
| QueueModel.ReapConserves | app/jobs/queue.py:69-93 | a reap neither loses nor duplicates a copy of any id |
| QueueModel.ReapSlot | app/jobs/queue.py:69-93 | the sweep over a snapshot acts on each id separately: nothing if its claim is fresh, otherwise all its copies move one by one |
| QueueModel.NothingStuckAfterReap | app/jobs/queue.py:109-126 | right after a reap, nothing is stuck for any threshold no smaller than the visibility timeout |
| QueueModel.StuckExactly | app/jobs/queue.py:109-126 | an id is reported stuck if and only if it is in flight and old or without heartbeat |
| QueueModel.StuckInParts | app/jobs/queue.py:118-126 | the report of a list is that of its parts in order; one id is reported with its age, or with the threshold plus one if it has no heartbeat |
| QueueModel.ClaimSlot | app/jobs/queue.py:48-60 | a claim moves one copy of the oldest id and stamps it; other ids are untouched |
| QueueModel.AckSlot | app/jobs/queue.py:62-67 | an ack removes one copy of its own id and clears both hash entries, and nothing of other ids |
| QueueModel.AckForgets | app/jobs/queue.py:65-67 | after an ack nothing is stored for the id, and everything stored for others is as before |
| QueueModel.ReplaySlot | app/jobs/queue.py:95-107 | a replay merges all dead copies of its id into one pending copy with a cleared counter |
| QueueModel.ReplayGoesToTheTail | app/jobs/queue.py:106 | a replayed job is put where a new one is: it is handed out after everything waiting |
| JobQueueClass.JobQueue.Enqueue | app/jobs/queue.py:45-46 | the new state is the old one with the id at the head of pending |
| JobQueueClass.JobQueue.Claim | app/jobs/queue.py:48-60 | returns the oldest pending id, now in processing with the claim time, or nothing exactly when pending is empty |
| JobQueueClass.JobQueue.Ack | app/jobs/queue.py:62-67 | one copy leaves processing, heartbeat and counter are gone; pending, the dead list and what is stored for other ids stay |
| JobQueueClass.JobQueue.Reap | app/jobs/queue.py:69-93 | the in-place loop leaves an id in flight exactly if its claim time is known and younger than the timeout, keeps the fresh entries in order, returns the two move counts and preserves the multiset of all copies |
| JobQueueClass.JobQueue.RequeueFromDead | app/jobs/queue.py:95-107 | true exactly when the id was dead; then it is appended once at the FIFO tail of pending, all its dead copies and its counter are gone |
| JobQueueClass.JobQueue.StuckJobs | app/jobs/queue.py:109-126 | the reported ids are exactly the old or unstamped in-flight ones, in list order, with their age or the threshold plus one |
| DeadLetter.CountersAlwaysBounded | app/jobs/queue.py:62-107 | in every state reachable by queue methods every stored counter is between 1 and max_redeliveries |
| DeadLetter.CounterCountsSweeps | app/jobs/queue.py:62-107 | with one copy, the counter is the number of sweeps since the last ack or replay, and cleared once parked |
| DeadLetter.ParkedExactlyAfterLastRedelivery | app/jobs/queue.py:85-92 | a call parks a job if and only if it is its (max_redeliveries + 1)-th sweep since the last ack or replay |
| Fifo.FirstInFirstOut | app/jobs/queue.py:45-107 | over every run of queue methods, reaps and replays included: what was handed out followed by what waits is what was put in, in order, a returned job being put in again |
| Fifo.PutBackIsDue | app/jobs/queue.py:75-92 | with one copy per id a reap puts in, in list order, the expired jobs with a redelivery left |
| RedisInterleaving.EveryCopyAccountedFor | app/jobs/queue.py:45-107 | at command granularity, under every interleaving and crash, pushes equal copies in lists and hands plus acked, merged and crash-dropped ones |
| RedisInterleaving.OneRedeliveryPerClaim | app/jobs/queue.py:81-92 | redeliveries, parkings and acks together never exceed claims, so two reapers with one snapshot never both move a copy |
| RedisInterleaving.SingleEnqueueNeverForks | app/jobs/queue.py:81-107 | a job enqueued once that is in some process's hand is in no list and in no other hand |
| RedisInterleaving.CrashLosesExactlyTheHeldCopy | app/jobs/queue.py:82-91 | a crash loses a copy if and only if it falls between the LREM and the LPUSH of a reap or replay |
| RedisInterleaving.FreshClaimCanBeReaped | app/jobs/queue.py:54-59 | a run in which a job is taken back to pending between BLMOVE and HSET while its claimer works on it |
| MethodCommands.ReapIsItsCommands | app/jobs/queue.py:69-93 | from any state, LRANGE and the following commands of one process, nobody else moving, leave exactly what the reap method leaves |
| MethodCommands.SweepOneAlone | app/jobs/queue.py:77-92 | per id the commands are those of the sweep: none after HGET for a fresh claim, none after a failed LREM, otherwise up to the push and the last HDEL |
| MethodCommands.ClaimIsItsCommands | app/jobs/queue.py:54-60 | BLMOVE and HSET, uninterrupted, are the claim method |
| MethodCommands.AckIsItsCommands | app/jobs/queue.py:65-67 | LREM and the two HDELs, uninterrupted, are the ack method |
| MethodCommands.ReplayIsItsCommands | app/jobs/queue.py:102-107 | LREM, HDEL and LPUSH, uninterrupted, are the replay method, also when nothing was dead |
| CommandLoss.LosesExactlyWhen | app/jobs/queue.py:62-107 | for every state and any number of processes, a command or crash loses an open request if and only if it takes its last copy (an ack's LREM, or a crash holding it in a reap or replay) with no enqueue owed, or is the death of the last process owing one |
| CommandLoss.LostExactlyWhen | app/jobs/queue.py:45-107 | over every interleaving a request is lost if and only if such a step happened with no commit since |
| PipelineGraph.EdgesClimb | app/graph/build.py:64-77 | each edge leads from the only predecessor one rank up, and only the two end nodes have no successor |
| PipelineGraph.PathsAre | app/graph/build.py:64-77 | following the edges from the entry gives the eight nodes of the main path in order, or classification and review |
| PipelineGraph.ClosedIsPrefix | app/graph/build.py:64-77 | what interrupted runs complete is a prefix of the main path |
| RequestRow.ArtifactsOncePerKind | app/jobs/worker.py:205-225 | one finalisation writes at most one artifact of a kind, a completed run exactly the four of the main path, a reviewed one exactly its review |
| RequestRow.RetryStartsAfresh | app/api/routes_requests.py:183-188 | exactly failed requests can be retried; the next drive is attempt one again, or a checkpoint settles the request; nothing saved is lost |
| RequestRow.ConcurrentDrivesOverwriteCompleted | app/jobs/worker.py:296-302 | a second drive's failure handler overwrites a committed COMPLETED |
| RequestRow.RaiseAfterFinalizeOverwritesOutcome | app/jobs/worker.py:95-109 | an exception after the final commit makes the request FAILED with its artifacts; a retry settles it again |
| JobLifecycle.StepKeepsInv | app/jobs/worker.py:116-141 | every step of every process keeps the queue, row and drive invariants of a request |
| JobLifecycle.NodeKeepsInv | app/jobs/worker.py:89-94 | running and checkpointing one node keeps the saved nodes closed and the drive consistent with them |
| JobLifecycle.LosesExactlyWhen | app/api/routes_requests.py:67-98 | a step loses an open request if and only if it is the crash of the one API process that owes its enqueue while no copy exists, or the ack of its only copy with no enqueue owed |
| JobLifecycle.LostStaysLost | app/jobs/worker.py:335-345 | a lost request is never claimed, retried, replayed or changed again |
| JobLifecycle.NoLostWork | app/jobs/worker.py:281-346 | over every run, escaping exceptions included: an open request is in a list or about to be enqueued if and only if no losing step ever happened to it |
| JobLifecycle.NothingLostWithoutAccident | app/jobs/worker.py:281-346 | whatever workers, reapers and operators do, no request is lost unless an API process crashes between commit and enqueue or an exception escapes the worker |
| JobLifecycle.AckAfterRetryStrands | app/jobs/worker.py:344-345 | a failure, an operator retry, an API crash and the worker's ack lose a request |
| JobLifecycle.ApiCrashStrands | app/api/routes_requests.py:67-98 | an API crash between commit and enqueue leaves a QUEUED request nowhere |
| JobLifecycle.RaiseOutsideTryLosesWork | app/jobs/worker.py:68-77 | an exception that escapes, and the ack after it, lose an open request if and only if the claimed copy was its last and no enqueue is owed |
| JobLifecycle.HeldBecomesClaimableExactlyWhen | app/jobs/worker.py:305-306 | a held job gets a copy others can claim by exactly: an API enqueue, its own requeue before the ack, a reap that returns a copy, or a replay |
| JobLifecycle.FinalisedAtMostOnce | app/jobs/worker.py:198-232 | over all crashes, redeliveries, requeues and retries a request is finalised at most once, exactly when it has artifacts, at most one of a kind |
| JobLifecycle.SettledExactlyOneWay | app/jobs/worker.py:132-137 | a request is settled if and only if exactly one of one finalisation and one checkpoint settlement happened |
| JobLifecycle.CrashBeforeFinalizeDropsArtifacts | app/jobs/worker.py:132-137 | a crash between the last checkpoint and the final commit ends in a settled request without artifacts |
| JobLifecycle.NoArtifactsExactlyWhen | app/jobs/worker.py:132-137 | a settled request has no artifacts if and only if it was settled from a checkpoint |
| JobLifecycle.CheckpointsAgreeWithStatus | app/jobs/worker.py:129-137 | COMPLETED has its report step, NEEDS_REVIEW its review step, never both steps exist, the others form a prefix of the path |
| JobLifecycle.StepExtends | app/db/repository.py:90-98 | no step changes a saved output, a settled status or written artifacts, and FAILED changes only by the retry endpoint |
| JobLifecycle.HistoryOnlyGrows | app/db/repository.py:85-98 | the same between any run and any continuation of it |
| JobLifecycle.FailedUntilRetried | app/api/routes_requests.py:177-190 | a FAILED row is unchanged by every continuation without a retry |
| AttemptBound.StepKeepsBounds | app/jobs/worker.py:296-306 | every step in the single-copy setting keeps the joint bounds on attempts, claims and requeues |
| AttemptBound.AttemptsAndClaimsBounded | app/jobs/worker.py:139-140 | attempts never exceed max_attempts + max_redeliveries and claims never max_attempts * (max_redeliveries + 1) |
| AttemptBound.AtomicRunsAreRuns | app/jobs/worker.py:296-306 | a run of the single-copy setting is a run of the full machine with each requeue followed by its enqueue and ack |
| SystemBound.SystemAttemptsBounded | app/jobs/worker.py:139-140 | the attempt bound for one request of the whole system, whatever happens to the others |
| Termination.ProgressOrRest | app/jobs/queue.py:62-93 | every step that changes an open job settles it, parks it, or lowers (attempts left, redeliveries left, distance) |
| Termination.NodeProgress | app/jobs/worker.py:89-94 | a driving worker can always go on with its next node, whatever it puts out and however it judges, and that lowers the measure |
| Termination.NeverStuck | app/jobs/queue.py:69-93 | an open job always has a claim, reap, begin, node or finalise step that keeps its one copy and settles it, parks it or lowers the measure |
| Termination.RestsWithinWork | app/jobs/worker.py:116-141 | whatever the schedule, an open job rests after at most a fixed number of effective steps |
| JobSystem.StepRefines | app/jobs/worker.py:335-345 | each step of the whole system is, seen from each request, one step of its own life or none |
| JobSystem.RunRefines | app/jobs/worker.py:335-345 | the same for whole runs and every request at once |
| JobSystem.SystemLosesNoWork | app/jobs/worker.py:281-345 | in every reachable system state an open request is in pending, processing or dead, or about to be enqueued, if and only if no losing action ever hit it |
| JobSystem.SystemHistoryOnlyGrows | app/db/repository.py:85-98 | saved outputs, artifacts and settled statuses never change again in any run of the system |
| JobSystem.SystemFinalisesOnce | app/jobs/worker.py:198-232 | no request of the system has two artifacts of one kind |
| JobSystem.SystemCheckpointsAgree | app/jobs/worker.py:129-137 | checkpoints are closed along the path and agree with the status for every request |
| SettledStatus.SettlesByVerdict | app/jobs/worker.py:132-137 | with the same verdict on each drive the settled status is the one it leads to, by whichever way the request settles |
| SettledStatus.SystemSettlesByVerdict | app/jobs/worker.py:129-137 | the same for every request of the system |
| WorkerProcess.Repository.UpdateRequest | app/db/repository.py:79-82 | sets the named fields of one row and nothing else |
| WorkerProcess.Repository.SaveStep | app/db/repository.py:90-98 | first write wins; a second write changes nothing at all |
| WorkerProcess.Repository.AddArtifact | app/db/repository.py:101-104 | appends one artifact to one row |
| WorkerProcess.Repository.CommitFinal | app/jobs/worker.py:205-232 | the five guarded additions and the status update together are the one finalisation transaction |
| WorkerProcess.Worker.Begin | app/jobs/worker.py:116-141 | performs the system's begin step; the row and the attempt number are those of the begin transaction, and a missing row changes nothing |
| WorkerProcess.Worker.FinalizeRun | app/jobs/worker.py:198-232 | performs the system's finalise step; a missing row changes nothing |
| WorkerProcess.Worker.HandleFailure | app/jobs/worker.py:281-312 | QUEUED with one more pending copy if retryable with attempts left, else FAILED with the queue untouched; a missing row changes nothing |
| DriveOutcome.StreamIs | app/jobs/worker.py:89-94 | a stream keeps the outputs of exactly the nodes it reached that were done, and raises what the first other node on its path raised |
| DriveOutcome.DriveEndsAsNodesDo | app/jobs/worker.py:63-113 | an open request ends COMPLETED or NEEDS_REVIEW by its verdict with no error note if all nodes on its path are done; else the first that is not decides: QUEUED and requeued after a transient error with attempts left, FAILED otherwise, with that error as note |
| DriveOutcome.DriveSavesOutputs | app/db/repository.py:90-98 | a drive saves exactly its outputs, older checkpoints win, and artifacts are added only if every node was done |
| DriveOutcome.NothingToDrive | app/jobs/worker.py:129-137 | a request that is over is untouched; one with a terminal checkpoint is only settled |
| DriveOutcome.NeverLeftRunning | app/jobs/worker.py:63-113 | whatever its nodes do, a drive does not leave its request RUNNING |
| WorkerProcess.Worker.Stream | app/jobs/worker.py:89-94 | the streaming loop is a run of the system and its row, outputs and raised error are those of the stream function, for which DriveOutcome.StreamIs holds |
| WorkerProcess.Worker.ProcessRequest | app/jobs/worker.py:63-113 | a run of the system that leaves the row, and the queue, exactly as DriveOutcome.Driven says for the way the nodes end, never RUNNING |
| WorkerProcess.Worker.RunOnce | app/jobs/worker.py:335-345 | one turn of the worker loop is a run of the system; rows and queue afterwards are those of claim, drive, requeue if due, and ack: what was in flight before still is, the claimed job is not |
| WorkerProcess.TurnLeaves | app/jobs/worker.py:335-345 | after a turn the job has left the head of the queue and is not in flight, nothing is stored for it, and it waits at the tail again if and only if its drive put it back; its row is that of the drive and no other changes |
| ApiProcess.Api.SubmitRequest | app/api/routes_requests.py:67-98 | a submission is a run of the system after which the row exists, its id is the newest pending one and no enqueue is owed |
| ApiProcess.Api.SubmitBatch | app/api/routes_requests.py:112-125 | all rows are committed first, then the ids are enqueued in the order given |
| ApiProcess.Api.RetryRequest | app/api/routes_requests.py:177-191 | a failed request becomes QUEUED with no attempts and is enqueued; any other answer changes nothing |
| Adapters.SandboxTickets.CreateTicket | app/adapters/jira/sandbox.py:21-30 | the same key always gets the same ticket and only its first use creates one |
| Adapters.CreateKeepsNumbering | app/adapters/jira/sandbox.py:21-30 | tickets are numbered from one in the order of creation, each number stored under exactly one key |
| Adapters.TicketsDiffer | app/adapters/jira/sandbox.py:24-29 | different keys never share a ticket |
| Adapters.SandboxEmail.Send | app/adapters/email/sandbox.py:18-27 | only the first send under a key reaches the outbox |
| Adapters.SandboxNotifier.Notify | app/adapters/slack/sandbox.py:16-21 | only the first notification under a key is sent |
| EffectPlan.PlanIsGated | app/graph/nodes.py:207-237 | the planned effects need a classification at or above the threshold, and the mail a recipient and a passed gate |
| EffectPlan.NodeOnPlan | app/graph/nodes.py:156-259 | one node of a drive on plan succeeds and stays on plan even when other drives of the request are ahead |
| EffectPlan.RunAloneOnPlan | app/graph/build.py:96-106 | an uninterrupted run reaches exactly the planned state and effects after each node |
| EffectHistory.KeysTellRequestsApart | app/graph/nodes.py:178-257 | the keys of two requests never collide |
| EffectHistory.EveryHistoryOnTrack | app/graph/nodes.py:178-259 | after any interleaving of drives, crashes, lost results and alerts each request's effects and drives are on plan |
| EffectHistory.EffectsEqualOneRun | app/jobs/worker.py:89-95 | after any history a request's ticket, outbox and notification entries equal one uninterrupted run cut at the furthest node reached |
| EffectHistory.NoSharedTickets | app/graph/nodes.py:178-184 | in no history do two requests share a ticket |
| EffectHistory.FinishedDrivesAgree | app/jobs/worker.py:89-95 | every drive that finishes ends in the state and status of one uninterrupted run |
| EffectHistory.RecordTellsTheTruth | app/graph/nodes.py:262-303 | in the record of a completed drive the ticket is the one that exists, reply sent and notified hold exactly if the mail and the notice exist, reply held exactly if the gate refused it; the report is the report of that record |
| EffectHistory.RequiredInputsArePresent | app/graph/nodes.py:336-343 | `_require` never fails on any drive of any history |
| EffectHistory.EffectsAreGated | app/graph/nodes.py:320-333 | no effect exists unless the classification met the threshold; a mail went to the extracted address with a text the gate passes |
| EffectHistory.UnreadableOutputNeverActs | app/graph/nodes.py:88-107 | with a positive threshold, unparseable classifier output never causes an effect |
| EffectHistory.ChangedVerdictLeavesTicketInReview | app/jobs/worker.py:168-175 | after any number of nodes under one pipeline, a drive under another ends in review with a ticket if and only if the first reached the ticket without review and the second reviews |
| PipelineChoice.EveryHistoryOnOwnPlan | app/jobs/worker.py:157-180 | with a pipeline selected per drive, each drive follows its own pipeline's plan, and a ticket exists exactly if some drive carried out the ticket node |
| PipelineChoice.TicketInReviewExactlyWhen | app/jobs/worker.py:168-175 | over all such histories, a finished drive leaves review and a ticket together if and only if its pipeline reviews the request and some drive carried out the ticket node |
| PipelineChoice.SameVerdictNeverBoth | app/jobs/worker.py:168-175 | if the two pipelines in use judge the request alike, it is never in review with a ticket |
| SwitchedEffects.EffectsAreCredited | app/jobs/worker.py:89-95 | with any pipeline per drive and any crashes, each effect of a request is what the first pipeline that carried it out had planned, under the one ticket |
| SwitchedEffects.SwitchedEffectsOnceAndGated | app/graph/nodes.py:207-237 | at most one ticket, mail and notification; each needs a verdict its own pipeline trusts, and the mail passed its own pipeline's gate for its own recipient |
| SwitchedEffects.RunOfOnePipelineExactlyWhen | app/jobs/worker.py:157-180 | after any history the effects are one run of a given pipeline if and only if its plan has the credited entries and misses no mail |
| SwitchedEffects.SwitchingIsSafe | app/deps.py:170-179 | drives that switch between two interchangeable pipelines do what one run of one of them does |
| SwitchedEffects.DisagreementBreaks | app/deps.py:170-179 | from any history without the ticket, two pipelines that are not interchangeable can be switched so that the effects are no run of either |
| SwitchedEffects.SwitchingIsSafeExactlyWhen | app/jobs/worker.py:168-180 | a request without a ticket is safe from all further switching if and only if one pipeline reviews it or they agree on two of ticket, mail and notification |
| EndToEnd.NodeSucceeds | app/graph/nodes.py:156-343 | in the joint machine the node a worker runs never lacks an input and always gives the request's own verdict |
| EndToEnd.RunKeeps | app/jobs/worker.py:89-95 | in every joint run each worker's next node is where its pipeline run is, and a checkpointed node was carried out |
| EndToEnd.SettledMeansDoneOnce | app/jobs/worker.py:63-141 | a request the database calls settled is NEEDS_REVIEW exactly if its classification is below the threshold; its ticket, mail and notice are none in that case and otherwise the one ticket, the one notice and the gated mail that the ports dictate, as in one uninterrupted run |
| EndToEnd.PlanKeepsPromise | app/graph/nodes.py:88-259 | one uninterrupted run does what is promised: nothing below the threshold, where unreadable output reads as confidence zero; else one ticket and one notice, and a mail exactly if there is an address and the gate passes the draft |
| EndToEnd.CheckpointedMeansDone | app/jobs/worker.py:89-94 | an unsettled request has the effects of one run cut at some node, at or after every node it has a checkpoint for |
| PipelineRunner.Runner.CreateTicketNode | app/graph/nodes.py:156-185 | calls the adapter once and returns the state the node specifies, or nothing when an input is missing |
| PipelineRunner.Runner.DraftReplyNode | app/graph/nodes.py:188-237 | the branch on recipient and gate changes the outbox exactly as specified |
| PipelineRunner.Runner.NotifyNode | app/graph/nodes.py:240-259 | notifies under the request's key as specified |
| PipelineRunner.Runner.Run | app/graph/build.py:96-106 | the streaming loop ends in the planned final state with exactly the planned effects |
| JiraRest.Find | app/adapters/jira/rest.py:71-80 | nothing is found exactly when no issue carries the label; what is found carries it |
| JiraRest.CallAnswers | app/adapters/jira/rest.py:52-109 | from the fates alone: a call fails transiently if and only if its search is lost, or finds nothing and its creation is lost; permanently if and only if one of them is refused or the creation answers without a body; otherwise it returns a labelled issue |
| JiraRest.CallStores | app/adapters/jira/rest.py:52-69 | the server has one more labelled issue exactly if the search came back with nothing and the creation was carried out |
| JiraRest.SecondIssueExactlyWhen | app/adapters/jira/rest.py:52-80 | a call leaves a second labelled issue if and only if one existed, the search body was empty and the creation was carried out |
| JiraRest.JiraRestTickets.CreateTicket | app/adapters/jira/rest.py:52-69 | at most one labelled issue stays at most one, and a returned key is that of a labelled issue |
| JiraRest.JiraRestTickets.CreateWithRetries | app/graph/retry.py:46-63 | calls are made up to the first that does not fail transiently, or all; if call k delivers both exchanges and every earlier one lost its search, call k succeeds and is the last; result and store are those of exactly these calls, and one labelled issue at most stays so |
| JiraRest.DeliveredCallSucceeds | app/graph/retry.py:46-63 | after calls that lost their search nothing has changed, and a call that delivers both exchanges succeeds |
| JiraRest.RunKeepsInv | app/adapters/jira/rest.py:52-80 | exchange by exchange, with all requests interleaved and drives crashing, a request that takes turns has at most one issue |
| JiraRest.OneIssuePerRequest | app/graph/nodes.py:178-184 | then all successful calls of a request return the one issue with its label |
| JiraRest.CallIsSearchThenPost | app/adapters/jira/rest.py:52-69 | the adapter's method is the search exchange followed by the creating one |
| JiraRest.IssuesArePosts | app/adapters/jira/rest.py:52-69 | over all runs, turns or not, the labelled issues are the initial ones plus one per creation carried out |
| JiraRest.SecondIssueInRunExactlyWhen | app/adapters/jira/rest.py:52-69 | over all runs a second issue exists if and only if a creation was carried out while the issue was there |
| JiraRest.TwoDrivesOpenTwoIssues | app/adapters/jira/rest.py:52-67 | two concurrent drives of one request open two issues on a perfect channel |
| Retry.RetryAsync | app/graph/retry.py:26-63 | invokes exactly up to the first outcome that is not transient or `attempts` times, with capped doubling delays between; refuses fewer than one attempt |
| Retry.DelayDoubles | app/graph/retry.py:53-57 | the first delay is the base, each next one twice the last, both capped at the maximum, times the jitter factor |
| Retry.FailoverLlm.Complete | app/adapters/llm/failover.py:34-47 | the first provider that does not fail transiently decides; only if all do does the chain |
| LlmLedger.Run.Failover | app/adapters/llm/failover.py:34-47 | one pass ends with the first available provider's answer, and adds a row exactly if that answer was priced |
| LlmLedger.CallSucceedsExactlyWhen | app/graph/retry.py:46-63 | a call succeeds if and only if, in the first pass that finds a provider, the first available one answers |
| LlmLedger.Run.Call | app/graph/nodes.py:61-67 | the loop succeeds exactly then, and a success leaves exactly one row however many failures came before |
| LlmLedger.OnlyModelNodesSeeTheModel | app/graph/nodes.py:73-303 | the nodes counted as free of model calls give the same state and effects whatever the model would have answered |
| LlmLedger.CompletedRunRows | app/cost.py:69-84 | a run whose nodes all work incurs four rows on the confident path or one on the review path |
| LlmLedger.TotalModelCompletes | app/adapters/llm/failover.py:34-47 | if the last provider always answers and the others only answer or are unavailable, the run completes with exactly these rows, for every pattern of failures |
| LlmLedger.Run.Stream | app/jobs/worker.py:85-94 | the stream completes if and only if every node on its path works, and the ledger is exactly what its calls incurred |
| LlmLedger.Run.Drive | app/jobs/worker.py:85-98 | usage rows reach the database if and only if the run completes and nothing stops it before they are committed, and then all of them |
| LlmLedger.SpendInParts | app/cost.py:87-89 | spend is the sum of the row costs |
| LlmLedger.SpendRecordedExactlyWhen | app/jobs/worker.py:95-109 | recorded spend equals incurred spend if and only if the drive reaches the commit of its rows or nothing in its ledger was priced |
| LlmLedger.FailedRunLosesItsCost | app/adapters/llm/openai_compatible.py:69-77 | a paid classification followed by a malformed extraction is charged twice and recorded not at all |
| LlmLedger.CrashBeforePersistLosesCost | app/jobs/worker.py:95-98 | a crash between the final commit and the usage rows loses the cost of a completed run |
| Budget.UsageLog.AddLlmCalls | app/db/repository.py:107-127 | adds one row per usage, returns their total, and raises the spend of that day alone by it |
| Budget.SinceCoversToday | app/db/repository.py:129-140 | what the breaker reads is never less than today's spend, even if midnight passed since the clock was read |
| Budget.SinceAddsUpDays | app/db/repository.py:129-140 | the spend since a day is the sum of the spend of that day and of the days after it; earlier rows never matter |
| Budget.SelectsByToday | app/jobs/worker.py:164-180 | on every day, with no row dated ahead and the clock read that day, the degraded pipeline is selected if and only if the spend of that day alone has reached the cap |
| Budget.SelectsByYesterdayToo | app/jobs/worker.py:164-180 | if midnight passes after the clock was read, yesterday and today are added up |
| Budget.BreakerTripsExactlyWhen | app/jobs/worker.py:164-180 | in every reachable state the breaker trips if and only if the recorded spend of today has reached the cap |
| Budget.StepKeepsInv | app/jobs/worker.py:157-195 | each step keeps spend plus what real runs under way may still record within the bound |
| Budget.DailySpendBounded | app/jobs/worker.py:157-195 | with W drivers and at most C per run no day's spend exceeds max(cap - 1, 0) + W * C, across midnight too |
| Budget.NoCapNoSpend | app/jobs/worker.py:168-175 | a cap of zero or less lets no paid run start |
| Budget.BoundIsReached | app/jobs/worker.py:157-195 | the bound is exact: some history spends that much in one day |
| Budget.IncurredBounded | app/jobs/worker.py:95-109 | what a day really costs is at most that bound plus one full run for each failed or crashed run of the day |
| Budget.FailuresEvadeTheCap | app/jobs/worker.py:98 | nothing less holds: runs that fail after paid calls cost as much as one likes in a day on which nothing is recorded |
| RateLimit.RateLimiter.Check | app/security/rate_limit.py:27-41 | counts one request of one identity, answers as specified, leaves other identities alone, and lets through on store failures |
| RateLimit.FailsOpenExactlyWhen | app/security/rate_limit.py:27-41 | a request is let through because of the store if and only if a command it issues fails; otherwise it is answered as by a healthy store, which admits if and only if fewer than the limit were counted in the lifetime |
| RateLimit.WindowAdmitsLessThanTwice | app/security/rate_limit.py:27-41 | with requests in time order, any interval of one window length admits at most 2 * limit - 1 counted requests, whatever outages occur |
| RateLimit.BurstIsReached | app/security/rate_limit.py:30-34 | that bound is exact |
| RateLimit.LifetimeAdmitsLimit | app/security/rate_limit.py:30-36 | one lifetime of a counter admits at most its limit |
| RateLimit.LifetimeNotExtended | app/security/rate_limit.py:30-32 | requests during a lifetime, rejected ones included, never change its end |
| RateLimit.WaitingAsToldIsAdmitted | app/security/rate_limit.py:33-36 | the first request after the reported wait is admitted if and only if the counter has an expiry |
| RateLimit.ComingBackEarlyIsRejected | app/security/rate_limit.py:33-36 | coming back sooner than told is rejected, with the rest of the wait as answer |
| RateLimit.ExpiryLostExactlyWhen | app/security/rate_limit.py:30-32 | over any history a counter lacks an expiry if and only if the request that created it failed between the two commands |
| RateLimit.LockedOutExactlyWhen | app/security/rate_limit.py:30-36 | an identity is rejected for good if and only if its counter's creator failed so and the allowance is used |
| RateLimit.LostExpiryLocksOut | app/security/rate_limit.py:30-36 | a counter without expiry rejects every later request once its allowance is used |
| EvalMetrics.TagsAreComplete | evals/metrics.py:48 | the scored labels are exactly those expected or predicted somewhere |
| EvalMetrics.TagsAreDistinct | evals/metrics.py:48 | each label is scored once |
| EvalMetrics.ConfusionAddsUp | evals/metrics.py:52-56 | true positives total the correct answers, false positives and false negatives each the wrong ones, supports all |
| EvalMetrics.WeightedRecallIsAccuracy | evals/metrics.py:52-64 | recall weighted by support is accuracy |
| EvalMetrics.PrecisionIsShareOfPredicted | evals/metrics.py:57 | for every label: true positives are precision times the pairs predicted so, and precision is zero if and only if there is no true positive |
| EvalMetrics.RecallIsShareOfExpected | evals/metrics.py:58 | for every label: true positives are recall times the pairs expected so, and recall is zero if and only if there is no true positive |
| EvalMetrics.F1IsShare | evals/metrics.py:37-59 | for every occurring label F1 is twice the true positives over twice them plus the false positives and negatives |
| EvalMetrics.F1Bounded | evals/metrics.py:37-39 | F1 lies in [0,1] and is 1 exactly when precision and recall both are |
| EvalMetrics.MacroF1IsPerfectExactlyWhenAccuracyIs | evals/metrics.py:63-64 | macro-F1 lies in [0,1] and is 1 exactly when accuracy is 1 |
| EvalMetrics.MacroF1IsPlainMean | evals/metrics.py:48-63 | macro-F1 times the number of labels is the sum of the labels' F1, in whatever order the labels are listed |
| EvalMetrics.ClassificationReport | evals/metrics.py:42-64 | refuses exactly the empty list; otherwise the table has one entry per occurring label, with its precision, recall, F1 and support, and the averages are those the lemmas above are about |
| CostReport.MakeReport | app/api/routes_metrics.py:45-73 | each bucket of each index is the sum over the rows filed under its key, and no other key appears |
| CostReport.SumOneMore | app/api/routes_metrics.py:46-60 | each row adds one call and its own cost and tokens to the totals, column by column |
| CostReport.SlicesByColumn | app/api/routes_metrics.py:52-60 | the bucket of a named type, model or day is the cost of the rows with that value; rows without a type, or with an empty one, are in the bucket unknown |
| CostReport.IndexAddsUp | app/api/routes_metrics.py:52-60 | listed in any order, the buckets of an index add up to the plain sum in every column |
| CostReport.ReportedIndexAddsUp | app/api/routes_metrics.py:59-60 | the reported per-day and per-type costs total the overall cost |
| CostReport.ReportedModelsAddUp | app/api/routes_metrics.py:54-58 | the reported per-model columns total the plain sums, and their calls the number of rows |

## Left out

- The inline and streaming submit paths: they drive a request outside the queue, beside the protocol modelled here.
- LangGraph's builder and scheduler: the compiled graph is the function `PipelineGraph.Successor`.
- SQLAlchemy sessions and Redis internals: one repository call is one committed transaction, one queue method one
  atomic step (one Redis command one step in `RedisInterleaving`).
- Metrics, logging, tracing, correlation ids, signal handling, and the completion callback with its address checks.
- The blocking wait of a claim: an empty pending list answers at once.
- Clocks are integers handed in by the caller; ages and delays are not rounded.
- JobLifecycle.StepKeepsInv: one worker per request at a time is built into the state, because claims are assumed exclusive.
- AttemptBound.AttemptsAndClaimsBounded: needs one queue copy, no operator action, and failure handling, enqueue and ack in one step, because with two copies or a replay the counters are reset independently of each other.
- Termination.RestsWithinWork: no exception escapes the worker, because a job lost that way is open for ever; `JobLifecycle.NoLostWork` covers it.
- EffectHistory.EffectsEqualOneRun: uses the sandbox adapters, because the Slack webhook forgets its keys on restart and SMTP only repeats a Message-ID.
- Adapters.SandboxEmail.Send: the sandbox dictionaries live in the worker process and die with it; in the histories of crashes they stand for a store that keeps its keys across the crash, which is the contract the ports promise.
- EndToEnd.SettledMeansDoneOnce: one pipeline for all drives, because with several the effects need not be one run's; `SwitchedEffects` says what they are then.
- Adapters.SandboxTickets.CreateTicket: created tickets are kept with their key, which the original list does not store, so that one request's entries can be told apart; the same holds for the outbox and the notifications.
- Row fields that no branch reads back (channel, confidence, priority, cost) and message ids of receipts.
- ApiProcess.Api.SubmitBatch: its one commit is several submission steps in a row, because a crash before the commit leaves nothing behind.
- JiraRest.Find: with several labelled issues the first is returned, because the order of the server's answer is its own.
- JQL quoting, issue fields other than labels, and issues deleted or relabelled by people.
- Budget.DailySpendBounded: amounts are whole micro-dollars, because float summation is not the point; the bound with cap - 1 is the one with cap for real amounts.
- RateLimit.WaitingAsToldIsAdmitted: the store's lifetime is in whole seconds, because the code works in them; the store's own rounding of a remaining lifetime is not modelled.
- EvalMetrics.ClassificationReport: labels come in order of first appearance instead of sorted, because only the order of the table depends on it (`EvalMetrics.MacroF1IsPlainMean`); arithmetic is exact.
- Extraction scoring, price table, embeddings, request authentication, configuration checks: single expressions or wrappers.
- Prompt texts, JSON reading of model output, the reply gate's patterns and the knowledge search: arbitrary functions in `Nodes.Ports`.
