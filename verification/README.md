# HookRelay delivery pipeline: a Dafny model

HookRelay takes an event, fans it out to the endpoints subscribed to its type, retries
failed deliveries with growing delays and dead-letters what cannot be delivered. This
project models that pipeline and proves what it keeps under crashes, duplicates,
concurrent workers, several schedulers and relays, lost or reordered commits, and replays.

`dafny verify dfyconfig.toml` checks everything.

## What is modelled

There are two layers, and proofs that tie them together.

**The step system** (`Protocol.dfy`). Durable state is the Postgres tables (endpoints,
events, outbox, attempts, DLQ), the pending topic with one committed position per
partition, and the Redis retry store. Volatile state is each partition's committer and
running tasks, the schedulers between publish and cancel, and the relay transactions. A
step is one durable write or one read of the code, in the order of the code; everything
volatile may vanish between any two steps. Any number of tasks, schedulers and relays
interleave freely. `Leads(s, acts, t)` says that the steps `acts` lead from `s` to `t`, and
`Reachable` that some run from an initial state does.

| step | code |
|---|---|
| `Ingest` | src/hookrelay/api/routers/events.py:22-50 |
| `Publish`, `DeleteDlq` (a replay or manual retry is one of each, at any distance) | src/hookrelay/api/routers/events.py:117-128, src/hookrelay/api/routers/dlq.py:33-62 |
| `SetEndpoint`, `DeleteEndpoint` | src/hookrelay/api/routers/endpoints.py:20-67 |
| `Lock`, `Send`, `CommitRows`, `Abort` | src/hookrelay/worker/outbox.py:31-57 |
| `Poll`, `Republish`, `Cancel` | src/hookrelay/worker/scheduler.py:31-43 |
| `Resolve` | src/hookrelay/worker/delivery.py:204-233 |
| `Check`, `Post`, `Insert`, `Schedule` | src/hookrelay/worker/delivery.py:87-195 |
| `Bury`, `Unschedule` | src/hookrelay/worker/dlq.py:37-53 |
| `Finish`, `Fail` | src/hookrelay/worker/delivery.py:268-301 |
| `Fetch` | src/hookrelay/worker/delivery.py:310-321 |
| `Arrive`, `Lose` (a commit request reaches the broker, late or never) | src/hookrelay/kafka/consumer.py:56-63 |
| `Restart` (a process dies, its tasks are gone, the broker fences its commits) | src/hookrelay/worker/delivery.py:262-266 |

The fields of `History` are ghost histories that no step reads. `Deeds.HistoriesAreTrue`,
`Counts.CountsAreTrue` and `Subscriptions.DisturbedMeansTouched` prove that they say exactly
what the steps of the run did, and the main results are restated about the run alone. `Hazards` shows
that no step the code can take is missing: any task, relay, scheduler, process or request can
fail or be late in any reachable state, no task waits for another, and any call can come.

**The code form.** Classes whose methods update their fields like the code does:
`PartitionWatermark`, `Loop` (the consume loop with its semaphore), `Worker`
(`_deliver_to_endpoint`, `_process_record`, `move_to_dlq`), `RedisRetryScheduler` with the
loop of `run_scheduler`, and `EventStore` with `ingest_event` and `_relay_batch`. Each
method is proved against a function of the old state, and laws are proved of that function.
`WorkerRuns.RecordRun` shows that what the worker's code computes for a record is what the
uninterrupted steps of its task lead to; `Driving` builds runs from any state with it.

Inputs from outside are arbitrary: the outcome of every POST (a status code, a status whose
body cannot be read, a timeout, a transport error), which task ends next, clocks, jitter,
the order in which a query returns rows, and whether a best-effort call goes through.

A *clean* run has no crash, no failure, no rollback, no replay, no change of endpoints and
one scheduler; commit requests may still be lost. A state is *drained* when the retry store
and the outbox are empty and every record is behind the start of its epoch or finished.

## What is false of the code, and what holds instead

- A 2xx does not always leave a success row: the insert is dropped when the attempt number
  already has one. `Recording.SuccessIsRecordedIff` gives the exact condition on a run.
- A replay starts again at attempt 0, and whatever was dead-lettered has a row 0, so the
  result of a replay is never recorded at that attempt (`Recording.ReplayIsNotRecorded`),
  and after a successful replay `get_event` can say `retrying` with nothing left to retry
  (`Boundaries.ReplayedSuccessStaysRetrying`).
- A pair can end with a success row and a DLQ row, even with one worker that takes one
  record at a time (`Boundaries.BothVerdicts`). `BothRows.BothIff` says exactly from which
  reachable states some run that does not remove the DLQ row gets there: a dead letter
  still can exactly if an attempt number is free, an answered pair exactly if a task for it
  stands past the check where it can still give up, a pair with neither row exactly if a
  number is free. In clean runs it never happens (`CleanTheorems.NotBoth`).
- `get_event` can say that something is being retried when nothing is left to do. It does so
  exactly if some endpoint of the event has a row, no recorded 2xx, and no dead letter that
  was not removed again (`StatusAtRest.StatusSaysRetrying`); at rest that endpoint was
  answered, dead-lettered or dropped all the same (`StatusAtRest.RetryingAtRest`).
- A replay can be lost in two ways. If its message is taken up between the publication and
  the removal of the DLQ row and the delivery gives up, the insert of the DLQ row conflicts
  with the row that is about to go. So with other steps in between, the replay of a dead
  letter with nothing else under way is served by every run exactly if the pair has a success
  row (`ReplayCalls.SpreadReplayIsServedIff`). And a late cancel may remove the retry that
  the replay has just scheduled under the same attempt number (`Boundaries.ReplayLost`). So
  with publication and removal next to each other, the replay is served by every run
  exactly if the state before the call is *calm* for the pair: unless it has a success row,
  no DLQ handler of a retry of it stands before its cancel, and a scheduler between publish
  and cancel of a retry of it has published a record no worker has taken up
  (`ReplayCalls.ReplayAtOnceIsServedIff`). As long as nobody deletes the pair's DLQ row the
  verdict stays in the tables in any case (`Deeds.EveryTargetIsInTheTables`).

Where documentation and code disagree the model follows the code: the member key has three
parts (src/hookrelay/worker/retry.py:128-129), not the two of the class comment and the
repository's README.md; the idempotency check suppresses a duplicate only if the success row
is committed before the check, not any duplicate (src/hookrelay/worker/delivery.py:87-102
and 149-165 are separate transactions); and the workers never write `events.status`.

## Model

| member | source | states |
|---|---|---|
| Watermarks.PartitionWatermark.Start | src/hookrelay/worker/delivery.py:44-47 | the offset is in flight, the last seen one is the larger |
| Watermarks.PartitionWatermark.Done | src/hookrelay/worker/delivery.py:49-56 | the new state and the offset to commit, or none; the laws are the next four rows |
| Watermarks.StartRefines | src/hookrelay/worker/delivery.py:44-47 | a start in offset order keeps the object a representation of "offsets from `first` to `next`, those in `done` finished" |
| Watermarks.DoneRefines | src/hookrelay/worker/delivery.py:49-56 | a finish keeps it; the returned offset is the end of the longest finished prefix, and none is returned exactly when that prefix did not grow |
| Watermarks.IdleIsCommitted | src/hookrelay/worker/delivery.py:49-56 | nothing in flight: the last committed offset is the last seen one |
| Watermarks.WatermarkRefinesPrefix | src/hookrelay/worker/delivery.py:33-56 | over any interleaving of starts in order and finishes in any order: commit requests strictly increase and the last one is the longest completed prefix |
| DeliveryLoop.DispatchKeeps | src/hookrelay/worker/delivery.py:318-321 | permits plus running tasks equal the concurrency limit and the in-flight sets are the running and failed records, kept by taking a record |
| DeliveryLoop.SettleKeeps | src/hookrelay/worker/delivery.py:268-301 | the same kept by the end of a task, advancing or not; an offset to commit covers only finished records |
| DeliveryLoop.Loop.Dispatch | src/hookrelay/worker/delivery.py:318-321 | the method takes a permit, starts the offset on the partition's own committer and adds the task |
| DeliveryLoop.Loop.Settle | src/hookrelay/worker/delivery.py:268-301 | a processed or poison record reaches the committer, a failed or cancelled one does not; a commit request is made exactly if the committer moved, to where it moved, and covers no unfinished record; only a failure sets the fatal flag |
| DeliveryLoop.Loop.TasksEnd | src/hookrelay/worker/delivery.py:268-301 | while the loop waits, any number of tasks end in any way; the balance holds; the commit requests made cover only finished records, and per partition the last one is what the committer takes for committed, or there is none and it has not moved |
| DeliveryLoop.Loop.GetMany | src/hookrelay/worker/delivery.py:311-315 | a fetch begins only while the fatal flag is not set; tasks may end, and fail, before it is over, and no request they cause is dropped |
| DeliveryLoop.Loop.AwaitPermit | src/hookrelay/worker/delivery.py:319-319 | the loop waits until a permit is free; whatever number of tasks ends meanwhile, the balance holds and no request is dropped |
| DeliveryLoop.Loop.RunBatch | src/hookrelay/worker/delivery.py:313-321 | every record of a fetched batch is launched once, whatever tasks end meanwhile and whether one fails or not; its commit requests cover only finished records among all launched in the end, and end per partition where the committer stands |
| DeliveryLoop.Loop.Run | src/hookrelay/worker/delivery.py:310-321 | no fetch begins once the fatal flag is set, and the loop ends early only then; the commit requests of the whole run cover only finished records and end per partition where the committer stands; a loop that starts afresh and ends without failure and without a task has requested an offset at or above each record it launched |
| Safety.StepPreserves | src/hookrelay/worker/delivery.py:72-301 | the inductive invariant is kept by each of the steps of every component |
| Safety.CommitSafety | src/hookrelay/worker/delivery.py:268-301 | with commits lost, late or repeated and any restarts, each offset below the broker's position was finished by a task of the run |
| CommitProgress.RequestsGoUp | src/hookrelay/worker/delivery.py:49-56 | in every reachable state a new commit request of a partition asks for more than all those still under way |
| CommitProgress.CommitsCatchUp | src/hookrelay/kafka/consumer.py:56-63 | from where a partition's consumer begins, at the start or after any crash, over every run in which that partition has no failure, no restart and no lost or overtaken request: with no task and no request under way, the broker's position is the next offset to fetch |
| CommitProgress.SmoothRunsCommitAll | src/hookrelay/worker/delivery.py:292-301 | so over a whole run from an initial state in every partition |
| CommitProgress.NothingIsFetchedAgain | src/hookrelay/worker/delivery.py:33-39 | after such a state and a restart no task ever works on a record fetched before, whatever follows |
| CommitProgress.CleanRunsCommitEverything | src/hookrelay/worker/delivery.py:292-301 | a clean run without lost or overtaken requests that cannot go on has committed every partition up to the log end |
| Hazards.AnythingCanFail | src/hookrelay/worker/delivery.py:284-289 | in every reachable state each task, relay, scheduler and partition can fail, each commit request be lost or arrive at any time with its position taken as it is, each POST have any outcome, and no failure changes anything durable |
| ForeignKeys.RowsReferToWhatExists | src/hookrelay/api/routers/endpoints.py:57-67 | in every reachable state the rows of both result tables and of the outbox refer to existing events and endpoints, and every well-formed record of the topic to an existing event, so the branch for orphans is never taken |
| Hazards.NobodyWaits | src/hookrelay/worker/delivery.py:247-257 | in every reachable state each task can take its next step whatever the others do, with any outcome of its POST, and a record that is there can be fetched |
| Safety.RetryHandOff | src/hookrelay/worker/scheduler.py:31-43 | an attempt ever scheduled is in the retry store or its message is in the topic, for any schedulers, workers and DLQ cancels, and its number is between 1 and the limit |
| Safety.OutboxConservation | src/hookrelay/worker/outbox.py:31-57 | each event has an outbox row or a message; relays hold disjoint rows; an event is published at most once more than its batches were rolled back |
| Counts.CountsAreTrue | src/hookrelay/worker/delivery.py:114-135 | the numbers of POSTs of an attempt, publications of an outbox row and rollbacks of batches with it that a state remembers are the numbers of such steps of the run |
| Counts.PublishedOnceAndPerRollback | src/hookrelay/worker/outbox.py:45-57 | so any run publishes an outbox row at most once more than it rolls back a batch with it |
| Safety.AuditTrail | src/hookrelay/worker/delivery.py:149-195 | an attempt row implies all lower-numbered rows of the pair and lies below the limit |
| Safety.AtMostMaxRows | src/hookrelay/db/models.py:67-69 | a pair never has more rows than `max_retry_attempts` |
| NoLoss.NothingIsLost | src/hookrelay/worker/delivery.py:72-244 | in a drained reachable state every pair ever resolved or scheduled was answered, dead-lettered or dropped, by induction on the attempts left |
| NoLoss.EveryEventIsFannedOut | src/hookrelay/worker/outbox.py:31-57 | in a drained reachable state every ingested event was fanned out |
| NoLoss.StableEndpointGetsEveryEvent | src/hookrelay/worker/delivery.py:218-229 | an enabled endpoint nobody changed, whose event types contain the type of an event, got a 2xx answered or a dead letter for it |
| Subscriptions.ResolvedExactly | src/hookrelay/worker/delivery.py:218-229 | a fan-out is resolved to exactly the enabled endpoints whose event types contain the type of the event, a retry to its own endpoint exactly if that is there and enabled |
| Subscriptions.UnsubscribedIsSpared | src/hookrelay/worker/delivery.py:222-227 | an endpoint that is disabled or not subscribed to an event's type, and was not edited since before the event came in, is never POSTed to, scheduled or recorded for it, in any run |
| Subscriptions.UntouchedEndpointIsSpared | src/hookrelay/worker/delivery.py:222-227 | an endpoint nobody edited is only ever POSTed to for events whose type it subscribed to |
| Deeds.HistoriesAreTrue | src/hookrelay/worker/delivery.py:114-135 | a pair is noted as answered exactly if a step of the run POSTed for it and got a 2xx; likewise dead letters; a dropped one was no target when resolved |
| Subscriptions.DisturbedMeansTouched | src/hookrelay/api/routers/endpoints.py:20-67 | an endpoint counts as touched exactly if a call of the run created, updated or deleted it |
| Deeds.EveryTargetIsServed | src/hookrelay/worker/delivery.py:72-244 | no loss about the run alone: a target some step resolved was answered, dead-lettered or dropped by some step before all is drained |
| Deeds.EveryTargetIsInTheTables | src/hookrelay/worker/dlq.py:37-47 | if nobody removes its DLQ row, a target neither answered nor dropped is in the DLQ table when all is drained |
| Obligations.CalmReplayIsServed | src/hookrelay/worker/dlq.py:37-53 | from any reachable state calm for the pair, after the removal of its DLQ row or with it, a record about the pair that no worker has taken up is answered, dropped or leaves a DLQ or success row by the time nothing is left to do for the pair, if nobody removes the DLQ row from then on |
| Absorb.LateDeliveryDoesNothing | src/hookrelay/worker/delivery.py:87-102 | once a pair has a success row, a task that is not past the check never does anything for it, in any run without deletion of the endpoint |
| Absorb.SuccessAbsorbs | src/hookrelay/worker/delivery.py:87-165 | over any run without deletion of the endpoint: its rows stay, the tasks past the check only get fewer, and with none there is no POST, row, dead letter or retry for the pair |
| SuccessLast.SuccessRowIsLast | src/hookrelay/worker/delivery.py:87-168 | in every reachable state, for any concurrency, a pair has at most one success row and no row with a higher number |
| Recording.SuccessIsRecordedIff | src/hookrelay/worker/delivery.py:149-165 | a run leaves a success row exactly if it inserts a 2xx under an attempt number without a row |
| Recording.ReplayIsNotRecorded | src/hookrelay/api/routers/dlq.py:33-52 | the result of a replayed delivery of a pair ever dead-lettered changes no table |
| Boundaries.ReplayedSuccessStaysRetrying | src/hookrelay/api/routers/dlq.py:33-52 | a run in which a replay gets a 2xx, all is drained and the derived status is `retrying` |
| BothRows.BothFromDeadLetter | src/hookrelay/worker/delivery.py:149-165 | from a reachable state with a DLQ row and no success row some run that keeps the DLQ row gets both exactly if an attempt number below the limit has no row |
| BothRows.BothFromSuccess | src/hookrelay/worker/delivery.py:167-180 | from one with a success row and no DLQ row exactly if a task for the pair is at its POST, at its dead-lettering, or at the insert of an outcome that gives up |
| BothRows.BothIff | src/hookrelay/worker/delivery.py:87-195 | all cases: exactly if there is a success row or a free number, and a DLQ row, such a task, or no success row |
| Boundaries.BothVerdicts | src/hookrelay/worker/delivery.py:167-195 | a run of one worker, one record at a time, with one crash, after which the pair has a success row and a DLQ row |
| LostReplays.NotCalmLoses | src/hookrelay/worker/dlq.py:37-53 | from any reachable state that is not calm for a pair with a fresh replay and nothing else under way, for any limit and any attempt number of the late cancel, some run leaves the pair with nothing left to do and no verdict, without a call of the API if the endpoint is a target |
| LostReplays.ReplayIsServedIff | src/hookrelay/worker/dlq.py:37-53 | on those states, which follow the removal of the DLQ row, every run serves the published replay exactly if the state is calm |
| ReplayCalls.ReplayAtOnceIsServedIff | src/hookrelay/api/routers/dlq.py:43-48 | publication and removal next to each other: from a reachable state with a DLQ row and at most one DLQ handler under way for the pair, every run serves the replay exactly if that state is calm |
| ReplayCalls.SpreadReplayIsServedIff | src/hookrelay/api/routers/events.py:123-126 | publication and removal at any distance: from a reachable state with a DLQ row and nothing else under way for the pair, every run serves the replay exactly if the pair has a success row |
| Boundaries.ReplayLost | src/hookrelay/worker/dlq.py:37-53 | a run into such a state, and from there, with no DLQ row removed, into one where all is drained, the endpoint is untouched and the pair has neither a 2xx nor a DLQ row |
| CleanTheorems.CleanRunsTerminate | src/hookrelay/worker/delivery.py:167-195 | a clean run has at most 12 E + 24 E P M steps besides ingestions, for E events, P endpoints and M attempts |
| CleanTheorems.EveryAttemptPostsOnce | src/hookrelay/worker/delivery.py:104-135 | in a clean run each (event, endpoint, attempt) is POSTed at most once, only for targets and below the limit |
| Counts.PostedOnce | src/hookrelay/worker/delivery.py:104-135 | the same counted on the steps of the run |
| CleanTheorems.CleanRunsGoOn | src/hookrelay/worker/delivery.py:310-321 | a clean run can go on as long as a record, retry, outbox row or task is left |
| CleanTheorems.NotBoth | src/hookrelay/worker/delivery.py:167-195 | at no point of a clean run has a pair both a success row and a DLQ row |
| CleanTheorems.ExactlyOneVerdict | src/hookrelay/worker/delivery.py:167-195 | when a clean run cannot go on each target has exactly one of the two, and no other pair has any row |
| EventStatus.GroupByMeans | src/hookrelay/api/routers/events.py:66-79 | the grouped aggregate says per endpoint exactly whether there is a success row and whether there is a DLQ row |
| EventStatus.CountsPartition | src/hookrelay/api/routers/events.py:61-65 | the three counts are the sizes of three classes that partition the endpoints with rows; a success overrides the rest |
| EventStatus.OnlyMembershipMatters | src/hookrelay/api/routers/events.py:61-98 | order and multiplicity of rows do not change the status |
| EventStatus.StatusMeans | src/hookrelay/api/routers/events.py:85-98 | which classes are non-empty decides the status, both ways, for each of the six values |
| EventStatus.PendingMeansNoRows | src/hookrelay/api/routers/events.py:87-88 | `pending` exactly when there is no row |
| TerminalStatus.AnsweredIffRow | src/hookrelay/worker/delivery.py:149-168 | at the end of a clean run a pair has a success row exactly if the run got a 2xx for it |
| TerminalStatus.StatusAtTheEnd | src/hookrelay/api/routers/events.py:59-98 | at the end of a clean run never `retrying` or `partially_retrying`; `pending` iff no target; `delivered` iff some target and a 2xx from each; `dlq` iff some target and all dead-lettered |
| StatusAtRest.RetryingAtRest | src/hookrelay/api/routers/events.py:66-79 | unless it is deleted, an endpoint counts as retrying exactly if it has a row, the run recorded no 2xx for it, and every dead-lettering was followed by a removal; when all is drained it was then answered, dead-lettered or dropped |
| StatusAtRest.StatusSaysRetrying | src/hookrelay/api/routers/events.py:85-98 | so the status of an event is `retrying` or `partially_retrying` exactly if some endpoint is left like that |
| StatusAtRest.RetryingUndisturbed | src/hookrelay/api/routers/events.py:66-79 | at rest, without edits of the endpoint and removal of the DLQ row, exactly if the run got a 2xx from it that it never recorded and never dead-lettered the pair |
| DeliveryWorker.Worker.PriorSuccess | src/hookrelay/worker/delivery.py:87-102 | true exactly if some attempt of the pair has a success row |
| DeliveryWorker.Worker.MoveToDlq | src/hookrelay/worker/dlq.py:37-53 | the pair is in the DLQ and, if the cancel goes through, this attempt's entry is gone |
| DeliveryWorker.Worker.DeliverToEndpoint | src/hookrelay/worker/delivery.py:72-195 | with a success row nothing happens; otherwise one POST, its row unless the number is taken, success exactly for a read status of 200 to 299 and `timeout` exactly for a timeout; without success a status of 400 to 499 other than 429 or the last attempt goes to the DLQ, and anything else schedules the next attempt |
| DeliveryWorker.Worker.SelectTargets | src/hookrelay/worker/delivery.py:212-229 | a fan-out selects exactly the enabled endpoints whose event types contain the type of the event, a retry its own endpoint exactly if that is there and enabled, each once |
| DeliveryWorker.Worker.ProcessRecord | src/hookrelay/worker/delivery.py:198-244 | poison and orphans have no effect; any other record has the effects of delivering to each target in turn |
| WorkerLaws.RecordPairByPair | src/hookrelay/worker/delivery.py:236-244 | a record does to each target what a delivery to it alone would, and to other pairs nothing |
| WorkerLaws.OrderDoesNotMatter | src/hookrelay/worker/delivery.py:222-229 | the order in which the query returns the targets makes no difference to any effect |
| WorkerLaws.RecordVerdicts | src/hookrelay/worker/delivery.py:149-195 | each target without success row is POSTed to once and has a row; its status code decides whether it counts as answered, goes to the DLQ or has the next attempt scheduled, and it then has a success row exactly if it answered with a 2xx under a free number |
| WorkerLaws.RedeliveryIsSilent | src/hookrelay/worker/delivery.py:87-102 | a record whose targets all have success rows has no effect |
| WorkerRuns.DeliverRun | src/hookrelay/worker/delivery.py:72-195 | the uninterrupted steps of a delivery have exactly the effects the code form computes, in every branch |
| WorkerRuns.RecordRun | src/hookrelay/worker/delivery.py:198-244 | so do the steps of a whole record, from resolving it to telling the committer, and they touch nothing else |
| RetryStore.ScheduleEntries | src/hookrelay/worker/retry.py:131-144 | writing both structures sets one attempt of the map they stand for and keeps payloads true to their members |
| RetryStore.CancelEntries | src/hookrelay/worker/retry.py:160-165 | removing a member from both removes that attempt and no other |
| RetryStore.StoreRefinesMap | src/hookrelay/worker/retry.py:74-165 | after any history of schedules and cancels, sorted set and hash have the same members, each payload prints to its own member, and together they are one map from attempts to due times |
| RetryStore.RedisRetryScheduler.Schedule | src/hookrelay/worker/retry.py:131-144 | both structures after the call, and the attempt's due time |
| RetryStore.RedisRetryScheduler.Cancel | src/hookrelay/worker/retry.py:160-165 | both structures after the call, without exactly this attempt |
| RetryStore.RedisRetryScheduler.RangeByScore | src/hookrelay/worker/retry.py:80-81 | the lowest-scored due members, at most the limit, in order |
| RetryStore.RedisRetryScheduler.PollDue | src/hookrelay/worker/retry.py:146-158 | the payloads that parse of the at most 100 earliest due members, in order; exactly the members among them without payload leave the set, and none does if the store is consistent |
| SchedulerLoop.Republish | src/hookrelay/worker/scheduler.py:34-43 | exactly the messages that name an attempt are appended to the topic, in order, and exactly their entries leave both structures |
| SchedulerLoop.Tick | src/hookrelay/worker/scheduler.py:31-51 | one pass moves the earliest due entries, at most 100, earliest first, from store to topic, each once |
| SchedulerLoop.DueShrinks | src/hookrelay/worker/scheduler.py:34-43 | what moved leaves the due set smaller by exactly its number |
| SchedulerLoop.RunScheduler | src/hookrelay/worker/scheduler.py:31-51 | at a fixed time d due entries are down to max(0, d - 100 t) after t passes, each published exactly once |
| SchedulerLoop.DrainedMeansPublished | src/hookrelay/worker/scheduler.py:33-43 | once nothing is due every attempt that was due is among the published ones |
| OutboxRelay.EventStore.Ingest | src/hookrelay/api/routers/events.py:22-50 | a taken idempotency key returns its event and writes nothing; otherwise event and outbox row are written together |
| OutboxRelay.EventStore.RelayBatch | src/hookrelay/worker/outbox.py:31-57 | the 100 oldest rows no other transaction holds, or all of them, go to the topic in order and are deleted; a failing publish restores every row but leaves what was published |
| OutboxRelay.OverlappingRelays | src/hookrelay/worker/outbox.py:34-41 | a relay that runs while another holds its rows shares no event with it, and together they take the 200 oldest, or all |
| OutboxRelay.OldestTwice | src/hookrelay/worker/outbox.py:34-41 | two passes publish oldest first over both, no event twice |
| OutboxRelay.RunOutboxRelay | src/hookrelay/worker/outbox.py:20-28 | without failures n rows are down to max(0, n - 100 p) after p passes, published once each, oldest first |
| IngestOnce.OneEventPerKey | src/hookrelay/db/models.py:39-39 | in every reachable state an idempotency key has at most one event |
| Backoff.CapFrom14 | src/hookrelay/worker/retry.py:25-33 | the un-jittered delay is 2^n up to 13 and four hours from 14 on |
| Backoff.TotalIsNominalPlusJitter | src/hookrelay/worker/retry.py:25-33 | the delays of attempts 1 to k sum to 2^(k+1) - 2, or 16382 + 14400 (k - 13) above 13, plus the draws |
| Backoff.WindowBounds | src/hookrelay/worker/retry.py:25-33 | with draws in [0, 1] the sum exceeds its closed form by at most k seconds |
| Backoff.DefaultWindow | src/hookrelay/worker/retry.py:25-33 | the 14 delays of 15 attempts take between 8.55 and 8.56 hours |
| Backoff.DelaysDoNotShrink | src/hookrelay/worker/retry.py:25-33 | below attempt 14 no draw makes the next delay shorter |
| MemberKeys.UuidReads | src/hookrelay/worker/retry.py:128-129 | the text of an identifier is its number in 32 lower-case hexadecimal digits, most significant first, grouped 8-4-4-4-12 (section 4 of RFC 9562) |
| MemberKeys.MemberReads | src/hookrelay/worker/retry.py:128-129 | a member key reads back as event, endpoint and attempt, in this order |
| MemberKeys.UuidTextInjective | src/hookrelay/worker/retry.py:128-129 | the canonical text of an identifier determines it (section 4 of RFC 9562) |
| MemberKeys.MemberInjective | src/hookrelay/worker/retry.py:128-129 | distinct (event, endpoint, attempt) triples print to distinct member keys |
| MemberKeys.MemberColons | src/hookrelay/worker/retry.py:128-129 | the only colons of a member key are the two separators |

## Left out

- HTTP, TLS, JSON text, the HMAC signature, truncation of responses and latencies: a POST is its outcome.
- The stored column `events.status`: the workers never write it and `get_event` does not commit what it derives.
- Kafka rebalances within a process, and a crash of a whole process as one event: partitions, schedulers and relays
  crash one by one, which includes crashing together.
- The notification on the DLQ topic, metrics, the lag reporter, authentication, schemas, migrations, dashboards.
- The time an entry becomes due is not part of the step system, where any retry entry may be polled at any time; it is
  part of the code form of the store.
- The order by `created_at` of the outbox is not part of the step system, where a relay may lock any free rows; it is
  part of the code form of the relay.
- Rounding and overflow of floating point in the delays: they are reals.
- Reuse of an endpoint's identifier after its deletion: identifiers are generated and never come back.
- The order of members with equal scores and of rows with equal times is open.
- SchedulerLoop.RunScheduler: the loop is cut after a given number of passes, time stands still, and the store is
  consistent to begin with, as `RetryStore.StoreRefinesMap` shows it always is.
- OutboxRelay.RunOutboxRelay: the loop is cut after a given number of passes, and no other relay holds a lock.
- DeliveryLoop.Loop.Run: the loop is cut after the given batches; the cancellation of tasks at its exit is the verdict
  `Cancelled` of `Settle` and the step `Fail`.
- NoLoss.NothingIsLost: a pair counts as dead-lettered once it ever was, also after an operator deleted or replayed the
  DLQ row; `Deeds.EveryTargetIsInTheTables`, `Obligations.CalmReplayIsServed` and `Boundaries.ReplayLost` say what
  this means for the tables and for replays.
- Obligations.CalmReplayIsServed: the converse is `ReplayCalls.ReplayAtOnceIsServedIff`, for a pair with no other
  record or retry under way; with another one, that one may serve the pair although the replay is lost.
- Commit requests of a process that died: the broker rejects a commit of an earlier group generation, so a restart
  drops them. The clients' group protocol itself is not part of this model.
