# Verification of the notification delivery engine

A Dafny model of the notification service: ingestion of events, fan-out over channels, the Redis priority
queue, the workers and their dispatches, the RabbitMQ retry path, the manual retry and the dead-letter queue.
`dafny verify dfyconfig.toml` checks it.

## How the model is built

The engine is modelled twice, and the two are tied together.

- **As a transition system** (`Engine`). The state holds the notifications table, the sorted set, the retry
  queue, the retry-result queue, the dead-letter queue and any number of concurrent tasks (creators, workers,
  retry handlers), each with a program counter. An action is what happens between two `await` points: create
  a row, enqueue, pop, one step of a dispatch, expire, take, read, acknowledge, redeliver, bury, read for
  a manual retry, commit it; or a fault: `Drop` (whatever a task carries is lost: an exception, a crash, an enqueue or a publish
  that returns False) and `PopLost` (popped in Redis, the reply lost). Providers, clocks and random draws are
  inputs of the steps. A dispatch is a little machine of its own (`Dispatch.Step`): it reads the row once,
  works on that snapshot and commits at several points, as the program does, so lost updates and double
  sends are expressible.
- **As classes** (`Repository`, `Queues`, `DispatchServices`, `Managers`, `Handlers`, `Workers`), statement by
  statement as the program is written, each method proved against a function of its inputs and the old state.
  `DispatchServices.DispatchIsTheAtomicAction` and `Dispatch.StepsMakeOneDispatch` connect the method `Dispatch`,
  the function `DispatchOnce`, the steps and the action of the engine.

An id's *token* is its occurrence in the sorted set, in a task's hands, in the retry queue or in the
retry-result queue. Dispatch never looks at a row's status before it sends, so everything rests on how many
tokens an id has. Beside each row the model keeps a history (health checks, answers, outcomes, delays, manual
retries, retry-count increments that stale manual retries lost) that no step reads; `Dispatch.HistoryOnlyRecords` proves so for a whole dispatch.

`Whole` joins ingestion and engine. Beside the engine stand `Sends` and `Attainment` (how often a row can be sent at
all), `Rest` (the engine comes to rest), `Turns` (first come, first served), `Letters` (which rows are reported dead),
`Outcomes` (one dispatch in the provider's numbers and the retry table's entries), `Shutdown` (the pool of worker loops,
its flag and `stop`), and three smaller models: `Ingest` (the Redis key over the UNIQUE column, with concurrent
deliveries, aborts and vanishing keys), `SortedQueue` (scores and queue operations) and `RetryQueue` (one queue, mixed
times to live, in time; `RetryTimes` feeds it what the engine publishes).

## What the results assume

- A manual retry reads the row and commits in two actions; between them anything can happen, and at the commit
  nothing is checked. The retry count it writes is the one it read, plus one.
- *Disciplined runs* (`Exclusivity.Disciplined`) obey two rules: a manual retry reads only a row that has no token and
  commits only if row and token are still as they were read, and no retry message is redelivered after its enqueue.
  An operator can keep them: `Safety.Careful` runs retry only FAILED rows by hand, one retry of a row at a time, and
  have no such redelivery, and every careful run is disciplined (`Safety.CarefulIsDisciplined`). "Disciplined
  continuation" below means that the rules go on being obeyed.
- What happens without the rules is settled too, in every state the program can reach. Each token that can still
  reach the provider is worth exactly one accepted send (`Sends.PotentialIsALimit`, `Attainment.PotentialIsReached`), so
  a row is accepted at most 1 + manual retries + late redeliveries times (`Sends.SendsAreBounded`). The commit of
  a manual retry, at whatever moment it comes, and a late redelivery open the way to a second accepted send if and
  only if there was one, or a chance of one, at that moment (`Attainment.OneMoreChance`). Where ids are exclusive that
  means for both: always if the row is SENT, never if it is FAILED, and if it is PENDING or RETRYING unless its
  token was lost (`Attainment.ManualRetrySendsTwiceIff`, `Attainment.LateRedeliverySendsTwiceIff`).
  Reaching the limit takes one free task and a provider for the channel.
- The laws in `Accounting` and `Isolation` need neither rule; there a dispatch is one action.
- RabbitMQ releases retry messages at the head of the queue only, and as soon as the head has expired.
- BZPOPMIN pops a lowest score; which one among equal scores is left open.
- Providers never raise, as their base class demands.

## Where the code and its documentation disagree

The model follows the code. The documentation's claims that do not hold as they stand, with what does:

- *"No notification must ever be lost even if service crashes mid-processing"* (README.md:44). A worker that dies between its
  QUEUED commit and its outcome commit strands the row: no disciplined continuation changes it again, and the
  manual retry refuses it (`Witness.WorkerDeathLosesANotification`, `Witness.WorkerDeathStrandsForever`). A row has no
  outcome exactly when its token is somewhere or was dropped by a fault (`Safety.NoSilentLoss`), and the losses
  beyond repair are exactly those in that stretch (`Safety.LossesBeyondRepair`).
- *"Never be sent twice for the same event"* (README.md:45). True of careful runs
  (`Safety.NeverSentTwiceWhenCareful`). Three inputs make it false, each without a token lost: a manual retry of a
  RETRYING row, which the code admits (`Witness.ManualRetryOfRetryingSendsTwice`); two manual retries of one FAILED
  row that overlap, the second committing over the SENT row (`Witness.OverlappingRetriesSendTwice`); and a retry
  handler that dies between its enqueue and its acknowledgement, so that RabbitMQ delivers the message again
  (`Witness.LateRedeliverySendsTwice`). The exact conditions are those named above.
- *Both idempotency layers "guarantee exactly-once delivery regardless of network retries, RabbitMQ redelivery, or
  consumer crashes"* (README.md:145). For new events: at most one row per producer key and channel, always
  (`Ingest.AtMostOneRow`); but a creator that dies after SETNX leaves channels without a row, and redeliveries are
  dropped as duplicates while Redis keeps the key (`Ingest.RepairNeedsForgetting`, `Ingest.ForgettingRepairs`). The
  rows at rest are exactly the wanted ones less what aborts left behind (`Ingest.RowsAreTheIdeal`), and without aborts,
  dropped tokens and breaches of the rules each of them ends SENT once or FAILED (`Whole.EveryDeliveryIsSettled`). For retry messages
  see the previous item: a redelivery is harmless if the id is still queued (`Safety.EarlyRedeliveryIsHarmless`).
- *"Route permanently failed notifications to Dead Letter Queue"* (README.md:34). Only those that ran out of retries; a
  refusal with INVALID_RECIPIENT or INVALID_TOKEN and a channel without a provider fail without a letter
  (`Letters.ExhaustedRowsAreReported`, `Outcomes.ReplyDecides`, `Outcomes.NobodyToSend`).
- *A retry "fires precisely when delay expires"* (README.md:342). Exactly when no message ahead of it has a later
  deadline (`RetryQueue.FiresOnTimeIff`); `RetryQueue.HeadOfLineBlocking` is a counterexample of 119 seconds instead of 5.
- *"Zero chance of priority collision with any real timestamp value"* (README.md:358). No two enqueues less than
  10^12 ms (31.7 years) apart collide; in general two priorities collide exactly
  at 10^12 ms per priority step, as the timestamps 2 700 000 000 000 (July 2055, CRITICAL) and 1 700 000 000 000
  (November 2023, HIGH) do (`SortedQueue.CollisionsExist`).
- *Retry windows with "no overlap between levels"* (README.md:299). Adjacent windows share one point, because both
  ends can be drawn (`Backoff.WindowsAreContiguous`).

## Model

| member | source | states |
|---|---|---|
| Exclusivity.ActionKeeps | app/services/dispatch_service.py:127-225 | every action of the interleaved engine that obeys the two rules keeps the global invariant: one place per active id, snapshots equal to rows, queued ids under their row's priority, well-formed messages and letters |
| Exclusivity.RunKeeps | app/services/dispatch_service.py:127-225 | so does every run |
| Exclusivity.HolderIsAlone | app/workers/notification_worker.py:52-69 | a task that carries an id is the only one, the id is nowhere else, and its row is still owed an outcome |
| Safety.TokenExclusivity | app/workers/notification_worker.py:52-69 | after any disciplined run, with any number of rows, workers and handlers, an id is in at most one place, no two tasks carry it, and every id that is anywhere names a committed row under that row's priority |
| Safety.SentAtMostOnce | app/services/dispatch_service.py:151-169 | a row has at most one accepted send, a SENT row exactly one, PENDING, RETRYING and FAILED rows none; the time of sending is set exactly on SENT rows |
| Safety.NeverSentTwice | app/services/dispatch_service.py:127-169 | in every disciplined run there is at most one row, hence at most one accepted send, for one producer key and channel |
| Safety.CarefulIsDisciplined | app/managers/notification_manager.py:126-153 | a run that retries by hand only FAILED rows, never two retries of a row between read and commit at once, and has no redelivery after an enqueue obeys the two rules |
| Safety.WithoutHandsIsCareful | app/managers/notification_manager.py:126-153 | every run without manual retries and redeliveries after the enqueue is such a run |
| Safety.NeverSentTwiceWhenCareful | README.md:35 | in such a run a producer key and channel have at most one accepted send |
| Sends.SendsAreBounded | app/services/dispatch_service.py:127-161 | in every run, disciplined or not: accepted sends of a row <= 1 + its manual retries + its redeliveries after an enqueue |
| Sends.PotentialIsALimit | app/services/dispatch_service.py:127-225 | from any state the code can reach, no continuation without further manual retries and late redeliveries sends a row more often than it was sent plus the tokens that can still reach the provider |
| Attainment.PotentialIsReached | app/services/dispatch_service.py:127-225 | that limit is reached by a continuation without any fault, as long as one task is free and the channel has a provider |
| Attainment.EveryTokenIsWorthOneSend | app/services/dispatch_service.py:127-225 | the two together, for every state any run of the code reaches: two accepted sends are possible if and only if past sends and live chances add up to two |
| Attainment.OneMoreChance | app/managers/notification_manager.py:140-151 | in any such state the commit of a manual retry, however stale its read, or a late redelivery opens the way to a second accepted send if and only if there was one, or a chance of one, before |
| Attainment.ManualRetrySendsTwiceIff | app/managers/notification_manager.py:126-153 | where ids are exclusive, the commit of a manual retry opens the way to two accepted sends if and only if the row was accepted once or a token of it can still send: always when it is SENT by then, never when FAILED, and when PENDING or RETRYING unless the token was lost |
| Attainment.LateRedeliverySendsTwiceIff | app/handlers/rabbitmq_handler.py:155-171 | where ids are exclusive, a redelivery after the enqueue does so under the same condition: always when SENT, never when FAILED, and when PENDING or RETRYING unless the token was lost |
| Safety.LateRedeliveryBreaksExclusivity | app/handlers/rabbitmq_handler.py:155-171 | a redelivery after the enqueue always breaks the invariant, by exactly one token |
| Safety.AbsorbedIffQueued | app/services/queue_service.py:132-136 | an enqueue takes a token away if and only if the id is in the sorted set already |
| Safety.EarlyRedeliveryIsHarmless | app/services/queue_service.py:132-136 | if the id is still queued when the redelivered message is handled, the state is as before and the invariant holds again |
| Safety.MostUrgentFirst | README.md:137 | as long as queued enqueue times lie within 10^12 ms, when a pop of a row is possible no queued row is more urgent, and none of the same priority was enqueued earlier |
| Turns.FirstComeFirstServed | README.md:137 | in any run: an id enqueued before another with a lower priority·10^12 + time is not overtaken, the other cannot be popped as long as it is there |
| Turns.ScoreStands | app/services/queue_service.py:132-136 | in any run: an id that is not popped keeps the score of its enqueue |
| Safety.MessagesCarryTheirLevel | app/services/dispatch_service.py:194-214 | after any disciplined run, a message in the retry queue belongs to a RETRYING row, and its delay is the last one drawn for it and lies in the window of the row's retry_count under the table's entry for its event |
| Letters.ExhaustedRowsAreReported | app/services/dispatch_service.py:198-201 | after any disciplined run that loses no letter on its way, a FAILED row on a channel with a provider has the letter that reports it as it is if and only if its code is neither INVALID_RECIPIENT nor INVALID_TOKEN |
| Safety.FrozenForever | app/managers/notification_manager.py:134-138 | a SENT or QUEUED row without a token is never changed again by any disciplined continuation |
| Safety.SentIsAbsorbing | app/managers/notification_manager.py:134-135 | after a disciplined run a SENT row has no token anywhere, no disciplined continuation changes its columns or its history, and a manual retry of it is refused ever after |
| Safety.NoSilentLoss | app/services/dispatch_service.py:214-220 | after any disciplined run a row is PENDING, QUEUED or RETRYING exactly when its token is somewhere or was lost to a fault, never both; the place of the loss is on record and tells the status |
| Safety.LossesBeyondRepair | app/managers/notification_manager.py:134-138 | after any disciplined run a lost row is frozen if and only if its token was lost between the QUEUED and the outcome commit; otherwise a manual retry is admitted, within the rules, and restores the token |
| Safety.RestMeansSettled | README.md:235-241 | when nothing waits and nothing runs, the rows without an outcome are exactly the stranded ones; without faults all rows are SENT or FAILED |
| Shutdown.PoolRunsTheEngine | app/workers/notification_worker.py:52-72 | whatever N worker loops with their flag do, with creators, handlers and the broker beside them, is a run of the interleaved engine |
| Shutdown.StopWaitsForAll | app/workers/notification_worker.py:47-50 | when stop returns no dispatch is in progress and every id a loop ever popped has had its dispatch to the end; after the flag fell each loop popped at most once more |
| Shutdown.GracefulStop | app/workers/notification_worker.py:47-69 | when stop returns after a disciplined run, a row without an outcome is not QUEUED and its token is in Redis, in RabbitMQ or on the way there, unless a fault dropped it |
| Shutdown.StopIsBounded | app/workers/notification_worker.py:47-69 | once the flag is down every move of a loop lowers a count of at most nine that nobody else changes and that is zero exactly when the loop has ended |
| Shutdown.LoopCanMove | app/workers/notification_worker.py:52-69 | a loop that has not ended can move, without any fault |
| Safety.ManualRetryIsSafeWithoutToken | app/managers/notification_manager.py:126-153 | the commit of a manual retry keeps the invariant if and only if at that moment the id has no token and was never accepted; for a row neither SENT nor QUEUED, if and only if it is FAILED or its token was lost |
| Safety.ManualRetryIsSafeOnFailed | README.md:35 | while no token has been lost, the commit of a manual retry keeps the invariant if and only if the row is FAILED at that moment |
| Witness.ManualRetryOfRetryingSendsTwice | app/managers/notification_manager.py:126-153 | an interleaved run without faults and redeliveries: a RETRYING row is retried by hand and accepted twice |
| Witness.OverlappingRetriesSendTwice | app/managers/notification_manager.py:129-151 | an interleaved run without faults and redeliveries: two manual retries read the same FAILED row, the first is sent, the second commits over the SENT row, and the row is accepted twice |
| Witness.LateRedeliverySendsTwice | app/handlers/rabbitmq_handler.py:155-171 | an interleaved run without manual retries and lost tokens: a retry handler dies after its enqueue, and the row is accepted twice |
| Witness.WorkerDeathStrandsForever | app/workers/notification_worker.py:71-72 | an exception between the QUEUED commit and the outcome commit leaves the row QUEUED in every disciplined continuation |
| Witness.WorkerDeathLosesANotification | app/services/dispatch_service.py:141-151 | a disciplined run with one fault, a worker that dies after its QUEUED commit, that rests with a QUEUED row |
| Reduction.InterleavingIsAtomic | app/services/dispatch_service.py:127-225 | every disciplined interleaved run has an atomic disciplined run that reaches the same state, histories included, whenever no dispatch is in progress |
| Reduction.AtomicDispatchIsARun | app/services/dispatch_service.py:127-225 | every atomic dispatch is a run of the interleaved engine |
| Reduction.AtomicRunIsInterleaved | app/services/dispatch_service.py:127-225 | so is every atomic run, dispatches cut short by a crash included, disciplined if it was: between dispatches the two systems reach the same states |
| Reduction.NoLostUpdate | app/services/dispatch_service.py:194-209 | the snapshot whose retry count a dispatch adds one to is the row itself, so a RETRYING commit raises the count by one |
| Accounting.TokenConservation | app/services/dispatch_service.py:194-220 | over every atomic run the code admits: outcomes + live tokens + dropped + absorbed by NX = 1 + retry_count + increments lost to stale commits + late redeliveries, and retry_count + lost increments = scheduled retries + manual retries |
| Accounting.RowInvariants | app/models/notification.py:57-62 | RETRYING rows have 1 <= retry_count <= max_retries and a retryable code, FAILED rows a code, PENDING rows none, retry_count is at most max_retries plus manual retries, and dead letters were retryable failures at or past max_retries |
| Accounting.WorkIsBounded | app/services/dispatch_service.py:141-151 | over a row's life: sends <= health checks <= dispatches begun <= 1 + max_retries + manual retries + increments lost to stale commits + late redeliveries |
| Accounting.BackoffAlongARun | app/services/dispatch_service.py:194-214 | a row's delays are one per retry that was not manual; without manual retries they are those of levels 1 to retry_count, never shrink, and sum to between base·(2^n-1) and twice that while uncapped, never above n·max_delay |
| Isolation.RowIsItsReplay | app/services/dispatch_service.py:127-161 | after any atomic run a row is what replaying its own events alone makes of it |
| Isolation.OutagesDoNotSpread | app/services/dispatch_service.py:127-161 | two runs that give one row the same events leave that row the same, whatever happens on other rows and channels |
| Termination.DeliverySpends | app/services/dispatch_service.py:194-214 | every delivery action strictly lowers a measure built from the retries left and the place of each token |
| Termination.DeliveryEnds | app/handlers/rabbitmq_handler.py:155-163 | a run of deliveries is no longer than the measure it starts from |
| Rest.NeverStuck | app/workers/notification_worker.py:52-69 | unless everything is at rest or a manual retry is under way, some delivery that is not a fault is possible |
| Rest.DeliveriesEndAtRest | app/services/dispatch_service.py:194-214 | a run of deliveries after a disciplined run with no manual retry under way is finite, and when no ordinary delivery is left everything is at rest: the rows without an outcome are exactly the stranded ones, and all are SENT or FAILED if no token was dropped |
| Rest.RestIsReached | app/services/dispatch_service.py:194-214 | from every good state with no manual retry under way there is a run of deliveries without a fault that reaches rest |
| Termination.RowWorkIsBounded | app/services/dispatch_service.py:194-200 | at every moment of a disciplined interleaved run a row has seen at most 1 + max_retries + manual retries dispatches, and no more health checks and sends |
| Termination.TotalWorkIsBounded | app/services/dispatch_service.py:194-200 | at every moment n rows without manual retries have cost at most n·(max_retries+1) dispatches and at most that many sends |
| Dispatch.StepsMakeOneDispatch | app/services/dispatch_service.py:127-161 | the steps taken without interruption are the whole dispatch |
| Dispatch.StepKeepsNote | app/services/dispatch_service.py:163-209 | each step keeps the row invariants and the identifying columns, checks health and sends at most once per dispatch, emits only the delay last drawn, which is one of the row's level, buries only exhausted rows, and accounts for the token |
| Dispatch.StepStaysClean | app/services/dispatch_service.py:141-169 | for a row with one token: no accepted send before the send step, one by SENT, stime exactly on SENT, QUEUED exactly between the QUEUED and outcome commits |
| Outcomes.ReplyDecides | app/models/notification.py:47-62 | over the uninterrupted steps: a refused send stores exactly the code whose number the provider gave, UNKNOWN for none and for 0; the row ends FAILED without a letter if and only if that number is 4 or 5; an integer that is no code's leaves the row QUEUED |
| Outcomes.RetryOrBury | app/services/dispatch_service.py:182-214 | over the uninterrupted steps: a retryable failure is RETRYING with a delay in the window of retry_count + 1 under the table's entry for the event, and FAILED with the row's own letter exactly past that entry's max_retries |
| Outcomes.NobodyToSend | app/services/dispatch_service.py:133-139 | a channel without a provider ends FAILED with UNKNOWN, no message and no letter |
| Outcomes.ShippedOneTimePassword | app/services/dispatch_service.py:25-31 | with the table as shipped, a one-time password whose provider is down is retried after 5, 10 and 20 seconds and then buried |
| DispatchServices.DispatchService.Dispatch | app/services/dispatch_service.py:127-161 | an unknown id changes nothing; otherwise exactly the named row changes, as the dispatch function says, also when the database fails at any of its round trips, before or after the commit took effect. Without a fault, in the reply's integer: success is SENT with the reply's external id; 4 and 5 are FAILED without a letter; an integer outside 0 to 6 raises and leaves QUEUED; every other refusal, and a provider that is down, stores its number's code and is RETRYING one level up with a message of that level, or FAILED with its letter once the table's policy is used up |
| DispatchServices.LeftQueuedIff | app/services/dispatch_service.py:141-169 | a dispatch leaves a row QUEUED if and only if it broke off between the QUEUED commit and the outcome commit, by a database failure or an unknown error code |
| DispatchServices.FaultsTripByTrip | app/services/dispatch_service.py:127-161 | what a database failure at the read, the QUEUED commit and the outcome commit leaves behind, before or after the commit took effect |
| DispatchServices.FaultIsACrash | app/services/dispatch_service.py:127-161 | a dispatch that the database cuts short leaves the row as some number of steps of the engine does, and a row it leaves without an outcome has lost its token |
| DispatchServices.DispatchService.Send | app/services/dispatch_service.py:151-161 | the part from the send on, in the reply's integer: accepted, refused for good exactly by 4 and 5, refused and retried or buried, or an integer that is no code's, which raises; a failing outcome commit raises instead |
| DispatchServices.DispatchService.MarkSent | app/services/dispatch_service.py:163-169 | sets status, external id and time of sending of one row and nothing else, or raises |
| DispatchServices.DispatchService.MarkFailed | app/services/dispatch_service.py:171-180 | sets status and error code of one row and nothing else, or raises |
| DispatchServices.DispatchService.ScheduleRetry | app/services/dispatch_service.py:182-225 | by the table's own entry for the event: up to its max_retries the row is RETRYING one level up and a message with a delay in that level's window is published, lost if RabbitMQ is away; past them, and only then, FAILED and exactly one letter with the row's id, key, event, channel, recipient, code and count, lost if the dead-letter queue is away |
| DispatchServices.DispatchService.SendToDlq | app/services/dispatch_service.py:227-265 | appends the row's dead letter, or silently nothing |
| DispatchServices.DispatchIsTheAtomicAction | app/services/dispatch_service.py:127-161 | the engine's atomic dispatch does to the row, the retry queue and the dead letter what the method does |
| Backoff.DrawsFillTheWindow | app/services/dispatch_service.py:103-111 | a delay can be drawn for a level if and only if it lies in that level's window |
| Backoff.WindowInPowers | app/services/dispatch_service.py:103-111 | a delay is in a level's window if and only if it lies between base·2^(level-1) and base·2^level, both cut at the cap, or is the low end without jitter |
| Backoff.WindowsAreContiguous | app/services/dispatch_service.py:84-111 | each window's top is the next one's bottom, delays never shrink with the level and stay under the cap, and a window is one point if and only if base·2^(level-1) reaches the cap |
| Backoff.TotalWait | app/services/dispatch_service.py:103-111 | bounds on the sum of the delays of n levels, exact without jitter |
| Backoff.ShippedWindows | app/services/dispatch_service.py:25-74 | every entry of the shipped table has three retries; its windows are 5, 10, 20 seconds for one-time passwords and 15-30, 30-60, 60-120 for every other event |
| Backoff.ShippedDelays | app/services/dispatch_service.py:25-74 | the shipped table, entry by entry: no delay above 120 s, three one-time-password retries after 5, 10 and 20 s, three others 105 to 210 s in all |
| RetryQueue.ReleaseTimes | app/services/queue_service.py:76-95 | release order is publish order; a message leaves at the running maximum of deadlines, never early, at most the largest delay among it and those ahead after its publication |
| RetryQueue.FiresOnTimeIff | README.md:331-342 | a retry fires exactly on time if and only if no message ahead of it has a later deadline |
| RetryQueue.HeadOfLineBlocking | README.md:342 | a run in which a 5 second retry leaves after 119 seconds |
| RetryQueue.ShippedRetriesWithinTwoMinutes | app/handlers/rabbitmq_handler.py:59-76 | with delays the shipped policies allow, no retry waits more than 120 s, blocking included |
| RetryTimes.PublishedDelaysAreAllowed | app/services/dispatch_service.py:202-214 | every delay any run publishes is one that some level of some event's policy allows |
| RetryTimes.RetryQueueIsFifo | app/services/queue_service.py:76-95 | after any run the retry queue is what was there and what the run published, in that order, less as many from the front as were released |
| RetryTimes.EngineRetriesWithinTwoMinutes | app/services/dispatch_service.py:25-81 | hence under the shipped policies no retry of any run waits more than 120 s in the retry queue, whatever the timing |
| SortedQueue.UrgentBeatsEarly | app/services/queue_service.py:129-136 | the more urgent of two enqueues has the lower score if and only if it is not a full 10^12 ms per priority step later |
| SortedQueue.CollisionsExist | README.md:358 | scores of different priorities are equal if and only if the timestamps are exactly that far apart, with an instance at real clock values |
| SortedQueue.DrainIsSorted | app/services/queue_service.py:144-156 | draining yields every queued id once, sorted by priority, then enqueue time |
| SortedQueue.PopsBeginADrain | app/services/queue_service.py:144-156 | whatever a sequence of pops yields is the beginning of some complete drain of the set |
| SortedQueue.PopsAreSorted | app/services/queue_service.py:144-156 | so pops alone yield no id twice, and come by priority, then enqueue time |
| SortedQueue.QueueConserves | app/services/queue_service.py:122-174 | over any operations, initially queued + effective enqueues = popped + removed + still queued, as multisets |
| SortedQueue.DepthIsTheRest | app/services/queue_service.py:162-167 | from the empty set, depth = effective enqueues - pops - effective removals |
| SortedQueue.FirstScoreStands | app/services/queue_service.py:132-136 | an id that stays queued keeps its first score whatever is enqueued |
| Queues.QueueService.Enqueue | app/services/queue_service.py:122-142 | adds the id under priority·10^12 + milliseconds unless it is there, and returns whether Redis answered |
| Queues.QueueService.Dequeue | app/services/queue_service.py:144-160 | takes out an id whose score is no higher than any in the set, or returns None exactly when the set is empty or Redis is away |
| Queues.QueueService.Remove | app/services/queue_service.py:169-174 | takes one id out and leaves the rest |
| Queues.QueueService.PublishRetry | app/services/queue_service.py:60-108 | appends one message to the retry queue, or returns False and changes nothing |
| Ingest.AtMostOneRow | app/models/notification.py:92 | for any interleaving of deliveries, aborts and vanishing Redis keys, a producer key and channel have at most one row |
| Ingest.RowsAreTheIdeal | app/managers/notification_manager.py:43-96 | no row the ideal set lacks at any time; at rest the rows are exactly the delivered keys paired with their mapped channels, less what aborts left behind |
| Ingest.CompleteWithoutAborts | app/managers/notification_manager.py:58-96 | without aborts the rows at rest are exactly the ideal set |
| Ingest.RedeliveryDoesNotRepair | app/managers/notification_manager.py:44-48 | once a creator has died and Redis keeps the key, no delivery ever inserts the missing channel |
| Ingest.RepairNeedsForgetting | app/managers/notification_manager.py:44-50 | every continuation that brings the missing row has the key vanish from Redis |
| Ingest.ForgettingRepairs | app/managers/notification_manager.py:43-96 | once it has vanished, one more delivery brings the row |
| Whole.EveryDeliveryIsSettled | README.md:145 | ingestion and delivery together, without aborts, dropped tokens and breaches of the rules: at rest a producer key and channel have a row exactly if the key was delivered and its event maps to the channel, one only, SENT with one accepted send or FAILED with none |
| Whole.EngineRuns | app/managers/notification_manager.py:80-86 | whatever the joined system does is a run of the interleaved engine |
| Whole.IntakeRuns | app/managers/notification_manager.py:80-96 | and a run of the ingestion model |
| Ingest.AbortLeavesBlocked | app/managers/notification_manager.py:44-50 | such a state is reached by one delivery whose creator dies |
| ChannelKeys.ChannelKeyIsInjective | app/managers/notification_manager.py:60 | equal channel keys come from the same producer key and the same channel, for all strings |
| Requests.Validate | app/schemas/notification_request.py:50-78 | accepts exactly when every mapped channel has its own field, email, phone or device token, present and non-empty, and its content; otherwise names the first failing channel, recipient before content |
| Repository.NotificationRepository.Create | app/repositories/notification_repository.py:21-25 | inserts under a fresh id, or refuses exactly when the key is taken |
| Repository.NotificationRepository.GetById | app/repositories/notification_repository.py:27-31 | the row of the id, or None |
| Repository.NotificationRepository.UpdateStatus | app/repositories/notification_repository.py:63-77 | sets status and the given columns of one row, keeps keys unique, and returns it refreshed; or raises, the commit undone or done |
| Managers.NotificationManager.CreateNotification | app/managers/notification_manager.py:35-98 | an unreachable Redis or a known key changes nothing; otherwise Redis keeps the key, and the channels up to the failing one, if any, are inserted or skipped and enqueued in order; none if the key's expiry could not be set. Every created row is on a mapped channel, carries the request's event and priority, its key with the channel's name, and the email, phone or device token according to the channel; and unless the call raised, every mapped channel has a row under its key |
| Managers.NotificationManager.FanOut | app/managers/notification_manager.py:58-96 | the loop over the channels, against the function that adds them one by one; every created row has the columns of the request for its channel |
| Managers.FanOutCovers | app/managers/notification_manager.py:58-96 | after the fan-out the keys are exactly the old ones and one per channel, still unique |
| Managers.FanOutCreates | app/managers/notification_manager.py:69-86 | every reported id is new, names a PENDING row of the request on one of its channels and is queued under its priority when Redis answers its enqueue |
| Managers.CreatedColumns | app/managers/notification_manager.py:58-86 | every reported id names a new PENDING row of one of the channels with the request's event, priority and own address for that channel, queued under priority·10^12 + the time of its enqueue when Redis answers |
| Managers.EveryChannelHasARow | app/managers/notification_manager.py:58-96 | after the fan-out each channel has a row under the key of the request and the channel's name |
| Managers.FanOutOnlyAdds | app/managers/notification_manager.py:80-96 | no row and no score that was there changes, and whatever is new is reported |
| Managers.CompleteRequestsReachSomeone | app/schemas/notification_request.py:59-76 | after validation no created row lacks its recipient |
| Managers.NotificationManager.RetryNotification | app/managers/notification_manager.py:126-153 | refuses unknown, SENT and QUEUED rows and changes nothing; otherwise one row goes to PENDING with one more retry and no error code, and is enqueued under its priority and the clock unless it is queued |
| Handlers.RabbitMQHandler.OnNewEvent | app/handlers/rabbitmq_handler.py:96-138 | which messages are acknowledged, discarded or requeued, failing ones below a delivery count of 3 requeued and from 3 on discarded, and what the table, the queue and Redis hold afterwards in each case; acknowledged and new means every mapped channel is served |
| Handlers.RabbitMQHandler.DeliverUntilSettled | app/handlers/rabbitmq_handler.py:96-138 | over all deliveries of one message: one that keeps failing before its key is in Redis is requeued exactly three times and then discarded if the broker counts 0, 1, 2, ..., and requeued for ever if it never counts to 3, and changes nothing; one whose database fails after the key is set is requeued once, acknowledged as a duplicate, and leaves the remaining channels without a row |
| Handlers.RabbitMQHandler.OnRetryEvent | app/handlers/rabbitmq_handler.py:140-175 | the id goes back into the sorted set under its row's priority and the clock unless it is there; unreadable bodies and database failures lose it, a failing enqueue is acknowledged all the same |
| Workers.NotificationWorker.WorkerLoop | app/workers/notification_worker.py:52-72 | pops no id twice and each with a score no higher than those popped later and those left, dispatches each to the end in order, survives exceptions of providers and database, and ends after the very turn in which it is stopped |
| Workers.LoopPopsInOrder | app/workers/notification_worker.py:52-69 | the ids a loop pops begin some drain of the set, so they come by priority, then enqueue time |
| Workers.LastDispatchDecides | app/workers/notification_worker.py:52-72 | a row popped by a loop is what its last dispatch makes of it, QUEUED if and only if that dispatch broke off between the QUEUED and the outcome commit |

## Left out

- The classes run alone: concurrency between them is in `Engine`, the N loops and the gather in `stop` in `Shutdown`.
- `Safety.FrozenForever`: does not cover undisciplined continuations; a late redelivery or the commit of a manual retry
  that read the row earlier gives such a row a token again.
- A database failure inside a manual retry; in `Engine` it is a task dropped before its enqueue.
- `Isolation.OutagesDoNotSpread`: says nothing about delays; an outage can hold up other rows by taking workers' time.
- The ORM writes only the columns that changed since the session read the row; the model writes every column named.
  Under exclusivity the two agree. A manual retry that read PENDING would not write the status again.
- A row whose commit succeeds but whose refresh fails is a dropped creator in `Engine`, not a case of `CreateNotification`.
- Connections and channels of Redis, RabbitMQ and PostgreSQL, their reuse and reconnects, and the connection fields
  of the queue service and the handler.
- Redis applying a command whose reply is lost: for a pop this is `PopLost`; for an enqueue it counts as success.
- The conversion of the retry delay to milliseconds, done in library code: the delay is taken as given.
- The broker's own delivery counting: the handler's count is an input, and `Handlers.RabbitMQHandler.DeliverUntilSettled`
  says what follows from a broker that counts and from one that does not.
- Rounding of scores to doubles beyond 2^53, and Redis ordering equal scores by member.
- The 255 character limits of columns: a value too long is a database failure like any other.
- `next_retry_time` (always NULL), `source_service`, the message content, `ctime` and `mtime`.
- Mock providers with their sleeps and random draws; providers are inputs.
- Controllers, response schemas, listing and lookups by key, health and metrics endpoints: thin wrappers.
- Migrations, configuration, logging, the publisher script and throughput claims: not decided by the code.
- `Ingest.RowsAreTheIdeal`: assumes one producer key always carries the same event; `Ingest.AtMostOneRow` does not.
- `RetryQueue.ShippedRetriesWithinTwoMinutes`: takes the delays as allowed by some level, which `RetryTimes` proves of the engine.
