# Verification of the inference pipeline

A Dafny model of the asynchronous image-classification service: an Express backend stores an upload
(S3), records it (Postgres) and queues it (RabbitMQ); any number of Python workers take messages from
the queue, run the engine and write the answer back; a browser hook polls the row. The project states
what the code guarantees when processes die, connections drop and replies get lost, and proves it for
every interleaving.

`dafny verify dfyconfig.toml` checks everything.

## How the model is organised

| file | what it holds |
|---|---|
| `domain.dfy` | ids and object keys, queue bodies, the exception hierarchy and its `except` clauses, stored sentences, S3 reply classification |
| `database.dfy` | the two tables, each SQL statement as a function and as a method of `Postgres`, the row the browser reads |
| `broker.dfy` | queue, unanswered deliveries, dead-letter queue and acknowledged messages; the consumer's `Channel` |
| `services.dfy` | `S3Service`, `QueueService` |
| `worker.dfy` | `_on_message` and `_fail`: a machine that can be interrupted between any two calls, and the sequential callback proved to be a run of it |
| `upload.dfy` | `create`: the same two forms |
| `pipeline.dfy` | the whole system: any number of uploads and workers, one call per step, crashes, lost connections |
| `safety.dfy` | the inductive invariant of every reachable state, and its preservation step by step |
| `guarantees.dfy` | what the invariant means for users, under every fault |
| `orderly.dfy` | runs in which workers may die but connections are reliable: one handler per message, finality |
| `truthful.dfy` | what a settled message says about its row; when terminal statuses are absorbing |
| `moves.dfy` | continuations that a state with the right message or handler allows |
| `exact.dfy` | with crashes only: finality, terminality and the two column comments, each with its exact condition |
| `frozen.dfy` | finality and terminality again, with lost connections and raising settlements as well |
| `comments.dfy` | the comments about the tables under all faults, each with its exact condition |
| `progress.dfy` | the termination measure, and that every accepted message gets settled |
| `witnesses.dfy` | runs that break the comments the code does not keep |
| `polling.dfy` | `useInferenceJob`: effect instances, requests, timers, React state |
| `reltime.dfy` | `formatRelativeTime` |
| `training.dfy` | the trainer's split, validation averages and best-checkpoint loop |
| `reconnect.dfy` | the worker's reconnect loop |

The two sequential handlers appear in two forms on purpose. `Worker.MessageHandler.OnMessage` and
`Upload.InferenceController.Create` are written like the source, with objects that they update; their
postconditions say that the whole call is one run of the small-step machine from the old state to the
new one. The lemmas are about the machines, which other processes may interleave with.

### Faults

Every database call may commit and answer, fail without committing, or commit and lose the reply. A
publish may be refused, accepted and confirmed, or accepted with the confirmation lost. Every
settlement may take effect or not, and may raise or not, independently. The store and the engine may
raise; a worker process, a request handler and a connection may die at any point. When a connection
is lost the broker takes its deliveries back while the callback carries on with a stale tag.

* *All faults*: `Reachable` states. Used in `Guarantees`, `Frozen` and `Comments`.
* *Orderly runs* (`OrderlyStep`): processes die anywhere, but a live connection is never lost and a
  settlement on it takes effect and returns. Used in `Orderly`, `Moves`, `Exact`, `Truthful`, `Progress`.
* *Accountable runs* (`Accountable`): orderly, and optionally every publish confirmation arrives.
* *Undisturbed runs* (`Undisturbed`): all of that, database calls that raise did not commit, and no
  handler dies between its final write and its settlement.
* *Calm steps* (`CalmStep`): worker steps with arbitrary errors from database, store and engine, but no
  process dies and nothing escapes the callback.

### Assumptions

* The engine is a deterministic function of the bytes, for one checkpoint, or answers "undecodable".
* `randomUUID` never repeats an id, and nobody outside the backend publishes a message naming an id
  the backend draws. Foreign messages with other ids, and unreadable ones, are in the model.
* Objects and rows are not deleted from outside.
* S3 does not claim that a stored key is missing, nor return content that is not stored.
* The broker's `redelivered` mark never goes back (class basic of AMQP 0-9-1, section 1.8.3, with
  RabbitMQ's nack, publisher-confirm and dead-letter extensions).

### Where comments promise more than the code does

* "A state that will never change again" (`frontend/src/types/inference.ts:52`).
  `mark_processing` has no status guard, a raising `basic_ack` is caught after the commit, and a lost
  confirmation fails an accepted upload; `Witnesses` has a run from the initial state for each
  (`CrashReopensCompletedRow`, `RaisingAckOverturns`, `LostConfirmationOverturns`).
  `Frozen.TerminalExactlyWhenUnthreatened` gives the exact condition under all faults,
  `Exact.TerminalExactlyWhenSettled` the one with crashes only, and `Truthful.TerminalIsForever` the
  conditions under which the comment holds as written.
* "Non-null only once `status` is 'completed'" (`backend/src/models/types.ts:80`). The read looks at
  the result columns alone, so a reopened or failed-over row still shows its prediction
  (`Witnesses.CrashReopensCompletedRow`, `Witnesses.LostConfirmationOverturns`).
  `Comments.PredictionMisplacedExactly` gives the exact condition under all faults,
  `Exact.PredictionCommentExactly` the one with crashes only, and
  `Truthful.PredictionExactlyWhenCompleted` the runs in which it holds throughout.
* "Populated only when status = 'failed'" (`backend/src/db/schema.sql:31`). A failed row that is claimed
  again keeps its message while it says `processing` (`Witnesses.ErrorOutlivesFailure`).
  `Comments.ErrorMisplacedExactly` gives the exact condition under all faults,
  `Exact.ErrorCommentExactly` the one with crashes only, and `Truthful.ErrorExactlyWhenFailed` the runs
  in which it holds throughout.
* "Only ever reads afterwards" (`backend/src/db/schema.sql:4-5`). The backend's `markFailed` writes to a
  row that a worker may be writing to as well (`Witnesses.LostConfirmationOverturns`).
  `Comments.BackendOnlyReadsExactlyWhenDone`: the backend may write an inserted row again exactly as
  long as the request handler that inserted it is not done.
* One way through the callback settles nothing: `mark_failed` raising something other than
  `DatabaseError`. `Worker.SettlesExactlyOnce` shows that it is the only one when the channel does not
  raise and `parse_job` raises at most `MalformedJob`. A body on which `json.loads` raises anything but
  a decode error (nesting too deep, an integer literal too long) escapes the callback as well; such
  bodies are not in the model.
* `isPolling` is false while a poll is under way when the user returns to an id that had settled
  before any other id stored an answer: `Polling.RevisitLooksSettled`, and exactly then
  (`Polling.PollingFlagIsExact`).

## Model

| member | source | states |
|---|---|---|
| `Domain.KeyIdentifiesUpload` | backend/src/services/s3Service.ts:91-94 | Two UUIDs share an object key exactly when both id and extension are equal, so an object has one writer |
| `Domain.FreeFormIdsShareKeys` | backend/src/services/s3Service.ts:91-94 | The fixed width of UUIDs is needed: two different free-form ids with the same key exist |
| `Domain.PublishedJobParses` | inference/worker.py:324-341 | Round trip of the queue contract: the worker reads the id and key the backend serialised, and refuses the body exactly when one of them is empty |
| `Domain.PublishedFields` | backend/src/models/types.ts:115-119 | The published body is an object with exactly the three fields of the contract, each holding its own value |
| `Domain.MalformedExactly` | inference/worker.py:324-341 | For every body: it is accepted if and only if it is an object with a non-empty string under both names, and the job is those two strings |
| `Domain.ClausesRetryExactly` | inference/worker.py:240-261 | The ordered `except` clauses over the exception hierarchy retry exactly first-attempt storage and database errors that are not ObjectNotFound |
| `Domain.SwappedClausesMisroute` | inference/worker.py:240-245 | The clause order matters for exactly one exception: with the transient clause first, ObjectNotFound and nothing else would be retried |
| `Domain.DownloadSplits` | inference/storage.py:60-70 | For every S3 reply: ObjectNotFound exactly for the three not-found codes, StorageError exactly for other client errors and an unreachable store, the bytes exactly for content |
| `Domain.SentencePerException` | inference/worker.py:293-315 | Each of the six sentences is chosen for exactly one exception |
| `Domain.ImageTexts` | inference/worker.py:305-308 | What a person reads for the two image failures |
| `Domain.JobTexts` | inference/worker.py:309-315 | What a person reads for a vanished row, an unexpected exception and, from the backend, a job that could not be queued |
| `Domain.ServiceTexts` | inference/worker.py:311-314 | What a person reads when the store or the database could not be reached |
| `Domain.SentencesAreNeverCut` | inference/database.py:148-151 | Every sentence either service stores survives the 1000-character clip whole, and is not empty |
| `Domain.ColumnHoldsTheClip` | inference/database.py:148-151 | For every message, known sentence or not, what is stored reads as its first 1000 characters |
| `Database.RepeatedSaveIsHarmless` | inference/database.py:88-134 | A redelivered save of the same prediction leaves what the browser reads unchanged up to times and duration |
| `Database.Postgres.MarkProcessing` | inference/database.py:55-76 | The whole new state of both tables for every fault; RequestNotFound exactly for a UUID without a row when the database is healthy; a non-UUID id is a DatabaseError |
| `Database.Postgres.SaveSuccess` | inference/database.py:78-136 | Result and status change together or not at all; a healthy call succeeds exactly when the foreign key and the CHECKs are met |
| `Database.Postgres.MarkFailed` | inference/database.py:138-154 | The whole new state for every fault and every message; the column then reads as the first 1000 characters of the message; a missing row is not an error |
| `Database.Postgres.CreateRequest` | backend/src/services/databaseService.ts:151-166 | The row is inserted as pending with no timestamps exactly when the constraints allow it, possibly with the reply lost |
| `Services.S3Service.PutImage` | backend/src/services/s3Service.ts:96-105 | The bytes are stored under the key or nothing changes; success means stored |
| `Services.QueueService.PublishJob` | backend/src/services/queueService.ts:94-116 | Returning normally means the broker took the encoded job; raising leaves it open |
| `Broker.RequeueKeepsBroker` | inference/worker.py:247-259 | The redelivered guard is what bounds retries: a delivery without the mark was never handed back before, and its message was never lost with a connection |
| `Broker.Channel.Send` | inference/worker.py:215-290 | A settlement acts only on a delivery the broker still waits for; a sound channel acts exactly then and returns |
| `Worker.RankDecreases` | inference/worker.py:208-290 | Every call of the callback, however it is answered, brings it strictly closer to its end |
| `Worker.SettlesExactlyOnce` | inference/worker.py:208-290 | Over all exceptions and paths, a callback whose channel does not raise settles its delivery exactly once if it returns, and not at all only if mark_failed raised something unexpected |
| `Worker.MessageHandler.Fail` | inference/worker.py:274-290 | The failure path is a run of the machine and makes one nack without requeue, whether or not the failure was recorded; on a sound channel the message ends dead-lettered, and a healthy database ends with the row failed for that reason |
| `Worker.MessageHandler.Recover` | inference/worker.py:243-272 | The `except` chain requeues exactly retryable errors, leaving the tables alone, and otherwise fails the row with the sentence of the exception and rejects, one call each |
| `Worker.MessageHandler.Infer` | inference/worker.py:221-231 | In terms of engine, database and channel alone: an answer ends acknowledged with exactly that result stored and the row completed, an undecodable image or a crash ends failed for that reason and dead-lettered, a database that cannot be reached ends handed back or, the second time, failed; an ack that raises after the commit included in the run |
| `Worker.MessageHandler.OnMessage` | inference/worker.py:201-272 | The sequential callback is one run of the interruptible machine; and by what its services were like, what became of the row, the result, the message and the calls made: malformed, row missing, claim, object missing, store or database unreachable on the first or second attempt, undecodable, crash, answer; one settlement call when the channel is sound |
| `Upload.InferenceController.Create` | backend/src/controllers/inferenceController.ts:53-106 | The request handler is one run of its machine; it answers 202, 503 or 500 exactly as put, insert, publish and markFailed went; 202 means all three writes happened with exactly these contents; 503 means the row says failed with the sentence for it; 400 and 415 change nothing |
| `Safety.StepKeepsSafe` | inference/worker.py:201-290 | The invariant survives every step of every process under every fault, and stored bytes, message bodies and row starts never go back |
| `Safety.ReachableIsSafe` | inference/worker.py:201-290 | Every state any run can reach satisfies the invariant |
| `Guarantees.AnswersAgreeWithEngine` | inference/worker.py:218-231 | End to end: under all faults, any prediction readable for an id is the engine's answer on the bytes uploaded under that id, and every completed answer carries one |
| `Guarantees.AnswersDescribeTheUpload` | backend/src/services/databaseService.ts:232-257 | Under all faults, any answer readable for an id carries that id and the name, content type and size of the upload |
| `Guarantees.WritesAreReported` | backend/src/services/databaseService.ts:184-190 | What a reader sees after a claim, an answer or a failure is what that call wrote, and otherwise what it saw before |
| `Guarantees.RowsAreWellShaped` | backend/src/db/schema.sql:18-37 | In every reachable state timestamps, error and result of each row fit its status; a failed row has a non-empty error of at most 1000 characters |
| `Guarantees.NoRace` | backend/src/controllers/inferenceController.ts:39-52 | No interleaving lets a worker find the row or the object of a published upload missing, and what it downloads are the uploaded bytes |
| `Guarantees.MessagesHaveRowAndObject` | backend/src/controllers/inferenceController.ts:73-83 | In every reachable state each accepted message of an upload, wherever it is, names an existing row and an existing object with the uploaded bytes |
| `Guarantees.MessagesAreConserved` | inference/worker.py:201-290 | Every accepted message is in exactly one of queue, unanswered, dead-lettered, acknowledged, and nothing else is; an unanswered one is held by a live connection |
| `Guarantees.RetriesAreBounded` | inference/worker.py:247-261 | A message is handed back at most once and delivered at most 2 + (connection losses) times, for any id |
| `Guarantees.NeverHandedBackAgain` | inference/worker.py:247-261 | Over every continuation, a message once redelivered (also involuntarily) is never handed back by a handler |
| `Guarantees.AckedMeansAnswered` | inference/worker.py:222-231 | Under all faults an acknowledged message is the one message of an upload that has a committed result |
| `Guarantees.CompensationIsComplete` | backend/src/controllers/inferenceController.ts:82-106 | After a 202 row, object and accepted message exist; after a 503 the row is not pending, and failed if no message was accepted |
| `Guarantees.UnavailableMeansFailed` | backend/src/controllers/inferenceController.ts:84-95 | The step that answers 503 leaves the row failed, and a reader sees the backend's sentence |
| `Guarantees.PendingIsExplained` | backend/src/services/databaseService.ts:168-182 | A pending row without a message has a handler still at work, crashed, with a raising markFailed, or with an INSERT whose reply was lost; with a message, it is queued, being handled, or dead-lettered after mark_failed raised |
| `Orderly.OneHandlerFromTheStart` | inference/worker.py:201-290 | With crashes only, at most one callback runs per message in every reachable state |
| `Orderly.OnlyWriters` | inference/database.py:55-154 | A row changes only by the callback holding its upload's message or by its own request handler |
| `Orderly.Finality` | inference/worker.py:218-290 | Once the message is settled and the request handler done, row and result never change in any continuation with crashes |
| `Exact.FinalExactlyWhenClosed` | inference/worker.py:218-290 | With crashes only: a row is final if and only if its handler is done and its message settled; otherwise some continuation writes it |
| `Exact.TerminalExactlyWhenSettled` | frontend/src/types/inference.ts:52-55 | With crashes only: a terminal status can still change if and only if the message is unsettled or the backend may yet fail a completed row |
| `Exact.ErrorCommentExactly` | backend/src/db/schema.sql:31-33 | With crashes only: the error column keeps its comment in every continuation if and only if it keeps it now, the message (if any) is settled, and nothing is left to publish |
| `Exact.PredictionCommentExactly` | backend/src/models/types.ts:80-81 | With crashes only: some continuation shows a prediction out of place if and only if one is stored on a row that is not completed or can still leave completed, or none is stored, the engine can answer the bytes, and a worker may still be asked to |
| `Exact.WorkedOffStays` | backend/src/controllers/inferenceController.ts:84-95 | Once the message is settled and nothing is left to publish, in every continuation with crashes no result appears, a failed row stays failed, and an error shown only at failed stays so |
| `Frozen.FrozenExactlyWhenRetired` | inference/worker.py:201-290 | Under all faults, from any reachable state: no continuation writes a row if and only if its request handler is done, its message is settled, and no process has a callback for it that may still write or a stored delivery of it that it will get to |
| `Frozen.TerminalExactlyWhenUnthreatened` | frontend/src/types/inference.ts:52-55 | Under all faults: a terminal status can still change if and only if the message is unsettled, the backend may fail a completed row, or a process with a stale delivery may claim the row, fail a completed one, or complete a failed one |
| `Comments.PredictionMisplacedExactly` | backend/src/models/types.ts:80-81 | Under all faults, from any reachable state: some continuation shows a prediction out of place if and only if one is stored on a row that is not completed or may still leave completed, or none is stored, the engine can answer the bytes, and a worker will or may still ask it |
| `Comments.ErrorMisplacedExactly` | backend/src/db/schema.sql:31-33 | Under all faults, from any reachable state: some continuation shows an error on a row that is not failed if and only if there is one now, or work on the message is still due, or a delivery may claim the row after it is failed, by being failed now, by the backend, or by another delivery |
| `Comments.BackendOnlyReadsExactlyWhenDone` | backend/src/db/schema.sql:3-6 | Under all faults, from any reachable state: the backend writes an inserted row again in some continuation if and only if the request handler that inserted it is not done |
| `Moves.Claim` | inference/database.py:63-74 | However far an attempt has got, an unsettled upload can be put back to processing by a run with at most one crash |
| `Truthful.SettlementTellsTheTruth` | inference/worker.py:208-290 | With crashes: a dead-lettered upload has a failed row unless mark_failed raised; an acknowledged one has the engine's answer, and is completed if no confirmation was lost |
| `Truthful.TerminalIsForever` | frontend/src/types/inference.ts:52-55 | From the initial state: what an undisturbed run has made terminal, no undisturbed continuation changes |
| `Truthful.PredictionExactlyWhenCompleted` | backend/src/models/types.ts:80-81 | In undisturbed runs a prediction is readable exactly when the status is completed |
| `Truthful.ErrorExactlyWhenFailed` | backend/src/db/schema.sql:31-33 | In undisturbed runs an error is readable exactly when the status is failed |
| `Witnesses.CrashReopensCompletedRow` | inference/database.py:63-74 | A run from the initial state, with connections reliable, in which a completed row later says processing with its prediction visible, at most one crash later |
| `Witnesses.ErrorOutlivesFailure` | inference/database.py:63-74 | A run from the initial state, with connections reliable, that ends with an error text on a row that says processing |
| `Witnesses.LostConfirmationOverturns` | backend/src/controllers/inferenceController.ts:84-95 | A run from the initial state in which a lost publish confirmation makes the backend fail a completed row and answer 503 |
| `Witnesses.RaisingAckOverturns` | inference/worker.py:263-272 | A run from the initial state in which an ack takes effect but raises, and the catch-all fails the completed row of the acknowledged message although its request handler is done |
| `Progress.WorkStepDecreases` | inference/worker.py:208-290 | With connections reliable, each delivery, callback entry and call strictly decreases a natural-number measure of the work left, whatever errors are answered, also when an exception leaves the callback |
| `Progress.EveryMessageIsSettled` | inference/worker.py:208-290 | After any run with crashes, calm runs are bounded, and they can stop only when every accepted message is acknowledged or dead-lettered |
| `Progress.WorkIsBounded` | inference/worker.py:208-290 | Over every run with crashes, deliveries, callback entries and calls made so far, plus all those still possible, number at most 22 per accepted message and 11 per loss |
| `Progress.EveryUploadEndsTerminal` | inference/worker.py:274-290 | When nothing is left to do, every upload with an accepted message has a terminal row, unless its own failure could not be recorded |
| `Polling.PollEffect.OnAnswer` | frontend/src/hooks/useInferenceJob.ts:63-101 | What each answer stores and whether it settles, re-arms the timer or stays silent, for all answers, ages and cancellations, keeping the effect sound |
| `Polling.PollEffect.OnTimer` | frontend/src/hooks/useInferenceJob.ts:90 | An armed timer that goes off, on time or late, sends one more request and keeps the effect sound, so within 135 in all |
| `Polling.PollEffect.Teardown` | frontend/src/hooks/useInferenceJob.ts:105-111 | After the cleanup no answer, whenever it comes, is stored |
| `Polling.Poll` | frontend/src/hooks/useInferenceJob.ts:63-103 | The self-rescheduling poll, however slow answers and timers are: at most 135 requests, over after at most 135 rounds, only this id's state stored, and the last answer is the one kept |
| `Polling.NextOk` | frontend/src/hooks/useInferenceJob.ts:44-124 | Every event keeps the hook's invariant: one live instance, in one phase, paced, with the stored state traceable to a poll |
| `Polling.PollingIsBounded` | frontend/src/config.ts:22-25 | For every history one effect instance sends at most 135 requests, and a live one is in exactly one of request in flight, timer armed, settled |
| `Polling.BoundIsReached` | frontend/src/config.ts:22-25 | The bound is tight: every count up to 135 occurs |
| `Polling.NoStaleAnswers` | frontend/src/hooks/useInferenceJob.ts:44-124 | For every sequence of id changes, double mounts, teardowns and late answers, a returned job or error came back from a poll for the id being rendered |
| `Polling.AnswersAreShown` | frontend/src/hooks/useInferenceJob.ts:63-123 | For every history: an answer to the mounted instance of the rendered id is shown at once, the job or the error, with the timeout sentence exactly when it is late and unfinished, and polling goes on exactly for an unfinished job in time |
| `Polling.ShownUntilReplaced` | frontend/src/hooks/useInferenceJob.ts:114-123 | What is shown stays until another id is rendered or another answer is stored |
| `Polling.NothingShownBefore` | frontend/src/hooks/useInferenceJob.ts:114-123 | Before an answer for the rendered id is stored nothing is shown and polling is announced; with no id neither |
| `Polling.OnlyTheMountedInstanceWrites` | frontend/src/hooks/useInferenceJob.ts:50-68 | State changes only through the mounted, uncancelled instance |
| `Polling.NothingSentAfterSettling` | frontend/src/hooks/useInferenceJob.ts:63-111 | An instance that is done or torn down sends nothing in any continuation |
| `Polling.PollingFlagIsExact` | frontend/src/hooks/useInferenceJob.ts:114-123 | With an instance mounted for the id, isPolling is false exactly when that instance is done, or is silent so far over a settled state of the same id |
| `Polling.RevisitLooksSettled` | frontend/src/hooks/useInferenceJob.ts:114-123 | The second case occurs: a history in which a request is in flight and isPolling is false |
| `RelativeTime.RoundIsNearest` | frontend/src/utils/format.ts:37-43 | For every divisor the rounded quotient is a nearest one, halves up |
| `RelativeTime.FormatRelativeTime` | frontend/src/utils/format.ts:30-47 | The loop starts from the nearest second on its side of now and shows the ladder of it, off by at most the slack of its unit and half a second in milliseconds; nothing exactly for an unreadable timestamp |
| `RelativeTime.NestedRoundingStaysAccurate` | frontend/src/utils/format.ts:36-46 | For every offset the shown count is within 30, 1830, 45030 or 304230 seconds of it for minutes, hours, days, weeks, never zero above seconds, and on the right side of now |
| `RelativeTime.BoundsAreReached` | frontend/src/utils/format.ts:36-46 | None of the four bounds can be lowered |
| `RelativeTime.UnitIsByInterval` | frontend/src/utils/format.ts:39-46 | The unit chosen after repeated rounding, by closed intervals of the offset; past and future differ through halves |
| `RelativeTime.FurtherNeverShowsShorter` | frontend/src/utils/format.ts:36-46 | On each side of now a more distant moment is never shown as a shorter span |
| `Training.Shuffle` | inference/train.py:166-167 | Whatever the random draws, the array ends in the order they determine, a permutation of the original one |
| `Training.EveryOrderCanBeDrawn` | inference/train.py:166-167 | Every permutation of the indices is the outcome of some draws |
| `Training.BuildSplit` | inference/train.py:162-173 | For every total and every integer n_val, also negative under Python's slices, a split is accepted exactly when both parts are non-empty, and then cuts the shuffled indices into the validation part and the rest |
| `Training.PartitionCovers` | inference/train.py:166-173 | A partition means: disjoint parts without repetition whose union is exactly 0..total-1 |
| `Training.RunEpoch` | inference/train.py:205-230 | The batch loop fails exactly on no samples; otherwise accuracy times samples is the number of hits, and the mean loss lies between any bounds of the losses |
| `Training.MeanShifts` | inference/train.py:226-230 | Losses that all grow by c move the mean by c |
| `Training.EachLossWeighsTheSame` | inference/train.py:226-230 | One loss that grows by c moves the mean by c over the number of samples |
| `Training.BatchSizeDoesNotMatter` | inference/train.py:205-230 | Two loaders with the same samples, in any order and any batches, get the same returned averages, and accuracy is in [0,1] |
| `Training.KeepBest` | inference/train.py:287-340 | The saved file is the model of the earliest epoch not beaten by any: none has a higher accuracy, none of the same accuracy a lower loss; it agrees with best_acc, best_loss and best_epoch; nothing is saved exactly when no accuracy reaches -1 |
| `Training.EarliestBestIsUnique` | inference/train.py:317-323 | There is only one such epoch |
| `Reconnect.BackoffDoubles` | inference/worker.py:99-102 | The closed form min(2^(k-1), 15) is what doubling with a cap computes |
| `Reconnect.InferenceWorker.Open` | inference/worker.py:108-127 | Each stage of opening that fails leaves exactly what was opened before it |
| `Reconnect.InferenceWorker.CloseQuietly` | inference/worker.py:189-197 | Whether the connection is gone already, closes, or raises on closing, neither connection nor channel stays set, and nothing is raised |
| `Reconnect.InferenceWorker.Run` | inference/worker.py:75-106 | The k-th failure since the last successful open is followed by a sleep of min(2^(k-1), 15) seconds, a turn that ended otherwise or was told to stop by none; at every point of the run the sleep since then adds up to 2^k - 1, or 15(k - 3) from four failures on; the loop ends exactly at a stop or an uncaught exception; nothing is left set, and only what raised on closing is left open |

## Left out

- Drivers and real I/O: psycopg, pika, amqplib, boto3, the AWS SDK, Express and multer appear only as the outcomes of their calls.
- Torch and PIL: the engine is a deterministic function of the bytes, or raises; `duration_ms` is free.
- JSON text: publish and parse exchange JSON values, and non-JSON bodies are one value of their own; a body on which `json.loads` raises RecursionError or a plain ValueError, which `parse_job` does not catch, is not in the model.
- The drain branch of `publishJob` and channel recovery; a message the broker accepts only after `publishJob` has already raised for another reason.
- Queue order and the prefetch limit: the queue is a set and a consumer may buffer any number of deliveries, which allows more runs than the real broker.
- Two simultaneous unanswered deliveries of one message: the broker requeues before it redelivers, so it has at most one.
- UUID spellings Postgres accepts beyond the 36-character form: such ids are treated as invalid, and only foreign messages carry them.
- Foreign messages that name an id the backend issued, and deletion of rows or objects by operators.
- `confidence` rounding to NUMERIC(6,5), floating point and NaN: reals are used throughout.
- Image type detection, `parseLimit`, `requireUuid`, `safeFilename`, environment loading, fixed-attempt startup loops, health routes: single-branch code.
- The `created_at` columns, the history list and the image route.
- The wording of `Intl.RelativeTimeFormat`, and the difference between 0 and -0.
- React itself: renders, effect flushes and cleanups are events in any order, which includes what React does.
- Signal delivery: a stop is seen at the check before sleeping, during the sleep, or at the next loop head.
- Worker.MessageHandler.OnMessage: the bucket is constant during one uninterrupted callback; what other processes do in between is in `Pipeline`, which interleaves single calls.
- Worker.MessageHandler.Infer: an ack that raises is followed by a nack, so the one-settlement clause is stated for a sound channel only.
- Upload.InferenceController.Create: validation arrives as parameters (the parsed file and the detected type) and so does the drawn id.
- Training.Shuffle: the draws of `random.shuffle` are parameters, not the generator's sequence.
- Training.BuildSplit: `n_val` is any integer; how it is rounded from a fraction is not modelled.
- Training.RunEpoch: validation mode only, over reals, for a model that scores samples independently.
- Reconnect.InferenceWorker.Run: what `start_consuming` does in between is the outcome of a turn, and the turns are a finite list.
- Training.KeepBest: accuracies and losses are reals, so NaN comparisons do not arise; "nothing saved" needs an accuracy below -1, which `run_epoch` never returns.
