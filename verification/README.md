# The durable job queue, verified

A media gateway runs image and video generation as durable jobs. One SQLite database holds the jobs, their
attempts, their events, an outbox of dispatches, and the results. Dispatchers lease outbox rows and publish a
message for each; workers receive messages, claim an attempt, call a provider, and commit what came of it
together with the next message. Messages can be lost, duplicated or delayed, processes can die between any two
transactions, and every handler acts on a job row it read earlier. The code is meant never to pay a provider
twice for one job, never to let an old worker overwrite a newer one, and never to lose a job's next step. This
project models that queue. It proves the first two in every run. The third does not hold. What does is that in
runs with a broker every active job has a running attempt or an outbox row for its next one. Whether the job ever
takes that step is a matter of three things, an owner, a delivery and a re-queue, and the condition is proved to
be exact; the ways in which a job is left behind are listed below. With the queue goes the queue switch of the
managed package: a configuration file whose writer and reader undo each other, and an update that rolls back.

## How it is built

* **Records.** `Records.dfy` says what each transaction does to everything the store holds about one job:
  its row, attempts, outbox rows, status events and results. `RecordGrowth.dfy` proves that each of them is one
  legal step of that record.
* **The protocol.** `Protocol.dfy` is a state machine over all jobs, the outbox, the broker and any number of
  in-flight handlers. One action is one committed transaction, one read, or one provider call; a handler can
  stop at any point; a message can be delivered any number of times. `ProtocolInvariant.dfy` proves one joint
  invariant for every action, `ProtocolTheorems.dfy` draws what holds in every run, and `BrokerRuns.dfy` what
  holds in runs with a broker (the attempt chain, the bounded pipeline) and in runs without the public status
  endpoint (one result per success).
* **The store and the code.** `Store.dfy` is a class with one map per table, updated in place. `Workers.dfy`
  runs the transactions of the workers and of local recovery statement by statement, with rollback.
  `Handlers.dfy` runs the stage handlers, the worker entry point and the local backend, with other processes
  changing the tables between any two transactions; each run leaves a ghost trace of protocol steps, and each
  traced step is a step of the whole system. `Admission.dfy`, `Outbox.dfy`, `Dispatcher.dfy`, `Migration.dfy`
  and `Cleanup.dfy` do the same for the rest; `Refinement.dfy` ties them to the two state machines.
  `HandlerRuns.dfy` weaves a handler's trace and whatever fills its gaps into one run of the protocol.
* **Told by the columns.** What a step computes is given once as a function. What it comes to is stated a second
  time, in comparisons of the columns before and after, and proved of the methods and of every run: `Outcomes.dfy`
  for what a provider's answer leads to, `Decisions.dfy` for the decisions along a job's way, and a section of
  that kind in `Admission.dfy`, `Outbox.dfy`, `Dispatcher.dfy`, `Migration.dfy`, `Cleanup.dfy` and
  `QueueSwitch.dfy`.
* **Leases.** `Leases.dfy` is a second state machine: any number of dispatchers over one outbox.
* **Progress.** `Progress.dfy` says what can move an active job and that nothing else does; `Continuations.dfy`
  proves the converse by continuing the run. `GivenUp.dfy` looks at the rows and messages a waiting job depends
  on, and `StrandedRuns.dfy` builds a run for each way in which a job is left behind.
* **Text.** `IsoTime.dfy` shows why time can be an integer in all of this although it is stored as text.
  `EnvFile.dfy` and `QueueSwitch.dfy` are the managed configuration file and the switch.

Where two processes interleave, a method named `Elapse` stands for everything the others may do: its contract
promises little, and its callers know no more than the contract. Database errors, provider answers, the clock
and broker answers are parameters. `hide` statements keep definitions out of proofs that do not need them.

## What does not hold, and when it does

* A job can lose its next step and stay active for ever. In a run with a broker whose jobs are admitted under the
  workers' policy, some continuation changes an active job's record if and only if a handler owns it, its last
  attempt can be begun or resumed by a delivery, or it is queued without an attempt
  (`Continuations.CanMoveIffMovable`); otherwise the record never changes again (`Progress.StuckJobsStay`). The
  cases:
  * Its worker dies between claim and commit at a billable stage, an image execution or a submit whose task is not
    stored. Redelivery is answered as a duplicate, a re-queue takes only queued jobs without an attempt, and the
    digest stays taken (`Progress.LostOwnersStrandTheJob`; the run is `StrandedRuns.OwnerDies`).
  * Its message is lost, or was used up by a delivery that ended in an error after its claim. A job on which nobody
    is at work, whether it waits for its next attempt or has a resumable attempt without a worker, stays as it is
    until that attempt is delivered, a queued job also until it is re-queued
    (`Progress.QuietJobsNeedADelivery`). A published row is never leased again
    (`GivenUp.FinishedRowsAreNotLeased`), and a re-queue repairs no job that has reached a worker
    (`GivenUp.StartedJobsAreNotRepaired`). The run is `StrandedRuns.MessageLost`.
  * Its outbox row is given up, because a publish was refused for good or the row was claimed as often as the limit
    allows; a row is undeliverable if and only if that, or a re-queue, happened to it
    (`Leases.UndeliverableIffGivenUp`). An active job that waits is stranded if and only if every row for its next
    attempt was given up (`GivenUp.StrandedIffGivenUp`), and if none of them was ever sent it stays as it is
    (`GivenUp.UnsentJobsStayActive`). The run is `StrandedRuns.ContinuationGivenUp`.
  * The same for a job that never reached a worker. A re-queue does not help here either, because it looks for a
    published row: the dispatcher will not send the job and a re-queue will not repair it if and only if every row
    was given up (`GivenUp.UnstartedJobIsLostIffStranded`; the run is `StrandedRuns.AdmissionGivenUp`).
  * No handler accepts it: it was admitted at a polling or import stage, where a handler wants a stored task.
* A value with a line break does not survive the configuration file; a stripped, non-empty value survives if
  and only if it has none (`EnvFile.ReadsBackIffOneLine`, `EnvFile.LineBreakIsLost`). The check of a broker URL
  does not refuse an inner line break, because URL parsing drops it. So a switch to the broker can succeed and
  forget its URL; it remembers it if and only if the URL is one line (`QueueSwitch.BrokerUrlIsRemembered`,
  `QueueSwitch.SwitchCanForgetItsUrl`).
* Local recovery writes the next attempt, or ends the job, even when the failed delivery never opened its own
  attempt, and then the attempt numbers have a gap. The chain survives a recovery if and only if the attempt
  its message names was running (`BrokerRuns.RecoveryKeepsChainIffAttemptRan`), and over a whole run the chains
  last if and only if this is so for every recovery that commits
  (`BrokerRuns.ChainsLastIffRecoveriesFindTheirAttempt`). It is not so for a first delivery whose claim raised
  (`BrokerRuns.RecoveryAbandonsAnUnopenedAttempt`) nor for a poll whose claim raised
  (`BrokerRuns.RecoverySkipsAnUnopenedAttempt`).
* An outbox row that was claimed more than 1024 times and cannot be sent is neither put back nor given up: its
  retry delay is past the range of a float, and the error ends the dispatcher's pass (`Dispatcher.FateOnTheRow`,
  `Dispatcher.RetryDelayGrowsToItsCap`).

## Model

| member | source | states |
|---|---|---|
| `Model.ConfiguredPolicyIsValid` | scripts/angemedia_gateway/services/video_polling.py:29-44 | Whatever interval and maximum are configured, the repaired policy passes its own validation, and its attempt limit leaves room to poll for the whole allowed time unless it is the cap of 1000. |
| `Model.PolicyFromSettings` | scripts/angemedia_gateway/services/video_polling.py:34-44 | What configured settings become: an interval of at least a tenth of a second, a time of at least one interval, delays of at most a minute, and the smallest attempt limit that leaves room for every poll that fits the time and three more, but at most 1000. |
| `Model.BackoffGrowsToItsCap` | scripts/angemedia_gateway/services/video_polling.py:46-48 | The poll delay never shrinks from one attempt to a later one and never exceeds the cap. |
| `Model.BackoffInFigures` | scripts/angemedia_gateway/services/video_polling.py:46-48 | The poll delay in figures: the interval times 1, 2, 4, 8, 16, 32, and 64 from the seventh attempt on, never more than the cap. |
| `RecordGrowth.TransitionRow` | scripts/angemedia_gateway/repositories/jobs.py:434-510 | A successful compare-and-swap held the stored version, raises it by one, moves status and stage along the allowed tables, keeps the stage within the job's kind, keeps a provider task unless it is first set, and extends an explained trail. |
| `RecordGrowth.ClaimGrows` | scripts/angemedia_gateway/services/video_job_worker.py:61-121 | An owned claim is one legal row change: version plus one, same stage, status running, one new running attempt, nothing else. |
| `RecordGrowth.ScheduleGrows` | scripts/angemedia_gateway/services/video_job_worker.py:156-236 | A schedule is one legal row change to the next stage: the attempt is closed, exactly one continuation for attempt plus one appears, the task is recorded, results stay. |
| `RecordGrowth.RecoverGrows` | scripts/angemedia_gateway/services/local_worker_failure_recovery.py:67-179 | Every committed recovery is one legal row change and is conservative: it fails the job, or keeps it running at the same stage with exactly one new dispatch for attempt plus one within the limit. |
| `ProtocolInvariant.StepKeeps` | scripts/angemedia_gateway/services/video_job_worker.py:56-578 | Every action of every actor keeps the joint invariant over jobs, attempts, dispatches, events and in-flight handlers: explained trails, honest messages, snapshots no newer than the store, provider licences, unique active requests. |
| `ProtocolTheorems.JobsOnlyMoveForward` | scripts/angemedia_gateway/repositories/jobs.py:21-40 | Over any run a stored job only moves forward: terminal statuses absorb, the stage rank never falls, the provider task and the start time never change once set, the attempt count never falls, the version changes whenever the row does, trail and outbox only grow. |
| `ProtocolTheorems.BillableCallsAtMostOnce` | scripts/angemedia_gateway/services/video_job_worker.py:395-453 | In every run, with redelivery, concurrency, crashes, recovery, re-queue and cleanup, at most one billable provider call (a video submit, an image execution) is counted per job. |
| `ProtocolTheorems.NoSecondBillableCall` | scripts/angemedia_gateway/services/image_job_worker.py:50-104 | No run contains two different steps that make a billable provider call for the same job; stated on the steps, without a counter. |
| `ProtocolTheorems.TaskNeverChanges` | scripts/angemedia_gateway/services/video_job_worker.py:357-393 | Once a job's provider task is set, it is the same in every later state that still stores the job. |
| `ProtocolTheorems.VersionRisesByOne` | scripts/angemedia_gateway/repositories/jobs.py:355-410 | A step leaves a job row exactly as it was or raises its version by exactly one. |
| `ProtocolTheorems.OneWinnerPerVersion` | scripts/angemedia_gateway/repositories/jobs.py:444-491 | Of all claims, handler commits, recoveries and writes of the status endpoint that hold one expected version of a job, at most one commits. |
| `ProtocolTheorems.TerminalMeansFinalized` | scripts/angemedia_gateway/repositories/jobs.py:452-455 | In every run a job's stage fits its kind, and the job is terminal exactly when its stage is finalize. |
| `ProtocolTheorems.TrailExplainsTheRow` | scripts/angemedia_gateway/repositories/jobs.py:492-510 | The status events of a job form a path of allowed steps from queued; each from-status is the status before it and the last to-status is the row's. |
| `ProtocolTheorems.ActiveRequestsAreUnique` | scripts/angemedia_gateway/services/job_admission.py:74-92 | In every reachable state two active jobs with the same kind, digest and hash version are the same job. |
| `ProtocolTheorems.RecoveryIsConservative` | scripts/angemedia_gateway/services/local_worker_failure_recovery.py:30-65 | In every run a committed recovery fails the job, or keeps it running at its stage with one new dispatch for the next attempt, the latter only for resumable video stages and never for images. |
| `Decisions.AnswersDecideTheRecord` | scripts/angemedia_gateway/services/video_job_worker.py:395-578 | What each answer leads to, in any run and on the written record: an accepted submit goes to polling with its new task and attempt plus one; a completed poll goes to the import, a pending one to another poll, both closing the attempt as succeeded; a failed or disabled provider fails the job; any other answer repeats the stage with the attempt failed, or fails the job when its attempts or its seconds are used up; a completed import or image succeeds with exactly one result. |
| `Decisions.SecondTriesDecideTheRecord` | scripts/angemedia_gateway/services/video_job_worker.py:414-453 | What the transaction after a rolled-back one writes, in any run: an accepted task is kept on the job at its submit stage, an import is retried or fails when exhausted, an image whose result could not be written fails; a poll has no second transaction. |
| `Decisions.CommitsEnd` | scripts/angemedia_gateway/services/video_job_worker.py:414-453 | How a handler ends: done after a commit, dropped when a newer version was there, left with an accepted task to keep or an import to retry after another fault, and with an error otherwise, also after the kept task. |
| `Decisions.SuccessNeedsACompletedAnswer` | scripts/angemedia_gateway/services/video_job_worker.py:507-578 | In every run a job that the queue's own code makes succeed does so in the transaction of a handler that was answered completed before, at the import or the image stage. |
| `Decisions.CompletedAnswersSucceed` | scripts/angemedia_gateway/services/video_job_finalizer.py:29-109 | In every run with a broker the transaction after a completed import or image commits unless it meets a database fault or a newer version, and leaves the job succeeded with its result. |
| `Decisions.RepeatedRequestsAreRefused` | scripts/angemedia_gateway/services/job_admission.py:74-109 | In every run, while an admitted job with a digest is active, no admission of its kind that names the digest, as its own or as a candidate, is possible. |
| `Decisions.AdmittedAsAsked` | scripts/angemedia_gateway/services/job_admission.py:94-131 | An admission stores the kind, stage, digest and attempt limit it was asked with, as a queued job of version 0 without task or start, with one outbox row for attempt 1. |
| `Decisions.RecoveryWrites` | scripts/angemedia_gateway/services/local_worker_failure_recovery.py:30-179 | What a committed recovery writes, exactly: one more dispatch at the same stage if and only if the message was no duplicate, the job is a video within its attempt limit, and the stage is a poll, an import, or a submit whose task is stored; otherwise the job fails. |
| `Decisions.RecoveriesStart` | scripts/angemedia_gateway/services/local_worker_failure_recovery.py:30-58 | Recovery after a local delivery looks at the job again and acts only if it is stored and not over; it knows a surfaced duplicate from an error. |
| `Decisions.VideoClaimsAnswer` | scripts/angemedia_gateway/services/video_job_worker.py:61-121 | A video attempt is owned exactly when it is new, nothing runs at its stage and the job is active at that stage in the version that was read; it is resumed exactly when it is known to run at a stage that asks for no second video. |
| `Decisions.VideoRefusals` | scripts/angemedia_gateway/services/video_job_worker.py:61-104 | The refusals: a known or busy submit is ambiguous, any other known attempt a duplicate, any other busy stage in flight. |
| `Decisions.ImageClaimsAnswer` | scripts/angemedia_gateway/services/image_job_worker.py:50-86 | An image attempt is owned exactly when it is new and the job is still queued at its stage in the version that was read; it is never resumed. |
| `Decisions.OwnedWrites` | scripts/angemedia_gateway/repositories/jobs.py:383-410 | What owning writes: running, one version on, started now unless started before, the attempt count raised to the attempt, everything else as it was, the attempt running. |
| `Decisions.ClaimsEnd` | scripts/angemedia_gateway/services/video_job_worker.py:56-121 | Where a claim ends: a refused job or a fault raises, a job that is gone or has moved on is dropped, a known or busy attempt surfaces, and an owner goes on to ask unless its payload cannot be read. |
| `Decisions.RoutingAnswers` | scripts/angemedia_gateway/services/worker_runtime.py:38-98 | Where a delivery goes, column by column: a known attempt is taken up again or is a duplicate, an unknown one is turned away by a terminal job, the limit, or another stage, in that order, and enters otherwise. |
| `Decisions.RejectionsEnd` | scripts/angemedia_gateway/services/worker_runtime.py:52-98 | A noted duplicate surfaces, a noted late message is dropped, a message past the limit raises, and so does every rejection that could not be noted. |
| `Decisions.NotImplementedWrites` | scripts/angemedia_gateway/services/worker_runtime.py:100-133 | A stage without a handler: an active job waiting there gets a failed attempt and one version more and stays as it is; a known attempt is a database error, any other job a stale one. |
| `Decisions.TransitionAnswers` | scripts/angemedia_gateway/repositories/jobs.py:434-510 | The compare-and-swap's answers: stale exactly when the version differs, and a success writes the status, the wanted stage or the last one for an ending, a given task or the old one, and nothing else. |
| `Decisions.StageTable` | scripts/angemedia_gateway/repositories/jobs.py:29-40 | The allowed stage changes within a kind are exactly: stay, end, or go to the next stage of the kind's pipeline. |
| `BrokerRuns.AttemptsFormAChain` | scripts/angemedia_gateway/services/video_job_worker.py:133-236 | Under the broker's steps the dispatched attempt numbers of a job are exactly 1..n, attempts before n are finished, a continuation is written once, and while the job is active attempt n is running or an outbox row names the job's stage with the unused number n; that the attempt has a worker or the row is still being delivered is not claimed, see Continuations.CanMoveIffMovable. |
| `BrokerRuns.AtMostOneRunningAttempt` | scripts/angemedia_gateway/repositories/job_attempts.py:82-133 | At most one attempt of a job runs, its stage is the job's stage, and the job is running. |
| `BrokerRuns.RecoveryKeepsChainIffAttemptRan` | scripts/angemedia_gateway/services/local_worker_failure_recovery.py:67-127 | What a recovery commits is still an attempt chain if and only if the attempt its message names was running: the exact condition under which local recovery skips no number and strands none. |
| `BrokerRuns.OneGenerationPerSuccess` | scripts/angemedia_gateway/repositories/generations.py:45-78 | For jobs moved by workers and recovery, a linked generation row exists exactly when the job succeeded, and never more than one. |
| `BrokerRuns.ChainsLastIffRecoveriesFindTheirAttempt` | scripts/angemedia_gateway/services/local_worker_failure_recovery.py:30-179 | Over any run without the status endpoint, local recovery included, every stored job is chained in every state if and only if every recovery that committed named an attempt that was running. |
| `BrokerRuns.RecoveryAbandonsAnUnopenedAttempt` | scripts/angemedia_gateway/services/local_worker_failure_recovery.py:128-179 | The chain can break: a fresh job's first delivery fails before its claim, recovery fails the job, and attempt 1 stays dispatched but never opened. |
| `BrokerRuns.RecoverySkipsAnUnopenedAttempt` | scripts/angemedia_gateway/services/local_worker_failure_recovery.py:67-117 | The chain can break at a resumable stage: the claim of a poll raises, recovery dispatches attempt 3, and attempt 2 is skipped for good. |
| `BrokerRuns.PollingIsReached` | scripts/angemedia_gateway/services/video_job_worker.py:395-453 | The job of that input is what admission, a claim and an accepted submit make. |
| `BrokerRuns.OutboxMessagesCanBeBuilt` | scripts/angemedia_gateway/queue/messages.py:33-50 | When admission and workers share a policy, every message a stored job's outbox ever held names an executable stage and an attempt between 1 and 1000, so it can be built. |
| `Refinement.DispatcherCanBuildEveryMessage` | scripts/angemedia_gateway/services/job_dispatcher.py:63-66 | The same on the tables: the dispatcher can build the message of every stored outbox row of a stored job, and never gives one up as malformed. |
| `BrokerRuns.LimitNeverRejects` | scripts/angemedia_gateway/services/worker_runtime.py:73-84 | When admission and workers share a policy, the runtime's attempt limit never rejects a delivery for a stored job, whatever attempt row it then finds. |
| `BrokerRuns.ContinuationsAreBounded` | scripts/angemedia_gateway/services/video_job_worker.py:328-337 | Under a shared policy the chain of a video job never passes the policy's attempt limit, which is at most 1000. |
| `BrokerRuns.LastAttemptEndsTheJob` | scripts/angemedia_gateway/services/video_job_worker.py:462-467 | A handler that commits on the last permitted attempt leaves the job terminal. |
| `Store.Store.TransitionJob` | scripts/angemedia_gateway/repositories/jobs.py:434-510 | The compare-and-swap commits exactly the specified row change and one status event, or changes no row and says why. |
| `Store.Store.ClaimJobAttempt` | scripts/angemedia_gateway/repositories/jobs.py:383-410 | The claim succeeds exactly when version, stage and status allow it, and changes only that job's row. |
| `Store.Store.CreateAttempt` | scripts/angemedia_gateway/repositories/job_attempts.py:14-52 | One attempt row per job and number: a second insert is refused and changes nothing. |
| `Store.Store.HasRunningStageAttempt` | scripts/angemedia_gateway/repositories/job_attempts.py:82-99 | True exactly when the job has a running attempt at that stage. |
| `Store.Store.FinishAttempt` | scripts/angemedia_gateway/repositories/job_attempts.py:102-133 | Only a running attempt is closed; any other row, and every other job, stays as it was. |
| `Store.Store.CreateDispatch` | scripts/angemedia_gateway/repositories/job_dispatches.py:20-47 | Adds exactly one row: pending, for this job and work, due at the given time, never claimed and held by nobody. |
| `Store.Store.RecordGeneration` | scripts/angemedia_gateway/repositories/generations.py:45-78 | The job's row is new exactly when it had none; a later call answers with the first row, and existing rows are never changed. |
| `Store.AssetsGained` | scripts/angemedia_gateway/services/generation_assets.py:55-86 | Saving the files of a result adds exactly these assets, each linked to the job unless it already named one, and changes no other asset. |
| `Store.Store.AppendEvent` | scripts/angemedia_gateway/repositories/job_events.py:14-41 | Appends one event; an event without statuses leaves every job's record as it was. |
| `Workers.EndTransaction` | scripts/angemedia_gateway/db/connection.py:20-30 | A transaction block commits its statements, or restores every table to what it was when it began. |
| `Workers.VideoJobWorker.Claim` | scripts/angemedia_gateway/services/video_job_worker.py:56-121 | The claim owns the attempt, resumes it, or refuses with the reason, exactly as specified on the job's record; a refusal or resumption changes no record. |
| `Workers.VideoJobWorker.Schedule` | scripts/angemedia_gateway/services/video_job_worker.py:156-236 | All or nothing: the specified row, attempt, outbox and event changes together with the due time of the continuation, or no row changed. |
| `Workers.VideoJobWorker.Fail` | scripts/angemedia_gateway/services/video_job_worker.py:238-315 | All or nothing: job failed and finalized, attempt closed, event written, or no row changed. |
| `Workers.VideoJobWorker.RecordSubmittedRecovery` | scripts/angemedia_gateway/services/video_job_worker.py:357-393 | All or nothing: the accepted task is kept on the job at its submit stage, or no row changed. |
| `Workers.VideoJobWorker.FinalizeImported` | scripts/angemedia_gateway/services/video_job_finalizer.py:29-109 | Generation, asset, job, attempt and event are written together, or no row changed; on success the generations gain the job's row and the assets exactly the given files, linked to the job. |
| `Workers.ImageJobWorker.Claim` | scripts/angemedia_gateway/services/image_job_worker.py:50-86 | An image attempt is owned only from a queued job and only once; otherwise no record changes. |
| `Workers.ImageJobWorker.PersistSuccess` | scripts/angemedia_gateway/services/image_job_worker.py:106-169 | A result without any asset is refused after the generation row was written, and then that row is gone again; otherwise everything commits together, and the generations and assets are exactly the old ones with the job's row and the given files. |
| `Workers.ImageJobWorker.PersistFailure` | scripts/angemedia_gateway/services/image_job_worker.py:171-214 | All or nothing: job failed, attempt closed, event written. |
| `Workers.WorkerRuntime.Route` | scripts/angemedia_gateway/services/worker_runtime.py:43-98 | From the job as read before and the attempt row as read now, a delivery is routed to resume, duplicate, terminal, over the limit, stale, a handler or no handler, exactly as the protocol routes it. |
| `Workers.WorkerRuntime.NoteRejection` | scripts/angemedia_gateway/services/worker_runtime.py:60-92 | A rejection is noted in a transaction of its own: one event, or none when the database fails or the job has been removed meanwhile; no record changes. |
| `Workers.WorkerRuntime.RecordNotImplemented` | scripts/angemedia_gateway/services/worker_runtime.py:100-133 | A stage without a handler leaves one failed attempt and a bumped version, or no change at all. |
| `Workers.LocalWorkerFailureRecovery.Settle` | scripts/angemedia_gateway/services/local_worker_failure_recovery.py:67-179 | Recovery commits the specified retry or terminal failure, closing the attempt with it, or changes no row; a retry waits for nothing, its outbox row is due at once. |
| `Handlers.VideoStages.HandleSubmit` | scripts/angemedia_gateway/services/video_job_worker.py:395-453 | Whatever other processes do between its transactions, each step is an enabled protocol step; the provider is asked exactly once if the claim was granted and no task is stored, else never; what is written is what the answer calls for, told by the columns, with the accepted task kept when its continuation could not be written; the continuation is due after the delay of the attempt. |
| `Handlers.VideoStages.HandlePoll` | scripts/angemedia_gateway/services/video_job_worker.py:455-505 | Each step is an enabled protocol step, none is billable; what is written is what the answer calls for, told by the columns: a finished video is imported at once, an unfinished one polled again after the attempt's delay, a failed one fails the job, anything else is a failed attempt that is repeated until attempts or seconds run out. |
| `Handlers.VideoStages.HandleAssetImport` | scripts/angemedia_gateway/services/video_job_worker.py:507-578 | Each step is an enabled protocol step, none is billable; a completed import succeeds with one result, a failed, disabled, address-less or forbidden one fails the job, anything else repeats the import after the delay, also after a failure that could not be written; a newer version ends it quietly. |
| `Handlers.ImageStage.Handle` | scripts/angemedia_gateway/services/image_job_worker.py:40-104 | Each step is an enabled protocol step, and the image is executed exactly once if the claim was granted, else never; a completed result that can be kept succeeds, everything else fails the job. |
| `Handlers.DeliveryRuntime.Handle` | scripts/angemedia_gateway/services/worker_runtime.py:38-133 | One delivery from reading the job to its end is a trace of enabled protocol steps with at most one billable call, although the job is read, the attempt is read and a rejection is noted at three different times. |
| `Handlers.LocalQueueBackend.Publish` | scripts/angemedia_gateway/queue/local_backend.py:38-64 | A local delivery always runs to the end of the protocol: an exception or surfaced duplicate goes through recovery, and at most one billable call is made. |
| `HandlerRuns.TraceInARun` | scripts/angemedia_gateway/services/worker_runtime.py:38-133 | A traced delivery whose gaps are filled by protocol steps extends the run by exactly what filled them and its own steps, each in its place, to the last phase and tables of the trace. |
| `HandlerRuns.DeliveryDoesNotBillAgain` | scripts/angemedia_gateway/services/video_job_worker.py:395-453 | The handlers' own code inside any run, whatever is interleaved: the billable calls made for the job before the delivery and those of its trace are at most one together. |
| `Handlers.StepOfTheWholeSystem` | scripts/angemedia_gateway/services/worker_runtime.py:38-133 | A traced step is a step of every protocol state with the same tables in which the delivery is one handler among any others, with the same tables and phase after it. |
| `Admission.JobAdmissionService.FindRecent` | scripts/angemedia_gateway/repositories/jobs.py:178-210 | Answers with the newest active job of this kind and digest, and with nothing exactly when there is none. |
| `Admission.JobAdmissionService.Admit` | scripts/angemedia_gateway/services/job_admission.py:35-131 | All or nothing: an active job matching the earliest candidate digest that has one is returned and nothing changes, or no candidate is active and exactly one job appears as asked for, told by the columns, with its digest, one event and one pending dispatch for attempt 1, due when scheduled; both conditions are exact, database errors included. |
| `Admission.AskedAgain` | scripts/angemedia_gateway/services/job_admission.py:74-92 | The second call: while the job admitted with a digest is active, an admission of its kind whose candidates include the digest finds one, so it creates none. |
| `Refinement.AdmissionIsAStep` | scripts/angemedia_gateway/services/job_admission.py:61-131 | An admitted request is an enabled admission step of the protocol, with the same records after it. |
| `Refinement.RequeueIsAStep` | scripts/angemedia_gateway/repositories/job_dispatches.py:105-132 | Every repaired job takes an enabled re-queue step of the protocol, with the same record after it. |
| `Refinement.CleanupIsAStep` | scripts/angemedia_gateway/repositories/jobs.py:293-340 | Cleanup by hand is an enabled cleanup step of the protocol. |
| `Refinement.RetentionIsAStep` | scripts/angemedia_gateway/services/maintenance_retention.py:84-107 | Retention is an enabled cleanup step of the protocol. |
| `Refinement.ClaimIsALeaseStep` | scripts/angemedia_gateway/repositories/job_dispatches.py:146-168 | What a dispatcher leases is a claim step of the lease machine. |
| `Refinement.RenewalIsALeaseStep` | scripts/angemedia_gateway/repositories/job_dispatches.py:105-132 | What one turn of the repair loop does to the outbox is a re-queue step of the lease machine. |
| `Refinement.TurnIsALeaseStep` | scripts/angemedia_gateway/services/job_dispatcher.py:84-142 | The statement that settles a row's turn is a mark or release step of the lease machine and leaves the same outbox. |
| `Queries.Select` | scripts/angemedia_gateway/repositories/job_dispatches.py:147-157 | An ordered, limited query lists the first rows, each once, as many as there are up to the limit. |
| `Queries.ListedOnce` | scripts/angemedia_gateway/services/maintenance_retention.py:101-106 | An order without ties leaves exactly one answer to an ordered, limited query. |
| `Text.StripTakesWhitespace` | scripts/angemedia_gateway/services/queue_runtime.py:119-121 | Stripping takes whitespace off both ends, all of it and nothing else. |
| `Outbox.OutboxRepository.ClaimPending` | scripts/angemedia_gateway/repositories/job_dispatches.py:136-168 | Only rows go that are pending and available by now, or publishing with an expiry by now, in the order of availability and creation, at most 500; one that could go stays only when the limit is reached, behind all that went; each gets the token, the expiry and one more attempt, and no other row and no job record changes. |
| `Outbox.OutboxRepository.MarkPublished` | scripts/angemedia_gateway/repositories/job_dispatches.py:171-188 | Succeeds exactly for the current holder; the row is published at the given time and held by nobody, and nothing else about it or any other row changes. |
| `Outbox.OutboxRepository.Release` | scripts/angemedia_gateway/repositories/job_dispatches.py:191-214 | Succeeds exactly for the current holder; the row is pending again from the given time or given up, held by nobody, with its attempt count and work kept, and no other row changes. |
| `Outbox.OutboxAdministration.RequeueOrphaned` | scripts/angemedia_gateway/repositories/job_dispatches.py:78-133 | Of the oldest queued jobs named, or of all, exactly those without an attempt and with a published row give up the row published last for a pending one with the same work, due at once; the two counts add up to the jobs looked at, and no other row changes. |
| `Outbox.RepairsInRecords` | scripts/angemedia_gateway/repositories/job_dispatches.py:105-132 | A repair adds the same work once more to the repaired jobs' records and leaves every other record alone. |
| `Leases.PublishingMeansHeld` | scripts/angemedia_gateway/repositories/job_dispatches.py:159-168 | For any number of interleaved dispatchers, a row is publishing exactly when it holds a token and an expiry, and the token is the latest claimant's. |
| `Leases.OnlyLatestClaimantSettles` | scripts/angemedia_gateway/repositories/job_dispatches.py:171-214 | A claimant changes a row by marking or releasing it only while nobody has claimed the row after it. |
| `Leases.NoEarlyReclaim` | scripts/angemedia_gateway/repositories/job_dispatches.py:150-158 | While a row stays, its lease ends only by its holder's own mark or release, or by a claim at or after the expiry. |
| `Leases.ClaimsComeInTime` | scripts/angemedia_gateway/repositories/job_dispatches.py:150-158 | No claim of a run comes early: a pending row is claimed at or after its available time, a publishing one at or after its expiry. |
| `Leases.PendingRowsWait` | scripts/angemedia_gateway/repositories/job_dispatches.py:150-158 | A row that is pending at some moment of a run is next claimed at or after the time it was available from then, whatever else happens to the outbox. |
| `Leases.PublishedWasSent` | scripts/angemedia_gateway/services/job_dispatcher.py:80-88 | A row marked published stands for an earlier publish of that row that returned. |
| `Leases.ReleasesAreBounded` | scripts/angemedia_gateway/services/job_dispatcher.py:117-134 | Over a row's whole life it is put back to pending fewer times than the attempt limit, whatever is claimed, lost or reclaimed meanwhile. |
| `Leases.UnfinishedRowsComeDue` | scripts/angemedia_gateway/repositories/job_dispatches.py:150-158 | A row comes due again from some moment on exactly when it is pending or publishing: nobody's death strands it. |
| `Leases.UndeliverableIffGivenUp` | scripts/angemedia_gateway/repositories/job_dispatches.py:199-213 | Over any run a stored row is undeliverable if and only if an earlier step gave it up: its holder's release after a permanent refusal or at the attempt limit, or a re-queue. |
| `GivenUp.StrandedIffGivenUp` | scripts/angemedia_gateway/services/job_dispatcher.py:117-134 | A waiting job, queued or running, has a row for its next attempt that names its stage, past attempt 1 exactly one; none of them is left to deliver if and only if each was given up. |
| `GivenUp.UnsentJobsStayActive` | scripts/angemedia_gateway/repositories/job_dispatches.py:78-104 | If none of the rows for the attempt a job waits for was ever sent, the job stays as it is, and active, in every later state of a run with a broker; only a queued job can be re-queued. |
| `GivenUp.UnstartedJobIsLostIffStranded` | scripts/angemedia_gateway/repositories/job_dispatches.py:98-116 | For a job without an attempt: no row is left for the dispatcher to send and a re-queue does not repair it, if and only if every row of it was given up. |
| `GivenUp.StartedJobsAreNotRepaired` | scripts/angemedia_gateway/repositories/job_dispatches.py:105-116 | A re-queue repairs no job that has an attempt. |
| `GivenUp.FinishedRowsAreNotLeased` | scripts/angemedia_gateway/repositories/job_dispatches.py:147-158 | A row that was published or given up keeps being one or the other and is never leased again, in any run of the dispatchers. |
| `Progress.StuckJobsStay` | scripts/angemedia_gateway/services/worker_runtime.py:44-64 | An active job that no handler owns, whose last attempt no delivery can begin or resume, and that cannot be re-queued keeps its record in every later state of a run with a broker. |
| `Progress.LostOwnersStrandTheJob` | scripts/angemedia_gateway/services/video_job_worker.py:61-87 | A running attempt at a billable stage without an owner stays as it is for ever, the job stays active, and an admission with its digest is never possible again. |
| `Progress.QuietJobsNeedADelivery` | scripts/angemedia_gateway/worker/tasks.py:17-24 | A job on which nobody is at work keeps its record until its last attempt is delivered, or, if it is queued, until it is re-queued: redeliveries of older attempts, crashes and cleanup do not move it. |
| `Continuations.CanMoveIffMovable` | scripts/angemedia_gateway/services/worker_runtime.py:38-98 | Exactly when an active job can still move: some continuation of the run changes its record if and only if a handler owns it, a delivery can begin or resume its last attempt, or it can be re-queued. |
| `StrandedRuns.OwnerDies` | scripts/angemedia_gateway/services/video_job_worker.py:395-453 | A run with a broker in which a worker dies after its claim at the submit stage, so that the attempt runs without an owner although its message is still in the broker. |
| `StrandedRuns.MessageLost` | scripts/angemedia_gateway/services/job_dispatcher.py:77-86 | A run of the queue and one of its dispatchers in which the message of a job's next attempt was published, every row is published, and nobody is at work on the running job. |
| `StrandedRuns.AdmissionGivenUp` | scripts/angemedia_gateway/services/job_dispatcher.py:101-134 | A run of the queue and one of its dispatchers in which the only row of a queued job was given up, and a re-queue would not repair it. |
| `StrandedRuns.ContinuationGivenUp` | scripts/angemedia_gateway/services/job_dispatcher.py:101-134 | A run of the queue and one of its dispatchers that agree on the job's rows and on what was sent, after which the running job waits for a row that was given up and no re-queue is enabled. |
| `Dispatcher.RetryDelayGrowsToItsCap` | scripts/angemedia_gateway/services/job_dispatcher.py:43-50 | For every configuration the retry delay exists exactly for at most 1024 claims, past which the power overflows; where it exists it is non-decreasing in the attempt and stays between the base and the cap. |
| `Dispatcher.RetryDelayDoubles` | scripts/angemedia_gateway/services/job_dispatcher.py:166-167 | The retry delay in figures: the base for a first claim, twice the last one for each later claim, never more than the maximum, and without a value past 1024 claims. |
| `Dispatcher.SettingsAreRepaired` | scripts/angemedia_gateway/services/job_dispatcher.py:43-49 | A setting in its range is kept, any other moves to the edge: at least 1, a base of at least a tenth of a second, a maximum of at least the base. |
| `Dispatcher.FateOnTheRow` | scripts/angemedia_gateway/services/job_dispatcher.py:101-142 | A sent row is marked or keeps its lease and is never put back; a row goes back only below the attempt limit and not before now; a dropped row was lost, sent, or is marked undeliverable; a turn that aborts the pass did not send its row. |
| `Dispatcher.JobDispatcher.Deliver` | scripts/angemedia_gateway/services/job_dispatcher.py:63-142 | One row's turn, with other processes working in between: a message that was taken marks its row, or leaves it when the mark fails or the lease is lost; any other row still held goes back, due after the delay to the microsecond, or is given up exactly when no message can be built, the refusal is permanent, or it was claimed as often as allowed; no other row changes. |
| `Dispatcher.JobDispatcher.DispatchOnce` | scripts/angemedia_gateway/services/job_dispatcher.py:52-149 | A pass that returns accounts for every claimed row once: claimed equals published plus retried plus failed, each counter being the number of turns that ended that way; a pass that raises stops in the turn of the row it could not release. |
| `Migration.QueueFoundation.Migrate` | scripts/angemedia_gateway/db/migrations.py:44-137 | The nested loops leave exactly the repaired table, told by the columns: a row fails, finalized and one version on, exactly when an active row with its kind, digest and version was created before it, or at the same time with a smaller id; no other table changes. |
| `Migration.OnlyLosersAreClosed` | scripts/angemedia_gateway/db/migrations.py:118-137 | A row is closed exactly when an earlier row, by creation time and id, of its kind, digest and hash version is active; every other row is kept, but a finished row that still stood at admitted moves to finalize. |
| `Migration.RepairTold` | scripts/angemedia_gateway/db/migrations.py:118-137 | Every row by its columns: failed, finalized, one version on and otherwise kept, exactly when another active row of its kind, digest and version has a smaller creation time, or the same and a smaller id; else as it was, or finalized when it was finished and still at admitted. |
| `Migration.IndexCanBeCreated` | scripts/angemedia_gateway/db/migrations.py:138-143 | From any old table the repair makes the unique index over active requests hold. |
| `Migration.EveryRequestSurvives` | scripts/angemedia_gateway/db/migrations.py:126-137 | Every request that was active stays active, unchanged, in its earliest row. |
| `Migration.SurvivorCameFirst` | scripts/angemedia_gateway/db/migrations.py:126-137 | For every active request one row survives unchanged, and it was created before every other active row of that request, or at the same time with a smaller id. |
| `Migration.RepairIsIdempotent` | scripts/angemedia_gateway/db/migrations.py:118-137 | A second repair changes nothing. |
| `Migration.SchemaMigrations.Run` | scripts/angemedia_gateway/db/migrations.py:164-188 | Missing migrations are applied in order, each once; one that fails leaves the table as those before it made it, is not recorded, and stops the run. |
| `Migration.SecondRunChangesNothing` | scripts/angemedia_gateway/db/migrations.py:171-177 | A run in which every migration is recorded leaves the jobs table as it is. |
| `Migration.FirstRunMakesTheIndexHold` | scripts/angemedia_gateway/db/migrations.py:158-188 | After a first run that succeeds the unique index holds, whatever the table was. |
| `Cleanup.RemovalIsClean` | scripts/angemedia_gateway/repositories/jobs.py:312-332 | Removing jobs leaves no row of any table that names them, keeps every asset and generation, and keeps every other job's record. |
| `Cleanup.CountsTold` | scripts/angemedia_gateway/repositories/jobs.py:312-340 | Each reported count is what the table lost, and every changed link of an asset or generation led to a removed job and is empty now. |
| `Cleanup.DeleteJobRecords` | scripts/angemedia_gateway/services/maintenance_retention.py:140-157 | The statements leave exactly the cleaned tables, and each reported count is the number of rows that named the removed jobs before. |
| `Cleanup.CleanupJobs` | scripts/angemedia_gateway/repositories/jobs.py:269-340 | Refused exactly without a terminal status; otherwise only finished jobs go that have one of the statuses, are named if any is, and were created before the date if one is given; at most 500, and one that is left is left because the limit was reached by jobs no older; exact counts. |
| `Cleanup.CleanupTakesFinishedJobs` | scripts/angemedia_gateway/repositories/jobs.py:279-305 | Only terminal jobs are taken, and afterwards nothing names them. |
| `Cleanup.RetentionCleanup` | scripts/angemedia_gateway/services/maintenance_retention.py:44-94 | Refused exactly without the phrase or out of range, and then nothing changes; otherwise only finished jobs and sessions go that were last updated more than the given days before now, each only if its kind is included, at most the limit of each, and one that old stays only if the limit was reached by rows staler by update time, creation time and id; the counts previewed equal those deleted. |
| `Cleanup.SessionRemovalIsClean` | scripts/angemedia_gateway/services/maintenance_retention.py:160-171 | Removing sessions removes exactly their messages and runs, keeps all others as they were, and reports what the tables lost. |
| `EnvFile.WordsOfQuote` | scripts/angemedia_gateway/services/queue_runtime.py:194-197 | Splitting by shell rules undoes shell quoting, for every string. |
| `EnvFile.QuotesHoldTogether` | scripts/angemedia_gateway/services/queue_runtime.py:194-197 | A text in quotes of either kind is one word, blanks and all, and a quotation that does not end is no word. |
| `EnvFile.BackslashTakesTheNext` | scripts/angemedia_gateway/services/queue_runtime.py:194-197 | Outside quotes a backslash makes any character part of the word; in double quotes it does so only for the quote and itself; at the end it is an error. |
| `EnvFile.BlanksPartWords` | scripts/angemedia_gateway/services/queue_runtime.py:194-198 | A blank outside quotes parts two words, and a value of two words reads as unset. |
| `EnvFile.SplitJoin` | scripts/angemedia_gateway/services/queue_runtime.py:366-370 | Splitting into lines undoes joining when no line holds a line break. |
| `EnvFile.LinesEndAtBreaks` | scripts/angemedia_gateway/services/queue_runtime.py:183-190 | A line ends at any line break, and a carriage return takes the newline after it along. |
| `EnvFile.UpdatedKeyReadsBack` | scripts/angemedia_gateway/services/queue_runtime.py:365-373 | After a write, every updated key reads as its value with outer whitespace stripped, and as unset when nothing is left. |
| `EnvFile.OtherKeysReadAsBefore` | scripts/angemedia_gateway/services/queue_runtime.py:365-373 | After a write, every key that was not updated reads as it did before. |
| `EnvFile.LastSettingWins` | scripts/angemedia_gateway/services/queue_runtime.py:190-198 | The last line that names a key decides, whatever stands before it and after it. |
| `EnvFile.KeptInPlace` | scripts/angemedia_gateway/services/queue_runtime.py:366-368 | A write keeps every line that sets none of the keys as it is, in its place, and no other old line. |
| `EnvFile.ReadsBackIffOneLine` | scripts/angemedia_gateway/services/queue_runtime.py:183-198 | A stripped, non-empty value reads back if and only if it holds no line break. |
| `EnvFile.LineBreakIsLost` | scripts/angemedia_gateway/services/queue_runtime.py:365-373 | A broker URL with a line break inside its port, which the URL check lets through, does not read back. |
| `EnvFile.ManagedFile.ReadValue` | scripts/angemedia_gateway/services/queue_runtime.py:183-198 | The search from the last line back finds what the specification reads. |
| `EnvFile.ManagedFile.WriteValues` | scripts/angemedia_gateway/services/queue_runtime.py:365-373 | The file becomes the kept lines followed by one line per update, in order. |
| `QueueSwitch.QueueRuntimeService.SwitchBackend` | scripts/angemedia_gateway/services/queue_runtime.py:118-163 | Refused exactly when a condition fails, and then nothing changes; a switch that fails after writing and reports the previous backend restored leaves the file and every variable exactly as they were; a switch that works found the queue idle and the broker allowed and reachable, and leaves variables and, for a one-line URL, a file that read enabled, the named backend and the URL: the given one, else the saved one with the broker's own first, else the default; every other variable and setting is as before. |
| `QueueSwitch.QueueRuntimeService.Check` | scripts/angemedia_gateway/services/queue_runtime.py:119-147 | The checks refuse exactly when one condition fails: with code 400 exactly for a wrong target or URL, with 500 exactly when the counts or the settings cannot be read, with 409 otherwise. |
| `QueueSwitch.QueueRuntimeService.Undo` | scripts/angemedia_gateway/services/queue_runtime.py:380-402 | Puts the saved text and the four variables back, removing those that were not set, and touches no other variable. |
| `QueueSwitch.BrokerUrlIsRemembered` | scripts/angemedia_gateway/services/queue_runtime.py:171-181 | After a switch to the broker the file gives its URL back as the saved one if and only if the URL holds no line break. |
| `QueueSwitch.SwitchCanForgetItsUrl` | scripts/angemedia_gateway/services/queue_runtime.py:35-60 | Wherever a switch to the default broker URL passes every check, a switch to a URL that differs from it by an inner line break passes too, and the file does not give that URL back; the check looks at the URL without its breaks. |
| `QueueSwitch.LocalKeepsTheBrokerUrl` | scripts/angemedia_gateway/services/queue_runtime.py:141-144 | A switch to local keeps the saved broker URL readable. |
| `IsoTime.TextOrderIsTimeOrder` | scripts/angemedia_gateway/helpers.py:16-17 | Comparing two stored UTC texts compares the instants, strictly and for equality, also when a fraction of zero is left out of one of them. |
| `IsoTime.FractionOrder` | scripts/angemedia_gateway/repositories/job_dispatches.py:151-158 | The missing fraction sorts as zero, because the plus sign sorts before the point. |
| `IsoTime.IsoInFigures` | scripts/angemedia_gateway/helpers.py:16-17 | The stored text in figures: four digits for the year, two for every other field, six for a fraction unless it is zero, and the zone. |

## Left out

- HTTP routes, provider adapters, media download, files on disk, signals and process control: they appear only as answers, faults and crashes.
- Celery, Redis and SQLite internals: a message is delivered any number of times, immediate transactions are serial and atomic, and `ORDER BY ... LIMIT` lists any order its keys allow.
- The public video status endpoint: it may move a job's status in the protocol (action External), so the theorems of `ProtocolTheorems.dfy` hold with it, while those of `BrokerRuns.dfy` about attempts, bounds and results exclude it.
- Recovery of surfaced duplicates in local mode: it fails a job on a late redelivery of a finished attempt, so the chain theorems are about runs with a broker; local runs have the submit-once, row and result theorems and the exact condition above.
- Synchronous generation and the job lifecycle service behind it: they write history and job rows in separate transactions.
- Deletion of generations and files by an administrator outside job cleanup: not an action of the protocol.
- Text columns that only carry diagnostics, sanitizing, error classification, payload contents, request hashing and message parsing: digests and payload validity are opaque.
- Identifiers are opaque numbers instead of random hexadecimal text. A method that draws one gets a number no row has; that no earlier, since removed row had it either is the chance argument behind random identifiers, and stands as the hypothesis `Handlers.Fits` where a handler's step is carried over to the protocol, whose actions take only identifiers never issued before.
- The retry delay and the poll policy use real numbers: the power's overflow is modelled, rounding is not.
- Event timestamps and ids: events are ordered as they were committed.
- The video task table and the history fields of generation rows: no property depends on them.
- Savepoints of the database as such: a failed migration restores the jobs table, the only table a migration changes rows of.
- A bound on how often an outbox row is claimed: a publish that returned but was not acknowledged keeps its lease, and the row can be claimed again without limit.
- The text encoding of the configuration file: a file is a sequence of code points, and the restored text stands for the restored bytes.
- The queue switch's process restart, lock file and status summary: each is a success or a fault.
- Local mode's POSIX lock: local delivery is whatever the protocol allows one handler at a time.
- Starvation and timing: a row comes due and can be claimed, but no claim is promised.
- The check of a broker URL is a parameter: `QueueSwitch.SwitchCanForgetItsUrl` assumes of it only that it looks at the URL without its tabs and line breaks, as Python's `urlparse` does.
