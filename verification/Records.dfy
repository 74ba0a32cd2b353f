/** Everything the store holds about one job, and what each committed transaction does to it.
    These functions are the specification of the methods in Workers.dfy and the steps
    of the protocol in Protocol.dfy. */
module Records {
  import opened Model

  /** A job row with its attempts (by number), the fixed part of its outbox rows, the events
      that carry statuses in commit order, and the generation rows linked to it. */
  datatype JobRecord = JobRecord(
    job: Job,
    attempts: map<nat, Attempt>,
    works: map<DispatchId, Work>,
    trail: seq<Mark>,
    results: set<GenerationId>)

  predicate RunningAt(r: JobRecord, stage: Stage) {
    exists n :: n in r.attempts && r.attempts[n] == Attempt(stage, Running)
  }

  predicate RunningAttempt(r: JobRecord, n: nat) {
    n in r.attempts && r.attempts[n].status == Running
  }

  // ----- single statements

  /** The versioned compare-and-swap every state change of a job goes through. */
  function TransitionJob(job: Job, expected: nat, status: Status, stage: Option<Stage>,
                         task: Option<TaskId>, now: Time): Outcome<Job>
  {
    var target := if stage.Some? then stage.value
                  else if Terminal(status) then Finalize else job.stage;
    if job.version != expected then Err(StaleVersion)
    else if !StatusStep(job.status, status) then Err(IllegalTransition)
    else if !StageFits(job.kind, target) then Err(IllegalTransition)
    else if !StageStep(job.stage, target) then Err(IllegalTransition)
    else Ok(job.(status := status, stage := target, version := job.version + 1,
                 task := if task.Some? then task else job.task, updatedAt := now))
  }

  /** A transition together with the status event it appends. */
  function Transition(r: JobRecord, expected: nat, status: Status, stage: Option<Stage>,
                      task: Option<TaskId>, now: Time): Outcome<JobRecord>
  {
    match TransitionJob(r.job, expected, status, stage, task, now)
    case Err(e) => Err(e)
    case Ok(job) => Ok(r.(job := job, trail := r.trail + [Mark(Some(r.job.status), status)]))
  }

  function ClaimJob(job: Job, expected: nat, stage: Stage, attempt: nat, allowRunning: bool,
                    now: Time): Option<Job>
  {
    if job.version == expected && job.stage == stage &&
       (job.status == Queued || (allowRunning && job.status == Running))
    then Some(job.(status := Running, version := job.version + 1, updatedAt := now,
                   startedAt := if job.startedAt.Some? then job.startedAt else Some(now),
                   attemptCount := if job.attemptCount < attempt then attempt else job.attemptCount))
    else None
  }

  function SummarizeJob(job: Job, stage: Stage, attempt: nat, now: Time): Option<Job> {
    if Active(job.status) && job.stage == stage
    then Some(job.(version := job.version + 1, updatedAt := now,
                   attemptCount := if job.attemptCount < attempt then attempt else job.attemptCount))
    else None
  }

  function Finish(r: JobRecord, n: nat, status: Status): JobRecord {
    if RunningAttempt(r, n)
    then r.(attempts := r.attempts[n := r.attempts[n].(status := status)])
    else r
  }

  function AddWork(r: JobRecord, d: DispatchId, work: Work): JobRecord {
    r.(works := r.works[d := work])
  }

  function Note(r: JobRecord, status: Status): JobRecord {
    r.(trail := r.trail + [Mark(None, status)])
  }

  /** At most one generation row is linked to a job; a second insert finds the first. */
  function Produce(r: JobRecord, g: GenerationId): JobRecord {
    if r.results == {} then r.(results := {g}) else r
  }

  // ----- the stage workers' transactions

  datatype ClaimAnswer =
    | Owned(record: JobRecord)
    | Resumed
    | Ambiguous
    | Duplicate
    | InFlight
    | Stale

  predicate Resumable(stage: Stage, snapshot: Job) {
    stage == VideoPoll || stage == AssetImport || (stage == VideoSubmit && snapshot.task.Some?)
  }

  function Own(r: JobRecord, m: Message, claimed: Job, from: Status): JobRecord {
    r.(job := claimed, attempts := r.attempts[m.attempt := Attempt(m.stage, Running)],
       trail := r.trail + [Mark(Some(from), Running)])
  }

  /** What a video stage handler learns when it tries to own an attempt. `snapshot` was read
      before this transaction began. */
  function ClaimVideo(r: JobRecord, m: Message, snapshot: Job, now: Time): ClaimAnswer {
    if m.attempt in r.attempts then
      if r.attempts[m.attempt].status == Running && Resumable(m.stage, snapshot) then Resumed
      else if m.stage == VideoSubmit then Ambiguous else Duplicate
    else if RunningAt(r, m.stage) then
      if m.stage == VideoSubmit then Ambiguous else InFlight
    else
      match ClaimJob(r.job, snapshot.version, m.stage, m.attempt, true, now)
      case None => Stale
      case Some(claimed) => Owned(Own(r, m, claimed, snapshot.status))
  }

  function ClaimImage(r: JobRecord, m: Message, snapshot: Job, now: Time): ClaimAnswer {
    if m.attempt in r.attempts then Duplicate
    else
      match ClaimJob(r.job, snapshot.version, m.stage, m.attempt, false, now)
      case None => Stale
      case Some(claimed) => Owned(Own(r, m, claimed, Queued))
  }

  /** Move the job to `next`, close the attempt, and write the continuation, all or nothing. */
  function Schedule(r: JobRecord, m: Message, expected: nat, next: Stage, task: TaskId,
                    closing: Status, d: DispatchId, now: Time): Outcome<JobRecord>
  {
    match Transition(r, expected, Running, Some(next), Some(task), now)
    case Err(e) => Err(e)
    case Ok(r1) =>
      Ok(Note(AddWork(Finish(r1, m.attempt, closing), d, Work(next, m.attempt + 1)), Running))
  }

  function Fail(r: JobRecord, m: Message, expected: nat, stage: Option<Stage>, now: Time):
    Outcome<JobRecord>
  {
    match Transition(r, expected, Failed, stage, None, now)
    case Err(e) => Err(e)
    case Ok(r1) => Ok(Note(Finish(r1, m.attempt, Failed), Failed))
  }

  /** Keep a provider task that was accepted although its continuation could not be written. */
  function RecordSubmitted(r: JobRecord, expected: nat, task: TaskId, now: Time): Outcome<JobRecord> {
    match Transition(r, expected, Running, Some(VideoSubmit), Some(task), now)
    case Err(e) => Err(e)
    case Ok(r1) => Ok(Note(r1, Running))
  }

  function Succeed(r: JobRecord, m: Message, expected: nat, stage: Option<Stage>, g: GenerationId,
                   now: Time): Outcome<JobRecord>
  {
    match Transition(Produce(r, g), expected, Succeeded, stage, None, now)
    case Err(e) => Err(e)
    case Ok(r1) => Ok(Note(Finish(r1, m.attempt, Succeeded), Succeeded))
  }

  /** A stage without a handler leaves a failed attempt behind and the job where it was. */
  function NotImplemented(r: JobRecord, m: Message, now: Time): Outcome<JobRecord> {
    match SummarizeJob(r.job, m.stage, m.attempt, now)
    case None => Err(StaleVersion)
    case Some(job) =>
      if m.attempt in r.attempts then Err(DatabaseFault)
      else Ok(r.(job := job, attempts := r.attempts[m.attempt := Attempt(m.stage, Failed)]))
  }

  // ----- local recovery

  predicate CanResume(snapshot: Job, stage: Stage) {
    snapshot.kind == Video && Resumable(stage, snapshot)
  }

  predicate RetriesLocally(snapshot: Job, m: Message, duplicate: bool) {
    !duplicate && CanResume(snapshot, m.stage) && m.attempt < AttemptLimit(snapshot)
  }

  /** Recovery closes the attempt first and moves the job second. */
  function Recover(r: JobRecord, m: Message, snapshot: Job, duplicate: bool, d: DispatchId, now: Time):
    Outcome<JobRecord>
  {
    var closed := Finish(r, m.attempt, Failed);
    if RetriesLocally(snapshot, m, duplicate) then
      match Transition(closed, snapshot.version, Running, Some(m.stage), None, now)
      case Err(e) => Err(e)
      case Ok(r1) => Ok(Note(AddWork(r1, d, Work(m.stage, m.attempt + 1)), Running))
    else
      match Transition(closed, snapshot.version, Failed, Some(Finalize), None, now)
      case Err(e) => Err(e)
      case Ok(r1) => Ok(Note(r1, Failed))
  }

  // ----- admission and repair

  function Admission(kind: Kind, stage: Stage, key: Option<RequestKey>, maxAttempts: nat,
                     d: DispatchId, now: Time): JobRecord
  {
    JobRecord(
      Job(kind, Queued, stage, 0, None, key, 0, maxAttempts, now, now, None),
      map[], map[d := Work(stage, 1)], [Mark(None, Queued)], {})
  }

  // ----- what the worker runtime decides before a handler runs

  datatype Routing =
    | JobNotFound
    | Enter
    | DuplicateMessage
    | TerminalJob
    | OverLimit
    | StageMismatch
    | NoHandler

  function Route(m: Message, snapshot: Option<Job>, existing: Option<Attempt>): Routing {
    if snapshot.None? then JobNotFound
    else
      var job := snapshot.value;
      if existing.Some? then
        if HasHandler(m.stage) && Resumable(m.stage, job) && existing.value.status == Running &&
           Active(job.status) && job.stage == m.stage
        then Enter else DuplicateMessage
      else if Terminal(job.status) then TerminalJob
      else if m.attempt > AttemptLimit(job) then OverLimit
      else if job.stage != m.stage then StageMismatch
      else if HasHandler(m.stage) then Enter
      else NoHandler
  }
}
