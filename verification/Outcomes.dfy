/** What each stage makes of the provider's answer, told by the rows that are there before and after the
    handler's transaction. */
module Outcomes {
  import opened Model
  import opened Records
  import opened Protocol

  // ----- what a transaction leaves behind

  /** The row takes the status, stage and task, one version on; what the job is, when it was created and
      started, and how often it was attempted stay. Two events tell of the status. */
  predicate RowMoves(r: JobRecord, status: Status, stage: Stage, task: Option<TaskId>, now: Time, r': JobRecord) {
    var a, b := r.job, r'.job;
    && b.status == status && b.stage == stage && b.task == task && b.version == a.version + 1 && b.updatedAt == now
    && b.kind == a.kind && b.key == a.key && b.createdAt == a.createdAt && b.startedAt == a.startedAt
    && b.maxAttempts == a.maxAttempts && b.attemptCount == a.attemptCount
    && r'.trail == r.trail + [Mark(Some(a.status), status), Mark(None, status)]
  }

  /** Attempt `n` ends with the given status if it was running; no other attempt changes. */
  predicate Closes(r: JobRecord, n: nat, status: Status, r': JobRecord) {
    && r'.attempts.Keys == r.attempts.Keys
    && forall k :: k in r.attempts ==>
         && r'.attempts[k].stage == r.attempts[k].stage
         && r'.attempts[k].status == if k == n && r.attempts[k].status == Running then status else r.attempts[k].status
  }

  /** The job is over, without a result. */
  predicate EndsFailed(r: JobRecord, n: nat, now: Time, r': JobRecord) {
    RowMoves(r, Failed, Finalize, r.job.task, now, r') && Closes(r, n, Failed, r') &&
    r'.works == r.works && r'.results == r.results
  }

  /** The job is over, with exactly one result. */
  predicate EndsWell(r: JobRecord, n: nat, g: GenerationId, now: Time, r': JobRecord) {
    RowMoves(r, Succeeded, Finalize, r.job.task, now, r') && Closes(r, n, Succeeded, r') &&
    r'.works == r.works && r'.results == if r.results == {} then {g} else r.results
  }

  /** The job runs on at `stage`, and one new outbox row asks for its next attempt there. */
  predicate RunsOn(r: JobRecord, n: nat, d: DispatchId, stage: Stage, closing: Status, task: TaskId, now: Time,
                   r': JobRecord)
  {
    RowMoves(r, Running, stage, Some(task), now, r') && Closes(r, n, closing, r') &&
    r'.works == r.works[d := Work(stage, n + 1)] && r'.results == r.results
  }

  /** Only the task is kept: the job stays at its submit, with the attempt still open. */
  predicate KeepsTheTask(r: JobRecord, task: TaskId, now: Time, r': JobRecord) {
    RowMoves(r, Running, VideoSubmit, Some(task), now, r') &&
    r'.attempts == r.attempts && r'.works == r.works && r'.results == r.results
  }

  // ----- the decisions

  /** Out of attempts, or out of time: so many seconds have passed since the job was started. */
  predicate Spent(policy: Policy, attempt: nat, startedAt: Option<Time>, now: Time) {
    attempt >= policy.maxAttempts ||
    (startedAt.Some? && (now - startedAt.value) as real / 1000000.0 >= policy.maxPoll)
  }

  /** A submit whose task is known goes on to polling without asking; an accepted one goes on with its new task, or
      keeps the task when that could not be written; anything else fails the job. */
  predicate SubmitOutcome(m: Message, snapshot: Job, payloadOk: bool, answer: Answer, again: bool, r: JobRecord,
                          d: DispatchId, now: Time, r': JobRecord)
  {
    if !payloadOk then EndsFailed(r, m.attempt, now, r')
    else if snapshot.task.Some? then RunsOn(r, m.attempt, d, VideoPoll, Succeeded, snapshot.task.value, now, r')
    else if answer.Accepted? then
      if again then KeepsTheTask(r, answer.task, now, r')
      else RunsOn(r, m.attempt, d, VideoPoll, Succeeded, answer.task, now, r')
    else EndsFailed(r, m.attempt, now, r')
  }

  /** A finished video is imported, an unfinished one is polled again, a failed one fails the job; no answer at
      all is a failed attempt. `asked` is before the provider was asked, `told` after. */
  predicate PollOutcome(policy: Policy, m: Message, snapshot: Job, answer: Answer, asked: Time, told: Time,
                        r: JobRecord, d: DispatchId, now: Time, r': JobRecord)
  {
    if Spent(policy, m.attempt, snapshot.startedAt, asked) then EndsFailed(r, m.attempt, now, r')
    else if answer.Disabled? || answer.ProviderFailed? then EndsFailed(r, m.attempt, now, r')
    else
      && snapshot.task.Some?
      && if answer.Completed? then RunsOn(r, m.attempt, d, AssetImport, Succeeded, snapshot.task.value, now, r')
         else if answer.Pending? then RunsOn(r, m.attempt, d, VideoPoll, Succeeded, snapshot.task.value, now, r')
         else RetriedOutcome(policy, m, snapshot, told, r, d, now, r')
  }

  /** The same stage once more, the attempt having failed, unless there is none left. */
  predicate RetriedOutcome(policy: Policy, m: Message, snapshot: Job, told: Time, r: JobRecord, d: DispatchId,
                           now: Time, r': JobRecord)
  {
    if Spent(policy, m.attempt, snapshot.startedAt, told) then EndsFailed(r, m.attempt, now, r')
    else snapshot.task.Some? && RunsOn(r, m.attempt, d, m.stage, Failed, snapshot.task.value, now, r')
  }

  /** An imported video ends the job well; a video that failed, is switched off, has no address or a forbidden one
      fails it; anything else is tried again. `again` is the retry after such an answer could not be written. */
  predicate ImportOutcome(policy: Policy, m: Message, snapshot: Job, answer: Answer, told: Time, again: Option<Time>,
                          r: JobRecord, d: DispatchId, g: GenerationId, now: Time, r': JobRecord)
  {
    if again.Some? then RetriedOutcome(policy, m, snapshot, again.value, r, d, now, r')
    else if answer.Completed? then EndsWell(r, m.attempt, g, now, r')
    else if answer.Disabled? || answer.NoUrl? || answer.Rejected? || answer.ProviderFailed? then
      EndsFailed(r, m.attempt, now, r')
    else RetriedOutcome(policy, m, snapshot, told, r, d, now, r')
  }

  /** Images are executed once: well, or not. A result that cannot be kept is a failure. */
  predicate ImageOutcome(m: Message, payloadOk: bool, answer: Answer, again: bool, r: JobRecord, g: GenerationId,
                         now: Time, r': JobRecord)
  {
    if payloadOk && answer.Completed? && !again then EndsWell(r, m.attempt, g, now, r')
    else EndsFailed(r, m.attempt, now, r')
  }

  // ----- the plans lead to these

  lemma TwoMarks(trail: seq<Mark>, a: Mark, b: Mark)
    ensures trail + [a] + [b] == trail + [a, b]
  {
  }

  lemma FailWrites(r: JobRecord, m: Message, base: Job, stage: Option<Stage>, now: Time, r': JobRecord)
    requires Fail(r, m, base.version, stage, now) == Ok(r') && (stage.Some? ==> stage.value == Finalize)
    ensures EndsFailed(r, m.attempt, now, r')
  {
    TwoMarks(r.trail, Mark(Some(r.job.status), Failed), Mark(None, Failed));
  }

  lemma ScheduleWrites(r: JobRecord, m: Message, base: Job, next: Stage, task: TaskId, closing: Status, d: DispatchId,
                       now: Time, r': JobRecord)
    requires Schedule(r, m, base.version, next, task, closing, d, now) == Ok(r')
    ensures RunsOn(r, m.attempt, d, next, closing, task, now, r')
  {
    TwoMarks(r.trail, Mark(Some(r.job.status), Running), Mark(None, Running));
  }

  lemma RecordWrites(r: JobRecord, base: Job, task: TaskId, now: Time, r': JobRecord)
    requires RecordSubmitted(r, base.version, task, now) == Ok(r')
    ensures KeepsTheTask(r, task, now, r')
  {
    TwoMarks(r.trail, Mark(Some(r.job.status), Running), Mark(None, Running));
  }

  lemma SucceedWrites(r: JobRecord, m: Message, base: Job, stage: Option<Stage>, g: GenerationId, now: Time,
                      r': JobRecord)
    requires Succeed(r, m, base.version, stage, g, now) == Ok(r') && (stage.Some? ==> stage.value == Finalize)
    ensures EndsWell(r, m.attempt, g, now, r')
  {
    TwoMarks(r.trail, Mark(Some(r.job.status), Succeeded), Mark(None, Succeeded));
  }

  lemma PlanWrites(r: JobRecord, m: Message, base: Job, plan: Plan, d: DispatchId, g: GenerationId, now: Time,
                   r': JobRecord)
    requires Execute(r, m, base, plan, d, g, now) == Ok(r')
    ensures
      match plan
      case PlanFail => EndsFailed(r, m.attempt, now, r')
      case PlanSchedule(next, task, closing) => RunsOn(r, m.attempt, d, next, closing, task, now, r')
      case PlanRecord(task) => KeepsTheTask(r, task, now, r')
      case PlanSucceed => EndsWell(r, m.attempt, g, now, r')
  {
    hide EndsFailed, EndsWell, RunsOn, KeepsTheTask, Fail, Schedule, RecordSubmitted, Succeed;
    var target := if m.stage == ImageGenerate then None else Some(Finalize);
    match plan
    case PlanFail => FailWrites(r, m, base, target, now, r');
    case PlanSchedule(next, task, closing) => ScheduleWrites(r, m, base, next, task, closing, d, now, r');
    case PlanRecord(task) => RecordWrites(r, base, task, now, r');
    case PlanSucceed => SucceedWrites(r, m, base, target, g, now, r');
  }

  lemma SpentIsExhausted(policy: Policy, attempt: nat, startedAt: Option<Time>, now: Time)
    ensures policy.Exhausted(attempt, startedAt, now) == Spent(policy, attempt, startedAt, now)
  {
  }

  lemma RetryLeads(policy: Policy, m: Message, snapshot: Job, told: Time, r: JobRecord, base: Job, d: DispatchId,
                   g: GenerationId, now: Time, r': JobRecord)
    requires snapshot.task.Some?
    requires Execute(r, m, base, RetryPlan(policy, m, snapshot, snapshot.task.value, told), d, g, now) == Ok(r')
    ensures RetriedOutcome(policy, m, snapshot, told, r, d, now, r')
  {
    hide Execute, EndsFailed, RunsOn;
    PlanWrites(r, m, base, RetryPlan(policy, m, snapshot, snapshot.task.value, told), d, g, now, r');
    SpentIsExhausted(policy, m.attempt, snapshot.startedAt, told);
  }

  lemma SubmitLeads(policy: Policy, m: Message, snapshot: Job, answer: Answer, asked: Time, told: Time, r: JobRecord,
                    base: Job, d: DispatchId, g: GenerationId, now: Time, r': JobRecord)
    requires m.stage == VideoSubmit
    requires Execute(r, m, base, Decide(policy, m, snapshot, answer, asked, told).0, d, g, now) == Ok(r')
    ensures SubmitOutcome(m, snapshot, true, answer, false, r, d, now, r')
  {
    hide Execute, EndsFailed, RunsOn;
    PlanWrites(r, m, base, Decide(policy, m, snapshot, answer, asked, told).0, d, g, now, r');
  }

  lemma PollLeads(policy: Policy, m: Message, snapshot: Job, answer: Answer, asked: Time, told: Time, r: JobRecord,
                  base: Job, d: DispatchId, g: GenerationId, now: Time, r': JobRecord)
    requires m.stage == VideoPoll && snapshot.task.Some?
    requires Execute(r, m, base, Decide(policy, m, snapshot, answer, asked, told).0, d, g, now) == Ok(r')
    ensures PollOutcome(policy, m, snapshot, answer, asked, told, r, d, now, r')
  {
    hide Execute, EndsFailed, RunsOn, Spent, RetriedOutcome;
    PlanWrites(r, m, base, Decide(policy, m, snapshot, answer, asked, told).0, d, g, now, r');
    SpentIsExhausted(policy, m.attempt, snapshot.startedAt, asked);
    if Decide(policy, m, snapshot, answer, asked, told).0 == RetryPlan(policy, m, snapshot, snapshot.task.value, told) {
      RetryLeads(policy, m, snapshot, told, r, base, d, g, now, r');
    }
  }

  lemma ImportLeads(policy: Policy, m: Message, snapshot: Job, answer: Answer, asked: Time, told: Time, r: JobRecord,
                    base: Job, d: DispatchId, g: GenerationId, now: Time, r': JobRecord)
    requires m.stage == AssetImport && snapshot.task.Some?
    requires Execute(r, m, base, Decide(policy, m, snapshot, answer, asked, told).0, d, g, now) == Ok(r')
    ensures ImportOutcome(policy, m, snapshot, answer, asked, None, r, d, g, now, r')
  {
    hide Execute, EndsFailed, EndsWell, RunsOn, Spent, RetriedOutcome;
    PlanWrites(r, m, base, Decide(policy, m, snapshot, answer, asked, told).0, d, g, now, r');
    var retry := RetryPlan(policy, m, snapshot, snapshot.task.value, asked);
    if Decide(policy, m, snapshot, answer, asked, told).0 == retry {
      RetryLeads(policy, m, snapshot, asked, r, base, d, g, now, r');
    }
  }

  lemma ImageLeads(policy: Policy, m: Message, snapshot: Job, answer: Answer, asked: Time, told: Time, r: JobRecord,
                   base: Job, d: DispatchId, g: GenerationId, now: Time, r': JobRecord)
    requires m.stage == ImageGenerate
    requires Execute(r, m, base, Decide(policy, m, snapshot, answer, asked, told).0, d, g, now) == Ok(r')
    ensures ImageOutcome(m, true, answer, false, r, g, now, r')
  {
    hide Execute, EndsFailed, EndsWell;
    PlanWrites(r, m, base, Decide(policy, m, snapshot, answer, asked, told).0, d, g, now, r');
  }
}
