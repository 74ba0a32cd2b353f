/** The job queue as a concurrent protocol. Handlers work on snapshots read earlier, messages
    are delivered any number of times, and a handler can die between any two steps. Every
    action is one committed transaction, one read, or one provider call. */
module Protocol {
  import opened Model
  import opened Records

  /** The transaction a handler has decided on after talking to the provider. */
  datatype Plan =
    | PlanFail
    | PlanSchedule(next: Stage, task: TaskId, closing: Status)
    | PlanRecord(task: TaskId)
    | PlanSucceed

  /** Where a delivery stands. `base` is the job row whose version guards the handler's writes;
      `guarded` says the transaction runs inside the handler's own try block. */
  datatype Phase =
    | Fetched
    | Looked(snapshot: Job)
    | Entered(snapshot: Job)
    | Unhandled
    | Claimed(snapshot: Job, base: Job)
    | Called(snapshot: Job, base: Job, plan: Plan, guarded: bool)
    | Raised
    | Surfaced
    | Recovering(snapshot: Job, duplicate: bool)
    | Halted

  datatype Handler = Handler(m: Message, phase: Phase)

  /** What the provider, or the asset importer behind it, came back with. */
  datatype Answer =
    | Disabled
    | Crashed
    | Rejected
    | NoUrl
    | Accepted(task: TaskId)
    | Pending
    | ProviderFailed
    | Completed

  /** `used` and `usedDispatches` hold every identifier ever issued. `outbox` holds the message
      of every outbox row ever written, and `broker` those that were published; neither
      shrinks. `calls` counts the billable provider calls made for a job, and `owner` names
      the handler that was licensed to make one. */
  datatype System = System(
    policy: Policy,
    records: map<JobId, JobRecord>,
    used: set<JobId>,
    usedDispatches: set<DispatchId>,
    outbox: set<Message>,
    broker: set<Message>,
    handlers: seq<Handler>,
    calls: map<JobId, nat>,
    owner: map<JobId, nat>)

  datatype Action =
    | Admit(j: JobId, kind: Kind, stage: Stage, key: Option<RequestKey>, also: set<RequestKey>,
            maxAttempts: nat, d: DispatchId, now: Time)
    | Publish(m: Message)
    | Deliver(m: Message)
    | ReadJob(h: nat)
    | ReadAttempt(h: nat, noted: bool)
    | Claim(h: nat, payloadOk: bool, fault: bool, now: Time)
    | Call(h: nat, answer: Answer, now: Time, later: Time)
    | Commit(h: nat, d: DispatchId, g: GenerationId, fault: bool, now: Time)
    | Die(h: nat)
    | RecoverRead(h: nat)
    | RecoverCommit(h: nat, d: DispatchId, fault: bool, now: Time)
    | External(j: JobId, expected: nat, status: Status, now: Time)
    | Requeue(j: JobId, lost: DispatchId, d: DispatchId)
    | Cleanup(gone: set<JobId>)

  // ----- pure decisions of the stage handlers

  /** The message and job a stage handler accepts at all. */
  predicate HandlerAccepts(m: Message, snapshot: Job) {
    match m.stage
    case ImageGenerate => snapshot.kind == Image
    case VideoSubmit => snapshot.kind == Video
    case VideoPoll => snapshot.kind == Video && snapshot.task.Some?
    case AssetImport => snapshot.kind == Video && snapshot.task.Some?
    case _ => false
  }

  function RetryPlan(policy: Policy, m: Message, snapshot: Job, task: TaskId, now: Time): Plan {
    if policy.Exhausted(m.attempt, snapshot.startedAt, now) then PlanFail
    else PlanSchedule(m.stage, task, Failed)
  }

  /** True when serving this claim means a billable provider call. */
  predicate Billable(m: Message, snapshot: Job) {
    m.stage == ImageGenerate || (m.stage == VideoSubmit && snapshot.task.None?)
  }

  /** The transaction chosen after the provider answered, and whether it runs guarded. A poll looks at
      the clock before it asks the provider, and again when it decides to retry. */
  function Decide(policy: Policy, m: Message, snapshot: Job, answer: Answer, now: Time, later: Time): (Plan, bool)
    requires m.stage in {VideoPoll, AssetImport} ==> snapshot.task.Some?
  {
    match m.stage
    case VideoSubmit =>
      if snapshot.task.Some? then (PlanSchedule(VideoPoll, snapshot.task.value, Succeeded), false)
      else if answer.Accepted? then (PlanSchedule(VideoPoll, answer.task, Succeeded), true)
      else (PlanFail, false)
    case VideoPoll =>
      if policy.Exhausted(m.attempt, snapshot.startedAt, now) then (PlanFail, false)
      else (match answer
        case Disabled => (PlanFail, false)
        case ProviderFailed => (PlanFail, false)
        case Completed => (PlanSchedule(AssetImport, snapshot.task.value, Succeeded), false)
        case Pending => (PlanSchedule(VideoPoll, snapshot.task.value, Succeeded), false)
        case _ => (RetryPlan(policy, m, snapshot, snapshot.task.value, later), false))
    case AssetImport =>
      (match answer
        case Disabled => (PlanFail, false)
        case NoUrl => (PlanFail, false)
        case Rejected => (PlanFail, false)
        case ProviderFailed => (PlanFail, true)
        case Pending => (RetryPlan(policy, m, snapshot, snapshot.task.value, now), true)
        case Completed => (PlanSucceed, false)
        case _ => (RetryPlan(policy, m, snapshot, snapshot.task.value, now), false))
    case _ =>
      if answer.Completed? then (PlanSucceed, true) else (PlanFail, true)
  }

  /** Where a handler goes when its transaction was rolled back. */
  function AfterError(policy: Policy, m: Message, phase: Phase, error: Failure, now: Time): Phase
    requires phase.Called?
    requires m.stage in {VideoPoll, AssetImport} ==> phase.snapshot.task.Some?
  {
    match m.stage
    case VideoSubmit =>
      if !(phase.guarded && phase.plan.PlanSchedule?) then Raised
      else if error == StaleVersion then Halted
      else phase.(plan := PlanRecord(phase.plan.task), guarded := false)
    case AssetImport =>
      if phase.plan.PlanSucceed? then (if error == StaleVersion then Halted else Raised)
      else if phase.guarded then
        phase.(plan := RetryPlan(policy, m, phase.snapshot, phase.snapshot.task.value, now), guarded := false)
      else Raised
    case ImageGenerate =>
      if !phase.guarded then Raised
      else if error == StaleVersion then Halted
      else if phase.plan.PlanSucceed? then phase.(plan := PlanFail)
      else Raised
    case _ => Raised
  }

  /** The effect of a decided transaction on the job's record. The image worker leaves the
      target stage to the repository; the video worker names it. */
  function Execute(r: JobRecord, m: Message, base: Job, plan: Plan, d: DispatchId, g: GenerationId,
                   now: Time): Outcome<JobRecord>
  {
    var target := if m.stage == ImageGenerate then None else Some(Finalize);
    match plan
    case PlanFail => Fail(r, m, base.version, target, now)
    case PlanSchedule(next, task, closing) => Schedule(r, m, base.version, next, task, closing, d, now)
    case PlanRecord(task) => RecordSubmitted(r, base.version, task, now)
    case PlanSucceed => Succeed(r, m, base.version, target, g, now)
  }

  function ClaimFor(r: JobRecord, m: Message, snapshot: Job, now: Time): ClaimAnswer {
    if m.stage == ImageGenerate then ClaimImage(r, m, snapshot, now) else ClaimVideo(r, m, snapshot, now)
  }

  // ----- building blocks of the next state

  function MessageOf(j: JobId, r: JobRecord, d: DispatchId): Message
    requires d in r.works
  {
    Message(j, r.works[d].stage, r.works[d].attempt, d)
  }

  function MessagesOf(j: JobId, r: JobRecord): set<Message> {
    set d | d in r.works :: MessageOf(j, r, d)
  }

  /** Replace one job's record; the messages of its outbox rows become publishable. */
  function Put(s: System, j: JobId, r: JobRecord): System {
    s.(records := s.records[j := r], usedDispatches := s.usedDispatches + r.works.Keys,
       outbox := s.outbox + MessagesOf(j, r))
  }

  function Move(s: System, h: nat, phase: Phase): System
    requires h < |s.handlers|
  {
    s.(handlers := s.handlers[h := s.handlers[h].(phase := phase)])
  }

  function Calls(s: System, j: JobId): nat {
    if j in s.calls then s.calls[j] else 0
  }

  predicate Licensed(h: Handler) {
    h.phase.Claimed? && Billable(h.m, h.phase.snapshot)
  }

  predicate SameRequest(a: Job, b: Job) {
    a.kind == b.kind && a.key.Some? && a.key == b.key
  }

  predicate Matches(job: Job, kind: Kind, key: RequestKey) {
    Active(job.status) && job.kind == kind && job.key == Some(key)
  }

  predicate Alive(s: System, h: nat) {
    h < |s.handlers| && !s.handlers[h].phase.Halted?
  }

  predicate Enabled(s: System, a: Action) {
    match a
    case Admit(j, kind, stage, key, also, maxAttempts, d, now) =>
      && j !in s.used && d !in s.usedDispatches
      && stage != Admitted && stage != Finalize && StageFits(kind, stage) && maxAttempts >= 1
      && (key.Some? ==> forall k :: k in s.records ==> !Matches(s.records[k].job, kind, key.value))
      && (forall k, c :: k in s.records && c in also ==> !Matches(s.records[k].job, kind, c))
    case Publish(m) => m in s.outbox && Constructible(m)
    case Deliver(m) => m in s.broker
    case ReadJob(h) => h < |s.handlers| && s.handlers[h].phase.Fetched?
    case ReadAttempt(h, noted) => h < |s.handlers| && s.handlers[h].phase.Looked?
    case Claim(h, payloadOk, fault, now) =>
      h < |s.handlers| && (s.handlers[h].phase.Entered? || s.handlers[h].phase.Unhandled?)
    case Call(h, answer, now, later) =>
      && h < |s.handlers| && s.handlers[h].phase.Claimed?
      && (s.handlers[h].m.stage in {VideoPoll, AssetImport} ==> s.handlers[h].phase.snapshot.task.Some?)
    case Commit(h, d, g, fault, now) =>
      && h < |s.handlers| && s.handlers[h].phase.Called? && d !in s.usedDispatches
      && (s.handlers[h].m.stage in {VideoPoll, AssetImport} ==> s.handlers[h].phase.snapshot.task.Some?)
    case Die(h) => Alive(s, h)
    case RecoverRead(h) => h < |s.handlers| && (s.handlers[h].phase.Raised? || s.handlers[h].phase.Surfaced?)
    case RecoverCommit(h, d, fault, now) =>
      h < |s.handlers| && s.handlers[h].phase.Recovering? && d !in s.usedDispatches
    case External(j, expected, status, now) => j in s.records
    case Requeue(j, lost, d) =>
      && j in s.records && s.records[j].job.status == Queued && s.records[j].attempts == map[]
      && lost in s.records[j].works && d !in s.usedDispatches
    case Cleanup(gone) => forall j :: j in gone ==> j in s.records && Terminal(s.records[j].job.status)
  }

  function Next(s: System, a: Action): System
    requires Enabled(s, a)
  {
    match a
    case Admit(j, kind, stage, key, also, maxAttempts, d, now) =>
      Put(s, j, Admission(kind, stage, key, maxAttempts, d, now)).(used := s.used + {j})
    case Publish(m) => s.(broker := s.broker + {m})
    case Deliver(m) => s.(handlers := s.handlers + [Handler(m, Fetched)])
    case ReadJob(h) => NextReadJob(s, h)
    case ReadAttempt(h, noted) => NextReadAttempt(s, h, noted)
    case Claim(h, payloadOk, fault, now) =>
      if s.handlers[h].phase.Entered? then NextClaim(s, h, payloadOk, fault, now)
      else NextNotImplemented(s, h, fault, now)
    case Call(h, answer, now, later) => NextCall(s, h, answer, now, later)
    case Commit(h, d, g, fault, now) => NextCommit(s, h, d, g, fault, now)
    case Die(h) => Move(s, h, Halted)
    case RecoverRead(h) => NextRecoverRead(s, h)
    case RecoverCommit(h, d, fault, now) => NextRecoverCommit(s, h, d, fault, now)
    case External(j, expected, status, now) =>
      (match Transition(s.records[j], expected, status, None, None, now)
        case Ok(r) => Put(s, j, r)
        case Err(_) => s)
    case Requeue(j, lost, d) => Put(s, j, AddWork(s.records[j], d, s.records[j].works[lost]))
    case Cleanup(gone) => s.(records := s.records - gone)
  }

  function NextReadJob(s: System, h: nat): System
    requires h < |s.handlers|
  {
    var j := s.handlers[h].m.job;
    if j in s.records then Move(s, h, Looked(s.records[j].job)) else Move(s, h, Raised)
  }

  /** The attempt row is read after the job row, and the routing uses both. A rejection is noted in
      the event log afterwards, and `noted` says whether that succeeded: it is a transaction of its own,
      and it fails when the job has been removed by then. */
  function NextReadAttempt(s: System, h: nat, noted: bool): System
    requires h < |s.handlers| && s.handlers[h].phase.Looked?
  {
    var m := s.handlers[h].m;
    var snapshot := s.handlers[h].phase.snapshot;
    var existing := if m.job in s.records && m.attempt in s.records[m.job].attempts
                    then Some(s.records[m.job].attempts[m.attempt]) else None;
    match Route(m, Some(snapshot), existing)
    case JobNotFound => Move(s, h, Raised)
    case Enter => Move(s, h, Entered(snapshot))
    case DuplicateMessage => Move(s, h, if noted then Surfaced else Raised)
    case TerminalJob => Move(s, h, if noted then Halted else Raised)
    case OverLimit => Move(s, h, Raised)
    case StageMismatch => Move(s, h, if noted then Halted else Raised)
    case NoHandler => Move(s, h, Unhandled)
  }

  function NextClaim(s: System, h: nat, payloadOk: bool, fault: bool, now: Time): System
    requires h < |s.handlers| && s.handlers[h].phase.Entered?
  {
    var m := s.handlers[h].m;
    var snapshot := s.handlers[h].phase.snapshot;
    if !HandlerAccepts(m, snapshot) || fault then Move(s, h, Raised)
    else if m.job !in s.records then Move(s, h, Halted)
    else
      match ClaimFor(s.records[m.job], m, snapshot, now)
      case Owned(r) => License(Move(Put(s, m.job, r), h, AfterClaim(m, snapshot, r.job, payloadOk)), h)
      case Resumed => License(Move(s, h, AfterClaim(m, snapshot, snapshot, payloadOk)), h)
      case Stale => Move(s, h, Halted)
      case _ => Move(s, h, Surfaced)
  }

  /** Only the submit and image stages parse the stored payload. */
  function AfterClaim(m: Message, snapshot: Job, base: Job, payloadOk: bool): Phase {
    if payloadOk || m.stage in {VideoPoll, AssetImport} then Claimed(snapshot, base)
    else Called(snapshot, base, PlanFail, false)
  }

  /** Remember which handler holds the licence to call the provider. */
  function License(s: System, h: nat): System
    requires h < |s.handlers|
  {
    if Licensed(s.handlers[h]) then s.(owner := s.owner[s.handlers[h].m.job := h]) else s
  }

  function NextNotImplemented(s: System, h: nat, fault: bool, now: Time): System
    requires h < |s.handlers|
  {
    var m := s.handlers[h].m;
    if fault || m.job !in s.records then Move(s, h, Raised)
    else
      match NotImplemented(s.records[m.job], m, now)
      case Ok(r) => Move(Put(s, m.job, r), h, Halted)
      case Err(_) => Move(s, h, Raised)
  }

  function NextCall(s: System, h: nat, answer: Answer, now: Time, later: Time): System
    requires h < |s.handlers| && s.handlers[h].phase.Claimed?
    requires s.handlers[h].m.stage in {VideoPoll, AssetImport} ==> s.handlers[h].phase.snapshot.task.Some?
  {
    var m := s.handlers[h].m;
    var phase := s.handlers[h].phase;
    var (plan, guarded) := Decide(s.policy, m, phase.snapshot, answer, now, later);
    var moved := Move(s, h, Called(phase.snapshot, phase.base, plan, guarded));
    if Billable(m, phase.snapshot) then moved.(calls := s.calls[m.job := Calls(s, m.job) + 1]) else moved
  }

  function NextCommit(s: System, h: nat, d: DispatchId, g: GenerationId, fault: bool, now: Time): System
    requires h < |s.handlers| && s.handlers[h].phase.Called?
    requires s.handlers[h].m.stage in {VideoPoll, AssetImport} ==> s.handlers[h].phase.snapshot.task.Some?
  {
    var m := s.handlers[h].m;
    var phase := s.handlers[h].phase;
    match CommitOutcome(s, h, d, g, fault, now)
    case Ok(r) => Move(Put(s, m.job, r), h, if phase.plan.PlanRecord? then Raised else Halted)
    case Err(e) => Move(s, h, AfterError(s.policy, m, phase, e, now))
  }

  function CommitOutcome(s: System, h: nat, d: DispatchId, g: GenerationId, fault: bool, now: Time):
    Outcome<JobRecord>
    requires h < |s.handlers| && s.handlers[h].phase.Called?
  {
    var m := s.handlers[h].m;
    var phase := s.handlers[h].phase;
    if fault then Err(DatabaseFault)
    else if m.job !in s.records then Err(JobMissing)
    else Execute(s.records[m.job], m, phase.base, phase.plan, d, g, now)
  }

  function NextRecoverRead(s: System, h: nat): System
    requires h < |s.handlers|
  {
    var j := s.handlers[h].m.job;
    if j !in s.records || Terminal(s.records[j].job.status) then Move(s, h, Halted)
    else Move(s, h, Recovering(s.records[j].job, s.handlers[h].phase.Surfaced?))
  }

  function NextRecoverCommit(s: System, h: nat, d: DispatchId, fault: bool, now: Time): System
    requires h < |s.handlers| && s.handlers[h].phase.Recovering?
  {
    match RecoverOutcome(s, h, d, fault, now)
    case Ok(r) => Move(Put(s, s.handlers[h].m.job, r), h, Halted)
    case Err(_) => Move(s, h, Halted)
  }

  function RecoverOutcome(s: System, h: nat, d: DispatchId, fault: bool, now: Time): Outcome<JobRecord>
    requires h < |s.handlers| && s.handlers[h].phase.Recovering?
  {
    var m := s.handlers[h].m;
    var phase := s.handlers[h].phase;
    if fault then Err(DatabaseFault)
    else if m.job !in s.records then Err(JobMissing)
    else Recover(s.records[m.job], m, phase.snapshot, phase.duplicate, d, now)
  }

  // ----- runs

  predicate Start(s: System) {
    && s.policy.Valid()
    && s.records == map[] && s.used == {} && s.usedDispatches == {} && s.outbox == {} && s.broker == {}
    && s.handlers == [] && s.calls == map[] && s.owner == map[]
  }

  /** A finite execution: `states[i + 1]` is reached from `states[i]` by `actions[i]`. */
  datatype Run = Run(states: seq<System>, actions: seq<Action>) {
    predicate Valid() {
      && |states| == |actions| + 1
      && Start(states[0])
      && forall i {:trigger actions[i]} :: 0 <= i < |actions| ==>
           Enabled(states[i], actions[i]) && states[i + 1] == Next(states[i], actions[i])
    }
  }

  function LastState(run: Run): System
    requires |run.states| > 0
  {
    run.states[|run.states| - 1]
  }

  /** The run with one more step. */
  function Extended(run: Run, a: Action): Run
    requires |run.states| > 0 && Enabled(LastState(run), a)
  {
    Run(run.states + [Next(LastState(run), a)], run.actions + [a])
  }

  lemma ExtendedIsValid(run: Run, a: Action)
    requires run.Valid() && Enabled(LastState(run), a)
    ensures Extended(run, a).Valid() && LastState(Extended(run, a)) == Next(LastState(run), a)
  {
    hide Enabled, Next, Start;
    var more := Extended(run, a);
    forall k | 0 <= k < |more.actions|
      ensures Enabled(more.states[k], more.actions[k]) && more.states[k + 1] == Next(more.states[k], more.actions[k])
    {
      if k < |run.actions| {
        assert more.states[k] == run.states[k] && more.states[k + 1] == run.states[k + 1];
      }
    }
  }

  /** Steps of the queue with a broker: no local recovery and no public status endpoint. */
  predicate BrokerAction(a: Action) {
    !a.RecoverRead? && !a.RecoverCommit? && !a.External?
  }

  /** Steps of the queue's own code, local recovery included. */
  predicate QueueAction(a: Action) {
    !a.External?
  }
}
