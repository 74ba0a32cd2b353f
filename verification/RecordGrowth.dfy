/** What one committed transaction may do to a job's record, whoever commits it. */
module RecordGrowth {
  import opened Model
  import opened Records

  /** Row facts every actor keeps. Outbox rows never name a stage past the job's, so a message
      that is still waiting cannot push a job forward. */
  predicate RecordOk(r: JobRecord) {
    && StageFits(r.job.kind, r.job.stage)
    && (Terminal(r.job.status) <==> r.job.stage == Finalize)
    && r.job.maxAttempts >= 1
    && (forall d :: d in r.works ==> WorkOk(r.works[d], r.job))
    && TrailOk(r.trail, r.job.status)
  }

  predicate WorkOk(w: Work, job: Job) {
    w.attempt >= 1 && HasHandler(w.stage) && StageFits(job.kind, w.stage) && Rank(w.stage) <= Rank(job.stage)
  }

  /** The status events form a path in the allowed-status table that starts at `queued`, every
      stated origin is the status just before it, and the path ends at the job's status. */
  predicate TrailOk(trail: seq<Mark>, status: Status) {
    && |trail| > 0
    && trail[0] == Mark(None, Queued)
    && trail[|trail| - 1].to == status
    && forall i {:trigger trail[i]} :: 0 < i < |trail| ==> MarkFollows(trail[i - 1], trail[i])
  }

  predicate MarkFollows(before: Mark, after: Mark) {
    StatusStep(before.to, after.to) && (after.from.Some? ==> after.from.value == before.to)
  }

  /** No further billable provider call may be licensed for this job. */
  predicate Sealed(r: JobRecord) {
    match r.job.kind
    case Image => r.job.status != Queued
    case Video =>
      || Terminal(r.job.status)
      || r.job.task.Some?
      || Rank(r.job.stage) >= 2
      || RunningAt(r, VideoSubmit)
  }

  /** A row read or written earlier is never newer than the stored one, and equal versions
      mean equal rows. */
  predicate Agrees(seen: Job, row: Job) {
    seen.version <= row.version && (seen.version == row.version ==> seen == row)
  }

  predicate SameJob(a: Job, b: Job) {
    a.kind == b.kind && a.key == b.key && a.createdAt == b.createdAt && a.maxAttempts == b.maxAttempts
  }

  predicate RowStep(a: Job, b: Job) {
    && SameJob(a, b)
    && (b == a || b.version == a.version + 1)
    && StatusStep(a.status, b.status)
    && Rank(a.stage) <= Rank(b.stage)
    && (a.task.Some? ==> b.task == a.task)
    && (a.startedAt.Some? ==> b.startedAt == a.startedAt)
    && a.attemptCount <= b.attemptCount
  }

  predicate Grows(r: JobRecord, r': JobRecord) {
    && RecordOk(r')
    && RowStep(r.job, r'.job)
    && (forall d :: d in r.works ==> d in r'.works && r'.works[d] == r.works[d])
    && r.trail <= r'.trail
    && (Sealed(r) ==> Sealed(r'))
  }

  lemma TrailExtends(trail: seq<Mark>, status: Status, from: Option<Status>, to: Status)
    requires TrailOk(trail, status) && StatusStep(status, to)
    requires from.Some? ==> from.value == status
    ensures TrailOk(trail + [Mark(from, to)], to)
  {
    var longer := trail + [Mark(from, to)];
    forall i | 0 < i < |longer|
      ensures MarkFollows(longer[i - 1], longer[i])
    {
      if i < |trail| {
        assert longer[i] == trail[i] && longer[i - 1] == trail[i - 1];
      }
    }
  }

  // ----- one lemma per transaction

  /** A transition moves the row one version forward along both tables. */
  lemma TransitionRow(r: JobRecord, expected: nat, status: Status, stage: Option<Stage>,
                      task: Option<TaskId>, now: Time, r': JobRecord)
    requires RecordOk(r) && Transition(r, expected, status, stage, task, now) == Ok(r')
    requires stage.Some? ==> (Terminal(status) <==> stage.value == Finalize)
    requires r.job.task.Some? && task.Some? ==> task == r.job.task
    ensures r.job.version == expected && r'.job.version == expected + 1
    ensures RowStep(r.job, r'.job) && RecordOk(r')
    ensures r' == r.(job := r'.job, trail := r'.trail) && r.trail <= r'.trail
    ensures r'.job.status == status
    ensures stage.Some? ==> r'.job.stage == stage.value
    ensures r'.job.task == if task.Some? then task else r.job.task
  {
    TrailExtends(r.trail, r.job.status, Some(r.job.status), status);
    WorksStay(r, r');
  }

  lemma WinnerHeldVersion(r: JobRecord, expected: nat, status: Status, stage: Option<Stage>, task: Option<TaskId>,
                          now: Time)
    requires Transition(r, expected, status, stage, task, now).Ok?
    ensures r.job.version == expected
  {
  }

  lemma WorksStay(r: JobRecord, r': JobRecord)
    requires RecordOk(r) && r'.works == r.works
    requires r'.job.kind == r.job.kind && Rank(r.job.stage) <= Rank(r'.job.stage)
    ensures forall d :: d in r'.works ==> WorkOk(r'.works[d], r'.job)
  {
    forall d | d in r'.works
      ensures WorkOk(r'.works[d], r'.job)
    {
      assert WorkOk(r.works[d], r.job);
    }
  }

  lemma NoteKeeps(r: JobRecord)
    requires RecordOk(r)
    ensures RecordOk(Note(r, r.job.status)) && r.trail <= Note(r, r.job.status).trail
  {
    TrailExtends(r.trail, r.job.status, None, r.job.status);
  }

  lemma FinishKeeps(r: JobRecord, n: nat, status: Status)
    requires RecordOk(r)
    ensures RecordOk(Finish(r, n, status)) && Finish(r, n, status) == r.(attempts := Finish(r, n, status).attempts)
  {
  }

  lemma AddWorkKeeps(r: JobRecord, d: DispatchId, w: Work)
    requires RecordOk(r) && d !in r.works && WorkOk(w, r.job)
    ensures RecordOk(AddWork(r, d, w))
  {
  }

  lemma ClaimGrows(r: JobRecord, m: Message, snapshot: Job, now: Time, r': JobRecord)
    requires RecordOk(r) && Agrees(snapshot, r.job)
    requires ClaimVideo(r, m, snapshot, now) == Owned(r') || ClaimImage(r, m, snapshot, now) == Owned(r')
    ensures Grows(r, r')
    ensures snapshot == r.job && r'.job.version == r.job.version + 1
    ensures r'.job.stage == r.job.stage == m.stage && r'.job.status == Running && Active(r.job.status)
    ensures r'.job.task == r.job.task && r'.works == r.works && r'.results == r.results
    ensures m.attempt !in r.attempts
    ensures r'.attempts == r.attempts[m.attempt := Attempt(m.stage, Running)]
  {
    TrailExtends(r.trail, r.job.status, Some(r.job.status), Running);
    WorksStay(r, r');
    SealedByAttempts(r, r');
  }

  /** Opening an attempt, or leaving attempts alone, never unseals a job. */
  lemma SealedByAttempts(r: JobRecord, r': JobRecord)
    requires RowStep(r.job, r'.job)
    requires forall n :: n in r.attempts ==> n in r'.attempts && r'.attempts[n] == r.attempts[n]
    ensures Sealed(r) ==> Sealed(r')
  {
    if RunningAt(r, VideoSubmit) {
      var n :| n in r.attempts && r.attempts[n] == Attempt(VideoSubmit, Running);
      assert r'.attempts[n] == Attempt(VideoSubmit, Running);
    }
  }

  lemma ScheduleGrows(r: JobRecord, m: Message, expected: nat, next: Stage, task: TaskId, closing: Status,
                      d: DispatchId, now: Time, r': JobRecord)
    requires RecordOk(r) && d !in r.works && r.job.kind == Video
    requires next == VideoPoll || next == AssetImport
    requires r.job.task.Some? && r.job.version == expected ==> r.job.task == Some(task)
    requires Schedule(r, m, expected, next, task, closing, d, now) == Ok(r')
    ensures Grows(r, r') && r.job.version == expected && r'.job.version == expected + 1
    ensures r'.job.stage == next && r'.job.status == Running && r'.job.task == Some(task)
    ensures r'.works == r.works[d := Work(next, m.attempt + 1)]
    ensures r'.attempts == Finish(r, m.attempt, closing).attempts && r'.results == r.results
  {
    hide RecordOk, WorkOk, Sealed, Transition;
    WinnerHeldVersion(r, expected, Running, Some(next), Some(task), now);
    var r1 := Transition(r, expected, Running, Some(next), Some(task), now).value;
    TransitionRow(r, expected, Running, Some(next), Some(task), now, r1);
    FinishKeeps(r1, m.attempt, closing);
    var r2 := Finish(r1, m.attempt, closing);
    SameStageWorkOk(r2, m.attempt);
    AddWorkKeeps(r2, d, Work(next, m.attempt + 1));
    NoteKeeps(AddWork(r2, d, Work(next, m.attempt + 1)));
    LateIsSealed(r');
  }

  lemma SameStageWorkOk(r: JobRecord, n: nat)
    requires RecordOk(r) && HasHandler(r.job.stage)
    ensures WorkOk(Work(r.job.stage, n + 1), r.job)
  {
  }

  lemma LateIsSealed(r: JobRecord)
    requires r.job.kind == Video && (r.job.stage == VideoPoll || r.job.stage == AssetImport)
    ensures Sealed(r)
  {
  }

  lemma FailGrows(r: JobRecord, m: Message, expected: nat, stage: Option<Stage>, now: Time, r': JobRecord)
    requires RecordOk(r) && (stage.Some? ==> stage.value == Finalize)
    requires Fail(r, m, expected, stage, now) == Ok(r')
    ensures Grows(r, r') && r.job.version == expected && r'.job.version == expected + 1
    ensures r'.job.status == Failed && r'.works == r.works && r'.job.task == r.job.task
    ensures r'.attempts == Finish(r, m.attempt, Failed).attempts && r'.results == r.results
  {
    hide TrailOk;
    var r1 := Transition(r, expected, Failed, stage, None, now).value;
    TransitionRow(r, expected, Failed, stage, None, now, r1);
    FinishKeeps(r1, m.attempt, Failed);
    NoteKeeps(Finish(r1, m.attempt, Failed));
  }

  lemma RecordSubmittedGrows(r: JobRecord, expected: nat, task: TaskId, now: Time, r': JobRecord)
    requires RecordOk(r) && r.job.kind == Video
    requires r.job.task.Some? && r.job.version == expected ==> r.job.task == Some(task)
    requires RecordSubmitted(r, expected, task, now) == Ok(r')
    ensures Grows(r, r') && r.job.version == expected && r'.job.version == expected + 1
    ensures r'.job.stage == VideoSubmit && r'.job.status == Running && r'.job.task == Some(task)
    ensures r'.works == r.works && r'.attempts == r.attempts && r'.results == r.results
  {
    hide TrailOk;
    var r1 := Transition(r, expected, Running, Some(VideoSubmit), Some(task), now).value;
    TransitionRow(r, expected, Running, Some(VideoSubmit), Some(task), now, r1);
    NoteKeeps(r1);
  }

  lemma ProduceKeeps(r: JobRecord, g: GenerationId)
    requires RecordOk(r)
    ensures RecordOk(Produce(r, g)) && Produce(r, g) == r.(results := Produce(r, g).results)
  {
  }

  lemma SucceedGrows(r: JobRecord, m: Message, expected: nat, stage: Option<Stage>, g: GenerationId, now: Time,
                     r': JobRecord)
    requires RecordOk(r) && (stage.Some? ==> stage.value == Finalize)
    requires Succeed(r, m, expected, stage, g, now) == Ok(r')
    ensures Grows(r, r') && r.job.version == expected && r'.job.version == expected + 1
    ensures r'.job.status == Succeeded && r'.works == r.works && r'.job.task == r.job.task
    ensures r'.attempts == Finish(r, m.attempt, Succeeded).attempts && r'.results == Produce(r, g).results
  {
    hide RecordOk, TrailOk, Transition;
    ProduceKeeps(r, g);
    var r0 := Produce(r, g);
    var r1 := Transition(r0, expected, Succeeded, stage, None, now).value;
    TransitionRow(r0, expected, Succeeded, stage, None, now, r1);
    FinishKeeps(r1, m.attempt, Succeeded);
    NoteKeeps(Finish(r1, m.attempt, Succeeded));
  }

  lemma StoredFits(r: JobRecord)
    requires RecordOk(r)
    ensures StageFits(r.job.kind, r.job.stage)
  {
  }

  lemma RetryGrows(r: JobRecord, m: Message, duplicate: bool, d: DispatchId, now: Time, r': JobRecord)
    requires RecordOk(r) && d !in r.works && WorkOk(Work(m.stage, m.attempt), r.job)
    requires RetriesLocally(r.job, m, duplicate) && Recover(r, m, r.job, duplicate, d, now) == Ok(r')
    ensures Grows(r, r') && r'.job.version == r.job.version + 1 && r'.results == r.results
    ensures r'.attempts == Finish(r, m.attempt, Failed).attempts
    ensures r'.job.status == Running && r'.job.stage == r.job.stage == m.stage
    ensures r'.works == r.works[d := Work(m.stage, m.attempt + 1)]
  {
    hide RecordOk, TrailOk, Transition;
    FinishKeeps(r, m.attempt, Failed);
    var closed := Finish(r, m.attempt, Failed);
    var r1 := Transition(closed, r.job.version, Running, Some(m.stage), None, now).value;
    TransitionRow(closed, r.job.version, Running, Some(m.stage), None, now, r1);
    StoredFits(r);
    RankNames(r.job.kind, m.stage, r.job.stage);
    SameStageWorkOk(r1, m.attempt);
    AddWorkKeeps(r1, d, Work(m.stage, m.attempt + 1));
    NoteKeeps(AddWork(r1, d, Work(m.stage, m.attempt + 1)));
  }

  lemma GiveUpGrows(r: JobRecord, m: Message, duplicate: bool, d: DispatchId, now: Time, r': JobRecord)
    requires RecordOk(r)
    requires !RetriesLocally(r.job, m, duplicate) && Recover(r, m, r.job, duplicate, d, now) == Ok(r')
    ensures Grows(r, r') && r'.job.version == r.job.version + 1 && r'.results == r.results
    ensures r'.attempts == Finish(r, m.attempt, Failed).attempts
    ensures r'.job.status == Failed && r'.works == r.works
  {
    hide TrailOk;
    FinishKeeps(r, m.attempt, Failed);
    var closed := Finish(r, m.attempt, Failed);
    var r1 := Transition(closed, r.job.version, Failed, Some(Finalize), None, now).value;
    TransitionRow(closed, r.job.version, Failed, Some(Finalize), None, now, r1);
    NoteKeeps(r1);
  }

  /** What recovery may leave behind: either the job has ended, or it is still running at the
      same stage with exactly one new outbox row, for the next attempt, within the job's limit,
      and only where running the stage again cannot bill again. */
  predicate Conservative(r: JobRecord, m: Message, d: DispatchId, r': JobRecord) {
    if r'.job.status == Failed then r'.works == r.works
    else
      && r'.job.status == Running && r'.job.stage == r.job.stage
      && r'.works == r.works[d := Work(r.job.stage, m.attempt + 1)] && d !in r.works
      && m.attempt + 1 <= r.job.maxAttempts
      && r.job.kind == Video
      && (r.job.stage == VideoPoll || r.job.stage == AssetImport ||
          (r.job.stage == VideoSubmit && r.job.task.Some?))
  }

  lemma RecoverGrows(r: JobRecord, m: Message, snapshot: Job, duplicate: bool, d: DispatchId, now: Time,
                     r': JobRecord)
    requires RecordOk(r) && Agrees(snapshot, r.job) && d !in r.works
    requires WorkOk(Work(m.stage, m.attempt), r.job)
    requires Recover(r, m, snapshot, duplicate, d, now) == Ok(r')
    ensures Grows(r, r') && r'.job.version == r.job.version + 1 && r'.results == r.results
    ensures r'.job.status == Failed || r'.job.status == Running
    ensures Conservative(r, m, d, r') && snapshot == r.job
  {
    assert snapshot == r.job;
    if RetriesLocally(snapshot, m, duplicate) {
      RetryGrows(r, m, duplicate, d, now, r');
    } else {
      GiveUpGrows(r, m, duplicate, d, now, r');
    }
  }

  lemma RankNames(kind: Kind, a: Stage, b: Stage)
    requires StageFits(kind, a) && StageFits(kind, b)
    ensures Rank(a) == Rank(b) <==> a == b
    ensures StageStep(b, a) && Rank(a) <= Rank(b) ==> a == b
  {
  }

  /** The public status endpoint names a status and leaves the stage to the repository. It compares a
      version it read earlier, like every other writer. */
  lemma ExternalGrows(r: JobRecord, expected: nat, status: Status, now: Time, r': JobRecord)
    requires RecordOk(r) && Transition(r, expected, status, None, None, now) == Ok(r')
    ensures Grows(r, r') && r.job.version == expected && r'.job.version == expected + 1
  {
    TransitionRow(r, expected, status, None, None, now, r');
    SealedByAttempts(r, r');
  }

  lemma RequeueGrows(r: JobRecord, lost: DispatchId, d: DispatchId)
    requires RecordOk(r) && lost in r.works && d !in r.works
    ensures Grows(r, AddWork(r, d, r.works[lost]))
  {
    AddWorkKeeps(r, d, r.works[lost]);
    SealedByAttempts(r, AddWork(r, d, r.works[lost]));
  }

  lemma AdmissionOk(kind: Kind, stage: Stage, key: Option<RequestKey>, maxAttempts: nat, d: DispatchId, now: Time)
    requires stage != Admitted && stage != Finalize && StageFits(kind, stage) && maxAttempts >= 1
    ensures RecordOk(Admission(kind, stage, key, maxAttempts, d, now))
  {
  }
}
