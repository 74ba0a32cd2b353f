/** What the decisions along a job's way come to in a run: the routing, the claim, the answer of the provider, and
    the recovery after a failure, each told without the function that decides it. */
module Decisions {
  import opened Model
  import opened Records
  import opened RecordGrowth
  import opened Protocol
  import opened ProtocolInvariant
  import opened ProtocolTheorems
  import opened BrokerRuns
  import opened Progress
  import opened Continuations
  import opened Outcomes

  // ----- routing and claims

  /** Where a delivery goes. A known attempt is either taken up again or a duplicate; an unknown one goes to its
      handler if the job is active, within its limit and at the message's stage. */
  lemma RoutingAnswers(m: Message, job: Job, existing: Option<Attempt>)
    ensures
      var routing := Route(m, Some(job), existing);
      var here := (job.status == Queued || job.status == Running) && job.stage == m.stage;
      var over := m.attempt > (if job.maxAttempts == 0 then 1 else job.maxAttempts);
      var again := m.stage == VideoPoll || m.stage == AssetImport || (m.stage == VideoSubmit && job.task.Some?);
      && (existing.Some? ==> routing == if here && existing.value.status == Running && again
                                        then Enter else DuplicateMessage)
      && (existing.None? ==>
            && (routing == TerminalJob <==> job.status in {Succeeded, Failed, Canceled})
            && (routing == OverLimit <==> job.status in {Queued, Running} && over)
            && (routing == StageMismatch <==> job.status in {Queued, Running} && !over && job.stage != m.stage)
            && (routing == Enter <==> here && !over && m.stage in {ImageGenerate, VideoSubmit, VideoPoll, AssetImport})
            && (routing == NoHandler <==> here && !over && (m.stage == Admitted || m.stage == Finalize)))
    ensures Route(m, None, existing) == JobNotFound
  {
  }

  /** Where a rejected delivery ends: a duplicate comes to the surface, a message past the limit is an error, one
      that is late is dropped; and if the rejection cannot be noted, that is an error too. */
  lemma RejectionsEnd(s: System, h: nat, noted: bool)
    requires h < |s.handlers| && s.handlers[h].phase.Looked?
    ensures
      var m, job := s.handlers[h].m, s.handlers[h].phase.snapshot;
      var existing := if m.job in s.records && m.attempt in s.records[m.job].attempts
                      then Some(s.records[m.job].attempts[m.attempt]) else None;
      var t, routing := NextReadAttempt(s, h, noted), Route(m, Some(job), existing);
      && |t.handlers| == |s.handlers|
      && (routing == Enter ==> t.handlers[h].phase == Entered(job))
      && (routing == NoHandler ==> t.handlers[h].phase == Unhandled)
      && (routing == OverLimit ==> t.handlers[h].phase == Raised)
      && (!noted && routing != Enter && routing != NoHandler ==> t.handlers[h].phase == Raised)
      && (noted && routing == DuplicateMessage ==> t.handlers[h].phase == Surfaced)
      && (noted && (routing == TerminalJob || routing == StageMismatch) ==> t.handlers[h].phase == Halted)
  {
    hide Route;
  }

  /** The attempts table has a running attempt at this stage, whoever's it is. */
  ghost predicate StageIsBusy(r: JobRecord, stage: Stage) {
    exists n :: n in r.attempts && r.attempts[n].stage == stage && r.attempts[n].status == Running
  }

  /** A video attempt is owned if and only if it is new, no attempt runs at its stage, and the job still is what
      was read: active, at this stage, in this version. */
  lemma VideoClaimsAnswer(r: JobRecord, m: Message, snapshot: Job, now: Time)
    ensures ClaimVideo(r, m, snapshot, now).Owned? <==>
            && m.attempt !in r.attempts && !StageIsBusy(r, m.stage)
            && r.job.version == snapshot.version && r.job.stage == m.stage && r.job.status in {Queued, Running}
    ensures ClaimVideo(r, m, snapshot, now).Resumed? <==>
            && m.attempt in r.attempts && r.attempts[m.attempt].status == Running
            && (m.stage == VideoPoll || m.stage == AssetImport || (m.stage == VideoSubmit && snapshot.task.Some?))
    ensures ClaimVideo(r, m, snapshot, now).Stale? <==>
            && m.attempt !in r.attempts && !StageIsBusy(r, m.stage)
            && !(r.job.version == snapshot.version && r.job.stage == m.stage && r.job.status in {Queued, Running})
  {
    if StageIsBusy(r, m.stage) {
      var n :| n in r.attempts && r.attempts[n].stage == m.stage && r.attempts[n].status == Running;
      assert r.attempts[n] == Attempt(m.stage, Running);
    }
    if RunningAt(r, m.stage) {
      var n :| n in r.attempts && r.attempts[n] == Attempt(m.stage, Running);
      assert StageIsBusy(r, m.stage);
    }
  }

  /** Without ownership, a second submit is always told that its outcome is unknown; any other stage learns whether its
      attempt is known or another attempt of its stage runs. */
  lemma VideoRefusals(r: JobRecord, m: Message, snapshot: Job, now: Time)
    ensures
      var answer := ClaimVideo(r, m, snapshot, now);
      var known, busy := m.attempt in r.attempts, m.attempt !in r.attempts && StageIsBusy(r, m.stage);
      && (answer.Ambiguous? <==> m.stage == VideoSubmit && (busy || (known && !answer.Resumed?)))
      && (answer.Duplicate? <==> m.stage != VideoSubmit && known && !answer.Resumed?)
      && (answer.InFlight? <==> m.stage != VideoSubmit && busy)
  {
    VideoClaimsAnswer(r, m, snapshot, now);
    if StageIsBusy(r, m.stage) {
      var n :| n in r.attempts && r.attempts[n].stage == m.stage && r.attempts[n].status == Running;
      assert r.attempts[n] == Attempt(m.stage, Running);
    }
  }

  /** A stage without a handler: an active job that waits there gets a failed attempt, one version on, and stays; a
      known attempt is an error, and any other job is as if it had moved on. */
  lemma NotImplementedWrites(r: JobRecord, m: Message, now: Time)
    ensures
      var out, here := NotImplemented(r, m, now), r.job.status in {Queued, Running} && r.job.stage == m.stage;
      && (out == Err(StaleVersion) <==> !here)
      && (out == Err(DatabaseFault) <==> here && m.attempt in r.attempts)
      && (out.Ok? <==> here && m.attempt !in r.attempts)
      && (out.Ok? ==>
            var a, b := r.job, out.value.job;
            && b.version == a.version + 1 && b.updatedAt == now && b.status == a.status && b.stage == a.stage
            && b.task == a.task && b.key == a.key && b.kind == a.kind && b.startedAt == a.startedAt
            && b.createdAt == a.createdAt && b.maxAttempts == a.maxAttempts
            && b.attemptCount == (if a.attemptCount < m.attempt then m.attempt else a.attemptCount)
            && out.value.attempts == r.attempts[m.attempt := Attempt(m.stage, Failed)]
            && out.value.works == r.works && out.value.trail == r.trail && out.value.results == r.results)
  {
  }

  /** An image attempt is owned if and only if it is new and the job is still queued as read. */
  lemma ImageClaimsAnswer(r: JobRecord, m: Message, snapshot: Job, now: Time)
    ensures ClaimImage(r, m, snapshot, now).Owned? <==>
            && m.attempt !in r.attempts && r.job.status == Queued
            && r.job.version == snapshot.version && r.job.stage == m.stage
    ensures ClaimImage(r, m, snapshot, now).Duplicate? <==> m.attempt in r.attempts
    ensures !ClaimImage(r, m, snapshot, now).Resumed?
  {
  }

  /** What owning an attempt writes: the job runs, one version on, started now unless it was before, attempted at
      least this often; the attempt runs; the event tells of it. */
  lemma OwnedWrites(r: JobRecord, m: Message, snapshot: Job, now: Time, r': JobRecord)
    requires ClaimVideo(r, m, snapshot, now) == Owned(r') || ClaimImage(r, m, snapshot, now) == Owned(r')
    ensures
      var a, b := r.job, r'.job;
      && b.status == Running && b.stage == a.stage && b.version == a.version + 1 && b.updatedAt == now
      && b.startedAt == (if a.startedAt.Some? then a.startedAt else Some(now))
      && a.attemptCount <= b.attemptCount && m.attempt <= b.attemptCount
      && (b.attemptCount == a.attemptCount || b.attemptCount == m.attempt)
      && b.kind == a.kind && b.key == a.key && b.task == a.task && b.createdAt == a.createdAt
      && b.maxAttempts == a.maxAttempts
      && r'.attempts == r.attempts[m.attempt := Attempt(m.stage, Running)]
      && r'.works == r.works && r'.results == r.results && |r'.trail| == |r.trail| + 1 && r.trail <= r'.trail
      && r'.trail[|r.trail|].to == Running
  {
  }

  /** Where a claim ends: a refused job or a fault is an error, a job that has gone or moved on is dropped, a known or
      busy attempt comes to the surface; whoever owns or resumes the attempt asks the provider next, unless the stage
      reads the payload and cannot. */
  lemma ClaimsEnd(s: System, h: nat, payloadOk: bool, fault: bool, now: Time)
    requires h < |s.handlers| && s.handlers[h].phase.Entered?
    ensures
      var m, snapshot, t := s.handlers[h].m, s.handlers[h].phase.snapshot, NextClaim(s, h, payloadOk, fault, now);
      && |t.handlers| == |s.handlers|
      && var phase := t.handlers[h].phase;
         if fault || !HandlerAccepts(m, snapshot) then phase == Raised
         else if m.job !in s.records then phase == Halted
         else
           var answer := ClaimFor(s.records[m.job], m, snapshot, now);
           var unread := !payloadOk && (m.stage == VideoSubmit || m.stage == ImageGenerate);
           && (answer.Stale? ==> phase == Halted)
           && (answer.Ambiguous? || answer.Duplicate? || answer.InFlight? ==> phase == Surfaced)
           && (answer.Owned? || answer.Resumed? ==>
                 if unread then phase.Called? && phase.plan == PlanFail else phase.Claimed?)
  {
    hide ClaimFor, MessagesOf;
  }

  /** The stage handlers refuse a job of the wrong kind, and a poll or import without a task. */
  lemma AcceptedJobs(m: Message, job: Job)
    ensures HandlerAccepts(m, job) <==>
            || (job.kind == Image && m.stage == ImageGenerate)
            || (job.kind == Video && m.stage == VideoSubmit)
            || (job.kind == Video && (m.stage == VideoPoll || m.stage == AssetImport) && job.task.Some?)
  {
  }

  // ----- admission

  /** A request for which a job was admitted is not admitted again, by its own digest or as another's candidate, for
      as long as that job is active. */
  lemma RepeatedRequestsAreRefused(run: Run, i: nat, k: nat, again: Action)
    requires run.Valid() && i < k < |run.states| && run.actions[i].Admit? && run.actions[i].key.Some?
    requires
      var j := run.actions[i].j;
      j in run.states[k].records && run.states[k].records[j].job.status in {Queued, Running}
    requires again.Admit? && again.kind == run.actions[i].kind
    requires again.key == run.actions[i].key || run.actions[i].key.value in again.also
    ensures !Enabled(run.states[k], again)
  {
    var a, s := run.actions[i], run.states[k];
    AdmittedAsAsked(run, i);
    JobsOnlyMoveForward(run, i + 1, k, a.j);
    assert Matches(s.records[a.j].job, again.kind, a.key.value);
  }

  /** An admission stores the job as asked. */
  lemma AdmittedAsAsked(run: Run, i: nat)
    requires run.Valid() && i < |run.actions| && run.actions[i].Admit?
    ensures
      var a, t := run.actions[i], run.states[i + 1];
      && a.j in t.used && a.j in t.records
      && var r := t.records[a.j];
         && r.job.kind == a.kind && r.job.stage == a.stage && r.job.key == a.key && r.job.maxAttempts == a.maxAttempts
         && r.job.status == Queued && r.job.version == 0 && r.job.task.None? && r.job.startedAt.None?
         && r.job.createdAt == a.now && r.job.attemptCount == 0
         && r.works == map[a.d := Work(a.stage, 1)] && r.attempts == map[] && r.results == {}
         && Message(a.j, a.stage, 1, a.d) in t.outbox
  {
    var a, t := run.actions[i], run.states[i + 1];
    assert t == Next(run.states[i], a);
    assert MessageOf(a.j, t.records[a.j], a.d) in MessagesOf(a.j, t.records[a.j]);
  }

  // ----- recovery

  /** What a committed recovery writes. It retries only a video job within its limit whose stage can be run again
      without asking for a second video, and never for a duplicate; otherwise it fails the job. */
  lemma RecoveryWrites(r: JobRecord, m: Message, snapshot: Job, duplicate: bool, d: DispatchId, now: Time,
                       r': JobRecord)
    requires Recover(r, m, snapshot, duplicate, d, now) == Ok(r')
    ensures r.job.version == snapshot.version
    ensures Closes(r, m.attempt, Failed, r') && r'.results == r.results
    ensures
      var again := m.stage == VideoPoll || m.stage == AssetImport || (m.stage == VideoSubmit && snapshot.task.Some?);
      var within := m.attempt < snapshot.maxAttempts || (snapshot.maxAttempts == 0 && m.attempt == 0);
      if !duplicate && snapshot.kind == Video && again && within
      then RowMoves(r, Running, m.stage, r.job.task, now, r') && r'.works == r.works[d := Work(m.stage, m.attempt + 1)]
      else RowMoves(r, Failed, Finalize, r.job.task, now, r') && r'.works == r.works
  {
    if RetriesLocally(snapshot, m, duplicate) {
      RetryWrites(r, m, snapshot, duplicate, d, now, r');
    } else {
      GiveUpWrites(r, m, snapshot, duplicate, d, now, r');
    }
    hide Recover, RowMoves, Closes;
  }

  /** When a local delivery ends in an error or a surfaced duplicate, recovery looks at the job again: it acts only if
      the job is stored and not over, and it knows a duplicate from an error. */
  lemma RecoveriesStart(s: System, h: nat)
    requires h < |s.handlers|
    ensures
      var m, t := s.handlers[h].m, NextRecoverRead(s, h);
      && t.records == s.records && |t.handlers| == |s.handlers|
      && (m.job in s.records && s.records[m.job].job.status in {Queued, Running} ==>
            t.handlers[h].phase == Recovering(s.records[m.job].job, s.handlers[h].phase == Surfaced))
      && (m.job !in s.records || s.records[m.job].job.status in {Succeeded, Failed, Canceled} ==>
            t.handlers[h].phase == Halted)
  {
  }

  lemma RetryWrites(r: JobRecord, m: Message, snapshot: Job, duplicate: bool, d: DispatchId, now: Time, r': JobRecord)
    requires RetriesLocally(snapshot, m, duplicate) && Recover(r, m, snapshot, duplicate, d, now) == Ok(r')
    ensures r.job.version == snapshot.version && Closes(r, m.attempt, Failed, r') && r'.results == r.results
    ensures RowMoves(r, Running, m.stage, r.job.task, now, r') && r'.works == r.works[d := Work(m.stage, m.attempt + 1)]
  {
    TwoMarks(r.trail, Mark(Some(r.job.status), Running), Mark(None, Running));
  }

  lemma GiveUpWrites(r: JobRecord, m: Message, snapshot: Job, duplicate: bool, d: DispatchId, now: Time, r': JobRecord)
    requires !RetriesLocally(snapshot, m, duplicate) && Recover(r, m, snapshot, duplicate, d, now) == Ok(r')
    ensures r.job.version == snapshot.version && Closes(r, m.attempt, Failed, r') && r'.results == r.results
    ensures RowMoves(r, Failed, Finalize, r.job.task, now, r') && r'.works == r.works
  {
    TwoMarks(r.trail, Mark(Some(r.job.status), Failed), Mark(None, Failed));
  }

  // ----- transitions

  /** The four answers of the compare-and-swap: a newer version beats everything, then the table of statuses, then
      where the stage may go. Without a stage of its own, an ending goes to the last stage and anything else stays. */
  lemma TransitionAnswers(job: Job, expected: nat, status: Status, stage: Option<Stage>, task: Option<TaskId>,
                          now: Time)
    ensures
      var out := TransitionJob(job, expected, status, stage, task, now);
      && (out == Err(StaleVersion) <==> job.version != expected)
      && (out.Err? && job.version == expected ==> out == Err(IllegalTransition))
      && (out.Ok? ==>
            && out.value.status == status && out.value.version == expected + 1 && out.value.updatedAt == now
            && out.value.stage == (match stage
                                   case Some(wanted) => wanted
                                   case None => if status == Queued || status == Running then job.stage else Finalize)
            && out.value.task == (if task.Some? then task else job.task)
            && out.value.kind == job.kind && out.value.key == job.key && out.value.createdAt == job.createdAt
            && out.value.startedAt == job.startedAt && out.value.attemptCount == job.attemptCount
            && out.value.maxAttempts == job.maxAttempts)
  {
  }

  /** The table of statuses: nothing leaves an ending, only a running job succeeds, nothing is queued again. */
  lemma StatusTable(a: Status, b: Status)
    ensures StatusStep(a, b) <==>
            a == b || (a == Queued && b in {Running, Failed, Canceled}) ||
            (a == Running && b in {Succeeded, Failed, Canceled})
  {
  }

  /** The table of stages: a stage may stay, end, or go to the next one of its pipeline, and the pipelines are
      image_generate to asset_import and video_submit, video_poll, asset_import. */
  lemma StageTable(kind: Kind, a: Stage, b: Stage)
    ensures StageStep(a, b) && StageFits(kind, a) && StageFits(kind, b) <==>
            var pipeline := if kind == Image then [Admitted, ImageGenerate, AssetImport]
                            else [Admitted, VideoSubmit, VideoPoll, AssetImport];
            && (a in pipeline || a == Finalize)
            && (b == a || b == Finalize || exists i :: 0 < i < |pipeline| && pipeline[i - 1] == a && pipeline[i] == b)
  {
    var image, video := [Admitted, ImageGenerate, AssetImport], [Admitted, VideoSubmit, VideoPoll, AssetImport];
    assert image[0] == Admitted && image[1] == ImageGenerate && image[2] == AssetImport;
    assert video[0] == Admitted && video[1] == VideoSubmit && video[2] == VideoPoll && video[3] == AssetImport;
  }

  // ----- answers in a run

  /** Handler `h` asked at step `i`, and step `k` is its transaction: it stands as the answer left it. */
  ghost predicate Answers(run: Run, i: nat, k: nat, h: nat)
    requires run.Valid()
  {
    && i < k < |run.actions| && run.actions[i].Call? && run.actions[i].h == h
    && run.actions[k].Commit? && run.actions[k].h == h
    && h < |run.states[i + 1].handlers| && h < |run.states[k].handlers|
    && run.states[k].handlers[h] == run.states[i + 1].handlers[h]
  }

  /** Whatever happened in between: the record a handler writes after an answer is the one its stage's rules give
      for that answer. */
  lemma AnswersDecideTheRecord(run: Run, i: nat, k: nat, h: nat)
    requires run.Valid() && Answers(run, i, k, h) && Written(run.states[k], run.actions[k]).Some?
    ensures
      var call, commit := run.actions[i], run.actions[k];
      var m, snapshot := run.states[i].handlers[h].m, run.states[i].handlers[h].phase.snapshot;
      var policy := run.states[0].policy;
      && m.job in run.states[k].records
      && var r, r' := run.states[k].records[m.job], Written(run.states[k], commit).value.1;
         && (m.stage == VideoSubmit ==>
               SubmitOutcome(m, snapshot, true, call.answer, false, r, commit.d, commit.now, r'))
         && (m.stage == VideoPoll ==>
               PollOutcome(policy, m, snapshot, call.answer, call.now, call.later, r, commit.d, commit.now, r'))
         && (m.stage == AssetImport ==>
               ImportOutcome(policy, m, snapshot, call.answer, call.now, None, r, commit.d, commit.g, commit.now, r'))
         && (m.stage == ImageGenerate ==>
               ImageOutcome(m, true, call.answer, false, r, commit.g, commit.now, r'))
  {
    var s, call, t, commit := run.states[i], run.actions[i], run.states[k], run.actions[k];
    RunPolicy(run, i);
    CallLeaves(s, call);
    hide Decide, Enabled, Next, Run.Valid, SubmitOutcome, PollOutcome, ImportOutcome, ImageOutcome;
    var m, snapshot, r' := s.handlers[h].m, s.handlers[h].phase.snapshot, Written(t, commit).value.1;
    CommitExecutes(t, commit);
    var r, base := t.records[m.job], t.handlers[h].phase.base;
    match m.stage
    case VideoSubmit =>
      SubmitLeads(s.policy, m, snapshot, call.answer, call.now, call.later, r, base, commit.d, commit.g, commit.now,
                  r');
    case VideoPoll =>
      PollLeads(s.policy, m, snapshot, call.answer, call.now, call.later, r, base, commit.d, commit.g, commit.now, r');
    case AssetImport =>
      ImportLeads(s.policy, m, snapshot, call.answer, call.now, call.later, r, base, commit.d, commit.g, commit.now,
                  r');
    case ImageGenerate =>
      ImageLeads(s.policy, m, snapshot, call.answer, call.now, call.later, r, base, commit.d, commit.g, commit.now, r');
    case _ =>
  }

  lemma RunPolicy(run: Run, i: nat)
    requires run.Valid() && i < |run.states|
    ensures run.states[i].policy == run.states[0].policy
  {
    RunKeeps(run, i);
  }

  lemma CallLeaves(s: System, call: Action)
    requires Enabled(s, call) && call.Call?
    ensures call.h < |s.handlers| == |Next(s, call).handlers|
    ensures
      var before, after := s.handlers[call.h], Next(s, call).handlers[call.h];
      && before.phase.Claimed? && after.phase.Called? && after.m == before.m
      && (before.m.stage in {VideoPoll, AssetImport} ==> before.phase.snapshot.task.Some?)
      && after.phase.base == before.phase.base && after.phase.snapshot == before.phase.snapshot
      && (after.phase.plan, after.phase.guarded) ==
         Decide(s.policy, before.m, before.phase.snapshot, call.answer, call.now, call.later)
  {
    hide Decide;
  }

  lemma CommitExecutes(t: System, commit: Action)
    requires Enabled(t, commit) && commit.Commit? && Written(t, commit).Some?
    ensures commit.h < |t.handlers| && t.handlers[commit.h].phase.Called?
    ensures
      var m, phase := t.handlers[commit.h].m, t.handlers[commit.h].phase;
      && m.job in t.records && Written(t, commit).value.0 == m.job
      && Execute(t.records[m.job], m, phase.base, phase.plan, commit.d, commit.g, commit.now) ==
         Ok(Written(t, commit).value.1)
  {
    hide Execute;
  }

  // ----- after a rollback

  /** Step `k` was the transaction after the answer of step `i` and did not commit; step `n` is the handler's next,
      from where the rollback left it. */
  ghost predicate TriesAgain(run: Run, i: nat, k: nat, n: nat, h: nat)
    requires run.Valid()
  {
    && Answers(run, i, k, h) && Written(run.states[k], run.actions[k]).None?
    && k < n < |run.actions| && run.actions[n].Commit? && run.actions[n].h == h
    && h < |run.states[k + 1].handlers| && h < |run.states[n].handlers|
    && run.states[n].handlers[h] == run.states[k + 1].handlers[h]
  }

  /** What the second transaction writes. An accepted task is kept, with the job still at its submit; an import is
      retried; an image whose result could not be kept fails. A poll never tries again. */
  lemma SecondTriesDecideTheRecord(run: Run, i: nat, k: nat, n: nat, h: nat)
    requires run.Valid() && TriesAgain(run, i, k, n, h) && Written(run.states[n], run.actions[n]).Some?
    ensures
      var call, commit := run.actions[i], run.actions[n];
      var m, snapshot := run.states[i].handlers[h].m, run.states[i].handlers[h].phase.snapshot;
      var policy := run.states[0].policy;
      && m.job in run.states[n].records && m.stage != VideoPoll
      && var r, r' := run.states[n].records[m.job], Written(run.states[n], commit).value.1;
         && (m.stage == VideoSubmit ==>
               call.answer.Accepted? && snapshot.task.None? &&
               SubmitOutcome(m, snapshot, true, call.answer, true, r, commit.d, commit.now, r'))
         && (m.stage == AssetImport ==>
               !call.answer.Completed? &&
               ImportOutcome(policy, m, snapshot, call.answer, call.now, Some(run.actions[k].now), r, commit.d,
                             commit.g, commit.now, r'))
         && (m.stage == ImageGenerate ==>
               call.answer.Completed? &&
               ImageOutcome(m, true, call.answer, true, r, commit.g, commit.now, r'))
  {
    var s, call, t, commit := run.states[i], run.actions[i], run.states[k], run.actions[n];
    RunPolicy(run, i);
    RunPolicy(run, k);
    CallLeaves(s, call);
    RollbackLeaves(t, run.actions[k]);
    var m, snapshot := s.handlers[h].m, s.handlers[h].phase.snapshot;
    var planned := Decide(s.policy, m, snapshot, call.answer, call.now, call.later);
    AfterRollback(s.policy, m, snapshot, call.answer, call.now, call.later, t.handlers[h].phase, run.actions[k].now,
                  run.states[n].handlers[h].phase);
    hide Decide, Enabled, Next, Run.Valid, RetryPlan, RetriedOutcome, KeepsTheTask, EndsFailed;
    CommitExecutes(run.states[n], commit);
    var u, r' := run.states[n], Written(run.states[n], commit).value.1;
    var r, phase := u.records[m.job], u.handlers[h].phase;
    PlanWrites(r, m, phase.base, phase.plan, commit.d, commit.g, commit.now, r');
    if m.stage == AssetImport {
      RetryLeads(s.policy, m, snapshot, run.actions[k].now, r, phase.base, commit.d, commit.g, commit.now, r');
    }
  }

  lemma RollbackLeaves(t: System, commit: Action)
    requires Enabled(t, commit) && commit.Commit? && Written(t, commit).None?
    ensures commit.h < |t.handlers| == |Next(t, commit).handlers|
    ensures t.handlers[commit.h].phase.Called?
    ensures
      var m, phase := t.handlers[commit.h].m, t.handlers[commit.h].phase;
      && (m.stage in {VideoPoll, AssetImport} ==> phase.snapshot.task.Some?)
      && Next(t, commit).handlers[commit.h].m == m
      && exists error :: Next(t, commit).handlers[commit.h].phase == AfterError(t.policy, m, phase, error, commit.now)
  {
    hide AfterError, Execute;
    var out := CommitOutcome(t, commit.h, commit.d, commit.g, commit.fault, commit.now);
    var m, phase := t.handlers[commit.h].m, t.handlers[commit.h].phase;
    assert Next(t, commit).handlers[commit.h].phase == AfterError(t.policy, m, phase, out.error, commit.now);
  }

  /** A handler has another transaction after a rollback in three cases only. */
  lemma AfterRollback(policy: Policy, m: Message, snapshot: Job, answer: Answer, asked: Time, told: Time, phase: Phase,
                      now: Time, after: Phase)
    requires phase.Called? && phase.snapshot == snapshot && after.Called?
    requires m.stage in {VideoPoll, AssetImport} ==> snapshot.task.Some?
    requires (phase.plan, phase.guarded) == Decide(policy, m, snapshot, answer, asked, told)
    requires exists error :: after == AfterError(policy, m, phase, error, now)
    ensures m.stage != VideoPoll
    ensures m.stage == VideoSubmit ==>
              answer.Accepted? && snapshot.task.None? && after.plan == PlanRecord(answer.task)
    ensures m.stage == AssetImport ==>
              !answer.Completed? && after.plan == RetryPlan(policy, m, snapshot, snapshot.task.value, now)
    ensures m.stage == ImageGenerate ==> answer.Completed? && after.plan == PlanFail
  {
  }

  /** Where a handler ends whose transaction did not commit: with a task the provider accepted it has that left to
      keep, unless a newer version has come; a lost import or image is dropped for a newer version; any other fault is
      an error. A committed one is done, but for a task that was kept after a fault, which is an error still. */
  lemma CommitsEnd(s: System, a: Action)
    requires Enabled(s, a) && a.Commit?
    ensures
      var t, m, phase := Next(s, a), s.handlers[a.h].m, s.handlers[a.h].phase;
      && |t.handlers| == |s.handlers|
      && var end := t.handlers[a.h].phase;
         && (Written(s, a).Some? ==> end == if phase.plan.PlanRecord? then Raised else Halted)
         && (Written(s, a).None? ==>
               var newer := !a.fault && m.job in s.records && s.records[m.job].job.version != phase.base.version;
               && (m.stage == VideoSubmit ==>
                     if !phase.guarded || !phase.plan.PlanSchedule? then end == Raised
                     else if newer then end == Halted
                     else end.Called? && end.plan == PlanRecord(phase.plan.task) && !end.guarded)
               && (m.stage == VideoPoll ==> end == Raised)
               && (m.stage == AssetImport ==>
                     if phase.plan.PlanSucceed? then end == (if newer then Halted else Raised)
                     else if phase.guarded then end.Called? && !end.guarded else end == Raised)
               && (m.stage == ImageGenerate && phase.guarded ==>
                     if newer then end == Halted
                     else if phase.plan.PlanSucceed? then end.Called? && end.plan == PlanFail else end == Raised)
               && (m.stage == ImageGenerate && !phase.guarded ==> end == Raised))
  {
    hide Execute, MessagesOf;
    var m, phase := s.handlers[a.h].m, s.handlers[a.h].phase;
    if m.job in s.records {
      NewerIsStale(s.records[m.job], m, phase.base, phase.plan, a.d, a.g, a.now);
    }
  }

  lemma NewerIsStale(r: JobRecord, m: Message, base: Job, plan: Plan, d: DispatchId, g: GenerationId, now: Time)
    ensures Execute(r, m, base, plan, d, g, now) == Err(StaleVersion) <==> r.job.version != base.version
  {
  }

  // ----- success

  ghost predicate WasCompleted(run: Run, k: nat, h: nat)
    requires run.Valid() && k <= |run.actions|
  {
    exists i {:trigger run.actions[i]} :: 0 <= i < k && run.actions[i].Call? && run.actions[i].h == h &&
                                          run.actions[i].answer.Completed?
  }

  lemma SuccessIsDecided(policy: Policy, m: Message, snapshot: Job, answer: Answer, asked: Time, told: Time)
    requires m.stage in {VideoPoll, AssetImport} ==> snapshot.task.Some?
    ensures Decide(policy, m, snapshot, answer, asked, told).0.PlanSucceed? ==>
              answer.Completed? && m.stage !in {VideoSubmit, VideoPoll}
  {
  }

  lemma NoNewSuccess(s: System, a: Action, h: nat)
    requires Enabled(s, a) && a.Commit? && h < |Next(s, a).handlers|
    ensures h < |s.handlers| && Next(s, a).handlers[h].m == s.handlers[h].m
    ensures h != a.h ==> Next(s, a).handlers[h] == s.handlers[h]
    ensures h == a.h && Next(s, a).handlers[h].phase.Called? ==> !Next(s, a).handlers[h].phase.plan.PlanSucceed?
  {
    hide Execute, MessagesOf;
  }

  lemma SuccessIsCalled(s: System, a: Action, h: nat)
    requires Enabled(s, a) && a.Call? && h < |Next(s, a).handlers|
    ensures h < |s.handlers| && Next(s, a).handlers[h].m == s.handlers[h].m
    ensures h != a.h ==> Next(s, a).handlers[h] == s.handlers[h]
    ensures h == a.h && Next(s, a).handlers[h].phase.plan.PlanSucceed? ==>
              a.answer.Completed? && s.handlers[h].m.stage !in {VideoSubmit, VideoPoll}
  {
    hide Billable;
    if h == a.h {
      SuccessIsDecided(s.policy, s.handlers[h].m, s.handlers[h].phase.snapshot, a.answer, a.now, a.later);
    }
    hide Decide;
  }

  lemma ReadsPlanNothing(s: System, a: Action, h: nat)
    requires Enabled(s, a) && (a.ReadJob? || a.ReadAttempt?)
    requires h < |Next(s, a).handlers| && Next(s, a).handlers[h].phase.Called?
    ensures h < |s.handlers| && Next(s, a).handlers[h] == s.handlers[h]
  {
    hide Next, Admission, MessagesOf, Matches;
    ReadShape(s, a);
  }

  /** Outside claims, reads, calls and commits no handler comes to a plan. */
  lemma OthersPlanNothing(s: System, a: Action, h: nat)
    requires Enabled(s, a) && !a.Call? && !a.Commit? && !a.Claim? && !a.ReadJob? && !a.ReadAttempt?
    requires h < |Next(s, a).handlers| && Next(s, a).handlers[h].phase.Called?
    ensures h < |s.handlers| && Next(s, a).handlers[h] == s.handlers[h]
  {
    hide Admission, MessagesOf, Transition, AddWork, RecoverOutcome, Matches, StageFits;
  }

  /** A handler plans a success only on a completed answer. */
  lemma SuccessIsAnswered(s: System, a: Action, h: nat)
    requires Enabled(s, a) && h < |Next(s, a).handlers|
    requires Next(s, a).handlers[h].phase.Called? && Next(s, a).handlers[h].phase.plan.PlanSucceed?
    ensures h < |s.handlers| && Next(s, a).handlers[h].m == s.handlers[h].m
    ensures
      || (s.handlers[h].phase.Called? && s.handlers[h].phase.plan.PlanSucceed?)
      || (a.Call? && a.h == h && a.answer.Completed? && s.handlers[h].m.stage !in {VideoSubmit, VideoPoll})
  {
    hide Next, Enabled, Decide;
    if a.Call? {
      SuccessIsCalled(s, a, h);
    } else if a.Commit? {
      NoNewSuccess(s, a, h);
    } else if a.Claim? {
      ClaimShape(s, a);
    } else if a.ReadJob? || a.ReadAttempt? {
      ReadsPlanNothing(s, a, h);
    } else {
      OthersPlanNothing(s, a, h);
    }
  }

  lemma {:induction false} PlannedSuccessWasCompleted(run: Run, k: nat, h: nat)
    requires run.Valid() && k < |run.states| && h < |run.states[k].handlers|
    requires run.states[k].handlers[h].phase.Called? && run.states[k].handlers[h].phase.plan.PlanSucceed?
    ensures WasCompleted(run, k, h) && run.states[k].handlers[h].m.stage !in {VideoSubmit, VideoPoll}
  {
    hide Enabled, Next;
    if k > 0 {
      var s, a := run.states[k - 1], run.actions[k - 1];
      SuccessIsAnswered(s, a, h);
      if s.handlers[h].phase.Called? && s.handlers[h].phase.plan.PlanSucceed? {
        PlannedSuccessWasCompleted(run, k - 1, h);
      }
    }
  }

  /** A job succeeds only in the transaction of a handler whose import or image came back completed; the public
      status endpoint is the one other way. */
  lemma SuccessNeedsACompletedAnswer(run: Run, k: nat)
    requires run.Valid() && k < |run.actions| && Written(run.states[k], run.actions[k]).Some?
    requires
      var (j, r') := Written(run.states[k], run.actions[k]).value;
      r'.job.status == Succeeded && (j in run.states[k].records ==> run.states[k].records[j].job.status != Succeeded)
    ensures
      var a := run.actions[k];
      || a.External?
      || (a.Commit? && WasCompleted(run, k, a.h) &&
          run.states[k].handlers[a.h].m.stage in {AssetImport, ImageGenerate})
  {
    RunKeeps(run, k);
    var s, a := run.states[k], run.actions[k];
    var (j, r') := Written(s, a).value;
    OnlyCommitsSucceed(s, a);
    if a.Commit? {
      PlannedSuccessWasCompleted(run, k, a.h);
      CommitExecutes(s, a);
      HandlerFacts(s, a.h);
    }
  }

  lemma OnlyCommitsSucceed(s: System, a: Action)
    requires Inv(s) && Enabled(s, a) && Written(s, a).Some? && Written(s, a).value.1.job.status == Succeeded
    requires
      var j := Written(s, a).value.0;
      j in s.records ==> s.records[j].job.status != Succeeded
    ensures a.External? || (a.Commit? && s.handlers[a.h].phase.plan.PlanSucceed?)
  {
    hide Execute, Transition, Recover, Closes, Inv;
    if a.Claim? {
      OnlyEnteredClaims(s, a);
    } else if a.Commit? {
      CommitExecutes(s, a);
      var m, phase := s.handlers[a.h].m, s.handlers[a.h].phase;
      PlanWrites(s.records[m.job], m, phase.base, phase.plan, a.d, a.g, a.now, Written(s, a).value.1);
    } else if a.RecoverCommit? {
      RecoverReplaces(s, a.h, a.d, a.now, Written(s, a).value.1);
    }
  }

  /** And it does succeed: in a run with a broker, the transaction after a completed import or image commits unless
      it meets a database fault or a newer version, and leaves the job with its result. */
  lemma CompletedAnswersSucceed(run: Run, i: nat, k: nat, h: nat)
    requires run.Valid() && Answers(run, i, k, h) && forall x :: 0 <= x < k ==> BrokerAction(run.actions[x])
    requires run.actions[i].answer.Completed? && !run.actions[k].fault
    requires
      var m := run.states[i].handlers[h].m;
      && (m.stage == AssetImport || m.stage == ImageGenerate)
      && m.job in run.states[k].records
      && run.states[k].records[m.job].job.version == run.states[i].handlers[h].phase.base.version
    ensures
      var m, a := run.states[i].handlers[h].m, run.actions[k];
      var r := run.states[k].records[m.job];
      && Written(run.states[k], a).Some? && Written(run.states[k], a).value.0 == m.job
      && EndsWell(r, m.attempt, a.g, a.now, Written(run.states[k], a).value.1)
      && m.job in run.states[k + 1].records && run.states[k + 1].records[m.job].job.status == Succeeded
      && run.states[k + 1].records[m.job].results != {}
  {
    var s, t, a := run.states[i], run.states[k], run.actions[k];
    var m := s.handlers[h].m;
    CallLeaves(s, run.actions[i]);
    BrokerRunKeeps(run, k);
    assert run.states[k + 1] == Next(t, a) && Enabled(t, a);
    CompletedIsPlanned(s, run.actions[i]);
    CommitSucceeds(t, a);
    hide Enabled, Next, Run.Valid, EndsWell, Written, Decide, Inv, ChainInv, BrokerAction;
    AnswersDecideTheRecord(run, i, k, h);
    NextRecords(t, a);
    WellMeans(t.records[m.job], m.attempt, a.g, a.now, Written(t, a).value.1);
  }

  lemma CompletedIsPlanned(s: System, call: Action)
    requires Enabled(s, call) && call.Call? && call.answer.Completed?
    ensures call.h < |s.handlers| && s.handlers[call.h].phase.Claimed?
    ensures s.handlers[call.h].m.stage in {AssetImport, ImageGenerate} ==>
              Decide(s.policy, s.handlers[call.h].m, s.handlers[call.h].phase.snapshot, call.answer, call.now,
                     call.later).0 == PlanSucceed
  {
  }

  lemma CommitSucceeds(t: System, a: Action)
    requires Inv(t) && ChainInv(t) && Enabled(t, a) && a.Commit? && !a.fault
    requires t.handlers[a.h].m.job in t.records
    requires t.records[t.handlers[a.h].m.job].job.version == t.handlers[a.h].phase.base.version
    ensures Written(t, a).Some? && Written(t, a).value.0 == t.handlers[a.h].m.job
  {
    hide *;
    CommitCalled(t, a);
    OwnerCommits(t, a.h, a.d, a.g, a.now);
    ExecutedIsWritten(t, a);
  }

  lemma CommitCalled(t: System, a: Action)
    requires Enabled(t, a) && a.Commit?
    ensures a.h < |t.handlers| && t.handlers[a.h].phase.Called?
  {
  }

  lemma OwnerCommits(t: System, h: nat, d: DispatchId, g: GenerationId, now: Time)
    requires Inv(t) && ChainInv(t) && h < |t.handlers| && t.handlers[h].phase.Called?
    requires t.handlers[h].m.job in t.records
    requires t.records[t.handlers[h].m.job].job.version == t.handlers[h].phase.base.version
    ensures
      var m, phase := t.handlers[h].m, t.handlers[h].phase;
      Execute(t.records[m.job], m, phase.base, phase.plan, d, g, now).Ok?
  {
    var m, phase := t.handlers[h].m, t.handlers[h].phase;
    hide Inv, ChainInv, Execute, RecordOk, Agrees, HandlerAccepts, StageStep;
    OwnerFacts(t, h, m.job);
    ExecuteSucceeds(t.records[m.job], m, phase.snapshot, phase.base, phase.plan, d, g, now);
  }

  lemma ExecutedIsWritten(t: System, a: Action)
    requires Enabled(t, a) && a.Commit? && !a.fault && a.h < |t.handlers| && t.handlers[a.h].phase.Called?
    requires
      var m, phase := t.handlers[a.h].m, t.handlers[a.h].phase;
      m.job in t.records && Execute(t.records[m.job], m, phase.base, phase.plan, a.d, a.g, a.now).Ok?
    ensures Written(t, a).Some? && Written(t, a).value.0 == t.handlers[a.h].m.job
  {
    hide Execute, Enabled;
  }

  lemma WellMeans(r: JobRecord, n: nat, g: GenerationId, now: Time, r': JobRecord)
    requires EndsWell(r, n, g, now, r')
    ensures r'.job.status == Succeeded && r'.results != {}
  {
  }
}
