/** Stronger results for runs without the public status endpoint, and for runs with a broker
    and no local recovery. */
module BrokerRuns {
  import opened Model
  import opened Records
  import opened RecordGrowth
  import opened Protocol
  import opened ProtocolInvariant
  import opened ProtocolTheorems

  // ----- the attempt chain of one job

  ghost predicate HasWork(works: map<DispatchId, Work>, k: nat) {
    exists d :: d in works && works[d].attempt == k
  }

  /** The dispatched attempt numbers are exactly 1..n, and a continuation is written once. */
  ghost predicate Dispatched(works: map<DispatchId, Work>, n: nat) {
    && n >= 1
    && (forall d :: d in works ==> 1 <= works[d].attempt <= n)
    && (forall k :: 1 <= k <= n ==> HasWork(works, k))
    && (forall d, e :: d in works && e in works && works[d].attempt == works[e].attempt >= 2 ==> d == e)
  }

  /** Attempts 1..n-1 are finished, none is numbered past n, and each ran the stage its outbox
      rows name. */
  ghost predicate Finished(attempts: map<nat, Attempt>, works: map<DispatchId, Work>, n: nat) {
    && (forall k :: k in attempts ==> 1 <= k <= n)
    && (forall k :: 1 <= k < n ==> k in attempts && attempts[k].status != Running)
    && (forall d :: d in works && works[d].attempt in attempts ==> attempts[works[d].attempt].stage == works[d].stage)
  }

  /** The last attempt is where the job is: running at the job's stage, or not begun while every
      outbox row that carries its number names the job's stage, or closed with the job. */
  ghost predicate Tip(job: Job, attempts: map<nat, Attempt>, works: map<DispatchId, Work>, n: nat) {
    if n in attempts then
      if Active(job.status) then attempts[n] == Attempt(job.stage, Running) && job.status == Running
      else attempts[n].status != Running
    else
      Active(job.status) && forall d :: d in works && works[d].attempt == n ==> works[d].stage == job.stage
  }

  /** No number is skipped, and an active job has its next attempt running or written down. */
  ghost predicate Chain(r: JobRecord, n: nat) {
    Dispatched(r.works, n) && Finished(r.attempts, r.works, n) && Tip(r.job, r.attempts, r.works, n)
  }

  ghost predicate Chained(r: JobRecord) {
    exists n: nat :: Chain(r, n)
  }

  /** A handler whose compare-and-swap can still succeed owns the running attempt it was sent for. */
  ghost predicate HoldsAttempt(s: System, h: Handler) {
    (h.phase.Claimed? || h.phase.Called?) && h.m.job in s.records &&
    h.phase.base.version == s.records[h.m.job].job.version ==>
      var r := s.records[h.m.job];
      h.m.attempt in r.attempts && r.attempts[h.m.attempt] == Attempt(h.m.stage, Running)
  }

  ghost predicate ChainInv(s: System) {
    && (forall j :: j in s.records ==> Chained(s.records[j]))
    && (forall i :: 0 <= i < |s.handlers| ==> HoldsAttempt(s, s.handlers[i]))
  }

  lemma AdmissionChain(a: Action)
    requires a.Admit?
    ensures Chained(Admission(a.kind, a.stage, a.key, a.maxAttempts, a.d, a.now))
  {
    var r := Admission(a.kind, a.stage, a.key, a.maxAttempts, a.d, a.now);
    assert a.d in r.works && r.works[a.d].attempt == 1;
    assert Chain(r, 1);
  }

  /** The number a claim opens is always the end of the chain. */
  lemma ClaimChain(r: JobRecord, m: Message, r': JobRecord)
    requires Chained(r) && m.dispatch in r.works && r.works[m.dispatch] == Work(m.stage, m.attempt)
    requires Active(r.job.status) && r'.job.stage == r.job.stage == m.stage && r'.job.status == Running
    requires m.attempt !in r.attempts && r'.works == r.works
    requires r'.attempts == r.attempts[m.attempt := Attempt(m.stage, Running)]
    ensures Chained(r')
  {
    var n: nat :| Chain(r, n);
    assert m.attempt == n;
    assert Finished(r'.attempts, r'.works, n);
    assert Chain(r', n);
  }

  lemma OnlyLastRuns(r: JobRecord, n: nat, k: nat)
    requires Chain(r, n) && RunningAttempt(r, k)
    ensures k == n && Active(r.job.status) && r.attempts[k].stage == r.job.stage && r.job.status == Running
  {
  }

  lemma DispatchNext(works: map<DispatchId, Work>, n: nat, d: DispatchId, stage: Stage)
    requires Dispatched(works, n) && d !in works
    ensures Dispatched(works[d := Work(stage, n + 1)], n + 1)
  {
    var more := works[d := Work(stage, n + 1)];
    forall k | 1 <= k <= n + 1
      ensures HasWork(more, k)
    {
      if k <= n {
        assert HasWork(works, k);
        var e :| e in works && works[e].attempt == k;
        assert more[e].attempt == k;
      } else {
        assert more[d].attempt == k;
      }
    }
  }

  lemma FinishNext(attempts: map<nat, Attempt>, works: map<DispatchId, Work>, n: nat, closing: Status,
                   d: DispatchId, stage: Stage)
    requires Dispatched(works, n) && Finished(attempts, works, n) && d !in works
    requires n in attempts && Terminal(closing)
    ensures Finished(attempts[n := attempts[n].(status := closing)], works[d := Work(stage, n + 1)], n + 1)
    ensures n + 1 !in attempts
  {
  }

  lemma ContinueChain(r: JobRecord, m: Message, closing: Status, d: DispatchId, r': JobRecord)
    requires Chained(r) && d !in r.works && Terminal(closing)
    requires m.attempt in r.attempts && r.attempts[m.attempt] == Attempt(m.stage, Running)
    requires r'.job.status == Running && r'.works == r.works[d := Work(r'.job.stage, m.attempt + 1)]
    requires r'.attempts == r.attempts[m.attempt := Attempt(m.stage, closing)]
    ensures Chained(r')
  {
    var n: nat :| Chain(r, n);
    OnlyLastRuns(r, n, m.attempt);
    DispatchNext(r.works, n, d, r'.job.stage);
    FinishNext(r.attempts, r.works, n, closing, d, r'.job.stage);
    assert Chain(r', n + 1);
  }

  lemma CloseChain(r: JobRecord, m: Message, closing: Status, r': JobRecord)
    requires Chained(r) && Terminal(closing)
    requires m.attempt in r.attempts && r.attempts[m.attempt] == Attempt(m.stage, Running)
    requires Terminal(r'.job.status) && r'.works == r.works
    requires r'.attempts == r.attempts[m.attempt := Attempt(m.stage, closing)]
    ensures Chained(r')
  {
    var n: nat :| Chain(r, n);
    OnlyLastRuns(r, n, m.attempt);
    assert Finished(r'.attempts, r'.works, n);
    assert Chain(r', n);
  }

  lemma KeepChain(r: JobRecord, m: Message, r': JobRecord)
    requires Chained(r)
    requires m.attempt in r.attempts && r.attempts[m.attempt] == Attempt(m.stage, Running)
    requires r'.job.status == Running && r'.job.stage == m.stage
    requires r'.works == r.works && r'.attempts == r.attempts
    ensures Chained(r')
  {
    var n: nat :| Chain(r, n);
    OnlyLastRuns(r, n, m.attempt);
    assert Chain(r', n);
  }

  lemma RequeueChain(r: JobRecord, lost: DispatchId, d: DispatchId)
    requires Chained(r) && r.attempts == map[] && lost in r.works && d !in r.works
    ensures Chained(AddWork(r, d, r.works[lost]))
  {
    var n: nat :| Chain(r, n);
    assert n > 1 ==> 1 in r.attempts;
    var r' := AddWork(r, d, r.works[lost]);
    assert r'.works[d].attempt == 1;
    assert Chain(r', 1);
  }

  /** Local recovery is outside the chain's guarantee, and this is exactly when: what it commits
      is still a chain if and only if the attempt its message names was running. A failure before
      the claim leaves that attempt unopened, and a late redelivery names one already closed. */
  lemma RecoveryKeepsChainIffAttemptRan(r: JobRecord, m: Message, snapshot: Job, duplicate: bool, d: DispatchId,
                                        now: Time, r': JobRecord)
    requires RecordOk(r) && Agrees(snapshot, r.job) && Chained(r) && d !in r.works
    requires m.dispatch in r.works && r.works[m.dispatch] == Work(m.stage, m.attempt) && Active(snapshot.status)
    requires Recover(r, m, snapshot, duplicate, d, now) == Ok(r')
    ensures Chained(r') <==> RunningAttempt(r, m.attempt)
  {
    hide TrailOk, Sealed, TransitionJob;
    assert WorkOk(r.works[m.dispatch], r.job);
    RecoverGrows(r, m, snapshot, duplicate, d, now, r');
    assert r'.attempts == Finish(r, m.attempt, Failed).attempts;
    var n: nat :| Chain(r, n);
    if RunningAttempt(r, m.attempt) {
      OnlyLastRuns(r, n, m.attempt);
      assert r.works[m.dispatch].attempt in r.attempts;
      if r'.job.status == Running {
        ContinueChain(r, m, Failed, d, r');
      } else {
        CloseChain(r, m, Failed, r');
      }
    } else {
      forall k: nat ensures !Chain(r', k) {
        if r'.job.status == Running {
          SkippedChain(r, n, m, d, r', k);
        } else {
          AbandonedChain(r, n, r', k);
        }
      }
    }
  }

  lemma SkippedChain(r: JobRecord, n: nat, m: Message, d: DispatchId, r': JobRecord, k: nat)
    requires Chain(r, n) && d !in r.works && Active(r.job.status) && !RunningAttempt(r, m.attempt)
    requires m.dispatch in r.works && r.works[m.dispatch].attempt == m.attempt
    requires r'.attempts == r.attempts && r'.works == r.works[d := Work(r'.job.stage, m.attempt + 1)]
    ensures !Chain(r', k)
  {
    assert r'.works[d].attempt == m.attempt + 1 <= n + 1;
    if m.attempt < n {
      assert HasWork(r.works, m.attempt + 1);
      var f :| f in r.works && r.works[f].attempt == m.attempt + 1;
      assert f != d && r'.works[f].attempt == r'.works[d].attempt >= 2;
      assert !Dispatched(r'.works, k);
    } else if k <= n {
      assert !Dispatched(r'.works, k);
    } else {
      assert n !in r'.attempts;
      assert !Finished(r'.attempts, r'.works, k);
    }
  }

  lemma AbandonedChain(r: JobRecord, n: nat, r': JobRecord, k: nat)
    requires Chain(r, n) && Active(r.job.status) && r'.attempts == r.attempts && r'.works == r.works
    requires Terminal(r'.job.status)
    ensures !Chain(r', k)
  {
    assert HasWork(r.works, n);
    if k > n {
      assert !HasWork(r'.works, k);
    }
  }

  /** A failing input: the claim of a fresh job's first delivery raised, so attempt 1 was never opened,
      and recovery ends the job with attempt 1 still unopened. */
  lemma RecoveryAbandonsAnUnopenedAttempt(j: JobId, key: Option<RequestKey>, limit: nat, d: DispatchId, e: DispatchId,
                                          now: Time)
    requires d != e
    ensures
      var r := Admission(Video, VideoSubmit, key, limit, d, now);
      var out := Recover(r, Message(j, VideoSubmit, 1, d), r.job, false, e, now);
      Chained(r) && out.Ok? && !Chained(out.value)
  {
    var r := Admission(Video, VideoSubmit, key, limit, d, now);
    var out := Recover(r, Message(j, VideoSubmit, 1, d), r.job, false, e, now);
    assert r.works[d].attempt == 1;
    assert Chain(r, 1);
    forall k: nat
      ensures !Chain(out.value, k)
    {
      AbandonedChain(r, 1, out.value, k);
    }
  }

  /** A job whose submit succeeded and whose first poll is waiting to be delivered. */
  function Polling(task: TaskId, d: DispatchId, e: DispatchId, now: Time): JobRecord {
    JobRecord(Job(Video, Running, VideoPoll, 2, Some(task), None, 1, 10, now, now, Some(now)),
              map[1 := Attempt(VideoSubmit, Succeeded)], map[d := Work(VideoSubmit, 1), e := Work(VideoPoll, 2)],
              [Mark(None, Queued), Mark(Some(Queued), Running), Mark(Some(Running), Running), Mark(None, Running)], {})
  }

  /** That job is what admission, a claim and a schedule make. */
  lemma PollingIsReached(j: JobId, task: TaskId, d: DispatchId, e: DispatchId, now: Time)
    requires d != e
    ensures
      var r := Admission(Video, VideoSubmit, None, 10, d, now);
      var m := Message(j, VideoSubmit, 1, d);
      var claim := ClaimVideo(r, m, r.job, now);
      && claim.Owned?
      && Schedule(claim.record, m, claim.record.job.version, VideoPoll, task, Succeeded, e, now) ==
         Ok(Polling(task, d, e, now))
  {
    var r := Admission(Video, VideoSubmit, None, 10, d, now);
    var m := Message(j, VideoSubmit, 1, d);
    var claim := ClaimVideo(r, m, r.job, now);
    var out := Schedule(claim.record, m, claim.record.job.version, VideoPoll, task, Succeeded, e, now);
    assert out.value.attempts == Polling(task, d, e, now).attempts;
    assert out.value.works == Polling(task, d, e, now).works;
    assert out.value.trail == Polling(task, d, e, now).trail;
  }

  lemma PollingIsChained(task: TaskId, d: DispatchId, e: DispatchId, now: Time)
    requires d != e
    ensures Chain(Polling(task, d, e, now), 2)
  {
    var r := Polling(task, d, e, now);
    assert r.works[d].attempt == 1 && r.works[e].attempt == 2;
    assert HasWork(r.works, 1) && HasWork(r.works, 2);
  }

  /** A failing input at a stage that may be retried: the claim of that poll raised, recovery writes
      attempt 3, and attempt 2 is skipped for good. */
  lemma RecoverySkipsAnUnopenedAttempt(j: JobId, task: TaskId, d: DispatchId, e: DispatchId, f: DispatchId, now: Time)
    requires d != e && f != d && f != e
    ensures
      var r := Polling(task, d, e, now);
      var out := Recover(r, Message(j, VideoPoll, 2, e), r.job, false, f, now);
      Chained(r) && out.Ok? && out.value.job.status == Running && out.value.works[f] == Work(VideoPoll, 3) &&
      !Chained(out.value)
  {
    var r, m := Polling(task, d, e, now), Message(j, VideoPoll, 2, e);
    var out := Recover(r, m, r.job, false, f, now);
    PollingIsChained(task, d, e, now);
    forall k: nat
      ensures !Chain(out.value, k)
    {
      SkippedChain(r, 2, m, f, out.value, k);
    }
  }

  // ----- every broker step keeps the chains

  /** What a broker step writes is chained again, and an attempt that a surviving handler holds
      stays running. */
  lemma WrittenChain(s: System, a: Action)
    requires Inv(s) && ChainInv(s) && Enabled(s, a) && BrokerAction(a) && Written(s, a).Some?
    ensures Chained(Written(s, a).value.1)
  {
    var (j, r') := Written(s, a).value;
    match a
    case Admit(_, _, _, _, _, _, _, _) => AdmissionChain(a);
    case Claim(h, _, _, now) => OnlyEnteredClaims(s, a); ClaimWrittenChain(s, h, now, r');
    case Commit(_, _, _, _, _) => CommitChain(s, a, r');
    case Requeue(_, lost, d) => assert WorksIssued(s, j); RequeueChain(s.records[j], lost, d);
  }

  lemma ClaimWrittenChain(s: System, h: nat, now: Time, r': JobRecord)
    requires Inv(s) && ChainInv(s) && h < |s.handlers|
    requires s.handlers[h].phase.Entered?
    requires s.handlers[h].m.job in s.records
    requires ClaimFor(s.records[s.handlers[h].m.job], s.handlers[h].m, s.handlers[h].phase.snapshot, now) == Owned(r')
    ensures Chained(r')
    ensures r'.job.version != s.records[s.handlers[h].m.job].job.version
    ensures s.handlers[h].m.attempt in r'.attempts
    ensures r'.attempts[s.handlers[h].m.attempt] == Attempt(s.handlers[h].m.stage, Running)
  {
    var m := s.handlers[h].m;
    assert HandlerOk(s, s.handlers[h]) && MessageOk(s, m);
    var r := s.records[m.job];
    assert WorkOk(r.works[m.dispatch], r.job);
    ClaimGrows(r, m, s.handlers[h].phase.snapshot, now, r');
    ClaimChain(r, m, r');
  }

  lemma HolderFacts(s: System, h: nat)
    requires Inv(s) && ChainInv(s) && h < |s.handlers| && s.handlers[h].m.job in s.records
    ensures HandlerOk(s, s.handlers[h]) && HoldsAttempt(s, s.handlers[h])
    ensures WorksIssued(s, s.handlers[h].m.job) && RecordOk(s.records[s.handlers[h].m.job])
    ensures Chained(s.records[s.handlers[h].m.job])
  {
  }

  lemma CommitChain(s: System, a: Action, r': JobRecord)
    requires Inv(s) && ChainInv(s) && a.Commit? && a.d !in s.usedDispatches
    requires a.h < |s.handlers| && s.handlers[a.h].phase.Called?
    requires CommitOutcome(s, a.h, a.d, a.g, a.fault, a.now) == Ok(r')
    ensures Chained(r')
  {
    var m := s.handlers[a.h].m;
    var phase := s.handlers[a.h].phase;
    var r := s.records[m.job];
    hide Inv, ChainInv, Chained, MessageOk, TrailOk;
    HolderFacts(s, a.h);
    ExecuteGrows(r, m, phase.snapshot, phase.base, phase.plan, a.d, a.g, a.now, r');
    match phase.plan
    case PlanSchedule(_, _, closing) => ContinueChain(r, m, closing, a.d, r');
    case PlanRecord(_) => KeepChain(r, m, r');
    case PlanFail => CloseChain(r, m, Failed, r');
    case PlanSucceed => CloseChain(r, m, Succeeded, r');
  }

  /** A handler holds its attempt as long as nobody else has written the row. */
  lemma HoldsAfterWrite(s: System, j: JobId, r': JobRecord, h: Handler)
    requires Inv(s) && Replaces(s, j, r') && HandlerOk(s, h) && HoldsAttempt(s, h)
    requires r'.job == s.records[j].job ==> r'.attempts == s.records[j].attempts
    ensures HoldsAttempt(Put(s, j, r'), h)
  {
    hide Inv, MessagesOf;
  }

  lemma PutKeepsChain(s: System, j: JobId, r': JobRecord)
    requires Inv(s) && ChainInv(s) && Replaces(s, j, r') && Chained(r')
    requires r'.job == s.records[j].job ==> r'.attempts == s.records[j].attempts
    ensures ChainInv(Put(s, j, r'))
  {
    hide Inv, Chained, Replaces, HandlerOk, HoldsAttempt, MessagesOf;
    var t := Put(s, j, r');
    forall i | 0 <= i < |t.handlers|
      ensures HoldsAttempt(t, t.handlers[i])
    {
      HandlerFacts(s, i);
      assert HoldsAttempt(s, s.handlers[i]);
      HoldsAfterWrite(s, j, r', s.handlers[i]);
    }
    forall k | k in t.records
      ensures Chained(t.records[k])
    {
      assert k == j || Chained(s.records[k]);
    }
  }

  lemma MoveKeepsChain(s: System, h: nat, phase: Phase)
    requires ChainInv(s) && h < |s.handlers| && HoldsAttempt(s, s.handlers[h].(phase := phase))
    ensures ChainInv(Move(s, h, phase))
  {
    var t := Move(s, h, phase);
    forall i | 0 <= i < |t.handlers|
      ensures HoldsAttempt(t, t.handlers[i])
    {
      assert HoldsAttempt(s, s.handlers[i]);
    }
  }

  lemma LicenseKeepsChain(s: System, h: nat)
    requires ChainInv(s) && h < |s.handlers|
    ensures ChainInv(License(s, h))
  {
    forall i | 0 <= i < |s.handlers|
      ensures HoldsAttempt(License(s, h), s.handlers[i])
    {
      assert HoldsAttempt(s, s.handlers[i]);
    }
  }

  lemma ClaimKeepsChain(s: System, h: nat, payloadOk: bool, fault: bool, now: Time)
    requires Inv(s) && ChainInv(s) && h < |s.handlers| && s.handlers[h].phase.Entered?
    ensures ChainInv(NextClaim(s, h, payloadOk, fault, now))
  {
    hide Inv, ChainInv, AfterClaim, Put;
    var m := s.handlers[h].m;
    var snapshot := s.handlers[h].phase.snapshot;
    if !HandlerAccepts(m, snapshot) || fault || m.job !in s.records {
      MoveKeepsChain(s, h, if !HandlerAccepts(m, snapshot) || fault then Raised else Halted);
    } else {
      var answer := ClaimFor(s.records[m.job], m, snapshot, now);
      if answer.Owned? {
        OwnedKeepsChain(s, h, payloadOk, now, answer.record);
      } else if answer.Resumed? {
        ResumedHolds(s, h);
        MoveKeepsChain(s, h, AfterClaim(m, snapshot, snapshot, payloadOk));
        LicenseKeepsChain(Move(s, h, AfterClaim(m, snapshot, snapshot, payloadOk)), h);
      } else {
        MoveKeepsChain(s, h, if answer.Stale? then Halted else Surfaced);
      }
    }
  }

  lemma OwnedKeepsChain(s: System, h: nat, payloadOk: bool, now: Time, r': JobRecord)
    requires Inv(s) && ChainInv(s) && h < |s.handlers| && s.handlers[h].phase.Entered?
    requires var m, snapshot := s.handlers[h].m, s.handlers[h].phase.snapshot;
             HandlerAccepts(m, snapshot) && m.job in s.records &&
             ClaimFor(s.records[m.job], m, snapshot, now) == Owned(r')
    ensures ChainInv(NextClaim(s, h, payloadOk, false, now))
  {
    var m := s.handlers[h].m;
    var snapshot := s.handlers[h].phase.snapshot;
    ClaimReplaces(s, h, now, r');
    ClaimWrittenChain(s, h, now, r');
    PutKeepsChain(s, m.job, r');
    HoldAndLicense(Put(s, m.job, r'), h, AfterClaim(m, snapshot, r'.job, payloadOk));
  }

  lemma HoldAndLicense(p: System, h: nat, phase: Phase)
    requires ChainInv(p) && h < |p.handlers| && HoldsAttempt(p, p.handlers[h].(phase := phase))
    ensures ChainInv(License(Move(p, h, phase), h))
  {
    MoveKeepsChain(p, h, phase);
    var t := Move(p, h, phase);
    forall i | 0 <= i < |t.handlers| ensures HoldsAttempt(License(t, h), t.handlers[i]) {
      assert HoldsAttempt(t, t.handlers[i]);
    }
  }

  /** Resuming never trusts the snapshot alone: the attempt found running is the one the message
      names, at the message's stage. */
  lemma ResumedHolds(s: System, h: nat)
    requires Inv(s) && ChainInv(s) && h < |s.handlers| && s.handlers[h].phase.Entered?
    requires s.handlers[h].m.job in s.records
    requires RunningAttempt(s.records[s.handlers[h].m.job], s.handlers[h].m.attempt)
    ensures
      var m := s.handlers[h].m;
      s.records[m.job].attempts[m.attempt] == Attempt(m.stage, Running)
  {
    var m := s.handlers[h].m;
    assert HandlerOk(s, s.handlers[h]) && MessageOk(s, m) && Chained(s.records[m.job]);
    var n: nat :| Chain(s.records[m.job], n);
    assert s.records[m.job].works[m.dispatch].attempt in s.records[m.job].attempts;
  }

  lemma CommitKeepsChain(s: System, a: Action)
    requires Inv(s) && ChainInv(s) && a.Commit? && Enabled(s, a)
    ensures ChainInv(Next(s, a))
  {
    var out := CommitOutcome(s, a.h, a.d, a.g, a.fault, a.now);
    if out.Ok? {
      CommittedKeepsChain(s, a, out.value);
    } else {
      RolledBackKeepsChain(s, a.h, out.error, a.now);
    }
  }

  lemma RolledBackKeepsChain(s: System, h: nat, error: Failure, now: Time)
    requires ChainInv(s) && h < |s.handlers| && s.handlers[h].phase.Called?
    requires s.handlers[h].m.stage in {VideoPoll, AssetImport} ==> s.handlers[h].phase.snapshot.task.Some?
    ensures ChainInv(Move(s, h, AfterError(s.policy, s.handlers[h].m, s.handlers[h].phase, error, now)))
  {
    var phase := AfterError(s.policy, s.handlers[h].m, s.handlers[h].phase, error, now);
    assert HoldsAttempt(s, s.handlers[h]);
    assert phase.Called? ==> phase.base == s.handlers[h].phase.base;
    MoveKeepsChain(s, h, phase);
  }

  lemma CommittedKeepsChain(s: System, a: Action, r': JobRecord)
    requires Inv(s) && ChainInv(s) && a.Commit? && Enabled(s, a)
    requires CommitOutcome(s, a.h, a.d, a.g, a.fault, a.now) == Ok(r')
    ensures ChainInv(Next(s, a))
  {
    var m := s.handlers[a.h].m;
    CommitReplaces(s, a.h, a.d, a.g, a.now, r');
    CommitChain(s, a, r');
    PutKeepsChain(s, m.job, r');
    MoveKeepsChain(Put(s, m.job, r'), a.h, if s.handlers[a.h].phase.plan.PlanRecord? then Raised else Halted);
  }

  lemma CallKeepsChain(s: System, a: Action)
    requires ChainInv(s) && a.Call? && Enabled(s, a)
    ensures ChainInv(Next(s, a))
  {
    var phase := s.handlers[a.h].phase;
    assert HoldsAttempt(s, s.handlers[a.h]);
    var (plan, guarded) := Decide(s.policy, s.handlers[a.h].m, phase.snapshot, a.answer, a.now, a.later);
    MoveKeepsChain(s, a.h, Called(phase.snapshot, phase.base, plan, guarded));
  }

  lemma ReadKeepsChain(s: System, a: Action)
    requires ChainInv(s) && (a.ReadJob? || a.ReadAttempt?) && Enabled(s, a)
    ensures ChainInv(Next(s, a))
  {
    ReadShape(s, a);
    MoveKeepsChain(s, a.h, Next(s, a).handlers[a.h].phase);
  }

  /** A read changes nothing but the reader's phase. */
  lemma ReadShape(s: System, a: Action)
    requires (a.ReadJob? || a.ReadAttempt?) && Enabled(s, a)
    ensures a.h < |Next(s, a).handlers|
    ensures Next(s, a) == Move(s, a.h, Next(s, a).handlers[a.h].phase)
    ensures Next(s, a).handlers[a.h].phase in {Raised, Surfaced, Halted, Unhandled} ||
            Next(s, a).handlers[a.h].phase.Entered? ||
            (a.ReadJob? && Next(s, a).handlers[a.h].phase.Looked?)
  {
    if a.ReadAttempt? {
      RoutedPhase(s, a.h, a.noted);
    }
  }

  /** A claim moves only the claiming handler, and never to a phase with a continuation planned. */
  ghost predicate ClaimMove(s: System, h: nat, t: System) {
    && h < |s.handlers| == |t.handlers|
    && t.handlers == s.handlers[h := t.handlers[h]]
    && t.handlers[h].m == s.handlers[h].m
    && var phase := t.handlers[h].phase;
       (phase in {Raised, Surfaced, Halted} || phase.Claimed? || (phase.Called? && phase.plan == PlanFail))
  }

  lemma EnteredShape(s: System, h: nat, payloadOk: bool, fault: bool, now: Time)
    requires h < |s.handlers| && s.handlers[h].phase.Entered?
    ensures ClaimMove(s, h, NextClaim(s, h, payloadOk, fault, now))
  {
  }

  lemma ClaimShape(s: System, a: Action)
    requires a.Claim? && Enabled(s, a)
    ensures ClaimMove(s, a.h, Next(s, a))
  {
    if s.handlers[a.h].phase.Entered? {
      EnteredShape(s, a.h, a.payloadOk, a.fault, a.now);
    }
  }

  lemma SilentKeepsChain(s: System, a: Action)
    requires ChainInv(s) && Enabled(s, a) && (a.Publish? || a.Deliver? || a.Cleanup?)
    ensures ChainInv(Next(s, a))
  {
    var t := Next(s, a);
    forall i | 0 <= i < |t.handlers|
      ensures HoldsAttempt(t, t.handlers[i])
    {
      if i < |s.handlers| {
        assert HoldsAttempt(s, s.handlers[i]);
      }
    }
    forall k | k in t.records ensures Chained(t.records[k]) { assert Chained(s.records[k]); }
  }

  lemma AdmitKeepsChain(s: System, a: Action)
    requires Inv(s) && ChainInv(s) && a.Admit? && Enabled(s, a)
    ensures ChainInv(Next(s, a))
  {
    AdmissionChain(a);
    var t := Next(s, a);
    forall i | 0 <= i < |t.handlers|
      ensures HoldsAttempt(t, t.handlers[i])
    {
      assert HandlerOk(s, s.handlers[i]) && MessageOk(s, s.handlers[i].m) && HoldsAttempt(s, s.handlers[i]);
    }
    forall k | k in t.records ensures Chained(t.records[k]) { assert k == a.j || Chained(s.records[k]); }
  }

  lemma StepKeepsChain(s: System, a: Action)
    requires Inv(s) && ChainInv(s) && Enabled(s, a) && BrokerAction(a)
    ensures ChainInv(Next(s, a))
  {
    match a
    case Admit(_, _, _, _, _, _, _, _) => AdmitKeepsChain(s, a);
    case Claim(h, payloadOk, fault, now) =>
      if s.handlers[h].phase.Entered? {
        ClaimKeepsChain(s, h, payloadOk, fault, now);
      } else {
        UnhandledIsNotStored(s, h);
        MoveKeepsChain(s, h, Raised);
      }
    case Commit(_, _, _, _, _) => CommitKeepsChain(s, a);
    case Requeue(j, lost, d) =>
      WrittenGrows(s, a);
      WrittenChain(s, a);
      PutKeepsChain(s, j, Written(s, a).value.1);
    case Call(_, _, _, _) => CallKeepsChain(s, a);
    case Die(h) => MoveKeepsChain(s, h, Halted);
    case ReadJob(_) => ReadKeepsChain(s, a);
    case ReadAttempt(_, _) => ReadKeepsChain(s, a);
    case _ => SilentKeepsChain(s, a);
  }

  // ----- local recovery

  /** A recovery that the step commits names an attempt that was running. */
  predicate RecoversRunning(s: System, a: Action)
    requires Enabled(s, a)
  {
    a.RecoverCommit? && Written(s, a).Some? ==>
      var m := s.handlers[a.h].m;
      m.job in s.records && RunningAttempt(s.records[m.job], m.attempt)
  }

  /** One committed recovery, in any state whose jobs are chained. */
  lemma RecoveredChainIffAttemptRan(s: System, a: Action)
    requires Inv(s) && Enabled(s, a) && a.RecoverCommit? && Written(s, a).Some?
    requires s.handlers[a.h].m.job in s.records && Chained(s.records[s.handlers[a.h].m.job])
    ensures Written(s, a).value.0 == s.handlers[a.h].m.job
    ensures Chained(Written(s, a).value.1) <==> RecoversRunning(s, a)
  {
    hide Inv, Chained, Recover;
    var m, phase := s.handlers[a.h].m, s.handlers[a.h].phase;
    StoredFacts(s, m.job);
    HandlerPhase(s, a.h);
    HandlerMessage(s, a.h);
    RecoveryKeepsChainIffAttemptRan(s.records[m.job], m, phase.snapshot, phase.duplicate, a.d, a.now,
                                    Written(s, a).value.1);
  }

  lemma HandlerMessage(s: System, h: nat)
    requires Inv(s) && h < |s.handlers|
    ensures MessageOk(s, s.handlers[h].m)
  {
    HandlerFacts(s, h);
  }

  lemma RecoveryStepKeepsChain(s: System, a: Action)
    requires Inv(s) && ChainInv(s) && Enabled(s, a) && (a.RecoverRead? || a.RecoverCommit?)
    requires RecoversRunning(s, a)
    ensures ChainInv(Next(s, a))
  {
    hide Inv, ChainInv, RecoversRunning;
    if a.RecoverCommit? {
      RecoverCommitKeepsChain(s, a);
    } else {
      var j := s.handlers[a.h].m.job;
      MoveKeepsChain(s, a.h, if j !in s.records || Terminal(s.records[j].job.status) then Halted
                             else Recovering(s.records[j].job, s.handlers[a.h].phase.Surfaced?));
    }
  }

  lemma RecoverCommitKeepsChain(s: System, a: Action)
    requires Inv(s) && ChainInv(s) && Enabled(s, a) && a.RecoverCommit? && RecoversRunning(s, a)
    ensures ChainInv(Next(s, a))
  {
    var j := s.handlers[a.h].m.job;
    var out := RecoverOutcome(s, a.h, a.d, a.fault, a.now);
    if out.Ok? {
      RecoveredChainIffAttemptRan(s, a);
      hide Inv, ChainInv, RecoversRunning, RecoverOutcome;
      RecoverReplaces(s, a.h, a.d, a.now, out.value);
      PutKeepsChain(s, j, out.value);
      MoveKeepsChain(Put(s, j, out.value), a.h, Halted);
    } else {
      MoveKeepsChain(s, a.h, Halted);
    }
  }

  // ----- generation rows

  /** At most one generation row is linked to a job, and one exactly when the job succeeded. */
  ghost predicate ResultOk(r: JobRecord) {
    |r.results| <= 1 && (r.results != {} <==> r.job.status == Succeeded)
  }

  ghost predicate ResultsOk(s: System) {
    forall j :: j in s.records ==> ResultOk(s.records[j])
  }

  lemma StoredFacts(s: System, j: JobId)
    requires Inv(s) && j in s.records
    ensures RecordOk(s.records[j]) && WorksIssued(s, j)
  {
  }

  lemma HandlerPhase(s: System, h: nat)
    requires Inv(s) && h < |s.handlers| && s.handlers[h].m.job in s.records
    ensures PhaseOk(s.handlers[h].m, s.handlers[h].phase, s.records[s.handlers[h].m.job].job)
  {
    HandlerFacts(s, h);
  }

  lemma ClaimResult(s: System, h: nat, now: Time, r': JobRecord)
    requires Inv(s) && ResultsOk(s) && h < |s.handlers| && s.handlers[h].phase.Entered?
    requires s.handlers[h].m.job in s.records
    requires ClaimFor(s.records[s.handlers[h].m.job], s.handlers[h].m, s.handlers[h].phase.snapshot, now) == Owned(r')
    ensures ResultOk(r')
  {
    var r := s.records[s.handlers[h].m.job];
    hide Inv;
    StoredFacts(s, s.handlers[h].m.job);
    HandlerPhase(s, h);
    ClaimGrows(r, s.handlers[h].m, s.handlers[h].phase.snapshot, now, r');
    assert ResultOk(r);
  }

  lemma CommitResult(s: System, a: Action, r': JobRecord)
    requires Inv(s) && ResultsOk(s) && a.Commit? && a.d !in s.usedDispatches
    requires a.h < |s.handlers| && s.handlers[a.h].phase.Called?
    requires CommitOutcome(s, a.h, a.d, a.g, a.fault, a.now) == Ok(r')
    ensures ResultOk(r')
  {
    var m, phase := s.handlers[a.h].m, s.handlers[a.h].phase;
    hide Inv;
    StoredFacts(s, m.job);
    HandlerPhase(s, a.h);
    ExecuteGrows(s.records[m.job], m, phase.snapshot, phase.base, phase.plan, a.d, a.g, a.now, r');
    assert ResultOk(s.records[m.job]);
  }

  lemma RecoverResult(s: System, a: Action, r': JobRecord)
    requires Inv(s) && ResultsOk(s) && a.RecoverCommit? && a.d !in s.usedDispatches
    requires a.h < |s.handlers| && s.handlers[a.h].phase.Recovering?
    requires RecoverOutcome(s, a.h, a.d, a.fault, a.now) == Ok(r')
    ensures ResultOk(r')
  {
    hide Inv;
    RecoverReplaces(s, a.h, a.d, a.now, r');
    assert ResultOk(s.records[s.handlers[a.h].m.job]);
  }

  lemma WrittenResult(s: System, a: Action)
    requires Inv(s) && ResultsOk(s) && Enabled(s, a) && QueueAction(a) && Written(s, a).Some?
    ensures ResultOk(Written(s, a).value.1)
  {
    hide Inv;
    var (j, r') := Written(s, a).value;
    match a
    case Admit(_, _, _, _, _, _, _, _) =>
    case Requeue(_, _, _) => assert ResultOk(s.records[j]);
    case Claim(h, _, _, now) =>
      OnlyEnteredClaims(s, a);
      ClaimResult(s, h, now, r');
    case Commit(_, _, _, _, _) => CommitResult(s, a, r');
    case RecoverCommit(_, _, _, _) => RecoverResult(s, a, r');
  }

  lemma StepKeepsResults(s: System, a: Action)
    requires Inv(s) && ResultsOk(s) && Enabled(s, a) && QueueAction(a)
    ensures ResultsOk(Next(s, a))
  {
    NextRecords(s, a);
    if Written(s, a).Some? {
      WrittenResult(s, a);
    }
  }

  // ----- the bounded pipeline

  /** Admission and the worker use one policy. */
  ghost predicate SharesPolicy(s: System, a: Action) {
    a.Admit? && a.kind == Video ==> a.maxAttempts == s.policy.maxAttempts
  }

  ghost predicate WorkBounded(w: Work, job: Job) {
    w.attempt <= job.maxAttempts && (w.stage == VideoSubmit || job.kind == Image ==> w.attempt == 1)
  }

  ghost predicate Bounded(s: System, r: JobRecord) {
    && (r.job.kind == Video ==> r.job.maxAttempts == s.policy.maxAttempts)
    && (forall d :: d in r.works ==> WorkBounded(r.works[d], r.job))
  }

  ghost predicate PhaseBounded(s: System, h: Handler) {
    h.m.job in s.records ==>
      && (h.phase.Looked? ==> h.m.attempt <= AttemptLimit(h.phase.snapshot))
      && (h.phase.Called? && h.phase.plan.PlanSchedule? ==> h.m.attempt < s.policy.maxAttempts)
  }

  ghost predicate BoundInv(s: System) {
    && (forall j :: j in s.records ==> Bounded(s, s.records[j]))
    && (forall i :: 0 <= i < |s.handlers| ==> PhaseBounded(s, s.handlers[i]))
  }

  lemma MessageBounded(s: System, m: Message)
    requires Inv(s) && BoundInv(s) && m in s.outbox && m.job in s.records
    ensures WorkBounded(Work(m.stage, m.attempt), s.records[m.job].job) && m.attempt >= 1 && HasHandler(m.stage)
  {
    assert MessageOk(s, m) && Bounded(s, s.records[m.job]);
    assert WorkBounded(s.records[m.job].works[m.dispatch], s.records[m.job].job);
    assert WorkOk(s.records[m.job].works[m.dispatch], s.records[m.job].job);
  }

  predicate BelowLimit(policy: Policy, m: Message, plan: Plan) {
    plan.PlanSchedule? ==> m.attempt < policy.maxAttempts
  }

  /** A handler only plans a continuation below the limit: submits are first attempts, and every
      other stage checks that the policy is not exhausted. */
  lemma DecisionBelowLimit(policy: Policy, m: Message, snapshot: Job, answer: Answer, now: Time, later: Time)
    requires policy.Valid() && HandlerAccepts(m, snapshot) && (m.stage == VideoSubmit ==> m.attempt == 1)
    ensures BelowLimit(policy, m, Decide(policy, m, snapshot, answer, now, later).0)
  {
  }

  lemma ErrorBelowLimit(policy: Policy, m: Message, phase: Phase, error: Failure, now: Time)
    requires policy.Valid() && phase.Called? && HandlerAccepts(m, phase.snapshot) && BelowLimit(policy, m, phase.plan)
    ensures
      var after := AfterError(policy, m, phase, error, now);
      !after.Looked? && (after.Called? ==> BelowLimit(policy, m, after.plan))
  {
  }

  lemma CallBounded(s: System, h: nat, answer: Answer, now: Time, later: Time)
    requires Inv(s) && BoundInv(s) && h < |s.handlers| && s.handlers[h].phase.Claimed?
    requires s.handlers[h].m.stage in {VideoPoll, AssetImport} ==> s.handlers[h].phase.snapshot.task.Some?
    ensures PhaseBounded(NextCall(s, h, answer, now, later), NextCall(s, h, answer, now, later).handlers[h])
  {
    var m := s.handlers[h].m;
    hide Inv, BoundInv, Decide, Agrees;
    HandlerFacts(s, h);
    if m.job in s.records {
      MessageBounded(s, m);
      DecisionBelowLimit(s.policy, m, s.handlers[h].phase.snapshot, answer, now, later);
    }
  }

  lemma CommitBounded(s: System, h: nat, d: DispatchId, g: GenerationId, fault: bool, now: Time)
    requires Inv(s) && BoundInv(s) && h < |s.handlers| && s.handlers[h].phase.Called?
    requires s.handlers[h].m.stage in {VideoPoll, AssetImport} ==> s.handlers[h].phase.snapshot.task.Some?
    ensures PhaseBounded(NextCommit(s, h, d, g, fault, now), NextCommit(s, h, d, g, fault, now).handlers[h])
  {
    var m := s.handlers[h].m;
    var out := CommitOutcome(s, h, d, g, fault, now);
    assert HandlerOk(s, s.handlers[h]) && PhaseBounded(s, s.handlers[h]);
    if out.Err? && m.job in s.records {
      ErrorBelowLimit(s.policy, m, s.handlers[h].phase, out.error, now);
    }
  }

  /** Adding one bounded outbox row, and keeping the others, keeps a record bounded. */
  lemma OneMoreBounded(s: System, r: JobRecord, r': JobRecord, d: DispatchId)
    requires Bounded(s, r) && SameJob(r.job, r'.job)
    requires forall x :: x in r'.works && x != d ==> x in r.works && r'.works[x] == r.works[x]
    requires d in r'.works ==> WorkBounded(r'.works[d], r'.job)
    ensures Bounded(s, r')
  {
    forall x | x in r'.works
      ensures WorkBounded(r'.works[x], r'.job)
    {
      assert x != d ==> WorkBounded(r.works[x], r.job);
    }
  }

  lemma CommitWrittenBounded(s: System, a: Action, r': JobRecord)
    requires Inv(s) && BoundInv(s) && a.Commit? && a.d !in s.usedDispatches
    requires a.h < |s.handlers| && s.handlers[a.h].phase.Called?
    requires CommitOutcome(s, a.h, a.d, a.g, a.fault, a.now) == Ok(r')
    ensures Bounded(s, r')
  {
    var m := s.handlers[a.h].m;
    var phase := s.handlers[a.h].phase;
    hide Inv, TrailOk, Sealed, Execute, Agrees;
    StoredFacts(s, m.job);
    HandlerPhase(s, a.h);
    assert PhaseBounded(s, s.handlers[a.h]) && Bounded(s, s.records[m.job]);
    ExecuteGrows(s.records[m.job], m, phase.snapshot, phase.base, phase.plan, a.d, a.g, a.now, r');
    OneMoreBounded(s, s.records[m.job], r', a.d);
  }

  lemma ClaimWrittenBounded(s: System, h: nat, now: Time, r': JobRecord)
    requires Inv(s) && BoundInv(s) && h < |s.handlers| && s.handlers[h].phase.Entered?
    requires s.handlers[h].m.job in s.records
    requires ClaimFor(s.records[s.handlers[h].m.job], s.handlers[h].m, s.handlers[h].phase.snapshot, now) == Owned(r')
    ensures Bounded(s, r')
  {
    var m, snapshot := s.handlers[h].m, s.handlers[h].phase.snapshot;
    HandlerFacts(s, h);
    StoredFacts(s, m.job);
    assert Bounded(s, s.records[m.job]) && MessageOk(s, m);
    hide Inv;
    ClaimGrows(s.records[m.job], m, snapshot, now, r');
    MessageBounded(s, m);
    OneMoreBounded(s, s.records[m.job], r', m.dispatch);
  }

  lemma WrittenBounded(s: System, a: Action)
    requires Inv(s) && BoundInv(s) && Enabled(s, a) && BrokerAction(a) && SharesPolicy(s, a)
    requires Written(s, a).Some?
    ensures Bounded(s, Written(s, a).value.1)
  {
    hide Inv;
    var (j, r') := Written(s, a).value;
    match a
    case Admit(_, _, _, _, _, _, _, _) =>
    case Commit(_, _, _, _, _) => CommitWrittenBounded(s, a, r');
    case Requeue(_, lost, d) =>
      assert Bounded(s, s.records[j]) && WorkBounded(s.records[j].works[lost], s.records[j].job);
      OneMoreBounded(s, s.records[j], r', d);
    case Claim(h, _, _, now) =>
      OnlyEnteredClaims(s, a);
      ClaimWrittenBounded(s, h, now, r');
  }

  lemma StepKeepsBounds(s: System, a: Action)
    requires Inv(s) && BoundInv(s) && Enabled(s, a) && BrokerAction(a) && SharesPolicy(s, a)
    ensures BoundInv(Next(s, a))
  {
    NextRecords(s, a);
    var t := Next(s, a);
    if Written(s, a).Some? {
      WrittenBounded(s, a);
    }
    forall j | j in t.records
      ensures Bounded(t, t.records[j])
    {
      assert j in s.records ==> Bounded(s, s.records[j]);
    }
    forall i | 0 <= i < |t.handlers|
      ensures PhaseBounded(t, t.handlers[i])
    {
      StepKeepsPhaseBound(s, a, i);
    }
  }

  lemma StepKeepsPhaseBound(s: System, a: Action, i: nat)
    requires Inv(s) && BoundInv(s) && Enabled(s, a) && BrokerAction(a)
    requires i < |Next(s, a).handlers|
    ensures PhaseBounded(Next(s, a), Next(s, a).handlers[i])
  {
    if i < |s.handlers| {
      if a.Call? && i == a.h {
        CallBounded(s, a.h, a.answer, a.now, a.later);
      } else if a.Commit? && i == a.h {
        CommitBounded(s, a.h, a.d, a.g, a.fault, a.now);
      } else if a.ReadJob? && i == a.h {
        LookBounded(s, a);
      } else {
        OtherPhases(s, a, i);
        OtherPhaseBounded(s, a, i);
      }
    } else {
      NewHandlers(s, a);
    }
  }

  lemma NewHandlers(s: System, a: Action)
    requires Enabled(s, a) && BrokerAction(a)
    ensures
      if a.Deliver? then Next(s, a).handlers == s.handlers + [Handler(a.m, Fetched)]
      else |Next(s, a).handlers| == |s.handlers|
  {
    if a.Claim? {
      ClaimShape(s, a);
    } else if a.ReadJob? || a.ReadAttempt? {
      ReadShape(s, a);
    }
  }

  lemma LookBounded(s: System, a: Action)
    requires Inv(s) && BoundInv(s) && Enabled(s, a) && a.ReadJob?
    ensures PhaseBounded(Next(s, a), Next(s, a).handlers[a.h])
  {
    assert HandlerOk(s, s.handlers[a.h]);
    if s.handlers[a.h].m.job in s.records {
      MessageBounded(s, s.handlers[a.h].m);
    }
  }

  lemma OtherPhaseBounded(s: System, a: Action, i: nat)
    requires Inv(s) && BoundInv(s) && Enabled(s, a) && i < |s.handlers| && i < |Next(s, a).handlers|
    requires
      var before, after := s.handlers[i], Next(s, a).handlers[i];
      after == before ||
      (after.m == before.m && !after.phase.Looked? && !(after.phase.Called? && after.phase.plan.PlanSchedule?))
    ensures PhaseBounded(Next(s, a), Next(s, a).handlers[i])
  {
    NextRecords(s, a);
    assert PhaseBounded(s, s.handlers[i]) && HandlerOk(s, s.handlers[i]) && MessageOk(s, s.handlers[i].m);
    if a.Admit? || Written(s, a).None? {
    } else {
      WrittenGrows(s, a);
    }
  }

  /** Any other step leaves a handler's phase alone or moves it to one without a bound. */
  lemma OtherPhases(s: System, a: Action, i: nat)
    requires Enabled(s, a) && BrokerAction(a) && i < |s.handlers|
    requires (a.Call? || a.Commit? || a.ReadJob?) ==> i != a.h
    ensures i < |Next(s, a).handlers|
    ensures
      var before, after := s.handlers[i], Next(s, a).handlers[i];
      after == before ||
      (after.m == before.m && !after.phase.Looked? && !(after.phase.Called? && after.phase.plan.PlanSchedule?))
  {
    if a.Claim? {
      ClaimShape(s, a);
    } else if a.ReadJob? || a.ReadAttempt? {
      ReadShape(s, a);
    }
  }

  // ----- main results

  lemma {:induction false} BrokerRunKeeps(run: Run, i: nat)
    requires run.Valid() && i < |run.states|
    requires forall k :: 0 <= k < i ==> BrokerAction(run.actions[k])
    ensures Inv(run.states[i]) && ChainInv(run.states[i])
  {
    RunKeeps(run, i);
    if i > 0 {
      BrokerRunKeeps(run, i - 1);
      StepKeepsChain(run.states[i - 1], run.actions[i - 1]);
    }
  }

  /** Under the broker's steps every stored job has an attempt chain. Whether its last row is still being
      delivered is another matter, see GivenUp.dfy. */
  lemma AttemptsFormAChain(run: Run, i: nat, j: JobId)
    requires run.Valid() && i < |run.states| && j in run.states[i].records
    requires forall k :: 0 <= k < i ==> BrokerAction(run.actions[k])
    ensures exists n: nat :: Chain(run.states[i].records[j], n)
  {
    BrokerRunKeeps(run, i);
    assert Chained(run.states[i].records[j]);
  }

  ghost predicate AllChained(s: System) {
    forall j :: j in s.records ==> Chained(s.records[j])
  }

  lemma {:induction false} RecoveringRunKeeps(run: Run, i: nat)
    requires run.Valid() && i < |run.states|
    requires forall k :: 0 <= k < i ==> QueueAction(run.actions[k]) && RecoversRunning(run.states[k], run.actions[k])
    ensures Inv(run.states[i]) && ChainInv(run.states[i])
  {
    hide Inv, ChainInv, RecoversRunning, QueueAction, Enabled, Next, Start;
    RunKeeps(run, i);
    if i == 0 {
      StartIsChained(run.states[0]);
    } else {
      RecoveringRunKeeps(run, i - 1);
      RecoveringStepKeeps(run.states[i - 1], run.actions[i - 1]);
    }
  }

  lemma StartIsChained(s: System)
    requires Start(s)
    ensures ChainInv(s)
  {
  }

  lemma RecoveringStepKeeps(s: System, a: Action)
    requires Inv(s) && ChainInv(s) && Enabled(s, a) && QueueAction(a) && RecoversRunning(s, a)
    ensures ChainInv(Next(s, a))
  {
    hide Inv, ChainInv, RecoversRunning, Enabled, Next;
    if BrokerAction(a) {
      StepKeepsChain(s, a);
    } else {
      RecoveryStepKeepsChain(s, a);
    }
  }

  /** With local recovery among the steps, every job is chained all along the run if and only if every
      recovery that committed named an attempt that was running. */
  lemma ChainsLastIffRecoveriesFindTheirAttempt(run: Run, i: nat)
    requires run.Valid() && i < |run.states|
    requires forall k :: 0 <= k < i ==> QueueAction(run.actions[k])
    ensures (forall k :: 0 <= k <= i ==> AllChained(run.states[k])) <==>
            (forall k :: 0 <= k < i ==> RecoversRunning(run.states[k], run.actions[k]))
  {
    if forall k :: 0 <= k < i ==> RecoversRunning(run.states[k], run.actions[k]) {
      forall k | 0 <= k <= i
        ensures AllChained(run.states[k])
      {
        RecoveringRunKeeps(run, k);
      }
    }
    if forall k :: 0 <= k <= i ==> AllChained(run.states[k]) {
      forall k | 0 <= k < i
        ensures RecoversRunning(run.states[k], run.actions[k])
      {
        assert AllChained(run.states[k]) && AllChained(run.states[k + 1]);
        ChainedRecoveryRan(run, k);
      }
    }
  }

  lemma ChainedRecoveryRan(run: Run, k: nat)
    requires run.Valid() && k < |run.actions| && AllChained(run.states[k]) && AllChained(run.states[k + 1])
    ensures RecoversRunning(run.states[k], run.actions[k])
  {
    var s, a := run.states[k], run.actions[k];
    if a.RecoverCommit? && Written(s, a).Some? {
      hide Written, RecoversRunning, Chained, Next, Inv;
      RunKeeps(run, k);
      RecoveredIsStored(s, a);
      RecoveredChainIffAttemptRan(s, a);
      NextRecords(s, a);
      assert run.states[k + 1].records[Written(s, a).value.0] == Written(s, a).value.1;
    }
  }

  lemma RecoveredIsStored(s: System, a: Action)
    requires Enabled(s, a) && a.RecoverCommit? && Written(s, a).Some?
    ensures s.handlers[a.h].m.job in s.records
  {
  }

  /** At most one attempt of a job runs, at the job's own stage, and only while the job does. */
  lemma AtMostOneRunningAttempt(run: Run, i: nat, j: JobId, a: nat, b: nat)
    requires run.Valid() && i < |run.states| && j in run.states[i].records
    requires forall k :: 0 <= k < i ==> BrokerAction(run.actions[k])
    requires RunningAttempt(run.states[i].records[j], a) && RunningAttempt(run.states[i].records[j], b)
    ensures a == b
    ensures run.states[i].records[j].attempts[a].stage == run.states[i].records[j].job.stage
    ensures run.states[i].records[j].job.status == Running
  {
    AttemptsFormAChain(run, i, j);
    var n: nat :| Chain(run.states[i].records[j], n);
    OnlyLastRuns(run.states[i].records[j], n, a);
    OnlyLastRuns(run.states[i].records[j], n, b);
  }

  lemma {:induction false} QueueRunKeeps(run: Run, i: nat)
    requires run.Valid() && i < |run.states|
    requires forall k :: 0 <= k < i ==> QueueAction(run.actions[k])
    ensures ResultsOk(run.states[i])
  {
    if i > 0 {
      RunKeeps(run, i - 1);
      QueueRunKeeps(run, i - 1);
      StepKeepsResults(run.states[i - 1], run.actions[i - 1]);
    }
  }

  /** For jobs moved only by the queue, a generation row exists exactly for a succeeded job, and
      there is never a second one. */
  lemma OneGenerationPerSuccess(run: Run, i: nat, j: JobId)
    requires run.Valid() && i < |run.states| && j in run.states[i].records
    requires forall k :: 0 <= k < i ==> QueueAction(run.actions[k])
    ensures
      var r := run.states[i].records[j];
      |r.results| <= 1 && (r.results != {} <==> r.job.status == Succeeded)
  {
    QueueRunKeeps(run, i);
    assert ResultOk(run.states[i].records[j]);
  }

  ghost predicate SharedStep(run: Run, k: nat)
    requires run.Valid() && k < |run.actions|
  {
    BrokerAction(run.actions[k]) && SharesPolicy(run.states[k], run.actions[k])
  }

  /** A run with a broker in which every video job is admitted under the workers' policy. */
  ghost predicate SharedRun(run: Run, i: nat)
    requires run.Valid() && i < |run.states|
  {
    forall k :: 0 <= k < i ==> SharedStep(run, k)
  }

  lemma {:induction false} SharedRunKeeps(run: Run, i: nat)
    requires run.Valid() && i < |run.states| && SharedRun(run, i)
    ensures Inv(run.states[i]) && BoundInv(run.states[i])
  {
    RunKeeps(run, i);
    if i > 0 {
      SharedRunKeeps(run, i - 1);
      assert SharedStep(run, i - 1);
      StepKeepsBounds(run.states[i - 1], run.actions[i - 1]);
    }
  }

  /** Every message a stored job's outbox has ever held can be built, so the dispatcher never
      has to give one up for its stage or its attempt number. */
  lemma OutboxMessagesCanBeBuilt(run: Run, i: nat, m: Message)
    requires run.Valid() && i < |run.states| && SharedRun(run, i)
    requires m in run.states[i].outbox && m.job in run.states[i].records
    ensures Constructible(m)
  {
    SharedRunKeeps(run, i);
    MessageBounded(run.states[i], m);
    assert Bounded(run.states[i], run.states[i].records[m.job]);
  }

  /** The same for every row as it stands in a job's record, published or not. */
  lemma OutboxRowsCanBeBuilt(run: Run, i: nat, j: JobId, d: DispatchId)
    requires run.Valid() && i < |run.states| && SharedRun(run, i)
    requires j in run.states[i].records && d in run.states[i].records[j].works
    ensures Constructible(MessageOf(j, run.states[i].records[j], d))
  {
    SharedRunKeeps(run, i);
    var r := run.states[i].records[j];
    assert Bounded(run.states[i], r) && RecordOk(r);
    assert WorkBounded(r.works[d], r.job) && WorkOk(r.works[d], r.job);
  }

  /** The runtime's attempt limit never rejects a delivery of a stored job, whatever the handler
      then finds in the attempts table. */
  lemma LimitNeverRejects(run: Run, i: nat, h: nat, existing: Option<Attempt>)
    requires run.Valid() && i < |run.states| && SharedRun(run, i)
    requires h < |run.states[i].handlers| && run.states[i].handlers[h].phase.Looked?
    requires run.states[i].handlers[h].m.job in run.states[i].records
    ensures Route(run.states[i].handlers[h].m, Some(run.states[i].handlers[h].phase.snapshot), existing) != OverLimit
  {
    SharedRunKeeps(run, i);
    var s := run.states[i];
    assert PhaseBounded(s, s.handlers[h]);
  }

  /** Every continuation is within the policy's limit: the limit minus the attempt number is a
      measure that falls with every continuation a job is given. */
  lemma ContinuationsAreBounded(run: Run, i: nat, j: JobId, n: nat)
    requires run.Valid() && i < |run.states| && SharedRun(run, i) && j in run.states[i].records
    requires run.states[i].records[j].job.kind == Video && Chain(run.states[i].records[j], n)
    ensures n <= run.states[i].policy.maxAttempts <= 1000
    ensures forall k :: k in run.states[i].records[j].attempts ==> k <= run.states[i].policy.maxAttempts
  {
    SharedRunKeeps(run, i);
    var r := run.states[i].records[j];
    assert Bounded(run.states[i], r) && HasWork(r.works, n);
    var d :| d in r.works && r.works[d].attempt == n;
    assert WorkBounded(r.works[d], r.job);
  }

  /** A handler that commits on the last permitted attempt leaves the job terminal. */
  lemma LastAttemptEndsTheJob(run: Run, i: nat)
    requires run.Valid() && i < |run.actions| && SharedRun(run, i) && run.actions[i].Commit?
    requires Written(run.states[i], run.actions[i]).Some?
    requires run.states[i].handlers[run.actions[i].h].m.attempt == run.states[i].policy.maxAttempts
    requires Written(run.states[i], run.actions[i]).value.1.job.kind == Video
    ensures Terminal(Written(run.states[i], run.actions[i]).value.1.job.status)
  {
    SharedRunKeeps(run, i);
    var s, a := run.states[i], run.actions[i];
    var m, phase := s.handlers[a.h].m, s.handlers[a.h].phase;
    assert HandlerOk(s, s.handlers[a.h]) && PhaseBounded(s, s.handlers[a.h]) && WorksIssued(s, m.job);
    MessageBounded(s, m);
    ExecuteGrows(s.records[m.job], m, phase.snapshot, phase.base, phase.plan, a.d, a.g, a.now,
                 Written(s, a).value.1);
  }
}
