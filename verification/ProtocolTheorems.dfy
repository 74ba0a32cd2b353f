/** What holds in every run of the queue, with every actor allowed: redelivery, concurrent
    deliveries, crashes at any point, local recovery, administrative requeue and cleanup, and
    the public status endpoint. */
module ProtocolTheorems {
  import opened Model
  import opened Records
  import opened RecordGrowth
  import opened Protocol
  import opened ProtocolInvariant

  // ----- which record an action writes

  /** The job and new record an action commits, if it commits one. */
  function Written(s: System, a: Action): Option<(JobId, JobRecord)>
    requires Enabled(s, a)
  {
    match a
    case Admit(j, kind, stage, key, also, maxAttempts, d, now) =>
      Some((j, Admission(kind, stage, key, maxAttempts, d, now)))
    case Claim(h, payloadOk, fault, now) => ClaimWritten(s, h, fault, now)
    case Commit(h, d, g, fault, now) =>
      (match CommitOutcome(s, h, d, g, fault, now)
        case Ok(r) => Some((s.handlers[h].m.job, r))
        case Err(_) => None)
    case RecoverCommit(h, d, fault, now) =>
      (match RecoverOutcome(s, h, d, fault, now)
        case Ok(r) => Some((s.handlers[h].m.job, r))
        case Err(_) => None)
    case External(j, expected, status, now) =>
      (match Transition(s.records[j], expected, status, None, None, now)
        case Ok(r) => Some((j, r))
        case Err(_) => None)
    case Requeue(j, lost, d) => Some((j, AddWork(s.records[j], d, s.records[j].works[lost])))
    case _ => None
  }

  function ClaimWritten(s: System, h: nat, fault: bool, now: Time): Option<(JobId, JobRecord)>
    requires h < |s.handlers| && (s.handlers[h].phase.Entered? || s.handlers[h].phase.Unhandled?)
  {
    var m := s.handlers[h].m;
    if fault || m.job !in s.records then None
    else if s.handlers[h].phase.Unhandled? then
      (match NotImplemented(s.records[m.job], m, now)
        case Ok(r) => Some((m.job, r))
        case Err(_) => None)
    else if !HandlerAccepts(m, s.handlers[h].phase.snapshot) then None
    else
      (match ClaimFor(s.records[m.job], m, s.handlers[h].phase.snapshot, now)
        case Owned(r) => Some((m.job, r))
        case _ => None)
  }

  lemma NextRecords(s: System, a: Action)
    requires Enabled(s, a)
    ensures Next(s, a).records ==
            match Written(s, a)
            case Some(w) => s.records[w.0 := w.1]
            case None => if a.Cleanup? then s.records - a.gone else s.records
    ensures s.used <= Next(s, a).used && Next(s, a).policy == s.policy
  {
    hide MessagesOf, AfterError, CommitOutcome, RecoverOutcome, ClaimWritten, NextClaim, NextNotImplemented;
    hide Decide, Route, Transition, Admission, AddWork, Billable, SameRequest, StageFits;
    if a.Claim? {
      ClaimRecords(s, a.h, a.payloadOk, a.fault, a.now);
    }
  }

  lemma ClaimRecords(s: System, h: nat, payloadOk: bool, fault: bool, now: Time)
    requires h < |s.handlers| && (s.handlers[h].phase.Entered? || s.handlers[h].phase.Unhandled?)
    ensures
      var t := if s.handlers[h].phase.Entered? then NextClaim(s, h, payloadOk, fault, now)
               else NextNotImplemented(s, h, fault, now);
      && t.records == (match ClaimWritten(s, h, fault, now)
                       case Some(w) => s.records[w.0 := w.1]
                       case None => s.records)
      && t.used == s.used && t.policy == s.policy && t.calls == s.calls
  {
  }

  lemma OnlyEnteredClaims(s: System, a: Action)
    requires Inv(s) && a.Claim? && Enabled(s, a) && Written(s, a).Some?
    ensures s.handlers[a.h].phase.Entered?
  {
    if s.handlers[a.h].phase.Unhandled? {
      UnhandledIsNotStored(s, a.h);
    }
  }

  /** Whatever an action commits to a stored job grows the job's record. */
  lemma WrittenGrows(s: System, a: Action)
    requires Inv(s) && Enabled(s, a) && Written(s, a).Some? && !a.Admit?
    ensures Replaces(s, Written(s, a).value.0, Written(s, a).value.1)
  {
    hide Sealed, TrailOk, Admission, Execute, Recover, TransitionJob, NotImplemented;
    var (j, r') := Written(s, a).value;
    assert WorksIssued(s, j);
    match a
    case Claim(h, payloadOk, fault, now) =>
      assert HandlerOk(s, s.handlers[h]);
      OnlyEnteredClaims(s, a);
      ClaimGrows(s.records[j], s.handlers[h].m, s.handlers[h].phase.snapshot, now, r');
    case Commit(h, d, g, fault, now) => CommitReplaces(s, h, d, g, now, r');
    case RecoverCommit(h, d, fault, now) => RecoverReplaces(s, h, d, now, r');
    case External(_, expected, status, now) => ExternalGrows(s.records[j], expected, status, now, r');
    case Requeue(_, lost, d) => RequeueGrows(s.records[j], lost, d);
  }

  lemma UnchangedGrows(s: System, j: JobId)
    requires Inv(s) && j in s.records
    ensures Grows(s.records[j], s.records[j])
  {
  }

  /** From one state to the next, a job that is in both only grows, and a job that is gone never
      comes back. */
  lemma StepGrows(s: System, a: Action, j: JobId)
    requires Inv(s) && Enabled(s, a) && j in s.used && j in Next(s, a).records
    ensures j in s.records && Grows(s.records[j], Next(s, a).records[j])
  {
    hide Inv, Grows, Next;
    if j in s.records {
      UnchangedGrows(s, j);
    }
    NextRecords(s, a);
    var w := Written(s, a);
    if w.Some? && !a.Admit? {
      WrittenGrows(s, a);
    }
  }

  // ----- histories

  /** How one job's record at a later state relates to its record at an earlier state. */
  predicate Later(r: JobRecord, r': JobRecord) {
    && SameJob(r.job, r'.job)
    && r.job.version <= r'.job.version
    && (r.job.version == r'.job.version ==> r.job == r'.job)
    && Rank(r.job.stage) <= Rank(r'.job.stage)
    && (Terminal(r.job.status) ==> r'.job.status == r.job.status)
    && (r.job.task.Some? ==> r'.job.task == r.job.task)
    && (r.job.startedAt.Some? ==> r'.job.startedAt == r.job.startedAt)
    && r.job.attemptCount <= r'.job.attemptCount
    && r.trail <= r'.trail
    && (forall d :: d in r.works ==> d in r'.works && r'.works[d] == r.works[d])
  }

  lemma LaterThenGrows(a: JobRecord, b: JobRecord, c: JobRecord)
    requires Later(a, b) && Grows(b, c)
    ensures Later(a, c)
  {
  }

  lemma {:induction false} RunKeeps(run: Run, i: nat)
    requires run.Valid() && i < |run.states|
    ensures Inv(run.states[i])
    ensures run.states[i].policy == run.states[0].policy
  {
    if i == 0 {
      StartKeeps(run.states[0]);
    } else {
      RunKeeps(run, i - 1);
      StepKeeps(run.states[i - 1], run.actions[i - 1]);
      NextRecords(run.states[i - 1], run.actions[i - 1]);
    }
  }

  lemma StoredIsUsed(run: Run, i: nat, j: JobId)
    requires run.Valid() && i < |run.states| && j in run.states[i].records
    ensures j in run.states[i].used
  {
    RunKeeps(run, i);
  }

  lemma StepInRun(run: Run, i: nat, j: JobId)
    requires run.Valid() && i < |run.actions| && j in run.states[i].used
    ensures j in run.states[i + 1].used
    ensures j in run.states[i + 1].records ==>
              j in run.states[i].records && Grows(run.states[i].records[j], run.states[i + 1].records[j])
  {
    RunKeeps(run, i);
    NextRecords(run.states[i], run.actions[i]);
    if j in run.states[i + 1].records {
      StepGrows(run.states[i], run.actions[i], j);
    }
  }

  lemma {:induction false} UsedStays(run: Run, i: nat, k: nat, j: JobId)
    requires run.Valid() && i <= k < |run.states| && j in run.states[i].used
    ensures j in run.states[k].used
    decreases k - i
  {
    if i < k {
      UsedStays(run, i, k - 1, j);
      StepInRun(run, k - 1, j);
    }
  }

  /** Over any run, a job that is still stored has only moved forward: terminal statuses absorb,
      the stage rank never falls, the provider task never changes once set, the version never
      falls and changes whenever the row does, and the event trail is only appended to. */
  lemma {:induction false} JobsOnlyMoveForward(run: Run, i: nat, k: nat, j: JobId)
    requires run.Valid() && i <= k < |run.states|
    requires j in run.states[i].used && j in run.states[k].records
    ensures j in run.states[i].records && Later(run.states[i].records[j], run.states[k].records[j])
    decreases k - i
  {
    if i < k {
      UsedStays(run, i, k - 1, j);
      StepInRun(run, k - 1, j);
      JobsOnlyMoveForward(run, i, k - 1, j);
      LaterThenGrows(run.states[i].records[j], run.states[k - 1].records[j], run.states[k].records[j]);
    }
  }

  // ----- main results

  /** The worker calls the provider's billable operation (a video submit or an image execution)
      at most once per job, ever. */
  lemma BillableCallsAtMostOnce(run: Run, i: nat, j: JobId)
    requires run.Valid() && i < |run.states|
    ensures Calls(run.states[i], j) <= 1
  {
    RunKeeps(run, i);
  }

  /** The job a step makes a billable provider call for. */
  function BillableFor(s: System, a: Action): Option<JobId>
    requires Enabled(s, a)
  {
    if a.Call? && Billable(s.handlers[a.h].m, s.handlers[a.h].phase.snapshot) then Some(s.handlers[a.h].m.job) else None
  }

  lemma CallIsCounted(s: System, a: Action, j: JobId)
    requires Enabled(s, a)
    ensures Calls(Next(s, a), j) == Calls(s, j) + (if BillableFor(s, a) == Some(j) then 1 else 0)
  {
    if a.Claim? {
      ClaimRecords(s, a.h, a.payloadOk, a.fault, a.now);
    }
  }

  lemma {:induction false} CallsNeverFall(run: Run, i: nat, k: nat, j: JobId)
    requires run.Valid() && i <= k < |run.states|
    ensures Calls(run.states[i], j) <= Calls(run.states[k], j)
    decreases k - i
  {
    if i < k {
      CallsNeverFall(run, i, k - 1, j);
      CallIsCounted(run.states[k - 1], run.actions[k - 1], j);
    }
  }

  /** Put without the counter: no run makes two billable calls for one job. */
  lemma NoSecondBillableCall(run: Run, i: nat, k: nat)
    requires run.Valid() && i < k < |run.actions| && BillableFor(run.states[i], run.actions[i]).Some?
    ensures BillableFor(run.states[i], run.actions[i]) != BillableFor(run.states[k], run.actions[k])
  {
    var j := BillableFor(run.states[i], run.actions[i]).value;
    CallIsCounted(run.states[i], run.actions[i], j);
    CallsNeverFall(run, i + 1, k, j);
    CallIsCounted(run.states[k], run.actions[k], j);
    BillableCallsAtMostOnce(run, k + 1, j);
  }

  /** The provider task of a job never changes once it is set. */
  lemma TaskNeverChanges(run: Run, i: nat, k: nat, j: JobId)
    requires run.Valid() && i <= k < |run.states|
    requires j in run.states[i].records && j in run.states[k].records
    requires run.states[i].records[j].job.task.Some?
    ensures run.states[k].records[j].job.task == run.states[i].records[j].job.task
  {
    StoredIsUsed(run, i, j);
    JobsOnlyMoveForward(run, i, k, j);
  }

  /** A step either leaves a job's row alone or moves its version forward by exactly one. */
  lemma VersionRisesByOne(run: Run, i: nat, j: JobId)
    requires run.Valid() && i < |run.actions|
    requires j in run.states[i].used && j in run.states[i + 1].records
    ensures j in run.states[i].records
    ensures
      var before, after := run.states[i].records[j].job, run.states[i + 1].records[j].job;
      after == before || after.version == before.version + 1
  {
    RunKeeps(run, i);
    StepGrows(run.states[i], run.actions[i], j);
  }

  /** The version a successful writer compared against: a claim, a handler's commit, a recovery, or the
      public status endpoint. */
  function ExpectedVersion(s: System, a: Action): Option<(JobId, nat)>
    requires Enabled(s, a)
  {
    if Written(s, a).None? then None
    else if a.Commit? then Some((s.handlers[a.h].m.job, s.handlers[a.h].phase.base.version))
    else if a.RecoverCommit? then Some((s.handlers[a.h].m.job, s.handlers[a.h].phase.snapshot.version))
    else if a.Claim? && s.handlers[a.h].phase.Entered? then
      Some((s.handlers[a.h].m.job, s.handlers[a.h].phase.snapshot.version))
    else if a.External? then Some((a.j, a.expected))
    else None
  }

  lemma WinnerHeldTheStoredVersion(s: System, a: Action)
    requires Inv(s) && Enabled(s, a) && ExpectedVersion(s, a).Some?
    ensures
      var (j, v) := ExpectedVersion(s, a).value;
      && j in s.records && s.records[j].job.version == v
      && j in Next(s, a).records && Next(s, a).records[j].job.version == v + 1
  {
    NextRecords(s, a);
    var r' := Written(s, a).value.1;
    if a.Commit? {
      assert HandlerOk(s, s.handlers[a.h]);
      CommitReplaces(s, a.h, a.d, a.g, a.now, r');
    } else if a.RecoverCommit? {
      assert HandlerOk(s, s.handlers[a.h]);
      RecoverReplaces(s, a.h, a.d, a.now, r');
    } else if a.External? {
      ExternalGrows(s.records[a.j], a.expected, a.status, a.now, r');
    } else {
      assert HandlerOk(s, s.handlers[a.h]);
      ClaimGrows(s.records[s.handlers[a.h].m.job], s.handlers[a.h].m, s.handlers[a.h].phase.snapshot, a.now, r');
    }
  }

  lemma WinnerInRun(run: Run, i: nat)
    requires run.Valid() && i < |run.actions| && ExpectedVersion(run.states[i], run.actions[i]).Some?
    ensures
      var (j, v) := ExpectedVersion(run.states[i], run.actions[i]).value;
      && j in run.states[i].records && run.states[i].records[j].job.version == v
      && j in run.states[i + 1].records && run.states[i + 1].records[j].job.version == v + 1
  {
    RunKeeps(run, i);
    WinnerHeldTheStoredVersion(run.states[i], run.actions[i]);
  }

  /** Of all the writers that ever hold one version of a job, at most one succeeds. */
  lemma OneWinnerPerVersion(run: Run, i: nat, k: nat)
    requires run.Valid() && i < k < |run.actions|
    requires ExpectedVersion(run.states[i], run.actions[i]).Some?
    requires ExpectedVersion(run.states[k], run.actions[k]).Some?
    ensures ExpectedVersion(run.states[i], run.actions[i]) != ExpectedVersion(run.states[k], run.actions[k])
  {
    var (j, v) := ExpectedVersion(run.states[i], run.actions[i]).value;
    WinnerInRun(run, i);
    WinnerInRun(run, k);
    if j == ExpectedVersion(run.states[k], run.actions[k]).value.0 {
      StoredIsUsed(run, i + 1, j);
      JobsOnlyMoveForward(run, i + 1, k, j);
    }
  }

  /** A stored job's stage fits its kind, and it is terminal exactly when its stage is the last. */
  lemma TerminalMeansFinalized(run: Run, i: nat, j: JobId)
    requires run.Valid() && i < |run.states| && j in run.states[i].records
    ensures
      var job := run.states[i].records[j].job;
      StageFits(job.kind, job.stage) && (Terminal(job.status) <==> job.stage == Finalize)
  {
    RunKeeps(run, i);
  }

  /** The event log explains the job row. */
  lemma TrailExplainsTheRow(run: Run, i: nat, j: JobId)
    requires run.Valid() && i < |run.states| && j in run.states[i].records
    ensures TrailOk(run.states[i].records[j].trail, run.states[i].records[j].job.status)
  {
    RunKeeps(run, i);
  }

  /** At most one active job per kind and request digest. */
  lemma ActiveRequestsAreUnique(run: Run, i: nat, j: JobId, k: JobId)
    requires run.Valid() && i < |run.states|
    requires j in run.states[i].records && k in run.states[i].records
    requires Active(run.states[i].records[j].job.status) && Active(run.states[i].records[k].job.status)
    requires SameRequest(run.states[i].records[j].job, run.states[i].records[k].job)
    ensures j == k
  {
    RunKeeps(run, i);
    assert j == k || !Clash(run.states[i].records[j].job, run.states[i].records[k].job);
  }

  /** Every recovery that commits is conservative, whatever happened before it. */
  lemma RecoveryIsConservative(run: Run, i: nat)
    requires run.Valid() && i < |run.actions| && run.actions[i].RecoverCommit?
    requires Written(run.states[i], run.actions[i]).Some?
    ensures
      var s, a := run.states[i], run.actions[i];
      var m := s.handlers[a.h].m;
      && m.job in s.records && m.job in run.states[i + 1].records
      && Conservative(s.records[m.job], m, a.d, run.states[i + 1].records[m.job])
      && (run.states[i + 1].records[m.job].job.status == Failed ||
          run.states[i + 1].records[m.job].job.status == Running)
      && (s.records[m.job].job.kind == Image ==> run.states[i + 1].records[m.job].job.status == Failed)
  {
    RunKeeps(run, i);
    NextRecords(run.states[i], run.actions[i]);
    RecoverReplaces(run.states[i], run.actions[i].h, run.actions[i].d, run.actions[i].now,
                    Written(run.states[i], run.actions[i]).value.1);
  }
}
