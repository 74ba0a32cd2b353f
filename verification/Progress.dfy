/** When an active job can still move. In runs with a broker only three things move one: the handler that owns
    its running attempt, a delivery that begins or resumes an attempt, and an administrator's re-queue. A job
    for which none of them is possible stays exactly as it is, active, whatever else happens. */
module Progress {
  import opened Model
  import opened Records
  import opened RecordGrowth
  import opened Protocol
  import opened ProtocolInvariant
  import opened ProtocolTheorems
  import opened BrokerRuns

  // ----- what can move a job

  /** A handler whose next transaction the job's row still accepts. */
  predicate Owns(s: System, h: Handler, j: JobId)
    requires j in s.records
  {
    h.m.job == j && (h.phase.Claimed? || h.phase.Called?) && h.phase.base.version == s.records[j].job.version
  }

  predicate HasOwner(s: System, j: JobId)
    requires j in s.records
  {
    exists i :: 0 <= i < |s.handlers| && Owns(s, s.handlers[i], j)
  }

  /** The handler of the job's stage accepts the job. */
  predicate Served(job: Job) {
    HandlerAccepts(Message(0, job.stage, 1, 0), job)
  }

  /** A delivery of attempt `n` can begin the attempt, or resume it. An image attempt is begun only from a
      queued job and never resumed, a submit is resumed only once its task is known. */
  predicate Open(r: JobRecord, n: nat) {
    && Served(r.job)
    && if n in r.attempts then Resumable(r.job.stage, r.job)
       else r.job.stage == ImageGenerate ==> r.job.status == Queued
  }

  /** The protocol's re-queue is possible. */
  predicate Renewable(r: JobRecord) {
    r.job.status == Queued && r.attempts == map[]
  }

  predicate Movable(s: System, j: JobId, n: nat)
    requires j in s.records
  {
    HasOwner(s, j) || Open(s.records[j], n) || Renewable(s.records[j])
  }

  // ----- who writes the record

  /** The only number that can still be opened is the last one. */
  lemma UnopenedIsLast(r: JobRecord, n: nat, d: DispatchId)
    requires Chain(r, n) && d in r.works && r.works[d].attempt !in r.attempts
    ensures r.works[d].attempt == n
  {
  }

  lemma ClaimNeedsAnOpenAttempt(s: System, a: Action, j: JobId, n: nat)
    requires Inv(s) && Enabled(s, a) && a.Claim? && Written(s, a).Some? && Written(s, a).value.0 == j
    requires j in s.records && Chain(s.records[j], n)
    ensures s.handlers[a.h].phase.Entered? && s.handlers[a.h].m.job == j && s.handlers[a.h].m.attempt == n
    ensures Open(s.records[j], n)
  {
    OnlyEnteredClaims(s, a);
    HandlerFacts(s, a.h);
    HandlerMessage(s, a.h);
    StoredFacts(s, j);
    var m, snapshot := s.handlers[a.h].m, s.handlers[a.h].phase.snapshot;
    hide Inv, Chain;
    ClaimGrows(s.records[j], m, snapshot, a.now, Written(s, a).value.1);
    UnopenedIsLast(s.records[j], n, m.dispatch);
  }

  lemma CommitNeedsTheOwner(s: System, a: Action, j: JobId)
    requires Inv(s) && Enabled(s, a) && a.Commit? && Written(s, a).Some? && Written(s, a).value.0 == j
    ensures j in s.records && Owns(s, s.handlers[a.h], j)
  {
    hide Inv;
    CommitReplaces(s, a.h, a.d, a.g, a.now, Written(s, a).value.1);
  }

  lemma StoredWasIssued(s: System, j: JobId)
    requires Inv(s) && j in s.records
    ensures j in s.used
  {
  }

  /** Whatever writes a chained job's record is one of the three. */
  lemma WriterMoves(s: System, a: Action, j: JobId, n: nat)
    requires Inv(s) && Enabled(s, a) && BrokerAction(a) && j in s.records && Chain(s.records[j], n)
    requires Written(s, a).Some? && Written(s, a).value.0 == j
    ensures
      || (a.Claim? && s.handlers[a.h].phase.Entered? && s.handlers[a.h].m.job == j && s.handlers[a.h].m.attempt == n &&
          Open(s.records[j], n))
      || (a.Commit? && Owns(s, s.handlers[a.h], j))
      || (a.Requeue? && a.j == j && Renewable(s.records[j]))
  {
    hide Inv, Chain, Open;
    if a.Claim? {
      ClaimNeedsAnOpenAttempt(s, a, j, n);
    } else if a.Commit? {
      CommitNeedsTheOwner(s, a, j);
    } else {
      StoredWasIssued(s, j);
    }
  }

  // ----- who becomes an owner

  /** A claim that leads on to the stage's work either wrote the job's record or resumed on the row it read. */
  lemma EnteredOutcome(s: System, h: nat, payloadOk: bool, fault: bool, now: Time)
    requires h < |s.handlers| && s.handlers[h].phase.Entered?
    ensures
      var m, snapshot := s.handlers[h].m, s.handlers[h].phase.snapshot;
      var t := NextClaim(s, h, payloadOk, fault, now);
      && |t.handlers| == |s.handlers|
      && (t.handlers[h].phase.Claimed? || t.handlers[h].phase.Called? ==>
            && HandlerAccepts(m, snapshot) && m.job in s.records
            && var answer := ClaimFor(s.records[m.job], m, snapshot, now);
               (answer.Owned? && ClaimWritten(s, h, fault, now) == Some((m.job, answer.record))) ||
               (answer.Resumed? && t.handlers[h].phase.base == snapshot))
  {
    hide ClaimFor, HandlerAccepts, MessagesOf, Billable;
  }

  lemma ResumeNeedsAnOpenAttempt(s: System, h: nat, now: Time, n: nat)
    requires Inv(s) && h < |s.handlers| && s.handlers[h].phase.Entered?
    requires
      var m, snapshot := s.handlers[h].m, s.handlers[h].phase.snapshot;
      && m.job in s.records && Chain(s.records[m.job], n) && snapshot.version == s.records[m.job].job.version
      && HandlerAccepts(m, snapshot) && ClaimFor(s.records[m.job], m, snapshot, now).Resumed?
    ensures s.handlers[h].m.attempt == n && Open(s.records[s.handlers[h].m.job], n)
  {
    var m := s.handlers[h].m;
    HandlerPhase(s, h);
    OnlyLastRuns(s.records[m.job], n, m.attempt);
  }

  /** A handler that owns the job after a step either did so before, or has just resumed an open attempt. */
  lemma NewOwners(s: System, a: Action, j: JobId, n: nat, i: nat)
    requires Inv(s) && Enabled(s, a) && BrokerAction(a) && j in s.records && Chain(s.records[j], n)
    requires j in Next(s, a).records && Next(s, a).records[j] == s.records[j]
    requires Written(s, a).Some? ==> Written(s, a).value.0 != j
    requires i < |Next(s, a).handlers| && Owns(Next(s, a), Next(s, a).handlers[i], j)
    ensures i < |s.handlers|
    ensures
      || Owns(s, s.handlers[i], j)
      || (a.Claim? && a.h == i && s.handlers[i].phase.Entered? &&
          s.handlers[i].m.job == j && s.handlers[i].m.attempt == n && Open(s.records[j], n))
  {
    hide Inv, Chain, Open, Written;
    NewHandlers(s, a);
    if a.Claim? {
      ClaimShape(s, a);
      if i == a.h && s.handlers[i].phase.Entered? {
        ClaimMakesOwner(s, a, j, n);
      } else if i == a.h {
        UnhandledClaims(s, a);
      }
    } else if a.ReadJob? || a.ReadAttempt? {
      ReadShape(s, a);
    } else {
      OthersMakeNoOwner(s, a, j, i);
    }
  }

  lemma UnhandledClaims(s: System, a: Action)
    requires Enabled(s, a) && a.Claim? && s.handlers[a.h].phase.Unhandled?
    ensures a.h < |Next(s, a).handlers| && Next(s, a).handlers[a.h].phase in {Raised, Halted}
  {
  }

  lemma ClaimMakesOwner(s: System, a: Action, j: JobId, n: nat)
    requires Inv(s) && Enabled(s, a) && a.Claim? && s.handlers[a.h].phase.Entered? && a.h < |Next(s, a).handlers|
    requires j in s.records && Chain(s.records[j], n)
    requires j in Next(s, a).records && Next(s, a).records[j] == s.records[j]
    requires Written(s, a).Some? ==> Written(s, a).value.0 != j
    requires s.handlers[a.h].m == Next(s, a).handlers[a.h].m && Owns(Next(s, a), Next(s, a).handlers[a.h], j)
    ensures s.handlers[a.h].m.job == j && s.handlers[a.h].m.attempt == n && Open(s.records[j], n)
  {
    hide Inv, Chain, Open, NextClaim, ClaimFor, ClaimWritten;
    EnteredOutcome(s, a.h, a.payloadOk, a.fault, a.now);
    ResumeNeedsAnOpenAttempt(s, a.h, a.now, n);
  }

  /** Calls and rollbacks keep the row a handler believes in; other steps make no owner. */
  lemma OthersMakeNoOwner(s: System, a: Action, j: JobId, i: nat)
    requires Enabled(s, a) && BrokerAction(a) && !a.Claim? && !a.ReadJob? && !a.ReadAttempt?
    requires j in s.records && j in Next(s, a).records && Next(s, a).records[j] == s.records[j]
    requires i < |Next(s, a).handlers| && Owns(Next(s, a), Next(s, a).handlers[i], j)
    ensures i < |s.handlers| && Owns(s, s.handlers[i], j)
  {
    hide Decide, Execute, Transition, Admission, MessagesOf, NextClaim, NextNotImplemented, NextReadAttempt;
  }

  // ----- a job that nothing can move

  lemma StuckStep(s: System, a: Action, j: JobId, n: nat)
    requires Inv(s) && Enabled(s, a) && BrokerAction(a)
    requires j in s.records && Active(s.records[j].job.status) && Chain(s.records[j], n) && !Movable(s, j, n)
    ensures j in Next(s, a).records && Next(s, a).records[j] == s.records[j] && !Movable(Next(s, a), j, n)
  {
    hide Inv, Chain, Open, Renewable, Written, Next;
    NextRecords(s, a);
    if Written(s, a).Some? && Written(s, a).value.0 == j {
      WriterMoves(s, a, j, n);
      assert false;
    }
    if a.Cleanup? {
      CleanupSpares(s, a, j);
    }
    forall i | 0 <= i < |Next(s, a).handlers|
      ensures !Owns(Next(s, a), Next(s, a).handlers[i], j)
    {
      if Owns(Next(s, a), Next(s, a).handlers[i], j) {
        NewOwners(s, a, j, n, i);
      }
    }
  }

  lemma CleanupSpares(s: System, a: Action, j: JobId)
    requires Enabled(s, a) && a.Cleanup? && j in s.records && Active(s.records[j].job.status)
    ensures j !in a.gone && Written(s, a).None?
  {
  }

  /** An active job that has no owner, no open attempt and no re-queue to hope for keeps its record for ever. */
  lemma {:induction false} StuckJobsStay(run: Run, i: nat, k: nat, j: JobId, n: nat)
    requires run.Valid() && i <= k < |run.states|
    requires forall x :: 0 <= x < k ==> BrokerAction(run.actions[x])
    requires j in run.states[i].records && Active(run.states[i].records[j].job.status)
    requires Chain(run.states[i].records[j], n) && !Movable(run.states[i], j, n)
    ensures j in run.states[k].records && run.states[k].records[j] == run.states[i].records[j]
    ensures !Movable(run.states[k], j, n)
    decreases k - i
  {
    hide Inv, Chain, Movable, Enabled, Next, BrokerAction, Start;
    if i < k {
      RunKeeps(run, k - 1);
      StuckJobsStay(run, i, k - 1, j, n);
      StuckStep(run.states[k - 1], run.actions[k - 1], j, n);
    }
  }

  /** The attempt runs at a stage that bills, nothing is known that would let it be resumed, and its owner is
      gone. */
  predicate OwnerLost(s: System, j: JobId, n: nat)
    requires j in s.records
  {
    var r := s.records[j];
    && n in r.attempts && r.attempts[n] == Attempt(r.job.stage, Running)
    && (r.job.stage == ImageGenerate || (r.job.stage == VideoSubmit && r.job.task.None?))
    && !HasOwner(s, j)
  }

  /** The admission asks for what the job is for. */
  predicate AsksAgain(a: Action, job: Job) {
    a.Admit? && a.kind == job.kind && a.key.Some? && a.key == job.key
  }

  /** A worker that dies between its claim and its commit at a billable stage strands the job: redelivery is
      answered as a duplicate, re-queue takes only jobs without an attempt, and nothing else may touch it. Its
      digest stays taken: the same request cannot be admitted again. */
  lemma LostOwnersStrandTheJob(run: Run, i: nat, k: nat, j: JobId, n: nat)
    requires run.Valid() && i <= k < |run.states|
    requires forall x :: 0 <= x < k ==> BrokerAction(run.actions[x])
    requires j in run.states[i].records && OwnerLost(run.states[i], j, n)
    ensures j in run.states[k].records && run.states[k].records[j] == run.states[i].records[j]
    ensures Active(run.states[k].records[j].job.status)
    ensures forall a: Action :: AsksAgain(a, run.states[k].records[j].job) ==> !Enabled(run.states[k], a)
  {
    var r := run.states[i].records[j];
    AttemptsFormAChain(run, i, j);
    var c: nat :| Chain(r, c);
    OnlyLastRuns(r, c, n);
    StuckJobsStay(run, i, k, j, n);
    forall a: Action | AsksAgain(a, run.states[k].records[j].job)
      ensures !Enabled(run.states[k], a)
    {
      assert Matches(run.states[k].records[j].job, a.kind, a.key.value);
    }
  }

  // ----- a job that waits to be delivered

  /** The handler was sent attempt `n` and has not claimed it yet. */
  predicate Incoming(h: Handler, j: JobId, n: nat) {
    h.m.job == j && h.m.attempt == n && (h.phase.Fetched? || h.phase.Looked? || h.phase.Entered?)
  }

  /** Nobody is at work on the job. */
  predicate Quiet(s: System, j: JobId, n: nat)
    requires j in s.records
  {
    !HasOwner(s, j) && forall i :: 0 <= i < |s.handlers| ==> !Incoming(s.handlers[i], j, n)
  }

  predicate Delivers(a: Action, j: JobId, n: nat) {
    a.Deliver? && a.m.job == j && a.m.attempt == n
  }

  predicate Renews(a: Action, j: JobId) {
    a.Requeue? && a.j == j
  }

  /** Only a delivery makes a handler incoming. */
  lemma NewcomersAreDelivered(s: System, a: Action, j: JobId, n: nat, i: nat)
    requires Enabled(s, a) && BrokerAction(a) && i < |Next(s, a).handlers| && Incoming(Next(s, a).handlers[i], j, n)
    ensures Delivers(a, j, n) || (i < |s.handlers| && Incoming(s.handlers[i], j, n))
  {
    hide Decide, Execute, Transition, Admission, MessagesOf, NextClaim, NextNotImplemented, NextReadAttempt;
    hide AddWork, StageFits, Constructible, Matches, Recover;
    if a.Claim? {
      ClaimShape(s, a);
    } else if a.ReadJob? || a.ReadAttempt? {
      ReadShape(s, a);
    }
  }

  lemma QuietStep(s: System, a: Action, j: JobId, n: nat)
    requires Inv(s) && Enabled(s, a) && BrokerAction(a)
    requires j in s.records && Active(s.records[j].job.status) && Chain(s.records[j], n) && Quiet(s, j, n)
    requires !Delivers(a, j, n) && (s.records[j].job.status == Queued ==> !Renews(a, j))
    ensures j in Next(s, a).records && Next(s, a).records[j] == s.records[j] && Quiet(Next(s, a), j, n)
  {
    hide Inv, Chain, Open, Written, Next;
    NextRecords(s, a);
    if Written(s, a).Some? && Written(s, a).value.0 == j {
      WriterMoves(s, a, j, n);
      assert false;
    }
    if a.Cleanup? {
      CleanupSpares(s, a, j);
    }
    forall i | 0 <= i < |Next(s, a).handlers|
      ensures !Owns(Next(s, a), Next(s, a).handlers[i], j) && !Incoming(Next(s, a).handlers[i], j, n)
    {
      if Incoming(Next(s, a).handlers[i], j, n) {
        NewcomersAreDelivered(s, a, j, n, i);
      } else if Owns(Next(s, a), Next(s, a).handlers[i], j) {
        NewOwners(s, a, j, n, i);
      }
    }
  }

  /** A job on which nobody is at work stands still until its last attempt is delivered again, whether that
      attempt has not begun or has lost its worker: no redelivery of an older attempt, crash or cleanup moves
      it. Only a queued job can be re-queued meanwhile. */
  lemma {:induction false} QuietJobsNeedADelivery(run: Run, i: nat, k: nat, j: JobId, n: nat)
    requires run.Valid() && i <= k < |run.states|
    requires forall x :: 0 <= x < k ==> BrokerAction(run.actions[x])
    requires j in run.states[i].records && Active(run.states[i].records[j].job.status)
    requires Chain(run.states[i].records[j], n) && Quiet(run.states[i], j, n)
    requires forall x :: i <= x < k ==> !Delivers(run.actions[x], j, n)
    requires run.states[i].records[j].job.status == Queued ==> forall x :: i <= x < k ==> !Renews(run.actions[x], j)
    ensures j in run.states[k].records && run.states[k].records[j] == run.states[i].records[j]
    ensures Quiet(run.states[k], j, n)
    decreases k - i
  {
    hide Inv, Chain, Quiet, Enabled, Next, BrokerAction, Start, Delivers, Renews;
    if i < k {
      RunKeeps(run, k - 1);
      QuietJobsNeedADelivery(run, i, k - 1, j, n);
      QuietStep(run.states[k - 1], run.actions[k - 1], j, n);
    }
  }
}
