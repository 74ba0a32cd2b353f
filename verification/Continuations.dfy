/** The other half of Progress.dfy: whenever something may still move an active job, the run has a continuation
    that does. So the condition there is exact. */
module Continuations {
  import opened Model
  import opened Records
  import opened RecordGrowth
  import opened Protocol
  import opened ProtocolInvariant
  import opened ProtocolTheorems
  import opened BrokerRuns
  import opened Progress

  // ----- going on

  ghost predicate BrokerRun(run: Run) {
    run.Valid() && forall k :: 0 <= k < |run.actions| ==> BrokerAction(run.actions[k])
  }

  lemma ExtendedIsBrokerRun(run: Run, a: Action)
    requires BrokerRun(run) && Enabled(LastState(run), a) && BrokerAction(a)
    ensures BrokerRun(Extended(run, a)) && LastState(Extended(run, a)) == Next(LastState(run), a)
  {
    hide Enabled, Next, BrokerAction, Start;
    ExtendedIsValid(run, a);
  }

  /** The run goes on as `more`, under the broker's steps. */
  ghost predicate GoesOn(run: Run, more: Run) {
    BrokerRun(run) && BrokerRun(more) && run.states <= more.states && run.actions <= more.actions
  }

  /** Take one more step. */
  lemma Onward(start: Run, run: Run, a: Action) returns (more: Run)
    requires GoesOn(start, run) && Enabled(LastState(run), a) && BrokerAction(a)
    ensures GoesOn(start, more) && |more.states| > 0 && LastState(more) == Next(LastState(run), a)
  {
    hide Enabled, Next, BrokerAction, Start;
    ExtendedIsBrokerRun(run, a);
    more := Extended(run, a);
  }

  lemma LastFacts(run: Run)
    requires BrokerRun(run)
    ensures Inv(LastState(run)) && ChainInv(LastState(run))
  {
    BrokerRunKeeps(run, |run.actions|);
  }

  /** Some continuation changes the job's record. */
  ghost predicate CanMove(run: Run, j: JobId)
    requires |run.states| > 0 && j in LastState(run).records
  {
    exists more :: GoesOn(run, more) && Moved(run, more, j)
  }

  ghost predicate Moved(run: Run, more: Run, j: JobId)
    requires |run.states| > 0 && j in LastState(run).records
  {
    |more.states| > 0 && (j in LastState(more).records ==> LastState(more).records[j] != LastState(run).records[j])
  }

  // ----- the owner goes on

  lemma ExecuteSucceeds(r: JobRecord, m: Message, snapshot: Job, base: Job, plan: Plan, d: DispatchId, g: GenerationId,
                        now: Time)
    requires RecordOk(r) && OwnOk(m, snapshot, base, r.job) && PlanOk(m, snapshot, plan)
    requires base.version == r.job.version && r.job.status == Running && r.job.stage == m.stage
    ensures var out := Execute(r, m, base, plan, d, g, now); out.Ok? && out.value.job.version == r.job.version + 1
  {
  }

  /** The owner's attempt is running, and the job with it. */
  lemma OwnerFacts(s: System, h: nat, j: JobId)
    requires Inv(s) && ChainInv(s) && j in s.records && h < |s.handlers| && Owns(s, s.handlers[h], j)
    ensures HandlerOk(s, s.handlers[h]) && RecordOk(s.records[j])
    ensures s.records[j].job.status == Running && s.records[j].job.stage == s.handlers[h].m.stage
  {
    HolderFacts(s, h);
    var n: nat :| Chain(s.records[j], n);
    OnlyLastRuns(s.records[j], n, s.handlers[h].m.attempt);
  }

  lemma CommitCanSucceed(s: System, h: nat, j: JobId) returns (a: Action)
    requires Inv(s) && ChainInv(s) && j in s.records && h < |s.handlers| && Owns(s, s.handlers[h], j)
    requires s.handlers[h].phase.Called?
    ensures Enabled(s, a) && BrokerAction(a) && a.Commit?
    ensures Written(s, a).Some? && Written(s, a).value.0 == j
    ensures Written(s, a).value.1.job.version == s.records[j].job.version + 1
  {
    hide Inv, ChainInv, Execute, RecordOk;
    OwnerFacts(s, h, j);
    var d := Unissued(s.usedDispatches);
    var m, phase := s.handlers[h].m, s.handlers[h].phase;
    ExecuteSucceeds(s.records[j], m, phase.snapshot, phase.base, phase.plan, d, 0, 0);
    a := Commit(h, d, 0, false, 0);
  }

  lemma CalledOwnerMoves(start: Run, run: Run, j: JobId, h: nat) returns (more: Run)
    requires GoesOn(start, run) && j in LastState(run).records && h < |LastState(run).handlers|
    requires Owns(LastState(run), LastState(run).handlers[h], j) && LastState(run).handlers[h].phase.Called?
    ensures GoesOn(start, more) && |more.states| > 0 && j in LastState(more).records
    ensures LastState(more).records[j] != LastState(run).records[j]
  {
    hide Inv, ChainInv, Enabled, Next, Written, Owns, BrokerAction, GoesOn;
    RunOfContinuation(start, run);
    LastFacts(run);
    var a := CommitCanSucceed(LastState(run), h, j);
    more := Onward(start, run, a);
    NextRecords(LastState(run), a);
  }

  lemma RunOfContinuation(start: Run, run: Run)
    requires GoesOn(start, run)
    ensures BrokerRun(start) && BrokerRun(run) && |run.states| > 0
  {
  }

  lemma CallLeavesTheOwner(s: System, h: nat, j: JobId)
    requires Inv(s) && j in s.records && h < |s.handlers| && Owns(s, s.handlers[h], j) && s.handlers[h].phase.Claimed?
    ensures
      var a := Call(h, Crashed, 0, 0);
      && Enabled(s, a) && BrokerAction(a)
      && j in Next(s, a).records && Next(s, a).records[j] == s.records[j] && h < |Next(s, a).handlers|
      && Owns(Next(s, a), Next(s, a).handlers[h], j) && Next(s, a).handlers[h].phase.Called?
  {
    hide Inv, Decide;
    HandlerFacts(s, h);
  }

  lemma OwnerMoves(start: Run, run: Run, j: JobId, h: nat) returns (more: Run)
    requires GoesOn(start, run) && j in LastState(run).records && h < |LastState(run).handlers|
    requires Owns(LastState(run), LastState(run).handlers[h], j)
    ensures GoesOn(start, more) && |more.states| > 0 && j in LastState(more).records
    ensures LastState(more).records[j] != LastState(run).records[j]
  {
    hide Inv, ChainInv, Enabled, Next, BrokerAction, GoesOn;
    RunOfContinuation(start, run);
    LastFacts(run);
    if LastState(run).handlers[h].phase.Called? {
      more := CalledOwnerMoves(start, run, j, h);
    } else {
      CallLeavesTheOwner(LastState(run), h, j);
      var called := Onward(start, run, Call(h, Crashed, 0, 0));
      more := CalledOwnerMoves(start, called, j, h);
    }
  }

  // ----- a delivery opens the attempt

  /** The message of every outbox row of a stored job has been written to the outbox. */
  predicate Posted(s: System) {
    forall j :: j in s.records ==> MessagesOf(j, s.records[j]) <= s.outbox
  }

  lemma NextOutbox(s: System, a: Action)
    requires Enabled(s, a)
    ensures s.outbox <= Next(s, a).outbox
    ensures Written(s, a).Some? ==> MessagesOf(Written(s, a).value.0, Written(s, a).value.1) <= Next(s, a).outbox
  {
    hide MessagesOf, AfterError, CommitOutcome, RecoverOutcome, ClaimWritten, NextClaim, NextNotImplemented;
    hide Decide, Route, Transition, Admission, AddWork, Billable, SameRequest, StageFits;
    if a.Claim? {
      ClaimOutbox(s, a.h, a.payloadOk, a.fault, a.now);
    }
  }

  lemma ClaimOutbox(s: System, h: nat, payloadOk: bool, fault: bool, now: Time)
    requires h < |s.handlers| && (s.handlers[h].phase.Entered? || s.handlers[h].phase.Unhandled?)
    ensures
      var t := if s.handlers[h].phase.Entered? then NextClaim(s, h, payloadOk, fault, now)
               else NextNotImplemented(s, h, fault, now);
      t.outbox == (match ClaimWritten(s, h, fault, now)
                   case Some(w) => s.outbox + MessagesOf(w.0, w.1)
                   case None => s.outbox)
  {
    hide MessagesOf, ClaimFor, HandlerAccepts, NotImplemented, AfterClaim;
  }

  lemma PostedStep(s: System, a: Action)
    requires Posted(s) && Enabled(s, a)
    ensures Posted(Next(s, a))
  {
    hide Enabled, Next, Written, MessagesOf;
    NextRecords(s, a);
    NextOutbox(s, a);
  }

  lemma {:induction false} PostedInRun(run: Run, i: nat)
    requires run.Valid() && i < |run.states|
    ensures Posted(run.states[i])
  {
    if i > 0 {
      PostedInRun(run, i - 1);
      PostedStep(run.states[i - 1], run.actions[i - 1]);
    }
  }

  /** The message that carries the job's last attempt. */
  lemma LastMessage(s: System, j: JobId, n: nat) returns (m: Message)
    requires Posted(s) && j in s.records && Chain(s.records[j], n) && Active(s.records[j].job.status)
    ensures m in s.outbox && m.job == j && m.attempt == n && m.stage == s.records[j].job.stage
  {
    var r := s.records[j];
    assert HasWork(r.works, n);
    var d :| d in r.works && r.works[d].attempt == n;
    m := MessageOf(j, r, d);
    assert m in MessagesOf(j, r);
  }

  /** The handler at the end of the list works on this message. */
  ghost predicate Arrived(run: Run, j: JobId, r: JobRecord, m: Message, phase: Phase) {
    && |run.states| > 0
    && var s := LastState(run);
       j in s.records && s.records[j] == r && |s.handlers| > 0 && s.handlers[|s.handlers| - 1] == Handler(m, phase)
  }

  lemma DeliverAgain(start: Run, j: JobId, m: Message) returns (run: Run)
    requires BrokerRun(start) && j in LastState(start).records && m in LastState(start).outbox && Constructible(m)
    ensures GoesOn(start, run) && Arrived(run, j, LastState(start).records[j], m, Fetched)
  {
    hide Start;
    run := Onward(start, start, Publish(m));
    run := Onward(start, run, Deliver(m));
  }

  lemma EnteredAgain(start: Run, before: Run, j: JobId, r: JobRecord, m: Message) returns (run: Run)
    requires GoesOn(start, before) && Arrived(before, j, r, m, Fetched) && m.job == j
    requires Route(m, Some(r.job), if m.attempt in r.attempts then Some(r.attempts[m.attempt]) else None) == Enter
    ensures GoesOn(start, run) && Arrived(run, j, r, m, Entered(r.job))
  {
    hide Start, GoesOn, BrokerRun, Route, Run.Valid;
    var h := |LastState(before).handlers| - 1;
    run := Onward(start, before, ReadJob(h));
    assert Arrived(run, j, r, m, Looked(r.job));
    run := Onward(start, run, ReadAttempt(h, true));
  }

  lemma ClaimAgain(start: Run, before: Run, j: JobId, r: JobRecord, m: Message) returns (run: Run)
    requires GoesOn(start, before) && Arrived(before, j, r, m, Entered(r.job)) && m.job == j && HandlerAccepts(m, r.job)
    requires var answer := ClaimFor(r, m, r.job, 0); answer.Owned? || answer.Resumed?
    ensures GoesOn(start, run) && |run.states| > 0 && j in LastState(run).records
    ensures
      match ClaimFor(r, m, r.job, 0)
      case Owned(r') => LastState(run).records[j] == r'
      case _ => Arrived(run, j, r, m, Claimed(r.job, r.job))
  {
    hide Start, GoesOn, BrokerRun, ClaimFor, HandlerAccepts, Run.Valid;
    var h := |LastState(before).handlers| - 1;
    run := Onward(start, before, Claim(h, true, false, 0));
  }

  /** What the routing and the claim say to a fresh delivery of the last attempt. */
  lemma OpenAttemptIsClaimed(r: JobRecord, m: Message, n: nat)
    requires RecordOk(r) && Chain(r, n) && Active(r.job.status) && Open(r, n)
    requires m.stage == r.job.stage && m.attempt == n && n <= AttemptLimit(r.job)
    ensures HandlerAccepts(m, r.job)
    ensures Route(m, Some(r.job), if n in r.attempts then Some(r.attempts[n]) else None) == Enter
    ensures
      match ClaimFor(r, m, r.job, 0)
      case Owned(r') => r'.job.version == r.job.version + 1
      case answer => answer.Resumed?
  {
    if n !in r.attempts && RunningAt(r, m.stage) {
      var k :| k in r.attempts && r.attempts[k] == Attempt(m.stage, Running);
      OnlyLastRuns(r, n, k);
      assert false;
    }
  }

  lemma OpenJobMoves(run: Run, j: JobId, n: nat) returns (more: Run)
    requires BrokerRun(run) && j in LastState(run).records && Active(LastState(run).records[j].job.status)
    requires Chain(LastState(run).records[j], n) && Open(LastState(run).records[j], n)
    requires SharedRun(run, |run.actions|)
    ensures GoesOn(run, more) && Moved(run, more, j)
  {
    hide Inv, ChainInv, Chain, Open, Enabled, Next, GoesOn, Route, ClaimFor, HandlerAccepts, BrokerAction, Active;
    var i, r := |run.actions|, LastState(run).records[j];
    LastFacts(run);
    PostedInRun(run, i);
    var m := LastMessage(LastState(run), j, n);
    OutboxMessagesCanBeBuilt(run, i, m);
    WithinLimit(run, m);
    StoredFacts(LastState(run), j);
    OpenAttemptIsClaimed(r, m, n);
    more := DeliverAgain(run, j, m);
    more := EnteredAgain(run, more, j, r, m);
    more := ClaimAgain(run, more, j, r, m);
    if ClaimFor(r, m, r.job, 0).Owned? {
      assert LastState(more).records[j] != r;
    } else {
      more := OwnerMoves(run, more, j, |LastState(more).handlers| - 1);
    }
  }

  lemma WithinLimit(run: Run, m: Message)
    requires BrokerRun(run) && SharedRun(run, |run.actions|)
    requires m in LastState(run).outbox && m.job in LastState(run).records
    ensures m.attempt <= AttemptLimit(LastState(run).records[m.job].job)
  {
    hide Inv, BoundInv;
    SharedRunKeeps(run, |run.actions|);
    MessageBounded(LastState(run), m);
  }

  // ----- a re-queue writes the work once more

  lemma RenewableJobMoves(run: Run, j: JobId, n: nat) returns (more: Run)
    requires BrokerRun(run) && j in LastState(run).records
    requires Chain(LastState(run).records[j], n) && Renewable(LastState(run).records[j])
    ensures GoesOn(run, more) && Moved(run, more, j)
  {
    hide Inv, ChainInv, Start;
    var s := LastState(run);
    LastFacts(run);
    StoredFacts(s, j);
    assert HasWork(s.records[j].works, n);
    var lost :| lost in s.records[j].works && s.records[j].works[lost].attempt == n;
    var d := Unissued(s.usedDispatches);
    more := Onward(run, run, Requeue(j, lost, d));
    assert d in LastState(more).records[j].works && d !in s.records[j].works;
  }

  // ----- main result

  /** Exactly when an active job can still move: some continuation changes its record if and only if a handler
      owns it, its last attempt is open to a delivery, or it can be re-queued. */
  lemma CanMoveIffMovable(run: Run, j: JobId, n: nat)
    requires BrokerRun(run) && SharedRun(run, |run.actions|)
    requires j in LastState(run).records && Active(LastState(run).records[j].job.status)
    requires Chain(LastState(run).records[j], n)
    ensures CanMove(run, j) <==> Movable(LastState(run), j, n)
  {
    hide Chain, Open, Renewable, Active, SharedRun;
    if CanMove(run, j) {
      var more :| GoesOn(run, more) && Moved(run, more, j);
      if !Movable(LastState(run), j, n) {
        assert more.states[|run.actions|] == LastState(run);
        StuckJobsStay(more, |run.actions|, |more.actions|, j, n);
        assert false;
      }
    }
    if Movable(LastState(run), j, n) {
      MovableJobMoves(run, j, n);
    }
  }

  lemma MovableJobMoves(run: Run, j: JobId, n: nat)
    requires BrokerRun(run) && SharedRun(run, |run.actions|)
    requires j in LastState(run).records && Active(LastState(run).records[j].job.status)
    requires Chain(LastState(run).records[j], n) && Movable(LastState(run), j, n)
    ensures CanMove(run, j)
  {
    hide Chain, Open, Renewable, Active, SharedRun, Owns, Enabled, Next, BrokerAction, Start;
    var more;
    if HasOwner(LastState(run), j) {
      var h :| 0 <= h < |LastState(run).handlers| && Owns(LastState(run), LastState(run).handlers[h], j);
      more := OwnerMoves(run, run, j, h);
    } else if Open(LastState(run).records[j], n) {
      more := OpenJobMoves(run, j, n);
    } else {
      more := RenewableJobMoves(run, j, n);
    }
    assert GoesOn(run, more) && Moved(run, more, j);
  }
}
