/** The stage handlers, the worker entry point and the local backend as they run: transaction after
    transaction, with other processes changing the tables in between. Each leaves a ghost trace, and
    every entry of a trace is a step of the protocol, so what holds in every run of the protocol
    holds of these methods. */
module Handlers {
  import opened Model
  import opened Records
  import opened Store
  import opened Workers
  import opened Outcomes
  import P = Protocol

  type View = map<JobId, JobRecord>

  /** A protocol state in which this delivery is the only handler. */
  function SystemAt(policy: Policy, view: View, ids: set<DispatchId>, m: Message, phase: P.Phase): P.System {
    P.System(policy, view, view.Keys, ids, {}, {}, [P.Handler(m, phase)], map[], map[])
  }

  /** One step of a delivery: the tables before it, the protocol action, and the records and the phase after it. */
  datatype Step = Step(view: View, ids: set<DispatchId>, phase: P.Phase, action: P.Action, after: View, next: P.Phase)

  predicate OwnAction(a: P.Action) {
    (a.ReadJob? || a.ReadAttempt? || a.Claim? || a.Call? || a.Commit? || a.RecoverRead? || a.RecoverCommit?) && a.h == 0
  }

  /** The protocol allows this step, and it leads exactly there. */
  predicate Faithful(policy: Policy, m: Message, step: Step) {
    var s := SystemAt(policy, step.view, step.ids, m, step.phase);
    && OwnAction(step.action) && P.Enabled(s, step.action)
    && P.Next(s, step.action).records == step.after
    && P.Next(s, step.action).handlers == [P.Handler(m, step.next)]
  }

  /** The steps follow on from one another, from the first phase to the last. */
  predicate Traced(policy: Policy, m: Message, trace: seq<Step>, first: P.Phase, last: P.Phase) {
    if trace == [] then first == last
    else
      var step := trace[|trace| - 1];
      Faithful(policy, m, step) && step.next == last && Traced(policy, m, trace[..|trace| - 1], first, step.phase)
  }

  lemma Extend(policy: Policy, m: Message, trace: seq<Step>, first: P.Phase, step: Step)
    requires Traced(policy, m, trace, first, step.phase) && Faithful(policy, m, step)
    ensures Traced(policy, m, trace + [step], first, step.next)
    ensures BillableCalls(m, trace + [step]) == BillableCalls(m, trace) + (if BillableCall(m, step) then 1 else 0)
  {
    assert (trace + [step])[..|trace|] == trace;
  }

  lemma Begin(policy: Policy, m: Message, step: Step)
    requires Faithful(policy, m, step)
    ensures Traced(policy, m, [step], step.phase, step.next)
    ensures BillableCalls(m, [step]) == if BillableCall(m, step) then 1 else 0
  {
    Extend(policy, m, [], step.phase, step);
    assert [] + [step] == [step];
  }

  lemma {:induction false} Chain(policy: Policy, m: Message, a: seq<Step>, b: seq<Step>, first: P.Phase,
                                 mid: P.Phase, last: P.Phase)
    requires Traced(policy, m, a, first, mid) && Traced(policy, m, b, mid, last)
    ensures Traced(policy, m, a + b, first, last)
  {
    if b == [] {
      assert a + b == a;
    } else {
      var step := b[|b| - 1];
      Chain(policy, m, a, b[..|b| - 1], first, mid, step.phase);
      assert (a + b)[..|a + b| - 1] == a + b[..|b| - 1];
    }
  }

  predicate BillableCall(m: Message, step: Step) {
    step.action.Call? && step.phase.Claimed? && P.Billable(m, step.phase.snapshot)
  }

  /** The billable provider calls in a trace. */
  function BillableCalls(m: Message, trace: seq<Step>): nat {
    if trace == [] then 0
    else
      var step := trace[|trace| - 1];
      BillableCalls(m, trace[..|trace| - 1]) +
      (if BillableCall(m, step) then 1 else 0)
  }

  lemma {:induction false} CallsAdd(m: Message, a: seq<Step>, b: seq<Step>)
    ensures BillableCalls(m, a + b) == BillableCalls(m, a) + BillableCalls(m, b)
  {
    if b == [] {
      assert a + b == a;
    } else {
      CallsAdd(m, a, b[..|b| - 1]);
      assert (a + b)[..|a + b| - 1] == a + b[..|b| - 1];
    }
  }

  /** The whole system takes this step as its own handler `h`'s, to the same tables and phase. */
  predicate Embedded(s: P.System, h: nat, m: Message, step: Step)
    requires OwnAction(step.action)
  {
    var a := step.action.(h := h);
    P.Enabled(s, a) && P.Next(s, a).records == step.after &&
    P.Next(s, a).handlers == s.handlers[h := P.Handler(m, step.next)]
  }

  /** Handler `h` of the system stands where the step begins. */
  predicate Fits(s: P.System, h: nat, m: Message, step: Step) {
    && Faithful(s.policy, m, step) && s.records == step.view
    && h < |s.handlers| && s.handlers[h] == P.Handler(m, step.phase)
    && (step.action.Commit? || step.action.RecoverCommit? ==> step.action.d !in s.usedDispatches)
  }

  lemma ReadsEmbed(s: P.System, h: nat, m: Message, step: Step)
    requires Fits(s, h, m, step) && (step.action.ReadJob? || step.action.RecoverRead?)
    ensures Embedded(s, h, m, step)
  {
    hide P.NextReadAttempt;
    var small := SystemAt(s.policy, step.view, step.ids, m, step.phase);
    assert small.handlers[0] == P.Handler(m, step.phase);
    assert P.Next(small, step.action).handlers[0] == P.Handler(m, step.next);
  }

  /** Routing looks at its own handler and the attempt row only. */
  lemma RoutingIsLocal(s: P.System, h: nat, noted: bool)
    requires h < |s.handlers| && s.handlers[h].phase.Looked?
    ensures
      var m, snapshot := s.handlers[h].m, s.handlers[h].phase.snapshot;
      var existing := if m.job in s.records && m.attempt in s.records[m.job].attempts
                      then Some(s.records[m.job].attempts[m.attempt]) else None;
      P.NextReadAttempt(s, h, noted) == P.Move(s, h, AfterRouting(Route(m, Some(snapshot), existing), snapshot, noted))
  {
  }

  lemma RoutingEmbeds(s: P.System, h: nat, m: Message, step: Step)
    requires Fits(s, h, m, step) && step.action.ReadAttempt?
    ensures Embedded(s, h, m, step)
  {
    hide Records.Route, AfterRouting, P.NextReadAttempt;
    RoutingIsLocal(SystemAt(s.policy, step.view, step.ids, m, step.phase), 0, step.action.noted);
    RoutingIsLocal(s, h, step.action.noted);
    var small := SystemAt(s.policy, step.view, step.ids, m, step.phase);
    assert small.handlers[0] == P.Handler(m, step.phase);
    assert P.Next(small, step.action).handlers[0] == P.Handler(m, step.next);
  }

  lemma LicensedMove(s: P.System, h: nat, phase: P.Phase)
    requires h < |s.handlers|
    ensures P.License(P.Move(s, h, phase), h).records == s.records
    ensures P.License(P.Move(s, h, phase), h).handlers == s.handlers[h := s.handlers[h].(phase := phase)]
  {
  }

  lemma PutFrame(s: P.System, j: JobId, r: JobRecord)
    ensures P.Put(s, j, r).records == s.records[j := r] && P.Put(s, j, r).handlers == s.handlers
  {
  }

  lemma MoveFrame(s: P.System, h: nat, phase: P.Phase)
    requires h < |s.handlers|
    ensures P.Move(s, h, phase).records == s.records
    ensures P.Move(s, h, phase).handlers == s.handlers[h := s.handlers[h].(phase := phase)]
  {
  }

  /** What a claim does to the tables and to its own handler. */
  function ClaimEffect(view: View, m: Message, snapshot: Job, payloadOk: bool, fault: bool,
                       now: Time): (View, P.Phase)
  {
    if !P.HandlerAccepts(m, snapshot) || fault then (view, P.Raised)
    else if m.job !in view then (view, P.Halted)
    else
      match P.ClaimFor(view[m.job], m, snapshot, now)
      case Owned(r) => (view[m.job := r], P.AfterClaim(m, snapshot, r.job, payloadOk))
      case Resumed => (view, P.AfterClaim(m, snapshot, snapshot, payloadOk))
      case Stale => (view, P.Halted)
      case _ => (view, P.Surfaced)
  }

  /** A claim looks at its own handler and the records only. */
  lemma ClaimIsLocal(s: P.System, h: nat, payloadOk: bool, fault: bool, now: Time)
    requires h < |s.handlers| && s.handlers[h].phase.Entered?
    ensures
      var m, snapshot := s.handlers[h].m, s.handlers[h].phase.snapshot;
      var (view, phase) := ClaimEffect(s.records, m, snapshot, payloadOk, fault, now);
      var t := P.NextClaim(s, h, payloadOk, fault, now);
      t.records == view && t.handlers == s.handlers[h := P.Handler(m, phase)]
  {
    hide P.ClaimFor, P.HandlerAccepts, P.AfterClaim, P.Put, P.Move, P.License;
    var m, snapshot := s.handlers[h].m, s.handlers[h].phase.snapshot;
    var (view, phase) := ClaimEffect(s.records, m, snapshot, payloadOk, fault, now);
    MoveFrame(s, h, phase);
    LicensedMove(s, h, phase);
    if m.job in s.records && P.ClaimFor(s.records[m.job], m, snapshot, now).Owned? {
      var r := P.ClaimFor(s.records[m.job], m, snapshot, now).record;
      PutFrame(s, m.job, r);
      LicensedMove(P.Put(s, m.job, r), h, phase);
    }
  }

  lemma ClaimEmbeds(s: P.System, h: nat, m: Message, step: Step)
    requires Fits(s, h, m, step) && step.action.Claim? && step.phase.Entered?
    ensures Embedded(s, h, m, step)
  {
    hide P.NextClaim, P.NextNotImplemented;
    var small := SystemAt(s.policy, step.view, step.ids, m, step.phase);
    assert small.handlers[0] == P.Handler(m, step.phase);
    assert P.Next(small, step.action).handlers[0] == P.Handler(m, step.next);
    ClaimIsLocal(small, 0, step.action.payloadOk, step.action.fault, step.action.now);
    ClaimIsLocal(s, h, step.action.payloadOk, step.action.fault, step.action.now);
    hide ClaimEffect;
  }

  lemma UnhandledEmbeds(s: P.System, h: nat, m: Message, step: Step)
    requires Fits(s, h, m, step) && step.action.Claim? && step.phase.Unhandled?
    ensures Embedded(s, h, m, step)
  {
    hide P.NextClaim, NotImplemented, P.MessagesOf;
    var small := SystemAt(s.policy, step.view, step.ids, m, step.phase);
    assert small.handlers[0] == P.Handler(m, step.phase);
    assert P.Next(small, step.action).handlers[0] == P.Handler(m, step.next);
  }

  lemma CallEmbeds(s: P.System, h: nat, m: Message, step: Step)
    requires Fits(s, h, m, step) && step.action.Call?
    ensures Embedded(s, h, m, step)
  {
    hide P.Decide;
    var small := SystemAt(s.policy, step.view, step.ids, m, step.phase);
    assert small.handlers[0] == P.Handler(m, step.phase);
    assert P.Next(small, step.action).handlers[0] == P.Handler(m, step.next);
  }

  lemma CommitEmbeds(s: P.System, h: nat, m: Message, step: Step)
    requires Fits(s, h, m, step) && (step.action.Commit? || step.action.RecoverCommit?)
    ensures Embedded(s, h, m, step)
  {
    hide P.Execute, Records.Recover, P.AfterError;
    var small := SystemAt(s.policy, step.view, step.ids, m, step.phase);
    assert small.handlers[0] == P.Handler(m, step.phase);
    assert P.Next(small, step.action).handlers[0] == P.Handler(m, step.next);
  }

  /** A faithful step is a step of every protocol state with the same tables in which this delivery is one
      handler among any others, and it leads to the same tables and phase there. */
  lemma StepOfTheWholeSystem(s: P.System, h: nat, m: Message, step: Step)
    requires Fits(s, h, m, step)
    ensures Embedded(s, h, m, step)
  {
    match step.action
    case Claim(_, _, _, _) =>
      if step.phase.Entered? { ClaimEmbeds(s, h, m, step); } else { UnhandledEmbeds(s, h, m, step); }
    case Call(_, _, _, _) => CallEmbeds(s, h, m, step);
    case Commit(_, _, _, _, _) => CommitEmbeds(s, h, m, step);
    case RecoverCommit(_, _, _, _) => CommitEmbeds(s, h, m, step);
    case ReadAttempt(_, _) => RoutingEmbeds(s, h, m, step);
    case _ => ReadsEmbed(s, h, m, step);
  }

  // ----- the surroundings

  /** What one delivery meets: stored payload, provider, database errors and clock. `files` are the
      assets saved from the provider's result. */
  datatype World = World(
    noteFault: bool, payloadOk: bool, claimFault: bool, answer: P.Answer, fault: bool, secondFault: bool,
    files: seq<AssetId>, claimAt: Time, answerAt: Time, retryAt: Time, commitAt: Time, secondAt: Time,
    recoveryFault: bool, recoverAt: Time)

  /** Other processes work on the tables. */
  method Elapse(store: Store)
    requires store.Valid()
    modifies store
    ensures store.Valid()
  {
  }

  /** A new identifier is one that no row has. */
  method DrawDispatchId(store: Store) returns (d: DispatchId)
    ensures d !in store.dispatches
  {
    ghost var free := Unissued(store.dispatches.Keys);
    assert free !in store.dispatches;
    d :| d !in store.dispatches;
  }

  method DrawGenerationId(store: Store) returns (g: GenerationId)
    ensures g !in store.generations
  {
    ghost var free := Unissued(store.generations.Keys);
    assert free !in store.generations;
    g :| g !in store.generations;
  }

  // ----- single steps

  /** The phase after a claim that was attempted. */
  function AfterAnswer(m: Message, snapshot: Job, result: ClaimResult, payloadOk: bool): P.Phase {
    match result
    case Claimed(job) => P.AfterClaim(m, snapshot, job, payloadOk)
    case Resume => P.AfterClaim(m, snapshot, snapshot, payloadOk)
    case Refused(Stale) => P.Halted
    case Refused(_) => P.Surfaced
  }

  lemma RaisedClaim(policy: Policy, m: Message, snapshot: Job, view: View, ids: set<DispatchId>, payloadOk: bool,
                    fault: bool, now: Time)
    requires fault || !P.HandlerAccepts(m, snapshot)
    ensures Faithful(policy, m, Step(view, ids, P.Entered(snapshot), P.Claim(0, payloadOk, fault, now), view, P.Raised))
  {
  }

  lemma MissingClaim(policy: Policy, m: Message, snapshot: Job, view: View, ids: set<DispatchId>, payloadOk: bool,
                     now: Time)
    requires P.HandlerAccepts(m, snapshot) && m.job !in view
    ensures Faithful(policy, m, Step(view, ids, P.Entered(snapshot), P.Claim(0, payloadOk, false, now), view, P.Halted))
  {
  }

  lemma AnsweredClaim(policy: Policy, m: Message, snapshot: Job, view: View, ids: set<DispatchId>, payloadOk: bool,
                      now: Time, result: ClaimResult)
    requires P.HandlerAccepts(m, snapshot) && m.job in view
    requires match P.ClaimFor(view[m.job], m, snapshot, now)
             case Owned(r) => result == Claimed(r.job)
             case Resumed => result == Resume
             case answer => result == Refused(answer)
    ensures
      var answer := P.ClaimFor(view[m.job], m, snapshot, now);
      Faithful(policy, m, Step(view, ids, P.Entered(snapshot), P.Claim(0, payloadOk, false, now),
                               if answer.Owned? then view[m.job := answer.record] else view,
                               AfterAnswer(m, snapshot, result, payloadOk)))
  {
  }

  /** The provider call changes no table. */
  lemma CallStep(policy: Policy, m: Message, phase: P.Phase, view: View, ids: set<DispatchId>, answer: P.Answer,
                 now: Time, later: Time)
    requires phase.Claimed? && (m.stage in {VideoPoll, AssetImport} ==> phase.snapshot.task.Some?)
    ensures
      var (plan, guarded) := P.Decide(policy, m, phase.snapshot, answer, now, later);
      Faithful(policy, m, Step(view, ids, phase, P.Call(0, answer, now, later), view,
                               P.Called(phase.snapshot, phase.base, plan, guarded)))
  {
  }

  /** The phase after a transaction that ended as `out`. */
  function AfterCommit(policy: Policy, m: Message, phase: P.Phase, out: Outcome<Job>, now: Time): P.Phase
    requires phase.Called? && (m.stage in {VideoPoll, AssetImport} ==> phase.snapshot.task.Some?)
  {
    match out
    case Ok(_) => if phase.plan.PlanRecord? then P.Raised else P.Halted
    case Err(error) => P.AfterError(policy, m, phase, error, now)
  }

  /** A database error during the transaction and a result without assets are the protocol's fault. */
  predicate Faulted(out: Outcome<Job>) {
    out == Err(DatabaseFault) || out == Err(NoAsset)
  }

  lemma CommitStep(policy: Policy, m: Message, phase: P.Phase, view: View, ids: set<DispatchId>, d: DispatchId,
                   g: GenerationId, now: Time, ending: Outcome<JobRecord>, after: View)
    requires phase.Called? && (m.stage in {VideoPoll, AssetImport} ==> phase.snapshot.task.Some?) && d !in ids
    requires Faulted(Verdict(ending)) ||
             ending == if m.job in view then P.Execute(view[m.job], m, phase.base, phase.plan, d, g, now)
                       else Err(JobMissing)
    requires after == After(view, m.job, ending)
    ensures Faithful(policy, m, Step(view, ids, phase, P.Commit(0, d, g, Faulted(Verdict(ending)), now), after,
                                     AfterCommit(policy, m, phase, Verdict(ending), now)))
  {
  }

  /** The step is the transaction planned in `phase`, committed or not. */
  predicate Executed(m: Message, phase: P.Phase, now: Time, step: Step)
    requires phase.Called?
  {
    && step.action.Commit? && step.action.now == now
    && (step.after != step.view ==>
          && m.job in step.view && m.job in step.after
          && P.Execute(step.view[m.job], m, phase.base, phase.plan, step.action.d, step.action.g, now) ==
             Ok(step.after[m.job]))
  }

  /** The outbox row a step wrote waits for the delay after this attempt; only a finished video is imported at
      once. */
  predicate WaitsAsTold(policy: Policy, m: Message, step: Step, rows: map<DispatchId, Dispatch>) {
    step.action.Commit? && step.after != step.view && m.job in step.view && m.job in step.after &&
    step.after[m.job].works != step.view[m.job].works ==>
      var d := step.action.d;
      && d in rows && d in step.after[m.job].works && rows[d].job == m.job && rows[d].work == step.after[m.job].works[d]
      && rows[d].status == Pending && rows[d].token.None? && rows[d].attemptCount == 0
      && rows[d].availableAt == step.action.now + (if m.stage == VideoPoll && rows[d].work.stage == AssetImport then 0
                                                   else Micros(policy.DelaySeconds(m.attempt)))
  }

  lemma CommitExecuted(m: Message, phase: P.Phase, view: View, ids: set<DispatchId>, d: DispatchId, g: GenerationId,
                       now: Time, ending: Outcome<JobRecord>, after: View, step: Step)
    requires phase.Called? && after == After(view, m.job, ending)
    requires Faulted(Verdict(ending)) ||
             ending == if m.job in view then P.Execute(view[m.job], m, phase.base, phase.plan, d, g, now)
                       else Err(JobMissing)
    requires step == Step(view, ids, phase, P.Commit(0, d, g, Faulted(Verdict(ending)), now), after, step.next)
    ensures Executed(m, phase, now, step)
    ensures ending.Err? ==> step.after == step.view
  {
    hide P.Execute;
  }

  lemma EndsFaultedOrDone(fault: bool, done: Outcome<JobRecord>)
    ensures Faulted(Verdict(Ending(fault, done))) || Ending(fault, done) == done
    ensures Verdict(Ending(fault, done)).Ok? <==> Ending(fault, done).Ok?
  {
  }

  lemma CommitWaits(policy: Policy, m: Message, phase: P.Phase, now: Time, step: Step, rows: map<DispatchId, Dispatch>)
    requires phase.Called? && Executed(m, phase, now, step)
    requires
      phase.plan.PlanSchedule? && step.after != step.view ==>
        var next := phase.plan.next;
        var delay := if m.stage != VideoPoll || next != AssetImport then Micros(policy.DelaySeconds(m.attempt)) else 0;
        step.action.d in rows &&
        rows[step.action.d] == NewDispatch(m.job, Work(next, m.attempt + 1), now + delay, now)
    ensures WaitsAsTold(policy, m, step, rows)
  {
    hide P.Execute, RowMoves, Closes, Micros, Policy.DelaySeconds;
    if step.after != step.view {
      PlanWrites(step.view[m.job], m, phase.base, phase.plan, step.action.d, step.action.g, now, step.after[m.job]);
    }
  }

  /** What a committed step of each handler may be. */
  predicate SubmitStep(m: Message, snapshot: Job, w: World, again: bool, step: Step) {
    step.action.Commit? && step.after != step.view ==>
      && m.job in step.view && m.job in step.after
      && SubmitOutcome(m, snapshot, w.payloadOk, w.answer, again, step.view[m.job], step.action.d, step.action.now,
                       step.after[m.job])
  }

  predicate PollStep(policy: Policy, m: Message, snapshot: Job, w: World, step: Step) {
    step.action.Commit? && step.after != step.view ==>
      && m.job in step.view && m.job in step.after
      && PollOutcome(policy, m, snapshot, w.answer, w.answerAt, w.retryAt, step.view[m.job], step.action.d,
                     step.action.now, step.after[m.job])
  }

  predicate ImportStep(policy: Policy, m: Message, snapshot: Job, w: World, again: Option<Time>, step: Step) {
    step.action.Commit? && step.after != step.view ==>
      && m.job in step.view && m.job in step.after
      && ImportOutcome(policy, m, snapshot, w.answer, w.answerAt, again, step.view[m.job], step.action.d,
                       step.action.g, step.action.now, step.after[m.job])
  }

  predicate ImageStep(m: Message, w: World, again: bool, step: Step) {
    step.action.Commit? && step.after != step.view ==>
      && m.job in step.view && m.job in step.after
      && ImageOutcome(m, w.payloadOk, w.answer, again, step.view[m.job], step.action.g, step.action.now,
                      step.after[m.job])
  }

  lemma PollStepLeads(policy: Policy, m: Message, snapshot: Job, w: World, phase: P.Phase, now: Time, step: Step)
    requires m.stage == VideoPoll && snapshot.task.Some? && phase.Called? && Executed(m, phase, now, step)
    requires phase.plan == P.Decide(policy, m, snapshot, w.answer, w.answerAt, w.retryAt).0
    ensures PollStep(policy, m, snapshot, w, step)
  {
    hide P.Execute, P.Decide, PollOutcome;
    if step.after != step.view {
      PollLeads(policy, m, snapshot, w.answer, w.answerAt, w.retryAt, step.view[m.job], phase.base, step.action.d,
                step.action.g, now, step.after[m.job]);
    }
  }

  lemma ImportStepLeads(policy: Policy, m: Message, snapshot: Job, w: World, phase: P.Phase, now: Time, step: Step)
    requires m.stage == AssetImport && snapshot.task.Some? && phase.Called? && Executed(m, phase, now, step)
    requires phase.plan == P.Decide(policy, m, snapshot, w.answer, w.answerAt, w.retryAt).0
    ensures ImportStep(policy, m, snapshot, w, None, step)
  {
    hide P.Execute, P.Decide, ImportOutcome;
    if step.after != step.view {
      ImportLeads(policy, m, snapshot, w.answer, w.answerAt, w.retryAt, step.view[m.job], phase.base, step.action.d,
                  step.action.g, now, step.after[m.job]);
    }
  }

  lemma ImportAgainLeads(policy: Policy, m: Message, snapshot: Job, w: World, phase: P.Phase, at: Time, now: Time,
                         step: Step)
    requires m.stage == AssetImport && snapshot.task.Some? && phase.Called? && Executed(m, phase, now, step)
    requires phase.plan == P.RetryPlan(policy, m, snapshot, snapshot.task.value, at)
    ensures ImportStep(policy, m, snapshot, w, Some(at), step)
  {
    hide P.Execute, P.RetryPlan, RetriedOutcome;
    if step.after != step.view {
      RetryLeads(policy, m, snapshot, at, step.view[m.job], phase.base, step.action.d, step.action.g, now,
                 step.after[m.job]);
    }
  }

  lemma PlanLeads(m: Message, snapshot: Job, w: World, again: bool, phase: P.Phase, now: Time, step: Step)
    requires phase.Called? && Executed(m, phase, now, step)
    ensures m.stage == VideoSubmit && !w.payloadOk && phase.plan.PlanFail? ==> SubmitStep(m, snapshot, w, again, step)
    ensures m.stage == VideoSubmit && w.payloadOk && snapshot.task.None? && again ==>
              w.answer.Accepted? && phase.plan == P.PlanRecord(w.answer.task) ==> SubmitStep(m, snapshot, w, true, step)
    ensures phase.plan.PlanFail? && (again || !w.payloadOk || !w.answer.Completed?) ==> ImageStep(m, w, again, step)
    ensures phase.plan.PlanSucceed? && !again && w.payloadOk && w.answer.Completed? ==> ImageStep(m, w, false, step)
  {
    hide P.Execute, EndsFailed, EndsWell, KeepsTheTask;
    if step.after != step.view {
      PlanWrites(step.view[m.job], m, phase.base, phase.plan, step.action.d, step.action.g, now, step.after[m.job]);
    }
  }

  lemma SubmitStepLeads(policy: Policy, m: Message, snapshot: Job, w: World, phase: P.Phase, now: Time, step: Step)
    requires m.stage == VideoSubmit && w.payloadOk && phase.Called? && Executed(m, phase, now, step)
    requires phase.plan == P.Decide(policy, m, snapshot, w.answer, w.answerAt, w.retryAt).0
    ensures SubmitStep(m, snapshot, w, false, step)
  {
    hide P.Execute, P.Decide, SubmitOutcome;
    if step.after != step.view {
      SubmitLeads(policy, m, snapshot, w.answer, w.answerAt, w.retryAt, step.view[m.job], phase.base, step.action.d,
                  step.action.g, now, step.after[m.job]);
    }
  }

  /** A step that is no transaction of the handler's leaves nothing to say. */
  lemma NoCommit(policy: Policy, m: Message, snapshot: Job, w: World, step: Step, rows: map<DispatchId, Dispatch>)
    requires !step.action.Commit?
    ensures PollStep(policy, m, snapshot, w, step) && WaitsAsTold(policy, m, step, rows)
    ensures forall again :: SubmitStep(m, snapshot, w, again, step) && ImageStep(m, w, again, step)
    ensures forall again :: ImportStep(policy, m, snapshot, w, again, step)
  {
  }

  /** The step just before was a transaction of the handler's that it has to make up for. */
  predicate Again(trace: seq<Step>, i: nat)
    requires i <= |trace|
  {
    i > 0 && trace[i - 1].action.Commit?
  }

  ghost predicate SubmitTrace(m: Message, snapshot: Job, w: World, trace: seq<Step>) {
    forall i :: 0 <= i < |trace| ==> SubmitStep(m, snapshot, w, Again(trace, i), trace[i])
  }

  ghost predicate PollTrace(policy: Policy, m: Message, snapshot: Job, w: World, trace: seq<Step>) {
    forall i :: 0 <= i < |trace| ==> PollStep(policy, m, snapshot, w, trace[i])
  }

  ghost predicate ImportTrace(policy: Policy, m: Message, snapshot: Job, w: World, trace: seq<Step>) {
    forall i :: 0 <= i < |trace| ==>
      ImportStep(policy, m, snapshot, w, if Again(trace, i) then Some(w.commitAt) else None, trace[i])
  }

  ghost predicate ImageTrace(m: Message, w: World, trace: seq<Step>) {
    forall i :: 0 <= i < |trace| ==> ImageStep(m, w, Again(trace, i), trace[i])
  }

  lemma SubmitTraceGrows(m: Message, snapshot: Job, w: World, trace: seq<Step>, step: Step)
    requires SubmitTrace(m, snapshot, w, trace) && SubmitStep(m, snapshot, w, Again(trace, |trace|), step)
    ensures SubmitTrace(m, snapshot, w, trace + [step])
  {
    hide SubmitStep;
    forall i | 0 <= i <= |trace|
      ensures Again(trace + [step], i) == Again(trace, i)
    {
    }
  }

  lemma PollTraceGrows(policy: Policy, m: Message, snapshot: Job, w: World, trace: seq<Step>, step: Step)
    requires PollTrace(policy, m, snapshot, w, trace) && PollStep(policy, m, snapshot, w, step)
    ensures PollTrace(policy, m, snapshot, w, trace + [step])
  {
    hide PollStep;
  }

  lemma ImportTraceGrows(policy: Policy, m: Message, snapshot: Job, w: World, trace: seq<Step>, step: Step)
    requires ImportTrace(policy, m, snapshot, w, trace)
    requires ImportStep(policy, m, snapshot, w, if Again(trace, |trace|) then Some(w.commitAt) else None, step)
    ensures ImportTrace(policy, m, snapshot, w, trace + [step])
  {
    hide ImportStep;
    forall i | 0 <= i <= |trace|
      ensures Again(trace + [step], i) == Again(trace, i)
    {
    }
  }

  lemma ImageTraceGrows(m: Message, w: World, trace: seq<Step>, step: Step)
    requires ImageTrace(m, w, trace) && ImageStep(m, w, Again(trace, |trace|), step)
    ensures ImageTrace(m, w, trace + [step])
  {
    hide ImageStep;
    forall i | 0 <= i <= |trace|
      ensures Again(trace + [step], i) == Again(trace, i)
    {
    }
  }

  /** A claim, or a call, opens or continues a trace of which nothing needs to be said yet. */
  lemma QuietStep(policy: Policy, m: Message, snapshot: Job, w: World, trace: seq<Step>, step: Step,
                  rows: map<DispatchId, Dispatch>)
    requires !step.action.Commit?
    ensures SubmitTrace(m, snapshot, w, trace) ==> SubmitTrace(m, snapshot, w, trace + [step])
    ensures PollTrace(policy, m, snapshot, w, trace) ==> PollTrace(policy, m, snapshot, w, trace + [step])
    ensures ImportTrace(policy, m, snapshot, w, trace) ==> ImportTrace(policy, m, snapshot, w, trace + [step])
    ensures ImageTrace(m, w, trace) ==> ImageTrace(m, w, trace + [step])
    ensures WaitsAsTold(policy, m, step, rows) && !Again(trace + [step], |trace| + 1)
  {
    NoCommit(policy, m, snapshot, w, step, rows);
    hide SubmitStep, PollStep, ImportStep, ImageStep, SubmitTrace, PollTrace, ImportTrace, ImageTrace;
    if SubmitTrace(m, snapshot, w, trace) { SubmitTraceGrows(m, snapshot, w, trace, step); }
    if PollTrace(policy, m, snapshot, w, trace) { PollTraceGrows(policy, m, snapshot, w, trace, step); }
    if ImportTrace(policy, m, snapshot, w, trace) { ImportTraceGrows(policy, m, snapshot, w, trace, step); }
    if ImageTrace(m, w, trace) { ImageTraceGrows(m, w, trace, step); }
  }

  lemma OpenTrace(policy: Policy, m: Message, snapshot: Job, w: World, step: Step, rows: map<DispatchId, Dispatch>)
    requires !step.action.Commit?
    ensures SubmitTrace(m, snapshot, w, [step]) && PollTrace(policy, m, snapshot, w, [step])
    ensures ImportTrace(policy, m, snapshot, w, [step]) && ImageTrace(m, w, [step])
    ensures WaitsAsTold(policy, m, step, rows) && !Again([step], 1)
  {
    QuietStep(policy, m, snapshot, w, [], step, rows);
    assert [] + [step] == [step];
  }

  /** A handler that got this far holds an attempt. */
  predicate Owns(result: Option<ClaimResult>) {
    result.Some? && !result.value.Refused?
  }

  class VideoStages {
    const worker: VideoJobWorker

    constructor (worker: VideoJobWorker)
      ensures this.worker == worker
    {
      this.worker := worker;
    }

    /** Claim the attempt; None stands for an exception. */
    method Claim(store: Store, m: Message, snapshot: Job, w: World)
      returns (result: Option<ClaimResult>, next: P.Phase, ghost step: Step)
      requires store.Valid() && m.stage in {VideoSubmit, VideoPoll, AssetImport}
      modifies store
      ensures store.Valid() && Faithful(worker.policy, m, step) && step.view == old(store.View()) &&
              step.after == store.View()
      ensures step.phase == P.Entered(snapshot) && step.next == next && step.action.Claim?
      ensures result.None? ==> next == P.Raised
      ensures result.Some? ==> P.HandlerAccepts(m, snapshot) &&
                               next == AfterAnswer(m, snapshot, result.value, w.payloadOk)
    {
      hide ViewOf, Referential, ClaimVideo, Faithful;
      ghost var view, ids := store.View(), store.dispatches.Keys;
      if !P.HandlerAccepts(m, snapshot) || w.claimFault {
        RaisedClaim(worker.policy, m, snapshot, view, ids, w.payloadOk, w.claimFault, w.claimAt);
        step := Step(view, ids, P.Entered(snapshot), P.Claim(0, w.payloadOk, w.claimFault, w.claimAt), view, P.Raised);
        return None, P.Raised, step;
      }
      var answer := worker.Claim(store, m, snapshot, w.claimAt);
      result, next := Some(answer), AfterAnswer(m, snapshot, answer, w.payloadOk);
      if m.job !in view {
        MissingClaim(worker.policy, m, snapshot, view, ids, w.payloadOk, w.claimAt);
      } else {
        AnsweredClaim(worker.policy, m, snapshot, view, ids, w.payloadOk, w.claimAt, answer);
      }
      step := Step(view, ids, P.Entered(snapshot), P.Claim(0, w.payloadOk, false, w.claimAt), store.View(), next);
    }

    /** Run the transaction a plan names. */
    method Commit(store: Store, m: Message, phase: P.Phase, w: World, fault: bool, now: Time)
      returns (out: Outcome<Job>, ghost step: Step)
      requires store.Valid() && m.stage in {VideoSubmit, VideoPoll, AssetImport}
      requires phase.Called? && (m.stage in {VideoPoll, AssetImport} ==> phase.snapshot.task.Some?)
      modifies store
      ensures store.Valid() && Faithful(worker.policy, m, step) && step.view == old(store.View()) &&
              step.after == store.View()
      ensures step.phase == phase && step.action.Commit? && step.next == AfterCommit(worker.policy, m, phase, out, now)
      ensures Executed(m, phase, now, step) && WaitsAsTold(worker.policy, m, step, store.dispatches)
    {
      hide Store.Valid, Store.View, Faithful, WaitsAsTold, Executed, P.Execute, After, Ending, Verdict;
      ghost var view, ids := store.View(), store.dispatches.Keys;
      var d := DrawDispatchId(store);
      var g := DrawGenerationId(store);
      out := Perform(store, m, phase, w, d, g, fault, now);
      ghost var done := if m.job in view then P.Execute(view[m.job], m, phase.base, phase.plan, d, g, now)
                        else Err(JobMissing);
      ghost var ending := Ending(fault, done);
      EndsFaultedOrDone(fault, done);
      CommitStep(worker.policy, m, phase, view, ids, d, g, now, ending, store.View());
      step := Step(view, ids, phase, P.Commit(0, d, g, Faulted(out), now), store.View(),
                   AfterCommit(worker.policy, m, phase, out, now));
      CommitExecuted(m, phase, view, ids, d, g, now, ending, store.View(), step);
      CommitWaits(worker.policy, m, phase, now, step, store.dispatches);
    }

    /** The worker's transaction for the plan. */
    method Perform(store: Store, m: Message, phase: P.Phase, w: World, d: DispatchId, g: GenerationId, fault: bool,
                   now: Time)
      returns (out: Outcome<Job>)
      requires store.Valid() && phase.Called? && m.stage != ImageGenerate
      requires d !in store.dispatches && g !in store.generations
      modifies store
      ensures Settled(store, m.job, Ending(fault,
                if m.job in old(store.View())
                then P.Execute(old(store.View())[m.job], m, phase.base, phase.plan, d, g, now)
                else Err(JobMissing)), out)
      ensures phase.plan.PlanSchedule? && out.Ok? ==>
                var next := phase.plan.next;
                var delay := if m.stage != VideoPoll || next != AssetImport
                             then Micros(worker.policy.DelaySeconds(m.attempt)) else 0;
                store.dispatches ==
                  old(store.dispatches)[d := NewDispatch(m.job, Work(next, m.attempt + 1), now + delay, now)]
    {
      hide Store.Valid, Store.View, Records.Fail, Records.Schedule, Records.Succeed, RecordSubmitted, Ending, Settled;
      match phase.plan {
        case PlanFail =>
          out := worker.Fail(store, m, phase.base.version, fault, now);
        case PlanSchedule(next, task, closing) =>
          var delay := m.stage != VideoPoll || next != AssetImport;
          out := worker.Schedule(store, m, phase.base.version, next, task, closing, delay, d, fault, now);
        case PlanRecord(task) =>
          out := worker.RecordSubmittedRecovery(store, m, phase.base.version, task, fault, now);
        case PlanSucceed =>
          out := worker.FinalizeImported(store, m, phase.base.version, g, w.files, fault, now);
      }
    }

    /** A call to the provider that answered, and the decision it led to. */
    ghost method NoteCall(m: Message, phase: P.Phase, w: World, view: View, ids: set<DispatchId>) returns (step: Step)
      requires phase.Claimed? && (m.stage in {VideoPoll, AssetImport} ==> phase.snapshot.task.Some?)
      ensures Faithful(worker.policy, m, step) && step.phase == phase && step.action.Call?
      ensures var (plan, guarded) := P.Decide(worker.policy, m, phase.snapshot, w.answer, w.answerAt, w.retryAt);
              step.next == P.Called(phase.snapshot, phase.base, plan, guarded)
    {
      var (plan, guarded) := P.Decide(worker.policy, m, phase.snapshot, w.answer, w.answerAt, w.retryAt);
      CallStep(worker.policy, m, phase, view, ids, w.answer, w.answerAt, w.retryAt);
      step := Step(view, ids, phase, P.Call(0, w.answer, w.answerAt, w.retryAt), view,
                   P.Called(phase.snapshot, phase.base, plan, guarded));
    }

    /** Submit once. A payload that does not parse fails the job; a task that is already known goes
        straight to polling; an accepted submit schedules the poll, and if that cannot be written the
        task is recorded and the error raised again. */
    method HandleSubmit(store: Store, m: Message, snapshot: Job, w: World)
      returns (end: P.Phase, submits: nat, ghost trace: seq<Step>)
      requires store.Valid() && m.stage == VideoSubmit
      modifies store
      ensures store.Valid() && Traced(worker.policy, m, trace, P.Entered(snapshot), end)
      ensures submits == BillableCalls(m, trace) && submits <= 1
      ensures trace != [] && submits == if trace[0].next.Claimed? && snapshot.task.None? then 1 else 0
      ensures end.Halted? || end.Raised? || end.Surfaced?
      ensures SubmitTrace(m, snapshot, w, trace)
      ensures WaitsAsTold(worker.policy, m, trace[|trace| - 1], store.dispatches)
    {
      hide Store.Valid, Store.View, Faithful, Traced, BillableCalls, P.HandlerAccepts, Executed, WaitsAsTold;
      hide SubmitTrace, SubmitStep, PollTrace, ImportTrace, ImageTrace, ImageStep;
      var claim, phase;
      ghost var step;
      claim, phase, step := Claim(store, m, snapshot, w);
      Begin(worker.policy, m, step);
      trace, submits := [step], 0;
      OpenTrace(worker.policy, m, snapshot, w, step, store.dispatches);
      if !Owns(claim) {
        return phase, 0, trace;
      }
      var base := if claim.value.Claimed? then claim.value.job else snapshot;
      ghost var before := trace;
      if !w.payloadOk {
        end, trace, step := CommitLast(store, m, phase, w, trace, P.Entered(snapshot));
        PlanLeads(m, snapshot, w, false, phase, w.secondAt, step);
        SubmitTraceGrows(m, snapshot, w, before, step);
        return end, 0, trace;
      }
      var plan;
      if snapshot.task.Some? {
        plan := P.PlanSchedule(VideoPoll, snapshot.task.value, Succeeded);
      } else {
        submits := 1;
        plan := if w.answer.Accepted? then P.PlanSchedule(VideoPoll, w.answer.task, Succeeded) else P.PlanFail;
      }
      var guarded := snapshot.task.None? && w.answer.Accepted?;
      step := NoteCall(m, phase, w, store.View(), store.dispatches.Keys);
      Extend(worker.policy, m, trace, P.Entered(snapshot), step);
      QuietStep(worker.policy, m, snapshot, w, trace, step, store.dispatches);
      trace := trace + [step];
      before := trace;
      phase := P.Called(snapshot, base, plan, guarded);
      if !guarded {
        end, trace, step := CommitLast(store, m, phase, w, trace, P.Entered(snapshot));
        SubmitStepLeads(worker.policy, m, snapshot, w, phase, w.secondAt, step);
        SubmitTraceGrows(m, snapshot, w, before, step);
        return end, submits, trace;
      }
      end, trace := CommitSubmit(store, m, phase, w, trace, P.Entered(snapshot));
    }

    /** Schedule the first poll of an accepted task. If that cannot be written, unless a newer version is why,
        keep the task at least. */
    method CommitSubmit(store: Store, m: Message, phase: P.Phase, w: World, ghost before: seq<Step>,
                        ghost first: P.Phase)
      returns (end: P.Phase, ghost trace: seq<Step>)
      requires store.Valid() && m.stage == VideoSubmit && phase.Called? && phase.guarded && w.payloadOk
      requires phase.snapshot.task.None? && w.answer.Accepted?
      requires phase.plan == P.Decide(worker.policy, m, phase.snapshot, w.answer, w.answerAt, w.retryAt).0
      requires Traced(worker.policy, m, before, first, phase)
      requires SubmitTrace(m, phase.snapshot, w, before) && !Again(before, |before|)
      modifies store
      ensures store.Valid() && Traced(worker.policy, m, trace, first, end)
      ensures BillableCalls(m, trace) == BillableCalls(m, before)
      ensures end.Halted? || end.Raised?
      ensures |trace| > |before| && trace[..|before|] == before && SubmitTrace(m, phase.snapshot, w, trace)
      ensures WaitsAsTold(worker.policy, m, trace[|trace| - 1], store.dispatches)
    {
      hide Store.Valid, Store.View, Faithful, Traced, BillableCalls, Executed, WaitsAsTold, SubmitTrace, SubmitStep;
      var out;
      ghost var step;
      Elapse(store);
      out, step := Commit(store, m, phase, w, w.fault, w.commitAt);
      Extend(worker.policy, m, before, first, step);
      SubmitStepLeads(worker.policy, m, phase.snapshot, w, phase, w.commitAt, step);
      SubmitTraceGrows(m, phase.snapshot, w, before, step);
      trace := before + [step];
      if out.Ok? || out.error == StaleVersion {
        return P.Halted, trace;
      }
      ghost var tried := trace;
      var recording := P.Called(phase.snapshot, phase.base, P.PlanRecord(phase.plan.task), false);
      end, trace, step := CommitLast(store, m, recording, w, trace, first);
      PlanLeads(m, phase.snapshot, w, true, recording, w.secondAt, step);
      SubmitTraceGrows(m, phase.snapshot, w, tried, step);
    }

    /** A transaction outside every try block: it commits, or its error leaves the handler. */
    method CommitLast(store: Store, m: Message, phase: P.Phase, w: World, ghost before: seq<Step>, ghost first: P.Phase)
      returns (end: P.Phase, ghost trace: seq<Step>, ghost step: Step)
      requires store.Valid() && m.stage in {VideoSubmit, VideoPoll, AssetImport}
      requires phase.Called? && !phase.guarded && (m.stage in {VideoPoll, AssetImport} ==> phase.snapshot.task.Some?)
      requires !phase.plan.PlanSucceed?
      requires Traced(worker.policy, m, before, first, phase)
      modifies store
      ensures store.Valid() && Traced(worker.policy, m, trace, first, end)
      ensures BillableCalls(m, trace) == BillableCalls(m, before)
      ensures end.Halted? || end.Raised?
      ensures trace == before + [step] && Executed(m, phase, w.secondAt, step)
      ensures WaitsAsTold(worker.policy, m, step, store.dispatches)
    {
      hide Store.Valid, Store.View, ViewOf, Referential, Faithful, Traced, BillableCalls, Executed, WaitsAsTold;
      Elapse(store);
      var out;
      out, step := Commit(store, m, phase, w, w.secondFault, w.secondAt);
      Extend(worker.policy, m, before, first, step);
      trace := before + [step];
      end := if out.Ok? && !phase.plan.PlanRecord? then P.Halted else P.Raised;
    }

    /** The plan after a step that may be tried again. */
    method Retry(m: Message, snapshot: Job, task: TaskId, now: Time) returns (plan: P.Plan)
      ensures plan == P.RetryPlan(worker.policy, m, snapshot, task, now)
    {
      if worker.policy.Exhausted(m.attempt, snapshot.startedAt, now) {
        return P.PlanFail;
      }
      plan := P.PlanSchedule(m.stage, task, Failed);
    }

    method AfterPoll(m: Message, snapshot: Job, w: World) returns (plan: P.Plan)
      requires m.stage == VideoPoll && snapshot.task.Some?
      ensures (plan, false) == P.Decide(worker.policy, m, snapshot, w.answer, w.answerAt, w.retryAt) &&
              !plan.PlanSucceed?
    {
      var task := snapshot.task.value;
      if worker.policy.Exhausted(m.attempt, snapshot.startedAt, w.answerAt) {
        plan := P.PlanFail;
      } else if w.answer.Disabled? || w.answer.ProviderFailed? {
        plan := P.PlanFail;
      } else if w.answer.Completed? {
        plan := P.PlanSchedule(AssetImport, task, Succeeded);
      } else if w.answer.Pending? {
        plan := P.PlanSchedule(VideoPoll, task, Succeeded);
      } else {
        plan := Retry(m, snapshot, task, w.retryAt);
      }
    }

    /** Ask once how the task is doing, unless the pipeline ran out of attempts or time. */
    method HandlePoll(store: Store, m: Message, snapshot: Job, w: World)
      returns (end: P.Phase, ghost trace: seq<Step>)
      requires store.Valid() && m.stage == VideoPoll
      modifies store
      ensures store.Valid() && Traced(worker.policy, m, trace, P.Entered(snapshot), end) && BillableCalls(m, trace) == 0
      ensures end.Halted? || end.Raised? || end.Surfaced?
      ensures PollTrace(worker.policy, m, snapshot, w, trace)
      ensures trace != [] && WaitsAsTold(worker.policy, m, trace[|trace| - 1], store.dispatches)
    {
      hide Store.Valid, Store.View, Faithful, Traced, BillableCalls, P.Decide, Executed, WaitsAsTold;
      hide PollTrace, PollStep, SubmitTrace, ImportTrace, ImageTrace;
      var claim, phase;
      ghost var step;
      claim, phase, step := Claim(store, m, snapshot, w);
      Begin(worker.policy, m, step);
      trace := [step];
      OpenTrace(worker.policy, m, snapshot, w, step, store.dispatches);
      if !Owns(claim) {
        return phase, trace;
      }
      var base := if claim.value.Claimed? then claim.value.job else snapshot;
      var plan := AfterPoll(m, snapshot, w);
      step := NoteCall(m, phase, w, store.View(), store.dispatches.Keys);
      Extend(worker.policy, m, trace, P.Entered(snapshot), step);
      QuietStep(worker.policy, m, snapshot, w, trace, step, store.dispatches);
      trace := trace + [step];
      ghost var before := trace;
      var called := P.Called(snapshot, base, plan, false);
      end, trace, step := CommitLast(store, m, called, w, trace, P.Entered(snapshot));
      PollStepLeads(worker.policy, m, snapshot, w, called, w.secondAt, step);
      PollTraceGrows(worker.policy, m, snapshot, w, before, step);
    }

    /** What an import attempt leads to, and whether a failure to write it is caught. */
    method AfterImport(m: Message, snapshot: Job, w: World) returns (plan: P.Plan, guarded: bool)
      requires m.stage == AssetImport && snapshot.task.Some?
      ensures (plan, guarded) == P.Decide(worker.policy, m, snapshot, w.answer, w.answerAt, w.retryAt)
      ensures !plan.PlanRecord? && (guarded ==> !plan.PlanSucceed?)
    {
      plan, guarded := P.PlanFail, false;
      match w.answer {
        case Disabled => plan := P.PlanFail;
        case NoUrl => plan := P.PlanFail;
        case Rejected => plan := P.PlanFail;
        case ProviderFailed => guarded := true;
        case Pending =>
          plan := Retry(m, snapshot, snapshot.task.value, w.answerAt);
          guarded := true;
        case Completed => plan := P.PlanSucceed;
        case _ => plan := Retry(m, snapshot, snapshot.task.value, w.answerAt);
      }
    }

    /** Fetch the finished video and finalize the job. A decision that cannot be written inside the
        guarded part turns into a retry; what happens after the import is not guarded. */
    method HandleAssetImport(store: Store, m: Message, snapshot: Job, w: World)
      returns (end: P.Phase, ghost trace: seq<Step>)
      requires store.Valid() && m.stage == AssetImport
      modifies store
      ensures store.Valid() && Traced(worker.policy, m, trace, P.Entered(snapshot), end) && BillableCalls(m, trace) == 0
      ensures end.Halted? || end.Raised? || end.Surfaced?
      ensures ImportTrace(worker.policy, m, snapshot, w, trace)
      ensures trace != [] && WaitsAsTold(worker.policy, m, trace[|trace| - 1], store.dispatches)
    {
      hide Store.Valid, Store.View, Faithful, Traced, BillableCalls, P.Decide, Executed, WaitsAsTold;
      hide ImportTrace, ImportStep, SubmitTrace, PollTrace, ImageTrace;
      var claim, phase;
      ghost var step;
      claim, phase, step := Claim(store, m, snapshot, w);
      Begin(worker.policy, m, step);
      trace := [step];
      OpenTrace(worker.policy, m, snapshot, w, step, store.dispatches);
      if !Owns(claim) {
        return phase, trace;
      }
      var base := if claim.value.Claimed? then claim.value.job else snapshot;
      var plan, guarded := AfterImport(m, snapshot, w);
      step := NoteCall(m, phase, w, store.View(), store.dispatches.Keys);
      Extend(worker.policy, m, trace, P.Entered(snapshot), step);
      QuietStep(worker.policy, m, snapshot, w, trace, step, store.dispatches);
      trace := trace + [step];
      phase := P.Called(snapshot, base, plan, guarded);
      end, trace := CommitImport(store, m, phase, w, trace, P.Entered(snapshot));
    }

    /** How an import ends: an unguarded failure or retry, a guarded one that falls back to a retry, or the
        final transaction, which a newer version beats quietly. */
    method CommitImport(store: Store, m: Message, phase: P.Phase, w: World, ghost before: seq<Step>,
                        ghost first: P.Phase)
      returns (end: P.Phase, ghost trace: seq<Step>)
      requires store.Valid() && m.stage == AssetImport && phase.Called? && phase.snapshot.task.Some?
      requires phase.guarded ==> !phase.plan.PlanSucceed? && !phase.plan.PlanRecord?
      requires Traced(worker.policy, m, before, first, phase)
      requires ImportTrace(worker.policy, m, phase.snapshot, w, before) && !Again(before, |before|)
      requires phase.plan == P.Decide(worker.policy, m, phase.snapshot, w.answer, w.answerAt, w.retryAt).0
      modifies store
      ensures store.Valid() && Traced(worker.policy, m, trace, first, end)
      ensures BillableCalls(m, trace) == BillableCalls(m, before)
      ensures end.Halted? || end.Raised?
      ensures ImportTrace(worker.policy, m, phase.snapshot, w, trace)
      ensures trace != [] && WaitsAsTold(worker.policy, m, trace[|trace| - 1], store.dispatches)
    {
      hide Store.Valid, Store.View, Faithful, Traced, BillableCalls, P.Decide, Executed, WaitsAsTold;
      hide ImportTrace, ImportStep;
      if !phase.guarded && !phase.plan.PlanSucceed? {
        ghost var only;
        end, trace, only := CommitLast(store, m, phase, w, before, first);
        ImportStepLeads(worker.policy, m, phase.snapshot, w, phase, w.secondAt, only);
        ImportTraceGrows(worker.policy, m, phase.snapshot, w, before, only);
        return end, trace;
      }
      var out;
      ghost var step;
      Elapse(store);
      out, step := Commit(store, m, phase, w, w.fault, w.commitAt);
      Extend(worker.policy, m, before, first, step);
      ImportStepLeads(worker.policy, m, phase.snapshot, w, phase, w.commitAt, step);
      ImportTraceGrows(worker.policy, m, phase.snapshot, w, before, step);
      trace := before + [step];
      if out.Ok? {
        return P.Halted, trace;
      }
      if phase.plan.PlanSucceed? {
        return if out.error == StaleVersion then P.Halted else P.Raised, trace;
      }
      var plan := Retry(m, phase.snapshot, phase.snapshot.task.value, w.commitAt);
      ghost var tried := trace;
      var called := P.Called(phase.snapshot, phase.base, plan, false);
      end, trace, step := CommitLast(store, m, called, w, trace, first);
      ImportAgainLeads(worker.policy, m, phase.snapshot, w, called, w.commitAt, w.secondAt, step);
      ImportTraceGrows(worker.policy, m, phase.snapshot, w, tried, step);
    }
  }

  class ImageStage {
    const policy: Policy
    const worker: ImageJobWorker

    constructor (policy: Policy, worker: ImageJobWorker)
      ensures this.policy == policy && this.worker == worker
    {
      this.policy, this.worker := policy, worker;
    }

    method Claim(store: Store, m: Message, snapshot: Job, w: World)
      returns (result: Option<ClaimResult>, next: P.Phase, ghost step: Step)
      requires store.Valid() && m.stage == ImageGenerate
      modifies store
      ensures store.Valid() && Faithful(policy, m, step) && step.view == old(store.View()) && step.after == store.View()
      ensures step.phase == P.Entered(snapshot) && step.next == next && step.action.Claim?
      ensures result.None? ==> next == P.Raised
      ensures result.Some? ==> next == AfterAnswer(m, snapshot, result.value, w.payloadOk) && !result.value.Resume?
    {
      hide ViewOf, Referential, ClaimImage, Faithful;
      ghost var view, ids := store.View(), store.dispatches.Keys;
      if snapshot.kind != Image || w.claimFault {
        RaisedClaim(policy, m, snapshot, view, ids, w.payloadOk, w.claimFault, w.claimAt);
        step := Step(view, ids, P.Entered(snapshot), P.Claim(0, w.payloadOk, w.claimFault, w.claimAt), view, P.Raised);
        return None, P.Raised, step;
      }
      var answer := worker.Claim(store, m, snapshot, w.claimAt);
      result, next := Some(answer), AfterAnswer(m, snapshot, answer, w.payloadOk);
      if m.job !in view {
        MissingClaim(policy, m, snapshot, view, ids, w.payloadOk, w.claimAt);
      } else {
        ImageNeverResumes(view[m.job], m, snapshot, w.claimAt);
        AnsweredClaim(policy, m, snapshot, view, ids, w.payloadOk, w.claimAt, answer);
      }
      step := Step(view, ids, P.Entered(snapshot), P.Claim(0, w.payloadOk, false, w.claimAt), store.View(), next);
    }

    method Commit(store: Store, m: Message, phase: P.Phase, w: World, fault: bool, now: Time)
      returns (out: Outcome<Job>, ghost step: Step)
      requires store.Valid() && m.stage == ImageGenerate && phase.Called? &&
               (phase.plan.PlanSucceed? || phase.plan.PlanFail?)
      modifies store
      ensures store.Valid() && Faithful(policy, m, step) && step.view == old(store.View()) && step.after == store.View()
      ensures step.phase == phase && step.action.Commit? && step.next == AfterCommit(policy, m, phase, out, now)
      ensures Executed(m, phase, now, step)
    {
      hide Store.Valid, ViewOf, Referential, Faithful, Executed, Records.Fail, Records.Succeed;
      ghost var view, ids := store.View(), store.dispatches.Keys;
      var g := DrawGenerationId(store);
      ghost var d := Unissued(ids);
      ghost var done := if m.job in view then P.Execute(view[m.job], m, phase.base, phase.plan, d, g, now)
                        else Err(JobMissing);
      ghost var ending := Ending(fault, if phase.plan.PlanSucceed? && w.files == [] then Err(NoAsset) else done);
      if phase.plan.PlanSucceed? {
        out := worker.PersistSuccess(store, m, phase.base.version, g, w.files, fault, now);
      } else {
        out := worker.PersistFailure(store, m, phase.base.version, fault, now);
      }
      CommitStep(policy, m, phase, view, ids, d, g, now, ending, store.View());
      step := Step(view, ids, phase, P.Commit(0, d, g, Faulted(out), now), store.View(),
                   AfterCommit(policy, m, phase, out, now));
      CommitExecuted(m, phase, view, ids, d, g, now, ending, store.View(), step);
    }

    /** Execute once and keep the result, or the failure. A payload that does not parse fails the job
        without executing it. */
    method Handle(store: Store, m: Message, snapshot: Job, w: World)
      returns (end: P.Phase, executions: nat, ghost trace: seq<Step>)
      requires store.Valid() && m.stage == ImageGenerate
      modifies store
      ensures store.Valid() && Traced(policy, m, trace, P.Entered(snapshot), end)
      ensures executions == BillableCalls(m, trace) && executions <= 1
      ensures trace != [] && executions == if trace[0].next.Claimed? then 1 else 0
      ensures end.Halted? || end.Raised? || end.Surfaced?
      ensures ImageTrace(m, w, trace)
    {
      hide Store.Valid, Store.View, Faithful, Traced, BillableCalls, Executed, WaitsAsTold;
      hide ImageTrace, ImageStep, SubmitTrace, SubmitStep, PollTrace, ImportTrace;
      var claim, phase;
      ghost var step;
      claim, phase, step := Claim(store, m, snapshot, w);
      Begin(policy, m, step);
      trace, executions := [step], 0;
      OpenTrace(policy, m, snapshot, w, step, store.dispatches);
      if !Owns(claim) {
        return phase, 0, trace;
      }
      var base := claim.value.job;
      var out;
      if !w.payloadOk {
        Elapse(store);
        out, step := Commit(store, m, phase, w, w.fault, w.commitAt);
        Extend(policy, m, trace, P.Entered(snapshot), step);
        PlanLeads(m, snapshot, w, false, phase, w.commitAt, step);
        ImageTraceGrows(m, w, trace, step);
        return if out.Ok? then P.Halted else P.Raised, 0, trace + [step];
      }
      executions := 1;
      CallStep(policy, m, phase, store.View(), store.dispatches.Keys, w.answer, w.answerAt, w.retryAt);
      var plan := if w.answer.Completed? then P.PlanSucceed else P.PlanFail;
      step := Step(store.View(), store.dispatches.Keys, phase, P.Call(0, w.answer, w.answerAt, w.retryAt), store.View(),
                   P.Called(snapshot, base, plan, true));
      Extend(policy, m, trace, P.Entered(snapshot), step);
      QuietStep(policy, m, snapshot, w, trace, step, store.dispatches);
      trace := trace + [step];
      phase := P.Called(snapshot, base, plan, true);
      if plan.PlanSucceed? {
        Elapse(store);
        out, step := Commit(store, m, phase, w, w.fault, w.commitAt);
        Extend(policy, m, trace, P.Entered(snapshot), step);
        PlanLeads(m, snapshot, w, false, phase, w.commitAt, step);
        ImageTraceGrows(m, w, trace, step);
        trace := trace + [step];
        if out.Ok? || out.error == StaleVersion {
          return P.Halted, executions, trace;
        }
        phase := P.Called(snapshot, base, P.PlanFail, true);
      }
      Elapse(store);
      out, step := Commit(store, m, phase, w, w.secondFault, w.secondAt);
      Extend(policy, m, trace, P.Entered(snapshot), step);
      PlanLeads(m, snapshot, w, plan.PlanSucceed?, phase, w.secondAt, step);
      ImageTraceGrows(m, w, trace, step);
      trace := trace + [step];
      end := if out.Ok? || out.error == StaleVersion then P.Halted else P.Raised;
    }
  }

  lemma ImageNeverResumes(r: JobRecord, m: Message, snapshot: Job, now: Time)
    ensures !ClaimImage(r, m, snapshot, now).Resumed?
  {
  }

  // ----- one delivery

  lemma ReadStep(policy: Policy, m: Message, view: View, ids: set<DispatchId>)
    ensures Faithful(policy, m, Step(view, ids, P.Fetched, P.ReadJob(0), view,
                                     if m.job in view then P.Looked(view[m.job].job) else P.Raised))
  {
  }

  /** The phase a routing leads to. */
  function AfterRouting(routing: Routing, snapshot: Job, noted: bool): P.Phase {
    match routing
    case Enter => P.Entered(snapshot)
    case NoHandler => P.Unhandled
    case DuplicateMessage => if noted then P.Surfaced else P.Raised
    case TerminalJob => if noted then P.Halted else P.Raised
    case StageMismatch => if noted then P.Halted else P.Raised
    case _ => P.Raised
  }

  lemma RouteStep(policy: Policy, m: Message, snapshot: Job, view: View, ids: set<DispatchId>, noted: bool)
    ensures
      var existing := if m.job in view && m.attempt in view[m.job].attempts then Some(view[m.job].attempts[m.attempt])
                      else None;
      Faithful(policy, m, Step(view, ids, P.Looked(snapshot), P.ReadAttempt(0, noted), view,
                               AfterRouting(Route(m, Some(snapshot), existing), snapshot, noted)))
  {
  }

  lemma UnhandledStep(policy: Policy, m: Message, view: View, ids: set<DispatchId>, now: Time,
                      ending: Outcome<JobRecord>)
    requires ending == Err(DatabaseFault) ||
             ending == if m.job in view then NotImplemented(view[m.job], m, now) else Err(StaleVersion)
    ensures Faithful(policy, m, Step(view, ids, P.Unhandled, P.Claim(0, true, ending == Err(DatabaseFault), now),
                                     After(view, m.job, ending), if ending.Ok? then P.Halted else P.Raised))
  {
  }

  class DeliveryRuntime {
    const policy: Policy
    const runtime: WorkerRuntime
    const videos: VideoStages
    const images: ImageStage

    constructor (runtime: WorkerRuntime, videos: VideoStages, images: ImageStage)
      requires images.policy == videos.worker.policy
      ensures Valid() && policy == videos.worker.policy
    {
      this.policy, this.runtime, this.videos, this.images := videos.worker.policy, runtime, videos, images;
    }

    predicate Valid() {
      videos.worker.policy == policy && images.policy == policy
    }

    /** Look at the job, and later at the attempt, and decide what this delivery is. */
    method ReadAndRoute(store: Store, m: Message, w: World) returns (phase: P.Phase, ghost trace: seq<Step>)
      requires store.Valid()
      modifies store
      ensures store.Valid() && Traced(policy, m, trace, P.Fetched, phase) && BillableCalls(m, trace) == 0
      ensures phase.Entered? || phase.Unhandled? || phase.Halted? || phase.Raised? || phase.Surfaced?
      ensures phase.Entered? ==> HasHandler(m.stage)
    {
      hide ViewOf, Referential, Faithful, Traced, BillableCalls, Records.Route, HasHandler;
      ghost var view, ids := store.View(), store.dispatches.Keys;
      ReadStep(policy, m, view, ids);
      ghost var step := Step(view, ids, P.Fetched, P.ReadJob(0), view,
                                  if m.job in view then P.Looked(view[m.job].job) else P.Raised);
      Begin(policy, m, step);
      trace := [step];
      if m.job !in store.jobs {
        return P.Raised, trace;
      }
      var snapshot := store.jobs[m.job];
      Elapse(store);
      view, ids := store.View(), store.dispatches.Keys;
      AttemptInView(store, m);
      StagesEntered(m, snapshot, view);
      var routing := runtime.Route(store, m, snapshot);
      var noted := true;
      if !routing.Enter? && !routing.NoHandler? {
        Elapse(store);
        noted := runtime.NoteRejection(store, m, w.noteFault);
      }
      RouteStep(policy, m, snapshot, view, ids, noted);
      phase := AfterRouting(routing, snapshot, noted);
      step := Step(view, ids, P.Looked(snapshot), P.ReadAttempt(0, noted), view, phase);
      Extend(policy, m, trace, P.Fetched, step);
      trace := trace + [step];
    }

    /** One delivery: read and route it, then run the stage's handler or record that there is none. At
        most one billable provider call comes of it. */
    method Handle(store: Store, m: Message, w: World) returns (end: P.Phase, calls: nat, ghost trace: seq<Step>)
      requires store.Valid() && Valid()
      modifies store
      ensures store.Valid() && Traced(policy, m, trace, P.Fetched, end)
      ensures calls == BillableCalls(m, trace) && calls <= 1
      ensures end.Halted? || end.Raised? || end.Surfaced?
    {
      hide ViewOf, Referential, Faithful, Traced, BillableCalls, HasHandler;
      var phase;
      phase, trace := ReadAndRoute(store, m, w);
      if !phase.Entered? && !phase.Unhandled? {
        return phase, 0, trace;
      }
      Elapse(store);
      ghost var more;
      if phase.Unhandled? {
        end, more := NoHandlerFor(store, m, w);
        calls := 0;
      } else {
        end, calls, more := Dispatch(store, m, phase.snapshot, w);
      }
      Chain(policy, m, trace, more, P.Fetched, phase, end);
      CallsAdd(m, trace, more);
      trace := trace + more;
    }

    method NoHandlerFor(store: Store, m: Message, w: World) returns (end: P.Phase, ghost trace: seq<Step>)
      requires store.Valid()
      modifies store
      ensures store.Valid() && Traced(policy, m, trace, P.Unhandled, end) && BillableCalls(m, trace) == 0
      ensures end.Halted? || end.Raised?
    {
      hide ViewOf, Referential, Faithful, Traced, BillableCalls, NotImplemented;
      ghost var view, ids := store.View(), store.dispatches.Keys;
      var out := runtime.RecordNotImplemented(store, m, w.fault, w.commitAt);
      ghost var ending := Ending(w.fault, if m.job in view then NotImplemented(view[m.job], m, w.commitAt)
                                          else Err(StaleVersion));
      UnhandledStep(policy, m, view, ids, w.commitAt, ending);
      end := if out.Ok? then P.Halted else P.Raised;
      ghost var step := Step(view, ids, P.Unhandled, P.Claim(0, true, ending == Err(DatabaseFault), w.commitAt),
                                  store.View(), end);
      Begin(policy, m, step);
      trace := [step];
    }

    /** The registry's choice of handler. */
    method Dispatch(store: Store, m: Message, snapshot: Job, w: World)
      returns (end: P.Phase, calls: nat, ghost trace: seq<Step>)
      requires store.Valid() && Valid() && HasHandler(m.stage)
      modifies store
      ensures store.Valid() && Traced(policy, m, trace, P.Entered(snapshot), end)
      ensures calls == BillableCalls(m, trace) && calls <= 1
      ensures end.Halted? || end.Raised? || end.Surfaced?
    {
      hide ViewOf, Referential, Faithful, Traced, BillableCalls;
      calls := 0;
      match m.stage {
        case ImageGenerate => end, calls, trace := images.Handle(store, m, snapshot, w);
        case VideoSubmit => end, calls, trace := videos.HandleSubmit(store, m, snapshot, w);
        case VideoPoll => end, trace := videos.HandlePoll(store, m, snapshot, w);
        case AssetImport => end, trace := videos.HandleAssetImport(store, m, snapshot, w);
      }
    }
  }

  /** The attempt row of a stored job is the one in its record. */
  lemma AttemptInView(store: Store, m: Message)
    requires store.Valid()
    ensures var view := store.View();
            (if (m.job, m.attempt) in store.attempts then Some(store.attempts[(m.job, m.attempt)]) else None) ==
            (if m.job in view && m.attempt in view[m.job].attempts then Some(view[m.job].attempts[m.attempt]) else None)
  {
    assert (m.job, m.attempt) in store.attempts <==> m.attempt in AttemptsOf(store.attempts, m.job);
  }

  lemma StagesEntered(m: Message, snapshot: Job, view: View)
    ensures
      var existing := if m.job in view && m.attempt in view[m.job].attempts then Some(view[m.job].attempts[m.attempt])
                      else None;
      Route(m, Some(snapshot), existing) == Enter ==> HasHandler(m.stage)
  {
  }

  // ----- local mode

  lemma RecoverReadStep(policy: Policy, m: Message, phase: P.Phase, view: View, ids: set<DispatchId>)
    requires phase.Raised? || phase.Surfaced?
    ensures Faithful(policy, m, Step(view, ids, phase, P.RecoverRead(0), view,
                                     if m.job !in view || Terminal(view[m.job].job.status) then P.Halted
                                     else P.Recovering(view[m.job].job, phase.Surfaced?)))
  {
  }

  lemma RecoverCommitStep(policy: Policy, m: Message, phase: P.Phase, view: View, ids: set<DispatchId>,
                          d: DispatchId, now: Time, ending: Outcome<JobRecord>)
    requires phase.Recovering? && d !in ids
    requires ending == Err(DatabaseFault) ||
             ending == if m.job in view then Recover(view[m.job], m, phase.snapshot, phase.duplicate, d, now)
                       else Err(JobMissing)
    ensures Faithful(policy, m, Step(view, ids, phase, P.RecoverCommit(0, d, ending == Err(DatabaseFault), now),
                                     After(view, m.job, ending), P.Halted))
  {
  }

  class LocalQueueBackend {
    const runtime: DeliveryRuntime
    const recovery: LocalWorkerFailureRecovery

    constructor (runtime: DeliveryRuntime, recovery: LocalWorkerFailureRecovery)
      ensures this.runtime == runtime && this.recovery == recovery
    {
      this.runtime, this.recovery := runtime, recovery;
    }

    /** Deliver at once. An exception and a surfaced duplicate are handed to recovery, so that every
        delivery ends; `returned` is false when recovery itself raised. */
    method Publish(store: Store, m: Message, w: World) returns (returned: bool, calls: nat, ghost trace: seq<Step>)
      requires store.Valid() && runtime.Valid()
      modifies store
      ensures store.Valid() && Traced(runtime.policy, m, trace, P.Fetched, P.Halted)
      ensures calls == BillableCalls(m, trace) && calls <= 1
    {
      hide ViewOf, Referential, Faithful, Traced, BillableCalls;
      var end;
      end, calls, trace := runtime.Handle(store, m, w);
      if end.Halted? {
        return true, calls, trace;
      }
      Elapse(store);
      ghost var more;
      returned, more := Recover(store, m, end, w);
      Chain(runtime.policy, m, trace, more, P.Fetched, end, P.Halted);
      CallsAdd(m, trace, more);
      trace := trace + more;
    }

    method Recover(store: Store, m: Message, end: P.Phase, w: World) returns (returned: bool, ghost trace: seq<Step>)
      requires store.Valid() && (end.Raised? || end.Surfaced?)
      modifies store
      ensures store.Valid() && Traced(runtime.policy, m, trace, end, P.Halted) && BillableCalls(m, trace) == 0
    {
      hide ViewOf, Referential, Faithful, Traced, BillableCalls, Records.Recover;
      ghost var policy, view, ids := runtime.policy, store.View(), store.dispatches.Keys;
      RecoverReadStep(policy, m, end, view, ids);
      if m.job !in store.jobs || Terminal(store.jobs[m.job].status) {
        ghost var only := Step(view, ids, end, P.RecoverRead(0), view, P.Halted);
        Begin(policy, m, only);
        return true, [only];
      }
      var snapshot := store.jobs[m.job];
      var phase := P.Recovering(snapshot, end.Surfaced?);
      ghost var step := Step(view, ids, end, P.RecoverRead(0), view, phase);
      Begin(policy, m, step);
      trace := [step];
      Elapse(store);
      view, ids := store.View(), store.dispatches.Keys;
      var d := DrawDispatchId(store);
      var out := recovery.Settle(store, m, snapshot, end.Surfaced?, d, w.recoveryFault, w.recoverAt);
      ghost var ending := Ending(w.recoveryFault,
        if m.job in view then Records.Recover(view[m.job], m, snapshot, end.Surfaced?, d, w.recoverAt)
        else Err(JobMissing));
      RecoverCommitStep(policy, m, phase, view, ids, d, w.recoverAt, ending);
      step := Step(view, ids, phase, P.RecoverCommit(0, d, ending == Err(DatabaseFault), w.recoverAt), store.View(),
                   P.Halted);
      Extend(policy, m, trace, end, step);
      trace := trace + [step];
      returned := out.Ok? || out.error == StaleVersion;
    }
  }
}
