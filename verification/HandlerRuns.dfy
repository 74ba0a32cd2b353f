/** From traces to runs. The handlers of Handlers.dfy leave traces with gaps, in which other processes work.
    Once the gaps are filled with protocol steps, the trace and what filled it are a run of the protocol, and the
    theorems about runs hold for it. */
module HandlerRuns {
  import opened Model
  import opened Protocol
  import opened ProtocolTheorems
  import H = Handlers

  /** What the others did before one step of the handler, and the state they left. */
  datatype Gap = Gap(actions: seq<Action>, until: System)

  predicate Reaches(s: System, actions: seq<Action>, t: System)
    decreases |actions|
  {
    if actions == [] then s == t else Enabled(s, actions[0]) && Reaches(Next(s, actions[0]), actions[1..], t)
  }

  /** From state `s`, gap and step take turns: the others' actions lead to a state in which handler `h` stands
      where its next step begins. */
  ghost predicate Woven(s: System, h: nat, m: Message, trace: seq<H.Step>, gaps: seq<Gap>)
    decreases |trace|
  {
    |gaps| == |trace| &&
    (trace != [] ==>
       && Reaches(s, gaps[0].actions, gaps[0].until)
       && H.Fits(gaps[0].until, h, m, trace[0])
       && Woven((H.StepOfTheWholeSystem(gaps[0].until, h, m, trace[0]); Next(gaps[0].until, Own(trace[0], h))),
                h, m, trace[1..], gaps[1..]))
  }

  /** The step as handler `h` takes it. */
  function Own(step: H.Step, h: nat): Action
    requires H.OwnAction(step.action)
  {
    step.action.(h := h)
  }

  /** Everything that happens, in order. */
  function Actions(h: nat, trace: seq<H.Step>, gaps: seq<Gap>): seq<Action>
    requires |gaps| == |trace| && forall i :: 0 <= i < |trace| ==> H.OwnAction(trace[i].action)
  {
    if trace == [] then [] else gaps[0].actions + [Own(trace[0], h)] + Actions(h, trace[1..], gaps[1..])
  }

  lemma {:induction false} WovenSteps(s: System, h: nat, m: Message, trace: seq<H.Step>, gaps: seq<Gap>)
    requires Woven(s, h, m, trace, gaps)
    ensures |gaps| == |trace| && forall i :: 0 <= i < |trace| ==> H.OwnAction(trace[i].action)
    decreases |trace|
  {
    if trace != [] {
      hide Enabled, Next, Reaches;
      H.StepOfTheWholeSystem(gaps[0].until, h, m, trace[0]);
      WovenSteps(Next(gaps[0].until, Own(trace[0], h)), h, m, trace[1..], gaps[1..]);
    }
  }

  lemma {:induction false} FillGap(run: Run, actions: seq<Action>, t: System) returns (more: Run)
    requires run.Valid() && Reaches(LastState(run), actions, t)
    ensures more.Valid() && run.states <= more.states && more.actions == run.actions + actions && LastState(more) == t
    decreases |actions|
  {
    hide Enabled, Next, Start;
    if actions == [] {
      more := run;
    } else {
      ExtendedIsValid(run, actions[0]);
      more := FillGap(Extended(run, actions[0]), actions[1..], t);
      Regroup(run.actions, [], [actions[0]], actions[1..]);
      assert actions == [] + [actions[0]] + actions[1..];
    }
  }

  lemma Regroup(a: seq<Action>, b: seq<Action>, c: seq<Action>, d: seq<Action>)
    ensures (a + b + c) + d == a + (b + c + d)
  {
  }

  lemma OwnStep(run: Run, h: nat, m: Message, step: H.Step) returns (more: Run)
    requires run.Valid() && H.Fits(LastState(run), h, m, step)
    ensures H.OwnAction(step.action) && more.Valid() && run.states <= more.states
    ensures more.actions == run.actions + [Own(step, h)]
    ensures Enabled(LastState(run), Own(step, h)) && LastState(more) == Next(LastState(run), Own(step, h))
    ensures LastState(more).records == step.after
    ensures h < |LastState(more).handlers| && LastState(more).handlers[h] == Handler(m, step.next)
  {
    hide Enabled, Next, Start, Reaches;
    H.StepOfTheWholeSystem(LastState(run), h, m, step);
    ExtendedIsValid(run, Own(step, h));
    more := Extended(run, Own(step, h));
  }

  lemma StepCounts(s: System, h: nat, m: Message, step: H.Step)
    requires H.Fits(s, h, m, step) && H.OwnAction(step.action) && Enabled(s, Own(step, h))
    ensures Calls(Next(s, Own(step, h)), m.job) == Calls(s, m.job) + (if H.BillableCall(m, step) then 1 else 0)
  {
    hide Next, H.Faithful;
    CallIsCounted(s, Own(step, h), m.job);
  }

  /** One gap and the step after it. */
  lemma FirstTurn(run: Run, h: nat, m: Message, trace: seq<H.Step>, gaps: seq<Gap>) returns (more: Run)
    requires run.Valid() && Woven(LastState(run), h, m, trace, gaps) && trace != []
    ensures H.OwnAction(trace[0].action) && more.Valid() && run.states <= more.states
    ensures more.actions == run.actions + gaps[0].actions + [Own(trace[0], h)]
    ensures Woven(LastState(more), h, m, trace[1..], gaps[1..])
    ensures LastState(more).records == trace[0].after
    ensures h < |LastState(more).handlers| && LastState(more).handlers[h] == Handler(m, trace[0].next)
    ensures Calls(LastState(more), m.job) >=
            Calls(LastState(run), m.job) + (if H.BillableCall(m, trace[0]) then 1 else 0)
  {
    hide Enabled, Next, Start, Reaches, H.Fits, Calls, H.BillableCall;
    var filled := FillGap(run, gaps[0].actions, gaps[0].until);
    CallsNeverFall(filled, |run.actions|, |filled.actions|, m.job);
    more := OwnStep(filled, h, m, trace[0]);
    StepCounts(LastState(filled), h, m, trace[0]);
  }

  /** The billable calls of a trace, counted from its first step. */
  lemma {:induction false} CallsFromTheFirst(m: Message, trace: seq<H.Step>)
    requires trace != []
    ensures H.BillableCalls(m, trace) == (if H.BillableCall(m, trace[0]) then 1 else 0) + H.BillableCalls(m, trace[1..])
  {
    H.CallsAdd(m, [trace[0]], trace[1..]);
    assert trace == [trace[0]] + trace[1..] && [trace[0]][..0] == [];
  }

  lemma {:induction false} WovenRun(run: Run, h: nat, m: Message, trace: seq<H.Step>, gaps: seq<Gap>)
    returns (more: Run)
    requires run.Valid() && Woven(LastState(run), h, m, trace, gaps)
    ensures |gaps| == |trace| && forall i :: 0 <= i < |trace| ==> H.OwnAction(trace[i].action)
    ensures more.Valid() && run.states <= more.states
    ensures more.actions == run.actions + Actions(h, trace, gaps)
    ensures trace == [] ==> more == run
    ensures trace != [] ==> h < |LastState(more).handlers| && LastState(more).records == trace[|trace| - 1].after
    ensures trace != [] ==> LastState(more).handlers[h] == Handler(m, trace[|trace| - 1].next)
    ensures Calls(LastState(more), m.job) >= Calls(LastState(run), m.job) + H.BillableCalls(m, trace)
    decreases |trace|
  {
    hide *;
    ValidHasStates(run);
    WovenSteps(LastState(run), h, m, trace, gaps);
    if trace == [] {
      more := run;
      NothingWoven(h, m, gaps);
    } else {
      var turned := FirstTurn(run, h, m, trace, gaps);
      CallsFromTheFirst(m, trace);
      more := WovenRun(turned, h, m, trace[1..], gaps[1..]);
      ActionsFromTheFirst(h, trace, gaps);
      Regroup(run.actions, gaps[0].actions, [Own(trace[0], h)], Actions(h, trace[1..], gaps[1..]));
      assert |trace| > 1 ==> trace[1..][|trace[1..]| - 1] == trace[|trace| - 1];
    }
  }

  lemma ValidHasStates(run: Run)
    requires run.Valid()
    ensures |run.states| > 0
  {
  }

  lemma NothingWoven(h: nat, m: Message, gaps: seq<Gap>)
    requires gaps == []
    ensures Actions(h, [], gaps) == [] && H.BillableCalls(m, []) == 0
  {
  }

  lemma ActionsFromTheFirst(h: nat, trace: seq<H.Step>, gaps: seq<Gap>)
    requires trace != [] && |gaps| == |trace| && forall i :: 0 <= i < |trace| ==> H.OwnAction(trace[i].action)
    ensures Actions(h, trace, gaps) == gaps[0].actions + [Own(trace[0], h)] + Actions(h, trace[1..], gaps[1..])
  {
  }

  // ----- main results

  /** A traced delivery whose gaps are filled by protocol steps extends the run by exactly what filled them and its
      own steps, each in its place, and leaves the handler in the last phase of the trace. */
  lemma TraceInARun(run: Run, h: nat, m: Message, trace: seq<H.Step>, gaps: seq<Gap>, first: Phase, last: Phase)
    returns (more: Run)
    requires run.Valid() && h < |LastState(run).handlers| && LastState(run).handlers[h] == Handler(m, first)
    requires Woven(LastState(run), h, m, trace, gaps) && H.Traced(LastState(run).policy, m, trace, first, last)
    ensures |gaps| == |trace| && forall i :: 0 <= i < |trace| ==> H.OwnAction(trace[i].action)
    ensures more.Valid() && run.states <= more.states && more.actions == run.actions + Actions(h, trace, gaps)
    ensures h < |LastState(more).handlers| && LastState(more).handlers[h] == Handler(m, last)
    ensures trace != [] ==> LastState(more).records == trace[|trace| - 1].after
  {
    hide Enabled, Next, Start, Woven, Actions, H.Faithful, Run.Valid;
    more := WovenRun(run, h, m, trace, gaps);
  }

  /** What the worker's own code does, whatever is interleaved with it: if the job was ever billed before the
      delivery, the delivery makes no billable call, and otherwise at most one. */
  lemma DeliveryDoesNotBillAgain(run: Run, h: nat, m: Message, trace: seq<H.Step>, gaps: seq<Gap>)
    requires run.Valid() && Woven(LastState(run), h, m, trace, gaps)
    ensures Calls(LastState(run), m.job) + H.BillableCalls(m, trace) <= 1
  {
    hide Enabled, Next, Start, Woven, Actions, Calls;
    var more := WovenRun(run, h, m, trace, gaps);
    BillableCallsAtMostOnce(more, |more.actions|, m.job);
  }
}
