/** The stage workers' and local recovery's transactions. Each runs its statements one by one
    against the store and rolls back when a statement or the commit fails, and each is proved
    to commit exactly what Records.dfy says, or nothing. `fault` stands for a database error
    during the transaction. */
module Workers {
  import opened Model
  import opened Records
  import opened Store

  /** How a transaction ends when the database may fail it. */
  function Ending(fault: bool, out: Outcome<JobRecord>): Outcome<JobRecord> {
    if out.Ok? && fault then Err(DatabaseFault) else out
  }

  /** The records after a transaction on job `j` ended as `out`. */
  function After(view: map<JobId, JobRecord>, j: JobId, out: Outcome<JobRecord>): map<JobId, JobRecord> {
    if out.Ok? then view[j := out.value] else view
  }

  function Verdict(out: Outcome<JobRecord>): Outcome<Job> {
    match out
    case Ok(r) => Ok(r.job)
    case Err(e) => Err(e)
  }

  /** All or nothing: either the whole of `ending` is visible, or no row changed. */
  twostate predicate Settled(store: Store, j: JobId, new ending: Outcome<JobRecord>, new out: Outcome<Job>)
    reads store
  {
    && store.Valid()
    && out == Verdict(ending)
    && store.View() == After(old(store.View()), j, ending)
    && (ending.Err? ==> store.Rows() == old(store.Rows()))
  }

  /** What the statements of a transaction leave behind when none of them fails. */
  twostate predicate Ran(store: Store, j: JobId, new ending: Outcome<JobRecord>, new out: Outcome<Job>)
    reads store
  {
    && store.Valid()
    && out == Verdict(ending)
    && (ending.Ok? ==> store.View() == old(store.View())[j := ending.value])
  }

  /** The end of every transaction block: commit, or undo the statements and report why. */
  method EndTransaction(store: Store, saved: Tables, fault: bool, out: Outcome<Job>) returns (end: Outcome<Job>)
    modifies store
    ensures out.Ok? && !fault ==> end == out && store.Rows() == old(store.Rows())
    ensures out.Err? ==> end == out && store.Rows() == saved
    ensures out.Ok? && fault ==> end == Err(DatabaseFault) && store.Rows() == saved
  {
    end := out;
    if out.Err? {
      store.Rollback(saved);
    } else if fault {
      store.Rollback(saved);
      end := Err(DatabaseFault);
    }
  }

  datatype ClaimResult = Claimed(job: Job) | Resume | Refused(answer: ClaimAnswer)

  class VideoJobWorker {
    const policy: Policy

    constructor (policy: Policy)
      requires policy.Valid()
      ensures this.policy == policy
    {
      this.policy := policy;
    }

    /** Own the message's attempt, resume it, or learn why not. A refusal or a resumption
        leaves every record alone. */
    method Claim(store: Store, m: Message, snapshot: Job, now: Time) returns (result: ClaimResult)
      requires store.Valid()
      modifies store
      ensures store.Valid()
      ensures m.job !in old(store.jobs) ==> result == Refused(Stale) && store.View() == old(store.View())
      ensures m.job in old(store.jobs) ==>
                match ClaimVideo(old(store.View())[m.job], m, snapshot, now)
                case Owned(r) => result == Claimed(r.job) && store.View() == old(store.View())[m.job := r]
                case Resumed => result == Resume && store.View() == old(store.View())
                case answer => result == Refused(answer) && store.View() == old(store.View())
    {
      hide ViewOf, Referential, TransitionJob;
      if m.job !in store.jobs {
        return Refused(Stale);
      }
      var existing := store.GetAttempt(m.job, m.attempt);
      if existing.Some? {
        if existing.value.status == Running && Resumable(m.stage, snapshot) {
          store.AppendEvent(m.job, None, None);
          return Resume;
        }
        return Refused(if m.stage == VideoSubmit then Ambiguous else Duplicate);
      }
      var busy := store.HasRunningStageAttempt(m.job, m.stage);
      if busy {
        store.AppendEvent(m.job, None, None);
        return Refused(if m.stage == VideoSubmit then Ambiguous else InFlight);
      }
      var claimed := OpenAttempt(store, m, snapshot, true, snapshot.status, now);
      result := if claimed.Some? then Claimed(claimed.value) else Refused(Stale);
    }

    /** Move the job to `next`, close the attempt, and write the continuation. */
    method Schedule(store: Store, m: Message, expected: nat, next: Stage, task: TaskId, closing: Status,
                    delay: bool, d: DispatchId, fault: bool, now: Time)
      returns (out: Outcome<Job>)
      requires store.Valid() && d !in store.dispatches
      modifies store
      ensures Settled(store, m.job, Ending(fault,
                if m.job in old(store.View())
                then Records.Schedule(old(store.View())[m.job], m, expected, next, task, closing, d, now)
                else Err(JobMissing)), out)
      ensures out.Ok? ==>
                store.dispatches == old(store.dispatches)[d := NewDispatch(m.job, Work(next, m.attempt + 1),
                  now + (if delay then Micros(policy.DelaySeconds(m.attempt)) else 0), now)]
    {
      hide ViewOf, Referential, Records.Schedule;
      var availableAt := now + (if delay then Micros(policy.DelaySeconds(m.attempt)) else 0);
      var saved := store.Rows();
      out := ScheduleStatements(store, m, expected, next, task, closing, availableAt, d, now);
      out := EndTransaction(store, saved, fault, out);
    }

    method ScheduleStatements(store: Store, m: Message, expected: nat, next: Stage, task: TaskId, closing: Status,
                              availableAt: Time, d: DispatchId, now: Time)
      returns (out: Outcome<Job>)
      requires store.Valid() && d !in store.dispatches
      modifies store
      ensures Ran(store, m.job,
                if m.job in old(store.View())
                then Records.Schedule(old(store.View())[m.job], m, expected, next, task, closing, d, now)
                else Err(JobMissing), out)
      ensures out.Ok? ==>
                store.dispatches == old(store.dispatches)[d := NewDispatch(m.job, Work(next, m.attempt + 1),
                                                                           availableAt, now)]
    {
      hide Store.Valid, Store.View, ViewOf, Referential, Transition, Finish, AddWork, Note, NewDispatch;
      ghost var view := store.View();
      out := store.TransitionJob(m.job, expected, Running, Some(next), Some(task), now);
      if out.Ok? {
        ghost var moved := Transition(view[m.job], expected, Running, Some(next), Some(task), now).value;
        assert store.View() == view[m.job := moved];
        HandOver(store, m, closing, d, Work(next, m.attempt + 1), availableAt, now);
        ghost var handed := Note(AddWork(Finish(moved, m.attempt, closing), d, Work(next, m.attempt + 1)), Running);
        assert store.View() == view[m.job := handed];
        assert Records.Schedule(view[m.job], m, expected, next, task, closing, d, now) == Ok(handed);
      }
    }

    method Fail(store: Store, m: Message, expected: nat, fault: bool, now: Time) returns (out: Outcome<Job>)
      requires store.Valid()
      modifies store
      ensures Settled(store, m.job, Ending(fault,
                if m.job in old(store.View())
                then Records.Fail(old(store.View())[m.job], m, expected, Some(Finalize), now)
                else Err(JobMissing)), out)
    {
      hide ViewOf, Referential, Records.Fail;
      var saved := store.Rows();
      out := FailStatements(store, m, expected, Some(Finalize), now);
      out := EndTransaction(store, saved, fault, out);
    }

    method RecordSubmittedRecovery(store: Store, m: Message, expected: nat, task: TaskId, fault: bool, now: Time)
      returns (out: Outcome<Job>)
      requires store.Valid()
      modifies store
      ensures Settled(store, m.job, Ending(fault,
                if m.job in old(store.View()) then RecordSubmitted(old(store.View())[m.job], expected, task, now)
                else Err(JobMissing)), out)
    {
      hide ViewOf, Referential, Transition;
      var saved := store.Rows();
      out := store.TransitionJob(m.job, expected, Running, Some(VideoSubmit), Some(task), now);
      if out.Ok? {
        store.AppendEvent(m.job, None, Some(Running));
      }
      out := EndTransaction(store, saved, fault, out);
    }

    /** One transaction writes the generation, the assets, the job, the attempt and the event. */
    method FinalizeImported(store: Store, m: Message, expected: nat, g: GenerationId, files: seq<AssetId>, fault: bool,
                            now: Time)
      returns (out: Outcome<Job>)
      requires store.Valid() && g !in store.generations
      modifies store
      ensures Settled(store, m.job, Ending(fault,
                if m.job in old(store.View())
                then Succeed(old(store.View())[m.job], m, expected, Some(Finalize), g, now)
                else Err(JobMissing)), out)
      ensures out.Ok? ==> store.generations == Generated(old(store.generations), m.job, g)
      ensures out.Ok? ==> store.assets == AssetsSaved(old(store.assets), files, m.job)
    {
      hide ViewOf, Referential, Records.Succeed, Generated, AssetsSaved;
      var saved := store.Rows();
      RecordResult(store, m.job, g, files);
      out := SucceedStatements(store, m, expected, Some(Finalize), saved, g, now);
      out := EndTransaction(store, saved, fault, out);
    }
  }

  /** Write a continuation and the event that announces it. */
  method Continue(store: Store, j: JobId, d: DispatchId, work: Work, availableAt: Time, now: Time)
    requires store.Valid() && j in store.jobs && d !in store.dispatches
    modifies store`dispatches, store`events
    ensures store.Valid()
    ensures store.View() == old(store.View())[j := Note(AddWork(old(store.View())[j], d, work), Running)]
    ensures store.dispatches == old(store.dispatches)[d := NewDispatch(j, work, availableAt, now)]
  {
    hide ViewOf, Referential;
    store.CreateDispatch(d, j, work, availableAt, now);
    store.AppendEvent(j, None, Some(Running));
  }

  /** Close the attempt and write its successor. */
  method HandOver(store: Store, m: Message, closing: Status, d: DispatchId, work: Work, availableAt: Time, now: Time)
    requires store.Valid() && m.job in store.jobs && d !in store.dispatches
    modifies store`attempts, store`dispatches, store`events
    ensures store.Valid()
    ensures store.View() ==
            old(store.View())[m.job :=
              Note(AddWork(Finish(old(store.View())[m.job], m.attempt, closing), d, work), Running)]
    ensures store.dispatches == old(store.dispatches)[d := NewDispatch(m.job, work, availableAt, now)]
  {
    hide ViewOf, Referential, Finish, AddWork, Note;
    store.FinishAttempt(m.job, m.attempt, closing);
    Continue(store, m.job, d, work, availableAt, now);
  }

  lemma OwnIs(r: JobRecord, m: Message, claimed: Job, from: Status)
    ensures Own(r, m, claimed, from) ==
            r.(job := claimed)
             .(attempts := r.attempts[m.attempt := Attempt(m.stage, Running)])
             .(trail := r.trail + [Mark(Some(from), Running)])
  {
  }

  /** Move the job to running, open the attempt, and write the event that says so: together, or
      not at all when the job changed since `snapshot` was read. */
  method OpenAttempt(store: Store, m: Message, snapshot: Job, allowRunning: bool, from: Status, now: Time)
    returns (claimed: Option<Job>)
    requires store.Valid() && m.job in store.jobs && m.attempt !in store.View()[m.job].attempts
    modifies store`jobs, store`attempts, store`events
    ensures store.Valid()
    ensures claimed == ClaimJob(old(store.View())[m.job].job, snapshot.version, m.stage, m.attempt, allowRunning, now)
    ensures store.View() ==
            if claimed.Some?
            then old(store.View())[m.job := Own(old(store.View())[m.job], m, claimed.value, from)]
            else old(store.View())
  {
    hide *;
    ghost var view := store.View();
    claimed := store.ClaimJobAttempt(m.job, snapshot.version, m.stage, m.attempt, allowRunning, now);
    if claimed.Some? {
      ghost var first := view[m.job].(job := claimed.value);
      ghost var second := first.(attempts := first.attempts[m.attempt := Attempt(m.stage, Running)]);
      ghost var third := second.(trail := second.trail + [Mark(Some(from), Running)]);
      WriteTwice(view, m.job, first, second);
      WriteTwice(view, m.job, second, third);
      OwnIs(view[m.job], m, claimed.value, from);
      var created := store.CreateAttempt(m.job, m.attempt, m.stage, Running);
      store.AppendEvent(m.job, Some(from), Some(Running));
      assert store.View() == view[m.job := third];
    }
  }

  /** Close the attempt, and write the event that says how the job ended. */
  method Close(store: Store, m: Message, status: Status)
    requires store.Valid() && m.job in store.jobs
    modifies store`attempts, store`events
    ensures store.Valid()
    ensures store.View() ==
            old(store.View())[m.job := Note(Finish(old(store.View())[m.job], m.attempt, status), status)]
  {
    hide ViewOf, Referential;
    store.FinishAttempt(m.job, m.attempt, status);
    store.AppendEvent(m.job, None, Some(status));
  }

  method FailStatements(store: Store, m: Message, expected: nat, stage: Option<Stage>, now: Time)
    returns (out: Outcome<Job>)
    requires store.Valid()
    modifies store
    ensures Ran(store, m.job,
              if m.job in old(store.View()) then Fail(old(store.View())[m.job], m, expected, stage, now)
              else Err(JobMissing), out)
  {
    hide Store.Valid, Store.View, ViewOf, Referential, Transition, Finish, Note;
    out := store.TransitionJob(m.job, expected, Failed, stage, None, now);
    if out.Ok? {
      Close(store, m, Failed);
    }
  }

  /** What follows the result rows: `before` is how the tables stood when they were not yet there. */
  method SucceedStatements(store: Store, m: Message, expected: nat, stage: Option<Stage>, ghost before: Tables,
                           ghost g: GenerationId, now: Time)
    returns (out: Outcome<Job>)
    requires store.Valid() && ViewOf(before).Keys == store.jobs.Keys
    requires m.job in store.jobs ==> store.View() == ViewOf(before)[m.job := Produce(ViewOf(before)[m.job], g)]
    modifies store`jobs, store`attempts, store`events
    ensures store.Valid()
    ensures
      var ending := if m.job in ViewOf(before) then Succeed(ViewOf(before)[m.job], m, expected, stage, g, now)
                    else Err(JobMissing);
      && out == Verdict(ending)
      && (ending.Ok? ==> store.View() == ViewOf(before)[m.job := ending.value])
  {
    hide ViewOf, Referential, Transition, Finish, Note, Produce;
    out := store.TransitionJob(m.job, expected, Succeeded, stage, None, now);
    if out.Ok? {
      ghost var view := ViewOf(before);
      ghost var produced := Produce(view[m.job], g);
      ghost var moved := Transition(produced, expected, Succeeded, stage, None, now).value;
      ghost var ended := Note(Finish(moved, m.attempt, Succeeded), Succeeded);
      WriteTwice(view, m.job, produced, moved);
      WriteTwice(view, m.job, moved, ended);
      Close(store, m, Succeeded);
      assert store.View() == view[m.job := ended];
    }
  }

  /** The generation row and one asset row per file, before the job row is looked at. */
  method RecordResult(store: Store, j: JobId, g: GenerationId, files: seq<AssetId>)
    requires store.Valid() && g !in store.generations
    modifies store`generations, store`assets
    ensures store.Valid()
    ensures store.View() ==
            if j in store.jobs then old(store.View())[j := Produce(old(store.View())[j], g)] else old(store.View())
    ensures store.generations == Generated(old(store.generations), j, g)
    ensures store.assets == AssetsSaved(old(store.assets), files, j)
  {
    hide ViewOf, Referential, Generated;
    var id := store.RecordGeneration(j, g);
    ghost var produced := store.View();
    for i := 0 to |files|
      invariant store.Valid() && store.View() == produced
      invariant store.generations == Generated(old(store.generations), j, g)
      invariant store.assets == AssetsSaved(old(store.assets), files[..i], j)
    {
      assert files[..i + 1][..i] == files[..i];
      store.SaveAsset(files[i], j);
    }
    assert files[..|files|] == files;
  }

  class ImageJobWorker {
    constructor () {
    }

    method Claim(store: Store, m: Message, snapshot: Job, now: Time) returns (result: ClaimResult)
      requires store.Valid()
      modifies store
      ensures store.Valid()
      ensures m.job !in old(store.jobs) ==> result == Refused(Stale) && store.View() == old(store.View())
      ensures m.job in old(store.jobs) ==>
                match ClaimImage(old(store.View())[m.job], m, snapshot, now)
                case Owned(r) => result == Claimed(r.job) && store.View() == old(store.View())[m.job := r]
                case answer => result == Refused(answer) && store.View() == old(store.View())
    {
      hide ViewOf, Referential, TransitionJob;
      if m.job !in store.jobs {
        return Refused(Stale);
      }
      var existing := store.GetAttempt(m.job, m.attempt);
      if existing.Some? {
        store.AppendEvent(m.job, None, None);
        return Refused(Duplicate);
      }
      var claimed := OpenAttempt(store, m, snapshot, false, Queued, now);
      result := if claimed.Some? then Claimed(claimed.value) else Refused(Stale);
    }

    method PersistSuccess(store: Store, m: Message, expected: nat, g: GenerationId, files: seq<AssetId>,
                          fault: bool, now: Time)
      returns (out: Outcome<Job>)
      requires store.Valid() && g !in store.generations
      modifies store
      ensures Settled(store, m.job, Ending(fault,
                if files == [] then Err(NoAsset)
                else if m.job in old(store.View()) then Succeed(old(store.View())[m.job], m, expected, None, g, now)
                else Err(JobMissing)), out)
      ensures out.Ok? ==> store.generations == Generated(old(store.generations), m.job, g)
      ensures out.Ok? ==> store.assets == AssetsSaved(old(store.assets), files, m.job)
    {
      hide ViewOf, Referential, Records.Succeed, Generated, AssetsSaved;
      var saved := store.Rows();
      RecordResult(store, m.job, g, files);
      if files == [] {
        out := Err(NoAsset);
      } else {
        out := SucceedStatements(store, m, expected, None, saved, g, now);
      }
      out := EndTransaction(store, saved, fault, out);
    }

    method PersistFailure(store: Store, m: Message, expected: nat, fault: bool, now: Time) returns (out: Outcome<Job>)
      requires store.Valid()
      modifies store
      ensures Settled(store, m.job, Ending(fault,
                if m.job in old(store.View()) then Fail(old(store.View())[m.job], m, expected, None, now)
                else Err(JobMissing)), out)
    {
      hide ViewOf, Referential, Records.Fail;
      var saved := store.Rows();
      out := FailStatements(store, m, expected, None, now);
      out := EndTransaction(store, saved, fault, out);
    }
  }

  class WorkerRuntime {
    constructor () {
    }

    /** Decide what to do with a delivery: `snapshot` was read before, the attempt row is read now. */
    method Route(store: Store, m: Message, snapshot: Job) returns (routing: Routing)
      ensures routing == Records.Route(m, Some(snapshot),
                if (m.job, m.attempt) in store.attempts then Some(store.attempts[(m.job, m.attempt)]) else None)
    {
      var existing := store.GetAttempt(m.job, m.attempt);
      if existing.Some? {
        if HasHandler(m.stage) && Resumable(m.stage, snapshot) && existing.value.status == Running &&
           Active(snapshot.status) && snapshot.stage == m.stage {
          return Enter;
        }
        return DuplicateMessage;
      }
      if Terminal(snapshot.status) {
        return TerminalJob;
      }
      if m.attempt > AttemptLimit(snapshot) {
        return OverLimit;
      }
      if snapshot.stage != m.stage {
        return StageMismatch;
      }
      routing := if HasHandler(m.stage) then Enter else NoHandler;
    }

    /** A rejection is noted in a transaction of its own, which fails on a database error or when the job
        has been removed meanwhile. No record changes. */
    method NoteRejection(store: Store, m: Message, fault: bool) returns (noted: bool)
      requires store.Valid()
      modifies store`events
      ensures store.Valid() && store.View() == old(store.View())
      ensures noted == (!fault && m.job in store.jobs)
      ensures store.events == old(store.events) + if noted then [Event(m.job, None, None)] else []
    {
      noted := !fault && m.job in store.jobs;
      if noted {
        store.AppendEvent(m.job, None, None);
      }
    }

    method RecordNotImplemented(store: Store, m: Message, fault: bool, now: Time) returns (out: Outcome<Job>)
      requires store.Valid()
      modifies store
      ensures Settled(store, m.job, Ending(fault,
                if m.job in old(store.View()) then NotImplemented(old(store.View())[m.job], m, now)
                else Err(StaleVersion)), out)
    {
      hide ViewOf, Referential, NotImplemented;
      var saved := store.Rows();
      out := NotImplementedStatements(store, m, now);
      out := EndTransaction(store, saved, fault, out);
    }

    method NotImplementedStatements(store: Store, m: Message, now: Time) returns (out: Outcome<Job>)
      requires store.Valid()
      modifies store
      ensures Ran(store, m.job,
                if m.job in old(store.View()) then NotImplemented(old(store.View())[m.job], m, now)
                else Err(StaleVersion), out)
    {
      hide Store.Valid, Store.View, ViewOf, Referential, SummarizeJob;
      var updated := store.UpdateJobAttemptSummary(m.job, m.stage, m.attempt, now);
      if updated.None? {
        return Err(StaleVersion);
      }
      var created := store.CreateAttempt(m.job, m.attempt, m.stage, Failed);
      if !created {
        return Err(DatabaseFault);
      }
      store.AppendEvent(m.job, None, None);
      out := Ok(updated.value);
    }
  }

  class LocalWorkerFailureRecovery {
    constructor () {
    }

    /** The transaction behind both recovery entry points. */
    method Settle(store: Store, m: Message, snapshot: Job, duplicate: bool, d: DispatchId, fault: bool, now: Time)
      returns (out: Outcome<Job>)
      requires store.Valid() && d !in store.dispatches
      modifies store
      ensures Settled(store, m.job, Ending(fault,
                if m.job in old(store.View()) then Recover(old(store.View())[m.job], m, snapshot, duplicate, d, now)
                else Err(JobMissing)), out)
      ensures out.Ok? && store.dispatches != old(store.dispatches) ==>
                && d in store.dispatches && store.dispatches == old(store.dispatches)[d := store.dispatches[d]]
                && WaitsUntil(store.dispatches[d], m.job, Work(m.stage, m.attempt + 1), now)
    {
      hide ViewOf, Referential, Records.Recover, NewDispatch, WaitsUntil;
      var saved := store.Rows();
      NewDispatchWaits(m.job, Work(m.stage, m.attempt + 1), now, now);
      if RetriesLocally(snapshot, m, duplicate) {
        out := ScheduleRetry(store, m, snapshot, d, now);
      } else {
        out := FailTerminal(store, m, snapshot, duplicate, d, now);
      }
      out := EndTransaction(store, saved, fault, out);
    }

    /** The attempt is closed first, so a lost compare-and-swap has to undo it. */
    method ScheduleRetry(store: Store, m: Message, snapshot: Job, d: DispatchId, now: Time)
      returns (out: Outcome<Job>)
      requires store.Valid() && d !in store.dispatches && RetriesLocally(snapshot, m, false)
      modifies store
      ensures Ran(store, m.job,
                if m.job in old(store.View()) then Recover(old(store.View())[m.job], m, snapshot, false, d, now)
                else Err(JobMissing), out)
      ensures out.Ok? ==>
                var row := NewDispatch(m.job, Work(m.stage, m.attempt + 1), now, now);
                store.dispatches == old(store.dispatches)[d := row]
    {
      hide ViewOf, Referential, Transition, Finish, AddWork, Note;
      ghost var view := store.View();
      store.FinishAttempt(m.job, m.attempt, Failed);
      out := store.TransitionJob(m.job, snapshot.version, Running, Some(m.stage), None, now);
      if out.Ok? {
        ghost var closed := Finish(view[m.job], m.attempt, Failed);
        ghost var moved := Transition(closed, snapshot.version, Running, Some(m.stage), None, now).value;
        ghost var ended := Note(AddWork(moved, d, Work(m.stage, m.attempt + 1)), Running);
        WriteTwice(view, m.job, closed, moved);
        WriteTwice(view, m.job, moved, ended);
        Continue(store, m.job, d, Work(m.stage, m.attempt + 1), now, now);
        assert store.View() == view[m.job := ended];
      }
    }

    method FailTerminal(store: Store, m: Message, snapshot: Job, ghost duplicate: bool, ghost d: DispatchId, now: Time)
      returns (out: Outcome<Job>)
      requires store.Valid() && !RetriesLocally(snapshot, m, duplicate)
      modifies store
      ensures Ran(store, m.job,
                if m.job in old(store.View()) then Recover(old(store.View())[m.job], m, snapshot, duplicate, d, now)
                else Err(JobMissing), out)
      ensures store.dispatches == old(store.dispatches)
    {
      hide ViewOf, Referential, Transition, Finish;
      ghost var view := store.View();
      store.FinishAttempt(m.job, m.attempt, Failed);
      out := store.TransitionJob(m.job, snapshot.version, Failed, Some(Finalize), None, now);
      if out.Ok? {
        ghost var closed := Finish(view[m.job], m.attempt, Failed);
        ghost var moved := Transition(closed, snapshot.version, Failed, Some(Finalize), None, now).value;
        WriteTwice(view, m.job, closed, moved);
        WriteTwice(view, m.job, moved, Note(moved, Failed));
        store.AppendEvent(m.job, None, Some(Failed));
        assert store.View() == view[m.job := Note(moved, Failed)];
      }
    }
  }
}
