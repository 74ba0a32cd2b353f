/** Admission, administration and the dispatcher take steps of the state machines: what they commit to the
    tables is what an enabled action commits to the records. (The stage handlers, the worker and local
    recovery are tied to the protocol step by step in Handlers.dfy.) */
module Refinement {
  import opened Model
  import opened Records
  import opened Store
  import opened Queries
  import opened Protocol
  import opened BrokerRuns
  import A = Admission
  import Outbox
  import Cleanup
  import Dispatcher
  import L = Leases

  /** The digests a request may be deduplicated by, besides its own. */
  function Digests(also: seq<Option<RequestKey>>): set<RequestKey> {
    set i | 0 <= i < |also| && also[i].Some? :: also[i].value
  }

  lemma NoneActive(jobs: map<JobId, Job>, kind: Kind, candidates: seq<Option<RequestKey>>, i: nat, j: JobId)
    requires !A.Deduplicated(jobs, kind, candidates) && i < |candidates| && candidates[i].Some? && j in jobs
    ensures !Matches(jobs[j], kind, candidates[i].value)
  {
    assert !A.AnyActive(jobs, kind, candidates[i].value);
    assert !A.ActiveMatch(jobs, kind, candidates[i].value, j);
  }

  /** A request that is not a duplicate is admitted by an enabled step. */
  lemma AdmissionIsAStep(s: System, t: Tables, kind: Kind, stage: Stage, key: Option<RequestKey>,
                         also: seq<Option<RequestKey>>, maxAttempts: nat, j: JobId, d: DispatchId, now: Time)
    requires s.records == ViewOf(t) && j !in s.used && d !in s.usedDispatches
    requires A.Admissible(stage, 1, maxAttempts) && StageFits(kind, stage) &&
             !A.Deduplicated(t.jobs, kind, [key] + also)
    ensures
      var a := Admit(j, kind, stage, key, Digests(also), maxAttempts, d, now);
      Enabled(s, a) && Next(s, a).records == ViewOf(t)[j := Records.Admission(kind, stage, key, maxAttempts, d, now)]
  {
    if key.Some? {
      forall k | k in s.records
        ensures !Matches(s.records[k].job, kind, key.value)
      {
        NoneActive(t.jobs, kind, [key] + also, 0, k);
      }
    }
    forall k, c | k in s.records && c in Digests(also)
      ensures !Matches(s.records[k].job, kind, c)
    {
      var i :| 0 <= i < |also| && also[i].Some? && also[i].value == c;
      assert ([key] + also)[i + 1] == also[i];
      NoneActive(t.jobs, kind, [key] + also, i + 1, k);
    }
  }

  lemma ChosenIsQueued(jobs: map<JobId, Job>, ids: seq<JobId>, limit: nat, chosen: seq<JobId>, j: JobId)
    requires Listed(Outbox.QueuedJobs(jobs, ids), Outbox.OldestFirst(jobs), limit, chosen) && j in chosen
    ensures j in jobs && jobs[j].status == Queued
  {
  }

  lemma LostWasWritten(t: Tables, after: map<DispatchId, Dispatch>, repairs: map<JobId, Outbox.Repair>, j: JobId,
                       now: Time)
    requires Outbox.Repaired(t.dispatches, after, repairs, now) && j in repairs
    ensures repairs[j].lost in WorksOf(t.dispatches, j)
  {
    assert repairs[j].lost in Outbox.PublishedOf(t.dispatches, j);
  }

  lemma RepairedWasOrphaned(t: Tables, chosen: seq<JobId>, repaired: set<JobId>, j: JobId)
    requires repaired == Outbox.OrphanedAmong(t.attempts, t.dispatches, chosen) && j in repaired
    ensures j in chosen && AttemptsOf(t.attempts, j) == map[]
  {
  }

  lemma RecordInView(t: Tables, j: JobId)
    requires j in t.jobs
    ensures j in ViewOf(t) && ViewOf(t)[j] == RecordOf(t, j) && RecordOf(t, j).job == t.jobs[j]
    ensures RecordOf(t, j).attempts == AttemptsOf(t.attempts, j) && RecordOf(t, j).works == WorksOf(t.dispatches, j)
  {
  }

  lemma RequeueStep(s: System, j: JobId, lost: DispatchId, renewed: DispatchId)
    requires j in s.records && s.records[j].job.status == Queued && s.records[j].attempts == map[]
    requires lost in s.records[j].works && renewed !in s.usedDispatches
    ensures
      var a := Requeue(j, lost, renewed);
      Enabled(s, a) && Next(s, a).records == s.records[j := AddWork(s.records[j], renewed, s.records[j].works[lost])]
  {
  }

  /** Every repaired job takes an enabled re-queue step. */
  lemma RequeueIsAStep(s: System, t: Tables, ids: seq<JobId>, limit: nat, chosen: seq<JobId>,
                       after: map<DispatchId, Dispatch>, repairs: map<JobId, Outbox.Repair>, j: JobId, now: Time)
    requires s.records == ViewOf(t) && Outbox.Repaired(t.dispatches, after, repairs, now)
    requires Listed(Outbox.QueuedJobs(t.jobs, ids), Outbox.OldestFirst(t.jobs), limit, chosen)
    requires repairs.Keys == Outbox.OrphanedAmong(t.attempts, t.dispatches, chosen)
    requires j in repairs && repairs[j].renewed !in s.usedDispatches
    ensures
      var a := Requeue(j, repairs[j].lost, repairs[j].renewed);
      j in t.jobs && Enabled(s, a) && Next(s, a).records == ViewOf(t)[j := RecordOf(t.(dispatches := after), j)]
  {
    hide *;
    RepairedWasOrphaned(t, chosen, repairs.Keys, j);
    ChosenIsQueued(t.jobs, ids, limit, chosen, j);
    LostWasWritten(t, after, repairs, j, now);
    Outbox.RepairsInRecords(t, after, repairs, now, j);
    RecordInView(t, j);
    RequeueStep(s, j, repairs[j].lost, repairs[j].renewed);
  }

  /** Cleanup by hand removes what an enabled cleanup step removes. */
  lemma CleanupIsAStep(s: System, t: Tables, statuses: seq<Status>, ids: seq<JobId>, before: Option<Time>,
                       limit: nat, chosen: seq<JobId>)
    requires s.records == ViewOf(t) && Referential(t)
    requires Listed(Cleanup.Removable(t.jobs, statuses, ids, before), Cleanup.NewestJobs(t.jobs), limit, chosen)
    ensures
      var a := Action.Cleanup(Cleanup.ToSet(chosen));
      Enabled(s, a) && Next(s, a).records == ViewOf(Cleanup.WithoutJobs(t, Cleanup.ToSet(chosen)))
  {
    Cleanup.CleanupTakesFinishedJobs(t, statuses, ids, before, limit, chosen);
  }

  /** So does retention. */
  lemma RetentionIsAStep(s: System, t: Tables, p: Cleanup.RetentionPolicy, chosen: seq<JobId>)
    requires s.records == ViewOf(t) && Referential(t)
    requires Listed(Cleanup.OldJobs(t.jobs, p), Cleanup.OldestJobs(t.jobs), p.limit, chosen)
    ensures
      var a := Action.Cleanup(Cleanup.ToSet(chosen));
      Enabled(s, a) && Next(s, a).records == ViewOf(Cleanup.WithoutJobs(t, Cleanup.ToSet(chosen)))
  {
    Cleanup.RemovalIsClean(t, Cleanup.ToSet(chosen));
  }

  // ----- the dispatcher and the lease machine

  /** What a dispatcher leases is a claim step of the lease machine. */
  lemma ClaimIsALeaseStep(s: L.System, limit: nat, ids: seq<DispatchId>, expires: Time, now: Time)
    requires Listed(Outbox.DueRows(s.rows, now), Outbox.ByDueTime(s.rows), limit, ids)
    ensures
      var a := L.Claim(Cleanup.ToSet(ids), expires, now);
      L.Enabled(s, a) && L.Next(s, a).rows == Outbox.ClaimRows(s.rows, Cleanup.ToSet(ids), |s.batches|, expires)
  {
  }

  /** The statement that settles a row's turn is a mark or release step of the lease machine, by the
      batch that leased the row, and leaves the same outbox. */
  lemma TurnIsALeaseStep(s: L.System, b: Token, d: DispatchId, row: Dispatch, settings: Dispatcher.Settings,
                         turn: Dispatcher.Turn, seen: Dispatcher.Seen, now: Time)
    requires s.maxAttempts == settings.maxAttempts && L.At(s, b, d)
    requires s.batches[b].turns[d] ==
             L.Turn(row.attemptCount, if Dispatcher.Sent(d, row, turn, seen) then L.Sent
                                      else L.Refused(settings.Permanent(d, row, turn, seen)))
    requires seen.held == (d in s.rows && Outbox.HeldBy(s.rows[d], b))
    ensures
      var a := if Dispatcher.Sent(d, row, turn, seen) then L.Mark(b, d, turn.ackFault, turn.at)
               else L.Release(b, d, settings.ReleaseFails(row, turn), settings.RetryAt(row, now));
      L.Enabled(s, a) && L.Next(s, a).rows == settings.RowsAfter(s.rows, d, row, turn, seen, now)
  {
  }

  /** Each turn of the repair loop is a re-queue step of the lease machine. */
  lemma RenewalIsALeaseStep(s: L.System, lost: DispatchId, name: DispatchId, now: Time)
    requires lost in s.rows && s.rows[lost].status == Published && name !in s.used
    ensures
      var a := L.Requeue(lost, name, now);
      L.Enabled(s, a) && L.Next(s, a).rows == Outbox.Renewed(s.rows, lost, name, now)
  {
  }

  // ----- what the dispatcher can build

  /** Under a shared policy the dispatcher can build the message of every outbox row of a stored job. */
  lemma DispatcherCanBuildEveryMessage(run: Run, i: nat, t: Tables, d: DispatchId)
    requires run.Valid() && i < |run.states| && SharedRun(run, i) && run.states[i].records == ViewOf(t)
    requires d in t.dispatches && t.dispatches[d].job in t.jobs
    ensures Constructible(Dispatcher.MessageFromDispatch(d, t.dispatches[d]))
  {
    var j := t.dispatches[d].job;
    assert d in WorksOf(t.dispatches, j) && WorksOf(t.dispatches, j)[d] == t.dispatches[d].work;
    OutboxRowsCanBeBuilt(run, i, j, d);
  }
}
