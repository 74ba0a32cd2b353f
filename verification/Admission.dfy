/** Atomic admission with deduplication, and the administrative repair of lost messages. */
module Admission {
  import opened Model
  import Records
  import opened Store
  import opened Queries

  datatype AdmissionResult = Created(job: JobId) | Existing(job: JobId) | Rejected

  /** An active job of this kind that was asked for with this digest. */
  predicate ActiveMatch(jobs: map<JobId, Job>, kind: Kind, key: RequestKey, j: JobId) {
    j in jobs && Active(jobs[j].status) && jobs[j].kind == kind && jobs[j].key == Some(key)
  }

  predicate AnyActive(jobs: map<JobId, Job>, kind: Kind, key: RequestKey) {
    exists j :: j in jobs && ActiveMatch(jobs, kind, key, j)
  }

  /** Some usable candidate digest belongs to an active job. */
  predicate Deduplicated(jobs: map<JobId, Job>, kind: Kind, candidates: seq<Option<RequestKey>>) {
    exists i :: 0 <= i < |candidates| && candidates[i].Some? && AnyActive(jobs, kind, candidates[i].value)
  }

  predicate Admissible(stage: Stage, payloadVersion: int, maxAttempts: int) {
    stage != Admitted && stage != Finalize && payloadVersion >= 1 && maxAttempts >= 1
  }

  /** The job is queued or running and was asked for with this digest. */
  predicate AskedFor(job: Job, kind: Kind, candidate: Option<RequestKey>) {
    (job.status == Queued || job.status == Running) && job.kind == kind && candidate.Some? && job.key == candidate
  }

  /** The job was asked for with one of the candidates, and none with an earlier candidate. */
  ghost predicate Answers(jobs: map<JobId, Job>, kind: Kind, candidates: seq<Option<RequestKey>>, j: JobId) {
    j in jobs &&
    exists i :: 0 <= i < |candidates| && AskedFor(jobs[j], kind, candidates[i]) && Fresh(jobs, kind, candidates[..i])
  }

  /** No job was asked for with one of the candidates. */
  predicate Fresh(jobs: map<JobId, Job>, kind: Kind, candidates: seq<Option<RequestKey>>) {
    forall i, j :: 0 <= i < |candidates| && j in jobs ==> !AskedFor(jobs[j], kind, candidates[i])
  }

  /** The admitted row: what was asked for, and nothing of it done yet. */
  predicate AsAsked(job: Job, kind: Kind, stage: Stage, key: Option<RequestKey>, maxAttempts: int, now: Time) {
    && job.kind == kind && job.stage == stage && job.key == key && job.maxAttempts == maxAttempts
    && job.status == Queued && job.version == 0 && job.attemptCount == 0
    && job.task.None? && job.startedAt.None? && job.createdAt == now && job.updatedAt == now
  }

  lemma NewJobIsAsAsked(job: Job, kind: Kind, stage: Stage, key: Option<RequestKey>, maxAttempts: nat, now: Time)
    requires job == Job(kind, Queued, stage, 0, None, key, 0, maxAttempts, now, now, None)
    ensures AsAsked(job, kind, stage, key, maxAttempts, now)
  {
  }

  lemma NothingFound(jobs: map<JobId, Job>, kind: Kind, candidates: seq<Option<RequestKey>>)
    requires !Deduplicated(jobs, kind, candidates)
    ensures Fresh(jobs, kind, candidates)
  {
    forall i, j | 0 <= i < |candidates| && j in jobs
      ensures !AskedFor(jobs[j], kind, candidates[i])
    {
      assert candidates[i].Some? ==> !AnyActive(jobs, kind, candidates[i].value);
      assert candidates[i].Some? ==> !ActiveMatch(jobs, kind, candidates[i].value, j);
    }
  }

  /** The second call: while a job that was admitted with a digest is active, an admission of its kind that names the
      digest among its candidates finds a job, so by `Admit` it is answered with one and admits nothing. */
  lemma AskedAgain(jobs: map<JobId, Job>, kind: Kind, stage: Stage, key: RequestKey, maxAttempts: int, now: Time,
                   candidates: seq<Option<RequestKey>>, j: JobId, later: Job)
    requires j in jobs && AsAsked(jobs[j], kind, stage, Some(key), maxAttempts, now)
    requires later.kind == jobs[j].kind && later.key == jobs[j].key
    requires later.status == Queued || later.status == Running
    requires Some(key) in candidates
    ensures Deduplicated(jobs[j := later], kind, candidates) && !Fresh(jobs[j := later], kind, candidates)
  {
    var i :| 0 <= i < |candidates| && candidates[i] == Some(key);
    assert ActiveMatch(jobs[j := later], kind, key, j);
    assert AnyActive(jobs[j := later], kind, candidates[i].value);
  }

  class JobAdmissionService {
    constructor () {
    }

    /** The newest active job with this digest, if there is one. */
    method FindRecent(store: Store, kind: Kind, key: RequestKey) returns (found: Option<JobId>)
      ensures found.Some? <==> AnyActive(store.jobs, kind, key)
      ensures found.Some? ==> ActiveMatch(store.jobs, kind, key, found.value)
      ensures found.Some? ==> forall j :: ActiveMatch(store.jobs, kind, key, j) ==>
                store.jobs[j].createdAt <= store.jobs[found.value].createdAt
    {
      var jobs := store.jobs;
      var rows := set j | j in jobs && ActiveMatch(jobs, kind, key, j);
      var newer := (a: JobId, b: JobId) =>
        (if b in jobs then jobs[b].createdAt else 0) <= (if a in jobs then jobs[a].createdAt else 0);
      var listed := Select<JobId>(rows, newer, 1);
      if listed == [] {
        found := None;
        assert rows == {};
        forall j | j in jobs ensures !ActiveMatch(jobs, kind, key, j) { assert j !in rows; }
      } else {
        found := Some(listed[0]);
        assert listed[0] in rows && ActiveMatch(jobs, kind, key, listed[0]);
        forall j | ActiveMatch(jobs, kind, key, j)
          ensures jobs[j].createdAt <= jobs[listed[0]].createdAt
        {
          assert j in rows && (j == listed[0] || j !in listed);
        }
      }
    }

    /** Admission is all or nothing. It answers with an active job one of the digests belongs to
        and changes nothing, or no digest belongs to an active job and exactly one job, one event
        and one pending outbox row for attempt 1 appear. `lookupFault` is a database error before the
        first insert, `fault` one after it. */
    method Admit(store: Store, kind: Kind, stage: Stage, key: Option<RequestKey>, also: seq<Option<RequestKey>>,
                 payloadVersion: int, maxAttempts: int, scheduledAt: Option<Time>, j: JobId, d: DispatchId,
                 lookupFault: bool, fault: bool, now: Time)
      returns (result: AdmissionResult)
      requires store.Valid() && j !in store.jobs && d !in store.dispatches && ResultsOf(store.generations, j) == {}
      modifies store
      ensures store.Valid()
      ensures !result.Created? ==> store.Rows() == old(store.Rows())
      ensures result.Existing? <==>
                && Admissible(stage, payloadVersion, maxAttempts) && !lookupFault
                && Deduplicated(old(store.jobs), kind, [key] + also)
      ensures result.Existing? ==> Answers(store.jobs, kind, [key] + also, result.job)
      ensures stage == Admitted || stage == Finalize || payloadVersion < 1 || maxAttempts < 1 ==> result.Rejected?
      ensures result.Created? <==>
                && Admissible(stage, payloadVersion, maxAttempts) && StageFits(kind, stage) && !lookupFault && !fault
                && !Deduplicated(old(store.jobs), kind, [key] + also)
      ensures result.Created? ==>
                && result.job == j
                && store.View() == old(store.View())[j := Records.Admission(kind, stage, key, maxAttempts, d, now)]
                && store.events == old(store.events) + [Event(j, None, Some(Queued))]
                && store.dispatches == old(store.dispatches)[d := NewDispatch(j, Work(stage, 1),
                     if scheduledAt.Some? then scheduledAt.value else now, now)]
                && store.attempts == old(store.attempts) && store.generations == old(store.generations)
                && store.assets == old(store.assets)
      ensures result.Created? ==>
                && Fresh(old(store.jobs), kind, [key] + also)
                && j in store.jobs && store.jobs == old(store.jobs)[j := store.jobs[j]]
                && AsAsked(store.jobs[j], kind, stage, key, maxAttempts, now)
                && (key.Some? ==> AnyActive(store.jobs, kind, key.value))
                && store.dispatches == old(store.dispatches)[d := store.dispatches[d]]
                && WaitsUntil(store.dispatches[d], j, Work(stage, 1),
                              if scheduledAt.Some? then scheduledAt.value else now)
    {
      hide ViewOf, Referential, ResultsOf, NewDispatch, WaitsUntil;
      if !Admissible(stage, payloadVersion, maxAttempts) || lookupFault {
        return Rejected;
      }
      var candidates := [key] + also;
      var seen: set<RequestKey> := {};
      for i := 0 to |candidates|
        invariant store.Rows() == old(store.Rows()) && store.Valid()
        invariant forall k :: k in seen ==> !AnyActive(store.jobs, kind, k)
        invariant forall k :: 0 <= k < i && candidates[k].Some? ==> candidates[k].value in seen
      {
        NothingFound(store.jobs, kind, candidates[..i]);
        if candidates[i].Some? && candidates[i].value !in seen {
          seen := seen + {candidates[i].value};
          var existing := FindRecent(store, kind, candidates[i].value);
          if existing.Some? {
            assert AskedFor(store.jobs[existing.value], kind, candidates[i]);
            return Existing(existing.value);
          }
        }
      }
      if !StageFits(kind, stage) || fault {
        return Rejected;
      }
      NothingFound(store.jobs, kind, candidates);
      NewDispatchWaits(j, Work(stage, 1), if scheduledAt.Some? then scheduledAt.value else now, now);
      Insert(store, kind, stage, key, maxAttempts, scheduledAt, j, d, now);
      result := Created(j);
      assert key.Some? ==> ActiveMatch(store.jobs, kind, key.value, j);
    }

    method Insert(store: Store, kind: Kind, stage: Stage, key: Option<RequestKey>, maxAttempts: nat,
                  scheduledAt: Option<Time>, j: JobId, d: DispatchId, now: Time)
      requires store.Valid() && j !in store.jobs && d !in store.dispatches && ResultsOf(store.generations, j) == {}
      modifies store`jobs, store`events, store`dispatches
      ensures store.Valid()
      ensures j in store.jobs && store.jobs == old(store.jobs)[j := store.jobs[j]]
      ensures AsAsked(store.jobs[j], kind, stage, key, maxAttempts, now)
      ensures store.View() == old(store.View())[j := Records.Admission(kind, stage, key, maxAttempts, d, now)]
      ensures store.events == old(store.events) + [Event(j, None, Some(Queued))]
      ensures store.dispatches == old(store.dispatches)[d := NewDispatch(j, Work(stage, 1),
                if scheduledAt.Some? then scheduledAt.value else now, now)]
    {
      var job := Job(kind, Queued, stage, 0, None, key, 0, maxAttempts, now, now, None);
      ghost var view, first := store.View(), Records.JobRecord(job, map[], map[], [Mark(None, Queued)], {});
      ghost var second := Records.AddWork(first, d, Work(stage, 1));
      assert second == Records.Admission(kind, stage, key, maxAttempts, d, now);
      NewJobIsAsAsked(job, kind, stage, key, maxAttempts, now);
      hide *;
      InsertQueued(store, j, job);
      WriteTwice(view, j, first, second);
      store.CreateDispatch(d, j, Work(stage, 1), if scheduledAt.Some? then scheduledAt.value else now, now);
      assert store.View() == view[j := second];
    }

    /** The job row and the event that opens its trail. */
    method InsertQueued(store: Store, j: JobId, job: Job)
      requires store.Valid() && j !in store.jobs && ResultsOf(store.generations, j) == {}
      modifies store`jobs, store`events
      ensures store.Valid() && store.jobs == old(store.jobs)[j := job]
      ensures store.View() == old(store.View())[j := Records.JobRecord(job, map[], map[], [Mark(None, Queued)], {})]
      ensures store.events == old(store.events) + [Event(j, None, Some(Queued))]
    {
      hide Store.View, ViewOf, Referential, ResultsOf;
      store.InsertJob(j, job);
      store.AppendEvent(j, None, Some(Queued));
      assert [] + [Mark(None, Queued)] == [Mark(None, Queued)];
    }
  }
}
