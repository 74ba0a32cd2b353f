/** The database: one map per table, updated in place by the repository operations. Each
    operation is proved against its effect on the per-job records of Records.dfy, and leaves
    every other job's record as it was. */
module Store {
  import opened Model
  import opened Records

  datatype OutboxStatus = Pending | Publishing | Published | Undeliverable

  /** One outbox row. `work` never changes; the rest is the dispatcher's lease. */
  datatype Dispatch = Dispatch(
    job: JobId,
    work: Work,
    status: OutboxStatus,
    availableAt: Time,
    createdAt: Time,
    publishedAt: Option<Time>,
    attemptCount: nat,
    token: Option<Token>,
    expiresAt: Option<Time>,
    version: nat)

  /** An outbox row as it is first written: due at `availableAt` and held by nobody. */
  function NewDispatch(j: JobId, work: Work, availableAt: Time, now: Time): Dispatch {
    Dispatch(j, work, Pending, availableAt, now, None, 0, None, None, 0)
  }

  /** The row asks for this work of this job from `due` on, and nothing has happened to it yet. */
  predicate WaitsUntil(row: Dispatch, j: JobId, work: Work, due: Time) {
    && row.job == j && row.work == work && row.status == Pending && row.availableAt == due
    && row.attemptCount == 0 && row.token.None? && row.expiresAt.None? && row.publishedAt.None?
  }

  lemma NewDispatchWaits(j: JobId, work: Work, availableAt: Time, now: Time)
    ensures WaitsUntil(NewDispatch(j, work, availableAt, now), j, work, availableAt)
    ensures NewDispatch(j, work, availableAt, now).createdAt == now
  {
  }

  datatype Event = Event(job: JobId, from: Option<Status>, to: Option<Status>)

  datatype Tables = Tables(
    jobs: map<JobId, Job>,
    attempts: map<(JobId, nat), Attempt>,
    dispatches: map<DispatchId, Dispatch>,
    events: seq<Event>,
    generations: map<GenerationId, Option<JobId>>,
    assets: map<AssetId, Option<JobId>>)

  // ----- one job's part of the tables

  function AttemptsOf(t: map<(JobId, nat), Attempt>, j: JobId): map<nat, Attempt> {
    map k | k in t && k.0 == j :: k.1 := t[k]
  }

  function WorksOf(t: map<DispatchId, Dispatch>, j: JobId): map<DispatchId, Work> {
    map d | d in t && t[d].job == j :: t[d].work
  }

  function TrailOf(events: seq<Event>, j: JobId): seq<Mark> {
    if events == [] then []
    else
      var e := events[|events| - 1];
      TrailOf(events[..|events| - 1], j) +
      (if e.job == j && e.to.Some? then [Mark(e.from, e.to.value)] else [])
  }

  function ResultsOf(t: map<GenerationId, Option<JobId>>, j: JobId): set<GenerationId> {
    set g | g in t && t[g] == Some(j)
  }

  function RecordOf(t: Tables, j: JobId): JobRecord
    requires j in t.jobs
  {
    JobRecord(t.jobs[j], AttemptsOf(t.attempts, j), WorksOf(t.dispatches, j), TrailOf(t.events, j),
              ResultsOf(t.generations, j))
  }

  function ViewOf(t: Tables): map<JobId, JobRecord> {
    map j | j in t.jobs :: RecordOf(t, j)
  }

  /** The foreign keys of the attempt, outbox and event tables. */
  predicate Referential(t: Tables) {
    && (forall k :: k in t.attempts ==> k.0 in t.jobs)
    && (forall d :: d in t.dispatches ==> t.dispatches[d].job in t.jobs)
    && (forall i :: 0 <= i < |t.events| ==> t.events[i].job in t.jobs)
  }

  // ----- what one written row does to the records

  lemma WriteTwice<K, V>(m: map<K, V>, k: K, first: V, second: V)
    ensures m[k := first][k := second] == m[k := second] && m[k := first][k] == first
  {
  }

  lemma TrailAfter(events: seq<Event>, e: Event, j: JobId)
    ensures TrailOf(events + [e], j) ==
            TrailOf(events, j) + (if e.job == j && e.to.Some? then [Mark(e.from, e.to.value)] else [])
  {
    assert (events + [e])[..|events|] == events;
  }

  /** If one job's record changes and no other, so does the view. */
  lemma OneRecordChanges(t: Tables, u: Tables, j: JobId, r: JobRecord)
    requires j in t.jobs && u.jobs.Keys == t.jobs.Keys && RecordOf(u, j) == r
    requires forall k :: k in t.jobs && k != j ==> RecordOf(u, k) == RecordOf(t, k)
    ensures ViewOf(u) == ViewOf(t)[j := r]
  {
    hide RecordOf;
  }

  lemma SameRecords(t: Tables, u: Tables)
    requires u.jobs.Keys == t.jobs.Keys && forall k :: k in t.jobs ==> RecordOf(u, k) == RecordOf(t, k)
    ensures ViewOf(u) == ViewOf(t)
  {
    hide RecordOf;
  }

  lemma JobWritten(t: Tables, j: JobId, job: Job)
    requires j in t.jobs && Referential(t)
    ensures Referential(t.(jobs := t.jobs[j := job]))
    ensures ViewOf(t.(jobs := t.jobs[j := job])) == ViewOf(t)[j := RecordOf(t, j).(job := job)]
  {
    OneRecordChanges(t, t.(jobs := t.jobs[j := job]), j, RecordOf(t, j).(job := job));
  }

  lemma AttemptsAfter(t: map<(JobId, nat), Attempt>, j: JobId, n: nat, a: Attempt, k: JobId)
    ensures AttemptsOf(t[(j, n) := a], k) == if k == j then AttemptsOf(t, j)[n := a] else AttemptsOf(t, k)
  {
    var after := AttemptsOf(t[(j, n) := a], k);
    var expected := if k == j then AttemptsOf(t, j)[n := a] else AttemptsOf(t, k);
    forall x: nat
      ensures x in after <==> x in expected
      ensures x in after ==> after[x] == expected[x]
    {
      assert x in after <==> (k, x) in t[(j, n) := a];
      assert x in AttemptsOf(t, k) <==> (k, x) in t;
    }
  }

  lemma AttemptKeepsReferences(t: Tables, j: JobId, n: nat, a: Attempt)
    requires Referential(t) && j in t.jobs
    ensures Referential(t.(attempts := t.attempts[(j, n) := a]))
  {
  }

  lemma AttemptWritten(t: Tables, j: JobId, n: nat, a: Attempt)
    requires Referential(t) && j in t.jobs
    ensures Referential(t.(attempts := t.attempts[(j, n) := a]))
    ensures ViewOf(t.(attempts := t.attempts[(j, n) := a])) ==
            ViewOf(t)[j := RecordOf(t, j).(attempts := AttemptsOf(t.attempts, j)[n := a])]
  {
    hide Referential, AttemptsOf, WorksOf, TrailOf, ResultsOf, ViewOf;
    var u := t.(attempts := t.attempts[(j, n) := a]);
    AttemptKeepsReferences(t, j, n, a);
    forall k | k in t.jobs
      ensures RecordOf(u, k) == if k == j then RecordOf(t, j).(attempts := AttemptsOf(t.attempts, j)[n := a])
                                else RecordOf(t, k)
    {
      AttemptsAfter(t.attempts, j, n, a, k);
    }
    OneRecordChanges(t, u, j, RecordOf(t, j).(attempts := AttemptsOf(t.attempts, j)[n := a]));
  }

  lemma WorksAfter(t: map<DispatchId, Dispatch>, d: DispatchId, row: Dispatch, k: JobId)
    requires d in t ==> t[d].job == row.job
    ensures WorksOf(t[d := row], k) == if k == row.job then WorksOf(t, k)[d := row.work] else WorksOf(t, k)
  {
  }

  lemma DispatchKeepsReferences(t: Tables, d: DispatchId, row: Dispatch)
    requires Referential(t) && row.job in t.jobs
    ensures Referential(t.(dispatches := t.dispatches[d := row]))
  {
  }

  /** A row that is new, or that keeps its job, changes at most its own entry. */
  lemma DispatchWritten(t: Tables, d: DispatchId, row: Dispatch)
    requires Referential(t) && row.job in t.jobs
    requires d in t.dispatches ==> t.dispatches[d].job == row.job
    ensures Referential(t.(dispatches := t.dispatches[d := row]))
    ensures ViewOf(t.(dispatches := t.dispatches[d := row])) ==
            ViewOf(t)[row.job := AddWork(RecordOf(t, row.job), d, row.work)]
  {
    hide Referential, AttemptsOf, WorksOf, TrailOf, ResultsOf, ViewOf;
    var u := t.(dispatches := t.dispatches[d := row]);
    DispatchKeepsReferences(t, d, row);
    forall k | k in t.jobs
      ensures RecordOf(u, k) == if k == row.job then AddWork(RecordOf(t, k), d, row.work) else RecordOf(t, k)
    {
      WorksAfter(t.dispatches, d, row, k);
    }
    OneRecordChanges(t, u, row.job, AddWork(RecordOf(t, row.job), d, row.work));
  }

  lemma EventKeepsReferences(t: Tables, e: Event)
    requires Referential(t) && e.job in t.jobs
    ensures Referential(t.(events := t.events + [e]))
  {
  }

  lemma EventWritten(t: Tables, e: Event)
    requires Referential(t) && e.job in t.jobs
    ensures Referential(t.(events := t.events + [e]))
    ensures ViewOf(t.(events := t.events + [e])) ==
            if e.to.Some?
            then ViewOf(t)[e.job := RecordOf(t, e.job).(trail := TrailOf(t.events, e.job) + [Mark(e.from, e.to.value)])]
            else ViewOf(t)
  {
    hide Referential, AttemptsOf, WorksOf, TrailOf, ResultsOf, ViewOf;
    var u := t.(events := t.events + [e]);
    EventKeepsReferences(t, e);
    forall k | k in t.jobs
      ensures RecordOf(u, k) == if k == e.job && e.to.Some?
                                then RecordOf(t, k).(trail := TrailOf(t.events, k) + [Mark(e.from, e.to.value)])
                                else RecordOf(t, k)
    {
      TrailAfter(t.events, e, k);
      assert TrailOf(t.events, k) + [] == TrailOf(t.events, k);
    }
    if e.to.Some? {
      OneRecordChanges(t, u, e.job,
                       RecordOf(t, e.job).(trail := TrailOf(t.events, e.job) + [Mark(e.from, e.to.value)]));
    } else {
      SameRecords(t, u);
    }
  }

  lemma ResultsAfter(t: map<GenerationId, Option<JobId>>, g: GenerationId, j: JobId, k: JobId)
    requires g !in t && ResultsOf(t, j) == {}
    ensures ResultsOf(t[g := Some(j)], k) == if k == j then {g} else ResultsOf(t, k)
  {
  }

  lemma GenerationWritten(t: Tables, j: JobId, g: GenerationId)
    requires Referential(t) && g !in t.generations && ResultsOf(t.generations, j) == {}
    ensures Referential(t.(generations := t.generations[g := Some(j)]))
    ensures ViewOf(t.(generations := t.generations[g := Some(j)])) ==
            if j in t.jobs then ViewOf(t)[j := Produce(RecordOf(t, j), g)] else ViewOf(t)
  {
    hide AttemptsOf, WorksOf, TrailOf, ResultsOf, ViewOf;
    var u := t.(generations := t.generations[g := Some(j)]);
    forall k | k in t.jobs
      ensures RecordOf(u, k) == if k == j then Produce(RecordOf(t, k), g) else RecordOf(t, k)
    {
      ResultsAfter(t.generations, g, j, k);
    }
    if j in t.jobs {
      OneRecordChanges(t, u, j, Produce(RecordOf(t, j), g));
    } else {
      SameRecords(t, u);
    }
  }

  lemma {:induction false} TrailOfStranger(events: seq<Event>, j: JobId)
    requires forall i :: 0 <= i < |events| ==> events[i].job != j
    ensures TrailOf(events, j) == []
  {
    if events != [] {
      TrailOfStranger(events[..|events| - 1], j);
    }
  }

  lemma JobInserted(t: Tables, j: JobId, job: Job)
    requires Referential(t) && j !in t.jobs && ResultsOf(t.generations, j) == {}
    ensures Referential(t.(jobs := t.jobs[j := job]))
    ensures ViewOf(t.(jobs := t.jobs[j := job])) == ViewOf(t)[j := JobRecord(job, map[], map[], [], {})]
  {
    hide ViewOf, RecordOf;
    var u, empty := t.(jobs := t.jobs[j := job]), JobRecord(job, map[], map[], [], {});
    StrangerIsEmpty(t, j, job);
    forall k | k in t.jobs
      ensures RecordOf(u, k) == RecordOf(t, k)
    {
      JobApart(t, j, job, k);
    }
    NewRecord(t, u, j, empty);
  }

  lemma StrangerIsEmpty(t: Tables, j: JobId, job: Job)
    requires Referential(t) && j !in t.jobs && ResultsOf(t.generations, j) == {}
    ensures RecordOf(t.(jobs := t.jobs[j := job]), j) == JobRecord(job, map[], map[], [], {})
  {
    TrailOfStranger(t.events, j);
    assert AttemptsOf(t.attempts, j) == map[];
    assert WorksOf(t.dispatches, j) == map[];
  }

  lemma JobApart(t: Tables, j: JobId, job: Job, k: JobId)
    requires k in t.jobs && k != j
    ensures RecordOf(t.(jobs := t.jobs[j := job]), k) == RecordOf(t, k)
  {
  }

  lemma NewRecord(t: Tables, u: Tables, j: JobId, r: JobRecord)
    requires u.jobs.Keys == t.jobs.Keys + {j} && RecordOf(u, j) == r
    requires forall k :: k in t.jobs && k != j ==> RecordOf(u, k) == RecordOf(t, k)
    ensures ViewOf(u) == ViewOf(t)[j := r]
  {
    hide RecordOf;
  }

  // ----- result rows

  /** The generations once a job has one. */
  function Generated(t: map<GenerationId, Option<JobId>>, j: JobId, g: GenerationId): map<GenerationId, Option<JobId>> {
    if ResultsOf(t, j) == {} then t[g := Some(j)] else t
  }

  function AssetSaved(t: map<AssetId, Option<JobId>>, a: AssetId, j: JobId): map<AssetId, Option<JobId>> {
    t[a := if a in t && t[a].Some? then t[a] else Some(j)]
  }

  function AssetsSaved(t: map<AssetId, Option<JobId>>, files: seq<AssetId>, j: JobId): map<AssetId, Option<JobId>> {
    if files == [] then t
    else AssetSaved(AssetsSaved(t, files[..|files| - 1], j), files[|files| - 1], j)
  }

  /** Exactly the given files are added, each linked to the job unless it was linked before, and no other
      asset changes. */
  lemma {:induction false} AssetsGained(t: map<AssetId, Option<JobId>>, files: seq<AssetId>, j: JobId)
    ensures AssetsSaved(t, files, j).Keys == t.Keys + set a | a in files
    ensures forall a :: a in files ==>
              AssetsSaved(t, files, j)[a] == if a in t && t[a].Some? then t[a] else Some(j)
    ensures forall a :: a in t && a !in files ==> AssetsSaved(t, files, j)[a] == t[a]
  {
    if files != [] {
      AssetsGained(t, files[..|files| - 1], j);
      assert files == files[..|files| - 1] + [files[|files| - 1]];
    }
  }

  // ----- the store

  class Store {
    var jobs: map<JobId, Job>
    var attempts: map<(JobId, nat), Attempt>
    var dispatches: map<DispatchId, Dispatch>
    var events: seq<Event>
    var generations: map<GenerationId, Option<JobId>>
    var assets: map<AssetId, Option<JobId>>

    constructor ()
      ensures Valid() && View() == map[]
      ensures dispatches == map[] && generations == map[] && assets == map[]
    {
      jobs, attempts, dispatches, events, generations, assets := map[], map[], map[], [], map[], map[];
    }

    function Rows(): Tables
      reads this
    {
      Tables(jobs, attempts, dispatches, events, generations, assets)
    }

    ghost predicate Valid()
      reads this
    {
      Referential(Rows())
    }

    ghost function View(): (view: map<JobId, JobRecord>)
      reads this
      ensures view.Keys == jobs.Keys
      ensures forall j :: j in jobs ==> view[j].job == jobs[j]
    {
      ViewOf(Rows())
    }

    /** Undo everything a transaction did since `saved` was taken. */
    method Rollback(saved: Tables)
      modifies this
      ensures Rows() == saved
    {
      jobs, attempts, dispatches := saved.jobs, saved.attempts, saved.dispatches;
      events, generations, assets := saved.events, saved.generations, saved.assets;
    }

    method InsertJob(j: JobId, job: Job)
      requires Valid() && j !in jobs && ResultsOf(generations, j) == {}
      modifies this`jobs
      ensures Valid() && jobs == old(jobs)[j := job]
      ensures View() == old(View())[j := JobRecord(job, map[], map[], [], {})]
    {
      ghost var t := Rows();
      JobInserted(t, j, job);
      hide ViewOf, Referential;
      jobs := jobs[j := job];
      assert Rows() == t.(jobs := jobs);
    }

    /** Events without statuses leave every record alone. */
    method AppendEvent(j: JobId, from: Option<Status>, to: Option<Status>)
      requires Valid() && j in jobs
      modifies this`events
      ensures Valid() && events == old(events) + [Event(j, from, to)]
      ensures View() == if to.Some?
                        then old(View())[j := old(View())[j].(trail := old(View())[j].trail + [Mark(from, to.value)])]
                        else old(View())
    {
      ghost var t := Rows();
      EventWritten(t, Event(j, from, to));
      hide ViewOf, Referential;
      events := events + [Event(j, from, to)];
      assert Rows() == t.(events := events);
    }

    method WriteRow(j: JobId, job: Job)
      requires Valid() && j in jobs
      modifies this`jobs
      ensures Valid() && jobs == old(jobs)[j := job]
      ensures View() == old(View())[j := old(View())[j].(job := job)]
    {
      ghost var t := Rows();
      JobWritten(t, j, job);
      hide ViewOf, Referential;
      jobs := jobs[j := job];
      assert Rows() == t.(jobs := jobs);
    }

    method WriteRowAndEvent(j: JobId, job: Job, to: Status)
      requires Valid() && j in jobs
      modifies this`jobs, this`events
      ensures Valid() && jobs == old(jobs)[j := job]
      ensures View() ==
              old(View())[j := old(View())[j].(
                job := job, trail := old(View())[j].trail + [Mark(Some(old(jobs)[j].status), to)])]
    {
      hide ViewOf, Referential;
      var from := jobs[j].status;
      WriteRow(j, job);
      AppendEvent(j, Some(from), Some(to));
    }

    /** The versioned compare-and-swap: it commits one version and one event, or nothing. */
    method TransitionJob(j: JobId, expected: nat, status: Status, stage: Option<Stage>, task: Option<TaskId>, now: Time)
      returns (out: Outcome<Job>)
      requires Valid()
      modifies this`jobs, this`events
      ensures Valid()
      ensures out.Err? ==> Rows() == old(Rows())
      ensures j !in old(jobs) ==> out == Err(JobMissing)
      ensures j in old(jobs) ==>
                match Transition(old(View())[j], expected, status, stage, task, now)
                case Err(e) => out == Err(e)
                case Ok(r) => out == Ok(r.job) && View() == old(View())[j := r]
    {
      if j !in jobs {
        return Err(JobMissing);
      }
      var existing := jobs[j];
      assert View()[j].job == existing;
      out := Records.TransitionJob(existing, expected, status, stage, task, now);
      if out.Ok? {
        WriteRowAndEvent(j, out.value, status);
      }
    }

    method ClaimJobAttempt(j: JobId, expected: nat, stage: Stage, attempt: nat, allowRunning: bool, now: Time)
      returns (claimed: Option<Job>)
      requires Valid()
      modifies this`jobs
      ensures Valid()
      ensures claimed == if j in old(jobs) then ClaimJob(old(jobs)[j], expected, stage, attempt, allowRunning, now)
                         else None
      ensures claimed.None? ==> jobs == old(jobs)
      ensures claimed.Some? ==> View() == old(View())[j := old(View())[j].(job := claimed.value)]
    {
      claimed := None;
      if j in jobs {
        claimed := ClaimJob(jobs[j], expected, stage, attempt, allowRunning, now);
        if claimed.Some? {
          WriteRow(j, claimed.value);
        }
      }
    }

    method UpdateJobAttemptSummary(j: JobId, stage: Stage, attempt: nat, now: Time) returns (updated: Option<Job>)
      requires Valid()
      modifies this`jobs
      ensures Valid()
      ensures updated == if j in old(jobs) then SummarizeJob(old(jobs)[j], stage, attempt, now) else None
      ensures updated.None? ==> jobs == old(jobs)
      ensures updated.Some? ==> View() == old(View())[j := old(View())[j].(job := updated.value)]
    {
      updated := None;
      if j in jobs {
        updated := SummarizeJob(jobs[j], stage, attempt, now);
        if updated.Some? {
          WriteRow(j, updated.value);
        }
      }
    }

    /** Attempt numbers are unique per job; a second row with one number is refused. */
    method CreateAttempt(j: JobId, n: nat, stage: Stage, status: Status) returns (created: bool)
      requires Valid() && j in jobs
      modifies this`attempts
      ensures Valid() && created == (n !in old(View())[j].attempts)
      ensures !created ==> attempts == old(attempts)
      ensures created ==>
                View() == old(View())[j := old(View())[j].(
                  attempts := old(View())[j].attempts[n := Attempt(stage, status)])]
    {
      created := (j, n) !in attempts;
      assert created == (n !in AttemptsOf(attempts, j));
      if created {
        ghost var t := Rows();
        AttemptWritten(t, j, n, Attempt(stage, status));
        hide ViewOf, Referential, AttemptsOf;
        attempts := attempts[(j, n) := Attempt(stage, status)];
        assert Rows() == t.(attempts := attempts);
      }
    }

    method GetAttempt(j: JobId, n: nat) returns (found: Option<Attempt>)
      ensures found == if (j, n) in attempts then Some(attempts[(j, n)]) else None
      ensures j in jobs ==> found == if n in View()[j].attempts then Some(View()[j].attempts[n]) else None
    {
      found := if (j, n) in attempts then Some(attempts[(j, n)]) else None;
      assert (j, n) in attempts <==> n in AttemptsOf(attempts, j);
    }

    method HasRunningStageAttempt(j: JobId, stage: Stage) returns (found: bool)
      requires j in jobs
      ensures found == RunningAt(View()[j], stage)
    {
      found := exists k :: k in attempts && k.0 == j && attempts[k] == Attempt(stage, Running);
      if found {
        var k :| k in attempts && k.0 == j && attempts[k] == Attempt(stage, Running);
        assert k.1 in AttemptsOf(attempts, j);
      } else {
        forall n | n in AttemptsOf(attempts, j)
          ensures AttemptsOf(attempts, j)[n] != Attempt(stage, Running)
        {
          assert (j, n) in attempts;
        }
      }
    }

    /** Only a running attempt is closed; any other is left as it was. */
    method FinishAttempt(j: JobId, n: nat, status: Status)
      requires Valid()
      modifies this`attempts
      ensures Valid()
      ensures View() == if j in jobs then old(View())[j := Finish(old(View())[j], n, status)] else old(View())
    {
      assert j in jobs ==> ((j, n) in attempts <==> n in AttemptsOf(attempts, j));
      if (j, n) in attempts && attempts[(j, n)].status == Running {
        ghost var t := Rows();
        AttemptWritten(t, j, n, attempts[(j, n)].(status := status));
        hide ViewOf, Referential;
        attempts := attempts[(j, n) := attempts[(j, n)].(status := status)];
        assert Rows() == t.(attempts := attempts);
      }
    }

    method CreateDispatch(d: DispatchId, j: JobId, work: Work, availableAt: Time, now: Time)
      requires Valid() && j in jobs && d !in dispatches
      modifies this`dispatches
      ensures Valid()
      ensures dispatches == old(dispatches)[d := NewDispatch(j, work, availableAt, now)]
      ensures WaitsUntil(dispatches[d], j, work, availableAt) && dispatches[d].createdAt == now
      ensures View() == old(View())[j := AddWork(old(View())[j], d, work)]
    {
      ghost var t := Rows();
      var row := NewDispatch(j, work, availableAt, now);
      DispatchWritten(t, d, row);
      hide ViewOf, Referential, AddWork;
      dispatches := dispatches[d := row];
      assert Rows() == t.(dispatches := dispatches);
    }

    /** One generation row per job: a second call answers with the first row. */
    method RecordGeneration(j: JobId, g: GenerationId) returns (id: GenerationId)
      requires Valid() && g !in generations
      modifies this`generations
      ensures Valid()
      ensures View() == if j in jobs then old(View())[j := Produce(old(View())[j], g)] else old(View())
      ensures id in generations && generations[id] == Some(j)
      ensures generations == Generated(old(generations), j, g)
      ensures generations == old(generations) || generations == old(generations)[g := Some(j)]
      ensures id == g <==> forall x :: x in old(generations) ==> old(generations)[x] != Some(j)
    {
      if exists x :: x in generations && generations[x] == Some(j) {
        id :| id in generations && generations[id] == Some(j);
        assert id in ResultsOf(generations, j);
      } else {
        assert ResultsOf(generations, j) == {};
        ghost var t := Rows();
        GenerationWritten(t, j, g);
        hide ViewOf, Referential, ResultsOf;
        generations := generations[g := Some(j)];
        assert Rows() == t.(generations := generations);
        id := g;
      }
    }

    /** A file that is already known keeps the job it was saved for. */
    method SaveAsset(a: AssetId, j: JobId)
      modifies this`assets
      ensures Valid() == old(Valid()) && View() == old(View())
      ensures assets == AssetSaved(old(assets), a, j)
    {
      assets := AssetSaved(assets, a, j);
      assert ViewOf(Rows()) == old(ViewOf(Rows()));
    }
  }
}
