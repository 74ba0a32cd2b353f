/** The queue migration of an old jobs table: it closes the duplicates that earlier, best-effort
    admission left behind, so that the unique index over active requests can be created. */
module Migration {
  import opened Model
  import opened Store
  import opened Queries
  import opened Protocol

  type Jobs = map<JobId, Job>

  /** The columns the index is unique over; only active rows with a digest are in it. */
  datatype Group = Group(kind: Kind, key: RequestKey)

  predicate Indexed(job: Job) {
    Active(job.status) && job.key.Some?
  }

  function GroupOf(job: Job): Group
    requires job.key.Some?
  {
    Group(job.kind, job.key.value)
  }

  function Members(jobs: Jobs, group: Group): set<JobId> {
    set j | j in jobs && Indexed(jobs[j]) && GroupOf(jobs[j]) == group
  }

  /** `ORDER BY created_at, id`. */
  predicate EarlierRow(jobs: Jobs, a: JobId, b: JobId) {
    var x, y := if a in jobs then jobs[a].createdAt else 0, if b in jobs then jobs[b].createdAt else 0;
    x < y || (x == y && a <= b)
  }

  function Earliest(jobs: Jobs): (JobId, JobId) -> bool {
    (a: JobId, b: JobId) => EarlierRow(jobs, a, b)
  }

  /** An indexed row loses when an earlier row of its group is active. */
  predicate Loses(jobs: Jobs, j: JobId) {
    j in jobs && Indexed(jobs[j]) &&
    exists k :: k in Members(jobs, GroupOf(jobs[j])) && k != j && EarlierRow(jobs, k, j)
  }

  function Closed(job: Job, now: Time): Job {
    job.(status := Failed, stage := Finalize, version := job.version + 1, updatedAt := now)
  }

  /** The table when the duplicates of some groups have been closed. */
  function ClosedIn(jobs: Jobs, groups: set<Group>, now: Time): Jobs {
    map j | j in jobs :: if Loses(jobs, j) && GroupOf(jobs[j]) in groups then Closed(jobs[j], now) else jobs[j]
  }

  function Normalized(jobs: Jobs): Jobs {
    map j | j in jobs :: if Terminal(jobs[j].status) && jobs[j].stage == Admitted then jobs[j].(stage := Finalize)
                         else jobs[j]
  }

  function Duplicated(jobs: Jobs): set<Group> {
    set j | j in jobs && Indexed(jobs[j]) && |Members(jobs, GroupOf(jobs[j]))| > 1 :: GroupOf(jobs[j])
  }

  /** The whole data repair. */
  function RepairedJobs(jobs: Jobs, now: Time): Jobs {
    ClosedIn(Normalized(jobs), Duplicated(Normalized(jobs)), now)
  }

  /** The condition under which the unique index can be created. */
  predicate IndexHolds(jobs: Jobs) {
    forall j, k ::
      j in jobs && k in jobs && Active(jobs[j].status) && Active(jobs[k].status) && SameRequest(jobs[j], jobs[k])
      ==> j == k
  }

  // ----- what the repair achieves

  lemma TwoMembers(jobs: Jobs, group: Group, j: JobId, k: JobId)
    requires j in Members(jobs, group) && k in Members(jobs, group) && j != k
    ensures |Members(jobs, group)| > 1
  {
    assert Members(jobs, group) == {j, k} + (Members(jobs, group) - {j, k});
    assert |{j, k}| == 2;
  }

  lemma LosersAreDuplicates(jobs: Jobs, j: JobId)
    requires Loses(jobs, j)
    ensures GroupOf(jobs[j]) in Duplicated(jobs)
  {
    var group := GroupOf(jobs[j]);
    var k :| k in Members(jobs, group) && k != j && EarlierRow(jobs, k, j);
    assert j in Members(jobs, group);
    TwoMembers(jobs, group, j, k);
  }

  /** A row stays as it was exactly when no earlier row of its group is active. */
  lemma OnlyLosersAreClosed(jobs: Jobs, now: Time)
    ensures RepairedJobs(jobs, now).Keys == jobs.Keys
    ensures forall j :: j in jobs ==>
              RepairedJobs(jobs, now)[j] == if Loses(jobs, j) then Closed(jobs[j], now) else Normalized(jobs)[j]
  {
    hide RepairedJobs, Loses;
    assert RepairedJobs(jobs, now).Keys == jobs.Keys by { RepairKeepsRows(jobs, now); }
    forall j | j in jobs
      ensures RepairedJobs(jobs, now)[j] == if Loses(jobs, j) then Closed(jobs[j], now) else Normalized(jobs)[j]
    {
      RowRepaired(jobs, now, j);
    }
  }

  lemma RepairKeepsRows(jobs: Jobs, now: Time)
    ensures RepairedJobs(jobs, now).Keys == jobs.Keys
  {
  }

  lemma RowRepaired(jobs: Jobs, now: Time, j: JobId)
    requires j in jobs
    ensures j in RepairedJobs(jobs, now)
    ensures RepairedJobs(jobs, now)[j] == if Loses(jobs, j) then Closed(jobs[j], now) else Normalized(jobs)[j]
  {
    NormalizedLosers(jobs, j);
    if Loses(jobs, j) {
      LosersAreDuplicates(Normalized(jobs), j);
    }
  }

  /** Whatever the old table held, the index can be created after the repair. */
  lemma IndexCanBeCreated(jobs: Jobs, now: Time)
    ensures IndexHolds(RepairedJobs(jobs, now))
  {
    hide Loses, RepairedJobs;
    var repaired := RepairedJobs(jobs, now);
    OnlyLosersAreClosed(jobs, now);
    forall j, k | j in repaired && k in repaired && j != k && SameRequest(repaired[j], repaired[k])
      ensures !(Active(repaired[j].status) && Active(repaired[k].status))
    {
      if Active(jobs[j].status) && Active(jobs[k].status) {
        OneOfTwoLoses(jobs, j, k);
      }
    }
  }

  lemma OneOfTwoLoses(jobs: Jobs, j: JobId, k: JobId)
    requires j in jobs && k in jobs && j != k && Active(jobs[j].status) && Active(jobs[k].status) &&
             SameRequest(jobs[j], jobs[k])
    ensures Loses(jobs, j) || Loses(jobs, k)
  {
    assert j in Members(jobs, GroupOf(jobs[j])) && k in Members(jobs, GroupOf(jobs[j]));
    assert EarlierRow(jobs, j, k) || EarlierRow(jobs, k, j);
  }

  /** Normalizing finished rows does not change who loses. */
  lemma NormalizedLosers(jobs: Jobs, j: JobId)
    ensures Loses(Normalized(jobs), j) == Loses(jobs, j)
  {
    if j in jobs && Indexed(jobs[j]) {
      assert Members(Normalized(jobs), GroupOf(jobs[j])) == Members(jobs, GroupOf(jobs[j]));
      forall k
        ensures EarlierRow(Normalized(jobs), k, j) == EarlierRow(jobs, k, j)
      {
      }
    }
  }

  lemma FirstDoesNotLose(jobs: Jobs, group: Group, k: JobId)
    requires First(Members(jobs, group), Earliest(jobs), k)
    ensures !Loses(jobs, k)
  {
    forall i | i in Members(jobs, group) && i != k
      ensures !EarlierRow(jobs, i, k)
    {
      assert Earliest(jobs)(k, i);
    }
  }

  /** Every request that was active before the repair is active after it, in its earliest row. */
  lemma EveryRequestSurvives(jobs: Jobs, now: Time, j: JobId) returns (k: JobId)
    requires j in jobs && Indexed(jobs[j])
    ensures First(Members(jobs, GroupOf(jobs[j])), Earliest(jobs), k)
    ensures k in jobs && SameRequest(jobs[k], jobs[j]) && Active(jobs[k].status) &&
            RepairedJobs(jobs, now)[k] == jobs[k]
  {
    var group := GroupOf(jobs[j]);
    assert j in Members(jobs, group);
    FirstExists(Members(jobs, group), Earliest(jobs));
    k :| First(Members(jobs, group), Earliest(jobs), k);
    FirstDoesNotLose(jobs, group, k);
    OnlyLosersAreClosed(jobs, now);
  }

  /** A second repair finds nothing to do. */
  lemma RepairIsIdempotent(jobs: Jobs, now: Time, later: Time)
    ensures RepairedJobs(RepairedJobs(jobs, now), later) == RepairedJobs(jobs, now)
  {
    hide RepairedJobs, Loses, IndexHolds;
    var once := RepairedJobs(jobs, now);
    OnlyLosersAreClosed(jobs, now);
    OnlyLosersAreClosed(once, later);
    IndexCanBeCreated(jobs, now);
    forall j | j in once
      ensures RepairedJobs(once, later)[j] == once[j]
    {
      NobodyLoses(once, j);
    }
  }

  lemma NobodyLoses(jobs: Jobs, j: JobId)
    requires IndexHolds(jobs)
    ensures !Loses(jobs, j)
  {
    if j in jobs && Indexed(jobs[j]) {
      forall k | k in Members(jobs, GroupOf(jobs[j]))
        ensures k == j
      {
        assert SameRequest(jobs[j], jobs[k]);
      }
    }
  }

  // ----- the repair, told by the columns

  /** Two queued or running jobs that were asked for with one digest, of one kind and hash version. */
  predicate Rivals(a: Job, b: Job) {
    && (a.status == Queued || a.status == Running) && (b.status == Queued || b.status == Running)
    && a.key.Some? && a.key == b.key && a.kind == b.kind
  }

  /** Row `i` was created before row `j`, or at the same time with the smaller id. */
  predicate CameFirst(jobs: Jobs, i: JobId, j: JobId)
    requires i in jobs && j in jobs
  {
    jobs[i].createdAt < jobs[j].createdAt || (jobs[i].createdAt == jobs[j].createdAt && i < j)
  }

  /** A rival came first. */
  ghost predicate Beaten(jobs: Jobs, j: JobId)
    requires j in jobs
  {
    exists i :: i in jobs && Rivals(jobs[i], jobs[j]) && CameFirst(jobs, i, j)
  }

  /** What may become of a row: a beaten one fails, a finished one that never left its first stage is moved to the
      last, and any other stays as it was. */
  ghost predicate RowRepairedTo(jobs: Jobs, j: JobId, after: Job, now: Time)
    requires j in jobs
  {
    var before := jobs[j];
    && after.kind == before.kind && after.key == before.key && after.task == before.task
    && after.attemptCount == before.attemptCount && after.maxAttempts == before.maxAttempts
    && after.createdAt == before.createdAt && after.startedAt == before.startedAt
    && if Beaten(jobs, j)
       then
         && after.status == Failed && after.stage == Finalize
         && after.version == before.version + 1 && after.updatedAt == now
       else
         && after.status == before.status && after.version == before.version && after.updatedAt == before.updatedAt
         && after.stage == (if before.stage == Admitted && before.status != Queued && before.status != Running
                            then Finalize else before.stage)
  }

  lemma BeatenLoses(jobs: Jobs, j: JobId)
    requires j in jobs
    ensures Beaten(jobs, j) <==> Loses(jobs, j)
  {
    if Beaten(jobs, j) {
      var i :| i in jobs && Rivals(jobs[i], jobs[j]) && CameFirst(jobs, i, j);
      assert i in Members(jobs, GroupOf(jobs[j])) && i != j && EarlierRow(jobs, i, j);
    }
    if Loses(jobs, j) {
      var k :| k in Members(jobs, GroupOf(jobs[j])) && k != j && EarlierRow(jobs, k, j);
      assert Rivals(jobs[k], jobs[j]) && CameFirst(jobs, k, j);
    }
  }

  /** The repair fails exactly the rows that are beaten, and how. */
  lemma RepairTold(jobs: Jobs, now: Time, j: JobId)
    requires j in jobs
    ensures j in RepairedJobs(jobs, now) && RowRepairedTo(jobs, j, RepairedJobs(jobs, now)[j], now)
  {
    hide RepairedJobs, Loses, Beaten;
    OnlyLosersAreClosed(jobs, now);
    BeatenLoses(jobs, j);
  }

  lemma AllRowsTold(jobs: Jobs, now: Time)
    ensures RepairedJobs(jobs, now).Keys == jobs.Keys
    ensures forall j :: j in jobs ==> RowRepairedTo(jobs, j, RepairedJobs(jobs, now)[j], now)
  {
    hide RepairedJobs, RowRepairedTo;
    OnlyLosersAreClosed(jobs, now);
    forall j | j in jobs
      ensures RowRepairedTo(jobs, j, RepairedJobs(jobs, now)[j], now)
    {
      RepairTold(jobs, now, j);
    }
  }

  /** The row a request survives in came before every rival, and it is as it was. */
  lemma SurvivorCameFirst(jobs: Jobs, now: Time, j: JobId) returns (k: JobId)
    requires j in jobs && Rivals(jobs[j], jobs[j])
    ensures k in jobs && Rivals(jobs[k], jobs[j]) && RepairedJobs(jobs, now)[k] == jobs[k]
    ensures forall i :: i in jobs && Rivals(jobs[i], jobs[j]) ==> i == k || CameFirst(jobs, k, i)
  {
    hide RepairedJobs;
    k := EveryRequestSurvives(jobs, now, j);
    forall i | i in jobs && Rivals(jobs[i], jobs[j])
      ensures i == k || CameFirst(jobs, k, i)
    {
      assert i in Members(jobs, GroupOf(jobs[j]));
      assert Earliest(jobs)(k, i);
    }
  }

  // ----- the migration itself

  lemma CloseNext(jobs: Jobs, done: set<Group>, group: Group, rows: seq<JobId>, i: nat, now: Time)
    requires group !in done && Listed(Members(jobs, group), Earliest(jobs), |Members(jobs, group)|, rows)
    requires 1 <= i < |rows|
    ensures rows[i] in ClosedUpTo(jobs, done, rows, i, now) &&
            ClosedUpTo(jobs, done, rows, i, now)[rows[i]] == jobs[rows[i]]
    ensures ClosedUpTo(jobs, done, rows, i, now)[rows[i] := Closed(jobs[rows[i]], now)] ==
            ClosedUpTo(jobs, done, rows, i + 1, now)
  {
    assert rows[i] in Members(jobs, group) && rows[i] !in rows[1..i];
    assert forall j :: j in rows[1..i + 1] <==> j in rows[1..i] || j == rows[i];
    hide Listed, Loses, Closed, Members;
  }

  lemma CloseDone(jobs: Jobs, done: set<Group>, group: Group, rows: seq<JobId>, now: Time)
    requires rows != [] && Listed(Members(jobs, group), Earliest(jobs), |Members(jobs, group)|, rows)
    ensures ClosedUpTo(jobs, done, rows, |rows|, now) == ClosedIn(jobs, done + {group}, now)
  {
    assert rows[1..|rows|] == rows[1..];
    forall j | j in jobs
      ensures j in rows[1..] <==> Loses(jobs, j) && GroupOf(jobs[j]) == group
    {
      LosersAreListedLate(jobs, group, rows, j);
    }
    hide Listed, Loses, Closed, Members;
  }

  /** The losers of a group are the rows listed after the first. */
  lemma LosersAreListedLate(jobs: Jobs, group: Group, rows: seq<JobId>, j: JobId)
    requires rows != [] && Listed(Members(jobs, group), Earliest(jobs), |Members(jobs, group)|, rows) && j in jobs
    ensures j in rows[1..] <==> Loses(jobs, j) && GroupOf(jobs[j]) == group
  {
    AllListed(Members(jobs, group), Earliest(jobs), |Members(jobs, group)|, rows);
    if j in rows[1..] {
      var p :| 0 < p < |rows| && rows[p] == j;
      assert Earliest(jobs)(rows[0], rows[p]) && rows[0] in Members(jobs, group);
    }
    forall x | x in Members(jobs, group)
      ensures Earliest(jobs)(rows[0], x)
    {
      var p :| 0 <= p < |rows| && rows[p] == x;
    }
    FirstDoesNotLose(jobs, group, rows[0]);
    assert j in rows ==> j == rows[0] || j in rows[1..];
  }

  /** The table when the first rows of one more group's list have been closed. */
  function ClosedUpTo(jobs: Jobs, done: set<Group>, rows: seq<JobId>, i: nat, now: Time): Jobs
    requires 1 <= i <= |rows|
  {
    map j | j in jobs :: if j in rows[1..i] then Closed(jobs[j], now) else ClosedIn(jobs, done, now)[j]
  }

  lemma NothingClosed(jobs: Jobs, now: Time)
    ensures ClosedIn(jobs, {}, now) == jobs
  {
  }

  /** Closing other groups leaves a group's members and their order alone. */
  lemma OtherGroupsApart(jobs: Jobs, done: set<Group>, group: Group, now: Time)
    requires group !in done
    ensures Members(ClosedIn(jobs, done, now), group) == Members(jobs, group)
    ensures forall a, b :: Earliest(ClosedIn(jobs, done, now))(a, b) == Earliest(jobs)(a, b)
  {
  }

  lemma DuplicatesHaveRows(jobs: Jobs, group: Group)
    requires group in Duplicated(jobs)
    ensures Members(jobs, group) != {}
  {
  }

  class QueueFoundation {
    constructor () {
    }

    /** Repair the jobs table in place; every other table stays as it is. */
    method Migrate(store: Store, now: Time)
      modifies store`jobs
      ensures store.jobs == RepairedJobs(old(store.jobs), now) && store.jobs.Keys == old(store.jobs).Keys
      ensures forall j :: j in store.jobs ==> RowRepairedTo(old(store.jobs), j, store.jobs[j], now)
    {
      hide Normalized, Duplicated, ClosedIn, RowRepairedTo;
      store.jobs := Normalized(store.jobs);
      ghost var jobs := store.jobs;
      var groups := Duplicated(store.jobs);
      ghost var done: set<Group> := {};
      NothingClosed(jobs, now);
      while groups != {}
        invariant store.jobs == ClosedIn(jobs, done, now) && done + groups == Duplicated(jobs) && done !! groups
        decreases |groups|
      {
        var group :| group in groups;
        groups := groups - {group};
        CloseGroup(store, jobs, done, group, now);
        done := done + {group};
      }
      AllRowsTold(old(store.jobs), now);
    }

    method CloseGroup(store: Store, ghost jobs: Jobs, ghost done: set<Group>, group: Group, now: Time)
      requires store.jobs == ClosedIn(jobs, done, now) && group !in done && group in Duplicated(jobs)
      modifies store`jobs
      ensures store.jobs == ClosedIn(jobs, done + {group}, now)
    {
      hide *;
      var rows := ListGroup(store, jobs, done, group, now);
      assert rows[1..1] == [];
      NoneOfGroup(jobs, done, rows, now);
      for i := 1 to |rows|
        invariant store.jobs == ClosedUpTo(jobs, done, rows, i, now)
      {
        CloseNext(jobs, done, group, rows, i, now);
        store.jobs := store.jobs[rows[i] := Closed(store.jobs[rows[i]], now)];
      }
      CloseDone(jobs, done, group, rows, now);
    }

    method ListGroup(store: Store, ghost jobs: Jobs, ghost done: set<Group>, group: Group, ghost now: Time)
      returns (rows: seq<JobId>)
      requires store.jobs == ClosedIn(jobs, done, now) && group !in done && group in Duplicated(jobs)
      ensures rows != [] && Listed(Members(jobs, group), Earliest(jobs), |Members(jobs, group)|, rows)
    {
      OtherGroupsApart(jobs, done, group, now);
      DuplicatesHaveRows(jobs, group);
      hide Members, Duplicated, ClosedIn;
      var members := Members(store.jobs, group);
      rows := Select<JobId>(members, Earliest(store.jobs), |members|);
    }
  }

  lemma NoneOfGroup(jobs: Jobs, done: set<Group>, rows: seq<JobId>, now: Time)
    requires rows != []
    ensures ClosedUpTo(jobs, done, rows, 1, now) == ClosedIn(jobs, done, now)
  {
  }

  // ----- the migration runner

  datatype Version = QueueFoundationV1 | ImageJobGenerationV1

  function Migrations(): seq<Version> {
    [QueueFoundationV1, ImageJobGenerationV1]
  }

  /** The jobs table after a migration; the second one only adds a column and an index. */
  function Migrated(version: Version, jobs: Jobs, now: Time): Jobs {
    if version.QueueFoundationV1? then RepairedJobs(jobs, now) else jobs
  }

  /** The jobs table after those of the first `n` migrations that were not applied before. */
  function MigratedTo(n: nat, applied: set<Version>, jobs: Jobs, now: Time): Jobs
    requires n <= |Migrations()|
  {
    if n == 0 then jobs
    else
      var version, before := Migrations()[n - 1], MigratedTo(n - 1, applied, jobs, now);
      if version in applied then before else Migrated(version, before, now)
  }

  lemma EveryVersionIsListed()
    ensures forall v: Version :: v in Migrations()
  {
    forall v: Version
      ensures v in Migrations()
    {
      match v
      case QueueFoundationV1 => assert Migrations()[0] == v;
      case ImageJobGenerationV1 => assert Migrations()[1] == v;
    }
  }

  lemma MigratedSteps(applied: set<Version>, jobs: Jobs, now: Time)
    ensures Migrations() == [QueueFoundationV1, ImageJobGenerationV1]
    ensures MigratedTo(0, applied, jobs, now) == jobs
    ensures MigratedTo(1, applied, jobs, now) == if QueueFoundationV1 in applied then jobs else RepairedJobs(jobs, now)
    ensures MigratedTo(2, applied, jobs, now) == MigratedTo(1, applied, jobs, now)
  {
    hide RepairedJobs;
  }

  class SchemaMigrations {
    const foundation: QueueFoundation
    var applied: set<Version>

    constructor (foundation: QueueFoundation)
      ensures applied == {} && this.foundation == foundation
    {
      this.foundation, applied := foundation, {};
    }

    /** Apply what is missing, in order, each in a savepoint of its own. A migration that fails leaves
        the table as the ones before it made it, is not recorded, and stops the run. */
    method Run(store: Store, faults: set<Version>, now: Time) returns (failed: Option<Version>)
      modifies this, store`jobs
      ensures failed.None? ==>
                && applied == old(applied) + (set v | v in Migrations())
                && store.jobs == MigratedTo(|Migrations()|, old(applied), old(store.jobs), now)
      ensures failed.Some? ==>
                && failed.value in faults && failed.value !in applied
                && exists n :: 0 <= n < |Migrations()| && Migrations()[n] == failed.value
                     && applied == old(applied) + (set v | v in Migrations()[..n])
                     && store.jobs == MigratedTo(n, old(applied), old(store.jobs), now)
      ensures failed.None? ==> applied == old(applied) + {QueueFoundationV1, ImageJobGenerationV1}
      ensures failed == Some(QueueFoundationV1) || QueueFoundationV1 in old(applied) ==> store.jobs == old(store.jobs)
      ensures failed != Some(QueueFoundationV1) && QueueFoundationV1 !in old(applied) ==>
                store.jobs == RepairedJobs(old(store.jobs), now) && QueueFoundationV1 in applied
      ensures forall v :: v in faults && v !in old(applied) ==> failed.Some?
    {
      hide RepairedJobs;
      MigratedSteps(applied, store.jobs, now);
      assert Migrations()[..0] == [];
      for i := 0 to |Migrations()|
        invariant applied == old(applied) + (set v | v in Migrations()[..i])
        invariant store.jobs == MigratedTo(i, old(applied), old(store.jobs), now)
        invariant forall v :: v in Migrations()[..i] && v in faults ==> v in old(applied)
      {
        var version := Migrations()[i];
        assert Migrations()[..i + 1] == Migrations()[..i] + [version] && version !in Migrations()[..i];
        if version !in applied {
          var savepoint := store.jobs;
          if version.QueueFoundationV1? {
            foundation.Migrate(store, now);
          }
          if version in faults {
            store.jobs := savepoint;
            assert i == 1 ==> Migrations()[..i] == [QueueFoundationV1];
            return Some(version);
          }
          applied := applied + {version};
        }
      }
      assert Migrations()[..|Migrations()|] == Migrations();
      EveryVersionIsListed();
      assert (set v | v in Migrations()) == {QueueFoundationV1, ImageJobGenerationV1};
      failed := None;
    }
  }

  /** Running the migrations again changes nothing. */
  lemma SecondRunChangesNothing(jobs: Jobs, applied: set<Version>, now: Time)
    requires forall v :: v in Migrations() ==> v in applied
    ensures MigratedTo(|Migrations()|, applied, jobs, now) == jobs
  {
    assert MigratedTo(1, applied, jobs, now) == jobs;
  }

  /** Whatever state the first run found, the unique index stands after a run that succeeds. */
  lemma FirstRunMakesTheIndexHold(jobs: Jobs, now: Time)
    ensures IndexHolds(MigratedTo(|Migrations()|, {}, jobs, now))
  {
    assert MigratedTo(1, {}, jobs, now) == RepairedJobs(jobs, now);
    IndexCanBeCreated(jobs, now);
  }
}
