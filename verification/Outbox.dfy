/** The leased outbox: what each repository statement does to its rows, the repository methods
    proved against that, and the repair of published messages that were lost. */
module Outbox {
  import opened Model
  import Records
  import opened Store
  import opened Queries

  // ----- one row

  /** Due for a claim: pending and ready, or abandoned by a claimant whose lease ran out. */
  predicate Due(row: Dispatch, now: Time) {
    (row.status == Pending && row.availableAt <= now) ||
    (row.status == Publishing && row.expiresAt.Some? && row.expiresAt.value <= now)
  }

  predicate HeldBy(row: Dispatch, token: Token) {
    row.status == Publishing && row.token == Some(token)
  }

  function ClaimRow(row: Dispatch, token: Token, expires: Time): Dispatch {
    row.(status := Publishing, token := Some(token), expiresAt := Some(expires),
         attemptCount := row.attemptCount + 1, version := row.version + 1)
  }

  function MarkRow(row: Dispatch, now: Time): Dispatch {
    row.(status := Published, publishedAt := Some(now), token := None, expiresAt := None, version := row.version + 1)
  }

  function ReleaseRow(row: Dispatch, availableAt: Time, terminal: bool): Dispatch {
    row.(status := if terminal then Undeliverable else Pending, availableAt := availableAt,
         token := None, expiresAt := None, version := row.version + 1)
  }

  function AbandonRow(row: Dispatch): Dispatch {
    row.(status := Undeliverable, version := row.version + 1)
  }

  // ----- many rows

  function DueRows(rows: map<DispatchId, Dispatch>, now: Time): set<DispatchId> {
    set d | d in rows && Due(rows[d], now)
  }

  function ClaimRows(rows: map<DispatchId, Dispatch>, ids: set<DispatchId>, token: Token, expires: Time):
    map<DispatchId, Dispatch>
  {
    map d | d in rows :: if d in ids then ClaimRow(rows[d], token, expires) else rows[d]
  }

  predicate Earlier(a: (Time, Time), b: (Time, Time)) {
    a.0 < b.0 || (a.0 == b.0 && a.1 <= b.1)
  }

  function DueKey(rows: map<DispatchId, Dispatch>, d: DispatchId): (Time, Time) {
    if d in rows then (rows[d].availableAt, rows[d].createdAt) else (0, 0)
  }

  /** `ORDER BY available_at, created_at`. */
  function ByDueTime(rows: map<DispatchId, Dispatch>): (DispatchId, DispatchId) -> bool {
    (a: DispatchId, b: DispatchId) => Earlier(DueKey(rows, a), DueKey(rows, b))
  }

  /** Rows that keep their job and work are invisible in the records. */
  lemma LeasesWritten(t: Tables, rows: map<DispatchId, Dispatch>)
    requires rows.Keys == t.dispatches.Keys
    requires forall d :: d in rows ==> rows[d].job == t.dispatches[d].job && rows[d].work == t.dispatches[d].work
    ensures ViewOf(t.(dispatches := rows)) == ViewOf(t)
  {
    forall j | j in t.jobs
      ensures WorksOf(rows, j) == WorksOf(t.dispatches, j)
    {
    }
  }

  lemma ClaimOneMore(rows: map<DispatchId, Dispatch>, ids: seq<DispatchId>, d: DispatchId, token: Token, expires: Time)
    requires d in rows && d !in ids
    ensures
      var claimed := ClaimRows(rows, (set x | x in ids), token, expires);
      claimed[d := ClaimRow(claimed[d], token, expires)] == ClaimRows(rows, (set x | x in ids + [d]), token, expires)
  {
  }

  // ----- a claim, told by the columns

  /** Pending and no longer waiting, or leased to somebody whose time is up. */
  predicate Leasable(row: Dispatch, now: Time) {
    if row.status == Pending then row.availableAt <= now
    else row.status == Publishing && row.expiresAt.Some? && row.expiresAt.value <= now
  }

  /** Row `a` goes out ahead of row `b`: it waited for an earlier time, or as long and is not younger. */
  predicate Ahead(a: Dispatch, b: Dispatch) {
    a.availableAt < b.availableAt || (a.availableAt == b.availableAt && a.createdAt <= b.createdAt)
  }

  /** The claimed rows could be leased, none was passed over for a later one, and if there was room for more than
      were claimed then there were no more. */
  ghost predicate FirstInLine(rows: map<DispatchId, Dispatch>, ids: seq<DispatchId>, limit: int, now: Time) {
    && |ids| <= 500 && (|ids| <= 1 || |ids| <= limit)
    && (forall i :: 0 <= i < |ids| ==> ids[i] in rows && Leasable(rows[ids[i]], now))
    && (forall i, k :: 0 <= i < k < |ids| ==> ids[i] != ids[k] && Ahead(rows[ids[i]], rows[ids[k]]))
    && (forall i, d :: 0 <= i < |ids| && d in rows && d !in ids && Leasable(rows[d], now) ==>
          Ahead(rows[ids[i]], rows[d]))
    && (|ids| == 0 || (|ids| < limit && |ids| < 500) ==>
          forall d :: d in rows && Leasable(rows[d], now) ==> d in ids)
  }

  /** The row is leased: to this token, until then, once more than before, and otherwise as it was. */
  predicate LeasedTo(before: Dispatch, after: Dispatch, token: Token, expires: Time) {
    && after.status == Publishing && after.token == Some(token) && after.expiresAt == Some(expires)
    && after.attemptCount == before.attemptCount + 1 && after.version == before.version + 1
    && after.job == before.job && after.work == before.work && after.availableAt == before.availableAt
    && after.createdAt == before.createdAt && after.publishedAt == before.publishedAt
  }

  /** Nobody holds the row any more; what it asks for and how often it was leased stay. */
  predicate LetGo(before: Dispatch, after: Dispatch) {
    && after.token.None? && after.expiresAt.None? && after.version == before.version + 1
    && after.attemptCount == before.attemptCount && after.createdAt == before.createdAt
    && after.job == before.job && after.work == before.work
  }

  lemma ListedAreFirst(rows: map<DispatchId, Dispatch>, ids: seq<DispatchId>, limit: int, now: Time)
    requires Listed(DueRows(rows, now), ByDueTime(rows), Clamp(limit, 1, 500), ids)
    ensures FirstInLine(rows, ids, limit, now)
  {
    forall i, k | 0 <= i < k < |ids|
      ensures ids[i] in rows && ids[k] in rows && ids[i] != ids[k] && Ahead(rows[ids[i]], rows[ids[k]])
    {
      assert ids[i] in DueRows(rows, now) && ids[k] in DueRows(rows, now);
      assert ByDueTime(rows)(ids[i], ids[k]);
    }
    forall i, d | 0 <= i < |ids| && d in rows && d !in ids && Leasable(rows[d], now)
      ensures ids[i] in rows && Ahead(rows[ids[i]], rows[d])
    {
      assert d in DueRows(rows, now) && ids[i] in DueRows(rows, now);
      assert ByDueTime(rows)(ids[i], d);
    }
    if |ids| == 0 || (|ids| < limit && |ids| < 500) {
      AllListed(DueRows(rows, now), ByDueTime(rows), Clamp(limit, 1, 500), ids);
      forall d | d in rows && Leasable(rows[d], now)
        ensures d in ids
      {
        assert d in DueRows(rows, now);
      }
    }
  }

  lemma ClaimedAreLeased(rows: map<DispatchId, Dispatch>, ids: set<DispatchId>, token: Token, expires: Time)
    ensures ClaimRows(rows, ids, token, expires).Keys == rows.Keys
    ensures forall d :: d in rows && d in ids ==>
              LeasedTo(rows[d], ClaimRows(rows, ids, token, expires)[d], token, expires)
    ensures forall d :: d in rows && d !in ids ==> ClaimRows(rows, ids, token, expires)[d] == rows[d]
  {
  }

  class OutboxRepository {
    constructor () {
    }

    /** Lease the first due rows, at most `limit` and never more than 500: each gets the token, the
        expiry and one more attempt, and no other row changes. */
    method ClaimPending(store: Store, token: Token, expires: Time, limit: int, now: Time)
      returns (ids: seq<DispatchId>, claimed: seq<Dispatch>)
      requires store.Valid()
      modifies store`dispatches
      ensures store.Valid() && store.View() == old(store.View())
      ensures Listed(DueRows(old(store.dispatches), now), ByDueTime(old(store.dispatches)), Clamp(limit, 1, 500), ids)
      ensures store.dispatches == ClaimRows(old(store.dispatches), (set d | d in ids), token, expires)
      ensures |claimed| == |ids|
      ensures forall i :: 0 <= i < |ids| ==> ids[i] in store.dispatches && claimed[i] == store.dispatches[ids[i]]
      ensures FirstInLine(old(store.dispatches), ids, limit, now) && store.dispatches.Keys == old(store.dispatches).Keys
      ensures forall d :: d in ids ==> LeasedTo(old(store.dispatches)[d], store.dispatches[d], token, expires)
      ensures forall d :: d in store.dispatches && d !in ids ==> store.dispatches[d] == old(store.dispatches)[d]
    {
      hide FirstInLine, LeasedTo, ClaimRows, Listed, ByDueTime, DueRows;
      ghost var rows := store.dispatches;
      ids := ChooseDue(store, limit, now);
      claimed := LeaseRows(store, ids, token, expires);
      ListedAreFirst(rows, ids, limit, now);
      ClaimedAreLeased(rows, (set d | d in ids), token, expires);
    }

    method ChooseDue(store: Store, limit: int, now: Time) returns (ids: seq<DispatchId>)
      ensures Listed(DueRows(store.dispatches, now), ByDueTime(store.dispatches), Clamp(limit, 1, 500), ids)
      ensures forall i :: 0 <= i < |ids| ==> ids[i] in store.dispatches
      ensures forall i, k :: 0 <= i < k < |ids| ==> ids[i] != ids[k]
    {
      ids := Select<DispatchId>(DueRows(store.dispatches, now), ByDueTime(store.dispatches), Clamp(limit, 1, 500));
    }

    method LeaseRows(store: Store, ids: seq<DispatchId>, token: Token, expires: Time) returns (claimed: seq<Dispatch>)
      requires store.Valid() && forall i :: 0 <= i < |ids| ==> ids[i] in store.dispatches
      requires forall i, k :: 0 <= i < k < |ids| ==> ids[i] != ids[k]
      modifies store`dispatches
      ensures store.Valid() && store.View() == old(store.View())
      ensures store.dispatches == ClaimRows(old(store.dispatches), (set d | d in ids), token, expires)
      ensures |claimed| == |ids|
      ensures forall i :: 0 <= i < |ids| ==> ids[i] in store.dispatches && claimed[i] == store.dispatches[ids[i]]
    {
      ghost var t := store.Rows();
      ghost var rows := store.dispatches;
      claimed := [];
      for i := 0 to |ids|
        invariant |claimed| == i && store.dispatches == ClaimRows(rows, (set d | d in ids[..i]), token, expires)
        invariant forall k :: 0 <= k < i ==> claimed[k] == store.dispatches[ids[k]]
      {
        var d := ids[i];
        assert d !in ids[..i] && ids[..i + 1] == ids[..i] + [d];
        ClaimOneMore(rows, ids[..i], d, token, expires);
        store.dispatches := store.dispatches[d := ClaimRow(store.dispatches[d], token, expires)];
        claimed := claimed + [store.dispatches[d]];
      }
      assert ids[..|ids|] == ids;
      LeasesWritten(t, store.dispatches);
      assert store.Rows() == t.(dispatches := store.dispatches);
    }

    /** Only the current holder's row is marked; anyone else learns that the claim is lost. */
    method MarkPublished(store: Store, d: DispatchId, token: Token, now: Time) returns (held: bool)
      requires store.Valid()
      modifies store`dispatches
      ensures store.Valid() && store.View() == old(store.View())
      ensures held == (d in old(store.dispatches) && HeldBy(old(store.dispatches)[d], token))
      ensures store.dispatches == if held then old(store.dispatches)[d := MarkRow(old(store.dispatches)[d], now)]
                                  else old(store.dispatches)
      ensures held ==>
                var before, after := old(store.dispatches)[d], store.dispatches[d];
                && before.status == Publishing && before.token == Some(token)
                && after.status == Published && after.publishedAt == Some(now) && LetGo(before, after)
                && after.availableAt == before.availableAt
    {
      held := d in store.dispatches && HeldBy(store.dispatches[d], token);
      if held {
        LeasesWritten(store.Rows(), store.dispatches[d := MarkRow(store.dispatches[d], now)]);
        store.dispatches := store.dispatches[d := MarkRow(store.dispatches[d], now)];
      }
    }

    method Release(store: Store, d: DispatchId, token: Token, availableAt: Time, terminal: bool) returns (held: bool)
      requires store.Valid()
      modifies store`dispatches
      ensures store.Valid() && store.View() == old(store.View())
      ensures held == (d in old(store.dispatches) && HeldBy(old(store.dispatches)[d], token))
      ensures store.dispatches ==
              if held then old(store.dispatches)[d := ReleaseRow(old(store.dispatches)[d], availableAt, terminal)]
                                  else old(store.dispatches)
      ensures held ==>
                var before, after := old(store.dispatches)[d], store.dispatches[d];
                && before.status == Publishing && before.token == Some(token)
                && after.status == (if terminal then Undeliverable else Pending) && after.availableAt == availableAt
                && after.publishedAt == before.publishedAt && LetGo(before, after)
    {
      held := d in store.dispatches && HeldBy(store.dispatches[d], token);
      if held {
        LeasesWritten(store.Rows(), store.dispatches[d := ReleaseRow(store.dispatches[d], availableAt, terminal)]);
        store.dispatches := store.dispatches[d := ReleaseRow(store.dispatches[d], availableAt, terminal)];
      }
    }
  }

  // ----- repair of lost messages

  /** The published row a repaired job gives up, and the pending row it gets instead. */
  datatype Repair = Repair(lost: DispatchId, renewed: DispatchId)

  function PublishedOf(rows: map<DispatchId, Dispatch>, j: JobId): set<DispatchId> {
    set d | d in rows && rows[d].job == j && rows[d].status == Published
  }

  function PublishKey(rows: map<DispatchId, Dispatch>, d: DispatchId): (Option<Time>, Time) {
    if d in rows then (rows[d].publishedAt, rows[d].createdAt) else (None, 0)
  }

  /** A missing publication time sorts last, as NULL does under DESC. */
  predicate PublishedLater(a: (Option<Time>, Time), b: (Option<Time>, Time)) {
    match (a.0, b.0)
    case (Some(x), Some(y)) => x > y || (x == y && a.1 >= b.1)
    case (Some(_), None) => true
    case (None, Some(_)) => false
    case (None, None) => a.1 >= b.1
  }

  /** `ORDER BY published_at DESC, created_at DESC`. */
  function NewestFirst(rows: map<DispatchId, Dispatch>): (DispatchId, DispatchId) -> bool {
    (a: DispatchId, b: DispatchId) => PublishedLater(PublishKey(rows, a), PublishKey(rows, b))
  }

  function OldestFirst(jobs: map<JobId, Job>): (JobId, JobId) -> bool {
    (a: JobId, b: JobId) => (if a in jobs then jobs[a].createdAt else 0) <= (if b in jobs then jobs[b].createdAt else 0)
  }

  function QueuedJobs(jobs: map<JobId, Job>, ids: seq<JobId>): set<JobId> {
    set j | j in jobs && jobs[j].status == Queued && (ids == [] || j in ids)
  }

  /** Published, and never picked up by a worker. */
  predicate Orphaned(attempts: map<(JobId, nat), Attempt>, rows: map<DispatchId, Dispatch>, j: JobId) {
    PublishedOf(rows, j) != {} && AttemptsOf(attempts, j) == map[]
  }

  function OrphanedAmong(attempts: map<(JobId, nat), Attempt>, rows: map<DispatchId, Dispatch>, chosen: seq<JobId>):
    set<JobId>
  {
    set j | j in chosen && Orphaned(attempts, rows, j)
  }

  lemma OneMoreChosen(attempts: map<(JobId, nat), Attempt>, rows: map<DispatchId, Dispatch>, chosen: seq<JobId>, i: nat)
    requires i < |chosen| && forall k :: 0 <= k < i ==> chosen[k] != chosen[i]
    ensures chosen[i] !in OrphanedAmong(attempts, rows, chosen[..i])
    ensures OrphanedAmong(attempts, rows, chosen[..i + 1]) ==
            OrphanedAmong(attempts, rows, chosen[..i]) +
            (if Orphaned(attempts, rows, chosen[i]) then {chosen[i]} else {})
  {
    assert forall k :: k in chosen[..i + 1] <==> k in chosen[..i] || k == chosen[i];
  }

  /** The outbox rows after some jobs were repaired: each gave up its newest published row and got
      a pending row with the same work, and no other row changed. */
  ghost predicate Repaired(before: map<DispatchId, Dispatch>, after: map<DispatchId, Dispatch>,
                           repairs: map<JobId, Repair>, now: Time)
  {
    && (forall j :: j in repairs ==>
          && First(PublishedOf(before, j), NewestFirst(before), repairs[j].lost)
          && repairs[j].renewed !in before && repairs[j].renewed in after
          && after[repairs[j].renewed] == NewDispatch(j, before[repairs[j].lost].work, now, now))
    && (forall d :: d in before ==>
          && d in after
          && after[d] == if before[d].job in repairs && repairs[before[d].job].lost == d then AbandonRow(before[d])
                         else before[d])
    && (forall d :: d in after && d !in before ==> after[d].job in repairs && repairs[after[d].job].renewed == d)
  }

  lemma NothingRepaired(attempts: map<(JobId, nat), Attempt>, rows: map<DispatchId, Dispatch>, now: Time)
    ensures Repaired(rows, rows, map[], now) && OrphanedAmong(attempts, rows, []) == {}
  {
  }

  /** An unrepaired job's rows are as they were. */
  lemma Untouched(attempts: map<(JobId, nat), Attempt>, before: map<DispatchId, Dispatch>,
                  after: map<DispatchId, Dispatch>, repairs: map<JobId, Repair>, j: JobId, now: Time)
    requires Repaired(before, after, repairs, now) && j !in repairs
    ensures PublishedOf(after, j) == PublishedOf(before, j)
    ensures Orphaned(attempts, after, j) == Orphaned(attempts, before, j)
  {
    assert PublishedOf(after, j) == PublishedOf(before, j);
  }

  lemma NewestStays(before: map<DispatchId, Dispatch>, after: map<DispatchId, Dispatch>, repairs: map<JobId, Repair>,
                    j: JobId, lost: DispatchId, now: Time)
    requires Repaired(before, after, repairs, now) && j !in repairs
    requires First(PublishedOf(after, j), NewestFirst(after), lost)
    ensures First(PublishedOf(before, j), NewestFirst(before), lost)
    ensures lost in before && lost in after && after[lost] == before[lost] && after[lost].job == j
  {
    Untouched(map[], before, after, repairs, j, now);
    forall d | d in PublishedOf(before, j)
      ensures NewestFirst(before)(lost, d)
    {
      assert NewestFirst(after)(lost, d);
      assert PublishKey(after, d) == PublishKey(before, d) && PublishKey(after, lost) == PublishKey(before, lost);
    }
  }

  function Renewed(rows: map<DispatchId, Dispatch>, lost: DispatchId, name: DispatchId,
                   now: Time): map<DispatchId, Dispatch>
    requires lost in rows
  {
    rows[lost := AbandonRow(rows[lost])][name := NewDispatch(rows[lost].job, rows[lost].work, now, now)]
  }

  lemma RepairOne(before: map<DispatchId, Dispatch>, after: map<DispatchId, Dispatch>, repairs: map<JobId, Repair>,
                  j: JobId, lost: DispatchId, renewed: DispatchId, now: Time)
    requires Repaired(before, after, repairs, now) && j !in repairs && renewed !in after
    requires First(PublishedOf(after, j), NewestFirst(after), lost)
    ensures lost in after
    ensures Repaired(before, Renewed(after, lost, renewed, now), repairs[j := Repair(lost, renewed)], now)
  {
    hide First, PublishedOf, NewestFirst;
    NewestStays(before, after, repairs, j, lost, now);
  }

  /** What a repair does to the records: the repaired jobs get the same work again. */
  lemma RepairsInRecords(t: Tables, after: map<DispatchId, Dispatch>, repairs: map<JobId, Repair>, now: Time, j: JobId)
    requires Repaired(t.dispatches, after, repairs, now) && j in t.jobs
    ensures RecordOf(t.(dispatches := after), j) ==
            var r := RecordOf(t, j);
            if j in repairs then Records.AddWork(r, repairs[j].renewed, r.works[repairs[j].lost]) else r
  {
    hide PublishedLater, PublishKey, NewestFirst, AttemptsOf, TrailOf, ResultsOf;
    if j in repairs {
      assert repairs[j].lost in PublishedOf(t.dispatches, j);
      assert WorksOf(after, j) == WorksOf(t.dispatches, j)[repairs[j].renewed := t.dispatches[repairs[j].lost].work];
    } else {
      assert WorksOf(after, j) == WorksOf(t.dispatches, j);
    }
  }

  // ----- a repair, told by the columns

  /** Among the jobs asked for, or any if none is named; still queued; without an attempt; and with a published row. */
  ghost predicate Repairable(jobs: map<JobId, Job>, attempts: map<(JobId, nat), Attempt>,
                             rows: map<DispatchId, Dispatch>, ids: seq<JobId>, j: JobId)
  {
    && j in jobs && jobs[j].status == Queued && (j in ids || |ids| == 0)
    && (forall n: nat :: (j, n) !in attempts)
    && exists d :: d in rows && rows[d].job == j && rows[d].status == Published
  }

  /** No row of the job was published after this one, nor as late and written later. */
  ghost predicate LastPublished(rows: map<DispatchId, Dispatch>, j: JobId, lost: DispatchId) {
    && lost in rows && rows[lost].job == j && rows[lost].status == Published
    && forall d :: d in rows && rows[d].job == j && rows[d].status == Published ==>
         var a, b := rows[lost], rows[d];
         && (a.publishedAt.None? ==> b.publishedAt.None?)
         && (a.publishedAt.Some? && b.publishedAt.Some? ==> b.publishedAt.value <= a.publishedAt.value)
         && (a.publishedAt == b.publishedAt ==> b.createdAt <= a.createdAt)
  }

  /** The job was repairable and gave up its last published row for a pending one that asks for the same and is due at
      once. */
  ghost predicate RepairedRight(jobs: map<JobId, Job>, attempts: map<(JobId, nat), Attempt>,
                                before: map<DispatchId, Dispatch>, after: map<DispatchId, Dispatch>, ids: seq<JobId>,
                                j: JobId, repair: Repair, now: Time)
  {
    && Repairable(jobs, attempts, before, ids, j) && LastPublished(before, j, repair.lost)
    && repair.lost in after && after[repair.lost].status == Undeliverable
    && repair.renewed !in before && repair.renewed in after
    && var row := after[repair.renewed];
       && row.job == j && row.work == before[repair.lost].work && row.status == Pending
       && row.availableAt == now && row.createdAt == now && row.attemptCount == 0 && row.token.None?
  }

  /** A repairable job is left only when as many jobs were looked at as allowed, and then no repaired one is younger. */
  ghost predicate LeftForLater(jobs: map<JobId, Job>, limit: int, looked: nat, repairs: map<JobId, Repair>, j: JobId) {
    && looked >= 1 && (looked == 500 || looked >= limit)
    && forall k :: k in repairs ==> k in jobs && j in jobs && jobs[k].createdAt <= jobs[j].createdAt
  }

  /** A whole repair. */
  ghost predicate RepairsTheOldest(jobs: map<JobId, Job>, attempts: map<(JobId, nat), Attempt>,
                                   before: map<DispatchId, Dispatch>, after: map<DispatchId, Dispatch>, ids: seq<JobId>,
                                   limit: int, looked: nat, repairs: map<JobId, Repair>, now: Time)
  {
    && looked <= 500 && (looked <= 1 || looked <= limit) && |repairs| <= looked
    && (forall j :: j in repairs ==> RepairedRight(jobs, attempts, before, after, ids, j, repairs[j], now))
    && (forall j :: Repairable(jobs, attempts, before, ids, j) && j !in repairs ==>
          LeftForLater(jobs, limit, looked, repairs, j))
  }

  lemma OrphanedIsRepairable(jobs: map<JobId, Job>, attempts: map<(JobId, nat), Attempt>,
                             rows: map<DispatchId, Dispatch>, ids: seq<JobId>, j: JobId)
    ensures Repairable(jobs, attempts, rows, ids, j) <==> j in QueuedJobs(jobs, ids) && Orphaned(attempts, rows, j)
  {
    if j in QueuedJobs(jobs, ids) && Orphaned(attempts, rows, j) {
      var d :| d in PublishedOf(rows, j);
      forall n: nat
        ensures (j, n) !in attempts
      {
        assert (j, n) in attempts ==> n in AttemptsOf(attempts, j);
      }
    }
    if Repairable(jobs, attempts, rows, ids, j) {
      var d :| d in rows && rows[d].job == j && rows[d].status == Published;
      assert d in PublishedOf(rows, j);
      assert AttemptsOf(attempts, j) == map[];
    }
  }

  lemma FirstIsLastPublished(rows: map<DispatchId, Dispatch>, j: JobId, lost: DispatchId)
    requires First(PublishedOf(rows, j), NewestFirst(rows), lost)
    ensures LastPublished(rows, j, lost)
  {
    forall d | d in rows && rows[d].job == j && rows[d].status == Published
      ensures PublishedLater(PublishKey(rows, lost), PublishKey(rows, d))
    {
      assert d in PublishedOf(rows, j);
      assert NewestFirst(rows)(lost, d);
    }
  }

  lemma LeftAreYounger(jobs: map<JobId, Job>, ids: seq<JobId>, limit: int, chosen: seq<JobId>, j: JobId)
    requires Listed(QueuedJobs(jobs, ids), OldestFirst(jobs), Clamp(limit, 1, 500), chosen)
    requires j in QueuedJobs(jobs, ids) && j !in chosen
    ensures |chosen| >= 1 && (|chosen| == 500 || |chosen| >= limit)
    ensures forall k :: k in chosen ==> k in jobs && jobs[k].createdAt <= jobs[j].createdAt
  {
    if |chosen| < Clamp(limit, 1, 500) {
      AllListed(QueuedJobs(jobs, ids), OldestFirst(jobs), Clamp(limit, 1, 500), chosen);
    }
    forall k | k in chosen
      ensures k in jobs && jobs[k].createdAt <= jobs[j].createdAt
    {
      var i :| 0 <= i < |chosen| && chosen[i] == k;
      assert chosen[i] in QueuedJobs(jobs, ids) && OldestFirst(jobs)(chosen[i], j);
    }
  }

  lemma RepairMeans(jobs: map<JobId, Job>, attempts: map<(JobId, nat), Attempt>, before: map<DispatchId, Dispatch>,
                    after: map<DispatchId, Dispatch>, ids: seq<JobId>, chosen: seq<JobId>, repairs: map<JobId, Repair>,
                    j: JobId, now: Time)
    requires forall i :: 0 <= i < |chosen| ==> chosen[i] in QueuedJobs(jobs, ids)
    requires Repaired(before, after, repairs, now) && repairs.Keys == OrphanedAmong(attempts, before, chosen)
    requires j in repairs
    ensures RepairedRight(jobs, attempts, before, after, ids, j, repairs[j], now)
  {
    hide Repairable, LastPublished, Orphaned, NewestFirst;
    assert j in OrphanedAmong(attempts, before, chosen);
    var i :| 0 <= i < |chosen| && chosen[i] == j;
    assert chosen[i] in QueuedJobs(jobs, ids);
    OrphanedIsRepairable(jobs, attempts, before, ids, j);
    FirstIsLastPublished(before, j, repairs[j].lost);
  }

  lemma RestIsLeft(jobs: map<JobId, Job>, attempts: map<(JobId, nat), Attempt>, before: map<DispatchId, Dispatch>,
                   ids: seq<JobId>, limit: int, chosen: seq<JobId>, repairs: map<JobId, Repair>, j: JobId)
    requires Listed(QueuedJobs(jobs, ids), OldestFirst(jobs), Clamp(limit, 1, 500), chosen)
    requires repairs.Keys == OrphanedAmong(attempts, before, chosen)
    requires Repairable(jobs, attempts, before, ids, j) && j !in repairs
    ensures LeftForLater(jobs, limit, |chosen|, repairs, j)
  {
    hide Repairable, Orphaned, Listed, OldestFirst, QueuedJobs, OrphanedAmong;
    OrphanedIsRepairable(jobs, attempts, before, ids, j);
    OrphansAreChosen(attempts, before, chosen);
    LeftAreYounger(jobs, ids, limit, chosen, j);
    StillQueued(jobs, ids, j);
  }

  lemma OrphansAreChosen(attempts: map<(JobId, nat), Attempt>, rows: map<DispatchId, Dispatch>, chosen: seq<JobId>)
    ensures forall j :: j in OrphanedAmong(attempts, rows, chosen) <==> j in chosen && Orphaned(attempts, rows, j)
  {
  }

  lemma StillQueued(jobs: map<JobId, Job>, ids: seq<JobId>, j: JobId)
    requires j in QueuedJobs(jobs, ids)
    ensures j in jobs
  {
  }

  lemma RepairsMean(jobs: map<JobId, Job>, attempts: map<(JobId, nat), Attempt>, before: map<DispatchId, Dispatch>,
                    after: map<DispatchId, Dispatch>, ids: seq<JobId>, limit: int, chosen: seq<JobId>,
                    repairs: map<JobId, Repair>, now: Time)
    requires Listed(QueuedJobs(jobs, ids), OldestFirst(jobs), Clamp(limit, 1, 500), chosen)
    requires Repaired(before, after, repairs, now) && repairs.Keys == OrphanedAmong(attempts, before, chosen)
    requires |repairs| <= |chosen|
    ensures RepairsTheOldest(jobs, attempts, before, after, ids, limit, |chosen|, repairs, now)
  {
    hide Repairable, Repaired, RepairedRight, LeftForLater, QueuedJobs, OldestFirst, OrphanedAmong;
    forall j | j in repairs
      ensures RepairedRight(jobs, attempts, before, after, ids, j, repairs[j], now)
    {
      RepairMeans(jobs, attempts, before, after, ids, chosen, repairs, j, now);
    }
    forall j | Repairable(jobs, attempts, before, ids, j) && j !in repairs
      ensures LeftForLater(jobs, limit, |chosen|, repairs, j)
    {
      RestIsLeft(jobs, attempts, before, ids, limit, chosen, repairs, j);
    }
  }

  class OutboxAdministration {
    constructor () {
    }

    /** Give queued jobs that never reached an attempt, and whose message was published, a new pending
        row. `names` supplies the identifiers of the new rows. */
    method RequeueOrphaned(store: Store, ids: seq<JobId>, limit: int, names: seq<DispatchId>, now: Time)
      returns (repaired: nat, skipped: nat, ghost repairs: map<JobId, Repair>)
      requires store.Valid() && |names| >= Clamp(limit, 1, 500)
      requires Unused(names, store.dispatches)
      modifies store`dispatches
      ensures store.Valid() && Repaired(old(store.dispatches), store.dispatches, repairs, now)
      ensures exists chosen ::
                && Listed(QueuedJobs(store.jobs, ids), OldestFirst(store.jobs), Clamp(limit, 1, 500), chosen)
                && repaired == |repairs| && repaired + skipped == |chosen|
                && repairs.Keys == OrphanedAmong(store.attempts, old(store.dispatches), chosen)
      ensures RepairsTheOldest(store.jobs, store.attempts, old(store.dispatches), store.dispatches, ids, limit,
                               repaired + skipped, repairs, now)
    {
      hide *;
      ghost var rows := store.dispatches;
      var chosen := ChooseQueued(store.jobs, ids, limit);
      repaired, skipped, repairs := RepairChosen(store, chosen, names, now);
      RepairsMean(store.jobs, store.attempts, rows, store.dispatches, ids, limit, chosen, repairs, now);
    }

    /** The loop over the chosen jobs. */
    method RepairChosen(store: Store, chosen: seq<JobId>, names: seq<DispatchId>, now: Time)
      returns (repaired: nat, skipped: nat, ghost repairs: map<JobId, Repair>)
      requires store.Valid() && |names| >= |chosen| && Unused(names, store.dispatches)
      requires forall i :: 0 <= i < |chosen| ==> chosen[i] in store.jobs
      requires forall i, k :: 0 <= i < k < |chosen| ==> chosen[i] != chosen[k]
      modifies store`dispatches
      ensures store.Valid() && Repaired(old(store.dispatches), store.dispatches, repairs, now)
      ensures repaired == |repairs| && repaired + skipped == |chosen|
      ensures repairs.Keys == OrphanedAmong(store.attempts, old(store.dispatches), chosen)
    {
      hide *;
      ghost var rows := store.dispatches;
      var rest := names;
      repaired, skipped, repairs := 0, 0, map[];
      NothingRepaired(store.attempts, rows, now);
      assert chosen[..0] == [];
      for i := 0 to |chosen|
        invariant store.Valid() && Repaired(rows, store.dispatches, repairs, now) && Unused(rest, store.dispatches)
        invariant repaired == |repairs| && repaired + skipped == i && |rest| + repaired == |names|
        invariant repairs.Keys == OrphanedAmong(store.attempts, rows, chosen[..i])
      {
        OneMoreChosen(store.attempts, rows, chosen, i);
        var done;
        ghost var lost;
        done, rest, lost, repairs := RepairJob(store, rows, repairs, chosen[i], rest, now);
        if done {
          repaired := repaired + 1;
        } else {
          skipped := skipped + 1;
        }
      }
      assert chosen[..|chosen|] == chosen;
    }

    method ChooseQueued(jobs: map<JobId, Job>, ids: seq<JobId>, limit: int) returns (chosen: seq<JobId>)
      ensures Listed(QueuedJobs(jobs, ids), OldestFirst(jobs), Clamp(limit, 1, 500), chosen)
      ensures |chosen| <= Clamp(limit, 1, 500)
      ensures forall i :: 0 <= i < |chosen| ==> chosen[i] in jobs
      ensures forall i, k :: 0 <= i < k < |chosen| ==> chosen[i] != chosen[k]
    {
      chosen := Select<JobId>(QueuedJobs(jobs, ids), OldestFirst(jobs), Clamp(limit, 1, 500));
    }

    /** One turn of the loop: `before` is the outbox when the transaction began. */
    method RepairJob(store: Store, ghost before: map<DispatchId, Dispatch>, ghost repairs: map<JobId, Repair>,
                     j: JobId, names: seq<DispatchId>, now: Time)
      returns (done: bool, rest: seq<DispatchId>, ghost lost: DispatchId, ghost more: map<JobId, Repair>)
      requires store.Valid() && j in store.jobs && j !in repairs
      requires |names| > 0 && Unused(names, store.dispatches) && Repaired(before, store.dispatches, repairs, now)
      modifies store`dispatches
      ensures store.Valid() && Unused(rest, store.dispatches) && |rest| == |names| - (if done then 1 else 0)
      ensures Repaired(before, store.dispatches, more, now) && done == Orphaned(store.attempts, before, j)
      ensures !done ==> store.dispatches == old(store.dispatches)
      ensures done ==>
                && lost in old(store.dispatches) && old(store.dispatches)[lost].status == Published
                && store.dispatches == Renewed(old(store.dispatches), lost, names[0], now)
      ensures more.Keys == repairs.Keys + (if done then {j} else {})
      ensures |more| == |repairs| + (if done then 1 else 0)
    {
      hide *;
      var rows := store.dispatches;
      Untouched(store.attempts, before, rows, repairs, j, now);
      done := IsOrphaned(store, j);
      more, rest, lost := repairs, names, 0;
      if done {
        var newest := NewestPublished(rows, j);
        lost := newest;
        FirstIsPublished(rows, j, newest);
        NewestStays(before, rows, repairs, j, lost, now);
        OneNameTaken(names, rows, lost, now);
        RepairOne(before, rows, repairs, j, lost, names[0], now);
        more, rest := repairs[j := Repair(lost, names[0])], names[1..];
        Renew(store, newest, names[0], now);
      }
    }

    method IsOrphaned(store: Store, j: JobId) returns (orphaned: bool)
      ensures orphaned == Orphaned(store.attempts, store.dispatches, j)
      ensures orphaned ==> PublishedOf(store.dispatches, j) != {}
    {
      var started := exists k :: k in store.attempts && k.0 == j;
      NoneStarted(store.attempts, j);
      orphaned := !started && PublishedOf(store.dispatches, j) != {};
    }

    method Renew(store: Store, lost: DispatchId, name: DispatchId, now: Time)
      requires store.Valid() && lost in store.dispatches && name !in store.dispatches
      modifies store`dispatches
      ensures store.Valid() && store.dispatches == Renewed(old(store.dispatches), lost, name, now)
    {
      var row := store.dispatches[lost];
      RepairKeepsReferences(store.Rows(), lost, AbandonRow(row), name, NewDispatch(row.job, row.work, now, now));
      store.dispatches := store.dispatches[lost := AbandonRow(row)][name := NewDispatch(row.job, row.work, now, now)];
    }
  }

  /** Identifiers that are pairwise distinct and not yet taken. */
  predicate Unused(names: seq<DispatchId>, rows: map<DispatchId, Dispatch>) {
    && (forall i, k :: 0 <= i < k < |names| ==> names[i] != names[k])
    && (forall i :: 0 <= i < |names| ==> names[i] !in rows)
  }

  lemma OneNameTaken(names: seq<DispatchId>, rows: map<DispatchId, Dispatch>, lost: DispatchId, now: Time)
    requires |names| > 0 && Unused(names, rows) && lost in rows
    ensures names[0] !in rows && Unused(names[1..], Renewed(rows, lost, names[0], now))
  {
  }

  lemma FirstIsPublished(rows: map<DispatchId, Dispatch>, j: JobId, newest: DispatchId)
    requires First(PublishedOf(rows, j), NewestFirst(rows), newest)
    ensures newest in rows && rows[newest].status == Published
  {
  }

  method NewestPublished(rows: map<DispatchId, Dispatch>, j: JobId) returns (newest: DispatchId)
    requires PublishedOf(rows, j) != {}
    ensures First(PublishedOf(rows, j), NewestFirst(rows), newest)
  {
    var listed := Select<DispatchId>(PublishedOf(rows, j), NewestFirst(rows), 1);
    newest := listed[0];
  }

  lemma RepairKeepsReferences(t: Tables, lost: DispatchId, abandoned: Dispatch, name: DispatchId, renewed: Dispatch)
    requires Referential(t) && abandoned.job in t.jobs && renewed.job in t.jobs
    ensures Referential(t.(dispatches := t.dispatches[lost := abandoned][name := renewed]))
  {
  }

  lemma NoneStarted(attempts: map<(JobId, nat), Attempt>, j: JobId)
    ensures AttemptsOf(attempts, j) == map[] <==> !exists k :: k in attempts && k.0 == j
  {
    forall k | k in attempts && k.0 == j
      ensures k.1 in AttemptsOf(attempts, j)
    {
    }
  }
}
