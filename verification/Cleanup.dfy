/** Removing finished jobs by hand, and removing old records by policy. Both delete a job's own
    bookkeeping, keep every asset and generation, and cut only their link to the removed job. */
module Cleanup {
  import opened Model
  import opened Records
  import opened Store
  import opened Queries
  import opened Text

  // ----- removing jobs from the tables

  function Cut<K>(links: map<K, Option<JobId>>, gone: set<JobId>): map<K, Option<JobId>> {
    map k | k in links :: if links[k].Some? && links[k].value in gone then None else links[k]
  }

  function Linked<K>(links: map<K, Option<JobId>>, gone: set<JobId>): set<K> {
    set k | k in links && links[k].Some? && links[k].value in gone
  }

  function AttemptsWithin(t: map<(JobId, nat), Attempt>, gone: set<JobId>): set<(JobId, nat)> {
    set k | k in t && k.0 in gone
  }

  function DispatchesWithin(t: map<DispatchId, Dispatch>, gone: set<JobId>): set<DispatchId> {
    set d | d in t && t[d].job in gone
  }

  function EventsWithin(events: seq<Event>, gone: set<JobId>): set<nat> {
    set i: nat | i < |events| && events[i].job in gone
  }

  function EventsOutside(events: seq<Event>, gone: set<JobId>): seq<Event> {
    if events == [] then []
    else
      var e := events[|events| - 1];
      EventsOutside(events[..|events| - 1], gone) + (if e.job in gone then [] else [e])
  }

  function WithoutJobs(t: Tables, gone: set<JobId>): Tables {
    Tables(t.jobs - gone, t.attempts - AttemptsWithin(t.attempts, gone),
           t.dispatches - DispatchesWithin(t.dispatches, gone),
           EventsOutside(t.events, gone), Cut(t.generations, gone), Cut(t.assets, gone))
  }

  /** What one cleanup reports: rows deleted, and rows whose link was cut. */
  datatype JobCounts = JobCounts(jobs: nat, events: nat, attempts: nat, dispatches: nat, assets: nat, generations: nat)

  /** The rows that belong to the given jobs, counted where they are. */
  function CountsOf(t: Tables, gone: set<JobId>): JobCounts {
    JobCounts(|gone|, |EventsWithin(t.events, gone)|, |AttemptsWithin(t.attempts, gone)|,
              |DispatchesWithin(t.dispatches, gone)|, |Linked(t.assets, gone)|, |Linked(t.generations, gone)|)
  }

  /** No row of any table names one of these jobs. */
  predicate NothingNames(t: Tables, gone: set<JobId>) {
    && t.jobs.Keys !! gone
    && AttemptsWithin(t.attempts, gone) == {}
    && DispatchesWithin(t.dispatches, gone) == {}
    && (forall i :: 0 <= i < |t.events| ==> t.events[i].job !in gone)
    && Linked(t.generations, gone) == {}
    && Linked(t.assets, gone) == {}
  }

  /** Every row is there still, and where its link is not the old one, it was to one of these jobs and is none now. */
  predicate LinksOnlyCut<K(!new)>(before: map<K, Option<JobId>>, after: map<K, Option<JobId>>, gone: set<JobId>) {
    after.Keys == before.Keys &&
    forall k :: k in before && after[k] != before[k] ==> after[k].None? && before[k].value in gone
  }

  lemma {:induction false} EventsKept(events: seq<Event>, gone: set<JobId>, jobs: set<JobId>)
    requires forall i :: 0 <= i < |events| ==> events[i].job in jobs
    ensures forall i :: 0 <= i < |EventsOutside(events, gone)| ==> EventsOutside(events, gone)[i].job in jobs - gone
  {
    if events != [] {
      EventsKept(events[..|events| - 1], gone, jobs);
    }
  }

  lemma {:induction false} TrailKept(events: seq<Event>, gone: set<JobId>, j: JobId)
    requires j !in gone
    ensures TrailOf(EventsOutside(events, gone), j) == TrailOf(events, j)
  {
    if events != [] {
      var rest, e := EventsOutside(events[..|events| - 1], gone), events[|events| - 1];
      TrailKept(events[..|events| - 1], gone, j);
      if e.job in gone {
        assert EventsOutside(events, gone) == rest;
      } else {
        TrailAfter(rest, e, j);
      }
    }
  }

  lemma {:induction false} EventsCounted(events: seq<Event>, gone: set<JobId>)
    ensures |EventsOutside(events, gone)| + |EventsWithin(events, gone)| == |events|
  {
    if events != [] {
      var rest, e := events[..|events| - 1], events[|events| - 1];
      EventsCounted(rest, gone);
      var last: nat := |events| - 1;
      assert EventsWithin(events, gone) == EventsWithin(rest, gone) + (if e.job in gone then {last} else {});
      assert last !in EventsWithin(rest, gone);
    }
  }

  lemma KeptRecord(t: Tables, gone: set<JobId>, j: JobId)
    requires j in t.jobs && j !in gone
    ensures RecordOf(WithoutJobs(t, gone), j) == RecordOf(t, j)
  {
    TrailKept(t.events, gone, j);
    var u := WithoutJobs(t, gone);
    assert AttemptsOf(u.attempts, j) == AttemptsOf(t.attempts, j) by {
      forall n: nat
        ensures n in AttemptsOf(u.attempts, j) <==> n in AttemptsOf(t.attempts, j)
      {
        assert (j, n) in u.attempts <==> (j, n) in t.attempts;
        assert n in AttemptsOf(u.attempts, j) <==> (j, n) in u.attempts;
        assert n in AttemptsOf(t.attempts, j) <==> (j, n) in t.attempts;
      }
    }
    assert WorksOf(u.dispatches, j) == WorksOf(t.dispatches, j);
    assert ResultsOf(u.generations, j) == ResultsOf(t.generations, j);
  }

  /** Removal leaves no dangling row, keeps every asset and generation, and every other job's record. */
  lemma RemovalIsClean(t: Tables, gone: set<JobId>)
    requires Referential(t)
    ensures Referential(WithoutJobs(t, gone)) && NothingNames(WithoutJobs(t, gone), gone)
    ensures WithoutJobs(t, gone).assets.Keys == t.assets.Keys &&
            WithoutJobs(t, gone).generations.Keys == t.generations.Keys
    ensures ViewOf(WithoutJobs(t, gone)) == ViewOf(t) - gone
  {
    EventsKept(t.events, gone, t.jobs.Keys);
    forall j | j in t.jobs && j !in gone {
      KeptRecord(t, gone, j);
    }
  }

  lemma OnlyCut<K(!new)>(links: map<K, Option<JobId>>, gone: set<JobId>)
    ensures LinksOnlyCut(links, Cut(links, gone), gone)
  {
  }

  // ----- the statements

  lemma RemovedRows<K, V>(m: map<K, V>, keys: set<K>)
    requires keys <= m.Keys
    ensures |m| - |m - keys| == |keys|
  {
    assert m.Keys == (m - keys).Keys + keys;
  }

  method UnlinkMedia(store: Store, gone: set<JobId>) returns (assets: nat, generations: nat)
    modifies store`assets, store`generations
    ensures store.assets == Cut(old(store.assets), gone) && assets == |Linked(old(store.assets), gone)|
    ensures store.generations == Cut(old(store.generations), gone) &&
            generations == |Linked(old(store.generations), gone)|
  {
    assets, generations := |Linked(store.assets, gone)|, |Linked(store.generations, gone)|;
    store.assets := Cut(store.assets, gone);
    store.generations := Cut(store.generations, gone);
  }

  /** Each statement reports how many rows it took away. */
  method DeleteBookkeeping(store: Store, gone: set<JobId>) returns (events: nat, attempts: nat, dispatches: nat)
    modifies store`events, store`attempts, store`dispatches
    ensures store.events == EventsOutside(old(store.events), gone) && events == |EventsWithin(old(store.events), gone)|
    ensures store.attempts == old(store.attempts) - AttemptsWithin(old(store.attempts), gone)
    ensures attempts == |AttemptsWithin(old(store.attempts), gone)|
    ensures store.dispatches == old(store.dispatches) - DispatchesWithin(old(store.dispatches), gone)
    ensures dispatches == |DispatchesWithin(old(store.dispatches), gone)|
  {
    EventsCounted(store.events, gone);
    RemovedRows(store.attempts, AttemptsWithin(store.attempts, gone));
    RemovedRows(store.dispatches, DispatchesWithin(store.dispatches, gone));
    hide *;
    events, attempts, dispatches := |store.events|, |store.attempts|, |store.dispatches|;
    store.events := EventsOutside(store.events, gone);
    store.attempts := store.attempts - AttemptsWithin(store.attempts, gone);
    store.dispatches := store.dispatches - DispatchesWithin(store.dispatches, gone);
    events, attempts := events - |store.events|, attempts - |store.attempts|;
    dispatches := dispatches - |store.dispatches|;
  }

  method DeleteJobRows(store: Store, gone: set<JobId>) returns (jobs: nat)
    requires gone <= store.jobs.Keys
    modifies store`jobs
    ensures store.jobs == old(store.jobs) - gone && jobs == |gone|
  {
    RemovedRows(store.jobs, gone);
    jobs := |store.jobs|;
    store.jobs := store.jobs - gone;
    jobs := jobs - |store.jobs|;
  }

  /** Cut the links first, delete children next, and the jobs last, counting what each statement did. */
  method DeleteJobRecords(store: Store, gone: set<JobId>) returns (counts: JobCounts)
    requires store.Valid() && gone <= store.jobs.Keys
    modifies store
    ensures store.Valid() && store.Rows() == WithoutJobs(old(store.Rows()), gone)
    ensures counts == CountsOf(old(store.Rows()), gone)
  {
    RemovalIsClean(store.Rows(), gone);
    hide Referential, NothingNames, Cut, Linked, AttemptsWithin, DispatchesWithin, EventsWithin, EventsOutside, ViewOf;
    var assets, generations := UnlinkMedia(store, gone);
    var events, attempts, dispatches := DeleteBookkeeping(store, gone);
    var jobs := DeleteJobRows(store, gone);
    counts := JobCounts(jobs, events, attempts, dispatches, assets, generations);
  }

  function ToSet<K>(s: seq<K>): set<K> {
    set x | x in s
  }

  // ----- the counts, told by the tables

  /** The rows that are gone or different. */
  function Changed<K, V(==)>(before: map<K, V>, after: map<K, V>): set<K> {
    set k | k in before && (k !in after || after[k] != before[k])
  }

  /** What is reported is what the tables lost: as many rows fewer, and as many links changed, all of them from one of
      these jobs to none. */
  lemma CountsTold(t: Tables, gone: set<JobId>)
    requires gone <= t.jobs.Keys
    ensures
      var u, counts := WithoutJobs(t, gone), CountsOf(t, gone);
      && counts.jobs == |t.jobs| - |u.jobs| && counts.events == |t.events| - |u.events|
      && counts.attempts == |t.attempts| - |u.attempts| && counts.dispatches == |t.dispatches| - |u.dispatches|
      && counts.assets == |Changed(t.assets, u.assets)| && counts.generations == |Changed(t.generations, u.generations)|
      && LinksOnlyCut(t.assets, u.assets, gone) && LinksOnlyCut(t.generations, u.generations, gone)
  {
    hide LinksOnlyCut;
    OnlyCut(t.assets, gone);
    OnlyCut(t.generations, gone);
    hide EventsOutside, EventsWithin, AttemptsWithin, DispatchesWithin, Linked, Cut, Changed;
    EventsCounted(t.events, gone);
    RowsAreStored(t, gone);
    RemovedRows(t.attempts, AttemptsWithin(t.attempts, gone));
    RemovedRows(t.dispatches, DispatchesWithin(t.dispatches, gone));
    RemovedRows(t.jobs, gone);
    CutLinks(t.assets, gone);
    CutLinks(t.generations, gone);
  }

  lemma RowsAreStored(t: Tables, gone: set<JobId>)
    ensures AttemptsWithin(t.attempts, gone) <= t.attempts.Keys
    ensures DispatchesWithin(t.dispatches, gone) <= t.dispatches.Keys
  {
  }

  lemma CutLinks<K>(links: map<K, Option<JobId>>, gone: set<JobId>)
    ensures Linked(links, gone) == Changed(links, Cut(links, gone))
  {
  }

  // ----- cleanup by hand

  function NewestJobs(jobs: map<JobId, Job>): (JobId, JobId) -> bool {
    (a: JobId, b: JobId) => (if b in jobs then jobs[b].createdAt else 0) <= (if a in jobs then jobs[a].createdAt else 0)
  }

  /** Only terminal statuses of the request count; identifiers and a date narrow the choice further. */
  function Removable(jobs: map<JobId, Job>, statuses: seq<Status>, ids: seq<JobId>, before: Option<Time>): set<JobId> {
    set j | j in jobs && Terminal(jobs[j].status) && jobs[j].status in statuses && (ids == [] || j in ids) &&
            (before.Some? ==> jobs[j].createdAt < before.value)
  }

  /** The request covers the job: over, of one of the statuses, one of the jobs named if any is, and created before
      the given time if there is one. */
  predicate Covered(jobs: map<JobId, Job>, statuses: seq<Status>, ids: seq<JobId>, before: Option<Time>, j: JobId) {
    && j in jobs && jobs[j].status != Queued && jobs[j].status != Running
    && (exists i :: 0 <= i < |statuses| && statuses[i] == jobs[j].status)
    && (|ids| == 0 || exists i :: 0 <= i < |ids| && ids[i] == j)
    && (before.None? || jobs[j].createdAt < before.value)
  }

  /** Only covered jobs go, at most so many; one that is left is left because that many went, and none of them is
      older. */
  ghost predicate NewestGo(jobs: map<JobId, Job>, statuses: seq<Status>, ids: seq<JobId>, before: Option<Time>,
                           limit: int, gone: set<JobId>)
  {
    && (forall j :: j in gone ==> Covered(jobs, statuses, ids, before, j))
    && |gone| <= 500 && (|gone| <= 1 || |gone| <= limit)
    && forall j :: j !in gone && Covered(jobs, statuses, ids, before, j) ==>
         && |gone| >= 1 && (|gone| == 500 || |gone| >= limit)
         && forall k :: k in gone ==> k in jobs && jobs[k].createdAt >= jobs[j].createdAt
  }

  lemma CoveredIsRemovable(jobs: map<JobId, Job>, statuses: seq<Status>, ids: seq<JobId>, before: Option<Time>,
                           j: JobId)
    ensures Covered(jobs, statuses, ids, before, j) <==> j in Removable(jobs, statuses, ids, before)
  {
  }

  lemma ListedGo(jobs: map<JobId, Job>, statuses: seq<Status>, ids: seq<JobId>, before: Option<Time>, limit: int,
                 chosen: seq<JobId>)
    requires Listed(Removable(jobs, statuses, ids, before), NewestJobs(jobs), Clamp(limit, 1, 500), chosen)
    ensures NewestGo(jobs, statuses, ids, before, limit, ToSet(chosen))
  {
    hide Covered, Removable;
    RemovableStored(jobs, statuses, ids, before);
    var rows := Removable(jobs, statuses, ids, before);
    forall j
      ensures Covered(jobs, statuses, ids, before, j) <==> j in rows
    {
      CoveredIsRemovable(jobs, statuses, ids, before, j);
    }
    DistinctSize(chosen);
    assert ToSet(chosen) == (set x | x in chosen);
    forall j | j !in ToSet(chosen) && j in rows
      ensures |chosen| >= 1 && (|chosen| == 500 || |chosen| >= limit)
      ensures forall k :: k in ToSet(chosen) ==> k in jobs && jobs[k].createdAt >= jobs[j].createdAt
    {
      assert j !in chosen;
      if |chosen| < Clamp(limit, 1, 500) {
        AllListed(rows, NewestJobs(jobs), Clamp(limit, 1, 500), chosen);
      }
      forall k | k in ToSet(chosen)
        ensures k in jobs && jobs[k].createdAt >= jobs[j].createdAt
      {
        var i :| 0 <= i < |chosen| && chosen[i] == k;
        assert chosen[i] in rows && NewestJobs(jobs)(chosen[i], j);
      }
    }
  }

  lemma RemovableStored(jobs: map<JobId, Job>, statuses: seq<Status>, ids: seq<JobId>, before: Option<Time>)
    ensures Removable(jobs, statuses, ids, before) <= jobs.Keys
  {
  }

  /** A request without a terminal status is refused. Otherwise the newest removable jobs go, at most
      `limit` and never more than 500, and nothing else is lost. */
  method CleanupJobs(store: Store, statuses: seq<Status>, ids: seq<JobId>, before: Option<Time>, limit: int)
    returns (result: Option<JobCounts>, chosen: seq<JobId>)
    requires store.Valid()
    modifies store
    ensures store.Valid()
    ensures result.None? <==> forall i :: 0 <= i < |statuses| ==> !Terminal(statuses[i])
    ensures result.None? ==> store.Rows() == old(store.Rows())
    ensures result.Some? ==>
              && Listed(Removable(old(store.jobs), statuses, ids, before), NewestJobs(old(store.jobs)),
                        Clamp(limit, 1, 500), chosen)
              && store.Rows() == WithoutJobs(old(store.Rows()), ToSet(chosen))
              && result.value == CountsOf(old(store.Rows()), ToSet(chosen))
    ensures result.Some? ==>
              && NewestGo(old(store.jobs), statuses, ids, before, limit, ToSet(chosen))
              && store.jobs == old(store.jobs) - ToSet(chosen)
  {
    if forall i :: 0 <= i < |statuses| ==> !Terminal(statuses[i]) {
      return None, [];
    }
    chosen := Select<JobId>(Removable(store.jobs, statuses, ids, before), NewestJobs(store.jobs), Clamp(limit, 1, 500));
    ListedGo(store.jobs, statuses, ids, before, limit, chosen);
    if chosen == [] {
      assert ToSet(chosen) == {};
      NothingRemoved(store.Rows());
      return Some(JobCounts(0, 0, 0, 0, 0, 0)), chosen;
    }
    var counts := DeleteJobRecords(store, ToSet(chosen));
    result := Some(counts);
  }

  lemma NothingRemoved(t: Tables)
    ensures WithoutJobs(t, {}) == t && CountsOf(t, {}) == JobCounts(0, 0, 0, 0, 0, 0)
  {
    NoEventsRemoved(t.events);
    assert Cut(t.generations, {}) == t.generations && Cut(t.assets, {}) == t.assets;
    assert AttemptsWithin(t.attempts, {}) == {} && DispatchesWithin(t.dispatches, {}) == {} &&
           EventsWithin(t.events, {}) == {};
  }

  lemma {:induction false} NoEventsRemoved(events: seq<Event>)
    ensures EventsOutside(events, {}) == events
  {
    if events != [] {
      NoEventsRemoved(events[..|events| - 1]);
    }
  }

  /** What cleanup may take, seen from the records: finished jobs only, and no result with them. */
  lemma CleanupTakesFinishedJobs(t: Tables, statuses: seq<Status>, ids: seq<JobId>, before: Option<Time>, limit: nat,
                                 chosen: seq<JobId>)
    requires Referential(t)
    requires Listed(Removable(t.jobs, statuses, ids, before), NewestJobs(t.jobs), limit, chosen)
    ensures forall j :: j in chosen ==> j in ViewOf(t) && Terminal(ViewOf(t)[j].job.status)
    ensures ViewOf(WithoutJobs(t, ToSet(chosen))) == ViewOf(t) - ToSet(chosen)
    ensures NothingNames(WithoutJobs(t, ToSet(chosen)), ToSet(chosen))
  {
    RemovalIsClean(t, ToSet(chosen));
  }

  // ----- retention

  type SessionId = nat
  type RowId = nat

  datatype Session = Session(createdAt: Time, updatedAt: Time)

  datatype AssistantTables = AssistantTables(
    sessions: map<SessionId, Session>,
    messages: map<RowId, SessionId>,
    runs: map<RowId, SessionId>)

  class AssistantStore {
    var sessions: map<SessionId, Session>
    var messages: map<RowId, SessionId>
    var runs: map<RowId, SessionId>

    constructor ()
      ensures sessions == map[] && messages == map[] && runs == map[]
    {
      sessions, messages, runs := map[], map[], map[];
    }

    function Rows(): AssistantTables
      reads this
    {
      AssistantTables(sessions, messages, runs)
    }
  }

  function RowsWithin(rows: map<RowId, SessionId>, gone: set<SessionId>): set<RowId> {
    set k | k in rows && rows[k] in gone
  }

  function WithoutSessions(t: AssistantTables, gone: set<SessionId>): AssistantTables {
    AssistantTables(t.sessions - gone, t.messages - RowsWithin(t.messages, gone), t.runs - RowsWithin(t.runs, gone))
  }

  /** The rows kept are those of other sessions, as they were. */
  predicate RowsOfOthers(before: map<RowId, SessionId>, after: map<RowId, SessionId>, gone: set<SessionId>) {
    && (forall k :: k in after ==> k in before && after[k] == before[k] && after[k] !in gone)
    && forall k :: k in before && k !in after ==> before[k] in gone
  }

  /** Removing sessions removes what was said in them and what ran in them, and no more; what is reported is what the
      tables lost. */
  lemma SessionRemovalIsClean(t: AssistantTables, gone: set<SessionId>)
    requires gone <= t.sessions.Keys
    ensures
      var u, counts := WithoutSessions(t, gone), SessionCountsOf(t, gone);
      && RowsOfOthers(t.messages, u.messages, gone) && RowsOfOthers(t.runs, u.runs, gone)
      && u.sessions == t.sessions - gone && counts.sessions == |t.sessions| - |u.sessions|
      && counts.messages == |t.messages| - |u.messages| && counts.runs == |t.runs| - |u.runs|
  {
    RemovedRows(t.sessions, gone);
    RemovedRows(t.messages, RowsWithin(t.messages, gone));
    RemovedRows(t.runs, RowsWithin(t.runs, gone));
  }

  datatype SessionCounts = SessionCounts(sessions: nat, messages: nat, runs: nat)

  function SessionCountsOf(t: AssistantTables, gone: set<SessionId>): SessionCounts {
    SessionCounts(|gone|, |RowsWithin(t.messages, gone)|, |RowsWithin(t.runs, gone)|)
  }

  method DeleteAssistantRecords(store: AssistantStore, gone: set<SessionId>) returns (counts: SessionCounts)
    requires gone <= store.sessions.Keys
    modifies store
    ensures store.Rows() == WithoutSessions(old(store.Rows()), gone)
    ensures counts == SessionCountsOf(old(store.Rows()), gone)
  {
    var t := store.Rows();
    RemovedRows(t.messages, RowsWithin(t.messages, gone));
    RemovedRows(t.runs, RowsWithin(t.runs, gone));
    RemovedRows(t.sessions, gone);
    store.messages := store.messages - RowsWithin(store.messages, gone);
    store.runs := store.runs - RowsWithin(store.runs, gone);
    store.sessions := store.sessions - gone;
    counts := SessionCounts(|t.sessions| - |store.sessions|, |t.messages| - |store.messages|, |t.runs| - |store.runs|);
  }

  const CONFIRM_PHRASE := "CLEAN_OLD_RECORDS"

  /** Old first; the identifier breaks every tie, so the order is total. */
  predicate Older(a: (Time, Time, nat), b: (Time, Time, nat)) {
    a.0 < b.0 || (a.0 == b.0 && (a.1 < b.1 || (a.1 == b.1 && a.2 <= b.2)))
  }

  function JobAge(jobs: map<JobId, Job>, j: JobId): (Time, Time, nat) {
    if j in jobs then (jobs[j].updatedAt, jobs[j].createdAt, j) else (0, 0, j)
  }

  function OldestJobs(jobs: map<JobId, Job>): (JobId, JobId) -> bool {
    (a: JobId, b: JobId) => Older(JobAge(jobs, a), JobAge(jobs, b))
  }

  function SessionAge(sessions: map<SessionId, Session>, s: SessionId): (Time, Time, nat) {
    if s in sessions then (sessions[s].updatedAt, sessions[s].createdAt, s) else (0, 0, s)
  }

  function OldestSessions(sessions: map<SessionId, Session>): (SessionId, SessionId) -> bool {
    (a: SessionId, b: SessionId) => Older(SessionAge(sessions, a), SessionAge(sessions, b))
  }

  datatype RetentionPolicy = RetentionPolicy(days: nat, limit: nat, jobs: bool, sessions: bool, cutoff: Time)

  function Cutoff(days: int, now: Time): Time {
    now - days * 86400000000
  }

  /** Out-of-range values are refused, not repaired. */
  function Normalize(days: int, limit: int, jobs: bool, sessions: bool, now: Time): Option<RetentionPolicy> {
    if 1 <= days <= 3650 && 1 <= limit <= 5000
    then Some(RetentionPolicy(days, limit, jobs, sessions, Cutoff(days, now)))
    else None
  }

  function OldJobs(jobs: map<JobId, Job>, p: RetentionPolicy): set<JobId> {
    set j | j in jobs && p.jobs && Terminal(jobs[j].status) && jobs[j].updatedAt < p.cutoff
  }

  function OldSessions(sessions: map<SessionId, Session>, p: RetentionPolicy): set<SessionId> {
    set s | s in sessions && p.sessions && sessions[s].updatedAt < p.cutoff
  }

  method CandidateJobs(store: Store, p: RetentionPolicy) returns (ids: seq<JobId>)
    ensures Listed(OldJobs(store.jobs, p), OldestJobs(store.jobs), p.limit, ids)
  {
    ids := Select<JobId>(OldJobs(store.jobs, p), OldestJobs(store.jobs), p.limit);
  }

  method CandidateSessions(assistant: AssistantStore, p: RetentionPolicy) returns (ids: seq<SessionId>)
    ensures Listed(OldSessions(assistant.sessions, p), OldestSessions(assistant.sessions), p.limit, ids)
  {
    ids := Select<SessionId>(OldSessions(assistant.sessions, p), OldestSessions(assistant.sessions), p.limit);
  }

  // ----- retention, told by the columns

  /** Row `i` was updated before row `k`; or at the same time and created before it; or both, with the smaller id. */
  predicate Staler(updated: Time, created: Time, i: nat, otherUpdated: Time, otherCreated: Time, k: nat) {
    if updated != otherUpdated then updated < otherUpdated
    else if created != otherCreated then created < otherCreated
    else i < k
  }

  predicate StalerJob(jobs: map<JobId, Job>, i: JobId, k: JobId) {
    && i in jobs && k in jobs
    && Staler(jobs[i].updatedAt, jobs[i].createdAt, i, jobs[k].updatedAt, jobs[k].createdAt, k)
  }

  predicate StalerSession(sessions: map<SessionId, Session>, i: SessionId, k: SessionId) {
    && i in sessions && k in sessions
    && Staler(sessions[i].updatedAt, sessions[i].createdAt, i, sessions[k].updatedAt, sessions[k].createdAt, k)
  }

  /** The request is for jobs, and the job has been over, and untouched, for more than so many days. */
  predicate StaleJob(jobs: map<JobId, Job>, included: bool, days: int, now: Time, j: JobId) {
    && included && j in jobs && jobs[j].status != Queued && jobs[j].status != Running
    && (now - jobs[j].updatedAt) as real / (24.0 * 60.0 * 60.0 * 1000000.0) > days as real
  }

  /** Only stale jobs go, at most so many; one that is left is left because that many went, all of them staler. */
  ghost predicate StalestJobsGo(jobs: map<JobId, Job>, included: bool, days: int, limit: int, now: Time,
                                gone: set<JobId>)
  {
    && |gone| <= limit && (forall j :: j in gone ==> StaleJob(jobs, included, days, now, j))
    && forall j :: j !in gone && StaleJob(jobs, included, days, now, j) ==>
         |gone| == limit && forall k :: k in gone ==> StalerJob(jobs, k, j)
  }

  predicate StaleSession(sessions: map<SessionId, Session>, included: bool, days: int, now: Time, s: SessionId) {
    && included && s in sessions
    && (now - sessions[s].updatedAt) as real / (24.0 * 60.0 * 60.0 * 1000000.0) > days as real
  }

  ghost predicate StalestSessionsGo(sessions: map<SessionId, Session>, included: bool, days: int, limit: int, now: Time,
                                    gone: set<SessionId>)
  {
    && |gone| <= limit && (forall s :: s in gone ==> StaleSession(sessions, included, days, now, s))
    && forall s :: s !in gone && StaleSession(sessions, included, days, now, s) ==>
         |gone| == limit && forall k :: k in gone ==> StalerSession(sessions, k, s)
  }

  lemma OldJobsAreStale(jobs: map<JobId, Job>, p: RetentionPolicy, days: int, limit: int, included: bool,
                        sessions: bool, now: Time)
    requires Normalize(days, limit, included, sessions, now) == Some(p)
    ensures forall j :: j in OldJobs(jobs, p) <==> StaleJob(jobs, included, days, now, j)
    ensures p.limit == limit
  {
  }

  lemma OldSessionsAreStale(sessions: map<SessionId, Session>, p: RetentionPolicy, days: int, limit: int, jobs: bool,
                            included: bool, now: Time)
    requires Normalize(days, limit, jobs, included, now) == Some(p)
    ensures forall s :: s in OldSessions(sessions, p) <==> StaleSession(sessions, included, days, now, s)
    ensures p.limit == limit
  {
  }

  lemma StalestJobsListed(jobs: map<JobId, Job>, p: RetentionPolicy, days: int, limit: int, included: bool,
                          sessions: bool, now: Time, chosen: seq<JobId>)
    requires Normalize(days, limit, included, sessions, now) == Some(p)
    requires Listed(OldJobs(jobs, p), OldestJobs(jobs), p.limit, chosen)
    ensures StalestJobsGo(jobs, included, days, limit, now, ToSet(chosen))
  {
    OldJobsAreStale(jobs, p, days, limit, included, sessions, now);
    DistinctSize(chosen);
    assert ToSet(chosen) == (set x | x in chosen);
    forall j | j !in ToSet(chosen) && j in OldJobs(jobs, p)
      ensures |chosen| == limit
      ensures forall k :: k in ToSet(chosen) ==> StalerJob(jobs, k, j)
    {
      if |chosen| < limit {
        AllListed(OldJobs(jobs, p), OldestJobs(jobs), p.limit, chosen);
      }
      forall k | k in ToSet(chosen)
        ensures StalerJob(jobs, k, j)
      {
        var i :| 0 <= i < |chosen| && chosen[i] == k;
        assert chosen[i] in OldJobs(jobs, p) && j !in chosen && OldestJobs(jobs)(chosen[i], j);
      }
    }
    hide StaleJob, OldJobs, OldestJobs, Listed;
  }

  lemma StalestSessionsListed(sessions: map<SessionId, Session>, p: RetentionPolicy, days: int, limit: int, jobs: bool,
                              included: bool, now: Time, chosen: seq<SessionId>)
    requires Normalize(days, limit, jobs, included, now) == Some(p)
    requires Listed(OldSessions(sessions, p), OldestSessions(sessions), p.limit, chosen)
    ensures StalestSessionsGo(sessions, included, days, limit, now, ToSet(chosen))
  {
    OldSessionsAreStale(sessions, p, days, limit, jobs, included, now);
    DistinctSize(chosen);
    assert ToSet(chosen) == (set x | x in chosen);
    forall s | s !in ToSet(chosen) && s in OldSessions(sessions, p)
      ensures |chosen| == limit
      ensures forall k :: k in ToSet(chosen) ==> StalerSession(sessions, k, s)
    {
      if |chosen| < limit {
        AllListed(OldSessions(sessions, p), OldestSessions(sessions), p.limit, chosen);
      }
      forall k | k in ToSet(chosen)
        ensures StalerSession(sessions, k, s)
      {
        var i :| 0 <= i < |chosen| && chosen[i] == k;
        assert chosen[i] in OldSessions(sessions, p) && s !in chosen && OldestSessions(sessions)(chosen[i], s);
      }
    }
    hide StaleSession, OldSessions, OldestSessions, Listed;
  }

  lemma RequestInRange(days: int, limit: int, jobs: bool, sessions: bool, now: Time)
    ensures Normalize(days, limit, jobs, sessions, now).None? <==> days < 1 || days > 3650 || limit < 1 || limit > 5000
  {
  }

  datatype RetentionResult = Refused | Cleaned(policy: RetentionPolicy, jobs: JobCounts, sessions: SessionCounts,
                                               deletedJobs: JobCounts, deletedSessions: SessionCounts)

  /** The preview chooses its rows, and the deletion chooses again; both see the same tables, the order
      leaves no choice, and so the counts agree. An unconfirmed or malformed request changes nothing. */
  method RetentionCleanup(store: Store, assistant: AssistantStore, confirm: string, days: int, limit: int,
                          includeJobs: bool, includeSessions: bool, now: Time)
    returns (result: RetentionResult, ghost jobs: seq<JobId>, ghost sessions: seq<SessionId>)
    requires store.Valid()
    modifies store, assistant
    ensures store.Valid()
    ensures result.Refused? <==>
              Strip(confirm) != CONFIRM_PHRASE || Normalize(days, limit, includeJobs, includeSessions, now).None?
    ensures result.Refused? ==> store.Rows() == old(store.Rows()) && assistant.Rows() == old(assistant.Rows())
    ensures result.Cleaned? ==>
              && Normalize(days, limit, includeJobs, includeSessions, now) == Some(result.policy)
              && Listed(OldJobs(old(store.jobs), result.policy), OldestJobs(old(store.jobs)), result.policy.limit, jobs)
              && Listed(OldSessions(old(assistant.sessions), result.policy), OldestSessions(old(assistant.sessions)),
                        result.policy.limit, sessions)
              && store.Rows() == WithoutJobs(old(store.Rows()), ToSet(jobs))
              && assistant.Rows() == WithoutSessions(old(assistant.Rows()), ToSet(sessions))
              && result.deletedJobs == result.jobs == CountsOf(old(store.Rows()), ToSet(jobs))
              && result.deletedSessions == result.sessions == SessionCountsOf(old(assistant.Rows()), ToSet(sessions))
    ensures result.Refused? <==>
              Strip(confirm) != "CLEAN_OLD_RECORDS" || days < 1 || days > 3650 || limit < 1 || limit > 5000
    ensures result.Cleaned? ==>
              && store.jobs == old(store.jobs) - ToSet(jobs)
              && assistant.sessions == old(assistant.sessions) - ToSet(sessions)
              && StalestJobsGo(old(store.jobs), includeJobs, days, limit, now, ToSet(jobs))
              && StalestSessionsGo(old(assistant.sessions), includeSessions, days, limit, now, ToSet(sessions))
  {
    jobs, sessions := [], [];
    RequestInRange(days, limit, includeJobs, includeSessions, now);
    var policy := Normalize(days, limit, includeJobs, includeSessions, now);
    if Strip(confirm) != CONFIRM_PHRASE || policy.None? {
      return Refused, [], [];
    }
    var p := policy.value;
    ghost var before, asked := store.jobs, assistant.sessions;
    ghost var t, v := store.Rows(), assistant.Rows();
    hide *;
    var jobPreview, sessionPreview;
    jobPreview, sessionPreview, jobs, sessions := Preview(store, assistant, p);
    var deletedJobs, deletedSessions := DeleteCandidates(store, assistant, p, jobs, sessions);
    result := Cleaned(p, jobPreview, sessionPreview, deletedJobs, deletedSessions);
    StalestJobsListed(before, p, days, limit, includeJobs, includeSessions, now, jobs);
    StalestSessionsListed(asked, p, days, limit, includeJobs, includeSessions, now, sessions);
    JobsRemoved(store, t, ToSet(jobs));
    SessionsRemoved(assistant, v, ToSet(sessions));
  }

  lemma JobsRemoved(store: Store, t: Tables, gone: set<JobId>)
    requires store.Rows() == WithoutJobs(t, gone)
    ensures store.jobs == t.jobs - gone
  {
  }

  lemma SessionsRemoved(assistant: AssistantStore, t: AssistantTables, gone: set<SessionId>)
    requires assistant.Rows() == WithoutSessions(t, gone)
    ensures assistant.sessions == t.sessions - gone
  {
  }

  method Preview(store: Store, assistant: AssistantStore, p: RetentionPolicy)
    returns (counts: JobCounts, sessionCounts: SessionCounts, ghost jobs: seq<JobId>, ghost sessions: seq<SessionId>)
    ensures Listed(OldJobs(store.jobs, p), OldestJobs(store.jobs), p.limit, jobs)
    ensures Listed(OldSessions(assistant.sessions, p), OldestSessions(assistant.sessions), p.limit, sessions)
    ensures counts == CountsOf(store.Rows(), ToSet(jobs)) &&
            sessionCounts == SessionCountsOf(assistant.Rows(), ToSet(sessions))
  {
    hide *;
    var jobIds := CandidateJobs(store, p);
    var sessionIds := CandidateSessions(assistant, p);
    jobs, sessions := jobIds, sessionIds;
    counts := CountsOf(store.Rows(), ToSet(jobIds));
    sessionCounts := SessionCountsOf(assistant.Rows(), ToSet(sessionIds));
  }

  method DeleteCandidates(store: Store, assistant: AssistantStore, p: RetentionPolicy,
                          ghost jobs: seq<JobId>, ghost sessions: seq<SessionId>)
    returns (counts: JobCounts, sessionCounts: SessionCounts)
    requires store.Valid()
    requires Listed(OldJobs(store.jobs, p), OldestJobs(store.jobs), p.limit, jobs)
    requires Listed(OldSessions(assistant.sessions, p), OldestSessions(assistant.sessions), p.limit, sessions)
    modifies store, assistant
    ensures store.Valid() && store.Rows() == WithoutJobs(old(store.Rows()), ToSet(jobs))
    ensures assistant.Rows() == WithoutSessions(old(assistant.Rows()), ToSet(sessions))
    ensures counts == CountsOf(old(store.Rows()), ToSet(jobs))
    ensures sessionCounts == SessionCountsOf(old(assistant.Rows()), ToSet(sessions))
  {
    hide *;
    var jobIds := CandidateJobs(store, p);
    var sessionIds := CandidateSessions(assistant, p);
    SameJobs(store.jobs, p, jobIds, jobs);
    SameSessions(assistant.sessions, p, sessionIds, sessions);
    counts := DeleteJobRecords(store, ToSet(jobIds));
    sessionCounts := DeleteAssistantRecords(assistant, ToSet(sessionIds));
  }

  lemma SameJobs(jobs: map<JobId, Job>, p: RetentionPolicy, a: seq<JobId>, b: seq<JobId>)
    requires Listed(OldJobs(jobs, p), OldestJobs(jobs), p.limit, a) &&
             Listed(OldJobs(jobs, p), OldestJobs(jobs), p.limit, b)
    ensures a == b && ToSet(a) <= jobs.Keys
  {
    ListedOnce(OldJobs(jobs, p), OldestJobs(jobs), p.limit, a, b);
  }

  lemma SameSessions(sessions: map<SessionId, Session>, p: RetentionPolicy, a: seq<SessionId>, b: seq<SessionId>)
    requires Listed(OldSessions(sessions, p), OldestSessions(sessions), p.limit, a)
    requires Listed(OldSessions(sessions, p), OldestSessions(sessions), p.limit, b)
    ensures a == b && ToSet(a) <= sessions.Keys
  {
    ListedOnce(OldSessions(sessions, p), OldestSessions(sessions), p.limit, a, b);
  }
}
