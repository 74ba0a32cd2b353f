/** Any number of dispatchers, interleaved, over one outbox. Each batch has its own token (the
    batch's position), can stop at any point, and publishes, acknowledges or releases its rows in
    any order; rows are inserted, re-queued by an administrator and cleaned up meanwhile. */
module Leases {
  import opened Model
  import opened Store
  import opened Outbox

  /** How far a dispatcher has come with one claimed row. */
  datatype Progress = Waiting | Sent | Refused(permanent: bool) | Done

  /** `attempt` is the row's attempt count as the claim returned it. */
  datatype Turn = Turn(attempt: nat, progress: Progress)

  datatype Batch = Batch(expires: Time, turns: map<DispatchId, Turn>)

  datatype System = System(
    maxAttempts: nat,
    rows: map<DispatchId, Dispatch>,
    used: set<DispatchId>,
    batches: seq<Batch>,
    latest: map<DispatchId, Token>)

  datatype Action =
    | Insert(d: DispatchId, job: JobId, work: Work, availableAt: Time, now: Time)
    | Claim(ids: set<DispatchId>, expires: Time, now: Time)
    | Publish(b: Token, d: DispatchId, outcome: Progress)
    | Mark(b: Token, d: DispatchId, fault: bool, now: Time)
    | Release(b: Token, d: DispatchId, fault: bool, availableAt: Time)
    | Requeue(d: DispatchId, renewed: DispatchId, now: Time)
    | Remove(gone: set<DispatchId>)

  predicate At(s: System, b: Token, d: DispatchId) {
    b < |s.batches| && d in s.batches[b].turns
  }

  predicate Enabled(s: System, a: Action) {
    match a
    case Insert(d, _, _, _, _) => d !in s.used
    case Claim(ids, _, now) => ids <= DueRows(s.rows, now)
    case Publish(b, d, outcome) => At(s, b, d) && s.batches[b].turns[d].progress.Waiting? &&
                                   (outcome.Sent? || outcome.Refused?)
    case Mark(b, d, _, _) => At(s, b, d) && s.batches[b].turns[d].progress.Sent?
    case Release(b, d, _, _) => At(s, b, d) && s.batches[b].turns[d].progress.Refused?
    case Requeue(d, renewed, _) => d in s.rows && s.rows[d].status == Published && renewed !in s.used
    case Remove(_) => true
  }

  function Advance(s: System, b: Token, d: DispatchId, progress: Progress): System
    requires At(s, b, d)
  {
    var turn := s.batches[b].turns[d].(progress := progress);
    s.(batches := s.batches[b := s.batches[b].(turns := s.batches[b].turns[d := turn])])
  }

  function Write(s: System, d: DispatchId, row: Dispatch): System {
    s.(rows := s.rows[d := row], used := s.used + {d})
  }

  predicate Terminates(s: System, b: Token, d: DispatchId)
    requires At(s, b, d) && s.batches[b].turns[d].progress.Refused?
  {
    s.batches[b].turns[d].progress.permanent || s.batches[b].turns[d].attempt >= s.maxAttempts
  }

  function NextClaim(s: System, ids: set<DispatchId>, expires: Time): System
    requires ids <= s.rows.Keys
  {
    var turns := map d | d in ids :: Turn(s.rows[d].attemptCount + 1, Waiting);
    s.(rows := ClaimRows(s.rows, ids, |s.batches|, expires),
       batches := s.batches + [Batch(expires, turns)],
       latest := s.latest + (map d | d in ids :: |s.batches|))
  }

  /** `fault` is a database error: the statement has no effect and the row keeps its lease. */
  function NextMark(s: System, b: Token, d: DispatchId, fault: bool, now: Time): System
    requires At(s, b, d)
  {
    var t := Advance(s, b, d, Done);
    if !fault && d in s.rows && HeldBy(s.rows[d], b) then Write(t, d, MarkRow(s.rows[d], now)) else t
  }

  function NextRelease(s: System, b: Token, d: DispatchId, fault: bool, availableAt: Time): System
    requires At(s, b, d) && s.batches[b].turns[d].progress.Refused?
  {
    var t := Advance(s, b, d, Done);
    if !fault && d in s.rows && HeldBy(s.rows[d], b)
    then Write(t, d, ReleaseRow(s.rows[d], availableAt, Terminates(s, b, d)))
    else t
  }

  function Next(s: System, a: Action): System
    requires Enabled(s, a)
  {
    match a
    case Insert(d, job, work, availableAt, now) => Write(s, d, NewDispatch(job, work, availableAt, now))
    case Claim(ids, expires, _) => NextClaim(s, ids, expires)
    case Publish(b, d, outcome) => Advance(s, b, d, outcome)
    case Mark(b, d, fault, now) => NextMark(s, b, d, fault, now)
    case Release(b, d, fault, availableAt) => NextRelease(s, b, d, fault, availableAt)
    case Requeue(d, renewed, now) =>
      Write(Write(s, d, AbandonRow(s.rows[d])), renewed, NewDispatch(s.rows[d].job, s.rows[d].work, now, now))
    case Remove(gone) => s.(rows := s.rows - gone)
  }

  predicate Start(s: System) {
    s.rows == map[] && s.used == {} && s.batches == [] && s.latest == map[] && s.maxAttempts >= 1
  }

  datatype Run = Run(states: seq<System>, actions: seq<Action>) {
    predicate Valid() {
      && |states| == |actions| + 1
      && Start(states[0])
      && forall i {:trigger actions[i]} :: 0 <= i < |actions| ==>
           Enabled(states[i], actions[i]) && states[i + 1] == Next(states[i], actions[i])
    }
  }

  // ----- the invariant

  /** A row is being published exactly when it holds a token, and then the token is the latest
      claimant's, whose own record of the attempt count is still right. */
  predicate RowOk(s: System, d: DispatchId)
    requires d in s.rows
  {
    var row := s.rows[d];
    && d in s.used
    && (row.status == Publishing <==> row.token.Some?)
    && (row.status == Publishing <==> row.expiresAt.Some?)
    && (row.token.Some? ==>
          && d in s.latest && s.latest[d] == row.token.value && At(s, row.token.value, d)
          && s.batches[row.token.value].turns[d].attempt == row.attemptCount
          && Some(s.batches[row.token.value].expires) == row.expiresAt)
  }

  predicate Inv(s: System) {
    && s.maxAttempts >= 1
    && (forall d :: d in s.rows ==> RowOk(s, d))
    && (forall d :: d in s.latest ==> d in s.used && s.latest[d] < |s.batches|)
    && (forall b, d :: 0 <= b < |s.batches| && d in s.batches[b].turns ==> d in s.used)
  }

  lemma ClaimKeeps(s: System, ids: set<DispatchId>, expires: Time)
    requires Inv(s) && ids <= s.rows.Keys
    ensures Inv(NextClaim(s, ids, expires))
  {
    var t := NextClaim(s, ids, expires);
    forall d | d in t.rows
      ensures RowOk(t, d)
    {
      assert RowOk(s, d);
    }
  }

  lemma SettleKeeps(s: System, b: Token, d: DispatchId, row: Option<Dispatch>)
    requires Inv(s) && At(s, b, d)
    requires row.Some? ==> d in s.rows && row.value.status != Publishing && row.value.token.None? &&
                           row.value.expiresAt.None?
    ensures
      var t := Advance(s, b, d, Done);
      Inv(if row.Some? then Write(t, d, row.value) else t)
  {
    var t := Advance(s, b, d, Done);
    var u := if row.Some? then Write(t, d, row.value) else t;
    forall e | e in u.rows
      ensures RowOk(u, e)
    {
      assert RowOk(s, e);
    }
  }

  lemma StepKeeps(s: System, a: Action)
    requires Inv(s) && Enabled(s, a)
    ensures Inv(Next(s, a)) && Next(s, a).maxAttempts == s.maxAttempts
    ensures s.used <= Next(s, a).used
  {
    match a
    case Claim(ids, expires, _) => ClaimKeeps(s, ids, expires);
    case Mark(b, d, fault, now) =>
      SettleKeeps(s, b, d, if !fault && d in s.rows && HeldBy(s.rows[d], b) then Some(MarkRow(s.rows[d], now))
                           else None);
    case Release(b, d, fault, availableAt) =>
      SettleKeeps(s, b, d, if !fault && d in s.rows && HeldBy(s.rows[d], b)
                           then Some(ReleaseRow(s.rows[d], availableAt, Terminates(s, b, d))) else None);
    case _ =>
  }

  lemma {:induction false} RunKeeps(run: Run, i: nat)
    requires run.Valid() && i < |run.states|
    ensures Inv(run.states[i]) && run.states[i].maxAttempts == run.states[0].maxAttempts
  {
    if i > 0 {
      RunKeeps(run, i - 1);
      StepKeeps(run.states[i - 1], run.actions[i - 1]);
    }
  }

  // ----- main results

  /** A row is being published exactly when somebody holds it, and that is its latest claimant. */
  lemma PublishingMeansHeld(run: Run, i: nat, d: DispatchId)
    requires run.Valid() && i < |run.states| && d in run.states[i].rows
    ensures
      var s := run.states[i];
      var row := s.rows[d];
      && (row.status == Publishing <==> row.token.Some?)
      && (row.status == Publishing <==> row.expiresAt.Some?)
      && (row.token.Some? ==> d in s.latest && row.token.value == s.latest[d])
  {
    RunKeeps(run, i);
    assert RowOk(run.states[i], d);
  }

  predicate Settles(a: Action, d: DispatchId) {
    (a.Mark? || a.Release?) && a.d == d
  }

  predicate Claims(a: Action, d: DispatchId) {
    a.Claim? && d in a.ids
  }

  predicate RowChanges(run: Run, k: nat, d: DispatchId)
    requires run.Valid() && k < |run.actions|
  {
    d in run.states[k].rows && d in run.states[k + 1].rows && run.states[k + 1].rows[d] != run.states[k].rows[d]
  }

  lemma {:induction false} LatestRises(run: Run, i: nat, k: nat, d: DispatchId)
    requires run.Valid() && i <= k < |run.states|
    ensures |run.states[i].batches| <= |run.states[k].batches|
    ensures d in run.states[i].latest ==>
              d in run.states[k].latest && run.states[i].latest[d] <= run.states[k].latest[d]
    decreases k - i
  {
    if i < k {
      LatestRises(run, i, k - 1, d);
      RunKeeps(run, k - 1);
      var a := run.actions[k - 1];
      assert run.states[k] == Next(run.states[k - 1], a);
    }
  }

  lemma SettlerIsLatest(s: System, a: Action, d: DispatchId)
    requires Inv(s) && Enabled(s, a) && Settles(a, d)
    requires d in s.rows && d in Next(s, a).rows && Next(s, a).rows[d] != s.rows[d]
    ensures d in s.latest && s.latest[d] == a.b
  {
    assert RowOk(s, d);
  }

  lemma ClaimIsLatest(s: System, a: Action, d: DispatchId)
    requires Enabled(s, a) && Claims(a, d)
    ensures
      var t := Next(s, a);
      d in t.latest && t.latest[d] == |s.batches| && |t.batches| == |s.batches| + 1
  {
  }

  /** A claimant can mark or release a row only while no later claim of that row has been made. */
  lemma OnlyLatestClaimantSettles(run: Run, c: nat, m: nat, k: nat, d: DispatchId)
    requires run.Valid() && c < m < k < |run.actions|
    requires Claims(run.actions[c], d) && Settles(run.actions[k], d)
    requires run.actions[k].b == |run.states[c].batches| && RowChanges(run, k, d)
    ensures !Claims(run.actions[m], d)
  {
    hide Enabled, Inv, Next;
    RunKeeps(run, k);
    SettlerIsLatest(run.states[k], run.actions[k], d);
    if Claims(run.actions[m], d) {
      ClaimIsLatest(run.states[c], run.actions[c], d);
      ClaimIsLatest(run.states[m], run.actions[m], d);
      LatestRises(run, c + 1, m, d);
      LatestRises(run, m + 1, k, d);
      assert false;
    }
  }

  predicate Held(s: System, d: DispatchId, b: Token, expires: Time) {
    d in s.rows && HeldBy(s.rows[d], b) && s.rows[d].expiresAt == Some(expires)
  }

  /** What may end a lease while its row stays: its holder settles it, or it ran out. */
  predicate EndsLease(a: Action, d: DispatchId, b: Token, expires: Time) {
    (Settles(a, d) && a.b == b) || (Claims(a, d) && a.now >= expires)
  }

  lemma LeaseStep(s: System, a: Action, d: DispatchId, b: Token, expires: Time)
    requires Inv(s) && Enabled(s, a) && Held(s, d, b, expires) && d in Next(s, a).rows
    ensures Held(Next(s, a), d, b, expires) || EndsLease(a, d, b, expires)
  {
  }

  lemma RemovedStaysAway(s: System, a: Action, d: DispatchId)
    requires Inv(s) && Enabled(s, a) && d in s.used && d !in s.rows
    ensures d !in Next(s, a).rows
  {
  }

  lemma {:induction false} UsedStays(run: Run, i: nat, k: nat, d: DispatchId)
    requires run.Valid() && i <= k < |run.states| && d in run.states[i].used
    ensures d in run.states[k].used
    decreases k - i
  {
    if i < k {
      UsedStays(run, i, k - 1, d);
      RunKeeps(run, k - 1);
      StepKeeps(run.states[k - 1], run.actions[k - 1]);
    }
  }

  /** No row is taken from its holder before the lease runs out. */
  lemma {:induction false} NoEarlyReclaim(run: Run, i: nat, k: nat, d: DispatchId, b: Token, expires: Time)
    requires run.Valid() && i <= k < |run.states|
    requires Held(run.states[i], d, b, expires) && d in run.states[k].rows && !Held(run.states[k], d, b, expires)
    ensures exists m :: i <= m < k && EndsLease(run.actions[m], d, b, expires)
    decreases k - i
  {
    RunKeeps(run, i);
    RunKeeps(run, k - 1);
    assert RowOk(run.states[i], d);
    var s, a := run.states[k - 1], run.actions[k - 1];
    UsedStays(run, i, k - 1, d);
    if d !in s.rows {
      RemovedStaysAway(s, a, d);
      assert false;
    } else if Held(s, d, b, expires) {
      LeaseStep(s, a, d, b, expires);
    } else {
      NoEarlyReclaim(run, i, k - 1, d, b, expires);
    }
  }

  predicate SentBefore(run: Run, i: nat, d: DispatchId)
    requires i <= |run.actions|
  {
    exists m {:trigger run.actions[m]} :: 0 <= m < i && run.actions[m].Publish? && run.actions[m].d == d &&
                                          run.actions[m].outcome.Sent?
  }

  lemma {:induction false} SentTurns(run: Run, i: nat, b: Token, d: DispatchId)
    requires run.Valid() && i < |run.states|
    requires At(run.states[i], b, d) && run.states[i].batches[b].turns[d].progress.Sent?
    ensures SentBefore(run, i, d)
  {
    if i > 0 {
      var s, a := run.states[i - 1], run.actions[i - 1];
      assert run.states[i] == Next(s, a);
      if At(s, b, d) && s.batches[b].turns[d].progress.Sent? {
        SentTurns(run, i - 1, b, d);
      } else {
        assert a.Publish? && a.d == d;
      }
    }
  }

  /** A row marked published stands for a publish that really returned. */
  lemma {:induction false} PublishedWasSent(run: Run, i: nat, d: DispatchId)
    requires run.Valid() && i < |run.states|
    requires d in run.states[i].rows && run.states[i].rows[d].status == Published
    ensures SentBefore(run, i, d)
  {
    if i > 0 {
      var s, a := run.states[i - 1], run.actions[i - 1];
      assert run.states[i] == Next(s, a);
      if d in s.rows && s.rows[d].status == Published {
        PublishedWasSent(run, i - 1, d);
      } else {
        assert a.Mark? && a.d == d;
        SentTurns(run, i - 1, a.b, d);
      }
    }
  }

  /** Step `k` puts a row back for another try. */
  predicate PutBack(run: Run, k: nat, d: DispatchId)
    requires run.Valid() && k < |run.actions|
  {
    RowChanges(run, k, d) && run.actions[k].Release? && run.states[k + 1].rows[d].status == Pending
  }

  function Releases(run: Run, n: nat, d: DispatchId): nat
    requires run.Valid() && n <= |run.actions|
  {
    if n == 0 then 0 else Releases(run, n - 1, d) + (if PutBack(run, n - 1, d) then 1 else 0)
  }

  /** How many put-backs a row's own attempt count leaves room for. */
  predicate ReleasesFit(s: System, d: DispatchId, releases: nat) {
    && releases < s.maxAttempts
    && (d in s.rows ==> releases + (if s.rows[d].status == Publishing then 1 else 0) <= s.rows[d].attemptCount)
    && (d !in s.used ==> releases == 0)
  }

  lemma ReleaseStep(run: Run, k: nat, d: DispatchId, releases: nat)
    requires run.Valid() && k < |run.actions| && Inv(run.states[k])
    requires ReleasesFit(run.states[k], d, releases)
    ensures ReleasesFit(run.states[k + 1], d, releases + (if PutBack(run, k, d) then 1 else 0))
  {
    var s, a := run.states[k], run.actions[k];
    assert run.states[k + 1] == Next(s, a);
    if d in s.rows {
      assert RowOk(s, d);
    }
  }

  /** Over its whole life, a row goes back to pending fewer times than the attempt limit. */
  lemma {:induction false} ReleasesAreBounded(run: Run, n: nat, d: DispatchId)
    requires run.Valid() && n < |run.states|
    ensures ReleasesFit(run.states[n], d, Releases(run, n, d))
    ensures Releases(run, n, d) < run.states[0].maxAttempts
  {
    hide Enabled, Inv, PutBack, Next;
    RunKeeps(run, n);
    if n > 0 {
      ReleasesAreBounded(run, n - 1, d);
      RunKeeps(run, n - 1);
      ReleaseStep(run, n - 1, d, Releases(run, n - 1, d));
    }
  }

  /** No unfinished row is stranded: it is due from some moment on, whoever died holding it. */
  lemma UnfinishedRowsComeDue(run: Run, i: nat, d: DispatchId)
    requires run.Valid() && i < |run.states| && d in run.states[i].rows
    ensures
      var row := run.states[i].rows[d];
      (row.status == Pending || row.status == Publishing) <==> exists from: Time :: DueFrom(row, from)
  {
    RunKeeps(run, i);
    assert RowOk(run.states[i], d);
    var row := run.states[i].rows[d];
    if row.status == Pending {
      assert DueFrom(row, row.availableAt);
    } else if row.status == Publishing {
      assert DueFrom(row, row.expiresAt.value);
    } else {
      forall from: Time
        ensures !DueFrom(row, from)
      {
        assert !Due(row, from);
      }
    }
  }

  ghost predicate DueFrom(row: Dispatch, from: Time) {
    forall now: Time :: now >= from ==> Due(row, now)
  }

  /** Nobody takes a row before it is due: a claim finds it pending and no longer waiting, or leased to somebody whose
      lease has run out. */
  lemma ClaimsComeInTime(run: Run, k: nat, d: DispatchId)
    requires run.Valid() && k < |run.actions| && Claims(run.actions[k], d)
    ensures d in run.states[k].rows
    ensures
      var row, now := run.states[k].rows[d], run.actions[k].now;
      if row.status == Pending then row.availableAt <= now
      else row.status == Publishing && row.expiresAt.Some? && row.expiresAt.value <= now
  {
    assert Enabled(run.states[k], run.actions[k]);
    assert d in DueRows(run.states[k].rows, run.actions[k].now);
  }

  /** A row that was put back, or first written, waits out its time, whatever else happens to the outbox. */
  lemma {:induction false} PendingRowsWait(run: Run, i: nat, k: nat, d: DispatchId)
    requires run.Valid() && i <= k < |run.actions| && Claims(run.actions[k], d)
    requires d in run.states[i].rows && run.states[i].rows[d].status == Pending
    requires forall x :: i <= x < k ==> !Claims(run.actions[x], d)
    ensures run.actions[k].now >= run.states[i].rows[d].availableAt
  {
    StillPending(run, i, k, d);
    ClaimsComeInTime(run, k, d);
  }

  lemma {:induction false} StillPending(run: Run, i: nat, k: nat, d: DispatchId)
    requires run.Valid() && i <= k < |run.states|
    requires d in run.states[i].rows && run.states[i].rows[d].status == Pending
    requires forall x :: i <= x < k ==> !Claims(run.actions[x], d)
    ensures d in run.states[k].rows ==> run.states[k].rows[d] == run.states[i].rows[d]
    decreases k - i
  {
    hide Enabled, Next, Inv, Claims;
    RunKeeps(run, i);
    IssuedRow(run.states[i], d);
    if i < k {
      StillPending(run, i, k - 1, d);
      RunKeeps(run, k - 1);
      UsedStays(run, i, k - 1, d);
      UnclaimedStep(run.states[k - 1], run.actions[k - 1], d);
    }
  }

  lemma IssuedRow(s: System, d: DispatchId)
    requires Inv(s) && d in s.rows
    ensures d in s.used
  {
    assert RowOk(s, d);
  }

  lemma UnclaimedStep(s: System, a: Action, d: DispatchId)
    requires Inv(s) && Enabled(s, a) && !Claims(a, d) && d in s.used
    ensures d !in s.rows ==> d !in Next(s, a).rows
    ensures d in s.rows && s.rows[d].status == Pending && d in Next(s, a).rows ==> Next(s, a).rows[d] == s.rows[d]
  {
    if d in s.rows {
      assert RowOk(s, d);
    }
  }

  // ----- what is given up

  /** The step takes the row out of delivery for good: its holder releases it although the publish was
      refused permanently or the row has been claimed as often as the limit allows, or an
      administrator replaces it. */
  predicate GivesUp(s: System, a: Action, d: DispatchId) {
    && Enabled(s, a) && d in s.rows
    && ((a.Release? && a.d == d && !a.fault && HeldBy(s.rows[d], a.b) &&
         (s.batches[a.b].turns[d].progress.permanent || s.rows[d].attemptCount >= s.maxAttempts)) ||
        (a.Requeue? && a.d == d))
  }

  predicate GivenUpBefore(run: Run, i: nat, d: DispatchId)
    requires i <= |run.actions| && |run.states| == |run.actions| + 1
  {
    exists k {:trigger run.actions[k]} :: 0 <= k < i && GivesUp(run.states[k], run.actions[k], d)
  }

  /** One step: a stored row becomes undeliverable by being given up and in no other way, and stays so. */
  lemma GivingUpStep(s: System, a: Action, d: DispatchId)
    requires Inv(s) && Enabled(s, a) && d in Next(s, a).rows
    ensures d !in s.rows ==> Next(s, a).rows[d].status == Pending && !GivesUp(s, a, d)
    ensures d in s.rows ==>
              (Next(s, a).rows[d].status == Undeliverable <==> s.rows[d].status == Undeliverable || GivesUp(s, a, d))
  {
    if d in s.rows {
      assert RowOk(s, d);
    }
  }

  lemma NotGivenUpUnissued(run: Run, i: nat, d: DispatchId)
    requires run.Valid() && i < |run.states| && d !in run.states[i].used
    ensures !GivenUpBefore(run, i, d)
  {
    forall k | 0 <= k < i
      ensures !GivesUp(run.states[k], run.actions[k], d)
    {
      RunKeeps(run, k);
      if d in run.states[k].rows {
        assert RowOk(run.states[k], d);
        UsedStays(run, k, i, d);
      }
    }
  }

  /** A row is undeliverable if and only if an earlier step gave it up: a holder's release after a
      permanent refusal or at the attempt limit, or a re-queue. */
  lemma {:induction false} UndeliverableIffGivenUp(run: Run, i: nat, d: DispatchId)
    requires run.Valid() && i < |run.states| && d in run.states[i].rows
    ensures run.states[i].rows[d].status == Undeliverable <==> GivenUpBefore(run, i, d)
  {
    if i > 0 {
      var s, a := run.states[i - 1], run.actions[i - 1];
      RunKeeps(run, i - 1);
      GivingUpStep(s, a, d);
      if d in s.rows {
        UndeliverableIffGivenUp(run, i - 1, d);
        assert GivenUpBefore(run, i, d) <==> GivenUpBefore(run, i - 1, d) || GivesUp(s, a, d);
      } else {
        if d in s.used {
          RemovedStaysAway(s, a, d);
        }
        NotGivenUpUnissued(run, i - 1, d);
        assert GivenUpBefore(run, i, d) <==> GivenUpBefore(run, i - 1, d) || GivesUp(s, a, d);
      }
    }
  }
}
