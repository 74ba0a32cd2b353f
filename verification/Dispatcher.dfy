/** One dispatcher pass: lease due rows, publish each, and acknowledge or release it, while other
    processes keep working on the same tables. The dispatcher never executes the work it sends. */
module Dispatcher {
  import opened Model
  import opened Store
  import opened Queries
  import opened Outbox

  datatype BatchResult = BatchResult(claimed: nat, published: nat, retried: nat, failed: nat)

  /** How the broker answers one publish. A permanent error is a malformed message or argument. */
  datatype Delivery = Returned | Refused(permanent: bool)

  /** What the outside world does during one row's turn: the database may fail the claim event, the
      acknowledgement, the release, or the event after the release. */
  datatype Turn = Turn(noteFault: bool, delivery: Delivery, ackFault: bool, releaseFault: bool, afterFault: bool,
                       at: Time)

  /** What the dispatcher finds in the database: its job still stored, its lease still held. */
  datatype Seen = Seen(stored: bool, held: bool)

  datatype Fate = Delivered | PutBack | Dropped | Aborted

  function MessageFromDispatch(d: DispatchId, row: Dispatch): Message {
    Message(row.job, row.work.stage, row.work.attempt, d)
  }

  /** The message could be built, the claim was noted, and the publish returned. */
  predicate Sent(d: DispatchId, row: Dispatch, turn: Turn, seen: Seen) {
    Constructible(MessageFromDispatch(d, row)) && !turn.noteFault && seen.stored && turn.delivery.Returned?
  }

  datatype Settings = Settings(batchSize: int, leaseSeconds: int, maxAttempts: nat, retryBase: real, retryMax: real) {

    predicate Valid() {
      batchSize >= 1 && leaseSeconds >= 1 && maxAttempts >= 1 && retryBase > 0.0 && retryMax >= retryBase
    }

    /** The power of two is an integer that must fit a double, which 2^1024 does not: past 1024 claims
        the delay cannot be computed. */
    function RetryDelay(attempt: nat): Option<real> {
      if attempt > 1024 then None
      else Some(MinReal(Doubled(retryBase, if attempt <= 1 then 0 else attempt - 1), retryMax))
    }

    /** The release statement is not reached, or fails. */
    predicate ReleaseFails(row: Dispatch, turn: Turn) {
      RetryDelay(row.attemptCount).None? || turn.releaseFault
    }

    function RetryAt(row: Dispatch, now: Time): Time {
      now + (match RetryDelay(row.attemptCount) case Some(delay) => Micros(delay) case None => 0)
    }

    predicate Permanent(d: DispatchId, row: Dispatch, turn: Turn, seen: Seen) {
      !Constructible(MessageFromDispatch(d, row)) ||
      (!turn.noteFault && seen.stored && turn.delivery.Refused? && turn.delivery.permanent)
    }

    predicate GivesUp(d: DispatchId, row: Dispatch, turn: Turn, seen: Seen) {
      Permanent(d, row, turn, seen) || row.attemptCount >= maxAttempts
    }

    function FateOf(d: DispatchId, row: Dispatch, turn: Turn, seen: Seen): Fate {
      if Sent(d, row, turn, seen) then (if !turn.ackFault && seen.held then Delivered else Dropped)
      else if ReleaseFails(row, turn) then Aborted
      else if !seen.held then Dropped
      else if turn.afterFault then Aborted
      else if GivesUp(d, row, turn, seen) then Dropped
      else PutBack
    }

    /** The outbox after the row's turn, given how it stood just before the last statement: a sent row
        is marked or keeps its lease, any other is released if it is still held. */
    function RowsAfter(rows: map<DispatchId, Dispatch>, d: DispatchId, row: Dispatch, turn: Turn, seen: Seen,
                       now: Time): map<DispatchId, Dispatch>
    {
      if d !in rows || !seen.held then rows
      else if Sent(d, row, turn, seen) then (if turn.ackFault then rows else rows[d := MarkRow(rows[d], turn.at)])
      else if ReleaseFails(row, turn) then rows
      else rows[d := ReleaseRow(rows[d], RetryAt(row, now), GivesUp(d, row, turn, seen))]
    }
  }

  /** What a fate says about the row. A sent row is never put back or given up: it is marked, or it
      keeps its lease to be sent again. A row goes back only below the attempt limit, and not before
      now. Whatever is dropped was not ours any more, was sent, or is marked undeliverable. A row that
      was claimed more than 1024 times and cannot be sent keeps its lease and ends the pass. */
  lemma FateOnTheRow(s: Settings, rows: map<DispatchId, Dispatch>, d: DispatchId, row: Dispatch, token: Token,
                     turn: Turn, seen: Seen, now: Time)
    requires s.Valid() && d in rows && seen.held == HeldBy(rows[d], token)
    ensures
      var fate, after := s.FateOf(d, row, turn, seen), s.RowsAfter(rows, d, row, turn, seen, now)[d];
      && (fate == Delivered ==> Sent(d, row, turn, seen) && after.status == Published)
      && (fate == PutBack ==> !Sent(d, row, turn, seen) && after.status == Pending && row.attemptCount < s.maxAttempts
                              && after.availableAt >= now)
      && (fate == Dropped ==> after == rows[d] || (!Sent(d, row, turn, seen) && after.status == Undeliverable))
      && (fate == Aborted ==> !Sent(d, row, turn, seen))
      && (!Sent(d, row, turn, seen) && row.attemptCount > 1024 ==> fate == Aborted && after == rows[d])
      && (Sent(d, row, turn, seen) ==> after == rows[d] || after.status == Published)
  {
    var k: nat := if row.attemptCount <= 1 then 0 else row.attemptCount - 1;
    ScaleMonotone(s.retryBase, 1.0, Pow2(k));
    assert s.retryBase * 1.0 == s.retryBase;
    assert s.RetryDelay(row.attemptCount).Some? ==> s.RetryDelay(row.attemptCount).value > 0.0;
    assert s.RetryAt(row, now) >= now;
  }

  // ----- a turn, told by the columns

  /** A message can be built for the row: it names a stage that is carried out, and an attempt from 1 to 1000. */
  predicate Buildable(row: Dispatch) {
    row.work.stage in {ImageGenerate, VideoSubmit, VideoPoll, AssetImport, Finalize} && 1 <= row.work.attempt <= 1000
  }

  /** The broker took the message. */
  predicate WasTaken(row: Dispatch, turn: Turn, seen: Seen) {
    Buildable(row) && !turn.noteFault && seen.stored && turn.delivery == Returned
  }

  /** Sending it again would not help, or it was leased often enough. */
  predicate IsHopeless(row: Dispatch, limit: nat, turn: Turn, seen: Seen) {
    || !Buildable(row) || row.attemptCount >= limit
    || (!turn.noteFault && seen.stored && turn.delivery == Refused(true))
  }

  /** The row waits for so many seconds from now, to the microsecond. */
  predicate WaitsFor(row: Dispatch, now: Time, delay: real) {
    row.status == Pending && -0.5 <= (row.availableAt - now) as real - delay * 1000000.0 <= 0.5
  }

  /** A message that was taken settles its row, if that is still held and can be written. Any other row is let go: given
      up when it is hopeless, else due again after the delay. If the delay has no value, or the row cannot be written,
      the pass ends with the row as it was. */
  predicate TurnAsTold(limit: nat, delay: Option<real>, row: Dispatch, turn: Turn, seen: Seen, now: Time,
                       before: Dispatch, fate: Fate, after: Dispatch)
  {
    if WasTaken(row, turn, seen) then
      if turn.ackFault || !seen.held then fate == Dropped && after == before
      else fate == Delivered && after.status == Published && after.publishedAt == Some(turn.at) && LetGo(before, after)
    else if delay.None? || turn.releaseFault then fate == Aborted && after == before
    else if !seen.held then fate == Dropped && after == before
    else
      && LetGo(before, after) && after.publishedAt == before.publishedAt
      && if IsHopeless(row, limit, turn, seen) then
           after.status == Undeliverable && fate == (if turn.afterFault then Aborted else Dropped)
         else WaitsFor(after, now, delay.value) && fate == (if turn.afterFault then Aborted else PutBack)
  }

  /** Only the row of the turn changes, and it changes as told. */
  predicate OneTurn(s: Settings, rows: map<DispatchId, Dispatch>, d: DispatchId, row: Dispatch, turn: Turn, seen: Seen,
                    now: Time, fate: Fate, after: map<DispatchId, Dispatch>)
  {
    && after.Keys == rows.Keys && (forall k :: k in rows && k != d ==> after[k] == rows[k])
    && (d in rows ==> TurnAsTold(s.maxAttempts, s.RetryDelay(row.attemptCount), row, turn, seen, now, rows[d], fate,
                                 after[d]))
  }

  lemma TurnTold(s: Settings, rows: map<DispatchId, Dispatch>, d: DispatchId, row: Dispatch, turn: Turn, seen: Seen,
                 now: Time)
    ensures OneTurn(s, rows, d, row, turn, seen, now, s.FateOf(d, row, turn, seen),
                    s.RowsAfter(rows, d, row, turn, seen, now))
  {
    hide Settings.RetryDelay, Micros;
    if s.RetryDelay(row.attemptCount).Some? {
      MicrosAreClose(s.RetryDelay(row.attemptCount).value);
    }
  }

  /** The delay in figures: the base for a first claim, twice as much for each later one, and never more than the
      maximum; past 1024 claims it has no value. */
  lemma RetryDelayDoubles(s: Settings, attempt: nat)
    requires s.Valid()
    ensures attempt <= 1 ==> s.RetryDelay(attempt) == Some(s.retryBase)
    ensures 1 <= attempt < 1024 ==>
              var here := s.RetryDelay(attempt).value;
              s.RetryDelay(attempt + 1) == Some(if 2.0 * here < s.retryMax then 2.0 * here else s.retryMax)
    ensures s.RetryDelay(attempt).None? <==> attempt > 1024
  {
    hide Doubled;
    DoubledOnce(s.retryBase, if attempt <= 1 then 0 else attempt - 1);
  }

  /** Each setting is repaired before use. */
  function Configure(batchSize: int, leaseSeconds: int, maxAttempts: int, retryBase: real, retryMax: real): Settings {
    var base := MaxReal(0.1, retryBase);
    Settings(if batchSize < 1 then 1 else batchSize, if leaseSeconds < 1 then 1 else leaseSeconds,
             if maxAttempts < 1 then 1 else maxAttempts, base, MaxReal(base, retryMax))
  }

  /** A setting in range is kept, and any other is moved to the edge of its range. */
  lemma SettingsAreRepaired(batchSize: int, leaseSeconds: int, maxAttempts: int, retryBase: real, retryMax: real)
    ensures
      var s := Configure(batchSize, leaseSeconds, maxAttempts, retryBase, retryMax);
      && s.Valid()
      && s.batchSize == (if batchSize >= 1 then batchSize else 1)
      && s.leaseSeconds == (if leaseSeconds >= 1 then leaseSeconds else 1)
      && s.maxAttempts == (if maxAttempts >= 1 then maxAttempts else 1)
      && s.retryBase == (if retryBase >= 0.1 then retryBase else 0.1)
      && s.retryMax == (if retryMax >= s.retryBase then retryMax else s.retryBase)
  {
  }

  lemma MinKeepsOrder(x: real, y: real, cap: real)
    requires x <= y
    ensures MinReal(x, cap) <= MinReal(y, cap) <= cap
  {
  }

  lemma DelayOrder(s: Settings, a: nat, b: nat)
    requires s.Valid() && a <= b <= 1024
    ensures s.retryBase <= s.RetryDelay(a).value <= s.RetryDelay(b).value <= s.retryMax
  {
    var x: nat, y: nat := if a <= 1 then 0 else a - 1, if b <= 1 then 0 else b - 1;
    Pow2Monotone(x, y);
    var p, q := Pow2(x), Pow2(y);
    assert s.retryBase * 1.0 == s.retryBase;
    ScaleMonotone(s.retryBase, 1.0, p);
    ScaleMonotone(s.retryBase, p, q);
    MinKeepsOrder(s.retryBase * p, s.retryBase * q, s.retryMax);
  }

  /** Whatever the configuration says, the retry delay exists exactly up to 1024 claims, never shrinks
      with the attempt, and stays between the base and the cap. */
  lemma RetryDelayGrowsToItsCap(batchSize: int, leaseSeconds: int, maxAttempts: int, retryBase: real, retryMax: real,
                                a: nat, b: nat)
    requires a <= b
    ensures
      var s := Configure(batchSize, leaseSeconds, maxAttempts, retryBase, retryMax);
      && s.Valid()
      && (s.RetryDelay(b).Some? <==> b <= 1024)
      && (s.RetryDelay(b).Some? ==> s.RetryDelay(a).Some? &&
                                    s.retryBase <= s.RetryDelay(a).value <= s.RetryDelay(b).value <= s.retryMax)
  {
    if b <= 1024 {
      DelayOrder(Configure(batchSize, leaseSeconds, maxAttempts, retryBase, retryMax), a, b);
    }
  }

  function Count(fates: seq<Fate>, fate: Fate): nat {
    if fates == [] then 0 else Count(fates[..|fates| - 1], fate) + (if fates[|fates| - 1] == fate then 1 else 0)
  }

  /** The counters of a pass after these turns, none of which raised. */
  predicate Tallied(fates: seq<Fate>, published: nat, retried: nat, failed: nat) {
    && published == Count(fates, Delivered)
    && retried == Count(fates, PutBack)
    && failed == Count(fates, Dropped)
    && |fates| == published + retried + failed
  }

  lemma TalliedNext(fates: seq<Fate>, fate: Fate, published: nat, retried: nat, failed: nat)
    requires Tallied(fates, published, retried, failed) && fate != Aborted
    ensures Tallied(fates + [fate], published + (if fate == Delivered then 1 else 0),
                    retried + (if fate == PutBack then 1 else 0), failed + (if fate == Dropped then 1 else 0))
  {
    assert (fates + [fate])[..|fates|] == fates;
  }

  /** Every turn so far ended as the dispatcher's rules say. */
  predicate Followed(settings: Settings, ids: seq<DispatchId>, rows: seq<Dispatch>, turns: seq<Turn>, sights: seq<Seen>,
                     fates: seq<Fate>)
  {
    && |fates| == |sights| <= |ids| == |rows| && |ids| <= |turns|
    && forall i :: 0 <= i < |fates| ==> fates[i] == settings.FateOf(ids[i], rows[i], turns[i], sights[i])
  }

  lemma NoTurnYet(settings: Settings, ids: seq<DispatchId>, rows: seq<Dispatch>, turns: seq<Turn>)
    requires |ids| == |rows| && |ids| <= |turns|
    ensures Followed(settings, ids, rows, turns, [], []) && Tallied([], 0, 0, 0)
  {
  }

  lemma FollowedNext(settings: Settings, ids: seq<DispatchId>, rows: seq<Dispatch>, turns: seq<Turn>, sights: seq<Seen>,
                     fates: seq<Fate>, seen: Seen)
    requires Followed(settings, ids, rows, turns, sights, fates) && |fates| < |ids|
    ensures Followed(settings, ids, rows, turns, sights + [seen],
                     fates + [settings.FateOf(ids[|fates|], rows[|fates|], turns[|fates|], seen)])
  {
  }

  /** What other processes may do to the tables between two of this dispatcher's transactions: nobody
      else ever writes its token, so a row it holds is as it was or no longer held. */
  method Elapse(store: Store, token: Token)
    requires store.Valid()
    modifies store
    ensures store.Valid()
    ensures forall d :: d in store.dispatches && HeldBy(store.dispatches[d], token) ==>
              d in old(store.dispatches) && store.dispatches[d] == old(store.dispatches)[d]
  {
  }

  class JobDispatcher {
    const settings: Settings
    const outbox: OutboxRepository

    constructor (batchSize: int, leaseSeconds: int, maxAttempts: int, retryBase: real, retryMax: real)
      ensures settings == Configure(batchSize, leaseSeconds, maxAttempts, retryBase, retryMax)
    {
      settings := Configure(batchSize, leaseSeconds, maxAttempts, retryBase, retryMax);
      outbox := new OutboxRepository();
    }

    /** One row's turn. `before` is the outbox just before the statement that settles the row. */
    method Deliver(store: Store, d: DispatchId, row: Dispatch, token: Token, turn: Turn, now: Time)
      returns (fate: Fate, ghost seen: Seen, ghost before: map<DispatchId, Dispatch>)
      requires store.Valid()
      modifies store
      ensures store.Valid()
      ensures fate == settings.FateOf(d, row, turn, seen)
      ensures seen.held == (d in before && HeldBy(before[d], token))
      ensures store.dispatches == settings.RowsAfter(before, d, row, turn, seen, now)
      ensures OneTurn(settings, before, d, row, turn, seen, now, fate, store.dispatches)
    {
      hide ViewOf, Referential, MarkRow, ReleaseRow, Settings.RetryAt, Settings.RetryDelay, Constructible;
      hide OneTurn, Settings.Valid;
      Elapse(store, token);
      var message := MessageFromDispatch(d, row);
      var stored := row.job in store.jobs;
      var noted := Constructible(message) && !turn.noteFault && stored;
      if noted {
        store.AppendEvent(row.job, None, None);
      }
      Elapse(store, token);
      before := store.dispatches;
      seen := Seen(stored, d in before && HeldBy(before[d], token));
      if noted && turn.delivery.Returned? {
        var held := !turn.ackFault;
        if held {
          held := outbox.MarkPublished(store, d, token, turn.at);
        }
        fate := if held then Delivered else Dropped;
      } else {
        fate := Release(store, d, row, token, turn, Constructible(message) && (!noted || !turn.delivery.permanent),
                        now);
      }
      TurnTold(settings, before, d, row, turn, seen, now);
    }

    /** The failure path: put the row back, or give it up for good. */
    method Release(store: Store, d: DispatchId, row: Dispatch, token: Token, turn: Turn, transient: bool, now: Time)
      returns (fate: Fate)
      requires store.Valid()
      modifies store`dispatches, store`events
      ensures store.Valid()
      ensures
        var held := d in old(store.dispatches) && HeldBy(old(store.dispatches)[d], token);
        var terminal := !transient || row.attemptCount >= settings.maxAttempts;
        && fate == (if settings.ReleaseFails(row, turn) then Aborted
                    else if !held then Dropped
                    else if turn.afterFault then Aborted
                    else if terminal then Dropped else PutBack)
        && store.dispatches == if !settings.ReleaseFails(row, turn) && held
             then old(store.dispatches)[d := ReleaseRow(old(store.dispatches)[d], settings.RetryAt(row, now), terminal)]
             else old(store.dispatches)
    {
      hide ViewOf, ReleaseRow, Settings.RetryAt, Settings.RetryDelay;
      var terminal := !transient || row.attemptCount >= settings.maxAttempts;
      if settings.RetryDelay(row.attemptCount).None? || turn.releaseFault {
        return Aborted;
      }
      var held := outbox.Release(store, d, token, settings.RetryAt(row, now), terminal);
      if !held {
        return Dropped;
      }
      if turn.afterFault {
        return Aborted;
      }
      store.AppendEvent(store.dispatches[d].job, None, None);
      fate := if terminal then Dropped else PutBack;
    }

    method ClaimBatch(store: Store, token: Token, now: Time) returns (ids: seq<DispatchId>, rows: seq<Dispatch>)
      requires store.Valid()
      modifies store`dispatches
      ensures store.Valid() && store.View() == old(store.View())
      ensures Listed(DueRows(old(store.dispatches), now), ByDueTime(old(store.dispatches)),
                     Clamp(settings.batchSize, 1, 500), ids)
      ensures |rows| == |ids| <= Clamp(settings.batchSize, 1, 500)
      ensures forall i :: 0 <= i < |ids| ==>
                ids[i] in old(store.dispatches) &&
                rows[i] == ClaimRow(old(store.dispatches)[ids[i]], token, now + settings.leaseSeconds * 1000000)
    {
      hide ViewOf, Referential, ClaimRow, ByDueTime;
      ids, rows := outbox.ClaimPending(store, token, now + settings.leaseSeconds * 1000000, settings.batchSize, now);
    }

    /** A pass that returns accounts for every row it claimed exactly once; a pass that raises does so
        in the turn of the row it could not release. */
    method DispatchOnce(store: Store, token: Token, turns: seq<Turn>, now: Time)
      returns (result: Option<BatchResult>, ghost ids: seq<DispatchId>, ghost rows: seq<Dispatch>,
               ghost sights: seq<Seen>, ghost fates: seq<Fate>)
      requires store.Valid() && |turns| >= Clamp(settings.batchSize, 1, 500)
      modifies store
      ensures store.Valid()
      ensures Listed(DueRows(old(store.dispatches), now), ByDueTime(old(store.dispatches)),
                     Clamp(settings.batchSize, 1, 500), ids)
      ensures |rows| == |ids| && forall i :: 0 <= i < |ids| ==>
                ids[i] in old(store.dispatches) &&
                rows[i] == ClaimRow(old(store.dispatches)[ids[i]], token, now + settings.leaseSeconds * 1000000)
      ensures Followed(settings, ids, rows, turns, sights, fates)
      ensures result.None? ==> fates != [] && fates[|fates| - 1] == Aborted
      ensures result.Some? ==>
                && |fates| == |ids| == result.value.claimed
                && Tallied(fates, result.value.published, result.value.retried, result.value.failed)
                && result.value.claimed == result.value.published + result.value.retried + result.value.failed
    {
      hide *;
      var claimedIds, claimed := ClaimBatch(store, token, now);
      ids, rows, sights, fates := claimedIds, claimed, [], [];
      var published, retried, failed := 0, 0, 0;
      NoTurnYet(settings, ids, rows, turns);
      for i := 0 to |claimedIds|
        invariant store.Valid() && |fates| == i == published + retried + failed
        invariant Followed(settings, ids, rows, turns, sights, fates) && Tallied(fates, published, retried, failed)
      {
        var fate;
        ghost var seen, before;
        fate, seen, before := Deliver(store, claimedIds[i], claimed[i], token, turns[i], now);
        FollowedNext(settings, ids, rows, turns, sights, fates, seen);
        if fate == Aborted {
          return None, ids, rows, sights + [seen], fates + [fate];
        }
        TalliedNext(fates, fate, published, retried, failed);
        published := published + (if fate == Delivered then 1 else 0);
        retried := retried + (if fate == PutBack then 1 else 0);
        failed := failed + (if fate == Dropped then 1 else 0);
        sights, fates := sights + [seen], fates + [fate];
      }
      result := Some(BatchResult(|claimedIds|, published, retried, failed));
    }
  }
}
