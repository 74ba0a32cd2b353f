/** Runs in which a job is left behind, active, for each of the ways in which that can happen: its worker dies
    at a billable stage, its message is lost, or its row is given up, after the first attempt or before it. */
module StrandedRuns {
  import opened Model
  import opened Records
  import opened Store
  import opened Protocol
  import opened BrokerRuns
  import opened Progress
  import opened Continuations
  import opened GivenUp
  import Outbox
  import L = Leases

  // ----- the queue's side

  /** Where the run stands: one job, and the one handler that was sent its first message. */
  ghost predicate Stands(run: Run, j: JobId, d: DispatchId, r: JobRecord, phases: seq<Phase>, published: bool)
    requires |run.states| > 0
  {
    var s, m := LastState(run), Message(j, VideoSubmit, 1, d);
    && BrokerRun(run) && s.records == map[j := r] && s.usedDispatches == {d} && m in s.outbox
    && s.broker == (if published then {m} else {})
    && |s.handlers| == |phases| <= 1 && (phases != [] ==> s.handlers[0] == Handler(m, phases[0]))
  }

  lemma AdmittedRun(policy: Policy, j: JobId, d: DispatchId, now: Time) returns (run: Run)
    requires policy.Valid()
    ensures |run.states| > 0 && Stands(run, j, d, Admission(Video, VideoSubmit, None, 10, d, now), [], false)
  {
    var start := Run([System(policy, map[], {}, {}, {}, {}, [], map[], map[])], []);
    var a := Admit(j, Video, VideoSubmit, None, {}, 10, d, now);
    ExtendedIsBrokerRun(start, a);
    run := Extended(start, a);
    var r := Admission(Video, VideoSubmit, None, 10, d, now);
    assert MessageOf(j, r, d) in MessagesOf(j, r);
  }

  lemma DeliveredRun(before: Run, j: JobId, d: DispatchId, r: JobRecord) returns (run: Run)
    requires |before.states| > 0 && Stands(before, j, d, r, [], false)
    ensures |run.states| > 0 && Stands(run, j, d, r, [Fetched], true)
  {
    var m := Message(j, VideoSubmit, 1, d);
    ExtendedIsBrokerRun(before, Publish(m));
    var published := Extended(before, Publish(m));
    ExtendedIsBrokerRun(published, Deliver(m));
    run := Extended(published, Deliver(m));
  }

  lemma EnteredRun(before: Run, j: JobId, d: DispatchId, now: Time) returns (run: Run)
    requires |before.states| > 0 &&
             Stands(before, j, d, Admission(Video, VideoSubmit, None, 10, d, now), [Fetched], true)
    ensures |run.states| > 0
    ensures var r := Admission(Video, VideoSubmit, None, 10, d, now); Stands(run, j, d, r, [Entered(r.job)], true)
  {
    ExtendedIsBrokerRun(before, ReadJob(0));
    var looked := Extended(before, ReadJob(0));
    ExtendedIsBrokerRun(looked, ReadAttempt(0, true));
    run := Extended(looked, ReadAttempt(0, true));
  }

  /** The admitted job once its first attempt is owned. */
  function Submitting(d: DispatchId, now: Time): JobRecord {
    JobRecord(Job(Video, Running, VideoSubmit, 1, None, None, 1, 10, now, now, Some(now)),
              map[1 := Attempt(VideoSubmit, Running)], map[d := Work(VideoSubmit, 1)],
              [Mark(None, Queued), Mark(Some(Queued), Running)], {})
  }

  lemma ClaimMakesSubmitting(j: JobId, d: DispatchId, now: Time)
    ensures
      var r := Admission(Video, VideoSubmit, None, 10, d, now);
      ClaimVideo(r, Message(j, VideoSubmit, 1, d), r.job, now) == Owned(Submitting(d, now))
  {
    var r := Admission(Video, VideoSubmit, None, 10, d, now);
    var answer := ClaimVideo(r, Message(j, VideoSubmit, 1, d), r.job, now);
    assert answer.record.attempts == Submitting(d, now).attempts && answer.record.trail == Submitting(d, now).trail;
  }

  lemma ScheduleMakesPolling(j: JobId, task: TaskId, d: DispatchId, e: DispatchId, now: Time)
    requires d != e
    ensures Schedule(Submitting(d, now), Message(j, VideoSubmit, 1, d), 1, VideoPoll, task, Succeeded, e, now) ==
            Ok(Polling(task, d, e, now))
  {
    PollingIsReached(j, task, d, e, now);
    ClaimMakesSubmitting(j, d, now);
  }

  lemma ClaimedRun(before: Run, j: JobId, d: DispatchId, now: Time) returns (run: Run)
    requires |before.states| > 0
    requires var r := Admission(Video, VideoSubmit, None, 10, d, now); Stands(before, j, d, r, [Entered(r.job)], true)
    ensures |run.states| > 0
    ensures var r := Admission(Video, VideoSubmit, None, 10, d, now);
            Stands(run, j, d, Submitting(d, now), [Claimed(r.job, Submitting(d, now).job)], true)
  {
    var a := Action.Claim(0, true, false, now);
    ClaimMakesSubmitting(j, d, now);
    ExtendedIsBrokerRun(before, a);
    run := Extended(before, a);
  }

  lemma CalledRun(before: Run, j: JobId, task: TaskId, d: DispatchId, now: Time) returns (run: Run)
    requires |before.states| > 0
    requires var r := Admission(Video, VideoSubmit, None, 10, d, now);
             Stands(before, j, d, Submitting(d, now), [Claimed(r.job, Submitting(d, now).job)], true)
    ensures |run.states| > 0
    ensures var r := Admission(Video, VideoSubmit, None, 10, d, now);
            Stands(run, j, d, Submitting(d, now),
                   [Called(r.job, Submitting(d, now).job, PlanSchedule(VideoPoll, task, Succeeded), true)], true)
  {
    ExtendedIsBrokerRun(before, Call(0, Accepted(task), now, now));
    run := Extended(before, Call(0, Accepted(task), now, now));
  }

  /** The worker dies between its claim and its commit. */
  lemma DeadOwnerRun(before: Run, j: JobId, d: DispatchId, now: Time) returns (run: Run)
    requires |before.states| > 0
    requires var r := Admission(Video, VideoSubmit, None, 10, d, now);
             Stands(before, j, d, Submitting(d, now), [Claimed(r.job, Submitting(d, now).job)], true)
    ensures |run.states| > 0 && Stands(run, j, d, Submitting(d, now), [Halted], true)
  {
    ExtendedIsBrokerRun(before, Die(0));
    run := Extended(before, Die(0));
  }

  /** A run with a broker after which the job's billable attempt runs without an owner. By LostOwnersStrandTheJob
      it stays like this for ever. */
  lemma OwnerDies(policy: Policy, j: JobId, d: DispatchId, now: Time) returns (run: Run)
    requires policy.Valid()
    ensures |run.states| > 0 && BrokerRun(run)
    ensures
      var s := LastState(run);
      && j in s.records && s.records[j].job.status == Running && OwnerLost(s, j, 1)
      && Message(j, VideoSubmit, 1, d) in s.broker
  {
    hide Enabled, Next, Run.Valid, BrokerAction;
    run := AdmittedRun(policy, j, d, now);
    run := DeliveredRun(run, j, d, Admission(Video, VideoSubmit, None, 10, d, now));
    run := EnteredRun(run, j, d, now);
    run := ClaimedRun(run, j, d, now);
    run := DeadOwnerRun(run, j, d, now);
  }

  /** The commit of the submit: from here on the job waits for its first poll, whose row nobody has sent. */
  lemma ScheduledRun(before: Run, j: JobId, task: TaskId, d: DispatchId, e: DispatchId, g: GenerationId, now: Time)
    returns (run: Run)
    requires d != e && |before.states| > 0
    requires var r := Admission(Video, VideoSubmit, None, 10, d, now);
             Stands(before, j, d, Submitting(d, now),
                    [Called(r.job, Submitting(d, now).job, PlanSchedule(VideoPoll, task, Succeeded), true)], true)
    ensures |run.states| > 0 && BrokerRun(run)
    ensures LastState(run).records == map[j := Polling(task, d, e, now)]
    ensures LastState(run).broker == {Message(j, VideoSubmit, 1, d)}
    ensures LastState(run).handlers == [Handler(Message(j, VideoSubmit, 1, d), Halted)]
  {
    var a := Action.Commit(0, e, g, false, now);
    ScheduleMakesPolling(j, task, d, e, now);
    ExtendedIsBrokerRun(before, a);
    run := Extended(before, a);
  }

  /** A run of the queue that ends with the job waiting for its first poll. */
  lemma WaitingRun(policy: Policy, j: JobId, task: TaskId, d: DispatchId, e: DispatchId, g: GenerationId, now: Time)
    returns (run: Run)
    requires policy.Valid() && d != e
    ensures |run.states| > 0 && BrokerRun(run)
    ensures LastState(run).records == map[j := Polling(task, d, e, now)] && Waits(Polling(task, d, e, now), 2)
    ensures LastState(run).broker == {Message(j, VideoSubmit, 1, d)}
    ensures LastState(run).handlers == [Handler(Message(j, VideoSubmit, 1, d), Halted)]
    ensures Message(j, VideoPoll, 2, e) in LastState(run).outbox
  {
    hide *;
    run := AdmittedRun(policy, j, d, now);
    run := DeliveredRun(run, j, d, Admission(Video, VideoSubmit, None, 10, d, now));
    run := EnteredRun(run, j, d, now);
    run := ClaimedRun(run, j, d, now);
    run := CalledRun(run, j, task, d, now);
    run := ScheduledRun(run, j, task, d, e, g, now);
    PollingWaits(task, d, e, now);
    PollIsPosted(run, j, task, d, e, now);
  }

  lemma PollIsPosted(run: Run, j: JobId, task: TaskId, d: DispatchId, e: DispatchId, now: Time)
    requires |run.states| > 0 && BrokerRun(run) && LastState(run).records == map[j := Polling(task, d, e, now)]
    ensures Message(j, VideoPoll, 2, e) in LastState(run).outbox
  {
    PostedInRun(run, |run.actions|);
    assert j in LastState(run).records && MessagesOf(j, LastState(run).records[j]) <= LastState(run).outbox;
    assert MessageOf(j, Polling(task, d, e, now), e) in MessagesOf(j, Polling(task, d, e, now));
  }

  lemma PollingWaits(task: TaskId, d: DispatchId, e: DispatchId, now: Time)
    requires d != e
    ensures Waits(Polling(task, d, e, now), 2)
  {
    PollingIsChained(task, d, e, now);
  }

  // ----- the dispatchers' side, with an attempt limit of one

  function LastLeases(run: L.Run): L.System
    requires |run.states| > 0
  {
    run.states[|run.states| - 1]
  }

  function ExtendedLeases(run: L.Run, a: L.Action): L.Run
    requires |run.states| > 0 && L.Enabled(LastLeases(run), a)
  {
    L.Run(run.states + [L.Next(LastLeases(run), a)], run.actions + [a])
  }

  /** The run is legal, has sent exactly these rows, and ends with these rows, batches and identifiers. */
  ghost predicate Leased(run: L.Run, rows: map<DispatchId, Dispatch>, batches: seq<L.Batch>, sent: set<DispatchId>) {
    && run.Valid() && LastLeases(run).rows == rows && LastLeases(run).batches == batches
    && LastLeases(run).used == rows.Keys && LastLeases(run).maxAttempts == 1
    && forall d :: L.SentBefore(run, |run.actions|, d) <==> d in sent
  }

  predicate SendsRow(a: L.Action, d: DispatchId) {
    a.Publish? && a.d == d && a.outcome.Sent?
  }

  lemma ExtendedLeasesAreValid(run: L.Run, a: L.Action, d: DispatchId)
    requires run.Valid() && L.Enabled(LastLeases(run), a)
    ensures
      var more := ExtendedLeases(run, a);
      && more.Valid() && LastLeases(more) == L.Next(LastLeases(run), a)
      && (L.SentBefore(more, |more.actions|, d) <==> L.SentBefore(run, |run.actions|, d) || SendsRow(a, d))
  {
    hide L.Enabled, L.Next, L.Start;
    var more := ExtendedLeases(run, a);
    forall k | 0 <= k < |more.actions|
      ensures L.Enabled(more.states[k], more.actions[k]) &&
              more.states[k + 1] == L.Next(more.states[k], more.actions[k])
    {
      if k < |run.actions| {
        assert more.states[k] == run.states[k] && more.states[k + 1] == run.states[k + 1] &&
               more.actions[k] == run.actions[k];
      }
    }
    if L.SentBefore(run, |run.actions|, d) {
      var k :| 0 <= k < |run.actions| && SendsRow(run.actions[k], d);
      assert more.actions[k] == run.actions[k];
    }
    assert more.actions[|run.actions|] == a;
    assert forall k :: 0 <= k < |run.actions| ==> more.actions[k] == run.actions[k];
  }

  lemma Extend(run: L.Run, a: L.Action, rows: map<DispatchId, Dispatch>, batches: seq<L.Batch>, sent: set<DispatchId>)
    returns (more: L.Run)
    requires |run.states| > 0 && Leased(run, rows, batches, sent) && L.Enabled(LastLeases(run), a)
    ensures |more.states| > 0
    ensures
      var s := L.Next(LastLeases(run), a);
      s.used == s.rows.Keys ==>
        Leased(more, s.rows, s.batches, if a.Publish? && a.outcome.Sent? then sent + {a.d} else sent)
    ensures LastLeases(more) == L.Next(LastLeases(run), a)
  {
    more := ExtendedLeases(run, a);
    forall d: DispatchId
      ensures more.Valid() && LastLeases(more) == L.Next(LastLeases(run), a)
      ensures L.SentBefore(more, |more.actions|, d) <==> d in sent || SendsRow(a, d)
    {
      ExtendedLeasesAreValid(run, a, d);
    }
    ExtendedLeasesAreValid(run, a, 0);
  }

  lemma LeaseOne(s: L.System, d: DispatchId, expires: Time)
    requires d in s.rows
    ensures
      var t := L.NextClaim(s, {d}, expires);
      && t.rows == s.rows[d := Outbox.ClaimRow(s.rows[d], |s.batches|, expires)]
      && t.batches == s.batches + [L.Batch(expires, map[d := L.Turn(s.rows[d].attemptCount + 1, L.Waiting)])]
  {
    var turns := L.NextClaim(s, {d}, expires).batches[|s.batches|].turns;
    assert turns == map[d := L.Turn(s.rows[d].attemptCount + 1, L.Waiting)];
  }

  /** Insert a row and lease it. */
  lemma InsertAndLease(before: L.Run, rows: map<DispatchId, Dispatch>, batches: seq<L.Batch>, sent: set<DispatchId>,
                       d: DispatchId, j: JobId, work: Work, now: Time)
    returns (run: L.Run)
    requires |before.states| > 0 && Leased(before, rows, batches, sent) && d !in rows
    ensures |run.states| > 0
    ensures Leased(run, rows[d := Outbox.ClaimRow(NewDispatch(j, work, now, now), |batches|, now + 1)],
                   batches + [L.Batch(now + 1, map[d := L.Turn(1, L.Waiting)])], sent)
  {
    var inserted := rows[d := NewDispatch(j, work, now, now)];
    run := Extend(before, L.Insert(d, j, work, now, now), rows, batches, sent);
    LeaseOne(LastLeases(run), d, now + 1);
    run := Extend(run, L.Claim({d}, now + 1, now), inserted, batches, sent);
    assert LastLeases(run).rows == rows[d := Outbox.ClaimRow(NewDispatch(j, work, now, now), |batches|, now + 1)];
  }

  /** Publish a leased row and acknowledge it. */
  lemma SendAndMark(before: L.Run, rows: map<DispatchId, Dispatch>, batches: seq<L.Batch>, sent: set<DispatchId>,
                    b: nat, d: DispatchId, now: Time)
    returns (run: L.Run, after: seq<L.Batch>)
    requires |before.states| > 0 && Leased(before, rows, batches, sent) && d in rows && Outbox.HeldBy(rows[d], b)
    requires L.At(LastLeases(before), b, d) && batches[b].turns[d].progress.Waiting?
    ensures |run.states| > 0 && Leased(run, rows[d := Outbox.MarkRow(rows[d], now)], after, sent + {d})
  {
    run := Extend(before, L.Publish(b, d, L.Sent), rows, batches, sent);
    ghost var s := LastLeases(run);
    run := Extend(run, L.Mark(b, d, false, now), s.rows, s.batches, sent + {d});
    after := LastLeases(run).batches;
    assert LastLeases(run).rows == rows[d := Outbox.MarkRow(rows[d], now)];
  }

  /** Try to publish a leased row, and release it when the broker refuses. */
  lemma RefuseAndRelease(before: L.Run, rows: map<DispatchId, Dispatch>, batches: seq<L.Batch>, sent: set<DispatchId>,
                         b: nat, d: DispatchId, now: Time)
    returns (run: L.Run, after: seq<L.Batch>)
    requires |before.states| > 0 && Leased(before, rows, batches, sent) && d in rows && Outbox.HeldBy(rows[d], b)
    requires L.At(LastLeases(before), b, d) && batches[b].turns[d] == L.Turn(1, L.Waiting)
    ensures |run.states| > 0 && Leased(run, rows[d := Outbox.ReleaseRow(rows[d], now, true)], after, sent)
  {
    run := Extend(before, L.Publish(b, d, L.Refused(false)), rows, batches, sent);
    ghost var s := LastLeases(run);
    run := Extend(run, L.Release(b, d, false, now), s.rows, s.batches, sent);
    after := LastLeases(run).batches;
    assert LastLeases(run).rows == rows[d := Outbox.ReleaseRow(rows[d], now, true)];
  }

  function Leasing(j: JobId, work: Work, b: nat, now: Time): Dispatch {
    Outbox.ClaimRow(NewDispatch(j, work, now, now), b, now + 1)
  }

  /** The first row is inserted, leased, published and acknowledged. */
  lemma FirstSent(j: JobId, d: DispatchId, work: Work, now: Time) returns (run: L.Run, batches: seq<L.Batch>)
    ensures |run.states| > 0
    ensures Leased(run, map[d := Outbox.MarkRow(Leasing(j, work, 0, now), now)], batches, {d})
  {
    run := L.Run([L.System(1, map[], {}, [], map[])], []);
    assert Leased(run, map[], [], {});
    run := InsertAndLease(run, map[], [], {}, d, j, work, now);
    run, batches := SendAndMark(run, map[d := Leasing(j, work, 0, now)], LastLeases(run).batches, {}, 0, d, now);
  }

  /** Another row is inserted and leased, and its publish is refused. */
  lemma NextRefused(before: L.Run, rows: map<DispatchId, Dispatch>, batches: seq<L.Batch>, sent: set<DispatchId>,
                    e: DispatchId, j: JobId, work: Work, now: Time)
    returns (run: L.Run, after: seq<L.Batch>)
    requires |before.states| > 0 && Leased(before, rows, batches, sent) && e !in rows
    ensures |run.states| > 0
    ensures Leased(run, rows[e := Outbox.ReleaseRow(Leasing(j, work, |batches|, now), now, true)], after, sent)
  {
    run := InsertAndLease(before, rows, batches, sent, e, j, work, now);
    ghost var leased := rows[e := Leasing(j, work, |batches|, now)];
    run, after := RefuseAndRelease(run, leased, LastLeases(run).batches, sent, |batches|, e, now);
    assert leased[e := Outbox.ReleaseRow(leased[e], now, true)] ==
           rows[e := Outbox.ReleaseRow(Leasing(j, work, |batches|, now), now, true)];
  }

  /** The publish of the second row is refused once, which with a limit of one attempt is for good. */
  lemma GivenUpLeases(j: JobId, d: DispatchId, e: DispatchId, now: Time) returns (run: L.Run)
    requires d != e
    ensures |run.states| > 0 && run.Valid()
    ensures
      var rows := LastLeases(run).rows;
      && WorksOf(rows, j) == map[d := Work(VideoSubmit, 1), e := Work(VideoPoll, 2)]
      && d in rows && rows[d].status == Published && e in rows && rows[e].status == Undeliverable
    ensures forall x :: L.SentBefore(run, |run.actions|, x) <==> x == d
  {
    hide L.Enabled, L.Next, L.Run.Valid;
    ghost var batches: seq<L.Batch>;
    run, batches := FirstSent(j, d, Work(VideoSubmit, 1), now);
    ghost var rows := LastLeases(run).rows;
    run, batches := NextRefused(run, rows, batches, {d}, e, j, Work(VideoPoll, 2), now);
    assert WorksOf(LastLeases(run).rows, j) == map[d := Work(VideoSubmit, 1), e := Work(VideoPoll, 2)];
  }

  /** Both rows are published and acknowledged. */
  lemma SentLeases(j: JobId, d: DispatchId, e: DispatchId, now: Time) returns (run: L.Run)
    requires d != e
    ensures |run.states| > 0 && run.Valid()
    ensures
      var rows := LastLeases(run).rows;
      && WorksOf(rows, j) == map[d := Work(VideoSubmit, 1), e := Work(VideoPoll, 2)]
      && d in rows && rows[d].status == Published && e in rows && rows[e].status == Published
    ensures forall x :: L.SentBefore(run, |run.actions|, x) <==> x == d || x == e
  {
    hide L.Enabled, L.Next, L.Run.Valid;
    ghost var batches: seq<L.Batch>;
    run, batches := FirstSent(j, d, Work(VideoSubmit, 1), now);
    ghost var rows, b, work := LastLeases(run).rows, |batches|, Work(VideoPoll, 2);
    run := InsertAndLease(run, rows, batches, {d}, e, j, work, now);
    ghost var leased := rows[e := Leasing(j, work, b, now)];
    run, batches := SendAndMark(run, leased, LastLeases(run).batches, {d}, b, e, now);
    assert WorksOf(LastLeases(run).rows, j) == map[d := Work(VideoSubmit, 1), e := Work(VideoPoll, 2)];
  }

  /** A row is inserted and leased, and its publish is refused for good. */
  lemma RefusedLeases(j: JobId, d: DispatchId, now: Time) returns (run: L.Run)
    ensures |run.states| > 0 && run.Valid()
    ensures
      var rows := LastLeases(run).rows;
      WorksOf(rows, j) == map[d := Work(VideoSubmit, 1)] && d in rows && rows[d].status == Undeliverable
    ensures forall x :: !L.SentBefore(run, |run.actions|, x)
  {
    run := L.Run([L.System(1, map[], {}, [], map[])], []);
    assert Leased(run, map[], [], {});
    hide L.Enabled, L.Next, L.Run.Valid;
    ghost var batches: seq<L.Batch>;
    run, batches := NextRefused(run, map[], [], {}, d, j, Work(VideoSubmit, 1), now);
    assert WorksOf(LastLeases(run).rows, j) == map[d := Work(VideoSubmit, 1)];
  }

  /** The message of the first poll is published and never delivered. The running job waits, nobody is at work on
      it, and every row of it is published, so none will be leased again; by QuietJobsNeedADelivery it stays as
      it is unless the broker delivers after all. */
  lemma MessageLost(policy: Policy, j: JobId, task: TaskId, d: DispatchId, e: DispatchId, g: GenerationId, now: Time)
    returns (run: Run, leases: L.Run)
    requires policy.Valid() && d != e
    ensures |run.states| > 0 && BrokerRun(run) && |leases.states| > 0 && leases.Valid()
    ensures
      var s, rows := LastState(run), LastLeases(leases).rows;
      && j in s.records && Waits(s.records[j], 2) && s.records[j].job.status == Running && Quiet(s, j, 2)
      && WorksOf(rows, j) == s.records[j].works && !Stranded(rows, j, 2)
      && (forall x :: x in rows && rows[x].job == j ==> rows[x].status == Published)
      && (forall m :: m in s.broker ==> L.SentBefore(leases, |leases.actions|, m.dispatch))
      && Message(j, VideoPoll, 2, e) in s.broker
  {
    hide L.Enabled, L.Next, L.Run.Valid, Waits;
    var before := WaitingRun(policy, j, task, d, e, g, now);
    var a := Publish(Message(j, VideoPoll, 2, e));
    ExtendedIsBrokerRun(before, a);
    run := Extended(before, a);
    leases := SentLeases(j, d, e, now);
    ghost var rows := LastLeases(leases).rows;
    forall x | x in rows && rows[x].job == j
      ensures x == d || x == e
    {
      assert x in WorksOf(rows, j);
    }
    assert WorksOf(rows, j)[e] == rows[e].work;
    assert LastRow(rows, j, 2, e);
  }

  /** The only row of an admitted job is given up. The job is queued, stranded and not up for repair. */
  lemma AdmissionGivenUp(policy: Policy, j: JobId, d: DispatchId, now: Time) returns (run: Run, leases: L.Run)
    requires policy.Valid()
    ensures |run.states| > 0 && BrokerRun(run) && |leases.states| > 0 && leases.Valid()
    ensures
      var s, rows := LastState(run), LastLeases(leases).rows;
      && j in s.records && Waits(s.records[j], 1) && s.records[j].job.status == Queued && Quiet(s, j, 1)
      && WorksOf(rows, j) == s.records[j].works && Stranded(rows, j, 1) && s.broker == {}
      && s.records[j].attempts == map[] && !Outbox.Orphaned(map[], rows, j)
  {
    hide L.Enabled, L.Next, L.Run.Valid, Enabled, Next, Run.Valid;
    run := AdmittedRun(policy, j, d, now);
    leases := RefusedLeases(j, d, now);
    ghost var rows := LastLeases(leases).rows;
    var r := Admission(Video, VideoSubmit, None, 10, d, now);
    assert r.works[d].attempt == 1;
    assert Chain(r, 1);
    forall x | x in rows && rows[x].job == j
      ensures x == d
    {
      assert x in WorksOf(rows, j);
    }
  }

  /** The whole of it: a run of the queue and a run of its dispatchers that agree on the job's rows and on
      what was sent, after which the job waits for a row that was given up. It is active, and no re-queue
      can repair it. */
  lemma ContinuationGivenUp(policy: Policy, j: JobId, task: TaskId, d: DispatchId, e: DispatchId, g: GenerationId,
                            now: Time)
    returns (run: Run, leases: L.Run)
    requires policy.Valid() && d != e
    ensures |run.states| > 0 && BrokerRun(run) && |leases.states| > 0 && leases.Valid()
    ensures
      var s, rows := LastState(run), LastLeases(leases).rows;
      && j in s.records && Waits(s.records[j], 2) && WorksOf(rows, j) == s.records[j].works
      && Stranded(rows, j, 2)
      && (forall m :: m in s.broker ==> L.SentBefore(leases, |leases.actions|, m.dispatch))
      && (forall x :: LastRow(rows, j, 2, x) ==> !L.SentBefore(leases, |leases.actions|, x))
      && (forall lost, x :: !Enabled(s, Requeue(j, lost, x)))
  {
    hide L.Enabled, L.Next, L.Run.Valid, Waits;
    run := WaitingRun(policy, j, task, d, e, g, now);
    leases := GivenUpLeases(j, d, e, now);
    ghost var rows := LastLeases(leases).rows;
    forall x | LastRow(rows, j, 2, x)
      ensures x == e
    {
      assert x in WorksOf(rows, j) && WorksOf(rows, j)[x] == rows[x].work;
    }
  }
}
