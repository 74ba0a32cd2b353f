/** Where a waiting job's next step can get lost between the outbox and the broker: the attempt chain always
    ends in an outbox row, but the dispatcher may give that row up, or the broker may lose its message. */
module GivenUp {
  import opened Model
  import opened Records
  import opened Store
  import opened Protocol
  import opened ProtocolInvariant
  import opened ProtocolTheorems
  import opened BrokerRuns
  import opened Progress
  import Outbox
  import L = Leases

  /** The job is active and waits for attempt `n`, which has not begun. */
  ghost predicate Waits(r: JobRecord, n: nat) {
    Chain(r, n) && n !in r.attempts && Active(r.job.status)
  }

  predicate LastRow(rows: map<DispatchId, Dispatch>, j: JobId, n: nat, d: DispatchId) {
    d in rows && rows[d].job == j && rows[d].work.attempt == n
  }

  /** No row that could still carry the job's next step is left to deliver. */
  ghost predicate Stranded(rows: map<DispatchId, Dispatch>, j: JobId, n: nat) {
    forall d :: LastRow(rows, j, n, d) ==> rows[d].status == Undeliverable
  }

  /** The dispatcher still has to send the row. */
  predicate Unfinished(row: Dispatch) {
    row.status == OutboxStatus.Pending || row.status == Publishing
  }

  // ----- rows that were given up

  /** A waiting job has a row for its next attempt that names its stage; past the first attempt there is only
      one. The job is stranded if and only if every such row was given up: by a holder's release after a
      permanent refusal or at the attempt limit, or by a re-queue. */
  lemma StrandedIffGivenUp(r: JobRecord, j: JobId, n: nat, run: L.Run, i: nat)
    requires run.Valid() && i < |run.states| && Waits(r, n) && WorksOf(run.states[i].rows, j) == r.works
    ensures exists d :: LastRow(run.states[i].rows, j, n, d) && run.states[i].rows[d].work.stage == r.job.stage
    ensures n >= 2 ==>
              forall d, e :: LastRow(run.states[i].rows, j, n, d) && LastRow(run.states[i].rows, j, n, e) ==> d == e
    ensures Stranded(run.states[i].rows, j, n) <==>
            forall d :: LastRow(run.states[i].rows, j, n, d) ==> L.GivenUpBefore(run, i, d)
  {
    var rows := run.states[i].rows;
    assert HasWork(r.works, n);
    var last :| last in r.works && r.works[last].attempt == n;
    assert LastRow(rows, j, n, last) && r.works[last] == rows[last].work;
    forall d | LastRow(rows, j, n, d)
      ensures d in r.works && r.works[d] == rows[d].work
      ensures rows[d].status == Undeliverable <==> L.GivenUpBefore(run, i, d)
    {
      L.UndeliverableIffGivenUp(run, i, d);
    }
  }

  /** A job that never reached a worker: the dispatcher will not send it and a re-queue will not repair it, if and
      only if every one of its rows was given up. So a re-queue cannot help a queued job that lost its row that
      way: it looks for a published one. */
  lemma UnstartedJobIsLostIffStranded(r: JobRecord, j: JobId, n: nat, attempts: map<(JobId, nat), Attempt>,
                                      rows: map<DispatchId, Dispatch>)
    requires Waits(r, n) && r.attempts == map[] && AttemptsOf(attempts, j) == r.attempts && WorksOf(rows, j) == r.works
    ensures Stranded(rows, j, n) <==>
            (forall d :: d in rows && rows[d].job == j ==> !Unfinished(rows[d])) && !Outbox.Orphaned(attempts, rows, j)
  {
    hide AttemptsOf, WorksOf, Waits;
    AllRowsAreLast(r, j, n, rows);
    if Outbox.Orphaned(attempts, rows, j) {
      var d :| d in Outbox.PublishedOf(rows, j);
      assert LastRow(rows, j, n, d);
    } else {
      assert Outbox.PublishedOf(rows, j) == {};
      forall d | d in rows && rows[d].job == j
        ensures rows[d].status != Published
      {
        assert d !in Outbox.PublishedOf(rows, j);
      }
    }
  }

  lemma AllRowsAreLast(r: JobRecord, j: JobId, n: nat, rows: map<DispatchId, Dispatch>)
    requires Waits(r, n) && r.attempts == map[] && WorksOf(rows, j) == r.works
    ensures forall d :: d in rows && rows[d].job == j <==> LastRow(rows, j, n, d)
  {
    assert n > 1 ==> 1 in r.attempts;
    forall d | d in rows && rows[d].job == j
      ensures LastRow(rows, j, n, d)
    {
      assert d in r.works && r.works[d] == rows[d].work;
    }
  }

  /** A re-queue repairs no job that has reached a worker. */
  lemma StartedJobsAreNotRepaired(r: JobRecord, j: JobId, attempts: map<(JobId, nat), Attempt>,
                                  rows: map<DispatchId, Dispatch>)
    requires AttemptsOf(attempts, j) == r.attempts && r.attempts != map[]
    ensures !Outbox.Orphaned(attempts, rows, j)
  {
  }

  // ----- rows that were sent

  /** Every handler works on a message that was published. */
  predicate Delivered(s: System) {
    forall i :: 0 <= i < |s.handlers| ==> s.handlers[i].m in s.broker
  }

  lemma DeliveredStep(s: System, a: Action)
    requires Delivered(s) && Enabled(s, a) && BrokerAction(a)
    ensures Delivered(Next(s, a)) && s.broker <= Next(s, a).broker
  {
    if a.Claim? {
      ClaimShape(s, a);
      ClaimBroker(s, a);
    } else if a.ReadJob? || a.ReadAttempt? {
      ReadShape(s, a);
    }
  }

  lemma ClaimBroker(s: System, a: Action)
    requires a.Claim? && Enabled(s, a)
    ensures Next(s, a).broker == s.broker
  {
  }

  lemma {:induction false} DeliveredInRun(run: Run, i: nat)
    requires run.Valid() && i < |run.states|
    requires forall k :: 0 <= k < i ==> BrokerAction(run.actions[k])
    ensures Delivered(run.states[i])
  {
    if i > 0 {
      DeliveredInRun(run, i - 1);
      DeliveredStep(run.states[i - 1], run.actions[i - 1]);
    }
  }

  /** No message for attempt `n` of the job has been published. */
  predicate Unpublished(s: System, j: JobId, n: nat) {
    forall m :: m in s.broker && m.job == j ==> m.attempt != n
  }

  lemma UnpublishedIsQuiet(s: System, j: JobId, n: nat)
    requires Inv(s) && ChainInv(s) && Delivered(s)
    requires j in s.records && Waits(s.records[j], n) && Unpublished(s, j, n)
    ensures Quiet(s, j, n)
  {
    hide Inv, ChainInv, Chain;
    forall i | 0 <= i < |s.handlers|
      ensures !Owns(s, s.handlers[i], j) && !Incoming(s.handlers[i], j, n)
    {
      if Owns(s, s.handlers[i], j) {
        HolderFacts(s, i);
        OnlyLastRuns(s.records[j], n, s.handlers[i].m.attempt);
      }
    }
  }

  /** A waiting job whose last row was never sent stays as it is, and active, for as long as the queue runs:
      what reaches the broker was sent. Only a queued job can be re-queued meanwhile. */
  lemma {:induction false} UnsentJobsStayActive(run: Run, i: nat, k: nat, j: JobId, n: nat, sent: set<DispatchId>)
    requires run.Valid() && i <= k < |run.states|
    requires forall x :: 0 <= x < k ==> BrokerAction(run.actions[x])
    requires j in run.states[i].records && Waits(run.states[i].records[j], n)
    requires run.states[i].records[j].job.status == Queued ==> forall x :: i <= x < k ==> !Renews(run.actions[x], j)
    requires forall m :: m in run.states[k].broker ==> m.dispatch in sent
    requires
      var works := run.states[i].records[j].works;
      forall d :: d in works && works[d].attempt == n ==> d !in sent
    ensures j in run.states[k].records && run.states[k].records[j] == run.states[i].records[j]
    ensures Active(run.states[k].records[j].job.status)
    decreases k - i
  {
    hide Inv, ChainInv, Chain, Quiet, Delivered, Enabled, Next, BrokerAction, Start;
    if i < k {
      var s, a := run.states[k - 1], run.actions[k - 1];
      BrokerRunKeeps(run, k - 1);
      DeliveredInRun(run, k - 1);
      DeliveredStep(s, a);
      UnsentJobsStayActive(run, i, k - 1, j, n, sent);
      UnsentStep(s, a, j, n, sent);
    }
  }

  lemma UnsentStep(s: System, a: Action, j: JobId, n: nat, sent: set<DispatchId>)
    requires Inv(s) && ChainInv(s) && Delivered(s) && Enabled(s, a) && BrokerAction(a)
    requires j in s.records && Waits(s.records[j], n) && (s.records[j].job.status == Queued ==> !Renews(a, j))
    requires forall m :: m in s.broker ==> m.dispatch in sent
    requires forall d :: d in s.records[j].works && s.records[j].works[d].attempt == n ==> d !in sent
    ensures j in Next(s, a).records && Next(s, a).records[j] == s.records[j]
  {
    forall m | m in s.broker && m.job == j
      ensures m.attempt != n
    {
      assert MessageOk(s, m);
    }
    hide Inv, ChainInv, Chain, Quiet, Delivered, Next;
    UnpublishedIsQuiet(s, j, n);
    QuietStep(s, a, j, n);
  }

  // ----- messages that were lost

  /** A row that was published or given up is never leased again, so only a dispatcher that already holds it can
      still send it: a message that the broker loses is not sent once more. */
  lemma {:induction false} FinishedRowsAreNotLeased(run: L.Run, i: nat, k: nat, d: DispatchId)
    requires run.Valid() && i <= k < |run.states| && d in run.states[i].rows
    requires run.states[i].rows[d].status == Published || run.states[i].rows[d].status == Undeliverable
    ensures d in run.states[k].rows ==>
              run.states[k].rows[d].status == Published || run.states[k].rows[d].status == Undeliverable
    ensures k < |run.actions| ==> !L.Claims(run.actions[k], d)
    decreases k - i
  {
    if i < k {
      var s, a := run.states[k - 1], run.actions[k - 1];
      FinishedRowsAreNotLeased(run, i, k - 1, d);
      L.RunKeeps(run, i);
      L.RunKeeps(run, k - 1);
      assert L.RowOk(run.states[i], d);
      L.UsedStays(run, i, k - 1, d);
      FinishedStep(s, a, d);
    }
    assert k < |run.actions| ==> L.Enabled(run.states[k], run.actions[k]);
  }

  lemma FinishedStep(s: L.System, a: L.Action, d: DispatchId)
    requires L.Inv(s) && L.Enabled(s, a) && d in s.used
    requires d in s.rows ==> s.rows[d].status == Published || s.rows[d].status == Undeliverable
    ensures d in L.Next(s, a).rows ==>
              L.Next(s, a).rows[d].status == Published || L.Next(s, a).rows[d].status == Undeliverable
  {
    if d in s.rows {
      assert L.RowOk(s, d);
    }
  }
}
