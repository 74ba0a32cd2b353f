/** One joint invariant over records, messages, handlers in flight and licences, kept by every
    action of every actor. */
module ProtocolInvariant {
  import opened Model
  import opened Records
  import opened RecordGrowth
  import opened Protocol

  predicate RecordsOk(s: System) {
    forall j :: j in s.records ==> RecordOk(s.records[j]) && j in s.used
  }

  predicate MessageOk(s: System, m: Message) {
    && m.job in s.used && m.dispatch in s.usedDispatches
    && (m.job in s.records ==>
          m.dispatch in s.records[m.job].works &&
          s.records[m.job].works[m.dispatch] == Work(m.stage, m.attempt))
  }

  predicate WorksIssued(s: System, j: JobId)
    requires j in s.records
  {
    s.records[j].works.Keys <= s.usedDispatches
  }

  predicate MessagesOk(s: System) {
    && (forall j :: j in s.records ==> WorksIssued(s, j))
    && (forall m :: m in s.outbox ==> MessageOk(s, m))
    && s.broker <= s.outbox
  }

  /** The row a handler will write against is the one it believes in, or a newer one that its
      compare-and-swap will reject. */
  predicate OwnOk(m: Message, snapshot: Job, base: Job, row: Job) {
    && Agrees(base, row)
    && base.task == snapshot.task && base.kind == snapshot.kind && base.stage == m.stage
    && HandlerAccepts(m, snapshot)
  }

  predicate PlanOk(m: Message, snapshot: Job, plan: Plan) {
    match plan
    case PlanSchedule(next, task, closing) =>
      && (next == VideoPoll || next == AssetImport) && snapshot.kind == Video && Terminal(closing)
      && StageStep(m.stage, next)
      && (snapshot.task.Some? ==> snapshot.task == Some(task))
    case PlanRecord(task) =>
      m.stage == VideoSubmit && snapshot.kind == Video && (snapshot.task.Some? ==> snapshot.task == Some(task))
    case _ => true
  }

  predicate PhaseOk(m: Message, phase: Phase, row: Job) {
    match phase
    case Looked(snapshot) => Agrees(snapshot, row)
    case Entered(snapshot) => Agrees(snapshot, row) && snapshot.stage == m.stage && Active(snapshot.status)
    case Unhandled => !HasHandler(m.stage)
    case Recovering(snapshot, duplicate) => Agrees(snapshot, row) && Active(snapshot.status)
    case Claimed(snapshot, base) => OwnOk(m, snapshot, base, row)
    case Called(snapshot, base, plan, guarded) => OwnOk(m, snapshot, base, row) && PlanOk(m, snapshot, plan)
    case _ => true
  }

  predicate HandlerOk(s: System, h: Handler) {
    h.m in s.outbox && (h.m.job in s.records ==> PhaseOk(h.m, h.phase, s.records[h.m.job].job))
  }

  predicate HandlersOk(s: System) {
    forall i :: 0 <= i < |s.handlers| ==> HandlerOk(s, s.handlers[i])
  }

  /** A licence is held by one handler, before any call was made for the job. */
  predicate HoldsLicence(s: System, i: nat)
    requires i < |s.handlers|
  {
    Licensed(s.handlers[i]) ==>
      var j := s.handlers[i].m.job;
      j in s.owner && s.owner[j] == i && Calls(s, j) == 0
  }

  predicate OwnerOk(s: System, j: JobId) {
    j in s.used && (j in s.records ==> Sealed(s.records[j]))
  }

  predicate LicencesOk(s: System) {
    && (forall i :: 0 <= i < |s.handlers| ==> HoldsLicence(s, i))
    && (forall j :: j in s.owner ==> OwnerOk(s, j))
    && (forall j :: j in s.calls ==> s.calls[j] <= 1 && j in s.owner)
  }

  predicate UniqueActive(s: System) {
    forall j, k :: j in s.records && k in s.records && j != k ==> !Clash(s.records[j].job, s.records[k].job)
  }

  predicate Clash(a: Job, b: Job) {
    Active(a.status) && Active(b.status) && SameRequest(a, b)
  }

  predicate Inv(s: System) {
    RecordsOk(s) && MessagesOk(s) && HandlersOk(s) && LicencesOk(s) && UniqueActive(s) && s.policy.Valid()
  }

  lemma StartKeeps(s: System)
    requires Start(s)
    ensures Inv(s)
  {
  }

  // ----- replacing one record

  /** `r` grows out of the stored record, and every outbox row it adds has a fresh identifier. */
  predicate Replaces(s: System, j: JobId, r: JobRecord) {
    && j in s.records
    && Grows(s.records[j], r)
    && (forall d :: d in r.works && d !in s.records[j].works ==> d !in s.usedDispatches)
  }

  lemma PutKeepsMessages(s: System, j: JobId, r: JobRecord)
    requires Inv(s) && Replaces(s, j, r)
    ensures MessagesOk(Put(s, j, r))
  {
    var t := Put(s, j, r);
    forall m | m in t.outbox
      ensures MessageOk(t, m)
    {
      if m in s.outbox {
        assert MessageOk(s, m);
      }
    }
    forall k | k in t.records
      ensures WorksIssued(t, k)
    {
      if k != j {
        assert WorksIssued(s, k);
      }
    }
  }

  lemma PutKeepsHandlers(s: System, j: JobId, r: JobRecord)
    requires Inv(s) && Replaces(s, j, r)
    ensures HandlersOk(Put(s, j, r))
  {
    var t := Put(s, j, r);
    forall i | 0 <= i < |t.handlers|
      ensures HandlerOk(t, t.handlers[i])
    {
      assert HandlerOk(s, s.handlers[i]);
    }
  }

  lemma PutKeepsLicences(s: System, j: JobId, r: JobRecord)
    requires Inv(s) && Replaces(s, j, r)
    ensures LicencesOk(Put(s, j, r))
  {
    var t := Put(s, j, r);
    forall i | 0 <= i < |t.handlers|
      ensures HoldsLicence(t, i)
    {
      assert HoldsLicence(s, i);
    }
    forall k | k in t.owner
      ensures OwnerOk(t, k)
    {
      assert OwnerOk(s, k);
    }
  }

  lemma PutKeepsUnique(s: System, j: JobId, r: JobRecord)
    requires Inv(s) && Replaces(s, j, r)
    ensures UniqueActive(Put(s, j, r))
  {
    var t := Put(s, j, r);
    forall a, b | a in t.records && b in t.records && a != b
      ensures !Clash(t.records[a].job, t.records[b].job)
    {
      assert !Clash(s.records[a].job, s.records[b].job);
    }
  }

  lemma PutKeeps(s: System, j: JobId, r: JobRecord)
    requires Inv(s) && Replaces(s, j, r)
    ensures Inv(Put(s, j, r))
  {
    PutKeepsMessages(s, j, r);
    PutKeepsHandlers(s, j, r);
    PutKeepsLicences(s, j, r);
    PutKeepsUnique(s, j, r);
  }

  // ----- moving one handler

  lemma MoveKeeps(s: System, h: nat, phase: Phase)
    requires Inv(s) && h < |s.handlers| && HandlerOk(s, s.handlers[h].(phase := phase))
    requires !Licensed(s.handlers[h].(phase := phase))
    ensures Inv(Move(s, h, phase))
  {
    var t := Move(s, h, phase);
    forall i | 0 <= i < |t.handlers|
      ensures HandlerOk(t, t.handlers[i]) && HoldsLicence(t, i)
    {
      assert HandlerOk(s, s.handlers[i]) && HoldsLicence(s, i);
    }
    forall m | m in t.outbox ensures MessageOk(t, m) { assert MessageOk(s, m); }
    forall k | k in t.records ensures WorksIssued(t, k) { assert WorksIssued(s, k); }
    forall k | k in t.owner ensures OwnerOk(t, k) { assert OwnerOk(s, k); }
  }

  /** Phases that carry no belief about the job. */
  lemma MoveToIdle(s: System, h: nat, phase: Phase)
    requires Inv(s) && h < |s.handlers|
    requires phase in {Fetched, Raised, Surfaced, Halted}
    ensures Inv(Move(s, h, phase))
  {
    assert HandlerOk(s, s.handlers[h]);
    MoveKeeps(s, h, phase);
  }

  // ----- one lemma per action

  lemma AdmitKeeps(s: System, a: Action)
    requires Inv(s) && a.Admit? && Enabled(s, a)
    ensures Inv(Next(s, a))
  {
    hide Agrees, PhaseOk, TrailOk, Sealed, WorkOk, Matches;
    var r := Admission(a.kind, a.stage, a.key, a.maxAttempts, a.d, a.now);
    AdmissionOk(a.kind, a.stage, a.key, a.maxAttempts, a.d, a.now);
    var t := Next(s, a);
    forall m | m in t.outbox
      ensures MessageOk(t, m)
    {
      if m in s.outbox {
        assert MessageOk(s, m);
      }
    }
    forall k | k in t.records ensures WorksIssued(t, k) { if k != a.j { assert WorksIssued(s, k); } }
    forall k | k in t.owner ensures OwnerOk(t, k) { assert OwnerOk(s, k); }
    AdmitKeepsHandlers(s, a);
    AdmitKeepsUnique(s, a);
  }

  lemma AdmitKeepsHandlers(s: System, a: Action)
    requires Inv(s) && a.Admit? && Enabled(s, a)
    ensures HandlersOk(Next(s, a)) && forall i :: 0 <= i < |Next(s, a).handlers| ==> HoldsLicence(Next(s, a), i)
  {
    hide PhaseOk, RecordsOk;
    var t := Next(s, a);
    forall i | 0 <= i < |t.handlers|
      ensures HandlerOk(t, t.handlers[i]) && HoldsLicence(t, i)
    {
      assert HandlerOk(s, s.handlers[i]) && HoldsLicence(s, i) && MessageOk(s, s.handlers[i].m);
    }
  }

  /** Looking for active jobs with the request's own digest is enough to keep active requests
      distinct: the unique index never has to reject an admission. */
  lemma AdmitKeepsUnique(s: System, a: Action)
    requires Inv(s) && a.Admit? && Enabled(s, a)
    ensures UniqueActive(Next(s, a))
  {
    var t := Next(s, a);
    forall x, y | x in t.records && y in t.records && x != y
      ensures !Clash(t.records[x].job, t.records[y].job)
    {
      if x in s.records && y in s.records {
        assert !Clash(s.records[x].job, s.records[y].job);
      } else if a.key.Some? {
        var other := if x == a.j then y else x;
        assert !Matches(s.records[other].job, a.kind, a.key.value);
      }
    }
  }

  lemma BrokerKeeps(s: System, a: Action)
    requires Inv(s) && (a.Publish? || a.Deliver?) && Enabled(s, a)
    ensures Inv(Next(s, a))
  {
    var t := Next(s, a);
    forall m | m in t.outbox ensures MessageOk(t, m) { assert MessageOk(s, m); }
    forall k | k in t.records ensures WorksIssued(t, k) { assert WorksIssued(s, k); }
    forall i | 0 <= i < |t.handlers|
      ensures HandlerOk(t, t.handlers[i]) && HoldsLicence(t, i)
    {
      if i < |s.handlers| {
        assert HandlerOk(s, s.handlers[i]) && HoldsLicence(s, i);
      }
    }
    forall k | k in t.owner ensures OwnerOk(t, k) { assert OwnerOk(s, k); }
  }

  lemma ReadJobKeeps(s: System, h: nat)
    requires Inv(s) && h < |s.handlers|
    ensures Inv(NextReadJob(s, h))
  {
    assert HandlerOk(s, s.handlers[h]);
    var j := s.handlers[h].m.job;
    MoveKeeps(s, h, if j in s.records then Looked(s.records[j].job) else Raised);
  }

  /** Where the routing of a delivery leads. */
  lemma RoutedPhase(s: System, h: nat, noted: bool)
    requires h < |s.handlers| && s.handlers[h].phase.Looked?
    ensures |NextReadAttempt(s, h, noted).handlers| == |s.handlers|
    ensures NextReadAttempt(s, h, noted) == Move(s, h, NextReadAttempt(s, h, noted).handlers[h].phase)
    ensures
      var m, snapshot := s.handlers[h].m, s.handlers[h].phase.snapshot;
      var phase := NextReadAttempt(s, h, noted).handlers[h].phase;
      || phase in {Raised, Surfaced, Halted}
      || (phase == Unhandled && !HasHandler(m.stage))
      || (phase == Entered(snapshot) && snapshot.stage == m.stage && Active(snapshot.status))
  {
  }

  lemma ReadAttemptKeeps(s: System, h: nat, noted: bool)
    requires Inv(s) && h < |s.handlers| && s.handlers[h].phase.Looked?
    ensures Inv(NextReadAttempt(s, h, noted))
  {
    assert HandlerOk(s, s.handlers[h]);
    RoutedPhase(s, h, noted);
    MoveKeeps(s, h, NextReadAttempt(s, h, noted).handlers[h].phase);
  }

  lemma RecoverReadKeeps(s: System, h: nat)
    requires Inv(s) && h < |s.handlers|
    ensures Inv(NextRecoverRead(s, h))
  {
    assert HandlerOk(s, s.handlers[h]);
    var phase := NextRecoverRead(s, h).handlers[h].phase;
    MoveKeeps(s, h, phase);
  }

  lemma ClaimKeeps(s: System, h: nat, payloadOk: bool, fault: bool, now: Time)
    requires Inv(s) && h < |s.handlers| && s.handlers[h].phase.Entered?
    ensures Inv(NextClaim(s, h, payloadOk, fault, now))
  {
    var m := s.handlers[h].m;
    var snapshot := s.handlers[h].phase.snapshot;
    if !HandlerAccepts(m, snapshot) || fault || m.job !in s.records {
      MoveToIdle(s, h, if !HandlerAccepts(m, snapshot) || fault then Raised else Halted);
    } else {
      var answer := ClaimFor(s.records[m.job], m, snapshot, now);
      if answer.Owned? {
        ClaimOwnedKeeps(s, h, payloadOk, now);
      } else if answer.Resumed? {
        ResumedKeeps(s, h, payloadOk, now);
      } else {
        MoveToIdle(s, h, if answer.Stale? then Halted else Surfaced);
      }
    }
  }

  lemma ResumedKeeps(s: System, h: nat, payloadOk: bool, now: Time)
    requires Inv(s) && h < |s.handlers| && s.handlers[h].phase.Entered?
    requires var m, snapshot := s.handlers[h].m, s.handlers[h].phase.snapshot;
             HandlerAccepts(m, snapshot) && m.job in s.records && ClaimFor(s.records[m.job], m, snapshot, now).Resumed?
    ensures Inv(NextClaim(s, h, payloadOk, false, now))
  {
    var m := s.handlers[h].m;
    var snapshot := s.handlers[h].phase.snapshot;
    assert HandlerOk(s, s.handlers[h]);
    assert !Billable(m, snapshot);
    MoveKeeps(s, h, AfterClaim(m, snapshot, snapshot, payloadOk));
  }

  lemma ClaimOwnedKeeps(s: System, h: nat, payloadOk: bool, now: Time)
    requires Inv(s) && h < |s.handlers| && s.handlers[h].phase.Entered?
    requires var m, snapshot := s.handlers[h].m, s.handlers[h].phase.snapshot;
             HandlerAccepts(m, snapshot) && m.job in s.records && ClaimFor(s.records[m.job], m, snapshot, now).Owned?
    ensures Inv(NextClaim(s, h, payloadOk, false, now))
  {
    var m := s.handlers[h].m;
    var snapshot := s.handlers[h].phase.snapshot;
    var r' := ClaimFor(s.records[m.job], m, snapshot, now).record;
    ClaimReplaces(s, h, now, r');
    PutKeeps(s, m.job, r');
    OwnedPhaseOk(s, h, now, r');
    OwnedKeeps(Put(s, m.job, r'), h, snapshot, AfterClaim(m, snapshot, r'.job, payloadOk));
  }

  lemma ClaimReplaces(s: System, h: nat, now: Time, r': JobRecord)
    requires Inv(s) && h < |s.handlers| && s.handlers[h].phase.Entered?
    requires s.handlers[h].m.job in s.records
    requires ClaimFor(s.records[s.handlers[h].m.job], s.handlers[h].m, s.handlers[h].phase.snapshot, now) == Owned(r')
    ensures Replaces(s, s.handlers[h].m.job, r')
  {
    assert HandlerOk(s, s.handlers[h]);
    ClaimGrows(s.records[s.handlers[h].m.job], s.handlers[h].m, s.handlers[h].phase.snapshot, now, r');
  }

  lemma OwnedPhaseOk(s: System, h: nat, now: Time, r': JobRecord)
    requires Inv(s) && h < |s.handlers| && s.handlers[h].phase.Entered?
    requires s.handlers[h].m.job in s.records
    requires HandlerAccepts(s.handlers[h].m, s.handlers[h].phase.snapshot)
    requires ClaimFor(s.records[s.handlers[h].m.job], s.handlers[h].m, s.handlers[h].phase.snapshot, now) == Owned(r')
    ensures OwnOk(s.handlers[h].m, s.handlers[h].phase.snapshot, r'.job, r'.job)
    ensures Billable(s.handlers[h].m, s.handlers[h].phase.snapshot) ==> s.handlers[h].m.job !in s.owner && Sealed(r')
  {
    var m := s.handlers[h].m;
    var snapshot := s.handlers[h].phase.snapshot;
    assert HandlerOk(s, s.handlers[h]);
    ClaimGrows(s.records[m.job], m, snapshot, now, r');
    if Billable(m, snapshot) {
      ClaimUnseals(s.records[m.job], m, snapshot, now, r');
      assert m.job in s.owner ==> OwnerOk(s, m.job);
    }
  }

  /** A fresh claim of a billable stage finds the job unsealed, so no licence was ever given for
      it, and leaves it sealed. */
  lemma OwnedKeeps(p: System, h: nat, snapshot: Job, phase: Phase)
    requires Inv(p) && h < |p.handlers| && p.handlers[h].m.job in p.records
    requires var base := p.records[p.handlers[h].m.job].job;
             && OwnOk(p.handlers[h].m, snapshot, base, base)
             && (phase == Claimed(snapshot, base) || phase == Called(snapshot, base, PlanFail, false))
    requires Billable(p.handlers[h].m, snapshot) ==>
               p.handlers[h].m.job !in p.owner && Sealed(p.records[p.handlers[h].m.job])
    ensures Inv(License(Move(p, h, phase), h))
  {
    hide Inv, Sealed, License, Agrees;
    HandlerFacts(p, h);
    if Licensed(p.handlers[h].(phase := phase)) {
      MoveToIdle(p, h, Halted);
      GrantKeeps(Move(p, h, Halted), h, phase);
      assert Move(Move(p, h, Halted), h, phase) == Move(p, h, phase);
    } else {
      MoveKeeps(p, h, phase);
      NoLicence(Move(p, h, phase), h);
    }
  }

  lemma NoLicence(s: System, h: nat)
    requires h < |s.handlers| && !Licensed(s.handlers[h])
    ensures License(s, h) == s
  {
  }

  lemma ClaimUnseals(r: JobRecord, m: Message, snapshot: Job, now: Time, r': JobRecord)
    requires RecordOk(r) && Agrees(snapshot, r.job) && ClaimFor(r, m, snapshot, now) == Owned(r')
    requires HandlerAccepts(m, snapshot) && Billable(m, snapshot)
    ensures !Sealed(r) && Sealed(r')
  {
    ClaimGrows(r, m, snapshot, now, r');
    if m.stage == VideoSubmit {
      assert r'.attempts[m.attempt] == Attempt(VideoSubmit, Running);
    }
  }

  lemma GrantKeeps(s: System, h: nat, phase: Phase)
    requires Inv(s) && h < |s.handlers| && HandlerOk(s, s.handlers[h].(phase := phase))
    requires s.handlers[h].phase.Halted? && Licensed(s.handlers[h].(phase := phase))
    requires var j := s.handlers[h].m.job; j !in s.owner && j in s.records && Sealed(s.records[j])
    ensures Inv(License(Move(s, h, phase), h))
  {
    var t := License(Move(s, h, phase), h);
    var j := s.handlers[h].m.job;
    assert j !in s.calls;
    forall i | 0 <= i < |t.handlers|
      ensures HandlerOk(t, t.handlers[i]) && HoldsLicence(t, i)
    {
      assert HandlerOk(s, s.handlers[i]) && HoldsLicence(s, i);
    }
    forall m | m in t.outbox ensures MessageOk(t, m) { assert MessageOk(s, m); }
    forall k | k in t.records ensures WorksIssued(t, k) { assert WorksIssued(s, k); }
    forall k | k in t.owner ensures OwnerOk(t, k) { if k != j { assert OwnerOk(s, k); } }
  }

  /** No outbox row of a stored job names a stage without a handler. */
  lemma UnhandledIsNotStored(s: System, h: nat)
    requires Inv(s) && h < |s.handlers| && s.handlers[h].phase.Unhandled?
    ensures s.handlers[h].m.job !in s.records
  {
    var m := s.handlers[h].m;
    assert HandlerOk(s, s.handlers[h]) && MessageOk(s, m);
    assert m.job in s.records ==> WorkOk(s.records[m.job].works[m.dispatch], s.records[m.job].job);
  }

  /** What a handler may decide on fits the job it decided for. */
  lemma DecisionFits(policy: Policy, m: Message, snapshot: Job, answer: Answer, now: Time, later: Time)
    requires HandlerAccepts(m, snapshot)
    ensures PlanOk(m, snapshot, Decide(policy, m, snapshot, answer, now, later).0)
  {
  }

  lemma HandlerFacts(s: System, h: nat)
    requires Inv(s) && h < |s.handlers|
    ensures HandlerOk(s, s.handlers[h]) && HoldsLicence(s, h) && s.policy.Valid()
  {
  }

  lemma CallKeeps(s: System, h: nat, answer: Answer, now: Time, later: Time)
    requires Inv(s) && h < |s.handlers| && s.handlers[h].phase.Claimed?
    requires s.handlers[h].m.stage in {VideoPoll, AssetImport} ==> s.handlers[h].phase.snapshot.task.Some?
    ensures Inv(NextCall(s, h, answer, now, later))
  {
    hide Inv, Decide, RecordsOk;
    var m := s.handlers[h].m;
    var phase := s.handlers[h].phase;
    HandlerFacts(s, h);
    var (plan, guarded) := Decide(s.policy, m, phase.snapshot, answer, now, later);
    var called := Called(phase.snapshot, phase.base, plan, guarded);
    if m.job in s.records {
      DecisionFits(s.policy, m, phase.snapshot, answer, now, later);
    }
    MoveKeeps(s, h, called);
    if Billable(m, phase.snapshot) {
      CountKeeps(Move(s, h, called), m.job, h);
    }
  }

  lemma CountKeeps(s: System, j: JobId, h: nat)
    requires Inv(s) && j in s.owner && s.owner[j] == h && Calls(s, j) == 0
    requires h < |s.handlers| && !Licensed(s.handlers[h])
    ensures Inv(s.(calls := s.calls[j := 1]))
  {
    var t := s.(calls := s.calls[j := 1]);
    forall i | 0 <= i < |t.handlers|
      ensures HandlerOk(t, t.handlers[i]) && HoldsLicence(t, i)
    {
      assert HandlerOk(s, s.handlers[i]) && HoldsLicence(s, i);
    }
    forall m | m in t.outbox ensures MessageOk(t, m) { assert MessageOk(s, m); }
    forall k | k in t.records ensures WorksIssued(t, k) { assert WorksIssued(s, k); }
    forall k | k in t.owner ensures OwnerOk(t, k) { assert OwnerOk(s, k); }
  }

  /** How a transaction leaves the attempt it closes. */
  function Closing(plan: Plan): Status {
    match plan
    case PlanSchedule(_, _, closing) => closing
    case PlanSucceed => Succeeded
    case _ => Failed
  }

  /** A planned transaction that commits grows the record it commits to. */
  lemma ExecuteGrows(r: JobRecord, m: Message, snapshot: Job, base: Job, plan: Plan, d: DispatchId,
                     g: GenerationId, now: Time, r': JobRecord)
    requires RecordOk(r) && d !in r.works
    requires OwnOk(m, snapshot, base, r.job) && PlanOk(m, snapshot, plan)
    requires Execute(r, m, base, plan, d, g, now) == Ok(r')
    ensures Grows(r, r') && r.job == base && r'.job.version == r.job.version + 1
    ensures forall x :: x in r'.works && x !in r.works ==> x == d
    ensures plan.PlanSchedule? ==> r'.works == r.works[d := Work(plan.next, m.attempt + 1)]
    ensures plan.PlanSchedule? ==> r'.job.stage == plan.next && r'.job.status == Running
    ensures !plan.PlanSchedule? ==> r'.works == r.works
    ensures plan.PlanRecord? ==> r'.attempts == r.attempts && r'.job.status == Running && r'.job.stage == m.stage
    ensures !plan.PlanRecord? ==> r'.attempts == Finish(r, m.attempt, Closing(plan)).attempts
    ensures plan.PlanFail? ==> r'.job.status == Failed && r'.results == r.results
    ensures plan.PlanSucceed? ==> r'.job.status == Succeeded && r'.results == Produce(r, g).results
    ensures !plan.PlanSucceed? ==> r'.results == r.results
  {
    var target := if m.stage == ImageGenerate then None else Some(Finalize);
    match plan
    case PlanFail => FailGrows(r, m, base.version, target, now, r');
    case PlanSchedule(next, task, closing) => ScheduleGrows(r, m, base.version, next, task, closing, d, now, r');
    case PlanRecord(task) => RecordSubmittedGrows(r, base.version, task, now, r');
    case PlanSucceed => SucceedGrows(r, m, base.version, target, g, now, r');
  }

  lemma CommitKeeps(s: System, h: nat, d: DispatchId, g: GenerationId, fault: bool, now: Time)
    requires Inv(s) && h < |s.handlers| && s.handlers[h].phase.Called? && d !in s.usedDispatches
    requires s.handlers[h].m.stage in {VideoPoll, AssetImport} ==> s.handlers[h].phase.snapshot.task.Some?
    ensures Inv(NextCommit(s, h, d, g, fault, now))
  {
    var m := s.handlers[h].m;
    var out := CommitOutcome(s, h, d, g, fault, now);
    if out.Ok? {
      CommitReplaces(s, h, d, g, now, out.value);
      PutKeeps(s, m.job, out.value);
      MoveToIdle(Put(s, m.job, out.value), h, if s.handlers[h].phase.plan.PlanRecord? then Raised else Halted);
    } else {
      ErrorKeeps(s, h, out.error, now);
    }
  }

  lemma CommitReplaces(s: System, h: nat, d: DispatchId, g: GenerationId, now: Time, r': JobRecord)
    requires Inv(s) && h < |s.handlers| && s.handlers[h].phase.Called? && d !in s.usedDispatches
    requires CommitOutcome(s, h, d, g, false, now) == Ok(r')
    ensures Replaces(s, s.handlers[h].m.job, r')
    ensures s.records[s.handlers[h].m.job].job == s.handlers[h].phase.base
    ensures r'.job.version == s.records[s.handlers[h].m.job].job.version + 1
  {
    var m := s.handlers[h].m;
    var phase := s.handlers[h].phase;
    assert HandlerOk(s, s.handlers[h]) && WorksIssued(s, m.job);
    ExecuteGrows(s.records[m.job], m, phase.snapshot, phase.base, phase.plan, d, g, now, r');
  }

  /** After a rollback a handler still believes in the same row. */
  lemma ErrorFits(policy: Policy, m: Message, phase: Phase, error: Failure, now: Time, row: Job)
    requires phase.Called? && PhaseOk(m, phase, row)
    ensures PhaseOk(m, AfterError(policy, m, phase, error, now), row)
    ensures !AfterError(policy, m, phase, error, now).Claimed?
  {
  }

  lemma ErrorKeeps(s: System, h: nat, error: Failure, now: Time)
    requires Inv(s) && h < |s.handlers| && s.handlers[h].phase.Called?
    requires s.handlers[h].m.stage in {VideoPoll, AssetImport} ==> s.handlers[h].phase.snapshot.task.Some?
    ensures Inv(Move(s, h, AfterError(s.policy, s.handlers[h].m, s.handlers[h].phase, error, now)))
  {
    var m := s.handlers[h].m;
    assert HandlerOk(s, s.handlers[h]);
    if m.job in s.records {
      ErrorFits(s.policy, m, s.handlers[h].phase, error, now, s.records[m.job].job);
    }
    MoveKeeps(s, h, AfterError(s.policy, m, s.handlers[h].phase, error, now));
  }

  lemma RecoverReplaces(s: System, h: nat, d: DispatchId, now: Time, r': JobRecord)
    requires Inv(s) && h < |s.handlers| && s.handlers[h].phase.Recovering? && d !in s.usedDispatches
    requires RecoverOutcome(s, h, d, false, now) == Ok(r')
    ensures Replaces(s, s.handlers[h].m.job, r')
    ensures Conservative(s.records[s.handlers[h].m.job], s.handlers[h].m, d, r')
    ensures s.records[s.handlers[h].m.job].job == s.handlers[h].phase.snapshot
    ensures r'.job.version == s.records[s.handlers[h].m.job].job.version + 1
    ensures r'.job.status == Failed || r'.job.status == Running
    ensures r'.results == s.records[s.handlers[h].m.job].results
  {
    var m := s.handlers[h].m;
    var phase := s.handlers[h].phase;
    assert HandlerOk(s, s.handlers[h]) && MessageOk(s, m) && WorksIssued(s, m.job);
    var r := s.records[m.job];
    assert WorkOk(r.works[m.dispatch], r.job);
    RecoverGrows(r, m, phase.snapshot, phase.duplicate, d, now, r');
  }

  lemma RecoverKeeps(s: System, h: nat, d: DispatchId, fault: bool, now: Time)
    requires Inv(s) && h < |s.handlers| && s.handlers[h].phase.Recovering? && d !in s.usedDispatches
    ensures Inv(NextRecoverCommit(s, h, d, fault, now))
  {
    var m := s.handlers[h].m;
    var out := RecoverOutcome(s, h, d, fault, now);
    if out.Ok? {
      RecoverReplaces(s, h, d, now, out.value);
      PutKeeps(s, m.job, out.value);
      MoveToIdle(Put(s, m.job, out.value), h, Halted);
    } else {
      MoveToIdle(s, h, Halted);
    }
  }

  lemma ExternalKeeps(s: System, a: Action)
    requires Inv(s) && a.External? && Enabled(s, a)
    ensures Inv(Next(s, a))
  {
    var r := s.records[a.j];
    var out := Transition(r, a.expected, a.status, None, None, a.now);
    if out.Ok? {
      ExternalGrows(r, a.expected, a.status, a.now, out.value);
      PutKeeps(s, a.j, out.value);
    }
  }

  lemma RequeueKeeps(s: System, a: Action)
    requires Inv(s) && a.Requeue? && Enabled(s, a)
    ensures Inv(Next(s, a))
  {
    assert WorksIssued(s, a.j);
    RequeueGrows(s.records[a.j], a.lost, a.d);
    PutKeeps(s, a.j, AddWork(s.records[a.j], a.d, s.records[a.j].works[a.lost]));
  }

  lemma CleanupKeeps(s: System, a: Action)
    requires Inv(s) && a.Cleanup? && Enabled(s, a)
    ensures Inv(Next(s, a))
  {
    var t := Next(s, a);
    forall m | m in t.outbox ensures MessageOk(t, m) { assert MessageOk(s, m); }
    forall k | k in t.records ensures WorksIssued(t, k) { assert WorksIssued(s, k); }
    forall i | 0 <= i < |t.handlers|
      ensures HandlerOk(t, t.handlers[i]) && HoldsLicence(t, i)
    {
      assert HandlerOk(s, s.handlers[i]) && HoldsLicence(s, i);
    }
    forall k | k in t.owner ensures OwnerOk(t, k) { assert OwnerOk(s, k); }
    forall x, y | x in t.records && y in t.records && x != y
      ensures !Clash(t.records[x].job, t.records[y].job)
    {
      assert !Clash(s.records[x].job, s.records[y].job);
    }
  }

  /** Every action of every actor keeps the joint invariant. */
  lemma StepKeeps(s: System, a: Action)
    requires Inv(s) && Enabled(s, a)
    ensures Inv(Next(s, a))
  {
    match a
    case Admit(_, _, _, _, _, _, _, _) => AdmitKeeps(s, a);
    case Publish(_) => BrokerKeeps(s, a);
    case Deliver(_) => BrokerKeeps(s, a);
    case ReadJob(h) => ReadJobKeeps(s, h);
    case ReadAttempt(h, noted) => ReadAttemptKeeps(s, h, noted);
    case Claim(h, payloadOk, fault, now) =>
      if s.handlers[h].phase.Entered? {
        ClaimKeeps(s, h, payloadOk, fault, now);
      } else {
        UnhandledIsNotStored(s, h);
        MoveToIdle(s, h, Raised);
      }
    case Call(h, answer, now, later) => CallKeeps(s, h, answer, now, later);
    case Commit(h, d, g, fault, now) => CommitKeeps(s, h, d, g, fault, now);
    case Die(h) => MoveToIdle(s, h, Halted);
    case RecoverRead(h) => RecoverReadKeeps(s, h);
    case RecoverCommit(h, d, fault, now) => RecoverKeeps(s, h, d, fault, now);
    case External(_, _, _, _) => ExternalKeeps(s, a);
    case Requeue(_, _, _) => RequeueKeeps(s, a);
    case Cleanup(_) => CleanupKeeps(s, a);
  }
}
