/** Entities of the durable job queue and the pure rules over them: the status and
    stage tables, queue messages, and the video pipeline policy. Row identifiers are
    opaque values with a total order, so they are modelled as natural numbers; text
    columns that only carry diagnostics are left out of the rows. */
module Model {

  datatype Option<+T> = None | Some(value: T)

  type JobId = nat
  type DispatchId = nat
  type GenerationId = nat
  type TaskId = nat
  type AssetId = nat
  type Token = nat

  /** Microseconds on an arbitrary clock; stored text timestamps order the same way. */
  type Time = int

  datatype Kind = Image | Video

  datatype Status = Queued | Running | Succeeded | Failed | Canceled

  datatype Stage = Admitted | ImageGenerate | VideoSubmit | VideoPoll | AssetImport | Finalize

  /** A request digest together with the version of the hashing scheme. */
  datatype RequestKey = RequestKey(digest: nat, version: int)

  /** One row of the jobs table. `task` is the provider's external task id. */
  datatype Job = Job(
    kind: Kind,
    status: Status,
    stage: Stage,
    version: nat,
    task: Option<TaskId>,
    key: Option<RequestKey>,
    attemptCount: nat,
    maxAttempts: nat,
    createdAt: Time,
    updatedAt: Time,
    startedAt: Option<Time>)

  /** One row of the attempts table, without its (job, number) key. */
  datatype Attempt = Attempt(stage: Stage, status: Status)

  /** The part of an outbox row that never changes: which stage to run, as which attempt. */
  datatype Work = Work(stage: Stage, attempt: nat)

  /** A job event that carries statuses. */
  datatype Mark = Mark(from: Option<Status>, to: Status)

  /** The payload-free message that crosses the broker. */
  datatype Message = Message(job: JobId, stage: Stage, attempt: nat, dispatch: DispatchId)

  datatype Failure = StaleVersion | IllegalTransition | JobMissing | NoAsset | DatabaseFault

  datatype Outcome<+T> = Ok(value: T) | Err(error: Failure)

  predicate Active(status: Status) {
    status == Queued || status == Running
  }

  predicate Terminal(status: Status) {
    status == Succeeded || status == Failed || status == Canceled
  }

  predicate StageFits(kind: Kind, stage: Stage) {
    match kind
    case Image => stage in {Admitted, ImageGenerate, AssetImport, Finalize}
    case Video => stage in {Admitted, VideoSubmit, VideoPoll, AssetImport, Finalize}
  }

  predicate StageStep(from: Stage, to: Stage) {
    match from
    case Admitted => to in {Admitted, ImageGenerate, VideoSubmit, Finalize}
    case ImageGenerate => to in {ImageGenerate, AssetImport, Finalize}
    case VideoSubmit => to in {VideoSubmit, VideoPoll, Finalize}
    case VideoPoll => to in {VideoPoll, AssetImport, Finalize}
    case AssetImport => to in {AssetImport, Finalize}
    case Finalize => to == Finalize
  }

  predicate StatusStep(from: Status, to: Status) {
    match from
    case Queued => to in {Queued, Running, Failed, Canceled}
    case Running => to in {Running, Succeeded, Failed, Canceled}
    case Succeeded => to == Succeeded
    case Failed => to == Failed
    case Canceled => to == Canceled
  }

  /** The position of a stage in its pipeline; distinct for the stages of one kind. */
  function Rank(stage: Stage): nat {
    match stage
    case Admitted => 0
    case ImageGenerate => 1
    case VideoSubmit => 1
    case VideoPoll => 2
    case AssetImport => 3
    case Finalize => 4
  }

  /** The stages a message may name, and the range its attempt number must lie in. */
  predicate Constructible(m: Message) {
    m.stage != Admitted && 1 <= m.attempt <= 1000
  }

  /** The stages the default registry maps to a handler. */
  predicate HasHandler(stage: Stage) {
    stage in {ImageGenerate, VideoSubmit, VideoPoll, AssetImport}
  }

  /** A stored limit of zero is read as one. */
  function AttemptLimit(job: Job): nat {
    if job.maxAttempts == 0 then 1 else job.maxAttempts
  }

  // ----- the video pipeline policy

  datatype Policy = Policy(interval: real, maxPoll: real, maxAttempts: nat, maxBackoff: real) {

    predicate Valid() {
      interval > 0.0 && maxPoll > 0.0 && 3 <= maxAttempts <= 1000
    }

    /** True when the pipeline may not schedule another attempt after this one. */
    predicate Exhausted(attempt: nat, startedAt: Option<Time>, now: Time) {
      attempt >= maxAttempts ||
      (startedAt.Some? && (now - startedAt.value) as real >= maxPoll * 1000000.0)
    }

    function DelaySeconds(attempt: nat): real {
      MinReal(maxBackoff, Doubled(interval, Clamp(attempt - 1, 0, 6)))
    }
  }

  /** A duration in seconds, rounded to the nearest microsecond. */
  function Micros(seconds: real): int {
    (seconds * 1000000.0 + 0.5).Floor
  }

  function MinReal(a: real, b: real): real {
    if a <= b then a else b
  }

  function MaxReal(a: real, b: real): real {
    if a >= b then a else b
  }

  function Clamp(x: int, low: nat, high: nat): nat
    requires low <= high
  {
    if x < low then low else if x > high then high else x
  }

  function Pow2(n: nat): (r: real)
    ensures r >= 1.0
  {
    if n == 0 then 1.0 else 2.0 * Pow2(n - 1)
  }

  /** Twice as much, so many times. */
  function Doubled(x: real, times: nat): real {
    x * Pow2(times)
  }

  lemma DoubledOnce(x: real, times: nat)
    ensures Doubled(x, 0) == x && Doubled(x, times + 1) == 2.0 * Doubled(x, times)
  {
    assert x * 1.0 == x;
    var p, q := Pow2(times), Pow2(times + 1);
    assert q == 2.0 * p && x * q == 2.0 * (x * p);
  }

  function Ceiling(x: real): int {
    -((-x).Floor)
  }

  /** The policy read from configuration: both settings are repaired before use, and the
      attempt limit is the number of polls that fit, plus three, within [3, 1000]. */
  function PolicyFromConfig(interval: real, maximum: real): Policy {
    var step := MaxReal(0.1, interval);
    var total := MaxReal(step, maximum);
    Policy(step, total, Clamp(Ceiling(total / step) + 3, 3, 1000), 60.0)
  }

  /** Whatever the settings say, the policy they produce passes its own validation, and the
      attempt limit leaves room to poll for the whole allowed time unless it is the cap. */
  lemma ConfiguredPolicyIsValid(interval: real, maximum: real)
    ensures PolicyFromConfig(interval, maximum).Valid()
    ensures
      var p := PolicyFromConfig(interval, maximum);
      p.maxAttempts == 1000 || (p.maxAttempts - 3) as real * p.interval >= p.maxPoll
  {
    var step := MaxReal(0.1, interval);
    var total := MaxReal(step, maximum);
    var polls := Ceiling(total / step);
    assert total / step > 0.0;
    assert polls as real >= total / step;
    CoverByProduct(polls as real, total, step);
  }

  lemma CoverByProduct(polls: real, total: real, step: real)
    requires step > 0.0 && polls >= total / step
    ensures polls * step >= total
  {
    assert (total / step) * step == total;
  }

  lemma {:induction false} Pow2Monotone(a: nat, b: nat)
    requires a <= b
    ensures Pow2(a) <= Pow2(b)
  {
    if a < b {
      Pow2Monotone(a, b - 1);
    }
  }

  /** Backoff never shrinks from one attempt to a later one, and never passes its cap. */
  lemma BackoffGrowsToItsCap(p: Policy, a: nat, b: nat)
    requires p.Valid() && a <= b
    ensures p.DelaySeconds(a) <= p.DelaySeconds(b) <= p.maxBackoff
  {
    var x, y := Clamp(a - 1, 0, 6), Clamp(b - 1, 0, 6);
    Pow2Monotone(x, y);
    ScaleMonotone(p.interval, Pow2(x), Pow2(y));
  }

  lemma ScaleMonotone(k: real, x: real, y: real)
    requires k > 0.0 && x <= y
    ensures k * x <= k * y
  {
  }

  /** The poll delay in figures: the interval for a first attempt, twice as much for each later one up to the
      seventh, which is 64 times as much, and never more than the cap. */
  lemma BackoffInFigures(p: Policy, attempt: nat)
    ensures
      var times := if attempt <= 1 then 1.0 else if attempt == 2 then 2.0 else if attempt == 3 then 4.0
                   else if attempt == 4 then 8.0 else if attempt == 5 then 16.0
                   else if attempt == 6 then 32.0 else 64.0;
      p.DelaySeconds(attempt) == if p.interval * times > p.maxBackoff then p.maxBackoff else p.interval * times
  {
    assert Pow2(0) == 1.0 && Pow2(1) == 2.0 && Pow2(2) == 4.0;
    assert Pow2(3) == 8.0 && Pow2(4) == 16.0;
    assert Pow2(5) == 32.0 && Pow2(6) == 64.0;
  }

  /** No duration is off by more than half a microsecond. */
  lemma MicrosAreClose(seconds: real)
    ensures -0.5 <= Micros(seconds) as real - seconds * 1000000.0 <= 0.5
  {
  }

  /** The policy that settings make: the interval as set, but a tenth of a second at least; the time as set, but one
      interval at least; a delay of a minute at most; and as few attempts as leave room for all the polls that fit
      the time and three more, but never more than a thousand. */
  lemma PolicyFromSettings(interval: real, maximum: real)
    ensures
      var p := PolicyFromConfig(interval, maximum);
      && p.interval == (if interval < 0.1 then 0.1 else interval)
      && p.maxPoll == (if maximum < p.interval then p.interval else maximum)
      && p.maxBackoff == 60.0
      && (p.maxAttempts < 1000 ==> (p.maxAttempts - 3) as real * p.interval >= p.maxPoll)
      && (p.maxAttempts - 4) as real * p.interval < p.maxPoll
  {
    ConfiguredPolicyIsValid(interval, maximum);
    var step := MaxReal(0.1, interval);
    var total := MaxReal(step, maximum);
    var polls := Ceiling(total / step);
    assert polls as real < total / step + 1.0;
    ShortByProduct((polls - 1) as real, total, step);
    assert PolicyFromConfig(interval, maximum).maxAttempts <= polls + 3;
    ProductOrder((PolicyFromConfig(interval, maximum).maxAttempts - 4) as real, (polls - 1) as real, step);
  }

  lemma ShortByProduct(polls: real, total: real, step: real)
    requires step > 0.0 && polls < total / step
    ensures polls * step < total
  {
    assert (total / step) * step == total;
  }

  lemma ProductOrder(a: real, b: real, step: real)
    requires step > 0.0 && a <= b
    ensures a * step <= b * step
  {
  }

  /** A number that is larger than every identifier in the set. */
  lemma {:induction false} Unissued(ids: set<nat>) returns (n: nat)
    ensures forall k :: k in ids ==> k < n
    decreases ids
  {
    if ids == {} {
      n := 0;
    } else {
      var k :| k in ids;
      n := Unissued(ids - {k});
      n := if n <= k then k + 1 else n;
      assert forall x :: x in ids ==> x == k || x in ids - {k};
    }
  }
}
