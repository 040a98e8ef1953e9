/** The values the scheduler works on: identifiers, enumerations, request
    specifications, the configuration, request records and worker reports.

    Identifiers are unbounded naturals. An identifier a caller supplies may be
    the reserved invalid value NO_ID; an identifier that the scheduler itself
    leaves unset is an Option. */
module Types {

  type Id = nat
  const NO_ID: Id := 0xFFFF_FFFF_FFFF_FFFF

  /** An instant on the injected monotonic clock, in nanosecond ticks. */
  type Time = int
  const TICKS_PER_MS: int := 1_000_000

  datatype Option<+T> = None | Some(value: T)

  type Phase = p: int | 0 <= p < 3 witness 0
  type Priority = p: int | 0 <= p < 5 witness 0
  type Latency = l: int | 0 <= l < 4 witness 0

  datatype RequestState =
    | Created | PendingAdmission | Admitted | Queued | Reserved | Dispatched | Running
    | Completing | Completed | Rejected | Cancelled | Expired | Failed

  predicate IsTerminal(s: RequestState) {
    s in {RequestState.Completed, RequestState.Rejected, RequestState.Cancelled,
          RequestState.Expired, RequestState.Failed}
  }

  datatype AttemptState =
    | AttemptCreated | AttemptReserved | AttemptRunning | AttemptSucceeded
    | AttemptFailed | AttemptCancelled | AttemptStale | AttemptExpired

  datatype WorkerState = Unknown | Booted | Online | Busy | Offline | Drained | Unhealthy

  datatype Status = Succeeded | FailedStatus | CancelledStatus | ExpiredStatus | Stale | Ambiguous

  datatype FailureClass =
    | RetryableTransport | RetryableWorker | NonRetryableRequest | SchedulerRejection
    | DeadlineExpiration | Cancellation | StaleAuthority | AmbiguousDispatch | Internal

  datatype ErrorCode =
    | InvalidArgument | InvalidState | NotFound | ErrStaleEpoch | ErrStaleWorker
    | ErrStaleAttempt | Corruption

  datatype Acceptance =
    | Accepted | CancelledOutcome | StaleEpoch | StaleWorker | StaleAttempt | Duplicate | Invalid

  datatype Decision = Admit | Defer | Reject

  // ----- deadlines -----

  /** Time left before instant p in whole milliseconds; zero once p has passed. */
  function Remaining(p: Time, now: Time): (ms: int)
    ensures ms >= 0
  {
    if p - now < 0 then 0 else (p - now) / TICKS_PER_MS
  }

  // ----- specifications -----

  datatype Spec = Spec(
    tenant: Id, model: Id, revision: Id, adapter: Option<Id>,
    phase: Phase, priority: Priority, latency: Latency,
    inputTokens: int, outputTokens: int, decodedTokens: int,
    cost: real, memory: int, maxBatch: int, deadline: Option<Time>)
  {
    function Tokens(): int { inputTokens + outputTokens }

    predicate Overdue(now: Time) { deadline.Some? && now >= deadline.value }

    /** Urgency in milliseconds; a request without a deadline is never urgent. */
    function Slack(now: Time): int {
      if deadline.Some? then Remaining(deadline.value, now) else MAX_SLACK
    }

    predicate Valid() {
      && tenant != NO_ID
      && model != NO_ID
      && inputTokens >= 0 && outputTokens >= 0 && decodedTokens >= 0
      && cost >= 0.0
      && memory >= 0
      && maxBatch >= 0
    }
  }

  const MAX_SLACK: int := 0x7FFF_FFFF_FFFF_FFFF

  function Max(a: int, b: int): int { if a < b then b else a }
  function MaxReal(a: real, b: real): real { if a < b then b else a }

  function Ceil(c: real): int { -(-c).Floor }

  /** Units reserved for a request of cost c. */
  function CeilCost(c: real): int { if c <= 0.0 then 1 else Ceil(c) }

  /** Cost charged for a request of cost c: never below one. */
  function ChargedCost(c: real): real { MaxReal(1.0, c) }

  // ----- configuration -----

  datatype Settings = Settings(
    salt: nat,
    maxAdmitted: int, maxQueued: int, tokenBudget: int,
    tenantConcurrency: int, tenantQueueDepth: int,
    enforceFeasibility: bool, strictRejection: bool,
    maxBatch: int, maxTokens: int, allowPhaseMix: bool,
    maxAttempts: int, retryOnAmbiguous: bool,
    boostEnabled: bool, boostMax: real, boostThresholdMs: int,
    tenantWeights: seq<(Id, real)>, defaultWeight: real,
    latencyWeight: seq<real>, priorityWeight: seq<real>, phaseWeight: seq<real>)

  /** The salt has 32 bits, the weight tables have one entry per enumeration value and the
      deadline boost divisor is positive. */
  type Config = c: Settings |
      c.salt < HALF && |c.latencyWeight| == 4 && |c.priorityWeight| == 5 && |c.phaseWeight| == 3 && c.boostMax > 0.0
    witness Settings(0, 0, 0, 0, 0, 0, false, false, 0, 0, false, 0, false, false, 1.0, 0, [], 1.0,
                     [1.0, 1.0, 1.0, 1.0], [1.0, 1.0, 1.0, 1.0, 1.0], [1.0, 1.0, 1.0])

  // ----- identifiers -----

  const HALF: nat := 0x1_0000_0000

  /** The n-th identifier issued: the salt in the high half, the counter in the low half. Once the
      counter has outgrown its half the identifiers go on above all 64-bit words. */
  function IdAt(cfg: Config, n: nat): Id {
    if n < HALF then cfg.salt * 0x1_0000_0000 + n else (n + 1) * 0x1_0000_0000_0000_0000 + cfg.salt
  }

  /** No identifier is issued twice, not even by schedulers with different salts. */
  lemma IdsDiffer(a: Config, m: nat, b: Config, n: nat)
    ensures IdAt(a, m) == IdAt(b, n) <==> a.salt == b.salt && m == n
  {
  }

  /** x is one of the identifiers issued from lo on, up to hi. */
  ghost predicate Issued(cfg: Config, lo: nat, hi: nat, x: Id) { exists n: nat :: lo < n <= hi && IdAt(cfg, n) == x }

  /** x will never be issued again. */
  ghost predicate Spent(cfg: Config, issued: nat, x: Id) { forall n: nat :: n > issued ==> IdAt(cfg, n) != x }

  lemma IssuedIsSpent(cfg: Config, lo: nat, hi: nat, x: Id)
    requires Issued(cfg, lo, hi, x)
    ensures Spent(cfg, hi, x) && !Spent(cfg, lo, x)
  {
    forall n: nat | n > hi ensures IdAt(cfg, n) != x {
      var m: nat :| lo < m <= hi && IdAt(cfg, m) == x;
      IdsDiffer(cfg, m, cfg, n);
    }
  }

  lemma SpentNotIssued(cfg: Config, lo: nat, hi: nat, x: Id)
    requires Spent(cfg, lo, x)
    ensures !Issued(cfg, lo, hi, x)
  {
  }

  lemma IssuedWithin(cfg: Config, lo: nat, hi: nat, x: Id, lo1: nat, hi1: nat)
    requires Issued(cfg, lo, hi, x) && lo1 <= lo && hi <= hi1
    ensures Issued(cfg, lo1, hi1, x)
  {
  }

  // ----- records -----

  datatype Attempt = Attempt(id: Id, generation: Id, state: AttemptState, worker: Id)

  /** A request record. The batch field is the pair (in_batch, batch_id), which
      are always set and cleared together. */
  datatype Request = Request(
    spec: Spec, state: RequestState, attempt: Id, generation: Id, history: seq<Attempt>,
    queuedAt: Time, cancelRequested: bool, cancelCommitted: bool, batch: Option<Id>)

  datatype Capability = Capability(
    total: int, available: int, models: seq<Id>, revisions: seq<Id>, adapters: seq<Id>, phases: seq<Phase>)

  datatype Registration = Registration(worker: Id, boot: Id, capability: Capability, state: WorkerState)

  /** What a worker sends when it starts or finishes an attempt. */
  datatype Report = Report(
    epoch: nat, worker: Id, boot: Id, request: Id, attempt: Id, generation: Id,
    status: Status, failure: FailureClass, available: int)
}
