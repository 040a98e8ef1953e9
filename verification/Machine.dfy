/** The scheduler as a state machine: one transition per critical section.

    Where the code walks an unordered container, the order of the walk is a
    parameter of the transition; where it reads the clock, the instant is. */
module Machine {
  import opened Types
  import opened Collections
  import opened ReadyQueue
  import opened Ledgers
  import opened Fleets
  import opened Batching

  datatype State = State(
    cfg: Config, epoch: nat, issued: nat, draining: bool, tokens: int,
    requests: map<Id, Request>, index: Index, fair: Fair, ledger: Ledger, fleet: Fleet)

  function Initial(cfg: Config, epoch: nat): State {
    State(cfg, epoch, 0, false, 0, map[], EMPTY_INDEX, EMPTY_FAIR, EMPTY_LEDGER, EMPTY_FLEET)
  }

  /** The n-th identifier issued from here on. */
  function Fresh(s: State, n: nat): Id { IdAt(s.cfg, s.issued + n) }

  // ----- attempt histories -----

  function WithLast(h: seq<Attempt>, st: AttemptState): seq<Attempt> {
    if h == [] then h else h[|h| - 1 := h[|h| - 1].(state := st)]
  }

  function LastWorker(h: seq<Attempt>): Id { if h == [] then NO_ID else h[|h| - 1].worker }

  // ----- queue membership -----

  function EnqueueRequest(s: State, id: Id, now: Time): State
    requires id in s.requests
  {
    var rec := s.requests[id].(state := RequestState.Queued, queuedAt := now);
    s.(requests := s.requests[id := rec],
       index := Insert(s.cfg, s.index, id, rec.spec),
       fair := Push(s.cfg, s.fair, id, rec),
       ledger := NoteQueued(s.ledger, rec.spec.tenant))
  }

  /** Take the request out of the indexes and store its new record. */
  function DequeueRequest(s: State, id: Id, rec: Request): State {
    s.(requests := s.requests[id := rec],
       index := Remove(s.cfg, s.index, id, rec.spec),
       ledger := NoteDequeued(s.ledger, rec.spec.tenant))
  }

  function Retire(s: State, t: Id): State { s.(ledger := NoteRetired(s.ledger, t)) }

  function Expire(s: State, id: Id): State
    requires id in s.requests
  {
    var rec := s.requests[id];
    if rec.state != RequestState.Queued then s
    else
      Retire(DequeueRequest(s, id, rec.(state := RequestState.Expired,
          history := WithLast(rec.history, AttemptExpired))),
             rec.spec.tenant)
  }

  function ExpireAll(s: State, order: seq<Id>): State
    decreases |order|
  {
    if order == [] then s
    else ExpireAll(if order[0] in s.requests then Expire(s, order[0]) else s, order[1..])
  }

  /** Queued requests whose deadline has passed. */
  ghost function Due(s: State, now: Time): set<Id> {
    set id | id in s.index.queued && id in s.requests &&
             s.requests[id].state == RequestState.Queued && s.requests[id].spec.Overdue(now)
  }

  // ----- submission -----

  datatype Reason =
    | Ok | Draining | DeadlineExpired | DeadlineInfeasible | AdmissionSaturated | QueueSaturated
    | TokensExhausted | TenantSaturated | TenantDepthSaturated | NoCompatibleWorker

  function Admission(s: State, spec: Spec, now: Time): (Decision, Reason) {
    if s.draining then (Reject, Draining)
    else if spec.Overdue(now) then (Reject, DeadlineExpired)
    else if s.cfg.enforceFeasibility && spec.deadline.Some? && spec.Slack(now) > 0
        && CeilCost(spec.cost) > spec.Slack(now)
      then (if s.cfg.strictRejection then Reject else Defer, DeadlineInfeasible)
    else if s.ledger.admitted >= s.cfg.maxAdmitted then (Defer, AdmissionSaturated)
    else if s.index.size >= s.cfg.maxQueued then (Defer, QueueSaturated)
    else if s.cfg.tokenBudget > 0 && s.tokens + spec.Tokens() > s.cfg.tokenBudget then (Defer, TokensExhausted)
    else if spec.tenant in s.ledger.tenants && s.ledger.tenants[spec.tenant].admitted >= s.cfg.tenantConcurrency
      then (Defer, TenantSaturated)
    else if spec.tenant in s.ledger.tenants && s.ledger.tenants[spec.tenant].queued >= s.cfg.tenantQueueDepth
      then (Defer, TenantDepthSaturated)
    else if s.fleet.workers.Keys != {} && !exists w ::
        w in s.fleet.workers && Compatible(spec, s.fleet.workers[w].capability)
      then (Defer, NoCompatibleWorker)
    else (Admit, Ok)
  }

  datatype SubmitOutput = SubmitOutput(decision: Decision, reason: Reason, id: Id, attempt: Id, generation: Id)
  datatype SubmitResult = SubmitError(code: ErrorCode) | Submitted(out: SubmitOutput)

  /** Store a record unless the identifier is already taken. */
  function InsertRecord(rs: map<Id, Request>, id: Id, rec: Request): map<Id, Request> {
    if id in rs then rs else rs[id := rec]
  }

  function FirstRecord(spec: Spec, attempt: Id, generation: Id, now: Time): Request {
    Request(spec, RequestState.Queued, attempt, generation, [Attempt(attempt, generation, AttemptCreated, NO_ID)],
            now, false, false, None)
  }

  function RejectedRecord(spec: Spec, generation: Id, now: Time): Request {
    Request(spec, RequestState.Rejected, NO_ID, generation, [], now, false, false, None)
  }

  /** The first identifier not used up by the request id itself. */
  function IdsTaken(pre: Option<Id>): nat { if pre.Some? then 0 else 1 }

  function RequestIdFor(s: State, pre: Option<Id>): Id { if pre.Some? then pre.value else Fresh(s, 1) }

  function Submit(s: State, spec: Spec, pre: Option<Id>, now: Time): State {
    if !spec.Valid() then s
    else
      var id := RequestIdFor(s, pre);
      var n := IdsTaken(pre);
      match Admission(s, spec, now).0
      case Defer => s.(issued := s.issued + n)
      case Reject =>
        s.(issued := s.issued + n + 1,
           requests := InsertRecord(s.requests, id, RejectedRecord(spec, Fresh(s, n + 1), now)))
      case Admit =>
        var s1 := s.(issued := s.issued + n + 2,
                     requests := InsertRecord(s.requests, id,
                         FirstRecord(spec, Fresh(s, n + 2), Fresh(s, n + 1), now)));
        var s2 := EnqueueRequest(s1, id, now);
        s2.(ledger := NoteAdmitted(s2.ledger, spec.tenant))
  }

  /** An admission under a fresh identifier, component by component. */
  lemma SubmitShape(s: State, spec: Spec, pre: Option<Id>, now: Time)
    requires spec.Valid() && Admission(s, spec, now).0 == Admit && RequestIdFor(s, pre) !in s.requests
    ensures var s1 := Submit(s, spec, pre, now);
            var id, n := RequestIdFor(s, pre), IdsTaken(pre);
            var rec := FirstRecord(spec, Fresh(s, n + 2), Fresh(s, n + 1), now);
            && s1.requests == s.requests[id := rec]
            && s1.index == Insert(s.cfg, s.index, id, spec)
            && s1.fair == Push(s.cfg, s.fair, id, rec)
            && s1.ledger == NoteAdmitted(NoteQueued(s.ledger, spec.tenant), spec.tenant)
            && s1.fleet == s.fleet && s1.cfg == s.cfg && s1.issued == s.issued + n + 2
  {
  }

  function SubmitAnswer(s: State, spec: Spec, pre: Option<Id>, now: Time): SubmitResult {
    if !spec.Valid() then SubmitError(InvalidArgument)
    else
      var (decision, reason) := Admission(s, spec, now);
      if decision == Admit then
        var id := RequestIdFor(s, pre);
        var s1 := Submit(s, spec, pre, now);
        Submitted(SubmitOutput(decision, reason, id,
                               if id in s1.requests then s1.requests[id].attempt else NO_ID,
                               if id in s1.requests then s1.requests[id].generation else NO_ID))
      else Submitted(SubmitOutput(decision, reason, NO_ID, NO_ID, NO_ID))
  }

  // ----- dispatch -----

  function ReserveOne(s: State, id: Id, b: Id): State
    requires id in s.requests
  {
    var rec := s.requests[id];
    var s1 := DequeueRequest(s, id, rec.(state := RequestState.Reserved, batch := Some(b),
                                         history := WithLast(rec.history, AttemptReserved)));
    s1.(fair := Account(s1.fair, FlowKeyOf(rec.spec), ChargedCost(rec.spec.cost)))
  }

  function ReserveAll(s: State, members: seq<Id>, b: Id): State
    decreases |members|
  {
    if members == [] then s
    else ReserveAll(if members[0] in s.requests then ReserveOne(s, members[0], b) else s, members[1..], b)
  }

  /** Book a fresh batch for these members on worker w. */
  function Open(s: State, members: seq<Id>, w: Id): State
    requires w in s.fleet.workers && forall i :: 0 <= i < |members| ==> members[i] in s.requests
  {
    s.(issued := s.issued + 1,
       fleet := OpenBatch(s.fleet, w, Fresh(s, 1), BatchUnits(s.requests, members), |members|))
  }

  /** Reserve a fresh batch on worker w for these members. */
  function Reserve(s: State, members: seq<Id>, w: Id): State
    requires w in s.fleet.workers && forall i :: 0 <= i < |members| ==> members[i] in s.requests
  {
    ReserveAll(Open(s, members, w), members, Fresh(s, 1))
  }

  datatype PlanResult = RequestNotFound | Hold | NoEligibleWorker | Dispatch(worker: Id, batch: Id, members: seq<Id>)

  /** Plan a dispatch for one request; expired requests leave the queue first. */
  ghost predicate Plan(s: State, request: Id, now: Time, order: seq<Id>, out: PlanResult, s1: State) {
    && Enumerates(order, Due(s, now))
    && PlanOn(ExpireAll(s, order), request, now, out, s1)
  }

  ghost predicate PlanOn(s: State, request: Id, now: Time, out: PlanResult, s1: State) {
    if request !in s.requests then out == RequestNotFound && s1 == s
    else
      var rec := s.requests[request];
      if rec.spec.Overdue(now) then out == Hold && s1 == Expire(s, request)
      else if rec.state != RequestState.Queued && rec.state != RequestState.Admitted then out == Hold && s1 == s
      else exists members, w :: PlanBatch(s, request, now, members, w, out, s1)
  }

  ghost predicate PlanBatch(s: State, request: Id, now: Time, members: seq<Id>, w: Id, out: PlanResult, s1: State)
    requires request in s.requests
  {
    && (forall i :: 0 <= i < |members| ==> members[i] in s.requests)
    && IsBatch(s.cfg, s.requests, s.index, request, now, members)
    && MaySelect(s.fleet.workers, s.requests[request].spec, BatchCost(s.requests, members), now, w)
    && if w == NO_ID then out == NoEligibleWorker && s1 == s
       else if BatchUnits(s.requests, members) > s.fleet.workers[w].available - s.fleet.workers[w].reserved
         then out == Hold && s1 == s
       else out == Dispatch(w, Fresh(s, 1), members) && s1 == Reserve(s, members, w)
  }

  /** Choose the next request to dispatch: first half of plan-next. */
  ghost predicate Pick(s: State, now: Time, order: seq<Id>, seed: Option<Id>, s1: State) {
    && Enumerates(order, Due(s, now))
    && PickOn(ExpireAll(s, order), now, seed, s1)
  }

  ghost predicate PickOn(s: State, now: Time, seed: Option<Id>, s1: State) {
    && s1 == s.(fair := s1.fair)
    && Pruned(s.requests, Runnable(s.requests, s.index.queued, now), s.fair, s1.fair)
    && Picked(s.cfg, s.requests, s1.fair, now, seed)
  }

  // ----- reports from workers -----

  datatype ConfirmResult = Confirmed | Refused(code: ErrorCode)

  function ConfirmAnswer(s: State, r: Report): ConfirmResult {
    if r.epoch != s.epoch then Refused(ErrStaleEpoch)
    else if r.request !in s.requests then Refused(NotFound)
    else
      var rec := s.requests[r.request];
      if rec.attempt != r.attempt || rec.generation != r.generation then Refused(ErrStaleAttempt)
      else if rec.state != RequestState.Reserved then Refused(InvalidState)
      else if r.worker !in s.fleet.workers || s.fleet.workers[r.worker].boot != r.boot then Refused(ErrStaleWorker)
      else if s.fleet.workers[r.worker].state in {Offline, Unhealthy, Drained} then Refused(InvalidState)
      else if rec.batch.None? then Refused(InvalidState)
      else Confirmed
  }

  /** The worker's record after one of its batch members was confirmed. */
  function ConfirmedWorker(r: Worker, request: Id, available: int): Worker {
    r.(inFlight := r.inFlight + {request},
       state := if r.state == Online then Busy else r.state,
       available := if available >= 0 then available else r.available)
  }

  function Confirm(s: State, r: Report): State {
    if ConfirmAnswer(s, r) != Confirmed then s
    else
      var rec := s.requests[r.request];
      var f := StartBatch(s.fleet, r.worker, rec.batch.value);
      s.(requests := s.requests[r.request := rec.(state := RequestState.Running,
          history := WithWorker(rec.history, r.worker))],
         fleet := f.(workers := f.workers[r.worker := ConfirmedWorker(f.workers[r.worker], r.request, r.available)]))
  }

  function WithWorker(h: seq<Attempt>, w: Id): seq<Attempt> {
    if h == [] then h else h[|h| - 1 := h[|h| - 1].(state := AttemptRunning, worker := w)]
  }

  /** The request's batch after worker w was asked to release it: an unknown worker changes nothing. */
  function BatchAfterRelease(s: State, rec: Request, w: Id): Option<Id> {
    if w in s.fleet.workers then None else rec.batch
  }

  /** End the attempt and the request. */
  function Finish(s: State, id: Id, w: Id, st: RequestState, a: AttemptState): State
    requires id in s.requests
  {
    var rec := s.requests[id];
    Retire(s.(fleet := ReleaseMember(s.fleet, w, id, rec.batch),
              requests := s.requests[id := rec.(state := st, history := WithLast(rec.history, a),
                                                batch := BatchAfterRelease(s, rec, w))]),
           rec.spec.tenant)
  }

  function FinishCancelled(s: State, id: Id, w: Id): State
    requires id in s.requests
  {
    var rec := s.requests[id];
    var held := rec.state in {RequestState.Reserved, RequestState.Dispatched, RequestState.Running};
    if IsTerminal(rec.state) then s
    else
      var s1 := if held then s.(fleet := ReleaseMember(s.fleet, w, id, rec.batch)) else s;
      Retire(DequeueRequest(s1, id, rec.(state := RequestState.Cancelled, cancelCommitted := true,
                                         history := WithLast(rec.history, AttemptCancelled),
                                         batch := if held then BatchAfterRelease(s, rec, w) else rec.batch)),
             rec.spec.tenant)
  }

  predicate CanRetry(s: State, rec: Request, now: Time) {
    && !rec.cancelRequested && !rec.cancelCommitted
    && |rec.history| < s.cfg.maxAttempts
    && !rec.spec.Overdue(now)
  }

  /** Fail the current attempt and queue a new one under fresh identifiers. */
  function MakeRetry(s: State, id: Id, w: Id, now: Time): State
    requires id in s.requests
  {
    var rec := s.requests[id];
    var s1 := s.(fleet := ReleaseMember(s.fleet, w, id, rec.batch), issued := s.issued + 2,
                 requests := s.requests[id := RetriedRecord(rec, Fresh(s, 1), Fresh(s, 2))]);
    EnqueueRequest(s1, id, now)
  }

  function RetriedRecord(rec: Request, generation: Id, attempt: Id): Request {
    rec.(generation := generation, attempt := attempt, batch := None,
         history := WithLast(rec.history, AttemptFailed) + [Attempt(attempt, generation, AttemptCreated, NO_ID)])
  }

  /** A retry, component by component. */
  lemma RetryShape(s: State, id: Id, w: Id, now: Time)
    requires id in s.requests
    ensures var s1 := MakeRetry(s, id, w, now);
            var rec := RetriedRecord(s.requests[id], Fresh(s, 1), Fresh(s, 2)).(state := RequestState.Queued,
                queuedAt := now);
            && s1.requests == s.requests[id := rec]
            && s1.index == Insert(s.cfg, s.index, id, rec.spec)
            && s1.fair == Push(s.cfg, s.fair, id, rec)
            && s1.ledger == NoteQueued(s.ledger, rec.spec.tenant)
            && s1.fleet == ReleaseMember(s.fleet, w, id, s.requests[id].batch)
            && s1.cfg == s.cfg && s1.issued == s.issued + 2
  {
  }

  /** How a completion report is answered before its status is looked at. */
  function Screen(s: State, r: Report): Option<Acceptance> {
    if r.epoch != s.epoch then Some(StaleEpoch)
    else if r.worker !in s.fleet.workers || s.fleet.workers[r.worker].boot != r.boot then Some(StaleWorker)
    else if r.request !in s.requests then Some(Invalid)
    else
      var rec := s.requests[r.request];
      if rec.attempt != r.attempt || rec.generation != r.generation then Some(StaleAttempt)
      else if IsTerminal(rec.state) then Some(Duplicate)
      else if rec.cancelCommitted then Some(CancelledOutcome)
      else None
  }

  predicate Retryable(cfg: Config, f: FailureClass) {
    f == RetryableTransport || f == RetryableWorker || (f == AmbiguousDispatch && cfg.retryOnAmbiguous)
  }

  function Complete(s: State, r: Report, now: Time): State {
    if Screen(s, r).Some? then s
    else
      var rec := s.requests[r.request];
      match r.status
      case Succeeded =>
        if rec.cancelRequested then FinishCancelled(s, r.request, r.worker)
        else Finish(s, r.request, r.worker, RequestState.Completed, AttemptSucceeded)
      case CancelledStatus => FinishCancelled(s, r.request, r.worker)
      case ExpiredStatus => Finish(s, r.request, r.worker, RequestState.Expired, AttemptExpired)
      case Stale =>
        s.(fleet := ReleaseMember(s.fleet, r.worker, r.request, rec.batch),
           requests := s.requests[r.request := rec.(batch := BatchAfterRelease(s, rec, r.worker),
                                                    history := WithLast(rec.history, AttemptStale))])
      case _ =>
        if Retryable(s.cfg, r.failure) && CanRetry(s, rec, now) then MakeRetry(s, r.request, r.worker, now)
        else Finish(s, r.request, r.worker, RequestState.Failed, AttemptFailed)
  }

  function CompleteAnswer(s: State, r: Report): Acceptance {
    match Screen(s, r)
    case Some(a) => a
    case None =>
      if r.status == Succeeded && s.requests[r.request].cancelRequested then CancelledOutcome
      else if r.status == Stale then StaleAttempt
      else Accepted
  }

  // ----- cancellation -----

  datatype CancelResult = CancelAccepted | CancelRefused(code: ErrorCode)

  function CancelAnswer(s: State, id: Id): CancelResult {
    if id !in s.requests then CancelRefused(NotFound)
    else if IsTerminal(s.requests[id].state) then CancelRefused(InvalidState)
    else CancelAccepted
  }

  function Cancel(s: State, id: Id): State {
    if CancelAnswer(s, id) != CancelAccepted then s
    else
      var rec := s.requests[id];
      if rec.state == RequestState.Reserved then FinishCancelled(s, id, LastWorker(rec.history))
      else if rec.state == RequestState.Dispatched || rec.state == RequestState.Running
        then s.(requests := s.requests[id := rec.(cancelRequested := true)])
      else FinishCancelled(s, id, NO_ID)
  }

  function CancelAll(s: State, order: seq<Id>): State
    decreases |order|
  {
    if order == [] then s
    else CancelAll(if order[0] in s.requests then FinishCancelled(s, order[0], NO_ID) else s, order[1..])
  }

  // ----- workers -----

  /** Requests in flight on a lost worker are retried or failed, in the given order. */
  function RecoverRequests(s: State, w: Id, order: seq<Id>, now: Time): State
    decreases |order|
  {
    if order == [] then s
    else RecoverRequests(RecoverOne(s, w, order[0], now), w, order[1..], now)
  }

  function RecoverOne(s: State, w: Id, id: Id, now: Time): State {
    if id !in s.requests || IsTerminal(s.requests[id].state) then s
    else if CanRetry(s, s.requests[id], now) then MakeRetry(s, id, w, now)
    else Finish(s, id, w, RequestState.Failed, AttemptFailed)
  }

  /** Clear what is left of a lost worker's bookings. Every remaining batch is taken
      off the reserved side, started or not. */
  ghost function ClearWorker(f: Fleet, w: Id): Fleet
    requires w in f.workers
  {
    var r := f.workers[w];
    var units := Total(r.batchUnits);
    Fleet(f.workers[w := r.(inFlight := {}, batchUnits := map[], batchPending := map[], started := {},
                            reserved := Clamp(r.reserved - units), running := Clamp(r.running))],
          Clamp(f.reserved - units), Clamp(f.running))
  }

  ghost function RecoverInFlight(s: State, w: Id, order: seq<Id>, now: Time): State {
    if w !in s.fleet.workers then s
    else
      var s1 := RecoverRequests(s, w, order, now);
      if w in s1.fleet.workers then s1.(fleet := ClearWorker(s1.fleet, w)) else s1
  }

  const NEW_WORKER: Worker :=
    Worker(NO_ID, Capability(1, 1, [], [], [], []), Unknown, 0, 0, 0, map[], map[], {}, {})

  /** A worker record after registration; the bookings stay. */
  function Registered(r: Worker, reg: Registration): Worker {
    r.(boot := reg.boot, capability := reg.capability,
       state := if reg.state == Unknown || reg.state == Booted then Online else reg.state,
       available := reg.capability.available, reserved := Clamp(r.reserved))
  }

  /** Registering a known worker under another boot identity is a restart. */
  predicate IsRestart(s: State, reg: Registration) {
    reg.worker in s.fleet.workers && reg.worker != NO_ID && s.fleet.workers[reg.worker].boot != reg.boot
  }

  function InFlightOn(s: State, w: Id): set<Id> {
    if w in s.fleet.workers then s.fleet.workers[w].inFlight else {}
  }

  ghost function Register(s: State, reg: Registration, now: Time, order: seq<Id>): State {
    var s1 := if IsRestart(s, reg) then RecoverInFlight(s, reg.worker, order, now) else s;
    var r := if reg.worker in s1.fleet.workers then s1.fleet.workers[reg.worker] else NEW_WORKER;
    s1.(fleet := s1.fleet.(workers := s1.fleet.workers[reg.worker := Registered(r, reg)]))
  }

  ghost function Unregister(s: State, w: Id, now: Time, order: seq<Id>): State {
    if w !in s.fleet.workers then s
    else
      var s1 := RecoverInFlight(s, w, order, now);
      s1.(fleet := s1.fleet.(workers := s1.fleet.workers - {w}))
  }

  function UpdateCapability(s: State, w: Id, cap: Capability): State {
    if w !in s.fleet.workers then s
    else s.(fleet := s.fleet.(workers := s.fleet.workers[w := s.fleet.workers[w].(capability := cap,
        available := cap.available)]))
  }

  function SetWorkerState(s: State, w: Id, st: WorkerState, available: Option<int>): State {
    if w !in s.fleet.workers then s
    else
      var r := s.fleet.workers[w].(state := st);
      s.(fleet := s.fleet.(workers := s.fleet.workers[w := if available.Some? then r.(available := available.value)
          else r]))
  }

  // ----- runs -----

  datatype Event =
    | SubmitEvent(spec: Spec, pre: Option<Id>, now: Time)
    | PickEvent(now: Time, order: seq<Id>, seed: Option<Id>)
    | PlanEvent(request: Id, now: Time, order: seq<Id>, out: PlanResult)
    | ConfirmEvent(report: Report)
    | CompleteEvent(report: Report, now: Time)
    | CancelEvent(request: Id)
    | CancelAllEvent(order: seq<Id>)
    | RegisterEvent(reg: Registration, now: Time, order: seq<Id>)
    | UnregisterEvent(worker: Id, now: Time, order: seq<Id>)
    | CapabilityEvent(worker: Id, cap: Capability)
    | WorkerStateEvent(worker: Id, st: WorkerState, available: Option<int>)
    | DrainEvent
    | EpochEvent

  ghost predicate Step(s: State, e: Event, s1: State) {
    match e
    case SubmitEvent(spec, pre, now) => s1 == Submit(s, spec, pre, now)
    case PickEvent(now, order, seed) => Pick(s, now, order, seed, s1)
    case PlanEvent(request, now, order, out) => Plan(s, request, now, order, out, s1)
    case ConfirmEvent(r) => s1 == Confirm(s, r)
    case CompleteEvent(r, now) => s1 == Complete(s, r, now)
    case CancelEvent(id) => s1 == Cancel(s, id)
    case CancelAllEvent(order) => Enumerates(order, s.index.queued) && s1 == CancelAll(s, order)
    case RegisterEvent(reg, now, order) => Enumerates(order, InFlightOn(s, reg.worker))
        && s1 == Register(s, reg, now, order)
    case UnregisterEvent(w, now, order) => Enumerates(order, InFlightOn(s, w)) && s1 == Unregister(s, w, now, order)
    case CapabilityEvent(w, cap) => s1 == UpdateCapability(s, w, cap)
    case WorkerStateEvent(w, st, available) => s1 == SetWorkerState(s, w, st, available)
    case DrainEvent => s1 == s.(draining := true)
    case EpochEvent => s1 == s.(epoch := s.epoch + 1)
  }

  /** A run: a state before and after every event, from the empty scheduler. */
  datatype Trace = Trace(states: seq<State>, events: seq<Event>)

  ghost predicate IsRun(tr: Trace) {
    && |tr.states| == |tr.events| + 1
    && tr.states[0] == Initial(tr.states[0].cfg, tr.states[0].epoch)
    && forall i :: 0 <= i < |tr.events| ==> Step(tr.states[i], tr.events[i], tr.states[i + 1])
  }
}
