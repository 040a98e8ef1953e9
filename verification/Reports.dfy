/** What a report, a cancellation or the loss of a worker does to a request, with every condition written out. */
module Reports {
  import opened Types
  import opened Collections
  import opened ReadyQueue
  import opened Fleets
  import opened Machine
  import opened Lifecycle
  import opened Protocol

  predicate Closed(rec: Request) {
    || rec.state == RequestState.Completed || rec.state == RequestState.Rejected || rec.state == RequestState.Cancelled
    || rec.state == RequestState.Expired || rec.state == RequestState.Failed
  }

  /** rec1 is rec waiting again, out of any batch, with one more attempt, which is the current one. */
  predicate Requeued(rec: Request, rec1: Request, now: Time) {
    && rec1.state == RequestState.Queued && rec1.spec == rec.spec && rec1.queuedAt == now && rec1.batch == None
    && |rec1.history| == |rec.history| + 1
    && rec1.history[|rec.history|] == Attempt(rec1.attempt, rec1.generation, AttemptCreated, NO_ID)
    && (rec.history != [] ==> rec1.history[|rec.history| - 1].state == AttemptFailed)
  }

  /** rec1 is rec closed in state st, its last attempt in state a. */
  predicate ClosedAs(rec: Request, rec1: Request, st: RequestState, a: AttemptState) {
    && rec1.state == st && rec1.spec == rec.spec && rec1.attempt == rec.attempt && rec1.generation == rec.generation
    && rec1.cancelCommitted == (st == RequestState.Cancelled || rec.cancelCommitted)
    && |rec1.history| == |rec.history| && (rec.history != [] ==> rec1.history[|rec.history| - 1].state == a)
  }

  /** Another attempt may be made at this instant. */
  predicate MayTryAgain(cfg: Config, rec: Request, now: Time) {
    && !rec.cancelRequested && !rec.cancelCommitted
    && |rec.history| < cfg.maxAttempts
    && (rec.spec.deadline.None? || now < rec.spec.deadline.value)
  }

  /** Only request id has another record. */
  ghost predicate Alone(s: State, s1: State, id: Id) {
    id in s.requests && s1.requests.Keys == s.requests.Keys &&
    forall i :: i in s.requests && i != id ==> s1.requests[i] == s.requests[i]
  }

  // ----- completions -----

  /** The ground on which a completion report is turned away. */
  predicate Ground(s: State, r: Report, a: Acceptance) {
    match a
    case StaleEpoch => r.epoch != s.epoch
    case StaleWorker => r.worker !in s.fleet.workers || s.fleet.workers[r.worker].boot != r.boot
    case Invalid => r.request !in s.requests
    case StaleAttempt =>
      r.request in s.requests && (s.requests[r.request].attempt != r.attempt
          || s.requests[r.request].generation != r.generation)
    case Duplicate => r.request in s.requests && Closed(s.requests[r.request])
    case CancelledOutcome => r.request in s.requests && s.requests[r.request].cancelCommitted
    case Accepted => false
  }

  /** When a ground is looked for: the lower, the earlier. */
  function Turn(a: Acceptance): nat {
    match a
    case StaleEpoch => 1 case StaleWorker => 2 case Invalid => 3 case StaleAttempt => 4 case Duplicate => 5
    case CancelledOutcome => 6 case Accepted => 7
  }

  /** A report is turned away exactly when a ground applies; the answer is the first one, and nothing changes. */
  lemma GroundExact(s: State, r: Report, now: Time, a: Acceptance)
    ensures Screen(s, r).None? <==> forall b :: !Ground(s, r, b)
    ensures Ground(s, r, a) && (forall b :: Turn(b) < Turn(a) ==> !Ground(s, r, b)) ==>
              CompleteAnswer(s, r) == a && Complete(s, r, now) == s
  {
    hide Finish, FinishCancelled, MakeRetry, CanRetry, ReleaseMember;
    var x := Screen(s, r);
    if x.Some? { assert Ground(s, r, x.value) && forall b :: Turn(b) < Turn(x.value) ==> !Ground(s, r, b); }
  }

  lemma RetryRequeues(s: State, id: Id, w: Id, now: Time)
    requires id in s.requests
    ensures Alone(s, MakeRetry(s, id, w, now), id) && MakeRetry(s, id, w, now).cfg == s.cfg
    ensures Requeued(s.requests[id], MakeRetry(s, id, w, now).requests[id], now)
  {
    hide ReleaseMember, Insert, Push;
  }

  lemma FinishCloses(s: State, id: Id, w: Id, st: RequestState, a: AttemptState)
    requires id in s.requests && st != RequestState.Cancelled
    ensures Alone(s, Finish(s, id, w, st, a), id) && Finish(s, id, w, st, a).cfg == s.cfg
    ensures ClosedAs(s.requests[id], Finish(s, id, w, st, a).requests[id], st, a)
    ensures w in s.fleet.workers ==> Finish(s, id, w, st, a).requests[id].batch == None
  {
    hide ReleaseMember;
  }

  lemma NotBoth(rec: Request, rec1: Request, now: Time)
    requires ClosedAs(rec, rec1, RequestState.Failed, AttemptFailed)
    ensures !Requeued(rec, rec1, now)
  {
  }

  /** A failed or ambiguous outcome puts the request back into the queue under a new attempt exactly when the
      failure is one of transport or worker, or an ambiguous dispatch where those are retried, and another attempt
      may be made: no cancellation, attempts left, deadline ahead. Otherwise the request has failed. */
  lemma FailureExact(s: State, r: Report, now: Time)
    requires Screen(s, r).None? && (r.status == FailedStatus || r.status == Ambiguous)
    ensures Alone(s, Complete(s, r, now), r.request) && CompleteAnswer(s, r) == Accepted
    ensures var rec, rec1 := s.requests[r.request], Complete(s, r, now).requests[r.request];
            && (Requeued(rec, rec1, now) <==>
                  && (|| r.failure == RetryableTransport || r.failure == RetryableWorker
                      || (r.failure == AmbiguousDispatch && s.cfg.retryOnAmbiguous))
                  && !rec.cancelRequested && !rec.cancelCommitted
                  && |rec.history| < s.cfg.maxAttempts
                  && (rec.spec.deadline.None? || now < rec.spec.deadline.value))
            && (!Requeued(rec, rec1, now) ==>
                ClosedAs(rec, rec1, RequestState.Failed, AttemptFailed) && rec1.batch == None)
  {
    hide MakeRetry, Finish, FinishCancelled, ReleaseMember, Requeued, ClosedAs;
    RetryRequeues(s, r.request, r.worker, now);
    FinishCloses(s, r.request, r.worker, RequestState.Failed, AttemptFailed);
    NotBoth(s.requests[r.request], Finish(s, r.request, r.worker, RequestState.Failed,
        AttemptFailed).requests[r.request], now);
  }

  /** A new attempt has an identifier that no attempt of the request had before. */
  lemma NewAttempt(s: State, r: Report, now: Time, i: nat)
    requires RecordsOk(s) && Screen(s, r).None?
    requires Requeued(s.requests[r.request], Complete(s, r, now).requests[r.request], now)
    requires i < |s.requests[r.request].history|
    ensures Complete(s, r, now).requests[r.request].attempt != s.requests[r.request].history[i].id
  {
    CompleteProgress(s, r, now);
    hide Complete;
    var rec, rec1 := s.requests[r.request], Complete(s, r, now).requests[r.request];
    assert RecordOk(s.cfg, Complete(s, r, now).issued, rec1);
    assert Evolves(s.cfg, rec, rec1);
    assert rec1.history[i].id == rec.history[i].id;
  }

  /** The other outcomes. A success completes the request, unless its cancellation was requested: then it counts as
      cancelled. A cancelled outcome cancels, an expired one expires. A stale one only marks the attempt. */
  lemma OutcomeExact(s: State, r: Report, now: Time)
    requires Screen(s, r).None? && r.status != FailedStatus && r.status != Ambiguous
    ensures Alone(s, Complete(s, r, now), r.request)
    ensures var rec, rec1 := s.requests[r.request], Complete(s, r, now).requests[r.request];
            match r.status
            case Succeeded =>
              if rec.cancelRequested
              then ClosedAs(rec, rec1, RequestState.Cancelled, AttemptCancelled)
                  && CompleteAnswer(s, r) == CancelledOutcome
              else ClosedAs(rec, rec1, RequestState.Completed, AttemptSucceeded) && CompleteAnswer(s, r) == Accepted
            case CancelledStatus =>
              ClosedAs(rec, rec1, RequestState.Cancelled, AttemptCancelled) && CompleteAnswer(s, r) == Accepted
            case ExpiredStatus =>
              ClosedAs(rec, rec1, RequestState.Expired, AttemptExpired) && CompleteAnswer(s, r) == Accepted
            case _ =>
              ClosedAs(rec, rec1, rec.state, AttemptStale) && CompleteAnswer(s, r) == StaleAttempt
    ensures RecordsOk(s) ==> Complete(s, r, now).requests[r.request].batch == None
  {
    hide ReleaseMember, Remove;
  }

  // ----- starts -----

  /** The ground on which a start report is turned away, in the order in which they are looked for. */
  predicate StartGround(s: State, r: Report, i: nat) {
    match i
    case 0 => r.epoch != s.epoch
    case 1 => r.request !in s.requests
    case 2 =>
      r.request in s.requests && (s.requests[r.request].attempt != r.attempt
          || s.requests[r.request].generation != r.generation)
    case 3 => r.request in s.requests && s.requests[r.request].state != RequestState.Reserved
    case 4 => r.worker !in s.fleet.workers || s.fleet.workers[r.worker].boot != r.boot
    case 5 =>
      r.worker in s.fleet.workers && (|| s.fleet.workers[r.worker].state == Offline
                                      || s.fleet.workers[r.worker].state == Unhealthy
                                      || s.fleet.workers[r.worker].state == Drained)
    case 6 => r.request in s.requests && s.requests[r.request].batch == None
    case _ => false
  }

  const START_CODES: seq<ErrorCode> :=
    [ErrStaleEpoch, NotFound, ErrStaleAttempt, InvalidState, ErrStaleWorker, InvalidState, InvalidState]

  /** A start is confirmed exactly when no ground speaks against it; otherwise the code is that of the first ground,
      and nothing changes. */
  lemma StartExact(s: State, r: Report, i: nat)
    ensures ConfirmAnswer(s, r) == Confirmed <==> forall j: nat :: j < |START_CODES| ==> !StartGround(s, r, j)
    ensures i < |START_CODES| && StartGround(s, r, i) && (forall j: nat :: j < i ==> !StartGround(s, r, j)) ==>
              ConfirmAnswer(s, r) == Refused(START_CODES[i]) && Confirm(s, r) == s
  {
    hide StartBatch;
    assert ConfirmAnswer(s, r) != Confirmed ==>
             || StartGround(s, r, 0) || StartGround(s, r, 1) || StartGround(s, r, 2) || StartGround(s, r, 3)
             || StartGround(s, r, 4) || StartGround(s, r, 5) || StartGround(s, r, 6);
  }

  /** A confirmed start: the request runs on the reporting worker, which has it in flight and is busy now if it was
      online. The worker's availability is the reported one, if one was reported. The units of the batch move from
      reserved to running with its first member; no other worker, and nothing of the queue, changes. */
  lemma StartedExact(s: State, r: Report)
    requires ConfirmAnswer(s, r) == Confirmed
    ensures var s1 := Confirm(s, r);
            && Alone(s, s1, r.request) && s1 == s.(requests := s1.requests, fleet := s1.fleet)
            && var rec, rec1 := s.requests[r.request], s1.requests[r.request];
            && rec1.state == RequestState.Running && rec1 == rec.(state := rec1.state, history := rec1.history)
            && |rec1.history| == |rec.history|
            && (rec.history != [] ==>
                  var n := |rec.history| - 1;
                  && rec1.history[..n] == rec.history[..n]
                  && rec1.history[n] == rec.history[n].(state := AttemptRunning, worker := r.worker))
    ensures var s1 := Confirm(s, r);
            && s1.fleet.workers.Keys == s.fleet.workers.Keys
            && (forall v :: v in s.fleet.workers && v != r.worker ==> s1.fleet.workers[v] == s.fleet.workers[v])
            && var b, wr, wr1 := s.requests[r.request].batch.value, s.fleet.workers[r.worker],
                s1.fleet.workers[r.worker];
            && var moved := if b !in wr.started && b in wr.batchUnits then wr.batchUnits[b] else 0;
            && wr1.inFlight == wr.inFlight + {r.request} && wr1.started == wr.started + {b}
            && wr1.state == (if wr.state == Online then Busy else wr.state)
            && wr1.available == (if r.available >= 0 then r.available else wr.available)
            && wr1.reserved == wr.reserved - moved && wr1.running == wr.running + moved
            && s1.fleet.reserved == s.fleet.reserved - moved && s1.fleet.running == s.fleet.running + moved
            && wr1.batchUnits == wr.batchUnits && wr1.batchPending == wr.batchPending
            && wr1.boot == wr.boot && wr1.capability == wr.capability
  {
  }

  // ----- cancellations -----

  /** Cancelling an unknown or closed request is refused and changes nothing. A running one is only marked, and
      stays with its worker; every other one is cancelled at once and leaves the queue. */
  lemma CancelExact(s: State, id: Id)
    ensures CancelAnswer(s, id) == CancelRefused(NotFound) <==> id !in s.requests
    ensures CancelAnswer(s, id) == CancelRefused(InvalidState) <==> id in s.requests && Closed(s.requests[id])
    ensures CancelAnswer(s, id) != CancelAccepted ==> Cancel(s, id) == s
    ensures CancelAnswer(s, id) == CancelAccepted ==>
              var s1, rec := Cancel(s, id), s.requests[id];
              && Alone(s, s1, id)
              && if rec.state == RequestState.Running || rec.state == RequestState.Dispatched
                 then s1 == s.(requests := s1.requests) && s1.requests[id] == rec.(cancelRequested := true)
                 else ClosedAs(rec, s1.requests[id], RequestState.Cancelled, AttemptCancelled) && id !in s1.index.queued
  {
    hide ReleaseMember;
  }

  lemma {:induction false} CancelAllEffect(s: State, order: seq<Id>, id: Id)
    ensures id in CancelAll(s, order).requests <==> id in s.requests
    ensures id in s.requests && (id !in order || Closed(s.requests[id])) ==>
              CancelAll(s, order).requests[id] == s.requests[id]
    ensures id in s.requests && id in order && !Closed(s.requests[id]) ==>
              ClosedAs(s.requests[id], CancelAll(s, order).requests[id], RequestState.Cancelled, AttemptCancelled)
    decreases |order|
  {
    if order != [] {
      var s1 := if order[0] in s.requests then FinishCancelled(s, order[0], NO_ID) else s;
      CancelAllEffect(s1, order[1..], id);
      assert id in order <==> id == order[0] || id in order[1..];
      hide ReleaseMember, Remove, CancelAll;
    }
  }

  /** Cancelling everything queued cancels exactly the queued requests and leaves the queue empty. */
  lemma CancelAllExact(s: State, order: seq<Id>, id: Id)
    requires QueueOk(s) && Enumerates(order, s.index.queued) && id in s.requests
    ensures var s1 := CancelAll(s, order);
            && s1.index.queued == {} && s1.index.size == 0 && QueuedIds(s1.requests) == {}
            && id in s1.requests
            && if s.requests[id].state == RequestState.Queued
               then ClosedAs(s.requests[id], s1.requests[id], RequestState.Cancelled, AttemptCancelled)
               else s1.requests[id] == s.requests[id]
  {
    CancelAllQueue(s, order);
    hide CancelAll;
    forall i ensures i !in QueuedIds(CancelAll(s, order).requests) { CancelAllEffect(s, order, i); }
    CancelAllEffect(s, order, id);
  }

  // ----- lost workers -----

  /** Every open request in flight on a lost worker is queued again under a new attempt if another may be made, and
      has failed if not. No other request changes. */
  lemma {:induction false} LostExact(s: State, w: Id, order: seq<Id>, now: Time, id: Id)
    requires Distinct(order) && id in s.requests
    ensures var s1 := RecoverRequests(s, w, order, now);
            && id in s1.requests
            && var rec, rec1 := s.requests[id], s1.requests[id];
            && (id !in order || Closed(rec) ==> rec1 == rec)
            && (id in order && !Closed(rec) ==>
                  if MayTryAgain(s.cfg, rec, now) then Requeued(rec, rec1, now)
                  else ClosedAs(rec, rec1, RequestState.Failed, AttemptFailed))
    decreases |order|
  {
    if order != [] {
      var s1 := RecoverOne(s, w, order[0], now);
      LostOne(s, w, order[0], now, id);
      hide RecoverOne, Requeued, ClosedAs, MayTryAgain, Closed;
      assert id in order <==> id == order[0] || id in order[1..];
      LostExact(s1, w, order[1..], now, id);
    }
  }

  lemma LostOne(s: State, w: Id, lost: Id, now: Time, id: Id)
    requires id in s.requests
    ensures var s1 := RecoverOne(s, w, lost, now);
            && id in s1.requests && s1.cfg == s.cfg
            && var rec, rec1 := s.requests[id], s1.requests[id];
            && (id != lost || Closed(rec) ==> rec1 == rec)
            && (id == lost && !Closed(rec) ==>
                  if MayTryAgain(s.cfg, rec, now) then Requeued(rec, rec1, now)
                  else ClosedAs(rec, rec1, RequestState.Failed, AttemptFailed))
  {
    hide Finish, MakeRetry, Requeued, ClosedAs;
    if lost in s.requests {
      RetryRequeues(s, lost, w, now);
      FinishCloses(s, lost, w, RequestState.Failed, AttemptFailed);
    }
  }

  lemma ReleasedElsewhere(f: Fleet, w: Id, id: Id, batch: Option<Id>, v: Id)
    requires v != w
    ensures ReleaseMember(f, w, id, batch).workers.Keys == f.workers.Keys
    ensures v in f.workers ==> ReleaseMember(f, w, id, batch).workers[v] == f.workers[v]
  {
  }

  lemma LostElsewhere(s: State, w: Id, lost: Id, now: Time, v: Id)
    requires v != w
    ensures RecoverOne(s, w, lost, now).fleet.workers.Keys == s.fleet.workers.Keys
    ensures v in s.fleet.workers ==> RecoverOne(s, w, lost, now).fleet.workers[v] == s.fleet.workers[v]
  {
    hide Insert, Push;
    if lost in s.requests { ReleasedElsewhere(s.fleet, w, lost, s.requests[lost].batch, v); }
    hide ReleaseMember;
  }

  lemma {:induction false} RecoveredElsewhere(s: State, w: Id, order: seq<Id>, now: Time, v: Id)
    requires v != w
    ensures RecoverRequests(s, w, order, now).fleet.workers.Keys == s.fleet.workers.Keys
    ensures v in s.fleet.workers ==> RecoverRequests(s, w, order, now).fleet.workers[v] == s.fleet.workers[v]
    decreases |order|
  {
    if order != [] {
      LostElsewhere(s, w, order[0], now, v);
      hide RecoverOne;
      RecoveredElsewhere(RecoverOne(s, w, order[0], now), w, order[1..], now, v);
    }
  }

  /** What becomes of request id when worker w is lost. */
  ghost predicate LostWith(s: State, s1: State, w: Id, now: Time, id: Id) {
    && id in s.requests && id in s1.requests && w in s.fleet.workers
    && var rec, rec1 := s.requests[id], s1.requests[id];
    && if id in s.fleet.workers[w].inFlight && !Closed(rec)
       then if MayTryAgain(s.cfg, rec, now) then Requeued(rec, rec1, now)
            else ClosedAs(rec, rec1, RequestState.Failed, AttemptFailed)
       else rec1 == rec
  }

  lemma WorkerLost(s: State, w: Id, now: Time, order: seq<Id>, id: Id, v: Id)
    requires w in s.fleet.workers && Enumerates(order, InFlightOn(s, w)) && id in s.requests && v != w
    ensures var s1 := RecoverInFlight(s, w, order, now);
            && LostWith(s, s1, w, now, id)
            && s1.fleet.workers.Keys == s.fleet.workers.Keys
            && (v in s.fleet.workers ==> s1.fleet.workers[v] == s.fleet.workers[v])
            && s1.fleet.workers[w].inFlight == {} && s1.fleet.workers[w].batchUnits == map[]
            && s1.fleet.workers[w].batchPending == map[] && s1.fleet.workers[w].started == {}
  {
    hide RecoverRequests;
    LostExact(s, w, order, now, id);
    RecoveredElsewhere(s, w, order, now, v);
    hide MayTryAgain, Requeued, ClosedAs, Closed;
  }

  /** A registration: the worker has the boot identity and the capability registered, all of it available, and is
      online if it did not say otherwise. A known worker with another boot identity has lost what it had in flight;
      in every other case no request changes and the bookings stay. Other workers are not touched. */
  lemma RegisteredExact(s: State, reg: Registration, now: Time, order: seq<Id>, id: Id, v: Id)
    requires Enumerates(order, InFlightOn(s, reg.worker)) && id in s.requests && v != reg.worker
    ensures var s1 := Register(s, reg, now, order);
            && s1.fleet.workers.Keys == s.fleet.workers.Keys + {reg.worker}
            && (v in s.fleet.workers ==> s1.fleet.workers[v] == s.fleet.workers[v])
            && var wr1 := s1.fleet.workers[reg.worker];
            && wr1.boot == reg.boot && wr1.capability == reg.capability && wr1.available == reg.capability.available
            && wr1.state == (if reg.state == Unknown || reg.state == Booted then Online else reg.state)
            && if reg.worker in s.fleet.workers && reg.worker != NO_ID && s.fleet.workers[reg.worker].boot != reg.boot
               then LostWith(s, s1, reg.worker, now, id) && wr1.inFlight == {} && wr1.batchUnits == map[]
               else && s1.requests == s.requests
                    && if reg.worker in s.fleet.workers
                       then wr1.inFlight == s.fleet.workers[reg.worker].inFlight &&
                            wr1.batchUnits == s.fleet.workers[reg.worker].batchUnits
                       else wr1.inFlight == {} && wr1.batchUnits == map[]
  {
    hide RecoverInFlight, LostWith;
    if IsRestart(s, reg) {
      WorkerLost(s, reg.worker, now, order, id, v);
      SameLoss(s, RecoverInFlight(s, reg.worker, order, now), Register(s, reg, now, order), reg.worker, now, id);
    }
  }

  lemma SameLoss(s: State, s1: State, s2: State, w: Id, now: Time, id: Id)
    requires LostWith(s, s1, w, now, id) && s2.requests == s1.requests
    ensures LostWith(s, s2, w, now, id)
  {
    hide MayTryAgain, Requeued, ClosedAs, Closed;
  }

  /** Removing a worker loses what it had in flight, and the worker. */
  lemma RemovedExact(s: State, w: Id, now: Time, order: seq<Id>, id: Id, v: Id)
    requires Enumerates(order, InFlightOn(s, w)) && id in s.requests && v != w
    ensures var s1 := Unregister(s, w, now, order);
            && s1.fleet.workers.Keys == s.fleet.workers.Keys - {w}
            && (v in s.fleet.workers ==> s1.fleet.workers[v] == s.fleet.workers[v])
            && if w in s.fleet.workers then LostWith(s, s1, w, now, id) else s1 == s
  {
    hide RecoverInFlight, LostWith;
    if w in s.fleet.workers {
      WorkerLost(s, w, now, order, id, v);
      SameLoss(s, RecoverInFlight(s, w, order, now), Unregister(s, w, now, order), w, now, id);
    }
  }

  // ----- what a worker holds -----

  /** A request leaves a worker. It is no longer in flight there. A batch with other members pending keeps its units
      and has one pending member less. With its last pending member a batch is forgotten, and its units come off the
      side they are booked on, but not below zero; a busy worker left without units is online again. */
  lemma ReleasedExact(f: Fleet, w: Id, id: Id, b: Id)
    requires w in f.workers && b in f.workers[w].batchUnits && b in f.workers[w].batchPending
    ensures var f1, r := ReleaseMember(f, w, id, Some(b)), f.workers[w];
            && f1.workers.Keys == f.workers.Keys && (forall v :: v in f.workers && v != w ==>
                f1.workers[v] == f.workers[v])
            && var r1 := f1.workers[w];
            && r1.inFlight == r.inFlight - {id} && r1.boot == r.boot && r1.capability == r.capability
            && r1.available == r.available
            && if r.batchPending[b] > 1
               then && r1 == r.(inFlight := r1.inFlight, batchPending := r.batchPending[b := r.batchPending[b] - 1])
                    && f1.reserved == f.reserved && f1.running == f.running
               else && b !in r1.batchUnits && b !in r1.batchPending && b !in r1.started
                    && var units := r.batchUnits[b];
                    && r1.running == Max(0, if b in r.started then r.running - units else r.running)
                    && r1.reserved == Max(0, if b in r.started then r.reserved else r.reserved - units)
                    && f1.running == Max(0, if b in r.started then f.running - units else f.running)
                    && f1.reserved == Max(0, if b in r.started then f.reserved else f.reserved - units)
                    && r1.state == (if r1.running == 0 && r1.reserved == 0 && r.state == Busy then Online else r.state)
  {
  }

  /** A new capability replaces the old one and says what is available. A new state replaces the old one;
      availability changes only with a snapshot. Nothing else of the scheduler changes, nor anything for an unknown
      worker. */
  lemma UpdatedExact(s: State, w: Id, cap: Capability, st: WorkerState, available: Option<int>)
    ensures w !in s.fleet.workers ==> UpdateCapability(s, w, cap) == s && SetWorkerState(s, w, st, available) == s
    ensures w in s.fleet.workers ==>
              var r, s1, s2 := s.fleet.workers[w], UpdateCapability(s, w, cap), SetWorkerState(s, w, st, available);
              && s1 == s.(fleet := s.fleet.(workers := s.fleet.workers[w := s1.fleet.workers[w]]))
              && s1.fleet.workers[w] == r.(capability := cap, available := cap.available)
              && s2 == s.(fleet := s.fleet.(workers := s.fleet.workers[w := s2.fleet.workers[w]]))
              && s2.fleet.workers[w].state == st
              && s2.fleet.workers[w].available == (if available.Some? then available.value else r.available)
              && s2.fleet.workers[w] == r.(state := st, available := s2.fleet.workers[w].available)
  {
  }
}
