/** Where batches and units go astray: exactly when a report from a worker that
    does not hold the batch and the cancellation of a reserved request keep the
    batches right, and what happens when not. */
module Leaks {
  import opened Types
  import opened Collections
  import opened ReadyQueue
  import opened Fleets
  import opened Batching
  import opened Machine
  import opened Lifecycle
  import opened Protocol
  import opened Reservations
  import opened Baseline

  // ----- a member leaves through some worker -----

  /** The batch of request id is released through worker w, which may not be the one holding it.
      The batches stay right exactly when it is. */
  lemma ReleaseExact(s: State, s1: State, handed: set<Handout>, w: Id, id: Id, rec: Request)
    requires BaselineOk(s, handed) && id in s.requests && s.requests[id].batch.Some? && w in s.fleet.workers
    requires s1.requests == s.requests[id := rec] && rec.batch == None
    requires s1.fleet == ReleaseMember(s.fleet, w, id, s.requests[id].batch)
    ensures BaselineOk(s1, handed) <==> s.requests[id].batch.value in s.fleet.workers[w].batchUnits
  {
    if s.requests[id].batch.value in s.fleet.workers[w].batchUnits {
      hide BatchesOk, ReleaseMember;
      ReleasedBatches(s.requests, s.fleet, handed, w, id, rec);
    } else {
      ReleaseBreaks(s, s1, handed, w, id, rec);
    }
  }

  lemma ReleaseBreaks(s: State, s1: State, handed: set<Handout>, w: Id, id: Id, rec: Request)
    requires BaselineOk(s, handed) && id in s.requests && s.requests[id].batch.Some? && w in s.fleet.workers
    requires s1.requests == s.requests[id := rec] && rec.batch == None
    requires s1.fleet == ReleaseMember(s.fleet, w, id, s.requests[id].batch)
    requires s.requests[id].batch.value !in s.fleet.workers[w].batchUnits
    ensures !BaselineOk(s1, handed)
  {
    var rs, ws, b := s.requests, s.fleet.workers, s.requests[id].batch.value;
    assert MemberOk(rs, ws, handed, id);
    var v :| HoldsFor(rs, ws, handed, v, id);
    assert BatchOk(rs, ws, v, b) && BatchOk(rs, ws, w, b);
    MembersChange(rs, id, rec, b);
    assert id in Members(rs, b);
    assert s1.fleet.workers[v].batchUnits == ws[v].batchUnits && s1.fleet.workers[v].batchPending == ws[v].batchPending;
    assert !BatchOk(s1.requests, s1.fleet.workers, v, b);
  }

  // ----- reports from a worker that does not hold the batch -----

  /** Confirm does not look whether the reporting worker holds the request's batch. A start report that
      is taken keeps the batches right exactly when it does. */
  lemma ConfirmExact(s: State, handed: set<Handout>, r: Report)
    requires BaselineOk(s, handed) && ConfirmAnswer(s, r) == Confirmed
    ensures BaselineOk(Confirm(s, r), handed) <==>
            s.requests[r.request].batch.value in s.fleet.workers[r.worker].batchUnits
  {
    var rs, ws, s1, b := s.requests, s.fleet.workers, Confirm(s, r), s.requests[r.request].batch.value;
    if b in ws[r.worker].batchUnits {
      hide BatchesOk;
      KeptBatches(rs, ws, handed, r.request, s1.requests[r.request], s1.fleet.workers);
    } else {
      assert BatchOk(rs, ws, r.worker, b);
      assert b in s1.fleet.workers[r.worker].started && b !in s1.fleet.workers[r.worker].batchUnits;
      assert !BatchOk(s1.requests, s1.fleet.workers, r.worker, b);
    }
  }

  /** Request id is out of its batch and off worker w; the other requests stay. */
  ghost predicate Leaves(s: State, s1: State, w: Id, id: Id)
    requires id in s.requests
  {
    && id in s1.requests && s1.requests == s.requests[id := s1.requests[id]] && s1.requests[id].batch == None
    && s1.fleet == ReleaseMember(s.fleet, w, id, s.requests[id].batch)
  }

  lemma FinishLeaves(s: State, id: Id, w: Id, st: RequestState, a: AttemptState)
    requires id in s.requests && w in s.fleet.workers
    ensures Leaves(s, Finish(s, id, w, st, a), w, id)
  {
    hide ReleaseMember;
  }

  lemma CancelLeaves(s: State, id: Id, w: Id)
    requires id in s.requests && w in s.fleet.workers && Held(s.requests[id].state)
    ensures Leaves(s, FinishCancelled(s, id, w), w, id)
  {
    hide ReleaseMember, Remove;
  }

  lemma RetryLeaves(s: State, id: Id, w: Id, now: Time)
    requires id in s.requests
    ensures Leaves(s, MakeRetry(s, id, w, now), w, id)
  {
    RetryShape(s, id, w, now);
    hide ReleaseMember, MakeRetry;
  }

  lemma StaleLeaves(s: State, r: Report, now: Time)
    requires Screen(s, r).None? && r.status == Stale
    ensures Leaves(s, Complete(s, r, now), r.worker, r.request)
  {
    hide ReleaseMember;
  }

  /** A completion that passes the screen takes its request off the reporting worker. */
  lemma CompleteLeaves(s: State, r: Report, now: Time)
    requires Screen(s, r).None? && Held(s.requests[r.request].state)
    ensures Leaves(s, Complete(s, r, now), r.worker, r.request)
  {
    hide Leaves, Finish, FinishCancelled, MakeRetry, CanRetry, Retryable, ReleaseMember;
    if r.status == Stale {
      StaleLeaves(s, r, now);
    } else {
      CancelLeaves(s, r.request, r.worker);
      FinishLeaves(s, r.request, r.worker, RequestState.Completed, AttemptSucceeded);
      FinishLeaves(s, r.request, r.worker, RequestState.Expired, AttemptExpired);
      FinishLeaves(s, r.request, r.worker, RequestState.Failed, AttemptFailed);
      RetryLeaves(s, r.request, r.worker, now);
    }
  }

  /** Nor does complete: a completion of a request in a batch keeps the batches right exactly when the
      reporting worker holds the batch. */
  lemma CompleteExact(s: State, handed: set<Handout>, r: Report, now: Time)
    requires BaselineOk(s, handed) && Screen(s, r).None? && s.requests[r.request].batch.Some?
    ensures BaselineOk(Complete(s, r, now), handed) <==>
            s.requests[r.request].batch.value in s.fleet.workers[r.worker].batchUnits
  {
    assert MemberOk(s.requests, s.fleet.workers, handed, r.request);
    hide BaselineOk, Complete;
    CompleteLeaves(s, r, now);
    ReleaseExact(s, Complete(s, r, now), handed, r.worker, r.request, Complete(s, r, now).requests[r.request]);
  }

  // ----- cancelling a reserved request -----

  /** Cancelling a reserved request releases it from the worker recorded for its last attempt.
      That keeps the batches right exactly when the request is in no batch or that worker holds it. */
  lemma CancelReservedExact(s: State, handed: set<Handout>, id: Id)
    requires BaselineOk(s, handed) && id in s.requests && s.requests[id].state == RequestState.Reserved
    ensures BaselineOk(Cancel(s, id), handed) <==>
            (s.requests[id].batch.Some? ==>
               var w := LastWorker(s.requests[id].history);
               w in s.fleet.workers && s.requests[id].batch.value in s.fleet.workers[w].batchUnits)
  {
    var rs, ws, w, batch := s.requests, s.fleet.workers, LastWorker(s.requests[id].history), s.requests[id].batch;
    var s1 := Cancel(s, id);
    CancelReservedShape(s, id);
    hide Cancel;
    if batch == None {
      hide BatchesOk;
      IdleRelease(s.fleet, w, id);
      KeptBatches(rs, ws, handed, id, s1.requests[id], s1.fleet.workers);
    } else if w in ws {
      hide BaselineOk;
      ReleaseExact(s, s1, handed, w, id, s1.requests[id]);
    } else {
      assert !MemberOk(s1.requests, s1.fleet.workers, handed, id);
    }
  }

  lemma CancelReservedShape(s: State, id: Id)
    requires id in s.requests && s.requests[id].state == RequestState.Reserved
    ensures var w := LastWorker(s.requests[id].history);
            var s1 := Cancel(s, id);
            && id in s1.requests && s1.requests == s.requests[id := s1.requests[id]]
            && s1.requests[id].state == RequestState.Cancelled
            && s1.requests[id].batch == (if w in s.fleet.workers then None else s.requests[id].batch)
            && s1.fleet == ReleaseMember(s.fleet, w, id, s.requests[id].batch)
  {
    hide ReleaseMember, Remove;
  }

  /** Nothing is ever handed to the invalid worker id. */
  lemma {:induction false} HandedToSomebody(tr: Trace, i: nat)
    requires IsRun(tr) && i < |tr.states|
    ensures forall h :: h in Handed(tr, i) ==> h.worker != NO_ID
  {
    hide Step;
    if i > 0 {
      HandedToSomebody(tr, i - 1);
      assert Step(tr.states[i - 1], tr.events[i - 1], tr.states[i]);
      HandsToSomebody(tr.states[i - 1], tr.events[i - 1], tr.states[i]);
    }
  }

  lemma HandsToSomebody(s: State, e: Event, s1: State)
    requires Step(s, e, s1)
    ensures forall h :: h in HandedBy(e, s1) ==> h.worker != NO_ID
  {
    hide ExpireAll, IsBatch, Reserve, BatchUnits, BatchCost, Eligible;
  }

  lemma NobodyHolds(s: State, handed: set<Handout>, id: Id)
    requires BaselineOk(s, handed) && id in s.requests && s.requests[id].batch.Some?
    requires forall h :: h in handed ==> h.worker != NO_ID
    ensures !(NO_ID in s.fleet.workers && s.requests[id].batch.value in s.fleet.workers[NO_ID].batchUnits)
  {
    var rs, ws := s.requests, s.fleet.workers;
    assert MemberOk(rs, ws, handed, id);
    var v :| HoldsFor(rs, ws, handed, v, id);
    assert BatchOk(rs, ws, v, rs[id].batch.value);
  }

  lemma CancelUnplacedExact(s: State, handed: set<Handout>, id: Id)
    requires RecordsOk(s) && BaselineOk(s, handed) && id in s.requests && s.requests[id].state == RequestState.Reserved
    requires forall h :: h in handed ==> h.worker != NO_ID
    ensures BaselineOk(Cancel(s, id), handed) <==> s.requests[id].batch.None?
  {
    assert RecordOk(s.cfg, s.issued, s.requests[id]);
    hide RecordsOk, BaselineOk, Cancel;
    CancelReservedExact(s, handed, id);
    if s.requests[id].batch.Some? { NobodyHolds(s, handed, id); }
  }

  /** Over runs the worker of a reserved request is not yet recorded: cancelling it keeps the batches right
      exactly when it is in no batch any more. */
  lemma CancelReservedInRuns(tr: Trace, i: nat, id: Id)
    requires OrderlyRun(tr) && i < |tr.states| == |tr.events| + 1
    requires id in tr.states[i].requests && tr.states[i].requests[id].state == RequestState.Reserved
    ensures BaselineOk(Cancel(tr.states[i], id), Handed(tr, i)) <==> tr.states[i].requests[id].batch.None?
  {
    OrderlyState(tr, i);
    HandedToSomebody(tr, i);
    hide OrderlyRun, Handed, RecordsOk, UnitsOk, BaselineOk, QueueOk, FlightsOk, HandedOk, HandedOnce, Cancel;
    CancelUnplacedExact(tr.states[i], Handed(tr, i), id);
  }

  // ----- what such a cancellation costs -----

  /** The requests of batch b that are not over. */
  ghost function OpenMembers(rs: map<Id, Request>, b: Id): set<Id> {
    set id | id in rs && rs[id].batch == Some(b) && !IsTerminal(rs[id].state)
  }

  /** Worker w holds batch b, and counts more members pending in it than can still leave it. */
  ghost predicate Overbooked(s: State, w: Id, b: Id, units: int) {
    && w in s.fleet.workers && b in s.fleet.workers[w].batchUnits && s.fleet.workers[w].batchUnits[b] == units
    && b in s.fleet.workers[w].batchPending && s.fleet.workers[w].batchPending[b] > |OpenMembers(s.requests, b)|
  }

  /** The batch is on the worker as before, and no request joined it. */
  lemma StaysOverbooked(s: State, s1: State, w: Id, b: Id, units: int)
    requires Overbooked(s, w, b, units) && OpenMembers(s1.requests, b) <= OpenMembers(s.requests, b)
    requires w in s1.fleet.workers && b in s1.fleet.workers[w].batchUnits && s1.fleet.workers[w].batchUnits[b] == units
    requires b in s1.fleet.workers[w].batchPending
        && s1.fleet.workers[w].batchPending[b] == s.fleet.workers[w].batchPending[b]
    ensures Overbooked(s1, w, b, units)
  {
    SubsetSize(OpenMembers(s1.requests, b), OpenMembers(s.requests, b));
  }

  /** A request left through some worker. If it was pending in this batch it was one of the members. */
  lemma LeftOverbooked(s: State, s1: State, w: Id, b: Id, units: int, v: Id, id: Id, rec: Request)
    requires Overbooked(s, w, b, units) && id in s.requests && !IsTerminal(s.requests[id].state)
    requires s1.requests == s.requests[id := rec] && (rec.batch == None || IsTerminal(rec.state))
    requires s1.fleet == ReleaseMember(s.fleet, v, id, s.requests[id].batch)
    ensures Overbooked(s1, w, b, units)
  {
    hide IsTerminal;
    assert OpenMembers(s1.requests, b) == OpenMembers(s.requests, b) - {id};
    if s.requests[id].batch == Some(b) {
      assert id in OpenMembers(s.requests, b);
      assert |OpenMembers(s1.requests, b)| == |OpenMembers(s.requests, b)| - 1;
      hide OpenMembers;
    } else {
      assert OpenMembers(s1.requests, b) == OpenMembers(s.requests, b);
      hide OpenMembers;
      OtherBatchKept(s.fleet, v, id, s.requests[id].batch, w, b);
    }
  }

  lemma OtherBatchKept(f: Fleet, v: Id, id: Id, batch: Option<Id>, w: Id, b: Id)
    requires w in f.workers && b in f.workers[w].batchUnits && b in f.workers[w].batchPending && batch != Some(b)
    ensures var r := ReleaseMember(f, v, id, batch).workers;
            && w in r && b in r[w].batchUnits && r[w].batchUnits[b] == f.workers[w].batchUnits[b]
            && b in r[w].batchPending && r[w].batchPending[b] == f.workers[w].batchPending[b]
  {
  }

  lemma FinishOverbooked(s: State, id: Id, v: Id, st: RequestState, a: AttemptState, w: Id, b: Id, units: int)
    requires Overbooked(s, w, b, units) && id in s.requests && !IsTerminal(s.requests[id].state) && IsTerminal(st)
    ensures Overbooked(Finish(s, id, v, st, a), w, b, units)
  {
    hide Overbooked, ReleaseMember;
    LeftOverbooked(s, Finish(s, id, v, st, a), w, b, units, v, id, Finish(s, id, v, st, a).requests[id]);
  }

  lemma CancelledOverbooked(s: State, id: Id, v: Id, w: Id, b: Id, units: int)
    requires Overbooked(s, w, b, units) && id in s.requests
    ensures Overbooked(FinishCancelled(s, id, v), w, b, units)
  {
    hide ReleaseMember, Remove;
    var s1 := FinishCancelled(s, id, v);
    if !IsTerminal(s.requests[id].state) {
      if s1.fleet == s.fleet {
        StaysOverbooked(s, s1, w, b, units);
      } else {
        hide Overbooked;
        LeftOverbooked(s, s1, w, b, units, v, id, s1.requests[id]);
      }
    }
  }

  lemma CompleteOverbooked(s: State, r: Report, now: Time, w: Id, b: Id, units: int)
    requires Overbooked(s, w, b, units)
    ensures Overbooked(Complete(s, r, now), w, b, units)
  {
    hide Overbooked, Finish, FinishCancelled, MakeRetry, CanRetry, Retryable, ReleaseMember;
    if Screen(s, r).None? {
      var id, v := r.request, r.worker;
      if r.status == Stale {
        StaleLeaves(s, r, now);
        LeftOverbooked(s, Complete(s, r, now), w, b, units, v, id, Complete(s, r, now).requests[id]);
      } else {
        CancelledOverbooked(s, id, v, w, b, units);
        FinishOverbooked(s, id, v, RequestState.Completed, AttemptSucceeded, w, b, units);
        FinishOverbooked(s, id, v, RequestState.Expired, AttemptExpired, w, b, units);
        FinishOverbooked(s, id, v, RequestState.Failed, AttemptFailed, w, b, units);
        RetryLeaves(s, id, v, now);
        LeftOverbooked(s, MakeRetry(s, id, v, now), w, b, units, v, id, MakeRetry(s, id, v, now).requests[id]);
      }
    }
  }

  lemma CancelOverbooked(s: State, id: Id, w: Id, b: Id, units: int)
    requires Overbooked(s, w, b, units)
    ensures Overbooked(Cancel(s, id), w, b, units)
  {
    hide FinishCancelled;
    if id in s.requests {
      CancelledOverbooked(s, id, LastWorker(s.requests[id].history), w, b, units);
      CancelledOverbooked(s, id, NO_ID, w, b, units);
      if Cancel(s, id).fleet == s.fleet && OpenMembers(Cancel(s, id).requests, b) <= OpenMembers(s.requests, b) {
        StaysOverbooked(s, Cancel(s, id), w, b, units);
      }
    }
  }

  lemma {:induction false} CancelAllOverbooked(s: State, order: seq<Id>, w: Id, b: Id, units: int)
    requires Overbooked(s, w, b, units)
    ensures Overbooked(CancelAll(s, order), w, b, units)
    decreases |order|
  {
    hide Overbooked, FinishCancelled;
    if order != [] {
      if order[0] in s.requests { CancelledOverbooked(s, order[0], NO_ID, w, b, units); }
      CancelAllOverbooked(if order[0] in s.requests then FinishCancelled(s, order[0], NO_ID)
          else s, order[1..], w, b, units);
    }
  }

  lemma ExpireAllOverbooked(s: State, order: seq<Id>, w: Id, b: Id, units: int)
    requires Overbooked(s, w, b, units)
    ensures Overbooked(ExpireAll(s, order), w, b, units)
  {
    ExpireAllFrame(s, order);
    var s1 := ExpireAll(s, order);
    hide ExpireAll;
    forall id | id in OpenMembers(s1.requests, b) ensures id in OpenMembers(s.requests, b)
        { ExpireAllEffect(s, order, id); }
    StaysOverbooked(s, s1, w, b, units);
  }

  /** Dispatching opens another batch and moves requests only into that one. */
  lemma ReserveOverbooked(s: State, members: seq<Id>, v: Id, w: Id, b: Id, units: int)
    requires Overbooked(s, w, b, units) && Spent(s.cfg, s.issued, b) && v in s.fleet.workers && Distinct(members)
    requires forall i :: 0 <= i < |members| ==> members[i] in s.requests
    ensures Overbooked(Reserve(s, members, v), w, b, units)
  {
    var s0, s1 := Open(s, members, v), Reserve(s, members, v);
    ReserveAllFrame(s0, members, Fresh(s, 1));
    hide ReserveAll, BatchUnits;
    forall id | id in OpenMembers(s1.requests, b) ensures id in OpenMembers(s.requests, b) {
      ReserveAllEffect(s0, members, Fresh(s, 1), id);
    }
    StaysOverbooked(s, s1, w, b, units);
  }

  lemma PlanOverbooked(s: State, request: Id, now: Time, order: seq<Id>, out: PlanResult, s1: State, w: Id, b: Id,
      units: int)
    requires Plan(s, request, now, order, out, s1) && Overbooked(s, w, b, units) && Spent(s.cfg, s.issued, b)
    ensures Overbooked(s1, w, b, units)
  {
    hide Overbooked;
    var s0 := ExpireAll(s, order);
    ExpireAllOverbooked(s, order, w, b, units);
    ExpireAllFrame(s, order);
    if out.Dispatch? {
      var members, v :| PlanBatch(s0, request, now, members, v, out, s1);
      BatchMembers(s0.cfg, s0.requests, s0.index, request, now, members);
      ReserveOverbooked(s0, members, v, w, b, units);
    } else if request in s0.requests && s0.requests[request].spec.Overdue(now) {
      ExpireAllOverbooked(s0, [request], w, b, units);
      assert ExpireAll(s0, [request]) == ExpireAll(Expire(s0, request), []);
    }
  }

  lemma SubmitOverbooked(s: State, spec: Spec, pre: Option<Id>, now: Time, w: Id, b: Id, units: int)
    requires Overbooked(s, w, b, units) && FreshId(s, SubmitEvent(spec, pre, now))
    ensures Overbooked(Submit(s, spec, pre, now), w, b, units)
  {
    hide KeyWeight, Admission;
    StaysOverbooked(s, Submit(s, spec, pre, now), w, b, units);
  }

  lemma EditOverbooked(s: State, e: Event, s1: State, w: Id, b: Id, units: int)
    requires Step(s, e, s1) && KeepsWorkers(s, e) && Overbooked(s, w, b, units)
    requires e.RegisterEvent? || e.UnregisterEvent? || e.CapabilityEvent? || e.WorkerStateEvent? || e.DrainEvent?
        || e.EpochEvent?
    ensures Overbooked(s1, w, b, units)
  {
    hide RecoverInFlight, OpenMembers;
    assert s1.requests == s.requests;
    StaysOverbooked(s, s1, w, b, units);
  }

  lemma ConfirmOverbooked(s: State, r: Report, w: Id, b: Id, units: int)
    requires Overbooked(s, w, b, units)
    ensures Overbooked(Confirm(s, r), w, b, units)
  {
    if ConfirmAnswer(s, r) == Confirmed { StaysOverbooked(s, Confirm(s, r), w, b, units); }
  }

  lemma StepOverbooked(s: State, e: Event, s1: State, w: Id, b: Id, units: int)
    requires Step(s, e, s1) && FreshId(s, e) && KeepsWorkers(s, e) && Overbooked(s, w, b, units)
        && Spent(s.cfg, s.issued, b)
    ensures Overbooked(s1, w, b, units)
  {
    hide Submit, Plan, Complete, Cancel, CancelAll, Overbooked, KeepsWorkers, Register, Unregister, Confirm,
         UpdateCapability, SetWorkerState, FreshId, Pruned, Picked;
    match e
    case SubmitEvent(spec, pre, now) => SubmitOverbooked(s, spec, pre, now, w, b, units);
    case PickEvent(now, order, seed) =>
      ExpireAllOverbooked(s, order, w, b, units);
      SameOverbooked(ExpireAll(s, order), s1, w, b, units);
    case PlanEvent(request, now, order, out) => PlanOverbooked(s, request, now, order, out, s1, w, b, units);
    case ConfirmEvent(r) => ConfirmOverbooked(s, r, w, b, units);
    case CompleteEvent(r, now) => CompleteOverbooked(s, r, now, w, b, units);
    case CancelEvent(id) => CancelOverbooked(s, id, w, b, units);
    case CancelAllEvent(order) => CancelAllOverbooked(s, order, w, b, units);
    case _ => EditOverbooked(s, e, s1, w, b, units);
  }

  lemma SameOverbooked(s: State, s1: State, w: Id, b: Id, units: int)
    requires Overbooked(s, w, b, units) && s1.requests == s.requests && s1.fleet == s.fleet
    ensures Overbooked(s1, w, b, units)
  {
  }

  lemma {:induction false} OverbookedForGood(tr: Trace, i: nat, j: nat, w: Id, b: Id, units: int)
    requires SteadyRun(tr) && i <= j < |tr.states|
    requires Overbooked(tr.states[i], w, b, units) && Spent(tr.states[i].cfg, tr.states[i].issued, b)
    ensures Overbooked(tr.states[j], w, b, units)
    decreases j
  {
    hide Step, KeepsWorkers, Overbooked, FreshId;
    if i < j {
      OverbookedForGood(tr, i, j - 1, w, b, units);
      RunProgress(tr, i, j - 1);
      hide RecordsOk, Evolves;
      assert Step(tr.states[j - 1], tr.events[j - 1], tr.states[j]);
      StepOverbooked(tr.states[j - 1], tr.events[j - 1], tr.states[j], w, b, units);
    }
  }

  /** Right after the cancellation one member too many is pending. */
  lemma CancelOverbooks(s: State, handed: set<Handout>, id: Id, w: Id)
    requires RecordsOk(s) && BaselineOk(s, handed) && id in s.requests && s.requests[id].state == RequestState.Reserved
    requires (forall h :: h in handed ==> h.worker != NO_ID) && s.requests[id].batch.Some?
    requires HoldsFor(s.requests, s.fleet.workers, handed, w, id)
    ensures var b := s.requests[id].batch.value;
            Overbooked(Cancel(s, id), w, b, s.fleet.workers[w].batchUnits[b])
  {
    var rs, ws, b, s1 := s.requests, s.fleet.workers, s.requests[id].batch.value, Cancel(s, id);
    assert RecordOk(s.cfg, s.issued, rs[id]);
    assert BatchOk(rs, ws, w, b);
    NobodyHolds(s, handed, id);
    assert NO_ID in ws ==> BatchOk(rs, ws, NO_ID, b);
    CancelReservedShape(s, id);
    hide Cancel, RecordsOk, BaselineOk, RecordOk, HoldsFor, CancelAnswer;
    assert OpenMembers(s1.requests, b) <= Members(rs, b) - {id} && id in Members(rs, b);
    SubsetSize(OpenMembers(s1.requests, b), Members(rs, b) - {id});
    hide OpenMembers, Members;
    assert s1.fleet.workers[w].batchUnits == ws[w].batchUnits && s1.fleet.workers[w].batchPending == ws[w].batchPending;
  }

  /** Cancelling a reserved request that is in a batch leaves the batch on its worker, with all its units,
      in every state of every continuation in which no worker restarts or leaves. */
  lemma CancelledUnitsStayBooked(tr: Trace, i: nat, j: nat, id: Id, w: Id)
    requires SteadyRun(tr) && i < j < |tr.states| && tr.events[i] == CancelEvent(id)
    requires BaselineOk(tr.states[i], Handed(tr, i)) && id in tr.states[i].requests
    requires tr.states[i].requests[id].state == RequestState.Reserved && tr.states[i].requests[id].batch.Some?
    requires HoldsFor(tr.states[i].requests, tr.states[i].fleet.workers, Handed(tr, i), w, id)
    ensures var b := tr.states[i].requests[id].batch.value;
            && w in tr.states[j].fleet.workers && b in tr.states[j].fleet.workers[w].batchUnits
            && tr.states[j].fleet.workers[w].batchUnits[b] == tr.states[i].fleet.workers[w].batchUnits[b]
  {
    var s, b := tr.states[i], tr.states[i].requests[id].batch.value;
    RunRecordsOk(tr, i);
    RunUnits(tr, i);
    HandedToSomebody(tr, i);
    assert Step(s, tr.events[i], tr.states[i + 1]);
    hide SteadyRun, RecordsOk, BaselineOk, Conserved, Cancel, Handed;
    CancelOverbooks(s, Handed(tr, i), id, w);
    CancelKeepsIssued(s, id);
    hide Step;
    OverbookedForGood(tr, i + 1, j, w, b, s.fleet.workers[w].batchUnits[b]);
  }

  lemma CancelKeepsIssued(s: State, id: Id)
    ensures Cancel(s, id).cfg == s.cfg && Cancel(s, id).issued == s.issued
  {
    hide ReleaseMember, Remove;
  }
}
