/** Capacity units over whole runs: conservation, no oversubscription. */
module Reservations {
  import opened Types
  import opened Collections
  import opened ReadyQueue
  import opened Fleets
  import opened Batching
  import opened Machine
  import opened Lifecycle
  import opened Protocol

  /** No worker is restarted under another boot identity or removed in this step. */
  predicate KeepsWorkers(s: State, e: Event) {
    && !(e.RegisterEvent? && IsRestart(s, e.reg))
    && !(e.UnregisterEvent? && e.worker in s.fleet.workers)
  }

  ghost predicate IdsWithin(r: Worker, cfg: Config, issued: nat) {
    forall b :: b in r.batchUnits || b in r.started ==> Spent(cfg, issued, b)
  }

  /** No batch identifier in use is ever issued again. */
  ghost predicate BatchIdsIssued(s: State) {
    && (forall w :: w in s.fleet.workers ==> IdsWithin(s.fleet.workers[w], s.cfg, s.issued))
    && (forall id :: id in s.requests && s.requests[id].batch.Some? ==>
        Spent(s.cfg, s.issued, s.requests[id].batch.value))
  }

  ghost predicate UnitsOk(s: State) { Conserved(s.fleet) && BatchIdsIssued(s) }

  // ----- each operation -----

  /** No new batch appears on a worker. */
  ghost predicate BatchesShrink(f: Fleet, f1: Fleet) {
    && f1.workers.Keys == f.workers.Keys
    && forall w :: w in f.workers ==>
         f1.workers[w].batchUnits.Keys <= f.workers[w].batchUnits.Keys && f1.workers[w].started <= f.workers[w].started
  }

  lemma ReleaseShrinks(f: Fleet, w: Id, id: Id, batch: Option<Id>)
    ensures BatchesShrink(f, ReleaseMember(f, w, id, batch))
  {
  }

  /** One record changed, its batch staying or going, while batches at most disappear. */
  lemma UnitsKept(s: State, s1: State, id: Id, rec: Request)
    requires UnitsOk(s) && s1.cfg == s.cfg && s.issued <= s1.issued && s1.requests == s.requests[id := rec]
    requires Conserved(s1.fleet) && BatchesShrink(s.fleet, s1.fleet)
    requires rec.batch.None? || (id in s.requests && rec.batch == s.requests[id].batch)
    ensures UnitsOk(s1)
  {
    hide Conserved;
    forall v | v in s1.fleet.workers ensures IdsWithin(s1.fleet.workers[v], s1.cfg, s1.issued) {
      assert IdsWithin(s.fleet.workers[v], s.cfg, s.issued);
    }
  }

  lemma UnitsSame(s: State, s1: State)
    requires UnitsOk(s) && s1.cfg == s.cfg && s.issued <= s1.issued && s1.requests == s.requests && s1.fleet == s.fleet
    ensures UnitsOk(s1)
  {
  }

  lemma ExpireUnits(s: State, id: Id)
    requires UnitsOk(s) && id in s.requests
    ensures UnitsOk(Expire(s, id))
  {
    if s.requests[id].state == RequestState.Queued { UnitsKept(s, Expire(s, id), id, Expire(s, id).requests[id]); }
  }

  lemma {:induction false} ExpireAllUnits(s: State, order: seq<Id>)
    requires UnitsOk(s)
    ensures UnitsOk(ExpireAll(s, order))
    decreases |order|
  {
    if order != [] {
      if order[0] in s.requests { ExpireUnits(s, order[0]); }
      ExpireAllUnits(if order[0] in s.requests then Expire(s, order[0]) else s, order[1..]);
    }
  }

  lemma FinishUnits(s: State, id: Id, w: Id, st: RequestState, a: AttemptState)
    requires UnitsOk(s) && id in s.requests
    ensures UnitsOk(Finish(s, id, w, st, a))
  {
    ReleaseMemberConserves(s.fleet, w, id, s.requests[id].batch);
    ReleaseShrinks(s.fleet, w, id, s.requests[id].batch);
    UnitsKept(s, Finish(s, id, w, st, a), id, Finish(s, id, w, st, a).requests[id]);
  }

  lemma FinishCancelledUnits(s: State, id: Id, w: Id)
    requires UnitsOk(s) && id in s.requests
    ensures UnitsOk(FinishCancelled(s, id, w))
  {
    if !IsTerminal(s.requests[id].state) {
      ReleaseMemberConserves(s.fleet, w, id, s.requests[id].batch);
      ReleaseShrinks(s.fleet, w, id, s.requests[id].batch);
      UnitsKept(s, FinishCancelled(s, id, w), id, FinishCancelled(s, id, w).requests[id]);
    }
  }

  lemma {:induction false} CancelAllUnits(s: State, order: seq<Id>)
    requires UnitsOk(s)
    ensures UnitsOk(CancelAll(s, order))
    decreases |order|
  {
    if order != [] {
      if order[0] in s.requests { FinishCancelledUnits(s, order[0], NO_ID); }
      CancelAllUnits(if order[0] in s.requests then FinishCancelled(s, order[0], NO_ID) else s, order[1..]);
    }
  }

  lemma MakeRetryUnits(s: State, id: Id, w: Id, now: Time)
    requires UnitsOk(s) && id in s.requests
    ensures UnitsOk(MakeRetry(s, id, w, now))
  {
    RetryShape(s, id, w, now);
    ReleaseMemberConserves(s.fleet, w, id, s.requests[id].batch);
    ReleaseShrinks(s.fleet, w, id, s.requests[id].batch);
    UnitsKept(s, MakeRetry(s, id, w, now), id, MakeRetry(s, id, w, now).requests[id]);
  }

  lemma {:induction false} RecoverUnits(s: State, w: Id, order: seq<Id>, now: Time)
    requires UnitsOk(s)
    ensures UnitsOk(RecoverRequests(s, w, order, now))
    decreases |order|
  {
    if order != [] {
      if order[0] in s.requests {
        MakeRetryUnits(s, order[0], w, now);
        FinishUnits(s, order[0], w, RequestState.Failed, AttemptFailed);
      }
      RecoverUnits(RecoverOne(s, w, order[0], now), w, order[1..], now);
    }
  }

  lemma ConfirmIssued(s: State, r: Report)
    requires BatchIdsIssued(s)
    ensures BatchIdsIssued(Confirm(s, r))
  {
    if ConfirmAnswer(s, r) == Confirmed {
      forall v | v in Confirm(s, r).fleet.workers ensures IdsWithin(Confirm(s, r).fleet.workers[v], s.cfg, s.issued) {
        assert IdsWithin(s.fleet.workers[v], s.cfg, s.issued);
      }
    }
  }

  lemma ConfirmBooks(f: Fleet, w: Id, b: Id, id: Id, available: int)
    requires Conserved(f) && w in f.workers
    ensures var f1 := StartBatch(f, w, b);
            w in f1.workers && Conserved(f1.(workers := f1.workers[w := ConfirmedWorker(f1.workers[w], id, available)]))
  {
    hide Conserved;
    StartBatchConserves(f, w, b);
    SameBooks(StartBatch(f, w, b), w, ConfirmedWorker(StartBatch(f, w, b).workers[w], id, available));
  }

  lemma ConfirmUnits(s: State, r: Report)
    requires UnitsOk(s)
    ensures UnitsOk(Confirm(s, r))
  {
    hide BatchIdsIssued, Conserved;
    ConfirmIssued(s, r);
    if ConfirmAnswer(s, r) == Confirmed {
      hide ConfirmAnswer;
      ConfirmBooks(s.fleet, r.worker, s.requests[r.request].batch.value, r.request, r.available);
    }
  }

  lemma StaleUnits(s: State, r: Report, now: Time)
    requires UnitsOk(s) && Screen(s, r).None? && r.status == Stale
    ensures UnitsOk(Complete(s, r, now))
  {
    ReleaseMemberConserves(s.fleet, r.worker, r.request, s.requests[r.request].batch);
    ReleaseShrinks(s.fleet, r.worker, r.request, s.requests[r.request].batch);
    hide ReleaseMember, BatchesShrink, UnitsOk, Conserved;
    UnitsKept(s, Complete(s, r, now), r.request, Complete(s, r, now).requests[r.request]);
  }

  lemma CompleteUnits(s: State, r: Report, now: Time)
    requires UnitsOk(s)
    ensures UnitsOk(Complete(s, r, now))
  {
    hide UnitsOk, Finish, FinishCancelled, MakeRetry, CanRetry, ReleaseMember;
    if Screen(s, r).None? {
      if r.status == Stale {
        StaleUnits(s, r, now);
      } else if r.status == CancelledStatus || (r.status == Succeeded && s.requests[r.request].cancelRequested) {
        FinishCancelledUnits(s, r.request, r.worker);
      } else if r.status == Succeeded {
        FinishUnits(s, r.request, r.worker, RequestState.Completed, AttemptSucceeded);
      } else if r.status == ExpiredStatus {
        FinishUnits(s, r.request, r.worker, RequestState.Expired, AttemptExpired);
      } else if Retryable(s.cfg, r.failure) && CanRetry(s, s.requests[r.request], now) {
        MakeRetryUnits(s, r.request, r.worker, now);
      } else {
        FinishUnits(s, r.request, r.worker, RequestState.Failed, AttemptFailed);
      }
    }
  }

  lemma CancelUnits(s: State, id: Id)
    requires UnitsOk(s)
    ensures UnitsOk(Cancel(s, id))
  {
    if CancelAnswer(s, id) == CancelAccepted {
      var rec := s.requests[id];
      if rec.state == RequestState.Dispatched || rec.state == RequestState.Running {
        UnitsKept(s, Cancel(s, id), id, Cancel(s, id).requests[id]);
      } else if rec.state == RequestState.Reserved {
        FinishCancelledUnits(s, id, LastWorker(rec.history));
      } else {
        FinishCancelledUnits(s, id, NO_ID);
      }
    }
  }

  lemma SubmitUnits(s: State, spec: Spec, pre: Option<Id>, now: Time)
    requires UnitsOk(s)
    ensures UnitsOk(Submit(s, spec, pre, now))
  {
    hide KeyWeight;
    var s1 := Submit(s, spec, pre, now);
    var id := RequestIdFor(s, pre);
    assert s1.fleet == s.fleet && s1.cfg == s.cfg && s.issued <= s1.issued;
    if s1.requests == s.requests {
      UnitsSame(s, s1);
    } else {
      UnitsKept(s, s1, id, s1.requests[id]);
    }
  }

  lemma {:induction false} ReserveAllUnits(s: State, members: seq<Id>, b: Id)
    requires UnitsOk(s) && Spent(s.cfg, s.issued, b)
    ensures UnitsOk(ReserveAll(s, members, b))
    ensures ReserveAll(s, members, b).fleet == s.fleet
    decreases |members|
  {
    if members != [] {
      ReserveAllUnits(if members[0] in s.requests then ReserveOne(s, members[0], b) else s, members[1..], b);
    }
  }

  lemma OpenUnits(s: State, members: seq<Id>, w: Id)
    requires UnitsOk(s) && w in s.fleet.workers
    requires forall i :: 0 <= i < |members| ==> members[i] in s.requests && s.requests[members[i]].spec.cost >= 0.0
    ensures UnitsOk(Open(s, members, w))
  {
    if |members| > 0 { UnitsVersusCost(s.requests, members); }
    assert IdsWithin(s.fleet.workers[w], s.cfg, s.issued);
    OpenBatchConserves(s.fleet, w, Fresh(s, 1), BatchUnits(s.requests, members), |members|);
    hide BatchUnits, BatchCost, Conserved;
    OpenIssued(s, members, w);
  }

  lemma OpenIssued(s: State, members: seq<Id>, w: Id)
    requires BatchIdsIssued(s) && w in s.fleet.workers && forall i :: 0 <= i < |members| ==> members[i] in s.requests
    ensures BatchIdsIssued(Open(s, members, w))
  {
    hide BatchUnits;
    var s1 := Open(s, members, w);
    forall v | v in s1.fleet.workers ensures IdsWithin(s1.fleet.workers[v], s1.cfg, s1.issued) {
      assert IdsWithin(s.fleet.workers[v], s.cfg, s.issued);
    }
  }

  lemma PlanUnits(s: State, request: Id, now: Time, order: seq<Id>, out: PlanResult, s1: State)
    requires RecordsOk(s) && UnitsOk(s) && Plan(s, request, now, order, out, s1)
    ensures UnitsOk(s1)
  {
    hide RecordsOk, UnitsOk, PlanBatch;
    var s0 := ExpireAll(s, order);
    ExpireAllUnits(s, order);
    ExpireAllProgress(s, order);
    if request in s0.requests && s0.requests[request].spec.Overdue(now) {
      ExpireUnits(s0, request);
    } else if request in s0.requests && s0.requests[request].state in {RequestState.Queued, RequestState.Admitted} {
      var members, w :| PlanBatch(s0, request, now, members, w, out, s1);
      BatchOpened(s0, request, now, members, w, out, s1);
    }
  }

  lemma BatchOpened(s: State, request: Id, now: Time, members: seq<Id>, w: Id, out: PlanResult, s1: State)
    requires RecordsOk(s) && UnitsOk(s) && request in s.requests && PlanBatch(s, request, now, members, w, out, s1)
    ensures UnitsOk(s1)
  {
    hide UnitsOk, BatchUnits, BatchCost, Spent, Issued;
    forall i | 0 <= i < |members| ensures s.requests[members[i]].spec.cost >= 0.0 {
      assert RecordOk(s.cfg, s.issued, s.requests[members[i]]);
    }
    NextIsIssued(s.cfg, s.issued, 1, 1);
    hide RecordsOk, Eligible, IsBatch;
    if out.Dispatch? {
      OpenUnits(s, members, w);
      ReserveAllUnits(Open(s, members, w), members, Fresh(s, 1));
    }
  }

  /** Registering a new worker, or a known one under its own boot identity, books nothing. */
  lemma RegisterUnits(s: State, reg: Registration, now: Time, order: seq<Id>)
    requires UnitsOk(s) && !IsRestart(s, reg)
    ensures UnitsOk(Register(s, reg, now, order))
  {
    hide RecoverInFlight;
    var w := reg.worker;
    var r := Register(s, reg, now, order).fleet.workers[w];
    assert Register(s, reg, now, order).fleet == s.fleet.(workers := s.fleet.workers[w := r]);
    if w in s.fleet.workers {
      BookedNonNegative(s.fleet.workers[w]);
      SameBooks(s.fleet, w, r);
    } else {
      assert UnstartedUnits(r) == map[] && StartedUnits(r) == map[];
      ReplaceWorker(s.fleet, w, r, Register(s, reg, now, order).fleet);
    }
    hide Conserved, Register;
    RegisterIssued(s, reg, now, order);
  }

  lemma RegisterIssued(s: State, reg: Registration, now: Time, order: seq<Id>)
    requires BatchIdsIssued(s) && !IsRestart(s, reg)
    ensures BatchIdsIssued(Register(s, reg, now, order))
  {
    hide RecoverInFlight;
    var s1 := Register(s, reg, now, order);
    forall v | v in s1.fleet.workers ensures IdsWithin(s1.fleet.workers[v], s1.cfg, s1.issued) {
      if v in s.fleet.workers { assert IdsWithin(s.fleet.workers[v], s.cfg, s.issued); }
    }
  }

  lemma WorkerEditUnits(s: State, w: Id, r: Worker, s1: State)
    requires UnitsOk(s) && w in s.fleet.workers && s1 == s.(fleet := s.fleet.(workers := s.fleet.workers[w := r]))
    requires r.reserved == s.fleet.workers[w].reserved && r.running == s.fleet.workers[w].running
    requires r.batchUnits == s.fleet.workers[w].batchUnits && r.started == s.fleet.workers[w].started
    requires r.batchPending == s.fleet.workers[w].batchPending
    ensures UnitsOk(s1)
  {
    SameBooks(s.fleet, w, r);
  }

  lemma StepUnits(s: State, e: Event, s1: State)
    requires RecordsOk(s) && UnitsOk(s) && Step(s, e, s1) && KeepsWorkers(s, e)
    ensures UnitsOk(s1)
  {
    hide RecordsOk, UnitsOk, Plan, Pick, KeyWeight;
    match e
    case SubmitEvent(spec, pre, now) => SubmitUnits(s, spec, pre, now);
    case PickEvent(now, order, seed) => PickUnits(s, now, order, seed, s1);
    case PlanEvent(request, now, order, out) => PlanUnits(s, request, now, order, out, s1);
    case ConfirmEvent(r) => ConfirmUnits(s, r);
    case CompleteEvent(r, now) => CompleteUnits(s, r, now);
    case CancelEvent(id) => CancelUnits(s, id);
    case CancelAllEvent(order) => CancelAllUnits(s, order);
    case RegisterEvent(reg, now, order) => RegisterUnits(s, reg, now, order);
    case CapabilityEvent(w, cap) => if w in s.fleet.workers { WorkerEditUnits(s, w, s1.fleet.workers[w], s1); }
    case WorkerStateEvent(w, st, available) => if w in s.fleet.workers {
      WorkerEditUnits(s, w, s1.fleet.workers[w], s1);
    }
    case _ => UnitsSame(s, s1);
  }

  lemma PickUnits(s: State, now: Time, order: seq<Id>, seed: Option<Id>, s1: State)
    requires UnitsOk(s) && Pick(s, now, order, seed, s1)
    ensures UnitsOk(s1)
  {
    ExpireAllUnits(s, order);
    UnitsSame(ExpireAll(s, order), s1);
  }

  // ----- runs -----

  ghost predicate SteadyRun(tr: Trace) {
    IsRun(tr) && FreshIds(tr) && forall i :: 0 <= i < |tr.events| ==> KeepsWorkers(tr.states[i], tr.events[i])
  }

  lemma {:induction false} RunUnits(tr: Trace, i: nat)
    requires SteadyRun(tr) && i < |tr.states|
    ensures UnitsOk(tr.states[i])
  {
    if i > 0 {
      RunUnits(tr, i - 1);
      RunRecordsOk(tr, i - 1);
      StepUnits(tr.states[i - 1], tr.events[i - 1], tr.states[i]);
    }
  }

  /** In every run without worker restarts, whatever is reported by whom: each worker's reserved
      units are the sum of its batches that have not started, its running units the sum of those
      that have, the global totals are the sums over the workers, and nothing is negative. */
  lemma UnitsConserved(tr: Trace, i: nat)
    requires SteadyRun(tr) && i < |tr.states|
    ensures var f := tr.states[i].fleet;
            && (forall w :: w in f.workers ==>
                  && f.workers[w].reserved == Total(UnstartedUnits(f.workers[w])) >= 0
                  && f.workers[w].running == Total(StartedUnits(f.workers[w])) >= 0)
            && f.reserved == Total(ReservedBy(f.workers)) >= 0
            && f.running == Total(RunningBy(f.workers)) >= 0
  {
    RunUnits(tr, i);
    var f := tr.states[i].fleet;
    forall w | w in f.workers ensures Booked(f.workers[w]) && f.workers[w].reserved >= 0 && f.workers[w].running >= 0 {
      BookedNonNegative(f.workers[w]);
    }
    TotalNonNegative(ReservedBy(f.workers));
    TotalNonNegative(RunningBy(f.workers));
  }

  // ----- no oversubscription -----

  /** Reserved and running units together fit into the worker, and what it claims to have free
      leaves room for what is running. */
  predicate Room(r: Worker) {
    r.reserved + r.running <= r.capability.total && r.available + r.running <= r.capability.total
  }

  ghost predicate RoomOk(f: Fleet) { forall w :: w in f.workers ==> Room(f.workers[w]) }

  /** Units at most went down; capacity and availability are as before. */
  predicate Lighter(r: Worker, r1: Worker) {
    r1.reserved <= r.reserved && r1.running <= r.running && r1.available == r.available && r1.capability == r.capability
  }

  ghost predicate FleetLighter(f: Fleet, f1: Fleet) {
    f1.workers.Keys == f.workers.Keys && forall w :: w in f.workers ==> Lighter(f.workers[w], f1.workers[w])
  }

  lemma ReleaseLighter(f: Fleet, w: Id, id: Id, batch: Option<Id>)
    requires Conserved(f)
    ensures FleetLighter(f, ReleaseMember(f, w, id, batch))
  {
    hide Conserved, ReleaseBatch;
    if w in f.workers && batch.Some? {
      var r := DropMember(f.workers[w], id, batch);
      var f1 := f.(workers := f.workers[w := r]);
      SameBooks(f, w, r);
      ReleaseBatchLighter(f1, w, batch.value);
    }
  }

  lemma ReleaseBatchLighter(f: Fleet, w: Id, b: Id)
    requires Conserved(f) && w in f.workers
    ensures FleetLighter(f, ReleaseBatch(f, w, b))
  {
    ReleaseBatchExact(f, w, b);
    assert Booked(f.workers[w]);
    hide Conserved, Booked;
  }

  lemma {:induction false} CancelAllLighter(s: State, order: seq<Id>)
    requires UnitsOk(s)
    ensures FleetLighter(s.fleet, CancelAll(s, order).fleet)
    decreases |order|
  {
    if order != [] {
      var s1 := if order[0] in s.requests then FinishCancelled(s, order[0], NO_ID) else s;
      if order[0] in s.requests {
        FinishCancelledUnits(s, order[0], NO_ID);
        ReleaseLighter(s.fleet, NO_ID, order[0], s.requests[order[0]].batch);
      }
      CancelAllLighter(s1, order[1..]);
    }
  }

  /** Availability reports leave room for what is running, and totals do not shrink. */
  predicate HonestReport(s: State, e: Event) {
    match e
    case ConfirmEvent(r) =>
      ConfirmAnswer(s, r) == Confirmed ==>
        var wr, b := s.fleet.workers[r.worker], s.requests[r.request].batch.value;
        var units := if b in wr.started || b !in wr.batchUnits then 0 else wr.batchUnits[b];
        var available := if r.available >= 0 then r.available else wr.available;
        available + wr.running + units <= wr.capability.total
    case RegisterEvent(reg, now, order) => HonestCapability(s, reg.worker, reg.capability)
    case CapabilityEvent(w, cap) => HonestCapability(s, w, cap)
    case WorkerStateEvent(w, st, available) =>
      w in s.fleet.workers && available.Some? ==>
        available.value + s.fleet.workers[w].running <= s.fleet.workers[w].capability.total
    case _ => true
  }

  predicate HonestCapability(s: State, w: Id, cap: Capability) {
    if w in s.fleet.workers
    then cap.total >= s.fleet.workers[w].capability.total && cap.available + s.fleet.workers[w].running <= cap.total
    else cap.total >= 0 && cap.available <= cap.total
  }

  /** Dispatch compares a batch only with available minus reserved; that is enough. */
  lemma OpenRoom(s: State, members: seq<Id>, w: Id)
    requires RoomOk(s.fleet) && w in s.fleet.workers
    requires forall i :: 0 <= i < |members| ==> members[i] in s.requests
    requires BatchUnits(s.requests, members) <= s.fleet.workers[w].available - s.fleet.workers[w].reserved
    ensures RoomOk(Open(s, members, w).fleet)
  {
    assert Room(s.fleet.workers[w]);
  }

  lemma PlanRoom(s: State, request: Id, now: Time, order: seq<Id>, out: PlanResult, s1: State)
    requires RecordsOk(s) && UnitsOk(s) && RoomOk(s.fleet) && Plan(s, request, now, order, out, s1)
    ensures RoomOk(s1.fleet)
  {
    var s0 := ExpireAll(s, order);
    ExpireAllFrame(s, order);
    ExpireAllUnits(s, order);
    ExpireAllProgress(s, order);
    if out.Dispatch? {
      var members, w :| PlanBatch(s0, request, now, members, w, out, s1);
      OpenRoom(s0, members, w);
      ReserveAllFrame(Open(s0, members, w), members, Fresh(s0, 1));
      hide BatchUnits, BatchCost, Eligible, IsBatch;
    }
  }

  lemma ConfirmRoom(s: State, r: Report)
    requires UnitsOk(s) && RoomOk(s.fleet) && HonestReport(s, ConfirmEvent(r))
    ensures RoomOk(Confirm(s, r).fleet)
  {
    if ConfirmAnswer(s, r) == Confirmed {
      assert Room(s.fleet.workers[r.worker]);
    }
  }

  lemma LighterRoom(f: Fleet, f1: Fleet)
    requires RoomOk(f) && FleetLighter(f, f1)
    ensures RoomOk(f1)
  {
    forall w | w in f1.workers ensures Room(f1.workers[w]) { assert Room(f.workers[w]); }
  }

  /** A completion touches the workers only through the release of its request. */
  lemma CompleteFleet(s: State, r: Report, now: Time)
    requires r.request in s.requests
    ensures Complete(s, r, now).fleet == s.fleet ||
            Complete(s, r, now).fleet == ReleaseMember(s.fleet, r.worker, r.request, s.requests[r.request].batch)
  {
    hide ReleaseMember, KeyWeight;
    RetryShape(s, r.request, r.worker, now);
  }

  lemma CancelFleet(s: State, id: Id)
    requires id in s.requests
    ensures Cancel(s, id).fleet == s.fleet ||
            Cancel(s, id).fleet == ReleaseMember(s.fleet, LastWorker(s.requests[id].history), id, s.requests[id].batch)
  {
    hide ReleaseMember;
  }

  lemma ReleaseRoom(s: State, w: Id, id: Id, batch: Option<Id>)
    requires UnitsOk(s) && RoomOk(s.fleet)
    ensures RoomOk(ReleaseMember(s.fleet, w, id, batch))
  {
    ReleaseLighter(s.fleet, w, id, batch);
    LighterRoom(s.fleet, ReleaseMember(s.fleet, w, id, batch));
  }

  lemma SubmitFleet(s: State, spec: Spec, pre: Option<Id>, now: Time)
    ensures Submit(s, spec, pre, now).fleet == s.fleet
  {
    hide KeyWeight;
  }

  lemma ReportRoom(s: State, e: Event, s1: State)
    requires UnitsOk(s) && RoomOk(s.fleet) && Step(s, e, s1)
    requires e.SubmitEvent? || e.PickEvent? || e.CompleteEvent? || e.CancelEvent? || e.CancelAllEvent?
    ensures RoomOk(s1.fleet)
  {
    hide KeyWeight, RoomOk, UnitsOk, Complete, Cancel, Submit, CancelAll, ReleaseMember;
    match e
    case SubmitEvent(spec, pre, now) => SubmitFleet(s, spec, pre, now);
    case PickEvent(now, order, seed) => ExpireAllFrame(s, order);
    case CompleteEvent(r, now) =>
      if r.request in s.requests {
        CompleteFleet(s, r, now);
        ReleaseRoom(s, r.worker, r.request, s.requests[r.request].batch);
      } else {
        UnknownRequestIgnored(s, r, now);
      }
    case CancelEvent(id) =>
      if id in s.requests {
        CancelFleet(s, id);
        ReleaseRoom(s, LastWorker(s.requests[id].history), id, s.requests[id].batch);
      } else {
        UnknownCancelIgnored(s, id);
      }
    case CancelAllEvent(order) =>
      CancelAllLighter(s, order);
      LighterRoom(s.fleet, s1.fleet);
    case _ =>
  }

  lemma UnknownRequestIgnored(s: State, r: Report, now: Time)
    requires r.request !in s.requests
    ensures Complete(s, r, now) == s
  {
  }

  lemma UnknownCancelIgnored(s: State, id: Id)
    requires id !in s.requests
    ensures Cancel(s, id) == s
  {
  }

  lemma RegisterRoom(s: State, reg: Registration, now: Time, order: seq<Id>)
    requires UnitsOk(s) && RoomOk(s.fleet) && !IsRestart(s, reg) && HonestCapability(s, reg.worker, reg.capability)
    ensures RoomOk(Register(s, reg, now, order).fleet)
  {
    if reg.worker in s.fleet.workers {
      assert Room(s.fleet.workers[reg.worker]);
      BookedNonNegative(s.fleet.workers[reg.worker]);
    }
  }

  lemma WorkerEditRoom(s: State, e: Event, s1: State)
    requires RoomOk(s.fleet) && Step(s, e, s1) && (e.CapabilityEvent? || e.WorkerStateEvent?) && HonestReport(s, e)
    ensures RoomOk(s1.fleet)
  {
    if e.worker in s.fleet.workers { assert Room(s.fleet.workers[e.worker]); }
  }

  lemma StepRoom(s: State, e: Event, s1: State)
    requires RecordsOk(s) && UnitsOk(s) && RoomOk(s.fleet) && Step(s, e, s1) && KeepsWorkers(s, e) && HonestReport(s, e)
    ensures RoomOk(s1.fleet)
  {
    hide RecordsOk, UnitsOk, RoomOk, Plan, Pick, KeyWeight, Confirm;
    match e
    case PlanEvent(request, now, order, out) => PlanRoom(s, request, now, order, out, s1);
    case ConfirmEvent(r) => ConfirmRoom(s, r);
    case RegisterEvent(reg, now, order) => RegisterRoom(s, reg, now, order);
    case CapabilityEvent(w, cap) => WorkerEditRoom(s, e, s1);
    case WorkerStateEvent(w, st, available) => WorkerEditRoom(s, e, s1);
    case UnregisterEvent(w, now, order) =>
    case DrainEvent =>
    case EpochEvent =>
    case _ => ReportRoom(s, e, s1);
  }

  lemma {:induction false} RunRoom(tr: Trace, i: nat)
    requires SteadyRun(tr) && i < |tr.states|
    requires forall k :: 0 <= k < i ==> HonestReport(tr.states[k], tr.events[k])
    ensures RoomOk(tr.states[i].fleet)
  {
    if i > 0 {
      RunRoom(tr, i - 1);
      RunUnits(tr, i - 1);
      RunRecordsOk(tr, i - 1);
      StepRoom(tr.states[i - 1], tr.events[i - 1], tr.states[i]);
    }
  }

  /** In every run without restarts and with honest availability reports, no worker ever holds
      more reserved and running units than its capacity. */
  lemma NoOversubscription(tr: Trace, i: nat, w: Id)
    requires SteadyRun(tr) && i < |tr.states| && w in tr.states[i].fleet.workers
    requires forall k :: 0 <= k < i ==> HonestReport(tr.states[k], tr.events[k])
    ensures var r := tr.states[i].fleet.workers[w]; r.reserved + r.running <= r.capability.total
  {
    RunRoom(tr, i);
  }

  // ----- what passes the capacity tests -----

  /** A batch of at most `limit` requests. */
  ghost predicate BatchWithin(rs: map<Id, Request>, members: seq<Id>, limit: int) {
    && 1 <= |members| <= limit && Distinct(members)
    && forall i :: 0 <= i < |members| ==> members[i] in rs && rs[members[i]].spec.cost >= 0.0
  }

  /** The batch passes the capacity tests for worker r: its rounded cost is compared with the total, its
      rounded cost and its units with what is free. */
  ghost predicate Passable(r: Worker, rs: map<Id, Request>, members: seq<Id>)
    requires forall i :: 0 <= i < |members| ==> members[i] in rs
  {
    && CeilCost(BatchCost(rs, members)) <= r.available - r.reserved
    && CeilCost(BatchCost(rs, members)) <= r.capability.total
    && BatchUnits(rs, members) <= r.available - r.reserved
  }

  predicate FitsOn(r: Worker, units: int) { r.reserved + r.running + units <= r.capability.total }

  /** Whatever batch passes the tests fits on the worker. */
  ghost predicate Trustworthy(r: Worker, limit: int) {
    forall rs, members :: BatchWithin(rs, members, limit) && Passable(r, rs, members) ==>
        FitsOn(r, BatchUnits(rs, members))
  }

  function Costing(cost: real): Request {
    FirstRecord(Spec(1, 1, 1, None, 0, 0, 0, 0, 0, 0, cost, 0, 0, None), 2, 1, 0)
  }

  lemma WholeCeil(n: int, x: real)
    requires n as real - 1.0 < x <= n as real
    ensures Ceil(x) == n
  {
    CeilBounds(x);
  }

  /** A batch of one request that costs n units. */
  lemma OneCosts(n: int)
    requires n >= 1
    ensures var rs := map[1 := Costing(n as real)];
            BatchWithin(rs, [1], 1) && BatchUnits(rs, [1]) == n && CeilCost(BatchCost(rs, [1])) == n
  {
    var rs := map[1 := Costing(n as real)];
    assert [1][1..] == [];
    assert BatchCost(rs, [1]) == n as real;
    WholeCeil(n, n as real);
  }

  /** Costs of 1.5 and n - 1.5: together n, but rounded one by one n + 1. */
  lemma TwoCost(n: int)
    requires n >= 3
    ensures var rs := map[1 := Costing(1.5), 2 := Costing(n as real - 1.5)];
            BatchWithin(rs, [1, 2], 2) && BatchUnits(rs, [1, 2]) == n + 1 && CeilCost(BatchCost(rs, [1, 2])) == n
  {
    var rs := map[1 := Costing(1.5), 2 := Costing(n as real - 1.5)];
    assert [1, 2][1..] == [2] && [2][1..] == [];
    assert BatchCost(rs, [2]) == n as real - 1.5;
    assert BatchCost(rs, [1, 2]) == n as real;
    WholeCeil(2, 1.5);
    WholeCeil(n - 1, n as real - 1.5);
    WholeCeil(n, n as real);
    assert BatchUnits(rs, [2]) == n - 1;
  }

  /** Two requests that together cost no more than two units are rounded to two. */
  lemma PairOfUnits(rs: map<Id, Request>, members: seq<Id>)
    requires BatchWithin(rs, members, 2) && |members| == 2 && CeilCost(BatchCost(rs, members)) <= 2
    ensures BatchUnits(rs, members) == 2
  {
    var c, d := rs[members[0]].spec.cost, rs[members[1]].spec.cost;
    assert members[1..][1..] == [];
    assert BatchCost(rs, members[1..]) == ChargedCost(d);
    assert BatchCost(rs, members) == ChargedCost(c) + ChargedCost(d);
    CeilBounds(ChargedCost(c) + ChargedCost(d));
    CeilCostIsCharged(c);
    CeilCostIsCharged(d);
    WholeCeil(1, 1.0);
    assert BatchUnits(rs, members[1..]) == CeilCost(d);
  }

  lemma {:induction false} EveryMemberCosts(rs: map<Id, Request>, members: seq<Id>)
    requires forall i :: 0 <= i < |members| ==> members[i] in rs && rs[members[i]].spec.cost >= 0.0
    ensures BatchCost(rs, members) >= |members| as real
    decreases |members|
  {
    if members != [] { EveryMemberCosts(rs, members[1..]); }
  }

  lemma FittingBatch(r: Worker, limit: int, rs: map<Id, Request>, members: seq<Id>)
    requires r.reserved >= 0 && r.running >= 0
    requires BatchWithin(rs, members, limit) && Passable(r, rs, members)
    requires r.available + r.running <= r.capability.total ||
             (r.reserved + r.running == 0 && (limit == 1 || r.capability.total <= 2))
    ensures FitsOn(r, BatchUnits(rs, members))
  {
    UnitsVersusCost(rs, members);
    EveryMemberCosts(rs, members);
    CeilBounds(BatchCost(rs, members));
    if r.available + r.running > r.capability.total && |members| > 1 {
      PairOfUnits(rs, members);
    }
  }

  lemma NothingPasses(r: Worker, rs: map<Id, Request>, members: seq<Id>, limit: int)
    requires BatchWithin(rs, members, limit) && (r.available <= r.reserved || r.capability.total < 1)
    ensures !Passable(r, rs, members)
  {
    UnitsVersusCost(rs, members);
    CeilBounds(BatchCost(rs, members));
  }

  /** Dispatch trusts the number a worker reported, and it compares the rounded cost of a batch with the total where
      it books the rounded costs. Whatever batch of at most `limit` requests passes its tests fits on the
      worker exactly when none passes, or the availability reported leaves room for what is running, or
      the worker is empty and batches have one member or the worker at most two units. */
  lemma TrustExact(r: Worker, limit: int)
    requires r.reserved >= 0 && r.running >= 0 && r.reserved + r.running <= r.capability.total && limit >= 1
    ensures Trustworthy(r, limit) <==>
            || r.available <= r.reserved || r.capability.total < 1
            || r.available + r.running <= r.capability.total
            || (r.reserved + r.running == 0 && (limit == 1 || r.capability.total <= 2))
  {
    hide Passable, FitsOn, BatchUnits, BatchCost;
    var free, total := r.available - r.reserved, r.capability.total;
    if free < 1 || total < 1 {
      forall rs, members | BatchWithin(rs, members, limit) ensures !Passable(r, rs, members) {
        NothingPasses(r, rs, members, limit);
      }
    } else if r.available + r.running <= total || (r.reserved + r.running == 0 && (limit == 1 || total <= 2)) {
      forall rs, members | BatchWithin(rs, members, limit) && Passable(r, rs, members)
        ensures FitsOn(r, BatchUnits(rs, members))
      {
        FittingBatch(r, limit, rs, members);
      }
    } else if r.reserved + r.running > 0 {
      OverfullByOne(r, limit);
    } else {
      OverfullByTwo(r, limit);
    }
  }

  lemma OverfullByOne(r: Worker, limit: int)
    requires r.reserved + r.running > 0 && limit >= 1 && r.available - r.reserved >= 1 && r.capability.total >= 1
    requires r.available + r.running > r.capability.total
    ensures !Trustworthy(r, limit)
  {
    var free, total := r.available - r.reserved, r.capability.total;
    var most := if free <= total then free else total;
    OneCosts(most);
    var rs := map[1 := Costing(most as real)];
    hide BatchUnits, BatchCost, CeilCost;
    assert BatchWithin(rs, [1], limit) && Passable(r, rs, [1]) && !FitsOn(r, BatchUnits(rs, [1]));
  }

  lemma OverfullByTwo(r: Worker, limit: int)
    requires r.reserved == 0 && r.running == 0 && limit >= 2 && r.capability.total >= 3
        && r.available > r.capability.total
    ensures !Trustworthy(r, limit)
  {
    var n := r.capability.total;
    TwoCost(n);
    var rs := map[1 := Costing(1.5), 2 := Costing(n as real - 1.5)];
    hide BatchUnits, BatchCost, CeilCost;
    assert BatchWithin(rs, [1, 2], limit) && Passable(r, rs, [1, 2]) && !FitsOn(r, BatchUnits(rs, [1, 2]));
  }

  /** A dispatch books the units of a batch that passed these tests on top of what the worker holds. The worker
      stays within its capacity exactly when they fit. */
  lemma DispatchBooks(s: State, request: Id, now: Time, out: PlanResult, s1: State)
    requires RecordsOk(s) && PlanOn(s, request, now, out, s1) && out.Dispatch?
    ensures request in s.requests && out.worker in s.fleet.workers && out.worker in s1.fleet.workers
    ensures BatchWithin(s.requests, out.members, BatchLimit(s.cfg, s.requests[request].spec))
    ensures var r, r1, u := s.fleet.workers[out.worker], s1.fleet.workers[out.worker],
        BatchUnits(s.requests, out.members);
            && u >= 1 && Passable(r, s.requests, out.members)
            && (r1.reserved + r1.running <= r1.capability.total <==> FitsOn(r, u))
  {
    assert RecordOk(s.cfg, s.issued, s.requests[request]);
    var members, w :| PlanBatch(s, request, now, members, w, out, s1);
    BatchMembers(s.cfg, s.requests, s.index, request, now, members);
    forall i | 0 <= i < |members| ensures s.requests[members[i]].spec.cost >= 0.0 {
      assert RecordOk(s.cfg, s.issued, s.requests[members[i]]);
    }
    UnitsVersusCost(s.requests, members);
    ReserveAllFrame(Open(s, members, w), members, Fresh(s, 1));
    hide IsBatch, RecordsOk, BatchUnits, BatchCost, ReserveAll, Compatible;
  }

  /** So a dispatch never overfills a worker for which the condition holds. */
  lemma TrustedDispatchFits(s: State, request: Id, now: Time, out: PlanResult, s1: State)
    requires RecordsOk(s) && PlanOn(s, request, now, out, s1) && out.Dispatch?
    requires request in s.requests && out.worker in s.fleet.workers
    requires Trustworthy(s.fleet.workers[out.worker], BatchLimit(s.cfg, s.requests[request].spec))
    ensures out.worker in s1.fleet.workers
    ensures var r1 := s1.fleet.workers[out.worker]; r1.reserved + r1.running <= r1.capability.total
  {
    hide RecordsOk, PlanOn, BatchWithin, Passable, FitsOn, BatchUnits, BatchLimit;
    DispatchBooks(s, request, now, out, s1);
  }
}
