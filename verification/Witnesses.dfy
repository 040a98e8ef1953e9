/** Short runs in which a promise fails: for every condition that is stated as
    exact elsewhere, a history of the scheduler that reaches its failing side. */
module Witnesses {
  import opened Types
  import opened Collections
  import opened ReadyQueue
  import opened Ledgers
  import opened Fleets
  import opened Batching
  import opened Machine
  import opened Lifecycle
  import opened Protocol
  import opened Selection
  import opened Accounting
  import opened Reservations
  import opened Baseline
  import opened Leaks
  import opened Restarts
  import Recovery
  import opened Continuation
  import Crashes
  import Drain

  // ----- building runs -----

  ghost predicate ReachedBy(tr: Trace, s: State, handed: set<Handout>, orderly: bool) {
    && ProtocolRun(tr) && (orderly ==> OrderlyRun(tr))
    && tr.states[|tr.events|] == s && Handed(tr, |tr.events|) == handed
  }

  /** Some protocol run, orderly if so asked, ends in s with these attempts handed out. */
  ghost predicate Reaches(s: State, handed: set<Handout>, orderly: bool) {
    exists tr :: ReachedBy(tr, s, handed, orderly)
  }

  lemma Starts(cfg: Config, epoch: nat)
    ensures Reaches(Initial(cfg, epoch), {}, true)
  {
    var tr := Trace([Initial(cfg, epoch)], []);
    assert ReachedBy(tr, Initial(cfg, epoch), {}, true);
  }

  lemma {:induction false} HandedSame(tr: Trace, more: Trace, i: nat)
    requires |tr.states| == |tr.events| + 1 && |more.states| == |more.events| + 1 && i <= |tr.events| <= |more.events|
    requires forall k :: 0 <= k <= |tr.events| ==> more.states[k] == tr.states[k]
    requires forall k :: 0 <= k < |tr.events| ==> more.events[k] == tr.events[k]
    ensures Handed(more, i) == Handed(tr, i)
  {
    if i > 0 { HandedSame(tr, more, i - 1); }
  }

  ghost predicate StepOk(s: State, e: Event, s1: State, handed: set<Handout>, orderly: bool) {
    && Step(s, e, s1) && EnvOk(s, e, handed)
    && (orderly ==> KeepsWorkers(s, e) && !CancelsReserved(s, e))
  }

  lemma Grows(s: State, handed: set<Handout>, orderly: bool, e: Event, s1: State)
    requires Reaches(s, handed, orderly) && StepOk(s, e, s1, handed, orderly)
    ensures Reaches(s1, handed + HandedBy(e, s1), orderly)
  {
    hide Step, EnvOk, KeepsWorkers, CancelsReserved, FreshId, HandedBy, OrderlyRun;
    var tr :| ReachedBy(tr, s, handed, orderly);
    var n := |tr.events|;
    var more := Trace(tr.states + [s1], tr.events + [e]);
    HandedSame(tr, more, n);
    forall i | 0 <= i < |more.events|
      ensures Step(more.states[i], more.events[i], more.states[i + 1])
          && EnvOk(more.states[i], more.events[i], Handed(more, i))
    {
      if i < n {
        assert Step(tr.states[i], tr.events[i], tr.states[i + 1]);
        HandedSame(tr, more, i);
      }
    }
    assert ProtocolRun(more);
    if orderly { OrderlyGrows(tr, more, e, s1); }
    assert ReachedBy(more, s1, handed + HandedBy(e, s1), orderly);
  }

  lemma OrderlyGrows(tr: Trace, more: Trace, e: Event, s1: State)
    requires OrderlyRun(tr) && ProtocolRun(more) && more == Trace(tr.states + [s1], tr.events + [e])
    requires KeepsWorkers(tr.states[|tr.events|], e) && !CancelsReserved(tr.states[|tr.events|], e)
    ensures OrderlyRun(more)
  {
    hide Step, EnvOk, KeepsWorkers, CancelsReserved;
    forall i | 0 <= i < |more.events|
      ensures KeepsWorkers(more.states[i], more.events[i]) && !CancelsReserved(more.states[i], more.events[i])
    {
      if i < |tr.events| {
        assert more.states[i] == tr.states[i] && more.events[i] == tr.events[i];
        assert KeepsWorkers(tr.states[i], tr.events[i]) && !CancelsReserved(tr.states[i], tr.events[i]);
      }
    }
    forall i | 0 <= i < |more.events| ensures FreshId(more.states[i], more.events[i]) {
      assert EnvOk(more.states[i], more.events[i], Handed(more, i));
      FreshInStep(more.states[i], more.events[i], Handed(more, i));
    }
    hide FreshId;
  }

  /** What holds of every state that is reached. */
  lemma ReachedOk(s: State, handed: set<Handout>, orderly: bool)
    requires Reaches(s, handed, orderly)
    ensures ProtocolOk(s, handed) && AdmissionOk(s) && TenantsRight(s, false)
    ensures orderly ==> UnitsOk(s) && BaselineOk(s, handed)
  {
    hide ProtocolOk, AdmissionOk, TenantsRight, UnitsOk, BaselineOk, OrderlyRun, Step, EnvOk;
    var tr :| ReachedBy(tr, s, handed, orderly);
    RunProtocol(tr, |tr.events|);
    RunTenants(tr, |tr.events|, false);
    ProtocolIsFresh(tr);
    RunAdmission(tr, |tr.events|);
    if orderly { OrderlyState(tr, |tr.events|); }
  }

  lemma ReachedOrderly(s: State, handed: set<Handout>)
    requires Reaches(s, handed, true)
    ensures RecordsOk(s) && QueueOk(s) && UnitsOk(s) && BaselineOk(s, handed)
  {
    hide Reaches, RecordsOk, QueueOk, HandedOk, HandedOnce, FlightsOk, AdmissionOk, TenantsRight, UnitsOk, BaselineOk;
    ReachedOk(s, handed, true);
  }

  lemma ProtocolIsFresh(tr: Trace)
    requires ProtocolRun(tr)
    ensures FreshIds(tr)
  {
    hide Step, FreshId;
    forall i | 0 <= i < |tr.events| ensures FreshId(tr.states[i], tr.events[i]) {
      assert EnvOk(tr.states[i], tr.events[i], Handed(tr, i));
    }
  }

  // ----- one worker, requests of one kind -----

  const CFG: Config := Settings(
    0, 10, 10, 0, 10, 10, false, false, 2, 0, false, 1, false, false, 1.0, 0, [], 1.0,
    [1.0, 1.0, 1.0, 1.0], [1.0, 1.0, 1.0, 1.0, 1.0], [1.0, 1.0, 1.0])

  const SPEC: Spec := Spec(1, 1, 1, None, 0, 0, 0, 0, 0, 0, 1.0, 0, 0, None)

  const KEY: CompatKey := CompatKey(1, 1, 0, 0, 0)

  function Cap(n: int): Capability { Capability(n, n, [], [], [], []) }

  /** Worker 1 with n units, online. */
  function Reg(boot: Id, n: int): Registration { Registration(1, boot, Cap(n), Online) }

  function IdleWorker(n: int): Worker { Worker(1, Cap(n), Online, n, 0, 0, map[], map[], {}, {}) }

  /** The worker has registered. */
  ghost predicate IsStarted(s: State, n: int) { s == Initial(CFG, 1).(fleet := Fleet(map[1 := IdleWorker(n)], 0, 0)) }

  lemma ReachStarted(n: int) returns (s: State)
    ensures Reaches(s, {}, true) && IsStarted(s, n)
  {
    var s0, e := Initial(CFG, 1), RegisterEvent(Reg(1, n), 0, []);
    Starts(CFG, 1);
    s := Register(s0, e.reg, 0, []);
    assert IsStarted(s, n) by { hide RecoverInFlight; }
    hide Reaches, Initial, IsStarted;
    FirstRegister(s0, {}, e);
    Grows(s0, {}, true, e, s);
    assert {} + HandedBy(e, s) == {};
  }

  lemma FirstRegister(s: State, handed: set<Handout>, e: Event)
    requires e.RegisterEvent? && e.order == [] && e.reg.worker !in s.fleet.workers
    ensures StepOk(s, e, Register(s, e.reg, e.now, []), handed, true)
  {
    hide Register;
  }

  /** A request as submitted at time 0. */
  function Waits(attempt: Id, generation: Id): Request { FirstRecord(SPEC, attempt, generation, 0) }

  /** There is room for one more request, and a worker for it. */
  ghost predicate Welcomes(s: State) {
    && s.cfg == CFG && !s.draining && s.ledger.admitted < 10 && s.index.size < 10
    && TenantAt(s.ledger, 1).admitted < 10 && TenantAt(s.ledger, 1).queued < 10
    && 1 in s.fleet.workers && s.fleet.workers[1].capability == Cap(s.fleet.workers[1].capability.total)
    && s.fleet.workers[1].capability.total > 0
  }

  lemma Admitted(s: State)
    requires Welcomes(s)
    ensures SPEC.Valid() && Admission(s, SPEC, 0) == (Admit, Ok)
  {
    assert Compatible(SPEC, s.fleet.workers[1].capability);
  }

  /** The scheduler after an admission under a new identifier. */
  ghost predicate Joined(s: State, s1: State, spec: Spec, id: Id, now: Time) {
    var rec := FirstRecord(spec, Fresh(s, 2), Fresh(s, 1), now);
    && s1.cfg == s.cfg && s1.epoch == s.epoch && s1.issued == s.issued + 2 && s1.draining == s.draining
    && s1.requests == s.requests[id := rec] && s1.index == Insert(s.cfg, s.index, id, spec)
        && s1.fair == Push(s.cfg, s.fair, id, rec)
    && s1.ledger == NoteAdmitted(NoteQueued(s.ledger, spec.tenant), spec.tenant) && s1.fleet == s.fleet
  }

  lemma JoinedParts(s: State, s1: State, spec: Spec, id: Id, now: Time)
    requires Joined(s, s1, spec, id, now)
    ensures s1.cfg == s.cfg && s1.draining == s.draining && s1.fleet == s.fleet
        && s1.index == Insert(s.cfg, s.index, id, spec)
    ensures id in s1.requests && s1.requests == s.requests[id := s1.requests[id]]
    ensures s1.requests[id].spec == spec && s1.requests[id].state == RequestState.Queued
    ensures s1.ledger == NoteAdmitted(NoteQueued(s.ledger, spec.tenant), spec.tenant)
  {
    hide Insert, Push, NoteAdmitted, NoteQueued;
  }

  lemma ReachAdmitted(s: State, handed: set<Handout>, orderly: bool, spec: Spec, id: Id, now: Time) returns (s1: State)
    requires Reaches(s, handed, orderly) && spec.Valid() && Admission(s, spec, now).0 == Admit && id !in s.requests
    ensures Reaches(s1, handed, orderly) && Joined(s, s1, spec, id, now)
  {
    hide Reaches, Admission, Push, Insert, NoteQueued, NoteAdmitted;
    var e := SubmitEvent(spec, Some(id), now);
    s1 := Submit(s, spec, Some(id), now);
    SubmitShape(s, spec, Some(id), now);
    FrameOfSubmit(s, spec, Some(id), now);
    assert Joined(s, s1, spec, id, now);
    hide Submit, Joined;
    assert StepOk(s, e, s1, handed, orderly);
    Grows(s, handed, orderly, e, s1);
    assert handed + HandedBy(e, s1) == handed;
  }

  /** A submission of the usual kind under a new identifier is admitted. */
  lemma ReachSubmitted(s: State, handed: set<Handout>, orderly: bool, id: Id) returns (s1: State)
    requires Reaches(s, handed, orderly) && Welcomes(s) && id !in s.requests
    ensures Reaches(s1, handed, orderly) && Joined(s, s1, SPEC, id, 0)
  {
    Admitted(s);
    hide Reaches, Welcomes, Joined, Admission;
    s1 := ReachAdmitted(s, handed, orderly, SPEC, id, 0);
  }

  lemma FrameOfSubmit(s: State, spec: Spec, pre: Option<Id>, now: Time)
    ensures Submit(s, spec, pre, now).epoch == s.epoch && Submit(s, spec, pre, now).draining == s.draining
  {
    hide Admission, KeyWeight;
  }

  /** One request is waiting. */
  ghost predicate IsOne(s: State, n: int) {
    && s.cfg == CFG && s.epoch == 1 && s.issued == 2 && !s.draining && s.requests == map[1 := Waits(2, 1)]
    && s.index == Index({1}, map[KEY := {1}], 1) && s.ledger == Ledger(map[1 := Tenant(1, 1)], 1)
    && s.fleet == Fleet(map[1 := IdleWorker(n)], 0, 0)
  }

  lemma ReachOne(n: int) returns (s: State)
    requires n > 0
    ensures Reaches(s, {}, true) && IsOne(s, n)
  {
    var s0 := ReachStarted(n);
    hide Reaches;
    s := ReachSubmitted(s0, {}, true, 1);
    hide Submit, Push;
    FirstInsert();
    FirstNotes();
    hide Insert, NoteQueued, NoteAdmitted;
  }

  lemma FirstInsert()
    ensures Insert(CFG, EMPTY_INDEX, 1, SPEC) == Index({1}, map[KEY := {1}], 1)
  {
    assert CompatKeyOf(CFG, SPEC) == KEY;
    hide CompatKeyOf;
    var ix := Insert(CFG, EMPTY_INDEX, 1, SPEC);
    assert ix.queued == {1} && ix.compat == map[KEY := {1}];
  }

  lemma FirstNotes()
    ensures NoteAdmitted(NoteQueued(EMPTY_LEDGER, 1), 1) == Ledger(map[1 := Tenant(1, 1)], 1)
  {
  }

  // ----- dispatching -----

  /** Nothing in the scheduler has a deadline, so nothing is ever due. */
  ghost predicate Timeless(s: State) { forall id :: id in s.requests ==> s.requests[id].spec == SPEC }

  predicate Listed(s: State, members: seq<Id>) {
    |members| >= 1 && 1 in s.fleet.workers && forall i :: 0 <= i < |members| ==> members[i] in s.requests
  }

  /** Worker 1 is the only one, up, and has room for this many units. */
  ghost predicate HasRoom(s: State, units: int) {
    && s.fleet.workers.Keys == {1} && (s.fleet.workers[1].state == Online || s.fleet.workers[1].state == Busy)
    && s.fleet.workers[1].capability.total >= units
        && s.fleet.workers[1].available - s.fleet.workers[1].reserved >= units
    && s.fleet.workers[1].capability == Cap(s.fleet.workers[1].capability.total)
  }

  lemma {:induction false} UnitCosts(s: State, members: seq<Id>)
    requires Timeless(s) && forall i :: 0 <= i < |members| ==> members[i] in s.requests
    ensures BatchUnits(s.requests, members) == |members| && BatchCost(s.requests, members) == |members| as real
    decreases |members|
  {
    if members != [] {
      UnitCosts(s, members[1..]);
      assert s.requests[members[0]].spec == SPEC && CeilCost(1.0) == 1;
    }
  }

  lemma EligibleHere(s: State, id: Id, units: nat)
    requires HasRoom(s, units) && id in s.requests && s.requests[id].spec == SPEC && units >= 1
    ensures Eligible(s.fleet.workers[1], s.requests[id].spec, units as real, 0)
  {
    CeilBounds(units as real);
  }

  /** The batch that these requests of one unit each form is planned onto worker 1. */
  lemma Planned(s: State, id: Id, members: seq<Id>)
    requires Timeless(s) && id in s.requests && s.requests[id].state == RequestState.Queued && Listed(s, members)
    requires IsBatch(s.cfg, s.requests, s.index, id, 0, members) && HasRoom(s, |members|)
    ensures Plan(s, id, 0, [], Dispatch(1, Fresh(s, 1), members), Reserve(s, members, 1))
  {
    hide IsBatch, Reserve;
    assert Due(s, 0) == {};
    UnitCosts(s, members);
    EligibleHere(s, id, |members|);
    hide BatchUnits, BatchCost, Eligible;
    assert PlanBatch(s, id, 0, members, 1, Dispatch(1, Fresh(s, 1), members), Reserve(s, members, 1));
    assert ExpireAll(s, []) == s;
  }

  lemma ReachPlanned(s: State, handed: set<Handout>, orderly: bool, id: Id, members: seq<Id>) returns (s1: State)
    requires Reaches(s, handed, orderly)
    requires Timeless(s) && id in s.requests && s.requests[id].state == RequestState.Queued && Listed(s, members)
    requires IsBatch(s.cfg, s.requests, s.index, id, 0, members) && HasRoom(s, |members|)
    ensures s1 == Reserve(s, members, 1) && Reaches(s1, handed + Hands(s1, members, 1), orderly)
  {
    hide Reaches;
    Planned(s, id, members);
    s1 := Reserve(s, members, 1);
    hide IsBatch, Timeless, HasRoom, Plan, Reserve;
    var e := PlanEvent(id, 0, [], Dispatch(1, Fresh(s, 1), members));
    assert StepOk(s, e, s1, handed, orderly);
    Grows(s, handed, orderly, e, s1);
    assert HandedBy(e, s1) == Hands(s1, members, 1);
  }

  /** A request alone in its bucket is a batch of one. */
  lemma Alone(s: State, id: Id)
    requires id in s.requests && BucketAt(s.index, CompatKeyOf(s.cfg, s.requests[id].spec)) <= {id}
    ensures IsBatch(s.cfg, s.requests, s.index, id, 0, [id])
  {
    assert OrderedCandidates(s.cfg, s.requests, s.index, id, 0, []);
    var none: seq<Id> := [];
    assert [id] == [id] + none[..Take(s.cfg, s.requests, BatchLimit(s.cfg, s.requests[id].spec), 1,
        s.requests[id].spec.Tokens(), none)];
  }

  /** What reserving one request does. */
  lemma ReservesOne(s: State, id: Id)
    requires Timeless(s) && id in s.requests && 1 in s.fleet.workers
    ensures var s1, b := Reserve(s, [id], 1), Fresh(s, 1);
            && s1.cfg == s.cfg && s1.epoch == s.epoch && s1.issued == s.issued + 1 && s1.draining == s.draining
            && s1.requests == s.requests[id := s.requests[id].(state := RequestState.Reserved, batch := Some(b),
                                                               history := WithLast(s.requests[id].history,
                                                                   AttemptReserved))]
            && s1.index == Remove(s.cfg, s.index, id, SPEC) && s1.ledger == NoteDequeued(s.ledger, 1)
            && s1.fleet == OpenBatch(s.fleet, 1, b, 1, 1)
  {
    UnitCosts(s, [id]);
    hide BatchUnits, Remove, NoteDequeued, Account;
    var s0 := Open(s, [id], 1);
    assert [id][1..] == [];
    assert ReserveAll(s0, [id], Fresh(s, 1)) == ReserveAll(ReserveOne(s0, id, Fresh(s, 1)), [], Fresh(s, 1));
  }

  function TakenRecord(): Request {
    Waits(2, 1).(state := RequestState.Reserved, batch := Some(3), history := [Attempt(2, 1, AttemptReserved, NO_ID)])
  }

  function TakenWorker(n: int): Worker {
    IdleWorker(n).(reserved := 1, batchUnits := map[3 := 1], batchPending := map[3 := 1])
  }

  /** The request is reserved on the worker, in batch 3. */
  ghost predicate IsTaken(s: State, n: int) {
    && s.cfg == CFG && s.epoch == 1 && s.issued == 3 && !s.draining && s.requests == map[1 := TakenRecord()]
    && s.index == EMPTY_INDEX && s.ledger == Ledger(map[1 := Tenant(1, 0)], 1)
    && s.fleet == Fleet(map[1 := TakenWorker(n)], 1, 0)
  }

  const FIRST: Handout := Handout(1, 1, 2, 1)

  lemma ReachTaken(n: int) returns (s: State)
    requires n > 0
    ensures Reaches(s, {FIRST}, true) && IsTaken(s, n)
  {
    var s0 := ReachOne(n);
    hide Reaches, IsOne, IsTaken;
    OneIsReady(s0, n);
    s := ReachPlanned(s0, {}, true, 1, [1]);
    TakenAfter(s0, s, n);
  }

  lemma OneIsReady(s: State, n: int)
    requires IsOne(s, n) && n > 0
    ensures Timeless(s) && 1 in s.requests && s.requests[1].state == RequestState.Queued && Listed(s, [1])
        && HasRoom(s, 1)
    ensures IsBatch(s.cfg, s.requests, s.index, 1, 0, [1])
  {
    Alone(s, 1);
  }

  lemma TakenAfter(s0: State, s: State, n: int)
    requires IsOne(s0, n) && Timeless(s0) && Listed(s0, [1]) && s == Reserve(s0, [1], 1)
    ensures IsTaken(s, n) && {} + Hands(s, [1], 1) == {FIRST}
  {
    ReservesOne(s0, 1);
    hide Reserve;
    LastRemove();
    LastNote();
    hide Remove, NoteDequeued;
    HandsOne(s, 1);
    var r := s0.requests[1];
    assert WithLast(r.history, AttemptReserved) == TakenRecord().history;
    assert s.fleet.workers[1].batchUnits == map[3 := 1] && s.fleet.workers[1].batchPending == map[3 := 1];
    assert s.requests == map[1 := TakenRecord()] && s.fleet.workers == map[1 := TakenWorker(n)];
  }

  lemma HandsOne(s: State, id: Id)
    requires id in s.requests
    ensures Hands(s, [id], 1) == {Handout(1, id, s.requests[id].attempt, s.requests[id].generation)}
  {
    assert id in [id];
  }

  lemma LastRemove()
    ensures Remove(CFG, Index({1}, map[KEY := {1}], 1), 1, SPEC) == EMPTY_INDEX
  {
    assert CompatKeyOf(CFG, SPEC) == KEY;
    hide CompatKeyOf;
    var ix := Remove(CFG, Index({1}, map[KEY := {1}], 1), 1, SPEC);
    assert ix.queued == {} && ix.compat == map[];
  }

  lemma LastNote()
    ensures NoteDequeued(Ledger(map[1 := Tenant(1, 1)], 1), 1) == Ledger(map[1 := Tenant(1, 0)], 1)
  {
  }

  // ----- the runs -----

  /** What worker w says about the first request, its first attempt being number 2 of generation 1. */
  function Says(w: Id, boot: Id, available: int): Report { Report(1, w, boot, 1, 2, 1, Succeeded, Internal, available) }

  /** A worker completes a request that it was never given, and that is still queued: the completion is accepted
      and the queue no longer agrees with the requests. */
  lemma CompletesQueuedRequest() returns (s: State)
    ensures Reaches(s, {}, true) && 1 in s.requests && s.requests[1].state == RequestState.Queued
    ensures CompleteAnswer(s, Says(1, 1, 0)) == Accepted && !QueueOk(Complete(s, Says(1, 1, 0), 0))
  {
    hide Reaches, IsOne, QueueOk, RecordsOk, UnitsOk, BaselineOk, Complete, Screen, CompleteAnswer;
    s := ReachOne(1);
    ReachedOrderly(s, {});
    OnePassesScreen(s);
    CompleteQueueExact(s, Says(1, 1, 0), 0);
  }

  lemma OnePassesScreen(s: State)
    requires IsOne(s, 1)
    ensures 1 in s.requests && s.requests[1].state == RequestState.Queued && Screen(s, Says(1, 1, 0)).None?
    ensures CompleteAnswer(s, Says(1, 1, 0)) == Accepted
  {
  }

  /** The identifier of a queued request is submitted again: the counter runs ahead of the queued set. */
  lemma ReusesQueuedId() returns (s: State)
    ensures Reaches(s, {}, true) && Reuses(s, SubmitEvent(SPEC, Some(1), 0), 1)
    ensures !QueueOk(Submit(s, SPEC, Some(1), 0))
  {
    hide Reaches, IsOne, QueueOk, RecordsOk, UnitsOk, BaselineOk, Submit, Reuses, Forgotten;
    s := ReachOne(1);
    ReachedOrderly(s, {});
    OneCanBeReused(s);
    ReuseQueueExact(s, SPEC, Some(1), 0);
  }

  lemma OneCanBeReused(s: State)
    requires IsOne(s, 1)
    ensures 1 in s.requests && s.requests[1].state == RequestState.Queued && Reuses(s, SubmitEvent(SPEC, Some(1), 0), 1)
  {
    Admitted(s);
    hide Admission;
  }

  /** A request is cancelled and its identifier submitted again: the cancelled request is queued once more. */
  lemma RevivesCancelledRequest() returns (s: State)
    ensures Reaches(s, {}, true) && 1 in s.requests && s.requests[1].state == RequestState.Cancelled
    ensures 1 in Submit(s, SPEC, Some(1), 0).requests
        && Submit(s, SPEC, Some(1), 0).requests[1].state == RequestState.Queued
  {
    var s0 := ReachOne(1);
    s := Cancel(s0, 1);
    hide Reaches;
    CancelledOne(s0, s);
    hide IsOne, Cancel;
    Grows(s0, {}, true, CancelEvent(1), s);
    assert {} + HandedBy(CancelEvent(1), s) == {};
    ReachedOrderly(s, {});
    hide RecordsOk, QueueOk, UnitsOk, BaselineOk, Submit;
    Admitted(s);
    hide Admission;
    ReuseRevives(s, SubmitEvent(SPEC, Some(1), 0), Submit(s, SPEC, Some(1), 0), 1);
  }

  lemma CancelledOne(s0: State, s: State)
    requires IsOne(s0, 1) && s == Cancel(s0, 1)
    ensures StepOk(s0, CancelEvent(1), s, {}, true)
    ensures 1 in s.requests && s.requests[1].state == RequestState.Cancelled && Welcomes(s)
  {
    hide Remove, WithLast;
    assert s.index.size == 0 by { LastRemove(); }
  }

  /** A reserved request is cancelled: its batch keeps a member that is gone. */
  lemma CancelsReservedRequest() returns (s: State)
    ensures Reaches(s, {FIRST}, true) && 1 in s.requests && s.requests[1].state == RequestState.Reserved
    ensures !BaselineOk(Cancel(s, 1), {FIRST})
  {
    hide Reaches, IsTaken, RecordsOk, BaselineOk, Cancel;
    s := ReachTaken(1);
    TakenIsReserved(s, 1);
    ReachedOrderly(s, {FIRST});
    CancelUnplacedExact(s, {FIRST}, 1);
  }

  lemma TakenIsReserved(s: State, n: int)
    requires IsTaken(s, n)
    ensures 1 in s.requests && s.requests[1].state == RequestState.Reserved && s.requests[1].batch == Some(3)
    ensures s.requests[1].attempt == 2 && s.requests[1].generation == 1
  {
  }

  /** With one request reserved and one queued, cancelling the reserved one makes the tenant's count of queued
      requests too small. */
  lemma CountFallsShort() returns (s: State)
    ensures Reaches(s, {FIRST}, true) && TenantsRight(s, true) && !TenantsRight(Cancel(s, 1), true)
  {
    var s0 := ReachTaken(1);
    hide Reaches;
    s := ReachSubmitted(s0, {FIRST}, true, 2);
    hide Submit, Insert, Push;
    assert s.requests == map[1 := TakenRecord(), 2 := Waits(5, 4)];
    assert TenantAt(s.ledger, 1) == Tenant(2, 1) && forall t :: t != 1 ==> TenantAt(s.ledger, t) == Tenant(0, 0);
    OneQueued(s);
    var w := LastWorker(s.requests[1].history);
    assert Cancel(s, 1) == FinishCancelled(s, 1, w);
    hide Cancel, FinishCancelled, QueuedRight;
    FinishCancelledTenants(s, 1, w, true);
  }

  lemma OneQueued(s: State)
    requires s.requests == map[1 := TakenRecord(), 2 := Waits(5, 4)]
    requires TenantAt(s.ledger, 1) == Tenant(2, 1) && forall t :: t != 1 ==> TenantAt(s.ledger, t) == Tenant(0, 0)
    ensures TenantsRight(s, true)
  {
    forall t ensures QueuedOf(s.requests, t) == if t == 1 then {2} else {} {}
  }

  /** The worker has confirmed the first request and reports all its n units free. */
  ghost predicate IsConfirmed(s: State, n: int) {
    && s.cfg == CFG && s.issued == 3 && !s.draining && s.index == EMPTY_INDEX
        && s.ledger == Ledger(map[1 := Tenant(1, 0)], 1)
    && s.requests.Keys == {1} && s.requests[1].spec == SPEC && s.requests[1].state == RequestState.Running
    && s.fleet.workers == map[1 := TakenWorker(n).(state := Busy, reserved := 0, running := 1, started := {3},
        inFlight := {1})]
  }

  lemma ReachConfirmed(n: int) returns (s: State)
    requires n > 0
    ensures Reaches(s, {FIRST}, true) && IsConfirmed(s, n)
  {
    hide Reaches, IsTaken, IsConfirmed, Confirm;
    var s0 := ReachTaken(n);
    s := ReachReported(s0, {FIRST}, true, Says(1, 1, n));
    ConfirmedAfter(s0, s, n);
  }

  lemma ReachReported(s: State, handed: set<Handout>, orderly: bool, r: Report) returns (s1: State)
    requires Reaches(s, handed, orderly) && Handout(r.worker, r.request, r.attempt, r.generation) in handed
    ensures Reaches(s1, handed, orderly) && s1 == Confirm(s, r)
  {
    hide Reaches, Confirm;
    s1 := Confirm(s, r);
    assert StepOk(s, ConfirmEvent(r), s1, handed, orderly);
    Grows(s, handed, orderly, ConfirmEvent(r), s1);
    assert handed + HandedBy(ConfirmEvent(r), s1) == handed;
  }

  lemma ConfirmedAfter(s0: State, s: State, n: int)
    requires IsTaken(s0, n) && n > 0 && s == Confirm(s0, Says(1, 1, n))
    ensures IsConfirmed(s, n)
  {
    assert ConfirmAnswer(s0, Says(1, 1, n)) == Confirmed;
    hide ConfirmAnswer;
    var r := s.fleet.workers[1];
    assert r.started == {3} && r.inFlight == {1};
    assert s.fleet.workers == map[1 := r];
  }

  /** A worker of one unit with one unit running reports one unit free, and is given another: an orderly run that
      ends with more units on the worker than it has. */
  lemma Oversubscribes() returns (s: State, handed: set<Handout>)
    ensures Reaches(s, handed, true) && 1 in s.fleet.workers
    ensures s.fleet.workers[1].reserved + s.fleet.workers[1].running > s.fleet.workers[1].capability.total
  {
    hide Reaches, IsConfirmed, Joined, IsBatch, Reserve, Timeless, HasRoom, Welcomes;
    var s0 := ReachConfirmed(1);
    ConfirmedWelcomes(s0);
    var s1 := ReachSubmitted(s0, {FIRST}, true, 2);
    SecondIsReady(s0, s1);
    s := ReachPlanned(s1, {FIRST}, true, 2, [2]);
    SecondBooked(s1, s);
    handed := {FIRST} + Hands(s, [2], 1);
  }

  lemma ConfirmedWelcomes(s: State)
    requires IsConfirmed(s, 1)
    ensures Welcomes(s) && 2 !in s.requests
  {
  }

  lemma SecondIsReady(s0: State, s: State)
    requires IsConfirmed(s0, 1) && Joined(s0, s, SPEC, 2, 0)
    ensures Timeless(s) && Listed(s, [2]) && HasRoom(s, 1) && 2 in s.requests
        && s.requests[2].state == RequestState.Queued
    ensures IsBatch(s.cfg, s.requests, s.index, 2, 0, [2])
    ensures s.fleet.workers[1].reserved == 0 && s.fleet.workers[1].running == 1
        && s.fleet.workers[1].capability.total == 1
  {
    hide IsConfirmed, Joined, Insert, NoteQueued, NoteAdmitted, IsBatch;
    BusyHasRoom(s0);
    JoinedParts(s0, s, SPEC, 2, 0);
    SecondAlone(s);
  }

  lemma BusyHasRoom(s: State)
    requires IsConfirmed(s, 1)
    ensures HasRoom(s, 1) && Timeless(s) && s.cfg == CFG && s.index == EMPTY_INDEX
    ensures s.fleet.workers[1].reserved == 0 && s.fleet.workers[1].running == 1
        && s.fleet.workers[1].capability.total == 1
  {
  }

  lemma SecondAlone(s: State)
    requires s.cfg == CFG && 2 in s.requests && s.requests[2].spec == SPEC
        && s.index == Insert(CFG, EMPTY_INDEX, 2, SPEC)
    ensures IsBatch(s.cfg, s.requests, s.index, 2, 0, [2])
  {
    Alone(s, 2);
  }

  lemma SecondBooked(s0: State, s: State)
    requires Timeless(s0) && Listed(s0, [2]) && s == Reserve(s0, [2], 1)
    ensures 1 in s.fleet.workers && s.fleet.workers[1].capability == s0.fleet.workers[1].capability
    ensures s.fleet.workers[1].reserved == s0.fleet.workers[1].reserved + 1
        && s.fleet.workers[1].running == s0.fleet.workers[1].running
  {
    assert [2][0] in s0.requests;
    ReservesOne(s0, 2);
    hide Reserve, Remove, NoteDequeued;
  }

  /** Between plan and confirm the worker comes back under a new boot identity. Its batches are forgotten, but
      the attempt was handed to it: it may confirm the request, and the confirmation is taken, although nobody
      holds the batch. */
  lemma ConfirmsForgottenBatch() returns (s: State)
    ensures Reaches(s, {FIRST}, false) && 1 in s.requests && 1 in s.fleet.workers
    ensures FIRST == Handout(1, 1, s.requests[1].attempt, s.requests[1].generation)
    ensures ConfirmAnswer(s, Says(1, 2, 0)) == Confirmed && s.requests[1].batch == Some(3)
        && 3 !in s.fleet.workers[1].batchUnits
    ensures Reaches(Confirm(s, Says(1, 2, 0)), {FIRST}, false)
  {
    hide Reaches, IsTaken, Register, Confirm, ConfirmAnswer;
    var s0 := ReachTaken(1);
    Loosened(s0, {FIRST});
    var e := RegisterEvent(Reg(2, 1), 0, []);
    s := Register(s0, Reg(2, 1), 0, []);
    NothingInFlight(s0, 1);
    assert StepOk(s0, e, s, {FIRST}, false);
    Grows(s0, {FIRST}, false, e, s);
    assert {FIRST} + HandedBy(e, s) == {FIRST};
    BootedAgain(s0, s);
    var s1 := ReachReported(s, {FIRST}, false, Says(1, 2, 0));
  }

  lemma Loosened(s: State, handed: set<Handout>)
    requires Reaches(s, handed, true)
    ensures Reaches(s, handed, false)
  {
    hide OrderlyRun, ProtocolRun, Handed;
    var tr :| ReachedBy(tr, s, handed, true);
    assert ReachedBy(tr, s, handed, false);
  }

  lemma NothingInFlight(s: State, n: int)
    requires IsTaken(s, n)
    ensures Enumerates([], InFlightOn(s, 1))
  {
  }

  lemma BootedAgain(s0: State, s: State)
    requires IsTaken(s0, 1) && s == Register(s0, Reg(2, 1), 0, [])
    ensures 1 in s.requests && 1 in s.fleet.workers && s.requests[1] == TakenRecord()
        && s.fleet.workers[1].batchUnits == map[]
    ensures ConfirmAnswer(s, Says(1, 2, 0)) == Confirmed
  {
    assert RecoverRequests(s0, 1, [], 0) == s0;
    hide RecoverRequests, Total;
  }

  /** A second worker reports on a request that was handed to the first. Both reports are taken, and each of them
      breaks the batches. */
  lemma WrongWorkerReports() returns (s: State)
    ensures Reaches(s, {FIRST}, true)
    ensures ConfirmAnswer(s, Says(2, 1, 0)) == Confirmed && !BaselineOk(Confirm(s, Says(2, 1, 0)), {FIRST})
    ensures CompleteAnswer(s, Says(2, 1, 0)) == Accepted && !BaselineOk(Complete(s, Says(2, 1, 0), 0), {FIRST})
  {
    hide Reaches, IsTaken, Register, BaselineOk, UnitsOk, QueueOk, RecordsOk, Confirm, Complete, ConfirmAnswer,
         CompleteAnswer, Screen;
    var s0 := ReachTaken(1);
    var e := RegisterEvent(Registration(2, 1, Cap(1), Online), 0, []);
    s := Register(s0, e.reg, 0, []);
    SecondWorker(s0, s);
    FirstRegister(s0, {FIRST}, e);
    Grows(s0, {FIRST}, true, e, s);
    assert {FIRST} + HandedBy(e, s) == {FIRST};
    ReachedOrderly(s, {FIRST});
    ConfirmExact(s, {FIRST}, Says(2, 1, 0));
    CompleteExact(s, {FIRST}, Says(2, 1, 0), 0);
  }

  lemma SecondWorker(s0: State, s: State)
    requires IsTaken(s0, 1) && s == Register(s0, Registration(2, 1, Cap(1), Online), 0, [])
    ensures 2 !in s0.fleet.workers && 1 in s.requests && 2 in s.fleet.workers && s.requests[1].batch == Some(3)
    ensures 3 !in s.fleet.workers[2].batchUnits
    ensures ConfirmAnswer(s, Says(2, 1, 0)) == Confirmed && Screen(s, Says(2, 1, 0)).None?
        && CompleteAnswer(s, Says(2, 1, 0)) == Accepted
  {
    hide RecoverInFlight;
  }

  /** The units of a reserved batch are saved in the totals but not with the worker: recovering from this save
      leaves the books wrong, in whatever order the maps are walked. */
  lemma RecoversWrongTotals(
      o: Recovery.Walks, x: Recovery.Extras, d: Recovery.Doubles, saved: Time, cur: State, now: Time, order: seq<Id>)
    returns (s: State)
    ensures Reaches(s, {FIRST}, true)
    ensures Recovery.Walked(o, s) ==>
              !Conserved(Recovery.EnqueueAll(Recovery.Loaded(cur, Recovery.StateVal(s, o, x, d, saved), d, now), order,
                  now).fleet)
  {
    hide Reaches, Recovery.EnqueueAll, Recovery.Loaded, Recovery.StateVal, Recovery.Walked, Conserved, Recovery.NumAt;
    s := ReachTaken(1);
    assert s.fleet.reserved == 1;
    hide IsTaken;
    if Recovery.Walked(o, s) {
      Recovery.SavedTotals(s, o, x, d, saved);
      Recovery.SignedBack(1);
      Recovery.RecoveredUnitsExact(cur, Recovery.StateVal(s, o, x, d, saved), d, now, order);
    }
  }

  // ----- two requests in one batch -----

  /** Two requests of the same kind are waiting. */
  ghost predicate IsTwo(s: State, n: int) {
    && s.cfg == CFG && s.epoch == 1 && s.issued == 4 && !s.draining
        && s.requests == map[1 := Waits(2, 1), 2 := Waits(4, 3)]
    && s.index.queued == {1, 2} && BucketAt(s.index, KEY) == {1, 2}
    && s.fleet == Fleet(map[1 := IdleWorker(n)], 0, 0)
  }

  lemma ReachTwo(n: int) returns (s: State)
    requires n > 0
    ensures Reaches(s, {}, true) && IsTwo(s, n)
  {
    hide Reaches, IsOne, Joined;
    var s0 := ReachOne(n);
    OneWelcomes(s0, n);
    s := ReachSubmitted(s0, {}, true, 2);
    TwoAfter(s0, s, n);
  }

  lemma OneWelcomes(s: State, n: int)
    requires IsOne(s, n) && n > 0
    ensures Welcomes(s) && 2 !in s.requests
  {
  }

  lemma TwoAfter(s0: State, s: State, n: int)
    requires IsOne(s0, n) && Joined(s0, s, SPEC, 2, 0)
    ensures IsTwo(s, n)
  {
    hide Push, NoteQueued, NoteAdmitted;
    assert CompatKeyOf(CFG, SPEC) == KEY;
  }

  lemma TwoIsBatch(s: State, n: int)
    requires IsTwo(s, n)
    ensures IsBatch(s.cfg, s.requests, s.index, 1, 0, [1, 2])
  {
    assert CompatKeyOf(CFG, SPEC) == KEY;
    hide CompatKeyOf;
    assert forall x :: x in [2] <==> x == 2;
    assert Candidates(s.cfg, s.requests, s.index, 1, 0) == {2};
    assert OrderedCandidates(s.cfg, s.requests, s.index, 1, 0, [2]);
    assert BatchLimit(CFG, SPEC) == 2;
    assert Take(CFG, s.requests, 2, 1, 0, [2]) == 1;
    assert [1, 2] == [1] + [2][..1];
  }

  lemma TwoIsTimeless(s: State, n: int)
    requires IsTwo(s, n)
    ensures Timeless(s) && 1 in s.requests && s.requests[1].state == RequestState.Queued && Listed(s, [1, 2])
    ensures n >= 2 ==> HasRoom(s, 2)
  {
  }

  const SECOND: Handout := Handout(1, 2, 4, 3)

  /** Both requests are reserved in batch 5, of two units. */
  ghost predicate IsPair(s: State) {
    && s.cfg == CFG && s.epoch == 1 && s.requests.Keys == {1, 2}
    && (forall id :: id in s.requests ==>
        s.requests[id].batch == Some(5) && s.requests[id].state == RequestState.Reserved)
    && s.requests[1].attempt == 2 && s.requests[1].generation == 1 && s.requests[2].attempt == 4
        && s.requests[2].generation == 3
    && s.fleet == Fleet(map[1 := IdleWorker(2).(reserved := 2, batchUnits := map[5 := 2], batchPending := map[5 := 2])],
        2, 0)
  }

  lemma ReachPair() returns (s: State)
    ensures Reaches(s, {FIRST, SECOND}, true) && IsPair(s)
  {
    hide Reaches, IsTwo, IsBatch, Reserve, Timeless, HasRoom, Listed, IsPair;
    var s0 := ReachTwo(2);
    TwoIsBatch(s0, 2);
    TwoIsTimeless(s0, 2);
    s := ReachPlanned(s0, {}, true, 1, [1, 2]);
    PairAfter(s0, s);
    PairHands(s);
  }

  lemma PairAfter(s0: State, s: State)
    requires IsTwo(s0, 2) && Timeless(s0) && Listed(s0, [1, 2]) && s == Reserve(s0, [1, 2], 1)
    ensures IsPair(s)
  {
    var s1 := Open(s0, [1, 2], 1);
    UnitCosts(s0, [1, 2]);
    ReserveAllFrame(s1, [1, 2], 5);
    hide BatchUnits, ReserveAll;
    ReserveAllEpoch(s1, [1, 2], 5);
    assert 1 in [1, 2] && 2 in [1, 2];
    ReserveAllEffect(s1, [1, 2], 5, 1);
    ReserveAllEffect(s1, [1, 2], 5, 2);
    assert s.fleet.workers[1].batchUnits == map[5 := 2] && s.fleet.workers[1].batchPending == map[5 := 2];
    assert s.fleet.workers == map[1 := s.fleet.workers[1]];
  }

  lemma PairHands(s: State)
    requires IsPair(s)
    ensures {} + Hands(s, [1, 2], 1) == {FIRST, SECOND}
  {
    assert 1 in [1, 2] && 2 in [1, 2];
    assert FIRST in Hands(s, [1, 2], 1) && SECOND in Hands(s, [1, 2], 1);
    forall h | h in Hands(s, [1, 2], 1) ensures h == FIRST || h == SECOND {}
  }

  /** One of the two members of a started batch is confirmed, the other not, when the worker comes back under
      a new boot identity: units stay booked as running on a worker without batches. */
  lemma RestartLosesUnits() returns (s: State)
    ensures Reaches(s, {FIRST, SECOND}, true)
    ensures Enumerates([1], InFlightOn(s, 1)) && IsRestart(s, Reg(2, 2))
        && !Conserved(Register(s, Reg(2, 2), 0, [1]).fleet)
    ensures Reaches(Register(s, Reg(2, 2), 0, [1]), {FIRST, SECOND}, false)
  {
    hide Reaches, IsPair, Confirm, Register, Conserved, ProtocolOk, UnitsOk, BaselineOk, AdmissionOk, TenantsRight,
         IsRestart, Enumerates, InFlightOn;
    var s0 := ReachPair();
    s := ReachReported(s0, {FIRST, SECOND}, true, Says(1, 1, 2));
    HalfConfirmed(s0, s);
    ReachedOk(s, {FIRST, SECOND}, true);
    RegisterExact(s, Reg(2, 2), 0, [1], {FIRST, SECOND});
    Loosened(s, {FIRST, SECOND});
    var e := RegisterEvent(Reg(2, 2), 0, [1]);
    var s1 := Register(s, Reg(2, 2), 0, [1]);
    assert StepOk(s, e, s1, {FIRST, SECOND}, false);
    Grows(s, {FIRST, SECOND}, false, e, s1);
    assert {FIRST, SECOND} + HandedBy(e, s1) == {FIRST, SECOND};
  }

  lemma HalfConfirmed(s0: State, s: State)
    requires IsPair(s0) && s == Confirm(s0, Says(1, 1, 2))
    ensures 1 in s.fleet.workers && Enumerates([1], InFlightOn(s, 1)) && IsRestart(s, Reg(2, 2))
    ensures 5 in s.fleet.workers[1].started && !(Members(s.requests, 5) <= s.fleet.workers[1].inFlight)
  {
    assert ConfirmAnswer(s0, Says(1, 1, 2)) == Confirmed;
    hide ConfirmAnswer;
    assert s.fleet.workers[1].inFlight == {1};
    assert 2 in Members(s.requests, 5);
  }

  /** Two requests of one unit each wait for a worker of one unit. Either would fit, but they form a batch of two
      units, which is refused, now and for ever. */
  lemma BatchBlocksQueue(now: Time) returns (s: State)
    ensures Reaches(s, {}, true) && IsTwo(s, 1) && Drain.Blocked(s, 1, now)
  {
    hide Reaches, IsTwo, Drain.Blocked, IsBatch;
    s := ReachTwo(1);
    TwoIsTimeless(s, 1);
    TwoIsNext(s);
    TwoRefused(s);
    TwoBlocked(s);
    Drain.BlockedAtAnyTime(s, 1, 0, now);
  }

  lemma TwoIsNext(s: State)
    requires IsTwo(s, 1)
    ensures IsNext(s, 1, 0)
  {
    assert IsHead(s.requests, 1);
    forall j | IsHead(s.requests, j) ensures j == 1 { HeadsAgree(s.requests, j, 1); }
  }

  lemma TwoRefused(s: State)
    requires IsTwo(s, 1)
    ensures 1 in s.requests && 1 in s.fleet.workers && Drain.Refused(s, 1, 0)
  {
    TwoIsBatch(s, 1);
    TwoIsTimeless(s, 1);
    UnitCosts(s, [1, 2]);
    hide IsBatch, BatchUnits, BatchCost, Timeless;
    assert !(Ceil(2.0) <= 1) by { CeilBounds(2.0); }
    forall members, w | Drain.Leads(s, 1, members, 0) && w in s.fleet.workers && w != NO_ID
      ensures !Drain.Takes(s, w, 1, members, 0)
    {
      BatchUnique(s.cfg, s.requests, s.index, 1, 0, members, [1, 2]);
    }
  }

  lemma TwoBlocked(s: State)
    requires IsTwo(s, 1) && Timeless(s) && IsNext(s, 1, 0) && 1 in s.requests && 1 in s.fleet.workers
        && Drain.Refused(s, 1, 0)
    ensures Drain.Blocked(s, 1, 0)
    ensures forall id :: id in QueuedIds(s.requests) ==> s.requests[id].spec.deadline.None?
  {
    hide Drain.Refused, IsNext;
  }

  // ----- a later deadline leaves first -----

  function Due1(ms: int): Spec { SPEC.(deadline := Some(ms * TICKS_PER_MS)) }

  const FLOW: FlowKey := FlowKey(1, 0, 0, 0)

  const EARLY: ReadyEntry := ReadyEntry(1, 1, 100, 0)
  const LATE: ReadyEntry := ReadyEntry(2, 3, 90, 0)

  /** Queued at 0 ms with its deadline at 100 ms, and queued at 60 ms with its deadline at 150 ms. */
  ghost predicate IsInverted(s: State) {
    && s.cfg == CFG
    && s.requests == map[1 := FirstRecord(Due1(100), 2, 1, 0), 2 := FirstRecord(Due1(150), 4, 3, 60 * TICKS_PER_MS)]
    && s.index.queued == {1, 2} && s.fair.active == {FLOW} && s.fair.flows.Keys == {FLOW}
    && s.fair.flows[FLOW].pending == multiset{EARLY, LATE}
  }

  lemma ReachInverted() returns (s: State)
    ensures Reaches(s, {}, true) && IsInverted(s)
  {
    hide Reaches, Joined, Initial;
    Starts(CFG, 1);
    EmptyAdmits();
    var s0 := ReachAdmitted(Initial(CFG, 1), {}, true, Due1(100), 1, 0);
    HalfAdmits(s0);
    s := ReachAdmitted(s0, {}, true, Due1(150), 2, 60 * TICKS_PER_MS);
    InvertedAfter(s0, s);
  }

  lemma EmptyAdmits()
    ensures Due1(100).Valid() && Admission(Initial(CFG, 1), Due1(100), 0).0 == Admit && 1 !in Initial(CFG, 1).requests
  {
  }

  lemma HalfAdmits(s: State)
    requires Joined(Initial(CFG, 1), s, Due1(100), 1, 0)
    ensures Due1(150).Valid() && Admission(s, Due1(150), 60 * TICKS_PER_MS).0 == Admit && 2 !in s.requests
  {
    hide Joined, Admission;
    HalfParts(s);
    SecondAdmitted(s);
  }

  lemma HalfParts(s: State)
    requires Joined(Initial(CFG, 1), s, Due1(100), 1, 0)
    ensures s.cfg == CFG && !s.draining && s.fleet == EMPTY_FLEET && s.requests.Keys == {1} && s.index.size == 1
    ensures s.ledger == Ledger(map[1 := Tenant(1, 1)], 1)
  {
    hide Joined, NoteQueued, NoteAdmitted;
    JoinedParts(Initial(CFG, 1), s, Due1(100), 1, 0);
    FirstNotes();
  }

  lemma SecondAdmitted(s: State)
    requires s.cfg == CFG && !s.draining && s.fleet == EMPTY_FLEET && s.index.size == 1
    requires s.ledger == Ledger(map[1 := Tenant(1, 1)], 1)
    ensures Due1(150).Valid() && Admission(s, Due1(150), 60 * TICKS_PER_MS).0 == Admit
  {
  }

  /** What a submission does to the only flow. */
  lemma FlowGrows(s: State, s1: State, spec: Spec, id: Id, now: Time)
    requires Joined(s, s1, spec, id, now) && FlowKeyOf(spec) == FLOW
    requires s.fair.flows.Keys <= {FLOW} && s.fair.active == s.fair.flows.Keys
    requires FLOW in s.fair.flows ==> s.fair.flows[FLOW].pending != multiset{}
    ensures s1.fair.flows.Keys == {FLOW} && s1.fair.active == {FLOW}
    ensures s1.fair.flows[FLOW].pending == HeapAt(s.fair, FLOW) +
        multiset{EntryOf(id, FirstRecord(spec, Fresh(s, 2), Fresh(s, 1), now))}
  {
    hide Insert, NoteQueued, NoteAdmitted, KeyWeight, EntryOf;
  }

  lemma RecordsJoin(s: State, s1: State, spec: Spec, id: Id, now: Time)
    requires Joined(s, s1, spec, id, now)
    ensures s1.cfg == s.cfg && s1.issued == s.issued + 2
    ensures s1.requests == s.requests[id := FirstRecord(spec, Fresh(s, 2), Fresh(s, 1), now)]
        && s1.index.queued == s.index.queued + {id}
  {
    hide Push, NoteQueued, NoteAdmitted;
  }

  lemma EntriesInverted()
    ensures EntryOf(1, FirstRecord(Due1(100), 2, 1, 0)) == EARLY
    ensures EntryOf(2, FirstRecord(Due1(150), 4, 3, 60 * TICKS_PER_MS)) == LATE
    ensures FlowKeyOf(Due1(100)) == FLOW && FlowKeyOf(Due1(150)) == FLOW
  {
  }

  lemma InvertedAfter(s0: State, s: State)
    requires Joined(Initial(CFG, 1), s0, Due1(100), 1, 0) && Joined(s0, s, Due1(150), 2, 60 * TICKS_PER_MS)
    ensures IsInverted(s)
  {
    hide Joined;
    EntriesInverted();
    hide EntryOf, FlowKeyOf;
    RecordsJoin(Initial(CFG, 1), s0, Due1(100), 1, 0);
    FlowGrows(Initial(CFG, 1), s0, Due1(100), 1, 0);
    RecordsJoin(s0, s, Due1(150), 2, 60 * TICKS_PER_MS);
    FlowGrows(s0, s, Due1(150), 2, 60 * TICKS_PER_MS);
    hide FirstRecord;
    assert s.fair.flows[FLOW].pending == multiset{EARLY, LATE};
  }

  /** The selection takes the request with the later deadline. */
  lemma LaterDeadlineFirst() returns (s: State)
    ensures Reaches(s, {}, true) && 1 in QueuedIds(s.requests) && 2 in QueuedIds(s.requests)
    ensures FlowKeyOf(s.requests[1].spec) == FlowKeyOf(s.requests[2].spec)
    ensures s.requests[1].spec == Due1(100) && s.requests[2].spec == Due1(150)
    ensures Pick(s, 60 * TICKS_PER_MS, [], Some(2), s)
  {
    hide Reaches, Pick;
    s := ReachInverted();
    InvertedPick(s);
  }

  lemma InvertedPick(s: State)
    requires IsInverted(s)
    ensures Pick(s, 60 * TICKS_PER_MS, [], Some(2), s)
  {
    assert Due(s, 60 * TICKS_PER_MS) == {};
    assert ExpireAll(s, []) == s;
    LateIsTop(s);
    InvertedPruned(s);
    InvertedWins(s);
    hide Pruned, Wins;
  }

  lemma LateIsTop(s: State)
    requires IsInverted(s)
    ensures IsTop(HeapAt(s.fair, FLOW), LATE) && Live(s.requests, s.index.queued, LATE)
    ensures forall e :: IsTop(HeapAt(s.fair, FLOW), e) ==> e == LATE
  {
  }

  lemma InvertedPruned(s: State)
    requires IsInverted(s) && IsTop(HeapAt(s.fair, FLOW), LATE) && Live(s.requests, s.index.queued, LATE)
    ensures Pruned(s.requests, Runnable(s.requests, s.index.queued, 60 * TICKS_PER_MS), s.fair, s.fair)
  {
    assert Runnable(s.requests, s.index.queued, 60 * TICKS_PER_MS) == s.index.queued;
    hide Live, IsTop;
    var p := s.fair.flows[FLOW].pending;
    assert LATE in p;
    assert HasLive(s.requests, s.index.queued, HeapAt(s.fair, FLOW));
    assert PrunedHeap(s.requests, s.index.queued, p, p);
    hide HasLive, PrunedHeap;
  }

  lemma InvertedWins(s: State)
    requires IsInverted(s) && IsTop(HeapAt(s.fair, FLOW), LATE)
    requires forall e :: IsTop(HeapAt(s.fair, FLOW), e) ==> e == LATE
    ensures Wins(s.cfg, s.requests, s.fair, 60 * TICKS_PER_MS, FLOW, LATE)
  {
    hide IsTop, EffectiveFinish;
  }

  // ----- a crash after a dispatch -----

  /** A request is queued when the scheduler is saved; then it is dispatched, and the scheduler crashes. Whatever
      scheduler with another salt recovers from the file, it has the request queued under the attempt that was handed
      out; the worker's completion of that attempt is accepted, and the queue is out of order. */
  lemma CrashForgetsDispatch(cur: State, p: Passage) returns (s: State, crashed: State)
    ensures Reaches(s, {}, true) && Reaches(crashed, {FIRST}, true)
    ensures Step(s, PlanEvent(1, 0, [], Dispatch(1, 3, [1])), crashed)
    ensures cur.cfg == CFG.(salt := cur.cfg.salt) && cur.cfg.salt != 0 &&
            Storable(s, p) && Enumerates(p.order, Recovery.WaitingIds(Taken(s, cur, p).requests)) ==>
              && Recover(cur, File(s, p), p).Some?
              && ForgotDispatch(Recover(cur, File(s, p), p).value)
  {
    hide Reaches, IsOne, Reserve, Storable, Enumerates, Recover, File, Recovery.Revived, Timeless, Listed, HasRoom,
         IsBatch, Plan, ForgotDispatch, IsTaken;
    s := ReachOne(1);
    OneIsReady(s, 1);
    crashed := ReachPlanned(s, {}, true, 1, [1]);
    Planned(s, 1, [1]);
    TakenAfter(s, crashed, 1);
    OneIssued(s, 1);
    if cur.cfg == CFG.(salt := cur.cfg.salt) && cur.cfg.salt != 0 &&
       Storable(s, p) && Enumerates(p.order, Recovery.WaitingIds(Taken(s, cur, p).requests)) {
      RecoversForgotten(s, cur, p);
    }
  }

  lemma OneIssued(s: State, n: int)
    requires IsOne(s, n)
    ensures s.issued == 2 && s.cfg == CFG && Fresh(s, 1) == 3
  {
  }

  /** The first request is queued under an attempt that was handed out, and a completion of that attempt is accepted
      and breaks the queue. */
  ghost predicate ForgotDispatch(s: State) {
    && QueueOk(s) && 1 in s.requests && s.requests[1].state == RequestState.Queued
        && s.requests[1].attempt == FIRST.attempt
    && CompleteAnswer(s, Says(1, 1, 0)) == Accepted && !QueueOk(Complete(s, Says(1, 1, 0), 0))
  }

  lemma OneNames(s: State, cur: State)
    requires IsOne(s, 1) && cur.cfg == CFG.(salt := cur.cfg.salt) && cur.cfg.salt != 0
    ensures Succeeds(s, {FIRST}, cur) && Agrees(s, {FIRST})
  {
    assert IdAt(CFG, 1) == 1 && IdAt(CFG, 2) == 2;
    Crashes.NamedIsSpent(CFG, 2, 1, cur.cfg, cur.issued);
    Crashes.NamedIsSpent(CFG, 2, 2, cur.cfg, cur.issued);
  }

  lemma RecoversForgotten(s: State, cur: State, p: Passage)
    requires IsOne(s, 1) && Reaches(s, {}, true) && cur.cfg == CFG.(salt := cur.cfg.salt) && cur.cfg.salt != 0
    requires Storable(s, p) && Enumerates(p.order, Recovery.WaitingIds(Taken(s, cur, p).requests))
    ensures Recover(cur, File(s, p), p).Some? && ForgotDispatch(Recover(cur, File(s, p), p).value)
  {
    hide Reaches, IsOne, Storable, Enumerates, Recover, File, Recovery.Revived, Recovery.EnqueueAll, RecordsOk, QueueOk,
         AdmissionOk, HandedOk, HandedOnce, FlightsOk, TenantsRight, UnitsOk, BaselineOk, Succeeds, Agrees, Sound,
         Unhanded, Complete, ForgotDispatch;
    ReachedOk(s, {}, true);
    OneNames(s, cur);
    RecoveredIsSound(s, {FIRST}, cur, p);
    RecoversWhatWasSaved(s, cur, p);
    Recovery.EnqueueAllFrame(Taken(s, cur, p), p.order, p.now);
    RevivedOne(s, cur, p, Recover(cur, File(s, p), p).value);
  }

  lemma RevivedOne(s: State, cur: State, p: Passage, s1: State)
    requires IsOne(s, 1) && RecordsOk(s1) && QueueOk(s1) && s1.requests == Taken(s, cur, p).requests
    requires s1.fleet == Taken(s, cur, p).fleet && s1.epoch == Taken(s, cur, p).epoch
    ensures ForgotDispatch(s1)
  {
    hide RecordsOk, QueueOk, Complete;
    assert 1 in s1.requests && s1.requests[1].state == RequestState.Queued && s1.requests[1].attempt == 2;
    assert 1 in s1.fleet.workers && s1.fleet.workers[1].boot == 1;
    assert Screen(s1, Says(1, 1, 0)).None?;
    CompleteQueueExact(s1, Says(1, 1, 0), 0);
  }
}
