/** Two requests that share a batch they should not: runs in which a batch overfills
    an empty worker, or is sent to a worker that cannot run all of it. */
module Pairings {
  import opened Types
  import opened ReadyQueue
  import opened Ledgers
  import opened Fleets
  import opened Batching
  import opened Machine
  import opened Protocol
  import Reservations
  import opened Drain
  import opened Witnesses

  /** The usual settings, except that phases may be mixed. */
  function Mixing(mix: bool): Config { CFG.(allowPhaseMix := mix) }

  /** Like the usual request, except for its cost, phase and adapter. */
  predicate Usual(spec: Spec) {
    spec == SPEC.(cost := spec.cost, phase := spec.phase, adapter := spec.adapter) && spec.cost >= 0.0
  }

  function Newcomer(cap: Capability): Worker { Worker(1, cap, Online, cap.available, 0, 0, map[], map[], {}, {}) }

  // ----- both are submitted, then the worker registers -----

  ghost predicate Alone(s: State, mix: bool) {
    && s.cfg == Mixing(mix) && !s.draining && s.fleet == EMPTY_FLEET && s.ledger.admitted <= 1 && s.index.size <= 1
    && TenantAt(s.ledger, 1).admitted <= 1 && TenantAt(s.ledger, 1).queued <= 1
  }

  lemma AloneAdmits(s: State, mix: bool, spec: Spec)
    requires Alone(s, mix) && Usual(spec)
    ensures spec.Valid() && Admission(s, spec, 0).0 == Admit
  {
  }

  lemma StillAlone(s: State, mix: bool, spec: Spec)
    requires Joined(Initial(Mixing(mix), 1), s, spec, 1, 0) && Usual(spec)
    ensures Alone(s, mix)
  {
    hide Joined;
    JoinedParts(Initial(Mixing(mix), 1), s, spec, 1, 0);
    FirstNotes();
    hide NoteQueued, NoteAdmitted;
  }

  /** Requests 1 and 2 wait; nobody has registered yet. */
  ghost predicate BothWait(s: State, mix: bool, a: Spec, b: Spec) {
    && s.cfg == Mixing(mix) && s.fleet == EMPTY_FLEET && s.requests.Keys == {1, 2}
    && s.requests[1].spec == a && s.requests[2].spec == b
    && s.requests[1].state == RequestState.Queued && s.requests[2].state == RequestState.Queued
    && s.index.queued == {1, 2} && BucketAt(s.index, CompatKeyOf(s.cfg, a)) == {1, 2}
  }

  lemma BothAfter(s0: State, s: State, mix: bool, a: Spec, b: Spec)
    requires Joined(Initial(Mixing(mix), 1), s0, a, 1, 0) && Joined(s0, s, b, 2, 0)
    requires CompatKeyOf(Mixing(mix), a) == CompatKeyOf(Mixing(mix), b)
    ensures BothWait(s, mix, a, b)
  {
    hide Joined, CompatKeyOf, NoteAdmitted, NoteQueued;
    JoinedParts(Initial(Mixing(mix), 1), s0, a, 1, 0);
    JoinedParts(s0, s, b, 2, 0);
  }

  lemma ReachBothWait(mix: bool, a: Spec, b: Spec) returns (s: State)
    requires Usual(a) && Usual(b) && CompatKeyOf(Mixing(mix), a) == CompatKeyOf(Mixing(mix), b)
    ensures Reaches(s, {}, true) && BothWait(s, mix, a, b)
  {
    hide Reaches, Joined, Initial, Alone, Admission, BothWait, CompatKeyOf, Usual;
    var start := Initial(Mixing(mix), 1);
    Starts(Mixing(mix), 1);
    StartsAlone(mix);
    AloneAdmits(start, mix, a);
    var s0 := ReachAdmitted(start, {}, true, a, 1, 0);
    StillAlone(s0, mix, a);
    AloneAdmits(s0, mix, b);
    OnlyFirst(s0, mix, a);
    s := ReachAdmitted(s0, {}, true, b, 2, 0);
    BothAfter(s0, s, mix, a, b);
  }

  lemma StartsAlone(mix: bool)
    ensures Alone(Initial(Mixing(mix), 1), mix) && 1 !in Initial(Mixing(mix), 1).requests
  {
  }

  lemma OnlyFirst(s: State, mix: bool, a: Spec)
    requires Joined(Initial(Mixing(mix), 1), s, a, 1, 0)
    ensures 2 !in s.requests
  {
    hide Joined;
    JoinedParts(Initial(Mixing(mix), 1), s, a, 1, 0);
  }

  /** The same with worker 1 registered. */
  ghost predicate Attended(s: State, mix: bool, a: Spec, b: Spec, cap: Capability) {
    && BothWait(s.(fleet := EMPTY_FLEET), mix, a, b) && s.fleet == Fleet(map[1 := Newcomer(cap)], 0, 0)
  }

  lemma ReachAttended(mix: bool, a: Spec, b: Spec, cap: Capability) returns (s: State)
    requires Usual(a) && Usual(b) && CompatKeyOf(Mixing(mix), a) == CompatKeyOf(Mixing(mix), b)
    ensures Reaches(s, {}, true) && Attended(s, mix, a, b, cap)
  {
    hide Reaches, BothWait, CompatKeyOf, Usual, Attended;
    var s0 := ReachBothWait(mix, a, b);
    var e := RegisterEvent(Registration(1, 1, cap, Online), 0, []);
    s := Register(s0, e.reg, 0, []);
    AttendedAfter(s0, s, mix, a, b, cap);
    hide Register;
    FirstRegister(s0, {}, e);
    Grows(s0, {}, true, e, s);
    assert {} + HandedBy(e, s) == {};
  }

  lemma AttendedAfter(s0: State, s: State, mix: bool, a: Spec, b: Spec, cap: Capability)
    requires BothWait(s0, mix, a, b) && s == Register(s0, Registration(1, 1, cap, Online), 0, [])
    ensures Attended(s, mix, a, b, cap) && 1 !in s0.fleet.workers
  {
    hide RecoverInFlight;
    assert s.(fleet := EMPTY_FLEET) == s0;
  }

  // ----- the worker gets both -----

  lemma BothLead(s: State, mix: bool, a: Spec, b: Spec, cap: Capability)
    requires Attended(s, mix, a, b, cap) && Usual(a) && Usual(b)
    ensures 1 in s.requests && Leads(s, 1, [1, 2], 0)
  {
    hide CompatKeyOf;
    assert forall x :: x in [2] <==> x == 2;
    assert Candidates(s.cfg, s.requests, s.index, 1, 0) == {2};
    assert OrderedCandidates(s.cfg, s.requests, s.index, 1, 0, [2]);
    assert BatchLimit(s.cfg, a) == 2;
    assert Take(s.cfg, s.requests, 2, 1, 0, [2]) == 1;
    assert [1, 2] == [1] + [2][..1];
  }

  lemma ReachShared(mix: bool, a: Spec, b: Spec, cap: Capability) returns (s: State, handed: set<Handout>)
    requires Usual(a) && Usual(b) && CompatKeyOf(Mixing(mix), a) == CompatKeyOf(Mixing(mix), b)
    requires var cost, units := ChargedCost(a.cost) + ChargedCost(b.cost), CeilCost(a.cost) + CeilCost(b.cost);
             Eligible(Newcomer(cap), a, cost, 0) && units <= cap.available
    ensures Reaches(s, handed, true) && Shared(s, handed, a, b, cap)
  {
    hide Reaches, Attended, CompatKeyOf, Usual, Leads, Reserve, Eligible, CeilCost, ChargedCost;
    var s0 := ReachAttended(mix, a, b, cap);
    BothLead(s0, mix, a, b, cap);
    SharedPlan(s0, mix, a, b, cap);
    s := Reserve(s0, [1, 2], 1);
    var e := PlanEvent(1, 0, [], Dispatch(1, Fresh(s0, 1), [1, 2]));
    assert StepOk(s0, e, s, {}, true) by { hide Plan; }
    Grows(s0, {}, true, e, s);
    handed := {} + HandedBy(e, s);
    SharedAfter(s0, s, mix, a, b, cap, e);
  }

  /** Both requests are reserved in one batch on the worker, which books their rounded costs. */
  ghost predicate Shared(s: State, handed: set<Handout>, a: Spec, b: Spec, cap: Capability) {
    && s.requests.Keys == {1, 2} && s.requests[1].spec == a && s.requests[2].spec == b
    && s.requests[1].state == RequestState.Reserved && s.requests[2].state == RequestState.Reserved
    && s.requests[1].batch == s.requests[2].batch
    && Handout(1, 1, s.requests[1].attempt, s.requests[1].generation) in handed
    && Handout(1, 2, s.requests[2].attempt, s.requests[2].generation) in handed
    && s.fleet.workers.Keys == {1} && s.fleet.workers[1].capability == cap
    && s.fleet.workers[1].reserved == CeilCost(a.cost) + CeilCost(b.cost)
  }

  lemma PairDemand(s: State, a: Spec, b: Spec)
    requires 1 in s.requests && 2 in s.requests && s.requests[1].spec == a && s.requests[2].spec == b
    ensures Known(s, [1, 2]) && BatchCost(s.requests, [1, 2]) == ChargedCost(a.cost) + ChargedCost(b.cost)
    ensures BatchUnits(s.requests, [1, 2]) == CeilCost(a.cost) + CeilCost(b.cost)
  {
    hide CeilCost, ChargedCost;
    var none: seq<Id> := [];
    assert [1, 2][1..] == [2] && [2][1..] == none;
    assert BatchUnits(s.requests, none) == 0 && BatchCost(s.requests, none) == 0.0;
    assert BatchCost(s.requests, [2]) == ChargedCost(b.cost) + BatchCost(s.requests, none);
    assert BatchUnits(s.requests, [2]) == CeilCost(b.cost) + BatchUnits(s.requests, none);
  }

  lemma SharedPlan(s: State, mix: bool, a: Spec, b: Spec, cap: Capability)
    requires Attended(s, mix, a, b, cap) && Usual(a) && Usual(b) && 1 in s.requests && Leads(s, 1, [1, 2], 0)
    requires var cost, units := ChargedCost(a.cost) + ChargedCost(b.cost), CeilCost(a.cost) + CeilCost(b.cost);
             Eligible(Newcomer(cap), a, cost, 0) && units <= cap.available
    ensures Known(s, [1, 2]) && 1 in s.fleet.workers
    ensures Plan(s, 1, 0, [], Dispatch(1, Fresh(s, 1), [1, 2]), Reserve(s, [1, 2], 1))
  {
    hide IsBatch, Reserve, Eligible, CeilCost, ChargedCost;
    assert Due(s, 0) == {};
    PairDemand(s, a, b);
    hide BatchUnits, BatchCost;
    assert PlanBatch(s, 1, 0, [1, 2], 1, Dispatch(1, Fresh(s, 1), [1, 2]), Reserve(s, [1, 2], 1));
    assert ExpireAll(s, []) == s;
  }

  lemma SharedAfter(s0: State, s: State, mix: bool, a: Spec, b: Spec, cap: Capability, e: Event)
    requires Attended(s0, mix, a, b, cap) && Known(s0, [1, 2]) && 1 in s0.fleet.workers && s == Reserve(s0, [1, 2], 1)
    requires e == PlanEvent(1, 0, [], Dispatch(1, Fresh(s0, 1), [1, 2]))
    ensures Shared(s, {} + HandedBy(e, s), a, b, cap)
  {
    hide CompatKeyOf, CeilCost, IdAt, Reserve;
    SharedUnits(s0, s, mix, a, b, cap);
    SharedRecord(s0, s, mix, a, b, cap, 1);
    SharedRecord(s0, s, mix, a, b, cap, 2);
    hide Attended;
    assert 1 in [1, 2] && 2 in [1, 2];
  }

  lemma SharedRecord(s0: State, s: State, mix: bool, a: Spec, b: Spec, cap: Capability, i: Id)
    requires Attended(s0, mix, a, b, cap) && Known(s0, [1, 2]) && 1 in s0.fleet.workers && s == Reserve(s0, [1, 2], 1)
    requires i in [1, 2]
    ensures i in s.requests && s.requests[i].spec == (if i == 1 then a else b)
    ensures s.requests[i].state == RequestState.Reserved && s.requests[i].batch == Some(Fresh(s0, 1))
  {
    hide CompatKeyOf, CeilCost, IdAt, BatchUnits, ReserveAll;
    ReserveAllEffect(Open(s0, [1, 2], 1), [1, 2], Fresh(s0, 1), i);
  }

  lemma SharedUnits(s0: State, s: State, mix: bool, a: Spec, b: Spec, cap: Capability)
    requires Attended(s0, mix, a, b, cap) && Known(s0, [1, 2]) && 1 in s0.fleet.workers && s == Reserve(s0, [1, 2], 1)
    ensures s.requests.Keys == {1, 2} && s.fleet.workers.Keys == {1} && s.fleet.workers[1].capability == cap
    ensures s.fleet.workers[1].reserved == CeilCost(a.cost) + CeilCost(b.cost)
  {
    hide CompatKeyOf, CeilCost, IdAt, ReserveAll, BatchUnits;
    PairDemand(s0, a, b);
    ReserveAllFrame(Open(s0, [1, 2], 1), [1, 2], Fresh(s0, 1));
  }

  // ----- three ways to go wrong -----

  /** Two requests of cost 1.5 on an empty worker of three units that reports four free: the batch costs three units,
      which is tested, and books four. */
  lemma RoundingOverfills() returns (s: State, handed: set<Handout>)
    ensures Reaches(s, handed, true) && 1 in s.fleet.workers && s.fleet.workers[1].capability.total == 3
    ensures s.fleet.workers[1].reserved == 4
  {
    hide Reaches;
    var spec := SPEC.(cost := 1.5);
    Reservations.WholeCeil(2, 1.5);
    Reservations.WholeCeil(3, 3.0);
    s, handed := ReachShared(false, spec, spec, Capability(3, 4, [], [], [], []));
  }

  /** With phase mixing on, a request is dispatched to a worker that does not support its phase. */
  lemma MixesPhases() returns (s: State, handed: set<Handout>)
    ensures Reaches(s, handed, true) && 2 in s.requests && 1 in s.fleet.workers
    ensures Handout(1, 2, s.requests[2].attempt, s.requests[2].generation) in handed
    ensures s.requests[2].spec.phase == 1 && !Compatible(s.requests[2].spec, s.fleet.workers[1].capability)
  {
    hide Reaches;
    Reservations.WholeCeil(2, 2.0);
    Reservations.WholeCeil(1, 1.0);
    s, handed := ReachShared(true, SPEC, SPEC.(phase := 1), Capability(2, 2, [], [], [], [0]));
  }

  /** A request that needs adapter 0 is dispatched, with one that needs none, to a worker without that adapter. */
  lemma MixesAdapters() returns (s: State, handed: set<Handout>)
    ensures Reaches(s, handed, true) && 2 in s.requests && 1 in s.fleet.workers
    ensures Handout(1, 2, s.requests[2].attempt, s.requests[2].generation) in handed
    ensures s.requests[2].spec.adapter == Some(0) && !Compatible(s.requests[2].spec, s.fleet.workers[1].capability)
  {
    hide Reaches;
    Reservations.WholeCeil(2, 2.0);
    Reservations.WholeCeil(1, 1.0);
    s, handed := ReachShared(false, SPEC, SPEC.(adapter := Some(0)), Capability(2, 2, [], [], [5], []));
  }
}
