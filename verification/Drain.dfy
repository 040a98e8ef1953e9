/** Draining the queue through one worker: what one dispatched batch does to the
    scheduler when its worker confirms and completes every member. */
module Drain {
  import opened Types
  import opened Collections
  import opened ReadyQueue
  import opened Fleets
  import opened Batching
  import opened Machine
  import opened Lifecycle
  import opened Protocol
  import opened Selection
  import opened Baseline

  // ----- the setting -----

  /** These queued requests could form a batch: one bucket, within the head's size limit and the
      token limit. */
  ghost predicate Possible(cfg: Config, rs: map<Id, Request>, members: seq<Id>) {
    && |members| >= 1 && Distinct(members)
    && (forall i :: 0 <= i < |members| ==> members[i] in rs && rs[members[i]].state == RequestState.Queued)
    && (forall i :: 0 <= i < |members| ==>
        CompatKeyOf(cfg, rs[members[i]].spec) == CompatKeyOf(cfg, rs[members[0]].spec))
    && |members| <= BatchLimit(cfg, rs[members[0]].spec)
    && (cfg.maxTokens > 0 && |members| > 1 ==> TokensOf(rs, members) <= cfg.maxTokens)
  }

  /** Worker r can run every queued request and has room for every batch they could form. */
  ghost predicate Suffices(cfg: Config, rs: map<Id, Request>, r: Worker) {
    && (forall id :: id in QueuedIds(rs) ==> Compatible(rs[id].spec, r.capability))
    && (forall members :: Possible(cfg, rs, members) ==>
          BatchUnits(rs, members) <= r.available && BatchUnits(rs, members) <= r.capability.total)
  }

  /** One worker, online, holding nothing, able to run whatever is queued. */
  ghost predicate Ready(s: State, w: Id) {
    && RecordsOk(s) && QueueOk(s)
    && w != NO_ID && s.fleet.workers.Keys == {w} && s.fleet.reserved == 0 && s.fleet.running == 0
    && Idle(s.fleet.workers[w]) && s.fleet.workers[w].state == Online
    && Suffices(s.cfg, s.requests, s.fleet.workers[w])
  }

  /** From s to s1 queued requests were completed or expired, and nothing else changed about the
      requests. */
  ghost predicate Drains(s: State, s1: State) {
    && s1.cfg == s.cfg && s1.requests.Keys == s.requests.Keys
    && forall id :: id in s.requests ==>
         && s1.requests[id].spec == s.requests[id].spec
         && (if s.requests[id].state == RequestState.Queued
             then s1.requests[id].state in {RequestState.Queued, RequestState.Completed, RequestState.Expired}
             else s1.requests[id] == s.requests[id])
  }

  lemma DrainsTrans(a: State, b: State, c: State)
    requires Drains(a, b) && Drains(b, c)
    ensures Drains(a, c)
  {
  }

  lemma DrainsSelf(s: State)
    ensures Drains(s, s)
  {
  }

  lemma {:induction false} SameSpecs(rs: map<Id, Request>, rs1: map<Id, Request>, ids: seq<Id>)
    requires forall i :: 0 <= i < |ids| ==> ids[i] in rs && ids[i] in rs1 && rs1[ids[i]].spec == rs[ids[i]].spec
    ensures TokensOf(rs1, ids) == TokensOf(rs, ids) && BatchUnits(rs1, ids) == BatchUnits(rs, ids)
    decreases |ids|
  {
    if ids != [] { SameSpecs(rs, rs1, ids[1..]); }
  }

  /** What sufficed still does when the queue has only shrunk. */
  lemma StillSuffices(s: State, s1: State, r: Worker, r1: Worker)
    requires Drains(s, s1) && Suffices(s.cfg, s.requests, r) && r1.capability == r.capability
        && r1.available == r.available
    ensures Suffices(s1.cfg, s1.requests, r1)
  {
    var rs, rs1 := s.requests, s1.requests;
    forall members | Possible(s1.cfg, rs1, members)
      ensures BatchUnits(rs1, members) <= r1.available && BatchUnits(rs1, members) <= r1.capability.total
    {
      forall i | 0 <= i < |members| ensures members[i] in rs && rs[members[i]].state == RequestState.Queued &&
          rs1[members[i]].spec == rs[members[i]].spec {}
      SameSpecs(rs, rs1, members);
      assert Possible(s.cfg, rs, members);
    }
  }

  // ----- planning succeeds -----

  lemma BatchIsPossible(s: State, request: Id, now: Time, members: seq<Id>)
    requires QueueOk(s) && request in QueuedIds(s.requests)
    requires IsBatch(s.cfg, s.requests, s.index, request, now, members)
    ensures Possible(s.cfg, s.requests, members) && members[0] == request
  {
    BatchMembers(s.cfg, s.requests, s.index, request, now, members);
    MembersQueued(s, request, now, members);
    var key := CompatKeyOf(s.cfg, s.requests[request].spec);
    forall i | 0 <= i < |members| ensures CompatKeyOf(s.cfg, s.requests[members[i]].spec) == key {
      if i > 0 {
        assert members[i] in BucketAt(s.index, key);
        assert BucketAt(s.index, key) == CompatibleIds(s.cfg, s.requests, key);
      }
    }
    hide QueueOk;
    BatchTokens(s, request, now, members);
  }

  lemma BatchTokens(s: State, request: Id, now: Time, members: seq<Id>)
    requires request in s.requests && IsBatch(s.cfg, s.requests, s.index, request, now, members)
    requires forall i :: 0 <= i < |members| ==> members[i] in s.requests
    ensures s.cfg.maxTokens > 0 && |members| > 1 ==> TokensOf(s.requests, members) <= s.cfg.maxTokens
  {
    var rs, spec := s.requests, s.requests[request].spec;
    var ids :| OrderedCandidates(s.cfg, rs, s.index, request, now, ids) &&
      members == [request] + ids[..Take(s.cfg, rs, BatchLimit(s.cfg, spec), 1, spec.Tokens(), ids)];
    TakeFits(s.cfg, rs, BatchLimit(s.cfg, spec), 1, spec.Tokens(), ids);
    assert members[1..] == ids[..Take(s.cfg, rs, BatchLimit(s.cfg, spec), 1, spec.Tokens(), ids)];
  }

  lemma WorkerEligible(s: State, w: Id, members: seq<Id>, now: Time)
    requires Ready(s, w) && Possible(s.cfg, s.requests, members) && !s.requests[members[0]].spec.Overdue(now)
    ensures Eligible(s.fleet.workers[w], s.requests[members[0]].spec, BatchCost(s.requests, members), now)
    ensures BatchUnits(s.requests, members) <= s.fleet.workers[w].available - s.fleet.workers[w].reserved
    ensures BatchUnits(s.requests, members) >= 1
  {
    forall i | 0 <= i < |members| ensures s.requests[members[i]].spec.cost >= 0.0 {
      assert RecordOk(s.cfg, s.issued, s.requests[members[i]]);
    }
    hide QueueOk, RecordsOk;
    UnitsVersusCost(s.requests, members);
    assert members[0] in QueuedIds(s.requests);
  }

  /** With something runnable in the queue a plan for it always dispatches to the worker. */
  lemma PlanDispatches(s: State, w: Id, request: Id, now: Time, out: PlanResult, s1: State)
    requires Ready(s, w) && request in QueuedIds(s.requests) && !s.requests[request].spec.Overdue(now)
    requires PlanOn(s, request, now, out, s1)
    ensures out.Dispatch? && out.worker == w && out.batch == Fresh(s, 1) && Possible(s.cfg, s.requests, out.members)
    ensures s1 == Reserve(s, out.members, w)
  {
    hide Reserve, Possible, IsBatch, Eligible, QueueOk, RecordsOk, Suffices, BatchUnits, BatchCost, Idle;
    var members, v :| PlanBatch(s, request, now, members, v, out, s1);
    BatchIsPossible(s, request, now, members);
    WorkerEligible(s, w, members, now);
    assert v == w;
  }

  /** In general a plan dispatches exactly when the worker is eligible for the whole batch and has
      room for its rounded units. The batch was formed without looking at the worker: one that is too
      large for it is refused and nothing changes. */
  lemma DispatchExact(s: State, w: Id, request: Id, now: Time, members: seq<Id>, out: PlanResult, s1: State)
    requires request in QueuedIds(s.requests) && !s.requests[request].spec.Overdue(now)
        && PlanOn(s, request, now, out, s1)
    requires w != NO_ID && s.fleet.workers.Keys == {w} && IsBatch(s.cfg, s.requests, s.index, request, now, members)
    requires Known(s, members)
    ensures out.Dispatch? <==> Takes(s, w, request, members, now)
    ensures !out.Dispatch? ==> s1 == s
  {
    var ms, v :| PlanBatch(s, request, now, ms, v, out, s1);
    BatchUnique(s.cfg, s.requests, s.index, request, now, members, ms);
    hide Reserve, IsBatch, Eligible, BatchUnits, BatchCost;
    assert v == NO_ID || v == w;
  }

  // ----- a batch that is too large blocks the queue -----

  predicate Known(s: State, members: seq<Id>) { forall i :: 0 <= i < |members| ==> members[i] in s.requests }

  /** The request would lead this batch. */
  ghost predicate Leads(s: State, request: Id, members: seq<Id>, now: Time)
    requires request in s.requests
  {
    Known(s, members) && IsBatch(s.cfg, s.requests, s.index, request, now, members)
  }

  /** Worker w is eligible for the batch and has room for its units. */
  predicate Takes(s: State, w: Id, request: Id, members: seq<Id>, now: Time)
    requires w in s.fleet.workers && request in s.requests && Known(s, members)
  {
    && Eligible(s.fleet.workers[w], s.requests[request].spec, BatchCost(s.requests, members), now)
    && BatchUnits(s.requests, members) <= s.fleet.workers[w].available - s.fleet.workers[w].reserved
  }

  /** No worker takes the batch that the request would lead. */
  ghost predicate Refused(s: State, request: Id, now: Time)
    requires request in s.requests
  {
    forall members, w :: Leads(s, request, members, now) && w in s.fleet.workers && w != NO_ID ==>
      !Takes(s, w, request, members, now)
  }

  /** The request is next, nothing is overdue, and no worker takes the batch. */
  ghost predicate Blocked(s: State, request: Id, now: Time) {
    && IsNext(s, request, now)
    && (forall id :: id in QueuedIds(s.requests) ==> !s.requests[id].spec.Overdue(now))
    && Refused(s, request, now)
  }

  /** The same state but for stale heap entries. */
  ghost predicate SameButHeaps(s: State, s1: State) {
    s1 == s.(fair := s1.fair) && forall k :: FlowAt(s1.fair, k).finish == FlowAt(s.fair, k).finish
  }

  lemma StillBlocked(s: State, s1: State, request: Id, now: Time)
    requires SameButHeaps(s, s1) && Blocked(s, request, now)
    ensures Blocked(s1, request, now)
  {
    hide IsBatch, Eligible, BatchCost, BatchUnits, EffectiveFinish;
    forall members, w | Leads(s1, request, members, now) && w in s1.fleet.workers && w != NO_ID
      ensures !Takes(s1, w, request, members, now)
    {
      assert Leads(s, request, members, now) && !Takes(s, w, request, members, now);
    }
  }

  lemma BlockedPick(s: State, now: Time, order: seq<Id>, seed: Option<Id>, s1: State, request: Id)
    requires QueueOk(s) && Blocked(s, request, now) && Pick(s, now, order, seed, s1)
    ensures seed == Some(request) && SameButHeaps(s, s1) && QueueOk(s1)
  {
    PickIsNext(s, now, order, seed, s1);
    PickQueue(s, now, order, seed, s1);
    assert request in QueuedIds(s.requests);
    assert order == [] by {
      hide QueueOk, Refused;
      assert Due(s, now) == {};
      EnumeratesNothing(order);
    }
    hide QueueOk, Pruned, Picked, Refused, EffectiveFinish;
    StillBlocked(s, s1, request, now);
    NextIsUnique(s1, now, seed.value, request);
  }

  lemma BlockedPlan(s: State, now: Time, order: seq<Id>, out: PlanResult, s1: State, request: Id)
    requires Blocked(s, request, now) && Plan(s, request, now, order, out, s1)
    ensures !out.Dispatch? && s1 == s
  {
    hide Plan, PlanOn, Refused;
    assert request in QueuedIds(s.requests);
    NothingDue(s, request, now, order, out, s1);
    RefusedPlan(s, request, now, out, s1);
  }

  lemma RefusedPlan(s: State, request: Id, now: Time, out: PlanResult, s1: State)
    requires request in QueuedIds(s.requests) && !s.requests[request].spec.Overdue(now)
        && PlanOn(s, request, now, out, s1)
    requires Refused(s, request, now)
    ensures !out.Dispatch? && s1 == s
  {
    hide IsBatch, Eligible, BatchCost, BatchUnits, Reserve;
    var members, v :| PlanBatch(s, request, now, members, v, out, s1);
    assert Leads(s, request, members, now);
  }

  /** One of the two halves of plan-next: a selection, or a plan for this request. */
  predicate PlansNext(e: Event, request: Id) { e.PickEvent? || (e.PlanEvent? && e.request == request) }

  lemma BlockedStep(s: State, e: Event, s1: State, request: Id)
    requires QueueOk(s) && Step(s, e, s1) && PlansNext(e, request) && Blocked(s, request, e.now)
    ensures QueueOk(s1) && SameButHeaps(s, s1)
    ensures e.PickEvent? ==> e.seed == Some(request)
    ensures e.PlanEvent? ==> !e.out.Dispatch?
  {
    hide QueueOk, Blocked, Plan, Pick;
    match e
    case PickEvent(now, order, seed) => BlockedPick(s, now, order, seed, s1, request);
    case PlanEvent(_, now, order, out) => BlockedPlan(s, now, order, out, s1, request);
  }

  lemma {:induction false} BlockedUntil(tr: Trace, i: nat, j: nat, request: Id)
    requires IsRun(tr) && i <= j <= |tr.events| && QueueOk(tr.states[i])
    requires forall k :: i <= k < j ==>
        PlansNext(tr.events[k], request) && Blocked(tr.states[i], request, tr.events[k].now)
    ensures QueueOk(tr.states[j]) && SameButHeaps(tr.states[i], tr.states[j])
    decreases j
  {
    hide Step, QueueOk, Blocked;
    if i < j {
      BlockedUntil(tr, i, j - 1, request);
      var e := tr.events[j - 1];
      assert Step(tr.states[j - 1], e, tr.states[j]);
      StillBlocked(tr.states[i], tr.states[j - 1], request, e.now);
      BlockedStep(tr.states[j - 1], e, tr.states[j], request);
    }
  }

  /** As long as nothing but plan-next happens, every selection chooses the same request, every plan for it
      is refused, and nothing changes. */
  lemma BlockedForGood(tr: Trace, i: nat, j: nat, request: Id, k: nat)
    requires IsRun(tr) && i <= k < j <= |tr.events| && QueueOk(tr.states[i])
    requires forall n :: i <= n < j ==>
        PlansNext(tr.events[n], request) && Blocked(tr.states[i], request, tr.events[n].now)
    ensures tr.events[k].PickEvent? ==> tr.events[k].seed == Some(request)
    ensures tr.events[k].PlanEvent? ==> !tr.events[k].out.Dispatch?
    ensures SameButHeaps(tr.states[i], tr.states[j])
  {
    hide Step, QueueOk, Blocked;
    BlockedUntil(tr, i, j, request);
    BlockedUntil(tr, i, k, request);
    assert Step(tr.states[k], tr.events[k], tr.states[k + 1]);
    StillBlocked(tr.states[i], tr.states[k], request, tr.events[k].now);
    BlockedStep(tr.states[k], tr.events[k], tr.states[k + 1], request);
  }

  lemma TimelessBatch(s: State, request: Id, t: Time, u: Time, members: seq<Id>)
    requires request in QueuedIds(s.requests) && IsBatch(s.cfg, s.requests, s.index, request, t, members)
    requires forall id :: id in QueuedIds(s.requests) ==> s.requests[id].spec.deadline.None?
    ensures IsBatch(s.cfg, s.requests, s.index, request, u, members)
  {
    var rs, spec := s.requests, s.requests[request].spec;
    var ids :| OrderedCandidates(s.cfg, rs, s.index, request, t, ids) &&
      members == [request] + ids[..Take(s.cfg, rs, BatchLimit(s.cfg, spec), 1, spec.Tokens(), ids)];
    hide Take, BatchLimit, CompatKeyOf;
    forall x ensures x in ids <==> x in Candidates(s.cfg, rs, s.index, request, u) {
      assert x in ids <==> x in Candidates(s.cfg, rs, s.index, request, t);
    }
    forall i | 0 <= i < |ids| ensures ids[i] in QueuedIds(rs)
        { assert ids[i] in Candidates(s.cfg, rs, s.index, request, t); }
    assert OrderedCandidates(s.cfg, rs, s.index, request, u, ids);
  }

  /** Without deadlines time alone does not help: what is blocked at one instant is blocked at every other. */
  lemma BlockedAtAnyTime(s: State, request: Id, t: Time, u: Time)
    requires Blocked(s, request, t)
    requires forall id :: id in QueuedIds(s.requests) ==> s.requests[id].spec.deadline.None?
    ensures Blocked(s, request, u)
  {
    hide IsBatch, BatchCost, BatchUnits;
    forall members, w | Leads(s, request, members, u) && w in s.fleet.workers && w != NO_ID
      ensures !Takes(s, w, request, members, u)
    {
      TimelessBatch(s, request, u, t, members);
      assert Leads(s, request, members, t) && !Takes(s, w, request, members, t);
    }
  }

  // ----- the batch runs -----

  /** Where the members of a batch are: the first `done` completed, the next up to `started`
      running, the others reserved. */
  function Stage(i: nat, started: nat, done: nat): RequestState {
    if i < done then RequestState.Completed else if i < started then RequestState.Running else RequestState.Reserved
  }

  ghost predicate MemberAt(s0: State, s: State, b: Id, id: Id, st: RequestState) {
    && id in s0.requests && id in s.requests
    && s.requests[id].spec == s0.requests[id].spec && s.requests[id].state == st
    && s.requests[id].attempt == s0.requests[id].attempt && s.requests[id].generation == s0.requests[id].generation
    && !s.requests[id].cancelRequested && !s.requests[id].cancelCommitted
    && s.requests[id].batch == if st == RequestState.Completed then None else Some(b)
  }

  /** The worker's books while its only batch runs. */
  ghost predicate BooksAt(r0: Worker, r: Worker, b: Id, units: int, n: nat, started: nat, done: nat) {
    && r.boot == r0.boot && r.capability == r0.capability && r.available == r0.available
    && (if done == n then Idle(r) && r.state == Online
        else
          && (r.state == Online || r.state == Busy)
          && r.batchUnits == map[b := units] && r.batchPending == map[b := n - done]
          && r.started == (if started == 0 then {} else {b})
          && r.reserved == (if started == 0 then units else 0) && r.running == (if started == 0 then 0 else units))
  }

  /** State s while the batch planned in s0 runs. */
  ghost predicate BatchRuns(s0: State, s: State, w: Id, b: Id, units: int, members: seq<Id>, started: nat, done: nat) {
    && s.cfg == s0.cfg && s.epoch == s0.epoch && s.requests.Keys == s0.requests.Keys
    && (forall id :: id in s0.requests && id !in members ==> s.requests[id] == s0.requests[id])
    && (forall i :: 0 <= i < |members| ==> MemberAt(s0, s, b, members[i], Stage(i, started, done)))
    && s.fleet.workers.Keys == {w} == s0.fleet.workers.Keys
    && BooksAt(s0.fleet.workers[w], s.fleet.workers[w], b, units, |members|, started, done)
    && s.fleet.reserved == s.fleet.workers[w].reserved && s.fleet.running == s.fleet.workers[w].running
  }

  lemma MemberReserved(s: State, w: Id, members: seq<Id>, id: Id)
    requires RecordsOk(s) && w in s.fleet.workers && Possible(s.cfg, s.requests, members) && id in s.requests
    ensures id in members ==> MemberAt(s, Reserve(s, members, w), Fresh(s, 1), id, RequestState.Reserved)
    ensures id !in members ==>
        id in Reserve(s, members, w).requests && Reserve(s, members, w).requests[id] == s.requests[id]
  {
    hide BatchUnits, ReserveAll;
    ReserveAllEffect(Open(s, members, w), members, Fresh(s, 1), id);
    assert RecordOk(s.cfg, s.issued, s.requests[id]);
    if id in members {
      var i :| 0 <= i < |members| && members[i] == id;
      assert s.requests[members[i]].state == RequestState.Queued;
    }
  }

  lemma BooksOpen(s: State, w: Id, members: seq<Id>)
    requires s.fleet.workers.Keys == {w} && Idle(s.fleet.workers[w]) && s.fleet.workers[w].state == Online
    requires s.fleet.reserved == 0 && s.fleet.running == 0 && |members| >= 1
    requires forall i :: 0 <= i < |members| ==> members[i] in s.requests
    ensures var f := Open(s, members, w).fleet;
            && f.workers.Keys == {w}
            && BooksAt(s.fleet.workers[w], f.workers[w], Fresh(s, 1), BatchUnits(s.requests, members), |members|, 0, 0)
            && f.reserved == f.workers[w].reserved && f.running == f.workers[w].running
  {
    hide BatchUnits;
  }

  /** Right after the dispatch every member is reserved. */
  lemma BatchOpens(s: State, w: Id, members: seq<Id>)
    requires Ready(s, w) && Possible(s.cfg, s.requests, members)
    ensures BatchRuns(s, Reserve(s, members, w), w, Fresh(s, 1), BatchUnits(s.requests, members), members, 0, 0)
  {
    hide ReserveAll, BatchUnits, RecordsOk, QueueOk, Suffices, MemberAt, BooksAt;
    var b, s1 := Fresh(s, 1), Reserve(s, members, w);
    ReserveAllFrame(Open(s, members, w), members, b);
    ReserveAllEpoch(Open(s, members, w), members, b);
    BooksOpen(s, w, members);
    forall i | 0 <= i < |members| ensures MemberAt(s, s1, b, members[i], Stage(i, 0, 0)) {
      assert members[i] in members;
      MemberReserved(s, w, members, members[i]);
    }
    forall id | id in s.requests && id !in members ensures s1.requests[id] == s.requests[id] {
      MemberReserved(s, w, members, id);
    }
  }

  /** What the worker reports about a member. */
  function ReportOn(s: State, w: Id, boot: Id, id: Id, attempt: Id, generation: Id, available: int): Report {
    Report(s.epoch, w, boot, id, attempt, generation, Succeeded, Internal, available)
  }

  /** One member fewer to confirm, or to complete: the other members stay where they are. */
  lemma OthersStay(s0: State, s: State, s1: State, b: Id, members: seq<Id>, k: nat, started: nat, done: nat,
      started1: nat, done1: nat)
    requires Distinct(members) && k < |members|
    requires forall i :: 0 <= i < |members| ==> MemberAt(s0, s, b, members[i], Stage(i, started, done))
    requires forall id :: id in s.requests && id != members[k] ==>
        id in s1.requests && s1.requests[id] == s.requests[id]
    requires MemberAt(s0, s1, b, members[k], Stage(k, started1, done1))
    requires forall i :: 0 <= i < |members| && i != k ==> Stage(i, started1, done1) == Stage(i, started, done)
    ensures forall i :: 0 <= i < |members| ==> MemberAt(s0, s1, b, members[i], Stage(i, started1, done1))
  {
    forall i | 0 <= i < |members| ensures MemberAt(s0, s1, b, members[i], Stage(i, started1, done1)) {
      assert MemberAt(s0, s, b, members[i], Stage(i, started, done));
    }
  }

  lemma BooksConfirm(r0: Worker, f: Fleet, w: Id, b: Id, units: int, n: nat, k: nat, id: Id)
    requires f.workers.Keys == {w} && BooksAt(r0, f.workers[w], b, units, n, k, 0) && k < n
    requires f.reserved == f.workers[w].reserved && f.running == f.workers[w].running
    ensures var f1 := StartBatch(f, w, b);
            var r1 := ConfirmedWorker(f1.workers[w], id, r0.available);
            && f1.workers.Keys == {w} && BooksAt(r0, r1, b, units, n, k + 1, 0) && f1.reserved == r1.reserved
                && f1.running == r1.running
  {
  }

  lemma ConfirmsMember(s0: State, s: State, w: Id, b: Id, units: int, members: seq<Id>, k: nat, r: Report)
    requires BatchRuns(s0, s, w, b, units, members, k, 0) && k < |members|
    requires r == ReportOn(s, w, s0.fleet.workers[w].boot, members[k], s0.requests[members[k]].attempt,
                           s0.requests[members[k]].generation, s0.fleet.workers[w].available)
    ensures ConfirmAnswer(s, r) == Confirmed && members[k] in s.requests && s.requests[members[k]].batch == Some(b)
    ensures MemberAt(s0, Confirm(s, r), b, members[k], RequestState.Running)
  {
    assert MemberAt(s0, s, b, members[k], Stage(k, k, 0));
    hide StartBatch;
  }

  lemma ConfirmsNext(s0: State, s: State, w: Id, b: Id, units: int, members: seq<Id>, k: nat, r: Report)
    requires BatchRuns(s0, s, w, b, units, members, k, 0) && k < |members| && Distinct(members)
    requires r == ReportOn(s, w, s0.fleet.workers[w].boot, members[k], s0.requests[members[k]].attempt,
                           s0.requests[members[k]].generation, s0.fleet.workers[w].available)
    ensures BatchRuns(s0, Confirm(s, r), w, b, units, members, k + 1, 0)
  {
    hide MemberAt, BooksAt, StartBatch, ConfirmAnswer;
    var s1 := Confirm(s, r);
    ConfirmsMember(s0, s, w, b, units, members, k, r);
    OthersStay(s0, s, s1, b, members, k, k, 0, k + 1, 0);
    BooksConfirm(s0.fleet.workers[w], s.fleet, w, b, units, |members|, k, members[k]);
    hide Stage;
    assert members[k] in members;
  }

  lemma CompletesMember(s0: State, s: State, now: Time, w: Id, b: Id, units: int, members: seq<Id>, k: nat, r: Report)
    requires BatchRuns(s0, s, w, b, units, members, |members|, k) && k < |members|
    requires r.(failure := Internal) == ReportOn(s, w, s0.fleet.workers[w].boot, members[k],
        s0.requests[members[k]].attempt,
                                                 s0.requests[members[k]].generation, r.available)
    ensures CompleteAnswer(s, r) == Accepted && members[k] in s.requests && s.requests[members[k]].batch == Some(b)
    ensures Complete(s, r, now) == Finish(s, members[k], w, RequestState.Completed, AttemptSucceeded)
    ensures MemberAt(s0, Complete(s, r, now), b, members[k], RequestState.Completed)
  {
    assert MemberAt(s0, s, b, members[k], Stage(k, |members|, k));
    hide ReleaseMember, BooksAt;
    assert s.fleet.workers[w].boot == s0.fleet.workers[w].boot by {
      SameBoot(s0, s, w, b, units, members, |members|, k);
    }
  }

  lemma SameBoot(s0: State, s: State, w: Id, b: Id, units: int, members: seq<Id>, started: nat, done: nat)
    requires BatchRuns(s0, s, w, b, units, members, started, done)
    ensures w in s.fleet.workers && w in s0.fleet.workers && s.fleet.workers[w].boot == s0.fleet.workers[w].boot
  {
  }

  lemma CompletesNext(s0: State, s: State, now: Time, w: Id, b: Id, units: int, members: seq<Id>, k: nat, r: Report)
    requires BatchRuns(s0, s, w, b, units, members, |members|, k) && k < |members| && Distinct(members) && units >= 0
    requires r.(failure := Internal) == ReportOn(s, w, s0.fleet.workers[w].boot, members[k],
        s0.requests[members[k]].attempt,
                                                 s0.requests[members[k]].generation, r.available)
    ensures CompleteAnswer(s, r) == Accepted
    ensures BatchRuns(s0, Complete(s, r, now), w, b, units, members, |members|, k + 1)
  {
    hide MemberAt, BooksAt, ReleaseMember, Complete, CompleteAnswer;
    var s1 := Complete(s, r, now);
    CompletesMember(s0, s, now, w, b, units, members, k, r);
    OthersStay(s0, s, s1, b, members, k, |members|, k, |members|, k + 1);
    LastReleases(s0.fleet.workers[w], s.fleet, w, b, units, |members|, k, members[k]);
    hide Stage;
    assert members[k] in members;
  }

  /** Releasing a member: the batch and its units go with the last one. */
  lemma LastReleases(r0: Worker, f: Fleet, w: Id, b: Id, units: int, n: nat, k: nat, id: Id)
    requires f.workers.Keys == {w} && BooksAt(r0, f.workers[w], b, units, n, n, k) && k < n && units >= 0
    requires f.reserved == f.workers[w].reserved && f.running == f.workers[w].running
    ensures var f1 := ReleaseMember(f, w, id, Some(b));
            && f1.workers.Keys == {w} && BooksAt(r0, f1.workers[w], b, units, n, n, k + 1)
            && f1.reserved == f1.workers[w].reserved && f1.running == f1.workers[w].running
  {
    var f1 := ReleaseMember(f, w, id, Some(b));
    assert f1.workers.Keys == {w};
    if k + 1 == n {
      var r1 := f1.workers[w];
      assert r1.batchUnits == map[] && r1.batchPending == map[] && r1.started == {};
    } else {
      assert f1.workers[w].batchPending == map[b := n - (k + 1)];
    }
  }

  lemma MemberEnds(s0: State, s: State, w: Id, b: Id, units: int, members: seq<Id>, id: Id)
    requires BatchRuns(s0, s, w, b, units, members, |members|, |members|) && id in s0.requests
    requires forall i :: 0 <= i < |members| ==>
        members[i] in s0.requests && s0.requests[members[i]].state == RequestState.Queued
    ensures s.requests[id].spec == s0.requests[id].spec
    ensures id in members ==>
        s.requests[id].state == RequestState.Completed && s0.requests[id].state == RequestState.Queued
    ensures id !in members ==> s.requests[id] == s0.requests[id]
  {
    if id in members {
      var i :| 0 <= i < |members| && members[i] == id;
      assert MemberAt(s0, s, b, members[i], Stage(i, |members|, |members|));
    }
  }

  /** When the last member has completed the scheduler is ready again. */
  lemma BatchEnds(s0: State, s: State, w: Id, b: Id, units: int, members: seq<Id>)
    requires Ready(s0, w) && Possible(s0.cfg, s0.requests, members)
    requires BatchRuns(s0, s, w, b, units, members, |members|, |members|) && RecordsOk(s) && QueueOk(s)
    ensures Ready(s, w) && Drains(s0, s)
    ensures QueuedIds(s.requests) == QueuedIds(s0.requests) - Elements(members)
  {
    hide QueueOk, RecordsOk, Suffices, MemberAt;
    forall id | id in s0.requests
      ensures && s.requests[id].spec == s0.requests[id].spec
              && (id in members ==>
                  s.requests[id].state == RequestState.Completed && s0.requests[id].state == RequestState.Queued)
              && (id !in members ==> s.requests[id] == s0.requests[id])
    {
      MemberEnds(s0, s, w, b, units, members, id);
    }
    hide Possible;
    StillSuffices(s0, s, s0.fleet.workers[w], s.fleet.workers[w]);
  }

  // ----- one round of the driver -----

  /** Expiring and selecting keeps everything ready; what is left in the queue is runnable. */
  lemma PickStaysReady(s: State, w: Id, now: Time, order: seq<Id>, seed: Option<Id>, s1: State)
    requires Ready(s, w) && Pick(s, now, order, seed, s1)
    ensures Ready(s1, w) && Drains(s, s1) && s1.fleet == s.fleet
    ensures forall id :: id in QueuedIds(s1.requests) ==>
        id in QueuedIds(s.requests) && !s1.requests[id].spec.Overdue(now)
    ensures seed.None? ==> QueuedIds(s1.requests) == {}
    ensures seed.Some? ==> seed.value in QueuedIds(s1.requests)
  {
    PickIsNext(s, now, order, seed, s1);
    PickQueue(s, now, order, seed, s1);
    PickRecords(s, now, order, seed, s1);
    hide RecordsOk, QueueOk, Suffices, Pick;
    StillSuffices(s, s1, s.fleet.workers[w], s1.fleet.workers[w]);
    if seed.Some? { assert IsHead(s1.requests, seed.value); }
  }

  lemma PickRecords(s: State, now: Time, order: seq<Id>, seed: Option<Id>, s1: State)
    requires RecordsOk(s) && Pick(s, now, order, seed, s1)
    ensures RecordsOk(s1) && Drains(s, s1) && s1.fleet == s.fleet
  {
    var s0 := ExpireAll(s, order);
    ExpireAllProgress(s, order);
    ExpireAllDrains(s, order);
    hide RecordsOk, Evolves, ExpireAll, Pruned, Picked, Drains;
    SameRequests(s0, s1);
    SameDrains(s, s0, s1);
  }

  lemma SameDrains(s: State, s0: State, s1: State)
    requires Drains(s, s0) && s1.cfg == s0.cfg && s1.requests == s0.requests
    ensures Drains(s, s1)
  {
  }

  lemma ExpireAllDrains(s: State, order: seq<Id>)
    ensures Drains(s, ExpireAll(s, order)) && ExpireAll(s, order).fleet == s.fleet
  {
    ExpireAllFrame(s, order);
    var s1 := ExpireAll(s, order);
    hide ExpireAll, WithLast;
    forall id ensures id in s1.requests <==> id in s.requests { ExpireAllEffect(s, order, id); }
    forall id | id in s.requests
      ensures && s1.requests[id].spec == s.requests[id].spec
              && (if s.requests[id].state == RequestState.Queued
                  then s1.requests[id].state in {RequestState.Queued, RequestState.Completed, RequestState.Expired}
                  else s1.requests[id] == s.requests[id])
    {
      ExpireAllEffect(s, order, id);
    }
  }

  /** With nothing overdue, planning expires nothing. */
  lemma NothingDue(s: State, request: Id, now: Time, order: seq<Id>, out: PlanResult, s1: State)
    requires Plan(s, request, now, order, out, s1)
    requires forall id :: id in QueuedIds(s.requests) ==> !s.requests[id].spec.Overdue(now)
    ensures PlanOn(s, request, now, out, s1)
  {
    hide PlanOn;
    assert Due(s, now) == {};
    EnumeratesNothing(order);
  }

  lemma EnumeratesNothing(order: seq<Id>)
    requires Enumerates(order, {})
    ensures order == []
  {
    SomeElement(order);
  }

  lemma SomeElement(order: seq<Id>)
    ensures order == [] || exists x :: x in order
  {
    if order != [] { assert order[0] in order; }
  }

  /** A dispatch puts every member of the batch on the worker. */
  lemma RoundStarts(s: State, w: Id, request: Id, now: Time, order: seq<Id>, out: PlanResult, s1: State)
    requires Ready(s, w) && Plan(s, request, now, order, out, s1) && request in QueuedIds(s.requests)
    requires forall id :: id in QueuedIds(s.requests) ==> !s.requests[id].spec.Overdue(now)
    ensures out.Dispatch? && out.worker == w && Possible(s.cfg, s.requests, out.members) && RecordsOk(s1) && QueueOk(s1)
    ensures BatchRuns(s, s1, w, out.batch, BatchUnits(s.requests, out.members), out.members, 0, 0)
    ensures BatchUnits(s.requests, out.members) >= 1
  {
    NothingDue(s, request, now, order, out, s1);
    PlanDispatches(s, w, request, now, out, s1);
    PlanProgress(s, request, now, order, out, s1);
    PlanQueue(s, request, now, order, out, s1);
    hide RecordsOk, QueueOk, Plan, PlanOn, BatchRuns, Reserve, Possible, BatchUnits;
    BatchOpens(s, w, out.members);
    UnitsPositive(s, w, out.members);
  }

  lemma UnitsPositive(s: State, w: Id, members: seq<Id>)
    requires RecordsOk(s) && Possible(s.cfg, s.requests, members)
    ensures BatchUnits(s.requests, members) >= 1
  {
    forall i | 0 <= i < |members| ensures s.requests[members[i]].spec.cost >= 0.0 {
      assert RecordOk(s.cfg, s.issued, s.requests[members[i]]);
    }
    hide RecordsOk;
    UnitsVersusCost(s.requests, members);
  }
}
