/** Bounds of the weighted fair queue: how far the virtual time can run ahead of
    an active flow, and how many dispatches can pass one by. */
module Fairness {
  import opened Types
  import opened Collections
  import opened ReadyQueue
  import opened Fleets
  import opened Batching
  import opened Machine
  import opened Lifecycle
  import opened Protocol
  import opened Selection

  // ----- hypotheses -----

  /** cost: largest charged cost; weight: least flow weight; boost: largest deadline boost. */
  datatype Limits = Limits(cost: real, weight: real, boost: real) {
    ghost predicate Valid() { cost >= 1.0 && weight > 0.0 && boost >= 1.0 }
    function Lag(): real requires weight > 0.0 { cost / weight }
  }

  ghost predicate ConfigOk(cfg: Config, m: Limits) {
    m.Valid() && cfg.maxBatch <= 1 && forall k :: KeyWeight(cfg, k) >= m.weight
  }

  /** The request is dispatched alone, is charged at most the largest cost, and is boosted at
      most by the largest boost. */
  predicate SpecOk(cfg: Config, m: Limits, spec: Spec) {
    && spec.maxBatch <= 1
    && ChargedCost(spec.cost) <= m.cost
    && (cfg.boostEnabled && spec.deadline.Some? ==> 1.0 <= cfg.boostMax <= m.boost)
  }

  ghost predicate SpecsOk(s: State, m: Limits) {
    forall id :: id in s.requests ==> SpecOk(s.cfg, m, s.requests[id].spec)
  }

  // ----- the lag invariant -----

  /** Flow k has not passed the virtual time and, while active, is not left behind by more
      than the boost and the lag allow. */
  predicate FlowLag(cfg: Config, fq: Fair, m: Limits, k: FlowKey)
    requires m.weight > 0.0
  {
    && 0.0 <= FlowAt(fq, k).finish <= fq.virtualTime
    && (k in fq.flows ==> fq.flows[k].weight == KeyWeight(cfg, k))
    && (k in fq.active ==> fq.virtualTime <= m.boost * FlowAt(fq, k).finish + m.Lag())
  }

  ghost predicate LagOk(cfg: Config, fq: Fair, m: Limits)
    requires m.Valid()
  {
    fq.virtualTime >= 0.0 && forall k :: FlowLag(cfg, fq, m, k)
  }

  lemma Scale(a: real, x: real, y: real)
    requires a >= 1.0 && 0.0 <= x <= y
    ensures x <= a * x <= a * y
  {
  }

  lemma ShareBounded(c: real, wk: real, m: Limits)
    requires m.Valid() && 1.0 <= c <= m.cost && m.weight <= wk
    ensures 0.0 < c / wk <= m.Lag()
  {
    var x, y := c / wk, m.cost / m.weight;
    assert x * wk == c && y * m.weight == m.cost;
    if x > y {
      assert x * wk >= x * m.weight > y * m.weight;
    }
  }

  lemma LagPositive(m: Limits)
    requires m.Valid()
    ensures m.Lag() > 0.0
  {
    ShareBounded(1.0, m.weight, m);
  }

  lemma PushFinish(cfg: Config, fq: Fair, id: Id, rec: Request, k: FlowKey)
    ensures FlowAt(Push(cfg, fq, id, rec), k).finish ==
            if k == FlowKeyOf(rec.spec) && HeapAt(fq, k) == multiset{}
                then MaxReal(FlowAt(fq, k).finish, fq.virtualTime)
            else FlowAt(fq, k).finish
    ensures k in Push(cfg, fq, id, rec).active <==>
            k in fq.active || (k == FlowKeyOf(rec.spec) && HeapAt(fq, k) == multiset{})
  {
    hide KeyWeight;
  }

  lemma PushFlowLag(cfg: Config, fq: Fair, id: Id, rec: Request, m: Limits, k: FlowKey)
    requires m.Valid() && fq.virtualTime >= 0.0 && FlowLag(cfg, fq, m, k)
    ensures FlowLag(cfg, Push(cfg, fq, id, rec), m, k)
  {
    hide KeyWeight;
    LagPositive(m);
    hide Limits.Lag;
    PushFinish(cfg, fq, id, rec, k);
    Scale(m.boost, fq.virtualTime, fq.virtualTime);
  }

  lemma PushLag(cfg: Config, fq: Fair, id: Id, rec: Request, m: Limits)
    requires m.Valid() && LagOk(cfg, fq, m)
    ensures LagOk(cfg, Push(cfg, fq, id, rec), m)
  {
    hide KeyWeight, FlowLag;
    forall k ensures FlowLag(cfg, Push(cfg, fq, id, rec), m, k) {
      PushFlowLag(cfg, fq, id, rec, m, k);
    }
  }

  lemma PruneFlowLag(cfg: Config, rs: map<Id, Request>, queued: set<Id>, fq: Fair, fq1: Fair, m: Limits, k: FlowKey)
    requires m.Valid() && FlowLag(cfg, fq, m, k) && Pruned(rs, queued, fq, fq1)
    ensures FlowLag(cfg, fq1, m, k)
  {
    hide KeyWeight, Limits.Lag, PrunedHeap, HasLive;
    assert FlowAt(fq1, k).finish == FlowAt(fq, k).finish && FlowAt(fq1, k).weight == FlowAt(fq, k).weight;
  }

  lemma PruneLag(cfg: Config, rs: map<Id, Request>, queued: set<Id>, fq: Fair, fq1: Fair, m: Limits)
    requires m.Valid() && LagOk(cfg, fq, m) && Pruned(rs, queued, fq, fq1)
    ensures LagOk(cfg, fq1, m)
  {
    hide KeyWeight, FlowLag;
    forall k ensures FlowLag(cfg, fq1, m, k) {
      PruneFlowLag(cfg, rs, queued, fq, fq1, m, k);
    }
  }

  lemma LargerOfTwo(x: real, y: real, lag: real, time: real, chosen: real, share: real)
    requires x <= y && chosen <= x && time <= x + lag && share <= lag
    ensures MaxReal(time, chosen + share) <= y + lag
  {
  }

  lemma LagAfterCharge(boost: real, lag: real, time: real, chosen: real, share: real, before: real, after: real)
    requires boost >= 1.0 && 0.0 <= share <= lag && 0.0 <= before <= after
    requires chosen <= boost * before && time <= boost * before + lag
    ensures MaxReal(time, chosen + share) <= boost * after + lag
  {
    Scale(boost, before, after);
    LargerOfTwo(boost * before, boost * after, lag, time, chosen, share);
  }

  lemma AccountFinish(fq: Fair, k: FlowKey, cost: real, j: FlowKey)
    requires k in fq.flows && fq.flows[k].weight > 0.0
    ensures FlowAt(Account(fq, k, cost), j).finish ==
            if j == k then FlowAt(fq, k).finish + cost / fq.flows[k].weight else FlowAt(fq, j).finish
  {
  }

  lemma AccountFlowLag(cfg: Config, fq: Fair, k: FlowKey, cost: real, m: Limits, j: FlowKey)
    requires m.Valid() && FlowLag(cfg, fq, m, k) && FlowLag(cfg, fq, m, j)
    requires k in fq.flows && KeyWeight(cfg, k) >= m.weight && 1.0 <= cost <= m.cost
    requires j in fq.active ==> FlowAt(fq, k).finish <= m.boost * FlowAt(fq, j).finish
    ensures FlowLag(cfg, Account(fq, k, cost), m, j)
  {
    hide KeyWeight;
    var fq1 := Account(fq, k, cost);
    ShareBounded(cost, fq.flows[k].weight, m);
    hide Limits.Lag;
    AccountFinish(fq, k, cost, j);
    if j in fq1.active {
      LagAfterCharge(m.boost, m.Lag(), fq.virtualTime, FlowAt(fq, k).finish, cost / fq.flows[k].weight,
                     FlowAt(fq, j).finish, FlowAt(fq1, j).finish);
    }
  }

  /** Charging the flow that wins the selection keeps every active flow within the lag. */
  lemma AccountLag(cfg: Config, fq: Fair, k: FlowKey, cost: real, m: Limits)
    requires m.Valid() && LagOk(cfg, fq, m) && k in fq.flows && KeyWeight(cfg, k) >= m.weight && 1.0 <= cost <= m.cost
    requires forall j :: j in fq.active ==> FlowAt(fq, k).finish <= m.boost * FlowAt(fq, j).finish
    ensures LagOk(cfg, Account(fq, k, cost), m)
  {
    hide KeyWeight, FlowLag;
    forall j ensures FlowLag(cfg, Account(fq, k, cost), m, j) {
      AccountFlowLag(cfg, fq, k, cost, m, j);
    }
    assert Account(fq, k, cost).virtualTime >= fq.virtualTime;
  }

  // ----- steps that do not dispatch -----

  lemma {:induction false} CancelAllFair(s: State, order: seq<Id>)
    ensures CancelAll(s, order).fair == s.fair && CancelAll(s, order).cfg == s.cfg
    decreases |order|
  {
    if order != [] {
      CancelAllFair(if order[0] in s.requests then FinishCancelled(s, order[0], NO_ID) else s, order[1..]);
    }
  }

  lemma RetryLag(s: State, id: Id, w: Id, now: Time, m: Limits)
    requires m.Valid() && LagOk(s.cfg, s.fair, m) && id in s.requests
    ensures LagOk(s.cfg, MakeRetry(s, id, w, now).fair, m)
  {
    RetryShape(s, id, w, now);
    PushLag(s.cfg, s.fair, id,
            RetriedRecord(s.requests[id], Fresh(s, 1), Fresh(s, 2)).(state := RequestState.Queued, queuedAt := now), m);
  }

  lemma {:induction false} RecoverLag(s: State, w: Id, order: seq<Id>, now: Time, m: Limits)
    requires m.Valid() && LagOk(s.cfg, s.fair, m)
    ensures RecoverRequests(s, w, order, now).cfg == s.cfg && LagOk(s.cfg, RecoverRequests(s, w, order, now).fair, m)
    decreases |order|
  {
    if order != [] {
      if order[0] in s.requests { RetryLag(s, order[0], w, now, m); }
      RecoverLag(RecoverOne(s, w, order[0], now), w, order[1..], now, m);
    }
  }

  /** Apart from a retry, a completion leaves the fair queue alone. */
  lemma CompleteFair(s: State, r: Report, now: Time)
    ensures Complete(s, r, now).fair == s.fair ||
            (r.request in s.requests && Complete(s, r, now).fair == MakeRetry(s, r.request, r.worker, now).fair)
  {
    hide ReleaseMember, MakeRetry;
  }

  lemma SubmitFair(s: State, spec: Spec, pre: Option<Id>, now: Time)
    requires FreshId(s, SubmitEvent(spec, pre, now))
    ensures Submit(s, spec, pre, now).fair == s.fair ||
            Submit(s, spec, pre, now).fair ==
            Push(s.cfg, s.fair, RequestIdFor(s, pre),
                 FirstRecord(spec, Fresh(s, IdsTaken(pre) + 2), Fresh(s, IdsTaken(pre) + 1), now))
  {
    hide Push;
    if spec.Valid() && Admission(s, spec, now).0 == Admit { SubmitShape(s, spec, pre, now); }
  }

  lemma SmallStepsFair(s: State, e: Event, s1: State)
    requires Step(s, e, s1)
    requires e.ConfirmEvent? || e.CancelEvent? || e.CapabilityEvent? || e.WorkerStateEvent? || e.DrainEvent?
        || e.EpochEvent?
    ensures s1.fair == s.fair
  {
    hide ReleaseMember, StartBatch;
  }

  lemma RegisterFair(s: State, reg: Registration, now: Time, order: seq<Id>)
    ensures Register(s, reg, now, order).fair == s.fair ||
            Register(s, reg, now, order).fair == RecoverRequests(s, reg.worker, order, now).fair
  {
    hide RecoverRequests, ClearWorker;
  }

  lemma UnregisterFair(s: State, w: Id, now: Time, order: seq<Id>)
    ensures Unregister(s, w, now, order).fair == s.fair
        || Unregister(s, w, now, order).fair == RecoverRequests(s, w, order, now).fair
  {
    hide RecoverRequests, ClearWorker;
  }

  lemma PickFair(s: State, now: Time, order: seq<Id>, seed: Option<Id>, s1: State)
    requires Pick(s, now, order, seed, s1)
    ensures var s0 := ExpireAll(s, order);
            Pruned(s0.requests, Runnable(s0.requests, s0.index.queued, now), s.fair, s1.fair)
  {
    ExpireAllFrame(s, order);
  }

  lemma OtherStepsLag(s: State, e: Event, s1: State, m: Limits)
    requires m.Valid() && LagOk(s.cfg, s.fair, m) && Step(s, e, s1) && FreshId(s, e) && !e.PlanEvent?
    ensures LagOk(s.cfg, s1.fair, m)
  {
    hide LagOk, Push, MakeRetry, Submit, Pick, Complete, CancelAll, Register, Unregister, RecoverRequests, Pruned,
         FreshId;
    match e
    case SubmitEvent(spec, pre, now) =>
      SubmitFair(s, spec, pre, now);
      PushLag(s.cfg, s.fair, RequestIdFor(s, pre),
              FirstRecord(spec, Fresh(s, IdsTaken(pre) + 2), Fresh(s, IdsTaken(pre) + 1), now), m);
    case PickEvent(now, order, seed) =>
      PickFair(s, now, order, seed, s1);
      PruneLag(s.cfg, ExpireAll(s, order).requests,
               Runnable(ExpireAll(s, order).requests, ExpireAll(s, order).index.queued, now), s.fair, s1.fair, m);
    case CompleteEvent(r, now) =>
      CompleteFair(s, r, now);
      if r.request in s.requests { RetryLag(s, r.request, r.worker, now, m); }
    case CancelAllEvent(order) => CancelAllFair(s, order);
    case RegisterEvent(reg, now, order) =>
      RegisterFair(s, reg, now, order);
      RecoverLag(s, reg.worker, order, now, m);
    case UnregisterEvent(w, now, order) =>
      UnregisterFair(s, w, now, order);
      RecoverLag(s, w, order, now, m);
    case _ => SmallStepsFair(s, e, s1);
  }

  // ----- a dispatch right after the selection -----

  /** With the batch limit at one, a batch is its seed. */
  lemma SoloBatch(s: State, m: Limits, request: Id, now: Time, members: seq<Id>)
    requires ConfigOk(s.cfg, m) && SpecsOk(s, m) && request in s.requests
    requires IsBatch(s.cfg, s.requests, s.index, request, now, members)
    ensures members == [request]
  {
    BatchMembers(s.cfg, s.requests, s.index, request, now, members);
    assert SpecOk(s.cfg, m, s.requests[request].spec);
  }

  /** The effect of a plan on the fair queue: one charge for the request, or nothing. */
  lemma PlanFair(s: State, m: Limits, request: Id, now: Time, order: seq<Id>, out: PlanResult, s1: State)
    requires ConfigOk(s.cfg, m) && SpecsOk(s, m) && Plan(s, request, now, order, out, s1)
    ensures !out.Dispatch? ==> s1.fair == s.fair
    ensures out.Dispatch? ==>
              && request in s.requests
              && s1.fair == Account(s.fair, FlowKeyOf(s.requests[request].spec),
                  ChargedCost(s.requests[request].spec.cost))
  {
    var s0 := ExpireAll(s, order);
    ExpireAllFrame(s, order);
    ExpireAllEffect(s, order, request);
    if out.Dispatch? {
      var members, w :| PlanBatch(s0, request, now, members, w, out, s1);
      forall id | id in s0.requests ensures SpecOk(s0.cfg, m, s0.requests[id].spec) { ExpireAllEffect(s, order, id); }
      SoloBatch(s0, m, request, now, members);
      assert ReserveAll(Open(s0, members, w), [request], Fresh(s0, 1)) ==
             ReserveAll(ReserveOne(Open(s0, members, w), request, Fresh(s0, 1)), [], Fresh(s0, 1));
    }
  }

  lemma EffectiveBounds(cfg: Config, m: Limits, finish: real, spec: Spec, now: Time)
    requires m.Valid() && SpecOk(cfg, m, spec) && finish >= 0.0
    ensures EffectiveFinish(cfg, finish, spec, now) <= finish <= m.boost * EffectiveFinish(cfg, finish, spec, now)
  {
    var b := cfg.boostMax;
    if cfg.boostEnabled && spec.deadline.Some? {
      assert (finish / b) * b == finish;
      Scale(b, finish / b, finish / b);
      Scale(m.boost, finish / b, finish / b);
      assert (m.boost - b) * (finish / b) >= 0.0;
    } else {
      Scale(m.boost, finish, finish);
    }
  }

  lemma BoostedOrder(boost: real, chosen: real, x: real, y: real, other: real)
    requires boost >= 1.0 && chosen <= boost * x && x <= y <= other
    ensures chosen <= boost * other
  {
    assert boost * x <= boost * other;
  }

  /** Right after the selection, the chosen flow's finish time is within the boost of every active flow's. */
  lemma NextIsLeast(s: State, m: Limits, id: Id, now: Time, j: FlowKey)
    requires QueueOk(s) && TopsLive(s) && SpecsOk(s, m) && m.Valid()
    requires IsNext(s, id, now) && j in s.fair.active
    requires FlowAt(s.fair, FlowKeyOf(s.requests[id].spec)).finish >= 0.0 && FlowAt(s.fair, j).finish >= 0.0
    ensures FlowAt(s.fair, FlowKeyOf(s.requests[id].spec)).finish <= m.boost * FlowAt(s.fair, j).finish
  {
    hide QueueOk;
    var e :| IsTop(HeapAt(s.fair, j), e) && Live(s.requests, s.index.queued, e);
    LiveTopIsHead(s, j, e);
    var k := FlowKeyOf(s.requests[id].spec);
    assert SpecOk(s.cfg, m, s.requests[id].spec) && SpecOk(s.cfg, m, s.requests[e.id].spec);
    EffectiveBounds(s.cfg, m, FlowAt(s.fair, k).finish, s.requests[id].spec, now);
    EffectiveBounds(s.cfg, m, FlowAt(s.fair, j).finish, s.requests[e.id].spec, now);
    hide EffectiveFinish;
    assert !Sooner(HeadFinish(s, e.id, now), j, HeadFinish(s, id, now), k);
    BoostedOrder(m.boost, FlowAt(s.fair, k).finish, HeadFinish(s, id, now), HeadFinish(s, e.id, now),
        FlowAt(s.fair, j).finish);
  }

  lemma PlanLag(s: State, m: Limits, request: Id, pickedAt: Time, now: Time, order: seq<Id>, out: PlanResult, s1: State)
    requires QueueOk(s) && TopsLive(s) && ConfigOk(s.cfg, m) && SpecsOk(s, m) && LagOk(s.cfg, s.fair, m)
    requires IsNext(s, request, pickedAt) && Plan(s, request, now, order, out, s1)
    ensures LagOk(s.cfg, s1.fair, m)
  {
    PlanFair(s, m, request, now, order, out, s1);
    if out.Dispatch? {
      hide Plan;
      ChargeLag(s, m, request, pickedAt);
    }
  }

  lemma FinishNonNegative(cfg: Config, fq: Fair, m: Limits, k: FlowKey)
    requires m.Valid() && LagOk(cfg, fq, m)
    ensures 0.0 <= FlowAt(fq, k).finish <= fq.virtualTime
  {
    assert FlowLag(cfg, fq, m, k);
  }

  lemma NextIsActive(s: State, request: Id, pickedAt: Time)
    requires QueueOk(s) && IsNext(s, request, pickedAt)
    ensures FlowKeyOf(s.requests[request].spec) in s.fair.active && FlowKeyOf(s.requests[request].spec) in s.fair.flows
  {
    QueuedEntry(s, request);
  }

  lemma CostWithin(s: State, m: Limits, id: Id)
    requires SpecsOk(s, m) && id in s.requests
    ensures 1.0 <= ChargedCost(s.requests[id].spec.cost) <= m.cost
  {
    assert SpecOk(s.cfg, m, s.requests[id].spec);
  }

  /** The facts about the fair queue that a charge needs, from the invariants. */
  lemma ChargeLag(s: State, m: Limits, request: Id, pickedAt: Time)
    requires QueueOk(s) && TopsLive(s) && ConfigOk(s.cfg, m) && SpecsOk(s, m) && LagOk(s.cfg, s.fair, m)
    requires IsNext(s, request, pickedAt)
    ensures LagOk(s.cfg, Account(s.fair, FlowKeyOf(s.requests[request].spec),
        ChargedCost(s.requests[request].spec.cost)), m)
  {
    hide KeyWeight, LagOk, SpecsOk, TopsLive, EffectiveFinish, Account, QueueOk;
    var k := FlowKeyOf(s.requests[request].spec);
    NextIsActive(s, request, pickedAt);
    ChosenBehindAll(s, m, request, pickedAt);
    hide IsNext;
    CostWithin(s, m, request);
    assert KeyWeight(s.cfg, k) >= m.weight;
    AccountLag(s.cfg, s.fair, k, ChargedCost(s.requests[request].spec.cost), m);
  }

  lemma ChosenBehindAll(s: State, m: Limits, request: Id, pickedAt: Time)
    requires QueueOk(s) && TopsLive(s) && ConfigOk(s.cfg, m) && SpecsOk(s, m) && LagOk(s.cfg, s.fair, m)
    requires IsNext(s, request, pickedAt)
    ensures forall j :: j in s.fair.active ==>
              FlowAt(s.fair, FlowKeyOf(s.requests[request].spec)).finish <= m.boost * FlowAt(s.fair, j).finish
  {
    var k := FlowKeyOf(s.requests[request].spec);
    hide KeyWeight, LagOk, SpecsOk, TopsLive, EffectiveFinish, QueueOk, IsNext;
    forall j | j in s.fair.active ensures FlowAt(s.fair, k).finish <= m.boost * FlowAt(s.fair, j).finish {
      FinishNonNegative(s.cfg, s.fair, m, k);
      FinishNonNegative(s.cfg, s.fair, m, j);
      NextIsLeast(s, m, request, pickedAt, j);
    }
  }

  // ----- runs -----

  /** A plan at position i comes right after the selection that chose its request. */
  predicate AtomicPlan(tr: Trace, i: nat)
    requires i < |tr.events|
  {
    tr.events[i].PlanEvent? ==>
      i > 0 && tr.events[i - 1].PickEvent? && tr.events[i - 1].seed == Some(tr.events[i].request)
  }

  ghost predicate AtomicPlans(tr: Trace) {
    forall i :: 0 <= i < |tr.events| ==> AtomicPlan(tr, i)
  }

  ghost predicate FairRun(tr: Trace, m: Limits) {
    && ProtocolRun(tr) && AtomicPlans(tr) && ConfigOk(tr.states[0].cfg, m)
    && forall i :: 0 <= i < |tr.events| && tr.events[i].SubmitEvent? ==> SpecOk(tr.states[0].cfg, m, tr.events[i].spec)
  }

  lemma StepSpecs(s: State, e: Event, s1: State, m: Limits)
    requires RecordsOk(s) && Step(s, e, s1) && FreshId(s, e) && SpecsOk(s, m)
    requires e.SubmitEvent? ==> SpecOk(s.cfg, m, e.spec)
    ensures SpecsOk(s1, m) && s1.cfg == s.cfg
  {
    StepProgress(s, e, s1);
    forall id | id in s1.requests ensures SpecOk(s1.cfg, m, s1.requests[id].spec) {
      if id in s.requests {
        assert Evolves(s.cfg, s.requests[id], s1.requests[id]);
      } else {
        NewRecord(s, e, s1, id);
      }
    }
  }

  lemma {:induction false} RecoverKeys(s: State, w: Id, order: seq<Id>, now: Time)
    ensures RecoverRequests(s, w, order, now).requests.Keys == s.requests.Keys
    decreases |order|
  {
    if order != [] { RecoverKeys(RecoverOne(s, w, order[0], now), w, order[1..], now); }
  }

  lemma {:induction false} CancelAllKeys(s: State, order: seq<Id>)
    ensures CancelAll(s, order).requests.Keys == s.requests.Keys
    decreases |order|
  {
    if order != [] { CancelAllKeys(if order[0] in s.requests then FinishCancelled(s, order[0], NO_ID)
        else s, order[1..]); }
  }

  lemma PlanKeys(s: State, request: Id, now: Time, order: seq<Id>, out: PlanResult, s1: State, id: Id)
    requires RecordsOk(s) && Plan(s, request, now, order, out, s1) && id in s1.requests
    ensures id in s.requests
  {
    var s0 := ExpireAll(s, order);
    ExpireAllEffect(s, order, id);
    if out.Dispatch? {
      var members, w :| PlanBatch(s0, request, now, members, w, out, s1);
      ReserveAllFrame(Open(s0, members, w), members, Fresh(s0, 1));
    }
  }

  lemma CompleteKeys(s: State, r: Report, now: Time)
    ensures Complete(s, r, now).requests.Keys == s.requests.Keys
  {
    hide ReleaseMember, Push, Insert;
  }

  lemma SmallStepsKeys(s: State, e: Event, s1: State)
    requires Step(s, e, s1)
    requires e.ConfirmEvent? || e.CancelEvent? || e.CapabilityEvent? || e.WorkerStateEvent? || e.DrainEvent?
        || e.EpochEvent?
    ensures s1.requests.Keys == s.requests.Keys
  {
    hide ReleaseMember, StartBatch;
  }

  lemma SubmittedSpec(s: State, spec: Spec, pre: Option<Id>, now: Time, id: Id)
    requires id in Submit(s, spec, pre, now).requests && id !in s.requests
    ensures Submit(s, spec, pre, now).requests[id].spec == spec
  {
    hide Push, Insert;
  }

  lemma RegisterKeys(s: State, reg: Registration, now: Time, order: seq<Id>)
    ensures Register(s, reg, now, order).requests.Keys == s.requests.Keys
  {
    RecoverKeys(s, reg.worker, order, now);
    hide RecoverRequests, ClearWorker;
  }

  lemma UnregisterKeys(s: State, w: Id, now: Time, order: seq<Id>)
    ensures Unregister(s, w, now, order).requests.Keys == s.requests.Keys
  {
    RecoverKeys(s, w, order, now);
    hide RecoverRequests, ClearWorker;
  }

  /** A request that appears in a step was submitted in it. */
  lemma NewRecord(s: State, e: Event, s1: State, id: Id)
    requires RecordsOk(s) && Step(s, e, s1) && id in s1.requests && id !in s.requests
    ensures e.SubmitEvent? && s1.requests[id].spec == e.spec
  {
    hide RecordsOk, Submit, Plan, Complete, CancelAll, Register, Unregister;
    match e
    case SubmitEvent(spec, pre, now) => SubmittedSpec(s, spec, pre, now, id);
    case PickEvent(now, order, seed) => ExpireAllEffect(s, order, id);
    case PlanEvent(request, now, order, out) => PlanKeys(s, request, now, order, out, s1, id);
    case CompleteEvent(r, now) => CompleteKeys(s, r, now);
    case CancelAllEvent(order) => CancelAllKeys(s, order);
    case RegisterEvent(reg, now, order) => RegisterKeys(s, reg, now, order);
    case UnregisterEvent(w, now, order) => UnregisterKeys(s, w, now, order);
    case _ => SmallStepsKeys(s, e, s1);
  }

  /** State i of a fair run, with the facts every later step needs. */
  ghost predicate FairAt(tr: Trace, m: Limits, i: nat)
    requires m.Valid() && i < |tr.states| == |tr.events| + 1
  {
    var s := tr.states[i];
    && s.cfg == tr.states[0].cfg
    && ProtocolOk(s, Handed(tr, i)) && SpecsOk(s, m) && LagOk(s.cfg, s.fair, m)
  }

  lemma AfterPick(tr: Trace, m: Limits, i: nat)
    requires FairRun(tr, m) && i < |tr.events| && tr.events[i].PlanEvent? && AtomicPlan(tr, i) && FairAt(tr, m, i - 1)
    ensures TopsLive(tr.states[i]) && IsNext(tr.states[i], tr.events[i].request, tr.events[i - 1].now)
  {
    assert AtomicPlan(tr, i);
    var e := tr.events[i - 1];
    assert Step(tr.states[i - 1], e, tr.states[i]);
    PickTopsLive(tr.states[i - 1], e.now, e.order, e.seed, tr.states[i]);
    PickIsNext(tr.states[i - 1], e.now, e.order, e.seed, tr.states[i]);
  }

  lemma PlanStep(s: State, e: Event, s1: State)
    requires Step(s, e, s1) && e.PlanEvent?
    ensures Plan(s, e.request, e.now, e.order, e.out, s1)
  {
  }

  lemma FairStep(tr: Trace, m: Limits, i: nat)
    requires FairRun(tr, m) && i < |tr.events| && FairAt(tr, m, i) && (i > 0 ==> FairAt(tr, m, i - 1))
    ensures FairAt(tr, m, i + 1)
  {
    hide KeyWeight, LagOk, SpecsOk, QueueOk, RecordsOk, HandedOk, HandedOnce, FlightsOk, Step, Plan, EnvOk;
    RunProtocol(tr, i + 1);
    var s, e, s1 := tr.states[i], tr.events[i], tr.states[i + 1];
    assert Step(s, e, s1);
    assert FreshId(s, e) by { FreshInRun(tr, i); }
    StepSpecs(s, e, s1, m);
    if e.PlanEvent? {
      assert AtomicPlan(tr, i);
      AfterPick(tr, m, i);
      PlanStep(s, e, s1);
      PlanLag(s, m, e.request, tr.events[i - 1].now, e.now, e.order, e.out, s1);
    } else {
      OtherStepsLag(s, e, s1, m);
    }
  }

  lemma FreshInRun(tr: Trace, i: nat)
    requires ProtocolRun(tr) && i < |tr.events|
    ensures FreshId(tr.states[i], tr.events[i])
  {
    assert EnvOk(tr.states[i], tr.events[i], Handed(tr, i));
  }

  lemma {:induction false} RunFair(tr: Trace, m: Limits, i: nat)
    requires FairRun(tr, m) && i < |tr.states|
    ensures FairAt(tr, m, i)
  {
    assert |tr.states| == |tr.events| + 1;
    hide FairAt, ProtocolRun;
    if i > 0 {
      RunFair(tr, m, i - 1);
      if i > 1 { RunFair(tr, m, i - 2); }
      FairStep(tr, m, i - 1);
    } else {
      FairStart(tr, m);
    }
  }

  lemma FairStart(tr: Trace, m: Limits)
    requires FairRun(tr, m)
    ensures FairAt(tr, m, 0)
  {
    RunProtocol(tr, 0);
    LagPositive(m);
    hide ProtocolOk, KeyWeight, Limits.Lag, EnvOk, Step;
    var s := tr.states[0];
    assert s.requests == map[] && s.fair == EMPTY_FAIR;
    forall k ensures FlowLag(s.cfg, s.fair, m, k) {
      assert FlowAt(s.fair, k) == EMPTY_FLOW;
    }
  }

  /** In every state of such a run every active flow j satisfies
      finish(j) <= virtual time <= boost * finish(j) + cost / weight. */
  lemma LagBounded(tr: Trace, m: Limits, i: nat, j: FlowKey)
    requires FairRun(tr, m) && i < |tr.states| && j in tr.states[i].fair.active
    ensures var fq := tr.states[i].fair;
            FlowAt(fq, j).finish <= fq.virtualTime <= m.boost * FlowAt(fq, j).finish + m.cost / m.weight
  {
    hide KeyWeight, SpecsOk, ProtocolOk, IsRun, ProtocolRun;
    RunFair(tr, m, i);
    assert FlowLag(tr.states[i].cfg, tr.states[i].fair, m, j);
  }

  /** Without boost any two active flows are within cost / weight of each other. */
  lemma FlowsStayTogether(tr: Trace, m: Limits, i: nat, j: FlowKey, k: FlowKey)
    requires FairRun(tr, m) && m.boost == 1.0 && i < |tr.states|
    requires j in tr.states[i].fair.active && k in tr.states[i].fair.active
    ensures var fq := tr.states[i].fair;
            -(m.cost / m.weight) <= FlowAt(fq, j).finish - FlowAt(fq, k).finish <= m.cost / m.weight
  {
    LagBounded(tr, m, i, j);
    LagBounded(tr, m, i, k);
    hide FairRun;
  }

  // ----- starvation -----

  /** Where a flow stands in virtual time; an idle flow will start at the virtual time. */
  function Reached(fq: Fair, k: FlowKey): real {
    if k in fq.active then FlowAt(fq, k).finish else MaxReal(FlowAt(fq, k).finish, fq.virtualTime)
  }

  ghost predicate ActiveOk(fq: Fair) {
    forall k :: k in fq.active <==> HeapAt(fq, k) != multiset{}
  }

  /** fq1 follows fq without a dispatch: no flow falls back, and the flows that stay active keep their finish time. */
  ghost predicate Onward(fq: Fair, fq1: Fair) {
    forall k :: Reached(fq, k) <= Reached(fq1, k) &&
                (k in fq.active && k in fq1.active ==> FlowAt(fq1, k).finish == FlowAt(fq, k).finish)
  }

  lemma PushOnward(cfg: Config, fq: Fair, id: Id, rec: Request)
    requires ActiveOk(fq)
    ensures ActiveOk(Push(cfg, fq, id, rec)) && Onward(fq, Push(cfg, fq, id, rec))
        && fq.active <= Push(cfg, fq, id, rec).active
  {
    hide KeyWeight;
    var fq1 := Push(cfg, fq, id, rec);
    forall k ensures Reached(fq, k) <= Reached(fq1, k)
        && (k in fq.active ==> FlowAt(fq1, k).finish == FlowAt(fq, k).finish) {
      PushFinish(cfg, fq, id, rec, k);
    }
    forall k ensures k in fq1.active <==> HeapAt(fq1, k) != multiset{} {
      PushFinish(cfg, fq, id, rec, k);
      PushedHeap(cfg, fq, id, rec, k);
    }
  }

  lemma OnwardTrans(a: Fair, b: Fair, c: Fair)
    requires Onward(a, b) && Onward(b, c) && a.active <= b.active <= c.active
    ensures Onward(a, c)
  {
    forall k ensures Reached(a, k) <= Reached(c, k) &&
        (k in a.active && k in c.active ==> FlowAt(c, k).finish == FlowAt(a, k).finish) {
      assert Reached(a, k) <= Reached(b, k);
    }
  }

  lemma PruneOnward(rs: map<Id, Request>, queued: set<Id>, fq: Fair, fq1: Fair)
    requires Pruned(rs, queued, fq, fq1) && forall k :: FlowAt(fq, k).finish <= fq.virtualTime
    ensures Onward(fq, fq1)
  {
    forall k ensures Reached(fq, k) <= Reached(fq1, k) &&
        (k in fq.active && k in fq1.active ==> FlowAt(fq1, k).finish == FlowAt(fq, k).finish) {}
  }

  lemma RetryOnward(s: State, id: Id, w: Id, now: Time)
    requires ActiveOk(s.fair) && id in s.requests
    ensures ActiveOk(MakeRetry(s, id, w, now).fair) && Onward(s.fair, MakeRetry(s, id, w, now).fair)
    ensures s.fair.active <= MakeRetry(s, id, w, now).fair.active
  {
    hide KeyWeight;
    RetryShape(s, id, w, now);
    PushOnward(s.cfg, s.fair, id,
               RetriedRecord(s.requests[id], Fresh(s, 1), Fresh(s, 2)).(state := RequestState.Queued, queuedAt := now));
  }

  lemma {:induction false} RecoverOnward(s: State, w: Id, order: seq<Id>, now: Time)
    requires ActiveOk(s.fair)
    ensures ActiveOk(RecoverRequests(s, w, order, now).fair) && Onward(s.fair, RecoverRequests(s, w, order, now).fair)
    ensures s.fair.active <= RecoverRequests(s, w, order, now).fair.active
    decreases |order|
  {
    hide KeyWeight;
    if order != [] {
      var s1 := RecoverOne(s, w, order[0], now);
      if order[0] in s.requests { RetryOnward(s, order[0], w, now); }
      RecoverOnward(s1, w, order[1..], now);
      OnwardTrans(s.fair, s1.fair, RecoverRequests(s1, w, order[1..], now).fair);
    }
  }

  lemma OtherStepsOnward(s: State, e: Event, s1: State)
    requires Step(s, e, s1) && FreshId(s, e) && !e.PlanEvent?
    requires ActiveOk(s.fair) && forall k :: FlowAt(s.fair, k).finish <= s.fair.virtualTime
    ensures Onward(s.fair, s1.fair)
  {
    hide Onward, ActiveOk, Push, MakeRetry, Submit, Pick, Complete, CancelAll, Register, Unregister, RecoverRequests,
         Pruned, FreshId;
    OnwardSame(s.fair);
    match e
    case SubmitEvent(spec, pre, now) =>
      SubmitFair(s, spec, pre, now);
      PushOnward(s.cfg, s.fair, RequestIdFor(s, pre),
                 FirstRecord(spec, Fresh(s, IdsTaken(pre) + 2), Fresh(s, IdsTaken(pre) + 1), now));
    case PickEvent(now, order, seed) =>
      PickFair(s, now, order, seed, s1);
      PruneOnward(ExpireAll(s, order).requests,
                  Runnable(ExpireAll(s, order).requests, ExpireAll(s, order).index.queued, now), s.fair, s1.fair);
    case CompleteEvent(r, now) =>
      CompleteFair(s, r, now);
      if r.request in s.requests { RetryOnward(s, r.request, r.worker, now); }
    case CancelAllEvent(order) => CancelAllFair(s, order);
    case RegisterEvent(reg, now, order) =>
      RegisterFair(s, reg, now, order);
      RecoverOnward(s, reg.worker, order, now);
    case UnregisterEvent(w, now, order) =>
      UnregisterFair(s, w, now, order);
      RecoverOnward(s, w, order, now);
    case _ => SmallStepsFair(s, e, s1);
  }

  lemma OnwardSame(fq: Fair)
    ensures Onward(fq, fq)
  {
  }

  /** How many dispatches of a flow with this weight fit before it passes position v. */
  function Measure(v: real, reached: real, weight: real): int {
    if reached > v then 0 else ((v - reached) * weight).Floor + 1
  }

  lemma Times(a: real, b: real, weight: real)
    requires weight > 0.0 && 0.0 <= a <= b
    ensures 0.0 <= a * weight <= b * weight
  {
  }

  lemma MeasureFalls(v: real, x: real, y: real, weight: real)
    requires weight > 0.0 && x <= y
    ensures 0 <= Measure(v, y, weight) <= Measure(v, x, weight)
  {
    if x <= v {
      Times(if y <= v then v - y else 0.0, v - x, weight);
      var p, q := (v - y) * weight, (v - x) * weight;
      assert y <= v ==> 0 <= p.Floor <= q.Floor;
      assert 0 <= q.Floor;
    }
  }

  lemma MeasurePays(v: real, x: real, cost: real, weight: real)
    requires weight > 0.0 && x <= v && cost >= 1.0
    ensures Measure(v, x + cost / weight, weight) + 1 <= Measure(v, x, weight)
  {
    var d := cost / weight;
    var q := (v - x) * weight;
    assert d * weight == cost;
    assert (v - (x + d)) * weight == q - cost;
    Times(0.0, v - x, weight);
    assert (q - cost).Floor + 1 <= q.Floor && 0 <= q.Floor;
  }

  lemma MeasureStarts(v: real, x: real, lag: real, weight: real)
    requires weight > 0.0 && v - lag <= x && lag >= 0.0
    ensures Measure(v, x, weight) <= (lag * weight).Floor + 1
  {
    Times(if x <= v then v - x else 0.0, lag, weight);
    var p, q := (v - x) * weight, lag * weight;
    assert x <= v ==> p.Floor <= q.Floor;
    assert 0 <= q.Floor;
  }

  ghost function Measures(cfg: Config, fq: Fair, v: real, flows: set<FlowKey>): map<FlowKey, int> {
    map k | k in flows :: Measure(v, Reached(fq, k), KeyWeight(cfg, k))
  }

  /** The most dispatches that can pass a flow by: for every other flow the number of its
      requests, at cost one each, that fit into the lag, plus one. */
  ghost function Patience(cfg: Config, m: Limits, flows: set<FlowKey>): int
    requires m.Valid()
  {
    Total(map k | k in flows :: (m.Lag() * KeyWeight(cfg, k)).Floor + 1)
  }

  lemma ReachedWithinLag(cfg: Config, fq: Fair, m: Limits, j: FlowKey, k: FlowKey)
    requires m.Valid() && m.boost == 1.0 && LagOk(cfg, fq, m) && j in fq.active
    ensures FlowAt(fq, j).finish - m.Lag() <= Reached(fq, k)
  {
    LagPositive(m);
    hide Limits.Lag;
    var v, f := FlowAt(fq, j).finish, FlowAt(fq, k).finish;
    assert FlowLag(cfg, fq, m, j) && FlowLag(cfg, fq, m, k);
    assert v <= fq.virtualTime && f <= fq.virtualTime;
    assert k in fq.active ==> fq.virtualTime <= m.boost * f + m.Lag();
    assert m.boost * f == f;
  }

  lemma PotentialStarts(cfg: Config, fq: Fair, m: Limits, j: FlowKey, flows: set<FlowKey>)
    requires ConfigOk(cfg, m) && m.boost == 1.0 && LagOk(cfg, fq, m) && j in fq.active
    ensures Total(Measures(cfg, fq, FlowAt(fq, j).finish, flows)) <= Patience(cfg, m, flows)
  {
    hide KeyWeight, LagOk, Reached, Measure;
    LagPositive(m);
    hide Limits.Lag;
    var v := FlowAt(fq, j).finish;
    var top := map k | k in flows :: (m.Lag() * KeyWeight(cfg, k)).Floor + 1;
    forall k | k in flows ensures Measures(cfg, fq, v, flows)[k] <= top[k] {
      assert KeyWeight(cfg, k) >= m.weight;
      ReachedWithinLag(cfg, fq, m, j, k);
      MeasureStarts(v, Reached(fq, k), m.Lag(), KeyWeight(cfg, k));
    }
    TotalCompare(Measures(cfg, fq, v, flows), top);
  }

  lemma PotentialFalls(cfg: Config, fq: Fair, fq1: Fair, m: Limits, v: real, flows: set<FlowKey>)
    requires ConfigOk(cfg, m) && Onward(fq, fq1)
    ensures Total(Measures(cfg, fq1, v, flows)) <= Total(Measures(cfg, fq, v, flows))
  {
    hide KeyWeight, Reached, Measure;
    forall k | k in flows ensures Measures(cfg, fq1, v, flows)[k] <= Measures(cfg, fq, v, flows)[k] {
      assert KeyWeight(cfg, k) >= m.weight && Reached(fq, k) <= Reached(fq1, k);
      MeasureFalls(v, Reached(fq, k), Reached(fq1, k), KeyWeight(cfg, k));
    }
    TotalCompare(Measures(cfg, fq1, v, flows), Measures(cfg, fq, v, flows));
  }

  lemma AccountReached(cfg: Config, fq: Fair, m: Limits, k: FlowKey, cost: real, i: FlowKey)
    requires ConfigOk(cfg, m) && LagOk(cfg, fq, m) && k in fq.flows && k in fq.active && cost >= 1.0
    ensures Reached(fq, i) <= Reached(Account(fq, k, cost), i)
    ensures Reached(Account(fq, k, cost), k) == Reached(fq, k) + cost / KeyWeight(cfg, k)
    ensures i != k ==> FlowAt(Account(fq, k, cost), i).finish == FlowAt(fq, i).finish
  {
    assert KeyWeight(cfg, k) >= m.weight && FlowLag(cfg, fq, m, k) && FlowLag(cfg, fq, m, i);
    hide KeyWeight, FlowLag;
    assert cost / fq.flows[k].weight > 0.0;
    AccountFinish(fq, k, cost, i);
    AccountFinish(fq, k, cost, k);
  }

  /** A dispatch of another flow uses up at least one unit of the potential. */
  lemma PotentialPays(cfg: Config, fq: Fair, m: Limits, k: FlowKey, cost: real, v: real, flows: set<FlowKey>)
    requires ConfigOk(cfg, m) && LagOk(cfg, fq, m) && k in fq.flows && k in fq.active && k in flows && cost >= 1.0
    requires Reached(fq, k) <= v
    ensures Total(Measures(cfg, Account(fq, k, cost), v, flows)) + 1 <= Total(Measures(cfg, fq, v, flows))
  {
    hide KeyWeight, LagOk, Account, Reached, Measure;
    var fq1 := Account(fq, k, cost);
    assert KeyWeight(cfg, k) >= m.weight;
    forall i | i in flows ensures Measures(cfg, fq1, v, flows)[i] <= Measures(cfg, fq, v, flows)[i] {
      MeasureAfterCharge(cfg, fq, m, k, cost, v, i);
    }
    AccountReached(cfg, fq, m, k, cost, k);
    MeasurePays(v, Reached(fq, k), cost, KeyWeight(cfg, k));
    assert Measures(cfg, fq1, v, flows)[k] < Measures(cfg, fq, v, flows)[k];
    TotalCompare(Measures(cfg, fq1, v, flows), Measures(cfg, fq, v, flows));
  }

  lemma MeasureAfterCharge(cfg: Config, fq: Fair, m: Limits, k: FlowKey, cost: real, v: real, i: FlowKey)
    requires ConfigOk(cfg, m) && LagOk(cfg, fq, m) && k in fq.flows && k in fq.active && cost >= 1.0
    ensures Measure(v, Reached(Account(fq, k, cost), i), KeyWeight(cfg, i))
         <= Measure(v, Reached(fq, i), KeyWeight(cfg, i))
  {
    assert KeyWeight(cfg, i) >= m.weight;
    AccountReached(cfg, fq, m, k, cost, i);
    hide KeyWeight, LagOk, Account, Reached;
    MeasureFalls(v, Reached(fq, i), Reached(Account(fq, k, cost), i), KeyWeight(cfg, i));
  }

  ghost predicate IsDispatch(e: Event) { e.PlanEvent? && e.out.Dispatch? }

  /** The flow served by the dispatch at position i of a run. */
  ghost predicate Serves(tr: Trace, i: nat, j: FlowKey)
    requires i < |tr.events| < |tr.states|
  {
    && IsDispatch(tr.events[i]) && tr.events[i].request in tr.states[i].requests
    && FlowKeyOf(tr.states[i].requests[tr.events[i].request].spec) == j
  }

  ghost function Dispatches(tr: Trace, a: nat, b: nat): nat
    requires a <= b <= |tr.events|
    decreases b
  {
    if a == b then 0 else Dispatches(tr, a, b - 1) + (if IsDispatch(tr.events[b - 1]) then 1 else 0)
  }

  /** One step while flow j waits: its finish time stays, and the potential pays for a dispatch. */
  lemma WaitingStep(tr: Trace, m: Limits, i: nat, j: FlowKey, flows: set<FlowKey>)
    requires FairRun(tr, m) && m.boost == 1.0 && i < |tr.events| && |tr.states| == |tr.events| + 1
    requires j in tr.states[i].fair.active && j in tr.states[i + 1].fair.active && !Serves(tr, i, j)
    requires forall k :: k in tr.states[i].fair.flows && k != j ==> k in flows
    ensures FlowAt(tr.states[i + 1].fair, j).finish == FlowAt(tr.states[i].fair, j).finish
    ensures var v, cfg := FlowAt(tr.states[i].fair, j).finish, tr.states[0].cfg;
            Total(Measures(cfg, tr.states[i + 1].fair, v, flows)) + (if IsDispatch(tr.events[i]) then 1 else 0) <=
            Total(Measures(cfg, tr.states[i].fair, v, flows))
  {
    hide KeyWeight, LagOk, Measures, QueueOk, SpecsOk, Step, Plan, TopsLive, FreshId, ProtocolRun, FairAt;
    StateFacts(tr, m, i);
    var s, e, s1 := tr.states[i], tr.events[i], tr.states[i + 1];
    if e.PlanEvent? {
      assert AtomicPlan(tr, i);
      RunFair(tr, m, i - 1);
      AfterPick(tr, m, i);
      PlanStep(s, e, s1);
      WaitingPlan(s, m, e.request, tr.events[i - 1].now, e.now, e.order, e.out, s1, j, flows);
    } else {
      WaitingOther(s, e, s1, m, j, flows);
    }
  }

  lemma StateFacts(tr: Trace, m: Limits, i: nat)
    requires FairRun(tr, m) && i < |tr.events|
    ensures var s := tr.states[i];
            && s.cfg == tr.states[0].cfg && ConfigOk(s.cfg, m)
            && QueueOk(s) && SpecsOk(s, m) && LagOk(s.cfg, s.fair, m)
            && Step(s, tr.events[i], tr.states[i + 1]) && FreshId(s, tr.events[i])
  {
    hide KeyWeight, LagOk, RecordsOk, HandedOk, HandedOnce, FlightsOk, QueueOk, SpecsOk, Step, EnvOk, FreshId;
    RunFair(tr, m, i);
    FreshInRun(tr, i);
  }

  lemma WaitingOther(s: State, e: Event, s1: State, m: Limits, j: FlowKey, flows: set<FlowKey>)
    requires QueueOk(s) && ConfigOk(s.cfg, m) && LagOk(s.cfg, s.fair, m) && Step(s, e, s1) && FreshId(s, e)
        && !e.PlanEvent?
    requires j in s.fair.active && j in s1.fair.active
    ensures FlowAt(s1.fair, j).finish == FlowAt(s.fair, j).finish
    ensures Total(Measures(s.cfg, s1.fair, FlowAt(s.fair, j).finish, flows)) <=
            Total(Measures(s.cfg, s.fair, FlowAt(s.fair, j).finish, flows))
  {
    hide KeyWeight, Measures, Step, FreshId, LagOk, Reached;
    ActiveFromQueue(s);
    hide QueueOk;
    FinishesBehind(s.cfg, s.fair, m);
    OtherStepsOnward(s, e, s1);
    PotentialFalls(s.cfg, s.fair, s1.fair, m, FlowAt(s.fair, j).finish, flows);
  }

  lemma FinishesBehind(cfg: Config, fq: Fair, m: Limits)
    requires m.Valid() && LagOk(cfg, fq, m)
    ensures forall k :: FlowAt(fq, k).finish <= fq.virtualTime
  {
    forall k ensures FlowAt(fq, k).finish <= fq.virtualTime { FinishNonNegative(cfg, fq, m, k); }
  }

  lemma ReachedActive(fq: Fair, k: FlowKey)
    requires k in fq.active
    ensures Reached(fq, k) == FlowAt(fq, k).finish
  {
  }

  lemma ActiveFromQueue(s: State)
    requires QueueOk(s)
    ensures ActiveOk(s.fair)
  {
  }

  lemma WaitingPlan(s: State, m: Limits, request: Id, pickedAt: Time, now: Time, order: seq<Id>, out: PlanResult,
      s1: State,
                    j: FlowKey, flows: set<FlowKey>)
    requires QueueOk(s) && TopsLive(s) && ConfigOk(s.cfg, m) && SpecsOk(s, m) && LagOk(s.cfg, s.fair, m)
        && m.boost == 1.0
    requires IsNext(s, request, pickedAt) && Plan(s, request, now, order, out, s1) && j in s.fair.active
    requires out.Dispatch? ==> FlowKeyOf(s.requests[request].spec) != j
    requires forall k :: k in s.fair.flows && k != j ==> k in flows
    ensures FlowAt(s1.fair, j).finish == FlowAt(s.fair, j).finish
    ensures Total(Measures(s.cfg, s1.fair, FlowAt(s.fair, j).finish, flows)) + (if out.Dispatch? then 1 else 0) <=
            Total(Measures(s.cfg, s.fair, FlowAt(s.fair, j).finish, flows))
  {
    hide KeyWeight, LagOk, TopsLive, SpecsOk, Reached, Measures, EffectiveFinish;
    PlanFair(s, m, request, now, order, out, s1);
    hide Plan;
    if out.Dispatch? {
      var k, cost := FlowKeyOf(s.requests[request].spec), ChargedCost(s.requests[request].spec.cost);
      NextIsActive(s, request, pickedAt);
      hide QueueOk, IsNext;
      CostWithin(s, m, request);
      FinishNonNegative(s.cfg, s.fair, m, k);
      FinishNonNegative(s.cfg, s.fair, m, j);
      NextIsLeast(s, m, request, pickedAt, j);
      assert m.boost * FlowAt(s.fair, j).finish == FlowAt(s.fair, j).finish;
      AccountReached(s.cfg, s.fair, m, k, cost, j);
      ReachedActive(s.fair, k);
      PotentialPays(s.cfg, s.fair, m, k, cost, FlowAt(s.fair, j).finish, flows);
    }
  }

  lemma {:induction false} WaitingRun(tr: Trace, m: Limits, a: nat, b: nat, j: FlowKey, flows: set<FlowKey>)
    requires FairRun(tr, m) && m.boost == 1.0 && a <= b <= |tr.events| && |tr.states| == |tr.events| + 1
    requires forall i :: a <= i <= b ==> j in tr.states[i].fair.active
    requires forall i :: a <= i < b ==> !Serves(tr, i, j)
    requires forall i, k :: a <= i <= b && k in tr.states[i].fair.flows && k != j ==> k in flows
    ensures FlowAt(tr.states[b].fair, j).finish == FlowAt(tr.states[a].fair, j).finish
    ensures var v, cfg := FlowAt(tr.states[a].fair, j).finish, tr.states[0].cfg;
            Dispatches(tr, a, b) + Total(Measures(cfg, tr.states[b].fair, v, flows)) <=
            Total(Measures(cfg, tr.states[a].fair, v, flows))
    decreases b
  {
    hide FairRun, Measures;
    if a < b {
      WaitingRun(tr, m, a, b - 1, j, flows);
      WaitingStep(tr, m, b - 1, j, flows);
    }
  }

  /** Starvation freedom with an explicit bound: while a flow stays active and is not served,
      at most Patience dispatches go to the other flows, even when those empty and come back. */
  lemma ServedInTime(tr: Trace, m: Limits, a: nat, b: nat, j: FlowKey, flows: set<FlowKey>)
    requires FairRun(tr, m) && m.boost == 1.0 && a <= b <= |tr.events|
    requires forall i :: a <= i <= b ==> j in tr.states[i].fair.active
    requires forall i, k :: a <= i <= b && k in tr.states[i].fair.flows && k != j ==> k in flows
    ensures Dispatches(tr, a, b) > Patience(tr.states[0].cfg, m, flows) ==> exists i :: a <= i < b && Serves(tr, i, j)
  {
    hide KeyWeight, Limits.Lag;
    if forall i :: a <= i < b ==> !Serves(tr, i, j) {
      WaitingRun(tr, m, a, b, j, flows);
      RunFair(tr, m, a);
      PotentialStarts(tr.states[0].cfg, tr.states[a].fair, m, j, flows);
      MeasuresNonNegative(tr.states[0].cfg, tr.states[b].fair, m, FlowAt(tr.states[a].fair, j).finish, flows);
    }
  }

  lemma MeasuresNonNegative(cfg: Config, fq: Fair, m: Limits, v: real, flows: set<FlowKey>)
    requires ConfigOk(cfg, m)
    ensures Total(Measures(cfg, fq, v, flows)) >= 0
  {
    hide KeyWeight;
    forall k | k in flows ensures Measures(cfg, fq, v, flows)[k] >= 0 {
      assert KeyWeight(cfg, k) >= m.weight;
      MeasureFalls(v, Reached(fq, k), Reached(fq, k), KeyWeight(cfg, k));
    }
    TotalNonNegative(Measures(cfg, fq, v, flows));
  }
}
