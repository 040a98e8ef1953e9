/** What a dispatch is charged to the flows of its members, in terms of the configured weights. */
module Charges {
  import opened Types
  import opened Collections
  import opened ReadyQueue
  import opened Machine
  import opened Lifecycle
  import opened Protocol
  import opened Choices

  // ----- the share of a flow -----

  /** w is the weight configured for tenant t: that of the first entry for it, or the default if there is none. */
  predicate TenantShare(cfg: Config, t: Id, w: real) {
    || ((forall i :: 0 <= i < |cfg.tenantWeights| ==> cfg.tenantWeights[i].0 != t) && w == cfg.defaultWeight)
    || exists i :: 0 <= i < |cfg.tenantWeights| && cfg.tenantWeights[i] == (t, w) &&
         forall j :: 0 <= j < i ==> cfg.tenantWeights[j].0 != t
  }

  lemma {:induction false} TenantShareExact(weights: seq<(Id, real)>, dflt: real, t: Id)
    ensures || ((forall i :: 0 <= i < |weights| ==> weights[i].0 != t) && TenantWeight(weights, dflt, t) == dflt)
            || exists i :: 0 <= i < |weights| && weights[i] == (t, TenantWeight(weights, dflt, t)) &&
                 forall j :: 0 <= j < i ==> weights[j].0 != t
    decreases |weights|
  {
    if weights != [] && weights[0].0 != t {
      var rest := weights[1..];
      TenantShareExact(rest, dflt, t);
      if !(forall i :: 0 <= i < |rest| ==> rest[i].0 != t) {
        var i :| 0 <= i < |rest| && rest[i] == (t, TenantWeight(rest, dflt, t)) &&
                 forall j :: 0 <= j < i ==> rest[j].0 != t;
        assert weights[i + 1] == (t, TenantWeight(weights, dflt, t));
        forall j | 0 <= j < i + 1 ensures weights[j].0 != t { if j > 0 { assert weights[j] == rest[j - 1]; } }
      }
    }
  }

  /** The weight of a flow is the product of the weights configured for its tenant, latency class, priority and
      phase. */
  lemma WeightExact(cfg: Config, spec: Spec, w: real)
    requires TenantShare(cfg, spec.tenant, w)
    ensures KeyWeight(cfg, FlowKeyOf(spec)) ==
            w * cfg.latencyWeight[spec.latency] * cfg.priorityWeight[spec.priority] * cfg.phaseWeight[spec.phase]
  {
    TenantShareExact(cfg.tenantWeights, cfg.defaultWeight, spec.tenant);
  }

  /** A request that joins the queue: its flow has one more entry, with the time left now, and the weight
      configured. A flow that was idle becomes active and starts no earlier than the virtual time. No other flow
      changes. */
  lemma JoinExact(cfg: Config, fq: Fair, id: Id, rec: Request, j: FlowKey)
    ensures var fq1 := Push(cfg, fq, id, rec);
            var k := FlowKey(rec.spec.tenant, rec.spec.latency, rec.spec.phase, rec.spec.priority);
            var f, f1 := FlowAt(fq, k), FlowAt(fq1, k);
            && fq1.virtualTime == fq.virtualTime && fq1.flows.Keys == fq.flows.Keys + {k}
            && (j != k ==> FlowAt(fq1, j) == FlowAt(fq, j))
            && f1.pending == f.pending + multiset{ReadyEntry(id, rec.generation, rec.spec.Slack(rec.queuedAt),
                rec.spec.priority)}
            && f1.weight == KeyWeight(cfg, k)
            && (f.pending != multiset{} ==> f1.finish == f.finish && fq1.active == fq.active)
            && (f.pending == multiset{} ==>
                  && fq1.active == fq.active + {k} && f1.finish >= f.finish && f1.finish >= fq.virtualTime
                  && (f1.finish == f.finish || f1.finish == fq.virtualTime))
  {
    hide KeyWeight;
  }

  // ----- what a dispatch charges -----

  /** Charges of those of these requests that belong to flow k. */
  function Dues(rs: map<Id, Request>, ids: seq<Id>, k: FlowKey): real
    requires forall i :: 0 <= i < |ids| ==> ids[i] in rs
    decreases |ids|
  {
    if ids == [] then 0.0
    else
      var sp := rs[ids[0]].spec;
      (if FlowKey(sp.tenant, sp.latency, sp.phase, sp.priority) == k then Charge(sp.cost)
          else 0.0) + Dues(rs, ids[1..], k)
  }

  /** A weight that is not positive counts as one. */
  function Divisor(fq: Fair, k: FlowKey): real { if FlowAt(fq, k).weight > 0.0 then FlowAt(fq, k).weight else 1.0 }

  lemma {:induction false} DuesSame(rs: map<Id, Request>, rs1: map<Id, Request>, ids: seq<Id>, k: FlowKey)
    requires forall i :: 0 <= i < |ids| ==> ids[i] in rs && ids[i] in rs1 && rs1[ids[i]].spec == rs[ids[i]].spec
    ensures Dues(rs1, ids, k) == Dues(rs, ids, k)
    decreases |ids|
  {
    if ids != [] { DuesSame(rs, rs1, ids[1..], k); }
  }

  lemma ReserveOneCharges(s: State, id: Id, b: Id, k: FlowKey)
    requires id in s.requests
    ensures var s1 := ReserveOne(s, id, b);
            && FlowAt(s1.fair, k).finish == FlowAt(s.fair, k).finish + Dues(s.requests, [id], k) / Divisor(s.fair, k)
            && FlowAt(s1.fair, k) == FlowAt(s.fair, k).(finish := FlowAt(s1.fair, k).finish)
            && s1.fair.active == s.fair.active && s1.fair.flows.Keys == s.fair.flows.Keys +
                {FlowKeyOf(s.requests[id].spec)}
  {
    hide Remove;
    var sp := s.requests[id].spec;
    assert Dues(s.requests, [id], k) ==
      (if FlowKey(sp.tenant, sp.latency, sp.phase, sp.priority) == k then Charge(sp.cost)
          else 0.0) + Dues(s.requests, [], k);
  }

  lemma AddDues(a: real, b: real, w: real)
    requires w > 0.0
    ensures a / w + b / w == (a + b) / w
  {
  }

  /** A dispatch adds to the finish time of every flow the charges of its members in the batch, over the weight of
      the flow. Heaps, weights and active flows stay. */
  lemma {:induction false} ReserveCharges(s: State, members: seq<Id>, b: Id, k: FlowKey)
    requires forall i :: 0 <= i < |members| ==> members[i] in s.requests
    ensures var s1 := ReserveAll(s, members, b);
            && FlowAt(s1.fair, k).finish == FlowAt(s.fair, k).finish + Dues(s.requests, members, k) / Divisor(s.fair, k)
            && FlowAt(s1.fair, k) == FlowAt(s.fair, k).(finish := FlowAt(s1.fair, k).finish)
            && s1.fair.active == s.fair.active
    decreases |members|
  {
    if members != [] {
      var s1, rest := ReserveOne(s, members[0], b), members[1..];
      ReserveOneCharges(s, members[0], b, k);
      DuesSame(s.requests, s1.requests, rest, k);
      hide ReserveOne;
      ReserveCharges(s1, rest, b, k);
      AddDues(Dues(s.requests, [members[0]], k), Dues(s.requests, rest, k), Divisor(s.fair, k));
      assert Dues(s.requests, members, k) == Dues(s.requests, [members[0]], k) + Dues(s.requests, rest, k) by {
        assert [members[0]][1..] == [];
      }
    }
  }

  // ----- in every run -----

  /** Every flow has the weight configured for it. */
  ghost predicate WeightsOk(s: State) {
    forall k :: k in s.fair.flows ==> s.fair.flows[k].weight == KeyWeight(s.cfg, k)
  }

  lemma PushWeights(s: State, s1: State, id: Id, rec: Request)
    requires WeightsOk(s) && s1.cfg == s.cfg && s1.fair == Push(s.cfg, s.fair, id, rec)
    ensures WeightsOk(s1)
  {
    hide KeyWeight;
  }

  lemma {:induction false} ReserveAllWeights(s: State, members: seq<Id>, b: Id)
    requires WeightsOk(s)
    requires forall i :: 0 <= i < |members| ==>
        members[i] in s.requests && FlowKeyOf(s.requests[members[i]].spec) in s.fair.flows
    ensures WeightsOk(ReserveAll(s, members, b))
    decreases |members|
  {
    if members != [] {
      var s1 := ReserveOne(s, members[0], b);
      hide KeyWeight, Remove;
      assert WeightsOk(s1);
      ReserveAllWeights(s1, members[1..], b);
    }
  }

  lemma {:induction false} RecoverWeights(s: State, w: Id, order: seq<Id>, now: Time)
    requires WeightsOk(s)
    ensures WeightsOk(RecoverRequests(s, w, order, now))
    decreases |order|
  {
    if order != [] {
      RecoverOneWeights(s, w, order[0], now);
      hide RecoverOne, WeightsOk;
      RecoverWeights(RecoverOne(s, w, order[0], now), w, order[1..], now);
    }
  }

  lemma RecoverOneWeights(s: State, w: Id, id: Id, now: Time)
    requires WeightsOk(s)
    ensures WeightsOk(RecoverOne(s, w, id, now))
  {
    hide Push, KeyWeight, Fleets.ReleaseMember;
    if id in s.requests && !IsTerminal(s.requests[id].state)
        && CanRetry(s, s.requests[id], now) { RetryWeights(s, id, w, now); }
  }

  lemma RetryWeights(s: State, id: Id, w: Id, now: Time)
    requires WeightsOk(s) && id in s.requests
    ensures WeightsOk(MakeRetry(s, id, w, now))
  {
    RetryShape(s, id, w, now);
    hide MakeRetry, Push, KeyWeight, WeightsOk;
    PushWeights(s, MakeRetry(s, id, w, now), id, MakeRetry(s, id, w, now).requests[id]);
  }

  lemma {:induction false} CancelAllFair(s: State, order: seq<Id>)
    ensures CancelAll(s, order).fair == s.fair && CancelAll(s, order).cfg == s.cfg
    decreases |order|
  {
    if order != [] { CancelAllFair(if order[0] in s.requests then FinishCancelled(s, order[0], NO_ID)
        else s, order[1..]); }
  }

  lemma SubmitWeights(s: State, spec: Spec, pre: Option<Id>, now: Time)
    requires WeightsOk(s)
    ensures WeightsOk(Submit(s, spec, pre, now))
  {
    hide Admission, Push, KeyWeight, Insert;
    if spec.Valid() && Admission(s, spec, now).0 == Admit {
      var s1 := Submit(s, spec, pre, now);
      var id := RequestIdFor(s, pre);
      assert s1.fair == Push(s.cfg, s.fair, id, s1.requests[id]);
      PushWeights(s, s1, id, s1.requests[id]);
    }
  }

  lemma CompleteWeights(s: State, r: Report, now: Time)
    requires WeightsOk(s)
    ensures WeightsOk(Complete(s, r, now))
  {
    hide Push, KeyWeight, Fleets.ReleaseMember, MakeRetry, WeightsOk;
    if Screen(s, r).None? { RetryWeights(s, r.request, r.worker, now); }
    SameWeights(s, Complete(s, r, now));
  }

  lemma SameWeights(s: State, s1: State)
    requires WeightsOk(s)
    ensures s1.fair == s.fair && s1.cfg == s.cfg ==> WeightsOk(s1)
  {
  }

  lemma PickWeights(s: State, now: Time, order: seq<Id>, seed: Option<Id>, s1: State)
    requires WeightsOk(s) && Pick(s, now, order, seed, s1)
    ensures WeightsOk(s1)
  {
    ExpireAllFrame(s, order);
    hide ExpireAll, KeyWeight, PrunedHeap, HasLive, Picked, Runnable, Enumerates;
  }

  lemma FlowsKnown(s: State, ids: seq<Id>)
    requires QueueOk(s) && forall id :: id in ids ==> id in QueuedIds(s.requests)
    ensures forall i :: 0 <= i < |ids| ==> ids[i] in s.requests && FlowKeyOf(s.requests[ids[i]].spec) in s.fair.flows
  {
    forall i | 0 <= i < |ids| ensures ids[i] in s.requests && FlowKeyOf(s.requests[ids[i]].spec) in s.fair.flows {
      assert ids[i] in ids;
      assert HasOneEntry(s.requests, s.fair, ids[i]);
    }
  }

  lemma DispatchReserves(s: State, request: Id, now: Time, out: PlanResult, s1: State)
    requires PlanOn(s, request, now, out, s1)
    ensures !out.Dispatch? ==> s1.fair == s.fair && s1.cfg == s.cfg
    ensures out.Dispatch? ==>
              && out.worker in s.fleet.workers && (forall i :: 0 <= i < |out.members| ==> out.members[i] in s.requests)
              && s1 == ReserveAll(Open(s, out.members, out.worker), out.members, out.batch)
  {
    hide Batching.IsBatch, Batching.Eligible, Batching.BatchUnits, Batching.BatchCost, ReserveAll, Remove;
  }

  lemma PlanWeights(s: State, request: Id, now: Time, order: seq<Id>, out: PlanResult, s1: State)
    requires WeightsOk(s) && RecordsOk(s) && QueueOk(s) && Plan(s, request, now, order, out, s1)
    ensures WeightsOk(s1)
  {
    hide KeyWeight, WeightsOk, QueueOk, RecordsOk, Enumerates, ExpireAll, PlanOn, ReserveAll, Batching.BatchUnits;
    ExpireAllFrame(s, order);
    var s0 := ExpireAll(s, order);
    SameWeights(s, s0);
    DispatchReserves(s0, request, now, out, s1);
    if out.Dispatch? {
      DispatchMembers(s, request, now, order, out, s1);
      SameUnits(s, s0, out.members);
      FlowsKnown(s, out.members);
      SameWeights(s0, Open(s0, out.members, out.worker));
      forall i | 0 <= i < |out.members| ensures s0.requests[out.members[i]] == s.requests[out.members[i]] {
        assert out.members[i] in out.members;
      }
      ReserveAllWeights(Open(s0, out.members, out.worker), out.members, out.batch);
    } else {
      SameWeights(s0, s1);
    }
  }

  lemma StepWeights(s: State, e: Event, s1: State)
    requires WeightsOk(s) && RecordsOk(s) && QueueOk(s) && Step(s, e, s1)
    ensures WeightsOk(s1)
  {
    hide KeyWeight, WeightsOk, QueueOk, RecordsOk, Enumerates, Submit, Plan, Pick, Complete, RecoverRequests, CancelAll,
         FinishCancelled;
    SameWeights(s, s1);
    match e
    case SubmitEvent(spec, pre, now) => SubmitWeights(s, spec, pre, now);
    case PlanEvent(request, now, order, out) => PlanWeights(s, request, now, order, out, s1);
    case PickEvent(now, order, seed) => PickWeights(s, now, order, seed, s1);
    case CompleteEvent(r, now) => CompleteWeights(s, r, now);
    case CancelAllEvent(order) => CancelAllFair(s, order);
    case CancelEvent(id) => CancelFair(s, id);
    case RegisterEvent(reg, now, order) =>
      RecoverWeights(s, reg.worker, order, now);
      SameWeights(RecoverRequests(s, reg.worker, order, now), s1);
      RecoverCfg(s, reg.worker, order, now);
    case UnregisterEvent(w, now, order) =>
      RecoverWeights(s, w, order, now);
      SameWeights(RecoverRequests(s, w, order, now), s1);
      RecoverCfg(s, w, order, now);
    case _ =>
  }

  lemma CancelFair(s: State, id: Id)
    ensures Cancel(s, id).fair == s.fair && Cancel(s, id).cfg == s.cfg
  {
    hide Remove, Fleets.ReleaseMember;
  }

  lemma RecoverCfg(s: State, w: Id, order: seq<Id>, now: Time)
    ensures RecoverRequests(s, w, order, now).cfg == s.cfg
  {
    Admissions.RecoverMode(s, w, order, now);
  }

  lemma {:induction false} RunWeights(tr: Trace, i: nat)
    requires ProtocolRun(tr) && i < |tr.states|
    ensures WeightsOk(tr.states[i])
  {
    hide Step, EnvOk, QueueOk, RecordsOk, HandedOk, HandedOnce, FlightsOk;
    if i > 0 {
      RunWeights(tr, i - 1);
      RunProtocol(tr, i - 1);
      hide WeightsOk, Handed;
      StepWeights(tr.states[i - 1], tr.events[i - 1], tr.states[i]);
    }
  }

  /** What a dispatch adds to the finish time of the flow of its member id: the charges of the flow's members in the
      batch, each its cost and at least one, over the product of the weights configured for tenant (w), latency
      class, priority and phase, as long as that is positive. */
  ghost predicate ChargedByWeights(s: State, s1: State, members: seq<Id>, id: Id, w: real)
    requires id in s.requests && forall n :: 0 <= n < |members| ==> members[n] in s.requests
  {
    var sp := s.requests[id].spec;
    var k := FlowKey(sp.tenant, sp.latency, sp.phase, sp.priority);
    var share := w * s.cfg.latencyWeight[sp.latency] * s.cfg.priorityWeight[sp.priority] * s.cfg.phaseWeight[sp.phase];
    share > 0.0 ==> FlowAt(s1.fair, k).finish == FlowAt(s.fair, k).finish + Dues(s.requests, members, k) / share
  }

  /** What a dispatch adds to the finish time of any flow. */
  lemma PlanFinish(s: State, request: Id, now: Time, order: seq<Id>, out: PlanResult, s1: State, k: FlowKey)
    requires RecordsOk(s) && QueueOk(s) && Plan(s, request, now, order, out, s1) && out.Dispatch?
    ensures forall n :: 0 <= n < |out.members| ==> out.members[n] in QueuedIds(s.requests)
    ensures FlowAt(s1.fair, k).finish == FlowAt(s.fair, k).finish + Dues(s.requests, out.members, k) / Divisor(s.fair,
        k)
  {
    hide QueueOk, RecordsOk, Enumerates, ExpireAll, PlanOn, ReserveAll, Batching.BatchUnits, Dues;
    ExpireAllFrame(s, order);
    var s0 := ExpireAll(s, order);
    DispatchReserves(s0, request, now, out, s1);
    DispatchMembers(s, request, now, order, out, s1);
    SameUnits(s, s0, out.members);
    forall i | 0 <= i < |out.members|
      ensures out.members[i] in QueuedIds(s.requests)
          && s0.requests[out.members[i]].spec == s.requests[out.members[i]].spec
    {
      assert out.members[i] in out.members;
    }
    DuesSame(s.requests, s0.requests, out.members, k);
    ReserveCharges(Open(s0, out.members, out.worker), out.members, out.batch, k);
  }

  lemma PlanCharges(s: State, request: Id, now: Time, order: seq<Id>, out: PlanResult, s1: State, id: Id, w: real)
    requires WeightsOk(s) && RecordsOk(s) && QueueOk(s) && Plan(s, request, now, order, out, s1) && out.Dispatch?
    requires id in out.members && id in s.requests && TenantShare(s.cfg, s.requests[id].spec.tenant, w)
    ensures forall n :: 0 <= n < |out.members| ==> out.members[n] in s.requests
    ensures ChargedByWeights(s, s1, out.members, id, w)
  {
    hide KeyWeight, QueueOk, RecordsOk, Plan, TenantShare, Dues;
    var sp := s.requests[id].spec;
    WeightExact(s.cfg, sp, w);
    PlanFinish(s, request, now, order, out, s1, FlowKeyOf(sp));
    FlowsKnown(s, [id]);
    assert [id][0] == id;
  }

  /** So it is in every run. */
  lemma ChargeExact(tr: Trace, i: nat, id: Id, w: real)
    requires ProtocolRun(tr) && i < |tr.events| && tr.events[i].PlanEvent? && tr.events[i].out.Dispatch?
    requires id in tr.events[i].out.members && id in tr.states[i].requests
    requires TenantShare(tr.states[i].cfg, tr.states[i].requests[id].spec.tenant, w)
    ensures forall n :: 0 <= n < |tr.events[i].out.members| ==> tr.events[i].out.members[n] in tr.states[i].requests
    ensures ChargedByWeights(tr.states[i], tr.states[i + 1], tr.events[i].out.members, id, w)
  {
    hide EnvOk, QueueOk, RecordsOk, HandedOk, HandedOnce, FlightsOk, Plan, WeightsOk, TenantShare, ChargedByWeights;
    RunWeights(tr, i);
    RunProtocol(tr, i);
    hide Handed;
    var e := tr.events[i];
    assert Step(tr.states[i], e, tr.states[i + 1]);
    PlanCharges(tr.states[i], e.request, e.now, e.order, e.out, tr.states[i + 1], id, w);
  }

  lemma Halved(x: real, w: real)
    requires w != 0.0
    ensures x / (2.0 * w) == x / w / 2.0
  {
    var y := x / w;
    assert y * w == x;
    assert (y / 2.0) * (2.0 * w) == x;
  }

  datatype Factor = OfTenant | OfLatency | OfPriority | OfPhase

  /** cfg1 differs from cfg only in that this one of the weights that apply to the request is twice as large. */
  predicate Doubled(cfg: Config, cfg1: Config, spec: Spec, w: real, factor: Factor) {
    match factor
    case OfLatency =>
      cfg1 == cfg.(latencyWeight := cfg.latencyWeight[spec.latency := 2.0 * cfg.latencyWeight[spec.latency]])
    case OfPriority =>
      cfg1 == cfg.(priorityWeight := cfg.priorityWeight[spec.priority := 2.0 * cfg.priorityWeight[spec.priority]])
    case OfPhase =>
      cfg1 == cfg.(phaseWeight := cfg.phaseWeight[spec.phase := 2.0 * cfg.phaseWeight[spec.phase]])
    case OfTenant =>
      && cfg1 == cfg.(tenantWeights := cfg1.tenantWeights, defaultWeight := cfg1.defaultWeight)
      && TenantShare(cfg1, spec.tenant, 2.0 * w)
  }

  /** Doubling one weight that applies to a request doubles the share of its flow and halves every charge. */
  lemma DoublingHalves(cfg: Config, cfg1: Config, spec: Spec, w: real, factor: Factor, charge: real)
    requires TenantShare(cfg, spec.tenant, w) && Doubled(cfg, cfg1, spec, w, factor)
    ensures var k := FlowKeyOf(spec);
            && KeyWeight(cfg1, k) == 2.0 * KeyWeight(cfg, k)
            && (KeyWeight(cfg, k) != 0.0 ==> charge / KeyWeight(cfg1, k) == charge / KeyWeight(cfg, k) / 2.0)
  {
    hide KeyWeight, TenantShare;
    WeightExact(cfg, spec, w);
    Doubles(w, cfg.latencyWeight[spec.latency], cfg.priorityWeight[spec.priority], cfg.phaseWeight[spec.phase]);
    if !factor.OfTenant? { SameShare(cfg, cfg1, spec.tenant, w); }
    WeightExact(cfg1, spec, if factor.OfTenant? then 2.0 * w else w);
    if KeyWeight(cfg, FlowKeyOf(spec)) != 0.0 { Halved(charge, KeyWeight(cfg, FlowKeyOf(spec))); }
  }

  lemma SameShare(cfg: Config, cfg1: Config, t: Id, w: real)
    requires TenantShare(cfg, t, w) && cfg1.tenantWeights == cfg.tenantWeights
        && cfg1.defaultWeight == cfg.defaultWeight
    ensures TenantShare(cfg1, t, w)
  {
  }

  lemma Doubles(a: real, b: real, c: real, d: real)
    ensures (2.0 * a) * b * c * d == 2.0 * (a * b * c * d) && a * (2.0 * b) * c * d == 2.0 * (a * b * c * d)
    ensures a * b * (2.0 * c) * d == 2.0 * (a * b * c * d) && a * b * c * (2.0 * d) == 2.0 * (a * b * c * d)
  {
  }
}