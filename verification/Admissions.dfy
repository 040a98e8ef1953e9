/** What a submission is answered and what it stores, with every test written out. */
module Admissions {
  import opened Types
  import opened ReadyQueue
  import opened Ledgers
  import opened Machine

  // ----- the tests -----

  /** Whole milliseconds until a deadline that lies ahead. */
  function Millis(deadline: Time, now: Time): int { (deadline - now) / 1_000_000 }

  /** An empty list offers everything. */
  predicate Offers<T(==)>(list: seq<T>, x: T) { |list| > 0 ==> x in list }

  /** A worker with this capability can run this request. */
  predicate Suits(cap: Capability, spec: Spec) {
    && cap.total >= 1 && Offers(cap.models, spec.model) && Offers(cap.revisions, spec.revision)
    && Offers(cap.phases, spec.phase) && (spec.adapter.Some? ==> Offers(cap.adapters, spec.adapter.value))
  }

  /** The reason applies to this submission. */
  ghost predicate Applies(s: State, spec: Spec, now: Time, reason: Reason) {
    match reason
    case Ok => false
    case Draining => s.draining
    case DeadlineExpired => spec.deadline.Some? && spec.deadline.value <= now
    case DeadlineInfeasible =>
      && s.cfg.enforceFeasibility && spec.deadline.Some?
      && 1 <= Millis(spec.deadline.value, now) && Millis(spec.deadline.value, now) as real < spec.cost
    case AdmissionSaturated => s.cfg.maxAdmitted <= s.ledger.admitted
    case QueueSaturated => s.cfg.maxQueued <= s.index.size
    case TokensExhausted => 0 < s.cfg.tokenBudget < s.tokens + spec.inputTokens + spec.outputTokens
    case TenantSaturated =>
      spec.tenant in s.ledger.tenants && s.cfg.tenantConcurrency <= s.ledger.tenants[spec.tenant].admitted
    case TenantDepthSaturated =>
      spec.tenant in s.ledger.tenants && s.cfg.tenantQueueDepth <= s.ledger.tenants[spec.tenant].queued
    case NoCompatibleWorker =>
      s.fleet.workers != map[] && forall w :: w in s.fleet.workers ==> !Suits(s.fleet.workers[w].capability, spec)
  }

  /** When a reason is looked for: the lower, the earlier. */
  function Turn(reason: Reason): nat {
    match reason
    case Draining => 1 case DeadlineExpired => 2 case DeadlineInfeasible => 3 case AdmissionSaturated => 4
    case QueueSaturated => 5 case TokensExhausted => 6 case TenantSaturated => 7 case TenantDepthSaturated => 8
    case NoCompatibleWorker => 9 case Ok => 10
  }

  lemma RoundedExceeds(cost: real, n: int)
    requires n >= 1
    ensures CeilCost(cost) > n <==> cost > n as real
  {
    assert Ceil(cost) as real >= cost > Ceil(cost) as real - 1.0;
  }

  lemma SuitsExact(cap: Capability, spec: Spec)
    ensures Batching.Compatible(spec, cap) <==> Suits(cap, spec)
  {
  }

  /** Each test of the admission agrees with the reason it is named after. */
  lemma TestsAgree(s: State, spec: Spec, now: Time)
    ensures spec.Overdue(now) <==> Applies(s, spec, now, DeadlineExpired)
    ensures !spec.Overdue(now) ==>
              (Applies(s, spec, now, DeadlineInfeasible) <==>
                 && s.cfg.enforceFeasibility && spec.deadline.Some?
                 && spec.Slack(now) > 0 && CeilCost(spec.cost) > spec.Slack(now))
    ensures Applies(s, spec, now, NoCompatibleWorker) <==>
              && s.fleet.workers.Keys != {}
              && !exists w :: w in s.fleet.workers && Batching.Compatible(spec, s.fleet.workers[w].capability)
  {
    if spec.deadline.Some? && !spec.Overdue(now) && spec.Slack(now) >= 1 { RoundedExceeds(spec.cost, spec.Slack(now)); }
    assert s.fleet.workers == map[] <==> s.fleet.workers.Keys == {};
    hide Batching.Compatible, Suits, CeilCost;
    forall w | w in s.fleet.workers
      ensures Batching.Compatible(spec, s.fleet.workers[w].capability) <==> Suits(s.fleet.workers[w].capability, spec)
    {
      SuitsExact(s.fleet.workers[w].capability, spec);
    }
  }

  /** The reason given is the first that applies, and none is given exactly when none applies. */
  lemma ReasonExact(s: State, spec: Spec, now: Time, reason: Reason)
    ensures reason != Ok ==>
              (Admission(s, spec, now).1 == reason <==>
                 && Applies(s, spec, now, reason)
                 && forall other :: Turn(other) < Turn(reason) ==> !Applies(s, spec, now, other))
    ensures Admission(s, spec, now).1 == Ok <==> forall other :: !Applies(s, spec, now, other)
  {
    TestsAgree(s, spec, now);
    var given := Admission(s, spec, now).1;
    assert given != Ok ==> Applies(s, spec, now, given);
    forall other | Turn(other) < Turn(given) ensures !Applies(s, spec, now, other) {}
  }

  /** A submission is rejected exactly when the scheduler is draining, the deadline has passed, or infeasible
      deadlines are rejected and this one is: the cost exceeds the whole milliseconds left, and at least one is
      left. It is admitted exactly when nothing speaks against it, and deferred in every other case. */
  lemma DecisionExact(s: State, spec: Spec, now: Time)
    ensures Admission(s, spec, now).0 == Reject <==>
              || s.draining
              || (spec.deadline.Some? && spec.deadline.value <= now)
              || (&& s.cfg.enforceFeasibility && s.cfg.strictRejection && spec.deadline.Some?
                  && 1 <= Millis(spec.deadline.value, now) && Millis(spec.deadline.value, now) as real < spec.cost)
    ensures Admission(s, spec, now).0 == Admit <==> forall reason :: !Applies(s, spec, now, reason)
  {
    TestsAgree(s, spec, now);
    ReasonExact(s, spec, now, Ok);
  }

  /** A scheduler that has just been made, with room for anything at all, admits every submission whose deadline is
      not in the way and whose tokens fit the budget. */
  lemma FreshSchedulerAdmits(cfg: Config, epoch: nat, spec: Spec, now: Time)
    requires cfg.maxAdmitted >= 1 && cfg.maxQueued >= 1 && spec.deadline.None?
    requires cfg.tokenBudget > 0 ==> spec.inputTokens + spec.outputTokens <= cfg.tokenBudget
    ensures Admission(Initial(cfg, epoch), spec, now) == (Admit, Ok)
  {
    hide Admission;
    var s := Initial(cfg, epoch);
    assert forall reason :: !Applies(s, spec, now, reason);
    DecisionExact(s, spec, now);
    ReasonExact(s, spec, now, Ok);
  }

  // ----- what is stored -----

  /** The fields a submission must get right. */
  predicate WellFormed(spec: Spec) {
    && spec.tenant != 0xFFFF_FFFF_FFFF_FFFF && spec.model != 0xFFFF_FFFF_FFFF_FFFF
    && 0 <= spec.inputTokens && 0 <= spec.outputTokens && 0 <= spec.decodedTokens
    && 0.0 <= spec.cost && 0 <= spec.memory && 0 <= spec.maxBatch
  }

  /** Everything but the requests and the identifiers issued is as before. */
  ghost predicate OnlyRequestsChange(s: State, s1: State) {
    s1 == s.(requests := s1.requests, issued := s1.issued)
  }

  /** A malformed submission is an error and changes nothing. A deferred one stores no record. A rejected one stores
      exactly one, terminal and without an attempt, unless its identifier is taken. */
  lemma RefusedExact(s: State, spec: Spec, pre: Option<Id>, now: Time)
    ensures SubmitAnswer(s, spec, pre, now) == SubmitError(InvalidArgument) <==> !WellFormed(spec)
    ensures SubmitAnswer(s, spec, pre, now).SubmitError? ==> Submit(s, spec, pre, now) == s
    ensures WellFormed(spec) && Admission(s, spec, now).0 == Defer ==>
              && OnlyRequestsChange(s, Submit(s, spec, pre, now)) && Submit(s, spec, pre, now).requests == s.requests
              && Submit(s, spec, pre, now).issued == s.issued + (if pre.Some? then 0 else 1)
    ensures WellFormed(spec) && Admission(s, spec, now).0 == Reject ==>
              var s1 := Submit(s, spec, pre, now);
              var id := if pre.Some? then pre.value else IdAt(s.cfg, s.issued + 1);
              && OnlyRequestsChange(s, s1) && s1.requests.Keys == s.requests.Keys + {id}
              && (forall i :: i in s.requests ==> s1.requests[i] == s.requests[i])
              && s1.issued == s.issued + (if pre.Some? then 1 else 2)
              && (id !in s.requests ==>
                    && s1.requests[id].generation == IdAt(s.cfg, s1.issued)
                    && s1.requests[id].state == RequestState.Rejected && s1.requests[id].history == []
                    && s1.requests[id].spec == spec && s1.requests[id].batch == None)
    ensures WellFormed(spec) && Admission(s, spec, now).0 != Admit ==>
              SubmitAnswer(s, spec, pre, now) ==
              Submitted(SubmitOutput(Admission(s, spec, now).0, Admission(s, spec, now).1, NO_ID, NO_ID, NO_ID))
  {
    hide Admission;
  }

  /** An admitted submission under a free identifier stores one record, queued now with its first attempt. The
      answer names that record, its attempt and its generation, so a worker that reports with them is believed: its
      success is accepted and completes the request. */
  lemma AdmittedExact(s: State, spec: Spec, pre: Option<Id>, now: Time, r: Report)
    requires WellFormed(spec) && Admission(s, spec, now).0 == Admit
    requires (if pre.Some? then pre.value else IdAt(s.cfg, s.issued + 1)) !in s.requests
    ensures SubmitAnswer(s, spec, pre, now).Submitted?
    ensures var out, s1 := SubmitAnswer(s, spec, pre, now).out, Submit(s, spec, pre, now);
            && out.decision == Admit && out.reason == Ok
            && out.id == (if pre.Some? then pre.value else IdAt(s.cfg, s.issued + 1))
            && s1.requests.Keys == s.requests.Keys + {out.id}
            && (forall i :: i in s.requests ==> s1.requests[i] == s.requests[i])
            && var rec := s1.requests[out.id];
            && rec.spec == spec && rec.state == RequestState.Queued && rec.queuedAt == now && rec.batch == None
            && !rec.cancelRequested && !rec.cancelCommitted
            && rec.history == [Attempt(out.attempt, out.generation, AttemptCreated, NO_ID)]
            && s1.issued == s.issued + (if pre.Some? then 2 else 3)
            && out.attempt == IdAt(s.cfg, s1.issued) && out.generation == IdAt(s.cfg, s1.issued - 1)
    ensures var out, s1 := SubmitAnswer(s, spec, pre, now).out, Submit(s, spec, pre, now);
            && r.request == out.id && r.attempt == out.attempt && r.generation == out.generation
            && r.epoch == s.epoch && r.worker in s.fleet.workers && r.boot == s.fleet.workers[r.worker].boot
            && r.status == Succeeded ==>
              CompleteAnswer(s1, r) == Accepted && Complete(s1, r, now).requests[out.id].state == RequestState.Completed
  {
    assert spec.Valid();
    assert Admission(s, spec, now).1 == Ok;
    hide Admission, Insert, Push, NoteQueued, NoteAdmitted, Fleets.ReleaseMember, NoteRetired;
    SubmitShape(s, spec, pre, now);
  }

  // ----- draining -----

  ghost predicate SameMode(s: State, s1: State) {
    s1.cfg == s.cfg && s1.tokens == s.tokens && s1.draining == s.draining && s1.epoch == s.epoch
  }

  lemma {:induction false} ExpireAllMode(s: State, order: seq<Id>)
    ensures SameMode(s, ExpireAll(s, order))
    decreases |order|
  {
    if order != [] { ExpireAllMode(if order[0] in s.requests then Expire(s, order[0]) else s, order[1..]); }
  }

  lemma {:induction false} ReserveAllMode(s: State, members: seq<Id>, b: Id)
    ensures SameMode(s, ReserveAll(s, members, b))
    decreases |members|
  {
    if members != [] {
      ReserveAllMode(if members[0] in s.requests then ReserveOne(s, members[0], b) else s, members[1..], b);
    }
  }

  lemma {:induction false} CancelAllMode(s: State, order: seq<Id>)
    ensures SameMode(s, CancelAll(s, order))
    decreases |order|
  {
    if order != [] { CancelAllMode(if order[0] in s.requests then FinishCancelled(s, order[0], NO_ID)
        else s, order[1..]); }
  }

  lemma {:induction false} RecoverMode(s: State, w: Id, order: seq<Id>, now: Time)
    ensures SameMode(s, RecoverRequests(s, w, order, now))
    decreases |order|
  {
    if order != [] { RecoverMode(RecoverOne(s, w, order[0], now), w, order[1..], now); }
  }

  lemma PlanMode(s: State, request: Id, now: Time, order: seq<Id>, out: PlanResult, s1: State)
    requires Plan(s, request, now, order, out, s1)
    ensures SameMode(s, s1)
  {
    ExpireAllMode(s, order);
    var s0 := ExpireAll(s, order);
    hide ExpireAll, Batching.IsBatch, Batching.Eligible, Batching.BatchUnits, Batching.BatchCost, ReserveAll;
    if out.Dispatch? {
      var members, w :| PlanBatch(s0, request, now, members, w, out, s1);
      ReserveAllMode(Open(s0, members, w), members, Fresh(s0, 1));
    }
  }

  /** Draining begins with its own step and never ends; the epoch moves only when it is rolled over. */
  lemma StepMode(s: State, e: Event, s1: State)
    requires Step(s, e, s1)
    ensures s1.draining == (s.draining || e.DrainEvent?) && s1.epoch == s.epoch + (if e.EpochEvent? then 1 else 0)
    ensures s1.cfg == s.cfg && s1.tokens == s.tokens
  {
    hide Admission, Plan, Finish, FinishCancelled, MakeRetry, ExpireAll, CancelAll, RecoverRequests;
    match e
    case PlanEvent(request, now, order, out) => PlanMode(s, request, now, order, out, s1);
    case PickEvent(now, order, seed) => ExpireAllMode(s, order);
    case CancelAllEvent(order) => CancelAllMode(s, order);
    case RegisterEvent(reg, now, order) => RecoverMode(s, reg.worker, order, now);
    case UnregisterEvent(w, now, order) => RecoverMode(s, w, order, now);
    case CompleteEvent(r, now) => CompleteMode(s, r, now);
    case CancelEvent(id) => CancelMode(s, id);
    case _ =>
  }

  lemma CompleteMode(s: State, r: Report, now: Time)
    ensures SameMode(s, Complete(s, r, now))
  {
    hide Fleets.ReleaseMember, Insert, Remove, Push, WithLast, Retryable, CanRetry, Screen;
  }

  lemma CancelMode(s: State, id: Id)
    ensures SameMode(s, Cancel(s, id))
  {
    hide Fleets.ReleaseMember, Remove, WithLast;
  }

  /** Once a run has begun to drain, every well-formed submission is rejected for that reason. */
  lemma DrainIsFinal(tr: Trace, i: nat, j: nat, spec: Spec, pre: Option<Id>, now: Time)
    requires IsRun(tr) && i <= j < |tr.states| && tr.states[i].draining && WellFormed(spec)
    ensures SubmitAnswer(tr.states[j], spec, pre, now) == Submitted(SubmitOutput(Reject, Draining, NO_ID, NO_ID, NO_ID))
  {
    StaysDraining(tr, i, j);
    DecisionExact(tr.states[j], spec, now);
    ReasonExact(tr.states[j], spec, now, Draining);
    hide Admission, Step;
  }

  lemma {:induction false} StaysDraining(tr: Trace, i: nat, j: nat)
    requires IsRun(tr) && i <= j < |tr.states| && tr.states[i].draining
    ensures tr.states[j].draining
    decreases j
  {
    hide Step;
    if i < j {
      StaysDraining(tr, i, j - 1);
      StepMode(tr.states[j - 1], tr.events[j - 1], tr.states[j]);
    }
  }
}
