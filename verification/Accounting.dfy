/** Admission accounting over whole runs: what the admitted and queued counters
    say about the requests, and what that means for the limits. */
module Accounting {
  import opened Types
  import opened Collections
  import opened ReadyQueue
  import opened Ledgers
  import opened Machine
  import Admissions
  import opened Lifecycle
  import opened Protocol

  // ----- the admitted counters -----

  ghost predicate WithinCaps(s: State) {
    && s.ledger.admitted <= Max(0, s.cfg.maxAdmitted)
    && forall t :: TenantAt(s.ledger, t).admitted <= Max(1, s.cfg.tenantConcurrency)
  }

  ghost predicate AdmissionOk(s: State) {
    AdmittedExact(s.requests, s.ledger) && WithinCaps(s)
  }

  ghost predicate SameAdmitted(l: Ledger, l1: Ledger) {
    l1.admitted == l.admitted && forall t :: TenantAt(l1, t).admitted == TenantAt(l, t).admitted
  }

  /** A record changed without opening or closing a request. */
  lemma AdmissionKept(s: State, s1: State, id: Id, rec: Request)
    requires AdmissionOk(s) && s1.cfg == s.cfg && s1.requests == s.requests[id := rec]
        && SameAdmitted(s.ledger, s1.ledger)
    requires if id in s.requests then IsTerminal(s.requests[id].state) == IsTerminal(rec.state)
        && rec.spec == s.requests[id].spec
             else IsTerminal(rec.state)
    ensures AdmissionOk(s1)
  {
    forall t ensures TenantAt(s1.ledger, t).admitted == |OpenOf(s1.requests, t)| &&
        TenantAt(s1.ledger, t).admitted <= Max(1, s.cfg.tenantConcurrency) {
      OpenStays(s.requests, id, rec, t);
      assert TenantAt(s1.ledger, t).admitted == TenantAt(s.ledger, t).admitted;
    }
    OpenStays(s.requests, id, rec, 0);
  }

  lemma AdmissionSame(s: State, s1: State)
    requires AdmissionOk(s) && s1.cfg == s.cfg && s1.requests == s.requests && SameAdmitted(s.ledger, s1.ledger)
    ensures AdmissionOk(s1)
  {
    forall t ensures TenantAt(s1.ledger, t).admitted == TenantAt(s.ledger, t).admitted {}
  }

  /** An open request was closed; neither guard against negative counters was needed. */
  lemma AdmissionClosed(s: State, s1: State, id: Id, rec: Request, l: Ledger)
    requires AdmissionOk(s) && s1.cfg == s.cfg && s1.requests == s.requests[id := rec]
    requires id in s.requests && !IsTerminal(s.requests[id].state) && IsTerminal(rec.state)
        && rec.spec == s.requests[id].spec
    requires SameAdmitted(s.ledger, l) && s1.ledger == NoteRetired(l, rec.spec.tenant)
    ensures AdmissionOk(s1)
    ensures s.ledger.admitted > 0 && TenantAt(s.ledger, rec.spec.tenant).admitted > 0
  {
    assert AdmittedExact(s.requests, l) by {
      forall t ensures TenantAt(l, t).admitted == |OpenOf(s.requests, t)| {
        assert TenantAt(l, t).admitted == TenantAt(s.ledger, t).admitted;
      }
    }
    RetireKeepsExact(s.requests, l, id, rec);
    forall t ensures TenantAt(s1.ledger, t).admitted <= Max(1, s.cfg.tenantConcurrency) {
      assert TenantAt(s1.ledger, t).admitted <= TenantAt(l, t).admitted == TenantAt(s.ledger, t).admitted;
    }
  }

  lemma DequeuedSame(l: Ledger, t: Id)
    ensures SameAdmitted(l, NoteDequeued(l, t))
  {
  }

  lemma QueuedSame(l: Ledger, t: Id)
    ensures SameAdmitted(l, NoteQueued(l, t))
  {
  }

  lemma ExpireAdmission(s: State, id: Id)
    requires AdmissionOk(s) && id in s.requests
    ensures AdmissionOk(Expire(s, id))
  {
    var rec := s.requests[id];
    if rec.state == RequestState.Queued {
      DequeuedSame(s.ledger, rec.spec.tenant);
      AdmissionClosed(s, Expire(s, id), id, Expire(s, id).requests[id], NoteDequeued(s.ledger, rec.spec.tenant));
    }
  }

  lemma {:induction false} ExpireAllAdmission(s: State, order: seq<Id>)
    requires AdmissionOk(s)
    ensures AdmissionOk(ExpireAll(s, order))
    decreases |order|
  {
    if order != [] {
      if order[0] in s.requests { ExpireAdmission(s, order[0]); }
      ExpireAllAdmission(if order[0] in s.requests then Expire(s, order[0]) else s, order[1..]);
    }
  }

  lemma ReserveOneAdmission(s: State, id: Id, b: Id)
    requires AdmissionOk(s) && id in s.requests && s.requests[id].state == RequestState.Queued
    ensures AdmissionOk(ReserveOne(s, id, b))
  {
    DequeuedSame(s.ledger, s.requests[id].spec.tenant);
    AdmissionKept(s, ReserveOne(s, id, b), id, ReserveOne(s, id, b).requests[id]);
  }

  lemma {:induction false} ReserveAllAdmission(s: State, members: seq<Id>, b: Id)
    requires AdmissionOk(s) && Distinct(members)
    requires forall i :: 0 <= i < |members| ==>
        members[i] in s.requests && s.requests[members[i]].state == RequestState.Queued
    ensures AdmissionOk(ReserveAll(s, members, b))
    decreases |members|
  {
    if members != [] {
      ReserveOneAdmission(s, members[0], b);
      ReserveAllAdmission(ReserveOne(s, members[0], b), members[1..], b);
    }
  }

  lemma FinishAdmission(s: State, id: Id, w: Id, st: RequestState, a: AttemptState)
    requires AdmissionOk(s) && id in s.requests && !IsTerminal(s.requests[id].state) && IsTerminal(st)
    ensures AdmissionOk(Finish(s, id, w, st, a))
  {
    AdmissionClosed(s, Finish(s, id, w, st, a), id, Finish(s, id, w, st, a).requests[id], s.ledger);
  }

  lemma FinishCancelledAdmission(s: State, id: Id, w: Id)
    requires AdmissionOk(s) && id in s.requests
    ensures AdmissionOk(FinishCancelled(s, id, w))
  {
    var rec := s.requests[id];
    if !IsTerminal(rec.state) {
      DequeuedSame(s.ledger, rec.spec.tenant);
      AdmissionClosed(s, FinishCancelled(s, id, w), id, FinishCancelled(s, id, w).requests[id],
                      NoteDequeued(s.ledger, rec.spec.tenant));
    }
  }

  lemma {:induction false} CancelAllAdmission(s: State, order: seq<Id>)
    requires AdmissionOk(s)
    ensures AdmissionOk(CancelAll(s, order))
    decreases |order|
  {
    if order != [] {
      if order[0] in s.requests { FinishCancelledAdmission(s, order[0], NO_ID); }
      CancelAllAdmission(if order[0] in s.requests then FinishCancelled(s, order[0], NO_ID) else s, order[1..]);
    }
  }

  lemma MakeRetryAdmission(s: State, id: Id, w: Id, now: Time)
    requires AdmissionOk(s) && id in s.requests && !IsTerminal(s.requests[id].state)
    ensures AdmissionOk(MakeRetry(s, id, w, now))
  {
    RetryShape(s, id, w, now);
    QueuedSame(s.ledger, s.requests[id].spec.tenant);
    AdmissionKept(s, MakeRetry(s, id, w, now), id, MakeRetry(s, id, w, now).requests[id]);
  }

  lemma {:induction false} RecoverAdmission(s: State, w: Id, order: seq<Id>, now: Time)
    requires AdmissionOk(s)
    ensures AdmissionOk(RecoverRequests(s, w, order, now))
    decreases |order|
  {
    if order != [] {
      if order[0] in s.requests && !IsTerminal(s.requests[order[0]].state) {
        MakeRetryAdmission(s, order[0], w, now);
        FinishAdmission(s, order[0], w, RequestState.Failed, AttemptFailed);
      }
      RecoverAdmission(RecoverOne(s, w, order[0], now), w, order[1..], now);
    }
  }

  lemma CompleteAdmission(s: State, r: Report, now: Time)
    requires AdmissionOk(s)
    ensures AdmissionOk(Complete(s, r, now))
  {
    if Screen(s, r).None? {
      if r.status == Stale {
        AdmissionKept(s, Complete(s, r, now), r.request, Complete(s, r, now).requests[r.request]);
      } else if r.status == CancelledStatus || (r.status == Succeeded && s.requests[r.request].cancelRequested) {
        FinishCancelledAdmission(s, r.request, r.worker);
      } else if r.status == Succeeded {
        FinishAdmission(s, r.request, r.worker, RequestState.Completed, AttemptSucceeded);
      } else if r.status == ExpiredStatus {
        FinishAdmission(s, r.request, r.worker, RequestState.Expired, AttemptExpired);
      } else if Retryable(s.cfg, r.failure) && CanRetry(s, s.requests[r.request], now) {
        MakeRetryAdmission(s, r.request, r.worker, now);
      } else {
        FinishAdmission(s, r.request, r.worker, RequestState.Failed, AttemptFailed);
      }
    }
  }

  lemma CancelAdmission(s: State, id: Id)
    requires AdmissionOk(s)
    ensures AdmissionOk(Cancel(s, id))
  {
    if CancelAnswer(s, id) == CancelAccepted {
      var rec := s.requests[id];
      if rec.state == RequestState.Dispatched || rec.state == RequestState.Running {
        AdmissionKept(s, Cancel(s, id), id, Cancel(s, id).requests[id]);
      } else if rec.state == RequestState.Reserved {
        FinishCancelledAdmission(s, id, LastWorker(rec.history));
      } else {
        FinishCancelledAdmission(s, id, NO_ID);
      }
    }
  }

  lemma SubmitAdmission(s: State, spec: Spec, pre: Option<Id>, now: Time)
    requires AdmissionOk(s) && FreshId(s, SubmitEvent(spec, pre, now))
    ensures AdmissionOk(Submit(s, spec, pre, now))
  {
    var s1 := Submit(s, spec, pre, now);
    var id, n := RequestIdFor(s, pre), IdsTaken(pre);
    if !spec.Valid() || Admission(s, spec, now).0 == Defer {
      AdmissionSame(s, s1);
    } else if Admission(s, spec, now).0 == Reject {
      AdmissionKept(s, s1, id, RejectedRecord(spec, Fresh(s, n + 1), now));
    } else {
      SubmitShape(s, spec, pre, now);
      AdmissionOpened(s, s1, id, FirstRecord(spec, Fresh(s, n + 2), Fresh(s, n + 1), now));
    }
  }

  lemma AdmissionOpened(s: State, s1: State, id: Id, rec: Request)
    requires AdmissionOk(s) && s1.cfg == s.cfg && id !in s.requests && s1.requests == s.requests[id := rec]
    requires !IsTerminal(rec.state) && s1.ledger == NoteAdmitted(NoteQueued(s.ledger, rec.spec.tenant), rec.spec.tenant)
    requires s.ledger.admitted < s.cfg.maxAdmitted
    requires rec.spec.tenant in s.ledger.tenants ==>
        s.ledger.tenants[rec.spec.tenant].admitted < s.cfg.tenantConcurrency
    ensures AdmissionOk(s1)
  {
    var l := NoteQueued(s.ledger, rec.spec.tenant);
    assert AdmittedExact(s.requests, l);
    AdmitKeepsExact(s.requests, l, id, rec);
    forall t ensures TenantAt(s1.ledger, t).admitted <= Max(1, s.cfg.tenantConcurrency) {
      assert TenantAt(s.ledger, t).admitted <= Max(1, s.cfg.tenantConcurrency);
    }
  }

  lemma PlanAdmission(s: State, request: Id, now: Time, order: seq<Id>, out: PlanResult, s1: State)
    requires RecordsOk(s) && AdmissionOk(s) && Plan(s, request, now, order, out, s1)
    ensures AdmissionOk(s1)
  {
    var s0 := ExpireAll(s, order);
    ExpireAllAdmission(s, order);
    ExpireAllProgress(s, order);
    if request in s0.requests && s0.requests[request].spec.Overdue(now) {
      ExpireAdmission(s0, request);
    } else if out.Dispatch? {
      assert RecordOk(s0.cfg, s0.issued, s0.requests[request]);
      var members, w :| PlanBatch(s0, request, now, members, w, out, s1);
      MembersQueued(s0, request, now, members);
      AdmissionSame(s0, Open(s0, members, w));
      ReserveAllAdmission(Open(s0, members, w), members, Fresh(s0, 1));
    }
  }

  lemma PickAdmission(s: State, now: Time, order: seq<Id>, seed: Option<Id>, s1: State)
    requires AdmissionOk(s) && Pick(s, now, order, seed, s1)
    ensures AdmissionOk(s1)
  {
    ExpireAllAdmission(s, order);
    AdmissionSame(ExpireAll(s, order), s1);
  }

  lemma ConfirmAdmission(s: State, r: Report)
    requires AdmissionOk(s)
    ensures AdmissionOk(Confirm(s, r))
  {
    if ConfirmAnswer(s, r) == Confirmed {
      AdmissionKept(s, Confirm(s, r), r.request, Confirm(s, r).requests[r.request]);
    }
  }

  lemma RegisterAdmission(s: State, reg: Registration, now: Time, order: seq<Id>)
    requires AdmissionOk(s)
    ensures AdmissionOk(Register(s, reg, now, order))
  {
    RecoverAdmission(s, reg.worker, order, now);
    hide RecoverRequests;
    AdmissionSame(if IsRestart(s, reg) then RecoverRequests(s, reg.worker, order, now)
        else s, Register(s, reg, now, order));
  }

  lemma UnregisterAdmission(s: State, w: Id, now: Time, order: seq<Id>)
    requires AdmissionOk(s)
    ensures AdmissionOk(Unregister(s, w, now, order))
  {
    RecoverAdmission(s, w, order, now);
    hide RecoverRequests;
    AdmissionSame(if w in s.fleet.workers then RecoverRequests(s, w, order, now) else s, Unregister(s, w, now, order));
  }

  lemma StepAdmission(s: State, e: Event, s1: State)
    requires RecordsOk(s) && AdmissionOk(s) && Step(s, e, s1) && FreshId(s, e)
    ensures AdmissionOk(s1)
  {
    hide Submit, Plan, Pick, Confirm, Complete, Cancel, CancelAll, Register, Unregister, RecordsOk, AdmissionOk,
         FreshId;
    match e
    case SubmitEvent(spec, pre, now) => SubmitAdmission(s, spec, pre, now);
    case PickEvent(now, order, seed) => PickAdmission(s, now, order, seed, s1);
    case PlanEvent(request, now, order, out) => PlanAdmission(s, request, now, order, out, s1);
    case ConfirmEvent(r) => ConfirmAdmission(s, r);
    case CompleteEvent(r, now) => CompleteAdmission(s, r, now);
    case CancelEvent(id) => CancelAdmission(s, id);
    case CancelAllEvent(order) => CancelAllAdmission(s, order);
    case RegisterEvent(reg, now, order) => RegisterAdmission(s, reg, now, order);
    case UnregisterEvent(w, now, order) => UnregisterAdmission(s, w, now, order);
    case _ => AdmissionSame(s, s1);
  }

  lemma {:induction false} RunAdmission(tr: Trace, i: nat)
    requires IsRun(tr) && FreshIds(tr) && i < |tr.states|
    ensures AdmissionOk(tr.states[i])
  {
    hide Step, FreshId, RecordsOk;
    if i > 0 {
      RunAdmission(tr, i - 1);
      RunRecordsOk(tr, i - 1);
      StepAdmission(tr.states[i - 1], tr.events[i - 1], tr.states[i]);
    } else {
      assert OpenIds(tr.states[0].requests) == {};
      forall t ensures OpenOf(tr.states[0].requests, t) == {} {}
    }
  }

  /** In every run with fresh identifiers, whatever workers report and however often they
      restart, the admitted counters are the numbers of open requests, globally and per
      tenant, and stay within their limits. */
  lemma AdmittedCountsOpenRequests(tr: Trace, i: nat, t: Id)
    requires IsRun(tr) && FreshIds(tr) && i < |tr.states|
    ensures var s := tr.states[i];
            && s.ledger.admitted == |OpenIds(s.requests)| <= Max(0, s.cfg.maxAdmitted)
            && TenantAt(s.ledger, t).admitted == |OpenOf(s.requests, t)| <= Max(1, s.cfg.tenantConcurrency)
  {
    RunAdmission(tr, i);
  }

  /** Under the protocol the queue never holds more than the global admission limit, although
      retries do not pass admission. */
  lemma QueueWithinAdmissionCap(tr: Trace, i: nat)
    requires ProtocolRun(tr) && i < |tr.states|
    ensures tr.states[i].index.size <= Max(0, tr.states[i].cfg.maxAdmitted)
  {
    var s := tr.states[i];
    assert FreshIds(tr) by {
      forall k | 0 <= k < |tr.events| ensures FreshId(tr.states[k], tr.events[k]) {
        assert EnvOk(tr.states[k], tr.events[k], Handed(tr, k));
      }
    }
    RunAdmission(tr, i);
    QueueIsSafe(tr, i);
    assert QueuedIds(s.requests) <= OpenIds(s.requests);
    SubsetSize(QueuedIds(s.requests), OpenIds(s.requests));
  }

  // ----- what a submission can do -----

  /** A request is admitted exactly when the scheduler is not draining, the deadline lies ahead and
      leaves room for the cost where that is enforced, every limit has room for one more, and some
      registered worker could run it, if any is registered. */
  lemma AdmitsExactly(s: State, spec: Spec, now: Time)
    ensures Admission(s, spec, now).0 == Admit <==>
              && !s.draining
              && (spec.deadline.Some? ==>
                    && now < spec.deadline.value
                    && (s.cfg.enforceFeasibility && spec.deadline.value - now >= 1_000_000 ==>
                          spec.cost <= ((spec.deadline.value - now) / 1_000_000) as real))
              && s.ledger.admitted < s.cfg.maxAdmitted && s.index.size < s.cfg.maxQueued
              && (s.cfg.tokenBudget > 0 ==> s.tokens + spec.inputTokens + spec.outputTokens <= s.cfg.tokenBudget)
              && (spec.tenant in s.ledger.tenants ==>
                    && s.ledger.tenants[spec.tenant].admitted < s.cfg.tenantConcurrency
                    && s.ledger.tenants[spec.tenant].queued < s.cfg.tenantQueueDepth)
              && (s.fleet.workers != map[] ==>
                    exists w :: w in s.fleet.workers && (
                      var cap := s.fleet.workers[w].capability;
                      && cap.total > 0
                      && (cap.models == [] || spec.model in cap.models)
                      && (cap.revisions == [] || spec.revision in cap.revisions)
                      && (cap.phases == [] || spec.phase in cap.phases)
                      && (spec.adapter.None? || cap.adapters == [] || spec.adapter.value in cap.adapters)))
  {
    if spec.deadline.Some? && spec.Slack(now) >= 1 { Admissions.RoundedExceeds(spec.cost, spec.Slack(now)); }
    hide CeilCost;
    assert s.fleet.workers == map[] <==> s.fleet.workers.Keys == {};
  }

  /** A submission that is not admitted leaves the queue, the counters and every known request alone. */
  lemma RefusalChangesNothing(s: State, spec: Spec, pre: Option<Id>, now: Time)
    requires !(spec.Valid() && Admission(s, spec, now).0 == Admit)
    ensures var s1 := Submit(s, spec, pre, now);
            && s1.index == s.index && s1.fair == s.fair && s1.ledger == s.ledger && s1.fleet == s.fleet
            && (forall id :: id in s.requests ==> id in s1.requests && s1.requests[id] == s.requests[id])
            && (forall id :: id in s1.requests && id !in s.requests ==>
                  Admission(s, spec, now).0 == Reject && IsTerminal(s1.requests[id].state))
  {
    hide Admission;
  }

  // ----- the tenants' queued counters -----

  /** Never above the true number of queued requests; equal to it when exact. */
  ghost predicate QueuedRight(rs: map<Id, Request>, l: Ledger, exact: bool) {
    forall t :: 0 <= TenantAt(l, t).queued <= |QueuedOf(rs, t)| && (exact ==>
        TenantAt(l, t).queued == |QueuedOf(rs, t)|)
  }

  ghost predicate SameQueuedCounts(l: Ledger, l1: Ledger) {
    forall t :: TenantAt(l1, t).queued == TenantAt(l, t).queued
  }

  lemma CountJoins(rs: map<Id, Request>, l: Ledger, exact: bool, id: Id, rec: Request, l1: Ledger)
    requires QueuedRight(rs, l, exact) && rec.state == RequestState.Queued
    requires id in rs ==> rs[id].state != RequestState.Queued
    requires SameQueuedCounts(NoteQueued(l, rec.spec.tenant), l1)
    ensures QueuedRight(rs[id := rec], l1, exact)
  {
    forall t ensures 0 <= TenantAt(l1, t).queued <= |QueuedOf(rs[id := rec], t)| &&
        (exact ==> TenantAt(l1, t).queued == |QueuedOf(rs[id := rec], t)|) {
      QueuedJoins(rs, id, rec, t);
      assert TenantAt(l1, t).queued == TenantAt(NoteQueued(l, rec.spec.tenant), t).queued;
    }
  }

  lemma CountLeaves(rs: map<Id, Request>, l: Ledger, exact: bool, id: Id, rec: Request, l1: Ledger)
    requires QueuedRight(rs, l, exact) && id in rs && rs[id].state == RequestState.Queued
    requires rec.state != RequestState.Queued && rec.spec == rs[id].spec
    requires SameQueuedCounts(NoteDequeued(l, rec.spec.tenant), l1)
    ensures QueuedRight(rs[id := rec], l1, exact)
  {
    assert id in QueuedOf(rs, rec.spec.tenant);
    forall t ensures 0 <= TenantAt(l1, t).queued <= |QueuedOf(rs[id := rec], t)| &&
        (exact ==> TenantAt(l1, t).queued == |QueuedOf(rs[id := rec], t)|) {
      QueuedLeaves(rs, id, rec, t);
      assert TenantAt(l1, t).queued == TenantAt(NoteDequeued(l, rec.spec.tenant), t).queued;
    }
  }

  lemma CountStays(rs: map<Id, Request>, l: Ledger, exact: bool, id: Id, rec: Request, l1: Ledger)
    requires QueuedRight(rs, l, exact) && rec.state != RequestState.Queued && SameQueuedCounts(l, l1)
    requires id in rs ==> rs[id].state != RequestState.Queued
    ensures QueuedRight(rs[id := rec], l1, exact)
  {
    forall t ensures 0 <= TenantAt(l1, t).queued <= |QueuedOf(rs[id := rec], t)| &&
        (exact ==> TenantAt(l1, t).queued == |QueuedOf(rs[id := rec], t)|) {
      QueuedStays(rs, id, rec, t);
    }
  }

  /** Dequeuing a request that was not queued: the count stays an underestimate, and it stays
      exact only if it was already zero. */
  lemma CountSlips(rs: map<Id, Request>, l: Ledger, exact: bool, id: Id, rec: Request, l1: Ledger)
    requires QueuedRight(rs, l, exact) && id in rs && rs[id].state != RequestState.Queued
    requires rec.state != RequestState.Queued && SameQueuedCounts(NoteDequeued(l, rec.spec.tenant), l1)
    ensures QueuedRight(rs[id := rec], l1, false)
    ensures exact ==> (QueuedRight(rs[id := rec], l1, true) <==> TenantAt(l, rec.spec.tenant).queued == 0)
  {
    forall t ensures QueuedOf(rs[id := rec], t) == QueuedOf(rs, t) &&
        TenantAt(l1, t).queued == TenantAt(NoteDequeued(l, rec.spec.tenant), t).queued {
      QueuedStays(rs, id, rec, t);
    }
    assert TenantAt(l1, rec.spec.tenant).queued == TenantAt(NoteDequeued(l, rec.spec.tenant), rec.spec.tenant).queued;
  }

  lemma RetiredSame(l: Ledger, t: Id)
    ensures SameQueuedCounts(l, NoteRetired(l, t))
  {
  }

  ghost predicate TenantsRight(s: State, exact: bool) { QueuedRight(s.requests, s.ledger, exact) }

  lemma ExpireTenants(s: State, id: Id, exact: bool)
    requires TenantsRight(s, exact) && id in s.requests
    ensures TenantsRight(Expire(s, id), exact)
  {
    var rec := s.requests[id];
    if rec.state == RequestState.Queued {
      RetiredSame(NoteDequeued(s.ledger, rec.spec.tenant), rec.spec.tenant);
      CountLeaves(s.requests, s.ledger, exact, id, Expire(s, id).requests[id], Expire(s, id).ledger);
    }
  }

  lemma {:induction false} ExpireAllTenants(s: State, order: seq<Id>, exact: bool)
    requires TenantsRight(s, exact)
    ensures TenantsRight(ExpireAll(s, order), exact)
    decreases |order|
  {
    if order != [] {
      if order[0] in s.requests { ExpireTenants(s, order[0], exact); }
      ExpireAllTenants(if order[0] in s.requests then Expire(s, order[0]) else s, order[1..], exact);
    }
  }

  lemma {:induction false} ReserveAllTenants(s: State, members: seq<Id>, b: Id, exact: bool)
    requires TenantsRight(s, exact) && Distinct(members)
    requires forall i :: 0 <= i < |members| ==>
        members[i] in s.requests && s.requests[members[i]].state == RequestState.Queued
    ensures TenantsRight(ReserveAll(s, members, b), exact)
    decreases |members|
  {
    if members != [] {
      var s1 := ReserveOne(s, members[0], b);
      CountLeaves(s.requests, s.ledger, exact, members[0], s1.requests[members[0]], s1.ledger);
      ReserveAllTenants(s1, members[1..], b, exact);
    }
  }

  lemma FinishTenants(s: State, id: Id, w: Id, st: RequestState, a: AttemptState, exact: bool)
    requires TenantsRight(s, exact) && id in s.requests && s.requests[id].state != RequestState.Queued && IsTerminal(st)
    ensures TenantsRight(Finish(s, id, w, st, a), exact)
  {
    RetiredSame(s.ledger, s.requests[id].spec.tenant);
    CountStays(s.requests, s.ledger, exact, id, Finish(s, id, w, st, a).requests[id], Finish(s, id, w, st, a).ledger);
  }

  lemma MakeRetryTenants(s: State, id: Id, w: Id, now: Time, exact: bool)
    requires TenantsRight(s, exact) && id in s.requests && s.requests[id].state != RequestState.Queued
    ensures TenantsRight(MakeRetry(s, id, w, now), exact)
  {
    RetryShape(s, id, w, now);
    CountJoins(s.requests, s.ledger, exact, id, MakeRetry(s, id, w, now).requests[id], MakeRetry(s, id, w, now).ledger);
  }

  /** Cancelling a queued request keeps the counts; cancelling a held one lets its tenant's count slip. */
  lemma FinishCancelledTenants(s: State, id: Id, w: Id, exact: bool)
    requires TenantsRight(s, exact) && id in s.requests && !IsTerminal(s.requests[id].state)
    ensures TenantsRight(FinishCancelled(s, id, w), exact && s.requests[id].state == RequestState.Queued)
    ensures exact && s.requests[id].state != RequestState.Queued ==>
              (TenantsRight(FinishCancelled(s, id, w), true) <==>
                  TenantAt(s.ledger, s.requests[id].spec.tenant).queued == 0)
  {
    var s1 := FinishCancelled(s, id, w);
    var t := s.requests[id].spec.tenant;
    RetiredSame(NoteDequeued(s.ledger, t), t);
    if s.requests[id].state == RequestState.Queued {
      CountLeaves(s.requests, s.ledger, exact, id, s1.requests[id], s1.ledger);
    } else {
      CountSlips(s.requests, s.ledger, exact, id, s1.requests[id], s1.ledger);
    }
  }

  lemma {:induction false} CancelAllTenants(s: State, order: seq<Id>, exact: bool)
    requires TenantsRight(s, exact)
    requires forall i :: 0 <= i < |order| && order[i] in s.requests ==>
               s.requests[order[i]].state == RequestState.Queued || IsTerminal(s.requests[order[i]].state)
    ensures TenantsRight(CancelAll(s, order), exact)
    decreases |order|
  {
    if order != [] {
      var s1 := if order[0] in s.requests then FinishCancelled(s, order[0], NO_ID) else s;
      if order[0] in s.requests && !IsTerminal(s.requests[order[0]].state)
          { FinishCancelledTenants(s, order[0], NO_ID, exact); }
      CancelAllTenants(s1, order[1..], exact);
    }
  }

  lemma {:induction false} RecoverTenants(s: State, w: Id, order: seq<Id>, now: Time, exact: bool)
    requires TenantsRight(s, exact) && Distinct(order)
    requires forall i :: 0 <= i < |order| && order[i] in s.requests ==>
        s.requests[order[i]].state != RequestState.Queued
    ensures TenantsRight(RecoverRequests(s, w, order, now), exact)
    decreases |order|
  {
    if order != [] {
      if order[0] in s.requests && !IsTerminal(s.requests[order[0]].state) {
        MakeRetryTenants(s, order[0], w, now, exact);
        FinishTenants(s, order[0], w, RequestState.Failed, AttemptFailed, exact);
      }
      RecoverTenants(RecoverOne(s, w, order[0], now), w, order[1..], now, exact);
    }
  }

  /** The step cancels a request that holds or awaits a worker. */
  predicate CancelsHeld(s: State, e: Event) {
    || (e.CancelEvent? && e.request in s.requests && s.requests[e.request].state == RequestState.Reserved)
    || (e.CompleteEvent? && Screen(s, e.report).None? &&
        (e.report.status == CancelledStatus || (e.report.status == Succeeded
            && s.requests[e.report.request].cancelRequested)))
  }

  lemma CompleteTenants(s: State, r: Report, now: Time, exact: bool)
    requires TenantsRight(s, exact) && (Screen(s, r).None? ==> s.requests[r.request].state != RequestState.Queued)
    ensures TenantsRight(Complete(s, r, now), exact && !CancelsHeld(s, CompleteEvent(r, now)))
  {
    if Screen(s, r).None? {
      if r.status == Stale {
        CountStays(s.requests, s.ledger, exact, r.request, Complete(s, r, now).requests[r.request], s.ledger);
      } else if r.status == CancelledStatus || (r.status == Succeeded && s.requests[r.request].cancelRequested) {
        FinishCancelledTenants(s, r.request, r.worker, exact);
      } else if r.status == Succeeded {
        FinishTenants(s, r.request, r.worker, RequestState.Completed, AttemptSucceeded, exact);
      } else if r.status == ExpiredStatus {
        FinishTenants(s, r.request, r.worker, RequestState.Expired, AttemptExpired, exact);
      } else if Retryable(s.cfg, r.failure) && CanRetry(s, s.requests[r.request], now) {
        MakeRetryTenants(s, r.request, r.worker, now, exact);
      } else {
        FinishTenants(s, r.request, r.worker, RequestState.Failed, AttemptFailed, exact);
      }
    }
  }

  lemma CancelTenants(s: State, id: Id, exact: bool)
    requires TenantsRight(s, exact) && RecordsOk(s)
    ensures TenantsRight(Cancel(s, id), exact && !CancelsHeld(s, CancelEvent(id)))
  {
    if CancelAnswer(s, id) == CancelAccepted {
      var rec := s.requests[id];
      assert RecordOk(s.cfg, s.issued, rec);
      if rec.state == RequestState.Running {
        CountStays(s.requests, s.ledger, exact, id, Cancel(s, id).requests[id], s.ledger);
      } else if rec.state == RequestState.Reserved {
        FinishCancelledTenants(s, id, LastWorker(rec.history), exact);
      } else {
        FinishCancelledTenants(s, id, NO_ID, exact);
      }
    }
  }

  lemma SubmitTenants(s: State, spec: Spec, pre: Option<Id>, now: Time, exact: bool)
    requires TenantsRight(s, exact) && FreshId(s, SubmitEvent(spec, pre, now))
    ensures TenantsRight(Submit(s, spec, pre, now), exact)
  {
    var s1 := Submit(s, spec, pre, now);
    var id, n := RequestIdFor(s, pre), IdsTaken(pre);
    if spec.Valid() && Admission(s, spec, now).0 == Reject {
      CountStays(s.requests, s.ledger, exact, id, RejectedRecord(spec, Fresh(s, n + 1), now), s1.ledger);
    } else if spec.Valid() && Admission(s, spec, now).0 == Admit {
      SubmitShape(s, spec, pre, now);
      CountJoins(s.requests, s.ledger, exact, id, FirstRecord(spec, Fresh(s, n + 2), Fresh(s, n + 1), now), s1.ledger);
    }
  }

  lemma PlanTenants(s: State, request: Id, now: Time, order: seq<Id>, out: PlanResult, s1: State, exact: bool)
    requires RecordsOk(s) && TenantsRight(s, exact) && Plan(s, request, now, order, out, s1)
    ensures TenantsRight(s1, exact)
  {
    var s0 := ExpireAll(s, order);
    ExpireAllTenants(s, order, exact);
    ExpireAllProgress(s, order);
    if request in s0.requests && s0.requests[request].spec.Overdue(now) {
      ExpireTenants(s0, request, exact);
    } else if out.Dispatch? {
      assert RecordOk(s0.cfg, s0.issued, s0.requests[request]);
      var members, w :| PlanBatch(s0, request, now, members, w, out, s1);
      MembersQueued(s0, request, now, members);
      ReserveAllTenants(Open(s0, members, w), members, Fresh(s0, 1), exact);
    }
  }

  /** A request in flight is not queued. */
  lemma FlyingNotQueued(s: State, handed: set<Handout>, w: Id, order: seq<Id>)
    requires FlightsOk(s, handed) && Enumerates(order, InFlightOn(s, w))
    ensures forall i :: 0 <= i < |order| && order[i] in s.requests ==> s.requests[order[i]].state != RequestState.Queued
  {
    forall i | 0 <= i < |order| && order[i] in s.requests ensures s.requests[order[i]].state != RequestState.Queued {
      assert order[i] in order;
      assert FlightOk(s, handed, w, order[i]);
    }
  }

  lemma ConfirmTenants(s: State, r: Report, exact: bool)
    requires TenantsRight(s, exact)
    ensures TenantsRight(Confirm(s, r), exact)
  {
    if ConfirmAnswer(s, r) == Confirmed {
      CountStays(s.requests, s.ledger, exact, r.request, Confirm(s, r).requests[r.request], s.ledger);
    }
  }

  /** A report that passes the screen is not about a queued request. */
  lemma ReportedNotQueued(s: State, r: Report, now: Time, handed: set<Handout>)
    requires HandedOk(s, handed) && EnvOk(s, CompleteEvent(r, now), handed) && Screen(s, r).None?
    ensures s.requests[r.request].state != RequestState.Queued
  {
  }

  lemma PickTenants(s: State, now: Time, order: seq<Id>, seed: Option<Id>, s1: State, exact: bool)
    requires TenantsRight(s, exact) && Pick(s, now, order, seed, s1)
    ensures TenantsRight(s1, exact)
  {
    ExpireAllTenants(s, order, exact);
  }

  lemma DrainTenants(s: State, order: seq<Id>, exact: bool)
    requires TenantsRight(s, exact) && QueueOk(s) && Enumerates(order, s.index.queued)
    ensures TenantsRight(CancelAll(s, order), exact)
  {
    forall i | 0 <= i < |order| && order[i] in s.requests ensures s.requests[order[i]].state == RequestState.Queued {
      assert order[i] in order;
    }
    CancelAllTenants(s, order, exact);
  }

  lemma RegisterTenants(s: State, reg: Registration, now: Time, order: seq<Id>, exact: bool, handed: set<Handout>)
    requires TenantsRight(s, exact) && FlightsOk(s, handed) && Enumerates(order, InFlightOn(s, reg.worker))
    ensures TenantsRight(Register(s, reg, now, order), exact)
  {
    FlyingNotQueued(s, handed, reg.worker, order);
    RecoverTenants(s, reg.worker, order, now, exact);
  }

  lemma UnregisterTenants(s: State, w: Id, now: Time, order: seq<Id>, exact: bool, handed: set<Handout>)
    requires TenantsRight(s, exact) && FlightsOk(s, handed) && Enumerates(order, InFlightOn(s, w))
    ensures TenantsRight(Unregister(s, w, now, order), exact)
  {
    FlyingNotQueued(s, handed, w, order);
    RecoverTenants(s, w, order, now, exact);
  }

  lemma StepTenants(s: State, e: Event, s1: State, handed: set<Handout>, exact: bool)
    requires ProtocolOk(s, handed) && EnvOk(s, e, handed) && Step(s, e, s1) && TenantsRight(s, exact)
    ensures TenantsRight(s1, exact && !CancelsHeld(s, e))
  {
    hide Submit, Plan, Pick, Confirm, Complete, Cancel, CancelAll, Register, Unregister, QueueOk, RecordsOk, HandedOnce,
         HandedOk, FlightsOk, EnvOk, QueuedRight;
    match e
    case SubmitEvent(spec, pre, now) =>
      FreshInStep(s, e, handed);
      SubmitTenants(s, spec, pre, now, exact);
    case PickEvent(now, order, seed) => PickTenants(s, now, order, seed, s1, exact);
    case PlanEvent(request, now, order, out) => PlanTenants(s, request, now, order, out, s1, exact);
    case ConfirmEvent(r) => ConfirmTenants(s, r, exact);
    case CompleteEvent(r, now) =>
      if Screen(s, r).None? { ReportedNotQueued(s, r, now, handed); }
      CompleteTenants(s, r, now, exact);
    case CancelEvent(id) => CancelTenants(s, id, exact);
    case CancelAllEvent(order) => DrainTenants(s, order, exact);
    case RegisterEvent(reg, now, order) => RegisterTenants(s, reg, now, order, exact, handed);
    case UnregisterEvent(w, now, order) => UnregisterTenants(s, w, now, order, exact, handed);
    case _ =>
  }

  lemma FreshInStep(s: State, e: Event, handed: set<Handout>)
    requires EnvOk(s, e, handed)
    ensures FreshId(s, e)
  {
  }

  ghost predicate NoHeldCancels(tr: Trace, n: nat)
    requires n <= |tr.events| < |tr.states|
  {
    forall i :: 0 <= i < n ==> !CancelsHeld(tr.states[i], tr.events[i])
  }

  lemma TenantsAdvance(tr: Trace, i: nat, exact: bool)
    requires ProtocolRun(tr) && i < |tr.events| && TenantsRight(tr.states[i], exact)
    requires exact ==> !CancelsHeld(tr.states[i], tr.events[i])
    ensures TenantsRight(tr.states[i + 1], exact)
  {
    hide Step, EnvOk, ProtocolOk, TenantsRight, CancelsHeld;
    RunProtocol(tr, i);
    assert Step(tr.states[i], tr.events[i], tr.states[i + 1]);
    StepTenants(tr.states[i], tr.events[i], tr.states[i + 1], Handed(tr, i), exact);
  }

  lemma {:induction false} RunTenants(tr: Trace, i: nat, exact: bool)
    requires ProtocolRun(tr) && i < |tr.states| && (exact ==> NoHeldCancels(tr, i))
    ensures TenantsRight(tr.states[i], exact)
  {
    hide TenantsRight, CancelsHeld;
    if i > 0 {
      RunTenants(tr, i - 1, exact);
      TenantsAdvance(tr, i - 1, exact);
    } else {
      InitialTenants(tr.states[0], exact);
    }
  }

  lemma InitialTenants(s: State, exact: bool)
    requires s.requests == map[] && s.ledger == EMPTY_LEDGER
    ensures TenantsRight(s, exact)
  {
    forall t ensures QueuedOf(s.requests, t) == {} {}
  }

  /** Under the protocol a tenant's queued counter never exceeds the number of its queued
      requests, and equals it as long as no held request has been cancelled. */
  lemma TenantQueuedAtMost(tr: Trace, i: nat, t: Id)
    requires ProtocolRun(tr) && i < |tr.states|
    ensures 0 <= TenantAt(tr.states[i].ledger, t).queued <= |QueuedOf(tr.states[i].requests, t)|
    ensures NoHeldCancels(tr, i) ==> TenantAt(tr.states[i].ledger, t).queued == |QueuedOf(tr.states[i].requests, t)|
  {
    RunTenants(tr, i, false);
    if NoHeldCancels(tr, i) { RunTenants(tr, i, true); }
  }
}
