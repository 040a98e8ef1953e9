/** The public scheduler. Its methods delegate to the guarded object; a ghost
    trace records every critical section, so that what holds of every run holds
    of every history of the object. */
module Service {
  import opened Types
  import opened Collections
  import opened ReadyQueue
  import opened Ledgers
  import Fleets
  import opened Machine
  import opened Choices
  import opened Lifecycle
  import Protocol
  import opened Accounting
  import Reservations
  import Baseline
  import opened Schedulers

  ghost function Extended(tr: Trace, e: Event, s: State): Trace { Trace(tr.states + [s], tr.events + [e]) }

  lemma RunGrows(tr: Trace, e: Event, s: State)
    requires IsRun(tr) && Step(tr.states[|tr.events|], e, s)
    ensures IsRun(Extended(tr, e, s))
  {
    hide Step;
    var more := Extended(tr, e, s);
    forall i | 0 <= i < |more.events| ensures Step(more.states[i], more.events[i], more.states[i + 1]) {
      if i < |tr.events| { assert Step(tr.states[i], tr.events[i], tr.states[i + 1]); }
    }
  }

  class Service {
    const impl: Scheduler
    ghost var trace: Trace

    ghost predicate Valid()
      reads this, impl
    {
      impl.Valid() && IsRun(trace) && trace.states[|trace.events|] == impl.View()
    }

    constructor (cfg: Config, score: (Fleets.Worker, Spec, real, Time) -> real, first: Option<nat>)
      ensures Valid() && fresh(impl) && trace.events == []
    {
      impl := new Scheduler(cfg, score, first);
      new;
      trace := Trace([impl.View()], []);
    }

    /** The trace has one more event, and ends in the present state. */
    twostate predicate Records(e: Event)
      reads this, impl
    {
      trace == Extended(old(trace), e, impl.View())
    }

    method Submit(spec: Spec, pre: Option<Id>, now: Time) returns (answer: SubmitResult)
      requires Valid()
      modifies this, impl
      ensures Valid() && Records(SubmitEvent(spec, pre, now))
          && answer == SubmitAnswer(old(impl.View()), spec, pre, now)
    {
      hide Machine.Submit, SubmitAnswer;
      answer := impl.SubmitRequest(spec, pre, now);
      RunGrows(trace, SubmitEvent(spec, pre, now), impl.View());
      trace := Extended(trace, SubmitEvent(spec, pre, now), impl.View());
    }

    method PlanDispatch(request: Id, now: Time) returns (out: PlanResult, ghost order: seq<Id>)
      requires Valid()
      modifies this, impl
      ensures Valid() && Records(PlanEvent(request, now, order, out))
      ensures out.Dispatch? ==>
                Preferred(impl.score, ExpireAll(old(impl.View()), order), out.members, out.worker, now)
    {
      hide Plan, Preferred, ExpireAll;
      out, order := impl.PlanDispatch(request, now);
      RunGrows(trace, PlanEvent(request, now, order, out), impl.View());
      trace := Extended(trace, PlanEvent(request, now, order, out), impl.View());
    }

    /** Plan-next takes the lock twice: one event, or two when something was chosen. */
    method PlanNextDispatch(now: Time, later: Time)
      returns (out: PlanResult, seed: Option<Id>, ghost mid: State, ghost order: seq<Id>, ghost order1: seq<Id>)
      requires Valid()
      modifies this, impl
      ensures Valid()
      ensures var chosen := Extended(old(trace), PickEvent(now, order, seed), mid);
              trace == if seed.None? then chosen else Extended(chosen, PlanEvent(seed.value, later, order1, out),
                  impl.View())
      ensures seed.None? ==> out == Hold && mid == impl.View()
      ensures out.Dispatch? ==> Preferred(impl.score, ExpireAll(mid, order1), out.members, out.worker, later)
    {
      hide Plan, Pick, Preferred, ExpireAll;
      out, seed, mid, order, order1 := impl.PlanNext(now, later);
      RunGrows(trace, PickEvent(now, order, seed), mid);
      trace := Extended(trace, PickEvent(now, order, seed), mid);
      if seed.Some? {
        RunGrows(trace, PlanEvent(seed.value, later, order1, out), impl.View());
        trace := Extended(trace, PlanEvent(seed.value, later, order1, out), impl.View());
      }
    }

    method ConfirmDispatchStart(r: Report) returns (answer: ConfirmResult)
      requires Valid()
      modifies this, impl
      ensures Valid() && Records(ConfirmEvent(r)) && answer == ConfirmAnswer(old(impl.View()), r)
    {
      hide Confirm, ConfirmAnswer;
      answer := impl.ConfirmStart(r);
      RunGrows(trace, ConfirmEvent(r), impl.View());
      trace := Extended(trace, ConfirmEvent(r), impl.View());
    }

    method CompleteAttempt(r: Report, now: Time) returns (answer: Acceptance)
      requires Valid()
      modifies this, impl
      ensures Valid() && Records(CompleteEvent(r, now)) && answer == CompleteAnswer(old(impl.View()), r)
    {
      hide Complete, CompleteAnswer;
      answer := impl.CompleteAttempt(r, now);
      RunGrows(trace, CompleteEvent(r, now), impl.View());
      trace := Extended(trace, CompleteEvent(r, now), impl.View());
    }

    method Cancel(id: Id) returns (answer: CancelResult)
      requires Valid()
      modifies this, impl
      ensures Valid() && Records(CancelEvent(id)) && answer == CancelAnswer(old(impl.View()), id)
    {
      hide Machine.Cancel, CancelAnswer;
      answer := impl.CancelRequest(id);
      RunGrows(trace, CancelEvent(id), impl.View());
      trace := Extended(trace, CancelEvent(id), impl.View());
    }

    method CancelAllQueued() returns (ghost order: seq<Id>)
      requires Valid()
      modifies this, impl
      ensures Valid() && Records(CancelAllEvent(order))
    {
      hide CancelAll;
      order := impl.CancelAllQueued();
      RunGrows(trace, CancelAllEvent(order), impl.View());
      trace := Extended(trace, CancelAllEvent(order), impl.View());
    }

    method RegisterWorker(reg: Registration, now: Time) returns (ghost order: seq<Id>)
      requires Valid()
      modifies this, impl
      ensures Valid() && Records(RegisterEvent(reg, now, order))
    {
      hide Register;
      order := impl.RegisterWorker(reg, now);
      RunGrows(trace, RegisterEvent(reg, now, order), impl.View());
      trace := Extended(trace, RegisterEvent(reg, now, order), impl.View());
    }

    method UnregisterWorker(w: Id, now: Time) returns (known: bool, ghost order: seq<Id>)
      requires Valid()
      modifies this, impl
      ensures Valid() && Records(UnregisterEvent(w, now, order)) && (known <==> w in old(impl.workers))
    {
      hide Unregister;
      known, order := impl.UnregisterWorker(w, now);
      RunGrows(trace, UnregisterEvent(w, now, order), impl.View());
      trace := Extended(trace, UnregisterEvent(w, now, order), impl.View());
    }

    method UpdateWorkerCapability(w: Id, cap: Capability) returns (known: bool)
      requires Valid()
      modifies this, impl
      ensures Valid() && Records(CapabilityEvent(w, cap)) && (known <==> w in old(impl.workers))
    {
      hide UpdateCapability;
      known := impl.UpdateWorker(w, cap);
      RunGrows(trace, CapabilityEvent(w, cap), impl.View());
      trace := Extended(trace, CapabilityEvent(w, cap), impl.View());
    }

    method SetWorkerState(w: Id, st: WorkerState, available: Option<int>) returns (known: bool)
      requires Valid()
      modifies this, impl
      ensures Valid() && Records(WorkerStateEvent(w, st, available)) && (known <==> w in old(impl.workers))
    {
      hide Machine.SetWorkerState;
      known := impl.SetState(w, st, available);
      RunGrows(trace, WorkerStateEvent(w, st, available), impl.View());
      trace := Extended(trace, WorkerStateEvent(w, st, available), impl.View());
    }

    method BeginDrain()
      requires Valid()
      modifies this, impl
      ensures Valid() && Records(DrainEvent)
    {
      impl.BeginDrain();
      RunGrows(trace, DrainEvent, impl.View());
      trace := Extended(trace, DrainEvent, impl.View());
    }

    method RollEpoch()
      requires Valid()
      modifies this, impl
      ensures Valid() && Records(EpochEvent)
    {
      impl.RollEpoch();
      RunGrows(trace, EpochEvent, impl.View());
      trace := Extended(trace, EpochEvent, impl.View());
    }

    /** At every moment in the life of the object, if no identifier was ever reused: the admitted
        counters count the open requests, and no request ever had too many attempts. */
    lemma CountersExact(t: Id)
      requires Valid() && FreshIds(trace)
      ensures impl.globalAdmitted == |OpenIds(impl.requests)| <= Max(0, impl.cfg.maxAdmitted)
      ensures TenantAt(impl.View().ledger, t).admitted == |OpenOf(impl.requests, t)| <= Max(1,
          impl.cfg.tenantConcurrency)
      ensures RecordsOk(impl.View())
    {
      hide Step, FreshId;
      AdmittedCountsOpenRequests(trace, |trace.events|, t);
      RunRecordsOk(trace, |trace.events|);
    }

    /** As long as every report was about an attempt handed to its sender: the queued set and its counter are
        those of the requests in state Queued, and the current attempt of a queued request was never handed out. */
    lemma QueueExact()
      requires Valid() && Protocol.ProtocolRun(trace)
      ensures impl.View().index.queued == QueuedIds(impl.requests)
      ensures impl.View().index.size == |QueuedIds(impl.requests)|
      ensures forall h :: h in Protocol.Handed(trace, |trace.events|) ==>
                h.request in impl.requests &&
                (impl.requests[h.request].state == RequestState.Queued ==>
                    h.attempt != impl.requests[h.request].attempt)
    {
      hide Protocol.ProtocolRun, Protocol.Handed;
      Protocol.QueueIsSafe(trace, |trace.events|);
    }

    /** As long as no worker restarted or was removed, whoever reported what: the global units are the sums over
        the workers, and no worker's units are negative. */
    lemma UnitsExact()
      requires Valid() && Reservations.SteadyRun(trace)
      ensures impl.View().fleet.reserved == Total(Fleets.ReservedBy(impl.workers)) >= 0
      ensures impl.View().fleet.running == Total(Fleets.RunningBy(impl.workers)) >= 0
      ensures forall w :: w in impl.workers ==> impl.workers[w].reserved >= 0 && impl.workers[w].running >= 0
    {
      hide Reservations.SteadyRun;
      Reservations.UnitsConserved(trace, |trace.events|);
    }

    /** If in addition reports came from where attempts went and no reserved request was cancelled: with nothing
        reserved or running the object holds no units and no batches. */
    lemma ReturnsToBaseline()
      requires Valid() && Baseline.OrderlyRun(trace)
      requires forall id :: id in impl.requests ==> !Baseline.Held(impl.requests[id].state)
      ensures forall w :: w in impl.workers ==> Baseline.Idle(impl.workers[w])
      ensures impl.View().fleet.reserved == 0 && impl.View().fleet.running == 0
    {
      hide Baseline.OrderlyRun;
      Baseline.BackToBaseline(trace, |trace.events|);
    }
  }
}
