/** A crash between a save and a recovery: what was handed out after the save is unknown to the recovered scheduler.
    Exactly when that does no harm, and what then holds of every run that goes on. */
module Crashes {
  import opened Types
  import opened Collections
  import opened ReadyQueue
  import opened Ledgers
  import opened Fleets
  import opened Batching
  import opened Machine
  import opened Lifecycle
  import opened Protocol
  import opened Accounting
  import opened Recovery
  import opened Continuation

  // ----- a queued request that is not dispatched -----

  predicate Dispatches(e: Event, id: Id) { e.PlanEvent? && e.out.Dispatch? && id in e.out.members }

  /** Request id is as it was, or over. */
  ghost predicate StaysPut(s: State, s1: State, id: Id)
    requires id in s.requests
  {
    id in s1.requests && (s1.requests[id] == s.requests[id] || IsTerminal(s1.requests[id].state))
  }

  lemma ExpireAllStays(s: State, order: seq<Id>, id: Id)
    requires id in s.requests
    ensures StaysPut(s, ExpireAll(s, order), id)
  {
    ExpireAllEffect(s, order, id);
    hide ExpireAll;
  }

  lemma PlanStays(s: State, request: Id, now: Time, order: seq<Id>, out: PlanResult, s1: State, id: Id)
    requires Plan(s, request, now, order, out, s1) && id in s.requests
        && !Dispatches(PlanEvent(request, now, order, out), id)
    ensures StaysPut(s, s1, id)
  {
    var s0 := ExpireAll(s, order);
    ExpireAllStays(s, order, id);
    hide ExpireAll;
    if out.Dispatch? {
      var members, w :| PlanBatch(s0, request, now, members, w, out, s1);
      BatchMembers(s0.cfg, s0.requests, s0.index, request, now, members);
      hide BatchUnits, BatchCost, IsBatch, Eligible, ReserveAll;
      ReserveAllEffect(Open(s0, members, w), members, Fresh(s0, 1), id);
    }
  }

  lemma SubmitStays(s: State, spec: Spec, pre: Option<Id>, now: Time, id: Id)
    requires FreshId(s, SubmitEvent(spec, pre, now)) && id in s.requests
    ensures StaysPut(s, Submit(s, spec, pre, now), id)
  {
    hide Admission, KeyWeight;
  }

  /** A completion touches only the request it is about. */
  lemma CompleteTouches(s: State, r: Report, now: Time, id: Id)
    requires id in s.requests && id != r.request
    ensures id in Complete(s, r, now).requests && Complete(s, r, now).requests[id] == s.requests[id]
  {
    if r.request in s.requests { RetryShape(s, r.request, r.worker, now); }
    hide ReleaseMember, MakeRetry, Remove, CanRetry, Retryable;
  }

  lemma CompleteStays(s: State, handed: set<Handout>, r: Report, now: Time, id: Id)
    requires HandedOk(s, handed) && Handout(r.worker, r.request, r.attempt, r.generation) in handed
    requires id in s.requests && s.requests[id].state == RequestState.Queued
    ensures StaysPut(s, Complete(s, r, now), id)
  {
    assert HandoutOk(s, Handout(r.worker, r.request, r.attempt, r.generation));
    if id != r.request { CompleteTouches(s, r, now, id); }
  }

  lemma CancelStays(s: State, id: Id, w: Id, i: Id)
    requires id in s.requests && i in s.requests
    ensures StaysPut(s, FinishCancelled(s, i, w), id)
  {
    hide ReleaseMember, Remove;
  }

  lemma {:induction false} CancelAllStays(s: State, order: seq<Id>, id: Id)
    requires id in s.requests
    ensures StaysPut(s, CancelAll(s, order), id)
    decreases |order|
  {
    if order != [] {
      var s1 := if order[0] in s.requests then FinishCancelled(s, order[0], NO_ID) else s;
      if order[0] in s.requests { CancelStays(s, id, NO_ID, order[0]); }
      CancelAllStays(s1, order[1..], id);
      if IsTerminal(s1.requests[id].state) { CancelAllEnded(s1, order[1..], id); }
    }
  }

  lemma {:induction false} CancelAllEnded(s: State, order: seq<Id>, id: Id)
    requires id in s.requests && IsTerminal(s.requests[id].state)
    ensures id in CancelAll(s, order).requests && CancelAll(s, order).requests[id] == s.requests[id]
    decreases |order|
  {
    if order != [] {
      hide ReleaseMember, Remove, IsTerminal;
      CancelAllEnded(if order[0] in s.requests then FinishCancelled(s, order[0], NO_ID) else s, order[1..], id);
    }
  }

  lemma {:induction false} RecoverTouches(s: State, w: Id, order: seq<Id>, now: Time, id: Id)
    requires id in s.requests && id !in order
    ensures var s1 := RecoverRequests(s, w, order, now); id in s1.requests && s1.requests[id] == s.requests[id]
    decreases |order|
  {
    if order != [] {
      if order[0] in s.requests { RetryShape(s, order[0], w, now); }
      hide MakeRetry, ReleaseMember, CanRetry, IsTerminal;
      RecoverTouches(RecoverOne(s, w, order[0], now), w, order[1..], now, id);
    }
  }

  lemma RestartStays(s: State, handed: set<Handout>, w: Id, order: seq<Id>, now: Time, id: Id)
    requires FlightsOk(s, handed) && Enumerates(order, InFlightOn(s, w))
    requires id in s.requests && s.requests[id].state == RequestState.Queued
    ensures var s1 := RecoverRequests(s, w, order, now); id in s1.requests && s1.requests[id] == s.requests[id]
  {
    NotInFlight(s, handed, id, w);
    RecoverTouches(s, w, order, now, id);
  }

  lemma QueuedStaysPut(s: State, e: Event, s1: State, handed: set<Handout>, id: Id)
    requires ProtocolOk(s, handed) && EnvOk(s, e, handed) && Step(s, e, s1)
    requires id in s.requests && s.requests[id].state == RequestState.Queued && !Dispatches(e, id)
    ensures StaysPut(s, s1, id)
  {
    hide Submit, Plan, Complete, CancelAll, RecoverRequests, ClearWorker, FinishCancelled, QueueOk, RecordsOk, HandedOk,
         HandedOnce, FlightsOk, FreshId, Dispatches, Pruned, Picked, Enumerates, StartBatch;
    match e
    case SubmitEvent(spec, pre, now) => SubmitStays(s, spec, pre, now, id);
    case PickEvent(now, order, seed) => ExpireAllStays(s, order, id);
    case PlanEvent(request, now, order, out) => PlanStays(s, request, now, order, out, s1, id);
    case CompleteEvent(r, now) => CompleteStays(s, handed, r, now, id);
    case CancelEvent(i) =>
      if i in s.requests {
        CancelStays(s, id, NO_ID, i);
        CancelStays(s, id, LastWorker(s.requests[i].history), i);
      }
    case CancelAllEvent(order) => CancelAllStays(s, order, id);
    case RegisterEvent(reg, now, order) => RestartStays(s, handed, reg.worker, order, now, id);
    case UnregisterEvent(w, now, order) => RestartStays(s, handed, w, order, now, id);
    case _ =>
  }

  // ----- from the save to the crash -----

  /** A dispatch hands out the attempt that the request has. */
  lemma DispatchHandsIt(s: State, e: Event, s1: State, handed: set<Handout>, id: Id)
    requires ProtocolOk(s, handed) && Step(s, e, s1) && Dispatches(e, id)
    ensures id in s.requests && s.requests[id].state == RequestState.Queued
    ensures id in s1.requests && s1.requests[id].attempt == s.requests[id].attempt
    ensures s1.requests[id].generation == s.requests[id].generation
  {
    hide QueueOk, FlightsOk, HandedOk, HandedOnce;
    var s0 := ExpireAll(s, e.order);
    ExpireAllProgress(s, e.order);
    ExpireAllEffect(s, e.order, id);
    hide ExpireAll, PlanOn, RecordsOk, Enumerates, Evolves;
    DispatchHands(s0, e.request, e.now, e.out, s1);
  }

  ghost predicate HandedOut(handed: set<Handout>, id: Id, x: Id) {
    exists h :: h in handed && h.request == id && h.attempt == x
  }

  /** Up to state i request id was not dispatched, and is as it was at first, or over. */
  ghost predicate Untouched(tr: Trace, i: nat, id: Id)
    requires i < |tr.states| == |tr.events| + 1 && id in tr.states[0].requests
  {
    StaysPut(tr.states[0], tr.states[i], id) && forall k :: 0 <= k < i ==> !Dispatches(tr.events[k], id)
  }

  lemma UntouchedStep(s: State, e: Event, s1: State, handed: set<Handout>, s0: State, id: Id)
    requires ProtocolOk(s, handed) && EnvOk(s, e, handed) && Step(s, e, s1)
    requires id in s0.requests && s0.requests[id].state == RequestState.Queued && StaysPut(s0, s, id)
    ensures if Dispatches(e, id) then HandedOut(HandedBy(e, s1), id, s0.requests[id].attempt) else StaysPut(s0, s1, id)
  {
    hide Step, EnvOk, ProtocolOk;
    if Dispatches(e, id) {
      DispatchHandsIt(s, e, s1, handed, id);
      assert Handout(e.out.worker, id, s1.requests[id].attempt, s1.requests[id].generation) in HandedBy(e, s1);
    } else if IsTerminal(s.requests[id].state) {
      EndedStays(s, e, s1, handed, id);
    } else {
      QueuedStaysPut(s, e, s1, handed, id);
    }
  }

  lemma EndedStays(s: State, e: Event, s1: State, handed: set<Handout>, id: Id)
    requires ProtocolOk(s, handed) && EnvOk(s, e, handed) && Step(s, e, s1)
    requires id in s.requests && IsTerminal(s.requests[id].state)
    ensures id in s1.requests && s1.requests[id] == s.requests[id]
  {
    hide Step, FreshId, QueueOk, HandedOk, HandedOnce, FlightsOk, RecordsOk;
    StepProgress(s, e, s1);
    TerminalStays(s.cfg, s.requests[id], s1.requests[id]);
  }

  /** A request queued at first is untouched until the attempt it had is handed out. */
  lemma {:induction false} UntouchedUntilHanded(tr: Trace, handed: set<Handout>, i: nat, id: Id)
    requires RunsOn(tr, handed) && i < |tr.states| && Sound(tr.states[0], handed)
    requires id in tr.states[0].requests && tr.states[0].requests[id].state == RequestState.Queued
    ensures HandedOut(HandedSince(tr, handed, i), id, tr.states[0].requests[id].attempt) || Untouched(tr, i, id)
  {
    hide Step, EnvOk, ProtocolOk, AdmissionOk, TenantsRight, HandedBy, Dispatches, StaysPut;
    if i > 0 {
      UntouchedUntilHanded(tr, handed, i - 1, id);
      StaysSound(tr, handed, i - 1);
      if Untouched(tr, i - 1, id) {
        UntouchedStep(tr.states[i - 1], tr.events[i - 1], tr.states[i], HandedSince(tr, handed, i - 1), tr.states[0],
            id);
      }
    } else {
      SameStaysPut(tr.states[0], id);
    }
  }

  lemma SameStaysPut(s: State, id: Id)
    requires id in s.requests
    ensures StaysPut(s, s, id)
  {
  }

  /** What was not handed out before was handed out by a dispatch of its request. */
  lemma {:induction false} HandedByDispatch(tr: Trace, handed: set<Handout>, i: nat, h: Handout)
    requires |tr.states| == |tr.events| + 1 && i < |tr.states| && h in HandedSince(tr, handed, i)
    ensures h in handed || exists k :: 0 <= k < i && Dispatches(tr.events[k], h.request)
  {
    if i > 0 {
      if h in HandedSince(tr, handed, i - 1) {
        HandedByDispatch(tr, handed, i - 1, h);
      } else {
        assert Dispatches(tr.events[i - 1], h.request);
      }
    }
  }

  lemma {:induction false} RunsOnProgress(tr: Trace, handed: set<Handout>, i: nat, j: nat)
    requires RunsOn(tr, handed) && i <= j < |tr.states| && Sound(tr.states[0], handed)
    ensures RecordsOk(tr.states[i]) && Progress(tr.states[i], tr.states[j])
    decreases j
  {
    hide Step, EnvOk, Sound, RecordsOk, Progress, ProtocolOk, HandedBy, HandedSince, AdmissionOk, HandedOnce;
    StaysSound(tr, handed, i);
    SoundProtocol(tr.states[i], HandedSince(tr, handed, i));
    if i == j {
      SameRequests(tr.states[i], tr.states[i]);
    } else {
      RunsOnProgress(tr, handed, i, j - 1);
      StaysSound(tr, handed, j - 1);
      SoundStepProgress(tr.states[j - 1], tr.events[j - 1], tr.states[j], HandedSince(tr, handed, j - 1));
      ProgressTrans(tr.states[i], tr.states[j - 1], tr.states[j]);
    }
  }

  lemma SoundStepProgress(s: State, e: Event, s1: State, handed: set<Handout>)
    requires Sound(s, handed) && EnvOk(s, e, handed) && Step(s, e, s1)
    ensures Progress(s, s1)
  {
    hide Step, QueueOk, HandedOk, HandedOnce, FlightsOk, AdmissionOk, TenantsRight, FreshId, RecordsOk, Progress;
    StepProgress(s, e, s1);
  }

  /** A request still has the generation that it had with the same attempt. */
  lemma GenerationKept(s: State, s1: State, id: Id)
    requires RecordsOk(s) && Progress(s, s1) && id in s1.requests && IsCurrent(s, id, s1.requests[id].attempt)
    requires !IsTerminal(s1.requests[id].state)
    ensures s1.requests[id].generation == s.requests[id].generation
  {
    AttemptIsSpent(s, id);
    hide RecordsOk, Spent;
    SameAttempt(s, s1, id, s1.requests[id].attempt);
    SameGeneration(s.cfg, s.requests[id], s1.requests[id]);
  }

  ghost predicate GenerationsAgree(s: State, handed: set<Handout>) {
    forall h :: h in handed && IsCurrent(s, h.request, h.attempt) ==> h.generation == s.requests[h.request].generation
  }

  lemma {:induction false} HandoutsAgree(tr: Trace, handed: set<Handout>, i: nat)
    requires RunsOn(tr, handed) && i < |tr.states| && Sound(tr.states[0], handed)
    ensures GenerationsAgree(tr.states[0], HandedSince(tr, handed, i))
  {
    hide Step, EnvOk, Sound, Progress, RecordsOk, HandedBy;
    if i == 0 {
      HandedNow(tr.states[0], handed);
    } else {
      HandoutsAgree(tr, handed, i - 1);
      StaysSound(tr, handed, i - 1);
      RunsOnProgress(tr, handed, 0, i - 1);
      SoundProtocol(tr.states[i - 1], HandedSince(tr, handed, i - 1));
      NewHandoutsAgree(tr.states[0], tr.states[i - 1], tr.events[i - 1], tr.states[i], HandedSince(tr, handed, i - 1));
    }
  }

  lemma NewHandoutsAgree(s0: State, s: State, e: Event, s1: State, handed: set<Handout>)
    requires RecordsOk(s0) && Progress(s0, s) && ProtocolOk(s, handed) && Step(s, e, s1)
    ensures GenerationsAgree(s0, HandedBy(e, s1))
  {
    hide Step, Progress, RecordsOk, ProtocolOk;
    forall h | h in HandedBy(e, s1) && IsCurrent(s0, h.request, h.attempt)
      ensures h.generation == s0.requests[h.request].generation
    {
      DispatchHandsIt(s, e, s1, handed, h.request);
      GenerationKept(s0, s, h.request);
    }
  }

  lemma SoundProtocol(s: State, handed: set<Handout>)
    requires Sound(s, handed)
    ensures ProtocolOk(s, handed) && RecordsOk(s) && AdmissionOk(s) && HandedOnce(handed)
  {
  }

  lemma HandedNow(s: State, handed: set<Handout>)
    requires Sound(s, handed)
    ensures GenerationsAgree(s, handed) && Unhanded(s, handed)
  {
    hide RecordsOk, QueueOk, FlightsOk, HandedOnce, AdmissionOk, TenantsRight;
    forall h | h in handed ensures HandoutOk(s, h) {}
  }

  /** No request that was queued at first is dispatched in this run. */
  ghost predicate Undisturbed(tr: Trace)
    requires |tr.states| == |tr.events| + 1
  {
    forall k, id :: 0 <= k < |tr.events| && id in QueuedIds(tr.states[0].requests) ==> !Dispatches(tr.events[k], id)
  }

  /** A run from the save to the crash. What was handed out by the crash agrees with the saved requests, and none of
      it is the current attempt of a request saved as queued exactly when none of those was dispatched after the
      save. */
  lemma CrashExact(tr: Trace, handed: set<Handout>)
    requires RunsOn(tr, handed) && Sound(tr.states[0], handed)
    ensures Agrees(tr.states[0], HandedSince(tr, handed, |tr.events|))
    ensures Unhanded(tr.states[0], HandedSince(tr, handed, |tr.events|)) <==> Undisturbed(tr)
  {
    hide Step, EnvOk, Sound, HandedOnce, Dispatches, HandedBy, ProtocolOk, RecordsOk, AdmissionOk;
    var n := |tr.events|;
    HandoutsAgree(tr, handed, n);
    StaysSound(tr, handed, n);
    SoundProtocol(tr.states[n], HandedSince(tr, handed, n));
    UnhandedExact(tr, handed);
  }

  lemma DispatchedNotQueued(tr: Trace, k: nat, id: Id)
    requires |tr.states| == |tr.events| + 1 && Undisturbed(tr) && k < |tr.events| && Dispatches(tr.events[k], id)
    ensures id !in QueuedIds(tr.states[0].requests)
  {
  }

  lemma UnhandedExact(tr: Trace, handed: set<Handout>)
    requires RunsOn(tr, handed) && Sound(tr.states[0], handed)
    ensures Unhanded(tr.states[0], HandedSince(tr, handed, |tr.events|)) <==> Undisturbed(tr)
  {
    hide Step, EnvOk, Sound, Dispatches, HandedBy, HandedSince;
    var n, s := |tr.events|, tr.states[0];
    var hc := HandedSince(tr, handed, n);
    HandedNow(s, handed);
    if Undisturbed(tr) {
      forall h | h in hc && IsCurrent(s, h.request, h.attempt) ensures s.requests[h.request].state !=
          RequestState.Queued {
        HandedByDispatch(tr, handed, n, h);
        if h !in handed {
          var k :| 0 <= k < n && Dispatches(tr.events[k], h.request);
          DispatchedNotQueued(tr, k, h.request);
        }
      }
    } else {
      var k, id :| 0 <= k < n && id in QueuedIds(s.requests) && Dispatches(tr.events[k], id);
      UntouchedUntilHanded(tr, handed, n, id);
    }
  }

  // ----- going on after the crash -----

  /** A scheduler is saved in a sound state and crashes some time later; another one recovers from the file. No
      request saved as queued was dispatched in between. Whatever the environment does next, with late reports about
      anything that was handed out by the crash: in every later state the current attempt of a queued request was
      never handed out, no attempt was handed out twice, the queued set and its size are those of the requests in
      state Queued, and the admitted counter counts the open requests. */
  lemma SafeAcrossRecovery(crash: Trace, handed: set<Handout>, cur: State, p: Passage, tr: Trace, i: nat)
    requires RunsOn(crash, handed) && Sound(crash.states[0], handed) && Undisturbed(crash)
    requires var hc := HandedSince(crash, handed, |crash.events|);
             var s := crash.states[0];
             && Storable(s, p) && Succeeds(s, hc, cur) && Enumerates(p.order, WaitingIds(Taken(s, cur, p).requests))
             && RunsOn(tr, hc) && i < |tr.states| && Some(tr.states[0]) == Recover(cur, File(s, p), p)
    ensures var s1, all := tr.states[i], HandedSince(tr, HandedSince(crash, handed, |crash.events|), i);
            && (forall h :: h in all && h.request in QueuedIds(s1.requests) ==>
                h.attempt != s1.requests[h.request].attempt)
            && HandedOnce(all)
            && s1.index.queued == QueuedIds(s1.requests) && s1.index.size == |QueuedIds(s1.requests)|
            && s1.ledger.admitted == |OpenIds(s1.requests)| <= Max(0, s1.cfg.maxAdmitted)
  {
    hide Step, EnvOk, Recover, File, Storable, Revived, Enumerates, Succeeds, Undisturbed, Sound, Unhanded, HandedSince,
         Agrees;
    var hc := HandedSince(crash, handed, |crash.events|);
    RecoveredAfterCrash(crash, handed, cur, p);
    StaysSound(tr, hc, i);
    SoundFacts(tr.states[i], HandedSince(tr, hc, i));
  }

  lemma RecoveredAfterCrash(crash: Trace, handed: set<Handout>, cur: State, p: Passage)
    requires RunsOn(crash, handed) && Sound(crash.states[0], handed)
    requires var hc := HandedSince(crash, handed, |crash.events|);
             var s := crash.states[0];
             Storable(s, p) && Succeeds(s, hc, cur) && Enumerates(p.order, WaitingIds(Taken(s, cur, p).requests))
    ensures var hc := HandedSince(crash, handed, |crash.events|);
            var r := Recover(cur, File(crash.states[0], p), p);
            && r.Some? && (Sound(r.value, hc) <==> Undisturbed(crash))
            && r.value.requests == Taken(crash.states[0], cur, p).requests
  {
    hide Step, EnvOk, Recover, File, Storable, Revived, Enumerates, Succeeds, Undisturbed, Sound, Unhanded, HandedSince,
         Agrees;
    CrashExact(crash, handed);
    SoundProtocol(crash.states[0], handed);
    hide ProtocolOk, RecordsOk, AdmissionOk;
    RecoveredIsSound(crash.states[0], HandedSince(crash, handed, |crash.events|), cur, p);
  }

  lemma SoundFacts(s: State, handed: set<Handout>)
    requires Sound(s, handed)
    ensures forall h :: h in handed && h.request in QueuedIds(s.requests) ==> h.attempt != s.requests[h.request].attempt
    ensures HandedOnce(handed)
    ensures s.index.queued == QueuedIds(s.requests) && s.index.size == |QueuedIds(s.requests)|
    ensures s.ledger.admitted == |OpenIds(s.requests)| <= Max(0, s.cfg.maxAdmitted)
  {
    hide RecordsOk, FlightsOk, TenantsRight, HeapsAgree, HandedOnce;
    forall h | h in handed ensures HandoutOk(s, h) {}
  }

  /** What an attempt that is not current can no longer do. */
  lemma NotCurrentRefused(s: State, r: Report, now: Time)
    requires !IsCurrent(s, r.request, r.attempt)
    ensures Complete(s, r, now) == s && Confirm(s, r) == s
    ensures CompleteAnswer(s, r) != Accepted && ConfirmAnswer(s, r) != Confirmed
  {
    UnauthorisedIgnored(s, r, now);
  }

  /** A report about work that the save does not know, because its request was submitted later or had another
      attempt by then, is refused and changes nothing, for ever. */
  lemma LostWorkRefused(crash: Trace, handed: set<Handout>, cur: State, p: Passage, tr: Trace, i: nat, r: Report,
      now: Time)
    requires RunsOn(crash, handed) && Sound(crash.states[0], handed) && Undisturbed(crash)
    requires var hc := HandedSince(crash, handed, |crash.events|);
             var s := crash.states[0];
             && Storable(s, p) && Succeeds(s, hc, cur) && Enumerates(p.order, WaitingIds(Taken(s, cur, p).requests))
             && RunsOn(tr, hc) && i < |tr.states| && Some(tr.states[0]) == Recover(cur, File(s, p), p)
             && HandedOut(hc, r.request, r.attempt) && !IsCurrent(s, r.request, r.attempt)
    ensures Complete(tr.states[i], r, now) == tr.states[i] && Confirm(tr.states[i], r) == tr.states[i]
    ensures CompleteAnswer(tr.states[i], r) != Accepted && ConfirmAnswer(tr.states[i], r) != Confirmed
  {
    hide Step, EnvOk, Recover, File, Storable, Enumerates, Succeeds, Undisturbed, Sound, Unhanded, HandedSince, Agrees,
         Complete, Confirm, CompleteAnswer, ConfirmAnswer, Reread, Written;
    var s, hc := crash.states[0], HandedSince(crash, handed, |crash.events|);
    RecoveredAfterCrash(crash, handed, cur, p);
    assert !IsCurrent(tr.states[0], r.request, r.attempt);
    hide Revived;
    RunsOnProgress(tr, hc, 0, i);
    SoundSpent(tr.states[0], hc, r.request, r.attempt);
    hide RecordsOk, Progress, Spent;
    if IsCurrent(tr.states[i], r.request, r.attempt) { SameAttempt(tr.states[0], tr.states[i], r.request, r.attempt); }
    NotCurrentRefused(tr.states[i], r, now);
  }

  lemma SoundSpent(s: State, handed: set<Handout>, id: Id, x: Id)
    requires Sound(s, handed) && HandedOut(handed, id, x)
    ensures Spent(s.cfg, s.issued, x)
  {
    hide RecordsOk, FlightsOk, TenantsRight, QueueOk, HandedOnce, AdmissionOk;
    var h :| h in handed && h.request == id && h.attempt == x;
    assert HandoutOk(s, h);
  }

  // ----- runs of one scheduler -----

  /** The part of a run from state i to state j. */
  function Part(tr: Trace, i: nat, j: nat): Trace
    requires i <= j <= |tr.events| == |tr.states| - 1
  {
    Trace(tr.states[i..j + 1], tr.events[i..j])
  }

  lemma {:induction false} PartHands(tr: Trace, i: nat, j: nat, k: nat)
    requires i + k <= j <= |tr.events| == |tr.states| - 1
    ensures HandedSince(Part(tr, i, j), Handed(tr, i), k) == Handed(tr, i + k)
  {
    if k > 0 { PartHands(tr, i, j, k - 1); }
  }

  lemma PartRuns(tr: Trace, i: nat, j: nat)
    requires ProtocolRun(tr) && i <= j <= |tr.events|
    ensures RunsOn(Part(tr, i, j), Handed(tr, i)) && Sound(tr.states[i], Handed(tr, i))
  {
    hide Step, EnvOk, ProtocolOk, AdmissionOk, TenantsRight;
    var part := Part(tr, i, j);
    forall k | 0 <= k < |part.events|
      ensures Step(part.states[k], part.events[k], part.states[k + 1])
      ensures EnvOk(part.states[k], part.events[k], HandedSince(part, Handed(tr, i), k))
    {
      assert Step(tr.states[i + k], tr.events[i + k], tr.states[i + k + 1]);
      PartHands(tr, i, j, k);
    }
    RunProtocol(tr, i);
    RunIsFresh(tr);
    RunAdmission(tr, i);
    RunTenants(tr, i, false);
  }

  lemma RunIsFresh(tr: Trace)
    requires ProtocolRun(tr)
    ensures FreshIds(tr)
  {
    hide Step, FreshId;
    forall k | 0 <= k < |tr.events| ensures FreshId(tr.states[k], tr.events[k]) {
      assert EnvOk(tr.states[k], tr.events[k], Handed(tr, k));
    }
  }

  /** Every attempt that was handed out was named by this scheduler. */
  lemma {:induction false} HandedIsNamed(tr: Trace, i: nat)
    requires ProtocolRun(tr) && i < |tr.states|
    ensures forall h :: h in Handed(tr, i) ==> Issued(tr.states[0].cfg, 0, tr.states[i].issued, h.attempt)
  {
    if i > 0 {
      hide Step, EnvOk, ProtocolOk, Issued;
      HandedIsNamed(tr, i - 1);
      RunIsFresh(tr);
      RunProgress(tr, i - 1, i);
      RunProgress(tr, 0, i);
      RunProtocol(tr, i - 1);
      hide RecordsOk;
      var cfg, n, m := tr.states[0].cfg, tr.states[i - 1].issued, tr.states[i].issued;
      forall h | h in Handed(tr, i) ensures Issued(cfg, 0, m, h.attempt) {
        if h in Handed(tr, i - 1) {
          IssuedWithin(cfg, 0, n, h.attempt, 0, m);
        } else {
          DispatchHandsIt(tr.states[i - 1], tr.events[i - 1], tr.states[i], Handed(tr, i - 1), h.request);
          assert h.attempt == tr.states[i].requests[h.request].attempt;
          CurrentIsNamed(tr.states[0], tr.states[i], h.request);
        }
      }
    }
  }

  /** In a run from the empty scheduler all names are its own. */
  lemma CurrentIsNamed(s: State, s1: State, id: Id)
    requires Progress(s, s1) && s.requests == map[] && s.issued == 0 && id in s1.requests
    ensures NewlyNamed(s.cfg, 0, s1.issued, 0, s1.requests[id])
        && Issued(s.cfg, 0, s1.issued, s1.requests[id].generation)
    ensures s1.requests[id].state != RequestState.Rejected ==> Issued(s.cfg, 0, s1.issued, s1.requests[id].attempt)
  {
    assert Named(s, s1, id) && RecordOk(s1.cfg, s1.issued, s1.requests[id]);
  }

  /** Another scheduler never issues these names. */
  lemma NamedIsSpent(cfg: Config, n: nat, x: Id, cur: Config, issued: nat)
    requires Issued(cfg, 0, n, x) && (cur.salt != cfg.salt || n <= issued)
    ensures Spent(cur, issued, x)
  {
    forall m: nat | m > issued ensures IdAt(cur, m) != x {
      var k: nat :| 0 < k <= n && IdAt(cfg, k) == x;
      IdsDiffer(cfg, k, cur, m);
    }
  }

  /** A scheduler with another salt can take over from any point of a run, as can one with the same salt and a
      counter that has not fallen behind. */
  lemma NewSaltSucceeds(tr: Trace, i: nat, j: nat, cur: State)
    requires ProtocolRun(tr) && i <= j <= |tr.events| && cur.cfg == tr.states[0].cfg.(salt := cur.cfg.salt)
    requires cur.cfg.salt != tr.states[0].cfg.salt || tr.states[j].issued <= cur.issued
    ensures Succeeds(tr.states[i], Handed(tr, j), cur)
  {
    RunIsFresh(tr);
    RunProgress(tr, 0, i);
    RunProgress(tr, i, j);
    HandedIsNamed(tr, j);
    hide Step, EnvOk, Handed, RecordsOk, Issued, Spent;
    var cfg, n := tr.states[0].cfg, tr.states[i].issued;
    forall h | h in Handed(tr, j) ensures Spent(cur.cfg, cur.issued, h.attempt) {
      NamedIsSpent(cfg, tr.states[j].issued, h.attempt, cur.cfg, cur.issued);
    }
    forall id | id in tr.states[i].requests ensures NamesSpent(cur, tr.states[i].requests[id]) {
      CurrentIsNamed(tr.states[0], tr.states[i], id);
      var rec := tr.states[i].requests[id];
      NamedIsSpent(cfg, n, rec.generation, cur.cfg, cur.issued);
      forall k | 0 <= k < |rec.history| ensures Spent(cur.cfg, cur.issued, rec.history[k].id) {
        NamedIsSpent(cfg, n, rec.history[k].id, cur.cfg, cur.issued);
      }
    }
  }

  /** The whole story of one scheduler: it is saved at state i of a run and crashes at state j; a scheduler with the
      same settings and other identifiers recovers from the file. It is sound with respect to everything handed out
      by the crash exactly when no request queued at the save was dispatched before the crash. */
  lemma CrashInRuns(tr: Trace, i: nat, j: nat, cur: State, p: Passage)
    requires ProtocolRun(tr) && i <= j <= |tr.events| && cur.cfg == tr.states[0].cfg.(salt := cur.cfg.salt)
    requires cur.cfg.salt != tr.states[0].cfg.salt || tr.states[j].issued <= cur.issued
    requires Storable(tr.states[i], p) && Enumerates(p.order, WaitingIds(Taken(tr.states[i], cur, p).requests))
    ensures Recover(cur, File(tr.states[i], p), p).Some?
    ensures Sound(Recover(cur, File(tr.states[i], p), p).value, Handed(tr, j)) <==> Undisturbed(Part(tr, i, j))
  {
    hide Recover, File, Storable, Revived, Enumerates, Succeeds, Undisturbed, Sound, RunsOn, Handed, Step, EnvOk;
    PartRuns(tr, i, j);
    PartHands(tr, i, j, j - i);
    NewSaltSucceeds(tr, i, j, cur);
    RecoveredAfterCrash(Part(tr, i, j), Handed(tr, i), cur, p);
  }
}
