/** Saving and recovering as one step, and the runs that go on from a recovered scheduler: what was in force before
    the save is in force again. */
module Continuation {
  import opened Types
  import opened Collections
  import opened Bytes
  import Binary
  import Envelopes
  import opened ReadyQueue
  import opened Ledgers
  import opened Fleets
  import opened Machine
  import opened Lifecycle
  import opened Protocol
  import opened Accounting
  import opened Reservations
  import opened Baseline
  import opened Recovery

  // ----- save, then recover -----

  /** How a state gets through a file: the orders in which its maps are walked, what it holds besides, the format of
      its floating-point numbers, when it is saved and recovered, and the order in which requests are queued again. */
  datatype Passage = Passage(walks: Walks, extras: Extras, doubles: Doubles, saved: Time, now: Time, order: seq<Id>)

  function Payload(s: State, p: Passage): Val
    requires Walked(p.walks, s)
  {
    StateVal(s, p.walks, p.extras, p.doubles, p.saved)
  }

  /** The saved state fits its file. */
  ghost predicate Storable(s: State, p: Passage) {
    && Loadable(s, p.walks, p.doubles, p.saved)
    && Binary.Conforms(STATE, Payload(s, p)) && Binary.Limited(STATE, Payload(s, p))
    && |Binary.Encode(STATE, Payload(s, p))| + Envelopes.HEADER + Envelopes.TRAILER < U64
  }

  ghost function File(s: State, p: Passage): seq<Byte>
    requires Storable(s, p)
  {
    Envelopes.Frame(Binary.Encode(STATE, Payload(s, p)))
  }

  /** What scheduler cur becomes when it recovers from this file; none when the file is corrupt. */
  function Recover(cur: State, file: seq<Byte>, p: Passage): Option<State> {
    match Envelopes.Read(file)
    case Corrupt(_) => None
    case Payload(bytes) =>
      var r := ReadPayload(bytes);
      if r.Got? then Some(EnqueueAll(Loaded(cur, r.value, p.doubles, p.now), p.order, p.now)) else None
  }

  function Taken(s: State, cur: State, p: Passage): State { Revived(s, cur, p.saved, p.now) }

  /** Recovering from a saved file always succeeds and rebuilds the queue over the revived state. */
  lemma RecoversWhatWasSaved(s: State, cur: State, p: Passage)
    requires Storable(s, p)
    ensures Recover(cur, File(s, p), p) == Some(EnqueueAll(Taken(s, cur, p), p.order, p.now))
  {
    hide Binary.Encode, Binary.Decode, Binary.Conforms, Binary.Limited, StateVal, ReadPayload, Loaded, Revived,
         EnqueueAll, Writable, WalksAll, Envelopes.Frame, Envelopes.Read;
    Envelopes.ReadBack(Binary.Encode(STATE, Payload(s, p)));
    LoadsWhatWasSaved(s, cur, p.walks, p.extras, p.doubles, p.saved, p.now);
  }

  /** What is left of a deadline after saving and recovering: the whole milliseconds that were left, from now on. */
  function Postponed(deadline: Time, saved: Time, now: Time): Time {
    if deadline <= saved then now else now + (deadline - saved) / 1_000_000 * 1_000_000
  }

  /** rec1 is rec as it is found again: in no batch, and with its deadline counted from now. */
  predicate FoundAgain(rec: Request, rec1: Request, saved: Time, now: Time) {
    && rec1.state == rec.state && rec1.attempt == rec.attempt && rec1.generation == rec.generation
    && rec1.history == rec.history
    && rec1.cancelRequested == rec.cancelRequested && rec1.cancelCommitted == rec.cancelCommitted
    && rec1.batch == None && rec1.queuedAt == now
    && rec1.spec == rec.spec.(deadline := rec1.spec.deadline)
    && rec1.spec.deadline == (if rec.spec.deadline.None? then None
        else Some(Postponed(rec.spec.deadline.value, saved, now)))
  }

  /** What is found in a recovered scheduler. Its requests are the saved ones, in no batch and with their deadlines
      counted from now. Its workers have the saved boot identity, capability and state, all their capacity
      available, and hold nothing. Epoch, tokens, unit totals and admitted counts are the saved ones; settings,
      identifiers and drain flag are those of the recovering scheduler. */
  lemma RecoveredExact(s: State, cur: State, p: Passage, id: Id, w: Id, t: Id)
    requires Storable(s, p) && Enumerates(p.order, QueuedIds(s.requests))
    ensures Recover(cur, File(s, p), p).Some?
    ensures var s1 := Recover(cur, File(s, p), p).value;
            && s1.requests.Keys == s.requests.Keys
            && (id in s.requests ==> FoundAgain(s.requests[id], s1.requests[id], p.saved, p.now))
            && s1.fleet.workers.Keys == s.fleet.workers.Keys
            && (w in s.fleet.workers ==>
                  var r := s.fleet.workers[w];
                  s1.fleet.workers[w] == Worker(r.boot, r.capability, r.state, r.capability.available, 0, 0, map[],
                      map[], {}, {}))
            && s1.fleet.reserved == s.fleet.reserved && s1.fleet.running == s.fleet.running
            && s1.epoch == s.epoch && s1.tokens == s.tokens
            && s1.ledger.admitted == s.ledger.admitted
            && TenantAt(s1.ledger, t).admitted == TenantAt(s.ledger, t).admitted
            && s1.cfg == cur.cfg && s1.issued == cur.issued && s1.draining == cur.draining
  {
    RecoversWhatWasSaved(s, cur, p);
    hide Storable, Recover, File, Enumerates, QueuedIds;
    EnqueueAllFrame(Taken(s, cur, p), p.order, p.now);
    hide EnqueueAll;
    QueuedAgain(s, cur, p, id);
  }

  lemma QueuedAgain(s: State, cur: State, p: Passage, id: Id)
    requires Enumerates(p.order, QueuedIds(s.requests))
    ensures var s1 := EnqueueAll(Taken(s, cur, p), p.order, p.now);
            && s1.requests.Keys == s.requests.Keys
            && (id in s.requests ==> FoundAgain(s.requests[id], s1.requests[id], p.saved, p.now))
  {
    hide EnqueueAll, FoundAgain, Reread, Written;
    var s0 := Taken(s, cur, p);
    forall i | 0 <= i < |p.order| ensures p.order[i] in QueuedIds(s.requests) { assert p.order[i] in p.order; }
    EnqueueAllKeeps(s0, p.order, p.now);
    if id in s.requests { RestoredIsFound(s.requests[id], p.saved, p.now); }
  }

  lemma RestoredIsFound(rec: Request, saved: Time, now: Time)
    ensures FoundAgain(rec, Restored(rec, saved, now), saved, now)
  {
  }

  /** Queuing again requests that were queued at this very instant changes no record. */
  lemma {:induction false} EnqueueAllKeeps(s: State, order: seq<Id>, now: Time)
    requires forall i :: 0 <= i < |order| ==>
               order[i] in s.requests && s.requests[order[i]].state == RequestState.Queued
                   && s.requests[order[i]].queuedAt == now
    ensures EnqueueAll(s, order, now).requests == s.requests
    decreases |order|
  {
    if order != [] {
      hide Insert, Push;
      var s1 := EnqueueRequest(s, order[0], now);
      assert s1.requests == s.requests;
      EnqueueAllKeeps(s1, order[1..], now);
    }
  }

  // ----- what holds of a recovered scheduler -----

  /** The recovering scheduler never issues an identifier that the record carries. */
  ghost predicate NamesSpent(cur: State, rec: Request) {
    && Spent(cur.cfg, cur.issued, rec.generation)
    && forall i :: 0 <= i < |rec.history| ==> Spent(cur.cfg, cur.issued, rec.history[i].id)
  }

  /** The recovering scheduler runs with the same settings and never issues an identifier that was saved or that
      names an attempt handed out. */
  ghost predicate Succeeds(s: State, handed: set<Handout>, cur: State) {
    && cur.cfg == s.cfg.(salt := cur.cfg.salt)
    && (forall id :: id in s.requests ==> NamesSpent(cur, s.requests[id]))
    && (forall h :: h in handed ==> Spent(cur.cfg, cur.issued, h.attempt))
  }

  lemma RestoredOk(s: State, cur: State, saved: Time, now: Time, rec: Request)
    requires cur.cfg == s.cfg.(salt := cur.cfg.salt) && NamesSpent(cur, rec) && RecordOk(s.cfg, s.issued, rec)
    ensures RecordOk(cur.cfg, cur.issued, Restored(rec, saved, now))
  {
  }

  /** Queuing again changes no record: what was queued is queued, as of now. */
  lemma RebuiltRequests(s: State, cur: State, p: Passage, s1: State)
    requires RecordsOk(s)
    requires Rebuilding(Taken(s, cur, p).requests, s1, WaitingIds(Taken(s, cur, p).requests), p.now)
    ensures s1.requests == Taken(s, cur, p).requests
  {
    hide Indexed, Stored, Counted, HistoryOk;
    var rs := Taken(s, cur, p).requests;
    forall id | id in rs ensures s1.requests[id] == rs[id] {
      assert RecordOk(s.cfg, s.issued, s.requests[id]);
    }
  }

  lemma RevivedRecords(s: State, handed: set<Handout>, cur: State, p: Passage, s1: State)
    requires Succeeds(s, handed, cur) && RecordsOk(s) && s1.requests == Taken(s, cur, p).requests
    requires s1.cfg == cur.cfg && s1.issued == cur.issued
    ensures RecordsOk(s1)
  {
    forall id | id in s1.requests ensures RecordOk(s1.cfg, s1.issued, s1.requests[id]) {
      assert RecordOk(s.cfg, s.issued, s.requests[id]);
      hide RecordsOk, RecordOk;
      RestoredOk(s, cur, p.saved, p.now, s.requests[id]);
    }
  }

  /** What was handed out agrees with the saved requests on generations, and nothing was handed out twice. */
  ghost predicate Agrees(s: State, handed: set<Handout>) {
    && HandedOnce(handed)
    && forall h :: h in handed && IsCurrent(s, h.request, h.attempt) ==>
        h.generation == s.requests[h.request].generation
  }

  /** No queued request's current attempt was handed out. */
  ghost predicate Unhanded(s: State, handed: set<Handout>) {
    forall h :: h in handed && IsCurrent(s, h.request, h.attempt) ==> s.requests[h.request].state != RequestState.Queued
  }

  lemma RevivedHands(s: State, handed: set<Handout>, cur: State, p: Passage, s1: State)
    requires Succeeds(s, handed, cur) && Agrees(s, handed) && s1.requests == Taken(s, cur, p).requests
    requires s1.cfg == cur.cfg && s1.issued == cur.issued
    ensures HandedOk(s1, handed) <==> Unhanded(s, handed)
  {
    forall id, x ensures IsCurrent(s1, id, x) <==> IsCurrent(s, id, x) {}
    if HandedOk(s1, handed) {
      forall h | h in handed && IsCurrent(s, h.request, h.attempt)
        ensures s.requests[h.request].state != RequestState.Queued
      {
        assert HandoutOk(s1, h);
      }
    }
    if Unhanded(s, handed) {
      forall h | h in handed ensures HandoutOk(s1, h) {}
    }
  }

  lemma RevivedWorkers(s: State, handed: set<Handout>, cur: State, p: Passage, s1: State)
    requires s1.requests == Taken(s, cur, p).requests && s1.fleet == Taken(s, cur, p).fleet
    ensures FlightsOk(s1, handed) && BaselineOk(s1, handed)
  {
    var rs, ws := s1.requests, s1.fleet.workers;
    forall w, id ensures id !in FlightAt(s1.fleet, w) {}
    forall w, b | w in ws ensures BatchOk(rs, ws, w, b) {}
    forall id | id in rs ensures MemberOk(rs, ws, handed, id) {}
  }

  lemma RevivedCounts(s: State, cur: State, p: Passage, s1: State)
    requires AdmissionOk(s) && s1.requests == Taken(s, cur, p).requests
    requires s1.cfg == cur.cfg == s.cfg.(salt := cur.cfg.salt)
    requires SameAdmitted(Taken(s, cur, p).ledger, s1.ledger)
    ensures AdmissionOk(s1)
  {
    hide IsTerminal, Reread, Written;
    assert OpenIds(s1.requests) == OpenIds(s.requests);
    forall t ensures TenantAt(s1.ledger, t).admitted == |OpenOf(s1.requests, t)| <= Max(1, s1.cfg.tenantConcurrency) {
      assert OpenOf(s1.requests, t) == OpenOf(s.requests, t);
      assert TenantAt(s1.ledger, t).admitted == TenantAt(Taken(s, cur, p).ledger, t).admitted;
    }
  }

  lemma RevivedUnits(s: State, cur: State, p: Passage, s1: State)
    requires s1.requests == Taken(s, cur, p).requests && s1.fleet == Taken(s, cur, p).fleet
    ensures UnitsOk(s1) <==> s.fleet.reserved == 0 && s.fleet.running == 0
  {
    var ws := s1.fleet.workers;
    forall w | w in ws ensures ws[w].reserved == 0 && ws[w].running == 0 && Booked(ws[w]) {
      assert UnstartedUnits(ws[w]) == map[] && StartedUnits(ws[w]) == map[];
    }
    TotalZero(ReservedBy(ws));
    TotalZero(RunningBy(ws));
  }

  /** Everything a run relies on, except the units. */
  ghost predicate Sound(s: State, handed: set<Handout>) {
    ProtocolOk(s, handed) && AdmissionOk(s) && TenantsRight(s, false)
  }

  lemma GenerationsSpent(s: State, handed: set<Handout>, cur: State, p: Passage)
    requires Succeeds(s, handed, cur)
    ensures var rs := Taken(s, cur, p).requests; forall id :: id in rs ==> Spent(cur.cfg, cur.issued, rs[id].generation)
  {
  }

  lemma RevivedQueue(s: State, handed: set<Handout>, cur: State, p: Passage)
    requires Loadable(s, p.walks, p.doubles, p.saved) && Succeeds(s, handed, cur) && RecordsOk(s)
    requires Enumerates(p.order, WaitingIds(Taken(s, cur, p).requests))
    ensures var s0, s1 := Taken(s, cur, p), EnqueueAll(Taken(s, cur, p), p.order, p.now);
            && s1.requests == s0.requests && QueueOk(s1) && TenantsRight(s1, true)
            && s1.cfg == cur.cfg && s1.issued == cur.issued && s1.fleet == s0.fleet
                && SameAdmitted(s0.ledger, s1.ledger)
  {
    hide Loaded, StateVal, EnqueueAll, RecordsOk, Rebuilding, IndexAgrees, HeapsAgree, QueuedOf, WaitingIds, Enumerates,
         Writable, Restored, Emptied, NamesSpent, Spent;
    var r := Taken(s, cur, p);
    LoadedBack(s, cur, p.walks, p.extras, p.doubles, p.saved, p.now);
    EnqueueAllFrame(r, p.order, p.now);
    GenerationsSpent(s, handed, cur, p);
    RecoveredQueue(cur, Payload(s, p), p.doubles, p.now, p.order);
    RebuiltRequests(s, cur, p, EnqueueAll(r, p.order, p.now));
  }

  /** A recovered scheduler satisfies every invariant that the saved one satisfied: records, queue, admission
      counters, batches. The tenants' queued counts are exact again. It is fit to go on, with reports about whatever
      was handed out, exactly when no request that was saved as queued had its current attempt handed out. Its units
      are right exactly when nothing was reserved or running at the time of the save. */
  lemma RecoveredIsSound(s: State, handed: set<Handout>, cur: State, p: Passage)
    requires Storable(s, p) && RecordsOk(s) && AdmissionOk(s) && Agrees(s, handed) && Succeeds(s, handed, cur)
    requires Enumerates(p.order, WaitingIds(Taken(s, cur, p).requests))
    ensures Recover(cur, File(s, p), p).Some?
    ensures var s1 := Recover(cur, File(s, p), p).value;
            && RecordsOk(s1) && QueueOk(s1) && AdmissionOk(s1) && TenantsRight(s1, true) && BaselineOk(s1, handed)
            && (Sound(s1, handed) <==> Unhanded(s, handed))
            && (UnitsOk(s1) <==> s.fleet.reserved == 0 && s.fleet.running == 0)
            && s1.requests == Taken(s, cur, p).requests
  {
    hide QueueOk, RecordsOk, HandedOk, HandedOnce, FlightsOk, AdmissionOk, Recover, File, Revived, EnqueueAll,
         Enumerates, Loadable, BaselineOk, UnitsOk, Binary.Conforms, Binary.Limited, Binary.Encode, StateVal,
         WaitingIds, SameAdmitted, QueuedRight, NamesSpent, Spent, Unhanded;
    RecoversWhatWasSaved(s, cur, p);
    var s1 := EnqueueAll(Taken(s, cur, p), p.order, p.now);
    RevivedQueue(s, handed, cur, p);
    RevivedRecords(s, handed, cur, p, s1);
    RevivedHands(s, handed, cur, p, s1);
    RevivedWorkers(s, handed, cur, p, s1);
    RevivedCounts(s, cur, p, s1);
    RevivedUnits(s, cur, p, s1);
    ExactIsRight(s1);
  }

  lemma ExactIsRight(s: State)
    requires TenantsRight(s, true)
    ensures TenantsRight(s, false)
  {
  }

  // ----- runs that go on -----

  /** Everything handed out before state i, when handed had been before the first. */
  ghost function HandedSince(tr: Trace, handed: set<Handout>, i: nat): set<Handout>
    requires |tr.states| == |tr.events| + 1 && i < |tr.states|
  {
    if i == 0 then handed else HandedSince(tr, handed, i - 1) + HandedBy(tr.events[i - 1], tr.states[i])
  }

  /** A protocol run that starts anywhere. */
  ghost predicate RunsOn(tr: Trace, handed: set<Handout>) {
    && |tr.states| == |tr.events| + 1
    && forall i :: 0 <= i < |tr.events| ==>
         Step(tr.states[i], tr.events[i], tr.states[i + 1])
             && EnvOk(tr.states[i], tr.events[i], HandedSince(tr, handed, i))
  }

  lemma SoundStep(s: State, e: Event, s1: State, handed: set<Handout>)
    requires Sound(s, handed) && Step(s, e, s1) && EnvOk(s, e, handed)
    ensures Sound(s1, handed + HandedBy(e, s1))
  {
    hide Step, QueueOk, RecordsOk, HandedOk, HandedOnce, FlightsOk, AdmissionOk, FreshId, TenantsRight, CancelsHeld;
    StepProtocol(s, e, s1, handed);
    StepAdmission(s, e, s1);
    StepTenants(s, e, s1, handed, false);
  }

  /** Soundness is kept in every state of every run that goes on from a sound state. */
  lemma {:induction false} StaysSound(tr: Trace, handed: set<Handout>, i: nat)
    requires RunsOn(tr, handed) && i < |tr.states| && Sound(tr.states[0], handed)
    ensures Sound(tr.states[i], HandedSince(tr, handed, i))
  {
    hide Step, EnvOk, Sound, HandedBy;
    if i > 0 {
      StaysSound(tr, handed, i - 1);
      SoundStep(tr.states[i - 1], tr.events[i - 1], tr.states[i], HandedSince(tr, handed, i - 1));
    }
  }

  /** With workers that stay and no reserved request cancelled, units and batches stay right too. */
  lemma {:induction false} StaysOrderly(tr: Trace, handed: set<Handout>, i: nat)
    requires RunsOn(tr, handed) && i < |tr.states| && Sound(tr.states[0], handed)
    requires UnitsOk(tr.states[0]) && BaselineOk(tr.states[0], handed)
    requires forall k :: 0 <= k < i ==>
        KeepsWorkers(tr.states[k], tr.events[k]) && !CancelsReserved(tr.states[k], tr.events[k])
    ensures UnitsOk(tr.states[i]) && BaselineOk(tr.states[i], HandedSince(tr, handed, i))
  {
    hide Step, EnvOk, KeepsWorkers, CancelsReserved, UnitsOk, BaselineOk, QueueOk, HandedOk, HandedOnce, FlightsOk,
         RecordsOk, AdmissionOk, TenantsRight;
    if i > 0 {
      StaysOrderly(tr, handed, i - 1);
      StaysSound(tr, handed, i - 1);
      var s, e, s1 := tr.states[i - 1], tr.events[i - 1], tr.states[i];
      assert Step(s, e, s1) && KeepsWorkers(s, e);
      StepUnits(s, e, s1);
      StepBaseline(s, e, s1, HandedSince(tr, handed, i - 1));
    }
  }
}
