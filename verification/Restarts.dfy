/** Worker restarts: exactly when the units and the batches survive a worker that
    comes back under a new boot identity or is removed. */
module Restarts {
  import opened Types
  import opened Collections
  import opened ReadyQueue
  import opened Fleets
  import opened Batching
  import opened Machine
  import opened Lifecycle
  import opened Protocol
  import opened Reservations
  import opened Baseline
  import opened Leaks

  // ----- the units -----

  lemma UnitsAddUp(r: Worker)
    requires Booked(r)
    ensures Total(r.batchUnits) == r.reserved + r.running
  {
    TotalMerge(UnstartedUnits(r), StartedUnits(r));
    assert r.batchUnits == UnstartedUnits(r) + StartedUnits(r);
  }

  /** Clearing a lost worker takes every batch off the reserved side. The books stay right
      exactly when nothing was running. */
  lemma ClearWorkerExact(f: Fleet, w: Id)
    requires Conserved(f) && w in f.workers
    ensures Conserved(ClearWorker(f, w)) <==> f.workers[w].running == 0
  {
    var r, f1 := f.workers[w], ClearWorker(f, w);
    var r1 := f1.workers[w];
    BookedNonNegative(r);
    UnitsAddUp(r);
    GlobalCovers(f, w);
    assert UnstartedUnits(r1) == map[] && StartedUnits(r1) == map[];
    if r.running == 0 {
      ReplaceWorker(f, w, r1, f1);
    } else {
      assert !Booked(r1);
    }
  }

  lemma RunningNothing(r: Worker)
    requires Booked(r) && forall b :: (b in r.batchUnits ==> r.batchUnits[b] >= 1) && (b in r.started ==>
        b in r.batchUnits)
    ensures r.running == 0 <==> r.started == {}
  {
    if r.started == {} {
      assert StartedUnits(r) == map[];
    } else {
      var b :| b in r.started;
      TotalAtLeast(StartedUnits(r), b);
    }
  }

  /** Recovering one request in flight takes it out of its batch, and the batch off the worker
      if it was the last. */
  lemma RecoverOneEffect(s: State, w: Id, id: Id, now: Time, handed: set<Handout>, c: Id)
    requires ProtocolOk(s, handed) && BaselineOk(s, handed) && w in s.fleet.workers && id in s.fleet.workers[w].inFlight
    ensures var s1 := RecoverOne(s, w, id, now);
            && BaselineOk(s1, handed)
            && Members(s1.requests, c) == Members(s.requests, c) - {id}
            && w in s1.fleet.workers
            && (c in s1.fleet.workers[w].started <==> c in s.fleet.workers[w].started && Members(s1.requests, c) != {})
  {
    hide BatchesOk, QueueOk, RecordsOk, HandedOk, HandedOnce, FlightsOk, IsTerminal, MakeRetry, Finish, CanRetry;
    InFlightMember(s, handed, w, id);
    var s1 := RecoverOne(s, w, id, now);
    if IsTerminal(s.requests[id].state) {
      StartedHasMembers(s, handed, w, c);
      assert Members(s1.requests, c) == Members(s.requests, c) - {id};
    } else {
      RecoverShape(s, w, id, now);
      hide RecoverOne;
      TakenOff(s, s1, handed, w, id, s1.requests[id]);
      MembersChange(s.requests, id, s1.requests[id], c);
      ReleasedKeys(s.fleet, w, id, s.requests[id].batch);
      RecoverStarted(s, w, id, s1, handed, c);
    }
  }

  lemma StartedHasMembers(s: State, handed: set<Handout>, w: Id, c: Id)
    requires BaselineOk(s, handed) && w in s.fleet.workers
    ensures c in s.fleet.workers[w].started ==> Members(s.requests, c) != {}
  {
    assert BatchOk(s.requests, s.fleet.workers, w, c);
  }

  lemma InFlightMember(s: State, handed: set<Handout>, w: Id, id: Id)
    requires FlightsOk(s, handed) && BaselineOk(s, handed) && w in s.fleet.workers && id in s.fleet.workers[w].inFlight
    ensures id in s.requests
    ensures IsTerminal(s.requests[id].state) ==> s.requests[id].batch == None
    ensures !IsTerminal(s.requests[id].state) ==>
        Handout(w, id, s.requests[id].attempt, s.requests[id].generation) in handed
  {
    assert FlightOk(s, handed, w, id);
    assert MemberOk(s.requests, s.fleet.workers, handed, id);
  }

  lemma RecoverShape(s: State, w: Id, id: Id, now: Time)
    requires w in s.fleet.workers && id in s.requests && !IsTerminal(s.requests[id].state)
    ensures var s1 := RecoverOne(s, w, id, now);
            && id in s1.requests && s1.requests == s.requests[id := s1.requests[id]] && s1.requests[id].batch == None
            && s1.fleet == ReleaseMember(s.fleet, w, id, s.requests[id].batch)
  {
    RetryShape(s, id, w, now);
    hide ReleaseMember, MakeRetry;
  }

  lemma RecoverStarted(s: State, w: Id, id: Id, s1: State, handed: set<Handout>, c: Id)
    requires BaselineOk(s, handed) && HandedOnce(handed) && w in s.fleet.workers && id in s.requests
    requires Handout(w, id, s.requests[id].attempt, s.requests[id].generation) in handed
    requires s1.fleet == ReleaseMember(s.fleet, w, id, s.requests[id].batch) && w in s1.fleet.workers
    requires Members(s1.requests, c) == Members(s.requests, c) - {id}
    ensures c in s1.fleet.workers[w].started <==> c in s.fleet.workers[w].started && Members(s1.requests, c) != {}
  {
    assert BatchOk(s.requests, s.fleet.workers, w, c);
    if s.requests[id].batch.Some? {
      var b := s.requests[id].batch.value;
      ReporterHolds(s.requests, s.fleet.workers, handed, w, id);
      assert BatchOk(s.requests, s.fleet.workers, w, b);
      ReleasedMaps(s.fleet, w, id, b, w, c);
      assert c == b <==> id in Members(s.requests, c);
    } else {
      assert id !in Members(s.requests, c);
      assert Members(s1.requests, c) == Members(s.requests, c);
      assert s1.fleet.workers[w].started == s.fleet.workers[w].started;
    }
  }

  lemma {:induction false} RecoverEffect(s: State, w: Id, order: seq<Id>, now: Time, handed: set<Handout>, c: Id)
    requires ProtocolOk(s, handed) && BaselineOk(s, handed) && w in s.fleet.workers
    requires Distinct(order) && forall i :: 0 <= i < |order| ==> order[i] in FlightAt(s.fleet, w)
    ensures var s1 := RecoverRequests(s, w, order, now);
            && BaselineOk(s1, handed)
            && Members(s1.requests, c) == Members(s.requests, c) - Elements(order)
            && w in s1.fleet.workers
            && (c in s1.fleet.workers[w].started <==> c in s.fleet.workers[w].started && Members(s1.requests, c) != {})
    decreases |order|
  {
    hide ProtocolOk, BaselineOk, RecoverOne, Members;
    if order != [] {
      var s1 := RecoverOne(s, w, order[0], now);
      RecoverOneEffect(s, w, order[0], now, handed, c);
      RecoverOneProtocol(s, w, order[0], now, handed);
      forall i | 0 <= i < |order[1..]| ensures order[1..][i] in FlightAt(s1.fleet, w) {
        assert order[1..][i] == order[i + 1];
      }
      hide FlightAt;
      RecoverEffect(s1, w, order[1..], now, handed, c);
      assert Elements(order) == Elements(order[1..]) + {order[0]};
    } else {
      StartedHasMembers(s, handed, w, c);
      assert Elements(order) == {};
    }
  }

  /** What is left on a lost worker once everything in flight was recovered. */
  lemma RestartLeaves(s: State, w: Id, order: seq<Id>, now: Time, handed: set<Handout>)
    requires ProtocolOk(s, handed) && BaselineOk(s, handed) && w in s.fleet.workers
        && Enumerates(order, InFlightOn(s, w))
    ensures var s1, r := RecoverRequests(s, w, order, now), s.fleet.workers[w];
            && BaselineOk(s1, handed) && w in s1.fleet.workers
            && forall b :: b in s1.fleet.workers[w].started <==>
                b in r.started && !(Members(s.requests, b) <= r.inFlight)
  {
    hide ProtocolOk, BaselineOk, RecoverRequests, Members;
    var s1, r := RecoverRequests(s, w, order, now), s.fleet.workers[w];
    forall i | 0 <= i < |order| ensures order[i] in FlightAt(s.fleet, w) { assert order[i] in order; }
    AllElements(order, r.inFlight);
    hide Enumerates, FlightAt, Elements;
    RecoverEffect(s, w, order, now, handed, 0);
    forall b ensures b in s1.fleet.workers[w].started <==> b in r.started && !(Members(s.requests, b) <= r.inFlight) {
      RecoverEffect(s, w, order, now, handed, b);
      SomeOutside(Members(s.requests, b), r.inFlight);
    }
  }

  lemma SomeOutside(a: set<Id>, b: set<Id>)
    ensures a - b != {} <==> !(a <= b)
  {
    if !(a <= b) {
      var x :| x in a && x !in b;
      assert x in a - b;
    }
  }

  lemma AllElements(order: seq<Id>, s: set<Id>)
    requires Enumerates(order, s)
    ensures Elements(order) == s && Distinct(order)
  {
  }

  lemma BatchesSound(s: State, handed: set<Handout>, w: Id)
    requires BaselineOk(s, handed) && w in s.fleet.workers
    ensures var r := s.fleet.workers[w];
            forall b :: (b in r.batchUnits ==> r.batchUnits[b] >= 1) && (b in r.started ==> b in r.batchUnits)
  {
    var r := s.fleet.workers[w];
    forall b ensures (b in r.batchUnits ==> r.batchUnits[b] >= 1) && (b in r.started ==> b in r.batchUnits) {
      assert BatchOk(s.requests, s.fleet.workers, w, b);
    }
  }

  /** After a restart the books are right exactly when every request of every batch that the old
      worker had started was in flight on it, that is, confirmed. */
  lemma RestartExact(s: State, w: Id, order: seq<Id>, now: Time, handed: set<Handout>)
    requires ProtocolOk(s, handed) && BaselineOk(s, handed) && UnitsOk(s) && w in s.fleet.workers
    requires Enumerates(order, InFlightOn(s, w))
    ensures Conserved(RecoverInFlight(s, w, order, now).fleet) <==>
            forall b :: b in s.fleet.workers[w].started ==> Members(s.requests, b) <= s.fleet.workers[w].inFlight
  {
    var s1 := RecoverRequests(s, w, order, now);
    RestartLeaves(s, w, order, now, handed);
    RecoverUnits(s, w, order, now);
    BatchesSound(s1, handed, w);
    hide ProtocolOk, BaselineOk, RecoverRequests, Members, BatchIdsIssued;
    ClearWorkerExact(s1.fleet, w);
    RunningNothing(s1.fleet.workers[w]);
    hide Conserved, Booked;
    assert s1.fleet.workers[w].started == {} <==> forall b :: b !in s1.fleet.workers[w].started;
  }

  /** The same holds of the whole registration under a new boot identity. */
  lemma RegisterExact(s: State, reg: Registration, now: Time, order: seq<Id>, handed: set<Handout>)
    requires ProtocolOk(s, handed) && BaselineOk(s, handed) && UnitsOk(s) && IsRestart(s, reg)
    requires Enumerates(order, InFlightOn(s, reg.worker))
    ensures Conserved(Register(s, reg, now, order).fleet) <==>
            forall b :: b in s.fleet.workers[reg.worker].started ==>
              Members(s.requests, b) <= s.fleet.workers[reg.worker].inFlight
  {
    var w := reg.worker;
    RestartExact(s, w, order, now, handed);
    RestartLeaves(s, w, order, now, handed);
    hide ProtocolOk, BaselineOk, Members, RecoverRequests;
    var f := RecoverInFlight(s, w, order, now).fleet;
    assert w in f.workers && f.workers[w].reserved >= 0;
    SameBooksExact(f, w, Registered(f.workers[w], reg));
  }

  /** And of removing the worker. */
  lemma UnregisterExact(s: State, w: Id, now: Time, order: seq<Id>, handed: set<Handout>)
    requires ProtocolOk(s, handed) && BaselineOk(s, handed) && UnitsOk(s) && w in s.fleet.workers
    requires Enumerates(order, InFlightOn(s, w))
    ensures Conserved(Unregister(s, w, now, order).fleet) <==>
            forall b :: b in s.fleet.workers[w].started ==> Members(s.requests, b) <= s.fleet.workers[w].inFlight
  {
    RestartExact(s, w, order, now, handed);
    RestartLeaves(s, w, order, now, handed);
    RecoverUnits(s, w, order, now);
    hide ProtocolOk, BaselineOk, Members, RecoverRequests, BatchIdsIssued;
    var f := RecoverRequests(s, w, order, now).fleet;
    ClearWorkerExact(f, w);
    EraseExact(f, w);
  }

  lemma SameBooksExact(f: Fleet, w: Id, r: Worker)
    requires w in f.workers
    requires r.reserved == f.workers[w].reserved && r.running == f.workers[w].running
    requires r.batchUnits == f.workers[w].batchUnits && r.started == f.workers[w].started
        && r.batchPending == f.workers[w].batchPending
    ensures Conserved(f.(workers := f.workers[w := r])) <==> Conserved(f)
  {
    hide Conserved;
    var f1 := f.(workers := f.workers[w := r]);
    if Conserved(f) { SameBooks(f, w, r); }
    if Conserved(f1) {
      SameBooks(f1, w, f.workers[w]);
      assert f1.workers[w := f.workers[w]] == f.workers;
    }
  }

  lemma EraseExact(f: Fleet, w: Id)
    requires Conserved(f) && w in f.workers
    ensures var f1 := ClearWorker(f, w);
            Conserved(f1.(workers := f1.workers - {w})) <==> f.workers[w].running == 0
  {
    hide Booked, ReservedBy, RunningBy;
    var r, f1 := f.workers[w], ClearWorker(f, w);
    BookedUnits(r);
    GlobalCovers(f, w);
    ErasedTotals(f.workers, w);
    assert f1.workers - {w} == f.workers - {w};
  }

  lemma BookedUnits(r: Worker)
    requires Booked(r)
    ensures r.reserved >= 0 && r.running >= 0 && Total(r.batchUnits) == r.reserved + r.running
  {
    BookedNonNegative(r);
    UnitsAddUp(r);
  }

  lemma ErasedTotals(ws: map<Id, Worker>, w: Id)
    requires AllBooked(ws) && w in ws
    ensures AllBooked(ws - {w})
    ensures Total(ReservedBy(ws - {w})) == Total(ReservedBy(ws)) - ws[w].reserved
    ensures Total(RunningBy(ws - {w})) == Total(RunningBy(ws)) - ws[w].running
  {
    hide Booked;
    assert ReservedBy(ws - {w}) == ReservedBy(ws) - {w} && RunningBy(ws - {w}) == RunningBy(ws) - {w};
    TotalRemove(ReservedBy(ws), w);
    TotalRemove(RunningBy(ws), w);
  }

  // ----- the batches -----

  lemma RecoverOneShrinks(s: State, w: Id, id: Id, now: Time)
    ensures BatchesShrink(s.fleet, RecoverOne(s, w, id, now).fleet)
  {
    if id in s.requests {
      ReleaseShrinks(s.fleet, w, id, s.requests[id].batch);
      RetryShape(s, id, w, now);
    }
    hide ReleaseMember, MakeRetry;
  }

  lemma ShrinksTrans(f: Fleet, f1: Fleet, f2: Fleet)
    requires BatchesShrink(f, f1) && BatchesShrink(f1, f2)
    ensures BatchesShrink(f, f2)
  {
  }

  lemma {:induction false} RecoverShrinks(s: State, w: Id, order: seq<Id>, now: Time)
    ensures BatchesShrink(s.fleet, RecoverRequests(s, w, order, now).fleet)
    decreases |order|
  {
    if order != [] {
      hide RecoverOne, BatchesShrink;
      var s1 := RecoverOne(s, w, order[0], now);
      RecoverOneShrinks(s, w, order[0], now);
      RecoverShrinks(s1, w, order[1..], now);
      ShrinksTrans(s.fleet, s1.fleet, RecoverRequests(s1, w, order[1..], now).fleet);
    }
  }

  /** Every request of every batch on worker w is in flight there, that is, confirmed. */
  ghost predicate AllConfirmed(s: State, w: Id)
    requires w in s.fleet.workers
  {
    forall b :: b in s.fleet.workers[w].batchUnits ==> Members(s.requests, b) <= s.fleet.workers[w].inFlight
  }

  /** Before the worker is cleared: the batches are right, those left on it have members left, and nothing
      was added. */
  lemma RecoveredBatches(s: State, w: Id, order: seq<Id>, now: Time, handed: set<Handout>, b: Id)
    requires ProtocolOk(s, handed) && BaselineOk(s, handed) && w in s.fleet.workers
        && Enumerates(order, InFlightOn(s, w))
    ensures var s1 := RecoverRequests(s, w, order, now);
            && BaselineOk(s1, handed) && BatchesShrink(s.fleet, s1.fleet)
            && Members(s1.requests, b) == Members(s.requests, b) - s.fleet.workers[w].inFlight
  {
    hide ProtocolOk, BaselineOk, RecoverRequests, Members;
    forall i | 0 <= i < |order| ensures order[i] in FlightAt(s.fleet, w) { assert order[i] in order; }
    AllElements(order, s.fleet.workers[w].inFlight);
    hide Enumerates, FlightAt, Elements;
    RecoverEffect(s, w, order, now, handed, b);
    RecoverShrinks(s, w, order, now);
  }

  lemma ClearedBreaks(s: State, handed: set<Handout>, w: Id, s1: State, s2: State, b: Id, id: Id)
    requires BaselineOk(s, handed) && w in s.fleet.workers && b in s.fleet.workers[w].batchUnits
    requires BatchesShrink(s.fleet, s1.fleet) && id in s1.requests && s1.requests[id].batch == Some(b)
    requires s2.requests == s1.requests && s2.fleet == ClearWorker(s1.fleet, w)
    ensures !BaselineOk(s2, handed)
  {
    assert BatchOk(s.requests, s.fleet.workers, w, b);
    hide Members;
    assert !MemberOk(s2.requests, s2.fleet.workers, handed, id);
  }

  lemma ClearedKeeps(s1: State, handed: set<Handout>, w: Id, s2: State)
    requires BaselineOk(s1, handed) && w in s1.fleet.workers && s1.fleet.workers[w].batchUnits == map[]
    requires s2.requests == s1.requests && s2.fleet == ClearWorker(s1.fleet, w)
    ensures BaselineOk(s2, handed)
  {
    var r := s1.fleet.workers[w];
    forall b ensures b !in r.started && b !in r.batchPending { assert BatchOk(s1.requests, s1.fleet.workers, w, b); }
    assert r.batchPending == map[] && r.started == {};
    hide BatchesOk;
    OtherWorkers(s1.requests, s1.fleet.workers, handed, s2.fleet.workers);
  }

  lemma NothingLeft(s: State, w: Id, order: seq<Id>, now: Time, handed: set<Handout>)
    requires ProtocolOk(s, handed) && BaselineOk(s, handed) && w in s.fleet.workers
        && Enumerates(order, InFlightOn(s, w))
    requires AllConfirmed(s, w)
    ensures var s1 := RecoverRequests(s, w, order, now);
            w in s1.fleet.workers && BaselineOk(s1, handed) && s1.fleet.workers[w].batchUnits == map[]
  {
    var s1 := RecoverRequests(s, w, order, now);
    RecoveredBatches(s, w, order, now, handed, 0);
    hide ProtocolOk, RecoverRequests, Enumerates, Members;
    forall b ensures b !in s1.fleet.workers[w].batchUnits {
      RecoveredBatches(s, w, order, now, handed, b);
      assert BatchOk(s1.requests, s1.fleet.workers, w, b);
    }
  }

  /** Recovery walks the requests in flight, and a reserved request is not in flight yet. A restart keeps the
      batches right exactly when every request of every batch on the worker was confirmed. */
  lemma RestartBatchesExact(s: State, w: Id, order: seq<Id>, now: Time, handed: set<Handout>)
    requires ProtocolOk(s, handed) && BaselineOk(s, handed) && w in s.fleet.workers
        && Enumerates(order, InFlightOn(s, w))
    ensures BaselineOk(RecoverInFlight(s, w, order, now), handed) <==> AllConfirmed(s, w)
  {
    hide ProtocolOk, BaselineOk, RecoverRequests, Enumerates, Members, ClearWorker;
    var s1, s2 := RecoverRequests(s, w, order, now), RecoverInFlight(s, w, order, now);
    RecoveredBatches(s, w, order, now, handed, 0);
    if AllConfirmed(s, w) {
      NothingLeft(s, w, order, now, handed);
      ClearedKeeps(s1, handed, w, s2);
    } else {
      var b :| b in s.fleet.workers[w].batchUnits && !(Members(s.requests, b) <= s.fleet.workers[w].inFlight);
      RecoveredBatches(s, w, order, now, handed, b);
      assert Members(s1.requests, b) != {} by { SomeOutside(Members(s.requests, b), s.fleet.workers[w].inFlight); }
      var id :| id in Members(s1.requests, b);
      MemberIsIn(s1.requests, b, id);
      ClearedBreaks(s, handed, w, s1, s2, b, id);
    }
  }

  lemma MemberIsIn(rs: map<Id, Request>, b: Id, id: Id)
    requires id in Members(rs, b)
    ensures id in rs && rs[id].batch == Some(b)
  {
  }

  /** The same of the whole registration under a new boot identity. */
  lemma RegisterBatchesExact(s: State, reg: Registration, now: Time, order: seq<Id>, handed: set<Handout>)
    requires ProtocolOk(s, handed) && BaselineOk(s, handed) && IsRestart(s, reg)
        && Enumerates(order, InFlightOn(s, reg.worker))
    ensures BaselineOk(Register(s, reg, now, order), handed) <==> AllConfirmed(s, reg.worker)
  {
    hide ProtocolOk, BaselineOk, RecoverInFlight, Enumerates, AllConfirmed;
    RestartBatchesExact(s, reg.worker, order, now, handed);
    var s1 := RecoverInFlight(s, reg.worker, order, now);
    StillRegistered(s, reg.worker, order, now);
    SameBatchesExact(s1, handed, reg.worker, Registered(s1.fleet.workers[reg.worker], reg),
        Register(s, reg, now, order));
  }

  lemma StillRegistered(s: State, w: Id, order: seq<Id>, now: Time)
    requires w in s.fleet.workers
    ensures w in RecoverInFlight(s, w, order, now).fleet.workers
  {
    RecoverShrinks(s, w, order, now);
    hide RecoverRequests;
  }

  /** Editing a worker's record without touching its batches changes nothing about the batches. */
  lemma SameBatchesExact(s: State, handed: set<Handout>, w: Id, r: Worker, s1: State)
    requires w in s.fleet.workers && s1.requests == s.requests && s1.fleet.workers == s.fleet.workers[w := r]
    requires r.batchUnits == s.fleet.workers[w].batchUnits && r.batchPending == s.fleet.workers[w].batchPending
    requires r.started == s.fleet.workers[w].started
    ensures BaselineOk(s1, handed) <==> BaselineOk(s, handed)
  {
    hide BatchesOk;
    if BaselineOk(s, handed) { OtherWorkers(s.requests, s.fleet.workers, handed, s1.fleet.workers); }
    if BaselineOk(s1, handed) { OtherWorkers(s1.requests, s1.fleet.workers, handed, s.fleet.workers); }
  }

  // ----- in orderly runs a running request is in flight where its batch is -----

  predicate InBatchOn(s: State, w: Id, id: Id) {
    id in s.requests && w in s.fleet.workers && s.requests[id].batch.Some?
        && s.requests[id].batch.value in s.fleet.workers[w].batchUnits
  }

  predicate FliesOn(s: State, w: Id, id: Id) {
    InBatchOn(s, w, id) && s.requests[id].state == RequestState.Running ==> id in s.fleet.workers[w].inFlight
  }

  ghost predicate Flying(s: State) { forall w, id :: FliesOn(s, w, id) }

  lemma FinishCancelledFlying(s: State, id: Id, v: Id)
    requires Flying(s) && id in s.requests
    ensures Flying(FinishCancelled(s, id, v))
  {
    var s1 := FinishCancelled(s, id, v);
    forall w, i ensures FliesOn(s1, w, i) {
      assert FliesOn(s, w, i);
      ReleaseMaps(s.fleet, v, id, s.requests[id].batch, w);
      hide ReleaseMember, Remove;
    }
  }

  lemma ReleaseMaps(f: Fleet, v: Id, id: Id, batch: Option<Id>, w: Id)
    ensures var ws := ReleaseMember(f, v, id, batch).workers;
            && (w in ws <==> w in f.workers)
            && (w in ws ==>
                ws[w].batchUnits.Keys <= f.workers[w].batchUnits.Keys && f.workers[w].inFlight - {id} <= ws[w].inFlight)
  {
  }

  lemma {:induction false} CancelAllFlying(s: State, order: seq<Id>)
    requires Flying(s)
    ensures Flying(CancelAll(s, order))
    decreases |order|
  {
    hide Flying, FinishCancelled;
    if order != [] {
      if order[0] in s.requests { FinishCancelledFlying(s, order[0], NO_ID); }
      CancelAllFlying(if order[0] in s.requests then FinishCancelled(s, order[0], NO_ID) else s, order[1..]);
    }
  }

  lemma ExpireAllFlying(s: State, order: seq<Id>)
    requires Flying(s)
    ensures Flying(ExpireAll(s, order))
  {
    var s1 := ExpireAll(s, order);
    ExpireAllFrame(s, order);
    hide ExpireAll;
    forall w, i ensures FliesOn(s1, w, i) {
      assert FliesOn(s, w, i);
      ExpireAllEffect(s, order, i);
    }
  }

  lemma LeavesFlying(s: State, s1: State, v: Id, id: Id)
    requires Flying(s) && id in s.requests && Leaves(s, s1, v, id)
    ensures Flying(s1)
  {
    forall w, i ensures FliesOn(s1, w, i) {
      assert FliesOn(s, w, i);
      ReleaseMaps(s.fleet, v, id, s.requests[id].batch, w);
      hide ReleaseMember;
    }
  }

  lemma CompleteFlying(s: State, handed: set<Handout>, r: Report, now: Time)
    requires Flying(s) && RecordsOk(s) && HandedOk(s, handed)
        && Handout(r.worker, r.request, r.attempt, r.generation) in handed
    ensures Flying(Complete(s, r, now))
  {
    if Screen(s, r).None? {
      ReportedHeld(s, handed, r);
      hide Flying, RecordsOk, HandedOk, Complete, Leaves;
      CompleteLeaves(s, r, now);
      LeavesFlying(s, Complete(s, r, now), r.worker, r.request);
    }
  }

  lemma ConfirmFlying(s: State, handed: set<Handout>, r: Report)
    requires Flying(s) && BaselineOk(s, handed) && HandedOnce(handed)
        && Handout(r.worker, r.request, r.attempt, r.generation) in handed
    ensures Flying(Confirm(s, r))
  {
    if ConfirmAnswer(s, r) == Confirmed {
      ReporterHolds(s.requests, s.fleet.workers, handed, r.worker, r.request);
      assert BatchOk(s.requests, s.fleet.workers, r.worker, s.requests[r.request].batch.value);
      hide BaselineOk, HandedOnce, Members, ConfirmAnswer;
      forall w, i ensures FliesOn(Confirm(s, r), w, i) { assert FliesOn(s, w, i); }
    }
  }

  lemma CancelFlying(s: State, id: Id)
    requires Flying(s)
    ensures Flying(Cancel(s, id))
  {
    hide FinishCancelled;
    if id in s.requests {
      FinishCancelledFlying(s, id, LastWorker(s.requests[id].history));
      FinishCancelledFlying(s, id, NO_ID);
      if s.requests[id].state == RequestState.Running || s.requests[id].state == RequestState.Dispatched {
        forall w, i ensures FliesOn(Cancel(s, id), w, i) { assert FliesOn(s, w, i); }
      }
    }
  }

  lemma SubmitFlying(s: State, spec: Spec, pre: Option<Id>, now: Time)
    requires Flying(s) && FreshId(s, SubmitEvent(spec, pre, now))
    ensures Flying(Submit(s, spec, pre, now))
  {
    hide Admission, KeyWeight;
    forall w, i ensures FliesOn(Submit(s, spec, pre, now), w, i) { assert FliesOn(s, w, i); }
  }

  lemma ReserveFlying(s: State, members: seq<Id>, v: Id)
    requires Flying(s) && BatchIdsIssued(s) && v in s.fleet.workers && Distinct(members)
    requires forall i :: 0 <= i < |members| ==> members[i] in s.requests
    ensures Flying(Reserve(s, members, v))
  {
    var s0, s1 := Open(s, members, v), Reserve(s, members, v);
    ReserveAllFrame(s0, members, Fresh(s, 1));
    hide ReserveAll, BatchUnits;
    forall w, i ensures FliesOn(s1, w, i) {
      assert FliesOn(s, w, i);
      if i in s.requests { ReserveAllEffect(s0, members, Fresh(s, 1), i); }
    }
  }

  lemma PlanFlying(s: State, request: Id, now: Time, order: seq<Id>, out: PlanResult, s1: State)
    requires Plan(s, request, now, order, out, s1) && Flying(s) && UnitsOk(s)
    ensures Flying(s1)
  {
    hide Flying, UnitsOk;
    var s0 := ExpireAll(s, order);
    ExpireAllFlying(s, order);
    ExpireAllUnits(s, order);
    if out.Dispatch? {
      var members, v :| PlanBatch(s0, request, now, members, v, out, s1);
      BatchMembers(s0.cfg, s0.requests, s0.index, request, now, members);
      IssuedOf(s0);
      ReserveFlying(s0, members, v);
    } else if request in s0.requests && s0.requests[request].spec.Overdue(now) {
      ExpireAllFlying(s0, [request]);
      assert ExpireAll(s0, [request]) == ExpireAll(Expire(s0, request), []);
    }
  }

  lemma IssuedOf(s: State)
    requires UnitsOk(s)
    ensures BatchIdsIssued(s)
  {
  }

  lemma EditFlying(s: State, e: Event, s1: State)
    requires Step(s, e, s1) && KeepsWorkers(s, e) && Flying(s)
    requires e.RegisterEvent? || e.UnregisterEvent? || e.CapabilityEvent? || e.WorkerStateEvent? || e.DrainEvent?
        || e.EpochEvent?
    ensures Flying(s1)
  {
    hide RecoverInFlight;
    forall w, i ensures FliesOn(s1, w, i) { assert FliesOn(s, w, i); }
  }

  lemma StepFlying(s: State, e: Event, s1: State, handed: set<Handout>)
    requires ProtocolOk(s, handed) && UnitsOk(s) && BaselineOk(s, handed) && Flying(s)
    requires Step(s, e, s1) && EnvOk(s, e, handed) && KeepsWorkers(s, e)
    ensures Flying(s1)
  {
    hide Submit, Plan, Confirm, Complete, Cancel, CancelAll, Register, Unregister, UpdateCapability, SetWorkerState,
         Flying, KeepsWorkers, UnitsOk, BaselineOk, RecordsOk, QueueOk, HandedOk, HandedOnce, FlightsOk, FreshId,
         Pruned, Picked;
    match e
    case SubmitEvent(spec, pre, now) => SubmitFlying(s, spec, pre, now);
    case PickEvent(now, order, seed) =>
      ExpireAllFlying(s, order);
      SameFlying(ExpireAll(s, order), s1);
    case PlanEvent(request, now, order, out) => PlanFlying(s, request, now, order, out, s1);
    case ConfirmEvent(r) => ConfirmFlying(s, handed, r);
    case CompleteEvent(r, now) => CompleteFlying(s, handed, r, now);
    case CancelEvent(id) => CancelFlying(s, id);
    case CancelAllEvent(order) => CancelAllFlying(s, order);
    case _ => EditFlying(s, e, s1);
  }

  lemma SameFlying(s: State, s1: State)
    requires Flying(s) && s1.requests == s.requests && s1.fleet == s.fleet
    ensures Flying(s1)
  {
    forall w, i ensures FliesOn(s1, w, i) { assert FliesOn(s, w, i); }
  }

  lemma {:induction false} RunFlying(tr: Trace, i: nat)
    requires OrderlyRun(tr) && i < |tr.states| == |tr.events| + 1
    ensures Flying(tr.states[i])
  {
    hide Flying, ProtocolOk, UnitsOk, BaselineOk, Step, EnvOk, KeepsWorkers, CancelsReserved;
    if i > 0 {
      RunFlying(tr, i - 1);
      OrderlyState(tr, i - 1);
      OrderlyEvent(tr, i - 1);
      assert Step(tr.states[i - 1], tr.events[i - 1], tr.states[i]);
      StepFlying(tr.states[i - 1], tr.events[i - 1], tr.states[i], Handed(tr, i - 1));
    } else {
      EmptyFlying(tr.states[0]);
    }
  }

  lemma EmptyFlying(s: State)
    requires s.requests == map[]
    ensures Flying(s)
  {
  }

  /** Some request is reserved, but not confirmed, in a batch of worker w. */
  ghost predicate Strands(s: State, w: Id) {
    exists id :: InBatchOn(s, w, id) && s.requests[id].state == RequestState.Reserved
  }

  lemma ConfirmedExact(s: State, handed: set<Handout>, w: Id)
    requires ProtocolOk(s, handed) && BaselineOk(s, handed) && Flying(s) && w in s.fleet.workers
    ensures AllConfirmed(s, w) <==> !Strands(s, w)
  {
    hide QueueOk, RecordsOk, HandedOk, HandedOnce;
    if Strands(s, w) {
      var id :| InBatchOn(s, w, id) && s.requests[id].state == RequestState.Reserved;
      NotInFlight(s, handed, id, w);
      assert id in Members(s.requests, s.requests[id].batch.value);
    } else {
      forall b, id | b in s.fleet.workers[w].batchUnits
          && id in Members(s.requests, b) ensures id in s.fleet.workers[w].inFlight {
        assert MemberOk(s.requests, s.fleet.workers, handed, id);
        assert InBatchOn(s, w, id) && FliesOn(s, w, id);
      }
    }
  }

  /** In an orderly run a worker may come back under a new boot identity without harm to the batches exactly when no
      request is reserved on it and not yet confirmed. Such a request is neither retried nor failed: it keeps
      a batch that nobody holds. */
  lemma RestartInRuns(tr: Trace, i: nat, reg: Registration, now: Time, order: seq<Id>)
    requires OrderlyRun(tr) && i < |tr.states| == |tr.events| + 1
    requires IsRestart(tr.states[i], reg) && Enumerates(order, InFlightOn(tr.states[i], reg.worker))
    ensures BaselineOk(Register(tr.states[i], reg, now, order), Handed(tr, i)) <==> !Strands(tr.states[i], reg.worker)
  {
    hide OrderlyRun, Handed, ProtocolOk, UnitsOk, BaselineOk, Register, Enumerates, Strands, AllConfirmed, Flying;
    OrderlyState(tr, i);
    RunFlying(tr, i);
    RegisterBatchesExact(tr.states[i], reg, now, order, Handed(tr, i));
    ConfirmedExact(tr.states[i], Handed(tr, i), reg.worker);
  }
}
