/** Return to baseline: pending counts are exact, a batch is released with its
    last member and never comes back, and a worker with nothing to do holds
    nothing. */
module Baseline {
  import opened Types
  import opened Collections
  import opened ReadyQueue
  import opened Fleets
  import opened Batching
  import opened Machine
  import opened Lifecycle
  import opened Protocol
  import opened Reservations

  // ----- the invariant -----

  /** The requests that are in batch b. */
  ghost function Members(rs: map<Id, Request>, b: Id): set<Id> {
    set id | id in rs && rs[id].batch == Some(b)
  }

  predicate Held(st: RequestState) { st == RequestState.Reserved || st == RequestState.Running }

  /** Worker w was handed the current attempt of request id and holds its batch. */
  ghost predicate HoldsFor(rs: map<Id, Request>, ws: map<Id, Worker>, handed: set<Handout>, w: Id, id: Id)
    requires id in rs && rs[id].batch.Some?
  {
    && w in ws && rs[id].batch.value in ws[w].batchUnits
    && Handout(w, id, rs[id].attempt, rs[id].generation) in handed
  }

  /** A request in a batch is reserved or running, and some worker holds the batch for it. */
  ghost predicate MemberOk(rs: map<Id, Request>, ws: map<Id, Worker>, handed: set<Handout>, id: Id)
    requires id in rs
  {
    rs[id].batch.Some? ==> Held(rs[id].state) && exists w :: HoldsFor(rs, ws, handed, w, id)
  }

  /** A batch held by w is held by no other worker, has positive units, and its pending count is
      the number of requests in it, at least one. Only a batch that is held can be started. */
  ghost predicate BatchOk(rs: map<Id, Request>, ws: map<Id, Worker>, w: Id, b: Id)
    requires w in ws
  {
    && (b in ws[w].started ==> b in ws[w].batchUnits)
    && (b in ws[w].batchPending <==> b in ws[w].batchUnits)
    && (b in ws[w].batchUnits ==>
          && ws[w].batchUnits[b] >= 1
          && ws[w].batchPending[b] == |Members(rs, b)| >= 1
          && forall v :: v in ws && b in ws[v].batchUnits ==> v == w)
  }

  ghost predicate BatchesOk(rs: map<Id, Request>, ws: map<Id, Worker>, handed: set<Handout>) {
    && (forall w, b :: w in ws ==> BatchOk(rs, ws, w, b))
    && (forall id :: id in rs ==> MemberOk(rs, ws, handed, id))
  }

  lemma MembersChange(rs: map<Id, Request>, id: Id, rec: Request, b: Id)
    ensures Members(rs[id := rec], b) == Members(rs, b) - {id} + (if rec.batch == Some(b) then {id} else {})
  {
  }

  // ----- changes that leave the batches alone -----

  /** The same batches on the same workers; batches that are held may have been started; new
      workers hold nothing. */
  ghost predicate SameBatches(ws: map<Id, Worker>, ws1: map<Id, Worker>) {
    && ws.Keys <= ws1.Keys
    && forall w :: w in ws1 ==>
         if w in ws then
           && ws1[w].batchUnits == ws[w].batchUnits && ws1[w].batchPending == ws[w].batchPending
           && ws1[w].started <= ws[w].started + ws[w].batchUnits.Keys
         else ws1[w].batchUnits == map[] && ws1[w].batchPending == map[] && ws1[w].started == {}
  }

  lemma KeptBatch(rs: map<Id, Request>, ws: map<Id, Worker>, handed: set<Handout>, rs1: map<Id, Request>,
      ws1: map<Id, Worker>, w: Id, b: Id)
    requires BatchesOk(rs, ws, handed) && SameBatches(ws, ws1) && Members(rs1, b) == Members(rs, b) && w in ws1
    ensures BatchOk(rs1, ws1, w, b)
  {
    hide Members;
    if w in ws {
      assert BatchOk(rs, ws, w, b);
    }
  }

  lemma MoreHands(rs: map<Id, Request>, ws: map<Id, Worker>, handed: set<Handout>, rs1: map<Id, Request>,
      ws1: map<Id, Worker>,
                  more: set<Handout>, id: Id)
    requires id in rs && id in rs1 && MemberOk(rs, ws, handed, id) && SameBatches(ws, ws1) && handed <= more
    requires rs1[id].batch == rs[id].batch && rs1[id].attempt == rs[id].attempt
        && rs1[id].generation == rs[id].generation
    requires rs[id].batch.Some? ==> Held(rs1[id].state)
    ensures MemberOk(rs1, ws1, more, id)
  {
    if rs[id].batch.Some? {
      var w :| HoldsFor(rs, ws, handed, w, id);
      assert HoldsFor(rs1, ws1, more, w, id);
    }
  }

  /** One record changed without entering or leaving a batch. */
  lemma KeptBatches(rs: map<Id, Request>, ws: map<Id, Worker>, handed: set<Handout>, id: Id, rec: Request,
      ws1: map<Id, Worker>)
    requires BatchesOk(rs, ws, handed) && SameBatches(ws, ws1)
    requires if id in rs then rec.batch == rs[id].batch else rec.batch == None
    requires rec.batch.Some? ==> rec.attempt == rs[id].attempt && rec.generation == rs[id].generation && Held(rec.state)
    ensures BatchesOk(rs[id := rec], ws1, handed)
  {
    var rs1 := rs[id := rec];
    hide BatchOk, SameBatches, HoldsFor;
    forall w, b | w in ws1 ensures BatchOk(rs1, ws1, w, b) {
      MembersChange(rs, id, rec, b);
      KeptBatch(rs, ws, handed, rs1, ws1, w, b);
    }
    forall i | i in rs1 ensures MemberOk(rs1, ws1, handed, i) {
      assert i in rs ==> MemberOk(rs, ws, handed, i);
      if i in rs && rs[i].batch.Some? { MoreHands(rs, ws, handed, rs1, ws1, handed, i); }
    }
  }

  lemma OtherWorkers(rs: map<Id, Request>, ws: map<Id, Worker>, handed: set<Handout>, ws1: map<Id, Worker>)
    requires BatchesOk(rs, ws, handed) && SameBatches(ws, ws1)
    ensures BatchesOk(rs, ws1, handed)
  {
    hide SameBatches, BatchOk, HoldsFor;
    forall w, b | w in ws1 ensures BatchOk(rs, ws1, w, b) { KeptBatch(rs, ws, handed, rs, ws1, w, b); }
    forall i | i in rs ensures MemberOk(rs, ws1, handed, i) {
      assert MemberOk(rs, ws, handed, i);
      MoreHands(rs, ws, handed, rs, ws1, handed, i);
    }
  }

  // ----- a member leaves its batch -----

  /** The batch maps of the releasing worker; everybody else's stay. */
  lemma ReleasedMaps(f: Fleet, w: Id, id: Id, b: Id, v: Id, c: Id)
    requires w in f.workers && v in f.workers
    requires b in f.workers[w].batchPending && (b in f.workers[w].started ==> b in f.workers[w].batchUnits)
    ensures var r, r1 := f.workers[v], ReleaseMember(f, w, id, Some(b)).workers[v];
            var last := f.workers[w].batchPending[b] <= 1;
            && (c in r1.batchUnits <==> c in r.batchUnits && !(v == w && c == b && last))
            && (c in r1.batchPending <==> c in r.batchPending && !(v == w && c == b && last))
            && (c in r1.started <==> c in r.started && !(v == w && c == b && last))
            && (c in r1.batchUnits ==> r1.batchUnits[c] == r.batchUnits[c])
            && (c in r1.batchPending ==> r1.batchPending[c] == r.batchPending[c] - (if v == w && c == b then 1 else 0))
  {
  }

  lemma ReleasedBatch(rs: map<Id, Request>, f: Fleet, handed: set<Handout>, w: Id, id: Id, rec: Request, v: Id, c: Id)
    requires BatchesOk(rs, f.workers, handed) && id in rs && rs[id].batch.Some? && rec.batch == None
    requires w in f.workers && rs[id].batch.value in f.workers[w].batchUnits && v in f.workers
    ensures BatchOk(rs[id := rec], ReleaseMember(f, w, id, rs[id].batch).workers, v, c)
  {
    var b := rs[id].batch.value;
    assert BatchOk(rs, f.workers, w, b) && BatchOk(rs, f.workers, v, c) && BatchOk(rs, f.workers, v, b);
    hide BatchesOk, ReleaseMember;
    MembersChange(rs, id, rec, c);
    assert id in Members(rs, c) <==> c == b;
    hide Members;
    ReleasedMaps(f, w, id, b, v, c);
    ReleasedKeys(f, w, id, Some(b));
    OneHolder(f, w, id, b, v, c);
  }

  lemma OneHolder(f: Fleet, w: Id, id: Id, b: Id, v: Id, c: Id)
    requires w in f.workers && v in f.workers
    requires b in f.workers[w].batchPending && (b in f.workers[w].started ==> b in f.workers[w].batchUnits)
    requires c in f.workers[v].batchUnits ==> forall u :: u in f.workers && c in f.workers[u].batchUnits ==> u == v
    ensures var ws := ReleaseMember(f, w, id, Some(b)).workers;
            v in ws && (c in ws[v].batchUnits ==> forall u :: u in ws && c in ws[u].batchUnits ==> u == v)
  {
    ReleasedKeys(f, w, id, Some(b));
    var ws := ReleaseMember(f, w, id, Some(b)).workers;
    hide ReleaseMember;
    ReleasedMaps(f, w, id, b, v, c);
    forall u | u in ws && c in ws[u].batchUnits && c in ws[v].batchUnits ensures u == v {
      ReleasedMaps(f, w, id, b, u, c);
    }
  }

  lemma ReleasedKeys(f: Fleet, w: Id, id: Id, batch: Option<Id>)
    ensures ReleaseMember(f, w, id, batch).workers.Keys == f.workers.Keys
  {
  }

  lemma StillHeld(rs: map<Id, Request>, f: Fleet, handed: set<Handout>, w: Id, id: Id, rec: Request, i: Id)
    requires BatchesOk(rs, f.workers, handed) && id in rs && rs[id].batch.Some? && rec.batch == None
    requires w in f.workers && rs[id].batch.value in f.workers[w].batchUnits && i in rs && i != id
    ensures MemberOk(rs[id := rec], ReleaseMember(f, w, id, rs[id].batch).workers, handed, i)
  {
    var b := rs[id].batch.value;
    assert MemberOk(rs, f.workers, handed, i);
    if rs[i].batch.Some? {
      var v :| HoldsFor(rs, f.workers, handed, v, i);
      assert BatchOk(rs, f.workers, w, b);
      if rs[i].batch.value == b {
        assert {id, i} <= Members(rs, b);
        SubsetSize({id, i}, Members(rs, b));
      }
      ReleasedMaps(f, w, id, b, v, rs[i].batch.value);
      ReleasedKeys(f, w, id, Some(b));
      assert HoldsFor(rs[id := rec], ReleaseMember(f, w, id, rs[id].batch).workers, handed, v, i);
    }
  }

  /** Request id left its batch through the worker that holds it. */
  lemma ReleasedBatches(rs: map<Id, Request>, f: Fleet, handed: set<Handout>, w: Id, id: Id, rec: Request)
    requires BatchesOk(rs, f.workers, handed) && id in rs && rs[id].batch.Some? && rec.batch == None
    requires w in f.workers && rs[id].batch.value in f.workers[w].batchUnits
    ensures BatchesOk(rs[id := rec], ReleaseMember(f, w, id, rs[id].batch).workers, handed)
  {
    hide BatchOk, HoldsFor, ReleaseMember;
    var rs1, ws1 := rs[id := rec], ReleaseMember(f, w, id, rs[id].batch).workers;
    ReleasedKeys(f, w, id, rs[id].batch);
    forall v, c | v in ws1 ensures BatchOk(rs1, ws1, v, c) {
      ReleasedBatch(rs, f, handed, w, id, rec, v, c);
    }
    forall i | i in rs1 ensures MemberOk(rs1, ws1, handed, i) {
      if i != id { StillHeld(rs, f, handed, w, id, rec, i); }
    }
  }

  /** Without a batch a release touches no batch maps. */
  lemma IdleRelease(f: Fleet, w: Id, id: Id)
    ensures SameBatches(f.workers, ReleaseMember(f, w, id, None).workers)
  {
  }

  /** The reporting worker holds the batch of the request it reports on. */
  lemma ReporterHolds(rs: map<Id, Request>, ws: map<Id, Worker>, handed: set<Handout>, w: Id, id: Id)
    requires BatchesOk(rs, ws, handed) && HandedOnce(handed) && id in rs && rs[id].batch.Some?
    requires Handout(w, id, rs[id].attempt, rs[id].generation) in handed
    ensures w in ws && rs[id].batch.value in ws[w].batchUnits
  {
    assert MemberOk(rs, ws, handed, id);
    var v :| HoldsFor(rs, ws, handed, v, id);
  }

  /** A request is taken off the worker it was handed to, whether it was in a batch or not. */
  lemma TakenOff(s: State, s1: State, handed: set<Handout>, w: Id, id: Id, rec: Request)
    requires BatchesOk(s.requests, s.fleet.workers, handed) && HandedOnce(handed) && id in s.requests
    requires Handout(w, id, s.requests[id].attempt, s.requests[id].generation) in handed
    requires s1.requests == s.requests[id := rec] && s1.fleet == ReleaseMember(s.fleet, w, id, s.requests[id].batch)
    requires w in s.fleet.workers ==> rec.batch == None
    requires w !in s.fleet.workers ==> rec.batch == None || rec.batch == s.requests[id].batch
    ensures BatchesOk(s1.requests, s1.fleet.workers, handed)
  {
    hide BatchesOk, ReleaseMember, SameBatches;
    if s.requests[id].batch.Some? {
      ReporterHolds(s.requests, s.fleet.workers, handed, w, id);
      ReleasedBatches(s.requests, s.fleet, handed, w, id, rec);
    } else {
      IdleRelease(s.fleet, w, id);
      KeptBatches(s.requests, s.fleet.workers, handed, id, rec, s1.fleet.workers);
    }
  }

  // ----- a new batch -----

  ghost function Elements(ids: seq<Id>): set<Id> { set x | x in ids }

  lemma {:induction false} DistinctCount(ids: seq<Id>)
    requires Distinct(ids)
    ensures |Elements(ids)| == |ids|
    decreases |ids|
  {
    if ids != [] {
      assert ids[0] !in Elements(ids[1..]);
      assert Elements(ids) == Elements(ids[1..]) + {ids[0]};
      DistinctCount(ids[1..]);
    }
  }

  lemma ReservedMembers(s: State, members: seq<Id>, b: Id, c: Id)
    requires Distinct(members) && Members(s.requests, b) == {}
    requires forall i :: 0 <= i < |members| ==> members[i] in s.requests && s.requests[members[i]].batch == None
    ensures Members(ReserveAll(s, members, b).requests, c) == if c == b then Elements(members)
        else Members(s.requests, c)
  {
    var rs1 := ReserveAll(s, members, b).requests;
    ReserveAllFrame(s, members, b);
    hide ReserveAll;
    forall id ensures id in Members(rs1, c) <==> id in (if c == b then Elements(members) else Members(s.requests, c)) {
      if id in s.requests {
        ReserveAllEffect(s, members, b, id);
        assert id in Members(s.requests, b) <==> s.requests[id].batch == Some(b);
      }
    }
  }

  /** A fresh batch b of these members is opened on worker w, as dispatch does. */
  ghost predicate Opens(s: State, members: seq<Id>, w: Id, handed: set<Handout>) {
    && BatchesOk(s.requests, s.fleet.workers, handed) && BatchIdsIssued(s)
    && w in s.fleet.workers && Distinct(members) && |members| >= 1
    && forall i :: 0 <= i < |members| ==>
         members[i] in s.requests && s.requests[members[i]].batch == None && s.requests[members[i]].spec.cost >= 0.0
  }

  ghost function Hands(s: State, members: seq<Id>, w: Id): set<Handout> {
    set m | m in members && m in s.requests :: Handout(w, m, s.requests[m].attempt, s.requests[m].generation)
  }

  lemma OpenedMembers(s: State, members: seq<Id>, w: Id, handed: set<Handout>, c: Id)
    requires Opens(s, members, w, handed)
    ensures Members(Reserve(s, members, w).requests, c) ==
            if c == Fresh(s, 1) then Elements(members) else Members(s.requests, c)
    ensures forall v :: v in s.fleet.workers ==>
              Fresh(s, 1) !in s.fleet.workers[v].batchUnits && Fresh(s, 1) !in s.fleet.workers[v].started
  {
    assert Members(s.requests, Fresh(s, 1)) == {};
    ReservedMembers(Open(s, members, w), members, Fresh(s, 1), c);
    forall v | v in s.fleet.workers ensures Fresh(s, 1) !in s.fleet.workers[v].batchUnits
        && Fresh(s, 1) !in s.fleet.workers[v].started {
      assert IdsWithin(s.fleet.workers[v], s.cfg, s.issued);
    }
  }

  lemma OpenedBatch(s: State, members: seq<Id>, w: Id, handed: set<Handout>, v: Id, c: Id)
    requires Opens(s, members, w, handed) && v in s.fleet.workers
    ensures v in Reserve(s, members, w).fleet.workers
    ensures BatchOk(Reserve(s, members, w).requests, Reserve(s, members, w).fleet.workers, v, c)
  {
    OpenedMembers(s, members, w, handed, c);
    DistinctCount(members);
    UnitsVersusCost(s.requests, members);
    assert BatchOk(s.requests, s.fleet.workers, v, c);
    ReserveAllFrame(Open(s, members, w), members, Fresh(s, 1));
    hide Members, BatchUnits, BatchCost, ReserveAll, BatchesOk, BatchIdsIssued;
    var b, f1 := Fresh(s, 1), Reserve(s, members, w).fleet;
    assert f1 == OpenBatch(s.fleet, w, b, BatchUnits(s.requests, members), |members|);
    if v == w && c == b {
      assert f1.workers[v].batchPending[c] == |Members(Reserve(s, members, w).requests, c)|;
    }
  }

  lemma OpenedMember(s: State, members: seq<Id>, w: Id, handed: set<Handout>, i: Id)
    requires Opens(s, members, w, handed) && i in s.requests
    ensures i in Reserve(s, members, w).requests
    ensures MemberOk(Reserve(s, members, w).requests, Reserve(s, members, w).fleet.workers,
        handed + Hands(s, members, w), i)
  {
    var s0, s1 := Open(s, members, w), Reserve(s, members, w);
    hide BatchUnits, BatchOk, BatchIdsIssued;
    ReserveAllFrame(s0, members, Fresh(s, 1));
    ReserveAllEffect(s0, members, Fresh(s, 1), i);
    assert MemberOk(s.requests, s.fleet.workers, handed, i);
    hide ReserveAll;
    if i in members {
      assert HoldsFor(s1.requests, s1.fleet.workers, handed + Hands(s, members, w), w, i);
    } else if s.requests[i].batch.Some? {
      var v :| HoldsFor(s.requests, s.fleet.workers, handed, v, i);
      assert HoldsFor(s1.requests, s1.fleet.workers, handed + Hands(s, members, w), v, i);
    }
  }

  lemma OpenedBatches(s: State, members: seq<Id>, w: Id, handed: set<Handout>)
    requires Opens(s, members, w, handed)
    ensures var s1 := Reserve(s, members, w);
            BatchesOk(s1.requests, s1.fleet.workers, handed + Hands(s, members, w))
  {
    var s1, more := Reserve(s, members, w), handed + Hands(s, members, w);
    ReserveAllFrame(Open(s, members, w), members, Fresh(s, 1));
    assert s1.fleet.workers.Keys == s.fleet.workers.Keys && s1.requests.Keys == s.requests.Keys;
    hide Reserve, BatchOk, HoldsFor, Opens;
    forall v, c | v in s1.fleet.workers ensures BatchOk(s1.requests, s1.fleet.workers, v, c) {
      OpenedBatch(s, members, w, handed, v, c);
    }
    forall i | i in s1.requests ensures MemberOk(s1.requests, s1.fleet.workers, more, i) {
      OpenedMember(s, members, w, handed, i);
    }
  }

  // ----- every operation -----

  ghost predicate BaselineOk(s: State, handed: set<Handout>) { BatchesOk(s.requests, s.fleet.workers, handed) }

  lemma SameWorkers(ws: map<Id, Worker>)
    ensures SameBatches(ws, ws)
  {
  }

  lemma QueuedHasNoBatch(s: State, id: Id)
    requires RecordsOk(s) && id in s.requests && s.requests[id].state == RequestState.Queued
    ensures s.requests[id].batch == None
  {
    assert RecordOk(s.cfg, s.issued, s.requests[id]);
  }

  /** A record without a batch changed; the workers stay. */
  lemma Loose(s: State, s1: State, handed: set<Handout>, id: Id, rec: Request)
    requires BaselineOk(s, handed) && s1.requests == s.requests[id := rec] && s1.fleet == s.fleet
    requires rec.batch == None && (id in s.requests ==> s.requests[id].batch == None)
    ensures BaselineOk(s1, handed)
  {
    SameWorkers(s.fleet.workers);
    hide BatchesOk, SameBatches;
    KeptBatches(s.requests, s.fleet.workers, handed, id, rec, s.fleet.workers);
  }

  lemma ExpireBaseline(s: State, handed: set<Handout>, id: Id)
    requires RecordsOk(s) && BaselineOk(s, handed) && id in s.requests
    ensures BaselineOk(Expire(s, id), handed)
  {
    hide BaselineOk;
    if s.requests[id].state == RequestState.Queued {
      QueuedHasNoBatch(s, id);
      Loose(s, Expire(s, id), handed, id, Expire(s, id).requests[id]);
    }
  }

  lemma {:induction false} ExpireAllBaseline(s: State, handed: set<Handout>, order: seq<Id>)
    requires RecordsOk(s) && BaselineOk(s, handed)
    ensures BaselineOk(ExpireAll(s, order), handed)
    decreases |order|
  {
    hide BaselineOk, RecordsOk, Expire;
    if order != [] {
      if order[0] in s.requests {
        ExpireProgress(s, order[0]);
        ExpireBaseline(s, handed, order[0]);
      }
      ExpireAllBaseline(if order[0] in s.requests then Expire(s, order[0]) else s, handed, order[1..]);
    }
  }

  lemma FinishBaseline(s: State, handed: set<Handout>, id: Id, w: Id, st: RequestState, a: AttemptState)
    requires BaselineOk(s, handed) && HandedOnce(handed) && id in s.requests
    requires Handout(w, id, s.requests[id].attempt, s.requests[id].generation) in handed
    ensures BaselineOk(Finish(s, id, w, st, a), handed)
  {
    hide BatchesOk, ReleaseMember, HandedOnce;
    TakenOff(s, Finish(s, id, w, st, a), handed, w, id, Finish(s, id, w, st, a).requests[id]);
  }

  lemma HeldCancelBaseline(s: State, handed: set<Handout>, id: Id, w: Id)
    requires BaselineOk(s, handed) && HandedOnce(handed) && id in s.requests && Held(s.requests[id].state)
    requires Handout(w, id, s.requests[id].attempt, s.requests[id].generation) in handed
    ensures BaselineOk(FinishCancelled(s, id, w), handed)
  {
    hide BatchesOk, ReleaseMember, HandedOnce, Remove;
    TakenOff(s, FinishCancelled(s, id, w), handed, w, id, FinishCancelled(s, id, w).requests[id]);
  }

  lemma QueuedCancelBaseline(s: State, handed: set<Handout>, id: Id, w: Id)
    requires RecordsOk(s) && BaselineOk(s, handed) && id in s.requests && s.requests[id].state == RequestState.Queued
    ensures BaselineOk(FinishCancelled(s, id, w), handed)
  {
    hide BaselineOk, ReleaseMember, Remove;
    QueuedHasNoBatch(s, id);
    Loose(s, FinishCancelled(s, id, w), handed, id, FinishCancelled(s, id, w).requests[id]);
  }

  lemma {:induction false} CancelAllBaseline(s: State, handed: set<Handout>, order: seq<Id>)
    requires RecordsOk(s) && BaselineOk(s, handed) && Distinct(order)
    requires forall i :: 0 <= i < |order| ==>
        order[i] in s.requests && s.requests[order[i]].state == RequestState.Queued
    ensures BaselineOk(CancelAll(s, order), handed)
    decreases |order|
  {
    hide BaselineOk, RecordsOk, ReleaseMember, Remove;
    if order != [] {
      FinishCancelledProgress(s, order[0], NO_ID);
      QueuedCancelBaseline(s, handed, order[0], NO_ID);
      CancelAllBaseline(FinishCancelled(s, order[0], NO_ID), handed, order[1..]);
    }
  }

  lemma MakeRetryBaseline(s: State, handed: set<Handout>, id: Id, w: Id, now: Time)
    requires BaselineOk(s, handed) && HandedOnce(handed) && id in s.requests
    requires Handout(w, id, s.requests[id].attempt, s.requests[id].generation) in handed
    ensures BaselineOk(MakeRetry(s, id, w, now), handed)
  {
    RetryShape(s, id, w, now);
    hide BatchesOk, ReleaseMember, HandedOnce, MakeRetry;
    TakenOff(s, MakeRetry(s, id, w, now), handed, w, id, MakeRetry(s, id, w, now).requests[id]);
  }

  lemma StaleBaseline(s: State, handed: set<Handout>, r: Report, now: Time)
    requires BaselineOk(s, handed) && HandedOnce(handed) && Screen(s, r).None? && r.status == Stale
    requires Handout(r.worker, r.request, r.attempt, r.generation) in handed
    ensures BaselineOk(Complete(s, r, now), handed)
  {
    hide BatchesOk, ReleaseMember, HandedOnce;
    TakenOff(s, Complete(s, r, now), handed, r.worker, r.request, Complete(s, r, now).requests[r.request]);
  }

  lemma CompleteBaseline(s: State, handed: set<Handout>, r: Report, now: Time)
    requires ProtocolOk(s, handed) && BaselineOk(s, handed)
    requires Handout(r.worker, r.request, r.attempt, r.generation) in handed
    ensures BaselineOk(Complete(s, r, now), handed)
  {
    hide BaselineOk, HandedOnce, HandedOk, QueueOk, FlightsOk, RecordsOk, Finish, FinishCancelled, MakeRetry, CanRetry,
         ReleaseMember;
    if Screen(s, r).None? {
      ReportedHeld(s, handed, r);
      if r.status == Stale {
        StaleBaseline(s, handed, r, now);
      } else if r.status == CancelledStatus || (r.status == Succeeded && s.requests[r.request].cancelRequested) {
        HeldCancelBaseline(s, handed, r.request, r.worker);
      } else if r.status == Succeeded {
        FinishBaseline(s, handed, r.request, r.worker, RequestState.Completed, AttemptSucceeded);
      } else if r.status == ExpiredStatus {
        FinishBaseline(s, handed, r.request, r.worker, RequestState.Expired, AttemptExpired);
      } else if Retryable(s.cfg, r.failure) && CanRetry(s, s.requests[r.request], now) {
        MakeRetryBaseline(s, handed, r.request, r.worker, now);
      } else {
        FinishBaseline(s, handed, r.request, r.worker, RequestState.Failed, AttemptFailed);
      }
    }
  }

  /** A report that passes the screen is about a reserved or running request. */
  lemma ReportedHeld(s: State, handed: set<Handout>, r: Report)
    requires RecordsOk(s) && HandedOk(s, handed) && Screen(s, r).None?
    requires Handout(r.worker, r.request, r.attempt, r.generation) in handed
    ensures Held(s.requests[r.request].state)
  {
    assert RecordOk(s.cfg, s.issued, s.requests[r.request]);
  }

  lemma ConfirmBaseline(s: State, handed: set<Handout>, r: Report)
    requires HandedOnce(handed) && BaselineOk(s, handed)
    requires Handout(r.worker, r.request, r.attempt, r.generation) in handed
    ensures BaselineOk(Confirm(s, r), handed)
  {
    if ConfirmAnswer(s, r) == Confirmed {
      ReporterHolds(s.requests, s.fleet.workers, handed, r.worker, r.request);
      hide BatchesOk;
      KeptBatches(s.requests, s.fleet.workers, handed, r.request, Confirm(s, r).requests[r.request],
          Confirm(s, r).fleet.workers);
    }
  }

  lemma CancelBaseline(s: State, handed: set<Handout>, id: Id)
    requires RecordsOk(s) && BaselineOk(s, handed)
    requires id in s.requests ==> s.requests[id].state != RequestState.Reserved
    ensures BaselineOk(Cancel(s, id), handed)
  {
    if CancelAnswer(s, id) == CancelAccepted {
      assert RecordOk(s.cfg, s.issued, s.requests[id]);
      hide BatchesOk, ReleaseMember, Remove;
      if s.requests[id].state == RequestState.Running {
        SameWorkers(s.fleet.workers);
        hide SameBatches;
        KeptBatches(s.requests, s.fleet.workers, handed, id, Cancel(s, id).requests[id], s.fleet.workers);
      } else {
        QueuedCancelBaseline(s, handed, id, NO_ID);
      }
    }
  }

  lemma SubmitBaseline(s: State, handed: set<Handout>, spec: Spec, pre: Option<Id>, now: Time)
    requires BaselineOk(s, handed) && FreshId(s, SubmitEvent(spec, pre, now))
    ensures BaselineOk(Submit(s, spec, pre, now), handed)
  {
    hide BatchesOk, Push, Insert;
    var s1 := Submit(s, spec, pre, now);
    var id := RequestIdFor(s, pre);
    if s1.requests != s.requests {
      Loose(s, s1, handed, id, s1.requests[id]);
    }
  }

  lemma PlanBaseline(s: State, handed: set<Handout>, request: Id, now: Time, order: seq<Id>, out: PlanResult, s1: State)
    requires RecordsOk(s) && UnitsOk(s) && BaselineOk(s, handed) && Plan(s, request, now, order, out, s1)
    ensures BaselineOk(s1, handed + HandedBy(PlanEvent(request, now, order, out), s1))
  {
    var s0 := ExpireAll(s, order);
    ExpireAllBaseline(s, handed, order);
    ExpireAllProgress(s, order);
    ExpireAllUnits(s, order);
    if out.Dispatch? {
      DispatchBaseline(s0, handed, request, now, order, out, s1);
    } else {
      assert handed + HandedBy(PlanEvent(request, now, order, out), s1) == handed;
      hide BaselineOk;
      if request in s0.requests && s0.requests[request].spec.Overdue(now) {
        ExpireBaseline(s0, handed, request);
      }
    }
  }

  lemma DispatchBaseline(s: State, handed: set<Handout>, request: Id, now: Time, order: seq<Id>, out: PlanResult,
      s1: State)
    requires RecordsOk(s) && UnitsOk(s) && BaselineOk(s, handed) && PlanOn(s, request, now, out, s1) && out.Dispatch?
    ensures BaselineOk(s1, handed + HandedBy(PlanEvent(request, now, order, out), s1))
  {
    DispatchHands(s, request, now, out, s1);
    hide BatchesOk, Conserved, RecordsOk;
    var members, w :| PlanBatch(s, request, now, members, w, out, s1);
    hide Eligible, BatchUnits, BatchCost, IsBatch, Reserve;
    BatchReady(s, request, now, members);
    OpenedBatches(s, members, w, handed);
    assert HandedBy(PlanEvent(request, now, order, out), s1) == Hands(s, members, w);
  }

  /** The members of a planned batch are different, in no batch yet, and cost something. */
  lemma BatchReady(s: State, request: Id, now: Time, members: seq<Id>)
    requires RecordsOk(s) && request in s.requests && IsBatch(s.cfg, s.requests, s.index, request, now, members)
    requires s.requests[request].state == RequestState.Queued || s.requests[request].state == RequestState.Admitted
    ensures Distinct(members) && |members| >= 1
    ensures forall i :: 0 <= i < |members| ==>
              members[i] in s.requests && s.requests[members[i]].batch == None
                  && s.requests[members[i]].spec.cost >= 0.0
  {
    assert RecordOk(s.cfg, s.issued, s.requests[request]);
    BatchMembers(s.cfg, s.requests, s.index, request, now, members);
    MembersQueued(s, request, now, members);
    hide IsBatch;
    forall i | 0 <= i < |members| ensures s.requests[members[i]].batch == None
        && s.requests[members[i]].spec.cost >= 0.0 {
      assert RecordOk(s.cfg, s.issued, s.requests[members[i]]);
    }
  }

  lemma RegisterBaseline(s: State, handed: set<Handout>, reg: Registration, now: Time, order: seq<Id>)
    requires BaselineOk(s, handed) && !IsRestart(s, reg)
    ensures BaselineOk(Register(s, reg, now, order), handed)
  {
    hide BatchesOk;
    OtherWorkers(s.requests, s.fleet.workers, handed, Register(s, reg, now, order).fleet.workers);
  }

  lemma EditBaseline(s: State, e: Event, s1: State, handed: set<Handout>)
    requires BaselineOk(s, handed) && Step(s, e, s1) && (e.CapabilityEvent? || e.WorkerStateEvent?)
    ensures BaselineOk(s1, handed)
  {
    hide BatchesOk;
    if e.worker in s.fleet.workers { OtherWorkers(s.requests, s.fleet.workers, handed, s1.fleet.workers); }
  }

  lemma PickBaseline(s: State, handed: set<Handout>, now: Time, order: seq<Id>, seed: Option<Id>, s1: State)
    requires RecordsOk(s) && BaselineOk(s, handed) && Pick(s, now, order, seed, s1)
    ensures BaselineOk(s1, handed)
  {
    ExpireAllBaseline(s, handed, order);
    hide BatchesOk;
  }

  lemma DrainBaseline(s: State, handed: set<Handout>, order: seq<Id>)
    requires RecordsOk(s) && QueueOk(s) && BaselineOk(s, handed) && Enumerates(order, s.index.queued)
    ensures BaselineOk(CancelAll(s, order), handed)
  {
    forall i | 0 <= i < |order| ensures order[i] in s.requests && s.requests[order[i]].state == RequestState.Queued {
      assert order[i] in order;
    }
    CancelAllBaseline(s, handed, order);
  }

  /** The step cancels a request that is reserved but not yet confirmed. */
  predicate CancelsReserved(s: State, e: Event) {
    e.CancelEvent? && e.request in s.requests && s.requests[e.request].state == RequestState.Reserved
  }

  lemma StepBaseline(s: State, e: Event, s1: State, handed: set<Handout>)
    requires ProtocolOk(s, handed) && UnitsOk(s) && BaselineOk(s, handed)
    requires Step(s, e, s1) && EnvOk(s, e, handed) && KeepsWorkers(s, e) && !CancelsReserved(s, e)
    ensures BaselineOk(s1, handed + HandedBy(e, s1))
  {
    hide Submit, Plan, Pick, Confirm, Complete, Cancel, CancelAll, Register, BaselineOk, UnitsOk, QueueOk, RecordsOk,
         FlightsOk, HandedOk, HandedOnce, FreshId;
    assert !e.PlanEvent? ==> handed + HandedBy(e, s1) == handed;
    match e
    case SubmitEvent(spec, pre, now) => SubmitBaseline(s, handed, spec, pre, now);
    case PickEvent(now, order, seed) => PickBaseline(s, handed, now, order, seed, s1);
    case PlanEvent(request, now, order, out) => PlanBaseline(s, handed, request, now, order, out, s1);
    case ConfirmEvent(r) => ConfirmBaseline(s, handed, r);
    case CompleteEvent(r, now) => CompleteBaseline(s, handed, r, now);
    case CancelEvent(id) => CancelBaseline(s, handed, id);
    case CancelAllEvent(order) => DrainBaseline(s, handed, order);
    case RegisterEvent(reg, now, order) => RegisterBaseline(s, handed, reg, now, order);
    case UnregisterEvent(w, now, order) =>
    case CapabilityEvent(w, cap) => EditBaseline(s, e, s1, handed);
    case WorkerStateEvent(w, st, available) => EditBaseline(s, e, s1, handed);
    case _ => SameFleet(s, s1, handed);
  }

  lemma SameFleet(s: State, s1: State, handed: set<Handout>)
    requires BaselineOk(s, handed) && s1.requests == s.requests && s1.fleet == s.fleet
    ensures BaselineOk(s1, handed)
  {
    hide BatchesOk;
  }

  // ----- runs -----

  /** Reports come from the worker holding the attempt, no worker restarts or leaves, and no
      reserved request is cancelled. */
  ghost predicate OrderlyRun(tr: Trace) {
    && ProtocolRun(tr) && SteadyRun(tr)
    && forall i :: 0 <= i < |tr.events| ==> !CancelsReserved(tr.states[i], tr.events[i])
  }

  lemma BaselineAdvance(tr: Trace, i: nat)
    requires OrderlyRun(tr) && i < |tr.events| && BaselineOk(tr.states[i], Handed(tr, i))
    ensures BaselineOk(tr.states[i + 1], Handed(tr, i + 1))
  {
    hide BaselineOk, ProtocolOk, UnitsOk, Step, EnvOk, KeepsWorkers, CancelsReserved;
    RunProtocol(tr, i);
    RunUnits(tr, i);
    assert Step(tr.states[i], tr.events[i], tr.states[i + 1]);
    StepBaseline(tr.states[i], tr.events[i], tr.states[i + 1], Handed(tr, i));
  }

  lemma {:induction false} RunBaseline(tr: Trace, i: nat)
    requires OrderlyRun(tr) && i < |tr.states| == |tr.events| + 1
    ensures BaselineOk(tr.states[i], Handed(tr, i))
  {
    if i > 0 {
      hide OrderlyRun, BaselineOk;
      RunBaseline(tr, i - 1);
      BaselineAdvance(tr, i - 1);
    }
  }

  lemma OrderlyState(tr: Trace, i: nat)
    requires OrderlyRun(tr) && i < |tr.states| == |tr.events| + 1
    ensures ProtocolOk(tr.states[i], Handed(tr, i)) && HandedOnce(Handed(tr, i))
    ensures UnitsOk(tr.states[i]) && BaselineOk(tr.states[i], Handed(tr, i))
  {
    RunProtocol(tr, i);
    RunUnits(tr, i);
    hide OrderlyRun, UnitsOk, BaselineOk;
    RunBaseline(tr, i);
  }

  lemma OrderlyEvent(tr: Trace, i: nat)
    requires OrderlyRun(tr) && i < |tr.events| < |tr.states|
    ensures EnvOk(tr.states[i], tr.events[i], Handed(tr, i))
  {
    hide EnvOk, KeepsWorkers, CancelsReserved, Step, FreshId, Handed;
  }

  /** In every state of such a run the pending count of a batch is the number of requests in it,
      each of them reserved or running, and the batch is on one worker only. */
  lemma PendingCountsMembers(tr: Trace, i: nat, w: Id, b: Id)
    requires OrderlyRun(tr) && i < |tr.states| == |tr.events| + 1
    requires w in tr.states[i].fleet.workers && b in tr.states[i].fleet.workers[w].batchUnits
    ensures var s := tr.states[i];
            && b in s.fleet.workers[w].batchPending
            && s.fleet.workers[w].batchPending[b] == |Members(s.requests, b)| >= 1
            && (forall id :: id in Members(s.requests, b) ==> Held(s.requests[id].state))
            && (forall v :: v in s.fleet.workers && b in s.fleet.workers[v].batchUnits ==> v == w)
  {
    hide OrderlyRun;
    RunBaseline(tr, i);
    var s := tr.states[i];
    assert BatchOk(s.requests, s.fleet.workers, w, b);
    forall id | id in Members(s.requests, b) ensures Held(s.requests[id].state) {
      assert MemberOk(s.requests, s.fleet.workers, Handed(tr, i), id);
    }
  }

  /** When nothing is reserved or running, every worker has zero units and empty batch maps, and
      the global totals are zero. */
  lemma BackToBaseline(tr: Trace, i: nat)
    requires OrderlyRun(tr) && i < |tr.states| == |tr.events| + 1
    requires forall id :: id in tr.states[i].requests ==> !Held(tr.states[i].requests[id].state)
    ensures var f := tr.states[i].fleet;
            && (forall w :: w in f.workers ==> Idle(f.workers[w]))
            && f.reserved == 0 && f.running == 0
  {
    var s := tr.states[i];
    RunUnits(tr, i);
    hide OrderlyRun, BatchIdsIssued;
    RunBaseline(tr, i);
    forall w | w in s.fleet.workers ensures Idle(s.fleet.workers[w]) {
      WorkerIdle(s, Handed(tr, i), w);
    }
    hide BaselineOk;
    assert forall w :: w in s.fleet.workers ==>
        ReservedBy(s.fleet.workers)[w] == 0 && RunningBy(s.fleet.workers)[w] == 0;
    TotalZero(ReservedBy(s.fleet.workers));
    TotalZero(RunningBy(s.fleet.workers));
  }

  predicate Idle(r: Worker) {
    r.reserved == 0 && r.running == 0 && r.batchUnits == map[] && r.batchPending == map[] && r.started == {}
  }

  lemma WorkerIdle(s: State, handed: set<Handout>, w: Id)
    requires BaselineOk(s, handed) && w in s.fleet.workers && Booked(s.fleet.workers[w])
    requires forall id :: id in s.requests ==> !Held(s.requests[id].state)
    ensures Idle(s.fleet.workers[w])
  {
    var r := s.fleet.workers[w];
    forall b ensures b !in r.batchUnits && b !in r.batchPending && b !in r.started {
      assert BatchOk(s.requests, s.fleet.workers, w, b);
      forall id ensures id !in Members(s.requests, b) {
        assert id in s.requests ==> MemberOk(s.requests, s.fleet.workers, handed, id);
      }
      assert Members(s.requests, b) == {};
    }
    assert r.batchUnits == map[] && r.batchPending == map[] && r.started == {};
    assert UnstartedUnits(r) == map[] && StartedUnits(r) == map[];
  }

  /** In such a run a report that is taken comes from the worker that holds the request's batch,
      although neither confirm nor complete looks. */
  lemma ReportersHold(tr: Trace, i: nat)
    requires OrderlyRun(tr) && i < |tr.events| == |tr.states| - 1
        && (tr.events[i].ConfirmEvent? || tr.events[i].CompleteEvent?)
    ensures var s, r := tr.states[i], tr.events[i].report;
            (if tr.events[i].ConfirmEvent? then ConfirmAnswer(s, r) == Confirmed else Screen(s, r).None?) &&
            s.requests[r.request].batch.Some? ==>
              r.worker in s.fleet.workers && s.requests[r.request].batch.value in s.fleet.workers[r.worker].batchUnits
  {
    hide OrderlyRun, Handed, ProtocolOk, BatchesOk, UnitsOk, FreshId, HandedOnce;
    var s, r := tr.states[i], tr.events[i].report;
    OrderlyState(tr, i);
    OrderlyEvent(tr, i);
    if r.request in s.requests && s.requests[r.request].batch.Some? &&
       s.requests[r.request].attempt == r.attempt && s.requests[r.request].generation == r.generation {
      ReporterHolds(s.requests, s.fleet.workers, Handed(tr, i), r.worker, r.request);
    }
  }

  // ----- a released batch is gone for good -----

  ghost predicate OnSomeWorker(ws: map<Id, Worker>, b: Id) { exists w :: w in ws && b in ws[w].batchUnits }

  lemma ShrunkStaysOff(f: Fleet, f1: Fleet, b: Id)
    requires BatchesShrink(f, f1) && !OnSomeWorker(f.workers, b)
    ensures !OnSomeWorker(f1.workers, b)
  {
  }

  lemma {:induction false} CancelAllShrinks(s: State, order: seq<Id>)
    ensures BatchesShrink(s.fleet, CancelAll(s, order).fleet)
    decreases |order|
  {
    if order != [] {
      var s1 := if order[0] in s.requests then FinishCancelled(s, order[0], NO_ID) else s;
      if order[0] in s.requests { ReleaseShrinks(s.fleet, NO_ID, order[0], s.requests[order[0]].batch); }
      CancelAllShrinks(s1, order[1..]);
    }
  }

  lemma PlanStaysOff(s: State, request: Id, now: Time, order: seq<Id>, out: PlanResult, s1: State, b: Id)
    requires Plan(s, request, now, order, out, s1) && Spent(s.cfg, s.issued, b) && !OnSomeWorker(s.fleet.workers, b)
    ensures !OnSomeWorker(s1.fleet.workers, b)
  {
    var s0 := ExpireAll(s, order);
    ExpireAllFrame(s, order);
    if out.Dispatch? {
      var members, w :| PlanBatch(s0, request, now, members, w, out, s1);
      ReserveAllFrame(Open(s0, members, w), members, Fresh(s0, 1));
      hide BatchUnits, ReserveAll;
    }
  }

  lemma SimpleStaysOff(s: State, e: Event, s1: State, b: Id)
    requires Step(s, e, s1) && KeepsWorkers(s, e) && !OnSomeWorker(s.fleet.workers, b)
    requires e.ConfirmEvent? || e.RegisterEvent? || e.UnregisterEvent? || e.CapabilityEvent? || e.WorkerStateEvent? ||
             e.DrainEvent? || e.EpochEvent?
    ensures !OnSomeWorker(s1.fleet.workers, b)
  {
    hide RecoverInFlight;
  }

  lemma StepStaysOff(s: State, e: Event, s1: State, b: Id)
    requires Step(s, e, s1) && KeepsWorkers(s, e) && Spent(s.cfg, s.issued, b) && !OnSomeWorker(s.fleet.workers, b)
    ensures !OnSomeWorker(s1.fleet.workers, b)
  {
    hide Submit, Plan, Complete, Cancel, CancelAll, ReleaseMember, OnSomeWorker, BatchesShrink, KeepsWorkers, Register,
         Unregister, Confirm, UpdateCapability, SetWorkerState;
    match e
    case SubmitEvent(spec, pre, now) => SubmitFleet(s, spec, pre, now);
    case PickEvent(now, order, seed) => ExpireAllFrame(s, order);
    case PlanEvent(request, now, order, out) => PlanStaysOff(s, request, now, order, out, s1, b);
    case CompleteEvent(r, now) =>
      if r.request in s.requests {
        CompleteFleet(s, r, now);
        ReleaseShrinks(s.fleet, r.worker, r.request, s.requests[r.request].batch);
        ShrunkStaysOff(s.fleet, ReleaseMember(s.fleet, r.worker, r.request, s.requests[r.request].batch), b);
      } else {
        UnknownRequestIgnored(s, r, now);
      }
    case CancelEvent(id) =>
      if id in s.requests {
        CancelFleet(s, id);
        ReleaseShrinks(s.fleet, LastWorker(s.requests[id].history), id, s.requests[id].batch);
        ShrunkStaysOff(s.fleet, ReleaseMember(s.fleet, LastWorker(s.requests[id].history), id, s.requests[id].batch),
            b);
      } else {
        UnknownCancelIgnored(s, id);
      }
    case CancelAllEvent(order) =>
      CancelAllShrinks(s, order);
      ShrunkStaysOff(s.fleet, s1.fleet, b);
    case _ => SimpleStaysOff(s, e, s1, b);
  }

  /** Once a batch is on no worker it never is again: every batch is released at most once. */
  lemma {:induction false} ReleasedForGood(tr: Trace, i: nat, j: nat, b: Id)
    requires SteadyRun(tr) && i <= j < |tr.states|
    requires Spent(tr.states[i].cfg, tr.states[i].issued, b) && !OnSomeWorker(tr.states[i].fleet.workers, b)
    ensures !OnSomeWorker(tr.states[j].fleet.workers, b)
    decreases j
  {
    hide Step, KeepsWorkers, OnSomeWorker, FreshId;
    if i < j {
      ReleasedForGood(tr, i, j - 1, b);
      RunProgress(tr, i, j - 1);
      hide RecordsOk, Evolves;
      assert Step(tr.states[j - 1], tr.events[j - 1], tr.states[j]);
      StepStaysOff(tr.states[j - 1], tr.events[j - 1], tr.states[j], b);
    }
  }
}
