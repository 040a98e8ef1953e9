/** The lazy heaps refine the plain queue: what the selector returns, said
    without heaps, entries or stale data. */
module Selection {
  import opened Types
  import opened ReadyQueue
  import opened Machine
  import opened Lifecycle
  import opened Protocol

  // ----- the plain selection -----

  /** No queued request of the same flow has less recorded slack (then higher priority, then smaller id). */
  ghost predicate IsHead(rs: map<Id, Request>, id: Id) {
    && id in QueuedIds(rs)
    && forall j :: j in QueuedIds(rs) && FlowKeyOf(rs[j].spec) == FlowKeyOf(rs[id].spec) ==>
         !Ahead(EntryOf(j, rs[j]), EntryOf(id, rs[id]))
  }

  /** Effective virtual finish time of the flow that request id heads. */
  function HeadFinish(s: State, id: Id, now: Time): real
    requires id in s.requests
  {
    EffectiveFinish(s.cfg, FlowAt(s.fair, FlowKeyOf(s.requests[id].spec)).finish, s.requests[id].spec, now)
  }

  /** id heads a flow that no other flow precedes. */
  ghost predicate IsNext(s: State, id: Id, now: Time) {
    && IsHead(s.requests, id)
    && forall j :: IsHead(s.requests, j) ==>
         !Sooner(HeadFinish(s, j, now), FlowKeyOf(s.requests[j].spec), HeadFinish(s, id, now),
             FlowKeyOf(s.requests[id].spec))
  }

  /** A queued request's own entry is in its flow's heap, live, and the flow is active. */
  lemma QueuedEntry(s: State, id: Id)
    requires QueueOk(s) && id in QueuedIds(s.requests)
    ensures EntryOf(id, s.requests[id]) in HeapAt(s.fair, FlowKeyOf(s.requests[id].spec))
    ensures Live(s.requests, s.index.queued, EntryOf(id, s.requests[id]))
    ensures FlowKeyOf(s.requests[id].spec) in s.fair.active
  {
    assert HasOneEntry(s.requests, s.fair, id);
  }

  /** A live top entry belongs to the head of its flow. */
  lemma LiveTopIsHead(s: State, k: FlowKey, e: ReadyEntry)
    requires QueueOk(s) && IsTop(HeapAt(s.fair, k), e) && Live(s.requests, s.index.queued, e)
    ensures IsHead(s.requests, e.id) && FlowKeyOf(s.requests[e.id].spec) == k && e == EntryOf(e.id, s.requests[e.id])
  {
    assert EntryOk(s.requests, s.index.queued, k, e, s.cfg, s.issued);
    forall j | j in QueuedIds(s.requests) && FlowKeyOf(s.requests[j].spec) == k
      ensures !Ahead(EntryOf(j, s.requests[j]), EntryOf(e.id, s.requests[e.id]))
    {
      QueuedEntry(s, j);
    }
  }

  /** Entries that the heap order does not separate belong to the same request. */
  lemma TopsAgree(p: multiset<ReadyEntry>, d: ReadyEntry, e: ReadyEntry)
    requires IsTop(p, d) && IsTop(p, e)
    ensures d.id == e.id && d.slack == e.slack && d.priority == e.priority
  {
  }

  lemma HeadsAgree(rs: map<Id, Request>, i: Id, j: Id)
    requires IsHead(rs, i) && IsHead(rs, j) && FlowKeyOf(rs[i].spec) == FlowKeyOf(rs[j].spec)
    ensures i == j
  {
    assert !Ahead(EntryOf(i, rs[i]), EntryOf(j, rs[j])) && !Ahead(EntryOf(j, rs[j]), EntryOf(i, rs[i]));
  }

  /** In a pruned queue every active flow has a live entry on top. */
  ghost predicate TopsLive(s: State) {
    forall k :: k in s.fair.active ==> exists e :: IsTop(HeapAt(s.fair, k), e) && Live(s.requests, s.index.queued, e)
  }

  lemma WinnerIsNext(s: State, now: Time, k: FlowKey, e: ReadyEntry)
    requires QueueOk(s) && TopsLive(s) && Wins(s.cfg, s.requests, s.fair, now, k, e)
    ensures IsNext(s, e.id, now) && FlowKeyOf(s.requests[e.id].spec) == k
  {
    var t :| IsTop(HeapAt(s.fair, k), t) && Live(s.requests, s.index.queued, t);
    TopsAgree(HeapAt(s.fair, k), t, e);
    LiveTopIsHead(s, k, t);
    forall j | IsHead(s.requests, j)
      ensures !Sooner(HeadFinish(s, j, now), FlowKeyOf(s.requests[j].spec), HeadFinish(s, e.id, now), k)
    {
      var kj := FlowKeyOf(s.requests[j].spec);
      QueuedEntry(s, j);
      var d :| IsTop(HeapAt(s.fair, kj), d) && Live(s.requests, s.index.queued, d);
      LiveTopIsHead(s, kj, d);
      HeadsAgree(s.requests, d.id, j);
    }
  }

  lemma PickTopsLive(s: State, now: Time, order: seq<Id>, seed: Option<Id>, s1: State)
    requires QueueOk(s) && Pick(s, now, order, seed, s1)
    ensures QueueOk(s1) && TopsLive(s1)
  {
    var s0 := ExpireAll(s, order);
    ExpireAllQueue(s, order);
    AllRunnable(s, now, order);
    PickQueue(s, now, order, seed, s1);
    forall k | k in s1.fair.active ensures exists e ::
        IsTop(HeapAt(s1.fair, k), e) && Live(s1.requests, s1.index.queued, e) {
      PrunedFlow(s0.requests, s0.index.queued, s0.fair, s1.fair, k);
    }
  }

  lemma PickLeaves(s: State, now: Time, order: seq<Id>, seed: Option<Id>, s1: State)
    requires QueueOk(s) && Pick(s, now, order, seed, s1)
    ensures QueuedIds(s1.requests) == set id | id in QueuedIds(s.requests) && !s.requests[id].spec.Overdue(now)
    ensures forall k :: FlowAt(s1.fair, k).finish == FlowAt(s.fair, k).finish
  {
    PickFinish(s, now, order, seed, s1);
    hide Pruned, Picked, QueueOk;
    forall id ensures id in QueuedIds(s1.requests) <==>
        id in QueuedIds(s.requests) && !s.requests[id].spec.Overdue(now) {
      ScanLeaves(s, now, order, id);
    }
  }

  lemma PickFinish(s: State, now: Time, order: seq<Id>, seed: Option<Id>, s1: State)
    requires Pick(s, now, order, seed, s1)
    ensures forall k :: FlowAt(s1.fair, k).finish == FlowAt(s.fair, k).finish
  {
    ExpireAllFrame(s, order);
    hide PrunedHeap, HasLive, Picked;
  }

  lemma PickedIsNext(s: State, now: Time, seed: Option<Id>)
    requires QueueOk(s) && TopsLive(s) && Picked(s.cfg, s.requests, s.fair, now, seed)
    ensures seed.None? <==> QueuedIds(s.requests) == {}
    ensures seed.Some? ==> IsNext(s, seed.value, now)
  {
    match seed
    case None =>
      forall id ensures id !in QueuedIds(s.requests) {
        if id in QueuedIds(s.requests) { QueuedEntry(s, id); }
      }
    case Some(id) =>
      var k, e :| Wins(s.cfg, s.requests, s.fair, now, k, e) && e.id == id;
      WinnerIsNext(s, now, k, e);
  }

  /** The selector returns nothing exactly when every queued request is overdue; otherwise it
      returns the head of the flow with the least effective finish time, ties going to the
      smaller flow key. Only overdue requests leave the queue, and no finish time changes. */
  lemma PickIsNext(s: State, now: Time, order: seq<Id>, seed: Option<Id>, s1: State)
    requires QueueOk(s) && Pick(s, now, order, seed, s1)
    ensures seed.None? <==> forall id :: id in QueuedIds(s.requests) ==> s.requests[id].spec.Overdue(now)
    ensures seed.Some? ==> IsNext(s1, seed.value, now)
    ensures QueuedIds(s1.requests) == set id | id in QueuedIds(s.requests) && !s.requests[id].spec.Overdue(now)
    ensures forall k :: FlowAt(s1.fair, k).finish == FlowAt(s.fair, k).finish
  {
    PickTopsLive(s, now, order, seed, s1);
    PickLeaves(s, now, order, seed, s1);
    assert s1.cfg == s.cfg by { ExpireAllFrame(s, order); }
    PickedIsNext(s1, now, seed);
    if seed.None? {
      forall id | id in QueuedIds(s.requests) ensures s.requests[id].spec.Overdue(now) {
        assert id !in QueuedIds(s1.requests);
      }
    } else {
      assert seed.value in QueuedIds(s1.requests);
    }
  }

  /** What plan-next picks is unique. */
  lemma NextIsUnique(s: State, now: Time, i: Id, j: Id)
    requires IsNext(s, i, now) && IsNext(s, j, now)
    ensures i == j
  {
    if FlowKeyOf(s.requests[i].spec) == FlowKeyOf(s.requests[j].spec) {
      HeadsAgree(s.requests, i, j);
    }
  }

  // ----- heap order and absolute deadlines -----

  /** The request entered the queue no later than its deadline, if it has one. */
  predicate InTime(rec: Request) { rec.spec.deadline.Some? ==> rec.queuedAt <= rec.spec.deadline.value }

  /** It has a deadline, and that and its entry fall on whole milliseconds. */
  predicate OnTheMillisecond(rec: Request) {
    && rec.spec.deadline.Some? && InTime(rec)
    && rec.queuedAt % TICKS_PER_MS == 0 && rec.spec.deadline.value % TICKS_PER_MS == 0
  }

  /** Whole milliseconds from entry to deadline; the largest number there is without one. */
  function LeftOnEntry(rec: Request): int {
    if rec.spec.deadline.Some? then (rec.spec.deadline.value - rec.queuedAt) / TICKS_PER_MS else MAX_SLACK
  }

  /** Request i leaves before j: it had fewer whole milliseconds left on entry, or as many and is smaller. */
  predicate Passes(i: Id, a: Request, j: Id, b: Request) {
    LeftOnEntry(a) < LeftOnEntry(b) || (LeftOnEntry(a) == LeftOnEntry(b) && i < j)
  }

  lemma WholeMilliseconds(x: int)
    requires x % TICKS_PER_MS == 0
    ensures x == x / TICKS_PER_MS * TICKS_PER_MS
  {
  }

  lemma LeftIsWhole(rec: Request)
    requires OnTheMillisecond(rec)
    ensures rec.spec.deadline.value - rec.queuedAt == LeftOnEntry(rec) * TICKS_PER_MS
  {
    WholeMilliseconds(rec.queuedAt);
    WholeMilliseconds(rec.spec.deadline.value);
    var d, q := rec.spec.deadline.value / TICKS_PER_MS, rec.queuedAt / TICKS_PER_MS;
    assert rec.spec.deadline.value - rec.queuedAt == (d - q) * TICKS_PER_MS;
  }

  /** Heap order is not the order of the deadlines but of the time that was left on entry. With all instants on
      the millisecond, request i is ahead of j exactly when j's delay in entering is less than the distance of
      their deadlines, or equal to it and i is smaller; in general that holds to within one millisecond. */
  lemma DeadlineOrderExact(i: Id, a: Request, j: Id, b: Request)
    requires FlowKeyOf(a.spec) == FlowKeyOf(b.spec) && InTime(a) && InTime(b)
    ensures Ahead(EntryOf(i, a), EntryOf(j, b)) <==> Passes(i, a, j, b)
    ensures a.spec.deadline.Some? && b.spec.deadline.Some? ==>
            var delay, distance := b.queuedAt - a.queuedAt, b.spec.deadline.value - a.spec.deadline.value;
            && (OnTheMillisecond(a) && OnTheMillisecond(b) ==>
                  (Passes(i, a, j, b) <==> delay < distance || (delay == distance && i < j)))
            && (delay + TICKS_PER_MS <= distance ==> Passes(i, a, j, b))
            && (Passes(i, a, j, b) ==> delay < distance + TICKS_PER_MS)
  {
    if OnTheMillisecond(a) && OnTheMillisecond(b) {
      LeftIsWhole(a);
      LeftIsWhole(b);
    }
  }

  /** The queued requests of the flow that request id belongs to. */
  ghost function FlowMates(rs: map<Id, Request>, id: Id): set<Id>
    requires id in rs
  {
    set j | j in QueuedIds(rs) && FlowKeyOf(rs[j].spec) == FlowKeyOf(rs[id].spec)
  }

  lemma HeadPasses(rs: map<Id, Request>, head: Id, id: Id)
    requires IsHead(rs, head) && id in FlowMates(rs, head)
    requires forall j :: j in FlowMates(rs, head) ==> InTime(rs[j])
    ensures head == id <==> forall j :: j in FlowMates(rs, head) && j != id ==> Passes(id, rs[id], j, rs[j])
  {
    hide Passes, InTime;
    forall j | j in FlowMates(rs, head) && j != id
      ensures Ahead(EntryOf(id, rs[id]), EntryOf(j, rs[j])) <==> Passes(id, rs[id], j, rs[j])
    {
      DeadlineOrderExact(id, rs[id], j, rs[j]);
    }
    if head != id {
      assert head in FlowMates(rs, head) && !Ahead(EntryOf(id, rs[id]), EntryOf(head, rs[head]));
    } else {
      forall j | j in FlowMates(rs, head) && j != id ensures Ahead(EntryOf(id, rs[id]), EntryOf(j, rs[j])) {
        assert !Ahead(EntryOf(j, rs[j]), EntryOf(id, rs[id]));
      }
    }
  }

  /** No request enters the queue after its deadline. */
  lemma EnteredInTime(s: State, now: Time, order: seq<Id>, seed: Option<Id>, s1: State, j: Id)
    requires RecordsOk(s) && QueueOk(s) && Pick(s, now, order, seed, s1) && j in QueuedIds(s1.requests)
    ensures InTime(s1.requests[j])
  {
    ScanLeaves(s, now, order, j);
    assert RecordOk(s.cfg, s.issued, s.requests[j]);
  }

  /** What a selection takes from a flow: request id exactly when id passes every other request left in that
      flow. One with an earlier deadline is overtaken by one with less time left on entry. */
  lemma FlowYieldsExact(s: State, now: Time, order: seq<Id>, seed: Id, s1: State, id: Id)
    requires RecordsOk(s) && QueueOk(s) && Pick(s, now, order, Some(seed), s1)
    requires seed in s1.requests && id in FlowMates(s1.requests, seed)
    ensures seed == id <==>
            forall j :: j in FlowMates(s1.requests, seed) && j != id ==> Passes(id, s1.requests[id], j, s1.requests[j])
  {
    PickIsNext(s, now, order, Some(seed), s1);
    hide RecordsOk, Pick, QueueOk, Passes, InTime, IsHead;
    forall j | j in FlowMates(s1.requests, seed) ensures InTime(s1.requests[j]) {
      EnteredInTime(s, now, order, Some(seed), s1, j);
    }
    hide FlowMates;
    HeadPasses(s1.requests, seed, id);
  }
}
