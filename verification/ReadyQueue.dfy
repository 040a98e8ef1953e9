/** The ready queue: weighted-fair flows whose heaps keep stale entries, the
    set of active flows and the virtual time of the fair queue (Fair), and the
    set of queued requests with the compatibility index (Index). */
module ReadyQueue {
  import opened Types

  // ----- keys and orders -----

  datatype FlowKey = FlowKey(tenant: Id, latency: Latency, phase: Phase, priority: Priority)

  function FlowKeyOf(spec: Spec): FlowKey {
    FlowKey(spec.tenant, spec.latency, spec.phase, spec.priority)
  }

  predicate FlowLess(a: FlowKey, b: FlowKey) {
    if a.tenant != b.tenant then a.tenant < b.tenant
    else if a.latency != b.latency then a.latency < b.latency
    else if a.phase != b.phase then a.phase < b.phase
    else a.priority < b.priority
  }

  function TenantWeight(weights: seq<(Id, real)>, dflt: real, t: Id): real {
    if weights == [] then dflt
    else if weights[0].0 == t then weights[0].1
    else TenantWeight(weights[1..], dflt, t)
  }

  /** The share of a flow: every factor is determined by the flow key. */
  function KeyWeight(cfg: Config, k: FlowKey): real {
    TenantWeight(cfg.tenantWeights, cfg.defaultWeight, k.tenant) * cfg.latencyWeight[k.latency] *
    cfg.priorityWeight[k.priority] * cfg.phaseWeight[k.phase]
  }

  datatype CompatKey = CompatKey(model: Id, revision: Id, adapter: Id, phase: int, latency: Latency)

  function CompatKeyOf(cfg: Config, spec: Spec): CompatKey {
    CompatKey(spec.model, spec.revision,
              if spec.adapter.Some? then spec.adapter.value else 0,
              if cfg.allowPhaseMix then 256 else spec.phase,
              spec.latency)
  }

  datatype ReadyEntry = ReadyEntry(id: Id, generation: Id, slack: int, priority: Priority)

  /** The heap entry of a request: its slack is the one at the moment it was queued. */
  function EntryOf(id: Id, rec: Request): ReadyEntry {
    ReadyEntry(id, rec.generation, rec.spec.Slack(rec.queuedAt), rec.spec.priority)
  }

  /** a leaves the heap before b: less recorded slack, then higher priority, then smaller id. */
  predicate Ahead(a: ReadyEntry, b: ReadyEntry) {
    if a.slack != b.slack then a.slack < b.slack
    else if a.priority != b.priority then a.priority > b.priority
    else a.id < b.id
  }

  // ----- the index of queued requests -----

  datatype Index = Index(queued: set<Id>, compat: map<CompatKey, set<Id>>, size: int)

  const EMPTY_INDEX: Index := Index({}, map[], 0)

  function BucketAt(ix: Index, c: CompatKey): set<Id> { if c in ix.compat then ix.compat[c] else {} }

  function Insert(cfg: Config, ix: Index, id: Id, spec: Spec): Index {
    var c := CompatKeyOf(cfg, spec);
    Index(ix.queued + {id}, ix.compat[c := BucketAt(ix, c) + {id}], ix.size + 1)
  }

  /** Leave the index; an emptied bucket is dropped. */
  function Remove(cfg: Config, ix: Index, id: Id, spec: Spec): Index {
    var c := CompatKeyOf(cfg, spec);
    var left := BucketAt(ix, c) - {id};
    Index(ix.queued - {id},
          if left == {} then ix.compat - {c} else ix.compat[c := left],
          if id in ix.queued then ix.size - 1 else ix.size)
  }

  ghost function QueuedIds(rs: map<Id, Request>): set<Id> {
    set id | id in rs && rs[id].state == RequestState.Queued
  }

  ghost function CompatibleIds(cfg: Config, rs: map<Id, Request>, c: CompatKey): set<Id> {
    set id | id in rs && rs[id].state == RequestState.Queued && CompatKeyOf(cfg, rs[id].spec) == c
  }

  /** The queued set, its counter and the compatibility index describe exactly
      the requests in state Queued. */
  ghost predicate IndexAgrees(cfg: Config, rs: map<Id, Request>, ix: Index) {
    && ix.queued == QueuedIds(rs)
    && ix.size == |ix.queued|
    && (forall c :: BucketAt(ix, c) == CompatibleIds(cfg, rs, c))
    && (forall c :: c in ix.compat ==> ix.compat[c] != {})
  }

  lemma IdsJoin(cfg: Config, rs: map<Id, Request>, id: Id, rec: Request, c: CompatKey)
    requires id !in QueuedIds(rs) && rec.state == RequestState.Queued
    ensures QueuedIds(rs[id := rec]) == QueuedIds(rs) + {id}
    ensures CompatibleIds(cfg, rs[id := rec], c) ==
            if CompatKeyOf(cfg, rec.spec) == c then CompatibleIds(cfg, rs, c) + {id} else CompatibleIds(cfg, rs, c)
  {
  }

  lemma IdsLeave(cfg: Config, rs: map<Id, Request>, id: Id, rec: Request, c: CompatKey)
    requires id in rs && rec.spec == rs[id].spec && rec.state != RequestState.Queued
    ensures QueuedIds(rs[id := rec]) == QueuedIds(rs) - {id}
    ensures CompatibleIds(cfg, rs[id := rec], c) ==
            if CompatKeyOf(cfg, rec.spec) == c then CompatibleIds(cfg, rs, c) - {id} else CompatibleIds(cfg, rs, c)
  {
  }

  lemma InsertKeepsIndex(cfg: Config, rs: map<Id, Request>, ix: Index, id: Id, rec: Request)
    requires IndexAgrees(cfg, rs, ix) && id !in ix.queued && rec.state == RequestState.Queued
    ensures IndexAgrees(cfg, rs[id := rec], Insert(cfg, ix, id, rec.spec))
  {
    IdsJoin(cfg, rs, id, rec, CompatKeyOf(cfg, rec.spec));
    forall c ensures BucketAt(Insert(cfg, ix, id, rec.spec), c) == CompatibleIds(cfg, rs[id := rec], c) {
      IdsJoin(cfg, rs, id, rec, c);
    }
  }

  lemma RemoveKeepsIndex(cfg: Config, rs: map<Id, Request>, ix: Index, id: Id, rec: Request)
    requires IndexAgrees(cfg, rs, ix) && id in rs && rec.spec == rs[id].spec && rec.state != RequestState.Queued
    ensures IndexAgrees(cfg, rs[id := rec], Remove(cfg, ix, id, rec.spec))
  {
    IdsLeave(cfg, rs, id, rec, CompatKeyOf(cfg, rec.spec));
    hide QueuedIds, CompatibleIds, CompatKeyOf;
    forall c ensures BucketAt(Remove(cfg, ix, id, rec.spec), c) == CompatibleIds(cfg, rs[id := rec], c) {
      IdsLeave(cfg, rs, id, rec, c);
      RemovedBucket(cfg, ix, id, rec.spec, c);
    }
    forall c | c in Remove(cfg, ix, id, rec.spec).compat ensures Remove(cfg, ix, id, rec.spec).compat[c] != {} {
      RemovedBucket(cfg, ix, id, rec.spec, c);
    }
  }

  lemma RemovedBucket(cfg: Config, ix: Index, id: Id, spec: Spec, c: CompatKey)
    requires forall b :: b in ix.compat ==> ix.compat[b] != {}
    ensures var ix1 := Remove(cfg, ix, id, spec);
            && BucketAt(ix1, c) == (if CompatKeyOf(cfg, spec) == c then BucketAt(ix, c) - {id} else BucketAt(ix, c))
            && (c in ix1.compat ==> ix1.compat[c] != {})
  {
  }

  // ----- the fair queue -----

  /** A heap is a bag of entries: the order in which it yields entries that the
      heap order does not separate is left open. */
  datatype Flow = Flow(weight: real, finish: real, pending: multiset<ReadyEntry>)

  datatype Fair = Fair(flows: map<FlowKey, Flow>, active: set<FlowKey>, virtualTime: real)

  const EMPTY_FLOW: Flow := Flow(1.0, 0.0, multiset{})
  const EMPTY_FAIR: Fair := Fair(map[], {}, 0.0)

  function FlowAt(fq: Fair, k: FlowKey): Flow { if k in fq.flows then fq.flows[k] else EMPTY_FLOW }
  function HeapAt(fq: Fair, k: FlowKey): multiset<ReadyEntry> { FlowAt(fq, k).pending }

  /** Push an entry; a flow whose heap was empty becomes active and its virtual
      finish time catches up with the virtual time. */
  function Push(cfg: Config, fq: Fair, id: Id, rec: Request): Fair {
    var k := FlowKeyOf(rec.spec);
    var f := FlowAt(fq, k);
    var idle := f.pending == multiset{};
    Fair(fq.flows[k := Flow(KeyWeight(cfg, k),
                            if idle then MaxReal(f.finish, fq.virtualTime) else f.finish,
                            f.pending + multiset{EntryOf(id, rec)})],
         if idle then fq.active + {k} else fq.active,
         fq.virtualTime)
  }

  /** Charge a dispatched request to its flow. */
  function Account(fq: Fair, k: FlowKey, cost: real): Fair {
    var f := FlowAt(fq, k);
    var w := if f.weight > 0.0 then f.weight else 1.0;
    var finish := f.finish + cost / w;
    Fair(fq.flows[k := f.(finish := finish)], fq.active, MaxReal(fq.virtualTime, finish))
  }

  /** An entry counts when its request is still queued in the generation recorded. */
  predicate Live(rs: map<Id, Request>, queued: set<Id>, e: ReadyEntry) {
    e.id in queued && e.id in rs && rs[e.id].generation == e.generation
  }

  /** The queued requests whose deadline has not passed. The selector drops the entries of the others. */
  function Runnable(rs: map<Id, Request>, queued: set<Id>, now: Time): set<Id> {
    set id | id in queued && id in rs && !rs[id].spec.Overdue(now)
  }

  ghost predicate HasLive(rs: map<Id, Request>, queued: set<Id>, p: multiset<ReadyEntry>) {
    exists e :: e in p && Live(rs, queued, e)
  }

  /** e may be on top of heap p. */
  predicate IsTop(p: multiset<ReadyEntry>, e: ReadyEntry) {
    e in p && forall d :: d in p ==> !Ahead(d, e)
  }

  /** Virtual finish time of a flow as the selector sees it with this request on top. */
  function EffectiveFinish(cfg: Config, finish: real, spec: Spec, now: Time): real {
    if cfg.boostEnabled && spec.deadline.Some? && spec.Slack(now) <= cfg.boostThresholdMs
    then finish / cfg.boostMax else finish
  }

  // ----- selection -----

  /** fq1 is fq after stale entries were popped from the heap of every active flow
      until a live one was on top; flows without a live entry stop being active. */
  ghost predicate Pruned(rs: map<Id, Request>, queued: set<Id>, fq: Fair, fq1: Fair) {
    && fq1.virtualTime == fq.virtualTime
    && fq1.flows.Keys == fq.flows.Keys
    && fq1.active == (set k | k in fq.active && HasLive(rs, queued, HeapAt(fq, k)))
    && forall k :: k in fq.flows ==>
         && fq1.flows[k] == fq.flows[k].(pending := fq1.flows[k].pending)
         && (k !in fq.active ==> fq1.flows[k].pending == fq.flows[k].pending)
         && (k in fq.active ==> PrunedHeap(rs, queued, fq.flows[k].pending, fq1.flows[k].pending))
  }

  ghost predicate PrunedHeap(rs: map<Id, Request>, queued: set<Id>, p: multiset<ReadyEntry>, p1: multiset<ReadyEntry>) {
    && p1 <= p
    && (forall e :: e in p && Live(rs, queued, e) ==> p1[e] == p[e])
    && (p1 != multiset{} ==> exists e :: IsTop(p1, e) && Live(rs, queued, e))
  }

  /** (x, a) is selected before (y, b): smaller effective finish, then smaller flow key. */
  predicate Sooner(x: real, a: FlowKey, y: real, b: FlowKey) {
    x < y || (x == y && FlowLess(a, b))
  }

  /** Flow k with e on top wins the selection among the active flows. */
  ghost predicate Wins(cfg: Config, rs: map<Id, Request>, fq: Fair, now: Time, k: FlowKey, e: ReadyEntry) {
    && k in fq.active && IsTop(HeapAt(fq, k), e) && e.id in rs
    && forall j, d :: j in fq.active && IsTop(HeapAt(fq, j), d) && d.id in rs ==>
         !Sooner(EffectiveFinish(cfg, FlowAt(fq, j).finish, rs[d.id].spec, now), j,
                 EffectiveFinish(cfg, FlowAt(fq, k).finish, rs[e.id].spec, now), k)
  }

  /** Outcome of the selector on a pruned queue. */
  ghost predicate Picked(cfg: Config, rs: map<Id, Request>, fq: Fair, now: Time, seed: Option<Id>) {
    match seed
    case None => fq.active == {}
    case Some(id) => exists k, e :: Wins(cfg, rs, fq, now, k, e) && e.id == id
  }

  // ----- agreement of the heaps with the queued requests -----

  /** Every queued request has exactly one live heap entry, in its own flow and
      nowhere else; a flow is active exactly when its heap is not empty. Every
      entry belongs to a known request and to a generation that is never issued again. */
  ghost predicate HeapsAgree(rs: map<Id, Request>, queued: set<Id>, fq: Fair, cfg: Config, issued: nat) {
    && (forall id :: id in queued ==> HasOneEntry(rs, fq, id))
    && (forall k, e :: e in HeapAt(fq, k) ==> EntryOk(rs, queued, k, e, cfg, issued))
    && fq.active == (set k | k in fq.flows && fq.flows[k].pending != multiset{})
  }

  ghost predicate HasOneEntry(rs: map<Id, Request>, fq: Fair, id: Id) {
    id in rs && HeapAt(fq, FlowKeyOf(rs[id].spec))[EntryOf(id, rs[id])] == 1
  }

  ghost predicate EntryOk(
      rs: map<Id, Request>, queued: set<Id>, k: FlowKey, e: ReadyEntry, cfg: Config, issued: nat)
  {
    && e.id in rs && Spent(cfg, issued, e.generation)
    && k == FlowKeyOf(rs[e.id].spec) && e.priority == rs[e.id].spec.priority
    && (Live(rs, queued, e) ==> e == EntryOf(e.id, rs[e.id]))
  }

  /** The entries of every heap after a push. */
  lemma PushedHeap(cfg: Config, fq: Fair, id: Id, rec: Request, k: FlowKey)
    ensures HeapAt(Push(cfg, fq, id, rec), k) ==
            HeapAt(fq, k) + (if k == FlowKeyOf(rec.spec) then multiset{EntryOf(id, rec)} else multiset{})
  {
  }

  lemma PushedEntryOk(cfg: Config, rs: map<Id, Request>, queued: set<Id>, fq: Fair, id: Id, rec: Request,
                      issued: nat, later: nat, k: FlowKey, e: ReadyEntry)
    requires HeapsAgree(rs, queued, fq, cfg, issued) && id !in queued && Issued(cfg, issued, later, rec.generation)
    requires id in rs ==> rs[id].spec == rec.spec
    requires e in HeapAt(Push(cfg, fq, id, rec), k)
    ensures EntryOk(rs[id := rec], queued + {id}, k, e, cfg, later)
  {
    PushedHeap(cfg, fq, id, rec, k);
    IssuedIsSpent(cfg, issued, later, rec.generation);
    if e in HeapAt(fq, k) {
      assert EntryOk(rs, queued, k, e, cfg, issued);
    }
  }

  lemma PushedOneEntry(cfg: Config, rs: map<Id, Request>, queued: set<Id>, fq: Fair, id: Id, rec: Request,
                       issued: nat, later: nat, i: Id)
    requires HeapsAgree(rs, queued, fq, cfg, issued) && id !in queued && Issued(cfg, issued, later, rec.generation)
    requires i in queued + {id}
    ensures HasOneEntry(rs[id := rec], Push(cfg, fq, id, rec), i)
  {
    PushedHeap(cfg, fq, id, rec, FlowKeyOf(rs[id := rec][i].spec));
    if i == id {
      IssuedIsSpent(cfg, issued, later, rec.generation);
      assert EntryOf(id, rec) in HeapAt(fq, FlowKeyOf(rec.spec)) ==>
          EntryOk(rs, queued, FlowKeyOf(rec.spec), EntryOf(id, rec), cfg, issued);
    } else {
      assert HasOneEntry(rs, fq, i);
    }
  }

  lemma PushKeepsHeaps(cfg: Config, rs: map<Id, Request>, queued: set<Id>, fq: Fair, id: Id, rec: Request,
                       issued: nat, later: nat)
    requires HeapsAgree(rs, queued, fq, cfg, issued) && id !in queued && Issued(cfg, issued, later, rec.generation)
    requires id in rs ==> rs[id].spec == rec.spec
    ensures HeapsAgree(rs[id := rec], queued + {id}, Push(cfg, fq, id, rec), cfg, later)
  {
    hide Issued, Spent;
    forall i | i in queued + {id} ensures HasOneEntry(rs[id := rec], Push(cfg, fq, id, rec), i) {
      PushedOneEntry(cfg, rs, queued, fq, id, rec, issued, later, i);
    }
    forall k, e | e in HeapAt(Push(cfg, fq, id, rec), k)
      ensures EntryOk(rs[id := rec], queued + {id}, k, e, cfg, later)
    {
      PushedEntryOk(cfg, rs, queued, fq, id, rec, issued, later, k, e);
    }
  }

  /** Agreement carries over when the heaps stay and requests at most leave the queue. */
  lemma SameHeaps(rs: map<Id, Request>, queued: set<Id>, fq: Fair, rs1: map<Id, Request>, queued1: set<Id>, fq1: Fair,
                  cfg: Config, issued: nat, later: nat)
    requires HeapsAgree(rs, queued, fq, cfg, issued) && issued <= later
    requires forall k :: HeapAt(fq1, k) == HeapAt(fq, k)
    requires fq1.active == fq.active && queued1 <= queued && rs.Keys <= rs1.Keys
    requires forall id :: id in rs ==> rs1[id].spec == rs[id].spec
    requires forall id :: id in queued1 ==> id in rs && EntryOf(id, rs1[id]) == EntryOf(id, rs[id])
    ensures HeapsAgree(rs1, queued1, fq1, cfg, later)
  {
    forall id | id in queued1 ensures HasOneEntry(rs1, fq1, id) {
      assert HasOneEntry(rs, fq, id);
    }
    forall k, e | e in HeapAt(fq1, k) ensures EntryOk(rs1, queued1, k, e, cfg, later) {
      assert EntryOk(rs, queued, k, e, cfg, issued);
    }
    forall k ensures k in fq1.active <==> k in fq1.flows && fq1.flows[k].pending != multiset{} {
      assert HeapAt(fq1, k) == HeapAt(fq, k);
    }
  }

  lemma PrunedFlow(rs: map<Id, Request>, queued: set<Id>, fq: Fair, fq1: Fair, k: FlowKey)
    requires Pruned(rs, queued, fq, fq1) && fq.active == (set j | j in fq.flows && fq.flows[j].pending != multiset{})
    ensures HeapAt(fq1, k) <= HeapAt(fq, k)
    ensures forall e :: e in HeapAt(fq, k) && Live(rs, queued, e) ==> HeapAt(fq1, k)[e] == HeapAt(fq, k)[e]
    ensures k in fq1.active <==> k in fq1.flows && fq1.flows[k].pending != multiset{}
    ensures k in fq1.active ==> exists e :: IsTop(HeapAt(fq1, k), e) && Live(rs, queued, e)
  {
    if k in fq.active {
      assert PrunedHeap(rs, queued, fq.flows[k].pending, fq1.flows[k].pending);
    }
  }

  lemma PruneKeepsHeaps(rs: map<Id, Request>, queued: set<Id>, fq: Fair, fq1: Fair, cfg: Config, issued: nat)
    requires HeapsAgree(rs, queued, fq, cfg, issued) && Pruned(rs, queued, fq, fq1)
    ensures HeapsAgree(rs, queued, fq1, cfg, issued)
  {
    forall i | i in queued ensures HasOneEntry(rs, fq1, i) {
      PrunedFlow(rs, queued, fq, fq1, FlowKeyOf(rs[i].spec));
      assert HasOneEntry(rs, fq, i) && Live(rs, queued, EntryOf(i, rs[i]));
    }
    forall k, e | e in HeapAt(fq1, k) ensures EntryOk(rs, queued, k, e, cfg, issued) {
      PrunedFlow(rs, queued, fq, fq1, k);
      assert EntryOk(rs, queued, k, e, cfg, issued);
    }
    forall k ensures k in fq1.active <==> k in fq1.flows && fq1.flows[k].pending != multiset{} {
      PrunedFlow(rs, queued, fq, fq1, k);
    }
  }
}
