/** What the selector knows while it walks the active flows, and why the flow it
    ends up with wins the selection. */
module Selector {
  import opened Types
  import opened ReadyQueue
  import opened Selection

  // ----- heaps -----

  lemma {:induction false} TopExists(p: multiset<ReadyEntry>)
    requires p != multiset{}
    ensures exists e :: IsTop(p, e)
    decreases |p|
  {
    var x :| x in p;
    var q := p - multiset{x};
    if q == multiset{} {
      assert p == multiset{x};
      assert IsTop(p, x);
    } else {
      TopExists(q);
      var e :| IsTop(q, e);
      var t := if Ahead(x, e) then x else e;
      forall d | d in p ensures !Ahead(d, t) {
        assert d != x ==> d in q;
      }
      assert IsTop(p, t);
    }
  }

  // ----- the selector's progress through the active flows -----

  /** Flow k was pruned if it has been seen, and is as it was otherwise. */
  ghost predicate FlowSeen(rs: map<Id, Request>, queued: set<Id>, fq: Fair, fq1: Fair, todo: set<FlowKey>, k: FlowKey)
    requires k in fq.flows && k in fq1.flows
  {
    && fq1.flows[k] == fq.flows[k].(pending := fq1.flows[k].pending)
    && (k in todo || k !in fq.active ==> fq1.flows[k].pending == fq.flows[k].pending)
    && (k in fq.active && k !in todo ==>
          && PrunedHeap(rs, queued, fq.flows[k].pending, fq1.flows[k].pending)
          && (k in fq1.active <==> HasLive(rs, queued, fq.flows[k].pending))
          && (k in fq1.active <==> fq1.flows[k].pending != multiset{}))
  }

  /** fq1 is fq with all active flows pruned except those in todo. */
  ghost predicate Seen(rs: map<Id, Request>, queued: set<Id>, fq: Fair, fq1: Fair, todo: set<FlowKey>) {
    && todo <= fq1.active <= fq.active <= fq.flows.Keys && fq1.flows.Keys == fq.flows.Keys
    && fq1.virtualTime == fq.virtualTime
    && forall k :: k in fq.flows ==> FlowSeen(rs, queued, fq, fq1, todo, k)
  }

  lemma SeenOne(rs: map<Id, Request>, queued: set<Id>, fq: Fair, fq1: Fair, todo: set<FlowKey>, k: FlowKey,
      p: multiset<ReadyEntry>)
    requires Seen(rs, queued, fq, fq1, todo) && k in todo
    requires PrunedHeap(rs, queued, fq1.flows[k].pending, p)
    requires p != multiset{} <==> HasLive(rs, queued, fq1.flows[k].pending)
    ensures Seen(rs, queued, fq,
                 fq1.(flows := fq1.flows[k := fq1.flows[k].(pending := p)],
                      active := if p != multiset{} then fq1.active else fq1.active - {k}), todo - {k})
  {
    hide PrunedHeap, HasLive;
    var fq2 := fq1.(flows := fq1.flows[k := fq1.flows[k].(pending := p)],
                    active := if p != multiset{} then fq1.active else fq1.active - {k});
    forall j | j in fq.flows ensures FlowSeen(rs, queued, fq, fq2, todo - {k}, j) {
      assert FlowSeen(rs, queued, fq, fq1, todo, j);
    }
  }

  lemma AllPruned(rs: map<Id, Request>, queued: set<Id>, fq: Fair, fq1: Fair)
    requires Seen(rs, queued, fq, fq1, {})
    ensures Pruned(rs, queued, fq, fq1)
  {
    hide PrunedHeap, HasLive;
    forall k | k in fq.flows ensures FlowSeen(rs, queued, fq, fq1, {}, k) {}
    assert forall k :: k in fq1.active <==> k in fq.active && HasLive(rs, queued, HeapAt(fq, k));
  }

  lemma LiveTop(rs: map<Id, Request>, queued: set<Id>, fq: Fair, fq1: Fair, k: FlowKey)
    requires Seen(rs, queued, fq, fq1, {}) && k in fq1.active
    ensures exists e :: IsTop(fq1.flows[k].pending, e) && Live(rs, queued, e)
    ensures forall e :: IsTop(fq1.flows[k].pending, e) ==> e.id in rs
  {
    var p1 := fq1.flows[k].pending;
    assert FlowSeen(rs, queued, fq, fq1, {}, k);
    var t :| IsTop(p1, t) && Live(rs, queued, t);
    forall e | IsTop(p1, e) ensures e.id in rs { TopsAgree(p1, e, t); }
  }

  /** Whatever request tops the heap of flow f, its effective finish time is x. */
  ghost predicate FinishIs(cfg: Config, rs: map<Id, Request>, f: Flow, now: Time, x: real) {
    forall e :: IsTop(f.pending, e) && e.id in rs ==> EffectiveFinish(cfg, f.finish, rs[e.id].spec, now) == x
  }

  /** The effective finish times of some flows, and the least of them. */
  ghost predicate IsLeast(cfg: Config, rs: map<Id, Request>, flows: map<FlowKey, Flow>, now: Time,
                          finishes: map<FlowKey, real>, best: FlowKey, x: real)
  {
    && finishes.Keys <= flows.Keys
    && (forall j :: j in finishes ==> FinishIs(cfg, rs, flows[j], now, finishes[j]))
    && (finishes != map[] ==> best in finishes && finishes[best] == x)
    && (forall j :: j in finishes ==> !Sooner(finishes[j], j, x, best))
  }

  lemma LeastKept(cfg: Config, rs: map<Id, Request>, flows: map<FlowKey, Flow>, now: Time,
                  finishes: map<FlowKey, real>, best: FlowKey, x: real, k: FlowKey, f: Flow)
    requires IsLeast(cfg, rs, flows, now, finishes, best, x) && k !in finishes
    ensures IsLeast(cfg, rs, flows[k := f], now, finishes, best, x)
  {
    hide FinishIs, Sooner;
  }

  lemma SoonerTrans(x: real, a: FlowKey, y: real, b: FlowKey, z: real, c: FlowKey)
    requires !Sooner(x, a, y, b) && Sooner(z, c, y, b)
    ensures !Sooner(x, a, z, c)
  {
  }

  lemma LeastGrows(cfg: Config, rs: map<Id, Request>, flows: map<FlowKey, Flow>, now: Time,
                   finishes: map<FlowKey, real>, best: FlowKey, x: real, k: FlowKey, y: real, sooner: bool)
    requires IsLeast(cfg, rs, flows, now, finishes, best, x) && k in flows && k !in finishes
        && FinishIs(cfg, rs, flows[k], now, y)
    requires sooner <==> finishes == map[] || Sooner(y, k, x, best)
    ensures IsLeast(cfg, rs, flows, now, finishes[k := y], if sooner then k else best, if sooner then y else x)
  {
    hide FinishIs;
    var more := finishes[k := y];
    forall j | j in more ensures if sooner then !Sooner(more[j], j, y, k) else !Sooner(more[j], j, x, best) {
      if j != k && sooner { SoonerTrans(finishes[j], j, x, best, y, k); }
    }
  }

  lemma NothingSeen(cfg: Config, rs: map<Id, Request>, queued: set<Id>, fq: Fair, now: Time, best: FlowKey, x: real)
    requires fq.active <= fq.flows.Keys
    ensures Seen(rs, queued, fq, fq, fq.active) && IsLeast(cfg, rs, fq.flows, now, map[], best, x)
  {
  }

  lemma SeenKeys(rs: map<Id, Request>, queued: set<Id>, fq: Fair, fq1: Fair, todo: set<FlowKey>)
    requires Seen(rs, queued, fq, fq1, todo)
    ensures todo <= fq1.active <= fq1.flows.Keys
  {
  }

  lemma NonePicked(cfg: Config, rs: map<Id, Request>, fq: Fair, now: Time)
    requires fq.active == {}
    ensures Picked(cfg, rs, fq, now, None)
  {
  }

  lemma LeastIsOne(cfg: Config, rs: map<Id, Request>, flows: map<FlowKey, Flow>, now: Time,
                   finishes: map<FlowKey, real>, best: FlowKey, x: real)
    requires IsLeast(cfg, rs, flows, now, finishes, best, x) && finishes != map[]
    ensures best in finishes && best in flows
  {
  }

  /** Once every flow has been seen, the least one wins. */
  lemma LeastWins(cfg: Config, rs: map<Id, Request>, queued: set<Id>, fq: Fair, fq1: Fair, now: Time,
                  finishes: map<FlowKey, real>, best: FlowKey, x: real, e: ReadyEntry)
    requires Seen(rs, queued, fq, fq1, {}) && finishes.Keys == fq1.active && finishes != map[]
    requires IsLeast(cfg, rs, fq1.flows, now, finishes, best, x) && IsTop(fq1.flows[best].pending, e)
    ensures Picked(cfg, rs, fq1, now, Some(e.id))
  {
    hide EffectiveFinish, Sooner;
    LiveTop(rs, queued, fq, fq1, best);
    hide Seen;
    assert Wins(cfg, rs, fq1, now, best, e);
  }
}
