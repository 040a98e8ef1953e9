/** The scheduler object. Its fields are the containers and counters of the
    implementation, its methods the critical sections and the helpers they
    share. Every method is proved against the transition of the state machine
    that it implements. */
module Schedulers {
  import opened Types
  import opened Collections
  import opened ReadyQueue
  import opened Ledgers
  import opened Fleets
  import opened Batching
  import opened Machine
  import opened Choices
  import Recovery
  import Protocol
  import Selection
  import opened Selector

  /** Membership by linear search. */
  method Contains<T(==)>(xs: seq<T>, x: T) returns (have: bool)
    ensures have <==> x in xs
  {
    have := false;
    var i := 0;
    while i < |xs|
      invariant 0 <= i <= |xs| && x !in xs[..i] && !have
    {
      if xs[i] == x {
        have := true;
        return;
      }
      i := i + 1;
    }
  }

  class Scheduler {
    const cfg: Config
    /** How well an eligible worker suits a request; only its order matters. */
    const score: (Worker, Spec, real, Time) -> real

    var epoch: nat
    var issued: nat
    var draining: bool
    var tokens: int
    var requests: map<Id, Request>
    var workers: map<Id, Worker>
    var tenants: map<Id, Tenant>
    var flows: map<FlowKey, Flow>
    var compat: map<CompatKey, set<Id>>
    var active: set<FlowKey>
    var queued: set<Id>
    var virtualTime: real
    var globalAdmitted: int
    var globalQueued: int
    var globalReserved: int
    var globalRunning: int

    ghost function View(): State
      reads this
    {
      State(cfg, epoch, issued, draining, tokens, requests, Index(queued, compat, globalQueued),
            Fair(flows, active, virtualTime), Ledger(tenants, globalAdmitted),
                Fleet(workers, globalReserved, globalRunning))
    }

    ghost predicate Valid()
      reads this
    {
      active <= flows.Keys
    }

    constructor (cfg: Config, score: (Worker, Spec, real, Time) -> real, first: Option<nat>)
      ensures Valid() && View() == Initial(cfg, if first.Some? then first.value else 1)
      ensures this.score == score
    {
      this.cfg, this.score := cfg, score;
      epoch := if first.Some? then first.value else 1;
      issued, draining, tokens := 0, false, 0;
      requests, workers, tenants := map[], map[], map[];
      flows, compat, active, queued := map[], map[], {}, {};
      virtualTime := 0.0;
      globalAdmitted, globalQueued, globalReserved, globalRunning := 0, 0, 0, 0;
    }

    method NextId() returns (id: Id)
      modifies this`issued
      ensures issued == old(issued) + 1 && id == IdAt(cfg, issued)
    {
      issued := issued + 1;
      id := IdAt(cfg, issued);
    }

    // ----- weights and compatibility -----

    method TenantWeightOf(t: Id) returns (w: real)
      ensures w == TenantWeight(cfg.tenantWeights, cfg.defaultWeight, t)
    {
      var i := 0;
      while i < |cfg.tenantWeights|
        invariant 0 <= i <= |cfg.tenantWeights|
        invariant TenantWeight(cfg.tenantWeights, cfg.defaultWeight, t) ==
                  TenantWeight(cfg.tenantWeights[i..], cfg.defaultWeight, t)
      {
        if cfg.tenantWeights[i].0 == t {
          return cfg.tenantWeights[i].1;
        }
        i := i + 1;
      }
      w := cfg.defaultWeight;
    }

    method FlowWeight(spec: Spec) returns (w: real)
      ensures w == KeyWeight(cfg, FlowKeyOf(spec))
    {
      var share := TenantWeightOf(spec.tenant);
      w := share * cfg.latencyWeight[spec.latency] * cfg.priorityWeight[spec.priority] * cfg.phaseWeight[spec.phase];
    }

    method IsCompatible(spec: Spec, cap: Capability) returns (r: bool)
      ensures r == Compatible(spec, cap)
    {
      if cap.total <= 0 { return false; }
      if cap.models != [] {
        var have := Contains(cap.models, spec.model);
        if !have { return false; }
      }
      if cap.revisions != [] {
        var have := Contains(cap.revisions, spec.revision);
        if !have { return false; }
      }
      if spec.adapter.Some? && cap.adapters != [] {
        var have := Contains(cap.adapters, spec.adapter.value);
        if !have { return false; }
      }
      if cap.phases != [] {
        var have := Contains(cap.phases, spec.phase);
        if !have { return false; }
      }
      r := true;
    }

    // ----- admission -----

    method AnyCompatible(spec: Spec) returns (any: bool)
      ensures any <==> exists w :: w in workers && Compatible(spec, workers[w].capability)
    {
      any := false;
      var todo := workers.Keys;
      while todo != {}
        invariant todo <= workers.Keys
        invariant any <==> exists w :: w in workers && w !in todo && Compatible(spec, workers[w].capability)
        decreases |todo|
      {
        var w :| w in todo;
        var fits := IsCompatible(spec, workers[w].capability);
        if fits { any := true; }
        todo := todo - {w};
      }
    }

    method MakeAdmission(spec: Spec, now: Time) returns (decision: Decision, reason: Reason)
      ensures (decision, reason) == Admission(View(), spec, now)
    {
      if draining { return Reject, Draining; }
      if spec.Overdue(now) { return Reject, DeadlineExpired; }
      if cfg.enforceFeasibility && spec.deadline.Some? {
        var left := Remaining(spec.deadline.value, now);
        var cost := CeilCost(spec.cost);
        if left > 0 && cost > left {
          if cfg.strictRejection { return Reject, DeadlineInfeasible; }
          return Defer, DeadlineInfeasible;
        }
      }
      if globalAdmitted >= cfg.maxAdmitted { return Defer, AdmissionSaturated; }
      if globalQueued >= cfg.maxQueued { return Defer, QueueSaturated; }
      if cfg.tokenBudget > 0 && tokens + spec.Tokens() > cfg.tokenBudget { return Defer, TokensExhausted; }
      if spec.tenant in tenants && tenants[spec.tenant].admitted >= cfg.tenantConcurrency
          { return Defer, TenantSaturated; }
      if spec.tenant in tenants && tenants[spec.tenant].queued >= cfg.tenantQueueDepth
          { return Defer, TenantDepthSaturated; }
      if workers == map[] { return Admit, Ok; }
      assert workers.Keys != {};
      var any := AnyCompatible(spec);
      if !any { return Defer, NoCompatibleWorker; }
      return Admit, Ok;
    }

    // ----- queue membership -----

    method PushEntry(id: Id, rec: Request)
      requires Valid()
      modifies this`flows, this`active
      ensures Valid() && Fair(flows, active, virtualTime) == Push(cfg, old(View()).fair, id, rec)
    {
      var k := FlowKeyOf(rec.spec);
      var f := if k in flows then flows[k] else EMPTY_FLOW;
      var weight := FlowWeight(rec.spec);
      hide KeyWeight;
      var finish := f.finish;
      if f.pending == multiset{} {
        finish := MaxReal(finish, virtualTime);
        active := active + {k};
      }
      flows := flows[k := Flow(weight, finish, f.pending + multiset{EntryOf(id, rec)})];
    }

    method InsertIndex(id: Id, spec: Spec)
      modifies this`queued, this`compat, this`globalQueued
      ensures Index(queued, compat, globalQueued) == Insert(cfg, old(View()).index, id, spec)
    {
      queued := queued + {id};
      var c := CompatKeyOf(cfg, spec);
      compat := compat[c := (if c in compat then compat[c] else {}) + {id}];
      globalQueued := globalQueued + 1;
    }

    method EnqueueRequest(id: Id, now: Time)
      requires Valid() && id in requests
      modifies this
      ensures Valid() && View() == Machine.EnqueueRequest(old(View()), id, now) && requests.Keys == old(requests).Keys
    {
      hide Push, Insert, NoteQueued;
      var rec := requests[id].(state := RequestState.Queued, queuedAt := now);
      PushEntry(id, rec);
      InsertIndex(id, rec.spec);
      requests := requests[id := rec];
      CountQueued(rec.spec.tenant);
    }

    method CountQueued(t: Id)
      modifies this`tenants
      ensures Ledger(tenants, globalAdmitted) == NoteQueued(old(View()).ledger, t)
    {
      var r := if t in tenants then tenants[t] else Tenant(0, 0);
      tenants := tenants[t := r.(queued := r.queued + 1)];
    }

    /** Take a request out of the indexes; its record is the caller's business. */
    method Dequeue(id: Id, spec: Spec)
      modifies this`queued, this`globalQueued, this`compat, this`tenants
      ensures Index(queued, compat, globalQueued) == Remove(cfg, old(View()).index, id, spec)
      ensures Ledger(tenants, globalAdmitted) == NoteDequeued(old(View()).ledger, spec.tenant)
    {
      if id in queued { globalQueued := globalQueued - 1; }
      queued := queued - {id};
      var c := CompatKeyOf(cfg, spec);
      if c in compat {
        var left := compat[c] - {id};
        compat := if left == {} then compat - {c} else compat[c := left];
      } else {
        assert compat - {c} == compat;
      }
      if spec.tenant in tenants && tenants[spec.tenant].queued > 0 {
        tenants := tenants[spec.tenant := tenants[spec.tenant].(queued := tenants[spec.tenant].queued - 1)];
      }
    }

    method NoteClosed(t: Id)
      modifies this`globalAdmitted, this`tenants
      ensures Ledger(tenants, globalAdmitted) == NoteRetired(old(View()).ledger, t)
    {
      if globalAdmitted > 0 { globalAdmitted := globalAdmitted - 1; }
      var r := if t in tenants then tenants[t] else Tenant(0, 0);
      if r.admitted > 0 { r := r.(admitted := r.admitted - 1); }
      tenants := tenants[t := r];
    }

    method ExpireRequest(id: Id)
      requires Valid() && id in requests
      modifies this
      ensures Valid() && View() == Expire(old(View()), id)
    {
      var rec := requests[id];
      if rec.state != RequestState.Queued { return; }
      Dequeue(id, rec.spec);
      rec := rec.(state := RequestState.Expired, history := WithLast(rec.history, AttemptExpired));
      requests := requests[id := rec];
      NoteClosed(rec.spec.tenant);
    }

    method ExpireScan(now: Time) returns (ghost order: seq<Id>)
      requires Valid()
      modifies this
      ensures Valid() && Enumerates(order, Due(old(View()), now)) && View() == ExpireAll(old(View()), order)
    {
      var due := DueNow(now);
      order := due;
      ghost var start := View();
      var i := 0;
      while i < |due|
        invariant 0 <= i <= |due| && Valid()
        invariant ExpireAll(View(), due[i..]) == ExpireAll(start, due)
      {
        assert due[i..][0] == due[i] && due[i..][1..] == due[i + 1..];
        if due[i] in requests { ExpireRequest(due[i]); }
        i := i + 1;
      }
    }

    method DueNow(now: Time) returns (due: seq<Id>)
      ensures Enumerates(due, Due(View(), now))
    {
      due := [];
      var todo := queued;
      while todo != {}
        invariant todo <= queued && Distinct(due)
        invariant forall id :: id in due <==> id in Due(View(), now) && id !in todo
        decreases |todo|
      {
        var id :| id in todo;
        if id in requests && requests[id].state == RequestState.Queued && requests[id].spec.Overdue(now) {
          due := due + [id];
        }
        todo := todo - {id};
      }
    }

    // ----- selection -----

    /** The requests whose entries the selector keeps. */
    ghost function Kept(now: Time): set<Id>
      reads this
    {
      Runnable(requests, queued, now)
    }

    /** Pop the stale entries of one flow, and those of overdue requests, until a live one is on top. */
    method PruneFlow(k: FlowKey, now: Time) returns (alive: bool)
      requires k in flows && Due(View(), now) == {}
      modifies this`flows
      ensures k in flows && flows == old(flows)[k := old(flows[k]).(pending := flows[k].pending)]
      ensures PrunedHeap(requests, Kept(now), old(flows[k].pending), flows[k].pending)
      ensures alive <==> flows[k].pending != multiset{}
      ensures alive <==> HasLive(requests, Kept(now), old(flows[k].pending))
      ensures alive ==> exists e :: IsTop(flows[k].pending, e) && Live(requests, Kept(now), e)
    {
      ghost var before := flows[k].pending;
      var p := flows[k].pending;
      alive := false;
      while p != multiset{} && !alive
        invariant flows == old(flows) && p <= before
        invariant forall e :: e in before && Live(requests, Kept(now), e) ==> p[e] == before[e]
        invariant alive ==> exists e :: IsTop(p, e) && Live(requests, Kept(now), e)
        decreases |p|, !alive
      {
        TopExists(p);
        var top :| IsTop(p, top);
        if top.id !in requests || top.id !in queued || requests[top.id].generation != top.generation {
          p := p - multiset{top};
        } else if requests[top.id].spec.Overdue(now) {
          // Whatever is due has been expired: this request is not in state Queued, and expiring it again does nothing.
          assert top.id !in Due(View(), now) && requests[top.id].state != RequestState.Queued;
          p := p - multiset{top};
        } else {
          alive := true;
        }
      }
      flows := flows[k := flows[k].(pending := p)];
    }

    /** The effective finish time of a flow with a live entry on top. */
    method TopFinish(k: FlowKey, now: Time) returns (x: real)
      requires k in flows && exists e :: IsTop(flows[k].pending, e) && Live(requests, Kept(now), e)
      ensures FinishIs(cfg, requests, flows[k], now, x)
    {
      hide EffectiveFinish;
      var top :| IsTop(flows[k].pending, top);
      forall e | IsTop(flows[k].pending, e) ensures e.id == top.id {
        Selection.TopsAgree(flows[k].pending, e, top);
      }
      x := EffectiveFinish(cfg, flows[k].finish, requests[top.id].spec, now);
    }

    /** The selector's loop invariant: the flows in todo are yet to be looked at, and `best` is the
        least of those that have been and are still active. */
    ghost predicate Choosing(fq: Fair, todo: set<FlowKey>, finishes: map<FlowKey, real>, now: Time,
                             found: bool, best: FlowKey, x: real)
      reads this
    {
      && Seen(requests, Kept(now), fq, View().fair, todo) && finishes.Keys == active - todo
      && IsLeast(cfg, requests, flows, now, finishes, best, x)
      && (found <==> finishes != map[])
    }

    /** Look at one active flow: drop it if nothing live is left, else compare it with the best so far. */
    method VisitFlow(k: FlowKey, now: Time, found: bool, best: FlowKey, x: real,
                     ghost fq: Fair, ghost todo: set<FlowKey>, ghost finishes: map<FlowKey, real>)
      returns (found1: bool, best1: FlowKey, x1: real, ghost finishes1: map<FlowKey, real>)
      requires Choosing(fq, todo, finishes, now, found, best, x) && k in todo && Due(View(), now) == {}
      modifies this`flows, this`active
      ensures Choosing(fq, todo - {k}, finishes1, now, found1, best1, x1)
    {
      hide EffectiveFinish, PrunedHeap, HasLive, Seen, IsLeast, FinishIs, Runnable;
      found1, best1, x1, finishes1 := found, best, x, finishes;
      ghost var fq1 := View().fair;
      SeenKeys(requests, Kept(now), fq, fq1, todo);
      var alive := PruneFlow(k, now);
      SeenOne(requests, Kept(now), fq, fq1, todo, k, flows[k].pending);
      LeastKept(cfg, requests, fq1.flows, now, finishes, best, x, k, flows[k]);
      if !alive {
        active := active - {k};
      } else {
        var y := TopFinish(k, now);
        var sooner := !found || y < x || (y == x && FlowLess(k, best));
        LeastGrows(cfg, requests, flows, now, finishes, best, x, k, y, sooner);
        finishes1 := finishes[k := y];
        if sooner { found1, best1, x1 := true, k, y; }
      }
    }

    /** Choose the next request. Every caller has just expired what is due at this instant. */
    method PickSeed(now: Time) returns (seed: Option<Id>)
      requires Valid() && Due(View(), now) == {}
      modifies this`flows, this`active
      ensures Valid() && PickOn(old(View()), now, seed, View())
    {
      hide EffectiveFinish, Seen, IsLeast, Pruned, Picked, Runnable;
      ghost var fq := View().fair;
      ghost var finishes: map<FlowKey, real> := map[];
      var todo := active;
      var found, best, x := false, FlowKey(0, 0, 0, 0), 0.0;
      NothingSeen(cfg, requests, Kept(now), fq, now, best, x);
      while todo != {}
        invariant Choosing(fq, todo, finishes, now, found, best, x) && Due(View(), now) == {}
        decreases |todo|
      {
        var k :| k in todo;
        found, best, x, finishes := VisitFlow(k, now, found, best, x, fq, todo, finishes);
        todo := todo - {k};
      }
      ghost var fq1 := View().fair;
      SeenKeys(requests, Kept(now), fq, fq1, {});
      AllPruned(requests, Kept(now), fq, fq1);
      if !found {
        assert finishes.Keys == {};
        NonePicked(cfg, requests, fq1, now);
        return None;
      }
      LeastIsOne(cfg, requests, flows, now, finishes, best, x);
      LiveTop(requests, Kept(now), fq, fq1, best);
      var e :| IsTop(flows[best].pending, e);
      seed := Some(e.id);
      LeastWins(cfg, requests, Kept(now), fq, fq1, now, finishes, best, x, e);
    }

    method AccountFlow(spec: Spec, cost: real)
      requires Valid()
      modifies this`flows, this`virtualTime
      ensures Valid() && View().fair == Account(old(View()).fair, FlowKeyOf(spec), cost)
    {
      var k := FlowKeyOf(spec);
      var f := if k in flows then flows[k] else EMPTY_FLOW;
      var w := if f.weight > 0.0 then f.weight else 1.0;
      f := f.(finish := f.finish + cost / w);
      flows := flows[k := f];
      virtualTime := MaxReal(virtualTime, f.finish);
    }

    // ----- batches -----

    method CollectCandidates(seed: Id, now: Time) returns (ids: seq<Id>)
      requires seed in requests
      ensures Enumerates(ids, Candidates(cfg, requests, View().index, seed, now))
    {
      ids := [];
      var key := CompatKeyOf(cfg, requests[seed].spec);
      if key in compat {
        var todo := compat[key];
        while todo != {}
          invariant todo <= compat[key] && Distinct(ids)
          invariant forall id :: id in ids <==> id in Candidates(cfg, requests, View().index, seed, now) && id !in todo
          decreases |todo|
        {
          var id :| id in todo;
          if id != seed && id in queued && id in requests && requests[id].state == RequestState.Queued &&
             !requests[id].spec.Overdue(now) {
            ids := ids + [id];
          }
          todo := todo - {id};
        }
      }
    }

    /** Where x belongs in an ordered list. */
    method Position(ids: seq<Id>, x: Id, now: Time) returns (j: nat)
      requires Ordered(requests, now, ids) && x in requests && x !in ids
      ensures j <= |ids|
      ensures forall i :: 0 <= i < j ==> Before(requests, now, ids[i], x)
      ensures forall i :: j <= i < |ids| ==> Before(requests, now, x, ids[i])
    {
      j := 0;
      while j < |ids| && Before(requests, now, ids[j], x)
        invariant 0 <= j <= |ids|
        invariant forall i :: 0 <= i < j ==> Before(requests, now, ids[i], x)
      {
        j := j + 1;
      }
      forall i | j <= i < |ids| ensures Before(requests, now, x, ids[i]) {
        assert i > j ==> Before(requests, now, ids[j], ids[i]);
      }
    }

    static lemma Inserted(rs: map<Id, Request>, ids: seq<Id>, x: Id, now: Time, j: nat)
      requires Ordered(rs, now, ids) && x in rs && j <= |ids|
      requires forall i :: 0 <= i < j ==> Before(rs, now, ids[i], x)
      requires forall i :: j <= i < |ids| ==> Before(rs, now, x, ids[i])
      ensures Ordered(rs, now, ids[..j] + [x] + ids[j..])
      ensures forall y :: y in ids[..j] + [x] + ids[j..] <==> y in ids || y == x
    {
      assert ids == ids[..j] + ids[j..];
    }

    method SortCandidates(ids: seq<Id>, now: Time) returns (sorted: seq<Id>)
      requires Distinct(ids) && forall i :: 0 <= i < |ids| ==> ids[i] in requests
      ensures Ordered(requests, now, sorted) && forall x :: x in sorted <==> x in ids
    {
      hide Ordered;
      sorted := [];
      assert Ordered(requests, now, sorted) by { EmptyOrdered(requests, now); }
      var i := 0;
      while i < |ids|
        invariant 0 <= i <= |ids| && Ordered(requests, now, sorted)
        invariant forall x :: x in sorted <==> x in ids[..i]
      {
        var j := Position(sorted, ids[i], now);
        Inserted(requests, sorted, ids[i], now, j);
        sorted := sorted[..j] + [ids[i]] + sorted[j..];
        assert ids[..i + 1] == ids[..i] + [ids[i]];
        i := i + 1;
      }
      assert ids[..|ids|] == ids;
    }

    static lemma EmptyOrdered(rs: map<Id, Request>, now: Time)
      ensures Ordered(rs, now, [])
    {
    }

    method FormBatch(seed: Id, now: Time) returns (members: seq<Id>)
      requires seed in requests
      ensures IsBatch(cfg, requests, View().index, seed, now, members) && members != [] && members[0] == seed
      ensures forall i :: 0 <= i < |members| ==> members[i] in requests
    {
      var spec := requests[seed].spec;
      var limit := cfg.maxBatch;
      if spec.maxBatch > 0 { limit := spec.maxBatch; }
      if limit < 1 { limit := 1; }
      var ids := CollectCandidates(seed, now);
      forall i | 0 <= i < |ids| ensures ids[i] in requests { assert ids[i] in ids; }
      ids := SortCandidates(ids, now);
      assert OrderedCandidates(cfg, requests, View().index, seed, now, ids);
      var n := CutBatch(limit, spec.Tokens(), ids);
      members := [seed] + ids[..n];
    }

    /** How many of the ordered candidates join. */
    method CutBatch(limit: int, first: int, ids: seq<Id>) returns (n: nat)
      requires forall i :: 0 <= i < |ids| ==> ids[i] in requests
      ensures n == Take(cfg, requests, limit, 1, first, ids)
    {
      n := 0;
      var tok := first;
      ghost var sum := first;
      while n < |ids|
        invariant 0 <= n <= |ids| && (cfg.maxTokens > 0 ==> tok == sum)
        invariant Take(cfg, requests, limit, 1, first, ids) == n + Take(cfg, requests, limit, 1 + n, sum, ids[n..])
      {
        if 1 + n >= limit { return; }
        if cfg.maxTokens > 0 {
          var add := requests[ids[n]].spec.Tokens();
          if tok + add > cfg.maxTokens { return; }
          tok := tok + add;
        }
        assert ids[n..][0] == ids[n] && ids[n..][1..] == ids[n + 1..];
        sum := sum + requests[ids[n]].spec.Tokens();
        n := n + 1;
      }
    }

    // ----- worker selection -----

    method IsEligible(r: Worker, spec: Spec, cost: real, now: Time) returns (eligible: bool)
      ensures eligible == Eligible(r, spec, cost, now)
    {
      if r.state != Online && r.state != Busy { return false; }
      var fits := IsCompatible(spec, r.capability);
      if !fits { return false; }
      var units := CeilCost(cost);
      var avail := r.available - r.reserved;
      if r.capability.total > 0 {
        if avail < units { return false; }
        if units > r.capability.total { return false; }
      }
      if spec.Overdue(now) { return false; }
      eligible := true;
    }

    /** The eligible worker with the highest score, the smaller identifier among equals; the
        invalid identifier when no worker is eligible. */
    method SelectWorker(spec: Spec, cost: real, now: Time) returns (best: Id)
      ensures MaySelect(workers, spec, cost, now, best)
      ensures best != NO_ID ==> forall v :: v in workers && Eligible(workers[v], spec, cost, now) ==>
                score(workers[v], spec, cost, now) < score(workers[best], spec, cost, now) ||
                (score(workers[v], spec, cost, now) == score(workers[best], spec, cost, now) && best <= v)
    {
      best := NO_ID;
      var bestScore, found := 0.0, false;
      var todo := workers.Keys;
      while todo != {}
        invariant todo <= workers.Keys
        invariant if found
                  then best in workers && Eligible(workers[best], spec, cost, now)
                      && bestScore == score(workers[best], spec, cost, now)
                  else best == NO_ID && forall v :: v in workers && v !in todo ==>
                      !Eligible(workers[v], spec, cost, now)
        invariant found ==> forall v :: v in workers && v !in todo && Eligible(workers[v], spec, cost, now) ==>
                    score(workers[v], spec, cost, now) < bestScore
                        || (score(workers[v], spec, cost, now) == bestScore && best <= v)
        decreases |todo|
      {
        hide Eligible;
        var w :| w in todo;
        var eligible := IsEligible(workers[w], spec, cost, now);
        if eligible {
          var x := score(workers[w], spec, cost, now);
          if !found || x > bestScore || (x == bestScore && w < best) {
            best, bestScore, found := w, x, true;
          }
        }
        todo := todo - {w};
      }
    }

    // ----- releasing and finishing -----

    method ReleaseBatch(w: Id, b: Id)
      modifies this`workers, this`globalReserved, this`globalRunning
      ensures View().fleet == Fleets.ReleaseBatch(old(View()).fleet, w, b)
    {
      if w !in workers { return; }
      var r := workers[w];
      var units := if b in r.batchUnits then r.batchUnits[b] else 0;
      var running, reserved, allRunning, allReserved := r.running, r.reserved, globalRunning, globalReserved;
      if b in r.started {
        running, allRunning := running - units, allRunning - units;
      } else {
        reserved, allReserved := reserved - units, allReserved - units;
      }
      running, reserved := Clamp(running), Clamp(reserved);
      allRunning, allReserved := Clamp(allRunning), Clamp(allReserved);
      var st := if running == 0 && reserved == 0 && r.state == Busy then Online else r.state;
      workers := workers[w := r.(running := running, reserved := reserved, state := st,
          batchUnits := r.batchUnits - {b},
                                 batchPending := r.batchPending - {b}, started := r.started - {b})];
      globalRunning, globalReserved := allRunning, allReserved;
    }

    /** Take a request off worker w; an unknown worker changes nothing. */
    method ReleaseBatchMember(id: Id, w: Id)
      requires Valid() && id in requests
      modifies this`workers, this`globalReserved, this`globalRunning, this`requests
      ensures View().fleet == ReleaseMember(old(View()).fleet, w, id, old(requests)[id].batch)
      ensures requests == old(requests)[id := old(requests)[id].(batch := BatchAfterRelease(old(View()),
          old(requests)[id], w))]
    {
      if w !in workers { return; }
      var batch := requests[id].batch;
      requests := requests[id := requests[id].(batch := None)];
      DropFrom(id, w, batch);
    }

    method DropFrom(id: Id, w: Id, batch: Option<Id>)
      requires w in workers
      modifies this`workers, this`globalReserved, this`globalRunning
      ensures View().fleet == ReleaseMember(old(View()).fleet, w, id, batch)
    {
      hide Fleets.ReleaseBatch;
      var r := workers[w].(inFlight := workers[w].inFlight - {id});
      if batch.Some? && batch.value in r.batchPending {
        r := r.(batchPending := r.batchPending[batch.value := r.batchPending[batch.value] - 1]);
        workers := workers[w := r];
        if r.batchPending[batch.value] <= 0 { ReleaseBatch(w, batch.value); }
      } else {
        workers := workers[w := r];
      }
    }

    /** The common part of finishing a request as completed, failed or expired. */
    method FinishRequest(id: Id, w: Id, st: RequestState, a: AttemptState)
      requires Valid() && id in requests
      modifies this
      ensures Valid() && View() == Finish(old(View()), id, w, st, a)
    {
      hide ReleaseMember;
      ReleaseBatchMember(id, w);
      var rec := requests[id];
      rec := rec.(state := st, history := WithLast(rec.history, a));
      requests := requests[id := rec];
      NoteClosed(rec.spec.tenant);
    }

    /** Mark a request cancelled and take it out of the indexes and counters. */
    method CloseCancelled(id: Id)
      requires Valid() && id in requests
      modifies this
      ensures Valid()
      ensures var rec := old(requests)[id];
              View() == Retire(DequeueRequest(old(View()), id,
                  rec.(state := RequestState.Cancelled, cancelCommitted := true,
                                                                    history := WithLast(rec.history,
                                                                        AttemptCancelled))),
                               rec.spec.tenant)
    {
      hide Remove, NoteDequeued, NoteRetired, WithLast;
      var rec := requests[id];
      Dequeue(id, rec.spec);
      rec := rec.(state := RequestState.Cancelled, cancelCommitted := true,
          history := WithLast(rec.history, AttemptCancelled));
      requests := requests[id := rec];
      NoteClosed(rec.spec.tenant);
    }

    method FinishCancelledRequest(id: Id, w: Id)
      requires Valid() && id in requests
      modifies this
      ensures Valid() && View() == FinishCancelled(old(View()), id, w)
    {
      hide ReleaseMember, Remove, NoteDequeued, NoteRetired, WithLast;
      if IsTerminal(requests[id].state) { return; }
      if requests[id].state in {RequestState.Reserved, RequestState.Dispatched, RequestState.Running} {
        ReleaseBatchMember(id, w);
      }
      CloseCancelled(id);
    }

    method MayRetry(id: Id, now: Time) returns (may: bool)
      requires id in requests
      ensures may == CanRetry(View(), requests[id], now)
    {
      var rec := requests[id];
      if rec.cancelRequested || rec.cancelCommitted { return false; }
      if |rec.history| >= cfg.maxAttempts { return false; }
      if rec.spec.Overdue(now) { return false; }
      may := true;
    }

    /** Fail the current attempt and start a new one under fresh identifiers. */
    method RenewAttempt(id: Id)
      requires id in requests
      modifies this`issued, this`requests
      ensures issued == old(issued) + 2
      ensures requests == old(requests)[id := RetriedRecord(old(requests)[id], IdAt(cfg, old(issued) + 1),
          IdAt(cfg, old(issued) + 2))]
    {
      var generation := NextId();
      var attempt := NextId();
      var rec := requests[id];
      rec := rec.(generation := generation, attempt := attempt, batch := None,
                  history := WithLast(rec.history, AttemptFailed) +
                      [Attempt(attempt, generation, AttemptCreated, NO_ID)]);
      requests := requests[id := rec];
    }

    static lemma RetriedIgnoresBatch(rec: Request, batch: Option<Id>, generation: Id, attempt: Id)
      ensures RetriedRecord(rec.(batch := batch), generation, attempt) == RetriedRecord(rec, generation, attempt)
    {
    }

    method RetryRequest(id: Id, w: Id, now: Time)
      requires Valid() && id in requests
      modifies this
      ensures Valid() && View() == MakeRetry(old(View()), id, w, now)
    {
      hide ReleaseMember, Machine.EnqueueRequest, RetriedRecord, BatchAfterRelease;
      RetriedIgnoresBatch(requests[id], BatchAfterRelease(View(), requests[id], w), IdAt(cfg, issued + 1),
          IdAt(cfg, issued + 2));
      ReleaseBatchMember(id, w);
      RenewAttempt(id);
      assert requests == old(requests)[id := RetriedRecord(old(requests)[id], IdAt(cfg, old(issued) + 1),
          IdAt(cfg, old(issued) + 2))];
      EnqueueRequest(id, now);
    }

    // ----- reports -----

    method CheckStart(r: Report) returns (answer: ConfirmResult)
      ensures answer == ConfirmAnswer(View(), r)
    {
      if r.epoch != epoch { return Refused(ErrStaleEpoch); }
      if r.request !in requests { return Refused(NotFound); }
      var rec := requests[r.request];
      if rec.attempt != r.attempt || rec.generation != r.generation { return Refused(ErrStaleAttempt); }
      if rec.state != RequestState.Reserved { return Refused(InvalidState); }
      if r.worker !in workers || workers[r.worker].boot != r.boot { return Refused(ErrStaleWorker); }
      var wr := workers[r.worker];
      if wr.state == Offline || wr.state == Unhealthy || wr.state == Drained { return Refused(InvalidState); }
      if rec.batch.None? { return Refused(InvalidState); }
      return Confirmed;
    }

    method StartBatchOn(w: Id, b: Id)
      requires w in workers
      modifies this`workers, this`globalReserved, this`globalRunning
      ensures w in workers && View().fleet == StartBatch(old(View()).fleet, w, b)
    {
      var r := workers[w];
      if b !in r.started {
        var units := if b in r.batchUnits then r.batchUnits[b] else 0;
        workers := workers[w := r.(reserved := r.reserved - units, running := r.running + units,
            started := r.started + {b})];
        globalReserved := globalReserved - units;
        globalRunning := globalRunning + units;
      }
    }

    method ConfirmStart(r: Report) returns (answer: ConfirmResult)
      requires Valid()
      modifies this
      ensures Valid() && answer == ConfirmAnswer(old(View()), r) && View() == Confirm(old(View()), r)
    {
      hide StartBatch, WithWorker;
      answer := CheckStart(r);
      if answer != Confirmed { return; }
      var rec := requests[r.request];
      StartBatchOn(r.worker, rec.batch.value);
      requests := requests[r.request := rec.(state := RequestState.Running,
          history := WithWorker(rec.history, r.worker))];
      var wr := workers[r.worker];
      wr := wr.(inFlight := wr.inFlight + {r.request});
      if wr.state == Online { wr := wr.(state := Busy); }
      if r.available >= 0 { wr := wr.(available := r.available); }
      workers := workers[r.worker := wr];
    }

    method ScreenReport(r: Report) returns (a: Option<Acceptance>)
      ensures a == Screen(View(), r)
    {
      if r.epoch != epoch { return Some(StaleEpoch); }
      if r.worker !in workers || workers[r.worker].boot != r.boot { return Some(StaleWorker); }
      if r.request !in requests { return Some(Invalid); }
      var rec := requests[r.request];
      if rec.attempt != r.attempt || rec.generation != r.generation { return Some(StaleAttempt); }
      if IsTerminal(rec.state) { return Some(Duplicate); }
      if rec.cancelCommitted { return Some(CancelledOutcome); }
      return None;
    }

    method FailOrRetry(r: Report, now: Time)
      requires Valid() && Screen(View(), r).None? && (r.status == FailedStatus || r.status == Ambiguous)
      modifies this
      ensures Valid() && View() == Complete(old(View()), r, now)
    {
      hide Finish, MakeRetry, CanRetry;
      var retryable := r.failure == RetryableTransport || r.failure == RetryableWorker ||
                       (r.failure == AmbiguousDispatch && cfg.retryOnAmbiguous);
      var may := MayRetry(r.request, now);
      if retryable && may {
        RetryRequest(r.request, r.worker, now);
      } else {
        FinishRequest(r.request, r.worker, RequestState.Failed, AttemptFailed);
      }
    }

    method MarkStale(r: Report, ghost now: Time)
      requires Valid() && Screen(View(), r).None? && r.status == Stale
      modifies this
      ensures Valid() && View() == Complete(old(View()), r, now)
    {
      hide ReleaseMember, WithLast;
      ReleaseBatchMember(r.request, r.worker);
      var rec := requests[r.request];
      requests := requests[r.request := rec.(history := WithLast(rec.history, AttemptStale))];
    }

    method CompleteAttempt(r: Report, now: Time) returns (answer: Acceptance)
      requires Valid()
      modifies this
      ensures Valid() && answer == CompleteAnswer(old(View()), r) && View() == Complete(old(View()), r, now)
    {
      hide Finish, FinishCancelled, MakeRetry, CanRetry, ReleaseMember;
      var early := ScreenReport(r);
      if early.Some? { return early.value; }
      if r.status == Succeeded {
        if requests[r.request].cancelRequested {
          FinishCancelledRequest(r.request, r.worker);
          return CancelledOutcome;
        }
        FinishRequest(r.request, r.worker, RequestState.Completed, AttemptSucceeded);
        return Accepted;
      }
      if r.status == CancelledStatus {
        FinishCancelledRequest(r.request, r.worker);
        return Accepted;
      }
      if r.status == ExpiredStatus {
        FinishRequest(r.request, r.worker, RequestState.Expired, AttemptExpired);
        return Accepted;
      }
      if r.status == Stale {
        MarkStale(r, now);
        return StaleAttempt;
      }
      FailOrRetry(r, now);
      return Accepted;
    }

    // ----- cancellation -----

    method CancelRequest(id: Id) returns (answer: CancelResult)
      requires Valid()
      modifies this
      ensures Valid() && answer == CancelAnswer(old(View()), id) && View() == Cancel(old(View()), id)
    {
      hide FinishCancelled;
      if id !in requests { return CancelRefused(NotFound); }
      var rec := requests[id];
      if IsTerminal(rec.state) { return CancelRefused(InvalidState); }
      if rec.state == RequestState.Reserved {
        FinishCancelledRequest(id, LastWorker(rec.history));
        return CancelAccepted;
      }
      if rec.state == RequestState.Dispatched || rec.state == RequestState.Running {
        requests := requests[id := rec.(cancelRequested := true)];
        return CancelAccepted;
      }
      FinishCancelledRequest(id, NO_ID);
      return CancelAccepted;
    }

    /** Some order in which a set can be walked. */
    static method Listing(s: set<Id>) returns (order: seq<Id>)
      ensures Enumerates(order, s)
    {
      order := [];
      var todo := s;
      while todo != {}
        invariant todo <= s && Distinct(order)
        invariant forall x :: x in order <==> x in s && x !in todo
        decreases |todo|
      {
        var x :| x in todo;
        order := order + [x];
        todo := todo - {x};
      }
    }

    method CancelAllQueued() returns (ghost order: seq<Id>)
      requires Valid()
      modifies this
      ensures Valid() && Enumerates(order, old(queued)) && View() == CancelAll(old(View()), order)
    {
      hide FinishCancelled;
      var ids := Listing(queued);
      order := ids;
      ghost var start := View();
      var i := 0;
      while i < |ids|
        invariant 0 <= i <= |ids| && Valid()
        invariant CancelAll(View(), ids[i..]) == CancelAll(start, ids)
      {
        assert ids[i..][0] == ids[i] && ids[i..][1..] == ids[i + 1..];
        if ids[i] in requests { FinishCancelledRequest(ids[i], NO_ID); }
        i := i + 1;
      }
    }

    // ----- submission -----

    method SubmitRequest(spec: Spec, pre: Option<Id>, now: Time) returns (answer: SubmitResult)
      requires Valid()
      modifies this
      ensures Valid() && answer == SubmitAnswer(old(View()), spec, pre, now)
          && View() == Submit(old(View()), spec, pre, now)
    {
      hide Machine.EnqueueRequest, NoteAdmitted, Admission;
      if !spec.Valid() { return SubmitError(InvalidArgument); }
      var id: Id;
      if pre.Some? {
        id := pre.value;
      } else {
        id := NextId();
      }
      AdmissionIgnoresIds(old(View()), spec, now, issued);
      var decision, reason := MakeAdmission(spec, now);
      match decision
      case Admit =>
        AdmitRequest(id, spec, now);
        return Submitted(SubmitOutput(Admit, reason, id, requests[id].attempt, requests[id].generation));
      case Defer =>
        return Submitted(SubmitOutput(Defer, reason, NO_ID, NO_ID, NO_ID));
      case Reject =>
        var generation := NextId();
        if id !in requests { requests := requests[id := RejectedRecord(spec, generation, now)]; }
        return Submitted(SubmitOutput(Reject, reason, NO_ID, NO_ID, NO_ID));
    }

    static lemma AdmissionIgnoresIds(s: State, spec: Spec, now: Time, n: nat)
      ensures Admission(s.(issued := n), spec, now) == Admission(s, spec, now)
    {
    }

    /** Store the record unless the identifier is taken, queue whatever is stored there, and count it. */
    method AdmitRequest(id: Id, spec: Spec, now: Time)
      requires Valid()
      modifies this
      ensures Valid() && id in requests
      ensures var s := old(View());
              var s1 := s.(issued := s.issued + 2,
                           requests := InsertRecord(s.requests, id, FirstRecord(spec, Fresh(s, 2), Fresh(s, 1), now)));
              var s2 := Machine.EnqueueRequest(s1, id, now);
              View() == s2.(ledger := NoteAdmitted(s2.ledger, spec.tenant))
    {
      hide Machine.EnqueueRequest, NoteAdmitted, InsertRecord, FirstRecord;
      RecordRequest(id, spec, now);
      EnqueueRequest(id, now);
      CountAdmitted(spec.tenant);
    }

    method RecordRequest(id: Id, spec: Spec, now: Time)
      requires Valid()
      modifies this
      ensures Valid() && id in requests
      ensures var s := old(View());
              View() == s.(issued := s.issued + 2,
                           requests := InsertRecord(s.requests, id, FirstRecord(spec, Fresh(s, 2), Fresh(s, 1), now)))
    {
      hide InsertRecord, FirstRecord;
      var generation := NextId();
      var attempt := NextId();
      InsertedKnown(requests, id, FirstRecord(spec, attempt, generation, now));
      requests := InsertRecord(requests, id, FirstRecord(spec, attempt, generation, now));
    }

    static lemma InsertedKnown(rs: map<Id, Request>, id: Id, rec: Request)
      ensures id in InsertRecord(rs, id, rec)
    {
    }

    method CountAdmitted(t: Id)
      modifies this`globalAdmitted, this`tenants
      ensures Ledger(tenants, globalAdmitted) == NoteAdmitted(old(View()).ledger, t)
    {
      globalAdmitted := globalAdmitted + 1;
      var r := if t in tenants then tenants[t] else Tenant(0, 0);
      tenants := tenants[t := r.(admitted := r.admitted + 1)];
    }

    // ----- dispatch -----

    method BatchDemand(members: seq<Id>) returns (cost: real, units: int)
      requires forall i :: 0 <= i < |members| ==> members[i] in requests
      ensures cost == BatchCost(requests, members) && units == BatchUnits(requests, members)
    {
      cost, units := 0.0, 0;
      var i := 0;
      while i < |members|
        invariant 0 <= i <= |members|
        invariant cost + BatchCost(requests, members[i..]) == BatchCost(requests, members)
        invariant units + BatchUnits(requests, members[i..]) == BatchUnits(requests, members)
      {
        assert members[i..][0] == members[i] && members[i..][1..] == members[i + 1..];
        var c := requests[members[i]].spec.cost;
        cost, units := cost + ChargedCost(c), units + CeilCost(c);
        i := i + 1;
      }
    }

    method ReserveMember(id: Id, b: Id)
      requires Valid() && id in requests
      modifies this
      ensures Valid() && View() == ReserveOne(old(View()), id, b)
    {
      hide Remove, NoteDequeued, Account, WithLast;
      var rec := requests[id];
      Dequeue(id, rec.spec);
      AccountFlow(rec.spec, ChargedCost(rec.spec.cost));
      requests := requests[id := rec.(state := RequestState.Reserved, batch := Some(b),
          history := WithLast(rec.history, AttemptReserved))];
    }

    method ReserveMembers(members: seq<Id>, b: Id)
      requires Valid()
      modifies this
      ensures Valid() && View() == ReserveAll(old(View()), members, b)
    {
      hide ReserveOne;
      ghost var start := View();
      var i := 0;
      while i < |members|
        invariant 0 <= i <= |members| && Valid()
        invariant ReserveAll(View(), members[i..], b) == ReserveAll(start, members, b)
      {
        assert members[i..][0] == members[i] && members[i..][1..] == members[i + 1..];
        if members[i] in requests { ReserveMember(members[i], b); }
        i := i + 1;
      }
    }

    /** Reserve a fresh batch on worker w. */
    method ReserveBatch(members: seq<Id>, w: Id, units: int) returns (b: Id)
      requires Valid() && w in workers && (forall i :: 0 <= i < |members| ==> members[i] in requests)
      requires units == BatchUnits(requests, members)
      modifies this
      ensures Valid() && b == Fresh(old(View()), 1) && View() == Reserve(old(View()), members, w)
    {
      hide BatchUnits, ReserveAll;
      b := NextId();
      var r := workers[w];
      workers := workers[w := r.(reserved := r.reserved + units, batchUnits := r.batchUnits[b := units],
                                 batchPending := r.batchPending[b := |members|])];
      globalReserved := globalReserved + units;
      assert View() == Open(old(View()), members, w);
      ReserveMembers(members, b);
    }

    /** Plan a dispatch for one request: expire what is due, form a batch around the request,
        choose a worker and reserve the batch on it. */
    method PlanDispatch(request: Id, now: Time) returns (out: PlanResult, ghost order: seq<Id>)
      requires Valid()
      modifies this
      ensures Valid() && Plan(old(View()), request, now, order, out, View())
      ensures out.Dispatch? ==> Preferred(score, ExpireAll(old(View()), order), out.members, out.worker, now)
    {
      hide Preferred, ExpireAll, Due, Expire, IsBatch, MaySelect, Reserve, BatchUnits, BatchCost, Enumerates;
      order := ExpireScan(now);
      out := PlanNow(request, now);
    }

    method PlanNow(request: Id, now: Time) returns (out: PlanResult)
      requires Valid()
      modifies this
      ensures Valid() && PlanOn(old(View()), request, now, out, View())
      ensures out.Dispatch? ==> Preferred(score, old(View()), out.members, out.worker, now)
    {
      hide Expire, IsBatch, MaySelect, Reserve, BatchUnits, BatchCost, Preferred, Eligible;
      if request !in requests { return RequestNotFound; }
      var rec := requests[request];
      if rec.spec.Overdue(now) {
        ExpireRequest(request);
        return Hold;
      }
      if rec.state != RequestState.Queued && rec.state != RequestState.Admitted { return Hold; }
      ghost var s := View();
      var members := FormBatch(request, now);
      var cost, units := BatchDemand(members);
      var w := SelectWorker(rec.spec, cost, now);
      if w == NO_ID {
        out := NoEligibleWorker;
        assert PlanBatch(s, request, now, members, w, out, View());
        return;
      }
      SelectedIsWorker(workers, rec.spec, cost, now, w);
      PreferredExact(score, s, members, w, now);
      var avail := workers[w].available - workers[w].reserved;
      if workers[w].capability.total > 0 && units > avail {
        out := Hold;
        assert PlanBatch(s, request, now, members, w, out, View());
        return;
      }
      var b := ReserveBatch(members, w, units);
      out := Dispatch(w, b, members);
      assert PlanBatch(s, request, now, members, w, out, View());
    }

    static lemma SelectedIsWorker(ws: map<Id, Worker>, spec: Spec, cost: real, now: Time, w: Id)
      requires MaySelect(ws, spec, cost, now, w) && w != NO_ID
      ensures w in ws && ws[w].capability.total > 0 && Eligible(ws[w], spec, cost, now)
    {
    }

    /** Choose the next request, then plan for it. The lock is released in between, so the
        clock is read twice; here nothing else happens in the gap. */
    method PlanNext(now: Time, later: Time)
      returns (out: PlanResult, seed: Option<Id>, ghost mid: State, ghost order: seq<Id>, ghost order1: seq<Id>)
      requires Valid()
      modifies this
      ensures Valid() && Pick(old(View()), now, order, seed, mid)
      ensures if seed.None? then out == Hold && View() == mid
              else Plan(mid, seed.value, later, order1, out, View())
      ensures out.Dispatch? ==> Preferred(score, ExpireAll(mid, order1), out.members, out.worker, later)
    {
      hide Preferred, Plan, PickOn, Due, ExpireAll, Enumerates;
      ghost var start := View();
      order := ExpireScan(now);
      Protocol.NothingStaysDue(start, now, order);
      seed := PickSeed(now);
      mid, order1 := View(), [];
      if seed.None? { return Hold, seed, mid, order, order1; }
      out, order1 := PlanDispatch(seed.value, later);
    }

    // ----- recovery -----

    /** Queue every waiting request again after a payload was loaded. */
    method RebuildQueue(now: Time) returns (ghost order: seq<Id>)
      requires Valid()
      modifies this
      ensures Valid() && Enumerates(order, Recovery.WaitingIds(old(requests)))
      ensures View() == Recovery.EnqueueAll(old(View()), order, now)
    {
      hide Machine.EnqueueRequest;
      var ids := Listing(set id | id in requests && Recovery.Waiting(requests[id]));
      order := ids;
      ghost var start := View();
      var i := 0;
      while i < |ids|
        invariant 0 <= i <= |ids| && Valid()
        invariant Recovery.EnqueueAll(View(), ids[i..], now) == Recovery.EnqueueAll(start, ids, now)
      {
        assert ids[i..][0] == ids[i] && ids[i..][1..] == ids[i + 1..];
        if ids[i] in requests { EnqueueRequest(ids[i], now); }
        i := i + 1;
      }
    }

    // ----- workers -----

    method RecoverRequest(w: Id, id: Id, now: Time)
      requires Valid()
      modifies this
      ensures Valid() && View() == RecoverOne(old(View()), w, id, now)
    {
      hide MakeRetry, Finish, CanRetry;
      if id !in requests { return; }
      if IsTerminal(requests[id].state) { return; }
      var may := MayRetry(id, now);
      if may {
        RetryRequest(id, w, now);
      } else {
        FinishRequest(id, w, RequestState.Failed, AttemptFailed);
      }
    }

    method RecoverListed(w: Id, ids: seq<Id>, now: Time)
      requires Valid()
      modifies this
      ensures Valid() && View() == RecoverRequests(old(View()), w, ids, now)
    {
      hide RecoverOne;
      ghost var start := View();
      var i := 0;
      while i < |ids|
        invariant 0 <= i <= |ids| && Valid()
        invariant RecoverRequests(View(), w, ids[i..], now) == RecoverRequests(start, w, ids, now)
      {
        assert ids[i..][0] == ids[i] && ids[i..][1..] == ids[i + 1..];
        RecoverRequest(w, ids[i], now);
        i := i + 1;
      }
    }

    /** Take every remaining batch of a lost worker off the reserved side and forget its bookings. */
    method ClearBookings(w: Id)
      requires w in workers
      modifies this`workers, this`globalReserved, this`globalRunning
      ensures View().fleet == ClearWorker(old(View()).fleet, w)
    {
      var r := workers[w];
      var reserved, allReserved := r.reserved, globalReserved;
      var left := r.batchUnits;
      while left != map[]
        invariant workers == old(workers) && globalReserved == old(globalReserved)
            && globalRunning == old(globalRunning)
        invariant reserved - Total(left) == r.reserved - Total(r.batchUnits)
        invariant allReserved - Total(left) == globalReserved - Total(r.batchUnits)
        decreases |left|
      {
        var b :| b in left;
        TotalSplit(left, b);
        reserved, allReserved := reserved - left[b], allReserved - left[b];
        assert (left - {b}).Keys == left.Keys - {b};
        left := left - {b};
      }
      workers := workers[w := r.(inFlight := {}, batchUnits := map[], batchPending := map[], started := {},
                                 reserved := Clamp(reserved), running := Clamp(r.running))];
      globalReserved, globalRunning := Clamp(allReserved), Clamp(globalRunning);
    }

    method RecoverInFlightOf(w: Id, now: Time) returns (ghost order: seq<Id>)
      requires Valid()
      modifies this
      ensures Valid() && Enumerates(order, InFlightOn(old(View()), w))
          && View() == RecoverInFlight(old(View()), w, order, now)
    {
      hide RecoverRequests, ClearWorker;
      order := [];
      if w !in workers { return; }
      var ids := Listing(workers[w].inFlight);
      order := ids;
      RecoverListed(w, ids, now);
      if w in workers { ClearBookings(w); }
    }

    method RegisterWorker(reg: Registration, now: Time) returns (ghost order: seq<Id>)
      requires Valid()
      modifies this
      ensures Valid() && Enumerates(order, InFlightOn(old(View()), reg.worker))
          && View() == Register(old(View()), reg, now, order)
    {
      hide RecoverInFlight;
      if reg.worker in workers && reg.worker != NO_ID && workers[reg.worker].boot != reg.boot {
        order := RecoverInFlightOf(reg.worker, now);
      } else {
        order := ListingOf(InFlightOn(View(), reg.worker));
      }
      var r := if reg.worker in workers then workers[reg.worker] else NEW_WORKER;
      r := r.(boot := reg.boot, capability := reg.capability,
              state := if reg.state == Unknown || reg.state == Booted then Online else reg.state,
              available := reg.capability.available);
      if r.reserved < 0 { r := r.(reserved := 0); }
      workers := workers[reg.worker := r];
    }

    /** A set has a listing. */
    static ghost function ListingOf(s: set<Id>): (order: seq<Id>)
      ensures Enumerates(order, s)
      decreases |s|
    {
      if s == {} then []
      else
        var x :| x in s;
        [x] + ListingOf(s - {x})
    }

    method UnregisterWorker(w: Id, now: Time) returns (known: bool, ghost order: seq<Id>)
      requires Valid()
      modifies this
      ensures known <==> w in old(workers)
      ensures Valid() && Enumerates(order, InFlightOn(old(View()), w))
          && View() == Unregister(old(View()), w, now, order)
    {
      hide RecoverInFlight;
      order := [];
      known := w in workers;
      if !known { return; }
      order := RecoverInFlightOf(w, now);
      workers := workers - {w};
    }

    method UpdateWorker(w: Id, cap: Capability) returns (known: bool)
      requires Valid()
      modifies this
      ensures (known <==> w in old(workers)) && Valid() && View() == UpdateCapability(old(View()), w, cap)
    {
      known := w in workers;
      if known { workers := workers[w := workers[w].(capability := cap, available := cap.available)]; }
    }

    method SetState(w: Id, st: WorkerState, available: Option<int>) returns (known: bool)
      requires Valid()
      modifies this
      ensures (known <==> w in old(workers)) && Valid() && View() == SetWorkerState(old(View()), w, st, available)
    {
      known := w in workers;
      if !known { return; }
      var r := workers[w].(state := st);
      if available.Some? { r := r.(available := available.value); }
      workers := workers[w := r];
    }

    method BeginDrain()
      requires Valid()
      modifies this`draining
      ensures Valid() && View() == old(View()).(draining := true)
    {
      draining := true;
    }

    method RollEpoch()
      requires Valid()
      modifies this`epoch
      ensures Valid() && View() == old(View()).(epoch := epoch) && epoch == old(epoch) + 1
    {
      epoch := epoch + 1;
    }

    method QueuedCount() returns (n: nat)
      ensures n == Max(0, globalQueued)
    {
      n := if globalQueued < 0 then 0 else globalQueued;
    }
  }
}
