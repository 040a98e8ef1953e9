/** What the scheduler chooses, with every comparison written out: the next request, the members of a batch, the
    worker, and what a dispatch is charged. */
module Choices {
  import opened Types
  import opened Collections
  import opened ReadyQueue
  import opened Fleets
  import opened Batching
  import opened Machine
  import opened Lifecycle
  import opened Protocol
  import opened Selection
  import opened Admissions

  // ----- the next request -----

  /** With what a flow competes when a request with this deadline heads it: one whose deadline is less than a
      millisecond beyond the threshold away competes with a fraction of its finish time. */
  function Standing(cfg: Config, finish: real, deadline: Option<Time>, now: Time): real {
    if cfg.boostEnabled && cfg.boostThresholdMs >= 0 &&
       deadline.Some? && deadline.value - now < (cfg.boostThresholdMs + 1) * 1_000_000
    then finish / cfg.boostMax else finish
  }

  /** An approaching deadline never moves a flow back exactly when boosting is off or divides by at least one. */
  lemma NeverMovesBack(cfg: Config)
    ensures (forall finish, deadline, now, later :: finish >= 0.0 && now <= later ==>
               Standing(cfg, finish, deadline, later) <= Standing(cfg, finish, deadline, now)) <==>
            !cfg.boostEnabled || cfg.boostThresholdMs < 0 || cfg.boostMax >= 1.0
  {
    if !cfg.boostEnabled || cfg.boostThresholdMs < 0 || cfg.boostMax >= 1.0 {
      forall finish, deadline, now, later | finish >= 0.0 && now <= later
        ensures Standing(cfg, finish, deadline, later) <= Standing(cfg, finish, deadline, now)
      {
        if cfg.boostMax >= 1.0 { Divided(finish, cfg.boostMax); }
      }
    } else {
      var far := (cfg.boostThresholdMs + 1) * 1_000_000;
      assert Standing(cfg, 1.0, Some(far), 0) == 1.0;
      assert Standing(cfg, 1.0, Some(far), far) == 1.0 / cfg.boostMax;
      assert 1.0 / cfg.boostMax > 1.0 by { assert (1.0 / cfg.boostMax) * cfg.boostMax == 1.0; }
    }
  }

  lemma Divided(x: real, d: real)
    requires x >= 0.0 && d >= 1.0
    ensures x / d <= x
  {
    var y := x / d;
    assert y * d == x && y >= 0.0;
    assert y * (d - 1.0) >= 0.0;
  }

  lemma StandingExact(cfg: Config, finish: real, spec: Spec, now: Time)
    ensures EffectiveFinish(cfg, finish, spec, now) == Standing(cfg, finish, spec.deadline, now)
  {
    if spec.deadline.Some? {
      var d := spec.deadline.value - now;
      assert d >= 0 ==> (d / TICKS_PER_MS <= cfg.boostThresholdMs <==> d < (cfg.boostThresholdMs + 1) * 1_000_000);
    }
  }

  predicate SameFlow(a: Spec, b: Spec) {
    a.tenant == b.tenant && a.latency == b.latency && a.phase == b.phase && a.priority == b.priority
  }

  /** Tenant first, then latency class, phase and priority. */
  predicate SmallerKey(a: Spec, b: Spec) {
    || a.tenant < b.tenant
    || (a.tenant == b.tenant && a.latency < b.latency)
    || (a.tenant == b.tenant && a.latency == b.latency && a.phase < b.phase)
    || (a.tenant == b.tenant && a.latency == b.latency && a.phase == b.phase && a.priority < b.priority)
  }

  /** Request id is queued and passes every other queued request of its flow. */
  ghost predicate Foremost(rs: map<Id, Request>, id: Id) {
    && id in rs && rs[id].state == RequestState.Queued
    && forall j :: j in rs && rs[j].state == RequestState.Queued && SameFlow(rs[j].spec, rs[id].spec) && j != id ==>
         Passes(id, rs[id], j, rs[j])
  }

  function StandingOf(s: State, id: Id, now: Time): real
    requires id in s.requests
  {
    var sp := s.requests[id].spec;
    Standing(s.cfg, FlowAt(s.fair, FlowKey(sp.tenant, sp.latency, sp.phase, sp.priority)).finish, sp.deadline, now)
  }

  /** The flow that i heads stands before the one that j heads. */
  predicate StandsBefore(s: State, i: Id, j: Id, now: Time)
    requires i in s.requests && j in s.requests
  {
    || StandingOf(s, i, now) < StandingOf(s, j, now)
    || (StandingOf(s, i, now) == StandingOf(s, j, now) && SmallerKey(s.requests[i].spec, s.requests[j].spec))
  }

  lemma KeysAgree(a: Spec, b: Spec)
    ensures FlowKeyOf(a) == FlowKeyOf(b) <==> SameFlow(a, b)
    ensures FlowLess(FlowKeyOf(a), FlowKeyOf(b)) <==> SmallerKey(a, b)
  {
  }

  lemma StandsExact(s: State, i: Id, j: Id, now: Time)
    requires i in s.requests && j in s.requests
    ensures HeadFinish(s, i, now) == StandingOf(s, i, now)
    ensures StandsBefore(s, i, j, now) <==>
            Sooner(HeadFinish(s, i, now), FlowKeyOf(s.requests[i].spec), HeadFinish(s, j, now),
                FlowKeyOf(s.requests[j].spec))
  {
    StandingExact(s.cfg, FlowAt(s.fair, FlowKeyOf(s.requests[i].spec)).finish, s.requests[i].spec, now);
    StandingExact(s.cfg, FlowAt(s.fair, FlowKeyOf(s.requests[j].spec)).finish, s.requests[j].spec, now);
    KeysAgree(s.requests[i].spec, s.requests[j].spec);
    hide EffectiveFinish, Standing;
  }

  lemma ForemostIsHead(rs: map<Id, Request>, id: Id)
    requires forall j :: j in QueuedIds(rs) ==> InTime(rs[j])
    ensures Foremost(rs, id) <==> IsHead(rs, id)
  {
    if id in QueuedIds(rs) {
      forall j | j in QueuedIds(rs) && SameFlow(rs[j].spec, rs[id].spec) && j != id
        ensures Passes(id, rs[id], j, rs[j]) <==> !Ahead(EntryOf(j, rs[j]), EntryOf(id, rs[id]))
      {
        KeysAgree(rs[j].spec, rs[id].spec);
        DeadlineOrderExact(id, rs[id], j, rs[j]);
        DeadlineOrderExact(j, rs[j], id, rs[id]);
      }
      forall j | j in QueuedIds(rs) ensures FlowKeyOf(rs[j].spec) == FlowKeyOf(rs[id].spec) <==>
          SameFlow(rs[j].spec, rs[id].spec) {
        KeysAgree(rs[j].spec, rs[id].spec);
      }
      hide Passes, InTime, FlowKeyOf, SameFlow;
    }
  }

  /** What a selection returns: request id exactly when it is foremost in its flow and its flow stands before that
      of every other foremost request. */
  lemma PickExact(s: State, now: Time, order: seq<Id>, seed: Option<Id>, s1: State, id: Id)
    requires RecordsOk(s) && QueueOk(s) && Pick(s, now, order, seed, s1)
    ensures seed == Some(id) <==>
            && Foremost(s1.requests, id)
            && forall j :: Foremost(s1.requests, j) && j != id ==> StandsBefore(s1, id, j, now)
  {
    PickIsNext(s, now, order, seed, s1);
    forall j | j in QueuedIds(s1.requests) ensures InTime(s1.requests[j]) {
      EnteredInTime(s, now, order, seed, s1, j);
    }
    hide RecordsOk, QueueOk, Pick, InTime, IsHead, Foremost, StandsBefore, HeadFinish, StandingOf, Sooner;
    forall j ensures Foremost(s1.requests, j) <==> IsHead(s1.requests, j) { ForemostIsHead(s1.requests, j); }
    NextExact(s1, now, seed, id);
  }

  /** In whatever state it is made, a selection never returns a request that is overdue or not in the queue. */
  lemma NeverPicksOverdue(s: State, now: Time, order: seq<Id>, id: Id, s1: State)
    requires Pick(s, now, order, Some(id), s1)
    ensures id in s1.requests && id in s1.index.queued
    ensures s1.requests[id].spec.deadline.None? || now < s1.requests[id].spec.deadline.value
  {
    var s0 := ExpireAll(s, order);
    hide ExpireAll, Enumerates, EffectiveFinish, HasLive;
    var k, e :| Wins(s0.cfg, s0.requests, s1.fair, now, k, e) && e.id == id;
    var p := HeapAt(s1.fair, k);
    assert k in s0.fair.flows && PrunedHeap(s0.requests, Runnable(s0.requests, s0.index.queued, now),
        HeapAt(s0.fair, k), p);
    var t :| IsTop(p, t) && Live(s0.requests, Runnable(s0.requests, s0.index.queued, now), t);
    TopsAgree(p, t, e);
  }

  lemma NextExact(s: State, now: Time, seed: Option<Id>, id: Id)
    requires forall j :: Foremost(s.requests, j) <==> IsHead(s.requests, j)
    requires seed.Some? ==> IsNext(s, seed.value, now)
    requires seed.None? ==> QueuedIds(s.requests) == {}
    ensures seed == Some(id) <==>
            && Foremost(s.requests, id)
            && forall j :: Foremost(s.requests, j) && j != id ==> StandsBefore(s, id, j, now)
  {
    hide HeadFinish, StandingOf;
    if seed.Some? {
      var k := seed.value;
      if k == id {
        forall j | Foremost(s.requests, j) && j != id ensures StandsBefore(s, id, j, now) {
          StandsExact(s, j, id, now);
          StandsExact(s, id, j, now);
          if FlowKeyOf(s.requests[j].spec) == FlowKeyOf(s.requests[id].spec) { HeadsAgree(s.requests, j, id); }
        }
      } else if Foremost(s.requests, id) {
        StandsExact(s, id, k, now);
      }
    }
  }

  // ----- the members of a batch -----

  /** Whole milliseconds left; the largest 63-bit number without a deadline. */
  function TimeLeft(spec: Spec, now: Time): int {
    if spec.deadline.None? then 0x7FFF_FFFF_FFFF_FFFF
    else if spec.deadline.value <= now then 0
    else (spec.deadline.value - now) / 1_000_000
  }

  /** Less time left, then higher priority, then smaller identifier. */
  predicate MoreUrgent(i: Id, a: Spec, j: Id, b: Spec, now: Time) {
    || TimeLeft(a, now) < TimeLeft(b, now)
    || (TimeLeft(a, now) == TimeLeft(b, now) && a.priority > b.priority)
    || (TimeLeft(a, now) == TimeLeft(b, now) && a.priority == b.priority && i < j)
  }

  /** A request without a deadline gives way to every one whose deadline can be told on a 64-bit clock. */
  lemma DeadlinesComeFirst(i: Id, a: Spec, j: Id, b: Spec, now: Time)
    requires a.deadline.Some? && a.deadline.value - now < 0x8000_0000_0000_0000 && b.deadline.None?
    ensures MoreUrgent(i, a, j, b, now)
  {
  }

  function AdapterOrNone(spec: Spec): Id { if spec.adapter.Some? then spec.adapter.value else 0 }

  /** Request id may join a batch around the seed: it is queued, its deadline lies ahead, and it asks for the same
      model, revision, adapter and latency class, and for the same phase unless phases may be mixed. */
  predicate MayJoin(s: State, seed: Id, now: Time, id: Id)
    requires seed in s.requests
  {
    && id != seed && id in s.requests && s.requests[id].state == RequestState.Queued
    && var a, b := s.requests[seed].spec, s.requests[id].spec;
    && (b.deadline.None? || now < b.deadline.value)
    && b.model == a.model && b.revision == a.revision && b.latency == a.latency
    && AdapterOrNone(b) == AdapterOrNone(a) && (s.cfg.allowPhaseMix || b.phase == a.phase)
  }

  /** At most this many members, counting the seed. */
  function SizeCap(cfg: Config, spec: Spec): int {
    var n := if spec.maxBatch > 0 then spec.maxBatch else cfg.maxBatch;
    if n > 1 then n else 1
  }

  function TokenSum(rs: map<Id, Request>, ids: seq<Id>): int
    requires forall i :: 0 <= i < |ids| ==> ids[i] in rs
  {
    if ids == [] then 0
    else TokenSum(rs, ids[..|ids| - 1]) + rs[ids[|ids| - 1]].spec.inputTokens + rs[ids[|ids| - 1]].spec.outputTokens
  }

  lemma CandidatesExact(s: State, seed: Id, now: Time, id: Id)
    requires IndexAgrees(s.cfg, s.requests, s.index) && seed in s.requests
    ensures id in Candidates(s.cfg, s.requests, s.index, seed, now) <==> MayJoin(s, seed, now, id)
  {
    assert BucketAt(s.index, CompatKeyOf(s.cfg, s.requests[seed].spec)) ==
           CompatibleIds(s.cfg, s.requests, CompatKeyOf(s.cfg, s.requests[seed].spec));
  }

  lemma UrgencyExact(rs: map<Id, Request>, now: Time, i: Id, j: Id)
    requires i in rs && j in rs
    ensures Before(rs, now, i, j) <==> MoreUrgent(i, rs[i].spec, j, rs[j].spec, now)
  {
  }

  lemma {:induction false} TokensAgree(rs: map<Id, Request>, ids: seq<Id>, n: nat)
    requires (forall i :: 0 <= i < |ids| ==> ids[i] in rs) && n <= |ids|
    ensures TokensOf(rs, ids) == TokenSum(rs, ids[..n]) + TokensOf(rs, ids[n..])
    decreases n
  {
    if n > 0 {
      TokensAgree(rs, ids, n - 1);
      assert ids[..n][..n - 1] == ids[..n - 1] && ids[n - 1..][1..] == ids[n..];
    }
  }

  /** Where the cut falls: what was taken fits, and the next candidate would not. */
  lemma {:induction false} CutExact(cfg: Config, rs: map<Id, Request>, limit: int, size: int, tokens: int, ids: seq<Id>)
    requires forall i :: 0 <= i < |ids| ==> ids[i] in rs
    ensures var n := Take(cfg, rs, limit, size, tokens, ids);
            && (n > 0 ==> size + n <= limit && (cfg.maxTokens > 0 ==> tokens + TokensOf(rs, ids[..n]) <= cfg.maxTokens))
            && (n < |ids| && size + n < limit ==>
                  cfg.maxTokens > 0 && tokens + TokensOf(rs, ids[..n]) + rs[ids[n]].spec.Tokens() > cfg.maxTokens)
    decreases |ids|
  {
    var n := Take(cfg, rs, limit, size, tokens, ids);
    if n > 0 {
      CutExact(cfg, rs, limit, size + 1, tokens + rs[ids[0]].spec.Tokens(), ids[1..]);
      assert ids[..n][1..] == ids[1..][..n - 1];
    }
  }

  /** Request id may join but was left out, and nobody left out is more urgent. */
  ghost predicate FirstLeftOut(s: State, seed: Id, now: Time, members: seq<Id>, id: Id)
    requires seed in s.requests
  {
    && MayJoin(s, seed, now, id) && id !in members
    && forall j :: MayJoin(s, seed, now, j) && j !in members && j != id ==>
         MoreUrgent(id, s.requests[id].spec, j, s.requests[j].spec, now)
  }

  /** A batch around a seed: the seed, then requests that may join it, the more urgent first. Nobody who may join
      and is left out is more urgent than a member other than the seed. The size cap holds, and the token cap when
      anyone joined; the first one left out would break one of them. */
  lemma BatchExact(s: State, seed: Id, now: Time, members: seq<Id>)
    requires IndexAgrees(s.cfg, s.requests, s.index) && seed in s.requests
    requires IsBatch(s.cfg, s.requests, s.index, seed, now, members)
    ensures |members| >= 1 && members[0] == seed && Distinct(members)
    ensures forall i :: 1 <= i < |members| ==> MayJoin(s, seed, now, members[i])
    ensures forall i :: 0 <= i < |members| ==> members[i] in s.requests
    ensures forall i, j :: 1 <= i < j < |members| ==>
              MoreUrgent(members[i], s.requests[members[i]].spec, members[j], s.requests[members[j]].spec, now)
    ensures forall i, id :: 1 <= i < |members| && MayJoin(s, seed, now, id) && id !in members ==>
              MoreUrgent(members[i], s.requests[members[i]].spec, id, s.requests[id].spec, now)
    ensures |members| <= SizeCap(s.cfg, s.requests[seed].spec)
    ensures s.cfg.maxTokens > 0 && |members| > 1 ==> TokenSum(s.requests, members) <= s.cfg.maxTokens
    ensures forall id :: FirstLeftOut(s, seed, now, members, id) ==>
              || |members| == SizeCap(s.cfg, s.requests[seed].spec)
              || (s.cfg.maxTokens > 0 && TokenSum(s.requests, members + [id]) > s.cfg.maxTokens)
  {
    hide IndexAgrees, IsBatch, MoreUrgent, MayJoin, FirstLeftOut, IsCandidate, Take, BatchLimit;
    BatchMembers(s.cfg, s.requests, s.index, seed, now, members);
    var ids := BatchLineup(s, seed, now, members);
    BatchOrder(s, seed, now, ids, members);
    LeftOutExact(s, seed, now, ids, members);
    hide Lineup;
    BatchCaps(s, seed, ids, members);
  }

  /** The requests that may join, all of them, the more urgent first. */
  ghost predicate Lineup(s: State, seed: Id, now: Time, ids: seq<Id>)
    requires seed in s.requests
  {
    && (forall id :: id in ids <==> MayJoin(s, seed, now, id))
    && (forall i :: 0 <= i < |ids| ==> ids[i] in s.requests && ids[i] != seed)
    && (forall i, j :: 0 <= i < j < |ids| ==>
          MoreUrgent(ids[i], s.requests[ids[i]].spec, ids[j], s.requests[ids[j]].spec, now))
  }

  lemma BatchLineup(s: State, seed: Id, now: Time, members: seq<Id>) returns (ids: seq<Id>)
    requires IndexAgrees(s.cfg, s.requests, s.index) && seed in s.requests
    requires IsBatch(s.cfg, s.requests, s.index, seed, now, members)
    ensures Lineup(s, seed, now, ids)
    ensures members == [seed] + ids[..Take(s.cfg, s.requests, BatchLimit(s.cfg, s.requests[seed].spec), 1,
                                           s.requests[seed].spec.Tokens(), ids)]
  {
    ids :| OrderedCandidates(s.cfg, s.requests, s.index, seed, now, ids) &&
      members == [seed] + ids[..Take(s.cfg, s.requests, BatchLimit(s.cfg, s.requests[seed].spec), 1,
                                     s.requests[seed].spec.Tokens(), ids)];
    hide IsBatch, IndexAgrees, MoreUrgent, Before, Candidates, Take, BatchLimit;
    forall id ensures id in ids <==> MayJoin(s, seed, now, id) { CandidatesExact(s, seed, now, id); }
    forall i | 0 <= i < |ids| ensures MayJoin(s, seed, now, ids[i]) { assert ids[i] in ids; }
    forall i, j | 0 <= i < j < |ids|
      ensures MoreUrgent(ids[i], s.requests[ids[i]].spec, ids[j], s.requests[ids[j]].spec, now)
    {
      UrgencyExact(s.requests, now, ids[i], ids[j]);
    }
  }

  lemma Taken(seed: Id, ids: seq<Id>, n: nat)
    requires n <= |ids|
    ensures forall k :: 0 <= k < n ==> ids[k] in [seed] + ids[..n]
  {
    forall k | 0 <= k < n ensures ids[k] in [seed] + ids[..n] { assert ([seed] + ids[..n])[k + 1] == ids[k]; }
  }

  lemma BatchOrder(s: State, seed: Id, now: Time, ids: seq<Id>, members: seq<Id>)
    requires seed in s.requests && Lineup(s, seed, now, ids)
    requires 1 <= |members| <= |ids| + 1 && members == [seed] + ids[..|members| - 1]
    ensures forall i :: 1 <= i < |members| ==> MayJoin(s, seed, now, members[i])
    ensures forall i :: 0 <= i < |members| ==> members[i] in s.requests
    ensures forall i, j :: 1 <= i < j < |members| ==>
              MoreUrgent(members[i], s.requests[members[i]].spec, members[j], s.requests[members[j]].spec, now)
    ensures forall i, id :: 1 <= i < |members| && MayJoin(s, seed, now, id) && id !in members ==>
              MoreUrgent(members[i], s.requests[members[i]].spec, id, s.requests[id].spec, now)
  {
    hide MoreUrgent;
    Taken(seed, ids, |members| - 1);
    forall i | 1 <= i < |members| ensures MayJoin(s, seed, now, members[i]) { assert members[i] in ids; }
    forall i, id | 1 <= i < |members| && MayJoin(s, seed, now, id) && id !in members
      ensures MoreUrgent(members[i], s.requests[members[i]].spec, id, s.requests[id].spec, now)
    {
      var k :| 0 <= k < |ids| && ids[k] == id;
      assert members[i] == ids[i - 1];
    }
  }

  lemma BatchCaps(s: State, seed: Id, ids: seq<Id>, members: seq<Id>)
    requires seed in s.requests && forall i :: 0 <= i < |ids| ==> ids[i] in s.requests
    requires members == [seed] + ids[..Take(s.cfg, s.requests, BatchLimit(s.cfg, s.requests[seed].spec), 1,
                                            s.requests[seed].spec.Tokens(), ids)]
    ensures forall i :: 0 <= i < |members| ==> members[i] in s.requests
    ensures |members| <= SizeCap(s.cfg, s.requests[seed].spec)
    ensures s.cfg.maxTokens > 0 && |members| > 1 ==> TokenSum(s.requests, members) <= s.cfg.maxTokens
    ensures |members| - 1 < |ids| && |members| < SizeCap(s.cfg, s.requests[seed].spec) ==>
              s.cfg.maxTokens > 0 && TokenSum(s.requests, members + [ids[|members| - 1]]) > s.cfg.maxTokens
  {
    var rs, spec := s.requests, s.requests[seed].spec;
    var limit := BatchLimit(s.cfg, spec);
    assert limit == SizeCap(s.cfg, spec);
    CutExact(s.cfg, rs, limit, 1, spec.Tokens(), ids);
    var n := Take(s.cfg, rs, limit, 1, spec.Tokens(), ids);
    hide Take, BatchLimit, SizeCap;
    assert members[1..] == ids[..n];
    assert TokensOf(rs, members) == spec.Tokens() + TokensOf(rs, ids[..n]);
    TokensAgree(rs, members, |members|);
    assert members[..|members|] == members;
    if n < |ids| {
      var more := members + [ids[n]];
      assert more[..|members|] == members && more[|members|] == ids[n];
      assert TokenSum(rs, more) == TokenSum(rs, members) + rs[ids[n]].spec.inputTokens + rs[ids[n]].spec.outputTokens;
    }
  }

  /** The first candidate after the cut is the first one left out. */
  lemma LeftOutExact(s: State, seed: Id, now: Time, ids: seq<Id>, members: seq<Id>)
    requires seed in s.requests && Lineup(s, seed, now, ids)
    requires 1 <= |members| <= |ids| + 1 && members == [seed] + ids[..|members| - 1]
    ensures forall id :: FirstLeftOut(s, seed, now, members, id) ==>
              |members| - 1 < |ids| && id == ids[|members| - 1]
  {
    var n := |members| - 1;
    Taken(seed, ids, n);
    hide MayJoin;
    forall id | FirstLeftOut(s, seed, now, members, id) ensures n < |ids| && id == ids[n] {
      var k :| 0 <= k < |ids| && ids[k] == id;
      NextNotTaken(s, seed, now, ids, n);
      assert ids[n] in ids;
    }
  }

  lemma NextNotTaken(s: State, seed: Id, now: Time, ids: seq<Id>, n: nat)
    requires seed in s.requests && Lineup(s, seed, now, ids) && n < |ids|
    ensures ids[n] !in [seed] + ids[..n]
  {
    forall i | 0 <= i < n ensures ids[i] != ids[n] {
      assert MoreUrgent(ids[i], s.requests[ids[i]].spec, ids[n], s.requests[ids[n]].spec, now);
    }
  }

  // ----- the worker -----

  /** What a request of cost c is charged: the cost, and at least one. */
  function Charge(c: real): real { if c < 1.0 then 1.0 else c }

  /** Cost of a batch: the sum of the charges. */
  function TotalCharge(rs: map<Id, Request>, ids: seq<Id>): real
    requires forall i :: 0 <= i < |ids| ==> ids[i] in rs
  {
    if ids == [] then 0.0 else TotalCharge(rs, ids[..|ids| - 1]) + Charge(rs[ids[|ids| - 1]].spec.cost)
  }

  /** A cost in whole units: the next whole number, and at least one. */
  function Whole(c: real): int { if c <= 1.0 then 1 else if c == c.Floor as real then c.Floor else c.Floor + 1 }

  /** Units of a batch: the sum of its members'. */
  function TotalUnits(rs: map<Id, Request>, ids: seq<Id>): int
    requires forall i :: 0 <= i < |ids| ==> ids[i] in rs
  {
    if ids == [] then 0 else TotalUnits(rs, ids[..|ids| - 1]) + Whole(rs[ids[|ids| - 1]].spec.cost)
  }

  /** This worker can be given a batch of this cost headed by this request. */
  predicate CanTake(r: Worker, spec: Spec, cost: real, now: Time) {
    && (r.state == Online || r.state == Busy)
    && Suits(r.capability, spec)
    && cost <= (r.available - r.reserved) as real && cost <= r.capability.total as real
    && (spec.deadline.None? || now < spec.deadline.value)
  }

  lemma WholeExact(c: real)
    ensures CeilCost(c) == Whole(c)
  {
    assert Ceil(c) as real >= c > Ceil(c) as real - 1.0;
  }

  lemma CostFits(cost: real, n: int)
    requires cost >= 1.0
    ensures CeilCost(cost) <= n <==> cost <= n as real
  {
    assert Ceil(cost) as real >= cost > Ceil(cost) as real - 1.0;
  }

  lemma {:induction false} ChargesAgree(rs: map<Id, Request>, ids: seq<Id>, n: nat)
    requires (forall i :: 0 <= i < |ids| ==> ids[i] in rs) && n <= |ids|
    ensures BatchCost(rs, ids) == TotalCharge(rs, ids[..n]) + BatchCost(rs, ids[n..])
    ensures n >= 1 ==> TotalCharge(rs, ids[..n]) >= 1.0
    decreases n
  {
    if n > 0 {
      ChargesAgree(rs, ids, n - 1);
      assert ids[..n][..n - 1] == ids[..n - 1] && ids[n - 1..][1..] == ids[n..];
    }
  }

  lemma {:induction false} UnitsAgree(rs: map<Id, Request>, ids: seq<Id>, n: nat)
    requires (forall i :: 0 <= i < |ids| ==> ids[i] in rs) && n <= |ids|
    ensures BatchUnits(rs, ids) == TotalUnits(rs, ids[..n]) + BatchUnits(rs, ids[n..])
    decreases n
  {
    if n > 0 {
      UnitsAgree(rs, ids, n - 1);
      WholeExact(rs[ids[n - 1]].spec.cost);
      assert ids[..n][..n - 1] == ids[..n - 1] && ids[n - 1..][1..] == ids[n..];
    }
  }

  lemma CanTakeExact(rs: map<Id, Request>, members: seq<Id>, r: Worker, spec: Spec, now: Time)
    requires members != [] && forall i :: 0 <= i < |members| ==> members[i] in rs
    ensures Eligible(r, spec, BatchCost(rs, members), now) <==> CanTake(r, spec, TotalCharge(rs, members), now)
  {
    ChargesAgree(rs, members, |members|);
    assert members[..|members|] == members;
    SuitsExact(r.capability, spec);
    CostFits(BatchCost(rs, members), r.available - r.reserved);
    CostFits(BatchCost(rs, members), r.capability.total);
    hide Compatible, Suits, CeilCost;
  }

  lemma NoUnits(rs: map<Id, Request>)
    ensures BatchUnits(rs, []) == 0
  {
  }

  /** Worker w can take a batch with these members. */
  ghost predicate CanServe(s: State, members: seq<Id>, w: Id, now: Time)
    requires members != [] && forall i :: 0 <= i < |members| ==> members[i] in s.requests
  {
    w in s.fleet.workers && CanTake(s.fleet.workers[w], s.requests[members[0]].spec, TotalCharge(s.requests, members),
        now)
  }

  /** Of the workers that can take the batch none has a higher score than w, and none with the same score a smaller
      identifier. */
  ghost predicate Preferred(score: (Worker, Spec, real, Time) -> real, s: State, members: seq<Id>, w: Id, now: Time) {
    && members != [] && (forall i :: 0 <= i < |members| ==> members[i] in s.requests)
    && CanServe(s, members, w, now)
    && var spec, cost := s.requests[members[0]].spec, TotalCharge(s.requests, members);
    && forall v :: CanServe(s, members, v, now) ==>
         || score(s.fleet.workers[v], spec, cost, now) < score(s.fleet.workers[w], spec, cost, now)
         || (score(s.fleet.workers[v], spec, cost, now) == score(s.fleet.workers[w], spec, cost, now) && w <= v)
  }

  /** A worker chosen among the eligible ones is preferred. */
  lemma PreferredExact(score: (Worker, Spec, real, Time) -> real, s: State, members: seq<Id>, w: Id, now: Time)
    requires members != [] && forall i :: 0 <= i < |members| ==> members[i] in s.requests
    requires var ws, spec, cost := s.fleet.workers, s.requests[members[0]].spec, BatchCost(s.requests, members);
             && w in ws && Eligible(ws[w], spec, cost, now)
             && forall v :: v in ws && Eligible(ws[v], spec, cost, now) ==>
                  || score(ws[v], spec, cost, now) < score(ws[w], spec, cost, now)
                  || (score(ws[v], spec, cost, now) == score(ws[w], spec, cost, now) && w <= v)
    ensures Preferred(score, s, members, w, now)
  {
    hide Eligible, CanTake;
    ChargesAgree(s.requests, members, |members|);
    assert members[..|members|] == members;
    hide BatchCost, TotalCharge;
    assert BatchCost(s.requests, members[|members|..]) == 0.0 by { NoCost(s.requests, members[|members|..]); }
    forall v | v in s.fleet.workers
      ensures Eligible(s.fleet.workers[v], s.requests[members[0]].spec, BatchCost(s.requests, members), now) <==>
              CanServe(s, members, v, now)
    {
      CanTakeExact(s.requests, members, s.fleet.workers[v], s.requests[members[0]].spec, now);
    }
  }

  lemma NoCost(rs: map<Id, Request>, ids: seq<Id>)
    requires ids == []
    ensures BatchCost(rs, ids) == 0.0
  {
  }

  /** Worker w has room for the units of these members. */
  predicate HasUnits(s: State, members: seq<Id>, w: Id)
    requires w in s.fleet.workers && forall i :: 0 <= i < |members| ==> members[i] in s.requests
  {
    TotalUnits(s.requests, members) <= s.fleet.workers[w].available - s.fleet.workers[w].reserved
  }

  /** The answer to a plan for a queued request around which the batch has these members. A dispatch goes to a
      worker that can take the batch and has room for its units. The batch is held back only if a worker can take it
      but has no room for the units. There is no eligible worker only if none can take it, or the one chosen has the
      invalid identifier. */
  lemma PlanExact(s: State, request: Id, now: Time, out: PlanResult, s1: State, members: seq<Id>)
    requires PlanOn(s, request, now, out, s1) && request in s.requests && !s.requests[request].spec.Overdue(now)
    requires s.requests[request].state == RequestState.Queued
    requires IsBatch(s.cfg, s.requests, s.index, request, now, members)
    ensures |members| >= 1 && members[0] == request && forall i :: 0 <= i < |members| ==> members[i] in s.requests
    ensures out.Dispatch? ==>
              && out.members == members && out.batch == IdAt(s.cfg, s.issued + 1) && out.worker != NO_ID
              && CanServe(s, members, out.worker, now) && HasUnits(s, members, out.worker)
    ensures out.Hold? ==> s1 == s && exists w :: CanServe(s, members, w, now) && !HasUnits(s, members, w)
    ensures out.NoEligibleWorker? ==> s1 == s && (CanServe(s, members, NO_ID, now) || forall v ::
        !CanServe(s, members, v, now))
    ensures !out.RequestNotFound?
  {
    hide IsBatch, BatchUnits, TotalUnits, Reserve, IsCandidate, Eligible, BatchCost, TotalCharge, CanTake;
    var ms, w :| PlanBatch(s, request, now, ms, w, out, s1);
    BatchUnique(s.cfg, s.requests, s.index, request, now, ms, members);
    BatchMembers(s.cfg, s.requests, s.index, request, now, members);
    UnitsAgree(s.requests, members, |members|);
    assert members[..|members|] == members && members[|members|..] == [];
    assert BatchUnits(s.requests, []) == 0 by { NoUnits(s.requests); }
    forall v | v in s.fleet.workers
      ensures Eligible(s.fleet.workers[v], s.requests[request].spec, BatchCost(s.requests, members), now) <==>
              CanServe(s, members, v, now)
    {
      CanTakeExact(s.requests, members, s.fleet.workers[v], s.requests[request].spec, now);
    }
    if out.Hold? { assert CanServe(s, members, w, now) && !HasUnits(s, members, w); }
  }

  /** A plan for an unknown request is an error. One for a request that is overdue, or that does not wait, is held
      back; an overdue request has left the queue. */
  lemma PlanRefused(s: State, request: Id, now: Time, order: seq<Id>, out: PlanResult, s1: State)
    requires QueueOk(s) && Plan(s, request, now, order, out, s1)
    ensures out.RequestNotFound? <==> request !in s.requests
    ensures request in s.requests && s.requests[request].state !in {RequestState.Queued, RequestState.Admitted} ==>
              out == Hold && s1.requests[request] == s.requests[request]
    ensures request in s.requests && s.requests[request].spec.deadline.Some? &&
            s.requests[request].spec.deadline.value <= now ==>
              out == Hold && request in s1.requests && s1.requests[request].state != RequestState.Queued
  {
    var s0 := ExpireAll(s, order);
    ExpireAllEffect(s, order, request);
    hide ExpireAll, PlanBatch, HeapsAgree;
    assert request in order <==> request in Due(s, now);
    if request in s.requests && request !in order && s0.requests[request].state == RequestState.Queued {
      assert request in s.index.queued;
    }
    assert request in s0.requests && !s0.requests[request].spec.Overdue(now) ==> !out.RequestNotFound? by {
      if request in s0.requests && !s0.requests[request].spec.Overdue(now) {
        NotNotFound(s0, request, now, out, s1);
      }
    }
  }

  lemma NotNotFound(s: State, request: Id, now: Time, out: PlanResult, s1: State)
    requires PlanOn(s, request, now, out, s1) && request in s.requests
    ensures !out.RequestNotFound?
  {
    hide IsBatch, MaySelect, BatchUnits, BatchCost, Reserve;
  }

  /** Request id is queued and has the same record in both. */
  predicate StillWaits(s: State, s0: State, id: Id) {
    id in s.requests && id in s0.requests && s0.requests[id] == s.requests[id]
        && s.requests[id].state == RequestState.Queued
  }

  /** rec1 is rec reserved in batch b under the attempt it had. */
  predicate ReservedIn(rec: Request, rec1: Request, b: Id) {
    && rec1 == rec.(state := RequestState.Reserved, batch := Some(b), history := rec1.history)
    && |rec1.history| == |rec.history|
    && (rec.history != [] ==> rec1.history[|rec.history| - 1].state == AttemptReserved)
  }

  /** Members of a dispatched batch were queued before the plan, and the scan for overdue requests left them alone. */
  lemma DispatchMembers(s: State, request: Id, now: Time, order: seq<Id>, out: PlanResult, s1: State)
    requires RecordsOk(s) && QueueOk(s) && Plan(s, request, now, order, out, s1) && out.Dispatch?
    ensures var s0 := ExpireAll(s, order);
            && s0.fleet == s.fleet && s0.cfg == s.cfg && s0.issued == s.issued
            && IsBatch(s0.cfg, s0.requests, s0.index, request, now, out.members)
            && |out.members| >= 1 && out.members[0] == request && Distinct(out.members)
            && request in s0.requests && !s0.requests[request].spec.Overdue(now)
            && forall id :: id in out.members ==> StillWaits(s, s0, id)
  {
    hide IsBatch, PlanOn, HeapsAgree, IndexAgrees, Due, Enumerates;
    var s0, members := ExpireAll(s, order), out.members;
    ExpireAllQueue(s, order);
    ExpireAllFrame(s, order);
    DispatchWaits(s0, request, now, out, s1);
    hide QueueOk, ExpireAll;
    ExpireAllEffect(s, order, request);
    assert RecordOk(s.cfg, s.issued, s.requests[request]);
    hide RecordsOk, RecordOk;
    forall id | id in members ensures StillWaits(s, s0, id) {
      ScanLeaves(s, now, order, id);
    }
  }

  /** Where a dispatch goes. The request was queued and not overdue. The worker is online or busy, has units at all,
      and offers the model, revision, phase and adapter the request asks for. */
  lemma DispatchedTo(s: State, request: Id, now: Time, order: seq<Id>, out: PlanResult, s1: State)
    requires RecordsOk(s) && QueueOk(s) && Plan(s, request, now, order, out, s1) && out.Dispatch?
    ensures && request in s.requests && s.requests[request].state == RequestState.Queued
            && var spec := s.requests[request].spec;
            && (spec.deadline.None? || now < spec.deadline.value)
            && out.worker in s.fleet.workers
            && var r := s.fleet.workers[out.worker];
            && (r.state == Online || r.state == Busy) && r.capability.total > 0
            && (r.capability.models == [] || spec.model in r.capability.models)
            && (r.capability.revisions == [] || spec.revision in r.capability.revisions)
            && (r.capability.phases == [] || spec.phase in r.capability.phases)
            && (spec.adapter.None? || r.capability.adapters == [] || spec.adapter.value in r.capability.adapters)
  {
    hide QueueOk, RecordsOk, Enumerates, IsBatch, Due, ExpireAll, PlanOn, TotalCharge, TotalUnits;
    DispatchMembers(s, request, now, order, out, s1);
    assert StillWaits(s, ExpireAll(s, order), out.members[0]);
    PlanExact(ExpireAll(s, order), request, now, out, s1, out.members);
  }

  /** The members of a dispatch are reserved in one fresh batch with the attempts they had. */
  lemma DispatchedMembers(s: State, request: Id, now: Time, order: seq<Id>, out: PlanResult, s1: State, id: Id)
    requires RecordsOk(s) && QueueOk(s) && Plan(s, request, now, order, out, s1) && out.Dispatch?
    ensures out.batch == IdAt(s.cfg, s.issued + 1) && request in out.members
    ensures id in out.members ==>
              && id in s.requests && id in s1.requests && s.requests[id].state == RequestState.Queued
              && ReservedIn(s.requests[id], s1.requests[id], out.batch)
  {
    hide QueueOk, RecordsOk, Enumerates, IsBatch, Due, ExpireAll, PlanOn, TotalUnits, ReservedIn;
    DispatchMembers(s, request, now, order, out, s1);
    SameUnits(s, ExpireAll(s, order), out.members);
    DispatchBooked(ExpireAll(s, order), request, now, out, s1, id);
  }

  /** What a dispatch books: the worker has the units of the members reserved, which it had room for, and one
      pending start for each; no other worker changes. */
  lemma DispatchedUnits(s: State, request: Id, now: Time, order: seq<Id>, out: PlanResult, s1: State)
    requires RecordsOk(s) && QueueOk(s) && Plan(s, request, now, order, out, s1) && out.Dispatch?
    ensures out.worker in s.fleet.workers && forall i :: 0 <= i < |out.members| ==> out.members[i] in s.requests
    ensures var r, units := s.fleet.workers[out.worker], TotalUnits(s.requests, out.members);
            && units <= r.available - r.reserved
            && s1.fleet == Fleet(s.fleet.workers[out.worker := r.(reserved := r.reserved + units,
                                                                  batchUnits := r.batchUnits[out.batch := units],
                                                                  batchPending :=
                                                                      r.batchPending[out.batch := |out.members|])],
                                 s.fleet.reserved + units, s.fleet.running)
  {
    hide QueueOk, RecordsOk, Enumerates, IsBatch, Due, ExpireAll, PlanOn, TotalUnits, StillWaits, ReservedIn, OpenBatch,
         IdAt;
    DispatchMembers(s, request, now, order, out, s1);
    var s0 := ExpireAll(s, order);
    SameUnits(s, s0, out.members);
    DispatchBooked(s0, request, now, out, s1, request);
    OpenedExact(s.fleet, out.worker, out.batch, TotalUnits(s.requests, out.members), |out.members|);
  }

  lemma OpenedExact(f: Fleet, w: Id, b: Id, units: int, n: int)
    requires w in f.workers
    ensures var r := f.workers[w];
            OpenBatch(f, w, b, units, n) ==
            Fleet(f.workers[w := r.(reserved := r.reserved + units, batchUnits := r.batchUnits[b := units],
                                    batchPending := r.batchPending[b := n])], f.reserved + units, f.running)
  {
  }

  lemma {:induction false} SameUnits(s: State, s0: State, ids: seq<Id>)
    requires forall id :: id in ids ==> StillWaits(s, s0, id)
    ensures forall i :: 0 <= i < |ids| ==> ids[i] in s.requests && ids[i] in s0.requests
    ensures TotalUnits(s0.requests, ids) == TotalUnits(s.requests, ids)
    decreases |ids|
  {
    forall i | 0 <= i < |ids| ensures StillWaits(s, s0, ids[i]) { assert ids[i] in ids; }
    if ids != [] { SameUnits(s, s0, ids[..|ids| - 1]); }
  }

  lemma DispatchWaits(s: State, request: Id, now: Time, out: PlanResult, s1: State)
    requires IndexAgrees(s.cfg, s.requests, s.index) && PlanOn(s, request, now, out, s1) && out.Dispatch?
    ensures request in s.requests && !s.requests[request].spec.Overdue(now)
    ensures s.requests[request].state == RequestState.Queued || s.requests[request].state == RequestState.Admitted
    ensures IsBatch(s.cfg, s.requests, s.index, request, now, out.members)
    ensures |out.members| >= 1 && out.members[0] == request && Distinct(out.members)
    ensures forall i :: 1 <= i < |out.members| ==> out.members[i] in QueuedIds(s.requests)
  {
    var ms, w :| PlanBatch(s, request, now, ms, w, out, s1);
    BatchMembers(s.cfg, s.requests, s.index, request, now, ms);
    hide IsBatch;
  }

  lemma DispatchBooked(s: State, request: Id, now: Time, out: PlanResult, s1: State, id: Id)
    requires PlanOn(s, request, now, out, s1) && out.Dispatch? && Distinct(out.members)
    requires forall i :: 0 <= i < |out.members| ==> out.members[i] in s.requests
    ensures out.worker in s.fleet.workers && out.batch == Fresh(s, 1) && HasUnits(s, out.members, out.worker)
    ensures s1.fleet == OpenBatch(s.fleet, out.worker, out.batch, TotalUnits(s.requests, out.members), |out.members|)
    ensures id in out.members ==>
              id in s1.requests && ReservedIn(s.requests[id], s1.requests[id], out.batch)
  {
    var ms, w :| PlanBatch(s, request, now, ms, w, out, s1);
    UnitsAgree(s.requests, ms, |ms|);
    assert ms[..|ms|] == ms;
    hide IsBatch, BatchUnits, TotalUnits, Eligible, BatchCost;
    var s0 := Open(s, ms, w);
    ReserveAllFrame(s0, ms, Fresh(s, 1));
    if id in ms { ReserveAllEffect(s0, ms, Fresh(s, 1), id); }
    hide ReserveAll;
  }
}
