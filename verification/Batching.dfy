/** Batch formation and worker selection. */
module Batching {
  import opened Types
  import opened Collections
  import opened ReadyQueue
  import opened Fleets

  // ----- compatibility -----

  /** The worker advertises enough for this request; an empty list supports anything. */
  predicate Compatible(spec: Spec, cap: Capability) {
    && cap.total > 0
    && (cap.models == [] || spec.model in cap.models)
    && (cap.revisions == [] || spec.revision in cap.revisions)
    && (spec.adapter.None? || cap.adapters == [] || spec.adapter.value in cap.adapters)
    && (cap.phases == [] || spec.phase in cap.phases)
  }

  /** For requests of one compatibility bucket: every worker that can run the head can
      also run the member exactly when they agree on the phase and the member needs no
      adapter that the head does not need. */
  lemma HeadSpeaksForMember(cfg: Config, head: Spec, member: Spec)
    requires CompatKeyOf(cfg, head) == CompatKeyOf(cfg, member)
    ensures (forall cap :: Compatible(head, cap) ==> Compatible(member, cap)) <==>
            head.phase == member.phase && (member.adapter.None? || member.adapter == head.adapter)
  {
    if head.phase != member.phase {
      var cap := Capability(1, 1, [], [], [], [head.phase]);
      assert Compatible(head, cap) && !Compatible(member, cap);
    }
    if member.adapter.Some? && head.adapter.None? {
      var cap := Capability(1, 1, [], [], [member.adapter.value + 1], []);
      assert Compatible(head, cap) && !Compatible(member, cap);
    }
  }

  /** Without phase mixing and without adapter id 0 that is always so. */
  lemma BucketIsCompatible(cfg: Config, head: Spec, member: Spec, cap: Capability)
    requires CompatKeyOf(cfg, head) == CompatKeyOf(cfg, member) && Compatible(head, cap)
    requires !cfg.allowPhaseMix && head.adapter != Some(0) && member.adapter != Some(0)
    ensures Compatible(member, cap)
  {
    HeadSpeaksForMember(cfg, head, member);
  }

  // ----- candidates and their order -----

  /** Candidate a joins a batch before candidate b: less slack, then higher priority,
      then smaller id. */
  predicate Before(rs: map<Id, Request>, now: Time, a: Id, b: Id)
    requires a in rs && b in rs
  {
    var x, y := rs[a].spec, rs[b].spec;
    if x.Slack(now) != y.Slack(now) then x.Slack(now) < y.Slack(now)
    else if x.priority != y.priority then x.priority > y.priority
    else a < b
  }

  predicate IsCandidate(rs: map<Id, Request>, queued: set<Id>, seed: Id, now: Time, id: Id) {
    id != seed && id in queued && id in rs && rs[id].state == RequestState.Queued && !rs[id].spec.Overdue(now)
  }

  ghost function Candidates(cfg: Config, rs: map<Id, Request>, ix: Index, seed: Id, now: Time): set<Id>
    requires seed in rs
  {
    set id | id in BucketAt(ix, CompatKeyOf(cfg, rs[seed].spec)) && IsCandidate(rs, ix.queued, seed, now, id)
  }

  ghost predicate Ordered(rs: map<Id, Request>, now: Time, ids: seq<Id>) {
    && (forall i :: 0 <= i < |ids| ==> ids[i] in rs)
    && (forall i, j :: 0 <= i < j < |ids| ==> Before(rs, now, ids[i], ids[j]))
  }

  /** Two ordered enumerations of the same set are the same sequence. */
  lemma {:induction false} OrderedUnique(rs: map<Id, Request>, now: Time, a: seq<Id>, b: seq<Id>)
    requires Ordered(rs, now, a) && Ordered(rs, now, b)
    requires forall x :: x in a <==> x in b
    ensures a == b
    decreases |a|
  {
    if |a| + |b| > 0 {
      assert |a| > 0 ==> a[0] in b;
      assert |b| > 0 ==> b[0] in a;
      assert a[0] == b[0];
      forall x ensures x in a[1..] <==> x in b[1..] {
        assert x in a <==> x == a[0] || x in a[1..];
        assert x in b <==> x == b[0] || x in b[1..];
      }
      OrderedUnique(rs, now, a[1..], b[1..]);
    }
  }

  // ----- the cut -----

  function BatchLimit(cfg: Config, spec: Spec): int {
    Max(1, if spec.maxBatch > 0 then spec.maxBatch else cfg.maxBatch)
  }

  /** How many further candidates are taken when size members with this many tokens are in. */
  function Take(cfg: Config, rs: map<Id, Request>, limit: int, size: int, tokens: int, ids: seq<Id>): (n: nat)
    requires forall i :: 0 <= i < |ids| ==> ids[i] in rs
    ensures n <= |ids|
    decreases |ids|
  {
    if ids == [] || size >= limit then 0
    else if cfg.maxTokens > 0 && tokens + rs[ids[0]].spec.Tokens() > cfg.maxTokens then 0
    else 1 + Take(cfg, rs, limit, size + 1, tokens + rs[ids[0]].spec.Tokens(), ids[1..])
  }

  function TokensOf(rs: map<Id, Request>, ids: seq<Id>): int
    requires forall i :: 0 <= i < |ids| ==> ids[i] in rs
  {
    if ids == [] then 0 else rs[ids[0]].spec.Tokens() + TokensOf(rs, ids[1..])
  }

  /** The first m candidates can join within the size and token caps. */
  predicate Fits(cfg: Config, rs: map<Id, Request>, limit: int, size: int, tokens: int, ids: seq<Id>, m: nat)
    requires forall i :: 0 <= i < |ids| ==> ids[i] in rs
  {
    m <= |ids| && (m > 0 ==> size + m <= limit && (cfg.maxTokens > 0 ==>
        tokens + TokensOf(rs, ids[..m]) <= cfg.maxTokens))
  }

  lemma {:induction false} TakeFits(cfg: Config, rs: map<Id, Request>, limit: int, size: int, tokens: int, ids: seq<Id>)
    requires forall i :: 0 <= i < |ids| ==> ids[i] in rs
    ensures Fits(cfg, rs, limit, size, tokens, ids, Take(cfg, rs, limit, size, tokens, ids))
    decreases |ids|
  {
    var n := Take(cfg, rs, limit, size, tokens, ids);
    if n > 0 {
      TakeFits(cfg, rs, limit, size + 1, tokens + rs[ids[0]].spec.Tokens(), ids[1..]);
      assert ids[..n][1..] == ids[1..][..n-1];
      assert TokensOf(rs, ids[..n]) == rs[ids[0]].spec.Tokens() + TokensOf(rs, ids[1..][..n-1]);
    }
  }

  /** The cut is at the longest prefix that fits. */
  lemma {:induction false} TakeIsLongest(cfg: Config, rs: map<Id, Request>, limit: int, size: int, tokens: int,
      ids: seq<Id>, m: nat)
    requires forall i :: 0 <= i < |ids| ==> ids[i] in rs && rs[ids[i]].spec.Tokens() >= 0
    ensures Fits(cfg, rs, limit, size, tokens, ids, Take(cfg, rs, limit, size, tokens, ids))
    ensures Fits(cfg, rs, limit, size, tokens, ids, m) ==> m <= Take(cfg, rs, limit, size, tokens, ids)
    decreases |ids|
  {
    TakeFits(cfg, rs, limit, size, tokens, ids);
    if m > 0 && Fits(cfg, rs, limit, size, tokens, ids, m) {
      assert ids[..m][1..] == ids[1..][..m-1];
      assert TokensOf(rs, ids[..m]) == rs[ids[0]].spec.Tokens() + TokensOf(rs, ids[1..][..m-1]);
      TokensNonNegative(rs, ids[1..][..m-1]);
      TakeIsLongest(cfg, rs, limit, size + 1, tokens + rs[ids[0]].spec.Tokens(), ids[1..], m - 1);
    }
  }

  lemma {:induction false} TokensNonNegative(rs: map<Id, Request>, ids: seq<Id>)
    requires forall i :: 0 <= i < |ids| ==> ids[i] in rs && rs[ids[i]].spec.Tokens() >= 0
    ensures TokensOf(rs, ids) >= 0
    decreases |ids|
  {
    if ids != [] { TokensNonNegative(rs, ids[1..]); }
  }

  /** A batch for a seed: the seed followed by the longest fitting prefix of the ordered candidates. */
  ghost predicate IsBatch(cfg: Config, rs: map<Id, Request>, ix: Index, seed: Id, now: Time, members: seq<Id>)
    requires seed in rs
  {
    exists ids :: OrderedCandidates(cfg, rs, ix, seed, now, ids) &&
      members == [seed] + ids[..Take(cfg, rs, BatchLimit(cfg, rs[seed].spec), 1, rs[seed].spec.Tokens(), ids)]
  }

  ghost predicate OrderedCandidates(cfg: Config, rs: map<Id, Request>, ix: Index, seed: Id, now: Time, ids: seq<Id>)
    requires seed in rs
  {
    Ordered(rs, now, ids) && forall x :: x in ids <==> x in Candidates(cfg, rs, ix, seed, now)
  }

  /** Batch formation does not depend on the order in which the bucket is enumerated. */
  lemma BatchUnique(cfg: Config, rs: map<Id, Request>, ix: Index, seed: Id, now: Time, a: seq<Id>, b: seq<Id>)
    requires seed in rs && IsBatch(cfg, rs, ix, seed, now, a) && IsBatch(cfg, rs, ix, seed, now, b)
    ensures a == b
  {
    var x :| OrderedCandidates(cfg, rs, ix, seed, now, x) &&
      a == [seed] + x[..Take(cfg, rs, BatchLimit(cfg, rs[seed].spec), 1, rs[seed].spec.Tokens(), x)];
    var y :| OrderedCandidates(cfg, rs, ix, seed, now, y) &&
      b == [seed] + y[..Take(cfg, rs, BatchLimit(cfg, rs[seed].spec), 1, rs[seed].spec.Tokens(), y)];
    OrderedUnique(rs, now, x, y);
  }

  lemma {:induction false} TakeWithinLimit(cfg: Config, rs: map<Id, Request>, limit: int, size: int, tokens: int,
      ids: seq<Id>)
    requires forall i :: 0 <= i < |ids| ==> ids[i] in rs
    ensures size <= limit ==> size + Take(cfg, rs, limit, size, tokens, ids) <= limit
    decreases |ids|
  {
    if Take(cfg, rs, limit, size, tokens, ids) > 0 {
      TakeWithinLimit(cfg, rs, limit, size + 1, tokens + rs[ids[0]].spec.Tokens(), ids[1..]);
    }
  }

  /** Members of a batch: the seed first, all different, all queued and not overdue, all in
      the seed's bucket, at most as many as the limit allows. */
  lemma BatchMembers(cfg: Config, rs: map<Id, Request>, ix: Index, seed: Id, now: Time, members: seq<Id>)
    requires seed in rs && IsBatch(cfg, rs, ix, seed, now, members)
    ensures |members| >= 1 && members[0] == seed && Distinct(members)
    ensures |members| <= BatchLimit(cfg, rs[seed].spec)
    ensures forall i :: 1 <= i < |members| ==>
              && members[i] in BucketAt(ix, CompatKeyOf(cfg, rs[seed].spec))
              && IsCandidate(rs, ix.queued, seed, now, members[i])
  {
    var ids :| OrderedCandidates(cfg, rs, ix, seed, now, ids) &&
      members == [seed] + ids[..Take(cfg, rs, BatchLimit(cfg, rs[seed].spec), 1, rs[seed].spec.Tokens(), ids)];
    TakeWithinLimit(cfg, rs, BatchLimit(cfg, rs[seed].spec), 1, rs[seed].spec.Tokens(), ids);
    forall i | 1 <= i < |members| ensures members[i] in Candidates(cfg, rs, ix, seed, now) {
      assert members[i] == ids[i-1];
      assert members[i] in ids;
    }
  }

  // ----- cost -----

  /** Units a batch reserves: the sum of the rounded costs. */
  function BatchUnits(rs: map<Id, Request>, ids: seq<Id>): int
    requires forall i :: 0 <= i < |ids| ==> ids[i] in rs
  {
    if ids == [] then 0 else CeilCost(rs[ids[0]].spec.cost) + BatchUnits(rs, ids[1..])
  }

  /** Cost a worker is checked against: the sum of the charged costs. */
  function BatchCost(rs: map<Id, Request>, ids: seq<Id>): real
    requires forall i :: 0 <= i < |ids| ==> ids[i] in rs
  {
    if ids == [] then 0.0 else ChargedCost(rs[ids[0]].spec.cost) + BatchCost(rs, ids[1..])
  }

  lemma CeilBounds(c: real)
    ensures c <= Ceil(c) as real < c + 1.0
  {
  }

  lemma CeilSum(a: real, b: real)
    ensures Ceil(a + b) <= Ceil(a) + Ceil(b) <= Ceil(a + b) + 1
  {
    CeilBounds(a);
    CeilBounds(b);
    CeilBounds(a + b);
  }

  lemma CeilCostIsCharged(c: real)
    requires c >= 0.0
    ensures CeilCost(c) == Ceil(ChargedCost(c)) >= 1
  {
    CeilBounds(c);
  }

  /** Rounding each cost up never under-reserves and over-reserves by less than one unit
      per member after the first. */
  lemma {:induction false} UnitsVersusCost(rs: map<Id, Request>, ids: seq<Id>)
    requires |ids| >= 1 && forall i :: 0 <= i < |ids| ==> ids[i] in rs && rs[ids[i]].spec.cost >= 0.0
    ensures Ceil(BatchCost(rs, ids)) <= BatchUnits(rs, ids) <= Ceil(BatchCost(rs, ids)) + |ids| - 1
    ensures BatchCost(rs, ids) >= 1.0 && BatchUnits(rs, ids) >= |ids|
    decreases |ids|
  {
    CeilCostIsCharged(rs[ids[0]].spec.cost);
    if |ids| > 1 {
      UnitsVersusCost(rs, ids[1..]);
      CeilSum(ChargedCost(rs[ids[0]].spec.cost), BatchCost(rs, ids[1..]));
    }
  }

  lemma WholeCostExact(c: real)
    requires c >= 0.0 && c == c.Floor as real
    ensures ChargedCost(c) == CeilCost(c) as real
  {
    var n := c.Floor;
    assert -c == (-n) as real && (-c).Floor == -n;
    assert c > 0.0 ==> n >= 1;
  }

  /** With whole costs nothing is lost to rounding. */
  lemma {:induction false} WholeCostsExact(rs: map<Id, Request>, ids: seq<Id>)
    requires forall i :: 0 <= i < |ids| ==>
               ids[i] in rs && rs[ids[i]].spec.cost >= 0.0 && rs[ids[i]].spec.cost == rs[ids[i]].spec.cost.Floor as real
    ensures BatchCost(rs, ids) == BatchUnits(rs, ids) as real
    decreases |ids|
  {
    if ids != [] {
      WholeCostExact(rs[ids[0]].spec.cost);
      WholeCostsExact(rs, ids[1..]);
    }
  }

  // ----- worker selection -----

  /** Worker r can take a batch of this cost headed by this request. */
  predicate Eligible(r: Worker, spec: Spec, cost: real, now: Time) {
    && (r.state == Online || r.state == Busy)
    && Compatible(spec, r.capability)
    && r.available - r.reserved >= CeilCost(cost)
    && CeilCost(cost) <= r.capability.total
    && !spec.Overdue(now)
  }

  /** A possible result of the selection: an eligible worker, or the invalid id when there is none. */
  ghost predicate MaySelect(ws: map<Id, Worker>, spec: Spec, cost: real, now: Time, w: Id) {
    if w == NO_ID then
      (w in ws && Eligible(ws[w], spec, cost, now)) || forall v :: v in ws ==> !Eligible(ws[v], spec, cost, now)
    else
      w in ws && Eligible(ws[w], spec, cost, now)
  }

  /** The second capacity check never refuses a selected worker when the batch has one
      member or when all costs are whole numbers. */
  lemma SecondCheckPasses(rs: map<Id, Request>, ids: seq<Id>, r: Worker, now: Time)
    requires |ids| >= 1 && forall i :: 0 <= i < |ids| ==> ids[i] in rs && rs[ids[i]].spec.cost >= 0.0
    requires Eligible(r, rs[ids[0]].spec, BatchCost(rs, ids), now)
    requires |ids| == 1 || forall i :: 0 <= i < |ids| ==> rs[ids[i]].spec.cost == rs[ids[i]].spec.cost.Floor as real
    ensures BatchUnits(rs, ids) <= r.available - r.reserved
  {
    UnitsVersusCost(rs, ids);
    if |ids| > 1 {
      WholeCostsExact(rs, ids);
    }
  }
}
