/** Which states survive being saved: the reader refuses lists and texts beyond fixed sizes. */
module Limits {
  import opened Types
  import opened Collections
  import Binary
  import opened Fleets
  import opened Ledgers
  import opened Machine
  import opened Recovery

  const MIB_16: nat := 16_777_216

  predicate Short(v: Val) { v.Text? ==> |v.bytes| <= MIB_16 }

  lemma {:induction false} FieldsLimited(fs: seq<Shape>, vs: seq<Val>)
    requires Binary.AllConform(fs, vs)
    ensures forall i :: 0 <= i < |fs| ==> Binary.Conforms(fs[i], vs[i])
    ensures Binary.AllLimited(fs, vs) <==> forall i :: 0 <= i < |fs| ==> Binary.Limited(fs[i], vs[i])
    decreases |fs|
  {
    hide Binary.Conforms, Binary.Limited;
    if fs != [] {
      FieldsLimited(fs[1..], vs[1..]);
      forall i | 0 <= i < |fs| ensures Binary.Conforms(fs[i], vs[i]) { if i > 0 { assert fs[i] == fs[1..][i - 1]
          && vs[i] == vs[1..][i - 1]; } }
      if Binary.AllLimited(fs, vs) {
        forall i | 0 <= i < |fs| ensures Binary.Limited(fs[i], vs[i]) { if i > 0 { assert fs[i] == fs[1..][i - 1]
            && vs[i] == vs[1..][i - 1]; } }
      }
      if forall i :: 0 <= i < |fs| ==> Binary.Limited(fs[i], vs[i]) {
        forall i | 0 <= i < |fs[1..]| ensures Binary.Limited(fs[1..][i], vs[1..][i]) { assert fs[1..][i] == fs[i + 1]
            && vs[1..][i] == vs[i + 1]; }
      }
    }
  }

  predicate IsWord(sh: Shape) { sh == BYTE || sh == W32 || sh == W64 || sh == Binary.Maybe(W64) }

  /** The fields of a record at these places are words. */
  predicate WordsBut(sh: Shape, others: set<int>) {
    sh.Fields? && forall i :: 0 <= i < |sh.fields| && i !in others ==> IsWord(sh.fields[i])
  }

  /** The fields at these places are the only ones that can be too long. */
  lemma OthersLimited(sh: Shape, v: Val, others: set<int>)
    requires WordsBut(sh, others) && Binary.Conforms(sh, v)
    ensures v.Record? && |v.vals| == |sh.fields|
    ensures forall i :: 0 <= i < |sh.fields| ==> Binary.Conforms(sh.fields[i], v.vals[i])
    ensures Binary.Limited(sh, v) <==>
            forall i :: 0 <= i < |sh.fields| && i in others ==> Binary.Limited(sh.fields[i], v.vals[i])
  {
    hide Binary.Conforms, Binary.Limited, IsWord;
    RecordLimited(sh, v);
    FieldsLimited(sh.fields, v.vals);
    hide Binary.AllConform, Binary.AllLimited;
    forall i | 0 <= i < |sh.fields| && i !in others ensures Binary.Limited(sh.fields[i], v.vals[i]) {
      WordLimited(sh.fields[i], v.vals[i]);
    }
  }

  /** Words and words that may be missing are never too long. */
  lemma WordLimited(sh: Shape, v: Val)
    requires Binary.Conforms(sh, v) && IsWord(sh)
    ensures Binary.Limited(sh, v)
  {
  }

  lemma TextLimited(v: Val)
    requires Binary.Conforms(TEXT, v)
    ensures Binary.Limited(TEXT, v) <==> Short(v)
  {
  }

  lemma AttemptLimited(a: Attempt, x: AttemptExtra)
    requires Binary.Conforms(ATTEMPT, AttemptVal(a, x))
    ensures Binary.Limited(ATTEMPT, AttemptVal(a, x)) <==> Short(x.message)
  {
    hide Binary.Conforms, Binary.Limited, AttemptVal, Short;
    AttemptParts(a, x);
    OthersLimited(ATTEMPT, AttemptVal(a, x), {7});
    TextLimited(x.message);
  }

  lemma AttemptParts(a: Attempt, x: AttemptExtra)
    ensures WordsBut(ATTEMPT, {7}) && ATTEMPT.fields[7] == TEXT
    ensures AttemptVal(a, x).Record? && |AttemptVal(a, x).vals| == |ATTEMPT.fields|
        && AttemptVal(a, x).vals[7] == x.message
  {
  }

  lemma RecordLimited(sh: Shape, v: Val)
    requires sh.Fields? && Binary.Conforms(sh, v)
    ensures v.Record? && Binary.AllConform(sh.fields, v.vals)
    ensures Binary.Limited(sh, v) <==> Binary.AllLimited(sh.fields, v.vals)
  {
  }

  lemma ListLimited(max: nat, item: Shape, v: Val)
    requires Binary.Conforms(Binary.ListOf(max, item), v)
    ensures v.List? && forall i :: 0 <= i < |v.vals| ==> Binary.Conforms(item, v.vals[i])
    ensures Binary.Limited(Binary.ListOf(max, item), v) <==>
            |v.vals| <= max && forall i :: 0 <= i < |v.vals| ==> Binary.Limited(item, v.vals[i])
  {
  }

  // ----- requests, workers, states -----

  /** A request with at most 4096 attempts and no text over 16 MiB. */
  predicate RequestFits(id: Id, rec: Request, x: Extras) {
    && Short(x.request(id).terminal) && Short(x.request(id).modelName)
    && |rec.history| <= 4096
    && forall i :: 0 <= i < |rec.history| ==> Short(x.attempt(id, i).message)
  }

  lemma HistoryLimited(id: Id, h: seq<Attempt>, x: Extras)
    requires Binary.Conforms(Binary.ListOf(MAX_HISTORY, ATTEMPT), HistoryVal(id, h, x))
    ensures Binary.Limited(Binary.ListOf(MAX_HISTORY, ATTEMPT), HistoryVal(id, h, x)) <==>
            |h| <= 4096 && forall i :: 0 <= i < |h| ==> Short(x.attempt(id, i).message)
  {
    hide Binary.Conforms, Binary.Limited, AttemptVal, Short;
    var v := HistoryVal(id, h, x);
    ListLimited(MAX_HISTORY, ATTEMPT, v);
    forall i | 0 <= i < |h| ensures Binary.Conforms(ATTEMPT, v.vals[i])
        && (Binary.Limited(ATTEMPT, v.vals[i]) <==> Short(x.attempt(id, i).message)) {
      assert v.vals[i] == AttemptVal(h[i], x.attempt(id, i));
      AttemptLimited(h[i], x.attempt(id, i));
    }
  }

  lemma RequestLimited(id: Id, rec: Request, x: Extras, d: Doubles, now: Time)
    requires Binary.Conforms(REQUEST, RequestVal(id, rec, x, d, now))
    ensures Binary.Limited(REQUEST, RequestVal(id, rec, x, d, now)) <==> RequestFits(id, rec, x)
  {
    hide Binary.Conforms, Binary.Limited, RequestVal, HistoryVal, Short;
    RequestShape();
    RequestParts(id, rec, x, d, now);
    OthersLimited(REQUEST, RequestVal(id, rec, x, d, now), {8, 23, 27});
    hide WordsBut;
    TextLimited(x.request(id).terminal);
    TextLimited(x.request(id).modelName);
    HistoryLimited(id, rec.history, x);
  }

  lemma RequestShape()
    ensures WordsBut(REQUEST, {8, 23, 27}) && |REQUEST.fields| == 28
    ensures REQUEST.fields[8] == TEXT && REQUEST.fields[23] == TEXT
    ensures REQUEST.fields[27] == Binary.ListOf(MAX_HISTORY, ATTEMPT)
  {
  }

  lemma RequestParts(id: Id, rec: Request, x: Extras, d: Doubles, now: Time)
    ensures var v := RequestVal(id, rec, x, d, now);
            && v.Record? && |v.vals| == 28 && v.vals[8] == x.request(id).terminal
                && v.vals[23] == x.request(id).modelName
            && v.vals[27] == HistoryVal(id, rec.history, x)
  {
    hide HistoryVal, StateCode, Written;
  }

  /** A worker with at most 4096 models, revisions and adapters and 16 phases, and no text over 16 MiB. */
  predicate WorkerFits(r: Worker, e: WorkerExtra) {
    && Short(e.backend) && Short(e.device)
    && |r.capability.models| <= 4096 && |r.capability.revisions| <= 4096 && |r.capability.adapters| <= 4096
    && |r.capability.phases| <= 16
  }

  lemma WordsLimited(max: nat, item: Shape, v: Val)
    requires Binary.Conforms(Binary.ListOf(max, item), v) && (item == W64 || item == W32)
    ensures v.List? && (Binary.Limited(Binary.ListOf(max, item), v) <==> |v.vals| <= max)
  {
    hide Binary.Conforms, Binary.Limited;
    ListLimited(max, item, v);
    forall i | 0 <= i < |v.vals| ensures Binary.Limited(item, v.vals[i]) { WordLimited(item, v.vals[i]); }
  }

  lemma WorkerLimited(w: Id, r: Worker, e: WorkerExtra)
    requires Binary.Conforms(WORKER, WorkerVal(w, r, e))
    ensures Binary.Limited(WORKER, WorkerVal(w, r, e)) <==> WorkerFits(r, e)
  {
    hide Binary.Conforms, Binary.Limited, WorkerVal, Short;
    WorkerShape();
    WorkerParts(w, r, e);
    OthersLimited(WORKER, WorkerVal(w, r, e), {5, 6, 11, 12, 13, 14});
    hide WordsBut;
    var vs := WorkerVal(w, r, e).vals;
    TextLimited(e.backend);
    TextLimited(e.device);
    WordsLimited(MAX_NAMES, W64, vs[11]);
    WordsLimited(MAX_NAMES, W64, vs[12]);
    WordsLimited(MAX_NAMES, W64, vs[13]);
    WordsLimited(MAX_PHASES, W32, vs[14]);
  }

  lemma WorkerShape()
    ensures WordsBut(WORKER, {5, 6, 11, 12, 13, 14}) && |WORKER.fields| == 15
    ensures WORKER.fields[5] == TEXT && WORKER.fields[6] == TEXT
    ensures WORKER.fields[11] == WORKER.fields[12] == WORKER.fields[13] == Binary.ListOf(MAX_NAMES, W64)
    ensures WORKER.fields[14] == Binary.ListOf(MAX_PHASES, W32)
  {
  }

  lemma WorkerParts(w: Id, r: Worker, e: WorkerExtra)
    ensures var v := WorkerVal(w, r, e);
            && v.Record? && |v.vals| == 15 && v.vals[5] == e.backend && v.vals[6] == e.device
            && v.vals[11] == NumsVal(r.capability.models) && v.vals[12] == NumsVal(r.capability.revisions)
            && v.vals[13] == NumsVal(r.capability.adapters) && v.vals[14] == PhasesVal(r.capability.phases)
  {
    hide NumsVal, PhasesVal, WorkerCode;
  }

  lemma TenantLimited(t: Id, r: Tenant, e: TenantExtra)
    requires Binary.Conforms(TENANT, TenantVal(t, r, e))
    ensures Binary.Limited(TENANT, TenantVal(t, r, e))
  {
    hide Binary.Conforms, Binary.Limited, TenantVal;
    TenantShape();
    OthersLimited(TENANT, TenantVal(t, r, e), {});
  }

  lemma TenantShape()
    ensures WordsBut(TENANT, {})
  {
  }

  /** At most ten million requests, a hundred thousand tenants and a hundred thousand workers, each within its
      limits. */
  ghost predicate StateFits(s: State, x: Extras) {
    && |s.requests| <= 10_000_000 && |s.ledger.tenants| <= 100_000 && |s.fleet.workers| <= 100_000
    && (forall id :: id in s.requests ==> RequestFits(id, s.requests[id], x))
    && (forall w :: w in s.fleet.workers ==> WorkerFits(s.fleet.workers[w], x.worker(w)))
  }

  lemma RequestsLimited(rs: map<Id, Request>, o: seq<Id>, x: Extras, d: Doubles, now: Time)
    requires Enumerates(o, rs.Keys) && forall i :: 0 <= i < |o| ==> o[i] in rs
    requires Binary.Conforms(Binary.ListOf(MAX_REQUESTS, REQUEST), Binary.List(RequestsVal(rs, o, x, d, now)))
    ensures Binary.Limited(Binary.ListOf(MAX_REQUESTS, REQUEST), Binary.List(RequestsVal(rs, o, x, d, now))) <==>
            |o| <= 10_000_000 && forall id :: id in rs ==> RequestFits(id, rs[id], x)
  {
    hide Binary.Conforms, Binary.Limited, RequestVal, RequestFits;
    var v := Binary.List(RequestsVal(rs, o, x, d, now));
    ListLimited(MAX_REQUESTS, REQUEST, v);
    forall i | 0 <= i < |o| ensures Binary.Conforms(REQUEST, v.vals[i])
        && (Binary.Limited(REQUEST, v.vals[i]) <==> RequestFits(o[i], rs[o[i]], x)) {
      assert v.vals[i] == RequestVal(o[i], rs[o[i]], x, d, now);
      RequestLimited(o[i], rs[o[i]], x, d, now);
    }
    if forall i :: 0 <= i < |o| ==> RequestFits(o[i], rs[o[i]], x) {
      forall id | id in rs ensures RequestFits(id, rs[id], x) {
        assert id in o;
      }
    }
  }

  lemma WorkersLimited(ws: map<Id, Worker>, o: seq<Id>, x: Extras)
    requires Enumerates(o, ws.Keys) && forall i :: 0 <= i < |o| ==> o[i] in ws
    requires Binary.Conforms(Binary.ListOf(MAX_WORKERS, WORKER), Binary.List(WorkersVal(ws, o, x)))
    ensures Binary.Limited(Binary.ListOf(MAX_WORKERS, WORKER), Binary.List(WorkersVal(ws, o, x))) <==>
            |o| <= 100_000 && forall w :: w in ws ==> WorkerFits(ws[w], x.worker(w))
  {
    hide Binary.Conforms, Binary.Limited, WorkerVal, WorkerFits;
    var v := Binary.List(WorkersVal(ws, o, x));
    ListLimited(MAX_WORKERS, WORKER, v);
    forall i | 0 <= i < |o| ensures Binary.Conforms(WORKER, v.vals[i])
        && (Binary.Limited(WORKER, v.vals[i]) <==> WorkerFits(ws[o[i]], x.worker(o[i]))) {
      assert v.vals[i] == WorkerVal(o[i], ws[o[i]], x.worker(o[i]));
      WorkerLimited(o[i], ws[o[i]], x.worker(o[i]));
    }
    if forall i :: 0 <= i < |o| ==> WorkerFits(ws[o[i]], x.worker(o[i])) {
      forall w | w in ws ensures WorkerFits(ws[w], x.worker(w)) {
        assert w in o;
      }
    }
  }

  lemma TenantsLimited(ts: map<Id, Tenant>, o: seq<Id>, x: Extras)
    requires forall i :: 0 <= i < |o| ==> o[i] in ts
    requires Binary.Conforms(Binary.ListOf(MAX_TENANTS, TENANT), Binary.List(TenantsVal(ts, o, x)))
    ensures Binary.Limited(Binary.ListOf(MAX_TENANTS, TENANT), Binary.List(TenantsVal(ts, o, x))) <==> |o| <= 100_000
  {
    hide Binary.Conforms, Binary.Limited, TenantVal;
    var v := Binary.List(TenantsVal(ts, o, x));
    ListLimited(MAX_TENANTS, TENANT, v);
    forall i | 0 <= i < |o| ensures Binary.Limited(TENANT, v.vals[i]) {
      assert v.vals[i] == TenantVal(o[i], ts[o[i]], x.tenant(o[i]));
      TenantLimited(o[i], ts[o[i]], x.tenant(o[i]));
    }
  }

  lemma StateLimited(s: State, o: Walks, x: Extras, d: Doubles, saved: Time)
    requires WalksAll(o, s) && Walked(o, s) && Binary.Conforms(STATE, StateVal(s, o, x, d, saved))
    ensures Binary.Limited(STATE, StateVal(s, o, x, d, saved)) <==> StateFits(s, x)
  {
    hide Binary.Conforms, Binary.Limited, RequestFits, WorkerFits, StateVal, RequestsVal, TenantsVal, WorkersVal,
         Enumerates;
    StateShape();
    StateParts(s, o, x, d, saved);
    OthersLimited(STATE, StateVal(s, o, x, d, saved), {17, 18, 19});
    hide WordsBut;
    RequestsLimited(s.requests, o.requests, x, d, saved);
    TenantsLimited(s.ledger.tenants, o.tenants, x);
    WorkersLimited(s.fleet.workers, o.workers, x);
    WalkLength(o.requests, s.requests.Keys);
    WalkLength(o.tenants, s.ledger.tenants.Keys);
    WalkLength(o.workers, s.fleet.workers.Keys);
    assert |s.requests| == |s.requests.Keys| && |s.ledger.tenants| == |s.ledger.tenants.Keys|;
    assert |s.fleet.workers| == |s.fleet.workers.Keys|;
  }

  lemma StateShape()
    ensures WordsBut(STATE, {17, 18, 19}) && |STATE.fields| == 20
    ensures STATE.fields[17] == Binary.ListOf(MAX_REQUESTS, REQUEST)
    ensures STATE.fields[18] == Binary.ListOf(MAX_TENANTS, TENANT)
        && STATE.fields[19] == Binary.ListOf(MAX_WORKERS, WORKER)
  {
  }

  lemma StateParts(s: State, o: Walks, x: Extras, d: Doubles, saved: Time)
    requires Walked(o, s)
    ensures var v := StateVal(s, o, x, d, saved);
            && v.Record? && |v.vals| == 20
            && v.vals[17] == Binary.List(RequestsVal(s.requests, o.requests, x, d, saved))
            && v.vals[18] == Binary.List(TenantsVal(s.ledger.tenants, o.tenants, x))
            && v.vals[19] == Binary.List(WorkersVal(s.fleet.workers, o.workers, x))
  {
    hide RequestsVal, TenantsVal, WorkersVal;
  }

  lemma {:induction false} WalkLength(o: seq<Id>, s: set<Id>)
    requires Enumerates(o, s)
    ensures |o| == |s|
    decreases |o|
  {
    if o == [] {
      assert s == {};
    } else {
      var rest := s - {o[0]};
      assert o[0] in o;
      forall x ensures x in o[1..] <==> x in rest {
        assert x in o <==> x == o[0] || x in o[1..];
      }
      WalkLength(o[1..], rest);
    }
  }

  /** A saved state is read back exactly when it is within these limits; beyond them the whole file is refused. */
  lemma SurvivesExact(s: State, o: Walks, x: Extras, d: Doubles, saved: Time)
    requires WalksAll(o, s) && Walked(o, s) && Binary.Conforms(STATE, StateVal(s, o, x, d, saved))
    ensures ReadPayload(Binary.Encode(STATE, StateVal(s, o, x, d, saved))).Got? <==> StateFits(s, x)
  {
    hide Binary.Encode, Binary.Decode, Binary.Conforms, Binary.Limited, StateVal, StateFits, WalksAll;
    var v := StateVal(s, o, x, d, saved);
    StateLimited(s, o, x, d, saved);
    SavedHead(s, o, x, d, saved);
    Binary.ReadsBack(STATE, v, []);
    assert Binary.Encode(STATE, v) + [] == Binary.Encode(STATE, v);
  }
}
