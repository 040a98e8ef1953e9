/** Persisting the scheduler and recovering it: which fields a payload holds and in which order, what a recovered
    scheduler looks like, and that its queue is rebuilt to agree with its requests. */
module Recovery {
  import opened Types
  import opened Collections
  import opened Bytes
  import Binary
  import opened ReadyQueue
  import opened Ledgers
  import opened Fleets
  import opened Machine

  type Shape = Binary.Shape
  type Val = Binary.Val

  // ----- the payload -----

  const MAGIC: nat := 0x4953_4348
  const FORMAT: nat := 1
  const MAX_REQUESTS: nat := 10_000_000
  const MAX_HISTORY: nat := 4096
  const MAX_TENANTS: nat := 100_000
  const MAX_WORKERS: nat := 100_000
  const MAX_NAMES: nat := 4096
  const MAX_PHASES: nat := 16

  const BYTE: Shape := Binary.Word(1)
  const W32: Shape := Binary.Word(4)
  const W64: Shape := Binary.Word(8)
  const TEXT: Shape := Binary.Blob

  /** attempt, generation, state, worker, batch, final status, failure class, error message, output tokens, work
      units, duration */
  const ATTEMPT: Shape := Binary.Fields([W64, W64, W32, W64, W64, W32, W32, TEXT, W64, W64, W64])

  /** id, state, attempt, generation, attempts used; cancellation requested, committed, reason, terminal reason;
      tenant, session, sequence, model, revision, adapter; phase, priority, latency class; input, output and decoded
      tokens; memory, batch limit, model name; demanded memory, cost; remaining milliseconds; history */
  const REQUEST: Shape := Binary.Fields([
    W64, W32, W64, W64, W32,
    BYTE, BYTE, W32, TEXT,
    W64, W64, W64, W64, W64, Binary.Maybe(W64),
    W32, W32, W32,
    W64, W64, W64,
    W64, W32, TEXT,
    W64, W64,
    W64,
    Binary.ListOf(MAX_HISTORY, ATTEMPT)])

  /** id, weight, admitted, queued, running, services consumed, service debt */
  const TENANT: Shape := Binary.Fields([W64, W64, W32, W32, W32, W64, W64])

  /** worker, node, accelerator, boot identity; state, backend, device; total and available units; total and
      available memory; models, revisions, adapters, phases */
  const WORKER: Shape := Binary.Fields([
    W64, W64, W64, W64,
    W32, TEXT, TEXT,
    W32, W32,
    W64, W64,
    Binary.ListOf(MAX_NAMES, W64), Binary.ListOf(MAX_NAMES, W64), Binary.ListOf(MAX_NAMES, W64),
    Binary.ListOf(MAX_PHASES, W32)])

  /** magic, format; epoch; admitted, queued, reserved units, running units, tokens; nine statistics; requests;
      tenants; workers */
  const STATE: Shape := Binary.Fields([
    W32, W32, W64,
    W64, W64, W64, W64, W64,
    W64, W64, W64, W64, W64, W64, W64, W64, W64,
    Binary.ListOf(MAX_REQUESTS, REQUEST), Binary.ListOf(MAX_TENANTS, TENANT), Binary.ListOf(MAX_WORKERS, WORKER)])

  // ----- numbers and codes -----

  /** Two's complement, as a cast to an unsigned word gives it. */
  function Signed32(n: nat): int { if n < 0x8000_0000 then n else n - U32 }
  function Signed64(n: nat): int { if n < 0x8000_0000_0000_0000 then n else n - U64 }

  predicate Fits32(x: int) { -0x8000_0000 <= x < 0x8000_0000 }
  predicate Fits64(x: int) { -0x8000_0000_0000_0000 <= x < 0x8000_0000_0000_0000 }

  function I32(x: int): Val { Binary.Num(x % U32) }
  function I64(x: int): Val { Binary.Num(x % U64) }
  function Flag(b: bool): Val { Binary.Num(if b then 1 else 0) }

  lemma SignedBack(x: int)
    ensures Fits32(x) ==> Signed32(x % U32) == x
    ensures Fits64(x) ==> Signed64(x % U64) == x
  {
    if Fits32(x) { assert x % U32 == if x < 0 then x + U32 else x; }
    if Fits64(x) { assert x % U64 == if x < 0 then x + U64 else x; }
  }

  /** Bit patterns of floating-point numbers. */
  datatype Doubles = Doubles(bits: real -> nat, value: nat -> real)

  function StateCode(st: RequestState): nat {
    match st
    case Created => 0 case PendingAdmission => 1 case Admitted => 2 case Queued => 3 case Reserved => 4
    case Dispatched => 5 case Running => 6 case Completing => 7 case Completed => 8 case Rejected => 9
    case Cancelled => 10 case Expired => 11 case Failed => 12
  }

  function StateOf(n: nat): Option<RequestState> {
    match n
    case 0 => Some(RequestState.Created) case 1 => Some(RequestState.PendingAdmission)
    case 2 => Some(RequestState.Admitted) case 3 => Some(RequestState.Queued)
    case 4 => Some(RequestState.Reserved) case 5 => Some(RequestState.Dispatched)
    case 6 => Some(RequestState.Running) case 7 => Some(RequestState.Completing)
    case 8 => Some(RequestState.Completed) case 9 => Some(RequestState.Rejected)
    case 10 => Some(RequestState.Cancelled) case 11 => Some(RequestState.Expired)
    case 12 => Some(RequestState.Failed) case _ => None
  }

  function AttemptCode(a: AttemptState): nat {
    match a
    case AttemptCreated => 0 case AttemptReserved => 1 case AttemptRunning => 3 case AttemptSucceeded => 5
    case AttemptFailed => 6 case AttemptCancelled => 7 case AttemptStale => 8 case AttemptExpired => 9
  }

  function AttemptOf(n: nat): Option<AttemptState> {
    match n
    case 0 => Some(AttemptCreated) case 1 => Some(AttemptReserved) case 3 => Some(AttemptRunning)
    case 5 => Some(AttemptSucceeded) case 6 => Some(AttemptFailed) case 7 => Some(AttemptCancelled)
    case 8 => Some(AttemptStale) case 9 => Some(AttemptExpired) case _ => None
  }

  function WorkerCode(w: WorkerState): nat {
    match w
    case Unknown => 0 case Booted => 1 case Online => 2 case Busy => 3 case Offline => 4 case Drained => 5
    case Unhealthy => 6
  }

  function WorkerOf(n: nat): Option<WorkerState> {
    match n
    case 0 => Some(Unknown) case 1 => Some(Booted) case 2 => Some(Online) case 3 => Some(Busy)
    case 4 => Some(Offline) case 5 => Some(Drained) case 6 => Some(Unhealthy) case _ => None
  }

  /** The enumerations in the order of their codes, gaps for attempt states that never occur. */
  const STATES: seq<RequestState> := [
    RequestState.Created, RequestState.PendingAdmission, RequestState.Admitted, RequestState.Queued,
    RequestState.Reserved, RequestState.Dispatched, RequestState.Running, RequestState.Completing,
    RequestState.Completed, RequestState.Rejected, RequestState.Cancelled, RequestState.Expired, RequestState.Failed]
  const ATTEMPT_STATES: seq<Option<AttemptState>> := [
    Some(AttemptCreated), Some(AttemptReserved), None, Some(AttemptRunning), None, Some(AttemptSucceeded),
    Some(AttemptFailed), Some(AttemptCancelled), Some(AttemptStale), Some(AttemptExpired)]
  const WORKER_STATES: seq<WorkerState> := [Unknown, Booted, Online, Busy, Offline, Drained, Unhealthy]

  /** A code is the place of its value in the list, and reads as that value. */
  lemma CodesExact(n: nat)
    ensures n < |STATES| ==> StateCode(STATES[n]) == n
    ensures StateOf(n) == if n < |STATES| then Some(STATES[n]) else None
    ensures n < |ATTEMPT_STATES| && ATTEMPT_STATES[n].Some? ==> AttemptCode(ATTEMPT_STATES[n].value) == n
    ensures AttemptOf(n) == if n < |ATTEMPT_STATES| then ATTEMPT_STATES[n] else None
    ensures n < |WORKER_STATES| ==> WorkerCode(WORKER_STATES[n]) == n
    ensures WorkerOf(n) == if n < |WORKER_STATES| then Some(WORKER_STATES[n]) else None
  {
  }

  // ----- deadlines -----

  /** What is written for a deadline: the milliseconds left, or -1 for none. */
  function Written(d: Option<Time>, now: Time): int { if d.Some? then Remaining(d.value, now) else -1 }

  function Reread(ms: int, now: Time): Option<Time> { if ms >= 0 then Some(now + ms * TICKS_PER_MS) else None }

  /** Across persist and recover a request keeps having a deadline or not; the time left never grows and shrinks by
      less than a millisecond; a deadline that had passed has passed again. */
  lemma DeadlineNotExtended(d: Option<Time>, saved: Time, now: Time)
    ensures var r := Reread(Written(d, saved), now);
            && (r.Some? <==> d.Some?)
            && (d.Some? ==>
                  && r.value - now <= (if d.value > saved then d.value - saved else 0) < r.value - now + TICKS_PER_MS
                  && (saved >= d.value ==> now >= r.value))
  {
  }

  // ----- what is written -----

  /** Persisted fields that the rest of the model does not carry: any values. */
  datatype RequestExtra = RequestExtra(used: Val, reason: Val, terminal: Val, session: Val, sequence: Val,
      modelName: Val, demand: Val)
  datatype AttemptExtra = AttemptExtra(batch: Val, status: Val, failure: Val, message: Val, tokens: Val, work: Val,
      duration: Val)
  datatype TenantExtra = TenantExtra(weight: Val, running: Val, services: Val, debt: Val)
  datatype WorkerExtra = WorkerExtra(node: Val, accelerator: Val, backend: Val, device: Val, memory: Val,
      memoryFree: Val)
  datatype Extras = Extras(
    request: Id -> RequestExtra, attempt: (Id, nat) -> AttemptExtra, tenant: Id -> TenantExtra,
        worker: Id -> WorkerExtra,
    stats: nat -> Val)

  function AttemptVal(a: Attempt, x: AttemptExtra): Val {
    Binary.Record([Binary.Num(a.id), Binary.Num(a.generation), I32(AttemptCode(a.state)), Binary.Num(a.worker), x.batch,
                   x.status, x.failure, x.message, x.tokens, x.work, x.duration])
  }

  function HistoryVal(id: Id, h: seq<Attempt>, x: Extras): Val {
    Binary.List(seq(|h|, i requires 0 <= i < |h| => AttemptVal(h[i], x.attempt(id, i))))
  }

  function RequestVal(id: Id, rec: Request, x: Extras, d: Doubles, now: Time): Val {
    var sp, e := rec.spec, x.request(id);
    Binary.Record([
      Binary.Num(id), I32(StateCode(rec.state)), Binary.Num(rec.attempt), Binary.Num(rec.generation), e.used,
      Flag(rec.cancelRequested), Flag(rec.cancelCommitted), e.reason, e.terminal,
      Binary.Num(sp.tenant), e.session, e.sequence, Binary.Num(sp.model), Binary.Num(sp.revision),
      if sp.adapter.Some? then Binary.Present(Binary.Num(sp.adapter.value)) else Binary.Absent,
      I32(sp.phase), I32(sp.priority), I32(sp.latency),
      I64(sp.inputTokens), I64(sp.outputTokens), I64(sp.decodedTokens),
      I64(sp.memory), I32(sp.maxBatch), e.modelName,
      e.demand, Binary.Num(d.bits(sp.cost)),
      I64(Written(sp.deadline, now)),
      HistoryVal(id, rec.history, x)])
  }

  function TenantVal(t: Id, r: Tenant, e: TenantExtra): Val {
    Binary.Record([Binary.Num(t), e.weight, I32(r.admitted), I32(r.queued), e.running, e.services, e.debt])
  }

  function NumsVal(ids: seq<Id>): Val { Binary.List(seq(|ids|, i requires 0 <= i < |ids| => Binary.Num(ids[i]))) }
  function PhasesVal(ps: seq<Phase>): Val { Binary.List(seq(|ps|, i requires 0 <= i < |ps| => I32(ps[i]))) }

  function WorkerVal(w: Id, r: Worker, e: WorkerExtra): Val {
    var c := r.capability;
    Binary.Record([
      Binary.Num(w), e.node, e.accelerator, Binary.Num(r.boot),
      I32(WorkerCode(r.state)), e.backend, e.device,
      I32(c.total), I32(c.available),
      e.memory, e.memoryFree,
      NumsVal(c.models), NumsVal(c.revisions), NumsVal(c.adapters), PhasesVal(c.phases)])
  }

  /** The orders in which the three maps are walked. */
  datatype Walks = Walks(requests: seq<Id>, tenants: seq<Id>, workers: seq<Id>)

  ghost predicate WalksAll(o: Walks, s: State) {
    && Enumerates(o.requests, s.requests.Keys) && Enumerates(o.tenants, s.ledger.tenants.Keys)
    && Enumerates(o.workers, s.fleet.workers.Keys)
  }

  function RequestsVal(rs: map<Id, Request>, o: seq<Id>, x: Extras, d: Doubles, now: Time): seq<Val>
    requires forall i :: 0 <= i < |o| ==> o[i] in rs
  {
    seq(|o|, i requires 0 <= i < |o| => RequestVal(o[i], rs[o[i]], x, d, now))
  }

  function TenantsVal(ts: map<Id, Tenant>, o: seq<Id>, x: Extras): seq<Val>
    requires forall i :: 0 <= i < |o| ==> o[i] in ts
  {
    seq(|o|, i requires 0 <= i < |o| => TenantVal(o[i], ts[o[i]], x.tenant(o[i])))
  }

  function WorkersVal(ws: map<Id, Worker>, o: seq<Id>, x: Extras): seq<Val>
    requires forall i :: 0 <= i < |o| ==> o[i] in ws
  {
    seq(|o|, i requires 0 <= i < |o| => WorkerVal(o[i], ws[o[i]], x.worker(o[i])))
  }

  predicate Walked(o: Walks, s: State) {
    && (forall i :: 0 <= i < |o.requests| ==> o.requests[i] in s.requests)
    && (forall i :: 0 <= i < |o.tenants| ==> o.tenants[i] in s.ledger.tenants)
    && (forall i :: 0 <= i < |o.workers| ==> o.workers[i] in s.fleet.workers)
  }

  function StateVal(s: State, o: Walks, x: Extras, d: Doubles, now: Time): Val
    requires Walked(o, s)
  {
    Binary.Record([
      Binary.Num(MAGIC), Binary.Num(FORMAT), Binary.Num(s.epoch),
      I64(s.ledger.admitted), I64(s.index.size), I64(s.fleet.reserved), I64(s.fleet.running), I64(s.tokens),
      x.stats(0), x.stats(1), x.stats(2), x.stats(3), x.stats(4), x.stats(5), x.stats(6), x.stats(7), x.stats(8),
      Binary.List(RequestsVal(s.requests, o.requests, x, d, now)),
      Binary.List(TenantsVal(s.ledger.tenants, o.tenants, x)),
      Binary.List(WorkersVal(s.fleet.workers, o.workers, x))])
  }

  // ----- what is made of it -----

  function Field(v: Val, i: nat): Val { if v.Record? && i < |v.vals| then v.vals[i] else Binary.Absent }
  function NumAt(v: Val, i: nat): nat { if Field(v, i).Num? then Field(v, i).n else 0 }
  function ListAt(v: Val, i: nat): seq<Val> { if Field(v, i).List? then Field(v, i).vals else [] }
  function Plain(v: Val): nat { if v.Num? then v.n else 0 }

  function AdapterAt(v: Val, i: nat): Option<Id> {
    if Field(v, i).Present? then Some(Plain(Field(v, i).value)) else None
  }

  /** The enumeration casts are unchecked; a code that names nothing reads as the first one here. */
  function RestoreAttempt(v: Val): Attempt {
    var st := AttemptOf(NumAt(v, 2));
    Attempt(NumAt(v, 0), NumAt(v, 1), if st.Some? then st.value else AttemptCreated, NumAt(v, 3))
  }

  function PhaseOf(n: nat): Phase { if n < 3 then n else 0 }
  function PriorityOf(n: nat): Priority { if n < 5 then n else 0 }
  function LatencyOf(n: nat): Latency { if n < 4 then n else 0 }

  function RestoreSpec(v: Val, d: Doubles, now: Time): Spec {
    Spec(NumAt(v, 9), NumAt(v, 12), NumAt(v, 13), AdapterAt(v, 14),
         PhaseOf(NumAt(v, 15)), PriorityOf(NumAt(v, 16)), LatencyOf(NumAt(v, 17)),
         Signed64(NumAt(v, 18)), Signed64(NumAt(v, 19)), Signed64(NumAt(v, 20)),
         d.value(NumAt(v, 25)), Signed64(NumAt(v, 21)), Signed32(NumAt(v, 22)), Reread(Signed64(NumAt(v, 26)), now))
  }

  function RestoreRequest(v: Val, d: Doubles, now: Time): Request {
    var st := StateOf(NumAt(v, 1));
    var h := ListAt(v, 27);
    Request(RestoreSpec(v, d, now), if st.Some? then st.value else RequestState.Created, NumAt(v, 2), NumAt(v, 3),
            seq(|h|, i requires 0 <= i < |h| => RestoreAttempt(h[i])), now, NumAt(v, 5) != 0, NumAt(v, 6) != 0, None)
  }

  /** A recovered request: the deadline is counted from now, and it is in no batch. */
  function Restored(rec: Request, saved: Time, now: Time): Request {
    rec.(spec := rec.spec.(deadline := Reread(Written(rec.spec.deadline, saved), now)), batch := None, queuedAt := now)
  }

  /** The integers of a record fit their fields and its cost is a floating-point number. */
  predicate Writable(rec: Request, d: Doubles, now: Time) {
    var sp := rec.spec;
    && Fits64(sp.inputTokens) && Fits64(sp.outputTokens) && Fits64(sp.decodedTokens) && Fits64(sp.memory)
        && Fits32(sp.maxBatch)
    && Fits64(Written(sp.deadline, now)) && d.value(d.bits(sp.cost)) == sp.cost
  }

  lemma StateBack(st: RequestState, a: AttemptState, w: WorkerState)
    ensures StateOf(StateCode(st) % U32) == Some(st)
    ensures AttemptOf(AttemptCode(a) % U32) == Some(a)
    ensures WorkerOf(WorkerCode(w) % U32) == Some(w)
  {
  }

  lemma AttemptBack(a: Attempt, x: AttemptExtra)
    ensures RestoreAttempt(AttemptVal(a, x)) == a
  {
    StateBack(RequestState.Queued, a.state, Unknown);
    hide AttemptOf, AttemptCode;
  }

  lemma SpecBack(id: Id, rec: Request, x: Extras, d: Doubles, saved: Time, now: Time)
    requires Writable(rec, d, saved)
    ensures RestoreSpec(RequestVal(id, rec, x, d, saved), d, now) == Restored(rec, saved, now).spec
  {
    var sp := rec.spec;
    SignedBack(sp.inputTokens);
    SignedBack(sp.outputTokens);
    SignedBack(sp.decodedTokens);
    SignedBack(sp.memory);
    SignedBack(sp.maxBatch);
    SignedBack(Written(sp.deadline, saved));
    hide Signed32, Signed64, Written, Reread, HistoryVal, StateCode;
    assert sp.phase % U32 == sp.phase && sp.priority % U32 == sp.priority && sp.latency % U32 == sp.latency;
  }

  /** Every persisted field of a request is restored. */
  lemma RequestBack(id: Id, rec: Request, x: Extras, d: Doubles, saved: Time, now: Time)
    requires Writable(rec, d, saved)
    ensures RestoreRequest(RequestVal(id, rec, x, d, saved), d, now) == Restored(rec, saved, now)
    ensures NumAt(RequestVal(id, rec, x, d, saved), 0) == id
  {
    SpecBack(id, rec, x, d, saved, now);
    StateBack(rec.state, AttemptCreated, Unknown);
    var v := RequestVal(id, rec, x, d, saved);
    hide RestoreSpec, StateOf, StateCode, Written, Reread;
    var h := ListAt(v, 27);
    assert h == HistoryVal(id, rec.history, x).vals;
    forall i | 0 <= i < |rec.history| ensures RestoreAttempt(h[i]) == rec.history[i] {
      AttemptBack(rec.history[i], x.attempt(id, i));
    }
    hide RestoreAttempt;
    assert RestoreRequest(v, d, now).history == rec.history;
  }

  // ----- the recovered maps -----

  /** Insert pairs one by one; a key that is already there keeps its value. */
  function InsertAll<T>(ps: seq<(Id, T)>): map<Id, T>
    decreases |ps|
  {
    if ps == [] then map[]
    else
      var m, p := InsertAll(ps[..|ps| - 1]), ps[|ps| - 1];
      if p.0 in m then m else m[p.0 := p.1]
  }

  lemma {:induction false} InsertAllPrefix<T>(o: seq<Id>, ps: seq<(Id, T)>, target: map<Id, T>, n: nat)
    requires n <= |o| == |ps| && Distinct(o)
    requires forall i :: 0 <= i < |o| ==> o[i] in target && ps[i] == (o[i], target[o[i]])
    ensures InsertAll(ps[..n]) == map k | k in target && k in o[..n] :: target[k]
    decreases n
  {
    if n > 0 {
      InsertAllPrefix(o, ps, target, n - 1);
      assert ps[..n][..n - 1] == ps[..n - 1] && ps[..n][n - 1] == ps[n - 1];
      assert o[..n] == o[..n - 1] + [o[n - 1]];
      assert o[n - 1] !in o[..n - 1];
    }
  }

  lemma InsertAllMap<T>(o: seq<Id>, ps: seq<(Id, T)>, target: map<Id, T>)
    requires |o| == |ps| && Enumerates(o, target.Keys)
    requires forall i :: 0 <= i < |o| ==> o[i] in target && ps[i] == (o[i], target[o[i]])
    ensures InsertAll(ps) == target
  {
    InsertAllPrefix(o, ps, target, |o|);
    assert ps[..|o|] == ps && o[..|o|] == o;
    assert (map k | k in target && k in o :: target[k]) == target;
  }

  function RestoreRequests(vs: seq<Val>, d: Doubles, now: Time): map<Id, Request> {
    InsertAll(seq(|vs|, i requires 0 <= i < |vs| => (NumAt(vs[i], 0), RestoreRequest(vs[i], d, now))))
  }

  /** Queued counts are reset; rebuilding the queue counts again. */
  function RestoreTenant(v: Val): Tenant { Tenant(Signed32(NumAt(v, 2)), 0) }

  function RestoreTenants(vs: seq<Val>): map<Id, Tenant> {
    InsertAll(seq(|vs|, i requires 0 <= i < |vs| => (NumAt(vs[i], 0), RestoreTenant(vs[i]))))
  }

  function NumsAt(v: Val, i: nat): seq<Id> { var l := ListAt(v, i); seq(|l|, k requires 0 <= k < |l| => Plain(l[k])) }
  function PhasesAt(v: Val, i: nat): seq<Phase>
  {
    var l := ListAt(v, i);
    seq(|l|, k requires 0 <= k < |l| => PhaseOf(Plain(l[k])))
  }

  /** A recovered worker holds nothing. */
  function RestoreWorker(v: Val): Worker {
    var st := WorkerOf(NumAt(v, 4));
    var c := Capability(Signed32(NumAt(v, 7)), Signed32(NumAt(v, 8)), NumsAt(v, 11), NumsAt(v, 12), NumsAt(v, 13),
        PhasesAt(v, 14));
    Worker(NumAt(v, 3), c, if st.Some? then st.value else Unknown, c.available, 0, 0, map[], map[], {}, {})
  }

  function RestoreWorkers(vs: seq<Val>): map<Id, Worker> {
    InsertAll(seq(|vs|, i requires 0 <= i < |vs| => (NumAt(vs[i], 0), RestoreWorker(vs[i]))))
  }

  /** The scheduler after the payload was read and before the queue is rebuilt. Identifiers, configuration, drain
      flag and virtual time are those of the recovering scheduler. */
  function Loaded(cur: State, v: Val, d: Doubles, now: Time): State {
    State(cur.cfg, NumAt(v, 2), cur.issued, cur.draining, Signed64(NumAt(v, 7)),
          RestoreRequests(ListAt(v, 17), d, now), EMPTY_INDEX, Fair(map[], {}, cur.fair.virtualTime),
          Ledger(RestoreTenants(ListAt(v, 18)), Signed64(NumAt(v, 3))),
          Fleet(RestoreWorkers(ListAt(v, 19)), Signed64(NumAt(v, 5)), Signed64(NumAt(v, 6))))
  }

  predicate Waiting(rec: Request) { rec.state == RequestState.Queued || rec.state == RequestState.Admitted }

  ghost function WaitingIds(rs: map<Id, Request>): set<Id> { set id | id in rs && Waiting(rs[id]) }

  /** Queue requests again, in the given order. */
  function EnqueueAll(s: State, order: seq<Id>, now: Time): State
    decreases |order|
  {
    if order == [] then s
    else EnqueueAll(if order[0] in s.requests then EnqueueRequest(s, order[0], now) else s, order[1..], now)
  }

  /** The payload is read as the magic, the format and the rest; anything else is corrupt. */
  function ReadPayload(s: seq<Byte>): Binary.Read<Val> {
    var r := Binary.Decode(STATE, s);
    if r.Got? && NumAt(r.value, 0) == MAGIC && NumAt(r.value, 1) == FORMAT then r else Binary.Read.Failed
  }

  lemma RequestsBack(rs: map<Id, Request>, o: seq<Id>, x: Extras, d: Doubles, saved: Time, now: Time)
    requires Enumerates(o, rs.Keys) && (forall i :: 0 <= i < |o| ==> o[i] in rs && Writable(rs[o[i]], d, saved))
    ensures RestoreRequests(RequestsVal(rs, o, x, d, saved), d, now) == map id | id in rs ::
        Restored(rs[id], saved, now)
  {
    hide RestoreRequest, RequestVal, Restored, InsertAll;
    var vs := RequestsVal(rs, o, x, d, saved);
    var ps := seq(|vs|, i requires 0 <= i < |vs| => (NumAt(vs[i], 0), RestoreRequest(vs[i], d, now)));
    var target := map id | id in rs :: Restored(rs[id], saved, now);
    forall i | 0 <= i < |o| ensures o[i] in target && ps[i] == (o[i], target[o[i]]) {
      RequestBack(o[i], rs[o[i]], x, d, saved, now);
    }
    InsertAllMap(o, ps, target);
  }

  lemma TenantBack(t: Id, r: Tenant, e: TenantExtra)
    requires Fits32(r.admitted)
    ensures RestoreTenant(TenantVal(t, r, e)) == Tenant(r.admitted, 0) && NumAt(TenantVal(t, r, e), 0) == t
  {
    SignedBack(r.admitted);
    hide Signed32;
  }

  lemma TenantsBack(ts: map<Id, Tenant>, o: seq<Id>, x: Extras)
    requires Enumerates(o, ts.Keys) && (forall i :: 0 <= i < |o| ==> o[i] in ts && Fits32(ts[o[i]].admitted))
    ensures RestoreTenants(TenantsVal(ts, o, x)) == map t | t in ts :: Tenant(ts[t].admitted, 0)
  {
    hide RestoreTenant, TenantVal, InsertAll;
    var vs := TenantsVal(ts, o, x);
    var ps := seq(|vs|, i requires 0 <= i < |vs| => (NumAt(vs[i], 0), RestoreTenant(vs[i])));
    var target := map t | t in ts :: Tenant(ts[t].admitted, 0);
    forall i | 0 <= i < |o| ensures o[i] in target && ps[i] == (o[i], target[o[i]]) {
      TenantBack(o[i], ts[o[i]], x.tenant(o[i]));
    }
    InsertAllMap(o, ps, target);
  }

  /** What a worker looks like after recovery: registered as before, holding nothing. */
  function Emptied(r: Worker): Worker {
    Worker(r.boot, r.capability, r.state, r.capability.available, 0, 0, map[], map[], {}, {})
  }

  lemma WorkerBack(w: Id, r: Worker, e: WorkerExtra)
    requires Fits32(r.capability.total) && Fits32(r.capability.available)
    ensures RestoreWorker(WorkerVal(w, r, e)) == Emptied(r) && NumAt(WorkerVal(w, r, e), 0) == w
  {
    var c, v := r.capability, WorkerVal(w, r, e);
    SignedBack(c.total);
    SignedBack(c.available);
    StateBack(RequestState.Queued, AttemptCreated, r.state);
    hide Signed32, WorkerOf, WorkerCode;
    assert NumsAt(v, 11) == c.models && NumsAt(v, 12) == c.revisions && NumsAt(v, 13) == c.adapters;
    assert PhasesAt(v, 14) == c.phases;
  }

  lemma WorkersBack(ws: map<Id, Worker>, o: seq<Id>, x: Extras)
    requires Enumerates(o, ws.Keys)
    requires forall i :: 0 <= i < |o| ==>
        o[i] in ws && Fits32(ws[o[i]].capability.total) && Fits32(ws[o[i]].capability.available)
    ensures RestoreWorkers(WorkersVal(ws, o, x)) == map w | w in ws :: Emptied(ws[w])
  {
    hide RestoreWorker, WorkerVal, Emptied, InsertAll;
    var vs := WorkersVal(ws, o, x);
    var ps := seq(|vs|, i requires 0 <= i < |vs| => (NumAt(vs[i], 0), RestoreWorker(vs[i])));
    var target := map w | w in ws :: Emptied(ws[w]);
    forall i | 0 <= i < |o| ensures o[i] in target && ps[i] == (o[i], target[o[i]]) {
      WorkerBack(o[i], ws[o[i]], x.worker(o[i]));
    }
    InsertAllMap(o, ps, target);
  }

  // ----- rebuilding the queue -----

  /** The index lists exactly the requests in done. */
  ghost predicate Indexed(cfg: Config, rs: map<Id, Request>, ix: Index, done: set<Id>) {
    && ix.queued == done && ix.size == |done|
    && (forall c :: BucketAt(ix, c) == Bucket(cfg, rs, done, c))
    && (forall c :: c in ix.compat ==> ix.compat[c] != {})
  }

  ghost function Bucket(cfg: Config, rs: map<Id, Request>, done: set<Id>, c: CompatKey): set<Id> {
    set id | id in done && id in rs && CompatKeyOf(cfg, rs[id].spec) == c
  }

  lemma BucketGrows(cfg: Config, rs: map<Id, Request>, done: set<Id>, id: Id, c: CompatKey)
    requires id in rs
    ensures Bucket(cfg, rs, done + {id}, c) ==
            if CompatKeyOf(cfg, rs[id].spec) == c then Bucket(cfg, rs, done, c) + {id} else Bucket(cfg, rs, done, c)
  {
    hide CompatKeyOf;
  }

  lemma InsertedBucket(cfg: Config, ix: Index, id: Id, spec: Spec, c: CompatKey)
    requires forall b :: b in ix.compat ==> ix.compat[b] != {}
    ensures var ix1 := Insert(cfg, ix, id, spec);
            && BucketAt(ix1, c) == (if CompatKeyOf(cfg, spec) == c then BucketAt(ix, c) + {id} else BucketAt(ix, c))
            && (c in ix1.compat ==> ix1.compat[c] != {})
  {
  }

  lemma IndexedMore(cfg: Config, rs: map<Id, Request>, ix: Index, done: set<Id>, id: Id)
    requires Indexed(cfg, rs, ix, done) && id !in done && id in rs
    ensures Indexed(cfg, rs, Insert(cfg, ix, id, rs[id].spec), done + {id})
  {
    hide Bucket, CompatKeyOf;
    var ix1 := Insert(cfg, ix, id, rs[id].spec);
    assert ix1.queued == done + {id} && ix1.size == |done + {id}|;
    hide Insert;
    forall c ensures BucketAt(ix1, c) == Bucket(cfg, rs, done + {id}, c) && (c in ix1.compat ==> ix1.compat[c] != {}) {
      BucketGrows(cfg, rs, done, id, c);
      InsertedBucket(cfg, ix, id, rs[id].spec, c);
    }
  }

  /** The heaps hold exactly one entry for each request in done, recorded at this instant, and exactly the flows
      with entries are active. */
  ghost predicate Stored(rs: map<Id, Request>, fq: Fair, done: set<Id>, now: Time) {
    && (forall k, e :: HeapAt(fq, k)[e] == if IsEntry(rs, done, now, k, e) then 1 else 0)
    && (forall k :: k in fq.active <==> k in fq.flows && fq.flows[k].pending != multiset{})
  }

  predicate IsEntry(rs: map<Id, Request>, done: set<Id>, now: Time, k: FlowKey, e: ReadyEntry) {
    e.id in done && e.id in rs && k == FlowKeyOf(rs[e.id].spec) && e == EntryOf(e.id, rs[e.id].(queuedAt := now))
  }

  lemma StoredMore(cfg: Config, rs: map<Id, Request>, fq: Fair, done: set<Id>, now: Time, id: Id, rec: Request)
    requires Stored(rs, fq, done, now) && id !in done && id in rs
        && rec == rs[id].(state := RequestState.Queued, queuedAt := now)
    ensures Stored(rs, Push(cfg, fq, id, rec), done + {id}, now)
  {
    hide KeyWeight;
    var fq1 := Push(cfg, fq, id, rec);
    forall k, e ensures HeapAt(fq1, k)[e] == if IsEntry(rs, done + {id}, now, k, e) then 1 else 0 {
      PushedHeap(cfg, fq, id, rec, k);
      assert HeapAt(fq, k)[e] == if IsEntry(rs, done, now, k, e) then 1 else 0;
    }
  }

  /** The tenants' queued counts are those of done, on top of what they were. */
  ghost function TenantShare(rs: map<Id, Request>, done: set<Id>, t: Id): set<Id> {
    set id | id in done && id in rs && rs[id].spec.tenant == t
  }

  ghost predicate Counted(rs: map<Id, Request>, l: Ledger, done: set<Id>) {
    forall t :: TenantAt(l, t).queued == |TenantShare(rs, done, t)|
  }

  lemma CountedMore(rs: map<Id, Request>, l: Ledger, done: set<Id>, id: Id)
    requires Counted(rs, l, done) && id !in done && id in rs
    ensures Counted(rs, NoteQueued(l, rs[id].spec.tenant), done + {id})
  {
    forall t ensures TenantAt(NoteQueued(l, rs[id].spec.tenant), t).queued == |TenantShare(rs, done + {id}, t)| {
      assert TenantAt(l, t).queued == |TenantShare(rs, done, t)|;
      if rs[id].spec.tenant == t {
        assert TenantShare(rs, done + {id}, t) == TenantShare(rs, done, t) + {id};
      } else {
        assert TenantShare(rs, done + {id}, t) == TenantShare(rs, done, t);
      }
    }
  }

  /** State s while the queue of the loaded requests rs is being rebuilt: those in done are in. */
  ghost predicate Rebuilding(rs: map<Id, Request>, s: State, done: set<Id>, now: Time) {
    && s.requests.Keys == rs.Keys
    && (forall id :: id in rs ==>
        s.requests[id] == if id in done then rs[id].(state := RequestState.Queued, queuedAt := now) else rs[id])
    && Indexed(s.cfg, rs, s.index, done) && Stored(rs, s.fair, done, now) && Counted(rs, s.ledger, done)
  }

  lemma RebuildOne(rs: map<Id, Request>, s: State, done: set<Id>, now: Time, id: Id)
    requires Rebuilding(rs, s, done, now) && id in rs && id !in done
    ensures Rebuilding(rs, EnqueueRequest(s, id, now), done + {id}, now)
  {
    hide Insert, Push, NoteQueued;
    var rec := s.requests[id].(state := RequestState.Queued, queuedAt := now);
    IndexedMore(s.cfg, rs, s.index, done, id);
    StoredMore(s.cfg, rs, s.fair, done, now, id, rec);
    CountedMore(rs, s.ledger, done, id);
    hide Indexed, Stored, Counted;
  }

  lemma {:induction false} RebuildAll(rs: map<Id, Request>, s: State, done: set<Id>, order: seq<Id>, now: Time)
    requires Rebuilding(rs, s, done, now) && Distinct(order)
    requires forall i :: 0 <= i < |order| ==> order[i] in rs && order[i] !in done
    ensures Rebuilding(rs, EnqueueAll(s, order, now), done + (set x | x in order), now)
    decreases |order|
  {
    hide EnqueueRequest, Indexed, Stored, Counted;
    if order == [] {
      assert done + (set x | x in order) == done;
    } else {
      RebuildOne(rs, s, done, now, order[0]);
      var s1 := EnqueueRequest(s, order[0], now);
      RebuildAll(rs, s1, done + {order[0]}, order[1..], now);
      assert done + {order[0]} + (set x | x in order[1..]) == done + (set x | x in order);
    }
  }

  // ----- the theorems -----

  /** The saved state as a recovering scheduler takes it over: requests with their deadlines counted from now,
      tenants and workers as they were but holding nothing, the queue still to be rebuilt. */
  function Revived(s: State, cur: State, saved: Time, now: Time): State {
    State(cur.cfg, s.epoch, cur.issued, cur.draining, s.tokens,
          map id | id in s.requests :: Restored(s.requests[id], saved, now),
          EMPTY_INDEX, Fair(map[], {}, cur.fair.virtualTime),
          Ledger(map t | t in s.ledger.tenants :: Tenant(s.ledger.tenants[t].admitted, 0), s.ledger.admitted),
          Fleet(map w | w in s.fleet.workers :: Emptied(s.fleet.workers[w]), s.fleet.reserved, s.fleet.running))
  }

  ghost predicate Loadable(s: State, o: Walks, d: Doubles, saved: Time) {
    && WalksAll(o, s) && Walked(o, s)
    && (forall id :: id in s.requests ==> Writable(s.requests[id], d, saved))
    && (forall t :: t in s.ledger.tenants ==> Fits32(s.ledger.tenants[t].admitted))
    && (forall w :: w in s.fleet.workers ==>
          Fits32(s.fleet.workers[w].capability.total) && Fits32(s.fleet.workers[w].capability.available))
    && Fits64(s.ledger.admitted) && Fits64(s.fleet.reserved) && Fits64(s.fleet.running) && Fits64(s.tokens)
  }

  /** In whatever order the maps are walked, a payload written within the limits is read back, and every persisted
      field of every request, tenant and worker is as it was. */
  lemma LoadsWhatWasSaved(s: State, cur: State, o: Walks, x: Extras, d: Doubles, saved: Time, now: Time)
    requires Loadable(s, o, d, saved)
    requires Binary.Conforms(STATE, StateVal(s, o, x, d, saved))
    requires Binary.Limited(STATE, StateVal(s, o, x, d, saved))
    ensures var v := StateVal(s, o, x, d, saved);
            && ReadPayload(Binary.Encode(STATE, v)) == Binary.Got(v, [])
            && Loaded(cur, v, d, now) == Revived(s, cur, saved, now)
  {
    hide Binary.Encode, Binary.Decode, Binary.Conforms, Binary.Limited, ReadPayload, Loaded;
    SavedHead(s, o, x, d, saved);
    PayloadBack(StateVal(s, o, x, d, saved));
    LoadedBack(s, cur, o, x, d, saved, now);
  }

  /** Where the fields of a saved state are. */
  lemma SavedHead(s: State, o: Walks, x: Extras, d: Doubles, saved: Time)
    requires Walked(o, s)
    ensures var v := StateVal(s, o, x, d, saved);
            NumAt(v, 0) == MAGIC && NumAt(v, 1) == FORMAT && NumAt(v, 2) == s.epoch
                && NumAt(v, 3) == s.ledger.admitted % U64
  {
    hide RequestsVal, TenantsVal, WorkersVal;
  }

  lemma SavedTotals(s: State, o: Walks, x: Extras, d: Doubles, saved: Time)
    requires Walked(o, s)
    ensures var v := StateVal(s, o, x, d, saved);
            NumAt(v, 5) == s.fleet.reserved % U64 && NumAt(v, 6) == s.fleet.running % U64
                && NumAt(v, 7) == s.tokens % U64
  {
    hide RequestsVal, TenantsVal, WorkersVal;
  }

  lemma SavedLists(s: State, o: Walks, x: Extras, d: Doubles, saved: Time)
    requires Walked(o, s)
    ensures var v := StateVal(s, o, x, d, saved);
            && ListAt(v, 17) == RequestsVal(s.requests, o.requests, x, d, saved)
            && ListAt(v, 18) == TenantsVal(s.ledger.tenants, o.tenants, x)
            && ListAt(v, 19) == WorkersVal(s.fleet.workers, o.workers, x)
  {
    hide RequestsVal, TenantsVal, WorkersVal;
  }

  lemma PayloadBack(v: Val)
    requires Binary.Conforms(STATE, v) && Binary.Limited(STATE, v) && NumAt(v, 0) == MAGIC && NumAt(v, 1) == FORMAT
    ensures ReadPayload(Binary.Encode(STATE, v)) == Binary.Got(v, [])
  {
    hide Binary.Encode, Binary.Decode, Binary.Conforms, Binary.Limited;
    Binary.ReadsBack(STATE, v, []);
    assert Binary.Encode(STATE, v) + [] == Binary.Encode(STATE, v);
  }

  lemma LoadedBack(s: State, cur: State, o: Walks, x: Extras, d: Doubles, saved: Time, now: Time)
    requires Loadable(s, o, d, saved)
    ensures Loaded(cur, StateVal(s, o, x, d, saved), d, now) == Revived(s, cur, saved, now)
  {
    hide RequestsVal, TenantsVal, WorkersVal, RestoreRequests, RestoreTenants, RestoreWorkers, StateVal, NumAt, ListAt,
         Writable, Restored, Emptied, Signed64;
    SavedHead(s, o, x, d, saved);
    SavedTotals(s, o, x, d, saved);
    SavedLists(s, o, x, d, saved);
    RequestsBack(s.requests, o.requests, x, d, saved, now);
    TenantsBack(s.ledger.tenants, o.tenants, x);
    WorkersBack(s.fleet.workers, o.workers, x);
    SignedBack(s.ledger.admitted);
    SignedBack(s.fleet.reserved);
    SignedBack(s.fleet.running);
    SignedBack(s.tokens);
  }

  /** Every strict prefix of a payload is rejected as corrupt. */
  lemma TruncatedPayloadRejected(v: Val, n: nat)
    requires Binary.Conforms(STATE, v) && n < |Binary.Encode(STATE, v)|
    ensures ReadPayload(Binary.Encode(STATE, v)[..n]).Failed?
  {
    hide Binary.Encode, Binary.Decode, Binary.Conforms;
    Binary.PrefixRefused(STATE, v, n);
  }

  /** Nothing of the queue is there when rebuilding starts. */
  lemma RebuildStarts(cur: State, v: Val, d: Doubles, now: Time)
    ensures Rebuilding(Loaded(cur, v, d, now).requests, Loaded(cur, v, d, now), {}, now)
  {
    hide RestoreRequests, RestoreWorkers;
    var s := Loaded(cur, v, d, now);
    forall c ensures Bucket(s.cfg, s.requests, {}, c) == {} {}
    forall t ensures TenantShare(s.requests, {}, t) == {} && TenantAt(s.ledger, t).queued == 0 {
      TenantsReset(ListAt(v, 18), t);
    }
  }

  lemma TenantsReset(vs: seq<Val>, t: Id)
    ensures t in RestoreTenants(vs) ==> RestoreTenants(vs)[t].queued == 0
  {
    var ps := seq(|vs|, i requires 0 <= i < |vs| => (NumAt(vs[i], 0), RestoreTenant(vs[i])));
    assert forall i :: 0 <= i < |ps| ==> ps[i].1.queued == 0;
    InsertedZero(ps, t);
  }

  lemma {:induction false} InsertedZero(ps: seq<(Id, Tenant)>, t: Id)
    requires forall i :: 0 <= i < |ps| ==> ps[i].1.queued == 0
    ensures t in InsertAll(ps) ==> InsertAll(ps)[t].queued == 0
    decreases |ps|
  {
    if ps != [] { InsertedZero(ps[..|ps| - 1], t); }
  }

  /** Whatever payload was read and in whatever order the requests are queued again: the queued set, its size and
      the compatibility index are those of the requests in state Queued, every one of them has exactly one heap
      entry, and the tenants' counts are a recount. */
  lemma RecoveredQueue(cur: State, v: Val, d: Doubles, now: Time, order: seq<Id>)
    requires Enumerates(order, WaitingIds(Loaded(cur, v, d, now).requests))
    requires forall id :: id in Loaded(cur, v, d, now).requests ==>
               Spent(cur.cfg, cur.issued, Loaded(cur, v, d, now).requests[id].generation)
    ensures var s := EnqueueAll(Loaded(cur, v, d, now), order, now);
            && IndexAgrees(s.cfg, s.requests, s.index)
            && HeapsAgree(s.requests, s.index.queued, s.fair, cur.cfg, cur.issued)
            && (forall t :: TenantAt(s.ledger, t).queued == |QueuedOf(s.requests, t)|)
            && Rebuilding(Loaded(cur, v, d, now).requests, s, WaitingIds(Loaded(cur, v, d, now).requests), now)
  {
    hide Loaded, Rebuilding, EnqueueAll, IndexAgrees, HeapsAgree, QueuedOf;
    var s0 := Loaded(cur, v, d, now);
    var rs := s0.requests;
    RebuildStarts(cur, v, d, now);
    forall i | 0 <= i < |order| ensures order[i] in rs { assert order[i] in order; }
    RebuildAll(rs, s0, {}, order, now);
    var s, done := EnqueueAll(s0, order, now), {} + (set x | x in order);
    assert done == WaitingIds(rs);
    RebuiltIndex(rs, s, done, now);
    RebuiltHeaps(rs, s, done, now, cur.cfg, cur.issued);
    RebuiltCounts(rs, s, done, now);
  }

  lemma RebuiltIds(rs: map<Id, Request>, s: State, now: Time, id: Id)
    requires Rebuilding(rs, s, WaitingIds(rs), now)
    ensures id in QueuedIds(s.requests) <==> id in WaitingIds(rs)
    ensures id in rs ==> s.requests[id].spec == rs[id].spec
  {
    hide Indexed, Stored, Counted;
  }

  lemma RebuiltIndex(rs: map<Id, Request>, s: State, done: set<Id>, now: Time)
    requires Rebuilding(rs, s, done, now) && done == WaitingIds(rs)
    ensures IndexAgrees(s.cfg, s.requests, s.index)
  {
    hide Stored, Counted, CompatKeyOf;
    forall id ensures id in QueuedIds(s.requests) <==> id in done { RebuiltIds(rs, s, now, id); }
    forall c ensures BucketAt(s.index, c) == CompatibleIds(s.cfg, s.requests, c) {
      assert BucketAt(s.index, c) == Bucket(s.cfg, rs, done, c);
      forall id ensures id in Bucket(s.cfg, rs, done, c) <==> id in CompatibleIds(s.cfg, s.requests, c) {
        RebuiltIds(rs, s, now, id);
      }
    }
  }

  lemma RebuiltHeaps(rs: map<Id, Request>, s: State, done: set<Id>, now: Time, cfg: Config, issued: nat)
    requires Rebuilding(rs, s, done, now) && done == WaitingIds(rs)
    requires forall id :: id in rs ==> Spent(cfg, issued, rs[id].generation)
    ensures HeapsAgree(s.requests, s.index.queued, s.fair, cfg, issued)
  {
    hide Counted, Bucket;
    forall id | id in s.index.queued ensures HasOneEntry(s.requests, s.fair, id) {
      var k, e := FlowKeyOf(rs[id].spec), EntryOf(id, rs[id].(queuedAt := now));
      assert HeapAt(s.fair, k)[e] == if IsEntry(rs, done, now, k, e) then 1 else 0;
    }
    forall k, e | e in HeapAt(s.fair, k) ensures EntryOk(s.requests, s.index.queued, k, e, cfg, issued) {
      assert HeapAt(s.fair, k)[e] == if IsEntry(rs, done, now, k, e) then 1 else 0;
    }
  }

  lemma RebuiltCounts(rs: map<Id, Request>, s: State, done: set<Id>, now: Time)
    requires Rebuilding(rs, s, done, now) && done == WaitingIds(rs)
    ensures forall t :: TenantAt(s.ledger, t).queued == |QueuedOf(s.requests, t)|
  {
    hide Indexed, Stored;
    forall t ensures TenantAt(s.ledger, t).queued == |QueuedOf(s.requests, t)| {
      forall id ensures id in TenantShare(rs, done, t) <==> id in QueuedOf(s.requests, t) {
        RebuiltIds(rs, s, now, id);
      }
      assert TenantShare(rs, done, t) == QueuedOf(s.requests, t);
    }
  }

  lemma {:induction false} EnqueueAllFrame(s: State, order: seq<Id>, now: Time)
    ensures var s1 := EnqueueAll(s, order, now);
            && s1.fleet == s.fleet && s1.cfg == s.cfg && s1.issued == s.issued && s1.epoch == s.epoch
            && s1.tokens == s.tokens && s1.draining == s.draining
            && s1.ledger.admitted == s.ledger.admitted
            && forall t :: TenantAt(s1.ledger, t).admitted == TenantAt(s.ledger, t).admitted
    decreases |order|
  {
    hide KeyWeight;
    if order != [] { EnqueueAllFrame(if order[0] in s.requests then EnqueueRequest(s, order[0], now)
        else s, order[1..], now); }
  }

  /** Recovered workers hold nothing, but the global totals are taken from the payload: the books are right exactly
      when nothing was reserved or running at the time of the save. */
  lemma RecoveredUnitsExact(cur: State, v: Val, d: Doubles, now: Time, order: seq<Id>)
    ensures Conserved(EnqueueAll(Loaded(cur, v, d, now), order, now).fleet) <==>
            Signed64(NumAt(v, 5)) == 0 && Signed64(NumAt(v, 6)) == 0
  {
    hide EnqueueAll, RestoreRequests, RestoreTenants;
    EnqueueAllFrame(Loaded(cur, v, d, now), order, now);
    var ws := RestoreWorkers(ListAt(v, 19));
    forall w | w in ws ensures ws[w].reserved == 0 && ws[w].running == 0 && Booked(ws[w]) {
      WorkersEmpty(ListAt(v, 19), w);
      assert UnstartedUnits(ws[w]) == map[] && StartedUnits(ws[w]) == map[];
    }
    hide RestoreWorkers;
    TotalZero(ReservedBy(ws));
    TotalZero(RunningBy(ws));
  }

  lemma WorkersEmpty(vs: seq<Val>, w: Id)
    requires w in RestoreWorkers(vs)
    ensures var r := RestoreWorkers(vs)[w];
            r.reserved == 0 && r.running == 0 && r.batchUnits == map[] && r.batchPending == map[] && r.started == {}
  {
    hide WorkerOf, NumsAt, PhasesAt, Signed32;
    var ps := seq(|vs|, i requires 0 <= i < |vs| => (NumAt(vs[i], 0), RestoreWorker(vs[i])));
    forall i | 0 <= i < |ps| ensures HoldsNothing(ps[i].1) {}
    InsertedEmpty(ps, w);
  }

  predicate HoldsNothing(r: Worker) {
    r.reserved == 0 && r.running == 0 && r.batchUnits == map[] && r.batchPending == map[] && r.started == {}
  }

  lemma {:induction false} InsertedEmpty(ps: seq<(Id, Worker)>, w: Id)
    requires forall i :: 0 <= i < |ps| ==> HoldsNothing(ps[i].1)
    ensures w in InsertAll(ps) ==> HoldsNothing(InsertAll(ps)[w])
    decreases |ps|
  {
    if ps != [] { InsertedEmpty(ps[..|ps| - 1], w); }
  }
}
