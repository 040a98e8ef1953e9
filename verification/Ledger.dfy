/** Admission accounting: how many requests are admitted globally and per
    tenant, and how many of a tenant's requests are believed to be queued. */
module Ledgers {
  import opened Types

  datatype Tenant = Tenant(admitted: int, queued: int)

  datatype Ledger = Ledger(tenants: map<Id, Tenant>, admitted: int)

  const EMPTY_LEDGER: Ledger := Ledger(map[], 0)

  /** A tenant's record, created on first use. */
  function TenantAt(l: Ledger, t: Id): Tenant {
    if t in l.tenants then l.tenants[t] else Tenant(0, 0)
  }

  function NoteQueued(l: Ledger, t: Id): Ledger {
    var r := TenantAt(l, t);
    l.(tenants := l.tenants[t := r.(queued := r.queued + 1)])
  }

  /** Dequeuing decrements the tenant's count whenever it is positive, whether or
      not the request was queued. */
  function NoteDequeued(l: Ledger, t: Id): Ledger {
    if t in l.tenants && l.tenants[t].queued > 0
    then l.(tenants := l.tenants[t := l.tenants[t].(queued := l.tenants[t].queued - 1)])
    else l
  }

  function NoteAdmitted(l: Ledger, t: Id): Ledger {
    var r := TenantAt(l, t);
    Ledger(l.tenants[t := r.(admitted := r.admitted + 1)], l.admitted + 1)
  }

  /** A request became terminal. Both counters are guarded against going negative. */
  function NoteRetired(l: Ledger, t: Id): Ledger {
    var r := TenantAt(l, t);
    Ledger(l.tenants[t := if r.admitted > 0 then r.(admitted := r.admitted - 1) else r],
           if l.admitted > 0 then l.admitted - 1 else l.admitted)
  }

  // ----- what the counters should say -----

  ghost function OpenIds(rs: map<Id, Request>): set<Id> {
    set id | id in rs && !IsTerminal(rs[id].state)
  }

  ghost function OpenOf(rs: map<Id, Request>, t: Id): set<Id> {
    set id | id in rs && !IsTerminal(rs[id].state) && rs[id].spec.tenant == t
  }

  ghost function QueuedOf(rs: map<Id, Request>, t: Id): set<Id> {
    set id | id in rs && rs[id].state == RequestState.Queued && rs[id].spec.tenant == t
  }

  /** The admitted counters count exactly the requests that are not terminal. */
  ghost predicate AdmittedExact(rs: map<Id, Request>, l: Ledger) {
    && l.admitted == |OpenIds(rs)|
    && forall t :: TenantAt(l, t).admitted == |OpenOf(rs, t)|
  }

  // ----- effect of one record change on the true counts -----

  lemma OpenJoins(rs: map<Id, Request>, id: Id, rec: Request, t: Id)
    requires id !in rs && !IsTerminal(rec.state)
    ensures |OpenIds(rs[id := rec])| == |OpenIds(rs)| + 1
    ensures |OpenOf(rs[id := rec], t)| == |OpenOf(rs, t)| + (if rec.spec.tenant == t then 1 else 0)
  {
    hide IsTerminal;
    assert OpenIds(rs[id := rec]) == OpenIds(rs) + {id};
    OpenOfJoins(rs, id, rec, t);
  }

  lemma OpenOfJoins(rs: map<Id, Request>, id: Id, rec: Request, t: Id)
    requires id !in rs && !IsTerminal(rec.state)
    ensures |OpenOf(rs[id := rec], t)| == |OpenOf(rs, t)| + (if rec.spec.tenant == t then 1 else 0)
  {
    hide IsTerminal;
    if rec.spec.tenant == t {
      assert OpenOf(rs[id := rec], t) == OpenOf(rs, t) + {id};
    } else {
      assert OpenOf(rs[id := rec], t) == OpenOf(rs, t);
    }
  }

  lemma OpenLeaves(rs: map<Id, Request>, id: Id, rec: Request, t: Id)
    requires id in rs && !IsTerminal(rs[id].state) && IsTerminal(rec.state) && rec.spec == rs[id].spec
    ensures |OpenIds(rs[id := rec])| == |OpenIds(rs)| - 1
    ensures |OpenOf(rs[id := rec], t)| == |OpenOf(rs, t)| - (if rec.spec.tenant == t then 1 else 0)
  {
    hide IsTerminal;
    assert OpenIds(rs[id := rec]) == OpenIds(rs) - {id};
    if rec.spec.tenant == t {
      assert OpenOf(rs[id := rec], t) == OpenOf(rs, t) - {id};
    } else {
      assert OpenOf(rs[id := rec], t) == OpenOf(rs, t);
    }
  }

  lemma OpenStays(rs: map<Id, Request>, id: Id, rec: Request, t: Id)
    requires if id in rs then IsTerminal(rs[id].state) == IsTerminal(rec.state) && rec.spec == rs[id].spec
             else IsTerminal(rec.state)
    ensures OpenIds(rs[id := rec]) == OpenIds(rs) && OpenOf(rs[id := rec], t) == OpenOf(rs, t)
  {
    hide IsTerminal;
  }

  lemma QueuedJoins(rs: map<Id, Request>, id: Id, rec: Request, t: Id)
    requires id in rs ==> rs[id].state != RequestState.Queued
    requires rec.state == RequestState.Queued
    ensures |QueuedOf(rs[id := rec], t)| == |QueuedOf(rs, t)| + (if rec.spec.tenant == t then 1 else 0)
  {
    assert QueuedOf(rs[id := rec], t) == if rec.spec.tenant == t then QueuedOf(rs, t) + {id} else QueuedOf(rs, t);
  }

  lemma QueuedLeaves(rs: map<Id, Request>, id: Id, rec: Request, t: Id)
    requires id in rs && rs[id].state == RequestState.Queued && rec.state != RequestState.Queued
    ensures |QueuedOf(rs[id := rec], t)| == |QueuedOf(rs, t)| - (if rs[id].spec.tenant == t then 1 else 0)
  {
    assert QueuedOf(rs[id := rec], t) == if rs[id].spec.tenant == t then QueuedOf(rs, t) - {id} else QueuedOf(rs, t);
  }

  lemma QueuedStays(rs: map<Id, Request>, id: Id, rec: Request, t: Id)
    requires id in rs ==> rs[id].state != RequestState.Queued
    requires rec.state != RequestState.Queued
    ensures QueuedOf(rs[id := rec], t) == QueuedOf(rs, t)
  {
  }

  // ----- the counters follow -----

  lemma AdmitKeepsExact(rs: map<Id, Request>, l: Ledger, id: Id, rec: Request)
    requires AdmittedExact(rs, l) && id !in rs && !IsTerminal(rec.state)
    ensures AdmittedExact(rs[id := rec], NoteAdmitted(l, rec.spec.tenant))
  {
    forall t ensures TenantAt(NoteAdmitted(l, rec.spec.tenant), t).admitted == |OpenOf(rs[id := rec], t)| {
      OpenJoins(rs, id, rec, t);
    }
    OpenJoins(rs, id, rec, rec.spec.tenant);
  }

  /** Retiring an open request decrements both counters; neither guard is ever needed. */
  lemma RetireKeepsExact(rs: map<Id, Request>, l: Ledger, id: Id, rec: Request)
    requires AdmittedExact(rs, l) && id in rs && !IsTerminal(rs[id].state)
    requires IsTerminal(rec.state) && rec.spec == rs[id].spec
    ensures AdmittedExact(rs[id := rec], NoteRetired(l, rec.spec.tenant))
    ensures l.admitted > 0 && TenantAt(l, rec.spec.tenant).admitted > 0
  {
    assert id in OpenIds(rs) && id in OpenOf(rs, rec.spec.tenant);
    forall t ensures TenantAt(NoteRetired(l, rec.spec.tenant), t).admitted == |OpenOf(rs[id := rec], t)| {
      OpenLeaves(rs, id, rec, t);
    }
    OpenLeaves(rs, id, rec, rec.spec.tenant);
  }
}
