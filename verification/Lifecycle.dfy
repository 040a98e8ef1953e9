/** What a single request can go through in a run: attempts, states, finality. */
module Lifecycle {
  import opened Types
  import opened Collections
  import opened ReadyQueue
  import opened Fleets
  import opened Batching
  import opened Machine

  // ----- well-formed records -----

  function AttemptCap(cfg: Config): int { Max(1, cfg.maxAttempts) }

  /** Attempt identifiers are different and never issued again, at most AttemptCap of them are
      used, and every attempt but the last has failed. */
  ghost predicate HistoryOk(cfg: Config, issued: nat, rec: Request) {
    && 1 <= |rec.history| <= AttemptCap(cfg)
    && rec.history[|rec.history| - 1].id == rec.attempt
    && rec.history[|rec.history| - 1].generation == rec.generation
    && (forall i :: 0 <= i < |rec.history| ==> Spent(cfg, issued, rec.history[i].id))
    && (forall i, j :: 0 <= i < j < |rec.history| ==> rec.history[i].id != rec.history[j].id)
    && (forall i :: 0 <= i < |rec.history| - 1 ==> rec.history[i].state == AttemptFailed)
  }

  ghost predicate RecordOk(cfg: Config, issued: nat, rec: Request) {
    && rec.spec.Valid()
    && rec.state in {RequestState.Queued, RequestState.Reserved, RequestState.Running, RequestState.Completed,
                     RequestState.Rejected, RequestState.Cancelled, RequestState.Expired, RequestState.Failed}
    && Spent(cfg, issued, rec.generation)
    && (if rec.state == RequestState.Rejected then rec.history == [] else HistoryOk(cfg, issued, rec))
    && (rec.cancelCommitted <==> rec.state == RequestState.Cancelled)
    && (rec.cancelRequested ==> rec.state == RequestState.Running || IsTerminal(rec.state))
    && (rec.batch.Some? ==> rec.state != RequestState.Queued)
    && (rec.state == RequestState.Queued && rec.spec.deadline.Some? ==> rec.queuedAt <= rec.spec.deadline.value)
    && (rec.state == RequestState.Queued || rec.state == RequestState.Reserved ==> LastWorker(rec.history) == NO_ID)
  }

  ghost predicate RecordsOk(s: State) {
    forall id :: id in s.requests ==> RecordOk(s.cfg, s.issued, s.requests[id])
  }

  // ----- the order in which a record develops -----

  /** Upper bound on the number of state changes still ahead. */
  function Rank(cfg: Config, rec: Request): int {
    if IsTerminal(rec.state) then 0
    else 3 * (AttemptCap(cfg) - |rec.history|) +
         (if rec.state == RequestState.Queued then 3 else if rec.state == RequestState.Reserved then 2 else 1)
  }

  /** b is a possible later version of record a. */
  ghost predicate Evolves(cfg: Config, a: Request, b: Request) {
    && b.spec == a.spec
    && (IsTerminal(a.state) ==> b == a)
    && Rank(cfg, b) <= Rank(cfg, a)
    && (b.state != a.state || b.attempt != a.attempt ==> Rank(cfg, b) < Rank(cfg, a))
    && |a.history| <= |b.history|
    && (|a.history| == |b.history| ==> b.attempt == a.attempt && b.generation == a.generation)
    && (forall i :: 0 <= i < |a.history| ==>
          b.history[i].id == a.history[i].id && b.history[i].generation == a.history[i].generation)
    && (a.cancelRequested ==> b.cancelRequested && b.attempt == a.attempt && |b.history| == |a.history| &&
                              (b.state == RequestState.Completed ==> a.state == RequestState.Completed))
  }

  lemma EvolvesTrans(cfg: Config, a: Request, b: Request, c: Request)
    requires Evolves(cfg, a, b) && Evolves(cfg, b, c)
    ensures Evolves(cfg, a, c)
  {
  }

  /** The attempts of rec from the n-th on were named between lo and hi. */
  ghost predicate NewlyNamed(cfg: Config, lo: nat, hi: nat, n: nat, rec: Request) {
    forall i :: n <= i < |rec.history| ==>
      Issued(cfg, lo, hi, rec.history[i].id) && Issued(cfg, lo, hi, rec.history[i].generation)
  }

  /** What was added to request id from s to s1 was named in between. */
  ghost predicate Named(s: State, s1: State, id: Id)
    requires id in s1.requests
  {
    if id in s.requests then NewlyNamed(s.cfg, s.issued, s1.issued, |s.requests[id].history|, s1.requests[id])
    else
      && NewlyNamed(s.cfg, s.issued, s1.issued, 0, s1.requests[id])
      && (s1.requests[id].history == [] ==> Issued(s.cfg, s.issued, s1.issued, s1.requests[id].generation))
  }

  /** s1 may follow s as far as the requests are concerned. */
  ghost predicate Progress(s: State, s1: State) {
    && s1.cfg == s.cfg && s.issued <= s1.issued
    && s.requests.Keys <= s1.requests.Keys
    && RecordsOk(s1)
    && (forall id :: id in s.requests ==> Evolves(s.cfg, s.requests[id], s1.requests[id]))
    && (forall id :: id in s1.requests ==> Named(s, s1, id))
  }

  lemma NewlyNamedTrans(cfg: Config, lo: nat, mid: nat, hi: nat, n: nat, b: Request, c: Request)
    requires lo <= mid <= hi && NewlyNamed(cfg, lo, mid, n, b) && NewlyNamed(cfg, mid, hi, |b.history|, c)
        && Evolves(cfg, b, c)
    ensures NewlyNamed(cfg, lo, hi, n, c)
  {
    forall i | n <= i < |c.history|
      ensures Issued(cfg, lo, hi, c.history[i].id) && Issued(cfg, lo, hi, c.history[i].generation)
    {
      if i < |b.history| {
        IssuedWithin(cfg, lo, mid, b.history[i].id, lo, hi);
        IssuedWithin(cfg, lo, mid, b.history[i].generation, lo, hi);
      } else {
        IssuedWithin(cfg, mid, hi, c.history[i].id, lo, hi);
        IssuedWithin(cfg, mid, hi, c.history[i].generation, lo, hi);
      }
    }
  }

  lemma NewlyNamedLater(cfg: Config, lo: nat, hi: nat, n: nat, rec: Request, lo1: nat, hi1: nat)
    requires NewlyNamed(cfg, lo, hi, n, rec) && lo1 <= lo && hi <= hi1
    ensures NewlyNamed(cfg, lo1, hi1, n, rec)
  {
    forall i | n <= i < |rec.history|
      ensures Issued(cfg, lo1, hi1, rec.history[i].id) && Issued(cfg, lo1, hi1, rec.history[i].generation)
    {
      IssuedWithin(cfg, lo, hi, rec.history[i].id, lo1, hi1);
      IssuedWithin(cfg, lo, hi, rec.history[i].generation, lo1, hi1);
    }
  }

  lemma NamedTrans(s: State, s1: State, s2: State, id: Id)
    requires Progress(s, s1) && Progress(s1, s2) && id in s2.requests
    ensures Named(s, s2, id)
  {
    assert Named(s1, s2, id);
    if id in s1.requests {
      assert Named(s, s1, id) && Evolves(s.cfg, s1.requests[id], s2.requests[id]);
      var n := if id in s.requests then |s.requests[id].history| else 0;
      NewlyNamedTrans(s.cfg, s.issued, s1.issued, s2.issued, n, s1.requests[id], s2.requests[id]);
      if id !in s.requests && s2.requests[id].history == [] {
        IssuedWithin(s.cfg, s.issued, s1.issued, s2.requests[id].generation, s.issued, s2.issued);
      }
    } else {
      NewlyNamedLater(s.cfg, s1.issued, s2.issued, 0, s2.requests[id], s.issued, s2.issued);
      if s2.requests[id].history == [] {
        IssuedWithin(s.cfg, s1.issued, s2.issued, s2.requests[id].generation, s.issued, s2.issued);
      }
    }
  }

  lemma ProgressTrans(s: State, s1: State, s2: State)
    requires Progress(s, s1) && Progress(s1, s2)
    ensures Progress(s, s2)
  {
    forall id | id in s2.requests ensures Named(s, s2, id) { NamedTrans(s, s1, s2, id); }
    hide Named, RecordsOk;
    forall id | id in s.requests ensures Evolves(s.cfg, s.requests[id], s2.requests[id]) {
      EvolvesTrans(s.cfg, s.requests[id], s1.requests[id], s2.requests[id]);
    }
  }

  lemma RecordOkLater(cfg: Config, issued: nat, later: nat, rec: Request)
    requires RecordOk(cfg, issued, rec) && issued <= later
    ensures RecordOk(cfg, later, rec)
  {
  }

  /** One record changed in a legal way. */
  lemma OneChange(s: State, s1: State, id: Id, rec: Request)
    requires RecordsOk(s) && s1.cfg == s.cfg && s.issued <= s1.issued && id in s.requests
    requires s1.requests == s.requests[id := rec]
    requires RecordOk(s.cfg, s1.issued, rec) && Evolves(s.cfg, s.requests[id], rec)
    requires NewlyNamed(s.cfg, s.issued, s1.issued, |s.requests[id].history|, rec)
    ensures Progress(s, s1)
  {
    forall i | i in s1.requests ensures RecordOk(s1.cfg, s1.issued, s1.requests[i]) {
      if i != id { RecordOkLater(s.cfg, s.issued, s1.issued, s.requests[i]); }
    }
  }

  lemma SameRequests(s: State, s1: State)
    requires RecordsOk(s) && s1.cfg == s.cfg && s.issued <= s1.issued && s1.requests == s.requests
    ensures Progress(s, s1)
  {
    forall i | i in s1.requests ensures RecordOk(s1.cfg, s1.issued, s1.requests[i]) {
      RecordOkLater(s.cfg, s.issued, s1.issued, s.requests[i]);
    }
  }

  /** Changing the state of the last attempt, and possibly its worker, keeps the history in order. */
  lemma SameShape(cfg: Config, issued: nat, rec: Request, h: seq<Attempt>)
    requires HistoryOk(cfg, issued, rec) && |h| == |rec.history|
    requires forall i :: 0 <= i < |h| - 1 ==> h[i] == rec.history[i]
    requires h[|h| - 1].id == rec.attempt && h[|h| - 1].generation == rec.generation
    ensures HistoryOk(cfg, issued, rec.(history := h))
  {
  }

  // ----- every operation -----

  lemma ExpireProgress(s: State, id: Id)
    requires RecordsOk(s) && id in s.requests
    ensures Progress(s, Expire(s, id))
  {
    hide Progress, Spent, Remove;
    var rec := s.requests[id];
    if rec.state == RequestState.Queued {
      SameShape(s.cfg, s.issued, rec, WithLast(rec.history, AttemptExpired));
      OneChange(s, Expire(s, id), id, rec.(state := RequestState.Expired,
          history := WithLast(rec.history, AttemptExpired)));
    } else {
      SameRequests(s, s);
    }
  }

  lemma {:induction false} ExpireAllProgress(s: State, order: seq<Id>)
    requires RecordsOk(s)
    ensures Progress(s, ExpireAll(s, order))
    decreases |order|
  {
    if order == [] {
      SameRequests(s, s);
    } else {
      var s1 := if order[0] in s.requests then Expire(s, order[0]) else s;
      if order[0] in s.requests { ExpireProgress(s, order[0]); } else { SameRequests(s, s); }
      ExpireAllProgress(s1, order[1..]);
      ProgressTrans(s, s1, ExpireAll(s1, order[1..]));
    }
  }

  lemma ReserveOneProgress(s: State, id: Id, b: Id)
    requires RecordsOk(s) && id in s.requests && s.requests[id].state == RequestState.Queued
    ensures Progress(s, ReserveOne(s, id, b))
  {
    var rec := s.requests[id];
    SameShape(s.cfg, s.issued, rec, WithLast(rec.history, AttemptReserved));
    OneChange(s, ReserveOne(s, id, b), id, ReserveOne(s, id, b).requests[id]);
  }

  lemma {:induction false} ReserveAllProgress(s: State, members: seq<Id>, b: Id)
    requires RecordsOk(s) && Distinct(members)
    requires forall i :: 0 <= i < |members| ==>
        members[i] in s.requests && s.requests[members[i]].state == RequestState.Queued
    ensures Progress(s, ReserveAll(s, members, b))
    decreases |members|
  {
    if members == [] {
      SameRequests(s, s);
    } else {
      var s1 := ReserveOne(s, members[0], b);
      ReserveOneProgress(s, members[0], b);
      ReserveAllProgress(s1, members[1..], b);
      ProgressTrans(s, s1, ReserveAll(s1, members[1..], b));
    }
  }

  lemma FinishProgress(s: State, id: Id, w: Id, st: RequestState, a: AttemptState)
    requires RecordsOk(s) && id in s.requests && !IsTerminal(s.requests[id].state)
    requires st in {RequestState.Completed, RequestState.Expired, RequestState.Failed}
    requires st == RequestState.Completed ==> !s.requests[id].cancelRequested
    ensures Progress(s, Finish(s, id, w, st, a))
  {
    hide Progress, Spent, Remove, ReleaseMember;
    var rec := s.requests[id];
    SameShape(s.cfg, s.issued, rec, WithLast(rec.history, a));
    OneChange(s, Finish(s, id, w, st, a), id, Finish(s, id, w, st, a).requests[id]);
  }

  lemma FinishCancelledProgress(s: State, id: Id, w: Id)
    requires RecordsOk(s) && id in s.requests
    ensures Progress(s, FinishCancelled(s, id, w))
  {
    hide Progress, Spent, Remove, ReleaseMember;
    var rec := s.requests[id];
    if IsTerminal(rec.state) {
      SameRequests(s, s);
    } else {
      SameShape(s.cfg, s.issued, rec, WithLast(rec.history, AttemptCancelled));
      OneChange(s, FinishCancelled(s, id, w), id, FinishCancelled(s, id, w).requests[id]);
    }
  }

  lemma {:induction false} CancelAllProgress(s: State, order: seq<Id>)
    requires RecordsOk(s)
    ensures Progress(s, CancelAll(s, order))
    decreases |order|
  {
    if order == [] {
      SameRequests(s, s);
    } else {
      var s1 := if order[0] in s.requests then FinishCancelled(s, order[0], NO_ID) else s;
      if order[0] in s.requests { FinishCancelledProgress(s, order[0], NO_ID); } else { SameRequests(s, s); }
      CancelAllProgress(s1, order[1..]);
      ProgressTrans(s, s1, CancelAll(s1, order[1..]));
    }
  }

  lemma RetriedRecordOk(cfg: Config, issued: nat, rec: Request, now: Time)
    requires RecordOk(cfg, issued, rec) && !IsTerminal(rec.state)
    requires |rec.history| < cfg.maxAttempts && !rec.cancelRequested && !rec.spec.Overdue(now)
    ensures var rec1 := RetriedRecord(rec, IdAt(cfg, issued + 1), IdAt(cfg, issued + 2)).(state := RequestState.Queued,
        queuedAt := now);
            RecordOk(cfg, issued + 2, rec1) && Evolves(cfg, rec, rec1)
                && NewlyNamed(cfg, issued, issued + 2, |rec.history|, rec1)
  {
    SameShape(cfg, issued, rec, WithLast(rec.history, AttemptFailed));
    NextIsIssued(cfg, issued, 1, 2);
    NextIsIssued(cfg, issued, 2, 2);
    assert Spent(cfg, issued, rec.attempt) by { assert rec.attempt == rec.history[|rec.history| - 1].id; }
  }

  /** The n-th identifier from here on, as seen after k of them. */
  lemma NextIsIssued(cfg: Config, issued: nat, n: nat, k: nat)
    requires 1 <= n <= k
    ensures Issued(cfg, issued, issued + k, IdAt(cfg, issued + n)) && Spent(cfg, issued + k, IdAt(cfg, issued + n))
    ensures !Spent(cfg, issued, IdAt(cfg, issued + n))
  {
    IssuedIsSpent(cfg, issued, issued + k, IdAt(cfg, issued + n));
  }

  lemma MakeRetryProgress(s: State, id: Id, w: Id, now: Time)
    requires RecordsOk(s) && id in s.requests && !IsTerminal(s.requests[id].state) && CanRetry(s, s.requests[id], now)
    ensures Progress(s, MakeRetry(s, id, w, now))
  {
    RetriedRecordOk(s.cfg, s.issued, s.requests[id], now);
    RetryShape(s, id, w, now);
    hide MakeRetry, RecordOk, Evolves, NewlyNamed, ReleaseMember;
    OneChange(s, MakeRetry(s, id, w, now), id, MakeRetry(s, id, w, now).requests[id]);
  }

  lemma {:induction false} RecoverProgress(s: State, w: Id, order: seq<Id>, now: Time)
    requires RecordsOk(s)
    ensures Progress(s, RecoverRequests(s, w, order, now))
    decreases |order|
  {
    if order == [] {
      SameRequests(s, s);
    } else {
      var s1 := RecoverOne(s, w, order[0], now);
      if order[0] !in s.requests || IsTerminal(s.requests[order[0]].state) {
        SameRequests(s, s);
      } else if CanRetry(s, s.requests[order[0]], now) {
        MakeRetryProgress(s, order[0], w, now);
      } else {
        FinishProgress(s, order[0], w, RequestState.Failed, AttemptFailed);
      }
      RecoverProgress(s1, w, order[1..], now);
      ProgressTrans(s, s1, RecoverRequests(s1, w, order[1..], now));
    }
  }

  lemma ConfirmProgress(s: State, r: Report)
    requires RecordsOk(s)
    ensures Progress(s, Confirm(s, r))
  {
    if ConfirmAnswer(s, r) == Confirmed {
      var rec := s.requests[r.request];
      SameShape(s.cfg, s.issued, rec, WithWorker(rec.history, r.worker));
      OneChange(s, Confirm(s, r), r.request, Confirm(s, r).requests[r.request]);
    } else {
      SameRequests(s, s);
    }
  }

  lemma StaleProgress(s: State, r: Report, now: Time)
    requires RecordsOk(s) && Screen(s, r).None? && r.status == Stale
    ensures Progress(s, Complete(s, r, now))
  {
    hide Progress, Spent, ReleaseMember, Finish, FinishCancelled, MakeRetry, CanRetry;
    var rec := s.requests[r.request];
    SameShape(s.cfg, s.issued, rec, WithLast(rec.history, AttemptStale));
    OneChange(s, Complete(s, r, now), r.request, Complete(s, r, now).requests[r.request]);
  }

  lemma CompleteProgress(s: State, r: Report, now: Time)
    requires RecordsOk(s)
    ensures Progress(s, Complete(s, r, now))
  {
    hide RecordsOk, Progress, ReleaseMember, FinishCancelled, Finish, MakeRetry, CanRetry;
    if Screen(s, r).Some? {
      SameRequests(s, s);
    } else if r.status == Stale {
      StaleProgress(s, r, now);
    } else if r.status == CancelledStatus || (r.status == Succeeded && s.requests[r.request].cancelRequested) {
      FinishCancelledProgress(s, r.request, r.worker);
    } else if r.status == Succeeded {
      FinishProgress(s, r.request, r.worker, RequestState.Completed, AttemptSucceeded);
    } else if r.status == ExpiredStatus {
      FinishProgress(s, r.request, r.worker, RequestState.Expired, AttemptExpired);
    } else if Retryable(s.cfg, r.failure) && CanRetry(s, s.requests[r.request], now) {
      MakeRetryProgress(s, r.request, r.worker, now);
    } else {
      FinishProgress(s, r.request, r.worker, RequestState.Failed, AttemptFailed);
    }
  }

  lemma CancelProgress(s: State, id: Id)
    requires RecordsOk(s)
    ensures Progress(s, Cancel(s, id))
  {
    if CancelAnswer(s, id) != CancelAccepted {
      SameRequests(s, s);
    } else if s.requests[id].state == RequestState.Running {
      OneChange(s, Cancel(s, id), id, Cancel(s, id).requests[id]);
    } else if s.requests[id].state == RequestState.Reserved {
      FinishCancelledProgress(s, id, LastWorker(s.requests[id].history));
    } else {
      FinishCancelledProgress(s, id, NO_ID);
    }
  }

  /** The identifier a submission stores its record under is not in use. */
  predicate FreshId(s: State, e: Event) {
    e.SubmitEvent? && e.spec.Valid() && Admission(s, e.spec, e.now).0 != Defer ==>
      RequestIdFor(s, e.pre) !in s.requests
  }

  lemma OneInsert(s: State, s1: State, id: Id, rec: Request)
    requires RecordsOk(s) && s1.cfg == s.cfg && s.issued <= s1.issued && id !in s.requests
    requires s1.requests == s.requests[id := rec] && RecordOk(s.cfg, s1.issued, rec)
    requires NewlyNamed(s.cfg, s.issued, s1.issued, 0, rec) && Issued(s.cfg, s.issued, s1.issued, rec.generation)
    ensures Progress(s, s1)
  {
    forall i | i in s1.requests ensures RecordOk(s1.cfg, s1.issued, s1.requests[i]) {
      if i != id { RecordOkLater(s.cfg, s.issued, s1.issued, s.requests[i]); }
    }
  }

  lemma RejectedOk(s: State, spec: Spec, n: nat, now: Time)
    requires spec.Valid()
    ensures var rec := RejectedRecord(spec, Fresh(s, n + 1), now);
            && RecordOk(s.cfg, s.issued + n + 1, rec) && NewlyNamed(s.cfg, s.issued, s.issued + n + 1, 0, rec)
            && Issued(s.cfg, s.issued, s.issued + n + 1, rec.generation)
  {
    NextIsIssued(s.cfg, s.issued, n + 1, n + 1);
  }

  lemma AdmittedOk(s: State, spec: Spec, n: nat, now: Time)
    requires spec.Valid() && !spec.Overdue(now)
    ensures var rec := FirstRecord(spec, Fresh(s, n + 2), Fresh(s, n + 1), now);
            && RecordOk(s.cfg, s.issued + n + 2, rec) && NewlyNamed(s.cfg, s.issued, s.issued + n + 2, 0, rec)
            && Issued(s.cfg, s.issued, s.issued + n + 2, rec.generation)
  {
    NextIsIssued(s.cfg, s.issued, n + 1, n + 2);
    NextIsIssued(s.cfg, s.issued, n + 2, n + 2);
  }

  lemma SubmitProgress(s: State, spec: Spec, pre: Option<Id>, now: Time)
    requires RecordsOk(s) && FreshId(s, SubmitEvent(spec, pre, now))
    ensures Progress(s, Submit(s, spec, pre, now))
  {
    hide RecordsOk, RecordOk, NewlyNamed, Issued, KeyWeight, IdAt;
    var s1 := Submit(s, spec, pre, now);
    var id, n := RequestIdFor(s, pre), IdsTaken(pre);
    if !spec.Valid() || Admission(s, spec, now).0 == Defer {
      SameRequests(s, s1);
    } else if Admission(s, spec, now).0 == Reject {
      RejectedOk(s, spec, n, now);
      OneInsert(s, s1, id, RejectedRecord(spec, Fresh(s, n + 1), now));
    } else {
      AdmittedOk(s, spec, n, now);
      OneInsert(s, s1, id, FirstRecord(spec, Fresh(s, n + 2), Fresh(s, n + 1), now));
    }
  }

  lemma PlanProgress(s: State, request: Id, now: Time, order: seq<Id>, out: PlanResult, s1: State)
    requires RecordsOk(s) && Plan(s, request, now, order, out, s1)
    ensures Progress(s, s1)
  {
    var s0 := ExpireAll(s, order);
    ExpireAllProgress(s, order);
    SameRequests(s0, s0);
    if request in s0.requests && s0.requests[request].spec.Overdue(now) {
      ExpireProgress(s0, request);
    } else if out.Dispatch? {
      assert s0.requests[request].state == RequestState.Queued by
          { assert RecordOk(s0.cfg, s0.issued, s0.requests[request]); }
      var members, w :| PlanBatch(s0, request, now, members, w, out, s1);
      MembersQueued(s0, request, now, members);
      ReserveProgress(s0, members, w);
    }
    ProgressTrans(s, s0, s1);
  }

  /** Every member of a batch planned for a queued request is itself queued. */
  lemma MembersQueued(s: State, request: Id, now: Time, members: seq<Id>)
    requires request in s.requests && s.requests[request].state == RequestState.Queued
    requires IsBatch(s.cfg, s.requests, s.index, request, now, members)
    ensures Distinct(members)
    ensures forall i :: 0 <= i < |members| ==>
        members[i] in s.requests && s.requests[members[i]].state == RequestState.Queued
  {
    BatchMembers(s.cfg, s.requests, s.index, request, now, members);
    forall i | 0 <= i < |members| ensures members[i] in s.requests
        && s.requests[members[i]].state == RequestState.Queued {
      if i > 0 { assert IsCandidate(s.requests, s.index.queued, request, now, members[i]); }
    }
  }

  lemma ReserveProgress(s: State, members: seq<Id>, w: Id)
    requires RecordsOk(s) && w in s.fleet.workers && Distinct(members)
    requires forall i :: 0 <= i < |members| ==>
        members[i] in s.requests && s.requests[members[i]].state == RequestState.Queued
    ensures Progress(s, Reserve(s, members, w))
  {
    var s0 := Open(s, members, w);
    SameRequests(s, s0);
    ReserveAllProgress(s0, members, Fresh(s, 1));
    ProgressTrans(s, s0, Reserve(s, members, w));
  }

  /** Every step, with fresh identifiers, moves every request forward only. */
  lemma StepProgress(s: State, e: Event, s1: State)
    requires RecordsOk(s) && Step(s, e, s1) && FreshId(s, e)
    ensures Progress(s, s1)
  {
    hide Submit, Plan, Confirm, Complete, Cancel, CancelAll, Register, Unregister, RecordsOk;
    match e
    case SubmitEvent(spec, pre, now) => SubmitProgress(s, spec, pre, now);
    case PickEvent(now, order, seed) =>
      ExpireAllProgress(s, order);
      SameRequests(ExpireAll(s, order), s1);
      ProgressTrans(s, ExpireAll(s, order), s1);
    case PlanEvent(request, now, order, out) => PlanProgress(s, request, now, order, out, s1);
    case ConfirmEvent(r) => ConfirmProgress(s, r);
    case CompleteEvent(r, now) => CompleteProgress(s, r, now);
    case CancelEvent(id) => CancelProgress(s, id);
    case CancelAllEvent(order) => CancelAllProgress(s, order);
    case RegisterEvent(reg, now, order) => RegisterProgress(s, reg, now, order);
    case UnregisterEvent(w, now, order) => UnregisterProgress(s, w, now, order);
    case _ => SameRequests(s, s1);
  }

  lemma RegisterProgress(s: State, reg: Registration, now: Time, order: seq<Id>)
    requires RecordsOk(s)
    ensures Progress(s, Register(s, reg, now, order))
  {
    RecoverProgress(s, reg.worker, order, now);
    var s1 := if IsRestart(s, reg) then RecoverRequests(s, reg.worker, order, now) else s;
    SameRequests(s, s);
    SameRequests(s1, Register(s, reg, now, order));
    ProgressTrans(s, s1, Register(s, reg, now, order));
  }

  lemma UnregisterProgress(s: State, w: Id, now: Time, order: seq<Id>)
    requires RecordsOk(s)
    ensures Progress(s, Unregister(s, w, now, order))
  {
    RecoverProgress(s, w, order, now);
    var s1 := if w in s.fleet.workers then RecoverRequests(s, w, order, now) else s;
    SameRequests(s, s);
    SameRequests(s1, Unregister(s, w, now, order));
    ProgressTrans(s, s1, Unregister(s, w, now, order));
  }

  // ----- whole runs -----

  ghost predicate FreshIds(tr: Trace)
    requires |tr.states| == |tr.events| + 1
  {
    forall i :: 0 <= i < |tr.events| ==> FreshId(tr.states[i], tr.events[i])
  }

  lemma {:induction false} RunRecordsOk(tr: Trace, i: nat)
    requires IsRun(tr) && FreshIds(tr) && i < |tr.states|
    ensures RecordsOk(tr.states[i])
  {
    if i > 0 {
      RunRecordsOk(tr, i - 1);
      StepProgress(tr.states[i - 1], tr.events[i - 1], tr.states[i]);
    }
  }

  lemma {:induction false} RunProgress(tr: Trace, i: nat, j: nat)
    requires IsRun(tr) && FreshIds(tr) && i <= j < |tr.states|
    ensures Progress(tr.states[i], tr.states[j])
    decreases j
  {
    RunRecordsOk(tr, i);
    if i == j {
      SameRequests(tr.states[i], tr.states[i]);
    } else {
      RunProgress(tr, i, j - 1);
      StepProgress(tr.states[j - 1], tr.events[j - 1], tr.states[j]);
      ProgressTrans(tr.states[i], tr.states[j - 1], tr.states[j]);
    }
  }

  /** A terminal request never changes again, in any respect. */
  lemma TerminalIsFinal(tr: Trace, i: nat, j: nat, id: Id)
    requires IsRun(tr) && FreshIds(tr) && i <= j < |tr.states|
    requires id in tr.states[i].requests && IsTerminal(tr.states[i].requests[id].state)
    ensures id in tr.states[j].requests && tr.states[j].requests[id] == tr.states[i].requests[id]
  {
    RunProgress(tr, i, j);
  }

  /** In every state of every run a request that was not rejected has between one and
      max(1, max_attempts) attempts, with different identifiers, all but the last failed. */
  lemma AttemptsBounded(tr: Trace, i: nat, id: Id)
    requires IsRun(tr) && FreshIds(tr) && i < |tr.states| && id in tr.states[i].requests
    requires tr.states[i].requests[id].state != RequestState.Rejected
    ensures var h := tr.states[i].requests[id].history;
            && 1 <= |h| <= Max(1, tr.states[i].cfg.maxAttempts)
            && (forall a, b :: 0 <= a < b < |h| ==> h[a].id != h[b].id)
            && (forall a :: 0 <= a < |h| - 1 ==> h[a].state == AttemptFailed)
  {
    RunRecordsOk(tr, i);
    assert RecordOk(tr.states[i].cfg, tr.states[i].issued, tr.states[i].requests[id]);
  }

  /** How often the state of a request changes between two points of a run. */
  ghost function StateChanges(tr: Trace, id: Id, i: nat, j: nat): nat
    requires i <= j < |tr.states| && forall k :: i <= k <= j ==> id in tr.states[k].requests
    decreases j - i
  {
    if i == j then 0
    else (if tr.states[i].requests[id].state != tr.states[i + 1].requests[id].state then 1 else 0) +
         StateChanges(tr, id, i + 1, j)
  }

  lemma {:induction false} RankPaysForChanges(tr: Trace, id: Id, i: nat, j: nat)
    requires IsRun(tr) && FreshIds(tr) && i <= j < |tr.states| && id in tr.states[i].requests
    ensures forall k :: i <= k <= j ==> id in tr.states[k].requests
    ensures StateChanges(tr, id, i, j) + Rank(tr.states[i].cfg, tr.states[j].requests[id]) <=
            Rank(tr.states[i].cfg, tr.states[i].requests[id])
    decreases j - i
  {
    hide Step, FreshId, RecordsOk, Named;
    if i < j {
      RunProgress(tr, i, i + 1);
      RankPaysForChanges(tr, id, i + 1, j);
    }
  }

  /** From the moment it is known, a request changes state at most three times per attempt allowed. */
  lemma StateChangesBounded(tr: Trace, id: Id, i: nat, j: nat)
    requires IsRun(tr) && FreshIds(tr) && i <= j < |tr.states| && id in tr.states[i].requests
    ensures forall k :: i <= k <= j ==> id in tr.states[k].requests
    ensures StateChanges(tr, id, i, j) <= 3 * Max(1, tr.states[i].cfg.maxAttempts)
  {
    RankPaysForChanges(tr, id, i, j);
    RunRecordsOk(tr, i);
    RunRecordsOk(tr, j);
    assert RecordOk(tr.states[i].cfg, tr.states[i].issued, tr.states[i].requests[id]);
    assert RecordOk(tr.states[j].cfg, tr.states[j].issued, tr.states[j].requests[id]);
    RunProgress(tr, i, j);
  }

  lemma CancelMarks(s: State, id: Id)
    requires RecordsOk(s) && CancelAnswer(s, id) == CancelAccepted
    ensures id in Cancel(s, id).requests
    ensures var rec, rec1 := s.requests[id], Cancel(s, id).requests[id];
            && (rec1.cancelRequested || rec1.state == RequestState.Cancelled) && rec1.state != RequestState.Completed
            && rec1.attempt == rec.attempt && |rec1.history| == |rec.history|
  {
    hide ReleaseMember;
    assert RecordOk(s.cfg, s.issued, s.requests[id]);
  }

  /** Once cancel has succeeded the request is never completed and gets no further attempt. */
  lemma CancellationIsFinal(tr: Trace, i: nat, j: nat, id: Id)
    requires IsRun(tr) && FreshIds(tr) && i < j < |tr.states|
    requires tr.events[i] == CancelEvent(id) && CancelAnswer(tr.states[i], id) == CancelAccepted
    ensures id in tr.states[j].requests
    ensures tr.states[j].requests[id].state != RequestState.Completed
    ensures tr.states[j].requests[id].attempt == tr.states[i].requests[id].attempt
    ensures |tr.states[j].requests[id].history| == |tr.states[i].requests[id].history|
  {
    RunRecordsOk(tr, i);
    assert Step(tr.states[i], tr.events[i], tr.states[i + 1]);
    CancelMarks(tr.states[i], id);
    RunProgress(tr, i + 1, j);
    hide Step, RecordsOk, Rank, Cancel;
    assert Evolves(tr.states[i + 1].cfg, tr.states[i + 1].requests[id], tr.states[j].requests[id]);
  }

  // ----- authority -----

  /** The report names the present epoch, a registered boot identity, and the current attempt and
      generation of a request that is not over. */
  predicate Authorised(s: State, r: Report) {
    && r.epoch == s.epoch
    && r.worker in s.fleet.workers && s.fleet.workers[r.worker].boot == r.boot
    && r.request in s.requests && !IsTerminal(s.requests[r.request].state)
    && s.requests[r.request].attempt == r.attempt && s.requests[r.request].generation == r.generation
  }

  /** Attempt x of the request was followed by another one. */
  ghost predicate Superseded(rec: Request, x: Id) { exists i :: 0 <= i < |rec.history| - 1 && rec.history[i].id == x }

  /** The report comes from an earlier epoch, or its attempt was superseded or is over. */
  ghost predicate Fenced(s: State, r: Report) {
    || r.epoch < s.epoch
    || (r.request in s.requests &&
        (IsTerminal(s.requests[r.request].state) || Superseded(s.requests[r.request], r.attempt)))
  }

  lemma SupersededStays(cfg: Config, issued: nat, a: Request, b: Request, x: Id)
    requires Evolves(cfg, a, b) && Superseded(a, x) && RecordOk(cfg, issued, b)
    ensures Superseded(b, x) && b.attempt != x
  {
    var i :| 0 <= i < |a.history| - 1 && a.history[i].id == x;
    assert b.history[i].id == x && b.history[|b.history| - 1].id == b.attempt;
  }

  lemma StepEpoch(s: State, e: Event, s1: State)
    requires Step(s, e, s1)
    ensures s.epoch <= s1.epoch
  {
    hide Push, Insert, Remove, ReleaseMember, ClearWorker, PlanBatch, Pruned, Picked, KeyWeight;
    match e
    case PickEvent(now, order, seed) => ExpireAllEpoch(s, order);
    case PlanEvent(request, now, order, out) => PlanEpoch(s, request, now, order, out, s1);
    case CancelAllEvent(order) => CancelAllEpoch(s, order);
    case RegisterEvent(reg, now, order) => RecoverEpoch(s, reg.worker, order, now);
    case UnregisterEvent(w, now, order) => RecoverEpoch(s, w, order, now);
    case _ =>
  }

  lemma {:induction false} ExpireAllEpoch(s: State, order: seq<Id>)
    ensures ExpireAll(s, order).epoch == s.epoch
    decreases |order|
  {
    if order != [] { ExpireAllEpoch(if order[0] in s.requests then Expire(s, order[0]) else s, order[1..]); }
  }

  lemma {:induction false} ReserveAllEpoch(s: State, members: seq<Id>, b: Id)
    ensures ReserveAll(s, members, b).epoch == s.epoch
    decreases |members|
  {
    if members != [] {
      ReserveAllEpoch(if members[0] in s.requests then ReserveOne(s, members[0], b) else s, members[1..], b);
    }
  }

  lemma PlanEpoch(s: State, request: Id, now: Time, order: seq<Id>, out: PlanResult, s1: State)
    requires Plan(s, request, now, order, out, s1)
    ensures s1.epoch == s.epoch
  {
    var s0 := ExpireAll(s, order);
    ExpireAllEpoch(s, order);
    if out.Dispatch? {
      var members, w :| PlanBatch(s0, request, now, members, w, out, s1);
      hide BatchUnits, BatchCost;
      ReserveAllEpoch(Open(s0, members, w), members, Fresh(s0, 1));
    }
  }

  lemma {:induction false} CancelAllEpoch(s: State, order: seq<Id>)
    ensures CancelAll(s, order).epoch == s.epoch
    decreases |order|
  {
    if order != [] { CancelAllEpoch(if order[0] in s.requests then FinishCancelled(s, order[0], NO_ID)
        else s, order[1..]); }
  }

  lemma {:induction false} RecoverEpoch(s: State, w: Id, order: seq<Id>, now: Time)
    ensures RecoverRequests(s, w, order, now).epoch == s.epoch
    decreases |order|
  {
    hide KeyWeight, ReleaseMember;
    if order != [] { RecoverEpoch(RecoverOne(s, w, order[0], now), w, order[1..], now); }
  }

  lemma {:induction false} RunEpoch(tr: Trace, i: nat, j: nat)
    requires IsRun(tr) && i <= j < |tr.states|
    ensures tr.states[i].epoch <= tr.states[j].epoch
    decreases j
  {
    hide Step;
    if i < j {
      RunEpoch(tr, i, j - 1);
      StepEpoch(tr.states[j - 1], tr.events[j - 1], tr.states[j]);
    }
  }

  lemma UnauthorisedIgnored(s: State, r: Report, now: Time)
    requires !Authorised(s, r)
    ensures Complete(s, r, now) == s && Confirm(s, r) == s
    ensures CompleteAnswer(s, r) != Accepted && ConfirmAnswer(s, r) != Confirmed
  {
  }

  lemma FencedStays(s: State, s1: State, r: Report)
    requires Progress(s, s1) && s.epoch <= s1.epoch && Fenced(s, r)
    ensures !Authorised(s1, r)
  {
    if r.request in s.requests {
      var a, b := s.requests[r.request], s1.requests[r.request];
      assert Evolves(s.cfg, a, b) && RecordOk(s1.cfg, s1.issued, b);
      hide Evolves, RecordOk, RecordsOk;
      if Superseded(a, r.attempt) { SupersededStays(s.cfg, s1.issued, a, b, r.attempt); }
      TerminalStays(s.cfg, a, b);
    }
  }

  lemma TerminalStays(cfg: Config, a: Request, b: Request)
    requires Evolves(cfg, a, b)
    ensures IsTerminal(a.state) ==> b == a
  {
  }

  /** A report is refused, and changes nothing, whenever it does not name the present epoch, a registered
      boot identity and the current attempt and generation of an open request. What was lost by the epoch
      moving on, or by the request ending or getting another attempt, is lost in every later state. */
  lemma AuthorityIsLost(tr: Trace, i: nat, j: nat, r: Report, now: Time)
    requires IsRun(tr) && FreshIds(tr) && i <= j < |tr.states|
    requires Fenced(tr.states[i], r) || !Authorised(tr.states[j], r)
    ensures Complete(tr.states[j], r, now) == tr.states[j] && Confirm(tr.states[j], r) == tr.states[j]
    ensures CompleteAnswer(tr.states[j], r) != Accepted && ConfirmAnswer(tr.states[j], r) != Confirmed
  {
    RunEpoch(tr, i, j);
    RunProgress(tr, i, j);
    hide Step, Progress, Fenced, Authorised, Complete, Confirm, CompleteAnswer, ConfirmAnswer;
    if Fenced(tr.states[i], r) { FencedStays(tr.states[i], tr.states[j], r); }
    UnauthorisedIgnored(tr.states[j], r, now);
  }

  /** The record of a retried request. */
  lemma RetrySupersedes(cfg: Config, issued: nat, rec: Request, now: Time)
    requires RecordOk(cfg, issued, rec) && !IsTerminal(rec.state)
    ensures var rec1 := RetriedRecord(rec, IdAt(cfg, issued + 1), IdAt(cfg, issued + 2)).(state := RequestState.Queued,
        queuedAt := now);
            Superseded(rec1, rec.attempt) && rec1.attempt != rec.attempt
  {
    NextIsIssued(cfg, issued, 2, 2);
    var rec1 := RetriedRecord(rec, IdAt(cfg, issued + 1), IdAt(cfg, issued + 2));
    assert rec1.history[|rec.history| - 1].id == rec.attempt;
    assert Spent(cfg, issued, rec.history[|rec.history| - 1].id);
  }

  /** An accepted completion ends the request or puts another attempt in place of the one reported. */
  lemma AcceptanceUsesUpAttempt(s: State, r: Report, now: Time)
    requires RecordsOk(s) && CompleteAnswer(s, r) == Accepted
    ensures r.request in Complete(s, r, now).requests
    ensures var rec := Complete(s, r, now).requests[r.request];
            IsTerminal(rec.state) || (Superseded(rec, r.attempt) && rec.attempt != r.attempt)
  {
    hide RecordsOk, MakeRetry, Superseded, FinishCancelled, Finish, CanRetry, Retryable;
    RetriedSupersedes(s, r.request, r.worker, now);
    EndsThere(s, r.request, r.worker);
  }

  lemma RetriedSupersedes(s: State, id: Id, w: Id, now: Time)
    requires RecordsOk(s) && id in s.requests && !IsTerminal(s.requests[id].state)
    ensures id in MakeRetry(s, id, w, now).requests
    ensures var x, rec := s.requests[id].attempt, MakeRetry(s, id, w, now).requests[id];
        Superseded(rec, x) && rec.attempt != x
  {
    assert RecordOk(s.cfg, s.issued, s.requests[id]);
    RetrySupersedes(s.cfg, s.issued, s.requests[id], now);
    RetryShape(s, id, w, now);
    hide RecordsOk, RecordOk, MakeRetry, Superseded;
  }

  /** Finishing and cancelling end a request. */
  lemma EndsThere(s: State, id: Id, w: Id)
    requires id in s.requests
    ensures id in FinishCancelled(s, id, w).requests && IsTerminal(FinishCancelled(s, id, w).requests[id].state)
    ensures forall st, a :: IsTerminal(st) ==>
              id in Finish(s, id, w, st, a).requests && Finish(s, id, w, st, a).requests[id].state == st
  {
    hide ReleaseMember, Remove;
  }

  /** No two accepted completions of a run carry the same request, attempt and generation. */
  lemma AcceptedAtMostOnce(tr: Trace, i: nat, j: nat)
    requires IsRun(tr) && FreshIds(tr) && i < j < |tr.events|
    requires tr.events[i].CompleteEvent? && tr.events[j].CompleteEvent?
    requires tr.events[i].report.request == tr.events[j].report.request
    requires tr.events[i].report.attempt == tr.events[j].report.attempt
    requires tr.events[i].report.generation == tr.events[j].report.generation
    ensures !(CompleteAnswer(tr.states[i], tr.events[i].report) == Accepted &&
              CompleteAnswer(tr.states[j], tr.events[j].report) == Accepted)
  {
    if CompleteAnswer(tr.states[i], tr.events[i].report) == Accepted {
      RunRecordsOk(tr, i);
      assert Step(tr.states[i], tr.events[i], tr.states[i + 1]);
      AcceptanceUsesUpAttempt(tr.states[i], tr.events[i].report, tr.events[i].now);
      AuthorityIsLost(tr, i + 1, j, tr.events[j].report, tr.events[j].now);
    }
  }

  // ----- identifiers that are not fresh -----

  /** The step admits a submission under the identifier of request id. */
  predicate Reuses(s: State, e: Event, id: Id) {
    e.SubmitEvent? && e.spec.Valid() && Admission(s, e.spec, e.now).0 == Admit && RequestIdFor(s, e.pre) == id
  }

  /** Whatever the step, a terminal request stays as it is exactly unless its own identifier is
      reused; then the old record is queued again and the new specification is dropped. */
  lemma ReuseRevives(s: State, e: Event, s1: State, id: Id)
    requires RecordsOk(s) && Step(s, e, s1) && id in s.requests && IsTerminal(s.requests[id].state)
    ensures id in s1.requests
    ensures s1.requests[id] == s.requests[id] <==> !Reuses(s, e, id)
    ensures Reuses(s, e, id) ==>
              s1.requests[id] == s.requests[id].(state := RequestState.Queued, queuedAt := s1.requests[id].queuedAt)
  {
    if FreshId(s, e) {
      StepProgress(s, e, s1);
      hide Step, RecordsOk, Rank, Admission;
      assert Evolves(s.cfg, s.requests[id], s1.requests[id]);
    } else {
      TakenId(s, e.spec, e.pre, e.now, id);
    }
  }

  lemma TakenId(s: State, spec: Spec, pre: Option<Id>, now: Time, id: Id)
    requires id in s.requests && RequestIdFor(s, pre) in s.requests
    ensures var s1 := Submit(s, spec, pre, now);
            && id in s1.requests
            && s1.requests[id] ==
               if Reuses(s, SubmitEvent(spec, pre, now), id)
                   then s.requests[id].(state := RequestState.Queued, queuedAt := now)
               else s.requests[id]
  {
    hide Admission, Push, Insert;
  }
}
