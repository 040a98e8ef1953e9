/** Safety of the queue under an asynchronous environment: reports may be
    delayed, duplicated and reordered in any way, as long as each is about an
    attempt that was handed to the worker sending it. */
module Protocol {
  import opened Types
  import opened Collections
  import opened ReadyQueue
  import opened Fleets
  import opened Machine
  import opened Lifecycle

  /** The queued set, its size, the compatibility index and the heaps all describe the
      requests in state Queued. */
  ghost predicate QueueOk(s: State) {
    && IndexAgrees(s.cfg, s.requests, s.index)
    && HeapsAgree(s.requests, s.index.queued, s.fair, s.cfg, s.issued)
  }

  // ----- one record changes -----

  /** A record outside the queue changed and stays outside. */
  lemma QueueKept(s: State, s1: State, id: Id, rec: Request)
    requires QueueOk(s) && s1.cfg == s.cfg && s.issued <= s1.issued && s1.index == s.index && s1.fair == s.fair
    requires s1.requests == s.requests[id := rec] && rec.state != RequestState.Queued
    requires id in s.requests ==> s.requests[id].state != RequestState.Queued && rec.spec == s.requests[id].spec
    ensures QueueOk(s1)
  {
    assert QueuedIds(s1.requests) == QueuedIds(s.requests);
    forall c ensures CompatibleIds(s.cfg, s1.requests, c) == CompatibleIds(s.cfg, s.requests, c) {}
    SameHeaps(s.requests, s.index.queued, s.fair, s1.requests, s1.index.queued, s1.fair,
              s.cfg, s.issued, s1.issued);
  }

  lemma QueueSame(s: State, s1: State)
    requires QueueOk(s) && s1.cfg == s.cfg && s.issued <= s1.issued && s1.index == s.index && s1.fair == s.fair
    requires s1.requests == s.requests
    ensures QueueOk(s1)
  {
    SameHeaps(s.requests, s.index.queued, s.fair, s1.requests, s1.index.queued, s1.fair,
              s.cfg, s.issued, s1.issued);
  }

  /** A request was taken out of the queue. */
  lemma QueueLeft(s: State, s1: State, id: Id, rec: Request)
    requires QueueOk(s) && s1.cfg == s.cfg && s.issued <= s1.issued && id in s.requests
    requires s1.requests == s.requests[id := rec] && rec.state != RequestState.Queued && rec.spec == s.requests[id].spec
    requires s1.index == Remove(s.cfg, s.index, id, rec.spec)
    requires s1.fair.active == s.fair.active && forall k :: HeapAt(s1.fair, k) == HeapAt(s.fair, k)
    ensures QueueOk(s1)
  {
    RemoveKeepsIndex(s.cfg, s.requests, s.index, id, rec);
    SameHeaps(s.requests, s.index.queued, s.fair, s1.requests, s1.index.queued, s1.fair,
              s.cfg, s.issued, s1.issued);
  }

  /** A request entered the queue under a generation issued only now. */
  lemma QueueJoined(s: State, s1: State, id: Id, rec: Request)
    requires QueueOk(s) && s1.cfg == s.cfg && Issued(s.cfg, s.issued, s1.issued, rec.generation)
    requires s1.requests == s.requests[id := rec] && rec.state == RequestState.Queued
    requires id in s.requests ==> s.requests[id].state != RequestState.Queued && s.requests[id].spec == rec.spec
    requires s1.index == Insert(s.cfg, s.index, id, rec.spec) && s1.fair == Push(s.cfg, s.fair, id, rec)
    ensures QueueOk(s1)
  {
    InsertKeepsIndex(s.cfg, s.requests, s.index, id, rec);
    PushKeepsHeaps(s.cfg, s.requests, s.index.queued, s.fair, id, rec, s.issued, s1.issued);
  }

  // ----- every operation -----

  lemma ExpireQueue(s: State, id: Id)
    requires QueueOk(s) && id in s.requests
    ensures QueueOk(Expire(s, id))
  {
    if s.requests[id].state == RequestState.Queued {
      QueueLeft(s, Expire(s, id), id, Expire(s, id).requests[id]);
    }
  }

  lemma {:induction false} ExpireAllQueue(s: State, order: seq<Id>)
    requires QueueOk(s)
    ensures QueueOk(ExpireAll(s, order))
    decreases |order|
  {
    if order != [] {
      if order[0] in s.requests { ExpireQueue(s, order[0]); }
      ExpireAllQueue(if order[0] in s.requests then Expire(s, order[0]) else s, order[1..]);
    }
  }

  lemma ReserveOneQueue(s: State, id: Id, b: Id)
    requires QueueOk(s) && id in s.requests
    ensures QueueOk(ReserveOne(s, id, b))
  {
    var s1 := ReserveOne(s, id, b);
    forall k ensures HeapAt(s1.fair, k) == HeapAt(s.fair, k) {}
    QueueLeft(s, s1, id, s1.requests[id]);
  }

  lemma {:induction false} ReserveAllQueue(s: State, members: seq<Id>, b: Id)
    requires QueueOk(s)
    ensures QueueOk(ReserveAll(s, members, b))
    decreases |members|
  {
    if members != [] {
      if members[0] in s.requests { ReserveOneQueue(s, members[0], b); }
      ReserveAllQueue(if members[0] in s.requests then ReserveOne(s, members[0], b) else s, members[1..], b);
    }
  }

  lemma FinishQueue(s: State, id: Id, w: Id, st: RequestState, a: AttemptState)
    requires QueueOk(s) && id in s.requests && s.requests[id].state != RequestState.Queued && IsTerminal(st)
    ensures QueueOk(Finish(s, id, w, st, a))
  {
    QueueKept(s, Finish(s, id, w, st, a), id, Finish(s, id, w, st, a).requests[id]);
  }

  lemma FinishCancelledQueue(s: State, id: Id, w: Id)
    requires QueueOk(s) && id in s.requests
    ensures QueueOk(FinishCancelled(s, id, w))
  {
    if !IsTerminal(s.requests[id].state) {
      QueueLeft(s, FinishCancelled(s, id, w), id, FinishCancelled(s, id, w).requests[id]);
    }
  }

  lemma {:induction false} CancelAllQueue(s: State, order: seq<Id>)
    requires QueueOk(s)
    ensures QueueOk(CancelAll(s, order))
    decreases |order|
  {
    if order != [] {
      if order[0] in s.requests { FinishCancelledQueue(s, order[0], NO_ID); }
      CancelAllQueue(if order[0] in s.requests then FinishCancelled(s, order[0], NO_ID) else s, order[1..]);
    }
  }

  lemma MakeRetryQueue(s: State, id: Id, w: Id, now: Time)
    requires QueueOk(s) && id in s.requests && s.requests[id].state != RequestState.Queued
    ensures QueueOk(MakeRetry(s, id, w, now))
  {
    RetryShape(s, id, w, now);
    NextIsIssued(s.cfg, s.issued, 1, 2);
    hide MakeRetry, QueueOk, Issued, Spent;
    QueueJoined(s, MakeRetry(s, id, w, now), id,
                RetriedRecord(s.requests[id], Fresh(s, 1), Fresh(s, 2)).(state := RequestState.Queued,
                    queuedAt := now));
  }

  lemma ConfirmQueue(s: State, r: Report)
    requires QueueOk(s)
    ensures QueueOk(Confirm(s, r))
  {
    if ConfirmAnswer(s, r) == Confirmed {
      QueueKept(s, Confirm(s, r), r.request, Confirm(s, r).requests[r.request]);
    }
  }

  /** A completion keeps the queue right when the request it is about is not queued. */
  lemma CompleteQueue(s: State, r: Report, now: Time)
    requires QueueOk(s)
    requires Screen(s, r).None? ==> s.requests[r.request].state != RequestState.Queued
    ensures QueueOk(Complete(s, r, now))
  {
    hide QueueOk, Finish, FinishCancelled, MakeRetry, CanRetry, Retryable, ReleaseMember;
    if Screen(s, r).None? {
      if r.status == Stale {
        QueueKept(s, Complete(s, r, now), r.request, Complete(s, r, now).requests[r.request]);
      } else if r.status == CancelledStatus || (r.status == Succeeded && s.requests[r.request].cancelRequested) {
        FinishCancelledQueue(s, r.request, r.worker);
      } else if r.status == Succeeded {
        FinishQueue(s, r.request, r.worker, RequestState.Completed, AttemptSucceeded);
      } else if r.status == ExpiredStatus {
        FinishQueue(s, r.request, r.worker, RequestState.Expired, AttemptExpired);
      } else if Retryable(s.cfg, r.failure) && CanRetry(s, s.requests[r.request], now) {
        MakeRetryQueue(s, r.request, r.worker, now);
      } else {
        FinishQueue(s, r.request, r.worker, RequestState.Failed, AttemptFailed);
      }
    }
  }

  lemma StaleQueue(s: State, r: Report, now: Time)
    requires QueueOk(s) && Screen(s, r).None? && r.status == Stale && s.requests[r.request].state == RequestState.Queued
    ensures QueueOk(Complete(s, r, now))
  {
    hide ReleaseMember, WithLast, EntryOk, HasOneEntry;
    var s1 := Complete(s, r, now);
    assert QueuedIds(s1.requests) == QueuedIds(s.requests);
    forall c ensures CompatibleIds(s.cfg, s1.requests, c) == CompatibleIds(s.cfg, s.requests, c) {}
    SameHeaps(s.requests, s.index.queued, s.fair, s1.requests, s1.index.queued, s1.fair,
              s.cfg, s.issued, s1.issued);
  }

  lemma FinishQueuedBreaks(s: State, id: Id, w: Id, st: RequestState, a: AttemptState)
    requires QueueOk(s) && id in s.requests && s.requests[id].state == RequestState.Queued && IsTerminal(st)
    ensures !QueueOk(Finish(s, id, w, st, a))
  {
    hide ReleaseMember, HeapsAgree;
    var s1 := Finish(s, id, w, st, a);
    assert id in s1.index.queued && id !in QueuedIds(s1.requests);
  }

  lemma RetryQueuedBreaks(s: State, id: Id, w: Id, now: Time)
    requires QueueOk(s) && id in s.requests && s.requests[id].state == RequestState.Queued
    ensures !QueueOk(MakeRetry(s, id, w, now))
  {
    RetryShape(s, id, w, now);
    hide MakeRetry, HeapsAgree;
    assert s.index.queued + {id} == s.index.queued;
  }

  lemma QueuedCompletionBreaks(s: State, r: Report, now: Time)
    requires QueueOk(s) && RecordsOk(s) && Screen(s, r).None? && s.requests[r.request].state == RequestState.Queued
    requires r.status != Stale && r.status != CancelledStatus
    ensures !QueueOk(Complete(s, r, now))
  {
    hide QueueOk, RecordsOk, Finish, FinishCancelled, MakeRetry, CanRetry, Retryable;
    QueuedNotCancelled(s, r.request);
    FinishQueuedBreaks(s, r.request, r.worker, RequestState.Completed, AttemptSucceeded);
    FinishQueuedBreaks(s, r.request, r.worker, RequestState.Expired, AttemptExpired);
    FinishQueuedBreaks(s, r.request, r.worker, RequestState.Failed, AttemptFailed);
    RetryQueuedBreaks(s, r.request, r.worker, now);
  }

  lemma QueuedNotCancelled(s: State, id: Id)
    requires RecordsOk(s) && id in s.requests && s.requests[id].state == RequestState.Queued
    ensures !s.requests[id].cancelRequested
  {
    assert RecordOk(s.cfg, s.issued, s.requests[id]);
  }

  /** Completion does not look at whether the request was dispatched. A report that passes the
      screen leaves the queue in order exactly unless the request is still queued and the report
      says anything but stale or cancelled. */
  lemma CompleteQueueExact(s: State, r: Report, now: Time)
    requires QueueOk(s) && RecordsOk(s) && Screen(s, r).None?
    ensures QueueOk(Complete(s, r, now)) <==>
            (s.requests[r.request].state == RequestState.Queued ==> r.status == Stale || r.status == CancelledStatus)
  {
    hide QueueOk, RecordsOk, FinishCancelled, ReleaseMember;
    if s.requests[r.request].state != RequestState.Queued {
      CompleteQueue(s, r, now);
    } else if r.status == Stale {
      StaleQueue(s, r, now);
    } else if r.status == CancelledStatus {
      FinishCancelledQueue(s, r.request, r.worker);
    } else {
      QueuedCompletionBreaks(s, r, now);
    }
  }

  lemma CancelQueue(s: State, id: Id)
    requires QueueOk(s)
    ensures QueueOk(Cancel(s, id))
  {
    if CancelAnswer(s, id) == CancelAccepted {
      var rec := s.requests[id];
      if rec.state == RequestState.Dispatched || rec.state == RequestState.Running {
        QueueKept(s, Cancel(s, id), id, Cancel(s, id).requests[id]);
      } else if rec.state == RequestState.Reserved {
        FinishCancelledQueue(s, id, LastWorker(rec.history));
      } else {
        FinishCancelledQueue(s, id, NO_ID);
      }
    }
  }

  lemma SubmitQueue(s: State, spec: Spec, pre: Option<Id>, now: Time)
    requires QueueOk(s) && FreshId(s, SubmitEvent(spec, pre, now))
    ensures QueueOk(Submit(s, spec, pre, now))
  {
    var s1 := Submit(s, spec, pre, now);
    var id, n := RequestIdFor(s, pre), IdsTaken(pre);
    if !spec.Valid() || Admission(s, spec, now).0 == Defer {
      QueueSame(s, s1);
    } else if Admission(s, spec, now).0 == Reject {
      QueueKept(s, s1, id, RejectedRecord(spec, Fresh(s, n + 1), now));
    } else {
      SubmitShape(s, spec, pre, now);
      NextIsIssued(s.cfg, s.issued, n + 1, n + 2);
      QueueJoined(s, s1, id, FirstRecord(spec, Fresh(s, n + 2), Fresh(s, n + 1), now));
    }
  }

  /** No entry of the request's present generation is left in any heap. */
  ghost predicate Forgotten(s: State, id: Id)
    requires id in s.requests
  {
    forall k, e :: e in HeapAt(s.fair, k) ==> !(e.id == id && e.generation == s.requests[id].generation)
  }

  lemma ReusedShape(s: State, e: Event, id: Id)
    requires Reuses(s, e, id) && id in s.requests
    ensures var s1 := Submit(s, e.spec, e.pre, e.now);
            var rec := s.requests[id].(state := RequestState.Queued, queuedAt := e.now);
            && s1.cfg == s.cfg && s.issued <= s1.issued && s1.requests == s.requests[id := rec]
            && s1.index == Insert(s.cfg, s.index, id, rec.spec) && s1.fair == Push(s.cfg, s.fair, id, rec)
  {
  }

  lemma ReusedEntry(s: State, id: Id, rec: Request, i: Id)
    requires QueueOk(s) && id in s.requests && Forgotten(s, id) && i in s.index.queued + {id}
    requires rec.generation == s.requests[id].generation && rec.spec == s.requests[id].spec
    ensures HasOneEntry(s.requests[id := rec], Push(s.cfg, s.fair, id, rec), i)
  {
    hide IndexAgrees, EntryOk;
    PushedHeap(s.cfg, s.fair, id, rec, FlowKeyOf(s.requests[id := rec][i].spec));
    hide Push;
    if i != id { assert HasOneEntry(s.requests, s.fair, i); }
  }

  lemma ReusedHeaps(s: State, id: Id, rec: Request)
    requires QueueOk(s) && id in s.requests && id !in s.index.queued && Forgotten(s, id)
    requires rec.generation == s.requests[id].generation && Spent(s.cfg, s.issued, rec.generation)
        && rec.spec == s.requests[id].spec
    ensures HeapsAgree(s.requests[id := rec], s.index.queued + {id}, Push(s.cfg, s.fair, id, rec), s.cfg, s.issued)
  {
    hide IndexAgrees, KeyWeight, HasOneEntry;
    var rs1, fq1, queued1 := s.requests[id := rec], Push(s.cfg, s.fair, id, rec), s.index.queued + {id};
    forall i | i in queued1 ensures HasOneEntry(rs1, fq1, i) { ReusedEntry(s, id, rec, i); }
    forall k, e | e in HeapAt(fq1, k) ensures EntryOk(rs1, queued1, k, e, s.cfg, s.issued) {
      PushedHeap(s.cfg, s.fair, id, rec, k);
      if e in HeapAt(s.fair, k) { assert EntryOk(s.requests, s.index.queued, k, e, s.cfg, s.issued); }
    }
  }

  lemma RememberedBreaks(s: State, id: Id, rec: Request, k: FlowKey, e: ReadyEntry, later: nat)
    requires QueueOk(s) && id in s.requests && e in HeapAt(s.fair, k) && e.id == id
    requires e.generation == rec.generation && rec.spec == s.requests[id].spec
    ensures !HeapsAgree(s.requests[id := rec], s.index.queued + {id}, Push(s.cfg, s.fair, id, rec), s.cfg, later)
  {
    var rs1, fq1, queued1 := s.requests[id := rec], Push(s.cfg, s.fair, id, rec), s.index.queued + {id};
    PushedHeap(s.cfg, s.fair, id, rec, k);
    assert EntryOk(s.requests, s.index.queued, k, e, s.cfg, s.issued);
    hide Push, KeyWeight;
    assert HeapsAgree(rs1, queued1, fq1, s.cfg, later) ==>
        EntryOk(rs1, queued1, k, e, s.cfg, later) && HasOneEntry(rs1, fq1, id);
  }

  /** A submission keeps the queue in order exactly unless it is admitted under the identifier of a
      request that is queued, or of which a heap still holds an entry of the same generation. */
  lemma ReuseQueueExact(s: State, spec: Spec, pre: Option<Id>, now: Time)
    requires RecordsOk(s) && QueueOk(s)
    ensures var id := RequestIdFor(s, pre);
            QueueOk(Submit(s, spec, pre, now)) <==>
            (Reuses(s, SubmitEvent(spec, pre, now), id) && id in s.requests ==>
               s.requests[id].state != RequestState.Queued && Forgotten(s, id))
  {
    var id, e, s1 := RequestIdFor(s, pre), SubmitEvent(spec, pre, now), Submit(s, spec, pre, now);
    if Reuses(s, e, id) && id in s.requests {
      ReusedShape(s, e, id);
      hide Submit, Reuses;
      ReusedQueueExact(s, s1, id, s1.requests[id]);
    } else if FreshId(s, e) {
      SubmitQueue(s, spec, pre, now);
    } else {
      RejectedReuse(s, spec, pre, now);
    }
  }

  lemma RejectedReuse(s: State, spec: Spec, pre: Option<Id>, now: Time)
    requires QueueOk(s) && !FreshId(s, SubmitEvent(spec, pre, now))
        && !Reuses(s, SubmitEvent(spec, pre, now), RequestIdFor(s, pre))
    ensures QueueOk(Submit(s, spec, pre, now))
  {
    hide QueueOk;
    QueueSame(s, Submit(s, spec, pre, now));
  }

  lemma ReusedQueueExact(s: State, s1: State, id: Id, rec: Request)
    requires RecordsOk(s) && QueueOk(s) && id in s.requests && s1.cfg == s.cfg && s.issued <= s1.issued
    requires rec == s.requests[id].(state := RequestState.Queued, queuedAt := rec.queuedAt)
        && s1.requests == s.requests[id := rec]
    requires s1.index == Insert(s.cfg, s.index, id, rec.spec) && s1.fair == Push(s.cfg, s.fair, id, rec)
    ensures QueueOk(s1) <==> s.requests[id].state != RequestState.Queued && Forgotten(s, id)
  {
    hide Push, KeyWeight;
    if s.requests[id].state == RequestState.Queued {
      hide HeapsAgree;
      assert s1.index.queued == s.index.queued;
    } else if !Forgotten(s, id) {
      var k, e :| e in HeapAt(s.fair, k) && e.id == id && e.generation == s.requests[id].generation;
      RememberedBreaks(s, id, rec, k, e, s1.issued);
    } else {
      assert RecordOk(s.cfg, s.issued, s.requests[id]);
      InsertKeepsIndex(s.cfg, s.requests, s.index, id, rec);
      ReusedHeaps(s, id, rec);
      hide IndexAgrees, HeapsAgree, Forgotten;
      SameHeaps(s1.requests, s1.index.queued, s1.fair, s1.requests, s1.index.queued, s1.fair,
                s.cfg, s.issued, s1.issued);
    }
  }

  // ----- expiry before selection -----

  /** Expiring a list touches exactly the queued requests on it. */
  lemma {:induction false} ExpireAllEffect(s: State, order: seq<Id>, id: Id)
    ensures id in ExpireAll(s, order).requests <==> id in s.requests
    ensures id in s.requests ==>
              ExpireAll(s, order).requests[id] ==
              if id in order && s.requests[id].state == RequestState.Queued
              then s.requests[id].(state := RequestState.Expired,
                  history := WithLast(s.requests[id].history, AttemptExpired))
              else s.requests[id]
    decreases |order|
  {
    if order != [] {
      ExpireAllEffect(if order[0] in s.requests then Expire(s, order[0]) else s, order[1..], id);
    }
  }

  lemma {:induction false} ExpireAllFrame(s: State, order: seq<Id>)
    ensures var s1 := ExpireAll(s, order);
            s1.cfg == s.cfg && s1.epoch == s.epoch && s1.issued == s.issued && s1.fair == s.fair && s1.fleet == s.fleet
    decreases |order|
  {
    if order != [] {
      ExpireAllFrame(if order[0] in s.requests then Expire(s, order[0]) else s, order[1..]);
    }
  }

  /** After the scan no queued request is overdue, and only overdue ones have left. */
  lemma ScanLeaves(s: State, now: Time, order: seq<Id>, id: Id)
    requires QueueOk(s) && Enumerates(order, Due(s, now))
    ensures id in QueuedIds(ExpireAll(s, order).requests) <==>
        id in QueuedIds(s.requests) && !s.requests[id].spec.Overdue(now)
    ensures id in QueuedIds(ExpireAll(s, order).requests) ==> ExpireAll(s, order).requests[id] == s.requests[id]
  {
    ExpireAllEffect(s, order, id);
    assert id in order <==> id in Due(s, now);
  }

  lemma {:induction false} ExpireAllLeaves(s: State, order: seq<Id>)
    ensures ExpireAll(s, order).index.queued <= s.index.queued
    decreases |order|
  {
    if order != [] {
      ExpireAllLeaves(if order[0] in s.requests then Expire(s, order[0]) else s, order[1..]);
    }
  }

  /** After the scan nothing is due any more. */
  lemma NothingStaysDue(s: State, now: Time, order: seq<Id>)
    requires Enumerates(order, Due(s, now))
    ensures Due(ExpireAll(s, order), now) == {}
  {
    ExpireAllLeaves(s, order);
    var s0 := ExpireAll(s, order);
    hide ExpireAll;
    forall id ensures id !in Due(s0, now) {
      ExpireAllEffect(s, order, id);
      assert id in order <==> id in Due(s, now);
    }
  }

  /** After the scan everything left in the queue is runnable. */
  lemma AllRunnable(s: State, now: Time, order: seq<Id>)
    requires QueueOk(s) && Enumerates(order, Due(s, now))
    ensures var s0 := ExpireAll(s, order); Runnable(s0.requests, s0.index.queued, now) == s0.index.queued
  {
    ExpireAllQueue(s, order);
    var s0 := ExpireAll(s, order);
    hide ExpireAll, Enumerates, HeapsAgree;
    forall id | id in s0.index.queued ensures id in s0.requests && !s0.requests[id].spec.Overdue(now) {
      ScanLeaves(s, now, order, id);
    }
  }

  lemma PickQueue(s: State, now: Time, order: seq<Id>, seed: Option<Id>, s1: State)
    requires QueueOk(s) && Pick(s, now, order, seed, s1)
    ensures QueueOk(s1)
  {
    var s0 := ExpireAll(s, order);
    ExpireAllQueue(s, order);
    AllRunnable(s, now, order);
    PruneKeepsHeaps(s0.requests, s0.index.queued, s0.fair, s1.fair, s0.cfg, s0.issued);
  }

  lemma PlanQueue(s: State, request: Id, now: Time, order: seq<Id>, out: PlanResult, s1: State)
    requires QueueOk(s) && Plan(s, request, now, order, out, s1)
    ensures QueueOk(s1)
  {
    var s0 := ExpireAll(s, order);
    ExpireAllQueue(s, order);
    if request in s0.requests && s0.requests[request].spec.Overdue(now) {
      ExpireQueue(s0, request);
    } else if out.Dispatch? {
      var members, w :| PlanBatch(s0, request, now, members, w, out, s1);
      QueueSame(s0, Open(s0, members, w));
      ReserveAllQueue(Open(s0, members, w), members, Fresh(s0, 1));
    }
  }

  // ----- attempts handed to workers -----

  /** Worker `worker` was told to run this attempt of this request. */
  datatype Handout = Handout(worker: Id, request: Id, attempt: Id, generation: Id)

  ghost function HandedBy(e: Event, s1: State): set<Handout> {
    if e.PlanEvent? && e.out.Dispatch? then
      set m | m in e.out.members && m in s1.requests ::
        Handout(e.out.worker, m, s1.requests[m].attempt, s1.requests[m].generation)
    else {}
  }

  /** The environment: fresh identifiers for submissions, and reports only about attempts
      that were handed to the reporting worker. */
  ghost predicate EnvOk(s: State, e: Event, handed: set<Handout>) {
    && FreshId(s, e)
    && (e.ConfirmEvent? || e.CompleteEvent? ==>
          Handout(e.report.worker, e.report.request, e.report.attempt, e.report.generation) in handed)
  }

  /** What was handed out is never named again; where it is the current attempt of an open request, it has
      that attempt's generation and the request is not queued. */
  ghost predicate HandedOk(s: State, handed: set<Handout>) { forall h :: h in handed ==> HandoutOk(s, h) }

  ghost predicate HandoutOk(s: State, h: Handout) {
    && Spent(s.cfg, s.issued, h.attempt)
    && (IsCurrent(s, h.request, h.attempt) ==>
          h.generation == s.requests[h.request].generation && s.requests[h.request].state != RequestState.Queued)
  }

  /** x is the current attempt of request id, which is not over. */
  predicate IsCurrent(s: State, id: Id, x: Id) {
    id in s.requests && !IsTerminal(s.requests[id].state) && s.requests[id].attempt == x
  }

  /** No attempt was handed out twice. */
  ghost predicate HandedOnce(handed: set<Handout>) {
    forall g, h :: g in handed && h in handed && g.request == h.request && g.attempt == h.attempt ==> g == h
  }

  function FlightAt(f: Fleet, w: Id): set<Id> {
    if w in f.workers then f.workers[w].inFlight else {}
  }

  /** What a worker has in flight is running on that worker, or over. */
  ghost predicate FlightsOk(s: State, handed: set<Handout>) {
    forall w, id :: id in FlightAt(s.fleet, w) ==> FlightOk(s, handed, w, id)
  }

  ghost predicate FlightOk(s: State, handed: set<Handout>, w: Id, id: Id) {
    && id in s.requests
    && (IsTerminal(s.requests[id].state) ||
        (s.requests[id].state == RequestState.Running &&
         Handout(w, id, s.requests[id].attempt, s.requests[id].generation) in handed))
  }

  ghost predicate ProtocolOk(s: State, handed: set<Handout>) {
    RecordsOk(s) && QueueOk(s) && HandedOk(s, handed) && HandedOnce(handed) && FlightsOk(s, handed)
  }

  /** With its attempt unchanged a request does not return to the queue. */
  lemma NotRequeued(cfg: Config, a: Request, b: Request)
    requires Evolves(cfg, a, b) && |b.history| == |a.history| && a.state != RequestState.Queued
    ensures b.state != RequestState.Queued
  {
  }

  /** An attempt that is not named again is current only if it was before. */
  lemma SameAttempt(s: State, s1: State, id: Id, x: Id)
    requires RecordsOk(s) && Progress(s, s1) && IsCurrent(s1, id, x) && Spent(s.cfg, s.issued, x)
    ensures IsCurrent(s, id, x) && Evolves(s.cfg, s.requests[id], s1.requests[id])
    ensures |s1.requests[id].history| == |s.requests[id].history|
  {
    assert Named(s, s1, id) && RecordOk(s1.cfg, s1.issued, s1.requests[id]);
    var b := s1.requests[id];
    SpentNotIssued(s.cfg, s.issued, s1.issued, x);
    assert b.history[|b.history| - 1].id == x;
  }

  lemma HandedKept(s: State, s1: State, handed: set<Handout>)
    requires RecordsOk(s) && Progress(s, s1) && HandedOk(s, handed)
    ensures HandedOk(s1, handed)
  {
    hide RecordsOk, Evolves;
    forall h | h in handed ensures HandoutOk(s1, h) {
      assert HandoutOk(s, h);
      if IsCurrent(s1, h.request, h.attempt) {
        SameAttempt(s, s1, h.request, h.attempt);
        SameGeneration(s.cfg, s.requests[h.request], s1.requests[h.request]);
        NotRequeued(s.cfg, s.requests[h.request], s1.requests[h.request]);
      }
    }
  }

  lemma SameGeneration(cfg: Config, a: Request, b: Request)
    requires Evolves(cfg, a, b) && |b.history| == |a.history|
    ensures b.generation == a.generation && b.attempt == a.attempt
  {
  }

  // ----- work in flight -----

  lemma ReleaseFlight(f: Fleet, w: Id, id: Id, batch: Option<Id>, v: Id)
    ensures FlightAt(ReleaseMember(f, w, id, batch), v) == if v == w then FlightAt(f, v) - {id} else FlightAt(f, v)
  {
  }

  /** One record changed and flights at most shrank. */
  lemma FlightsKept(s: State, s1: State, id: Id, rec: Request, handed: set<Handout>)
    requires FlightsOk(s, handed) && s1.requests == s.requests[id := rec]
    requires forall v :: FlightAt(s1.fleet, v) <= FlightAt(s.fleet, v)
    requires IsTerminal(rec.state) || (forall v :: id !in FlightAt(s1.fleet, v)) ||
             (id in s.requests && s.requests[id].state == rec.state == RequestState.Running &&
              rec.attempt == s.requests[id].attempt && rec.generation == s.requests[id].generation)
    ensures FlightsOk(s1, handed)
  {
    forall w, i | i in FlightAt(s1.fleet, w) ensures FlightOk(s1, handed, w, i) {
      assert FlightOk(s, handed, w, i);
    }
  }

  /** A request that is queued or reserved is not in flight anywhere. */
  lemma NotInFlight(s: State, handed: set<Handout>, id: Id, v: Id)
    requires FlightsOk(s, handed)
    requires id in s.requests ==> !IsTerminal(s.requests[id].state) && s.requests[id].state != RequestState.Running
    ensures id !in FlightAt(s.fleet, v)
  {
    assert id in FlightAt(s.fleet, v) ==> FlightOk(s, handed, v, id);
  }

  /** Once released by the worker its attempt was handed to, a request is in flight nowhere. */
  lemma ReleasedNowhere(s: State, handed: set<Handout>, w: Id, id: Id, v: Id)
    requires FlightsOk(s, handed) && HandedOnce(handed) && id in s.requests && !IsTerminal(s.requests[id].state)
    requires Handout(w, id, s.requests[id].attempt, s.requests[id].generation) in handed
    ensures id !in FlightAt(ReleaseMember(s.fleet, w, id, s.requests[id].batch), v)
  {
    ReleaseFlight(s.fleet, w, id, s.requests[id].batch, v);
    assert id in FlightAt(s.fleet, v) ==> FlightOk(s, handed, v, id);
  }

  lemma ExpireFlights(s: State, id: Id, handed: set<Handout>)
    requires FlightsOk(s, handed) && id in s.requests
    ensures FlightsOk(Expire(s, id), handed)
  {
    if s.requests[id].state == RequestState.Queued {
      FlightsKept(s, Expire(s, id), id, Expire(s, id).requests[id], handed);
    }
  }

  lemma {:induction false} ExpireAllFlights(s: State, order: seq<Id>, handed: set<Handout>)
    requires FlightsOk(s, handed)
    ensures FlightsOk(ExpireAll(s, order), handed)
    decreases |order|
  {
    if order != [] {
      if order[0] in s.requests { ExpireFlights(s, order[0], handed); }
      ExpireAllFlights(if order[0] in s.requests then Expire(s, order[0]) else s, order[1..], handed);
    }
  }

  lemma ReserveOneFlights(s: State, id: Id, b: Id, handed: set<Handout>)
    requires FlightsOk(s, handed) && id in s.requests && s.requests[id].state == RequestState.Queued
    ensures FlightsOk(ReserveOne(s, id, b), handed)
  {
    forall v ensures id !in FlightAt(s.fleet, v) { NotInFlight(s, handed, id, v); }
    FlightsKept(s, ReserveOne(s, id, b), id, ReserveOne(s, id, b).requests[id], handed);
  }

  lemma {:induction false} ReserveAllFlights(s: State, members: seq<Id>, b: Id, handed: set<Handout>)
    requires FlightsOk(s, handed) && Distinct(members)
    requires forall i :: 0 <= i < |members| ==>
        members[i] in s.requests && s.requests[members[i]].state == RequestState.Queued
    ensures FlightsOk(ReserveAll(s, members, b), handed)
    decreases |members|
  {
    if members != [] {
      ReserveOneFlights(s, members[0], b, handed);
      ReserveAllFlights(ReserveOne(s, members[0], b), members[1..], b, handed);
    }
  }

  lemma FinishFlights(s: State, id: Id, w: Id, st: RequestState, a: AttemptState, handed: set<Handout>)
    requires FlightsOk(s, handed) && id in s.requests && IsTerminal(st)
    ensures FlightsOk(Finish(s, id, w, st, a), handed)
  {
    var s1 := Finish(s, id, w, st, a);
    forall v ensures FlightAt(s1.fleet, v) <= FlightAt(s.fleet, v)
        { ReleaseFlight(s.fleet, w, id, s.requests[id].batch, v); }
    FlightsKept(s, s1, id, s1.requests[id], handed);
  }

  lemma FinishCancelledFlights(s: State, id: Id, w: Id, handed: set<Handout>)
    requires FlightsOk(s, handed) && id in s.requests
    ensures FlightsOk(FinishCancelled(s, id, w), handed)
  {
    var s1 := FinishCancelled(s, id, w);
    if !IsTerminal(s.requests[id].state) {
      forall v ensures FlightAt(s1.fleet, v) <= FlightAt(s.fleet, v)
          { ReleaseFlight(s.fleet, w, id, s.requests[id].batch, v); }
      FlightsKept(s, s1, id, s1.requests[id], handed);
    }
  }

  lemma {:induction false} CancelAllFlights(s: State, order: seq<Id>, handed: set<Handout>)
    requires FlightsOk(s, handed)
    ensures FlightsOk(CancelAll(s, order), handed)
    decreases |order|
  {
    if order != [] {
      if order[0] in s.requests { FinishCancelledFlights(s, order[0], NO_ID, handed); }
      CancelAllFlights(if order[0] in s.requests then FinishCancelled(s, order[0], NO_ID) else s, order[1..], handed);
    }
  }

  lemma MakeRetryFlights(s: State, id: Id, w: Id, now: Time, handed: set<Handout>)
    requires FlightsOk(s, handed) && HandedOnce(handed) && id in s.requests && !IsTerminal(s.requests[id].state)
    requires Handout(w, id, s.requests[id].attempt, s.requests[id].generation) in handed
    ensures FlightsOk(MakeRetry(s, id, w, now), handed)
  {
    var s1 := MakeRetry(s, id, w, now);
    RetryShape(s, id, w, now);
    forall v ensures FlightAt(s1.fleet, v) <= FlightAt(s.fleet, v) && id !in FlightAt(s1.fleet, v) {
      ReleaseFlight(s.fleet, w, id, s.requests[id].batch, v);
      ReleasedNowhere(s, handed, w, id, v);
    }
    FlightsKept(s, s1, id, s1.requests[id], handed);
  }

  lemma ConfirmFlights(s: State, r: Report, handed: set<Handout>)
    requires FlightsOk(s, handed) && Handout(r.worker, r.request, r.attempt, r.generation) in handed
    ensures FlightsOk(Confirm(s, r), handed)
  {
    if ConfirmAnswer(s, r) == Confirmed {
      var s1 := Confirm(s, r);
      forall w, i | i in FlightAt(s1.fleet, w) ensures FlightOk(s1, handed, w, i) {
        NotInFlight(s, handed, r.request, w);
        if i != r.request { assert FlightOk(s, handed, w, i); }
      }
    }
  }

  lemma StaleFlights(s: State, r: Report, now: Time, handed: set<Handout>)
    requires RecordsOk(s) && FlightsOk(s, handed) && Screen(s, r).None? && r.status == Stale
    ensures FlightsOk(Complete(s, r, now), handed)
  {
    var s1 := Complete(s, r, now);
    forall v ensures FlightAt(s1.fleet, v) <= FlightAt(s.fleet, v) {
      ReleaseFlight(s.fleet, r.worker, r.request, s.requests[r.request].batch, v);
    }
    if s.requests[r.request].state != RequestState.Running {
      forall v ensures r.request !in FlightAt(s1.fleet, v) { NotInFlight(s, handed, r.request, v); }
    }
    FlightsKept(s, s1, r.request, s1.requests[r.request], handed);
  }

  lemma CompleteFlights(s: State, r: Report, now: Time, handed: set<Handout>)
    requires RecordsOk(s) && FlightsOk(s, handed) && HandedOnce(handed)
    requires Handout(r.worker, r.request, r.attempt, r.generation) in handed
    ensures FlightsOk(Complete(s, r, now), handed)
  {
    if Screen(s, r).None? {
      if r.status == Stale {
        StaleFlights(s, r, now, handed);
      } else if r.status == CancelledStatus || (r.status == Succeeded && s.requests[r.request].cancelRequested) {
        FinishCancelledFlights(s, r.request, r.worker, handed);
      } else if r.status == Succeeded {
        FinishFlights(s, r.request, r.worker, RequestState.Completed, AttemptSucceeded, handed);
      } else if r.status == ExpiredStatus {
        FinishFlights(s, r.request, r.worker, RequestState.Expired, AttemptExpired, handed);
      } else if Retryable(s.cfg, r.failure) && CanRetry(s, s.requests[r.request], now) {
        MakeRetryFlights(s, r.request, r.worker, now, handed);
      } else {
        FinishFlights(s, r.request, r.worker, RequestState.Failed, AttemptFailed, handed);
      }
    }
  }

  lemma CancelFlights(s: State, id: Id, handed: set<Handout>)
    requires RecordsOk(s) && FlightsOk(s, handed)
    ensures FlightsOk(Cancel(s, id), handed)
  {
    if CancelAnswer(s, id) == CancelAccepted {
      assert RecordOk(s.cfg, s.issued, s.requests[id]);
      if s.requests[id].state == RequestState.Running {
        FlightsKept(s, Cancel(s, id), id, Cancel(s, id).requests[id], handed);
      } else if s.requests[id].state == RequestState.Reserved {
        FinishCancelledFlights(s, id, LastWorker(s.requests[id].history), handed);
      } else {
        FinishCancelledFlights(s, id, NO_ID, handed);
      }
    }
  }

  lemma SubmitFlights(s: State, spec: Spec, pre: Option<Id>, now: Time, handed: set<Handout>)
    requires FlightsOk(s, handed) && FreshId(s, SubmitEvent(spec, pre, now))
    ensures FlightsOk(Submit(s, spec, pre, now), handed)
  {
    var s1 := Submit(s, spec, pre, now);
    forall w, i | i in FlightAt(s1.fleet, w) ensures FlightOk(s1, handed, w, i) {
      assert FlightOk(s, handed, w, i);
    }
  }

  // ----- restarts -----

  lemma RecoverOneProtocol(s: State, w: Id, id: Id, now: Time, handed: set<Handout>)
    requires ProtocolOk(s, handed) && id in FlightAt(s.fleet, w)
    ensures ProtocolOk(RecoverOne(s, w, id, now), handed)
    ensures forall i :: i != id && i in FlightAt(s.fleet, w) ==> i in FlightAt(RecoverOne(s, w, id, now).fleet, w)
  {
    assert FlightOk(s, handed, w, id);
    RecoverProgress(s, w, [id], now);
    assert RecoverRequests(s, w, [id], now) == RecoverRequests(RecoverOne(s, w, id, now), w, [], now);
    HandedKept(s, RecoverOne(s, w, id, now), handed);
    if !IsTerminal(s.requests[id].state) {
      ReleaseFlight(s.fleet, w, id, s.requests[id].batch, w);
      if CanRetry(s, s.requests[id], now) {
        RetryShape(s, id, w, now);
        MakeRetryQueue(s, id, w, now);
        MakeRetryFlights(s, id, w, now, handed);
      } else {
        FinishQueue(s, id, w, RequestState.Failed, AttemptFailed);
        FinishFlights(s, id, w, RequestState.Failed, AttemptFailed, handed);
      }
    }
  }

  lemma {:induction false} RecoverProtocol(s: State, w: Id, order: seq<Id>, now: Time, handed: set<Handout>)
    requires ProtocolOk(s, handed) && Distinct(order) && forall i :: 0 <= i < |order| ==>
        order[i] in FlightAt(s.fleet, w)
    ensures ProtocolOk(RecoverRequests(s, w, order, now), handed)
    decreases |order|
  {
    if order != [] {
      RecoverOneProtocol(s, w, order[0], now, handed);
      RecoverProtocol(RecoverOne(s, w, order[0], now), w, order[1..], now, handed);
    }
  }

  /** Changing worker records without adding work in flight keeps the protocol invariant. */
  lemma FleetOnly(s: State, s1: State, handed: set<Handout>)
    requires ProtocolOk(s, handed) && s1 == s.(fleet := s1.fleet, epoch := s1.epoch, draining := s1.draining)
    requires forall v :: FlightAt(s1.fleet, v) <= FlightAt(s.fleet, v)
    ensures ProtocolOk(s1, handed)
  {
    QueueSame(s, s1);
    forall w, i | i in FlightAt(s1.fleet, w) ensures FlightOk(s1, handed, w, i) {
      assert FlightOk(s, handed, w, i);
    }
  }

  lemma RecoverInFlightProtocol(s: State, w: Id, order: seq<Id>, now: Time, handed: set<Handout>)
    requires ProtocolOk(s, handed) && Enumerates(order, InFlightOn(s, w))
    ensures ProtocolOk(RecoverInFlight(s, w, order, now), handed)
  {
    if w in s.fleet.workers {
      forall i | 0 <= i < |order| ensures order[i] in FlightAt(s.fleet, w) { assert order[i] in order; }
      RecoverProtocol(s, w, order, now, handed);
      FleetOnly(RecoverRequests(s, w, order, now), RecoverInFlight(s, w, order, now), handed);
    }
  }

  lemma RegisterProtocol(s: State, reg: Registration, now: Time, order: seq<Id>, handed: set<Handout>)
    requires ProtocolOk(s, handed) && Enumerates(order, InFlightOn(s, reg.worker))
    ensures ProtocolOk(Register(s, reg, now, order), handed)
  {
    if IsRestart(s, reg) { RecoverInFlightProtocol(s, reg.worker, order, now, handed); }
    var s1 := if IsRestart(s, reg) then RecoverInFlight(s, reg.worker, order, now) else s;
    FleetOnly(s1, Register(s, reg, now, order), handed);
  }

  lemma UnregisterProtocol(s: State, w: Id, now: Time, order: seq<Id>, handed: set<Handout>)
    requires ProtocolOk(s, handed) && Enumerates(order, InFlightOn(s, w))
    ensures ProtocolOk(Unregister(s, w, now, order), handed)
  {
    if w in s.fleet.workers {
      RecoverInFlightProtocol(s, w, order, now, handed);
      FleetOnly(RecoverInFlight(s, w, order, now), Unregister(s, w, now, order), handed);
    }
  }

  // ----- dispatch hands attempts out -----

  lemma PlanFlights(s: State, request: Id, now: Time, order: seq<Id>, out: PlanResult, s1: State, handed: set<Handout>)
    requires RecordsOk(s) && FlightsOk(s, handed) && Plan(s, request, now, order, out, s1)
    ensures FlightsOk(s1, handed)
  {
    var s0 := ExpireAll(s, order);
    ExpireAllProgress(s, order);
    ExpireAllFlights(s, order, handed);
    if request in s0.requests && s0.requests[request].spec.Overdue(now) {
      ExpireFlights(s0, request, handed);
    } else if out.Dispatch? {
      assert RecordOk(s0.cfg, s0.issued, s0.requests[request]);
      var members, w :| PlanBatch(s0, request, now, members, w, out, s1);
      MembersQueued(s0, request, now, members);
      forall v, i | i in FlightAt(Open(s0, members, w).fleet, v) ensures FlightOk(Open(s0, members, w), handed, v, i) {
        assert FlightOk(s0, handed, v, i);
      }
      ReserveAllFlights(Open(s0, members, w), members, Fresh(s0, 1), handed);
    }
  }

  /** Every member of a dispatched batch was queued before and is reserved after, with the same attempt. */
  lemma {:induction false} ReserveAllEffect(s: State, members: seq<Id>, b: Id, id: Id)
    requires Distinct(members) && id in s.requests
    requires forall i :: 0 <= i < |members| ==> members[i] in s.requests
    ensures id in ReserveAll(s, members, b).requests
    ensures id !in members ==> ReserveAll(s, members, b).requests[id] == s.requests[id]
    ensures id in members ==>
              ReserveAll(s, members, b).requests[id] ==
              s.requests[id].(state := RequestState.Reserved, batch := Some(b),
                              history := WithLast(s.requests[id].history, AttemptReserved))
    decreases |members|
  {
    if members != [] {
      ReserveAllEffect(ReserveOne(s, members[0], b), members[1..], b, id);
    }
  }

  lemma {:induction false} ReserveAllFrame(s: State, members: seq<Id>, b: Id)
    ensures ReserveAll(s, members, b).requests.Keys == s.requests.Keys && ReserveAll(s, members, b).fleet == s.fleet
    ensures ReserveAll(s, members, b).cfg == s.cfg && ReserveAll(s, members, b).issued == s.issued
    decreases |members|
  {
    if members != [] {
      ReserveAllFrame(if members[0] in s.requests then ReserveOne(s, members[0], b) else s, members[1..], b);
    }
  }

  /** What a dispatch hands out: attempts of requests that were queued until now. */
  lemma DispatchHands(s: State, request: Id, now: Time, out: PlanResult, s1: State)
    requires RecordsOk(s) && PlanOn(s, request, now, out, s1) && out.Dispatch?
    ensures forall m :: m in out.members ==>
              && m in s.requests && s.requests[m].state == RequestState.Queued
              && m in s1.requests && s1.requests[m].state == RequestState.Reserved
              && s1.requests[m].attempt == s.requests[m].attempt
                  && s1.requests[m].generation == s.requests[m].generation
  {
    assert RecordOk(s.cfg, s.issued, s.requests[request]);
    var members, w :| PlanBatch(s, request, now, members, w, out, s1);
    MembersQueued(s, request, now, members);
    forall m | m in out.members ensures m in s1.requests && s1.requests[m].state == RequestState.Reserved
      && s1.requests[m].attempt == s.requests[m].attempt && s1.requests[m].generation == s.requests[m].generation
    {
      ReserveAllEffect(Open(s, members, w), members, Fresh(s, 1), m);
    }
  }

  lemma PlanHands(s: State, request: Id, now: Time, order: seq<Id>, out: PlanResult, s1: State, handed: set<Handout>)
    requires ProtocolOk(s, handed) && Plan(s, request, now, order, out, s1)
    ensures HandedOk(s1, handed + HandedBy(PlanEvent(request, now, order, out), s1))
    ensures HandedOnce(handed + HandedBy(PlanEvent(request, now, order, out), s1))
  {
    hide RecordsOk, QueueOk, FlightsOk, Evolves, PlanOn, ExpireAll, Enumerates, Due;
    var s0 := ExpireAll(s, order);
    PlanProgress(s, request, now, order, out, s1);
    HandedKept(s, s1, handed);
    ExpireAllProgress(s, order);
    HandedKept(s, s0, handed);
    if out.Dispatch? {
      DispatchHands(s0, request, now, out, s1);
      forall m | m in out.members ensures Spent(s1.cfg, s1.issued, s1.requests[m].attempt) { AttemptIsSpent(s1, m); }
    }
  }

  lemma AttemptIsSpent(s: State, id: Id)
    requires RecordsOk(s) && id in s.requests && !IsTerminal(s.requests[id].state)
    ensures Spent(s.cfg, s.issued, s.requests[id].attempt)
  {
    assert RecordOk(s.cfg, s.issued, s.requests[id]);
    assert s.requests[id].attempt == s.requests[id].history[|s.requests[id].history| - 1].id;
  }

  // ----- the theorem -----

  lemma StepQueue(s: State, e: Event, s1: State, handed: set<Handout>)
    requires ProtocolOk(s, handed) && EnvOk(s, e, handed) && Step(s, e, s1)
    ensures QueueOk(s1)
  {
    hide Submit, Plan, Pick, Confirm, Complete, Cancel, CancelAll, Register, Unregister, QueueOk, RecordsOk, HandedOnce,
         FlightsOk;
    match e
    case SubmitEvent(spec, pre, now) => SubmitQueue(s, spec, pre, now);
    case PickEvent(now, order, seed) => PickQueue(s, now, order, seed, s1);
    case PlanEvent(request, now, order, out) => PlanQueue(s, request, now, order, out, s1);
    case ConfirmEvent(r) => ConfirmQueue(s, r);
    case CompleteEvent(r, now) => CompleteQueue(s, r, now);
    case CancelEvent(id) => CancelQueue(s, id);
    case CancelAllEvent(order) => CancelAllQueue(s, order);
    case RegisterEvent(reg, now, order) => RegisterProtocol(s, reg, now, order, handed);
    case UnregisterEvent(w, now, order) => UnregisterProtocol(s, w, now, order, handed);
    case _ => QueueSame(s, s1);
  }

  lemma StepFlights(s: State, e: Event, s1: State, handed: set<Handout>)
    requires ProtocolOk(s, handed) && EnvOk(s, e, handed) && Step(s, e, s1)
    ensures FlightsOk(s1, handed)
  {
    hide Submit, Plan, Confirm, Complete, Cancel, CancelAll, Register, Unregister, QueueOk, RecordsOk, HandedOk,
         FlightsOk;
    match e
    case SubmitEvent(spec, pre, now) => SubmitFlights(s, spec, pre, now, handed);
    case PickEvent(now, order, seed) =>
      ExpireAllFlights(s, order, handed);
      FlightsSame(ExpireAll(s, order), s1, handed);
    case PlanEvent(request, now, order, out) => PlanFlights(s, request, now, order, out, s1, handed);
    case ConfirmEvent(r) => ConfirmFlights(s, r, handed);
    case CompleteEvent(r, now) => CompleteFlights(s, r, now, handed);
    case CancelEvent(id) => CancelFlights(s, id, handed);
    case CancelAllEvent(order) => CancelAllFlights(s, order, handed);
    case RegisterEvent(reg, now, order) => RegisterProtocol(s, reg, now, order, handed);
    case UnregisterEvent(w, now, order) => UnregisterProtocol(s, w, now, order, handed);
    case _ => FleetOnly(s, s1, handed);
  }

  lemma StepProtocol(s: State, e: Event, s1: State, handed: set<Handout>)
    requires ProtocolOk(s, handed) && EnvOk(s, e, handed) && Step(s, e, s1)
    ensures ProtocolOk(s1, handed + HandedBy(e, s1))
  {
    hide Submit, Plan, Pick, Confirm, Complete, Cancel, CancelAll, Register, Unregister, QueueOk, RecordsOk, FlightsOk,
         HandedOk, HandedOnce, Evolves;
    StepProgress(s, e, s1);
    HandedKept(s, s1, handed);
    StepQueue(s, e, s1, handed);
    StepFlights(s, e, s1, handed);
    if e.PlanEvent? {
      PlanHands(s, e.request, e.now, e.order, e.out, s1, handed);
      MoreHanded(s1, handed, handed + HandedBy(e, s1));
    } else {
      assert handed + HandedBy(e, s1) == handed;
    }
  }

  lemma FlightsSame(s: State, s1: State, handed: set<Handout>)
    requires FlightsOk(s, handed) && s1.requests == s.requests && s1.fleet == s.fleet
    ensures FlightsOk(s1, handed)
  {
    forall w, i | i in FlightAt(s1.fleet, w) ensures FlightOk(s1, handed, w, i) {
      assert FlightOk(s, handed, w, i);
    }
  }

  lemma MoreHanded(s: State, handed: set<Handout>, more: set<Handout>)
    requires FlightsOk(s, handed) && handed <= more
    ensures FlightsOk(s, more)
  {
    forall w, i | i in FlightAt(s.fleet, w) ensures FlightOk(s, more, w, i) {
      assert FlightOk(s, handed, w, i);
    }
  }

  /** Everything handed out before state i of a run. */
  ghost function Handed(tr: Trace, i: nat): set<Handout>
    requires |tr.states| == |tr.events| + 1 && i < |tr.states|
  {
    if i == 0 then {} else Handed(tr, i - 1) + HandedBy(tr.events[i - 1], tr.states[i])
  }

  ghost predicate ProtocolRun(tr: Trace) {
    IsRun(tr) && forall i :: 0 <= i < |tr.events| ==> EnvOk(tr.states[i], tr.events[i], Handed(tr, i))
  }

  /** Whatever was handed out was handed out for a known request. */
  lemma {:induction false} HandedKnown(tr: Trace, i: nat)
    requires ProtocolRun(tr) && i < |tr.states|
    ensures forall h :: h in Handed(tr, i) ==> h.request in tr.states[i].requests
  {
    hide ProtocolOk, Step;
    if i > 0 {
      HandedKnown(tr, i - 1);
      RunProtocol(tr, i - 1);
      StepKeepsRequests(tr.states[i - 1], tr.events[i - 1], tr.states[i], Handed(tr, i - 1));
    }
  }

  lemma StepKeepsRequests(s: State, e: Event, s1: State, handed: set<Handout>)
    requires ProtocolOk(s, handed) && EnvOk(s, e, handed) && Step(s, e, s1)
    ensures s.requests.Keys <= s1.requests.Keys
  {
    hide Step, FreshId, QueueOk, HandedOk, HandedOnce, FlightsOk, RecordsOk;
    StepProgress(s, e, s1);
  }

  lemma {:induction false} RunProtocol(tr: Trace, i: nat)
    requires ProtocolRun(tr) && i < |tr.states|
    ensures ProtocolOk(tr.states[i], Handed(tr, i))
  {
    if i > 0 {
      RunProtocol(tr, i - 1);
      StepProtocol(tr.states[i - 1], tr.events[i - 1], tr.states[i], Handed(tr, i - 1));
    }
  }

  /** In every state of every run with such an environment: the current attempt of a queued
      request was never handed to a worker, no attempt was handed out twice, the queued set is
      exactly the requests in state Queued, the counter is its size, and the compatibility
      index partitions it by key. */
  lemma QueueIsSafe(tr: Trace, i: nat)
    requires ProtocolRun(tr) && i < |tr.states|
    ensures var s := tr.states[i];
            && (forall h :: h in Handed(tr, i) ==>
                  && h.request in s.requests
                  && (s.requests[h.request].state == RequestState.Queued ==>
                      h.attempt != s.requests[h.request].attempt))
            && HandedOnce(Handed(tr, i))
            && s.index.queued == QueuedIds(s.requests)
            && s.index.size == |QueuedIds(s.requests)|
            && (forall c :: BucketAt(s.index, c) == CompatibleIds(s.cfg, s.requests, c))
            && (forall c :: c in s.index.compat ==> s.index.compat[c] != {})
  {
    RunProtocol(tr, i);
    HandedKnown(tr, i);
    hide ProtocolRun, Handed, RecordsOk, FlightsOk, HeapsAgree;
    var s := tr.states[i];
    forall h | h in Handed(tr, i) && s.requests[h.request].state == RequestState.Queued
      ensures h.attempt != s.requests[h.request].attempt
    {
      assert HandoutOk(s, h);
    }
  }

  /** In every such state every queued request has exactly one heap entry of its current generation,
      in its own flow and in no other, and a flow is active exactly when its heap is not empty. */
  lemma HeapsFollowQueue(tr: Trace, i: nat)
    requires ProtocolRun(tr) && i < |tr.states|
    ensures var s := tr.states[i];
            && (forall id :: id in QueuedIds(s.requests) ==>
                  HeapAt(s.fair, FlowKeyOf(s.requests[id].spec))[EntryOf(id, s.requests[id])] == 1)
            && (forall k, e :: e in HeapAt(s.fair, k) && e.id in QueuedIds(s.requests) &&
                               e.generation == s.requests[e.id].generation ==>
                  k == FlowKeyOf(s.requests[e.id].spec) && e == EntryOf(e.id, s.requests[e.id]))
            && (forall k :: k in s.fair.active <==> HeapAt(s.fair, k) != multiset{})
  {
    RunProtocol(tr, i);
    hide ProtocolRun, RecordsOk, HandedOk, HandedOnce, FlightsOk;
    var s := tr.states[i];
    forall id | id in QueuedIds(s.requests)
      ensures HeapAt(s.fair, FlowKeyOf(s.requests[id].spec))[EntryOf(id, s.requests[id])] == 1
    {
      assert HasOneEntry(s.requests, s.fair, id);
    }
    forall k, e | e in HeapAt(s.fair, k) && e.id in QueuedIds(s.requests) && e.generation == s.requests[e.id].generation
      ensures k == FlowKeyOf(s.requests[e.id].spec) && e == EntryOf(e.id, s.requests[e.id])
    {
      assert EntryOk(s.requests, s.index.queued, k, e, s.cfg, s.issued);
    }
  }
}
