/** The in-process driver: it plans, runs and completes one batch at a time until
    the queue is empty. */
module Driver {
  import opened Types
  import opened Collections
  import opened ReadyQueue
  import opened Batching
  import opened Machine
  import opened Lifecycle
  import opened Protocol
  import opened Baseline
  import opened Drain
  import opened Schedulers

  datatype WorkItem = WorkItem(request: Id, attempt: Id, generation: Id)
  datatype WorkResult = WorkResult(item: WorkItem, status: Status, failure: FailureClass)

  /** The executor answers every item in order, and every answer is success. */
  ghost predicate Succeeds(run: seq<WorkItem> -> seq<WorkResult>) {
    forall items :: |run(items)| == |items| &&
      forall i :: 0 <= i < |items| ==> run(items)[i].item == items[i] && run(items)[i].status == Succeeded
  }

  /** The items a batch turns into. */
  ghost predicate ItemsOf(s: State, members: seq<Id>, items: seq<WorkItem>) {
    && |items| == |members|
    && forall i :: 0 <= i < |members| ==>
         members[i] in s.requests &&
         items[i] == WorkItem(members[i], s.requests[members[i]].attempt, s.requests[members[i]].generation)
  }

  class LocalDriver {
    const sched: Scheduler
    const run: seq<WorkItem> -> seq<WorkResult>
    const workers: seq<Registration>
    var avail: seq<int>
    var batchesRun: nat
    var requestsCompleted: nat

    ghost predicate Valid()
      reads this, sched
    {
      sched.Valid() && |avail| == |workers|
    }

    constructor (sched: Scheduler, run: seq<WorkItem> -> seq<WorkResult>, workers: seq<Registration>)
      requires sched.Valid()
      ensures Valid() && this.sched == sched && this.run == run && this.workers == workers
      ensures forall i :: 0 <= i < |workers| ==> avail[i] == workers[i].capability.available
      ensures batchesRun == 0 && requestsCompleted == 0
    {
      this.sched, this.run, this.workers := sched, run, workers;
      avail := seq(|workers|, i requires 0 <= i < |workers| => workers[i].capability.available);
      batchesRun, requestsCompleted := 0, 0;
    }

    /** The first registration of a worker. */
    method FindWorker(id: Id) returns (found: Option<Registration>)
      ensures found.None? ==> forall i :: 0 <= i < |workers| ==> workers[i].worker != id
      ensures found.Some? ==> exists i :: 0 <= i < |workers| && workers[i] == found.value && workers[i].worker == id &&
                                          forall j :: 0 <= j < i ==> workers[j].worker != id
    {
      var i := 0;
      while i < |workers|
        invariant 0 <= i <= |workers| && forall j :: 0 <= j < i ==> workers[j].worker != id
      {
        if workers[i].worker == id { return Some(workers[i]); }
        i := i + 1;
      }
      return None;
    }

    method SetAvailableUnits(worker: Id, units: int)
      requires Valid()
      modifies this`avail
      ensures Valid()
      ensures forall i :: 0 <= i < |workers| ==>
                avail[i] == if workers[i].worker == worker && (forall j :: 0 <= j < i ==> workers[j].worker != worker)
                            then units else old(avail)[i]
    {
      var i := 0;
      while i < |workers|
        invariant 0 <= i <= |workers| && avail == old(avail) && forall j :: 0 <= j < i ==> workers[j].worker != worker
      {
        if workers[i].worker == worker {
          avail := avail[i := units];
          return;
        }
        i := i + 1;
      }
    }

    /** The driver knows worker w under its boot identity in s, and reports the available units that
        s has on record for it. */
    ghost predicate Knows(s: State, w: Id)
      reads this
    {
      && w in s.fleet.workers
      && |workers| >= 1 && |avail| >= 1 && avail[0] == s.fleet.workers[w].available
      && (exists i :: 0 <= i < |workers| && workers[i].worker == w)
      && (forall i :: 0 <= i < |workers| && workers[i].worker == w ==> workers[i].boot == s.fleet.workers[w].boot)
    }

    /** The driver serves the scheduler's only worker, and its executor succeeds. */
    ghost predicate Serves(w: Id)
      reads this, sched
    {
      Valid() && Ready(sched.View(), w) && Succeeds(run) && Knows(sched.View(), w)
    }

    /** Look up what the executor needs to know about every member. */
    method Collect(members: seq<Id>) returns (items: seq<WorkItem>)
      ensures (forall i :: 0 <= i < |members| ==> members[i] in sched.requests) ==>
          ItemsOf(sched.View(), members, items)
    {
      items := [];
      var i := 0;
      while i < |members|
        invariant 0 <= i <= |members|
        invariant (forall j :: 0 <= j < |members| ==> members[j] in sched.requests) ==>
            ItemsOf(sched.View(), members[..i], items)
      {
        if members[i] in sched.requests {
          var rec := sched.requests[members[i]];
          items := items + [WorkItem(members[i], rec.attempt, rec.generation)];
        }
        i := i + 1;
      }
      assert members[..|members|] == members;
    }

    /** Report every item as started. */
    method ConfirmAll(items: seq<WorkItem>, w: Id, boot: Id, ghost live: bool, ghost round: Round)
      requires Valid() && |avail| >= 1
      requires live ==> InRound(round, sched.View(), w, boot, avail[0], items, 0, 0)
      modifies sched
      ensures Valid()
      ensures live ==> InRound(round, sched.View(), w, boot, avail[0], items, |items|, 0)
    {
      hide InRound, Confirm, ConfirmAnswer;
      var i := 0;
      while i < |items|
        invariant 0 <= i <= |items| && Valid() && avail == old(avail)
        invariant live ==> InRound(round, sched.View(), w, boot, avail[0], items, i, 0)
      {
        ghost var s := sched.View();
        var r := Report(sched.epoch, w, boot, items[i].request, items[i].attempt, items[i].generation, Succeeded,
            Internal, avail[0]);
        var answer := sched.ConfirmStart(r);
        if live { RoundConfirms(round, s, w, boot, avail[0], items, i, r); }
        i := i + 1;
      }
    }

    /** Report every result, and count those accepted. */
    method CompleteAll(results: seq<WorkResult>, w: Id, boot: Id, now: Time,
                       ghost live: bool, ghost round: Round, ghost items: seq<WorkItem>)
      requires Valid() && |avail| >= 1
      requires live ==> InRound(round, sched.View(), w, boot, avail[0], items, |items|, 0)
      requires live ==> |results| == |items| && forall i :: 0 <= i < |items| ==>
          results[i].item == items[i] && results[i].status == Succeeded
      modifies sched, this`requestsCompleted
      ensures Valid()
      ensures live ==> InRound(round, sched.View(), w, boot, avail[0], items, |items|, |items|)
      ensures live ==> requestsCompleted == old(requestsCompleted) + |items|
    {
      hide InRound, Complete, CompleteAnswer;
      var i := 0;
      while i < |results|
        invariant 0 <= i <= |results| && Valid() && avail == old(avail)
        invariant live ==> InRound(round, sched.View(), w, boot, avail[0], items, |items|, i)
        invariant live ==> requestsCompleted == old(requestsCompleted) + i
      {
        ghost var s := sched.View();
        var x := results[i];
        var r := Report(sched.epoch, w, boot, x.item.request, x.item.attempt, x.item.generation, x.status, x.failure,
            0);
        var answer := sched.CompleteAttempt(r, now);
        if live { RoundCompletes(round, s, now, w, boot, avail[0], items, i, r); }
        if answer == Accepted { requestsCompleted := requestsCompleted + 1; }
        i := i + 1;
      }
    }

    /** Run a planned batch and report on it. */
    method RunBatch(v: Id, members: seq<Id>, now: Time, ghost live: bool, ghost round: Round)
      returns (ran: bool)
      requires Valid()
      requires live ==>
          Succeeds(run) && Knows(round.s0, v) && round.members == members && Launched(round, sched.View(), v)
      modifies this`requestsCompleted, sched
      ensures Valid()
      ensures live ==> ran && Landed(round, sched.View(), v)
    {
      hide InRound, Launched, Landed, Succeeds;
      var reg := FindWorker(v);
      if reg.None? || members == [] {
        if live { LaunchedMembers(round, sched.View(), v); }
        return false;
      }
      var items := Collect(members);
      if live { ItemsReady(round, sched.View(), v, items); }
      if items == [] { return false; }
      var results := run(items);
      if live { RunSucceeds(run, items); }
      ConfirmAll(items, v, reg.value.boot, live, round);
      CompleteAll(results, v, reg.value.boot, now, live, round, items);
      if live { RoundCloses(round, sched.View(), v, reg.value.boot, avail[0], items); }
      return true;
    }

    /** Plan, run and complete one batch. */
    method DispatchOne(now: Time, ghost w: Id) returns (ran: bool)
      requires Valid()
      modifies this, sched
      ensures Valid() && batchesRun == old(batchesRun) + (if ran then 1 else 0)
      ensures old(Serves(w)) ==> Serves(w) && Advances(old(sched.View()), sched.View(), ran)
    {
      hide Plan, Pick, Ready, Launched, Landed, Succeeds, Advances;
      ghost var live := Serves(w);
      ghost var s := sched.View();
      var out, seed, mid, order, order1 := sched.PlanNext(now, now);
      if !out.Dispatch? {
        if live { Stops(s, w, now, order, seed, mid, order1, out, sched.View()); }
        return false;
      }
      ghost var round := Round(mid, 0, 0, []);
      if live { round := Launch(s, w, now, order, seed, mid, order1, out, sched.View()); }
      ran := RunBatch(out.worker, out.members, now, live, round);
      if ran { batchesRun := batchesRun + 1; }
      if live { Lands(s, round, sched.View(), w); }
    }

    /** Dispatch batches until the queue is empty, nothing can be dispatched, or the budget is used
        up. With one online worker that can run everything, a succeeding executor, a fixed clock
        and a budget of at least the queue length, every queued request ends completed or expired
        and the worker holds nothing. */
    method RunUntilIdle(maxBatches: nat, now: Time, ghost w: Id) returns (n: nat)
      requires Valid()
      modifies this, sched
      ensures Valid() && n == batchesRun <= old(batchesRun) + maxBatches
      ensures old(Serves(w)) ==> Serves(w) && Drains(old(sched.View()), sched.View())
      ensures old(Serves(w)) && maxBatches >= |QueuedIds(old(sched.requests))| ==>
                && FullyDrained(old(sched.View()), sched.View())
                && w in sched.workers && Idle(sched.workers[w]) && sched.globalReserved == 0 && sched.globalRunning == 0
    {
      hide Ready, Drains, Succeeds, Knows, FullyDrained;
      ghost var live := Serves(w);
      ghost var s := sched.View();
      if live { DrainsSelf(s); }
      var b := 0;
      var stopped := false;
      while b < maxBatches && !stopped
        invariant 0 <= b <= maxBatches && Valid() && batchesRun == old(batchesRun) + b
        invariant live ==>
            Serves(w) && Drains(s, sched.View()) && b + |QueuedIds(sched.requests)| <= |QueuedIds(s.requests)|
        invariant live && stopped ==> QueuedIds(sched.requests) == {}
        decreases maxBatches - b, !stopped
      {
        ghost var before := sched.View();
        var queued := sched.QueuedCount();
        if queued == 0 {
          stopped := true;
          if live { QueueCounted(before, w); }
        } else {
          var ran := DispatchOne(now, w);
          if live { DrainsTrans(s, before, sched.View()); }
          if ran { b := b + 1; } else { stopped := true; }
        }
      }
      if live {
        HoldsNothing(sched.View(), w);
        if maxBatches >= |QueuedIds(s.requests)| { DrainedWhenEmpty(s, sched.View()); }
      }
      n := batchesRun;
    }
  }

  /** What one round does: the queue shrinks, or there was nothing left to run. */
  ghost predicate Advances(s: State, s1: State, ran: bool) {
    && Drains(s, s1)
    && (if ran then |QueuedIds(s1.requests)| < |QueuedIds(s.requests)| else QueuedIds(s1.requests) == {})
  }

  /** The queue is empty, what was queued is completed or expired, and nothing else changed. */
  ghost predicate FullyDrained(s: State, s1: State) {
    && Drains(s, s1) && QueuedIds(s1.requests) == {}
    && forall id :: id in QueuedIds(s.requests) ==>
         s1.requests[id].state == RequestState.Completed || s1.requests[id].state == RequestState.Expired
  }

  lemma DrainedWhenEmpty(s: State, s1: State)
    requires Drains(s, s1) && QueuedIds(s1.requests) == {}
    ensures FullyDrained(s, s1)
  {
    forall id | id in QueuedIds(s.requests)
      ensures s1.requests[id].state == RequestState.Completed || s1.requests[id].state == RequestState.Expired
    {
      assert id !in QueuedIds(s1.requests);
    }
  }

  /** The counter of queued requests is the size of the queue. */
  lemma QueueCounted(s: State, w: Id)
    requires Ready(s, w)
    ensures s.index.size == |QueuedIds(s.requests)|
  {
  }

  lemma HoldsNothing(s: State, w: Id)
    requires Ready(s, w)
    ensures w in s.fleet.workers && Idle(s.fleet.workers[w]) && s.fleet.reserved == 0 && s.fleet.running == 0
  {
  }

  /** The batch has just been planned. */
  ghost predicate Launched(round: Round, s: State, w: Id) {
    && Ready(round.s0, w) && Possible(round.s0.cfg, round.s0.requests, round.members) && round.units >= 1
    && BatchRuns(round.s0, s, w, round.b, round.units, round.members, 0, 0)
    && RecordsOk(s) && QueueOk(s)
  }

  /** The batch is over. */
  ghost predicate Landed(round: Round, s: State, w: Id) {
    && Ready(s, w) && Drains(round.s0, s) && |QueuedIds(s.requests)| < |QueuedIds(round.s0.requests)|
    && w in s.fleet.workers && w in round.s0.fleet.workers
    && s.fleet.workers[w].boot == round.s0.fleet.workers[w].boot
    && s.fleet.workers[w].available == round.s0.fleet.workers[w].available
  }

  lemma RunSucceeds(run: seq<WorkItem> -> seq<WorkResult>, items: seq<WorkItem>)
    requires Succeeds(run)
    ensures |run(items)| == |items|
    ensures forall i :: 0 <= i < |items| ==> run(items)[i].item == items[i] && run(items)[i].status == Succeeded
  {
  }

  lemma LaunchedMembers(round: Round, s: State, w: Id)
    requires Launched(round, s, w)
    ensures round.members != [] && forall i :: 0 <= i < |round.members| ==> round.members[i] in s.requests
  {
    forall i | 0 <= i < |round.members| ensures round.members[i] in s.requests {
      assert MemberAt(round.s0, s, round.b, round.members[i], Stage(i, 0, 0));
    }
  }

  lemma ItemsReady(round: Round, s: State, w: Id, items: seq<WorkItem>)
    requires Launched(round, s, w) && w in round.s0.fleet.workers
    requires (forall i :: 0 <= i < |round.members| ==> round.members[i] in s.requests) ==>
        ItemsOf(s, round.members, items)
    ensures items != []
    ensures InRound(round, s, w, round.s0.fleet.workers[w].boot, round.s0.fleet.workers[w].available, items, 0, 0)
  {
    LaunchedMembers(round, s, w);
    hide RecordsOk, QueueOk, Ready, BooksAt, Suffices;
    forall i | 0 <= i < |round.members|
      ensures && round.members[i] in round.s0.requests
              && items[i] == WorkItem(round.members[i], round.s0.requests[round.members[i]].attempt,
                                      round.s0.requests[round.members[i]].generation)
    {
      assert MemberAt(round.s0, s, round.b, round.members[i], Stage(i, 0, 0));
    }
  }

  /** After the selection and the plan the batch is on its way. */
  lemma Launch(s: State, w: Id, now: Time, order: seq<Id>, seed: Option<Id>, mid: State, order1: seq<Id>,
      out: PlanResult, s1: State)
    returns (round: Round)
    requires Ready(s, w) && Pick(s, now, order, seed, mid) && out.Dispatch?
    requires if seed.None? then out == Hold && s1 == mid else Plan(mid, seed.value, now, order1, out, s1)
    ensures out.worker == w && round.members == out.members && Launched(round, s1, w)
    ensures round.s0 == mid && mid.fleet == s.fleet && Drains(s, mid)
        && |QueuedIds(mid.requests)| <= |QueuedIds(s.requests)|
  {
    hide Ready, Pick, Plan, RecordsOk, QueueOk, BatchRuns, Drains, BatchUnits;
    PickStaysReady(s, w, now, order, seed, mid);
    RoundStarts(mid, w, seed.value, now, order1, out, s1);
    round := Round(mid, out.batch, BatchUnits(mid.requests, out.members), out.members);
    SubsetSize(QueuedIds(mid.requests), QueuedIds(s.requests));
  }

  /** The driver stops only when nothing runnable is queued. */
  lemma Stops(s: State, w: Id, now: Time, order: seq<Id>, seed: Option<Id>, mid: State, order1: seq<Id>,
      out: PlanResult, s1: State)
    requires Ready(s, w) && Pick(s, now, order, seed, mid) && !out.Dispatch?
    requires if seed.None? then out == Hold && s1 == mid else Plan(mid, seed.value, now, order1, out, s1)
    ensures Ready(s1, w) && s1.fleet == s.fleet && Advances(s, s1, false)
  {
    hide Ready, Pick, Plan, RecordsOk, QueueOk, BatchRuns, Drains;
    PickStaysReady(s, w, now, order, seed, mid);
    if seed.Some? { RoundStarts(mid, w, seed.value, now, order1, out, s1); }
  }

  lemma Lands(s: State, round: Round, s1: State, w: Id)
    requires Drains(s, round.s0) && |QueuedIds(round.s0.requests)| <= |QueuedIds(s.requests)| && Landed(round, s1, w)
    ensures Ready(s1, w) && Advances(s, s1, true)
    ensures w in s1.fleet.workers && w in round.s0.fleet.workers
    ensures s1.fleet.workers[w].boot == round.s0.fleet.workers[w].boot
    ensures s1.fleet.workers[w].available == round.s0.fleet.workers[w].available
  {
    hide Ready;
    DrainsTrans(s, round.s0, s1);
  }

  lemma RoundCloses(round: Round, s: State, w: Id, boot: Id, available: int, items: seq<WorkItem>)
    requires InRound(round, s, w, boot, available, items, |items|, |items|)
    ensures Landed(round, s, w)
  {
    BatchEnds(round.s0, s, w, round.b, round.units, round.members);
    var m := round.members[0];
    assert m in QueuedIds(round.s0.requests) && m in Elements(round.members);
    hide Ready, RecordsOk, QueueOk, Drains;
    assert QueuedIds(s.requests) < QueuedIds(round.s0.requests);
    SmallerQueue(QueuedIds(s.requests), QueuedIds(round.s0.requests));
  }

  lemma SmallerQueue(a: set<Id>, b: set<Id>)
    requires a < b
    ensures |a| < |b|
  {
    assert b == a + (b - a);
    assert b - a != {};
  }

  /** A batch on its way: the state it was planned in, its batch, units and members. */
  datatype Round = Round(s0: State, b: Id, units: int, members: seq<Id>)

  ghost predicate InRound(round: Round, s: State, w: Id, boot: Id, available: int, items: seq<WorkItem>, started: nat,
      done: nat) {
    && Ready(round.s0, w) && Possible(round.s0.cfg, round.s0.requests, round.members) && round.units >= 1
    && ItemsOf(round.s0, round.members, items)
    && boot == round.s0.fleet.workers[w].boot && available == round.s0.fleet.workers[w].available
    && BatchRuns(round.s0, s, w, round.b, round.units, round.members, started, done)
    && RecordsOk(s) && QueueOk(s)
  }

  lemma RoundConfirms(round: Round, s: State, w: Id, boot: Id, available: int, items: seq<WorkItem>, k: nat, r: Report)
    requires InRound(round, s, w, boot, available, items, k, 0) && k < |items|
    requires r == Report(s.epoch, w, boot, items[k].request, items[k].attempt, items[k].generation, Succeeded, Internal,
        available)
    ensures InRound(round, Confirm(s, r), w, boot, available, items, k + 1, 0)
  {
    hide BatchRuns, QueueOk, Confirm, BooksAt, RecordsOk, Ready, Idle;
    assert round.s0.fleet.workers.Keys == {w} by { ReadyWorker(round.s0, w); }
    assert Distinct(round.members);
    ConfirmsNext(round.s0, s, w, round.b, round.units, round.members, k, r);
    ConfirmProgress(s, r);
    ConfirmQueue(s, r);
  }

  lemma ReadyWorker(s: State, w: Id)
    requires Ready(s, w)
    ensures s.fleet.workers.Keys == {w}
  {
  }

  lemma RoundCompletes(round: Round, s: State, now: Time, w: Id, boot: Id, available: int, items: seq<WorkItem>, k: nat,
      r: Report)
    requires InRound(round, s, w, boot, available, items, |items|, k) && k < |items|
    requires r == Report(s.epoch, w, boot, items[k].request, items[k].attempt, items[k].generation, Succeeded,
        r.failure, r.available)
    ensures CompleteAnswer(s, r) == Accepted
    ensures InRound(round, Complete(s, r, now), w, boot, available, items, |items|, k + 1)
  {
    hide BatchRuns, QueueOk, Complete, CompleteAnswer, BooksAt, RecordsOk, Ready, Idle;
    assert round.s0.fleet.workers.Keys == {w} by { ReadyWorker(round.s0, w); }
    assert Distinct(round.members);
    CompletesNext(round.s0, s, now, w, round.b, round.units, round.members, k, r);
    MemberNotQueued(round.s0, s, w, round.b, round.units, round.members, k);
    CompleteProgress(s, r, now);
    CompleteQueue(s, r, now);
  }

  lemma MemberNotQueued(s0: State, s: State, w: Id, b: Id, units: int, members: seq<Id>, k: nat)
    requires BatchRuns(s0, s, w, b, units, members, |members|, k) && k < |members|
    ensures members[k] in s.requests && s.requests[members[k]].state == RequestState.Running
  {
    assert MemberAt(s0, s, b, members[k], Stage(k, |members|, k));
  }
}
