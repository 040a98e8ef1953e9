/** Workers and the capacity units they hold: reservations per batch, batches
    that have started, pending members per batch and the global totals. */
module Fleets {
  import opened Types
  import opened Collections

  datatype Worker = Worker(
    boot: Id, capability: Capability, state: WorkerState, available: int,
    reserved: int, running: int,
    batchUnits: map<Id, int>, batchPending: map<Id, int>, started: set<Id>, inFlight: set<Id>)

  datatype Fleet = Fleet(workers: map<Id, Worker>, reserved: int, running: int)

  const EMPTY_FLEET: Fleet := Fleet(map[], 0, 0)

  function Clamp(x: int): int { if x < 0 then 0 else x }

  // ----- operations -----

  /** Reserve units for a fresh batch of n members on worker w. */
  function OpenBatch(f: Fleet, w: Id, b: Id, units: int, n: int): Fleet
    requires w in f.workers
  {
    var r := f.workers[w];
    Fleet(f.workers[w := r.(reserved := r.reserved + units,
                            batchUnits := r.batchUnits[b := units],
                            batchPending := r.batchPending[b := n])],
          f.reserved + units, f.running)
  }

  /** The first confirmed member of a batch turns its reservation into running units. */
  function StartBatch(f: Fleet, w: Id, b: Id): Fleet
    requires w in f.workers
  {
    var r := f.workers[w];
    if b in r.started then f
    else
      var units := if b in r.batchUnits then r.batchUnits[b] else 0;
      Fleet(f.workers[w := r.(reserved := r.reserved - units, running := r.running + units,
          started := r.started + {b})],
            f.reserved - units, f.running + units)
  }

  /** Give back the units of batch b on worker w, wherever they are booked. */
  function ReleaseBatch(f: Fleet, w: Id, b: Id): Fleet {
    if w !in f.workers then f
    else
      var r := f.workers[w];
      var units := if b in r.batchUnits then r.batchUnits[b] else 0;
      var started := b in r.started;
      var running := Clamp(if started then r.running - units else r.running);
      var reserved := Clamp(if started then r.reserved else r.reserved - units);
      Fleet(f.workers[w := r.(running := running, reserved := reserved,
                              batchUnits := r.batchUnits - {b}, batchPending := r.batchPending - {b},
                              started := r.started - {b},
                              state := if running == 0 && reserved == 0 && r.state == Busy then Online else r.state)],
            Clamp(if started then f.reserved else f.reserved - units),
            Clamp(if started then f.running - units else f.running))
  }

  /** Request id is no longer in flight on w, nor pending in its batch there. */
  function DropMember(r: Worker, id: Id, batch: Option<Id>): Worker {
    r.(inFlight := r.inFlight - {id},
       batchPending := if batch.Some? && batch.value in r.batchPending
                       then r.batchPending[batch.value := r.batchPending[batch.value] - 1] else r.batchPending)
  }

  /** Request id leaves worker w; the batch it was in is released with its last
      pending member. */
  function ReleaseMember(f: Fleet, w: Id, id: Id, batch: Option<Id>): Fleet {
    if w !in f.workers then f
    else
      var r := DropMember(f.workers[w], id, batch);
      var f1 := f.(workers := f.workers[w := r]);
      if batch.Some? && batch.value in r.batchPending && r.batchPending[batch.value] <= 0
      then ReleaseBatch(f1, w, batch.value) else f1
  }

  // ----- conservation -----

  ghost function UnstartedUnits(r: Worker): map<Id, int> {
    map b | b in r.batchUnits && b !in r.started :: r.batchUnits[b]
  }

  ghost function StartedUnits(r: Worker): map<Id, int> {
    map b | b in r.batchUnits && b in r.started :: r.batchUnits[b]
  }

  ghost function ReservedBy(ws: map<Id, Worker>): map<Id, int> { map w | w in ws :: ws[w].reserved }
  ghost function RunningBy(ws: map<Id, Worker>): map<Id, int> { map w | w in ws :: ws[w].running }

  /** A worker's reserved units are those of its batches that have not started, its
      running units those of the batches that have. */
  ghost predicate Booked(r: Worker) {
    && r.batchUnits.Keys == r.batchPending.Keys
    && (forall b :: b in r.batchUnits ==> r.batchUnits[b] >= 0)
    && r.reserved == Total(UnstartedUnits(r))
    && r.running == Total(StartedUnits(r))
  }

  /** Every worker's books are right and the global totals are the sums over the workers. */
  ghost predicate Conserved(f: Fleet) {
    && AllBooked(f.workers)
    && f.reserved == Total(ReservedBy(f.workers))
    && f.running == Total(RunningBy(f.workers))
  }

  ghost predicate AllBooked(ws: map<Id, Worker>) {
    forall w :: w in ws ==> Booked(ws[w])
  }

  lemma BookedNonNegative(r: Worker)
    requires Booked(r)
    ensures r.reserved >= 0 && r.running >= 0
    ensures forall b :: b in r.batchUnits ==> r.batchUnits[b] <= (if b in r.started then r.running else r.reserved)
  {
    TotalNonNegative(UnstartedUnits(r));
    TotalNonNegative(StartedUnits(r));
    forall b | b in r.batchUnits ensures r.batchUnits[b] <= (if b in r.started then r.running else r.reserved) {
      if b in r.started {
        TotalAtLeast(StartedUnits(r), b);
      } else {
        TotalAtLeast(UnstartedUnits(r), b);
      }
    }
  }

  lemma GlobalCovers(f: Fleet, w: Id)
    requires Conserved(f) && w in f.workers
    ensures f.workers[w].reserved <= f.reserved && f.workers[w].running <= f.running
  {
    forall v | v in f.workers ensures f.workers[v].reserved >= 0 && f.workers[v].running >= 0 {
      BookedNonNegative(f.workers[v]);
    }
    TotalAtLeast(ReservedBy(f.workers), w);
    TotalAtLeast(RunningBy(f.workers), w);
  }

  lemma SumsMove(ws: map<Id, Worker>, w: Id, r: Worker)
    ensures Total(ReservedBy(ws[w := r])) == Total(ReservedBy(ws)) + r.reserved - (if w in ws then ws[w].reserved
        else 0)
    ensures Total(RunningBy(ws[w := r])) == Total(RunningBy(ws)) + r.running - (if w in ws then ws[w].running else 0)
  {
    assert ReservedBy(ws[w := r]) == ReservedBy(ws)[w := r.reserved];
    assert RunningBy(ws[w := r]) == RunningBy(ws)[w := r.running];
    TotalUpdate(ReservedBy(ws), w, r.reserved);
    TotalUpdate(RunningBy(ws), w, r.running);
  }

  /** Replacing one worker's record moves the global sums by the difference. */
  lemma ReplaceWorker(f: Fleet, w: Id, r: Worker, f1: Fleet)
    requires Conserved(f) && Booked(r) && f1.workers == f.workers[w := r]
    requires f1.reserved == f.reserved + r.reserved - (if w in f.workers then f.workers[w].reserved else 0)
    requires f1.running == f.running + r.running - (if w in f.workers then f.workers[w].running else 0)
    ensures Conserved(f1)
  {
    SumsMove(f.workers, w, r);
  }

  lemma ReleaseBooks(r: Worker, b: Id, r1: Worker)
    requires Booked(r)
    requires r1.batchUnits == r.batchUnits - {b} && r1.batchPending == r.batchPending - {b}
        && r1.started == r.started - {b}
    requires var units := if b in r.batchUnits then r.batchUnits[b] else 0;
             var off := if b in r.started then 0 else units;
             r1.reserved == r.reserved - off && r1.running == r.running - (units - off)
    ensures Booked(r1)
  {
    assert UnstartedUnits(r1) == UnstartedUnits(r) - {b};
    assert StartedUnits(r1) == StartedUnits(r) - {b};
    TotalRemove(UnstartedUnits(r), b);
    TotalRemove(StartedUnits(r), b);
  }

  lemma OpenBatchConserves(f: Fleet, w: Id, b: Id, units: int, n: int)
    requires Conserved(f) && w in f.workers && units >= 0
    requires b !in f.workers[w].batchUnits && b !in f.workers[w].started
    ensures Conserved(OpenBatch(f, w, b, units, n))
  {
    var r := f.workers[w];
    var r1 := OpenBatch(f, w, b, units, n).workers[w];
    assert UnstartedUnits(r1) == UnstartedUnits(r)[b := units];
    assert StartedUnits(r1) == StartedUnits(r);
    TotalUpdate(UnstartedUnits(r), b, units);
    ReplaceWorker(f, w, r1, OpenBatch(f, w, b, units, n));
  }

  lemma StartBatchConserves(f: Fleet, w: Id, b: Id)
    requires Conserved(f) && w in f.workers
    ensures Conserved(StartBatch(f, w, b))
  {
    var r := f.workers[w];
    if b !in r.started {
      var r1 := StartBatch(f, w, b).workers[w];
      assert UnstartedUnits(r1) == UnstartedUnits(r) - {b};
      TotalRemove(UnstartedUnits(r), b);
      if b in r.batchUnits {
        assert StartedUnits(r1) == StartedUnits(r)[b := r.batchUnits[b]];
        TotalUpdate(StartedUnits(r), b, r.batchUnits[b]);
      } else {
        assert StartedUnits(r1) == StartedUnits(r);
      }
      ReplaceWorker(f, w, r1, StartBatch(f, w, b));
    }
  }

  /** Releasing a batch never needs the clamps: exactly its units come off the side
      they are booked on, on the worker and in the global total. */
  lemma ReleaseBatchExact(f: Fleet, w: Id, b: Id)
    requires Conserved(f) && w in f.workers
    ensures var units := if b in f.workers[w].batchUnits then f.workers[w].batchUnits[b] else 0;
            var off := if b in f.workers[w].started then 0 else units;
            var f1 := ReleaseBatch(f, w, b);
            && f1.workers[w].reserved == f.workers[w].reserved - off >= 0
            && f1.reserved == f.reserved - off >= 0
            && f1.workers[w].running == f.workers[w].running - (units - off) >= 0
            && f1.running == f.running - (units - off) >= 0
  {
    BookedNonNegative(f.workers[w]);
    GlobalCovers(f, w);
  }

  lemma ReleaseBatchConserves(f: Fleet, w: Id, b: Id)
    requires Conserved(f)
    ensures Conserved(ReleaseBatch(f, w, b))
  {
    if w in f.workers {
      ReleaseBatchExact(f, w, b);
      ReleaseBooks(f.workers[w], b, ReleaseBatch(f, w, b).workers[w]);
      ReplaceWorker(f, w, ReleaseBatch(f, w, b).workers[w], ReleaseBatch(f, w, b));
    }
  }

  /** A record with the same bookings can stand in for another. */
  lemma SameBooks(f: Fleet, w: Id, r: Worker)
    requires Conserved(f) && w in f.workers
    requires r.reserved == f.workers[w].reserved && r.running == f.workers[w].running
    requires r.batchUnits == f.workers[w].batchUnits && r.started == f.workers[w].started
    requires r.batchPending.Keys == f.workers[w].batchPending.Keys
    ensures Conserved(f.(workers := f.workers[w := r]))
  {
    assert UnstartedUnits(r) == UnstartedUnits(f.workers[w]);
    assert StartedUnits(r) == StartedUnits(f.workers[w]);
    ReplaceWorker(f, w, r, f.(workers := f.workers[w := r]));
  }

  lemma ReleaseMemberConserves(f: Fleet, w: Id, id: Id, batch: Option<Id>)
    requires Conserved(f)
    ensures Conserved(ReleaseMember(f, w, id, batch))
  {
    if w in f.workers {
      var r := DropMember(f.workers[w], id, batch);
      SameBooks(f, w, r);
      if batch.Some? {
        ReleaseBatchConserves(f.(workers := f.workers[w := r]), w, batch.value);
      }
    }
  }
}
