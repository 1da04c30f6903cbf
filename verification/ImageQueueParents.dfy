/** Admission limits, unit aggregation, and the parent jobs of the image job queue. */
module ImageQueueParents {
  import opened Common
  import opened ImageQueue
  import opened ImageQueueRuns

  // ---- admission bounds -------------------------------------------------------

  lemma {:induction false} ReservedAt(m: map<JobId, nat>, job: JobId)
    ensures Reserved(m) == BytesOf(m, job) + Reserved(m - {job})
  {
    if job in m {
      var first :| first in m && Reserved(m) == m[first] + Reserved(m - {first});
      if first != job {
        ReservedAt(m - {first}, job);
        ReservedAt(m - {job}, first);
        assert m - {first} - {job} == m - {job} - {first};
      }
    } else {
      assert m - {job} == m;
    }
  }

  lemma {:induction false} ReservedFewer(m: map<JobId, nat>, jobs: set<JobId>)
    ensures Reserved(m - jobs) <= Reserved(m)
  {
    if jobs == {} {
      assert m - jobs == m;
    } else {
      var job :| job in jobs;
      ReservedAt(m, job);
      ReservedFewer(m - {job}, jobs - {job});
      assert m - {job} - (jobs - {job}) == m - jobs;
    }
  }

  /** The reservation an accepted job ends up with replaces the one it had. */
  lemma {:induction false} EnqueuedReserved(m: map<JobId, nat>, r: EnqueueRequest)
    ensures Reserved(EnqueuedReservations(m, r)) <= Reserved(m) - BytesOf(m, r.job) + Max(0, r.bytes)
  {
    var after := EnqueuedReservations(m, r);
    ReservedAt(m, r.job);
    ReservedAt(after, r.job);
    assert after - {r.job} == m - {r.job};
  }

  lemma {:induction false} PendingStep(s: System, e: Event)
    requires SystemOk(s) && Allowed(s, e)
    ensures Pending(Step(s.tables, e).units) <=
            Pending(s.tables.units) +
            if e.Enqueue? && EnqueueVerdict(s.tables, e.order) == Enqueued then Elements(e.order.ids) else {}
  {
    var units := Step(s.tables, e).units;
    forall id | id in Pending(units)
      ensures id in Pending(s.tables.units) ||
              (e.Enqueue? && EnqueueVerdict(s.tables, e.order) == Enqueued && id in e.order.ids)
    {
      RowsStep(s, e, id);
      hide ClaimOutcome, Exhausted;
    }
  }

  /** Every admission uses these limits. */
  predicate Admits(e: Event, maxActive: int, maxQueued: int, maxBytes: int) {
    e.Enqueue? ==> e.order.maxActive == maxActive && e.order.maxQueued == maxQueued && e.order.maxBytes == maxBytes
  }

  lemma {:induction false} PendingBoundStep(s: System, e: Event, capacity: nat)
    requires SystemOk(s) && Allowed(s, e)
    requires |Pending(s.tables.units)| <= capacity
    requires e.Enqueue? ==> Capacity(e.order.maxActive, e.order.maxQueued) == capacity
    ensures |Pending(Step(s.tables, e).units)| <= capacity
  {
    PendingStep(s, e);
    hide Step, Pending, SystemOk;
    var before, after := Pending(s.tables.units), Pending(Step(s.tables, e).units);
    if e.Enqueue? && EnqueueVerdict(s.tables, e.order) == Enqueued {
      var added := Elements(e.order.ids);
      ElementsSize(e.order.ids);
      UnionSize(before, added);
      SubsetSize(after, before + added);
    } else {
      SubsetSize(after, before);
    }
  }

  lemma {:induction false} ReservedBoundStep(s: System, e: Event, maxBytes: int)
    requires Allowed(s, e) && maxBytes > 0 && Reserved(s.tables.reservations) <= maxBytes
    requires e.Enqueue? ==> e.order.maxBytes == maxBytes
    ensures Reserved(Step(s.tables, e).reservations) <= maxBytes
  {
    hide Reserved, ClaimOutcome;
    var m := s.tables.reservations;
    match e
    case Enqueue(order) => EnqueuedReserved(m, order);
    case Cancel(job, _) => ReservedFewer(m, {job});
    case Finalize(job, _) => ReservedFewer(m, {job});
    case Transition(job, _) => ReservedFewer(m, {job});
    case Release(job) => ReservedFewer(m, {job});
    case Forget(jobs) => ReservedFewer(m, jobs);
    case InterruptActive(_) => ReservedFewer(m, ActiveJobs(s.tables));
    case _ =>
  }

  /** With fixed limits, pending units never exceed the capacity and reserved bytes never exceed a positive limit. */
  lemma {:induction false} AdmissionBounds(states: seq<System>, events: seq<Event>, i: nat,
                                           maxActive: int, maxQueued: int, maxBytes: int)
    requires IsRun(states, events) && i < |states|
    requires forall k :: 0 <= k < |events| ==> Admits(events[k], maxActive, maxQueued, maxBytes)
    ensures |Pending(states[i].tables.units)| <= Capacity(maxActive, maxQueued)
    ensures maxBytes > 0 ==> Reserved(states[i].tables.reservations) <= maxBytes
  {
    hide Step, Allowed, SystemOk;
    if i == 0 {
      assert Pending(states[0].tables.units) == {};
    } else {
      AdmissionBounds(states, events, i - 1, maxActive, maxQueued, maxBytes);
      RunOk(states, events, i - 1);
      PendingBoundStep(states[i - 1], events[i - 1], Capacity(maxActive, maxQueued));
      if maxBytes > 0 { ReservedBoundStep(states[i - 1], events[i - 1], maxBytes); }
      assert states[i - 1 + 1] == After(states[i - 1], events[i - 1]);
    }
  }

  // ---- the aggregate ----------------------------------------------------------

  ghost function UnitsOf(units: map<UnitId, Unit>, job: JobId): set<UnitId> {
    set id | id in units && units[id].parent == job
  }

  lemma {:induction false} LeastIndexExists(units: map<UnitId, Unit>, ids: set<UnitId>)
    requires ids != {} && ids <= units.Keys
    ensures exists id :: id in ids && forall other :: other in ids ==> units[id].index <= units[other].index
  {
    var first :| first in ids;
    var rest := ids - {first};
    if rest == {} {
      assert ids == {first};
    } else {
      LeastIndexExists(units, rest);
      var least :| least in rest && forall other :: other in rest ==> units[least].index <= units[other].index;
      assert forall other :: other in ids ==> other == first || other in rest;
      var id := if units[first].index <= units[least].index then first else least;
      assert id in ids && forall other :: other in ids ==> units[id].index <= units[other].index;
    }
  }

  /** `ORDER BY unit_index ASC`. */
  ghost function Ordered(units: map<UnitId, Unit>, ids: set<UnitId>): (rows: seq<Unit>)
    requires ids <= units.Keys
  {
    if ids == {} then []
    else
      LeastIndexExists(units, ids);
      var id :| id in ids && forall other :: other in ids ==> units[id].index <= units[other].index;
      [units[id]] + Ordered(units, ids - {id})
  }

  ghost function RowsOf(units: map<UnitId, Unit>, job: JobId): seq<Unit> {
    Ordered(units, UnitsOf(units, job))
  }

  function CountIf(rows: seq<Unit>, p: Unit -> bool): (n: nat)
    ensures n <= |rows|
  {
    if rows == [] then 0 else (if p(rows[0]) then 1 else 0) + CountIf(rows[1..], p)
  }

  /** An image of a finished unit, tagged with its unit and its place in the unit's result. */
  datatype TaggedImage = TaggedImage(image: Image, unitIndex: nat, resultIndex: nat)

  function Tagged(u: Unit): seq<TaggedImage> {
    seq(|u.images|, i requires 0 <= i < |u.images| => TaggedImage(u.images[i], u.index, i))
  }

  function ImagesOf(rows: seq<Unit>): seq<TaggedImage> {
    if rows == [] then []
    else (if rows[0].status == Success then Tagged(rows[0]) else []) + ImagesOf(rows[1..])
  }

  datatype Aggregate = Aggregate(
    total: nat, completed: nat, success: nat, failure: nat, cancelled: nat, running: nat, queued: nat,
    images: seq<TaggedImage>)

  predicate IsFinished(u: Unit) { Terminal(u.status) }
  predicate IsSuccess(u: Unit) { u.status == Success }
  predicate IsFailure(u: Unit) { u.status == Error || u.status == UpstreamError }
  predicate IsCancelled(u: Unit) { u.status == Cancelled }
  predicate IsInterrupted(u: Unit) { u.status == Interrupted }
  predicate IsRunning(u: Unit) { u.status == Running }
  predicate IsQueued(u: Unit) { u.status == Queued }

  /** `_aggregate_image_job_units_on_conn` on the rows of one job. */
  function AggregateRows(rows: seq<Unit>): Aggregate {
    Aggregate(|rows|,
              CountIf(rows, IsFinished), CountIf(rows, IsSuccess), CountIf(rows, IsFailure),
              CountIf(rows, IsCancelled), CountIf(rows, IsRunning), CountIf(rows, IsQueued),
              ImagesOf(rows))
  }

  /**
   The buckets partition the rows. `interrupted` units have no bucket of their
   own: they are exactly what `completed` counts beyond the three finished buckets.
   */
  lemma {:induction false} BucketsPartition(rows: seq<Unit>)
    requires forall i :: 0 <= i < |rows| ==> UnitOk(rows[i])
    ensures
      var a := AggregateRows(rows);
      && a.completed + a.running + a.queued == a.total
      && a.success + a.failure + a.cancelled + CountIf(rows, IsInterrupted) == a.completed
  {
    if rows != [] {
      BucketsPartition(rows[1..]);
    }
  }

  function Matching(units: map<UnitId, Unit>, ids: set<UnitId>, p: Unit -> bool): set<UnitId>
    requires ids <= units.Keys
  {
    set id | id in ids && p(units[id])
  }

  lemma {:induction false} CountIsSetSize(units: map<UnitId, Unit>, ids: set<UnitId>, p: Unit -> bool)
    requires ids <= units.Keys
    ensures CountIf(Ordered(units, ids), p) == |Matching(units, ids, p)|
  {
    if ids == {} {
      assert Matching(units, ids, p) == {};
    } else {
      var rows := Ordered(units, ids);
      LeastIndexExists(units, ids);
      var id :| id in ids && rows == [units[id]] + Ordered(units, ids - {id});
      CountIsSetSize(units, ids - {id}, p);
      assert rows[1..] == Ordered(units, ids - {id});
      assert Matching(units, ids, p) == Matching(units, ids - {id}, p) + if p(units[id]) then {id} else {};
    }
  }

  /** A step that deletes neither the job nor its units never lowers the job's completed count. */
  lemma {:induction false} CompletedNeverDecreases(s: System, e: Event, job: JobId)
    requires SystemOk(s) && Allowed(s, e)
    requires e.Forget? ==> job !in e.jobs
    requires e.InterruptActive? ==> !ParentActive(s.tables, job)
    ensures AggregateRows(RowsOf(s.tables.units, job)).completed
            <= AggregateRows(RowsOf(Step(s.tables, e).units, job)).completed
  {
    var before, after := s.tables.units, Step(s.tables, e).units;
    hide Step, SystemOk, Allowed, CountIf, Ordered;
    CountIsSetSize(before, UnitsOf(before, job), IsFinished);
    CountIsSetSize(after, UnitsOf(after, job), IsFinished);
    var a, b := Matching(before, UnitsOf(before, job), IsFinished), Matching(after, UnitsOf(after, job), IsFinished);
    forall id | id in a
      ensures id in b
    {
      FinishedRowKept(s, e, id);
    }
    SubsetSize(a, b);
  }

  lemma {:induction false} FinishedRowKept(s: System, e: Event, id: UnitId)
    requires SystemOk(s) && Allowed(s, e) && id in s.tables.units && Terminal(s.tables.units[id].status)
    requires e.Forget? ==> s.tables.units[id].parent !in e.jobs
    requires e.InterruptActive? ==> !ParentActive(s.tables, s.tables.units[id].parent)
    ensures id in Step(s.tables, e).units && Step(s.tables, e).units[id] == s.tables.units[id]
  {
    FinishedRowStep(s, e, id);
    hide ClaimOutcome, Exhausted, EnqueueVerdict;
  }
}
