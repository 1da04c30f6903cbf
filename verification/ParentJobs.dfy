/**
 Parent jobs: the status derived from the units, cancellation, reservations, and
 what keeps "a finished parent has only finished units" - image_jobs.py and
 backend/app/services/image_job_aggregate.py.
 */
module ParentJobs {
  import opened Common
  import opened ImageQueue
  import opened ImageQueueRuns
  import opened ImageQueueBounds
  import opened ImageQueueParents

  // ---- the derived status -----------------------------------------------------

  function FailedRows(rows: seq<Unit>): (failed: seq<Unit>)
    ensures |failed| == CountIf(rows, IsFailure)
  {
    if rows == [] then [] else (if IsFailure(rows[0]) then [rows[0]] else []) + FailedRows(rows[1..])
  }

  predicate AllUpstreamErrors(rows: seq<Unit>) {
    rows != [] && forall i :: 0 <= i < |rows| ==> rows[i].status == UpstreamError
  }

  /** The status half of `derive_parent_update`; None when the job has no units. */
  function DeriveStatus(rows: seq<Unit>): Option<Status> {
    var a := AggregateRows(rows);
    if a.total > 0 && a.completed == a.total then
      if a.images != [] then Some(if a.failure > 0 then PartialFailure else Success)
      else if a.cancelled == a.total then Some(Cancelled)
      else
        var failures := if FailedRows(rows) != [] then FailedRows(rows) else rows;
        Some(if AllUpstreamErrors(failures) then UpstreamError else Error)
    else if a.running > 0 || a.completed > 0 then Some(Running)
    else if a.queued > 0 then Some(Queued)
    else None
  }

  predicate AllRows(rows: seq<Unit>, p: Unit -> bool) {
    forall i :: 0 <= i < |rows| ==> p(rows[i])
  }

  lemma {:induction false} CountAll(rows: seq<Unit>, p: Unit -> bool)
    ensures CountIf(rows, p) == |rows| <==> AllRows(rows, p)
    ensures CountIf(rows, p) == 0 <==> (forall i :: 0 <= i < |rows| ==> !p(rows[i]))
  {
    if rows != [] {
      CountAll(rows[1..], p);
      assert forall i :: 0 < i < |rows| ==> rows[i] == rows[1..][i - 1];
      assert forall i :: 0 <= i < |rows| - 1 ==> rows[1..][i] == rows[i + 1];
    }
  }

  lemma {:induction false} NoImages(rows: seq<Unit>)
    ensures ImagesOf(rows) == [] <==>
            (forall i :: 0 <= i < |rows| && rows[i].status == Success ==> rows[i].images == [])
  {
    if rows != [] {
      NoImages(rows[1..]);
      assert |Tagged(rows[0])| == |rows[0].images|;
      assert forall i :: 0 < i < |rows| ==> rows[i] == rows[1..][i - 1];
      assert forall i :: 0 <= i < |rows| - 1 ==> rows[1..][i] == rows[i + 1];
    }
  }

  /** The derivation ends a job exactly when it has units and all of them are finished. */
  lemma {:induction false} DerivedEndIsAllFinished(rows: seq<Unit>)
    requires AllRows(rows, UnitOk)
    ensures DeriveStatus(rows).Some? && !Active(DeriveStatus(rows).value) <==> rows != [] && AllRows(rows, IsFinished)
    ensures DeriveStatus(rows).None? <==> rows == []
  {
    CountAll(rows, IsFinished);
    BucketsPartition(rows);
  }

  predicate HasImage(u: Unit) { u.status == Success && u.images != [] }

  /**
   What each derived outcome says about the units. Success asks for an image and
   no failed unit, not for every unit to have succeeded.
   */
  lemma {:induction false} DerivedOutcomes(rows: seq<Unit>)
    requires AllRows(rows, UnitOk) && rows != [] && AllRows(rows, IsFinished)
    ensures
      var s := DeriveStatus(rows);
      var image, failure := CountIf(rows, HasImage) > 0, CountIf(rows, IsFailure) > 0;
      && (s == Some(Success) <==> image && !failure)
      && (s == Some(PartialFailure) <==> image && failure)
      && (s == Some(Cancelled) <==> !image && AllRows(rows, IsCancelled))
      && (s == Some(UpstreamError) <==> !image && failure && AllUpstreamErrors(FailedRows(rows)))
  {
    CountAll(rows, IsFinished);
    CountAll(rows, IsCancelled);
    CountAll(rows, HasImage);
    CountAll(rows, IsFailure);
    NoImages(rows);
    if AllRows(rows, IsCancelled) {
      assert IsCancelled(rows[0]);
    }
    assert AllUpstreamErrors(rows) ==> IsFailure(rows[0]);
  }

  predicate IsWaiting(u: Unit) { u.status == Queued }

  /** A job that is not over is queued while no unit was ever claimed, and running from then on. */
  lemma {:induction false} DerivedOpen(rows: seq<Unit>)
    requires AllRows(rows, UnitOk)
    ensures DeriveStatus(rows) == Some(Queued) <==> rows != [] && AllRows(rows, IsWaiting)
    ensures DeriveStatus(rows) == Some(Running) <==> !AllRows(rows, IsWaiting) && !AllRows(rows, IsFinished)
  {
    BucketsPartition(rows);
    CountAll(rows, IsFinished);
    CountAll(rows, IsRunning);
    CountAll(rows, IsQueued);
    hide CountIf, UnitOk;
    if rows != [] && AllRows(rows, IsWaiting) {
      assert IsWaiting(rows[0]);
      assert forall i :: 0 <= i < |rows| ==> IsWaiting(rows[i]) ==> !IsRunning(rows[i]) && !IsFinished(rows[i]);
      assert AllRows(rows, IsQueued) by {
        assert forall i :: 0 <= i < |rows| ==> IsWaiting(rows[i]) ==> IsQueued(rows[i]);
      }
    }
    if !AllRows(rows, IsWaiting) {
      var i :| 0 <= i < |rows| && !IsWaiting(rows[i]);
      assert !IsQueued(rows[i]);
    }
  }

  /**
   Upstream failures alone make an upstream error: without an image, some unit failed and
   every failed one did upstream.
   */
  lemma {:induction false} DerivedUpstream(rows: seq<Unit>)
    requires AllRows(rows, UnitOk) && rows != [] && AllRows(rows, IsFinished)
    ensures
      DeriveStatus(rows) == Some(UpstreamError) <==>
      && (forall i :: 0 <= i < |rows| && rows[i].status == Success ==> rows[i].images == [])
      && (exists i :: 0 <= i < |rows| && rows[i].status == UpstreamError)
      && (forall i :: 0 <= i < |rows| ==> rows[i].status != Error)
  {
    DerivedOutcomes(rows);
    NoImageCounted(rows);
    OnlyUpstream(rows);
    hide DeriveStatus, CountIf, UnitOk, FailedRows, AllUpstreamErrors;
  }

  lemma {:induction false} NoImageCounted(rows: seq<Unit>)
    ensures CountIf(rows, HasImage) == 0 <==>
            forall i :: 0 <= i < |rows| && rows[i].status == Success ==> rows[i].images == []
  {
    CountAll(rows, HasImage);
    hide CountIf;
    assert forall i :: 0 <= i < |rows| ==> (HasImage(rows[i]) <==> rows[i].status == Success && rows[i].images != []);
  }

  lemma {:induction false} OnlyUpstream(rows: seq<Unit>)
    ensures CountIf(rows, IsFailure) > 0 && AllUpstreamErrors(FailedRows(rows)) <==>
            && (exists i :: 0 <= i < |rows| && rows[i].status == UpstreamError)
            && (forall i :: 0 <= i < |rows| ==> rows[i].status != Error)
  {
    FailedElements(rows);
    var failed := FailedRows(rows);
    hide CountIf, FailedRows;
    if failed != [] && AllUpstreamErrors(failed) {
      assert failed[0] in failed;
      var k :| 0 <= k < |rows| && rows[k] == failed[0];
      forall i | 0 <= i < |rows|
        ensures rows[i].status != Error
      {
        if IsFailure(rows[i]) {
          assert rows[i] in rows && rows[i] in failed;
          var j :| 0 <= j < |failed| && failed[j] == rows[i];
        }
      }
    }
    if i :| 0 <= i < |rows| && rows[i].status == UpstreamError {
      assert IsFailure(rows[i]) && rows[i] in rows && rows[i] in failed;
      forall j | 0 <= j < |failed|
        ensures failed[j].status == Error || failed[j].status == UpstreamError
        ensures failed[j] in rows
      {
        assert failed[j] in failed;
      }
    }
  }

  lemma {:induction false} FailedElements(rows: seq<Unit>)
    ensures forall u :: u in FailedRows(rows) <==> u in rows && IsFailure(u)
  {
    if rows != [] {
      FailedElements(rows[1..]);
      assert rows == [rows[0]] + rows[1..];
    }
  }

  // ---- finished parents have finished units -----------------------------------

  /** Every unit still to be worked on has an active parent. */
  ghost predicate Settled(t: Tables) {
    forall id :: id in t.units && Active(t.units[id].status) ==> ParentActive(t, t.units[id].parent)
  }

  /** Every byte reservation belongs to an active parent. */
  ghost predicate ReservationsOwned(t: Tables) {
    forall job :: job in t.reservations ==> ParentActive(t, job)
  }

  lemma {:induction false} OrderedRows(units: map<UnitId, Unit>, ids: set<UnitId>)
    requires ids <= units.Keys
    ensures forall id :: id in ids ==> units[id] in Ordered(units, ids)
    ensures forall u :: u in Ordered(units, ids) ==> exists id :: id in ids && units[id] == u
  {
    if ids != {} {
      LeastIndexExists(units, ids);
      var id :| id in ids && Ordered(units, ids) == [units[id]] + Ordered(units, ids - {id});
      OrderedRows(units, ids - {id});
    }
  }

  /**
   The events of a well-behaved caller: jobs are enqueued under fresh identifiers
   and start active, finalize uses the derivation, and nobody forces a parent to
   a terminal status while it has units to work on.
   */
  ghost predicate Guarded(s: System, e: Event) {
    match e
    case Enqueue(order) => order.job !in s.tables.parents && Active(order.parent.status)
    case Finalize(job, derived) =>
      (derived.Some? <==> DeriveStatus(RowsOf(s.tables.units, job)).Some?) &&
      (derived.Some? ==> Some(derived.value.status) == DeriveStatus(RowsOf(s.tables.units, job)))
    case Transition(job, update) => !Active(update.status) && NothingPending(s.tables.units, job)
    case _ => true
  }

  ghost predicate NothingPending(units: map<UnitId, Unit>, job: JobId) {
    forall id :: id in units && units[id].parent == job ==> !Active(units[id].status)
  }

  lemma {:induction false} DerivedEndLeavesNothingPending(s: System, job: JobId)
    requires SystemOk(s)
    requires DeriveStatus(RowsOf(s.tables.units, job)).Some? && !Active(DeriveStatus(RowsOf(s.tables.units, job)).value)
    ensures NothingPending(s.tables.units, job)
  {
    var units := s.tables.units;
    var rows := RowsOf(units, job);
    OrderedRows(units, UnitsOf(units, job));
    hide DeriveStatus, UnitOk, Ordered;
    assert AllRows(rows, UnitOk) by {
      forall i | 0 <= i < |rows|
        ensures UnitOk(rows[i])
      {
        assert rows[i] in rows;
      }
    }
    DerivedEndIsAllFinished(rows);
    forall id | id in units && units[id].parent == job
      ensures !Active(units[id].status)
    {
      assert id in UnitsOf(units, job);
      var i :| 0 <= i < |rows| && rows[i] == units[id];
      assert IsFinished(rows[i]);
    }
  }

  /** A step only ever ends a parent that has nothing left to work on. */
  lemma {:induction false} EndedParentHasNothingPending(s: System, e: Event, job: JobId)
    requires SystemOk(s) && Allowed(s, e) && Guarded(s, e)
    requires ParentActive(s.tables, job) && !ParentActive(Step(s.tables, e), job)
    ensures NothingPending(Step(s.tables, e).units, job)
  {
    if e.Finalize? {
      DerivedEndLeavesNothingPending(s, job);
    }
    hide DeriveStatus, RowsOf, ClaimOutcome, EnqueueVerdict;
  }

  lemma {:induction false} SettledStep(s: System, e: Event)
    requires SystemOk(s) && Settled(s.tables) && Allowed(s, e) && Guarded(s, e)
    ensures Settled(Step(s.tables, e))
  {
    var after := Step(s.tables, e);
    forall id | id in after.units && Active(after.units[id].status)
      ensures ParentActive(after, after.units[id].parent)
    {
      RowsStep(s, e, id);
      PendingRowParent(s, e, id);
    }
  }

  lemma {:induction false} PendingRowParent(s: System, e: Event, id: UnitId)
    requires SystemOk(s) && Settled(s.tables) && Allowed(s, e) && Guarded(s, e)
    requires id in Step(s.tables, e).units && Active(Step(s.tables, e).units[id].status)
    ensures ParentActive(Step(s.tables, e), Step(s.tables, e).units[id].parent)
  {
    RowsStep(s, e, id);
    var job := Step(s.tables, e).units[id].parent;
    if id in s.tables.units {
      assert ParentActive(s.tables, job) by { hide Step, Guarded; }
      if !ParentActive(Step(s.tables, e), job) {
        EndedParentHasNothingPending(s, e, job);
      }
    } else {
      hide ClaimOutcome, DeriveStatus;
    }
  }

  lemma {:induction false} ReservationsStep(s: System, e: Event)
    requires ReservationsOwned(s.tables) && Allowed(s, e)
    requires e.Enqueue? ==> Guarded(s, e)
    ensures ReservationsOwned(Step(s.tables, e))
  {
    hide ClaimOutcome, DeriveStatus;
  }

  /** In every run of guarded events a finished parent has only finished units and no reservation. */
  lemma {:induction false} FinishedParentsAreSettled(states: seq<System>, events: seq<Event>, i: nat)
    requires IsRun(states, events) && i < |states|
    requires forall k :: 0 <= k < |events| ==> Guarded(states[k], events[k])
    ensures Settled(states[i].tables) && ReservationsOwned(states[i].tables)
  {
    hide Step, Allowed, Guarded, SystemOk;
    if i > 0 {
      FinishedParentsAreSettled(states, events, i - 1);
      RunOk(states, events, i - 1);
      SettledStep(states[i - 1], events[i - 1]);
      ReservationsStep(states[i - 1], events[i - 1]);
      assert states[i - 1 + 1] == After(states[i - 1], events[i - 1]);
    }
  }

  /**
   An unguarded transition keeps finished parents settled exactly when the job has
   nothing pending or stays active.
   */
  lemma {:induction false} TransitionSettlesExactly(t: Tables, job: JobId, update: Parent)
    requires Settled(t) && ParentActive(t, job)
    ensures Settled(TransitionTables(t, job, update)) <==> (Active(update.status) || NothingPending(t.units, job))
  {
    var after := TransitionTables(t, job, update);
    if !Active(update.status) && !NothingPending(t.units, job) {
      var id :| id in t.units && t.units[id].parent == job && Active(t.units[id].status);
      assert id in after.units && !ParentActive(after, job);
    }
  }

  /**
   Enqueue does not look at the stored row's status. An accepted order keeps every
   reservation owned exactly when it reserves nothing, or both the stored row (if
   any) and the incoming one are active.
   */
  lemma {:induction false} EnqueueReservationExact(t: Tables, r: EnqueueRequest)
    requires ReservationsOwned(t) && FreshIds(r.ids, t.units.Keys) && EnqueueVerdict(t, r) == Enqueued
    ensures ReservationsOwned(EnqueueTables(t, r)) <==>
            (r.bytes <= 0 || ((r.job in t.parents ==> Active(t.parents[r.job].status)) && Active(r.parent.status)))
  {
    var after := EnqueueTables(t, r);
    if r.bytes > 0 {
      assert r.job in after.reservations;
    }
  }

  /**
   Nor does it look at it for the units. An accepted order keeps finished parents
   settled exactly when the stored row (if any) and the incoming one are both active.
   */
  lemma {:induction false} EnqueueSettlesExactly(t: Tables, r: EnqueueRequest)
    requires Settled(t) && FreshIds(r.ids, t.units.Keys) && EnqueueVerdict(t, r) == Enqueued
    ensures Settled(EnqueueTables(t, r)) <==>
            ((r.job in t.parents ==> Active(t.parents[r.job].status)) && Active(r.parent.status))
  {
    var after := EnqueueTables(t, r);
    assert r.ids[0] in after.units && after.units[r.ids[0]] == NewUnit(r.job, 0, r.now) by { FirstNewUnit(t.units, r); }
    hide EnqueueVerdict, EnqueuedReservations;
  }

  lemma {:induction false} FirstNewUnit(units: map<UnitId, Unit>, r: EnqueueRequest)
    requires r.ids != []
    ensures r.ids[0] in units + NewUnits(r.job, r.ids, r.now)
    ensures (units + NewUnits(r.job, r.ids, r.now))[r.ids[0]] == NewUnit(r.job, 0, r.now)
  {}

  // ---- runs that leave a finished parent with units ---------------------------

  /** One step of a run. */
  ghost predicate Leads(s: System, e: Event, after: System) { Allowed(s, e) && after == After(s, e) }

  lemma {:induction false} RunOfTwo(s1: System, s2: System, e1: Event, e2: Event)
    requires Leads(EmptySystem, e1, s1) && Leads(s1, e2, s2)
    ensures IsRun([EmptySystem, s1, s2], [e1, e2])
  {
    hide Allowed, After;
  }

  lemma {:induction false} Longer(states: seq<System>, events: seq<Event>, s: System, e: Event)
    requires IsRun(states, events) && Leads(states[|events|], e, s)
    ensures IsRun(states + [s], events + [e])
  {
    hide Allowed, After;
  }

  lemma {:induction false} RunOfThree(s1: System, s2: System, s3: System, e1: Event, e2: Event, e3: Event)
    requires Leads(EmptySystem, e1, s1) && Leads(s1, e2, s2) && Leads(s2, e3, s3)
    ensures IsRun([EmptySystem, s1, s2, s3], [e1, e2, e3])
  {
    hide Leads, IsRun;
    RunOfTwo(s1, s2, e1, e2);
    Longer([EmptySystem, s1, s2], [e1, e2], s3, e3);
    assert [EmptySystem, s1, s2] + [s3] == [EmptySystem, s1, s2, s3] && [e1, e2] + [e3] == [e1, e2, e3];
  }

  lemma {:induction false} RunOfSix(s1: System, s2: System, s3: System, s4: System, s5: System, s6: System,
      e1: Event, e2: Event, e3: Event, e4: Event, e5: Event, e6: Event)
    requires Leads(EmptySystem, e1, s1) && Leads(s1, e2, s2) && Leads(s2, e3, s3)
    requires Leads(s3, e4, s4) && Leads(s4, e5, s5) && Leads(s5, e6, s6)
    ensures IsRun([EmptySystem, s1, s2, s3, s4, s5, s6], [e1, e2, e3, e4, e5, e6])
  {
    hide Leads, IsRun;
    RunOfThree(s1, s2, s3, e1, e2, e3);
    var three, events := [EmptySystem, s1, s2, s3], [e1, e2, e3];
    Longer(three, events, s4, e4);
    Longer(three + [s4], events + [e4], s5, e5);
    Longer(three + [s4] + [s5], events + [e4] + [e5], s6, e6);
    assert three + [s4] + [s5] + [s6] == [EmptySystem, s1, s2, s3, s4, s5, s6];
    assert events + [e4] + [e5] + [e6] == [e1, e2, e3, e4, e5, e6];
  }

  /** One unit under `id` for job 0. */
  function OneUnit(id: UnitId, bytes: int): EnqueueRequest {
    EnqueueRequest(0, Parent(Queued, QueuedStage, 0, None, []), [id], bytes, 1, 0, 0, 0)
  }

  function OneRow(parent: Parent, id: UnitId, bytes: map<JobId, nat>, ids: set<UnitId>): System {
    System(Tables(map[0 := parent], map[id := NewUnit(0, 0, 0)], bytes), {}, ids)
  }

  /** Nothing pending and no unit of job 0: the order is accepted. */
  lemma {:induction false} OneAccepted(s: System, id: UnitId, bytes: nat)
    requires s.tables.units == map[] && id !in s.ids && s.tables.reservations == map[]
    requires s.tables.parents == map[] || s.tables.parents.Keys == {0}
    ensures Allowed(s, Enqueue(OneUnit(id, bytes))) && EnqueueVerdict(s.tables, OneUnit(id, bytes)) == Enqueued
    ensures
      var incoming := OneUnit(id, bytes).parent;
      var kept := 0 in s.tables.parents && !Active(s.tables.parents[0].status);
      var stored := if kept then s.tables.parents[0] else incoming;
      After(s, Enqueue(OneUnit(id, bytes))) ==
      System(OneRow(stored, id, if bytes > 0 then map[0 := bytes] else map[], {}).tables, s.tokens, s.ids + {id})
  {
    var r := OneUnit(id, bytes);
    var t := s.tables;
    assert Pending(t.units) == {};
    OneNewUnit(id);
    assert Elements(r.ids) == {id};
    assert EnqueueVerdict(t, r) == Enqueued;
    hide EnqueueVerdict, NewUnits, Reserved;
    assert t.units + NewUnits(0, [id], 0) == map[id := NewUnit(0, 0, 0)];
  }

  lemma {:induction false} OneNewUnit(id: UnitId)
    ensures NewUnits(0, [id], 0) == map[id := NewUnit(0, 0, 0)]
  {
    assert IndexOf([id], id) == 0;
  }

  /**
   A job that is interrupted loses its units but not its row, so a second order
   under its identifier is accepted: a finished parent with a queued unit and a
   reservation.
   */
  lemma {:induction false} ReusedIdentifierUnsettles() returns (states: seq<System>, events: seq<Event>)
    ensures IsRun(states, events)
    ensures events == [Enqueue(OneUnit(1, 0)), InterruptActive(1), Enqueue(OneUnit(2, 5))]
    ensures Settled(states[2].tables) && ReservationsOwned(states[2].tables)
    ensures !Settled(states[3].tables) && !ReservationsOwned(states[3].tables)
  {
    var queued := OneUnit(1, 0).parent;
    var one, none, two := OneRow(queued, 1, map[], {1}), EndedJob(), OneRow(EndedRow(), 2, map[0 := 5], {1, 2});
    FirstOrder();
    OneInterrupted();
    SecondOrder();
    ReusedStates();
    hide After, Allowed, Settled, ReservationsOwned, OneUnit, OneRow, EndedRow, EndedJob, IsRun;
    states, events := [EmptySystem, one, none, two],
        [Enqueue(OneUnit(1, 0)), InterruptActive(1), Enqueue(OneUnit(2, 5))];
    RunOfThree(one, none, two, events[0], events[1], events[2]);
  }

  lemma {:induction false} FirstOrder()
    ensures Allowed(EmptySystem, Enqueue(OneUnit(1, 0)))
    ensures After(EmptySystem, Enqueue(OneUnit(1, 0))) == OneRow(OneUnit(1, 0).parent, 1, map[], {1})
  {
    OneAccepted(EmptySystem, 1, 0);
    hide After, Allowed, EnqueueVerdict;
    assert {} + {1 as nat} == {1};
  }

  lemma {:induction false} SecondOrder()
    ensures Allowed(EndedJob(), Enqueue(OneUnit(2, 5)))
    ensures After(EndedJob(), Enqueue(OneUnit(2, 5))) == OneRow(EndedRow(), 2, map[0 := 5], {1, 2})
  {
    OneAccepted(EndedJob(), 2, 5);
    hide After, Allowed, EnqueueVerdict;
    assert {1 as nat} + {2} == {1, 2};
  }

  /** The row of job 0 after its interruption. */
  function EndedRow(): Parent {
    OneUnit(1, 0).parent.(status := Interrupted, stage := InterruptedStage, completedAt := Some(1), updatedAt := 1)
  }

  function EndedJob(): System { System(Tables(map[0 := EndedRow()], map[], map[]), {}, {1}) }

  lemma {:induction false} OneInterrupted()
    ensures
      var one := OneRow(OneUnit(1, 0).parent, 1, map[], {1});
      Allowed(one, InterruptActive(1)) && After(one, InterruptActive(1)) == EndedJob()
  {
    var one := OneRow(OneUnit(1, 0).parent, 1, map[], {1});
    assert ActiveJobs(one.tables) == {0};
  }

  lemma {:induction false} ReusedStates()
    ensures Settled(EndedJob().tables) && ReservationsOwned(EndedJob().tables)
    ensures
      var two := OneRow(EndedRow(), 2, map[0 := 5], {1, 2}).tables;
      !Settled(two) && !ReservationsOwned(two)
  {
    var two := OneRow(EndedRow(), 2, map[0 := 5], {1, 2}).tables;
    assert 2 in two.units && 0 in two.reservations;
  }

  /** A job that is forced to an end with a unit queued leaves that unit behind. */
  lemma {:induction false} ForcedEndUnsettles(update: Parent) returns (states: seq<System>, events: seq<Event>)
    requires !Active(update.status)
    ensures IsRun(states, events)
    ensures events == [Enqueue(OneUnit(1, 0)), Transition(0, update)]
    ensures Settled(states[1].tables) && !Settled(states[2].tables)
  {
    var one := OneRow(OneUnit(1, 0).parent, 1, map[], {1});
    FirstOrder();
    OneForced(update);
    hide After, Allowed, Settled, OneUnit, OneRow, IsRun;
    states, events := [EmptySystem, one, After(one, Transition(0, update))],
        [Enqueue(OneUnit(1, 0)), Transition(0, update)];
    RunOfTwo(one, states[2], events[0], events[1]);
  }

  lemma {:induction false} OneForced(update: Parent)
    requires !Active(update.status)
    ensures
      var one := OneRow(OneUnit(1, 0).parent, 1, map[], {1});
      && Allowed(one, Transition(0, update)) && Settled(one.tables)
      && !Settled(After(one, Transition(0, update)).tables)
  {
    var one := OneRow(OneUnit(1, 0).parent, 1, map[], {1});
    assert 1 in one.tables.units && !NothingPending(one.tables.units, 0);
    TransitionSettlesExactly(one.tables, 0, update);
  }

  // ---- a successful job with an interrupted unit -------------------------------

  function CompletedFirst(images: seq<Image>): Unit {
    Written(ClaimedUnit(NewUnit(0, 0, 0), ClaimAt(7, 0, 5)), Complete(images, None, None, 2, 2))
  }

  function LostSecond(): Unit {
    InterruptedUnit(ClaimedUnit(NewUnit(0, 1, 0), ClaimAt(8, 3, 6)), 10)
  }

  /** The derivation of one unit with images and one interrupted one. */
  lemma {:induction false} MixedRowsSucceed(units: map<UnitId, Unit>, images: seq<Image>)
    requires images != [] && units == TwoUnitRows(CompletedFirst(images), LostSecond())
    ensures DeriveStatus(RowsOf(units, 0)) == Some(Success)
  {
    var rows := RowsOf(units, 0);
    assert UnitsOf(units, 0) == {1, 2};
    OrderedRows(units, {1, 2});
    MixedRows(units[1], units[2]);
    hide DeriveStatus, Ordered, TwoUnitRows, CompletedFirst, LostSecond;
    assert units[1] in rows;
    var i :| 0 <= i < |rows| && rows[i] == units[1];
    assert forall k :: 0 <= k < |rows| ==> rows[k] in rows;
    MixedSucceeds(rows, i);
  }

  lemma {:induction false} MixedRows(first: Unit, second: Unit)
    requires second == LostSecond() && exists images :: images != [] && first == CompletedFirst(images)
    ensures UnitOk(first) && IsFinished(first) && HasImage(first) && !IsFailure(first)
    ensures UnitOk(second) && IsFinished(second) && !IsFailure(second)
  {}

  lemma {:induction false} MixedSucceeds(rows: seq<Unit>, i: nat)
    requires i < |rows| && HasImage(rows[i])
    requires forall k :: 0 <= k < |rows| ==> UnitOk(rows[k]) && IsFinished(rows[k]) && !IsFailure(rows[k])
    ensures DeriveStatus(rows) == Some(Success)
  {
    hide DeriveStatus, UnitOk, IsFinished, IsFailure, HasImage;
    CountAll(rows, HasImage);
    CountAll(rows, IsFailure);
    DerivedOutcomes(rows);
  }

  lemma {:induction false} FirstCompleted(images: seq<Image>)
    ensures
      var late := ClaimedUnit(NewUnit(0, 0, 0), ClaimAt(7, 0, 5));
      var s := WithRows(TwoUnitRows(late, NewUnit(0, 1, 0)), {7});
      var e := Fenced(1, 7, Complete(images, None, None, 2, 2));
      Allowed(s, e) && After(s, e) == WithRows(TwoUnitRows(CompletedFirst(images), NewUnit(0, 1, 0)), {7})
  {}

  lemma {:induction false} OtherClaimed(images: seq<Image>)
    ensures
      var s := WithRows(TwoUnitRows(CompletedFirst(images), NewUnit(0, 1, 0)), {7});
      var e := Claim(ClaimAt(8, 3, 6), Some(2));
      && Allowed(s, e)
      && After(s, e) == WithRows(TwoUnitRows(CompletedFirst(images), ClaimedUnit(NewUnit(0, 1, 0), e.request)), {7, 8})
  {
    var units := TwoUnitRows(CompletedFirst(images), NewUnit(0, 1, 0));
    var r := ClaimAt(8, 3, 6);
    assert Live(units, 3) == {} && ReclaimableUnits(units, 3, 1, r.maxRecoveries) == {};
    assert WithStatus(units, Queued) == {2};
    assert IsCandidate(units, r, 2);
  }

  lemma {:induction false} SecondSwept(images: seq<Image>)
    ensures
      var s := WithRows(TwoUnitRows(CompletedFirst(images), ClaimedUnit(NewUnit(0, 1, 0), ClaimAt(8, 3, 6))), {7, 8});
      var e := Expire(10, 1, IMAGE_JOB_UNIT_MAX_RECOVERIES);
      Allowed(s, e) && After(s, e) == WithRows(TwoUnitRows(CompletedFirst(images), LostSecond()), {7, 8})
  {
    var first, second := CompletedFirst(images), ClaimedUnit(NewUnit(0, 1, 0), ClaimAt(8, 3, 6));
    assert Exhausted(second, 10, 1, IMAGE_JOB_UNIT_MAX_RECOVERIES);
    assert ExpireExhausted(TwoUnitRows(first, second), 10, 1, IMAGE_JOB_UNIT_MAX_RECOVERIES)
        == TwoUnitRows(first, LostSecond());
  }

  /**
   A run to a successful job with an interrupted unit: of two units one is claimed
   and completed with images, the other is claimed, abandoned and swept, and the
   parent is finalized from them.
   */
  lemma {:induction false} SuccessWithInterruptedUnit(images: seq<Image>, update: Parent)
      returns (states: seq<System>, events: seq<Event>)
    requires images != [] && update.status == Success
    ensures IsRun(states, events)
    ensures events == [Enqueue(TwoUnits), Claim(ClaimAt(7, 0, 5), Some(1)),
                       Fenced(1, 7, Complete(images, None, None, 2, 2)), Claim(ClaimAt(8, 3, 6), Some(2)),
                       Expire(10, 1, IMAGE_JOB_UNIT_MAX_RECOVERIES), Finalize(0, Some(update))]
    ensures Guarded(states[5], events[5]) && DeriveStatus(RowsOf(states[5].tables.units, 0)) == Some(Success)
    ensures 0 in states[6].tables.parents && states[6].tables.parents[0].status == Success
    ensures 2 in states[6].tables.units && states[6].tables.units[2].status == Interrupted
  {
    TwoUnitsEnqueued();
    FirstClaimed();
    FirstCompleted(images);
    OtherClaimed(images);
    SecondSwept(images);
    var u, v := NewUnit(0, 0, 0), NewUnit(0, 1, 0);
    var held, taken := ClaimedUnit(u, ClaimAt(7, 0, 5)), ClaimedUnit(v, ClaimAt(8, 3, 6));
    var last := WithRows(TwoUnitRows(CompletedFirst(images), LostSecond()), {7, 8});
    MixedRowsSucceed(last.tables.units, images);
    DerivedIsGuarded(last, update);
    FinalizedParent(last, update);
    hide Allowed, After, IsRun, Guarded, DeriveStatus, RowsOf, TwoUnitRows, ClaimAt, NewUnit, ClaimedUnit,
         CompletedFirst, LostSecond, WithRows;
    states := [EmptySystem, WithRows(TwoUnitRows(u, v), {}), WithRows(TwoUnitRows(held, v), {7}),
               WithRows(TwoUnitRows(CompletedFirst(images), v), {7}),
               WithRows(TwoUnitRows(CompletedFirst(images), taken), {7, 8}), last,
               After(last, Finalize(0, Some(update)))];
    events := [Enqueue(TwoUnits), Claim(ClaimAt(7, 0, 5), Some(1)), Fenced(1, 7, Complete(images, None, None, 2, 2)),
               Claim(ClaimAt(8, 3, 6), Some(2)), Expire(10, 1, IMAGE_JOB_UNIT_MAX_RECOVERIES),
               Finalize(0, Some(update))];
    RunOfSix(states[1], states[2], states[3], states[4], last, states[6],
             events[0], events[1], events[2], events[3], events[4], events[5]);
  }

  lemma {:induction false} DerivedIsGuarded(s: System, update: Parent)
    requires DeriveStatus(RowsOf(s.tables.units, 0)) == Some(update.status)
    ensures Guarded(s, Finalize(0, Some(update)))
  {
    hide DeriveStatus, RowsOf;
  }

  lemma {:induction false} FinalizedParent(s: System, update: Parent)
    requires ParentActive(s.tables, 0) && 2 in s.tables.units && s.tables.units[2] == LostSecond()
    ensures
      var e := Finalize(0, Some(update));
      && Allowed(s, e) && After(s, e).tables.parents == s.tables.parents[0 := update]
      && 2 in After(s, e).tables.units && After(s, e).tables.units[2].status == Interrupted
  {}

  // ---- cancellation -----------------------------------------------------------

  lemma {:induction false} FinishedParentStep(s: System, e: Event, job: JobId)
    requires Allowed(s, e) && !ParentActive(s.tables, job) && !(e.Enqueue? && e.order.job == job)
    ensures job in Step(s.tables, e).parents ==>
              job in s.tables.parents && Step(s.tables, e).parents[job] == s.tables.parents[job]
  {
    hide ClaimOutcome;
  }

  /** A finished parent row is never rewritten while its identifier is not enqueued anew. */
  lemma {:induction false} FinishedParentForever(states: seq<System>, events: seq<Event>, i: nat, j: nat, job: JobId)
    requires IsRun(states, events) && i <= j < |states|
    requires !ParentActive(states[i].tables, job)
    requires forall k :: i <= k < j && events[k].Enqueue? ==> events[k].order.job != job
    ensures !ParentActive(states[j].tables, job)
    ensures job in states[j].tables.parents ==>
              job in states[i].tables.parents && states[j].tables.parents[job] == states[i].tables.parents[job]
    decreases j - i
  {
    hide Step, Allowed;
    if i < j {
      FinishedParentForever(states, events, i, j - 1, job);
      FinishedParentStep(states[j - 1], events[j - 1], job);
      assert states[j - 1 + 1] == After(states[j - 1], events[j - 1]);
    }
  }

  /** Cancelling an active parent ends it and all its units at once and frees its reservation. */
  lemma {:induction false} CancelEndsEverything(t: Tables, job: JobId, now: Time)
    requires ParentActive(t, job) && UnitsOk(t.units)
    ensures
      var after := CancelTables(t, job, now);
      && after.parents[job].status == Cancelled && job !in after.reservations
      && after.units.Keys == t.units.Keys
      && (forall id :: id in t.units && t.units[id].parent == job ==>
            && Terminal(after.units[id].status)
            && (Active(t.units[id].status) ==> after.units[id].status == Cancelled)
            && (!Active(t.units[id].status) ==> after.units[id] == t.units[id]))
      && (forall id :: id in t.units && t.units[id].parent != job ==> after.units[id] == t.units[id])
      && (forall other :: other in t.parents && other != job ==> after.parents[other] == t.parents[other])
  {
    forall id | id in t.units
      ensures UnitOk(t.units[id])
    {}
  }

  /**
   Cancellation is final: in every later state the parent row, while stored, is the
   cancelled one; its units, while stored, are finished and unchanged; and no later
   event claims or writes one of them.
   */
  lemma {:induction false} CancellationFinal(states: seq<System>, events: seq<Event>, i: nat, j: nat, job: JobId,
      id: UnitId)
    requires IsRun(states, events) && i < j < |states|
    requires events[i].Cancel? && events[i].job == job && ParentActive(states[i].tables, job)
    requires id in states[i].tables.units && states[i].tables.units[id].parent == job
    requires forall k :: i < k < j && events[k].Enqueue? ==> events[k].order.job != job
    ensures job in states[j].tables.parents ==> states[j].tables.parents[job].status == Cancelled
    ensures id in states[j].tables.units ==>
              Terminal(states[j].tables.units[id].status) &&
                  states[j].tables.units[id] == states[i + 1].tables.units[id]
    ensures j < |events| && events[j].Claim? ==> events[j].chosen != Some(id)
    ensures j < |events| && events[j].Fenced? && events[j].unit == id ==> states[j + 1] == states[j]
  {
    RunOk(states, events, i);
    assert states[i + 1] == After(states[i], events[i]);
    CancelEndsEverything(states[i].tables, job, events[i].now);
    hide Step, SystemOk, CancelTables;
    assert !ParentActive(states[i + 1].tables, job);
    FinishedParentForever(states, events, i + 1, j, job);
    TerminalForever(states, events, i + 1, j, id);
    if j < |events| {
      LaterEventSparesUnit(states[j], events[j], id);
      assert states[j + 1] == After(states[j], events[j]);
    }
  }

  lemma {:induction false} LaterEventSparesUnit(s: System, e: Event, id: UnitId)
    requires Allowed(s, e) && (id in s.tables.units ==> Terminal(s.tables.units[id].status))
    ensures e.Claim? ==> e.chosen != Some(id)
    ensures e.Fenced? && e.unit == id ==> After(s, e) == s
  {
    assert e.Claim? && e.chosen.Some? ==> IsCandidate(s.tables.units, e.request, e.chosen.value);
  }
}
