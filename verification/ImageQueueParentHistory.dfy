/**
 What `generate_jobs` and `edit_source_reservations` hold of a job, in every run, from
 the events of that job alone; which orders are admitted, and which unit a claim takes -
 backend/app/repositories/image_jobs.py.
 */
module ImageQueueParentHistory {
  import opened Common
  import opened ImageQueue
  import opened ImageQueueRuns
  import opened ImageQueueParents

  /** What an event means for one job. */
  datatype Effect =
    | Nothing
    | Ordered(parent: Parent, bytes: int)
    | Finalized(update: Parent)
    | Ended(update: Parent)
    | Stopped(now: Time)
    | Interrupted(now: Time)
    | Released
    | Forgotten

  predicate IsActive(t: Tables, job: JobId) {
    job in t.parents && (t.parents[job].status == Queued || t.parents[job].status == Running)
  }

  ghost function EffectOn(t: Tables, e: Event, job: JobId): Effect {
    match e
    case Enqueue(order) =>
      if order.job == job && EnqueueVerdict(t, order) == Enqueued then Effect.Ordered(order.parent, order.bytes)
          else Nothing
    case Finalize(j, derived) => if j == job && IsActive(t, job) && derived.Some? then Finalized(derived.value)
        else Nothing
    case Transition(j, update) => if j == job && IsActive(t, job) then Ended(update) else Nothing
    case Cancel(j, now) => if j == job && IsActive(t, job) then Stopped(now) else Nothing
    case InterruptActive(now) => if IsActive(t, job) then Effect.Interrupted(now) else Nothing
    case Release(j) => if j == job then Released else Nothing
    case Forget(jobs) => if job in jobs then Forgotten else Nothing
    case _ => Nothing
  }

  predicate Open(p: Parent) { p.status == Queued || p.status == Running }

  /** The row after an effect: orders and updates store the row they bring, but no order replaces a finished one. */
  function RowAfter(row: Option<Parent>, x: Effect): Option<Parent> {
    match x
    case Ordered(parent, _) => if row.Some? && !Open(row.value) then row else Some(parent)
    case Finalized(update) => Some(update)
    case Ended(update) => Some(update)
    case Stopped(now) =>
      if row.None? then None else Some(Parent(Cancelled, CancelledStage, now, Some(now), row.value.images))
    case Interrupted(now) =>
      if row.None? then None else Some(Parent(Status.Interrupted, InterruptedStage, now, Some(now), row.value.images))
    case Forgotten => None
    case _ => row
  }

  /** The reservation after an effect: the bytes of the last order, until the job ends or is released. */
  function BytesAfter(bytes: nat, x: Effect): nat {
    match x
    case Ordered(_, ordered) => Max(0, ordered)
    case Finalized(update) => if Open(update) then bytes else 0
    case Nothing => bytes
    case _ => 0
  }

  ghost function RowOf(states: seq<System>, events: seq<Event>, i: nat, job: JobId): Option<Parent>
    requires |states| == |events| + 1 && i <= |events|
  {
    if i == 0 then None
    else RowAfter(RowOf(states, events, i - 1, job), EffectOn(states[i - 1].tables, events[i - 1], job))
  }

  ghost function BytesIn(states: seq<System>, events: seq<Event>, i: nat, job: JobId): nat
    requires |states| == |events| + 1 && i <= |events|
  {
    if i == 0 then 0
    else BytesAfter(BytesIn(states, events, i - 1, job), EffectOn(states[i - 1].tables, events[i - 1], job))
  }

  function StoredRow(t: Tables, job: JobId): Option<Parent> { if job in t.parents then Some(t.parents[job]) else None }

  lemma {:induction false} ParentStep(s: System, e: Event, job: JobId)
    requires Allowed(s, e)
    ensures StoredRow(Step(s.tables, e), job) == RowAfter(StoredRow(s.tables, job), EffectOn(s.tables, e, job))
  {
    hide EnqueueVerdict, EnqueuedReservations, ClaimOutcome, Reserved, NewUnits;
  }

  lemma {:induction false} BytesStep(s: System, e: Event, job: JobId)
    requires Allowed(s, e)
    ensures BytesOf(Step(s.tables, e).reservations, job)
         == BytesAfter(BytesOf(s.tables.reservations, job), EffectOn(s.tables, e, job))
  {
    hide EnqueueVerdict, ClaimOutcome, Reserved, NewUnits;
  }

  /**
   In every state of every run the row of a job is the one its last order, update, end,
   cancellation or interruption left, and its reservation is what its last order asked
   for, until it ended.
   */
  lemma {:induction false} ParentIsItsHistory(states: seq<System>, events: seq<Event>, i: nat, job: JobId)
    requires IsRun(states, events) && i <= |events|
    ensures StoredRow(states[i].tables, job) == RowOf(states, events, i, job)
    ensures BytesOf(states[i].tables.reservations, job) == BytesIn(states, events, i, job)
  {
    hide Step, Allowed, RowAfter, BytesAfter, EffectOn;
    if i > 0 {
      ParentIsItsHistory(states, events, i - 1, job);
      assert states[i - 1 + 1] == After(states[i - 1], events[i - 1]);
      ParentStep(states[i - 1], events[i - 1], job);
      BytesStep(states[i - 1], events[i - 1], job);
    }
  }

  // ---- admission --------------------------------------------------------------

  /** The queued and running units leave room for the new ones. */
  ghost predicate HasRoom(t: Tables, r: EnqueueRequest) {
    |set id | id in t.units && (t.units[id].status == Queued || t.units[id].status == Running)| + |r.ids|
    <= (if r.maxActive < 1 then 1 else r.maxActive) + (if r.maxQueued < 0 then 0 else r.maxQueued)
  }

  /** With no byte limit, or no bytes asked for, any reservations fit; otherwise those of the other jobs count. */
  ghost predicate BytesFit(t: Tables, r: EnqueueRequest) {
    r.bytes <= 0 || r.maxBytes <= 0 || Reserved(t.reservations - {r.job}) + r.bytes <= r.maxBytes
  }

  /** The slots of the new units are free. */
  ghost predicate SlotsFree(t: Tables, r: EnqueueRequest) {
    forall id :: id in t.units && t.units[id].parent == r.job ==> t.units[id].index >= |r.ids|
  }

  /**
   An order is admitted exactly when there is room, its bytes fit beside those of the
   other jobs, and its slots are free.
   */
  lemma {:induction false} AdmissionExact(t: Tables, r: EnqueueRequest)
    ensures EnqueueVerdict(t, r) == QueueFull <==> !HasRoom(t, r)
    ensures EnqueueVerdict(t, r) == EditSourcesFull <==> HasRoom(t, r) && !BytesFit(t, r)
    ensures EnqueueVerdict(t, r) == UniqueViolation <==> HasRoom(t, r) && BytesFit(t, r) && !SlotsFree(t, r)
    ensures EnqueueVerdict(t, r) == Enqueued <==> HasRoom(t, r) && BytesFit(t, r) && SlotsFree(t, r)
  {
    ReservedAt(t.reservations, r.job);
    assert Pending(t.units) == set id | id in t.units &&
        (t.units[id].status == Queued || t.units[id].status == Running);
  }

  // ---- what a claim takes -----------------------------------------------------

  /** In this order, or the same in it. */
  predicate NoLater(a: Unit, b: Unit) {
    if a.createdAt != b.createdAt then a.createdAt < b.createdAt else a.index <= b.index
  }

  /** The lease is over, and an attempt or, with a checkpoint, a recovery is left. */
  predicate CanRetry(u: Unit, r: ClaimRequest) {
    && u.status == Running && u.expiresAt.Some? && u.expiresAt.value <= r.now
    && (u.attempts < r.maxAttempts || (u.checkpointed && u.recoveries < r.maxRecoveries))
  }

  /**
   A claim takes, before any queued unit, the abandoned one whose lease ended first, the
   oldest of those, and of a job the one of least index; without any, the oldest queued
   unit likewise.
   */
  lemma {:induction false} ClaimTakesTheOldest(units: map<UnitId, Unit>, r: ClaimRequest, id: UnitId)
    requires ClaimOutcome(units, r, Some(id))
    ensures id in units
    ensures forall other :: other in units && CanRetry(units[other], r) ==>
              && CanRetry(units[id], r)
              && (units[id].expiresAt.value < units[other].expiresAt.value ||
                  (units[id].expiresAt == units[other].expiresAt && NoLater(units[id], units[other])))
    ensures !CanRetry(units[id], r) ==> units[id].status == Queued
    ensures forall other :: other in units && units[other].status == Queued && !CanRetry(units[id], r)
                            ==> NoLater(units[id], units[other])
  {
    forall other | other in units && CanRetry(units[other], r)
      ensures other in ReclaimableUnits(units, r.now, r.maxAttempts, r.maxRecoveries)
    {}
    forall other | other in units && units[other].status == Queued
      ensures other in WithStatus(units, Queued)
    {}
  }

  /** The limits that apply when an argument is missing, zero or negative. */
  lemma {:induction false} LimitsByDefault(configured: int, given: int)
    ensures AttemptLimit(configured, None) == (if configured >= 1 then configured else 1)
    ensures AttemptLimit(configured, Some(given)) == (if given >= 1 then given else 1)
    ensures RecoveryLimit(None) == RecoveryLimit(Some(0)) == 5
    ensures given != 0 ==> RecoveryLimit(Some(given)) == (if given >= 1 then given else 1)
  {}

  // ---- the images of a job ----------------------------------------------------

  /** Number of images of the successful rows before row `i`. */
  function ImagesBefore(rows: seq<Unit>, i: nat): nat
    requires i <= |rows|
  {
    if i == 0 then 0 else ImagesBefore(rows, i - 1) + if rows[i - 1].status == Success then |rows[i - 1].images| else 0
  }

  lemma {:induction false} ImagesBeforeTail(rows: seq<Unit>, i: nat)
    requires 0 < i <= |rows|
    ensures ImagesBefore(rows, i) ==
            (if rows[0].status == Success then |rows[0].images| else 0) + ImagesBefore(rows[1..], i - 1)
  {
    if i > 1 { ImagesBeforeTail(rows, i - 1); }
  }

  lemma {:induction false} ImagesSize(rows: seq<Unit>)
    ensures |ImagesOf(rows)| == ImagesBefore(rows, |rows|)
  {
    if rows != [] {
      ImagesSize(rows[1..]);
      ImagesBeforeTail(rows, |rows|);
    }
  }

  /**
   The images of a job, place by place: those of its successful units in row order, each
   with the index of its unit and its place in that unit's result, and no others.
   */
  lemma {:induction false} ImagesExactly(rows: seq<Unit>, i: nat, k: nat)
    requires i < |rows| && rows[i].status == Success && k < |rows[i].images|
    ensures |ImagesOf(rows)| == ImagesBefore(rows, |rows|)
    ensures ImagesBefore(rows, i) + k < |ImagesOf(rows)|
    ensures ImagesOf(rows)[ImagesBefore(rows, i) + k] == TaggedImage(rows[i].images[k], rows[i].index, k)
  {
    ImagesSize(rows);
    if i > 0 {
      ImagesExactly(rows[1..], i - 1, k);
      ImagesBeforeTail(rows, i);
    }
  }
}
