/**
 The image job queue of backend/app/repositories/image_jobs.py as a state machine.

 The three tables are maps; every repository function is one atomic transaction,
 so it is one step from tables to tables. Timestamps are integers and
 identifiers are numbers: only their order and their equality matter.
 */
module ImageQueue {
  import opened Common

  type Time = int
  type JobId = nat
  type UnitId = nat
  type Token = nat
  type WorkerId = nat
  /** A JSON document the queue stores and never looks into. */
  type Payload = string
  type Image = nat

  const IMAGE_JOB_UNIT_MAX_RECOVERIES := 5

  datatype Status =
    | Queued | Running
    | Success | PartialFailure | Error | UpstreamError | Cancelled | Interrupted

  predicate Active(s: Status) { s == Queued || s == Running }

  /** The statuses the aggregate counts as completed. */
  predicate Terminal(s: Status) {
    s == Success || s == Error || s == UpstreamError || s == Cancelled || s == Interrupted
  }

  datatype Stage = QueuedStage | CompletedStage | InterruptedStage | CancelledStage | Reported(text: string)

  /** One row of `image_job_units`. */
  datatype Unit = Unit(
    parent: JobId, index: nat, createdAt: Time,
    status: Status, stage: Stage,
    claimedBy: Option<WorkerId>, token: Option<Token>, expiresAt: Option<Time>,
    attempts: nat, recoveries: nat,
    checkpointed: bool, remote: Option<Payload>,
    startedAt: Option<Time>, completedAt: Option<Time>, updatedAt: Time,
    error: Option<string>, images: seq<Image>,
    usage: Option<Payload>, cost: Option<Payload>)

  /** One row of `generate_jobs`: the columns the queue reads or writes. */
  datatype Parent = Parent(status: Status, stage: Stage, updatedAt: Time, completedAt: Option<Time>, images: seq<Image>)

  datatype Tables = Tables(
    parents: map<JobId, Parent>, units: map<UnitId, Unit>, reservations: map<JobId, nat>)

  // ---- argument normalisation -------------------------------------------------

  /** `max(1, int(limit or 1))`. */
  function AtLeastOne(limit: int): nat { Max(1, limit) }

  /** `max_attempts` when it is given, the configured value otherwise, and never below one. */
  function AttemptLimit(configured: int, maxAttempts: Option<int>): nat {
    AtLeastOne(maxAttempts.GetOr(configured))
  }

  /** `max(1, int(max_recoveries or IMAGE_JOB_UNIT_MAX_RECOVERIES))`. */
  function RecoveryLimit(maxRecoveries: Option<int>): nat {
    if maxRecoveries.None? || maxRecoveries.value == 0 then IMAGE_JOB_UNIT_MAX_RECOVERIES
    else Max(1, maxRecoveries.value)
  }

  function Capacity(maxActive: int, maxQueued: int): nat { Max(1, maxActive) + Max(0, maxQueued) }

  // ---- claiming ---------------------------------------------------------------

  predicate LiveLease(u: Unit, now: Time) {
    u.status == Running && u.expiresAt.Some? && u.expiresAt.value > now
  }

  predicate ExpiredLease(u: Unit, now: Time) {
    u.status == Running && u.expiresAt.Some? && u.expiresAt.value <= now
  }

  predicate Reclaimable(u: Unit, now: Time, maxAttempts: nat, maxRecoveries: nat) {
    ExpiredLease(u, now) && (u.attempts < maxAttempts || (u.checkpointed && u.recoveries < maxRecoveries))
  }

  predicate Exhausted(u: Unit, now: Time, maxAttempts: nat, maxRecoveries: nat) {
    ExpiredLease(u, now) && u.attempts >= maxAttempts && (!u.checkpointed || u.recoveries >= maxRecoveries)
  }

  predicate QueuedBefore(a: Unit, b: Unit) {
    a.createdAt < b.createdAt || (a.createdAt == b.createdAt && a.index <= b.index)
  }

  predicate ExpiredBefore(a: Unit, b: Unit)
    requires a.expiresAt.Some? && b.expiresAt.Some?
  {
    a.expiresAt.value < b.expiresAt.value || (a.expiresAt == b.expiresAt && QueuedBefore(a, b))
  }

  function Live(units: map<UnitId, Unit>, now: Time): set<UnitId> {
    set id | id in units && LiveLease(units[id], now)
  }

  function ReclaimableUnits(units: map<UnitId, Unit>, now: Time, maxAttempts: nat, maxRecoveries: nat): set<UnitId> {
    set id | id in units && Reclaimable(units[id], now, maxAttempts, maxRecoveries)
  }

  function WithStatus(units: map<UnitId, Unit>, s: Status): set<UnitId> {
    set id | id in units && units[id].status == s
  }

  datatype ClaimRequest = ClaimRequest(
    worker: WorkerId, token: Token, lease: Time, now: Time,
    runningLimit: int, maxAttempts: nat, maxRecoveries: nat)

  /**
   `has_claimable_image_job_unit`: some candidate exists and, when a limit is
   given, fewer leases than that are live.
   */
  predicate HasClaimable(units: map<UnitId, Unit>, now: Time, maxAttempts: nat, runningLimit: Option<int>,
      maxRecoveries: nat)
  {
    (ReclaimableUnits(units, now, maxAttempts, maxRecoveries) != {} || WithStatus(units, Queued) != {}) &&
    (runningLimit.Some? ==> |Live(units, now)| < AtLeastOne(runningLimit.value))
  }

  /** The unit the claim query selects: a least expired reclaimable one, else a least queued one. */
  ghost predicate IsCandidate(units: map<UnitId, Unit>, r: ClaimRequest, id: UnitId) {
    var reclaimable := ReclaimableUnits(units, r.now, r.maxAttempts, r.maxRecoveries);
    var queued := WithStatus(units, Queued);
    if reclaimable != {} then
      id in reclaimable && forall other :: other in reclaimable ==> ExpiredBefore(units[id], units[other])
    else
      id in queued && forall other :: other in queued ==> QueuedBefore(units[id], units[other])
  }

  /** The columns the claim UPDATE writes. */
  function ClaimedUnit(u: Unit, r: ClaimRequest): Unit {
    u.(status := Running,
       claimedBy := Some(r.worker), token := Some(r.token), expiresAt := Some(r.lease),
       attempts := u.attempts + 1,
       recoveries := u.recoveries + if u.status == Running then 1 else 0,
       startedAt := if u.startedAt.Some? then u.startedAt else Some(r.now),
       updatedAt := r.now)
  }

  /** What the claim transaction may do: `chosen` is the claimed unit, None when nothing is claimed. */
  ghost predicate ClaimOutcome(units: map<UnitId, Unit>, r: ClaimRequest, chosen: Option<UnitId>) {
    if chosen.Some? then
      |Live(units, r.now)| < AtLeastOne(r.runningLimit) && IsCandidate(units, r, chosen.value)
    else
      |Live(units, r.now)| >= AtLeastOne(r.runningLimit) || forall id :: !IsCandidate(units, r, id)
  }

  // ---- writes fenced by the claim token ---------------------------------------

  predicate Owns(units: map<UnitId, Unit>, id: UnitId, token: Token) {
    id in units && units[id].status == Running && units[id].token == Some(token)
  }

  datatype Write =
    | Renew(until: Time)
    | Remote(remote: Option<Payload>, checkpointed: bool, now: Time)
    | Progress(stage: string, lease: Option<Time>, now: Time)
    | Complete(images: seq<Image>, usage: Option<Payload>, cost: Option<Payload>, completedAt: Time, now: Time)
    | Fail(status: Status, stage: string, error: string, usage: Option<Payload>, cost: Option<Payload>,
           finishedAt: Option<Time>, now: Time)

  function OrElse<T>(a: Option<T>, b: Option<T>): Option<T> { if a.Some? then a else b }

  function Released(u: Unit): Unit {
    u.(claimedBy := None, token := None, expiresAt := None)
  }

  function Written(u: Unit, w: Write): Unit {
    match w
    case Renew(until) => u.(expiresAt := Some(until))
    case Remote(remote, checkpointed, now) =>
      u.(remote := remote, checkpointed := checkpointed, updatedAt := now)
    case Progress(stage, lease, now) =>
      u.(stage := Reported(stage), expiresAt := OrElse(lease, u.expiresAt), updatedAt := now)
    case Complete(images, usage, cost, completedAt, now) =>
      Released(u.(status := Success, stage := CompletedStage, images := images, usage := usage, cost := cost,
                  completedAt := Some(completedAt), updatedAt := now))
    case Fail(status, stage, error, usage, cost, finishedAt, now) =>
      Released(u.(status := status, stage := Reported(stage), error := Some(error),
                  usage := OrElse(usage, u.usage), cost := OrElse(cost, u.cost),
                  completedAt := Some(finishedAt.GetOr(now)), updatedAt := now))
  }

  /** Every one of these writes is `UPDATE ... WHERE unit_id = ? AND status = 'running' AND claim_token = ?`. */
  function FencedWrite(units: map<UnitId, Unit>, id: UnitId, token: Token, w: Write): map<UnitId, Unit> {
    if Owns(units, id, token) then units[id := Written(units[id], w)] else units
  }

  // ---- expiry and cancellation ------------------------------------------------

  function InterruptedUnit(u: Unit, now: Time): Unit {
    Released(u.(status := Interrupted, stage := InterruptedStage,
                error := Some(if u.checkpointed then "Remote task recovery was interrupted too many times"
                              else "Unit lease expired after multiple attempts"),
                completedAt := Some(now), updatedAt := now))
  }

  function ExpireExhausted(units: map<UnitId, Unit>, now: Time, maxAttempts: nat, maxRecoveries: nat)
      : map<UnitId, Unit>
  {
    map id | id in units ::
      if Exhausted(units[id], now, maxAttempts, maxRecoveries) then InterruptedUnit(units[id], now) else units[id]
  }

  function CancelledUnit(u: Unit, now: Time): Unit {
    Released(u.(status := Cancelled, stage := CancelledStage, error := Some("Generation job cancelled"),
                completedAt := Some(now), updatedAt := now))
  }

  function CancelUnits(units: map<UnitId, Unit>, job: JobId, now: Time): map<UnitId, Unit> {
    map id | id in units ::
      if units[id].parent == job && Active(units[id].status) then CancelledUnit(units[id], now) else units[id]
  }

  // ---- admission --------------------------------------------------------------

  datatype EnqueueRequest = EnqueueRequest(
    job: JobId, parent: Parent, ids: seq<UnitId>, bytes: int,
    maxActive: int, maxQueued: int, maxBytes: int, now: Time)

  datatype EnqueueOutcome = Enqueued | QueueFull | EditSourcesFull | UniqueViolation

  function Pending(units: map<UnitId, Unit>): set<UnitId> {
    set id | id in units && Active(units[id].status)
  }

  /** Sum of the reserved bytes. */
  ghost function Reserved(reservations: map<JobId, nat>): nat {
    if reservations == map[] then 0
    else
      var job :| job in reservations;
      reservations[job] + Reserved(reservations - {job})
  }

  function BytesOf(reservations: map<JobId, nat>, job: JobId): nat {
    if job in reservations then reservations[job] else 0
  }

  function NewUnit(job: JobId, index: nat, now: Time): Unit {
    Unit(job, index, now, Queued, QueuedStage, None, None, None, 0, 0, false, None,
         None, None, now, None, [], None, None)
  }

  /** Unit `k` of the job is stored under `ids[k]`. */
  function NewUnits(job: JobId, ids: seq<UnitId>, now: Time): map<UnitId, Unit> {
    map id | id in ids :: NewUnit(job, Max(0, IndexOf(ids, id)), now)
  }

  /** `ON CONFLICT(job_id) DO UPDATE ... WHERE status is active`. */
  function UpsertParent(parents: map<JobId, Parent>, job: JobId, parent: Parent): map<JobId, Parent> {
    if job in parents && !Active(parents[job].status) then parents else parents[job := parent]
  }

  function EnqueuedReservations(reservations: map<JobId, nat>, r: EnqueueRequest): map<JobId, nat> {
    var upserted := if Active(r.parent.status) then reservations else reservations - {r.job};
    if r.bytes > 0 then upserted[r.job := r.bytes]
    else if BytesOf(reservations, r.job) > 0 then upserted - {r.job}
    else upserted
  }

  /** The verdict of `enqueue_image_job`; the last case is the UNIQUE(parent_job_id, unit_index) constraint. */
  ghost function EnqueueVerdict(t: Tables, r: EnqueueRequest): EnqueueOutcome {
    if |Pending(t.units)| + |r.ids| > Capacity(r.maxActive, r.maxQueued) then QueueFull
    else if r.bytes > 0 && r.maxBytes > 0
            && Reserved(t.reservations) - BytesOf(t.reservations, r.job) + r.bytes > r.maxBytes then EditSourcesFull
    else if exists id :: id in t.units && t.units[id].parent == r.job && t.units[id].index < |r.ids|
    then UniqueViolation
    else Enqueued
  }

  /** Fresh, pairwise distinct unit identifiers, at least one of them (`max(1, image_units)`). */
  ghost predicate FreshIds(ids: seq<UnitId>, taken: set<UnitId>) {
    |ids| >= 1 &&
    (forall i :: 0 <= i < |ids| ==> ids[i] !in taken) &&
    (forall i, j :: 0 <= i < j < |ids| ==> ids[i] != ids[j])
  }

  ghost function EnqueueTables(t: Tables, r: EnqueueRequest): Tables
    requires FreshIds(r.ids, t.units.Keys)
  {
    if EnqueueVerdict(t, r) != Enqueued then t
    else
      Tables(UpsertParent(t.parents, r.job, r.parent),
             t.units + NewUnits(r.job, r.ids, r.now),
             EnqueuedReservations(t.reservations, r))
  }

  // ---- parents ----------------------------------------------------------------

  /** `transition_generate_job_to_terminal` and the parent half of the others: only an active row is written. */
  predicate ParentActive(t: Tables, job: JobId) {
    job in t.parents && Active(t.parents[job].status)
  }

  function TransitionTables(t: Tables, job: JobId, update: Parent): Tables {
    if ParentActive(t, job) then
      t.(parents := t.parents[job := update], reservations := t.reservations - {job})
    else t
  }

  function CancelledParent(p: Parent, now: Time): Parent {
    p.(status := Cancelled, stage := CancelledStage, updatedAt := now, completedAt := Some(now))
  }

  function CancelTables(t: Tables, job: JobId, now: Time): Tables {
    if ParentActive(t, job) then
      Tables(t.parents[job := CancelledParent(t.parents[job], now)],
             CancelUnits(t.units, job, now),
             t.reservations - {job})
    else t
  }

  function FinalizeTables(t: Tables, job: JobId, update: Option<Parent>): Tables {
    if ParentActive(t, job) && update.Some? then
      t.(parents := t.parents[job := update.value],
         reservations := if Active(update.value.status) then t.reservations else t.reservations - {job})
    else t
  }

  // ---- deletions --------------------------------------------------------------

  function UnitsOutside(units: map<UnitId, Unit>, jobs: set<JobId>): map<UnitId, Unit> {
    map id | id in units && units[id].parent !in jobs :: units[id]
  }

  /** `clear_generate_job_history` (all finished jobs) and `trim_generate_jobs` (some of them). */
  function ForgetTables(t: Tables, jobs: set<JobId>): Tables {
    Tables(t.parents - jobs, UnitsOutside(t.units, jobs), t.reservations - jobs)
  }

  function ActiveJobs(t: Tables): set<JobId> {
    set job | job in t.parents && Active(t.parents[job].status)
  }

  /** `mark_active_generate_jobs_interrupted`. */
  function InterruptActiveTables(t: Tables, now: Time): Tables {
    var jobs := ActiveJobs(t);
    Tables(map job | job in t.parents ::
             if job in jobs then t.parents[job].(status := Interrupted, stage := InterruptedStage,
                                                 completedAt := Some(now), updatedAt := now)
             else t.parents[job],
           UnitsOutside(t.units, jobs),
           t.reservations - jobs)
  }
}
