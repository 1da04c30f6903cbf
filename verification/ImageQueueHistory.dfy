/**
 What the rows of `image_job_units` hold: each column, in every run, from the events
 of that unit alone - backend/app/repositories/image_jobs.py.
 */
module ImageQueueHistory {
  import opened Common
  import opened ImageQueue
  import opened ImageQueueRuns

  /** What an event means for one unit. */
  datatype Effect =
    | Nothing
    | Created(job: JobId, index: nat, now: Time)
    | Taken(request: ClaimRequest)
    | Wrote(write: Write)
    | Swept(now: Time)
    | Stopped(now: Time)

  predicate IsActive(s: Status) { s == Queued || s == Running }

  function EffectOn(t: Tables, e: Event, id: UnitId): Effect {
    match e
    case Enqueue(order) =>
      if id !in t.units && id in order.ids then Created(order.job, Max(0, IndexOf(order.ids, id)), order.now)
          else Nothing
    case Claim(request, chosen) => if chosen == Some(id) then Taken(request) else Nothing
    case Fenced(unit, token, write) =>
      if unit == id && id in t.units && t.units[id].status == Running &&
          t.units[id].token == Some(token) then Wrote(write)
      else Nothing
    case Expire(now, maxAttempts, maxRecoveries) =>
      if id !in t.units then Nothing
      else
        var u := t.units[id];
        if && u.status == Running && u.expiresAt.Some? && u.expiresAt.value <= now && u.attempts >= maxAttempts
           && (!u.checkpointed || u.recoveries >= maxRecoveries)
        then Swept(now) else Nothing
    case Cancel(job, now) =>
      if && id in t.units && t.units[id].parent == job && IsActive(t.units[id].status)
         && job in t.parents && IsActive(t.parents[job].status)
      then Stopped(now) else Nothing
    case _ => Nothing
  }

  /** The effects of the first `i` events on the unit, in order. */
  ghost function Effects(states: seq<System>, events: seq<Event>, i: nat, id: UnitId): seq<Effect>
    requires |states| == |events| + 1 && i <= |events|
  {
    if i == 0 then []
    else
      var x := EffectOn(states[i - 1].tables, events[i - 1], id);
      Effects(states, events, i - 1, id) + if x.Nothing? then [] else [x]
  }

  // ---- the columns ------------------------------------------------------------

  function Init(fx: seq<Effect>): seq<Effect>
    requires fx != []
  {
    fx[..|fx| - 1]
  }

  function Last(fx: seq<Effect>): Effect
    requires fx != []
  {
    fx[|fx| - 1]
  }

  /** A unit is finished by a completion, a failure, the sweep or a cancellation. */
  predicate Ends(x: Effect) { x.Swept? || x.Stopped? || (x.Wrote? && (x.write.Complete? || x.write.Fail?)) }

  function StatusOf(fx: seq<Effect>): Status {
    if fx == [] || Last(fx).Created? then Queued
    else
      var x := Last(fx);
      if x.Taken? then Running
      else if x.Swept? then Interrupted
      else if x.Stopped? then Cancelled
      else if x.Wrote? && x.write.Complete? then Success
      else if x.Wrote? && x.write.Fail? then x.write.status
      else StatusOf(Init(fx))
  }

  function StageOf(fx: seq<Effect>): Stage {
    if fx == [] || Last(fx).Created? then QueuedStage
    else
      var x := Last(fx);
      if x.Swept? then InterruptedStage
      else if x.Stopped? then CancelledStage
      else if x.Wrote? && x.write.Complete? then CompletedStage
      else if x.Wrote? && (x.write.Fail? || x.write.Progress?) then Reported(x.write.stage)
      else StageOf(Init(fx))
  }

  /** The claim that holds the unit: the last one, until the unit is finished. */
  function HolderOf(fx: seq<Effect>): Option<ClaimRequest> {
    if fx == [] || Last(fx).Created? || Ends(Last(fx)) then None
    else if Last(fx).Taken? then Some(Last(fx).request)
    else HolderOf(Init(fx))
  }

  /** The last expiry written by a claim, a renewal or a progress report, until the unit is finished. */
  function ExpiryOf(fx: seq<Effect>): Option<Time> {
    if fx == [] || Last(fx).Created? || Ends(Last(fx)) then None
    else
      var x := Last(fx);
      if x.Taken? then Some(x.request.lease)
      else if x.Wrote? && x.write.Renew? then Some(x.write.until)
      else if x.Wrote? && x.write.Progress? && x.write.lease.Some? then x.write.lease
      else ExpiryOf(Init(fx))
  }

  /** Number of claims. */
  function ClaimsIn(fx: seq<Effect>): nat {
    if fx == [] || Last(fx).Created? then 0 else ClaimsIn(Init(fx)) + if Last(fx).Taken? then 1 else 0
  }

  /** The remote task of the last checkpoint write. */
  function RemoteOf(fx: seq<Effect>): Option<Payload> {
    if fx == [] || Last(fx).Created? then None
    else if Last(fx).Wrote? && Last(fx).write.Remote? then Last(fx).write.remote
    else RemoteOf(Init(fx))
  }

  predicate CheckpointedIn(fx: seq<Effect>) {
    if fx == [] || Last(fx).Created? then false
    else if Last(fx).Wrote? && Last(fx).write.Remote? then Last(fx).write.checkpointed
    else CheckpointedIn(Init(fx))
  }

  /** The time of the first claim. */
  function StartOf(fx: seq<Effect>): Option<Time> {
    if fx == [] || Last(fx).Created? then None
    else if StartOf(Init(fx)).Some? then StartOf(Init(fx))
    else if Last(fx).Taken? then Some(Last(fx).request.now)
    else None
  }

  function EndTimeOf(fx: seq<Effect>): Option<Time> {
    if fx == [] || Last(fx).Created? then None
    else
      var x := Last(fx);
      if x.Swept? || x.Stopped? then Some(x.now)
      else if x.Wrote? && x.write.Complete? then Some(x.write.completedAt)
      else if x.Wrote? && x.write.Fail? then Some(x.write.finishedAt.GetOr(x.write.now))
      else EndTimeOf(Init(fx))
  }

  /** The time of the last effect that is not a renewal. */
  function UpdateTimeOf(fx: seq<Effect>): Time {
    if fx == [] then 0
    else
      var x := Last(fx);
      if x.Created? || x.Swept? || x.Stopped? then x.now
      else if x.Taken? then x.request.now
      else if x.Wrote? && !x.write.Renew? then x.write.now
      else UpdateTimeOf(Init(fx))
  }

  function ErrorOf(fx: seq<Effect>): Option<string> {
    if fx == [] || Last(fx).Created? then None
    else
      var x := Last(fx);
      if x.Swept? then
        Some(if CheckpointedIn(Init(fx)) then "Remote task recovery was interrupted too many times"
             else "Unit lease expired after multiple attempts")
      else if x.Stopped? then Some("Generation job cancelled")
      else if x.Wrote? && x.write.Fail? then Some(x.write.error)
      else ErrorOf(Init(fx))
  }

  function ImagesIn(fx: seq<Effect>): seq<Image> {
    if fx == [] || Last(fx).Created? then []
    else if Last(fx).Wrote? && Last(fx).write.Complete? then Last(fx).write.images
    else ImagesIn(Init(fx))
  }

  function UsageIn(fx: seq<Effect>): Option<Payload> {
    if fx == [] || Last(fx).Created? then None
    else if Last(fx).Wrote? && Last(fx).write.Complete? then Last(fx).write.usage
    else if Last(fx).Wrote? && Last(fx).write.Fail? && Last(fx).write.usage.Some? then Last(fx).write.usage
    else UsageIn(Init(fx))
  }

  function CostIn(fx: seq<Effect>): Option<Payload> {
    if fx == [] || Last(fx).Created? then None
    else if Last(fx).Wrote? && Last(fx).write.Complete? then Last(fx).write.cost
    else if Last(fx).Wrote? && Last(fx).write.Fail? && Last(fx).write.cost.Some? then Last(fx).write.cost
    else CostIn(Init(fx))
  }

  /** The creation of the unit is the first of its effects. */
  predicate Begun(fx: seq<Effect>) { fx != [] && fx[0].Created? && forall k :: 0 < k < |fx| ==> !fx[k].Created? }

  /** Who has the unit, and where it stands. */
  ghost predicate StateHolds(u: Unit, fx: seq<Effect>) {
    && u.status == StatusOf(fx) && u.stage == StageOf(fx) && u.expiresAt == ExpiryOf(fx)
    && (if HolderOf(fx).None? then u.claimedBy == None && u.token == None
        else u.claimedBy == Some(HolderOf(fx).value.worker) && u.token == Some(HolderOf(fx).value.token))
    && u.attempts == ClaimsIn(fx) && u.recoveries == Max(0, ClaimsIn(fx) - 1)
  }

  ghost predicate TimesHold(u: Unit, fx: seq<Effect>) {
    u.startedAt == StartOf(fx) && u.completedAt == EndTimeOf(fx) && u.updatedAt == UpdateTimeOf(fx)
  }

  /** The remote task and the error. */
  ghost predicate TaskHolds(u: Unit, fx: seq<Effect>) {
    u.remote == RemoteOf(fx) && u.checkpointed == CheckpointedIn(fx) && u.error == ErrorOf(fx)
  }

  /** The result and the bill. */
  ghost predicate DataHolds(u: Unit, fx: seq<Effect>) {
    u.images == ImagesIn(fx) && u.usage == UsageIn(fx) && u.cost == CostIn(fx)
  }

  /** Every column of the row, each from the effects by itself. */
  ghost predicate RowHolds(u: Unit, fx: seq<Effect>) {
    && Begun(fx) && u.parent == fx[0].job && u.index == fx[0].index && u.createdAt == fx[0].now
    && StateHolds(u, fx) && TimesHold(u, fx) && TaskHolds(u, fx) && DataHolds(u, fx)
  }

  // ---- every row of every run -------------------------------------------------

  lemma {:induction false} NewRowHolds(job: JobId, index: nat, now: Time)
    ensures RowHolds(NewUnit(job, index, now), [Created(job, index, now)])
  {}

  /** The row after an effect of the unit. */
  function Changed(u: Unit, x: Effect): Unit {
    match x
    case Taken(request) => ClaimedUnit(u, request)
    case Wrote(write) => Written(u, write)
    case Swept(now) => InterruptedUnit(u, now)
    case Stopped(now) => CancelledUnit(u, now)
    case _ => u
  }

  /** The effect can befall the row. */
  ghost predicate CanChange(u: Unit, x: Effect) {
    && UnitOk(u) && !x.Created? && !x.Nothing?
    && (x.Taken? ==> u.status == Queued || u.status == Running)
    && (x.Wrote? || x.Swept? ==> u.status == Running) && (x.Stopped? ==> IsActive(u.status))
  }

  lemma {:induction false} StateChanges(u: Unit, fx: seq<Effect>, x: Effect)
    requires StateHolds(u, fx) && CanChange(u, x)
    ensures StateHolds(Changed(u, x), fx + [x])
  {
    var all := fx + [x];
    assert Init(all) == fx && Last(all) == x;
  }

  lemma {:induction false} TimesChange(u: Unit, fx: seq<Effect>, x: Effect)
    requires TimesHold(u, fx) && CanChange(u, x)
    ensures TimesHold(Changed(u, x), fx + [x])
  {
    var all := fx + [x];
    assert Init(all) == fx && Last(all) == x;
  }

  lemma {:induction false} TaskChanges(u: Unit, fx: seq<Effect>, x: Effect)
    requires TaskHolds(u, fx) && CanChange(u, x)
    ensures TaskHolds(Changed(u, x), fx + [x])
  {
    var all := fx + [x];
    assert Init(all) == fx && Last(all) == x;
  }

  lemma {:induction false} DataChanges(u: Unit, fx: seq<Effect>, x: Effect)
    requires DataHolds(u, fx) && CanChange(u, x)
    ensures DataHolds(Changed(u, x), fx + [x])
  {
    var all := fx + [x];
    assert Init(all) == fx && Last(all) == x;
  }

  lemma {:induction false} ChangeHolds(u: Unit, fx: seq<Effect>, x: Effect)
    requires RowHolds(u, fx) && CanChange(u, x)
    ensures RowHolds(Changed(u, x), fx + [x])
  {
    StateChanges(u, fx, x);
    TimesChange(u, fx, x);
    TaskChanges(u, fx, x);
    DataChanges(u, fx, x);
    SlotStays(u, x);
    hide StateHolds, TimesHold, TaskHolds, DataHolds, Changed, CanChange;
    assert (fx + [x])[0] == fx[0];
  }

  lemma {:induction false} SlotStays(u: Unit, x: Effect)
    ensures Changed(u, x).parent == u.parent && Changed(u, x).index == u.index && Changed(u, x).createdAt == u.createdAt
    ensures CanChange(u, x) ==> !x.Created?
  {}

  lemma {:induction false} KeptRow(s: System, e: Event, id: UnitId)
    requires Allowed(s, e) && id in s.tables.units && id in Step(s.tables, e).units
    ensures
      var x := EffectOn(s.tables, e, id);
      Step(s.tables, e).units[id] == Changed(s.tables.units[id], x) && !x.Created?
  {
    hide EnqueueVerdict, EnqueuedReservations, ClaimOutcome, ClaimedUnit, Written, Released;
  }

  lemma {:induction false} NewRow(s: System, e: Event, id: UnitId)
    requires Allowed(s, e) && id !in s.tables.units && id in Step(s.tables, e).units
    ensures
      var x := EffectOn(s.tables, e, id);
      x.Created? && Step(s.tables, e).units[id] == NewUnit(x.job, x.index, x.now)
  {
    hide EnqueueVerdict, EnqueuedReservations, ClaimOutcome, ClaimedUnit, Written;
  }

  lemma {:induction false} EffectFits(s: System, e: Event, id: UnitId)
    requires SystemOk(s) && Allowed(s, e) && id in s.tables.units
    ensures
      var x := EffectOn(s.tables, e, id);
      x.Nothing? || CanChange(s.tables.units[id], x)
  {
    assert UnitOk(s.tables.units[id]);
    ClaimedStatus(s, e, id);
    hide SystemOk, Allowed, UnitOk;
  }

  lemma {:induction false} RowEffect(s: System, e: Event, id: UnitId)
    requires SystemOk(s) && Allowed(s, e) && id in Step(s.tables, e).units
    ensures
      var x, after := EffectOn(s.tables, e, id), Step(s.tables, e).units[id];
      if id !in s.tables.units then x.Created? && after == NewUnit(x.job, x.index, x.now)
      else
        var u := s.tables.units[id];
        after == Changed(u, x) && !x.Created? && (x.Nothing? || CanChange(u, x))
  {
    hide Step, Allowed, SystemOk, EffectOn, Changed, CanChange;
    if id in s.tables.units {
      KeptRow(s, e, id);
      EffectFits(s, e, id);
    } else {
      NewRow(s, e, id);
    }
  }

  lemma {:induction false} ClaimedStatus(s: System, e: Event, id: UnitId)
    requires Allowed(s, e)
    ensures e.Claim? && e.chosen == Some(id) ==>
              && id in s.tables.units
              && (s.tables.units[id].status == Queued || s.tables.units[id].status == Running)
  {
    assert e.Claim? && e.chosen == Some(id) ==> IsCandidate(s.tables.units, e.request, id);
  }

  /** A stored row was there before, or is created now under an identifier never used. */
  lemma {:induction false} EffectsUnused(states: seq<System>, events: seq<Event>, i: nat, id: UnitId)
    requires IsRun(states, events) && i <= |events| && id !in states[i].ids
    ensures Effects(states, events, i, id) == []
  {
    hide Step, Allowed, SystemOk;
    if i > 0 {
      assert states[i - 1 + 1] == After(states[i - 1], events[i - 1]);
      RunOk(states, events, i - 1);
      OkIds(states[i - 1]);
      EffectsUnused(states, events, i - 1, id);
      NoEffect(states[i - 1], events[i - 1], id);
    }
  }

  lemma {:induction false} NoEffect(s: System, e: Event, id: UnitId)
    requires Allowed(s, e) && id !in s.tables.units && !(e.Enqueue? && id in e.order.ids)
    ensures EffectOn(s.tables, e, id).Nothing?
  {
    assert e.Claim? && e.chosen == Some(id) ==> IsCandidate(s.tables.units, e.request, id);
  }

  lemma {:induction false} OldId(s: System, e: Event, id: UnitId)
    requires Allowed(s, e) && id in Step(s.tables, e).units && id !in s.tables.units
    ensures id !in s.ids
  {
    RowsStep(s, e, id);
    hide Step, EnqueueVerdict;
  }

  /**
   In every state of every run each stored row is what the effects on its unit say,
   column by column: who holds it and until when, its checkpoint, result, usage, cost,
   error, stage and times are those of the last event that writes that column.
   */
  lemma {:induction false} RowIsItsHistory(states: seq<System>, events: seq<Event>, i: nat, id: UnitId)
    requires IsRun(states, events) && i <= |events| && id in states[i].tables.units
    ensures RowHolds(states[i].tables.units[id], Effects(states, events, i, id))
  {
    hide Step, Allowed, SystemOk, RowHolds, EffectOn, Changed, CanChange;
    if i > 0 {
      var s, e := states[i - 1], events[i - 1];
      assert states[i - 1 + 1] == After(s, e);
      RunOk(states, events, i - 1);
      RowEffect(s, e, id);
      var fx, x := Effects(states, events, i - 1, id), EffectOn(s.tables, e, id);
      if id in s.tables.units {
        RowIsItsHistory(states, events, i - 1, id);
        if x.Nothing? {
          SameRow(s.tables.units[id], x);
          assert fx + [] == fx;
        } else {
          ChangeHolds(s.tables.units[id], fx, x);
        }
      } else {
        OldId(s, e, id);
        EffectsUnused(states, events, i - 1, id);
        NewRowHolds(x.job, x.index, x.now);
        assert [] + [x] == [x];
      }
    }
  }

  lemma {:induction false} SameRow(u: Unit, x: Effect)
    ensures x.Nothing? ==> Changed(u, x) == u
  {}

  // ---- checkpoints and results ------------------------------------------------

  /** Event `k` is a write of the unit's owner. */
  ghost predicate OwnWrite(states: seq<System>, events: seq<Event>, k: nat, id: UnitId)
    requires |states| == |events| + 1 && k < |events|
  {
    EffectOn(states[k].tables, events[k], id).Wrote?
  }

  lemma {:induction false} EffectsAfter(states: seq<System>, events: seq<Event>, i: nat, id: UnitId)
    requires |states| == |events| + 1 && i < |events|
    ensures Effects(states, events, i + 1, id) ==
            Effects(states, events, i, id)
            + if EffectOn(states[i].tables, events[i], id).Nothing? then []
                else [EffectOn(states[i].tables, events[i], id)]
  {
    hide EffectOn;
  }

  lemma {:induction false} RemoteLasts(states: seq<System>, events: seq<Event>, i: nat, j: nat, id: UnitId)
    requires |states| == |events| + 1 && i < j <= |events|
    requires OwnWrite(states, events, i, id) && events[i].write.Remote?
    requires forall k :: i < k < j && OwnWrite(states, events, k, id) ==> !events[k].write.Remote?
    requires forall k :: i < k < j ==> !EffectOn(states[k].tables, events[k], id).Created?
    ensures RemoteOf(Effects(states, events, j, id)) == events[i].write.remote
    ensures CheckpointedIn(Effects(states, events, j, id)) == events[i].write.checkpointed
    decreases j
  {
    EffectsAfter(states, events, j - 1, id);
    var fx, x := Effects(states, events, j - 1, id), EffectOn(states[j - 1].tables, events[j - 1], id);
    WroteIs(states[j - 1].tables, events[j - 1], id);
    if j > i + 1 { RemoteLasts(states, events, i, j - 1, id); }
    hide Effects, EffectOn;
    if x.Nothing? {
      assert fx + [] == fx;
    } else {
      assert Init(fx + [x]) == fx && Last(fx + [x]) == x;
    }
  }

  lemma {:induction false} WroteIs(t: Tables, e: Event, id: UnitId)
    ensures EffectOn(t, e, id).Wrote? ==> e.Fenced? && EffectOn(t, e, id).write == e.write
  {}

  /**
   A checkpoint of the owner is kept: in every later state that still has the unit its
   row holds the remote task and the mark of that write, until the owner writes
   another - whoever claims it in between and whatever else happens to it.
   */
  lemma {:induction false} CheckpointIsKept(states: seq<System>, events: seq<Event>, i: nat, j: nat, id: UnitId,
      token: Token, remote: Option<Payload>, checkpointed: bool, now: Time)
    requires IsRun(states, events) && i < j <= |events| && id in states[j].tables.units
    requires events[i] == Fenced(id, token, Remote(remote, checkpointed, now))
    requires id in states[i].tables.units && states[i].tables.units[id].status == Running
    requires states[i].tables.units[id].token == Some(token)
    requires forall k :: i < k < j && OwnWrite(states, events, k, id) ==> !events[k].write.Remote?
    ensures states[j].tables.units[id].remote == remote && states[j].tables.units[id].checkpointed == checkpointed
  {
    RowIsItsHistory(states, events, j, id);
    forall k | i < k < j
      ensures !EffectOn(states[k].tables, events[k], id).Created?
    {
      KnownStays(states, events, i, k, id);
      NotCreated(states, events, k, id);
    }
    RemoteLasts(states, events, i, j, id);
    hide IsRun, Effects, EffectOn, StatusOf, StageOf, HolderOf, ExpiryOf, RemoteOf, CheckpointedIn;
  }

  /** An identifier that was handed out stays so. */
  lemma {:induction false} KnownStays(states: seq<System>, events: seq<Event>, i: nat, k: nat, id: UnitId)
    requires IsRun(states, events) && i <= k <= |events| && id in states[i].tables.units
    ensures id in states[k].ids
    decreases k
  {
    hide Step, Allowed, SystemOk;
    if i == k {
      RunOk(states, events, i);
      OkIds(states[i]);
    } else {
      KnownStays(states, events, i, k - 1, id);
      assert states[k - 1 + 1] == After(states[k - 1], events[k - 1]);
    }
  }

  lemma {:induction false} NotCreated(states: seq<System>, events: seq<Event>, k: nat, id: UnitId)
    requires IsRun(states, events) && k < |events| && id in states[k].ids
    ensures !EffectOn(states[k].tables, events[k], id).Created?
  {
    hide Step;
  }

  /**
   Hence a remote task that was paid for is not given up with the attempts: a unit
   checkpointed by its owner whose lease has run out can be reclaimed, and is not
   swept, as long as recoveries are left.
   */
  lemma {:induction false} CheckpointIsRecoverable(states: seq<System>, events: seq<Event>, i: nat, j: nat, id: UnitId,
      token: Token, remote: Option<Payload>, now: Time, later: Time, maxAttempts: nat, maxRecoveries: nat)
    requires IsRun(states, events) && i < j <= |events| && id in states[j].tables.units
    requires events[i] == Fenced(id, token, Remote(remote, true, now))
    requires id in states[i].tables.units && states[i].tables.units[id].status == Running
    requires states[i].tables.units[id].token == Some(token)
    requires forall k :: i < k < j && OwnWrite(states, events, k, id) ==> !events[k].write.Remote?
    requires
      var u := states[j].tables.units[id];
      u.status == Running && u.expiresAt.Some? && u.expiresAt.value <= later && u.recoveries < maxRecoveries
    ensures id in ReclaimableUnits(states[j].tables.units, later, maxAttempts, maxRecoveries)
    ensures id in ExpireExhausted(states[j].tables.units, later, maxAttempts, maxRecoveries)
            && ExpireExhausted(states[j].tables.units, later, maxAttempts, maxRecoveries)[id] ==
                  states[j].tables.units[id]
    ensures states[j].tables.units[id].remote == remote
  {
    CheckpointIsKept(states, events, i, j, id, token, remote, true, now);
    hide IsRun, OwnWrite;
  }

  lemma {:induction false} EndIsLast(fx: seq<Effect>, x: Effect)
    requires x.Wrote? && (x.write.Complete? || x.write.Fail?)
    ensures
      var all := fx + [x];
      && HolderOf(all) == None && ExpiryOf(all) == None
      && (x.write.Complete? ==>
            && StatusOf(all) == Success && StageOf(all) == CompletedStage && ImagesIn(all) == x.write.images
            && UsageIn(all) == x.write.usage && CostIn(all) == x.write.cost
            && EndTimeOf(all) == Some(x.write.completedAt) && ErrorOf(all) == ErrorOf(fx))
      && (x.write.Fail? ==>
            && StatusOf(all) == x.write.status && StageOf(all) == Reported(x.write.stage)
            && ErrorOf(all) == Some(x.write.error) && ImagesIn(all) == ImagesIn(fx)
            && UsageIn(all) == (if x.write.usage.Some? then x.write.usage else UsageIn(fx))
            && CostIn(all) == (if x.write.cost.Some? then x.write.cost else CostIn(fx)))
  {
    assert Init(fx + [x]) == fx && Last(fx + [x]) == x;
  }

  /**
   The one terminal write stands: in every later state that still has the unit, its
   status, result, bill and error are those the owner gave when it finished.
   */
  lemma {:induction false} ResultStands(states: seq<System>, events: seq<Event>, i: nat, j: nat, id: UnitId,
      token: Token, w: Write)
    requires IsRun(states, events) && i < j <= |events| && id in states[j].tables.units
    requires events[i] == Fenced(id, token, w) && (w.Complete? || w.Fail?)
    requires id in states[i].tables.units && states[i].tables.units[id].status == Running
    requires states[i].tables.units[id].token == Some(token)
    ensures
      var before, u := states[i].tables.units[id], states[j].tables.units[id];
      && u.token == None && u.claimedBy == None && u.expiresAt == None
      && (w.Complete? ==>
            && u.status == Success && u.stage == CompletedStage && u.images == w.images
            && u.usage == w.usage && u.cost == w.cost && u.completedAt == Some(w.completedAt) &&
                  u.error == before.error)
      && (w.Fail? ==>
            && u.status == w.status && u.stage == Reported(w.stage) && u.error == Some(w.error)
            && u.images == before.images
            && u.usage == (if w.usage.Some? then w.usage else before.usage)
            && u.cost == (if w.cost.Some? then w.cost else before.cost))
  {
    RowIsItsHistory(states, events, i, id);
    EffectsAfter(states, events, i, id);
    StillThere(states, events, i, j, id);
    RowIsItsHistory(states, events, i + 1, id);
    EndIsLast(Effects(states, events, i, id), Wrote(w));
    FinishedHere(states, events, i, id, token, w);
    TerminalForever(states, events, i + 1, j, id);
    hide IsRun, Effects, StatusOf, StageOf, HolderOf, ExpiryOf, ErrorOf, ImagesIn, UsageIn, CostIn, EndTimeOf,
         RemoteOf, CheckpointedIn, ClaimsIn;
  }

  /** A row that is there later was there in between. */
  lemma {:induction false} StillThere(states: seq<System>, events: seq<Event>, i: nat, j: nat, id: UnitId)
    requires IsRun(states, events) && i < j <= |events|
    requires id in states[i].tables.units && id in states[j].tables.units
    ensures id in states[i + 1].tables.units
    decreases j
  {
    hide Step, Allowed, SystemOk;
    if j > i + 1 {
      if id !in states[j - 1].tables.units {
        KnownStays(states, events, i, j - 1, id);
        assert states[j - 1 + 1] == After(states[j - 1], events[j - 1]);
        OldId(states[j - 1], events[j - 1], id);
      } else {
        StillThere(states, events, i, j - 1, id);
      }
    }
  }

  lemma {:induction false} FinishedHere(states: seq<System>, events: seq<Event>, i: nat, id: UnitId, token: Token,
      w: Write)
    requires IsRun(states, events) && i < |events|
    requires events[i] == Fenced(id, token, w) && (w.Complete? || w.Fail?)
    requires id in states[i].tables.units && states[i].tables.units[id].status == Running
    requires states[i].tables.units[id].token == Some(token) && id in states[i + 1].tables.units
    ensures Terminal(states[i + 1].tables.units[id].status)
  {
    assert states[i + 1] == After(states[i], events[i]);
  }
}
