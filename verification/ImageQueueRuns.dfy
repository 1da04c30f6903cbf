/**
 Runs of the image job queue: workers, crashes, reclaims, cancellations and
 deletions interleave in any order, each as one atomic transaction.
 */
module ImageQueueRuns {
  import opened Common
  import opened ImageQueue

  datatype Event =
    | Enqueue(order: EnqueueRequest)
    | Claim(request: ClaimRequest, chosen: Option<UnitId>)
    | Fenced(unit: UnitId, token: Token, write: Write)
    | Expire(now: Time, maxAttempts: nat, maxRecoveries: nat)
    | Cancel(job: JobId, now: Time)
    | Finalize(job: JobId, derived: Option<Parent>)
    | Transition(job: JobId, update: Parent)
    | Release(job: JobId)
    | Forget(jobs: set<JobId>)
    | InterruptActive(now: Time)

  /** The tables, and every claim token and unit identifier handed out so far. */
  datatype System = System(tables: Tables, tokens: set<Token>, ids: set<UnitId>)

  const EmptySystem := System(Tables(map[], map[], map[]), {}, {})

  /** Claim tokens and unit identifiers are fresh UUIDs; a failing unit fails with a terminal status. */
  ghost predicate Allowed(s: System, e: Event) {
    match e
    case Enqueue(order) => FreshIds(order.ids, s.ids + s.tables.units.Keys)
    case Claim(request, chosen) => request.token !in s.tokens && ClaimOutcome(s.tables.units, request, chosen)
    case Fenced(_, _, write) => write.Fail? ==> Terminal(write.status)
    case Forget(jobs) => forall job :: job in jobs ==> job in s.tables.parents && !Active(s.tables.parents[job].status)
    case _ => true
  }

  function ClaimUnits(units: map<UnitId, Unit>, r: ClaimRequest, chosen: Option<UnitId>): map<UnitId, Unit> {
    if chosen.Some? && chosen.value in units then units[chosen.value := ClaimedUnit(units[chosen.value], r)] else units
  }

  ghost function Step(t: Tables, e: Event): Tables
    requires e.Enqueue? ==> FreshIds(e.order.ids, t.units.Keys)
  {
    match e
    case Enqueue(order) => EnqueueTables(t, order)
    case Claim(request, chosen) => t.(units := ClaimUnits(t.units, request, chosen))
    case Fenced(unit, token, write) => t.(units := FencedWrite(t.units, unit, token, write))
    case Expire(now, a, r) => t.(units := ExpireExhausted(t.units, now, a, r))
    case Cancel(job, now) => CancelTables(t, job, now)
    case Finalize(job, derived) => FinalizeTables(t, job, derived)
    case Transition(job, update) => TransitionTables(t, job, update)
    case Release(job) => t.(reservations := t.reservations - {job})
    case Forget(jobs) => ForgetTables(t, jobs)
    case InterruptActive(now) => InterruptActiveTables(t, now)
  }

  ghost function After(s: System, e: Event): System
    requires Allowed(s, e)
  {
    System(Step(s.tables, e),
           if e.Claim? then s.tokens + {e.request.token} else s.tokens,
           if e.Enqueue? then s.ids + Elements(e.order.ids) else s.ids)
  }

  /** A run from the empty database. */
  ghost predicate IsRun(states: seq<System>, events: seq<Event>) {
    && |states| == |events| + 1
    && states[0] == EmptySystem
    && forall i :: 0 <= i < |events| ==> Allowed(states[i], events[i]) && states[i + 1] == After(states[i], events[i])
  }

  // ---- the unit invariant -----------------------------------------------------

  /** A unit runs iff it holds a token and an expiry; its counters tell how it was claimed. */
  predicate UnitOk(u: Unit) {
    && (u.status == Running <==> u.token.Some?)
    && (u.status == Running <==> u.expiresAt.Some?)
    && (Active(u.status) || Terminal(u.status))
    && (u.status == Queued ==> u.attempts == 0)
    && (u.status == Running ==> u.attempts == u.recoveries + 1)
    && (u.attempts == u.recoveries + 1 || (u.attempts == 0 && u.recoveries == 0))
  }

  ghost predicate UnitsOk(units: map<UnitId, Unit>) {
    forall id :: id in units ==> UnitOk(units[id])
  }

  /** Tokens in use were handed out, and no two units share one. */
  ghost predicate TokensOk(units: map<UnitId, Unit>, tokens: set<Token>) {
    && (forall id :: id in units && units[id].token.Some? ==> units[id].token.value in tokens)
    && (forall a, b :: a in units && b in units && units[a].token.Some? && units[a].token == units[b].token ==> a == b)
  }

  predicate SameSlot(a: Unit, b: Unit) { a.parent == b.parent && a.index == b.index }

  /** The UNIQUE(parent_job_id, unit_index) constraint, and the parent of every unit is stored. */
  ghost predicate KeysOk(t: Tables) {
    && (forall a, b :: a in t.units && b in t.units && SameSlot(t.units[a], t.units[b]) ==> a == b)
    && (forall id :: id in t.units ==> t.units[id].parent in t.parents)
  }

  ghost predicate SystemOk(s: System) {
    && UnitsOk(s.tables.units)
    && TokensOk(s.tables.units, s.tokens)
    && KeysOk(s.tables)
    && s.tables.units.Keys <= s.ids
  }

  /** What a step may do to one row: leave it, create it, claim it, write it under its token, interrupt or cancel it. */
  ghost predicate RowStep(units: map<UnitId, Unit>, e: Event, id: UnitId, u: Unit) {
    if id !in units then
      e.Enqueue? &&
      exists k: nat :: k < |e.order.ids| && e.order.ids[k] == id && u == NewUnit(e.order.job, k, e.order.now)
    else
      || u == units[id]
      || (e.Claim? && e.chosen == Some(id) && u == ClaimedUnit(units[id], e.request) &&
          (units[id].status == Queued ||
           Reclaimable(units[id], e.request.now, e.request.maxAttempts, e.request.maxRecoveries)))
      || (e.Fenced? && e.unit == id && Owns(units, id, e.token) && u == Written(units[id], e.write) &&
          (e.write.Fail? ==> Terminal(e.write.status)))
      || (e.Expire? && Exhausted(units[id], e.now, e.maxAttempts, e.maxRecoveries) &&
            u == InterruptedUnit(units[id], e.now))
      || (e.Cancel? && units[id].parent == e.job && Active(units[id].status) && u == CancelledUnit(units[id], e.now))
  }

  /** Every row of the next state comes from one of those changes. */
  lemma {:induction false} RowsStep(s: System, e: Event, id: UnitId)
    requires Allowed(s, e) && id in Step(s.tables, e).units
    ensures RowStep(s.tables.units, e, id, Step(s.tables, e).units[id])
  {
    if e.Enqueue? {
      IndexOfIsFirst(e.order.ids, id);
    }
  }

  lemma {:induction false} RowStepOk(units: map<UnitId, Unit>, e: Event, id: UnitId, u: Unit)
    requires UnitsOk(units) && RowStep(units, e, id, u)
    ensures UnitOk(u)
  {}

  /** A row's token is gone, unchanged, or the fresh token of the claim that took it. */
  lemma {:induction false} RowStepToken(units: map<UnitId, Unit>, e: Event, id: UnitId, u: Unit)
    requires RowStep(units, e, id, u)
    ensures u.token.None? || (id in units && u.token == units[id].token) ||
            (e.Claim? && e.chosen == Some(id) && u.token == Some(e.request.token))
  {}

  lemma {:induction false} UnitsOkStep(s: System, e: Event)
    requires UnitsOk(s.tables.units) && Allowed(s, e)
    ensures UnitsOk(Step(s.tables, e).units)
  {
    hide Step, RowStep, UnitOk;
    forall id | id in Step(s.tables, e).units
      ensures UnitOk(Step(s.tables, e).units[id])
    {
      RowsStep(s, e, id);
      RowStepOk(s.tables.units, e, id, Step(s.tables, e).units[id]);
    }
  }

  lemma {:induction false} TokensOkStep(s: System, e: Event)
    requires TokensOk(s.tables.units, s.tokens) && Allowed(s, e)
    ensures TokensOk(Step(s.tables, e).units, After(s, e).tokens)
  {
    hide Step, RowStep, ClaimOutcome;
    var units := Step(s.tables, e).units;
    forall id | id in units
      ensures units[id].token.None? || (id in s.tables.units && units[id].token == s.tables.units[id].token) ||
              (e.Claim? && e.chosen == Some(id) && units[id].token == Some(e.request.token))
    {
      RowsStep(s, e, id);
      RowStepToken(s.tables.units, e, id, units[id]);
    }
  }

  /** Rows keep their slot; created rows take free ones. */
  lemma {:induction false} SlotsStep(s: System, e: Event, a: UnitId, b: UnitId)
    requires KeysOk(s.tables) && Allowed(s, e)
    requires a in Step(s.tables, e).units && b in Step(s.tables, e).units
    requires SameSlot(Step(s.tables, e).units[a], Step(s.tables, e).units[b])
    ensures a == b
  {
    RowsStep(s, e, a);
    RowsStep(s, e, b);
    hide ClaimOutcome, Exhausted, Reclaimable;
  }

  lemma {:induction false} KeysOkStep(s: System, e: Event)
    requires KeysOk(s.tables) && s.tables.units.Keys <= s.ids && Allowed(s, e)
    ensures KeysOk(Step(s.tables, e))
    ensures Step(s.tables, e).units.Keys <= After(s, e).ids
  {
    hide ClaimOutcome, Exhausted, EnqueueVerdict;
    forall a, b | a in Step(s.tables, e).units && b in Step(s.tables, e).units
                  && SameSlot(Step(s.tables, e).units[a], Step(s.tables, e).units[b])
      ensures a == b
    {
      SlotsStep(s, e, a, b);
    }
  }

  lemma {:induction false} SystemOkStep(s: System, e: Event)
    requires SystemOk(s) && Allowed(s, e)
    ensures SystemOk(After(s, e))
  {
    hide Step, Allowed, UnitsOk, TokensOk, KeysOk;
    UnitsOkStep(s, e);
    TokensOkStep(s, e);
    KeysOkStep(s, e);
  }

  /** The invariant holds in every state of every run. */
  lemma {:induction false} RunOk(states: seq<System>, events: seq<Event>, i: nat)
    requires IsRun(states, events) && i < |states|
    ensures SystemOk(states[i])
  {
    if i > 0 {
      RunOk(states, events, i - 1);
      SystemOkStep(states[i - 1], events[i - 1]);
      assert states[i - 1 + 1] == After(states[i - 1], events[i - 1]);
    }
  }

  // ---- finality ---------------------------------------------------------------

  /** A finished row never changes again, and a deleted row never comes back. */
  lemma {:induction false} FinishedRowStep(s: System, e: Event, id: UnitId)
    requires SystemOk(s) && Allowed(s, e) && id in s.ids
    requires id in s.tables.units ==> Terminal(s.tables.units[id].status)
    ensures id in Step(s.tables, e).units ==>
              id in s.tables.units && Step(s.tables, e).units[id] == s.tables.units[id]
  {
    hide Step;
    if id in Step(s.tables, e).units {
      RowsStep(s, e, id);
    }
  }

  /**
   A unit gets at most one terminal write: once its status is terminal, the whole
   row - status, result, usage, cost - is the same in every later state that still has it.
   */
  lemma {:induction false} TerminalForever(states: seq<System>, events: seq<Event>, i: nat, j: nat, id: UnitId)
    requires IsRun(states, events) && i <= j < |states|
    requires id in states[i].tables.units && Terminal(states[i].tables.units[id].status)
    ensures id in states[j].tables.units ==> states[j].tables.units[id] == states[i].tables.units[id]
    ensures id in states[j].ids
    decreases j - i
  {
    hide Step, Allowed, SystemOk;
    if i == j {
      RunOk(states, events, i);
      assert id in states[i].ids by { OkIds(states[i]); }
    } else {
      TerminalForever(states, events, i, j - 1, id);
      RunOk(states, events, j - 1);
      FinishedRowStep(states[j - 1], events[j - 1], id);
      assert states[j - 1 + 1] == After(states[j - 1], events[j - 1]);
    }
  }

  lemma {:induction false} OkIds(s: System)
    requires SystemOk(s)
    ensures s.tables.units.Keys <= s.ids
  {}

  // ---- fencing ----------------------------------------------------------------

  /** A write whose token does not own its unit changes nothing. */
  lemma {:induction false} StaleWriteChangesNothing(s: System, id: UnitId, token: Token, w: Write)
    requires !Owns(s.tables.units, id, token) && Allowed(s, Fenced(id, token, w))
    ensures After(s, Fenced(id, token, w)) == s
  {}

  lemma {:induction false} OwnershipStep(s: System, e: Event, id: UnitId, token: Token)
    requires Allowed(s, e) && token in s.tokens && !Owns(s.tables.units, id, token)
    ensures !Owns(Step(s.tables, e).units, id, token)
  {
    hide Step;
    if id in Step(s.tables, e).units {
      RowsStep(s, e, id);
    }
  }

  /**
   A token that was handed out and does not own a unit - because the lease was
   taken over, the unit finished, or it was another unit's token - never owns it
   again, so every later write it attempts on that unit leaves the state unchanged.
   */
  lemma {:induction false} StaleTokenForever(states: seq<System>, events: seq<Event>, i: nat, j: nat, id: UnitId,
      token: Token)
    requires IsRun(states, events) && i <= j < |states|
    requires token in states[i].tokens && !Owns(states[i].tables.units, id, token)
    ensures token in states[j].tokens && !Owns(states[j].tables.units, id, token)
    ensures j < |events| && events[j].Fenced? && events[j].unit == id && events[j].token == token
            ==> states[j + 1] == states[j]
    decreases j - i
  {
    hide Step, Owns;
    if i < j {
      StaleTokenForever(states, events, i, j - 1, id, token);
      OwnershipStep(states[j - 1], events[j - 1], id, token);
      assert states[j - 1 + 1] == After(states[j - 1], events[j - 1]);
    }
    if j < |events| && events[j].Fenced? && events[j].unit == id && events[j].token == token {
      StaleWriteChangesNothing(states[j], id, token, events[j].write);
      assert states[j + 1] == After(states[j], events[j]);
    }
  }

  /** At any moment a token owns at most one unit, and a unit has at most one owner. */
  lemma {:induction false} OwnershipExclusive(states: seq<System>, events: seq<Event>, i: nat, a: UnitId, b: UnitId,
      t: Token, u: Token)
    requires IsRun(states, events) && i < |states|
    requires Owns(states[i].tables.units, a, t) && Owns(states[i].tables.units, b, u)
    ensures a == b <==> t == u
  {
    RunOk(states, events, i);
  }

  /**
   Who may change what: a remote checkpoint changes only by a remote write of the
   unit's owner - a reclaim keeps it - and results only by the owner's completion;
   a unit keeps its slot, its creation time and its first start time.
   */
  lemma {:induction false} OnlyTheOwnerWrites(s: System, e: Event, id: UnitId)
    requires SystemOk(s) && Allowed(s, e) && id in s.tables.units && id in Step(s.tables, e).units
    ensures
      var before, after := s.tables.units[id], Step(s.tables, e).units[id];
      var owner := e.Fenced? && e.unit == id && Owns(s.tables.units, id, e.token);
      && ((after.remote != before.remote || after.checkpointed != before.checkpointed) ==> owner && e.write.Remote?)
      && (after.images != before.images ==> owner && e.write.Complete?)
      && ((after.usage != before.usage || after.cost != before.cost) ==> owner && (e.write.Complete? || e.write.Fail?))
      && (after.attempts != before.attempts ==>
            e.Claim? && e.chosen == Some(id) && after.attempts == before.attempts + 1)
      && SameSlot(before, after) && after.createdAt == before.createdAt
      && (before.startedAt.Some? ==> after.startedAt == before.startedAt)
  {
    RowsStep(s, e, id);
    hide Step, Allowed, SystemOk, RowStep, Owns;
    RowWriters(s.tables.units, e, id, Step(s.tables, e).units[id]);
    RowKeeps(s.tables.units, e, id, Step(s.tables, e).units[id]);
  }

  lemma {:induction false} RowWriters(units: map<UnitId, Unit>, e: Event, id: UnitId, u: Unit)
    requires id in units && RowStep(units, e, id, u)
    ensures
      var owner := e.Fenced? && e.unit == id && Owns(units, id, e.token);
      && ((u.remote != units[id].remote || u.checkpointed != units[id].checkpointed) ==> owner && e.write.Remote?)
      && (u.images != units[id].images ==> owner && e.write.Complete?)
      && ((u.usage != units[id].usage || u.cost != units[id].cost) ==> owner && (e.write.Complete? || e.write.Fail?))
  {
    hide Exhausted, Reclaimable;
  }

  lemma {:induction false} RowKeeps(units: map<UnitId, Unit>, e: Event, id: UnitId, u: Unit)
    requires id in units && RowStep(units, e, id, u)
    ensures u.attempts != units[id].attempts ==>
            e.Claim? && e.chosen == Some(id) && u.attempts == units[id].attempts + 1
    ensures SameSlot(units[id], u) && u.createdAt == units[id].createdAt
    ensures units[id].startedAt.Some? ==> u.startedAt == units[id].startedAt
  {
    hide Exhausted, Reclaimable, Owns;
  }
}
