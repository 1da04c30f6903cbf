/** Claim selection, claim counts and the concurrency cap of the image job queue. */
module ImageQueueBounds {
  import opened Common
  import opened ImageQueue
  import opened ImageQueueRuns

  // ---- the claim agrees with its read-only precheck ---------------------------

  lemma {:induction false} LeastQueued(units: map<UnitId, Unit>, among: set<UnitId>) returns (id: UnitId)
    requires among != {} && among <= units.Keys
    ensures id in among && forall other :: other in among ==> QueuedBefore(units[id], units[other])
  {
    var first :| first in among;
    id := first;
    var rest := among - {first};
    if rest != {} {
      var least := LeastQueued(units, rest);
      if !QueuedBefore(units[first], units[least]) { id := least; }
    }
    assert forall other :: other in among ==> other == first || other in rest;
  }

  lemma {:induction false} LeastExpired(units: map<UnitId, Unit>, among: set<UnitId>) returns (id: UnitId)
    requires among != {} && forall x :: x in among ==> x in units && units[x].expiresAt.Some?
    ensures id in among && forall other :: other in among ==> ExpiredBefore(units[id], units[other])
  {
    var first :| first in among;
    id := first;
    var rest := among - {first};
    if rest != {} {
      var least := LeastExpired(units, rest);
      if !ExpiredBefore(units[first], units[least]) { id := least; }
    }
    assert forall other :: other in among ==> other == first || other in rest;
  }

  /** There is a unit to select exactly when some unit is reclaimable or queued. */
  lemma {:induction false} CandidateExists(units: map<UnitId, Unit>, r: ClaimRequest)
    ensures (exists id :: IsCandidate(units, r, id)) <==>
            (ReclaimableUnits(units, r.now, r.maxAttempts, r.maxRecoveries) != {} || WithStatus(units, Queued) != {})
  {
    var reclaimable := ReclaimableUnits(units, r.now, r.maxAttempts, r.maxRecoveries);
    if reclaimable != {} {
      var id := LeastExpired(units, reclaimable);
      assert IsCandidate(units, r, id);
    } else if WithStatus(units, Queued) != {} {
      var id := LeastQueued(units, WithStatus(units, Queued));
      assert IsCandidate(units, r, id);
    }
  }

  /** A claim takes a unit exactly when the precheck with the same arguments says so. */
  lemma {:induction false} ClaimMatchesPrecheck(units: map<UnitId, Unit>, r: ClaimRequest, chosen: Option<UnitId>)
    requires ClaimOutcome(units, r, chosen)
    ensures chosen.Some? <==> HasClaimable(units, r.now, r.maxAttempts, Some(r.runningLimit), r.maxRecoveries)
  {
    CandidateExists(units, r);
  }

  /** The lease count after a claim: one more live lease at most, and never above the limit. */
  lemma {:induction false} ClaimKeepsCap(units: map<UnitId, Unit>, r: ClaimRequest, chosen: Option<UnitId>)
    requires ClaimOutcome(units, r, chosen) && chosen.Some?
    ensures
      var after := Live(ClaimUnits(units, r, chosen), r.now);
      && after == Live(units, r.now) + (if r.lease > r.now then {chosen.value} else {})
      && |after| == |Live(units, r.now)| + (if r.lease > r.now then 1 else 0) <= AtLeastOne(r.runningLimit)
  {
    var id := chosen.value;
    assert id in units && !LiveLease(units[id], r.now);
    assert Live(ClaimUnits(units, r, chosen), r.now) == Live(units, r.now) + if r.lease > r.now then {id} else {};
  }

  // ---- how often a unit is claimed --------------------------------------------

  /** Claims and expiry sweeps all work with these limits. */
  predicate UsesLimits(e: Event, maxAttempts: nat, maxRecoveries: nat) {
    && (e.Claim? ==> e.request.maxAttempts == maxAttempts && e.request.maxRecoveries == maxRecoveries)
    && (e.Expire? ==> e.maxAttempts == maxAttempts && e.maxRecoveries == maxRecoveries)
  }

  predicate ClaimsUnit(e: Event, id: UnitId) { e.Claim? && e.chosen == Some(id) }

  /** Number of claims of a unit in a piece of history. */
  function ClaimsOf(events: seq<Event>, id: UnitId): nat {
    if events == [] then 0
    else ClaimsOf(events[..|events| - 1], id) + if ClaimsUnit(events[|events| - 1], id) then 1 else 0
  }

  /** A unit's `attempts` column is the number of times it was claimed. */
  lemma {:induction false} AttemptsStep(s: System, e: Event, id: UnitId, claims: nat)
    requires SystemOk(s) && Allowed(s, e)
    requires id in s.tables.units ==> s.tables.units[id].attempts == claims
    requires id !in s.ids ==> claims == 0
    ensures
      var after := claims + if ClaimsUnit(e, id) then 1 else 0;
      && (id in Step(s.tables, e).units ==> Step(s.tables, e).units[id].attempts == after)
      && (id !in After(s, e).ids ==> after == 0)
      && (ClaimsUnit(e, id) ==> id in s.tables.units && id in Step(s.tables, e).units)
  {
    if ClaimsUnit(e, id) {
      assert IsCandidate(s.tables.units, e.request, id);
    }
    hide ClaimOutcome, Exhausted, Reclaimable, EnqueueVerdict;
    if id in Step(s.tables, e).units {
      RowsStep(s, e, id);
    }
  }

  /**
   No unit is claimed more than max(max_attempts, max_recoveries + 1) times, in
   any run, and a stored unit's attempts column counts its claims exactly.
   */
  lemma {:induction false} ClaimsBounded(states: seq<System>, events: seq<Event>, i: nat, id: UnitId,
                                         maxAttempts: nat, maxRecoveries: nat)
    requires IsRun(states, events) && i <= |events|
    requires forall k :: 0 <= k < |events| ==> UsesLimits(events[k], maxAttempts, maxRecoveries)
    ensures ClaimsOf(events[..i], id) <= Max(maxAttempts, maxRecoveries + 1)
    ensures id in states[i].tables.units ==> states[i].tables.units[id].attempts == ClaimsOf(events[..i], id)
    ensures id !in states[i].ids ==> ClaimsOf(events[..i], id) == 0
  {
    hide Step, Allowed, SystemOk;
    if i > 0 {
      ClaimsBounded(states, events, i - 1, id, maxAttempts, maxRecoveries);
      RunOk(states, events, i - 1);
      assert events[..i][..i - 1] == events[..i - 1];
      AttemptsStep(states[i - 1], events[i - 1], id, ClaimsOf(events[..i - 1], id));
      assert states[i - 1 + 1] == After(states[i - 1], events[i - 1]);
      if ClaimsUnit(events[i - 1], id) {
        ClaimedRowBound(states[i - 1], events[i - 1], id, maxAttempts, maxRecoveries);
      }
    }
  }

  lemma {:induction false} ClaimedRowBound(s: System, e: Event, id: UnitId, maxAttempts: nat, maxRecoveries: nat)
    requires SystemOk(s) && Allowed(s, e) && ClaimsUnit(e, id) && UsesLimits(e, maxAttempts, maxRecoveries)
    ensures id in s.tables.units && s.tables.units[id].attempts + 1 <= Max(maxAttempts, maxRecoveries + 1)
    ensures !s.tables.units[id].checkpointed && maxAttempts >= 1 ==> s.tables.units[id].attempts + 1 <= maxAttempts
  {
    assert IsCandidate(s.tables.units, e.request, id);
    assert UnitOk(s.tables.units[id]);
  }

  /** The owner of the unit never records a remote checkpoint for it. */
  ghost predicate NeverCheckpointed(states: seq<System>, events: seq<Event>, id: UnitId)
    requires IsRun(states, events)
  {
    forall k :: 0 <= k < |events| && events[k].Fenced? && events[k].unit == id
                && events[k].write.Remote? && events[k].write.checkpointed
                ==> !Owns(states[k].tables.units, id, events[k].token)
  }

  /** A unit that never gets a remote checkpoint is generated at most max_attempts times. */
  lemma {:induction false} UncheckpointedClaimsBounded(
      states: seq<System>, events: seq<Event>, i: nat, id: UnitId, maxAttempts: nat, maxRecoveries: nat)
    requires IsRun(states, events) && i <= |events| && maxAttempts >= 1
    requires forall k :: 0 <= k < |events| ==> UsesLimits(events[k], maxAttempts, maxRecoveries)
    requires NeverCheckpointed(states, events, id)
    ensures ClaimsOf(events[..i], id) <= maxAttempts
    ensures id in states[i].tables.units ==> !states[i].tables.units[id].checkpointed
  {
    hide Step, Allowed, SystemOk;
    if i > 0 {
      UncheckpointedClaimsBounded(states, events, i - 1, id, maxAttempts, maxRecoveries);
      ClaimsBounded(states, events, i - 1, id, maxAttempts, maxRecoveries);
      RunOk(states, events, i - 1);
      var s, e := states[i - 1], events[i - 1];
      assert events[..i][..i - 1] == events[..i - 1];
      assert states[i - 1 + 1] == After(s, e);
      if ClaimsUnit(e, id) {
        ClaimedRowBound(s, e, id, maxAttempts, maxRecoveries);
      }
      if id in states[i].tables.units {
        RowsStep(s, e, id);
      }
    }
  }

  // ---- the concurrency cap over runs ------------------------------------------

  /** A write that can move an expiry: a heartbeat, or a progress report that carries one. */
  predicate Extends(w: Write) { w.Renew? || (w.Progress? && w.lease.Some?) }

  /** An event under a running limit at time `now`: claims use both, and only live leases are extended. */
  ghost predicate Disciplined(s: System, e: Event, now: Time, runningLimit: int) {
    && (e.Claim? ==> e.request.now == now && e.request.runningLimit == runningLimit)
    && (e.Fenced? && Extends(e.write) && Owns(s.tables.units, e.unit, e.token) ==>
          LiveLease(s.tables.units[e.unit], now))
  }

  /** Only a claim or an extension can make a lease live that was not. */
  lemma {:induction false} LiveStep(s: System, e: Event, now: Time)
    requires SystemOk(s) && Allowed(s, e) && !e.Claim?
    requires e.Fenced? && Extends(e.write) && Owns(s.tables.units, e.unit, e.token) ==>
            LiveLease(s.tables.units[e.unit], now)
    ensures Live(Step(s.tables, e).units, now) <= Live(s.tables.units, now)
  {
    hide Step;
    forall id | id in Live(Step(s.tables, e).units, now)
      ensures id in Live(s.tables.units, now)
    {
      RowsStep(s, e, id);
    }
  }

  lemma {:induction false} CapStep(s: System, e: Event, now: Time, runningLimit: int)
    requires SystemOk(s) && Allowed(s, e) && Disciplined(s, e, now, runningLimit)
    requires |Live(s.tables.units, now)| <= AtLeastOne(runningLimit)
    ensures |Live(Step(s.tables, e).units, now)| <= AtLeastOne(runningLimit)
  {
    if e.Claim? {
      if e.chosen.Some? { ClaimKeepsCap(s.tables.units, e.request, e.chosen); }
    } else {
      LiveStep(s, e, now);
      SubsetSize(Live(Step(s.tables, e).units, now), Live(s.tables.units, now));
    }
  }

  /**
   With a clock that never runs backwards and heartbeats that only extend live
   leases, the number of live leases never exceeds the limit: `clock[i]` is the
   time of event i, and the bound holds from then on.
   */
  lemma {:induction false} CapForever(states: seq<System>, events: seq<Event>, clock: seq<Time>, runningLimit: int,
      i: nat, now: Time)
    requires IsRun(states, events) && |clock| == |events| && i <= |events|
    requires forall k :: 0 <= k < |events| ==> Disciplined(states[k], events[k], clock[k], runningLimit)
    requires forall k, l :: 0 <= k <= l < |clock| ==> clock[k] <= clock[l]
    requires i > 0 ==> clock[i - 1] <= now
    ensures |Live(states[i].tables.units, now)| <= AtLeastOne(runningLimit)
  {
    hide Step, Allowed, SystemOk, Disciplined;
    if i == 0 {
      assert Live(states[0].tables.units, now) == {};
    } else {
      var past := clock[i - 1];
      CapForever(states, events, clock, runningLimit, i - 1, past);
      RunOk(states, events, i - 1);
      CapStep(states[i - 1], events[i - 1], past, runningLimit);
      assert states[i - 1 + 1] == After(states[i - 1], events[i - 1]);
      SubsetSize(Live(states[i].tables.units, now), Live(states[i].tables.units, past));
    }
  }

  /** The expiry that an extending write sets. */
  function NewExpiry(w: Write): Time
    requires Extends(w)
  {
    if w.Renew? then w.until else w.lease.value
  }

  /**
   Heartbeats and progress writes do not check expiry. One keeps the cap exactly
   when the lease it extends is still live, or stays expired, or a slot is free.
   */
  lemma {:induction false} HeartbeatCap(units: map<UnitId, Unit>, id: UnitId, token: Token, w: Write, now: Time,
      cap: nat)
    requires Owns(units, id, token) && UnitsOk(units) && Extends(w) && |Live(units, now)| <= cap
    ensures |Live(FencedWrite(units, id, token, w), now)| <= cap <==>
            (LiveLease(units[id], now) || NewExpiry(w) <= now || |Live(units, now)| < cap)
  {
    var after := FencedWrite(units, id, token, w);
    if LiveLease(units[id], now) || NewExpiry(w) <= now {
      assert Live(after, now) <= Live(units, now);
      SubsetSize(Live(after, now), Live(units, now));
    } else {
      assert Live(after, now) == Live(units, now) + {id};
    }
  }

  // ---- a late heartbeat -------------------------------------------------------

  /** A job of two units on an empty queue. */
  const TwoUnits := EnqueueRequest(0, Parent(Queued, QueuedStage, 0, None, []), [1, 2], 0, 1, 1, 0, 0)

  /** Claims under a limit of one running unit and one attempt each. */
  function ClaimAt(token: Token, now: Time, lease: Time): ClaimRequest {
    ClaimRequest(0, token, lease, now, 1, 1, IMAGE_JOB_UNIT_MAX_RECOVERIES)
  }

  function TwoUnitRows(first: Unit, second: Unit): map<UnitId, Unit> { map[1 := first, 2 := second] }

  function WithRows(units: map<UnitId, Unit>, tokens: set<Token>): System {
    System(Tables(map[TwoUnits.job := TwoUnits.parent], units, map[]), tokens, {1, 2})
  }

  lemma {:induction false} TwoUnitsEnqueued()
    ensures
      var e := Enqueue(TwoUnits);
      Allowed(EmptySystem, e) && After(EmptySystem, e) == WithRows(TwoUnitRows(NewUnit(0, 0, 0), NewUnit(0, 1, 0)), {})
  {
    TwoUnitsAccepted();
    TwoNewUnits();
    hide EnqueueVerdict, NewUnits, FreshIds;
    assert {} + EmptySystem.tables.units.Keys == {};
    assert Elements(TwoUnits.ids) == {1, 2};
    assert map[] + TwoUnitRows(NewUnit(0, 0, 0), NewUnit(0, 1, 0)) == TwoUnitRows(NewUnit(0, 0, 0), NewUnit(0, 1, 0));
  }

  lemma {:induction false} TwoUnitsAccepted()
    ensures EnqueueVerdict(EmptySystem.tables, TwoUnits) == Enqueued && FreshIds(TwoUnits.ids, {})
  {
    assert Pending(map[]) == {};
  }

  lemma {:induction false} TwoNewUnits()
    ensures NewUnits(TwoUnits.job, TwoUnits.ids, TwoUnits.now) == TwoUnitRows(NewUnit(0, 0, 0), NewUnit(0, 1, 0))
  {
    assert IndexOf([2], 2) == 0 && [1, 2][1..] == [2];
    assert IndexOf([1, 2], 1) == 0 && IndexOf([1, 2], 2) == 1;
  }

  /** The first claim takes the first unit. */
  lemma {:induction false} FirstClaimed()
    ensures
      var s := WithRows(TwoUnitRows(NewUnit(0, 0, 0), NewUnit(0, 1, 0)), {});
      var e := Claim(ClaimAt(7, 0, 5), Some(1));
      && Allowed(s, e)
      && After(s, e) == WithRows(TwoUnitRows(ClaimedUnit(NewUnit(0, 0, 0), e.request), NewUnit(0, 1, 0)), {7})
  {
    var units := TwoUnitRows(NewUnit(0, 0, 0), NewUnit(0, 1, 0));
    var r := ClaimAt(7, 0, 5);
    assert Live(units, 0) == {} && ReclaimableUnits(units, 0, 1, r.maxRecoveries) == {};
    assert WithStatus(units, Queued) == {1, 2};
    assert IsCandidate(units, r, 1);
  }

  /** Once the first lease is over its unit has no attempt left, so the next claim takes the second unit. */
  lemma {:induction false} SecondClaimed()
    ensures
      var late := ClaimedUnit(NewUnit(0, 0, 0), ClaimAt(7, 0, 5));
      var s := WithRows(TwoUnitRows(late, NewUnit(0, 1, 0)), {7});
      var e := Claim(ClaimAt(8, 6, 15), Some(2));
      && Allowed(s, e)
      && After(s, e) == WithRows(TwoUnitRows(late, ClaimedUnit(NewUnit(0, 1, 0), e.request)), {7, 8})
  {
    var late := ClaimedUnit(NewUnit(0, 0, 0), ClaimAt(7, 0, 5));
    var units := TwoUnitRows(late, NewUnit(0, 1, 0));
    var r := ClaimAt(8, 6, 15);
    assert Live(units, 6) == {} && ReclaimableUnits(units, 6, 1, r.maxRecoveries) == {};
    assert WithStatus(units, Queued) == {2};
    assert IsCandidate(units, r, 2);
  }

  /**
   A run under a limit of one: two units are enqueued, the first is claimed at 0
   until 5, the second at 6 until 15, and at 10 the first worker sends a late
   heartbeat, or a progress report, until 20. From then on two leases are live.
   */
  lemma {:induction false} LateHeartbeatExceedsCap(w: Write) returns (states: seq<System>, events: seq<Event>)
    requires Extends(w) && NewExpiry(w) == 20
    ensures IsRun(states, events)
    ensures events == [Enqueue(TwoUnits), Claim(ClaimAt(7, 0, 5), Some(1)), Claim(ClaimAt(8, 6, 15), Some(2)),
            Fenced(1, 7, w)]
    ensures |Live(states[3].tables.units, 10)| == 1 && |Live(states[4].tables.units, 10)| == 2
  {
    TwoUnitsEnqueued();
    FirstClaimed();
    SecondClaimed();
    hide Allowed, After;
    var u, v := NewUnit(0, 0, 0), NewUnit(0, 1, 0);
    var late, busy := ClaimedUnit(u, ClaimAt(7, 0, 5)), ClaimedUnit(v, ClaimAt(8, 6, 15));
    var e := Fenced(1, 7, w);
    events := [Enqueue(TwoUnits), Claim(ClaimAt(7, 0, 5), Some(1)), Claim(ClaimAt(8, 6, 15), Some(2)), e];
    var last := WithRows(TwoUnitRows(late, busy), {7, 8});
    LateWrite(last, w);
    states := [EmptySystem, WithRows(TwoUnitRows(u, v), {}), WithRows(TwoUnitRows(late, v), {7}), last, After(last, e)];
  }

  lemma {:induction false} LateWrite(s: System, w: Write)
    requires Extends(w) && NewExpiry(w) == 20
    requires
      var late, busy := ClaimedUnit(NewUnit(0, 0, 0), ClaimAt(7, 0, 5)),
          ClaimedUnit(NewUnit(0, 1, 0), ClaimAt(8, 6, 15));
      s == WithRows(TwoUnitRows(late, busy), {7, 8})
    ensures Allowed(s, Fenced(1, 7, w))
    ensures |Live(s.tables.units, 10)| == 1 && |Live(After(s, Fenced(1, 7, w)).tables.units, 10)| == 2
  {
    assert Live(s.tables.units, 10) == {2};
    assert Live(After(s, Fenced(1, 7, w)).tables.units, 10) == {1, 2};
  }
}
