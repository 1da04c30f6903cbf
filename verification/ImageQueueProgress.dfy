/**
 No unit is stranded: when every worker crashes and only the clock moves, claims
 and expiry sweeps alone finish every unit in a bounded number of rounds.
 */
module ImageQueueProgress {
  import opened Common
  import opened ImageQueue
  import opened ImageQueueRuns
  import opened ImageQueueBounds

  /** One claim by a worker that then crashes, and one expiry sweep after its lease has passed. */
  datatype Round = Round(claim: ClaimRequest, chosen: Option<UnitId>, sweep: Time)

  datatype Limits = Limits(maxAttempts: nat, maxRecoveries: nat) {
    function Cap(): nat { Max(maxAttempts, maxRecoveries + 1) }
  }

  ghost predicate AllExpired(units: map<UnitId, Unit>, now: Time) {
    forall id :: id in units && units[id].status == Running ==> ExpiredLease(units[id], now)
  }

  ghost predicate AllFinished(units: map<UnitId, Unit>) {
    forall id :: id in units ==> Terminal(units[id].status)
  }

  /**
   A round of the crash-only schedule: every earlier lease has passed before the claim,
   and the new one before the sweep.
   */
  ghost predicate CrashRound(units: map<UnitId, Unit>, round: Round, l: Limits) {
    && round.claim.maxAttempts == l.maxAttempts && round.claim.maxRecoveries == l.maxRecoveries
    && AllExpired(units, round.claim.now)
    && ClaimOutcome(units, round.claim, round.chosen)
    && round.claim.now <= round.sweep && round.claim.lease <= round.sweep
  }

  function RoundUnits(units: map<UnitId, Unit>, round: Round, l: Limits): map<UnitId, Unit> {
    ExpireExhausted(ClaimUnits(units, round.claim, round.chosen), round.sweep, l.maxAttempts, l.maxRecoveries)
  }

  ghost predicate CrashSchedule(states: seq<map<UnitId, Unit>>, rounds: seq<Round>, l: Limits) {
    && |states| == |rounds| + 1
    && forall i :: 0 <= i < |rounds| ==>
         CrashRound(states[i], rounds[i], l) && states[i + 1] == RoundUnits(states[i], rounds[i], l)
  }

  /** On an expired unit the reclaim and exhaustion predicates are exact complements. */
  lemma {:induction false} ReclaimedOrExhausted(u: Unit, now: Time, l: Limits)
    requires ExpiredLease(u, now)
    ensures Reclaimable(u, now, l.maxAttempts, l.maxRecoveries) <==> !Exhausted(u, now, l.maxAttempts, l.maxRecoveries)
  {}

  // ---- the decreasing measure -------------------------------------------------

  /** Claims a unit may still get. */
  function Remaining(u: Unit, cap: nat): nat {
    if Active(u.status) then Max(0, cap - u.attempts) else 0
  }

  ghost function Work(units: map<UnitId, Unit>, ids: set<UnitId>, cap: nat): nat
    requires ids <= units.Keys
  {
    if ids == {} then 0
    else
      var id :| id in ids;
      Remaining(units[id], cap) + Work(units, ids - {id}, cap)
  }

  lemma {:induction false} WorkAt(units: map<UnitId, Unit>, ids: set<UnitId>, cap: nat, id: UnitId)
    requires ids <= units.Keys && id in ids
    ensures Work(units, ids, cap) == Remaining(units[id], cap) + Work(units, ids - {id}, cap)
  {
    var first :| first in ids &&
                 Work(units, ids, cap) == Remaining(units[first], cap) + Work(units, ids - {first}, cap);
    if first != id {
      WorkAt(units, ids - {first}, cap, id);
      WorkAt(units, ids - {id}, cap, first);
      assert ids - {first} - {id} == ids - {id} - {first};
    }
  }

  lemma {:induction false} WorkMonotone(a: map<UnitId, Unit>, b: map<UnitId, Unit>, ids: set<UnitId>, cap: nat)
    requires ids <= a.Keys && ids <= b.Keys
    requires forall id :: id in ids ==> Remaining(b[id], cap) <= Remaining(a[id], cap)
    ensures Work(b, ids, cap) <= Work(a, ids, cap)
  {
    if ids != {} {
      var id :| id in ids;
      WorkAt(a, ids, cap, id);
      WorkAt(b, ids, cap, id);
      WorkMonotone(a, b, ids - {id}, cap);
    }
  }

  lemma {:induction false} WorkBound(units: map<UnitId, Unit>, ids: set<UnitId>, cap: nat)
    requires ids <= units.Keys
    ensures Work(units, ids, cap) <= cap * |ids * Pending(units)|
  {
    hide Work, Pending;
    if ids == {} {
      EmptyWork(units, cap);
    } else {
      var id :| id in ids;
      var rest := ids - {id};
      WorkAt(units, ids, cap, id);
      WorkBound(units, rest, cap);
      var n := |rest * Pending(units)|;
      PendingRemaining(units, id, cap);
      if id in Pending(units) {
        assert ids * Pending(units) == rest * Pending(units) + {id};
        assert cap * (n + 1) == cap * n + cap;
      } else {
        assert ids * Pending(units) == rest * Pending(units);
      }
    }
  }

  lemma {:induction false} EmptyWork(units: map<UnitId, Unit>, cap: nat)
    ensures Work(units, {}, cap) == 0
  {}

  lemma {:induction false} PendingRemaining(units: map<UnitId, Unit>, id: UnitId, cap: nat)
    requires id in units
    ensures Remaining(units[id], cap) <= if id in Pending(units) then cap else 0
  {}

  // ---- one round --------------------------------------------------------------

  /** A round leaves a row sound, never gives claims back, and spends one of the claimed unit's. */
  lemma {:induction false} RoundRow(units: map<UnitId, Unit>, round: Round, l: Limits, id: UnitId)
    requires CrashRound(units, round, l) && id in units && UnitOk(units[id])
    ensures
      var after := RoundUnits(units, round, l);
      && after.Keys == units.Keys
      && UnitOk(after[id])
      && Remaining(after[id], l.Cap()) <= Remaining(units[id], l.Cap())
      && (round.chosen == Some(id) ==> Remaining(after[id], l.Cap()) < Remaining(units[id], l.Cap()))
      && (Terminal(units[id].status) ==> Terminal(after[id].status))
  {
    var r := round.claim;
    var claimed := ClaimUnits(units, r, round.chosen)[id];
    RoundKeys(units, round, l);
    RoundAt(units, round, l, id);
    if round.chosen == Some(id) {
      CandidateIsClaimable(units, r, id);
      hide CrashRound, IsCandidate, ClaimOutcome, RoundUnits;
      ClaimedRow(units[id], r, l);
    }
    hide CrashRound, RoundUnits, ClaimUnits, ReclaimableUnits, WithStatus;
    SweptRow(claimed, round.sweep, l);
  }

  lemma {:induction false} RoundAt(units: map<UnitId, Unit>, round: Round, l: Limits, id: UnitId)
    requires id in units
    ensures
      var claimed := if round.chosen == Some(id) then ClaimedUnit(units[id], round.claim) else units[id];
      && id in ClaimUnits(units, round.claim, round.chosen) &&
            ClaimUnits(units, round.claim, round.chosen)[id] == claimed
      && id in RoundUnits(units, round, l)
      && RoundUnits(units, round, l)[id] ==
         if Exhausted(claimed, round.sweep, l.maxAttempts, l.maxRecoveries) then InterruptedUnit(claimed, round.sweep)
             else claimed
  {
    hide Exhausted, InterruptedUnit, ClaimedUnit;
  }

  lemma {:induction false} CandidateIsClaimable(units: map<UnitId, Unit>, r: ClaimRequest, id: UnitId)
    requires IsCandidate(units, r, id)
    ensures id in units && (units[id].status == Queued || Reclaimable(units[id], r.now, r.maxAttempts, r.maxRecoveries))
  {}

  lemma {:induction false} ClaimedRow(u: Unit, r: ClaimRequest, l: Limits)
    requires UnitOk(u) && r.maxAttempts == l.maxAttempts && r.maxRecoveries == l.maxRecoveries
    requires u.status == Queued || Reclaimable(u, r.now, r.maxAttempts, r.maxRecoveries)
    ensures UnitOk(ClaimedUnit(u, r)) && Remaining(ClaimedUnit(u, r), l.Cap()) < Remaining(u, l.Cap())
    ensures !Terminal(u.status)
  {}

  lemma {:induction false} SweptRow(u: Unit, now: Time, l: Limits)
    requires UnitOk(u)
    ensures
      var after := if Exhausted(u, now, l.maxAttempts, l.maxRecoveries) then InterruptedUnit(u, now) else u;
      UnitOk(after) && Remaining(after, l.Cap()) <= Remaining(u, l.Cap()) &&
          (Terminal(u.status) ==> Terminal(after.status))
  {}

  lemma {:induction false} RoundKeepsOk(units: map<UnitId, Unit>, round: Round, l: Limits)
    requires UnitsOk(units) && CrashRound(units, round, l)
    ensures UnitsOk(RoundUnits(units, round, l))
  {
    hide CrashRound, UnitOk;
    forall id | id in RoundUnits(units, round, l)
      ensures UnitOk(RoundUnits(units, round, l)[id])
    {
      RoundKeys(units, round, l);
      RoundRow(units, round, l, id);
    }
  }

  lemma {:induction false} RoundKeys(units: map<UnitId, Unit>, round: Round, l: Limits)
    ensures RoundUnits(units, round, l).Keys == units.Keys
  {}

  /**
   With no live lease a claim that takes nothing means there is nothing left to claim;
   the sweep finishes the rest.
   */
  lemma {:induction false} IdleRoundFinishes(units: map<UnitId, Unit>, round: Round, l: Limits)
    requires UnitsOk(units) && CrashRound(units, round, l) && round.chosen.None?
    ensures AllFinished(RoundUnits(units, round, l))
  {
    var r := round.claim;
    assert Live(units, r.now) == {};
    CandidateExists(units, r);
    forall id | id in units
      ensures Terminal(RoundUnits(units, round, l)[id].status)
    {
      assert id !in ReclaimableUnits(units, r.now, r.maxAttempts, r.maxRecoveries);
      assert id !in WithStatus(units, Queued);
      assert UnitOk(units[id]);
    }
  }

  /** A claim that takes a unit spends one of its remaining claims, and nothing gives claims back. */
  lemma {:induction false} BusyRoundSpends(units: map<UnitId, Unit>, round: Round, l: Limits)
    requires UnitsOk(units) && CrashRound(units, round, l) && round.chosen.Some?
    ensures
      var after := RoundUnits(units, round, l);
      after.Keys == units.Keys && Work(after, units.Keys, l.Cap()) < Work(units, units.Keys, l.Cap())
  {
    var id := round.chosen.value;
    assert id in units by { assert IsCandidate(units, round.claim, id); }
    var after := RoundUnits(units, round, l);
    hide RoundUnits, CrashRound, Work, Remaining;
    RoundKeys(units, round, l);
    forall x | x in units
      ensures Remaining(after[x], l.Cap()) <= Remaining(units[x], l.Cap())
    {
      RoundRow(units, round, l, x);
    }
    RoundRow(units, round, l, id);
    WorkAt(units, units.Keys, l.Cap(), id);
    WorkAt(after, units.Keys, l.Cap(), id);
    WorkMonotone(units, after, units.Keys - {id}, l.Cap());
  }

  lemma {:induction false} FinishedStaysFinished(units: map<UnitId, Unit>, round: Round, l: Limits)
    requires UnitsOk(units) && AllFinished(units) && CrashRound(units, round, l)
    ensures AllFinished(RoundUnits(units, round, l))
  {
    hide RoundUnits, CrashRound;
    RoundKeys(units, round, l);
    forall id | id in units
      ensures Terminal(RoundUnits(units, round, l)[id].status)
    {
      RoundRow(units, round, l, id);
    }
  }

  // ---- the whole schedule -----------------------------------------------------

  lemma {:induction false} WorkShrinks(states: seq<map<UnitId, Unit>>, rounds: seq<Round>, l: Limits, i: nat)
    requires CrashSchedule(states, rounds, l) && UnitsOk(states[0]) && i <= |rounds|
    ensures UnitsOk(states[i])
    ensures AllFinished(states[i]) ||
            Work(states[i], states[i].Keys, l.Cap()) + i <= Work(states[0], states[0].Keys, l.Cap())
  {
    hide CrashRound, RoundUnits, AllFinished, UnitsOk, Work;
    if i > 0 {
      WorkShrinks(states, rounds, l, i - 1);
      var units, round := states[i - 1], rounds[i - 1];
      assert CrashRound(units, round, l) && states[i - 1 + 1] == RoundUnits(units, round, l);
      RoundKeepsOk(units, round, l);
      if AllFinished(units) {
        FinishedStaysFinished(units, round, l);
      } else if round.chosen.None? {
        IdleRoundFinishes(units, round, l);
      } else {
        BusyRoundSpends(units, round, l);
      }
    }
  }

  /**
   From any reachable state, any crash-only schedule of more than
   max(max_attempts, max_recoveries + 1) rounds per pending unit ends with every unit finished.
   */
  lemma {:induction false} NoUnitStranded(
      history: seq<System>, events: seq<Event>, k: nat,
      states: seq<map<UnitId, Unit>>, rounds: seq<Round>, l: Limits)
    requires IsRun(history, events) && k < |history|
    requires CrashSchedule(states, rounds, l) && states[0] == history[k].tables.units
    requires |rounds| > l.Cap() * |Pending(states[0])|
    ensures AllFinished(states[|rounds|])
  {
    hide IsRun, Work, CrashRound, RoundUnits;
    RunOk(history, events, k);
    WorkShrinks(states, rounds, l, |rounds|);
    WorkBound(states[0], states[0].Keys, l.Cap());
    assert states[0].Keys * Pending(states[0]) == Pending(states[0]);
  }

  /** Such a schedule can always go on: once the clock has passed every lease, the next round exists. */
  lemma {:induction false} RoundExists(units: map<UnitId, Unit>, r: ClaimRequest, l: Limits)
    requires AllExpired(units, r.now) && r.maxAttempts == l.maxAttempts && r.maxRecoveries == l.maxRecoveries
    ensures exists chosen :: CrashRound(units, Round(r, chosen, Max(r.now, r.lease)), l)
  {
    if id :| IsCandidate(units, r, id) {
      assert Live(units, r.now) == {};
      assert CrashRound(units, Round(r, Some(id), Max(r.now, r.lease)), l);
    } else {
      assert CrashRound(units, Round(r, None, Max(r.now, r.lease)), l);
    }
  }
}
