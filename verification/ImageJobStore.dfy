/**
 The repository object behind the queue: each method is one transaction that
 updates the tables in place, specified by the step functions of ImageQueue.
 */
module ImageJobStore {
  import opened Common
  import opened ImageQueue
  import opened ImageQueueRuns
  import opened ImageQueueBounds
  import opened ImageQueueParents

  class Store {
    var parents: map<JobId, Parent>
    var units: map<UnitId, Unit>
    var reservations: map<JobId, nat>
    /** IMAGE_JOB_UNIT_MAX_ATTEMPTS of the configuration. */
    const configuredAttempts: int

    constructor (configuredAttempts: int)
      ensures Contents() == Tables(map[], map[], map[]) && this.configuredAttempts == configuredAttempts
    {
      parents, units, reservations := map[], map[], map[];
      this.configuredAttempts := configuredAttempts;
    }

    ghost function Contents(): Tables
      reads this
    {
      Tables(parents, units, reservations)
    }

    /** `SELECT SUM(byte_count)`. */
    method PendingEditSourceBytes() returns (total: nat)
      ensures total == Reserved(reservations)
    {
      total := 0;
      var rest := reservations;
      while rest != map[]
        invariant total + Reserved(rest) == Reserved(reservations)
        decreases |rest|
      {
        var job :| job in rest;
        ReservedAt(rest, job);
        total := total + rest[job];
        assert |rest.Keys| == |(rest - {job}).Keys| + 1 by { assert rest.Keys == (rest - {job}).Keys + {job}; }
        rest := rest - {job};
      }
    }

    method EnqueueImageJob(r: EnqueueRequest) returns (outcome: EnqueueOutcome)
      requires FreshIds(r.ids, units.Keys)
      modifies this
      ensures outcome == EnqueueVerdict(old(Contents()), r)
      ensures Contents() == EnqueueTables(old(Contents()), r)
    {
      var running, queued := |WithStatus(units, Running)|, |WithStatus(units, Queued)|;
      assert Pending(units) == WithStatus(units, Running) + WithStatus(units, Queued);
      if running + queued + |r.ids| > Capacity(r.maxActive, r.maxQueued) {
        return QueueFull;
      }
      var existing := BytesOf(reservations, r.job);
      var current := PendingEditSourceBytes();
      if r.bytes > 0 && r.maxBytes > 0 && current - existing + r.bytes > r.maxBytes {
        return EditSourcesFull;
      }
      if exists id :: id in units && units[id].parent == r.job && units[id].index < |r.ids| {
        return UniqueViolation;
      }
      parents := UpsertParent(parents, r.job, r.parent);
      if !Active(r.parent.status) {
        reservations := reservations - {r.job};
      }
      if r.bytes > 0 {
        reservations := reservations[r.job := r.bytes];
      } else if existing > 0 {
        reservations := reservations - {r.job};
      }
      units := units + NewUnits(r.job, r.ids, r.now);
      outcome := Enqueued;
    }

    method HasClaimableUnit(now: Time, maxAttempts: Option<int>, runningLimit: Option<int>, maxRecoveries: Option<int>)
        returns (claimable: bool)
      ensures claimable == HasClaimable(units, now, AttemptLimit(configuredAttempts, maxAttempts), runningLimit,
                                        RecoveryLimit(maxRecoveries))
    {
      var attempts, recoveries := AttemptLimit(configuredAttempts, maxAttempts), RecoveryLimit(maxRecoveries);
      var candidates := |ReclaimableUnits(units, now, attempts, recoveries)| + |WithStatus(units, Queued)|;
      claimable := candidates > 0;
      if runningLimit.Some? {
        claimable := claimable && |Live(units, now)| < AtLeastOne(runningLimit.value);
      }
    }

    method ClaimNextUnit(worker: WorkerId, token: Token, lease: Time, now: Time, runningLimit: int,
                         maxAttempts: Option<int>, maxRecoveries: Option<int>)
        returns (claimed: Option<UnitId>)
      modifies this
      ensures
        var r := ClaimRequest(worker, token, lease, now, runningLimit,
                              AttemptLimit(configuredAttempts, maxAttempts), RecoveryLimit(maxRecoveries));
        && ClaimOutcome(old(units), r, claimed)
        && Contents() == old(Contents()).(units := ClaimUnits(old(units), r, claimed))
    {
      var attempts, recoveries := AttemptLimit(configuredAttempts, maxAttempts), RecoveryLimit(maxRecoveries);
      var r := ClaimRequest(worker, token, lease, now, runningLimit, attempts, recoveries);
      var expired, queued := ReclaimableUnits(units, now, attempts, recoveries), WithStatus(units, Queued);
      CandidateExists(units, r);
      if |Live(units, now)| >= AtLeastOne(runningLimit) || (expired == {} && queued == {}) {
        return None;
      }
      var id: UnitId;
      if expired != {} {
        ghost var least := LeastExpired(units, expired);
        id :| id in expired && forall other :: other in expired ==> ExpiredBefore(units[id], units[other]);
      } else {
        ghost var least := LeastQueued(units, queued);
        id :| id in queued && forall other :: other in queued ==> QueuedBefore(units[id], units[other]);
      }
      units := units[id := ClaimedUnit(units[id], r)];
      claimed := Some(id);
    }

    method RenewLease(id: UnitId, token: Token, until: Time) returns (owned: bool)
      modifies this
      ensures owned == Owns(old(units), id, token)
      ensures Contents() == old(Contents()).(units := FencedWrite(old(units), id, token, Renew(until)))
    {
      owned := Owns(units, id, token);
      if owned {
        units := units[id := units[id].(expiresAt := Some(until))];
      }
    }

    method WriteRemote(id: UnitId, token: Token, remote: Option<Payload>, checkpointed: bool, now: Time)
        returns (owned: bool)
      modifies this
      ensures owned == Owns(old(units), id, token)
      ensures Contents() == old(Contents()).(units := FencedWrite(old(units), id, token,
              Remote(remote, checkpointed, now)))
    {
      owned := Owns(units, id, token);
      if owned {
        units := units[id := units[id].(remote := remote, checkpointed := checkpointed, updatedAt := now)];
      }
    }

    method UpdateProgress(id: UnitId, token: Token, stage: string, lease: Option<Time>, now: Time)
        returns (row: Option<Unit>)
      modifies this
      ensures Contents() == old(Contents()).(units := FencedWrite(old(units), id, token, Progress(stage, lease, now)))
      ensures row == if Owns(old(units), id, token) then Some(units[id]) else None
    {
      if !Owns(units, id, token) {
        return None;
      }
      units := units[id := units[id].(
        stage := Reported(stage), expiresAt := OrElse(lease, units[id].expiresAt), updatedAt := now)];
      row := Some(units[id]);
    }

    method CompleteUnit(id: UnitId, token: Token, images: seq<Image>, usage: Option<Payload>, cost: Option<Payload>,
                        completedAt: Time, now: Time) returns (row: Option<Unit>)
      modifies this
      ensures Contents() ==
              old(Contents()).(units := FencedWrite(old(units), id, token,
                  Complete(images, usage, cost, completedAt, now)))
      ensures row == if Owns(old(units), id, token) then Some(units[id]) else None
    {
      if !Owns(units, id, token) {
        return None;
      }
      var done := units[id].(status := Success, stage := CompletedStage, images := images, usage := usage, cost := cost,
                             completedAt := Some(completedAt), updatedAt := now);
      units := units[id := done.(claimedBy := None, token := None, expiresAt := None)];
      row := Some(units[id]);
    }

    method FailUnit(id: UnitId, token: Token, status: Status, stage: string, error: string,
                    usage: Option<Payload>, cost: Option<Payload>, finishedAt: Option<Time>, now: Time)
        returns (row: Option<Unit>)
      modifies this
      ensures Contents() ==
              old(Contents()).(units := FencedWrite(old(units), id, token,
                  Fail(status, stage, error, usage, cost, finishedAt, now)))
      ensures row == if Owns(old(units), id, token) then Some(units[id]) else None
    {
      if !Owns(units, id, token) {
        return None;
      }
      var failed := units[id].(status := status, stage := Reported(stage), error := Some(error),
                               usage := OrElse(usage, units[id].usage), cost := OrElse(cost, units[id].cost),
                               completedAt := Some(finishedAt.GetOr(now)), updatedAt := now);
      units := units[id := failed.(claimedBy := None, token := None, expiresAt := None)];
      row := Some(units[id]);
    }

    method ExpireExhaustedUnits(now: Time, maxAttempts: int, maxRecoveries: Option<int>) returns (affected: set<UnitId>)
      modifies this
      ensures Contents() == old(Contents()).(units := ExpireExhausted(old(units), now, AtLeastOne(maxAttempts),
              RecoveryLimit(maxRecoveries)))
      ensures affected == set id | id in units && units[id] != old(units)[id]
    {
      var attempts, recoveries := AtLeastOne(maxAttempts), RecoveryLimit(maxRecoveries);
      affected := set id | id in units && Exhausted(units[id], now, attempts, recoveries);
      if affected == {} {
        assert forall id :: id in units ==> id !in affected;
        return;
      }
      var interrupted := map id | id in affected :: InterruptedUnit(units[id], now);
      assert units + interrupted == ExpireExhausted(units, now, attempts, recoveries);
      units := units + interrupted;
    }

    method CancelJob(job: JobId, now: Time) returns (row: Option<Parent>, cancelled: bool)
      modifies this
      ensures Contents() == CancelTables(old(Contents()), job, now)
      ensures cancelled == ParentActive(old(Contents()), job)
      ensures row == if job in parents then Some(parents[job]) else None
    {
      if job !in parents {
        return None, false;
      }
      if !Active(parents[job].status) {
        return Some(parents[job]), false;
      }
      units := CancelUnits(units, job, now);
      parents := parents[job := CancelledParent(parents[job], now)];
      reservations := reservations - {job};
      return Some(parents[job]), true;
    }

    method TransitionToTerminal(job: JobId, update: Parent) returns (row: Option<Parent>, written: bool)
      modifies this
      ensures Contents() == TransitionTables(old(Contents()), job, update)
      ensures written == ParentActive(old(Contents()), job)
      ensures row == if job in parents then Some(parents[job]) else None
    {
      if job !in parents {
        return None, false;
      }
      if !Active(parents[job].status) {
        return Some(parents[job]), false;
      }
      parents := parents[job := update];
      reservations := reservations - {job};
      return Some(parents[job]), true;
    }

    /** `SELECT ... WHERE parent_job_id = ? ORDER BY unit_index ASC`. */
    method SelectUnits(job: JobId) returns (rows: seq<Unit>)
      requires KeysOk(Contents())
      ensures rows == RowsOf(units, job)
    {
      hide Ordered;
      rows := [];
      var rest := set id | id in units && units[id].parent == job;
      assert rest == UnitsOf(units, job);
      DistinctIndexes(Contents(), job);
      while rest != {}
        invariant rest <= UnitsOf(units, job)
        invariant rows + Ordered(units, rest) == RowsOf(units, job)
        decreases |rest|
      {
        LeastIndexExists(units, rest);
        var id :| id in rest && forall other :: other in rest ==> units[id].index <= units[other].index;
        FirstOrdered(units, rest, id);
        rows := rows + [units[id]];
        rest := rest - {id};
      }
      NothingOrdered(units);
    }

    lemma {:induction false} NothingOrdered(units: map<UnitId, Unit>)
      ensures Ordered(units, {}) == []
    {}

    lemma {:induction false} DistinctIndexes(t: Tables, job: JobId)
      requires KeysOk(t)
      ensures forall a, b ::
                a in UnitsOf(t.units, job) && b in UnitsOf(t.units, job) && t.units[a].index == t.units[b].index
                ==> a == b
    {
      forall a, b | a in UnitsOf(t.units, job) && b in UnitsOf(t.units, job) && t.units[a].index == t.units[b].index
        ensures a == b
      {
        assert SameSlot(t.units[a], t.units[b]);
      }
    }

    lemma {:induction false} FirstOrdered(units: map<UnitId, Unit>, ids: set<UnitId>, id: UnitId)
      requires ids <= units.Keys && id in ids
      requires forall a, b :: a in ids && b in ids && units[a].index == units[b].index ==> a == b
      requires forall other :: other in ids ==> units[id].index <= units[other].index
      ensures Ordered(units, ids) == [units[id]] + Ordered(units, ids - {id})
    {
      LeastIndexExists(units, ids);
      var least :| least in ids && (forall other :: other in ids ==> units[least].index <= units[other].index)
                   && Ordered(units, ids) == [units[least]] + Ordered(units, ids - {least});
      assert units[least].index == units[id].index;
    }

    method AggregateUnits(job: JobId) returns (a: Aggregate)
      requires KeysOk(Contents())
      ensures a == AggregateRows(RowsOf(units, job))
    {
      var rows := SelectUnits(job);
      var images: seq<TaggedImage> := [];
      assert rows[0..] == rows;
      for i := 0 to |rows|
        invariant images + ImagesOf(rows[i..]) == ImagesOf(rows)
      {
        assert rows[i..][1..] == rows[i + 1..];
        if rows[i].status == Success {
          ghost var before := images;
          for k := 0 to |rows[i].images|
            invariant images == before + Tagged(rows[i])[..k]
          {
            images := images + [TaggedImage(rows[i].images[k], rows[i].index, k)];
          }
          assert Tagged(rows[i])[..|rows[i].images|] == Tagged(rows[i]);
          assert before + (Tagged(rows[i]) + ImagesOf(rows[i + 1..])) == images + ImagesOf(rows[i + 1..]);
        }
      }
      a := Aggregate(|rows|,
                     CountIf(rows, IsFinished), CountIf(rows, IsSuccess), CountIf(rows, IsFailure),
                     CountIf(rows, IsCancelled), CountIf(rows, IsRunning), CountIf(rows, IsQueued), images);
    }

    /** The derivation is a callback; it sees a consistent parent and its units. */
    method FinalizeFromUnits(job: JobId, derive: (Parent, seq<Unit>) -> Option<Parent>)
        returns (row: Option<Parent>, written: bool)
      requires KeysOk(Contents())
      modifies this
      ensures old(ParentActive(Contents(), job)) ==>
                Contents() == FinalizeTables(old(Contents()), job, derive(old(parents)[job], RowsOf(old(units), job)))
      ensures !old(ParentActive(Contents(), job)) ==> Contents() == old(Contents())
      ensures written <==>
              old(ParentActive(Contents(), job)) && derive(old(parents)[job], RowsOf(old(units), job)).Some?
      ensures row == if job in parents then Some(parents[job]) else None
    {
      if job !in parents {
        return None, false;
      }
      if !Active(parents[job].status) {
        return Some(parents[job]), false;
      }
      var rows := SelectUnits(job);
      var update := derive(parents[job], rows);
      if update.None? {
        return Some(parents[job]), false;
      }
      parents := parents[job := update.value];
      if !Active(update.value.status) {
        reservations := reservations - {job};
      }
      return Some(parents[job]), true;
    }

    method ClearHistory() returns (deleted: nat)
      modifies this
      ensures var finished := set job | job in old(parents) && !Active(old(parents)[job].status);
              Contents() == ForgetTables(old(Contents()), finished) && deleted == |finished|
    {
      var finished := set job | job in parents && !Active(parents[job].status);
      deleted := |finished|;
      if finished == {} {
        assert ForgetTables(Contents(), finished) == Contents();
        return;
      }
      reservations := reservations - finished;
      units := UnitsOutside(units, finished);
      parents := parents - finished;
    }

    method InterruptActiveJobs(now: Time) returns (interrupted: nat)
      modifies this
      ensures Contents() == InterruptActiveTables(old(Contents()), now)
      ensures interrupted == |ActiveJobs(old(Contents()))|
    {
      var jobs := set job | job in parents && Active(parents[job].status);
      assert jobs == ActiveJobs(Contents());
      interrupted := |jobs|;
      reservations := reservations - jobs;
      units := UnitsOutside(units, jobs);
      parents := map job | job in parents ::
          if job in jobs then parents[job].(status := Interrupted, stage := InterruptedStage,
                                            completedAt := Some(now), updatedAt := now)
          else parents[job];
    }
  }
}
