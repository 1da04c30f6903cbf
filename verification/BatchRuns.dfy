/**
 All runs of one analysis job: workers that claim it, fetch rows, count them,
 renew, crash and are taken over, in any order and at any time -
 backend/app/services/assistant_batch.py.

 Nothing is assumed about workers or clocks. A lease names its worker only, so two
 runs of one worker could both hold it; the dispatcher excludes that by claiming
 only when no run of its own is going (claim_loop.py, with one job at a time).
 Only the results about stored progress ask for it.
 */
module BatchRuns {
  import opened Common
  import opened BatchAnalysis

  /**
   What one run of a worker holds: its counters, the rows fetched and not yet counted,
   and whether they are the last.
   */
  datatype Run = Run(owner: string, t: Tally, queue: seq<Row>, last: bool)

  /** The stored job, and the runs that are going, by number. */
  datatype System = System(job: Job, runs: map<nat, Run>)

  datatype Event =
    | Claim(run: nat, owner: string, now: int, expires: int, slotFree: bool)
    | Renew(run: nat, now: int, expires: int)
    | Fetch(run: nat, table: seq<Row>)
    | CountRow(run: nat, outcome: Outcome, now: int, expires: int)
    | Complete(run: nat, now: int)
    | Crash(run: nat)

  predicate Allowed(s: System, e: Event) {
    match e
    case Claim(k, _, _, _, _) => k !in s.runs
    case Renew(k, _, _) => k in s.runs
    case Fetch(k, table) => k in s.runs && s.runs[k].queue == [] && !s.runs[k].last && Descending(table)
    case CountRow(k, _, _, _) => k in s.runs && s.runs[k].queue != []
    case Complete(k, _) => k in s.runs && s.runs[k].queue == [] && s.runs[k].last
    case Crash(k) => k in s.runs
  }

  function Fetched(r: Run, table: seq<Row>): Run {
    var batch := NextBatch(r.t, table);
    Run(r.owner, r.t, batch.rows, batch.rows == [] || batch.exhausted || r.t.payload.IdList?)
  }

  function CountedRun(r: Run, outcome: Outcome): Run
    requires r.queue != []
  {
    Run(r.owner, Counted(r.t, r.queue[0], outcome), r.queue[1..], r.last)
  }

  function Step(s: System, e: Event): System
    requires Allowed(s, e)
  {
    match e
    case Claim(k, owner, now, expires, slotFree) =>
      if slotFree && Claimable(s.job, now) then
        System(Claimed(s.job, owner, expires), s.runs[k := Run(owner, s.job.tally, [], false)])
      else s
    case Renew(k, now, expires) =>
      if Holds(s.job, s.runs[k].owner, now) then s.(job := s.job.(expires := Some(expires)))
      else s.(runs := s.runs - {k})
    case Fetch(k, table) => s.(runs := s.runs[k := Fetched(s.runs[k], table)])
    case CountRow(k, outcome, now, expires) =>
      var r := CountedRun(s.runs[k], outcome);
      if Holds(s.job, r.owner, now) then System(s.job.(expires := Some(expires), tally := r.t), s.runs[k := r])
      else s.(runs := s.runs - {k})
    case Complete(k, now) =>
      System(if Holds(s.job, s.runs[k].owner, now) then Completed(s.job, s.runs[k].t) else s.job, s.runs - {k})
    case Crash(k) => s.(runs := s.runs - {k})
  }

  predicate IsRun(s: System, events: seq<Event>)
    decreases |events|
  {
    events == [] || (Allowed(s, events[0]) && IsRun(Step(s, events[0]), events[1..]))
  }

  function Final(s: System, events: seq<Event>): System
    requires IsRun(s, events)
    decreases |events|
  {
    if events == [] then s else Final(Step(s, events[0]), events[1..])
  }

  // ---- the invariant ----------------------------------------------------------

  predicate IsOpen(j: Job) { j.status == Queued || j.status == Running }

  /** A run's counters are consistent and its rows are next. */
  ghost predicate RunOk(j: Job, r: Run) {
    && TallyOk(r.t) && SameBatch(r.t, j.tally) && Countable(r.t, r.queue)
    && (r.last && r.t.payload.IdList? ==> r.t.processed + |r.queue| == Quota(r.t))
  }

  ghost predicate SystemOk(s: System) {
    JobOk(s.job) && forall k :: k in s.runs ==> RunOk(s.job, s.runs[k])
  }

  lemma {:induction false} FetchedOk(j: Job, r: Run, table: seq<Row>)
    requires RunOk(j, r) && Descending(table)
    ensures RunOk(j, Fetched(r, table))
  {
    hide TallyOk, Countable, Descending, NextBatch;
    NextBatchCountable(r.t, table);
  }

  lemma {:induction false} CountedRunOk(j: Job, r: Run, outcome: Outcome)
    requires RunOk(j, r) && r.queue != []
    ensures
      var after := CountedRun(r, outcome);
      TallyOk(after.t) && SameBatch(after.t, j.tally) && Countable(after.t, after.queue)
    ensures
      var after := CountedRun(r, outcome);
      after.last && after.t.payload.IdList? ==> after.t.processed + |after.queue| == Quota(after.t)
  {
    CountedOk(r.t, r.queue, outcome);
    hide TallyOk, Countable;
  }

  /** A change of the stored record that keeps the batch. */
  lemma {:induction false} OtherRunOk(j: Job, k: Job, r: Run)
    requires RunOk(j, r) && SameBatch(j.tally, k.tally)
    ensures RunOk(k, r)
  {
    hide TallyOk, Countable;
  }

  lemma {:induction false} CompletedBatch(j: Job, t: Tally)
    requires SameBatch(t, j.tally)
    ensures SameBatch(j.tally, Completed(j, t).tally) && !IsOpen(Completed(j, t))
  {}

  /** Every step of every run keeps the record and the runs consistent. */
  lemma {:induction false} StepOk(s: System, e: Event)
    requires SystemOk(s) && Allowed(s, e)
    ensures SystemOk(Step(s, e))
  {
    var after := Step(s, e);
    JobStepOk(s, e);
    hide TallyOk, Countable, JobOk, RunOk;
    forall k | k in after.runs
      ensures RunOk(after.job, after.runs[k])
    {
      if k in s.runs { assert RunOk(s.job, s.runs[k]); }
      RunStepOk(s, e, k);
    }
  }

  lemma {:induction false} JobStepOk(s: System, e: Event)
    requires SystemOk(s) && Allowed(s, e)
    ensures JobOk(Step(s, e).job) && SameBatch(s.job.tally, Step(s, e).job.tally)
  {
    hide TallyOk, FinishedOk, Countable, Counted, Completed;
    match e
    case Complete(k, now) =>
      assert RunOk(s.job, s.runs[k]);
      CompletedOk(s.job, s.runs[k].t);
      CompletedBatch(s.job, s.runs[k].t);
    case CountRow(k, outcome, _, _) =>
      assert RunOk(s.job, s.runs[k]);
      CountedRunOk(s.job, s.runs[k], outcome);
    case _ =>
  }

  lemma {:induction false} RunStepOk(s: System, e: Event, k: nat)
    requires SystemOk(s) && Allowed(s, e) && k in Step(s, e).runs
    requires k in s.runs ==> RunOk(s.job, s.runs[k])
    requires SameBatch(s.job.tally, Step(s, e).job.tally)
    ensures RunOk(Step(s, e).job, Step(s, e).runs[k])
  {
    hide SystemOk, TallyOk, Countable, Counted, NextBatch, SameBatch, Completed;
    var after := Step(s, e);
    match e
    case Claim(_, _, now, _, _) =>
      if k !in s.runs {
        ClaimableIsOpen(s, now);
        NewRunCountable(s);
        SameBatchSelf(s.job.tally);
      } else {
        OtherRunOk(s.job, after.job, s.runs[k]);
      }
    case Renew(_, _, _) => OtherRunOk(s.job, after.job, s.runs[k]);
    case Fetch(mine, table) => if k == mine { FetchedOk(s.job, s.runs[k], table); }
    case CountRow(mine, outcome, now, expires) =>
      if k == mine {
        CountedRunOk(s.job, s.runs[k], outcome);
        SameBatchSelf(after.runs[k].t);
      } else {
        OtherRunOk(s.job, after.job, s.runs[k]);
      }
    case Complete(_, _) => OtherRunOk(s.job, after.job, s.runs[k]);
    case Crash(_) =>
  }

  lemma {:induction false} SameBatchSelf(t: Tally)
    ensures SameBatch(t, t)
  {}

  lemma {:induction false} ClaimableIsOpen(s: System, now: int)
    requires SystemOk(s) && Claimable(s.job, now)
    ensures TallyOk(s.job.tally)
  {
    hide TallyOk;
  }

  lemma {:induction false} NewRunCountable(s: System)
    requires SystemOk(s) && TallyOk(s.job.tally)
    ensures Countable(s.job.tally, [])
  {}

  // ---- over whole runs --------------------------------------------------------

  /** In every reachable state the stored counters account for every processed row exactly once. */
  lemma {:induction false} AlwaysOk(s: System, events: seq<Event>)
    requires SystemOk(s) && IsRun(s, events)
    ensures SystemOk(Final(s, events))
    decreases |events|
  {
    hide SystemOk;
    if events != [] {
      StepOk(s, events[0]);
      AlwaysOk(Step(s, events[0]), events[1..]);
    }
  }

  /** A finished job is never written again. */
  lemma {:induction false} FinishedForever(s: System, events: seq<Event>)
    requires SystemOk(s) && IsRun(s, events) && !IsOpen(s.job)
    ensures Final(s, events).job == s.job
    decreases |events|
  {
    if events != [] {
      StepOk(s, events[0]);
      hide SystemOk;
      assert Step(s, events[0]).job == s.job;
      FinishedForever(Step(s, events[0]), events[1..]);
    }
  }

  /** The lease is the worker's, the job is running, and the lease has not run out. */
  predicate HasLease(j: Job, owner: string, now: int) {
    j.status == Running && j.owner == Some(owner) && (j.expires.Some? ==> now < j.expires.value)
  }

  /** A run whose worker lost the job, or let its lease expire, changes nothing and stops. */
  lemma {:induction false} StaleWorkerStops(s: System, e: Event)
    requires Allowed(s, e) && (e.Renew? || e.CountRow? || e.Complete?) && !HasLease(s.job, s.runs[e.run].owner, e.now)
    ensures Step(s, e).job == s.job && e.run !in Step(s, e).runs
  {}

  /**
   With the lease each write is stored: a renewal moves the expiry alone, a counted row
   brings the counters up to those of the run with that row and moves the expiry, and the
   last write frees the job; the run goes on but for the last.
   */
  lemma {:induction false} HolderWrites(s: System, e: Event)
    requires Allowed(s, e) && (e.Renew? || e.CountRow? || e.Complete?) && HasLease(s.job, s.runs[e.run].owner, e.now)
    ensures
      var r, j := s.runs[e.run], Step(s, e).job;
      && (e.Renew? ==> j == s.job.(expires := Some(e.expires)) && Step(s, e).runs == s.runs)
      && (e.CountRow? ==>
            && j.status == Running && j.owner == s.job.owner && j.expires == Some(e.expires)
            && j.tally == Step(s, e).runs[e.run].t && j.tally.done == r.t.done + [Entry(r.queue[0], e.outcome)]
            && Step(s, e).runs[e.run].queue == r.queue[1..])
      && (e.Complete? ==> j.owner == None && j.expires == None && j.tally.done == r.t.done && e.run !in Step(s, e).runs)
  {}

  /**
   A fetch looks for the next rows, and knows them for the last when it found fewer than
   it asked for, or has a list.
   */
  lemma {:induction false} FetchExact(s: System, e: Event)
    requires SystemOk(s) && Allowed(s, e) && e.Fetch?
    ensures
      var r, after := s.runs[e.run], Step(s, e).runs[e.run];
      && Step(s, e).job == s.job && after.t == r.t && after.owner == r.owner
      && after.queue == NextBatch(r.t, e.table).rows
      && (r.t.payload.IdList? ==> after.last)
      && (r.t.payload.Selection? ==>
            (after.last <==> r.t.requested <= r.t.processed || |after.queue| < Min(25, r.t.requested - r.t.processed)))
  {
    assert RunOk(s.job, s.runs[e.run]);
    hide Page, RowsOk, Count, Countable;
  }

  /** A crash ends the run and stores nothing. */
  lemma {:induction false} CrashStoresNothing(s: System, e: Event)
    requires Allowed(s, e) && e.Crash?
    ensures Step(s, e).job == s.job && Step(s, e).runs == s.runs - {e.run}
  {}

  /** A claim takes a queued job, or a running one whose lease has run out, when a slot is free, and nothing else. */
  lemma {:induction false} ClaimExact(s: System, e: Event)
    requires Allowed(s, e) && e.Claim?
    ensures
      var free := e.slotFree && (s.job.status == Queued
                                 || (s.job.status == Running && s.job.expires.Some? && s.job.expires.value <= e.now));
      && (free ==>
            && Step(s, e).job == s.job.(status := Running, owner := Some(e.owner), expires := Some(e.expires))
            && Step(s, e).runs == s.runs[e.run := Run(e.owner, s.job.tally, [], false)])
      && (!free ==> Step(s, e) == s)
  {}

  /**
   From creation to completion, over any run: everything requested ends up
   analysed, missing or failed, and the job succeeds exactly when all of it was
   analysed.
   */
  lemma {:induction false} CompletionIsExact(job: Job, events: seq<Event>)
    requires JobOk(job) && job.status == Queued && IsRun(System(job, map[]), events)
    ensures
      var j := Final(System(job, map[]), events).job;
      if IsOpen(j) then
        j.tally.analyzed + j.tally.failed + j.tally.missing == j.tally.processed + Unfound(j.tally) &&
        j.tally.processed <= j.tally.requested
      else
        j.tally.analyzed + j.tally.missing + j.tally.failed == j.tally.requested &&
        (j.status == Success <==> j.tally.analyzed == j.tally.requested)
  {
    var s := System(job, map[]);
    AlwaysOk(s, events);
    var j := Final(s, events).job;
    hide TallyOk, Final, IsRun;
    if IsOpen(j) { Accounting(j.tally); }
  }

  // ---- stored progress --------------------------------------------------------

  /** Each worker has one run at most, and the one that holds the open job has the stored counters. */
  ghost predicate InStep(s: System) {
    && (forall k, l :: k in s.runs && l in s.runs && s.runs[k].owner == s.runs[l].owner ==> k == l)
    && (forall k :: k in s.runs && s.job.owner == Some(s.runs[k].owner) && IsOpen(s.job) ==> s.runs[k].t == s.job.tally)
  }

  /** The dispatcher claims only when no run of its own is going. */
  predicate ClaimsAlone(s: System, e: Event) {
    e.Claim? ==> forall k :: k in s.runs ==> s.runs[k].owner != e.owner
  }

  predicate AllClaimAlone(s: System, events: seq<Event>)
    requires IsRun(s, events)
    decreases |events|
  {
    events == [] || (ClaimsAlone(s, events[0]) && AllClaimAlone(Step(s, events[0]), events[1..]))
  }

  lemma {:induction false} InStepStays(s: System, e: Event)
    requires InStep(s) && Allowed(s, e) && ClaimsAlone(s, e)
    ensures InStep(Step(s, e))
  {
    hide Counted, NextBatch, Closed;
  }

  /**
   A write goes on from the stored rows exactly when they are all among the rows of
   the run that writes, the one it is about to store included.
   */
  lemma {:induction false} WriteExtendsExactly(s: System, e: Event)
    requires Allowed(s, e)
    ensures
      s.job.tally.done <= Step(s, e).job.tally.done <==>
      match e {
        case CountRow(k, outcome, now, _) =>
          Holds(s.job, s.runs[k].owner, now) ==>
            s.job.tally.done <= s.runs[k].t.done + [Entry(s.runs[k].queue[0], outcome)]
        case Complete(k, now) => Holds(s.job, s.runs[k].owner, now) ==> s.job.tally.done <= s.runs[k].t.done
        case _ => true
      }
  {}

  lemma {:induction false} RunLast(s: System, events: seq<Event>, e: Event)
    requires IsRun(s, events) && Allowed(Final(s, events), e)
    ensures IsRun(s, events + [e]) && Final(s, events + [e]) == Step(Final(s, events), e)
    decreases |events|
  {
    if events == [] {
      assert events + [e] == [e] && [e][1..] == [];
    } else {
      assert (events + [e])[0] == events[0] && (events + [e])[1..] == events[1..] + [e];
      hide Step, Allowed;
      RunLast(Step(s, events[0]), events[1..], e);
    }
  }

  /** A worker that claims a second time beside a run of its own, and has both runs go on. */
  function Overlap(owner: string, table: seq<Row>, outcome: Outcome): seq<Event> {
    [Claim(1, owner, 0, 5, true), Fetch(1, table), Claim(2, owner, 6, 20, true), Fetch(2, table)]
    + [CountRow(2, outcome, 7, 21), CountRow(2, outcome, 8, 22)]
  }

  lemma {:induction false} TwoFetched(job: Job, owner: string, table: seq<Row>)
    requires job.status == Queued && Descending(table)
    ensures
      var events := [Claim(1, owner, 0, 5, true), Fetch(1, table), Claim(2, owner, 6, 20, true), Fetch(2, table)];
      var fetched := Fetched(Run(owner, job.tally, [], false), table);
      && IsRun(System(job, map[]), events)
      && Final(System(job, map[]), events) == System(Claimed(job, owner, 20), map[1 := fetched, 2 := fetched])
  {
    hide Fetched, Descending;
    var s, started := System(job, map[]), Run(owner, job.tally, [], false);
    var fetched := Fetched(started, table);
    var e1, e2 := Claim(1, owner, 0, 5, true), Fetch(1, table);
    var e3, e4 := Claim(2, owner, 6, 20, true), Fetch(2, table);
    RunLast(s, [], e1);
    assert Final(s, [e1]) == System(Claimed(job, owner, 5), map[1 := started]);
    RunLast(s, [e1], e2);
    assert [e1] + [e2] == [e1, e2];
    assert Final(s, [e1, e2]) == System(Claimed(job, owner, 5), map[1 := fetched]);
    RunLast(s, [e1, e2], e3);
    assert [e1, e2] + [e3] == [e1, e2, e3];
    assert Final(s, [e1, e2, e3]) == System(Claimed(job, owner, 20), map[1 := fetched, 2 := started]);
    RunLast(s, [e1, e2, e3], e4);
    assert [e1, e2, e3] + [e4] == [e1, e2, e3, e4];
  }

  /**
   Why that is needed: with two runs of one worker going, the older one passes for
   the holder of the lease, and its next write takes back a row the newer one stored.
   */
  lemma {:induction false} OverlapLosesProgress(job: Job, owner: string, table: seq<Row>, outcome: Outcome)
    requires JobOk(job) && job.status == Queued && Descending(table) && |NextBatch(job.tally, table).rows| >= 2
    ensures
      var s, events, late := System(job, map[]), Overlap(owner, table, outcome), CountRow(1, outcome, 9, 23);
      && IsRun(s, events) && IsRun(s, events + [late])
      && |Final(s, events).job.tally.done| == |job.tally.done| + 2
      && |Final(s, events + [late]).job.tally.done| == |job.tally.done| + 1
  {
    var s := System(job, map[]);
    var r := Fetched(Run(owner, job.tally, [], false), table);
    var early := [Claim(1, owner, 0, 5, true), Fetch(1, table), Claim(2, owner, 6, 20, true), Fetch(2, table)];
    var e5, e6, late := CountRow(2, outcome, 7, 21), CountRow(2, outcome, 8, 22), CountRow(1, outcome, 9, 23);
    TwoFetched(job, owner, table);
    assert |r.queue| >= 2 && r.t == job.tally && r.owner == owner;
    hide Fetched, Descending, NextBatch, Final, IsRun, Overlap;
    var once := CountedRun(r, outcome);
    var twice := CountedRun(once, outcome);
    CountedDone(r, outcome);
    CountedDone(once, outcome);
    hide CountedRun;
    RunLast(s, early, e5);
    assert Final(s, early + [e5]) == System(Claimed(job, owner, 21).(tally := once.t), map[1 := r, 2 := once]);
    RunLast(s, early + [e5], e6);
    assert Final(s, early + [e5] + [e6]) == System(Claimed(job, owner, 22).(tally := twice.t), map[1 := r, 2 := twice]);
    RunLast(s, early + [e5] + [e6], late);
    assert Overlap(owner, table, outcome) == early + [e5] + [e6] by { OverlapIs(owner, table, outcome); }
  }

  lemma {:induction false} OverlapIs(owner: string, table: seq<Row>, outcome: Outcome)
    ensures
      Overlap(owner, table, outcome) ==
      [Claim(1, owner, 0, 5, true), Fetch(1, table), Claim(2, owner, 6, 20, true), Fetch(2, table)]
      + [CountRow(2, outcome, 7, 21)] + [CountRow(2, outcome, 8, 22)]
  {}

  lemma {:induction false} CountedDone(r: Run, outcome: Outcome)
    requires r.queue != []
    ensures
      var after := CountedRun(r, outcome);
      |after.t.done| == |r.t.done| + 1 && after.queue == r.queue[1..] && after.owner == r.owner
  {}

  /** One step stores at most one more row, after the ones stored before. */
  lemma {:induction false} StepExtends(s: System, e: Event)
    requires SystemOk(s) && InStep(s) && Allowed(s, e)
    ensures s.job.tally.done <= Step(s, e).job.tally.done
    ensures |Step(s, e).job.tally.done| <= |s.job.tally.done| + 1
    ensures s.job.tally.processed <= Step(s, e).job.tally.processed
  {
    hide TallyOk, FinishedOk, Countable, SameBatch;
  }

  /**
   As long as no worker claims beside a run of its own, stored progress is never lost
   or recounted: crashes and takeovers go on from the stored rows.
   */
  lemma {:induction false} ProgressOnlyGrows(s: System, events: seq<Event>)
    requires SystemOk(s) && InStep(s) && IsRun(s, events) && AllClaimAlone(s, events)
    ensures s.job.tally.done <= Final(s, events).job.tally.done
    ensures s.job.tally.processed <= Final(s, events).job.tally.processed
    decreases |events|
  {
    hide SystemOk, Step, InStep, ClaimsAlone;
    if events != [] {
      StepOk(s, events[0]);
      InStepStays(s, events[0]);
      StepExtends(s, events[0]);
      ProgressOnlyGrows(Step(s, events[0]), events[1..]);
    }
  }

  // ---- an unchanged gallery ---------------------------------------------------

  /** The counted rows, and after them the fetched ones, are the first matching rows of the table, in order. */
  ghost predicate Follows(t: Tally, queue: seq<Row>, table: seq<Row>) {
    t.payload.Selection? ==>
      var all := Matching(table, t.payload.boundary);
      && t.processed == |t.done| && t.processed + |queue| <= |all|
      && (forall k :: 0 <= k < |t.done| ==> t.done[k].row == all[k])
      && (forall k :: 0 <= k < |queue| ==> queue[k] == all[t.processed + k])
  }

  /** After `n` rows there are no more, or no more were asked for. */
  ghost predicate ReachesEnd(t: Tally, n: int, table: seq<Row>) {
    t.payload.Selection? ==> n == |Matching(table, t.payload.boundary)| || n >= t.requested
  }

  ghost predicate StaticRun(r: Run, table: seq<Row>) {
    Follows(r.t, r.queue, table) && (r.last ==> ReachesEnd(r.t, r.t.processed + |r.queue|, table))
  }

  ghost predicate StaticJob(j: Job, table: seq<Row>) {
    Follows(j.tally, [], table) && (!IsOpen(j) ==> ReachesEnd(j.tally, j.tally.processed, table))
  }

  ghost predicate StaticOk(s: System, table: seq<Row>) {
    StaticJob(s.job, table) && forall k :: k in s.runs ==> StaticRun(s.runs[k], table)
  }

  lemma {:induction false} StaticFetch(r: Run, table: seq<Row>)
    requires TallyOk(r.t) && Follows(r.t, [], table) && Descending(table)
    ensures StaticRun(Fetched(r, table), table)
  {
    if r.t.payload.Selection? && r.t.processed < r.t.requested {
      var boundary := r.t.payload.boundary;
      var limit := Min(BATCH_SIZE, r.t.requested - r.t.processed);
      if r.t.processed == 0 {
        FirstRows(table, boundary, limit);
      } else {
        PageContinues(table, boundary, r.t.processed, limit);
      }
    }
    hide Page, Descending, Within, Matching, Count;
  }

  lemma {:induction false} StaticCount(r: Run, outcome: Outcome, table: seq<Row>)
    requires StaticRun(r, table) && r.queue != []
    ensures StaticRun(CountedRun(r, outcome), table) && Follows(CountedRun(r, outcome).t, [], table)
  {
    hide Matching;
    var after := CountedRun(r, outcome);
    assert forall k :: 0 <= k < |r.t.done| ==> after.t.done[k] == r.t.done[k];
    assert forall k :: 0 <= k < |r.queue[1..]| ==> r.queue[1..][k] == r.queue[k + 1];
  }

  lemma {:induction false} StaticClose(j: Job, t: Tally, table: seq<Row>)
    requires Follows(t, [], table) && ReachesEnd(t, t.processed, table) && SameBatch(t, j.tally)
    ensures StaticJob(Completed(j, t), table)
  {
    hide Matching;
  }

  lemma {:induction false} StaticStep(s: System, e: Event, table: seq<Row>)
    requires SystemOk(s) && Allowed(s, e) && StaticOk(s, table)
    requires e.Fetch? ==> e.table == table
    ensures StaticOk(Step(s, e), table)
  {
    hide TallyOk, Countable, Follows, ReachesEnd, Counted, Completed, NextBatch, JobOk;
    match e
    case Fetch(k, _) =>
      assert RunOk(s.job, s.runs[k]) && StaticRun(s.runs[k], table);
      StaticFetch(s.runs[k], table);
    case CountRow(k, outcome, _, _) =>
      assert StaticRun(s.runs[k], table) && RunOk(s.job, s.runs[k]);
      StaticCount(s.runs[k], outcome, table);
    case Complete(k, _) =>
      assert StaticRun(s.runs[k], table) && RunOk(s.job, s.runs[k]);
      StaticClose(s.job, s.runs[k].t, table);
    case Claim(_, owner, _, _, _) => NothingQueued(owner, s.job.tally, table);
    case _ =>
  }

  lemma {:induction false} NothingQueued(owner: string, t: Tally, table: seq<Row>)
    ensures Follows(t, [], table) ==> StaticRun(Run(owner, t, [], false), table)
  {}

  ghost predicate SameTable(events: seq<Event>, table: seq<Row>) {
    forall i :: 0 <= i < |events| && events[i].Fetch? ==> events[i].table == table
  }

  lemma {:induction false} StaticAlways(s: System, events: seq<Event>, table: seq<Row>)
    requires SystemOk(s) && IsRun(s, events) && StaticOk(s, table) && SameTable(events, table)
    ensures StaticOk(Final(s, events), table)
    decreases |events|
  {
    hide SystemOk, StaticOk;
    if events != [] {
      StepOk(s, events[0]);
      StaticStep(s, events[0], table);
      assert SameTable(events[1..], table) by {
        assert forall i :: 0 <= i < |events[1..]| ==> events[1..][i] == events[i + 1];
      }
      StaticAlways(Step(s, events[0]), events[1..], table);
    }
  }

  /**
   On an unchanged gallery a selection job, through any crashes and takeovers,
   counts the matching rows in order, each once; when it is finished it has
   counted exactly all of them, so only what the analysis reported is missing.
   */
  lemma {:induction false} SelectionIsExact(job: Job, events: seq<Event>, table: seq<Row>)
    requires JobOk(job) && job.status == Queued && job.tally.payload.Selection? && job.tally.done == []
    requires job.tally.requested == |Matching(table, job.tally.payload.boundary)|
    requires IsRun(System(job, map[]), events) && SameTable(events, table)
    ensures
      var t := Final(System(job, map[]), events).job.tally;
      var all := Matching(table, job.tally.payload.boundary);
      && |t.done| <= |all| && (forall k :: 0 <= k < |t.done| ==> t.done[k].row == all[k])
      && (!IsOpen(Final(System(job, map[]), events).job) ==>
            && |t.done| == |all| && t.processed == t.requested
            && t.missing == Count(t.done, Missing)
            && t.analyzed == Count(t.done, Analyzed) && t.failed == Count(t.done, Failed))
  {
    var s := System(job, map[]);
    AlwaysOk(s, events);
    StaticAlways(s, events, table);
    SameBatchForever(s, events);
    FinishedCounts(s, events);
    hide Matching, Final, IsRun, Count, TallyOk, FinishedOk;
    var j := Final(s, events).job;
  }

  lemma {:induction false} SameBatchForever(s: System, events: seq<Event>)
    requires SystemOk(s) && IsRun(s, events)
    ensures SameBatch(s.job.tally, Final(s, events).job.tally)
    decreases |events|
  {
    hide SystemOk, JobOk;
    if events != [] {
      StepOk(s, events[0]);
      JobStepOk(s, events[0]);
      SameBatchForever(Step(s, events[0]), events[1..]);
    }
  }

  /** The counters of a job, open or finished, apart from what was missing when it was closed. */
  ghost predicate CountsDone(t: Tally) {
    t.payload.Selection? ==>
      && t.processed == |t.done|
      && t.analyzed == Count(t.done, Analyzed) && t.failed == Count(t.done, Failed)
      && (t.processed >= t.requested ==> t.missing == Count(t.done, Missing))
  }

  lemma {:induction false} OpenCounts(t: Tally)
    requires TallyOk(t)
    ensures CountsDone(t) && CountsDone(Closed(t))
  {
    hide RowsOk, Count;
  }

  lemma {:induction false} FinishedCounts(s: System, events: seq<Event>)
    requires SystemOk(s) && IsRun(s, events) && CountsDone(s.job.tally)
    ensures CountsDone(Final(s, events).job.tally)
    decreases |events|
  {
    if events != [] {
      StepOk(s, events[0]);
      CountsStep(s, events[0]);
      hide SystemOk, CountsDone, Step;
      FinishedCounts(Step(s, events[0]), events[1..]);
    }
  }

  lemma {:induction false} CountsStep(s: System, e: Event)
    requires SystemOk(s) && Allowed(s, e) && CountsDone(s.job.tally)
    ensures CountsDone(Step(s, e).job.tally)
  {
    StepOk(s, e);
    hide TallyOk, FinishedOk, Countable, CountsDone, Counted, Closed;
    match e
    case CountRow(k, outcome, _, _) =>
      assert RunOk(s.job, s.runs[k]);
      CountedRunOk(s.job, s.runs[k], outcome);
      OpenCounts(CountedRun(s.runs[k], outcome).t);
    case Complete(k, _) =>
      assert RunOk(s.job, s.runs[k]);
      OpenCounts(s.runs[k].t);
      ClosedRequested(s.job, s.runs[k].t);
    case _ =>
  }

  lemma {:induction false} ClosedRequested(j: Job, t: Tally)
    requires SameBatch(t, j.tally)
    ensures Completed(j, t).tally == Closed(t)
  {}
}
