/**
 The worker of an analysis job, `_run_ai_analyze_job` with its loops -
 backend/app/services/assistant_batch.py. Each of its steps is an event of
 `BatchRuns`, and any events of other runs happen in between.
 */
module BatchWorker {
  import opened Common
  import opened BatchAnalysis
  import opened BatchRuns

  /** What an analysis ends with; Busy is the 429 that makes the worker wait and try again. */
  datatype Answer = Ok | NotFound | Busy | Broken | LeaseLost

  /** How a run ends: completed, stopped by a lost lease, or cut off by a crash. */
  datatype RunEnd = Finished | Lost | Crashed

  // ---- what the answers say ---------------------------------------------------

  /** An outcome, and how many answers have been used for it. */
  datatype Seen = Seen(outcome: Outcome, next: nat)

  /** The analysis of one image: busy answers are waited out, the first other one decides. */
  function Analysis(answers: seq<Answer>, from: nat): (seen: Option<Seen>)
    requires from <= |answers|
    ensures seen.Some? ==> from < seen.value.next <= |answers|
    decreases |answers| - from
  {
    if from == |answers| then None
    else
      match answers[from]
      case Busy => Analysis(answers, from + 1)
      case Ok => Some(Seen(Analyzed, from + 1))
      case NotFound => Some(Seen(Missing, from + 1))
      case Broken => Some(Seen(Failed, from + 1))
      case LeaseLost => None
  }

  datatype Results = Results(entries: seq<Entry>, next: nat)

  /** One entry per row, in order, each with the outcome of its own analysis. */
  function ResultsOf(rows: seq<Row>, answers: seq<Answer>): (results: Option<Results>)
    ensures results.Some? ==> results.value.next <= |answers|
  {
    if rows == [] then Some(Results([], 0))
    else
      var before := ResultsOf(rows[..|rows| - 1], answers);
      if before.None? then None
      else
        var seen := Analysis(answers, before.value.next);
        if seen.None? then None
        else Some(Results(before.value.entries + [Entry(rows[|rows| - 1], seen.value.outcome)], seen.value.next))
  }

  lemma {:induction false} ResultsLast(rows: seq<Row>, row: Row, answers: seq<Answer>)
    ensures
      ResultsOf(rows + [row], answers) ==
      var before := ResultsOf(rows, answers);
      if before.None? then None
      else
        var seen := Analysis(answers, before.value.next);
        if seen.None? then None
        else Some(Results(before.value.entries + [Entry(row, seen.value.outcome)], seen.value.next))
  {
    assert (rows + [row])[..|rows|] == rows;
  }

  lemma {:induction false} ResultRows(rows: seq<Row>, answers: seq<Answer>)
    requires ResultsOf(rows, answers).Some?
    ensures
      var entries := ResultsOf(rows, answers).value.entries;
      |entries| == |rows| && forall i :: 0 <= i < |rows| ==> entries[i].row == rows[i]
  {
    if rows != [] { ResultRows(rows[..|rows| - 1], answers); }
  }

  /** A busy answer more or less does not matter; any other answer decides by itself. */
  lemma {:induction false} AnalysisDecides(answers: seq<Answer>, from: nat, at: nat)
    requires from <= at < |answers| && forall k :: from <= k < at ==> answers[k] == Busy
    ensures answers[at] == Ok ==> Analysis(answers, from) == Some(Seen(Analyzed, at + 1))
    ensures answers[at] == NotFound ==> Analysis(answers, from) == Some(Seen(Missing, at + 1))
    ensures answers[at] == Broken ==> Analysis(answers, from) == Some(Seen(Failed, at + 1))
    ensures answers[at] == LeaseLost ==> Analysis(answers, from) == None
    decreases at - from
  {
    if from < at { AnalysisDecides(answers, from + 1, at); }
  }

  /** Only busy answers are left, or none. */
  predicate RunsOut(answers: seq<Answer>, from: nat) {
    forall i :: from <= i < |answers| ==> answers[i] == Busy
  }

  /** The next answer that is not busy says that the lease is lost. */
  predicate LeaseEnds(answers: seq<Answer>, from: nat) {
    exists i :: from <= i < |answers| && answers[i] == LeaseLost && forall k :: from <= k < i ==> answers[k] == Busy
  }

  // ---- the worker -------------------------------------------------------------

  /** The tables that run `k` saw, one for each fetch. */
  function Tables(events: seq<Event>, k: nat): seq<seq<Row>> {
    if events == [] then []
    else
      var last := events[|events| - 1];
      Tables(events[..|events| - 1], k) + if last.Fetch? && last.run == k then [last.table] else []
  }

  lemma {:induction false} TablesLast(events: seq<Event>, e: Event, k: nat)
    ensures Tables(events + [e], k) == Tables(events, k) + if e.Fetch? && e.run == k then [e.table] else []
  {
    assert (events + [e])[..|events|] == events;
  }

  /** The run an event belongs to. */
  function RunOf(e: Event): nat {
    match e
    case Claim(k, _, _, _, _) => k
    case Renew(k, _, _) => k
    case Fetch(k, _) => k
    case CountRow(k, _, _, _) => k
    case Complete(k, _) => k
    case Crash(k) => k
  }

  class GalleryJob {
    /** The stored job, and what the runs of all workers hold. */
    var world: System
    ghost const begin: System
    /** Everything that has happened. */
    ghost var history: seq<Event>

    ghost predicate Valid()
      reads this
    {
      SystemOk(world) && IsRun(begin, history) && Final(begin, history) == world
    }

    constructor (job: Job)
      requires JobOk(job)
      ensures Valid() && world == System(job, map[]) && history == [] && begin == world
    {
      world, begin, history := System(job, map[]), System(job, map[]), [];
    }

    /** `e` has happened. */
    twostate predicate Did(e: Event)
      reads this
    {
      && Allowed(old(world), e) && world == Step(old(world), e) && history == old(history) + [e]
    }

    /** Whatever happened came after what had happened before, and run `k` fetched nothing. */
    twostate predicate Later(k: nat)
      reads this
    {
      old(history) <= history && Tables(history, k) == Tables(old(history), k)
    }

    /** And run `k` goes on as it was. */
    twostate predicate Kept(k: nat)
      reads this
    {
      Later(k) && k in world.runs && k in old(world.runs) && world.runs[k] == old(world.runs)[k]
    }

    /** The last thing that happened is a write of run `k` without a lease, which was refused. */
    ghost predicate WasRefused(k: nat)
      reads this
    {
      history != [] &&
      var n := |history| - 1;
      var e := history[n];
      && IsRun(begin, history[..n]) && (e.Renew? || e.CountRow? || e.Complete?) && e.run == k
      && k in Final(begin, history[..n]).runs
      && !HasLease(Final(begin, history[..n]).job, Final(begin, history[..n]).runs[k].owner, e.now)
    }

    /** Keeps the record of what happened. */
    ghost method Note(was: System, e: Event)
      requires SystemOk(was) && IsRun(begin, history) && Final(begin, history) == was
      requires Allowed(was, e) && world == Step(was, e)
      modifies this`history
      ensures Valid() && history == old(history) + [e]
      ensures forall k :: Tables(history, k) ==
                          Tables(old(history), k) + if e.Fetch? && e.run == k then [e.table] else []
    {
      hide SystemOk, Step, Allowed, Tables;
      forall k
        ensures Tables(history + [e], k) == Tables(history, k) + if e.Fetch? && e.run == k then [e.table] else []
      {
        TablesLast(history, e, k);
      }
      RunLast(begin, history, e);
      StepOk(was, e);
      history := history + [e];
    }

    /** Whatever the other runs, other workers and clocks do between two steps of run `k`. */
    method Others(k: nat)
      requires Valid() && k in world.runs
      modifies this
      ensures Valid() && Kept(k)
    {
      hide SystemOk, IsRun, Final, Tables;
      var n: int := *;
      for i := 0 to Max(0, n)
        invariant Valid() && Kept(k)
      {
        var e: Event := *;
        if Allowed(world, e) && RunOf(e) != k {
          OtherRunStays(world, e, k);
          ghost var was := world;
          world := Step(world, e);
          Note(was, e);
        }
      }
    }

    /** `claim_next_gallery_job`, for this job; `slotFree` is the check on the other running jobs. */
    method Claim(k: nat, worker: string, now: int, expires: int, slotFree: bool) returns (claimed: bool)
      requires Valid() && k !in world.runs
      modifies this
      ensures Valid() && Did(Event.Claim(k, worker, now, expires, slotFree))
      ensures claimed <==> slotFree && Claimable(old(world.job), now)
      ensures claimed ==> k in world.runs && world.runs[k] == Run(worker, world.job.tally, [], false)
    {
      hide SystemOk, IsRun, Final, Tables;
      ghost var was := world;
      claimed := slotFree && Claimable(world.job, now);
      if claimed {
        var job := world.job.(status := Running, owner := Some(worker), expires := Some(expires));
        world := System(job, world.runs[k := Run(worker, job.tally, [], false)]);
      }
      Note(was, Event.Claim(k, worker, now, expires, slotFree));
    }

    method Renew(k: nat, now: int, expires: int) returns (ok: bool)
      requires Valid() && k in world.runs
      modifies this
      ensures Valid() && Did(Event.Renew(k, now, expires))
      ensures if ok then Kept(k) else Later(k) && k !in world.runs && WasRefused(k)
    {
      hide SystemOk, IsRun, Final, Tables;
      ghost var was := world;
      ok := Holds(world.job, world.runs[k].owner, now);
      if ok {
        world := world.(job := world.job.(expires := Some(expires)));
      } else {
        world := world.(runs := world.runs - {k});
      }
      Note(was, Event.Renew(k, now, expires));
    }

    /** `_next_ai_analyze_id_batch` against the gallery as it is now. */
    method Fetch(k: nat, table: seq<Row>) returns (rows: seq<Row>, last: bool)
      requires Valid() && k in world.runs && world.runs[k].queue == [] && !world.runs[k].last && Descending(table)
      modifies this
      ensures Valid() && Did(Event.Fetch(k, table)) && k in world.runs
      ensures rows == NextBatch(old(world.runs)[k].t, table).rows
      ensures world.runs[k] == old(world.runs)[k].(queue := rows, last := last)
      ensures Tables(history, k) == Tables(old(history), k) + [table]
    {
      hide SystemOk, IsRun, Final, NextBatch, Descending, Tables;
      ghost var was := world;
      var r := world.runs[k];
      var batch := NextBatch(r.t, table);
      rows, last := batch.rows, batch.rows == [] || batch.exhausted || r.t.payload.IdList?;
      world := world.(runs := world.runs[k := r.(queue := rows, last := last)]);
      Note(was, Event.Fetch(k, table));
    }

    /** `update_gallery_job_progress`: all counters and the checkpoint in one guarded write. */
    method WriteProgress(k: nat, outcome: Outcome, now: int, expires: int, t: Tally) returns (ok: bool)
      requires Valid() && k in world.runs && world.runs[k].queue != []
      requires t == Counted(world.runs[k].t, world.runs[k].queue[0], outcome)
      modifies this
      ensures Valid() && Did(CountRow(k, outcome, now, expires)) && (ok <==> k in world.runs)
      ensures Later(k) && (!ok ==> WasRefused(k))
      ensures ok ==> world.job.tally == t && world.runs[k] == CountedRun(old(world.runs)[k], outcome)
    {
      hide SystemOk, IsRun, Final, Counted, Tables;
      ghost var was := world;
      var r := world.runs[k];
      ok := Holds(world.job, r.owner, now);
      if ok {
        world := System(world.job.(expires := Some(expires), tally := t),
                        world.runs[k := r.(t := t, queue := r.queue[1..])]);
      } else {
        world := world.(runs := world.runs - {k});
      }
      Note(was, CountRow(k, outcome, now, expires));
    }

    method Complete(k: nat, now: int) returns (ok: bool)
      requires Valid() && k in world.runs && world.runs[k].queue == [] && world.runs[k].last
      modifies this
      ensures Valid() && Did(Event.Complete(k, now)) && k !in world.runs
      ensures Later(k) && (!ok ==> WasRefused(k))
      ensures ok ==> world.job == Completed(old(world.job), old(world.runs)[k].t)
    {
      hide SystemOk, IsRun, Final, Completed, Tables;
      ghost var was := world;
      var r := world.runs[k];
      ok := Holds(world.job, r.owner, now);
      world := System(if ok then Completed(world.job, r.t) else world.job, world.runs - {k});
      Note(was, Event.Complete(k, now));
    }

    /** The process ends, or the worker stops without another write. */
    method Stop(k: nat)
      requires Valid() && k in world.runs
      modifies this
      ensures Valid() && Did(Crash(k)) && Later(k) && k !in world.runs
    {
      hide SystemOk, IsRun, Final, Tables;
      ghost var was := world;
      world := world.(runs := world.runs - {k});
      Note(was, Crash(k));
    }

    /** One image, tried again while the service is busy; the answers used up so far are `from`. */
    method AnalyzeOne(k: nat, answers: seq<Answer>, from: nat) returns (outcome: Option<Outcome>, lost: bool, next: nat)
      requires Valid() && k in world.runs && from <= |answers|
      modifies this
      ensures Valid() && Later(k)
      ensures outcome.Some? ==> Kept(k) && Analysis(answers, from) == Some(Seen(outcome.value, next))
      ensures outcome.Some? ==> from < next <= |answers| && match answers[next - 1]
                                                            case Ok => outcome.value == Analyzed
                                                            case NotFound => outcome.value == Missing
                                                            case Broken => outcome.value == Failed
                                                            case _ => false
      ensures outcome.None? ==> k !in world.runs
      ensures outcome.None? ==> if lost then WasRefused(k) || LeaseEnds(answers, from) else RunsOut(answers, from)
    {
      hide SystemOk, IsRun, Final, Step, Tables;
      outcome, lost, next := None, false, from;
      while next < |answers|
        invariant Valid() && Kept(k)
        invariant from <= next <= |answers| && forall i :: from <= i < next ==> answers[i] == Busy
        invariant Analysis(answers, from) == Analysis(answers, next)
        decreases |answers| - next
      {
        Others(k);
        var answer := answers[next];
        next := next + 1;
        match answer
        case Ok => return Some(Analyzed), false, next;
        case NotFound => return Some(Missing), false, next;
        case Broken => return Some(Failed), false, next;
        case LeaseLost =>
          Stop(k);
          return None, true, next;
        case Busy =>
          var now: int, expires: int := *, *;
          var renewed := Renew(k, now, expires);
          if !renewed {
            return None, true, next;
          }
      }
      Stop(k);
    }

    /** The rows of one batch, each counted and stored before the next. `counted` are all rows counted so far. */
    method RunBatch(k: nat, start: Tally, rows: seq<Row>, answers: seq<Answer>, from: nat, ghost counted: seq<Row>)
        returns (t: Tally, used: nat, stop: Option<RunEnd>, ghost more: seq<Row>)
      requires Valid() && k in world.runs && world.runs[k].t == start && world.runs[k].queue == rows
      requires ResultsOf(counted, answers).Some? && ResultsOf(counted, answers).value.next == from
      modifies this
      ensures Valid() && Later(k)
      ensures exists n :: 0 <= n <= |rows| && more == rows[..n] && (stop.None? ==> n == |rows|)
      ensures ResultsOf(counted + more, answers).Some?
      ensures ResultsOf(counted, answers).value.entries <= ResultsOf(counted + more, answers).value.entries
      ensures t.done == start.done
                        + ResultsOf(counted + more, answers).value.entries[|ResultsOf(counted,
                            answers).value.entries|..]
      ensures stop.None? ==>
                && k in world.runs && world.runs[k] == old(world.runs)[k].(t := t, queue := [])
                && used == ResultsOf(counted + more, answers).value.next
      ensures stop.Some? ==> k !in world.runs && stop != Some(Finished)
      ensures stop == Some(Crashed) ==> RunsOut(answers, ResultsOf(counted + more, answers).value.next)
      ensures stop == Some(Lost) ==> WasRefused(k) || LeaseEnds(answers, ResultsOf(counted + more, answers).value.next)
    {
      hide SystemOk, IsRun, Final, Step, Analysis, ResultsOf, Tables, RunsOut, LeaseEnds;
      t, used, stop, more := start, from, None, [];
      ghost var first := ResultsOf(counted, answers).value.entries;
      assert rows[0..] == rows && rows[..0] == [] && counted + [] == counted && first[|first|..] == [];
      assert start.done + [] == start.done;
      for i := 0 to |rows|
        invariant Valid() && Later(k) && k in world.runs
        invariant world.runs[k] == old(world.runs)[k].(t := t, queue := rows[i..]) && more == rows[..i]
        invariant ResultsOf(counted + more, answers).Some?
        invariant used == ResultsOf(counted + more, answers).value.next
        invariant first <= ResultsOf(counted + more, answers).value.entries
        invariant t.done == start.done + ResultsOf(counted + more, answers).value.entries[|first|..]
      {
        assert rows[i..][0] == rows[i] && rows[i..][1..] == rows[i + 1..];
        var outcome, lost;
        outcome, lost, used := AnalyzeOne(k, answers, used);
        if outcome.None? {
          stop := Some(if lost then Lost else Crashed);
          return;
        }
        ghost var entries := ResultsOf(counted + more, answers).value.entries;
        ResultsLast(counted + more, rows[i], answers);
        assert counted + (more + [rows[i]]) == counted + more + [rows[i]];
        assert rows[..i + 1] == rows[..i] + [rows[i]];
        assert (entries + [Entry(rows[i], outcome.value)])[|first|..]
            == entries[|first|..] + [Entry(rows[i], outcome.value)];
        t := Counted(t, rows[i], outcome.value);
        more := more + [rows[i]];
        var now: int, expires: int := *, *;
        var ok := WriteProgress(k, outcome.value, now, expires, t);
        if !ok {
          stop := Some(Lost);
          return;
        }
      }
    }

    /**
     `_run_ai_analyze_job` on a claimed job. `answers` are the analysis results and
     `tables` the filtered gallery at each query; running out of either is a crash.
     Whatever the other runs do, this one is steps of `BatchRuns`; the rows it counted
     have the outcomes its own answers gave, and a finished job has exactly those
     entries and their counts.
     */
    method RunJob(k: nat, answers: seq<Answer>, tables: seq<seq<Row>>)
        returns (end: RunEnd, ghost counted: seq<Row>, ghost t: Tally, ghost fetched: nat)
      requires Valid() && k in world.runs && world.runs[k].queue == [] && !world.runs[k].last
      requires forall i :: 0 <= i < |tables| ==> Descending(tables[i])
      modifies this
      ensures Valid() && old(history) <= history && k !in world.runs
      ensures ResultsOf(counted, answers).Some?
      ensures t.done == old(world.runs)[k].t.done + ResultsOf(counted, answers).value.entries
      ensures fetched <= |tables| && Tables(history, k) == Tables(old(history), k) + tables[..fetched]
      ensures end == Crashed ==> fetched == |tables| || RunsOut(answers, ResultsOf(counted, answers).value.next)
      ensures end == Lost ==> WasRefused(k) || LeaseEnds(answers, ResultsOf(counted, answers).value.next)
      ensures end == Finished ==>
                && world.job.tally.done == t.done && !IsOpen(world.job) && world.job.owner == None &&
                      FinishedOk(world.job)
                && world.job.tally.analyzed == Count(t.done, Analyzed)
                && world.job.tally.failed == Count(t.done, Failed)
    {
      hide SystemOk, IsRun, Final, Step, Analysis, ResultsOf, NextBatch, Descending, TallyOk, JobOk, Tables,
           RunsOut, LeaseEnds;
      ghost var start := world.runs[k].t;
      counted, t, fetched := [], start, 0;
      assert tables[..0] == [] && Tables(history, k) + [] == Tables(history, k);
      NoResults(answers);
      assert start.done + [] == start.done;
      var begun := Begin(k);
      if !begun {
        return Lost, counted, t, fetched;
      }
      var used, queries, last := 0, 0, false;
      while !last
        invariant Valid() && old(history) <= history && k in world.runs
        invariant world.runs[k] == old(world.runs)[k].(t := t, queue := [], last := last)
        invariant used <= |answers| && fetched == queries <= |tables|
        invariant Tables(history, k) == Tables(old(history), k) + tables[..fetched]
        invariant ResultsOf(counted, answers).Some? && ResultsOf(counted, answers).value.next == used
        invariant t.done == start.done + ResultsOf(counted, answers).value.entries
        decreases |tables| - queries, !last
      {
        Others(k);
        if queries == |tables| {
          Stop(k);
          return Crashed, counted, t, fetched;
        }
        var rows;
        rows, last := Fetch(k, tables[queries]);
        assert tables[..queries + 1] == tables[..queries] + [tables[queries]];
        queries, fetched := queries + 1, fetched + 1;
        var stop: Option<RunEnd>, after: Tally;
        ghost var more, before := [], ResultsOf(counted, answers).value.entries;
        var now := world.runs[k].t;
        after, used, stop, more := RunBatch(k, now, rows, answers, used, counted);
        counted, t := counted + more, after;
        assert before + ResultsOf(counted, answers).value.entries[|before|..] ==
            ResultsOf(counted, answers).value.entries;
        if stop.Some? {
          return stop.value, counted, t, fetched;
        }
      }
      Others(k);
      assert TallyOk(t) && SameBatch(t, world.job.tally) && Exhausted(t) by { LastIsExhausted(world, k); }
      CompletedCounts(world.job, t);
      CompletedOk(world.job, t);
      var time: int := *;
      var ok := Complete(k, time);
      end := if ok then Finished else Lost;
    }

    /** The first write of a run: the job is running, and its lease goes on. */
    method Begin(k: nat) returns (ok: bool)
      requires Valid() && k in world.runs
      modifies this
      ensures Valid() && Later(k)
      ensures if ok then Kept(k) else k !in world.runs && WasRefused(k)
    {
      hide SystemOk, IsRun, Final, Step, Tables;
      var now: int, expires: int := *, *;
      Others(k);
      ok := Renew(k, now, expires);
    }
  }

  lemma {:induction false} OtherRunStays(s: System, e: Event, k: nat)
    requires Allowed(s, e) && RunOf(e) != k && k in s.runs
    ensures k in Step(s, e).runs && Step(s, e).runs[k] == s.runs[k]
  {
    hide Counted, NextBatch, Completed;
  }

  lemma {:induction false} NoResults(answers: seq<Answer>)
    ensures ResultsOf([], answers) == Some(Results([], 0))
  {}

  lemma {:induction false} LastIsExhausted(s: System, k: nat)
    requires SystemOk(s) && k in s.runs && s.runs[k].last && s.runs[k].queue == []
    ensures TallyOk(s.runs[k].t) && SameBatch(s.runs[k].t, s.job.tally) && Exhausted(s.runs[k].t)
  {
    assert RunOk(s.job, s.runs[k]);
    hide RowsOk, Count;
  }

  lemma {:induction false} CompletedCounts(j: Job, t: Tally)
    requires TallyOk(t)
    ensures
      var after := Completed(j, t);
      && after.tally.done == t.done && !IsOpen(after) && after.owner == None
      && after.tally.analyzed == Count(t.done, Analyzed) && after.tally.failed == Count(t.done, Failed)
  {
    hide RowsOk, Count;
  }
}
