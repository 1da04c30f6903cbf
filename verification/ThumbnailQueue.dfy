/**
 Queueing thumbnails, one by one and as a batch - backend/app/repositories/thumbnail_jobs.py.
 Timestamps are integers, and whether a name is a file of the image directory is a parameter.
 */
module ThumbnailQueue {
  import opened Common
  import opened Text

  datatype Status = Queued | Running | Success | Failed

  datatype Row = Row(
    status: Status, attempts: nat, owner: Option<string>, expires: Option<int>,
    created: int, updated: int, error: Option<string>)

  type Table = map<string, Row>

  /** The row does not ask for a worker: done, or being worked on. */
  predicate Busy(row: Row, now: int) {
    row.status == Success || (row.status == Running && row.expires.Some? && row.expires.value > now)
  }

  /** The skip rule of an unforced enqueue. */
  predicate Skips(rows: Table, name: string, now: int) { name in rows && Busy(rows[name], now) }

  /** INSERT ... ON CONFLICT DO UPDATE: a known row keeps its attempts and its creation time. */
  function Upserted(rows: Table, name: string, now: int): Row {
    if name in rows then rows[name].(status := Queued, owner := None, expires := None, updated := now, error := None)
    else Row(Queued, 0, None, None, now, now, None)
  }

  /** What both forms need of their surroundings. */
  datatype Files = Files(isSpace: char -> bool, isFile: string -> bool) {
    /** The stripped name, when it names a file. */
    function Candidate(filename: string): Option<string> {
      var name := Strip(isSpace, filename);
      if name != "" && isFile(name) then Some(name) else None
    }
  }

  /** `_enqueue_thumbnail_job_on_conn`. */
  function EnqueuedOne(files: Files, rows: Table, filename: string, now: int, force: bool): Table {
    var name := files.Candidate(filename);
    if name.None? || (!force && Skips(rows, name.value, now)) then rows
    else rows[name.value := Upserted(rows, name.value, now)]
  }

  /** The unforced form applied to each name in turn, at one time. */
  function EnqueuedEach(files: Files, rows: Table, filenames: seq<string>, now: int): Table {
    if filenames == [] then rows
    else
      EnqueuedOne(files, EnqueuedEach(files, rows, filenames[..|filenames| - 1], now),
                  filenames[|filenames| - 1], now, false)
  }

  /** The distinct candidates, in order of first appearance. */
  function Candidates(files: Files, filenames: seq<string>): seq<string> {
    if filenames == [] then []
    else
      var before := Candidates(files, filenames[..|filenames| - 1]);
      var name := files.Candidate(filenames[|filenames| - 1]);
      if name.None? || name.value in before then before else before + [name.value]
  }

  /** Every name of `names` upserted unless the table it was read from says to skip it. */
  function UpsertedAll(rows: Table, names: seq<string>, now: int): Table {
    map k | k in rows.Keys + Elements(names) ::
      if k in names && !Skips(rows, k, now) then Upserted(rows, k, now)
      else if k in rows then rows[k]
      else Upserted(rows, k, now)
  }

  lemma {:induction false} UpsertedNone(rows: Table, now: int)
    ensures UpsertedAll(rows, [], now) == rows
  {
    assert Elements<string>([]) == {};
  }

  /** One more name, whether it is new, skipped or a repetition. */
  lemma {:induction false} UpsertedOneMore(files: Files, rows: Table, names: seq<string>, filename: string, now: int)
    ensures
      var name := files.Candidate(filename);
      var more := if name.None? || name.value in names then names else names + [name.value];
      EnqueuedOne(files, UpsertedAll(rows, names, now), filename, now, false) == UpsertedAll(rows, more, now)
  {
    hide Strip, UpsertedAll, Upserted, Skips;
    var c := files.Candidate(filename);
    if c.Some? {
      UpsertedName(rows, names, c.value, now);
    }
  }

  lemma {:induction false} UpsertedName(rows: Table, names: seq<string>, name: string, now: int)
    ensures
      var before := UpsertedAll(rows, names, now);
      var more := if name in names then names else names + [name];
      UpsertedAll(rows, more, now) ==
      if Skips(before, name, now) then before else before[name := Upserted(before, name, now)]
  {
    var more := if name in names then names else names + [name];
    assert forall k :: k in more <==> k in names || k == name;
    var before, after := UpsertedAll(rows, names, now), UpsertedAll(rows, more, now);
    assert after.Keys == before.Keys + {name};
    assert Skips(before, name, now) <==> Skips(rows, name, now);
    forall k | k in after && k != name
      ensures k in before && before[k] == after[k]
    {}
  }

  /** Queueing row by row upserts each distinct candidate at most once, by the table as it was found. */
  lemma {:induction false} EachIsUpserted(files: Files, rows: Table, filenames: seq<string>, now: int)
    ensures EnqueuedEach(files, rows, filenames, now) == UpsertedAll(rows, Candidates(files, filenames), now)
  {
    if filenames == [] {
      UpsertedNone(rows, now);
    } else {
      var init, last := filenames[..|filenames| - 1], filenames[|filenames| - 1];
      EachIsUpserted(files, rows, init, now);
      hide EnqueuedOne, UpsertedAll;
      UpsertedOneMore(files, rows, Candidates(files, init), last, now);
    }
  }

  /** The candidates are the stripped names that are names of files. */
  lemma {:induction false} CandidatesExact(files: Files, filenames: seq<string>, name: string)
    ensures name in Candidates(files, filenames) <==>
            && name != "" && files.isFile(name)
            && exists i :: 0 <= i < |filenames| && Strip(files.isSpace, filenames[i]) == name
  {
    if filenames != [] {
      var init, last := filenames[..|filenames| - 1], filenames[|filenames| - 1];
      CandidatesExact(files, init, name);
      hide Strip;
      assert filenames == init + [last];
      assert filenames[|filenames| - 1] == last;
      assert forall i :: 0 <= i < |init| ==> init[i] == filenames[i];
    }
  }

  /** Later names come behind the earlier ones. */
  lemma {:induction false} CandidatesInOrder(files: Files, a: seq<string>, b: seq<string>)
    ensures Candidates(files, a) <= Candidates(files, a + b)
  {
    hide Strip;
    if b == [] {
      assert a + b == a;
    } else {
      assert (a + b)[..|a + b| - 1] == a + b[..|b| - 1];
      CandidatesInOrder(files, a, b[..|b| - 1]);
    }
  }

  lemma {:induction false} CandidatesDistinct(files: Files, filenames: seq<string>)
    ensures forall i, j :: 0 <= i < j < |Candidates(files, filenames)| ==>
              Candidates(files, filenames)[i] != Candidates(files, filenames)[j]
  {
    if filenames != [] {
      CandidatesDistinct(files, filenames[..|filenames| - 1]);
    }
  }

  /** The rows read for some names. */
  function ReadRows(rows: Table, names: seq<string>): Table {
    map k | k in rows && k in names :: rows[k]
  }

  class ThumbnailJobs {
    const files: Files
    var rows: Table

    constructor (files: Files, rows: Table)
      ensures this.files == files && this.rows == rows
    {
      this.files, this.rows := files, rows;
    }

    method EnqueueOne(filename: string, now: int, force: bool) returns (queued: bool)
      modifies this`rows
      ensures rows == EnqueuedOne(files, old(rows), filename, now, force)
      ensures queued <==>
              files.Candidate(filename).Some? && (force || !Skips(old(rows), files.Candidate(filename).value, now))
    {
      hide Strip;
      var c := files.Candidate(filename);
      if c.None? {
        return false;
      }
      if !force && c.value in rows {
        if rows[c.value].status == Success {
          return false;
        }
        if rows[c.value].status == Running && rows[c.value].expires.Some? && rows[c.value].expires.value > now {
          return false;
        }
      }
      rows := rows[c.value := Upserted(rows, c.value, now)];
      queued := true;
    }

    /** The batch form leaves the table that queueing row by row leaves. */
    method EnqueueBatch(filenames: seq<string>, now: int, chunkSize: nat)
      requires chunkSize > 0
      modifies this`rows
      ensures rows == EnqueuedEach(files, old(rows), filenames, now)
    {
      hide UpsertedAll, EnqueuedEach, Candidates;
      EachIsUpserted(files, rows, filenames, now);
      var candidates := Collect(filenames);
      if candidates == [] {
        UpsertedNone(rows, now);
        return;
      }
      var existing := ReadChunks(candidates, chunkSize);
      var pending := Pending(candidates, existing, now);
      CandidatesDistinct(files, filenames);
      UpsertPending(candidates, pending, now);
    }

    method Collect(filenames: seq<string>) returns (candidates: seq<string>)
      ensures candidates == Candidates(files, filenames)
    {
      candidates := [];
      var seen: set<string> := {};
      assert filenames[..|filenames|] == filenames;
      for i := 0 to |filenames|
        invariant candidates == Candidates(files, filenames[..i])
        invariant forall name :: name in seen <==> name in candidates
      {
        assert filenames[..i + 1][..i] == filenames[..i];
        var c := files.Candidate(filenames[i]);
        if c.Some? && c.value !in seen {
          seen := seen + {c.value};
          candidates := candidates + [c.value];
        }
      }
    }

    /** The rows of the candidates, read in chunks. */
    method ReadChunks(candidates: seq<string>, chunkSize: nat) returns (existing: Table)
      requires chunkSize > 0
      ensures existing == ReadRows(rows, candidates)
    {
      existing := map[];
      var start := 0;
      while start < |candidates|
        invariant 0 <= start <= |candidates|
        invariant existing == ReadRows(rows, candidates[..start])
      {
        var end := Min(start + chunkSize, |candidates|);
        var chunk := candidates[start..end];
        assert candidates[..end] == candidates[..start] + chunk;
        existing := existing + ReadRows(rows, chunk);
        start := end;
      }
      assert candidates[..start] == candidates;
    }

    /** The candidates that are not skipped, judged by the rows read before. */
    method Pending(candidates: seq<string>, existing: Table, now: int) returns (pending: seq<string>)
      requires existing == ReadRows(rows, candidates)
      ensures pending == Kept(rows, candidates, now)
    {
      pending := [];
      assert candidates[..|candidates|] == candidates;
      for i := 0 to |candidates|
        invariant pending == Kept(rows, candidates[..i], now)
      {
        assert candidates[..i + 1][..i] == candidates[..i];
        var name := candidates[i];
        assert name in existing <==> name in rows;
        if name in existing {
          if existing[name].status == Success {
            continue;
          }
          if existing[name].status == Running && existing[name].expires.Some? && existing[name].expires.value > now {
            continue;
          }
        }
        pending := pending + [name];
      }
    }

    method UpsertPending(ghost candidates: seq<string>, pending: seq<string>, now: int)
      requires forall i, j :: 0 <= i < j < |candidates| ==> candidates[i] != candidates[j]
      requires pending == Kept(rows, candidates, now)
      modifies this`rows
      ensures rows == UpsertedAll(old(rows), candidates, now)
    {
      hide UpsertedAll, Kept;
      ghost var before := rows;
      KeptDistinct(rows, candidates, now);
      Written0(before, pending, now);
      for i := 0 to |pending|
        invariant rows == Written(before, pending, i, now)
      {
        WrittenNext(before, pending, i, now);
        rows := rows[pending[i] := Upserted(rows, pending[i], now)];
      }
      WrittenAll(before, candidates, pending, now);
    }
  }

  /** The names that are not skipped. */
  function Kept(rows: Table, names: seq<string>, now: int): seq<string> {
    if names == [] then []
    else
      Kept(rows, names[..|names| - 1], now) +
      if Skips(rows, names[|names| - 1], now) then [] else [names[|names| - 1]]
  }

  ghost predicate AreDistinct(names: seq<string>) {
    forall i, j :: 0 <= i < j < |names| ==> names[i] != names[j]
  }

  lemma {:induction false} KeptDistinct(rows: Table, names: seq<string>, now: int)
    requires AreDistinct(names)
    ensures AreDistinct(Kept(rows, names, now))
    ensures forall k :: k in Kept(rows, names, now) <==> k in names && !Skips(rows, k, now)
  {
    if names != [] {
      var init, last := names[..|names| - 1], names[|names| - 1];
      KeptDistinct(rows, init, now);
      hide Skips;
      assert names == init + [last];
      assert last !in init;
    }
  }

  /** The table after the first `n` writes. */
  ghost function Written(rows: Table, names: seq<string>, n: nat, now: int): Table
    requires n <= |names|
  {
    map k | k in rows.Keys + Elements(names[..n]) :: if k in names[..n] then Upserted(rows, k, now) else rows[k]
  }

  lemma {:induction false} Written0(rows: Table, names: seq<string>, now: int)
    ensures Written(rows, names, 0, now) == rows
  {
    assert names[..0] == [] && Elements<string>([]) == {};
  }

  lemma {:induction false} WrittenNext(rows: Table, names: seq<string>, n: nat, now: int)
    requires n < |names| && AreDistinct(names)
    ensures
      var before := Written(rows, names, n, now);
      before[names[n] := Upserted(before, names[n], now)] == Written(rows, names, n + 1, now)
  {
    assert names[..n + 1] == names[..n] + [names[n]];
    assert names[n] !in names[..n];
    var before := Written(rows, names, n, now);
    assert Upserted(before, names[n], now) == Upserted(rows, names[n], now);
  }

  lemma {:induction false} WrittenAll(rows: Table, candidates: seq<string>, pending: seq<string>, now: int)
    requires forall k :: k in pending <==> k in candidates && !Skips(rows, k, now)
    ensures Written(rows, pending, |pending|, now) == UpsertedAll(rows, candidates, now)
  {
    assert pending[..|pending|] == pending;
    var a, b := Written(rows, pending, |pending|, now), UpsertedAll(rows, candidates, now);
    assert a.Keys == b.Keys;
  }

  /**
   What queueing leaves behind: every candidate is done, under a live lease, or
   queued without owner, lease and error; known rows keep attempts and creation
   time; rows that were done, live or not named are untouched.
   */
  lemma {:induction false} QueueingOutcome(files: Files, rows: Table, filenames: seq<string>, now: int, name: string)
    ensures
      var after := EnqueuedEach(files, rows, filenames, now);
      var named := name in Candidates(files, filenames);
      var busy := name in rows && (rows[name].status == Success ||
                                   (rows[name].status == Running && rows[name].expires.Some? &&
                                       now < rows[name].expires.value));
      && (name in after <==> name in rows || named)
      && (name in rows ==> after[name].attempts == rows[name].attempts && after[name].created == rows[name].created)
      && (name in rows && (!named || busy) ==> after[name] == rows[name])
      && (named && !busy ==>
            after[name].status == Queued && after[name].owner.None? && after[name].expires.None?
            && after[name].error.None? && after[name].updated == now)
      && (named && name !in rows ==> after[name].attempts == 0 && after[name].created == now)
  {
    EachIsUpserted(files, rows, filenames, now);
    hide Candidates, EnqueuedEach;
  }
}
