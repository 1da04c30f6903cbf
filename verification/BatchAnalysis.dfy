/**
 Crash-resumable batch analysis: `_run_ai_analyze_job` and what it stores -
 backend/app/services/assistant_batch.py, with the lease-guarded writes of
 backend/app/repositories/coordination/gallery_jobs.py.

 `done` lists the counted rows with their outcomes. It is a history variable: the
 source stores the four counters and the checkpoint only.
 */
module BatchAnalysis {
  import opened Common
  import opened Text

  const BATCH_SIZE := 25

  datatype Row = Row(sortSeq: int, id: string)

  datatype Outcome = Analyzed | Missing | Failed

  datatype Entry = Entry(row: Row, outcome: Outcome)

  datatype Payload =
    | IdList(ids: seq<string>)
    | Selection(checkpoint: Option<Row>, boundary: Option<Row>)

  /** The counters of a job, in its record and in the worker's hands. */
  datatype Tally = Tally(
    payload: Payload, requested: nat,
    processed: nat, analyzed: nat, missing: nat, failed: nat,
    done: seq<Entry>)

  datatype Status = Queued | Running | Success | Error

  datatype Job = Job(status: Status, owner: Option<string>, expires: Option<int>, tally: Tally)

  // ---- rows -------------------------------------------------------------------

  /** ORDER BY sort_seq DESC, id DESC. */
  predicate Before(a: Row, b: Row) {
    a.sortSeq > b.sortSeq || (a.sortSeq == b.sortSeq && Less(b.id, a.id))
  }

  lemma {:induction false} BeforeTransitive(a: Row, b: Row, c: Row)
    requires Before(a, b) && Before(b, c)
    ensures Before(a, c)
  {
    if a.sortSeq == b.sortSeq == c.sortSeq { LessTransitive(c.id, b.id, a.id); }
  }

  lemma {:induction false} BeforeIrreflexive(a: Row)
    ensures !Before(a, a)
  {
    LessTotal(a.id, a.id);
  }

  /** The table's order; `(sort_seq, id)` is unique. */
  predicate Descending(rows: seq<Row>) {
    forall i :: 0 < i < |rows| ==> Before(rows[i - 1], rows[i])
  }

  predicate After(row: Row, checkpoint: Option<Row>) {
    checkpoint.Some? ==> Before(checkpoint.value, row)
  }

  /** At or below the snapshot boundary. */
  predicate Within(row: Row, boundary: Option<Row>) {
    boundary.Some? ==> row == boundary.value || Before(boundary.value, row)
  }

  /** `get_gallery_id_batch`: the next rows after the checkpoint, within the boundary. */
  function Page(table: seq<Row>, checkpoint: Option<Row>, boundary: Option<Row>, limit: nat): seq<Row> {
    if table == [] || limit == 0 then []
    else if After(table[0], checkpoint) && Within(table[0], boundary) then
      [table[0]] + Page(table[1..], checkpoint, boundary, limit - 1)
    else Page(table[1..], checkpoint, boundary, limit)
  }

  lemma {:induction false} DescendingTail(rows: seq<Row>)
    requires Descending(rows) && rows != []
    ensures Descending(rows[1..])
  {
    assert forall i :: 0 < i < |rows[1..]| ==> rows[1..][i - 1] == rows[i] && rows[1..][i] == rows[i + 1];
  }

  predicate AllAfter(first: Row, rows: seq<Row>) {
    forall i :: 0 <= i < |rows| ==> Before(first, rows[i])
  }

  lemma {:induction false} HeadIsFirst(rows: seq<Row>)
    requires Descending(rows) && rows != []
    ensures AllAfter(rows[0], rows[1..])
  {
    if |rows| > 1 {
      DescendingTail(rows);
      HeadIsFirst(rows[1..]);
      forall i | 0 <= i < |rows[1..]|
        ensures Before(rows[0], rows[1..][i])
      {
        if i > 0 {
          assert rows[1..][1..][i - 1] == rows[1..][i];
          BeforeTransitive(rows[0], rows[1], rows[1..][i]);
        }
      }
    }
  }

  lemma {:induction false} PageRows(table: seq<Row>, checkpoint: Option<Row>, boundary: Option<Row>, limit: nat)
    ensures
      var page := Page(table, checkpoint, boundary, limit);
      && |page| <= limit
      && forall i :: 0 <= i < |page| ==>
           After(page[i], checkpoint) && Within(page[i], boundary) && page[i] in table
  {
    hide After, Within;
    if table != [] && limit > 0 {
      var taken := After(table[0], checkpoint) && Within(table[0], boundary);
      PageRows(table[1..], checkpoint, boundary, if taken then limit - 1 else limit);
      assert table == [table[0]] + table[1..];
    }
  }

  /** Newest first: a higher sequence number, or the same one and a greater identifier. */
  predicate Newer(a: Row, b: Row) { if a.sortSeq != b.sortSeq then a.sortSeq > b.sortSeq else Less(b.id, a.id) }

  /** A page is in order, newest first, and holds rows older than the checkpoint and not newer than the boundary. */
  lemma {:induction false} PageIsNext(table: seq<Row>, checkpoint: Option<Row>, boundary: Option<Row>, limit: nat)
    requires Descending(table)
    ensures Descending(Page(table, checkpoint, boundary, limit))
    ensures
      var page := Page(table, checkpoint, boundary, limit);
      && (forall i :: 0 < i < |page| ==> Newer(page[i - 1], page[i]))
      && (forall i :: 0 <= i < |page| ==>
            && (checkpoint.Some? ==> Newer(checkpoint.value, page[i]))
            && (boundary.Some? ==> page[i] == boundary.value || Newer(boundary.value, page[i])))
  {
    PageInOrder(table, checkpoint, boundary, limit);
    PageRows(table, checkpoint, boundary, limit);
    hide Page;
  }

  /** And it leaves none out: the rows of an unlimited page are all rows between checkpoint and boundary. */
  lemma {:induction false} PageIsComplete(table: seq<Row>, checkpoint: Option<Row>, boundary: Option<Row>, row: Row)
    ensures row in Page(table, checkpoint, boundary, |table|) <==>
            && row in table && (checkpoint.Some? ==> Newer(checkpoint.value, row))
            && (boundary.Some? ==> row == boundary.value || Newer(boundary.value, row))
  {
    if table != [] {
      var head, tail := table[0], table[1..];
      assert table == [head] + tail;
      PageIsComplete(tail, checkpoint, boundary, row);
      EnoughRows(tail, checkpoint, boundary, |tail|, |table|);
    }
  }

  /** A limit that is large enough does not matter. */
  lemma {:induction false} EnoughRows(table: seq<Row>, checkpoint: Option<Row>, boundary: Option<Row>, a: nat, b: nat)
    requires |table| <= a <= b
    ensures Page(table, checkpoint, boundary, a) == Page(table, checkpoint, boundary, b)
  {
    hide After, Within;
    if table != [] {
      EnoughRows(table[1..], checkpoint, boundary, a - 1, b - 1);
      EnoughRows(table[1..], checkpoint, boundary, a, b);
    }
  }

  lemma {:induction false} PageInOrder(table: seq<Row>, checkpoint: Option<Row>, boundary: Option<Row>, limit: nat)
    requires Descending(table)
    ensures Descending(Page(table, checkpoint, boundary, limit))
  {
    hide After, Within, Before;
    if table != [] && limit > 0 {
      DescendingTail(table);
      HeadIsFirst(table);
      var taken := After(table[0], checkpoint) && Within(table[0], boundary);
      PageInOrder(table[1..], checkpoint, boundary, if taken then limit - 1 else limit);
      if taken {
        PageRows(table[1..], checkpoint, boundary, limit - 1);
        DescendingCons(table[0], Page(table[1..], checkpoint, boundary, limit - 1), table[1..]);
      }
    }
  }

  lemma {:induction false} DescendingCons(first: Row, rows: seq<Row>, table: seq<Row>)
    requires Descending(rows) && AllAfter(first, table)
    requires forall i :: 0 <= i < |rows| ==> rows[i] in table
    ensures Descending([first] + rows)
  {
    hide Before;
    if rows != [] {
      var k :| 0 <= k < |table| && table[k] == rows[0];
      assert Before(first, table[k]);
      forall i | 0 < i < 1 + |rows|
        ensures Before(([first] + rows)[i - 1], ([first] + rows)[i])
      {
        if i > 1 { assert Before(rows[i - 2], rows[i - 1]); }
      }
    }
  }

  lemma {:induction false} BeforeAsymmetric(a: Row, b: Row)
    requires Before(a, b)
    ensures !Before(b, a)
  {
    LessTotal(a.id, b.id);
  }

  /** All rows within the boundary, in table order. */
  function Matching(table: seq<Row>, boundary: Option<Row>): seq<Row> {
    Page(table, None, boundary, |table|)
  }

  /** Up to `n` rows from position `i` on. */
  function Window(rows: seq<Row>, i: nat, n: nat): seq<Row>
    requires i <= |rows|
  {
    rows[i..Min(|rows|, i + n)]
  }

  lemma {:induction false} FirstPage(table: seq<Row>, boundary: Option<Row>, limit: nat, more: nat)
    requires limit <= more
    ensures Page(table, None, boundary, limit) ==
            Page(table, None, boundary, more)[..Min(|Page(table, None, boundary, more)|, limit)]
  {
    hide Within;
    if table != [] && limit > 0 {
      if Within(table[0], boundary) {
        FirstPage(table[1..], boundary, limit - 1, more - 1);
      } else {
        FirstPage(table[1..], boundary, limit, more);
      }
    }
  }

  /** Rows that all come after the checkpoint are paged as without one. */
  lemma {:induction false} CheckpointBefore(table: seq<Row>, c: Row, boundary: Option<Row>, limit: nat)
    requires AllAfter(c, table)
    ensures Page(table, Some(c), boundary, limit) == Page(table, None, boundary, limit)
  {
    hide Within, Before;
    if table != [] && limit > 0 {
      assert Before(c, table[0]);
      assert AllAfter(c, table[1..]) by {
        assert forall i :: 0 <= i < |table[1..]| ==> table[1..][i] == table[i + 1];
      }
      CheckpointBefore(table[1..], c, boundary, if Within(table[0], boundary) then limit - 1 else limit);
    }
  }

  lemma {:induction false} MatchingTail(table: seq<Row>, boundary: Option<Row>)
    requires table != []
    ensures Matching(table, boundary) ==
            (if Within(table[0], boundary) then [table[0]] else []) + Matching(table[1..], boundary)
  {
    hide Within;
    FirstPage(table[1..], boundary, |table| - 1, |table|);
    PageRows(table[1..], None, boundary, |table| - 1);
    PageSize(table[1..], None, boundary, |table|);
  }

  lemma {:induction false} PageSize(table: seq<Row>, checkpoint: Option<Row>, boundary: Option<Row>, limit: nat)
    ensures |Page(table, checkpoint, boundary, limit)| <= |table|
  {
    hide Within, After;
    if table != [] && limit > 0 {
      PageSize(table[1..], checkpoint, boundary, limit - 1);
      PageSize(table[1..], checkpoint, boundary, limit);
    }
  }

  lemma {:induction false} WindowShift(head: Row, tail: seq<Row>, i: nat, n: nat)
    requires 0 < i <= |tail| + 1
    ensures Window([head] + tail, i, n) == Window(tail, i - 1, n)
    ensures i >= 2 ==> ([head] + tail)[i - 1] == tail[i - 2]
  {}

  lemma {:induction false} MatchingNeedsRows(table: seq<Row>, boundary: Option<Row>)
    requires Matching(table, boundary) != []
    ensures table != []
  {}

  /** The page after the first row of the table, when that row matches. */
  lemma {:induction false} PageAfterFirst(table: seq<Row>, boundary: Option<Row>, limit: nat)
    requires Descending(table) && table != [] && Within(table[0], boundary)
    ensures Page(table, Some(table[0]), boundary, limit) == Window(Matching(table, boundary), 1, limit)
  {
    var c, tail := table[0], Matching(table[1..], boundary);
    MatchingTail(table, boundary);
    HeadIsFirst(table);
    PageHead(table, Some(c), boundary, limit);
    hide Within, Before, Page, Matching;
    BeforeIrreflexive(c);
    CheckpointBefore(table[1..], c, boundary, limit);
    FirstRows(table[1..], boundary, limit);
    WindowShift(c, tail, 1, limit);
    if limit == 0 { WindowNone(Matching(table, boundary), 1); }
  }

  lemma {:induction false} WindowNone(rows: seq<Row>, i: nat)
    requires i <= |rows|
    ensures Window(rows, i, 0) == []
  {}

  /** After the first `i` matching rows the page holds exactly the next ones: nothing is skipped or read twice. */
  lemma {:induction false} PageContinues(table: seq<Row>, boundary: Option<Row>, i: nat, limit: nat)
    requires Descending(table) && 0 < i <= |Matching(table, boundary)|
    ensures Page(table, Some(Matching(table, boundary)[i - 1]), boundary, limit) ==
            Window(Matching(table, boundary), i, limit)
  {
    MatchingNeedsRows(table, boundary);
    hide Within, Before, Page, Matching, Window;
    var all := Matching(table, boundary);
    var c := all[i - 1];
    var tail := Matching(table[1..], boundary);
    MatchingTail(table, boundary);
    DescendingTail(table);
    PageHead(table, Some(c), boundary, limit);
    WindowNone(all, i);
    if limit > 0 {
      if Within(table[0], boundary) && i == 1 {
        PageAfterFirst(table, boundary, limit);
      } else if Within(table[0], boundary) {
        WindowShift(table[0], tail, i, limit);
        MatchingComesAfter(table, boundary, i - 2);
        BeforeAsymmetric(table[0], c);
        PageContinues(table[1..], boundary, i - 1, limit);
      } else {
        assert all == tail;
        PageContinues(table[1..], boundary, i, limit);
      }
    }
  }

  lemma {:induction false} PageHead(table: seq<Row>, checkpoint: Option<Row>, boundary: Option<Row>, limit: nat)
    requires table != []
    ensures limit == 0 ==> Page(table, checkpoint, boundary, limit) == []
    ensures limit > 0 && !After(table[0], checkpoint) ==>
              Page(table, checkpoint, boundary, limit) == Page(table[1..], checkpoint, boundary, limit)
    ensures limit > 0 && !Within(table[0], boundary) ==>
              Page(table, checkpoint, boundary, limit) == Page(table[1..], checkpoint, boundary, limit)
  {}

  lemma {:induction false} FirstRows(table: seq<Row>, boundary: Option<Row>, limit: nat)
    ensures Page(table, None, boundary, limit) == Window(Matching(table, boundary), 0, limit)
  {
    if limit <= |table| {
      FirstPage(table, boundary, limit, |table|);
    } else {
      FirstPage(table, boundary, |table|, limit);
      PageSize(table, None, boundary, limit);
    }
    hide Page;
  }

  lemma {:induction false} MatchingComesAfter(table: seq<Row>, boundary: Option<Row>, j: nat)
    requires Descending(table) && table != [] && j < |Matching(table[1..], boundary)|
    ensures Before(table[0], Matching(table[1..], boundary)[j])
  {
    HeadIsFirst(table);
    PageRows(table[1..], None, boundary, |table| - 1);
    hide Before, Page;
    var row := Matching(table[1..], boundary)[j];
    var k :| 0 <= k < |table[1..]| && table[1..][k] == row;
  }

  // ---- counters ---------------------------------------------------------------

  function Count(done: seq<Entry>, outcome: Outcome): nat {
    if done == [] then 0
    else Count(done[..|done| - 1], outcome) + if done[|done| - 1].outcome == outcome then 1 else 0
  }

  lemma {:induction false} CountLast(done: seq<Entry>, e: Entry, outcome: Outcome)
    ensures Count(done + [e], outcome) == Count(done, outcome) + if e.outcome == outcome then 1 else 0
  {
    assert (done + [e])[..|done|] == done;
  }

  lemma {:induction false} CountsAddUp(done: seq<Entry>)
    ensures Count(done, Analyzed) + Count(done, Missing) + Count(done, Failed) == |done|
  {
    if done != [] { CountsAddUp(done[..|done| - 1]); }
  }

  /** Requested entries that were not there when the job was created. */
  function Unfound(t: Tally): int {
    if t.payload.IdList? then t.requested - |t.payload.ids| else 0
  }

  /** How many rows the job may process. */
  function Quota(t: Tally): nat {
    if t.payload.IdList? then |t.payload.ids| else t.requested
  }

  /** The counted rows are the first ones of the list, or a descending run that ends at the checkpoint. */
  predicate RowsOk(t: Tally) {
    match t.payload
    case IdList(ids) =>
      0 < |ids| <= t.requested && |t.done| <= |ids| && forall k :: 0 <= k < |t.done| ==> t.done[k].row.id == ids[k]
    case Selection(checkpoint, boundary) =>
      && (forall k :: 0 < k < |t.done| ==> Before(t.done[k - 1].row, t.done[k].row))
      && (forall k :: 0 <= k < |t.done| ==> Within(t.done[k].row, boundary))
      && checkpoint == if t.done == [] then None else Some(t.done[|t.done| - 1].row)
  }

  /** The counters count `done`, and stay within what was requested. */
  predicate TallyOk(t: Tally) {
    && 0 < t.requested && RowsOk(t) && t.processed <= Quota(t)
    && t.processed == |t.done|
    && t.analyzed == Count(t.done, Analyzed) && t.failed == Count(t.done, Failed)
    && t.missing == Unfound(t) + Count(t.done, Missing)
  }

  /** A finished tally: the rows a shrunken selection no longer had are missing. */
  function Closed(t: Tally): Tally {
    if t.payload.IdList? || t.requested <= t.processed then t
    else t.(missing := t.missing + (t.requested - t.processed))
  }

  /** The stored record: consistent counters while open, a closed tally with the right verdict when finished. */
  predicate JobOk(j: Job) {
    if j.status == Queued || j.status == Running then TallyOk(j.tally)
    else FinishedOk(j)
  }

  predicate FinishedOk(j: Job) {
    && j.tally.processed <= j.tally.requested
    && j.tally.analyzed + j.tally.missing + j.tally.failed == j.tally.requested
    && (j.status == Success <==> j.tally.analyzed == j.tally.requested)
  }

  /**
   Every open tally accounts for each processed row exactly once, and for the
   entries that were missing from the start.
   */
  lemma {:induction false} Accounting(t: Tally)
    requires TallyOk(t)
    ensures t.analyzed + t.failed + t.missing == t.processed + Unfound(t)
    ensures t.processed <= t.requested
    ensures forall i, j :: 0 <= i < j < |t.done| && t.payload.Selection? ==> t.done[i].row != t.done[j].row
  {
    CountsAddUp(t.done);
    if t.payload.Selection? {
      forall i, j | 0 <= i < j < |t.done|
        ensures t.done[i].row != t.done[j].row
      {
        DoneApart(t, i, j);
        BeforeIrreflexive(t.done[i].row);
      }
    }
  }

  lemma {:induction false} DoneApart(t: Tally, i: nat, j: nat)
    requires RowsOk(t) && t.payload.Selection? && i < j < |t.done|
    ensures Before(t.done[i].row, t.done[j].row)
    decreases j - i
  {
    if i + 1 < j {
      DoneApart(t, i, j - 1);
      BeforeTransitive(t.done[i].row, t.done[j - 1].row, t.done[j].row);
    }
  }

  // ---- creating a job ---------------------------------------------------------

  function FoundIds(ids: seq<string>, gallery: set<string>): seq<string> {
    if ids == [] then []
    else FoundIds(ids[..|ids| - 1], gallery) + if ids[|ids| - 1] in gallery then [ids[|ids| - 1]] else []
  }

  lemma {:induction false} FoundIdsSize(ids: seq<string>, gallery: set<string>)
    ensures |FoundIds(ids, gallery)| <= |ids|
    ensures |FoundIds(ids, gallery)| == |ids| ==> FoundIds(ids, gallery) == ids
  {
    if ids != [] { FoundIdsSize(ids[..|ids| - 1], gallery); }
  }

  /** The found identifiers are those of the gallery, as often and in the order they were asked for. */
  lemma {:induction false} FoundExactly(ids: seq<string>, gallery: set<string>, id: string)
    ensures multiset(FoundIds(ids, gallery))[id] == if id in gallery then multiset(ids)[id] else 0
  {
    if ids != [] {
      var init, last := ids[..|ids| - 1], ids[|ids| - 1];
      FoundExactly(init, gallery, id);
      assert ids == init + [last];
    }
  }

  lemma {:induction false} FoundInOrder(a: seq<string>, b: seq<string>, gallery: set<string>)
    ensures FoundIds(a + b, gallery) == FoundIds(a, gallery) + FoundIds(b, gallery)
  {
    if b == [] {
      assert a + b == a;
    } else {
      assert (a + b)[..|a + b| - 1] == a + b[..|b| - 1];
      FoundInOrder(a, b[..|b| - 1], gallery);
    }
  }

  /** `batch_analyze_gallery` on a list of identifiers; None when there are none or too many. */
  method CreateFromIds(ids: seq<string>, gallery: set<string>, maxImages: nat) returns (job: Option<Job>)
    ensures job.Some? <==> |ids| <= maxImages && FoundIds(ids, gallery) != []
    ensures job.Some? ==>
              && JobOk(job.value) && job.value.status == Queued && job.value.tally.processed == 0
              && job.value.tally.payload == IdList(FoundIds(ids, gallery)) && job.value.tally.requested == |ids|
              && job.value.tally.missing == |ids| - |FoundIds(ids, gallery)|
  {
    if |ids| > maxImages {
      return None;
    }
    var found: seq<string> := [];
    assert ids[..|ids|] == ids;
    for i := 0 to |ids|
      invariant found == FoundIds(ids[..i], gallery)
    {
      assert ids[..i + 1][..i] == ids[..i];
      if ids[i] in gallery { found := found + [ids[i]]; }
    }
    if found == [] {
      return None;
    }
    FoundIdsSize(ids, gallery);
    job := Some(Job(Queued, None, None, Tally(IdList(found), |ids|, 0, 0, |ids| - |found|, 0, [])));
  }

  /** `batch_analyze_gallery` on a snapshot of a filtered selection. */
  method CreateFromSelection(count: nat, boundary: Option<Row>, maxImages: nat) returns (job: Option<Job>)
    ensures job.Some? <==> 0 < count <= maxImages
    ensures job.Some? ==>
              && JobOk(job.value) && job.value.status == Queued
              && job.value.tally == Tally(Selection(None, boundary), count, 0, 0, 0, 0, [])
  {
    if count == 0 || count > maxImages {
      return None;
    }
    job := Some(Job(Queued, None, None, Tally(Selection(None, boundary), count, 0, 0, 0, 0, [])));
  }

  // ---- the next rows ----------------------------------------------------------

  function ListedRows(ids: seq<string>): (rows: seq<Row>)
    ensures |rows| == |ids|
  {
    seq(|ids|, i requires 0 <= i < |ids| => Row(0, ids[i]))
  }

  datatype Batch = Batch(rows: seq<Row>, exhausted: bool)

  /** `_next_ai_analyze_id_batch` against the rows of the gallery that match the filters. */
  function NextBatch(t: Tally, table: seq<Row>): Batch {
    if t.requested > 0 && t.requested <= t.processed then Batch([], true)
    else
      var remaining := if t.requested <= t.processed then 0 else t.requested - t.processed;
      match t.payload
      case IdList(ids) =>
        var start := Min(t.processed, |ids|);
        var end := if remaining > 0 then Min(|ids|, start + remaining) else |ids|;
        Batch(ListedRows(ids[start..end]), true)
      case Selection(checkpoint, boundary) =>
        var limit := if remaining > 0 then Min(BATCH_SIZE, remaining) else BATCH_SIZE;
        var rows := Page(table, checkpoint, boundary, limit);
        Batch(rows, rows == [] || |rows| < limit)
  }

  /** The rows may be counted next, in this order. */
  predicate Countable(t: Tally, rows: seq<Row>) {
    && t.processed + |rows| <= Quota(t)
    && match t.payload
       case IdList(ids) =>
         forall i :: 0 <= i < |rows| ==> t.processed + i < |ids| && rows[i].id == ids[t.processed + i]
       case Selection(checkpoint, boundary) =>
         && Descending(rows)
         && (rows != [] ==> After(rows[0], checkpoint))
         && forall i :: 0 <= i < |rows| ==> Within(rows[i], boundary)
  }

  lemma {:induction false} NextBatchCountable(t: Tally, table: seq<Row>)
    requires TallyOk(t) && Descending(table)
    ensures Countable(t, NextBatch(t, table).rows)
    ensures t.payload.IdList? ==> t.processed + |NextBatch(t, table).rows| == Quota(t)
    ensures t.payload.Selection? && t.processed < t.requested ==>
              NextBatch(t, table).rows
              == Page(table, t.payload.checkpoint, t.payload.boundary, Min(25, t.requested - t.processed))
  {
    hide Count, Before;
    if t.payload.Selection? && t.processed < t.requested {
      var limit := Min(BATCH_SIZE, t.requested - t.processed);
      PageRows(table, t.payload.checkpoint, t.payload.boundary, limit);
      PageIsNext(table, t.payload.checkpoint, t.payload.boundary, limit);
    }
  }

  // ---- counting one row -------------------------------------------------------

  /** What one analysed row does to the counters and the checkpoint. */
  function Counted(t: Tally, row: Row, outcome: Outcome): Tally {
    t.(processed := t.processed + 1,
       analyzed := t.analyzed + if outcome == Analyzed then 1 else 0,
       missing := t.missing + if outcome == Missing then 1 else 0,
       failed := t.failed + if outcome == Failed then 1 else 0,
       payload := if t.payload.IdList? then t.payload else t.payload.(checkpoint := Some(row)),
       done := t.done + [Entry(row, outcome)])
  }

  lemma {:induction false} CountedRows(t: Tally, rows: seq<Row>, outcome: Outcome)
    requires RowsOk(t) && t.processed == |t.done| && rows != [] && Countable(t, rows)
    ensures RowsOk(Counted(t, rows[0], outcome))
  {
    hide Before, Within;
    var after := Counted(t, rows[0], outcome);
    assert forall k :: 0 <= k < |t.done| ==> after.done[k] == t.done[k];
    assert after.done[|t.done|] == Entry(rows[0], outcome);
  }

  lemma {:induction false} CountedRest(t: Tally, rows: seq<Row>, outcome: Outcome)
    requires rows != [] && Countable(t, rows)
    ensures Countable(Counted(t, rows[0], outcome), rows[1..])
  {
    hide Before, Within;
    if t.payload.Selection? {
      DescendingTail(rows);
      assert |rows| > 1 ==> Before(rows[0], rows[1]);
    }
    forall i | 0 <= i < |rows[1..]|
      ensures rows[1..][i] == rows[i + 1]
    {}
  }

  /** Counting the next row keeps the tally consistent and the rest countable. */
  lemma {:induction false} CountedOk(t: Tally, rows: seq<Row>, outcome: Outcome)
    requires TallyOk(t) && rows != [] && Countable(t, rows)
    ensures TallyOk(Counted(t, rows[0], outcome)) && Countable(Counted(t, rows[0], outcome), rows[1..])
  {
    CountedRows(t, rows, outcome);
    CountedRest(t, rows, outcome);
    var e := Entry(rows[0], outcome);
    CountLast(t.done, e, Analyzed);
    CountLast(t.done, e, Missing);
    CountLast(t.done, e, Failed);
    assert t.processed + 1 <= Quota(t);
    hide RowsOk, Countable, Count;
  }

  // ---- the stored record ------------------------------------------------------

  /** The same batch: what no step changes. */
  predicate SameBatch(a: Tally, b: Tally) {
    && a.requested == b.requested && a.payload.IdList? == b.payload.IdList?
    && (a.payload.IdList? ==> a.payload.ids == b.payload.ids)
    && (a.payload.Selection? ==> a.payload.boundary == b.payload.boundary)
  }

  /** The guard of every write a worker makes. */
  predicate Holds(j: Job, owner: string, now: int) {
    j.owner == Some(owner) && j.status == Running && (j.expires.None? || j.expires.value > now)
  }

  function Claimed(j: Job, owner: string, expires: int): Job {
    j.(status := Running, owner := Some(owner), expires := Some(expires))
  }

  predicate Claimable(j: Job, now: int) {
    j.status == Queued || (j.status == Running && j.expires.Some? && j.expires.value <= now)
  }

  function Verdict(t: Tally): Status { if t.missing + t.failed == 0 then Success else Error }

  function Completed(j: Job, t: Tally): Job {
    var closed := Closed(t);
    j.(status := Verdict(closed), owner := None, expires := None, tally := closed.(requested := j.tally.requested))
  }

  /** At completion everything requested is accounted for, and success means that all of it was analysed. */
  lemma {:induction false} CompletedOk(j: Job, t: Tally)
    requires TallyOk(t) && SameBatch(t, j.tally)
    requires t.payload.IdList? ==> t.processed == |t.payload.ids|
    ensures FinishedOk(Completed(j, t))
  {
    Accounting(t);
  }

  /** A list tally is complete when all its rows are processed. */
  predicate Exhausted(t: Tally) {
    t.payload.IdList? ==> t.processed == |t.payload.ids|
  }
}
