/** Listing jobs newest first: offset skipping by keyset pages - backend/app/repositories/image_jobs.py. */
module JobListing {
  import opened Common
  import opened Text

  const PAGE_SIZE := 500

  datatype Key = Key(updatedAt: string, jobId: string)

  datatype Row = Row(key: Key, status: string, body: string)

  predicate Older(a: Key, b: Key) {
    Less(a.updatedAt, b.updatedAt) || (a.updatedAt == b.updatedAt && Less(a.jobId, b.jobId))
  }

  /** The WHERE clause: an optional status set, and an optional seek cursor. */
  datatype Where = Where(statuses: set<string>, cursor: Option<Key>)

  predicate Matches(w: Where, r: Row) {
    (w.statuses != {} ==> r.status in w.statuses) && (w.cursor.Some? ==> Older(r.key, w.cursor.value))
  }

  function Select(rows: seq<Row>, w: Where): seq<Row> {
    if rows == [] then []
    else (if Matches(w, rows[0]) then [rows[0]] else []) + Select(rows[1..], w)
  }

  function Insert(r: Row, sorted: seq<Row>): seq<Row> {
    if sorted == [] || Older(sorted[0].key, r.key) then [r] + sorted
    else [sorted[0]] + Insert(r, sorted[1..])
  }

  /** `ORDER BY updated_at DESC, job_id DESC`. */
  function NewestFirst(rows: seq<Row>): seq<Row> {
    if rows == [] then [] else Insert(rows[0], NewestFirst(rows[1..]))
  }

  /** `LIMIT n`: absent or negative means no limit. */
  function Take(rows: seq<Row>, limit: Option<int>): seq<Row> {
    if limit.None? || limit.value < 0 || limit.value > |rows| then rows else rows[..limit.value]
  }

  function Drop(rows: seq<Row>, n: nat): seq<Row> {
    if n >= |rows| then [] else rows[n..]
  }

  /** A cursor counts only when both of its parts are there. */
  function Cursor(isSpace: char -> bool, updatedAt: string, jobId: string): Option<Key> {
    var u, j := Strip(isSpace, updatedAt), Strip(isSpace, jobId);
    if u != "" && j != "" then Some(Key(u, j)) else None
  }

  /** `_get_generate_job_rows_on_conn`. */
  function Page(isSpace: char -> bool, table: seq<Row>, statuses: set<string>, limit: Option<int>,
                updatedAt: string, jobId: string): seq<Row>
  {
    Take(NewestFirst(Select(table, Where(statuses, Cursor(isSpace, updatedAt, jobId)))), limit)
  }

  /** What a listing means: everything that matches, newest first, then plain offset and limit. */
  function Listing(isSpace: char -> bool, table: seq<Row>, statuses: set<string>, limit: Option<int>, offset: int,
                   updatedAt: string, jobId: string): seq<Row>
  {
    Take(Drop(NewestFirst(Select(table, Where(statuses, Cursor(isSpace, updatedAt, jobId)))), Max(0, offset)), limit)
  }

  /** Job identifiers are the primary key. */
  ghost predicate UniqueIds(table: seq<Row>) {
    forall i, j :: 0 <= i < j < |table| ==> table[i].key.jobId != table[j].key.jobId
  }

  predicate CleanKey(isSpace: char -> bool, k: Key) {
    k.updatedAt != "" && k.jobId != "" && Trimmed(isSpace, k.updatedAt) && Trimmed(isSpace, k.jobId)
  }

  ghost predicate Sorted(rows: seq<Row>) {
    forall i, j :: 0 <= i < j < |rows| ==> Older(rows[j].key, rows[i].key)
  }

  // ---- order ------------------------------------------------------------------

  lemma {:induction false} OlderTotal(a: Key, b: Key)
    ensures Older(a, b) || a == b || Older(b, a)
    ensures !(Older(a, b) && Older(b, a))
    ensures !Older(a, a)
  {
    LessTotal(a.updatedAt, b.updatedAt);
    LessTotal(a.jobId, b.jobId);
    LessTotal(a.updatedAt, a.updatedAt);
    LessTotal(a.jobId, a.jobId);
  }

  lemma {:induction false} OlderTransitive(a: Key, b: Key, c: Key)
    requires Older(a, b) && Older(b, c)
    ensures Older(a, c)
  {
    if Less(a.updatedAt, b.updatedAt) && Less(b.updatedAt, c.updatedAt) {
      LessTransitive(a.updatedAt, b.updatedAt, c.updatedAt);
    }
    if Less(a.jobId, b.jobId) && Less(b.jobId, c.jobId) {
      LessTransitive(a.jobId, b.jobId, c.jobId);
    }
  }

  // ---- sorting ----------------------------------------------------------------

  lemma {:induction false} InsertElements(r: Row, sorted: seq<Row>)
    ensures multiset(Insert(r, sorted)) == multiset(sorted) + multiset{r}
  {
    if sorted != [] && !Older(sorted[0].key, r.key) {
      InsertElements(r, sorted[1..]);
      assert sorted == [sorted[0]] + sorted[1..];
    }
  }

  lemma {:induction false} NewestFirstElements(rows: seq<Row>)
    ensures multiset(NewestFirst(rows)) == multiset(rows)
  {
    if rows != [] {
      InsertElements(rows[0], NewestFirst(rows[1..]));
      NewestFirstElements(rows[1..]);
      assert rows == [rows[0]] + rows[1..];
    }
  }

  lemma {:induction false} SortedTail(rows: seq<Row>)
    requires rows != [] && Sorted(rows)
    ensures Sorted(rows[1..]) && forall r :: r in rows[1..] ==> Older(r.key, rows[0].key)
  {}

  lemma {:induction false} SortedCons(r: Row, rows: seq<Row>)
    requires Sorted(rows) && forall x :: x in rows ==> Older(x.key, r.key)
    ensures Sorted([r] + rows)
  {}

  lemma {:induction false} InsertSorted(r: Row, sorted: seq<Row>)
    requires Sorted(sorted) && forall x :: x in sorted ==> x.key != r.key
    ensures Sorted(Insert(r, sorted))
  {
    hide Older;
    if sorted == [] {
    } else if Older(sorted[0].key, r.key) {
      SortedTail(sorted);
      forall x | x in sorted
        ensures Older(x.key, r.key)
      {
        if x != sorted[0] { OlderTransitive(x.key, sorted[0].key, r.key); }
      }
      SortedCons(r, sorted);
    } else {
      SortedTail(sorted);
      InsertSorted(r, sorted[1..]);
      InsertElements(r, sorted[1..]);
      OlderTotal(sorted[0].key, r.key);
      forall x | x in Insert(r, sorted[1..])
        ensures Older(x.key, sorted[0].key)
      {
        assert x in multiset(Insert(r, sorted[1..]));
        assert x in multiset(sorted[1..]) || x == r;
      }
      SortedCons(sorted[0], Insert(r, sorted[1..]));
    }
  }

  lemma {:induction false} NewestFirstSorted(rows: seq<Row>)
    requires UniqueIds(rows)
    ensures Sorted(NewestFirst(rows))
  {
    if rows != [] {
      NewestFirstSorted(rows[1..]);
      NewestFirstElements(rows[1..]);
      forall x | x in NewestFirst(rows[1..])
        ensures x.key != rows[0].key
      {
        assert x in multiset(NewestFirst(rows[1..]));
        assert x in rows[1..];
      }
      InsertSorted(rows[0], NewestFirst(rows[1..]));
    }
  }

  // ---- selection commutes with sorting ----------------------------------------

  lemma {:induction false} SelectIn(rows: seq<Row>, w: Where)
    ensures forall r :: r in Select(rows, w) ==> r in rows && Matches(w, r)
  {
    if rows != [] {
      SelectIn(rows[1..], w);
    }
  }

  lemma {:induction false} SelectInsert(r: Row, sorted: seq<Row>, w: Where)
    requires Sorted(sorted)
    ensures Select(Insert(r, sorted), w) ==
            if Matches(w, r) then Insert(r, Select(sorted, w)) else Select(sorted, w)
  {
    hide Older, Matches;
    if sorted == [] {
      assert [r][1..] == [];
    } else if Older(sorted[0].key, r.key) {
      assert ([r] + sorted)[1..] == sorted;
      SortedTail(sorted);
      SelectIn(sorted, w);
      var kept := Select(sorted, w);
      if kept != [] && kept[0] != sorted[0] {
        assert kept[0] in sorted;
        OlderTransitive(kept[0].key, sorted[0].key, r.key);
      }
    } else {
      SortedTail(sorted);
      SelectInsert(r, sorted[1..], w);
      assert ([sorted[0]] + Insert(r, sorted[1..]))[1..] == Insert(r, sorted[1..]);
      var kept := Select(sorted[1..], w);
      assert ([sorted[0]] + kept)[1..] == kept && [] + kept == kept;
      assert [] + Insert(r, kept) == Insert(r, kept);
    }
  }

  lemma {:induction false} SelectSorted(rows: seq<Row>, w: Where)
    requires UniqueIds(rows)
    ensures NewestFirst(Select(rows, w)) == Select(NewestFirst(rows), w)
  {
    hide Older, Matches;
    if rows != [] {
      SelectSorted(rows[1..], w);
      NewestFirstSorted(rows[1..]);
      SelectInsert(rows[0], NewestFirst(rows[1..]), w);
      var rest := Select(rows[1..], w);
      assert ([rows[0]] + rest)[1..] == rest;
      assert [] + rest == rest;
    }
  }

  lemma {:induction false} SelectKeepsSorted(rows: seq<Row>, w: Where)
    requires Sorted(rows)
    ensures Sorted(Select(rows, w))
  {
    hide Older, Matches;
    if rows != [] {
      SortedTail(rows);
      SelectKeepsSorted(rows[1..], w);
      SelectIn(rows[1..], w);
      SortedCons(rows[0], Select(rows[1..], w));
    }
  }

  // ---- seeking is dropping ----------------------------------------------------

  /** Seeking past row `i` of a listing leaves the rows after it. */
  lemma {:induction false} SeekDrops(rows: seq<Row>, w: Where, i: nat)
    requires Sorted(rows) && i < |Select(rows, w)|
    ensures Select(rows, w.(cursor := Some(Select(rows, w)[i].key))) == Select(rows, w)[i + 1..]
  {
    var list := Select(rows, w);
    var seek := w.(cursor := Some(list[i].key));
    SelectKeepsSorted(rows, w);
    SelectIn(rows, w);
    hide Older;
    assert list[i] in list;
    SeekWithin(rows, w, list[i].key);
    DropOlder(list, w, i);
  }

  /** A cursor at a selected row only narrows the selection. */
  lemma {:induction false} SeekWithin(rows: seq<Row>, w: Where, k: Key)
    requires w.cursor.Some? ==> Older(k, w.cursor.value)
    ensures Select(rows, w.(cursor := Some(k))) == Select(Select(rows, w), w.(cursor := Some(k)))
  {
    if rows != [] {
      SeekWithin(rows[1..], w, k);
      if Matches(w.(cursor := Some(k)), rows[0]) && w.cursor.Some? {
        OlderTransitive(rows[0].key, k, w.cursor.value);
      }
      hide Older;
      var rest := Select(rows[1..], w);
      assert ([rows[0]] + rest)[1..] == rest && [] + rest == rest;
    }
  }

  lemma {:induction false} DropOlder(list: seq<Row>, w: Where, i: nat)
    requires Sorted(list) && i < |list| && forall r :: r in list ==> Matches(w.(cursor := None), r)
    ensures Select(list, w.(cursor := Some(list[i].key))) == list[i + 1..]
  {
    var seek := w.(cursor := Some(list[i].key));
    OlderTotal(list[0].key, list[i].key);
    SortedTail(list);
    assert !Matches(seek, list[0]);
    if i == 0 {
      forall r | r in list[1..]
        ensures Matches(seek, r)
      {
        assert r in list;
      }
      AllOlder(list[1..], seek);
    } else {
      DropOlder(list[1..], w, i - 1);
      assert list[1..][i..] == list[i + 1..];
    }
    assert [] + Select(list[1..], seek) == Select(list[1..], seek);
  }

  lemma {:induction false} AllOlder(list: seq<Row>, w: Where)
    requires forall r :: r in list ==> Matches(w, r)
    ensures Select(list, w) == list
  {
    hide Matches;
    if list != [] {
      assert list[0] in list;
      AllOlder(list[1..], w);
    }
  }

  // ---- the listing loop -------------------------------------------------------

  /** Skipping pages of at most 500 rows, each by seeking past the last row of the one before. */
  function Skipping(isSpace: char -> bool, table: seq<Row>, statuses: set<string>, limit: Option<int>, remaining: nat,
                    updatedAt: string, jobId: string): seq<Row>
    decreases remaining
  {
    if remaining == 0 then Page(isSpace, table, statuses, limit, updatedAt, jobId)
    else
      var skipLimit := Min(remaining, PAGE_SIZE);
      var skipped := Page(isSpace, table, statuses, Some(skipLimit), updatedAt, jobId);
      if |skipped| < skipLimit then []
      else
        var last := skipped[|skipped| - 1].key;
        Skipping(isSpace, table, statuses, limit, Max(0, remaining - |skipped|), last.updatedAt, last.jobId)
  }

  /** What `list_generate_jobs` returns. */
  function Jobs(isSpace: char -> bool, table: seq<Row>, statuses: set<string>, limit: Option<int>, offset: int,
                beforeUpdatedAt: string, beforeJobId: string): seq<Row>
  {
    var u, j := Strip(isSpace, beforeUpdatedAt), Strip(isSpace, beforeJobId);
    var both := (u != "") == (j != "");
    Skipping(isSpace, table, statuses, limit, Max(0, offset), if both then u else "", if both then j else "")
  }

  /** `list_generate_jobs`: the loop of keyset pages. */
  method ListJobs(isSpace: char -> bool, table: seq<Row>, statuses: set<string>, limit: Option<int>, offset: int,
                  beforeUpdatedAt: string, beforeJobId: string) returns (rows: seq<Row>)
    ensures rows == Jobs(isSpace, table, statuses, limit, offset, beforeUpdatedAt, beforeJobId)
  {
    hide Page;
    var remaining := Max(0, offset);
    var seekUpdatedAt, seekJobId := Strip(isSpace, beforeUpdatedAt), Strip(isSpace, beforeJobId);
    if (seekUpdatedAt != "") != (seekJobId != "") {
      seekUpdatedAt, seekJobId := "", "";
    }
    while remaining > 0
      invariant remaining >= 0
      invariant Skipping(isSpace, table, statuses, limit, remaining, seekUpdatedAt, seekJobId)
             == Jobs(isSpace, table, statuses, limit, offset, beforeUpdatedAt, beforeJobId)
    {
      var skipLimit := Min(remaining, PAGE_SIZE);
      var skipped := Page(isSpace, table, statuses, Some(skipLimit), seekUpdatedAt, seekJobId);
      if skipped == [] {
        return [];
      }
      PageBound(isSpace, table, statuses, skipLimit, seekUpdatedAt, seekJobId);
      remaining := remaining - |skipped|;
      var last := skipped[|skipped| - 1].key;
      seekUpdatedAt, seekJobId := last.updatedAt, last.jobId;
      if |skipped| < skipLimit {
        return [];
      }
    }
    rows := Page(isSpace, table, statuses, limit, seekUpdatedAt, seekJobId);
  }

  lemma {:induction false} PageBound(isSpace: char -> bool, table: seq<Row>, statuses: set<string>, limit: nat,
                                     updatedAt: string, jobId: string)
    ensures |Page(isSpace, table, statuses, Some(limit), updatedAt, jobId)| <= limit
  {
    hide NewestFirst, Select, Cursor;
  }

  // ---- when the loop keeps its place ------------------------------------------

  /** The rows of a listing, newest first. */
  function Listed(table: seq<Row>, w: Where): seq<Row> { NewestFirst(Select(table, w)) }

  /** Read back as a cursor, the key still stands between the rows that are older and those that are not. */
  ghost predicate KeepsPlace(isSpace: char -> bool, table: seq<Row>, statuses: set<string>, k: Key) {
    var cursor := Cursor(isSpace, k.updatedAt, k.jobId);
    && cursor.Some?
    && forall r :: r in table && Matches(Where(statuses, None), r) ==> (Older(r.key, cursor.value) <==> Older(r.key, k))
  }

  /** A page that is skipped ends after `p` rows. */
  predicate PageEnd(offset: int, p: int) { 0 < p <= offset && (p == offset || p % 500 == 0) }

  /** Without surrounding white space a key keeps its place. */
  lemma {:induction false} CleanKeepsPlace(isSpace: char -> bool, table: seq<Row>, statuses: set<string>, k: Key)
    requires CleanKey(isSpace, k)
    ensures KeepsPlace(isSpace, table, statuses, k)
  {
    CleanCursor(isSpace, k);
  }

  lemma {:induction false} CleanCursor(isSpace: char -> bool, k: Key)
    requires CleanKey(isSpace, k)
    ensures Cursor(isSpace, k.updatedAt, k.jobId) == Some(k)
  {
    StripTrimmed(isSpace, k.updatedAt);
    StripTrimmed(isSpace, k.jobId);
  }

  lemma {:induction false} InListed(table: seq<Row>, w: Where, r: Row)
    ensures r in Listed(table, w) <==> r in table && Matches(w, r)
  {
    NewestFirstElements(Select(table, w));
    InSelect(table, w, r);
    hide NewestFirst, Select, Matches;
    assert r in Listed(table, w) <==> r in multiset(NewestFirst(Select(table, w)));
  }

  /** What a listing holds: the stored rows of the statuses asked for, older than the cursor. */
  lemma {:induction false} ListedRows(table: seq<Row>, statuses: set<string>, cursor: Option<Key>, r: Row)
    ensures r in Listed(table, Where(statuses, cursor)) <==>
            && r in table && (statuses == {} || r.status in statuses)
            && (cursor.None? || Less(r.key.updatedAt, cursor.value.updatedAt)
                || (r.key.updatedAt == cursor.value.updatedAt && Less(r.key.jobId, cursor.value.jobId)))
  {
    InListed(table, Where(statuses, cursor), r);
    hide Listed;
  }

  lemma {:induction false} InSelect(rows: seq<Row>, w: Where, r: Row)
    ensures r in Select(rows, w) <==> r in rows && Matches(w, r)
  {
    hide Matches;
    if rows != [] {
      InSelect(rows[1..], w, r);
    }
  }

  lemma {:induction false} SameSelect(rows: seq<Row>, v: Where, w: Where)
    requires forall r :: r in rows ==> (Matches(v, r) <==> Matches(w, r))
    ensures Select(rows, v) == Select(rows, w)
  {
    hide Matches;
    if rows != [] {
      assert rows[0] in rows;
      SameSelect(rows[1..], v, w);
    }
  }

  /** Two conditions list the same exactly when they match the same rows. */
  lemma {:induction false} SameListed(table: seq<Row>, v: Where, w: Where)
    ensures Listed(table, v) == Listed(table, w) <==> forall r :: r in table ==> (Matches(v, r) <==> Matches(w, r))
  {
    if forall r :: r in table ==> (Matches(v, r) <==> Matches(w, r)) {
      SameSelect(table, v, w);
    }
    hide Matches, Listed;
    if Listed(table, v) == Listed(table, w) {
      forall r | r in table
        ensures Matches(v, r) <==> Matches(w, r)
      {
        InListed(table, v, r);
        InListed(table, w, r);
      }
    }
  }

  /** Seeking with the key of row `i` itself lists the rows after it. */
  lemma {:induction false} SeekListed(table: seq<Row>, w: Where, i: nat)
    requires UniqueIds(table) && i < |Listed(table, w)|
    ensures Listed(table, w.(cursor := Some(Listed(table, w)[i].key))) == Listed(table, w)[i + 1..]
  {
    SelectSorted(table, w);
    SelectSorted(table, w.(cursor := Some(Listed(table, w)[i].key)));
    NewestFirstSorted(table);
    hide Older, Matches, NewestFirst, Select;
    SeekDrops(NewestFirst(table), w, i);
  }

  /** Seeking with it as a cursor does exactly when the key keeps its place. */
  lemma {:induction false} PlaceExact(isSpace: char -> bool, table: seq<Row>, w: Where, i: nat)
    requires UniqueIds(table) && i < |Listed(table, w)|
    ensures
      var k := Listed(table, w)[i].key;
      Listed(table, Where(w.statuses, Cursor(isSpace, k.updatedAt, k.jobId))) == Listed(table, w)[i + 1..] <==>
      KeepsPlace(isSpace, table, w.statuses, k)
  {
    var row := Listed(table, w)[i];
    var c := Cursor(isSpace, row.key.updatedAt, row.key.jobId);
    var v := Where(w.statuses, c);
    var seek := w.(cursor := Some(row.key));
    SeekListed(table, w, i);
    SameListed(table, v, seek);
    InListed(table, w, row);
    OlderTotal(row.key, row.key);
    hide Listed, Cursor, Older;
    forall r
      ensures Matches(v, r) <==> Matches(Where(w.statuses, None), r) && (c.Some? ==> Older(r.key, c.value))
      ensures Matches(seek, r) <==> Matches(Where(w.statuses, None), r) && Older(r.key, row.key)
    {}
  }

  /**
   The loop after `done` skipped rows: as long as the earlier page ends keep their
   place it comes to the page behind row `offset`, or to nothing.
   */
  lemma {:induction false} SkippingRuns(isSpace: char -> bool, table: seq<Row>, w: Where, limit: Option<int>,
                                        offset: nat, done: nat, updatedAt: string, jobId: string)
    requires UniqueIds(table) && done < offset && done % 500 == 0 && done <= |Listed(table, w)|
    requires Listed(table, Where(w.statuses, Cursor(isSpace, updatedAt, jobId))) == Listed(table, w)[done..]
    requires forall p :: PageEnd(offset, p) && p < offset && p <= |Listed(table, w)|
                         ==> KeepsPlace(isSpace, table, w.statuses, Listed(table, w)[p - 1].key)
    ensures
      Skipping(isSpace, table, w.statuses, limit, offset - done, updatedAt, jobId) ==
      if offset > |Listed(table, w)| then []
      else
        var k := Listed(table, w)[offset - 1].key;
        Page(isSpace, table, w.statuses, limit, k.updatedAt, k.jobId)
    decreases offset - done
  {
    hide Listed, Cursor, KeepsPlace;
    var list := Listed(table, w);
    var skipLimit := Min(offset - done, PAGE_SIZE);
    var skipped := Page(isSpace, table, w.statuses, Some(skipLimit), updatedAt, jobId);
    FirstPage(isSpace, table, w.statuses, skipLimit, updatedAt, jobId);
    assert skipped == Take(list[done..], Some(skipLimit));
    if |list| - done >= skipLimit {
      var next := done + skipLimit;
      var last := list[next - 1].key;
      assert skipped[|skipped| - 1].key == last;
      if next < offset {
        assert PageEnd(offset, next);
        PlaceExact(isSpace, table, w, next - 1);
        SkippingRuns(isSpace, table, w, limit, offset, next, last.updatedAt, last.jobId);
      }
    }
  }

  lemma {:induction false} FirstPage(isSpace: char -> bool, table: seq<Row>, statuses: set<string>, limit: nat,
                                     updatedAt: string, jobId: string)
    ensures Page(isSpace, table, statuses, Some(limit), updatedAt, jobId) ==
            Take(Listed(table, Where(statuses, Cursor(isSpace, updatedAt, jobId))), Some(limit))
  {}

  /** What a whole call returns once the earlier page ends keep their place. */
  lemma {:induction false} JobsRun(isSpace: char -> bool, table: seq<Row>, statuses: set<string>, limit: Option<int>,
                                   offset: int, updatedAt: string, jobId: string)
    requires UniqueIds(table)
    requires
      var list := Listed(table, Where(statuses, Cursor(isSpace, updatedAt, jobId)));
      forall p :: PageEnd(offset, p) && p < offset && p <= |list|
                  ==> KeepsPlace(isSpace, table, statuses, list[p - 1].key)
    ensures
      var list := Listed(table, Where(statuses, Cursor(isSpace, updatedAt, jobId)));
      Jobs(isSpace, table, statuses, limit, offset, updatedAt, jobId) ==
      if offset <= 0 then Take(list, limit)
      else if offset > |list| then []
      else
        var k := list[offset - 1].key;
        Take(Listed(table, Where(statuses, Cursor(isSpace, k.updatedAt, k.jobId))), limit)
  {
    var w := Where(statuses, Cursor(isSpace, updatedAt, jobId));
    FirstCursor(isSpace, updatedAt, jobId);
    hide Cursor, KeepsPlace, NewestFirst, Select, Take;
    var u, j := Strip(isSpace, updatedAt), Strip(isSpace, jobId);
    var both := (u != "") == (j != "");
    assert Listed(table, w)[0..] == Listed(table, w);
    if offset > 0 {
      SkippingRuns(isSpace, table, w, limit, offset, 0, if both then u else "", if both then j else "");
    }
  }

  lemma {:induction false} ListedSorted(table: seq<Row>, w: Where)
    requires UniqueIds(table)
    ensures Sorted(Listed(table, w))
  {
    SelectSorted(table, w);
    NewestFirstSorted(table);
    hide Older, Matches, NewestFirst, Select;
    SelectKeepsSorted(NewestFirst(table), w);
  }

  /** Of two listings, one starting at a newer key or at the top: unless they are the same, they differ at once. */
  lemma {:induction false} HeadsDiffer(table: seq<Row>, v: Where, w: Where)
    requires UniqueIds(table) && v.statuses == w.statuses && w.cursor.Some?
    requires v.cursor.Some? ==> Older(w.cursor.value, v.cursor.value)
    requires Listed(table, v) != Listed(table, w)
    ensures Listed(table, v) != [] && (Listed(table, w) != [] ==> Listed(table, w)[0] != Listed(table, v)[0])
  {
    SameListed(table, v, w);
    forall r | Matches(w, r)
      ensures Matches(v, r)
    {
      if v.cursor.Some? { OlderTransitive(r.key, w.cursor.value, v.cursor.value); }
    }
    var r :| r in table && Matches(v, r) && !Matches(w, r);
    InListed(table, v, r);
    ListedSorted(table, v);
    var list := Listed(table, v);
    var i :| 0 <= i < |list| && list[i] == r;
    if Listed(table, w) != [] && Listed(table, w)[0] == list[0] {
      InListed(table, w, list[0]);
      hide Listed, Older;
      if i > 0 { OlderTransitive(r.key, list[0].key, w.cursor.value); }
    }
  }

  lemma {:induction false} TakesDiffer(a: seq<Row>, b: seq<Row>, limit: Option<int>)
    requires a != [] && (b != [] ==> b[0] != a[0]) && limit != Some(0)
    ensures Take(a, limit) != Take(b, limit)
  {
    assert Take(a, limit) != [] && Take(a, limit)[0] == a[0];
  }

  /** Behind a stripped cursor, any non-empty page is right only when the key keeps its place. */
  lemma {:induction false} PlaceLimited(isSpace: char -> bool, table: seq<Row>, w: Where, i: nat, limit: Option<int>)
    requires UniqueIds(table) && i < |Listed(table, w)|
    ensures
      var k := Listed(table, w)[i].key;
      var page := Take(Listed(table, Where(w.statuses, Cursor(isSpace, k.updatedAt, k.jobId))), limit);
      page == Take(Listed(table, w)[i + 1..], limit) <==>
      (limit == Some(0) || KeepsPlace(isSpace, table, w.statuses, k))
  {
    var k := Listed(table, w)[i].key;
    var v, seek := Where(w.statuses, Cursor(isSpace, k.updatedAt, k.jobId)), w.(cursor := Some(k));
    PlaceExact(isSpace, table, w, i);
    SeekListed(table, w, i);
    if v.cursor.Some? { OlderTotal(v.cursor.value, k); }
    hide Listed, KeepsPlace, Older, Cursor;
    var a, b := Listed(table, v), Listed(table, seek);
    if a != b && limit != Some(0) {
      if v.cursor.Some? && Older(v.cursor.value, k) {
        HeadsDiffer(table, seek, v);
        TakesDiffer(b, a, limit);
      } else {
        HeadsDiffer(table, v, seek);
        TakesDiffer(a, b, limit);
      }
    }
  }

  /**
   One call: when the page ends before the offset keep their place, the loop
   returns what plain offset and limit give exactly when the row before the first
   one asked for keeps its place too, or nothing is asked for.
   */
  lemma {:induction false} CallExact(isSpace: char -> bool, table: seq<Row>, statuses: set<string>, limit: Option<int>,
                                     offset: int, updatedAt: string, jobId: string)
    requires UniqueIds(table)
    requires
      var list := Listed(table, Where(statuses, Cursor(isSpace, updatedAt, jobId)));
      forall p :: PageEnd(offset, p) && p < offset && p <= |list|
                  ==> KeepsPlace(isSpace, table, statuses, list[p - 1].key)
    ensures
      var list := Listed(table, Where(statuses, Cursor(isSpace, updatedAt, jobId)));
      var kept := 0 < offset <= |list| ==> KeepsPlace(isSpace, table, statuses, list[offset - 1].key);
      var agree := Jobs(isSpace, table, statuses, limit, offset, updatedAt, jobId)
                == Listing(isSpace, table, statuses, limit, offset, updatedAt, jobId);
      agree <==> (limit == Some(0) || kept)
  {
    var w := Where(statuses, Cursor(isSpace, updatedAt, jobId));
    JobsRun(isSpace, table, statuses, limit, offset, updatedAt, jobId);
    ListingIs(isSpace, table, statuses, limit, offset, updatedAt, jobId);
    hide Cursor, KeepsPlace, Listed, Listing, Jobs;
    if 0 < offset <= |Listed(table, w)| {
      PlaceLimited(isSpace, table, w, offset - 1, limit);
    }
  }

  lemma {:induction false} ListingIs(isSpace: char -> bool, table: seq<Row>, statuses: set<string>, limit: Option<int>,
                                     offset: int, updatedAt: string, jobId: string)
    ensures Listing(isSpace, table, statuses, limit, offset, updatedAt, jobId) ==
            Take(Drop(Listed(table, Where(statuses, Cursor(isSpace, updatedAt, jobId))), Max(0, offset)), limit)
  {}

  /** Every call from this starting point returns what plain offset and limit give. */
  ghost predicate AllCallsAgree(isSpace: char -> bool, table: seq<Row>, statuses: set<string>, updatedAt: string,
      jobId: string)
  {
    forall limit, offset :: Jobs(isSpace, table, statuses, limit, offset, updatedAt, jobId)
                         == Listing(isSpace, table, statuses, limit, offset, updatedAt, jobId)
  }

  /**
   `list_generate_jobs` is plain offset and limit for every offset and limit
   exactly when the key of every listed row keeps its place.
   */
  lemma {:induction false} ListingExact(isSpace: char -> bool, table: seq<Row>, statuses: set<string>,
                                        updatedAt: string, jobId: string)
    requires UniqueIds(table)
    ensures
      AllCallsAgree(isSpace, table, statuses, updatedAt, jobId) <==>
      forall r :: r in Listed(table, Where(statuses, Cursor(isSpace, updatedAt, jobId)))
                  ==> KeepsPlace(isSpace, table, statuses, r.key)
  {
    hide Cursor, KeepsPlace, Listed, Listing, Jobs;
    var list := Listed(table, Where(statuses, Cursor(isSpace, updatedAt, jobId)));
    if AllCallsAgree(isSpace, table, statuses, updatedAt, jobId) {
      AgreeingKeeps(isSpace, table, statuses, updatedAt, jobId, |list|);
    }
    if forall r :: r in list ==> KeepsPlace(isSpace, table, statuses, r.key) {
      forall limit, offset
        ensures Jobs(isSpace, table, statuses, limit, offset, updatedAt, jobId)
             == Listing(isSpace, table, statuses, limit, offset, updatedAt, jobId)
      {
        forall p | PageEnd(offset, p) && p <= |list|
          ensures KeepsPlace(isSpace, table, statuses, list[p - 1].key)
        {
          assert list[p - 1] in list;
        }
        assert offset > 0 ==> PageEnd(offset, offset);
        CallExact(isSpace, table, statuses, limit, offset, updatedAt, jobId);
      }
    }
  }

  /** Keys as the queue writes them, non-empty and without surrounding white space, always keep their place. */
  lemma {:induction false} CleanListing(isSpace: char -> bool, table: seq<Row>, statuses: set<string>,
                                        updatedAt: string, jobId: string)
    requires UniqueIds(table) && forall r :: r in table && Matches(Where(statuses, None), r) ==>
            CleanKey(isSpace, r.key)
    ensures AllCallsAgree(isSpace, table, statuses, updatedAt, jobId)
  {
    hide Cursor, KeepsPlace, Listed, AllCallsAgree, CleanKey;
    var w := Where(statuses, Cursor(isSpace, updatedAt, jobId));
    forall r | r in Listed(table, w)
      ensures KeepsPlace(isSpace, table, statuses, r.key)
    {
      InListed(table, w, r);
      CleanKeepsPlace(isSpace, table, statuses, r.key);
    }
    ListingExact(isSpace, table, statuses, updatedAt, jobId);
  }

  lemma {:induction false} AgreeingKeeps(isSpace: char -> bool, table: seq<Row>, statuses: set<string>,
                                         updatedAt: string, jobId: string, n: nat)
    requires UniqueIds(table) && AllCallsAgree(isSpace, table, statuses, updatedAt, jobId)
    requires n <= |Listed(table, Where(statuses, Cursor(isSpace, updatedAt, jobId)))|
    ensures
      var list := Listed(table, Where(statuses, Cursor(isSpace, updatedAt, jobId)));
      forall i :: 0 <= i < n ==> KeepsPlace(isSpace, table, statuses, list[i].key)
  {
    hide Cursor, KeepsPlace, Listed, Listing, Jobs;
    if n > 0 {
      AgreeingKeeps(isSpace, table, statuses, updatedAt, jobId, n - 1);
      CallExact(isSpace, table, statuses, None, n, updatedAt, jobId);
    }
  }

  /** Stripping an already stripped cursor changes nothing. */
  lemma {:induction false} FirstCursor(isSpace: char -> bool, updatedAt: string, jobId: string)
    ensures
      var u, j := Strip(isSpace, updatedAt), Strip(isSpace, jobId);
      && Cursor(isSpace, u, j) == Cursor(isSpace, updatedAt, jobId)
      && ((u != "") != (j != "") ==> Cursor(isSpace, "", "") == Cursor(isSpace, updatedAt, jobId))
  {
    StripIsTrimmed(isSpace, updatedAt);
    StripIsTrimmed(isSpace, jobId);
    StripTrimmed(isSpace, Strip(isSpace, updatedAt));
    StripTrimmed(isSpace, Strip(isSpace, jobId));
  }

  /**
   A stored timestamp that is only white space loses its place: `updated_at or now`
   keeps it, since it is not empty, but as a cursor it is stripped to nothing. The
   page loop starts over, so asking for the second of two jobs returns the first.
   */
  lemma {:induction false} BlankTimestampRepeats(isSpace: char -> bool)
    requires isSpace(' ') && !isSpace('a') && !isSpace('b')
    ensures
      var table := [Row(Key(" ", "b"), "", ""), Row(Key(" ", "a"), "", "")];
      && UniqueIds(table)
      && Jobs(isSpace, table, {}, Some(1), 1, "", "") == [table[0]]
      && Listing(isSpace, table, {}, Some(1), 1, "", "") == [table[1]]
  {
    var r0, r1 := Row(Key(" ", "b"), "", ""), Row(Key(" ", "a"), "", "");
    var table := [r0, r1];
    TwoBlankRows();
    assert Strip(isSpace, " ") == "";
    assert Cursor(isSpace, "", "") == None && Cursor(isSpace, " ", "b") == None;
    JobsRun(isSpace, table, {}, Some(1), 1, "", "");
  }

  lemma {:induction false} TwoBlankRows()
    ensures
      var table := [Row(Key(" ", "b"), "", ""), Row(Key(" ", "a"), "", "")];
      Listed(table, Where({}, None)) == table
  {
    var r0, r1 := Row(Key(" ", "b"), "", ""), Row(Key(" ", "a"), "", "");
    var w := Where({}, None);
    assert [r0, r1][1..] == [r1] && [r1][1..] == [];
    assert Select([r1], w) == [r1];
    assert Select([r0, r1], w) == [r0, r1];
    assert Less("a", "b") && !Less("b", "a");
    LessTotal(" ", " ");
    assert NewestFirst([r1]) == [r1];
  }
}
