/**
 Size-bounded diagnostics of one unit: `UnitDiagnostics` and `_bounded_value` -
 backend/app/core/diagnostics.py. Sizes are those of the compact JSON text in
 UTF-8. Redaction and the recognition of sensitive keys and of base64 are parameters.
 */
module Diagnostics {
  import opened Common
  import opened Text

  const MAX_RECORDS := 12
  const MAX_RECORD_BYTES := 8192
  const MAX_STRING_CHARS := 2000
  const MAX_ARRAY_ITEMS := 20
  const MAX_DEPTH := 8
  const CODE_CHARS := 128
  const MIN_PAYLOAD_BYTES := 1024

  datatype Field = Field(key: string, value: Json)

  /** Numbers, booleans and null are their JSON text. */
  datatype Json = Scalar(text: string) | Str(s: string) | List(items: seq<Json>) | Dict(fields: seq<Field>)

  // ---- sizes ------------------------------------------------------------------

  /** Bytes of one character in a JSON string: escapes, control characters, UTF-8. */
  function CharSize(c: char): (n: nat)
    ensures 1 <= n <= 6
  {
    if c in {'\"', '\\', '\n', '\r', '\t'} || c as int == 8 || c as int == 12 then 2
    else if c as int < 0x20 then 6
    else if c as int < 0x80 then 1
    else if c as int < 0x800 then 2
    else if c as int < 0x10000 then 3
    else 4
  }

  function CharsSize(s: string): nat {
    if s == "" then 0 else CharSize(s[0]) + CharsSize(s[1..])
  }

  function StringSize(s: string): nat { 2 + CharsSize(s) }

  lemma {:induction false} CharsSizeBound(s: string)
    ensures |s| <= CharsSize(s) <= 6 * |s|
  {
    if s != "" { CharsSizeBound(s[1..]); }
  }

  /** Brackets and separating commas around parts of these sizes. */
  function Joined(count: nat, total: nat): nat {
    if count == 0 then 2 else 1 + total + count
  }

  function JsonSize(v: Json): nat
    decreases v, 1 + Width(v)
  {
    match v
    case Scalar(text) => |text|
    case Str(s) => StringSize(s)
    case _ => Joined(Width(v), PartsSize(v, 0))
  }

  function Width(v: Json): nat {
    if v.List? then |v.items| else if v.Dict? then |v.fields| else 0
  }

  function Part(v: Json, i: nat): Json
    requires i < Width(v)
  {
    if v.List? then v.items[i] else v.fields[i].value
  }

  function PartsSize(v: Json, i: nat): nat
    requires i <= Width(v)
    decreases v, Width(v) - i
  {
    if i == Width(v) then 0
    else (if v.Dict? then StringSize(v.fields[i].key) + 1 else 0) + JsonSize(Part(v, i)) + PartsSize(v, i + 1)
  }

  /** A record; `None` fields are absent. */
  datatype Record = Record(
    phase: string, at: string, http: Option<Json>, message: Option<string>, mappingPath: Option<string>,
    error: Option<string>, extra: Option<Json>, snapshot: Option<Json>, omitted: Option<Json>, truncated: bool)

  /** A field with its comma: quoted key, colon, value. */
  function JsonField(keySize: nat, value: Option<Json>): nat {
    if value.None? then 0 else keySize + 4 + JsonSize(value.value)
  }

  function TextField(keySize: nat, value: Option<string>): nat {
    if value.None? then 0 else keySize + 4 + StringSize(value.value)
  }

  function FlagField(keySize: nat, value: bool): nat { if value then keySize + 4 + 4 else 0 }

  /** `_encode(record)` in bytes: two braces, one comma fewer than there are fields. */
  function RecordSize(r: Record): nat {
    1 + TextField(5, Some(r.phase)) + TextField(2, Some(r.at)) + JsonField(4, r.http) + TextField(7, r.message)
    + TextField(12, r.mappingPath) + TextField(5, r.error) + JsonField(5, r.extra) + JsonField(8, r.snapshot)
    + JsonField(7, r.omitted) + FlagField(9, r.truncated)
  }

  function StagesTotal(stages: seq<Record>): nat {
    if stages == [] then 0 else RecordSize(stages[0]) + StagesTotal(stages[1..])
  }

  datatype Payload = Payload(stages: seq<Record>, code: string, recovery: seq<Field>, truncated: bool)

  function PayloadSize(p: Payload): nat {
    1 + (6 + 4 + Joined(|p.stages|, StagesTotal(p.stages)))
    + (if p.code == "" then 0 else TextField(4, Some(p.code)))
    + (if p.recovery == [] then 0 else JsonField(8, Some(Dict(p.recovery))))
    + FlagField(9, p.truncated)
  }

  // ---- one record -------------------------------------------------------------

  function Cut(s: string, n: nat): string { if |s| <= n then s else s[..n] }

  function CutText(s: Option<string>, n: nat): Option<string> {
    if s.None? then None else Some(Cut(s.value, n))
  }

  function WithoutSnapshot(r: Record): Record {
    if RecordSize(r) > MAX_RECORD_BYTES then r.(snapshot := None, truncated := true) else r
  }

  function WithoutExtra(r: Record): Record {
    if RecordSize(r) > MAX_RECORD_BYTES then
      r.(extra := None, message := CutText(r.message, 500), error := CutText(r.error, 500))
    else r
  }

  function Minimal(r: Record): Record {
    Record(Cut(r.phase, 100), r.at, None, None, None, None, None, None, None, true)
  }

  /** The record as it is kept. */
  function Finished(r: Record): Record {
    var smaller := WithoutExtra(WithoutSnapshot(r));
    if RecordSize(smaller) > MAX_RECORD_BYTES then Minimal(smaller) else smaller
  }

  lemma {:induction false} MinimalFits(r: Record)
    requires |r.at| <= 64
    ensures RecordSize(Minimal(r)) <= MAX_RECORD_BYTES
  {
    CharsSizeBound(Cut(r.phase, 100));
    CharsSizeBound(r.at);
  }

  /** Every kept record fits, a record that fits is kept as it is, and the marker says which. */
  lemma {:induction false} FinishedExact(r: Record)
    requires |r.at| <= 64 && !r.truncated
    ensures RecordSize(Finished(r)) <= MAX_RECORD_BYTES
    ensures Finished(r).at == r.at && Finished(r).phase <= r.phase
    ensures RecordSize(r) <= MAX_RECORD_BYTES ==> Finished(r) == r
    ensures Finished(r).truncated <==> RecordSize(r) > MAX_RECORD_BYTES
  {
    hide RecordSize;
    var smaller := WithoutExtra(WithoutSnapshot(r));
    MinimalFits(smaller);
  }

  // ---- the payload ------------------------------------------------------------

  function Stripped(r: Record): Record { r.(snapshot := None, truncated := true) }

  function StripAt(p: Payload, i: nat): Payload
    requires i < |p.stages|
  {
    p.(stages := p.stages[i := Stripped(p.stages[i])])
  }

  /** Snapshots dropped from position `i` on until the payload fits. */
  function StripFrom(p: Payload, limit: nat, i: nat): Payload
    requires i <= |p.stages|
    decreases |p.stages| - i
  {
    if i == |p.stages| then p
    else
      var q := StripAt(p, i);
      if PayloadSize(q) <= limit then q else StripFrom(q, limit, i + 1)
  }

  /** The oldest records dropped until the payload fits or one is left. */
  function DropOldest(p: Payload, limit: nat): Payload
    decreases |p.stages|
  {
    if |p.stages| <= 1 || PayloadSize(p) <= limit then p
    else DropOldest(p.(stages := p.stages[1..]), limit)
  }

  function Shrunk(p: Payload, limit: nat): Payload {
    var stripped := if PayloadSize(p) > limit then StripFrom(p, limit, 0) else p;
    var fewer := DropOldest(stripped, limit);
    if PayloadSize(fewer) > limit then Payload([], fewer.code, [], true) else fewer
  }

  /** However large the records are, the payload fits, markers included. */
  lemma {:induction false} ShrunkFits(p: Payload, limit: nat)
    requires limit >= MIN_PAYLOAD_BYTES && |p.code| <= CODE_CHARS
    ensures PayloadSize(Shrunk(p, limit)) <= limit
    ensures Shrunk(p, limit).code == p.code
  {
    var stripped := if PayloadSize(p) > limit then StripFrom(p, limit, 0) else p;
    StripKeeps(p, limit, 0);
    DropKeeps(stripped, limit);
    CharsSizeBound(p.code);
    hide StripFrom, DropOldest;
    assert StagesTotal([]) == 0;
  }

  lemma {:induction false} StripKeeps(p: Payload, limit: nat, i: nat)
    requires i <= |p.stages|
    ensures
      var q := StripFrom(p, limit, i);
      && q.code == p.code && q.recovery == p.recovery && q.truncated == p.truncated && |q.stages| == |p.stages|
      && forall j :: 0 <= j < |p.stages| ==> q.stages[j] == p.stages[j] || q.stages[j] == Stripped(p.stages[j])
    decreases |p.stages| - i
  {
    hide PayloadSize;
    if i < |p.stages| { StripKeeps(StripAt(p, i), limit, i + 1); }
  }

  lemma {:induction false} DropKeeps(p: Payload, limit: nat)
    ensures
      var q := DropOldest(p, limit);
      && q.code == p.code && q.recovery == p.recovery && q.truncated == p.truncated
      && |q.stages| <= |p.stages| && q.stages == p.stages[|p.stages| - |q.stages|..]
      && (p.stages != [] ==> q.stages != [])
    decreases |p.stages|
  {
    hide PayloadSize;
    if |p.stages| > 1 && PayloadSize(p) > limit { DropKeeps(p.(stages := p.stages[1..]), limit); }
  }

  /** A payload that fits is given out as it is. */
  lemma {:induction false} ShrunkIntact(p: Payload, limit: nat)
    requires PayloadSize(p) <= limit
    ensures Shrunk(p, limit) == p
  {
    hide PayloadSize;
  }

  /** What is left are the newest records in order, each intact or without its snapshot. */
  lemma {:induction false} ShrunkIsNewest(p: Payload, limit: nat)
    ensures
      var q := Shrunk(p, limit);
      var from := |p.stages| - |q.stages|;
      && from >= 0
      && forall j :: 0 <= j < |q.stages| ==>
           q.stages[j] == p.stages[from + j] || q.stages[j] == Stripped(p.stages[from + j])
  {
    hide PayloadSize;
    var stripped := if PayloadSize(p) > limit then StripFrom(p, limit, 0) else p;
    StripKeeps(p, limit, 0);
    DropKeeps(stripped, limit);
    hide StripFrom, DropOldest;
  }

  /** After all snapshots are gone, dropping goes on until the newest record is alone or everything fits. */
  lemma {:induction false} DropUntilLast(p: Payload, limit: nat)
    requires p.stages != [] && PayloadSize(p.(stages := [p.stages[|p.stages| - 1]])) <= limit
    ensures PayloadSize(DropOldest(p, limit)) <= limit
    decreases |p.stages|
  {
    hide PayloadSize;
    if |p.stages| == 1 {
      assert p.stages == [p.stages[0]];
      assert p.(stages := [p.stages[0]]) == p;
    } else if PayloadSize(p) > limit {
      var q := p.(stages := p.stages[1..]);
      assert q.(stages := [q.stages[|q.stages| - 1]]) == p.(stages := [p.stages[|p.stages| - 1]]);
      DropUntilLast(q, limit);
    }
  }

  lemma {:induction false} StripReachesLast(p: Payload, limit: nat, i: nat)
    requires i < |p.stages|
    ensures |StripFrom(p, limit, i).stages| == |p.stages|
    ensures
      var q := StripFrom(p, limit, i);
      PayloadSize(q) <= limit || q.stages[|q.stages| - 1] == Stripped(p.stages[|p.stages| - 1])
    decreases |p.stages| - i
  {
    hide PayloadSize;
    StripKeeps(p, limit, i);
    var q := StripAt(p, i);
    if PayloadSize(q) > limit && i + 1 < |p.stages| { StripReachesLast(q, limit, i + 1); }
  }

  /** The newest record survives whenever it fits alone without its snapshot. */
  lemma {:induction false} NewestSurvives(p: Payload, limit: nat)
    requires p.stages != [] && !p.truncated
    requires PayloadSize(p.(stages := [Stripped(p.stages[|p.stages| - 1])])) <= limit
    ensures
      var q := Shrunk(p, limit);
      q.stages != [] && !q.truncated && q.recovery == p.recovery
  {
    hide PayloadSize;
    var stripped := if PayloadSize(p) > limit then StripFrom(p, limit, 0) else p;
    StripKeeps(p, limit, 0);
    StripReachesLast(p, limit, 0);
    DropKeeps(stripped, limit);
    if PayloadSize(stripped) > limit {
      assert stripped.(stages := [stripped.stages[|stripped.stages| - 1]])
          == p.(stages := [Stripped(p.stages[|p.stages| - 1])]);
      DropUntilLast(stripped, limit);
    }
  }

  // ---- the recorder -----------------------------------------------------------

  function Newest(records: seq<Record>): (r: seq<Record>)
    ensures |r| <= MAX_RECORDS
  {
    if |records| > MAX_RECORDS then records[|records| - MAX_RECORDS..] else records
  }

  /** `dict.update` with one entry. */
  function Put(fields: seq<Field>, key: string, value: Json): seq<Field> {
    if fields == [] then [Field(key, value)]
    else if fields[0].key == key then [Field(key, value)] + fields[1..]
    else [fields[0]] + Put(fields[1..], key, value)
  }

  function PutAll(fields: seq<Field>, more: seq<Field>): seq<Field> {
    if more == [] then fields
    else Put(PutAll(fields, more[..|more| - 1]), more[|more| - 1].key, more[|more| - 1].value)
  }

  class UnitDiagnostics {
    const maxBytes: nat
    var code: string
    var records: seq<Record>
    var recovery: seq<Field>

    ghost predicate Valid()
      reads this
    {
      && maxBytes >= MIN_PAYLOAD_BYTES && |code| <= CODE_CHARS && |records| <= MAX_RECORDS
      && forall i :: 0 <= i < |records| ==> RecordSize(records[i]) <= MAX_RECORD_BYTES
    }

    constructor (limit: int)
      ensures Valid() && maxBytes == Max(MIN_PAYLOAD_BYTES, limit)
      ensures code == "" && records == [] && recovery == []
    {
      maxBytes := Max(MIN_PAYLOAD_BYTES, limit);
      code, records, recovery := "", [], [];
    }

    /** The first code wins. */
    method SetCode(text: string)
      requires Valid()
      modifies this`code
      ensures Valid()
      ensures code == if text != "" && old(code) == "" then (if |text| <= 128 then text else text[..128]) else old(code)
    {
      hide RecordSize;
      if text != "" && code == "" {
        code := Cut(text, CODE_CHARS);
      }
    }

    method SetRecovery(fields: seq<Field>)
      requires Valid()
      modifies this`recovery
      ensures Valid() && recovery == PutAll(old(recovery), fields)
    {
      hide RecordSize;
      assert fields[..|fields|] == fields;
      for i := 0 to |fields|
        invariant Valid() && recovery == PutAll(old(recovery), fields[..i])
      {
        assert fields[..i + 1][..i] == fields[..i];
        recovery := Put(recovery, fields[i].key, fields[i].value);
      }
    }

    /** `_finish_record` on a record that carries all its fields. */
    method FinishRecord(draft: Record)
      requires Valid() && |draft.at| <= 64 && !draft.truncated
      modifies this`records
      ensures Valid() && records == Newest(old(records) + [Finished(draft)])
    {
      hide RecordSize;
      FinishedExact(draft);
      var record := draft;
      if RecordSize(record) > MAX_RECORD_BYTES {
        record := record.(snapshot := None);
        record := record.(truncated := true);
      }
      if RecordSize(record) > MAX_RECORD_BYTES {
        record := record.(extra := None);
        record := record.(message := CutText(record.message, 500));
        record := record.(error := CutText(record.error, 500));
      }
      if RecordSize(record) > MAX_RECORD_BYTES {
        record := Record(Cut(record.phase, 100), record.at, None, None, None, None, None, None, None, true);
      }
      records := records + [record];
      if |records| > MAX_RECORDS {
        records := records[|records| - MAX_RECORDS..];
      }
    }

    /** `payload`: never larger than the budget; the records themselves are not touched. */
    method MakePayload() returns (p: Payload)
      requires Valid()
      ensures p == Shrunk(Payload(records, code, recovery, false), maxBytes)
      ensures PayloadSize(p) <= maxBytes
    {
      hide RecordSize, PayloadSize;
      p := Payload(records, code, recovery, false);
      ghost var whole := p;
      ShrunkFits(p, maxBytes);
      if PayloadSize(p) > maxBytes {
        p := StripSnapshots(p, maxBytes);
      }
      ghost var stripped := p;
      while |p.stages| > 1 && PayloadSize(p) > maxBytes
        invariant DropOldest(p, maxBytes) == DropOldest(stripped, maxBytes)
        decreases |p.stages|
      {
        p := p.(stages := p.stages[1..]);
      }
      if PayloadSize(p) > maxBytes {
        p := p.(stages := []);
        p := p.(recovery := []);
        p := p.(truncated := true);
      }
    }
  }

  method StripSnapshots(whole: Payload, limit: nat) returns (p: Payload)
    ensures p == StripFrom(whole, limit, 0)
  {
    hide PayloadSize;
    p := whole;
    for i := 0 to |whole.stages|
      invariant |p.stages| == |whole.stages|
      invariant StripFrom(p, limit, i) == StripFrom(whole, limit, 0)
    {
      var record := p.stages[i];
      record := record.(snapshot := None);
      record := record.(truncated := true);
      p := p.(stages := p.stages[i := record]);
      if PayloadSize(p) <= limit {
        return;
      }
    }
  }

  // ---- bounding a value -------------------------------------------------------

  datatype Rules = Rules(redact: string -> string, sensitive: string -> bool, base64: string -> bool)

  /** A bounded value with the notes on what was left out. */
  datatype Bounded = Bounded(value: Json, omitted: seq<string>)

  function MoreItems(n: nat): string { "[" + Decimal(n) + " more items omitted]" }

  function MoreEntries(n: nat): string { Decimal(n) + " more entries" }

  function BoundText(rules: Rules, s: string): Bounded {
    var r := rules.redact(s);
    if "data:image/" <= r || (|r| > MAX_STRING_CHARS && rules.base64(r)) then
      Bounded(Str("[image data omitted]"), ["binary payload (" + Decimal(|r|) + " chars)"])
    else if |r| > MAX_STRING_CHARS then
      Bounded(Str(r[..MAX_STRING_CHARS] + "...[truncated]"), [Decimal(|r| - MAX_STRING_CHARS) + " string chars"])
    else Bounded(Str(r), [])
  }

  /** `_bounded_value`. */
  function Bound(rules: Rules, v: Json, depth: nat): Bounded
    decreases v, 1 + Width(v)
  {
    if depth > MAX_DEPTH then Bounded(Str("[depth limit]"), ["nested value depth limit"])
    else
      match v
      case Dict(fields) =>
        var kept := BoundFields(rules, v, depth, Min(MAX_ARRAY_ITEMS, |fields|));
        if |fields| > MAX_ARRAY_ITEMS then
          Bounded(Dict(Put(kept.value.fields, "_omitted", Str(MoreEntries(|fields| - MAX_ARRAY_ITEMS)))),
                  kept.omitted + ["1 dict entries"])
        else kept
      case List(items) =>
        var kept := BoundItems(rules, v, depth, Min(MAX_ARRAY_ITEMS, |items|));
        if |items| > MAX_ARRAY_ITEMS then
          Bounded(List(kept.value.items + [Str(MoreItems(|items| - MAX_ARRAY_ITEMS))]),
                  kept.omitted + [Decimal(|items| - MAX_ARRAY_ITEMS) + " list items"])
        else kept
      case Str(s) => BoundText(rules, s)
      case Scalar(_) => Bounded(v, [])
  }

  /** The first `n` entries. */
  function BoundFields(rules: Rules, v: Json, depth: nat, n: nat): (b: Bounded)
    requires v.Dict? && n <= |v.fields|
    ensures b.value.Dict?
    decreases v, n
  {
    if n == 0 then Bounded(Dict([]), [])
    else
      var before := BoundFields(rules, v, depth, n - 1);
      var f := v.fields[n - 1];
      var key := Cut(rules.redact(f.key), MAX_STRING_CHARS);
      if rules.sensitive(f.key) then
        Bounded(Dict(Put(before.value.fields, key, Str("[REDACTED]"))), before.omitted)
      else
        var child := Bound(rules, f.value, depth + 1);
        Bounded(Dict(Put(before.value.fields, key, child.value)), before.omitted + child.omitted)
  }

  /** The first `n` items. */
  function BoundItems(rules: Rules, v: Json, depth: nat, n: nat): (b: Bounded)
    requires v.List? && n <= |v.items|
    ensures b.value.List?
    decreases v, n
  {
    if n == 0 then Bounded(List([]), [])
    else
      var before := BoundItems(rules, v, depth, n - 1);
      var child := Bound(rules, v.items[n - 1], depth + 1);
      Bounded(List(before.value.items + [child.value]), before.omitted + child.omitted)
  }

  /** A text that is short and comes out of the redaction, or is one of the recorder's own notes. */
  ghost predicate SafeText(rules: Rules, s: string) {
    || s in {"[image data omitted]", "[depth limit]", "[REDACTED]"}
    || (exists raw: string :: |s| <= MAX_STRING_CHARS && s <= rules.redact(raw))
    || (exists raw: string :: |rules.redact(raw)| > MAX_STRING_CHARS &&
          s == rules.redact(raw)[..MAX_STRING_CHARS] + "...[truncated]")
    || (exists n: nat :: s == MoreItems(n) || s == MoreEntries(n))
  }

  ghost predicate SafeKey(rules: Rules, key: string) {
    key == "_omitted" || exists raw: string :: |key| <= MAX_STRING_CHARS && key <= rules.redact(raw)
  }

  /** At most `levels` deep and 21 wide, with safe texts and keys only. */
  ghost predicate Safe(rules: Rules, v: Json, levels: int)
    decreases v
  {
    match v
    case Scalar(_) => true
    case Str(s) => SafeText(rules, s)
    case List(items) =>
      levels >= 1 && |items| <= MAX_ARRAY_ITEMS + 1 && forall i :: 0 <= i < |items| ==>
          Safe(rules, items[i], levels - 1)
    case Dict(fields) =>
      levels >= 1 && |fields| <= MAX_ARRAY_ITEMS + 1 &&
      forall i :: 0 <= i < |fields| ==> SafeKey(rules, fields[i].key) && Safe(rules, fields[i].value, levels - 1)
  }

  ghost predicate SafeFields(rules: Rules, fields: seq<Field>, levels: int) {
    forall i :: 0 <= i < |fields| ==> SafeKey(rules, fields[i].key) && Safe(rules, fields[i].value, levels)
  }

  lemma {:induction false} PutSafe(rules: Rules, fields: seq<Field>, key: string, value: Json, levels: int)
    requires SafeFields(rules, fields, levels) && SafeKey(rules, key) && Safe(rules, value, levels)
    ensures SafeFields(rules, Put(fields, key, value), levels)
    ensures |fields| <= |Put(fields, key, value)| <= |fields| + 1
  {
    hide SafeKey, Safe;
    if fields != [] && fields[0].key != key {
      assert forall i :: 0 <= i < |fields[1..]| ==> fields[1..][i] == fields[i + 1];
      PutSafe(rules, fields[1..], key, value, levels);
    }
  }

  lemma {:induction false} BoundTextSafe(rules: Rules, s: string, levels: int)
    ensures Safe(rules, BoundText(rules, s).value, levels)
  {
    hide Decimal;
    var r := rules.redact(s);
    assert r <= rules.redact(s);
  }

  lemma {:induction false} NoteSafe(rules: Rules, n: nat, levels: int)
    ensures Safe(rules, Str(MoreItems(n)), levels) && Safe(rules, Str(MoreEntries(n)), levels)
    ensures Safe(rules, Str("[REDACTED]"), levels) && Safe(rules, Str("[depth limit]"), levels)
    ensures SafeKey(rules, "_omitted")
  {
    hide Decimal;
  }

  lemma {:induction false} KeySafe(rules: Rules, raw: string)
    ensures SafeKey(rules, Cut(rules.redact(raw), MAX_STRING_CHARS))
  {}

  /** Whatever is recorded is shallow, narrow and short, and every text in it has been redacted. */
  lemma {:induction false} BoundIsSafe(rules: Rules, v: Json, depth: nat)
    requires depth <= MAX_DEPTH + 1
    ensures Safe(rules, Bound(rules, v, depth).value, MAX_DEPTH + 1 - depth)
    decreases v, 1 + Width(v), 1
  {
    hide SafeText, SafeKey, MoreItems, MoreEntries, Decimal, Put, BoundText;
    if depth > MAX_DEPTH {
      NoteSafe(rules, 0, 0);
    } else {
      match v
      case Dict(_) => BoundDictSafe(rules, v, depth);
      case List(_) => BoundListSafe(rules, v, depth);
      case Str(s) => BoundTextSafe(rules, s, MAX_DEPTH + 1 - depth);
      case Scalar(_) =>
    }
  }

  lemma {:induction false} BoundDictSafe(rules: Rules, v: Json, depth: nat)
    requires v.Dict? && depth <= MAX_DEPTH
    ensures Safe(rules, Bound(rules, v, depth).value, MAX_DEPTH + 1 - depth)
    decreases v, Width(v) + 1, 0
  {
    var levels := MAX_DEPTH - depth;
    var n := Min(MAX_ARRAY_ITEMS, |v.fields|);
    FieldsAreSafe(rules, v, depth, n);
    hide SafeText, SafeKey, MoreItems, MoreEntries, Decimal, BoundFields, Put;
    if |v.fields| > MAX_ARRAY_ITEMS {
      NoteSafe(rules, |v.fields| - MAX_ARRAY_ITEMS, levels);
      PutSafe(rules, BoundFields(rules, v, depth, n).value.fields, "_omitted",
              Str(MoreEntries(|v.fields| - MAX_ARRAY_ITEMS)), levels);
    }
  }

  lemma {:induction false} BoundListSafe(rules: Rules, v: Json, depth: nat)
    requires v.List? && depth <= MAX_DEPTH
    ensures Safe(rules, Bound(rules, v, depth).value, MAX_DEPTH + 1 - depth)
    decreases v, Width(v) + 1, 0
  {
    ItemsAreSafe(rules, v, depth, Min(MAX_ARRAY_ITEMS, |v.items|));
    hide SafeText, SafeKey, MoreItems, MoreEntries, Decimal, BoundItems;
    if |v.items| > MAX_ARRAY_ITEMS {
      NoteSafe(rules, |v.items| - MAX_ARRAY_ITEMS, MAX_DEPTH - depth);
    }
  }

  lemma {:induction false} FieldsAreSafe(rules: Rules, v: Json, depth: nat, n: nat)
    requires v.Dict? && n <= |v.fields| && depth <= MAX_DEPTH
    ensures
      var kept := BoundFields(rules, v, depth, n).value.fields;
      |kept| <= n && SafeFields(rules, kept, MAX_DEPTH - depth)
    decreases v, n
  {
    hide SafeText, SafeKey, Safe, SafeFields, Bound, Cut, Put;
    NoFieldsSafe(rules, MAX_DEPTH - depth);
    if n > 0 {
      FieldsAreSafe(rules, v, depth, n - 1);
      var f := v.fields[n - 1];
      BoundIsSafe(rules, f.value, depth + 1);
      KeySafe(rules, f.key);
      NoteSafe(rules, 0, MAX_DEPTH - depth);
      var value := if rules.sensitive(f.key) then Str("[REDACTED]") else Bound(rules, f.value, depth + 1).value;
      PutSafe(rules, BoundFields(rules, v, depth, n - 1).value.fields, Cut(rules.redact(f.key), MAX_STRING_CHARS),
              value, MAX_DEPTH - depth);
    }
  }

  lemma {:induction false} NoFieldsSafe(rules: Rules, levels: int)
    ensures SafeFields(rules, [], levels)
  {}

  lemma {:induction false} ItemsAreSafe(rules: Rules, v: Json, depth: nat, n: nat)
    requires v.List? && n <= |v.items| && depth <= MAX_DEPTH
    ensures
      var kept := BoundItems(rules, v, depth, n).value.items;
      |kept| == n && forall i :: 0 <= i < n ==> Safe(rules, kept[i], MAX_DEPTH - depth)
    decreases v, n
  {
    if n > 0 {
      ItemsAreSafe(rules, v, depth, n - 1);
      BoundIsSafe(rules, v.items[n - 1], depth + 1);
      hide Safe, Bound;
    }
  }

  /**
   As little as possible is lost: the snapshot alone when that is enough, everything but
   the phase only when nothing else is.
   */
  lemma {:induction false} FinishedLosesLittle(r: Record)
    requires RecordSize(r) > MAX_RECORD_BYTES
    ensures RecordSize(Stripped(r)) <= MAX_RECORD_BYTES ==> Finished(r) == Stripped(r)
    ensures
      var short := Stripped(r).(extra := None, message := CutText(r.message, 500), error := CutText(r.error, 500));
      RecordSize(short) <= MAX_RECORD_BYTES ==>
        && Finished(r).http == r.http && Finished(r).mappingPath == r.mappingPath && Finished(r).omitted == r.omitted
        && (r.error.Some? ==> Finished(r).error.Some? && Finished(r).error.value <= r.error.value)
        && (r.message.Some? ==> Finished(r).message.Some? && Finished(r).message.value <= r.message.value)
  {
    hide RecordSize;
  }
}
