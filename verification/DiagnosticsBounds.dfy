/**
 What the sizes of diagnostics measure, that no more is cut than the budgets ask for,
 and that small values are recorded as they are - backend/app/core/diagnostics.py.
 */
module DiagnosticsBounds {
  import opened Common
  import opened Text
  import opened Diagnostics

  // ---- sizes are those of the JSON text ---------------------------------------

  type Bytes = seq<nat>

  function Hex(n: nat): nat
    requires n < 16
  {
    if n < 10 then 48 + n else 87 + n
  }

  /** One character inside a JSON string, in UTF-8. */
  function CharBytes(c: char): Bytes {
    var n := c as int;
    if n == 34 then [92, 34]
    else if n == 92 then [92, 92]
    else if n == 10 then [92, 110]
    else if n == 13 then [92, 114]
    else if n == 9 then [92, 116]
    else if n == 8 then [92, 98]
    else if n == 12 then [92, 102]
    else if n < 32 then [92, 117, 48, 48, Hex(n / 16), Hex(n % 16)]
    else if n < 128 then [n]
    else if n < 2048 then [192 + n / 64, 128 + n % 64]
    else if n < 65536 then [224 + n / 4096, 128 + n / 64 % 64, 128 + n % 64]
    else [240 + n / 262144, 128 + n / 4096 % 64, 128 + n / 64 % 64, 128 + n % 64]
  }

  function CharsBytes(s: string): Bytes {
    if s == "" then [] else CharBytes(s[0]) + CharsBytes(s[1..])
  }

  function TextBytes(s: string): Bytes { [34] + CharsBytes(s) + [34] }

  /** Parts separated by commas. */
  function Commas(parts: seq<Bytes>): Bytes {
    if parts == [] then []
    else if |parts| == 1 then parts[0]
    else Commas(parts[..|parts| - 1]) + [44] + parts[|parts| - 1]
  }

  function Scalars(text: string): Bytes { seq(|text|, i requires 0 <= i < |text| => text[i] as nat) }

  /** The compact JSON text of a value; numbers, booleans and null are ASCII. */
  function ValueBytes(v: Json): Bytes
    decreases v, 1 + Width(v)
  {
    match v
    case Scalar(text) => Scalars(text)
    case Str(s) => TextBytes(s)
    case List(_) => [91] + Commas(PartsBytes(v, 0)) + [93]
    case Dict(_) => [123] + Commas(PartsBytes(v, 0)) + [125]
  }

  function PartsBytes(v: Json, i: nat): (parts: seq<Bytes>)
    requires i <= Width(v)
    ensures |parts| == Width(v) - i
    decreases v, Width(v) - i
  {
    if i == Width(v) then []
    else [(if v.Dict? then TextBytes(v.fields[i].key) + [58] else []) + ValueBytes(Part(v, i))] + PartsBytes(v, i + 1)
  }

  function Total(parts: seq<Bytes>): nat {
    if parts == [] then 0 else |parts[0]| + Total(parts[1..])
  }

  lemma {:induction false} TotalLast(parts: seq<Bytes>, last: Bytes)
    ensures Total(parts + [last]) == Total(parts) + |last|
  {
    if parts == [] {
      assert parts + [last] == [last];
    } else {
      assert (parts + [last])[1..] == parts[1..] + [last];
      TotalLast(parts[1..], last);
    }
  }

  lemma {:induction false} CommasSize(parts: seq<Bytes>)
    ensures |Commas(parts)| + 2 == Joined(|parts|, Total(parts))
  {
    if |parts| == 1 {
      assert parts[1..] == [];
    } else if |parts| > 1 {
      var init, last := parts[..|parts| - 1], parts[|parts| - 1];
      CommasSize(init);
      TotalLast(init, last);
      assert parts == init + [last];
    }
  }

  lemma {:induction false} CharIsSized(c: char)
    ensures |CharBytes(c)| == CharSize(c)
  {}

  lemma {:induction false} TextIsSized(s: string)
    ensures |CharsBytes(s)| == CharsSize(s) && |TextBytes(s)| == StringSize(s)
  {
    if s != "" {
      CharIsSized(s[0]);
      TextIsSized(s[1..]);
      hide CharBytes, CharSize;
    }
  }

  /** The size of a value is the number of bytes of its compact JSON text in UTF-8. */
  lemma {:induction false} ValueIsSized(v: Json)
    ensures |ValueBytes(v)| == JsonSize(v)
    decreases v, 1 + Width(v)
  {
    match v
    case Scalar(_) =>
    case Str(s) => TextIsSized(s);
    case _ =>
      PartsAreSized(v, 0);
      CommasSize(PartsBytes(v, 0));
      hide Commas, PartsBytes, PartsSize, Total;
  }

  lemma {:induction false} PartsAreSized(v: Json, i: nat)
    requires i <= Width(v)
    ensures Total(PartsBytes(v, i)) == PartsSize(v, i)
    decreases v, Width(v) - i
  {
    if i < Width(v) {
      ValueIsSized(Part(v, i));
      PartsAreSized(v, i + 1);
      if v.Dict? { TextIsSized(v.fields[i].key); }
      hide ValueBytes, TextBytes, JsonSize, StringSize;
      assert PartsBytes(v, i)[1..] == PartsBytes(v, i + 1);
    }
  }

  /** The fields of a record, first half. */
  function HeadFields(r: Record): seq<Field> {
    [Field("phase", Str(r.phase)), Field("at", Str(r.at))]
    + Optional("http", r.http) + Optional("message", AsJson(r.message))
    + Optional("mapping_path", AsJson(r.mappingPath)) + Optional("error", AsJson(r.error))
  }

  /** A record as the JSON object it is stored as. */
  function RecordJson(r: Record): Json {
    Dict(HeadFields(r) + Optional("extra", r.extra) + Optional("snapshot", r.snapshot) + Optional("omitted", r.omitted)
         + Optional("truncated", if r.truncated then Some(Scalar("true")) else None))
  }

  function AsJson(s: Option<string>): Option<Json> { if s.None? then None else Some(Str(s.value)) }

  function Optional(key: string, value: Option<Json>): seq<Field> {
    if value.None? then [] else [Field(key, value.value)]
  }

  /** Keys, values, colons and quotes of some fields. */
  function FieldsSize(fields: seq<Field>): nat {
    if fields == [] then 0 else StringSize(fields[0].key) + 1 + JsonSize(fields[0].value) + FieldsSize(fields[1..])
  }

  lemma {:induction false} FieldsJoin(a: seq<Field>, b: seq<Field>)
    ensures FieldsSize(a + b) == FieldsSize(a) + FieldsSize(b)
  {
    if a == [] {
      assert a + b == b;
    } else {
      assert (a + b)[1..] == a[1..] + b;
      FieldsJoin(a[1..], b);
    }
  }

  lemma {:induction false} PartsAreFields(fields: seq<Field>, i: nat)
    requires i <= |fields|
    ensures PartsSize(Dict(fields), i) == FieldsSize(fields[i..])
    decreases |fields| - i
  {
    hide JsonSize, StringSize;
    if i < |fields| {
      PartsAreFields(fields, i + 1);
      assert fields[i..][1..] == fields[i + 1..];
    } else {
      assert fields[i..] == [];
    }
  }

  /** Size of a dictionary: its fields, a comma between them, and the braces. */
  lemma {:induction false} DictSize(fields: seq<Field>)
    ensures JsonSize(Dict(fields)) == if fields == [] then 2 else 1 + |fields| + FieldsSize(fields)
  {
    PartsAreFields(fields, 0);
    assert fields[0..] == fields;
    hide FieldsSize;
  }

  /** A key of plain characters takes its length and two quotes. */
  lemma {:induction false} PlainKey(key: string)
    requires forall i :: 0 <= i < |key| ==> 'a' <= key[i] <= 'z' || key[i] == '_'
    ensures StringSize(key) == 2 + |key|
  {
    if key != "" { PlainKey(key[1..]); }
  }

  /** An optional field with its comma. */
  lemma {:induction false} OptionalSize(key: string, value: Option<Json>)
    requires forall i :: 0 <= i < |key| ==> 'a' <= key[i] <= 'z' || key[i] == '_'
    ensures |Optional(key, value)| + FieldsSize(Optional(key, value)) == JsonField(|key|, value)
  {
    PlainKey(key);
    hide JsonSize, StringSize;
    if value.Some? {
      assert [Field(key, value.value)][1..] == [];
      assert FieldsSize([]) == 0;
    }
  }

  lemma {:induction false} WithOptional(fields: seq<Field>, key: string, value: Option<Json>)
    requires forall i :: 0 <= i < |key| ==> 'a' <= key[i] <= 'z' || key[i] == '_'
    ensures
      var more := fields + Optional(key, value);
      |more| + FieldsSize(more) == |fields| + FieldsSize(fields) + JsonField(|key|, value)
  {
    OptionalSize(key, value);
    FieldsJoin(fields, Optional(key, value));
    hide FieldsSize, Optional, JsonField;
  }

  /** The size of a record is that of the JSON object it is stored as. */
  lemma {:induction false} RecordIsSized(r: Record)
    ensures RecordSize(r) == JsonSize(RecordJson(r)) == |ValueBytes(RecordJson(r))|
  {
    ValueIsSized(RecordJson(r));
    RecordFields(r);
    hide ValueBytes, StringSize, FieldsSize;
    DictSize(RecordJson(r).fields);
  }

  lemma {:induction false} HeadSize(r: Record)
    ensures HeadFields(r) != []
    ensures |HeadFields(r)| + FieldsSize(HeadFields(r)) ==
            TextField(5, Some(r.phase)) + TextField(2, Some(r.at)) + JsonField(4, r.http) + TextField(7, r.message)
            + TextField(12, r.mappingPath) + TextField(5, r.error)
  {
    hide FieldsSize, Optional, JsonSize, StringSize, JsonField, TextField;
    StartSize(r);
    TextSizes(r);
    var a := [Field("phase", Str(r.phase)), Field("at", Str(r.at))];
    WithOptional(a, "http", r.http);
    var b := a + Optional("http", r.http);
    WithOptional(b, "message", AsJson(r.message));
    var c := b + Optional("message", AsJson(r.message));
    WithOptional(c, "mapping_path", AsJson(r.mappingPath));
    WithOptional(c + Optional("mapping_path", AsJson(r.mappingPath)), "error", AsJson(r.error));
  }

  lemma {:induction false} RecordFields(r: Record)
    ensures RecordJson(r).fields != []
    ensures 1 + |RecordJson(r).fields| + FieldsSize(RecordJson(r).fields) == RecordSize(r)
  {
    hide FieldsSize, Optional, JsonSize, StringSize, JsonField, TextField, FlagField, HeadFields;
    HeadSize(r);
    TextSizes(r);
    var a := HeadFields(r);
    WithOptional(a, "extra", r.extra);
    var b := a + Optional("extra", r.extra);
    WithOptional(b, "snapshot", r.snapshot);
    var c := b + Optional("snapshot", r.snapshot);
    WithOptional(c, "omitted", r.omitted);
    WithOptional(c + Optional("omitted", r.omitted), "truncated", if r.truncated then Some(Scalar("true")) else None);
  }

  lemma {:induction false} StartSize(r: Record)
    ensures
      var start := [Field("phase", Str(r.phase)), Field("at", Str(r.at))];
      |start| + FieldsSize(start) == TextField(5, Some(r.phase)) + TextField(2, Some(r.at))
  {
    OptionalSize("phase", Some(Str(r.phase)));
    OptionalSize("at", Some(Str(r.at)));
    FieldsJoin(Optional("phase", Some(Str(r.phase))), Optional("at", Some(Str(r.at))));
    assert Optional("phase", Some(Str(r.phase))) + Optional("at", Some(Str(r.at)))
        == [Field("phase", Str(r.phase)), Field("at", Str(r.at))];
    hide FieldsSize, StringSize;
  }

  lemma {:induction false} TextSizes(r: Record)
    ensures JsonField(7, AsJson(r.message)) == TextField(7, r.message)
    ensures JsonField(12, AsJson(r.mappingPath)) == TextField(12, r.mappingPath)
    ensures JsonField(5, AsJson(r.error)) == TextField(5, r.error)
    ensures JsonField(9, if r.truncated then Some(Scalar("true")) else None) == FlagField(9, r.truncated)
  {
    hide StringSize;
  }

  function StagesJson(stages: seq<Record>): seq<Json> {
    seq(|stages|, i requires 0 <= i < |stages| => RecordJson(stages[i]))
  }

  /** A payload as the JSON object it is given out as. */
  function PayloadJson(p: Payload): Json {
    Dict([Field("stages", List(StagesJson(p.stages)))]
         + Optional("code", if p.code == "" then None else Some(Str(p.code)))
         + Optional("recovery", if p.recovery == [] then None else Some(Dict(p.recovery)))
         + Optional("truncated", if p.truncated then Some(Scalar("true")) else None))
  }

  lemma {:induction false} StagesSize(stages: seq<Record>, i: nat)
    requires i <= |stages|
    ensures PartsSize(List(StagesJson(stages)), i) == StagesTotal(stages[i..])
    decreases |stages| - i
  {
    hide RecordSize, RecordJson, JsonSize;
    if i < |stages| {
      RecordIsSized(stages[i]);
      StagesSize(stages, i + 1);
      assert stages[i..][1..] == stages[i + 1..] && stages[i..][0] == stages[i];
      assert Part(List(StagesJson(stages)), i) == RecordJson(stages[i]);
    } else {
      assert stages[i..] == [];
    }
  }

  lemma {:induction false} FirstFieldSize(stages: seq<Record>)
    ensures
      var first := [Field("stages", List(StagesJson(stages)))];
      |first| + FieldsSize(first) == 6 + 4 + Joined(|stages|, StagesTotal(stages))
  {
    StagesSize(stages, 0);
    assert stages[0..] == stages;
    PlainKey("stages");
    hide PartsSize, StringSize, StagesTotal, RecordJson;
    var first := [Field("stages", List(StagesJson(stages)))];
    assert first[1..] == [] && FieldsSize([]) == 0;
  }

  /** The size of a payload is that of the JSON object it is given out as. */
  lemma {:induction false} PayloadIsSized(p: Payload)
    ensures PayloadSize(p) == JsonSize(PayloadJson(p)) == |ValueBytes(PayloadJson(p))|
  {
    ValueIsSized(PayloadJson(p));
    PayloadFields(p);
    hide ValueBytes, StringSize, FieldsSize, StagesJson;
    DictSize(PayloadJson(p).fields);
  }

  lemma {:induction false} PayloadFields(p: Payload)
    ensures PayloadJson(p).fields != []
    ensures 1 + |PayloadJson(p).fields| + FieldsSize(PayloadJson(p).fields) == PayloadSize(p)
  {
    hide FieldsSize, Optional, JsonSize, StringSize, StagesJson, StagesTotal, Joined;
    FirstFieldSize(p.stages);
    var code, recovery := if p.code == "" then None else Some(Str(p.code)), if p.recovery == [] then None
        else Some(Dict(p.recovery));
    var a := [Field("stages", List(StagesJson(p.stages)))];
    WithOptional(a, "code", code);
    var b := a + Optional("code", code);
    WithOptional(b, "recovery", recovery);
    WithOptional(b + Optional("recovery", recovery), "truncated", if p.truncated then Some(Scalar("true")) else None);
    CodeSizes(p);
  }

  lemma {:induction false} CodeSizes(p: Payload)
    ensures JsonField(4, if p.code == "" then None else Some(Str(p.code))) == if p.code == "" then 0
            else TextField(4, Some(p.code))
    ensures JsonField(9, if p.truncated then Some(Scalar("true")) else None) == FlagField(9, p.truncated)
  {
    hide StringSize;
  }

  // ---- no more is cut than needed ---------------------------------------------

  /** The payload with the snapshots of its first `n` records dropped. */
  function FirstStripped(p: Payload, n: nat): Payload
    requires n <= |p.stages|
  {
    p.(stages := seq(|p.stages|, i requires 0 <= i < |p.stages| => if i < n then Stripped(p.stages[i])
        else p.stages[i]))
  }

  lemma {:induction false} StripOneMore(p: Payload, i: nat)
    requires i < |p.stages|
    ensures StripAt(FirstStripped(p, i), i) == FirstStripped(p, i + 1)
  {}

  /** Snapshots go from the oldest record on, and only until the payload fits. */
  lemma {:induction false} StripIsLeast(p: Payload, limit: nat, i: nat) returns (n: nat)
    requires i < |p.stages|
    ensures i < n <= |p.stages| && StripFrom(FirstStripped(p, i), limit, i) == FirstStripped(p, n)
    ensures forall k :: i < k < n ==> PayloadSize(FirstStripped(p, k)) > limit
    ensures n < |p.stages| ==> PayloadSize(FirstStripped(p, n)) <= limit
    decreases |p.stages| - i
  {
    hide PayloadSize;
    StripOneMore(p, i);
    if PayloadSize(FirstStripped(p, i + 1)) <= limit || i + 1 == |p.stages| {
      n := i + 1;
    } else {
      n := StripIsLeast(p, limit, i + 1);
    }
  }

  /** The payload with its newest `k` records. */
  function Latest(p: Payload, k: nat): Payload
    requires k <= |p.stages|
  {
    p.(stages := p.stages[|p.stages| - k..])
  }

  lemma {:induction false} LatestOfRest(p: Payload, k: nat)
    requires k < |p.stages|
    ensures Latest(p.(stages := p.stages[1..]), k) == Latest(p, k)
  {}

  /** Records go from the oldest on, and only until the rest fits. */
  lemma {:induction false} DropIsLeast(p: Payload, limit: nat) returns (n: nat)
    ensures n <= |p.stages| && DropOldest(p, limit) == Latest(p, n)
    ensures forall k :: n < k <= |p.stages| ==> PayloadSize(Latest(p, k)) > limit
    ensures n > 1 ==> PayloadSize(Latest(p, n)) <= limit
    decreases |p.stages|
  {
    hide PayloadSize;
    n := |p.stages|;
    assert Latest(p, n) == p;
    if |p.stages| > 1 && PayloadSize(p) > limit {
      var rest := p.(stages := p.stages[1..]);
      n := DropIsLeast(rest, limit);
      LatestOfRest(p, n);
      forall k | n < k <= |p.stages|
        ensures PayloadSize(Latest(p, k)) > limit
      {
        if k < |p.stages| { LatestOfRest(p, k); }
      }
    }
  }

  /** Once more than twelve records were finished, the newest twelve are kept, in order. */
  lemma {:induction false} NewestAreKept(records: seq<Record>)
    ensures |records| <= 12 ==> Newest(records) == records
    ensures |records| > 12 ==> |Newest(records)| == 12
    ensures forall k :: 0 <= k < |Newest(records)| ==> Newest(records)[k] == records[|records| - |Newest(records)| + k]
  {}

  /** The limits of one record, and what is left of one that cannot be made to fit otherwise. */
  lemma {:induction false} RecordLimits(r: Record)
    ensures RecordSize(r) <= 8192 ==> Finished(r) == r
    ensures
      var short := Stripped(r).(extra := None,
                                message := if r.message.Some? then Some(Cut(r.message.value, 500)) else None,
                                error := if r.error.Some? then Some(Cut(r.error.value, 500)) else None);
      RecordSize(r) > 8192 && RecordSize(Stripped(r)) > 8192 ==>
        Finished(r) == if RecordSize(short) <= 8192 then short
                       else Record(r.phase[..Min(100, |r.phase|)], r.at, None, None, None, None, None, None, None, true)
  {
    hide RecordSize;
  }

  // ---- small values -----------------------------------------------------------

  ghost predicate DistinctKeys(fields: seq<Field>) {
    forall i, j :: 0 <= i < j < |fields| ==> fields[i].key != fields[j].key
  }

  /** Text that the redaction leaves alone and that is neither long nor an image. */
  predicate PlainText(rules: Rules, s: string) { rules.redact(s) == s && |s| <= 2000 && !("data:image/" <= s) }

  /** At most so many levels deep, twenty wide, with plain texts and keys that are not sensitive. */
  ghost predicate Small(rules: Rules, v: Json, levels: int)
    decreases v
  {
    levels >= 0 &&
    match v
    case Scalar(_) => true
    case Str(s) => PlainText(rules, s)
    case List(items) => |items| <= 20 && forall i :: 0 <= i < |items| ==> Small(rules, items[i], levels - 1)
    case Dict(fields) =>
      && |fields| <= 20 && DistinctKeys(fields)
      && forall i :: 0 <= i < |fields| ==>
           && rules.redact(fields[i].key) == fields[i].key && |fields[i].key| <= 2000
           && !rules.sensitive(fields[i].key) && Small(rules, fields[i].value, levels - 1)
  }

  ghost predicate IsNew(fields: seq<Field>, key: string) {
    forall i :: 0 <= i < |fields| ==> fields[i].key != key
  }

  lemma {:induction false} PutNew(fields: seq<Field>, key: string, value: Json)
    requires IsNew(fields, key)
    ensures Put(fields, key, value) == fields + [Field(key, value)]
  {
    if fields != [] { PutNew(fields[1..], key, value); }
  }

  /** A small value is recorded as it is, and nothing is noted. */
  lemma {:induction false} SmallIsKept(rules: Rules, v: Json, depth: nat)
    requires depth <= 8 && Small(rules, v, 8 - depth)
    ensures Bound(rules, v, depth) == Bounded(v, [])
    decreases v, 1 + Width(v)
  {
    match v
    case Scalar(_) =>
    case Str(_) =>
    case List(items) =>
      SmallItems(rules, v, depth, |items|);
      assert items[..|items|] == items;
      hide BoundItems;
    case Dict(fields) =>
      SmallFields(rules, v, depth, |fields|);
      assert fields[..|fields|] == fields;
      hide BoundFields;
  }

  lemma {:induction false} SmallItems(rules: Rules, v: Json, depth: nat, n: nat)
    requires v.List? && n <= |v.items| && depth <= 8 && Small(rules, v, 8 - depth)
    ensures BoundItems(rules, v, depth, n) == Bounded(List(v.items[..n]), [])
    decreases v, n
  {
    hide *;
    if n == 0 {
      NoItems(rules, v, depth);
    } else {
      SmallItems(rules, v, depth, n - 1);
      SmallItem(rules, v, 8 - depth, n - 1);
      SmallIsKept(rules, v.items[n - 1], depth + 1);
      NextItem(rules, v, depth, n);
    }
  }

  lemma {:induction false} NoItems(rules: Rules, v: Json, depth: nat)
    requires v.List?
    ensures BoundItems(rules, v, depth, 0) == Bounded(List(v.items[..0]), [])
  {
    hide Bound;
  }

  /** The next item of a list, when nothing about it is cut. */
  lemma {:induction false} NextItem(rules: Rules, v: Json, depth: nat, n: nat)
    requires v.List? && 0 < n <= |v.items| && BoundItems(rules, v, depth, n - 1) == Bounded(List(v.items[..n - 1]), [])
    requires Bound(rules, v.items[n - 1], depth + 1) == Bounded(v.items[n - 1], [])
    ensures BoundItems(rules, v, depth, n) == Bounded(List(v.items[..n]), [])
  {
    hide Bound;
    assert v.items[..n] == v.items[..n - 1] + [v.items[n - 1]];
  }

  lemma {:induction false} SmallItem(rules: Rules, v: Json, levels: int, i: nat)
    requires v.List? && i < |v.items| && Small(rules, v, levels)
    ensures Small(rules, v.items[i], levels - 1) && levels >= 1
  {
    SmallLevels(rules, v.items[i], levels - 1);
  }

  lemma {:induction false} SmallLevels(rules: Rules, v: Json, levels: int)
    requires Small(rules, v, levels)
    ensures levels >= 0
  {}

  /** The next field of a dictionary, when nothing about it is cut or hidden. */
  lemma {:induction false} NextField(rules: Rules, v: Json, depth: nat, n: nat)
    requires v.Dict? && 0 < n <= |v.fields| &&
            BoundFields(rules, v, depth, n - 1) == Bounded(Dict(v.fields[..n - 1]), [])
    requires
      var f := v.fields[n - 1];
      && rules.redact(f.key) == f.key && |f.key| <= 2000 && !rules.sensitive(f.key)
      && Bound(rules, f.value, depth + 1) == Bounded(f.value, [])
      && IsNew(v.fields[..n - 1], f.key)
    ensures BoundFields(rules, v, depth, n) == Bounded(Dict(v.fields[..n]), [])
  {
    var f := v.fields[n - 1];
    PutNew(v.fields[..n - 1], f.key, f.value);
    FieldPut(rules, v, depth, n);
    FieldNoted(rules, v, depth, n);
    hide Bound, BoundFields, Put;
    assert f == Field(f.key, f.value);
    assert v.fields[..n] == v.fields[..n - 1] + [f];
  }

  lemma {:induction false} FieldNoted(rules: Rules, v: Json, depth: nat, n: nat)
    requires v.Dict? && 0 < n <= |v.fields|
    ensures
      var f := v.fields[n - 1];
      BoundFields(rules, v, depth, n).omitted ==
        BoundFields(rules, v, depth, n - 1).omitted +
        if rules.sensitive(f.key) then [] else Bound(rules, f.value, depth + 1).omitted
  {
    hide Bound, Put, Cut;
  }

  lemma {:induction false} SmallFields(rules: Rules, v: Json, depth: nat, n: nat)
    requires v.Dict? && n <= |v.fields| && depth <= 8 && Small(rules, v, 8 - depth)
    ensures BoundFields(rules, v, depth, n) == Bounded(Dict(v.fields[..n]), [])
    decreases v, n
  {
    hide *;
    if n == 0 {
      NoFields(rules, v, depth);
    } else {
      SmallFields(rules, v, depth, n - 1);
      SmallField(rules, v, 8 - depth, n - 1);
      SmallIsKept(rules, v.fields[n - 1].value, depth + 1);
      NextField(rules, v, depth, n);
    }
  }

  lemma {:induction false} NoFields(rules: Rules, v: Json, depth: nat)
    requires v.Dict?
    ensures BoundFields(rules, v, depth, 0) == Bounded(Dict(v.fields[..0]), [])
  {
    hide Bound;
  }

  lemma {:induction false} SmallField(rules: Rules, v: Json, levels: int, i: nat)
    requires v.Dict? && i < |v.fields| && Small(rules, v, levels)
    ensures
      var f := v.fields[i];
      && Small(rules, f.value, levels - 1) && levels >= 1 && rules.redact(f.key) == f.key && |f.key| <= 2000
      && !rules.sensitive(f.key) && IsNew(v.fields[..i], f.key)
  {
    SmallLevels(rules, v.fields[i].value, levels - 1);
  }

  // ---- sensitive values -------------------------------------------------------

  /** The same but for what stands under sensitive keys. */
  ghost predicate Alike(rules: Rules, v: Json, w: Json)
    decreases v
  {
    match v
    case List(items) =>
      w.List? && |items| == |w.items| && forall i :: 0 <= i < |items| ==> Alike(rules, items[i], w.items[i])
    case Dict(fields) =>
      && w.Dict? && |fields| == |w.fields|
      && forall i :: 0 <= i < |fields| ==>
           && fields[i].key == w.fields[i].key
           && (rules.sensitive(fields[i].key) || Alike(rules, fields[i].value, w.fields[i].value))
    case _ => v == w
  }

  /** What stands under a sensitive key, at any depth, has no part in what is recorded. */
  lemma {:induction false} SensitiveIsHidden(rules: Rules, v: Json, w: Json, depth: nat)
    requires Alike(rules, v, w)
    ensures Bound(rules, v, depth) == Bound(rules, w, depth)
    decreases v, 1 + Width(v)
  {
    if depth <= MAX_DEPTH {
      match v
      case List(items) =>
        HiddenItems(rules, v, w, depth, Min(MAX_ARRAY_ITEMS, |items|));
        hide BoundItems, Decimal;
      case Dict(fields) =>
        HiddenFields(rules, v, w, depth, Min(MAX_ARRAY_ITEMS, |fields|));
        hide BoundFields, Decimal, Put;
      case _ =>
    }
  }

  lemma {:induction false} HiddenItems(rules: Rules, v: Json, w: Json, depth: nat, n: nat)
    requires v.List? && Alike(rules, v, w) && n <= |v.items|
    ensures BoundItems(rules, v, depth, n) == BoundItems(rules, w, depth, n)
    decreases v, n
  {
    if n > 0 {
      HiddenItems(rules, v, w, depth, n - 1);
      assert Alike(rules, v.items[n - 1], w.items[n - 1]);
      SensitiveIsHidden(rules, v.items[n - 1], w.items[n - 1], depth + 1);
      hide Bound, Alike;
    }
  }

  lemma {:induction false} HiddenFields(rules: Rules, v: Json, w: Json, depth: nat, n: nat)
    requires v.Dict? && Alike(rules, v, w) && n <= |v.fields|
    ensures BoundFields(rules, v, depth, n) == BoundFields(rules, w, depth, n)
    decreases v, n
  {
    if n > 0 {
      HiddenFields(rules, v, w, depth, n - 1);
      var f, g := v.fields[n - 1], w.fields[n - 1];
      assert f.key == g.key && (rules.sensitive(f.key) || Alike(rules, f.value, g.value));
      if !rules.sensitive(f.key) { SensitiveIsHidden(rules, f.value, g.value, depth + 1); }
      hide Bound, Alike, Put, Cut;
    }
  }

  // ---- what is noted ----------------------------------------------------------

  /** Nothing of it is too long, too wide, too deep or an image, leaving aside what stands under sensitive keys. */
  ghost predicate Shown(rules: Rules, v: Json, levels: int)
    decreases v
  {
    levels >= 0 &&
    match v
    case Scalar(_) => true
    case Str(s) => |rules.redact(s)| <= 2000 && !("data:image/" <= rules.redact(s))
    case List(items) => |items| <= 20 && forall i :: 0 <= i < |items| ==> Shown(rules, items[i], levels - 1)
    case Dict(fields) =>
      && |fields| <= 20
      && forall i :: 0 <= i < |fields| ==> rules.sensitive(fields[i].key) || Shown(rules, fields[i].value, levels - 1)
  }

  /** Something is noted as omitted exactly when something was, at any depth. */
  lemma {:induction false} NotedExactly(rules: Rules, v: Json, depth: nat)
    ensures Bound(rules, v, depth).omitted == [] <==> Shown(rules, v, 8 - depth)
    decreases v, 1 + Width(v)
  {
    if depth <= MAX_DEPTH {
      match v
      case Scalar(_) =>
      case Str(s) =>
        TextBounds(rules, s, depth);
        hide Bound;
      case List(items) =>
        NotedItems(rules, v, depth, Min(MAX_ARRAY_ITEMS, |items|));
        hide BoundItems, Decimal;
      case Dict(fields) =>
        NotedFields(rules, v, depth, Min(MAX_ARRAY_ITEMS, |fields|));
        hide BoundFields, Decimal, Put;
    }
  }

  lemma {:induction false} NotedItems(rules: Rules, v: Json, depth: nat, n: nat)
    requires v.List? && n <= |v.items|
    ensures BoundItems(rules, v, depth, n).omitted == [] <==>
            forall i :: 0 <= i < n ==> Shown(rules, v.items[i], 7 - depth)
    decreases v, n
  {
    hide Bound, Shown;
    if n > 0 {
      NotedItems(rules, v, depth, n - 1);
      NotedExactly(rules, v.items[n - 1], depth + 1);
    }
  }

  lemma {:induction false} NotedFields(rules: Rules, v: Json, depth: nat, n: nat)
    requires v.Dict? && n <= |v.fields|
    ensures BoundFields(rules, v, depth, n).omitted == [] <==>
            forall i :: 0 <= i < n ==> rules.sensitive(v.fields[i].key) || Shown(rules, v.fields[i].value, 7 - depth)
    decreases v, n
  {
    hide Bound, Shown, Put, Cut;
    if n > 0 {
      NotedFields(rules, v, depth, n - 1);
      NotedExactly(rules, v.fields[n - 1].value, depth + 1);
    }
  }

  function PrintedKey(rules: Rules, key: string): string {
    if |rules.redact(key)| <= 2000 then rules.redact(key) else rules.redact(key)[..2000]
  }

  /** What is recorded for an entry of a dictionary: a sensitive value shows that it was there and no more. */
  function PrintedField(rules: Rules, f: Field, depth: nat): Field {
    Field(PrintedKey(rules, f.key),
          if rules.sensitive(f.key) then Str("[REDACTED]") else Bound(rules, f.value, depth + 1).value)
  }

  /** Each of the first entries is recorded, unless a later one has the same key as printed. */
  lemma {:induction false} FieldStands(rules: Rules, v: Json, depth: nat, n: nat, i: nat)
    requires v.Dict? && i < n <= |v.fields|
    requires forall j :: i < j < n ==> PrintedKey(rules, v.fields[j].key) != PrintedKey(rules, v.fields[i].key)
    ensures PrintedField(rules, v.fields[i], depth) in BoundFields(rules, v, depth, n).value.fields
    decreases n
  {
    var f := v.fields[n - 1];
    KeysDiffer(rules, v, depth, n - 1);
    PutReplaces(BoundFields(rules, v, depth, n - 1).value.fields, PrintedKey(rules, f.key),
                PrintedField(rules, f, depth).value);
    FieldPut(rules, v, depth, n);
    hide Bound, BoundFields, Put, PrintedKey;
    if i < n - 1 { FieldStands(rules, v, depth, n - 1, i); }
  }

  lemma {:induction false} FieldPut(rules: Rules, v: Json, depth: nat, n: nat)
    requires v.Dict? && 0 < n <= |v.fields|
    ensures
      var f := PrintedField(rules, v.fields[n - 1], depth);
      BoundFields(rules, v, depth, n).value.fields ==
        Put(BoundFields(rules, v, depth, n - 1).value.fields, f.key, f.value)
  {
    hide Bound, Put;
  }

  lemma {:induction false} KeysDiffer(rules: Rules, v: Json, depth: nat, n: nat)
    requires v.Dict? && n <= |v.fields|
    ensures DistinctKeys(BoundFields(rules, v, depth, n).value.fields)
    decreases n
  {
    if n > 0 {
      KeysDiffer(rules, v, depth, n - 1);
      FieldPut(rules, v, depth, n);
      var f := PrintedField(rules, v.fields[n - 1], depth);
      PutReplaces(BoundFields(rules, v, depth, n - 1).value.fields, f.key, f.value);
      hide Bound, BoundFields, Put;
    }
  }

  /** A dictionary of at most twenty entries has each of them under its printed key, the last of equal ones. */
  lemma {:induction false} EntriesStand(rules: Rules, fields: seq<Field>, depth: nat, i: nat)
    requires depth <= 8 && i < |fields| <= 20
    requires forall j :: i < j < |fields| ==> PrintedKey(rules, fields[j].key) != PrintedKey(rules, fields[i].key)
    ensures
      var kept := Bound(rules, Dict(fields), depth).value;
      kept.Dict? && PrintedField(rules, fields[i], depth) in kept.fields
  {
    FieldStands(rules, Dict(fields), depth, |fields|, i);
    hide BoundFields, PrintedField, PrintedKey, Put;
  }

  /** Text that is an image or cannot be shown whole, and what is noted of it. */
  lemma {:induction false} TextBounds(rules: Rules, s: string, depth: nat)
    requires depth <= 8
    ensures
      var r, b := rules.redact(s), Bound(rules, Str(s), depth);
      && ("data:image/" <= r || (|r| > 2000 && rules.base64(r)) ==>
            b == Bounded(Str("[image data omitted]"), ["binary payload (" + Decimal(|r|) + " chars)"]))
      && (!("data:image/" <= r) && |r| > 2000 && !rules.base64(r) ==>
            b == Bounded(Str(r[..2000] + "...[truncated]"), [Decimal(|r| - 2000) + " string chars"]))
      && (!("data:image/" <= r) && |r| <= 2000 ==> b == Bounded(Str(r), []))
  {
    hide Decimal;
  }

  /** Of a long list the first twenty items are recorded, and how many more there were. */
  lemma {:induction false} LongList(rules: Rules, items: seq<Json>, depth: nat)
    requires depth <= 8 && |items| > 20
    ensures
      var kept := Bound(rules, List(items), depth).value;
      && kept.List? && |kept.items| == 21 && kept.items[20] == Str("[" + Decimal(|items| - 20) + " more items omitted]")
      && forall i :: 0 <= i < 20 ==> kept.items[i] == Bound(rules, items[i], depth + 1).value
  {
    ItemsInOrder(rules, List(items), depth, 20);
    hide BoundItems, Decimal;
  }

  lemma {:induction false} ItemsInOrder(rules: Rules, v: Json, depth: nat, n: nat)
    requires v.List? && n <= |v.items|
    ensures
      var kept := BoundItems(rules, v, depth, n).value.items;
      |kept| == n && forall i :: 0 <= i < n ==> kept[i] == Bound(rules, v.items[i], depth + 1).value
    decreases n
  {
    hide Bound;
    if n > 0 { ItemsInOrder(rules, v, depth, n - 1); }
  }

  /** Recovery fields are replaced by later ones of the same key, and kept otherwise. */
  lemma {:induction false} PutReplaces(fields: seq<Field>, key: string, value: Json)
    requires DistinctKeys(fields)
    ensures DistinctKeys(Put(fields, key, value))
    ensures Field(key, value) in Put(fields, key, value)
    ensures forall f: Field :: f.key != key ==> (f in Put(fields, key, value) <==> f in fields)
  {
    if fields != [] {
      var head, tail := fields[0], fields[1..];
      assert fields == [head] + tail;
      if head.key == key {
        forall f: Field | f.key != key
          ensures f in Put(fields, key, value) <==> f in fields
        {}
      } else {
        PutReplaces(tail, key, value);
        var after := Put(tail, key, value);
        forall i | 0 <= i < |after|
          ensures after[i].key != head.key
        {
          if after[i].key != key {
            assert after[i] in after && after[i] in tail;
            var j :| 0 <= j < |tail| && tail[j] == after[i];
            assert fields[j + 1] == tail[j];
          }
        }
      }
    }
  }
}
