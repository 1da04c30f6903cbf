/**
 The JSONPath subset of the provider mapping: parsing, printing and selection -
 backend/app/core/provider_mapping.py. Digits are ASCII digits, and which
 characters are white space is a parameter.
 */
module ProviderPaths {
  import opened Common
  import opened Text

  const MAX_PATH_TOKENS := 12

  datatype Field = Field(name: string, value: Json)

  /** JSON values, with the sentinel that stands for an omitted field while a template is rendered. */
  datatype Json =
    | Null | Bool(b: bool) | Number(n: int) | Str(s: string)
    | List(items: seq<Json>) | Dict(fields: seq<Field>)
    | Omit

  datatype Token = Key(name: string) | Index(n: nat) | Wildcard

  // ---- tokens in text ---------------------------------------------------------

  predicate IdentStart(c: char) { 'A' <= c <= 'Z' || 'a' <= c <= 'z' || c == '_' }

  predicate KeyChar(c: char) { IdentStart(c) || IsDigit(c) || c == '-' }

  function KeyRun(s: string): (n: nat)
    ensures n <= |s|
  {
    if s == "" || !KeyChar(s[0]) then 0 else 1 + KeyRun(s[1..])
  }

  function DigitRun(s: string): (n: nat)
    ensures n <= |s|
  {
    if s == "" || !IsDigit(s[0]) then 0 else 1 + DigitRun(s[1..])
  }

  datatype Match = NoMatch | Match(token: Token, length: nat)

  /** `_PATH_TOKEN.match` at the start of `s`. */
  function MatchToken(s: string): (m: Match)
    ensures m.Match? ==> 0 < m.length <= |s|
  {
    if |s| >= 2 && s[0] == '.' && IdentStart(s[1]) then
      var n := KeyRun(s[1..]);
      Match(Key(s[1..1 + n]), 1 + n)
    else if s != "" && s[0] == '[' then
      var d := DigitRun(s[1..]);
      if 1 <= d <= 4 && d + 1 < |s| && s[d + 1] == ']' then Match(Index(Value(s[1..1 + d])), d + 2)
      else if |s| >= 3 && s[1] == '*' && s[2] == ']' then Match(Wildcard, 3)
      else NoMatch
    else NoMatch
  }

  function Tokens(s: string): Option<seq<Token>>
    decreases |s|
  {
    if s == "" then Some([])
    else
      var m := MatchToken(s);
      if m.NoMatch? then None
      else
        var rest := Tokens(s[m.length..]);
        if rest.None? then None else Some([m.token] + rest.value)
  }

  /** `parse_json_path`; None is a mapping error. */
  function Parse(isSpace: char -> bool, path: string): Option<seq<Token>> {
    var text := Strip(isSpace, path);
    if text == "" || text[0] != '$' then None
    else
      var tokens := Tokens(text[1..]);
      if tokens.Some? && |tokens.value| > MAX_PATH_TOKENS then None else tokens
  }

  lemma {:induction false} TokensStep(s: string, found: seq<Token>)
    requires s != ""
    ensures
      var m := MatchToken(s);
      if m.NoMatch? then Tokens(s).None?
      else
        && Tokens(s).None? == Tokens(s[m.length..]).None?
        && (Tokens(s).Some? ==> found + Tokens(s).value == found + [m.token] + Tokens(s[m.length..]).value)
  {
    hide MatchToken;
    var m := MatchToken(s);
    if m.Match? && Tokens(s[m.length..]).Some? {
      assert found + ([m.token] + Tokens(s[m.length..]).value) == found + [m.token] + Tokens(s[m.length..]).value;
    }
  }

  method ParsePath(isSpace: char -> bool, path: string) returns (tokens: Option<seq<Token>>)
    ensures tokens == Parse(isSpace, path)
  {
    hide MatchToken, Strip, Tokens;
    var text := Strip(isSpace, path);
    if text == "" || text[0] != '$' {
      return None;
    }
    var found: seq<Token> := [];
    var position := 1;
    while position < |text|
      invariant 1 <= position <= |text|
      invariant Tokens(text[1..]).None? == Tokens(text[position..]).None?
      invariant Tokens(text[1..]).Some? ==> found + Tokens(text[position..]).value == Tokens(text[1..]).value
      decreases |text| - position
    {
      var rest := text[position..];
      TokensStep(rest, found);
      var m := MatchToken(rest);
      if m.NoMatch? {
        return None;
      }
      assert rest[m.length..] == text[position + m.length..];
      found := found + [m.token];
      position := position + m.length;
    }
    assert text[position..] == "";
    NoTokens();
    assert found + [] == found;
    if |found| > MAX_PATH_TOKENS {
      return None;
    }
    tokens := Some(found);
  }

  lemma {:induction false} NoTokens()
    ensures Tokens("") == Some([])
  {}

  // ---- printing ---------------------------------------------------------------

  predicate IsKey(name: string) {
    && name != "" && !('0' <= name[0] <= '9') && name[0] != '-'
    && forall i :: 0 <= i < |name| ==>
         'A' <= name[i] <= 'Z' || 'a' <= name[i] <= 'z' || name[i] == '_' || '0' <= name[i] <= '9' || name[i] == '-'
  }

  predicate Legal(t: Token) {
    match t
    case Key(name) => IsKey(name)
    case Index(n) => n <= 9999
    case Wildcard => true
  }

  function PrintToken(t: Token): string {
    match t
    case Key(name) => "." + name
    case Index(n) => "[" + Decimal(n) + "]"
    case Wildcard => "[*]"
  }

  function PrintTokens(tokens: seq<Token>): string {
    if tokens == [] then "" else PrintToken(tokens[0]) + PrintTokens(tokens[1..])
  }

  function Print(tokens: seq<Token>): string { "$" + PrintTokens(tokens) }

  predicate AllLegal(tokens: seq<Token>) {
    forall i :: 0 <= i < |tokens| ==> Legal(tokens[i])
  }

  /** No visible ASCII character is white space. */
  ghost predicate Sane(isSpace: char -> bool) {
    forall c :: '!' <= c <= '~' ==> !isSpace(c)
  }

  lemma {:induction false} KeyRunStops(name: string, rest: string)
    requires forall i :: 0 <= i < |name| ==> KeyChar(name[i])
    requires rest == "" || !KeyChar(rest[0])
    ensures KeyRun(name + rest) == |name|
  {
    if name == "" {
      assert name + rest == rest;
    } else {
      assert (name + rest)[1..] == name[1..] + rest;
      KeyRunStops(name[1..], rest);
    }
  }

  lemma {:induction false} DigitRunStops(digits: string, rest: string)
    requires forall i :: 0 <= i < |digits| ==> IsDigit(digits[i])
    requires rest == "" || !IsDigit(rest[0])
    ensures DigitRun(digits + rest) == |digits|
  {
    if digits == "" {
      assert digits + rest == rest;
    } else {
      assert (digits + rest)[1..] == digits[1..] + rest;
      DigitRunStops(digits[1..], rest);
    }
  }

  lemma {:induction false} DecimalSize(n: nat)
    ensures n <= 9 ==> |Decimal(n)| == 1
    ensures n <= 99 ==> |Decimal(n)| <= 2
    ensures n <= 999 ==> |Decimal(n)| <= 3
    ensures n <= 9999 ==> |Decimal(n)| <= 4
  {
    if n >= 10 { DecimalSize(n / 10); }
  }

  predicate StartsToken(s: string) { s == "" || s[0] == '.' || s[0] == '[' }

  lemma {:induction false} MatchKey(name: string, rest: string)
    requires IsKey(name) && StartsToken(rest)
    ensures MatchToken("." + name + rest) == Match(Key(name), 1 + |name|)
  {
    hide KeyRun;
    var s := "." + name + rest;
    assert s[1..] == name + rest;
    assert s[1] == name[0];
    KeyRunStops(name, rest);
    assert s[1..1 + |name|] == name;
  }

  lemma {:induction false} MatchIndex(digits: string, rest: string)
    requires 1 <= |digits| <= 4 && forall i :: 0 <= i < |digits| ==> IsDigit(digits[i])
    ensures MatchToken("[" + digits + "]" + rest) == Match(Index(Value(digits)), |digits| + 2)
  {
    hide DigitRun, Value, KeyRun;
    var s := "[" + digits + "]" + rest;
    assert s[1..] == digits + ("]" + rest);
    DigitRunStops(digits, "]" + rest);
    assert s[1..1 + |digits|] == digits && s[|digits| + 1] == ']';
  }

  lemma {:induction false} MatchWildcard(rest: string)
    ensures MatchToken("[*]" + rest) == Match(Wildcard, 3)
  {
    hide Value, KeyRun;
    var s := "[*]" + rest;
    assert s[1] == '*' && s[2] == ']';
    assert s[1..][0] == '*';
  }

  /** A printed token is matched back whole, whatever token follows. */
  lemma {:induction false} MatchPrinted(t: Token, rest: string)
    requires Legal(t) && StartsToken(rest)
    ensures MatchToken(PrintToken(t) + rest) == Match(t, |PrintToken(t)|)
  {
    hide MatchToken, Decimal, Value, IsKey;
    match t
    case Key(name) => MatchKey(name, rest);
    case Index(n) =>
      DecimalValue(n);
      DecimalSize(n);
      MatchIndex(Decimal(n), rest);
    case Wildcard => MatchWildcard(rest);
  }

  lemma {:induction false} PrintStarts(tokens: seq<Token>)
    ensures StartsToken(PrintTokens(tokens))
  {
    if tokens != [] { assert PrintToken(tokens[0]) != ""; }
  }

  lemma {:induction false} TokensPrinted(tokens: seq<Token>)
    requires AllLegal(tokens)
    ensures Tokens(PrintTokens(tokens)) == Some(tokens)
  {
    if tokens != [] {
      var t, rest := tokens[0], PrintTokens(tokens[1..]);
      PrintStarts(tokens[1..]);
      assert Legal(t);
      assert AllLegal(tokens[1..]) by {
        assert forall i :: 0 <= i < |tokens[1..]| ==> tokens[1..][i] == tokens[i + 1];
      }
      TokensPrinted(tokens[1..]);
      hide MatchToken, PrintToken, Legal;
      MatchPrinted(t, rest);
      var s := PrintToken(t) + rest;
      assert s[|PrintToken(t)|..] == rest;
      assert tokens == [t] + tokens[1..];
    }
  }

  lemma {:induction false} PrintedLast(tokens: seq<Token>, isSpace: char -> bool)
    requires AllLegal(tokens) && Sane(isSpace) && tokens != []
    ensures PrintTokens(tokens) != "" && !isSpace(PrintTokens(tokens)[|PrintTokens(tokens)| - 1])
  {
    var t := tokens[0];
    assert Legal(t);
    if |tokens| == 1 {
      assert PrintTokens(tokens[1..]) == "";
      var s := PrintToken(t);
      assert PrintTokens(tokens) == s;
      if t.Key? {
        assert s[|s| - 1] == t.name[|t.name| - 1];
      } else {
        assert s[|s| - 1] == ']';
      }
    } else {
      assert forall i :: 0 <= i < |tokens[1..]| ==> tokens[1..][i] == tokens[i + 1];
      PrintedLast(tokens[1..], isSpace);
    }
  }

  /** Parsing the printed form of legal tokens gives them back, up to the depth the parser accepts and no further. */
  lemma {:induction false} ParsePrint(isSpace: char -> bool, tokens: seq<Token>)
    requires AllLegal(tokens) && Sane(isSpace)
    ensures Parse(isSpace, Print(tokens)) == if |tokens| <= 12 then Some(tokens) else None
  {
    var s := Print(tokens);
    TokensPrinted(tokens);
    if tokens != [] { PrintedLast(tokens, isSpace); }
    assert s[1..] == PrintTokens(tokens);
    hide Tokens, PrintTokens;
    assert Trimmed(isSpace, s) by {
      assert s[0] == '$';
      assert s[|s| - 1] == if tokens == [] then '$' else PrintTokens(tokens)[|PrintTokens(tokens)| - 1];
      PrintNothing();
    }
    StripTrimmed(isSpace, s);
  }

  lemma {:induction false} PrintNothing()
    ensures PrintTokens([]) == ""
  {}

  lemma {:induction false} KeyRunChars(s: string)
    ensures forall i :: 0 <= i < KeyRun(s) ==> KeyChar(s[i])
  {
    if s != "" && KeyChar(s[0]) { KeyRunChars(s[1..]); }
  }

  lemma {:induction false} MatchedIsLegal(s: string)
    requires MatchToken(s).Match?
    ensures Legal(MatchToken(s).token)
  {
    var t := MatchToken(s).token;
    if t.Key? {
      KeyRunChars(s[1..]);
      assert KeyRun(s[1..]) > 0;
    } else if t.Index? {
      ValueBound(s[1..1 + DigitRun(s[1..])]);
    }
  }

  lemma {:induction false} ValueBound(s: string)
    ensures |s| == 0 ==> Value(s) == 0
    ensures |s| <= 1 ==> Value(s) <= 9
    ensures |s| <= 2 ==> Value(s) <= 99
    ensures |s| <= 3 ==> Value(s) <= 999
    ensures |s| <= 4 ==> Value(s) <= 9999
  {
    if s != "" { ValueBound(s[..|s| - 1]); }
  }

  /** Whatever the parser accepts prints to a canonical form that parses to the same tokens. */
  lemma {:induction false} ParsedIsLegal(isSpace: char -> bool, path: string)
    requires Sane(isSpace) && Parse(isSpace, path).Some?
    ensures
      var tokens := Parse(isSpace, path).value;
      && |tokens| <= MAX_PATH_TOKENS && AllLegal(tokens)
      && Parse(isSpace, Print(tokens)) == Some(tokens)
  {
    TokensAreLegal(Strip(isSpace, path)[1..]);
    ParsePrint(isSpace, Parse(isSpace, path).value);
  }

  lemma {:induction false} TokensAreLegal(s: string)
    ensures Tokens(s).Some? ==> AllLegal(Tokens(s).value)
    decreases |s|
  {
    hide MatchToken, Legal;
    if s != "" && MatchToken(s).Match? {
      MatchedIsLegal(s);
      TokensAreLegal(s[MatchToken(s).length..]);
    }
  }

  // ---- selection --------------------------------------------------------------

  /** Position of the field with this name, or -1. */
  function FieldAt(fields: seq<Field>, name: string): (i: int)
    ensures -1 <= i < |fields|
    ensures i >= 0 ==> fields[i].name == name
  {
    if fields == [] then -1
    else if fields[0].name == name then 0
    else
      var rest := FieldAt(fields[1..], name);
      if rest == -1 then -1 else rest + 1
  }

  /** What one token selects in one value. */
  function SelectOne(node: Json, t: Token): seq<Json> {
    match t
    case Wildcard => if node.List? then node.items else []
    case Index(n) => if node.List? && n < |node.items| then [node.items[n]] else []
    case Key(name) =>
      if node.Dict? && FieldAt(node.fields, name) >= 0 then [node.fields[FieldAt(node.fields, name)].value] else []
  }

  function Frontier(current: seq<Json>, t: Token): seq<Json> {
    if current == [] then [] else SelectOne(current[0], t) + Frontier(current[1..], t)
  }

  function SelectFrom(current: seq<Json>, tokens: seq<Token>): seq<Json>
    decreases |tokens|
  {
    if tokens == [] then current else SelectFrom(Frontier(current, tokens[0]), tokens[1..])
  }

  function Select(data: Json, tokens: seq<Token>): seq<Json> { SelectFrom([data], tokens) }

  /** `select_all` after parsing. */
  method SelectAll(data: Json, tokens: seq<Token>) returns (current: seq<Json>)
    ensures current == Select(data, tokens)
  {
    hide Frontier;
    current := [data];
    assert tokens[0..] == tokens;
    for i := 0 to |tokens|
      invariant SelectFrom(current, tokens[i..]) == Select(data, tokens)
    {
      assert tokens[i..][0] == tokens[i] && tokens[i..][1..] == tokens[i + 1..];
      current := Following(current, tokens[i]);
    }
    assert tokens[|tokens|..] == [];
  }

  method Following(current: seq<Json>, t: Token) returns (following: seq<Json>)
    ensures following == Frontier(current, t)
  {
    hide SelectOne, Frontier;
    FrontierNone(t);
    following := [];
    assert current[0..] == current;
    for i := 0 to |current|
      invariant following + Frontier(current[i..], t) == Frontier(current, t)
    {
      FrontierStep(current, i, t);
      ghost var before := following;
      following := following + SelectOne(current[i], t);
      assert before + (SelectOne(current[i], t) + Frontier(current[i + 1..], t)) ==
          following + Frontier(current[i + 1..], t);
    }
    assert current[|current|..] == [];
  }

  lemma {:induction false} FrontierNone(t: Token)
    ensures Frontier([], t) == []
  {}

  lemma {:induction false} FrontierStep(current: seq<Json>, i: nat, t: Token)
    requires i < |current|
    ensures Frontier(current[i..], t) == SelectOne(current[i], t) + Frontier(current[i + 1..], t)
  {
    assert current[i..][0] == current[i] && current[i..][1..] == current[i + 1..];
  }

  lemma {:induction false} SelectFromJoin(current: seq<Json>, p: seq<Token>, q: seq<Token>)
    ensures SelectFrom(current, p + q) == SelectFrom(SelectFrom(current, p), q)
    decreases |p|
  {
    if p == [] {
      assert p + q == q;
    } else {
      assert (p + q)[0] == p[0] && (p + q)[1..] == p[1..] + q;
      SelectFromJoin(Frontier(current, p[0]), p[1..], q);
    }
  }

  lemma {:induction false} FrontierJoin(a: seq<Json>, b: seq<Json>, t: Token)
    ensures Frontier(a + b, t) == Frontier(a, t) + Frontier(b, t)
  {
    hide SelectOne;
    if a == [] {
      assert a + b == b;
    } else {
      assert (a + b)[0] == a[0] && (a + b)[1..] == a[1..] + b;
      FrontierJoin(a[1..], b, t);
    }
  }

  lemma {:induction false} SelectFromSplit(a: seq<Json>, b: seq<Json>, q: seq<Token>)
    ensures SelectFrom(a + b, q) == SelectFrom(a, q) + SelectFrom(b, q)
    decreases |q|
  {
    if q != [] {
      FrontierJoin(a, b, q[0]);
      SelectFromSplit(Frontier(a, q[0]), Frontier(b, q[0]), q[1..]);
    }
  }

  lemma {:induction false} SelectNothing(q: seq<Token>)
    ensures SelectFrom([], q) == []
    decreases |q|
  {
    if q != [] { SelectNothing(q[1..]); }
  }

  /** The selections of several values, one after the other. */
  function SelectEach(values: seq<Json>, q: seq<Token>): seq<Json> {
    if values == [] then [] else Select(values[0], q) + SelectEach(values[1..], q)
  }

  lemma {:induction false} SelectEachIs(values: seq<Json>, q: seq<Token>)
    ensures SelectEach(values, q) == SelectFrom(values, q)
  {
    if values == [] {
      SelectNothing(q);
    } else {
      SelectEachIs(values[1..], q);
      hide SelectFrom;
      SelectFromSplit([values[0]], values[1..], q);
      assert [values[0]] + values[1..] == values;
    }
  }

  /** Selecting along `p + q` is selecting along `q` in each value selected along `p`, in order. */
  lemma {:induction false} SelectCompose(data: Json, p: seq<Token>, q: seq<Token>)
    ensures Select(data, p + q) == SelectEach(Select(data, p), q)
  {
    SelectFromJoin([data], p, q);
    SelectEachIs(Select(data, p), q);
  }

  /** A path without `[*]` selects at most one value. */
  lemma {:induction false} SelectAtMostOne(current: seq<Json>, tokens: seq<Token>)
    requires |current| <= 1 && forall i :: 0 <= i < |tokens| ==> !tokens[i].Wildcard?
    ensures |SelectFrom(current, tokens)| <= 1
    decreases |tokens|
  {
    if tokens != [] {
      if current != [] {
        assert current[1..] == [];
        assert Frontier(current, tokens[0]) == SelectOne(current[0], tokens[0]) + [];
      }
      SelectAtMostOne(Frontier(current, tokens[0]), tokens[1..]);
    }
  }
}
