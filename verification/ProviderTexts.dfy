/**
 What the strings of a request template are rendered to: a placeholder character by
 character, and every placeholder of a longer string replaced by its value -
 backend/app/core/provider_mapping.py.
 */
module ProviderTexts {
  import opened Common
  import opened Text
  import opened ProviderPaths
  import opened ProviderTemplates

  predicate NameStart(c: char) { 'A' <= c <= 'Z' || 'a' <= c <= 'z' || c == '_' }

  predicate IsName(name: string) {
    name != "" && NameStart(name[0]) && forall i :: 0 <= i < |name| ==> NameStart(name[i]) || '0' <= name[i] <= '9'
  }

  predicate AllSpace(isSpace: char -> bool, s: string) {
    forall i :: 0 <= i < |s| ==> isSpace(s[i])
  }

  /** Two braces, white space, a name, white space, two braces. */
  predicate PlaceholderParts(isSpace: char -> bool, p: string, left: string, name: string, right: string) {
    p == "{{" + left + name + right + "}}" && AllSpace(isSpace, left) && AllSpace(isSpace, right) && IsName(name)
  }

  ghost predicate IsPlaceholder(isSpace: char -> bool, p: string, name: string) {
    exists left, right :: PlaceholderParts(isSpace, p, left, name, right)
  }

  // ---- runs -------------------------------------------------------------------

  lemma {:induction false} SpaceRunIs(isSpace: char -> bool, a: string, b: string)
    requires AllSpace(isSpace, a) && (b != "" ==> !isSpace(b[0]))
    ensures SpaceRun(isSpace, a + b) == |a|
  {
    if a == "" {
      assert a + b == b;
    } else {
      assert (a + b)[1..] == a[1..] + b;
      SpaceRunIs(isSpace, a[1..], b);
    }
  }

  lemma {:induction false} IdentRunIs(a: string, b: string)
    requires forall i :: 0 <= i < |a| ==> IdentChar(a[i])
    requires b != "" ==> !IdentChar(b[0])
    ensures IdentRun(a + b) == |a|
  {
    if a == "" {
      assert a + b == b;
    } else {
      assert (a + b)[1..] == a[1..] + b;
      IdentRunIs(a[1..], b);
    }
  }

  lemma {:induction false} SpaceRunHas(isSpace: char -> bool, s: string)
    ensures AllSpace(isSpace, s[..SpaceRun(isSpace, s)])
  {
    if s != "" && isSpace(s[0]) {
      SpaceRunHas(isSpace, s[1..]);
      var n := SpaceRun(isSpace, s[1..]);
      assert s[..n + 1] == [s[0]] + s[1..][..n];
    }
  }

  lemma {:induction false} IdentRunHas(s: string)
    ensures forall i :: 0 <= i < IdentRun(s) ==> IdentChar(s[i])
  {
    if s != "" && IdentChar(s[0]) {
      IdentRunHas(s[1..]);
      assert forall i :: 0 < i < |s| ==> s[i] == s[1..][i - 1];
    }
  }

  // ---- placeholders -----------------------------------------------------------

  lemma {:induction false} FoundBy(isSpace: char -> bool, s: string, a: nat, b: nat, c: nat)
    requires "{{" <= s && a == 2 + SpaceRun(isSpace, s[2..]) && a < |s| && IdentStart(s[a])
    requires b == a + IdentRun(s[a..]) && c == b + SpaceRun(isSpace, s[b..]) && "}}" <= s[c..]
    ensures PlaceholderAt(isSpace, s) == Hit(s[a..b], c + 2)
  {
    hide SpaceRun, IdentRun;
  }

  lemma {:induction false} Cuts(left: string, name: string, right: string, after: string)
    ensures
      var s := "{{" + left + name + right + "}}" + after;
      var a := 2 + |left|;
      var b := a + |name|;
      && "{{" <= s && s[2..] == left + (name + (right + ("}}" + after))) && s[a..] == name + (right + ("}}" + after))
      && s[b..] == right + ("}}" + after) && s[b + |right|..] == "}}" + after && s[a..b] == name
      && |s| == b + |right| + 2 + |after|
  {}

  lemma {:induction false} PlaceholderAhead(isSpace: char -> bool, left: string, name: string, right: string,
      after: string)
    requires Sane(isSpace) && AllSpace(isSpace, left) && AllSpace(isSpace, right) && IsName(name)
    ensures
      var p := "{{" + left + name + right + "}}";
      PlaceholderAt(isSpace, p + after) == Hit(name, |p|)
  {
    hide SpaceRun, IdentRun, PlaceholderAt, AllSpace;
    var s := "{{" + left + name + right + "}}" + after;
    var a := 2 + |left|;
    var b := a + |name|;
    Cuts(left, name, right, after);
    SpaceRunIs(isSpace, left, name + (right + ("}}" + after)));
    RightEnds(isSpace, right, after);
    IdentRunIs(name, right + ("}}" + after));
    SpaceRunIs(isSpace, right, "}}" + after);
    FoundBy(isSpace, s, a, b, b + |right|);
  }

  lemma {:induction false} RightEnds(isSpace: char -> bool, right: string, after: string)
    requires Sane(isSpace) && AllSpace(isSpace, right)
    ensures !IdentChar((right + ("}}" + after))[0])
    ensures "}}" <= "}}" + after && !isSpace(("}}" + after)[0])
  {
    var rest := "}}" + after;
    assert rest[0] == '}';
    if right != "" { assert (right + rest)[0] == right[0]; }
  }

  lemma {:induction false} PlaceholderFound(isSpace: char -> bool, s: string)
    requires PlaceholderAt(isSpace, s).Hit?
    ensures
      var h := PlaceholderAt(isSpace, s);
      IsPlaceholder(isSpace, s[..h.length], h.name)
  {
    hide SpaceRun, IdentRun;
    var a := 2 + SpaceRun(isSpace, s[2..]);
    var b := a + IdentRun(s[a..]);
    var c := b + SpaceRun(isSpace, s[b..]);
    SpaceRunHas(isSpace, s[2..]);
    SpaceRunHas(isSpace, s[b..]);
    IdentRunHas(s[a..]);
    IdentRunStarts(s[a..]);
    var left, name, right := s[2..a], s[a..b], s[b..c];
    assert left == s[2..][..a - 2] && right == s[b..][..c - b] && name == s[a..][..b - a];
    assert s[..2] == "{{" && s[c..][..2] == "}}" && s[c..c + 2] == s[c..][..2];
    assert s[..c + 2] == s[..2] + left + name + right + s[c..c + 2];
    assert PlaceholderParts(isSpace, s[..c + 2], left, name, right);
  }

  lemma {:induction false} IdentRunStarts(s: string)
    requires s != "" && IdentStart(s[0])
    ensures IdentRun(s) > 0
  {}

  /** What is found at the start of a string is a placeholder there, with its name, and nothing else is. */
  lemma {:induction false} PlaceholderExact(isSpace: char -> bool, s: string, n: nat, name: string)
    requires Sane(isSpace) && n <= |s|
    ensures IsPlaceholder(isSpace, s[..n], name) <==> PlaceholderAt(isSpace, s) == Hit(name, n)
  {
    hide PlaceholderAt, Sane, AllSpace, IsName;
    if IsPlaceholder(isSpace, s[..n], name) {
      var left, right :| PlaceholderParts(isSpace, s[..n], left, name, right);
      PlaceholderAhead(isSpace, left, name, right, s[n..]);
      assert s == s[..n] + s[n..];
    }
    if PlaceholderAt(isSpace, s) == Hit(name, n) { PlaceholderFound(isSpace, s); }
  }

  // ---- filling ----------------------------------------------------------------

  /** A character that stays, or a placeholder that is replaced. */
  datatype Part = Kept(c: char) | Hole(text: string, name: string)

  function Joined(parts: seq<Part>): string {
    if parts == [] then "" else (if parts[0].Kept? then [parts[0].c] else parts[0].text) + Joined(parts[1..])
  }

  ghost predicate StartsNone(isSpace: char -> bool, s: string) {
    forall n, name :: 0 <= n <= |s| ==> !IsPlaceholder(isSpace, s[..n], name)
  }

  /** Leftmost placeholders first: a character is kept only where none starts. */
  ghost predicate IsCut(isSpace: char -> bool, parts: seq<Part>) {
    parts != [] ==>
      && (if parts[0].Hole? then IsPlaceholder(isSpace, parts[0].text, parts[0].name)
          else StartsNone(isSpace, Joined(parts)))
      && IsCut(isSpace, parts[1..])
  }

  /** The variable may be used and has a value. */
  predicate IsSet(c: Context, name: string) {
    name in c.allowed && name in c.variables && c.variables[name] != Null
  }

  predicate AllSet(c: Context, parts: seq<Part>) {
    forall k :: 0 <= k < |parts| && parts[k].Hole? ==> IsSet(c, parts[k].name)
  }

  /** The literal text, with the value of each variable in place of its placeholder. */
  function FilledText(c: Context, parts: seq<Part>): string
    requires AllSet(c, parts)
  {
    if parts == [] then ""
    else
      (if parts[0].Kept? then [parts[0].c] else c.asText(c.variables[parts[0].name])) + FilledText(c, parts[1..])
  }

  lemma {:induction false} StartsNoneExact(isSpace: char -> bool, s: string)
    requires Sane(isSpace)
    ensures StartsNone(isSpace, s) <==> PlaceholderAt(isSpace, s).NoHit?
  {
    hide PlaceholderAt, IsPlaceholder, Sane;
    var h := PlaceholderAt(isSpace, s);
    if h.Hit? {
      PlaceholderExact(isSpace, s, h.length, h.name);
    } else {
      forall n, name | 0 <= n <= |s|
        ensures !IsPlaceholder(isSpace, s[..n], name)
      {
        PlaceholderExact(isSpace, s, n, name);
      }
    }
  }

  /** What the parts begin with is what is found there. */
  lemma {:induction false} FirstFound(isSpace: char -> bool, parts: seq<Part>)
    requires Sane(isSpace) && IsCut(isSpace, parts) && parts != []
    ensures Joined(parts) != ""
    ensures parts[0].Kept? ==>
              && PlaceholderAt(isSpace, Joined(parts)).NoHit?
              && Joined(parts)[0] == parts[0].c && Joined(parts)[1..] == Joined(parts[1..])
    ensures parts[0].Hole? ==>
              && PlaceholderAt(isSpace, Joined(parts)) == Hit(parts[0].name, |parts[0].text|)
              && |parts[0].text| <= |Joined(parts)| && Joined(parts)[|parts[0].text|..] == Joined(parts[1..])
  {
    var s := Joined(parts);
    if parts[0].Kept? {
      StartsNoneExact(isSpace, s);
    } else {
      var n := |parts[0].text|;
      assert s == parts[0].text + Joined(parts[1..]) && s[..n] == parts[0].text;
      PlaceholderExact(isSpace, s, n, parts[0].name);
    }
    hide PlaceholderAt, IsPlaceholder, StartsNone, Sane;
  }

  /** A longer string is filled in exactly when all its variables are set, and then with their values. */
  lemma {:induction false} FillingIsExact(c: Context, parts: seq<Part>)
    requires Sane(c.isSpace) && IsCut(c.isSpace, parts)
    ensures Filled(c, Joined(parts)) == if AllSet(c, parts) then Some(FilledText(c, parts)) else None
    decreases |parts|
  {
    if parts != [] {
      FirstFound(c.isSpace, parts);
      FilledStep(c, Joined(parts));
      AllSetStep(c, parts);
      CutTail(c.isSpace, parts);
      hide PlaceholderAt, Joined, Sane, IsCut, Filled, AllSet;
      FillingIsExact(c, parts[1..]);
    }
  }

  lemma {:induction false} AllSetStep(c: Context, parts: seq<Part>)
    requires parts != []
    ensures AllSet(c, parts) <==> (parts[0].Hole? ==> IsSet(c, parts[0].name)) && AllSet(c, parts[1..])
  {
    hide IsSet;
    assert forall k :: 0 < k < |parts| ==> parts[k] == parts[1..][k - 1];
    assert forall k :: 0 <= k < |parts[1..]| ==> parts[1..][k] == parts[k + 1];
  }

  lemma {:induction false} FilledStep(c: Context, s: string)
    requires s != ""
    ensures
      var h := PlaceholderAt(c.isSpace, s);
      var rest := Filled(c, s[if h.Hit? then h.length else 1..]);
      Filled(c, s) ==
      if rest.None? || (h.Hit? && !IsSet(c, h.name)) then None
      else Some((if h.Hit? then c.asText(c.variables[h.name]) else [s[0]]) + rest.value)
  {
    hide PlaceholderAt;
  }

  lemma {:induction false} JoinedCons(first: Part, rest: seq<Part>)
    ensures Joined([first] + rest) == (if first.Kept? then [first.c] else first.text) + Joined(rest)
  {
    assert ([first] + rest)[1..] == rest;
  }

  lemma {:induction false} CutCons(isSpace: char -> bool, first: Part, rest: seq<Part>, s: string)
    requires IsCut(isSpace, rest) && s == (if first.Kept? then [first.c] else first.text) + Joined(rest)
    requires if first.Hole? then IsPlaceholder(isSpace, first.text, first.name) else StartsNone(isSpace, s)
    ensures IsCut(isSpace, [first] + rest) && Joined([first] + rest) == s
  {
    hide IsPlaceholder, StartsNone, Joined;
    JoinedCons(first, rest);
    assert ([first] + rest)[1..] == rest;
  }

  lemma {:induction false} FirstPart(isSpace: char -> bool, s: string) returns (first: Part, n: nat)
    requires Sane(isSpace) && s != ""
    ensures 0 < n <= |s| && s == (if first.Kept? then [first.c] else first.text) + s[n..]
    ensures if first.Hole? then IsPlaceholder(isSpace, first.text, first.name) else StartsNone(isSpace, s)
  {
    hide PlaceholderAt, IsPlaceholder, StartsNone, Sane;
    StartsNoneExact(isSpace, s);
    var h := PlaceholderAt(isSpace, s);
    if h.Hit? {
      PlaceholderExact(isSpace, s, h.length, h.name);
      first, n := Hole(s[..h.length], h.name), h.length;
    } else {
      first, n := Kept(s[0]), 1;
    }
  }

  /** Every string has such a cut. */
  lemma {:induction false} CutExists(isSpace: char -> bool, s: string) returns (parts: seq<Part>)
    requires Sane(isSpace)
    ensures IsCut(isSpace, parts) && Joined(parts) == s
    decreases |s|
  {
    if s == "" {
      parts := [];
    } else {
      hide IsPlaceholder, StartsNone, Sane, Joined, IsCut;
      var first, n := FirstPart(isSpace, s);
      var rest := CutExists(isSpace, s[n..]);
      parts := [first] + rest;
      CutCons(isSpace, first, rest, s);
    }
  }

  /** `template_variables` finds the names of the placeholders. */
  lemma {:induction false} NamesAreHoles(isSpace: char -> bool, parts: seq<Part>, name: string)
    requires Sane(isSpace) && IsCut(isSpace, parts)
    ensures name in Names(isSpace, Joined(parts)) <==>
            exists k :: 0 <= k < |parts| && parts[k].Hole? && parts[k].name == name
    decreases |parts|
  {
    if parts != [] {
      FirstFound(isSpace, parts);
      NamesStep(isSpace, Joined(parts));
      hide PlaceholderAt, Joined, Sane, IsCut, Names;
      var rest := parts[1..];
      assert IsCut(isSpace, rest) by { CutTail(isSpace, parts); }
      NamesAreHoles(isSpace, rest, name);
      assert forall k :: 0 < k < |parts| ==> parts[k] == rest[k - 1];
      assert forall k :: 0 <= k < |rest| ==> rest[k] == parts[k + 1];
    }
  }

  lemma {:induction false} CutTail(isSpace: char -> bool, parts: seq<Part>)
    requires IsCut(isSpace, parts) && parts != []
    ensures IsCut(isSpace, parts[1..])
  {}

  lemma {:induction false} NamesStep(isSpace: char -> bool, s: string)
    requires s != ""
    ensures
      var h := PlaceholderAt(isSpace, s);
      Names(isSpace, s) == if h.Hit? then {h.name} + Names(isSpace, s[h.length..]) else Names(isSpace, s[1..])
  {
    hide PlaceholderAt;
  }

  // ---- whole placeholders -----------------------------------------------------

  lemma {:induction false} StripLeftIs(isSpace: char -> bool, a: string, b: string)
    requires AllSpace(isSpace, a) && (b != "" ==> !isSpace(b[0]))
    ensures StripLeft(isSpace, a + b) == b
  {
    if a == "" {
      assert a + b == b;
    } else {
      assert (a + b)[1..] == a[1..] + b;
      StripLeftIs(isSpace, a[1..], b);
    }
  }

  lemma {:induction false} StripRightIs(isSpace: char -> bool, a: string, b: string)
    requires AllSpace(isSpace, b) && (a != "" ==> !isSpace(a[|a| - 1]))
    ensures StripRight(isSpace, a + b) == a
  {
    if b == "" {
      assert a + b == a;
    } else {
      assert (a + b)[..|a + b| - 1] == a + b[..|b| - 1];
      StripRightIs(isSpace, a, b[..|b| - 1]);
    }
  }

  lemma {:induction false} StripLeftHas(isSpace: char -> bool, s: string) returns (a: string)
    ensures AllSpace(isSpace, a) && s == a + StripLeft(isSpace, s)
  {
    a := "";
    if s != "" && isSpace(s[0]) {
      var b := StripLeftHas(isSpace, s[1..]);
      a := [s[0]] + b;
    }
  }

  lemma {:induction false} StripRightHas(isSpace: char -> bool, s: string) returns (b: string)
    ensures AllSpace(isSpace, b) && s == StripRight(isSpace, s) + b
  {
    b := "";
    if s != "" && isSpace(s[|s| - 1]) {
      var a := StripRightHas(isSpace, s[..|s| - 1]);
      b := a + [s[|s| - 1]];
    }
  }

  /** White space, one placeholder, white space. */
  predicate WholeParts(isSpace: char -> bool, s: string, left: string, p: string, right: string) {
    s == left + p + right && AllSpace(isSpace, left) && AllSpace(isSpace, right)
  }

  lemma {:induction false} WholeAhead(isSpace: char -> bool, left: string, p: string, right: string, name: string)
    requires Sane(isSpace) && AllSpace(isSpace, left) && AllSpace(isSpace, right) && IsPlaceholder(isSpace, p, name)
    ensures Whole(isSpace, left + p + right) == Some(name)
  {
    var l, r :| PlaceholderParts(isSpace, p, l, name, r);
    assert p[0] == '{' && p[|p| - 1] == '}';
    assert left + p + right == left + (p + right) && (p + right)[0] == p[0];
    StripLeftIs(isSpace, left, p + right);
    StripRightIs(isSpace, p, right);
    assert p[..|p|] == p;
    PlaceholderExact(isSpace, p, |p|, name);
    hide PlaceholderAt, IsPlaceholder, StripLeft, StripRight, Sane;
  }

  /** A string is one placeholder exactly when it is white space around one. */
  lemma {:induction false} WholeExact(isSpace: char -> bool, s: string, name: string)
    requires Sane(isSpace)
    ensures Whole(isSpace, s) == Some(name) <==>
            exists left, p, right :: WholeParts(isSpace, s, left, p, right) && IsPlaceholder(isSpace, p, name)
  {
    if left, p, right :| WholeParts(isSpace, s, left, p, right) && IsPlaceholder(isSpace, p, name) {
      WholeAhead(isSpace, left, p, right, name);
    }
    if Whole(isSpace, s) == Some(name) {
      var p := Strip(isSpace, s);
      var left := StripLeftHas(isSpace, s);
      var right := StripRightHas(isSpace, StripLeft(isSpace, s));
      assert s == left + p + right;
      PlaceholderExact(isSpace, p, |p|, name);
      hide PlaceholderAt, IsPlaceholder, StripLeft, StripRight, Sane;
      assert p[..|p|] == p;
      assert WholeParts(isSpace, s, left, p, right);
    }
  }

  // ---- rendered strings -------------------------------------------------------

  /** A whole placeholder keeps the type of its value, and is left out without one. */
  lemma {:induction false} WholeRenders(c: Context, s: string, left: string, p: string, right: string, name: string)
    requires Sane(c.isSpace) && WholeParts(c.isSpace, s, left, p, right) && IsPlaceholder(c.isSpace, p, name)
    ensures Render(c, Str(s)) ==
            if name !in c.allowed then None
            else if name in c.variables && c.variables[name] != Null then Some(c.variables[name]) else Some(Omit)
  {
    WholeAhead(c.isSpace, left, p, right, name);
    hide Whole, IsPlaceholder;
  }

  /**
   Any other string becomes its literal text with the value of each variable in place
   of its placeholder; it cannot be rendered exactly when one of them is not set.
   */
  lemma {:induction false} LongerRenders(c: Context, parts: seq<Part>)
    requires Sane(c.isSpace) && IsCut(c.isSpace, parts)
    requires forall left, p, right, name :: WholeParts(c.isSpace, Joined(parts), left, p, right)
                                            ==> !IsPlaceholder(c.isSpace, p, name)
    ensures Render(c, Str(Joined(parts))) == if AllSet(c, parts) then Some(Str(FilledText(c, parts))) else None
  {
    FillingIsExact(c, parts);
    var s := Joined(parts);
    if Whole(c.isSpace, s).Some? { WholeExact(c.isSpace, s, Whole(c.isSpace, s).value); }
    hide Whole, IsPlaceholder, Filled, IsCut, Joined, FilledText;
  }

  lemma {:induction false} KeptIsFilled(c: Context, parts: seq<Part>)
    requires forall k :: 0 <= k < |parts| ==> parts[k].Kept?
    ensures AllSet(c, parts) && FilledText(c, parts) == Joined(parts)
  {
    if parts != [] {
      assert forall k :: 0 <= k < |parts[1..]| ==> parts[1..][k] == parts[k + 1];
      KeptIsFilled(c, parts[1..]);
    }
  }

  /** A string without placeholders is rendered to itself. */
  lemma {:induction false} PlainString(c: Context, s: string)
    requires Sane(c.isSpace) && Names(c.isSpace, s) == {}
    ensures Render(c, Str(s)) == Some(Str(s))
  {
    var parts := CutExists(c.isSpace, s);
    forall k | 0 <= k < |parts|
      ensures parts[k].Kept?
    {
      if parts[k].Hole? { NamesAreHoles(c.isSpace, parts, parts[k].name); }
    }
    KeptIsFilled(c, parts);
    FillingIsExact(c, parts);
    if Whole(c.isSpace, s).Some? { WholeIsNamed(c.isSpace, s); }
    hide Whole, Filled, Names, IsCut, Joined, FilledText;
  }

  /** A template without placeholders is sent as it is. */
  lemma {:induction false} PlainTemplate(c: Context, node: Json)
    requires Sane(c.isSpace) && Plain(node) && Variables(c.isSpace, node) == {}
    ensures Render(c, node) == Some(node)
    decreases node, 1 + Width(node)
  {
    match node
    case Str(s) => PlainString(c, s);
    case Dict(fields) =>
      PlainFields(c, node, 0);
      assert fields[0..] == fields;
    case List(items) =>
      PlainItems(c, node, 0);
      assert items[0..] == items;
    case _ =>
  }

  lemma {:induction false} PlainFields(c: Context, node: Json, i: nat)
    requires Sane(c.isSpace) && node.Dict? && i <= |node.fields| && Plain(node)
    requires VariablesFrom(c.isSpace, node, i) == {}
    ensures RenderFields(c, node, i) == Some(node.fields[i..])
    decreases node, |node.fields| - i
  {
    if i < |node.fields| {
      ChildVariables(c.isSpace, node, i);
      PlainTemplate(c, node.fields[i].value);
      PlainFields(c, node, i + 1);
      assert Plain(node.fields[i].value) && !node.fields[i].value.Omit?;
      assert node.fields[i..] == [node.fields[i]] + node.fields[i + 1..];
      hide Render, Variables, Plain;
    } else {
      assert node.fields[i..] == [];
    }
  }

  lemma {:induction false} PlainItems(c: Context, node: Json, i: nat)
    requires Sane(c.isSpace) && node.List? && i <= |node.items| && Plain(node)
    requires VariablesFrom(c.isSpace, node, i) == {}
    ensures RenderItems(c, node, i) == Some(node.items[i..])
    decreases node, |node.items| - i
  {
    if i < |node.items| {
      ChildVariables(c.isSpace, node, i);
      PlainTemplate(c, node.items[i]);
      PlainItems(c, node, i + 1);
      assert Plain(node.items[i]) && !node.items[i].Omit?;
      assert node.items[i..] == [node.items[i]] + node.items[i + 1..];
      hide Render, Variables, Plain;
    } else {
      assert node.items[i..] == [];
    }
  }
}
