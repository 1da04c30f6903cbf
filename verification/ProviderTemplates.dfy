/**
 Request templates of the provider mapping: placeholders, rendering with omission,
 and the shape check - backend/app/core/provider_mapping.py. How a value is
 written inside a longer string is a parameter.
 */
module ProviderTemplates {
  import opened Common
  import opened Text
  import opened ProviderPaths

  const MAX_TEMPLATE_DEPTH := 6
  const MAX_TEMPLATE_NODES := 200

  /** The variables of one request; a variable without a value is absent or null. */
  datatype Context = Context(
    variables: map<string, Json>, allowed: set<string>, isSpace: char -> bool, asText: Json -> string)

  // ---- placeholders -----------------------------------------------------------

  predicate IdentChar(c: char) { IdentStart(c) || IsDigit(c) }

  function IdentRun(s: string): (n: nat)
    ensures n <= |s|
  {
    if s == "" || !IdentChar(s[0]) then 0 else 1 + IdentRun(s[1..])
  }

  function SpaceRun(isSpace: char -> bool, s: string): (n: nat)
    ensures n <= |s|
  {
    if s == "" || !isSpace(s[0]) then 0 else 1 + SpaceRun(isSpace, s[1..])
  }

  datatype Hit = NoHit | Hit(name: string, length: nat)

  /** A placeholder at the start of `s`. */
  function PlaceholderAt(isSpace: char -> bool, s: string): (h: Hit)
    ensures h.Hit? ==> 4 < h.length <= |s| && s[0] == '{'
  {
    if !("{{" <= s) then NoHit
    else
      var a := 2 + SpaceRun(isSpace, s[2..]);
      if a == |s| || !IdentStart(s[a]) then NoHit
      else
        var b := a + IdentRun(s[a..]);
        var c := b + SpaceRun(isSpace, s[b..]);
        if "}}" <= s[c..] then Hit(s[a..b], c + 2) else NoHit
  }

  /** `_WHOLE_PLACEHOLDER`: the string is one placeholder and white space. */
  function Whole(isSpace: char -> bool, s: string): Option<string> {
    var text := Strip(isSpace, s);
    var h := PlaceholderAt(isSpace, text);
    if h.Hit? && h.length == |text| then Some(h.name) else None
  }

  /** `_PLACEHOLDER.findall`. */
  function Names(isSpace: char -> bool, s: string): set<string>
    decreases |s|
  {
    if s == "" then {}
    else
      var h := PlaceholderAt(isSpace, s);
      if h.Hit? then {h.name} + Names(isSpace, s[h.length..]) else Names(isSpace, s[1..])
  }

  /** `template_variables`, over all strings of the template. */
  function Variables(isSpace: char -> bool, node: Json): set<string>
    decreases node, 1 + Width(node)
  {
    match node
    case Str(s) => Names(isSpace, s)
    case List(_) => VariablesFrom(isSpace, node, 0)
    case Dict(_) => VariablesFrom(isSpace, node, 0)
    case _ => {}
  }

  /** Number of children. */
  function Width(node: Json): nat {
    if node.List? then |node.items| else if node.Dict? then |node.fields| else 0
  }

  function Child(node: Json, i: nat): Json
    requires i < Width(node)
  {
    if node.List? then node.items[i] else node.fields[i].value
  }

  function VariablesFrom(isSpace: char -> bool, node: Json, i: nat): set<string>
    requires i <= Width(node)
    decreases node, Width(node) - i
  {
    if i == Width(node) then {}
    else Variables(isSpace, Child(node, i)) + VariablesFrom(isSpace, node, i + 1)
  }

  // ---- rendering --------------------------------------------------------------

  function ValueOf(c: Context, name: string): Option<Json> {
    if name in c.variables && c.variables[name] != Null then Some(c.variables[name]) else None
  }

  /** Every placeholder replaced by the text of its value; None is a mapping error. */
  function Filled(c: Context, s: string): Option<string>
    decreases |s|
  {
    if s == "" then Some("")
    else
      var h := PlaceholderAt(c.isSpace, s);
      if h.NoHit? then
        var rest := Filled(c, s[1..]);
        if rest.None? then None else Some([s[0]] + rest.value)
      else if h.name !in c.allowed || ValueOf(c, h.name).None? then None
      else
        var rest := Filled(c, s[h.length..]);
        if rest.None? then None else Some(c.asText(ValueOf(c, h.name).value) + rest.value)
  }

  /** Rendering a string; None is a mapping error. */
  function RenderString(c: Context, s: string): Option<Json> {
    var whole := Whole(c.isSpace, s);
    if whole.Some? then
      if whole.value !in c.allowed then None else Some(ValueOf(c, whole.value).GetOr(Omit))
    else
      var text := Filled(c, s);
      if text.None? then None else Some(Str(text.value))
  }

  /** `_render`: the value, or the sentinel when everything in it was omitted. */
  function Render(c: Context, node: Json): Option<Json>
    decreases node, 1 + Width(node)
  {
    match node
    case Str(s) => RenderString(c, s)
    case Dict(fields) =>
      var kept := RenderFields(c, node, 0);
      if kept.None? then None
      else Some(if kept.value != [] || fields == [] then Dict(kept.value) else Omit)
    case List(items) =>
      var kept := RenderItems(c, node, 0);
      if kept.None? then None
      else Some(if kept.value != [] || items == [] then List(kept.value) else Omit)
    case _ => Some(node)
  }

  function RenderFields(c: Context, node: Json, i: nat): Option<seq<Field>>
    requires node.Dict? && i <= |node.fields|
    decreases node, |node.fields| - i
  {
    if i == |node.fields| then Some([])
    else
      var value := Render(c, node.fields[i].value);
      var rest := RenderFields(c, node, i + 1);
      if value.None? || rest.None? then None
      else Some((if value.value.Omit? then [] else [Field(node.fields[i].name, value.value)]) + rest.value)
  }

  function RenderItems(c: Context, node: Json, i: nat): Option<seq<Json>>
    requires node.List? && i <= |node.items|
    decreases node, |node.items| - i
  {
    if i == |node.items| then Some([])
    else
      var value := Render(c, node.items[i]);
      var rest := RenderItems(c, node, i + 1);
      if value.None? || rest.None? then None
      else Some((if value.value.Omit? then [] else [value.value]) + rest.value)
  }

  /** `render_template`. */
  function RenderTemplate(c: Context, node: Json): Option<Json> {
    var rendered := Render(c, node);
    if rendered == Some(Omit) then Some(Dict([])) else rendered
  }

  // ---- the sentinel never gets out --------------------------------------------

  predicate Plain(node: Json) {
    match node
    case Omit => false
    case List(items) => forall i :: 0 <= i < |items| ==> Plain(items[i])
    case Dict(fields) => forall i :: 0 <= i < |fields| ==> Plain(fields[i].value)
    case _ => true
  }

  ghost predicate PlainValues(c: Context) {
    forall name :: name in c.variables ==> Plain(c.variables[name])
  }

  lemma {:induction false} RenderIsPlain(c: Context, node: Json)
    requires Plain(node) && PlainValues(c)
    ensures Render(c, node).Some? ==> Render(c, node).value.Omit? || Plain(Render(c, node).value)
    decreases node, 1 + Width(node)
  {
    match node
    case Str(s) =>
      var whole := Whole(c.isSpace, s);
      if whole.Some? && ValueOf(c, whole.value).Some? { assert Plain(c.variables[whole.value]); }
    case Dict(_) => FieldsArePlain(c, node, 0);
    case List(_) => ItemsArePlain(c, node, 0);
    case _ =>
  }

  lemma {:induction false} FieldsArePlain(c: Context, node: Json, i: nat)
    requires node.Dict? && i <= |node.fields| && Plain(node) && PlainValues(c)
    ensures RenderFields(c, node, i).Some? ==> Plain(Dict(RenderFields(c, node, i).value))
    decreases node, |node.fields| - i
  {
    if i < |node.fields| {
      RenderIsPlain(c, node.fields[i].value);
      FieldsArePlain(c, node, i + 1);
    }
  }

  lemma {:induction false} ItemsArePlain(c: Context, node: Json, i: nat)
    requires node.List? && i <= |node.items| && Plain(node) && PlainValues(c)
    ensures RenderItems(c, node, i).Some? ==> Plain(List(RenderItems(c, node, i).value))
    decreases node, |node.items| - i
  {
    if i < |node.items| {
      RenderIsPlain(c, node.items[i]);
      ItemsArePlain(c, node, i + 1);
    }
  }

  /** The rendered body never contains the sentinel. */
  lemma {:induction false} TemplateIsPlain(c: Context, node: Json)
    requires Plain(node) && PlainValues(c)
    ensures RenderTemplate(c, node).Some? ==> Plain(RenderTemplate(c, node).value)
  {
    RenderIsPlain(c, node);
  }

  // ---- only the template's own variables matter -------------------------------

  /** The two requests agree on these variables. */
  ghost predicate Agree(c: Context, d: Context, names: set<string>) {
    && c.isSpace == d.isSpace && c.asText == d.asText
    && forall name :: name in names ==>
         ValueOf(c, name) == ValueOf(d, name) && (name in c.allowed <==> name in d.allowed)
  }

  lemma {:induction false} AgreeSubset(c: Context, d: Context, small: set<string>, large: set<string>)
    requires Agree(c, d, large) && small <= large
    ensures Agree(c, d, small)
  {}

  lemma {:induction false} FilledAgrees(c: Context, d: Context, s: string)
    requires Agree(c, d, Names(c.isSpace, s))
    ensures Filled(c, s) == Filled(d, s)
    decreases |s|
  {
    if s != "" {
      hide ValueOf;
      var h := PlaceholderAt(c.isSpace, s);
      var rest := s[if h.Hit? then h.length else 1..];
      AgreeSubset(c, d, Names(c.isSpace, rest), Names(c.isSpace, s));
      FilledAgrees(c, d, rest);
      assert h.Hit? ==> h.name in Names(c.isSpace, s);
    }
  }

  lemma {:induction false} StripLeftNames(isSpace: char -> bool, s: string)
    requires Sane(isSpace)
    ensures Names(isSpace, StripLeft(isSpace, s)) == Names(isSpace, s)
  {
    if s != "" && isSpace(s[0]) {
      assert s[0] != '{';
      StripLeftNames(isSpace, s[1..]);
    }
  }

  /** The variable of a whole placeholder is one of the names found in the string. */
  lemma {:induction false} WholeIsNamed(isSpace: char -> bool, s: string)
    requires Sane(isSpace) && Whole(isSpace, s).Some?
    ensures Whole(isSpace, s).value in Names(isSpace, s)
  {
    var left := StripLeft(isSpace, s);
    StripLeftNames(isSpace, s);
    var text := StripRight(isSpace, left);
    StripRightIsPrefix(isSpace, left);
    assert text != "";
    HitInPrefix(isSpace, text, left);
  }

  lemma {:induction false} StripRightIsPrefix(isSpace: char -> bool, s: string)
    ensures StripRight(isSpace, s) <= s
  {
    if s != "" && isSpace(s[|s| - 1]) {
      StripRightIsPrefix(isSpace, s[..|s| - 1]);
    }
  }

  lemma {:induction false} SpaceRunPrefix(isSpace: char -> bool, a: string, b: string)
    requires a <= b && SpaceRun(isSpace, a) < |a|
    ensures SpaceRun(isSpace, b) == SpaceRun(isSpace, a)
  {
    if isSpace(a[0]) {
      assert a[1..] <= b[1..];
      SpaceRunPrefix(isSpace, a[1..], b[1..]);
    }
  }

  lemma {:induction false} IdentRunPrefix(a: string, b: string)
    requires a <= b && IdentRun(a) < |a|
    ensures IdentRun(b) == IdentRun(a)
  {
    if IdentChar(a[0]) {
      assert a[1..] <= b[1..];
      IdentRunPrefix(a[1..], b[1..]);
    }
  }

  /** What matched in a prefix matches in the whole string. */
  lemma {:induction false} HitInPrefix(isSpace: char -> bool, text: string, s: string)
    requires text <= s && PlaceholderAt(isSpace, text).Hit?
    ensures PlaceholderAt(isSpace, s) == PlaceholderAt(isSpace, text)
  {
    hide SpaceRun, IdentRun;
    var a := 2 + SpaceRun(isSpace, text[2..]);
    TailPrefix(text, s, 2);
    SpaceRunPrefix(isSpace, text[2..], s[2..]);
    var b := a + IdentRun(text[a..]);
    TailPrefix(text, s, a);
    assert "}}" <= text[b + SpaceRun(isSpace, text[b..])..];
    IdentRunPrefix(text[a..], s[a..]);
    TailPrefix(text, s, b);
    SpaceRunPrefix(isSpace, text[b..], s[b..]);
    var c := b + SpaceRun(isSpace, text[b..]);
    TailPrefix(text, s, c);
    assert text[a..b] == s[a..b];
  }

  lemma {:induction false} TailPrefix(a: string, b: string, i: nat)
    requires a <= b && i <= |a|
    ensures a[i..] <= b[i..]
  {}

  lemma {:induction false} ChildVariables(isSpace: char -> bool, node: Json, i: nat)
    requires i < Width(node)
    ensures Variables(isSpace, Child(node, i)) <= VariablesFrom(isSpace, node, i)
    ensures VariablesFrom(isSpace, node, i + 1) <= VariablesFrom(isSpace, node, i)
  {}

  /** Two requests that agree on the template's variables render alike. */
  lemma {:induction false} RenderAgrees(c: Context, d: Context, node: Json)
    requires Sane(c.isSpace) && Agree(c, d, Variables(c.isSpace, node))
    ensures Render(c, node) == Render(d, node)
    decreases node, 1 + Width(node)
  {
    hide ValueOf, Filled, Whole, PlaceholderAt;
    match node
    case Str(s) =>
      FilledAgrees(c, d, s);
      if Whole(c.isSpace, s).Some? { WholeIsNamed(c.isSpace, s); }
    case Dict(_) => FieldsAgree(c, d, node, 0);
    case List(_) => ItemsAgree(c, d, node, 0);
    case _ =>
  }

  lemma {:induction false} FieldsAgree(c: Context, d: Context, node: Json, i: nat)
    requires Sane(c.isSpace) && node.Dict? && i <= |node.fields| && Agree(c, d, VariablesFrom(c.isSpace, node, i))
    ensures RenderFields(c, node, i) == RenderFields(d, node, i)
    decreases node, |node.fields| - i
  {
    hide Agree;
    if i < |node.fields| {
      ChildVariables(c.isSpace, node, i);
      AgreeSubset(c, d, Variables(c.isSpace, Child(node, i)), VariablesFrom(c.isSpace, node, i));
      AgreeSubset(c, d, VariablesFrom(c.isSpace, node, i + 1), VariablesFrom(c.isSpace, node, i));
      RenderAgrees(c, d, node.fields[i].value);
      FieldsAgree(c, d, node, i + 1);
    }
  }

  lemma {:induction false} ItemsAgree(c: Context, d: Context, node: Json, i: nat)
    requires Sane(c.isSpace) && node.List? && i <= |node.items| && Agree(c, d, VariablesFrom(c.isSpace, node, i))
    ensures RenderItems(c, node, i) == RenderItems(d, node, i)
    decreases node, |node.items| - i
  {
    hide Agree;
    if i < |node.items| {
      ChildVariables(c.isSpace, node, i);
      AgreeSubset(c, d, Variables(c.isSpace, Child(node, i)), VariablesFrom(c.isSpace, node, i));
      AgreeSubset(c, d, VariablesFrom(c.isSpace, node, i + 1), VariablesFrom(c.isSpace, node, i));
      RenderAgrees(c, d, node.items[i]);
      ItemsAgree(c, d, node, i + 1);
    }
  }

  // ---- a set variable ---------------------------------------------------------

  predicate NoWildcard(path: seq<Token>) {
    forall i :: 0 <= i < |path| ==> !path[i].Wildcard?
  }

  /** How many of the items from `i` up to `n` are kept. */
  function KeptBetween(c: Context, node: Json, i: nat, n: nat): nat
    requires node.List? && i <= n <= |node.items|
    decreases n - i
  {
    if i == n then 0
    else (if Render(c, node.items[i]) == Some(Omit) then 0 else 1) + KeptBetween(c, node, i + 1, n)
  }

  /** The path in the rendered body: list indexes count the kept items before them. */
  function Renumbered(c: Context, node: Json, path: seq<Token>): seq<Token>
    decreases |path|
  {
    if path == [] || |SelectOne(node, path[0])| != 1 then []
    else
      var child := SelectOne(node, path[0])[0];
      [if path[0].Index? && node.List? && path[0].n <= |node.items|
       then Index(KeptBetween(c, node, 0, path[0].n)) else path[0]]
      + Renumbered(c, child, path[1..])
  }

  /** The first step of a selection without wildcards. */
  lemma {:induction false} SelectStep(node: Json, path: seq<Token>)
    requires path != [] && !path[0].Wildcard?
    ensures
      var first := SelectOne(node, path[0]);
      && |first| <= 1
      && Select(node, path) == if first == [] then [] else Select(first[0], path[1..])
  {
    var first := SelectOne(node, path[0]);
    assert [node][1..] == [];
    assert Frontier([node], path[0]) == first + [] == first;
    SelectNothing(path[1..]);
    if first != [] { assert first == [first[0]]; }
  }

  lemma {:induction false} FieldAtCons(head: seq<Field>, rest: seq<Field>, name: string)
    requires |head| <= 1 && (head != [] ==> head[0].name != name) && FieldAt(rest, name) >= 0
    ensures
      var at := FieldAt(head + rest, name);
      at >= 0 && (head + rest)[at] == rest[FieldAt(rest, name)]
  {
    if head == [] {
      assert head + rest == rest;
    } else {
      assert (head + rest)[1..] == rest && (head + rest)[0] == head[0];
    }
  }

  lemma {:induction false} FieldAtKept(c: Context, node: Json, i: nat, n: nat)
    requires node.Dict? && i <= n < |node.fields|
    requires forall k :: i <= k < n ==> node.fields[k].name != node.fields[n].name
    requires RenderFields(c, node, i).Some? && Render(c, node.fields[n].value) != Some(Omit)
    ensures
      var kept := RenderFields(c, node, i).value;
      var at := FieldAt(kept, node.fields[n].name);
      at >= 0 && Some(kept[at].value) == Render(c, node.fields[n].value)
    decreases n - i
  {
    hide Render;
    var name := node.fields[n].name;
    var value := Render(c, node.fields[i].value).value;
    var rest := RenderFields(c, node, i + 1).value;
    if i < n {
      FieldAtKept(c, node, i + 1, n);
      hide FieldAt;
      FieldAtCons(if value.Omit? then [] else [Field(node.fields[i].name, value)], rest, name);
    } else {
      assert ([Field(name, value)] + rest)[0].name == name;
    }
  }

  lemma {:induction false} ItemAtKept(c: Context, node: Json, i: nat, n: nat)
    requires node.List? && i <= n < |node.items|
    requires RenderItems(c, node, i).Some? && Render(c, node.items[n]) != Some(Omit)
    ensures
      var kept := RenderItems(c, node, i).value;
      var at := KeptBetween(c, node, i, n);
      at < |kept| && Some(kept[at]) == Render(c, node.items[n])
    decreases n - i
  {
    hide Render;
    if i < n {
      ItemAtKept(c, node, i + 1, n);
    }
  }

  lemma {:induction false} FieldAtIsFirst(fields: seq<Field>, name: string)
    ensures forall k :: 0 <= k < FieldAt(fields, name) ==> fields[k].name != name
    ensures FieldAt(fields, name) == -1 <==> forall k :: 0 <= k < |fields| ==> fields[k].name != name
  {
    if fields != [] {
      FieldAtIsFirst(fields[1..], name);
      assert forall k :: 0 < k < |fields| ==> fields[k] == fields[1..][k - 1];
    }
  }

  lemma {:induction false} RenderedChild(c: Context, node: Json, t: Token)
    requires !t.Wildcard? && |SelectOne(node, t)| == 1 && Render(c, node).Some?
    ensures Render(c, SelectOne(node, t)[0]).Some?
    ensures Render(c, SelectOne(node, t)[0]) != Some(Omit) ==>
              Select(Render(c, node).value, Renumbered(c, node, [t])) == [Render(c, SelectOne(node, t)[0]).value]
  {
    if t.Key? {
      var n := FieldAt(node.fields, t.name);
      FieldAtIsFirst(node.fields, t.name);
      FieldRenders(c, node, 0, n);
      if Render(c, node.fields[n].value) != Some(Omit) {
        FieldAtKept(c, node, 0, n);
        SelectStep(Render(c, node).value, [t]);
      }
    } else {
      ItemRenders(c, node, 0, t.n);
      if Render(c, node.items[t.n]) != Some(Omit) {
        ItemAtKept(c, node, 0, t.n);
        SelectStep(Render(c, node).value, [Index(KeptBetween(c, node, 0, t.n))]);
      }
    }
  }

  lemma {:induction false} FieldRenders(c: Context, node: Json, i: nat, n: nat)
    requires node.Dict? && i <= n < |node.fields| && RenderFields(c, node, i).Some?
    ensures Render(c, node.fields[n].value).Some?
    decreases n - i
  {
    if i < n { FieldRenders(c, node, i + 1, n); }
  }

  lemma {:induction false} ItemRenders(c: Context, node: Json, i: nat, n: nat)
    requires node.List? && i <= n < |node.items| && RenderItems(c, node, i).Some?
    ensures Render(c, node.items[n]).Some?
    decreases n - i
  {
    if i < n { ItemRenders(c, node, i + 1, n); }
  }

  /**
   Every part of the template, at whatever path, is in the rendered body what it
   renders to by itself, at the same path with list indexes counted among the kept
   items, unless it was omitted.
   */
  lemma {:induction false} RenderedAt(c: Context, node: Json, path: seq<Token>, part: Json)
    requires NoWildcard(path) && Select(node, path) == [part] && Render(c, node).Some?
    ensures Render(c, part).Some?
    ensures Render(c, part) != Some(Omit) ==>
              && Render(c, node) != Some(Omit)
              && Select(Render(c, node).value, Renumbered(c, node, path)) == [Render(c, part).value]
    decreases |path|
  {
    if path == [] {
      assert node == part;
    } else {
      SelectStep(node, path);
      var t := path[0];
      var child := SelectOne(node, t)[0];
      RenderedChild(c, node, t);
      assert NoWildcard(path[1..]);
      RenderedAt(c, child, path[1..], part);
      RenumberedStep(c, node, path);
      hide Render, Renumbered, SelectFrom;
      if Render(c, part) != Some(Omit) {
        SelectCompose(Render(c, node).value, Renumbered(c, node, [t]), Renumbered(c, child, path[1..]));
        SelectEachOne(Render(c, child).value, Renumbered(c, child, path[1..]));
        NotOmitted(c, node, Renumbered(c, node, [t]), t);
      }
    }
  }

  lemma {:induction false} SelectEachOne(x: Json, q: seq<Token>)
    ensures SelectEach([x], q) == Select(x, q)
  {
    assert [x][1..] == [];
    assert Select(x, q) + [] == Select(x, q);
  }

  lemma {:induction false} RenumberedStep(c: Context, node: Json, path: seq<Token>)
    requires path != [] && |SelectOne(node, path[0])| == 1
    ensures Renumbered(c, node, path) ==
            Renumbered(c, node, [path[0]]) + Renumbered(c, SelectOne(node, path[0])[0], path[1..])
    ensures |Renumbered(c, node, [path[0]])| == 1 && !path[0].Wildcard? ==> !Renumbered(c, node, [path[0]])[0].Wildcard?
    ensures |Renumbered(c, node, [path[0]])| == 1
  {
    hide KeptBetween;
    assert [path[0]][1..] == [];
    assert Renumbered(c, SelectOne(node, path[0])[0], []) == [];
  }

  /** A value in which a step selects something is not the sentinel. */
  lemma {:induction false} NotOmitted(c: Context, node: Json, step: seq<Token>, t: Token)
    requires Render(c, node).Some? && |step| == 1 && !step[0].Wildcard? && Select(Render(c, node).value, step) != []
    ensures Render(c, node) != Some(Omit)
  {
    SelectStep(Render(c, node).value, step);
  }

  /**
   Wherever the template holds a whole placeholder whose variable is set, the
   rendered body holds exactly that value, at the same path with list indexes
   counted among the kept items.
   */
  lemma {:induction false} SetVariableIsSelected(c: Context, node: Json, path: seq<Token>, s: string, v: Json)
    requires NoWildcard(path) && Select(node, path) == [Str(s)] && RenderTemplate(c, node).Some?
    requires Whole(c.isSpace, s).Some? && ValueOf(c, Whole(c.isSpace, s).value) == Some(v) && !v.Omit?
    ensures Select(RenderTemplate(c, node).value, Renumbered(c, node, path)) == [v]
  {
    RenderedAt(c, node, path, Str(s));
  }

  // ---- an unset variable ------------------------------------------------------

  predicate UniqueNames(fields: seq<Field>) {
    forall i, j :: 0 <= i < j < |fields| ==> fields[i].name != fields[j].name
  }

  /** Field names of a dictionary are distinct. */
  predicate WellFormed(node: Json) {
    match node
    case List(items) => forall i :: 0 <= i < |items| ==> WellFormed(items[i])
    case Dict(fields) => UniqueNames(fields) && forall i :: 0 <= i < |fields| ==> WellFormed(fields[i].value)
    case _ => true
  }

  predicate OnlyKeys(path: seq<Token>) {
    forall i :: 0 <= i < |path| ==> path[i].Key?
  }

  /** The kept fields carry the rendered values of the fields of the same name that were not omitted. */
  lemma {:induction false} KeptFieldOrigin(c: Context, node: Json, i: nat, k: nat)
    requires node.Dict? && i <= |node.fields| && RenderFields(c, node, i).Some? && k < |RenderFields(c, node, i).value|
    ensures
      var f := RenderFields(c, node, i).value[k];
      exists n :: i <= n < |node.fields| && node.fields[n].name == f.name
                  && Render(c, node.fields[n].value) == Some(f.value) && !f.value.Omit?
    decreases |node.fields| - i
  {
    hide Render;
    var value := Render(c, node.fields[i].value).value;
    if value.Omit? {
      KeptFieldOrigin(c, node, i + 1, k);
    } else if k > 0 {
      KeptFieldOrigin(c, node, i + 1, k - 1);
      assert RenderFields(c, node, i).value[k] == RenderFields(c, node, i + 1).value[k - 1];
    }
  }

  /** The field of a rendered dictionary under a name is the rendering of the template's field of that name. */
  lemma {:induction false} RenderedFieldOrigin(c: Context, node: Json, name: string)
    requires node.Dict? && UniqueNames(node.fields) && FieldAt(node.fields, name) >= 0
    requires Render(c, node).Some? && Render(c, node).value.Dict?
    ensures
      var kept := Render(c, node).value.fields;
      var at := FieldAt(kept, name);
      at >= 0 ==>
        Render(c, node.fields[FieldAt(node.fields, name)].value) == Some(kept[at].value) && !kept[at].value.Omit?
  {
    var kept := Render(c, node).value.fields;
    assert RenderFields(c, node, 0) == Some(kept);
    var at := FieldAt(kept, name);
    if at >= 0 {
      KeptFieldOrigin(c, node, 0, at);
      hide Render, RenderFields;
      var n :| 0 <= n < |node.fields| && node.fields[n].name == kept[at].name
               && Render(c, node.fields[n].value) == Some(kept[at].value) && !kept[at].value.Omit?;
      assert n == FieldAt(node.fields, name);
    }
  }

  lemma {:induction false} UnsetPlaceholder(c: Context, node: Json, path: seq<Token>, s: string)
    requires WellFormed(node) && OnlyKeys(path) && path != [] && Select(node, path) == [Str(s)] && Render(c, node).Some?
    requires Whole(c.isSpace, s).Some? && ValueOf(c, Whole(c.isSpace, s).value).None?
    ensures Select(Render(c, node).value, path) == []
    decreases |path|
  {
    var name := path[0].name;
    var rendered := Render(c, node).value;
    SelectStep(node, path);
    SelectStep(rendered, path);
    var n := FieldAt(node.fields, name);
    var child := node.fields[n].value;
    FieldRenders(c, node, 0, n);
    if rendered.Dict? && FieldAt(rendered.fields, name) >= 0 {
      RenderedFieldOrigin(c, node, name);
      if path[1..] != [] {
        UnsetPlaceholder(c, child, path[1..], s);
      }
    }
  }

  /** Where a path of dictionary keys leads to the whole placeholder of an unset variable, the body has nothing. */
  lemma {:induction false} UnsetVariableIsAbsent(c: Context, node: Json, path: seq<Token>, s: string)
    requires WellFormed(node) && OnlyKeys(path) && path != [] && Select(node, path) == [Str(s)]
    requires RenderTemplate(c, node).Some?
    requires Whole(c.isSpace, s).Some? && ValueOf(c, Whole(c.isSpace, s).value).None?
    ensures Select(RenderTemplate(c, node).value, path) == []
  {
    UnsetPlaceholder(c, node, path, s);
    SelectStep(Dict([]), path);
  }

  // ---- when rendering fails ---------------------------------------------------

  /** Every name is known, and a name inside a longer string has a value. */
  predicate UsableString(c: Context, s: string) {
    var whole := Whole(c.isSpace, s);
    if whole.Some? then whole.value in c.allowed
    else forall name :: name in Names(c.isSpace, s) ==> name in c.allowed && ValueOf(c, name).Some?
  }

  predicate Usable(c: Context, node: Json) {
    match node
    case Str(s) => UsableString(c, s)
    case List(items) => forall i :: 0 <= i < |items| ==> Usable(c, items[i])
    case Dict(fields) => forall i :: 0 <= i < |fields| ==> Usable(c, fields[i].value)
    case _ => true
  }

  lemma {:induction false} FilledExact(c: Context, s: string)
    ensures Filled(c, s).Some? <==>
            forall name :: name in Names(c.isSpace, s) ==> name in c.allowed && ValueOf(c, name).Some?
    decreases |s|
  {
    hide ValueOf;
    if s != "" {
      var h := PlaceholderAt(c.isSpace, s);
      FilledExact(c, s[if h.Hit? then h.length else 1..]);
    }
  }

  /** Rendering fails exactly when a name is unknown or a name inside a longer string has no value. */
  lemma {:induction false} RenderExact(c: Context, node: Json)
    ensures Render(c, node).Some? <==> Usable(c, node)
    decreases node, 1 + Width(node)
  {
    hide Whole;
    match node
    case Str(s) => FilledExact(c, s);
    case Dict(_) => FieldsExact(c, node, 0);
    case List(_) => ItemsExact(c, node, 0);
    case _ =>
  }

  lemma {:induction false} FieldsExact(c: Context, node: Json, i: nat)
    requires node.Dict? && i <= |node.fields|
    ensures RenderFields(c, node, i).Some? <==> forall k :: i <= k < |node.fields| ==> Usable(c, node.fields[k].value)
    decreases node, |node.fields| - i
  {
    if i < |node.fields| {
      RenderExact(c, node.fields[i].value);
      FieldsExact(c, node, i + 1);
      hide Render, Usable;
    }
  }

  lemma {:induction false} ItemsExact(c: Context, node: Json, i: nat)
    requires node.List? && i <= |node.items|
    ensures RenderItems(c, node, i).Some? <==> forall k :: i <= k < |node.items| ==> Usable(c, node.items[k])
    decreases node, |node.items| - i
  {
    if i < |node.items| {
      RenderExact(c, node.items[i]);
      ItemsExact(c, node, i + 1);
      hide Render, Usable;
    }
  }

  /** A container is left out exactly when it had something and all of that was left out. */
  lemma {:induction false} EmptiedIsOmitted(c: Context, node: Json)
    requires (node.Dict? || node.List?) && Render(c, node).Some?
    ensures Render(c, node) == Some(Omit) <==>
            Width(node) > 0 && forall i :: 0 <= i < Width(node) ==> Render(c, Child(node, i)) == Some(Omit)
    ensures Width(node) == 0 ==> Render(c, node) == Some(node)
  {
    if node.Dict? { NoFieldKept(c, node, 0); } else { NoItemKept(c, node, 0); }
    hide RenderFields, RenderItems;
    assert node.Dict? && node.fields == [] ==> node == Dict([]);
    assert node.List? && node.items == [] ==> node == List([]);
  }

  lemma {:induction false} NoFieldKept(c: Context, node: Json, i: nat)
    requires node.Dict? && i <= |node.fields| && RenderFields(c, node, i).Some?
    ensures RenderFields(c, node, i).value == [] <==>
            forall k :: i <= k < |node.fields| ==> Render(c, Child(node, k)) == Some(Omit)
    decreases |node.fields| - i
  {
    hide Render;
    if i < |node.fields| {
      NoFieldKept(c, node, i + 1);
      assert Child(node, i) == node.fields[i].value;
    }
  }

  lemma {:induction false} NoItemKept(c: Context, node: Json, i: nat)
    requires node.List? && i <= |node.items| && RenderItems(c, node, i).Some?
    ensures RenderItems(c, node, i).value == [] <==>
            forall k :: i <= k < |node.items| ==> Render(c, Child(node, k)) == Some(Omit)
    decreases |node.items| - i
  {
    hide Render;
    if i < |node.items| {
      NoItemKept(c, node, i + 1);
      assert Child(node, i) == node.items[i];
    }
  }

  // ---- the shape check --------------------------------------------------------

  /** Number of values in the tree. */
  function Nodes(node: Json): nat
    decreases node, 1 + Width(node)
  {
    1 + NodesFrom(node, 0)
  }

  function NodesFrom(node: Json, i: nat): nat
    requires i <= Width(node)
    decreases node, Width(node) - i
  {
    if i == Width(node) then 0 else Nodes(Child(node, i)) + NodesFrom(node, i + 1)
  }

  /** A value by itself is one; a container is one more than its children together. */
  lemma {:induction false} NodesAddUp(node: Json)
    ensures Width(node) == 0 ==> Nodes(node) == 1
    ensures node.List? && node.items != [] ==>
              Nodes(node) == Nodes(node.items[0]) + Nodes(List(node.items[1..]))
    ensures node.Dict? && node.fields != [] ==>
              Nodes(node) == Nodes(node.fields[0].value) + Nodes(Dict(node.fields[1..]))
  {
    if node.List? && node.items != [] { NodesSplit(node, List(node.items[1..])); }
    if node.Dict? && node.fields != [] { NodesSplit(node, Dict(node.fields[1..])); }
    NoNodes(node);
    hide Nodes;
  }

  lemma {:induction false} NoNodes(node: Json)
    ensures Width(node) == 0 ==> Nodes(node) == 1
  {}

  lemma {:induction false} NodesSplit(node: Json, tail: Json)
    requires Width(node) == Width(tail) + 1
    requires forall k :: 0 <= k < Width(tail) ==> Child(tail, k) == Child(node, k + 1)
    ensures Nodes(node) == Nodes(Child(node, 0)) + Nodes(tail)
  {
    NodesShift(node, tail, 0);
    hide Width, Child;
  }

  lemma {:induction false} NodesShift(node: Json, tail: Json, i: nat)
    requires Width(node) == Width(tail) + 1 && i <= Width(tail)
    requires forall k :: 0 <= k < Width(tail) ==> Child(tail, k) == Child(node, k + 1)
    ensures NodesFrom(tail, i) == NodesFrom(node, i + 1)
    decreases Width(tail) - i
  {
    if i < Width(tail) {
      NodesShift(node, tail, i + 1);
      assert Child(tail, i) == Child(node, i + 1);
    }
  }

  /** Levels of containers below the value. */
  function Height(node: Json): nat
    decreases node, 1 + Width(node)
  {
    HeightFrom(node, 0)
  }

  function HeightFrom(node: Json, i: nat): nat
    requires i <= Width(node)
    decreases node, Width(node) - i
  {
    if i == Width(node) then 0 else Max(1 + Height(Child(node, i)), HeightFrom(node, i + 1))
  }

  /** The depth check is about the height of the value. */
  lemma {:induction false} FitsIsHeight(node: Json, depth: int)
    requires depth >= 0
    ensures Fits(node, depth) <==> Height(node) <= depth
    decreases node, 1 + Width(node)
  {
    ChildrenFitHeight(node, 0, depth);
    ChildrenFitAll(node, 0, depth - 1);
  }

  lemma {:induction false} ChildrenFitHeight(node: Json, i: nat, depth: int)
    requires depth >= 0 && i <= Width(node)
    ensures ChildrenFit(node, i, depth - 1) <==> HeightFrom(node, i) <= depth
    decreases node, Width(node) - i
  {
    if i < Width(node) {
      var child := Child(node, i);
      ChildrenFitHeight(node, i + 1, depth);
      if depth > 0 { FitsIsHeight(child, depth - 1); } else { FitsAtAll(child, depth - 1); }
      hide Fits, Height;
    }
  }

  /** The value nests at most `depth` deep. */
  predicate Fits(node: Json, depth: int)
    decreases node
  {
    depth >= 0 && forall i :: 0 <= i < Width(node) ==> Fits(Child(node, i), depth - 1)
  }

  /** JSON values only, and no placeholder in a key. */
  predicate CleanKeys(isSpace: char -> bool, node: Json)
    decreases node
  {
    && !node.Omit?
    && (forall i :: 0 <= i < Width(node) ==> CleanKeys(isSpace, Child(node, i)))
    && (node.Dict? ==> forall i :: 0 <= i < |node.fields| ==> Names(isSpace, node.fields[i].name) == {})
  }

  class ShapeCheck {
    const isSpace: char -> bool
    var count: nat

    constructor (isSpace: char -> bool)
      ensures this.isSpace == isSpace && count == 0
    {
      this.isSpace := isSpace;
      count := 0;
    }

    /** `visit`: false is a mapping error, given as soon as one is found. */
    method Visit(value: Json, depth: nat) returns (ok: bool)
      modifies this`count
      ensures ok <==>
              && Fits(value, MAX_TEMPLATE_DEPTH - depth) && CleanKeys(isSpace, value)
              && old(count) + Nodes(value) <= MAX_TEMPLATE_NODES
      ensures ok ==> count == old(count) + Nodes(value)
      decreases value, 1 + Width(value)
    {
      hide Names, CleanKeys, Fits;
      count := count + 1;
      FitsAtAll(value, MAX_TEMPLATE_DEPTH - depth);
      if depth > MAX_TEMPLATE_DEPTH || count > MAX_TEMPLATE_NODES {
        return false;
      }
      if value.Omit? {
        NotJson(isSpace, value);
        return false;
      }
      ok := VisitChildren(value, depth);
      ShapeOfChildren(isSpace, value, MAX_TEMPLATE_DEPTH - depth);
    }

    method VisitChildren(value: Json, depth: nat) returns (ok: bool)
      requires depth <= MAX_TEMPLATE_DEPTH
      modifies this`count
      ensures ok <==> ChildrenAccepted(isSpace, value, MAX_TEMPLATE_DEPTH - depth - 1, old(count))
      ensures ok ==> count == old(count) + NodesFrom(value, 0)
      decreases value, Width(value)
    {
      hide Names, CleanKeys, Fits, Nodes;
      var i := 0;
      ok := count <= MAX_TEMPLATE_NODES;
      while ok && i < Width(value)
        invariant i <= Width(value)
        invariant ok ==>
            && old(count) + NodesFrom(value, 0) == count + NodesFrom(value, i) && count <= MAX_TEMPLATE_NODES
            && (ChildrenFit(value, 0, MAX_TEMPLATE_DEPTH - depth - 1) <==>
                  ChildrenFit(value, i, MAX_TEMPLATE_DEPTH - depth - 1))
            && (ChildrenClean(isSpace, value, 0) <==> ChildrenClean(isSpace, value, i))
        invariant !ok ==> !ChildrenAccepted(isSpace, value, MAX_TEMPLATE_DEPTH - depth - 1, old(count))
        decreases Width(value) - i, ok
      {
        if value.Dict? && Names(isSpace, value.fields[i].name) != {} {
          ok := false;
        } else {
          ok := Visit(Child(value, i), depth + 1);
          i := i + 1;
        }
      }
    }
  }

  predicate ChildrenFit(node: Json, i: nat, depth: int)
    requires i <= Width(node)
    decreases Width(node) - i
  {
    i == Width(node) || (Fits(Child(node, i), depth) && ChildrenFit(node, i + 1, depth))
  }

  predicate ChildrenClean(isSpace: char -> bool, node: Json, i: nat)
    requires i <= Width(node)
    decreases Width(node) - i
  {
    i == Width(node) ||
    ((node.Dict? ==> Names(isSpace, node.fields[i].name) == {}) && CleanKeys(isSpace, Child(node, i))
     && ChildrenClean(isSpace, node, i + 1))
  }

  /** All children pass, after `count` values before them. */
  predicate ChildrenAccepted(isSpace: char -> bool, node: Json, depth: int, count: nat) {
    ChildrenFit(node, 0, depth) && ChildrenClean(isSpace, node, 0) && count + NodesFrom(node, 0) <= MAX_TEMPLATE_NODES
  }

  lemma {:induction false} ChildrenFitAll(node: Json, i: nat, depth: int)
    requires i <= Width(node)
    ensures ChildrenFit(node, i, depth) <==> forall k :: i <= k < Width(node) ==> Fits(Child(node, k), depth)
    decreases Width(node) - i
  {
    hide Fits;
    if i < Width(node) { ChildrenFitAll(node, i + 1, depth); }
  }

  lemma {:induction false} ChildrenCleanAll(isSpace: char -> bool, node: Json, i: nat)
    requires i <= Width(node)
    ensures ChildrenClean(isSpace, node, i) <==>
            && (forall k :: i <= k < Width(node) ==> CleanKeys(isSpace, Child(node, k)))
            && (node.Dict? ==> forall k :: i <= k < |node.fields| ==> Names(isSpace, node.fields[k].name) == {})
    decreases Width(node) - i
  {
    hide CleanKeys, Names;
    if i < Width(node) { ChildrenCleanAll(isSpace, node, i + 1); }
  }

  lemma {:induction false} FitsAtAll(node: Json, depth: int)
    ensures Fits(node, depth) ==> depth >= 0
  {}

  lemma {:induction false} NotJson(isSpace: char -> bool, node: Json)
    requires node.Omit?
    ensures !CleanKeys(isSpace, node)
  {}

  lemma {:induction false} ShapeOfChildren(isSpace: char -> bool, node: Json, depth: int)
    requires depth >= 0 && !node.Omit?
    ensures Fits(node, depth) <==> ChildrenFit(node, 0, depth - 1)
    ensures CleanKeys(isSpace, node) <==> ChildrenClean(isSpace, node, 0)
  {
    ChildrenFitAll(node, 0, depth - 1);
    ChildrenCleanAll(isSpace, node, 0);
  }

  /** `validate_template_shape` accepts exactly the small, shallow, plain templates. */
  method ValidateShape(isSpace: char -> bool, node: Json) returns (ok: bool)
    ensures ok <==> Fits(node, 6) && CleanKeys(isSpace, node) && Nodes(node) <= 200
  {
    var check := new ShapeCheck(isSpace);
    ok := check.Visit(node, 0);
  }
}
