/**
 Removal of `<ref .../>` and `<removed_ref .../>` tags from text, whole
 (`strip_ref_tags`) and streamed (`RefTagStripper`) - backend/app/services/agent_refs.py.

 The regular expression's word boundary depends on which characters count as
 word characters; that classification is a parameter, so every result holds for
 every classification.
 */
module RefTags {
  import opened Common

  const MAX_HELD_TAG_CHARS := 200

  const REF_HEAD := "<ref"
  const REMOVED_REF_HEAD := "<removed_ref"

  /** Length of the tag head that opens `s`, 0 when none does. */
  function HeadLength(s: string): (n: nat)
    ensures n <= |s|
  {
    if REF_HEAD <= s then |REF_HEAD|
    else if REMOVED_REF_HEAD <= s then |REMOVED_REF_HEAD|
    else 0
  }

  /** Length of the tag that opens `s` (head, boundary, anything but '>', then '>'), 0 when none does. */
  function TagLength(isWord: char -> bool, s: string): (n: nat)
    ensures n <= |s|
    ensures n > 0 ==> s[0] == '<' && n == IndexOf(s, '>') + 1
  {
    var h := HeadLength(s);
    if h == 0 || h == |s| || isWord(s[h]) then 0 else IndexOf(s, '>') + 1
  }

  /** `strip_ref_tags`: every tag removed, leftmost first. */
  function Strip(isWord: char -> bool, s: string): string {
    if s == "" then ""
    else
      var n := TagLength(isWord, s);
      if n > 0 then Strip(isWord, s[n..]) else [s[0]] + Strip(isWord, s[1..])
  }

  /** `_could_be_tag_start`. */
  predicate CouldBeTagStart(fragment: string) {
    fragment <= REF_HEAD || REF_HEAD <= fragment ||
    fragment <= REMOVED_REF_HEAD || REMOVED_REF_HEAD <= fragment
  }

  /** What one pass over a buffer releases and what it keeps back. */
  datatype Pass = Pass(out: string, held: string) {
    function After(prefix: string): Pass { Pass(prefix + out, held) }
  }

  /** One turn of the scan: release `out`, go on with `rest`, or keep `rest` back when `final`. */
  datatype Turn = Turn(out: string, rest: string, final: bool)

  function NextTurn(isWord: char -> bool, text: string): (t: Turn)
    ensures t.final ==> |t.rest| <= MAX_HELD_TAG_CHARS
    ensures !t.final ==> |t.rest| < |text|
  {
    var start := IndexOf(text, '<');
    if start == -1 then Turn(text, "", true)
    else
      var fragment := text[start..];
      var close := IndexOf(fragment, '>');
      if close != -1 && TagLength(isWord, fragment[..close + 1]) == close + 1 then
        Turn(text[..start], fragment[close + 1..], false)
      else if close == -1 && |fragment| <= MAX_HELD_TAG_CHARS && CouldBeTagStart(fragment) then
        Turn(text[..start], fragment, true)
      else
        Turn(text[..start] + "<", fragment[1..], false)
  }

  /** One pass over a buffer: text goes out, complete tags vanish, a possible tag prefix is held. */
  function Scan(isWord: char -> bool, buffer: string): (r: Pass)
    ensures |r.held| <= MAX_HELD_TAG_CHARS
    decreases |buffer|
  {
    var turn := NextTurn(isWord, buffer);
    if turn.final then Pass(turn.out, turn.rest) else Scan(isWord, turn.rest).After(turn.out)
  }

  /** A turn taken with `done` already out. */
  lemma {:induction false} ScanTurn(isWord: char -> bool, text: string, done: string)
    ensures
      var turn := NextTurn(isWord, text);
      Scan(isWord, text).After(done) ==
      if turn.final then Pass(done + turn.out, turn.rest)
      else Scan(isWord, turn.rest).After(done + turn.out)
  {
    hide NextTurn;
    var turn := NextTurn(isWord, text);
    var tail := Scan(isWord, turn.rest);
    assert done + (turn.out + tail.out) == done + turn.out + tail.out;
  }

  /** The streaming object: `feed` any number of deltas, then `flush`. */
  class RefTagStripper {
    const isWord: char -> bool
    var held: string

    constructor (isWord: char -> bool)
      ensures this.isWord == isWord && held == ""
    {
      this.isWord := isWord;
      held := "";
    }

    method Feed(delta: string) returns (visible: string)
      modifies this`held
      ensures visible == Scan(isWord, old(held) + delta).out
      ensures held == Scan(isWord, old(held) + delta).held
    {
      hide Scan, TagLength, CouldBeTagStart, IndexOf;
      var buffer := held + delta;
      held, visible := "", "";
      var position := 0;
      assert buffer[position..] == buffer;
      while position < |buffer|
        invariant 0 <= position <= |buffer|
        invariant held == ""
        invariant Scan(isWord, buffer) == Scan(isWord, buffer[position..]).After(visible)
        decreases |buffer| - position
      {
        var rest := buffer[position..];
        ScanTurn(isWord, rest, visible);
        ghost var turn := NextTurn(isWord, rest);
        var start := IndexOf(rest, '<');
        if start == -1 {
          visible := visible + rest;
          return;
        }
        var before := rest[..start];
        var fragment := rest[start..];
        var close := IndexOf(fragment, '>');
        if close != -1 {
          var candidate := fragment[..close + 1];
          if TagLength(isWord, candidate) == close + 1 {
            visible := visible + before;
            position := position + start + close + 1;
            assert buffer[position..] == turn.rest;
            continue;
          }
        } else if |fragment| <= MAX_HELD_TAG_CHARS && CouldBeTagStart(fragment) {
          visible := visible + before;
          held := fragment;
          return;
        }
        visible := visible + (before + "<");
        position := position + start + 1;
        assert buffer[position..] == turn.rest;
      }
      assert buffer[position..] == "" && '<' !in "";
      ScanTurn(isWord, "", visible);
    }

    method Flush() returns (rest: string)
      modifies this`held
      ensures rest == old(held) && held == ""
    {
      rest, held := held, "";
    }
  }

  /** All output of a stripper holding `held` that is fed `deltas` and then flushed. */
  function Stream(isWord: char -> bool, held: string, deltas: seq<string>): string
    decreases |deltas|
  {
    if deltas == [] then held
    else
      var pass := Scan(isWord, held + deltas[0]);
      pass.out + Stream(isWord, pass.held, deltas[1..])
  }

  /** The consumer loop: feed each delta, collect what is visible, flush at the end. */
  method StripStream(isWord: char -> bool, deltas: seq<string>) returns (visible: string)
    ensures visible == Stream(isWord, "", deltas)
  {
    hide Scan;
    var stripper := new RefTagStripper(isWord);
    visible := "";
    assert deltas[0..] == deltas;
    for i := 0 to |deltas|
      invariant stripper.isWord == isWord
      invariant Stream(isWord, "", deltas) == visible + Stream(isWord, stripper.held, deltas[i..])
    {
      assert deltas[i..][0] == deltas[i] && deltas[i..][1..] == deltas[i + 1..];
      var part := stripper.Feed(deltas[i]);
      visible := visible + part;
    }
    var tail := stripper.Flush();
    visible := visible + tail;
  }

  /** Every tag in the text closes at offset at most 200 from its '<'. */
  ghost predicate ShortTags(isWord: char -> bool, s: string) {
    forall i :: 0 <= i < |s| ==> TagLength(isWord, s[i..]) <= MAX_HELD_TAG_CHARS + 1
  }

  /** Removal of the tags that close within the bound only: what a character-wise stream yields. */
  function StripBounded(isWord: char -> bool, s: string): string {
    if s == "" then ""
    else
      var n := TagLength(isWord, s);
      if 0 < n <= MAX_HELD_TAG_CHARS + 1 then StripBounded(isWord, s[n..])
      else [s[0]] + StripBounded(isWord, s[1..])
  }

  /** A text holding '>' opens with the same head however it continues. */
  lemma {:induction false} HeadLengthAppend(a: string, f: string)
    requires '>' in a
    ensures HeadLength(a + f) == HeadLength(a)
  {
    PrefixAppend(REF_HEAD, a, f);
    PrefixAppend(REMOVED_REF_HEAD, a, f);
  }

  lemma {:induction false} PrefixAppend(p: string, a: string, f: string)
    requires '>' !in p && '>' in a
    ensures p <= a + f <==> p <= a
  {
    var close :| 0 <= close < |a| && a[close] == '>';
    assert (a + f)[close] == '>';
    assert p <= a + f ==> forall k :: 0 <= k < |p| ==> p[k] == (a + f)[k];
    assert |p| <= |a| ==> (a + f)[..|p|] == a[..|p|];
  }

  /** Text after the closing '>' does not change whether a tag opens the text. */
  lemma {:induction false} TagLengthAppend(isWord: char -> bool, a: string, f: string)
    requires '>' in a
    ensures TagLength(isWord, a + f) == TagLength(isWord, a)
  {
    HeadLengthAppend(a, f);
    IndexOfAppend(a, f, '>');
    IndexOfIsFirst(a, '>');
    HeadHasNoClose(a);
    var h := HeadLength(a);
    hide HeadLength, IndexOf;
    assert a[..h] == a ==> '>' !in a;
    assert h < |a| ==> (a + f)[h] == a[h];
  }

  lemma {:induction false} HeadHasNoClose(s: string)
    ensures '>' !in s[..HeadLength(s)]
  {}

  /** A fragment that cannot start a tag does not open one however it continues. */
  lemma {:induction false} NoTagStart(isWord: char -> bool, a: string, f: string)
    requires !CouldBeTagStart(a)
    ensures TagLength(isWord, a + f) == 0
  {
    NoPrefix(REF_HEAD, a, f);
    NoPrefix(REMOVED_REF_HEAD, a, f);
  }

  lemma {:induction false} NoPrefix(p: string, a: string, f: string)
    requires !(a <= p) && !(p <= a)
    ensures !(p <= a + f)
  {}

  lemma {:induction false} StripFirst(isWord: char -> bool, s: string)
    requires s != "" && s[0] != '<'
    ensures StripBounded(isWord, s) == [s[0]] + StripBounded(isWord, s[1..])
  {
    hide TagLength;
  }

  lemma {:induction false} StripPlain(isWord: char -> bool, x: string, f: string)
    requires '<' !in x
    ensures StripBounded(isWord, x + f) == x + StripBounded(isWord, f)
  {
    hide StripBounded;
    if x == "" {
      assert x + f == f;
    } else {
      assert x[0] in x;
      StripFirst(isWord, x + f);
      assert (x + f)[0] == x[0] && (x + f)[1..] == x[1..] + f;
      StripPlain(isWord, x[1..], f);
      assert x == [x[0]] + x[1..];
    }
  }

  lemma {:induction false} PlainBeforeFirst(s: string, c: char)
    ensures
      var i := IndexOf(s, c);
      if i == -1 then c !in s else s[i] == c && c !in s[..i]
  {
    IndexOfIsFirst(s, c);
    hide IndexOf;
    var i := IndexOf(s, c);
    assert forall k :: 0 <= k < i ==> s[..i][k] == s[k];
  }

  /** What a turn releases is what bounded removal would have left of the text it passes. */
  lemma {:induction false} TurnKeepsMeaning(isWord: char -> bool, b: string, f: string)
    requires ShortTags(isWord, b)
    ensures
      var turn := NextTurn(isWord, b);
      StripBounded(isWord, b + f) == turn.out + StripBounded(isWord, turn.rest + f)
  {
    hide StripBounded, TagLength, CouldBeTagStart, IndexOf;
    var start := IndexOf(b, '<');
    PlainBeforeFirst(b, '<');
    if start == -1 {
      StripPlain(isWord, b, f);
      assert "" + f == f;
    } else {
      var before, fragment := b[..start], b[start..];
      FragmentKeepsMeaning(isWord, fragment, f);
      assert b + f == before + (fragment + f);
      StripPlain(isWord, before, fragment + f);
      var tail := StripBounded(isWord, fragment[1..] + f);
      assert before + ("<" + tail) == before + "<" + tail;
    }
  }

  lemma {:induction false} FragmentKeepsMeaning(isWord: char -> bool, fragment: string, f: string)
    requires fragment != "" && fragment[0] == '<'
    requires TagLength(isWord, fragment) <= MAX_HELD_TAG_CHARS + 1
    ensures
      var close := IndexOf(fragment, '>');
      if close != -1 && TagLength(isWord, fragment[..close + 1]) == close + 1 then
        StripBounded(isWord, fragment + f) == StripBounded(isWord, fragment[close + 1..] + f)
      else
        (close == -1 && |fragment| <= MAX_HELD_TAG_CHARS && CouldBeTagStart(fragment)) ||
        StripBounded(isWord, fragment + f) == "<" + StripBounded(isWord, fragment[1..] + f)
  {
    hide TagLength, CouldBeTagStart, IndexOf;
    var close := IndexOf(fragment, '>');
    PlainBeforeFirst(fragment, '>');
    if close != -1 {
      TagLengthAppend(isWord, fragment, f);
      assert fragment == fragment[..close + 1] + fragment[close + 1..];
      assert fragment[..close + 1][close] == '>';
      TagLengthAppend(isWord, fragment[..close + 1], fragment[close + 1..]);
      assert (fragment + f)[close + 1..] == fragment[close + 1..] + f;
    } else if CouldBeTagStart(fragment) {
      LateClose(fragment, f);
    } else {
      NoTagStart(isWord, fragment, f);
    }
    assert (fragment + f)[1..] == fragment[1..] + f;
  }

  lemma {:induction false} LateClose(a: string, f: string)
    requires '>' !in a
    ensures IndexOf(a + f, '>') == -1 || IndexOf(a + f, '>') >= |a|
  {
    IndexOfIsFirst(a + f, '>');
    hide IndexOf;
    assert forall k :: 0 <= k < |a| ==> (a + f)[k] == a[k];
  }

  /** A pass over a buffer keeps the meaning of the buffer, whatever text follows. */
  lemma {:induction false} ScanKeepsMeaning(isWord: char -> bool, b: string, f: string)
    requires ShortTags(isWord, b)
    ensures
      var pass := Scan(isWord, b);
      StripBounded(isWord, b + f) == pass.out + StripBounded(isWord, pass.held + f)
    decreases |b|
  {
    hide NextTurn, StripBounded;
    TurnKeepsMeaning(isWord, b, f);
    var turn := NextTurn(isWord, b);
    if !turn.final {
      TurnRestIsSuffix(isWord, b);
      ShortTagsSuffix(isWord, b, |b| - |turn.rest|);
      ScanKeepsMeaning(isWord, turn.rest, f);
      var pass := Scan(isWord, turn.rest);
      var tail := StripBounded(isWord, pass.held + f);
      assert turn.out + (pass.out + tail) == turn.out + pass.out + tail;
    }
  }

  lemma {:induction false} TurnRestIsSuffix(isWord: char -> bool, b: string)
    ensures
      var rest := NextTurn(isWord, b).rest;
      |rest| <= |b| && rest == b[|b| - |rest|..]
  {
    hide IndexOf, TagLength, CouldBeTagStart;
    var start := IndexOf(b, '<');
    if start != -1 {
      var fragment := b[start..];
      var close := IndexOf(fragment, '>');
      assert fragment[close + 1..] == b[start + close + 1..];
      assert fragment[1..] == b[start + 1..];
    }
  }

  lemma {:induction false} ShortTagsSuffix(isWord: char -> bool, s: string, n: nat)
    requires ShortTags(isWord, s) && n <= |s|
    ensures ShortTags(isWord, s[n..])
  {
    hide TagLength;
    forall i | 0 <= i < |s| - n
      ensures TagLength(isWord, s[n..][i..]) <= MAX_HELD_TAG_CHARS + 1
    {
      assert s[n..][i..] == s[n + i..];
    }
  }

  lemma {:induction false} ShortTagsPrefix(isWord: char -> bool, a: string, f: string)
    requires ShortTags(isWord, a + f)
    ensures ShortTags(isWord, a)
  {
    forall i | 0 <= i < |a|
      ensures TagLength(isWord, a[i..]) <= MAX_HELD_TAG_CHARS + 1
    {
      assert (a + f)[i..] == a[i..] + f;
      IndexOfIsFirst(a[i..], '>');
      if '>' in a[i..] {
        TagLengthAppend(isWord, a[i..], f);
      }
    }
  }

  lemma {:induction false} NoCloseNoTag(isWord: char -> bool, s: string)
    requires '>' !in s
    ensures StripBounded(isWord, s) == s
  {
    if s != "" {
      IndexOfIsFirst(s, '>');
      hide IndexOf;
      NoCloseNoTag(isWord, s[1..]);
    }
  }

  lemma {:induction false} HeldHasNoClose(isWord: char -> bool, buffer: string)
    ensures '>' !in Scan(isWord, buffer).held
    decreases |buffer|
  {
    var turn := NextTurn(isWord, buffer);
    if turn.final {
      IndexOfIsFirst(turn.rest, '>');
    } else {
      HeldHasNoClose(isWord, turn.rest);
    }
  }

  /** Every tag that is ever complete inside a buffer of this stream is short. */
  ghost predicate BuffersShort(isWord: char -> bool, held: string, deltas: seq<string>)
    decreases |deltas|
  {
    deltas == [] ||
    (ShortTags(isWord, held + deltas[0]) &&
     BuffersShort(isWord, Scan(isWord, held + deltas[0]).held, deltas[1..]))
  }

  /** Then the stream is bounded removal of the whole text. */
  lemma {:induction false} StreamIsBounded(isWord: char -> bool, held: string, deltas: seq<string>)
    requires '>' !in held && BuffersShort(isWord, held, deltas)
    ensures Stream(isWord, held, deltas) == StripBounded(isWord, held + Concat(deltas))
    decreases |deltas|
  {
    hide StripBounded, ShortTags, Scan;
    if deltas == [] {
      assert held + [] == held;
      NoCloseNoTag(isWord, held);
    } else {
      var buffer, tail := held + deltas[0], Concat(deltas[1..]);
      assert held + Concat(deltas) == buffer + tail;
      ScanKeepsMeaning(isWord, buffer, tail);
      HeldHasNoClose(isWord, buffer);
      StreamIsBounded(isWord, Scan(isWord, buffer).held, deltas[1..]);
    }
  }

  /** However the text is cut, its buffers hold only short tags when the text does. */
  lemma {:induction false} ShortTextShortBuffers(isWord: char -> bool, held: string, deltas: seq<string>)
    requires ShortTags(isWord, held + Concat(deltas))
    ensures BuffersShort(isWord, held, deltas)
    decreases |deltas|
  {
    hide ShortTags, Scan;
    if deltas != [] {
      var buffer, tail := held + deltas[0], Concat(deltas[1..]);
      assert held + Concat(deltas) == buffer + tail;
      ShortTagsPrefix(isWord, buffer, tail);
      HeldIsSuffix(isWord, buffer);
      var kept := Scan(isWord, buffer).held;
      assert (buffer + tail)[|buffer| - |kept|..] == kept + tail;
      ShortTagsSuffix(isWord, buffer + tail, |buffer| - |kept|);
      ShortTextShortBuffers(isWord, kept, deltas[1..]);
    }
  }

  /** The text cut into single characters. */
  function Characters(s: string): (deltas: seq<string>) {
    seq(|s|, i requires 0 <= i < |s| => [s[i]])
  }

  lemma {:induction false} CharactersConcat(s: string)
    ensures Concat(Characters(s)) == s
  {
    if s != "" {
      assert Characters(s)[1..] == Characters(s[1..]);
      CharactersConcat(s[1..]);
    }
  }

  /** A character-wise stream never has a complete long tag in its buffer. */
  lemma {:induction false} CharacterBuffersShort(isWord: char -> bool, held: string, deltas: seq<string>)
    requires |held| <= MAX_HELD_TAG_CHARS && forall i :: 0 <= i < |deltas| ==> |deltas[i]| == 1
    ensures BuffersShort(isWord, held, deltas)
    decreases |deltas|
  {
    hide TagLength, Scan;
    if deltas != [] {
      CharacterBuffersShort(isWord, Scan(isWord, held + deltas[0]).held, deltas[1..]);
    }
  }

  /** What is held back is the end of the buffer: a pass never reorders or invents text. */
  lemma {:induction false} HeldIsSuffix(isWord: char -> bool, b: string)
    ensures
      var held := Scan(isWord, b).held;
      |held| <= |b| && held == b[|b| - |held|..]
    decreases |b|
  {
    var turn := NextTurn(isWord, b);
    TurnRestIsSuffix(isWord, b);
    if !turn.final {
      HeldIsSuffix(isWord, turn.rest);
    }
  }

  /** Bounded removal keeps at least what full removal keeps, and strictly more exactly when a tag is long. */
  lemma {:induction false} BoundedKeepsMore(isWord: char -> bool, s: string)
    ensures |StripBounded(isWord, s)| >= |Strip(isWord, s)|
    ensures ShortTags(isWord, s) ==> StripBounded(isWord, s) == Strip(isWord, s)
    ensures !ShortTags(isWord, s) ==> |StripBounded(isWord, s)| > |Strip(isWord, s)|
    decreases |s|
  {
    hide TagLength;
    if s != "" {
      var n := TagLength(isWord, s);
      if n == 0 {
        BoundedKeepsMore(isWord, s[1..]);
        if ShortTags(isWord, s) { ShortTagsSuffix(isWord, s, 1); }
        if ShortTags(isWord, s[1..]) { ShortTagsCons(isWord, s, 1); }
      } else if n <= MAX_HELD_TAG_CHARS + 1 {
        BoundedKeepsMore(isWord, s[n..]);
        if ShortTags(isWord, s) { ShortTagsSuffix(isWord, s, n); }
        if ShortTags(isWord, s[n..]) { ShortTagsCons(isWord, s, n); }
      } else {
        BoundedKeepsMore(isWord, s[n..]);
        BoundedInsideTag(isWord, s, n, 1);
        assert s[0..] == s;
        assert !ShortTags(isWord, s);
      }
    }
  }

  /** Short tags in front of short tags: inside an opening tag every other tag closes with it. */
  lemma {:induction false} ShortTagsCons(isWord: char -> bool, s: string, n: nat)
    requires s != "" && n == Max(1, TagLength(isWord, s)) <= MAX_HELD_TAG_CHARS + 1
    requires ShortTags(isWord, s[n..])
    ensures ShortTags(isWord, s)
  {
    forall i | 0 <= i < |s|
      ensures TagLength(isWord, s[i..]) <= MAX_HELD_TAG_CHARS + 1
    {
      if i >= n {
        assert s[n..][i - n..] == s[i..];
      } else if i == 0 {
        assert s[0..] == s;
      } else {
        InnerTagLength(isWord, s, n, i);
      }
    }
  }

  /** A tag that starts inside a tag ends with it. */
  lemma {:induction false} InnerTagLength(isWord: char -> bool, s: string, n: nat, i: nat)
    requires 0 < i < n == TagLength(isWord, s)
    ensures TagLength(isWord, s[i..]) == 0 || TagLength(isWord, s[i..]) == n - i
  {
    IndexOfIsFirst(s, '>');
    IndexOfIsFirst(s[i..], '>');
    hide IndexOf, HeadLength;
    assert s[i..][n - 1 - i] == '>';
    assert forall k :: 0 <= k < n - 1 - i ==> s[i..][k] == s[i + k];
  }

  /** From anywhere inside a tag, bounded removal still reaches the text after it. */
  lemma {:induction false} BoundedInsideTag(isWord: char -> bool, s: string, n: nat, i: nat)
    requires 0 < i <= n == TagLength(isWord, s)
    ensures |StripBounded(isWord, s[i..])| >= |StripBounded(isWord, s[n..])|
    decreases n - i
  {
    hide TagLength;
    if i < n {
      InnerTagLength(isWord, s, n, i);
      assert s[i..][n - i..] == s[n..] && s[i..][1..] == s[i + 1..];
      BoundedInsideTag(isWord, s, n, i + 1);
    }
  }

  /** Any cut of a text with short tags gives the whole-text removal. */
  lemma {:induction false} ChunkingIndependent(isWord: char -> bool, deltas: seq<string>)
    requires ShortTags(isWord, Concat(deltas))
    ensures Stream(isWord, "", deltas) == Strip(isWord, Concat(deltas))
  {
    hide ShortTags, Stream, Strip, StripBounded;
    assert "" + Concat(deltas) == Concat(deltas);
    ShortTextShortBuffers(isWord, "", deltas);
    StreamIsBounded(isWord, "", deltas);
    BoundedKeepsMore(isWord, Concat(deltas));
  }

  /** Character by character the stream is bounded removal, on every text. */
  lemma {:induction false} CharacterStream(isWord: char -> bool, s: string)
    ensures Stream(isWord, "", Characters(s)) == StripBounded(isWord, s)
  {
    hide Stream, StripBounded;
    CharactersConcat(s);
    assert "" + s == s;
    CharacterBuffersShort(isWord, "", Characters(s));
    StreamIsBounded(isWord, "", Characters(s));
  }

  /**
   The exact condition: every way of cutting the text streams to the whole-text
   removal if and only if every tag closes at offset at most 200.
   */
  lemma {:induction false} ChunkingExact(isWord: char -> bool, s: string)
    ensures (forall deltas :: Concat(deltas) == s ==> Stream(isWord, "", deltas) == Strip(isWord, s))
            <==> ShortTags(isWord, s)
  {
    hide ShortTags, Stream, Strip, StripBounded;
    if ShortTags(isWord, s) {
      forall deltas | Concat(deltas) == s
        ensures Stream(isWord, "", deltas) == Strip(isWord, s)
      {
        ChunkingIndependent(isWord, deltas);
      }
    } else {
      CharactersConcat(s);
      CharacterStream(isWord, s);
      BoundedKeepsMore(isWord, s);
    }
  }
}
