/**
 What a reference tag is, character by character, and that the removal of
 backend/app/services/agent_refs.py, whole and streamed, takes out exactly the tags.
 */
module RefTagTexts {
  import opened Common
  import opened RefTags

  /** A head, a word boundary, anything but '>', then '>'. */
  predicate TagParts(isWord: char -> bool, tag: string, head: string, rest: string) {
    && (head == "<ref" || head == "<removed_ref")
    && tag == head + rest + ">" && '>' !in rest && !isWord((rest + ">")[0])
  }

  ghost predicate IsTag(isWord: char -> bool, tag: string) {
    exists head, rest :: TagParts(isWord, tag, head, rest)
  }

  /** A character that stays, or a tag that goes. */
  datatype Part = Kept(c: char) | Tag(text: string)

  function Joined(parts: seq<Part>): string {
    if parts == [] then "" else (if parts[0].Kept? then [parts[0].c] else parts[0].text) + Joined(parts[1..])
  }

  function KeptText(parts: seq<Part>): string {
    if parts == [] then "" else (if parts[0].Kept? then [parts[0].c] else "") + KeptText(parts[1..])
  }

  ghost predicate StartsNoTag(isWord: char -> bool, s: string) {
    forall n :: 0 < n <= |s| ==> !IsTag(isWord, s[..n])
  }

  /** Leftmost tags first: a character is kept only where no tag starts. */
  ghost predicate IsCut(isWord: char -> bool, parts: seq<Part>) {
    parts != [] ==>
      && (if parts[0].Tag? then IsTag(isWord, parts[0].text) else StartsNoTag(isWord, Joined(parts)))
      && IsCut(isWord, parts[1..])
  }

  // ---- the length of a tag ----------------------------------------------------

  lemma {:induction false} FirstClose(a: string, after: string)
    requires '>' !in a
    ensures IndexOf(a + ">" + after, '>') == |a|
  {
    var s := a + ">" + after;
    IndexOfIsFirst(s, '>');
    hide IndexOf;
    assert s[|a|] == '>';
    assert forall k :: 0 <= k < |a| ==> s[k] == a[k];
  }

  lemma {:induction false} HeadFound(head: string, more: string)
    requires head == "<ref" || head == "<removed_ref"
    ensures HeadLength(head + more) == |head|
  {
    assert (head + more)[..|head|] == head;
    assert head == "<removed_ref" ==> (head + more)[3] == 'm';
  }

  lemma {:induction false} TagAhead(isWord: char -> bool, head: string, rest: string, after: string)
    requires TagParts(isWord, head + rest + ">", head, rest)
    ensures TagLength(isWord, head + rest + ">" + after) == |head + rest + ">"|
  {
    var s := head + rest + ">" + after;
    assert s == head + (rest + ">" + after);
    HeadFound(head, rest + ">" + after);
    FirstClose(head + rest, after);
    hide HeadLength, IndexOf;
    assert s[|head|] == (rest + ">")[0];
  }

  lemma {:induction false} TagFound(isWord: char -> bool, s: string)
    requires TagLength(isWord, s) > 0
    ensures IsTag(isWord, s[..TagLength(isWord, s)])
  {
    var n, h := TagLength(isWord, s), HeadLength(s);
    IndexOfIsFirst(s, '>');
    HeadHasNoClose(s);
    HeadText(s);
    hide IndexOf, HeadLength;
    forall k | 0 <= k < h
      ensures s[k] != '>'
    {
      assert s[k] in s[..h];
    }
    var rest := s[h..n - 1];
    assert s[..n] == s[..h] + rest + ">";
    assert forall k :: 0 <= k < |rest| ==> rest[k] == s[h + k];
    assert (rest + ">")[0] == s[h];
    assert TagParts(isWord, s[..n], s[..h], rest);
  }

  lemma {:induction false} HeadText(s: string)
    requires HeadLength(s) > 0
    ensures s[..HeadLength(s)] == "<ref" || s[..HeadLength(s)] == "<removed_ref"
  {}

  /** Where a tag starts, `TagLength` is its length, and elsewhere it is 0. */
  lemma {:induction false} TagExact(isWord: char -> bool, s: string, n: nat)
    requires 0 < n <= |s|
    ensures IsTag(isWord, s[..n]) <==> TagLength(isWord, s) == n
  {
    if IsTag(isWord, s[..n]) {
      var head, rest :| TagParts(isWord, s[..n], head, rest);
      TagAhead(isWord, head, rest, s[n..]);
      assert s == s[..n] + s[n..];
    }
    if TagLength(isWord, s) == n { TagFound(isWord, s); }
  }

  lemma {:induction false} NoTagExact(isWord: char -> bool, s: string)
    ensures StartsNoTag(isWord, s) <==> TagLength(isWord, s) == 0
  {
    hide TagLength, IsTag;
    if TagLength(isWord, s) == 0 {
      forall n | 0 < n <= |s|
        ensures !IsTag(isWord, s[..n])
      {
        TagExact(isWord, s, n);
      }
    } else {
      TagExact(isWord, s, TagLength(isWord, s));
    }
  }

  // ---- removal ----------------------------------------------------------------

  lemma {:induction false} TagNotEmpty(isWord: char -> bool, tag: string)
    requires IsTag(isWord, tag)
    ensures |tag| >= 5
  {}

  /** A tag in front of a text vanishes. */
  lemma {:induction false} TagVanishes(isWord: char -> bool, tag: string, after: string)
    requires IsTag(isWord, tag)
    ensures TagLength(isWord, tag + after) == |tag| && Strip(isWord, tag + after) == Strip(isWord, after)
  {
    TagNotEmpty(isWord, tag);
    assert (tag + after)[..|tag|] == tag && (tag + after)[|tag|..] == after;
    TagExact(isWord, tag + after, |tag|);
    hide TagLength, IsTag;
  }

  lemma {:induction false} CharacterStays(isWord: char -> bool, s: string)
    requires s != "" && StartsNoTag(isWord, s)
    ensures Strip(isWord, s) == [s[0]] + Strip(isWord, s[1..])
  {
    NoTagExact(isWord, s);
    hide TagLength, StartsNoTag;
  }

  lemma {:induction false} JoinedHead(parts: seq<Part>)
    requires parts != []
    ensures parts[0].Kept? ==>
              Joined(parts) != "" && Joined(parts)[0] == parts[0].c && Joined(parts)[1..] == Joined(parts[1..])
    ensures parts[0].Tag? ==> Joined(parts) == parts[0].text + Joined(parts[1..])
  {}

  /** `strip_ref_tags` takes out the tags of the text and keeps every other character. */
  lemma {:induction false} StripIsRemoval(isWord: char -> bool, parts: seq<Part>)
    requires IsCut(isWord, parts)
    ensures Strip(isWord, Joined(parts)) == KeptText(parts)
  {
    if parts != [] {
      StripIsRemoval(isWord, parts[1..]);
      JoinedHead(parts);
      hide IsTag, Strip, StartsNoTag, Joined;
      if parts[0].Tag? {
        TagVanishes(isWord, parts[0].text, Joined(parts[1..]));
      } else {
        CharacterStays(isWord, Joined(parts));
      }
    }
  }

  lemma {:induction false} FirstPart(isWord: char -> bool, s: string) returns (first: Part, n: nat)
    requires s != ""
    ensures 0 < n <= |s| && s == (if first.Kept? then [first.c] else first.text) + s[n..]
    ensures if first.Tag? then IsTag(isWord, first.text) else StartsNoTag(isWord, s)
  {
    NoTagExact(isWord, s);
    n := TagLength(isWord, s);
    hide TagLength, IsTag, StartsNoTag;
    if n > 0 {
      TagExact(isWord, s, n);
      first := Tag(s[..n]);
    } else {
      first, n := Kept(s[0]), 1;
    }
  }

  lemma {:induction false} CutCons(isWord: char -> bool, first: Part, rest: seq<Part>, s: string)
    requires IsCut(isWord, rest) && s == (if first.Kept? then [first.c] else first.text) + Joined(rest)
    requires if first.Tag? then IsTag(isWord, first.text) else StartsNoTag(isWord, s)
    ensures IsCut(isWord, [first] + rest) && Joined([first] + rest) == s
  {
    hide IsTag, StartsNoTag;
    assert ([first] + rest)[1..] == rest;
  }

  /** Every text has such a cut. */
  lemma {:induction false} CutExists(isWord: char -> bool, s: string) returns (parts: seq<Part>)
    ensures IsCut(isWord, parts) && Joined(parts) == s
    decreases |s|
  {
    if s == "" {
      parts := [];
    } else {
      hide IsTag, StartsNoTag, Joined, IsCut;
      var first, n := FirstPart(isWord, s);
      var rest := CutExists(isWord, s[n..]);
      parts := [first] + rest;
      CutCons(isWord, first, rest, s);
    }
  }

  ghost predicate TagsClose(parts: seq<Part>) {
    forall k :: 0 <= k < |parts| && parts[k].Tag? ==> |parts[k].text| <= 201
  }

  lemma {:induction false} TagsCloseShort(isWord: char -> bool, parts: seq<Part>)
    requires IsCut(isWord, parts) && TagsClose(parts)
    ensures ShortTags(isWord, Joined(parts))
  {
    if parts != [] {
      assert forall k :: 0 <= k < |parts[1..]| ==> parts[1..][k] == parts[k + 1];
      TagsCloseShort(isWord, parts[1..]);
      JoinedHead(parts);
      var s := Joined(parts);
      if parts[0].Tag? {
        TagVanishes(isWord, parts[0].text, Joined(parts[1..]));
        TagNotEmpty(isWord, parts[0].text);
        assert s[|parts[0].text|..] == Joined(parts[1..]);
      } else {
        NoTagExact(isWord, s);
      }
      hide TagLength, IsTag, StartsNoTag, Joined, IsCut, TagsClose;
      ShortTagsCons(isWord, s, if parts[0].Tag? then |parts[0].text| else 1);
    }
  }

  /** However a text is cut into deltas, the stream keeps exactly what is not a tag, if every tag closes in time. */
  lemma {:induction false} StreamIsRemoval(isWord: char -> bool, deltas: seq<string>, parts: seq<Part>)
    requires IsCut(isWord, parts) && TagsClose(parts) && Concat(deltas) == Joined(parts)
    ensures Stream(isWord, "", deltas) == KeptText(parts)
  {
    TagsCloseShort(isWord, parts);
    ChunkingIndependent(isWord, deltas);
    StripIsRemoval(isWord, parts);
  }

  /** A text without tags is left as it is, whole and streamed. */
  lemma {:induction false} UntaggedStays(isWord: char -> bool, s: string, deltas: seq<string>)
    requires forall i, j :: 0 <= i < j <= |s| ==> !IsTag(isWord, s[i..j])
    requires Concat(deltas) == s
    ensures Strip(isWord, s) == s && Stream(isWord, "", deltas) == s
  {
    var parts := CutExists(isWord, s);
    NoTagParts(isWord, s, 0, parts);
    StreamIsRemoval(isWord, deltas, parts);
    StripIsRemoval(isWord, parts);
  }

  lemma {:induction false} NoTagParts(isWord: char -> bool, s: string, i: nat, parts: seq<Part>)
    requires forall i, j :: 0 <= i < j <= |s| ==> !IsTag(isWord, s[i..j])
    requires i <= |s| && Joined(parts) == s[i..] && IsCut(isWord, parts)
    ensures TagsClose(parts) && KeptText(parts) == s[i..]
    decreases |parts|
  {
    if parts != [] {
      JoinedHead(parts);
      hide IsTag, Joined, StartsNoTag;
      if parts[0].Tag? {
        TagHere(isWord, s, i, parts[0].text, Joined(parts[1..]));
        assert false;
      } else {
        assert s[i..][1..] == s[i + 1..];
        NoTagParts(isWord, s, i + 1, parts[1..]);
      }
    }
  }

  lemma {:induction false} TagHere(isWord: char -> bool, s: string, i: nat, tag: string, after: string)
    requires i <= |s| && IsTag(isWord, tag) && s[i..] == tag + after
    ensures i < i + |tag| <= |s| && IsTag(isWord, s[i..i + |tag|])
  {
    TagNotEmpty(isWord, tag);
    assert tag == s[i..][..|tag|] == s[i..i + |tag|];
  }

  // ---- what is held back ------------------------------------------------------

  /** Held text is empty, or the beginning of a head, or begins with one: nothing else waits for more input. */
  lemma {:induction false} HeldCouldBeTag(isWord: char -> bool, buffer: string)
    ensures
      var held := Scan(isWord, buffer).held;
      held == "" || held <= "<ref" || "<ref" <= held || held <= "<removed_ref" || "<removed_ref" <= held
    decreases |buffer|
  {
    var turn := NextTurn(isWord, buffer);
    if !turn.final { HeldCouldBeTag(isWord, turn.rest); }
  }
}
