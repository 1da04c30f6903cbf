/**
 Chat completions, streamed and whole: `ChatStreamParser` and
 `parse_complete_chat_response` - backend/app/integrations/agent_parsers.py.

 A chunk is modelled by the fields the parser reads; a field of the wrong JSON
 type is the same as an absent one.
 */
module ChatStream {
  import opened Common
  import opened AgentTypes

  /** One entry of `delta.tool_calls`; empty strings are absent fields. */
  datatype Piece = Piece(index: int, id: string, name: string, arguments: string)

  datatype Choice = Choice(content: string, pieces: seq<Piece>, finishReason: string)

  datatype Chunk = ErrorChunk(message: string) | DataChunk(usage: Option<Usage>, choice: Option<Choice>)

  /** A tool call being put together. */
  datatype Call = Call(id: string, name: string, arguments: string, started: bool, done: bool)

  datatype State = State(calls: map<int, Call>, finishReason: Option<string>, usage: Usage)

  /** The next value of the calls together with the events given out. */
  datatype Outcome = Outcome(calls: map<int, Call>, events: seq<AgentEvent>)

  // ---- one piece --------------------------------------------------------------

  function Joined(calls: map<int, Call>, p: Piece): Call {
    var call := if p.index in calls then calls[p.index] else Call("", "", "", false, false);
    call.(id := Or(p.id, call.id), name := call.name + p.name, arguments := call.arguments + p.arguments)
  }

  function AddPiece(calls: map<int, Call>, p: Piece): Outcome {
    var call := Joined(calls, p);
    if call.name != "" && !call.started then
      var begun := call.(started := true, id := Or(call.id, Fallback(p.index)));
      Outcome(calls[p.index := begun], [ToolCallStarted(begun.id, begun.name)])
    else
      Outcome(calls[p.index := call], [])
  }

  function AddPieces(calls: map<int, Call>, pieces: seq<Piece>): Outcome {
    if pieces == [] then Outcome(calls, [])
    else
      var before := AddPieces(calls, pieces[..|pieces| - 1]);
      var last := AddPiece(before.calls, pieces[|pieces| - 1]);
      Outcome(last.calls, before.events + last.events)
  }

  // ---- completion in index order ----------------------------------------------

  ghost predicate IsLeast(s: set<int>, m: int) {
    m in s && forall x :: x in s ==> m <= x
  }

  lemma {:induction false} LeastExists(s: set<int>) returns (m: int)
    requires s != {}
    ensures IsLeast(s, m)
    decreases |s|
  {
    m := Pick(s);
    var rest := s - {m};
    if rest != {} {
      var other := LeastExists(rest);
      assert forall x :: x in s ==> x == m || x in rest;
      m := Min(m, other);
    } else {
      assert forall x :: x in s ==> x == m || x in rest;
    }
  }

  ghost predicate Increasing(keys: seq<int>) {
    forall i, j :: 0 <= i < j < |keys| ==> keys[i] < keys[j]
  }

  /** `sorted(...)` of a set of indexes. */
  ghost predicate IsSorted(keys: seq<int>, s: set<int>) {
    Increasing(keys) && forall x :: x in keys <==> x in s
  }

  lemma {:induction false} SortedUnique(a: seq<int>, b: seq<int>, s: set<int>)
    requires IsSorted(a, s) && IsSorted(b, s)
    ensures a == b
  {
    SortedEmpty(a, s);
    SortedEmpty(b, s);
    if a != [] {
      assert a[0] in a && b[0] in b;
      assert a[0] == b[0];
      SortedTail(a, s);
      SortedTail(b, s);
      SortedUnique(a[1..], b[1..], s - {a[0]});
      assert a == [a[0]] + a[1..] && b == [b[0]] + b[1..];
    }
  }

  lemma {:induction false} SortedEmpty(keys: seq<int>, s: set<int>)
    requires IsSorted(keys, s)
    ensures keys == [] <==> s == {}
  {
    assert keys != [] ==> keys[0] in keys;
    if s != {} {
      var x := Pick(s);
    }
  }

  lemma {:induction false} SortedTail(keys: seq<int>, s: set<int>)
    requires IsSorted(keys, s) && keys != []
    ensures IsSorted(keys[1..], s - {keys[0]})
  {
    assert forall x :: x in keys <==> x == keys[0] || x in keys[1..];
  }

  lemma {:induction false} SortedExists(s: set<int>) returns (keys: seq<int>)
    ensures IsSorted(keys, s)
  {
    if s == {} {
      keys := [];
    } else {
      var m := LeastExists(s);
      var rest := SortedExists(s - {m});
      SortedCons(m, rest, s - {m});
      keys := [m] + rest;
      assert {m} + (s - {m}) == s;
    }
  }

  ghost function Sorted(s: set<int>): (keys: seq<int>)
    ensures IsSorted(keys, s)
  {
    assert exists keys :: IsSorted(keys, s) by {
      var keys := SortedExists(s);
    }
    var keys :| IsSorted(keys, s);
    keys
  }

  /** `sorted(...)`. */
  method SortKeys(s: set<int>) returns (keys: seq<int>)
    ensures keys == Sorted(s)
  {
    hide IsSorted, Sorted, AllBelow;
    keys := [];
    var rest := s;
    SortedNone(s);
    while rest != {}
      invariant rest <= s && IsSorted(keys, s - rest) && AllBelow(s - rest, rest)
      decreases |rest|
    {
      ghost var least := LeastExists(rest);
      var x :| x in rest && forall y :: y in rest ==> x <= y;
      LeastMoves(s, rest, x);
      SortedSnoc(keys, x, s - rest);
      keys := keys + [x];
      assert s - rest + {x} == s - (rest - {x});
      rest := rest - {x};
    }
    assert s - {} == s;
    SortedUnique(keys, Sorted(s), s);
  }

  ghost predicate AllBelow(s: set<int>, t: set<int>) {
    forall x, y :: x in s && y in t ==> x < y
  }

  lemma {:induction false} SortedNone(s: set<int>)
    ensures IsSorted([], s - s) && AllBelow(s - s, s)
  {}

  lemma {:induction false} LeastMoves(s: set<int>, rest: set<int>, x: int)
    requires rest <= s && AllBelow(s - rest, rest) && IsLeast(rest, x)
    ensures AllBelow(s - rest, {x}) && AllBelow(s - (rest - {x}), rest - {x})
  {
    forall a, b | a in s - (rest - {x}) && b in rest - {x}
      ensures a < b
    {
      assert b in rest && (a == x || a in s - rest);
    }
  }

  lemma {:induction false} SortedSnoc(keys: seq<int>, m: int, s: set<int>)
    requires IsSorted(keys, s) && AllBelow(s, {m})
    ensures IsSorted(keys + [m], s + {m})
  {
    assert forall i :: 0 <= i < |keys| ==> keys[i] in keys;
    assert forall x :: x in keys + [m] <==> x == m || x in keys;
  }

  lemma {:induction false} SortedCons(m: int, keys: seq<int>, s: set<int>)
    requires IsSorted(keys, s) && forall x :: x in s ==> m < x
    ensures IsSorted([m] + keys, {m} + s)
  {
    assert forall i :: 0 <= i < |keys| ==> keys[i] in keys;
    assert forall x :: x in [m] + keys <==> x == m || x in keys;
  }

  /** The events that complete one call: none when it is done or has no name. */
  function Completion(index: int, call: Call): seq<AgentEvent> {
    if call.done || call.name == "" then []
    else
      var id := Or(call.id, Fallback(index));
      (if call.started then [] else [ToolCallStarted(id, call.name)])
      + [ToolCallComplete(id, call.name, Or(call.arguments, "{}"))]
  }

  function Completions(calls: map<int, Call>, keys: seq<int>): seq<AgentEvent> {
    if keys == [] then []
    else (if keys[0] in calls then Completion(keys[0], calls[keys[0]]) else []) + Completions(calls, keys[1..])
  }

  function Ended(call: Call): Call { if call.name == "" then call else call.(done := true) }

  function EndedAll(calls: map<int, Call>): map<int, Call> {
    map k | k in calls :: Ended(calls[k])
  }

  /** The calls with the first `n` indexes of `keys` ended. */
  ghost function EndedSome(calls: map<int, Call>, keys: seq<int>, n: nat): map<int, Call>
    requires n <= |keys|
  {
    map k | k in calls :: if k in keys[..n] then Ended(calls[k]) else calls[k]
  }

  lemma {:induction false} EndedNone(calls: map<int, Call>, keys: seq<int>)
    ensures EndedSome(calls, keys, 0) == calls
  {}

  lemma {:induction false} EndedOneMore(calls: map<int, Call>, keys: seq<int>, i: nat)
    requires i < |keys| && IsSorted(keys, calls.Keys)
    ensures keys[i] in calls
    ensures keys[i] in EndedSome(calls, keys, i) && EndedSome(calls, keys, i)[keys[i]] == calls[keys[i]]
    ensures EndedSome(calls, keys, i)[keys[i] := Ended(calls[keys[i]])] == EndedSome(calls, keys, i + 1)
  {
    assert keys[i] in keys && keys[i] !in keys[..i];
    assert keys[..i + 1] == keys[..i] + [keys[i]];
  }

  lemma {:induction false} EndedEvery(calls: map<int, Call>, keys: seq<int>)
    requires IsSorted(keys, calls.Keys)
    ensures EndedSome(calls, keys, |keys|) == EndedAll(calls)
  {
    assert keys[..|keys|] == keys;
    assert forall k :: k in calls.Keys <==> k in keys;
  }

  ghost function CompleteAll(calls: map<int, Call>): Outcome {
    Outcome(EndedAll(calls), Completions(calls, Sorted(calls.Keys)))
  }

  // ---- one chunk --------------------------------------------------------------

  function TextOf(choice: Choice): seq<AgentEvent> {
    if choice.content == "" then [] else [TextDelta(choice.content, "", 0)]
  }

  ghost function FeedChoice(calls: map<int, Call>, choice: Choice): Outcome {
    var added := AddPieces(calls, choice.pieces);
    if choice.finishReason == "" then added.(events := TextOf(choice) + added.events)
    else
      var all := CompleteAll(added.calls);
      Outcome(all.calls, TextOf(choice) + added.events + all.events)
  }

  /** The state after a chunk that reports no error. */
  ghost function Next(s: State, usage: Option<Usage>, choice: Option<Choice>): State {
    State(if choice.None? then s.calls else FeedChoice(s.calls, choice.value).calls,
          if choice.None? || choice.value.finishReason == "" then s.finishReason else Some(choice.value.finishReason),
          usage.GetOr(s.usage))
  }

  ghost function Given(s: State, choice: Option<Choice>): seq<AgentEvent> {
    if choice.None? then [] else FeedChoice(s.calls, choice.value).events
  }

  function FinishOf(s: State): AgentEvent {
    if s.finishReason.None? then Finish("eof", true, s.usage, false)
    else Finish(s.finishReason.value, s.finishReason.value == "length", s.usage, true)
  }

  const START := State(map[], None, map[])

  // ---- the parser -------------------------------------------------------------

  class ChatStreamParser {
    var calls: map<int, Call>
    var finishReason: Option<string>
    var usage: Usage

    ghost function Contents(): State
      reads this
    {
      State(calls, finishReason, usage)
    }

    constructor ()
      ensures Contents() == START
    {
      calls, finishReason, usage := map[], None, map[];
    }

    /** A chunk that reports an error changes nothing; any other one gives its events. */
    method Feed(chunk: Chunk) returns (fed: Fed)
      modifies this
      ensures chunk.ErrorChunk? ==> fed == Failed(chunk.message) && Contents() == old(Contents())
      ensures chunk.DataChunk? ==>
                && fed == Events(Given(old(Contents()), chunk.choice))
                && Contents() == Next(old(Contents()), chunk.usage, chunk.choice)
    {
      hide AddPieces, Completions, EndedAll, Sorted;
      if chunk.ErrorChunk? {
        return Failed(chunk.message);
      }
      usage := chunk.usage.GetOr(usage);
      if chunk.choice.None? {
        return Events([]);
      }
      var choice := chunk.choice.value;
      var out := TextOf(choice);
      var begun := TakePieces(choice.pieces);
      out := out + begun;
      if choice.finishReason != "" {
        finishReason := Some(choice.finishReason);
        var completed := CompleteCalls();
        out := out + completed;
      }
      fed := Events(out);
    }

    method TakePieces(pieces: seq<Piece>) returns (out: seq<AgentEvent>)
      modifies this`calls
      ensures calls == AddPieces(old(calls), pieces).calls && out == AddPieces(old(calls), pieces).events
    {
      out := [];
      assert pieces[..|pieces|] == pieces;
      for i := 0 to |pieces|
        invariant calls == AddPieces(old(calls), pieces[..i]).calls
        invariant out == AddPieces(old(calls), pieces[..i]).events
      {
        assert pieces[..i + 1][..i] == pieces[..i] && pieces[..i + 1][i] == pieces[i];
        var begun := TakePiece(pieces[i]);
        out := out + begun;
      }
    }

    method TakePiece(p: Piece) returns (out: seq<AgentEvent>)
      modifies this`calls
      ensures calls == AddPiece(old(calls), p).calls && out == AddPiece(old(calls), p).events
    {
      out := [];
      var call := if p.index in calls then calls[p.index] else Call("", "", "", false, false);
      if p.id != "" { call := call.(id := p.id); }
      call := call.(name := call.name + p.name);
      call := call.(arguments := call.arguments + p.arguments);
      if call.name != "" && !call.started {
        call := call.(started := true);
        call := call.(id := Or(call.id, Fallback(p.index)));
        out := [ToolCallStarted(call.id, call.name)];
      }
      calls := calls[p.index := call];
    }

    method CompleteCalls() returns (out: seq<AgentEvent>)
      modifies this`calls
      ensures calls == CompleteAll(old(calls)).calls && out == CompleteAll(old(calls)).events
    {
      hide Completion, Sorted, Ended, EndedSome, EndedAll, IsSorted;
      ghost var before := calls;
      var keys := SortKeys(calls.Keys);
      out := [];
      EndedNone(before, keys);
      assert keys[0..] == keys;
      for i := 0 to |keys|
        invariant calls == EndedSome(before, keys, i)
        invariant out + Completions(before, keys[i..]) == Completions(before, keys)
      {
        EndedOneMore(before, keys, i);
        assert keys[i..][0] == keys[i] && keys[i..][1..] == keys[i + 1..];
        ghost var sofar := out;
        var call := calls[keys[i]];
        var completed := Completion(keys[i], call);
        out := out + completed;
        assert sofar + (completed + Completions(before, keys[i + 1..])) == out + Completions(before, keys[i + 1..]);
        calls := calls[keys[i] := Ended(call)];
      }
      EndedEvery(before, keys);
    }

    method FinishStream() returns (out: seq<AgentEvent>)
      modifies this`calls
      ensures out == CompleteAll(old(calls)).events + [FinishOf(old(Contents()))]
      ensures calls == CompleteAll(old(calls)).calls
    {
      hide CompleteAll;
      out := CompleteCalls();
      if finishReason.None? {
        out := out + [Finish("eof", true, usage, false)];
        return;
      }
      out := out + [Finish(finishReason.value, finishReason.value == "length", usage, true)];
    }
  }
}
