/**
 Whole chat messages against their fragments: `parse_complete_chat_response` and
 what a `ChatStreamParser` makes of the same message cut into chunks -
 backend/app/integrations/agent_parsers.py.
 */
module ChatFragments {
  import opened Common
  import opened AgentTypes
  import opened ChatStream

  // ---- the whole message ------------------------------------------------------

  datatype WholeCall = WholeCall(id: string, name: string, arguments: string)

  /** The body of a non-streamed answer; empty strings are absent fields. */
  datatype Message = Message(content: string, calls: seq<WholeCall>, finishReason: string, usage: Usage)

  /** The completed call at position `k`; a call without a name gives nothing. */
  function Entry(k: nat, call: WholeCall): seq<AgentEvent> {
    if call.name == "" then []
    else [ToolCallComplete(Or(call.id, Fallback(k)), call.name, Or(call.arguments, "{}"))]
  }

  /** The completed calls from position `k` on. */
  function Entries(calls: seq<WholeCall>, k: nat): seq<AgentEvent>
    requires k <= |calls|
    decreases |calls| - k
  {
    if k == |calls| then [] else Entry(k, calls[k]) + Entries(calls, k + 1)
  }

  function LastReason(m: Message): string { Or(m.finishReason, "stop") }

  function FinishEvent(m: Message): AgentEvent {
    Finish(LastReason(m), LastReason(m) == "length", m.usage, true)
  }

  /** Start and completion of a named call at position `k`. */
  function CallGives(k: nat, call: WholeCall): seq<AgentEvent> {
    if call.name == "" then []
    else
      var id := if call.id != "" then call.id else Fallback(k);
      [ToolCallStarted(id, call.name),
       ToolCallComplete(id, call.name, if call.arguments != "" then call.arguments else "{}")]
  }

  /** The calls of a message, in list order. */
  function CallsGive(calls: seq<WholeCall>): seq<AgentEvent> {
    if calls == [] then []
    else CallsGive(calls[..|calls| - 1]) + CallGives(|calls| - 1, calls[|calls| - 1])
  }

  function WholeGives(m: Message): seq<AgentEvent> {
    (if m.content == "" then [] else [TextDelta(m.content, "", 0)]) + CallsGive(m.calls) + [FinishEvent(m)]
  }

  /** `parse_complete_chat_response` on an answer that reports no error. */
  method ParseComplete(m: Message) returns (out: seq<AgentEvent>)
    ensures out == WholeGives(m) && out[|out| - 1] == FinishEvent(m)
    ensures Texts(out) == m.content && Completes(out) == Entries(m.calls, 0)
  {
    hide Texts, Completes, Entries, CallsGive, Fallback;
    out := [];
    if m.content != "" {
      out := [TextDelta(m.content, "", 0)];
    }
    ghost var text := out;
    assert m.calls[..0] == [] && m.calls[..|m.calls|] == m.calls;
    NoCallsGive();
    for i := 0 to |m.calls|
      invariant out == text + CallsGive(m.calls[..i])
    {
      var call := m.calls[i];
      CallsGiveLast(m.calls[..i], call);
      assert m.calls[..i + 1] == m.calls[..i] + [call];
      if call.name != "" {
        var id := Or(call.id, Fallback(i));
        out := out + [ToolCallStarted(id, call.name), ToolCallComplete(id, call.name, Or(call.arguments, "{}"))];
      }
    }
    var reason := Or(m.finishReason, "stop");
    out := out + [Finish(reason, reason == "length", m.usage, true)];
    WholeHas(m);
  }

  lemma {:induction false} CallHas(k: nat, call: WholeCall)
    ensures Texts(CallGives(k, call)) == "" && Completes(CallGives(k, call)) == Entry(k, call)
  {
    hide Fallback;
    EmptyRun();
    var given := CallGives(k, call);
    if given != [] {
      CallRun(given[0], given[1]);
      assert given == [given[0], given[1]];
    }
  }

  lemma {:induction false} EntriesLast(calls: seq<WholeCall>, call: WholeCall, k: nat)
    requires k <= |calls|
    ensures Entries(calls + [call], k) == Entries(calls, k) + Entry(|calls|, call)
    decreases |calls| - k
  {
    hide Entry;
    EntriesFrom(calls + [call], k);
    EntriesFrom(calls, k);
    if k < |calls| {
      EntriesLast(calls, call, k + 1);
    } else {
      EntriesFrom(calls + [call], k + 1);
      assert Entry(k, call) + [] == Entry(k, call) && [] + Entry(k, call) == Entry(k, call);
    }
  }

  lemma {:induction false} CallsHave(calls: seq<WholeCall>)
    ensures Texts(CallsGive(calls)) == "" && Completes(CallsGive(calls)) == Entries(calls, 0)
  {
    EmptyRun();
    if calls != [] {
      var init, last := calls[..|calls| - 1], calls[|calls| - 1];
      assert calls == init + [last];
      CallsHave(init);
      CallsGiveLast(init, last);
      CallHas(|init|, last);
      EntriesLast(init, last, 0);
      hide Texts, Completes, Entries, Entry, CallGives, CallsGive;
      TextsAppend(CallsGive(init), CallGives(|init|, last));
      CompletesAppend(CallsGive(init), CallGives(|init|, last));
    }
  }

  lemma {:induction false} WholeHas(m: Message)
    ensures Texts(WholeGives(m)) == m.content && Completes(WholeGives(m)) == Entries(m.calls, 0)
  {
    hide Texts, Completes, Entries, CallsGive;
    EmptyRun();
    TextRun(m.content);
    FinishRun(FinishEvent(m));
    CallsHave(m.calls);
    var text := if m.content == "" then [] else [TextDelta(m.content, "", 0)];
    var end := [FinishEvent(m)];
    TextsAppend(text, CallsGive(m.calls));
    CompletesAppend(text, CallsGive(m.calls));
    TextsAppend(text + CallsGive(m.calls), end);
    CompletesAppend(text + CallsGive(m.calls), end);
  }

  lemma {:induction false} NoCallsGive()
    ensures CallsGive([]) == []
  {}

  lemma {:induction false} CallsGiveLast(calls: seq<WholeCall>, call: WholeCall)
    ensures CallsGive(calls + [call]) == CallsGive(calls) + CallGives(|calls|, call)
  {
    assert (calls + [call])[..|calls|] == calls;
  }

  lemma {:induction false} EntriesFrom(calls: seq<WholeCall>, k: nat)
    requires k <= |calls|
    ensures Entries(calls, k) == if k == |calls| then [] else Entry(k, calls[k]) + Entries(calls, k + 1)
  {}

  lemma {:induction false} EmptyRun()
    ensures Texts([]) == "" && Completes([]) == []
  {}

  lemma {:induction false} TextRun(text: string)
    ensures Texts([TextDelta(text, "", 0)]) == text && Completes([TextDelta(text, "", 0)]) == []
  {
    assert [TextDelta(text, "", 0)][1..] == [];
  }

  lemma {:induction false} CallRun(a: AgentEvent, b: AgentEvent)
    requires a.ToolCallStarted? && b.ToolCallComplete?
    ensures Texts([a, b]) == "" && Completes([a, b]) == [b]
  {
    assert [a, b][1..] == [b] && [b][1..] == [];
    assert Texts([b]) == "" && Completes([b]) == [b];
  }

  lemma {:induction false} FinishRun(e: AgentEvent)
    requires e.Finish?
    ensures Texts([e]) == "" && Completes([e]) == []
  {
    assert [e][1..] == [];
  }

  // ---- what the pieces say about each call ------------------------------------

  /** The last identifier given for index `k`, if any. */
  function IdOf(ps: seq<Piece>, k: int): string {
    if ps == [] then ""
    else
      var p := ps[|ps| - 1];
      if p.index == k && p.id != "" then p.id else IdOf(ps[..|ps| - 1], k)
  }

  function NameOf(ps: seq<Piece>, k: int): string {
    if ps == [] then ""
    else
      var p := ps[|ps| - 1];
      NameOf(ps[..|ps| - 1], k) + if p.index == k then p.name else ""
  }

  function ArgumentsOf(ps: seq<Piece>, k: int): string {
    if ps == [] then ""
    else
      var p := ps[|ps| - 1];
      ArgumentsOf(ps[..|ps| - 1], k) + if p.index == k then p.arguments else ""
  }

  /** The indexes that have a name. */
  ghost function NamedBy(ps: seq<Piece>): iset<int> {
    iset k: int | NameOf(ps, k) != ""
  }

  predicate Mentioned(ps: seq<Piece>, k: int) {
    ps != [] && (ps[|ps| - 1].index == k || Mentioned(ps[..|ps| - 1], k))
  }

  /** The call the parser holds for index `k` once it has taken these pieces. */
  function Held(ps: seq<Piece>, k: int): Call {
    var named := NameOf(ps, k) != "";
    Call(Or(IdOf(ps, k), if named then Fallback(k) else ""), NameOf(ps, k), ArgumentsOf(ps, k), named, false)
  }

  lemma {:induction false} Unmentioned(ps: seq<Piece>, k: int)
    requires !Mentioned(ps, k)
    ensures Held(ps, k) == Call("", "", "", false, false)
  {
    if ps != [] {
      Unmentioned(ps[..|ps| - 1], k);
    }
  }

  /**
   The parser holds call `k` as the pieces give it, done if it is among the closed
   ones; a call the pieces do not mention is not there.
   */
  ghost predicate IsHeld(calls: map<int, Call>, ps: seq<Piece>, closed: iset<int>, k: int) {
    && (k in calls <==> Mentioned(ps, k))
    && (k in calls ==> calls[k] == Held(ps, k).(done := k in closed))
  }

  ghost predicate AllHeld(calls: map<int, Call>, ps: seq<Piece>, closed: iset<int>) {
    && closed <= NamedBy(ps)
    && forall k: int :: IsHeld(calls, ps, closed, k)
  }

  lemma {:induction false} PieceLast(ps: seq<Piece>, p: Piece, k: int)
    ensures Mentioned(ps + [p], k) <==> p.index == k || Mentioned(ps, k)
    ensures p.index != k ==> Held(ps + [p], k) == Held(ps, k)
    ensures NameOf(ps, k) != "" ==> NameOf(ps + [p], k) != ""
  {
    assert (ps + [p])[..|ps|] == ps;
    hide Fallback;
  }

  /** One piece takes the call of its index from what is held to what is held with it. */
  lemma {:induction false} OneMore(calls: map<int, Call>, init: seq<Piece>, p: Piece, done: bool)
    requires (if p.index in calls then calls[p.index] else Call("", "", "", false, false)) ==
            Held(init, p.index).(done := done)
    ensures AddPiece(calls, p).calls == calls[p.index := Held(init + [p], p.index).(done := done)]
  {
    hide Fallback;
    var all := init + [p];
    assert all[..|all| - 1] == init && all[|all| - 1] == p;
    FallbackNotEmpty(p.index);
  }

  lemma {:induction false} PieceHeld(calls: map<int, Call>, ps: seq<Piece>, p: Piece, closed: iset<int>)
    requires AllHeld(calls, ps, closed)
    ensures AllHeld(AddPiece(calls, p).calls, ps + [p], closed)
  {
    assert IsHeld(calls, ps, closed, p.index);
    if !Mentioned(ps, p.index) { Unmentioned(ps, p.index); }
    assert p.index in closed ==> NameOf(ps, p.index) != "";
    OneMore(calls, ps, p, p.index in closed);
    hide AddPiece, Held, Mentioned, NameOf;
    forall k: int
      ensures IsHeld(AddPiece(calls, p).calls, ps + [p], closed, k)
      ensures k in closed ==> NameOf(ps + [p], k) != ""
    {
      PieceLast(ps, p, k);
      assert IsHeld(calls, ps, closed, k);
    }
  }

  lemma {:induction false} PiecesHeld(calls: map<int, Call>, ps: seq<Piece>, more: seq<Piece>, closed: iset<int>)
    requires AllHeld(calls, ps, closed)
    ensures AllHeld(AddPieces(calls, more).calls, ps + more, closed)
  {
    hide AllHeld, AddPiece;
    if more == [] {
      assert ps + more == ps;
      NoneAdded(calls);
    } else {
      var init, p := more[..|more| - 1], more[|more| - 1];
      PiecesHeld(calls, ps, init, closed);
      PieceHeld(AddPieces(calls, init).calls, ps + init, p, closed);
      assert ps + more == ps + init + [p];
    }
  }

  /** However the fields of a call are cut up, the parser holds their concatenation. */
  lemma {:induction false} Reassembled(ps: seq<Piece>, k: int)
    ensures k in AddPieces(map[], ps).calls <==> Mentioned(ps, k)
    ensures Mentioned(ps, k) ==> AddPieces(map[], ps).calls[k] == Held(ps, k)
  {
    hide AddPieces, Held;
    PiecesHeld(map[], [], ps, iset{});
    assert [] + ps == ps;
    assert IsHeld(AddPieces(map[], ps).calls, ps, iset{}, k);
    NotDone(ps, k);
  }

  lemma {:induction false} NotDone(ps: seq<Piece>, k: int)
    ensures Held(ps, k).(done := false) == Held(ps, k)
  {
    hide Fallback;
  }

  lemma {:induction false} FallbackNotEmpty(k: int)
    ensures Fallback(k) != ""
  {}

  // ---- runs of chunks ---------------------------------------------------------

  /** The state after chunks that report no error. */
  ghost function StateAfter(cs: seq<Chunk>): State
    requires NoErrors(cs)
  {
    if cs == [] then START
    else Next(StateAfter(cs[..|cs| - 1]), cs[|cs| - 1].usage, cs[|cs| - 1].choice)
  }

  /** All events the feeds gave out. */
  ghost function EventsOf(cs: seq<Chunk>): seq<AgentEvent>
    requires NoErrors(cs)
  {
    if cs == [] then [] else EventsOf(cs[..|cs| - 1]) + Given(StateAfter(cs[..|cs| - 1]), cs[|cs| - 1].choice)
  }

  ghost predicate NoErrors(cs: seq<Chunk>) {
    forall i :: 0 <= i < |cs| ==> cs[i].DataChunk?
  }

  /** Everything a stream yields, `finish` included. */
  ghost function Streamed(cs: seq<Chunk>): seq<AgentEvent>
    requires NoErrors(cs)
  {
    EventsOf(cs) + CompleteAll(StateAfter(cs).calls).events + [FinishOf(StateAfter(cs))]
  }

  /** The consumer loop: feed every chunk, then finish. */
  method ParseStream(cs: seq<Chunk>) returns (out: seq<AgentEvent>)
    requires NoErrors(cs)
    ensures out == Streamed(cs)
  {
    hide CompleteAll, Next, Given;
    var parser := new ChatStreamParser();
    out := [];
    for i := 0 to |cs|
      invariant out == EventsOf(cs[..i])
      invariant parser.Contents() == StateAfter(cs[..i])
    {
      assert cs[..i + 1][..i] == cs[..i] && cs[..i + 1][i] == cs[i];
      var fed := parser.Feed(cs[i]);
      out := out + fed.events;
    }
    assert cs[..|cs|] == cs;
    var tail := parser.FinishStream();
    out := out + tail;
    assert EventsOf(cs) + (CompleteAll(StateAfter(cs).calls).events + [FinishOf(StateAfter(cs))]) == Streamed(cs);
  }

  // ---- what the chunks carry --------------------------------------------------

  function PiecesIn(c: Chunk): seq<Piece> {
    if c.DataChunk? && c.choice.Some? then c.choice.value.pieces else []
  }

  function ContentIn(c: Chunk): string {
    if c.DataChunk? && c.choice.Some? then c.choice.value.content else ""
  }

  function ReasonIn(c: Chunk): string {
    if c.DataChunk? && c.choice.Some? then c.choice.value.finishReason else ""
  }

  function AllPieces(cs: seq<Chunk>): seq<Piece> {
    if cs == [] then [] else AllPieces(cs[..|cs| - 1]) + PiecesIn(cs[|cs| - 1])
  }

  function AllContent(cs: seq<Chunk>): string {
    if cs == [] then "" else AllContent(cs[..|cs| - 1]) + ContentIn(cs[|cs| - 1])
  }

  /** The last finish reason given, if any. */
  function ReasonOf(cs: seq<Chunk>): string {
    if cs == [] then "" else Or(ReasonIn(cs[|cs| - 1]), ReasonOf(cs[..|cs| - 1]))
  }

  /** The last usage given, if any. */
  function UsageOf(cs: seq<Chunk>): Usage {
    if cs == [] then map[]
    else if cs[|cs| - 1].DataChunk? then cs[|cs| - 1].usage.GetOr(UsageOf(cs[..|cs| - 1]))
    else UsageOf(cs[..|cs| - 1])
  }

  // ---- text, finish reason and usage ------------------------------------------

  /** Pieces only start calls: no text and no completion comes out of them. */
  lemma {:induction false} PiecesOnlyStart(calls: map<int, Call>, ps: seq<Piece>)
    ensures Texts(AddPieces(calls, ps).events) == "" && Completes(AddPieces(calls, ps).events) == []
  {
    EmptyRun();
    if ps != [] {
      var before := AddPieces(calls, ps[..|ps| - 1]);
      var last := AddPiece(before.calls, ps[|ps| - 1]).events;
      PiecesOnlyStart(calls, ps[..|ps| - 1]);
      TextsAppend(before.events, last);
      CompletesAppend(before.events, last);
      assert last == [] || (|last| == 1 && last[0].ToolCallStarted? && last[1..] == []);
    }
  }

  lemma {:induction false} CompletionHasNoText(calls: map<int, Call>, keys: seq<int>)
    ensures Texts(Completions(calls, keys)) == ""
  {
    EmptyRun();
    if keys != [] {
      var head := if keys[0] in calls then Completion(keys[0], calls[keys[0]]) else [];
      CompletionHasNoText(calls, keys[1..]);
      TextsAppend(head, Completions(calls, keys[1..]));
      assert Texts(head) == "" by {
        if |head| == 2 {
          CallRun(head[0], head[1]);
          assert head == [head[0], head[1]];
        } else if |head| == 1 {
          assert head[1..] == [];
        }
      }
    }
  }

  /** The text of a choice is its content. */
  lemma {:induction false} ChoiceText(calls: map<int, Call>, choice: Choice)
    ensures Texts(FeedChoice(calls, choice).events) == choice.content
  {
    hide Texts, AddPieces, Completions, Sorted;
    var added := AddPieces(calls, choice.pieces);
    EmptyRun();
    TextRun(choice.content);
    PiecesOnlyStart(calls, choice.pieces);
    CompletionHasNoText(added.calls, Sorted(added.calls.Keys));
    TextsAppend(TextOf(choice), added.events);
    TextsAppend(TextOf(choice) + added.events, CompleteAll(added.calls).events);
  }

  /** The streamed text, finish reason and usage are those the chunks carry. */
  lemma {:induction false} StreamedFields(cs: seq<Chunk>)
    requires NoErrors(cs)
    ensures Texts(EventsOf(cs)) == AllContent(cs)
    ensures StateAfter(cs).usage == UsageOf(cs)
    ensures StateAfter(cs).finishReason == if ReasonOf(cs) == "" then None else Some(ReasonOf(cs))
  {
    EmptyRun();
    if cs != [] {
      var init, last := cs[..|cs| - 1], cs[|cs| - 1];
      StreamedFields(init);
      hide Texts, FeedChoice;
      TextsAppend(EventsOf(init), Given(StateAfter(init), last.choice));
      if last.choice.Some? {
        ChoiceText(StateAfter(init).calls, last.choice.value);
      }
    }
  }

  // ---- one choice -------------------------------------------------------------

  lemma {:induction false} TextHasNoCompletes(choice: Choice)
    ensures Completes(TextOf(choice)) == []
  {
    EmptyRun();
    TextRun(choice.content);
  }

  /** Without a finish reason a choice completes nothing. */
  lemma {:induction false} QuietChoice(calls: map<int, Call>, choice: Choice)
    requires choice.finishReason == ""
    ensures Completes(FeedChoice(calls, choice).events) == []
    ensures FeedChoice(calls, choice).calls == AddPieces(calls, choice.pieces).calls
  {
    hide AddPieces;
    TextHasNoCompletes(choice);
    PiecesOnlyStart(calls, choice.pieces);
    CompletesAppend(TextOf(choice), AddPieces(calls, choice.pieces).events);
  }

  /** With one it completes every open call that has a name. */
  lemma {:induction false} FinishingChoice(calls: map<int, Call>, choice: Choice)
    requires choice.finishReason != ""
    ensures
      var added := AddPieces(calls, choice.pieces).calls;
      && Completes(FeedChoice(calls, choice).events) == Completes(CompleteAll(added).events)
      && FeedChoice(calls, choice).calls == EndedAll(added)
  {
    hide AddPieces, Completions, EndedAll;
    TextHasNoCompletes(choice);
    PiecesOnlyStart(calls, choice.pieces);
    var added := AddPieces(calls, choice.pieces);
    CompletesAppend(TextOf(choice), added.events);
    CompletesAppend(TextOf(choice) + added.events, CompleteAll(added.calls).events);
  }

  lemma {:induction false} NoneAdded(calls: map<int, Call>)
    ensures AddPieces(calls, []).calls == calls
  {}

  lemma {:induction false} RunStep(cs: seq<Chunk>, last: Chunk)
    requires NoErrors(cs) && last.DataChunk?
    ensures NoErrors(cs + [last])
    ensures StateAfter(cs + [last]).calls ==
            if last.choice.None? then StateAfter(cs).calls
            else FeedChoice(StateAfter(cs).calls, last.choice.value).calls
    ensures EventsOf(cs + [last]) == EventsOf(cs) + Given(StateAfter(cs), last.choice)
  {
    hide FeedChoice;
    var all := cs + [last];
    assert all[..|all| - 1] == cs && all[|all| - 1] == last;
  }

  lemma {:induction false} AllPiecesLast(cs: seq<Chunk>, last: Chunk)
    ensures AllPieces(cs + [last]) == AllPieces(cs) + PiecesIn(last)
  {
    assert (cs + [last])[..|cs|] == cs;
  }

  // ---- index order is list order ----------------------------------------------

  /** The `n` calls that the pieces describe. */
  function Assemble(ps: seq<Piece>, n: nat): seq<WholeCall> {
    seq(n, k requires 0 <= k < n => WholeCall(IdOf(ps, k), NameOf(ps, k), ArgumentsOf(ps, k)))
  }

  ghost predicate Within(ps: seq<Piece>, n: nat) {
    forall i :: 0 <= i < |ps| ==> 0 <= ps[i].index < n
  }

  lemma {:induction false} MentionedWithin(ps: seq<Piece>, n: nat, k: int)
    requires Within(ps, n) && Mentioned(ps, k)
    ensures 0 <= k < n
  {
    if ps[|ps| - 1].index != k {
      MentionedWithin(ps[..|ps| - 1], n, k);
    }
  }

  /** `s` holds the indexes from `k` on that the pieces mention. */
  ghost predicate IsMentionedFrom(ps: seq<Piece>, n: nat, k: nat, s: set<int>) {
    forall x :: x in s <==> k <= x < n && Mentioned(ps, x)
  }

  lemma {:induction false} MentionedNone(ps: seq<Piece>, n: nat, s: set<int>)
    requires IsMentionedFrom(ps, n, n, s)
    ensures s == {}
  {
    if s != {} { var x := Pick(s); }
  }

  lemma {:induction false} MentionedStep(ps: seq<Piece>, n: nat, k: nat, s: set<int>)
    requires k < n && IsMentionedFrom(ps, n, k, s)
    ensures k in s <==> Mentioned(ps, k)
    ensures IsMentionedFrom(ps, n, k + 1, s - {k})
    ensures forall x :: x in s ==> k <= x
  {}

  lemma {:induction false} CompletionsFirst(calls: map<int, Call>, keys: seq<int>)
    requires keys != [] && keys[0] in calls
    ensures Completions(calls, keys) == Completion(keys[0], calls[keys[0]]) + Completions(calls, keys[1..])
  {}

  lemma {:induction false} CompletionsNone(calls: map<int, Call>)
    ensures Completions(calls, []) == []
  {}

  lemma {:induction false} LeastFirst(keys: seq<int>, s: set<int>, k: int)
    requires IsSorted(keys, s) && k in s && forall x :: x in s ==> k <= x
    ensures keys != [] && keys[0] == k
  {
    assert k in keys && keys[0] in keys;
  }

  /** The chunks carry the content, the usage and the calls of the message, cut up in any way. */
  ghost predicate Carries(cs: seq<Chunk>, m: Message) {
    && AllContent(cs) == m.content && UsageOf(cs) == m.usage
    && Within(AllPieces(cs), |m.calls|) && m.calls == Assemble(AllPieces(cs), |m.calls|)
  }

  /**
   The streamed text is that of the whole message; the finish event is, exactly
   when the last finish reason is. A stream without one ends as cut off.
   */
  lemma {:induction false} StreamTextAndFinish(cs: seq<Chunk>, m: Message)
    requires NoErrors(cs) && Carries(cs, m)
    ensures Texts(Streamed(cs)) == m.content
    ensures Streamed(cs) != []
    ensures
      var last := Streamed(cs)[|Streamed(cs)| - 1];
      && (last == FinishEvent(m) <==> ReasonOf(cs) == LastReason(m))
      && (ReasonOf(cs) == "" ==> last == Finish("eof", true, m.usage, false))
  {
    hide Texts, Completions, Sorted, StateAfter, EventsOf, Assemble, ReasonOf;
    StreamedFields(cs);
    var s := StateAfter(cs);
    var tail := CompleteAll(s.calls).events;
    CompletionHasNoText(s.calls, Sorted(s.calls.Keys));
    FinishRun(FinishOf(s));
    TextsAppend(EventsOf(cs), tail);
    TextsAppend(EventsOf(cs) + tail, [FinishOf(s)]);
  }

  lemma {:induction false} FieldsLast(ps: seq<Piece>, p: Piece, k: int)
    ensures NameOf(ps + [p], k) == NameOf(ps, k) + if p.index == k then p.name else ""
    ensures ArgumentsOf(ps + [p], k) == ArgumentsOf(ps, k) + if p.index == k then p.arguments else ""
    ensures IdOf(ps + [p], k) == if p.index == k && p.id != "" then p.id else IdOf(ps, k)
  {
    assert (ps + [p])[..|ps|] == ps;
  }

  lemma {:induction false} FieldsJoin(a: seq<Piece>, b: seq<Piece>, k: int)
    ensures NameOf(a + b, k) == NameOf(a, k) + NameOf(b, k)
    ensures ArgumentsOf(a + b, k) == ArgumentsOf(a, k) + ArgumentsOf(b, k)
    ensures IdOf(a + b, k) == Or(IdOf(b, k), IdOf(a, k))
  {
    if b == [] {
      assert a + b == a;
    } else {
      hide NameOf, ArgumentsOf, IdOf;
      var init, p := b[..|b| - 1], b[|b| - 1];
      assert b == init + [p] && a + b == a + init + [p];
      FieldsJoin(a, init, k);
      FieldsLast(a + init, p, k);
      FieldsLast(init, p, k);
    }
  }

  lemma {:induction false} SameAppend(a: string, b: string)
    ensures a + b == a <==> b == ""
    ensures a + b == "" <==> a == "" && b == ""
    ensures a == "" ==> a + b == b
  {
    assert |a + b| == |a| + |b|;
    assert b == "" ==> a + b == a;
  }
}
