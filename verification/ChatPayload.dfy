/**
 Neutral conversation items as chat messages: `build_chat_payload` -
 backend/app/integrations/agent_client.py. Only the message list is modelled;
 the other payload fields are copied from the arguments.
 */
module ChatPayload {
  import opened AgentTypes

  datatype Item =
    | UserItem(text: string, images: seq<string>)
    | AssistantTextItem(text: string)
    | ToolCallItem(callId: string, name: string, arguments: string)
    | ToolResultItem(callId: string, output: string)

  datatype FunctionCall = FunctionCall(id: string, name: string, arguments: string)

  datatype Content = NoContent | Content(text: string)

  /** A message; an assistant message without calls has no `tool_calls` field. */
  datatype Message =
    | SystemMessage(text: string)
    | UserText(text: string)
    | UserParts(text: string, urls: seq<string>)
    | AssistantMessage(content: Content, calls: seq<FunctionCall>)
    | ToolMessage(id: string, output: string)

  datatype Pending = Nothing | Open(content: Content, calls: seq<FunctionCall>)

  /** The messages so far and the assistant message still open. */
  datatype Building = Building(messages: seq<Message>, pending: Pending)

  // ---- building ---------------------------------------------------------------

  function NonEmpty(urls: seq<string>): seq<string> {
    if urls == [] then []
    else NonEmpty(urls[..|urls| - 1]) + if urls[|urls| - 1] == "" then [] else [urls[|urls| - 1]]
  }

  function UserMessage(text: string, images: seq<string>): Message {
    if NonEmpty(images) == [] then UserText(text) else UserParts(text, NonEmpty(images))
  }

  function Flushed(b: Building): seq<Message> {
    if b.pending.Nothing? then b.messages
    else b.messages + [AssistantMessage(b.pending.content, b.pending.calls)]
  }

  function CallOf(item: Item): FunctionCall
    requires item.ToolCallItem?
  {
    FunctionCall(item.callId, item.name, Or(item.arguments, "{}"))
  }

  function AddItem(b: Building, item: Item): Building {
    match item
    case UserItem(text, images) => Building(Flushed(b) + [UserMessage(text, images)], Nothing)
    case AssistantTextItem(text) => Building(Flushed(b), Open(Content(text), []))
    case ToolCallItem(_, _, _) =>
      var open := if b.pending.Nothing? then Open(NoContent, []) else b.pending;
      Building(b.messages, open.(calls := open.calls + [CallOf(item)]))
    case ToolResultItem(id, output) => Building(Flushed(b) + [ToolMessage(id, output)], Nothing)
  }

  function BuildFrom(b: Building, items: seq<Item>): Building {
    if items == [] then b else AddItem(BuildFrom(b, items[..|items| - 1]), items[|items| - 1])
  }

  function Build(instructions: string, items: seq<Item>): seq<Message> {
    Flushed(BuildFrom(Building([SystemMessage(instructions)], Nothing), items))
  }

  method BuildMessages(instructions: string, items: seq<Item>) returns (messages: seq<Message>)
    ensures messages == Build(instructions, items)
  {
    hide UserMessage;
    messages := [SystemMessage(instructions)];
    ghost var start := Building(messages, Nothing);
    var pending := Nothing;
    assert items[..|items|] == items;
    for i := 0 to |items|
      invariant Building(messages, pending) == BuildFrom(start, items[..i])
    {
      assert items[..i + 1][..i] == items[..i] && items[..i + 1][i] == items[i];
      match items[i]
      case UserItem(text, images) =>
        messages := Flush(messages, pending);
        pending := Nothing;
        var message := BuildUser(text, images);
        messages := messages + [message];
      case AssistantTextItem(text) =>
        messages := Flush(messages, pending);
        pending := Open(Content(text), []);
      case ToolCallItem(id, name, arguments) =>
        if pending.Nothing? {
          pending := Open(NoContent, []);
        }
        pending := pending.(calls := pending.calls + [FunctionCall(id, name, Or(arguments, "{}"))]);
      case ToolResultItem(id, output) =>
        messages := Flush(messages, pending);
        pending := Nothing;
        messages := messages + [ToolMessage(id, output)];
    }
    messages := Flush(messages, pending);
  }

  method Flush(messages: seq<Message>, pending: Pending) returns (more: seq<Message>)
    ensures more == Flushed(Building(messages, pending))
  {
    if pending.Nothing? {
      return messages;
    }
    more := messages + [AssistantMessage(pending.content, pending.calls)];
  }

  method BuildUser(text: string, images: seq<string>) returns (message: Message)
    ensures message == UserMessage(text, images)
  {
    var urls: seq<string> := [];
    assert images[..|images|] == images;
    for i := 0 to |images|
      invariant urls == NonEmpty(images[..i])
    {
      assert images[..i + 1][..i] == images[..i];
      if images[i] != "" { urls := urls + [images[i]]; }
    }
    message := if urls == [] then UserText(text) else UserParts(text, urls);
  }

  // ---- and back ---------------------------------------------------------------

  function CallItems(calls: seq<FunctionCall>): seq<Item> {
    seq(|calls|, i requires 0 <= i < |calls| => ToolCallItem(calls[i].id, calls[i].name, calls[i].arguments))
  }

  function ItemsOf(m: Message): seq<Item> {
    match m
    case SystemMessage(_) => []
    case UserText(text) => [UserItem(text, [])]
    case UserParts(text, urls) => [UserItem(text, urls)]
    case AssistantMessage(content, calls) =>
      (if content.NoContent? then [] else [AssistantTextItem(content.text)]) + CallItems(calls)
    case ToolMessage(id, output) => [ToolResultItem(id, output)]
  }

  /** Reads the items back out of the messages. */
  function Unbuild(messages: seq<Message>): seq<Item> {
    if messages == [] then [] else Unbuild(messages[..|messages| - 1]) + ItemsOf(messages[|messages| - 1])
  }

  /** What the protocol keeps of an item: empty arguments read as "{}", empty image URLs vanish. */
  function NormalItem(item: Item): Item {
    match item
    case UserItem(text, images) => UserItem(text, NonEmpty(images))
    case ToolCallItem(id, name, arguments) => ToolCallItem(id, name, Or(arguments, "{}"))
    case _ => item
  }

  function Normal(items: seq<Item>): seq<Item> {
    seq(|items|, i requires 0 <= i < |items| => NormalItem(items[i]))
  }

  /** Arguments and image URLs are not empty. */
  predicate Clean(item: Item) {
    match item
    case UserItem(_, images) => "" !in images
    case ToolCallItem(_, _, arguments) => arguments != ""
    case _ => true
  }

  lemma {:induction false} UnbuildLast(messages: seq<Message>, m: Message)
    ensures Unbuild(messages + [m]) == Unbuild(messages) + ItemsOf(m)
  {
    assert (messages + [m])[..|messages|] == messages;
  }

  lemma {:induction false} NormalLast(items: seq<Item>, item: Item)
    ensures Normal(items + [item]) == Normal(items) + [NormalItem(item)]
  {}

  lemma {:induction false} CallItemsLast(calls: seq<FunctionCall>, c: FunctionCall)
    ensures CallItems(calls + [c]) == CallItems(calls) + [ToolCallItem(c.id, c.name, c.arguments)]
  {}

  /** Adding an item adds its normal form to what the messages say. */
  lemma {:induction false} AddItemSays(b: Building, item: Item)
    ensures Unbuild(Flushed(AddItem(b, item))) == Unbuild(Flushed(b)) + [NormalItem(item)]
  {
    hide NonEmpty, CallItems, Unbuild;
    var said := Flushed(b);
    match item
    case UserItem(text, images) => UnbuildLast(said, UserMessage(text, images));
    case AssistantTextItem(text) =>
      UnbuildLast(said, AssistantMessage(Content(text), []));
      NoCallItems();
    case ToolResultItem(id, output) => UnbuildLast(said, ToolMessage(id, output));
    case ToolCallItem(_, _, _) =>
      var after := AddItem(b, item).pending;
      UnbuildLast(b.messages, AssistantMessage(after.content, after.calls));
      NoCallItems();
      if b.pending.Nothing? {
        CallItemsLast([], CallOf(item));
      } else {
        UnbuildLast(b.messages, AssistantMessage(b.pending.content, b.pending.calls));
        CallItemsLast(b.pending.calls, CallOf(item));
      }
  }

  lemma {:induction false} NoCallItems()
    ensures CallItems([]) == []
  {}

  lemma {:induction false} BuildFromSays(b: Building, items: seq<Item>)
    ensures Unbuild(Flushed(BuildFrom(b, items))) == Unbuild(Flushed(b)) + Normal(items)
  {
    hide AddItem, NormalItem, Unbuild, Flushed;
    if items != [] {
      var init, last := items[..|items| - 1], items[|items| - 1];
      BuildFromSays(b, init);
      AddItemSays(BuildFrom(b, init), last);
      NormalLast(init, last);
      assert init + [last] == items;
    }
  }

  /** The messages determine the items up to their normal form; nothing is lost, reordered or merged. */
  lemma {:induction false} UnbuildBuild(instructions: string, items: seq<Item>)
    ensures Unbuild(Build(instructions, items)) == Normal(items)
  {
    hide BuildFrom;
    BuildFromSays(Building([SystemMessage(instructions)], Nothing), items);
    UnbuildLast([], SystemMessage(instructions));
    assert [] + [SystemMessage(instructions)] == [SystemMessage(instructions)];
  }

  /** The first message carries the instructions, and no other message is one of the system. */
  ghost predicate Instructed(messages: seq<Message>, instructions: string) {
    && messages != [] && messages[0] == SystemMessage(instructions)
    && forall i :: 0 < i < |messages| ==> !messages[i].SystemMessage?
  }

  lemma {:induction false} InstructionsLead(instructions: string, items: seq<Item>)
    ensures Instructed(Build(instructions, items), instructions)
  {
    StaysInstructed(Building([SystemMessage(instructions)], Nothing), instructions, items);
    hide BuildFrom;
  }

  lemma {:induction false} StaysInstructed(b: Building, instructions: string, items: seq<Item>)
    requires Instructed(b.messages, instructions)
    ensures Instructed(BuildFrom(b, items).messages, instructions)
  {
    if items != [] {
      StaysInstructed(b, instructions, items[..|items| - 1]);
      hide NonEmpty, BuildFrom;
      var before := BuildFrom(b, items[..|items| - 1]);
      assert BuildFrom(b, items) == AddItem(before, items[|items| - 1]) by { BuildFromLast(b, items); }
    }
  }

  /** A user message without images is plain text: parts come with at least one image, and none is empty. */
  ghost predicate PartsHaveImages(messages: seq<Message>) {
    forall i :: 0 <= i < |messages| && messages[i].UserParts? ==> messages[i].urls != [] && "" !in messages[i].urls
  }

  lemma {:induction false} PlainWithoutImages(instructions: string, items: seq<Item>)
    ensures PartsHaveImages(Build(instructions, items))
  {
    StaysPlain(Building([SystemMessage(instructions)], Nothing), items);
    hide BuildFrom;
  }

  lemma {:induction false} StaysPlain(b: Building, items: seq<Item>)
    requires PartsHaveImages(b.messages)
    ensures PartsHaveImages(BuildFrom(b, items).messages)
  {
    if items != [] {
      StaysPlain(b, items[..|items| - 1]);
      BuildFromLast(b, items);
      var last := items[|items| - 1];
      if last.UserItem? { NoneEmpty(last.images); }
      hide NonEmpty, BuildFrom;
    }
  }

  lemma {:induction false} NoneEmpty(urls: seq<string>)
    ensures "" !in NonEmpty(urls)
  {
    if urls != [] { NoneEmpty(urls[..|urls| - 1]); }
  }

  /** An assistant message without text never stands behind another one: calls go with the text before them. */
  ghost predicate CallsWithText(messages: seq<Message>) {
    forall i :: 0 < i < |messages| && messages[i - 1].AssistantMessage? && messages[i].AssistantMessage?
                ==> messages[i].content.Content?
  }

  lemma {:induction false} CallsJoinTheirText(instructions: string, items: seq<Item>)
    ensures CallsWithText(Build(instructions, items))
  {
    StaysJoined(Building([SystemMessage(instructions)], Nothing), items);
    hide BuildFrom;
  }

  /** And the next calls can be joined as well. */
  ghost predicate Joinable(b: Building) {
    && CallsWithText(Flushed(b)) && b.messages != []
    && (b.pending.Nothing? ==> !b.messages[|b.messages| - 1].AssistantMessage?)
  }

  lemma {:induction false} StaysJoined(b: Building, items: seq<Item>)
    requires Joinable(b)
    ensures Joinable(BuildFrom(b, items))
  {
    if items != [] {
      StaysJoined(b, items[..|items| - 1]);
      BuildFromLast(b, items);
      hide BuildFrom;
      JoinOne(BuildFrom(b, items[..|items| - 1]), items[|items| - 1]);
    }
  }

  lemma {:induction false} JoinOne(b: Building, item: Item)
    requires Joinable(b)
    ensures Joinable(AddItem(b, item))
  {
    hide NonEmpty, CallOf;
    var after := AddItem(b, item);
    var before, now := Flushed(b), Flushed(after);
    match item
    case ToolCallItem(_, _, _) =>
      var n := |b.messages|;
      assert now[..n] == b.messages && |now| == n + 1;
      assert before[..n] == b.messages;
      forall i | 0 < i < |now| && now[i - 1].AssistantMessage? && now[i].AssistantMessage?
        ensures now[i].content.Content?
      {
        assert now[i - 1] == b.messages[i - 1];
        if i < n {
          assert before[i - 1] == now[i - 1] && before[i] == now[i];
        } else if b.pending.Open? {
          assert before[n] == AssistantMessage(b.pending.content, b.pending.calls) && before[n - 1] == now[n - 1];
        }
      }
    case AssistantTextItem(_) =>
      assert now[..|before|] == before;
    case _ =>
      assert now[..|before|] == before && |now| == |before| + 1;
      assert !now[|before|].AssistantMessage?;
  }

  lemma {:induction false} BuildFromLast(b: Building, items: seq<Item>)
    requires items != []
    ensures BuildFrom(b, items) == AddItem(BuildFrom(b, items[..|items| - 1]), items[|items| - 1])
  {}

  lemma {:induction false} NonEmptyKeeps(urls: seq<string>)
    ensures |NonEmpty(urls)| <= |urls|
    ensures NonEmpty(urls) == urls <==> "" !in urls
  {
    if urls != [] {
      var init, last := urls[..|urls| - 1], urls[|urls| - 1];
      NonEmptyKeeps(init);
      assert urls == init + [last];
      hide NonEmpty;
      assert NonEmpty(urls) == NonEmpty(init) + (if last == "" then [] else [last]) by { NonEmptyLast(init, last); }
      if last != "" && NonEmpty(urls) == urls {
        assert NonEmpty(init) == NonEmpty(urls)[..|NonEmpty(urls)| - 1] == init;
      }
    }
  }

  lemma {:induction false} NonEmptyLast(urls: seq<string>, last: string)
    ensures NonEmpty(urls + [last]) == NonEmpty(urls) + if last == "" then [] else [last]
  {
    assert (urls + [last])[..|urls|] == urls;
  }

  /** Reading back gives exactly the items when, and only when, no arguments and no image URL are empty. */
  lemma {:induction false} LeftInverseExact(instructions: string, items: seq<Item>)
    ensures Unbuild(Build(instructions, items)) == items <==> forall i :: 0 <= i < |items| ==> Clean(items[i])
  {
    UnbuildBuild(instructions, items);
    hide Build, Unbuild;
    forall i | 0 <= i < |items|
      ensures Normal(items)[i] == items[i] <==> Clean(items[i])
    {
      if items[i].UserItem? { NonEmptyKeeps(items[i].images); }
    }
    if forall i :: 0 <= i < |items| ==> Clean(items[i]) {
      assert forall i :: 0 <= i < |items| ==> Normal(items)[i] == items[i];
    }
  }

  // ---- well-formed message lists ----------------------------------------------

  /** The messages from position 0 on answer the calls, one each, in order. */
  predicate Answers(calls: seq<FunctionCall>, messages: seq<Message>) {
    |calls| <= |messages| &&
    forall i :: 0 <= i < |calls| ==> messages[i].ToolMessage? && messages[i].id == calls[i].id
  }

  /**
   Every assistant message with tool calls is followed immediately by one tool
   message per call, in the same order, and there are no other tool messages.
   */
  predicate Answered(messages: seq<Message>)
    decreases |messages|
  {
    messages == [] ||
    (!messages[0].ToolMessage? &&
     if messages[0].AssistantMessage? then
       Answers(messages[0].calls, messages[1..]) && Answered(messages[1 + |messages[0].calls|..])
     else Answered(messages[1..]))
  }

  lemma {:induction false} AnsweredJoin(a: seq<Message>, b: seq<Message>)
    requires Answered(a) && Answered(b)
    ensures Answered(a + b)
    decreases |a|
  {
    if a == [] {
      assert a + b == b;
    } else {
      var n := if a[0].AssistantMessage? then 1 + |a[0].calls| else 1;
      AnsweredJoin(a[n..], b);
      assert (a + b)[n..] == a[n..] + b && (a + b)[0] == a[0];
      assert forall i :: 0 <= i < n - 1 ==> (a + b)[1..][i] == a[1..][i];
    }
  }

  lemma {:induction false} AnsweredOne(m: Message)
    requires !m.ToolMessage? && (m.AssistantMessage? ==> m.calls == [])
    ensures Answered([m])
  {
    assert [m][1..] == [];
  }

  /** The calls of one round with their outputs. */
  datatype Exchange = Exchange(call: FunctionCall, output: string)

  function CallItemsOf(group: seq<Exchange>): seq<Item> {
    seq(|group|, i requires 0 <= i < |group| =>
      ToolCallItem(group[i].call.id, group[i].call.name, group[i].call.arguments))
  }

  function ResultItemsOf(group: seq<Exchange>): seq<Item> {
    seq(|group|, i requires 0 <= i < |group| => ToolResultItem(group[i].call.id, group[i].output))
  }

  function ToolMessagesOf(group: seq<Exchange>): seq<Message> {
    seq(|group|, i requires 0 <= i < |group| => ToolMessage(group[i].call.id, group[i].output))
  }

  /** The calls as the payload carries them. */
  function SentCalls(group: seq<Exchange>): seq<FunctionCall> {
    seq(|group|, i requires 0 <= i < |group| =>
      group[i].call.(arguments := Or(group[i].call.arguments, "{}")))
  }

  lemma {:induction false} AddCalls(b: Building, group: seq<Exchange>)
    requires b.pending.Open? || group != []
    ensures
      var content := if b.pending.Open? then b.pending.content else NoContent;
      var calls := if b.pending.Open? then b.pending.calls else [];
      BuildFrom(b, CallItemsOf(group)) == Building(b.messages, Open(content, calls + SentCalls(group)))
  {
    if group == [] {
      assert SentCalls([]) == [] && CallItemsOf([]) == [];
      assert b.pending.calls + [] == b.pending.calls;
    } else {
      var init, last := group[..|group| - 1], group[|group| - 1];
      var items := CallItemsOf(group);
      assert items[..|items| - 1] == CallItemsOf(init);
      assert SentCalls(group) == SentCalls(init) + [last.call.(arguments := Or(last.call.arguments, "{}"))];
      if b.pending.Open? || init != [] {
        AddCalls(b, init);
      } else {
        assert CallItemsOf(init) == [] && SentCalls(init) == [];
      }
      var before := if b.pending.Open? then b.pending.calls else [];
      assert before + SentCalls(init) + [CallOf(items[|items| - 1])] == before + SentCalls(group);
    }
  }

  lemma {:induction false} AddResults(b: Building, group: seq<Exchange>)
    requires group != []
    ensures BuildFrom(b, ResultItemsOf(group)) == Building(Flushed(b) + ToolMessagesOf(group), Nothing)
  {
    var init, last := group[..|group| - 1], group[|group| - 1];
    var items := ResultItemsOf(group);
    assert items[..|items| - 1] == ResultItemsOf(init);
    assert ToolMessagesOf(group) == ToolMessagesOf(init) + [ToolMessage(last.call.id, last.output)];
    if init == [] {
      assert ResultItemsOf(init) == [] && ToolMessagesOf(init) == [];
    } else {
      AddResults(b, init);
    }
  }

  lemma {:induction false} BuildFromJoin(b: Building, x: seq<Item>, y: seq<Item>)
    ensures BuildFrom(b, x + y) == BuildFrom(BuildFrom(b, x), y)
  {
    if y == [] {
      assert x + y == x;
    } else {
      assert (x + y)[..|x + y| - 1] == x + y[..|y| - 1];
      BuildFromJoin(b, x, y[..|y| - 1]);
    }
  }

  /** The open message has no calls yet, and every closed call is answered. */
  predicate Sound(b: Building) {
    Answered(b.messages) && (b.pending.Open? ==> b.pending.calls == [])
  }

  lemma {:induction false} SoundFlushed(b: Building)
    requires Sound(b)
    ensures Answered(Flushed(b))
  {
    if b.pending.Open? {
      var m := AssistantMessage(b.pending.content, b.pending.calls);
      AnsweredOne(m);
      AnsweredJoin(b.messages, [m]);
    }
  }

  lemma {:induction false} SoundPlain(b: Building, item: Item)
    requires Sound(b) && (item.UserItem? || item.AssistantTextItem?)
    ensures Sound(BuildFrom(b, [item]))
  {
    hide Answered;
    assert [item][..0] == [];
    SoundFlushed(b);
    if item.UserItem? {
      AnsweredOne(UserMessage(item.text, item.images));
      AnsweredJoin(Flushed(b), [UserMessage(item.text, item.images)]);
    }
  }

  /** A round's calls followed by its results keep the messages sound. */
  lemma {:induction false} SoundRound(b: Building, group: seq<Exchange>)
    requires Sound(b) && group != []
    ensures Sound(BuildFrom(b, CallItemsOf(group) + ResultItemsOf(group)))
  {
    hide Answered, BuildFrom, CallItemsOf, ResultItemsOf;
    AddCalls(b, group);
    var called := BuildFrom(b, CallItemsOf(group));
    AddResults(called, group);
    BuildFromJoin(b, CallItemsOf(group), ResultItemsOf(group));
    assert called.pending.calls == SentCalls(group) by {
      assert [] + SentCalls(group) == SentCalls(group);
    }
    var m := AssistantMessage(called.pending.content, called.pending.calls);
    AnsweredGroup(m, group);
    AnsweredJoin(b.messages, [m] + ToolMessagesOf(group));
    assert b.messages + [m] + ToolMessagesOf(group) == b.messages + ([m] + ToolMessagesOf(group));
  }

  lemma {:induction false} AnsweredGroup(m: Message, group: seq<Exchange>)
    requires m.AssistantMessage? && m.calls == SentCalls(group)
    ensures Answered([m] + ToolMessagesOf(group))
  {
    var all := [m] + ToolMessagesOf(group);
    assert all[1..] == ToolMessagesOf(group);
    assert all[1 + |m.calls|..] == [];
  }
}
