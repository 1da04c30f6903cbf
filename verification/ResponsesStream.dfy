/**
 The /v1/responses stream: `ResponsesStreamParser` - backend/app/integrations/agent_parsers.py.

 Events are modelled by the fields the parser reads; a field of the wrong JSON
 type is the same as an absent one. Search and citation events touch no field
 that calls, text and the finish event use, and are not part of this model.
 */
module ResponsesStream {
  import opened Common
  import opened Text
  import opened AgentTypes

  const MAX_ITEMS := 100

  /** One entry of `output`; a part is its text when it is an output text. */
  datatype Item =
    | MessageItem(id: string, parts: seq<Option<string>>)
    | FunctionCall(id: string, callId: string, name: string, arguments: Option<string>)
    | OtherItem

  datatype Event =
    | ErrorEvent(message: string)
    | OutputTextDelta(itemId: string, index: int, delta: string)
    | ItemAdded(item: Item)
    | ArgumentsDelta(itemId: string, delta: string)
    | ArgumentsDone(itemId: string, arguments: string)
    | ItemDone(item: Item)
    | ResponseEnded(incomplete: bool, output: seq<Item>, usage: Usage)
    | OtherEvent

  datatype Call = Call(callId: string, name: string, arguments: string, started: bool, done: bool)

  /** Why an event was given out, and for which item. */
  datatype Given =
    | TextPiece(itemId: string, index: nat, event: AgentEvent)
    | WholeText(itemId: string, index: nat, event: AgentEvent)
    | Start(key: string, event: AgentEvent)
    | Complete(key: string, event: AgentEvent)
    | End(event: AgentEvent)

  /** `order` is the insertion order of the dictionary of calls. */
  datatype State = State(
    order: seq<string>, calls: map<string, Call>, ended: Option<AgentEvent>, textSeen: set<(string, nat)>)

  datatype Step = Step(s: State, given: seq<Given>)

  const START := State([], map[], None, {})

  function EventsOf(given: seq<Given>): (events: seq<AgentEvent>)
    ensures |events| == |given|
  {
    seq(|given|, i requires 0 <= i < |given| => given[i].event)
  }

  // ---- calls ------------------------------------------------------------------

  function KeyOf(item: Item): string
    requires item.FunctionCall?
  {
    Or(item.id, item.callId)
  }

  /** `_call_for`: the call of an item, brought up to date with what the item says. */
  function WithItem(s: State, item: Item): State
    requires item.FunctionCall?
  {
    var key := KeyOf(item);
    var call := if key in s.calls then s.calls[key] else Call("", "", "", false, false);
    var known := call.(
      callId := Or(item.callId, call.callId), name := Or(item.name, call.name),
      arguments := Or(item.arguments.GetOr(""), call.arguments));
    s.(calls := s.calls[key := known], order := if key in s.calls then s.order else s.order + [key])
  }

  /** `_start` on the call of `key`. */
  function Started(s: State, key: string): Step
    requires key in s.calls
  {
    var call := s.calls[key];
    if call.started || call.name == "" then Step(s, [])
    else
      var begun := call.(started := true, callId := Or(call.callId, Fallback(|s.order|)));
      Step(s.(calls := s.calls[key := begun]), [Start(key, ToolCallStarted(begun.callId, begun.name))])
  }

  /** `_complete` on the call of `key`. */
  function Completed(s: State, key: string): Step
    requires key in s.calls
  {
    var call := s.calls[key];
    if call.done || call.name == "" then Step(s, [])
    else
      var begun := Started(s, key);
      var c := begun.s.calls[key];
      Step(begun.s.(calls := begun.s.calls[key := c.(done := true)]),
           begun.given + [Complete(key, ToolCallComplete(c.callId, c.name, Or(c.arguments, "{}")))])
  }

  function WithArguments(s: State, key: string, arguments: string): State
    requires key in s.calls
  {
    s.(calls := s.calls[key := s.calls[key].(arguments := arguments)])
  }

  // ---- text -------------------------------------------------------------------

  /** The part texts from `i` on that have not been sent. */
  function PartTexts(s: State, id: string, parts: seq<Option<string>>, i: nat): Step
    requires i <= |parts|
    decreases |parts| - i
  {
    if i == |parts| || i == MAX_ITEMS then Step(s, [])
    else if (id, i) in s.textSeen || parts[i].None? then PartTexts(s, id, parts, i + 1)
    else
      var rest := PartTexts(s.(textSeen := s.textSeen + {(id, i)}), id, parts, i + 1);
      Step(rest.s, [WholeText(id, i, TextDelta(parts[i].value, id, i))] + rest.given)
  }

  /** What an item of the finished response gives: its unsent texts, or its completed call. */
  function ItemStep(s: State, item: Item): Step {
    match item
    case MessageItem(id, parts) => PartTexts(s, id, parts, 0)
    case FunctionCall(_, _, _, _) => Completed(WithItem(s, item), KeyOf(item))
    case OtherItem => Step(s, [])
  }

  function ItemSteps(s: State, items: seq<Item>, i: nat): Step
    requires i <= |items|
    decreases |items| - i
  {
    if i == |items| || i == MAX_ITEMS then Step(s, [])
    else
      var one := ItemStep(s, items[i]);
      var rest := ItemSteps(one.s, items, i + 1);
      Step(rest.s, one.given + rest.given)
  }

  function Clamped(index: int): nat { if 0 <= index < MAX_ITEMS then index else 0 }

  // ---- events -----------------------------------------------------------------

  function Feed(s: State, e: Event): Step {
    match e
    case OutputTextDelta(id, index, delta) =>
      if delta == "" then Step(s, [])
      else
        var i := Clamped(index);
        Step(s.(textSeen := s.textSeen + {(id, i)}), [TextPiece(id, i, TextDelta(delta, id, i))])
    case ItemAdded(item) =>
      if item.FunctionCall? then Started(WithItem(s, item), KeyOf(item)) else Step(s, [])
    case ArgumentsDelta(id, delta) =>
      if id in s.calls then Step(WithArguments(s, id, s.calls[id].arguments + delta), []) else Step(s, [])
    case ArgumentsDone(id, arguments) =>
      if id in s.calls then Step(WithArguments(s, id, arguments), []) else Step(s, [])
    case ItemDone(item) => DoneStep(s, item)
    case ResponseEnded(incomplete, output, usage) =>
      var all := ItemSteps(s, output, 0);
      Step(all.s.(ended := Some(Finish(if incomplete then "length" else "stop", incomplete, usage, true))), all.given)
    case _ => Step(s, [])
  }

  /** Unlike a finished response, a finished item may bring empty arguments. */
  function DoneStep(s: State, item: Item): Step {
    if item.FunctionCall? && item.arguments.Some? then
      Completed(WithArguments(WithItem(s, item), KeyOf(item), item.arguments.value), KeyOf(item))
    else ItemStep(s, item)
  }

  /** The calls from position `i` on, completed in insertion order. */
  function CompleteFrom(s: State, i: nat): Step
    requires i <= |s.order|
    decreases |s.order| - i
  {
    if i == |s.order| then Step(s, [])
    else if s.order[i] !in s.calls then CompleteFrom(s, i + 1)
    else
      var one := Completed(s, s.order[i]);
      var rest := CompleteFrom(one.s, i + 1);
      Step(rest.s, one.given + rest.given)
  }

  function FinishStep(s: State): Step {
    var all := CompleteFrom(s, 0);
    Step(all.s, all.given + [End(s.ended.GetOr(Finish("eof", true, map[], false)))])
  }

  function Run(es: seq<Event>): Step {
    if es == [] then Step(START, [])
    else
      var before := Run(es[..|es| - 1]);
      var last := Feed(before.s, es[|es| - 1]);
      Step(last.s, before.given + last.given)
  }

  /** Everything a stream gives, `finish` included. */
  function Streamed(es: seq<Event>): Step {
    var run := Run(es);
    var end := FinishStep(run.s);
    Step(end.s, run.given + end.given)
  }

  // ---- the parser -------------------------------------------------------------

  lemma {:induction false} EventsJoin(a: seq<Given>, b: seq<Given>)
    ensures EventsOf(a + b) == EventsOf(a) + EventsOf(b)
  {}

  lemma {:induction false} OneEvent(g: Given)
    ensures EventsOf([g]) == [g.event] && EventsOf([]) == []
  {}

  class ResponsesStreamParser {
    var order: seq<string>
    var calls: map<string, Call>
    var ended: Option<AgentEvent>
    var textSeen: set<(string, nat)>

    ghost function Contents(): State
      reads this
    {
      State(order, calls, ended, textSeen)
    }

    constructor ()
      ensures Contents() == START
    {
      order, calls, ended, textSeen := [], map[], None, {};
    }

    method CallFor(item: Item) returns (key: string)
      requires item.FunctionCall?
      modifies this`order, this`calls
      ensures Contents() == WithItem(old(Contents()), item) && key == KeyOf(item) && key in calls
    {
      key := Or(item.id, item.callId);
      if key !in calls {
        calls := calls[key := Call("", "", "", false, false)];
        order := order + [key];
      }
      var call := calls[key];
      if item.callId != "" { call := call.(callId := item.callId); }
      if item.name != "" { call := call.(name := item.name); }
      if item.arguments.Some? && item.arguments.value != "" { call := call.(arguments := item.arguments.value); }
      calls := calls[key := call];
    }

    method StartCall(key: string) returns (out: seq<AgentEvent>)
      requires key in calls
      modifies this`calls
      ensures
        var step := Started(old(Contents()), key);
        Contents() == step.s && out == EventsOf(step.given)
    {
      hide Fallback;
      var call := calls[key];
      if call.started || call.name == "" {
        return [];
      }
      call := call.(started := true, callId := Or(call.callId, Fallback(|order|)));
      calls := calls[key := call];
      OneEvent(Start(key, ToolCallStarted(call.callId, call.name)));
      out := [ToolCallStarted(call.callId, call.name)];
    }

    method CompleteCall(key: string) returns (out: seq<AgentEvent>)
      requires key in calls
      modifies this`calls
      ensures
        var step := Completed(old(Contents()), key);
        Contents() == step.s && out == EventsOf(step.given)
    {
      hide Started, EventsOf;
      var call := calls[key];
      if call.done || call.name == "" {
        assert EventsOf([]) == [] by { OneEvent(Start(key, ToolCallStarted("", ""))); }
        return [];
      }
      ghost var begun := Started(Contents(), key);
      StartedStays(Contents(), key);
      out := StartCall(key);
      call := calls[key];
      ghost var completed := Complete(key, ToolCallComplete(call.callId, call.name, Or(call.arguments, "{}")));
      EventsJoin(begun.given, [completed]);
      OneEvent(completed);
      calls := calls[key := call.(done := true)];
      out := out + [ToolCallComplete(call.callId, call.name, Or(call.arguments, "{}"))];
    }

    /** The texts of a message that have not been sent. */
    method SendParts(id: string, parts: seq<Option<string>>) returns (out: seq<AgentEvent>)
      modifies this`textSeen
      ensures
        var step := PartTexts(old(Contents()), id, parts, 0);
        Contents() == step.s && out == EventsOf(step.given)
    {
      hide EventsOf, PartTexts;
      out := [];
      ghost var given: seq<Given> := [];
      ghost var whole := PartTexts(Contents(), id, parts, 0);
      OneEvent(End(Finish("", false, map[], false)));
      assert [] + whole.given == whole.given;
      var i := 0;
      while i < |parts| && i < MAX_ITEMS
        invariant i <= |parts| && i <= MAX_ITEMS
        invariant out == EventsOf(given)
        invariant
          var rest := PartTexts(Contents(), id, parts, i);
          whole.s == rest.s && whole.given == given + rest.given
      {
        PartTextsStep(Contents(), id, parts, i);
        if (id, i) !in textSeen && parts[i].Some? {
          var text := TextDelta(parts[i].value, id, i);
          ghost var g := WholeText(id, i, text);
          textSeen := textSeen + {(id, i)};
          EventsJoin(given, [g]);
          OneEvent(g);
          ghost var rest := PartTexts(Contents(), id, parts, i + 1).given;
          assert given + ([g] + rest) == given + [g] + rest;
          given := given + [g];
          out := out + [text];
        }
        i := i + 1;
      }
      PartTextsStep(Contents(), id, parts, i);
      assert given + [] == given;
    }

    method TakeItem(item: Item) returns (out: seq<AgentEvent>)
      modifies this`order, this`calls, this`textSeen
      ensures
        var step := ItemStep(old(Contents()), item);
        Contents() == step.s && out == EventsOf(step.given)
    {
      hide PartTexts, Completed, WithItem;
      match item
      case MessageItem(id, parts) =>
        out := SendParts(id, parts);
      case FunctionCall(_, _, _, _) =>
        var key := CallFor(item);
        out := CompleteCall(key);
      case OtherItem =>
        out := [];
    }

    method TakeItems(items: seq<Item>) returns (out: seq<AgentEvent>)
      modifies this`order, this`calls, this`textSeen
      ensures
        var step := ItemSteps(old(Contents()), items, 0);
        Contents() == step.s && out == EventsOf(step.given)
    {
      hide EventsOf, ItemStep;
      out := [];
      ghost var given: seq<Given> := [];
      ghost var whole := ItemSteps(Contents(), items, 0);
      OneEvent(End(Finish("", false, map[], false)));
      var i := 0;
      while i < |items| && i < MAX_ITEMS
        invariant i <= |items| && i <= MAX_ITEMS
        invariant out == EventsOf(given)
        invariant
          var rest := ItemSteps(Contents(), items, i);
          whole.s == rest.s && whole.given == given + rest.given
      {
        ghost var one := ItemStep(Contents(), items[i]);
        ghost var rest := ItemSteps(one.s, items, i + 1);
        assert given + (one.given + rest.given) == given + one.given + rest.given;
        EventsJoin(given, one.given);
        var part := TakeItem(items[i]);
        given := given + one.given;
        out := out + part;
        i := i + 1;
      }
      assert given + [] == given;
    }

    /** A failure reported by the model changes nothing. */
    method FeedEvent(e: Event) returns (fed: Fed)
      modifies this
      ensures e.ErrorEvent? ==> fed == Failed(e.message) && Contents() == old(Contents())
      ensures
        var step := Feed(old(Contents()), e);
        !e.ErrorEvent? ==> Contents() == step.s && fed == Events(EventsOf(step.given))
    {
      hide ItemSteps, ItemStep, Started, Completed, WithItem, EventsOf;
      OneEvent(End(Finish("", false, map[], false)));
      match e
      case ErrorEvent(message) => return Failed(message);
      case OutputTextDelta(id, index, delta) =>
        if delta == "" {
          return Events([]);
        }
        var i := Clamped(index);
        textSeen := textSeen + {(id, i)};
        OneEvent(TextPiece(id, i, TextDelta(delta, id, i)));
        return Events([TextDelta(delta, id, i)]);
      case ItemAdded(item) =>
        if !item.FunctionCall? {
          return Events([]);
        }
        var key := CallFor(item);
        var out := StartCall(key);
        return Events(out);
      case ArgumentsDelta(id, delta) =>
        if id in calls {
          calls := calls[id := calls[id].(arguments := calls[id].arguments + delta)];
        }
        return Events([]);
      case ArgumentsDone(id, arguments) =>
        if id in calls {
          calls := calls[id := calls[id].(arguments := arguments)];
        }
        return Events([]);
      case ItemDone(item) =>
        var out := TakeDone(item);
        return Events(out);
      case ResponseEnded(incomplete, output, usage) =>
        var out := TakeItems(output);
        ended := Some(Finish(if incomplete then "length" else "stop", incomplete, usage, true));
        return Events(out);
      case OtherEvent => return Events([]);
    }

    method TakeDone(item: Item) returns (out: seq<AgentEvent>)
      modifies this`order, this`calls, this`textSeen
      ensures
        var step := DoneStep(old(Contents()), item);
        Contents() == step.s && out == EventsOf(step.given)
    {
      hide ItemStep, Completed, WithItem;
      if item.FunctionCall? && item.arguments.Some? {
        var key := CallFor(item);
        calls := calls[key := calls[key].(arguments := item.arguments.value)];
        out := CompleteCall(key);
      } else {
        out := TakeItem(item);
      }
    }

    method FinishStream() returns (out: seq<AgentEvent>)
      modifies this`calls
      ensures
        var step := FinishStep(old(Contents()));
        Contents() == step.s && out == EventsOf(step.given)
    {
      hide EventsOf, Completed;
      out := [];
      ghost var given: seq<Given> := [];
      ghost var all := CompleteFrom(Contents(), 0);
      OneEvent(End(Finish("", false, map[], false)));
      for i := 0 to |order|
        invariant order == old(order) && ended == old(ended)
        invariant out == EventsOf(given)
        invariant
          var rest := CompleteFrom(Contents(), i);
          all.s == rest.s && all.given == given + rest.given
      {
        if order[i] in calls {
          ghost var one := Completed(Contents(), order[i]);
          CompletedKeepsRest(Contents(), order[i]);
          ghost var rest := CompleteFrom(one.s, i + 1);
          assert given + (one.given + rest.given) == given + one.given + rest.given;
          EventsJoin(given, one.given);
          var part := CompleteCall(order[i]);
          given := given + one.given;
          out := out + part;
        }
      }
      assert given + [] == given;
      var last := ended.GetOr(Finish("eof", true, map[], false));
      EventsJoin(given, [End(last)]);
      OneEvent(End(last));
      out := out + [last];
    }
  }

  lemma {:induction false} PartTextsStep(s: State, id: string, parts: seq<Option<string>>, i: nat)
    requires i <= |parts|
    ensures
      PartTexts(s, id, parts, i) ==
      if i == |parts| || i == MAX_ITEMS then Step(s, [])
      else if (id, i) in s.textSeen || parts[i].None? then PartTexts(s, id, parts, i + 1)
      else
        var rest := PartTexts(s.(textSeen := s.textSeen + {(id, i)}), id, parts, i + 1);
        Step(rest.s, [WholeText(id, i, TextDelta(parts[i].value, id, i))] + rest.given)
  {}

  lemma {:induction false} StartedStays(s: State, key: string)
    requires key in s.calls
    ensures key in Started(s, key).s.calls && Started(s, key).s.order == s.order
  {}

  lemma {:induction false} CompletedKeepsRest(s: State, key: string)
    requires key in s.calls
    ensures Completed(s, key).s.order == s.order && Completed(s, key).s.ended == s.ended
    ensures Completed(s, key).s.textSeen == s.textSeen && Completed(s, key).s.calls.Keys == s.calls.Keys
  {}

  // ---- the life of one call ---------------------------------------------------

  /** The events about the call of one key. */
  function Life(given: seq<Given>, key: string): seq<Given> {
    if given == [] then []
    else Life(given[..|given| - 1], key) + AboutKey(given[|given| - 1], key)
  }

  function AboutKey(g: Given, key: string): seq<Given> {
    if (g.Start? || g.Complete?) && g.key == key then [g] else []
  }

  lemma {:induction false} LifeJoin(a: seq<Given>, b: seq<Given>, key: string)
    ensures Life(a + b, key) == Life(a, key) + Life(b, key)
  {
    if b == [] {
      assert a + b == a;
    } else {
      assert (a + b)[..|a + b| - 1] == a + b[..|b| - 1];
      LifeJoin(a, b[..|b| - 1], key);
    }
  }

  lemma {:induction false} LifeOne(g: Given, key: string)
    ensures Life([g], key) == AboutKey(g, key) && Life([], key) == []
  {
    assert [g][..0] == [];
    assert [] + AboutKey(g, key) == AboutKey(g, key);
  }

  /** Nothing, a start, or a start and a completion, as the flags of the call say. */
  ghost predicate LifeOk(s: State, key: string, life: seq<Given>) {
    if key !in s.calls then life == []
    else
      var c := s.calls[key];
      && (c.done ==> c.started) && (c.started ==> c.name != "")
      && |life| == (if c.started then 1 else 0) + (if c.done then 1 else 0)
      && (c.started ==> life[0].Start?) && (c.done ==> life[1].Complete?)
  }

  lemma {:induction false} WithItemLife(s: State, item: Item, key: string, life: seq<Given>)
    requires item.FunctionCall? && LifeOk(s, key, life)
    ensures LifeOk(WithItem(s, item), key, life)
  {}

  lemma {:induction false} StartedLife(s: State, k: string, key: string, life: seq<Given>)
    requires k in s.calls && LifeOk(s, key, life)
    ensures LifeOk(Started(s, k).s, key, life + Life(Started(s, k).given, key))
  {
    hide Fallback, Life;
    var given := Started(s, k).given;
    LifeOne(if given == [] then Start("", TextDelta("", "", 0)) else given[0], key);
    assert given != [] ==> given == [given[0]];
    assert life + [] == life;
  }

  lemma {:induction false} CompletedLife(s: State, k: string, key: string, life: seq<Given>)
    requires k in s.calls && LifeOk(s, key, life)
    ensures LifeOk(Completed(s, k).s, key, life + Life(Completed(s, k).given, key))
  {
    hide Fallback, Life, Started;
    var c := s.calls[k];
    LifeOne(Start("", TextDelta("", "", 0)), key);
    assert life + [] == life;
    if !c.done && c.name != "" {
      StartedLife(s, k, key, life);
      StartedNamed(s, k);
      StartedStays(s, k);
      var begun := Started(s, k);
      var b := begun.s.calls[k];
      var completed := Complete(k, ToolCallComplete(b.callId, b.name, Or(b.arguments, "{}")));
      LifeJoin(begun.given, [completed], key);
      LifeOne(completed, key);
      assert life + (Life(begun.given, key) + Life([completed], key)) ==
          life + Life(begun.given, key) + Life([completed], key);
    }
  }

  lemma {:induction false} StartedNamed(s: State, k: string)
    requires k in s.calls
    ensures k in Started(s, k).s.calls
    ensures
      var after := Started(s, k).s.calls[k];
      && after.name == s.calls[k].name && after.done == s.calls[k].done && after.arguments == s.calls[k].arguments
      && (after.name != "" ==> after.started)
  {}

  lemma {:induction false} PartTextsLife(s: State, id: string, parts: seq<Option<string>>, i: nat, key: string)
    requires i <= |parts|
    ensures PartTexts(s, id, parts, i).s.calls == s.calls && PartTexts(s, id, parts, i).s.order == s.order
    ensures Life(PartTexts(s, id, parts, i).given, key) == []
    decreases |parts| - i
  {
    if i < |parts| && i != MAX_ITEMS {
      PartTextsLife(s, id, parts, i + 1, key);
      PartTextsLife(s.(textSeen := s.textSeen + {(id, i)}), id, parts, i + 1, key);
      if (id, i) !in s.textSeen && parts[i].Some? {
        var whole := WholeText(id, i, TextDelta(parts[i].value, id, i));
        LifeJoin([whole], PartTexts(s.(textSeen := s.textSeen + {(id, i)}), id, parts, i + 1).given, key);
        LifeOne(whole, key);
      }
    }
  }

  lemma {:induction false} ItemStepLife(s: State, item: Item, key: string, life: seq<Given>)
    requires LifeOk(s, key, life)
    ensures LifeOk(ItemStep(s, item).s, key, life + Life(ItemStep(s, item).given, key))
  {
    hide WithItem, Completed, PartTexts, Life;
    LifeOne(Start("", TextDelta("", "", 0)), key);
    assert life + [] == life;
    match item
    case MessageItem(id, parts) => PartTextsLife(s, id, parts, 0, key);
    case FunctionCall(_, _, _, _) =>
      WithItemLife(s, item, key, life);
      WithItemHolds(s, item);
      CompletedLife(WithItem(s, item), KeyOf(item), key, life);
    case OtherItem =>
  }

  lemma {:induction false} ItemStepsLife(s: State, items: seq<Item>, i: nat, key: string, life: seq<Given>)
    requires i <= |items| && LifeOk(s, key, life)
    ensures LifeOk(ItemSteps(s, items, i).s, key, life + Life(ItemSteps(s, items, i).given, key))
    decreases |items| - i
  {
    hide ItemStep, Life, LifeOk;
    LifeOne(Start("", TextDelta("", "", 0)), key);
    assert life + [] == life;
    if i < |items| && i != MAX_ITEMS {
      var one := ItemStep(s, items[i]);
      ItemStepLife(s, items[i], key, life);
      ItemStepsLife(one.s, items, i + 1, key, life + Life(one.given, key));
      var rest := ItemSteps(one.s, items, i + 1);
      LifeJoin(one.given, rest.given, key);
      assert life + (Life(one.given, key) + Life(rest.given, key)) ==
          life + Life(one.given, key) + Life(rest.given, key);
    }
  }

  lemma {:induction false} DoneStepLife(s: State, item: Item, key: string, life: seq<Given>)
    requires LifeOk(s, key, life)
    ensures LifeOk(DoneStep(s, item).s, key, life + Life(DoneStep(s, item).given, key))
  {
    hide ItemStep, Life, Completed, WithItem;
    if item.FunctionCall? && item.arguments.Some? {
      var known := WithItem(s, item);
      WithItemLife(s, item, key, life);
      WithItemHolds(s, item);
      var full := WithArguments(known, KeyOf(item), item.arguments.value);
      assert LifeOk(full, key, life);
      CompletedLife(full, KeyOf(item), key, life);
    } else {
      ItemStepLife(s, item, key, life);
    }
  }

  lemma {:induction false} WithItemHolds(s: State, item: Item)
    requires item.FunctionCall?
    ensures KeyOf(item) in WithItem(s, item).calls
  {}

  lemma {:induction false} AddedLife(s: State, item: Item, key: string, life: seq<Given>)
    requires item.FunctionCall? && LifeOk(s, key, life)
    ensures LifeOk(Feed(s, ItemAdded(item)).s, key, life + Life(Feed(s, ItemAdded(item)).given, key))
  {
    hide Started, WithItem, Life, LifeOk;
    WithItemHolds(s, item);
    WithItemLife(s, item, key, life);
    StartedLife(WithItem(s, item), KeyOf(item), key, life);
  }

  lemma {:induction false} ArgumentsLife(s: State, k: string, arguments: string, key: string, life: seq<Given>)
    requires k in s.calls && LifeOk(s, key, life)
    ensures LifeOk(WithArguments(s, k, arguments), key, life)
  {}

  lemma {:induction false} TextDeltaLife(s: State, e: Event, key: string, life: seq<Given>)
    requires e.OutputTextDelta? && LifeOk(s, key, life)
    ensures LifeOk(Feed(s, e).s, key, life + Life(Feed(s, e).given, key))
  {
    hide Life;
    LifeOne(TextPiece(e.itemId, Clamped(e.index), TextDelta(e.delta, e.itemId, Clamped(e.index))), key);
    assert life + [] == life;
  }

  lemma {:induction false} EndedLife(s: State, ended: Option<AgentEvent>, key: string, life: seq<Given>)
    requires LifeOk(s, key, life)
    ensures LifeOk(s.(ended := ended), key, life)
  {}

  /** Whatever event comes, each call stays at nothing, a start, or a start and a completion. */
  lemma {:induction false} FeedLife(s: State, e: Event, key: string, life: seq<Given>)
    requires LifeOk(s, key, life)
    ensures LifeOk(Feed(s, e).s, key, life + Life(Feed(s, e).given, key))
  {
    LifeOne(End(Finish("", false, map[], false)), key);
    hide ItemSteps, DoneStep, Started, WithItem, WithArguments, Life, LifeOk;
    assert life + [] == life;
    match e
    case OutputTextDelta(_, _, _) => TextDeltaLife(s, e, key, life);
    case ItemAdded(item) => if item.FunctionCall? { AddedLife(s, item, key, life); }
    case ArgumentsDelta(id, delta) =>
      if id in s.calls { ArgumentsLife(s, id, s.calls[id].arguments + delta, key, life); }
    case ArgumentsDone(id, arguments) =>
      if id in s.calls { ArgumentsLife(s, id, arguments, key, life); }
    case ItemDone(item) => DoneStepLife(s, item, key, life);
    case ResponseEnded(incomplete, output, usage) =>
      ItemStepsLife(s, output, 0, key, life);
      EndedLife(ItemSteps(s, output, 0).s, Feed(s, e).s.ended, key, life + Life(Feed(s, e).given, key));
    case _ =>
  }

  lemma {:induction false} CompleteFromLife(s: State, i: nat, key: string, life: seq<Given>)
    requires i <= |s.order| && LifeOk(s, key, life)
    ensures LifeOk(CompleteFrom(s, i).s, key, life + Life(CompleteFrom(s, i).given, key))
    decreases |s.order| - i
  {
    hide Completed, Life, LifeOk;
    LifeOne(Start("", TextDelta("", "", 0)), key);
    assert life + [] == life;
    if i < |s.order| {
      if s.order[i] in s.calls {
        var one := Completed(s, s.order[i]);
        CompletedKeepsRest(s, s.order[i]);
        CompletedLife(s, s.order[i], key, life);
        CompleteFromLife(one.s, i + 1, key, life + Life(one.given, key));
        var rest := CompleteFrom(one.s, i + 1);
        LifeJoin(one.given, rest.given, key);
        assert life + (Life(one.given, key) + Life(rest.given, key)) ==
            life + Life(one.given, key) + Life(rest.given, key);
      } else {
        CompleteFromLife(s, i + 1, key, life);
      }
    }
  }

  lemma {:induction false} RunLife(es: seq<Event>, key: string)
    ensures LifeOk(Run(es).s, key, Life(Run(es).given, key))
  {
    LifeOne(Start("", TextDelta("", "", 0)), key);
    if es != [] {
      var before := Run(es[..|es| - 1]);
      RunLife(es[..|es| - 1], key);
      hide Feed, LifeOk, Life;
      FeedLife(before.s, es[|es| - 1], key, Life(before.given, key));
      LifeJoin(before.given, Feed(before.s, es[|es| - 1]).given, key);
    }
  }

  // ---- which calls complete ---------------------------------------------------

  predicate IsNamed(s: State, key: string) { key in s.calls && s.calls[key].name != "" }

  predicate Names(item: Item, key: string) { item.FunctionCall? && KeyOf(item) == key && item.name != "" }

  predicate NamesFrom(items: seq<Item>, i: nat, key: string)
    requires i <= |items|
    decreases |items| - i
  {
    i < |items| && i != MAX_ITEMS && (Names(items[i], key) || NamesFrom(items, i + 1, key))
  }

  /** The event carries a function call item with this key and a name. */
  predicate NamedBy(e: Event, key: string) {
    match e
    case ItemAdded(item) => Names(item, key)
    case ItemDone(item) => Names(item, key)
    case ResponseEnded(_, output, _) => NamesFrom(output, 0, key)
    case _ => false
  }

  /** The dictionary's keys are the ones in its order, and no call is done without a name. */
  ghost predicate OrderOk(s: State) {
    forall k :: k in s.calls <==> k in s.order
  }

  lemma {:induction false} WithItemNames(s: State, item: Item, key: string)
    requires item.FunctionCall? && OrderOk(s)
    ensures OrderOk(WithItem(s, item))
    ensures IsNamed(WithItem(s, item), key) <==> IsNamed(s, key) || Names(item, key)
  {}

  lemma {:induction false} StartedNames(s: State, k: string, key: string)
    requires k in s.calls && OrderOk(s)
    ensures OrderOk(Started(s, k).s) && (IsNamed(Started(s, k).s, key) <==> IsNamed(s, key))
  {
    hide Fallback;
  }

  lemma {:induction false} CompletedNames(s: State, k: string, key: string)
    requires k in s.calls && OrderOk(s)
    ensures OrderOk(Completed(s, k).s) && (IsNamed(Completed(s, k).s, key) <==> IsNamed(s, key))
    ensures k in Completed(s, k).s.calls && (IsNamed(s, k) ==> Completed(s, k).s.calls[k].done)
    ensures key in s.calls && s.calls[key].done ==>
              key in Completed(s, k).s.calls && Completed(s, k).s.calls[key].done
  {
    StartedStays(s, k);
    hide Fallback;
  }

  lemma {:induction false} ItemStepNames(s: State, item: Item, key: string)
    requires OrderOk(s)
    ensures OrderOk(ItemStep(s, item).s)
    ensures IsNamed(ItemStep(s, item).s, key) <==> IsNamed(s, key) || Names(item, key)
  {
    hide WithItem, Completed, PartTexts;
    match item
    case MessageItem(id, parts) => PartTextsLife(s, id, parts, 0, key);
    case FunctionCall(_, _, _, _) =>
      WithItemNames(s, item, key);
      WithItemHolds(s, item);
      CompletedNames(WithItem(s, item), KeyOf(item), key);
    case OtherItem =>
  }

  lemma {:induction false} ItemStepsNames(s: State, items: seq<Item>, i: nat, key: string)
    requires i <= |items| && OrderOk(s)
    ensures OrderOk(ItemSteps(s, items, i).s)
    ensures IsNamed(ItemSteps(s, items, i).s, key) <==> IsNamed(s, key) || NamesFrom(items, i, key)
    decreases |items| - i
  {
    hide ItemStep, IsNamed, OrderOk, Names;
    if i < |items| && i != MAX_ITEMS {
      ItemStepNames(s, items[i], key);
      ItemStepsNames(ItemStep(s, items[i]).s, items, i + 1, key);
    }
  }

  /** A call has a name after an event exactly when it had one or the event gives one. */
  lemma {:induction false} FeedNames(s: State, e: Event, key: string)
    requires OrderOk(s)
    ensures OrderOk(Feed(s, e).s)
    ensures IsNamed(Feed(s, e).s, key) <==> IsNamed(s, key) || NamedBy(e, key)
  {
    hide ItemSteps, ItemStep, Started, WithItem, Completed, Names, NamesFrom;
    match e
    case ItemAdded(item) =>
      if item.FunctionCall? {
        WithItemNames(s, item, key);
        WithItemHolds(s, item);
        StartedNames(WithItem(s, item), KeyOf(item), key);
      } else {
        NoCallNoName(item, key);
      }
    case ItemDone(item) =>
      if item.FunctionCall? && item.arguments.Some? {
        WithItemNames(s, item, key);
        WithItemHolds(s, item);
        CompletedNames(WithArguments(WithItem(s, item), KeyOf(item), item.arguments.value), KeyOf(item), key);
      } else {
        ItemStepNames(s, item, key);
      }
    case ResponseEnded(incomplete, output, usage) => ItemStepsNames(s, output, 0, key);
    case _ =>
  }

  lemma {:induction false} NoCallNoName(item: Item, key: string)
    requires !item.FunctionCall?
    ensures !Names(item, key)
  {}

  ghost predicate EverNamed(es: seq<Event>, key: string) {
    exists i :: 0 <= i < |es| && NamedBy(es[i], key)
  }

  lemma {:induction false} RunNames(es: seq<Event>, key: string)
    ensures OrderOk(Run(es).s)
    ensures IsNamed(Run(es).s, key) <==> EverNamed(es, key)
  {
    if es != [] {
      var init, last := es[..|es| - 1], es[|es| - 1];
      RunNames(init, key);
      hide Feed, IsNamed, OrderOk, NamedBy;
      FeedNames(Run(init).s, last, key);
      EverNamedLast(init, last, key);
      assert es == init + [last];
    }
  }

  lemma {:induction false} EverNamedLast(init: seq<Event>, last: Event, key: string)
    ensures EverNamed(init + [last], key) <==> EverNamed(init, key) || NamedBy(last, key)
  {
    hide NamedBy;
    var es := init + [last];
    assert es[|init|] == last;
    if EverNamed(init, key) {
      var i :| 0 <= i < |init| && NamedBy(init[i], key);
      assert es[i] == init[i];
    }
  }

  /** `finish` completes every call that has a name. */
  lemma {:induction false} CompleteFromDone(s: State, i: nat, key: string)
    requires i <= |s.order| && OrderOk(s)
    ensures
      var after := CompleteFrom(s, i).s;
      && (IsNamed(after, key) <==> IsNamed(s, key))
      && (key in s.calls && s.calls[key].done ==> key in after.calls && after.calls[key].done)
      && (IsNamed(s, key) && key in s.order[i..] ==> key in after.calls && after.calls[key].done)
    decreases |s.order| - i
  {
    if i < |s.order| {
      assert s.order[i..] == [s.order[i]] + s.order[i + 1..];
      assert s.order[i] in s.order;
      hide Completed;
      CompletedKeepsRest(s, s.order[i]);
      CompletedNames(s, s.order[i], key);
      CompleteFromDone(Completed(s, s.order[i]).s, i + 1, key);
    }
  }

  /**
   For every run of events: a call that some event names is started once and then
   completed once, and nothing is ever given out for any other key.
   */
  lemma {:induction false} NamedCallsComplete(es: seq<Event>, key: string)
    ensures
      var life := Life(Streamed(es).given, key);
      if EverNamed(es, key) then |life| == 2 && life[0].Start? && life[1].Complete? else life == []
  {
    var run := Run(es);
    RunNames(es, key);
    RunLife(es, key);
    CompleteFromLife(run.s, 0, key, Life(run.given, key));
    CompleteFromDone(run.s, 0, key);
    assert IsNamed(run.s, key) ==> key in run.s.order[0..];
    var all := CompleteFrom(run.s, 0);
    var end := End(run.s.ended.GetOr(Finish("eof", true, map[], false)));
    hide CompleteFrom, Life;
    LifeJoin(all.given, [end], key);
    LifeJoin(run.given, all.given + [end], key);
    LifeOne(end, key);
    assert Life(Streamed(es).given, key) == Life(run.given, key) + Life(all.given, key);
  }

  // ---- text -------------------------------------------------------------------

  ghost predicate IsText(g: Given, id: string, index: nat) {
    (g.TextPiece? || g.WholeText?) && g.itemId == id && g.index == index
  }

  /** Some text of this part has been given out. */
  ghost predicate Sent(given: seq<Given>, id: string, index: nat) {
    exists i :: 0 <= i < |given| && IsText(given[i], id, index)
  }

  /** `textSeen` holds exactly the parts whose text has been given out. */
  ghost predicate SeenOk(s: State, given: seq<Given>) {
    forall id: string, index: nat :: (id, index) in s.textSeen <==> Sent(given, id, index)
  }

  /** No part is given out whole after any of its text has been given out. */
  ghost predicate NoRepeat(given: seq<Given>) {
    forall i, j :: 0 <= i < j < |given| && given[j].WholeText? ==> !IsText(given[i], given[j].itemId, given[j].index)
  }

  lemma {:induction false} SentLast(given: seq<Given>, g: Given, id: string, index: nat)
    ensures Sent(given + [g], id, index) <==> Sent(given, id, index) || IsText(g, id, index)
  {
    var all := given + [g];
    assert all[|given|] == g;
    if Sent(given, id, index) {
      var i :| 0 <= i < |given| && IsText(given[i], id, index);
      assert all[i] == given[i];
    }
  }

  lemma {:induction false} NoRepeatLast(given: seq<Given>, g: Given)
    requires NoRepeat(given) && (g.WholeText? ==> !Sent(given, g.itemId, g.index))
    ensures NoRepeat(given + [g])
  {}

  /** Text going out is recorded. */
  lemma {:induction false} TextGoesOut(s: State, given: seq<Given>, g: Given)
    requires SeenOk(s, given) && NoRepeat(given) && (g.TextPiece? || g.WholeText?)
    requires g.WholeText? ==> (g.itemId, g.index) !in s.textSeen
    ensures
      var after := s.(textSeen := s.textSeen + {(g.itemId, g.index)});
      SeenOk(after, given + [g]) && NoRepeat(given + [g])
  {
    hide Sent, NoRepeat;
    NoRepeatLast(given, g);
    forall id: string, index: nat
      ensures Sent(given + [g], id, index) <==> Sent(given, id, index) || IsText(g, id, index)
    {
      SentLast(given, g, id, index);
    }
  }

  /** Other events leave the record alone. */
  lemma {:induction false} OthersGoOut(s: State, given: seq<Given>, more: seq<Given>, after: State)
    requires SeenOk(s, given) && NoRepeat(given) && after.textSeen == s.textSeen
    requires forall i :: 0 <= i < |more| ==> !more[i].TextPiece? && !more[i].WholeText?
    ensures SeenOk(after, given + more) && NoRepeat(given + more)
    decreases |more|
  {
    if more == [] {
      assert given + more == given;
    } else {
      var init, g := more[..|more| - 1], more[|more| - 1];
      hide Sent, NoRepeat;
      OthersGoOut(s, given, init, after);
      assert given + more == given + init + [g];
      NoRepeatLast(given + init, g);
      forall id: string, index: nat
        ensures Sent(given + more, id, index) <==> Sent(given + init, id, index)
      {
        SentLast(given + init, g, id, index);
      }
    }
  }

  lemma {:induction false} PartTextsOnce(s: State, id: string, parts: seq<Option<string>>, i: nat, given: seq<Given>)
    requires i <= |parts| && SeenOk(s, given) && NoRepeat(given)
    ensures
      var step := PartTexts(s, id, parts, i);
      SeenOk(step.s, given + step.given) && NoRepeat(given + step.given)
    decreases |parts| - i
  {
    hide SeenOk, NoRepeat;
    assert given + [] == given;
    if i < |parts| && i != MAX_ITEMS {
      if (id, i) in s.textSeen || parts[i].None? {
        PartTextsOnce(s, id, parts, i + 1, given);
      } else {
        var whole := WholeText(id, i, TextDelta(parts[i].value, id, i));
        var after := s.(textSeen := s.textSeen + {(id, i)});
        TextGoesOut(s, given, whole);
        PartTextsOnce(after, id, parts, i + 1, given + [whole]);
        var rest := PartTexts(after, id, parts, i + 1).given;
        assert given + ([whole] + rest) == given + [whole] + rest;
      }
    }
  }

  lemma {:induction false} CompletedIsNoText(s: State, k: string)
    requires k in s.calls
    ensures Completed(s, k).s.textSeen == s.textSeen && Started(s, k).s.textSeen == s.textSeen
    ensures forall g :: g in Completed(s, k).given || g in Started(s, k).given ==> !g.TextPiece? && !g.WholeText?
  {}

  lemma {:induction false} ItemStepOnce(s: State, item: Item, given: seq<Given>)
    requires SeenOk(s, given) && NoRepeat(given)
    ensures
      var step := ItemStep(s, item);
      SeenOk(step.s, given + step.given) && NoRepeat(given + step.given)
  {
    hide Completed, PartTexts, SeenOk, NoRepeat;
    match item
    case MessageItem(id, parts) => PartTextsOnce(s, id, parts, 0, given);
    case FunctionCall(_, _, _, _) =>
      WithItemHolds(s, item);
      CompletedIsNoText(WithItem(s, item), KeyOf(item));
      OthersGoOut(s, given, ItemStep(s, item).given, ItemStep(s, item).s);
    case OtherItem => OthersGoOut(s, given, [], s);
  }

  lemma {:induction false} ItemStepsOnce(s: State, items: seq<Item>, i: nat, given: seq<Given>)
    requires i <= |items| && SeenOk(s, given) && NoRepeat(given)
    ensures
      var step := ItemSteps(s, items, i);
      SeenOk(step.s, given + step.given) && NoRepeat(given + step.given)
    decreases |items| - i
  {
    hide ItemStep, SeenOk, NoRepeat;
    assert given + [] == given;
    if i < |items| && i != MAX_ITEMS {
      var one := ItemStep(s, items[i]);
      ItemStepOnce(s, items[i], given);
      ItemStepsOnce(one.s, items, i + 1, given + one.given);
      var rest := ItemSteps(one.s, items, i + 1).given;
      assert given + (one.given + rest) == given + one.given + rest;
    }
  }

  /** One event never repeats text that is out. */
  lemma {:induction false} FeedOnce(s: State, e: Event, given: seq<Given>)
    requires SeenOk(s, given) && NoRepeat(given)
    ensures
      var step := Feed(s, e);
      SeenOk(step.s, given + step.given) && NoRepeat(given + step.given)
  {
    hide ItemSteps, ItemStep, Started, Completed, SeenOk, NoRepeat;
    match e
    case OutputTextDelta(id, index, delta) =>
      if delta == "" {
        OthersGoOut(s, given, [], s);
      } else {
        TextGoesOut(s, given, TextPiece(id, Clamped(index), TextDelta(delta, id, Clamped(index))));
      }
    case ItemDone(item) =>
      if item.FunctionCall? && item.arguments.Some? {
        WithItemHolds(s, item);
        CompletedIsNoText(WithArguments(WithItem(s, item), KeyOf(item), item.arguments.value), KeyOf(item));
        OthersGoOut(s, given, Feed(s, e).given, Feed(s, e).s);
      } else {
        ItemStepOnce(s, item, given);
      }
    case ResponseEnded(incomplete, output, usage) =>
      ItemStepsOnce(s, output, 0, given);
      OthersGoOut(ItemSteps(s, output, 0).s, given + Feed(s, e).given, [], Feed(s, e).s);
      assert given + Feed(s, e).given + [] == given + Feed(s, e).given;
    case ItemAdded(item) =>
      if item.FunctionCall? {
        WithItemHolds(s, item);
        CompletedIsNoText(WithItem(s, item), KeyOf(item));
      }
      OthersGoOut(s, given, Feed(s, e).given, Feed(s, e).s);
    case _ => OthersGoOut(s, given, [], Feed(s, e).s);
  }

  /** For every run of events: text sent as deltas, or sent whole once, is not sent whole again. */
  lemma {:induction false} TextIsNotRepeated(es: seq<Event>)
    ensures SeenOk(Run(es).s, Run(es).given) && NoRepeat(Run(es).given)
  {
    if es != [] {
      var before := Run(es[..|es| - 1]);
      TextIsNotRepeated(es[..|es| - 1]);
      hide Feed, SeenOk, NoRepeat;
      FeedOnce(before.s, es[|es| - 1], before.given);
    }
  }

  /** Once a message item is done, each of its texts is out. */
  lemma {:induction false} TextIsNotLost(s: State, id: string, parts: seq<Option<string>>, i: nat, k: nat)
    requires i <= k < |parts| && k < MAX_ITEMS && parts[k].Some?
    ensures (id, k) in PartTexts(s, id, parts, i).s.textSeen
    decreases |parts| - i
  {
    if i < k {
      TextIsNotLost(s, id, parts, i + 1, k);
      TextIsNotLost(s.(textSeen := s.textSeen + {(id, i)}), id, parts, i + 1, k);
    } else {
      SeenGrows(s, id, parts, k + 1, k);
      SeenGrows(s.(textSeen := s.textSeen + {(id, k)}), id, parts, k + 1, k);
    }
  }

  lemma {:induction false} SeenGrows(s: State, id: string, parts: seq<Option<string>>, i: nat, k: nat)
    requires i <= |parts|
    ensures (id, k) in s.textSeen ==> (id, k) in PartTexts(s, id, parts, i).s.textSeen
    decreases |parts| - i
  {
    if i < |parts| && i != MAX_ITEMS {
      SeenGrows(s, id, parts, i + 1, k);
      SeenGrows(s.(textSeen := s.textSeen + {(id, i)}), id, parts, i + 1, k);
    }
  }

  // ---- every text gets out ----------------------------------------------------

  /** The item holds a text for part `k` among its first 100 parts. */
  predicate HoldsText(item: Item, id: string, k: nat) {
    item.MessageItem? && item.id == id && k < |item.parts| && k < MAX_ITEMS && item.parts[k].Some?
  }

  predicate HoldsTextFrom(items: seq<Item>, i: nat, id: string, k: nat)
    requires i <= |items|
    decreases |items| - i
  {
    i < |items| && i != MAX_ITEMS && (HoldsText(items[i], id, k) || HoldsTextFrom(items, i + 1, id, k))
  }

  /** The event finishes a message item, or a response among whose first 100 items one is, with a text for part `k`. */
  predicate BringsText(e: Event, id: string, k: nat) {
    match e
    case ItemDone(item) => HoldsText(item, id, k)
    case ResponseEnded(_, output, _) => HoldsTextFrom(output, 0, id, k)
    case _ => false
  }

  lemma {:induction false} ItemStepSees(s: State, item: Item, id: string, k: nat)
    ensures (id, k) in s.textSeen || HoldsText(item, id, k) ==> (id, k) in ItemStep(s, item).s.textSeen
  {
    hide PartTexts;
    match item
    case MessageItem(itemId, parts) =>
      PartTextsKeepSeen(s, itemId, parts, 0, id, k);
      if HoldsText(item, id, k) { TextIsNotLost(s, id, parts, 0, k); }
    case FunctionCall(_, _, _, _) =>
      WithItemHolds(s, item);
      CompletedIsNoText(WithItem(s, item), KeyOf(item));
    case OtherItem =>
  }

  lemma {:induction false} PartTextsKeepSeen(s: State, itemId: string, parts: seq<Option<string>>, i: nat, id: string,
      k: nat)
    requires i <= |parts|
    ensures (id, k) in s.textSeen ==> (id, k) in PartTexts(s, itemId, parts, i).s.textSeen
    decreases |parts| - i
  {
    if i < |parts| && i != MAX_ITEMS {
      PartTextsKeepSeen(s, itemId, parts, i + 1, id, k);
      PartTextsKeepSeen(s.(textSeen := s.textSeen + {(itemId, i)}), itemId, parts, i + 1, id, k);
    }
  }

  lemma {:induction false} ItemStepsSee(s: State, items: seq<Item>, i: nat, id: string, k: nat)
    requires i <= |items|
    ensures (id, k) in s.textSeen || HoldsTextFrom(items, i, id, k) ==> (id, k) in ItemSteps(s, items, i).s.textSeen
    decreases |items| - i
  {
    hide ItemStep, HoldsText;
    if i < |items| && i != MAX_ITEMS {
      ItemStepSees(s, items[i], id, k);
      ItemStepsSee(ItemStep(s, items[i]).s, items, i + 1, id, k);
    }
  }

  lemma {:induction false} FeedSees(s: State, e: Event, id: string, k: nat)
    ensures (id, k) in s.textSeen || BringsText(e, id, k) ==> (id, k) in Feed(s, e).s.textSeen
  {
    hide ItemSteps, ItemStep, Started, Completed, HoldsText;
    match e
    case ItemAdded(item) =>
      if item.FunctionCall? {
        WithItemHolds(s, item);
        CompletedIsNoText(WithItem(s, item), KeyOf(item));
      }
    case ItemDone(item) =>
      ItemStepSees(s, item, id, k);
      if item.FunctionCall? && item.arguments.Some? {
        WithItemHolds(s, item);
        CompletedIsNoText(WithArguments(WithItem(s, item), KeyOf(item), item.arguments.value), KeyOf(item));
        CallHoldsNoText(item, id, k);
      }
    case ResponseEnded(_, output, _) => ItemStepsSee(s, output, 0, id, k);
    case _ =>
  }

  lemma {:induction false} CallHoldsNoText(item: Item, id: string, k: nat)
    requires !item.MessageItem?
    ensures !HoldsText(item, id, k)
  {}

  lemma {:induction false} RunSees(es: seq<Event>, i: nat, id: string, k: nat)
    requires i < |es| && BringsText(es[i], id, k)
    ensures (id, k) in Run(es).s.textSeen
  {
    hide Feed, BringsText;
    var init, last := es[..|es| - 1], es[|es| - 1];
    FeedSees(Run(init).s, last, id, k);
    if i < |init| { RunSees(init, i, id, k); }
  }

  /**
   And none is left out: in every stream, each text of a finished message item,
   among the first 100 parts and output items, has been given out, in pieces or whole.
   */
  lemma {:induction false} EveryTextIsOut(es: seq<Event>, i: nat, id: string, k: nat)
    requires i < |es| && BringsText(es[i], id, k)
    ensures Sent(Streamed(es).given, id, k)
  {
    RunSees(es, i, id, k);
    TextIsNotRepeated(es);
    hide Run, FinishStep, BringsText;
    var run := Run(es).given;
    assert Sent(run, id, k);
    var j :| 0 <= j < |run| && IsText(run[j], id, k);
    assert Streamed(es).given[j] == run[j];
  }

  // ---- fallback identifiers ---------------------------------------------------

  lemma {:induction false} FallbackEqual(m: nat, n: nat)
    ensures Fallback(m) == Fallback(n) <==> m == n
  {
    hide Decimal;
    assert Fallback(m) == "call_" + Decimal(m) && Fallback(n) == "call_" + Decimal(n);
    if Fallback(m) == Fallback(n) {
      assert Decimal(m) == Fallback(m)[5..] == Fallback(n)[5..] == Decimal(n);
      DecimalInjective(m, n);
    }
  }

  // ---- the finish event -----------------------------------------

  /** The finish event that the last finished response gives, if any. */
  function EndedBy(es: seq<Event>): Option<AgentEvent> {
    if es == [] then None
    else if es[|es| - 1].ResponseEnded? then
      var e := es[|es| - 1];
      Some(Finish(if e.incomplete then "length" else "stop", e.incomplete, e.usage, true))
    else EndedBy(es[..|es| - 1])
  }

  lemma {:induction false} PartTextsKeepEnd(s: State, id: string, parts: seq<Option<string>>, i: nat)
    requires i <= |parts|
    ensures PartTexts(s, id, parts, i).s.ended == s.ended
    decreases |parts| - i
  {
    if i < |parts| && i != MAX_ITEMS {
      PartTextsKeepEnd(s, id, parts, i + 1);
      PartTextsKeepEnd(s.(textSeen := s.textSeen + {(id, i)}), id, parts, i + 1);
    }
  }

  lemma {:induction false} FeedKeepsEnd(s: State, e: Event)
    requires !e.ResponseEnded?
    ensures Feed(s, e).s.ended == s.ended
  {
    if e.ItemDone? && e.item.MessageItem? { PartTextsKeepEnd(s, e.item.id, e.item.parts, 0); }
    hide PartTexts, Fallback;
  }

  lemma {:induction false} RunEnds(es: seq<Event>)
    ensures Run(es).s.ended == EndedBy(es)
  {
    if es != [] {
      RunEnds(es[..|es| - 1]);
      hide ItemSteps, Feed;
      var before, last := Run(es[..|es| - 1]), es[|es| - 1];
      if last.ResponseEnded? {
        FeedEnds(before.s, last);
      } else {
        FeedKeepsEnd(before.s, last);
      }
    }
  }

  lemma {:induction false} FeedEnds(s: State, e: Event)
    requires e.ResponseEnded?
    ensures Feed(s, e).s.ended == Some(Finish(if e.incomplete then "length" else "stop", e.incomplete, e.usage, true))
  {
    hide ItemSteps;
  }

  /** A stream ends with a finish event: that of its last finished response, or a truncated end of stream. */
  lemma {:induction false} StreamEnds(es: seq<Event>)
    ensures
      var given := Streamed(es).given;
      given != [] && given[|given| - 1] == End(EndedBy(es).GetOr(Finish("eof", true, map[], false)))
  {
    RunEnds(es);
    hide CompleteFrom, Run, EndedBy;
  }
}
