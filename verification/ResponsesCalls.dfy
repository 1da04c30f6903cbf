/**
 What each tool call of a /v1/responses stream looks like from outside: its start
 and its completion as a function of the events that mention it, under any
 interleaving with others, and when two calls start under one identifier -
 backend/app/integrations/agent_parsers.py.
 */
module ResponsesCalls {
  import opened Common
  import opened Text
  import opened AgentTypes
  import opened ResponsesStream

  // ---- the mentions of calls in a list of events ------------------------------

  type CallItem = i: Item | i.FunctionCall? witness FunctionCall("", "", "", None)

  /**
   One mention of a call: an item, which may complete the call and may bring its
   full arguments; a piece of arguments; or full arguments.
   */
  datatype Mention =
    | ByItem(item: CallItem, full: Option<string>, completes: bool)
    | ByDelta(key: string, delta: string)
    | ByFull(key: string, arguments: string)

  /** The function calls among the first 100 output items, from position `i` on. */
  function OutputMentions(items: seq<Item>, i: nat): seq<Mention>
    requires i <= |items|
    decreases |items| - i
  {
    if i == |items| || i == MAX_ITEMS then []
    else (if items[i].FunctionCall? then [ByItem(items[i], None, true)] else []) + OutputMentions(items, i + 1)
  }

  function MentionsOf(e: Event): seq<Mention> {
    match e
    case ItemAdded(item) => if item.FunctionCall? then [ByItem(item, None, false)] else []
    case ItemDone(item) => if item.FunctionCall? then [ByItem(item, item.arguments, true)] else []
    case ArgumentsDelta(id, delta) => [ByDelta(id, delta)]
    case ArgumentsDone(id, arguments) => [ByFull(id, arguments)]
    case ResponseEnded(_, output, _) => OutputMentions(output, 0)
    case _ => []
  }

  function Mentions(es: seq<Event>): seq<Mention> {
    if es == [] then [] else Mentions(es[..|es| - 1]) + MentionsOf(es[|es| - 1])
  }

  /** The distinct keys of the items, in order of first appearance. */
  function Keys(ms: seq<Mention>): seq<string> {
    if ms == [] then []
    else
      var before, m := Keys(ms[..|ms| - 1]), ms[|ms| - 1];
      if m.ByItem? && KeyOf(m.item) !in before then before + [KeyOf(m.item)] else before
  }

  // ---- one call as its own mentions describe it -------------------------------

  datatype Begun = Begun(id: string, name: string)

  datatype Sent = Sent(id: string, name: string, arguments: string)

  /** What is known of one call: its fields so far, how it started, and what was completed. */
  datatype Track = Track(
    known: bool, callId: string, name: string, arguments: string, start: Option<Begun>, sent: Option<Sent>) {

    /** The identifier in use: the last one given, else the one it started under. */
    function Id(): string { Or(callId, if start.Some? then start.value.id else "") }

    /** `finish`: a call with a name is completed with what is known. */
    function Finished(): Track {
      if sent.Some? || name == "" then this else this.(sent := Some(Sent(Id(), name, Or(arguments, "{}"))))
    }

    /** The events the call has given out. */
    function Life(key: string): seq<Given> {
      (if start.None? then [] else [Start(key, ToolCallStarted(start.value.id, start.value.name))])
      + (if sent.None? then []
         else [Complete(key, ToolCallComplete(sent.value.id, sent.value.name, sent.value.arguments))])
    }
  }

  const UNKNOWN := Track(false, "", "", "", None, None)

  /** An item updates the fields; a first name starts the call, under its identifier or the `count`-th fallback. */
  function WithItemTrack(t: Track, m: Mention, count: nat): Track
    requires m.ByItem?
  {
    var callId, name := Or(m.item.callId, t.callId), Or(m.item.name, t.name);
    var start := if t.start.Some? || name == "" then t.start else Some(Begun(Or(callId, Fallback(count)), name));
    var u := Track(true, callId, name, m.full.GetOr(Or(m.item.arguments.GetOr(""), t.arguments)), start, t.sent);
    if m.completes then u.Finished() else u
  }

  /** What one mention does to the call of `key`, when `count` keys are known with it. */
  function Tracked(t: Track, m: Mention, key: string, count: nat): Track {
    match m
    case ByItem(item, _, _) => if KeyOf(item) == key then WithItemTrack(t, m, count) else t
    case ByDelta(k, delta) => if k == key && t.known then t.(arguments := t.arguments + delta) else t
    case ByFull(k, arguments) => if k == key && t.known then t.(arguments := arguments) else t
  }

  function TrackOf(ms: seq<Mention>, key: string): Track {
    if ms == [] then UNKNOWN else Tracked(TrackOf(ms[..|ms| - 1], key), ms[|ms| - 1], key, |Keys(ms)|)
  }

  // ---- the parser follows the track -------------------------------------------

  /** The parser's call, and the events it has given out, are the ones the track describes. */
  ghost predicate TrackOk(s: State, key: string, life: seq<Given>, t: Track) {
    && (key in s.calls <==> t.known)
    && (t.known ==> s.calls[key] == Call(t.Id(), t.name, t.arguments, t.start.Some?, t.sent.Some?))
    && (t.start.Some? <==> t.name != "") && (t.sent.Some? ==> t.start.Some?)
    && (!t.known ==> t == UNKNOWN)
    && (t.start.Some? ==> t.Id() != "")
    && life == t.Life(key)
  }

  /** The parser's step for one mention. */
  function Applied(s: State, m: Mention): Step {
    match m
    case ByItem(item, full, completes) =>
      if completes then Completed(FilledState(s, m), KeyOf(item)) else Started(FilledState(s, m), KeyOf(item))
    case ByDelta(key, delta) =>
      if key in s.calls then Step(WithArguments(s, key, s.calls[key].arguments + delta), []) else Step(s, [])
    case ByFull(key, arguments) =>
      if key in s.calls then Step(WithArguments(s, key, arguments), []) else Step(s, [])
  }

  lemma {:induction false} LifeTwice(life: seq<Given>, a: seq<Given>, b: seq<Given>, key: string)
    ensures life + Life(a + b, key) == life + Life(a, key) + Life(b, key)
  {
    LifeJoin(a, b, key);
    hide Life;
    assert life + (Life(a, key) + Life(b, key)) == life + Life(a, key) + Life(b, key);
  }

  lemma {:induction false} NoLife(key: string)
    ensures Life([], key) == []
  {}

  lemma {:induction false} FallbackGiven(n: int)
    ensures Fallback(n) != ""
  {}

  /** The call holds what it held, brought up to date by an item. */
  ghost predicate IsFilled(s: State, key: string, m: Mention, t: Track) {
    && m.ByItem? && key in s.calls
    && s.calls[key] ==
       Call(Or(m.item.callId, t.Id()), Or(m.item.name, t.name),
            m.full.GetOr(Or(m.item.arguments.GetOr(""), t.arguments)), t.start.Some?, t.sent.Some?)
  }

  function FilledState(s: State, m: Mention): (filled: State)
    requires m.ByItem?
    ensures KeyOf(m.item) in filled.calls
  {
    var known := WithItem(s, m.item);
    if m.full.None? then known else WithArguments(known, KeyOf(m.item), m.full.value)
  }

  lemma {:induction false} ItemFields(s: State, m: Mention, key: string, life: seq<Given>, t: Track)
    requires m.ByItem? && KeyOf(m.item) == key && TrackOk(s, key, life, t)
    ensures IsFilled(FilledState(s, m), key, m, t)
  {}

  lemma {:induction false} StartedTrack(s: State, key: string)
    requires key in s.calls
    ensures
      var c, step := s.calls[key], Started(s, key);
      var id := Or(c.callId, Fallback(|s.order|));
      && key in step.s.calls && step.s.order == s.order
      && step.s.calls[key] == (if c.started || c.name == "" then c else c.(started := true, callId := id))
      && Life(step.given, key) == if c.started || c.name == "" then [] else [Start(key, ToolCallStarted(id, c.name))]
  {
    hide Fallback, Life;
    NoLife(key);
    var c := s.calls[key];
    LifeOne(Start(key, ToolCallStarted(Or(c.callId, Fallback(|s.order|)), c.name)), key);
  }

  lemma {:induction false} StartedAgain(s: State, key: string)
    requires key in s.calls
    ensures key in Started(s, key).s.calls && Started(Started(s, key).s, key) == Step(Started(s, key).s, [])
  {
    hide Fallback;
  }

  /** Completing a call is starting it and then completing it as a started one. */
  lemma {:induction false} CompletedViaStarted(s: State, key: string)
    requires key in s.calls && (s.calls[key].done ==> s.calls[key].started)
    ensures key in Started(s, key).s.calls
    ensures
      var begun := Started(s, key);
      var step := Completed(begun.s, key);
      Completed(s, key) == Step(step.s, begun.given + step.given)
  {
    StartedAgain(s, key);
    StartedNamed(s, key);
    hide Fallback;
    var begun := Started(s, key);
    assert begun.given + [] == begun.given;
    var c := begun.s.calls[key];
    var completed := [Complete(key, ToolCallComplete(c.callId, c.name, Or(c.arguments, "{}")))];
    assert [] + completed == completed;
    if s.calls[key].done || c.name == "" {
      assert begun == Step(s, []);
    }
  }

  /** Steps on one key leave every other key alone. */
  lemma {:induction false} OtherKey(s: State, m: Mention, key: string)
    requires if m.ByItem? then KeyOf(m.item) != key else m.key != key
    ensures key in Applied(s, m).s.calls <==> key in s.calls
    ensures key in s.calls ==> Applied(s, m).s.calls[key] == s.calls[key]
    ensures Life(Applied(s, m).given, key) == []
  {
    hide Fallback, Life;
    NoLife(key);
    if m.ByItem? {
      var k := KeyOf(m.item);
      var filled := FilledState(s, m);
      var begun := Started(filled, k);
      var c := filled.calls[k];
      var start := Start(k, ToolCallStarted(Or(c.callId, Fallback(|filled.order|)), c.name));
      LifeOne(start, key);
      var d := begun.s.calls[k];
      var completed := Complete(k, ToolCallComplete(d.callId, d.name, Or(d.arguments, "{}")));
      LifeOne(completed, key);
      LifeJoin(begun.given, [completed], key);
    }
  }

  lemma {:induction false} AppliedOrder(s: State, m: Mention, ms: seq<Mention>)
    requires s.order == Keys(ms) && OrderOk(s)
    ensures Applied(s, m).s.order == Keys(ms + [m]) && OrderOk(Applied(s, m).s)
  {
    assert (ms + [m])[..|ms|] == ms;
    if m.ByItem? {
      var k := KeyOf(m.item);
      WithItemNames(s, m.item, k);
      WithItemHolds(s, m.item);
      var filled := FilledState(s, m);
      hide Fallback, Keys;
      StartedNames(filled, k, k);
      CompletedNames(filled, k, k);
    }
  }

  /** One mention takes the parser and the track from agreement to agreement. */
  lemma {:induction false} AppliedTrack(s: State, m: Mention, key: string, life: seq<Given>, t: Track, ms: seq<Mention>)
    requires TrackOk(s, key, life, t) && s.order == Keys(ms) && OrderOk(s)
    ensures TrackOk(Applied(s, m).s, key, life + Life(Applied(s, m).given, key), Tracked(t, m, key, |Keys(ms + [m])|))
  {
    AppliedOrder(s, m, ms);
    hide Life, Keys, Fallback, OrderOk;
    NoLife(key);
    assert life + [] == life;
    if (if m.ByItem? then KeyOf(m.item) != key else m.key != key) {
      OtherKey(s, m, key);
    } else if m.ByItem? {
      ItemTrack(s, m, key, life, t, |Keys(ms + [m])|);
    }
  }

  lemma {:induction false} ItemTrack(s: State, m: Mention, key: string, life: seq<Given>, t: Track, count: nat)
    requires TrackOk(s, key, life, t) && m.ByItem? && KeyOf(m.item) == key && count == |Applied(s, m).s.order|
    ensures TrackOk(Applied(s, m).s, key, life + Life(Applied(s, m).given, key), WithItemTrack(t, m, count))
  {
    var filled := FilledState(s, m);
    ItemFields(s, m, key, life, t);
    assert |filled.order| == count by {
      CompletedKeepsRest(filled, key);
      StartedTrack(filled, key);
    }
    TrackShape(s, key, life, t);
    hide FilledState, TrackOk, Started, Completed, WithItemTrack, Life, IsFilled, ShapeOk;
    if m.completes {
      CompletedItemTrack(filled, m, key, life, t, count);
    } else {
      BegunTrack(filled, m, key, life, t, count);
    }
  }

  /** What a track keeps whatever the parser's state. */
  ghost predicate ShapeOk(t: Track) {
    && (t.start.Some? <==> t.name != "") && (t.sent.Some? ==> t.start.Some?) && (!t.known ==> t == UNKNOWN)
    && (t.start.Some? ==> t.Id() != "")
  }

  lemma {:induction false} TrackShape(s: State, key: string, life: seq<Given>, t: Track)
    requires TrackOk(s, key, life, t)
    ensures ShapeOk(t) && life == t.Life(key)
  {}

  /** The start of a call whose fields an item has brought up to date. */
  lemma {:induction false} BegunTrack(filled: State, m: Mention, key: string, life: seq<Given>, t: Track, count: nat)
    requires m.ByItem? && IsFilled(filled, key, m, t) && count == |filled.order| && ShapeOk(t) && life == t.Life(key)
    ensures
      var step := Started(filled, key);
      TrackOk(step.s, key, life + Life(step.given, key), WithItemTrack(t, m.(completes := false), count))
  {
    StartedTrack(filled, key);
    FallbackGiven(count);
    hide Life, Fallback, Started;
    assert life + [] == life;
    if t.start.None? { assert t.sent.None? && life == []; }
  }

  lemma {:induction false} CompletedItemTrack(filled: State, m: Mention, key: string, life: seq<Given>, t: Track,
      count: nat)
    requires m.ByItem? && m.completes && IsFilled(filled, key, m, t) && count == |filled.order|
    requires ShapeOk(t) && life == t.Life(key)
    ensures
      var step := Completed(filled, key);
      TrackOk(step.s, key, life + Life(step.given, key), WithItemTrack(t, m, count))
  {
    FilledFlags(filled, key, m, t);
    CompletedViaStarted(filled, key);
    hide Life, Started, Completed, TrackOk, IsFilled, ShapeOk, WithItemTrack;
    var begun := WithItemTrack(t, m.(completes := false), count);
    var started := Started(filled, key);
    var middle := life + Life(started.given, key);
    BegunTrack(filled, m, key, life, t, count);
    FinishedTrack(started.s, key, key, middle, begun);
    LifeTwice(life, started.given, Completed(started.s, key).given, key);
    CompletesTrack(t, m, count);
  }

  lemma {:induction false} FilledFlags(filled: State, key: string, m: Mention, t: Track)
    requires IsFilled(filled, key, m, t) && ShapeOk(t)
    ensures key in filled.calls && (filled.calls[key].done ==> filled.calls[key].started)
    ensures key in Started(filled, key).s.calls
    ensures Started(filled, key).s.calls[key].name != "" ==> Started(filled, key).s.calls[key].started
  {
    StartedNamed(filled, key);
  }

  lemma {:induction false} CompletesTrack(t: Track, m: Mention, count: nat)
    requires m.ByItem? && m.completes
    ensures WithItemTrack(t, m, count) == WithItemTrack(t, m.(completes := false), count).Finished()
  {
    hide Fallback;
  }

  /** Completing call `k` completes its track and leaves the others alone. */
  lemma {:induction false} FinishedTrack(s: State, k: string, key: string, life: seq<Given>, t: Track)
    requires k in s.calls && TrackOk(s, key, life, t) && (s.calls[k].name != "" ==> s.calls[k].started)
    ensures
      var step := Completed(s, k);
      TrackOk(step.s, key, life + Life(step.given, key), if k == key then t.Finished() else t)
  {
    hide Life;
    NoLife(key);
    assert life + [] == life;
    if !s.calls[k].done && s.calls[k].name != "" {
      var c := s.calls[k];
      var completed := Complete(k, ToolCallComplete(c.callId, c.name, Or(c.arguments, "{}")));
      assert [] + [completed] == [completed];
      LifeOne(completed, key);
    }
  }

  // ---- over every run ---------------------------------------------------------

  /** The parser has followed the mentions: its dictionary order, its call of `key`, and that call's events. */
  ghost predicate Follows(s: State, key: string, life: seq<Given>, ms: seq<Mention>) {
    TrackOk(s, key, life, TrackOf(ms, key)) && s.order == Keys(ms) && OrderOk(s)
  }

  lemma {:induction false} AppliedFollows(s: State, m: Mention, key: string, life: seq<Given>, ms: seq<Mention>)
    requires Follows(s, key, life, ms)
    ensures Follows(Applied(s, m).s, key, life + Life(Applied(s, m).given, key), ms + [m])
  {
    AppliedTrack(s, m, key, life, TrackOf(ms, key), ms);
    AppliedOrder(s, m, ms);
    hide Applied, Life, Keys, Tracked, TrackOk, OrderOk;
    assert (ms + [m])[..|ms|] == ms;
  }

  /** Texts do not touch the calls. */
  lemma {:induction false} TextFollows(s: State, id: string, parts: seq<Option<string>>, key: string, life: seq<Given>,
      ms: seq<Mention>)
    requires Follows(s, key, life, ms)
    ensures
      var step := PartTexts(s, id, parts, 0);
      Follows(step.s, key, life + Life(step.given, key), ms)
  {
    PartTextsLife(s, id, parts, 0, key);
    hide PartTexts, Life, Keys, TrackOf;
    assert life + [] == life;
  }

  lemma {:induction false} OutputFollows(s: State, items: seq<Item>, i: nat, key: string, life: seq<Given>,
      ms: seq<Mention>)
    requires i <= |items| && Follows(s, key, life, ms)
    ensures
      var step := ItemSteps(s, items, i);
      Follows(step.s, key, life + Life(step.given, key), ms + OutputMentions(items, i))
    decreases |items| - i
  {
    hide Follows, Life, ItemStep;
    NoLife(key);
    assert life + [] == life && ms + [] == ms;
    if i < |items| && i != MAX_ITEMS {
      var one := ItemStep(s, items[i]);
      var added := if items[i].FunctionCall? then [ByItem(items[i], None, true)] else [];
      OutputItemFollows(s, items[i], key, life, ms);
      OutputFollows(one.s, items, i + 1, key, life + Life(one.given, key), ms + added);
      LifeTwice(life, one.given, ItemSteps(one.s, items, i + 1).given, key);
      assert ms + (added + OutputMentions(items, i + 1)) == ms + added + OutputMentions(items, i + 1);
    }
  }

  lemma {:induction false} OutputItemFollows(s: State, item: Item, key: string, life: seq<Given>, ms: seq<Mention>)
    requires Follows(s, key, life, ms)
    ensures
      var step := ItemStep(s, item);
      Follows(step.s, key, life + Life(step.given, key),
              ms + if item.FunctionCall? then [ByItem(item, None, true)] else [])
  {
    hide Follows, Life, PartTexts, Completed, WithItem;
    NoLife(key);
    assert life + [] == life && ms + [] == ms;
    match item
    case MessageItem(id, parts) => TextFollows(s, id, parts, key, life, ms);
    case FunctionCall(_, _, _, _) => AppliedFollows(s, ByItem(item, None, true), key, life, ms);
    case OtherItem =>
  }

  lemma {:induction false} DoneFollows(s: State, item: Item, key: string, life: seq<Given>, ms: seq<Mention>)
    requires Follows(s, key, life, ms)
    ensures
      var step := DoneStep(s, item);
      Follows(step.s, key, life + Life(step.given, key), ms + MentionsOf(ItemDone(item)))
  {
    hide Follows, Life, PartTexts, Completed, WithItem, WithArguments;
    NoLife(key);
    assert life + [] == life && ms + [] == ms;
    if item.FunctionCall? {
      AppliedFollows(s, ByItem(item, item.arguments, true), key, life, ms);
    } else {
      OutputItemFollows(s, item, key, life, ms);
    }
  }

  lemma {:induction false} EndedFollows(s: State, ended: Option<AgentEvent>, seen: set<(string, nat)>, key: string,
                                        life: seq<Given>, ms: seq<Mention>)
    requires Follows(s, key, life, ms)
    ensures Follows(s.(ended := ended, textSeen := seen), key, life, ms)
  {
    hide Keys, TrackOf;
  }

  lemma {:induction false} DeltaFollows(s: State, e: Event, key: string, life: seq<Given>, ms: seq<Mention>)
    requires e.OutputTextDelta? && Follows(s, key, life, ms)
    ensures Follows(Feed(s, e).s, key, life + Life(Feed(s, e).given, key), ms)
  {
    hide Follows, Life;
    NoLife(key);
    LifeOne(TextPiece(e.itemId, Clamped(e.index), TextDelta(e.delta, e.itemId, Clamped(e.index))), key);
    assert life + [] == life;
    EndedFollows(s, s.ended, Feed(s, e).s.textSeen, key, life, ms);
  }

  lemma {:induction false} FeedFollows(s: State, e: Event, key: string, life: seq<Given>, ms: seq<Mention>)
    requires Follows(s, key, life, ms)
    ensures Follows(Feed(s, e).s, key, life + Life(Feed(s, e).given, key), ms + MentionsOf(e))
  {
    hide Follows, Life, ItemSteps, DoneStep, Started, WithItem, OutputMentions;
    NoLife(key);
    assert life + [] == life && ms + [] == ms;
    match e
    case OutputTextDelta(_, _, _) => DeltaFollows(s, e, key, life, ms);
    case ItemAdded(item) => if item.FunctionCall? { AppliedFollows(s, ByItem(item, None, false), key, life, ms); }
    case ArgumentsDelta(id, delta) => AppliedFollows(s, ByDelta(id, delta), key, life, ms);
    case ArgumentsDone(id, arguments) => AppliedFollows(s, ByFull(id, arguments), key, life, ms);
    case ItemDone(item) => DoneFollows(s, item, key, life, ms);
    case ResponseEnded(_, output, _) =>
      OutputFollows(s, output, 0, key, life, ms);
      var step := ItemSteps(s, output, 0);
      EndedFollows(step.s, Feed(s, e).s.ended, step.s.textSeen, key, life + Life(step.given, key), ms + MentionsOf(e));
    case _ =>
  }

  lemma {:induction false} RunFollows(es: seq<Event>, key: string)
    ensures Follows(Run(es).s, key, Life(Run(es).given, key), Mentions(es))
  {
    if es == [] {
      NoLife(key);
    } else {
      var init, last := es[..|es| - 1], es[|es| - 1];
      RunFollows(init, key);
      hide Follows, Life, Feed;
      FeedFollows(Run(init).s, last, key, Life(Run(init).given, key), Mentions(init));
      LifeJoin(Run(init).given, Feed(Run(init).s, last).given, key);
    }
  }

  ghost predicate NamesStarted(s: State) {
    forall k :: k in s.calls && s.calls[k].name != "" ==> s.calls[k].started
  }

  lemma {:induction false} RunNamesStarted(es: seq<Event>)
    ensures NamesStarted(Run(es).s)
  {
    forall k | k in Run(es).s.calls && Run(es).s.calls[k].name != ""
      ensures Run(es).s.calls[k].started
    {
      RunFollows(es, k);
    }
  }

  lemma {:induction false} CompletedNamesStarted(s: State, k: string)
    requires k in s.calls && NamesStarted(s)
    ensures NamesStarted(Completed(s, k).s)
  {
    hide Fallback;
  }

  lemma {:induction false} OrderSplit(order: seq<string>, i: nat, key: string)
    requires i < |order|
    ensures order[i] in order && (key in order[i..] <==> key == order[i] || key in order[i + 1..])
  {
    assert order[i..] == [order[i]] + order[i + 1..];
  }

  lemma {:induction false} FinishedTwice(t: Track)
    ensures t.Finished().Finished() == t.Finished()
  {}

  /** `finish` completes the track of every call in the dictionary. */
  lemma {:induction false} CompleteFromTrack(s: State, i: nat, key: string, life: seq<Given>, t: Track)
    requires i <= |s.order| && TrackOk(s, key, life, t) && NamesStarted(s) && OrderOk(s)
    ensures
      var step := CompleteFrom(s, i);
      TrackOk(step.s, key, life + Life(step.given, key), if key in s.order[i..] then t.Finished() else t)
    decreases |s.order| - i
  {
    NoLife(key);
    assert life + [] == life;
    if i < |s.order| {
      var k := s.order[i];
      OrderSplit(s.order, i, key);
      var one := Completed(s, k);
      CompletedKeepsRest(s, k);
      CompletedNamesStarted(s, k);
      CompletedNames(s, k, key);
      FinishedTrack(s, k, key, life, t);
      FinishedTwice(t);
      hide Completed, Life, TrackOk, OrderOk, NamesStarted;
      var middle := life + Life(one.given, key);
      CompleteFromTrack(one.s, i + 1, key, middle, if k == key then t.Finished() else t);
      LifeTwice(life, one.given, CompleteFrom(one.s, i + 1).given, key);
    }
  }

  lemma {:induction false} UnknownFinished(s: State, key: string, life: seq<Given>, ms: seq<Mention>)
    requires Follows(s, key, life, ms) && key !in s.order
    ensures TrackOf(ms, key).Finished() == TrackOf(ms, key)
  {
    hide TrackOf, Keys;
  }

  lemma {:induction false} FollowsParts(s: State, key: string, life: seq<Given>, ms: seq<Mention>)
    requires Follows(s, key, life, ms)
    ensures TrackOk(s, key, life, TrackOf(ms, key)) && OrderOk(s)
  {}

  lemma {:induction false} TrackLife(s: State, key: string, life: seq<Given>, t: Track)
    requires TrackOk(s, key, life, t)
    ensures life == t.Life(key)
  {}

  lemma {:induction false} StreamedLife(es: seq<Event>, key: string)
    ensures Life(Streamed(es).given, key) == Life(Run(es).given, key) + Life(CompleteFrom(Run(es).s, 0).given, key)
  {
    var run := Run(es);
    var all := CompleteFrom(run.s, 0);
    var end := End(run.s.ended.GetOr(Finish("eof", true, map[], false)));
    hide Life, CompleteFrom, Run;
    LifeJoin(all.given, [end], key);
    LifeJoin(run.given, all.given + [end], key);
    LifeOne(end, key);
    assert Life(all.given, key) + [] == Life(all.given, key);
  }

  /**
   Every call of every stream, from outside: what its mentions say by themselves,
   whatever other calls, texts and responses are interleaved, is exactly what is
   given out for it - the identifier and name it starts under, and the name and
   arguments it is completed with, by the first completing item or by `finish`.
   */
  lemma {:induction false} CallEvents(es: seq<Event>, key: string)
    ensures Life(Streamed(es).given, key) == TrackOf(Mentions(es), key).Finished().Life(key)
  {
    hide Life, CompleteFrom, TrackOf, Mentions, Keys, Run, Follows, TrackOk, OrderOk, NamesStarted, Streamed;
    var run, ms := Run(es), Mentions(es);
    var t := TrackOf(ms, key);
    var life := Life(run.given, key);
    RunFollows(es, key);
    RunNamesStarted(es);
    FollowsParts(run.s, key, life, ms);
    CompleteFromTrack(run.s, 0, key, life, t);
    assert run.s.order[0..] == run.s.order;
    if key !in run.s.order { UnknownFinished(run.s, key, life, ms); }
    var all := CompleteFrom(run.s, 0);
    TrackLife(all.s, key, life + Life(all.given, key), t.Finished());
    StreamedLife(es, key);
  }

  // ---- interleaving -----------------------------------------------------------

  predicate IsAbout(m: Mention, key: string) {
    if m.ByItem? then KeyOf(m.item) == key else m.key == key
  }

  /** The mentions of one call, without those of the others. */
  function Own(ms: seq<Mention>, key: string): seq<Mention> {
    if ms == [] then []
    else Own(ms[..|ms| - 1], key) + if IsAbout(ms[|ms| - 1], key) then [ms[|ms| - 1]] else []
  }

  /** The two tracks differ at most in fallback identifiers. */
  ghost predicate SameCall(t: Track, u: Track) {
    && t.known == u.known && t.callId == u.callId && t.name == u.name && t.arguments == u.arguments
    && t.start.Some? == u.start.Some? && (t.start.Some? ==> t.start.value.name == u.start.value.name)
    && t.sent.Some? == u.sent.Some?
    && (t.sent.Some? ==> t.sent.value.name == u.sent.value.name && t.sent.value.arguments == u.sent.value.arguments)
  }

  lemma {:induction false} TrackedAlike(t: Track, u: Track, m: Mention, key: string, count: nat, fewer: nat)
    requires SameCall(t, u)
    ensures SameCall(Tracked(t, m, key, count), Tracked(u, m, key, fewer))
    ensures !IsAbout(m, key) ==> Tracked(t, m, key, count) == t
  {
    hide Fallback;
  }

  /** Other calls, however interleaved, matter to a call for its fallback identifier only. */
  lemma {:induction false} InterleavingIsHarmless(ms: seq<Mention>, key: string)
    ensures SameCall(TrackOf(ms, key), TrackOf(Own(ms, key), key))
  {
    if ms != [] {
      var init, m := ms[..|ms| - 1], ms[|ms| - 1];
      InterleavingIsHarmless(init, key);
      assert Own(init, key) + [] == Own(init, key);
      TrackLast(init, m, key);
      TrackLast(Own(init, key), m, key);
      assert init + [m] == ms;
      hide Tracked, TrackOf, Keys, SameCall;
      TrackedAlike(TrackOf(init, key), TrackOf(Own(init, key), key), m, key, |Keys(ms)|, |Keys(Own(init, key) + [m])|);
      if !IsAbout(m, key) {
        TrackedOther(TrackOf(init, key), m, key, |Keys(ms)|);
      }
    }
  }

  lemma {:induction false} TrackedOther(t: Track, m: Mention, key: string, count: nat)
    requires !IsAbout(m, key)
    ensures Tracked(t, m, key, count) == t
  {}

  function DeltaMentions(key: string, deltas: seq<string>): seq<Mention> {
    seq(|deltas|, i requires 0 <= i < |deltas| => ByDelta(key, deltas[i]))
  }

  /** Argument deltas add their concatenation to a known call, however the arguments are cut up. */
  lemma {:induction false} DeltasAccumulate(ms: seq<Mention>, key: string, deltas: seq<string>)
    requires TrackOf(ms, key).known
    ensures
      var t := TrackOf(ms, key);
      TrackOf(ms + DeltaMentions(key, deltas), key) == t.(arguments := t.arguments + Concat(deltas))
  {
    var t := TrackOf(ms, key);
    if deltas == [] {
      assert ms + DeltaMentions(key, deltas) == ms && t.arguments + "" == t.arguments;
    } else {
      var init, last := deltas[..|deltas| - 1], deltas[|deltas| - 1];
      DeltasAccumulate(ms, key, init);
      assert ms + DeltaMentions(key, deltas) == ms + DeltaMentions(key, init) + [ByDelta(key, last)];
      ConcatLast(init, last);
      assert deltas == init + [last];
      TrackLast(ms + DeltaMentions(key, init), ByDelta(key, last), key);
      hide TrackOf, Concat, DeltaMentions, Keys;
      assert t.arguments + Concat(init) + last == t.arguments + (Concat(init) + last);
    }
  }

  lemma {:induction false} ConcatLast(pieces: seq<string>, last: string)
    ensures Concat(pieces + [last]) == Concat(pieces) + last
  {
    ConcatAppend(pieces, [last]);
    assert [last][1..] == [];
    assert Concat([last]) == last + "" == last;
  }

  // ---- which calls start under one identifier ---------------------------------

  /** The last identifier the items give for `key`, if any. */
  function IdGiven(ms: seq<Mention>, key: string): string {
    if ms == [] then ""
    else
      var m := ms[|ms| - 1];
      if m.ByItem? && KeyOf(m.item) == key then Or(m.item.callId, IdGiven(ms[..|ms| - 1], key))
      else IdGiven(ms[..|ms| - 1], key)
  }

  predicate NamesKey(m: Mention, key: string) {
    m.ByItem? && KeyOf(m.item) == key && m.item.name != ""
  }

  /** Position of the first mention that names `key`, |ms| when none does. */
  function NamingAt(ms: seq<Mention>, key: string): (i: nat)
    ensures i <= |ms| && (i < |ms| ==> NamesKey(ms[i], key))
  {
    if ms == [] then 0
    else
      var before := NamingAt(ms[..|ms| - 1], key);
      if before < |ms| - 1 || NamesKey(ms[|ms| - 1], key) then before else |ms|
  }

  /** The identifier given up to the first name. */
  function GivenAt(ms: seq<Mention>, key: string): string
    requires NamingAt(ms, key) < |ms|
  {
    IdGiven(ms[..NamingAt(ms, key) + 1], key)
  }

  /** The number of keys mentioned up to the first name. */
  function CountAt(ms: seq<Mention>, key: string): nat
    requires NamingAt(ms, key) < |ms|
  {
    |Keys(ms[..NamingAt(ms, key) + 1])|
  }

  /** The identifier given up to the first name, else the fallback for the number of keys mentioned by then. */
  function StartId(ms: seq<Mention>, key: string): string
    requires NamingAt(ms, key) < |ms|
  {
    Or(GivenAt(ms, key), Fallback(CountAt(ms, key)))
  }

  lemma {:induction false} StartIdLast(ms: seq<Mention>, m: Mention, key: string)
    requires NamingAt(ms + [m], key) <= |ms|
    ensures NamingAt(ms, key) < |ms| ==> StartId(ms + [m], key) == StartId(ms, key)
    ensures NamingAt(ms, key) == |ms| ==>
              StartId(ms + [m], key) == Or(IdGiven(ms + [m], key), Fallback(|Keys(ms + [m])|))
  {
    LastMention(ms, m, key);
    var all, i := ms + [m], NamingAt(ms, key);
    hide Fallback, Keys, IdGiven, NamingAt;
    assert i < |ms| ==> all[..i + 1] == ms[..i + 1];
    assert all[..|ms| + 1] == all;
  }

  /** A call starts with its first name, under the identifier that the mentions up to then determine. */
  lemma {:induction false} StartAt(ms: seq<Mention>, key: string)
    ensures
      var t, i := TrackOf(ms, key), NamingAt(ms, key);
      && t.callId == IdGiven(ms, key) && (t.name == "" <==> i == |ms|)
      && t.start == if i < |ms| then Some(Begun(StartId(ms, key), ms[i].item.name)) else None
  {
    if ms != [] {
      var init, m := ms[..|ms| - 1], ms[|ms| - 1];
      StartAt(init, key);
      TrackLast(init, m, key);
      TrackedStart(TrackOf(init, key), m, key, |Keys(ms)|);
      LastMention(init, m, key);
      assert init + [m] == ms;
      if NamingAt(ms, key) < |ms| { StartIdLast(init, m, key); }
      hide Fallback, Keys, IdGiven, TrackOf, NamingAt, Tracked, StartId;
    }
  }

  lemma {:induction false} TrackedStart(t: Track, m: Mention, key: string, count: nat)
    ensures
      var u, mine := Tracked(t, m, key, count), m.ByItem? && KeyOf(m.item) == key;
      && u.callId == (if mine then Or(m.item.callId, t.callId) else t.callId)
      && u.name == (if mine then Or(m.item.name, t.name) else t.name)
      && u.start == if t.start.Some? || !mine || u.name == "" then t.start
                    else Some(Begun(Or(u.callId, Fallback(count)), u.name))
  {
    hide Fallback;
  }

  lemma {:induction false} TrackLast(ms: seq<Mention>, m: Mention, key: string)
    ensures TrackOf(ms + [m], key) == Tracked(TrackOf(ms, key), m, key, |Keys(ms + [m])|)
  {
    assert (ms + [m])[..|ms|] == ms;
    hide Tracked, Keys;
  }

  /** What one more mention does to the identifier given and to the first name. */
  lemma {:induction false} LastMention(ms: seq<Mention>, m: Mention, key: string)
    ensures IdGiven(ms + [m], key) ==
            if m.ByItem? && KeyOf(m.item) == key then Or(m.item.callId, IdGiven(ms, key)) else IdGiven(ms, key)
    ensures NamingAt(ms + [m], key) ==
            if NamingAt(ms, key) < |ms| then NamingAt(ms, key) else if NamesKey(m, key) then |ms| else |ms| + 1
  {
    assert (ms + [m])[..|ms|] == ms;
  }

  /** Some item among the first `n` mentions has this key. */
  ghost predicate Appears(ms: seq<Mention>, n: nat, key: string)
    requires n <= |ms|
  {
    exists j :: 0 <= j < n && ms[j].ByItem? && KeyOf(ms[j].item) == key
  }

  /** No call is first mentioned from position `lo` up to `hi`. */
  ghost predicate NoNewCall(ms: seq<Mention>, lo: nat, hi: nat)
    requires lo <= hi <= |ms|
  {
    forall j :: lo <= j < hi && ms[j].ByItem? ==> Appears(ms, lo, KeyOf(ms[j].item))
  }

  lemma {:induction false} KeysAppear(ms: seq<Mention>, n: nat, key: string)
    requires n <= |ms|
    ensures key in Keys(ms[..n]) <==> Appears(ms, n, key)
  {
    if n > 0 {
      KeysAppear(ms, n - 1, key);
      assert ms[..n][..n - 1] == ms[..n - 1];
      if Appears(ms, n - 1, key) {
        var j :| 0 <= j < n - 1 && ms[j].ByItem? && KeyOf(ms[j].item) == key;
      }
    } else {
      assert ms[..0] == [];
    }
  }

  lemma {:induction false} KeysCount(ms: seq<Mention>, lo: nat, hi: nat)
    requires lo <= hi <= |ms|
    ensures Keys(ms[..lo]) <= Keys(ms[..hi])
    ensures |Keys(ms[..lo])| == |Keys(ms[..hi])| <==> NoNewCall(ms, lo, hi)
  {
    if lo < hi {
      KeysCount(ms, lo, hi - 1);
      var m := ms[hi - 1];
      assert ms[..hi][..hi - 1] == ms[..hi - 1];
      if m.ByItem? {
        KeysAppear(ms, lo, KeyOf(m.item));
        hide Appears;
        if NoNewCall(ms, lo, hi - 1) { assert Keys(ms[..lo]) == Keys(ms[..hi - 1]); }
      }
    }
  }

  /**
   The two calls start under one identifier: the model gave both the same, or it
   gave one of them what happens to be the fallback of the other, or it gave
   neither one and mentioned no new call between their first names.
   */
  ghost predicate SharedStart(ms: seq<Mention>, a: string, b: string)
    requires NamingAt(ms, a) < |ms| && NamingAt(ms, b) < |ms|
  {
    var i, j := NamingAt(ms, a) + 1, NamingAt(ms, b) + 1;
    var x, y := GivenAt(ms, a), GivenAt(ms, b);
    if x != "" && y != "" then x == y
    else if x != "" then x == Fallback(CountAt(ms, b))
    else if y != "" then y == Fallback(CountAt(ms, a))
    else NoNewCall(ms, Min(i, j), Max(i, j))
  }

  lemma {:induction false} SharedStartIds(ms: seq<Mention>, a: string, b: string)
    requires NamingAt(ms, a) < |ms| && NamingAt(ms, b) < |ms|
    ensures StartId(ms, a) == StartId(ms, b) <==> SharedStart(ms, a, b)
  {
    KeysEqual(ms, NamingAt(ms, a) + 1, NamingAt(ms, b) + 1);
    hide Fallback, Keys, IdGiven, NamingAt, NoNewCall, Min, Max, GivenAt, Or;
    EqualIds(GivenAt(ms, a), CountAt(ms, a), GivenAt(ms, b), CountAt(ms, b));
  }

  lemma {:induction false} KeysEqual(ms: seq<Mention>, i: nat, j: nat)
    requires i <= |ms| && j <= |ms|
    ensures |Keys(ms[..i])| == |Keys(ms[..j])| <==> NoNewCall(ms, Min(i, j), Max(i, j))
  {
    hide Keys, NoNewCall;
    if i <= j {
      KeysCount(ms, i, j);
    } else {
      KeysCount(ms, j, i);
    }
  }

  lemma {:induction false} EqualIds(x: string, m: nat, y: string, n: nat)
    ensures Or(x, Fallback(m)) == Or(y, Fallback(n)) <==>
            if x != "" && y != "" then x == y
            else if x != "" then x == Fallback(n)
            else if y != "" then y == Fallback(m)
            else m == n
  {
    FallbackEqual(m, n);
    hide Fallback;
  }

  /** A named call starts first, under the identifier its mentions determine. */
  lemma {:induction false} NamedCallStarts(es: seq<Event>, key: string)
    requires EverNamed(es, key)
    ensures NamingAt(Mentions(es), key) < |Mentions(es)|
    ensures
      var life := Life(Streamed(es).given, key);
      life != [] && life[0].Start? && life[0].event.ToolCallStarted? && life[0].event.id == StartId(Mentions(es), key)
  {
    NamedCallsComplete(es, key);
    CallEvents(es, key);
    StartAt(Mentions(es), key);
    hide Life, Streamed, TrackOf, Mentions, NamingAt, StartId, EverNamed;
  }

  /**
   For every stream: two calls with names start under one identifier exactly when
   their mentions in the event list say so.
   */
  lemma {:induction false} StartCollision(es: seq<Event>, a: string, b: string)
    requires EverNamed(es, a) && EverNamed(es, b)
    ensures NamingAt(Mentions(es), a) < |Mentions(es)| && NamingAt(Mentions(es), b) < |Mentions(es)|
    ensures
      var x, y := Life(Streamed(es).given, a), Life(Streamed(es).given, b);
      && x != [] && x[0].Start? && x[0].event.ToolCallStarted? && y != [] && y[0].Start? && y[0].event.ToolCallStarted?
      && (x[0].event.id == y[0].event.id <==> SharedStart(Mentions(es), a, b))
  {
    NamedCallStarts(es, a);
    NamedCallStarts(es, b);
    hide Life, Streamed, Mentions, NamingAt, StartId, SharedStart, EverNamed;
    SharedStartIds(Mentions(es), a, b);
  }

  lemma {:induction false} MentionsJoin(es: seq<Event>, e: Event)
    ensures Mentions(es + [e]) == Mentions(es) + MentionsOf(e)
  {
    assert (es + [e])[..|es|] == es;
  }

  /** Two calls announced before either has a name and never given an identifier share a fallback. */
  lemma {:induction false} FallbacksCollide(f: string, g: string)
    requires f != "" && g != ""
    ensures
      var es := [ItemAdded(FunctionCall("a", "", "", None)), ItemAdded(FunctionCall("b", "", f, None)),
                 ItemDone(FunctionCall("a", "", g, Some("{}")))];
      var x, y := Life(Streamed(es).given, "a"), Life(Streamed(es).given, "b");
      x != [] && y != [] && x[0].event.ToolCallStarted? && y[0].event.ToolCallStarted? && x[0].event.id == y[0].event.id
  {
    var e0 := ItemAdded(FunctionCall("a", "", "", None));
    var e1 := ItemAdded(FunctionCall("b", "", f, None));
    var e2 := ItemDone(FunctionCall("a", "", g, Some("{}")));
    var es := [e0, e1, e2];
    var m0 := ByItem(FunctionCall("a", "", "", None), None, false);
    var m1 := ByItem(FunctionCall("b", "", f, None), None, false);
    var m2 := ByItem(FunctionCall("a", "", g, Some("{}")), Some("{}"), true);
    assert NamedBy(es[1], "b") && NamedBy(es[2], "a");
    assert Mentions(es) == [m0, m1, m2] by {
      MentionsJoin([], e0);
      MentionsJoin([e0], e1);
      MentionsJoin([e0, e1], e2);
      assert [e0, e1] + [e2] == es && [e0] + [e1] == [e0, e1] && [] + [e0] == [e0];
    }
    var ms := [m0, m1, m2];
    hide Life, Streamed, Mentions, MentionsOf, NamedBy;
    StartCollision(es, "a", "b");
    ThreeMentions(m0, m1, m2);
  }

  lemma {:induction false} ThreeMentions(m0: Mention, m1: Mention, m2: Mention)
    requires m0.ByItem? && m1.ByItem? && m2.ByItem?
    requires KeyOf(m0.item) == KeyOf(m2.item) == "a" && KeyOf(m1.item) == "b"
    requires m0.item.callId == m1.item.callId == m2.item.callId == ""
    requires m0.item.name == "" && m1.item.name != "" && m2.item.name != ""
    ensures NamingAt([m0, m1, m2], "a") == 2 && NamingAt([m0, m1, m2], "b") == 1
    ensures SharedStart([m0, m1, m2], "a", "b")
  {
    var ms := [m0, m1, m2];
    forall key
      ensures NamingAt(ms, key) == if NamesKey(m0, key) then 0 else if NamesKey(m1, key) then 1
              else if NamesKey(m2, key) then 2 else 3
      ensures IdGiven(ms, key) == "" && IdGiven([m0, m1], key) == ""
    {
      NoMention(key);
      LastMention([], m0, key);
      LastMention([m0], m1, key);
      LastMention([m0, m1], m2, key);
      assert [] + [m0] == [m0] && [m0] + [m1] == [m0, m1] && [m0, m1] + [m2] == ms;
    }
    hide Keys, Fallback, IdGiven, NamingAt;
    assert ms[..2] == [m0, m1] && ms[..3] == ms;
    assert ms[0].ByItem? && KeyOf(ms[0].item) == "a";
    assert Appears(ms, 2, "a");
  }

  lemma {:induction false} NoMention(key: string)
    ensures NamingAt([], key) == 0 && IdGiven([], key) == ""
  {}

  /** An identifier the model gives can be the fallback of another call. */
  lemma {:induction false} GivenIdCollides(f: string, g: string)
    requires f != "" && g != ""
    ensures
      var es := [ItemAdded(FunctionCall("a", "call_2", f, None)), ItemAdded(FunctionCall("b", "", g, None))];
      var x, y := Life(Streamed(es).given, "a"), Life(Streamed(es).given, "b");
      x != [] && y != [] && x[0].event.ToolCallStarted? && y[0].event.ToolCallStarted? && x[0].event.id == y[0].event.id
  {
    var e0 := ItemAdded(FunctionCall("a", "call_2", f, None));
    var e1 := ItemAdded(FunctionCall("b", "", g, None));
    var es := [e0, e1];
    var m0 := ByItem(FunctionCall("a", "call_2", f, None), None, false);
    var m1 := ByItem(FunctionCall("b", "", g, None), None, false);
    assert NamedBy(es[0], "a") && NamedBy(es[1], "b");
    assert Mentions(es) == [m0, m1] by {
      MentionsJoin([], e0);
      MentionsJoin([e0], e1);
      assert [e0] + [e1] == es && [] + [e0] == [e0];
    }
    hide Life, Streamed, Mentions, MentionsOf, NamedBy;
    StartCollision(es, "a", "b");
    TwoMentions(m0, m1);
  }

  lemma {:induction false} TwoMentions(m0: Mention, m1: Mention)
    requires m0.ByItem? && m1.ByItem? && KeyOf(m0.item) == "a" && KeyOf(m1.item) == "b"
    requires m0.item.callId == "call_2" && m1.item.callId == "" && m0.item.name != "" && m1.item.name != ""
    ensures NamingAt([m0, m1], "a") == 0 && NamingAt([m0, m1], "b") == 1
    ensures SharedStart([m0, m1], "a", "b")
  {
    var ms := [m0, m1];
    forall key
      ensures NamingAt(ms, key) == if NamesKey(m0, key) then 0 else if NamesKey(m1, key) then 1 else 2
      ensures IdGiven([m0], key) == if key == "a" then "call_2" else ""
      ensures IdGiven(ms, "b") == ""
    {
      NoMention(key);
      NoMention("b");
      LastMention([], m0, key);
      LastMention([], m0, "b");
      LastMention([m0], m1, key);
      LastMention([m0], m1, "b");
      assert [] + [m0] == [m0] && [m0] + [m1] == ms;
    }
    hide IdGiven, NamingAt;
    assert ms[..1] == [m0] && ms[..2] == ms && [m0][..0] == [];
    assert Keys([m0]) == ["a"] && Keys(ms) == ["a", "b"];
    assert Fallback(2) == "call_2" by { assert Decimal(2) == "2"; }
  }
}
