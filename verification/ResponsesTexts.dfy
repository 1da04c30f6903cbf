/**
 The texts a Responses stream gives out, part by part, from the events alone -
 backend/app/integrations/agent_parsers.py.
 */
module ResponsesTexts {
  import opened Common
  import opened Text
  import opened AgentTypes
  import opened ResponsesStream

  /** A piece of a part's text, or the whole of it. */
  datatype Offer = Piece(text: string) | Whole(text: string)

  /** What an item of the output says about part `k` of message `id`. */
  function ItemOffers(item: Item, id: string, k: nat): seq<Offer> {
    if item.MessageItem? && item.id == id && k < |item.parts| && k < 100 && item.parts[k].Some? then
      [Whole(item.parts[k].value)]
    else []
  }

  function ItemsOffers(items: seq<Item>, i: nat, id: string, k: nat): seq<Offer>
    requires i <= |items|
    decreases |items| - i
  {
    if i == |items| || i >= 100 then [] else ItemOffers(items[i], id, k) + ItemsOffers(items, i + 1, id, k)
  }

  /** What an event says about it; an index out of range is read as 0. */
  function Offers(e: Event, id: string, k: nat): seq<Offer> {
    match e
    case OutputTextDelta(itemId, index, delta) =>
      if itemId == id && (if 0 <= index < 100 then index else 0) == k && delta != "" then [Piece(delta)] else []
    case ItemDone(item) => ItemOffers(item, id, k)
    case ResponseEnded(_, output, _) => ItemsOffers(output, 0, id, k)
    case _ => []
  }

  /** Pieces are always given out; the whole only when nothing of the part has been. */
  function Taken(log: seq<AgentEvent>, offers: seq<Offer>, id: string, k: nat): seq<AgentEvent> {
    if offers == [] then log
    else
      var before := Taken(log, offers[..|offers| - 1], id, k);
      var offer := offers[|offers| - 1];
      if offer.Piece? || before == [] then before + [TextDelta(offer.text, id, k)] else before
  }

  function LogOf(es: seq<Event>, id: string, k: nat): seq<AgentEvent> {
    if es == [] then [] else Taken(LogOf(es[..|es| - 1], id, k), Offers(es[|es| - 1], id, k), id, k)
  }

  /** The text events given out for the part. */
  function TextsFor(given: seq<Given>, id: string, k: nat): seq<AgentEvent> {
    if given == [] then []
    else
      var g := given[|given| - 1];
      TextsFor(given[..|given| - 1], id, k)
      + if (g.TextPiece? || g.WholeText?) && g.itemId == id && g.index == k then [g.event] else []
  }

  lemma {:induction false} TextsJoin(a: seq<Given>, b: seq<Given>, id: string, k: nat)
    ensures TextsFor(a + b, id, k) == TextsFor(a, id, k) + TextsFor(b, id, k)
  {
    if b == [] {
      assert a + b == a;
    } else {
      assert (a + b)[..|a + b| - 1] == a + b[..|b| - 1];
      TextsJoin(a, b[..|b| - 1], id, k);
    }
  }

  lemma {:induction false} TextsOne(g: Given, id: string, k: nat)
    ensures TextsFor([g], id, k) == if (g.TextPiece? || g.WholeText?) && g.itemId == id && g.index == k then [g.event]
            else []
  {
    assert [g][..0] == [];
  }

  lemma {:induction false} TakenJoin(log: seq<AgentEvent>, a: seq<Offer>, b: seq<Offer>, id: string, k: nat)
    ensures Taken(log, a + b, id, k) == Taken(Taken(log, a, id, k), b, id, k)
  {
    if b == [] {
      assert a + b == a;
    } else {
      assert (a + b)[..|a + b| - 1] == a + b[..|b| - 1];
      TakenJoin(log, a, b[..|b| - 1], id, k);
    }
  }

  lemma {:induction false} TakenOne(log: seq<AgentEvent>, offer: Offer, id: string, k: nat)
    ensures Taken(log, [offer], id, k) == if offer.Piece? || log == [] then log + [TextDelta(offer.text, id, k)]
            else log
  {
    assert [offer][..0] == [];
  }

  /** A step turns the log into the one with these offers, and `textSeen` tells whether it is empty. */
  ghost predicate Follows(before: State, log: seq<AgentEvent>, step: Step, offers: seq<Offer>, id: string, k: nat) {
    ((id, k) in before.textSeen <==> log != []) ==>
      && log + TextsFor(step.given, id, k) == Taken(log, offers, id, k)
      && ((id, k) in step.s.textSeen <==> Taken(log, offers, id, k) != [])
  }

  lemma {:induction false} Quiet(before: State, log: seq<AgentEvent>, step: Step, id: string, k: nat)
    requires TextsFor(step.given, id, k) == [] && step.s.textSeen == before.textSeen
    ensures Follows(before, log, step, [], id, k)
  {
    assert log + [] == log;
  }

  lemma {:induction false} Then(s: State, log: seq<AgentEvent>, one: Step, a: seq<Offer>, two: Step, b: seq<Offer>,
      id: string, k: nat)
    requires Follows(s, log, one, a, id, k)
    requires Follows(one.s, Taken(log, a, id, k), two, b, id, k)
    ensures Follows(s, log, Step(two.s, one.given + two.given), a + b, id, k)
  {
    TakenJoin(log, a, b, id, k);
    TextsJoin(one.given, two.given, id, k);
    hide TextsFor, Taken;
    var x, y := TextsFor(one.given, id, k), TextsFor(two.given, id, k);
    assert log + (x + y) == log + x + y;
  }

  /** What the parts from `i` on say about part `k`. */
  function PartOffers(parts: seq<Option<string>>, i: nat, k: nat): seq<Offer> {
    if i <= k < |parts| && k < 100 && parts[k].Some? then [Whole(parts[k].value)] else []
  }

  lemma {:induction false} PartsFollow(s: State, log: seq<AgentEvent>, itemId: string, parts: seq<Option<string>>,
      i: nat,
      id: string, k: nat)
    requires i <= |parts| && i <= 100
    ensures Follows(s, log, PartTexts(s, itemId, parts, i), if itemId == id then PartOffers(parts, i, k) else [], id, k)
    decreases |parts| - i
  {
    var step := PartTexts(s, itemId, parts, i);
    hide Taken, TextsFor;
    if i == |parts| || i == MAX_ITEMS {
      assert TextsFor([], id, k) == [] by { NoTexts(id, k); }
      Quiet(s, log, step, id, k);
    } else if (itemId, i) in s.textSeen || parts[i].None? {
      PartsFollow(s, log, itemId, parts, i + 1, id, k);
      if itemId == id && i == k && parts[i].Some? {
        SeenAlready(s, log, parts[k].value, PartTexts(s, itemId, parts, i + 1), id, k);
      }
    } else {
      var g := WholeText(itemId, i, TextDelta(parts[i].value, itemId, i));
      var one := Step(s.(textSeen := s.textSeen + {(itemId, i)}), [g]);
      var rest := PartTexts(one.s, itemId, parts, i + 1);
      var mine := if itemId == id && i == k then [Whole(parts[i].value)] else [];
      OneFollows(s, log, one, g, mine, id, k);
      PartsFollow(one.s, Taken(log, mine, id, k), itemId, parts, i + 1, id, k);
      Then(s, log, one, mine, rest, if itemId == id then PartOffers(parts, i + 1, k) else [], id, k);
      assert mine + [] == mine && [] + (if itemId == id then PartOffers(parts, i + 1, k) else [])
          == (if itemId == id then PartOffers(parts, i + 1, k) else []);
    }
  }

  lemma {:induction false} NoTexts(id: string, k: nat)
    ensures TextsFor([], id, k) == []
  {}

  /** A whole text of a part that was seen is passed over. */
  lemma {:induction false} SeenAlready(s: State, log: seq<AgentEvent>, text: string, step: Step, id: string, k: nat)
    requires (id, k) in s.textSeen && Follows(s, log, step, [], id, k)
    ensures Follows(s, log, step, [Whole(text)], id, k)
  {
    TakenOne(log, Whole(text), id, k);
    assert Taken(log, [], id, k) == log;
  }

  lemma {:induction false} OneFollows(s: State, log: seq<AgentEvent>, one: Step, g: Given, mine: seq<Offer>, id: string,
      k: nat)
    requires g.WholeText? && one.given == [g] && one.s.textSeen == s.textSeen + {(g.itemId, g.index)}
    requires g.event.TextDelta? && g.event == TextDelta(g.event.text, g.itemId, g.index)
    requires (g.itemId, g.index) !in s.textSeen
    requires mine == if g.itemId == id && g.index == k then [Whole(g.event.text)] else []
    ensures Follows(s, log, one, mine, id, k)
  {
    TextsOne(g, id, k);
    if mine == [] {
      assert log + [] == log;
    } else {
      TakenOne(log, mine[0], id, k);
    }
  }

  lemma {:induction false} CallGivesNoText(s: State, key: string, id: string, k: nat)
    requires key in s.calls
    ensures TextsFor(Started(s, key).given, id, k) == [] && Started(s, key).s.textSeen == s.textSeen
    ensures TextsFor(Completed(s, key).given, id, k) == [] && Completed(s, key).s.textSeen == s.textSeen
  {
    NoTexts(id, k);
    StartedIs(s, key);
    var begun := Started(s, key);
    hide TextsFor, Started;
    if begun.given != [] {
      TextsOne(begun.given[0], id, k);
      assert begun.given == [begun.given[0]];
    }
    var done := Completed(s, key);
    if done.given != [] {
      var last := done.given[|done.given| - 1];
      assert done.given == begun.given + [last];
      TextsOne(last, id, k);
      TextsJoin(begun.given, [last], id, k);
    }
  }

  lemma {:induction false} StartedIs(s: State, key: string)
    requires key in s.calls
    ensures |Started(s, key).given| <= 1 && Started(s, key).s.textSeen == s.textSeen && key in Started(s, key).s.calls
    ensures Started(s, key).given != [] ==> Started(s, key).given[0].Start?
  {
    hide Fallback;
  }

  lemma {:induction false} ItemFollows(s: State, log: seq<AgentEvent>, item: Item, id: string, k: nat)
    ensures Follows(s, log, ItemStep(s, item), ItemOffers(item, id, k), id, k)
    ensures Follows(s, log, DoneStep(s, item), ItemOffers(item, id, k), id, k)
  {
    hide TextsFor, Taken, Follows, PartTexts, Completed, Started;
    NoTexts(id, k);
    match item
    case MessageItem(itemId, parts) => PartsFollow(s, log, itemId, parts, 0, id, k);
    case FunctionCall(_, _, _, _) =>
      var with := WithItem(s, item);
      CallGivesNoText(with, KeyOf(item), id, k);
      Quiet(s, log, ItemStep(s, item), id, k);
      if item.arguments.Some? {
        CallGivesNoText(WithArguments(with, KeyOf(item), item.arguments.value), KeyOf(item), id, k);
        Quiet(s, log, DoneStep(s, item), id, k);
      }
    case OtherItem => Quiet(s, log, ItemStep(s, item), id, k);
  }

  lemma {:induction false} ItemsFollow(s: State, log: seq<AgentEvent>, items: seq<Item>, i: nat, id: string, k: nat)
    requires i <= |items| && i <= 100
    ensures Follows(s, log, ItemSteps(s, items, i), ItemsOffers(items, i, id, k), id, k)
    decreases |items| - i
  {
    hide TextsFor, Taken, Follows, ItemStep, ItemOffers;
    if i == |items| || i == MAX_ITEMS {
      NoTexts(id, k);
      Quiet(s, log, ItemSteps(s, items, i), id, k);
    } else {
      var one := ItemStep(s, items[i]);
      ItemFollows(s, log, items[i], id, k);
      ItemsFollow(one.s, Taken(log, ItemOffers(items[i], id, k), id, k), items, i + 1, id, k);
      Then(s, log, one, ItemOffers(items[i], id, k), ItemSteps(one.s, items, i + 1), ItemsOffers(items, i + 1, id, k),
          id, k);
    }
  }

  lemma {:induction false} FeedFollows(s: State, log: seq<AgentEvent>, e: Event, id: string, k: nat)
    ensures Follows(s, log, Feed(s, e), Offers(e, id, k), id, k)
  {
    hide ItemSteps, ItemsOffers, ItemOffers, DoneStep, Started, WithItem;
    NoTexts(id, k);
    match e
    case OutputTextDelta(itemId, index, delta) => DeltaFollows(s, log, itemId, index, delta, id, k);
    case ItemAdded(item) =>
      if item.FunctionCall? { AddedFollows(s, log, item, id, k); } else { Quiet(s, log, Feed(s, e), id, k); }
    case ItemDone(item) => ItemFollows(s, log, item, id, k);
    case ResponseEnded(_, output, _) => ItemsFollow(s, log, output, 0, id, k);
    case _ => Quiet(s, log, Feed(s, e), id, k);
  }

  lemma {:induction false} AddedFollows(s: State, log: seq<AgentEvent>, item: Item, id: string, k: nat)
    requires item.FunctionCall?
    ensures Follows(s, log, Feed(s, ItemAdded(item)), [], id, k)
  {
    CallGivesNoText(WithItem(s, item), KeyOf(item), id, k);
    hide Started, TextsFor;
    Quiet(s, log, Feed(s, ItemAdded(item)), id, k);
  }

  lemma {:induction false} DeltaFollows(s: State, log: seq<AgentEvent>, itemId: string, index: int, delta: string,
      id: string, k: nat)
    ensures Follows(s, log, Feed(s, OutputTextDelta(itemId, index, delta)),
            Offers(OutputTextDelta(itemId, index, delta), id, k),
                    id, k)
  {
    hide TextsFor, Taken;
    NoTexts(id, k);
    var step := Feed(s, OutputTextDelta(itemId, index, delta));
    if delta == "" {
      Quiet(s, log, step, id, k);
    } else {
      var i := Clamped(index);
      var g := TextPiece(itemId, i, TextDelta(delta, itemId, i));
      assert step == Step(s.(textSeen := s.textSeen + {(itemId, i)}), [g]);
      TextsOne(g, id, k);
      TakenOne(log, Piece(delta), id, k);
      NoneTaken(log, id, k);
      assert log + [] == log;
    }
  }

  lemma {:induction false} NoneTaken(log: seq<AgentEvent>, id: string, k: nat)
    ensures Taken(log, [], id, k) == log
  {}

  lemma {:induction false} RunFollows(es: seq<Event>, id: string, k: nat)
    ensures TextsFor(Run(es).given, id, k) == LogOf(es, id, k)
    ensures (id, k) in Run(es).s.textSeen <==> LogOf(es, id, k) != []
  {
    if es != [] {
      var init, last := es[..|es| - 1], es[|es| - 1];
      RunFollows(init, id, k);
      hide Feed, Offers, Taken;
      FeedFollows(Run(init).s, LogOf(init, id, k), last, id, k);
      TextsJoin(Run(init).given, Feed(Run(init).s, last).given, id, k);
      hide TextsFor;
    }
  }

  lemma {:induction false} FinishGivesNoText(s: State, i: nat, id: string, k: nat)
    requires i <= |s.order|
    ensures TextsFor(CompleteFrom(s, i).given, id, k) == []
    decreases |s.order| - i
  {
    NoTexts(id, k);
    if i < |s.order| {
      if s.order[i] !in s.calls {
        FinishGivesNoText(s, i + 1, id, k);
      } else {
        var one := Completed(s, s.order[i]);
        CompletedKeepsRest(s, s.order[i]);
        CallGivesNoText(s, s.order[i], id, k);
        hide Completed, TextsFor;
        FinishGivesNoText(one.s, i + 1, id, k);
        TextsJoin(one.given, CompleteFrom(one.s, i + 1).given, id, k);
      }
    }
  }

  /**
   The texts of every part in every stream, and at every moment of it: each piece as it
   came, and the whole text of a finished message only when nothing of the part was
   given out before; all of them under the item and the index of the part.
   */
  lemma {:induction false} PartTextsExact(es: seq<Event>, id: string, k: nat)
    ensures TextsFor(Run(es).given, id, k) == LogOf(es, id, k)
    ensures TextsFor(Streamed(es).given, id, k) == LogOf(es, id, k)
  {
    RunFollows(es, id, k);
    FinishGivesNoText(Run(es).s, 0, id, k);
    hide TextsFor, Run, CompleteFrom;
    var s := Run(es).s;
    var end := End(s.ended.GetOr(Finish("eof", true, map[], false)));
    TextsOne(end, id, k);
    TextsJoin(CompleteFrom(s, 0).given, [end], id, k);
    TextsJoin(Run(es).given, FinishStep(s).given, id, k);
  }
}
