/**
 The order in which a Responses stream gives out its events: within a message, within
 a finished response, and at the end - backend/app/integrations/agent_parsers.py.
 */
module ResponsesOrder {
  import opened Common
  import opened AgentTypes
  import opened ResponsesStream
  import opened ResponsesCalls

  // ---- within one event -------------------------------------------------------

  /** The texts of a message come in the order of its parts, one for a part. */
  lemma {:induction false} PartsInOrder(s: State, id: string, parts: seq<Option<string>>, i: nat)
    requires i <= |parts|
    ensures
      var given := PartTexts(s, id, parts, i).given;
      && (forall a :: 0 <= a < |given| ==>
            given[a].WholeText? && given[a].itemId == id && i <= given[a].index < |parts|)
      && (forall a, b :: 0 <= a < b < |given| ==> given[a].index < given[b].index)
    decreases |parts| - i
  {
    if i < |parts| && i != MAX_ITEMS {
      PartsInOrder(s, id, parts, i + 1);
      PartsInOrder(s.(textSeen := s.textSeen + {(id, i)}), id, parts, i + 1);
      hide PartTexts;
      PartTextsStep(s, id, parts, i);
    }
  }

  lemma {:induction false} StepsFrom(s: State, a: seq<Item>, b: seq<Item>, i: nat)
    requires |a| <= i <= |a| + |b| <= 100
    ensures ItemSteps(s, a + b, i) == ItemSteps(s, b, i - |a|)
    decreases |a| + |b| - i
  {
    hide ItemStep;
    if i < |a| + |b| {
      assert (a + b)[i] == b[i - |a|];
      StepsFrom(ItemStep(s, b[i - |a|]).s, a, b, i + 1);
    }
  }

  /** The items of a finished response give their events one item after the other. */
  lemma {:induction false} OutputInOrder(s: State, a: seq<Item>, b: seq<Item>, i: nat)
    requires |a| + |b| <= 100 && i <= |a|
    ensures
      var first := ItemSteps(s, a, i);
      var second := ItemSteps(first.s, b, 0);
      ItemSteps(s, a + b, i) == Step(second.s, first.given + second.given)
    decreases |a| - i
  {
    hide ItemStep;
    if i == |a| {
      StepsFrom(s, a, b, i);
      assert [] + ItemSteps(s, b, 0).given == ItemSteps(s, b, 0).given;
    } else {
      assert (a + b)[i] == a[i];
      var one := ItemStep(s, a[i]);
      OutputInOrder(one.s, a, b, i + 1);
      var first := ItemSteps(one.s, a, i + 1);
      var second := ItemSteps(first.s, b, 0);
      assert one.given + (first.given + second.given) == one.given + first.given + second.given;
    }
  }

  // ---- the end of a stream ----------------------------------------------------

  /** What `finish` gives for a call of which this much is known. */
  function FinishOne(t: Track, key: string): seq<Given> {
    if t.sent.Some? || t.name == "" then []
    else [Complete(key, ToolCallComplete(t.Id(), t.name, if t.arguments != "" then t.arguments else "{}"))]
  }

  function FinishAll(keys: seq<string>, ms: seq<Mention>): seq<Given> {
    if keys == [] then [] else FinishOne(TrackOf(ms, keys[0]), keys[0]) + FinishAll(keys[1..], ms)
  }

  ghost predicate AreDistinct(keys: seq<string>) {
    forall i, j :: 0 <= i < j < |keys| ==> keys[i] != keys[j]
  }

  lemma {:induction false} KeysDistinct(ms: seq<Mention>)
    ensures AreDistinct(Keys(ms))
  {
    if ms != [] { KeysDistinct(ms[..|ms| - 1]); }
  }

  /** The parser's call of `key` is the one its mentions describe. */
  ghost predicate CallIs(s: State, key: string, t: Track) {
    && key in s.calls && s.calls[key] == Call(t.Id(), t.name, t.arguments, t.start.Some?, t.sent.Some?)
    && (t.start.Some? <==> t.name != "")
  }

  lemma {:induction false} FinishesOne(s: State, key: string, t: Track)
    requires CallIs(s, key, t)
    ensures Completed(s, key).given == FinishOne(t, key)
    ensures forall other :: other != key && other in s.calls ==>
              other in Completed(s, key).s.calls && Completed(s, key).s.calls[other] == s.calls[other]
    ensures Completed(s, key).s.order == s.order
  {
    CompletedKeepsRest(s, key);
    hide Fallback;
  }

  lemma {:induction false} FinishInOrder(s: State, i: nat, ms: seq<Mention>)
    requires i <= |s.order| && AreDistinct(s.order)
    requires forall k :: i <= k < |s.order| ==> CallIs(s, s.order[k], TrackOf(ms, s.order[k]))
    ensures CompleteFrom(s, i).given == FinishAll(s.order[i..], ms)
    decreases |s.order| - i
  {
    if i < |s.order| {
      var key := s.order[i];
      var one := Completed(s, key);
      assert CallIs(s, s.order[i], TrackOf(ms, s.order[i]));
      FinishesOne(s, key, TrackOf(ms, key));
      assert s.order[i..][1..] == s.order[i + 1..];
      forall k | i < k < |s.order|
        ensures CallIs(one.s, s.order[k], TrackOf(ms, s.order[k]))
      {
        assert CallIs(s, s.order[k], TrackOf(ms, s.order[k]));
      }
      hide Completed, FinishOne, TrackOf, CallIs;
      FinishInOrder(one.s, i + 1, ms);
    } else {
      assert s.order[i..] == [];
    }
  }

  lemma {:induction false} CallIsFollowed(s: State, key: string, life: seq<Given>, ms: seq<Mention>)
    requires ResponsesCalls.Follows(s, key, life, ms)
    ensures s.order == Keys(ms) && (key in s.order ==> CallIs(s, key, TrackOf(ms, key)))
  {
    hide TrackOf, Keys;
  }

  /**
   The end of every stream: the calls that have a name and were not completed, in the order
   in which they were first mentioned, each as its mentions describe it, and then how the
   last finished response ended.
   */
  lemma {:induction false} EndIsExactly(es: seq<Event>)
    ensures Streamed(es).given ==
            Run(es).given + FinishAll(Keys(Mentions(es)), Mentions(es))
            + [End(EndedBy(es).GetOr(Finish("eof", true, map[], false)))]
  {
    var s, ms := Run(es).s, Mentions(es);
    hide Run, Mentions, Keys, FinishAll, TrackOf, EndedBy, CompleteFrom, CallIs, ResponsesCalls.Follows, Life;
    RunEnds(es);
    ResponsesCalls.RunFollows(es, "");
    CallIsFollowed(s, "", Life(Run(es).given, ""), ms);
    KeysDistinct(ms);
    forall k | 0 <= k < |s.order|
      ensures CallIs(s, s.order[k], TrackOf(ms, s.order[k]))
    {
      ResponsesCalls.RunFollows(es, s.order[k]);
      CallIsFollowed(s, s.order[k], Life(Run(es).given, s.order[k]), ms);
      assert s.order[k] in s.order;
    }
    FinishInOrder(s, 0, ms);
    assert s.order[0..] == s.order;
    var all := CompleteFrom(s, 0).given;
    var end := [End(s.ended.GetOr(Finish("eof", true, map[], false)))];
    assert Run(es).given + (all + end) == Run(es).given + all + end;
  }
}
