/**
 The bounded decision loop of the Agent: `AgentModelRound.run_loop` -
 backend/app/services/agent_model_round.py, with the search budget of
 backend/app/services/agent_search.py.

 What the model and the tools answer is a parameter: one `Round` per pass.
 */
module ModelRounds {
  import opened Common
  import opened Text
  import opened ChatPayload

  const MAX_TOOL_CALLS_PER_ROUND := 8

  datatype Ending = Ending(stopReason: string, truncated: bool, complete: bool)

  /** One answer of the model, the outputs its calls get, and the images they made. */
  datatype Round = Round(
    text: string, exchanges: seq<Exchange>, ending: Option<Ending>,
    /** Call identifiers of the search updates, in order. */
    searches: seq<string>,
    visuals: Option<Item>,
    /** The message already shows text or an image task. */
    shown: bool)

  datatype Outcome = Running | Returned | Failed

  datatype Progress = Progress(items: seq<Item>, used: nat, known: set<string>, outcome: Outcome)

  /** `TurnSearch.update` over the updates of one answer: a new call costs one unit of the budget. */
  function Searched(p: Progress, limit: nat, ids: seq<string>): Progress {
    if ids == [] then p
    else
      var before := Searched(p, limit, ids[..|ids| - 1]);
      var id := ids[|ids| - 1];
      if before.outcome != Running || id in before.known then before
      else if |before.known| >= limit || before.used >= limit then before.(outcome := Failed)
      else before.(used := before.used + 1, known := before.known + {id})
  }

  predicate IsComplete(r: Round) {
    r.ending.Some? && r.ending.value.complete && !r.ending.value.truncated &&
    r.ending.value.stopReason in {"stop", "tool_calls", "function_call"}
  }

  /** The items one round of tools appends. */
  function Appended(isSpace: char -> bool, r: Round): seq<Item> {
    (if Strip(isSpace, r.text) == "" then [] else [AssistantTextItem(r.text)])
    + (CallItemsOf(r.exchanges) + ResultItemsOf(r.exchanges))
    + (if r.visuals.Some? then [r.visuals.value] else [])
  }

  /** One pass of the loop. */
  function Pass(isSpace: char -> bool, p: Progress, limit: nat, r: Round): Progress {
    if p.outcome != Running then p
    else
      var toolsEnabled := p.used < limit;
      var q := Searched(p, limit, r.searches);
      if q.outcome == Failed then q
      else if !IsComplete(r) || |r.exchanges| > MAX_TOOL_CALLS_PER_ROUND then q.(outcome := Failed)
      else if r.exchanges == [] then
        q.(outcome := if Strip(isSpace, r.text) == "" && !r.shown then Failed else Returned)
      else if !toolsEnabled then q.(outcome := Returned)
      else if q.used >= limit then q.(outcome := Failed)
      else q.(used := q.used + 1, items := q.items + Appended(isSpace, r))
  }

  function Passes(isSpace: char -> bool, p: Progress, limit: nat, rounds: seq<Round>): Progress {
    if rounds == [] then p
    else Pass(isSpace, Passes(isSpace, p, limit, rounds[..|rounds| - 1]), limit, rounds[|rounds| - 1])
  }

  function Begin(items: seq<Item>): Progress { Progress(items, 0, {}, Running) }

  // ---- the loop ---------------------------------------------------------------

  class RunContext {
    const isSpace: char -> bool
    /** `max_tool_rounds`. */
    const limit: nat
    var items: seq<Item>
    var used: nat
    var known: set<string>

    ghost function Contents(outcome: Outcome): Progress
      reads this
    {
      Progress(items, used, known, outcome)
    }

    constructor (isSpace: char -> bool, limit: nat, items: seq<Item>)
      ensures this.isSpace == isSpace && this.limit == limit && Contents(Running) == Begin(items)
    {
      this.isSpace, this.limit, this.items := isSpace, limit, items;
      used, known := 0, {};
    }

    method Search(ids: seq<string>) returns (ok: bool)
      modifies this`used, this`known
      ensures Contents(if ok then Running else Failed) == Searched(old(Contents(Running)), limit, ids)
    {
      hide Searched;
      ghost var start := Contents(Running);
      ok := true;
      SearchedNothing(start, limit);
      for i := 0 to |ids|
        invariant items == old(items)
        invariant Contents(if ok then Running else Failed) == Searched(start, limit, ids[..i])
      {
        SearchedLast(start, limit, ids[..i], ids[i]);
        assert ids[..i + 1] == ids[..i] + [ids[i]];
        if ok && ids[i] !in known {
          if |known| >= limit || used >= limit {
            ok := false;
          } else {
            used := used + 1;
            known := known + {ids[i]};
          }
        }
      }
      assert ids[..|ids|] == ids;
    }

    /** `run_loop`; `Running` means that the model's next answer is still to come. */
    method RunLoop(rounds: seq<Round>) returns (outcome: Outcome)
      modifies this
      ensures Contents(outcome) == Passes(isSpace, old(Contents(Running)), limit, rounds)
    {
      hide Pass;
      ghost var start := Contents(Running);
      outcome := Running;
      var i := 0;
      while i < |rounds| && outcome == Running
        invariant i <= |rounds|
        invariant Contents(outcome) == Passes(isSpace, start, limit, rounds[..i])
        decreases |rounds| - i
      {
        assert rounds[..i + 1][..i] == rounds[..i] && rounds[..i + 1][i] == rounds[i];
        outcome := RunRound(rounds[i]);
        i := i + 1;
      }
      assert rounds[..|rounds|] == rounds;
      if i < |rounds| {
        Stopped(isSpace, start, limit, rounds, i);
      }
    }

    method RunRound(r: Round) returns (outcome: Outcome)
      modifies this
      ensures Contents(outcome) == Pass(isSpace, old(Contents(Running)), limit, r)
    {
      hide Searched, Strip;
      var toolsEnabled := used < limit;
      var within := Search(r.searches);
      SearchedOutcome(old(Contents(Running)), limit, r.searches);
      if !within {
        return Failed;
      }
      if !IsComplete(r) || |r.exchanges| > MAX_TOOL_CALLS_PER_ROUND {
        return Failed;
      }
      if r.exchanges == [] {
        return if Strip(isSpace, r.text) == "" && !r.shown then Failed else Returned;
      }
      if !toolsEnabled {
        return Returned;
      }
      if used >= limit {
        return Failed;
      }
      used := used + 1;
      AppendRound(r);
      outcome := Running;
    }

    method AppendRound(r: Round)
      modifies this`items
      ensures items == old(items) + Appended(isSpace, r)
    {
      hide Strip, CallItemsOf, ResultItemsOf;
      if Strip(isSpace, r.text) != "" {
        items := items + [AssistantTextItem(r.text)];
      }
      AppendCalls(r.exchanges);
      AppendResults(r.exchanges);
      if r.visuals.Some? {
        items := items + [r.visuals.value];
      }
    }

    method AppendCalls(exchanges: seq<Exchange>)
      modifies this`items
      ensures items == old(items) + CallItemsOf(exchanges)
    {
      assert CallItemsOf(exchanges)[..0] == [];
      for i := 0 to |exchanges|
        invariant items == old(items) + CallItemsOf(exchanges)[..i]
      {
        var call := exchanges[i].call;
        items := items + [ToolCallItem(call.id, call.name, call.arguments)];
      }
    }

    method AppendResults(exchanges: seq<Exchange>)
      modifies this`items
      ensures items == old(items) + ResultItemsOf(exchanges)
    {
      assert ResultItemsOf(exchanges)[..0] == [];
      for i := 0 to |exchanges|
        invariant items == old(items) + ResultItemsOf(exchanges)[..i]
      {
        items := items + [ToolResultItem(exchanges[i].call.id, exchanges[i].output)];
      }
    }
  }

  lemma {:induction false} SearchedNothing(p: Progress, limit: nat)
    ensures Searched(p, limit, []) == p
  {}

  lemma {:induction false} SearchedLast(p: Progress, limit: nat, ids: seq<string>, id: string)
    ensures Searched(p, limit, ids + [id]) == OneSearch(Searched(p, limit, ids), limit, id)
  {
    assert (ids + [id])[..|ids|] == ids;
  }

  lemma {:induction false} SearchedOutcome(p: Progress, limit: nat, ids: seq<string>)
    requires p.outcome == Running
    ensures Searched(p, limit, ids).outcome in {Running, Failed}
  {
    if ids != [] { SearchedOutcome(p, limit, ids[..|ids| - 1]); }
  }

  lemma {:induction false} Stopped(isSpace: char -> bool, p: Progress, limit: nat, rounds: seq<Round>, i: nat)
    requires i <= |rounds| && Passes(isSpace, p, limit, rounds[..i]).outcome != Running
    ensures Passes(isSpace, p, limit, rounds) == Passes(isSpace, p, limit, rounds[..i])
    decreases |rounds|
  {
    if i == |rounds| {
      assert rounds[..i] == rounds;
    } else {
      var init := rounds[..|rounds| - 1];
      assert init[..i] == rounds[..i];
      Stopped(isSpace, p, limit, init, i);
    }
  }

  // ---- the budget -------------------------------------------------------------

  function CallCount(items: seq<Item>): nat {
    if items == [] then 0
    else CallCount(items[..|items| - 1]) + if items[|items| - 1].ToolCallItem? then 1 else 0
  }

  lemma {:induction false} CallCountJoin(a: seq<Item>, b: seq<Item>)
    ensures CallCount(a + b) == CallCount(a) + CallCount(b)
  {
    if b == [] {
      assert a + b == a;
    } else {
      assert (a + b)[..|a + b| - 1] == a + b[..|b| - 1];
      CallCountJoin(a, b[..|b| - 1]);
    }
  }

  lemma {:induction false} CallCountBound(items: seq<Item>)
    ensures CallCount(items) <= |items|
    ensures (forall i :: 0 <= i < |items| ==> !items[i].ToolCallItem?) ==> CallCount(items) == 0
  {
    if items != [] { CallCountBound(items[..|items| - 1]); }
  }

  /** Images come back to the model as user items. */
  predicate RoundOk(r: Round) { r.visuals.Some? ==> r.visuals.value.UserItem? }

  predicate RoundsOk(rounds: seq<Round>) {
    forall i :: 0 <= i < |rounds| ==> RoundOk(rounds[i])
  }

  lemma {:induction false} AppendedCalls(isSpace: char -> bool, r: Round)
    requires RoundOk(r)
    ensures CallCount(Appended(isSpace, r)) <= |r.exchanges|
  {
    hide Strip;
    var text := if Strip(isSpace, r.text) == "" then [] else [AssistantTextItem(r.text)];
    var calls, results := CallItemsOf(r.exchanges), ResultItemsOf(r.exchanges);
    var images := if r.visuals.Some? then [r.visuals.value] else [];
    CallCountBound(text);
    CallCountBound(calls);
    CallCountBound(results);
    CallCountBound(images);
    hide CallItemsOf, ResultItemsOf, CallCount;
    CallCountJoin(calls, results);
    CallCountJoin(text, calls + results);
    CallCountJoin(text + (calls + results), images);
  }

  /** Searches only spend budget that is there. */
  lemma {:induction false} SearchedBudget(p: Progress, limit: nat, ids: seq<string>)
    requires p.used <= limit
    ensures p.used <= Searched(p, limit, ids).used <= limit
    ensures Searched(p, limit, ids).items == p.items
    ensures Searched(p, limit, ids).used - p.used == |Searched(p, limit, ids).known| - |p.known|
  {
    if ids != [] { SearchedBudget(p, limit, ids[..|ids| - 1]); }
  }

  lemma {:induction false} PassBudget(isSpace: char -> bool, p: Progress, limit: nat, r: Round)
    requires RoundOk(r) && p.used <= limit
    ensures
      var q := Pass(isSpace, p, limit, r);
      && p.used <= q.used <= limit
      && (q.outcome == Running ==> q.used > p.used)
      && CallCount(q.items) - CallCount(p.items) <= MAX_TOOL_CALLS_PER_ROUND * (q.used - p.used)
  {
    hide Searched, Appended, CallCount, IsComplete, Strip;
    SearchedBudget(p, limit, r.searches);
    AppendedCalls(isSpace, r);
    CallCountJoin(p.items, Appended(isSpace, r));
  }

  /**
   For any answers of the model: rounds and searches together never exceed the
   budget, at most eight calls per unit of budget are kept, and the loop is over
   after at most one answer more than the budget.
   */
  lemma {:induction false} BudgetKept(isSpace: char -> bool, items: seq<Item>, limit: nat, rounds: seq<Round>)
    requires RoundsOk(rounds)
    ensures
      var p := Passes(isSpace, Begin(items), limit, rounds);
      && p.used <= limit
      && CallCount(p.items) <= CallCount(items) + MAX_TOOL_CALLS_PER_ROUND * p.used
      && (p.outcome == Running ==> |rounds| <= p.used)
  {
    if rounds != [] {
      hide Pass, CallCount;
      BudgetKept(isSpace, items, limit, rounds[..|rounds| - 1]);
      var before := Passes(isSpace, Begin(items), limit, rounds[..|rounds| - 1]);
      assert RoundOk(rounds[|rounds| - 1]);
      PassBudget(isSpace, before, limit, rounds[|rounds| - 1]);
      StoppedPass(isSpace, before, limit, rounds[|rounds| - 1]);
    }
  }

  lemma {:induction false} StoppedPass(isSpace: char -> bool, p: Progress, limit: nat, r: Round)
    ensures p.outcome != Running ==> Pass(isSpace, p, limit, r) == p
  {}

  // ---- well-formed requests ---------------------------------------------------

  /** What the history of a conversation is made of. */
  predicate IsHistory(items: seq<Item>) {
    forall i :: 0 <= i < |items| ==> items[i].UserItem? || items[i].AssistantTextItem?
  }

  lemma {:induction false} HistorySound(b: Building, items: seq<Item>)
    requires Sound(b) && IsHistory(items)
    ensures Sound(BuildFrom(b, items))
  {
    if items != [] {
      var init, last := items[..|items| - 1], items[|items| - 1];
      HistorySound(b, init);
      SoundPlain(BuildFrom(b, init), last);
      BuildFromJoin(b, init, [last]);
      assert init + [last] == items;
    }
  }

  lemma {:induction false} AppendedSound(isSpace: char -> bool, b: Building, r: Round)
    requires RoundOk(r) && Sound(b) && r.exchanges != []
    ensures Sound(BuildFrom(b, Appended(isSpace, r)))
  {
    hide Strip, Sound, BuildFrom, CallItemsOf, ResultItemsOf;
    var text := if Strip(isSpace, r.text) == "" then [] else [AssistantTextItem(r.text)];
    var group := CallItemsOf(r.exchanges) + ResultItemsOf(r.exchanges);
    var images := if r.visuals.Some? then [r.visuals.value] else [];
    HistorySound(b, text);
    SoundRound(BuildFrom(b, text), r.exchanges);
    HistorySound(BuildFrom(BuildFrom(b, text), group), images);
    BuildFromJoin(b, text, group);
    BuildFromJoin(b, text + group, images);
  }

  lemma {:induction false} PassSound(isSpace: char -> bool, b: Building, p: Progress, limit: nat, r: Round)
    requires RoundOk(r) && p.used <= limit && Sound(BuildFrom(b, p.items))
    ensures Sound(BuildFrom(b, Pass(isSpace, p, limit, r).items))
  {
    hide Searched, Appended, IsComplete, Strip, Sound, BuildFrom;
    SearchedBudget(p, limit, r.searches);
    if r.exchanges != [] {
      AppendedSound(isSpace, BuildFrom(b, p.items), r);
      BuildFromJoin(b, p.items, Appended(isSpace, r));
    }
  }

  lemma {:induction false} PassesSound(isSpace: char -> bool, b: Building, items: seq<Item>, limit: nat,
      rounds: seq<Round>)
    requires RoundsOk(rounds) && Sound(BuildFrom(b, items))
    ensures Sound(BuildFrom(b, Passes(isSpace, Begin(items), limit, rounds).items))
  {
    if rounds != [] {
      var init := rounds[..|rounds| - 1];
      hide Sound, BuildFrom, Pass;
      PassesSound(isSpace, b, items, limit, init);
      BudgetKept(isSpace, items, limit, init);
      assert RoundOk(rounds[|rounds| - 1]);
      PassSound(isSpace, b, Passes(isSpace, Begin(items), limit, init), limit, rounds[|rounds| - 1]);
    }
  }

  /**
   Every request the loop can send is well formed: each assistant message with
   tool calls is followed at once by one tool message per call, in order.
   */
  lemma {:induction false} RequestsAreAnswered(
    isSpace: char -> bool, instructions: string, items: seq<Item>, limit: nat, rounds: seq<Round>)
    requires RoundsOk(rounds) && IsHistory(items)
    ensures Answered(Build(instructions, Passes(isSpace, Begin(items), limit, rounds).items))
  {
    var start := Building([SystemMessage(instructions)], Nothing);
    AnsweredOne(SystemMessage(instructions));
    assert Sound(start);
    hide Sound, BuildFrom, Answered;
    HistorySound(start, items);
    PassesSound(isSpace, start, items, limit, rounds);
    SoundFlushed(BuildFrom(start, Passes(isSpace, Begin(items), limit, rounds).items));
  }

  // ---- what may run -----------------------------------------------------------

  lemma {:induction false} ThirdPart(a: seq<Item>, b: seq<Item>, c: seq<Item>, d: seq<Item>, i: nat)
    ensures |a + (b + c) + d| == |a| + |b| + |c| + |d|
    ensures i < |b| ==> (a + (b + c) + d)[|a| + i] == b[i]
    ensures i < |c| ==> (a + (b + c) + d)[|a| + |b| + i] == c[i]
  {}

  lemma {:induction false} EndParts(a: seq<Item>, b: seq<Item>, c: seq<Item>, d: seq<Item>)
    ensures |a| == 1 ==> (a + (b + c) + d)[0] == a[0]
    ensures |d| == 1 ==> (a + (b + c) + d)[|a| + |b| + |c|] == d[0]
  {}

  /**
   The items of one round, place by place: its text if it has any, its calls as the model
   made them, then for each call, in order, the output it got, then its images.
   */
  lemma {:induction false} AppendedExactly(isSpace: char -> bool, r: Round, i: nat)
    ensures
      var items, n := Appended(isSpace, r), |r.exchanges|;
      var first := if Strip(isSpace, r.text) == "" then 0 else 1;
      && |items| == first + n + n + (if r.visuals.Some? then 1 else 0)
      && (first == 1 ==> items[0] == AssistantTextItem(r.text))
      && (r.visuals.Some? ==> items[|items| - 1] == r.visuals.value)
      && (i < n ==>
            && items[first + i]
               == ToolCallItem(r.exchanges[i].call.id, r.exchanges[i].call.name, r.exchanges[i].call.arguments)
            && items[first + n + i] == ToolResultItem(r.exchanges[i].call.id, r.exchanges[i].output))
  {
    hide Strip;
    var text := if Strip(isSpace, r.text) == "" then [] else [AssistantTextItem(r.text)];
    var images := if r.visuals.Some? then [r.visuals.value] else [];
    ThirdPart(text, CallItemsOf(r.exchanges), ResultItemsOf(r.exchanges), images, i);
    EndParts(text, CallItemsOf(r.exchanges), ResultItemsOf(r.exchanges), images);
  }

  /** What the tools of these answers append. */
  function AppendedAll(isSpace: char -> bool, rounds: seq<Round>): seq<Item> {
    if rounds == [] then [] else AppendedAll(isSpace, rounds[..|rounds| - 1]) + Appended(isSpace, rounds[|rounds| - 1])
  }

  /** The answer came to a legitimate end. */
  predicate Legitimate(r: Round) {
    && r.ending.Some? && r.ending.value.complete && !r.ending.value.truncated
    && (r.ending.value.stopReason == "stop" || r.ending.value.stopReason == "tool_calls"
        || r.ending.value.stopReason == "function_call")
  }

  /** Tools may run for this answer: it has a legitimate terminator and calls, no more than eight. */
  predicate MayRun(r: Round) { Legitimate(r) && 1 <= |r.exchanges| <= 8 }

  /** The searches of the answer that were not known before. */
  function NewSearches(p: Progress, ids: seq<string>): set<string> { Elements(ids) - p.known }

  predicate Affordable(p: Progress, limit: nat, count: nat) {
    count == 0 || (p.used + count <= limit && |p.known| + count <= limit)
  }

  /** No new search, or units of the budget left for all of them. */
  predicate SearchesFit(p: Progress, limit: nat, ids: seq<string>) { Affordable(p, limit, |NewSearches(p, ids)|) }

  /** One more search after those that were taken. */
  function OneSearch(before: Progress, limit: nat, id: string): Progress {
    if before.outcome != Running || id in before.known then before
    else if |before.known| >= limit || before.used >= limit then before.(outcome := Failed)
    else before.(used := before.used + 1, known := before.known + {id})
  }

  lemma {:induction false} FewerAreCheaper(p: Progress, limit: nat, few: nat, many: nat)
    requires few <= many && Affordable(p, limit, many)
    ensures Affordable(p, limit, few)
  {}

  lemma {:induction false} OneSearchExact(p: Progress, limit: nat, taken: set<string>, more: set<string>, id: string)
    requires p.outcome == Running && Affordable(p, limit, |taken|) && |p.known + taken| == |p.known| + |taken|
    requires if id in p.known + taken then more == taken
             else |more| == |taken| + 1 && p.known + more == p.known + taken + {id}
    ensures
      var after := OneSearch(p.(used := p.used + |taken|, known := p.known + taken), limit, id);
      && (after.outcome == Running <==> Affordable(p, limit, |more|))
      && (after.outcome == Running ==> after == p.(used := p.used + |more|, known := p.known + more))
  {}

  lemma {:induction false} KnownAgain(known: set<string>, ids: set<string>, id: string)
    requires id in known + (ids - known)
    ensures (ids + {id}) - known == ids - known
  {}

  lemma {:induction false} OneNew(known: set<string>, ids: set<string>, id: string)
    requires id !in known + (ids - known)
    ensures (ids + {id}) - known == (ids - known) + {id} && |(ids + {id}) - known| == |ids - known| + 1
    ensures known + ((ids + {id}) - known) == known + (ids - known) + {id}
  {
    assert (ids + {id}) - known == (ids - known) + {id};
  }

  lemma {:induction false} KnownSize(known: set<string>, ids: set<string>)
    ensures |known + (ids - known)| == |known| + |ids - known|
  {}

  lemma {:induction false} ElementsLast(ids: seq<string>, id: string)
    ensures Elements(ids + [id]) == Elements(ids) + {id}
  {}

  lemma {:induction false} NoSearches(p: Progress)
    ensures NewSearches(p, []) == {} && p.known + NewSearches(p, []) == p.known
  {
    assert Elements<string>([]) == {};
  }

  lemma {:induction false} NewSearchesLast(p: Progress, ids: seq<string>, id: string)
    ensures |p.known + NewSearches(p, ids)| == |p.known| + |NewSearches(p, ids)|
    ensures id in p.known + NewSearches(p, ids) ==> NewSearches(p, ids + [id]) == NewSearches(p, ids)
    ensures id !in p.known + NewSearches(p, ids) ==>
              && |NewSearches(p, ids + [id])| == |NewSearches(p, ids)| + 1
              && p.known + NewSearches(p, ids + [id]) == p.known + NewSearches(p, ids) + {id}
  {
    ElementsLast(ids, id);
    KnownSize(p.known, Elements(ids));
    hide Elements;
    if id in p.known + NewSearches(p, ids) {
      KnownAgain(p.known, Elements(ids), id);
    } else {
      OneNew(p.known, Elements(ids), id);
    }
  }

  /** With `taken` new searches so far: they fit and were paid for, or the loop has failed. */
  ghost predicate Paid(p: Progress, limit: nat, taken: set<string>, q: Progress) {
    && (q.outcome == Running <==> Affordable(p, limit, |taken|))
    && (q.outcome == Running ==> q == p.(used := p.used + |taken|, known := p.known + taken))
  }

  lemma {:induction false} PaidOneMore(p: Progress, limit: nat, taken: set<string>, more: set<string>, q: Progress,
      id: string)
    requires p.outcome == Running && Paid(p, limit, taken, q) && |p.known + taken| == |p.known| + |taken|
    requires if id in p.known + taken then more == taken
             else |more| == |taken| + 1 && p.known + more == p.known + taken + {id}
    ensures Paid(p, limit, more, OneSearch(q, limit, id))
  {
    hide Affordable, OneSearch;
    if q.outcome == Running {
      OneSearchExact(p, limit, taken, more, id);
    } else {
      if Affordable(p, limit, |more|) { FewerAreCheaper(p, limit, |taken|, |more|); }
      FailedStays(q, limit, id);
    }
  }

  lemma {:induction false} FailedStays(q: Progress, limit: nat, id: string)
    requires q.outcome != Running
    ensures OneSearch(q, limit, id) == q
  {}

  lemma {:induction false} PaidNothing(p: Progress, limit: nat)
    requires p.outcome == Running
    ensures Paid(p, limit, NewSearches(p, []), Searched(p, limit, []))
  {
    NoSearches(p);
    hide NewSearches;
  }

  lemma {:induction false} SearchesPaid(p: Progress, limit: nat, ids: seq<string>)
    requires p.outcome == Running
    ensures Paid(p, limit, NewSearches(p, ids), Searched(p, limit, ids))
  {
    hide Paid, NewSearches, Searched, OneSearch, Affordable;
    if ids == [] {
      PaidNothing(p, limit);
    } else {
      var init, last := ids[..|ids| - 1], ids[|ids| - 1];
      assert ids == init + [last];
      SearchesPaid(p, limit, init);
      SearchedLast(p, limit, init, last);
      NewSearchesLast(p, init, last);
      PaidOneMore(p, limit, NewSearches(p, init), NewSearches(p, ids), Searched(p, limit, init), last);
    }
  }

  /** The searches of an answer are taken exactly when they fit; each new one costs one unit, whatever their order. */
  lemma {:induction false} SearchesExact(p: Progress, limit: nat, ids: seq<string>)
    requires p.outcome == Running
    ensures Searched(p, limit, ids).outcome == Running <==> SearchesFit(p, limit, ids)
    ensures Searched(p, limit, ids).outcome == Running ==>
              Searched(p, limit, ids)
              == p.(used := p.used + |NewSearches(p, ids)|, known := p.known + NewSearches(p, ids))
  {
    hide NewSearches, Searched, Affordable;
    SearchesPaid(p, limit, ids);
  }

  /**
   The answer ends the turn well: within the search budget, legitimately terminated
   and within the call limit, with something to show, or with calls although no
   tools were offered.
   */
  predicate EndsWell(isSpace: char -> bool, p: Progress, limit: nat, r: Round) {
    && SearchesFit(p, limit, r.searches)
    && Legitimate(r) && |r.exchanges| <= 8
    && (if r.exchanges == [] then Strip(isSpace, r.text) != "" || r.shown else p.used >= limit)
  }

  lemma {:induction false} SearchedItems(p: Progress, limit: nat, ids: seq<string>)
    ensures Searched(p, limit, ids).items == p.items
    ensures p.outcome == Running ==> Searched(p, limit, ids).outcome in {Running, Failed}
    ensures Searched(p, limit, ids).used - p.used == |Searched(p, limit, ids).known| - |p.known|
    ensures Searched(p, limit, ids).used >= p.used
  {
    if ids != [] { SearchedItems(p, limit, ids[..|ids| - 1]); }
  }

  /** One pass either runs the tools of its answer, or leaves the items as they are and ends the loop. */
  lemma {:induction false} PassRuns(isSpace: char -> bool, p: Progress, limit: nat, r: Round)
    requires p.outcome == Running
    ensures
      var q := Pass(isSpace, p, limit, r);
      && (q.outcome == Running ==>
            MayRun(r) && q.items == p.items + Appended(isSpace, r) && q.used - |q.known| == p.used - |p.known| + 1)
      && (q.outcome != Running ==> q.items == p.items && q.used - |q.known| == p.used - |p.known|)
      && (q.outcome == Returned <==> EndsWell(isSpace, p, limit, r))
  {
    SearchedItems(p, limit, r.searches);
    SearchesExact(p, limit, r.searches);
    hide Searched, Strip, Appended, SearchesFit;
  }

  /** The tools of the first `n` answers ran, and no others; the budget went to them and to searches. */
  ghost predicate RanFirst(isSpace: char -> bool, items: seq<Item>, p: Progress, rounds: seq<Round>, n: nat) {
    && n <= |rounds| && (forall i :: 0 <= i < n ==> MayRun(rounds[i]))
    && p.items == items + AppendedAll(isSpace, rounds[..n]) && p.used == n + |p.known|
    && (p.outcome == Running <==> n == |rounds|)
  }

  lemma {:induction false} RanNone(isSpace: char -> bool, items: seq<Item>)
    ensures RanFirst(isSpace, items, Begin(items), [], 0)
  {
    assert items + [] == items;
  }

  lemma {:induction false} AppendedAllLast(isSpace: char -> bool, init: seq<Round>, r: Round)
    ensures AppendedAll(isSpace, init + [r]) == AppendedAll(isSpace, init) + Appended(isSpace, r)
  {
    assert (init + [r])[..|init|] == init;
  }

  lemma {:induction false} RanOneMore(isSpace: char -> bool, items: seq<Item>, p: Progress, q: Progress,
      init: seq<Round>, r: Round)
    requires RanFirst(isSpace, items, p, init, |init|) && MayRun(r) && q.outcome == Running
    requires q.items == p.items + Appended(isSpace, r) && q.used - |q.known| == p.used - |p.known| + 1
    ensures RanFirst(isSpace, items, q, init + [r], |init| + 1)
  {
    hide MayRun, Appended, AppendedAll;
    var rounds := init + [r];
    assert init[..|init|] == init && rounds[..|rounds|] == rounds;
    AppendedAllLast(isSpace, init, r);
    assert q.items == items + AppendedAll(isSpace, rounds);
  }

  lemma {:induction false} RanSame(isSpace: char -> bool, items: seq<Item>, p: Progress, q: Progress,
      init: seq<Round>, r: Round, n: nat)
    requires RanFirst(isSpace, items, p, init, n) && q.outcome != Running
    requires q.items == p.items && q.used - |q.known| == p.used - |p.known|
    ensures RanFirst(isSpace, items, q, init + [r], n)
  {
    var rounds := init + [r];
    assert init[..n] == rounds[..n];
    hide MayRun, Appended, AppendedAll;
  }

  /** If an answer came after the first `n`, the next one ended the turn, and ended it well exactly when it may. */
  ghost predicate EndedBy(isSpace: char -> bool, start: Progress, limit: nat, rounds: seq<Round>, n: nat) {
    n < |rounds| ==>
      var last := Passes(isSpace, start, limit, rounds[..n]);
      && last.outcome == Running
      && (Passes(isSpace, start, limit, rounds).outcome == Returned <==> EndsWell(isSpace, last, limit, rounds[n]))
  }

  lemma {:induction false} PassesLast(isSpace: char -> bool, p: Progress, limit: nat, init: seq<Round>, r: Round)
    ensures Passes(isSpace, p, limit, init + [r]) == Pass(isSpace, Passes(isSpace, p, limit, init), limit, r)
  {
    assert (init + [r])[..|init|] == init;
  }

  /** An answer after one that ran its tools: it runs its own, or it ends the turn. */
  lemma {:induction false} RanOn(isSpace: char -> bool, items: seq<Item>, limit: nat, init: seq<Round>, r: Round)
      returns (n: nat)
    requires
      var before := Passes(isSpace, Begin(items), limit, init);
      before.outcome == Running && RanFirst(isSpace, items, before, init, |init|)
    ensures RanFirst(isSpace, items, Passes(isSpace, Begin(items), limit, init + [r]), init + [r], n)
    ensures EndedBy(isSpace, Begin(items), limit, init + [r], n)
  {
    hide Passes, Pass, EndsWell, MayRun, Appended, RanFirst, AppendedAll;
    var rounds := init + [r];
    var before, after := Passes(isSpace, Begin(items), limit, init), Passes(isSpace, Begin(items), limit, rounds);
    PassesLast(isSpace, Begin(items), limit, init, r);
    PassRuns(isSpace, before, limit, r);
    assert rounds[..|init|] == init && rounds[|init|] == r;
    if after.outcome == Running {
      RanOneMore(isSpace, items, before, after, init, r);
      n := |init| + 1;
    } else {
      RanSame(isSpace, items, before, after, init, r, |init|);
      n := |init|;
    }
  }

  /** An answer after the end changes nothing. */
  lemma {:induction false} RanNoMore(isSpace: char -> bool, items: seq<Item>, limit: nat, init: seq<Round>, r: Round,
      n: nat)
    requires
      var before := Passes(isSpace, Begin(items), limit, init);
      before.outcome != Running && n < |init| && RanFirst(isSpace, items, before, init, n)
    requires EndedBy(isSpace, Begin(items), limit, init, n)
    ensures RanFirst(isSpace, items, Passes(isSpace, Begin(items), limit, init + [r]), init + [r], n)
    ensures EndedBy(isSpace, Begin(items), limit, init + [r], n)
  {
    hide Passes, Pass, EndsWell, MayRun, Appended, RanFirst, AppendedAll;
    var rounds := init + [r];
    var before := Passes(isSpace, Begin(items), limit, init);
    PassesLast(isSpace, Begin(items), limit, init, r);
    StoppedPass(isSpace, before, limit, r);
    RanSame(isSpace, items, before, before, init, r, n);
    assert rounds[..n] == init[..n] && rounds[n] == init[n];
  }

  /**
   Which tools run in a turn, whatever the model answers: those of the first `n`
   answers, each legitimately terminated and within the call limit, and no others.
   The answer after them, if it is there, ends the turn, and ends it well exactly
   when `EndsWell` says so. The budget spent is `n` and the number of searches.
   */
  lemma {:induction false} ToolsRunExactly(isSpace: char -> bool, items: seq<Item>, limit: nat, rounds: seq<Round>)
      returns (n: nat)
    ensures RanFirst(isSpace, items, Passes(isSpace, Begin(items), limit, rounds), rounds, n)
    ensures EndedBy(isSpace, Begin(items), limit, rounds, n)
  {
    if rounds == [] {
      n := 0;
      RanNone(isSpace, items);
    } else {
      hide Passes, RanFirst, EndedBy;
      var init, r := rounds[..|rounds| - 1], rounds[|rounds| - 1];
      assert init + [r] == rounds;
      n := ToolsRunExactly(isSpace, items, limit, init);
      var before := Passes(isSpace, Begin(items), limit, init);
      RanSize(isSpace, items, before, init, n);
      if before.outcome == Running {
        n := RanOn(isSpace, items, limit, init, r);
      } else {
        RanNoMore(isSpace, items, limit, init, r, n);
      }
    }
  }

  lemma {:induction false} RanSize(isSpace: char -> bool, items: seq<Item>, p: Progress, rounds: seq<Round>, n: nat)
    requires RanFirst(isSpace, items, p, rounds, n)
    ensures n <= |rounds| && (p.outcome == Running <==> n == |rounds|)
  {
    hide MayRun, AppendedAll;
  }
}
