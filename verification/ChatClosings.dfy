/**
 When a chat stream completes its tool calls, and when the completed list is that
 of the whole message - backend/app/integrations/agent_parsers.py.

 Each finishing chunk, and at last `finish`, closes the calls that have a name by
 then and were not closed before; a closed call takes no further pieces in.
 */
module ChatClosings {
  import opened Common
  import opened AgentTypes
  import opened ChatStream
  import opened ChatFragments

  /** The pieces up to the last finishing chunk. */
  function ClosedPieces(cs: seq<Chunk>): seq<Piece> {
    if cs == [] then []
    else if ReasonIn(cs[|cs| - 1]) != "" then AllPieces(cs)
    else ClosedPieces(cs[..|cs| - 1])
  }

  predicate IsClosed(cs: seq<Chunk>, k: int) { NameOf(ClosedPieces(cs), k) != "" }

  /** The pieces call `k` is completed from: those up to the chunk that closes it, all of them if none does. */
  function AtClosing(cs: seq<Chunk>, k: int): seq<Piece> {
    if cs == [] then []
    else if IsClosed(cs[..|cs| - 1], k) then AtClosing(cs[..|cs| - 1], k)
    else AllPieces(cs)
  }

  /** The indexes from `k` up to `n` that have a name now and had none at the last closing. */
  function Fresh(ps: seq<Piece>, closed: seq<Piece>, n: nat, k: nat): seq<nat>
    requires k <= n
    decreases n - k
  {
    if k == n then []
    else (if NameOf(ps, k) != "" && NameOf(closed, k) == "" then [k] else []) + Fresh(ps, closed, n, k + 1)
  }

  /** The indexes closed by the chunks, in the order of their completion. */
  function ClosingOrder(cs: seq<Chunk>, n: nat): seq<nat> {
    if cs == [] then []
    else
      var init := cs[..|cs| - 1];
      ClosingOrder(init, n)
      + if ReasonIn(cs[|cs| - 1]) != "" then Fresh(AllPieces(cs), ClosedPieces(init), n, 0) else []
  }

  /** The order of all completions: `finish` closes what is left. */
  function CompletionOrder(cs: seq<Chunk>, n: nat): seq<nat> {
    ClosingOrder(cs, n) + Fresh(AllPieces(cs), ClosedPieces(cs), n, 0)
  }

  /** One call as the pieces describe it. */
  function CallIn(ps: seq<Piece>, k: int): WholeCall {
    WholeCall(IdOf(ps, k), NameOf(ps, k), ArgumentsOf(ps, k))
  }

  function EntriesIn(ps: seq<Piece>, ks: seq<nat>): seq<AgentEvent> {
    if ks == [] then [] else Entry(ks[0], CallIn(ps, ks[0])) + EntriesIn(ps, ks[1..])
  }

  /** The entries of these calls, each as it was at its closing. */
  function EntriesAt(cs: seq<Chunk>, ks: seq<nat>): seq<AgentEvent> {
    if ks == [] then [] else Entry(ks[0], CallIn(AtClosing(cs, ks[0]), ks[0])) + EntriesAt(cs, ks[1..])
  }

  // ---- one more chunk ---------------------------------------------------------

  lemma {:induction false} ClosedLast(cs: seq<Chunk>, last: Chunk)
    ensures ClosedPieces(cs + [last]) == if ReasonIn(last) != "" then AllPieces(cs + [last]) else ClosedPieces(cs)
    ensures forall k :: AtClosing(cs + [last], k) ==
                        if IsClosed(cs, k) then AtClosing(cs, k) else AllPieces(cs + [last])
  {
    var all := cs + [last];
    assert all[..|all| - 1] == cs && all[|all| - 1] == last;
  }

  lemma {:induction false} OrderLast(cs: seq<Chunk>, last: Chunk, n: nat)
    ensures ClosingOrder(cs + [last], n) ==
            ClosingOrder(cs, n)
            + if ReasonIn(last) != "" then Fresh(AllPieces(cs + [last]), ClosedPieces(cs), n, 0) else []
  {
    var all := cs + [last];
    assert all[..|all| - 1] == cs && all[|all| - 1] == last;
    hide Fresh, ReasonIn;
  }

  /** The closed pieces are a beginning of all pieces. */
  lemma {:induction false} ClosedPrefix(cs: seq<Chunk>)
    ensures ClosedPieces(cs) <= AllPieces(cs)
  {
    if cs != [] {
      var init, last := cs[..|cs| - 1], cs[|cs| - 1];
      ClosedPrefix(init);
      AllPiecesLast(init, last);
      assert init + [last] == cs;
    }
  }

  lemma {:induction false} NameStays(a: seq<Piece>, b: seq<Piece>, k: int)
    requires a <= b && NameOf(a, k) != ""
    ensures NameOf(b, k) != ""
  {
    assert b == a + b[|a|..];
    FieldsJoin(a, b[|a|..], k);
    hide NameOf, IdOf, ArgumentsOf;
    SameAppend(NameOf(a, k), NameOf(b[|a|..], k));
  }

  lemma {:induction false} ClosedIsNamed(cs: seq<Chunk>, k: int)
    requires IsClosed(cs, k)
    ensures NameOf(AllPieces(cs), k) != ""
  {
    ClosedPrefix(cs);
    NameStays(ClosedPieces(cs), AllPieces(cs), k);
  }

  lemma {:induction false} ClosedStays(cs: seq<Chunk>, last: Chunk, k: int)
    requires IsClosed(cs, k)
    ensures IsClosed(cs + [last], k)
  {
    ClosedLast(cs, last);
    AllPiecesLast(cs, last);
    ClosedPrefix(cs);
    hide ClosedPieces, AllPieces, NameOf;
    if ReasonIn(last) != "" {
      assert ClosedPieces(cs) <= AllPieces(cs + [last]);
      NameStays(ClosedPieces(cs), AllPieces(cs + [last]), k);
    }
  }

  // ---- what the parser holds --------------------------------------------------

  /** Completing marks exactly the calls with names as done. */
  lemma {:induction false} EndedHeld(calls: map<int, Call>, ps: seq<Piece>, closed: iset<int>)
    requires AllHeld(calls, ps, closed)
    ensures AllHeld(EndedAll(calls), ps, NamedBy(ps))
  {
    hide Mentioned, Fallback;
    forall k: int
      ensures IsHeld(EndedAll(calls), ps, NamedBy(ps), k)
    {
      assert IsHeld(calls, ps, closed, k);
    }
  }

  /** In every state of a stream the parser holds each call as all pieces give it, done if closed. */
  lemma {:induction false} RunHeld(cs: seq<Chunk>)
    requires NoErrors(cs)
    ensures AllHeld(StateAfter(cs).calls, AllPieces(cs), NamedBy(ClosedPieces(cs)))
  {
    if cs == [] {
      assert forall k: int :: IsHeld(map[], [], NamedBy([]), k);
    } else {
      var init, last := cs[..|cs| - 1], cs[|cs| - 1];
      assert init + [last] == cs;
      RunHeld(init);
      hide AllHeld, FeedChoice, StateAfter, AllPieces, ClosedPieces, NamedBy, EventsOf;
      RunStep(init, last);
      AllPiecesLast(init, last);
      ClosedLast(init, last);
      ChunkHeld(StateAfter(init).calls, AllPieces(init), NamedBy(ClosedPieces(init)), last);
    }
  }

  lemma {:induction false} ChunkHeld(calls: map<int, Call>, ps: seq<Piece>, closed: iset<int>, c: Chunk)
    requires AllHeld(calls, ps, closed) && c.DataChunk?
    ensures
      var more := ps + PiecesIn(c);
      AllHeld(if c.choice.None? then calls else FeedChoice(calls, c.choice.value).calls, more,
              if ReasonIn(c) != "" then NamedBy(more) else closed)
  {
    hide AllHeld, FeedChoice, NamedBy;
    assert ps + [] == ps;
    if c.choice.Some? {
      var choice := c.choice.value;
      PiecesHeld(calls, ps, choice.pieces, closed);
      if choice.finishReason == "" {
        QuietChoice(calls, choice);
      } else {
        FinishingChoice(calls, choice);
        EndedHeld(AddPieces(calls, choice.pieces).calls, ps + choice.pieces, closed);
      }
    }
  }

  // ---- what one closing completes ---------------------------------------------

  /** The completion of one held call: its entry, unless it was closed before. */
  lemma {:induction false} EntryOfHeld(calls: map<int, Call>, ps: seq<Piece>, closed: seq<Piece>, k: nat)
    requires IsHeld(calls, ps, NamedBy(closed), k)
    ensures (if k in calls then Completion(k, calls[k]) else []) ==
            if NameOf(closed, k) != "" then [] else Entry(k, CallIn(ps, k))
  {
    if !Mentioned(ps, k) { Unmentioned(ps, k); }
    hide IdOf, NameOf, ArgumentsOf, Mentioned, Fallback;
    FallbackNotEmpty(k);
  }

  lemma {:induction false} FreshStep(ps: seq<Piece>, closed: seq<Piece>, n: nat, k: nat)
    requires k < n
    ensures EntriesIn(ps, Fresh(ps, closed, n, k)) ==
            (if NameOf(closed, k) != "" then [] else Entry(k, CallIn(ps, k))) +
                EntriesIn(ps, Fresh(ps, closed, n, k + 1))
  {
    hide NameOf, IdOf, ArgumentsOf, Fallback;
    var rest := Fresh(ps, closed, n, k + 1);
    assert ([k] + rest)[1..] == rest && [] + rest == rest;
    assert [] + EntriesIn(ps, rest) == EntriesIn(ps, rest);
  }

  /** Completing in sorted order gives the fresh entries in index order. */
  lemma {:induction false} SortedCompletions(
    calls: map<int, Call>, ps: seq<Piece>, closed: seq<Piece>, n: nat, keys: seq<int>, k: nat, s: set<int>)
    requires AllHeld(calls, ps, NamedBy(closed)) && k <= n && IsSorted(keys, s) && IsMentionedFrom(ps, n, k, s)
    ensures Completions(calls, keys) == EntriesIn(ps, Fresh(ps, closed, n, k))
    decreases n - k
  {
    assert IsHeld(calls, ps, NamedBy(closed), k);
    hide Completion, Entry, Mentioned, IsSorted, IsMentionedFrom, Completions, AllHeld, NameOf, Held, NamedBy;
    SortedEmpty(keys, s);
    if k == n {
      MentionedNone(ps, n, s);
      CompletionsNone(calls);
    } else {
      EntryOfHeld(calls, ps, closed, k);
      FreshStep(ps, closed, n, k);
      MentionedStep(ps, n, k, s);
      if Mentioned(ps, k) {
        LeastFirst(keys, s, k);
        SortedTail(keys, s);
        SortedCompletions(calls, ps, closed, n, keys[1..], k + 1, s - {k});
        CompletionsFirst(calls, keys);
      } else {
        assert s - {k} == s;
        SortedCompletions(calls, ps, closed, n, keys, k + 1, s);
        NothingBefore(EntriesIn(ps, Fresh(ps, closed, n, k + 1)));
      }
    }
  }

  lemma {:induction false} NothingBefore(events: seq<AgentEvent>)
    ensures [] + events == events
  {}

  /** Entries are completions and nothing else. */
  lemma {:induction false} EntriesAreCompletes(ps: seq<Piece>, ks: seq<nat>)
    ensures Completes(EntriesIn(ps, ks)) == EntriesIn(ps, ks)
  {
    EmptyRun();
    if ks != [] {
      var first := Entry(ks[0], CallIn(ps, ks[0]));
      EntriesAreCompletes(ps, ks[1..]);
      CompletesAppend(first, EntriesIn(ps, ks[1..]));
      EntryCompletes(ks[0], CallIn(ps, ks[0]));
      hide Completes, Entry, CallIn;
    }
  }

  lemma {:induction false} EntryCompletes(k: nat, call: WholeCall)
    ensures Completes(Entry(k, call)) == Entry(k, call)
  {
    EmptyRun();
    assert forall e: AgentEvent :: [e][1..] == [];
  }

  /** What one closing gives out: the completions of the calls it closes, and no start. */
  lemma {:induction false} ClosingGives(calls: map<int, Call>, ps: seq<Piece>, closed: seq<Piece>, n: nat)
    requires AllHeld(calls, ps, NamedBy(closed)) && Within(ps, n)
    ensures CompleteAll(calls).events == EntriesIn(ps, Fresh(ps, closed, n, 0))
  {
    hide Completions, Fresh, Mentioned, Held, Within, NamedBy;
    forall x: int
      ensures x in calls.Keys <==> 0 <= x < n && Mentioned(ps, x)
    {
      assert IsHeld(calls, ps, NamedBy(closed), x);
      if Mentioned(ps, x) { MentionedWithin(ps, n, x); }
    }
    SortedCompletions(calls, ps, closed, n, Sorted(calls.Keys), 0, calls.Keys);
  }

  lemma {:induction false} ClosingCompletes(calls: map<int, Call>, ps: seq<Piece>, closed: seq<Piece>, n: nat)
    requires AllHeld(calls, ps, NamedBy(closed)) && Within(ps, n)
    ensures Completes(CompleteAll(calls).events) == EntriesIn(ps, Fresh(ps, closed, n, 0))
  {
    hide AllHeld, NamedBy, Within, CompleteAll, EntriesIn, Fresh, Completes;
    ClosingGives(calls, ps, closed, n);
    EntriesAreCompletes(ps, Fresh(ps, closed, n, 0));
  }

  // ---- what a stream completes ------------------------------------------------

  lemma {:induction false} EntriesAtJoin(cs: seq<Chunk>, a: seq<nat>, b: seq<nat>)
    ensures EntriesAt(cs, a + b) == EntriesAt(cs, a) + EntriesAt(cs, b)
  {
    hide Entry, CallIn, AtClosing;
    if a == [] {
      assert a + b == b;
    } else {
      assert (a + b)[0] == a[0] && (a + b)[1..] == a[1..] + b;
      EntriesAtJoin(cs, a[1..], b);
    }
  }

  /** A closed call keeps the pieces it was closed with. */
  lemma {:induction false} EntriesAtStay(cs: seq<Chunk>, last: Chunk, ks: seq<nat>)
    requires forall i :: 0 <= i < |ks| ==> IsClosed(cs, ks[i])
    ensures EntriesAt(cs + [last], ks) == EntriesAt(cs, ks)
  {
    hide Entry, CallIn, AtClosing, IsClosed;
    if ks != [] {
      ClosedLast(cs, last);
      assert IsClosed(cs, ks[0]);
      assert forall i :: 0 <= i < |ks[1..]| ==> ks[1..][i] == ks[i + 1];
      EntriesAtStay(cs, last, ks[1..]);
    }
  }

  lemma {:induction false} EntriesNow(cs: seq<Chunk>, ks: seq<nat>)
    requires forall i :: 0 <= i < |ks| ==> AtClosing(cs, ks[i]) == AllPieces(cs)
    ensures EntriesAt(cs, ks) == EntriesIn(AllPieces(cs), ks)
  {
    hide Entry, CallIn, AtClosing, AllPieces;
    if ks != [] {
      assert forall i :: 0 <= i < |ks[1..]| ==> ks[1..][i] == ks[i + 1];
      EntriesNow(cs, ks[1..]);
    }
  }

  lemma {:induction false} FreshHas(ps: seq<Piece>, closed: seq<Piece>, n: nat, k: nat, x: int)
    requires k <= n
    ensures x in Fresh(ps, closed, n, k) <==> k <= x < n && NameOf(ps, x) != "" && NameOf(closed, x) == ""
    decreases n - k
  {
    hide NameOf;
    if k < n { FreshHas(ps, closed, n, k + 1, x); }
  }

  lemma {:induction false} IncreasingCons(k: int, rest: seq<int>)
    requires Increasing(rest) && forall x :: x in rest ==> k < x
    ensures Increasing([k] + rest)
  {
    assert forall i :: 0 <= i < |rest| ==> rest[i] in rest;
  }

  lemma {:induction false} FreshIncreases(ps: seq<Piece>, closed: seq<Piece>, n: nat, k: nat)
    requires k <= n
    ensures Increasing(Fresh(ps, closed, n, k))
    decreases n - k
  {
    hide NameOf;
    if k < n {
      FreshIncreases(ps, closed, n, k + 1);
      var rest := Fresh(ps, closed, n, k + 1);
      forall x | x in rest
        ensures k < x
      {
        FreshHas(ps, closed, n, k + 1, x);
      }
      IncreasingCons(k, rest);
      assert [] + rest == rest;
    }
  }

  /** The fresh indexes, in increasing order. */
  lemma {:induction false} FreshElements(ps: seq<Piece>, closed: seq<Piece>, n: nat, k: nat)
    requires k <= n
    ensures Increasing(Fresh(ps, closed, n, k))
    ensures forall x :: x in Fresh(ps, closed, n, k) <==> k <= x < n && NameOf(ps, x) != "" && NameOf(closed, x) == ""
  {
    FreshIncreases(ps, closed, n, k);
    hide Fresh, NameOf;
    forall x: int
      ensures x in Fresh(ps, closed, n, k) <==> k <= x < n && NameOf(ps, x) != "" && NameOf(closed, x) == ""
    {
      FreshHas(ps, closed, n, k, x);
    }
  }

  /** The indexes in the closing order are the closed ones. */
  lemma {:induction false} OrderElements(cs: seq<Chunk>, n: nat)
    ensures forall x :: x in ClosingOrder(cs, n) <==> 0 <= x < n && IsClosed(cs, x)
  {
    if cs != [] {
      var init, last := cs[..|cs| - 1], cs[|cs| - 1];
      assert init + [last] == cs;
      OrderElements(init, n);
      OrderLast(init, last, n);
      ClosedLast(init, last);
      FreshElements(AllPieces(cs), ClosedPieces(init), n, 0);
      hide ClosedPieces, AllPieces, NameOf, ReasonIn, ClosingOrder;
      forall x: int | IsClosed(init, x)
        ensures IsClosed(cs, x)
      {
        ClosedStays(init, last, x);
      }
    }
  }

  lemma {:induction false} FreshNow(cs: seq<Chunk>, last: Chunk, n: nat)
    ensures EntriesAt(cs + [last], Fresh(AllPieces(cs + [last]), ClosedPieces(cs), n, 0)) ==
            EntriesIn(AllPieces(cs + [last]), Fresh(AllPieces(cs + [last]), ClosedPieces(cs), n, 0))
  {
    var ks := Fresh(AllPieces(cs + [last]), ClosedPieces(cs), n, 0);
    FreshElements(AllPieces(cs + [last]), ClosedPieces(cs), n, 0);
    ClosedLast(cs, last);
    hide Fresh, AllPieces, ClosedPieces, AtClosing, EntriesAt, EntriesIn;
    forall i | 0 <= i < |ks|
      ensures AtClosing(cs + [last], ks[i]) == AllPieces(cs + [last])
    {
      assert ks[i] in ks;
    }
    EntriesNow(cs + [last], ks);
  }

  /** The feeds complete the calls in closing order, each as it was at its closing. */
  lemma {:induction false} FeedsComplete(cs: seq<Chunk>, n: nat)
    requires NoErrors(cs) && Within(AllPieces(cs), n)
    ensures Completes(EventsOf(cs)) == EntriesAt(cs, ClosingOrder(cs, n))
  {
    EmptyRun();
    if cs != [] {
      var init, last := cs[..|cs| - 1], cs[|cs| - 1];
      assert init + [last] == cs;
      WithinInit(init, last, n);
      FeedsComplete(init, n);
      hide AllPieces, ClosedPieces, EventsOf, StateAfter, Completes, Fresh, ClosingOrder, EntriesAt, EntriesIn, Within,
           AllHeld, NamedBy, IsClosed;
      RunStep(init, last);
      RunHeld(init);
      OrderLast(init, last, n);
      OrderElements(init, n);
      var order := ClosingOrder(init, n);
      assert forall i :: 0 <= i < |order| ==> order[i] in order;
      EntriesAtStay(init, last, order);
      CompletesAppend(EventsOf(init), Given(StateAfter(init), last.choice));
      AllPiecesLast(init, last);
      ChunkCompletes(StateAfter(init), last, AllPieces(init), ClosedPieces(init), n);
      FreshNow(init, last, n);
      EntriesAtJoin(cs, order, if ReasonIn(last) != "" then Fresh(AllPieces(cs), ClosedPieces(init), n, 0) else []);
      EntriesAtNone(cs);
    }
  }

  lemma {:induction false} EntriesAtNone(cs: seq<Chunk>)
    ensures EntriesAt(cs, []) == []
  {}

  lemma {:induction false} WithinInit(init: seq<Chunk>, last: Chunk, n: nat)
    requires Within(AllPieces(init + [last]), n)
    ensures Within(AllPieces(init), n)
  {
    AllPiecesLast(init, last);
    hide AllPieces, PiecesIn;
    assert forall i :: 0 <= i < |AllPieces(init)| ==> (AllPieces(init) + PiecesIn(last))[i] == AllPieces(init)[i];
  }

  lemma {:induction false} ChunkCompletes(s: State, c: Chunk, ps: seq<Piece>, closed: seq<Piece>, n: nat)
    requires c.DataChunk? && AllHeld(s.calls, ps, NamedBy(closed)) && Within(ps + PiecesIn(c), n)
    ensures Completes(Given(s, c.choice)) ==
            if ReasonIn(c) != "" then EntriesIn(ps + PiecesIn(c), Fresh(ps + PiecesIn(c), closed, n, 0)) else []
  {
    hide AllHeld, NamedBy, Within, FeedChoice, Completes, EntriesIn, Fresh;
    EmptyRun();
    if c.choice.Some? {
      var choice := c.choice.value;
      PiecesHeld(s.calls, ps, choice.pieces, NamedBy(closed));
      if choice.finishReason == "" {
        QuietChoice(s.calls, choice);
      } else {
        FinishingChoice(s.calls, choice);
        ClosingCompletes(AddPieces(s.calls, choice.pieces).calls, ps + choice.pieces, closed, n);
      }
    }
  }

  /**
   What any stream completes, whenever its finish reasons come: the calls in the
   order of their closing, by index within one closing, each with the name,
   identifier and arguments it had then.
   */
  lemma {:induction false} StreamCompletes(cs: seq<Chunk>, n: nat)
    requires NoErrors(cs) && Within(AllPieces(cs), n)
    ensures Completes(Streamed(cs)) == EntriesAt(cs, CompletionOrder(cs, n))
  {
    hide AllPieces, ClosedPieces, EventsOf, StateAfter, Completes, Fresh, ClosingOrder, EntriesAt, EntriesIn, Within,
         AllHeld, NamedBy, CompleteAll;
    var s, order := StateAfter(cs), ClosingOrder(cs, n);
    var left := Fresh(AllPieces(cs), ClosedPieces(cs), n, 0);
    FeedsComplete(cs, n);
    RunHeld(cs);
    ClosingCompletes(s.calls, AllPieces(cs), ClosedPieces(cs), n);
    FinishRun(FinishOf(s));
    CompletesAppend(EventsOf(cs), CompleteAll(s.calls).events);
    CompletesAppend(EventsOf(cs) + CompleteAll(s.calls).events, [FinishOf(s)]);
    EntriesAtJoin(cs, order, left);
    FreshAtEnd(cs, n);
    assert EntriesAt(cs, order + left) + [] == EntriesAt(cs, order + left);
  }

  lemma {:induction false} FreshAtEnd(cs: seq<Chunk>, n: nat)
    ensures EntriesAt(cs, Fresh(AllPieces(cs), ClosedPieces(cs), n, 0)) ==
            EntriesIn(AllPieces(cs), Fresh(AllPieces(cs), ClosedPieces(cs), n, 0))
  {
    var ks := Fresh(AllPieces(cs), ClosedPieces(cs), n, 0);
    FreshElements(AllPieces(cs), ClosedPieces(cs), n, 0);
    hide Fresh, EntriesAt, EntriesIn;
    forall i | 0 <= i < |ks|
      ensures AtClosing(cs, ks[i]) == AllPieces(cs)
    {
      assert ks[i] in ks;
      OpenAtEnd(cs, ks[i]);
    }
    EntriesNow(cs, ks);
  }

  lemma {:induction false} OpenAtEnd(cs: seq<Chunk>, k: int)
    requires !IsClosed(cs, k)
    ensures AtClosing(cs, k) == AllPieces(cs)
  {
    if cs != [] {
      var init, last := cs[..|cs| - 1], cs[|cs| - 1];
      assert init + [last] == cs;
      OpenBefore(init, last, k);
      hide IsClosed, AllPieces;
    }
  }

  lemma {:induction false} OpenBefore(init: seq<Chunk>, last: Chunk, k: int)
    requires !IsClosed(init + [last], k)
    ensures !IsClosed(init, k)
  {
    hide IsClosed;
    if IsClosed(init, k) { ClosedStays(init, last, k); }
  }

  // ---- closing in index order -------------------------------------------------

  predicate HasName(cs: seq<Chunk>, k: int) { NameOf(AllPieces(cs), k) != "" }

  /** Call `k` has a name by chunk `c`. */
  predicate NamedAt(cs: seq<Chunk>, c: nat, k: int)
    requires c < |cs|
  {
    HasName(cs[..c + 1], k)
  }

  /** No call is first named after a finish reason at which a call of higher index had a name. */
  ghost predicate InOrder(cs: seq<Chunk>, n: nat) {
    forall c, j, k :: 0 <= c < |cs| && ReasonIn(cs[c]) != "" && 0 <= j < k < n && NamedAt(cs, c, k) && HasName(cs, j)
                      ==> NamedAt(cs, c, j)
  }

  /** The last finishing chunk, when some call is closed. */
  lemma {:induction false} LastClosing(cs: seq<Chunk>, k: int) returns (c: nat)
    requires IsClosed(cs, k)
    ensures c < |cs| && ReasonIn(cs[c]) != "" && ClosedPieces(cs) == AllPieces(cs[..c + 1])
  {
    var init, last := cs[..|cs| - 1], cs[|cs| - 1];
    assert cs[..|cs|] == cs;
    if ReasonIn(last) != "" {
      c := |cs| - 1;
    } else {
      c := LastClosing(init, k);
      assert init[..c + 1] == cs[..c + 1];
    }
  }

  lemma {:induction false} NamesGrow(a: seq<Chunk>, last: Chunk, k: int)
    requires HasName(a, k)
    ensures HasName(a + [last], k)
  {
    AllPiecesLast(a, last);
    NameStays(AllPieces(a), AllPieces(a + [last]), k);
  }

  lemma {:induction false} InOrderInit(init: seq<Chunk>, last: Chunk, n: nat)
    requires InOrder(init + [last], n)
    ensures InOrder(init, n)
  {
    hide HasName, ReasonIn;
    var cs := init + [last];
    forall c, j, k | 0 <= c < |init| && ReasonIn(init[c]) != "" && 0 <= j < k < n && NamedAt(init, c, k) &&
        HasName(init, j)
      ensures NamedAt(init, c, j)
    {
      assert cs[c] == init[c] && cs[..c + 1] == init[..c + 1];
      NamesGrow(init, last, j);
      assert NamedAt(cs, c, k) && NamedAt(cs, c, j);
    }
  }

  lemma {:induction false} IncreasingAppend(a: seq<int>, b: seq<int>)
    requires Increasing(a) && Increasing(b) && forall x, y :: x in a && y in b ==> x < y
    ensures Increasing(a + b)
  {
    assert forall i :: 0 <= i < |a| ==> a[i] in a;
    assert forall i :: 0 <= i < |b| ==> b[i] in b;
  }

  lemma {:induction false} AppendFresh(cs: seq<Chunk>, last: seq<Chunk>, n: nat)
    requires last == [] || (|last| == 1 && ReasonIn(last[0]) != "")
    requires InOrder(cs + last, n) && Increasing(ClosingOrder(cs, n))
    ensures Increasing(ClosingOrder(cs, n) + Fresh(AllPieces(cs + last), ClosedPieces(cs), n, 0))
  {
    var order, more := ClosingOrder(cs, n), Fresh(AllPieces(cs + last), ClosedPieces(cs), n, 0);
    OrderElements(cs, n);
    FreshElements(AllPieces(cs + last), ClosedPieces(cs), n, 0);
    hide ClosingOrder, Fresh, AllPieces, ClosedPieces, NameOf, ReasonIn, InOrder;
    forall x, y | x in order && y in more
      ensures x < y
    {
      HigherWith(cs, last, n, x, y);
    }
    IncreasingAppend(order, more);
  }

  lemma {:induction false} HigherWith(cs: seq<Chunk>, last: seq<Chunk>, n: nat, x: int, y: int)
    requires InOrder(cs + last, n) && 0 <= x < n && 0 <= y < n
    requires IsClosed(cs, x) && !IsClosed(cs, y) && HasName(cs + last, y)
    ensures x < y
  {
    var c := LastClosing(cs, x);
    var all := cs + last;
    assert all[c] == cs[c] && all[..c + 1] == cs[..c + 1];
    hide AllPieces, NameOf, ReasonIn;
    assert NamedAt(all, c, x) && !NamedAt(all, c, y);
  }

  lemma {:induction false} OrderIncreases(cs: seq<Chunk>, n: nat)
    requires InOrder(cs, n)
    ensures Increasing(ClosingOrder(cs, n))
  {
    if cs != [] {
      var init, last := cs[..|cs| - 1], cs[|cs| - 1];
      assert init + [last] == cs;
      InOrderInit(init, last, n);
      OrderIncreases(init, n);
      OrderLast(init, last, n);
      hide InOrder, ClosingOrder, Fresh, AllPieces, ClosedPieces, Increasing;
      assert ClosingOrder(init, n) + [] == ClosingOrder(init, n);
      if ReasonIn(last) != "" { AppendFresh(init, [last], n); }
    }
  }

  lemma {:induction false} CompletionElements(cs: seq<Chunk>, n: nat)
    ensures forall x :: x in CompletionOrder(cs, n) <==> 0 <= x < n && HasName(cs, x)
  {
    OrderElements(cs, n);
    FreshElements(AllPieces(cs), ClosedPieces(cs), n, 0);
    hide ClosingOrder, Fresh, AllPieces, ClosedPieces, NameOf;
    forall x: int | IsClosed(cs, x)
      ensures HasName(cs, x)
    {
      ClosedIsNamed(cs, x);
    }
  }

  /** The order up to any chunk is a beginning of the whole completion order. */
  lemma {:induction false} OrderPrefix(cs: seq<Chunk>, c: nat, n: nat)
    requires c <= |cs|
    ensures ClosingOrder(cs[..c], n) <= ClosingOrder(cs, n)
  {
    if c == |cs| {
      assert cs[..c] == cs;
    } else {
      var init, last := cs[..|cs| - 1], cs[|cs| - 1];
      assert init + [last] == cs && init[..c] == cs[..c];
      OrderPrefix(init, c, n);
      OrderLast(init, last, n);
    }
  }

  lemma {:induction false} LaterIsHigher(order: seq<int>, start: seq<int>, j: int, k: int)
    requires Increasing(order) && start <= order && k in start && j in order && j !in start
    ensures k < j
  {
    var p :| 0 <= p < |start| && start[p] == k;
    var q :| 0 <= q < |order| && order[q] == j;
    assert order[p] == k;
    assert forall i :: 0 <= i < |start| ==> start[i] in start && start[i] == order[i];
  }

  /** The completion order is increasing exactly when the calls are named in order. */
  lemma {:induction false} OrderExact(cs: seq<Chunk>, n: nat)
    ensures Increasing(CompletionOrder(cs, n)) <==> InOrder(cs, n)
  {
    if InOrder(cs, n) {
      OrderIncreases(cs, n);
      assert cs + [] == cs;
      AppendFresh(cs, [], n);
    }
    if Increasing(CompletionOrder(cs, n)) {
      forall c, j, k | 0 <= c < |cs| && ReasonIn(cs[c]) != "" && 0 <= j < k < n && NamedAt(cs, c, k) && HasName(cs, j)
        ensures NamedAt(cs, c, j)
      {
        if !NamedAt(cs, c, j) { LateNameBreaksOrder(cs, n, c, j, k); }
      }
    }
  }

  lemma {:induction false} LateNameBreaksOrder(cs: seq<Chunk>, n: nat, c: nat, j: nat, k: nat)
    requires c < |cs| && ReasonIn(cs[c]) != "" && j < k < n
    requires NamedAt(cs, c, k) && HasName(cs, j) && !NamedAt(cs, c, j)
    ensures !Increasing(CompletionOrder(cs, n))
  {
    var start := cs[..c + 1];
    OrderElements(start, n);
    CompletionElements(cs, n);
    OrderPrefix(cs, c + 1, n);
    assert IsClosed(start, k) && !IsClosed(start, j) by { FinishingCloses(cs, c); }
    var begin := ClosingOrder(start, n);
    var left := Fresh(AllPieces(cs), ClosedPieces(cs), n, 0);
    assert begin <= CompletionOrder(cs, n);
    hide ClosingOrder, AllPieces, NameOf, ReasonIn;
    if Increasing(CompletionOrder(cs, n)) {
      LaterIsHigher(CompletionOrder(cs, n), begin, j, k);
    }
  }

  lemma {:induction false} FinishingCloses(cs: seq<Chunk>, c: nat)
    requires c < |cs| && ReasonIn(cs[c]) != ""
    ensures ClosedPieces(cs[..c + 1]) == AllPieces(cs[..c + 1])
  {}

  // ---- agreement with the whole message ---------------------------------------

  /** What comes after the closing of a call. */
  function Late(cs: seq<Chunk>, k: int): seq<Piece> {
    if |AtClosing(cs, k)| <= |AllPieces(cs)| then AllPieces(cs)[|AtClosing(cs, k)|..] else []
  }

  /** What comes late for call `k` does not change what it completes to. */
  predicate NothingLate(early: seq<Piece>, late: seq<Piece>, k: int) {
    NameOf(early, k) != "" ==>
      && NameOf(late, k) == ""
      && (IdOf(late, k) == "" || IdOf(late, k) == Or(IdOf(early, k), Fallback(k)))
      && (ArgumentsOf(late, k) == "" || (ArgumentsOf(early, k) == "" && ArgumentsOf(late, k) == "{}"))
  }

  predicate Unchanged(cs: seq<Chunk>, k: int) { NothingLate(AtClosing(cs, k), Late(cs, k), k) }

  lemma {:induction false} PrefixGrows(a: seq<Piece>, b: seq<Piece>, more: seq<Piece>)
    requires a <= b
    ensures a <= b + more
  {}

  lemma {:induction false} ClosingIsPrefix(cs: seq<Chunk>, k: int)
    ensures AtClosing(cs, k) <= AllPieces(cs)
  {
    if cs != [] {
      var init, last := cs[..|cs| - 1], cs[|cs| - 1];
      assert init + [last] == cs;
      if IsClosed(init, k) {
        ClosingIsPrefix(init, k);
        AllPiecesLast(init, last);
        hide AllPieces, PiecesIn, IsClosed;
        PrefixGrows(AtClosing(init, k), AllPieces(init), PiecesIn(last));
      }
    }
  }

  /** A call with a name has it when it is closed. */
  lemma {:induction false} ClosingHasName(cs: seq<Chunk>, k: int)
    requires HasName(cs, k)
    ensures NameOf(AtClosing(cs, k), k) != ""
  {
    if cs != [] {
      var init := cs[..|cs| - 1];
      if IsClosed(init, k) {
        ClosedIsNamed(init, k);
        hide AllPieces, NameOf, IsClosed;
        ClosingHasName(init, k);
      }
    }
  }

  lemma {:induction false} ClosingPrefix(cs: seq<Chunk>, k: int)
    ensures AtClosing(cs, k) <= AllPieces(cs) && AllPieces(cs) == AtClosing(cs, k) + Late(cs, k)
    ensures HasName(cs, k) ==> NameOf(AtClosing(cs, k), k) != ""
  {
    hide AllPieces, AtClosing, NameOf, HasName;
    ClosingIsPrefix(cs, k);
    SplitPrefix(AtClosing(cs, k), AllPieces(cs));
    if HasName(cs, k) { ClosingHasName(cs, k); }
  }

  lemma {:induction false} SplitPrefix(a: seq<Piece>, b: seq<Piece>)
    requires a <= b
    ensures b == a + b[|a|..]
  {}

  function CompleteOf(k: nat, call: WholeCall): AgentEvent {
    ToolCallComplete(Or(call.id, Fallback(k)), call.name, Or(call.arguments, "{}"))
  }

  lemma {:induction false} EntryOfNamed(k: nat, call: WholeCall)
    requires call.name != ""
    ensures Entry(k, call) == [CompleteOf(k, call)]
  {}

  lemma {:induction false} LateChanges(early: seq<Piece>, late: seq<Piece>, k: nat)
    requires NameOf(early, k) != ""
    ensures CompleteOf(k, CallIn(early, k)) == CompleteOf(k, CallIn(early + late, k)) <==> NothingLate(early, late, k)
  {
    FieldsJoin(early, late, k);
    hide NameOf, IdOf, ArgumentsOf, Fallback;
    FallbackNotEmpty(k);
    SameAppend(NameOf(early, k), NameOf(late, k));
    SameAppend(ArgumentsOf(early, k), ArgumentsOf(late, k));
    assert Or(ArgumentsOf(early + late, k), "{}") == Or(ArgumentsOf(early, k), "{}") <==>
           ArgumentsOf(late, k) == "" || (ArgumentsOf(early, k) == "" && ArgumentsOf(late, k) == "{}");
  }

  ghost predicate AllNamed(cs: seq<Chunk>, ks: seq<nat>) {
    forall i :: 0 <= i < |ks| ==> HasName(cs, ks[i])
  }

  lemma {:induction false} FirstNamed(cs: seq<Chunk>, ks: seq<nat>)
    requires ks != [] && AllNamed(cs, ks)
    ensures HasName(cs, ks[0]) && AllNamed(cs, ks[1..])
  {
    hide HasName;
    assert forall i :: 0 <= i < |ks[1..]| ==> ks[1..][i] == ks[i + 1];
  }

  lemma {:induction false} AtHead(cs: seq<Chunk>, ks: seq<nat>)
    requires ks != [] && HasName(cs, ks[0])
    ensures EntriesAt(cs, ks) == [CompleteOf(ks[0], CallIn(AtClosing(cs, ks[0]), ks[0]))] + EntriesAt(cs, ks[1..])
  {
    ClosingHasName(cs, ks[0]);
    EntryOfNamed(ks[0], CallIn(AtClosing(cs, ks[0]), ks[0]));
    hide HasName, AtClosing, Entry, CompleteOf, NameOf, ArgumentsOf, IdOf;
  }

  lemma {:induction false} InHead(ps: seq<Piece>, ks: seq<nat>)
    requires ks != [] && NameOf(ps, ks[0]) != ""
    ensures EntriesIn(ps, ks) == [CompleteOf(ks[0], CallIn(ps, ks[0]))] + EntriesIn(ps, ks[1..])
  {
    EntryOfNamed(ks[0], CallIn(ps, ks[0]));
    hide Entry, CompleteOf, NameOf, ArgumentsOf, IdOf;
  }

  lemma {:induction false} HeadAt<T>(head: T, tail: seq<T>, i: nat)
    requires i <= |tail|
    ensures ([head] + tail)[i] == if i == 0 then head else tail[i - 1]
  {}

  /** Calls with names have one completion each. */
  lemma {:induction false} EntriesAtEach(cs: seq<Chunk>, ks: seq<nat>)
    requires AllNamed(cs, ks)
    ensures |EntriesAt(cs, ks)| == |ks|
    ensures forall i :: 0 <= i < |ks| ==> EntriesAt(cs, ks)[i] == CompleteOf(ks[i], CallIn(AtClosing(cs, ks[i]), ks[i]))
  {
    if ks != [] {
      FirstNamed(cs, ks);
      AtHead(cs, ks);
      EntriesAtEach(cs, ks[1..]);
      hide HasName, AtClosing, CompleteOf, CallIn, AllNamed, EntriesAt;
      var head, tail := CompleteOf(ks[0], CallIn(AtClosing(cs, ks[0]), ks[0])), EntriesAt(cs, ks[1..]);
      forall i | 0 <= i < |ks|
        ensures EntriesAt(cs, ks)[i] == CompleteOf(ks[i], CallIn(AtClosing(cs, ks[i]), ks[i]))
      {
        HeadAt(head, tail, i);
      }
    }
  }

  lemma {:induction false} EntriesInEach(cs: seq<Chunk>, ks: seq<nat>)
    requires AllNamed(cs, ks)
    ensures |EntriesIn(AllPieces(cs), ks)| == |ks|
    ensures forall i :: 0 <= i < |ks| ==>
            EntriesIn(AllPieces(cs), ks)[i] == CompleteOf(ks[i], CallIn(AllPieces(cs), ks[i]))
  {
    if ks != [] {
      FirstNamed(cs, ks);
      InHead(AllPieces(cs), ks);
      EntriesInEach(cs, ks[1..]);
      hide HasName, AllPieces, CompleteOf, CallIn, AllNamed, EntriesIn;
      var head, tail := CompleteOf(ks[0], CallIn(AllPieces(cs), ks[0])), EntriesIn(AllPieces(cs), ks[1..]);
      forall i | 0 <= i < |ks|
        ensures EntriesIn(AllPieces(cs), ks)[i] == CompleteOf(ks[i], CallIn(AllPieces(cs), ks[i]))
      {
        HeadAt(head, tail, i);
      }
    }
  }

  /** The indexes with names, in list order. */
  function ListOrder(cs: seq<Chunk>, n: nat): seq<nat> { Fresh(AllPieces(cs), [], n, 0) }

  lemma {:induction false} ListOrderElements(cs: seq<Chunk>, n: nat)
    ensures Increasing(ListOrder(cs, n)) && forall x :: x in ListOrder(cs, n) <==> 0 <= x < n && HasName(cs, x)
  {
    FreshElements(AllPieces(cs), [], n, 0);
  }

  /** The entries of the whole message are those of its named calls in list order. */
  lemma {:induction false} WholeEntries(ps: seq<Piece>, n: nat, k: nat)
    requires k <= n
    ensures Entries(Assemble(ps, n), k) == EntriesIn(ps, Fresh(ps, [], n, k))
    decreases n - k
  {
    EntriesFrom(Assemble(ps, n), k);
    if k < n {
      FreshStep(ps, [], n, k);
      AssembledCall(ps, n, k);
      WholeEntries(ps, n, k + 1);
      assert NameOf([], k) == "";
      hide Entries, EntriesIn, Fresh, NameOf, Entry, Assemble, CallIn;
    }
  }

  lemma {:induction false} AssembledCall(ps: seq<Piece>, n: nat, k: nat)
    requires k < n
    ensures Assemble(ps, n)[k] == CallIn(ps, k)
  {}

  lemma {:induction false} OrdersNamed(cs: seq<Chunk>, n: nat)
    ensures AllNamed(cs, CompletionOrder(cs, n)) && AllNamed(cs, ListOrder(cs, n))
  {
    CompletionElements(cs, n);
    ListOrderElements(cs, n);
    hide CompletionOrder, ListOrder, HasName;
    assert forall i :: 0 <= i < |CompletionOrder(cs, n)| ==> CompletionOrder(cs, n)[i] in CompletionOrder(cs, n);
    assert forall i :: 0 <= i < |ListOrder(cs, n)| ==> ListOrder(cs, n)[i] in ListOrder(cs, n);
  }

  /** The orders are the same exactly when the calls are named in order. */
  lemma {:induction false} OrdersAgree(cs: seq<Chunk>, n: nat)
    ensures CompletionOrder(cs, n) == ListOrder(cs, n) <==> InOrder(cs, n)
  {
    OrderExact(cs, n);
    CompletionElements(cs, n);
    ListOrderElements(cs, n);
    if InOrder(cs, n) {
      var s := set x | 0 <= x < n && HasName(cs, x);
      hide CompletionOrder, ListOrder, HasName, InOrder;
      SortedUnique(CompletionOrder(cs, n), ListOrder(cs, n), s);
    }
  }

  lemma {:induction false} CallUnchanged(cs: seq<Chunk>, k: nat)
    requires HasName(cs, k)
    ensures CompleteOf(k, CallIn(AtClosing(cs, k), k)) == CompleteOf(k, CallIn(AllPieces(cs), k)) <==> Unchanged(cs, k)
  {
    ClosingPrefix(cs, k);
    hide AtClosing, AllPieces, Late, NothingLate, CompleteOf, NameOf, CallIn;
    LateChanges(AtClosing(cs, k), Late(cs, k), k);
  }

  lemma {:induction false} NamelessUnchanged(cs: seq<Chunk>, k: int)
    requires !HasName(cs, k)
    ensures Unchanged(cs, k)
  {
    ClosingPrefix(cs, k);
    if NameOf(AtClosing(cs, k), k) != "" { NameStays(AtClosing(cs, k), AllPieces(cs), k); }
  }

  /** In list order, the lists agree exactly when nothing late changes a call. */
  lemma {:induction false} SameOrderAgrees(cs: seq<Chunk>, n: nat, ks: seq<nat>)
    requires AllNamed(cs, ks) && forall x :: x in ks <==> 0 <= x < n && HasName(cs, x)
    ensures EntriesAt(cs, ks) == EntriesIn(AllPieces(cs), ks) <==> forall k :: 0 <= k < n ==> Unchanged(cs, k)
  {
    EntriesAtEach(cs, ks);
    EntriesInEach(cs, ks);
    hide AllPieces, AtClosing, CompleteOf, CallIn, EntriesAt, EntriesIn, HasName, Unchanged;
    var a, b := EntriesAt(cs, ks), EntriesIn(AllPieces(cs), ks);
    forall i | 0 <= i < |ks|
      ensures a[i] == b[i] <==> Unchanged(cs, ks[i])
    {
      CallUnchanged(cs, ks[i]);
    }
    if a == b {
      forall k | 0 <= k < n
        ensures Unchanged(cs, k)
      {
        if HasName(cs, k) {
          var i :| 0 <= i < |ks| && ks[i] == k;
          assert a[i] == b[i];
        } else {
          NamelessUnchanged(cs, k);
        }
      }
    }
    if forall k :: 0 <= k < n ==> Unchanged(cs, k) {
      assert forall i :: 0 <= i < |ks| ==> ks[i] in ks;
    }
  }

  /** The pieces or the fallback give this identifier to call `k`; an empty one is none. */
  ghost predicate GivesId(ps: seq<Piece>, k: int, id: string) {
    id == Fallback(k) || (id != "" && exists i :: 0 <= i < |ps| && ps[i].index == k && ps[i].id == id)
  }

  /** No identifier is given to two calls. */
  ghost predicate IdsSeparate(ps: seq<Piece>, n: nat) {
    forall j, k, id :: 0 <= j < k < n && GivesId(ps, j, id) ==> !GivesId(ps, k, id)
  }

  lemma {:induction false} LastIdIsGiven(ps: seq<Piece>, k: int)
    requires IdOf(ps, k) != ""
    ensures exists i :: 0 <= i < |ps| && ps[i].index == k && ps[i].id == IdOf(ps, k)
  {
    var init, p := ps[..|ps| - 1], ps[|ps| - 1];
    if !(p.index == k && p.id != "") {
      LastIdIsGiven(init, k);
      var i :| 0 <= i < |init| && init[i].index == k && init[i].id == IdOf(init, k);
      assert ps[i] == init[i];
    } else {
      assert ps[|ps| - 1].id == IdOf(ps, k);
    }
  }

  lemma {:induction false} CompletedIdIsGiven(early: seq<Piece>, ps: seq<Piece>, k: nat)
    requires early <= ps
    ensures GivesId(ps, k, CompleteOf(k, CallIn(early, k)).id)
  {
    if IdOf(early, k) != "" {
      LastIdIsGiven(early, k);
      var i :| 0 <= i < |early| && early[i].index == k && early[i].id == IdOf(early, k);
      assert ps[i] == early[i];
    }
  }

  /** Out of order, with separate identifiers, the lists differ. */
  lemma {:induction false} OutOfOrderDiffers(cs: seq<Chunk>, n: nat, ks: seq<nat>, ls: seq<nat>)
    requires AllNamed(cs, ks) && AllNamed(cs, ls) && IdsSeparate(AllPieces(cs), n)
    requires forall i :: 0 <= i < |ks| ==> ks[i] < n
    requires forall i :: 0 <= i < |ls| ==> ls[i] < n
    requires EntriesAt(cs, ks) == EntriesIn(AllPieces(cs), ls)
    ensures ks == ls
  {
    EntriesAtEach(cs, ks);
    EntriesInEach(cs, ls);
    hide AllPieces, AtClosing, CallIn, EntriesAt, EntriesIn, HasName, GivesId, CompleteOf;
    forall i | 0 <= i < |ks|
      ensures ks[i] == ls[i]
    {
      ClosingPrefix(cs, ks[i]);
      CompletedIdIsGiven(AtClosing(cs, ks[i]), AllPieces(cs), ks[i]);
      CompletedIdIsGiven(AllPieces(cs), AllPieces(cs), ls[i]);
    }
  }

  /** The two calls come out alike. */
  predicate Alike(a: WholeCall, j: nat, b: WholeCall, k: nat) {
    && Or(a.id, Fallback(j)) == Or(b.id, Fallback(k)) && a.name == b.name
    && Or(a.arguments, "{}") == Or(b.arguments, "{}")
  }

  /**
   The `i`-th completed call is the `i`-th call of the message: the same one, not
   changed by what comes late, or another one that looked like it when it was closed.
   */
  predicate PlaceAgrees(cs: seq<Chunk>, n: nat, i: nat)
    requires i < |CompletionOrder(cs, n)| && i < |ListOrder(cs, n)|
  {
    var k, l := CompletionOrder(cs, n)[i], ListOrder(cs, n)[i];
    if k == l then Unchanged(cs, k)
    else Alike(CallIn(AtClosing(cs, k), k), k, CallIn(AllPieces(cs), l), l)
  }

  lemma {:induction false} CompleteAlike(a: WholeCall, j: nat, b: WholeCall, k: nat)
    ensures CompleteOf(j, a) == CompleteOf(k, b) <==> Alike(a, j, b, k)
  {
    hide Fallback;
  }

  /** Both orders list the calls with names, each once. */
  lemma {:induction false} OrdersSize(cs: seq<Chunk>, n: nat)
    ensures |CompletionOrder(cs, n)| == |ListOrder(cs, n)|
  {
    CompletionDistinct(cs, n);
    CompletionElements(cs, n);
    ListOrderElements(cs, n);
    hide CompletionOrder, ListOrder, HasName;
    SameSize(CompletionOrder(cs, n), ListOrder(cs, n));
  }

  ghost predicate Distinct(s: seq<int>) {
    forall i, j :: 0 <= i < j < |s| ==> s[i] != s[j]
  }

  lemma {:induction false} DistinctSize(s: seq<int>)
    requires Distinct(s)
    ensures |Elements(s)| == |s|
  {
    if s == [] {
      assert Elements(s) == {};
    } else {
      var init := s[..|s| - 1];
      DistinctSize(init);
      assert s == init + [s[|s| - 1]] && s[|s| - 1] !in init;
      assert Elements(s) == Elements(init) + {s[|s| - 1]};
    }
  }

  lemma {:induction false} SameSize(a: seq<int>, b: seq<int>)
    requires Distinct(a) && Increasing(b) && forall x :: x in a <==> x in b
    ensures |a| == |b|
  {
    DistinctSize(a);
    DistinctSize(b);
    assert Elements(a) == Elements(b);
  }

  lemma {:induction false} DistinctJoin(a: seq<int>, b: seq<int>)
    requires Distinct(a) && Increasing(b) && forall x :: x in a ==> x !in b
    ensures Distinct(a + b)
  {
    var s := a + b;
    forall i, j | 0 <= i < j < |s|
      ensures s[i] != s[j]
    {
      if i < |a| <= j {
        assert s[i] in a && s[j] in b;
      }
    }
  }

  /** No call is closed twice. */
  lemma {:induction false} ClosingDistinct(cs: seq<Chunk>, n: nat)
    ensures Distinct(ClosingOrder(cs, n))
  {
    if cs != [] {
      var init, last := cs[..|cs| - 1], cs[|cs| - 1];
      assert init + [last] == cs;
      ClosingDistinct(init, n);
      OrderLast(init, last, n);
      OrderElements(init, n);
      FreshElements(AllPieces(cs), ClosedPieces(init), n, 0);
      hide ClosingOrder, Fresh, AllPieces, ClosedPieces, NameOf, ReasonIn;
      if ReasonIn(last) != "" {
        DistinctJoin(ClosingOrder(init, n), Fresh(AllPieces(cs), ClosedPieces(init), n, 0));
      } else {
        assert ClosingOrder(init, n) + [] == ClosingOrder(init, n);
      }
    }
  }

  lemma {:induction false} CompletionDistinct(cs: seq<Chunk>, n: nat)
    ensures Distinct(CompletionOrder(cs, n))
  {
    ClosingDistinct(cs, n);
    OrderElements(cs, n);
    FreshElements(AllPieces(cs), ClosedPieces(cs), n, 0);
    hide ClosingOrder, Fresh, AllPieces, ClosedPieces, NameOf;
    DistinctJoin(ClosingOrder(cs, n), Fresh(AllPieces(cs), ClosedPieces(cs), n, 0));
  }

  /** The lists agree exactly when they agree at every place. */
  lemma {:induction false} PlacesExact(cs: seq<Chunk>, n: nat)
    ensures |CompletionOrder(cs, n)| == |ListOrder(cs, n)|
    ensures EntriesAt(cs, CompletionOrder(cs, n)) == EntriesIn(AllPieces(cs), ListOrder(cs, n)) <==>
            forall i :: 0 <= i < |ListOrder(cs, n)| ==> PlaceAgrees(cs, n, i)
  {
    var ks, ls := CompletionOrder(cs, n), ListOrder(cs, n);
    OrdersSize(cs, n);
    OrdersNamed(cs, n);
    EntriesAtEach(cs, ks);
    EntriesInEach(cs, ls);
    hide CompletionOrder, ListOrder, EntriesAt, EntriesIn, AllNamed, CompleteOf, CallIn, AllPieces, AtClosing,
         PlaceAgrees, HasName;
    var a, b := EntriesAt(cs, ks), EntriesIn(AllPieces(cs), ls);
    forall i | 0 <= i < |ls|
      ensures a[i] == b[i] <==> PlaceAgrees(cs, n, i)
    {
      PlaceExact(cs, n, i);
    }
  }

  lemma {:induction false} PlaceExact(cs: seq<Chunk>, n: nat, i: nat)
    requires i < |CompletionOrder(cs, n)| && i < |ListOrder(cs, n)| && AllNamed(cs, CompletionOrder(cs, n))
    ensures
      var k, l := CompletionOrder(cs, n)[i], ListOrder(cs, n)[i];
      CompleteOf(k, CallIn(AtClosing(cs, k), k)) == CompleteOf(l, CallIn(AllPieces(cs), l)) <==> PlaceAgrees(cs, n, i)
  {
    var k, l := CompletionOrder(cs, n)[i], ListOrder(cs, n)[i];
    hide CompletionOrder, ListOrder, CompleteOf, CallIn, AllPieces, AtClosing, Unchanged, HasName, Alike;
    if k == l {
      CallUnchanged(cs, k);
    } else {
      CompleteAlike(CallIn(AtClosing(cs, k), k), k, CallIn(AllPieces(cs), l), l);
    }
  }

  /**
   A message cut into chunks in any way, with finish reasons anywhere or nowhere:
   the streamed tool calls are those of the whole message exactly when they agree
   at every place.
   */
  lemma {:induction false} AgreementExact(cs: seq<Chunk>, m: Message)
    requires NoErrors(cs) && Carries(cs, m)
    ensures
      var n := |m.calls|;
      && |CompletionOrder(cs, n)| == |ListOrder(cs, n)|
      && (Completes(Streamed(cs)) == Entries(m.calls, 0) <==>
            forall i :: 0 <= i < |ListOrder(cs, n)| ==> PlaceAgrees(cs, n, i))
  {
    var n := |m.calls|;
    hide AllPieces, Streamed, Completes, Entries, EntriesAt, EntriesIn, CompletionOrder, ListOrder, Within, Assemble,
         PlaceAgrees, AllContent, UsageOf;
    StreamCompletes(cs, n);
    WholeIsListed(cs, n);
    PlacesExact(cs, n);
  }

  /**
   A message cut into chunks in any way, with finish reasons anywhere or nowhere:
   when no call is first named after a finish reason that closed a call of higher
   index, the streamed tool calls are those of the whole message exactly when
   nothing that comes after the closing of a call changes it; otherwise they
   differ, unless two calls share an identifier, where `AgreementExact` decides.
   */
  lemma {:induction false} FragmentationExact(cs: seq<Chunk>, m: Message)
    requires NoErrors(cs) && Carries(cs, m)
    ensures
      var n := |m.calls|;
      var agree := Completes(Streamed(cs)) == Entries(m.calls, 0);
      && (InOrder(cs, n) ==> (agree <==> forall k :: 0 <= k < n ==> Unchanged(cs, k)))
      && (!InOrder(cs, n) && IdsSeparate(AllPieces(cs), n) ==> !agree)
  {
    var n := |m.calls|;
    hide AllPieces, Streamed, Completes, Entries, EntriesAt, EntriesIn, CompletionOrder, ListOrder, Within, Assemble,
         Unchanged, InOrder, IdsSeparate, AllContent, UsageOf, HasName, AllNamed;
    StreamCompletes(cs, n);
    WholeIsListed(cs, n);
    OrdersNamed(cs, n);
    OrdersAgree(cs, n);
    ListOrderElements(cs, n);
    CompletionElements(cs, n);
    SameOrderAgrees(cs, n, ListOrder(cs, n));
    if !InOrder(cs, n) && IdsSeparate(AllPieces(cs), n) && Completes(Streamed(cs)) == Entries(m.calls, 0) {
      var ks, ls := CompletionOrder(cs, n), ListOrder(cs, n);
      assert forall i :: 0 <= i < |ks| ==> ks[i] in ks;
      assert forall i :: 0 <= i < |ls| ==> ls[i] in ls;
      OutOfOrderDiffers(cs, n, ks, ls);
    }
  }

  lemma {:induction false} WholeIsListed(cs: seq<Chunk>, n: nat)
    ensures Entries(Assemble(AllPieces(cs), n), 0) == EntriesIn(AllPieces(cs), ListOrder(cs, n))
  {
    WholeEntries(AllPieces(cs), n, 0);
  }

  /** No piece comes after a finish reason. */
  ghost predicate PiecesFirst(cs: seq<Chunk>) {
    forall c :: 0 <= c < |cs| && ReasonIn(cs[c]) != "" ==> AllPieces(cs[..c + 1]) == AllPieces(cs)
  }

  lemma {:induction false} ClosesNow(init: seq<Chunk>, last: Chunk, k: int)
    requires !IsClosed(init, k) && IsClosed(init + [last], k)
    ensures ReasonIn(last) != ""
  {
    ClosedLast(init, last);
    hide ClosedPieces, AtClosing, NameOf, ReasonIn;
  }

  /** Call `k` is closed at chunk `c`. */
  predicate ClosedAt(cs: seq<Chunk>, k: int, c: nat) {
    c < |cs| && ReasonIn(cs[c]) != "" && AtClosing(cs, k) == AllPieces(cs[..c + 1])
  }

  lemma {:induction false} ClosedEarlier(init: seq<Chunk>, last: Chunk, k: int, c: nat)
    requires IsClosed(init, k) && ClosedAt(init, k, c)
    ensures ClosedAt(init + [last], k, c)
  {
    ClosedLast(init, last);
    hide AllPieces, ReasonIn, IsClosed, AtClosing;
    assert (init + [last])[..c + 1] == init[..c + 1];
  }

  lemma {:induction false} ClosedLately(init: seq<Chunk>, last: Chunk, k: int)
    requires !IsClosed(init, k) && IsClosed(init + [last], k)
    ensures ClosedAt(init + [last], k, |init|)
  {
    ClosedLast(init, last);
    ClosesNow(init, last, k);
    hide AllPieces, ReasonIn, IsClosed, AtClosing;
    assert (init + [last])[..|init| + 1] == init + [last];
  }

  /** A call is closed at a finishing chunk. */
  lemma {:induction false} ClosedSomewhere(cs: seq<Chunk>, k: int) returns (c: nat)
    requires IsClosed(cs, k)
    ensures ClosedAt(cs, k, c)
  {
    assert cs != [] by { NoNames(); }
    hide ClosedAt, IsClosed;
    var init, last := cs[..|cs| - 1], cs[|cs| - 1];
    assert init + [last] == cs;
    if IsClosed(init, k) {
      c := ClosedSomewhere(init, k);
      ClosedEarlier(init, last, k, c);
    } else {
      ClosedLately(init, last, k);
      c := |init|;
    }
  }

  lemma {:induction false} PiecesFirstClosing(cs: seq<Chunk>, k: int)
    requires PiecesFirst(cs)
    ensures Unchanged(cs, k)
  {
    hide AllPieces, AtClosing, IsClosed, NameOf, ReasonIn;
    if IsClosed(cs, k) {
      var c := ClosedSomewhere(cs, k);
    } else {
      OpenAtEnd(cs, k);
    }
    assert Late(cs, k) == [];
    NothingLater(AtClosing(cs, k), k);
  }

  lemma {:induction false} NothingLater(early: seq<Piece>, k: int)
    ensures NothingLate(early, [], k)
  {}

  lemma {:induction false} PiecesFirstInOrder(cs: seq<Chunk>, n: nat)
    requires PiecesFirst(cs)
    ensures InOrder(cs, n)
  {
    hide AllPieces, NameOf, ReasonIn;
    forall c, j, k | 0 <= c < |cs| && ReasonIn(cs[c]) != "" && 0 <= j < k < n && NamedAt(cs, c, k) && HasName(cs, j)
      ensures NamedAt(cs, c, j)
    {
      assert AllPieces(cs[..c + 1]) == AllPieces(cs);
    }
  }

  /**
   However a message is cut up, as long as its pieces come before its finish
   reason, the stream gives what the whole message gives; its end is the same
   exactly when the last reason is, and that of a cut-off answer without one.
   */
  lemma {:induction false} FragmentationInvariant(cs: seq<Chunk>, m: Message)
    requires NoErrors(cs) && Carries(cs, m) && PiecesFirst(cs)
    ensures Texts(Streamed(cs)) == m.content
    ensures Completes(Streamed(cs)) == Entries(m.calls, 0)
    ensures Streamed(cs) != []
    ensures
      var last := Streamed(cs)[|Streamed(cs)| - 1];
      && (last == FinishEvent(m) <==> ReasonOf(cs) == LastReason(m))
      && (ReasonOf(cs) == "" ==> last == Finish("eof", true, m.usage, false))
  {
    hide Carries, Completes, Streamed, Entries, InOrder, Unchanged, NoErrors, PiecesFirst, Texts, ReasonOf, FinishEvent,
         IdsSeparate;
    StreamTextAndFinish(cs, m);
    FragmentationExact(cs, m);
    PiecesFirstInOrder(cs, |m.calls|);
    forall k | 0 <= k < |m.calls|
      ensures Unchanged(cs, k)
    {
      PiecesFirstClosing(cs, k);
    }
  }

  // ---- pieces after the finish reason ------------------------------------------

  /** One piece with the finish reason and one after it. */
  ghost function PieceAfter(p: Piece, q: Piece): seq<Chunk> {
    [DataChunk(None, Some(Choice("", [p], "tool_calls"))), DataChunk(None, Some(Choice("", [q], "")))]
  }

  lemma {:induction false} PieceAfterRun(p: Piece, q: Piece)
    ensures
      var cs := PieceAfter(p, q);
      && NoErrors(cs) && AllPieces(cs) == [p, q] && ClosedPieces(cs) == [p]
      && (forall n: nat :: ClosingOrder(cs, n) == Fresh([p], [], n, 0))
      && (forall k :: AtClosing(cs, k) == if NameOf([p], k) != "" then [p] else [p, q])
  {
    hide Fresh, NameOf;
    var cs := PieceAfter(p, q);
    var one := [cs[0]];
    assert cs[..1] == one && one[..0] == [];
    assert AllPieces([]) == [] && ClosedPieces([]) == [];
    assert AllPieces(one) == [] + [p] == [p];
    assert AllPieces(cs) == [p] + [q];
    assert ClosedPieces(one) == [p];
    assert ClosedPieces(cs) == [p];
    NoNames();
    assert forall n: nat :: [] + Fresh([p], [], n, 0) == Fresh([p], [], n, 0);
    assert forall n: nat :: Fresh([p], [], n, 0) + [] == Fresh([p], [], n, 0);
    assert forall n: nat :: ClosingOrder([], n) == [];
    assert forall n: nat :: ClosingOrder(one, n) == Fresh([p], [], n, 0);
  }

  lemma {:induction false} NoNames()
    ensures forall k :: NameOf([], k) == ""
  {}

  lemma {:induction false} OnePiece(p: Piece, k: int)
    ensures CallIn([p], k) == if p.index == k then WholeCall(p.id, p.name, p.arguments) else WholeCall("", "", "")
  {
    assert [p][..0] == [];
    assert NameOf([], k) == "" && ArgumentsOf([], k) == "" && IdOf([], k) == "";
  }

  /** Pieces of different calls leave each other's fields alone. */
  lemma {:induction false} TwoPieces(p: Piece, q: Piece, k: int)
    requires p.index != k || q.index != k
    ensures CallIn([p, q], k) == if q.index == k then CallIn([q], k) else CallIn([p], k)
  {
    assert [p, q] == [p] + [q];
    FieldsJoin([p], [q], k);
    OnePiece(p, k);
    OnePiece(q, k);
    hide NameOf, IdOf, ArgumentsOf;
  }

  /** An argument piece after the finish reason is lost: the call is completed without it. */
  lemma {:induction false} LateArgumentsAreLost(p: Piece, q: Piece)
    requires p.index == q.index == 0 && p.name != "" && p.arguments != "" && q.name == "" && q.id == ""
    ensures NoErrors(PieceAfter(p, q))
    ensures Completes(Streamed(PieceAfter(p, q))) == [ToolCallComplete(Or(p.id, Fallback(0)), p.name, p.arguments)]
  {
    var cs := PieceAfter(p, q);
    hide Completes, Streamed, AllPieces, AtClosing, PieceAfter, NoErrors, Fallback, EntriesAt, Within, CompletionOrder,
         ClosingOrder, ClosedPieces, Fresh, NameOf, IdOf, ArgumentsOf;
    PieceAfterRun(p, q);
    assert Within(AllPieces(cs), 1) by { OneWithin(p, q); }
    StreamCompletes(cs, 1);
    LateArgumentsOrder(p, q);
    OneAt(cs, 0);
    OnePiece(p, 0);
    EntryOfNamed(0, WholeCall(p.id, p.name, p.arguments));
  }

  lemma {:induction false} OneWithin(p: Piece, q: Piece)
    requires p.index == q.index == 0
    ensures Within([p, q], 1)
  {}

  lemma {:induction false} LateArgumentsOrder(p: Piece, q: Piece)
    requires p.index == 0 && p.name != "" && q.name == ""
    ensures CompletionOrder(PieceAfter(p, q), 1) == [0]
  {
    hide AllPieces, ClosedPieces, ClosingOrder, AtClosing, PieceAfter, NoErrors;
    PieceAfterRun(p, q);
    OneNamed(p, q);
    assert [0] + [] == [0];
  }

  lemma {:induction false} OneNamed(p: Piece, q: Piece)
    requires p.index == 0 && p.name != "" && q.name == ""
    ensures Fresh([p], [], 1, 0) == [0] && Fresh([p, q], [p], 1, 0) == []
  {
    OnePiece(p, 0);
    PieceIsLate(p, q);
    NoNames();
    hide NameOf, IdOf, ArgumentsOf;
    assert forall ps, closed :: Fresh(ps, closed, 1, 1) == [];
    assert Fresh([p], [], 1, 0) == [0] + [];
  }

  lemma {:induction false} PieceIsLate(p: Piece, q: Piece)
    ensures q.name == "" ==> forall k :: NameOf([p, q], k) == NameOf([p], k)
  {
    assert [p, q][..1] == [p];
  }

  /**
   A call first named after the finish reason is completed last, whatever its index:
   here index 0 comes out behind index 1, so the list is not that of the message.
   */
  lemma {:induction false} LateNameComesLast(p: Piece, q: Piece)
    requires p.index == 1 && q.index == 0 && p.name != "" && q.name != "" && p.name != q.name
    ensures
      var cs := PieceAfter(p, q);
      var first := ToolCallComplete(Or(p.id, Fallback(1)), p.name, Or(p.arguments, "{}"));
      var second := ToolCallComplete(Or(q.id, Fallback(0)), q.name, Or(q.arguments, "{}"));
      && NoErrors(cs) && Completes(Streamed(cs)) == [first, second]
      && Entries(Assemble(AllPieces(cs), 2), 0) == [second, first]
  {
    var cs := PieceAfter(p, q);
    hide Completes, Streamed, AllPieces, AtClosing, PieceAfter, NoErrors, Fallback, Entries, EntriesAt, EntriesIn,
         Within, Assemble, CompletionOrder, ListOrder, ClosingOrder, ClosedPieces, Fresh, NameOf;
    PieceAfterRun(p, q);
    assert Within(AllPieces(cs), 2) by { TwoWithin(p, q); }
    StreamCompletes(cs, 2);
    WholeIsListed(cs, 2);
    LateNameOrder(p, q);
    LateNameEntries(p, q);
    assert [CompleteOf(1, CallIn([p], 1))] + [CompleteOf(0, CallIn([q], 0))]
        == [CompleteOf(1, CallIn([p], 1)), CompleteOf(0, CallIn([q], 0))];
    OnePiece(p, 1);
    OnePiece(q, 0);
  }

  lemma {:induction false} TwoWithin(p: Piece, q: Piece)
    requires p.index == 1 && q.index == 0
    ensures Within([p, q], 2)
  {}

  lemma {:induction false} LateNameOrder(p: Piece, q: Piece)
    requires p.index == 1 && q.index == 0 && p.name != "" && q.name != ""
    ensures CompletionOrder(PieceAfter(p, q), 2) == [1, 0] && ListOrder(PieceAfter(p, q), 2) == [0, 1]
  {
    hide AllPieces, ClosedPieces, ClosingOrder, AtClosing, PieceAfter, Fresh, NameOf, NoErrors;
    PieceAfterRun(p, q);
    NamedLast(p, q);
    assert [1] + [0] == [1, 0];
  }

  lemma {:induction false} LateNameEntries(p: Piece, q: Piece)
    requires p.index == 1 && q.index == 0 && p.name != "" && q.name != ""
    ensures
      var cs := PieceAfter(p, q);
      var first, second := CompleteOf(1, CallIn([p], 1)), CompleteOf(0, CallIn([q], 0));
      && EntriesAt(cs, [1, 0]) == [first] + [second]
      && EntriesIn([p, q], [0, 1]) == [second] + [first]
  {
    var cs := PieceAfter(p, q);
    hide AllPieces, ClosedPieces, ClosingOrder, AtClosing, PieceAfter, Fresh, NameOf, NoErrors, CallIn, Entry,
        CompleteOf;
    PieceAfterRun(p, q);
    TwoPieces(p, q, 0);
    TwoPieces(p, q, 1);
    TwoAt(cs, 1, 0);
    TwoIn([p, q], 0, 1);
    NamesOf(p, q);
    EntryOfNamed(1, CallIn([p], 1));
    EntryOfNamed(0, CallIn([q], 0));
  }

  lemma {:induction false} NamesOf(p: Piece, q: Piece)
    requires p.index == 1 && q.index == 0
    ensures NameOf([p], 1) == p.name == CallIn([p], 1).name
    ensures NameOf([p], 0) == "" && CallIn([q], 0).name == q.name
  {
    hide NameOf, IdOf, ArgumentsOf;
    OnePiece(p, 0);
    OnePiece(p, 1);
    OnePiece(q, 0);
  }

  lemma {:induction false} NamedLast(p: Piece, q: Piece)
    requires p.index == 1 && q.index == 0 && p.name != "" && q.name != ""
    ensures Fresh([p], [], 2, 0) == [1]
    ensures Fresh([p, q], [p], 2, 0) == [0]
    ensures Fresh([p, q], [], 2, 0) == [0, 1]
  {
    OnePiece(p, 0);
    OnePiece(p, 1);
    OnePiece(q, 0);
    TwoPieces(p, q, 0);
    TwoPieces(p, q, 1);
    NoNames();
    hide NameOf, IdOf, ArgumentsOf;
    assert forall ps, closed :: Fresh(ps, closed, 2, 2) == [];
    assert Fresh([p], [], 2, 1) == [1] + [];
    assert Fresh([p, q], [p], 2, 1) == [] + [];
    assert Fresh([p, q], [], 2, 1) == [1] + [];
  }

  lemma {:induction false} TwoAt(cs: seq<Chunk>, j: nat, k: nat)
    ensures EntriesAt(cs, [j, k]) == Entry(j, CallIn(AtClosing(cs, j), j)) + Entry(k, CallIn(AtClosing(cs, k), k))
  {
    OneAt(cs, k);
    hide Entry, CallIn, AtClosing;
    assert [j, k][1..] == [k];
  }

  lemma {:induction false} TwoIn(ps: seq<Piece>, j: nat, k: nat)
    ensures EntriesIn(ps, [j, k]) == Entry(j, CallIn(ps, j)) + Entry(k, CallIn(ps, k))
  {
    hide Entry, CallIn;
    assert [j, k][1..] == [k] && [k][1..] == [];
    assert EntriesIn(ps, []) == [];
  }

  lemma {:induction false} OneAt(cs: seq<Chunk>, k: nat)
    ensures EntriesAt(cs, [k]) == Entry(k, CallIn(AtClosing(cs, k), k))
  {
    hide Entry, CallIn, AtClosing;
    assert [k][1..] == [];
    assert EntriesAt(cs, []) == [];
  }
}
