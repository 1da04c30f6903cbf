/**
 Every event of a chat stream, chunk by chunk, from the chunks alone -
 backend/app/integrations/agent_parsers.py.
 */
module ChatEvents {
  import opened Common
  import opened AgentTypes
  import opened ChatStream
  import opened ChatFragments
  import opened ChatClosings

  /** A call starts with its first name, under the identifier it has by then or its fallback. */
  function StartBy(before: seq<Piece>, p: Piece): seq<AgentEvent> {
    if NameOf(before, p.index) != "" || p.name == "" then []
    else
      var id := IdOf(before + [p], p.index);
      [ToolCallStarted(if id != "" then id else Fallback(p.index), p.name)]
  }

  /** The starts that further pieces bring. */
  function StartsFrom(before: seq<Piece>, more: seq<Piece>): seq<AgentEvent> {
    if more == [] then []
    else
      var init := more[..|more| - 1];
      StartsFrom(before, init) + StartBy(before + init, more[|more| - 1])
  }

  /** What one more chunk gives: its text, the calls it starts, and with a finish reason the calls it closes. */
  function ChunkGives(cs: seq<Chunk>, c: Chunk, n: nat): seq<AgentEvent> {
    if !c.DataChunk? || c.choice.None? then []
    else
      var choice := c.choice.value;
      var ps := AllPieces(cs) + choice.pieces;
      (if choice.content == "" then [] else [TextDelta(choice.content, "", 0)])
      + StartsFrom(AllPieces(cs), choice.pieces)
      + if choice.finishReason == "" then [] else EntriesIn(ps, Fresh(ps, ClosedPieces(cs), n, 0))
  }

  function ChunksGive(cs: seq<Chunk>, n: nat): seq<AgentEvent> {
    if cs == [] then [] else ChunksGive(cs[..|cs| - 1], n) + ChunkGives(cs[..|cs| - 1], cs[|cs| - 1], n)
  }

  // ---- starts -----------------------------------------------------------------

  lemma {:induction false} PieceStarts(calls: map<int, Call>, ps: seq<Piece>, p: Piece, closed: iset<int>)
    requires AllHeld(calls, ps, closed)
    ensures AddPiece(calls, p).events == StartBy(ps, p)
  {
    assert IsHeld(calls, ps, closed, p.index);
    if !Mentioned(ps, p.index) { Unmentioned(ps, p.index); }
    FieldsLast(ps, p, p.index);
    SameAppend(NameOf(ps, p.index), p.name);
    hide NameOf, IdOf, ArgumentsOf, Mentioned, Fallback;
  }

  lemma {:induction false} PiecesStart(calls: map<int, Call>, ps: seq<Piece>, more: seq<Piece>, closed: iset<int>)
    requires AllHeld(calls, ps, closed)
    ensures AddPieces(calls, more).events == StartsFrom(ps, more)
  {
    if more != [] {
      var init, p := more[..|more| - 1], more[|more| - 1];
      PiecesStart(calls, ps, init, closed);
      PiecesHeld(calls, ps, init, closed);
      hide AllHeld, AddPiece, StartBy;
      PieceStarts(AddPieces(calls, init).calls, ps + init, p, closed);
    }
  }

  // ---- chunks -----------------------------------------------------------------

  lemma {:induction false} OneChunk(s: State, cs: seq<Chunk>, c: Chunk, n: nat)
    requires c.DataChunk? && AllHeld(s.calls, AllPieces(cs), NamedBy(ClosedPieces(cs)))
    requires Within(AllPieces(cs) + PiecesIn(c), n)
    ensures Given(s, c.choice) == ChunkGives(cs, c, n)
  {
    hide AllHeld, NamedBy, Within, AllPieces, ClosedPieces, StartsFrom, EntriesIn, Fresh, AddPieces, CompleteAll;
    if c.choice.Some? {
      var choice := c.choice.value;
      var ps := AllPieces(cs);
      PiecesStart(s.calls, ps, choice.pieces, NamedBy(ClosedPieces(cs)));
      PiecesHeld(s.calls, ps, choice.pieces, NamedBy(ClosedPieces(cs)));
      ClosingGives(AddPieces(s.calls, choice.pieces).calls, ps + choice.pieces, ClosedPieces(cs), n);
      var out := TextOf(choice) + StartsFrom(ps, choice.pieces);
      assert out + [] == out;
    }
  }

  lemma {:induction false} FeedsGive(cs: seq<Chunk>, n: nat)
    requires NoErrors(cs) && Within(AllPieces(cs), n)
    ensures EventsOf(cs) == ChunksGive(cs, n)
  {
    if cs != [] {
      var init, last := cs[..|cs| - 1], cs[|cs| - 1];
      assert init + [last] == cs;
      WithinInit(init, last, n);
      FeedsGive(init, n);
      RunHeld(init);
      AllPiecesLast(init, last);
      hide AllHeld, NamedBy, AllPieces, ClosedPieces, StateAfter, ChunkGives, Within;
      OneChunk(StateAfter(init), init, last, n);
      RunStep(init, last);
    }
  }

  /** The end of the stream: the last finish reason, or that it was cut off, with the last usage. */
  function EndOf(cs: seq<Chunk>): AgentEvent {
    if ReasonOf(cs) == "" then Finish("eof", true, UsageOf(cs), false)
    else Finish(ReasonOf(cs), ReasonOf(cs) == "length", UsageOf(cs), true)
  }

  /**
   Every event of every stream, in order: chunk by chunk its text, starts and
   completions, then the completions of what is still open, and the end.
   */
  lemma {:induction false} StreamIsExactly(cs: seq<Chunk>, n: nat)
    requires NoErrors(cs) && Within(AllPieces(cs), n)
    ensures Streamed(cs) ==
            ChunksGive(cs, n) + EntriesIn(AllPieces(cs), Fresh(AllPieces(cs), ClosedPieces(cs), n, 0)) + [EndOf(cs)]
  {
    FeedsGive(cs, n);
    RunHeld(cs);
    StreamedFields(cs);
    hide AllHeld, NamedBy, AllPieces, ClosedPieces, StateAfter, ChunksGive, Within, EventsOf, ReasonOf, UsageOf, Fresh,
         EntriesIn, CompleteAll, Texts, AllContent;
    ClosingGives(StateAfter(cs).calls, AllPieces(cs), ClosedPieces(cs), n);
  }
}
