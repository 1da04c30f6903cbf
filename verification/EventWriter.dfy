/**
 The single writer of an Agent message: blocks, streamed text, and the event log
 clients replay - backend/app/services/agent_event_writer.py, with the replay of
 frontend/src/lib/utils/agentBlocks.ts.
 */
module EventWriter {
  import opened Common
  import opened Text

  const TEXT_FLUSH_CHARS := 256
  const EVENT_FLUSH_MAX := 16

  datatype Block = TextBlock(id: string, text: string) | OtherBlock(id: string, kind: string, body: string)

  datatype Event =
    | BlockUpsert(block: Block)
    | BlockText(blockId: string, delta: string)
    | TurnEvent(name: string, data: string)

  /** One row of the event table. */
  datatype StoredEvent = StoredEvent(number: nat, event: Event)

  // ---- what a client does with the events -------------------------------------

  /** Replace the first block with this identifier, or append. */
  function Upsert(blocks: seq<Block>, block: Block): seq<Block> {
    if blocks == [] then [block]
    else if blocks[0].id == block.id then [block] + blocks[1..]
    else [blocks[0]] + Upsert(blocks[1..], block)
  }

  /** Append to the first text block with this identifier, or start one. */
  function AddDelta(blocks: seq<Block>, id: string, delta: string): seq<Block> {
    if blocks == [] then [TextBlock(id, delta)]
    else if blocks[0].id == id && blocks[0].TextBlock? then [TextBlock(id, blocks[0].text + delta)] + blocks[1..]
    else [blocks[0]] + AddDelta(blocks[1..], id, delta)
  }

  function Apply(blocks: seq<Block>, e: Event): seq<Block> {
    match e
    case BlockUpsert(block) => Upsert(blocks, block)
    case BlockText(id, delta) => AddDelta(blocks, id, delta)
    case TurnEvent(_, _) => blocks
  }

  function Replay(events: seq<Event>): seq<Block> {
    if events == [] then [] else Apply(Replay(events[..|events| - 1]), events[|events| - 1])
  }

  lemma {:induction false} ReplayOne(events: seq<Event>, e: Event)
    ensures Replay(events + [e]) == Apply(Replay(events), e)
  {
    assert (events + [e])[..|events|] == events;
  }

  // ---- numbering --------------------------------------------------------------

  function Numbered(events: seq<Event>, first: nat): (rows: seq<StoredEvent>)
    ensures |rows| == |events|
  {
    seq(|events|, i requires 0 <= i < |events| => StoredEvent(first + i, events[i]))
  }

  lemma {:induction false} NumberedAppend(a: seq<Event>, b: seq<Event>, first: nat)
    ensures Numbered(a + b, first) == Numbered(a, first) + Numbered(b, first + |a|)
  {}

  lemma {:induction false} NumberedNone(first: nat)
    ensures Numbered([], first) == []
  {}

  /** `SELECT COALESCE(MAX(seq), 0)`. */
  function LastNumber(rows: seq<StoredEvent>): nat {
    if rows == [] then 0 else Max(rows[0].number, LastNumber(rows[1..]))
  }

  lemma {:induction false} LastIsLargest(rows: seq<StoredEvent>)
    ensures forall i :: 0 <= i < |rows| ==> rows[i].number <= LastNumber(rows)
    ensures LastNumber(rows) == 0 || exists i :: 0 <= i < |rows| && rows[i].number == LastNumber(rows)
  {
    if rows != [] {
      LastIsLargest(rows[1..]);
      assert forall i :: 0 < i < |rows| ==> rows[i] == rows[1..][i - 1];
      if LastNumber(rows) != rows[0].number && LastNumber(rows) != 0 {
        var i :| 0 <= i < |rows[1..]| && rows[1..][i].number == LastNumber(rows[1..]);
        assert rows[i + 1].number == LastNumber(rows);
      }
    }
  }

  /** The event table of one turn. An append is one transaction: all of it or none of it. */
  class EventLog {
    var rows: seq<StoredEvent>

    constructor (rows: seq<StoredEvent>)
      ensures this.rows == rows
    {
      this.rows := rows;
    }

    method ReadCursor() returns (last: nat)
      ensures last == LastNumber(rows)
      ensures (forall i :: 0 <= i < |rows| ==> rows[i].number <= last)
      ensures last == 0 || exists i :: 0 <= i < |rows| && rows[i].number == last
    {
      LastIsLargest(rows);
      last := 0;
      assert rows[0..] == rows;
      for i := 0 to |rows|
        invariant Max(last, LastNumber(rows[i..])) == LastNumber(rows)
      {
        assert rows[i..][1..] == rows[i + 1..];
        last := Max(last, rows[i].number);
      }
    }

    /** None is a failed write, which may happen at any time. */
    method Append(events: seq<Event>, first: nat) returns (last: Option<nat>)
      requires events != []
      modifies this
      ensures last.None? ==> rows == old(rows)
      ensures last.Some? ==> rows == old(rows) + Numbered(events, first) && last.value == first + |events| - 1
    {
      if * {
        return None;
      }
      rows := rows + Numbered(events, first);
      last := Some(first + |events| - 1);
    }
  }

  // ---- block identifiers ------------------------------------------------------

  function BlockId(prefix: char, n: nat): string { [prefix] + Decimal(n) }

  /** The identifier was handed out by `next_block_id` no later than number `n`. */
  ghost predicate Issued(id: string, n: nat) {
    exists prefix: char, k: nat :: k <= n && id == BlockId(prefix, k)
  }

  lemma {:induction false} NextIsFresh(prefix: char, n: nat)
    ensures !Issued(BlockId(prefix, n + 1), n)
  {
    forall p: char, k: nat | k <= n
      ensures BlockId(prefix, n + 1) != BlockId(p, k)
    {
      if BlockId(prefix, n + 1) == BlockId(p, k) {
        assert Decimal(n + 1) == BlockId(prefix, n + 1)[1..] == BlockId(p, k)[1..] == Decimal(k);
        DecimalInjective(n + 1, k);
      }
    }
  }

  // ---- replay facts -----------------------------------------------------------

  ghost predicate DistinctIds(blocks: seq<Block>) {
    forall i, j :: 0 <= i < j < |blocks| ==> blocks[i].id != blocks[j].id
  }

  ghost predicate HasText(blocks: seq<Block>, id: string) {
    exists i :: 0 <= i < |blocks| && blocks[i].TextBlock? && blocks[i].id == id
  }

  ghost predicate AllIssued(blocks: seq<Block>, n: nat) {
    forall i :: 0 <= i < |blocks| ==> Issued(blocks[i].id, n)
  }

  /** Open text that has not been sent yet, added to what the events say. */
  function WithPending(blocks: seq<Block>, open: Option<string>, pending: string): seq<Block> {
    if open.Some? && pending != "" then AddDelta(blocks, open.value, pending) else blocks
  }

  lemma {:induction false} DistinctTail(blocks: seq<Block>)
    requires blocks != [] && DistinctIds(blocks)
    ensures DistinctIds(blocks[1..]) && forall b :: b in blocks[1..] ==> b.id != blocks[0].id
  {}

  lemma {:induction false} DistinctCons(block: Block, blocks: seq<Block>)
    requires DistinctIds(blocks) && forall b :: b in blocks ==> b.id != block.id
    ensures DistinctIds([block] + blocks)
  {}

  /** An upsert keeps the other blocks and adds at most its own identifier. */
  lemma {:induction false} UpsertIds(blocks: seq<Block>, block: Block)
    requires DistinctIds(blocks)
    ensures DistinctIds(Upsert(blocks, block))
    ensures forall b :: b in Upsert(blocks, block) ==> b == block || (b in blocks && b.id != block.id)
  {
    if blocks != [] {
      DistinctTail(blocks);
      hide DistinctIds;
      if blocks[0].id == block.id {
        DistinctCons(block, blocks[1..]);
      } else {
        UpsertIds(blocks[1..], block);
        DistinctCons(blocks[0], Upsert(blocks[1..], block));
      }
    }
  }

  /** Text deltas commute with upserts of other blocks once the text block is there. */
  lemma {:induction false} DeltaUpsertCommute(blocks: seq<Block>, id: string, delta: string, block: Block)
    requires HasText(blocks, id) && block.id != id
    ensures AddDelta(Upsert(blocks, block), id, delta) == Upsert(AddDelta(blocks, id, delta), block)
  {
    if blocks[0].id == block.id {
      assert ([block] + blocks[1..])[1..] == blocks[1..];
    } else if blocks[0].id == id && blocks[0].TextBlock? {
      assert ([blocks[0]] + Upsert(blocks[1..], block))[1..] == Upsert(blocks[1..], block);
    } else {
      HasTextTail(blocks, id);
      DeltaUpsertCommute(blocks[1..], id, delta, block);
      assert ([blocks[0]] + Upsert(blocks[1..], block))[1..] == Upsert(blocks[1..], block);
      assert ([blocks[0]] + AddDelta(blocks[1..], id, delta))[1..] == AddDelta(blocks[1..], id, delta);
    }
  }

  lemma {:induction false} HasTextTail(blocks: seq<Block>, id: string)
    requires HasText(blocks, id) && !(blocks[0].TextBlock? && blocks[0].id == id)
    ensures HasText(blocks[1..], id)
  {
    var i :| 0 <= i < |blocks| && blocks[i].TextBlock? && blocks[i].id == id;
    assert blocks[1..][i - 1] == blocks[i];
  }

  lemma {:induction false} DeltasJoin(blocks: seq<Block>, id: string, a: string, b: string)
    requires HasText(blocks, id)
    ensures AddDelta(AddDelta(blocks, id, a), id, b) == AddDelta(blocks, id, a + b)
  {
    if blocks[0].id == id && blocks[0].TextBlock? {
      assert blocks[0].text + a + b == blocks[0].text + (a + b);
    } else {
      HasTextTail(blocks, id);
      DeltasJoin(blocks[1..], id, a, b);
    }
  }

  /** A delta changes the text of one block and no identifier. */
  lemma {:induction false} DeltaIds(blocks: seq<Block>, id: string, delta: string)
    requires HasText(blocks, id)
    ensures |AddDelta(blocks, id, delta)| == |blocks|
    ensures forall i :: 0 <= i < |blocks| ==>
              AddDelta(blocks, id, delta)[i].id == blocks[i].id &&
              AddDelta(blocks, id, delta)[i].TextBlock? == blocks[i].TextBlock?
    ensures delta != "" ==> AddDelta(blocks, id, delta) != blocks
  {
    if blocks[0].id == id && blocks[0].TextBlock? {
      assert delta != "" ==> |blocks[0].text + delta| != |blocks[0].text|;
    } else {
      HasTextTail(blocks, id);
      DeltaIds(blocks[1..], id, delta);
    }
  }

  // ---- the writer -------------------------------------------------------------

  lemma {:induction false} UpsertAt(blocks: seq<Block>, block: Block, i: nat)
    requires i <= |blocks| && forall k :: 0 <= k < i ==> blocks[k].id != block.id
    requires i < |blocks| ==> blocks[i].id == block.id
    ensures Upsert(blocks, block) == if i < |blocks| then blocks[i := block] else blocks + [block]
  {
    if i > 0 {
      UpsertAt(blocks[1..], block, i - 1);
    } else if blocks != [] {
      assert blocks[0 := block] == [block] + blocks[1..];
    }
  }

  lemma {:induction false} UpsertKeepsText(blocks: seq<Block>, id: string, block: Block)
    requires HasText(blocks, id) && block.id != id
    ensures HasText(Upsert(blocks, block), id)
  {
    var i :| 0 <= i < |blocks| && blocks[i].TextBlock? && blocks[i].id == id;
    if blocks[0].id == block.id {
      assert Upsert(blocks, block)[i] == blocks[i];
    } else if i == 0 {
      assert Upsert(blocks, block)[0] == blocks[0];
    } else {
      assert blocks[1..][i - 1] == blocks[i];
      UpsertKeepsText(blocks[1..], id, block);
      var k :| 0 <= k < |Upsert(blocks[1..], block)| && Upsert(blocks[1..], block)[k].TextBlock?
               && Upsert(blocks[1..], block)[k].id == id;
      assert Upsert(blocks, block)[k + 1] == Upsert(blocks[1..], block)[k];
    }
  }

  lemma {:induction false} DeltaKeepsText(blocks: seq<Block>, id: string, delta: string)
    requires HasText(blocks, id)
    ensures HasText(AddDelta(blocks, id, delta), id)
  {
    DeltaIds(blocks, id, delta);
    var i :| 0 <= i < |blocks| && blocks[i].TextBlock? && blocks[i].id == id;
    assert AddDelta(blocks, id, delta)[i].TextBlock?;
  }

  lemma {:induction false} IssuedStays(blocks: seq<Block>, n: nat)
    requires AllIssued(blocks, n)
    ensures AllIssued(blocks, n + 1)
  {}

  // ---- the message as a value -------------------------------------------------

  /** The part of the writer that a replay has to reproduce. */
  datatype Message = Message(
    blocks: seq<Block>, blockSeq: nat, textBlock: Option<string>, pendingText: string, emitted: seq<Event>)

  ghost predicate BlocksOk(m: Message) {
    && DistinctIds(m.blocks) && AllIssued(m.blocks, m.blockSeq)
    && (m.textBlock.Some? ==> HasText(m.blocks, m.textBlock.value))
    && (m.pendingText != "" ==> m.textBlock.Some?)
  }

  /** The replayed events, plus the text not sent yet, are the blocks. */
  ghost predicate ReplayOk(m: Message) {
    && WithPending(Replay(m.emitted), m.textBlock, m.pendingText) == m.blocks
    && (m.textBlock.Some? ==> HasText(Replay(m.emitted), m.textBlock.value))
  }

  /** With nothing pending, replaying the emitted events gives the message exactly. */
  lemma {:induction false} ReplayIsMessage(m: Message)
    requires ReplayOk(m) && m.pendingText == ""
    ensures Replay(m.emitted) == m.blocks
  {}

  function Emitted(m: Message, e: Event, lost: bool): Message {
    if lost then m else m.(emitted := m.emitted + [e])
  }

  function Published(m: Message, block: Block, lost: bool): Message {
    Emitted(m.(blocks := Upsert(m.blocks, block)), BlockUpsert(block), lost)
  }

  function WithOpenBlock(m: Message, lost: bool): Message {
    if m.textBlock.Some? then m
    else
      var id := BlockId('t', m.blockSeq + 1);
      Published(m.(blockSeq := m.blockSeq + 1, textBlock := Some(id)), TextBlock(id, ""), lost)
  }

  function Grown(m: Message, text: string): Message {
    if m.textBlock.None? then m
    else m.(blocks := AddDelta(m.blocks, m.textBlock.value, text), pendingText := m.pendingText + text)
  }

  function Flushed(m: Message, lost: bool): Message {
    if m.pendingText == "" || m.textBlock.None? then m
    else Emitted(m.(pendingText := ""), BlockText(m.textBlock.value, m.pendingText), lost)
  }

  /** How far `add_text` got: nothing done, a block opened, the text stored, or the text sent as well. */
  datatype Progress = Untouched | BlockOpened | TextStored | TextSent

  function Added(m: Message, text: string, progress: Progress, lost: bool): Message {
    match progress
    case Untouched => m
    case BlockOpened => WithOpenBlock(m, lost)
    case TextStored => Grown(WithOpenBlock(m, lost), text)
    case TextSent => Flushed(Grown(WithOpenBlock(m, lost), text), lost)
  }

  lemma {:induction false} AddedOk(m: Message, text: string, progress: Progress, lost: bool)
    requires BlocksOk(m) && text != ""
    ensures BlocksOk(Added(m, text, progress, lost))
    ensures ReplayOk(m) && !lost ==> ReplayOk(Added(m, text, progress, lost))
  {
    hide BlocksOk, ReplayOk, WithOpenBlock, Grown, Flushed;
    OpenOk(m, lost);
    GrownOk(WithOpenBlock(m, lost), text);
    FlushedOk(Grown(WithOpenBlock(m, lost), text), lost);
  }

  function Closed(m: Message): Message { m.(textBlock := None) }

  /** Publishing another block keeps the message sound and replayable. */
  lemma {:induction false} PublishedOk(m: Message, block: Block, lost: bool)
    requires BlocksOk(m) && Issued(block.id, m.blockSeq) && m.textBlock != Some(block.id)
    ensures BlocksOk(Published(m, block, lost))
    ensures ReplayOk(m) && !lost ==> ReplayOk(Published(m, block, lost))
  {
    UpsertIds(m.blocks, block);
    if m.textBlock.Some? { UpsertKeepsText(m.blocks, m.textBlock.value, block); }
    hide Upsert, AddDelta, HasText;
    forall i | 0 <= i < |Upsert(m.blocks, block)|
      ensures Issued(Upsert(m.blocks, block)[i].id, m.blockSeq)
    {
      assert Upsert(m.blocks, block)[i] in Upsert(m.blocks, block);
    }
    if ReplayOk(m) && !lost {
      ReplayOne(m.emitted, BlockUpsert(block));
      if m.textBlock.Some? {
        DeltaUpsertCommute(Replay(m.emitted), m.textBlock.value, m.pendingText, block);
        UpsertKeepsText(Replay(m.emitted), m.textBlock.value, block);
      }
    }
  }

  /** Opening a text block keeps the message sound and replayable. */
  lemma {:induction false} OpenOk(m: Message, lost: bool)
    requires BlocksOk(m)
    ensures BlocksOk(WithOpenBlock(m, lost)) && WithOpenBlock(m, lost).textBlock.Some?
    ensures ReplayOk(m) && !lost ==> ReplayOk(WithOpenBlock(m, lost))
    ensures m.textBlock.None? ==>
              WithOpenBlock(m, lost).blocks == m.blocks + [TextBlock(BlockId('t', m.blockSeq + 1), "")]
  {
    if m.textBlock.None? {
      OpenBlocks(m, lost);
      if ReplayOk(m) && !lost { OpenReplay(m); }
      hide BlocksOk, ReplayOk, WithOpenBlock;
    }
  }

  lemma {:induction false} OpenBlocks(m: Message, lost: bool)
    requires BlocksOk(m) && m.textBlock.None?
    ensures BlocksOk(WithOpenBlock(m, lost)) && WithOpenBlock(m, lost).textBlock.Some?
    ensures WithOpenBlock(m, lost).blocks == m.blocks + [TextBlock(BlockId('t', m.blockSeq + 1), "")]
  {
    var id := BlockId('t', m.blockSeq + 1);
    var block := TextBlock(id, "");
    UpsertNew(m, id, block);
    hide Upsert, Replay;
    IssuedStays(m.blocks, m.blockSeq);
    assert (m.blocks + [block])[|m.blocks|] == block;
    assert Issued(id, m.blockSeq + 1);
  }

  lemma {:induction false} OpenReplay(m: Message)
    requires BlocksOk(m) && ReplayOk(m) && m.textBlock.None?
    ensures ReplayOk(WithOpenBlock(m, false))
  {
    var id := BlockId('t', m.blockSeq + 1);
    var block := TextBlock(id, "");
    UpsertNew(m, id, block);
    ReplayOne(m.emitted, BlockUpsert(block));
    hide Upsert, Replay, BlocksOk, BlockId;
    assert (m.blocks + [block])[|m.blocks|] == block;
  }

  /** A block under the next identifier is appended. */
  lemma {:induction false} UpsertNew(m: Message, id: string, block: Block)
    requires BlocksOk(m) && id == BlockId('t', m.blockSeq + 1) && block.id == id
    ensures Upsert(m.blocks, block) == m.blocks + [block]
    ensures forall i :: 0 <= i < |m.blocks| ==> m.blocks[i].id != id
  {
    NextIsFresh('t', m.blockSeq);
    forall i | 0 <= i < |m.blocks|
      ensures m.blocks[i].id != id
    {
      assert Issued(m.blocks[i].id, m.blockSeq);
    }
    UpsertAt(m.blocks, block, |m.blocks|);
  }

  /** Text added to the open block and to the pending text keeps the replay in step. */
  lemma {:induction false} GrownOk(m: Message, text: string)
    requires BlocksOk(m) && m.textBlock.Some? && text != ""
    ensures BlocksOk(Grown(m, text))
    ensures ReplayOk(m) ==> ReplayOk(Grown(m, text))
  {
    var id := m.textBlock.value;
    DeltaIds(m.blocks, id, text);
    DeltaKeepsText(m.blocks, id, text);
    hide AddDelta, Replay, HasText;
    if ReplayOk(m) {
      if m.pendingText == "" {
        assert "" + text == text;
      } else {
        DeltasJoin(Replay(m.emitted), id, m.pendingText, text);
      }
    }
  }

  /** Sending the pending text makes the replay complete. */
  lemma {:induction false} FlushedOk(m: Message, lost: bool)
    requires BlocksOk(m)
    ensures BlocksOk(Flushed(m, lost)) && Flushed(m, lost).pendingText == ""
    ensures ReplayOk(m) && !lost ==> ReplayOk(Flushed(m, lost))
  {
    if m.pendingText != "" && ReplayOk(m) && !lost {
      ReplayOne(m.emitted, BlockText(m.textBlock.value, m.pendingText));
      DeltaKeepsText(Replay(m.emitted), m.textBlock.value, m.pendingText);
    }
  }

  /**
   Closing the text segment keeps the replay in step exactly when no text is
   pending; pending text of a closed segment would be sent for the next one.
   */
  lemma {:induction false} ClosedExact(m: Message)
    requires BlocksOk(m) && ReplayOk(m)
    ensures BlocksOk(Closed(m)) && ReplayOk(Closed(m)) <==> m.pendingText == ""
  {}

  // ---- whole runs -------------------------------------------------------------

  /** One change of the message, as far as it got before an append failed. */
  datatype Change =
    | NextId
    | Publish(block: Block)
    | OpenText
    | AddText(text: string, progress: Progress)
    | SendText
    | EndSegment
    | Announce(name: string, data: string)

  /** The message after a change; without the lease nothing is emitted. */
  function Applied(m: Message, c: Change, lost: bool): Message {
    match c
    case NextId => m.(blockSeq := m.blockSeq + 1)
    case Publish(block) => Published(m, block, lost)
    case OpenText => WithOpenBlock(m, lost)
    case AddText(text, progress) => if text == "" then m else Added(m, text, progress, lost)
    case SendText => Flushed(m, lost)
    case EndSegment => Closed(Flushed(m, lost))
    case Announce(name, data) => Emitted(m, TurnEvent(name, data), lost)
  }

  function Changed(m: Message, c: Change): Message { Applied(m, c, false) }

  /** The message after a history of changes. */
  function Written(cs: seq<Change>): Message {
    if cs == [] then Message([], 0, None, "", []) else Changed(Written(cs[..|cs| - 1]), cs[|cs| - 1])
  }

  /** A published block has an identifier handed out before, and not that of the open text block. */
  ghost predicate Proper(m: Message, c: Change) {
    c.Publish? ==> Issued(c.block.id, m.blockSeq) && m.textBlock != Some(c.block.id)
  }

  ghost predicate AllProper(cs: seq<Change>) {
    forall i :: 0 <= i < |cs| ==> Proper(Written(cs[..i]), cs[i])
  }

  lemma {:induction false} ChangeOk(m: Message, c: Change)
    requires BlocksOk(m) && ReplayOk(m) && Proper(m, c)
    ensures BlocksOk(Changed(m, c)) && ReplayOk(Changed(m, c))
  {
    hide BlocksOk, ReplayOk, Published, WithOpenBlock, Added, Flushed, Closed, Issued;
    match c
    case NextId =>
      NextIssued(m, false, 't');
    case Publish(block) =>
      PublishedOk(m, block, false);
    case OpenText =>
      OpenOk(m, false);
    case AddText(text, progress) =>
      if text != "" { AddedOk(m, text, progress, false); }
    case SendText =>
      FlushedOk(m, false);
    case EndSegment =>
      FlushedOk(m, false);
      ClosedExact(Flushed(m, false));
    case Announce(name, data) =>
      AnnouncedOk(m, TurnEvent(name, data), false);
  }

  lemma {:induction false} AnnouncedOk(m: Message, e: Event, lost: bool)
    requires BlocksOk(m) && e.TurnEvent?
    ensures BlocksOk(Emitted(m, e, lost)) && (ReplayOk(m) ==> ReplayOk(Emitted(m, e, lost)))
  {
    hide AddDelta, Replay;
    ReplayOne(m.emitted, e);
  }

  lemma {:induction false} HistoryOk(cs: seq<Change>)
    requires AllProper(cs)
    ensures BlocksOk(Written(cs)) && ReplayOk(Written(cs))
  {
    if cs != [] {
      hide Changed, BlocksOk, ReplayOk, Proper;
      var init := cs[..|cs| - 1];
      forall i | 0 <= i < |init|
        ensures Proper(Written(init[..i]), init[i])
      {
        assert init[..i] == cs[..i] && init[i] == cs[i];
      }
      HistoryOk(init);
      ChangeOk(Written(init), cs[|cs| - 1]);
    }
  }

  /**
   After any history of block publications, text, segment ends, errors and turn
   events, each broken off anywhere a write may fail: the events a client has, the
   pending text included, give exactly the blocks, whose identifiers are distinct;
   and once the pending text is sent the events alone do.
   */
  lemma {:induction false} HistoryReplays(cs: seq<Change>)
    requires AllProper(cs)
    ensures
      var m := Written(cs);
      && WithPending(Replay(m.emitted), m.textBlock, m.pendingText) == m.blocks && DistinctIds(m.blocks)
      && Replay(Flushed(m, false).emitted) == m.blocks
  {
    hide Written, AddDelta, HasText, AllIssued;
    HistoryOk(cs);
    FlushedOk(Written(cs), false);
    ReplayIsMessage(Flushed(Written(cs), false));
  }

  // ---- what the blocks hold ---------------------------------------------------

  /** The texts of the text blocks, in block order. */
  function TextsIn(blocks: seq<Block>): seq<string> {
    if blocks == [] then []
    else (if blocks[0].TextBlock? then [blocks[0].text] else []) + TextsIn(blocks[1..])
  }

  /** What was said: one text per segment, and whether the last segment goes on. */
  datatype Said = Said(segments: seq<string>, open: bool)

  function Begun(d: Said): Said { if d.open then d else Said(d.segments + [""], true) }

  function Longer(d: Said, text: string): Said {
    if d.segments == [] then d
    else Said(d.segments[..|d.segments| - 1] + [d.segments[|d.segments| - 1] + text], d.open)
  }

  /** What one change does to what was said. */
  function Says(d: Said, c: Change): Said {
    match c
    case OpenText => Begun(d)
    case AddText(text, progress) =>
      if text == "" || progress.Untouched? then d
      else if progress.BlockOpened? then Begun(d)
      else Longer(Begun(d), text)
    case EndSegment => d.(open := false)
    case _ => d
  }

  /** The segments of a history, from the texts that were given alone. */
  function Spoken(cs: seq<Change>): Said {
    if cs == [] then Said([], false) else Says(Spoken(cs[..|cs| - 1]), cs[|cs| - 1])
  }

  /** Callers publish blocks of their own kinds, never in place of a text block. */
  ghost predicate Own(m: Message, c: Change) {
    c.Publish? ==>
      c.block.OtherBlock? && forall i :: 0 <= i < |m.blocks| && m.blocks[i].TextBlock? ==> m.blocks[i].id != c.block.id
  }

  ghost predicate AllOwn(cs: seq<Change>) {
    forall i :: 0 <= i < |cs| ==> Own(Written(cs[..i]), cs[i])
  }

  /** The last text block has this identifier. */
  predicate LastText(blocks: seq<Block>, id: string) {
    blocks != [] &&
    if blocks[0].TextBlock? && TextsIn(blocks[1..]) == [] then blocks[0].id == id else LastText(blocks[1..], id)
  }

  /** The blocks hold what was said, and the open block is the last text block. */
  ghost predicate Holds(m: Message, d: Said) {
    && TextsIn(m.blocks) == d.segments && (m.textBlock.Some? <==> d.open)
    && (m.textBlock.Some? ==> LastText(m.blocks, m.textBlock.value))
  }

  lemma {:induction false} LastTextThere(blocks: seq<Block>, id: string)
    requires LastText(blocks, id)
    ensures TextsIn(blocks) != [] && exists i :: 0 <= i < |blocks| && blocks[i].TextBlock? && blocks[i].id == id
  {
    if !(blocks[0].TextBlock? && TextsIn(blocks[1..]) == []) {
      LastTextThere(blocks[1..], id);
      var i :| 0 <= i < |blocks[1..]| && blocks[1..][i].TextBlock? && blocks[1..][i].id == id;
      assert blocks[i + 1] == blocks[1..][i];
    }
  }

  lemma {:induction false} TextsCons(head: Block, tail: seq<Block>)
    ensures TextsIn([head] + tail) == (if head.TextBlock? then [head.text] else []) + TextsIn(tail)
    ensures forall id :: LastText([head] + tail, id) <==>
                           if head.TextBlock? && TextsIn(tail) == [] then head.id == id else LastText(tail, id)
  {
    assert ([head] + tail)[1..] == tail;
  }

  lemma {:induction false} LongerTail(head: seq<string>, tail: seq<string>, text: string)
    requires tail != []
    ensures Longer(Said(head + tail, true), text).segments == head + Longer(Said(tail, true), text).segments
  {
    var all := head + tail;
    assert all[..|all| - 1] == head + tail[..|tail| - 1];
  }

  lemma {:induction false} LongerOne(one: string, text: string)
    ensures Longer(Said([one], true), text).segments == [one + text]
  {
    assert [one][..0] == [];
  }

  /** A delta to the last text block makes the last text longer. */
  lemma {:induction false} DeltaTexts(blocks: seq<Block>, id: string, text: string)
    requires DistinctIds(blocks) && LastText(blocks, id)
    ensures TextsIn(AddDelta(blocks, id, text)) == Longer(Said(TextsIn(blocks), true), text).segments
    ensures LastText(AddDelta(blocks, id, text), id)
  {
    LastTextThere(blocks, id);
    var head, tail := blocks[0], blocks[1..];
    assert blocks == [head] + tail;
    TextsCons(head, tail);
    hide TextsIn, LastText, Longer;
    assert [] + TextsIn(tail) == TextsIn(tail);
    if head.TextBlock? && TextsIn(tail) == [] {
      TextsCons(TextBlock(id, head.text + text), tail);
      LongerOne(head.text, text);
      assert [head.text] + [] == [head.text] && [head.text + text] + [] == [head.text + text];
    } else {
      LastTextThere(tail, id);
      DistinctTail(blocks);
      assert head.id != id;
      DeltaTexts(tail, id, text);
      LastTextThere(AddDelta(tail, id, text), id);
      TextsCons(head, AddDelta(tail, id, text));
      LongerTail(if head.TextBlock? then [head.text] else [], TextsIn(tail), text);
    }
  }

  ghost predicate NoTextWith(blocks: seq<Block>, id: string) {
    forall i :: 0 <= i < |blocks| && blocks[i].TextBlock? ==> blocks[i].id != id
  }

  /** A block of another kind leaves the texts as they are. */
  lemma {:induction false} OtherTexts(blocks: seq<Block>, block: Block)
    requires block.OtherBlock? && NoTextWith(blocks, block.id)
    ensures TextsIn(Upsert(blocks, block)) == TextsIn(blocks)
    ensures forall id :: LastText(blocks, id) ==> LastText(Upsert(blocks, block), id)
  {
    if blocks == [] {
      assert [block] + [] == [block];
      TextsCons(block, []);
    } else {
      var head, tail := blocks[0], blocks[1..];
      assert blocks == [head] + tail;
      TextsCons(head, tail);
      hide TextsIn, LastText;
      if head.id == block.id {
        TextsCons(block, tail);
      } else {
        assert NoTextWith(tail, block.id) by {
          assert forall i :: 0 <= i < |tail| ==> tail[i] == blocks[i + 1];
        }
        OtherTexts(tail, block);
        TextsCons(head, Upsert(tail, block));
      }
    }
  }

  lemma {:induction false} NewText(blocks: seq<Block>, id: string)
    ensures TextsIn(blocks + [TextBlock(id, "")]) == TextsIn(blocks) + [""]
    ensures LastText(blocks + [TextBlock(id, "")], id)
  {
    var block := TextBlock(id, "");
    if blocks == [] {
      assert blocks + [block] == [block] + [];
      TextsCons(block, []);
    } else {
      var head, tail := blocks[0], blocks[1..];
      NewText(tail, id);
      assert blocks == [head] + tail && blocks + [block] == [head] + (tail + [block]);
      TextsCons(head, tail);
      TextsCons(head, tail + [block]);
      hide TextsIn, LastText;
    }
  }

  lemma {:induction false} BegunHolds(m: Message, d: Said, lost: bool)
    requires BlocksOk(m) && Holds(m, d)
    ensures Holds(WithOpenBlock(m, lost), Begun(d))
  {
    hide TextsIn, LastText, BlocksOk, HasText, Upsert;
    OpenOk(m, lost);
    if m.textBlock.None? { NewText(m.blocks, BlockId('t', m.blockSeq + 1)); }
  }

  lemma {:induction false} LongerHolds(m: Message, d: Said, text: string)
    requires BlocksOk(m) && Holds(m, d) && d.open
    ensures Holds(Grown(m, text), Longer(d, text))
  {
    DeltaTexts(m.blocks, m.textBlock.value, text);
    LastTextThere(m.blocks, m.textBlock.value);
    hide TextsIn, LastText, AddDelta;
    assert d == Said(TextsIn(m.blocks), true);
  }

  lemma {:induction false} FlushedHolds(m: Message, d: Said, lost: bool)
    requires Holds(m, d)
    ensures Holds(Flushed(m, lost), d) && Holds(Closed(Flushed(m, lost)), d.(open := false))
  {
    hide TextsIn, LastText;
  }

  lemma {:induction false} ChangeHolds(m: Message, d: Said, c: Change, lost: bool)
    requires BlocksOk(m) && Holds(m, d) && Own(m, c)
    ensures Holds(Applied(m, c, lost), Says(d, c))
  {
    hide BlocksOk, TextsIn, LastText, Flushed, Grown, WithOpenBlock, Begun, Longer, Upsert;
    match c
    case NextId =>
    case Publish(block) => OtherTexts(m.blocks, block);
    case OpenText => BegunHolds(m, d, lost);
    case AddText(text, progress) =>
      if text != "" {
        BegunHolds(m, d, lost);
        OpenOk(m, lost);
        var begun := WithOpenBlock(m, lost);
        LongerHolds(begun, Begun(d), text);
        FlushedHolds(Grown(begun, text), Longer(Begun(d), text), lost);
      }
    case SendText => FlushedHolds(m, d, lost);
    case EndSegment => FlushedHolds(m, d, lost);
    case Announce(_, _) =>
  }

  /**
   The blocks of a message hold exactly what was said: after any history each text
   block is one segment, in order, and its text is the texts given for it, joined;
   a client that replays the events once the text is sent shows the same.
   */
  lemma {:induction false} TextsAreSegments(cs: seq<Change>)
    requires AllProper(cs) && AllOwn(cs)
    ensures TextsIn(Written(cs).blocks) == Spoken(cs).segments
    ensures TextsIn(Replay(Flushed(Written(cs), false).emitted)) == Spoken(cs).segments
    ensures Written(cs).textBlock.Some? <==> Spoken(cs).open
  {
    HistoryReplays(cs);
    HistoryHolds(cs);
    hide Written, Spoken, TextsIn, Replay, LastText;
  }

  lemma {:induction false} HistoryHolds(cs: seq<Change>)
    requires AllProper(cs) && AllOwn(cs)
    ensures Holds(Written(cs), Spoken(cs))
  {
    if cs != [] {
      var init, last := cs[..|cs| - 1], cs[|cs| - 1];
      hide Applied, BlocksOk, Proper, Own, Holds, Says;
      forall i | 0 <= i < |init|
        ensures Proper(Written(init[..i]), init[i]) && Own(Written(init[..i]), init[i])
      {
        assert init[..i] == cs[..i] && init[i] == cs[i];
      }
      HistoryHolds(init);
      HistoryOk(init);
      ChangeHolds(Written(init), Spoken(init), last, false);
    } else {
      assert TextsIn([]) == [];
    }
  }

  /** The block last published under an identifier. */
  function LastPublished(cs: seq<Change>, id: string): Option<Block> {
    if cs == [] then None
    else
      var c := cs[|cs| - 1];
      if c.Publish? && c.block.id == id then Some(c.block) else LastPublished(cs[..|cs| - 1], id)
  }

  lemma {:induction false} UpsertHas(blocks: seq<Block>, block: Block, b: Block)
    requires DistinctIds(blocks)
    ensures b in Upsert(blocks, block) <==> if b.id == block.id then b == block else b in blocks
  {
    if blocks != [] {
      var head, tail := blocks[0], blocks[1..];
      DistinctTail(blocks);
      assert blocks == [head] + tail;
      hide DistinctIds;
      if head.id != block.id { UpsertHas(tail, block, b); }
    }
  }

  lemma {:induction false} DeltaHas(blocks: seq<Block>, id: string, text: string, b: Block)
    requires HasText(blocks, id) && b.OtherBlock?
    ensures b in AddDelta(blocks, id, text) <==> b in blocks
  {
    var head, tail := blocks[0], blocks[1..];
    assert blocks == [head] + tail;
    if !(head.id == id && head.TextBlock?) {
      HasTextTail(blocks, id);
      DeltaHas(tail, id, text, b);
    }
  }

  lemma {:induction false} OthersStep(m: Message, c: Change, lost: bool, b: Block)
    requires BlocksOk(m) && Own(m, c) && b.OtherBlock?
    ensures b in Applied(m, c, lost).blocks <==>
            if c.Publish? && c.block.id == b.id then b == c.block else b in m.blocks
  {
    hide AllIssued, DistinctIds, HasText, Upsert, AddDelta;
    match c
    case Publish(block) => UpsertHas(m.blocks, block, b);
    case OpenText => OpenOk(m, lost);
    case AddText(text, _) =>
      OpenOk(m, lost);
      var begun := WithOpenBlock(m, lost);
      DeltaHas(begun.blocks, begun.textBlock.value, text, b);
    case _ =>
  }

  /** And the other blocks are those last published: each under its identifier once, and no older one. */
  lemma {:induction false} BlocksAreLatest(cs: seq<Change>, b: Block)
    requires AllProper(cs) && AllOwn(cs) && b.OtherBlock?
    ensures b in Written(cs).blocks <==> LastPublished(cs, b.id) == Some(b)
  {
    if cs != [] {
      var init, last := cs[..|cs| - 1], cs[|cs| - 1];
      hide Applied, BlocksOk, Proper, Own;
      forall i | 0 <= i < |init|
        ensures Proper(Written(init[..i]), init[i]) && Own(Written(init[..i]), init[i])
      {
        assert init[..i] == cs[..i] && init[i] == cs[i];
      }
      BlocksAreLatest(init, b);
      HistoryOk(init);
      OthersStep(Written(init), last, false, b);
    }
  }

  /** The turn events, in order. */
  function TurnEvents(events: seq<Event>): seq<Event> {
    if events == [] then []
    else TurnEvents(events[..|events| - 1]) + if events[|events| - 1].TurnEvent? then [events[|events| - 1]] else []
  }

  function Announced(cs: seq<Change>): seq<Event> {
    if cs == [] then []
    else
      var c := cs[|cs| - 1];
      Announced(cs[..|cs| - 1]) + if c.Announce? then [TurnEvent(c.name, c.data)] else []
  }

  lemma {:induction false} TurnEventsLast(events: seq<Event>, e: Event)
    ensures TurnEvents(events + [e]) == TurnEvents(events) + if e.TurnEvent? then [e] else []
  {
    assert (events + [e])[..|events|] == events;
  }

  lemma {:induction false} TurnEventsStep(m: Message, c: Change)
    ensures TurnEvents(Changed(m, c).emitted) ==
            TurnEvents(m.emitted) + if c.Announce? then [TurnEvent(c.name, c.data)] else []
  {
    hide TurnEvents, Upsert, AddDelta;
    var begun := WithOpenBlock(m, false);
    forall e
      ensures TurnEvents(m.emitted + [e]) == TurnEvents(m.emitted) + if e.TurnEvent? then [e] else []
      ensures TurnEvents(begun.emitted + [e]) == TurnEvents(begun.emitted) + if e.TurnEvent? then [e] else []
    {
      TurnEventsLast(m.emitted, e);
      TurnEventsLast(begun.emitted, e);
    }
  }

  /** Every announced turn event is emitted, in order, and no other. */
  lemma {:induction false} TurnEventsAreAnnounced(cs: seq<Change>)
    ensures TurnEvents(Written(cs).emitted) == Announced(cs)
  {
    if cs != [] {
      var init := cs[..|cs| - 1];
      TurnEventsAreAnnounced(init);
      TurnEventsStep(Written(init), cs[|cs| - 1]);
      hide Changed, TurnEvents;
    } else {
      assert TurnEvents([]) == [];
    }
  }

  // ---- histories in parts -----------------------------------------------------

  /** The message after further changes. */
  function AppliedAll(m: Message, cs: seq<Change>, lost: bool): Message {
    if cs == [] then m else Applied(AppliedAll(m, cs[..|cs| - 1], lost), cs[|cs| - 1], lost)
  }

  /** The further changes are those of a proper caller. */
  ghost predicate GoodAll(m: Message, cs: seq<Change>, lost: bool) {
    forall i :: 0 <= i < |cs| ==>
      Proper(AppliedAll(m, cs[..i], lost), cs[i]) && Own(AppliedAll(m, cs[..i], lost), cs[i])
  }

  /** The message apart from the events: what the lease has no part in. */
  function Shown(m: Message): Message { m.(emitted := []) }

  lemma {:induction false} ShownApplied(m: Message, w: Message, c: Change, lost: bool)
    requires Shown(m) == Shown(w)
    ensures Shown(Applied(m, c, lost)) == Shown(Changed(w, c))
    ensures (Proper(m, c) <==> Proper(w, c)) && (Own(m, c) <==> Own(w, c))
  {
    hide Upsert, AddDelta, Issued;
  }

  /** A history goes on with further changes. */
  lemma {:induction false} HistoryJoin(m: Message, cs: seq<Change>, more: seq<Change>, lost: bool)
    requires Shown(m) == Shown(Written(cs)) && AllProper(cs) && AllOwn(cs) && GoodAll(m, more, lost)
    ensures AllProper(cs + more) && AllOwn(cs + more)
    ensures Shown(AppliedAll(m, more, lost)) == Shown(Written(cs + more))
  {
    hide Applied, Shown, Proper, Own;
    if more == [] {
      assert cs + more == cs;
    } else {
      var init, last := more[..|more| - 1], more[|more| - 1];
      forall i | 0 <= i < |init|
        ensures Proper(AppliedAll(m, init[..i], lost), init[i]) && Own(AppliedAll(m, init[..i], lost), init[i])
      {
        assert init[..i] == more[..i] && init[i] == more[i];
      }
      HistoryJoin(m, cs, init, lost);
      var before := cs + init;
      assert cs + more == before + [last];
      ShownApplied(AppliedAll(m, init, lost), Written(before), last, lost);
      HistoryLast(before, last);
    }
  }

  lemma {:induction false} HistoryLast(cs: seq<Change>, c: Change)
    requires AllProper(cs) && AllOwn(cs) && Proper(Written(cs), c) && Own(Written(cs), c)
    ensures AllProper(cs + [c]) && AllOwn(cs + [c]) && Written(cs + [c]) == Changed(Written(cs), c)
  {
    hide Applied, Proper, Own;
    var all := cs + [c];
    assert all[..|all| - 1] == cs;
    forall i | 0 <= i < |all|
      ensures Proper(Written(all[..i]), all[i]) && Own(Written(all[..i]), all[i])
    {
      if i < |cs| {
        assert all[..i] == cs[..i] && all[i] == cs[i];
      } else {
        assert all[..i] == cs;
      }
    }
  }

  function EventsIn(rows: seq<StoredEvent>): seq<Event> { seq(|rows|, i requires 0 <= i < |rows| => rows[i].event) }

  lemma {:induction false} EventsNumbered(events: seq<Event>, first: nat)
    ensures EventsIn([] + Numbered(events, first)) == events
  {}

  // ---- the writer -------------------------------------------------------------

  class AgentEventWriter {
    const log: EventLog
    var blocks: seq<Block>
    var blockSeq: nat
    var textBlock: Option<string>
    var pendingText: string
    var pendingEvents: seq<Event>
    var nextSeq: Option<nat>
    var leaseLost: bool
    var revision: nat
    var savedRevision: nat
    /** The blocks column of the stored message. */
    var saved: seq<Block>
    /** Every event emitted so far, in order, and how many of them this writer has stored. */
    ghost var emitted: seq<Event>
    ghost var stored: seq<Event>
    /** How many writes to the database have failed. */
    ghost var failures: nat
    /** The event table as the writer found it. */
    ghost const initial: seq<StoredEvent>

    ghost function Contents(): Message
      reads this`blocks, this`blockSeq, this`textBlock, this`pendingText, this`emitted
    {
      Message(blocks, blockSeq, textBlock, pendingText, emitted)
    }

    /** Stored events followed by buffered ones are the emitted ones, and the stored ones are numbered without gaps. */
    ghost predicate LogOk()
      reads this`pendingEvents, this`emitted, this`stored, this`nextSeq, this`leaseLost, log
    {
      !leaseLost ==>
        && emitted == stored + pendingEvents
        && log.rows == initial + Numbered(stored, LastNumber(initial) + 1)
        && (nextSeq.None? ==> stored == [])
        && (nextSeq.Some? ==> nextSeq.value == LastNumber(initial) + 1 + |stored|)
    }

    /** The stored message is current whenever its revision is. */
    ghost predicate SavedOk()
      reads this`revision, this`savedRevision, this`saved, this`blocks
    {
      savedRevision <= revision && (savedRevision == revision ==> saved == blocks)
    }

    ghost predicate Valid()
      reads this, log
    {
      LogOk() && SavedOk() && BlocksOk(Contents()) && (!leaseLost ==> ReplayOk(Contents()))
    }

    constructor (log: EventLog)
      ensures Valid() && this.log == log && !leaseLost && Contents() == Message([], 0, None, "", [])
    {
      this.log := log;
      blocks, blockSeq, textBlock, pendingText := [], 0, None, "";
      pendingEvents, nextSeq, leaseLost := [], None, false;
      revision, savedRevision, saved := 0, 0, [];
      emitted, stored, initial, failures := [], [], log.rows, 0;
      new;
      hide LastNumber, Numbered;
      NumberedNone(LastNumber(initial) + 1);
    }

    /** Someone else took the turn over: nothing is written from here on. */
    method LoseLease()
      requires Valid()
      modifies this`leaseLost
      ensures leaseLost && Valid()
    {
      leaseLost := true;
    }

    // ---- events ----

    /** Writes the buffered events out; after a failed append the buffer is as it was. */
    method FlushEvents() returns (ok: bool)
      requires LogOk()
      modifies this`failures, this`pendingEvents, this`nextSeq, this`stored, log
      ensures LogOk() && (old(Valid()) ==> Valid())
      ensures ok ==> pendingEvents == []
      ensures !ok ==> !leaseLost && pendingEvents == old(pendingEvents) && log.rows == old(log.rows)
      ensures failures >= old(failures) && (!ok ==> failures > old(failures))
    {
      hide Numbered, LastNumber;
      if leaseLost {
        pendingEvents := [];
        return true;
      }
      if pendingEvents == [] {
        return true;
      }
      if nextSeq.None? {
        NumberedNone(LastNumber(initial) + 1);
        assert log.rows == initial;
        var cursor := log.ReadCursor();
        nextSeq := Some(cursor + 1);
      }
      ok := WriteBatch();
    }

    method WriteBatch() returns (ok: bool)
      requires LogOk() && !leaseLost && nextSeq.Some? && pendingEvents != []
      modifies this`failures, this`pendingEvents, this`nextSeq, this`stored, log
      ensures LogOk()
      ensures ok ==> pendingEvents == []
      ensures !ok ==> pendingEvents == old(pendingEvents) && log.rows == old(log.rows)
      ensures failures >= old(failures) && (!ok ==> failures > old(failures))
    {
      hide Numbered, LastNumber;
      var events := pendingEvents;
      pendingEvents := [];
      var last := log.Append(events, nextSeq.value);
      if last.None? {
        failures := failures + 1;
        pendingEvents := events + pendingEvents;
        return false;
      }
      NumberedAppend(stored, events, LastNumber(initial) + 1);
      stored := stored + events;
      nextSeq := Some(last.value + 1);
      ok := true;
    }

    method Emit(e: Event) returns (ok: bool)
      requires LogOk()
      modifies this`failures, this`pendingEvents, this`nextSeq, this`emitted, this`stored, log
      ensures LogOk()
      ensures emitted == if leaseLost then old(emitted) else old(emitted) + [e]
      ensures ok && !leaseLost ==> |pendingEvents| < 16
      ensures failures >= old(failures) && (!ok ==> failures > old(failures))
    {
      hide Numbered, LastNumber;
      if leaseLost {
        return true;
      }
      pendingEvents := pendingEvents + [e];
      emitted := emitted + [e];
      ok := true;
      if |pendingEvents| >= EVENT_FLUSH_MAX {
        ok := FlushEvents();
      }
    }

    /** A turn event: progress, tool status, the end of the turn. It is no part of the message. */
    method EmitTurn(name: string, data: string) returns (ok: bool)
      requires Valid()
      modifies this`failures, this`pendingEvents, this`nextSeq, this`emitted, this`stored, log
      ensures Valid() && Contents() == Emitted(old(Contents()), TurnEvent(name, data), leaseLost)
      ensures failures >= old(failures) && (!ok ==> failures > old(failures))
    {
      hide LogOk, SavedOk, BlocksOk, ReplayOk;
      AnnouncedOk(Contents(), TurnEvent(name, data), leaseLost);
      ok := Emit(TurnEvent(name, data));
    }

    // ---- the stored message ----

    /** The database write may fail. */
    method Persist() returns (ok: bool)
      requires SavedOk()
      modifies this`failures, this`saved, this`savedRevision
      ensures SavedOk()
      ensures ok && !leaseLost ==> savedRevision == revision
      ensures failures >= old(failures) && (!ok ==> failures > old(failures))
    {
      if leaseLost {
        return true;
      }
      var current := revision;
      if * {
        failures := failures + 1;
        return false;
      }
      saved, savedRevision := blocks, current;
      ok := true;
    }

    /** At most once per interval; the clock decides. */
    method MaybePersist() returns (ok: bool)
      requires SavedOk()
      modifies this`failures, this`saved, this`savedRevision
      ensures SavedOk()
      ensures failures >= old(failures) && (!ok ==> failures > old(failures))
    {
      ok := true;
      if savedRevision == revision || leaseLost {
        return;
      }
      if * {
        ok := Persist();
      }
    }

    // ---- blocks ----

    method NextBlockId(prefix: char) returns (id: string)
      modifies this`blockSeq
      ensures blockSeq == old(blockSeq) + 1 && id == BlockId(prefix, blockSeq)
    {
      blockSeq := blockSeq + 1;
      id := BlockId(prefix, blockSeq);
    }

    method UpsertBlock(block: Block) returns (ok: bool)
      requires LogOk() && SavedOk()
      modifies this`failures, this`blocks, this`revision, this`pendingEvents, this`nextSeq, this`emitted,
               this`stored, this`saved, this`savedRevision, log
      ensures LogOk() && SavedOk()
      ensures Contents() == Published(old(Contents()), block, leaseLost)
      ensures failures >= old(failures) && (!ok ==> failures > old(failures))
    {
      hide LogOk, Upsert, SavedOk;
      PlaceBlock(block);
      ok := Emit(BlockUpsert(block));
      if ok {
        ok := MaybePersist();
      }
    }

    /** Replace the block with this identifier in place, or append. */
    method PlaceBlock(block: Block)
      requires SavedOk()
      modifies this`blocks, this`revision
      ensures SavedOk() && blocks == Upsert(old(blocks), block)
    {
      hide Upsert;
      revision := revision + 1;
      var i := 0;
      while i < |blocks| && blocks[i].id != block.id
        invariant 0 <= i <= |blocks| && forall k :: 0 <= k < i ==> blocks[k].id != block.id
      {
        i := i + 1;
      }
      UpsertAt(blocks, block, i);
      blocks := if i < |blocks| then blocks[i := block] else blocks + [block];
    }

    method BeginTextSegment()
      modifies this`textBlock
      ensures Contents() == Closed(old(Contents()))
    {
      textBlock := None;
    }

    method EnsureTextBlock() returns (ok: bool, id: string)
      requires LogOk() && SavedOk()
      modifies this`failures, this`blocks, this`blockSeq, this`textBlock, this`revision, this`pendingEvents,
               this`nextSeq, this`emitted, this`stored, this`saved, this`savedRevision, log
      ensures LogOk() && SavedOk()
      ensures Contents() == WithOpenBlock(old(Contents()), leaseLost) && textBlock == Some(id)
      ensures old(textBlock).Some? ==> ok
      ensures failures >= old(failures) && (!ok ==> failures > old(failures))
    {
      hide LogOk, SavedOk;
      if textBlock.Some? {
        return true, textBlock.value;
      }
      id := NextBlockId('t');
      textBlock := Some(id);
      ok := UpsertBlock(TextBlock(id, ""));
    }

    method FlushText() returns (ok: bool)
      requires LogOk() && SavedOk()
      modifies this`failures, this`pendingText, this`pendingEvents, this`nextSeq, this`emitted, this`stored,
               this`saved, this`savedRevision, log
      ensures LogOk() && SavedOk()
      ensures Contents() == Flushed(old(Contents()), leaseLost)
      ensures failures >= old(failures) && (!ok ==> failures > old(failures))
    {
      hide LogOk, SavedOk;
      if pendingText == "" || textBlock.None? {
        return true;
      }
      var delta := pendingText;
      pendingText := "";
      ok := Emit(BlockText(textBlock.value, delta));
      if ok {
        if * {
          ok := Persist();
        }
      }
    }

    /** The text goes to the open block, a new one if need be; a failed append loses nothing that was emitted. */
    method AddText(text: string) returns (ok: bool, ghost progress: Progress)
      requires Valid()
      modifies this`failures, this`blocks, this`blockSeq, this`textBlock, this`pendingText, this`revision,
               this`pendingEvents, this`nextSeq, this`emitted, this`stored, this`saved, this`savedRevision, log
      ensures Valid() && Contents() == Added(old(Contents()), text, progress, leaseLost)
      ensures progress.Untouched? <==> text == ""
      ensures ok ==> !progress.BlockOpened?
      ensures ok && text != "" ==> |pendingText| < 256
      ensures failures >= old(failures) && (!ok ==> failures > old(failures))
    {
      hide LogOk, SavedOk, BlocksOk, ReplayOk, WithOpenBlock, Grown, Flushed;
      ok, progress := true, Untouched;
      if text == "" {
        return;
      }
      AddedOk(Contents(), text, BlockOpened, leaseLost);
      AddedOk(Contents(), text, TextStored, leaseLost);
      AddedOk(Contents(), text, TextSent, leaseLost);
      var id;
      ok, id := EnsureTextBlock();
      progress := BlockOpened;
      if !ok {
        return;
      }
      GrowText(id, text);
      progress := TextStored;
      var due: bool := *;
      if |pendingText| >= TEXT_FLUSH_CHARS || due {
        FlushedOk(Contents(), leaseLost);
        ok := FlushText();
        progress := TextSent;
      }
    }

    /** `block["text"] += text`, and the same text becomes pending. */
    method GrowText(id: string, text: string)
      requires SavedOk() && textBlock == Some(id)
      modifies this`blocks, this`revision, this`pendingText
      ensures SavedOk() && Contents() == Grown(old(Contents()), text)
    {
      hide AddDelta;
      blocks := AddDelta(blocks, id, text);
      revision := revision + 1;
      pendingText := pendingText + text;
    }

    /** What callers do with their own blocks: an issued identifier, never that of the open text block. */
    method PublishBlock(block: Block) returns (ok: bool)
      requires Valid() && Issued(block.id, blockSeq) && textBlock != Some(block.id)
      modifies this`failures, this`blocks, this`revision, this`pendingEvents, this`nextSeq, this`emitted,
               this`stored, this`saved, this`savedRevision, log
      ensures Valid() && Contents() == Published(old(Contents()), block, leaseLost)
      ensures failures >= old(failures) && (!ok ==> failures > old(failures))
    {
      hide LogOk, BlocksOk, ReplayOk, SavedOk;
      PublishedOk(Contents(), block, leaseLost);
      ok := UpsertBlock(block);
    }

    /** How callers end a segment: the pending text first, so that it goes to the block it belongs to. */
    method EndTextSegment() returns (ok: bool)
      requires Valid()
      modifies this`failures, this`textBlock, this`pendingText, this`pendingEvents, this`nextSeq, this`emitted,
               this`stored, this`saved, this`savedRevision, log
      ensures Valid()
      ensures Contents() == if ok then Closed(Flushed(old(Contents()), leaseLost))
              else Flushed(old(Contents()), leaseLost)
      ensures pendingText == ""
      ensures failures >= old(failures) && (!ok ==> failures > old(failures))
    {
      hide LogOk, BlocksOk, ReplayOk, SavedOk;
      FlushedOk(Contents(), leaseLost);
      ok := FlushText();
      if ok {
        if leaseLost {
          ClosedBlocks(Contents());
        } else {
          ClosedExact(Contents());
        }
        BeginTextSegment();
      }
    }

    /** `add_error_block`. */
    method AddErrorBlock(message: string) returns (ok: bool, ghost cs: seq<Change>)
      requires Valid()
      modifies this`failures, this`blocks, this`blockSeq, this`pendingText, this`revision, this`pendingEvents,
               this`nextSeq, this`emitted, this`stored, this`saved, this`savedRevision, log
      ensures Valid()
      ensures ok ==>
                var id := BlockId('e', old(blockSeq) + 1);
                var m := Flushed(old(Contents()), leaseLost);
                Contents() == Published(m.(blockSeq := m.blockSeq + 1), OtherBlock(id, "error", message), leaseLost)
      ensures Does(Error(message), cs) && (ok ==> |cs| == 3)
      ensures failures >= old(failures) && (!ok ==> failures > old(failures))
      ensures Contents() == AppliedAll(old(Contents()), cs, leaseLost) && GoodAll(old(Contents()), cs, leaseLost)
    {
      hide LogOk, BlocksOk, ReplayOk, SavedOk, Published, Flushed, Does, AppliedAll, GoodAll, Applied, Issued;
      ghost var m, lost := Contents(), leaseLost;
      ErrorChanges(m, message, lost);
      ErrorDoes(message, m.blockSeq + 1);
      FlushedOk(m, lost);
      cs := [SendText];
      ok := FlushText();
      if !ok {
        return;
      }
      NextIssued(Contents(), lost, 'e');
      var id := NextBlockId('e');
      cs := [SendText, NextId, Publish(OtherBlock(id, "error", message))];
      ok := PublishBlock(OtherBlock(id, "error", message));
    }

    /** A caller's new block, under a new identifier. */
    method NewBlock(prefix: char, kind: string, body: string) returns (ok: bool, ghost cs: seq<Change>)
      requires Valid()
      modifies this`failures, this`blocks, this`blockSeq, this`revision, this`pendingEvents, this`nextSeq,
               this`emitted, this`stored, this`saved, this`savedRevision, log
      ensures Valid() && Does(New(prefix, kind, body), cs)
      ensures Contents() == AppliedAll(old(Contents()), cs, leaseLost) && GoodAll(old(Contents()), cs, leaseLost)
      ensures failures >= old(failures) && (!ok ==> failures > old(failures))
    {
      hide LogOk, BlocksOk, ReplayOk, SavedOk, Published, AppliedAll, GoodAll, Issued;
      ghost var m := Contents();
      NextIssued(m, leaseLost, prefix);
      var id := NextBlockId(prefix);
      NewIsOwn(m, prefix);
      cs := [NextId, Publish(OtherBlock(id, kind, body))];
      TwoChanges(m, NextId, cs[1], leaseLost);
      ok := PublishBlock(OtherBlock(id, kind, body));
    }

    /** A block that is not text gets new contents under its identifier. */
    method ReplaceBlock(index: nat, kind: string, body: string) returns (ok: bool, ghost cs: seq<Change>)
      requires Valid() && index < |blocks| && blocks[index].OtherBlock?
      modifies this`failures, this`blocks, this`revision, this`pendingEvents, this`nextSeq, this`emitted,
               this`stored, this`saved, this`savedRevision, log
      ensures Valid() && cs == [Publish(OtherBlock(old(blocks)[index].id, kind, body))]
      ensures Contents() == AppliedAll(old(Contents()), cs, leaseLost) && GoodAll(old(Contents()), cs, leaseLost)
      ensures failures >= old(failures) && (!ok ==> failures > old(failures))
    {
      hide LogOk, BlocksOk, ReplayOk, SavedOk, Published, AppliedAll, GoodAll, Issued;
      ghost var m := Contents();
      BlockIssued(m, index);
      cs := [Publish(OtherBlock(blocks[index].id, kind, body))];
      OneChange(m, cs[0], leaseLost);
      ok := PublishBlock(OtherBlock(blocks[index].id, kind, body));
    }

    // ---- whole turns ----

    /** One operation of a caller; each of its writes may fail. `cs` is how far it got. */
    method Perform(op: Op) returns (ghost cs: seq<Change>)
      requires Valid()
      modifies this, log
      ensures Valid() && (op.Lose? || leaseLost == old(leaseLost))
      ensures Does(op, cs) && Contents() == AppliedAll(old(Contents()), cs, leaseLost)
      ensures failures >= old(failures) && (failures == old(failures) ==> Entire(op, cs))
      ensures op.Replace? && op.index < |old(blocks)| && old(blocks)[op.index].OtherBlock? ==>
                |cs| == 1 && cs[0].block.id == old(blocks)[op.index].id
      ensures GoodAll(old(Contents()), cs, leaseLost)
    {
      hide LogOk, BlocksOk, ReplayOk, SavedOk, Published, Added, Flushed, Closed, WithOpenBlock, Issued;
      ghost var m, lost := Contents(), leaseLost;
      NoChange(m, leaseLost);
      NoChange(m, true);
      var ok;
      cs := [];
      match op
      case Open =>
        cs := [OpenText];
        OneChange(m, OpenText, lost);
        OpenOk(m, lost);
        var id;
        ok, id := EnsureTextBlock();
      case Text(text) =>
        ghost var progress;
        NothingAdded(m, lost);
        ok, progress := AddText(text);
        cs := [Change.AddText(text, progress)];
        OneChange(m, cs[0], lost);
      case Segment =>
        ok := EndTextSegment();
        cs := [if ok then EndSegment else SendText];
        OneChange(m, cs[0], lost);
      case Error(message) =>
        ok, cs := AddErrorBlock(message);
      case New(prefix, kind, body) =>
        ok, cs := NewBlock(prefix, kind, body);
      case Replace(index, kind, body) =>
        if index < |blocks| && blocks[index].OtherBlock? {
          ok, cs := ReplaceBlock(index, kind, body);
        }
      case Send =>
        cs := [SendText];
        OneChange(m, SendText, lost);
        FlushedOk(m, lost);
        ok := FlushText();
      case Turn(name, data) =>
        cs := [Announce(name, data)];
        OneChange(m, cs[0], lost);
        ok := EmitTurn(name, data);
      case FlushBuffer =>
        ok := FlushEvents();
      case Save =>
        ok := Persist();
      case Lose =>
        LoseLease();
    }

    /**
     A whole turn: any operations, any of whose writes may fail, then the final
     flushes. When the last one succeeds and the turn was not taken over, the
     numbered rows of the table replay to exactly the blocks. From a new message
     the blocks hold what the operations said, each as far as it got.
     */
    method RunTurn(ops: seq<Op>) returns (ok: bool, ghost groups: seq<seq<Change>>)
      requires Valid()
      modifies this, log
      ensures Valid() && pendingText == ""
      ensures ok && !leaseLost ==> Replay(stored) == blocks
      ensures ok && !leaseLost ==> log.rows == initial + Numbered(stored, LastNumber(initial) + 1)
      ensures ok && !leaseLost && initial == [] ==> Replay(EventsIn(log.rows)) == blocks
      ensures |groups| == |ops| && forall i :: 0 <= i < |ops| ==> Does(ops[i], groups[i])
      ensures failures >= old(failures)
      ensures failures == old(failures) ==> ok && forall i :: 0 <= i < |ops| ==> Entire(ops[i], groups[i])
      ensures old(Contents()) == Written([]) ==>
                TextsIn(blocks) == Spoken(Concat(groups)).segments && Latest(blocks, Concat(groups))
    {
      hide LogOk, BlocksOk, ReplayOk, SavedOk, Numbered, LastNumber, Replay, EventsIn, AppliedAll, Applied, GoodAll,
           Written, Does, Entire, AllProper, AllOwn, Shown, Concat;
      ghost var all, anew := [], Contents() == Written([]);
      groups := [];
      NoGroups();
      for i := 0 to |ops|
        invariant Valid() && |groups| == i && all == Concat(groups)
        invariant forall k :: 0 <= k < i ==> Does(ops[k], groups[k])
        invariant failures >= old(failures)
        invariant failures == old(failures) ==> forall k :: 0 <= k < i ==> Entire(ops[k], groups[k])
        invariant anew ==> Shown(Contents()) == Shown(Written(all)) && AllProper(all) && AllOwn(all)
      {
        ghost var before := Contents();
        ghost var cs := Perform(ops[i]);
        if anew { HistoryJoin(before, all, cs, leaseLost); }
        GroupLast(groups, cs);
        groups, all := groups + [cs], all + cs;
      }
      ghost var m := Contents();
      FlushedOk(m, leaseLost);
      var sent := FlushText();
      ok := FlushEvents();
      if anew { ShownHistory(m, all, leaseLost); }
      if ok && !leaseLost {
        StoredReplay();
        EventsNumbered(stored, LastNumber(initial) + 1);
      }
    }

    /** With empty buffers the stored events are all there is. */
    lemma {:induction false} StoredReplay()
      requires Valid() && !leaseLost && pendingEvents == [] && pendingText == ""
      ensures Replay(stored) == blocks && log.rows == initial + Numbered(stored, LastNumber(initial) + 1)
    {
      hide BlocksOk, SavedOk, Numbered, LastNumber, ReplayOk;
      assert stored + [] == stored;
      ReplayIsMessage(Contents());
    }
  }

  /** What the callers of the writer do. */
  datatype Op =
    /** A delta that shows nothing opens the text block and adds no text. */
    | Open
    | Text(text: string)
    | Segment
    | Error(message: string)
    | New(prefix: char, kind: string, body: string)
    | Replace(index: nat, kind: string, body: string)
    | Send
    | Turn(name: string, data: string)
    | FlushBuffer
    | Save
    | Lose

  /** What an operation changes, however far it gets. */
  ghost predicate Does(op: Op, cs: seq<Change>) {
    match op
    case Open => cs == [OpenText]
    case Text(text) => |cs| == 1 && cs[0].AddText? && cs[0].text == text && (cs[0].progress.Untouched? <==> text == "")
    case Segment => cs == [EndSegment] || cs == [SendText]
    case Error(message) => cs == [SendText] ||
        (|cs| == 3 && cs[..2] == [SendText, NextId] && Puts(cs[2], "error", message) && Named(cs[2], 'e'))
    case New(prefix, kind, body) => |cs| == 2 && cs[0] == NextId && Puts(cs[1], kind, body) && Named(cs[1], prefix)
    case Replace(_, kind, body) => cs == [] || (|cs| == 1 && Puts(cs[0], kind, body))
    case Send => cs == [SendText]
    case Turn(name, data) => cs == [Announce(name, data)]
    case _ => cs == []
  }

  /** It got to its end: only a failed write to the database cuts an operation off. */
  ghost predicate Entire(op: Op, cs: seq<Change>) {
    match op
    case Text(text) => text == "" || (|cs| == 1 && cs[0].AddText? && cs[0].progress in {TextStored, TextSent})
    case Segment => cs == [EndSegment]
    case Error(_) => |cs| == 3
    case _ => true
  }

  predicate Named(c: Change, prefix: char) { c.Publish? && c.block.id != "" && c.block.id[0] == prefix }

  predicate Puts(c: Change, kind: string, body: string) {
    c.Publish? && c.block.OtherBlock? && c.block.kind == kind && c.block.body == body
  }

  /** The blocks that are not text are those last published. */
  ghost predicate Latest(blocks: seq<Block>, cs: seq<Change>) {
    forall b: Block :: b.OtherBlock? ==> (b in blocks <==> LastPublished(cs, b.id) == Some(b))
  }

  /** The changes of an error block, cut off after the text or not. */
  lemma {:induction false} ErrorChanges(m: Message, message: string, lost: bool)
    requires BlocksOk(m)
    ensures
      var sent := Flushed(m, lost);
      var block := OtherBlock(BlockId('e', m.blockSeq + 1), "error", message);
      var cs := [SendText, NextId, Publish(block)];
      && AppliedAll(m, [SendText], lost) == sent && GoodAll(m, [SendText], lost)
      && AppliedAll(m, cs, lost) == Published(sent.(blockSeq := sent.blockSeq + 1), block, lost) && GoodAll(m, cs, lost)
  {
    var sent := Flushed(m, lost);
    FlushedOk(m, lost);
    OneChange(m, SendText, lost);
    NextIssued(sent, lost, 'e');
    NewIsOwn(sent, 'e');
    ThreeChanges(m, SendText, NextId, Publish(OtherBlock(BlockId('e', m.blockSeq + 1), "error", message)), lost);
    hide BlocksOk, ReplayOk, Published, AppliedAll, GoodAll;
  }

  lemma {:induction false} ErrorDoes(message: string, n: nat)
    ensures Does(Error(message), [SendText])
    ensures Does(Error(message), [SendText, NextId, Publish(OtherBlock(BlockId('e', n), "error", message))])
  {
    hide Decimal;
  }

  lemma {:induction false} NothingAdded(m: Message, lost: bool)
    ensures Added(m, "", Untouched, lost) == m
  {}

  lemma {:induction false} NoChange(m: Message, lost: bool)
    ensures AppliedAll(m, [], lost) == m && GoodAll(m, [], lost)
  {}

  lemma {:induction false} OneChange(m: Message, c: Change, lost: bool)
    ensures AppliedAll(m, [c], lost) == Applied(m, c, lost)
    ensures Proper(m, c) && Own(m, c) ==> GoodAll(m, [c], lost)
  {
    hide Applied, Proper, Own;
    assert [c][..0] == [];
  }

  lemma {:induction false} OneMoreChange(m: Message, cs: seq<Change>, c: Change, lost: bool)
    requires GoodAll(m, cs, lost)
    ensures AppliedAll(m, cs + [c], lost) == Applied(AppliedAll(m, cs, lost), c, lost)
    ensures Proper(AppliedAll(m, cs, lost), c) && Own(AppliedAll(m, cs, lost), c) ==> GoodAll(m, cs + [c], lost)
  {
    hide Applied, Proper, Own;
    var all := cs + [c];
    assert all[..|cs|] == cs;
    assert forall i :: 0 <= i < |cs| ==> all[..i] == cs[..i] && all[i] == cs[i];
  }

  lemma {:induction false} TwoChanges(m: Message, c: Change, d: Change, lost: bool)
    requires Proper(m, c) && Own(m, c)
    ensures AppliedAll(m, [c, d], lost) == Applied(Applied(m, c, lost), d, lost)
    ensures Proper(Applied(m, c, lost), d) && Own(Applied(m, c, lost), d) ==> GoodAll(m, [c, d], lost)
  {
    hide Applied, Proper, Own;
    OneChange(m, c, lost);
    OneMoreChange(m, [c], d, lost);
    assert [c] + [d] == [c, d];
  }

  lemma {:induction false} ThreeChanges(m: Message, c: Change, d: Change, e: Change, lost: bool)
    requires Proper(m, c) && Own(m, c) && Proper(Applied(m, c, lost), d) && Own(Applied(m, c, lost), d)
    ensures AppliedAll(m, [c, d, e], lost) == Applied(Applied(Applied(m, c, lost), d, lost), e, lost)
    ensures
      var before := Applied(Applied(m, c, lost), d, lost);
      Proper(before, e) && Own(before, e) ==> GoodAll(m, [c, d, e], lost)
  {
    hide Applied, Proper, Own;
    TwoChanges(m, c, d, lost);
    OneMoreChange(m, [c, d], e, lost);
    assert [c, d] + [e] == [c, d, e];
  }

  lemma {:induction false} NoGroups()
    ensures Concat<Change>([]) == [] && AllProper([]) && AllOwn([])
  {}

  lemma {:induction false} GroupLast(groups: seq<seq<Change>>, cs: seq<Change>)
    ensures Concat(groups + [cs]) == Concat(groups) + cs
  {
    ConcatAppend(groups, [cs]);
    assert [cs][1..] == [];
    assert Concat([cs]) == cs + [] == cs;
  }

  lemma {:induction false} ShownHistory(m: Message, cs: seq<Change>, lost: bool)
    requires Shown(m) == Shown(Written(cs)) && AllProper(cs) && AllOwn(cs)
    ensures TextsIn(Flushed(m, lost).blocks) == Spoken(cs).segments && Latest(Flushed(m, lost).blocks, cs)
  {
    TextsAreSegments(cs);
    hide TextsIn, Spoken, Written, LastPublished, AllProper, AllOwn;
    forall b: Block | b.OtherBlock?
      ensures b in m.blocks <==> LastPublished(cs, b.id) == Some(b)
    {
      BlocksAreLatest(cs, b);
    }
  }

  /** A block that is there has an issued identifier; if it is no text block, no text block has it. */
  lemma {:induction false} BlockIssued(m: Message, i: nat)
    requires BlocksOk(m) && i < |m.blocks|
    ensures Issued(m.blocks[i].id, m.blockSeq)
    ensures m.blocks[i].OtherBlock? ==> NoTextWith(m.blocks, m.blocks[i].id) && m.textBlock != Some(m.blocks[i].id)
  {}

  /** No block has the next identifier. */
  lemma {:induction false} NewIsOwn(m: Message, prefix: char)
    requires BlocksOk(m)
    ensures NoTextWith(m.blocks, BlockId(prefix, m.blockSeq + 1))
  {
    var id := BlockId(prefix, m.blockSeq + 1);
    NextIsFresh(prefix, m.blockSeq);
    forall i | 0 <= i < |m.blocks|
      ensures m.blocks[i].id != id
    {
      assert Issued(m.blocks[i].id, m.blockSeq);
    }
  }

  /** A new identifier keeps the message as it was and is not that of the open text block. */
  lemma {:induction false} NextIssued(m: Message, lost: bool, prefix: char)
    requires BlocksOk(m)
    ensures
      var next := m.(blockSeq := m.blockSeq + 1);
      && BlocksOk(next) && (ReplayOk(m) ==> ReplayOk(next))
      && Issued(BlockId(prefix, m.blockSeq + 1), m.blockSeq + 1)
      && m.textBlock != Some(BlockId(prefix, m.blockSeq + 1))
  {
    IssuedStays(m.blocks, m.blockSeq);
    NextIsFresh(prefix, m.blockSeq);
    if m.textBlock.Some? {
      var i :| 0 <= i < |m.blocks| && m.blocks[i].TextBlock? && m.blocks[i].id == m.textBlock.value;
      assert Issued(m.blocks[i].id, m.blockSeq);
    }
    assert Issued(BlockId(prefix, m.blockSeq + 1), m.blockSeq + 1);
  }

  lemma {:induction false} ClosedBlocks(m: Message)
    requires BlocksOk(m) && m.pendingText == ""
    ensures BlocksOk(Closed(m))
  {}
}
