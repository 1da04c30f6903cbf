/** The neutral events every model protocol is translated to - backend/app/integrations/agent_types.py. */
module AgentTypes {
  import opened Common
  import opened Text

  type Usage = map<string, int>

  datatype AgentEvent =
    | TextDelta(text: string, itemId: string, contentIndex: nat)
    | ToolCallStarted(id: string, name: string)
    | ToolCallComplete(id: string, name: string, arguments: string)
    | Finish(stopReason: string, truncated: bool, usage: Usage, complete: bool)

  /** What a feed gives back: events, or the error the model reported. */
  datatype Fed = Events(events: seq<AgentEvent>) | Failed(message: string)

  function Fallback(n: int): string {
    "call_" + if n < 0 then "-" + Decimal(-n) else Decimal(n)
  }

  /** `a or b` on strings. */
  function Or(a: string, b: string): string { if a != "" then a else b }

  /** All text of a run of events. */
  function Texts(events: seq<AgentEvent>): string {
    if events == [] then ""
    else (if events[0].TextDelta? then events[0].text else "") + Texts(events[1..])
  }

  /** The completed tool calls of a run of events, in order. */
  function Completes(events: seq<AgentEvent>): seq<AgentEvent> {
    if events == [] then []
    else (if events[0].ToolCallComplete? then [events[0]] else []) + Completes(events[1..])
  }

  lemma {:induction false} TextsAppend(a: seq<AgentEvent>, b: seq<AgentEvent>)
    ensures Texts(a + b) == Texts(a) + Texts(b)
  {
    if a == [] {
      assert a + b == b;
    } else {
      assert (a + b)[0] == a[0] && (a + b)[1..] == a[1..] + b;
      TextsAppend(a[1..], b);
    }
  }

  lemma {:induction false} CompletesAppend(a: seq<AgentEvent>, b: seq<AgentEvent>)
    ensures Completes(a + b) == Completes(a) + Completes(b)
  {
    if a == [] {
      assert a + b == b;
    } else {
      assert (a + b)[0] == a[0] && (a + b)[1..] == a[1..] + b;
      CompletesAppend(a[1..], b);
    }
  }
}
