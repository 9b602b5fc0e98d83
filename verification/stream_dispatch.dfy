/**
  The two streaming loops: the plain chat-completion chunks and the agent-turn
  events. Each event is turned into zero or more strings handed, in arrival
  order, to the UI callback `onStreamReceived`; the model records the strings
  instead of calling the callback.
 */
module StreamDispatch {
  import opened Wrappers
  import opened Messages

  /**
    Runs the registered functions named by some tool calls and renders their
    result. It lives outside this model, so it is a parameter.
   */
  type ToolDispatcher = seq<ToolCall> -> string

  /** The delta of a chat chunk or of an agent step-progress event. */
  datatype Delta = TextDelta(text: string) | ImageDelta | ToolCallDelta(toolCall: Option<ToolCall>)

  /** One chunk of a streamed chat completion; the stop reason may be absent. */
  datatype ChatChunk = ChatChunk(delta: Delta, stopReason: Option<StopReason>)

  /** The stop reason as the chunk loop compares it: its wire name, or "null". */
  function StopReasonText(r: Option<StopReason>): string {
    match r
    case Some(EndOfTurn) => "end_of_turn"
    case Some(EndOfMessage) => "end_of_message"
    case Some(OutOfTokens) => "out_of_tokens"
    case None => "null"
  }

  const EmptyToolCallNotice: string := "Empty tool call. File a bug"

  /** The text of a delta printed with Kotlin's null-safe `toString()`. */
  function DeltaText(d: Delta): string {
    if d.TextDelta? then d.text else "null"
  }

  /**
    The strings one chat chunk sends to the callback: a line for a tool-call
    delta, then the chunk's text unless the chunk ends the turn.
   */
  function ChunkOutput(c: ChatChunk, dispatch: ToolDispatcher): (r: seq<string>)
    ensures |r| == (if c.delta.ToolCallDelta? then 1 else 0) + (if c.stopReason == Some(EndOfTurn) then 0 else 1)
  {
    (match c.delta
     case ToolCallDelta(Some(call)) => ["\n" + dispatch([call])]
     case ToolCallDelta(None) => ["\n" + EmptyToolCallNotice]
     case _ => [])
    + (if StopReasonText(c.stopReason) != "end_of_turn" then [DeltaText(c.delta)] else [])
  }

  /**
    The shape of one chunk's output. A tool-call delta yields a line starting
    with a newline, and the chunk's text (possibly "null") follows exactly when
    the chunk does not end the turn.
   */
  lemma ChunkOutputShape(c: ChatChunk, dispatch: ToolDispatcher)
    ensures |ChunkOutput(c, dispatch)|
      == (if c.delta.ToolCallDelta? then 1 else 0) + (if c.stopReason == Some(EndOfTurn) then 0 else 1)
    ensures c.delta.ToolCallDelta? ==> ChunkOutput(c, dispatch)[0][..1] == "\n"
    ensures c.delta.ToolCallDelta? && c.delta.toolCall.Some? ==>
      ChunkOutput(c, dispatch)[0] == "\n" + dispatch([c.delta.toolCall.value])
    ensures c.delta.ToolCallDelta? && c.delta.toolCall.None? ==>
      ChunkOutput(c, dispatch)[0] == "\n" + EmptyToolCallNotice
    ensures c.stopReason != Some(EndOfTurn) ==>
      ChunkOutput(c, dispatch)[|ChunkOutput(c, dispatch)| - 1] == DeltaText(c.delta)
    ensures !c.delta.TextDelta? && c.stopReason != Some(EndOfTurn) ==>
      ChunkOutput(c, dispatch)[|ChunkOutput(c, dispatch)| - 1] == "null"
  {
  }

  /**
    Everything a chunk stream sends to the callback, in chunk order: at most
    two strings per chunk.
   */
  function ChatOutput(chunks: seq<ChatChunk>, dispatch: ToolDispatcher): (r: seq<string>)
    ensures |r| <= 2 * |chunks|
  {
    if |chunks| == 0 then [] else ChunkOutput(chunks[0], dispatch) + ChatOutput(chunks[1..], dispatch)
  }

  /** The output of a stream is the outputs of its parts, in order. */
  lemma {:induction false} ChatOutputAppend(a: seq<ChatChunk>, b: seq<ChatChunk>, dispatch: ToolDispatcher)
    ensures ChatOutput(a + b, dispatch) == ChatOutput(a, dispatch) + ChatOutput(b, dispatch)
  {
    if |a| == 0 {
      assert a + b == b;
    } else {
      var ab := a + b;
      assert ab[0] == a[0];
      assert ab[1..] == a[1..] + b;
      ChatOutputAppend(a[1..], b, dispatch);
      var head, x, y := ChunkOutput(a[0], dispatch), ChatOutput(a[1..], dispatch), ChatOutput(b, dispatch);
      calc {
        ChatOutput(ab, dispatch);
        head + ChatOutput(ab[1..], dispatch);
        head + (x + y);
        { AppendAssoc(head, x, y); }
        (head + x) + y;
      }
    }
  }

  /** Reading one more chunk appends that chunk's output. */
  lemma ChatOutputSnoc(chunks: seq<ChatChunk>, i: nat, dispatch: ToolDispatcher)
    requires i < |chunks|
    ensures ChatOutput(chunks[..i + 1], dispatch) == ChatOutput(chunks[..i], dispatch) + ChunkOutput(chunks[i], dispatch)
  {
    assert chunks[..i + 1] == chunks[..i] + [chunks[i]];
    ChatOutputAppend(chunks[..i], [chunks[i]], dispatch);
    assert [chunks[i]][1..] == [];
  }

  /** A chunk that streams text and does not end the turn. */
  predicate IsPlainText(c: ChatChunk) {
    c.delta.TextDelta? && c.stopReason != Some(EndOfTurn)
  }

  /**
    A stream of plain text chunks sends exactly their texts, one per chunk, in
    order.
   */
  lemma {:induction false} ChatOutputOfText(chunks: seq<ChatChunk>, dispatch: ToolDispatcher)
    requires forall i :: 0 <= i < |chunks| ==> IsPlainText(chunks[i])
    ensures ChatOutput(chunks, dispatch) == seq(|chunks|, i requires 0 <= i < |chunks| => DeltaText(chunks[i].delta))
  {
    if |chunks| > 0 {
      ChunkOutputShape(chunks[0], dispatch);
      ChatOutputOfText(chunks[1..], dispatch);
    }
  }

  /**
    A stream whose chunks all end the turn and carry no tool call sends
    nothing: the final text is not echoed.
   */
  lemma {:induction false} EndOfTurnSilent(chunks: seq<ChatChunk>, dispatch: ToolDispatcher)
    requires forall i :: 0 <= i < |chunks| ==> chunks[i].stopReason == Some(EndOfTurn) && !chunks[i].delta.ToolCallDelta?
    ensures ChatOutput(chunks, dispatch) == []
  {
    if |chunks| > 0 {
      EndOfTurnSilent(chunks[1..], dispatch);
    }
  }

  /**
    The chunk loop: each chunk's strings reach the callback before the next
    chunk is read.
   */
  method DispatchChatChunks(chunks: seq<ChatChunk>, dispatch: ToolDispatcher) returns (sent: seq<string>)
    ensures sent == ChatOutput(chunks, dispatch)
  {
    sent := [];
    var i := 0;
    while i < |chunks|
      invariant 0 <= i <= |chunks|
      invariant sent == ChatOutput(chunks[..i], dispatch)
    {
      var c := chunks[i];
      var toolLine: seq<string> := [];
      match c.delta {
        case ToolCallDelta(call) =>
          if call.Some? {
            toolLine := ["\n" + dispatch([call.value])];
          } else {
            toolLine := ["\n" + EmptyToolCallNotice];
          }
        case _ =>
      }
      var textLine: seq<string> := [];
      if StopReasonText(c.stopReason) != "end_of_turn" {
        textLine := [DeltaText(c.delta)];
      }
      assert toolLine + textLine == ChunkOutput(c, dispatch);
      sent := sent + (toolLine + textLine);
      ChatOutputSnoc(chunks, i, dispatch);
      i := i + 1;
    }
    assert chunks[..i] == chunks;
  }

  /** The payload of one agent-turn stream event. */
  datatype AgentEvent =
    | TurnStart
    | StepStart
    | StepProgress(delta: Delta)
    | StepComplete(toolCalls: Option<seq<ToolCall>>)
    | TurnComplete

  /**
    The strings one agent event sends to the callback: one string for an
    emitting event (its text, or its rendered tool calls), none otherwise.
   */
  function EventOutput(e: AgentEvent, dispatch: ToolDispatcher): (r: seq<string>)
    ensures |r| == (if Emits(e) then 1 else 0)
    ensures e.StepProgress? && e.delta.TextDelta? ==> r == [e.delta.text]
    ensures e.StepComplete? && Emits(e) ==> r == [dispatch(e.toolCalls.value)]
  {
    match e
    case StepProgress(TextDelta(text)) => [text]
    case StepComplete(Some(calls)) => if |calls| > 0 then [dispatch(calls)] else []
    case _ => []
  }

  /** The events that reach the callback: streamed text and completed tool calls. */
  predicate Emits(e: AgentEvent) {
    (e.StepProgress? && e.delta.TextDelta?) || (e.StepComplete? && e.toolCalls.Some? && |e.toolCalls.value| > 0)
  }

  /**
    Everything an agent-turn stream sends to the callback, in event order: at
    most one string per event.
   */
  function AgentOutput(events: seq<AgentEvent>, dispatch: ToolDispatcher): (r: seq<string>)
    ensures |r| <= |events|
  {
    if |events| == 0 then [] else EventOutput(events[0], dispatch) + AgentOutput(events[1..], dispatch)
  }

  function EmittingCount(events: seq<AgentEvent>): nat {
    if |events| == 0 then 0 else (if Emits(events[0]) then 1 else 0) + EmittingCount(events[1..])
  }

  /** Each emitting event sends exactly one string, every other event none. */
  lemma {:induction false} AgentOutputLength(events: seq<AgentEvent>, dispatch: ToolDispatcher)
    ensures |AgentOutput(events, dispatch)| == EmittingCount(events)
  {
    if |events| > 0 {
      AgentOutputLength(events[1..], dispatch);
    }
  }

  lemma {:induction false} AgentOutputAppend(a: seq<AgentEvent>, b: seq<AgentEvent>, dispatch: ToolDispatcher)
    ensures AgentOutput(a + b, dispatch) == AgentOutput(a, dispatch) + AgentOutput(b, dispatch)
  {
    if |a| == 0 {
      assert a + b == b;
    } else {
      var ab := a + b;
      assert ab[0] == a[0];
      assert ab[1..] == a[1..] + b;
      AgentOutputAppend(a[1..], b, dispatch);
      var head, x, y := EventOutput(a[0], dispatch), AgentOutput(a[1..], dispatch), AgentOutput(b, dispatch);
      calc {
        AgentOutput(ab, dispatch);
        head + AgentOutput(ab[1..], dispatch);
        head + (x + y);
        { AppendAssoc(head, x, y); }
        (head + x) + y;
      }
    }
  }

  /**
    An event that does not emit can be inserted anywhere in a stream without
    changing what reaches the callback; in particular turn starts, step starts
    and turn completions never matter.
   */
  lemma SilentEventIrrelevant(a: seq<AgentEvent>, e: AgentEvent, b: seq<AgentEvent>, dispatch: ToolDispatcher)
    requires !Emits(e)
    ensures AgentOutput(a + [e] + b, dispatch) == AgentOutput(a + b, dispatch)
  {
    assert AgentOutput([e], dispatch) == [] by {
      assert [e][1..] == [];
    }
    AgentOutputAppend(a, [e], dispatch);
    assert AgentOutput(a + [e], dispatch) == AgentOutput(a, dispatch);
    AgentOutputAppend(a + [e], b, dispatch);
    AgentOutputAppend(a, b, dispatch);
  }

  /** Two text steps and a turn completion send the two texts, in order. */
  lemma TwoTextStepsThenComplete(first: string, second: string, dispatch: ToolDispatcher)
    ensures AgentOutput([StepProgress(TextDelta(first)), StepProgress(TextDelta(second)), TurnComplete], dispatch)
      == [first, second]
  {
    var events := [StepProgress(TextDelta(first)), StepProgress(TextDelta(second)), TurnComplete];
    assert events[1..] == [StepProgress(TextDelta(second)), TurnComplete];
    assert events[1..][1..] == [TurnComplete];
    assert events[1..][1..][1..] == [];
    assert AgentOutput([TurnComplete], dispatch) == [];
    assert AgentOutput(events[1..], dispatch) == [second];
  }

  /**
    The event loop: each event's string reaches the callback before the next
    event is read, and the call itself returns the empty string.
   */
  method DispatchAgentEvents(events: seq<AgentEvent>, dispatch: ToolDispatcher) returns (sent: seq<string>, result: string)
    ensures sent == AgentOutput(events, dispatch)
    ensures result == ""
  {
    sent := [];
    var i := 0;
    while i < |events|
      invariant 0 <= i <= |events|
      invariant sent == AgentOutput(events[..i], dispatch)
    {
      var e := events[i];
      match e {
        case TurnStart =>
        case StepStart =>
        case StepProgress(delta) =>
          if delta.TextDelta? {
            sent := sent + [delta.text];
          }
        case StepComplete(calls) =>
          if calls.Some? && |calls.value| > 0 {
            sent := sent + [dispatch(calls.value)];
          }
        case TurnComplete =>
      }
      assert events[..i + 1] == events[..i] + [e];
      AgentOutputAppend(events[..i], [e], dispatch);
      assert [e][1..] == [];
      i := i + 1;
    }
    assert events[..i] == events;
    result := "";
  }
}
