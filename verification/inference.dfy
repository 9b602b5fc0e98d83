/**
  The two inference calls as seen from their caller: the plain chat call (with
  its missing-client and exception strings, and the choice of result on the
  non-streaming path) and the agent-turn call. The server's behaviour is an
  input: the chunks or events it streams, or the reply it returns.
 */
module Inference {
  import opened Wrappers
  import opened Messages
  import opened StreamDispatch
  import Instructions
  import ChatTranslation
  import AgentTranslation

  const ClientNullError: string := "[ERROR] client is null for remote inference"
  const RemoteExceptionPrefix: string := "Exception on remote inference "
  const EmptyToolCallsNotice: string := "Empty tool calls and model response. File a bug"

  /** The string returned for a caught exception; a null message prints as "null". */
  function ExceptionText(message: Option<string>): string {
    RemoteExceptionPrefix + NullableText(message)
  }

  /**
    The completion message of a non-streaming reply. `content` is present when
    the reply's content is a plain string; `toolCalls` may be absent.
   */
  datatype CompletionReply = CompletionReply(content: Option<string>, toolCalls: Option<seq<ToolCall>>)

  /**
    The result of the non-streaming call: the reply's text, unless that text
    is empty, in which case the tool calls (when present) decide.
   */
  function CompletionResult(reply: CompletionReply, dispatch: ToolDispatcher): (r: string)
    ensures reply.content.Some? && reply.content.value != "" ==> r == reply.content.value
    ensures reply.content.None? ==> r == "null"
    ensures reply.content == Some("") ==>
      r == (match reply.toolCalls
            case None => ""
            case Some(calls) => if |calls| > 0 then dispatch(calls) else EmptyToolCallsNotice)
  {
    var response := NullableText(reply.content);
    if response == "" && reply.toolCalls.Some? then
      if |reply.toolCalls.value| > 0 then dispatch(reply.toolCalls.value) else EmptyToolCallsNotice
    else
      response
  }

  /**
    The non-streaming call returns an empty string only when the model said
    nothing and either made no tool call or its tool calls rendered as nothing;
    it returns the notice only when content and tool calls are both empty.
   */
  lemma EmptyResultMeansNoAnswer(reply: CompletionReply, dispatch: ToolDispatcher)
    ensures CompletionResult(reply, dispatch) == "" ==>
      reply.content == Some("")
      && (reply.toolCalls.None? || (|reply.toolCalls.value| > 0 && dispatch(reply.toolCalls.value) == ""))
    ensures CompletionResult(reply, dispatch) == EmptyToolCallsNotice ==>
      || reply.content == Some(EmptyToolCallsNotice)
      || (&& reply.content == Some("")
          && reply.toolCalls.Some?
          && (|reply.toolCalls.value| == 0 || dispatch(reply.toolCalls.value) == EmptyToolCallsNotice))
  {
  }

  /** How the streamed chunks ended: normally, or with an exception. */
  datatype StreamEnd = Finished | Broken(message: Option<string>)

  /** What the server did with the chat-completion request. */
  datatype ChatReply =
    | Streamed(chunks: seq<ChatChunk>, end: StreamEnd)
    | Answered(reply: CompletionReply)
    | Failed(message: Option<string>)

  datatype ChatRequest = ChatRequest(modelId: string, messages: seq<WireMessage>)

  /** The request sent (if any), the strings streamed to the callback, and the returned string. */
  datatype ChatCallOutcome = ChatCallOutcome(request: Option<ChatRequest>, streamed: seq<string>, result: string)

  /**
    One plain chat call once the system instruction is chosen. Without a client
    nothing is sent and the fixed error string comes back. Otherwise the
    request carries the instruction followed by the history; a streamed reply
    forwards every chunk's output and returns the empty string, or the
    exception string if the stream broke; a non-streaming reply returns its
    selected result. `dispatchWithoutAgent` renders tool calls met while
    streaming, `dispatch` those of a non-streaming reply.
   */
  function ChatCall(
    clientPresent: bool, modelName: string, instruction: string,
    history: seq<ChatTurn>, reply: ChatReply, dispatchWithoutAgent: ToolDispatcher, dispatch: ToolDispatcher
  ): (o: ChatCallOutcome)
    ensures !clientPresent ==> o == ChatCallOutcome(None, [], ClientNullError)
    ensures clientPresent ==>
      && o.request.Some?
      && o.request.value.modelId == modelName
      && o.request.value.messages == ChatTranslation.Translate(instruction, history)
      && |o.request.value.messages| == |history| + 1
      && o.request.value.messages[0] == System(TextContent(instruction))
    ensures clientPresent && reply.Streamed? ==>
      && o.streamed == ChatOutput(reply.chunks, dispatchWithoutAgent)
      && o.result == (if reply.end.Finished? then "" else ExceptionText(reply.end.message))
    ensures clientPresent && !reply.Streamed? ==> o.streamed == []
    ensures clientPresent && reply.Answered? ==> o.result == CompletionResult(reply.reply, dispatch)
    ensures clientPresent && reply.Failed? ==> o.result == ExceptionText(reply.message)
  {
    if !clientPresent then
      ChatCallOutcome(None, [], ClientNullError)
    else
      var request := ChatRequest(modelName, ChatTranslation.Translate(instruction, history));
      match reply
      case Streamed(chunks, end) =>
        var result := if end.Finished? then "" else ExceptionText(end.message);
        ChatCallOutcome(Some(request), ChatOutput(chunks, dispatchWithoutAgent), result)
      case Answered(completion) =>
        ChatCallOutcome(Some(request), [], CompletionResult(completion, dispatch))
      case Failed(message) =>
        ChatCallOutcome(Some(request), [], ExceptionText(message))
  }

  /**
    One plain chat call: the user's prompt, or the default tool-calling prompt
    built from the date and the function definitions, is the instruction.
   */
  function InferenceWithoutAgent(
    clientPresent: bool, modelName: string, userPrompt: string, date: string, functionDefinitions: string,
    history: seq<ChatTurn>, reply: ChatReply, dispatchWithoutAgent: ToolDispatcher, dispatch: ToolDispatcher
  ): (o: ChatCallOutcome)
    ensures !clientPresent ==> o == ChatCallOutcome(None, [], ClientNullError)
    ensures clientPresent ==>
      && o.request.Some?
      && o.request.value.modelId == modelName
      && o.request.value.messages == ChatTranslation.Translate(Instructions.ChatInstruction(userPrompt, date, functionDefinitions), history)
      && |o.request.value.messages| == |history| + 1
      && o.request.value.messages[0] == System(TextContent(Instructions.ChatInstruction(userPrompt, date, functionDefinitions)))
    ensures clientPresent && userPrompt != "" ==> o.request.value.messages[0] == System(TextContent(userPrompt))
    ensures clientPresent && reply.Streamed? ==>
      && o.streamed == ChatOutput(reply.chunks, dispatchWithoutAgent)
      && o.result == (if reply.end.Finished? then "" else ExceptionText(reply.end.message))
    ensures clientPresent && !reply.Streamed? ==> o.streamed == []
    ensures clientPresent && reply.Answered? ==> o.result == CompletionResult(reply.reply, dispatch)
    ensures clientPresent && reply.Failed? ==> o.result == ExceptionText(reply.message)
  {
    ChatCall(clientPresent, modelName, Instructions.ChatInstruction(userPrompt, date, functionDefinitions),
             history, reply, dispatchWithoutAgent, dispatch)
  }

  /**
    With an empty user prompt, the system message of the request is the
    default tool-calling prompt: it names the tool instructions and the date.
   */
  lemma DefaultPromptReachesRequest(
    modelName: string, date: string, functionDefinitions: string,
    history: seq<ChatTurn>, reply: ChatReply, dispatchWithoutAgent: ToolDispatcher, dispatch: ToolDispatcher)
    ensures
      var o := InferenceWithoutAgent(true, modelName, "", date, functionDefinitions, history, reply, dispatchWithoutAgent, dispatch);
      && o.request.Some?
      && o.request.value.messages[0].System?
      && Contains(o.request.value.messages[0].content.text, Instructions.ToolInstructionsHeading)
      && Contains(o.request.value.messages[0].content.text, date)
  {
  }

  /**
    One agent turn: the history is translated, the turn's events are forwarded
    to the callback, and the call returns the empty string. `load` resolves
    image turns; `dispatch` renders completed tool calls.
   */
  method RemoteAgentInference(
    history: seq<ChatTurn>, load: AgentTranslation.ImageLoader, events: seq<AgentEvent>, dispatch: ToolDispatcher
  ) returns (messages: seq<WireMessage>, sent: seq<string>, result: string)
    ensures messages == AgentTranslation.Translate(history, load)
    ensures AgentTranslation.ImagesPaired(messages)
    ensures AgentTranslation.AnswerTexts(messages) == AgentTranslation.UnsentTexts(history)
    ensures AgentTranslation.ImagesIn(messages) <= AgentTranslation.SentImagesIn(history)
    ensures sent == AgentOutput(events, dispatch)
    ensures |sent| == EmittingCount(events)
    ensures result == ""
  {
    messages := AgentTranslation.Translate(history, load);
    sent, result := DispatchAgentEvents(events, dispatch);
    AgentOutputLength(events, dispatch);
  }
}
