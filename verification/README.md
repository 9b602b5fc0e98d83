# Remote inference client of the Llama Stack Android demo, modelled in Dafny

The Android demo app talks to a remote Llama Stack server through one class,
`ExampleLlamaStackRemoteInference`. Most of that class is glue. This project
models the part that decides what the app sends and what it shows:

- **Instructions** (`instructions.dfy`). This picks the system instruction for a
  plain chat. It is the user's own prompt, or the built-in tool-calling prompt
  (kept character for character) with the date and the function definitions
  spliced in. The same module builds the agent configuration: the instruction,
  the calendar client tool, and the tool-prompt format chosen from the model name.
- **Plain-chat translation** (`chat_translation.dfy`). One system message comes
  first, then one user or completion message per turn. A decoder reads the
  request back, and a lemma proves the round trip.
- **Agent translation** (`agent_translation.dfy`). This is a fold over the history
  whose only state is an optional pending image. A sent image turn is held back.
  The next sent text turn emits its text and then the image. A second image turn
  while one is pending goes out as plain text. Unsent turns become anonymous tool
  responses. An image still pending at the end is dropped.
- **Stream dispatch** (`stream_dispatch.dfy`). These are the two streaming loops:
  plain chat-completion chunks and agent-turn events. Each is written twice: as a
  fold from events to the strings passed to `onStreamReceived`, and as a loop
  method proved equal to that fold.
- **Inference calls** (`inference.dfy`). The plain chat call covers the
  missing-client string, the exception string and result selection on the
  non-streaming path. The agent-turn call always returns the empty string.

The environment comes in as parameters:

- the image loader (content URI to optional encoded image);
- the two tool dispatchers;
- the formatted date;
- the rendered function definitions;
- the calendar tool definition;
- the server's stream or reply.

Kotlin's `null.toString()` yields `"null"`. This shows up in chunk texts, stop
reasons, completion content and exception messages, and the model spells each
case out.

Three behaviours of the code are worth stating plainly, since a reader might
expect otherwise:

- An unsent turn becomes a tool response carrying that turn's own text, with
  an empty call id and tool name (`AgentTranslation.UnsentKeepsPending`,
  `AgentTranslation.RunInvariants`).
- A streamed plain chat returns the empty string, not the text it streamed
  (`Inference.InferenceWithoutAgent`).
- An image turn need not be followed by a text turn. A sent image turn is held
  until the next sent text turn, which carries it
  (`AgentTranslation.ImageReachesNextPrompt`). A further image turn while one
  is held goes out as its text (`AgentTranslation.SecondImageKeepsFirst`). An
  image still held at the end is dropped
  (`AgentTranslation.TrailingImageDropped`, `AgentTranslation.LoneImageDropped`).

## Model

| member | source | states |
|---|---|---|
| Instructions.DefaultChatInstruction | examples/android_app/app/src/main/java/com/example/llamastackandroiddemo/ExampleLlamaStackRemoteInference.kt:101-124 | The built-in tool-calling prompt contains the tool-instruction heading, the formatted date and the function definitions. |
| Instructions.ChatInstruction | examples/android_app/app/src/main/java/com/example/llamastackandroiddemo/ExampleLlamaStackRemoteInference.kt:98-125 | A non-empty user prompt is used unchanged. An empty one is replaced by a prompt that contains "Tool Instructions:", the date and the function definitions. The instruction is never empty. |
| Instructions.DefaultAgentInstruction | examples/android_app/app/src/main/java/com/example/llamastackandroiddemo/ExampleLlamaStackRemoteInference.kt:321 | The default agent instruction contains the formatted date and ends with a full stop. |
| Instructions.ToolPromptFormatFor | examples/android_app/app/src/main/java/com/example/llamastackandroiddemo/ExampleLlamaStackRemoteInference.kt:323-327 | The format is JSON exactly when the model is one of the three listed Llama models, and PYTHON_LIST otherwise. |
| Instructions.CreateAgentConfig | examples/android_app/app/src/main/java/com/example/llamastackandroiddemo/ExampleLlamaStackRemoteInference.kt:311-350 | The calendar tool is offered exactly when the user prompt is empty, and the default instruction then contains the date. Otherwise the user prompt is the instruction. The format follows the model name, with 100 inference iterations and no session persistence. |
| ChatTranslation.TurnMessages | examples/android_app/app/src/main/java/com/example/llamastackandroiddemo/ExampleLlamaStackRemoteInference.kt:215-235 | There is one message per turn, in order: a user message for a sent turn, otherwise a completion with END_OF_MESSAGE and no tool calls. |
| ChatTranslation.Translate | examples/android_app/app/src/main/java/com/example/llamastackandroiddemo/ExampleLlamaStackRemoteInference.kt:201-238 | The request has \|history\|+1 messages. The first is the system message with the prompt, followed by each turn's message in order. |
| ChatTranslation.TranslateRoundTrip | examples/android_app/app/src/main/java/com/example/llamastackandroiddemo/ExampleLlamaStackRemoteInference.kt:205-237 | Decoding the request gives back the system prompt and every turn's text and sender, in order. |
| ChatTranslation.TranslateIgnoresImages | examples/android_app/app/src/main/java/com/example/llamastackandroiddemo/ExampleLlamaStackRemoteInference.kt:215-233 | Message type and image path do not reach the request: image turns are sent as their text. |
| AgentTranslation.Step | examples/android_app/app/src/main/java/com/example/llamastackandroiddemo/ExampleLlamaStackRemoteInference.kt:359-417 | One turn yields at most two messages, and none only for a sent image turn met with nothing pending. An image goes out only as the pending one, released by a sent text turn. The pending image is kept, cleared, or set from the loaded image of a sent image turn. |
| AgentTranslation.StepFacts | examples/android_app/app/src/main/java/com/example/llamastackandroiddemo/ExampleLlamaStackRemoteInference.kt:361-417 | One turn keeps the counting invariants. Every image it emits is the pending one, released by a sent text turn right after that turn's text. Only an unsent turn yields a tool response, which carries its text. |
| AgentTranslation.Run | examples/android_app/app/src/main/java/com/example/llamastackandroiddemo/ExampleLlamaStackRemoteInference.kt:356-418 | In total, the walk yields at most two messages per turn and at least one per turn that is not a sent image turn. |
| AgentTranslation.RunInvariants | examples/android_app/app/src/main/java/com/example/llamastackandroiddemo/ExampleLlamaStackRemoteInference.kt:352-422 | Images emitted plus the one left pending never exceed the sent image turns plus the one pending at the start. Every image message follows a user text message. The tool responses are the unsent turns' texts, in order, with empty call id and tool name. |
| AgentTranslation.RunProvenance | examples/android_app/app/src/main/java/com/example/llamastackandroiddemo/ExampleLlamaStackRemoteInference.kt:356-418 | Every emitted image, and the one left pending, is the image pending at the start or the loaded image of a sent image turn of the history. |
| AgentTranslation.Translate | examples/android_app/app/src/main/java/com/example/llamastackandroiddemo/ExampleLlamaStackRemoteInference.kt:352-422 | Every image sent is the loaded image of some sent image turn, and there are no more images than sent image turns. Images follow a user text, and the tool responses are exactly the unsent turns. |
| AgentTranslation.RunAppend | examples/android_app/app/src/main/java/com/example/llamastackandroiddemo/ExampleLlamaStackRemoteInference.kt:356-418 | The walk is a fold: translating h1+h2 is translating h1, then h2 from the image h1 left pending. |
| AgentTranslation.RunTextOnly | examples/android_app/app/src/main/java/com/example/llamastackandroiddemo/ExampleLlamaStackRemoteInference.kt:358-418 | With no sent image turn, nothing is ever pending. There is one message per turn, in order: a user text for each sent turn, otherwise a tool response with empty call id and tool name. |
| AgentTranslation.TranslateTextOnly | examples/android_app/app/src/main/java/com/example/llamastackandroiddemo/ExampleLlamaStackRemoteInference.kt:358-418 | The same one-to-one mapping holds for the whole agent request. |
| AgentTranslation.ImageThenText | examples/android_app/app/src/main/java/com/example/llamastackandroiddemo/ExampleLlamaStackRemoteInference.kt:362-396 | A sent image followed by a sent text gives the user text, then the user image. It gives only the text when the image could not be loaded. |
| AgentTranslation.LoneImageDropped | examples/android_app/app/src/main/java/com/example/llamastackandroiddemo/ExampleLlamaStackRemoteInference.kt:362-374 | A history made of one sent image turn gives no message. |
| AgentTranslation.TrailingImageDropped | examples/android_app/app/src/main/java/com/example/llamastackandroiddemo/ExampleLlamaStackRemoteInference.kt:356-421 | A sent image turn at the end, with nothing pending before it, leaves the request unchanged: the pending image is dropped. |
| AgentTranslation.SecondImageKeepsFirst | examples/android_app/app/src/main/java/com/example/llamastackandroiddemo/ExampleLlamaStackRemoteInference.kt:361-405 | A second image turn while one is pending goes out as plain user text and keeps the first image pending. The next text turn then carries the first image. |
| AgentTranslation.UnsentKeepsPending | examples/android_app/app/src/main/java/com/example/llamastackandroiddemo/ExampleLlamaStackRemoteInference.kt:407-417 | Unsent turns leave the pending image, or its absence, in place. Each becomes one anonymous tool response, in order. |
| AgentTranslation.PendingSurvivesAnswers | examples/android_app/app/src/main/java/com/example/llamastackandroiddemo/ExampleLlamaStackRemoteInference.kt:376-417 | A pending image crosses any number of unsent turns and follows the next sent text turn. |
| AgentTranslation.ImageAnswersPrompt | examples/android_app/app/src/main/java/com/example/llamastackandroiddemo/ExampleLlamaStackRemoteInference.kt:361-417 | From nothing pending, a sent image turn, then unsent turns, then a sent text turn give the tool responses, the text, and the loaded image, leaving nothing pending. |
| AgentTranslation.ImageReachesNextPrompt | examples/android_app/app/src/main/java/com/example/llamastackandroiddemo/ExampleLlamaStackRemoteInference.kt:352-422 | For any history: a sent image turn met with nothing pending puts its loaded image right after the next sent text turn, across unsent turns in between. The turns before and after translate on their own. |
| StreamDispatch.ChunkOutput | examples/android_app/app/src/main/java/com/example/llamastackandroiddemo/ExampleLlamaStackRemoteInference.kt:147-163 | A chunk sends one line for a tool-call delta, plus one string unless its stop reason is end_of_turn. |
| StreamDispatch.ChunkOutputShape | examples/android_app/app/src/main/java/com/example/llamastackandroiddemo/ExampleLlamaStackRemoteInference.kt:147-163 | A tool-call chunk emits a newline followed by the dispatch result for its call, or by the bug notice when the call is null. A chunk also emits its text ("null" if it has none) exactly when its stop reason is not end_of_turn. |
| StreamDispatch.ChatOutput | examples/android_app/app/src/main/java/com/example/llamastackandroiddemo/ExampleLlamaStackRemoteInference.kt:145-165 | A chunk stream sends at most two strings per chunk. |
| StreamDispatch.ChatOutputAppend | examples/android_app/app/src/main/java/com/example/llamastackandroiddemo/ExampleLlamaStackRemoteInference.kt:145-165 | Output follows chunk order: the output of a+b is the output of a followed by the output of b. |
| StreamDispatch.ChatOutputOfText | examples/android_app/app/src/main/java/com/example/llamastackandroiddemo/ExampleLlamaStackRemoteInference.kt:158-163 | Text chunks that do not end the turn emit exactly their texts, one each, in order. |
| StreamDispatch.EndOfTurnSilent | examples/android_app/app/src/main/java/com/example/llamastackandroiddemo/ExampleLlamaStackRemoteInference.kt:158-163 | A stream whose chunks all end the turn and carry no tool call emits nothing. |
| StreamDispatch.DispatchChatChunks | examples/android_app/app/src/main/java/com/example/llamastackandroiddemo/ExampleLlamaStackRemoteInference.kt:145-165 | The chunk loop hands the callback exactly the fold's strings, in chunk order. |
| StreamDispatch.EventOutput | examples/android_app/app/src/main/java/com/example/llamastackandroiddemo/ExampleLlamaStackRemoteInference.kt:281-305 | An event sends one string exactly when it emits: the text of a text step progress, or the rendered tool calls of a step completion with a non-empty list. |
| StreamDispatch.AgentOutput | examples/android_app/app/src/main/java/com/example/llamastackandroiddemo/ExampleLlamaStackRemoteInference.kt:279-306 | An event stream sends at most one string per event. |
| StreamDispatch.AgentOutputLength | examples/android_app/app/src/main/java/com/example/llamastackandroiddemo/ExampleLlamaStackRemoteInference.kt:279-306 | Exactly one string per emitting event: a step progress with a text delta, or a step completion with non-empty tool calls. |
| StreamDispatch.AgentOutputAppend | examples/android_app/app/src/main/java/com/example/llamastackandroiddemo/ExampleLlamaStackRemoteInference.kt:279-306 | Agent output follows event order. |
| StreamDispatch.SilentEventIrrelevant | examples/android_app/app/src/main/java/com/example/llamastackandroiddemo/ExampleLlamaStackRemoteInference.kt:281-305 | Inserting a non-emitting event (turn start, step start, turn complete, empty step) anywhere changes nothing. |
| StreamDispatch.TwoTextStepsThenComplete | examples/android_app/app/src/main/java/com/example/llamastackandroiddemo/ExampleLlamaStackRemoteInference.kt:288-304 | Two text progress events and a turn completion emit the two texts, in order. |
| StreamDispatch.DispatchAgentEvents | examples/android_app/app/src/main/java/com/example/llamastackandroiddemo/ExampleLlamaStackRemoteInference.kt:278-308 | The event loop hands the callback exactly the fold's strings and returns "". |
| Inference.CompletionResult | examples/android_app/app/src/main/java/com/example/llamastackandroiddemo/ExampleLlamaStackRemoteInference.kt:181-198 | Non-empty content is the result, and non-string content reads "null". For empty content: absent tool calls give "", non-empty tool calls give their dispatch result, and an empty list gives the bug notice. |
| Inference.EmptyResultMeansNoAnswer | examples/android_app/app/src/main/java/com/example/llamastackandroiddemo/ExampleLlamaStackRemoteInference.kt:181-192 | An empty result means empty content with no tool calls, or tool calls that rendered as nothing. The bug notice comes only from empty content with an empty call list, or from content or a dispatch result that is literally that text. |
| Inference.ChatCall | examples/android_app/app/src/main/java/com/example/llamastackandroiddemo/ExampleLlamaStackRemoteInference.kt:88-199 | Without a client, nothing is sent and the fixed error string is returned. Otherwise the request carries the model and the plain-chat translation of the instruction and history. A stream emits its fold and returns "", or the exception string when the stream broke. A reply returns its selected result, and a failed call returns the exception string. |
| Inference.InferenceWithoutAgent | examples/android_app/app/src/main/java/com/example/llamastackandroiddemo/ExampleLlamaStackRemoteInference.kt:88-199 | The same outcome, with the request's messages equal to the plain-chat translation of the chosen instruction (the user prompt, or the default prompt) and the history. |
| Inference.DefaultPromptReachesRequest | examples/android_app/app/src/main/java/com/example/llamastackandroiddemo/ExampleLlamaStackRemoteInference.kt:98-140 | With an empty user prompt, the request's system message contains "Tool Instructions:" and the date. |
| Inference.RemoteAgentInference | examples/android_app/app/src/main/java/com/example/llamastackandroiddemo/ExampleLlamaStackRemoteInference.kt:266-309 | An agent turn sends the translated history, with images paired and tool responses matching the unsent turns. It streams one string per emitting event and returns "". |

## Left out

- The thread-and-future wrappers `inferenceStartWithoutAgent` and `inferenceStartWithAgent` are left out. They only add concurrency. An exception inside them is printed and the future never completes, so the caller hangs; that hang is not modelled.
- Building the HTTP client and every network call to the server are left out. A missing client is the flag `clientPresent`, and the server's stream or reply is an input.
- `createRemoteAgent` is left out. It only creates the agent and the "test-session" session on the server.
- `getFilePathFromUri` and `encodeImageToDataUrl` are replaced by the image loader parameter. When no MIME type can be guessed, `encodeImageToDataUrl` throws, and that exception escapes the translation. The loader models only success or `None`.
- Reading the clock and formatting the date are left out. The formatted date is a string parameter.
- `functionDispatch`, `functionDispatchWithoutAgent`, `AvailableFunctions` and `CustomTools` are not part of this model. They appear as the dispatcher parameters, the function-definitions string and the calendar `ToolDef`.
- Logging through `AppLogging` has no effect on behaviour and is left out.
- The cast of the Android context to the streaming callback is left out. The callback is modelled as the sequence of strings it receives. `onStatStreamReceived` is never called by this code.
- The temperature argument is ignored by the source and is not carried. Greedy sampling and automatic tool choice are constants and are not carried either.
- A chat turn's image path is a non-null string. A null path would make `Uri.parse` throw, and that case is not modelled.
- A step-complete event whose step details are not an inference step is not modelled. What the SDK's `asInferenceStep()` does for such steps cannot be seen here. `StepComplete(None)` stands for "no tool calls".
- Exceptions thrown by the tool dispatchers inside the streaming loops are not modelled.
- StreamDispatch.ChunkOutput: a tool-call delta's payload is reduced to an optional parsed call. The source converts it with the SDK's `asToolCall()` (line 152), whose behaviour cannot be seen here. If that conversion throws on a payload that is not a parsed call, nothing is sent for the chunk, and the catch at lines 194-196 returns the exception string. The model represents that case only by ending the stream with `Broken` at that chunk.
- Messages.MessageType: the message type is assumed to have only the two values the code tests, `TEXT` and `IMAGE` (lines 363 and 376). If the app's enum had further values, a sent turn of such a type would take the `else` branch at lines 398-405: it goes out as user text and keeps the pending image. No constructor models such a value.
