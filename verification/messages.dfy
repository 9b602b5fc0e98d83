/**
  The data model shared by the translators and the stream dispatchers: the
  application's chat turns, the wire messages of the remote inference API, and
  the opaque values (tool calls, images) that only travel through the code.
 */
module Messages {
  import opened Wrappers

  /** Whether a chat turn is plain text or stands for an attached image. */
  datatype MessageType = TextMessage | ImageMessage

  /**
    One turn of the application's conversation history. `isSent` marks turns
    the user typed; the others are earlier model responses. `imagePath` is the
    content URI of the attached image and only matters for image turns.
   */
  datatype ChatTurn = ChatTurn(text: string, isSent: bool, messageType: MessageType, imagePath: string)

  /** An image already encoded as a `data:<mime>;base64,...` URL. */
  datatype ImageRef = ImageRef(dataUrl: string)

  /** A tool call produced by the model; the model never looks inside it. */
  datatype ToolCall = ToolCall(callId: string, toolName: string, arguments: string)

  /** The stop reasons the inference API reports on a completion or a chunk. */
  datatype StopReason = EndOfTurn | EndOfMessage | OutOfTokens

  /** The content of a wire message: plain text or one image item. */
  datatype Content = TextContent(text: string) | ImageContent(image: ImageRef)

  /** The messages sent to the remote inference API. */
  datatype WireMessage =
    | System(content: Content)
    | User(content: Content)
    | Completion(content: Content, stopReason: StopReason, toolCalls: seq<ToolCall>)
    | ToolResponse(callId: string, content: Content, toolName: string)

  predicate IsUserText(m: WireMessage) {
    m.User? && m.content.TextContent?
  }

  predicate IsUserImage(m: WireMessage) {
    m.User? && m.content.ImageContent?
  }

  /** A sent turn of image type: the only kind the agent translator may buffer. */
  predicate IsSentImage(t: ChatTurn) {
    t.isSent && t.messageType == ImageMessage
  }

  /** `part` occurs in `s` starting at index `i`. */
  predicate OccursAt(s: string, part: string, i: int) {
    0 <= i <= |s| - |part| && s[i..i + |part|] == part
  }

  /** `part` occurs somewhere inside `s`. */
  ghost predicate Contains(s: string, part: string) {
    exists i :: OccursAt(s, part, i)
  }

  lemma ContainsMiddle(before: string, part: string, after: string)
    ensures Contains(before + part + after, part)
  {
    var s := before + part + after;
    assert s[|before|..|before| + |part|] == part;
    assert OccursAt(s, part, |before|);
  }

  /** Concatenation regroups freely. */
  lemma AppendAssoc<T>(x: seq<T>, y: seq<T>, z: seq<T>)
    ensures x + (y + z) == (x + y) + z
  {
  }

  /** Kotlin's `toString()` on a nullable string: `null` prints as "null". */
  function NullableText(s: Option<string>): string {
    match s
    case Some(v) => v
    case None => "null"
  }
}
