/**
  Translation of the conversation history into the message list of a plain
  chat-completion request: one system message, then one message per turn.
 */
module ChatTranslation {
  import opened Wrappers
  import opened Messages

  /** The wire message for one turn: the user's text, or an earlier model answer. */
  function TurnMessage(t: ChatTurn): WireMessage {
    if t.isSent then User(TextContent(t.text))
    else Completion(TextContent(t.text), EndOfMessage, [])
  }

  function TurnMessages(history: seq<ChatTurn>): (ms: seq<WireMessage>)
    ensures |ms| == |history|
    ensures forall i :: 0 <= i < |history| ==> ms[i] == TurnMessage(history[i])
  {
    if |history| == 0 then []
    else [TurnMessage(history[0])] + TurnMessages(history[1..])
  }

  /**
    The request messages: the system prompt first, then every turn in order.
    Image turns travel as their text; their image is not attached here.
   */
  function Translate(systemPrompt: string, history: seq<ChatTurn>): (ms: seq<WireMessage>)
    ensures |ms| == |history| + 1
    ensures ms[0] == System(TextContent(systemPrompt))
    ensures forall i :: 0 <= i < |history| ==> ms[i + 1] == TurnMessage(history[i])
  {
    [System(TextContent(systemPrompt))] + TurnMessages(history)
  }

  /** What the plain-chat request keeps of a turn: its text and who wrote it. */
  datatype Exchange = Exchange(text: string, isSent: bool)

  function Transcript(history: seq<ChatTurn>): (ex: seq<Exchange>)
    ensures |ex| == |history|
    ensures forall i :: 0 <= i < |history| ==> ex[i] == Exchange(history[i].text, history[i].isSent)
  {
    if |history| == 0 then []
    else [Exchange(history[0].text, history[0].isSent)] + Transcript(history[1..])
  }

  /** The decoded form of a plain-chat request. */
  datatype Decoded = Decoded(systemPrompt: string, exchanges: seq<Exchange>)

  /** Reads one turn back from its wire message; fails on any other shape. */
  function DecodeTurn(m: WireMessage): Option<Exchange> {
    match m
    case User(TextContent(text)) => Some(Exchange(text, true))
    case Completion(TextContent(text), EndOfMessage, calls) =>
      if calls == [] then Some(Exchange(text, false)) else None
    case _ => None
  }

  function DecodeTurns(ms: seq<WireMessage>): Option<seq<Exchange>> {
    if |ms| == 0 then Some([])
    else
      match (DecodeTurn(ms[0]), DecodeTurns(ms[1..]))
      case (Some(e), Some(rest)) => Some([e] + rest)
      case _ => None
  }

  /** Reads a request back into its system prompt and transcript. */
  function Decode(ms: seq<WireMessage>): Option<Decoded> {
    if |ms| == 0 then None
    else
      match (ms[0], DecodeTurns(ms[1..]))
      case (System(TextContent(prompt)), Some(ex)) => Some(Decoded(prompt, ex))
      case _ => None
  }

  lemma {:induction false} DecodeTurnMessages(history: seq<ChatTurn>)
    ensures DecodeTurns(TurnMessages(history)) == Some(Transcript(history))
  {
    if |history| > 0 {
      DecodeTurnMessages(history[1..]);
      assert TurnMessages(history)[1..] == TurnMessages(history[1..]);
      assert Transcript(history) == [Exchange(history[0].text, history[0].isSent)] + Transcript(history[1..]);
    }
  }

  /** The request loses nothing of the transcript: it decodes back to prompt and turns. */
  lemma {:induction false} TranslateRoundTrip(systemPrompt: string, history: seq<ChatTurn>)
    ensures Decode(Translate(systemPrompt, history)) == Some(Decoded(systemPrompt, Transcript(history)))
  {
    var ms := Translate(systemPrompt, history);
    assert ms[1..] == TurnMessages(history);
    DecodeTurnMessages(history);
  }

  /**
    Message type and image path never reach the plain-chat request: histories
    with the same texts and senders give the same request.
   */
  lemma TranslateIgnoresImages(systemPrompt: string, h1: seq<ChatTurn>, h2: seq<ChatTurn>)
    requires Transcript(h1) == Transcript(h2)
    ensures Translate(systemPrompt, h1) == Translate(systemPrompt, h2)
  {
  }
}
