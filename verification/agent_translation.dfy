/**
  Translation of the conversation history into the messages of an agent turn.
  The translator walks the history once, carrying one piece of state: the image
  of the last sent image turn, held back until the next sent text turn so that
  the image follows its prompt.
 */
module AgentTranslation {
  import opened Wrappers
  import opened Messages

  /**
    Resolves an image turn's content URI to an encoded image. Resolving the
    file path, guessing the MIME type and base64 encoding all live behind it;
    `None` stands for any step that found nothing.
   */
  type ImageLoader = string -> Option<ImageRef>

  /** The messages emitted so far and the image still waiting for its prompt. */
  datatype Translation = Translation(messages: seq<WireMessage>, pending: Option<ImageRef>)

  /** The reply slot of an earlier model answer: no call id and no tool name. */
  function AnswerMessage(text: string): WireMessage {
    ToolResponse("", TextContent(text), "")
  }

  /**
    One turn of the walk, from the image pending before it. Only a sent image
    turn with nothing pending is silent. An image goes out only as the pending
    one, released by a sent text turn. The pending image is kept, cleared, or
    replaced by the loaded image of a sent image turn that found none pending.
   */
  function Step(pending: Option<ImageRef>, t: ChatTurn, load: ImageLoader): (r: Translation)
    ensures 1 <= |r.messages| + (if IsSentImage(t) then 1 else 0) && |r.messages| <= 2
    ensures r.messages == [] <==> IsSentImage(t) && pending.None?
    ensures forall i :: 0 <= i < |r.messages| && IsUserImage(r.messages[i]) ==>
      && pending.Some? && t.isSent && t.messageType == TextMessage
      && r.messages[i] == User(ImageContent(pending.value))
    ensures || r.pending == pending
            || r.pending == None
            || (IsSentImage(t) && pending.None? && r.pending == load(t.imagePath))
  {
    if t.isSent then
      if t.messageType == ImageMessage && pending.None? then
        Translation([], load(t.imagePath))
      else if t.messageType == TextMessage && pending.Some? then
        Translation([User(TextContent(t.text)), User(ImageContent(pending.value))], None)
      else
        Translation([User(TextContent(t.text))], pending)
    else
      Translation([AnswerMessage(t.text)], pending)
  }

  // Counting helpers for the contracts below.

  function ImagesIn(ms: seq<WireMessage>): nat {
    if |ms| == 0 then 0 else (if IsUserImage(ms[0]) then 1 else 0) + ImagesIn(ms[1..])
  }

  function SentImagesIn(h: seq<ChatTurn>): nat {
    if |h| == 0 then 0 else (if IsSentImage(h[0]) then 1 else 0) + SentImagesIn(h[1..])
  }

  function Held(p: Option<ImageRef>): nat {
    if p.Some? then 1 else 0
  }

  /** The texts of the tool-response messages, in order. */
  function AnswerTexts(ms: seq<WireMessage>): seq<string> {
    if |ms| == 0 then []
    else (if ms[0].ToolResponse? && ms[0].content.TextContent? then [ms[0].content.text] else [])
         + AnswerTexts(ms[1..])
  }

  /** The texts of the turns the user did not send, in order. */
  function UnsentTexts(h: seq<ChatTurn>): seq<string> {
    if |h| == 0 then [] else (if h[0].isSent then [] else [h[0].text]) + UnsentTexts(h[1..])
  }

  /** Every image message directly follows a user text message. */
  ghost predicate ImagesPaired(ms: seq<WireMessage>) {
    forall i :: 0 <= i < |ms| && IsUserImage(ms[i]) ==> 0 < i && IsUserText(ms[i - 1])
  }

  /** Every tool-response message carries text and empty call id and tool name. */
  ghost predicate AnswersAnonymous(ms: seq<WireMessage>) {
    forall i :: 0 <= i < |ms| && ms[i].ToolResponse? ==>
      ms[i].callId == "" && ms[i].toolName == "" && ms[i].content.TextContent?
  }

  lemma {:induction false} ImagesInAppend(a: seq<WireMessage>, b: seq<WireMessage>)
    ensures ImagesIn(a + b) == ImagesIn(a) + ImagesIn(b)
  {
    if |a| > 0 {
      assert (a + b)[1..] == a[1..] + b;
      ImagesInAppend(a[1..], b);
    } else {
      assert a + b == b;
    }
  }

  lemma {:induction false} AnswerTextsAppend(a: seq<WireMessage>, b: seq<WireMessage>)
    ensures AnswerTexts(a + b) == AnswerTexts(a) + AnswerTexts(b)
  {
    if |a| > 0 {
      assert (a + b)[1..] == a[1..] + b;
      AnswerTextsAppend(a[1..], b);
    } else {
      assert a + b == b;
    }
  }

  lemma ImagesPairedAppend(a: seq<WireMessage>, b: seq<WireMessage>)
    requires ImagesPaired(a) && ImagesPaired(b)
    ensures ImagesPaired(a + b)
  {
  }

  lemma AnswersAnonymousAppend(a: seq<WireMessage>, b: seq<WireMessage>)
    requires AnswersAnonymous(a) && AnswersAnonymous(b)
    ensures AnswersAnonymous(a + b)
  {
  }

  /** What a single step keeps of the walk's invariants. */
  lemma StepFacts(pending: Option<ImageRef>, t: ChatTurn, load: ImageLoader)
    ensures ImagesIn(Step(pending, t, load).messages) + Held(Step(pending, t, load).pending)
      <= (if IsSentImage(t) then 1 else 0) + Held(pending)
    ensures ImagesPaired(Step(pending, t, load).messages)
    ensures AnswersAnonymous(Step(pending, t, load).messages)
    ensures AnswerTexts(Step(pending, t, load).messages) == (if t.isSent then [] else [t.text])
    ensures forall i :: 0 <= i < |Step(pending, t, load).messages| && IsUserImage(Step(pending, t, load).messages[i]) ==>
      && pending.Some? && t.isSent && t.messageType == TextMessage
      && Step(pending, t, load).messages[i] == User(ImageContent(pending.value))
    ensures forall i :: 0 <= i < |Step(pending, t, load).messages| && IsUserImage(Step(pending, t, load).messages[i]) ==>
      0 < i && Step(pending, t, load).messages[i - 1] == User(TextContent(t.text))
  {
    var ms := Step(pending, t, load).messages;
    if |ms| == 2 {
      assert ms[1..][1..] == [];
      assert ImagesIn(ms[1..]) == 1;
      assert ImagesIn(ms) == 1;
      assert AnswerTexts(ms[1..]) == [];
    } else if |ms| == 1 {
      assert ms[1..] == [];
    }
  }

  /**
    Walks `h` from the pending image `pending`, returning the messages and the
    image still pending at the end. Every turn yields at most two messages,
    and only sent image turns may yield none.
   */
  function Run(pending: Option<ImageRef>, h: seq<ChatTurn>, load: ImageLoader): (r: Translation)
    ensures |h| <= |r.messages| + SentImagesIn(h)
    ensures |r.messages| <= 2 * |h|
    decreases |h|
  {
    if |h| == 0 then Translation([], pending)
    else
      var s := Step(pending, h[0], load);
      var rest := Run(s.pending, h[1..], load);
      Translation(s.messages + rest.messages, rest.pending)
  }

  /**
    The counting invariants of the walk: no more images emitted or left
    pending than sent image turns (plus the image pending at the start). Every
    image follows a user text message, and the tool responses are exactly the
    unsent turns, in order.
   */
  lemma {:induction false} RunInvariants(pending: Option<ImageRef>, h: seq<ChatTurn>, load: ImageLoader)
    ensures ImagesIn(Run(pending, h, load).messages) + Held(Run(pending, h, load).pending)
      <= SentImagesIn(h) + Held(pending)
    ensures ImagesPaired(Run(pending, h, load).messages)
    ensures AnswersAnonymous(Run(pending, h, load).messages)
    ensures AnswerTexts(Run(pending, h, load).messages) == UnsentTexts(h)
    decreases |h|
  {
    if |h| > 0 {
      var s := Step(pending, h[0], load);
      var rest := Run(s.pending, h[1..], load);
      RunInvariants(s.pending, h[1..], load);
      StepFacts(pending, h[0], load);
      ImagesInAppend(s.messages, rest.messages);
      ImagesPairedAppend(s.messages, rest.messages);
      AnswersAnonymousAppend(s.messages, rest.messages);
      AnswerTextsAppend(s.messages, rest.messages);
    }
  }

  /** `img` is the loaded image of some sent image turn of `h`. */
  ghost predicate LoadedFrom(img: ImageRef, h: seq<ChatTurn>, load: ImageLoader) {
    exists j :: 0 <= j < |h| && IsSentImage(h[j]) && load(h[j].imagePath) == Some(img)
  }

  /**
    Every image in `ms`, and the image `left` pending after them, is the image
    `start` pending before them or the loaded image of a sent image turn of `h`.
   */
  ghost predicate ImagesFrom(ms: seq<WireMessage>, left: Option<ImageRef>, start: Option<ImageRef>,
                             h: seq<ChatTurn>, load: ImageLoader) {
    && (forall i :: 0 <= i < |ms| && IsUserImage(ms[i]) ==>
          start == Some(ms[i].content.image) || LoadedFrom(ms[i].content.image, h, load))
    && (left.Some? ==> left == start || LoadedFrom(left.value, h, load))
  }

  lemma LoadedFromTail(img: ImageRef, h: seq<ChatTurn>, load: ImageLoader)
    requires |h| > 0 && LoadedFrom(img, h[1..], load)
    ensures LoadedFrom(img, h, load)
  {
    var j :| 0 <= j < |h[1..]| && IsSentImage(h[1..][j]) && load(h[1..][j].imagePath) == Some(img);
    assert h[j + 1] == h[1..][j];
  }

  /** Images are never invented: each one was pending at the start or loaded from a sent image turn. */
  lemma {:induction false} RunProvenance(pending: Option<ImageRef>, h: seq<ChatTurn>, load: ImageLoader)
    ensures ImagesFrom(Run(pending, h, load).messages, Run(pending, h, load).pending, pending, h, load)
    decreases |h|
  {
    if |h| > 0 {
      var s := Step(pending, h[0], load);
      var rest := Run(s.pending, h[1..], load);
      RunProvenance(s.pending, h[1..], load);
      // The image the step leaves pending is the start image or loaded from h[0].
      assert s.pending.Some? ==> s.pending == pending || LoadedFrom(s.pending.value, h, load) by {
        if s.pending.Some? && s.pending != pending {
          assert IsSentImage(h[0]) && load(h[0].imagePath) == s.pending;
        }
      }
      var ms := s.messages + rest.messages;
      forall i | 0 <= i < |ms| && IsUserImage(ms[i])
        ensures pending == Some(ms[i].content.image) || LoadedFrom(ms[i].content.image, h, load)
      {
        if i >= |s.messages| {
          var k := i - |s.messages|;
          assert ms[i] == rest.messages[k];
          if LoadedFrom(ms[i].content.image, h[1..], load) {
            LoadedFromTail(ms[i].content.image, h, load);
          }
        }
      }
      if rest.pending.Some? && LoadedFrom(rest.pending.value, h[1..], load) {
        LoadedFromTail(rest.pending.value, h, load);
      }
    }
  }

  /** The agent-turn messages for a history; an image still pending at the end is dropped. */
  function Translate(h: seq<ChatTurn>, load: ImageLoader): (ms: seq<WireMessage>)
    ensures forall i :: 0 <= i < |ms| && IsUserImage(ms[i]) ==> LoadedFrom(ms[i].content.image, h, load)
    ensures ImagesIn(ms) <= SentImagesIn(h)
    ensures ImagesPaired(ms)
    ensures AnswersAnonymous(ms)
    ensures AnswerTexts(ms) == UnsentTexts(h)
  {
    RunInvariants(None, h, load);
    RunProvenance(None, h, load);
    Run(None, h, load).messages
  }

  /** Walking a concatenation is walking the parts one after the other. */
  lemma {:induction false} RunAppend(p: Option<ImageRef>, h1: seq<ChatTurn>, h2: seq<ChatTurn>, load: ImageLoader)
    ensures Run(p, h1 + h2, load)
      == Translation(Run(p, h1, load).messages + Run(Run(p, h1, load).pending, h2, load).messages,
                     Run(Run(p, h1, load).pending, h2, load).pending)
    decreases |h1|
  {
    if |h1| == 0 {
      assert h1 + h2 == h2;
    } else {
      var s := Step(p, h1[0], load);
      assert (h1 + h2)[0] == h1[0];
      assert (h1 + h2)[1..] == h1[1..] + h2;
      var mid := Run(s.pending, h1[1..], load);
      RunAppend(s.pending, h1[1..], h2, load);
      var last := Run(mid.pending, h2, load);
      assert Run(p, h1 + h2, load) == Translation(s.messages + (mid.messages + last.messages), last.pending);
      assert Run(p, h1, load) == Translation(s.messages + mid.messages, mid.pending);
      AppendAssoc(s.messages, mid.messages, last.messages);
    }
  }

  /** Walking one turn is taking one step. */
  lemma RunOne(p: Option<ImageRef>, t: ChatTurn, load: ImageLoader)
    ensures Run(p, [t], load) == Step(p, t, load)
  {
  }

  /** Walking two turns is taking two steps. */
  lemma RunTwo(p: Option<ImageRef>, t1: ChatTurn, t2: ChatTurn, load: ImageLoader)
    ensures Run(p, [t1, t2], load)
      == Translation(Step(p, t1, load).messages + Step(Step(p, t1, load).pending, t2, load).messages,
                     Step(Step(p, t1, load).pending, t2, load).pending)
  {
    assert [t1, t2][1..] == [t2];
    RunOne(Step(p, t1, load).pending, t2, load);
  }

  /** A history with no sent image turn. */
  ghost predicate TextOnly(h: seq<ChatTurn>) {
    forall i :: 0 <= i < |h| ==> !IsSentImage(h[i])
  }

  /**
    Without sent image turns and with nothing pending, the walk is a plain map:
    one message per turn, in order, a user message for each sent turn and an
    anonymous tool response for each other turn.
   */
  lemma {:induction false} RunTextOnly(h: seq<ChatTurn>, load: ImageLoader)
    requires TextOnly(h)
    ensures Run(None, h, load).pending == None
    ensures |Run(None, h, load).messages| == |h|
    ensures forall i :: 0 <= i < |h| ==>
      Run(None, h, load).messages[i] ==
        (if h[i].isSent then User(TextContent(h[i].text)) else AnswerMessage(h[i].text))
  {
    if |h| > 0 {
      assert !IsSentImage(h[0]);
      assert TextOnly(h[1..]) by {
        forall i | 0 <= i < |h[1..]| ensures !IsSentImage(h[1..][i]) {
          assert h[1..][i] == h[i + 1];
        }
      }
      RunTextOnly(h[1..], load);
      var ms := Run(None, h, load).messages;
      var rest := Run(None, h[1..], load).messages;
      assert ms == Step(None, h[0], load).messages + rest;
      forall i | 0 <= i < |h|
        ensures ms[i] == (if h[i].isSent then User(TextContent(h[i].text)) else AnswerMessage(h[i].text))
      {
        if i > 0 {
          assert ms[i] == rest[i - 1];
          assert h[1..][i - 1] == h[i];
        }
      }
    }
  }

  lemma TranslateTextOnly(h: seq<ChatTurn>, load: ImageLoader)
    requires TextOnly(h)
    ensures |Translate(h, load)| == |h|
    ensures forall i :: 0 <= i < |h| ==>
      Translate(h, load)[i] ==
        (if h[i].isSent then User(TextContent(h[i].text)) else AnswerMessage(h[i].text))
  {
    RunTextOnly(h, load);
  }

  /**
    A sent image turn followed by a sent text turn: the text, then the image,
    when the image could be loaded; only the text when it could not.
   */
  lemma ImageThenText(image: ChatTurn, prompt: ChatTurn, load: ImageLoader)
    requires IsSentImage(image)
    requires prompt.isSent && prompt.messageType == TextMessage
    ensures load(image.imagePath).Some? ==>
      Translate([image, prompt], load)
        == [User(TextContent(prompt.text)), User(ImageContent(load(image.imagePath).value))]
    ensures load(image.imagePath).None? ==>
      Translate([image, prompt], load) == [User(TextContent(prompt.text))]
  {
    RunTwo(None, image, prompt, load);
  }

  /** A lone sent image turn produces no message at all. */
  lemma LoneImageDropped(image: ChatTurn, load: ImageLoader)
    requires IsSentImage(image)
    ensures Translate([image], load) == []
  {
    RunOne(None, image, load);
  }

  /**
    A sent image turn that leaves an image pending at the end of the history
    changes nothing: the pending image is dropped.
   */
  lemma TrailingImageDropped(h: seq<ChatTurn>, image: ChatTurn, load: ImageLoader)
    requires IsSentImage(image)
    requires Run(None, h, load).pending == None
    ensures Translate(h + [image], load) == Translate(h, load)
  {
    RunAppend(None, h, [image], load);
    RunOne(None, image, load);
    assert Translate(h, load) + [] == Translate(h, load);
  }

  /**
    A second sent image turn while an image is pending goes out as a plain user
    text message and the first image stays pending; the next sent text turn
    then carries the first image.
   */
  lemma SecondImageKeepsFirst(img: ImageRef, second: ChatTurn, prompt: ChatTurn, load: ImageLoader)
    requires IsSentImage(second)
    requires prompt.isSent && prompt.messageType == TextMessage
    ensures Run(Some(img), [second], load) == Translation([User(TextContent(second.text))], Some(img))
    ensures Run(Some(img), [second, prompt], load).messages
      == [User(TextContent(second.text)), User(TextContent(prompt.text)), User(ImageContent(img))]
  {
    RunOne(Some(img), second, load);
    RunTwo(Some(img), second, prompt, load);
  }

  /** Turns none of which the user sent. */
  ghost predicate AllUnsent(h: seq<ChatTurn>) {
    forall i :: 0 <= i < |h| ==> !h[i].isSent
  }

  /** The replies to unsent turns: one anonymous tool response each, in order. */
  function Replies(answers: seq<ChatTurn>): (ms: seq<WireMessage>)
    ensures |ms| == |answers|
    ensures forall i :: 0 <= i < |answers| ==> ms[i] == AnswerMessage(answers[i].text)
  {
    seq(|answers|, i requires 0 <= i < |answers| => AnswerMessage(answers[i].text))
  }

  /**
    Unsent turns leave the pending image (or its absence) in place: each
    becomes an anonymous tool response, in order.
   */
  lemma {:induction false} UnsentKeepsPending(pending: Option<ImageRef>, answers: seq<ChatTurn>, load: ImageLoader)
    requires AllUnsent(answers)
    ensures Run(pending, answers, load).pending == pending
    ensures Run(pending, answers, load).messages == Replies(answers)
  {
    if |answers| > 0 {
      assert AllUnsent(answers[1..]) by {
        forall i | 0 <= i < |answers[1..]| ensures !answers[1..][i].isSent {
          assert answers[1..][i] == answers[i + 1];
        }
      }
      UnsentKeepsPending(pending, answers[1..], load);
    }
  }

  lemma PendingSurvivesAnswers(img: ImageRef, answers: seq<ChatTurn>, prompt: ChatTurn, load: ImageLoader)
    requires AllUnsent(answers)
    requires prompt.isSent && prompt.messageType == TextMessage
    ensures Run(Some(img), answers + [prompt], load).messages
      == Run(Some(img), answers, load).messages + [User(TextContent(prompt.text)), User(ImageContent(img))]
  {
    UnsentKeepsPending(Some(img), answers, load);
    RunAppend(Some(img), answers, [prompt], load);
    RunOne(Some(img), prompt, load);
  }

  /** Walking `h` and then one more turn appends that turn's step. */
  lemma RunSnoc(p: Option<ImageRef>, h: seq<ChatTurn>, t: ChatTurn, load: ImageLoader)
    ensures Run(p, h + [t], load)
      == Translation(Run(p, h, load).messages + Step(Run(p, h, load).pending, t, load).messages,
                     Step(Run(p, h, load).pending, t, load).pending)
  {
    RunAppend(p, h, [t], load);
    RunOne(Run(p, h, load).pending, t, load);
  }

  /** Walking `h` and then unsent turns appends their replies and keeps the pending image. */
  lemma RunThenAnswers(p: Option<ImageRef>, h: seq<ChatTurn>, answers: seq<ChatTurn>, load: ImageLoader)
    requires AllUnsent(answers)
    ensures Run(p, h + answers, load)
      == Translation(Run(p, h, load).messages + Replies(answers), Run(p, h, load).pending)
  {
    RunAppend(p, h, answers, load);
    UnsentKeepsPending(Run(p, h, load).pending, answers, load);
  }

  /** What a sent text turn releases: its text, then the pending image when there is one. */
  function Released(prompt: ChatTurn, x: Option<ImageRef>): (ms: seq<WireMessage>)
    ensures |ms| == (if x.Some? then 2 else 1) && ms[0] == User(TextContent(prompt.text))
    ensures x.Some? ==> ms[1] == User(ImageContent(x.value))
  {
    [User(TextContent(prompt.text))] + (if x.Some? then [User(ImageContent(x.value))] else [])
  }

  /**
    The walk over a sent image turn, unsent turns and a sent text turn, from
    nothing pending: the replies, then the text and the loaded image.
   */
  lemma {:induction false} ImageAnswersPrompt(
    h1: seq<ChatTurn>, img: ChatTurn, answers: seq<ChatTurn>, prompt: ChatTurn, load: ImageLoader)
    requires Run(None, h1, load).pending == None
    requires IsSentImage(img)
    requires AllUnsent(answers)
    requires prompt.isSent && prompt.messageType == TextMessage
    ensures Run(None, h1 + [img] + answers + [prompt], load)
      == Translation(Run(None, h1, load).messages + Replies(answers) + Released(prompt, load(img.imagePath)), None)
  {
    var x := load(img.imagePath);
    var before := Run(None, h1, load).messages;
    var withImage := h1 + [img];
    RunSnoc(None, h1, img, load);
    assert Run(None, withImage, load) == Translation(before, x);
    var withAnswers := withImage + answers;
    RunThenAnswers(None, withImage, answers, load);
    assert Run(None, withAnswers, load) == Translation(before + Replies(answers), x);
    RunSnoc(None, withAnswers, prompt, load);
    assert Step(x, prompt, load) == Translation(Released(prompt, x), None);
  }

  /**
    The pairing for every history: a sent image turn, met with nothing pending,
    sends its loaded image right after the next sent text turn, across any
    unsent turns in between; the turns before and after are translated on
    their own. When loading fails, the text goes out alone.
   */
  lemma {:induction false} ImageReachesNextPrompt(
    h1: seq<ChatTurn>, img: ChatTurn, answers: seq<ChatTurn>, prompt: ChatTurn, h2: seq<ChatTurn>, load: ImageLoader)
    requires Run(None, h1, load).pending == None
    requires IsSentImage(img)
    requires AllUnsent(answers)
    requires prompt.isSent && prompt.messageType == TextMessage
    ensures Translate(h1 + [img] + answers + [prompt] + h2, load)
      == Translate(h1, load) + Replies(answers) + Released(prompt, load(img.imagePath)) + Translate(h2, load)
  {
    var front := h1 + [img] + answers + [prompt];
    ImageAnswersPrompt(h1, img, answers, prompt, load);
    RunAppend(None, front, h2, load);
  }
}
