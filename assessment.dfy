/** `AssessmentComponent`: the chat that gauges the learner's level before a plan is
    generated, and the summary it hands on.

    `sendMessage` runs in two steps around the awaited call: `SendMessage` is
    everything up to the call and returns the call it makes (none when the guard
    stops it); `ReceiveReply` is everything after it, given what the endpoint did.
    The speech recognizer is a flag saying whether the browser has one; its
    callbacks are the methods `OnVoiceResult` and `OnVoiceStop`. */
module Assessment {
  import opened Wrappers
  import opened Text
  import opened Conversation
  import opened Gateway

  const Greeting: string :=
    "Hi! Before I build your plan, tell me a bit about your current experience level. Are you a total beginner?"

  const Apology: string := "Sorry, I had trouble processing that. Can you try again?"

  /** The arguments of the `assessSkill` call a message makes. */
  datatype AssessCall = AssessCall(skill: string, input: string, image: Option<string>)

  /** The image payload sent for a pending image: the part of the data URL after its
      first comma (up to a second one), absent when no image is pending. */
  function ImagePayload(preview: Option<string>): (r: Option<string>)
    ensures r.Some? <==> Truthy(preview) && ',' in preview.value
    ensures r.Some? ==> ',' !in r.value
  {
    if Truthy(preview) then SecondField(preview.value, ',') else None
  }

  /** A data URL `header,base64` sends its base64 text, the header dropped. */
  lemma DataUrlPayload(header: string, data: string)
    requires ',' !in header && ',' !in data
    ensures ImagePayload(Some(header + "," + data)) == Some(data)
  {
    SecondFieldOf(header, data, [], ',');
    assert header + [','] + data + [] == header + "," + data;
  }

  /** The user texts joined with ". ", or "Beginner" when that join is empty. */
  function Summary(ms: seq<Message>): (r: string)
    ensures r != ""
  {
    var joined := Join(UserTexts(ms), ". ");
    if joined == "" then "Beginner" else joined
  }

  /** The summary falls back to "Beginner" exactly when the user said nothing: no
      user message at all, or a single one with empty text (an image sent alone). */
  lemma SummaryDefault(ms: seq<Message>)
    ensures Join(UserTexts(ms), ". ") == "" <==>
      |UserTexts(ms)| == 0 || (|UserTexts(ms)| == 1 && UserTexts(ms)[0] == "")
    ensures Summary(ms) == (if |UserTexts(ms)| == 0 || (|UserTexts(ms)| == 1 && UserTexts(ms)[0] == "")
                            then "Beginner" else Join(UserTexts(ms), ". "))
  {
    JoinEmptyIff(UserTexts(ms), ". ");
  }

  /** A typical exchange: the greeting, two answers and the replies between them
      give the answers joined with ". ", even an empty first answer (an image sent
      alone), and whether or not the second carried an image. */
  lemma SummaryOfTwoAnswers(a: string, b: string, img: Option<string>, r1: string, r2: string)
    ensures Summary([Said(Model, Greeting), Said(User, a), Said(Model, r1), Message(User, b, img), Said(Model, r2)])
         == a + ". " + b
  {
    var g := [Said(Model, Greeting)];
    assert UserTexts(g) == [] by {
      assert g[1..] == [];
    }
    var u1, m1, u2, m2 := Said(User, a), Said(Model, r1), Message(User, b, img), Said(Model, r2);
    UserTextsAppend(g, u1);
    UserTextsAppend(g + [u1], m1);
    UserTextsAppend(g + [u1] + [m1], u2);
    UserTextsAppend(g + [u1] + [m1] + [u2], m2);
    assert [Said(Model, Greeting), u1, m1, u2, m2] == g + [u1] + [m1] + [u2] + [m2];
    var texts := [a, b];
    assert UserTexts([Said(Model, Greeting), u1, m1, u2, m2]) == texts;
    assert texts[1..] == [b];
    assert Join(texts, ". ") == a + ". " + b;
  }

  /** An image sent without words leaves the summary at "Beginner". */
  lemma SummaryImageOnly(img: string, reply: string)
    ensures Summary([Said(Model, Greeting), Message(User, "", Some(img)), Said(Model, reply)]) == "Beginner"
  {
    var g := [Said(Model, Greeting)];
    assert UserTexts(g) == [] by {
      assert g[1..] == [];
    }
    var i1, m1 := Message(User, "", Some(img)), Said(Model, reply);
    UserTextsAppend(g, i1);
    UserTextsAppend(g + [i1], m1);
    assert [Said(Model, Greeting), i1, m1] == g + [i1] + [m1];
    assert UserTexts([Said(Model, Greeting), i1, m1]) == [""];
  }

  class AssessmentSession {
    const skill: string
    /** Whether the browser offers speech recognition. */
    const hasRecognizer: bool
    var messages: seq<Message>
    var isGenerating: bool
    /** The data URL of the image picked but not yet sent. */
    var previewImage: Option<string>
    var isListening: bool

    /** The transcript always opens with the greeting. */
    predicate Valid()
      reads this
    {
      |messages| >= 1 && messages[0] == Said(Model, Greeting)
    }

    constructor (skill: string, hasRecognizer: bool)
      ensures this.skill == skill && this.hasRecognizer == hasRecognizer
      ensures messages == [Said(Model, Greeting)] && Valid()
      ensures !isGenerating && previewImage == None && !isListening
    {
      this.skill, this.hasRecognizer := skill, hasRecognizer;
      messages := [Said(Model, Greeting)];
      isGenerating, previewImage, isListening := false, None, false;
    }

    /** Whether `sendMessage(text)` passes its guard: something to send, and no reply
        pending. */
    predicate Accepts(text: string)
      reads this
    {
      !((IsBlank(text) && !Truthy(previewImage)) || isGenerating)
    }

    /** `sendMessage(text)` up to the call: the user message (with the pending image)
        is added, the pending image cleared and the session marked busy. */
    method SendMessage(text: string) returns (call: Option<AssessCall>)
      requires Valid()
      modifies this`messages, this`previewImage, this`isGenerating
      ensures Valid()
      ensures !old(Accepts(text)) ==> call == None && unchanged(this)
      ensures old(Accepts(text)) ==>
        && messages == old(messages) + [Message(User, text, if Truthy(old(previewImage)) then old(previewImage) else None)]
        && previewImage == None && isGenerating
        && call == Some(AssessCall(skill, text, ImagePayload(old(previewImage))))
    {
      if !Accepts(text) {
        return None;
      }
      var image := if Truthy(previewImage) then previewImage else None;
      messages := messages + [Message(User, text, image)];
      var payload := ImagePayload(previewImage);
      previewImage := None;
      isGenerating := true;
      call := Some(AssessCall(skill, text, payload));
    }

    /** `sendMessage` after the call: the reply, or the apology when the call
        threw, closes the transcript, and the session is no longer busy. */
    method ReceiveReply(call: AssessCall, reply: TextReply)
      requires Valid()
      modifies this`messages, this`isGenerating
      ensures Valid() && !isGenerating
      ensures |messages| == |old(messages)| + 1 && messages[..|old(messages)|] == old(messages)
      ensures messages[|messages| - 1].role == Model
      ensures reply.Unanswered? ==> messages[|messages| - 1] == Said(Model, Apology)
      ensures reply.Answered? && reply.text == "" ==> messages[|messages| - 1] == Said(Model, AssessFallback)
      ensures reply.Answered? && reply.text != "" ==> messages[|messages| - 1] == Said(Model, reply.text)
    {
      var _, result := AssessSkill(call.skill, call.input, call.image, reply);
      if result.Ok? {
        messages := messages + [Said(Model, result.value)];
      } else {
        messages := messages + [Said(Model, Apology)];
      }
      isGenerating := false;
    }

    /** The file reader finished reading a picked image. */
    method ImageLoaded(dataUrl: string)
      modifies this`previewImage
      ensures previewImage == Some(dataUrl)
    {
      previewImage := Some(dataUrl);
    }

    /** `toggleVoice`: without a recognizer only an alert is shown; otherwise
        listening is started or stopped. */
    method ToggleVoice()
      modifies this`isListening
      ensures !hasRecognizer ==> isListening == old(isListening)
      ensures hasRecognizer ==> isListening == !old(isListening)
    {
      if !hasRecognizer {
        return;
      }
      if isListening {
        isListening := false;
      } else {
        isListening := true;
      }
    }

    /** The recognizer heard `transcript`: it is sent as a message, then listening
        stops. */
    method OnVoiceResult(transcript: string) returns (call: Option<AssessCall>)
      requires Valid()
      modifies this`messages, this`previewImage, this`isGenerating, this`isListening
      ensures Valid() && !isListening
      ensures !old(Accepts(transcript)) ==>
        call == None && messages == old(messages) && previewImage == old(previewImage)
        && isGenerating == old(isGenerating)
      ensures old(Accepts(transcript)) ==>
        && messages == old(messages) + [Message(User, transcript, if Truthy(old(previewImage)) then old(previewImage) else None)]
        && previewImage == None && isGenerating
        && call == Some(AssessCall(skill, transcript, ImagePayload(old(previewImage))))
    {
      ghost var accepted, before, preview := Accepts(transcript), messages, previewImage;
      call := SendMessage(transcript);
      assert accepted ==> messages == before + [Message(User, transcript, if Truthy(preview) then preview else None)];
      isListening := false;
    }

    /** The recognizer ended or failed. */
    method OnVoiceStop()
      modifies this`isListening
      ensures !isListening
    {
      isListening := false;
    }

    /** `finishAssessment`: the summary emitted to start generation. */
    method FinishAssessment() returns (summary: string)
      ensures summary == Summary(messages)
      ensures summary != ""
    {
      summary := Summary(messages);
    }
  }

  /** A full exchange, a user message and then one model message, adds exactly the
      text sent to the summary's parts, at the end, even an empty text sent with an
      image. */
  lemma ExchangeExtendsSummary(ms: seq<Message>, text: string, image: Option<string>, reply: string)
    ensures UserTexts(ms + [Message(User, text, image)] + [Said(Model, reply)]) == UserTexts(ms) + [text]
  {
    UserTextsAppend(ms, Message(User, text, image));
    UserTextsAppend(ms + [Message(User, text, image)], Said(Model, reply));
  }
}
