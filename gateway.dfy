/** `AiService`: the requests the application makes of the generation endpoint and
    what it does with the answers.

    The endpoint is not modelled; each operation takes what the endpoint did as a
    parameter. A JSON-mode call either fails, or answers with no text, or with text
    that `JSON.parse` rejects, or with text that parses to a list of values (typed
    here; the module `Schemas` shows the typed values are exactly the replies that
    fill every property of the response schema). */
module Gateway {
  import opened Wrappers
  import opened Text
  import opened PlanModel
  import opened Schemas

  /** What the endpoint did with a JSON-mode request. */
  datatype JsonReply<E> = Parsed(items: seq<E>) | NoText | Unparsable | CallFailed

  /** What the endpoint did with a plain-text request; a missing text is "". */
  datatype TextReply = Answered(text: string) | Unanswered

  /** Why an operation threw: the reply did not parse, or the call itself failed. */
  datatype Failure = Malformed | Unavailable

  /** `JSON.parse(response.text || '[]')` after the call: no text reads as the
      empty array; a parse error or a failed call is an exception. */
  function ParseReply<E>(reply: JsonReply<E>): (r: Result<seq<E>, Failure>)
    ensures r.Ok? <==> reply.Parsed? || reply.NoText?
    ensures reply.NoText? ==> r == Ok([])
    ensures reply.Parsed? ==> r == Ok(reply.items)
    ensures reply.Unparsable? ==> r == Err(Malformed)
    ensures reply.CallFailed? ==> r == Err(Unavailable)
  {
    match reply
    case Parsed(items) => Ok(items)
    case NoText => Ok([])
    case Unparsable => Err(Malformed)
    case CallFailed => Err(Unavailable)
  }

  const FallbackSuggestions: seq<string> :=
    ["Photography", "Cooking", "Meditation", "Spanish", "Coding", "Gardening"]

  /** A value written between double quotes in a template literal, as it is. */
  function InQuotes(s: string): string
  {
    "\"" + s + "\""
  }

  const SuggestionsLead: string := "Based on this learning history: "
  const SuggestionsTail: string :=
    ". Suggest 6 new distinct skills I might like to learn. Return only a JSON array of strings."

  function SuggestionsPrompt(history: string): string
  {
    SuggestionsLead + InQuotes(history) + SuggestionsTail
  }

  /** `generateSuggestions`: every exception, the parse error included, is caught
      and answered with the fixed list. */
  function GenerateSuggestions(reply: JsonReply<string>): seq<string>
  {
    match ParseReply(reply)
    case Ok(skills) => skills
    case Err(_) => FallbackSuggestions
  }

  /** Suggestions never fail: a failure yields the six fixed skills, and the result
      is empty only when the endpoint itself answered nothing or an empty list. */
  lemma SuggestionsAbsorbFailures(reply: JsonReply<string>)
    ensures reply.Unparsable? || reply.CallFailed? ==> GenerateSuggestions(reply) == FallbackSuggestions
    ensures reply.Parsed? ==> GenerateSuggestions(reply) == reply.items
    ensures GenerateSuggestions(reply) == [] <==> reply.NoText? || reply == Parsed([])
  {
  }

  const AssessorInstruction: string :=
    "You are a friendly skill assessor. Analyze the user's input (and optional image) to determine "
    + "their current skill level (Beginner, Intermediate, Advanced). Ask a follow-up question if needed, "
    + "or provide a brief summary of their level to start the plan."

  const AssessFallback: string := "I couldn't quite catch that. Could you try again?"

  /** One part of a request's content. */
  datatype Part = InlineData(mimeType: string, data: string) | TextPart(text: string)

  datatype AssessRequest = AssessRequest(role: string, parts: seq<Part>, systemInstruction: string)

  /** A JavaScript `string | undefined` in a condition: absent and "" are false. */
  predicate Truthy(s: Option<string>)
  {
    s.Some? && s.value != ""
  }

  /** The `parts` of an assessment request, pushed one by one. */
  method BuildParts(input: string, image: Option<string>) returns (parts: seq<Part>)
    ensures |parts| == (if Truthy(image) then 2 else 1)
    ensures parts[|parts| - 1] == TextPart(input)
    ensures Truthy(image) ==> parts[0] == InlineData("image/jpeg", image.value)
    ensures forall i :: 0 <= i < |parts| - 1 ==> parts[i].InlineData?
  {
    parts := [];
    if Truthy(image) {
      parts := parts + [InlineData("image/jpeg", image.value)];
    }
    parts := parts + [TextPart(input)];
  }

  /** `assessSkill(context, input, image)`: the request it sends and what it returns.
      The `context` argument (the skill) is not used in the request. An empty reply
      becomes the fixed prompt to try again; a failed call is thrown on. */
  method AssessSkill(context: string, input: string, image: Option<string>, reply: TextReply)
    returns (request: AssessRequest, result: Result<string, Failure>)
    ensures request.role == "user" && request.systemInstruction == AssessorInstruction
    ensures |request.parts| == (if Truthy(image) then 2 else 1)
    ensures request.parts[|request.parts| - 1] == TextPart(input)
    ensures Truthy(image) ==> request.parts[0] == InlineData("image/jpeg", image.value)
    ensures reply.Unanswered? ==> result == Err(Unavailable)
    ensures reply.Answered? && reply.text == "" ==> result == Ok(AssessFallback)
    ensures reply.Answered? && reply.text != "" ==> result == Ok(reply.text)
  {
    var parts := BuildParts(input, image);
    request := AssessRequest("user", parts, AssessorInstruction);
    if reply.Unanswered? {
      result := Err(Unavailable);
    } else if reply.text == "" {
      result := Ok(AssessFallback);
    } else {
      result := Ok(reply.text);
    }
  }

  /** A chat message sent through `getChatModel(systemInstruction)`: a fresh chat
      carrying only that instruction, then one message. */
  datatype ChatRequest = ChatRequest(systemInstruction: string, message: string)

  /** `JSON.stringify({context, framework})`. */
  function ConfigJson(context: string, framework: string): string
  {
    "{\"context\":" + Quote(context) + ",\"framework\":" + Quote(framework) + "}"
  }
  /** A reader of the configuration JSON finds the context's string after
      `{"context":"`, ends it at its own closing quote and reads back the context;
      likewise the framework's string, which starts 15 characters later. */
  lemma ConfigJsonReadsBack(context: string, framework: string)
    ensures ScanEnd(ConfigJson(context, framework)[12..]) == |Escape(context)|
    ensures Unescape(ConfigJson(context, framework)[12..][..|Escape(context)|]) == context
    ensures ScanEnd(ConfigJson(context, framework)[27 + |Escape(context)|..]) == |Escape(framework)|
    ensures Unescape(ConfigJson(context, framework)[27 + |Escape(context)|..][..|Escape(framework)|]) == framework
  {
    var open, mid := "{\"context\":", ",\"framework\":";
    RegroupTail(open, Quote(context), mid, Quote(framework), "}");
    QuotedReadsBack(open, context, mid + Quote(framework) + "}");
    QuotedReadsBack(open + Quote(context) + mid, framework, "}");
  }



  const PlanLead: string := "\n      Create a learning plan for "
  const PlanConfigLabel: string := ".\n      Configuration: "
  const PlanLevelLabel: string := ".\n      User Level/Assessment: "
  const PlanInstructions: string :=
    ".\n      \n      Generate a structured curriculum. \n"
    + "      If framework is DiSSS, ensure it follows Deconstruction, Selection, Sequencing, Stakes.\n"
    + "      Ensure tasks are actionable.\n      "
  const PlanWeeks: string := "Provide 4 weeks of content."
  const PlanEnd: string := "\n    "

  /** The plan prompt, with its line breaks and indentation. */
  function PlanPrompt(skill: string, context: string, framework: string, summary: string): string
  {
    PlanLead + InQuotes(skill) + PlanConfigLabel + ConfigJson(context, framework)
      + PlanLevelLabel + summary + PlanInstructions + PlanWeeks + PlanEnd
  }

  /** `generatePlan`: the parsed modules; every failure is logged and thrown again. */
  function GeneratePlan(reply: JsonReply<Module>): Result<seq<Module>, Failure>
  {
    ParseReply(reply)
  }

  const QuizLead: string := "Generate 3 multiple choice questions about "

  function QuizPrompt(topic: string): string
  {
    QuizLead + InQuotes(topic) + "."
  }

  /** `generateQuiz`: no handler, so every failure reaches the caller. */
  function GenerateQuiz(reply: JsonReply<QuizQuestion>): Result<seq<QuizQuestion>, Failure>
  {
    ParseReply(reply)
  }

  /** Plan and quiz generation hand every failure to the caller, with its kind, and
      an empty reply is an empty list rather than an error. */
  lemma PlanAndQuizPropagateFailures(p: JsonReply<Module>, q: JsonReply<QuizQuestion>)
    ensures GeneratePlan(p).Err? <==> p.Unparsable? || p.CallFailed?
    ensures GenerateQuiz(q).Err? <==> q.Unparsable? || q.CallFailed?
    ensures p.CallFailed? ==> GeneratePlan(p) == Err(Unavailable)
    ensures q.CallFailed? ==> GenerateQuiz(q) == Err(Unavailable)
    ensures p.NoText? ==> GeneratePlan(p) == Ok([])
    ensures q.NoText? ==> GenerateQuiz(q) == Ok([])
  {
  }

  /** The suggestions prompt carries the history as it is, between double quotes. */
  lemma SuggestionsPromptEmbedsHistory(history: string)
    ensures Contains(SuggestionsPrompt(history), "\"" + history + "\"")
  {
    ContainsTail(SuggestionsLead, InQuotes(history));
    ContainsExtend(SuggestionsLead + InQuotes(history), InQuotes(history), SuggestionsTail);
  }

  /** The quiz prompt carries the topic as it is, between double quotes. */
  lemma QuizPromptEmbedsTopic(topic: string)
    ensures Contains(QuizPrompt(topic), "\"" + topic + "\"")
  {
    ContainsTail(QuizLead, InQuotes(topic));
    ContainsExtend(QuizLead + InQuotes(topic), InQuotes(topic), ".");
  }

  /** The plan prompt carries the skill between double quotes, the configuration as
      JSON, the assessment summary as it is, and asks for four weeks. */
  lemma PlanPromptEmbedsInputs(skill: string, context: string, framework: string, summary: string)
    ensures Contains(PlanPrompt(skill, context, framework, summary), "\"" + skill + "\"")
    ensures Contains(PlanPrompt(skill, context, framework, summary), ConfigJson(context, framework))
    ensures Contains(PlanPrompt(skill, context, framework, summary), summary)
    ensures Contains(PlanPrompt(skill, context, framework, summary), PlanWeeks)
  {
    var s1 := PlanLead + InQuotes(skill);
    var s2 := s1 + PlanConfigLabel;
    var s3 := s2 + ConfigJson(context, framework);
    var s4 := s3 + PlanLevelLabel;
    var s5 := s4 + summary;
    var s6 := s5 + PlanInstructions;
    var s7 := s6 + PlanWeeks;
    ContainsTail(PlanLead, InQuotes(skill));
    ContainsTail(s2, ConfigJson(context, framework));
    ContainsTail(s4, summary);
    ContainsTail(s6, PlanWeeks);
    ContainsExtend(s1, InQuotes(skill), PlanConfigLabel);
    ContainsExtend(s2, InQuotes(skill), ConfigJson(context, framework));
    ContainsExtend(s3, InQuotes(skill), PlanLevelLabel);
    ContainsExtend(s3, ConfigJson(context, framework), PlanLevelLabel);
    ContainsExtend(s4, InQuotes(skill), summary);
    ContainsExtend(s4, ConfigJson(context, framework), summary);
    ContainsExtend(s5, InQuotes(skill), PlanInstructions);
    ContainsExtend(s5, ConfigJson(context, framework), PlanInstructions);
    ContainsExtend(s5, summary, PlanInstructions);
    ContainsExtend(s6, InQuotes(skill), PlanWeeks);
    ContainsExtend(s6, ConfigJson(context, framework), PlanWeeks);
    ContainsExtend(s6, summary, PlanWeeks);
    ContainsExtend(s7, InQuotes(skill), PlanEnd);
    ContainsExtend(s7, ConfigJson(context, framework), PlanEnd);
    ContainsExtend(s7, summary, PlanEnd);
    ContainsExtend(s7, PlanWeeks, PlanEnd);
  }
}
