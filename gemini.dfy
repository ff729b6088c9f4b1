/**
 * The chat and image helpers of src/lib/gemini.ts. `generateAIResponse`
 * checks the key, picks a model from the catalog, builds a prompt from the
 * last five messages, and turns every failure into a user-facing string;
 * `analyzeImage` sends a fixed prompt with the image to a fixed model. Both
 * always return a string: every path below ends in one.
 */
module Gemini {
  import opened Common
  import opened Text
  import opened Js
  import opened GeminiApi

  const Placeholder := "your_gemini_api_key_here"

  /** `generateAIResponse`'s key check: not empty, not the placeholder, not blank. */
  predicate ChatKeyConfigured(key: string) {
    key != "" && key != Placeholder && Trim(key) != ""
  }

  /** `analyzeImage`'s key check, which has no blank test. */
  predicate AnalyzeKeyConfigured(key: string) {
    key != "" && key != Placeholder
  }

  /** A key of white space only passes the image check but not the chat check. */
  lemma BlankKeyChecksDiffer(key: string)
    requires key != "" && IsBlank(key)
    ensures !ChatKeyConfigured(key) && AnalyzeKeyConfigured(key)
  {
    assert key[0] != Placeholder[0] by {
      assert IsSpace(key[0]);
    }
  }

  const NotConfiguredText :=
    "\U{26A0}\U{FE0F} AI is not configured yet. Please add your Gemini API key to the .env file. Get a free key at: https://makersuite.google.com/app/apikey"
  const InvalidKeyText := "\U{274C}" + " Invalid API key. Please check your Gemini API key in the .env file."
  const RateLimitText := "\U{23F3}" + " Rate limit reached. Please try again in a moment."
  const SafetyText := "\U{26A0}\U{FE0F}" + " Content blocked by safety filters. Please rephrase your question."
  const TroubleText := "I'm having trouble connecting to the AI service right now. Please try again later."
  const NoResponseText := "No response generated"

  predicate KeyProblem(m: string) {
    Contains(m, "API_KEY_INVALID") || Contains(m, "API key")
  }

  predicate RateProblem(m: string) {
    Contains(m, "429") || Contains(m, "quota")
  }

  function GenericErrorText(m: string): string {
    "AI Error: " + m + ". Please check browser console for details."
  }

  /** The `catch` block: the first matching test wins, in the order key, rate, safety. */
  function ChatErrorText(t: Thrown): (r: string)
    ensures t.OtherValue? ==> r == TroubleText
    ensures t.ErrorValue? ==> (r == InvalidKeyText <==> KeyProblem(t.message))
    ensures t.ErrorValue? ==> (r == RateLimitText <==> !KeyProblem(t.message) && RateProblem(t.message))
    ensures t.ErrorValue? ==> (r == SafetyText <==> !KeyProblem(t.message) && !RateProblem(t.message) && Contains(t.message, "SAFETY"))
    ensures t.ErrorValue? && !KeyProblem(t.message) && !RateProblem(t.message) && !Contains(t.message, "SAFETY") ==>
      r == GenericErrorText(t.message)
  {
    match t
    case OtherValue => TroubleText
    case ErrorValue(m) =>
      if KeyProblem(m) then InvalidKeyText
      else if RateProblem(m) then RateLimitText
      else if Contains(m, "SAFETY") then SafetyText
      else
        assert GenericErrorText(m)[0] == 'A';
        GenericErrorText(m)
  }

  // ---------------------------------------------------------------------------
  // The conversation context

  datatype Role = UserRole | AssistantRole

  datatype ChatMessage = ChatMessage(role: Role, text: string, image: Option<string>)

  /** `messages.slice(-5)`. */
  function LastFive(ms: seq<ChatMessage>): (r: seq<ChatMessage>)
    ensures |r| == if |ms| <= 5 then |ms| else 5
    ensures r == ms[|ms| - |r|..]
  {
    if |ms| <= 5 then ms else ms[|ms| - 5..]
  }

  function Speaker(role: Role): string {
    if role == UserRole then "User" else "Assistant"
  }

  /** One line of the context: "User: text" or "Assistant: text". */
  function Render(m: ChatMessage): string {
    Speaker(m.role) + ": " + m.text
  }

  function RenderAll(ms: seq<ChatMessage>): (lines: seq<string>)
    ensures |lines| == |ms|
    ensures forall k :: 0 <= k < |ms| ==> lines[k] == Render(ms[k])
  {
    seq(|ms|, k requires 0 <= k < |ms| => Render(ms[k]))
  }

  /** The last five messages rendered and joined with newlines. */
  function Context(ms: seq<ChatMessage>): string {
    Join(RenderAll(LastFive(ms)), '\n')
  }

  /**
   * When no message text holds a newline, the context splits back into
   * exactly the rendered last five messages, oldest first.
   */
  lemma ContextLines(ms: seq<ChatMessage>)
    requires |ms| >= 1
    requires forall k :: 0 <= k < |ms| ==> '\n' !in ms[k].text
    ensures Split(Context(ms), '\n') == RenderAll(LastFive(ms))
    ensures |Split(Context(ms), '\n')| == if |ms| <= 5 then |ms| else 5
  {
    var last := LastFive(ms);
    var lines := RenderAll(last);
    forall k | 0 <= k < |lines| ensures '\n' !in lines[k] {
      assert last[k] == ms[|ms| - |last| + k];
      RenderKeepsLine(last[k]);
    }
    SplitJoin(lines, '\n');
  }

  /** A message without a newline renders as one line. */
  lemma RenderKeepsLine(m: ChatMessage)
    requires '\n' !in m.text
    ensures '\n' !in Render(m)
  {
    var head := Speaker(m.role) + ": ";
    assert forall i :: 0 <= i < |head| ==> head[i] != '\n';
    assert Render(m) == head + m.text;
  }

  const SystemPrompt :=
    "You are a helpful AI assistant for CivicLens, a civic engagement platform. Your role is to:\n"
    + "- Help citizens understand and report civic issues (potholes, streetlights, garbage, etc.)\n"
    + "- Provide insights on community problems and solutions\n"
    + "- Analyze images of civic issues when provided\n"
    + "- Suggest appropriate issue categories\n"
    + "- Offer helpful information about civic processes\n"
    + "- Be concise, friendly, and action-oriented\n\n"
    + "Keep responses brief (2-3 sentences) unless detailed explanation is needed."

  const ImageNote := "\n\n[User has shared an image. Analyze it and provide insights about this civic issue.]"

  function FullPrompt(ms: seq<ChatMessage>, input: string): string {
    SystemPrompt + "\n\nConversation History:\n" + Context(ms) + "\n\nUser: " + input
  }

  /** The text part: the full prompt, with the image note appended when an image is sent. */
  function ChatText(ms: seq<ChatMessage>, input: string, image: Option<string>): (t: string)
    ensures FullPrompt(ms, input) <= t
    ensures HasImage(image) <==> |t| > |FullPrompt(ms, input)|
  {
    if HasImage(image) then FullPrompt(ms, input) + ImageNote else FullPrompt(ms, input)
  }

  // ---------------------------------------------------------------------------
  // generateAIResponse

  const ChatFallbackModel := "gemini-1.5-flash"

  /** The message of the Error thrown for a non-OK reply. */
  function ChatApiErrorMessage(status: nat, serialized: string): string {
    "API Error: " + NatToString(status) + " - " + serialized
  }

  /** What the generateContent reply turns into. */
  function ChatReplyText(reply: Reply): (r: string)
    ensures reply.Unreachable? ==> r == ChatErrorText(reply.thrown)
    ensures reply.Http? && reply.body.Unparsable? ==> r == ChatErrorText(ErrorValue(reply.body.message))
    ensures reply.Http? && !reply.ok && reply.body.Parsed? ==>
      r == ChatErrorText(ErrorValue(ChatApiErrorMessage(reply.status, reply.body.serialized)))
    ensures reply.Http? && reply.ok && reply.body.Parsed? ==>
      r == (if reply.body.candidateText == "" then NoResponseText else reply.body.candidateText)
  {
    match reply
    case Unreachable(t) => ChatErrorText(t)
    case Http(ok, status, body) =>
      match body
      case Unparsable(m) => ChatErrorText(ErrorValue(m))
      case Parsed(text, serialized) =>
        if !ok then ChatErrorText(ErrorValue(ChatApiErrorMessage(status, serialized)))
        else OrString(text, NoResponseText)
  }

  /**
   * A 429 reply shows the rate-limit text unless its body mentions a key
   * problem, in which case the key test, which runs first, wins.
   */
  lemma Status429IsRateLimit(serialized: string, text: string)
    ensures ChatReplyText(Http(false, 429, Parsed(text, serialized)))
      == if KeyProblem(serialized) then InvalidKeyText else RateLimitText
  {
    var m := ChatApiErrorMessage(429, serialized);
    Status429Message(serialized);
    assert Status429Head[..15][3] != "API_KEY_INVALID"[3];
    assert Status429Head[..7][4] != "API key"[4];
    ContainsAfterHead(Status429Head, serialized, "API_KEY_INVALID");
    ContainsAfterHead(Status429Head, serialized, "API key");
    assert KeyProblem(m) == KeyProblem(serialized);
    ContainsAt(m, "429", 11);
  }

  const Status429Head := "API Error: 429 - "

  /** The message thrown for a 429 reply, and where the status sits in it. */
  lemma Status429Message(serialized: string)
    ensures ChatApiErrorMessage(429, serialized) == Status429Head + serialized
    ensures OccursAt(ChatApiErrorMessage(429, serialized), "429", 11)
  {
    assert NatToString(429) == "429" by {
      assert NatToString(4) == "4";
      assert NatToString(42) == "42";
    }
    var m := ChatApiErrorMessage(429, serialized);
    assert m[11..14] == "429";
  }

  /** The calls made and the string shown. */
  datatype ChatRun = ChatRun(calls: seq<Call>, text: string)

  /** `generateAIResponse`. */
  function GenerateAIResponse(apiKey: string, messages: seq<ChatMessage>, input: string, image: Option<string>,
                              catalog: CatalogReply, reply: Reply): (run: ChatRun)
    ensures !ChatKeyConfigured(apiKey) ==> run == ChatRun([], NotConfiguredText)
    ensures ChatKeyConfigured(apiKey) ==> 1 <= |run.calls| <= 2 && run.calls[0] == CatalogCall
    ensures |run.calls| == 2 ==>
      (run.calls[1].GenerateCall?
       && run.calls[1].parts == Parts(ChatText(messages, input, image), image)
       && run.text == ChatReplyText(reply))
  {
    if !ChatKeyConfigured(apiKey) then ChatRun([], NotConfiguredText)
    else match ModelChoice(catalog, ChatFallbackModel)
      case Err(t) => ChatRun([CatalogCall], ChatErrorText(t))
      case Ok(model) =>
        ChatRun([CatalogCall, GenerateCall(model, Parts(ChatText(messages, input, image), image))], ChatReplyText(reply))
  }

  /**
   * With a configured key the catalog decides the rest: a catalog failure
   * ends the run after one call with that error's text; otherwise the
   * request goes to the chosen model and the reply's text is shown.
   */
  lemma ChatUsesChosenModel(apiKey: string, messages: seq<ChatMessage>, input: string, image: Option<string>,
                            catalog: CatalogReply, reply: Reply)
    requires ChatKeyConfigured(apiKey)
    ensures var run := GenerateAIResponse(apiKey, messages, input, image, catalog, reply);
      var choice := ModelChoice(catalog, ChatFallbackModel);
      && (choice.Err? ==> run == ChatRun([CatalogCall], ChatErrorText(choice.error)))
      && (choice.Ok? ==>
          run == ChatRun([CatalogCall, GenerateCall(choice.value, Parts(ChatText(messages, input, image), image))],
                         ChatReplyText(reply)))
  {
  }

  // ---------------------------------------------------------------------------
  // analyzeImage

  const AnalyzeNotConfiguredText := "AI is not configured. Please add your Gemini API key."
  const AnalyzeFailedText := "Unable to analyze image at this time."
  const AnalyzeEmptyText := "Unable to analyze image"
  const AnalyzeModel := "gemini-1.5-flash-latest"

  const AnalyzePrompt :=
    "You are analyzing an image for a civic issue reporting platform. \n"
    + "Identify:\n"
    + "1. Type of civic issue (pothole, broken streetlight, garbage, graffiti, etc.)\n"
    + "2. Severity level (low, medium, high)\n"
    + "3. Key details visible in the image\n"
    + "4. Suggested action or department to handle this\n\n"
    + "Be concise and specific."

  /** `analyzeImage`: one call to a fixed model; any failure gives one fixed text. */
  function AnalyzeImage(apiKey: string, image: string, reply: Reply): (run: ChatRun)
    ensures !AnalyzeKeyConfigured(apiKey) ==> run == ChatRun([], AnalyzeNotConfiguredText)
    ensures AnalyzeKeyConfigured(apiKey) ==>
      run.calls == [GenerateCall(AnalyzeModel, [TextPart(AnalyzePrompt), InlineData("image/jpeg", StripBase64(image))])]
    ensures AnalyzeKeyConfigured(apiKey) && !(reply.Http? && reply.ok && reply.body.Parsed?) ==> run.text == AnalyzeFailedText
    ensures AnalyzeKeyConfigured(apiKey) && reply.Http? && reply.ok && reply.body.Parsed? ==>
      run.text == (if reply.body.candidateText == "" then AnalyzeEmptyText else reply.body.candidateText)
  {
    if !AnalyzeKeyConfigured(apiKey) then ChatRun([], AnalyzeNotConfiguredText)
    else
      var call := GenerateCall(AnalyzeModel, [TextPart(AnalyzePrompt), InlineData("image/jpeg", StripBase64(image))]);
      match reply
      case Http(true, _, Parsed(text, _)) => ChatRun([call], OrString(text, AnalyzeEmptyText))
      case _ => ChatRun([call], AnalyzeFailedText)
  }
}
