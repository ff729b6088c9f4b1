/**
 * The issue classifier of src/lib/classifier.ts: the fixed category to
 * department table, and `classifyIssue`, which asks the model for a JSON
 * verdict, cuts the JSON out of the reply text, and fills falsy fields with
 * defaults. The HTTP replies and `JSON.parse` are parameters.
 */
module Classifier {
  import opened Common
  import opened Text
  import opened Js
  import opened GeminiApi

  // ---------------------------------------------------------------------------
  // getDepartmentsByCategory

  const Categories: seq<string> :=
    ["Infrastructure", "Safety", "Environment", "Transportation", "Public Services", "Utilities", "Parks & Recreation"]

  /** The departments suggested for a category; an unknown category gets `["Public Works"]`. */
  function DepartmentsFor(category: string): (ds: seq<string>)
    ensures |ds| >= 1
    ensures category in Categories ==> |ds| == 4
    ensures category !in Categories ==> ds == ["Public Works"]
  {
    if category == "Infrastructure" then ["Public Works", "Roads & Highways", "Building Department", "Engineering"]
    else if category == "Safety" then ["Police Department", "Fire Department", "Traffic Police", "Emergency Services"]
    else if category == "Environment" then ["Sanitation Department", "Environmental Health", "Waste Management", "Pollution Control"]
    else if category == "Transportation" then ["Transport Department", "Traffic Management", "Public Transit Authority", "Parking Authority"]
    else if category == "Public Services" then ["Municipal Corporation", "Citizen Services", "Health Department", "Social Welfare"]
    else if category == "Utilities" then ["Electricity Board", "Water Authority", "Gas Department", "Telecom Services"]
    else if category == "Parks & Recreation" then ["Parks Department", "Sports Authority", "Community Services", "Horticulture"]
    else ["Public Works"]
  }

  /** The suggestions for a report filed under Infrastructure. */
  lemma InfrastructureDepartments()
    ensures DepartmentsFor("Infrastructure") == ["Public Works", "Roads & Highways", "Building Department", "Engineering"]
  {
  }

  /** "Public Works" is suggested for Infrastructure and for unknown categories, and for no other category. */
  lemma PublicWorksOnlyForInfrastructure(category: string)
    ensures "Public Works" in DepartmentsFor(category) <==> category == "Infrastructure" || category !in Categories
  {
  }

  // ---------------------------------------------------------------------------
  // The JSON cut out of the reply: /\{[\s\S]*\}/

  /** Some "{" comes before some "}". */
  predicate HasBracePair(s: string) {
    exists i, j :: 0 <= i < j < |s| && s[i] == '{' && s[j] == '}'
  }

  /**
   * The leftmost-longest match of `\{[\s\S]*\}`: from the first "{" to the
   * last "}", when that "}" comes after it.
   */
  function ExtractJson(text: string): (r: Option<string>)
    ensures r.None? <==> !HasBracePair(text)
    ensures r.Some? ==> |r.value| >= 2 && r.value[0] == '{' && r.value[|r.value| - 1] == '}'
    ensures r.Some? ==> exists i: nat :: OccursAt(text, r.value, i) && '{' !in text[..i] && '}' !in text[i + |r.value|..]
  {
    if '{' !in text || '}' !in text then None
    else
      var i := FirstIndexOfChar(text, '{');
      var j := LastIndexOfChar(text, '}');
      assert forall a :: 0 <= a < i ==> text[a] != '{' by {
        forall a | 0 <= a < i ensures text[a] != '{' {
          assert text[..i][a] == text[a];
        }
      }
      assert forall b :: j < b < |text| ==> text[b] != '}' by {
        forall b | j < b < |text| ensures text[b] != '}' {
          assert text[j + 1..][b - j - 1] == text[b];
        }
      }
      if j <= i then None
      else
        assert OccursAt(text, text[i..j + 1], i);
        Some(text[i..j + 1])
  }

  // ---------------------------------------------------------------------------
  // Field defaulting

  /** A classification as `classifyIssue` returns it; each field is whatever the parsed JSON held, or its default. */
  datatype Classification = Classification(
    category: JsValue,
    department: JsValue,
    priority: JsValue,
    confidence: JsValue,
    reasoning: JsValue)

  const DefaultReasoning := "Classified based on description and image analysis"

  /** Each falsy field replaced by its default with `||`. */
  function WithDefaults(parsed: map<string, JsValue>): (c: Classification)
    ensures Truthy(c.category) && Truthy(c.department) && Truthy(c.priority)
    ensures Truthy(c.confidence) && Truthy(c.reasoning)
    ensures Truthy(Field(parsed, "category")) ==> c.category == Field(parsed, "category")
    ensures Truthy(Field(parsed, "department")) ==> c.department == Field(parsed, "department")
    ensures Truthy(Field(parsed, "priority")) ==> c.priority == Field(parsed, "priority")
    ensures Truthy(Field(parsed, "confidence")) ==> c.confidence == Field(parsed, "confidence")
    ensures Truthy(Field(parsed, "reasoning")) ==> c.reasoning == Field(parsed, "reasoning")
    ensures !Truthy(Field(parsed, "category")) ==> c.category == Str("Infrastructure")
    ensures !Truthy(Field(parsed, "department")) ==> c.department == Str("Public Works")
    ensures !Truthy(Field(parsed, "priority")) ==> c.priority == Str("medium")
    ensures !Truthy(Field(parsed, "confidence")) ==> c.confidence == Num(75.0)
    ensures !Truthy(Field(parsed, "reasoning")) ==> c.reasoning == Str(DefaultReasoning)
  {
    Classification(
      Or(Field(parsed, "category"), Str("Infrastructure")),
      Or(Field(parsed, "department"), Str("Public Works")),
      Or(Field(parsed, "priority"), Str("medium")),
      Or(Field(parsed, "confidence"), Num(75.0)),
      Or(Field(parsed, "reasoning"), Str(DefaultReasoning)))
  }

  /** A confidence of 0 is falsy, so it comes back as 75. */
  lemma ZeroConfidenceBecomes75(parsed: map<string, JsValue>)
    requires Field(parsed, "confidence") == Num(0.0)
    ensures WithDefaults(parsed).confidence == Num(75.0)
  {
  }

  /**
   * Priority is not checked against low/medium/high: any non-empty string
   * passes through, whatever the other fields hold.
   */
  lemma PriorityNotValidated(parsed: map<string, JsValue>, p: string)
    requires Field(parsed, "priority") == Str(p) && p != ""
    ensures WithDefaults(parsed).priority == Str(p)
  {
  }

  /** The default department is the first suggestion for the default category. */
  lemma DefaultsAgreeWithTable(parsed: map<string, JsValue>)
    requires !Truthy(Field(parsed, "category")) && !Truthy(Field(parsed, "department"))
    ensures WithDefaults(parsed).category == Str(Categories[0])
    ensures WithDefaults(parsed).department == Str(DepartmentsFor(Categories[0])[0])
  {
  }

  // ---------------------------------------------------------------------------
  // The prompt and the request

  const PromptHead :=
    "You are an AI classifier for a civic issue reporting system. Analyze the following issue and determine:\n\n"
    + "1. CATEGORY: Choose ONE from: Infrastructure, Safety, Environment, Transportation, Public Services, Utilities, Parks & Recreation\n"
    + "2. DEPARTMENT: Choose the specific government department that should handle this (e.g., Public Works, Sanitation, Traffic Police, Electricity Board, Water Authority, Parks Department)\n"
    + "3. PRIORITY: Assess as low, medium, or high based on urgency and public safety impact\n"
    + "4. CONFIDENCE: Your confidence level (0-100%)\n"
    + "5. REASONING: Brief explanation of your classification\n\n"
    + "Issue Description: \""

  const PromptTail :=
    "\n\nRespond in this EXACT JSON format:\n{\n"
    + "  \"category\": \"category name\",\n"
    + "  \"department\": \"department name\",\n"
    + "  \"priority\": \"low/medium/high\",\n"
    + "  \"confidence\": 85,\n"
    + "  \"reasoning\": \"brief explanation\"\n}"

  const WithImageLine := "An image is provided showing the issue."
  const NoImageLine := "No image provided."

  function ImageLine(hasImage: bool): string {
    if hasImage then WithImageLine else NoImageLine
  }

  function Prompt(description: string, hasImage: bool): string {
    PromptHead + description + "\"\n\n" + ImageLine(hasImage) + PromptTail
  }

  /** The prompt quotes the description and says whether an image came with it. */
  lemma PromptMentions(description: string, hasImage: bool)
    ensures OccursAt(Prompt(description, hasImage), description, |PromptHead|)
    ensures OccursAt(Prompt(description, hasImage), ImageLine(hasImage), |PromptHead| + |description| + 3)
  {
    PiecesOccur(PromptHead, description, "\"\n\n", ImageLine(hasImage), PromptTail);
  }

  /** In a text built from five pieces, the second and the fourth occur where they were put. */
  lemma PiecesOccur(a: string, b: string, c: string, d: string, e: string)
    ensures OccursAt(a + b + c + d + e, b, |a|)
    ensures OccursAt(a + b + c + d + e, d, |a| + |b| + |c|)
  {
    var p := a + b + c + d + e;
    assert p[|a|..|a| + |b|] == b;
    assert p[|a| + |b| + |c|..|a| + |b| + |c| + |d|] == d;
  }

  const FallbackModel := "gemini-1.5-flash-latest"
  const NotConfiguredMessage := "AI classifier not configured"
  const InvalidFormatMessage := "Invalid classification response format"

  function ApiErrorMessage(status: nat): string {
    "Classification API Error: " + NatToString(status)
  }

  /** What `JSON.parse` makes of the extracted text: an object's fields, or the SyntaxError's message. */
  datatype ParseResult = ParsedObject(fields: map<string, JsValue>) | ParseError(message: string)

  /** The calls made and the outcome: a classification, or the value thrown to the caller. */
  datatype ClassifyRun = ClassifyRun(calls: seq<Call>, result: Result<Classification, Thrown>)

  /** The request `classifyIssue` sends once it has a model. */
  function ClassifyCall(model: string, description: string, image: Option<string>): (c: Call)
    ensures c.GenerateCall? && c.model == model
    ensures |c.parts| == (if HasImage(image) then 2 else 1)
    ensures c.parts[0] == TextPart(Prompt(description, HasImage(image)))
  {
    GenerateCall(model, Parts(Prompt(description, HasImage(image)), image))
  }

  /** What happens to the generateContent reply. */
  function Interpret(reply: Reply, parse: string -> ParseResult): Result<Classification, Thrown> {
    match reply
    case Unreachable(t) => Err(t)
    case Http(ok, status, body) =>
      if !ok then Err(ErrorValue(ApiErrorMessage(status)))
      else match body
        case Unparsable(m) => Err(ErrorValue(m))
        case Parsed(text, _) =>
          match ExtractJson(text)
          case None => Err(ErrorValue(InvalidFormatMessage))
          case Some(json) =>
            match parse(json)
            case ParseError(m) => Err(ErrorValue(m))
            case ParsedObject(fields) => Ok(WithDefaults(fields))
  }

  /**
   * `classifyIssue`: no request without a key; then the catalog call and the
   * generateContent call; every failure is thrown on to the caller.
   */
  function Classify(apiKey: string, description: string, image: Option<string>,
                    catalog: CatalogReply, reply: Reply, parse: string -> ParseResult): (run: ClassifyRun)
    ensures apiKey == "" ==> run == ClassifyRun([], Err(ErrorValue(NotConfiguredMessage)))
    ensures apiKey != "" ==> 1 <= |run.calls| <= 2 && run.calls[0] == CatalogCall
    ensures apiKey != "" && ModelChoice(catalog, FallbackModel).Err? ==>
      run == ClassifyRun([CatalogCall], Err(ModelChoice(catalog, FallbackModel).error))
    ensures apiKey != "" && ModelChoice(catalog, FallbackModel).Ok? ==>
      && run.calls == [CatalogCall, ClassifyCall(ModelChoice(catalog, FallbackModel).value, description, image)]
      && run.result == Interpret(reply, parse)
    ensures run.result.Ok? ==> |run.calls| == 2
  {
    if apiKey == "" then ClassifyRun([], Err(ErrorValue(NotConfiguredMessage)))
    else match ModelChoice(catalog, FallbackModel)
      case Err(t) => ClassifyRun([CatalogCall], Err(t))
      case Ok(model) =>
        ClassifyRun([CatalogCall, ClassifyCall(model, description, image)], Interpret(reply, parse))
  }

  /** A non-OK reply is an error carrying the status; no default classification is returned. */
  lemma NonOkFails(apiKey: string, description: string, image: Option<string>,
                   catalog: CatalogReply, status: nat, body: Body, parse: string -> ParseResult)
    requires apiKey != "" && ModelChoice(catalog, FallbackModel).Ok?
    ensures Classify(apiKey, description, image, catalog, Http(false, status, body), parse).result
      == Err(ErrorValue(ApiErrorMessage(status)))
  {
  }

  /** A reply text with no "{" before a "}" is a format error. */
  lemma NoBracesFails(apiKey: string, description: string, image: Option<string>,
                      catalog: CatalogReply, status: nat, text: string, serialized: string, parse: string -> ParseResult)
    requires apiKey != "" && ModelChoice(catalog, FallbackModel).Ok?
    requires !HasBracePair(text)
    ensures Classify(apiKey, description, image, catalog, Http(true, status, Parsed(text, serialized)), parse).result
      == Err(ErrorValue(InvalidFormatMessage))
  {
  }

  /**
   * A classification is returned only on the full path: a key, an OK
   * reply whose text holds a brace pair that parses to an object, and then
   * it is that object with defaults.
   */
  lemma SuccessNeedsFullPath(apiKey: string, description: string, image: Option<string>,
                             catalog: CatalogReply, reply: Reply, parse: string -> ParseResult)
    requires Classify(apiKey, description, image, catalog, reply, parse).result.Ok?
    ensures apiKey != "" && reply.Http? && reply.ok && reply.body.Parsed?
    ensures HasBracePair(reply.body.candidateText)
    ensures parse(ExtractJson(reply.body.candidateText).value).ParsedObject?
    ensures Classify(apiKey, description, image, catalog, reply, parse).result.value
      == WithDefaults(parse(ExtractJson(reply.body.candidateText).value).fields)
  {
  }
}
