/**
 * What src/lib/classifier.ts and src/lib/gemini.ts share about the Gemini
 * REST interface: the model catalog and the rule that picks a model from it,
 * the request parts, the stripping of a data-URL prefix from an image, and
 * the shapes of the replies. The HTTP calls themselves are not modelled:
 * each reply is a parameter.
 */
module GeminiApi {
  import opened Common
  import opened Text

  /** A value a `catch` block receives: an `Error` with its message, or anything else that was thrown. */
  datatype Thrown = ErrorValue(message: string) | OtherValue

  /** An entry of the model catalog. */
  datatype ModelEntry = ModelEntry(name: string, supportedGenerationMethods: Option<seq<string>>)

  /** `m.supportedGenerationMethods?.includes('generateContent') && m.name.includes('gemini')`. */
  predicate Usable(m: ModelEntry) {
    && m.supportedGenerationMethods.Some?
    && "generateContent" in m.supportedGenerationMethods.value
    && Contains(m.name, "gemini")
  }

  /** The position of the first usable entry at or after `from` (`models.find`). */
  function FirstUsableFrom(models: seq<ModelEntry>, from: nat): (r: Option<nat>)
    requires from <= |models|
    ensures r.Some? ==> from <= r.value < |models| && Usable(models[r.value])
    ensures r.Some? ==> forall k :: from <= k < r.value ==> !Usable(models[k])
    ensures r.None? ==> forall k :: from <= k < |models| ==> !Usable(models[k])
    decreases |models| - from
  {
    if from == |models| then None
    else if Usable(models[from]) then Some(from)
    else FirstUsableFrom(models, from + 1)
  }

  /** The catalog reply, as far as the model choice needs it. */
  datatype CatalogReply =
    | CatalogUnreachable(thrown: Thrown)          // `fetch` rejected
    | CatalogNotOk                                 // a non-2xx status; the body is not read
    | CatalogOk(models: Option<seq<ModelEntry>>)   // the parsed body's `models`, if any
    | CatalogUnparsable(message: string)           // `response.json()` threw

  /**
   * The model id: the first usable catalog entry's name with its first
   * "models/" removed, or `fallback` when the catalog is not OK, has no
   * `models`, or has no usable entry. A catalog that cannot be fetched or
   * parsed is an error.
   */
  function ModelChoice(catalog: CatalogReply, fallback: string): (r: Result<string, Thrown>)
    ensures catalog.CatalogUnreachable? ==> r == Err(catalog.thrown)
    ensures catalog.CatalogUnparsable? ==> r == Err(ErrorValue(catalog.message))
    ensures catalog.CatalogNotOk? || (catalog.CatalogOk? && catalog.models.None?) ==> r == Ok(fallback)
    ensures catalog.CatalogOk? && catalog.models.Some? ==>
      match FirstUsableFrom(catalog.models.value, 0)
      case None => r == Ok(fallback)
      case Some(k) => r == Ok(ReplaceFirst(catalog.models.value[k].name, "models/", ""))
  {
    match catalog
    case CatalogUnreachable(t) => Err(t)
    case CatalogUnparsable(m) => Err(ErrorValue(m))
    case CatalogNotOk => Ok(fallback)
    case CatalogOk(None) => Ok(fallback)
    case CatalogOk(Some(models)) =>
      match FirstUsableFrom(models, 0)
      case None => Ok(fallback)
      case Some(k) => Ok(ReplaceFirst(models[k].name, "models/", ""))
  }

  /** A catalog name of the form "models/<id>" yields "<id>". */
  lemma ModelsPrefixRemoved(id: string)
    ensures ReplaceFirst("models/" + id, "models/", "") == id
  {
    var s := "models/" + id;
    assert OccursAt(s, "models/", 0);
    assert IndexOf(s, "models/") == Some(0);
  }

  /** The chosen model is the FIRST usable one: a later usable entry never wins over an earlier one. */
  lemma FirstUsableWins(models: seq<ModelEntry>, k: nat)
    requires k < |models| && Usable(models[k])
    requires forall j :: 0 <= j < k ==> !Usable(models[j])
    ensures ModelChoice(CatalogOk(Some(models)), "fallback") == Ok(ReplaceFirst(models[k].name, "models/", ""))
  {
    var r := FirstUsableFrom(models, 0);
    assert r.Some?;
  }

  /** A part of a generateContent request. */
  datatype Part = TextPart(text: string) | InlineData(mimeType: string, data: string)

  /** A network call the helpers make, in order. */
  datatype Call = CatalogCall | GenerateCall(model: string, parts: seq<Part>)

  const Marker := "base64,"

  /** The piece of `s.split(pat)` after the first occurrence of `pat`, up to the next one. */
  function SecondPiece(s: string, pat: string): (r: string)
    requires |pat| > 0 && Contains(s, pat)
    ensures exists i: nat :: OccursAt(s, r, i)
  {
    var i := IndexOf(s, pat).value;
    var rest := s[i + |pat|..];
    match IndexOf(rest, pat)
    case None =>
      assert OccursAt(s, rest, i + |pat|);
      rest
    case Some(j) =>
      assert s[i + |pat|..][..j] == s[i + |pat|..i + |pat| + j];
      assert OccursAt(s, rest[..j], i + |pat|);
      rest[..j]
  }

  /** `s.includes("base64,") ? s.split("base64,")[1] : s`. */
  function StripBase64(s: string): (r: string)
    ensures !Contains(s, Marker) ==> r == s
    ensures Contains(s, Marker) ==> r == SecondPiece(s, Marker)
  {
    if Contains(s, Marker) then SecondPiece(s, Marker) else s
  }

  /**
   * A data URL gives back its payload: when neither the header nor the
   * payload holds a comma, the marker is found right after the header.
   */
  lemma DataUrlPayload(header: string, payload: string)
    requires ',' !in header && ',' !in payload
    ensures StripBase64(header + Marker + payload) == payload
  {
    var s := header + Marker + payload;
    var h := |header|;
    assert OccursAt(s, Marker, h) by {
      assert s[h..h + |Marker|] == Marker;
    }
    ContainsAt(s, Marker, h);
    var i := IndexOf(s, Marker).value;
    assert i == h by {
      assert s[i..i + |Marker|][6] == ',' == s[i + 6];
      assert forall p :: 0 <= p < h ==> s[p] == header[p];
      assert forall k :: 0 <= k < |Marker| ==> s[h + k] == Marker[k];
    }
    assert s[i + |Marker|..] == payload;
    NotContainsWhenCharMissing(payload, Marker, 6);
  }

  /** An image argument counts only when present and non-empty (`if (imageBase64)`). */
  predicate HasImage(image: Option<string>) {
    image.Some? && image.value != ""
  }

  /** The request parts: the text, then the inline JPEG when there is an image. */
  function Parts(text: string, image: Option<string>): (ps: seq<Part>)
    ensures |ps| == (if HasImage(image) then 2 else 1)
    ensures ps[0] == TextPart(text)
    ensures HasImage(image) ==> ps[1] == InlineData("image/jpeg", StripBase64(image.value))
  {
    if HasImage(image) then [TextPart(text), InlineData("image/jpeg", StripBase64(image.value))]
    else [TextPart(text)]
  }

  /** The parsed body of a generateContent reply. */
  datatype Body =
    | Parsed(candidateText: string, serialized: string)  // `candidates[0].content.parts[0].text` ("" when absent) and `JSON.stringify(body)`
    | Unparsable(message: string)                        // `response.json()` threw

  /** The generateContent reply. */
  datatype Reply = Unreachable(thrown: Thrown) | Http(ok: bool, status: nat, body: Body)
}
