/**
 * The single-shot generation route (server/src/routes/generate.ts): prompt
 * checks in a fixed order, the user message built from the sources and the
 * resolved generation prompt, validation of the model's reply and the
 * presentation resource created from an accepted reply.
 */
module Generate {
  import opened Common
  import opened Types
  import opened ServerData
  import opened ResolveVariables

  /**
   * The request after its lookups: the prompts' contents (None when the row
   * is missing) and the source rows found.
   */
  datatype GenerateRequest = GenerateRequest(
    projectId: string,
    sourceResources: seq<SourceResource>,
    generationPrompt: Option<string>,
    systemPrompt: Option<string>,
    outputFolderId: Option<string>,
    outputName: Option<string>)

  /** An error reply: status, `error` and the optional `rawResponse`. */
  datatype GenerateError = GenerateError(status: nat, error: string, rawResponse: Option<string>)

  /** The fallback name's prefix, as the source file spells it (a mis-encoded em dash). */
  const GeneratedPrefix := "Generated \U{E2}\U{20AC}\U{201D} "

  /** The message of the TypeError raised by reading `slides` from `null`. */
  const NullSlidesTypeError := "Cannot read properties of null (reading 'slides')"

  /** The reply is non-empty and parses to an object whose `slides` is an array. */
  predicate Acceptable(text: Option<string>, parse: string -> JsonParse) {
    Truthy(text) && parse(text.value).Parsed? &&
    parse(text.value).value.JsonObject? && parse(text.value).value.slidesIsArray
  }

  /**
   * Reply validation with every structural rejection carrying the raw text,
   * `null` included.
   */
  function ValidateResponse(text: Option<string>, parse: string -> JsonParse): (r: Result<JsonValue, GenerateError>)
    ensures r.Success? <==> Acceptable(text, parse)
    ensures r.Success? ==> r.value == parse(text.value).value && r.value.JsonObject?
    ensures !Truthy(text) ==> r == Failure(GenerateError(500, "Empty response from OpenAI", None))
    ensures Truthy(text) && parse(text.value).Unparseable? ==>
      r == Failure(GenerateError(500, "Failed to parse OpenAI response as JSON", text))
    ensures Truthy(text) && parse(text.value).Parsed? && r.Failure? ==>
      r == Failure(GenerateError(500, "Invalid presentation structure: missing slides array", text))
  {
    if !Truthy(text) then Failure(GenerateError(500, "Empty response from OpenAI", None))
    else match parse(text.value)
      case Unparseable => Failure(GenerateError(500, "Failed to parse OpenAI response as JSON", text))
      case Parsed(v) =>
        if v.JsonObject? && v.slidesIsArray then Success(v)
        else Failure(GenerateError(500, "Invalid presentation structure: missing slides array", text))
  }

  /**
   * Reply validation as the route is written: `data.slides` on a parsed
   * `null` throws, and the outer handler answers without the raw text.
   */
  function ValidateResponseAsWritten(text: Option<string>, parse: string -> JsonParse): (r: Result<JsonValue, GenerateError>)
    ensures Truthy(text) && parse(text.value) == Parsed(JsonNull) ==>
      r == Failure(GenerateError(500, NullSlidesTypeError, None))
    ensures !(Truthy(text) && parse(text.value) == Parsed(JsonNull)) ==> r == ValidateResponse(text, parse)
  {
    if Truthy(text) && parse(text.value) == Parsed(JsonNull) then
      Failure(GenerateError(500, NullSlidesTypeError, None))
    else ValidateResponse(text, parse)
  }

  /** The reply `null` is the one rejection that loses the raw text as written. */
  lemma NullReplyLosesRawText(parse: string -> JsonParse)
    requires parse("null") == Parsed(JsonNull)
    ensures ValidateResponseAsWritten(Some("null"), parse).Failure?
    ensures ValidateResponseAsWritten(Some("null"), parse).error.rawResponse == None
    ensures ValidateResponse(Some("null"), parse).error.rawResponse == Some("null")
  {
  }

  /** The user message: one source block per resource, then the resolved generation prompt. */
  function UserMessage(sources: seq<SourceResource>, generationPrompt: string, formats: map<string, string>): string {
    SourcesText(sources) + Substitute(generationPrompt, formats)
  }

  /**
   * POST /api/generate. `complete` is the chat call on (system, user),
   * `parse` is `JSON.parse`, `dateText` is `new Date().toLocaleString()` and
   * `newId` the id the store gives the created resource.
   */
  method HandleGenerate(
    req: GenerateRequest,
    formats: map<string, string>,
    complete: (string, string) -> Completion,
    parse: string -> JsonParse,
    dateText: string,
    newId: string)
    returns (r: Result<StoredResource, GenerateError>)
    ensures req.generationPrompt.None? ==> r == Failure(GenerateError(400, "Generation prompt not found", None))
    ensures req.generationPrompt.Some? && req.systemPrompt.None? ==>
      r == Failure(GenerateError(400, "System prompt not found", None))
    ensures req.generationPrompt.Some? && req.systemPrompt.Some? ==>
      var answer := complete(Substitute(req.systemPrompt.value, formats),
                             UserMessage(req.sourceResources, req.generationPrompt.value, formats));
      (answer.CallFailed? ==> r == Failure(GenerateError(500, OrElse(answer.message, "Generation failed"), None))) &&
      (answer.Responded? ==> (r.Success? <==> Acceptable(answer.content, parse))) &&
      (answer.Responded? && r.Failure? ==> r == Failure(ValidateResponse(answer.content, parse).error)) &&
      (answer.Responded? && !(Truthy(answer.content) && parse(answer.content.value) == Parsed(JsonNull)) ==>
        (r.Success? <==> ValidateResponseAsWritten(answer.content, parse).Success?) &&
        (r.Failure? ==> r == Failure(ValidateResponseAsWritten(answer.content, parse).error)))
    ensures r.Success? ==>
      req.generationPrompt.Some? && req.systemPrompt.Some? &&
      var answer := complete(Substitute(req.systemPrompt.value, formats),
                             UserMessage(req.sourceResources, req.generationPrompt.value, formats));
      answer.Responded? && Acceptable(answer.content, parse) &&
      r.value == StoredResource(newId, OrElse(req.outputName, GeneratedPrefix + dateText), PresentationResource,
        Some(StampFormat(parse(answer.content.value).value)), None, req.projectId, FolderOrNull(req.outputFolderId))
  {
    if req.generationPrompt.None? {
      return Failure(GenerateError(400, "Generation prompt not found", None));
    }
    if req.systemPrompt.None? {
      return Failure(GenerateError(400, "System prompt not found", None));
    }
    var userContent := AppendSources("", req.sourceResources);
    assert userContent == SourcesText(req.sourceResources);
    userContent := userContent + Substitute(req.generationPrompt.value, formats);
    assert userContent == UserMessage(req.sourceResources, req.generationPrompt.value, formats);
    var system := Substitute(req.systemPrompt.value, formats);
    var answer := complete(system, userContent);
    if answer.CallFailed? {
      return Failure(GenerateError(500, OrElse(answer.message, "Generation failed"), None));
    }
    var checked := ValidateResponse(answer.content, parse);
    if checked.Failure? {
      return Failure(checked.error);
    }
    var data := StampFormat(checked.value);
    r := Success(StoredResource(newId, OrElse(req.outputName, GeneratedPrefix + dateText), PresentationResource,
      Some(data), None, req.projectId, FolderOrNull(req.outputFolderId)));
  }

  /** An accepted reply is stored as a presentation whose content carries a format marker. */
  lemma AcceptedIsMarkedPresentation(text: Option<string>, parse: string -> JsonParse)
    requires Acceptable(text, parse)
    ensures var v := StampFormat(parse(text.value).value);
      Truthy(v.format) && v.slidesIsArray &&
      (Truthy(parse(text.value).value.format) ==> v == parse(text.value).value)
  {
  }
}
