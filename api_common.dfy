/**
 * What the two API handlers (`/api/translate` and `/api/prompt`) share: the
 * chat request they send, the request body they read, the reply they get,
 * the response they send, the API-key guard and the parse step.
 */
module ChatApi {
  import opened Wrappers
  import opened Text
  import opened JsValues
  import opened Extraction

  datatype Role = System | User

  datatype ChatMessage = ChatMessage(role: Role, content: string)

  /** The arguments of `openai.chat.completions.create`. */
  datatype ChatRequest = ChatRequest(model: string, messages: seq<ChatMessage>, temperature: real)

  const ModelName: string := "gemini-2.0-flash"
  const Temperature: real := 0.2

  /** The fields the handlers read from `req.body`; `None` is `undefined`. */
  datatype RequestBody = RequestBody(textToTranslate: Option<string>, languages: Option<seq<string>>)

  /**
   * What the chat call gives back: the content of the first choice (`null`
   * is `None`), or `CallFailed` for a rejected call and for a reply with no
   * first choice, whose `choices[0].message` access throws a `TypeError`
   * that the handler catches, logs, and answers with nothing.
   */
  datatype Completion = Answered(content: Option<string>) | CallFailed

  datatype HttpResponse = HttpResponse(status: nat, body: Json)

  /** One run of a handler: the model request it made, if any, and the response it sent, if any. */
  datatype HandlerRun = HandlerRun(request: Option<ChatRequest>, response: Option<HttpResponse>)

  /** Why building the meanings failed: the call was rejected, or the reply did not parse. */
  datatype MeaningsError = CallRejected | ParseFailed(message: string)

  /** The default value of the `languages` parameter. */
  const DefaultLanguages: seq<string> := ["English", "French"]

  /** Both handlers ask for three examples per meaning. */
  const HandlerExampleCount: nat := 3

  const ParseFailure: string := "Failed to parse response as JSON"

  const MissingKeyMessage: string :=
    "OpenAI API key not configured, please follow instructions in README.md"

  /** `res.status(500).json({ error: { message } })` */
  const MissingKeyResponse: HttpResponse :=
    HttpResponse(500, JObj([("error", JObj([("message", JStr(MissingKeyMessage))]))]))

  /** `!openai.apiKey` fails for a missing or empty key. */
  predicate KeyConfigured(apiKey: Option<string>)
  {
    apiKey.Some? && apiKey.value != ""
  }

  /** `req.body.textToTranslate || ''` */
  function BodyText(body: RequestBody): (r: string)
    ensures body.textToTranslate.Some? ==> r == body.textToTranslate.value
    ensures body.textToTranslate.None? ==> r == ""
  {
    if body.textToTranslate.Some? then body.textToTranslate.value else ""
  }

  /** `req.body.languages`, replaced by the parameter's default only when `undefined`. */
  function BodyLanguages(body: RequestBody): (r: seq<string>)
    ensures body.languages.Some? ==> r == body.languages.value
    ensures body.languages.None? ==> r == DefaultLanguages
  {
    if body.languages.Some? then body.languages.value else DefaultLanguages
  }

  /** `"${word}"`: the text between double quotes. */
  function Quoted(word: string): string
  {
    "\"" + word + "\""
  }

  /**
   * The `try` block of both meaning builders: the reply text, the chosen
   * candidate and `JSON.parse`, which throws the parse-failure message.
   */
  function ParseReply(completion: Completion, parse: string -> Option<Json>): (r: Result<Json, MeaningsError>)
    ensures completion.CallFailed? ==> r == Failure(CallRejected)
    ensures completion.Answered? ==>
      var candidate := Candidate(ReplyText(completion.content));
      (r.Success? <==> parse(candidate).Some?) &&
      (r.Success? ==> r.value == parse(candidate).value) &&
      (r.Failure? ==> r.error == ParseFailed(ParseFailure))
  {
    match completion
    case CallFailed => Failure(CallRejected)
    case Answered(content) =>
      match parse(Candidate(ReplyText(content)))
      case Some(v) => Success(v)
      case None => Failure(ParseFailed(ParseFailure))
  }

  /** `res.status(200).json({ result })` */
  function Ok(result: Json): (r: HttpResponse)
    ensures r.status == 200 && Get(r.body, "result") == Some(result)
  {
    HttpResponse(200, JObj([("result", result)]))
  }

  /** The guard's response names the missing key in its error message. */
  lemma MissingKeyResponseShape()
    ensures MissingKeyResponse.status == 500
    ensures Get(MissingKeyResponse.body, "error").Some?
    ensures Get(Get(MissingKeyResponse.body, "error").value, "message") == Some(JStr(MissingKeyMessage))
  {
  }

  /** An empty or missing reply parses as `parse("{}")`, whatever else happens. */
  lemma EmptyReplyParsesBraces(content: Option<string>, parse: string -> Option<Json>)
    requires content.None? || content.value == ""
    ensures ParseReply(Answered(content), parse) ==
      (if parse("{}").Some? then Success(parse("{}").value) else Failure(ParseFailed(ParseFailure)))
  {
    EmptyReply();
  }
}
