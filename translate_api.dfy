/**
 * `/api/translate`: classifies the text, asks the model for its meanings
 * with the schema instructions, and answers `{ result: { languages } }`.
 */
module TranslateApi {
  import opened Wrappers
  import opened Text
  import opened JsValues
  import opened Classifier
  import opened PromptText
  import opened SchemaGenerator
  import opened ChatApi
  import opened Extraction

  const EmptyInputLabel: string := "Empty input"

  /** `classifyText(word)`: the word-type string handed to the schema instructions. */
  function WordType(word: string, typeName: TextClass -> string): (r: string)
    ensures Trim(word) == [] ==> r == EmptyInputLabel
    ensures Trim(word) != [] ==> r == typeName(Classify(word).textClass)
  {
    match Classify(word)
    case EmptyInput => EmptyInputLabel
    case Classified(c) => typeName(c)
  }

  /** The indentation a `\` line continuation keeps in the message templates. */
  const ContinuationIndent: string := "                  "

  const SystemMessage: string :=
    "You are a multilingual assistant that provides "
    + ContinuationIndent + "text meanings and several examples for each meaning "
    + ContinuationIndent + "in case the text is provided as a word or idiom or short phrase. "
    + ContinuationIndent + "Always respond with a valid JSON object following the exact schema specifications."

  const UserLead: string := "Provide meanings for the text "
  const LanguagesLead: string := " in the following languages: " + ContinuationIndent

  /** The pieces of the user message around the given instructions. */
  function UserPieces(word: string, languages: seq<string>, instructions: string): (r: seq<string>)
    ensures |r| == 6 && r[0] == UserLead && r[1] == Quoted(word)
    ensures r[3] == LanguageList(languages) && r[5] == instructions
  {
    [UserLead, Quoted(word), LanguagesLead, LanguageList(languages), ". ", instructions]
  }

  /** The user message of `getTextMeanings`. */
  function UserMessage(word: string, languages: seq<string>, exampleCount: nat, typeName: TextClass -> string): string
  {
    Concat(UserPieces(word, languages, Instructions(exampleCount, word, WordType(word, typeName))))
  }

  /** The request `getTextMeanings(word, languages, exampleCount)` makes. */
  function TextMeaningsRequest(word: string, languages: seq<string>, exampleCount: nat, typeName: TextClass -> string): ChatRequest
  {
    ChatRequest(ModelName,
      [ChatMessage(System, SystemMessage), ChatMessage(User, UserMessage(word, languages, exampleCount, typeName))],
      Temperature)
  }

  /** `return { languages: parsedResponse }`, with no check of what was parsed. */
  function TextMeaningsResult(completion: Completion, parse: string -> Option<Json>): (r: Result<Json, MeaningsError>)
    ensures r.Success? <==> ParseReply(completion, parse).Success?
    ensures r.Success? ==> Keys(r.value) == ["languages"] && Get(r.value, "languages") == Some(ParseReply(completion, parse).value)
    ensures r.Failure? ==> r.error == ParseReply(completion, parse).error
  {
    match ParseReply(completion, parse)
    case Success(v) => Success(JObj([("languages", v)]))
    case Failure(e) => Failure(e)
  }

  /**
   * The handler once the request is built: a 200 response when the model
   * answered and the chosen candidate parsed, otherwise no response at all
   * (the failure is only logged).
   */
  function Answer(request: ChatRequest, complete: ChatRequest -> Completion, parse: string -> Option<Json>): (run: HandlerRun)
    ensures run.request == Some(request)
    ensures run.response.Some? <==>
      complete(request).Answered? && parse(Candidate(ReplyText(complete(request).content))).Some?
    ensures run.response.Some? ==>
      run.response.value == Ok(JObj([("languages", parse(Candidate(ReplyText(complete(request).content))).value)]))
  {
    match TextMeaningsResult(complete(request), parse)
    case Success(v) => HandlerRun(Some(request), Some(Ok(v)))
    case Failure(_) => HandlerRun(Some(request), None)
  }

  /** The handler: the key guard, the defaults of the body and three examples. */
  function Handle(apiKey: Option<string>, body: RequestBody, typeName: TextClass -> string,
                  complete: ChatRequest -> Completion, parse: string -> Option<Json>): (run: HandlerRun)
  {
    if !KeyConfigured(apiKey) then HandlerRun(None, Some(MissingKeyResponse))
    else Answer(TextMeaningsRequest(BodyText(body), BodyLanguages(body), HandlerExampleCount, typeName), complete, parse)
  }

  /** Where the pieces of the user message sit in it. */
  lemma UserMessageParts(word: string, languages: seq<string>, instructions: string)
    ensures StartsWith(Concat(UserPieces(word, languages, instructions)), UserLead)
    ensures Contains(Concat(UserPieces(word, languages, instructions)), Quoted(word))
    ensures Contains(Concat(UserPieces(word, languages, instructions)), LanguageList(languages))
    ensures Contains(Concat(UserPieces(word, languages, instructions)), instructions)
  {
    var ps := UserPieces(word, languages, instructions);
    ConcatEnds(ps);
    ConcatContainsAll(ps);
  }

  /** The request: the fixed model and temperature, the system message, then the user message. */
  lemma RequestFields(word: string, languages: seq<string>, exampleCount: nat, typeName: TextClass -> string)
    ensures var r := TextMeaningsRequest(word, languages, exampleCount, typeName);
      r.model == "gemini-2.0-flash" && r.temperature == 0.2 && |r.messages| == 2 &&
      r.messages[0] == ChatMessage(System, SystemMessage) &&
      r.messages[1] == ChatMessage(User, UserMessage(word, languages, exampleCount, typeName))
  {
  }

  /**
   * The user message quotes the text, names the languages and holds the
   * schema instructions for the classified word type.
   */
  lemma UserMessageShape(word: string, languages: seq<string>, exampleCount: nat, typeName: TextClass -> string)
    ensures var m := UserMessage(word, languages, exampleCount, typeName);
      StartsWith(m, UserLead) && Contains(m, Quoted(word)) && Contains(m, LanguageList(languages)) &&
      Contains(m, Instructions(exampleCount, word, WordType(word, typeName)))
  {
    UserMessageParts(word, languages, Instructions(exampleCount, word, WordType(word, typeName)));
  }

  /** The user message holds the Word heading for the classified type and the example lines. */
  lemma UserMessageWordBranch(word: string, languages: seq<string>, exampleCount: nat, typeName: TextClass -> string)
    ensures Contains(UserMessage(word, languages, exampleCount, typeName), WordHeading(WordType(word, typeName)))
    ensures Contains(UserMessage(word, languages, exampleCount, typeName), ExampleSection(exampleCount))
  {
    var wt := WordType(word, typeName);
    var ins := Instructions(exampleCount, word, wt);
    UserMessageShape(word, languages, exampleCount, typeName);
    WordBranchPresent(exampleCount, word, wt);
    ContainsTrans(UserMessage(word, languages, exampleCount, typeName), ins, WordHeading(wt));
    ContainsTrans(UserMessage(word, languages, exampleCount, typeName), ins, ExampleSection(exampleCount));
  }

  /** Without a configured key the handler answers 500 and never calls the model. */
  lemma HandleWithoutKey(apiKey: Option<string>, body: RequestBody, typeName: TextClass -> string,
                         complete: ChatRequest -> Completion, parse: string -> Option<Json>)
    requires !KeyConfigured(apiKey)
    ensures Handle(apiKey, body, typeName, complete, parse).request.None?
    ensures Handle(apiKey, body, typeName, complete, parse).response == Some(MissingKeyResponse)
  {
  }

  /**
   * With a key the handler asks for three examples, for the body's text or
   * "" and the body's languages or English and French.
   */
  lemma HandleRequest(apiKey: Option<string>, body: RequestBody, typeName: TextClass -> string,
                      complete: ChatRequest -> Completion, parse: string -> Option<Json>)
    requires KeyConfigured(apiKey)
    ensures Handle(apiKey, body, typeName, complete, parse).request ==
      Some(TextMeaningsRequest(BodyText(body), BodyLanguages(body), HandlerExampleCount, typeName))
  {
  }

  /** A missing text is asked about as "", in English and French unless the body names languages. */
  lemma EmptyBodyDefaults(body: RequestBody)
    requires body.textToTranslate.None? && body.languages.None?
    ensures BodyText(body) == "" && BodyLanguages(body) == ["English", "French"]
    ensures LanguageList(BodyLanguages(body)) == "English and French"
  {
    LanguageListSmall("English", "French");
  }

  /** A blank text is described to the model as "Empty input". */
  lemma BlankTextMessage(word: string, languages: seq<string>, exampleCount: nat, typeName: TextClass -> string)
    requires Trim(word) == []
    ensures WordType(word, typeName) == EmptyInputLabel
    ensures Contains(UserMessage(word, languages, exampleCount, typeName), WordHeading(EmptyInputLabel))
  {
    UserMessageWordBranch(word, languages, exampleCount, typeName);
  }

  /**
   * With a key a response is sent iff the model answered and the chosen
   * candidate parsed; it is then 200 with `{ result: { languages: parsed } }`.
   */
  lemma HandleResponse(apiKey: Option<string>, body: RequestBody, typeName: TextClass -> string,
                       complete: ChatRequest -> Completion, parse: string -> Option<Json>)
    requires KeyConfigured(apiKey)
    ensures var request := TextMeaningsRequest(BodyText(body), BodyLanguages(body), HandlerExampleCount, typeName);
      var run := Handle(apiKey, body, typeName, complete, parse);
      (run.response.Some? <==>
        complete(request).Answered? && parse(Candidate(ReplyText(complete(request).content))).Some?) &&
      (run.response.Some? ==>
        run.response.value == Ok(JObj([("languages", parse(Candidate(ReplyText(complete(request).content))).value)])))
  {
  }
}
