/**
 * `/api/prompt`: the older meanings endpoint. It builds a fixed shape of
 * instructions with numbered example fields, asks the model, and answers
 * `{ result: parsed }` with the parsed reply unwrapped. It also holds
 * `createSchema`, a JSON Schema of the same shape that nothing calls.
 */
module PromptApi {
  import opened Wrappers
  import opened Text
  import opened JsValues
  import opened ExampleKeys
  import opened PromptText
  import opened ChatApi
  import opened Extraction
  import TranslateApi

  // ---------------------------------------------------------------------
  // createSchema

  /** `{ type: "string" }` */
  const StringType: Json := JObj([("type", JStr("string"))])

  /** Looking a key up past a first entry with another key. */
  lemma LookupCons(first: (string, Json), rest: seq<(string, Json)>)
    ensures Lookup([first] + rest, first.0) == Some(first.1)
    ensures forall k :: k != first.0 ==> Lookup([first] + rest, k) == Lookup(rest, k)
  {
    assert ([first] + rest)[1..] == rest;
  }

  /** `record[key] = value`: an existing key keeps its place and takes the value, a new key goes last. */
  function Assign(fields: seq<(string, Json)>, key: string, value: Json): (r: seq<(string, Json)>)
    ensures Lookup(r, key) == Some(value)
    ensures forall k :: k != key ==> Lookup(r, k) == Lookup(fields, k)
  {
    if fields == [] then [(key, value)]
    else if fields[0].0 == key then [(key, value)] + fields[1..]
    else
      var rest := Assign(fields[1..], key, value);
      LookupCons(fields[0], rest);
      [fields[0]] + rest
  }

  /** Putting the first entry back in front. */
  lemma ConsAppend(fields: seq<(string, Json)>, tail: seq<(string, Json)>)
    requires fields != []
    ensures [fields[0]] + (fields[1..] + tail) == fields + tail
  {
    assert fields == [fields[0]] + fields[1..];
  }

  /** A key not yet present goes last. */
  lemma {:induction false} AssignNew(fields: seq<(string, Json)>, key: string, value: Json)
    requires forall i :: 0 <= i < |fields| ==> fields[i].0 != key
    ensures Assign(fields, key, value) == fields + [(key, value)]
  {
    if fields != [] {
      assert forall i :: 0 <= i < |fields[1..]| ==> fields[1..][i].0 == fields[i + 1].0;
      AssignNew(fields[1..], key, value);
      ConsAppend(fields, [(key, value)]);
    }
  }

  /** `{ ...fields, ...extra }`: the entries of `extra` assigned one after the other. */
  function Spread(fields: seq<(string, Json)>, extra: seq<(string, Json)>): seq<(string, Json)>
    decreases |extra|
  {
    if extra == [] then fields
    else Spread(Assign(fields, extra[0].0, extra[0].1), extra[1..])
  }

  /** No key occurs twice. */
  predicate DistinctKeys(fields: seq<(string, Json)>)
  {
    forall i, j :: 0 <= i < j < |fields| ==> fields[i].0 != fields[j].0
  }

  /** No key of `extra` is a key of `fields`. */
  predicate KeysDisjoint(fields: seq<(string, Json)>, extra: seq<(string, Json)>)
  {
    forall i, j :: 0 <= i < |fields| && 0 <= j < |extra| ==> fields[i].0 != extra[j].0
  }

  /** After the first entry is spread, the rest are still distinct and new. */
  lemma SpreadStep(fields: seq<(string, Json)>, extra: seq<(string, Json)>)
    requires |extra| > 0 && DistinctKeys(extra) && KeysDisjoint(fields, extra)
    ensures Assign(fields, extra[0].0, extra[0].1) == fields + [extra[0]]
    ensures DistinctKeys(extra[1..]) && KeysDisjoint(fields + [extra[0]], extra[1..])
  {
    assert forall i :: 0 <= i < |fields| ==> fields[i].0 != extra[0].0;
    AssignNew(fields, extra[0].0, extra[0].1);
    var next := fields + [extra[0]];
    forall i, j | 0 <= i < |next| && 0 <= j < |extra[1..]| ensures next[i].0 != extra[1..][j].0 {
      assert extra[1..][j] == extra[j + 1];
    }
    forall i, j | 0 <= i < j < |extra[1..]| ensures extra[1..][i].0 != extra[1..][j].0 {
      assert extra[1..][i] == extra[i + 1] && extra[1..][j] == extra[j + 1];
    }
  }

  /** Appending the first entry, then the others. */
  lemma AppendFirst(fields: seq<(string, Json)>, extra: seq<(string, Json)>)
    requires extra != []
    ensures fields + [extra[0]] + extra[1..] == fields + extra
  {
    assert extra == [extra[0]] + extra[1..];
  }

  /** Spreading entries with new, distinct keys appends them in order. */
  lemma {:induction false} SpreadFresh(fields: seq<(string, Json)>, extra: seq<(string, Json)>)
    requires DistinctKeys(extra) && KeysDisjoint(fields, extra)
    ensures Spread(fields, extra) == fields + extra
    decreases |extra|
  {
    if extra != [] {
      SpreadStep(fields, extra);
      SpreadFresh(fields + [extra[0]], extra[1..]);
      AppendFirst(fields, extra);
    }
  }

  /** The example properties example1 .. exampleN, each `{ type: "string" }`. */
  function ExampleProperties(n: nat): (r: seq<(string, Json)>)
    ensures |r| == n
    ensures forall i :: 0 <= i < n ==> r[i] == (ExampleKeyList(n)[i], StringType)
  {
    seq(n, i requires 0 <= i < n => (ExampleKey(i + 1), StringType))
  }

  /** The keys of a field list. */
  function FieldKeys(fields: seq<(string, Json)>): (r: seq<string>)
    ensures |r| == |fields| && forall i :: 0 <= i < |fields| ==> r[i] == fields[i].0
  {
    seq(|fields|, i requires 0 <= i < |fields| => fields[i].0)
  }

  /** `schema.properties.languages.items`: the schema of one language entry. */
  function LanguageItem(schema: Json): Option<Json>
  {
    Field(Field(Field(Some(schema), "properties"), "languages"), "items")
  }

  /** `...items.properties.meaning.items`: the schema of one meaning. */
  function MeaningItem(schema: Json): Option<Json>
  {
    Field(Field(Field(LanguageItem(schema), "properties"), "meaning"), "items")
  }

  /** The schema around the properties and required list of one meaning. */
  function SchemaAround(itemProperties: seq<(string, Json)>, itemRequired: seq<string>): Json
  {
    JObj([("type", JStr("object")),
          ("properties", JObj([("languages", LanguagesSchema(itemProperties, itemRequired))])),
          ("required", StringList(["languages"]))])
  }

  /** `{ type: "array", items: ... }` for the list of languages. */
  function LanguagesSchema(itemProperties: seq<(string, Json)>, itemRequired: seq<string>): Json
  {
    JObj([("type", JStr("array")), ("items", LanguageSchema(itemProperties, itemRequired))])
  }

  /** The schema of one language entry. */
  function LanguageSchema(itemProperties: seq<(string, Json)>, itemRequired: seq<string>): Json
  {
    JObj([("type", JStr("object")),
          ("properties", JObj([("language", StringType), ("meaning", MeaningsSchema(itemProperties, itemRequired))])),
          ("required", StringList(["language", "meaning"]))])
  }

  /** `{ type: "array", items: ... }` for the list of meanings. */
  function MeaningsSchema(itemProperties: seq<(string, Json)>, itemRequired: seq<string>): Json
  {
    JObj([("type", JStr("array")), ("items", MeaningSchema(itemProperties, itemRequired))])
  }

  /** The schema of one meaning. */
  function MeaningSchema(itemProperties: seq<(string, Json)>, itemRequired: seq<string>): Json
  {
    JObj([("type", JStr("object")), ("properties", JObj(itemProperties)), ("required", StringList(itemRequired))])
  }

  /** The entries of a three-entry object, found by key. */
  lemma LookupThree(a: (string, Json), b: (string, Json), c: (string, Json))
    requires a.0 != b.0 && a.0 != c.0 && b.0 != c.0
    ensures Lookup([a, b, c], b.0) == Some(b.1) && Lookup([a, b, c], c.0) == Some(c.1)
  {
    LookupAt([a, b, c], 1);
    LookupAt([a, b, c], 2);
  }

  /** The entries of a two-entry object, found by key. */
  lemma LookupTwo(a: (string, Json), b: (string, Json))
    requires a.0 != b.0
    ensures Lookup([a, b], a.0) == Some(a.1) && Lookup([a, b], b.0) == Some(b.1)
  {
    LookupAt([a, b], 0);
    LookupAt([a, b], 1);
  }

  lemma TopLevel(itemProperties: seq<(string, Json)>, itemRequired: seq<string>)
    ensures Get(SchemaAround(itemProperties, itemRequired), "properties") ==
      Some(JObj([("languages", LanguagesSchema(itemProperties, itemRequired))]))
    ensures Get(SchemaAround(itemProperties, itemRequired), "required") == Some(StringList(["languages"]))
  {
    LookupThree(("type", JStr("object")), ("properties", JObj([("languages", LanguagesSchema(itemProperties, itemRequired))])),
                ("required", StringList(["languages"])));
  }

  lemma LanguagesLevel(itemProperties: seq<(string, Json)>, itemRequired: seq<string>)
    ensures Get(LanguagesSchema(itemProperties, itemRequired), "items") == Some(LanguageSchema(itemProperties, itemRequired))
  {
    LookupTwo(("type", JStr("array")), ("items", LanguageSchema(itemProperties, itemRequired)));
  }

  lemma LanguageLevel(itemProperties: seq<(string, Json)>, itemRequired: seq<string>)
    ensures Get(LanguageSchema(itemProperties, itemRequired), "properties") ==
      Some(JObj([("language", StringType), ("meaning", MeaningsSchema(itemProperties, itemRequired))]))
    ensures Get(LanguageSchema(itemProperties, itemRequired), "required") == Some(StringList(["language", "meaning"]))
    ensures Lookup([("language", StringType), ("meaning", MeaningsSchema(itemProperties, itemRequired))], "meaning") ==
      Some(MeaningsSchema(itemProperties, itemRequired))
  {
    LookupThree(("type", JStr("object")),
                ("properties", JObj([("language", StringType), ("meaning", MeaningsSchema(itemProperties, itemRequired))])),
                ("required", StringList(["language", "meaning"])));
    LookupTwo(("language", StringType), ("meaning", MeaningsSchema(itemProperties, itemRequired)));
  }

  lemma MeaningLevel(itemProperties: seq<(string, Json)>, itemRequired: seq<string>)
    ensures Get(MeaningsSchema(itemProperties, itemRequired), "items") == Some(MeaningSchema(itemProperties, itemRequired))
    ensures Get(MeaningSchema(itemProperties, itemRequired), "properties") == Some(JObj(itemProperties))
    ensures Get(MeaningSchema(itemProperties, itemRequired), "required") == Some(StringList(itemRequired))
  {
    LookupTwo(("type", JStr("array")), ("items", MeaningSchema(itemProperties, itemRequired)));
    LookupThree(("type", JStr("object")), ("properties", JObj(itemProperties)), ("required", StringList(itemRequired)));
  }

  /** `schema.properties.languages.items` is the schema of one language entry. */
  lemma LanguageItemPath(itemProperties: seq<(string, Json)>, itemRequired: seq<string>)
    ensures LanguageItem(SchemaAround(itemProperties, itemRequired)) == Some(LanguageSchema(itemProperties, itemRequired))
  {
    TopLevel(itemProperties, itemRequired);
    LanguagesLevel(itemProperties, itemRequired);
    assert Lookup([("languages", LanguagesSchema(itemProperties, itemRequired))], "languages") ==
      Some(LanguagesSchema(itemProperties, itemRequired));
  }

  /** How the paths read in the nested schema. */
  lemma SchemaPaths(itemProperties: seq<(string, Json)>, itemRequired: seq<string>)
    ensures LanguageItem(SchemaAround(itemProperties, itemRequired)) == Some(LanguageSchema(itemProperties, itemRequired))
    ensures MeaningItem(SchemaAround(itemProperties, itemRequired)) == Some(MeaningSchema(itemProperties, itemRequired))
  {
    LanguageItemPath(itemProperties, itemRequired);
    LanguageLevel(itemProperties, itemRequired);
    MeaningLevel(itemProperties, itemRequired);
  }

  /** The keys and entries of an object are those of its field list. */
  lemma ObjectKeys(fields: seq<(string, Json)>)
    ensures Entries(JObj(fields)) == fields && Keys(JObj(fields)) == FieldKeys(fields)
  {
  }

  /**
   * `createSchema(exampleCount)`. One meaning has exactly the properties
   * type, value, example1 .. exampleN, each of type string; it requires them
   * all, in that order; a language entry requires its language and
   * meanings, and the whole object its languages, whatever N is. The
   * value is the fixed skeleton of `SchemaAround` (object, array of
   * language objects with a string `language`, array of meaning objects)
   * around those properties.
   */
  method CreateSchema(exampleCount: nat) returns (schema: Json)
    ensures Field(MeaningItem(schema), "properties").Some?
    ensures var props := Field(MeaningItem(schema), "properties").value;
      Keys(props) == ["type", "value"] + ExampleKeyList(exampleCount) &&
      (forall i :: 0 <= i < |Entries(props)| ==> Entries(props)[i].1 == StringType)
    ensures Field(MeaningItem(schema), "required") == Some(StringList(["type", "value"] + ExampleKeyList(exampleCount)))
    ensures forall k :: k in ["type", "value"] + ExampleKeyList(exampleCount) ==>
      k in Keys(Field(MeaningItem(schema), "properties").value)
    ensures Field(LanguageItem(schema), "required") == Some(StringList(["language", "meaning"]))
    ensures Get(schema, "required") == Some(StringList(["languages"]))
    ensures schema == SchemaAround(Spread([("type", StringType), ("value", StringType)], ExampleProperties(exampleCount)),
      ["type", "value"] + ExampleKeyList(exampleCount))
  {
    var exampleProperties: seq<(string, Json)> := [];
    var i := 1;
    while i <= exampleCount
      invariant 1 <= i <= exampleCount + 1
      invariant exampleProperties == ExampleProperties(i - 1)
    {
      AssignNextExample(i);
      exampleProperties := Assign(exampleProperties, ExampleKey(i), StringType);
      i := i + 1;
    }
    var exampleRequired := ExampleKeyList(exampleCount);
    var itemProperties := Spread([("type", StringType), ("value", StringType)], exampleProperties);
    ItemProperties(exampleCount);
    schema := SchemaAround(itemProperties, ["type", "value"] + exampleRequired);
    SchemaPaths(itemProperties, ["type", "value"] + exampleRequired);
    MeaningLevel(itemProperties, ["type", "value"] + exampleRequired);
    LanguageLevel(itemProperties, ["type", "value"] + exampleRequired);
    TopLevel(itemProperties, ["type", "value"] + exampleRequired);
    ObjectKeys(itemProperties);
  }

  /** Assigning exampleI to the properties of the earlier examples appends it. */
  lemma AssignNextExample(i: nat)
    requires i >= 1
    ensures Assign(ExampleProperties(i - 1), ExampleKey(i), StringType) == ExampleProperties(i)
  {
    ExamplePropertiesLack(i - 1);
    AssignNew(ExampleProperties(i - 1), ExampleKey(i), StringType);
    ExamplePropertiesGrow(i);
  }

  /** example(N+1) is not among the properties of N examples. */
  lemma ExamplePropertiesLack(n: nat)
    ensures forall j :: 0 <= j < |ExampleProperties(n)| ==> ExampleProperties(n)[j].0 != ExampleKey(n + 1)
  {
    ExampleKeyListDistinct(n);
    var ps := ExampleProperties(n);
    assert forall j :: 0 <= j < |ps| ==> ps[j].0 == ExampleKeyList(n)[j];
  }

  /** The properties of i examples are those of i - 1 and then exampleI. */
  lemma ExamplePropertiesGrow(i: nat)
    requires i >= 1
    ensures ExampleProperties(i - 1) + [(ExampleKey(i), StringType)] == ExampleProperties(i)
  {
  }

  /** The properties of one meaning: type, value, then the examples, all of type string. */
  lemma ItemProperties(n: nat)
    ensures var props := Spread([("type", StringType), ("value", StringType)], ExampleProperties(n));
      FieldKeys(props) == ["type", "value"] + ExampleKeyList(n) &&
      (forall i :: 0 <= i < |props| ==> props[i].1 == StringType)
  {
    var base := [("type", StringType), ("value", StringType)];
    var ex := ExampleProperties(n);
    ExamplePropertiesNew(n);
    SpreadFresh(base, ex);
    FieldKeysAppend(base, ex);
    ExamplePropertyKeys(n);
    BaseKeys();
    StringTyped(base, ex);
  }

  /** The keys of the two fixed properties. */
  lemma BaseKeys()
    ensures FieldKeys([("type", StringType), ("value", StringType)]) == ["type", "value"]
  {
  }

  /** Two lists of string-typed properties, one after the other. */
  lemma StringTyped(a: seq<(string, Json)>, b: seq<(string, Json)>)
    requires forall i :: 0 <= i < |a| ==> a[i].1 == StringType
    requires forall i :: 0 <= i < |b| ==> b[i].1 == StringType
    ensures forall i :: 0 <= i < |a + b| ==> (a + b)[i].1 == StringType
  {
  }

  /** The example properties have distinct keys, none of them "type" or "value". */
  lemma ExamplePropertiesNew(n: nat)
    ensures DistinctKeys(ExampleProperties(n))
    ensures KeysDisjoint([("type", StringType), ("value", StringType)], ExampleProperties(n))
  {
    var base := [("type", StringType), ("value", StringType)];
    var ex := ExampleProperties(n);
    ExampleKeyListDistinct(n);
    forall a, b | 0 <= a < |base| && 0 <= b < |ex| ensures base[a].0 != ex[b].0 {
      assert |ex[b].0| > |Prefix|;
    }
  }

  /** The keys of the example properties are example1 .. exampleN. */
  lemma ExamplePropertyKeys(n: nat)
    ensures FieldKeys(ExampleProperties(n)) == ExampleKeyList(n)
  {
  }

  /** The keys of two field lists, one after the other. */
  lemma FieldKeysAppend(a: seq<(string, Json)>, b: seq<(string, Json)>)
    ensures FieldKeys(a + b) == FieldKeys(a) + FieldKeys(b)
  {
  }

  // ---------------------------------------------------------------------
  // getWordMeanings

  /** The instructions text up to the example lines. */
  const InstructionsHead: string :=
    "\n    Return the response as a valid JSON object with exactly this structure:"
    + "\n    {"
    + "\n      \"languages\": ["
    + "\n        {"
    + "\n          \"language\": \"LanguageName\","
    + "\n          \"meaning\": ["
    + "\n            {"
    + "\n              \"type\": \"part-of-speech\","
    + "\n              \"value\": \"meaning-in-this-language\","
    + "\n              "

  /** The instructions text after the example lines. */
  const InstructionsTail: string :=
    "\n            }"
    + "\n          ]"
    + "\n        }"
    + "\n      ]"
    + "\n    }"
    + "\n    "
    + "\n    Do not include any explanation, just return valid JSON that can be parsed directly."
    + "\n    "

  /** The fixed shape with the given number of example lines. */
  function SchemaInstructions(exampleCount: nat): string
  {
    Concat([InstructionsHead, ExampleSection(exampleCount), InstructionsTail])
  }

  /** The system message around the number of examples. */
  const SystemLead: string :=
    "You are a multilingual assistant that provides word meanings with "

  const SystemTail: string :=
    " examples for each meaning. Always respond with a valid JSON object following the exact schema specifications."

  /** The system message names the number of examples. */
  function SystemMessage(exampleCount: nat): string
  {
    Concat([SystemLead, NatToString(exampleCount), SystemTail])
  }

  /** The pieces of the user message. */
  function UserPieces(exampleCount: nat, word: string, languages: seq<string>, instructions: string): (r: seq<string>)
    ensures |r| == 8 && r[0] == "Provide meanings and " && r[1] == NatToString(exampleCount)
    ensures r[3] == Quoted(word) && r[5] == LanguageList(languages) && r[7] == instructions
  {
    ["Provide meanings and ", NatToString(exampleCount), " usage examples for the word ", Quoted(word),
     " in the following languages: ", LanguageList(languages), ". ", instructions]
  }

  /** The user message of `getWordMeanings`. */
  function UserMessage(exampleCount: nat, word: string, languages: seq<string>): string
  {
    Concat(UserPieces(exampleCount, word, languages, SchemaInstructions(exampleCount)))
  }

  /** The request `getWordMeanings(word, languages, exampleCount)` makes. */
  function WordMeaningsRequest(word: string, languages: seq<string>, exampleCount: nat): ChatRequest
  {
    ChatRequest(ModelName,
      [ChatMessage(System, SystemMessage(exampleCount)), ChatMessage(User, UserMessage(exampleCount, word, languages))],
      Temperature)
  }

  /** `return parsedResponse`: the parsed reply as it is, not wrapped. */
  function WordMeaningsResult(completion: Completion, parse: string -> Option<Json>): (r: Result<Json, MeaningsError>)
    ensures r == ParseReply(completion, parse)
  {
    ParseReply(completion, parse)
  }

  /** The handler: the same guard and defaults as `/api/translate`, and the unwrapped result. */
  function Handle(apiKey: Option<string>, body: RequestBody,
                  complete: ChatRequest -> Completion, parse: string -> Option<Json>): (run: HandlerRun)
  {
    if !KeyConfigured(apiKey) then HandlerRun(None, Some(MissingKeyResponse))
    else Answer(WordMeaningsRequest(BodyText(body), BodyLanguages(body), HandlerExampleCount), complete, parse)
  }

  /**
   * The handler once the request is built: a 200 response with the parsed
   * reply as it is, or no response when the call or the parse failed.
   */
  function Answer(request: ChatRequest, complete: ChatRequest -> Completion, parse: string -> Option<Json>): (run: HandlerRun)
    ensures run.request == Some(request)
    ensures run.response.Some? <==>
      complete(request).Answered? && parse(Candidate(ReplyText(complete(request).content))).Some?
    ensures run.response.Some? ==>
      run.response.value == Ok(parse(Candidate(ReplyText(complete(request).content))).value)
  {
    match WordMeaningsResult(complete(request), parse)
    case Success(v) => HandlerRun(Some(request), Some(Ok(v)))
    case Failure(_) => HandlerRun(Some(request), None)
  }

  /** The instructions open with the fixed shape, end with its trailer and hold the example lines. */
  lemma SchemaInstructionsShape(exampleCount: nat)
    ensures StartsWith(SchemaInstructions(exampleCount), InstructionsHead)
    ensures Contains(SchemaInstructions(exampleCount), ExampleSection(exampleCount))
    ensures var s := SchemaInstructions(exampleCount);
      |InstructionsTail| <= |s| && s[|s| - |InstructionsTail|..] == InstructionsTail
  {
    var ps := [InstructionsHead, ExampleSection(exampleCount), InstructionsTail];
    ConcatEnds(ps);
    ConcatContainsAll(ps);
  }

  /** Where the pieces of the user message sit in it. */
  lemma UserMessageParts(exampleCount: nat, word: string, languages: seq<string>, instructions: string)
    ensures var m := Concat(UserPieces(exampleCount, word, languages, instructions));
      StartsWith(m, "Provide meanings and ") && Contains(m, NatToString(exampleCount)) &&
      Contains(m, Quoted(word)) && Contains(m, LanguageList(languages)) && Contains(m, instructions)
  {
    var ps := UserPieces(exampleCount, word, languages, instructions);
    ConcatEnds(ps);
    ConcatContainsAll(ps);
  }

  /** The system message names the number of examples. */
  lemma SystemMessageCount(exampleCount: nat)
    ensures Contains(SystemMessage(exampleCount), NatToString(exampleCount))
  {
    ConcatContains([SystemLead, NatToString(exampleCount), SystemTail], 1);
  }

  /**
   * The request: the fixed model and temperature; a system message naming
   * the number of examples; a user message naming it too, quoting the word
   * as given (it is not classified), naming the languages and holding the
   * instructions with that many example lines.
   */
  lemma RequestShape(word: string, languages: seq<string>, exampleCount: nat)
    ensures var r := WordMeaningsRequest(word, languages, exampleCount);
      r.model == "gemini-2.0-flash" && r.temperature == 0.2 && |r.messages| == 2 &&
      r.messages[0] == ChatMessage(System, SystemMessage(exampleCount)) &&
      r.messages[1] == ChatMessage(User, UserMessage(exampleCount, word, languages))
    ensures Contains(SystemMessage(exampleCount), NatToString(exampleCount))
    ensures var m := UserMessage(exampleCount, word, languages);
      StartsWith(m, "Provide meanings and ") && Contains(m, NatToString(exampleCount)) &&
      Contains(m, Quoted(word)) && Contains(m, LanguageList(languages)) &&
      Contains(m, SchemaInstructions(exampleCount)) && Contains(m, ExampleSection(exampleCount))
  {
    SystemMessageCount(exampleCount);
    UserMessageParts(exampleCount, word, languages, SchemaInstructions(exampleCount));
    SchemaInstructionsShape(exampleCount);
    ContainsTrans(UserMessage(exampleCount, word, languages), SchemaInstructions(exampleCount), ExampleSection(exampleCount));
  }

  /** Without a configured key the handler answers 500 and never calls the model. */
  lemma HandleWithoutKey(apiKey: Option<string>, body: RequestBody,
                         complete: ChatRequest -> Completion, parse: string -> Option<Json>)
    requires !KeyConfigured(apiKey)
    ensures Handle(apiKey, body, complete, parse).request.None?
    ensures Handle(apiKey, body, complete, parse).response == Some(MissingKeyResponse)
  {
  }

  /** With a key the handler asks for three examples, for the body's text or "" and its languages or the default. */
  lemma HandleRequest(apiKey: Option<string>, body: RequestBody,
                      complete: ChatRequest -> Completion, parse: string -> Option<Json>)
    requires KeyConfigured(apiKey)
    ensures Handle(apiKey, body, complete, parse).request ==
      Some(WordMeaningsRequest(BodyText(body), BodyLanguages(body), HandlerExampleCount))
  {
  }

  /**
   * With a key a response is sent iff the model answered and the chosen
   * candidate parsed; it is then 200 with `{ result: parsed }`.
   */
  lemma HandleResponse(apiKey: Option<string>, body: RequestBody,
                       complete: ChatRequest -> Completion, parse: string -> Option<Json>)
    requires KeyConfigured(apiKey)
    ensures var request := WordMeaningsRequest(BodyText(body), BodyLanguages(body), HandlerExampleCount);
      var run := Handle(apiKey, body, complete, parse);
      (run.response.Some? <==>
        complete(request).Answered? && parse(Candidate(ReplyText(complete(request).content))).Some?) &&
      (run.response.Some? ==>
        run.response.value == Ok(parse(Candidate(ReplyText(complete(request).content))).value))
  {
  }

  /**
   * For the same reply the two endpoints succeed and fail together, and
   * `/api/translate`'s result is `/api/prompt`'s wrapped as `{ languages }`.
   */
  lemma WrappingIsTheDifference(completion: Completion, parse: string -> Option<Json>)
    ensures TranslateApi.TextMeaningsResult(completion, parse).Success? <==> WordMeaningsResult(completion, parse).Success?
    ensures WordMeaningsResult(completion, parse).Success? ==>
      TranslateApi.TextMeaningsResult(completion, parse).value == JObj([("languages", WordMeaningsResult(completion, parse).value)])
    ensures WordMeaningsResult(completion, parse).Failure? ==>
      TranslateApi.TextMeaningsResult(completion, parse).error == WordMeaningsResult(completion, parse).error
  {
  }
}
