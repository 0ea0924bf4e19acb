# multilangstor translation front end, modelled in Dafny

multilangstor is a Next.js/React front end over a hosted LLM. A user types a
word, phrase or paragraph, picks target languages, and gets meanings, usage
examples and, for French verbs, a conjugation table. This project models the
deterministic parts of that system:

- the two API handlers, `/api/translate` and `/api/prompt`:
  - the API-key guard;
  - the request defaults;
  - the text classifier;
  - the prompt texts, including the schema instructions with their example lines, per-line entries and French conjugation template;
  - the JSON-Schema value `createSchema`;
  - how a JSON candidate is extracted from the model's reply and wrapped;
- the client view-model rules:
  - case-insensitive language lookup;
  - colour lookup with its default;
  - "keys starting with `example`, by numeric suffix" ordering;
  - tab and button visibility;
  - the `'-'` fallback;
  - grouping tenses into rows of four;
  - the French conjugation modal and its older `FrenchContent` twin;
  - the idiom modal;
- the two input components, the page `Translator` and `TranslationInput`:
  - the key-down / change / debounce-timer state machine;
  - the mapping of request outcomes to stored results.

The LLM call, `fetch` and `JSON.parse` are not modelled. They enter as
parameters:

- `complete: ChatRequest -> Completion` answers a chat request, or fails;
- `parse: string -> Option<Json>` accepts a JSON text, or rejects it;
- a `FetchOutcome` (not ok with an optional error body, ok with an optional body, or thrown) is what `fetch` produced.

JavaScript values are the `Json` datatype of `JsValues`. Objects are
ordered lists of entries, so `Object.keys` and `Object.entries` keep
insertion order. The four classifier regexes are written as dedicated
predicates with JavaScript's semantics:

- `\w` is ASCII `[A-Za-z0-9_]`;
- `.` excludes `\n`, `\r`, U+2028 and U+2029;
- `$` anchors only at the end of the input;
- `{50,}` counts UTF-16 code units, as `length` does (`Text.Utf16Length`), so an emoji counts twice.

The page and the input box are classes whose fields are the component
state and refs. The two-second debounce is a pending timer identifier with
no clock. A request is split into two events: sending it, then its
response arriving.

Behaviour of the code as written, which the model follows:

- When the model call fails or the reply does not parse, both handlers
  only log the error. They send no response at all. `Answer`/`Handle`
  therefore return a run with no response in that case.
- The language list has no comma before "and" ("A, B and C"). An empty
  list reads "undefined".
- `/api/translate` wraps the parsed reply as `{ languages: parsed }`.
  `/api/prompt` returns it unwrapped. Neither checks that a `languages`
  field exists.
- The page's colour table gives every language other than English
  `#5243AA`. `LanguageCard` has five distinct colours.
- `TranslationInput` passes any truthy `result` on, even a string. The
  page keeps a result only when it is an object or array.
- `FrenchContent` throws when a participle's `passé` is `null`, and draws
  nothing for non-object data. `ConjugationModal` draws string-valued
  moods character by character.

## Model

| member | source | states |
|---|---|---|
| JsValues.Lookup | src/components/Translator/index.tsx:164 | A property read finds a value exactly when some entry has that key, and the value found belongs to such an entry |
| JsValues.LookupAt | src/components/Translator/index.tsx:164 | Reading a key gives the value of its first entry |
| JsValues.StringList | src/pages/api/prompt.ts:54 | A string array literal holds exactly the given strings, in order |
| JsValues.GetFinds | src/components/Translator/LanguageCard.tsx:41 | `v?.key` finds a value only on an object with an entry for the key, and the value is that entry's |
| JsValues.FieldShortCircuits | src/components/Translator/LanguageCard.tsx:41 | `?.` gives `undefined` on a missing value and otherwise reads the property |
| JsValues.FalsyValues | src/components/Translator/LanguageCard.tsx:41 | The falsy values are exactly `undefined`, `null`, `false`, `0` and `""` |
| JsValues.ObjectTypeValues | src/components/Translator/index.tsx:117 | `typeof v === 'object'` holds exactly for objects, arrays and `null` |
| JsValues.Length | src/components/Translator/LanguageCard.tsx:83 | `.length` is an array's size, a string's UTF-16 length, an object's own `length` property, and `undefined` on other primitives |
| JsValues.StringNumber | src/components/Translator/LanguageCard.tsx:83 | A numeric text compares as its value after whitespace is dropped; blank text is 0; other text is NaN |
| JsValues.StringNumberOfDecimal | src/components/Translator/LanguageCard.tsx:83 | A decimal numeral, with or without a minus sign, reads back as its number |
| JsValues.ToNumber | src/components/Translator/LanguageCard.tsx:83 | Numbers compare as themselves; objects and arrays of two or more elements are NaN |
| JsValues.TextNumber | src/components/Translator/LanguageCard.tsx:83 | An array element is read through its text, so `true` is NaN; otherwise it is read like the value itself |
| JsValues.GreaterThan | src/components/Translator/LanguageCard.tsx:83 | `undefined` and objects never pass `x > k`; a number, `null` (as 0) and a boolean (as 0 or 1) compare by value; a string compares by its numeric reading; `[]` is 0, `[e]` is read through `e`'s text, and longer arrays never pass |
| JsValues.LongerThan | src/components/Translator/LanguageCard.tsx:83-85 | `v.length > k` on arrays and strings compares their lengths; on objects it compares their own `length`; other primitives never pass |
| JsValues.ObjectLengthCompares | src/components/Translator/LanguageCard.tsx:83-85 | An object with a numeric `length` passes `length > k` iff that number is above `k` |
| JsValues.ObjectWithoutLength | src/components/Translator/LanguageCard.tsx:83-85 | An object without a `length` entry never passes `length > k` |
| JsValues.OrElse | src/components/Translator/LanguageCard.tsx:41 | The value itself when it is truthy, and the fallback otherwise |
| JsValues.Entries | src/components/Translator/ConjugationModal.tsx:126 | `Object.entries` is an object's own entries in order; arrays have one entry per item and strings one per character; other values have none |
| JsValues.Keys | src/components/Translator/ConjugationModal.tsx:121 | `Object.keys` is the key of every entry, in entry order |
| Text.TrimStart | src/pages/api/translate.ts:25 | Removes exactly the leading run of JavaScript whitespace; the rest starts with a non-space |
| Text.TrimEnd | src/pages/api/translate.ts:25 | Removes exactly the trailing run of JavaScript whitespace; the rest ends with a non-space |
| Text.TrimSlice | src/pages/api/translate.ts:25 | `trim()` is a contiguous slice with only whitespace cut off on either side and non-space at both ends |
| Text.TrimEmptyIffAllSpace | src/pages/api/translate.ts:25-26 | The trimmed text is empty iff the input is all whitespace |
| Text.TrimKeepsNonSpace | src/pages/api/translate.ts:25 | No non-space character is lost by trimming |
| Text.TrimIdempotent | src/pages/api/translate.ts:25 | Trimming twice is trimming once |
| Text.TrimOfNonSpaceEnds | src/pages/api/translate.ts:25 | A text with non-space characters at both ends is its own trim |
| Text.IndexOf | src/pages/api/translate.ts:90 | Finds the first occurrence of a pattern at or after a position, or reports that there is none |
| Text.LastIndexOf | src/pages/api/translate.ts:91 | Finds the last occurrence of a character, or reports that there is none |
| Text.JoinAppend | src/pages/api/translate.ts:57 | Joining one more piece appends the separator and the piece |
| Text.Split | src/lib/schemaGenerator.tsx:155 | `split` always yields at least one piece |
| Text.SplitPieces | src/lib/schemaGenerator.tsx:155 | Splitting on a character gives one more piece than there are occurrences, and no piece contains the character |
| Text.JoinSplit | src/lib/schemaGenerator.tsx:155 | Joining the pieces of a split with the same character gives back the text |
| Text.SplitJoin | src/lib/schemaGenerator.tsx:155 | Splitting a join of separator-free pieces gives back the pieces |
| Text.NatToString | src/lib/schemaGenerator.tsx:137 | A number's decimal text is non-empty and all digits |
| Text.DigitsValueOfNatToString | src/lib/schemaGenerator.tsx:137 | Reading the decimal text back gives the number |
| Text.NatToStringInjective | src/lib/schemaGenerator.tsx:137 | Different numbers have different decimal texts, so the example keys are distinct |
| Text.LowerChar | src/components/Translator/index.tsx:161 | ASCII upper-case letters move down by 32; every other character is kept; the result is never upper case |
| Text.ToLower | src/components/Translator/index.tsx:161 | `toLowerCase` lowers each character in place and keeps the length |
| Text.ToLowerIdempotent | src/components/Translator/index.tsx:161 | Lowering twice is lowering once, and the result has no upper-case letter |
| Classifier.Classify | src/pages/api/translate.ts:23-47 | Empty input iff the trimmed text is empty; otherwise the class of the trimmed text |
| Classifier.LinesHasShape | src/pages/api/translate.ts:33 | Two or more non-empty terminator-free segments separated by runs of `\n` match the multi-line regex |
| Classifier.SkipNewlines | src/pages/api/translate.ts:33 | Skips exactly the run of `\n` that starts at a position |
| Classifier.ShapeIsLines | src/pages/api/translate.ts:33 | Every match of the multi-line regex has that segment shape |
| Classifier.MultiLineRegexIsLines | src/pages/api/translate.ts:33 | The multi-line regex matches iff the text is two or more segments separated by newline runs |
| Classifier.ClassifyIgnoresSurroundingSpace | src/pages/api/translate.ts:25 | Every test runs on the trimmed text, so trimming first changes nothing |
| Classifier.EmptyInputIffBlank | src/pages/api/translate.ts:25-28 | "Empty input" iff the text is empty or whitespace only |
| Classifier.WordIff | src/pages/api/translate.ts:30-37 | Word iff the trimmed text is non-empty and all ASCII letters, digits and `_` |
| Classifier.ForeignCharNeverWord | src/pages/api/translate.ts:30-37 | A text with a non-space character outside `\w` (such as `é` or `-`) is never a Word |
| Classifier.ParagraphIff | src/pages/api/translate.ts:32-39 | Paragraph iff not a Word, at least 50 UTF-16 code units once trimmed, and no `\n` |
| Classifier.MultipleLinesIff | src/pages/api/translate.ts:33-41 | MultipleLines iff the trimmed text is two or more segments separated by `\n` runs |
| Classifier.CarriageReturnNotMultipleLines | src/pages/api/translate.ts:33-41 | A text with a `\r`, as in a `\r\n` break, is never MultipleLines |
| Classifier.SentencePrecedence | src/pages/api/translate.ts:36-46 | A sentence-shaped text is a Paragraph when 50 or more UTF-16 code units long, else a Phrase |
| Classifier.PhraseIff | src/pages/api/translate.ts:31-43 | Phrase iff the trimmed text starts A–Z, ends in `.`, `?` or `!`, has no line terminator, and is under 50 UTF-16 code units |
| Classifier.UnclassifiedIff | src/pages/api/translate.ts:44-46 | Unclassified iff non-empty and none of the four regexes match |
| Classifier.UnpunctuatedUnclassified | src/pages/api/translate.ts:44-46 | A single-line non-word under 50 UTF-16 code units with no closing punctuation is Unclassified |
| Classifier.UnpunctuatedClauseUnclassified | src/pages/api/translate.ts:36-46 | "Hello there" is Unclassified |
| Classifier.AstralRunIsParagraph | src/pages/api/translate.ts:32-39 | Twenty-five emoji, fifty code units, are a Paragraph |
| Text.Utf16LengthBmp | src/pages/api/translate.ts:32 | Without astral characters the code-unit length is the character count |
| Text.Utf16LengthAstral | src/pages/api/translate.ts:32 | Astral characters count two code units each |
| PromptText.LanguageListSmall | src/pages/api/translate.ts:56-58 | No names read "undefined", one name is itself, two are joined by " and " |
| PromptText.LanguageListGrow | src/pages/api/translate.ts:56-58 | For two or more names: all but the last joined by ", ", then " and " and the last name |
| PromptText.LanguageListThree | src/pages/api/prompt.ts:73-75 | Three names read "a, b and c", with no comma before "and" |
| PromptText.EntryStartsWithKey | src/lib/schemaGenerator.tsx:136-137 | Example line i starts with the quoted key `example{i}` |
| PromptText.ExampleSectionKeys | src/lib/schemaGenerator.tsx:136-137 | The example section has exactly N lines: line i names `example{i}` for i = 1..N in order, the keys are distinct, and there are none for N = 0 |
| PromptText.ExampleSectionGrow | src/pages/api/prompt.ts:87-88 | N+1 example lines are the N lines, the separator, and line N+1 |
| SchemaGenerator.MultiLineEntries | src/lib/schemaGenerator.tsx:155-157 | One multi-line entry per piece of `word.split('\n')` |
| SchemaGenerator.MultiLineSectionLines | src/lib/schemaGenerator.tsx:155-157 | For lines joined by `\n`, entry i embeds line i trimmed, in order |
| SchemaGenerator.SingleLineSection | src/lib/schemaGenerator.tsx:155-157 | A text with no newline gives a single entry embedding the trimmed text |
| SchemaGenerator.MultiLineEntryCount | src/lib/schemaGenerator.tsx:155-157 | k newlines give k+1 entries, empty pieces included |
| SchemaGenerator.BranchesPresent | src/lib/schemaGenerator.tsx:128-169 | All three branches always appear in the instructions; no branch is chosen by the word type |
| SchemaGenerator.WordBranchPresent | src/lib/schemaGenerator.tsx:129-137 | The instructions hold the Word heading with the word type interpolated, and the N example lines |
| SchemaGenerator.ConjugationBranchPresent | src/lib/schemaGenerator.tsx:7-140 | The constant French conjugation block appears unchanged in the instructions |
| SchemaGenerator.PhraseBranchPresent | src/lib/schemaGenerator.tsx:142-150 | The instructions hold the Phrase heading with the word type and the no-examples shape |
| SchemaGenerator.MultiBranchPresent | src/lib/schemaGenerator.tsx:151-159 | The instructions hold the Multiple-lines heading with the word type and the per-line entries |
| ConjugationTemplate.GroupJson | src/lib/schemaGenerator.tsx:9-126 | A group of the template reads as an object whose entries are its keys and values, in order |
| ConjugationTemplate.TenseEntryIsTense | src/lib/schemaGenerator.tsx:11-18 | A tense of the template lists exactly its persons, each with the placeholder form |
| ConjugationTemplate.MoodJson | src/lib/schemaGenerator.tsx:10-106 | A mood made of such tenses lists those persons in every tense |
| ConjugationTemplate.TemplateMoods | src/lib/schemaGenerator.tsx:9-126 | The conjugation block has exactly the seven moods indicative … infinitif, in order |
| ConjugationTemplate.GetMood | src/lib/schemaGenerator.tsx:9-126 | Each mood key reads back its own part of the template |
| ConjugationTemplate.IndicativePersons | src/lib/schemaGenerator.tsx:10-43 | Every indicative tense lists je, tu, il/elle, nous, vous, ils/elles |
| ConjugationTemplate.SubjunctivePersons | src/lib/schemaGenerator.tsx:44-77 | Every subjonctif tense lists the six persons |
| ConjugationTemplate.ConditionalPersons | src/lib/schemaGenerator.tsx:78-95 | Every conditionnel tense lists the six persons |
| ConjugationTemplate.ImperativePersons | src/lib/schemaGenerator.tsx:96-107 | Every impératif tense lists only tu, nous, vous |
| ConjugationTemplate.TemplatePersons | src/lib/schemaGenerator.tsx:10-107 | The seven moods, with six persons per tense in the first three and three in the impératif |
| ChatApi.BodyText | src/pages/api/translate.ts:124 | The text to translate, or "" when the body has none |
| ChatApi.BodyLanguages | src/pages/api/translate.ts:51-127 | The body's languages, or English and French when it names none |
| ChatApi.ParseReply | src/pages/api/translate.ts:85-109 | A failed call is rejected; otherwise it succeeds iff `JSON.parse` accepts the chosen candidate, with the parsed value, and fails with "Failed to parse response as JSON" |
| ChatApi.Ok | src/pages/api/translate.ts:130 | Status 200 with the value under `result` |
| ChatApi.MissingKeyResponseShape | src/pages/api/translate.ts:115-122 | The missing-key response is status 500 with `error.message` set to the configuration message |
| ChatApi.EmptyReplyParsesBraces | src/pages/api/prompt.ts:115 | Null or empty model content is parsed as "{}" |
| Extraction.ReplyText | src/pages/api/prompt.ts:115 | The content, or "{}" when it is null or empty |
| Extraction.FenceSpan | src/pages/api/prompt.ts:118 | The leftmost ```` ```json\n…\n``` ```` block with the shortest body, or none |
| Extraction.FencedMatch | src/pages/api/prompt.ts:118 | The fenced match is that block's text, markers included |
| Extraction.BraceSpan | src/pages/api/prompt.ts:119 | From the first `{` to the last `}` after it, or none |
| Extraction.BraceMatch | src/pages/api/prompt.ts:119 | The brace match is that span's text |
| Extraction.StripFences | src/pages/api/prompt.ts:125 | Removing the markers never makes the text longer |
| Extraction.CandidateChoice | src/pages/api/prompt.ts:118-128 | The fenced block wins over the brace span, which wins over the whole text; the chosen match is stripped of markers |
| Extraction.StripRemovesBackticks | src/pages/api/prompt.ts:125 | No ```` ``` ```` is left after stripping |
| Extraction.StripKeepsPlain | src/pages/api/prompt.ts:125 | Text that starts no ```` ``` ```` is kept as it is |
| Extraction.FenceSpanOfBlock | src/pages/api/prompt.ts:118 | A fenced block whose body has no ```` ``` ```` is matched as a whole |
| Extraction.StripOfBlock | src/pages/api/prompt.ts:125 | Stripping such a block leaves its body and one newline |
| Extraction.FenceRoundTrip | src/pages/api/prompt.ts:118-125 | ```` ```json\n ```` + J + ```` \n``` ```` with J free of ```` ``` ```` yields the candidate J + "\n" |
| Extraction.EmptyReply | src/pages/api/prompt.ts:115-125 | An empty reply becomes "{}", which is its own candidate |
| TranslateApi.WordType | src/pages/api/translate.ts:60 | "Empty input" for blank text, otherwise the name of the text's class |
| TranslateApi.UserPieces | src/pages/api/translate.ts:78-79 | The user message quotes the word, lists the languages and ends with the instructions |
| TranslateApi.TextMeaningsResult | src/pages/api/translate.ts:85-109 | Succeeds iff the reply parses, and then holds exactly `languages` set to the parsed value, with no check of what was parsed; otherwise the same error |
| TranslateApi.Answer | src/pages/api/translate.ts:127-154 | The request is sent; a response exists iff the model answered and its candidate parsed, and it is 200 with `{ languages: parsed }` |
| TranslateApi.UserMessageParts | src/pages/api/translate.ts:78-79 | The user message starts with its lead and contains the quoted word, the language list and the instructions |
| TranslateApi.RequestFields | src/pages/api/translate.ts:66-83 | Model "gemini-2.0-flash", temperature 0.2, the system message, then the user message |
| TranslateApi.UserMessageShape | src/pages/api/translate.ts:60-79 | The user message holds the schema instructions for the classified word type |
| TranslateApi.UserMessageWordBranch | src/pages/api/translate.ts:60-79 | The user message holds the Word heading for the classified type and the example lines |
| TranslateApi.HandleWithoutKey | src/pages/api/translate.ts:115-122 | Without an API key: 500 with the error message, and no model call |
| TranslateApi.HandleRequest | src/pages/api/translate.ts:124-127 | With a key: one request for the body's text or "", its languages or the defaults, and three examples |
| TranslateApi.EmptyBodyDefaults | src/pages/api/translate.ts:51-124 | An empty body asks about "" in "English and French" |
| TranslateApi.BlankTextMessage | src/pages/api/translate.ts:26-63 | A blank text is described to the model as "Empty input" |
| TranslateApi.HandleResponse | src/pages/api/translate.ts:126-154 | With a key, a response is sent iff the model answered and the candidate parsed; it is 200 with `{ result: { languages: parsed } }` |
| PromptApi.Assign | src/pages/api/prompt.ts:27 | Assigning a key sets it and leaves every other key as it was |
| PromptApi.AssignNew | src/pages/api/prompt.ts:27 | Assigning a new key appends the entry at the end |
| PromptApi.SpreadFresh | src/pages/api/prompt.ts:52 | Spreading entries with new, distinct keys appends them in order |
| PromptApi.ExampleProperties | src/pages/api/prompt.ts:25-28 | `example1 … exampleN`, each of type string, in order |
| PromptApi.CreateSchema | src/pages/api/prompt.ts:23-64 | The item properties are exactly type, value, example1..exampleN, all strings; the item requires those keys in that order, all of them properties; per language `["language","meaning"]` and at the top `["languages"]` are required; the whole value is the fixed object/array skeleton with a string `language` around those properties |
| PromptApi.AssignNextExample | src/pages/api/prompt.ts:26-27 | One more turn of the loop adds exactly the next example property |
| PromptApi.ItemProperties | src/pages/api/prompt.ts:49-53 | The item properties after the spread have keys type, value, example1..exampleN, all string-typed |
| PromptApi.TopLevel | src/pages/api/prompt.ts:36-63 | The top level has only `languages` as property and requires `["languages"]` |
| PromptApi.LanguagesLevel | src/pages/api/prompt.ts:39-41 | `languages` is an array of language items |
| PromptApi.LanguageLevel | src/pages/api/prompt.ts:41-59 | A language item has `language` and `meaning` and requires both, independent of N |
| PromptApi.MeaningLevel | src/pages/api/prompt.ts:45-55 | `meaning` is an array of items with the given properties and required list |
| PromptApi.SchemaPaths | src/pages/api/prompt.ts:36-63 | The language item and meaning item are found at their nested paths |
| PromptApi.UserPieces | src/pages/api/prompt.ts:107 | The user message names the example count, quotes the word, lists the languages and ends with the instructions |
| PromptApi.Answer | src/pages/api/prompt.ts:157-184 | A response exists iff the model answered and the candidate parsed; it is 200 with the parsed value unwrapped |
| PromptApi.SchemaInstructionsShape | src/pages/api/prompt.ts:77-96 | The instructions start with the fixed head, hold the N example lines and end with the fixed tail |
| PromptApi.UserMessageParts | src/pages/api/prompt.ts:107 | The user message starts with its lead and contains the count, the quoted word, the language list and the instructions |
| PromptApi.SystemMessageCount | src/pages/api/prompt.ts:103 | The system message states the example count |
| PromptApi.RequestShape | src/pages/api/prompt.ts:98-111 | Model "gemini-2.0-flash", temperature 0.2, the system then the user message, which holds the count, the word, the languages and the example lines |
| PromptApi.HandleWithoutKey | src/pages/api/prompt.ts:145-152 | Without an API key: 500 with the error message, and no model call |
| PromptApi.HandleRequest | src/pages/api/prompt.ts:154-157 | With a key: one request for the body's text or "", its languages or the defaults, and three examples |
| PromptApi.HandleResponse | src/pages/api/prompt.ts:156-184 | With a key, a response is sent iff the model answered and the candidate parsed; it is 200 with `{ result: parsed }` |
| PromptApi.WrappingIsTheDifference | src/pages/api/prompt.ts:131 | The two handlers' results agree except that `/api/translate` wraps the value as `{ languages: … }` |
| ExampleKeys.SuffixOfExampleKey | src/components/Translator/index.tsx:301 | The numeric suffix of `example{i}` is i |
| ExampleKeys.ExampleKeyListDistinct | src/pages/api/prompt.ts:31-34 | `example1 … exampleN` are distinct, and `example{N+1}` is not among them |
| ExampleKeys.FilterPrefixed | src/components/Translator/index.tsx:300 | Keeps exactly the keys starting with "example", a sub-multiset of the keys |
| ExampleKeys.FilterPrefixedNumbered | src/components/Translator/index.tsx:300-301 | For well-formed keys every kept key is "example" plus digits |
| ExampleKeys.Insert | src/components/Translator/index.tsx:301 | Inserting into a list sorted by suffix keeps it sorted and adds exactly that key |
| ExampleKeys.SortBySuffix | src/components/Translator/index.tsx:301 | The sort is sorted by numeric suffix and a permutation of its input |
| ExampleKeys.WithSuffix | src/components/Translator/index.tsx:301 | The keys picked for a number all carry that number and come from the list |
| ExampleKeys.InsertStable | src/components/Translator/index.tsx:301 | An inserted key goes in front of the keys that tie with it |
| ExampleKeys.SortStable | src/components/Translator/index.tsx:301 | The sort is stable: keys with the same number keep their input order |
| ExampleKeys.OrderedExampleKeysStable | src/components/Translator/index.tsx:299-301 | Tied example keys are listed in the order the object holds them |
| ExampleKeys.LeadingZeroTies | src/components/Translator/index.tsx:301 | "example1" and "example01" tie |
| ExampleKeys.OrderedExampleKeys | src/components/Translator/index.tsx:299-301 | The listed keys are exactly the keys starting with "example", each once, in ascending suffix order |
| ExampleKeys.SortedArrangementUnique | src/components/Translator/index.tsx:301 | Two suffix-sorted arrangements of the same keys with distinct suffixes are equal |
| ExampleKeys.ExampleKeyListNumbered | src/pages/api/prompt.ts:31-34 | `example1 … exampleN` are numbered and strictly ascending |
| ExampleKeys.ExamplesShownInOrder | src/components/Translator/index.tsx:299-301 | Keys whose example keys are `example1 … exampleN` in any order are listed as `example1 … exampleN` |
| ClientRequests.BodyFor | src/components/Translator/index.tsx:81-84 | The request body carries the text and the selected languages |
| ClientRequests.RequestsFor | src/components/Translator/index.tsx:113 | Empty text sends nothing; otherwise exactly one request |
| ClientRequests.ResultOf | src/components/Translator/TranslationInput.tsx:33-44 | An ok response with a truthy `result` gives that result; anything else gives `{ languages: [] }` |
| Palette.FirstNamed | src/components/Translator/index.tsx:191-193 | `find` gives the first option with that exact name, or none |
| Palette.ColorIn | src/components/Translator/index.tsx:190-195 | The listed colour of the first option with that name, the default when there is none, never empty |
| Palette.ColorOfListed | src/components/Translator/LanguageCard.tsx:35-38 | A listed name gets its own colour |
| MeaningView.ValuesAt | src/components/Translator/index.tsx:302-304 | One value per listed key, in order |
| MeaningView.ExampleListOf | src/components/Translator/index.tsx:299-304 | For well-formed keys, the values of the ordered example keys |
| MeaningView.ExamplesListedInOrder | src/components/Translator/index.tsx:299-304 | A meaning whose example keys are `example1 … exampleN` lists its N examples in numeric order |
| MeaningView.ValuesAtExampleKeys | src/components/Translator/index.tsx:302-304 | Listing `example1 … exampleN` gives their values in that order |
| MeaningView.ListedExamplesPresent | src/components/Translator/index.tsx:299-304 | Every listed example of an object is one of its own fields |
| MeaningView.BoxOf | src/components/Translator/index.tsx:288-308 | A meaning box shows its `type`, its `value` and its ordered examples; a null meaning throws |
| MeaningView.BodyOf | src/components/Translator/index.tsx:287-311 | "No data available yet." iff the value is not `null` and fails `length > 0`; `null`, a string or object passing the test (no `map`), or a null meaning in an array throws; otherwise one box per meaning, in order |
| MeaningView.ObjectMeanings | src/components/Translator/index.tsx:287-288 | An object meaning shows no data unless its own `length` passes `> 0`, and then the render throws at `map` |
| MeaningView.LengthTwoObjectThrows | src/components/Translator/index.tsx:287-288 | `{ "length": 2 }` passes the length test and throws |
| MeaningView.NoDataIffEmpty | src/components/Translator/LanguageCard.tsx:83-111 | An array of meanings shows "No data available yet." iff it is empty |
| LanguageCard.CardColors | src/components/Translator/LanguageCard.tsx:27-39 | The five languages get their listed colours; any other name gets `#5243AA` |
| LanguageCard.Meanings | src/components/Translator/LanguageCard.tsx:41 | The translation's `meaning`, or `[]` when it or the translation is missing |
| LanguageCard.Columns | src/components/Translator/LanguageCard.tsx:85 | Two columns iff `meanings.length > 1` holds, otherwise one |
| LanguageCard.ObjectLengthColumns | src/components/Translator/LanguageCard.tsx:85 | An object with a numeric `length` of two or more gets two columns |
| LanguageCard.CardFor | src/components/Translator/LanguageCard.tsx:26-116 | The card heading is the language, the colour is its colour, the idiom button always shows, the conjugation button shows iff allowed, and the body follows the meanings |
| LanguageCard.ConjugationOnlyForFrench | src/components/Translator/LanguageCard.tsx:67 | Only the exact name "French" can show the conjugation button |
| LanguageCard.NoMeaningsCard | src/components/Translator/LanguageCard.tsx:41-111 | Without meanings the card shows "No data available yet." in one column |
| LanguageCard.MeaningColumns | src/components/Translator/LanguageCard.tsx:83-85 | A non-empty meaning list is drawn, in two columns iff it has more than one meaning |
| ConjugationView.FormOrDash | src/components/Translator/ConjugationModal.tsx:141-146 | A truthy form is shown as it is, a missing or empty form as '-' |
| ConjugationView.ShownModes | src/components/Translator/ConjugationModal.tsx:201-205 | Exactly the moods whose data is present with at least one key, in the fixed order |
| ConjugationView.Labels | src/components/Translator/ConjugationModal.tsx:70-78 | The tab labels of the moods, in order |
| ConjugationView.Body | src/components/Translator/ConjugationModal.tsx:198-246 | "No conjugation data available." iff the data is falsy |
| ConjugationView.PanelsMatchTabs | src/components/Translator/ConjugationModal.tsx:201-242 | One panel per shown tab, in the same order, each drawing that mood's data |
| ConjugationView.TabsMatchPanels | src/components/Translator/ConjugationModal.tsx:201-242 | The modal's panels pair one to one with its tabs, each drawn by that mood's table |
| ConjugationView.ModesDistinct | src/components/Translator/ConjugationModal.tsx:70-78 | The seven tab labels are distinct |
| ConjugationView.LabelShownIff | src/components/Translator/ConjugationModal.tsx:201-205 | A mood's label is listed iff that mood is shown |
| ConjugationView.TabShownIff | src/components/Translator/ConjugationModal.tsx:201-205 | A mood's tab appears iff its data is present with at least one key |
| ConjugationView.GroupRows | src/components/Translator/ConjugationModal.tsx:126-130 | The loop builds the rows of four |
| ConjugationView.RowsShape | src/components/Translator/ConjugationModal.tsx:126-130 | ⌈n/4⌉ rows; row i has min(4, n−4i) entries, and entry j of row i is tense 4i+j |
| ConjugationView.RowSizes | src/components/Translator/ConjugationModal.tsx:126-130 | Every row has 1 to 4 entries, and all rows but the last have exactly 4 |
| ConjugationView.FlattenRows | src/components/Translator/ConjugationModal.tsx:126-130 | The rows concatenated are the tense list, in order |
| ConjugationView.GridCells | src/components/Translator/ConjugationModal.tsx:126-146 | Cell (i, j) is tense 4i+j and shows each person's label with its form or '-' |
| ConjugationView.FormRows | src/components/Translator/ConjugationModal.tsx:109-114 | One form/value row per entry, in order, with the '-' fallback |
| ConjugationView.CellFilled | src/components/Translator/ConjugationModal.tsx:141-146 | A tense giving a truthy form for every person shows no '-' |
| ConjugationView.GridFilled | src/components/Translator/ConjugationModal.tsx:134-146 | A mood giving a truthy form in every tense for every person shows no '-' anywhere |
| ConjugationView.TensesListMood | src/lib/schemaGenerator.tsx:10-107 | A mood of the template's shape fills every displayed person line |
| ConjugationView.TemplateFollowsTemplate | src/lib/schemaGenerator.tsx:9-126 | The conjugation template itself has the shape the modal expects |
| ConjugationView.TemplateTenseMood | src/lib/schemaGenerator.tsx:10-107 | Each of the first four moods of the template is an object that fills its persons |
| ConjugationView.TemplateOtherMoods | src/lib/schemaGenerator.tsx:108-125 | participe, gérondif and infinitif are objects in the template |
| ConjugationView.AllShown | src/components/Translator/ConjugationModal.tsx:201-205 | When every mood is present, every tab is shown, in order |
| ConjugationView.ShownAppend | src/components/Translator/ConjugationModal.tsx:201-205 | Deciding which tabs show is done mood by mood |
| ConjugationView.TemplateTabs | src/components/Translator/ConjugationModal.tsx:201-205 | A reply that follows the template shows all seven tabs |
| ConjugationView.TenseModePanels | src/components/Translator/ConjugationModal.tsx:208-227 | With all moods present, the first four panels are the indicative, subjonctif, conditionnel and impératif tables |
| ConjugationView.OtherModePanelCount | src/components/Translator/ConjugationModal.tsx:228-242 | With all moods present there are three more panels |
| ConjugationView.RenderTenseModes | src/components/Translator/ConjugationModal.tsx:208-227 | The first three moods use the six-person table and the impératif its own table |
| ConjugationView.TemplatePanels | src/components/Translator/ConjugationModal.tsx:207-243 | Seven panels, the first four drawn by the tense and imperative tables |
| ConjugationView.AllShownPanels | src/components/Translator/ConjugationModal.tsx:207-243 | When every mood is shown, panel k draws mood k |
| ConjugationView.PanelsAppend | src/components/Translator/ConjugationModal.tsx:207-243 | Panels are decided mood by mood |
| ConjugationModal.TenseTable | src/components/Translator/ConjugationModal.tsx:120-155 | Nothing iff the mood is falsy or has no keys; otherwise the rows of six-person boxes |
| ConjugationModal.ImperativeTable | src/components/Translator/ConjugationModal.tsx:157-189 | Nothing iff the mood is falsy or has no keys; otherwise rows of tu/nous/vous boxes |
| ConjugationModal.PresentRow | src/components/Translator/ConjugationModal.tsx:86-91 | A "Présent" row only when the présent form is truthy |
| ConjugationModal.PasseRows | src/components/Translator/ConjugationModal.tsx:92-97 | One row per passé entry with the '-' fallback, when passé is truthy |
| ConjugationModal.ParticipleTable | src/components/Translator/ConjugationModal.tsx:80-101 | Nothing iff falsy; otherwise the présent row then the passé rows |
| ConjugationModal.SimpleTable | src/components/Translator/ConjugationModal.tsx:103-118 | Nothing iff falsy; otherwise one form/value row per entry with '-' |
| ConjugationModal.ShownPanelsDrawn | src/components/Translator/ConjugationModal.tsx:208-242 | A panel is drawn only for a shown mood, and its table is never empty |
| ConjugationModal.TenseTableFilled | src/components/Translator/ConjugationModal.tsx:141-146 | A mood giving the placeholder for all six persons shows no '-' |
| ConjugationModal.ImperativeTableFilled | src/components/Translator/ConjugationModal.tsx:178-180 | An impératif giving the placeholder for tu, nous and vous shows no '-' |
| ConjugationModal.TensePanelsFilled | src/components/Translator/ConjugationModal.tsx:208-227 | Four template-shaped tense moods give four filled grids |
| ConjugationModal.TemplateModal | src/components/Translator/ConjugationModal.tsx:198-244 | A template-shaped reply shows all seven tabs and panels, and its four tense grids have no '-' |
| FrenchContent.TenseTable | src/components/FrenchContent.tsx:79-114 | Nothing iff the data is not a truthy object or has no keys; otherwise the six-person rows |
| FrenchContent.ImperativeTable | src/components/FrenchContent.tsx:116-148 | Nothing iff the data is not a truthy object or has no keys; otherwise tu/nous/vous rows |
| FrenchContent.PlainRows | src/components/FrenchContent.tsx:50-55 | One form/value row per entry with the '-' fallback |
| FrenchContent.EntryRows | src/components/FrenchContent.tsx:41-56 | `passé` is replaced by its sub-entries; a null `passé` throws; any other entry is one row |
| FrenchContent.FlatRowsThrows | src/components/FrenchContent.tsx:41-56 | The participle throws iff some `passé` entry is null |
| FrenchContent.ParticipleTable | src/components/FrenchContent.tsx:35-60 | Nothing iff not a truthy object; throws iff a `passé` is null; otherwise the flattened rows |
| FrenchContent.SimpleTable | src/components/FrenchContent.tsx:62-77 | Nothing iff not a truthy object; otherwise one row per entry with '-' |
| FrenchContent.FlatRowsAppend | src/components/FrenchContent.tsx:41-56 | Flattening is done entry by entry |
| FrenchContent.FlatRowsWithoutPasse | src/components/FrenchContent.tsx:41-56 | Without a `passé` entry every entry is one form/value row |
| FrenchContent.ParticipleWithoutPasse | src/components/FrenchContent.tsx:35-77 | Without `passé` the participle table is the simple table |
| FrenchContent.TemplateParticiple | src/components/FrenchContent.tsx:41-56 | For a template participle both modals show the présent row and then the passé rows; they differ only in the label "présent" versus "Présent" |
| FrenchContent.SameAsModalOnObjects | src/components/FrenchContent.tsx:62-148 | On object data the tense, imperative and simple tables equal the modal's |
| FrenchContent.StringMoodDiffers | src/components/FrenchContent.tsx:63-80 | A string mood draws nothing here but is drawn by the modal |
| FrenchContent.NullPasseThrows | src/components/FrenchContent.tsx:42-43 | A null `passé` makes the participle table throw |
| FrenchContent.SameTabsAsModal | src/components/FrenchContent.tsx:157-165 | The tabs are those of the modal: the moods present with at least one key |
| FrenchContent.TemplateContent | src/components/FrenchContent.tsx:157-206 | A template-shaped reply shows all seven tabs and panels, with four filled tense grids |
| FrenchContent.TemplateTensePanelsAsModal | src/components/FrenchContent.tsx:166-186 | For a template-shaped reply the four tense panels equal the modal's |
| FrenchContent.SamePanelsOnObjects | src/components/FrenchContent.tsx:166-186 | Object moods give the same four tense panels in both modals |
| IdiomModal.IdiomBoxOf | src/components/Translator/IdiomModal.tsx:34-49 | The heading is the idiom and the text its `meaning`; examples are listed in numeric order only when `examples` is truthy |
| IdiomModal.Body | src/components/Translator/IdiomModal.tsx:32-54 | "No idioms available." iff the idioms are falsy or key-less; a null entry throws; otherwise one box per entry, in order |
| IdiomModal.BoxesFollowEntries | src/components/Translator/IdiomModal.tsx:34-37 | Box i is headed by key i and shows that entry's `meaning` |
| IdiomModal.IdiomExamplesInOrder | src/components/Translator/IdiomModal.tsx:38-47 | Examples `example1 … exampleN` in any order are listed in numeric order |
| Translator.PageColors | src/components/Translator/index.tsx:190-195 | Only English gets `#00B8D9`; every other name gets `#5243AA` |
| Translator.LanguageMatches | src/components/Translator/index.tsx:161 | Matches iff the entry's `language` is a string equal to the name ignoring ASCII case; a null entry or a non-string `language` throws |
| Translator.FindMatch | src/components/Translator/index.tsx:160-162 | The first matching entry, none when nothing matches, or the error of the first entry that throws before a match |
| Translator.FindLanguageData | src/components/Translator/index.tsx:155-165 | `[]` without a `languages` array; otherwise the first match's `meaning` or `[]` |
| Translator.MatchIgnoresCase | src/components/Translator/index.tsx:161 | Names equal up to ASCII case match the same entries |
| Translator.FindMatchIgnoresCase | src/components/Translator/index.tsx:160-162 | Names equal up to ASCII case find the same entry |
| Translator.FindIgnoresCase | src/components/Translator/index.tsx:155-165 | Names equal up to ASCII case get the same data |
| Translator.FindMatchTotal | src/components/Translator/index.tsx:160-162 | When every entry is an object with a string `language`, the search never throws |
| Translator.ToastFor | src/components/Translator/index.tsx:89-97 | One toast, with `error.message` or "An error occurred", exactly for a non-ok response whose body was read |
| Translator.MeaningAfter | src/components/Translator/index.tsx:112-126 | The fetched result when it is a truthy object or array, otherwise `{ languages: [] }` |
| Translator.OutcomeStored | src/components/Translator/index.tsx:89-126 | Non-ok, thrown and missing bodies store `{ languages: [] }`; an object result is stored; a string result is replaced by `{ languages: [] }` |
| Translator.TranslateDisabled | src/components/Translator/index.tsx:144 | The Translate button is disabled iff the text is empty |
| Translator.CardOf | src/components/Translator/index.tsx:277-316 | A card shows the language, its page colour, and the meanings found for it |
| Translator.Cards | src/components/Translator/index.tsx:277 | One card per selected language, in order |
| Translator.FallbackCards | src/components/Translator/index.tsx:287-311 | With the fallback result every card shows "No data available yet." |
| Translator.Translator.constructor | src/components/Translator/index.tsx:52-60 | Empty text, no selection, no pending timer, not loading, the `{ languages: [] }` result |
| Translator.Translator.Send | src/components/Translator/index.tsx:71-116 | Sends one request for non-empty text and turns loading on; nothing else changes |
| Translator.Translator.KeyDown | src/components/Translator/index.tsx:167-173 | Enter or space sets the flag, takes the value and sends at once; other keys change nothing |
| Translator.Translator.Change | src/components/Translator/index.tsx:175-188 | After a flagged key-down it only clears the flag and stores the text; otherwise it replaces any pending timer with exactly one new one |
| Translator.Translator.TimerFires | src/components/Translator/index.tsx:185-187 | Only the pending timer fires, and it sends for the current text |
| Translator.Translator.Respond | src/components/Translator/index.tsx:87-126 | A response ends loading, stores the outcome's result and adds its toast |
| Translator.Translator.SelectLanguages | src/components/Translator/index.tsx:249-255 | A list of values is stored as it is; a single value becomes a one-element list |
| Translator.Translator.Unmount | src/components/Translator/index.tsx:62-69 | Unmounting clears the pending timer |
| Translator.Translator.View | src/components/Translator/index.tsx:277-316 | One card per selected language, headed by it in its colour |
| TranslationInput.CountsAppend | src/components/Translator/TranslationInput.tsx:16-48 | Requests and completions are counted event by event |
| TranslationInput.SendEvents | src/components/Translator/TranslationInput.tsx:17-31 | Empty text gives no events; otherwise loading on, then the request |
| TranslationInput.ResponseEvents | src/components/Translator/TranslationInput.tsx:33-47 | The completion with the outcome's result, then loading off, always; failures complete with `{ languages: [] }` |
| TranslationInput.PassesAnyTruthyResult | src/components/Translator/TranslationInput.tsx:40-41 | A truthy string result is passed on unchecked |
| TranslationInput.TranslationInput.constructor | src/components/Translator/TranslationInput.tsx:14 | Empty text, no flag, no timer, no events |
| TranslationInput.TranslationInput.Rerender | src/components/Translator/TranslationInput.tsx:29 | A new selection is used by later requests |
| TranslationInput.TranslationInput.Send | src/components/Translator/TranslationInput.tsx:16-31 | Appends the send events for the text and counts the request |
| TranslationInput.TranslationInput.KeyDown | src/components/Translator/TranslationInput.tsx:50-56 | Enter or space sets the flag, takes the value and sends at once; other keys change nothing |
| TranslationInput.TranslationInput.Change | src/components/Translator/TranslationInput.tsx:58-73 | After a flagged key-down it only clears the flag; otherwise it replaces the pending timer with exactly one new one |
| TranslationInput.TranslationInput.TimerFires | src/components/Translator/TranslationInput.tsx:68-72 | Only the pending timer fires, and it sends only non-empty text |
| TranslationInput.TranslationInput.Respond | src/components/Translator/TranslationInput.tsx:33-47 | Appends the completion and loading-off events |

## Left out

- The LLM client and its network call, `fetch`, and `JSON.parse` are parameters, not code. So is the OpenAI client construction with its API key (src/pages/api/translate.ts:5-8, src/pages/api/prompt.ts:4-7).
- Console logging is left out. This includes the logging that walks the result after the 200 response (src/pages/api/translate.ts:134-151, src/pages/api/prompt.ts:164-181). It has no visible effect, except that it throws after the response has been sent.
- A `languages` field that is present but `null`, or that is not an array of strings, is not modelled. `BodyLanguages` reads the body's languages as either absent or a list of strings.
- The 2000 ms delay, React's asynchronous `setState`, and the stale closure are not modelled:
  - `processTextForLanguages` in the code reads the `textToTranslate` of the previous render;
  - `Translator.Translator.KeyDown`, `Translator.Translator.TimerFires` and their `TranslationInput` counterparts send the current text instead.
- The loading spinner, blur, modal open/close state, layout, styling and the chroma-js alpha colour are rendering. Only the selection rules are modelled.
- `toLowerCase` is modelled for ASCII only. Unicode case folding is not modelled.
- ExampleListOf: any "example" key whose suffix is not all digits makes the list `EngineOrder`, and its order is not predicted. That covers the suffixes `parseInt` reads as NaN (a bare "example", "exampleA"), which the engine's sort orders as it likes. It also covers suffixes that start with a number ("example1a", "example-1", "example 2"): `parseInt` reads their leading integer and the code sorts them in a fixed order, which the model does not compute.
- Entries: a string gives one entry per Unicode character. JavaScript gives one per UTF-16 code unit, so an emoji is one entry here and two lone surrogates there. A Dafny `char` cannot hold a lone surrogate. This reaches the character-by-character drawing of a string mood in `ConjugationModal`.
- A `JObj` may hold a key twice, which no `JSON.parse` result does, since `parse` keeps the last one. On such a value `Lookup` takes the first entry and `Keys` lists the key twice. The model assumes `parse` never yields one.
- LongerThan: a `length` that is a string, or that an array turns into a string, is read as a number only when it is blank or decimal digits with an optional sign. Decimal points, exponents, `0x`/`0o`/`0b` prefixes and "Infinity" are read as NaN here, where `Number` accepts them.
- ToNumber: converting an object whose own `valueOf` or `toString` entry shadows the built-in method throws in JavaScript. Here it is NaN.
- Numbers: a JSON number is a float, but `JNum` holds an integer. The code tests numbers for truthiness and displays them. It compares a number only as an object's own `length`, so a fractional `length` such as 0.5 is the one case that is not modelled.
- Objects keep insertion order. JavaScript's reordering of integer-like keys is not modelled.
- Destructuring `null` in `FrenchContent` and a null idiom or meaning entry are modelled as a throw (`RenderThrows`, `IdiomThrows`). The rest of a throwing render is not modelled.
- The `TextClass` enum's string values are not defined in the classifier's file. `TranslateApi.WordType` takes them as a parameter.
- src/pages/index.tsx only mounts the page component and is not part of this model.
- PromptApi.WordMeaningsResult: its contract only restates `ChatApi.ParseReply`. It has no row, because `PromptApi.Answer` and `PromptApi.HandleResponse` state its meaning.
- Translator.Translator.View: states only the headings and colours of the cards. `Translator.Cards` and `Translator.CardOf` state their bodies.
