/**
 * `Translator`: the page component. It keeps the text, the selected
 * languages and the last meaning result, sends a request on Enter or space
 * at once and otherwise after a pause (one debounce timer at a time), and
 * draws one card per selected language from the result.
 */
module Translator {
  import opened Wrappers
  import opened Text
  import opened JsValues
  import opened ChatApi
  import opened Palette
  import opened MeaningView
  import opened ClientRequests

  /** `languageOptions` of the page. */
  const PageOptions: seq<LanguageOption> := [
    LanguageOption("English", Some("EN"), "#00B8D9"),
    LanguageOption("French", Some("FR"), "#5243AA"),
    LanguageOption("Vietnamese", Some("VI"), "#5243AA"),
    LanguageOption("Chinese", Some("CN"), "#5243AA"),
    LanguageOption("Italian", Some("IT"), "#5243AA")]

  const EnglishColor: string := "#00B8D9"

  /** `getColorByName` of the page. */
  function PageColor(lang: string): string
  {
    ColorIn(PageOptions, lang)
  }

  /** Only English has a colour of its own: every other name, listed or not, gets the default. */
  lemma PageColors(lang: string)
    ensures PageColor(lang) == EnglishColor <==> lang == "English"
    ensures lang != "English" ==> PageColor(lang) == DefaultColor
  {
    if lang == "English" {
      ColorOfListed(PageOptions, 0);
    }
  }

  /** What evaluating an expression gives: a value, or a thrown `TypeError`. */
  datatype Eval<T> = Returns(value: T) | Throws

  /**
   * `lang.language?.toLowerCase() === langValue.toLowerCase()`: `null.language`
   * throws, a missing or `null` language does not match, and a language that
   * is not a string has no `toLowerCase` to call.
   */
  function LanguageMatches(lang: Json, langValue: string): (r: Eval<bool>)
    ensures r.Throws? <==>
      lang.JNull? || (Get(lang, "language").Some? && !Get(lang, "language").value.JNull? && !Get(lang, "language").value.JStr?)
    ensures r == Returns(true) <==>
      !lang.JNull? && Get(lang, "language").Some? && Get(lang, "language").value.JStr? &&
      ToLower(Get(lang, "language").value.s) == ToLower(langValue)
  {
    if lang.JNull? then Throws
    else
      match Get(lang, "language")
      case None => Returns(false)
      case Some(JNull) => Returns(false)
      case Some(JStr(s)) => Returns(ToLower(s) == ToLower(langValue))
      case Some(_) => Throws
  }

  /** `languages.find(lang => ..)`, as the index of the element found. */
  function FindMatch(items: seq<Json>, langValue: string): (r: Eval<Option<nat>>)
    ensures r.Returns? && r.value.Some? ==>
      r.value.value < |items| && LanguageMatches(items[r.value.value], langValue) == Returns(true)
    ensures r.Returns? && r.value.Some? ==>
      forall j :: 0 <= j < r.value.value ==> LanguageMatches(items[j], langValue) == Returns(false)
    ensures r.Returns? && r.value.None? ==> forall j :: 0 <= j < |items| ==> LanguageMatches(items[j], langValue) == Returns(false)
    ensures r.Throws? ==>
      exists i :: 0 <= i < |items| && LanguageMatches(items[i], langValue).Throws? &&
        forall j :: 0 <= j < i ==> LanguageMatches(items[j], langValue) == Returns(false)
  {
    if items == [] then Returns(None)
    else
      match LanguageMatches(items[0], langValue)
      case Throws => Throws
      case Returns(true) => Returns(Some(0))
      case Returns(false) =>
        var r := FindMatch(items[1..], langValue);
        assert forall j :: 1 <= j < |items| ==> items[j] == items[1..][j - 1];
        match r
        case Throws =>
          var i :| 0 <= i < |items[1..]| && LanguageMatches(items[1..][i], langValue).Throws? &&
            forall j :: 0 <= j < i ==> LanguageMatches(items[1..][j], langValue) == Returns(false);
          assert LanguageMatches(items[i + 1], langValue).Throws?;
          Throws
        case Returns(None) => Returns(None)
        case Returns(Some(k)) => Returns(Some(k + 1))
  }

  /** `language?.meaning || []` for the element found, if any. */
  function MeaningOf(items: seq<Json>, found: Option<nat>): Json
    requires found.Some? ==> found.value < |items|
  {
    if found.Some? then OrElse(Get(items[found.value], "meaning"), JArr([])) else JArr([])
  }

  /** `meaningResult?.languages` is an array. */
  predicate HasLanguageList(meaningResult: Json)
  {
    Truthy(Some(meaningResult)) && Truthy(Get(meaningResult, "languages")) && Get(meaningResult, "languages").value.JArr?
  }

  /**
   * `findLanguageData(langValue)`: `[]` without a language array, else the
   * meanings of the first element whose language equals `langValue` up to
   * ASCII case, or `[]`.
   */
  function FindLanguageData(meaningResult: Json, langValue: string): (r: Eval<Json>)
    ensures !HasLanguageList(meaningResult) ==> r == Returns(JArr([]))
    ensures HasLanguageList(meaningResult) ==>
      var items := Get(meaningResult, "languages").value.items;
      match FindMatch(items, langValue)
      case Throws => r.Throws?
      case Returns(found) => r == Returns(MeaningOf(items, found))
  {
    if !HasLanguageList(meaningResult) then Returns(JArr([]))
    else
      var items := Get(meaningResult, "languages").value.items;
      match FindMatch(items, langValue)
      case Throws => Throws
      case Returns(found) => Returns(MeaningOf(items, found))
  }

  /** Names that agree up to ASCII case are compared the same way with every element. */
  lemma MatchIgnoresCase(lang: Json, a: string, b: string)
    requires ToLower(a) == ToLower(b)
    ensures LanguageMatches(lang, a) == LanguageMatches(lang, b)
  {
  }

  /** The search does not depend on the case of the name searched for. */
  lemma {:induction false} FindMatchIgnoresCase(items: seq<Json>, a: string, b: string)
    requires ToLower(a) == ToLower(b)
    ensures FindMatch(items, a) == FindMatch(items, b)
  {
    if items != [] {
      MatchIgnoresCase(items[0], a, b);
      FindMatchIgnoresCase(items[1..], a, b);
    }
  }

  /** "french", "French" and "FRENCH" find the same meanings. */
  lemma FindIgnoresCase(meaningResult: Json, a: string, b: string)
    requires ToLower(a) == ToLower(b)
    ensures FindLanguageData(meaningResult, a) == FindLanguageData(meaningResult, b)
  {
    if HasLanguageList(meaningResult) {
      FindMatchIgnoresCase(Get(meaningResult, "languages").value.items, a, b);
    }
  }

  /** Elements that are objects with a string `language` never make the search throw. */
  lemma {:induction false} FindMatchTotal(items: seq<Json>, langValue: string)
    requires forall i :: 0 <= i < |items| ==>
      items[i].JObj? && Get(items[i], "language").Some? && Get(items[i], "language").value.JStr?
    ensures FindMatch(items, langValue).Returns?
  {
    if items != [] {
      assert forall j :: 0 <= j < |items[1..]| ==> items[1..][j] == items[j + 1];
      FindMatchTotal(items[1..], langValue);
    }
  }

  /** `{ error: { message: .. } }` read back by the toast: the message, or the default text. */
  function ToastFor(outcome: FetchOutcome): (r: seq<Json>)
    ensures !outcome.NotOk? || outcome.errorBody.None? ==> r == []
    ensures outcome.NotOk? && outcome.errorBody.Some? ==>
      |r| == 1 && r[0] == OrElse(Field(Get(outcome.errorBody.value, "error"), "message"), JStr("An error occurred"))
  {
    if outcome.NotOk? && outcome.errorBody.Some? then
      [OrElse(Field(Get(outcome.errorBody.value, "error"), "message"), JStr("An error occurred"))]
    else []
  }

  /**
   * The meaning result after a request ends: `queryPrompt`'s value when it
   * is a truthy object, else `{ languages: [] }` (a failed response returns
   * '', every throw is caught into the fallback).
   */
  function MeaningAfter(outcome: FetchOutcome): (r: Json)
    ensures r.JObj? || r.JArr?
    ensures IsObjectType(ResultOf(outcome)) && Truthy(Some(ResultOf(outcome))) ==> r == ResultOf(outcome)
    ensures !(IsObjectType(ResultOf(outcome)) && Truthy(Some(ResultOf(outcome)))) ==> r == EmptyLanguages
  {
    var res := ResultOf(outcome);
    if Truthy(Some(res)) && IsObjectType(res) then res else EmptyLanguages
  }

  /** `data.result`, or `null` when there is none. */
  function OkResult(data: Json): Json
  {
    if Get(data, "result").Some? then Get(data, "result").value else JNull
  }

  /** An ok response whose result is an object is stored as it is; any failure stores the fallback. */
  lemma OutcomeStored(outcome: FetchOutcome)
    ensures outcome.NotOk? || outcome.FetchFailed? || (outcome.Ok? && outcome.data.None?) ==>
      MeaningAfter(outcome) == EmptyLanguages
    ensures outcome.Ok? && outcome.data.Some? && OkResult(outcome.data.value).JObj? ==>
      MeaningAfter(outcome) == OkResult(outcome.data.value)
    ensures outcome.Ok? && outcome.data.Some? && OkResult(outcome.data.value).JStr? ==>
      MeaningAfter(outcome) == EmptyLanguages
  {
  }

  /** `isDisabled={!textToTranslate || isDisabled}`, with `isDisabled = !textToTranslate`. */
  function TranslateDisabled(text: string): (r: bool)
    ensures r <==> text == ""
  {
    var isDisabled := text == "";
    text == "" || isDisabled
  }

  /** One card of the page: the language, its colour and the meanings of the result. */
  datatype PageCard = PageCard(heading: string, color: string, body: MeaningsBody)

  /** The card of `lang`, which throws when the search does. */
  function CardOf(meaningResult: Json, lang: string): (c: PageCard)
    ensures c.heading == lang && c.color == PageColor(lang)
    ensures FindLanguageData(meaningResult, lang).Throws? ==> c.body == RenderThrows
    ensures FindLanguageData(meaningResult, lang).Returns? ==> c.body == BodyOf(FindLanguageData(meaningResult, lang).value)
  {
    var body := match FindLanguageData(meaningResult, lang)
      case Throws => RenderThrows
      case Returns(meanings) => BodyOf(meanings);
    PageCard(lang, PageColor(lang), body)
  }

  /** `selectedLanguages.map(lang => <Card>)`: one card per selected language, in selection order. */
  function Cards(meaningResult: Json, selected: seq<string>): (r: seq<PageCard>)
    ensures |r| == |selected|
    ensures forall i :: 0 <= i < |r| ==> r[i] == CardOf(meaningResult, selected[i])
  {
    seq(|selected|, i requires 0 <= i < |selected| => CardOf(meaningResult, selected[i]))
  }

  /** With the fallback result, every card shows "No data available yet.". */
  lemma FallbackCards(selected: seq<string>)
    ensures forall i :: 0 <= i < |selected| ==> Cards(EmptyLanguages, selected)[i].body == NoData
  {
    forall i | 0 <= i < |selected| ensures Cards(EmptyLanguages, selected)[i].body == NoData {
      assert Get(EmptyLanguages, "languages") == Some(JArr([]));
    }
  }

  /** What `MenuOptionGroup` hands to `onChange`: several values, or one. */
  datatype MenuValue = Values(values: seq<string>) | Single(value: string)

  /** A key that sends the text at once. */
  predicate IsSendKey(key: string)
  {
    key == "Enter" || key == " "
  }

  /**
   * The page's state: the text, the `specialKeyPressed` flag, the live
   * debounce timer (`None` when no timer is waiting), the requests sent and
   * still unanswered, the loading flag, the meaning result, the error toasts
   * shown and the selected languages.
   */
  class Translator {
    var text: string
    var specialKeyPressed: bool
    var pending: Option<nat>
    var nextTimer: nat
    var sent: seq<RequestBody>
    var inFlight: nat
    var loading: bool
    var meaningResult: Json
    var toasts: seq<Json>
    var selected: seq<string>

    /** The live timer is one already scheduled, and the meaning result is always an object. */
    ghost predicate Valid()
      reads this
    {
      (pending.Some? ==> pending.value < nextTimer) && (meaningResult.JObj? || meaningResult.JArr?)
    }

    /** The first render: empty text, no language, `{ languages: [] }`. */
    constructor()
      ensures Valid()
      ensures text == "" && !specialKeyPressed && pending.None? && nextTimer == 0
      ensures sent == [] && inFlight == 0 && !loading && meaningResult == EmptyLanguages
      ensures toasts == [] && selected == []
    {
      text := "";
      specialKeyPressed := false;
      pending := None;
      nextTimer := 0;
      sent := [];
      inFlight := 0;
      loading := false;
      meaningResult := EmptyLanguages;
      toasts := [];
      selected := [];
    }

    /** `processTextForLanguages` up to the `fetch`: nothing for the empty text. */
    method Send()
      modifies this
      ensures sent == old(sent) + RequestsFor(text, selected)
      ensures inFlight == old(inFlight) + |RequestsFor(text, selected)|
      ensures loading == (old(loading) || text != "")
      ensures text == old(text) && specialKeyPressed == old(specialKeyPressed) && pending == old(pending)
      ensures nextTimer == old(nextTimer) && meaningResult == old(meaningResult)
      ensures toasts == old(toasts) && selected == old(selected)
    {
      if text != "" {
        loading := true;
        inFlight := inFlight + 1;
        sent := sent + [BodyFor(text, selected)];
      }
    }

    /**
     * `handleKeyDown`: Enter or space raises the flag, takes the text and
     * sends it at once; the waiting timer, if any, is left to fire as well.
     */
    method KeyDown(key: string, value: string)
      requires Valid()
      modifies this
      ensures Valid()
      ensures IsSendKey(key) ==>
        specialKeyPressed && text == value &&
        sent == old(sent) + RequestsFor(value, selected) &&
        inFlight == old(inFlight) + |RequestsFor(value, selected)| &&
        loading == (old(loading) || value != "")
      ensures !IsSendKey(key) ==>
        specialKeyPressed == old(specialKeyPressed) && text == old(text) &&
        sent == old(sent) && inFlight == old(inFlight) && loading == old(loading)
      ensures pending == old(pending) && nextTimer == old(nextTimer)
      ensures meaningResult == old(meaningResult) && toasts == old(toasts) && selected == old(selected)
    {
      if IsSendKey(key) {
        specialKeyPressed := true;
        text := value;
        Send();
      }
    }

    /**
     * `handleChange`: right after a send key only the flag is lowered;
     * otherwise the waiting timer is cancelled and exactly one new one,
     * with a fresh id, is scheduled.
     */
    method Change(value: string)
      requires Valid()
      modifies this
      ensures Valid()
      ensures text == value && !specialKeyPressed
      ensures old(specialKeyPressed) ==> pending == old(pending) && nextTimer == old(nextTimer)
      ensures !old(specialKeyPressed) ==> pending == Some(old(nextTimer)) && nextTimer == old(nextTimer) + 1
      ensures old(pending).Some? && !old(specialKeyPressed) ==> pending != old(pending)
      ensures sent == old(sent) && inFlight == old(inFlight) && loading == old(loading)
      ensures meaningResult == old(meaningResult) && toasts == old(toasts) && selected == old(selected)
    {
      if specialKeyPressed {
        specialKeyPressed := false;
        text := value;
      } else {
        text := value;
        pending := Some(nextTimer);
        nextTimer := nextTimer + 1;
      }
    }

    /** The timer `id` is due: only the live timer fires, and it sends the text. */
    method TimerFires(id: nat)
      requires Valid()
      modifies this
      ensures Valid()
      ensures pending == (if old(pending) == Some(id) then None else old(pending))
      ensures old(pending) == Some(id) ==>
        sent == old(sent) + RequestsFor(text, selected) &&
        inFlight == old(inFlight) + |RequestsFor(text, selected)| &&
        loading == (old(loading) || text != "")
      ensures old(pending) != Some(id) ==> sent == old(sent) && inFlight == old(inFlight) && loading == old(loading)
      ensures text == old(text) && specialKeyPressed == old(specialKeyPressed) && nextTimer == old(nextTimer)
      ensures meaningResult == old(meaningResult) && toasts == old(toasts) && selected == old(selected)
    {
      if pending == Some(id) {
        pending := None;
        Send();
      }
    }

    /**
     * A request ends: loading is switched off (even while another request is
     * out), a failed response shows its toast, and the result is stored.
     */
    method Respond(outcome: FetchOutcome)
      requires Valid() && inFlight > 0
      modifies this
      ensures Valid()
      ensures inFlight == old(inFlight) - 1 && !loading
      ensures meaningResult == MeaningAfter(outcome) && toasts == old(toasts) + ToastFor(outcome)
      ensures text == old(text) && specialKeyPressed == old(specialKeyPressed)
      ensures pending == old(pending) && nextTimer == old(nextTimer)
      ensures sent == old(sent) && selected == old(selected)
    {
      inFlight := inFlight - 1;
      loading := false;
      toasts := toasts + ToastFor(outcome);
      meaningResult := MeaningAfter(outcome);
    }

    /** The language menu's `onChange`: an array is taken as it is, a single value is wrapped. */
    method SelectLanguages(choice: MenuValue)
      requires Valid()
      modifies this
      ensures Valid()
      ensures choice.Values? ==> selected == choice.values
      ensures choice.Single? ==> selected == [choice.value]
      ensures text == old(text) && specialKeyPressed == old(specialKeyPressed)
      ensures pending == old(pending) && nextTimer == old(nextTimer)
      ensures sent == old(sent) && inFlight == old(inFlight) && loading == old(loading)
      ensures meaningResult == old(meaningResult) && toasts == old(toasts)
    {
      match choice
      case Values(values) => selected := values;
      case Single(value) => selected := [value];
    }

    /** The effect's cleanup: the waiting timer is cleared. */
    method Unmount()
      requires Valid()
      modifies this
      ensures Valid()
      ensures pending.None?
      ensures text == old(text) && specialKeyPressed == old(specialKeyPressed) && nextTimer == old(nextTimer)
      ensures sent == old(sent) && inFlight == old(inFlight) && loading == old(loading)
      ensures meaningResult == old(meaningResult) && toasts == old(toasts) && selected == old(selected)
    {
      pending := None;
    }

    /** The cards the page draws now. */
    function View(): (r: seq<PageCard>)
      reads this
      ensures |r| == |selected|
      ensures forall i :: 0 <= i < |r| ==> r[i].heading == selected[i] && r[i].color == PageColor(selected[i])
    {
      Cards(meaningResult, selected)
    }
  }
}
