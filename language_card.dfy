/**
 * `LanguageCard`: the card of one selected language, with its colour, the
 * idiom and conjugation buttons, and the meanings in one or two columns.
 */
module LanguageCard {
  import opened Wrappers
  import opened JsValues
  import opened Palette
  import opened MeaningView

  /** The card's own colour list. */
  const CardOptions: seq<LanguageOption> := [
    LanguageOption("English", None, "#00B8D9"),
    LanguageOption("French", None, "#5243AA"),
    LanguageOption("Vietnamese", None, "#66BB6A"),
    LanguageOption("Chinese", None, "#EF5350"),
    LanguageOption("Italian", None, "#FFCA28")]

  /** The language the conjugation button is offered for, compared exactly. */
  const ConjugationLanguage: string := "French"

  /** What the card draws. */
  datatype Card = Card(heading: string, color: string, idiomButton: bool, conjugationButton: bool,
                       columns: nat, body: MeaningsBody)

  /** `getColorByName` of the card. */
  function CardColor(lang: string): string
  {
    ColorIn(CardOptions, lang)
  }

  /** The five listed languages get their colours, any other name the default. */
  lemma CardColors(lang: string)
    ensures lang == "English" ==> CardColor(lang) == "#00B8D9"
    ensures lang == "French" ==> CardColor(lang) == "#5243AA"
    ensures lang == "Vietnamese" ==> CardColor(lang) == "#66BB6A"
    ensures lang == "Chinese" ==> CardColor(lang) == "#EF5350"
    ensures lang == "Italian" ==> CardColor(lang) == "#FFCA28"
    ensures (forall i :: 0 <= i < |CardOptions| ==> CardOptions[i].name != lang) ==> CardColor(lang) == DefaultColor
  {
    if lang == "English" {
      ColorOfListed(CardOptions, 0);
    } else if lang == "French" {
      ColorOfListed(CardOptions, 1);
    } else if lang == "Vietnamese" {
      ColorOfListed(CardOptions, 2);
    } else if lang == "Chinese" {
      ColorOfListed(CardOptions, 3);
    } else if lang == "Italian" {
      ColorOfListed(CardOptions, 4);
    }
  }

  /** `languageTranslation?.meaning || []` */
  function Meanings(languageTranslation: Option<Json>): (r: Json)
    ensures Truthy(Field(languageTranslation, "meaning")) ==> Some(r) == Field(languageTranslation, "meaning")
    ensures !Truthy(Field(languageTranslation, "meaning")) ==> r == JArr([])
  {
    OrElse(Field(languageTranslation, "meaning"), JArr([]))
  }

  /** `lang === 'French' && languageTranslation?.conjugation && Object.keys(..).length > 0` */
  predicate ShowsConjugation(lang: string, languageTranslation: Option<Json>)
  {
    lang == ConjugationLanguage && Truthy(Field(languageTranslation, "conjugation")) &&
    |Keys(Field(languageTranslation, "conjugation").value)| > 0
  }

  /** `meanings.length > 1 ? 2 : 1` */
  function Columns(meanings: Json): (r: nat)
    ensures r == 2 <==> LongerThan(meanings, 1)
    ensures r == 1 || r == 2
  {
    if LongerThan(meanings, 1) then 2 else 1
  }

  /** The card for `lang` and its part of the translation. */
  function CardFor(lang: string, languageTranslation: Option<Json>): (c: Card)
    ensures c.heading == lang && c.color == CardColor(lang) && c.idiomButton
    ensures c.conjugationButton <==> ShowsConjugation(lang, languageTranslation)
    ensures c.columns == Columns(Meanings(languageTranslation))
    ensures c.body == BodyOf(Meanings(languageTranslation))
  {
    var meanings := Meanings(languageTranslation);
    Card(lang, CardColor(lang), true, ShowsConjugation(lang, languageTranslation), Columns(meanings), BodyOf(meanings))
  }

  /** The conjugation button is for "French" alone: another spelling of the name never shows it. */
  lemma ConjugationOnlyForFrench(lang: string, languageTranslation: Option<Json>)
    requires lang != "French"
    ensures !CardFor(lang, languageTranslation).conjugationButton
  {
  }

  /** A card whose translation has no meanings shows "No data available yet." in one column. */
  lemma NoMeaningsCard(lang: string, languageTranslation: Option<Json>)
    requires !Truthy(Field(languageTranslation, "meaning"))
    ensures CardFor(lang, languageTranslation).body == NoData
    ensures CardFor(lang, languageTranslation).columns == 1
  {
  }

  /** With a list of meanings, the grid has two columns exactly when there are two or more. */
  lemma MeaningColumns(lang: string, languageTranslation: Option<Json>, meanings: seq<Json>)
    requires Field(languageTranslation, "meaning") == Some(JArr(meanings)) && meanings != []
    ensures CardFor(lang, languageTranslation).columns == (if |meanings| > 1 then 2 else 1)
    ensures CardFor(lang, languageTranslation).body != NoData
  {
  }

  /** An object meaning is laid out by its own `length`: `{ "length": 2 }` asks for two columns. */
  lemma ObjectLengthColumns(fields: seq<(string, Json)>, n: int)
    requires Lookup(fields, "length") == Some(JNum(n))
    ensures Columns(JObj(fields)) == (if n > 1 then 2 else 1)
  {
    ObjectLengthCompares(fields, n, 1);
  }
}
