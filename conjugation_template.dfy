/**
 * The French conjugation branch of the schema instructions
 * (`conditionaledFrenchConjugation` in src/lib/schemaGenerator.tsx). The
 * branch is a constant; it is written here as the tree of its entries, each
 * with the indentation and the trailing characters of its line, so that the
 * text of the branch and the JSON shape it asks for are two readings of the
 * same definition.
 */
module ConjugationTemplate {
  import opened Text
  import opened Wrappers
  import opened JsValues

  /** A value in the template: the placeholder "conjugated form", or a group of entries. */
  datatype TemplateNode =
    | Form
    | Group(entries: seq<TemplateEntry>, closeIndent: nat)

  /** `"key": value` on a line of its own, with what follows the value on its last line. */
  datatype TemplateEntry = Entry(indent: nat, key: string, value: TemplateNode, after: string)

  const Placeholder: string := "conjugated form"

  function Indent(n: nat): string
  {
    seq(n, _ => ' ')
  }

  /** The text of a value: the quoted placeholder, or `{`, the entries, and `}` on a line of its own. */
  function NodeText(n: TemplateNode): string
  {
    match n
    case Form => "\"" + Placeholder + "\""
    case Group(es, closeIndent) =>
      "{" + Concat(seq(|es|, i requires 0 <= i < |es| => EntryLine(es[i]) + NodeText(es[i].value) + es[i].after))
        + "\n" + Indent(closeIndent) + "}"
  }

  /** The start of an entry's first line: a line break, the indentation and the quoted key. */
  function EntryLine(e: TemplateEntry): string
  {
    "\n" + Indent(e.indent) + "\"" + e.key + "\": "
  }

  function EntryText(e: TemplateEntry): string
  {
    EntryLine(e) + NodeText(e.value) + e.after
  }

  /** The JSON value a reply that follows the template carries at this place. */
  function ToJson(n: TemplateNode): Json
  {
    match n
    case Form => JStr(Placeholder)
    case Group(es, _) => JObj(seq(|es|, i requires 0 <= i < |es| => (es[i].key, ToJson(es[i].value))))
  }

  /** The keys of a group, in order. */
  function GroupKeys(n: TemplateNode): seq<string>
  {
    match n
    case Form => []
    case Group(es, _) => seq(|es|, i requires 0 <= i < |es| => es[i].key)
  }

  const ConjugationIntro: string := "\n                ... if language is \"French\" and any meaning as a \"verb\", include:"

  const IndicativeEntry: TemplateEntry :=
    Entry(17, "indicative", Group([
      TenseEntry("présent", Pronouns, 24, [",", ",", ", ", ",", ",", ""], ","),
      TenseEntry("passé composé", Pronouns, 24, [",", ", ", ",", ",", ",", ""], ","),
      TenseEntry("imparfait", Pronouns, 24, [",", ",", ",", ", ", ",", ""], ","),
      TenseEntry("futur simple", Pronouns, 24, [",", ",", ", ", ",", ",", ""], ",")
    ], 18), ",")

  const SubjunctiveEntry: TemplateEntry :=
    Entry(18, "subjonctif", Group([
      TenseEntry("présent", Pronouns, 22, [",", ",", ", ", ",", ",", ""], ","),
      TenseEntry("imparfait", Pronouns, 22, [",", ",", ", ", ",", ",", ""], ","),
      TenseEntry("passé", Pronouns, 22, [",", ",", ", ", ",", ",", ""], ","),
      TenseEntry("plus-que-parfait", Pronouns, 22, [",", ",", ", ", ",", ",", ""], "")
    ], 18), ",")

  const ConditionalEntry: TemplateEntry :=
    Entry(18, "conditionnel", Group([
      TenseEntry("présent", Pronouns, 22, [",", ",", ", ", ",", ",", ""], ","),
      TenseEntry("passé", Pronouns, 22, [",", ",", ", ", ",", ",", ""], "")
    ], 18), ",")

  const ImperativeEntry: TemplateEntry :=
    Entry(18, "impératif", Group([
      TenseEntry("présent", ImperativePronouns, 22, [",", ",", ""], ","),
      TenseEntry("passé", ImperativePronouns, 22, [",", ",", ""], "")
    ], 18), ",")

  const ParticipleEntry: TemplateEntry :=
    Entry(18, "participe", Group([
      Entry(20, "présent", Form, ","),
      Entry(20, "passé", Group([
        Entry(22, "masculin singulier", Form, ","),
        Entry(22, "masculin pluriel", Form, ","),
        Entry(22, "féminin singulier", Form, ","),
        Entry(22, "féminin pluriel", Form, "")
      ], 20), "")
    ], 18), ",")

  const GerundEntry: TemplateEntry :=
    Entry(18, "gérondif", Group([
      Entry(20, "présent", Form, ","),
      Entry(20, "passé", Form, ","),
      Entry(20, "composé", Form, "")
    ], 18), ",")

  const InfinitiveEntry: TemplateEntry :=
    Entry(18, "infinitif", Group([
      Entry(20, "présent", Form, ","),
      Entry(20, "passé", Form, "")
    ], 18), "")

  /** The `"conjugation"` entry and its seven moods. */
  const ConjugationTemplate: TemplateEntry :=
    Entry(16, "conjugation", Group([IndicativeEntry, SubjunctiveEntry, ConditionalEntry, ImperativeEntry, ParticipleEntry, GerundEntry, InfinitiveEntry], 16), "")

  /** The persons of the indicative, subjunctive and conditional tenses, in the order the template lists them. */
  const Pronouns: seq<string> := ["je", "tu", "il/elle", "nous", "vous", "ils/elles"]

  /** The persons of the imperative tenses. */
  const ImperativePronouns: seq<string> := ["tu", "nous", "vous"]

  /**
   * A tense: its name at indentation 20, one placeholder line per person at
   * `formIndent` (with `afters[i]` after the i-th), and the closing brace at
   * indentation 20.
   */
  function TenseEntry(name: string, persons: seq<string>, formIndent: nat, afters: seq<string>, after: string): TemplateEntry
    requires |afters| == |persons|
  {
    Entry(20, name, Group(seq(|persons|, i requires 0 <= i < |persons| => Entry(formIndent, persons[i], Form, afters[i])), 20), after)
  }


  /** The text of the branch: its heading line, then the `"conjugation"` entry. */
  const ConjugationBlock: string := ConjugationIntro + EntryText(ConjugationTemplate)

  /** The value the template asks for under "conjugation". */
  const TemplateConjugation: Json := ToJson(ConjugationTemplate.value)

  /** The JSON of a group lists the group's keys in order, each with the JSON of its value. */
  lemma GroupJson(es: seq<TemplateEntry>, closeIndent: nat)
    ensures ToJson(Group(es, closeIndent)).JObj?
    ensures Keys(ToJson(Group(es, closeIndent))) == GroupKeys(Group(es, closeIndent))
    ensures forall i :: 0 <= i < |es| ==> ToJson(Group(es, closeIndent)).fields[i] == (es[i].key, ToJson(es[i].value))
  {
  }

  /** A mood whose every tense is a group of the given persons, each with the placeholder. */
  predicate TensesList(mood: Json, persons: seq<string>)
  {
    mood.JObj? && |mood.fields| > 0 &&
    forall i :: 0 <= i < |mood.fields| ==>
      mood.fields[i].1.JObj? && Keys(mood.fields[i].1) == persons &&
      forall j :: 0 <= j < |Entries(mood.fields[i].1)| ==> Entries(mood.fields[i].1)[j].1 == JStr(Placeholder)
  }

  /** A tense entry: a group of the given persons, each with the placeholder. */
  predicate IsTense(e: TemplateEntry, persons: seq<string>)
  {
    e.value.Group? && GroupKeys(e.value) == persons &&
    forall j :: 0 <= j < |e.value.entries| ==> e.value.entries[j].value == Form
  }

  lemma TenseEntryIsTense(name: string, persons: seq<string>, formIndent: nat, afters: seq<string>, after: string)
    requires |afters| == |persons|
    ensures IsTense(TenseEntry(name, persons, formIndent, afters, after), persons)
  {
  }

  /** A mood made of tenses of the given persons asks, for every tense, for exactly those persons. */
  lemma MoodJson(es: seq<TemplateEntry>, closeIndent: nat, persons: seq<string>)
    requires |es| > 0
    requires forall i :: 0 <= i < |es| ==> IsTense(es[i], persons)
    ensures TensesList(ToJson(Group(es, closeIndent)), persons)
  {
    GroupJson(es, closeIndent);
    var m := ToJson(Group(es, closeIndent));
    forall i | 0 <= i < |m.fields|
      ensures m.fields[i].1.JObj? && Keys(m.fields[i].1) == persons
      ensures forall j :: 0 <= j < |Entries(m.fields[i].1)| ==> Entries(m.fields[i].1)[j].1 == JStr(Placeholder)
    {
      assert IsTense(es[i], persons);
      GroupJson(es[i].value.entries, es[i].value.closeIndent);
    }
  }

  /** The moods the template asks for, in order. */
  const Moods: seq<string> := ["indicative", "subjonctif", "conditionnel", "impératif", "participe", "gérondif", "infinitif"]

  lemma TemplateMoods()
    ensures Keys(TemplateConjugation) == Moods
    ensures TemplateConjugation.JObj? && |TemplateConjugation.fields| == 7
    ensures forall i :: 0 <= i < 7 ==> TemplateConjugation.fields[i] == (Moods[i], ToJson(ConjugationTemplate.value.entries[i].value))
  {
    GroupJson(ConjugationTemplate.value.entries, 16);
  }

  /** The value of the i-th mood of the template under its name. */
  lemma GetMood(i: nat)
    requires i < 7
    ensures Get(TemplateConjugation, Moods[i]) == Some(ToJson(ConjugationTemplate.value.entries[i].value))
  {
    TemplateMoods();
    LookupAt(TemplateConjugation.fields, i);
  }

  /** Each indicative tense lists je, tu, il/elle, nous, vous and ils/elles. */
  lemma IndicativePersons()
    ensures TensesList(ToJson(IndicativeEntry.value), Pronouns)
  {
    TenseEntryIsTense("présent", Pronouns, 24, [",", ",", ", ", ",", ",", ""], ",");
    TenseEntryIsTense("passé composé", Pronouns, 24, [",", ", ", ",", ",", ",", ""], ",");
    TenseEntryIsTense("imparfait", Pronouns, 24, [",", ",", ",", ", ", ",", ""], ",");
    TenseEntryIsTense("futur simple", Pronouns, 24, [",", ",", ", ", ",", ",", ""], ",");
    MoodJson(IndicativeEntry.value.entries, 18, Pronouns);
  }

  lemma SubjunctivePersons()
    ensures TensesList(ToJson(SubjunctiveEntry.value), Pronouns)
  {
    TenseEntryIsTense("présent", Pronouns, 22, [",", ",", ", ", ",", ",", ""], ",");
    TenseEntryIsTense("imparfait", Pronouns, 22, [",", ",", ", ", ",", ",", ""], ",");
    TenseEntryIsTense("passé", Pronouns, 22, [",", ",", ", ", ",", ",", ""], ",");
    TenseEntryIsTense("plus-que-parfait", Pronouns, 22, [",", ",", ", ", ",", ",", ""], "");
    MoodJson(SubjunctiveEntry.value.entries, 18, Pronouns);
  }

  lemma ConditionalPersons()
    ensures TensesList(ToJson(ConditionalEntry.value), Pronouns)
  {
    TenseEntryIsTense("présent", Pronouns, 22, [",", ",", ", ", ",", ",", ""], ",");
    TenseEntryIsTense("passé", Pronouns, 22, [",", ",", ", ", ",", ",", ""], "");
    MoodJson(ConditionalEntry.value.entries, 18, Pronouns);
  }

  /** Each imperative tense lists only tu, nous and vous. */
  lemma ImperativePersons()
    ensures TensesList(ToJson(ImperativeEntry.value), ImperativePronouns)
  {
    TenseEntryIsTense("présent", ImperativePronouns, 22, [",", ",", ""], ",");
    TenseEntryIsTense("passé", ImperativePronouns, 22, [",", ",", ""], "");
    MoodJson(ImperativeEntry.value.entries, 18, ImperativePronouns);
  }

  /**
   * In the template, every indicative, subjonctif and conditionnel tense
   * lists exactly je, tu, il/elle, nous, vous, ils/elles, and every impératif
   * tense only tu, nous, vous.
   */
  lemma TemplatePersons()
    ensures Keys(TemplateConjugation) == Moods
    ensures Get(TemplateConjugation, "indicative") == Some(ToJson(IndicativeEntry.value))
    ensures Get(TemplateConjugation, "subjonctif") == Some(ToJson(SubjunctiveEntry.value))
    ensures Get(TemplateConjugation, "conditionnel") == Some(ToJson(ConditionalEntry.value))
    ensures Get(TemplateConjugation, "impératif") == Some(ToJson(ImperativeEntry.value))
    ensures TensesList(ToJson(IndicativeEntry.value), Pronouns)
    ensures TensesList(ToJson(SubjunctiveEntry.value), Pronouns)
    ensures TensesList(ToJson(ConditionalEntry.value), Pronouns)
    ensures TensesList(ToJson(ImperativeEntry.value), ImperativePronouns)
  {
    TemplateMoods();
    GetMood(0);
    GetMood(1);
    GetMood(2);
    GetMood(3);
    IndicativePersons();
    SubjunctivePersons();
    ConditionalPersons();
    ImperativePersons();
  }
}
