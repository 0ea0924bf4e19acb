/**
 * What the two conjugation views (`ConjugationModal` and `FrenchContent`)
 * share: the seven moods with their tab labels, the tab and panel
 * selection, the grouping of a mood's tenses into rows of four, the tense
 * cells with their '-' fallback, and the form/value rows.
 */
module ConjugationView {
  import opened Wrappers
  import opened JsValues
  import opened ConjugationTemplate

  /** One tense of a grid: its name, then one (label, shown value) line per person. */
  datatype Cell = Cell(tense: string, lines: seq<(string, Json)>)

  /**
   * What a render function gives: `null`, a grid of tense cells, a list of
   * form/value rows, or the `TypeError` a render throws.
   */
  datatype Table = NoTable | TenseGrid(rows: seq<seq<Cell>>) | FormList(entries: seq<(string, Json)>) | RenderThrows

  /** A tab panel and the mood it belongs to. */
  datatype Panel = Panel(mode: string, table: Table)

  /** The modal body: the no-data text, or the tab list with its panels. */
  datatype ModalBody = NoConjugationData | TabView(tabs: seq<string>, panels: seq<Panel>)

  const NoDataMessage: string := "No conjugation data available."

  /** `conjugationModes`: each mood's key and its tab label, in tab order. */
  const Modes: seq<(string, string)> := TenseModes + OtherModes

  /** The keys of the seven moods in the reply. */
  const MoodIndicative: string := "indicative"
  const MoodSubjunctive: string := "subjonctif"
  const MoodConditional: string := "conditionnel"
  const MoodImperative: string := "impératif"
  const MoodParticiple: string := "participe"
  const MoodGerund: string := "gérondif"
  const MoodInfinitive: string := "infinitif"

  /** The moods drawn as grids of tense boxes. */
  const TenseModes: seq<(string, string)> := [
    (MoodIndicative, "Indicative"), (MoodSubjunctive, "Subjunctive"), (MoodConditional, "Conditional"),
    (MoodImperative, "Imperative")]

  /** The moods drawn as lists of form/value rows. */
  const OtherModes: seq<(string, string)> := [(MoodParticiple, "Participle"), (MoodGerund, "Gerund"), (MoodInfinitive, "Infinitive")]

  /** The persons of a tense cell: the bold label and the key read from the forms. */
  const TenseLines: seq<(string, string)> := [
    ("Je", "je"), ("Tu", "tu"), ("Il/Elle", "il/elle"), ("Nous", "nous"), ("Vous", "vous"), ("Ils/Elles", "ils/elles")]

  /** The persons of an imperative cell. */
  const ImperativeLines: seq<(string, string)> := [("Tu", "tu"), ("Nous", "nous"), ("Vous", "vous")]

  const Dash: Json := JStr("-")

  /** `value || '-'` */
  function FormOrDash(value: Option<Json>): (r: Json)
    ensures Truthy(value) ==> Some(r) == value
    ensures !Truthy(value) ==> r == Dash
  {
    OrElse(value, Dash)
  }

  /** `data?.[key] && Object.keys(data[key]).length > 0`: the mood has a truthy value with a key. */
  predicate ModeShown(data: Json, key: string)
  {
    Truthy(Get(data, key)) && |Keys(Get(data, key).value)| > 0
  }

  /** The moods of `modes` whose tab is shown, in order. */
  function ShownModes(data: Json, modes: seq<(string, string)>): (r: seq<(string, string)>)
    ensures |r| <= |modes|
    ensures forall m :: m in r <==> m in modes && ModeShown(data, m.0)
  {
    if modes == [] then []
    else (if ModeShown(data, modes[0].0) then [modes[0]] else []) + ShownModes(data, modes[1..])
  }

  /** The labels of a list of modes. */
  function Labels(modes: seq<(string, string)>): (r: seq<string>)
    ensures |r| == |modes|
    ensures forall k :: 0 <= k < |r| ==> r[k] == modes[k].1
  {
    seq(|modes|, k requires 0 <= k < |modes| => modes[k].1)
  }

  /** The labels of the tabs shown, in the order of `Modes`. */
  function TabLabels(data: Json): seq<string>
  {
    Labels(ShownModes(data, Modes))
  }

  /** A panel for the mood `key` when its tab is shown. */
  function PanelIf(data: Json, key: string, render: Json -> Table): seq<Panel>
  {
    if ModeShown(data, key) then [Panel(key, render(Get(data, key).value))] else []
  }

  /** The panels of `modes`, in order, each under the same condition as its tab. */
  function PanelsOf(data: Json, modes: seq<(string, string)>, render: string -> (Json -> Table)): seq<Panel>
  {
    if modes == [] then [] else PanelIf(data, modes[0].0, render(modes[0].0)) + PanelsOf(data, modes[1..], render)
  }

  /**
   * Which render function draws a mood: tense grids for the indicative,
   * subjonctif and conditionnel, the imperative grid, the participle table,
   * and simple tables for the gérondif and infinitif.
   */
  function RenderFor(tenses: Json -> Table, imperative: Json -> Table,
                     participle: Json -> Table, simple: Json -> Table): string -> (Json -> Table)
  {
    key =>
      if key == MoodImperative then imperative
      else if key == MoodParticiple then participle
      else if key == MoodGerund || key == MoodInfinitive then simple
      else tenses
  }

  /** The seven conditional `<TabPanel>`s. */
  function Panels(data: Json, tenses: Json -> Table, imperative: Json -> Table,
                  participle: Json -> Table, simple: Json -> Table): seq<Panel>
  {
    PanelsOf(data, Modes, RenderFor(tenses, imperative, participle, simple))
  }

  /** `conjugationData ? <Tabs> : "No conjugation data available."` */
  function Body(conjugationData: Option<Json>, tenses: Json -> Table, imperative: Json -> Table,
                participle: Json -> Table, simple: Json -> Table): (r: ModalBody)
    ensures r.NoConjugationData? <==> !Truthy(conjugationData)
  {
    if !Truthy(conjugationData) then NoConjugationData
    else TabView(TabLabels(conjugationData.value), Panels(conjugationData.value, tenses, imperative, participle, simple))
  }

  /**
   * The panels line up with the tabs: the k-th panel belongs to the mood of
   * the k-th tab, and is drawn by that mood's render function from its value.
   */
  lemma {:induction false} PanelsMatchTabs(data: Json, modes: seq<(string, string)>, render: string -> (Json -> Table))
    ensures var ps := PanelsOf(data, modes, render);
      var shown := ShownModes(data, modes);
      |ps| == |shown| &&
      forall k :: 0 <= k < |ps| ==>
        ps[k].mode == shown[k].0 && ModeShown(data, ps[k].mode) &&
        ps[k].table == render(ps[k].mode)(Get(data, ps[k].mode).value)
  {
    if modes != [] {
      PanelsMatchTabs(data, modes[1..], render);
    }
  }

  /** The same for the seven moods of the views. */
  lemma TabsMatchPanels(data: Json, tenses: Json -> Table, imperative: Json -> Table,
                        participle: Json -> Table, simple: Json -> Table)
    ensures var ps := Panels(data, tenses, imperative, participle, simple);
      |ps| == |TabLabels(data)| &&
      forall k :: 0 <= k < |ps| ==>
        ps[k].mode == ShownModes(data, Modes)[k].0 && ModeShown(data, ps[k].mode) &&
        ps[k].table == RenderFor(tenses, imperative, participle, simple)(ps[k].mode)(Get(data, ps[k].mode).value)
  {
    PanelsMatchTabs(data, Modes, RenderFor(tenses, imperative, participle, simple));
  }

  /** No two modes share a tab label. */
  predicate DistinctLabels(modes: seq<(string, string)>)
  {
    forall a, b :: 0 <= a < b < |modes| ==> modes[a].1 != modes[b].1
  }

  lemma ModesDistinct()
    ensures DistinctLabels(Modes)
  {
  }

  /** With distinct labels, a mode's label is among the shown labels iff its value is truthy with a key. */
  lemma LabelShownIff(data: Json, modes: seq<(string, string)>, i: nat)
    requires i < |modes| && DistinctLabels(modes)
    ensures modes[i].1 in Labels(ShownModes(data, modes)) <==> ModeShown(data, modes[i].0)
  {
    var shown := ShownModes(data, modes);
    if modes[i].1 in Labels(shown) {
      var k :| 0 <= k < |shown| && Labels(shown)[k] == modes[i].1;
      assert shown[k] in shown;
      var a :| 0 <= a < |modes| && modes[a] == shown[k];
      assert a == i;
    } else {
      assert modes[i] !in shown by {
        forall k | 0 <= k < |shown| ensures shown[k] != modes[i] {
          assert Labels(shown)[k] == shown[k].1;
        }
      }
    }
  }

  /** A mood's tab is shown iff its value is truthy with a key. */
  lemma TabShownIff(data: Json, i: nat)
    requires i < |Modes|
    ensures Modes[i].1 in TabLabels(data) <==> ModeShown(data, Modes[i].0)
  {
    ModesDistinct();
    LabelShownIff(data, Modes, i);
  }

  /** `tenses.slice(i, i + 4)` for i = 0, 4, 8, ...: the rows of at most four tenses. */
  function Rows<T>(s: seq<T>): seq<seq<T>>
    decreases |s|
  {
    if |s| == 0 then [] else if |s| <= 4 then [s] else [s[..4]] + Rows(s[4..])
  }

  function Min(a: int, b: int): int
  {
    if a <= b then a else b
  }

  /** The rows concatenated. */
  function Flatten<T>(rows: seq<seq<T>>): seq<T>
  {
    if rows == [] then [] else rows[0] + Flatten(rows[1..])
  }

  /** `for (let i = 0; i < tenses.length; i += 4) rows.push(tenses.slice(i, i + 4))` */
  method GroupRows<T>(tenses: seq<T>) returns (rows: seq<seq<T>>)
    ensures rows == Rows(tenses)
  {
    rows := [];
    var i := 0;
    while i < |tenses|
      invariant 0 <= i
      invariant rows + Rows(tenses[Min(i, |tenses|)..]) == Rows(tenses)
    {
      var rest := tenses[i..];
      assert Rows(rest) == [tenses[i..Min(i + 4, |tenses|)]] + Rows(tenses[Min(i + 4, |tenses|)..]) by {
        if |rest| > 4 {
          assert rest[..4] == tenses[i..Min(i + 4, |tenses|)];
          assert rest[4..] == tenses[Min(i + 4, |tenses|)..];
        } else {
          assert rest == tenses[i..Min(i + 4, |tenses|)];
          assert tenses[Min(i + 4, |tenses|)..] == [];
        }
      }
      rows := rows + [tenses[i..Min(i + 4, |tenses|)]];
      i := i + 4;
    }
    assert tenses[Min(i, |tenses|)..] == [];
    assert rows + [] == rows;
  }

  /**
   * There are ⌈n/4⌉ rows; row i holds min(4, n - 4i) tenses, namely the
   * tenses 4i, 4i+1, ... in order.
   */
  lemma {:induction false} RowsShape<T>(s: seq<T>)
    ensures |Rows(s)| == (|s| + 3) / 4
    ensures forall i :: 0 <= i < |Rows(s)| ==> |Rows(s)[i]| == Min(4, |s| - 4 * i)
    ensures forall i, j :: 0 <= i < |Rows(s)| && 0 <= j < |Rows(s)[i]| ==>
      4 * i + j < |s| && Rows(s)[i][j] == s[4 * i + j]
    decreases |s|
  {
    if |s| > 4 {
      var tail := s[4..];
      RowsShape(tail);
      var r := Rows(s);
      assert r == [s[..4]] + Rows(tail);
      forall i | 1 <= i < |r| ensures |r[i]| == Min(4, |s| - 4 * i) {
        assert r[i] == Rows(tail)[i - 1];
      }
      forall i, j | 0 <= i < |r| && 0 <= j < |r[i]| ensures 4 * i + j < |s| && r[i][j] == s[4 * i + j] {
        if i > 0 {
          assert r[i] == Rows(tail)[i - 1];
          assert tail[4 * (i - 1) + j] == s[4 * i + j];
        }
      }
    }
  }

  /** Every row holds one to four tenses, and every row but the last exactly four. */
  lemma RowSizes<T>(s: seq<T>)
    ensures forall i :: 0 <= i < |Rows(s)| ==> 1 <= |Rows(s)[i]| <= 4
    ensures forall i :: 0 <= i < |Rows(s)| - 1 ==> |Rows(s)[i]| == 4
  {
    RowsShape(s);
  }

  /** Read row by row, the rows are the tenses in order. */
  lemma {:induction false} FlattenRows<T>(s: seq<T>)
    ensures Flatten(Rows(s)) == s
    decreases |s|
  {
    if |s| > 4 {
      FlattenRows(s[4..]);
      assert Rows(s)[1..] == Rows(s[4..]);
      assert s == s[..4] + s[4..];
    } else if |s| > 0 {
      assert Rows(s)[1..] == [];
      assert s + [] == s;
    }
  }

  /** A tense box: the tense name, then each person's form or '-'. */
  function TenseCell(entry: (string, Json), persons: seq<(string, string)>): Cell
  {
    Cell(entry.0, seq(|persons|, i requires 0 <= i < |persons| => (persons[i].0, FormOrDash(Get(entry.1, persons[i].1)))))
  }

  /** `rows.map(row => row.map(([tense, forms]) => <cell>))` over the mood's entries. */
  function Grid(data: Json, persons: seq<(string, string)>): seq<seq<Cell>>
  {
    var rows := Rows(Entries(data));
    seq(|rows|, i requires 0 <= i < |rows| =>
      seq(|rows[i]|, j requires 0 <= j < |rows[i]| => TenseCell(rows[i][j], persons)))
  }

  /**
   * The grid's cells, row by row, are the mood's tenses in entry order: cell
   * j of row i is the tense 4i+j; each lists the persons in order, each with
   * its form when truthy and '-' otherwise.
   */
  lemma GridCells(data: Json, persons: seq<(string, string)>)
    ensures |Grid(data, persons)| == (|Entries(data)| + 3) / 4
    ensures forall i, j :: 0 <= i < |Grid(data, persons)| && 0 <= j < |Grid(data, persons)[i]| ==>
      4 * i + j < |Entries(data)| &&
      Grid(data, persons)[i][j].tense == Entries(data)[4 * i + j].0 &&
      |Grid(data, persons)[i][j].lines| == |persons| &&
      forall l :: 0 <= l < |persons| ==>
        Grid(data, persons)[i][j].lines[l].0 == persons[l].0 &&
        (Truthy(Get(Entries(data)[4 * i + j].1, persons[l].1)) ==>
          Some(Grid(data, persons)[i][j].lines[l].1) == Get(Entries(data)[4 * i + j].1, persons[l].1)) &&
        (!Truthy(Get(Entries(data)[4 * i + j].1, persons[l].1)) ==> Grid(data, persons)[i][j].lines[l].1 == Dash)
  {
    RowsShape(Entries(data));
  }

  /** `Object.entries(data).map(([form, value]) => [form, value || '-'])` */
  function FormRows(data: Json): (r: seq<(string, Json)>)
    ensures |r| == |Entries(data)|
    ensures forall k :: 0 <= k < |r| ==> r[k].0 == Entries(data)[k].0 && r[k].1 == FormOrDash(Some(Entries(data)[k].1))
  {
    var es := Entries(data);
    seq(|es|, k requires 0 <= k < |es| => (es[k].0, FormOrDash(Some(es[k].1))))
  }

  /** A forms object listing exactly the given persons, each with the same truthy form. */
  predicate AllForms(forms: Json, persons: seq<(string, string)>, form: Json)
  {
    |Entries(forms)| == |persons| &&
    (forall k :: 0 <= k < |persons| ==> Entries(forms)[k].0 == persons[k].1) &&
    (forall k :: 0 <= k < |persons| ==> Entries(forms)[k].1 == form)
  }

  /** A tense whose forms list every person with a truthy form shows that form on every line, no '-'. */
  lemma CellFilled(entry: (string, Json), persons: seq<(string, string)>, form: Json)
    requires entry.1.JObj? && AllForms(entry.1, persons, form) && Truthy(Some(form))
    ensures forall l :: 0 <= l < |persons| ==> TenseCell(entry, persons).lines[l].1 == form
  {
    forall l | 0 <= l < |persons| ensures TenseCell(entry, persons).lines[l].1 == form {
      assert entry.1.fields[l].0 == persons[l].1;
      var v := Lookup(entry.1.fields, persons[l].1);
      var k :| 0 <= k < |entry.1.fields| && entry.1.fields[k] == (persons[l].1, v.value);
      assert Entries(entry.1)[k].1 == form;
    }
  }

  /** Every line of every cell of the grid shows `form`. */
  predicate Filled(rows: seq<seq<Cell>>, form: Json)
  {
    forall i, j, l :: 0 <= i < |rows| && 0 <= j < |rows[i]| && 0 <= l < |rows[i][j].lines| ==> rows[i][j].lines[l].1 == form
  }

  /** A mood with at least one tense, every tense an object giving `form` for exactly the persons. */
  predicate TenseMood(mood: Json, persons: seq<(string, string)>, form: Json)
  {
    mood.JObj? && |mood.fields| > 0 &&
    forall k :: 0 <= k < |mood.fields| ==> mood.fields[k].1.JObj? && AllForms(mood.fields[k].1, persons, form)
  }

  /** A mood whose every tense gives a truthy form for every person is drawn with no '-'. */
  lemma GridFilled(mood: Json, persons: seq<(string, string)>, form: Json)
    requires TenseMood(mood, persons, form) && Truthy(Some(form))
    ensures Filled(Grid(mood, persons), form)
  {
    var g: seq<seq<Cell>> := Grid(mood, persons);
    RowsShape(Entries(mood));
    forall i, j, l | 0 <= i < |g| && 0 <= j < |g[i]| && 0 <= l < |g[i][j].lines| ensures g[i][j].lines[l].1 == form {
      var e := Entries(mood)[4 * i + j];
      assert g[i][j] == TenseCell(e, persons);
      CellFilled(e, persons, form);
    }
  }

  /** A mood that is an object with at least one entry. */
  predicate ObjectMood(v: Option<Json>)
  {
    v.Some? && v.value.JObj? && |v.value.fields| > 0
  }

  /**
   * A conjugation shaped like the template's: the four tense moods with
   * every tense listing the template's persons with the placeholder, and the
   * three other moods as objects with at least one entry.
   */
  predicate FollowsTemplate(data: Json)
  {
    data.JObj? && MoodsPresent(data) &&
    TenseMood(Get(data, MoodIndicative).value, TenseLines, JStr(Placeholder)) &&
    TenseMood(Get(data, MoodSubjunctive).value, TenseLines, JStr(Placeholder)) &&
    TenseMood(Get(data, MoodConditional).value, TenseLines, JStr(Placeholder)) &&
    TenseMood(Get(data, MoodImperative).value, ImperativeLines, JStr(Placeholder))
  }

  /** All seven moods are objects with at least one entry. */
  predicate MoodsPresent(data: Json)
  {
    ObjectMood(Get(data, MoodIndicative)) && ObjectMood(Get(data, MoodSubjunctive)) &&
    ObjectMood(Get(data, MoodConditional)) && ObjectMood(Get(data, MoodImperative)) &&
    ObjectMood(Get(data, MoodParticiple)) && ObjectMood(Get(data, MoodGerund)) && ObjectMood(Get(data, MoodInfinitive))
  }

  /** The template's persons, as the keys the cells read. */
  lemma TensesListMood(mood: Json, persons: seq<(string, string)>, names: seq<string>)
    requires |persons| == |names| && forall k :: 0 <= k < |names| ==> persons[k].1 == names[k]
    requires TensesList(mood, names)
    ensures TenseMood(mood, persons, JStr(Placeholder))
  {
    forall k | 0 <= k < |mood.fields| ensures mood.fields[k].1.JObj? && AllForms(mood.fields[k].1, persons, JStr(Placeholder)) {
      assert Keys(mood.fields[k].1) == names;
      forall q | 0 <= q < |persons| ensures Entries(mood.fields[k].1)[q].0 == persons[q].1 {
        assert Keys(mood.fields[k].1)[q] == names[q];
      }
    }
  }

  /** The value the template asks for follows the template. */
  lemma TemplateFollowsTemplate()
    ensures FollowsTemplate(TemplateConjugation)
  {
    IndicativePersons();
    TemplateTenseMood(0, IndicativeEntry, TenseLines, Pronouns);
    SubjunctivePersons();
    TemplateTenseMood(1, SubjunctiveEntry, TenseLines, Pronouns);
    ConditionalPersons();
    TemplateTenseMood(2, ConditionalEntry, TenseLines, Pronouns);
    ImperativePersons();
    TemplateTenseMood(3, ImperativeEntry, ImperativeLines, ImperativePronouns);
    TemplateOtherMoods();
  }

  /** A tense mood of the template, as the cells read it. */
  lemma TemplateTenseMood(i: nat, entry: TemplateEntry, persons: seq<(string, string)>, names: seq<string>)
    requires i < 4 && ConjugationTemplate.ConjugationTemplate.value.entries[i] == entry
    requires TensesList(ToJson(entry.value), names)
    requires |persons| == |names| && forall k :: 0 <= k < |names| ==> persons[k].1 == names[k]
    ensures ObjectMood(Get(TemplateConjugation, Moods[i]))
    ensures TenseMood(Get(TemplateConjugation, Moods[i]).value, persons, JStr(Placeholder))
  {
    GetMood(i);
    TensesListMood(ToJson(entry.value), persons, names);
  }

  /** The participe, gérondif and infinitif of the template are objects with entries. */
  lemma TemplateOtherMoods()
    ensures ObjectMood(Get(TemplateConjugation, MoodParticiple))
    ensures ObjectMood(Get(TemplateConjugation, MoodGerund))
    ensures ObjectMood(Get(TemplateConjugation, MoodInfinitive))
  {
    GetMood(4);
    GetMood(5);
    GetMood(6);
    GroupJson(ParticipleEntry.value.entries, 18);
    GroupJson(GerundEntry.value.entries, 18);
    GroupJson(InfinitiveEntry.value.entries, 18);
  }

  /** All modes shown leaves the list unfiltered. */
  lemma {:induction false} AllShown(data: Json, modes: seq<(string, string)>)
    requires forall m :: m in modes ==> ModeShown(data, m.0)
    ensures ShownModes(data, modes) == modes
  {
    if modes != [] {
      assert modes[0] in modes;
      AllShown(data, modes[1..]);
    }
  }

  /** The shown modes of two lists, one after the other. */
  lemma {:induction false} ShownAppend(data: Json, a: seq<(string, string)>, b: seq<(string, string)>)
    ensures ShownModes(data, a + b) == ShownModes(data, a) + ShownModes(data, b)
  {
    if a != [] {
      assert (a + b)[1..] == a[1..] + b;
      ShownAppend(data, a[1..], b);
    } else {
      assert a + b == b;
    }
  }

  /** An object mood is shown. */
  lemma ObjectMoodShown(data: Json, key: string)
    requires ObjectMood(Get(data, key))
    ensures ModeShown(data, key)
  {
  }

  /** A conjugation with all seven moods shows all seven tabs, in the order of `Modes`. */
  lemma TemplateTabs(data: Json)
    requires MoodsPresent(data)
    ensures ShownModes(data, Modes) == Modes
    ensures TabLabels(data) == Labels(Modes)
  {
    TenseModesShown(data);
    OtherModesShown(data);
    ShownAppend(data, TenseModes, OtherModes);
  }

  /** Four shown modes make a list of shown modes. */
  lemma FourShown(data: Json, a: (string, string), b: (string, string), c: (string, string), d: (string, string))
    requires ModeShown(data, a.0) && ModeShown(data, b.0) && ModeShown(data, c.0) && ModeShown(data, d.0)
    ensures forall m :: m in [a, b, c, d] ==> ModeShown(data, m.0)
  {
  }

  /** Three shown modes make a list of shown modes. */
  lemma ThreeShown(data: Json, a: (string, string), b: (string, string), c: (string, string))
    requires ModeShown(data, a.0) && ModeShown(data, b.0) && ModeShown(data, c.0)
    ensures forall m :: m in [a, b, c] ==> ModeShown(data, m.0)
  {
  }

  /** With all seven moods present, each of the four tense moods is shown. */
  lemma TenseModesEach(data: Json)
    requires MoodsPresent(data)
    ensures forall m :: m in TenseModes ==> ModeShown(data, m.0)
  {
    ObjectMoodShown(data, MoodIndicative);
    ObjectMoodShown(data, MoodSubjunctive);
    ObjectMoodShown(data, MoodConditional);
    ObjectMoodShown(data, MoodImperative);
    FourShown(data, TenseModes[0], TenseModes[1], TenseModes[2], TenseModes[3]);
    assert TenseModes == [TenseModes[0], TenseModes[1], TenseModes[2], TenseModes[3]];
  }

  /** With all seven moods present, each of the three other moods is shown. */
  lemma OtherModesEach(data: Json)
    requires MoodsPresent(data)
    ensures forall m :: m in OtherModes ==> ModeShown(data, m.0)
  {
    ObjectMoodShown(data, MoodParticiple);
    ObjectMoodShown(data, MoodGerund);
    ObjectMoodShown(data, MoodInfinitive);
    ThreeShown(data, OtherModes[0], OtherModes[1], OtherModes[2]);
    assert OtherModes == [OtherModes[0], OtherModes[1], OtherModes[2]];
  }

  lemma TenseModesShown(data: Json)
    requires MoodsPresent(data)
    ensures ShownModes(data, TenseModes) == TenseModes
  {
    TenseModesEach(data);
    AllShown(data, TenseModes);
  }

  lemma OtherModesShown(data: Json)
    requires MoodsPresent(data)
    ensures ShownModes(data, OtherModes) == OtherModes
  {
    OtherModesEach(data);
    AllShown(data, OtherModes);
  }

  /** The panels of two lists, one after the other. */
  lemma {:induction false} PanelsAppend(data: Json, a: seq<(string, string)>, b: seq<(string, string)>,
                                        render: string -> (Json -> Table))
    ensures PanelsOf(data, a + b, render) == PanelsOf(data, a, render) + PanelsOf(data, b, render)
  {
    if a != [] {
      assert (a + b)[1..] == a[1..] + b;
      PanelsAppend(data, a[1..], b, render);
    } else {
      assert a + b == b;
    }
  }

  /** With every mode shown, there is one panel per mode, in order. */
  lemma {:induction false} AllShownPanels(data: Json, modes: seq<(string, string)>, render: string -> (Json -> Table))
    requires forall m :: m in modes ==> ModeShown(data, m.0)
    ensures |PanelsOf(data, modes, render)| == |modes|
    ensures forall k :: 0 <= k < |modes| ==>
      ModeShown(data, modes[k].0) &&
      PanelsOf(data, modes, render)[k] == Panel(modes[k].0, render(modes[k].0)(Get(data, modes[k].0).value))
  {
    if modes != [] {
      assert modes[0] in modes;
      AllShownPanels(data, modes[1..], render);
      var tail := PanelsOf(data, modes[1..], render);
      assert PanelsOf(data, modes, render) == [Panel(modes[0].0, render(modes[0].0)(Get(data, modes[0].0).value))] + tail;
      forall k | 1 <= k < |modes| ensures PanelsOf(data, modes, render)[k] == tail[k - 1] && modes[k] == modes[1..][k - 1] {
      }
    }
  }

  /** The panels of the four tense moods, when all are shown. */
  lemma TenseModePanels(data: Json, render: string -> (Json -> Table))
    requires MoodsPresent(data)
    ensures var ps := PanelsOf(data, TenseModes, render);
      |ps| == 4 &&
      ps[0] == Panel(MoodIndicative, render(MoodIndicative)(Get(data, MoodIndicative).value)) &&
      ps[1] == Panel(MoodSubjunctive, render(MoodSubjunctive)(Get(data, MoodSubjunctive).value)) &&
      ps[2] == Panel(MoodConditional, render(MoodConditional)(Get(data, MoodConditional).value)) &&
      ps[3] == Panel(MoodImperative, render(MoodImperative)(Get(data, MoodImperative).value))
  {
    TenseModesEach(data);
    AllShownPanels(data, TenseModes, render);
    assert TenseModes[0].0 == MoodIndicative && TenseModes[1].0 == MoodSubjunctive;
    assert TenseModes[2].0 == MoodConditional && TenseModes[3].0 == MoodImperative;
  }

  /** With all seven moods present, the three other moods give three panels. */
  lemma OtherModePanelCount(data: Json, render: string -> (Json -> Table))
    requires MoodsPresent(data)
    ensures |PanelsOf(data, OtherModes, render)| == 3
  {
    OtherModesEach(data);
    AllShownPanels(data, OtherModes, render);
  }

  /** The render function picks the tense grid for three tense moods and the imperative one for the fourth. */
  lemma RenderTenseModes(tenses: Json -> Table, imperative: Json -> Table,
                         participle: Json -> Table, simple: Json -> Table)
    ensures var render := RenderFor(tenses, imperative, participle, simple);
      render(MoodIndicative) == tenses && render(MoodSubjunctive) == tenses &&
      render(MoodConditional) == tenses && render(MoodImperative) == imperative
  {
  }

  /**
   * With all seven moods there are seven panels: first the four tense moods
   * in order, each drawn by its render function.
   */
  lemma TemplatePanels(data: Json, tenses: Json -> Table, imperative: Json -> Table,
                       participle: Json -> Table, simple: Json -> Table)
    requires MoodsPresent(data)
    ensures var ps := Panels(data, tenses, imperative, participle, simple);
      |ps| == 7 &&
      ps[0] == Panel(MoodIndicative, tenses(Get(data, MoodIndicative).value)) &&
      ps[1] == Panel(MoodSubjunctive, tenses(Get(data, MoodSubjunctive).value)) &&
      ps[2] == Panel(MoodConditional, tenses(Get(data, MoodConditional).value)) &&
      ps[3] == Panel(MoodImperative, imperative(Get(data, MoodImperative).value))
  {
    var render := RenderFor(tenses, imperative, participle, simple);
    OtherModePanelCount(data, render);
    PanelsAppend(data, TenseModes, OtherModes, render);
    TenseModePanels(data, render);
    RenderTenseModes(tenses, imperative, participle, simple);
  }
}
