/**
 * `FrenchContent`: the older conjugation view. Its tabs and panels follow
 * the same conditions as the conjugation modal's, but its tables also ask
 * for `typeof data === 'object'`, and its participle table lists the entries
 * in order, opening up the `passé` entry into one row per gender.
 */
module FrenchContent {
  import opened Wrappers
  import opened JsValues
  import opened ConjugationTemplate
  import opened ConjugationView
  import ConjugationModal

  /** The participle entry whose value is opened up into rows. */
  const PasseKey: string := "passé"

  /** `!data || typeof data !== 'object'` fails: a non-null object or array. */
  predicate Drawable(data: Json)
  {
    Truthy(Some(data)) && IsObjectType(data)
  }

  /** `renderConjugationTable`: `null` unless an object with a key, else the six-person grid. */
  function TenseTable(data: Json): (t: Table)
    ensures t.NoTable? <==> !Drawable(data) || |Keys(data)| == 0
    ensures t.TenseGrid? || t.NoTable?
    ensures t.TenseGrid? ==> t.rows == Grid(data, TenseLines)
  {
    if !Drawable(data) || |Keys(data)| == 0 then NoTable else TenseGrid(Grid(data, TenseLines))
  }

  /** `renderImperativeTable`: the same grid, with only tu, nous and vous. */
  function ImperativeTable(data: Json): (t: Table)
    ensures t.NoTable? <==> !Drawable(data) || |Keys(data)| == 0
    ensures t.TenseGrid? || t.NoTable?
    ensures t.TenseGrid? ==> t.rows == Grid(data, ImperativeLines)
  {
    if !Drawable(data) || |Keys(data)| == 0 then NoTable else TenseGrid(Grid(data, ImperativeLines))
  }

  /** `(form, value || '-')` for each entry: the rows of an entry list with nothing opened up. */
  function PlainRows(es: seq<(string, Json)>): (r: seq<(string, Json)>)
    ensures |r| == |es|
    ensures forall k :: 0 <= k < |r| ==> r[k] == (es[k].0, FormOrDash(Some(es[k].1)))
  {
    seq(|es|, k requires 0 <= k < |es| => (es[k].0, FormOrDash(Some(es[k].1))))
  }

  /**
   * The rows of one participle entry: `passé` gives a row per entry of its
   * value, where `Object.entries(null)` throws; any other entry gives one row.
   */
  function EntryRows(e: (string, Json)): (r: Option<seq<(string, Json)>>)
    ensures r.None? <==> e.0 == PasseKey && e.1.JNull?
    ensures r.Some? && e.0 == PasseKey ==> r.value == FormRows(e.1)
    ensures e.0 != PasseKey ==> r == Some([(e.0, FormOrDash(Some(e.1)))])
  {
    if e.0 == PasseKey then (if e.1.JNull? then None else Some(FormRows(e.1)))
    else Some([(e.0, FormOrDash(Some(e.1)))])
  }

  /** The participle rows of an entry list, in order, or `None` if one entry throws. */
  function FlatRows(es: seq<(string, Json)>): Option<seq<(string, Json)>>
  {
    if es == [] then Some([])
    else
      var head := EntryRows(es[0]);
      var tail := FlatRows(es[1..]);
      if head.Some? && tail.Some? then Some(head.value + tail.value) else None
  }

  /** Some entry's `passé` value is `null`. */
  predicate NullPasse(es: seq<(string, Json)>)
  {
    exists k :: 0 <= k < |es| && es[k].0 == PasseKey && es[k].1.JNull?
  }

  /** Flattening throws exactly when some `passé` entry is `null`. */
  lemma {:induction false} FlatRowsThrows(es: seq<(string, Json)>)
    ensures FlatRows(es).None? <==> NullPasse(es)
  {
    if es != [] {
      FlatRowsThrows(es[1..]);
      assert forall k :: 1 <= k < |es| ==> es[k] == es[1..][k - 1];
      if NullPasse(es[1..]) {
        var k :| 0 <= k < |es[1..]| && es[1..][k].0 == PasseKey && es[1..][k].1.JNull?;
        assert es[k + 1] == es[1..][k];
      }
    }
  }

  /** `renderParticipeTable`: `null` unless drawable, else the flattened rows, or the throw. */
  function ParticipleTable(data: Json): (t: Table)
    ensures t.NoTable? <==> !Drawable(data)
    ensures t.RenderThrows? <==> Drawable(data) && NullPasse(Entries(data))
    ensures t.FormList? ==> Some(t.entries) == FlatRows(Entries(data))
  {
    FlatRowsThrows(Entries(data));
    if !Drawable(data) then NoTable
    else
      match FlatRows(Entries(data))
      case Some(rows) => FormList(rows)
      case None => RenderThrows
  }

  /** `renderSimpleTable`: one form/value row per entry, `null` unless drawable. */
  function SimpleTable(data: Json): (t: Table)
    ensures t.NoTable? <==> !Drawable(data)
    ensures t.FormList? || t.NoTable?
    ensures t.FormList? ==> t.entries == FormRows(data)
  {
    if !Drawable(data) then NoTable else FormList(FormRows(data))
  }

  /** The body of the conjugation view for `conjugationData`. */
  function Content(conjugationData: Option<Json>): ModalBody
  {
    Body(conjugationData, TenseTable, ImperativeTable, ParticipleTable, SimpleTable)
  }

  /** Flattening a concatenation flattens each part: rows stay in entry order. */
  lemma {:induction false} FlatRowsAppend(a: seq<(string, Json)>, b: seq<(string, Json)>)
    ensures FlatRows(a + b) ==
      (if FlatRows(a).Some? && FlatRows(b).Some? then Some(FlatRows(a).value + FlatRows(b).value) else None)
  {
    if a == [] {
      assert a + b == b;
      if FlatRows(b).Some? {
        assert [] + FlatRows(b).value == FlatRows(b).value;
      }
    } else {
      var h := EntryRows(a[0]);
      assert (a + b)[0] == a[0];
      assert (a + b)[1..] == a[1..] + b;
      FlatRowsAppend(a[1..], b);
      if h.Some? && FlatRows(a[1..]).Some? && FlatRows(b).Some? {
        assert h.value + (FlatRows(a[1..]).value + FlatRows(b).value) ==
          (h.value + FlatRows(a[1..]).value) + FlatRows(b).value;
      }
    }
  }

  /** Without a `passé` entry, flattening gives one row per entry, as the simple table does. */
  lemma {:induction false} FlatRowsWithoutPasse(es: seq<(string, Json)>)
    requires forall k :: 0 <= k < |es| ==> es[k].0 != PasseKey
    ensures FlatRows(es) == Some(PlainRows(es))
  {
    if es != [] {
      assert forall k :: 0 <= k < |es[1..]| ==> es[1..][k] == es[k + 1];
      FlatRowsWithoutPasse(es[1..]);
      assert PlainRows(es) == [(es[0].0, FormOrDash(Some(es[0].1)))] + PlainRows(es[1..]);
    }
  }

  /** A participle with no `passé` entry is drawn exactly as a simple table. */
  lemma ParticipleWithoutPasse(data: Json)
    requires forall k :: 0 <= k < |Keys(data)| ==> Keys(data)[k] != PasseKey
    ensures ParticipleTable(data) == SimpleTable(data)
  {
    assert forall k :: 0 <= k < |Entries(data)| ==> Entries(data)[k].0 == Keys(data)[k];
    FlatRowsWithoutPasse(Entries(data));
    assert PlainRows(Entries(data)) == FormRows(data);
  }

  /**
   * The template's participle shape, `présent` then `passé`: this view shows
   * the key "présent" as the first row's label, where the modal writes
   * "Présent"; the gender rows are the same.
   */
  lemma TemplateParticiple(present: Json, passe: Json)
    requires Truthy(Some(present)) && Truthy(Some(passe))
    ensures ParticipleTable(JObj([("présent", present), (PasseKey, passe)])) ==
      FormList([("présent", present)] + FormRows(passe))
    ensures ConjugationModal.ParticipleTable(JObj([("présent", present), (PasseKey, passe)])) ==
      FormList([("Présent", present)] + FormRows(passe))
  {
    var es := [("présent", present), (PasseKey, passe)];
    assert es == [es[0]] + [es[1]];
    FlatRowsAppend([es[0]], [es[1]]);
    assert FlatRows([es[1]]) == Some(FormRows(passe) + []);
  }

  /**
   * On an object the grids and the simple table are drawn as the modal
   * draws them: the extra `typeof` test only matters for other values.
   */
  lemma SameAsModalOnObjects(data: Json)
    requires data.JObj?
    ensures TenseTable(data) == ConjugationModal.TenseTable(data)
    ensures ImperativeTable(data) == ConjugationModal.ImperativeTable(data)
    ensures SimpleTable(data) == ConjugationModal.SimpleTable(data)
  {
  }

  /**
   * A mood given as a non-empty string is drawn by the modal as a grid, one
   * box per character, and by this view not at all.
   */
  lemma StringMoodDiffers(s: string)
    requires s != ""
    ensures TenseTable(JStr(s)).NoTable?
    ensures ConjugationModal.TenseTable(JStr(s)).TenseGrid?
    ensures SimpleTable(JStr(s)).NoTable?
    ensures ConjugationModal.SimpleTable(JStr(s)).FormList?
  {
  }

  /** A `passé` entry whose value is `null` makes the participle table throw. */
  lemma NullPasseThrows(data: Json, k: nat)
    requires data.JObj? && k < |data.fields| && data.fields[k] == (PasseKey, JNull)
    ensures ParticipleTable(data).RenderThrows?
  {
  }

  /** Both views show the same tabs, in the same order, for any conjugation data. */
  lemma SameTabsAsModal(conjugationData: Option<Json>)
    ensures Content(conjugationData).TabView? <==> ConjugationModal.Modal(conjugationData).TabView?
    ensures Content(conjugationData).TabView? ==>
      Content(conjugationData).tabs == ConjugationModal.Modal(conjugationData).tabs &&
      Content(conjugationData).tabs == TabLabels(conjugationData.value)
  {
  }

  /**
   * A conjugation that follows the template shows the seven tabs, with the
   * placeholder on every line of the four tense grids.
   */
  lemma TemplateContent(data: Json)
    requires FollowsTemplate(data)
    ensures Content(Some(data)).TabView?
    ensures Content(Some(data)).tabs == Labels(Modes)
    ensures |Content(Some(data)).panels| == 7
    ensures forall k :: 0 <= k < 4 ==> ConjugationModal.GridPanelFilled(Content(Some(data)).panels[k])
  {
    TemplateTabs(data);
    TemplatePanels(data, TenseTable, ImperativeTable, ParticipleTable, SimpleTable);
    var a, b, c, d := Get(data, MoodIndicative).value, Get(data, MoodSubjunctive).value,
      Get(data, MoodConditional).value, Get(data, MoodImperative).value;
    SameAsModalOnObjects(a);
    SameAsModalOnObjects(b);
    SameAsModalOnObjects(c);
    SameAsModalOnObjects(d);
    var ps := Panels(data, TenseTable, ImperativeTable, ParticipleTable, SimpleTable);
    ConjugationModal.TensePanelsFilled(ps, a, b, c, d);
  }

  /** For such a conjugation the four tense panels are the modal's own. */
  lemma TemplateTensePanelsAsModal(data: Json)
    requires FollowsTemplate(data)
    ensures |Content(Some(data)).panels| == 7 && |ConjugationModal.Modal(Some(data)).panels| == 7
    ensures Content(Some(data)).panels[..4] == ConjugationModal.Modal(Some(data)).panels[..4]
  {
    var mine := Panels(data, TenseTable, ImperativeTable, ParticipleTable, SimpleTable);
    var theirs := Panels(data, ConjugationModal.TenseTable, ConjugationModal.ImperativeTable,
      ConjugationModal.ParticipleTable, ConjugationModal.SimpleTable);
    TemplatePanels(data, TenseTable, ImperativeTable, ParticipleTable, SimpleTable);
    TemplatePanels(data, ConjugationModal.TenseTable, ConjugationModal.ImperativeTable,
      ConjugationModal.ParticipleTable, ConjugationModal.SimpleTable);
    SamePanelsOnObjects(mine, theirs, Get(data, MoodIndicative).value, Get(data, MoodSubjunctive).value,
      Get(data, MoodConditional).value, Get(data, MoodImperative).value);
  }

  /** Panels drawn from four object moods by either view's grids are the same panels. */
  lemma SamePanelsOnObjects(mine: seq<Panel>, theirs: seq<Panel>, a: Json, b: Json, c: Json, d: Json)
    requires |mine| >= 4 && |theirs| >= 4
    requires a.JObj? && b.JObj? && c.JObj? && d.JObj?
    requires mine[0] == Panel(MoodIndicative, TenseTable(a)) && theirs[0] == Panel(MoodIndicative, ConjugationModal.TenseTable(a))
    requires mine[1] == Panel(MoodSubjunctive, TenseTable(b)) && theirs[1] == Panel(MoodSubjunctive, ConjugationModal.TenseTable(b))
    requires mine[2] == Panel(MoodConditional, TenseTable(c)) && theirs[2] == Panel(MoodConditional, ConjugationModal.TenseTable(c))
    requires mine[3] == Panel(MoodImperative, ImperativeTable(d)) && theirs[3] == Panel(MoodImperative, ConjugationModal.ImperativeTable(d))
    ensures mine[..4] == theirs[..4]
  {
    SameAsModalOnObjects(a);
    SameAsModalOnObjects(b);
    SameAsModalOnObjects(c);
    SameAsModalOnObjects(d);
    assert forall k :: 0 <= k < 4 ==> mine[..4][k] == theirs[..4][k];
  }
}
