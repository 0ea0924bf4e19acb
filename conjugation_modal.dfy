/**
 * `ConjugationModal`: the conjugation of a French verb, one tab per mood the
 * reply fills in. Tense moods are grids of tense boxes, four to a row; the
 * participle, gérondif and infinitif are lists of form/value rows.
 */
module ConjugationModal {
  import opened Wrappers
  import opened JsValues
  import opened ConjugationTemplate
  import opened ConjugationView

  /** `renderConjugationTable`: `null` for a falsy or key-less mood, else the grid of six-person boxes. */
  function TenseTable(data: Json): (t: Table)
    ensures t.NoTable? <==> !Truthy(Some(data)) || |Keys(data)| == 0
    ensures t.TenseGrid? || t.NoTable?
    ensures t.TenseGrid? ==> t.rows == Grid(data, TenseLines)
  {
    if !Truthy(Some(data)) || |Keys(data)| == 0 then NoTable else TenseGrid(Grid(data, TenseLines))
  }

  /** `renderImperativeTable`: the same grid, with only tu, nous and vous. */
  function ImperativeTable(data: Json): (t: Table)
    ensures t.NoTable? <==> !Truthy(Some(data)) || |Keys(data)| == 0
    ensures t.TenseGrid? || t.NoTable?
    ensures t.TenseGrid? ==> t.rows == Grid(data, ImperativeLines)
  {
    if !Truthy(Some(data)) || |Keys(data)| == 0 then NoTable else TenseGrid(Grid(data, ImperativeLines))
  }

  /** The "Présent" row, holding the présent form as it is, only when that form is truthy. */
  function PresentRow(data: Json): (r: seq<(string, Json)>)
    ensures Truthy(Get(data, "présent")) ==> r == [("Présent", Get(data, "présent").value)]
    ensures !Truthy(Get(data, "présent")) ==> r == []
  {
    var present := Get(data, "présent");
    if Truthy(present) then [("Présent", present.value)] else []
  }

  /** One row per entry of `passé`, each with its value or '-', when `passé` is truthy. */
  function PasseRows(data: Json): (r: seq<(string, Json)>)
    ensures Truthy(Get(data, "passé")) ==> r == FormRows(Get(data, "passé").value)
    ensures !Truthy(Get(data, "passé")) ==> r == []
  {
    if Truthy(Get(data, "passé")) then FormRows(Get(data, "passé").value) else []
  }

  /** `renderParticipeTable`: `null` for falsy data, else the présent row and then the passé rows. */
  function ParticipleTable(data: Json): (t: Table)
    ensures t.NoTable? <==> !Truthy(Some(data))
    ensures t.FormList? || t.NoTable?
    ensures t.FormList? ==> t.entries == PresentRow(data) + PasseRows(data)
  {
    if !Truthy(Some(data)) then NoTable else FormList(PresentRow(data) + PasseRows(data))
  }

  /** `renderSimpleTable`: one form/value row per entry, `null` for falsy data. */
  function SimpleTable(data: Json): (t: Table)
    ensures t.NoTable? <==> !Truthy(Some(data))
    ensures t.FormList? || t.NoTable?
    ensures t.FormList? ==> t.entries == FormRows(data)
  {
    if !Truthy(Some(data)) then NoTable else FormList(FormRows(data))
  }

  /** The modal body for `conjugationData`. */
  function Modal(conjugationData: Option<Json>): ModalBody
  {
    Body(conjugationData, TenseTable, ImperativeTable, ParticipleTable, SimpleTable)
  }

  /** A panel is only drawn for a shown mood, whose table is therefore never `null`. */
  lemma ShownPanelsDrawn(data: Json, key: string)
    requires ModeShown(data, key)
    ensures TenseTable(Get(data, key).value).TenseGrid?
    ensures ImperativeTable(Get(data, key).value).TenseGrid?
    ensures ParticipleTable(Get(data, key).value).FormList?
    ensures SimpleTable(Get(data, key).value).FormList?
  {
  }

  /** A tense mood that gives the placeholder for all six persons is drawn with no '-'. */
  lemma TenseTableFilled(mood: Json)
    requires TenseMood(mood, TenseLines, JStr(Placeholder))
    ensures TenseTable(mood).TenseGrid? && Filled(TenseTable(mood).rows, JStr(Placeholder))
  {
    GridFilled(mood, TenseLines, JStr(Placeholder));
  }

  /** The imperative, with the placeholder for tu, nous and vous, is drawn with no '-'. */
  lemma ImperativeTableFilled(mood: Json)
    requires TenseMood(mood, ImperativeLines, JStr(Placeholder))
    ensures ImperativeTable(mood).TenseGrid? && Filled(ImperativeTable(mood).rows, JStr(Placeholder))
  {
    GridFilled(mood, ImperativeLines, JStr(Placeholder));
  }

  /** A panel drawn as a grid whose every line shows the placeholder form. */
  predicate GridPanelFilled(p: Panel)
  {
    p.table.TenseGrid? && Filled(p.table.rows, JStr(Placeholder))
  }

  /** Panels drawn from four template-shaped tense moods are all filled. */
  lemma TensePanelsFilled(ps: seq<Panel>, indicative: Json, subjunctive: Json, conditional: Json, imperative: Json)
    requires |ps| >= 4
    requires ps[0].table == TenseTable(indicative) && ps[1].table == TenseTable(subjunctive)
    requires ps[2].table == TenseTable(conditional) && ps[3].table == ImperativeTable(imperative)
    requires TenseMood(indicative, TenseLines, JStr(Placeholder)) && TenseMood(subjunctive, TenseLines, JStr(Placeholder))
    requires TenseMood(conditional, TenseLines, JStr(Placeholder)) && TenseMood(imperative, ImperativeLines, JStr(Placeholder))
    ensures forall k :: 0 <= k < 4 ==> GridPanelFilled(ps[k])
  {
    TenseTableFilled(indicative);
    TenseTableFilled(subjunctive);
    TenseTableFilled(conditional);
    ImperativeTableFilled(imperative);
  }

  /**
   * A reply whose conjugation follows the template shows all seven tabs in
   * order, and every box of the four tense grids shows the placeholder form
   * for every person: no '-' anywhere.
   */
  lemma TemplateModal(data: Json)
    requires FollowsTemplate(data)
    ensures Modal(Some(data)).TabView?
    ensures Modal(Some(data)).tabs == Labels(Modes)
    ensures |Modal(Some(data)).panels| == 7
    ensures forall k :: 0 <= k < 4 ==> GridPanelFilled(Modal(Some(data)).panels[k])
  {
    TemplateTabs(data);
    TemplatePanels(data, TenseTable, ImperativeTable, ParticipleTable, SimpleTable);
    var ps := Panels(data, TenseTable, ImperativeTable, ParticipleTable, SimpleTable);
    TensePanelsFilled(ps, Get(data, MoodIndicative).value, Get(data, MoodSubjunctive).value,
      Get(data, MoodConditional).value, Get(data, MoodImperative).value);
  }
}
