/**
 * `IdiomModal`: the idioms of a reply, one box per idiom in entry order
 * with its meaning and, when it has any, its examples in numeric order.
 */
module IdiomModal {
  import opened Wrappers
  import opened JsValues
  import opened ExampleKeys
  import opened MeaningView

  /** One idiom's box: the idiom as heading, `meaning.meaning`, and the example list if rendered. */
  datatype IdiomBox = IdiomBox(heading: string, text: Option<Json>, examples: Option<ExampleList>)

  /** The modal body: the no-idioms text, the boxes, or the `TypeError` a `null` meaning throws. */
  datatype IdiomBody = NoIdioms | IdiomBoxes(boxes: seq<IdiomBox>) | IdiomThrows

  const NoIdiomsMessage: string := "No idioms available."

  /** The box of one `[idiom, meaning]` entry, or `None` when `meaning.meaning` throws. */
  function IdiomBoxOf(entry: (string, Json)): (r: Option<IdiomBox>)
    ensures r.None? <==> entry.1.JNull?
    ensures r.Some? ==> r.value.heading == entry.0 && r.value.text == Get(entry.1, "meaning")
    ensures r.Some? ==> (r.value.examples.Some? <==> Truthy(Get(entry.1, "examples")))
    ensures r.Some? && r.value.examples.Some? ==> r.value.examples.value == ExampleListOf(Get(entry.1, "examples").value)
  {
    if entry.1.JNull? then None
    else
      var examples := Get(entry.1, "examples");
      Some(IdiomBox(entry.0, Get(entry.1, "meaning"),
        if Truthy(examples) then Some(ExampleListOf(examples.value)) else None))
  }

  /** `idioms && Object.keys(idioms).length > 0 ? entries.map(box) : "No idioms available."` */
  function Body(idioms: Option<Json>): (r: IdiomBody)
    ensures r.NoIdioms? <==> !Truthy(idioms) || |Keys(idioms.value)| == 0
    ensures r.IdiomThrows? <==>
      Truthy(idioms) && |Keys(idioms.value)| > 0 &&
      exists i :: 0 <= i < |Entries(idioms.value)| && Entries(idioms.value)[i].1.JNull?
    ensures r.IdiomBoxes? ==> |r.boxes| == |Entries(idioms.value)| > 0
    ensures r.IdiomBoxes? ==> forall i :: 0 <= i < |r.boxes| ==> Some(r.boxes[i]) == IdiomBoxOf(Entries(idioms.value)[i])
  {
    if !Truthy(idioms) || |Keys(idioms.value)| == 0 then NoIdioms
    else
      var es := Entries(idioms.value);
      if exists i :: 0 <= i < |es| && es[i].1.JNull? then IdiomThrows
      else IdiomBoxes(seq(|es|, i requires 0 <= i < |es| => IdiomBoxOf(es[i]).value))
  }

  /** The boxes follow the entries: box i has the i-th idiom as heading and its meaning as text. */
  lemma BoxesFollowEntries(idioms: Json, i: nat)
    requires Body(Some(idioms)).IdiomBoxes? && i < |Body(Some(idioms)).boxes|
    ensures Body(Some(idioms)).boxes[i].heading == Keys(idioms)[i]
    ensures Body(Some(idioms)).boxes[i].text == Get(Entries(idioms)[i].1, "meaning")
  {
  }

  /**
   * An idiom whose examples are example1 .. exampleN, in any order, lists
   * them as example1, ..., exampleN.
   */
  lemma IdiomExamplesInOrder(entry: (string, Json), n: nat)
    requires entry.1.JObj? && Truthy(Get(entry.1, "examples"))
    requires multiset(FilterPrefixed(Keys(Get(entry.1, "examples").value))) == multiset(ExampleKeyList(n))
    ensures IdiomBoxOf(entry).Some? && IdiomBoxOf(entry).value.examples.Some?
    ensures IdiomBoxOf(entry).value.examples.value.Listed?
    ensures |IdiomBoxOf(entry).value.examples.value.values| == n
    ensures forall i :: 0 <= i < n ==>
      IdiomBoxOf(entry).value.examples.value.values[i] == Get(Get(entry.1, "examples").value, ExampleKey(i + 1))
  {
    ExamplesListedInOrder(Get(entry.1, "examples").value, n);
  }
}
