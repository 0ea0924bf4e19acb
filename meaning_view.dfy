/**
 * How a language card lists the meanings of a translation: one box per
 * meaning with its type, its value and its examples, the examples in the
 * order of their numbers; the "No data available yet." text when there is
 * nothing to list.
 */
module MeaningView {
  import opened Wrappers
  import opened JsValues
  import opened ExampleKeys

  /**
   * The examples as listed: `obj[key]` for each example key in numeric
   * order, or `EngineOrder` when the suffix of some "example" key is not
   * all digits. That covers the suffixes `parseInt` reads as `NaN` ("",
   * "A"), whose order is up to the engine's sort, and also the suffixes
   * that start with a number ("1a", "-1", " 2"), which the comparator
   * sorts in a fixed order that the model does not predict.
   */
  datatype ExampleList = Listed(values: seq<Option<Json>>) | EngineOrder

  /** One meaning's box: `meaning.type`, `meaning.value` and the example list. */
  datatype MeaningBox = MeaningBox(kind: Option<Json>, value: Option<Json>, examples: ExampleList)

  /** A card body: the no-data text, the boxes in order, or the `TypeError` the render throws. */
  datatype MeaningsBody = NoData | Boxes(boxes: seq<MeaningBox>) | RenderThrows

  const NoDataMessage: string := "No data available yet."

  /** `ks.map(key => obj[key])` */
  function ValuesAt(obj: Json, ks: seq<string>): (r: seq<Option<Json>>)
    ensures |r| == |ks| && forall i :: 0 <= i < |ks| ==> r[i] == Get(obj, ks[i])
  {
    seq(|ks|, i requires 0 <= i < |ks| => Get(obj, ks[i]))
  }

  /** The example list of `Object.keys(obj).filter(..).sort(..).map(key => obj[key])`. */
  function ExampleListOf(obj: Json): (r: ExampleList)
    ensures r.EngineOrder? <==> !WellFormed(Keys(obj))
    ensures r.Listed? ==> r.values == ValuesAt(obj, OrderedExampleKeys(Keys(obj)))
  {
    if WellFormed(Keys(obj)) then Listed(ValuesAt(obj, OrderedExampleKeys(Keys(obj)))) else EngineOrder
  }

  /**
   * Whatever order an object lists example1 .. exampleN in, and whatever
   * other keys it has, its examples are listed as example1, ..., exampleN.
   */
  lemma ExamplesListedInOrder(obj: Json, n: nat)
    requires multiset(FilterPrefixed(Keys(obj))) == multiset(ExampleKeyList(n))
    ensures ExampleListOf(obj).Listed?
    ensures |ExampleListOf(obj).values| == n
    ensures forall i :: 0 <= i < n ==> ExampleListOf(obj).values[i] == Get(obj, ExampleKey(i + 1))
  {
    ExamplesShownInOrder(Keys(obj), n);
    ValuesAtExampleKeys(obj, n);
  }

  /** The values at example1 .. exampleN. */
  lemma ValuesAtExampleKeys(obj: Json, n: nat)
    ensures |ValuesAt(obj, ExampleKeyList(n))| == n
    ensures forall i :: 0 <= i < n ==> ValuesAt(obj, ExampleKeyList(n))[i] == Get(obj, ExampleKey(i + 1))
  {
  }

  /** On an object every listed example is present: each key listed is one of its keys. */
  lemma ListedExamplesPresent(obj: Json)
    requires obj.JObj? && ExampleListOf(obj).Listed?
    ensures forall i :: 0 <= i < |ExampleListOf(obj).values| ==> ExampleListOf(obj).values[i].Some?
  {
    var ks := OrderedExampleKeys(Keys(obj));
    forall i | 0 <= i < |ks| ensures Get(obj, ks[i]).Some? {
      assert ks[i] in Keys(obj);
      var j :| 0 <= j < |Keys(obj)| && Keys(obj)[j] == ks[i];
      assert obj.fields[j].0 == ks[i];
    }
  }

  /** The box of one meaning; `meaning.type` throws on `null`. */
  function BoxOf(meaning: Json): (r: Option<MeaningBox>)
    ensures r.None? <==> meaning.JNull?
    ensures r.Some? ==> r.value.kind == Get(meaning, "type") && r.value.value == Get(meaning, "value")
    ensures r.Some? ==> r.value.examples == ExampleListOf(meaning)
  {
    if meaning.JNull? then None
    else Some(MeaningBox(Get(meaning, "type"), Get(meaning, "value"), ExampleListOf(meaning)))
  }

  /**
   * `meanings.length > 0 ? meanings.map(box) : "No data available yet."`:
   * reading `length` of `null` throws; a string, or an object whose own
   * `length` compares above 0, passes the test but has no `map`; and a
   * `null` meaning throws in `box`.
   */
  function BodyOf(meanings: Json): (r: MeaningsBody)
    ensures r.NoData? <==> !meanings.JNull? && !LongerThan(meanings, 0)
    ensures r.RenderThrows? <==>
      || meanings.JNull?
      || (LongerThan(meanings, 0) && !meanings.JArr?)
      || (meanings.JArr? && exists i :: 0 <= i < |meanings.items| && meanings.items[i].JNull?)
    ensures r.Boxes? ==> meanings.JArr? && |r.boxes| == |meanings.items| > 0
    ensures r.Boxes? ==> forall i :: 0 <= i < |r.boxes| ==> Some(r.boxes[i]) == BoxOf(meanings.items[i])
  {
    if meanings.JNull? then RenderThrows
    else if !LongerThan(meanings, 0) then NoData
    else if !meanings.JArr? then RenderThrows
    else if exists i :: 0 <= i < |meanings.items| && meanings.items[i].JNull? then RenderThrows
    else Boxes(seq(|meanings.items|, i requires 0 <= i < |meanings.items| => BoxOf(meanings.items[i]).value))
  }

  /** "No data available yet." is shown exactly when there is no meaning to list. */
  lemma NoDataIffEmpty(meanings: seq<Json>)
    ensures BodyOf(JArr(meanings)).NoData? <==> meanings == []
  {
  }

  /**
   * An object meaning is drawn as no data unless its own `length` compares
   * above 0, and then the render throws at `map`.
   */
  lemma ObjectMeanings(fields: seq<(string, Json)>)
    ensures BodyOf(JObj(fields)) == (if GreaterThan(Lookup(fields, "length"), 0) then RenderThrows else NoData)
  {
  }

  /** `{ "length": 2 }` passes the length test and throws. */
  lemma LengthTwoObjectThrows(meanings: Json)
    requires meanings == JObj([("length", JNum(2))])
    ensures BodyOf(meanings) == RenderThrows
  {
  }
}
