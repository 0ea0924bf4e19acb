/**
 * Text shared by the two prompt builders: the list of target languages and
 * the numbered example fields of the requested JSON shape.
 */
module PromptText {
  import opened Text
  import opened ExampleKeys

  /**
   * `languages.length > 1 ? languages.slice(0, -1).join(", ") + " and " + last : languages[0]`.
   * An empty list reads `languages[0]`, which is `undefined` and is
   * interpolated into the prompt as the word "undefined".
   */
  function LanguageList(languages: seq<string>): string
  {
    if |languages| > 1 then
      Join(languages[..|languages| - 1], ", ") + " and " + languages[|languages| - 1]
    else if |languages| == 1 then languages[0]
    else "undefined"
  }

  lemma LanguageListSmall(a: string, b: string)
    ensures LanguageList([]) == "undefined"
    ensures LanguageList([a]) == a
    ensures LanguageList([a, b]) == a + " and " + b
  {
    assert [a, b][..1] == [a];
  }

  /**
   * Adding a language turns the previous " and " into ", " and puts
   * " and " before the new last name: "A and B" becomes "A, B and C" (no
   * comma before "and").
   */
  lemma {:induction false} LanguageListGrow(names: seq<string>, y: string, z: string)
    requires |names| >= 1
    ensures LanguageList(names + [y]) == Join(names, ", ") + " and " + y
    ensures LanguageList(names + [y, z]) == Join(names, ", ") + ", " + y + " and " + z
  {
    assert (names + [y])[..|names|] == names;
    assert (names + [y, z])[..|names| + 1] == names + [y];
    JoinAppend(names, ", ", y);
  }

  /** Three languages: "French, Italian and English". */
  lemma LanguageListThree(a: string, b: string, c: string)
    ensures LanguageList([a, b, c]) == a + ", " + b + " and " + c
  {
    LanguageListGrow([a], b, c);
    assert [a] + [b, c] == [a, b, c];
    assert Join([a], ", ") == a;
  }

  /** `"example{i}": "example sentence {i}"` */
  function ExampleEntry(i: nat): string
  {
    "\"" + ExampleKey(i) + "\": \"example sentence " + NatToString(i) + "\""
  }

  /** `Array.from({ length: n }, (_, i) => entry(i + 1))` */
  function ExampleEntries(n: nat): seq<string>
  {
    seq(n, i requires 0 <= i => ExampleEntry(i + 1))
  }

  /** The separator `',\n          '` of the example lines. */
  const ExampleSeparator: string := ",\n          "

  /** The example lines of both prompts. */
  function ExampleSection(n: nat): string
  {
    Join(ExampleEntries(n), ExampleSeparator)
  }

  /** An entry starts with its quoted key and a colon. */
  lemma EntryStartsWithKey(i: nat)
    ensures StartsWith(ExampleEntry(i), "\"" + ExampleKey(i) + "\": ")
  {
    var p := "\"" + ExampleKey(i) + "\": ";
    var rest := "\"example sentence " + NatToString(i) + "\"";
    PrefixOfAppend(p, rest);
    assert ExampleEntry(i) == p + rest;
  }

  /**
   * The example lines name exactly the keys example1 .. exampleN, each once,
   * in this order, and never exampleN+1; with no examples the section is empty.
   */
  lemma ExampleSectionKeys(n: nat)
    ensures |ExampleEntries(n)| == n
    ensures forall i :: 0 <= i < n ==>
      StartsWith(ExampleEntries(n)[i], "\"" + ExampleKeyList(n)[i] + "\": ")
    ensures forall i, j :: 0 <= i < j < n ==> ExampleKeyList(n)[i] != ExampleKeyList(n)[j]
    ensures ExampleKey(n + 1) !in ExampleKeyList(n)
    ensures n == 0 ==> ExampleSection(n) == ""
  {
    ExampleKeyListDistinct(n);
    forall i | 0 <= i < n
      ensures StartsWith(ExampleEntries(n)[i], "\"" + ExampleKeyList(n)[i] + "\": ")
    {
      EntryStartsWithKey(i + 1);
    }
  }

  /** One more example adds one separator and the next entry at the end. */
  lemma ExampleSectionGrow(n: nat)
    requires n >= 1
    ensures ExampleSection(n + 1) == ExampleSection(n) + ExampleSeparator + ExampleEntry(n + 1)
  {
    assert ExampleEntries(n + 1) == ExampleEntries(n) + [ExampleEntry(n + 1)];
    JoinAppend(ExampleEntries(n), ExampleSeparator, ExampleEntry(n + 1));
  }
}
