/**
 * `getColorByName`: the colour of a language in a list of language
 * options, found by exact name, with a default for unknown names.
 */
module Palette {
  import opened Wrappers

  /** One entry of a language option list. */
  datatype LanguageOption = LanguageOption(name: string, shortLabel: Option<string>, color: string)

  const DefaultColor: string := "#5243AA"

  /** `options.findIndex(o => o.name === name)`, with `None` for -1. */
  function FirstNamed(options: seq<LanguageOption>, name: string): (r: Option<nat>)
    ensures r.Some? ==> r.value < |options| && options[r.value].name == name
    ensures r.Some? ==> forall j :: 0 <= j < r.value ==> options[j].name != name
    ensures r.None? ==> forall j :: 0 <= j < |options| ==> options[j].name != name
  {
    if options == [] then None
    else if options[0].name == name then Some(0)
    else
      var r := FirstNamed(options[1..], name);
      assert forall j :: 1 <= j < |options| ==> options[j] == options[1..][j - 1];
      if r.Some? then Some(r.value + 1) else None
  }

  /** `options.find(o => o.name === name)?.color || DefaultColor` */
  function ColorIn(options: seq<LanguageOption>, name: string): (r: string)
    ensures FirstNamed(options, name).Some? && options[FirstNamed(options, name).value].color != "" ==>
      r == options[FirstNamed(options, name).value].color
    ensures FirstNamed(options, name).None? ==> r == DefaultColor
    ensures r != ""
  {
    match FirstNamed(options, name)
    case Some(i) => if options[i].color != "" then options[i].color else DefaultColor
    case None => DefaultColor
  }

  /** In a list with distinct names, each listed language gets its own colour. */
  lemma ColorOfListed(options: seq<LanguageOption>, i: nat)
    requires i < |options| && options[i].color != ""
    requires forall j :: 0 <= j < i ==> options[j].name != options[i].name
    ensures ColorIn(options, options[i].name) == options[i].color
  {
  }
}
