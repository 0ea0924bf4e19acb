/**
 * The JavaScript values the front end and the API handlers pass around:
 * parsed JSON plus the few operators the code applies to them (property
 * access, truthiness, `typeof x === 'object'`, `Object.keys`,
 * `Object.entries`, `.length`).
 */
module JsValues {
  import opened Wrappers
  import Text

  /**
   * A JSON value. Objects keep their entries in insertion order. `JSON.parse`
   * keeps only the last of repeated keys, so the values the code works on
   * never hold a key twice; a `JObj` with a repeated key has no JavaScript
   * counterpart, and on one `Lookup` would take the first entry. A JSON
   * number is a float, held here as an integer: the code tests numbers for
   * truthiness, displays them and compares an object's own `length` with
   * 0 and 1, and none of that needs a fraction except a fractional `length`.
   */
  datatype Json =
    | JNull
    | JBool(b: bool)
    | JNum(n: int)
    | JStr(s: string)
    | JArr(items: seq<Json>)
    | JObj(fields: seq<(string, Json)>)

  /** `{ languages: [] }`, the fallback result used throughout the client. */
  const EmptyLanguages: Json := JObj([("languages", JArr([]))])

  /** The value of `fields[key]`: the first entry with that key. */
  function Lookup(fields: seq<(string, Json)>, key: string): (r: Option<Json>)
    ensures r.Some? <==> exists i :: 0 <= i < |fields| && fields[i].0 == key
    ensures r.Some? ==> exists i :: 0 <= i < |fields| && fields[i] == (key, r.value)
  {
    if |fields| == 0 then None
    else if fields[0].0 == key then Some(fields[0].1)
    else
      var r := Lookup(fields[1..], key);
      assert r.Some? ==> exists i :: 0 <= i < |fields| - 1 && fields[1..][i] == (key, r.value);
      r
  }

  /** The entry at index `i` is the one found when no earlier entry has its key. */
  lemma {:induction false} LookupAt(fields: seq<(string, Json)>, i: nat)
    requires i < |fields|
    requires forall j :: 0 <= j < i ==> fields[j].0 != fields[i].0
    ensures Lookup(fields, fields[i].0) == Some(fields[i].1)
  {
    if i > 0 {
      LookupAt(fields[1..], i - 1);
    }
  }

  /**
   * `v?.key`: property access. Values that are not objects have no such
   * property here (their `undefined` is `None`).
   */
  function Get(v: Json, key: string): Option<Json>
  {
    match v
    case JObj(fields) => Lookup(fields, key)
    case _ => None
  }

  /** `v?.[key]`: property access on a value that may itself be missing. */
  function Field(v: Option<Json>, key: string): Option<Json>
  {
    if v.Some? then Get(v.value, key) else None
  }

  /** A property is found only on an object holding an entry with that key, and its value is that entry's. */
  lemma GetFinds(v: Json, key: string)
    ensures Get(v, key).Some? <==> v.JObj? && exists i :: 0 <= i < |v.fields| && v.fields[i].0 == key
    ensures Get(v, key).Some? ==> exists i :: 0 <= i < |v.fields| && v.fields[i] == (key, Get(v, key).value)
  {
  }

  /** `?.` stops at a missing value, and otherwise reads the property. */
  lemma FieldShortCircuits(v: Option<Json>, key: string)
    ensures v.None? ==> Field(v, key).None?
    ensures v.Some? ==> Field(v, key) == Get(v.value, key)
  {
  }

  /** A JSON array of strings. */
  function StringList(items: seq<string>): (r: Json)
    ensures r.JArr? && |r.items| == |items|
    ensures forall i :: 0 <= i < |items| ==> r.items[i] == JStr(items[i])
  {
    JArr(seq(|items|, i requires 0 <= i < |items| => JStr(items[i])))
  }

  /** `!!v`: `undefined`, `null`, `false`, `0` and `""` are falsy. */
  predicate Truthy(v: Option<Json>)
  {
    match v
    case None => false
    case Some(JNull) => false
    case Some(JBool(b)) => b
    case Some(JNum(n)) => n != 0
    case Some(JStr(s)) => s != ""
    case Some(_) => true
  }

  /** `typeof v === 'object'`: true for objects, arrays and null. */
  predicate IsObjectType(v: Json)
  {
    v.JObj? || v.JArr? || v.JNull?
  }

  /** The falsy values are exactly `undefined`, `null`, `false`, `0` and `""`. */
  lemma FalsyValues(v: Option<Json>)
    ensures !Truthy(v) <==> v == None || v == Some(JNull) || v == Some(JBool(false)) || v == Some(JNum(0)) || v == Some(JStr(""))
  {
  }

  /** `typeof` says 'object' for every value that is not a boolean, a number or a string. */
  lemma ObjectTypeValues(v: Json)
    ensures IsObjectType(v) <==> !(v.JBool? || v.JNum? || v.JStr?)
  {
  }

  /** `v || fallback` */
  function OrElse(v: Option<Json>, fallback: Json): (r: Json)
    ensures Truthy(v) ==> Some(r) == v
    ensures !Truthy(v) ==> r == fallback
  {
    if Truthy(v) then v.value else fallback
  }

  /** The index keys "0", "1", ... of an array or string of length n. */
  function IndexKeys(n: nat): (r: seq<string>)
    ensures |r| == n
  {
    seq(n, i requires 0 <= i => Text.NatToString(i))
  }

  /**
   * `Object.entries(v)` for a value that does not throw: own enumerable
   * entries of objects, indexed entries of arrays and strings, nothing for
   * the other primitives.
   */
  function Entries(v: Json): (r: seq<(string, Json)>)
    ensures v.JObj? ==> r == v.fields
    ensures v.JArr? ==> |r| == |v.items|
    ensures v.JStr? ==> |r| == |v.s|
    ensures !v.JObj? && !v.JArr? && !v.JStr? ==> r == []
  {
    match v
    case JObj(fields) => fields
    case JArr(items) => seq(|items|, i requires 0 <= i < |items| => (Text.NatToString(i), items[i]))
    case JStr(s) => seq(|s|, i requires 0 <= i < |s| => (Text.NatToString(i), JStr([s[i]])))
    case _ => []
  }

  /** `Object.keys(v)` */
  function Keys(v: Json): (r: seq<string>)
    ensures |r| == |Entries(v)|
    ensures forall i :: 0 <= i < |r| ==> r[i] == Entries(v)[i].0
  {
    seq(|Entries(v)|, i requires 0 <= i < |Entries(v)| => Entries(v)[i].0)
  }

  /**
   * `v.length`: the size of an array, the UTF-16 length of a string, the own
   * `length` property of an object, and `undefined` on the other primitives.
   * Reading it on `null` throws; the callers test for `null` first.
   */
  function Length(v: Json): (r: Option<Json>)
    ensures v.JArr? ==> r == Some(JNum(|v.items|))
    ensures v.JStr? ==> r == Some(JNum(Text.Utf16Length(v.s))) && (v.s == [] <==> r == Some(JNum(0)))
    ensures v.JObj? ==> r == Lookup(v.fields, "length")
    ensures v.JNull? || v.JBool? || v.JNum? ==> r.None?
  {
    match v
    case JArr(items) => Some(JNum(|items|))
    case JStr(s) => Some(JNum(Text.Utf16Length(s)))
    case JObj(fields) => Lookup(fields, "length")
    case _ => None
  }

  /**
   * `Number(s)` on the strings handled here: surrounding whitespace is
   * dropped, nothing left reads as 0, and decimal digits with an optional
   * sign read as their value. Every other text is `NaN` (`None`).
   */
  function StringNumber(s: string): (r: Option<int>)
    ensures Text.Trim(s) == [] ==> r == Some(0)
    ensures r.Some? && Text.Trim(s) != [] ==> Text.IsDigit(Text.Trim(s)[|Text.Trim(s)| - 1])
  {
    var t := Text.Trim(s);
    if t == [] then Some(0)
    else if Text.AllDigits(t) then Some(Text.DigitsValue(t))
    else if |t| > 1 && t[0] == '+' && Text.AllDigits(t[1..]) then Some(Text.DigitsValue(t[1..]))
    else if |t| > 1 && t[0] == '-' && Text.AllDigits(t[1..]) then Some(-(Text.DigitsValue(t[1..]) as int))
    else None
  }

  /** A number printed in decimal, with or without a minus sign, reads back as itself. */
  lemma StringNumberOfDecimal(n: nat)
    ensures StringNumber(Text.NatToString(n)) == Some(n)
    ensures StringNumber("-" + Text.NatToString(n)) == Some(-(n as int))
  {
    var d := Text.NatToString(n);
    Text.DigitsValueOfNatToString(n);
    Text.TrimOfNonSpaceEnds(d);
    var m := "-" + d;
    assert m[1..] == d;
    Text.TrimOfNonSpaceEnds(m);
    assert !Text.AllDigits(m) by { assert !Text.IsDigit(m[0]); }
  }

  /**
   * `ToNumber(v)` as a comparison with a number applies it: objects turn
   * into `"[object Object]"` and arrays into their `join(",")`, so an
   * array reads as a number only when it has at most one element.
   */
  function ToNumber(v: Json): (r: Option<int>)
    decreases v, 0
    ensures v.JNum? ==> r == Some(v.n)
    ensures v.JObj? ==> r.None?
    ensures v.JArr? && |v.items| >= 2 ==> r.None?
  {
    match v
    case JNull => Some(0)
    case JBool(b) => Some(if b then 1 else 0)
    case JNum(n) => Some(n)
    case JStr(s) => StringNumber(s)
    case JArr(items) =>
      if |items| == 0 then Some(0)
      else if |items| == 1 then TextNumber(items[0])
      else None
    case JObj(_) => None
  }

  /** `Number(String(v))` for an array element: `null` prints as "", `true` as "true". */
  function TextNumber(v: Json): (r: Option<int>)
    decreases v, 1
    ensures v.JBool? || v.JObj? ==> r.None?
    ensures !v.JBool? ==> r == ToNumber(v)
  {
    match v
    case JNull => Some(0)
    case JBool(_) => None
    case JNum(n) => Some(n)
    case JStr(s) => StringNumber(s)
    case JArr(items) =>
      if |items| == 0 then Some(0)
      else if |items| == 1 then TextNumber(items[0])
      else None
    case JObj(_) => None
  }

  /** `x > k` for a number `k`: `undefined` and `NaN` compare false. */
  predicate GreaterThan(x: Option<Json>, k: int): (r: bool)
    ensures x.None? ==> !r
    ensures x.Some? && x.value.JNum? ==> (r <==> x.value.n > k)
    ensures x == Some(JNull) ==> (r <==> 0 > k)
    ensures x.Some? && x.value.JBool? ==> (r <==> (if x.value.b then 1 else 0) > k)
    ensures x.Some? && x.value.JStr? ==>
      (r <==> StringNumber(x.value.s).Some? && StringNumber(x.value.s).value > k)
    ensures x.Some? && x.value.JObj? ==> !r
    ensures x == Some(JArr([])) ==> (r <==> 0 > k)
    ensures x.Some? && x.value.JArr? && |x.value.items| == 1 ==>
      (r <==> TextNumber(x.value.items[0]).Some? && TextNumber(x.value.items[0]).value > k)
    ensures x.Some? && x.value.JArr? && |x.value.items| >= 2 ==> !r
  {
    x.Some? && ToNumber(x.value).Some? && ToNumber(x.value).value > k
  }

  /** `v.length > k` */
  predicate LongerThan(v: Json, k: nat): (r: bool)
    ensures v.JArr? ==> (r <==> |v.items| > k)
    ensures v.JStr? ==> (r <==> Text.Utf16Length(v.s) > k)
    ensures v.JObj? ==> (r <==> GreaterThan(Lookup(v.fields, "length"), k))
    ensures v.JNull? || v.JBool? || v.JNum? ==> !r
  {
    GreaterThan(Length(v), k)
  }

  /** An object with a numeric `length` property compares by that number. */
  lemma ObjectLengthCompares(fields: seq<(string, Json)>, n: int, k: nat)
    requires Lookup(fields, "length") == Some(JNum(n))
    ensures LongerThan(JObj(fields), k) <==> n > k
  {
  }

  /** An object without a `length` property is never longer than anything. */
  lemma ObjectWithoutLength(fields: seq<(string, Json)>, k: nat)
    requires forall i :: 0 <= i < |fields| ==> fields[i].0 != "length"
    ensures !LongerThan(JObj(fields), k)
  {
  }
}
