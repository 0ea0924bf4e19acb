/**
 * The rule the client uses in four places, and the handlers in their
 * logging, to list the examples of a meaning: keep the keys that start with
 * "example" and sort them by the number after that prefix
 * (`keys.filter(k => k.startsWith('example')).sort((a, b) => parseInt(..) - parseInt(..))`),
 * and the keys example1 .. exampleN that the prompts and the schema ask for.
 */
module ExampleKeys {
  import opened Text

  const Prefix: string := "example"

  /** "example" followed by the decimal numeral of `i`. */
  function ExampleKey(i: nat): string
  {
    Prefix + NatToString(i)
  }

  /** example1, example2, ..., exampleN */
  function ExampleKeyList(n: nat): seq<string>
  {
    seq(n, i requires 0 <= i => ExampleKey(i + 1))
  }

  predicate HasPrefix(k: string)
  {
    StartsWith(k, Prefix)
  }

  /** A key whose `parseInt` suffix is a number: "example" and one or more digits. */
  predicate Numbered(k: string)
  {
    HasPrefix(k) && |k| > |Prefix| && AllDigits(k[|Prefix|..])
  }

  /** Every key that passes the prefix filter can be ordered by its number. */
  predicate WellFormed(keys: seq<string>)
  {
    forall i :: 0 <= i < |keys| && HasPrefix(keys[i]) ==> Numbered(keys[i])
  }

  /** `parseInt(k.replace('example', ''))` */
  function Suffix(k: string): nat
    requires Numbered(k)
  {
    DigitsValue(k[|Prefix|..])
  }

  lemma SuffixOfExampleKey(i: nat)
    ensures Numbered(ExampleKey(i)) && Suffix(ExampleKey(i)) == i
  {
    assert ExampleKey(i)[|Prefix|..] == NatToString(i);
    DigitsValueOfNatToString(i);
  }

  /** Distinct numbers give distinct keys, so exampleN+1 is never among example1 .. exampleN. */
  lemma ExampleKeyListDistinct(n: nat)
    ensures forall i, j :: 0 <= i < j < n ==> ExampleKeyList(n)[i] != ExampleKeyList(n)[j]
    ensures ExampleKey(n + 1) !in ExampleKeyList(n)
  {
    forall i, j | 0 <= i < j < n ensures ExampleKeyList(n)[i] != ExampleKeyList(n)[j] {
      SuffixOfExampleKey(i + 1);
      SuffixOfExampleKey(j + 1);
    }
    forall i | 0 <= i < n ensures ExampleKeyList(n)[i] != ExampleKey(n + 1) {
      SuffixOfExampleKey(i + 1);
      SuffixOfExampleKey(n + 1);
    }
  }

  /** `keys.filter(k => k.startsWith('example'))` */
  function FilterPrefixed(keys: seq<string>): (r: seq<string>)
    ensures forall k :: k in r <==> k in keys && HasPrefix(k)
    ensures multiset(r) <= multiset(keys)
    ensures |r| <= |keys|
  {
    if keys == [] then []
    else
      var rest := FilterPrefixed(keys[1..]);
      assert keys == [keys[0]] + keys[1..];
      if HasPrefix(keys[0]) then [keys[0]] + rest else rest
  }

  predicate AllNumbered(ks: seq<string>)
  {
    forall i :: 0 <= i < |ks| ==> Numbered(ks[i])
  }

  lemma FilterPrefixedNumbered(keys: seq<string>)
    requires WellFormed(keys)
    ensures AllNumbered(FilterPrefixed(keys))
  {
    var r := FilterPrefixed(keys);
    forall i | 0 <= i < |r| ensures Numbered(r[i]) {
      assert r[i] in keys;
      var j :| 0 <= j < |keys| && keys[j] == r[i];
    }
  }

  predicate SortedBySuffix(ks: seq<string>)
    requires AllNumbered(ks)
  {
    forall i, j :: 0 <= i < j < |ks| ==> Suffix(ks[i]) <= Suffix(ks[j])
  }

  /** Inserts `k` before the first key with a number at least its own (so the sort is stable). */
  function Insert(k: string, ks: seq<string>): (r: seq<string>)
    requires Numbered(k) && AllNumbered(ks) && SortedBySuffix(ks)
    ensures AllNumbered(r) && SortedBySuffix(r)
    ensures multiset(r) == multiset(ks) + multiset{k}
  {
    if ks == [] || Suffix(k) <= Suffix(ks[0]) then
      ConsSorted(k, ks);
      [k] + ks
    else
      var rest := Insert(k, ks[1..]);
      InsertHeadBound(k, ks, rest);
      ConsSorted(ks[0], rest);
      ConsMultiset(ks, rest, k);
      [ks[0]] + rest
  }

  /** A key whose number is at most the first of a sorted list keeps it sorted in front. */
  lemma ConsSorted(x: string, ks: seq<string>)
    requires Numbered(x) && AllNumbered(ks) && SortedBySuffix(ks)
    requires ks == [] || Suffix(x) <= Suffix(ks[0])
    ensures AllNumbered([x] + ks) && SortedBySuffix([x] + ks)
  {
    var r := [x] + ks;
    assert forall i :: 1 <= i < |r| ==> r[i] == ks[i - 1];
  }

  lemma ConsMultiset(ks: seq<string>, rest: seq<string>, k: string)
    requires |ks| > 0 && multiset(rest) == multiset(ks[1..]) + multiset{k}
    ensures multiset([ks[0]] + rest) == multiset(ks) + multiset{k}
  {
    assert ks == [ks[0]] + ks[1..];
  }

  lemma InsertHeadBound(k: string, ks: seq<string>, rest: seq<string>)
    requires Numbered(k) && AllNumbered(ks) && AllNumbered(rest) && SortedBySuffix(ks)
    requires |ks| > 0 && Suffix(ks[0]) < Suffix(k)
    requires multiset(rest) == multiset(ks[1..]) + multiset{k}
    ensures forall i :: 0 <= i < |rest| ==> Suffix(ks[0]) <= Suffix(rest[i])
  {
    forall i | 0 <= i < |rest| ensures Suffix(ks[0]) <= Suffix(rest[i]) {
      assert rest[i] in multiset(rest);
      if rest[i] != k {
        assert rest[i] in multiset(ks[1..]);
        var j :| 0 <= j < |ks[1..]| && ks[1..][j] == rest[i];
        assert ks[j + 1] == rest[i];
      }
    }
  }

  /** `Array.prototype.sort` with the numeric-suffix comparator (a stable sort). */
  function SortBySuffix(ks: seq<string>): (r: seq<string>)
    requires AllNumbered(ks)
    ensures AllNumbered(r) && SortedBySuffix(r)
    ensures multiset(r) == multiset(ks)
  {
    if ks == [] then []
    else
      assert ks == [ks[0]] + ks[1..];
      Insert(ks[0], SortBySuffix(ks[1..]))
  }

  /**
   * The example keys of an object in the order they are shown: exactly the
   * keys with the "example" prefix, each as often as it occurs, in ascending
   * numeric order.
   */
  function OrderedExampleKeys(keys: seq<string>): (r: seq<string>)
    requires WellFormed(keys)
    ensures forall k :: k in r <==> k in keys && HasPrefix(k)
    ensures multiset(r) == multiset(FilterPrefixed(keys))
    ensures AllNumbered(r) && SortedBySuffix(r)
  {
    FilterPrefixedNumbered(keys);
    var r := SortBySuffix(FilterPrefixed(keys));
    assert forall k :: k in r <==> k in multiset(r);
    r
  }

  /** The keys numbered `n`, in their order in `ks`. */
  function WithSuffix(ks: seq<string>, n: nat): (r: seq<string>)
    ensures forall i :: 0 <= i < |r| ==> r[i] in ks && Numbered(r[i]) && Suffix(r[i]) == n
  {
    if ks == [] then []
    else if Numbered(ks[0]) && Suffix(ks[0]) == n then [ks[0]] + WithSuffix(ks[1..], n)
    else WithSuffix(ks[1..], n)
  }

  /** Inserting a key puts it in front of the keys that tie with it. */
  lemma {:induction false} InsertStable(k: string, ks: seq<string>, n: nat)
    requires Numbered(k) && AllNumbered(ks) && SortedBySuffix(ks)
    ensures WithSuffix(Insert(k, ks), n) == (if Suffix(k) == n then [k] else []) + WithSuffix(ks, n)
  {
    if ks != [] && Suffix(k) > Suffix(ks[0]) {
      InsertStable(k, ks[1..], n);
      var r := Insert(k, ks);
      assert r[0] == ks[0] && r[1..] == Insert(k, ks[1..]);
    }
  }

  /** The sort is stable: keys with the same number keep their input order. */
  lemma {:induction false} SortStable(ks: seq<string>, n: nat)
    requires AllNumbered(ks)
    ensures WithSuffix(SortBySuffix(ks), n) == WithSuffix(ks, n)
  {
    if ks != [] {
      SortStable(ks[1..], n);
      InsertStable(ks[0], SortBySuffix(ks[1..]), n);
    }
  }

  /** Tied example keys, such as "example1" and "example01", are listed in the order the object holds them. */
  lemma OrderedExampleKeysStable(keys: seq<string>, n: nat)
    requires WellFormed(keys)
    ensures WithSuffix(OrderedExampleKeys(keys), n) == WithSuffix(FilterPrefixed(keys), n)
  {
    FilterPrefixedNumbered(keys);
    SortStable(FilterPrefixed(keys), n);
  }

  /** "example1" and "example01" have the same number. */
  lemma LeadingZeroTies()
    ensures Numbered("example1") && Numbered("example01") && Suffix("example1") == Suffix("example01")
  {
    assert "example1"[|Prefix|..] == "1";
    assert "example01"[|Prefix|..] == "01";
    assert "01"[..1] == "0" && "0"[..0] == "" && "1"[..0] == "";
    assert DigitsValue("0") == 0;
    assert DigitsValue("01") == 1 == DigitsValue("1");
  }

  /** The numbers of the keys tell them apart. */
  predicate SuffixInjective(ks: seq<string>)
    requires AllNumbered(ks)
  {
    forall i, j :: 0 <= i < |ks| && 0 <= j < |ks| && Suffix(ks[i]) == Suffix(ks[j]) ==> ks[i] == ks[j]
  }

  /** The tail of a sorted list is sorted, and its head has the smallest number. */
  lemma SortedTail(s: seq<string>)
    requires |s| > 0 && AllNumbered(s) && SortedBySuffix(s)
    ensures AllNumbered(s[1..]) && SortedBySuffix(s[1..])
    ensures forall x :: x in multiset(s) ==> Numbered(x) && Suffix(s[0]) <= Suffix(x)
  {
    forall x | x in multiset(s) ensures Numbered(x) && Suffix(s[0]) <= Suffix(x) {
      var i :| 0 <= i < |s| && s[i] == x;
    }
    forall i, j | 0 <= i < j < |s[1..]| ensures Suffix(s[1..][i]) <= Suffix(s[1..][j]) {
      assert s[1..][i] == s[i + 1] && s[1..][j] == s[j + 1];
    }
  }

  /** Two sorted arrangements of the same keys with distinct numbers are equal. */
  lemma {:induction false} SortedArrangementUnique(s: seq<string>, t: seq<string>)
    requires AllNumbered(s) && AllNumbered(t) && SortedBySuffix(s) && SortedBySuffix(t)
    requires multiset(s) == multiset(t)
    requires SuffixInjective(s)
    ensures s == t
  {
    if s == [] {
      assert |t| == |multiset(t)| == 0;
    } else {
      assert |t| == |multiset(t)| == |s| > 0;
      SortedTail(s);
      SortedTail(t);
      assert Suffix(t[0]) <= Suffix(s[0]) <= Suffix(t[0]) by {
        assert s[0] in multiset(t) && t[0] in multiset(s);
      }
      var i :| 0 <= i < |s| && s[i] == t[0];
      assert t[0] == s[0];
      HeadsEqualTails(s, t);
      assert SuffixInjective(s[1..]) by {
        forall a, b | 0 <= a < |s[1..]| && 0 <= b < |s[1..]| && Suffix(s[1..][a]) == Suffix(s[1..][b])
          ensures s[1..][a] == s[1..][b]
        {
          assert s[1..][a] == s[a + 1] && s[1..][b] == s[b + 1];
        }
      }
      SortedArrangementUnique(s[1..], t[1..]);
    }
  }

  lemma HeadsEqualTails(s: seq<string>, t: seq<string>)
    requires |s| > 0 && |t| > 0 && s[0] == t[0] && multiset(s) == multiset(t)
    ensures multiset(s[1..]) == multiset(t[1..])
    ensures s == [s[0]] + s[1..] && t == [t[0]] + t[1..]
  {
    assert s == [s[0]] + s[1..] && t == [t[0]] + t[1..];
    assert multiset(s) == multiset{s[0]} + multiset(s[1..]);
    assert multiset(t) == multiset{t[0]} + multiset(t[1..]);
    forall x ensures multiset(s[1..])[x] == multiset(t[1..])[x] {
      assert multiset(s)[x] == multiset{s[0]}[x] + multiset(s[1..])[x];
      assert multiset(t)[x] == multiset{t[0]}[x] + multiset(t[1..])[x];
    }
  }

  lemma ExampleKeyListNumbered(n: nat)
    ensures AllNumbered(ExampleKeyList(n)) && SortedBySuffix(ExampleKeyList(n)) && SuffixInjective(ExampleKeyList(n))
  {
    var ks := ExampleKeyList(n);
    forall i | 0 <= i < n ensures Numbered(ks[i]) && Suffix(ks[i]) == i + 1 {
      SuffixOfExampleKey(i + 1);
    }
  }

  /**
   * Whatever order an object lists example1 .. exampleN in, and whatever other
   * keys (without the prefix) it has, the examples are shown as example1, ..., exampleN.
   */
  lemma {:induction false} ExamplesShownInOrder(keys: seq<string>, n: nat)
    requires multiset(FilterPrefixed(keys)) == multiset(ExampleKeyList(n))
    ensures WellFormed(keys)
    ensures OrderedExampleKeys(keys) == ExampleKeyList(n)
  {
    ExampleKeyListNumbered(n);
    forall i | 0 <= i < |keys| && HasPrefix(keys[i]) ensures Numbered(keys[i]) {
      assert keys[i] in FilterPrefixed(keys);
      assert keys[i] in multiset(ExampleKeyList(n));
    }
    var r := OrderedExampleKeys(keys);
    SortedArrangementUnique(ExampleKeyList(n), r);
  }
}
