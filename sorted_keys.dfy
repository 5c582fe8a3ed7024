/** `Dictionary.keysSortedByValue`: a dictionary's keys ordered by their values under a caller's comparator. */
module SortedKeys {

  /** The comparator is irreflexive and transitive, as the sort it is handed to demands of a strict weak order. */
  ghost predicate StrictOrder<V(!new)>(before: (V, V) -> bool) {
    && (forall a :: !before(a, a))
    && (forall a, b, c :: before(a, b) && before(b, c) ==> before(a, c))
  }

  /** No key is listed after one whose value it is ordered before. */
  ghost predicate SortedByValue<K, V(!new)>(keys: seq<K>, m: map<K, V>, before: (V, V) -> bool)
    requires forall k :: k in keys ==> k in m
  {
    forall i, j :: 0 <= i < j < |keys| ==> !before(m[keys[j]], m[keys[i]])
  }

  /** Inserts `k` in front of the first key whose value `k`'s value is ordered before. */
  ghost function InsertByValue<K, V(!new)>(k: K, keys: seq<K>, m: map<K, V>, before: (V, V) -> bool): (r: seq<K>)
    requires k in m && forall x :: x in keys ==> x in m
    requires StrictOrder(before) && SortedByValue(keys, m, before)
    ensures multiset(r) == multiset(keys) + multiset{k}
    ensures forall x :: x in r ==> x in m
    ensures SortedByValue(r, m, before)
  {
    if keys == [] then [k]
    else if before(m[k], m[keys[0]]) then [k] + keys
    else
      var rest := InsertByValue(k, keys[1..], m, before);
      assert keys == [keys[0]] + keys[1..];
      var r := [keys[0]] + rest;
      assert forall j :: 0 < j < |r| ==> r[j] in rest && r[j] in multiset(keys[1..]) + multiset{k};
      r
  }

  /** The keys of `ks`, sorted by their values in `m`. */
  ghost function SortKeys<K, V(!new)>(ks: set<K>, m: map<K, V>, before: (V, V) -> bool): (r: seq<K>)
    requires ks <= m.Keys && StrictOrder(before)
    ensures multiset(r) == multiset(ks)
    ensures forall x :: x in r ==> x in m
    ensures SortedByValue(r, m, before)
    decreases ks
  {
    if ks == {} then []
    else
      var k :| k in ks;
      var rest := SortKeys(ks - {k}, m, before);
      assert multiset(ks - {k}) + multiset{k} == multiset(ks);
      InsertByValue(k, rest, m, before)
  }

  /**
   * Every key of `m` exactly once, sorted by value. Which of two keys with unordered values
   * comes first is left open, as the source's enumeration order and unstable sort leave it.
   */
  ghost function KeysSortedByValue<K, V(!new)>(m: map<K, V>, before: (V, V) -> bool): (r: seq<K>)
    requires StrictOrder(before)
    ensures multiset(r) == multiset(m.Keys)
    ensures forall x :: x in r ==> x in m
    ensures SortedByValue(r, m, before)
  {
    SortKeys(m.Keys, m, before)
  }

  /** The sorted keys list every key once, so there are exactly as many as the dictionary has entries. */
  lemma KeysSortedByValueListsEachKeyOnce<K, V(!new)>(m: map<K, V>, before: (V, V) -> bool)
    requires StrictOrder(before)
    ensures |KeysSortedByValue(m, before)| == |m|
    ensures forall i, j :: 0 <= i < j < |KeysSortedByValue(m, before)| ==>
      KeysSortedByValue(m, before)[i] != KeysSortedByValue(m, before)[j]
  {
    var r := KeysSortedByValue(m, before);
    assert |multiset(r)| == |multiset(m.Keys)| == |m.Keys|;
    forall i, j | 0 <= i < j < |r| ensures r[i] != r[j] {
      assert r == r[..i] + [r[i]] + r[i + 1..j] + [r[j]] + r[j + 1..];
      assert multiset(r)[r[i]] <= 1;
    }
  }
}
