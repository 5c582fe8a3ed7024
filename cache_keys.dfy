/** The key both cache tiers use: the caller's base key qualified by an optional identifier. */
module CacheKeys {

  const Separator: char := '@'

  /** `String.computedKey(with:)`: the key unchanged for an empty identifier, else `key@identifier`. */
  function ComputedKey(key: string, identifier: string): (r: string)
    ensures identifier == [] <==> r == key
    ensures key <= r
    ensures identifier != [] ==> r[|key|] == Separator && r[|key| + 1..] == identifier
  {
    if identifier == [] then key else key + [Separator] + identifier
  }

  /**
   * Splits a computed key at its first separator: the part before it and the part after it
   * (or the whole key and an empty identifier when there is no separator).
   */
  function ParseComputedKey(computed: string): (r: (string, string))
    ensures Separator !in r.0
    ensures Separator !in computed <==> computed == r.0 && r.1 == []
    ensures Separator in computed ==> computed == r.0 + [Separator] + r.1
  {
    if computed == [] then ([], [])
    else if computed[0] == Separator then ([], computed[1..])
    else
      var rest := ParseComputedKey(computed[1..]);
      assert computed == [computed[0]] + computed[1..];
      ([computed[0]] + rest.0, rest.1)
  }

  /** For a base key without a separator, the computed key determines both parts. */
  lemma {:induction false} ParseComputedKeyInverts(key: string, identifier: string)
    requires Separator !in key
    ensures ParseComputedKey(ComputedKey(key, identifier)) == (key, identifier)
  {
    var computed := ComputedKey(key, identifier);
    if key != [] {
      var rest := ComputedKey(key[1..], identifier);
      assert computed[0] == key[0] && computed[1..] == rest;
      ParseComputedKeyInverts(key[1..], identifier);
      assert ParseComputedKey(computed) == ([key[0]] + key[1..], identifier);
      assert [key[0]] + key[1..] == key;
    } else if identifier != [] {
      assert computed[0] == Separator && computed[1..] == identifier;
    }
  }

  /** Distinct (key, identifier) pairs over separator-free base keys never share a computed key. */
  lemma ComputedKeyInjective(key1: string, identifier1: string, key2: string, identifier2: string)
    requires Separator !in key1 && Separator !in key2
    requires ComputedKey(key1, identifier1) == ComputedKey(key2, identifier2)
    ensures key1 == key2 && identifier1 == identifier2
  {
    ParseComputedKeyInverts(key1, identifier1);
    ParseComputedKeyInverts(key2, identifier2);
  }

  /** The same base key with different identifiers gives different computed keys. */
  lemma DistinctIdentifiers(key: string, identifier1: string, identifier2: string)
    requires identifier1 != identifier2
    ensures ComputedKey(key, identifier1) != ComputedKey(key, identifier2)
  {
    if identifier1 != [] && identifier2 != [] {
      assert ComputedKey(key, identifier1)[|key| + 1..] == identifier1;
      assert ComputedKey(key, identifier2)[|key| + 1..] == identifier2;
    }
  }

  /** A base key that already holds the separator collides, by design, with the qualified key it spells out. */
  lemma QualifiedKeysCanCollide(key: string, identifier: string)
    requires identifier != []
    ensures ComputedKey(key + [Separator] + identifier, []) == ComputedKey(key, identifier)
  {
  }
}
