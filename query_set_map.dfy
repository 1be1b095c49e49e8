/** The map keyed by query sets (src/environment/querySetMap.js): an association list whose keys
    are compared structurally, through the query engine's own `equals` on each handle. */
module QuerySets {
  import opened JsValues

  /** A query set: root field name -> query handle (a plain object, so names are distinct). */
  type QuerySet<Q> = qs: Object<Q> | DistinctKeys(qs) witness []

  /** `keyEquals` at one name of `a`: `b` has that name and `b[name].equals(a[name])`. */
  predicate NameMatches<Q>(eq: (Q, Q) -> bool, a: Object<Q>, b: Object<Q>, i: int)
    requires 0 <= i < |a|
  {
    var m := Get(b, a[i].0);
    m.Some? && eq(m.value, a[i].1)
  }

  /** `keyEquals(a, b)`: as many names, and every name of `a` matches in `b`. */
  predicate KeyMatch<Q>(eq: (Q, Q) -> bool, a: QuerySet<Q>, b: QuerySet<Q>)
  {
    |a| == |b| && forall i :: 0 <= i < |a| ==> NameMatches(eq, a, b, i)
  }

  /** What `indexOf(k)` computes over the stored keys: the first matching index, or -1. */
  function FirstMatch<Q>(eq: (Q, Q) -> bool, keys: seq<QuerySet<Q>>, k: QuerySet<Q>): (i: int)
    ensures -1 <= i < |keys|
    ensures i >= 0 ==> KeyMatch(eq, k, keys[i])
    ensures forall j :: 0 <= j < |keys| && (i < 0 || j < i) ==> !KeyMatch(eq, k, keys[j])
    decreases |keys|
  {
    if |keys| == 0 then -1
    else
      var i := FirstMatch(eq, keys[..|keys| - 1], k);
      if i >= 0 then i
      else if KeyMatch(eq, k, keys[|keys| - 1]) then |keys| - 1
      else -1
  }

  /** The stored value for `k`, as `get(k)` returns it. */
  function Lookup<Q, V>(eq: (Q, Q) -> bool, keys: seq<QuerySet<Q>>, values: seq<V>, k: QuerySet<Q>): (r: Option<V>)
    requires |keys| == |values|
    ensures r.Some? <==> exists j :: 0 <= j < |keys| && KeyMatch(eq, k, keys[j])
  {
    var i := FirstMatch(eq, keys, k);
    if i >= 0 then Some(values[i]) else None
  }

  /** The stored keys and values after `set(k, v)`. */
  function Store<Q, V>(eq: (Q, Q) -> bool, keys: seq<QuerySet<Q>>, values: seq<V>, k: QuerySet<Q>, v: V)
    : (r: (seq<QuerySet<Q>>, seq<V>))
    requires |keys| == |values|
    ensures |r.0| == |r.1|
    ensures var i := FirstMatch(eq, keys, k);
      if i >= 0 then r.0 == keys && r.1 == values[i := v]
      else r.0 == keys + [k] && r.1 == values + [v]
  {
    var i := FirstMatch(eq, keys, k);
    if i >= 0 then (keys, values[i := v]) else (keys + [k], values + [v])
  }

  ghost predicate Reflexive<Q(!new)>(eq: (Q, Q) -> bool)
  {
    forall q :: eq(q, q)
  }

  ghost predicate Symmetric<Q(!new)>(eq: (Q, Q) -> bool)
  {
    forall p, q :: eq(p, q) ==> eq(q, p)
  }

  ghost predicate Transitive<Q(!new)>(eq: (Q, Q) -> bool)
  {
    forall p, q, r :: eq(p, q) && eq(q, r) ==> eq(p, r)
  }

  /** With a reflexive `equals`, every query set matches itself. */
  lemma {:induction false} KeyMatchReflexive<Q(!new)>(eq: (Q, Q) -> bool, k: QuerySet<Q>)
    requires Reflexive(eq)
    ensures KeyMatch(eq, k, k)
  {
    forall i | 0 <= i < |k| ensures NameMatches(eq, k, k, i) {
      GetAt(k, i);
    }
  }

  /** The name found in `b` sits at some position of `b`. */
  lemma FoundAt<Q>(b: QuerySet<Q>, name: string) returns (j: int)
    requires Has(b, name)
    ensures 0 <= j < |b| && b[j].0 == name && Get(b, name) == Some(b[j].1)
  {
    j :| 0 <= j < |b| && b[j].0 == name;
    GetAt(b, j);
  }

  /** When `equals` is an equivalence, so is structural matching: symmetric ... */
  lemma {:induction false} KeyMatchSymmetric<Q(!new)>(eq: (Q, Q) -> bool, a: QuerySet<Q>, b: QuerySet<Q>)
    requires Symmetric(eq) && KeyMatch(eq, a, b)
    ensures KeyMatch(eq, b, a)
  {
    // Every name of a is a name of b, and both have as many distinct names, so the name sets agree.
    var na, nb := NameSet(a), NameSet(b);
    forall name | name in na ensures name in nb {
      var i :| 0 <= i < |a| && a[i].0 == name;
      assert NameMatches(eq, a, b, i);
      var j := FoundAt(b, name);
    }
    NameSetSize(a);
    NameSetSize(b);
    assert nb == na + (nb - na);
    assert nb - na == {};
    forall j | 0 <= j < |b| ensures NameMatches(eq, b, a, j) {
      assert b[j].0 in nb;
      var i :| 0 <= i < |a| && a[i].0 == b[j].0;
      GetAt(a, i);
      GetAt(b, j);
      assert eq(b[j].1, a[i].1) by { assert NameMatches(eq, a, b, i); }
    }
  }

  /** ... and transitive. */
  lemma {:induction false} KeyMatchTransitive<Q(!new)>(eq: (Q, Q) -> bool, a: QuerySet<Q>, b: QuerySet<Q>, c: QuerySet<Q>)
    requires Transitive(eq) && KeyMatch(eq, a, b) && KeyMatch(eq, b, c)
    ensures KeyMatch(eq, a, c)
  {
    forall i | 0 <= i < |a| ensures NameMatches(eq, a, c, i) {
      assert NameMatches(eq, a, b, i);
      var j := FoundAt(b, a[i].0);
      assert NameMatches(eq, b, c, j);
    }
  }

  /** With an equivalence for `equals`, structurally equal query sets find the same slot. */
  lemma {:induction false} FirstMatchRespectsMatch<Q(!new)>(eq: (Q, Q) -> bool, keys: seq<QuerySet<Q>>, k1: QuerySet<Q>, k2: QuerySet<Q>)
    requires Symmetric(eq) && Transitive(eq) && KeyMatch(eq, k1, k2)
    ensures FirstMatch(eq, keys, k1) == FirstMatch(eq, keys, k2)
  {
    KeyMatchSymmetric(eq, k1, k2);
    forall j | 0 <= j < |keys| ensures KeyMatch(eq, k1, keys[j]) <==> KeyMatch(eq, k2, keys[j]) {
      if KeyMatch(eq, k1, keys[j]) { KeyMatchTransitive(eq, k2, k1, keys[j]); }
      if KeyMatch(eq, k2, keys[j]) { KeyMatchTransitive(eq, k1, k2, keys[j]); }
    }
    var i1, i2 := FirstMatch(eq, keys, k1), FirstMatch(eq, keys, k2);
    if i1 >= 0 && i2 >= 0 {
      assert !(i1 < i2) && !(i2 < i1);
    }
  }

  /** `get` after `set` on a structurally equal query set returns the value just stored. */
  lemma LookupAfterStore<Q(!new), V>(eq: (Q, Q) -> bool, keys: seq<QuerySet<Q>>, values: seq<V>, k1: QuerySet<Q>, k2: QuerySet<Q>, v: V)
    requires |keys| == |values|
    requires Reflexive(eq) && Symmetric(eq) && Transitive(eq) && KeyMatch(eq, k1, k2)
    ensures var (ks, vs) := Store(eq, keys, values, k1, v); Lookup(eq, ks, vs, k2) == Some(v)
  {
    var (ks, vs) := Store(eq, keys, values, k1, v);
    FirstMatchRespectsMatch(eq, ks, k1, k2);
    KeyMatchReflexive(eq, k1);
  }

  /** Matches found in a prefix are kept when keys are appended. */
  lemma {:induction false} FirstMatchAppend<Q>(eq: (Q, Q) -> bool, keys: seq<QuerySet<Q>>, x: QuerySet<Q>, k: QuerySet<Q>)
    requires FirstMatch(eq, keys, k) >= 0
    ensures FirstMatch(eq, keys + [x], k) == FirstMatch(eq, keys, k)
  {
    assert (keys + [x])[..|keys|] == keys;
  }

  /** `set` never loses a match, and a key that matches itself is found after it is stored. */
  lemma StoreFinds<Q, V>(eq: (Q, Q) -> bool, keys: seq<QuerySet<Q>>, values: seq<V>, k: QuerySet<Q>, v: V, q: QuerySet<Q>)
    requires |keys| == |values|
    requires FirstMatch(eq, keys, q) >= 0 || (q == k && KeyMatch(eq, k, k))
    ensures FirstMatch(eq, Store(eq, keys, values, k, v).0, q) >= 0
  {
    if FirstMatch(eq, keys, k) < 0 {
      if FirstMatch(eq, keys, q) >= 0 {
        FirstMatchAppend(eq, keys, k, q);
      } else {
        assert (keys + [k])[..|keys|] == keys;
      }
    }
  }

  /** The query-set map. `keyList` and `valueList` are `_keys` and `_values`. */
  class QuerySetMap<Q, V> {
    const equals: (Q, Q) -> bool
    var keyList: seq<QuerySet<Q>>
    var valueList: seq<V>

    ghost predicate Valid()
      reads this
    {
      |keyList| == |valueList|
    }

    constructor (equals: (Q, Q) -> bool)
      ensures Valid() && this.equals == equals
      ensures keyList == [] && valueList == []
    {
      this.equals := equals;
      keyList := [];
      valueList := [];
    }

    /** `keyEquals`: a length check, then one name at a time with an early return. */
    method KeyEquals(a: QuerySet<Q>, b: QuerySet<Q>) returns (r: bool)
      ensures r <==> KeyMatch(equals, a, b)
    {
      if |a| != |b| {
        return false;
      }
      for i := 0 to |a|
        invariant forall j :: 0 <= j < i ==> NameMatches(equals, a, b, j)
      {
        var found := JsValues.Get(b, a[i].0);
        if found.None? || !equals(found.value, a[i].1) {
          assert !NameMatches(equals, a, b, i);
          return false;
        }
      }
      return true;
    }

    /** `indexOf`: the first stored key that matches, or -1. */
    method IndexOf(k: QuerySet<Q>) returns (index: int)
      ensures index == FirstMatch(equals, keyList, k)
      ensures index >= 0 ==> KeyMatch(equals, k, keyList[index])
      ensures index == -1 <==> forall j :: 0 <= j < |keyList| ==> !KeyMatch(equals, k, keyList[j])
    {
      index := 0;
      while index < |keyList|
        invariant 0 <= index <= |keyList|
        invariant forall j :: 0 <= j < index ==> !KeyMatch(equals, k, keyList[j])
      {
        var matches := KeyEquals(k, keyList[index]);
        if matches {
          return;
        }
        index := index + 1;
      }
      return -1;
    }

    /** `set`: overwrite the matching slot, or append a new entry. */
    method Set(k: QuerySet<Q>, v: V)
      requires Valid()
      modifies this
      ensures Valid()
      ensures (keyList, valueList) == Store(equals, old(keyList), old(valueList), k, v)
    {
      var index := IndexOf(k);
      if index > -1 {
        valueList := valueList[index := v];
      } else {
        keyList := keyList + [k];
        valueList := valueList + [v];
      }
    }

    /** `get`: the value in the matching slot, or nothing. */
    method Get(k: QuerySet<Q>) returns (r: Option<V>)
      requires Valid()
      ensures r == Lookup(equals, keyList, valueList, k)
      ensures r.Some? <==> exists j :: 0 <= j < |keyList| && KeyMatch(equals, k, keyList[j])
    {
      var index := IndexOf(k);
      if index > -1 {
        return Some(valueList[index]);
      }
      return None;
    }

    /** `keys()`: the stored keys in insertion order (a fresh copy). */
    method Keys() returns (ks: seq<QuerySet<Q>>)
      ensures ks == keyList
    {
      ks := keyList;
    }

    /** `values()`: the stored values in insertion order (a fresh copy). */
    method Values() returns (vs: seq<V>)
      ensures vs == valueList
    {
      vs := valueList;
    }

    /** `size`: the number of entries, which is the length of both lists. */
    function Size(): (n: nat)
      reads this
      requires Valid()
      ensures n == |keyList| && n == |valueList|
    {
      |keyList|
    }
  }
}
