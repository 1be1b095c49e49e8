/** JavaScript values, plain objects and the few built-in conversions the library relies on.
    A plain object is an association list in property-insertion order (the order `Object.keys`
    and the spread operator use); assigning a property overwrites it in place or appends it. */
module JsValues {

  datatype Option<T> = None | Some(value: T)

  /** An `Error` object: its `name` and `message` properties. */
  datatype JsError = JsError(name: string, message: string)

  /** The outcome of a call that may throw. */
  datatype Result<T> = Ok(value: T) | Throw(error: JsError)

  /** The JavaScript values the model handles. A function value is known only by its identity. */
  datatype Value =
    | Undefined
    | Null
    | Bool(b: bool)
    | Num(n: int)
    | Str(s: string)
    | Arr(items: seq<Value>)
    | Obj(fields: seq<(string, Value)>)
    | Fn(id: nat)
    | Err(error: JsError)

  /** A plain object: own enumerable properties in insertion order. */
  type Object<V> = seq<(string, V)>

  /** JavaScript truthiness (numbers are integers here, so NaN does not arise). */
  predicate Truthy(v: Value)
  {
    match v
    case Undefined => false
    case Null => false
    case Bool(b) => b
    case Num(n) => n != 0
    case Str(s) => s != ""
    case _ => true
  }

  /** `Object.keys(o)`. */
  function Keys<V>(o: Object<V>): (ks: seq<string>)
    ensures |ks| == |o| && forall i :: 0 <= i < |o| ==> ks[i] == o[i].0
  {
    seq(|o|, i requires 0 <= i < |o| => o[i].0)
  }

  /** Property names of a real object are pairwise distinct. */
  predicate DistinctKeys<V>(o: Object<V>)
  {
    forall i, j :: 0 <= i < j < |o| ==> o[i].0 != o[j].0
  }

  /** The set of property names. */
  function NameSet<V>(o: Object<V>): set<string>
  {
    set i | 0 <= i < |o| :: o[i].0
  }

  /** Distinct names: as many names as properties. */
  lemma {:induction false} NameSetSize<V>(o: Object<V>)
    requires DistinctKeys(o)
    ensures |NameSet(o)| == |o|
  {
    if |o| > 0 {
      var p := o[..|o| - 1];
      NameSetSize(p);
      assert NameSet(o) == NameSet(p) + {o[|o| - 1].0};
      assert o[|o| - 1].0 !in NameSet(p);
    }
  }

  /** `k in o`. */
  predicate Has<V>(o: Object<V>, k: string)
  {
    exists i :: 0 <= i < |o| && o[i].0 == k
  }

  /** A name other than the first is a name of the rest. */
  lemma HasTail<V>(o: Object<V>, k: string)
    requires |o| > 0 && o[0].0 != k
    ensures Has(o, k) <==> Has(o[1..], k)
  {
    if Has(o, k) {
      var i :| 0 <= i < |o| && o[i].0 == k;
      assert o[1..][i - 1].0 == k;
    }
    if Has(o[1..], k) {
      var i :| 0 <= i < |o[1..]| && o[1..][i].0 == k;
      assert o[i + 1].0 == k;
    }
  }

  /** `o[k]`, with None for a missing property. */
  function Get<V>(o: Object<V>, k: string): (r: Option<V>)
    ensures r.Some? <==> Has(o, k)
    ensures r.Some? ==> exists i :: 0 <= i < |o| && o[i] == (k, r.value)
  {
    if |o| == 0 then None
    else if o[0].0 == k then Some(o[0].1)
    else
      var r := Get(o[1..], k);
      assert r.Some? ==> exists i :: 0 <= i < |o[1..]| && o[1..][i] == (k, r.value);
      HasTail(o, k);
      r
  }

  /** Property read on any value: own properties of an object, `undefined` otherwise. */
  function Prop(v: Value, k: string): Value
  {
    if v.Obj? then (match Get(v.fields, k) case Some(x) => x case None => Undefined)
    else Undefined
  }

  /** `o[k] = v`: overwrite the property where it stands, or append it. */
  function Put<V>(o: Object<V>, k: string, v: V): (r: Object<V>)
    ensures Has(o, k) ==> |r| == |o|
    ensures !Has(o, k) ==> r == o + [(k, v)]
  {
    if |o| == 0 then [(k, v)]
    else if o[0].0 == k then [(k, v)] + o[1..]
    else
      HasTail(o, k);
      assert o == [o[0]] + o[1..];
      [o[0]] + Put(o[1..], k, v)
  }

  /** The object with one property left out (the rest of a `{k, ...rest}` destructuring). */
  function Without<V>(o: Object<V>, k: string): (r: Object<V>)
    ensures |r| <= |o|
  {
    if |o| == 0 then []
    else (if o[0].0 == k then [] else [o[0]]) + Without(o[1..], k)
  }

  /** `{...a, ...b}`: the properties of `b` assigned onto a copy of `a`, in `b`'s order. */
  function Assign<V>(a: Object<V>, b: Object<V>): Object<V>
    decreases |b|
  {
    if |b| == 0 then a else Assign(Put(a, b[0].0, b[0].1), b[1..])
  }

  lemma {:induction false} GetPut<V>(o: Object<V>, k: string, v: V, j: string)
    ensures Get(Put(o, k, v), j) == if j == k then Some(v) else Get(o, j)
  {
    if |o| > 0 && o[0].0 != k {
      GetPut(o[1..], k, v, j);
    }
  }

  /** Reading an object with one property added at the end: earlier properties win. */
  lemma {:induction false} GetSnoc<V>(o: Object<V>, k: string, v: V, j: string)
    ensures Get(o + [(k, v)], j) == if Has(o, j) then Get(o, j) else if k == j then Some(v) else None
  {
    if |o| > 0 {
      assert (o + [(k, v)])[1..] == o[1..] + [(k, v)];
      GetSnoc(o[1..], k, v, j);
      if o[0].0 != j {
        HasTail(o, j);
        HasTail(o + [(k, v)], j);
      }
    }
  }

  lemma {:induction false} KeysPut<V>(o: Object<V>, k: string, v: V)
    ensures Keys(Put(o, k, v)) == if Has(o, k) then Keys(o) else Keys(o) + [k]
  {
    if |o| > 0 && o[0].0 != k {
      KeysPut(o[1..], k, v);
      HasTail(o, k);
    }
  }

  lemma {:induction false} DistinctPut<V>(o: Object<V>, k: string, v: V)
    requires DistinctKeys(o)
    ensures DistinctKeys(Put(o, k, v))
  {
    KeysPut(o, k, v);
    var r := Put(o, k, v);
    assert |Keys(r)| == |r|;
    forall i, j | 0 <= i < j < |r| ensures r[i].0 != r[j].0 {
      assert Keys(r)[i] == r[i].0 && Keys(r)[j] == r[j].0;
      if !Has(o, k) && j == |o| {
        assert r[i].0 == o[i].0;
      }
    }
  }

  /** In an object with distinct names, reading the name at position `i` gives the value there. */
  lemma {:induction false} GetAt<V>(o: Object<V>, i: int)
    requires DistinctKeys(o) && 0 <= i < |o|
    ensures Get(o, o[i].0) == Some(o[i].1)
  {
    if i > 0 {
      assert DistinctKeys(o[1..]);
      GetAt(o[1..], i - 1);
    }
  }

  lemma {:induction false} GetWithout<V>(o: Object<V>, k: string, j: string)
    ensures Get(Without(o, k), j) == if j == k then None else Get(o, j)
  {
    if |o| > 0 {
      GetWithout(o[1..], k, j);
      if o[0].0 != k {
        assert Without(o, k) == [o[0]] + Without(o[1..], k);
      } else {
        assert Without(o, k) == Without(o[1..], k);
      }
    }
  }

  /** After `{...a, ...b}` a property of `b` wins, and any other property keeps `a`'s value. */
  lemma {:induction false} GetAssign<V>(a: Object<V>, b: Object<V>, k: string)
    requires DistinctKeys(b)
    ensures Get(Assign(a, b), k) == if Has(b, k) then Get(b, k) else Get(a, k)
    decreases |b|
  {
    if |b| > 0 {
      assert DistinctKeys(b[1..]);
      GetAssign(Put(a, b[0].0, b[0].1), b[1..], k);
      GetPut(a, b[0].0, b[0].1, k);
      if k == b[0].0 {
        assert !Has(b[1..], k);
      } else {
        HasTail(b, k);
      }
    }
  }

  /** Error.prototype.toString (section 20.5.3.4 of ECMA-262). */
  function ErrorToString(e: JsError): (s: string)
    ensures e.name != "" && e.message != "" ==> s == e.name + ": " + e.message
  {
    if e.name == "" then e.message
    else if e.message == "" then e.name
    else e.name + ": " + e.message
  }

  function DigitChar(d: nat): char
    requires d < 10
  {
    "0123456789"[d]
  }

  /** Decimal notation of a natural number, as `String(n)` gives it. */
  function NatToString(n: nat): (s: string)
    ensures |s| > 0
    ensures forall i :: 0 <= i < |s| ==> '0' <= s[i] <= '9'
  {
    if n < 10 then [DigitChar(n)] else NatToString(n / 10) + [DigitChar(n % 10)]
  }

  /** Reads back a string of decimal digits. */
  function ParseDigits(s: string): nat
    requires forall i :: 0 <= i < |s| ==> '0' <= s[i] <= '9'
  {
    if |s| == 0 then 0
    else ParseDigits(s[..|s| - 1]) * 10 + ((s[|s| - 1] as int) - ('0' as int))
  }

  lemma {:induction false} ParseNatToString(n: nat)
    ensures ParseDigits(NatToString(n)) == n
  {
    var s := NatToString(n);
    if n >= 10 {
      ParseNatToString(n / 10);
      assert s[..|s| - 1] == NatToString(n / 10);
    }
  }

  /** Different numbers have different decimal strings. */
  lemma NatToStringInjective(a: nat, b: nat)
    requires NatToString(a) == NatToString(b)
    ensures a == b
  {
    ParseNatToString(a);
    ParseNatToString(b);
  }

  /** `String(i)` for an integer. */
  function IntToString(i: int): (s: string)
    ensures i >= 0 ==> s == NatToString(i)
  {
    if i < 0 then "-" + NatToString(-i) else NatToString(i)
  }
}
