/** The query decorator (src/components/decorators/withRelayQuery.js). It derives a clean name,
    splits each root query into a route query and a fragment (keyed by the root field name), builds
    the query config, and stacks the decorators: the helpers when asked, the Relay container
    with the fragments, then the renderer. A component is known by an identity, and a decorated
    component is a `Component` value describing that stack. */
module RelayQuery {
  import opened JsValues
  import opened RelayTypes
  import opened SplitQuery
  import opened RelayRenderer

  /** A character `\w` matches. */
  predicate WordChar(c: char)
  {
    ('a' <= c <= 'z') || ('A' <= c <= 'Z') || ('0' <= c <= '9') || c == '_'
  }

  /** `s.replace(/\W/g, '')`. */
  function Sanitize(s: string): (r: string)
    ensures |r| <= |s|
    ensures forall i :: 0 <= i < |r| ==> WordChar(r[i])
    decreases |s|
  {
    if |s| == 0 then []
    else (if WordChar(s[0]) then [s[0]] else []) + Sanitize(s[1..])
  }

  /** Sanitising keeps exactly the word characters, and leaves a clean name as it is (so doing it
      twice is doing it once). */
  lemma {:induction false} SanitizeKeeps(s: string, c: char)
    ensures c in Sanitize(s) <==> c in s && WordChar(c)
    ensures (forall i :: 0 <= i < |s| ==> WordChar(s[i])) ==> Sanitize(s) == s
    decreases |s|
  {
    if |s| > 0 {
      SanitizeKeeps(s[1..], c);
      assert s == [s[0]] + s[1..];
    }
  }

  lemma SanitizeIdempotent(s: string)
    ensures Sanitize(Sanitize(s)) == Sanitize(s)
  {
    SanitizeKeeps(Sanitize(s), ' ');
  }

  /** `a || b` on strings: the empty string is falsy. */
  function Or(a: string, b: string): string
  {
    if a != "" then a else b
  }

  /** The query name: the `name` option, else the component's `displayName`, else its function
      name, else its constructor's name, with every non-word character removed. */
  function DecoratedName(name: string, displayName: string, functionName: string, constructorName: string): (r: string)
    ensures name != "" ==> r == Sanitize(name)
    ensures name == "" && displayName != "" ==> r == Sanitize(displayName)
    ensures name == "" && displayName == "" && functionName != "" ==> r == Sanitize(functionName)
    ensures name == "" && displayName == "" && functionName == "" ==> r == Sanitize(constructorName)
  {
    Sanitize(Or(name, Or(displayName, Or(functionName, constructorName))))
  }

  /** A decorated name holds no bar, so its fetch-cache keys never collide with another name's. */
  lemma NameHasNoBar(name: string, displayName: string, functionName: string, constructorName: string)
    ensures '|' !in DecoratedName(name, displayName, functionName, constructorName)
  {
    assert !WordChar('|');
  }

  /** `Array.isArray(query) ? query : [query]`. */
  function QueryList(query: Value): (qs: seq<Value>)
    ensures !query.Arr? ==> qs == [query]
  {
    if query.Arr? then query.items else [query]
  }

  /** The property name a value becomes when used as a key. Objects, arrays, functions and errors
      all give `[object Object]` here. */
  function PropertyKey(v: Value): (k: string)
    ensures |k| == 0 <==> v == Str("")
  {
    match v
    case Str(s) => s
    case Undefined => "undefined"
    case Null => "null"
    case Bool(b) => if b then "true" else "false"
    case Num(n) => IntToString(n)
    case _ => "[object Object]"
  }

  /** The root field a query is filed under. */
  function FieldKey(query: Value): string
  {
    PropertyKey(Prop(query, "fieldName"))
  }

  /** A query that `splitQuery` splits without throwing. */
  predicate Splittable(query: Value)
  {
    RouteBuilds(query) && !Nullish(Prop(query, "metadata"))
  }

  /** The route query keeps the query's root field name. */
  lemma RouteFieldName(query: Value, name: string)
    requires RouteBuilds(query)
    ensures Prop(RouteQuery(query, name), "fieldName") == Prop(query, "fieldName")
  {
    RouteQueryFields(query, name, "fieldName");
  }

  /** What the loop over the queries leaves: the splits made, in order (or the error that stopped
      it), and the fragment counter. */
  datatype Batch = Batch(outcome: Result<seq<Split>>, nextId: nat)

  /** A way of splitting one query with the counter at a given value. */
  type SplitFn = (Value, nat) -> Result<Split>

  /** `splitQuery(query, name)` with the counter at `id`. */
  function Splits(name: string): SplitFn
  {
    (query: Value, id: nat) => SplitAt(query, name, id)
  }

  /** A split that succeeds has drawn a fragment id. */
  ghost predicate Draws(split: SplitFn, drew: Value -> bool)
  {
    forall q, id :: split(q, id).Ok? ==> drew(q)
  }

  /** A split that succeeds keeps the query's root field name on its route query. */
  ghost predicate KeepsFieldName(split: SplitFn)
  {
    forall q, id :: split(q, id).Ok? ==> Prop(split(q, id).value.routeQuery, "fieldName") == Prop(q, "fieldName")
  }

  /** One query of the `forEach`: after a throw nothing more happens; otherwise the query is split
      with the current counter, drawing an id when `drew` says so. */
  function Step(prev: Batch, query: Value, split: SplitFn, drew: Value -> bool): Batch
  {
    if prev.outcome.Throw? then prev
    else
      var s := split(query, prev.nextId);
      var next := if drew(query) then prev.nextId + 1 else prev.nextId;
      if s.Throw? then Batch(Throw(s.error), next)
      else Batch(Ok(prev.outcome.value + [s.value]), next)
  }

  /** The `forEach` over the queries, with the counter at `first`. */
  function SplitAllWith(qs: seq<Value>, split: SplitFn, drew: Value -> bool, first: nat): (b: Batch)
    ensures first <= b.nextId <= first + |qs|
    ensures b.outcome.Ok? ==> |b.outcome.value| == |qs|
    decreases |qs|
  {
    if |qs| == 0 then Batch(Ok([]), first)
    else Step(SplitAllWith(qs[..|qs| - 1], split, drew, first), qs[|qs| - 1], split, drew)
  }

  /** The loop of `withRelayQuery` for the name `name`. */
  function SplitAll(qs: seq<Value>, name: string, first: nat): (b: Batch)
    ensures first <= b.nextId <= first + |qs|
    ensures b.outcome.Ok? ==> |b.outcome.value| == |qs|
  {
    SplitAllWith(qs, Splits(name), RouteBuilds, first)
  }

  /** The name a split is filed under: its route query's `fieldName`, as a property name. */
  function RouteKey(s: Split): string
  {
    PropertyKey(Prop(s.routeQuery, "fieldName"))
  }

  /** The queries and fragments maps after filing each split in turn under its root field name, a
      later one overwriting an earlier one. */
  function Filed(splits: seq<Split>): (maps: (Object<Value>, Object<Value>))
    ensures DistinctKeys(maps.0) && DistinctKeys(maps.1)
    decreases |splits|
  {
    if |splits| == 0 then ([], [])
    else
      var maps := Filed(splits[..|splits| - 1]);
      var s := splits[|splits| - 1];
      DistinctPut(maps.0, RouteKey(s), s.routeQuery);
      DistinctPut(maps.1, RouteKey(s), s.fragment);
      (Put(maps.0, RouteKey(s), s.routeQuery), Put(maps.1, RouteKey(s), s.fragment))
  }

  /** The queries and fragments maps the loop leaves, or the error that stopped it. */
  function SplitMaps(qs: seq<Value>, name: string, first: nat): (r: Result<(Object<Value>, Object<Value>)>)
    ensures r.Ok? ==> DistinctKeys(r.value.0) && DistinctKeys(r.value.1)
  {
    var b := SplitAll(qs, name, first);
    if b.outcome.Throw? then Throw(b.outcome.error) else Ok(Filed(b.outcome.value))
  }

  /** The loop succeeds exactly when every query splits with the id it draws, `first + i`; it then
      holds those splits in order. */
  lemma {:induction false} SplitAllWithSucceeds(qs: seq<Value>, split: SplitFn, drew: Value -> bool, first: nat)
    requires Draws(split, drew)
    ensures SplitAllWith(qs, split, drew, first).outcome.Ok? <==> forall i :: 0 <= i < |qs| ==> split(qs[i], first + i).Ok?
    ensures var b := SplitAllWith(qs, split, drew, first);
      b.outcome.Ok? ==>
        && b.nextId == first + |qs|
        && |b.outcome.value| == |qs|
        && forall i :: 0 <= i < |qs| ==> b.outcome.value[i] == split(qs[i], first + i).value
    decreases |qs|
  {
    if |qs| > 0 {
      var n := |qs| - 1;
      SplitAllWithSucceeds(qs[..n], split, drew, first);
      assert forall i :: 0 <= i < n ==> qs[..n][i] == qs[i];
    }
  }

  /** Once the loop has thrown, the later queries are not split. */
  lemma {:induction false} SplitAllWithStops(qs: seq<Value>, split: SplitFn, drew: Value -> bool, first: nat, k: int)
    requires 0 <= k <= |qs| && SplitAllWith(qs[..k], split, drew, first).outcome.Throw?
    ensures SplitAllWith(qs, split, drew, first) == SplitAllWith(qs[..k], split, drew, first)
    decreases |qs| - k
  {
    if k < |qs| {
      assert qs[..k + 1][..k] == qs[..k];
      SplitAllWithStops(qs, split, drew, first, k + 1);
    } else {
      assert qs[..k] == qs;
    }
  }

  /** A name is a property exactly when it is among the object's keys. */
  lemma HasKeys<V>(o: Object<V>, k: string)
    ensures Has(o, k) <==> k in Keys(o)
  {
    if k in Keys(o) {
      var i :| 0 <= i < |Keys(o)| && Keys(o)[i] == k;
      assert o[i].0 == k;
    }
  }

  /** Both maps have the same names, no more of them than there are splits. */
  lemma {:induction false} FiledKeys(splits: seq<Split>)
    ensures Keys(Filed(splits).0) == Keys(Filed(splits).1) && |Filed(splits).0| <= |splits|
    decreases |splits|
  {
    if |splits| > 0 {
      var maps := Filed(splits[..|splits| - 1]);
      var s := splits[|splits| - 1];
      FiledKeys(splits[..|splits| - 1]);
      KeysPut(maps.0, RouteKey(s), s.routeQuery);
      KeysPut(maps.1, RouteKey(s), s.fragment);
      HasKeys(maps.0, RouteKey(s));
      HasKeys(maps.1, RouteKey(s));
    }
  }

  /** Filing one more split sets its name in both maps and leaves every other name as it was. */
  lemma FiledGet(splits: seq<Split>, k: string)
    requires |splits| > 0
    ensures var s := splits[|splits| - 1];
      var prev := Filed(splits[..|splits| - 1]);
      && Get(Filed(splits).0, k) == (if k == RouteKey(s) then Some(s.routeQuery) else Get(prev.0, k))
      && Get(Filed(splits).1, k) == (if k == RouteKey(s) then Some(s.fragment) else Get(prev.1, k))
  {
    var s := splits[|splits| - 1];
    var prev := Filed(splits[..|splits| - 1]);
    GetPut(prev.0, RouteKey(s), s.routeQuery, k);
    GetPut(prev.1, RouteKey(s), s.fragment, k);
  }

  /** A name maps to the route query and fragment of the last split filed under it. */
  lemma {:induction false} FiledLastWins(splits: seq<Split>, i: int)
    requires 0 <= i < |splits| && forall j :: i < j < |splits| ==> RouteKey(splits[j]) != RouteKey(splits[i])
    ensures Get(Filed(splits).0, RouteKey(splits[i])) == Some(splits[i].routeQuery)
    ensures Get(Filed(splits).1, RouteKey(splits[i])) == Some(splits[i].fragment)
    decreases |splits|
  {
    var n := |splits| - 1;
    var key := RouteKey(splits[i]);
    var prefix := splits[..n];
    FiledGet(splits, key);
    if i < n {
      assert prefix[i] == splits[i];
      assert key != RouteKey(splits[n]);
      assert forall j :: i < j < n ==> prefix[j] == splits[j];
      FiledLastWins(prefix, i);
      assert Get(Filed(splits).0, key) == Get(Filed(prefix).0, key);
      assert Get(Filed(splits).1, key) == Get(Filed(prefix).1, key);
    } else {
      assert Get(Filed(splits).0, key) == Some(splits[n].routeQuery);
      assert Get(Filed(splits).1, key) == Some(splits[n].fragment);
    }
  }

  /** In the loop, a query's root field name maps to the split of the last query with that field
      name. */
  lemma SplitAllWithLastWins(qs: seq<Value>, split: SplitFn, drew: Value -> bool, first: nat, i: int)
    requires Draws(split, drew) && KeepsFieldName(split)
    requires SplitAllWith(qs, split, drew, first).outcome.Ok?
    requires 0 <= i < |qs| && forall j :: i < j < |qs| ==> FieldKey(qs[j]) != FieldKey(qs[i])
    ensures split(qs[i], first + i).Ok?
    ensures var maps := Filed(SplitAllWith(qs, split, drew, first).outcome.value);
      && Get(maps.0, FieldKey(qs[i])) == Some(split(qs[i], first + i).value.routeQuery)
      && Get(maps.1, FieldKey(qs[i])) == Some(split(qs[i], first + i).value.fragment)
  {
    SplitAllWithSucceeds(qs, split, drew, first);
    var splits := SplitAllWith(qs, split, drew, first).outcome.value;
    assert forall j :: 0 <= j < |qs| ==> RouteKey(splits[j]) == FieldKey(qs[j]);
    FiledLastWins(splits, i);
  }

  /** `splitQuery` draws an id whenever it succeeds, keeps the root field name, and succeeds exactly
      on splittable queries. */
  lemma SplitsFacts(name: string)
    ensures Draws(Splits(name), RouteBuilds) && KeepsFieldName(Splits(name))
    ensures forall q, id :: Splits(name)(q, id).Ok? <==> Splittable(q)
  {
    forall q, id | SplitAt(q, name, id).Ok?
      ensures Prop(SplitAt(q, name, id).value.routeQuery, "fieldName") == Prop(q, "fieldName")
    {
      RouteFieldName(q, name);
    }
  }

  /** The decoration splits every query or throws: it succeeds exactly when every query is
      splittable, and then query `i` has drawn fragment id `first + i`. */
  lemma SplitAllSucceeds(qs: seq<Value>, name: string, first: nat)
    ensures SplitMaps(qs, name, first).Ok? <==> forall i :: 0 <= i < |qs| ==> Splittable(qs[i])
    ensures SplitMaps(qs, name, first).Ok? ==> SplitAll(qs, name, first).nextId == first + |qs|
  {
    SplitsFacts(name);
    SplitAllWithSucceeds(qs, Splits(name), RouteBuilds, first);
  }

  /** The queries and fragments maps have the same root field names, no more than there are
      queries. */
  lemma SplitAllKeys(qs: seq<Value>, name: string, first: nat)
    requires SplitMaps(qs, name, first).Ok?
    ensures var maps := SplitMaps(qs, name, first).value;
      Keys(maps.0) == Keys(maps.1) && |maps.0| <= |qs|
  {
    SplitsFacts(name);
    SplitAllWithSucceeds(qs, Splits(name), RouteBuilds, first);
    FiledKeys(SplitAll(qs, name, first).outcome.value);
  }

  /** Each query's root field name maps to the route query and the fragment of the last query with
      that field name: a later query with the same field overwrites an earlier one. */
  lemma LastQueryWins(qs: seq<Value>, name: string, first: nat, i: int)
    requires SplitMaps(qs, name, first).Ok?
    requires 0 <= i < |qs| && forall j :: i < j < |qs| ==> FieldKey(qs[j]) != FieldKey(qs[i])
    ensures Splits(name)(qs[i], first + i).Ok?
    ensures var maps := SplitMaps(qs, name, first).value;
      && Get(maps.0, FieldKey(qs[i])) == Some(Splits(name)(qs[i], first + i).value.routeQuery)
      && Get(maps.1, FieldKey(qs[i])) == Some(Splits(name)(qs[i], first + i).value.fragment)
  {
    SplitsFacts(name);
    SplitAllWithLastWins(qs, Splits(name), RouteBuilds, first, i);
  }

  /** Every query's root field name is in both maps. */
  lemma {:induction false} EveryFieldFiled(qs: seq<Value>, name: string, first: nat, i: int)
    requires SplitMaps(qs, name, first).Ok? && 0 <= i < |qs|
    ensures Has(SplitMaps(qs, name, first).value.0, FieldKey(qs[i]))
    ensures Has(SplitMaps(qs, name, first).value.1, FieldKey(qs[i]))
    decreases |qs| - i
  {
    if j :| i < j < |qs| && FieldKey(qs[j]) == FieldKey(qs[i]) {
      EveryFieldFiled(qs, name, first, j);
    } else {
      LastQueryWins(qs, name, first, i);
    }
  }

  /** The `params` option. */
  datatype ParamsOption =
    | NoParams
    | ParamDefinitions(definitions: Object<Value>)
    | ParamsCallback(callback: Object<Value> -> Object<Value>)

  /** The query config handed to the renderer: with a params function, a function whose name and
      queries stay fixed and whose params are the callback's answer; otherwise a static config
      whose param definitions are `params || {}`. */
  function MakeConfig(name: string, queries: Object<Value>, params: ParamsOption): (c: ConfigOption)
    ensures params.ParamsCallback? <==> c.ConfigCallback?
    ensures !params.ParamsCallback? ==> c == StaticConfig(name, queries, Some(if params.NoParams? then [] else params.definitions))
  {
    match params
    case ParamsCallback(callback) => ConfigCallback(props => QueryConfig(name, queries, callback(props)))
    case ParamDefinitions(definitions) => StaticConfig(name, queries, Some(definitions))
    case NoParams => StaticConfig(name, queries, Some([]))
  }

  /** Through the renderer, a params function is called with the props minus `forceFetch`. */
  lemma CallbackConfig(name: string, queries: Object<Value>, callback: Object<Value> -> Object<Value>, props: Object<Value>)
    ensures GetQueryConfig(MakeConfig(name, queries, ParamsCallback(callback)), props)
      == QueryConfig(name, queries, callback(OwnProps(props)))
  {
  }

  /** Through the renderer, a config without params has no params whatever the props. */
  lemma NoParamsConfig(name: string, queries: Object<Value>, props: Object<Value>)
    ensures GetQueryConfig(MakeConfig(name, queries, NoParams), props) == QueryConfig(name, queries, [])
  {
  }

  /** The options of the decorator, as given (absent ones `None`). */
  datatype QueryOptions = QueryOptions(
    name: string, params: ParamsOption, query: Value, initialVariables: Value,
    forceFetch: Option<bool>, ttl: Option<int>, isomorphic: Option<bool>, withHelpers: Option<bool>)

  /** A component and the decorators stacked on it. */
  datatype Component =
    | Plain(id: nat)
    | WithHelpers(inner: Component)
    | RelayContainer(fragments: Object<Value>, initialVariables: Value, inner: Component)
    | WithRelayRenderer(options: Options, inner: Component)

  /** The helpers are stacked only when `withHelpers` is true; it defaults to false. */
  function MaybeHelpers(withHelpers: Option<bool>, component: Component): (c: Component)
    ensures withHelpers == Some(true) ==> c == WithHelpers(component)
    ensures withHelpers != Some(true) ==> c == component
  {
    if withHelpers.Some? && withHelpers.value then WithHelpers(component) else component
  }

  /** Splitting one more query is one more step of the `forEach`. */
  lemma SplitAllSnoc(qs: seq<Value>, name: string, first: nat, i: nat)
    requires i < |qs|
    ensures SplitAll(qs[..i + 1], name, first) == Step(SplitAll(qs[..i], name, first), qs[i], Splits(name), RouteBuilds)
  {
    assert qs[..i + 1][..i] == qs[..i];
  }

  /** The split of each query, its route query and fragment filed under its root field name. */
  method SplitQueries(splitter: QuerySplitter, qs: seq<Value>, name: string) returns (r: Result<(Object<Value>, Object<Value>)>)
    modifies splitter
    ensures r == SplitMaps(qs, name, old(splitter.nextFragmentId))
    ensures splitter.nextFragmentId == SplitAll(qs, name, old(splitter.nextFragmentId)).nextId
  {
    ghost var first := splitter.nextFragmentId;
    ghost var splits: seq<Split> := [];
    var queries: Object<Value> := [];
    var fragments: Object<Value> := [];
    for i := 0 to |qs|
      invariant SplitAll(qs[..i], name, first) == Batch(Ok(splits), splitter.nextFragmentId)
      invariant (queries, fragments) == Filed(splits)
    {
      SplitAllSnoc(qs, name, first, i);
      var split := splitter.SplitQuery(qs[i], name);
      if split.Throw? {
        SplitAllWithStops(qs, Splits(name), RouteBuilds, first, i + 1);
        return Throw(split.error);
      }
      var key := PropertyKey(Prop(split.value.routeQuery, "fieldName"));
      queries := Put(queries, key, split.value.routeQuery);
      fragments := Put(fragments, key, split.value.fragment);
      assert (splits + [split.value])[..|splits|] == splits;
      splits := splits + [split.value];
    }
    assert qs[..|qs|] == qs;
    return Ok((queries, fragments));
  }

  /** `withRelayQuery(options)(component)`: the name is derived and cleaned, the queries split and
      filed, the helpers stacked when asked, then the Relay container with the fragments and the
      renderer with the query config. A split that throws stops the decoration. */
  method WithRelayQuery(splitter: QuerySplitter, options: QueryOptions, component: nat,
                        displayName: string, functionName: string, constructorName: string)
    returns (r: Result<Component>)
    modifies splitter
    ensures var name := DecoratedName(options.name, displayName, functionName, constructorName);
      var maps := SplitMaps(QueryList(options.query), name, old(splitter.nextFragmentId));
      && splitter.nextFragmentId == SplitAll(QueryList(options.query), name, old(splitter.nextFragmentId)).nextId
      && (maps.Throw? ==> r == Throw(maps.error))
      && (maps.Ok? ==> r == Ok(WithRelayRenderer(
            WithDefaults(MakeConfig(name, maps.value.0, options.params), options.forceFetch, options.ttl, options.isomorphic),
            RelayContainer(maps.value.1, options.initialVariables, MaybeHelpers(options.withHelpers, Plain(component))))))
  {
    var name := DecoratedName(options.name, displayName, functionName, constructorName);
    var split := SplitQueries(splitter, QueryList(options.query), name);
    if split.Throw? {
      return Throw(split.error);
    }
    var (queries, fragments) := split.value;
    var container := MaybeHelpers(options.withHelpers, Plain(component));
    container := RelayContainer(fragments, options.initialVariables, container);
    var queryConfig := MakeConfig(name, queries, options.params);
    return Ok(WithRelayRenderer(WithDefaults(queryConfig, options.forceFetch, options.ttl, options.isomorphic), container));
  }
}
