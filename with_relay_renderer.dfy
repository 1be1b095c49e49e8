/** The renderer decorator (src/components/decorators/withRelayRenderer.js). The wrapper works out
    the query config from its props, chooses between an isomorphic render from a known ready state
    and a normal Relay render (deciding whether to force a fetch), and builds the props the
    container gets. React elements become an `Element` value; the context's environment, its
    `initialRender` flag and its fetch cache are passed in. */
module RelayRenderer {
  import opened JsValues
  import opened RelayTypes
  import opened QuerySets
  import opened BaseEnv
  import opened FetchCache
  import opened EnvProvider

  /** The `queryConfig` option: a static description, or a function of the props. */
  datatype ConfigOption =
    | StaticConfig(name: string, queries: Object<Value>, paramDefinitions: Option<Object<Value>>)
    | ConfigCallback(build: Object<Value> -> QueryConfig)

  /** The decorator's options, defaults applied. */
  datatype Options = Options(queryConfig: ConfigOption, forceFetch: bool, ttl: Option<int>, isomorphic: bool)

  /** Destructuring with defaults: `forceFetch` is false and `isomorphic` true unless given. */
  function WithDefaults(queryConfig: ConfigOption, forceFetch: Option<bool>, ttl: Option<int>, isomorphic: Option<bool>): (o: Options)
    ensures o.queryConfig == queryConfig && o.ttl == ttl
    ensures o.forceFetch <==> forceFetch == Some(true)
    ensures o.isomorphic <==> isomorphic != Some(false)
  {
    Options(queryConfig,
      if forceFetch.Some? then forceFetch.value else false,
      ttl,
      if isomorphic.Some? then isomorphic.value else true)
  }

  /** `const {forceFetch, ...ownProps} = props`. */
  function OwnProps(props: Object<Value>): (own: Object<Value>)
    ensures !Has(own, "forceFetch")
    ensures forall k :: k != "forceFetch" ==> Get(own, k) == Get(props, k)
  {
    forall k ensures Get(Without(props, "forceFetch"), k) == if k == "forceFetch" then None else Get(props, k) {
      GetWithout(props, "forceFetch", k);
    }
    GetWithout(props, "forceFetch", "forceFetch");
    Without(props, "forceFetch")
  }

  /** The reduce over the declared param names: each one present in the props is copied. */
  function PickParams(names: seq<string>, props: Object<Value>): (params: Object<Value>)
    ensures |params| <= |names|
    ensures forall i :: 0 <= i < |params| ==> params[i].0 in names && Has(props, params[i].0)
    decreases |names|
  {
    if |names| == 0 then []
    else
      var n := |names| - 1;
      var params := PickParams(names[..n], props);
      if Has(props, names[n]) then
        KeysPut(params, names[n], Get(props, names[n]).value);
        var params' := Put(params, names[n], Get(props, names[n]).value);
        assert forall i :: 0 <= i < |params'| ==> params'[i].0 == Keys(params')[i];
        assert forall i :: 0 <= i < |params| ==> params[i].0 == Keys(params)[i];
        params'
      else params
  }

  /** The params hold exactly the declared names that the props have, with the props' values. */
  lemma {:induction false} PickParamsGet(names: seq<string>, props: Object<Value>, k: string)
    ensures Get(PickParams(names, props), k) == if k in names then Get(props, k) else None
    decreases |names|
  {
    if |names| > 0 {
      var n := |names| - 1;
      PickParamsGet(names[..n], props, k);
      assert names == names[..n] + [names[n]];
      if Has(props, names[n]) {
        GetPut(PickParams(names[..n], props), names[n], Get(props, names[n]).value, k);
      }
    }
  }

  /** `getQueryConfig`: a function config is called with the props minus `forceFetch`; a static one
      keeps its name and queries and takes as params every declared param the props have (no
      declarations: no params). */
  function GetQueryConfig(option: ConfigOption, props: Object<Value>): (r: QueryConfig)
    ensures option.ConfigCallback? ==> r == option.build(OwnProps(props))
    ensures option.StaticConfig? ==> r.name == option.name && r.queries == option.queries
    ensures option.StaticConfig? ==> forall k ::
      Get(r.params, k) == if option.paramDefinitions.Some? && Has(option.paramDefinitions.value, k) then Get(props, k) else None
  {
    match option
    case ConfigCallback(build) => build(OwnProps(props))
    case StaticConfig(name, queries, definitions) =>
      var names := Keys(if definitions.Some? then definitions.value else []);
      forall k ensures Get(PickParams(names, props), k) == if k in names then Get(props, k) else None {
        PickParamsGet(names, props, k);
      }
      QueryConfig(name, queries, PickParams(names, props))
  }

  /** The error message that marks the client as offline. */
  const NETWORK_FAILURE := "TypeError: Network request failed"

  predicate IsNetworkFailure(e: JsError)
  {
    ErrorToString(e) == NETWORK_FAILURE
  }

  /** The `error` prop: the error object, or `null`. */
  function ErrorValue(e: Option<JsError>): Value
  {
    if e.Some? then Err(e.value) else Null
  }

  /** `{...ownProps, error: error || this.error, retry, loading: false, offline: this.offline}`. */
  function BaseProps(own: Object<Value>, error: Option<JsError>, stored: Option<JsError>, offline: bool, retry: Value)
    : (props: Object<Value>)
    ensures Get(props, "loading") == Some(Bool(false)) && Get(props, "offline") == Some(Bool(offline))
    ensures Get(props, "error") == Some(ErrorValue(if error.Some? then error else stored))
    ensures Get(props, "retry") == Some(retry)
  {
    var e := ErrorValue(if error.Some? then error else stored);
    var p1 := Put(own, "error", e);
    var p2 := Put(p1, "retry", retry);
    var p3 := Put(p2, "loading", Bool(false));
    GetPut(own, "error", e, "error");
    GetPut(p1, "retry", retry, "error");
    GetPut(p1, "retry", retry, "retry");
    GetPut(p2, "loading", Bool(false), "error");
    GetPut(p2, "loading", Bool(false), "retry");
    GetPut(p2, "loading", Bool(false), "loading");
    GetPut(p3, "offline", Bool(offline), "error");
    GetPut(p3, "offline", Bool(offline), "retry");
    GetPut(p3, "offline", Bool(offline), "loading");
    GetPut(p3, "offline", Bool(offline), "offline");
    Put(p3, "offline", Bool(offline))
  }

  lemma BasePropsGet(own: Object<Value>, error: Option<JsError>, stored: Option<JsError>, offline: bool, retry: Value, k: string)
    ensures Get(BaseProps(own, error, stored, offline, retry), k) ==
      if k == "offline" then Some(Bool(offline))
      else if k == "loading" then Some(Bool(false))
      else if k == "retry" then Some(retry)
      else if k == "error" then Some(ErrorValue(if error.Some? then error else stored))
      else Get(own, k)
  {
    var e := ErrorValue(if error.Some? then error else stored);
    GetPut(own, "error", e, k);
    GetPut(Put(own, "error", e), "retry", retry, k);
    GetPut(Put(Put(own, "error", e), "retry", retry), "loading", Bool(false), k);
    GetPut(Put(Put(Put(own, "error", e), "retry", retry), "loading", Bool(false)), "offline", Bool(offline), k);
  }

  /** The props with data: no error, not offline, then the data's own props on top. */
  function PropsWithData(base: Object<Value>, data: Object<Value>): (props: Object<Value>)
    ensures DistinctKeys(data) && !Has(data, "error") ==> Get(props, "error") == Some(Null)
    ensures DistinctKeys(data) && !Has(data, "offline") ==> Get(props, "offline") == Some(Bool(false))
  {
    var cleared := Put(Put(base, "error", Null), "offline", Bool(false));
    GetPut(base, "error", Null, "error");
    GetPut(Put(base, "error", Null), "offline", Bool(false), "error");
    GetPut(Put(base, "error", Null), "offline", Bool(false), "offline");
    if DistinctKeys(data) then
      GetAssign(cleared, data, "error");
      GetAssign(cleared, data, "offline");
      Assign(cleared, data)
    else Assign(cleared, data)
  }

  /** Every fragment name set to `null`, in order. */
  function NullFragments(p: Object<Value>, names: seq<string>): Object<Value>
    decreases |names|
  {
    if |names| == 0 then p else Put(NullFragments(p, names[..|names| - 1]), names[|names| - 1], Null)
  }

  lemma {:induction false} NullFragmentsGet(p: Object<Value>, names: seq<string>, k: string)
    ensures Get(NullFragments(p, names), k) == if k in names then Some(Null) else Get(p, k)
    decreases |names|
  {
    if |names| > 0 {
      var n := |names| - 1;
      NullFragmentsGet(p, names[..n], k);
      GetPut(NullFragments(p, names[..n]), names[n], Null, k);
      assert names == names[..n] + [names[n]];
    }
  }

  /** The props without data: fragments `null`, then either the loading flag or, for a network
      failure, the offline flag. */
  function PropsWithoutData(base: Object<Value>, names: seq<string>, error: Option<JsError>): (props: Object<Value>)
    ensures error.None? ==> Get(props, "loading") == Some(Bool(true))
    ensures error.Some? && IsNetworkFailure(error.value) ==> Get(props, "offline") == Some(Bool(true))
    ensures error.Some? && !IsNetworkFailure(error.value) ==> Get(props, "offline") == Get(NullFragments(base, names), "offline")
  {
    var p := NullFragments(base, names);
    GetPut(p, "loading", Bool(true), "loading");
    GetPut(p, "offline", Bool(true), "offline");
    if error.None? then Put(p, "loading", Bool(true))
    else if IsNetworkFailure(error.value) then Put(p, "offline", Bool(true))
    else p
  }

  /** The props a container gets with data: the data's props win; otherwise no error, not offline,
      not loading, the retry callback, and the wrapper's own props without `forceFetch`. */
  lemma WithDataGet(props: Object<Value>, error: Option<JsError>, stored: Option<JsError>, offline: bool, retry: Value,
                    data: Object<Value>, k: string)
    requires DistinctKeys(data)
    ensures Get(PropsWithData(BaseProps(OwnProps(props), error, stored, offline, retry), data), k) ==
      if Has(data, k) then Get(data, k)
      else if k == "error" then Some(Null)
      else if k == "offline" || k == "loading" then Some(Bool(false))
      else if k == "retry" then Some(retry)
      else if k == "forceFetch" then None
      else Get(props, k)
  {
    var base := BaseProps(OwnProps(props), error, stored, offline, retry);
    BasePropsGet(OwnProps(props), error, stored, offline, retry, k);
    GetAssign(Put(Put(base, "error", Null), "offline", Bool(false)), data, k);
    GetPut(Put(base, "error", Null), "offline", Bool(false), k);
    GetPut(base, "error", Null, k);
  }

  /** The props a container gets without data. It is loading exactly when there is no error. A
      network failure makes it offline; otherwise offline is remembered from earlier. Every fragment
      prop is `null`, and the error is the new one or else the remembered one. */
  lemma WithoutDataGet(props: Object<Value>, error: Option<JsError>, stored: Option<JsError>, offline: bool, retry: Value,
                       names: seq<string>, k: string)
    ensures Get(PropsWithoutData(BaseProps(OwnProps(props), error, stored, offline, retry), names, error), k) ==
      if k == "loading" && error.None? then Some(Bool(true))
      else if k == "offline" && error.Some? && IsNetworkFailure(error.value) then Some(Bool(true))
      else if k in names then Some(Null)
      else if k == "offline" then Some(Bool(offline))
      else if k == "loading" then Some(Bool(false))
      else if k == "retry" then Some(retry)
      else if k == "error" then Some(ErrorValue(if error.Some? then error else stored))
      else if k == "forceFetch" then None
      else Get(props, k)
    ensures (Get(PropsWithoutData(BaseProps(OwnProps(props), error, stored, offline, retry), names, error), "loading")
      == Some(Bool(true))) <==> error.None?
  {
    var base := BaseProps(OwnProps(props), error, stored, offline, retry);
    var p := NullFragments(base, names);
    forall j ensures Get(PropsWithoutData(base, names, error), j) ==
      if j == "loading" && error.None? then Some(Bool(true))
      else if j == "offline" && error.Some? && IsNetworkFailure(error.value) then Some(Bool(true))
      else Get(p, j)
    {
      GetPut(p, "loading", Bool(true), j);
      GetPut(p, "offline", Bool(true), j);
    }
    forall j ensures Get(p, j) == if j in names then Some(Null) else Get(base, j) {
      NullFragmentsGet(base, names, j);
    }
    BasePropsGet(OwnProps(props), error, stored, offline, retry, k);
    BasePropsGet(OwnProps(props), error, stored, offline, retry, "loading");
  }

  /** What `render` returns. */
  datatype Element =
    | ReadyStateRenderer(readyState: ReadyState)
    | NoElement
    | Renderer(forceFetch: bool)

  /** The render goes through the isomorphic path. */
  predicate IsomorphicPath(isomorphic: bool, isIsomorphicRender: bool, isServer: bool, initialRender: bool)
  {
    isomorphic && isIsomorphicRender && (isServer || initialRender)
  }

  /** A ttl option that asks for the cache (`&& ttl`): set and not zero. */
  predicate TtlSet(ttl: Option<int>)
  {
    ttl.Some? && ttl.value != 0
  }

  /** The `forceFetch` given to a normal render. On the server it is false. On the client the
      option or the prop forces a fetch; only when neither does and a ttl is set is the cache asked
      (its `verdict`, which may throw); with no ttl it is false. */
  function ForceFetchFor(isServer: bool, optionForceFetch: bool, propForceFetch: bool, ttl: Option<int>,
                         verdict: Result<bool>): (r: Result<bool>)
    ensures isServer ==> r == Ok(false)
    ensures !isServer && (optionForceFetch || propForceFetch) ==> r == Ok(true)
    ensures !isServer && !optionForceFetch && !propForceFetch ==> r == if TtlSet(ttl) then verdict else Ok(false)
  {
    if isServer then Ok(false)
    else if optionForceFetch || propForceFetch then Ok(true)
    else if TtlSet(ttl) then verdict
    else Ok(false)
  }

  /** The cache is not consulted when the option or the prop already forces a fetch, on the server,
      or without a ttl: the decision is then the same whatever the cache holds. */
  lemma CacheConsultedLast(isServer: bool, optionForceFetch: bool, propForceFetch: bool, ttl: Option<int>,
                           v1: Result<bool>, v2: Result<bool>)
    requires isServer || optionForceFetch || propForceFetch || !TtlSet(ttl)
    ensures ForceFetchFor(isServer, optionForceFetch, propForceFetch, ttl, v1) == ForceFetchFor(isServer, optionForceFetch, propForceFetch, ttl, v2)
  {
  }

  /** The element `render` returns: on the isomorphic path a known ready state gives a
      ReadyStateRenderer, and on the server its absence gives nothing at all; every other case is a
      normal render with the force-fetch decision (whose error propagates). */
  function Choice(iso: bool, isServer: bool, found: Option<ReadyState>, forceFetch: Result<bool>): (r: Result<Element>)
    ensures (r.Ok? && r.value.ReadyStateRenderer?) <==> iso && found.Some?
    ensures r.Ok? && r.value.ReadyStateRenderer? ==> r.value.readyState == found.value
    ensures r == Ok(NoElement) <==> iso && isServer && found.None?
    ensures !(iso && (found.Some? || isServer)) ==>
      (r.Ok? <==> forceFetch.Ok?) && (r.Ok? ==> r.value == Renderer(forceFetch.value))
  {
    if iso && found.Some? then Ok(ReadyStateRenderer(found.value))
    else if iso && isServer then Ok(NoElement)
    else if forceFetch.Ok? then Ok(Renderer(forceFetch.value))
    else Throw(forceFetch.error)
  }

  /** One decorated component instance (the `Wrapper` class). */
  class RelayRendererWrapper {
    const options: Options
    /** `Container.getFragmentNames()`. */
    const fragmentNames: seq<string>
    /** The identity of `this.onRelayEnvReset`. */
    const listener: nat
    var props: Object<Value>
    var queryConfig: QueryConfig
    /** Whether the previous request failed with an error, or for being offline. */
    var error: Option<JsError>
    var offline: bool

    constructor (options: Options, fragmentNames: seq<string>, listener: nat, props: Object<Value>)
      ensures this.options == options && this.fragmentNames == fragmentNames && this.listener == listener
      ensures this.props == props && queryConfig == GetQueryConfig(options.queryConfig, props)
      ensures error == None && !offline
    {
      this.options := options;
      this.fragmentNames := fragmentNames;
      this.listener := listener;
      this.props := props;
      queryConfig := GetQueryConfig(options.queryConfig, props);
      error := None;
      offline := false;
    }

    /** `componentDidMount`: listen for resets. */
    method ComponentDidMount<E>(provider: RelayEnvProvider<E>)
      modifies provider
      ensures provider.resetListeners == old(provider.resetListeners) + [listener]
      ensures provider.env == old(provider.env) && provider.notified == old(provider.notified)
    {
      provider.AddResetListener(listener);
    }

    /** `componentWillUnmount`: stop listening. */
    method ComponentWillUnmount<E>(provider: RelayEnvProvider<E>)
      modifies provider
      ensures provider.resetListeners == Removed(old(provider.resetListeners), listener)
      ensures provider.env == old(provider.env) && provider.notified == old(provider.notified)
    {
      provider.RemoveResetListener(listener);
    }

    /** New props: the query config is worked out again from them. */
    method ComponentWillUpdate(nextProps: Object<Value>)
      modifies this
      ensures props == nextProps && queryConfig == GetQueryConfig(options.queryConfig, nextProps)
      ensures error == old(error) && offline == old(offline)
    {
      queryConfig := GetQueryConfig(options.queryConfig, nextProps);
      props := nextProps;
    }

    /** `renderContainer`: the props the container is rendered with. With data the query is recorded
        as a success at `now` and the remembered error and offline flag are cleared; without data
        an error is remembered, and a network failure marks the wrapper offline. */
    method RenderContainer(error: Option<JsError>, data: Option<Object<Value>>, retry: Value, cache: QueryFetchCache, now: int)
      returns (allProps: Object<Value>)
      modifies this, cache
      ensures props == old(props) && queryConfig == old(queryConfig)
      ensures var base := BaseProps(OwnProps(props), error, old(this.error), old(offline), retry);
        allProps == if data.Some? then PropsWithData(base, data.value) else PropsWithoutData(base, fragmentNames, error)
      ensures data.Some? ==> this.error == None && !offline
      ensures data.Some? ==> cache.cache == Collected(old(cache.cache), now)[cache.GetKey(queryConfig) := now]
      ensures data.None? ==> cache.cache == old(cache.cache)
      ensures data.None? && error.Some? ==>
        this.error == error && offline == (old(offline) || IsNetworkFailure(error.value))
      ensures data.None? && error.None? ==> this.error == old(this.error) && offline == old(offline)
    {
      allProps := BaseProps(OwnProps(props), error, this.error, offline, retry);
      if data.Some? {
        cache.OnQuerySuccess(queryConfig, now);
        allProps := PropsWithData(allProps, data.value);
        this.error := None;
        offline := false;
        return;
      }
      ghost var base := allProps;
      for i := 0 to |fragmentNames|
        invariant allProps == NullFragments(base, fragmentNames[..i])
      {
        assert fragmentNames[..i + 1][..i] == fragmentNames[..i];
        allProps := Put(allProps, fragmentNames[i], Null);
      }
      assert fragmentNames[..|fragmentNames|] == fragmentNames;
      if error.Some? {
        this.error := error;
        if ErrorToString(error.value) == NETWORK_FAILURE {
          offline := true;
          allProps := Put(allProps, "offline", Bool(true));
        }
      } else {
        allProps := Put(allProps, "loading", Bool(true));
      }
    }

    /** The force-fetch decision of a normal render: never on the server; otherwise the option or
        the prop, and failing both the ttl cache when a ttl is set. */
    method ForceFetchDecision(isServer: bool, cache: QueryFetchCache, now: int, production: bool)
      returns (shouldForceFetch: Result<bool>)
      ensures var ttl := if options.ttl.Some? then options.ttl.value else 0;
        shouldForceFetch == ForceFetchFor(isServer, options.forceFetch, Truthy(Prop(Obj(props), "forceFetch")),
          options.ttl, ForceFetchVerdict(cache.cache, cache.GetKey(queryConfig), ttl, now, production))
    {
      shouldForceFetch := Ok(false);
      if !isServer {
        shouldForceFetch := Ok(options.forceFetch || Truthy(Prop(Obj(props), "forceFetch")));
        if !shouldForceFetch.value && TtlSet(options.ttl) {
          shouldForceFetch := cache.ShouldForceFetch(queryConfig, options.ttl.value, now, production);
        }
      }
    }

    /** `render`: on the isomorphic path the environment is asked for the query set's ready state
        (which on the server registers and fetches an unseen one); otherwise, and on the client when
        nothing is known, a normal render with the force-fetch decision. `getQueries` is the
        engine's `Relay.getQueries` for the container. */
    method Render<Q(!new)>(env: BaseEnvironment<Q>, initialRender: bool, cache: QueryFetchCache,
                           getQueries: QueryConfig -> QuerySet<Q>, now: int, production: bool)
      returns (r: Result<Element>)
      requires env.Valid()
      modifies env, env.queries
      ensures env.Valid()
      ensures var iso := IsomorphicPath(options.isomorphic, old(env.isIsomorphicRender), env.isServer, initialRender);
        var i := FirstMatch(env.queries.equals, old(env.queries.keyList), getQueries(queryConfig));
        var found := if iso && i >= 0 then old(env.queries.valueList)[i].readyState else None;
        var ttl := if options.ttl.Some? then options.ttl.value else 0;
        var verdict := ForceFetchVerdict(cache.cache, cache.GetKey(queryConfig), ttl, now, production);
        r == Choice(iso, env.isServer, found,
          ForceFetchFor(env.isServer, options.forceFetch, Truthy(Prop(Obj(props), "forceFetch")), options.ttl, verdict))
      ensures var iso := IsomorphicPath(options.isomorphic, old(env.isIsomorphicRender), env.isServer, initialRender);
        var qs := getQueries(queryConfig);
        if iso && env.isServer && FirstMatch(env.queries.equals, old(env.queries.keyList), qs) < 0 then
          && env.primed == old(env.primed) + [qs]
          && env.queries.keyList == old(env.queries.keyList) + [qs]
          && env.queries.valueList == old(env.queries.valueList) + [PendingQuery(|old(env.primed)|, None)]
        else
          && env.primed == old(env.primed)
          && env.queries.keyList == old(env.queries.keyList) && env.queries.valueList == old(env.queries.valueList)
    {
      var found: Option<ReadyState> := None;
      var iso := options.isomorphic && env.isIsomorphicRender && (env.isServer || initialRender);
      ghost var i := FirstMatch(env.queries.equals, env.queries.keyList, getQueries(queryConfig));
      if iso {
        found := env.RunQueriesOrGetReadyState(getQueries(queryConfig));
        assert found == if i >= 0 then old(env.queries.valueList)[i].readyState else None;
        if found.Some? {
          return Ok(ReadyStateRenderer(found.value));
        }
        if env.isServer {
          return Ok(NoElement);
        }
      }
      var shouldForceFetch := ForceFetchDecision(env.isServer, cache, now, production);
      if shouldForceFetch.Throw? {
        return Throw(shouldForceFetch.error);
      }
      return Ok(Renderer(shouldForceFetch.value));
    }
  }
}
