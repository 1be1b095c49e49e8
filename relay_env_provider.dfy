/** The environment provider (src/components/RelayEnvProvider/index.js): the context object that
    every renderer below it shares. It holds the current Relay environment, the reset listeners,
    the `initialRender` flag and one fetch cache. Environments are a type parameter; `createEnv` is a
    function of how many environments it has made so far, so each call can give a new one. A listener
    is known by its identity, and calling it is logged. */
module EnvProvider {
  import opened JsValues
  import opened FetchCache

  /** The listener list after `removeResetListener(callback)`. */
  function Removed(listeners: seq<nat>, callback: nat): (r: seq<nat>)
    ensures |r| == |listeners| - multiset(listeners)[callback]
    ensures forall x :: x in r <==> x in listeners && x != callback
  {
    if |listeners| == 0 then []
    else
      assert listeners == [listeners[0]] + listeners[1..];
      (if listeners[0] == callback then [] else [listeners[0]]) + Removed(listeners[1..], callback)
  }

  /** Removal keeps the other listeners in order: it works piece by piece. */
  lemma {:induction false} RemovedAppend(a: seq<nat>, b: seq<nat>, callback: nat)
    ensures Removed(a + b, callback) == Removed(a, callback) + Removed(b, callback)
    decreases |a|
  {
    if |a| > 0 {
      assert (a + b)[1..] == a[1..] + b;
      RemovedAppend(a[1..], b, callback);
      var head := if a[0] == callback then [] else [a[0]];
      assert Removed(a + b, callback) == head + Removed(a[1..] + b, callback);
      assert Removed(a, callback) == head + Removed(a[1..], callback);
    } else {
      assert a + b == b;
    }
  }

  /** Adding a listener and then removing it leaves the others as they were, whatever order they
      were in and however often the callback was already registered. */
  lemma AddThenRemove(listeners: seq<nat>, callback: nat)
    ensures Removed(listeners + [callback], callback) == Removed(listeners, callback)
  {
    RemovedAppend(listeners, [callback], callback);
  }

  /** The error `reset` throws outside production when there is no `createEnv`. */
  const RESET_ERROR := JsError("Error", "createEnv not provided to RelayEnvProvider or relayEnvContext.reset called unexpectedly")

  /** The provider's context (`relayEnvContext`) and its private state. */
  class RelayEnvProvider<E> {
    /** The `createEnv` prop: the `n`-th call gives `createEnv(n)`. */
    const createEnv: Option<nat -> E>
    /** How many times `createEnv` has been called. */
    var created: nat
    var env: Option<E>
    var initialRender: bool
    var resetListeners: seq<nat>
    /** The listener calls made so far, in order. */
    var notified: seq<nat>
    /** The one cache behind the context's `shouldForceFetch` and `onQuerySuccess`. */
    const fetchCache: QueryFetchCache

    /** The initial environment is `initialEnv` when given, else a fresh one from `createEnv`,
        else none. */
    constructor (initialEnv: Option<E>, createEnv: Option<nat -> E>, stringify: Object<Value> -> string)
      ensures this.createEnv == createEnv
      ensures env == (if initialEnv.Some? then initialEnv else if createEnv.Some? then Some(createEnv.value(0)) else None)
      ensures created == (if initialEnv.None? && createEnv.Some? then 1 else 0)
      ensures initialRender && resetListeners == [] && notified == []
      ensures fresh(fetchCache) && fetchCache.cache == map[] && fetchCache.stringify == stringify
    {
      this.createEnv := createEnv;
      if initialEnv.Some? {
        env := initialEnv;
        created := 0;
      } else if createEnv.Some? {
        env := Some(createEnv.value(0));
        created := 1;
      } else {
        env := None;
        created := 0;
      }
      initialRender := true;
      resetListeners := [];
      notified := [];
      fetchCache := new QueryFetchCache(stringify);
    }

    /** `componentDidMount`: the initial render is over. */
    method ComponentDidMount()
      modifies this
      ensures !initialRender
      ensures env == old(env) && resetListeners == old(resetListeners) && notified == old(notified) && created == old(created)
    {
      initialRender := false;
    }

    /** `addResetListener`. */
    method AddResetListener(callback: nat)
      modifies this
      ensures resetListeners == old(resetListeners) + [callback]
      ensures env == old(env) && initialRender == old(initialRender) && notified == old(notified) && created == old(created)
    {
      resetListeners := resetListeners + [callback];
    }

    /** `removeResetListener`: every registration of the callback goes, the others stay in order. */
    method RemoveResetListener(callback: nat)
      modifies this
      ensures resetListeners == Removed(old(resetListeners), callback)
      ensures env == old(env) && initialRender == old(initialRender) && notified == old(notified) && created == old(created)
    {
      resetListeners := Removed(resetListeners, callback);
    }

    /** `reset`: with `createEnv`, a new environment replaces the current one and then every
        listener is called in registration order; without it, outside production it throws and
        nothing changes, and in production nothing happens. */
    method Reset(production: bool) returns (thrown: Option<JsError>)
      modifies this
      ensures resetListeners == old(resetListeners) && initialRender == old(initialRender)
      ensures createEnv.Some? ==>
        && thrown == None
        && env == Some(createEnv.value(old(created))) && created == old(created) + 1
        && notified == old(notified) + resetListeners
      ensures createEnv.None? ==>
        && thrown == (if production then None else Some(RESET_ERROR))
        && env == old(env) && created == old(created) && notified == old(notified)
    {
      if createEnv.Some? {
        env := Some(createEnv.value(created));
        created := created + 1;
        var listeners := resetListeners;
        for i := 0 to |listeners|
          invariant resetListeners == listeners == old(resetListeners) && initialRender == old(initialRender)
          invariant env == Some(createEnv.value(old(created))) && created == old(created) + 1
          invariant notified == old(notified) + listeners[..i]
        {
          notified := notified + [listeners[i]];
        }
        assert listeners[..|listeners|] == listeners;
        return None;
      } else if !production {
        return Some(RESET_ERROR);
      }
      return None;
    }
  }
}
