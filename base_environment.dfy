/** The isomorphic query coordinator shared by the server and client environments
    (src/environment/base.js). Every query set a render asks for is Unseen (no structural match in
    the map), Pending (a record without a ready state) or Settled (a record with one).

    The engine's `primeCache` is not modelled: each call is logged in `primed`, and the promise made
    around it is known by the position of that call in the log. The engine later reports a ready
    state for a call through `OnReadyStateChange`, and `resolved` holds the promises resolved so far. */
module BaseEnv {
  import opened JsValues
  import opened RelayTypes
  import opened QuerySets

  /** A map record: the promise of the fetch that made it and, once settled, the ready state. */
  datatype PendingQuery = PendingQuery(promise: nat, readyState: Option<ReadyState>)

  /** A ready state that settles a record: it reports an error, an abort or completion. */
  predicate Settles(rs: ReadyState)
  {
    rs.error.Some? || rs.aborted || rs.done
  }

  /** The records of `before` are still there, in `after`, with the same promises (their ready
      states may have been filled in). */
  ghost predicate PromisesKept(before: seq<PendingQuery>, after: seq<PendingQuery>)
  {
    |before| <= |after| && forall j :: 0 <= j < |before| ==> after[j].promise == before[j].promise
  }

  /** Records only appended, then promises kept: the promises of the first list are kept. */
  lemma PromisesKeptAfterAppend(before: seq<PendingQuery>, mid: seq<PendingQuery>, after: seq<PendingQuery>)
    requires before <= mid && PromisesKept(mid, after)
    ensures PromisesKept(before, after)
  {
    forall j | 0 <= j < |before| ensures after[j].promise == before[j].promise {
      assert mid[j] == before[j];
    }
  }

  /** What holds of the map and the fetch log between calls:
      - every fetch ever issued has a structural match among the keys (keys are never removed);
      - the record in slot `j` belongs to a fetch whose query set finds slot `j`;
      - a record whose own promise has resolved carries a ready state. */
  predicate Tracked<Q>(eq: (Q, Q) -> bool, keys: seq<QuerySet<Q>>, values: seq<PendingQuery>,
                       primed: seq<QuerySet<Q>>, resolved: set<nat>)
  {
    && |keys| == |values|
    && (forall f :: f in resolved ==> f < |primed|)
    && (forall f :: 0 <= f < |primed| ==> FirstMatch(eq, keys, primed[f]) >= 0)
    && (forall j :: 0 <= j < |values| ==>
          values[j].promise < |primed| && FirstMatch(eq, keys, primed[values[j].promise]) == j)
    && (forall j :: 0 <= j < |values| && values[j].promise in resolved ==> values[j].readyState.Some?)
  }

  /** Registering a fresh fetch for `qs` (`isomorphicRunQuery`) keeps the coordinator tracked. */
  lemma {:induction false} RegisterPreserves<Q>(eq: (Q, Q) -> bool, keys: seq<QuerySet<Q>>, values: seq<PendingQuery>,
                                                primed: seq<QuerySet<Q>>, resolved: set<nat>, qs: QuerySet<Q>)
    requires Tracked(eq, keys, values, primed, resolved) && KeyMatch(eq, qs, qs)
    ensures var (ks, vs) := Store(eq, keys, values, qs, PendingQuery(|primed|, None));
      Tracked(eq, ks, vs, primed + [qs], resolved)
  {
    var (ks, vs) := Store(eq, keys, values, qs, PendingQuery(|primed|, None));
    var p' := primed + [qs];
    var i := FirstMatch(eq, keys, qs);
    if i < 0 {
      assert ks[..|keys|] == keys;
      assert FirstMatch(eq, ks, qs) == |keys|;
      forall f | 0 <= f < |primed| ensures FirstMatch(eq, ks, primed[f]) == FirstMatch(eq, keys, primed[f]) {
        FirstMatchAppend(eq, keys, qs, primed[f]);
      }
    }
    assert FirstMatch(eq, ks, qs) >= 0;
    forall f | 0 <= f < |p'| ensures FirstMatch(eq, ks, p'[f]) >= 0 {
      if f < |primed| { assert p'[f] == primed[f]; }
    }
    forall j | 0 <= j < |vs|
      ensures vs[j].promise < |p'| && FirstMatch(eq, ks, p'[vs[j].promise]) == j
    {
      if vs[j].promise == |primed| {
        assert FirstMatch(eq, ks, qs) == j;
      } else {
        assert p'[vs[j].promise] == primed[vs[j].promise];
      }
    }
  }

  /** A settling report for fetch `fetch` finds a record, and storing the ready state there (the
      callback in `isomorphicRunQuery`) keeps the coordinator tracked once `fetch` is resolved. */
  lemma SettlePreserves<Q>(eq: (Q, Q) -> bool, keys: seq<QuerySet<Q>>, values: seq<PendingQuery>,
                           primed: seq<QuerySet<Q>>, resolved: set<nat>, fetch: nat, rs: ReadyState)
    requires Tracked(eq, keys, values, primed, resolved) && fetch < |primed|
    ensures var i := FirstMatch(eq, keys, primed[fetch]);
      i >= 0 && Tracked(eq, keys, values[i := PendingQuery(values[i].promise, Some(rs))], primed, resolved + {fetch})
  {
    var i := FirstMatch(eq, keys, primed[fetch]);
    var vs := values[i := PendingQuery(values[i].promise, Some(rs))];
    forall j | 0 <= j < |vs| && j != i ensures vs[j].promise == fetch ==> j == i {
      assert FirstMatch(eq, keys, primed[values[j].promise]) == j;
    }
  }

  /** Each fetch's promise belongs to at most one record. */
  lemma PromisesDistinct<Q>(eq: (Q, Q) -> bool, keys: seq<QuerySet<Q>>, values: seq<PendingQuery>,
                            primed: seq<QuerySet<Q>>, resolved: set<nat>, j1: int, j2: int)
    requires Tracked(eq, keys, values, primed, resolved)
    requires 0 <= j1 < |values| && 0 <= j2 < |values| && j1 != j2
    ensures values[j1].promise != values[j2].promise
  {
    assert FirstMatch(eq, keys, primed[values[j1].promise]) == j1;
    assert FirstMatch(eq, keys, primed[values[j2].promise]) == j2;
  }

  /** Each fetch finds a record of its own: no two fetches' query sets find the same record. This
      holds on the server, which fetches only query sets no key matches yet; on the client a query
      set re-run by `InjectAndRun` finds the record of an earlier fetch. */
  ghost predicate OneFetchPerRecord<Q>(eq: (Q, Q) -> bool, keys: seq<QuerySet<Q>>, primed: seq<QuerySet<Q>>)
  {
    forall f, g :: 0 <= f < g < |primed| ==> FirstMatch(eq, keys, primed[f]) != FirstMatch(eq, keys, primed[g])
  }

  /** Fetching a query set no key matches, filed at the end, keeps one fetch per record. */
  lemma OneFetchAppend<Q>(eq: (Q, Q) -> bool, keys: seq<QuerySet<Q>>, values: seq<PendingQuery>,
                          primed: seq<QuerySet<Q>>, resolved: set<nat>, qs: QuerySet<Q>)
    requires Tracked(eq, keys, values, primed, resolved) && OneFetchPerRecord(eq, keys, primed)
    requires KeyMatch(eq, qs, qs) && FirstMatch(eq, keys, qs) < 0
    ensures OneFetchPerRecord(eq, keys + [qs], primed + [qs])
  {
    var ks, p' := keys + [qs], primed + [qs];
    forall f | 0 <= f < |primed| ensures FirstMatch(eq, ks, p'[f]) == FirstMatch(eq, keys, primed[f]) {
      FirstMatchAppend(eq, keys, qs, primed[f]);
    }
    assert ks[..|keys|] == keys;
    assert FirstMatch(eq, ks, qs) == |keys|;
  }

  /** The wait reaching fetch `f`: unless `f` is in `resolved`, its ready state from `engine`, if
      it settles, is stored in the record its query set finds, which keeps its promise. */
  function AwaitStep<Q>(eq: (Q, Q) -> bool, keys: seq<QuerySet<Q>>, values: seq<PendingQuery>, primed: seq<QuerySet<Q>>,
                        resolved: set<nat>, engine: QuerySet<Q> -> ReadyState, f: nat): (after: seq<PendingQuery>)
    requires |keys| == |values| && f < |primed|
    ensures |after| == |values| && forall j :: 0 <= j < |values| ==> after[j].promise == values[j].promise
  {
    var i := FirstMatch(eq, keys, primed[f]);
    if f in resolved || !Settles(engine(primed[f])) || i < 0 then values
    else values[i := PendingQuery(values[i].promise, Some(engine(primed[f])))]
  }

  /** The records after a wait has gone through the fetches from `f` on, in order, starting from
      `values`; `resolved` holds the promises resolved before the wait. */
  function AwaitedFrom<Q>(eq: (Q, Q) -> bool, keys: seq<QuerySet<Q>>, values: seq<PendingQuery>, primed: seq<QuerySet<Q>>,
                          resolved: set<nat>, engine: QuerySet<Q> -> ReadyState, f: nat): (after: seq<PendingQuery>)
    requires |keys| == |values| && f <= |primed|
    ensures |after| == |values| && PromisesKept(values, after)
    decreases |primed| - f
  {
    if f == |primed| then values
    else AwaitedFrom(eq, keys, AwaitStep(eq, keys, values, primed, resolved, engine, f), primed, resolved, engine, f + 1)
  }

  /** What a wait makes of record `r`: an outstanding fetch that `engine` settles gives its record
      that ready state; any other record stays as it is. */
  function Answer<Q>(primed: seq<QuerySet<Q>>, resolved: set<nat>, engine: QuerySet<Q> -> ReadyState,
                     r: PendingQuery): (a: PendingQuery)
    ensures a.promise == r.promise
  {
    if r.promise < |primed| && r.promise !in resolved && Settles(engine(primed[r.promise]))
    then PendingQuery(r.promise, Some(engine(primed[r.promise])))
    else r
  }

  /** Each record is found by the fetch that made it, and every fetch finds one. */
  ghost predicate OwnFetches<Q>(eq: (Q, Q) -> bool, keys: seq<QuerySet<Q>>, values: seq<PendingQuery>, primed: seq<QuerySet<Q>>)
  {
    && |keys| == |values|
    && (forall f :: 0 <= f < |primed| ==> FirstMatch(eq, keys, primed[f]) >= 0)
    && (forall j :: 0 <= j < |values| ==>
          values[j].promise < |primed| && FirstMatch(eq, keys, primed[values[j].promise]) == j)
  }

  /** With one fetch per record, a wait through the fetches from `f` on answers exactly the records
      whose own promise is among them, and leaves the others as they were: a record is written only
      by its own fetch. */
  lemma {:induction false} AwaitedOwnFetch<Q>(eq: (Q, Q) -> bool, keys: seq<QuerySet<Q>>, values: seq<PendingQuery>,
                                              primed: seq<QuerySet<Q>>, resolved: set<nat>,
                                              engine: QuerySet<Q> -> ReadyState, f: nat)
    requires OwnFetches(eq, keys, values, primed) && OneFetchPerRecord(eq, keys, primed)
    requires f <= |primed|
    ensures forall j :: 0 <= j < |values| ==>
      AwaitedFrom(eq, keys, values, primed, resolved, engine, f)[j]
        == if values[j].promise >= f then Answer(primed, resolved, engine, values[j]) else values[j]
    decreases |primed| - f
  {
    if f < |primed| {
      var i := FirstMatch(eq, keys, primed[f]);
      forall j | 0 <= j < |values| ensures values[j].promise == f <==> j == i {
        var p := values[j].promise;
        assert FirstMatch(eq, keys, primed[p]) == j;
        if p < f {
          assert FirstMatch(eq, keys, primed[p]) != FirstMatch(eq, keys, primed[f]);
        } else if f < p {
          assert FirstMatch(eq, keys, primed[f]) != FirstMatch(eq, keys, primed[p]);
        }
      }
      var values' := AwaitStep(eq, keys, values, primed, resolved, engine, f);
      AwaitedOwnFetch(eq, keys, values', primed, resolved, engine, f + 1);
    }
  }

  /** The resolved promises once a wait has gone through the fetches before `f`: those resolved
      before it, `done`, and every fetch before `f`. */
  ghost predicate ResolvedThrough(resolved: set<nat>, done: set<nat>, f: nat)
  {
    && done <= resolved
    && (forall g :: g in resolved && g !in done ==> g < f)
    && (forall g :: 0 <= g < f ==> g in resolved)
  }

  class BaseEnvironment<Q(!new)> {
    /** `isomorphicQueriesMap`. */
    const queries: QuerySetMap<Q, PendingQuery>
    /** `isServer`: set by the server environment only. */
    const isServer: bool
    var isIsomorphicRender: bool
    /** The query sets passed to `primeCache`, in call order; call `f` made promise `f`. */
    var primed: seq<QuerySet<Q>>
    /** The promises resolved so far. */
    var resolved: set<nat>

    ghost predicate Wellformed()
      reads this, queries
    {
      queries.Valid()
    }

    ghost predicate Valid()
      reads this, queries
    {
      && Wellformed()
      && Reflexive(queries.equals)
      && Tracked(queries.equals, queries.keyList, queries.valueList, primed, resolved)
    }

    /** `equals` is the engine's query equality, which every query satisfies with itself. */
    constructor (equals: (Q, Q) -> bool, isServer: bool, isIsomorphicRender: bool)
      requires Reflexive(equals)
      ensures Valid() && fresh(queries)
      ensures queries.equals == equals && queries.keyList == [] && queries.valueList == []
      ensures this.isServer == isServer && this.isIsomorphicRender == isIsomorphicRender
      ensures primed == [] && resolved == {}
    {
      queries := new QuerySetMap(equals);
      this.isServer := isServer;
      this.isIsomorphicRender := isIsomorphicRender;
      primed := [];
      resolved := {};
    }

    /** `isomorphicRunQuery`: issue one fetch and file a fresh record under `qs`, overwriting the
        record of a structurally equal query set if there is one. */
    method RunQuery(qs: QuerySet<Q>)
      requires Valid()
      modifies this, queries
      ensures Valid()
      ensures primed == old(primed) + [qs] && resolved == old(resolved)
      ensures (queries.keyList, queries.valueList)
        == Store(queries.equals, old(queries.keyList), old(queries.valueList), qs, PendingQuery(|old(primed)|, None))
      ensures isIsomorphicRender == old(isIsomorphicRender)
    {
      KeyMatchReflexive(queries.equals, qs);
      RegisterPreserves(queries.equals, queries.keyList, queries.valueList, primed, resolved, qs);
      var promise := |primed|;
      primed := primed + [qs];
      queries.Set(qs, PendingQuery(promise, None));
    }

    /** `isomorphicRunQueriesOrGetReadyState`: a settled match gives its ready state back; an
        unseen query set is fetched on the server only; otherwise nothing happens. */
    method RunQueriesOrGetReadyState(qs: QuerySet<Q>) returns (r: Option<ReadyState>)
      requires Valid()
      modifies this, queries
      ensures Valid() && resolved == old(resolved) && isIsomorphicRender == old(isIsomorphicRender)
      ensures var i := FirstMatch(queries.equals, old(queries.keyList), qs);
        if i >= 0 then
          r == old(queries.valueList)[i].readyState
          && primed == old(primed)
          && queries.keyList == old(queries.keyList) && queries.valueList == old(queries.valueList)
        else if isServer then
          r == None
          && primed == old(primed) + [qs]
          && queries.keyList == old(queries.keyList) + [qs]
          && queries.valueList == old(queries.valueList) + [PendingQuery(|old(primed)|, None)]
        else
          r == None
          && primed == old(primed)
          && queries.keyList == old(queries.keyList) && queries.valueList == old(queries.valueList)
    {
      var pendingQuery := queries.Get(qs);
      if pendingQuery.Some? && pendingQuery.value.readyState.Some? {
        return pendingQuery.value.readyState;
      }
      if pendingQuery.None? && isServer {
        RunQuery(qs);
      }
      return None;
    }

    /** The ready-state callback of fetch `fetch`: only a settling report acts; it stores the ready
        state in the record that the fetch's query set finds now (which may be a newer record filed
        under an equal query set) and resolves the fetch's own promise. With no record it is ignored. */
    method OnReadyStateChange(fetch: nat, rs: ReadyState)
      requires Wellformed() && fetch < |primed|
      modifies queries, this
      ensures Wellformed()
      ensures old(Valid()) ==> Valid()
      ensures primed == old(primed) && queries.keyList == old(queries.keyList)
      ensures isIsomorphicRender == old(isIsomorphicRender)
      ensures var i := FirstMatch(queries.equals, old(queries.keyList), primed[fetch]);
        if Settles(rs) && i >= 0 then
          queries.valueList == old(queries.valueList)[i := PendingQuery(old(queries.valueList)[i].promise, Some(rs))]
          && resolved == old(resolved) + {fetch}
        else
          queries.valueList == old(queries.valueList) && resolved == old(resolved)
    {
      if Settles(rs) {
        if Valid() {
          SettlePreserves(queries.equals, queries.keyList, queries.valueList, primed, resolved, fetch, rs);
        }
        var pendingQuery := queries.Get(primed[fetch]);
        if pendingQuery.Some? {
          queries.Set(primed[fetch], PendingQuery(pendingQuery.value.promise, Some(rs)));
          resolved := resolved + {fetch};
        }
      }
    }

    /** `isomorphicQueriesPromise`: the promises of every record tracked now, in map order. */
    method QueriesPromise() returns (promises: seq<nat>)
      requires Valid()
      ensures |promises| == |queries.valueList|
      ensures forall j :: 0 <= j < |promises| ==> promises[j] == queries.valueList[j].promise
      ensures forall j :: 0 <= j < |promises| ==> promises[j] < |primed|
    {
      var values := queries.Values();
      promises := seq(|values|, j requires 0 <= j < |values| => values[j].promise);
    }

    /** The wait reaching fetch `f`, the promises resolved before the wait being `done`: unless its
        promise is resolved already, its report from `engine` is stored in the record its query set
        finds, and the promise is resolved. */
    method AwaitFetch(f: nat, engine: QuerySet<Q> -> ReadyState, ghost eq: (Q, Q) -> bool, ghost keys: seq<QuerySet<Q>>,
                      ghost fetches: seq<QuerySet<Q>>, ghost done: set<nat>)
      requires Valid() && queries.equals == eq && queries.keyList == keys && primed == fetches
      requires f < |fetches| && Settles(engine(fetches[f]))
      requires ResolvedThrough(resolved, done, f)
      modifies this, queries
      ensures Valid() && ResolvedThrough(resolved, done, f + 1)
      ensures primed == fetches && queries.keyList == keys
      ensures isIsomorphicRender == old(isIsomorphicRender)
      ensures queries.valueList == AwaitStep(eq, keys, old(queries.valueList), fetches, done, engine, f)
    {
      assert FirstMatch(queries.equals, queries.keyList, primed[f]) >= 0;
      if f !in resolved {
        OnReadyStateChange(f, engine(primed[f]));
      }
    }

    /** Waiting on `isomorphicQueriesPromise` while the engine answers every outstanding fetch of
        `qs` with `engine(qs)`, a settling ready state. Afterwards every tracked record is settled,
        every promise is resolved, and the records are those the fetches' reports leave, in the order
        the fetches were made. */
    method AwaitQueries(engine: QuerySet<Q> -> ReadyState)
      requires Valid()
      requires forall f :: 0 <= f < |primed| ==> Settles(engine(primed[f]))
      modifies this, queries
      ensures Valid()
      ensures primed == old(primed) && queries.keyList == old(queries.keyList)
      ensures isIsomorphicRender == old(isIsomorphicRender)
      ensures forall f :: 0 <= f < |primed| <==> f in resolved
      ensures forall j :: 0 <= j < |queries.valueList| ==> queries.valueList[j].readyState.Some?
      ensures |queries.valueList| == |old(queries.valueList)| && PromisesKept(old(queries.valueList), queries.valueList)
      ensures queries.valueList
        == AwaitedFrom(queries.equals, queries.keyList, old(queries.valueList), primed, old(resolved), engine, 0)
    {
      AwaitFrom(0, engine, queries.equals, queries.keyList, primed, resolved);
    }

    /** The wait from fetch `f` on, the fetches before it done and `done` the promises resolved
        before the wait: every fetch from `f` on is reached in order. */
    method AwaitFrom(f: nat, engine: QuerySet<Q> -> ReadyState, ghost eq: (Q, Q) -> bool, ghost keys: seq<QuerySet<Q>>,
                     ghost fetches: seq<QuerySet<Q>>, ghost done: set<nat>)
      requires Valid() && queries.equals == eq && queries.keyList == keys && primed == fetches
      requires f <= |fetches| && forall g :: 0 <= g < |fetches| ==> Settles(engine(fetches[g]))
      requires ResolvedThrough(resolved, done, f)
      modifies this, queries
      ensures Valid() && primed == fetches && queries.keyList == keys
      ensures isIsomorphicRender == old(isIsomorphicRender)
      ensures ResolvedThrough(resolved, done, |fetches|)
      ensures queries.valueList == AwaitedFrom(eq, keys, old(queries.valueList), fetches, done, engine, f)
      decreases |fetches| - f
    {
      if f < |primed| {
        AwaitFetch(f, engine, eq, keys, fetches, done);
        AwaitFrom(f + 1, engine, eq, keys, fetches, done);
      }
    }
  }
}
