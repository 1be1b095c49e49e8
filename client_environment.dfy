/** The client environment (src/environment/client.js): it takes the records the server sent,
    writes each query's data into the store, rebuilds each query set and registers it, so that the
    first client render finds every server-side query set. The store's `handleQueryPayload` is not
    modelled: its calls are logged in `storePayloads`. */
module ClientEnv {
  import opened JsValues
  import opened RelayTypes
  import opened QuerySets
  import opened BaseEnv

  /** The query set rebuilt from one record: each field's query, assigned in the record's order. */
  function Rebuilt<Q>(fromGraphQL: Value -> Q, record: ServerResult): (qs: QuerySet<Q>)
    ensures |qs| <= |record|
    decreases |record|
  {
    if |record| == 0 then []
    else
      var n := |record| - 1;
      var p := Rebuilt(fromGraphQL, record[..n]);
      DistinctPut(p, record[n].0, fromGraphQL(record[n].1.query));
      Put(p, record[n].0, fromGraphQL(record[n].1.query))
  }

  /** A record (whose field names are distinct, as in any object) is rebuilt into a query set with
      exactly its field names, in its order, each holding its field's query. */
  lemma {:induction false} RebuiltFields<Q>(fromGraphQL: Value -> Q, record: ServerResult)
    requires DistinctKeys(record)
    ensures |Rebuilt(fromGraphQL, record)| == |record|
    ensures forall i :: 0 <= i < |record| ==>
      Rebuilt(fromGraphQL, record)[i] == (record[i].0, fromGraphQL(record[i].1.query))
    decreases |record|
  {
    if |record| > 0 {
      var n := |record| - 1;
      var p := Rebuilt(fromGraphQL, record[..n]);
      RebuiltFields(fromGraphQL, record[..n]);
      forall i | 0 <= i < |p| ensures p[i].0 != record[n].0 {
        assert record[..n][i] == record[i];
      }
    }
  }

  /** The store writes for one record: one per field, with that field's data. */
  function Payloads<Q>(fromGraphQL: Value -> Q, record: ServerResult): (ps: seq<(Q, Value)>)
    ensures |ps| == |record|
    ensures |record| > 0 ==> ps[|ps| - 1] == (fromGraphQL(record[|record| - 1].1.query), record[|record| - 1].1.data)
    decreases |record|
  {
    if |record| == 0 then []
    else
      var n := |record| - 1;
      Payloads(fromGraphQL, record[..n]) + [(fromGraphQL(record[n].1.query), record[n].1.data)]
  }

  /** Exactly one store write per field, in field order. */
  lemma {:induction false} PayloadsFields<Q>(fromGraphQL: Value -> Q, record: ServerResult)
    ensures |Payloads(fromGraphQL, record)| == |record|
    ensures forall i :: 0 <= i < |record| ==>
      Payloads(fromGraphQL, record)[i] == (fromGraphQL(record[i].1.query), record[i].1.data)
    decreases |record|
  {
    if |record| > 0 {
      var n := |record| - 1;
      PayloadsFields(fromGraphQL, record[..n]);
      assert forall i :: 0 <= i < n ==> record[..n][i] == record[i];
    }
  }

  /** The store writes for all records, record after record. */
  function AllPayloads<Q>(fromGraphQL: Value -> Q, data: seq<ServerResult>): seq<(Q, Value)>
    decreases |data|
  {
    if |data| == 0 then [] else
      var n := |data| - 1;
      AllPayloads(fromGraphQL, data[..n]) + Payloads(fromGraphQL, data[n])
  }

  /** The rebuilt query sets, in record order. */
  function AllRebuilt<Q>(fromGraphQL: Value -> Q, data: seq<ServerResult>): (qss: seq<QuerySet<Q>>)
    ensures |qss| == |data|
    decreases |data|
  {
    if |data| == 0 then [] else
      var n := |data| - 1;
      AllRebuilt(fromGraphQL, data[..n]) + [Rebuilt(fromGraphQL, data[n])]
  }

  /** The `i`-th rebuilt query set is the `i`-th record's. */
  lemma {:induction false} AllRebuiltAt<Q>(fromGraphQL: Value -> Q, data: seq<ServerResult>, i: int)
    requires 0 <= i < |data|
    ensures AllRebuilt(fromGraphQL, data)[i] == Rebuilt(fromGraphQL, data[i])
    decreases |data|
  {
    var n := |data| - 1;
    if i < n {
      AllRebuiltAt(fromGraphQL, data[..n], i);
      assert data[..n][i] == data[i];
    }
  }

  /** The map after registering `qss` in order, the `i`-th with the promise of fetch `first + i`. */
  function RegisterAll<Q>(eq: (Q, Q) -> bool, keys: seq<QuerySet<Q>>, values: seq<PendingQuery>, first: nat,
                          qss: seq<QuerySet<Q>>): (r: (seq<QuerySet<Q>>, seq<PendingQuery>))
    requires |keys| == |values|
    ensures |r.0| == |r.1|
    decreases |qss|
  {
    if |qss| == 0 then (keys, values)
    else
      var n := |qss| - 1;
      var (ks, vs) := RegisterAll(eq, keys, values, first, qss[..n]);
      Store(eq, ks, vs, qss[n], PendingQuery(first + n, None))
  }

  /** After registering the rebuilt query sets, each of them finds a record, so the first client
      render gets a ready state (or a pending record) for every query set the server sent. */
  lemma {:induction false} RegisterAllFinds<Q>(eq: (Q, Q) -> bool, keys: seq<QuerySet<Q>>, values: seq<PendingQuery>,
                                               first: nat, qss: seq<QuerySet<Q>>)
    requires |keys| == |values|
    requires forall i :: 0 <= i < |qss| ==> KeyMatch(eq, qss[i], qss[i])
    ensures forall i :: 0 <= i < |qss| ==> FirstMatch(eq, RegisterAll(eq, keys, values, first, qss).0, qss[i]) >= 0
    decreases |qss|
  {
    if |qss| > 0 {
      var n := |qss| - 1;
      var (ks, vs) := RegisterAll(eq, keys, values, first, qss[..n]);
      RegisterAllFinds(eq, keys, values, first, qss[..n]);
      forall i | 0 <= i < |qss|
        ensures FirstMatch(eq, Store(eq, ks, vs, qss[n], PendingQuery(first + n, None)).0, qss[i]) >= 0
      {
        if i < n {
          assert qss[..n][i] == qss[i];
        }
        StoreFinds(eq, ks, vs, qss[n], PendingQuery(first + n, None), qss[i]);
      }
    }
  }

  /** One more record adds its store writes and its rebuilt query set at the end, after whatever
      came before (`payloads0`, `primed0`). */
  lemma InjectSnoc<Q>(fromGraphQL: Value -> Q, data: seq<ServerResult>, d: int,
                      payloads0: seq<(Q, Value)>, primed0: seq<QuerySet<Q>>)
    requires 0 <= d < |data|
    ensures payloads0 + AllPayloads(fromGraphQL, data[..d + 1])
      == (payloads0 + AllPayloads(fromGraphQL, data[..d])) + Payloads(fromGraphQL, data[d])
    ensures primed0 + AllRebuilt(fromGraphQL, data[..d + 1])
      == (primed0 + AllRebuilt(fromGraphQL, data[..d])) + [Rebuilt(fromGraphQL, data[d])]
    ensures AllRebuilt(fromGraphQL, data[..d + 1]) == AllRebuilt(fromGraphQL, data[..d]) + [Rebuilt(fromGraphQL, data[d])]
  {
    assert data[..d + 1][..d] == data[..d];
  }

  /** Registering one more query set stores it after the others, with the next promise. */
  lemma RegisterAllSnoc<Q>(eq: (Q, Q) -> bool, keys: seq<QuerySet<Q>>, values: seq<PendingQuery>, first: nat,
                           qss: seq<QuerySet<Q>>, qs: QuerySet<Q>)
    requires |keys| == |values|
    ensures var (ks, vs) := RegisterAll(eq, keys, values, first, qss);
      RegisterAll(eq, keys, values, first, qss + [qs]) == Store(eq, ks, vs, qs, PendingQuery(first + |qss|, None))
  {
    assert (qss + [qs])[..|qss|] == qss;
  }

  class ClientEnvironment<Q(!new)> {
    const base: BaseEnvironment<Q>
    /** The engine's `fromGraphQL.Query`. */
    const fromGraphQL: Value -> Q
    /** The calls made to the store's `handleQueryPayload`, in order. */
    var storePayloads: seq<(Q, Value)>

    ghost predicate Valid()
      reads this, base, base.queries
    {
      base.Valid() && !base.isServer
    }

    constructor (equals: (Q, Q) -> bool, fromGraphQL: Value -> Q)
      requires Reflexive(equals)
      ensures Valid() && fresh(base) && fresh(base.queries)
      ensures !base.isIsomorphicRender && base.queries.equals == equals
      ensures base.queries.keyList == [] && base.primed == [] && storePayloads == []
      ensures this.fromGraphQL == fromGraphQL
    {
      base := new BaseEnvironment(equals, false, false);
      this.fromGraphQL := fromGraphQL;
      storePayloads := [];
    }

    /** One record of `isomorphicInjectServerData`: each field's data goes to the store and its
        query into the rebuilt query set. */
    method InjectRecord(record: ServerResult) returns (querySet: QuerySet<Q>)
      modifies this
      ensures querySet == Rebuilt(fromGraphQL, record)
      ensures storePayloads == old(storePayloads) + Payloads(fromGraphQL, record)
    {
      querySet := [];
      for f := 0 to |record|
        invariant querySet == Rebuilt(fromGraphQL, record[..f])
        invariant storePayloads == old(storePayloads) + Payloads(fromGraphQL, record[..f])
      {
        assert record[..f + 1][..f] == record[..f];
        var query := fromGraphQL(record[f].1.query);
        storePayloads := storePayloads + [(query, record[f].1.data)];
        DistinctPut(querySet, record[f].0, query);
        querySet := Put(querySet, record[f].0, query);
      }
      assert record[..|record|] == record;
    }

    /** One iteration of `isomorphicInjectServerData`: the record's data goes to the store and its
        rebuilt query set is fetched, after the query sets `done` registered from `keys0`/`values0`. */
    method InjectAndRun(record: ServerResult, ghost keys0: seq<QuerySet<Q>>, ghost values0: seq<PendingQuery>,
                        ghost first: nat, ghost done: seq<QuerySet<Q>>)
      requires Valid() && |keys0| == |values0| && |base.primed| == first + |done|
      requires (base.queries.keyList, base.queries.valueList) == RegisterAll(base.queries.equals, keys0, values0, first, done)
      modifies this, base, base.queries
      ensures Valid() && base.isIsomorphicRender == old(base.isIsomorphicRender)
      ensures storePayloads == old(storePayloads) + Payloads(fromGraphQL, record)
      ensures base.primed == old(base.primed) + [Rebuilt(fromGraphQL, record)]
      ensures (base.queries.keyList, base.queries.valueList)
        == RegisterAll(base.queries.equals, keys0, values0, first, done + [Rebuilt(fromGraphQL, record)])
    {
      var querySet := InjectRecord(record);
      base.RunQuery(querySet);
      RegisterAllSnoc(base.queries.equals, keys0, values0, first, done, querySet);
    }

    /** `isomorphicInjectServerData`: marks the render isomorphic, writes every field's data to the
        store, registers one fetch per record in record order, and returns the promises of every
        tracked record, earlier ones included. Afterwards each rebuilt query set finds a record. */
    method IsomorphicInjectServerData(data: seq<ServerResult>) returns (promises: seq<nat>)
      requires Valid()
      modifies this, base, base.queries
      ensures Valid() && base.isIsomorphicRender
      ensures storePayloads == old(storePayloads) + AllPayloads(fromGraphQL, data)
      ensures base.primed == old(base.primed) + AllRebuilt(fromGraphQL, data)
      ensures (base.queries.keyList, base.queries.valueList) == RegisterAll(base.queries.equals,
        old(base.queries.keyList), old(base.queries.valueList), |old(base.primed)|, AllRebuilt(fromGraphQL, data))
      ensures |promises| == |base.queries.valueList|
      ensures forall j :: 0 <= j < |promises| ==> promises[j] == base.queries.valueList[j].promise
    {
      base.isIsomorphicRender := true;
      ghost var primed0, keys0, values0 := base.primed, base.queries.keyList, base.queries.valueList;
      for d := 0 to |data|
        invariant Valid() && base.isIsomorphicRender
        invariant storePayloads == old(storePayloads) + AllPayloads(fromGraphQL, data[..d])
        invariant base.primed == primed0 + AllRebuilt(fromGraphQL, data[..d])
        invariant (base.queries.keyList, base.queries.valueList)
          == RegisterAll(base.queries.equals, keys0, values0, |primed0|, AllRebuilt(fromGraphQL, data[..d]))
      {
        InjectSnoc(fromGraphQL, data, d, old(storePayloads), primed0);
        InjectAndRun(data[d], keys0, values0, |primed0|, AllRebuilt(fromGraphQL, data[..d]));
      }
      assert data[..|data|] == data;
      promises := base.QueriesPromise();
    }
  }
}
