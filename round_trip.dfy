/** The hand-over from server to client: the records `isomorphicClientData` sends
    (src/environment/server.js) are rebuilt by `isomorphicInjectServerData`
    (src/environment/client.js) into query sets, which the client registers. When the query engine
    reads back what it serialises, a fully answered query set comes back as one that matches it,
    and the client's first render finds it. */
module Transfer {
  import opened JsValues
  import opened RelayTypes
  import opened QuerySets
  import opened BaseEnv
  import opened ServerEnv
  import opened ClientEnv

  /** Every query set the client rebuilds from a fully answered server query set matches it: the
      same names, and at each name a query that `equals` the server's. */
  lemma RebuiltMatches<Q>(eq: (Q, Q) -> bool, getId: Q -> string, toGraphQL: Q -> Value,
                          fromGraphQL: Value -> Q, qs: QuerySet<Q>, results: map<string, Value>)
    requires forall q :: eq(q, fromGraphQL(toGraphQL(q)))
    requires forall i :: 0 <= i < |qs| ==> Answered(getId, results, qs[i].1)
    ensures KeyMatch(eq, Rebuilt(fromGraphQL, ClientRecord(getId, toGraphQL, qs, results)), qs)
  {
    var rec := ClientRecord(getId, toGraphQL, qs, results);
    ClientRecordAll(getId, toGraphQL, qs, results);
    ClientRecordDistinct(getId, toGraphQL, qs, results);
    RebuiltFields(fromGraphQL, rec);
    var r := Rebuilt(fromGraphQL, rec);
    forall i | 0 <= i < |r| ensures NameMatches(eq, r, qs, i) {
      GetAt(qs, i);
      assert r[i] == (qs[i].0, fromGraphQL(toGraphQL(qs[i].1)));
    }
  }

  /** A query set with an unanswered query is rebuilt with fewer names, so it does not match. */
  lemma PartialRebuiltMismatch<Q>(eq: (Q, Q) -> bool, getId: Q -> string, toGraphQL: Q -> Value,
                                  fromGraphQL: Value -> Q, qs: QuerySet<Q>, results: map<string, Value>, i: int)
    requires 0 <= i < |qs| && !Answered(getId, results, qs[i].1)
    ensures |Rebuilt(fromGraphQL, ClientRecord(getId, toGraphQL, qs, results))| < |qs|
    ensures !KeyMatch(eq, Rebuilt(fromGraphQL, ClientRecord(getId, toGraphQL, qs, results)), qs)
  {
    ClientRecordShort(getId, toGraphQL, qs, results, i);
    ClientRecordDistinct(getId, toGraphQL, qs, results);
    RebuiltFields(fromGraphQL, ClientRecord(getId, toGraphQL, qs, results));
  }

  /** Server to client: with an equivalence for `equals` that a query's serialised form preserves,
      after the client injects what the server sends, every tracked non-empty server query set
      whose queries were all answered finds a record in the client's map. */
  lemma ClientFindsServerQuerySet<Q(!new)>(eq: (Q, Q) -> bool, getId: Q -> string, toGraphQL: Q -> Value,
                                           fromGraphQL: Value -> Q, keys: seq<QuerySet<Q>>,
                                           results: map<string, Value>, j: int,
                                           clientKeys: seq<QuerySet<Q>>, clientValues: seq<PendingQuery>, first: nat)
    requires Reflexive(eq) && Symmetric(eq) && Transitive(eq)
    requires forall q :: eq(q, fromGraphQL(toGraphQL(q)))
    requires 0 <= j < |keys| && |keys[j]| > 0
    requires forall i :: 0 <= i < |keys[j]| ==> Answered(getId, results, keys[j][i].1)
    requires |clientKeys| == |clientValues|
    ensures FirstMatch(eq, RegisterAll(eq, clientKeys, clientValues, first,
      AllRebuilt(fromGraphQL, ClientData(getId, toGraphQL, keys, results))).0, keys[j]) >= 0
  {
    var data := ClientData(getId, toGraphQL, keys, results);
    var qss := AllRebuilt(fromGraphQL, data);
    PartialRecordKept(getId, toGraphQL, keys, results, j, 0);
    var m :| 0 <= m < |data| && data[m] == ClientRecord(getId, toGraphQL, keys[j], results);
    AllRebuiltAt(fromGraphQL, data, m);
    forall i | 0 <= i < |qss| ensures KeyMatch(eq, qss[i], qss[i]) {
      KeyMatchReflexive(eq, qss[i]);
    }
    RegisterAllFinds(eq, clientKeys, clientValues, first, qss);
    RebuiltMatches(eq, getId, toGraphQL, fromGraphQL, keys[j], results);
    FirstMatchRespectsMatch(eq, RegisterAll(eq, clientKeys, clientValues, first, qss).0, qss[m], keys[j]);
  }
}
