/** The server environment (src/environment/server.js): a coordinator that fetches unseen query
    sets, renders until no new query sets appear, and serialises the results for the client.
    Rendering (`ReactDOMServer.renderToString`) is a parameter: a pass is a function of the
    coordinator's records at its start, giving the markup and the query sets the pass asks for. */
module ServerEnv {
  import opened JsValues
  import opened RelayTypes
  import opened QuerySets
  import opened BaseEnv
  import opened ServerNetwork

  /** The default bound on re-renders. */
  const MAX_RECURSIONS: nat := 10

  /** A render pass: its markup and, in order, the query sets its renderers ask for. */
  datatype Pass<Q> = Pass(markup: string, requested: seq<QuerySet<Q>>)

  /** A query's result is usable when the network layer stored truthy data under its id. */
  predicate Answered<Q>(getId: Q -> string, results: map<string, Value>, q: Q)
  {
    getId(q) in results && Truthy(results[getId(q)])
  }

  /** The transport field for one query, when it has a result. */
  function FieldFor<Q>(getId: Q -> string, toGraphQL: Q -> Value, results: map<string, Value>, q: Q): Option<FieldResult>
  {
    if Answered(getId, results, q) then Some(FieldResult(toGraphQL(q), results[getId(q)])) else None
  }

  /** The record for one query set: its answered fields, assigned in the query set's order. */
  function ClientRecord<Q>(getId: Q -> string, toGraphQL: Q -> Value, qs: Object<Q>, results: map<string, Value>)
    : (rec: ServerResult)
    ensures |rec| <= |qs|
    decreases |qs|
  {
    if |qs| == 0 then []
    else
      var n := |qs| - 1;
      var rec := ClientRecord(getId, toGraphQL, qs[..n], results);
      match FieldFor(getId, toGraphQL, results, qs[n].1)
      case Some(field) => Put(rec, qs[n].0, field)
      case None => rec
  }

  /** A record has field `name` exactly when the query set has a query under `name` whose id has a
      result, and the field pairs the serialised query with that result. */
  lemma {:induction false} ClientRecordGet<Q>(getId: Q -> string, toGraphQL: Q -> Value, qs: QuerySet<Q>,
                                              results: map<string, Value>, name: string)
    ensures Get(ClientRecord(getId, toGraphQL, qs, results), name) ==
      match Get(qs, name)
      case Some(q) => FieldFor(getId, toGraphQL, results, q)
      case None => None
    decreases |qs|
  {
    if |qs| > 0 {
      var n := |qs| - 1;
      var p: QuerySet<Q> := qs[..n];
      ClientRecordGet(getId, toGraphQL, p, results, name);
      assert qs == p + [(qs[n].0, qs[n].1)];
      GetSnoc(p, qs[n].0, qs[n].1, name);
      var rec := ClientRecord(getId, toGraphQL, p, results);
      match FieldFor(getId, toGraphQL, results, qs[n].1)
      case Some(field) => GetPut(rec, qs[n].0, field, name);
      case None =>
      if name == qs[n].0 {
        assert !Has(p, name);
      }
    }
  }

  /** A record is empty exactly when none of the query set's queries has a result. */
  lemma {:induction false} ClientRecordEmpty<Q>(getId: Q -> string, toGraphQL: Q -> Value, qs: Object<Q>,
                                                results: map<string, Value>)
    ensures |ClientRecord(getId, toGraphQL, qs, results)| == 0 <==>
      forall i :: 0 <= i < |qs| ==> !Answered(getId, results, qs[i].1)
    decreases |qs|
  {
    if |qs| > 0 {
      var n := |qs| - 1;
      ClientRecordEmpty(getId, toGraphQL, qs[..n], results);
      assert forall i :: 0 <= i < n ==> qs[..n][i] == qs[i];
    }
  }

  /** A record's field names are distinct, as in any object. */
  lemma {:induction false} ClientRecordDistinct<Q>(getId: Q -> string, toGraphQL: Q -> Value, qs: Object<Q>,
                                                   results: map<string, Value>)
    ensures DistinctKeys(ClientRecord(getId, toGraphQL, qs, results))
    decreases |qs|
  {
    if |qs| > 0 {
      var n := |qs| - 1;
      ClientRecordDistinct(getId, toGraphQL, qs[..n], results);
      match FieldFor(getId, toGraphQL, results, qs[n].1)
      case Some(field) => DistinctPut(ClientRecord(getId, toGraphQL, qs[..n], results), qs[n].0, field);
      case None =>
    }
  }

  /** With every query answered, the record has one field per query, in the query set's order,
      pairing the serialised query with its result. */
  lemma {:induction false} ClientRecordAll<Q>(getId: Q -> string, toGraphQL: Q -> Value, qs: QuerySet<Q>,
                                              results: map<string, Value>)
    requires forall i :: 0 <= i < |qs| ==> Answered(getId, results, qs[i].1)
    ensures |ClientRecord(getId, toGraphQL, qs, results)| == |qs|
    ensures forall i :: 0 <= i < |qs| ==>
      && ClientRecord(getId, toGraphQL, qs, results)[i].0 == qs[i].0
      && FieldFor(getId, toGraphQL, results, qs[i].1) == Some(ClientRecord(getId, toGraphQL, qs, results)[i].1)
    decreases |qs|
  {
    if |qs| > 0 {
      var n := |qs| - 1;
      var p: QuerySet<Q> := qs[..n];
      assert forall i :: 0 <= i < n ==> p[i] == qs[i];
      ClientRecordAll(getId, toGraphQL, p, results);
      var rec := ClientRecord(getId, toGraphQL, p, results);
      assert !Has(rec, qs[n].0);
    }
  }

  /** A query without a result leaves the record with fewer fields than the query set has queries. */
  lemma {:induction false} ClientRecordShort<Q>(getId: Q -> string, toGraphQL: Q -> Value, qs: Object<Q>,
                                                results: map<string, Value>, i: int)
    requires 0 <= i < |qs| && !Answered(getId, results, qs[i].1)
    ensures |ClientRecord(getId, toGraphQL, qs, results)| < |qs|
    decreases |qs|
  {
    var n := |qs| - 1;
    if i < n {
      assert qs[..n][i] == qs[i];
      ClientRecordShort(getId, toGraphQL, qs[..n], results, i);
    }
  }

  /** The record of every tracked query set, in map order. */
  function Records<Q>(getId: Q -> string, toGraphQL: Q -> Value, keys: seq<QuerySet<Q>>, results: map<string, Value>)
    : (recs: seq<ServerResult>)
    ensures |recs| == |keys|
    ensures forall j :: 0 <= j < |keys| ==> recs[j] == ClientRecord(getId, toGraphQL, keys[j], results)
  {
    seq(|keys|, j requires 0 <= j < |keys| => ClientRecord(getId, toGraphQL, keys[j], results))
  }

  /** The records with at least one field, in their order. */
  function NonEmpty(recs: seq<ServerResult>): (kept: seq<ServerResult>)
    ensures |kept| <= |recs|
    ensures forall k :: 0 <= k < |kept| ==> |kept[k]| > 0
    decreases |recs|
  {
    if |recs| == 0 then []
    else
      var n := |recs| - 1;
      NonEmpty(recs[..n]) + if |recs[n]| > 0 then [recs[n]] else []
  }

  /** Filtering keeps exactly the non-empty records. */
  lemma {:induction false} NonEmptyMembers(recs: seq<ServerResult>, rec: ServerResult)
    ensures rec in NonEmpty(recs) <==> rec in recs && |rec| > 0
    decreases |recs|
  {
    if |recs| > 0 {
      var n := |recs| - 1;
      NonEmptyMembers(recs[..n], rec);
      assert recs == recs[..n] + [recs[n]];
    }
  }

  /** `isomorphicClientData`: one record per tracked query set in map order, without the empty ones. */
  function ClientData<Q>(getId: Q -> string, toGraphQL: Q -> Value, keys: seq<QuerySet<Q>>, results: map<string, Value>)
    : (data: seq<ServerResult>)
    ensures |data| <= |keys|
    ensures forall k :: 0 <= k < |data| ==> |data[k]| > 0
  {
    NonEmpty(Records(getId, toGraphQL, keys, results))
  }

  /** The records sent are exactly the non-empty records of tracked query sets. */
  lemma ClientDataMembers<Q>(getId: Q -> string, toGraphQL: Q -> Value, keys: seq<QuerySet<Q>>,
                             results: map<string, Value>, rec: ServerResult)
    ensures rec in ClientData(getId, toGraphQL, keys, results) <==>
      |rec| > 0 && exists j :: 0 <= j < |keys| && rec == ClientRecord(getId, toGraphQL, keys[j], results)
  {
    var recs := Records(getId, toGraphQL, keys, results);
    NonEmptyMembers(recs, rec);
    if rec in recs {
      var j :| 0 <= j < |recs| && recs[j] == rec;
      assert rec == ClientRecord(getId, toGraphQL, keys[j], results);
    }
  }

  /** A query set with at least one answered query is sent, even when other queries failed. */
  lemma PartialRecordKept<Q>(getId: Q -> string, toGraphQL: Q -> Value, keys: seq<QuerySet<Q>>,
                             results: map<string, Value>, j: int, i: int)
    requires 0 <= j < |keys| && 0 <= i < |keys[j]| && Answered(getId, results, keys[j][i].1)
    ensures ClientRecord(getId, toGraphQL, keys[j], results) in ClientData(getId, toGraphQL, keys, results)
  {
    ClientRecordEmpty(getId, toGraphQL, keys[j], results);
    ClientDataMembers(getId, toGraphQL, keys, results, ClientRecord(getId, toGraphQL, keys[j], results));
  }

  /** How `isomorphicGetData` stops, given the map size after each render: the first render never
      stops on stability (there is no previous size), every render but the last found a new size,
      and the last one either used up the re-render budget or repeated the previous size. */
  predicate StopsAfter(sizes: seq<nat>, maxRecursions: nat)
  {
    && 1 <= |sizes| <= maxRecursions + 1
    && (forall k :: 1 <= k < |sizes| - 1 ==> sizes[k - 1] != sizes[k])
    && (|sizes| == maxRecursions + 1 || (|sizes| >= 2 && sizes[|sizes| - 2] == sizes[|sizes| - 1]))
  }

  predicate NonDecreasing(sizes: seq<nat>)
  {
    forall k :: 1 <= k < |sizes| ==> sizes[k - 1] <= sizes[k]
  }

  /** A run of strictly growing sizes grows by at least one per step. */
  lemma {:induction false} StrictGrowth(sizes: seq<nat>, n: nat)
    requires n < |sizes| && NonDecreasing(sizes)
    requires forall k :: 1 <= k <= n ==> sizes[k - 1] != sizes[k]
    ensures sizes[n] >= sizes[0] + n
  {
    if n > 0 {
      StrictGrowth(sizes, n - 1);
    }
  }

  /** Since the map never shrinks, the renders number at most the query sets discovered after the
      first render plus two: rendering ends once no new query set appears. */
  lemma RenderCount(sizes: seq<nat>, maxRecursions: nat)
    requires StopsAfter(sizes, maxRecursions) && NonDecreasing(sizes)
    ensures |sizes| + sizes[0] <= sizes[|sizes| - 1] + 2
  {
    if |sizes| >= 2 {
      StrictGrowth(sizes, |sizes| - 2);
    }
  }

  /** Every match found in `before` is still found in `after`. */
  ghost predicate KeepsMatches<Q(!new)>(eq: (Q, Q) -> bool, before: seq<QuerySet<Q>>, after: seq<QuerySet<Q>>)
  {
    forall q :: FirstMatch(eq, before, q) >= 0 ==> FirstMatch(eq, after, q) >= 0
  }

  /** Every query set in `qs` finds a match in `keys`. */
  ghost predicate FindsAll<Q>(eq: (Q, Q) -> bool, keys: seq<QuerySet<Q>>, qs: seq<QuerySet<Q>>)
  {
    forall j :: 0 <= j < |qs| ==> FirstMatch(eq, keys, qs[j]) >= 0
  }

  /** One request of a pass: either `x` was already matched and the keys stay, or it is filed at
      the end. Either way the matches found so far are kept and `x` is found too. */
  lemma RequestStep<Q(!new)>(eq: (Q, Q) -> bool, start: seq<QuerySet<Q>>, keys: seq<QuerySet<Q>>,
                             keys': seq<QuerySet<Q>>, done: seq<QuerySet<Q>>, x: QuerySet<Q>)
    requires Reflexive(eq)
    requires (FirstMatch(eq, keys, x) >= 0 && keys' == keys) || keys' == keys + [x]
    requires start <= keys && KeepsMatches(eq, start, keys) && FindsAll(eq, keys, done)
    ensures start <= keys' && KeepsMatches(eq, start, keys') && FindsAll(eq, keys', done + [x])
  {
    if keys' != keys {
      forall q | FirstMatch(eq, keys, q) >= 0 ensures FirstMatch(eq, keys', q) >= 0 {
        FirstMatchAppend(eq, keys, x, q);
      }
      KeyMatchReflexive(eq, x);
      assert keys'[..|keys|] == keys;
    }
  }

  /** What one render leaves for the next: the next view extends this one's keys and keeps its
      records' promises (the wait may fill in their ready states), every match of this view is
      still found in it, and so is every query set this render asked for. */
  ghost predicate Follows<Q(!new)>(render: (seq<QuerySet<Q>>, seq<PendingQuery>) -> Pass<Q>, eq: (Q, Q) -> bool,
                                   view: (seq<QuerySet<Q>>, seq<PendingQuery>),
                                   next: (seq<QuerySet<Q>>, seq<PendingQuery>))
  {
    && view.0 <= next.0 && PromisesKept(view.1, next.1)
    && KeepsMatches(eq, view.0, next.0)
    && forall q :: q in render(view.0, view.1).requested ==> FirstMatch(eq, next.0, q) >= 0
  }

  /** The map sizes after the renders of `isomorphicGetData(env, element, maxRecursions,
      prevQueryCount)` on a map of `startSize` query sets: at most `maxRecursions + 1` renders;
      two successive sizes differ except the last pair; the recursion ends with the budget spent
      or a size repeated (the first size is compared with `prevQueryCount`); sizes never shrink. */
  predicate Recursion(maxRecursions: nat, prevQueryCount: Option<nat>, startSize: nat, sizes: seq<nat>)
  {
    && 1 <= |sizes| <= maxRecursions + 1
    && (forall k :: 1 <= k < |sizes| - 1 ==> sizes[k - 1] != sizes[k])
    && (|sizes| == maxRecursions + 1 ||
        Some(sizes[|sizes| - 1]) == (if |sizes| >= 2 then Some(sizes[|sizes| - 2]) else prevQueryCount))
    && (|sizes| >= 2 ==> prevQueryCount != Some(sizes[0]))
    && NonDecreasing(sizes) && startSize <= sizes[0]
  }

  /** A render that leaves a new size and does not spend the budget, followed by the recursion on
      that size, is one recursion more. */
  lemma RecursionStep(maxRecursions: nat, prevQueryCount: Option<nat>, startSize: nat, nextSize: nat, sizes: seq<nat>)
    requires maxRecursions > 0 && prevQueryCount != Some(nextSize) && startSize <= nextSize
    requires Recursion(maxRecursions - 1, Some(nextSize), nextSize, sizes)
    ensures Recursion(maxRecursions, prevQueryCount, startSize, [nextSize] + sizes)
  {
    var sizes' := [nextSize] + sizes;
    forall k | 1 <= k < |sizes'|
      ensures sizes'[k - 1] <= sizes'[k]
    {
      if k > 1 {
        assert sizes'[k - 1] == sizes[k - 2] && sizes'[k] == sizes[k - 1];
      }
    }
  }

  /** The trace of the renders `isomorphicGetData(env, element, maxRecursions, prevQueryCount)`
      performs from the map `start` to the map `final`, as what each render saw (`seen`, keys and
      records) and the map's size after it (`sizes`). At most `maxRecursions + 1` renders; two
      successive sizes differ except the last pair; the run ends with the budget spent or a size
      repeated (the first size is compared with `prevQueryCount`). The first render sees `start`;
      each view follows the one before it, and its size is the map size the previous render left;
      every view is a prefix of the final keys and the last view of the final map; every query set
      a render asked for is found at the end; renders after the first see settled records; the
      markup is the last render's. */
  ghost predicate Run<Q(!new)>(render: (seq<QuerySet<Q>>, seq<PendingQuery>) -> Pass<Q>, eq: (Q, Q) -> bool,
                               maxRecursions: nat, prevQueryCount: Option<nat>,
                               start: (seq<QuerySet<Q>>, seq<PendingQuery>), final: (seq<QuerySet<Q>>, seq<PendingQuery>),
                               seen: seq<(seq<QuerySet<Q>>, seq<PendingQuery>)>, sizes: seq<nat>, markup: string)
  {
    && |seen| == |sizes| && Recursion(maxRecursions, prevQueryCount, |start.0|, sizes)
    && seen[0] == start
    && (forall k :: 0 <= k < |seen| ==> |seen[k].1| == |seen[k].0| && seen[k].0 <= final.0)
    && (forall k :: 0 <= k < |seen| - 1 ==> Follows(render, eq, seen[k], seen[k + 1]))
    && (forall k :: 0 <= k < |sizes| - 1 ==> sizes[k] == |seen[k + 1].0|)
    && sizes[|sizes| - 1] == |final.0| && |final.0| == |final.1|
    && seen[|seen| - 1].1 <= final.1
    && KeepsMatches(eq, start.0, final.0)
    && (forall k :: 0 <= k < |seen| ==> forall q :: q in render(seen[k].0, seen[k].1).requested ==>
          FirstMatch(eq, final.0, q) >= 0)
    && (forall k :: 1 <= k < |seen| ==> forall j :: 0 <= j < |seen[k].1| ==> seen[k].1[j].readyState.Some?)
    && markup == render(seen[|seen| - 1].0, seen[|seen| - 1].1).markup
  }

  /** A render after which the recursion stops is a run of that one render. */
  lemma RunStop<Q(!new)>(render: (seq<QuerySet<Q>>, seq<PendingQuery>) -> Pass<Q>, eq: (Q, Q) -> bool,
                         maxRecursions: nat, prevQueryCount: Option<nat>,
                         entry: (seq<QuerySet<Q>>, seq<PendingQuery>), final: (seq<QuerySet<Q>>, seq<PendingQuery>))
    requires maxRecursions == 0 || prevQueryCount == Some(|final.0|)
    requires |entry.0| == |entry.1| && |final.0| == |final.1|
    requires entry.0 <= final.0 && entry.1 <= final.1 && KeepsMatches(eq, entry.0, final.0)
    requires forall q :: q in render(entry.0, entry.1).requested ==> FirstMatch(eq, final.0, q) >= 0
    ensures Run(render, eq, maxRecursions, prevQueryCount, entry, final, [entry], [|final.0|],
                render(entry.0, entry.1).markup)
  {
    assert |entry.0| <= |final.0| by { assert final.0[..|entry.0|] == entry.0; }
  }

  /** A render that does not stop the recursion, followed by the run of the renders after it, is
      one run more. */
  lemma RunStep<Q(!new)>(render: (seq<QuerySet<Q>>, seq<PendingQuery>) -> Pass<Q>, eq: (Q, Q) -> bool,
                         maxRecursions: nat, prevQueryCount: Option<nat>,
                         entry: (seq<QuerySet<Q>>, seq<PendingQuery>), next: (seq<QuerySet<Q>>, seq<PendingQuery>),
                         final: (seq<QuerySet<Q>>, seq<PendingQuery>), seen: seq<(seq<QuerySet<Q>>, seq<PendingQuery>)>,
                         sizes: seq<nat>, markup: string)
    requires maxRecursions > 0 && prevQueryCount != Some(|next.0|)
    requires |entry.0| == |entry.1| && Follows(render, eq, entry, next)
    requires forall j :: 0 <= j < |next.1| ==> next.1[j].readyState.Some?
    requires Run(render, eq, maxRecursions - 1, Some(|next.0|), next, final, seen, sizes, markup)
    ensures Run(render, eq, maxRecursions, prevQueryCount, entry, final, [entry] + seen, [|next.0|] + sizes, markup)
  {
    var seen' := [entry] + seen;
    assert |entry.0| <= |next.0| by { assert next.0[..|entry.0|] == entry.0; }
    assert entry.0 <= final.0 by {
      assert next.0 <= final.0;
      assert final.0[..|entry.0|] == next.0[..|entry.0|];
    }
    forall q | FirstMatch(eq, entry.0, q) >= 0 ensures FirstMatch(eq, final.0, q) >= 0 {
      assert FirstMatch(eq, next.0, q) >= 0;
    }
    forall k | 0 <= k < |seen'| - 1 ensures Follows(render, eq, seen'[k], seen'[k + 1]) {
      if k > 0 {
        assert seen'[k] == seen[k - 1] && seen'[k + 1] == seen[k];
      }
    }
    forall k, q | 0 <= k < |seen'| && q in render(seen'[k].0, seen'[k].1).requested
      ensures FirstMatch(eq, final.0, q) >= 0
    {
      if k > 0 {
        assert seen'[k] == seen[k - 1];
      } else {
        assert FirstMatch(eq, next.0, q) >= 0;
      }
    }
    RecursionStep(maxRecursions, prevQueryCount, |entry.0|, |next.0|, sizes);
  }

  /** When the recursion stops because a render left the size unchanged, the last render saw the
      final map itself: every query set it needed was already tracked, with its records. */
  lemma StableRunSawFinalMap<Q(!new)>(render: (seq<QuerySet<Q>>, seq<PendingQuery>) -> Pass<Q>, eq: (Q, Q) -> bool,
                                      maxRecursions: nat, prevQueryCount: Option<nat>,
                                      start: (seq<QuerySet<Q>>, seq<PendingQuery>),
                                      final: (seq<QuerySet<Q>>, seq<PendingQuery>),
                                      seen: seq<(seq<QuerySet<Q>>, seq<PendingQuery>)>, sizes: seq<nat>, markup: string)
    requires Run(render, eq, maxRecursions, prevQueryCount, start, final, seen, sizes, markup)
    requires |sizes| >= 2 && sizes[|sizes| - 2] == sizes[|sizes| - 1]
    ensures seen[|seen| - 1] == final
  {
    var last := seen[|seen| - 1];
    assert |last.0| == |final.0|;
    assert last.0 == final.0[..|last.0|] == final.0;
    assert last.1 == final.1[..|last.1|] == final.1;
  }

  /** Every view after the first is the final key list cut at the size the previous render left:
      the keys a render sees are those the map held when it started. */
  lemma ViewsAreMapPrefixes<Q(!new)>(render: (seq<QuerySet<Q>>, seq<PendingQuery>) -> Pass<Q>, eq: (Q, Q) -> bool,
                                     maxRecursions: nat, prevQueryCount: Option<nat>,
                                     start: (seq<QuerySet<Q>>, seq<PendingQuery>),
                                     final: (seq<QuerySet<Q>>, seq<PendingQuery>),
                                     seen: seq<(seq<QuerySet<Q>>, seq<PendingQuery>)>, sizes: seq<nat>, markup: string)
    requires Run(render, eq, maxRecursions, prevQueryCount, start, final, seen, sizes, markup)
    ensures forall k :: 1 <= k < |seen| ==> sizes[k - 1] <= |final.0| && seen[k].0 == final.0[..sizes[k - 1]]
  {
    forall k | 1 <= k < |seen| ensures sizes[k - 1] <= |final.0| && seen[k].0 == final.0[..sizes[k - 1]] {
      assert seen[k].0 <= final.0;
    }
  }

  /** Record `r`, in place `j` of a view, against the records `origin` the first render saw and
      the promises `resolved0` resolved then: a record whose promise was already resolved is the
      record the first render saw in that place; any other holds the ready state the engine gave
      the fetch that made it. */
  ghost predicate SettledAs<Q>(engine: QuerySet<Q> -> ReadyState, primed: seq<QuerySet<Q>>, resolved0: set<nat>,
                               origin: seq<PendingQuery>, r: PendingQuery, j: int)
  {
    if r.promise in resolved0 then 0 <= j < |origin| && r == origin[j]
    else r.promise < |primed| && r.readyState == Some(engine(primed[r.promise]))
  }

  /** Every record of a view is settled as `SettledAs` says. */
  ghost predicate ViewSettled<Q>(engine: QuerySet<Q> -> ReadyState, primed: seq<QuerySet<Q>>, resolved0: set<nat>,
                                 origin: seq<PendingQuery>, records: seq<PendingQuery>)
  {
    forall j :: 0 <= j < |records| ==> SettledAs(engine, primed, resolved0, origin, records[j], j)
  }

  /** Between renders: every record whose promise is resolved is settled as `SettledAs` says. */
  ghost predicate SettledSoFar<Q>(engine: QuerySet<Q> -> ReadyState, primed: seq<QuerySet<Q>>, resolved0: set<nat>,
                                  origin: seq<PendingQuery>, resolved: set<nat>, records: seq<PendingQuery>)
  {
    forall j :: 0 <= j < |records| && records[j].promise in resolved ==>
      SettledAs(engine, primed, resolved0, origin, records[j], j)
  }

  /** The records whose promise was in `resolved` are still there, unchanged, in `after`. */
  ghost predicate ResolvedKept(before: seq<PendingQuery>, resolved: set<nat>, after: seq<PendingQuery>)
  {
    |before| <= |after| && forall j :: 0 <= j < |before| && before[j].promise in resolved ==> after[j] == before[j]
  }

  /** A render's requests append records with no ready state, whose promises are therefore not
      resolved, and fetches at the end of the log: what was settled stays settled. */
  lemma SettledAfterRequests<Q>(engine: QuerySet<Q> -> ReadyState, primed: seq<QuerySet<Q>>, primed': seq<QuerySet<Q>>,
                                resolved0: set<nat>, origin: seq<PendingQuery>, resolved: set<nat>,
                                records: seq<PendingQuery>, records': seq<PendingQuery>)
    requires SettledSoFar(engine, primed, resolved0, origin, resolved, records)
    requires records <= records' && primed <= primed'
    requires forall j :: |records| <= j < |records'| ==> records'[j].promise !in resolved
    ensures SettledSoFar(engine, primed', resolved0, origin, resolved, records')
  {
    forall j | 0 <= j < |records'| && records'[j].promise in resolved
      ensures SettledAs(engine, primed', resolved0, origin, records'[j], j)
    {
      assert records'[j] == records[j];
      assert SettledAs(engine, primed, resolved0, origin, records[j], j);
    }
  }

  /** After the wait every record is settled as `SettledAs` says: the ones whose promise was
      resolved were already, and the wait answered the others from the engine. */
  lemma SettledAfterWait<Q>(engine: QuerySet<Q> -> ReadyState, primed: seq<QuerySet<Q>>, resolved0: set<nat>,
                            origin: seq<PendingQuery>, resolved: set<nat>,
                            records: seq<PendingQuery>, records': seq<PendingQuery>)
    requires SettledSoFar(engine, primed, resolved0, origin, resolved, records) && resolved0 <= resolved
    requires forall j :: 0 <= j < |records| ==> records[j].promise < |primed|
    requires forall qs :: Settles(engine(qs))
    requires |records'| == |records| && forall j :: 0 <= j < |records| ==> records'[j] == Answer(primed, resolved, engine, records[j])
    ensures ViewSettled(engine, primed, resolved0, origin, records')
  {
    forall j | 0 <= j < |records'| ensures SettledAs(engine, primed, resolved0, origin, records'[j], j) {
      if records[j].promise in resolved {
        assert SettledAs(engine, primed, resolved0, origin, records[j], j);
      }
    }
  }

  /** Every view after the first is settled as `SettledAs` says and is a prefix of the final records. */
  ghost predicate ViewsSettled<Q>(engine: QuerySet<Q> -> ReadyState, primed: seq<QuerySet<Q>>, resolved0: set<nat>,
                                  origin: seq<PendingQuery>, seen: seq<(seq<QuerySet<Q>>, seq<PendingQuery>)>,
                                  final: seq<PendingQuery>)
  {
    forall k :: 1 <= k < |seen| ==> ViewSettled(engine, primed, resolved0, origin, seen[k].1) && seen[k].1 <= final
  }

  /** A view settled against an earlier fetch log, prefix of the final records, put before views
      that are settled: all views but the first new one are settled. */
  lemma ViewsSettledStep<Q>(engine: QuerySet<Q> -> ReadyState, primed: seq<QuerySet<Q>>, primed': seq<QuerySet<Q>>,
                            resolved0: set<nat>, origin: seq<PendingQuery>,
                            entry: (seq<QuerySet<Q>>, seq<PendingQuery>), seen: seq<(seq<QuerySet<Q>>, seq<PendingQuery>)>,
                            final: seq<PendingQuery>)
    requires |seen| >= 1 && ViewSettled(engine, primed, resolved0, origin, seen[0].1) && seen[0].1 <= final
    requires primed <= primed' && ViewsSettled(engine, primed', resolved0, origin, seen, final)
    ensures ViewsSettled(engine, primed', resolved0, origin, [entry] + seen, final)
  {
    var records := seen[0].1;
    forall j | 0 <= j < |records| ensures SettledAs(engine, primed', resolved0, origin, records[j], j) {
      assert SettledAs(engine, primed, resolved0, origin, records[j], j);
    }
    forall k | 1 <= k < |[entry] + seen|
      ensures ViewSettled(engine, primed', resolved0, origin, ([entry] + seen)[k].1) && ([entry] + seen)[k].1 <= final
    {
      assert ([entry] + seen)[k] == seen[k - 1];
    }
  }

  /** Records all kept through a step that resolves every promise of the view after it: that view
      is a prefix of what follows. */
  lemma KeptWhenResolved(before: seq<PendingQuery>, resolved: set<nat>, after: seq<PendingQuery>)
    requires ResolvedKept(before, resolved, after)
    requires forall j :: 0 <= j < |before| ==> before[j].promise in resolved
    ensures before <= after
  {
    assert after[..|before|] == before;
  }

  /** A recursion of `isomorphicGetData` that stops after its render: a run of that render alone,
      whose requests only appended records, so the records at the start are all kept. */
  lemma GetDataStop<Q(!new)>(render: (seq<QuerySet<Q>>, seq<PendingQuery>) -> Pass<Q>, eq: (Q, Q) -> bool,
                             engine: QuerySet<Q> -> ReadyState, maxRecursions: nat, prevQueryCount: Option<nat>,
                             entry: (seq<QuerySet<Q>>, seq<PendingQuery>), final: (seq<QuerySet<Q>>, seq<PendingQuery>),
                             primed: seq<QuerySet<Q>>, resolved: set<nat>, resolved0: set<nat>, origin: seq<PendingQuery>)
    requires maxRecursions == 0 || prevQueryCount == Some(|final.0|)
    requires |entry.0| == |entry.1| && |final.0| == |final.1|
    requires entry.0 <= final.0 && entry.1 <= final.1 && KeepsMatches(eq, entry.0, final.0)
    requires forall q :: q in render(entry.0, entry.1).requested ==> FirstMatch(eq, final.0, q) >= 0
    ensures Run(render, eq, maxRecursions, prevQueryCount, entry, final, [entry], [|final.0|],
                render(entry.0, entry.1).markup)
    ensures ResolvedKept(entry.1, resolved, final.1)
    ensures ViewsSettled(engine, primed, resolved0, origin, [entry], final.1)
  {
    RunStop(render, eq, maxRecursions, prevQueryCount, entry, final);
  }

  /** One recursion of `isomorphicGetData` that does not stop: the render on `entry`, its requests
      (leaving `records`), the wait (leaving `next`) and the renders after it, which run from
      `next` to `final`. The whole is a run from `entry`, the records resolved at the start are
      kept, and every view after the first is settled and a prefix of the final records. */
  lemma GetDataStep<Q(!new)>(render: (seq<QuerySet<Q>>, seq<PendingQuery>) -> Pass<Q>, eq: (Q, Q) -> bool,
                             engine: QuerySet<Q> -> ReadyState, maxRecursions: nat, prevQueryCount: Option<nat>,
                             entry: (seq<QuerySet<Q>>, seq<PendingQuery>), records: seq<PendingQuery>,
                             next: (seq<QuerySet<Q>>, seq<PendingQuery>), final: (seq<QuerySet<Q>>, seq<PendingQuery>),
                             primed0: seq<QuerySet<Q>>, primed: seq<QuerySet<Q>>, primed': seq<QuerySet<Q>>,
                             resolved: set<nat>, resolved': set<nat>, resolved0: set<nat>, origin: seq<PendingQuery>,
                             seen: seq<(seq<QuerySet<Q>>, seq<PendingQuery>)>, sizes: seq<nat>, markup: string)
    requires maxRecursions > 0 && prevQueryCount != Some(|next.0|)
    requires |entry.0| == |entry.1| && Follows(render, eq, entry, next)
    requires entry.1 <= records && |next.1| == |records|
    requires forall j :: 0 <= j < |records| ==> next.1[j] == Answer(primed, resolved, engine, records[j])
    requires forall j :: 0 <= j < |next.1| ==> next.1[j].readyState.Some? && next.1[j].promise in resolved'
    requires ViewSettled(engine, primed, resolved0, origin, next.1) && primed0 <= primed <= primed'
    requires Run(render, eq, maxRecursions - 1, Some(|next.0|), next, final, seen, sizes, markup)
    requires ResolvedKept(next.1, resolved', final.1) && resolved <= resolved'
    requires ViewsSettled(engine, primed', resolved0, origin, seen, final.1)
    ensures Run(render, eq, maxRecursions, prevQueryCount, entry, final, [entry] + seen, [|next.0|] + sizes, markup)
    ensures ResolvedKept(entry.1, resolved, final.1) && primed0 <= primed'
    ensures ViewsSettled(engine, primed', resolved0, origin, [entry] + seen, final.1)
  {
    assert primed'[..|primed0|] == primed'[..|primed|][..|primed0|];
    RunStep(render, eq, maxRecursions, prevQueryCount, entry, next, final, seen, sizes, markup);
    KeptWhenResolved(next.1, resolved', final.1);
    ViewsSettledStep(engine, primed, primed', resolved0, origin, entry, seen, final.1);
    forall j | 0 <= j < |entry.1| && entry.1[j].promise in resolved ensures final.1[j] == entry.1[j] {
      assert records[j] == entry.1[j];
    }
  }

  class ServerEnvironment<Q(!new)> {
    const base: BaseEnvironment<Q>
    /** `isomorphicNetworkLayer`. */
    const network: ServerNetworkLayer
    /** The engine's `query.getID()` and `toGraphQL.Query`. */
    const getId: Q -> string
    const toGraphQL: Q -> Value

    /** The coordinator is tracked, it is a server's, and since the server fetches only query sets
        no key matches yet, each record is found by the fetch that made it and by no other. */
    ghost predicate Valid()
      reads this, base, base.queries, network
    {
      && base.Valid() && network.Valid() && base.isServer
      && OneFetchPerRecord(base.queries.equals, base.queries.keyList, base.primed)
    }

    /** Server environments fetch and render isomorphically from the start. */
    constructor (equals: (Q, Q) -> bool, getId: Q -> string, toGraphQL: Q -> Value)
      requires Reflexive(equals)
      ensures Valid() && fresh(base) && fresh(base.queries) && fresh(network)
      ensures base.isServer && base.isIsomorphicRender
      ensures base.queries.equals == equals && base.queries.keyList == [] && base.primed == []
      ensures network.queryResults == map[]
      ensures this.getId == getId && this.toGraphQL == toGraphQL
    {
      base := new BaseEnvironment(equals, true, true);
      network := new ServerNetworkLayer();
      this.getId := getId;
      this.toGraphQL := toGraphQL;
    }

    /** `isomorphicClientData`: the records to send, at most one per tracked query set. */
    method IsomorphicClientData() returns (data: seq<ServerResult>)
      requires Valid()
      ensures data == ClientData(getId, toGraphQL, base.queries.keyList, network.queryResults)
      ensures |data| <= base.queries.Size()
    {
      var keys := base.queries.Keys();
      data := ClientData(getId, toGraphQL, keys, network.queryResults);
    }

    /** The renderers of one pass ask the coordinator for their query sets in turn
        (`isomorphicRunQueriesOrGetReadyState`, which on the server registers an unseen one).
        Afterwards each of them finds a record, every match found before is still found, and the
        keys have only grown at the end. */
    method RequestAll(requested: seq<QuerySet<Q>>)
      requires Valid()
      modifies base, base.queries
      ensures Valid()
      ensures old(base.queries.keyList) <= base.queries.keyList && old(base.queries.valueList) <= base.queries.valueList
      ensures old(base.primed) <= base.primed && base.resolved == old(base.resolved)
      ensures forall j :: |old(base.queries.valueList)| <= j < |base.queries.valueList| ==>
        base.queries.valueList[j].readyState.None?
      ensures KeepsMatches(base.queries.equals, old(base.queries.keyList), base.queries.keyList)
      ensures forall q :: q in requested ==> FirstMatch(base.queries.equals, base.queries.keyList, q) >= 0
    {
      var eq := base.queries.equals;
      ghost var start := base.queries.keyList;
      ghost var records := base.queries.valueList;
      ghost var fetches := base.primed;
      for i := 0 to |requested|
        invariant Valid() && base.queries.equals == eq && base.resolved == old(base.resolved)
        invariant start <= base.queries.keyList && KeepsMatches(eq, start, base.queries.keyList)
        invariant records <= base.queries.valueList && fetches <= base.primed
        invariant forall j :: |records| <= j < |base.queries.valueList| ==> base.queries.valueList[j].readyState.None?
        invariant FindsAll(eq, base.queries.keyList, requested[..i])
      {
        ghost var keys, values, primed := base.queries.keyList, base.queries.valueList, base.primed;
        if FirstMatch(eq, keys, requested[i]) < 0 {
          KeyMatchReflexive(eq, requested[i]);
          OneFetchAppend(eq, keys, values, primed, base.resolved, requested[i]);
        }
        var _ := base.RunQueriesOrGetReadyState(requested[i]);
        RequestStep(eq, start, keys, base.queries.keyList, requested[..i], requested[i]);
        assert requested[..i] + [requested[i]] == requested[..i + 1];
      }
      assert requested[..|requested|] == requested;
      assert forall q :: q in requested ==> exists j :: 0 <= j < |requested| && requested[j] == q;
    }

    /** Waiting on `isomorphicQueriesPromise` (server.js:62) while the engine settles every
        outstanding fetch. Each record is found by its own fetch only, so a record whose promise was
        outstanding now holds the ready state the engine gave that fetch, and every other record is
        as it was; every promise is resolved. */
    method Await(engine: QuerySet<Q> -> ReadyState)
      requires Valid() && forall qs :: Settles(engine(qs))
      modifies base, base.queries
      ensures Valid()
      ensures base.primed == old(base.primed) && base.queries.keyList == old(base.queries.keyList)
      ensures old(base.resolved) <= base.resolved && forall f :: 0 <= f < |base.primed| ==> f in base.resolved
      ensures |base.queries.valueList| == |old(base.queries.valueList)|
      ensures forall j :: 0 <= j < |base.queries.valueList| ==>
        base.queries.valueList[j] == Answer(base.primed, old(base.resolved), engine, old(base.queries.valueList)[j])
    {
      ghost var values, resolved := base.queries.valueList, base.resolved;
      base.AwaitQueries(engine);
      AwaitedOwnFetch(base.queries.equals, base.queries.keyList, values, base.primed, resolved, engine, 0);
    }

    /** The class method `isomorphicGetData`: the recursion below, started with no previous count.
        The engine is assumed to settle every fetch (`engine` gives its final ready state). The
        ghost results record, per render, the keys and records it saw and the map size after it.
        The first render sees the map as it was; each later one sees the keys the previous render
        left, which extend the previous view's keys and match every query set the previous render
        asked for, and records that keep the previous view's promises, all settled (so it waited
        for the previous render's fetches): a record already resolved at the start is the record the
        first render saw, any other holds the ready state the engine gave the fetch that made it;
        these records are a prefix of the final records, and every view's keys a prefix of the
        final keys. Rendering
        stops only when the budget is spent or a render leaves the size the previous one left,
        and in the latter case the last render saw the final map itself, every record of which is
        settled. */
    method IsomorphicGetData(render: (seq<QuerySet<Q>>, seq<PendingQuery>) -> Pass<Q>,
                             engine: QuerySet<Q> -> ReadyState, maxRecursions: nat := MAX_RECURSIONS)
      returns (markup: string, ghost seen: seq<(seq<QuerySet<Q>>, seq<PendingQuery>)>, ghost sizes: seq<nat>)
      requires Valid()
      requires forall qs :: Settles(engine(qs))
      modifies base, base.queries
      ensures Valid()
      ensures StopsAfter(sizes, maxRecursions) && NonDecreasing(sizes)
      ensures maxRecursions > 0 ==> |sizes| >= 2
      ensures |seen| == |sizes|
      ensures seen[0] == (old(base.queries.keyList), old(base.queries.valueList))
      ensures forall k :: 0 <= k < |seen| ==> |seen[k].1| == |seen[k].0|
      ensures forall k :: 0 <= k < |sizes| - 1 ==> sizes[k] == |seen[k + 1].0|
      ensures forall k :: 0 <= k < |seen| - 1 ==> seen[k].0 <= seen[k + 1].0 && PromisesKept(seen[k].1, seen[k + 1].1)
      ensures forall k :: 0 <= k < |seen| - 1 ==> forall q :: q in render(seen[k].0, seen[k].1).requested ==>
        FirstMatch(base.queries.equals, seen[k + 1].0, q) >= 0
      ensures forall k :: 1 <= k < |seen| ==>
        sizes[k - 1] <= |base.queries.keyList| && seen[k].0 == base.queries.keyList[..sizes[k - 1]]
      ensures forall k :: 1 <= k < |seen| ==> forall j :: 0 <= j < |seen[k].1| ==> seen[k].1[j].readyState.Some?
      ensures ViewsSettled(engine, base.primed, old(base.resolved), seen[0].1, seen, base.queries.valueList)
      ensures sizes[|sizes| - 1] == |base.queries.keyList|
      ensures seen[|seen| - 1].0 <= base.queries.keyList && seen[|seen| - 1].1 <= base.queries.valueList
      ensures old(base.queries.keyList) <= base.queries.keyList
      ensures forall k :: 0 <= k < |seen| ==> forall q :: q in render(seen[k].0, seen[k].1).requested ==>
        FirstMatch(base.queries.equals, base.queries.keyList, q) >= 0
      ensures |sizes| >= 2 && sizes[|sizes| - 2] == sizes[|sizes| - 1] ==>
        && seen[|seen| - 1] == (base.queries.keyList, base.queries.valueList)
        && (forall j :: 0 <= j < |base.queries.valueList| ==> base.queries.valueList[j].readyState.Some?)
        && markup == render(base.queries.keyList, base.queries.valueList).markup
      ensures markup == render(seen[|seen| - 1].0, seen[|seen| - 1].1).markup
    {
      markup, seen, sizes := GetDataFrom(render, engine, maxRecursions, None, base.queries.valueList, base.resolved);
      ghost var final := (base.queries.keyList, base.queries.valueList);
      ViewsAreMapPrefixes(render, base.queries.equals, maxRecursions, None, seen[0], final, seen, sizes, markup);
      if |sizes| >= 2 && sizes[|sizes| - 2] == sizes[|sizes| - 1] {
        StableRunSawFinalMap(render, base.queries.equals, maxRecursions, None, seen[0], final, seen, sizes, markup);
      }
    }

    /** `isomorphicGetData(env, element, maxRecursions, prevQueryCount)`: render, let every
        renderer ask for its query set, and stop when the budget is spent or the map size equals
        the previous count; otherwise wait for every fetch and recurse with one render less.
        `origin` and `resolved0` are the records and resolved promises the first render of the
        whole recursion saw; the records resolved so far are settled against them. */
    method GetDataFrom(render: (seq<QuerySet<Q>>, seq<PendingQuery>) -> Pass<Q>,
                       engine: QuerySet<Q> -> ReadyState, maxRecursions: nat, prevQueryCount: Option<nat>,
                       ghost origin: seq<PendingQuery>, ghost resolved0: set<nat>)
      returns (markup: string, ghost seen: seq<(seq<QuerySet<Q>>, seq<PendingQuery>)>, ghost sizes: seq<nat>)
      requires Valid()
      requires forall qs :: Settles(engine(qs))
      requires resolved0 <= base.resolved
      requires SettledSoFar(engine, base.primed, resolved0, origin, base.resolved, base.queries.valueList)
      modifies base, base.queries
      ensures Valid()
      ensures Run(render, base.queries.equals, maxRecursions, prevQueryCount,
                  (old(base.queries.keyList), old(base.queries.valueList)),
                  (base.queries.keyList, base.queries.valueList), seen, sizes, markup)
      ensures old(base.primed) <= base.primed && old(base.resolved) <= base.resolved
      ensures ResolvedKept(old(base.queries.valueList), old(base.resolved), base.queries.valueList)
      ensures ViewsSettled(engine, base.primed, resolved0, origin, seen, base.queries.valueList)
      decreases maxRecursions
    {
      ghost var entry := (base.queries.keyList, base.queries.valueList);
      ghost var primed0, resolved := base.primed, base.resolved;
      var pass := render(base.queries.keyList, base.queries.valueList);
      RequestAll(pass.requested);
      var size := base.queries.Size();
      if maxRecursions == 0 || prevQueryCount == Some(size) {
        GetDataStop(render, base.queries.equals, engine, maxRecursions, prevQueryCount, entry,
                    (base.queries.keyList, base.queries.valueList), base.primed, resolved, resolved0, origin);
        return pass.markup, [entry], [size];
      }
      ghost var records, primed := base.queries.valueList, base.primed;
      SettledAfterRequests(engine, primed0, primed, resolved0, origin, resolved, entry.1, records);
      Await(engine);
      ghost var next := (base.queries.keyList, base.queries.valueList);
      ghost var resolvedNext := base.resolved;
      SettledAfterWait(engine, primed, resolved0, origin, resolved, records, next.1);
      PromisesKeptAfterAppend(entry.1, records, next.1);
      ghost var restSeen: seq<(seq<QuerySet<Q>>, seq<PendingQuery>)>, restSizes: seq<nat>;
      markup, restSeen, restSizes := GetDataFrom(render, engine, maxRecursions - 1, Some(size), origin, resolved0);
      GetDataStep(render, base.queries.equals, engine, maxRecursions, prevQueryCount, entry, records, next,
                  (base.queries.keyList, base.queries.valueList), primed0, primed, base.primed, resolved, resolvedNext,
                  resolved0, origin, restSeen, restSizes, markup);
      seen, sizes := [entry] + restSeen, [size] + restSizes;
    }

  }
}
