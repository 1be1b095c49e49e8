/** The query subscriber (src/cache.js): it files each query request the engine sends under its
    query name and root field name, and once per tick hands every group whose requests all
    resolved to `onResponse` as one record with merged variables. The tick (`setImmediate`) is the
    explicit call `HandlePendingQueries`, and the network's answer to each request is the parameter
    `settle` (None for a request that never settles). */
module QuerySubscriber {
  import opened JsValues
  import opened RelayTypes
  import opened ServerNetwork

  /** A query request as the subscriber sees it: the concrete query's `name` and `fieldName`,
      the serialised query (`toGraphQL.Query`) and the query's variables. */
  datatype Request = Request(name: string, fieldName: string, query: Value, variables: Object<Value>)

  /** One `onResponse(name, variables, result)` call. */
  datatype Emission = Emission(name: string, variables: Object<Value>, result: ServerResult)

  /** The requests of one query name, by field name. */
  type Fields = g: Object<Request> | DistinctKeys(g) witness []

  /** `pendingQueries`: groups by query name. */
  type Pending = p: Object<Fields> | DistinctKeys(p) witness []

  /** `pendingQueries[name] || {}`. */
  function GroupOf(pending: Pending, name: string): Fields
  {
    match Get(pending, name)
    case Some(g) => g
    case None => []
  }

  /** The request filed under `name` and `fieldName`, if any. */
  function Filed(pending: Pending, name: string, fieldName: string): (r: Option<Request>)
    ensures r.Some? <==> Has(pending, name) && Has(GroupOf(pending, name), fieldName)
  {
    match Get(pending, name)
    case Some(g) => Get(g, fieldName)
    case None => None
  }

  /** The groups after one registration. */
  function Register(pending: Pending, r: Request): (pending': Pending)
    ensures Filed(pending', r.name, r.fieldName) == Some(r)
  {
    var g := GroupOf(pending, r.name);
    DistinctPut(g, r.fieldName, r);
    var g': Fields := Put(g, r.fieldName, r);
    DistinctPut(pending, r.name, g');
    GetPut<Fields>(pending, r.name, g', r.name);
    GetPut<Request>(g, r.fieldName, r, r.fieldName);
    Put(pending, r.name, g')
  }

  /** A registration files the request under its name and field, replacing an earlier request
      there, and leaves every other slot alone. */
  lemma RegisterFiles(pending: Pending, r: Request, name: string, fieldName: string)
    ensures Filed(Register(pending, r), name, fieldName) ==
      if name == r.name && fieldName == r.fieldName then Some(r) else Filed(pending, name, fieldName)
  {
    var g := GroupOf(pending, r.name);
    DistinctPut(g, r.fieldName, r);
    var g': Fields := Put(g, r.fieldName, r);
    GetPut<Fields>(pending, r.name, g', name);
    GetPut<Request>(g, r.fieldName, r, fieldName);
  }

  /** Query names keep the order in which they were first registered. */
  lemma RegisterKeys(pending: Pending, r: Request)
    ensures Keys(Register(pending, r)) == if Has(pending, r.name) then Keys(pending) else Keys(pending) + [r.name]
  {
    var g := GroupOf(pending, r.name);
    DistinctPut(g, r.fieldName, r);
    var g': Fields := Put(g, r.fieldName, r);
    KeysPut<Fields>(pending, r.name, g');
  }

  /** The network's answer to a request: a resolution, a rejection, or never. */
  type Settle = Request -> Option<Settlement>

  /** Every request of the group resolved (what `Promise.all` waits for). */
  predicate AllResolved(g: Object<Request>, settle: Settle)
  {
    forall i :: 0 <= i < |g| ==> settle(g[i].1).Some? && settle(g[i].1).value.Resolve?
  }

  /** A settlement the field loop can destructure: `const {response: data} = result` throws a
      TypeError on a resolution with `null` or `undefined`, and then `onResponse` is not reached. */
  predicate Destructurable(s: Option<Settlement>)
  {
    s.Some? && s.value.Resolve? && !s.value.payload.Undefined? && !s.value.payload.Null?
  }

  /** The group reaches `onResponse`: every request resolved (what `Promise.all` waits for), each
      with a value the field loop can destructure. */
  predicate Responds(g: Object<Request>, settle: Settle)
  {
    forall i :: 0 <= i < |g| ==> Destructurable(settle(g[i].1))
  }

  /** The `response` of a resolution (`const {response: data} = result`). */
  function ResponseData(s: Option<Settlement>): Value
  {
    match s
    case Some(Resolve(payload)) => Prop(payload, "response")
    case _ => Undefined
  }

  /** The variables of a group's queries spread one after another, in field order. */
  function MergeVariables(g: Object<Request>): (merged: Object<Value>)
    ensures |g| > 0 && DistinctKeys(g[|g| - 1].1.variables) ==>
      forall k :: Has(g[|g| - 1].1.variables, k) ==> Get(merged, k) == Get(g[|g| - 1].1.variables, k)
    decreases |g|
  {
    if |g| == 0 then []
    else
      var last := g[|g| - 1].1.variables;
      var merged := Assign(MergeVariables(g[..|g| - 1]), last);
      if DistinctKeys(last) then
        assert forall k :: Has(last, k) ==> Get(merged, k) == Get(last, k) by {
          forall k | Has(last, k) ensures Get(merged, k) == Get(last, k) {
            GetAssign(MergeVariables(g[..|g| - 1]), last, k);
          }
        }
        merged
      else merged
  }

  /** The value of variable `k` in the last query of the group that has it. */
  function LastWith(g: Object<Request>, k: string): Option<Value>
    decreases |g|
  {
    if |g| == 0 then None
    else if Has(g[|g| - 1].1.variables, k) then Get(g[|g| - 1].1.variables, k)
    else LastWith(g[..|g| - 1], k)
  }

  /** Later fields win: a merged variable has the value of the last query that sets it. */
  lemma {:induction false} MergeVariablesGet(g: Object<Request>, k: string)
    requires forall i :: 0 <= i < |g| ==> DistinctKeys(g[i].1.variables)
    ensures Get(MergeVariables(g), k) == LastWith(g, k)
    decreases |g|
  {
    if |g| > 0 {
      var n := |g| - 1;
      var prefix := g[..n];
      var last := g[n].1.variables;
      assert MergeVariables(g) == Assign(MergeVariables(prefix), last);
      assert LastWith(g, k) == if Has(last, k) then Get(last, k) else LastWith(prefix, k);
      assert forall i :: 0 <= i < n ==> prefix[i] == g[i];
      MergeVariablesGet(prefix, k);
      GetAssign(MergeVariables(prefix), last, k);
    }
  }

  /** The record of a group: one `{query, data}` per field, assigned in field order. */
  function ServerRecord(g: Object<Request>, settle: Settle): (rec: ServerResult)
    ensures |rec| <= |g| && DistinctKeys(rec)
    decreases |g|
  {
    if |g| == 0 then []
    else
      var n := |g| - 1;
      var field := FieldResult(g[n].1.query, ResponseData(settle(g[n].1)));
      DistinctPut(ServerRecord(g[..n], settle), g[n].0, field);
      Put(ServerRecord(g[..n], settle), g[n].0, field)
  }

  /** The record has exactly the group's field names, in order, each with its query and data. */
  lemma {:induction false} ServerRecordFields(g: Fields, settle: Settle)
    ensures |ServerRecord(g, settle)| == |g|
    ensures forall i :: 0 <= i < |g| ==>
      ServerRecord(g, settle)[i] == (g[i].0, FieldResult(g[i].1.query, ResponseData(settle(g[i].1))))
    decreases |g|
  {
    if |g| > 0 {
      var n := |g| - 1;
      var p: Fields := g[..n];
      ServerRecordFields(p, settle);
      forall i | 0 <= i < n ensures ServerRecord(p, settle)[i].0 != g[n].0 {
        assert p[i] == g[i];
      }
    }
  }

  /** The call a group leads to, when all its requests resolved with values the loop can
      destructure. */
  function GroupEmission(name: string, g: Object<Request>, settle: Settle): (e: Option<Emission>)
    ensures e.Some? <==> AllResolved(g, settle) && forall i :: 0 <= i < |g| ==> Destructurable(settle(g[i].1))
    ensures e.Some? ==> e.value.name == name && |e.value.result| <= |g|
  {
    if Responds(g, settle) then Some(Emission(name, MergeVariables(g), ServerRecord(g, settle))) else None
  }

  /** How a group, under its name, leads to a call or to none. */
  type EmitFn = (string, Object<Request>) -> Option<Emission>

  /** Every call is made under the name of the group it comes from. */
  ghost predicate KeepsName(emit: EmitFn)
  {
    forall name, g :: emit(name, g).Some? ==> emit(name, g).value.name == name
  }

  /** The calls a flush makes when each group leads to `emit`'s answer, group after group. */
  function EmissionsWith(pending: Object<Fields>, emit: EmitFn): (es: seq<Emission>)
    ensures |es| <= |pending|
    decreases |pending|
  {
    if |pending| == 0 then []
    else
      var n := |pending| - 1;
      EmissionsWith(pending[..n], emit) +
        match emit(pending[n].0, pending[n].1)
        case Some(e) => [e]
        case None => []
  }

  /** The calls one flush leads to, group after group. */
  function Emissions(pending: Object<Fields>, settle: Settle): (es: seq<Emission>)
    ensures |es| <= |pending|
  {
    EmissionsWith(pending, (name: string, g: Object<Request>) => GroupEmission(name, g, settle))
  }

  /** A group's call is made under its name, exactly when all its requests resolved with values
      the loop can destructure. */
  lemma GroupEmissionFacts(settle: Settle)
    ensures KeepsName((name: string, g: Object<Request>) => GroupEmission(name, g, settle))
    ensures forall name, g :: GroupEmission(name, g, settle).Some? <==> Responds(g, settle)
  {
  }

  /** One more group adds its call, if any, at the end. */
  lemma EmissionsSnoc(pending: Object<Fields>, i: int, emit: EmitFn)
    requires 0 <= i < |pending|
    ensures var e := emit(pending[i].0, pending[i].1);
      EmissionsWith(pending[..i + 1], emit) == EmissionsWith(pending[..i], emit) + (if e.Some? then [e.value] else [])
  {
    var upto := pending[..i + 1];
    assert upto[..i] == pending[..i] && upto[i] == pending[i];
  }

  /** Every call of a flush comes from a pending group, under its name. */
  lemma {:induction false} EmissionsWithFromGroups(pending: Pending, emit: EmitFn)
    requires KeepsName(emit)
    ensures forall k :: 0 <= k < |EmissionsWith(pending, emit)| ==>
      var e := EmissionsWith(pending, emit)[k];
      Has(pending, e.name) && Some(e) == emit(e.name, GroupOf(pending, e.name))
    decreases |pending|
  {
    if |pending| > 0 {
      var n := |pending| - 1;
      var p: Pending := pending[..n];
      var es, es' := EmissionsWith(p, emit), EmissionsWith(pending, emit);
      EmissionsWithFromGroups(p, emit);
      assert pending == p + [(pending[n].0, pending[n].1)];
      forall k | 0 <= k < |es'|
        ensures Has(pending, es'[k].name) && Some(es'[k]) == emit(es'[k].name, GroupOf(pending, es'[k].name))
      {
        GetSnoc(p, pending[n].0, pending[n].1, es'[k].name);
        if k < |es| {
          assert es'[k] == es[k];
        }
      }
    }
  }

  /** Every call a flush makes is for a pending query name, with that group's merged variables and
      record. */
  lemma EmissionsFromGroups(pending: Pending, settle: Settle)
    ensures forall k :: 0 <= k < |Emissions(pending, settle)| ==>
      var e := Emissions(pending, settle)[k];
      Has(pending, e.name) && Some(e) == GroupEmission(e.name, GroupOf(pending, e.name), settle)
  {
    GroupEmissionFacts(settle);
    EmissionsWithFromGroups(pending, (name: string, g: Object<Request>) => GroupEmission(name, g, settle));
  }

  /** Calls of a flush are for distinct names. */
  lemma {:induction false} EmissionsWithDistinct(pending: Pending, emit: EmitFn)
    requires KeepsName(emit)
    ensures forall a, b :: 0 <= a < b < |EmissionsWith(pending, emit)| ==>
      EmissionsWith(pending, emit)[a].name != EmissionsWith(pending, emit)[b].name
    decreases |pending|
  {
    if |pending| > 0 {
      var n := |pending| - 1;
      var p: Pending := pending[..n];
      var es, es' := EmissionsWith(p, emit), EmissionsWith(pending, emit);
      EmissionsWithDistinct(p, emit);
      EmissionsWithFromGroups(p, emit);
      assert !Has(p, pending[n].0);
      assert forall k :: 0 <= k < |es| ==> es'[k] == es[k] && es[k].name != pending[n].0;
    }
  }

  /** A flush calls `onResponse` at most once per query name. */
  lemma EmissionsDistinct(pending: Pending, settle: Settle)
    ensures forall a, b :: 0 <= a < b < |Emissions(pending, settle)| ==>
      Emissions(pending, settle)[a].name != Emissions(pending, settle)[b].name
  {
    GroupEmissionFacts(settle);
    EmissionsWithDistinct(pending, (name: string, g: Object<Request>) => GroupEmission(name, g, settle));
  }

  /** Some call in `es` is for `name`. */
  predicate EmitsFor(es: seq<Emission>, name: string)
  {
    exists k :: 0 <= k < |es| && es[k].name == name
  }

  /** A call for `name` in a concatenation is a call in one of its parts. */
  lemma EmitsForAppend(a: seq<Emission>, b: seq<Emission>, name: string)
    ensures EmitsFor(a + b, name) <==> EmitsFor(a, name) || EmitsFor(b, name)
  {
    if EmitsFor(a, name) {
      var k :| 0 <= k < |a| && a[k].name == name;
      assert (a + b)[k].name == name;
    }
    if EmitsFor(a + b, name) {
      var k :| 0 <= k < |a + b| && (a + b)[k].name == name;
      if k >= |a| {
        assert b[k - |a|].name == name;
      }
    }
    if EmitsFor(b, name) {
      var k :| 0 <= k < |b| && b[k].name == name;
      assert (a + b)[|a| + k].name == name;
    }
  }

  /** A flush calls for a name exactly when that name is pending and its group leads to a call. */
  lemma {:induction false} EmissionsWithFor(pending: Pending, emit: EmitFn, name: string)
    requires KeepsName(emit)
    ensures EmitsFor(EmissionsWith(pending, emit), name) <==> Has(pending, name) && emit(name, GroupOf(pending, name)).Some?
    decreases |pending|
  {
    if |pending| > 0 {
      var n := |pending| - 1;
      var p: Pending := pending[..n];
      var g := pending[n];
      var ge := emit(g.0, g.1);
      var es, tail := EmissionsWith(p, emit), if ge.Some? then [ge.value] else [];
      EmissionsSnoc(pending, n, emit);
      assert pending[..n + 1] == pending;
      EmitsForAppend(es, tail, name);
      EmissionsWithFor(p, emit, name);
      assert pending == p + [g];
      GetSnoc(p, g.0, g.1, name);
      assert EmitsFor(tail, name) <==> name == g.0 && ge.Some? by {
        if ge.Some? {
          assert tail[0].name == g.0;
        }
      }
      if name == g.0 {
        assert !Has(p, name);
        assert GroupOf(pending, name) == g.1;
      }
    }
  }

  /** A flush calls `onResponse` for a name exactly when that name is pending and all its requests
      resolved, none with `null` or `undefined`: one failed, unsettled or nullish request silences
      the whole group. */
  lemma EmissionsFor(pending: Pending, settle: Settle, name: string)
    ensures EmitsFor(Emissions(pending, settle), name) <==>
      && Has(pending, name) && AllResolved(GroupOf(pending, name), settle)
      && forall i :: 0 <= i < |GroupOf(pending, name)| ==> Destructurable(settle(GroupOf(pending, name)[i].1))
  {
    GroupEmissionFacts(settle);
    EmissionsWithFor(pending, (name: string, g: Object<Request>) => GroupEmission(name, g, settle), name);
  }

  /** The subscriber's state: the closure variable `pendingQueries`, the number of ticks scheduled
      and the `onResponse` calls made so far. */
  class Subscriber {
    var pending: Pending
    var scheduled: nat
    var emitted: seq<Emission>

    constructor ()
      ensures pending == [] && scheduled == 0 && emitted == []
    {
      pending := [];
      scheduled := 0;
      emitted := [];
    }

    /** The function the decorator returns: file the request and schedule a flush. */
    method Subscribe(r: Request)
      modifies this
      ensures pending == Register(old(pending), r)
      ensures scheduled == old(scheduled) + 1 && emitted == old(emitted)
    {
      pending := Register(pending, r);
      scheduled := scheduled + 1;
    }

    /** One group of `handlePendingQueries`: once all its requests resolved, the variables are
        spread and the fields assigned in field order; a nullish result stops the loop (the
        destructuring throws) and no call is made. */
    method EmitGroup(name: string, queryRequests: Fields, settle: Settle) returns (e: Option<Emission>)
      ensures e == GroupEmission(name, queryRequests, settle)
      ensures e.Some? ==> e.value.name == name
    {
      if !AllResolved(queryRequests, settle) {
        return None;
      }
      var fieldNames := Keys(queryRequests);
      var serverResult: ServerResult := [];
      var variables: Object<Value> := [];
      for j := 0 to |fieldNames|
        invariant serverResult == ServerRecord(queryRequests[..j], settle)
        invariant variables == MergeVariables(queryRequests[..j])
        invariant forall i :: 0 <= i < j ==> Destructurable(settle(queryRequests[i].1))
      {
        assert queryRequests[..j + 1][..j] == queryRequests[..j];
        GetAt<Request>(queryRequests, j);
        var request := queryRequests[j].1;
        if !Destructurable(settle(request)) {
          return None;
        }
        var data := ResponseData(settle(request));
        variables := Assign(variables, request.variables);
        serverResult := Put(serverResult, fieldNames[j], FieldResult(request.query, data));
      }
      assert queryRequests[..|fieldNames|] == queryRequests;
      ServerRecordFields(queryRequests, settle);
      return Some(Emission(name, variables, serverResult));
    }

    /** `handlePendingQueries`: one `onResponse` per group whose requests all resolved, in group
        order; the groups are cleared in the same tick. */
    method HandlePendingQueries(settle: Settle)
      modifies this
      ensures pending == [] && scheduled == old(scheduled)
      ensures emitted == old(emitted) + Emissions(old(pending), settle)
    {
      var names := Keys(pending);
      for i := 0 to |names|
        invariant pending == old(pending) && scheduled == old(scheduled)
        invariant emitted == old(emitted) + Emissions(pending[..i], settle)
      {
        GetAt<Fields>(pending, i);
        assert GroupOf(pending, names[i]) == pending[i].1;
        var e := EmitGroup(names[i], GroupOf(pending, names[i]), settle);
        EmissionsSnoc(pending, i, (name: string, g: Object<Request>) => GroupEmission(name, g, settle));
        if e.Some? {
          emitted := emitted + [e.value];
        }
      }
      assert pending[..|names|] == pending;
      pending := [];
    }
  }
}
