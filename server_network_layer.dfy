/** The server-side network layer (src/networkLayer/server.js): it hands each query request to the
    caller's `fetchQuery`, settles the request from the response and keeps every successful result
    by query id. `fetchQuery` is I/O: its response to each request is a parameter, and the calls
    made to it are logged in `fetched`. */
module ServerNetwork {
  import opened JsValues

  /** What the engine hands the network layer for one query. */
  datatype QueryRequest = QueryRequest(id: string, queryString: string, variables: Object<Value>)

  /** How a promise or a request settles. */
  datatype Settlement = Resolve(payload: Value) | Reject(error: JsError)

  /** The error a failed response settles with. */
  const SERVER_ERROR := JsError("Error", "Server Error")

  /** The `data` property of a response (`undefined` when absent). */
  function Data(response: Object<Value>): Value
  {
    Prop(Obj(response), "data")
  }

  /** A response succeeds when it has no `errors` key and truthy `data`. */
  predicate Succeeds(response: Object<Value>)
  {
    !Has(response, "errors") && Truthy(Data(response))
  }

  /** How `_sendQuery`'s own promise settles for a response (what `sendQueries` collects). */
  function Outcome(response: Object<Value>): (s: Settlement)
    ensures s.Resolve? <==> Succeeds(response)
    ensures s.Resolve? ==> s.payload == Data(response) && Truthy(s.payload)
    ensures s.Reject? ==> s.error == SERVER_ERROR
  {
    if Succeeds(response) then Resolve(Data(response)) else Reject(SERVER_ERROR)
  }

  /** How the request itself is settled: with `{response: data}` on success. */
  function Delivered(response: Object<Value>): (s: Settlement)
    ensures s.Resolve? <==> Succeeds(response)
    ensures s.Resolve? ==> Prop(s.payload, "response") == Data(response)
    ensures s.Reject? ==> s.error == SERVER_ERROR
  {
    if Succeeds(response) then Resolve(Obj([("response", Data(response))])) else Reject(SERVER_ERROR)
  }

  /** `queryResults` after requests have been answered in order. */
  function Recorded(results: map<string, Value>, requests: seq<QueryRequest>, responses: seq<Object<Value>>)
    : (r: map<string, Value>)
    requires |requests| == |responses|
    ensures results.Keys <= r.Keys
    ensures forall id :: id in results && (forall i :: 0 <= i < |requests| ==> requests[i].id != id) ==> r[id] == results[id]
    decreases |requests|
  {
    if |requests| == 0 then results
    else
      var n := |requests| - 1;
      var r := Recorded(results, requests[..n], responses[..n]);
      if Succeeds(responses[n]) then r[requests[n].id := Data(responses[n])] else r
  }

  /** An id is recorded exactly when it was recorded before or some request with that id succeeded;
      its value then is the data of the last such success, and every recorded value is truthy. */
  lemma {:induction false} RecordedKeys(results: map<string, Value>, requests: seq<QueryRequest>,
                                        responses: seq<Object<Value>>, id: string)
    requires |requests| == |responses|
    ensures id in Recorded(results, requests, responses) <==>
      id in results || exists i :: 0 <= i < |requests| && requests[i].id == id && Succeeds(responses[i])
    decreases |requests|
  {
    if |requests| > 0 {
      var n := |requests| - 1;
      RecordedKeys(results, requests[..n], responses[..n], id);
      if id in Recorded(results, requests[..n], responses[..n]) && !(id in results) {
        var i :| 0 <= i < n && requests[..n][i].id == id && Succeeds(responses[..n][i]);
        assert requests[i].id == id && Succeeds(responses[i]);
      }
      if exists i :: 0 <= i < |requests| && requests[i].id == id && Succeeds(responses[i]) {
        var i :| 0 <= i < |requests| && requests[i].id == id && Succeeds(responses[i]);
        if i < n {
          assert requests[..n][i].id == id && Succeeds(responses[..n][i]);
        }
      }
    }
  }
  /** Only truthy data is recorded, so a map of truthy values stays one. */
  lemma {:induction false} RecordedTruthy(results: map<string, Value>, requests: seq<QueryRequest>,
                                          responses: seq<Object<Value>>, id: string)
    requires |requests| == |responses|
    requires forall x :: x in results ==> Truthy(results[x])
    requires id in Recorded(results, requests, responses)
    ensures Truthy(Recorded(results, requests, responses)[id])
    decreases |requests|
  {
    if |requests| > 0 {
      var n := |requests| - 1;
      if !(Succeeds(responses[n]) && requests[n].id == id) {
        RecordedTruthy(results, requests[..n], responses[..n], id);
      }
    }
  }


  class ServerNetworkLayer {
    /** `queryResults`: the data of every successful query, by query id. */
    var queryResults: map<string, Value>
    /** The calls made to `fetchQuery`: query string and variables, in order. */
    var fetched: seq<(string, Object<Value>)>

    /** Only truthy data is ever stored. */
    ghost predicate Valid()
      reads this
    {
      forall id :: id in queryResults ==> Truthy(queryResults[id])
    }

    constructor ()
      ensures Valid() && queryResults == map[] && fetched == []
    {
      queryResults := map[];
      fetched := [];
    }

    /** `_sendQuery`: one call to `fetchQuery`; on success the request is resolved with
        `{response: data}`, the promise with `data`, and the data is stored under the request's id;
        otherwise both are rejected with "Server Error" and nothing is stored. */
    method SendQuery(request: QueryRequest, response: Object<Value>) returns (delivered: Settlement, outcome: Settlement)
      requires Valid()
      modifies this
      ensures Valid()
      ensures fetched == old(fetched) + [(request.queryString, request.variables)]
      ensures delivered == Delivered(response) && outcome == Outcome(response)
      ensures queryResults == if Succeeds(response) then old(queryResults)[request.id := Data(response)]
                              else old(queryResults)
    {
      fetched := fetched + [(request.queryString, request.variables)];
      var data := Data(response);
      if Has(response, "errors") || !Truthy(data) {
        delivered := Reject(SERVER_ERROR);
        outcome := Reject(SERVER_ERROR);
      } else {
        delivered := Resolve(Obj([("response", data)]));
        outcome := Resolve(data);
        queryResults := queryResults[request.id := data];
      }
    }

    /** `sendQueries`: every request is sent once, in order, and the outcomes line up with the
        requests (what `Promise.all` collects). */
    method SendQueries(requests: seq<QueryRequest>, responses: seq<Object<Value>>) returns (outcomes: seq<Settlement>)
      requires Valid() && |requests| == |responses|
      modifies this
      ensures Valid()
      ensures |outcomes| == |requests| && forall i :: 0 <= i < |requests| ==> outcomes[i] == Outcome(responses[i])
      ensures |fetched| == |old(fetched)| + |requests| && fetched[..|old(fetched)|] == old(fetched)
      ensures forall i :: 0 <= i < |requests| ==>
        fetched[|old(fetched)| + i] == (requests[i].queryString, requests[i].variables)
      ensures queryResults == Recorded(old(queryResults), requests, responses)
    {
      outcomes := [];
      for i := 0 to |requests|
        invariant Valid()
        invariant |outcomes| == i && forall k :: 0 <= k < i ==> outcomes[k] == Outcome(responses[k])
        invariant |fetched| == |old(fetched)| + i && fetched[..|old(fetched)|] == old(fetched)
        invariant forall k :: 0 <= k < i ==>
          fetched[|old(fetched)| + k] == (requests[k].queryString, requests[k].variables)
        invariant queryResults == Recorded(old(queryResults), requests[..i], responses[..i])
      {
        assert requests[..i + 1][..i] == requests[..i] && responses[..i + 1][..i] == responses[..i];
        var _, outcome := SendQuery(requests[i], responses[i]);
        outcomes := outcomes + [outcome];
      }
      assert requests[..|requests|] == requests && responses[..|responses|] == responses;
    }
  }
}
