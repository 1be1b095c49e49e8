/** The helpers decorator (src/components/decorators/withRelayHelpers.js): the wrapped component gets
    promise-returning `setVariables` and `forceFetch`. Each forwards its variables to the matching
    method of the `relay` prop, and the engine's ready-state reports then settle the promise. */
module RelayHelpers {
  import opened JsValues
  import opened RelayTypes

  /** Where a promise stands. */
  datatype PromiseState = Pending | Resolved | Rejected

  /** `callback`: what one ready-state report does. A ready report resolves, whatever else it says;
      otherwise an error or an abort rejects; otherwise nothing happens. */
  function Callback(rs: ReadyState): (r: PromiseState)
    ensures r == Resolved <==> rs.ready
    ensures r == Rejected <==> !rs.ready && (rs.error.Some? || rs.aborted)
    ensures r == Pending <==> !rs.ready && rs.error.None? && !rs.aborted
  {
    if rs.ready then Resolved
    else if rs.error.Some? || rs.aborted then Rejected
    else Pending
  }

  /** The promise after the engine's reports, in order: a promise settles once, so the first report
      that resolves or rejects decides it. */
  function PromiseOutcome(reports: seq<ReadyState>): (r: PromiseState)
    ensures r != Pending ==> exists i :: 0 <= i < |reports| && Callback(reports[i]) == r
  {
    if |reports| == 0 then Pending
    else if Callback(reports[0]) != Pending then Callback(reports[0])
    else PromiseOutcome(reports[1..])
  }

  /** The outcome is that of the first report that settles. */
  lemma {:induction false} FirstSettlingReportDecides(reports: seq<ReadyState>, i: int)
    requires 0 <= i < |reports| && Callback(reports[i]) != Pending
    requires forall j :: 0 <= j < i ==> Callback(reports[j]) == Pending
    ensures PromiseOutcome(reports) == Callback(reports[i])
  {
    if i > 0 {
      FirstSettlingReportDecides(reports[1..], i - 1);
    }
  }

  /** The promise stays pending exactly when no report is ready, failed or aborted. */
  lemma {:induction false} PendingIffNoSettlingReport(reports: seq<ReadyState>)
    ensures PromiseOutcome(reports) == Pending <==> forall j :: 0 <= j < |reports| ==> Callback(reports[j]) == Pending
  {
    if |reports| > 0 {
      PendingIffNoSettlingReport(reports[1..]);
      assert forall j :: 0 < j < |reports| ==> reports[1..][j - 1] == reports[j];
    }
  }

  /** Once settled, later reports change nothing. */
  lemma {:induction false} SettledStaysSettled(reports: seq<ReadyState>, later: seq<ReadyState>)
    requires PromiseOutcome(reports) != Pending
    ensures PromiseOutcome(reports + later) == PromiseOutcome(reports)
  {
    assert (reports + later)[0] == reports[0];
    if Callback(reports[0]) == Pending {
      assert (reports + later)[1..] == reports[1..] + later;
      SettledStaysSettled(reports[1..], later);
    }
  }

  /** Report `i` is ready and no report before it settled the promise. */
  predicate ReadyFirst(reports: seq<ReadyState>, i: int)
  {
    0 <= i < |reports| && reports[i].ready && forall j :: 0 <= j < i ==> Callback(reports[j]) == Pending
  }

  /** The two methods of the `relay` prop that the helpers forward to. */
  datatype RelayMethod = SetVariables | ForceFetch

  /** A call made on the `relay` prop. */
  datatype RelayCall = RelayCall(target: RelayMethod, variables: Value)

  /** A helper call: `helper(variables)` makes exactly one call on `relay`, to the method of the same
      name with exactly the variables given, and its promise ends as the engine's reports decide. */
  function Forward(helper: RelayMethod, variables: Value, reports: seq<ReadyState>): (r: (RelayCall, PromiseState))
    ensures r.0.target == helper && r.0.variables == variables
    ensures r.1 == Resolved <==> exists i :: ReadyFirst(reports, i)
  {
    OutcomeResolvedIff(reports);
    (RelayCall(helper, variables), PromiseOutcome(reports))
  }

  /** The promise resolves exactly when some ready report comes before every failing one. */
  lemma {:induction false} OutcomeResolvedIff(reports: seq<ReadyState>)
    ensures PromiseOutcome(reports) == Resolved <==> exists i :: ReadyFirst(reports, i)
  {
    forall i | ReadyFirst(reports, i)
      ensures PromiseOutcome(reports) == Resolved
    {
      FirstSettlingReportDecides(reports, i);
    }
    if PromiseOutcome(reports) == Resolved {
      if Callback(reports[0]) != Pending {
        assert ReadyFirst(reports, 0);
      } else {
        var tail := reports[1..];
        OutcomeResolvedIff(tail);
        var k :| ReadyFirst(tail, k);
        forall j | 0 <= j < k + 1 ensures Callback(reports[j]) == Pending {
          if j > 0 {
            assert reports[j] == tail[j - 1];
          }
        }
        assert ReadyFirst(reports, k + 1);
      }
    }
  }

  /** The props the wrapped component gets: every prop, with `setVariables` and `forceFetch` set to
      the helpers. */
  function HelperProps(props: Object<Value>, setVariables: Value, forceFetch: Value): (helped: Object<Value>)
    ensures Get(helped, "setVariables") == Some(setVariables) && Get(helped, "forceFetch") == Some(forceFetch)
  {
    var helpers := [("setVariables", setVariables), ("forceFetch", forceFetch)];
    GetAssign(props, helpers, "setVariables");
    GetAssign(props, helpers, "forceFetch");
    assert helpers[1..] == [("forceFetch", forceFetch)];
    Assign(props, helpers)
  }

  /** The helpers replace the two props of the same names and leave every other prop as it was. */
  lemma HelperPropsGet(props: Object<Value>, setVariables: Value, forceFetch: Value, k: string)
    ensures Get(HelperProps(props, setVariables, forceFetch), k) ==
      if k == "setVariables" then Some(setVariables)
      else if k == "forceFetch" then Some(forceFetch)
      else Get(props, k)
  {
    var helpers := [("setVariables", setVariables), ("forceFetch", forceFetch)];
    GetAssign(props, helpers, k);
    assert helpers[1..] == [("forceFetch", forceFetch)];
    if k != "setVariables" {
      HasTail(helpers, k);
    }
  }
}
