/** Value shapes exchanged with the Relay engine, which is not part of this model. */
module RelayTypes {
  import opened JsValues

  /** A query configuration (a Relay route): its name, the root queries by field name, and the
      parameter values. */
  datatype QueryConfig = QueryConfig(name: string, queries: Object<Value>, params: Object<Value>)

  /** The engine's report on a fetch in progress. `error` is the error object, when there is one. */
  datatype ReadyState = ReadyState(aborted: bool, done: bool, error: Option<JsError>, ready: bool, stale: bool)

  /** One transported field: the serialised query and its response data. */
  datatype FieldResult = FieldResult(query: Value, data: Value)

  /** One transported query set: field name -> result. */
  type ServerResult = Object<FieldResult>
}
