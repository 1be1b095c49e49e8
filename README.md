# relay-helpers: a Dafny model of the isomorphic query layer

relay-helpers sits on top of Relay Classic and React. It lets a page be rendered on the server
and the client with one set of queries. The server renders repeatedly until no new query set
appears. It then sends every query set with its results to the client. The client puts the
results back into its store, so its first render finds them.

This project models that coordination layer and the small state machines around it:

- the map keyed by query sets (`QuerySets`), compared structurally through the engine's `equals`;
- the coordinator shared by both environments (`BaseEnv`): a query set is unseen, pending or settled;
- the server environment (`ServerEnv`): client data and the render-until-stable recursion;
- the server network layer (`ServerNetwork`), which decides success or failure and records results;
- the client environment (`ClientEnv`): injection of the server's records;
- the hand-over from server to client (`Transfer`): what the server sends comes back, on the client, as matching query sets;
- the response aggregator (`QuerySubscriber`), which groups requests per query name and flushes once per tick;
- query splitting (`SplitQuery`), with its fragment-id counter;
- the time-to-live fetch cache (`FetchCache`);
- the environment provider (`EnvProvider`): reset listeners and the `initialRender` flag;
- the decorators `withRelayRenderer` (`RelayRenderer`), `withRelayQuery` (`RelayQuery`) and
  `withRelayHelpers` (`RelayHelpers`).

JavaScript values are modelled in `JsValues`. A plain object is an association list with distinct
names in insertion order. `Put` is property assignment and `Assign` is object spread. The Relay
engine, React, the network, the clock and `process.env.NODE_ENV` are not modelled:

- query handles are a type parameter;
- `equals`, `getID`, `toGraphQL`, `fromGraphQL`, `Relay.getQueries` and `JSON.stringify` are function parameters;
- `Date.now()` is an integer parameter `now`, and production mode is a boolean parameter;
- a promise is known by a number, and its settlement is an explicit method call;
- a render pass is a function from the coordinator's records to its markup and the query sets it asks for;
- the `setImmediate` tick is the explicit call `HandlePendingQueries`.

Classes whose fields the source updates in place are Dafny classes: the query-set map, the
coordinator, both environments, the network layer, the fetch cache, the subscriber, the splitter
counter, the provider and the renderer wrapper. Their methods are proved against specification
functions (`Store`, `Lookup`, `Collected`, `Recorded`, `Emissions`, `RegisterAll`, `ClientData`
and others), and the lemmas beside those functions state what the source promises.

Some behaviour of the code is easy to misread:

- A cached entry is stale only when `now - t > ttl` (queryFetchCache.js:29). The test is strict, so an entry of age exactly `ttl` is fresh.
- `onQuerySuccess` collects garbage before it writes `now` (queryFetchCache.js:18-19). So the entry just written always survives that call.
- `isomorphicClientData` drops only records with no field at all (server.js:39). A query set with some failed fields is sent with the fields that succeeded.
- `isomorphicGetData` renders up to `maxRecursions + 1` times (server.js:58-62), and the first render can never stop on stability, because there is no previous count. The class method starts the module function's recursion with no previous count, and the model keeps that shape.
- Injection on the client files each rebuilt query set with a fresh fetch and no ready state (client.js:22, base.js:54). The ready state arrives only when the engine reports on that fetch.

## Model

| member | source | states |
|---|---|---|
| QuerySets.FirstMatch | src/environment/querySetMap.js:42-49 | The index found is in range and its key matches; no earlier key matches; -1 means that no key matches |
| QuerySets.Lookup | src/environment/querySetMap.js:35-40 | A value is found exactly when some stored key matches the query set |
| QuerySets.Store | src/environment/querySetMap.js:25-33 | On a match only that slot's value changes, and the keys and size stay the same; otherwise both lists grow by the new entry at the end |
| QuerySets.KeyMatchReflexive | src/environment/querySetMap.js:51-70 | With a reflexive `equals`, every query set matches itself |
| QuerySets.FoundAt | src/environment/querySetMap.js:63-69 | A name present in a query set sits at a position whose handle is the one looked up |
| QuerySets.KeyMatchSymmetric | src/environment/querySetMap.js:51-70 | With a symmetric `equals`, structural matching is symmetric: same count and every name of `a` in `b` means the converse too |
| QuerySets.KeyMatchTransitive | src/environment/querySetMap.js:51-70 | With a transitive `equals`, structural matching is transitive |
| QuerySets.FirstMatchRespectsMatch | src/environment/querySetMap.js:42-49 | Query sets that match each other find the same slot |
| QuerySets.LookupAfterStore | src/environment/querySetMap.js:25-40 | `get` after `set` on a matching query set returns the value just stored |
| QuerySets.FirstMatchAppend | src/environment/querySetMap.js:29-32 | Appending keys never changes a match already found |
| QuerySets.StoreFinds | src/environment/querySetMap.js:25-33 | `set` never loses a match, and a stored key that matches itself is found afterwards |
| QuerySets.QuerySetMap.constructor | src/environment/querySetMap.js:22-23 | The map starts with no keys and no values |
| QuerySets.QuerySetMap.KeyEquals | src/environment/querySetMap.js:51-70 | The answer is true exactly when the counts are equal and every name of `a` is in `b` with a handle that `equals` the one in `a` |
| QuerySets.QuerySetMap.IndexOf | src/environment/querySetMap.js:42-49 | Returns the first index whose key matches, or -1 exactly when no key matches |
| QuerySets.QuerySetMap.Set | src/environment/querySetMap.js:25-33 | The new keys and values are those of `Store`: overwrite in place or append, lists of equal length |
| QuerySets.QuerySetMap.Get | src/environment/querySetMap.js:35-40 | Returns the value in the matching slot, and nothing exactly when no key matches |
| QuerySets.QuerySetMap.Keys | src/environment/querySetMap.js:72-74 | Returns the keys in insertion order as a value, so changing it cannot change the map |
| QuerySets.QuerySetMap.Values | src/environment/querySetMap.js:76-78 | Returns the values in insertion order as a value, so changing it cannot change the map |
| QuerySets.QuerySetMap.Size | src/environment/querySetMap.js:80-82 | The size equals the length of both lists |
| FetchCache.CacheKeyInjective | src/components/RelayEnvProvider/queryFetchCache.js:11-13 | Equal names and serialised params give one key; for bar-free names, one key means equal names and params |
| FetchCache.ShorterNameDiffers | src/components/RelayEnvProvider/queryFetchCache.js:11-13 | A shorter name cannot give the same key as a longer bar-free name |
| FetchCache.CacheKey | src/components/RelayEnvProvider/queryFetchCache.js:11-13 | The key is the name, a bar, then the serialised params, each part readable back at its position |
| FetchCache.QueryFetchCache.GetKey | src/components/RelayEnvProvider/queryFetchCache.js:11-13 | A query config's key is its name, a bar, then its serialised params |
| FetchCache.Collected | src/components/RelayEnvProvider/queryFetchCache.js:34-41 | Garbage collection removes exactly the entries older than 24 hours and keeps the others with their times |
| FetchCache.ForceFetchVerdict | src/components/RelayEnvProvider/queryFetchCache.js:22-32 | Outside production a ttl over 24 hours throws; otherwise the answer is "stale": missing, or strictly older than `ttl`; a missing key always forces |
| FetchCache.CollectedLater | src/components/RelayEnvProvider/queryFetchCache.js:34-41 | Collecting at `t1` and then at a later `t2` is the same as collecting at `t2` |
| FetchCache.SuccessAfterLongIdle | src/components/RelayEnvProvider/queryFetchCache.js:17-20 | When every entry is older than 24 hours, a success leaves only its own entry |
| FetchCache.FreshUntilTtl | src/components/RelayEnvProvider/queryFetchCache.js:17-30 | After a success at `t0`, a check at `t` forces exactly when `t - t0 > ttl`; an age of exactly `ttl` does not force |
| FetchCache.StaleStaysStale | src/components/RelayEnvProvider/queryFetchCache.js:28-30 | Without writes, an entry once stale stays stale as time goes on |
| FetchCache.QueryFetchCache.constructor | src/components/RelayEnvProvider/queryFetchCache.js:15 | The cache starts empty |
| FetchCache.QueryFetchCache.GarbageCollect | src/components/RelayEnvProvider/queryFetchCache.js:34-41 | The new cache is the old one collected at `now` |
| FetchCache.QueryFetchCache.OnQuerySuccess | src/components/RelayEnvProvider/queryFetchCache.js:17-20 | The cache is collected first and then maps the query's key to `now`; that entry survives and no entry left is over 24 hours old |
| FetchCache.QueryFetchCache.ShouldForceFetch | src/components/RelayEnvProvider/queryFetchCache.js:22-32 | The ttl guard throws before any lookup outside production; otherwise the answer is true exactly for a missing key or an age strictly above `ttl`; the cache is only read |
| BaseEnv.RegisterPreserves | src/environment/base.js:39-55 | A fresh fetch filed under its query set keeps every earlier fetch findable and every record tied to the fetch that made it |
| BaseEnv.SettlePreserves | src/environment/base.js:43-50 | A settling report for a fetch always finds a record, and storing its ready state keeps the coordinator consistent once that promise is resolved |
| BaseEnv.PromisesDistinct | src/environment/base.js:54 | No two records share a promise |
| BaseEnv.BaseEnvironment.constructor | src/environment/base.js:17-19 | The map starts empty, no fetch has been issued, and `isServer`/`isIsomorphicRender` are as given |
| BaseEnv.BaseEnvironment.RunQuery | src/environment/base.js:39-55 | One fetch is issued for the query set, and a fresh record with that fetch's promise overwrites a matching record or is appended |
| BaseEnv.BaseEnvironment.RunQueriesOrGetReadyState | src/environment/base.js:21-37 | A match returns its ready state (or null while pending) and fetches nothing; an unseen query set on the server issues one fetch, appends one record and returns null; off the server nothing changes |
| BaseEnv.BaseEnvironment.OnReadyStateChange | src/environment/base.js:43-51 | Only an error, abort or done report acts: it stores the ready state in the record its query set finds and resolves that promise; other reports, or a missing record, change nothing |
| BaseEnv.BaseEnvironment.QueriesPromise | src/environment/base.js:57-59 | One promise per tracked record, in map order, each that of a fetch already issued |
| BaseEnv.BaseEnvironment.AwaitQueries | src/environment/base.js:57-59 | Once the engine settles every fetch, every promise is resolved and every record tracked at the time carries a ready state; the keys do not change, every record keeps its place and its promise, and the records are exactly those that the engine's reports for the outstanding fetches, taken in the order the fetches were made, leave (`AwaitedFrom`) |
| BaseEnv.AwaitStep | src/environment/base.js:43-51 | One fetch's report during the wait changes at most one record's ready state, and no record's promise |
| BaseEnv.AwaitedFrom | src/environment/base.js:39-59 | The wait through the outstanding fetches keeps the number of records and every record's promise |
| BaseEnv.AwaitedOwnFetch | src/environment/base.js:43-51 | When each record is found by its own fetch only, the wait gives every record whose promise was outstanding the ready state the engine reports for that fetch, and leaves every other record as it was |
| BaseEnv.OneFetchAppend | src/environment/base.js:31-34 | Fetching only query sets no key matches yet, filed at the end, keeps each record found by exactly one fetch |
| BaseEnv.BaseEnvironment.AwaitFetch | src/environment/base.js:43-51 | The wait reaching one fetch: if its promise is not resolved yet, the engine's report is stored in the record its query set finds; the promise is resolved afterwards, and the records are the step `AwaitStep` gives |
| BaseEnv.BaseEnvironment.AwaitFrom | src/environment/base.js:57-59 | The wait from one fetch on reaches every later fetch in order: the records end as `AwaitedFrom` says and every fetch's promise is resolved |
| ServerEnv.ClientRecord | src/environment/server.js:26-38 | A record has no more fields than the query set has queries |
| ServerEnv.ClientRecordGet | src/environment/server.js:29-36 | A record has field `n` exactly when the query set's query `n` has a result under its id, and that field pairs the serialised query with the result |
| ServerEnv.ClientRecordEmpty | src/environment/server.js:29-39 | A record is empty exactly when none of the query set's queries has a result |
| ServerEnv.ClientRecordDistinct | src/environment/server.js:28-36 | A record's field names are distinct |
| ServerEnv.ClientRecordAll | src/environment/server.js:29-36 | With every query answered, the record has one field per query, in the query set's order, each the query's serialised form with its result |
| ServerEnv.ClientRecordShort | src/environment/server.js:31-36 | A query without a result leaves the record with fewer fields than the query set has queries |
| ServerEnv.Records | src/environment/server.js:26-38 | One record per tracked query set, in map order |
| ServerEnv.NonEmpty | src/environment/server.js:39 | The kept records are at most as many as the records, and none is empty |
| ServerEnv.NonEmptyMembers | src/environment/server.js:39 | The filter keeps exactly the records with at least one field |
| ServerEnv.ClientData | src/environment/server.js:25-40 | The output has no more records than the map has query sets, and none of them is empty |
| ServerEnv.ClientDataMembers | src/environment/server.js:25-40 | The records sent are exactly the non-empty records of tracked query sets |
| ServerEnv.PartialRecordKept | src/environment/server.js:29-39 | A query set with one answered query is sent even when its other queries failed |
| ServerEnv.StrictGrowth | src/environment/server.js:58-61 | A run of renders that each found a new map size grows the map by at least one per render |
| ServerEnv.RenderCount | src/environment/server.js:55-63 | The renders number at most two more than the query sets found after the first render |
| ServerEnv.RunStop | src/environment/server.js:57-59 | A render that spends the budget or repeats the previous count, on a view whose keys and records the final map extends and whose requested query sets it tracks, is a run of one render |
| ServerEnv.RunStep | src/environment/server.js:57-62 | A render that continues, whose view the next one follows (its keys extended, its promises kept, its requested query sets matched, every record settled), followed by the run of the recursive call with one less and its size as the previous count, is a run that records all of this for each pair of views |
| ServerEnv.RecursionStep | src/environment/server.js:57-62 | A render that leaves a new size within the budget, followed by the recursion on that size, keeps the sizes within budget, never shrinking, and differing until the last pair |
| ServerEnv.StableRunSawFinalMap | src/environment/server.js:58-59 | When the recursion stops on a repeated size, the last render saw the final map itself, keys and records |
| ServerEnv.ViewsAreMapPrefixes | src/environment/server.js:57-62 | Every view after the first is the final key list cut at the size the previous render left |
| ServerEnv.ServerEnvironment.constructor | src/environment/server.js:16-23 | A server environment is server-side and isomorphic from the start, with an empty map and a network layer with no results |
| ServerEnv.ServerEnvironment.IsomorphicClientData | src/environment/server.js:25-40 | Returns the client data of the tracked query sets, no more records than the map's size |
| ServerEnv.ServerEnvironment.IsomorphicGetData | src/environment/server.js:49-63 | Rendering stops only when the budget is spent or a render leaves the size the previous one left, never on the first render; with a budget there are at least two renders; the first render sees the map as it was; each later one sees the keys the map held after the previous render (a prefix of the final keys, extending the previous view and matching everything the previous render asked for) and records that keep the previous view's promises, all settled: a record already resolved before the first render is the record the first render saw, every other holds the ready state the engine gave the fetch that made it, and these records are a prefix of the final records; every query set any render asked for is tracked at the end; when it stops on a repeated size, the last render saw the final map, every record of which is settled, and the markup is rendered from it |
| ServerEnv.ServerEnvironment.GetDataFrom | src/environment/server.js:55-63 | The run from a budget and a previous count: at most budget + 1 renders, the first size compared with the previous count, ending with the budget spent or a size repeated; each view follows the one before it (keys extended, promises kept, requests matched, records settled) and its keys are a prefix of the final keys; every view after the first holds, for each record, either the record the first render of the whole recursion saw (its promise was already resolved) or the engine's ready state for the fetch that made it, and is a prefix of the final records; records resolved on entry are kept |
| ServerEnv.ServerEnvironment.RequestAll | src/environment/base.js:21-37 | After the renderers of one pass ask for their query sets, each of them finds a record, every earlier match is kept, keys, records and fetches only grow at their end, the new records carry no ready state, and no promise is resolved |
| ServerEnv.ServerEnvironment.Await | src/environment/server.js:62 | After waiting on the server, every promise is resolved, keys and fetches are unchanged, and each record whose promise was outstanding holds the ready state the engine reports for its own fetch while every other record is as it was |
| ServerEnv.SettledAfterRequests | src/environment/base.js:21-37 | A render's requests, which append records with no ready state, leave every resolved record settled as before |
| ServerEnv.SettledAfterWait | src/environment/server.js:62 | After the wait, every record is either the one the first render saw (its promise was already resolved then) or holds the engine's ready state for the fetch that made it |
| ServerEnv.ViewsSettledStep | src/environment/server.js:57-62 | A settled view that is a prefix of the final records, put before settled views, keeps every view after the first settled |
| ServerEnv.KeptWhenResolved | src/environment/server.js:58-62 | A view whose promises are all resolved, with every resolved record kept afterwards, is a prefix of the final records |
| ServerEnv.GetDataStep | src/environment/server.js:57-62 | A render that continues, then the wait, then the later renders form one run from the render's view; the records resolved at its start are kept to the end, and every view after the first is settled from the engine and a prefix of the final records |
| ServerEnv.GetDataStop | src/environment/server.js:57-59 | A render that stops is a run of one render that keeps every record it started with |
| ServerNetwork.Outcome | src/networkLayer/server.js:34-44 | The promise resolves with truthy data exactly when the response has no `errors` key and truthy `data`; otherwise it rejects with "Server Error" |
| ServerNetwork.Delivered | src/networkLayer/server.js:36-41 | The request resolves with `{response: data}` exactly on success; otherwise it rejects with "Server Error" |
| ServerNetwork.Recorded | src/networkLayer/server.js:43 | Recording answers never removes an id, and an id no request asked for keeps its result |
| ServerNetwork.RecordedKeys | src/networkLayer/server.js:43 | An id is recorded exactly when it was already recorded or some request with that id succeeded |
| ServerNetwork.RecordedTruthy | src/networkLayer/server.js:36-43 | Only truthy data is recorded, so every recorded value stays truthy when the earlier ones were |
| ServerNetwork.ServerNetworkLayer.constructor | src/networkLayer/server.js:16-21 | `queryResults` starts empty and nothing has been fetched |
| ServerNetwork.ServerNetworkLayer.SendQuery | src/networkLayer/server.js:29-47 | One call to `fetchQuery` with the query string and variables; on success the data is stored under the request's id, on failure `queryResults` is unchanged |
| ServerNetwork.ServerNetworkLayer.SendQueries | src/networkLayer/server.js:25-27 | Each request is sent exactly once in order, the outcomes line up with the requests, and `queryResults` records every success |
| ClientEnv.RebuiltFields | src/environment/client.js:12-20 | A rebuilt query set has exactly the record's field names in order, each with its field's rebuilt query |
| ClientEnv.PayloadsFields | src/environment/client.js:14-18 | The store gets exactly one payload per field, in field order, with that field's data |
| ClientEnv.Rebuilt | src/environment/client.js:12-20 | A rebuilt query set has no more queries than the record has fields |
| ClientEnv.Payloads | src/environment/client.js:14-18 | One store write per field, the last for the record's last field with its data |
| ClientEnv.AllRebuilt | src/environment/client.js:12-23 | One rebuilt query set per record |
| ClientEnv.AllRebuiltAt | src/environment/client.js:12-23 | The `i`-th rebuilt query set is the `i`-th record's |
| ClientEnv.RegisterAll | src/environment/client.js:12-23 | Registering in turn keeps the key and value lists of equal length |
| ClientEnv.RegisterAllFinds | src/environment/client.js:12-25 | After injection every rebuilt query set finds a record in the map |
| ClientEnv.InjectSnoc | src/environment/client.js:12-23 | One more record adds its store payloads and its rebuilt query set after all earlier ones |
| ClientEnv.RegisterAllSnoc | src/environment/client.js:22 | One more query set is filed after the others, with the next fetch's promise |
| ClientEnv.ClientEnvironment.constructor | src/environment/base.js:18-19 | A client environment starts empty and not isomorphic |
| ClientEnv.ClientEnvironment.InjectRecord | src/environment/client.js:13-20 | The query set built is the record's rebuilt one, and the store gets that record's payloads in field order |
| ClientEnv.ClientEnvironment.InjectAndRun | src/environment/client.js:13-22 | One record is written to the store and its rebuilt query set is fetched and filed after those filed before |
| ClientEnv.ClientEnvironment.IsomorphicInjectServerData | src/environment/client.js:8-26 | The render becomes isomorphic; the store gets every field's data; one fetch per record, in record order, files each rebuilt query set; the promises returned cover every tracked record, earlier ones included |
| Transfer.RebuiltMatches | src/environment/client.js:12-22 | When `equals` holds between a query and its read-back serialised form, a fully answered server query set comes back on the client as a query set that matches it |
| Transfer.PartialRebuiltMismatch | src/environment/server.js:31-36 | A server query set with an unanswered query comes back with fewer names, so it does not match |
| Transfer.ClientFindsServerQuerySet | src/environment/client.js:8-26 | With an equivalence for `equals` that serialising preserves, after injecting what the server sends, every non-empty fully answered tracked server query set finds a record on the client |
| QuerySubscriber.RegisterFiles | src/cache.js:48-49 | A registration files the request under (query name, field name), replacing an earlier one there, and leaves every other slot alone |
| QuerySubscriber.RegisterKeys | src/cache.js:48 | Query names keep the order of their first registration: a new query name adds one group at the end, a known one none |
| QuerySubscriber.Filed | src/cache.js:48-49 | A request is filed under a name and field exactly when that group exists and has that field |
| QuerySubscriber.Register | src/cache.js:48-49 | After registering, the request is filed under its name and field |
| QuerySubscriber.MergeVariables | src/cache.js:27-30 | The last query's variables win in the merged variables |
| QuerySubscriber.MergeVariablesGet | src/cache.js:26-30 | A merged variable has the value from the last query in field order that sets it |
| QuerySubscriber.ServerRecordFields | src/cache.js:20-35 | The combined record has exactly the group's field names, in order, each mapped to its query and response data |
| QuerySubscriber.ServerRecord | src/cache.js:20-35 | The combined record has distinct field names, no more than the group has requests |
| QuerySubscriber.GroupEmission | src/cache.js:17-37 | A group leads to a call exactly when all its requests resolved and none with `null` or `undefined` (on which the destructuring at line 24 throws), under its own name, with a record no larger than the group |
| QuerySubscriber.Emissions | src/cache.js:13-39 | A flush makes at most one call per group |
| QuerySubscriber.EmissionsWith | src/cache.js:13-39 | A flush makes no more calls than there are groups |
| QuerySubscriber.GroupEmissionFacts | src/cache.js:17-37 | A group leads to a call under its own name exactly when all its requests resolved with values that are not `null` or `undefined` |
| QuerySubscriber.EmissionsSnoc | src/cache.js:13-39 | One more group adds its call, if any, after the calls of the earlier groups |
| QuerySubscriber.EmissionsWithFromGroups | src/cache.js:13-39 | Every call of a flush comes from a pending group, under that group's name |
| QuerySubscriber.EmissionsFromGroups | src/cache.js:13-39 | Every `onResponse` call is for a pending query name, with that group's merged variables and combined record |
| QuerySubscriber.EmissionsWithDistinct | src/cache.js:13-39 | The calls of a flush are for distinct names |
| QuerySubscriber.EmissionsDistinct | src/cache.js:13-39 | A flush calls `onResponse` at most once per query name |
| QuerySubscriber.EmitsForAppend | src/cache.js:13-39 | A call for a name in two runs of calls is a call in one of them |
| QuerySubscriber.EmissionsWithFor | src/cache.js:13-39 | A flush calls for a name exactly when that name is pending and its group leads to a call |
| QuerySubscriber.EmissionsFor | src/cache.js:13-39 | `onResponse` is called for a name exactly when it is pending and all its requests resolved, none with `null` or `undefined`; one failed, unsettled or nullish request silences the group, and no pending group means no call |
| QuerySubscriber.Subscriber.constructor | src/cache.js:10 | The subscriber starts with no pending groups, no scheduled tick and no call |
| QuerySubscriber.Subscriber.Subscribe | src/cache.js:43-53 | The request is filed under its name and field, and one tick is scheduled per registration |
| QuerySubscriber.Subscriber.EmitGroup | src/cache.js:17-37 | The call a group makes is its name, its merged variables and its combined record, and only when all its requests resolved; the field loop stops without a call at a `null` or `undefined` result |
| QuerySubscriber.Subscriber.HandlePendingQueries | src/cache.js:12-41 | The calls made are the flush's calls in group order, and the pending groups are cleared |
| SplitQuery.MarkGenerated | src/utils.js:54 | A marked child is an object |
| SplitQuery.MarkGeneratedFields | src/utils.js:54 | A kept child keeps every property but its metadata, and its metadata gains `isGenerated: true` and keeps every other entry |
| SplitQuery.Kept | src/utils.js:51-53 | The kept children are at most as many as the children, and each has generated or requisite metadata |
| SplitQuery.KeptMembers | src/utils.js:51-53 | The filter keeps exactly the children whose metadata says generated or requisite; children without metadata are dropped |
| SplitQuery.Marked | src/utils.js:53-55 | The route query's children are the kept children, in order, each marked as generated |
| SplitQuery.FragmentIdsDistinct | src/utils.js:58 | Different counter values give different fragment ids |
| SplitQuery.SplitAt | src/utils.js:47-69 | The split throws exactly when the children are not an array, a child is nullish, or the query's metadata is nullish, with a TypeError |
| SplitQuery.FragmentReads | src/utils.js:57-64 | Each property of the fragment literal reads back as written |
| SplitQuery.FragmentProps | src/utils.js:57-64 | The fragment has the counter's id, kind `Fragment`, the query's type, the name with `_Fragment` and all of the query's children |
| SplitQuery.FragmentMetadata | src/utils.js:61-67 | The fragment's metadata is `{isAbstract: true}` exactly when the query's metadata has a truthy `isAbstract`, and empty otherwise |
| SplitQuery.RouteQueryFields | src/utils.js:48-56 | The route query copies every property of the query, with `name` replaced by the name given and `children` by the kept children, marked |
| SplitQuery.RouteQuery | src/utils.js:48-56 | The route query is an object named as given, whose children are an array no longer than the query's |
| SplitQuery.Fragment | src/utils.js:57-64 | The fragment literal has six properties, with the counter's id and kind `Fragment` |
| SplitQuery.QuerySplitter.constructor | src/utils.js:18 | The fragment counter starts at 1 |
| SplitQuery.QuerySplitter.SplitQuery | src/utils.js:47-69 | The result is the split at the current counter; the counter advances by one whenever the route query was built, even when the fragment then throws |
| RelayQuery.Sanitize | src/components/decorators/withRelayQuery.js:42 | The result is no longer than the input and holds only word characters |
| RelayQuery.SanitizeKeeps | src/components/decorators/withRelayQuery.js:42 | Sanitising keeps exactly the word characters, and leaves a clean name unchanged |
| RelayQuery.SanitizeIdempotent | src/components/decorators/withRelayQuery.js:42 | Sanitising twice is sanitising once |
| RelayQuery.DecoratedName | src/components/decorators/withRelayQuery.js:38-42 | The name is the `name` option, else `displayName`, else the function name, else the constructor's name, with non-word characters removed |
| RelayQuery.NameHasNoBar | src/components/decorators/withRelayQuery.js:42 | A decorated name holds no bar, so its fetch-cache keys cannot collide with another name's |
| RelayQuery.QueryList | src/components/decorators/withRelayQuery.js:47 | A single query is treated as a one-element list |
| RelayQuery.PropertyKey | src/components/decorators/withRelayQuery.js:49-50 | A property name is empty only for the empty string |
| RelayQuery.SplitAllWith | src/components/decorators/withRelayQuery.js:47-51 | The counter advances by at most one per query, and a loop that succeeds has one split per query |
| RelayQuery.SplitAll | src/components/decorators/withRelayQuery.js:47-51 | The counter advances by at most one per query, and a loop that succeeds has one split per query |
| RelayQuery.Filed | src/components/decorators/withRelayQuery.js:49-50 | The queries and fragments maps are objects with distinct names |
| RelayQuery.SplitMaps | src/components/decorators/withRelayQuery.js:45-51 | On success the queries and fragments maps are objects with distinct names |
| RelayQuery.RouteFieldName | src/utils.js:48-50 | The route query keeps the query's root field name, under which it is filed |
| RelayQuery.SplitAllWithSucceeds | src/components/decorators/withRelayQuery.js:47-51 | The loop succeeds exactly when every query splits with the id it draws, `first + i`, and then holds those splits in order |
| RelayQuery.SplitAllWithStops | src/components/decorators/withRelayQuery.js:47-51 | Once a split has thrown, the later queries are not split |
| RelayQuery.HasKeys | src/components/decorators/withRelayQuery.js:49-50 | A name is a property exactly when it is among the object's keys |
| RelayQuery.FiledKeys | src/components/decorators/withRelayQuery.js:49-50 | The queries and fragments maps have the same names, no more than there are splits |
| RelayQuery.FiledGet | src/components/decorators/withRelayQuery.js:49-50 | Filing one split sets its name in both maps and leaves the other names alone |
| RelayQuery.FiledLastWins | src/components/decorators/withRelayQuery.js:49-50 | A name maps to the route query and fragment of the last split filed under it |
| RelayQuery.SplitAllWithLastWins | src/components/decorators/withRelayQuery.js:47-51 | In the loop, a root field name maps to the split of the last query with that field name |
| RelayQuery.SplitsFacts | src/utils.js:47-69 | `splitQuery` draws an id whenever it succeeds, keeps the root field name and succeeds exactly on splittable queries |
| RelayQuery.SplitAllSucceeds | src/components/decorators/withRelayQuery.js:47-51 | Decoration succeeds exactly when every query is splittable, and query `i` then has fragment id `first + i` |
| RelayQuery.SplitAllKeys | src/components/decorators/withRelayQuery.js:45-51 | The queries and fragments maps have the same root field names, no more than there are queries |
| RelayQuery.LastQueryWins | src/components/decorators/withRelayQuery.js:47-51 | Each root field name maps to the route query and fragment of the last query with that field |
| RelayQuery.EveryFieldFiled | src/components/decorators/withRelayQuery.js:47-51 | Every query's root field name is in both maps |
| RelayQuery.MakeConfig | src/components/decorators/withRelayQuery.js:61-76 | A params function gives a config function; otherwise a static config with the decorated name, the queries and `params` or else `{}` |
| RelayQuery.CallbackConfig | src/components/decorators/withRelayQuery.js:62-69 | Through the renderer, a params function is called with the props minus `forceFetch`, while name and queries stay fixed |
| RelayQuery.NoParamsConfig | src/components/decorators/withRelayQuery.js:71-75 | Without params the config has no params, whatever the props |
| RelayQuery.MaybeHelpers | src/components/decorators/withRelayQuery.js:34-57 | The helpers are stacked only when `withHelpers` is true, which defaults to false |
| RelayQuery.SplitQueries | src/components/decorators/withRelayQuery.js:45-51 | The maps are those of the loop, or its error, and the counter advances by the ids drawn |
| RelayQuery.WithRelayQuery | src/components/decorators/withRelayQuery.js:25-84 | The decorated component is the renderer with the query config over the Relay container with the fragments over the optional helpers; a split that throws stops the decoration |
| RelayRenderer.WithDefaults | src/components/decorators/withRelayRenderer.js:32-37 | `forceFetch` defaults to false and `isomorphic` to true |
| RelayRenderer.OwnProps | src/components/decorators/withRelayRenderer.js:94 | The props without `forceFetch`, every other prop unchanged |
| RelayRenderer.PickParamsGet | src/components/decorators/withRelayRenderer.js:74-79 | The params hold exactly the declared names that the props have, with the props' values |
| RelayRenderer.PickParams | src/components/decorators/withRelayRenderer.js:74-79 | At most one param per declared name, and every param is a declared name that the props have |
| RelayRenderer.GetQueryConfig | src/components/decorators/withRelayRenderer.js:63-82 | A function config is called with the props minus `forceFetch`; a static config keeps its name and queries and takes as params every declared name the props have |
| RelayRenderer.BasePropsGet | src/components/decorators/withRelayRenderer.js:94-102 | The base props are the own props with error (new, else remembered), retry, `loading: false` and the remembered offline flag |
| RelayRenderer.BaseProps | src/components/decorators/withRelayRenderer.js:96-102 | `loading` is false, `offline` is the remembered flag, `error` is the new error or else the remembered one, and `retry` is the callback |
| RelayRenderer.PropsWithData | src/components/decorators/withRelayRenderer.js:106-111 | Unless the data sets them, `error` is null and `offline` is false |
| RelayRenderer.PropsWithoutData | src/components/decorators/withRelayRenderer.js:117-130 | Without an error `loading` is true; with a network failure `offline` is true; any other error leaves `offline` as it was |
| RelayRenderer.NullFragmentsGet | src/components/decorators/withRelayRenderer.js:118-120 | Every fragment-name prop is set to null and the others are left alone |
| RelayRenderer.WithDataGet | src/components/decorators/withRelayRenderer.js:104-114 | With data, the data's props win; otherwise error is null, offline and loading are false |
| RelayRenderer.WithoutDataGet | src/components/decorators/withRelayRenderer.js:96-131 | Without data, loading is true exactly when there is no error; a network failure sets offline; fragment props are null; the error is the new or the remembered one |
| RelayRenderer.ForceFetchFor | src/components/decorators/withRelayRenderer.js:159-165 | False on the server; on the client true when the option or the prop is; otherwise the cache's verdict when a ttl is set, else false |
| RelayRenderer.CacheConsultedLast | src/components/decorators/withRelayRenderer.js:159-165 | The cache makes no difference on the server, when the option or prop forces, or without a ttl |
| RelayRenderer.Choice | src/components/decorators/withRelayRenderer.js:137-176 | On the isomorphic path a known ready state gives a ReadyStateRenderer and its absence on the server gives nothing; every other case is a normal render with the force-fetch decision |
| RelayRenderer.RelayRendererWrapper.constructor | src/components/decorators/withRelayRenderer.js:61-90 | The query config is worked out from the props; no error is remembered and the wrapper is not offline |
| RelayRenderer.RelayRendererWrapper.ComponentDidMount | src/components/decorators/withRelayRenderer.js:49-51 | The wrapper's listener is appended to the provider's reset listeners |
| RelayRenderer.RelayRendererWrapper.ComponentWillUnmount | src/components/decorators/withRelayRenderer.js:53-55 | Every registration of the wrapper's listener is removed |
| RelayRenderer.RelayRendererWrapper.ComponentWillUpdate | src/components/decorators/withRelayRenderer.js:57-59 | The query config is worked out again from the new props |
| RelayRenderer.RelayRendererWrapper.RenderContainer | src/components/decorators/withRelayRenderer.js:92-132 | With data the query is recorded as a success at `now` and the remembered error and offline flag are cleared; without data an error is remembered, a network failure marks the wrapper offline, and the cache is untouched |
| RelayRenderer.RelayRendererWrapper.ForceFetchDecision | src/components/decorators/withRelayRenderer.js:159-165 | A normal render force-fetches never on the server; on the client when the option or the prop asks, and otherwise by the ttl cache's verdict when a ttl is set (a ttl-cache error propagates) |
| RelayRenderer.RelayRendererWrapper.Render | src/components/decorators/withRelayRenderer.js:134-177 | The element is the choice for the isomorphic path and the ready state found; on the isomorphic path on the server an unseen query set is fetched and filed; otherwise the coordinator is unchanged |
| EnvProvider.Removed | src/components/RelayEnvProvider/index.js:78-80 | Removal drops every registration of the callback and keeps all others |
| EnvProvider.RemovedAppend | src/components/RelayEnvProvider/index.js:78-80 | Removal works piece by piece, so the others keep their order |
| EnvProvider.AddThenRemove | src/components/RelayEnvProvider/index.js:75-80 | Adding a listener and removing it leaves the others as they were |
| EnvProvider.RelayEnvProvider.constructor | src/components/RelayEnvProvider/index.js:51-72 | The env is `initialEnv`, else a new one from `createEnv`; the initial render flag is set; no listeners; one empty fetch cache |
| EnvProvider.RelayEnvProvider.ComponentDidMount | src/components/RelayEnvProvider/index.js:90-92 | The initial render is over, and nothing else changes |
| EnvProvider.RelayEnvProvider.AddResetListener | src/components/RelayEnvProvider/index.js:75-77 | The callback is appended to the listeners |
| EnvProvider.RelayEnvProvider.RemoveResetListener | src/components/RelayEnvProvider/index.js:78-80 | Every registration of the callback goes and the others stay in order |
| EnvProvider.RelayEnvProvider.Reset | src/components/RelayEnvProvider/index.js:59-69 | With `createEnv` a new env replaces the old one, then every listener is called in registration order; without it, it throws outside production and nothing changes |
| RelayHelpers.Callback | src/components/decorators/withRelayHelpers.js:27-33 | A ready report resolves whatever else it says; otherwise error or abort rejects; otherwise the promise stays pending |
| RelayHelpers.FirstSettlingReportDecides | src/components/decorators/withRelayHelpers.js:9-33 | The first report that resolves or rejects decides the promise |
| RelayHelpers.PendingIffNoSettlingReport | src/components/decorators/withRelayHelpers.js:27-33 | The promise stays pending exactly when no report is ready, failed or aborted |
| RelayHelpers.SettledStaysSettled | src/components/decorators/withRelayHelpers.js:27-33 | Once settled, later reports change nothing |
| RelayHelpers.PromiseOutcome | src/components/decorators/withRelayHelpers.js:27-33 | A settled promise took its outcome from one of the reports |
| RelayHelpers.Forward | src/components/decorators/withRelayHelpers.js:9-15 | A helper makes exactly one call to the relay method of the same name with the variables given, and resolves exactly when a ready report comes before any failing one |
| RelayHelpers.OutcomeResolvedIff | src/components/decorators/withRelayHelpers.js:27-33 | The promise resolves exactly when some ready report comes before every failing one |
| RelayHelpers.HelperPropsGet | src/components/decorators/withRelayHelpers.js:17-23 | The wrapped component gets every prop, with `setVariables` and `forceFetch` replaced by the helpers |
| RelayHelpers.HelperProps | src/components/decorators/withRelayHelpers.js:17-23 | The wrapped component's `setVariables` and `forceFetch` props are the helpers |

## Left out

- The Relay engine is not modelled. `primeCache` is a logged call; its ready-state reports are explicit calls. `Relay.getQueries`, `toGraphQL`, `fromGraphQL`, `getID`, `equals` and `JSON.stringify` are function parameters.
- The store's `handleQueryPayload` is logged, not modelled.
- React is not modelled: rendering, JSX elements, PropTypes, `forceUpdate`. A render pass is a function parameter, and the element `render` returns is the `Element` datatype.
- React's `defaultProps` (`forceFetch: false`) is assumed applied. The prop is read through `Truthy`.
- The clock, `setImmediate` and promise timing are not modelled. `now` is a parameter; the tick and each settlement are explicit calls.
- The order of `onResponse` calls is taken to be group order. In the source it depends on when each group's `Promise.all` settles.
- A rejected promise is not followed further than "no call" and "no record". The unhandled rejection in `_sendQuery` and in `Promise.all` is left out.
- `isomorphicFetchQuerySet` (src/environment/server.js:42-47) is left out: nothing in the core calls it.
- `supports()` (src/networkLayer/server.js:23) is left out: it does nothing.
- The XHR network layers, the request object, mutations (`mutate.js`, `withRelayMutations`), `createRelayContainer` and `wraps` are left out. They are transport or thin wrappers around Relay and hoist-non-react-statics.
- RelayQuery.PropertyKey: turning a value into a property name is exact for strings, numbers, booleans, null and undefined. Objects, arrays, functions and errors all become `[object Object]`, which is wrong for arrays, functions and errors.
- RelayQuery.DecoratedName: a missing `displayName`, function name or constructor name is modelled as the empty string. Both are falsy, so the choice is the same.
- RelayQuery.WithRelayQuery: the queries and fragments maps hold the route queries and fragments themselves, not the thunks `() => routeQuery` that the source stores.
- RelayQuery.WithRelayQuery: `withRelayHelpers` and `createRelayContainer` are recorded as layers of the `Component` value. Their React behaviour is not modelled.
- RelayRenderer.GetQueryConfig: a query-config function also receives the container as its second argument; the model drops it.
- SplitQuery.SplitAt: the TypeError's message text is engine-specific and is left empty.
- BaseEnv.BaseEnvironment.AwaitQueries: the engine's reports are taken in the order the fetches were made, and each report depends only on the fetch's query set. On the server each record is found by one fetch only, so the order does not change the result. On the client two fetches can find the same record, and there the last report in fetch order wins; other arrival orders are not modelled.
- ServerEnv.ServerEnvironment.IsomorphicGetData: the engine is assumed to settle every fetch. A fetch that never settles would leave the promise hanging, and that is not modelled.
- ServerEnv.ServerEnvironment.IsomorphicGetData: `maxRecursions` is a natural number. The source accepts any number; a negative or fractional budget never reaches 0, so it re-renders until a render leaves the size unchanged, which may never happen. That unbounded case is not modelled.
- ServerEnv.ServerEnvironment.GetDataFrom: the same restriction to a natural-number budget, which is what lets the recursion terminate.
- ServerEnv.ServerEnvironment.IsomorphicGetData: the fetches a server render starts are settled by the engine parameter, not sent through the environment's network layer, so their writes to `queryResults` (networkLayer/server.js:43) are not modelled and a server render leaves `network.queryResults` as it was. `IsomorphicClientData`, `ClientData` and the `Transfer` lemmas take the results as an independent input; the network layer's own recording is modelled by `ServerNetwork.ServerNetworkLayer.SendQueries`.
- RelayRenderer.PickParams: JavaScript objects are modelled without a prototype, so names inherited from `Object.prototype` (such as `toString` or `constructor`) count as absent. In the source, `paramName in props` (withRelayRenderer.js:75) is true for them and copies the inherited value into the params; the model copies only own names.
- QuerySubscriber.Register: for the same reason, `pendingQueries[name] || {}` (cache.js:48) finds the inherited global `Object` for a query named `constructor` and files the request on that shared function; the model starts an empty group.
- ServerNetwork.Recorded: answers are recorded in request order. In the source each success is written when its fetch settles, so when two requests with one id both succeed, the one that arrives last wins; the model takes the later request.
- JsValues.Put: properties keep insertion order. JavaScript lists integer-like names (such as "0" or "12") first, in ascending order, so for such names `Object.keys`, the fields of records and the order of groups can differ from the model.
- Promises are numbers (the index of the fetch that made them), not values.
- JavaScript numbers are modelled as integers: no fractions, NaN or infinities.
