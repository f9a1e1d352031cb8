# Cache-aside JSON-RPC provider, modelled in Dafny

This project models the request path of the blockchain RPC provider library:
the abstract provider base (`ProviderBase`, src/provider/provider.ts) and the
cache manager it uses (`CacheManager`, src/cache/cache.ts).

- A provider stamps every request with the next id of a counter that starts
  at 1 and with `jsonrpc = "2.0"`.
- It then runs the request through a middleware pipeline built in its
  constructor: the cache stage, only when caching is enabled, and the network
  stage, always last.
- The cache stage implements cache-aside over a key/value store (Redis in
  the original). Freshness is tracked by a separate marker key
  `TTL:<key>`, written with an optional expiry.
  - A fresh, truthy cached value is a hit and the network is not called.
  - A miss answered with a truthy result is written through.
  - A miss answered with a falsy result may be answered with the stale value
    when `allowStaleOnFailure` is set.
- Every caught error goes to a static, never-throwing reporter hook.

Layout, one module per file:

- `json.dfy`: `Wrappers.Option`, and `Json.Value` (JSON-serialisable JavaScript values) with
  JavaScript truthiness and `JSON.stringify`.
- `store.dfy`: `Store`, the store's key space (`map<string, Entry>`) and its
  expiry of one key.
- `reporting.dfy`: `Reporting`, the reporter slot and `Sentry`, with a ghost
  log of `(message, tags, level)` reports.
- `keys.dfy`: `Keys`, the marker key, the key helpers and the request key.
- `cache.dfy`: `Cache`, the cache manager. Each operation's effect is a
  function of the store it starts from, and the class `CacheManager`
  performs it on a store object.
- `middleware.dfy`: `Middleware`, one request through the pipeline as a
  function (`Run`, `Pipeline`) and the properties of the four paths.
- `provider.dfy`: `Provider`, the provider class. Requests and responses are
  objects updated in place, and every method is proved to agree with
  `Middleware.Run`.

Environment and oracles:

- Store availability at each call is a parameter (`Store.Access`): served,
  no client, or failed with a message.
- The network reply is a parameter (`Middleware.FetchOutcome`): a body or a
  thrown error.
- The clock is the explicit expiry step `RedisStore.Expire`.

Behaviour of the code worth knowing:

- `cacheAbleMethods` is matched with `Array.includes`, so an entry `"*"`
  matches only a method named `*`.
- The ttl of a marker is the table entry for the method, or `undefined`
  when there is none (or it is 0). With `undefined` the marker is written
  without expiry and never goes stale.
- When no stale data is found, the composed error is only reported. `res`
  keeps what the network stage left in it.
- `JSON.stringify` writes an object's members in JavaScript's enumeration
  order: array-index names first in ascending order, then the other names
  in insertion order. The same object built in two insertion orders gets
  two cache keys (`Keys.MemberOrderChangesKey`).
- `fetch` is one POST to `url`. There is no retry and no choice among
  endpoints.
- The network stage never sets `res.error`. A thrown fetch leaves
  `res.result` undefined and only reports it.

## Model

| member | source | states |
|---|---|---|
| `Keys.TtlKey` | src/cache/cache.ts:73 | the marker of a key is never the key itself |
| `Keys.TtlKeyInjective` | src/cache/cache.ts:73 | distinct keys have distinct markers |
| `Keys.GenerateCacheKey` | src/cache/cache.ts:36-39 | the key starts with `prefix:` followed by the JSON text of the arguments |
| `Keys.GenerateTTLKey` | src/cache/cache.ts:31-34 | the key starts with `prefix:TTL:` followed by the JSON text of the arguments |
| `Keys.GeneratedKeysDiffer` | src/cache/cache.ts:31-39 | for the same prefix and arguments, the two generated keys always differ |
| `Keys.GeneratedTtlKeyIsNotTheMarker` | src/cache/cache.ts:31-34 | for every prefix whose text before its first colon is not `TTL`, `generateTTLKey` does not give the marker that `getCachedDataIfExist` checks for the matching cache key |
| `Keys.TtlPrefixKeyIsTheMarker` | src/cache/cache.ts:31-34 | for the prefix `TTL` the two do coincide, so the condition above cannot be dropped |
| `Keys.RequestPrefixQualifies` | src/provider/provider.ts:49 | a request prefix `source:method` with a colon-free source other than `TTL` meets that condition, whatever the method |
| `Keys.RequestKey` | src/provider/provider.ts:49 | the request key is `generateCacheKey(source:method, params)` |
| `Keys.MarkerIsNeverARequestKey` | src/cache/cache.ts:83-85 | for a colon-free source other than `TTL`, no marker write overwrites any cached value of that provider |
| `Keys.RequestKeySeparatesMethods` | src/provider/provider.ts:49 | two requests with colon-free method names share a key only when the method and the parameter text are equal |
| `Keys.MemberOrderChangesKey` | src/provider/provider.ts:49 | `{a,b}` and `{b,a}` get different keys: serialisation is not canonical |
| `Keys.UndefinedMemberSharesKey` | src/provider/provider.ts:49 | a member whose value is undefined is dropped from the key |
| `Keys.MissingParamsKey` | src/provider/provider.ts:49 | a request without params has a key ending in the text `undefined` |
| `Json.Text` | src/cache/cache.ts:32 | JSON text is never empty; its first character tells strings, numbers, arrays and objects apart |
| `Json.IndexNamesComeFirst` | src/cache/cache.ts:32 | `{b, "1"}` is not a member list any JavaScript object has; `{"1", b}` is |
| `Json.Stringify` | src/cache/cache.ts:43 | `JSON.stringify` gives no text exactly for undefined; any text it gives is non-empty |
| `Cache.AccessReports` | src/cache/cache.ts:24-27 | a served call reports nothing; a missing client or a failed call gives one error-level report tagged `CacheManager` |
| `Cache.GetKeyResult` | src/cache/cache.ts:58-70 | `getKey` is null when the client is missing, the call fails, or the key is absent or empty; otherwise it is the stored value |
| `Cache.ExpiryOf` | src/cache/cache.ts:48-52 | an expiry is attached iff both `mode` and `duration` are truthy |
| `Cache.SetKeyResult` | src/cache/cache.ts:41-56 | a served write that the store takes stores the value with that expiry under the key; a failed or refused one (non-positive expiry) changes nothing; no other key changes |
| `Cache.TtlAcceptedIffNotNegative` | src/cache/cache.ts:84 | the store takes the marker's `EX ttl` option exactly when the ttl is undefined or not negative |
| `Cache.FreshData` | src/cache/cache.ts:72-80 | the value is returned only while its marker exists; otherwise null, and the value is not read |
| `Cache.FreshDataReports` | src/cache/cache.ts:72-80 | the reports are those of the marker check, then those of the value read only if it happened |
| `Cache.SetCacheDataResult` | src/cache/cache.ts:82-86 | the marker `true` gets expiry `EX ttl` when the store takes it, and the value is stored without expiry; every other key is untouched |
| `Cache.WriteThenReadFresh` | src/cache/cache.ts:82-86 | round trip: `setCacheData` then `getCachedDataIfExist` on a working store returns the value, with no reports, for every ttl the store takes |
| `Cache.RefusedTtlLeavesNoMarker` | src/cache/cache.ts:84-85 | with a negative ttl the marker is refused but the value is written: the fresh read misses while the stale read finds it |
| `Cache.ExpiredMarkerLeavesStaleValue` | src/cache/cache.ts:82-86 | once a timed marker expires, the fresh read misses but the stale read still finds the value, which never expires |
| `Cache.UntimedMarkerNeverExpires` | src/cache/cache.ts:84 | with ttl undefined or 0 the marker has no expiry and the store cannot expire it |
| `Cache.CacheManager.constructor` | src/cache/cache.ts:10-14 | the manager is bound to its store and to the shared reporter |
| `Cache.CacheManager.KeyExists` | src/cache/cache.ts:16-29 | true iff the client is available and the store holds the key; otherwise false, with one error-level report |
| `Cache.CacheManager.SetKey` | src/cache/cache.ts:41-56 | the store becomes `SetKeyResult`; a missing client or a failure is reported and swallowed; a refused expiry goes unreported |
| `Store.ExpireKey` | src/cache/cache.ts:49 | expiry removes the key only when it was written with an expiry option; every other entry is kept as it was |
| `Store.RedisStore.Expire` | src/cache/cache.ts:49 | the store's entries become `ExpireKey` of the old ones |
| `Cache.CacheManager.GetKey` | src/cache/cache.ts:58-70 | returns `GetKeyResult`; a failure is reported and read as null |
| `Cache.CacheManager.GetCachedDataIfExist` | src/cache/cache.ts:72-80 | returns `FreshData` and logs `FreshDataReports` |
| `Cache.CacheManager.SetCacheData` | src/cache/cache.ts:82-86 | the store becomes `SetCacheDataResult`: the marker is written first, then the value |
| `Reporting.Reporter.Install` | src/provider/provider.ts:29 | a constructor overwrites the shared static reporter slot |
| `Reporting.Reporter.Sentry` | src/provider/provider.ts:101-109 | the report reaches the log iff a hook is installed; nothing else changes and nothing propagates |
| `Middleware.Stages` | src/provider/provider.ts:30-35 | the network stage is always last; the cache stage is present iff caching is enabled |
| `Middleware.TtlFor` | src/provider/provider.ts:68 | the ttl is the table entry when present and non-zero, otherwise undefined; it is then positive, so the store takes it |
| `Middleware.NetworkRun` | src/provider/provider.ts:76-86 | a body becomes `res.result`; a thrown error makes it undefined and gives one error-level report; the store and `res.error` are untouched |
| `Middleware.HitServesMarkedValue` | src/provider/provider.ts:50-52 | on a hit both the marker and the value are in the store, both reads were served, and the result is the stored value; nothing is fetched, written or reported |
| `Middleware.NetworkStageEndsThePipeline` | src/provider/provider.ts:76-86 | the network stage never calls `next`, so stages after it never run |
| `Middleware.RequestTouchesOnlyItsKey` | src/provider/provider.ts:44-73 | whatever the stages, a request changes the store only under its own key and that key's marker |
| `Middleware.AfterNextAnswers` | src/provider/provider.ts:55-70 | after `next` on a miss: the answer is truthy iff the network's was or a stale value was served; the error is cleared iff a stale value was served; a failure never writes; a success passes unchanged |
| `Middleware.Pipeline` | src/provider/provider.ts:41 | the network is skipped only for a cacheable method on a caching provider; any other request is fetched and leaves the store unchanged |
| `Middleware.StaleMissingMessageNamesErrorAndKey` | src/provider/provider.ts:63 | the message starts with the original error's message (or `undefined`) and ends with the key |
| `Middleware.CacheDisabledAlwaysFetches` | src/provider/provider.ts:31-35 | without caching, a request is exactly the network stage |
| `Middleware.UncacheableMethodPassesThrough` | src/provider/provider.ts:46-47 | a method outside `cacheAbleMethods` behaves as with caching disabled: no store reads, writes or reports |
| `Middleware.FetchedIffNotHit` | src/provider/provider.ts:49-54 | the network is called iff the request is not a hit; a hit answers with the cached data and leaves the store unchanged |
| `Middleware.MissWritesThrough` | src/provider/provider.ts:67-69 | on a miss with a truthy result, the data is written with `setCacheData(key, result, ttl)` |
| `Middleware.StaleFallbackServesStaleValue` | src/provider/provider.ts:55-61 | on a failed miss with fallback on and a stale value, the error is removed, the stale value is the result, and one warning is reported |
| `Middleware.StaleFallbackMisses` | src/provider/provider.ts:62-66 | on a failed miss with fallback on and no stale value, one error is reported and the response is left unchanged |
| `Middleware.FailedMissWithoutFallback` | src/provider/provider.ts:55-70 | on a failed miss with fallback off, nothing is written and the cache stage reports nothing |
| `Middleware.SecondRequestIsAHit` | src/provider/provider.ts:49-69 | after a write-through, the same method and params are answered from the cache, and the network is not called |
| `Middleware.StaleDataSurvivesOutage` | src/provider/provider.ts:55-61 | write, marker expiry, then a network failure: the caller still receives the written data with no error |
| `Provider.CountedIdsNeverRepeat` | src/provider/provider.ts:39 | ids counted from one are strictly increasing and never repeated |
| `Provider.Engine.Push` | src/provider/provider.ts:32-35 | `engine.push` appends one stage |
| `Provider.ProviderBase.constructor` | src/provider/provider.ts:20-36 | the stages are `[cache, network]` when caching is enabled, else `[network]`; the counter starts at 1; the reporter slot is installed |
| `Provider.ProviderBase.SendAsync` | src/provider/provider.ts:38-42 | the request gets the counter's value as id (post-increment) and `"2.0"`; the response, store and reports are those of `Pipeline`; the ids issued stay 1, 2, 3, … |
| `Provider.ProviderBase.Handle` | src/provider/provider.ts:41 | a fresh response runs through the stages from the first |
| `Provider.ProviderBase.RunStage` | src/provider/provider.ts:30-35 | stage `i` runs with the stage after it as `next` |
| `Provider.ProviderBase.RequestMiddleware` | src/provider/provider.ts:76-86 | updates `res` in place as `NetworkRun` says and records the posted request |
| `Provider.ProviderBase.CacheMiddleware` | src/provider/provider.ts:44-48 | a method that is not cacheable goes straight to `next` |
| `Provider.ProviderBase.Cached` | src/provider/provider.ts:49-54 | a hit sets `res.result` in place; a miss runs `next` and then the post-processing |
| `Provider.ProviderBase.Miss` | src/provider/provider.ts:54-70 | `await next()`, then the stale fallback or the write-through |
| `Provider.ProviderBase.FinishMiss` | src/provider/provider.ts:55-70 | `delete res.error` and `res.result = staleData` in place, or `setCacheData`, as `AfterNext` says |
| `Provider.RepeatedRequest` | src/provider/provider.ts:38-69 | a concrete run: ids 1 and 2, and the second call is answered from the cache although the network would fail |
| `Provider.ExpireUnder` | src/cache/cache.ts:84 | the store expires a key under a provider; the provider stays valid |
| `Provider.OutageAfterExpiry` | src/provider/provider.ts:55-61 | a concrete run: after the marker expires and the network fails, the stale value is served with no error |

## Left out

- HTTP transport (`fetch`, src/provider/provider.ts:88-99, an `axios.post` to
  `url`): modelled only as the oracle `FetchOutcome`, a body or a thrown
  error. HTTP status codes and headers are not modelled.
- The Redis client: its construction and `getClient()` are replaced by the
  in-memory `RedisStore` and a per-call availability parameter.
- Asynchrony: every `await` and every call that is not awaited is one
  atomic step in program order. These calls are not awaited in the code:
  - `setCacheData` at provider.ts:69;
  - `client.set` at cache.ts:49 and cache.ts:51;
  - `next()` at provider.ts:47.

  Interleavings of concurrent requests on one key are not modelled.
- Cache.CacheManager.SetKey: a failure of the un-awaited `client.set`
  rejects outside the `try`, so the code would not catch or report it. The
  model reports every failed write (`Access.Failed`) at error level, as it
  does for a missing client. Only the store's refusal of a non-positive
  expiry is modelled as unreported.
- The `json-rpc-engine` library (`createAsyncMiddleware`, `engine.handle`):
  the pipeline is the explicit stage list and `RunStage`. The engine's own
  handling of a response with neither result nor error is not modelled.
- Real expiry timing: replaced by the explicit `RedisStore.Expire` step.
- The exact output of `JSON.parse`: parsing the stored text is the
  identity on the stored value. Numbers are integers; floating point is not
  modelled.
- The per-method ttl table `ANKR_API_UPDATE_INTERVAL` (src/ankr/cacheConfig.ts):
  this file is not part of this model. The table is a parameter
  `map<string, nat>` of update intervals; a negative entry, which Redis
  would refuse as a marker expiry, is not representable in the pipeline.
  `Cache.RefusedTtlLeavesNoMarker` shows what such an entry would do.
- Provider.ProviderBase.SendAsync: ids are unique and increasing only below
  2^53. The counter is a JavaScript number; from 2^53 on, `++` no longer
  changes it and ids repeat. The model's counter is an unbounded integer.
- Json.Value: an object's `members` are read as its properties in
  enumeration order. The type allows repeated names and out-of-order
  index names; `Json.WellFormed` says which member lists a JavaScript
  object can have. The key lemmas hold for every member list.
- Json.Value: only JSON-serialisable values are representable: numbers are
  integers and strings are sequences of Unicode scalar values. BigInt,
  cyclic objects, functions, symbols and strings holding lone UTF-16
  surrogates have no `Value`. `JSON.stringify` throws a TypeError on a
  BigInt or a cycle, so at src/provider/provider.ts:49 such `params` make
  the cache stage throw and the request end with an `error` response
  before the network stage runs; that error path is not modelled.
- Per-chain subclasses (src/base, src/ankr, src/ethereum, src/bsc): they
  only set `source` or `url` (configuration).
- Barrel and type files (index.ts files, types.ts, the interface files):
  declarations only.
- Console output of `Sentry` when the hook throws: only the ghost log of
  reports is kept. An exception from the hook is never seen by the caller.
- Reporting.Reporter.Sentry: a hook that throws after receiving a report
  is counted as having received it. Error stacks (`err.stack`) are not
  modelled; a report is its message, tags and level.
