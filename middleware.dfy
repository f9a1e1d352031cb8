/**
 * What one request does on its way through a provider's pipeline, as a
 * function of the stages, the configuration, the store it meets, the network
 * reply and the store's availability at each call. `Provider.ProviderBase`
 * runs the same pipeline on objects and is proved to agree with `Run`.
 */
module Middleware {
  import opened Wrappers
  import opened Json
  import opened Keys
  import opened Reporting
  import opened Store
  import opened Cache

  /** A JSON-RPC request as the stages see it. */
  datatype Rpc = Rpc(id: int, jsonrpc: string, rpcMethod: string, params: Value)

  datatype RpcError = RpcError(code: int, message: string)

  /** The response accumulator `res`; `result` is Undefined while unset. */
  datatype Resp = Resp(result: Value, error: Option<RpcError>)

  /** One pipeline stage: the cache middleware or the network middleware. */
  datatype Stage = CacheStage | NetworkStage

  /** The reply of `fetch(url, req)`: the response body, or an error thrown with this message. */
  datatype FetchOutcome = Body(body: Value) | Thrown(message: string)

  /** The store's availability at each call the cache stage may make, in program order. */
  datatype StoreCalls = StoreCalls(marker: Access, value: Access, stale: Access, writeMarker: Access, writeValue: Access)

  /**
   * The fields of a provider the stages read. `ttlTable` is the per-method
   * ttl table, update intervals in seconds (never negative).
   */
  datatype Config = Config(source: string, cacheAbleMethods: seq<string>, allowStaleOnFailure: bool,
                           ttlTable: map<string, nat>)

  /** The response, the store, the reports raised and whether the network was called. */
  datatype Outcome = Outcome(resp: Resp, entries: map<string, Entry>, reports: seq<Report>, fetched: bool)

  /** `next` of the last stage: the engine ends without a stage touching anything. */
  function EndOfPipeline(entries: map<string, Entry>, res: Resp): Outcome {
    Outcome(res, entries, [], false)
  }

  /** The stage list the constructor pushes: the cache stage only if enabled, the network stage last. */
  function Stages(isCacheEnabled: bool): (s: seq<Stage>)
    ensures |s| >= 1 && s[|s| - 1] == NetworkStage
    ensures CacheStage in s <==> isCacheEnabled
  {
    (if isCacheEnabled then [CacheStage] else []) + [NetworkStage]
  }

  /** `ANKR_API_UPDATE_INTERVAL[method] || undefined`. */
  function TtlFor(table: map<string, nat>, rpcMethod: string): (t: Option<int>)
    ensures t.Some? <==> rpcMethod in table && table[rpcMethod] != 0
    ensures t.Some? ==> t.value == table[rpcMethod] && t.value > 0
    ensures TtlAccepted(t)
  {
    if rpcMethod in table && table[rpcMethod] != 0 then Some(table[rpcMethod]) else None
  }

  function StaleMessage(key: string): string {
    "Send Stale Data for key: " + key
  }

  /** `${res.error?.message} | and Stale Data not found for key: ${key}`. */
  function StaleMissingMessage(error: Option<RpcError>, key: string): string {
    (if error.None? then "undefined" else error.value.message) + " | and Stale Data not found for key: " + key
  }

  /**
   * The composed report carries the original error's message (the text
   * `undefined` when there is none) and names the key it missed.
   */
  lemma StaleMissingMessageNamesErrorAndKey(error: Option<RpcError>, key: string)
    ensures var r := StaleMissingMessage(error, key);
            && (error.Some? ==> error.value.message <= r)
            && (error.None? ==> "undefined" <= r)
            && |key| <= |r| && r[|r| - |key|..] == key
  {
  }

  /** The network middleware: the body becomes the result; a thrown error clears it and is reported. */
  function NetworkRun(cfg: Config, entries: map<string, Entry>, res: Resp, net: FetchOutcome): (o: Outcome)
    ensures o.fetched && o.entries == entries && o.resp.error == res.error
    ensures net.Body? ==> o.resp.result == net.body && o.reports == []
    ensures net.Thrown? ==>
              o.resp.result == Undefined && o.reports == [Report(net.message, Tags(cfg.source), Error)]
  {
    match net
    case Body(b) => Outcome(res.(result := b), entries, [], true)
    case Thrown(message) => Outcome(res.(result := Undefined), entries, [Report(message, Tags(cfg.source), Error)], true)
  }

  /** What a stage does to the response and the store, and what it reports. */
  datatype Effect = Effect(resp: Resp, entries: map<string, Entry>, reports: seq<Report>)

  /**
   * The cache middleware after `await next()` on a miss, given the response
   * and the store the rest of the pipeline left behind.
   */
  function AfterNext(cfg: Config, key: string, rpcMethod: string, res: Resp,
                     entries: map<string, Entry>, calls: StoreCalls): Effect
  {
    var tags := Tags(cfg.source);
    if !Truthy(res.result) && cfg.allowStaleOnFailure then
      var stale := GetKeyResult(entries, key, calls.stale);
      if Truthy(stale) then
        Effect(Resp(stale, None), entries, AccessReports(calls.stale) + [Report(StaleMessage(key), tags, Warning)])
      else
        Effect(res, entries,
               AccessReports(calls.stale) + [Report(StaleMissingMessage(res.error, key), tags, Error)])
    else if Truthy(res.result) then
      var ttl := TtlFor(cfg.ttlTable, rpcMethod);
      Effect(res, SetCacheDataResult(entries, key, res.result, ttl, calls.writeMarker, calls.writeValue),
             SetCacheDataReports(calls.writeMarker, calls.writeValue))
    else
      Effect(res, entries, [])
  }

  /** The request flowing through `stages` in order, each stage deciding whether to call the next. */
  function Run(stages: seq<Stage>, cfg: Config, entries: map<string, Entry>, rpc: Rpc, res: Resp,
               net: FetchOutcome, calls: StoreCalls): Outcome
    decreases |stages|
  {
    if stages == [] then EndOfPipeline(entries, res)
    else match stages[0]
      case NetworkStage => NetworkRun(cfg, entries, res, net)
      case CacheStage =>
        if rpc.rpcMethod !in cfg.cacheAbleMethods then
          Run(stages[1..], cfg, entries, rpc, res, net, calls)
        else
          var key := RequestKey(cfg.source, rpc.rpcMethod, rpc.params);
          var data := FreshData(entries, key, calls.marker, calls.value);
          var lookup := FreshDataReports(entries, key, calls.marker, calls.value);
          if Truthy(data) then
            Outcome(res.(result := data), entries, lookup, false)
          else
            var after := Run(stages[1..], cfg, entries, rpc, res, net, calls);
            var e := AfterNext(cfg, key, rpc.rpcMethod, after.resp, after.entries, calls);
            Outcome(e.resp, e.entries, lookup + (after.reports + e.reports), after.fetched)
  }

  /** The response a fresh request starts with (`{ id, jsonrpc }`, neither result nor error). */
  const Initial := Resp(Undefined, None)

  /** One request through the pipeline a provider builds. */
  function Pipeline(isCacheEnabled: bool, cfg: Config, entries: map<string, Entry>, rpc: Rpc,
                    net: FetchOutcome, calls: StoreCalls): (o: Outcome)
    ensures !o.fetched ==> isCacheEnabled && rpc.rpcMethod in cfg.cacheAbleMethods
    ensures !(isCacheEnabled && rpc.rpcMethod in cfg.cacheAbleMethods) ==> o.fetched && o.entries == entries
  {
    assert Stages(true)[1..] == Stages(false);
    Run(Stages(isCacheEnabled), cfg, entries, rpc, Initial, net, calls)
  }

  /** The cache key and the fresh lookup of a request. */
  function KeyOf(cfg: Config, rpc: Rpc): string {
    RequestKey(cfg.source, rpc.rpcMethod, rpc.params)
  }

  predicate Hit(cfg: Config, entries: map<string, Entry>, rpc: Rpc, calls: StoreCalls) {
    rpc.rpcMethod in cfg.cacheAbleMethods && Truthy(FreshData(entries, KeyOf(cfg, rpc), calls.marker, calls.value))
  }

  /** The outcome of a cache stage on a cacheable method that hits, spelled out. */
  lemma CacheStageHit(rest: seq<Stage>, cfg: Config, entries: map<string, Entry>, rpc: Rpc, res: Resp,
                      net: FetchOutcome, calls: StoreCalls)
    requires rpc.rpcMethod in cfg.cacheAbleMethods
    requires Truthy(FreshData(entries, KeyOf(cfg, rpc), calls.marker, calls.value))
    ensures Run([CacheStage] + rest, cfg, entries, rpc, res, net, calls)
              == Outcome(res.(result := FreshData(entries, KeyOf(cfg, rpc), calls.marker, calls.value)), entries,
                         FreshDataReports(entries, KeyOf(cfg, rpc), calls.marker, calls.value), false)
  {
  }

  /** The outcome of a cache stage on a cacheable method that misses, spelled out. */
  lemma CacheStageMiss(rest: seq<Stage>, cfg: Config, entries: map<string, Entry>, rpc: Rpc, res: Resp,
                       net: FetchOutcome, calls: StoreCalls)
    requires rpc.rpcMethod in cfg.cacheAbleMethods
    requires !Truthy(FreshData(entries, KeyOf(cfg, rpc), calls.marker, calls.value))
    ensures var after := Run(rest, cfg, entries, rpc, res, net, calls);
            var e := AfterNext(cfg, KeyOf(cfg, rpc), rpc.rpcMethod, after.resp, after.entries, calls);
            Run([CacheStage] + rest, cfg, entries, rpc, res, net, calls)
              == Outcome(e.resp, e.entries,
                         FreshDataReports(entries, KeyOf(cfg, rpc), calls.marker, calls.value) + (after.reports + e.reports),
                         after.fetched)
  {
    var stages := [CacheStage] + rest;
    assert stages[0] == CacheStage && stages[1..] == rest;
  }

  // ---------------------------------------------------------------------
  // Properties of the pipeline
  // ---------------------------------------------------------------------

  /**
   * The network stage never calls `next`: whatever follows it in the stage
   * list is never run.
   */
  lemma {:induction false} NetworkStageEndsThePipeline(pre: seq<Stage>, post: seq<Stage>, cfg: Config,
                                                       entries: map<string, Entry>, rpc: Rpc, res: Resp,
                                                       net: FetchOutcome, calls: StoreCalls)
    ensures Run(pre + [NetworkStage] + post, cfg, entries, rpc, res, net, calls)
         == Run(pre + [NetworkStage], cfg, entries, rpc, res, net, calls)
    decreases |pre|
  {
    if pre == [] {
      assert (pre + [NetworkStage] + post)[0] == NetworkStage;
      assert (pre + [NetworkStage])[0] == NetworkStage;
    } else {
      assert (pre + [NetworkStage] + post)[0] == pre[0] && (pre + [NetworkStage])[0] == pre[0];
      assert (pre + [NetworkStage] + post)[1..] == pre[1..] + [NetworkStage] + post;
      assert (pre + [NetworkStage])[1..] == pre[1..] + [NetworkStage];
      NetworkStageEndsThePipeline(pre[1..], post, cfg, entries, rpc, res, net, calls);
    }
  }

  /** The post-processing after `next` writes at most under the key and its marker. */
  lemma AfterNextFrames(cfg: Config, key: string, rpcMethod: string, res: Resp,
                        entries: map<string, Entry>, calls: StoreCalls)
    ensures var e := AfterNext(cfg, key, rpcMethod, res, entries, calls);
            forall k :: k != key && k != TtlKey(key) ==>
              (k in e.entries <==> k in entries) && (k in e.entries ==> e.entries[k] == entries[k])
  {
  }

  /**
   * A request changes the store only under its own key and that key's
   * marker, whatever the stages: every other entry is left as it was.
   */
  lemma {:induction false} RequestTouchesOnlyItsKey(stages: seq<Stage>, cfg: Config, entries: map<string, Entry>,
                                                    rpc: Rpc, res: Resp, net: FetchOutcome, calls: StoreCalls)
    ensures var o := Run(stages, cfg, entries, rpc, res, net, calls);
            var key := KeyOf(cfg, rpc);
            forall k :: k != key && k != TtlKey(key) ==>
              (k in o.entries <==> k in entries) && (k in o.entries ==> o.entries[k] == entries[k])
    decreases |stages|
  {
    if stages != [] && stages[0] == CacheStage && rpc.rpcMethod in cfg.cacheAbleMethods {
      var key := KeyOf(cfg, rpc);
      RequestTouchesOnlyItsKey(stages[1..], cfg, entries, rpc, res, net, calls);
      if !Truthy(FreshData(entries, key, calls.marker, calls.value)) {
        var after := Run(stages[1..], cfg, entries, rpc, res, net, calls);
        AfterNextFrames(cfg, key, rpc.rpcMethod, after.resp, after.entries, calls);
      }
    } else if stages != [] && stages[0] == CacheStage {
      RequestTouchesOnlyItsKey(stages[1..], cfg, entries, rpc, res, net, calls);
    }
  }

  /**
   * A cache hit serves the value stored under the request's key while its
   * marker is present, on a store that answered both reads: nothing is
   * fetched, written or reported.
   */
  lemma HitServesMarkedValue(cfg: Config, entries: map<string, Entry>, rpc: Rpc, net: FetchOutcome, calls: StoreCalls)
    requires Hit(cfg, entries, rpc, calls)
    ensures var o := Pipeline(true, cfg, entries, rpc, net, calls);
            var key := KeyOf(cfg, rpc);
            && calls.marker.Served? && calls.value.Served?
            && TtlKey(key) in entries && key in entries
            && o.resp == Resp(entries[key].data, None) && Truthy(o.resp.result)
            && !o.fetched && o.entries == entries && o.reports == []
  {
    FetchedIffNotHit(cfg, entries, rpc, net, calls);
    assert Stages(true)[1..] == Stages(false);
  }

  /**
   * What the cache stage does after `next` on a miss: the answer is truthy
   * exactly when the network's was or a stale value was served; the error
   * is cleared exactly when a stale value was served; a failure never
   * writes; a success is passed on unchanged.
   */
  lemma AfterNextAnswers(cfg: Config, key: string, rpcMethod: string, res: Resp,
                         entries: map<string, Entry>, calls: StoreCalls)
    ensures var e := AfterNext(cfg, key, rpcMethod, res, entries, calls);
            var served := !Truthy(res.result) && cfg.allowStaleOnFailure
                          && Truthy(GetKeyResult(entries, key, calls.stale));
            && (Truthy(e.resp.result) <==> Truthy(res.result) || served)
            && e.resp.error == (if served then None else res.error)
            && (!Truthy(res.result) ==> e.entries == entries)
            && (Truthy(res.result) ==> e.resp == res)
            && (!Truthy(res.result) && !cfg.allowStaleOnFailure ==> e == Effect(res, entries, []))
  {
  }

  /** Without the cache stage every request goes to the network and the store is never touched. */
  lemma CacheDisabledAlwaysFetches(cfg: Config, entries: map<string, Entry>, rpc: Rpc, net: FetchOutcome, calls: StoreCalls)
    ensures Pipeline(false, cfg, entries, rpc, net, calls) == NetworkRun(cfg, entries, Initial, net)
  {
  }

  /** A method outside `cacheAbleMethods` passes straight to the network: no store reads, writes or reports of its own. */
  lemma UncacheableMethodPassesThrough(cfg: Config, entries: map<string, Entry>, rpc: Rpc, net: FetchOutcome, calls: StoreCalls)
    requires rpc.rpcMethod !in cfg.cacheAbleMethods
    ensures Pipeline(true, cfg, entries, rpc, net, calls) == Pipeline(false, cfg, entries, rpc, net, calls)
  {
    assert Stages(true)[1..] == Stages(false);
  }

  /**
   * The network is called exactly when the request is not a cache hit; a hit
   * answers with the cached data and touches neither the store nor `res.error`.
   */
  lemma FetchedIffNotHit(cfg: Config, entries: map<string, Entry>, rpc: Rpc, net: FetchOutcome, calls: StoreCalls)
    ensures var o := Pipeline(true, cfg, entries, rpc, net, calls);
            && (o.fetched <==> !Hit(cfg, entries, rpc, calls))
            && (Hit(cfg, entries, rpc, calls) ==>
                  o.resp == Resp(FreshData(entries, KeyOf(cfg, rpc), calls.marker, calls.value), None)
                  && o.entries == entries)
  {
    assert Stages(true)[1..] == Stages(false);
  }

  /** A cacheable request that misses: the lookup, the network stage, then the post-processing. */
  lemma PipelineMiss(cfg: Config, entries: map<string, Entry>, rpc: Rpc, net: FetchOutcome, calls: StoreCalls)
    requires rpc.rpcMethod in cfg.cacheAbleMethods && !Hit(cfg, entries, rpc, calls)
    ensures var n := NetworkRun(cfg, entries, Initial, net);
            var e := AfterNext(cfg, KeyOf(cfg, rpc), rpc.rpcMethod, n.resp, n.entries, calls);
            Pipeline(true, cfg, entries, rpc, net, calls)
              == Outcome(e.resp, e.entries,
                         FreshDataReports(entries, KeyOf(cfg, rpc), calls.marker, calls.value) + (n.reports + e.reports),
                         true)
  {
    assert Stages(true) == [CacheStage] + [NetworkStage];
    CacheStageMiss([NetworkStage], cfg, entries, rpc, Initial, net, calls);
    assert Run([NetworkStage], cfg, entries, rpc, Initial, net, calls) == NetworkRun(cfg, entries, Initial, net);
  }

  /** The stale fallback after a failed `next`, spelled out for both of its outcomes. */
  lemma AfterNextStale(cfg: Config, key: string, rpcMethod: string, res: Resp,
                       entries: map<string, Entry>, calls: StoreCalls)
    requires !Truthy(res.result) && cfg.allowStaleOnFailure
    ensures var stale := GetKeyResult(entries, key, calls.stale);
            AfterNext(cfg, key, rpcMethod, res, entries, calls)
              == if Truthy(stale) then
                   Effect(Resp(stale, None), entries,
                          AccessReports(calls.stale) + [Report(StaleMessage(key), Tags(cfg.source), Warning)])
                 else
                   Effect(res, entries,
                          AccessReports(calls.stale) + [Report(StaleMissingMessage(res.error, key), Tags(cfg.source), Error)])
  {
  }

  /** A miss answered with truthy data writes it through: `setCacheData(key, result, ttl)`. */
  lemma MissWritesThrough(cfg: Config, entries: map<string, Entry>, rpc: Rpc, body: Value, calls: StoreCalls)
    requires rpc.rpcMethod in cfg.cacheAbleMethods && !Hit(cfg, entries, rpc, calls)
    requires Truthy(body)
    ensures var o := Pipeline(true, cfg, entries, rpc, Body(body), calls);
            && o.resp == Resp(body, None)
            && o.entries == SetCacheDataResult(entries, KeyOf(cfg, rpc), body, TtlFor(cfg.ttlTable, rpc.rpcMethod),
                                               calls.writeMarker, calls.writeValue)
            && o.fetched
  {
    PipelineMiss(cfg, entries, rpc, Body(body), calls);
  }

  /**
   * A miss whose network result is falsy, with stale fallback on and a stale
   * value readable: the error is removed, the stale value is the result, the
   * store is left alone and exactly one warning closes the reports.
   */
  lemma StaleFallbackServesStaleValue(cfg: Config, entries: map<string, Entry>, rpc: Rpc, net: FetchOutcome, calls: StoreCalls)
    requires rpc.rpcMethod in cfg.cacheAbleMethods && !Hit(cfg, entries, rpc, calls)
    requires cfg.allowStaleOnFailure
    requires !Truthy(NetworkRun(cfg, entries, Initial, net).resp.result)
    requires Truthy(GetKeyResult(entries, KeyOf(cfg, rpc), calls.stale))
    ensures var o := Pipeline(true, cfg, entries, rpc, net, calls);
            var key := KeyOf(cfg, rpc);
            && o.fetched
            && o.resp == Resp(GetKeyResult(entries, key, calls.stale), None)
            && o.entries == entries
            && o.reports == FreshDataReports(entries, key, calls.marker, calls.value)
                            + NetworkRun(cfg, entries, Initial, net).reports
                            + AccessReports(calls.stale)
                            + [Report(StaleMessage(key), Tags(cfg.source), Warning)]
  {
    var key, n := KeyOf(cfg, rpc), NetworkRun(cfg, entries, Initial, net);
    PipelineMiss(cfg, entries, rpc, net, calls);
    var e := AfterNext(cfg, key, rpc.rpcMethod, n.resp, n.entries, calls);
    var warn := [Report(StaleMessage(key), Tags(cfg.source), Warning)];
    AfterNextStale(cfg, key, rpc.rpcMethod, n.resp, entries, calls);
    var lookup := FreshDataReports(entries, key, calls.marker, calls.value);
    assert lookup + (n.reports + e.reports) == lookup + n.reports + AccessReports(calls.stale) + warn;
  }

  /**
   * The same, but with no stale value: an error-level report is added and the
   * response is the network stage's, unchanged.
   */
  lemma StaleFallbackMisses(cfg: Config, entries: map<string, Entry>, rpc: Rpc, net: FetchOutcome, calls: StoreCalls)
    requires rpc.rpcMethod in cfg.cacheAbleMethods && !Hit(cfg, entries, rpc, calls)
    requires cfg.allowStaleOnFailure
    requires !Truthy(NetworkRun(cfg, entries, Initial, net).resp.result)
    requires !Truthy(GetKeyResult(entries, KeyOf(cfg, rpc), calls.stale))
    ensures var o := Pipeline(true, cfg, entries, rpc, net, calls);
            var n := NetworkRun(cfg, entries, Initial, net);
            var key := KeyOf(cfg, rpc);
            && o.fetched
            && o.resp == n.resp
            && o.entries == entries
            && o.reports == FreshDataReports(entries, key, calls.marker, calls.value) + n.reports
                            + AccessReports(calls.stale)
                            + [Report(StaleMissingMessage(n.resp.error, key), Tags(cfg.source), Error)]
  {
    var key, n := KeyOf(cfg, rpc), NetworkRun(cfg, entries, Initial, net);
    PipelineMiss(cfg, entries, rpc, net, calls);
    var e := AfterNext(cfg, key, rpc.rpcMethod, n.resp, n.entries, calls);
    var err := [Report(StaleMissingMessage(n.resp.error, key), Tags(cfg.source), Error)];
    AfterNextStale(cfg, key, rpc.rpcMethod, n.resp, entries, calls);
    var lookup := FreshDataReports(entries, key, calls.marker, calls.value);
    assert lookup + (n.reports + e.reports) == lookup + n.reports + AccessReports(calls.stale) + err;
  }

  /** With stale fallback off, a failed miss is passed on untouched: nothing written, nothing reported by the cache stage. */
  lemma FailedMissWithoutFallback(cfg: Config, entries: map<string, Entry>, rpc: Rpc, net: FetchOutcome, calls: StoreCalls)
    requires rpc.rpcMethod in cfg.cacheAbleMethods && !Hit(cfg, entries, rpc, calls)
    requires !cfg.allowStaleOnFailure
    requires !Truthy(NetworkRun(cfg, entries, Initial, net).resp.result)
    ensures var o := Pipeline(true, cfg, entries, rpc, net, calls);
            var n := NetworkRun(cfg, entries, Initial, net);
            && o.fetched
            && o.resp == n.resp
            && o.entries == entries
            && o.reports == FreshDataReports(entries, KeyOf(cfg, rpc), calls.marker, calls.value) + n.reports
  {
    var n := NetworkRun(cfg, entries, Initial, net);
    PipelineMiss(cfg, entries, rpc, net, calls);
    assert AfterNext(cfg, KeyOf(cfg, rpc), rpc.rpcMethod, n.resp, n.entries, calls) == Effect(n.resp, entries, []);
    assert n.reports + [] == n.reports;
  }

  /** A store whose calls all succeed. */
  const Healthy := StoreCalls(Served, Served, Served, Served, Served)

  /**
   * Write then hit across two requests: after a miss answered with truthy
   * data on a working store, the same method with the same params (any id)
   * is answered from the cache without a network call, whatever the network
   * would have said.
   */
  lemma SecondRequestIsAHit(cfg: Config, entries: map<string, Entry>, first: Rpc, second: Rpc,
                            body: Value, net: FetchOutcome, calls: StoreCalls)
    requires first.rpcMethod in cfg.cacheAbleMethods && !Hit(cfg, entries, first, calls)
    requires Truthy(body) && calls.writeMarker.Served? && calls.writeValue.Served?
    requires second.rpcMethod == first.rpcMethod && second.params == first.params
    ensures var o1 := Pipeline(true, cfg, entries, first, Body(body), calls);
            var o2 := Pipeline(true, cfg, o1.entries, second, net, Healthy);
            && o1.fetched && o1.resp.result == body
            && !o2.fetched && o2.resp == Resp(body, None) && o2.entries == o1.entries && o2.reports == []
  {
    MissWritesThrough(cfg, entries, first, body, calls);
    var key := KeyOf(cfg, first);
    var o1 := Pipeline(true, cfg, entries, first, Body(body), calls);
    assert o1.entries == SetCacheDataResult(entries, key, body, TtlFor(cfg.ttlTable, first.rpcMethod), Served, Served);
    WriteThenReadFresh(entries, key, body, TtlFor(cfg.ttlTable, first.rpcMethod));
    FetchedIffNotHit(cfg, o1.entries, second, net, Healthy);
  }

  /**
   * Write, marker expiry, then a failing network: with stale fallback on the
   * second caller still receives the written data and no error.
   */
  lemma StaleDataSurvivesOutage(cfg: Config, entries: map<string, Entry>, first: Rpc, second: Rpc,
                                body: Value, message: string, calls: StoreCalls)
    requires first.rpcMethod in cfg.cacheAbleMethods && !Hit(cfg, entries, first, calls)
    requires cfg.allowStaleOnFailure
    requires Truthy(body) && calls.writeMarker.Served? && calls.writeValue.Served?
    requires TruthyNumber(TtlFor(cfg.ttlTable, first.rpcMethod))
    requires second.rpcMethod == first.rpcMethod && second.params == first.params
    ensures var o1 := Pipeline(true, cfg, entries, first, Body(body), calls);
            var expired := ExpireKey(o1.entries, TtlKey(KeyOf(cfg, first)));
            var o2 := Pipeline(true, cfg, expired, second, Thrown(message), Healthy);
            && o2.fetched && o2.resp == Resp(body, None) && o2.entries == expired
  {
    MissWritesThrough(cfg, entries, first, body, calls);
    var key := KeyOf(cfg, first);
    var ttl := TtlFor(cfg.ttlTable, first.rpcMethod);
    var o1 := Pipeline(true, cfg, entries, first, Body(body), calls);
    assert o1.entries == SetCacheDataResult(entries, key, body, ttl, Served, Served);
    ExpiredMarkerLeavesStaleValue(entries, key, body, ttl);
    var expired := ExpireKey(o1.entries, TtlKey(key));
    assert KeyOf(cfg, second) == key;
    assert GetKeyResult(expired, key, Served) == body;
    assert !Hit(cfg, expired, second, Healthy);
    StaleFallbackServesStaleValue(cfg, expired, second, Thrown(message), Healthy);
  }
}
