/**
 * The provider: it stamps each request with an id and the protocol version,
 * and runs it through the stages its constructor pushed onto the engine, the
 * cache stage (only when caching is enabled) and then the network stage.
 * The middlewares update the response object `res` in place.
 */
module Provider {
  import opened Wrappers
  import opened Json
  import opened Keys
  import opened Reporting
  import opened Store
  import opened Cache
  import opened Middleware

  /** A caller's JSON-RPC request object; `sendAsync` overwrites its id and version. */
  class JsonRpcRequest {
    var id: int
    var jsonrpc: string
    var rpcMethod: string
    var params: Value

    constructor (id: int, jsonrpc: string, rpcMethod: string, params: Value)
      ensures this.id == id && this.jsonrpc == jsonrpc && this.rpcMethod == rpcMethod && this.params == params
    {
      this.id := id;
      this.jsonrpc := jsonrpc;
      this.rpcMethod := rpcMethod;
      this.params := params;
    }

    function Snapshot(): Rpc
      reads this
    {
      Rpc(id, jsonrpc, rpcMethod, params)
    }
  }

  /** The response accumulator the engine creates for a request and the stages fill in. */
  class Response {
    const id: int
    const jsonrpc: string
    var result: Value
    var error: Option<RpcError>

    constructor (id: int, jsonrpc: string)
      ensures this.id == id && this.jsonrpc == jsonrpc && result == Undefined && error == None
    {
      this.id := id;
      this.jsonrpc := jsonrpc;
      result := Undefined;
      error := None;
    }

    function State(): Resp
      reads this
    {
      Resp(result, error)
    }
  }

  /** The middleware engine: the ordered list of stages. */
  class Engine {
    var stages: seq<Stage>

    constructor ()
      ensures stages == []
    {
      stages := [];
    }

    /** `engine.push(middleware)`. */
    method Push(s: Stage)
      modifies this
      ensures stages == old(stages) + [s]
    {
      stages := stages + [s];
    }
  }

  /** The construction inputs; `sendErrorToSentry` says whether a reporter function is given. */
  datatype ProviderConfig = ProviderConfig(allowStaleOnFailure: bool, isCacheEnabled: bool,
                                           cacheAbleMethods: seq<string>, sendErrorToSentry: bool)

  ghost predicate StrictlyIncreasing(s: seq<int>) {
    forall i, j :: 0 <= i < j < |s| ==> s[i] < s[j]
  }

  /** The ids handed out so far are 1, 2, 3, ... in call order. */
  ghost predicate CountsFromOne(s: seq<int>) {
    forall i :: 0 <= i < |s| ==> s[i] == i + 1
  }

  /** Ids counted from one are strictly increasing, so no id is ever handed out twice. */
  lemma CountedIdsNeverRepeat(s: seq<int>)
    requires CountsFromOne(s)
    ensures StrictlyIncreasing(s)
    ensures forall i, j :: 0 <= i < |s| && 0 <= j < |s| && i != j ==> s[i] != s[j]
  {
  }

  class ProviderBase {
    const allowStaleOnFailure: bool
    const isCacheEnabled: bool
    const cacheAbleMethods: seq<string>
    const engine: Engine
    var requestIdCounter: int
    const url: string
    const cacheManager: CacheManager?
    const source: string
    /** The per-method ttl table (`ANKR_API_UPDATE_INTERVAL`), in seconds. */
    const ttlTable: map<string, nat>
    /** The static reporter slot, shared with the cache manager. */
    const reporter: Reporter
    /** Every id `sendAsync` has handed out, in call order. */
    ghost var issued: seq<int>
    /** Every request the network stage has posted to `url`, in order. */
    ghost var posted: seq<Rpc>

    ghost predicate Valid()
      reads this, engine
    {
      && engine.stages == Stages(isCacheEnabled)
      && (cacheManager != null <==> isCacheEnabled)
      && (cacheManager != null ==> cacheManager.reporter == reporter)
      && requestIdCounter == |issued| + 1
      && CountsFromOne(issued)
    }

    function Cfg(): Config {
      Config(source, cacheAbleMethods, allowStaleOnFailure, ttlTable)
    }

    /** The store objects a request may change: none without a cache manager. */
    function StoreFrame(): set<object> {
      if cacheManager == null then {} else {cacheManager.client}
    }

    ghost function Entries(): map<string, Entry>
      reads StoreFrame()
    {
      if cacheManager == null then map[] else cacheManager.client.entries
    }

    /**
     * The constructor: installs the reporter in the static slot, pushes the
     * cache stage (and creates the cache manager) only if caching is enabled,
     * and pushes the network stage last.
     */
    constructor (config: ProviderConfig, source: string, url: string, ttlTable: map<string, nat>,
                 redis: RedisStore, sentry: Reporter)
      modifies sentry`sink
      ensures Valid() && fresh(engine)
      ensures engine.stages == (if config.isCacheEnabled then [CacheStage, NetworkStage] else [NetworkStage])
      ensures allowStaleOnFailure == config.allowStaleOnFailure && isCacheEnabled == config.isCacheEnabled
      ensures cacheAbleMethods == config.cacheAbleMethods
      ensures this.source == source && this.url == url && this.ttlTable == ttlTable
      ensures requestIdCounter == 1 && issued == [] && posted == []
      ensures reporter == sentry && sentry.sink == config.sendErrorToSentry
      ensures config.isCacheEnabled ==> cacheManager != null && fresh(cacheManager) && cacheManager.client == redis
      ensures !config.isCacheEnabled ==> cacheManager == null
    {
      allowStaleOnFailure := config.allowStaleOnFailure;
      isCacheEnabled := config.isCacheEnabled;
      cacheAbleMethods := config.cacheAbleMethods;
      sentry.Install(config.sendErrorToSentry);
      reporter := sentry;
      var e := new Engine();
      engine := e;
      if config.isCacheEnabled {
        e.Push(CacheStage);
        cacheManager := new CacheManager(redis, sentry);
      } else {
        cacheManager := null;
      }
      e.Push(NetworkStage);
      this.source := source;
      this.url := url;
      this.ttlTable := ttlTable;
      requestIdCounter := 1;
      issued := [];
      posted := [];
    }

    /**
     * `sendAsync(request)`: the next id from the counter (post-increment),
     * version "2.0", then the pipeline.
     */
    method SendAsync(request: JsonRpcRequest, net: FetchOutcome, calls: StoreCalls) returns (res: Response)
      requires Valid()
      modifies this, request, reporter`log, StoreFrame()
      ensures Valid()
      ensures request.id == old(requestIdCounter) && request.jsonrpc == "2.0"
      ensures request.rpcMethod == old(request.rpcMethod) && request.params == old(request.params)
      ensures requestIdCounter == old(requestIdCounter) + 1 && issued == old(issued) + [request.id]
      ensures fresh(res) && res.id == request.id && res.jsonrpc == "2.0"
      ensures var o := Pipeline(isCacheEnabled, Cfg(), old(Entries()), request.Snapshot(), net, calls);
              && res.State() == o.resp && Entries() == o.entries
              && reporter.log == old(reporter.log) + reporter.Delivered(o.reports)
              && posted == old(posted) + (if o.fetched then [request.Snapshot()] else [])
    {
      request.id := requestIdCounter;
      requestIdCounter := requestIdCounter + 1;
      issued := issued + [request.id];
      request.jsonrpc := "2.0";
      res := Handle(request.Snapshot(), net, calls);
    }

    /** `engine.handle(request)`: a fresh response `{ id, jsonrpc }`, then the stages from the first. */
    method Handle(rpc: Rpc, net: FetchOutcome, calls: StoreCalls) returns (res: Response)
      requires Valid()
      modifies this`posted, reporter`log, StoreFrame()
      ensures Valid()
      ensures fresh(res) && res.id == rpc.id && res.jsonrpc == rpc.jsonrpc
      ensures var o := Pipeline(isCacheEnabled, Cfg(), old(Entries()), rpc, net, calls);
              && res.State() == o.resp && Entries() == o.entries
              && reporter.log == old(reporter.log) + reporter.Delivered(o.reports)
              && posted == old(posted) + (if o.fetched then [rpc] else [])
    {
      res := new Response(rpc.id, rpc.jsonrpc);
      RunStage(0, rpc, res, net, calls);
    }

    /** Runs stage i; `next` of a stage is the stage after it. */
    method RunStage(i: nat, rpc: Rpc, res: Response, net: FetchOutcome, calls: StoreCalls)
      requires Valid() && i <= |engine.stages|
      modifies this`posted, res, reporter`log, StoreFrame()
      decreases |engine.stages| - i, 3
      ensures Valid()
      ensures var o := Run(engine.stages[i..], Cfg(), old(Entries()), rpc, old(res.State()), net, calls);
              && res.State() == o.resp && Entries() == o.entries
              && reporter.log == old(reporter.log) + reporter.Delivered(o.reports)
              && posted == old(posted) + (if o.fetched then [rpc] else [])
    {
      if i == |engine.stages| {
        assert engine.stages[i..] == [];
      } else if engine.stages[i] == NetworkStage {
        RequestMiddleware(rpc, res, net);
      } else {
        CacheMiddleware(i, rpc, res, net, calls);
      }
    }

    /**
     * The network middleware (`createAsyncRequestMiddleware`): posts the
     * request; the body becomes `res.result`, or a thrown error clears
     * `res.result` and is reported. It never calls `next` and never throws.
     */
    method RequestMiddleware(rpc: Rpc, res: Response, net: FetchOutcome)
      modifies this`posted, res, reporter`log
      ensures var o := NetworkRun(Cfg(), Entries(), old(res.State()), net);
              && res.State() == o.resp
              && reporter.log == old(reporter.log) + reporter.Delivered(o.reports)
              && posted == old(posted) + [rpc]
    {
      posted := posted + [rpc];
      match net
      case Body(body) =>
        res.result := body;
      case Thrown(message) =>
        res.result := Undefined;
        reporter.Sentry(message, Tags(source), Error);
    }

    /** The cache middleware (`cacheMiddleware`), with `next` the stage after it. */
    method CacheMiddleware(i: nat, rpc: Rpc, res: Response, net: FetchOutcome, calls: StoreCalls)
      requires Valid() && i < |engine.stages| && engine.stages[i] == CacheStage
      modifies this`posted, res, reporter`log, StoreFrame()
      decreases |engine.stages| - i, 2
      ensures Valid()
      ensures var o := Run(engine.stages[i..], Cfg(), old(Entries()), rpc, old(res.State()), net, calls);
              && res.State() == o.resp && Entries() == o.entries
              && reporter.log == old(reporter.log) + reporter.Delivered(o.reports)
              && posted == old(posted) + (if o.fetched then [rpc] else [])
    {
      assert engine.stages[i..] == [CacheStage] + engine.stages[i + 1..];
      if rpc.rpcMethod !in cacheAbleMethods {
        RunStage(i + 1, rpc, res, net, calls);
      } else {
        Cached(i, rpc, res, net, calls);
      }
    }

    /** The cache middleware on a cacheable method: the fresh read, then a hit or a miss. */
    method Cached(i: nat, rpc: Rpc, res: Response, net: FetchOutcome, calls: StoreCalls)
      requires Valid() && i < |engine.stages| && engine.stages[i] == CacheStage
      requires rpc.rpcMethod in cacheAbleMethods
      modifies this`posted, res, reporter`log, StoreFrame()
      decreases |engine.stages| - i, 1
      ensures Valid()
      ensures var o := Run(engine.stages[i..], Cfg(), old(Entries()), rpc, old(res.State()), net, calls);
              && res.State() == o.resp && Entries() == o.entries
              && reporter.log == old(reporter.log) + reporter.Delivered(o.reports)
              && posted == old(posted) + (if o.fetched then [rpc] else [])
    {
      ghost var entries0, log0, res0 := Entries(), reporter.log, res.State();
      ghost var rest := engine.stages[i + 1..];
      assert engine.stages[i..] == [CacheStage] + rest;
      assert CacheStage in engine.stages;
      var key := RequestKey(source, rpc.rpcMethod, rpc.params);
      var data := cacheManager.GetCachedDataIfExist(key, calls.marker, calls.value);
      ghost var lookup := FreshDataReports(entries0, key, calls.marker, calls.value);
      if Truthy(data) {
        res.result := data;
        CacheStageHit(rest, Cfg(), entries0, rpc, res0, net, calls);
      } else {
        ghost var log1 := reporter.log;
        Miss(i, key, rpc, res, net, calls);
        ghost var after := Run(rest, Cfg(), entries0, rpc, res0, net, calls);
        ghost var e := AfterNext(Cfg(), key, rpc.rpcMethod, after.resp, after.entries, calls);
        CacheStageMiss(rest, Cfg(), entries0, rpc, res0, net, calls);
        DeliveredThen(reporter, log0, lookup, log1, after.reports + e.reports, reporter.log);
      }
    }

    /** A cache miss: `await next()`, then the stale fallback or the write-through. */
    method Miss(i: nat, key: string, rpc: Rpc, res: Response, net: FetchOutcome, calls: StoreCalls)
      requires Valid() && i < |engine.stages| && engine.stages[i] == CacheStage
      modifies this`posted, res, reporter`log, StoreFrame()
      decreases |engine.stages| - i, 0
      ensures Valid()
      ensures var after := Run(engine.stages[i + 1..], Cfg(), old(Entries()), rpc, old(res.State()), net, calls);
              var e := AfterNext(Cfg(), key, rpc.rpcMethod, after.resp, after.entries, calls);
              && res.State() == e.resp && Entries() == e.entries
              && reporter.log == old(reporter.log) + reporter.Delivered(after.reports + e.reports)
              && posted == old(posted) + (if after.fetched then [rpc] else [])
    {
      assert CacheStage in engine.stages;
      ghost var entries0, res0, log0 := Entries(), res.State(), reporter.log;
      RunStage(i + 1, rpc, res, net, calls);
      ghost var log1 := reporter.log;
      FinishMiss(key, rpc.rpcMethod, res, calls);
      ghost var after := Run(engine.stages[i + 1..], Cfg(), entries0, rpc, res0, net, calls);
      ghost var e := AfterNext(Cfg(), key, rpc.rpcMethod, after.resp, after.entries, calls);
      DeliveredThen(reporter, log0, after.reports, log1, e.reports, reporter.log);
    }

    /** The part of the cache middleware after `await next()` on a miss. */
    method FinishMiss(key: string, rpcMethod: string, res: Response, calls: StoreCalls)
      requires Valid() && cacheManager != null
      modifies res, reporter`log, StoreFrame()
      ensures var e := AfterNext(Cfg(), key, rpcMethod, old(res.State()), old(Entries()), calls);
              && res.State() == e.resp && Entries() == e.entries
              && reporter.log == old(reporter.log) + reporter.Delivered(e.reports)
    {
      if !Truthy(res.result) && allowStaleOnFailure {
        var staleData := cacheManager.GetKey(key, calls.stale);
        if Truthy(staleData) {
          reporter.Sentry(StaleMessage(key), Tags(source), Warning);
          res.error := None;
          res.result := staleData;
        } else {
          reporter.Sentry(StaleMissingMessage(res.error, key), Tags(source), Error);
        }
      } else if Truthy(res.result) {
        var ttl := TtlFor(ttlTable, rpcMethod);
        cacheManager.SetCacheData(key, res.result, ttl, calls.writeMarker, calls.writeValue);
      }
    }
  }

  /**
   * One provider with caching on and one cacheable method, asked twice for the
   * same thing: the first call is fetched and written through, the second is
   * answered from the store although the network would now fail. The ids are
   * the counter's first two values.
   */
  method RepeatedRequest(rpcMethod: string, params: Value, body: Value, message: string)
    returns (first: Value, second: Value, firstId: int, secondId: int)
    requires Truthy(body)
    ensures firstId == 1 && secondId == 2
    ensures first == body && second == body
  {
    var store := new RedisStore(map[]);
    var sentry := new Reporter();
    var config := ProviderConfig(false, true, [rpcMethod], false);
    var provider := new ProviderBase(config, "Chain", "https://rpc.invalid", map[], store, sentry);
    var request := new JsonRpcRequest(0, "1.0", rpcMethod, params);
    ghost var cfg, rpc1 := provider.Cfg(), Rpc(1, "2.0", rpcMethod, params);
    assert !Hit(cfg, map[], rpc1, Healthy);
    var r1 := provider.SendAsync(request, Body(body), Healthy);
    firstId := request.id;
    assert request.Snapshot() == rpc1;
    ghost var o1 := Pipeline(true, cfg, map[], rpc1, Body(body), Healthy);
    assert r1.State() == o1.resp && provider.Entries() == o1.entries;
    first := r1.result;
    var r2 := provider.SendAsync(request, Thrown(message), Healthy);
    secondId := request.id;
    ghost var o2 := Pipeline(true, cfg, o1.entries, request.Snapshot(), Thrown(message), Healthy);
    assert r2.State() == o2.resp;
    SecondRequestIsAHit(cfg, map[], rpc1, request.Snapshot(), body, Thrown(message), Healthy);
    second := r2.result;
  }

  /** The store of a provider lets key expire; the provider itself is untouched. */
  method ExpireUnder(provider: ProviderBase, key: string)
    requires provider.Valid() && provider.cacheManager != null
    modifies provider.cacheManager.client
    ensures provider.Valid()
    ensures provider.Entries() == ExpireKey(old(provider.Entries()), key)
  {
    provider.cacheManager.client.Expire(key);
  }

  /**
   * The same with stale fallback on and a ttl for the method: once the marker
   * has expired and the network fails, the second caller still receives the
   * first answer, with no error.
   */
  method OutageAfterExpiry(rpcMethod: string, params: Value, body: Value, ttl: nat, message: string)
    returns (second: Value, secondError: Option<RpcError>)
    requires Truthy(body) && ttl > 0
    ensures second == body && secondError == None
  {
    var store := new RedisStore(map[]);
    var sentry := new Reporter();
    var config := ProviderConfig(true, true, [rpcMethod], true);
    var provider := new ProviderBase(config, "Chain", "https://rpc.invalid", map[rpcMethod := ttl], store, sentry);
    var request := new JsonRpcRequest(0, "1.0", rpcMethod, params);
    ghost var cfg := provider.Cfg();
    ghost var rpc1, rpc2 := Rpc(1, "2.0", rpcMethod, params), Rpc(2, "2.0", rpcMethod, params);
    ghost var written, expired := OutageScenario(cfg, rpc1, rpc2, body, ttl, message);
    var r1 := provider.SendAsync(request, Body(body), Healthy);
    assert request.Snapshot() == rpc1;
    assert provider.Entries() == written;
    ExpireUnder(provider, TtlKey(RequestKey("Chain", rpcMethod, params)));
    assert provider.Entries() == expired;
    var r2 := provider.SendAsync(request, Thrown(message), Healthy);
    assert request.Snapshot() == rpc2;
    second, secondError := r2.result, r2.error;
  }

  /** The store states and the second answer of `OutageAfterExpiry`. */
  lemma OutageScenario(cfg: Config, rpc1: Rpc, rpc2: Rpc, body: Value, ttl: nat, message: string)
    returns (written: map<string, Entry>, expired: map<string, Entry>)
    requires cfg.cacheAbleMethods == [rpc1.rpcMethod] && cfg.allowStaleOnFailure
    requires cfg.ttlTable == map[rpc1.rpcMethod := ttl] && ttl > 0 && Truthy(body)
    requires rpc2.rpcMethod == rpc1.rpcMethod && rpc2.params == rpc1.params
    ensures written == Pipeline(true, cfg, map[], rpc1, Body(body), Healthy).entries
    ensures expired == ExpireKey(written, TtlKey(KeyOf(cfg, rpc1)))
    ensures Pipeline(true, cfg, expired, rpc2, Thrown(message), Healthy).resp == Resp(body, None)
  {
    assert !Hit(cfg, map[], rpc1, Healthy);
    assert TtlFor(cfg.ttlTable, rpc1.rpcMethod) == Some(ttl);
    written := Pipeline(true, cfg, map[], rpc1, Body(body), Healthy).entries;
    expired := ExpireKey(written, TtlKey(KeyOf(cfg, rpc1)));
    StaleDataSurvivesOutage(cfg, map[], rpc1, rpc2, body, message, Healthy);
  }
}
