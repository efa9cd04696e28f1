/**
 * `Kumbukumbu.prototype.interceptor` (lib/kumbukumbu.js:59-198): the bypass
 * rules, the key, the store lookup, replay on a hit and arming capture on
 * a miss. The value returned by `redisClient.get` is an input; calls to
 * `next`, `get`, `setHeader`, `send` and the arming of capture are
 * recorded as effects in the order they happen.
 */
module Interceptor {
  import opened Wrappers
  import opened Helpers
  import opened Construction
  import opened CacheKey
  import opened Capture

  /** Why a request is passed on without touching the store. */
  datatype BypassReason = NoCacheHeader | NoPathConfig | MethodNotAllowed

  /** The synchronous part of the decision, before the store is consulted. */
  datatype Route = Bypass(reason: BypassReason) | Cacheable(config: PathConfig, key: string)

  /** An observable step of the interceptor. */
  datatype Effect =
    | CallNext
    | StoreGet(key: string)
    | SetHeader(name: string, value: Option<string>)
    | Send(body: string)
    | ArmCapture(key: string, ttl: string)

  /** `req.headers['cache-control'] === 'no-cache'`: the header is present and is exactly `no-cache`. */
  function NoCacheRequested(req: Request): (r: bool)
    ensures r <==> "cache-control" in req.headers.Keys && req.headers["cache-control"] == "no-cache"
  {
    "cache-control" in req.headers && req.headers["cache-control"] == "no-cache"
  }

  /** `responseFromRedis` is truthy: present and not the empty string. */
  function IsHit(stored: Option<string>): (r: bool)
    ensures r <==> stored != None && stored != Some("")
  {
    stored.Some? && stored.value != ""
  }

  /** Whether the effects contain a store lookup. */
  predicate ConsultsStore(effects: seq<Effect>) {
    exists i :: 0 <= i < |effects| && effects[i].StoreGet?
  }

  /** How many times `next` is called. */
  function NextCount(effects: seq<Effect>): nat {
    multiset(effects)[CallNext]
  }

  /**
   * The bypass checks in source order: the `no-cache` header, then the rule
   * for the cleaned path, then the rule's methods. A cacheable request gets
   * the first matching rule, an allowed method and the key of its request.
   */
  function RouteRequest(inst: Kumbukumbu, req: Request, matches: (string, string) -> bool,
                        hash: HashInput -> string): (r: Route)
    ensures r == Bypass(NoCacheHeader) <==> NoCacheRequested(req)
    ensures r == Bypass(NoPathConfig) <==>
              !NoCacheRequested(req) && GetPathConfig(inst.pathsConfig, CleanPath(req.path), matches).None?
    ensures r == Bypass(MethodNotAllowed) <==>
              !NoCacheRequested(req) && GetPathConfig(inst.pathsConfig, CleanPath(req.path), matches).Some?
              && req.httpMethod !in GetPathConfig(inst.pathsConfig, CleanPath(req.path), matches).value.methods
    ensures r.Cacheable? ==>
              && Some(r.config) == GetPathConfig(inst.pathsConfig, CleanPath(req.path), matches)
              && req.httpMethod in r.config.methods
              && r.key == RedisKey(inst.redisKeyPrefix, req, hash)
  {
    if NoCacheRequested(req) then Bypass(NoCacheHeader)
    else
      match GetPathConfig(inst.pathsConfig, CleanPath(req.path), matches)
      case None => Bypass(NoPathConfig)
      case Some(config) =>
        if req.httpMethod !in config.methods then Bypass(MethodNotAllowed)
        else Cacheable(config, RedisKey(inst.redisKeyPrefix, req, hash))
  }

  /**
   * The whole interceptor for one request. `stored` is what `get(key)`
   * returns; `parse` stands for `JSON.parse`. `next` is called exactly when
   * the store has no truthy value for a cacheable request or the request is
   * bypassed, and the store is consulted exactly when the request is cacheable.
   */
  function Interceptor(inst: Kumbukumbu, req: Request, stored: Option<string>,
                       matches: (string, string) -> bool, hash: HashInput -> string,
                       parse: string -> CachedEntry): (effects: seq<Effect>)
    ensures NextCount(effects) == if RouteRequest(inst, req, matches, hash).Cacheable? && IsHit(stored) then 0 else 1
    ensures ConsultsStore(effects) <==> RouteRequest(inst, req, matches, hash).Cacheable?
  {
    match RouteRequest(inst, req, matches, hash)
    case Bypass(_) => [CallNext]
    case Cacheable(config, key) =>
      if IsHit(stored) then
        var entry := parse(stored.value);
        assert [StoreGet(key), SetHeader("content-type", entry.contentType), Send(entry.body)][0].StoreGet?;
        [StoreGet(key), SetHeader("content-type", entry.contentType), Send(entry.body)]
      else
        assert [StoreGet(key), ArmCapture(key, config.ttl), CallNext][0].StoreGet?;
        [StoreGet(key), ArmCapture(key, config.ttl), CallNext]
  }

  /** A bypassed request only calls `next`: no lookup, no header, no body, no capture. */
  lemma BypassOnlyCallsNext(inst: Kumbukumbu, req: Request, stored: Option<string>,
                            matches: (string, string) -> bool, hash: HashInput -> string,
                            parse: string -> CachedEntry)
    requires NoCacheRequested(req)
             || GetPathConfig(inst.pathsConfig, CleanPath(req.path), matches).None?
             || req.httpMethod !in GetPathConfig(inst.pathsConfig, CleanPath(req.path), matches).value.methods
    ensures Interceptor(inst, req, stored, matches, hash, parse) == [CallNext]
  {
  }

  /**
   * A hit looks the key up, sets the stored content type as the
   * `content-type` header and sends the stored body; `next` is not called.
   */
  lemma HitReplays(inst: Kumbukumbu, req: Request, stored: Option<string>,
                   matches: (string, string) -> bool, hash: HashInput -> string,
                   parse: string -> CachedEntry)
    requires RouteRequest(inst, req, matches, hash).Cacheable? && IsHit(stored)
    ensures var key, entry := RouteRequest(inst, req, matches, hash).key, parse(stored.value);
            Interceptor(inst, req, stored, matches, hash, parse)
            == [StoreGet(key), SetHeader("content-type", entry.contentType), Send(entry.body)]
  {
  }

  /** A miss looks the key up, arms capture with the key and the rule's ttl, then calls `next` once. */
  lemma MissArmsCapture(inst: Kumbukumbu, req: Request, stored: Option<string>,
                        matches: (string, string) -> bool, hash: HashInput -> string,
                        parse: string -> CachedEntry)
    requires RouteRequest(inst, req, matches, hash).Cacheable? && !IsHit(stored)
    ensures var r := RouteRequest(inst, req, matches, hash);
            Interceptor(inst, req, stored, matches, hash, parse) == [StoreGet(r.key), ArmCapture(r.key, r.config.ttl), CallNext]
  {
  }

  /** A stored empty string is falsy, so it is handled exactly like a missing value. */
  lemma EmptyStoredValueIsMiss(inst: Kumbukumbu, req: Request,
                               matches: (string, string) -> bool, hash: HashInput -> string,
                               parse: string -> CachedEntry)
    ensures Interceptor(inst, req, Some(""), matches, hash, parse) == Interceptor(inst, req, None, matches, hash, parse)
  {
  }

  /** Trailing slashes change nothing: the rule, the key and so every effect are those of the cleaned path. */
  lemma InterceptorIgnoresTrailingSlashes(inst: Kumbukumbu, req: Request, k: nat, stored: Option<string>,
                                          matches: (string, string) -> bool, hash: HashInput -> string,
                                          parse: string -> CachedEntry)
    ensures Interceptor(inst, WithPath(req, req.path + Slashes(k)), stored, matches, hash, parse)
            == Interceptor(inst, req, stored, matches, hash, parse)
  {
    CleanPathIgnoresTrailingSlashes(req.path, k);
    KeyIgnoresTrailingSlashes(inst.redisKeyPrefix, req, k, hash);
  }

  /**
   * Round trip: when a captured response was stored under a request's key,
   * the same request is later answered from the store with the captured
   * content type and body, provided `parse` undoes `serialize` and a
   * serialized record is never the empty string.
   */
  lemma ReplayRoundTrip(inst: Kumbukumbu, req: Request, p: PendingStore, statusCode: int,
                        contentType: Option<string>, goodCodes: seq<int>,
                        matches: (string, string) -> bool, hash: HashInput -> string,
                        serialize: CachedEntry -> string, parse: string -> CachedEntry)
    requires forall e :: parse(serialize(e)) == e
    requires forall e :: serialize(e) != ""
    requires RouteRequest(inst, req, matches, hash).Cacheable?
    requires p.key == RouteRequest(inst, req, matches, hash).key
    requires IsGoodHttpCode(statusCode, goodCodes)
    ensures var stored := Decide(p, statusCode, contentType, goodCodes, serialize);
            && stored.Some? && stored.value.key == p.key
            && Interceptor(inst, req, Some(stored.value.value), matches, hash, parse)
               == [StoreGet(p.key), SetHeader("content-type", contentType), Send(p.body)]
  {
    var stored := Decide(p, statusCode, contentType, goodCodes, serialize);
    assert parse(stored.value.value) == CachedEntry(contentType, p.body);
  }

  /**
   * `goodCodes` is shared: a code added by a later construction makes a
   * decision still pending for an earlier instance store a response with
   * that status.
   */
  lemma LaterConstructionWidensPendingDecision(p: PendingStore, statusCode: int, contentType: Option<string>,
                                               codes: seq<int>, o: Options, serialize: CachedEntry -> string)
    requires AddsCode(o, statusCode)
    ensures Decide(p, statusCode, contentType, ExtendGoodCodes(codes, o), serialize).Some?
  {
  }

  /** A response whose status is not good is never stored, whatever it contains. */
  lemma BadStatusNeverStored(p: PendingStore, statusCode: int, contentType: Option<string>,
                             goodCodes: seq<int>, serialize: CachedEntry -> string)
    requires statusCode !in goodCodes
    ensures Decide(p, statusCode, contentType, goodCodes, serialize) == None
  {
  }
}
