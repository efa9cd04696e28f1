/**
 * The `Kumbukumbu` constructor: option validation, the fixed prefixes and
 * its effect on the module-level `goodCodes` list, which is shared by every
 * instance built from the same loaded module.
 */
module Construction {
  import opened Wrappers
  import opened Helpers

  /** A store client as far as the constructor inspects it: are `get` and `set` functions? */
  datatype StoreClient = StoreClient(getIsFunction: bool, setIsFunction: bool)

  /**
   * The options object. A missing or falsy property is `None`;
   * `statusCodes` is `Some` only when it is an array.
   */
  datatype Options = Options(
    redisClient: Option<StoreClient>,
    pathsConfig: Option<seq<PathConfig>>,
    statusCodes: Option<seq<int>>,
    logScope: Option<string>,
    redisKeyPrefix: Option<string>)

  /** The three errors the constructor throws. */
  datatype ConfigError = RedisClientUndefined | NotARedisClient | PathsConfigUndefined

  /** What a constructed instance keeps and later reads. */
  datatype Kumbukumbu = Kumbukumbu(pathsConfig: seq<PathConfig>, logScope: string, redisKeyPrefix: string)

  /** `'CACHE' || x` is always `'CACHE'`: the option never takes effect. */
  const Prefix: string := "CACHE"

  /**
   * The constructor's checks in source order. It throws exactly when the
   * client is missing, when `get` or `set` is not a function, or when the
   * rules are missing, and the first failing check names the error.
   * Otherwise the prefix and log scope are `"CACHE"` whatever the options say.
   */
  function Construct(o: Options): (r: Result<Kumbukumbu, ConfigError>)
    ensures r == Failure(RedisClientUndefined) <==> o.redisClient.None?
    ensures r == Failure(NotARedisClient) <==>
              o.redisClient.Some? && !(o.redisClient.value.getIsFunction && o.redisClient.value.setIsFunction)
    ensures r == Failure(PathsConfigUndefined) <==>
              o.redisClient.Some? && o.redisClient.value.getIsFunction && o.redisClient.value.setIsFunction
              && o.pathsConfig.None?
    ensures r.Success? ==> r.value == Kumbukumbu(o.pathsConfig.value, "CACHE", "CACHE")
  {
    if o.redisClient.None? then Failure(RedisClientUndefined)
    else if !o.redisClient.value.getIsFunction || !o.redisClient.value.setIsFunction then Failure(NotARedisClient)
    else if o.pathsConfig.None? then Failure(PathsConfigUndefined)
    else Success(Kumbukumbu(o.pathsConfig.value, Prefix, Prefix))
  }

  /** Membership in the list extended by `o`, for every code at once. */
  lemma ExtendMembership(codes: seq<int>, o: Options)
    requires Construct(o).Success? && o.statusCodes.Some?
    ensures forall c :: IsGoodHttpCode(c, codes + o.statusCodes.value) <==> IsGoodHttpCode(c, codes) || AddsCode(o, c)
  {
    forall c ensures IsGoodHttpCode(c, codes + o.statusCodes.value) <==> IsGoodHttpCode(c, codes) || AddsCode(o, c) {
      IsGoodHttpCodeConcat(c, codes, o.statusCodes.value);
    }
  }

  /**
   * `goodCodes` after one constructor call with options `o`: the old list
   * stays a prefix, a throw leaves it as it was, and a code becomes good
   * only if it was good or the call supplied it.
   */
  function ExtendGoodCodes(codes: seq<int>, o: Options): (r: seq<int>)
    ensures codes <= r
    ensures Construct(o).Failure? ==> r == codes
    ensures forall c :: IsGoodHttpCode(c, r) <==> IsGoodHttpCode(c, codes) || AddsCode(o, c)
  {
    if Construct(o).Success? && o.statusCodes.Some? then
      ExtendMembership(codes, o);
      codes + o.statusCodes.value
    else codes
  }

  /** `goodCodes` after a series of constructor calls, in order. */
  function CodesAfter(codes: seq<int>, os: seq<Options>): seq<int>
    decreases |os|
  {
    if os == [] then codes else ExtendGoodCodes(CodesAfter(codes, os[..|os| - 1]), os[|os| - 1])
  }

  /** Whether constructing with `o` succeeds and adds a code list containing `code`. */
  predicate AddsCode(o: Options, code: int) {
    Construct(o).Success? && o.statusCodes.Some? && code in o.statusCodes.value
  }

  /**
   * Extensions accumulate: after any series of constructions a code is good
   * exactly when it was good before or some successful construction, failed
   * ones excluded, supplied it.
   */
  lemma {:induction false} CodesAccumulate(codes: seq<int>, os: seq<Options>, code: int)
    ensures IsGoodHttpCode(code, CodesAfter(codes, os)) <==>
              IsGoodHttpCode(code, codes) || exists i :: 0 <= i < |os| && AddsCode(os[i], code)
    decreases |os|
  {
    if os != [] {
      var init := os[..|os| - 1];
      var last := os[|os| - 1];
      CodesAccumulate(codes, init, code);
      if exists i :: 0 <= i < |os| && AddsCode(os[i], code) {
        var i :| 0 <= i < |os| && AddsCode(os[i], code);
        if i < |os| - 1 {
          assert init[i] == os[i];
        }
      }
      if exists i :: 0 <= i < |init| && AddsCode(init[i], code) {
        var i :| 0 <= i < |init| && AddsCode(init[i], code);
        assert os[i] == init[i];
      }
    }
  }

  /** No construction ever removes a code: the earlier list is a prefix of the later one. */
  lemma {:induction false} CodesOnlyGrow(codes: seq<int>, os: seq<Options>)
    ensures codes <= CodesAfter(codes, os)
    decreases |os|
  {
    if os != [] {
      CodesOnlyGrow(codes, os[..|os| - 1]);
    }
  }

  /** The loaded module: it owns the mutable `goodCodes` list. */
  class ModuleState {
    var goodCodes: seq<int>

    /** Loading the module sets `goodCodes` to its initial value. */
    constructor ()
      ensures goodCodes == DefaultGoodCodes
    {
      goodCodes := DefaultGoodCodes;
    }

    /**
     * `new Kumbukumbu(options)`: the checks in order, then
     * `goodCodes = goodCodes.concat(options.statusCodes)` when it is an array.
     * A throw leaves `goodCodes` as it was.
     */
    method New(o: Options) returns (r: Result<Kumbukumbu, ConfigError>)
      modifies this
      ensures r == Construct(o)
      ensures goodCodes == ExtendGoodCodes(old(goodCodes), o)
    {
      if o.redisClient.None? {
        return Failure(RedisClientUndefined);
      }
      if !o.redisClient.value.getIsFunction || !o.redisClient.value.setIsFunction {
        return Failure(NotARedisClient);
      }
      if o.pathsConfig.None? {
        return Failure(PathsConfigUndefined);
      }
      if o.statusCodes.Some? {
        goodCodes := goodCodes + o.statusCodes.value;
      }
      r := Success(Kumbukumbu(o.pathsConfig.value, Prefix, Prefix));
    }
  }
}
