/**
 * The cache key of lib/kumbukumbu.js:79-95:
 * `{prefix}:{cleaned path with '/' as ':'}:{lower-case method}`, then
 * `:{hash({query})}` when the query has keys, then `:{hash({body})}` when
 * the method is POST and the body has keys. The hash is a parameter.
 */
module CacheKey {
  import opened Helpers

  /** The parts of an Express request the interceptor reads. */
  datatype Request = Request(
    httpMethod: string,
    path: string,
    headers: map<string, string>,
    query: map<string, string>,
    body: map<string, string>)

  /** The two objects that are hashed: `{query: req.query}` and `{body: req.body}`. */
  datatype HashInput = QueryObject(query: map<string, string>) | BodyObject(body: map<string, string>)

  /** The part of the key that every cacheable request has. */
  function BaseKey(prefix: string, path: string, httpMethod: string): (r: string)
    ensures |r| == |prefix| + |CleanPath(path)| + |httpMethod| + 2
  {
    prefix + ":" + ReplaceSlashes(CleanPath(path)) + ":" + Lower(httpMethod)
  }

  /** The query segment: present exactly when the query has at least one key. */
  function QuerySegment(req: Request, hash: HashInput -> string): (r: string)
    ensures r != "" <==> |req.query| > 0
  {
    if |req.query| > 0 then ":" + hash(QueryObject(req.query)) else ""
  }

  /** The body segment: present exactly for a POST whose body has at least one key. */
  function BodySegment(req: Request, hash: HashInput -> string): (r: string)
    ensures r != "" <==> req.httpMethod == "POST" && |req.body| > 0
  {
    if req.httpMethod == "POST" && |req.body| > 0 then ":" + hash(BodyObject(req.body)) else ""
  }

  /** The key in the order the source builds it. */
  function RedisKey(prefix: string, req: Request, hash: HashInput -> string): (r: string)
    ensures BaseKey(prefix, req.path, req.httpMethod) <= r
    ensures r[..|prefix| + 1] == prefix + ":"
  {
    BaseKey(prefix, req.path, req.httpMethod) + QuerySegment(req, hash) + BodySegment(req, hash)
  }

  /** A request with its path replaced. */
  function WithPath(req: Request, path: string): Request {
    req.(path := path)
  }

  /** Lengths pin the shape: the key is exactly the base when there is no query and no POST body. */
  lemma KeyIsBaseExactly(prefix: string, req: Request, hash: HashInput -> string)
    ensures RedisKey(prefix, req, hash) == BaseKey(prefix, req.path, req.httpMethod)
            <==> |req.query| == 0 && !(req.httpMethod == "POST" && |req.body| > 0)
  {
    var b := BaseKey(prefix, req.path, req.httpMethod);
    var q := QuerySegment(req, hash);
    var d := BodySegment(req, hash);
    assert |b + q + d| == |b| + |q| + |d|;
    if |req.query| == 0 && !(req.httpMethod == "POST" && |req.body| > 0) {
      assert q == "" && d == "";
      assert b + q + d == b;
    }
  }

  /** Paths that differ only by trailing slashes get the same key. */
  lemma KeyIgnoresTrailingSlashes(prefix: string, req: Request, k: nat, hash: HashInput -> string)
    ensures RedisKey(prefix, WithPath(req, req.path + Slashes(k)), hash) == RedisKey(prefix, req, hash)
  {
    CleanPathIgnoresTrailingSlashes(req.path, k);
  }

  /** Only POST bodies take part: for any other method the body does not change the key. */
  lemma KeyIgnoresNonPostBody(prefix: string, req: Request, body: map<string, string>, hash: HashInput -> string)
    requires req.httpMethod != "POST"
    ensures RedisKey(prefix, req.(body := body), hash) == RedisKey(prefix, req, hash)
  {
  }

  /** Cancelling a common prefix and a common suffix. */
  lemma CancelPrefixSuffix(b: string, x: string, y: string, d: string)
    ensures b + x + d == b + y + d <==> x == y
  {
    if b + x + d == b + y + d {
      assert |x| == |y|;
      assert x == (b + x + d)[|b|..|b| + |x|];
      assert y == (b + y + d)[|b|..|b| + |y|];
    }
  }

  /**
   * Two requests that differ only in a non-empty query get the same key
   * exactly when the hash gives the same value for their query objects.
   */
  lemma KeySensitiveToQuery(prefix: string, req: Request, q1: map<string, string>, q2: map<string, string>,
                            hash: HashInput -> string)
    requires |q1| > 0 && |q2| > 0
    ensures RedisKey(prefix, req.(query := q1), hash) == RedisKey(prefix, req.(query := q2), hash)
            <==> hash(QueryObject(q1)) == hash(QueryObject(q2))
  {
    var r1, r2 := req.(query := q1), req.(query := q2);
    var b := BaseKey(prefix, req.path, req.httpMethod);
    var d := BodySegment(req, hash);
    assert BodySegment(r1, hash) == d && BodySegment(r2, hash) == d;
    CancelPrefixSuffix(b, QuerySegment(r1, hash), QuerySegment(r2, hash), d);
    CancelPrefixSuffix("", hash(QueryObject(q1)), hash(QueryObject(q2)), "");
    assert QuerySegment(r1, hash) == QuerySegment(r2, hash) <==> hash(QueryObject(q1)) == hash(QueryObject(q2)) by {
      CancelPrefixSuffix(":", hash(QueryObject(q1)), hash(QueryObject(q2)), "");
    }
  }

  /**
   * Two POST requests that differ only in a non-empty body get the same key
   * exactly when the hash gives the same value for their body objects.
   */
  lemma KeySensitiveToPostBody(prefix: string, req: Request, d1: map<string, string>, d2: map<string, string>,
                               hash: HashInput -> string)
    requires req.httpMethod == "POST" && |d1| > 0 && |d2| > 0
    ensures RedisKey(prefix, req.(body := d1), hash) == RedisKey(prefix, req.(body := d2), hash)
            <==> hash(BodyObject(d1)) == hash(BodyObject(d2))
  {
    var r1, r2 := req.(body := d1), req.(body := d2);
    var bq := BaseKey(prefix, req.path, req.httpMethod) + QuerySegment(req, hash);
    assert BaseKey(prefix, r1.path, r1.httpMethod) + QuerySegment(r1, hash) == bq;
    assert BaseKey(prefix, r2.path, r2.httpMethod) + QuerySegment(r2, hash) == bq;
    CancelPrefixSuffix(bq, BodySegment(r1, hash), BodySegment(r2, hash), "");
    CancelPrefixSuffix(":", hash(BodyObject(d1)), hash(BodyObject(d2)), "");
    assert bq + BodySegment(r1, hash) + "" == bq + BodySegment(r1, hash);
    assert bq + BodySegment(r2, hash) + "" == bq + BodySegment(r2, hash);
    assert ":" + hash(BodyObject(d1)) + "" == ":" + hash(BodyObject(d1));
    assert ":" + hash(BodyObject(d2)) + "" == ":" + hash(BodyObject(d2));
  }

  /** A request with a non-empty query never shares a key with the same request without one. */
  lemma QueryPresenceChangesKey(prefix: string, req: Request, q: map<string, string>, hash: HashInput -> string)
    requires |q| > 0
    ensures RedisKey(prefix, req.(query := q), hash) != RedisKey(prefix, req.(query := map[]), hash)
  {
    var r1, r2 := req.(query := q), req.(query := map[]);
    assert |QuerySegment(r1, hash)| >= 1 && QuerySegment(r2, hash) == "";
    assert BodySegment(r1, hash) == BodySegment(r2, hash);
  }

  /**
   * The separator is not escaped: a ':' in a path and a '/' in the same
   * place give the same key, so `/a:b` and `/a/b` share a cache entry.
   */
  lemma ColonAndSlashCollide(hash: HashInput -> string)
    ensures RedisKey("CACHE", Request("GET", "/a:b", map[], map[], map[]), hash)
            == RedisKey("CACHE", Request("GET", "/a/b", map[], map[], map[]), hash)
    ensures CleanPath("/a:b") != CleanPath("/a/b")
  {
    assert CleanPath("/a:b") == "/a:b";
    assert CleanPath("/a/b") == "/a/b";
    assert ReplaceSlashes("/a:b") == ReplaceSlashes("/a/b");
  }
}
