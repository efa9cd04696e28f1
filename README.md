# kumbukumbu: a Dafny model of the response-caching interceptor

kumbukumbu is an Express middleware that caches responses in Redis. When a
request matches a configured rule (a regular expression on the path, a list
of allowed methods and a TTL), the middleware builds a key from the path,
the method, the query and, for POST, the body, and asks Redis for it. On a
hit it sends the stored content type and body and never calls `next`. On a
miss it replaces `res.write` and `res.end` with a capturing closure and
calls `next`. When the response ends, it schedules one decision: store
`{contentType, body}` with the rule's TTL if the status code is in the
module-wide `goodCodes` list, and skip otherwise.

The model, one module per component of `lib/kumbukumbu.js`:

- `Helpers` (helpers.dfy) holds `cleanPath`, `getPathConfig` (first match in
  list order), `isGoodHttpCode`, the initial `goodCodes`, and the string
  steps of the key: `/` → `:` and ASCII lower-casing.
- `Construction` (construction.dfy) holds the constructor's checks as the
  function `Construct`. The loaded module is the class `ModuleState`, whose
  field `goodCodes` is the shared list. Its method `New` runs the checks and
  appends `statusCodes`. `CodesAfter` folds `New` over a series of
  constructions, and `CodesAccumulate` says what the shared list then contains.
- `CacheKey` (cache_key.dfy) holds the key
  `CACHE:<cleaned path, '/' as ':'>:<method>[:<hash({query})>][:<hash({body})>]`
  and its properties.
- `Capture` (capture.dfy) holds the capturing closure as the class
  `ResponseCapture`. Its fields are `isFirstWrite`, `isIntercepting`,
  `chunks`, a log of the calls that reach the original `write` and `end`,
  and the store decisions scheduled with `process.nextTick`. A ghost history
  of calls ties every field to a function of that history (`Buffered`,
  `Forwarded`, `Scheduled`), and lemmas about those functions state the
  promises. `Decide` is the deferred store-or-skip decision.
- `Interceptor` (interceptor.dfy) holds the decision for one request:
  bypass, lookup, replay or arm. `Interceptor` returns the effects in order
  (`next`, `get`, `setHeader`, `send`, arming capture).

Three outside facts are inputs to the model:

- The value Redis returns for the key.
- The status code and the `content-type` header when the decision runs.
- The shared `goodCodes` list as it stands at that moment.

The collaborators the code calls but does not define are function-typed
parameters:

- `matches` for `RegExp(pattern).test(path)`.
- `hash` for `object-hash`.
- `encode` for `Buffer.from(string[, encoding])`.
- `decode` for `toString('utf-8')`.
- `serialize` and `parse` for `JSON.stringify` and `JSON.parse`.

The model follows the code in these places, where its behaviour may be
unexpected:

- An invalid rule pattern is not rejected by the constructor. `RegExp` is
  built on every request inside `getPathConfig`.
- The status-code list is one module-level list. Every construction with an
  array `statusCodes` appends to it. A decision reads the list when it runs,
  so codes added by a later instance also apply to an earlier instance
  (`Interceptor.LaterConstructionWidensPendingDecision`).
- `redisKeyPrefix` and `logScope` are ignored: `'CACHE' || option` is always
  `'CACHE'`.
- The key does not escape `:`. A path segment containing `:` can collide with
  a path that has `/` in the same place (`CacheKey.ColonAndSlashCollide`), so
  not every difference in the path gives a different key.
- Capture does not preserve delivery:
  - While capturing, chunks passed to `res.write` are buffered and never
    reach the original `write`.
  - The original `end` receives only the `end` call's own arguments.
  - After `end`, `res.write` applies the original `write` with no arguments,
    which drops the chunk.
  - `Capture.WrittenChunkNotDelivered` exhibits the first two points.

## Model

| member | source | states |
|---|---|---|
| `Helpers.CleanPath` | lib/kumbukumbu.js:17-20 | the result is a prefix of the path, every character cut off is `/`, and the result does not end in `/` |
| `Helpers.CleanPathDecomposes` | lib/kumbukumbu.js:17-20 | a path equals its cleaned form followed by slashes only |
| `Helpers.CleanPathIdempotent` | lib/kumbukumbu.js:17-20 | cleaning twice is cleaning once |
| `Helpers.CleanPathIgnoresTrailingSlashes` | lib/kumbukumbu.js:17-20 | appending any number of `/` does not change the cleaned path |
| `Helpers.ReplaceSlashes` | lib/kumbukumbu.js:79 | same length, each `/` becomes `:`, every other character is kept, no `/` is left |
| `Helpers.Lower` | lib/kumbukumbu.js:79 | same length, each character lower-cased, no upper-case ASCII letter left |
| `Helpers.FirstMatch` | lib/kumbukumbu.js:22-27 | the index of a matching rule with no matching rule before it; none exactly when no rule matches |
| `Helpers.GetPathConfig` | lib/kumbukumbu.js:22-27 | the first rule in list order whose pattern matches; none exactly when no rule matches |
| `Helpers.IsGoodHttpCode` | lib/kumbukumbu.js:13-15 | a code is good exactly when some position of the list holds it |
| `Helpers.IsGoodHttpCodeConcat` | lib/kumbukumbu.js:13-15 | a code is good in a concatenated list exactly when it is good in one of the parts |
| `Helpers.DefaultGoodCodesAre` | lib/kumbukumbu.js:6-15 | under the initial list exactly 200, 201, 202 and 204 are good |
| `Construction.Construct` | lib/kumbukumbu.js:30-53 | throws exactly in the three cases, with the error of the first failing check in source order; otherwise keeps the rules and uses `CACHE` as prefix and log scope |
| `Construction.ModuleState.constructor` | lib/kumbukumbu.js:6-11 | the shared list starts as 200, 201, 202, 204 |
| `Construction.ModuleState.New` | lib/kumbukumbu.js:30-57 | returns what `Construct` returns; appends an array `statusCodes` after a successful check and leaves the list alone on a throw |
| `Construction.ExtendGoodCodes` | lib/kumbukumbu.js:54-56 | one construction keeps the old list as a prefix, leaves it unchanged on a throw, and makes a code good only if it was good or the call supplied it |
| `Construction.CodesAccumulate` | lib/kumbukumbu.js:54-56 | after any series of constructions a code is good exactly when it was good before or a successful construction supplied it |
| `Construction.CodesOnlyGrow` | lib/kumbukumbu.js:54-56 | constructions only append: the earlier list is a prefix of the later one |
| `CacheKey.BaseKey` | lib/kumbukumbu.js:79 | the base key's length is the prefix, cleaned path and method plus two separators |
| `CacheKey.QuerySegment` | lib/kumbukumbu.js:81-87 | the query segment is present exactly when the query has keys |
| `CacheKey.BodySegment` | lib/kumbukumbu.js:89-95 | the body segment is present exactly for a POST whose body has keys |
| `CacheKey.RedisKey` | lib/kumbukumbu.js:79-95 | the key starts with the base key and with `prefix:` |
| `CacheKey.KeyIsBaseExactly` | lib/kumbukumbu.js:79-95 | the key is exactly the base when there is no query and no POST body, and longer otherwise |
| `CacheKey.KeyIgnoresTrailingSlashes` | lib/kumbukumbu.js:79 | paths differing only in trailing slashes get the same key |
| `CacheKey.KeyIgnoresNonPostBody` | lib/kumbukumbu.js:89-95 | for a method other than POST the body does not affect the key |
| `CacheKey.KeySensitiveToQuery` | lib/kumbukumbu.js:81-87 | with non-empty queries and all else equal, keys are equal exactly when the query hashes are |
| `CacheKey.KeySensitiveToPostBody` | lib/kumbukumbu.js:89-95 | for POST with non-empty bodies and all else equal, keys are equal exactly when the body hashes are |
| `CacheKey.QueryPresenceChangesKey` | lib/kumbukumbu.js:81-87 | a request with a non-empty query never shares its key with the same request without one |
| `CacheKey.ColonAndSlashCollide` | lib/kumbukumbu.js:79 | `/a:b` and `/a/b` clean to different paths yet get the same key |
| `Capture.Truthy` | lib/kumbukumbu.js:130 | a chunk is kept unless it is missing or the empty string; a Buffer is always kept |
| `Capture.ToBytes` | lib/kumbukumbu.js:131-138 | a Buffer is pushed unchanged, a string is converted with its encoding |
| `Capture.Flatten` | lib/kumbukumbu.js:157 | the concatenation is empty for no chunks, is the chunk itself for one, and is never shorter than any chunk |
| `Capture.FlattenAppend` | lib/kumbukumbu.js:157 | concatenating two buffer lists concatenates their bytes |
| `Capture.BufferedIsWindowChunks` | lib/kumbukumbu.js:122-144 | the buffered chunks are exactly the truthy chunks, converted and in call order, of the calls up to and including the first `end` |
| `Capture.NothingBufferedAfterEnd` | lib/kumbukumbu.js:155-156 | once `end` has been called, no later call adds to the buffer |
| `Capture.NothingForwardedWhileCapturing` | lib/kumbukumbu.js:146-150 | before any `end`, nothing reaches the original `write` or `end` |
| `Capture.EveryEndForwardedOnce` | lib/kumbukumbu.js:152-185 | the calls reaching the original `end` are exactly the `end` calls, once each, in order, with their own arguments |
| `Capture.AtMostOneDecision` | lib/kumbukumbu.js:155-159 | exactly one store decision is scheduled once `end` has been called, none before |
| `Capture.WrittenChunkNotDelivered` | lib/kumbukumbu.js:146-157 | a chunk written while capturing is buffered but the original methods see only the `end` call's arguments |
| `Capture.ResponseCapture.constructor` | lib/kumbukumbu.js:116-120 | arming starts with the first-write flag set, capturing off, nothing buffered, forwarded or scheduled |
| `Capture.ResponseCapture.CurrentPhase` | lib/kumbukumbu.js:119-126 | the flags encode idle exactly before the first call, and finalized exactly after an `end` |
| `Capture.ResponseCapture.Intercept` | lib/kumbukumbu.js:122-144 | the first call turns capturing on; while capturing a truthy chunk is converted and appended; the result says whether capturing is on |
| `Capture.ResponseCapture.Write` | lib/kumbukumbu.js:146-150 | buffers while capturing without forwarding; after `end` forwards an argument-less original write; the invariant tying the state to the history is kept |
| `Capture.ResponseCapture.End` | lib/kumbukumbu.js:152-185 | forwards the original `end` once; the first `end` while capturing switches capture off and schedules one decision with the decoded body; the invariant is kept |
| `Capture.Decide` | lib/kumbukumbu.js:159-180 | stores exactly when the status is in the list, under the pending key, with mode `EX`, the rule's ttl and the serialized `{contentType, body}` |
| `Interceptor.NoCacheRequested` | lib/kumbukumbu.js:60 | the bypass header test holds exactly when `cache-control` is present and is exactly `no-cache` |
| `Interceptor.IsHit` | lib/kumbukumbu.js:107 | a stored value is a hit exactly when it is present and not the empty string |
| `Interceptor.EmptyStoredValueIsMiss` | lib/kumbukumbu.js:104-107 | a stored empty string produces exactly the effects of a missing value |
| `Interceptor.RouteRequest` | lib/kumbukumbu.js:60-95 | bypasses for the `no-cache` header, then for no matching rule, then for a method the rule does not allow, each exactly in its case; otherwise the first matching rule and the request's key |
| `Interceptor.Interceptor` | lib/kumbukumbu.js:59-198 | `next` is called once unless a cacheable request hits, and then never; the store is consulted exactly for cacheable requests |
| `Interceptor.BypassOnlyCallsNext` | lib/kumbukumbu.js:60-77 | a bypassed request only calls `next` |
| `Interceptor.HitReplays` | lib/kumbukumbu.js:190-197 | a hit looks the key up, sets the stored content type as `content-type` and sends the stored body |
| `Interceptor.MissArmsCapture` | lib/kumbukumbu.js:104-187 | a miss looks the key up, arms capture with the key and the rule's ttl, then calls `next` |
| `Interceptor.InterceptorIgnoresTrailingSlashes` | lib/kumbukumbu.js:65-79 | a request and its trailing-slash variants produce identical effects |
| `Interceptor.ReplayRoundTrip` | lib/kumbukumbu.js:159-197 | a stored captured response is replayed with the captured content type and body when the same request comes again |
| `Interceptor.LaterConstructionWidensPendingDecision` | lib/kumbukumbu.js:167 | a code added by a later construction makes a pending decision store a response with that status |
| `Interceptor.BadStatusNeverStored` | lib/kumbukumbu.js:167-179 | a status outside the list is never stored |

## Left out

- Redis I/O: `get`, `set` and `del` are not performed. The value `get` returns is an input, and `set` is the value `Decide` returns.
- `clearCache` (lib/kumbukumbu.js:200-202) is a single `del('CACHE:*')` on the store and is not modelled.
- `async`/`await` and `process.nextTick` are not modelled. A scheduled decision is a `PendingStore` value, resolved explicitly by `Decide`. Errors from the deferred `set` are not modelled either.
- A rejected `get` (lib/kumbukumbu.js:104) and a `JSON.parse` error (lib/kumbukumbu.js:194) are not modelled: `stored` is an optional string and `parse` is total. The source lets both propagate out of the async interceptor; it does not fail open.
- Regular-expression compilation and matching are the parameter `matches`, which is total, so an invalid pattern throwing at request time is not modelled.
- `object-hash` is the parameter `hash`. Its canonical ordering of keys is not claimed.
- `parse-duration` and the division by 1000: the rule's duration string is passed through as the TTL.
- `parse-headers` and `res._header`: the content type is an optional input to `Decide`.
- `Buffer.from` encodings and UTF-8 decoding are the parameters `encode` and `decode`. A string chunk with encoding `'buffer'` is pushed unconverted by the source, which would make `Buffer.concat` throw. The model converts it through `encode` instead.
- JavaScript truthiness is modelled for chunks (missing, `''` and Buffers) and for the stored value (missing or `''`). Numbers, and other non-string, non-Buffer chunks, are not.
- Query and body values are strings. Whether their maps are empty stands for `Object.keys(...).length`. A non-object body is not modelled.
- Helpers.Lower: lower-cases ASCII letters only, not the full Unicode mapping of `toLowerCase`.
- Rule lists and method lists are sequences. lodash's handling of non-array collections (substring search on a string `methods`, iteration over an object `pathsConfig`) is not modelled.
- Construction.Construct: the options object itself is assumed present. Reading `options.logger` from a missing options object throws in the source.
- Logging and the mechanics of Express's `res.send` and `res.setHeader` are recorded as effects only.
- Capture.EveryEndForwardedOnce: `res.end` forwards its whole `arguments` object, a callback included. The model records only the chunk and the encoding, so extra `end` arguments are not modelled.
- Interceptor.ReplayRoundTrip: a response captured without a content type replays as `setHeader('content-type', undefined)`, which Node rejects by throwing. A cached 204 is the usual case. The model records the call and does not model that throw.
- The original `write` and `end` are recorded as calls. What they do with the socket is not modelled.
