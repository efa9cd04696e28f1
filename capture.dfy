/**
 * The capture closure of lib/kumbukumbu.js:116-185: `isFirstWrite`,
 * `isIntercepting` and `chunks`, the replaced `res.write` and `res.end`,
 * what reaches the original write and end, and the deferred store
 * decision. The class is specified against functions of the history of
 * calls made on the response.
 */
module Capture {
  import opened Wrappers
  import opened Helpers

  newtype byte = x: int | 0 <= x < 256

  /** A chunk argument: missing (`undefined` / `null`), a string, or a Buffer. */
  datatype Chunk = Absent | Text(text: string) | Bytes(bytes: seq<byte>)

  /** A call made by the downstream handler on the wrapped response. */
  datatype Call = Write(chunk: Chunk, encoding: Option<string>) | End(chunk: Chunk, encoding: Option<string>)

  /**
   * A call that reaches the original methods. The original `write` is
   * applied with no arguments, so it carries no chunk; the original `end`
   * gets the arguments `res.end` was called with.
   */
  datatype Forward = OriginalWrite | OriginalEnd(chunk: Chunk, encoding: Option<string>)

  /** The stored record `{contentType, body}`. */
  datatype CachedEntry = CachedEntry(contentType: Option<string>, body: string)

  /** A store decision scheduled by `res.end`, with the body decoded at end time. */
  datatype PendingStore = PendingStore(key: string, ttl: string, body: string)

  /** `redisClient.set(key, value, 'EX', ttl)`; `ttl` is the rule's duration string. */
  datatype StoreSet = StoreSet(key: string, value: string, mode: string, ttl: string)

  /** JavaScript truthiness of a chunk: a missing chunk and `''` are falsy, a Buffer never is. */
  function Truthy(c: Chunk): (r: bool)
    ensures r <==> c != Absent && c != Text("")
  {
    match c
    case Absent => false
    case Text(t) => t != ""
    case Bytes(_) => true
  }

  /**
   * The bytes pushed for a truthy chunk: a Buffer as it is, a string through
   * `Buffer.from(rawChunk[, encoding])`, for which `encode` stands.
   */
  function ToBytes(c: Chunk, encoding: Option<string>, encode: (string, Option<string>) -> seq<byte>): (r: seq<byte>)
    ensures c.Bytes? ==> r == c.bytes
    ensures c.Text? ==> r == encode(c.text, encoding)
  {
    match c
    case Bytes(b) => b
    case Text(t) => encode(t, encoding)
    case Absent => []
  }

  /** `Buffer.concat`: the chunks' bytes in order; no chunk is longer than the whole. */
  function Flatten(chunks: seq<seq<byte>>): (r: seq<byte>)
    ensures chunks == [] ==> r == []
    ensures |chunks| == 1 ==> r == chunks[0]
    ensures forall i :: 0 <= i < |chunks| ==> |chunks[i]| <= |r|
    decreases |chunks|
  {
    if chunks == [] then [] else Flatten(chunks[..|chunks| - 1]) + chunks[|chunks| - 1]
  }

  /** Concatenating two buffers is concatenating their bytes. */
  lemma {:induction false} FlattenAppend(a: seq<seq<byte>>, b: seq<seq<byte>>)
    ensures Flatten(a + b) == Flatten(a) + Flatten(b)
    decreases |b|
  {
    if b == [] {
      assert a + b == a;
    } else {
      var b', last := b[..|b| - 1], b[|b| - 1];
      assert a + b == (a + b') + [last];
      assert (a + b)[..|a + b| - 1] == a + b';
      FlattenAppend(a, b');
    }
  }

  // ---------------------------------------------------------------------------
  // The history of calls, and what it determines.

  /** Whether `res.end` has been called. */
  predicate HasEnd(calls: seq<Call>) {
    exists i :: 0 <= i < |calls| && calls[i].End?
  }

  lemma HasEndAppend(calls: seq<Call>, c: Call)
    ensures HasEnd(calls + [c]) <==> HasEnd(calls) || c.End?
  {
    if HasEnd(calls) {
      var i :| 0 <= i < |calls| && calls[i].End?;
      assert (calls + [c])[i] == calls[i];
    }
    if c.End? {
      assert (calls + [c])[|calls|] == c;
    }
    if HasEnd(calls + [c]) {
      var i :| 0 <= i < |calls + [c]| && (calls + [c])[i].End?;
      if i < |calls| {
        assert calls[i] == (calls + [c])[i];
      }
    }
  }

  lemma HasEndCons(c: Call, calls: seq<Call>)
    ensures HasEnd([c] + calls) <==> c.End? || HasEnd(calls)
  {
    if HasEnd(calls) {
      var i :| 0 <= i < |calls| && calls[i].End?;
      assert ([c] + calls)[i + 1] == calls[i];
    }
    if c.End? {
      assert ([c] + calls)[0] == c;
    }
    if HasEnd([c] + calls) {
      var i :| 0 <= i < |[c] + calls| && ([c] + calls)[i].End?;
      if i > 0 {
        assert calls[i - 1] == ([c] + calls)[i];
      }
    }
  }

  /**
   * The chunks buffered by a history: a call's truthy chunk is kept when it
   * comes before any `end` or is the first `end`'s own chunk.
   */
  function Buffered(calls: seq<Call>, encode: (string, Option<string>) -> seq<byte>): seq<seq<byte>>
    decreases |calls|
  {
    if calls == [] then []
    else
      var prior, c := calls[..|calls| - 1], calls[|calls| - 1];
      Buffered(prior, encode)
      + (if !HasEnd(prior) && Truthy(c.chunk) then [ToBytes(c.chunk, c.encoding, encode)] else [])
  }

  /**
   * The calls that reach the original methods: a write only once `end` has
   * been called before it, every `end` always.
   */
  function Forwarded(calls: seq<Call>): seq<Forward>
    decreases |calls|
  {
    if calls == [] then []
    else
      var prior, c := calls[..|calls| - 1], calls[|calls| - 1];
      Forwarded(prior)
      + match c
        case Write(_, _) => if HasEnd(prior) then [OriginalWrite] else []
        case End(ch, enc) => [OriginalEnd(ch, enc)]
  }

  /** The number of store decisions scheduled: one per `end` made while capturing. */
  function Scheduled(calls: seq<Call>): nat
    decreases |calls|
  {
    if calls == [] then 0
    else
      var prior, c := calls[..|calls| - 1], calls[|calls| - 1];
      Scheduled(prior) + (if c.End? && !HasEnd(prior) then 1 else 0)
  }

  /** The calls up to and including the first `end`. */
  function Window(calls: seq<Call>): seq<Call>
    decreases |calls|
  {
    if calls == [] then []
    else if calls[0].End? then [calls[0]]
    else [calls[0]] + Window(calls[1..])
  }

  /** The converted truthy chunks of some calls, in call order. */
  function TruthyChunks(calls: seq<Call>, encode: (string, Option<string>) -> seq<byte>): seq<seq<byte>>
    decreases |calls|
  {
    if calls == [] then []
    else (if Truthy(calls[0].chunk) then [ToBytes(calls[0].chunk, calls[0].encoding, encode)] else [])
         + TruthyChunks(calls[1..], encode)
  }

  /** The `end` calls' arguments, in call order. */
  function EndCalls(calls: seq<Call>): seq<Forward>
    decreases |calls|
  {
    if calls == [] then []
    else (if calls[0].End? then [OriginalEnd(calls[0].chunk, calls[0].encoding)] else []) + EndCalls(calls[1..])
  }

  /** The forwarded calls without the forwarded writes. */
  function OnlyEnds(fw: seq<Forward>): seq<Forward>
    decreases |fw|
  {
    if fw == [] then []
    else (if fw[0].OriginalEnd? then [fw[0]] else []) + OnlyEnds(fw[1..])
  }

  lemma {:induction false} WindowAppend(calls: seq<Call>, c: Call)
    ensures Window(calls + [c]) == if HasEnd(calls) then Window(calls) else calls + [c]
    decreases |calls|
  {
    if calls == [] {
      assert !HasEnd(calls);
      assert [c][1..] == [];
    } else {
      var x, rest := calls[0], calls[1..];
      assert calls == [x] + rest;
      assert calls + [c] == [x] + (rest + [c]);
      assert (calls + [c])[1..] == rest + [c];
      HasEndCons(x, rest);
      if !x.End? {
        WindowAppend(rest, c);
      }
    }
  }

  lemma {:induction false} TruthyChunksAppend(a: seq<Call>, b: seq<Call>, encode: (string, Option<string>) -> seq<byte>)
    ensures TruthyChunks(a + b, encode) == TruthyChunks(a, encode) + TruthyChunks(b, encode)
    decreases |a|
  {
    if a == [] {
      assert a + b == b;
    } else {
      assert (a + b)[0] == a[0];
      assert (a + b)[1..] == a[1..] + b;
      TruthyChunksAppend(a[1..], b, encode);
    }
  }

  lemma {:induction false} EndCallsAppend(a: seq<Call>, b: seq<Call>)
    ensures EndCalls(a + b) == EndCalls(a) + EndCalls(b)
    decreases |a|
  {
    if a == [] {
      assert a + b == b;
    } else {
      assert (a + b)[0] == a[0];
      assert (a + b)[1..] == a[1..] + b;
      EndCallsAppend(a[1..], b);
    }
  }

  lemma {:induction false} OnlyEndsAppend(a: seq<Forward>, b: seq<Forward>)
    ensures OnlyEnds(a + b) == OnlyEnds(a) + OnlyEnds(b)
    decreases |a|
  {
    if a == [] {
      assert a + b == b;
    } else {
      assert (a + b)[0] == a[0];
      assert (a + b)[1..] == a[1..] + b;
      OnlyEndsAppend(a[1..], b);
    }
  }

  /**
   * What is buffered is exactly the truthy chunks, converted and in call
   * order, of the calls up to and including the first `end`.
   */
  lemma {:induction false} BufferedIsWindowChunks(calls: seq<Call>, encode: (string, Option<string>) -> seq<byte>)
    ensures Buffered(calls, encode) == TruthyChunks(Window(calls), encode)
    decreases |calls|
  {
    if calls != [] {
      var prior, c := calls[..|calls| - 1], calls[|calls| - 1];
      assert calls == prior + [c];
      BufferedIsWindowChunks(prior, encode);
      WindowAppend(prior, c);
      if !HasEnd(prior) {
        WindowOfEndless(prior);
        TruthyChunksAppend(prior, [c], encode);
        assert [c][1..] == [];
      }
    }
  }

  /** Before any `end`, the window is the whole history. */
  lemma {:induction false} WindowOfEndless(calls: seq<Call>)
    requires !HasEnd(calls)
    ensures Window(calls) == calls
    decreases |calls|
  {
    if calls != [] {
      assert calls == [calls[0]] + calls[1..];
      HasEndCons(calls[0], calls[1..]);
      WindowOfEndless(calls[1..]);
    }
  }

  /** Once `end` has been called, later calls buffer nothing more. */
  lemma {:induction false} NothingBufferedAfterEnd(p: seq<Call>, q: seq<Call>, encode: (string, Option<string>) -> seq<byte>)
    requires HasEnd(p)
    ensures Buffered(p + q, encode) == Buffered(p, encode)
    decreases |q|
  {
    if q == [] {
      assert p + q == p;
    } else {
      var q', c := q[..|q| - 1], q[|q| - 1];
      assert p + q == (p + q') + [c];
      assert (p + q)[..|p + q| - 1] == p + q';
      assert HasEnd(p + q') by {
        var i :| 0 <= i < |p| && p[i].End?;
        assert (p + q')[i] == p[i];
      }
      NothingBufferedAfterEnd(p, q', encode);
    }
  }

  /** As long as `end` has not been called, nothing reaches the original methods. */
  lemma {:induction false} NothingForwardedWhileCapturing(calls: seq<Call>)
    requires !HasEnd(calls)
    ensures Forwarded(calls) == []
    decreases |calls|
  {
    if calls != [] {
      var prior, c := calls[..|calls| - 1], calls[|calls| - 1];
      assert calls == prior + [c];
      HasEndAppend(prior, c);
      NothingForwardedWhileCapturing(prior);
    }
  }

  /** Every `end` call reaches the original `end` exactly once, with its own arguments, in order. */
  lemma {:induction false} EveryEndForwardedOnce(calls: seq<Call>)
    ensures OnlyEnds(Forwarded(calls)) == EndCalls(calls)
    decreases |calls|
  {
    if calls != [] {
      var prior, c := calls[..|calls| - 1], calls[|calls| - 1];
      assert calls == prior + [c];
      EveryEndForwardedOnce(prior);
      var tail := match c
        case Write(_, _) => if HasEnd(prior) then [OriginalWrite] else []
        case End(ch, enc) => [OriginalEnd(ch, enc)];
      assert Forwarded(calls) == Forwarded(prior) + tail;
      OnlyEndsAppend(Forwarded(prior), tail);
      EndCallsAppend(prior, [c]);
      assert [c][1..] == [];
      assert tail != [] ==> tail[1..] == [];
    }
  }

  /** At most one store decision per response: one once `end` has been called, none before. */
  lemma {:induction false} AtMostOneDecision(calls: seq<Call>)
    ensures Scheduled(calls) == if HasEnd(calls) then 1 else 0
    decreases |calls|
  {
    if calls != [] {
      var prior, c := calls[..|calls| - 1], calls[|calls| - 1];
      assert calls == prior + [c];
      HasEndAppend(prior, c);
      AtMostOneDecision(prior);
    }
  }

  /**
   * A chunk passed to `res.write` while capturing is buffered but never
   * delivered: the original methods see only the `end` call's own arguments.
   */
  lemma WrittenChunkNotDelivered(t: string, encode: (string, Option<string>) -> seq<byte>)
    requires t != ""
    ensures var calls := [Call.Write(Text(t), None), Call.End(Absent, None)];
            Buffered(calls, encode) == [encode(t, None)] && Forwarded(calls) == [OriginalEnd(Absent, None)]
  {
    var calls := [Call.Write(Text(t), None), Call.End(Absent, None)];
    assert calls[..1] == [Call.Write(Text(t), None)];
    assert calls[..1][..0] == [];
    assert !HasEnd(calls[..1]);
    assert !HasEnd(calls[..1][..0]);
    assert Buffered(calls[..1], encode) == [encode(t, None)];
    assert Buffered(calls, encode) == Buffered(calls[..1], encode);
    assert Forwarded(calls[..1]) == [];
    assert Forwarded(calls) == Forwarded(calls[..1]) + [OriginalEnd(Absent, None)];
  }

  // ---------------------------------------------------------------------------
  // The closure as an object.

  /** The phases of one captured response. */
  datatype Phase = Idle | Capturing | Finalized

  /**
   * The state the closure in `interceptor` owns for one response on a cache
   * miss, and the replaced `res.write` / `res.end`. `forwarded` logs the
   * calls that reach the original methods, `scheduled` the store decisions
   * handed to `process.nextTick`; `calls` is the history that specifies them.
   */
  class ResponseCapture {
    const key: string
    const ttl: string
    const encode: (string, Option<string>) -> seq<byte>
    const decode: seq<byte> -> string
    var isFirstWrite: bool
    var isIntercepting: bool
    var chunks: seq<seq<byte>>
    var forwarded: seq<Forward>
    var scheduled: seq<PendingStore>
    ghost var calls: seq<Call>

    ghost predicate Valid()
      reads this
    {
      && isFirstWrite == (calls == [])
      && isIntercepting == (calls != [] && !HasEnd(calls))
      && chunks == Buffered(calls, encode)
      && forwarded == Forwarded(calls)
      && |scheduled| == Scheduled(calls)
      && forall p :: p in scheduled ==> p == PendingStore(key, ttl, decode(Flatten(chunks)))
    }

    /** Arming capture: nothing buffered, nothing forwarded, nothing scheduled. */
    constructor (key: string, ttl: string, encode: (string, Option<string>) -> seq<byte>, decode: seq<byte> -> string)
      ensures Valid() && calls == []
      ensures this.key == key && this.ttl == ttl && this.encode == encode && this.decode == decode
      ensures isFirstWrite && !isIntercepting && chunks == [] && forwarded == [] && scheduled == []
    {
      this.key, this.ttl, this.encode, this.decode := key, ttl, encode, decode;
      isFirstWrite, isIntercepting := true, false;
      chunks, forwarded, scheduled := [], [], [];
      calls := [];
    }

    /** The phase the flags encode. */
    function CurrentPhase(): (p: Phase)
      reads this
      requires Valid()
      ensures p == Idle <==> calls == []
      ensures p == Finalized <==> HasEnd(calls)
    {
      if isFirstWrite then Idle else if isIntercepting then Capturing else Finalized
    }

    /**
     * `intercept`: the first call switches capturing on; while capturing a
     * truthy chunk is converted and pushed. Returns whether capturing is on.
     */
    method Intercept(chunk: Chunk, encoding: Option<string>) returns (capturing: bool)
      modifies this
      ensures !isFirstWrite
      ensures capturing == isIntercepting == (old(isFirstWrite) || old(isIntercepting))
      ensures chunks == old(chunks) + (if capturing && Truthy(chunk) then [ToBytes(chunk, encoding, encode)] else [])
      ensures forwarded == old(forwarded) && scheduled == old(scheduled) && calls == old(calls)
    {
      if isFirstWrite {
        isFirstWrite := false;
        isIntercepting := true;
      }
      if isIntercepting && Truthy(chunk) {
        chunks := chunks + [ToBytes(chunk, encoding, encode)];
      }
      capturing := isIntercepting;
    }

    /**
     * The replaced `res.write`: buffered while capturing; after `end` the
     * original write is applied without arguments, so the chunk is dropped.
     */
    method Write(chunk: Chunk, encoding: Option<string>)
      requires Valid()
      modifies this
      ensures Valid() && calls == old(calls) + [Call.Write(chunk, encoding)]
      ensures !isFirstWrite && isIntercepting == old(isFirstWrite || isIntercepting)
      ensures chunks == old(chunks) + (if isIntercepting && Truthy(chunk) then [ToBytes(chunk, encoding, encode)] else [])
      ensures forwarded == old(forwarded) + (if isIntercepting then [] else [OriginalWrite])
      ensures scheduled == old(scheduled)
    {
      var c := Call.Write(chunk, encoding);
      HasEndAppend(calls, c);
      AtMostOneDecision(calls);
      AtMostOneDecision(calls + [c]);
      assert (calls + [c])[..|calls|] == calls;
      ghost var before := scheduled;
      var capturing := Intercept(chunk, encoding);
      if !capturing {
        assert chunks == old(chunks);
        forwarded := forwarded + [OriginalWrite];
      } else {
        assert before == [];
      }
      calls := calls + [c];
    }

    /**
     * The replaced `res.end`: when capturing, capturing stops, the body is
     * decoded and one store decision is scheduled; in every case the
     * original `end` gets the call's arguments once.
     */
    method End(chunk: Chunk, encoding: Option<string>)
      requires Valid()
      modifies this
      ensures Valid() && calls == old(calls) + [Call.End(chunk, encoding)]
      ensures !isFirstWrite && !isIntercepting
      ensures chunks == old(chunks) + (if old(isFirstWrite || isIntercepting) && Truthy(chunk)
                                      then [ToBytes(chunk, encoding, encode)] else [])
      ensures forwarded == old(forwarded) + [OriginalEnd(chunk, encoding)]
      ensures scheduled == old(scheduled) + (if old(isFirstWrite || isIntercepting)
                                            then [PendingStore(key, ttl, decode(Flatten(chunks)))] else [])
    {
      var c := Call.End(chunk, encoding);
      HasEndAppend(calls, c);
      AtMostOneDecision(calls);
      AtMostOneDecision(calls + [c]);
      assert (calls + [c])[..|calls|] == calls;
      ghost var before := scheduled;
      var capturing := Intercept(chunk, encoding);
      if capturing {
        assert before == [];
        isIntercepting := false;
        var body := decode(Flatten(chunks));
        scheduled := scheduled + [PendingStore(key, ttl, body)];
        forwarded := forwarded + [OriginalEnd(chunk, encoding)];
      } else {
        assert chunks == old(chunks);
        forwarded := forwarded + [OriginalEnd(chunk, encoding)];
      }
      calls := calls + [c];
    }
  }

  /**
   * The deferred decision: `set(key, JSON{contentType, body}, 'EX', ttl)`
   * exactly when the status code is in `goodCodes` as it stands when the
   * decision runs; otherwise nothing is stored. `serialize` stands for
   * `JSON.stringify`.
   */
  function Decide(p: PendingStore, statusCode: int, contentType: Option<string>, goodCodes: seq<int>,
                  serialize: CachedEntry -> string): (r: Option<StoreSet>)
    ensures r.Some? <==> IsGoodHttpCode(statusCode, goodCodes)
    ensures r.Some? ==> r.value.key == p.key && r.value.mode == "EX" && r.value.ttl == p.ttl
    ensures r.Some? ==> r.value.value == serialize(CachedEntry(contentType, p.body))
  {
    if IsGoodHttpCode(statusCode, goodCodes) then
      Some(StoreSet(p.key, serialize(CachedEntry(contentType, p.body)), "EX", p.ttl))
    else None
  }

  /** A caller's view: write, write, end, then a late write. */
  method CaptureExample(encode: (string, Option<string>) -> seq<byte>, decode: seq<byte> -> string)
  {
    var cap := new ResponseCapture("CACHE::items:get", "1h", encode, decode);
    cap.Write(Bytes([111]), None);
    cap.Write(Absent, None);
    cap.End(Bytes([107]), None);
    assert cap.chunks == [[111], [107]];
    assert |cap.scheduled| == 1 && cap.scheduled[0].key == "CACHE::items:get";
    cap.Write(Bytes([33]), None);
    cap.End(Absent, None);
    assert cap.forwarded == [OriginalEnd(Bytes([107]), None), OriginalWrite, OriginalEnd(Absent, None)];
    assert |cap.scheduled| == 1;
  }
}
