/**
 * The pure helpers of lib/kumbukumbu.js: path normalisation, path-rule
 * lookup and the status-code allow-list test, plus the string steps that
 * the cache key is built from.
 */
module Helpers {
  import opened Wrappers

  /** A run of `k` slashes. */
  function Slashes(k: nat): (s: string)
    ensures |s| == k
    ensures forall i :: 0 <= i < k ==> s[i] == '/'
  {
    if k == 0 then "" else Slashes(k - 1) + "/"
  }

  /**
   * `cleanPath`: removes the whole trailing run of '/' and nothing else.
   * The result is a prefix of the path, everything cut off is '/', and
   * the result does not end in '/'.
   */
  function CleanPath(path: string): (r: string)
    ensures |r| <= |path| && r == path[..|r|]
    ensures forall i :: |r| <= i < |path| ==> path[i] == '/'
    ensures r == "" || r[|r| - 1] != '/'
    decreases |path|
  {
    if |path| > 0 && path[|path| - 1] == '/' then CleanPath(path[..|path| - 1]) else path
  }

  /** The path is its cleaned form followed by slashes only. */
  lemma CleanPathDecomposes(path: string)
    ensures path == CleanPath(path) + Slashes(|path| - |CleanPath(path)|)
  {
    var r := CleanPath(path);
    var s := Slashes(|path| - |r|);
    assert |r + s| == |path|;
    forall i | 0 <= i < |path| ensures (r + s)[i] == path[i] {
      if i >= |r| {
        assert (r + s)[i] == s[i - |r|];
      }
    }
  }

  /** Cleaning a cleaned path changes nothing. */
  lemma CleanPathIdempotent(path: string)
    ensures CleanPath(CleanPath(path)) == CleanPath(path)
  {
  }

  /** Paths that differ only in trailing slashes clean to the same path. */
  lemma {:induction false} CleanPathIgnoresTrailingSlashes(path: string, k: nat)
    ensures CleanPath(path + Slashes(k)) == CleanPath(path)
    decreases k
  {
    if k > 0 {
      var p := path + Slashes(k);
      assert p[..|p| - 1] == path + Slashes(k - 1);
      assert p[|p| - 1] == '/';
      CleanPathIgnoresTrailingSlashes(path, k - 1);
    } else {
      assert path + Slashes(k) == path;
    }
  }

  /** `s.replace(/\//g, ':')`: every '/' becomes ':', every other character stays. */
  function ReplaceSlashes(s: string): (r: string)
    ensures |r| == |s|
    ensures forall i :: 0 <= i < |s| ==> r[i] == (if s[i] == '/' then ':' else s[i])
    ensures '/' !in r
  {
    if s == "" then "" else
      ReplaceSlashes(s[..|s| - 1]) + [if s[|s| - 1] == '/' then ':' else s[|s| - 1]]
  }

  /** `toLowerCase` restricted to ASCII letters. */
  function LowerChar(c: char): char {
    if 'A' <= c <= 'Z' then (c as int - 'A' as int + 'a' as int) as char else c
  }

  /** `toLowerCase` on a string: character by character, no upper-case ASCII letter left. */
  function Lower(s: string): (r: string)
    ensures |r| == |s|
    ensures forall i :: 0 <= i < |s| ==> r[i] == LowerChar(s[i])
    ensures forall i :: 0 <= i < |r| ==> !('A' <= r[i] <= 'Z')
  {
    if s == "" then "" else Lower(s[..|s| - 1]) + [LowerChar(s[|s| - 1])]
  }

  /** One entry of `pathsConfig`: a regular-expression source, allowed methods, a duration string. */
  datatype PathConfig = PathConfig(path: string, methods: seq<string>, ttl: string)

  /**
   * The position of the first rule whose pattern matches `path`, in list
   * order. `matches(pattern, path)` stands for `RegExp(pattern).test(path)`.
   */
  function FirstMatch(configs: seq<PathConfig>, path: string, matches: (string, string) -> bool): (r: Option<nat>)
    ensures r.None? <==> forall i :: 0 <= i < |configs| ==> !matches(configs[i].path, path)
    ensures r.Some? ==> r.value < |configs| && matches(configs[r.value].path, path)
    ensures r.Some? ==> forall j :: 0 <= j < r.value ==> !matches(configs[j].path, path)
    decreases |configs|
  {
    if configs == [] then None
    else if matches(configs[0].path, path) then Some(0)
    else match FirstMatch(configs[1..], path, matches)
      case None => None
      case Some(i) => Some(i + 1)
  }

  /**
   * `getPathConfig`: `_.find` over the rules; `None` stands for `undefined`.
   * The result is the first matching rule, and there is none exactly when
   * no rule matches.
   */
  function GetPathConfig(configs: seq<PathConfig>, path: string, matches: (string, string) -> bool): (r: Option<PathConfig>)
    ensures r.None? <==> forall i :: 0 <= i < |configs| ==> !matches(configs[i].path, path)
    ensures r.Some? ==> exists i :: 0 <= i < |configs| && configs[i] == r.value && matches(r.value.path, path)
                                      && forall j :: 0 <= j < i ==> !matches(configs[j].path, path)
  {
    match FirstMatch(configs, path, matches)
    case None => None
    case Some(i) => Some(configs[i])
  }

  /** The module-level `goodCodes` as the file initialises it. */
  const DefaultGoodCodes: seq<int> := [200, 201, 202, 204]

  /** `isGoodHttpCode`: `validCodes.includes(code)`, true exactly when some position holds the code. */
  function IsGoodHttpCode(code: int, validCodes: seq<int>): (r: bool)
    ensures r <==> exists i :: 0 <= i < |validCodes| && validCodes[i] == code
  {
    code in validCodes
  }

  /** A code is good in a concatenated list exactly when it is good in one of the parts. */
  lemma {:induction false} IsGoodHttpCodeConcat(code: int, a: seq<int>, b: seq<int>)
    ensures IsGoodHttpCode(code, a + b) <==> IsGoodHttpCode(code, a) || IsGoodHttpCode(code, b)
  {
    if IsGoodHttpCode(code, b) {
      var i :| 0 <= i < |b| && b[i] == code;
      assert (a + b)[|a| + i] == code;
    }
    if IsGoodHttpCode(code, a) {
      var i :| 0 <= i < |a| && a[i] == code;
      assert (a + b)[i] == code;
    }
    if IsGoodHttpCode(code, a + b) {
      var i :| 0 <= i < |a + b| && (a + b)[i] == code;
      if i < |a| { assert a[i] == code; } else { assert b[i - |a|] == code; }
    }
  }

  /** Under the initial list, exactly 200, 201, 202 and 204 are good. */
  lemma DefaultGoodCodesAre(code: int)
    ensures IsGoodHttpCode(code, DefaultGoodCodes) <==> code == 200 || code == 201 || code == 202 || code == 204
  {
  }
}
