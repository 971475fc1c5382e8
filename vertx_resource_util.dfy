/** `VertxResourceUtil`: the router adapter's method mapping and its conversion of
    bracketed path parameters to the colon form the router expects. */
module VertxResourceUtil {
  import opened Common
  import opened Http
  import ResourceUtil

  /** The router's own method type; it knows methods the engine does not. */
  datatype VertxMethod =
    | V_GET | V_HEAD | V_POST | V_PUT | V_PATCH | V_DELETE | V_CONNECT | V_OPTIONS | V_TRACE
    | V_Other(name: string)

  /** The `METHODS` bidirectional map, as filled in the object initialiser. */
  const METHODS: map<HttpMethod, VertxMethod> := map[
    GET := V_GET, HEAD := V_HEAD, POST := V_POST, PUT := V_PUT, PATCH := V_PATCH,
    DELETE := V_DELETE, CONNECT := V_CONNECT, OPTIONS := V_OPTIONS, TRACE := V_TRACE]

  /** `convertMethodToVertx`: every engine method has an image. */
  function ConvertMethodToVertx(m: HttpMethod): (r: Result<VertxMethod>)
    ensures r.Ok?
    ensures !r.value.V_Other?
  {
    if m in METHODS then Ok(METHODS[m]) else Err("Unknown method: " + MethodName(m))
  }

  /** `convertMethodFromVertx`: lookup in the inverse map; a method outside it fails. */
  function ConvertMethodFromVertx(v: VertxMethod): (r: Result<HttpMethod>)
    ensures r.Ok? <==> !v.V_Other?
    ensures r.Ok? ==> r.value in METHODS && METHODS[r.value] == v
  {
    match v
    case V_GET => Ok(GET)
    case V_HEAD => Ok(HEAD)
    case V_POST => Ok(POST)
    case V_PUT => Ok(PUT)
    case V_PATCH => Ok(PATCH)
    case V_DELETE => Ok(DELETE)
    case V_CONNECT => Ok(CONNECT)
    case V_OPTIONS => Ok(OPTIONS)
    case V_TRACE => Ok(TRACE)
    case V_Other(n) => Err("Unknown method: " + n)
  }

  /** Converting to the router's method and back gives the method back. */
  lemma MethodRoundTrip(m: HttpMethod)
    ensures ConvertMethodToVertx(m).Ok?
    ensures ConvertMethodFromVertx(ConvertMethodToVertx(m).value) == Ok(m)
  {
  }

  /** The mapping is injective, as a bidirectional map must be. */
  lemma MethodsInjective(a: HttpMethod, b: HttpMethod)
    requires ConvertMethodToVertx(a) == ConvertMethodToVertx(b)
    ensures a == b
  {
    MethodRoundTrip(a);
    MethodRoundTrip(b);
  }

  // ---------------------------------------------------------------------------
  // The pattern `\{([a-zA-Z0-9._\-]+)}`

  predicate IsPlaceholderChar(c: char) { IsAsciiLetterOrDigit(c) || c == '.' || c == '_' || c == '-' }

  function RunEnd(s: string, j: nat): (e: nat)
    requires j <= |s|
    ensures j <= e <= |s|
    ensures forall k :: j <= k < e ==> IsPlaceholderChar(s[k])
    ensures e < |s| ==> !IsPlaceholderChar(s[e])
    decreases |s| - j
  {
    if j < |s| && IsPlaceholderChar(s[j]) then RunEnd(s, j + 1) else j
  }

  /** The run end is determined by the characters up to and including it. */
  lemma {:induction false} RunEndIs(s: string, j: nat, e: nat)
    requires j <= e <= |s|
    requires forall k :: j <= k < e ==> IsPlaceholderChar(s[k])
    requires e < |s| ==> !IsPlaceholderChar(s[e])
    ensures RunEnd(s, j) == e
    decreases e - j
  {
    if j < e {
      RunEndIs(s, j + 1, e);
    }
  }

  /** The pattern matches at the start of `s`: '{', a non-empty name, '}'. */
  predicate BraceParamAtStart(s: string) {
    |s| >= 3 && s[0] == '{' && RunEnd(s, 1) > 1 && RunEnd(s, 1) < |s| && s[RunEnd(s, 1)] == '}'
  }

  predicate HasBraceParam(s: string) {
    exists i :: 0 <= i < |s| && BraceParamAtStart(s[i..])
  }

  /** `matcher.replaceFirst(":" + paramName)` on the leftmost occurrence. */
  function ReplaceFirstBraceParam(s: string): string {
    if s == [] then []
    else if BraceParamAtStart(s) then
      var e := RunEnd(s, 1);
      ":" + s[1..e] + s[e + 1..]
    else [s[0]] + ReplaceFirstBraceParam(s[1..])
  }

  /** The reference definition: scan left to right, rewriting each `{name}` to `:name`. */
  function ColonFormat(s: string): string
    decreases |s|
  {
    if s == [] then []
    else if BraceParamAtStart(s) then
      var e := RunEnd(s, 1);
      ":" + s[1..e] + ColonFormat(s[e + 1..])
    else [s[0]] + ColonFormat(s[1..])
  }

  /** `convertPath`: an empty path is returned as it is; otherwise colons are first
      escaped when `escapeColonsInPath` is set (an environment switch, a parameter
      here), then placeholders are rewritten one at a time until none is left. */
  method ConvertPath(rawPath: string, escapeColonsInPath: bool) returns (path: string)
    ensures rawPath == [] ==> path == []
    ensures rawPath != [] && !escapeColonsInPath ==> path == ColonFormat(rawPath)
    ensures rawPath != [] && escapeColonsInPath ==> path == ColonFormat(ReplaceChar(rawPath, ':', "%3A"))
    ensures !HasBraceParam(path)
  {
    path := rawPath;
    if path != [] {
      if escapeColonsInPath {
        path := ReplaceChar(path, ':', "%3A");
      }
      ghost var start := path;
      var matchFound := HasBraceParam(path);
      while matchFound
        invariant ColonFormat(path) == ColonFormat(start)
        invariant matchFound == HasBraceParam(path)
        decreases CountChar(path, '{')
      {
        ReplaceFirstKeepsColonFormat(path);
        ReplaceFirstRemovesBrace(path);
        path := ReplaceFirstBraceParam(path);
        matchFound := HasBraceParam(path);
      }
      NoBraceParamColonFormat(path);
    }
  }

  // ---------------------------------------------------------------------------
  // Lemmas about the conversion

  lemma HasBraceParamStep(s: string)
    requires s != []
    ensures HasBraceParam(s) <==> BraceParamAtStart(s) || HasBraceParam(s[1..])
  {
    if HasBraceParam(s) && !BraceParamAtStart(s) {
      var i :| 0 <= i < |s| && BraceParamAtStart(s[i..]);
      assert i > 0;
      assert s[1..][i - 1..] == s[i..];
    }
    if HasBraceParam(s[1..]) {
      var i :| 0 <= i < |s[1..]| && BraceParamAtStart(s[1..][i..]);
      assert s[i + 1..] == s[1..][i..];
    }
    if BraceParamAtStart(s) {
      assert s[0..] == s;
    }
  }

  lemma {:induction false} NoBraceParamColonFormat(s: string)
    requires !HasBraceParam(s)
    ensures ColonFormat(s) == s
    decreases |s|
  {
    if s != [] {
      HasBraceParamStep(s);
      NoBraceParamColonFormat(s[1..]);
    }
  }

  lemma {:induction false} PassThroughWithoutBrace(p: string, q: string)
    requires '{' !in p
    ensures ColonFormat(p + q) == p + ColonFormat(q)
    decreases |p|
  {
    if p != [] {
      assert (p + q)[1..] == p[1..] + q;
      PassThroughWithoutBrace(p[1..], q);
    } else {
      assert p + q == q;
    }
  }

  /** Up to the first '{' the rewrite copies its input. */
  lemma {:induction false} ReplaceFirstPrefix(u: string, k: nat)
    requires k <= |u|
    requires forall j :: 0 <= j < k ==> u[j] != '{'
    ensures |ReplaceFirstBraceParam(u)| >= k
    ensures ReplaceFirstBraceParam(u)[..k] == u[..k]
    ensures ReplaceFirstBraceParam(u)[k..] == ReplaceFirstBraceParam(u[k..])
    decreases k
  {
    if k > 0 {
      ReplaceFirstPrefix(u[1..], k - 1);
      var t := ReplaceFirstBraceParam(u[1..]);
      ReplaceFirstCons(u);
      assert ReplaceFirstBraceParam(u)[..k] == [u[0]] + t[..k - 1];
      assert u[..k] == [u[0]] + u[1..][..k - 1];
      assert ReplaceFirstBraceParam(u)[k..] == t[k - 1..];
      assert u[1..][k - 1..] == u[k..];
    }
  }

  /** A first character other than '{' is copied. */
  lemma ReplaceFirstCons(u: string)
    requires u != [] && u[0] != '{'
    ensures ReplaceFirstBraceParam(u) == [u[0]] + ReplaceFirstBraceParam(u[1..])
  {
  }

  lemma ReplaceFirstBraceHead(s: string)
    requires s != []
    ensures ReplaceFirstBraceParam(s) != []
    ensures ReplaceFirstBraceParam(s)[0] == (if BraceParamAtStart(s) then ':' else s[0])
  {
  }

  /** A '{' followed by a run of name characters that ends at `e` is no placeholder
      when the run is empty or what ends it is not '}'. */
  lemma NotAtStartFromRun(r: string, e: nat)
    requires 1 <= e <= |r| && r[0] == '{'
    requires forall k :: 1 <= k < e ==> IsPlaceholderChar(r[k])
    requires e < |r| ==> !IsPlaceholderChar(r[e])
    requires 1 < e < |r| ==> r[e] != '}'
    ensures !BraceParamAtStart(r)
  {
    RunEndIs(r, 1, e);
  }

  /** If `s` does not start with a placeholder, neither does `s` with the first
      placeholder of its tail rewritten. */
  lemma NotAtStartAfterRewrite(s: string)
    requires s != [] && !BraceParamAtStart(s)
    ensures !BraceParamAtStart([s[0]] + ReplaceFirstBraceParam(s[1..]))
  {
    if s[0] == '{' {
      var e := RunEnd(s, 1);
      var u := s[1..];
      var t := ReplaceFirstBraceParam(u);
      // positions 1 .. e-1 of s are name characters, so they hold no '{'
      assert forall j :: 0 <= j < e - 1 ==> u[j] == s[j + 1];
      ReplaceFirstPrefix(u, e - 1);
      if e < |s| {
        ReplaceFirstBraceHead(u[e - 1..]);
      }
      RunSurvivesRewrite(s, t, e);
    }
  }

  /** The run after the leading '{' is copied by the rewrite of the tail, and what
      follows it still ends the run without closing a placeholder. */
  lemma RunSurvivesRewrite(s: string, t: string, e: nat)
    requires s != [] && s[0] == '{' && !BraceParamAtStart(s) && e == RunEnd(s, 1)
    requires |t| >= e - 1 && t[..e - 1] == s[1..e]
    requires e == |s| ==> |t| == e - 1
    requires e < |s| ==> |t| > e - 1 && (t[e - 1] == ':' || t[e - 1] == s[e])
    ensures !BraceParamAtStart([s[0]] + t)
  {
    var r := [s[0]] + t;
    assert forall k :: 1 <= k < e ==> r[k] == t[..e - 1][k - 1] == s[k];
    NotAtStartFromRun(r, e);
  }

  /** One rewrite does not change what the full conversion yields. */
  lemma {:induction false} ReplaceFirstKeepsColonFormat(s: string)
    requires HasBraceParam(s)
    ensures ColonFormat(ReplaceFirstBraceParam(s)) == ColonFormat(s)
    decreases |s|
  {
    HasBraceParamStep(s);
    if BraceParamAtStart(s) {
      KeepsColonFormatAtStart(s);
    } else {
      ReplaceFirstKeepsColonFormat(s[1..]);
      var t := ReplaceFirstBraceParam(s[1..]);
      NotAtStartAfterRewrite(s);
      assert ReplaceFirstBraceParam(s) == [s[0]] + t;
      assert ([s[0]] + t)[1..] == t;
    }
  }

  lemma KeepsColonFormatAtStart(s: string)
    requires BraceParamAtStart(s)
    ensures ColonFormat(ReplaceFirstBraceParam(s)) == ColonFormat(s)
  {
    var e := RunEnd(s, 1);
    var head := ":" + s[1..e];
    assert forall k :: 0 <= k < |head| ==> head[k] != '{' by {
      assert forall k :: 1 <= k < |head| ==> head[k] == s[k];
    }
    PassThroughWithoutBrace(head, s[e + 1..]);
  }

  /** Each rewrite removes exactly one '{', so the loop terminates. */
  lemma {:induction false} ReplaceFirstRemovesBrace(s: string)
    requires HasBraceParam(s)
    ensures CountChar(ReplaceFirstBraceParam(s), '{') == CountChar(s, '{') - 1
    decreases |s|
  {
    HasBraceParamStep(s);
    if BraceParamAtStart(s) {
      RemovesBraceAtStart(s);
    } else {
      ReplaceFirstRemovesBrace(s[1..]);
      RemovesBraceLater(s);
    }
  }

  lemma RemovesBraceAtStart(s: string)
    requires BraceParamAtStart(s)
    ensures CountChar(ReplaceFirstBraceParam(s), '{') == CountChar(s, '{') - 1
  {
    var e := RunEnd(s, 1);
    var name, rest := s[1..e], s[e + 1..];
    assert s[..1] == "{" && s[e..e + 1] == "}";
    assert s == s[..1] + name + s[e..e + 1] + rest;
    CountBracesAround(s, name, rest, ReplaceFirstBraceParam(s));
  }

  lemma CountBracesAround(s: string, name: string, rest: string, t: string)
    requires s == "{" + name + "}" + rest && t == ":" + name + rest
    ensures CountChar(t, '{') == CountChar(s, '{') - 1
  {
    CountCharConcat4("{", name, "}", rest, '{');
    CountCharConcat3(":", name, rest, '{');
  }

  lemma RemovesBraceLater(s: string)
    requires s != [] && !BraceParamAtStart(s)
    requires CountChar(ReplaceFirstBraceParam(s[1..]), '{') == CountChar(s[1..], '{') - 1
    ensures CountChar(ReplaceFirstBraceParam(s), '{') == CountChar(s, '{') - 1
  {
    var t := ReplaceFirstBraceParam(s[1..]);
    assert ReplaceFirstBraceParam(s) == [s[0]] + t;
    CountCharAppend([s[0]], t, '{');
    CountCharAppend([s[0]], s[1..], '{');
    assert [s[0]] + s[1..] == s;
  }

  /** A placeholder at the start is rewritten and the scan goes on after its '}'. */
  lemma ColonFormatOfBraced(name: string, rest: string)
    requires |name| > 0 && forall k :: 0 <= k < |name| ==> IsPlaceholderChar(name[k])
    ensures ColonFormat("{" + name + "}" + rest) == ":" + name + ColonFormat(rest)
  {
    var b := "{" + name + "}" + rest;
    var e := |name| + 1;
    assert forall k :: 1 <= k < e ==> b[k] == name[k - 1];
    RunEndIs(b, 1, e);
    assert b[1..e] == name;
    assert b[e + 1..] == rest;
  }

  /** Any character other than '{' is copied. */
  lemma ColonFormatCons(c: char, t: string)
    requires c != '{'
    ensures ColonFormat([c] + t) == [c] + ColonFormat(t)
  {
    assert ([c] + t)[1..] == t;
  }

  /** The documented example, `/{pathParam}/notParam` becoming `/:pathParam/notParam`,
      for any parameter name and any rest of the path without '{'. */
  lemma ExampleColonFormat(path: string, name: string, tail: string)
    requires |name| > 0 && forall k :: 0 <= k < |name| ==> IsPlaceholderChar(name[k])
    requires '{' !in tail
    requires path == "/{" + name + "}" + tail
    ensures ColonFormat(path) == "/:" + name + tail
  {
    var braced := "{" + name + "}" + tail;
    var converted := ":" + name + tail;
    ExampleSteps(path, braced, name, tail);
    assert ['/'] + converted == "/:" + name + tail;
  }

  lemma ExampleSteps(path: string, braced: string, name: string, tail: string)
    requires |name| > 0 && forall k :: 0 <= k < |name| ==> IsPlaceholderChar(name[k])
    requires '{' !in tail
    requires braced == "{" + name + "}" + tail && path == ['/'] + braced
    ensures ColonFormat(path) == ['/'] + (":" + name + tail)
  {
    ColonFormatOfBraced(name, tail);
    PassThroughWithoutBrace(tail, []);
    assert tail + [] == tail;
    ColonFormatCons('/', braced);
  }

  /** The two adapters' conversions are inverse on paths without '{': a colon path
      converted to the bracketed form and back to the colon form is unchanged. */
  lemma {:induction false} ColonFormatOfBracketed(s: string)
    requires '{' !in s
    ensures ColonFormat(ResourceUtil.Bracketed(s)) == s
    decreases |s|
  {
    if s != [] {
      if ResourceUtil.ColonParamAtStart(s) {
        var e := ResourceUtil.NameEnd(s, 1);
        ColonFormatOfBracketed(s[e..]);
        ColonParamRoundTrip(s, e);
      } else {
        ColonFormatOfBracketed(s[1..]);
        OtherCharRoundTrip(s);
      }
    }
  }

  /** The step of the inverse property for any other first character. */
  lemma OtherCharRoundTrip(s: string)
    requires s != [] && s[0] != '{' && !ResourceUtil.ColonParamAtStart(s)
    requires ColonFormat(ResourceUtil.Bracketed(s[1..])) == s[1..]
    ensures ColonFormat(ResourceUtil.Bracketed(s)) == s
  {
    ColonFormatCons(s[0], ResourceUtil.Bracketed(s[1..]));
    assert s == [s[0]] + s[1..];
  }

  /** The step of the inverse property for a colon parameter at the start. */
  lemma ColonParamRoundTrip(s: string, e: nat)
    requires ResourceUtil.ColonParamAtStart(s) && e == ResourceUtil.NameEnd(s, 1)
    requires ColonFormat(ResourceUtil.Bracketed(s[e..])) == s[e..]
    ensures ColonFormat(ResourceUtil.Bracketed(s)) == s
  {
    var name, rest := s[1..e], s[e..];
    ResourceUtil.BracketedAtStart(s);
    assert forall k :: 0 <= k < |name| ==> IsPlaceholderChar(name[k]) by {
      assert forall k :: 0 <= k < |name| ==> name[k] == s[k + 1];
    }
    ColonFormatOfBraced(name, ResourceUtil.Bracketed(rest));
    ResourceUtil.ColonAtStartSplits(s);
  }
}
