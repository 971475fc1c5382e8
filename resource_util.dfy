/** `ResourceUtil`: conversion of colon path parameters to the bracketed form,
    and simple facts read off a resource configuration or a route. */
module ResourceUtil {
  import opened Common
  import opened Http
  import opened Config

  // ---------------------------------------------------------------------------
  // The pattern `:([a-zA-Z0-9_]+)`

  predicate IsParamNameChar(c: char) { IsAsciiLetterOrDigit(c) || c == '_' }

  /** The end of the run of parameter-name characters that starts at `j`. */
  function NameEnd(s: string, j: nat): (e: nat)
    requires j <= |s|
    ensures j <= e <= |s|
    ensures forall k :: j <= k < e ==> IsParamNameChar(s[k])
    ensures e < |s| ==> !IsParamNameChar(s[e])
    decreases |s| - j
  {
    if j < |s| && IsParamNameChar(s[j]) then NameEnd(s, j + 1) else j
  }

  /** The pattern matches at the start of `s`. */
  predicate ColonParamAtStart(s: string) {
    |s| >= 2 && s[0] == ':' && IsParamNameChar(s[1])
  }

  /** `matcher.find()`: the pattern occurs somewhere in `s`. */
  predicate HasColonParam(s: string) {
    exists i :: 0 <= i < |s| && ColonParamAtStart(s[i..])
  }

  /** `matcher.replaceFirst("{" + matcher.group(1) + "}")`: the leftmost occurrence,
      with the longest parameter name, rewritten. */
  function ReplaceFirstColonParam(s: string): string {
    if s == [] then []
    else if ColonParamAtStart(s) then
      var e := NameEnd(s, 1);
      "{" + s[1..e] + "}" + s[e..]
    else [s[0]] + ReplaceFirstColonParam(s[1..])
  }

  /** The reference definition of the conversion: scan left to right, rewriting each
      `:name` to `{name}`. */
  function Bracketed(s: string): string
    decreases |s|
  {
    if s == [] then []
    else if ColonParamAtStart(s) then
      var e := NameEnd(s, 1);
      "{" + s[1..e] + "}" + Bracketed(s[e..])
    else [s[0]] + Bracketed(s[1..])
  }

  lemma BracketedAtStart(s: string)
    requires ColonParamAtStart(s)
    ensures Bracketed(s) == "{" + s[1..NameEnd(s, 1)] + "}" + Bracketed(s[NameEnd(s, 1)..])
  {
  }

  lemma ColonAtStartSplits(s: string)
    requires ColonParamAtStart(s)
    ensures s == ":" + s[1..NameEnd(s, 1)] + s[NameEnd(s, 1)..]
  {
    var e := NameEnd(s, 1);
    assert s[..1] == ":";
    assert s == s[..1] + s[1..e] + s[e..];
  }

  /** `convertPathParamsToBracketFormat`: null and empty paths come back unchanged;
      otherwise the first colon parameter is rewritten until none is left. */
  method ConvertPathParamsToBracketFormat(pathToConvert: Option<string>) returns (path: Option<string>)
    ensures IsNullOrEmpty(pathToConvert) ==> path == pathToConvert
    ensures pathToConvert.Some? ==> path == Some(Bracketed(pathToConvert.value))
    ensures path.Some? ==> !HasColonParam(path.value)
  {
    path := pathToConvert;
    if !IsNullOrEmpty(path) {
      var p := path.value;
      var matchFound: bool;
      matchFound := HasColonParam(p);
      while matchFound
        invariant Bracketed(p) == Bracketed(pathToConvert.value)
        invariant matchFound == HasColonParam(p)
        decreases CountChar(p, ':')
      {
        ReplaceFirstKeepsBracketed(p);
        ReplaceFirstRemovesColon(p);
        p := ReplaceFirstColonParam(p);
        matchFound := HasColonParam(p);
      }
      NoColonParamBracketed(p);
      path := Some(p);
    }
    if path.Some? {
      BracketedHasNoColonParam(path.value);
    }
  }

  // ---------------------------------------------------------------------------
  // Lemmas about the conversion

  lemma HasColonParamStep(s: string)
    requires s != []
    ensures HasColonParam(s) <==> ColonParamAtStart(s) || HasColonParam(s[1..])
  {
    if HasColonParam(s) && !ColonParamAtStart(s) {
      var i :| 0 <= i < |s| && ColonParamAtStart(s[i..]);
      assert i > 0;
      assert s[1..][i - 1..] == s[i..];
    }
    if HasColonParam(s[1..]) {
      var i :| 0 <= i < |s[1..]| && ColonParamAtStart(s[1..][i..]);
      assert s[i + 1..] == s[1..][i..];
    }
    if ColonParamAtStart(s) {
      assert s[0..] == s;
    }
  }

  /** Without a colon parameter the conversion changes nothing. */
  lemma {:induction false} NoColonParamBracketed(s: string)
    requires !HasColonParam(s)
    ensures Bracketed(s) == s
    decreases |s|
  {
    if s != [] {
      HasColonParamStep(s);
      NoColonParamBracketed(s[1..]);
    }
  }

  /** One rewrite does not change what the full conversion yields. */
  lemma {:induction false} ReplaceFirstKeepsBracketed(s: string)
    requires HasColonParam(s)
    ensures Bracketed(ReplaceFirstColonParam(s)) == Bracketed(s)
    decreases |s|
  {
    HasColonParamStep(s);
    if ColonParamAtStart(s) {
      var e := NameEnd(s, 1);
      var name := s[1..e];
      PassThroughWithoutColon("{" + name + "}", s[e..]);
    } else {
      ReplaceFirstKeepsBracketed(s[1..]);
      var t := ReplaceFirstColonParam(s[1..]);
      // the first character still does not start a parameter
      if s[0] == ':' {
        assert !IsParamNameChar(s[1]);
        ReplaceFirstHead(s[1..]);
      }
      assert ReplaceFirstColonParam(s) == [s[0]] + t;
      assert !ColonParamAtStart([s[0]] + t);
      assert ([s[0]] + t)[1..] == t;
    }
  }

  /** The rewrite leaves the first character unless it starts the rewritten parameter,
      in which case it becomes '{'. */
  lemma ReplaceFirstHead(s: string)
    requires s != []
    ensures ReplaceFirstColonParam(s) != []
    ensures ReplaceFirstColonParam(s)[0] == (if ColonParamAtStart(s) then '{' else s[0])
  {
  }

  lemma {:induction false} PassThroughWithoutColon(p: string, q: string)
    requires ':' !in p
    ensures Bracketed(p + q) == p + Bracketed(q)
    decreases |p|
  {
    if p != [] {
      assert (p + q)[1..] == p[1..] + q;
      PassThroughWithoutColon(p[1..], q);
    } else {
      assert p + q == q;
    }
  }

  /** Each rewrite removes exactly one ':', so the loop terminates. */
  lemma {:induction false} ReplaceFirstRemovesColon(s: string)
    requires HasColonParam(s)
    ensures CountChar(ReplaceFirstColonParam(s), ':') == CountChar(s, ':') - 1
    decreases |s|
  {
    HasColonParamStep(s);
    if ColonParamAtStart(s) {
      RemovesColonAtStart(s);
    } else {
      ReplaceFirstRemovesColon(s[1..]);
      RemovesColonLater(s);
    }
  }

  lemma RemovesColonAtStart(s: string)
    requires ColonParamAtStart(s)
    ensures CountChar(ReplaceFirstColonParam(s), ':') == CountChar(s, ':') - 1
  {
    var e := NameEnd(s, 1);
    var name, rest := s[1..e], s[e..];
    CountColonsAround(s, name, rest, ReplaceFirstColonParam(s));
  }

  lemma CountColonsAround(s: string, name: string, rest: string, t: string)
    requires s == ":" + name + rest && t == "{" + name + "}" + rest
    ensures CountChar(t, ':') == CountChar(s, ':') - 1
  {
    CountCharConcat3(":", name, rest, ':');
    CountCharConcat4("{", name, "}", rest, ':');
  }

  lemma RemovesColonLater(s: string)
    requires s != [] && !ColonParamAtStart(s)
    requires CountChar(ReplaceFirstColonParam(s[1..]), ':') == CountChar(s[1..], ':') - 1
    ensures CountChar(ReplaceFirstColonParam(s), ':') == CountChar(s, ':') - 1
  {
    var t := ReplaceFirstColonParam(s[1..]);
    assert ReplaceFirstColonParam(s) == [s[0]] + t;
    CountCharAppend([s[0]], t, ':');
    CountCharAppend([s[0]], s[1..], ':');
    assert [s[0]] + s[1..] == s;
  }

  /** The converted path holds no colon parameter any more. */
  lemma {:induction false} BracketedHasNoColonParam(s: string)
    ensures !HasColonParam(Bracketed(s))
    ensures s != [] ==> Bracketed(s) != [] &&
                        Bracketed(s)[0] == (if ColonParamAtStart(s) then '{' else s[0])
    decreases |s|
  {
    if s != [] {
      if ColonParamAtStart(s) {
        var e := NameEnd(s, 1);
        var name := s[1..e];
        BracketedHasNoColonParam(s[e..]);
        NoColonIn("{" + name + "}", Bracketed(s[e..]));
      } else {
        BracketedHasNoColonParam(s[1..]);
        var t := Bracketed(s[1..]);
        var r := [s[0]] + t;
        assert r[1..] == t;
        HasColonParamStep(r);
        if s[0] == ':' && |s| >= 2 {
          assert !IsParamNameChar(s[1]);
        }
      }
    }
  }

  /** A prefix without ':' followed by a string without a colon parameter has none. */
  lemma {:induction false} NoColonIn(p: string, q: string)
    requires ':' !in p && !HasColonParam(q)
    ensures !HasColonParam(p + q)
    decreases |p|
  {
    if p != [] {
      assert (p + q)[1..] == p[1..] + q;
      NoColonIn(p[1..], q);
      HasColonParamStep(p + q);
    } else {
      assert p + q == q;
    }
  }

  /** The documented example: `/example/:foo` becomes `/example/{foo}`. */
  lemma ExampleBracketed()
    ensures Bracketed("/example/:foo") == "/example/{foo}"
  {
    var prefix, param := "/example/", ":foo";
    assert prefix + param == "/example/:foo";
    PassThroughWithoutColon(prefix, param);
    ExampleParam();
    assert prefix + "{foo}" == "/example/{foo}";
  }

  lemma ExampleParam()
    ensures Bracketed(":foo") == "{foo}"
  {
    var s := ":foo";
    assert s[1] == 'f' && s[2] == 'o' && s[3] == 'o' && |s| == 4;
    assert NameEnd(s, 3) == 4;
    assert NameEnd(s, 1) == 4;
    BracketedAtStart(s);
    assert s[1..4] == "foo" && s[4..] == [];
  }

  // ---------------------------------------------------------------------------
  // Facts read off a configuration

  /** `extractResourceMethod`: GET for a configuration that has no method property;
      otherwise its method, or the supplied default when that is null. */
  function ExtractResourceMethod(config: ResourceConfig, default: Option<HttpMethod>): (r: Option<HttpMethod>)
    ensures config.resourceMethod.None? ==> r == Some(GET)
    ensures config.resourceMethod.Some? && config.resourceMethod.value.Some? ==> r == config.resourceMethod.value
    ensures config.resourceMethod == Some(None) ==> r == default
  {
    match config.resourceMethod
    case None => Some(GET)
    case Some(m) => if m.Some? then m else default
  }

  /** `isStaticContentRoute`: a response-config holder whose `dir` is neither null nor blank. */
  function IsStaticContentRoute(resource: ResourceConfig): (r: bool)
    ensures r <==> resource.responseConfig.Some? && resource.responseConfig.value.dir.Some? &&
                   !IsBlank(resource.responseConfig.value.dir.value)
  {
    resource.responseConfig.Some? && !IsNullOrBlank(resource.responseConfig.value.dir)
  }

  const REGEX_ROUTE_WEIGHT: int := 1000

  /** `countPlaceholders`: the number of '{' in the path; a route given only by a
      regular expression counts as 1000; a route with neither counts 0. */
  function CountPlaceholders(route: HttpRoute): (n: nat)
    ensures route.path.Some? ==> n == multiset(route.path.value)['{']
    ensures route.path.Some? ==> n <= |route.path.value| && (n == 0 <==> '{' !in route.path.value)
    ensures route.path.None? && route.regex.Some? ==> n == REGEX_ROUTE_WEIGHT
    ensures route.path.None? && route.regex.None? ==> n == 0
  {
    match route.path
    case Some(p) => CountCharIsMultiplicity(p, '{'); CountChar(p, '{')
    case None => if route.regex.Some? then REGEX_ROUTE_WEIGHT else 0
  }

  /** Each bracketed parameter counts once: appending `/{id}` to a path adds one placeholder. */
  lemma PlaceholdersOfAppendedParam(p: string, regex: Option<string>)
    ensures CountPlaceholders(HttpRoute(Some(p + "/{id}"), regex))
            == CountPlaceholders(HttpRoute(Some(p), regex)) + 1
  {
    CountCharAppend(p, "/{id}", '{');
  }
}
