/** `SystemEvaluatorImpl`: the `system.a.b` expressions, which read the server's
    listen port and URL from the engine configuration. */
module SystemEvaluator {
  import opened Common

  /** The two `ImposterConfig` properties the evaluator reads. */
  datatype ImposterConfig = ImposterConfig(listenPort: int, serverUrl: Option<string>)

  const EVALUATOR_NAME: string := "system"

  /** The first index of `c` in `s`, -1 when absent. */
  function IndexOf(s: string, c: char): (i: int)
    ensures -1 <= i < |s|
    ensures i >= 0 ==> s[i] == c
    ensures forall k :: 0 <= k < |s| && (i == -1 || k < i) ==> s[k] != c
  {
    if s == [] then -1
    else if s[0] == c then 0
    else
      var rest := IndexOf(s[1..], c);
      if rest < 0 then -1 else rest + 1
  }

  /** `split(".", limit = limit)`: at most `limit` parts, the last keeping every
      remaining dot. */
  function SplitDot(s: string, limit: nat): (parts: seq<string>)
    requires limit >= 1
    ensures 1 <= |parts| <= limit
    ensures Join(".", parts) == s
    ensures forall i :: 0 <= i < |parts| - 1 ==> '.' !in parts[i]
    ensures |parts| < limit ==> '.' !in parts[|parts| - 1]
    decreases limit
  {
    var i := IndexOf(s, '.');
    if limit == 1 || i < 0 then [s]
    else
      var rest := SplitDot(s[i + 1..], limit - 1);
      SplitStep(s, i, rest, limit);
      [s[..i]] + rest
  }

  /** Splitting at the first dot keeps the parts' properties. */
  lemma SplitStep(s: string, i: nat, rest: seq<string>, limit: nat)
    requires limit >= 2 && i < |s| && s[i] == '.'
    requires forall k :: 0 <= k < i ==> s[k] != '.'
    requires 1 <= |rest| <= limit - 1 && Join(".", rest) == s[i + 1..]
    requires forall j :: 0 <= j < |rest| - 1 ==> '.' !in rest[j]
    requires |rest| < limit - 1 ==> '.' !in rest[|rest| - 1]
    ensures 1 <= |[s[..i]] + rest| <= limit
    ensures Join(".", [s[..i]] + rest) == s
    ensures forall j :: 0 <= j < |[s[..i]] + rest| - 1 ==> '.' !in ([s[..i]] + rest)[j]
    ensures |[s[..i]] + rest| < limit ==> '.' !in ([s[..i]] + rest)[|[s[..i]] + rest| - 1]
  {
    var parts := [s[..i]] + rest;
    assert parts[1..] == rest;
    assert Join(".", parts) == s[..i] + "." + Join(".", rest);
    assert s == s[..i] + "." + s[i + 1..];
    assert '.' !in s[..i] by {
      assert forall k :: 0 <= k < i ==> s[..i][k] == s[k];
    }
    assert forall j :: 1 <= j < |parts| ==> parts[j] == rest[j - 1];
  }

  /** `eval(expression, context)`: null unless the expression is `system.server.port`
      or `system.server.url`; the context is not read. */
  function Eval(config: ImposterConfig, expression: string, context: map<string, string>): (r: Option<string>)
    ensures |SplitDot(expression, 3)| < 3 ==> r.None?
  {
    var parts := SplitDot(expression, 3);
    if |parts| < 3 then None
    else if parts[0] == "system" && parts[1] == "server" then
      if parts[2] == "port" then Some(IntToString(config.listenPort))
      else if parts[2] == "url" then config.serverUrl
      else None
    else None
  }

  /** Splitting at a first part without dots. */
  lemma SplitAfterPlainPart(first: string, rest: string, limit: nat)
    requires limit >= 2 && '.' !in first
    ensures SplitDot(first + "." + rest, limit) == [first] + SplitDot(rest, limit - 1)
  {
    var s := first + "." + rest;
    assert s[|first|] == '.';
    assert forall k :: 0 <= k < |first| ==> s[k] == first[k];
    assert IndexOf(s, '.') == |first|;
    assert s[..|first|] == first && s[|first| + 1..] == rest;
  }

  /** Under `system.server.`, the third part is everything after the second dot,
      so only exactly "port" and "url" evaluate; "port.x" gives null. */
  lemma ServerProperties(config: ImposterConfig, property: string, context: map<string, string>)
    ensures Eval(config, "system.server." + property, context) ==
            if property == "port" then Some(IntToString(config.listenPort))
            else if property == "url" then config.serverUrl
            else None
  {
    var system, server := "system", "server";
    assert '.' !in system && '.' !in server;
    assert "system.server." + property == system + "." + (server + "." + property);
    SplitAfterPlainPart(system, server + "." + property, 3);
    SplitAfterPlainPart(server, property, 2);
    assert SplitDot(property, 1) == [property];
  }

  /** Any expression that is not `system.server.<p>` evaluates to null. */
  lemma OtherPrefixesNull(config: ImposterConfig, expression: string, context: map<string, string>)
    requires |SplitDot(expression, 3)| == 3
    requires SplitDot(expression, 3)[0] != "system" || SplitDot(expression, 3)[1] != "server"
    ensures Eval(config, expression, context).None?
  {
  }

  /** The result is the same for every context. */
  lemma ContextIgnored(config: ImposterConfig, expression: string, a: map<string, string>, b: map<string, string>)
    ensures Eval(config, expression, a) == Eval(config, expression, b)
  {
  }
}
