/** `SecurityServiceImpl`: the security policy language. A policy is a default effect
    and a list of conditions; each condition is three condition maps (query, form,
    headers) and an effect. */
module Security {
  import opened Common
  import opened Http
  import opened MatchUtil
  import opened Config
  import ResourceMatcher

  // ---------------------------------------------------------------------------
  // Root-policy selection

  predicate HasSecurity(c: PluginConfig) {
    c.root.security.Some? && c.root.security.value.Some?
  }

  /** The configurations that declare a root policy, in order. */
  function WithSecurity(cs: seq<PluginConfig>): (r: seq<PluginConfig>)
    ensures forall c :: c in r ==> c in cs && HasSecurity(c)
    ensures forall i :: 0 <= i < |cs| && HasSecurity(cs[i]) ==> cs[i] in r
  {
    if cs == [] then []
    else (if HasSecurity(cs[0]) then [cs[0]] else []) + WithSecurity(cs[1..])
  }

  /** `findConfigPreferringSecurityPolicy`: an empty list is an error; with no root
      policy the first configuration; with one, the configuration that declares it;
      with more than one, an error. */
  function FindConfigPreferringSecurityPolicy(all: seq<PluginConfig>): (r: Result<PluginConfig>)
    ensures all == [] ==> r.Err?
    ensures r.Ok? ==> r.value in all
    ensures r.Ok? && HasSecurity(r.value) ==> |WithSecurity(all)| == 1
    ensures all != [] && WithSecurity(all) == [] ==> r == Ok(all[0])
  {
    if all == [] then Err("No plugin configurations")
    else
      var configsWithSecurity := WithSecurity(all);
      if configsWithSecurity == [] then Ok(all[0])
      else if |configsWithSecurity| == 1 then Ok(configsWithSecurity[0])
      else Err("Cannot specify root 'security' configuration block more than once. Ensure only one configuration file contains the root 'security' block.")
  }

  lemma {:induction false} WithSecurityOne(cs: seq<PluginConfig>, i: nat)
    requires i < |cs| && HasSecurity(cs[i])
    requires forall j :: 0 <= j < |cs| && j != i ==> !HasSecurity(cs[j])
    ensures WithSecurity(cs) == [cs[i]]
    decreases |cs|
  {
    if i == 0 {
      WithSecurityNone(cs[1..]);
    } else {
      WithSecurityOne(cs[1..], i - 1);
    }
  }

  lemma {:induction false} WithSecurityNone(cs: seq<PluginConfig>)
    requires forall j :: 0 <= j < |cs| ==> !HasSecurity(cs[j])
    ensures WithSecurity(cs) == []
    decreases |cs|
  {
    if cs != [] {
      WithSecurityNone(cs[1..]);
    }
  }

  lemma {:induction false} WithSecurityTwo(cs: seq<PluginConfig>, i: nat, j: nat)
    requires i < j < |cs| && HasSecurity(cs[i]) && HasSecurity(cs[j])
    ensures |WithSecurity(cs)| >= 2
    decreases |cs|
  {
    if i == 0 {
      assert cs[j] == cs[1..][j - 1];
      assert cs[1..][j - 1] in WithSecurity(cs[1..]);
    } else {
      WithSecurityTwo(cs[1..], i - 1, j - 1);
    }
  }

  /** Exactly one configuration with a root policy: that configuration is selected,
      wherever it is in the list. */
  lemma UniqueRootPolicySelected(all: seq<PluginConfig>, i: nat)
    requires i < |all| && HasSecurity(all[i])
    requires forall j :: 0 <= j < |all| && j != i ==> !HasSecurity(all[j])
    ensures FindConfigPreferringSecurityPolicy(all) == Ok(all[i])
  {
    WithSecurityOne(all, i);
  }

  /** Two configurations with a root policy make loading fail. */
  lemma DuplicateRootPolicyFails(all: seq<PluginConfig>, i: nat, j: nat)
    requires i < |all| && j < |all| && i != j && HasSecurity(all[i]) && HasSecurity(all[j])
    ensures FindConfigPreferringSecurityPolicy(all).Err?
  {
    if i < j { WithSecurityTwo(all, i, j); } else { WithSecurityTwo(all, j, i); }
  }

  // ---------------------------------------------------------------------------
  // Policy evaluation: the reference definitions

  /** The effect one name/value pair yields: the condition's effect when the pair
      matches, the inverted effect when it does not. The pair is looked up under its
      own `name`, lower-cased for headers. */
  function PairEffect(rx: Regex, pair: Condition, requestMap: Entries, conditionEffect: SecurityEffect,
                      caseSensitive: bool): (r: SecurityEffect)
    ensures (r == conditionEffect) ==
            ConditionMatches(rx, pair, ResourceMatcher.RequestValue(requestMap, pair.name, caseSensitive))
  {
    if ConditionMatches(rx, pair, ResourceMatcher.RequestValue(requestMap, pair.name, caseSensitive))
    then conditionEffect
    else conditionEffect.Invert()
  }

  predicate AllPairsPermit(rx: Regex, conditionMap: ConditionMap, requestMap: Entries,
                           conditionEffect: SecurityEffect, caseSensitive: bool) {
    forall k :: k in conditionMap ==>
      PairEffect(rx, conditionMap[k], requestMap, conditionEffect, caseSensitive) == Permit
  }

  /** A condition permits when every pair of its three maps yields Permit. */
  predicate ConditionPermits(rx: Regex, condition: SecurityCondition, request: HttpRequest) {
    AllPairsPermit(rx, condition.queryParams, request.queryParams, condition.effect, true) &&
    AllPairsPermit(rx, condition.formParams, request.formParams, condition.effect, true) &&
    AllPairsPermit(rx, condition.requestHeaders, request.headers, condition.effect, false)
  }

  /** The effect of a whole policy. */
  function PolicyEffect(rx: Regex, security: SecurityConfig, request: HttpRequest): SecurityEffect {
    if security.conditions == [] then security.defaultEffect
    else if forall i :: 0 <= i < |security.conditions| ==> ConditionPermits(rx, security.conditions[i], request)
    then Permit
    else Deny
  }

  /** What enforcement did to the exchange: whether the request may proceed, and the
      status passed to `fail`, if it was called. */
  datatype Decision = Decision(permitted: bool, failStatus: Option<int>)

  const PERMIT: Decision := Decision(true, None)
  const DENY: Decision := Decision(false, Some(HTTP_UNAUTHORIZED))

  datatype PolicyOutcome = PolicyOutcome(effect: SecurityEffect, policySource: string)

  // ---------------------------------------------------------------------------
  // Policy evaluation: the service's operations

  predicate AllPermit(effects: seq<SecurityEffect>) {
    forall i :: 0 <= i < |effects| ==> effects[i] == Permit
  }

  /** The effects of the pairs under the keys of `keys` are all Permit. */
  predicate PairsPermit(rx: Regex, conditionMap: ConditionMap, keys: set<string>, requestMap: Entries,
                        conditionEffect: SecurityEffect, caseSensitive: bool)
    requires keys <= conditionMap.Keys
  {
    forall k :: k in keys ==> PairEffect(rx, conditionMap[k], requestMap, conditionEffect, caseSensitive) == Permit
  }

  lemma PairsPermitStep(rx: Regex, conditionMap: ConditionMap, done: set<string>, key: string,
                        requestMap: Entries, conditionEffect: SecurityEffect, caseSensitive: bool,
                        effects: seq<SecurityEffect>)
    requires done <= conditionMap.Keys && key in conditionMap
    requires AllPermit(effects) == PairsPermit(rx, conditionMap, done, requestMap, conditionEffect, caseSensitive)
    ensures AllPermit(effects + [PairEffect(rx, conditionMap[key], requestMap, conditionEffect, caseSensitive)])
            == PairsPermit(rx, conditionMap, done + {key}, requestMap, conditionEffect, caseSensitive)
  {
    var e := PairEffect(rx, conditionMap[key], requestMap, conditionEffect, caseSensitive);
    AllPermitAppend(effects, [e]);
    assert [e][0] == e;
    assert AllPermit([e]) == (e == Permit);
    assert PairsPermit(rx, conditionMap, done + {key}, requestMap, conditionEffect, caseSensitive)
           == (PairsPermit(rx, conditionMap, done, requestMap, conditionEffect, caseSensitive) && e == Permit);
  }

  /** `checkCondition(conditionMap, requestMap, ...)`: one effect per configured pair,
      in the map's iteration order (which only the order of the effects depends on). */
  method PairEffects(rx: Regex, conditionMap: ConditionMap, requestMap: Entries,
                     conditionEffect: SecurityEffect, caseSensitive: bool)
    returns (effects: seq<SecurityEffect>)
    ensures |effects| == |conditionMap|
    ensures AllPermit(effects) == AllPairsPermit(rx, conditionMap, requestMap, conditionEffect, caseSensitive)
  {
    effects := [];
    var remaining := conditionMap.Keys;
    ghost var done: set<string> := {};
    while remaining != {}
      invariant remaining + done == conditionMap.Keys && remaining !! done
      invariant |effects| == |done|
      invariant AllPermit(effects) == PairsPermit(rx, conditionMap, done, requestMap, conditionEffect, caseSensitive)
      decreases |remaining|
    {
      var key :| key in remaining;
      var effect := PairEffect(rx, conditionMap[key], requestMap, conditionEffect, caseSensitive);
      PairsPermitStep(rx, conditionMap, done, key, requestMap, conditionEffect, caseSensitive, effects);
      effects := effects + [effect];
      SetStep(remaining, done, key);
      remaining := remaining - {key};
      done := done + {key};
    }
    PairsPermitAll(rx, conditionMap, done, requestMap, conditionEffect, caseSensitive);
  }

  lemma SetStep(remaining: set<string>, done: set<string>, key: string)
    requires key in remaining && remaining !! done
    ensures (remaining - {key}) + (done + {key}) == remaining + done
    ensures (remaining - {key}) !! (done + {key})
    ensures |done + {key}| == |done| + 1
  {
  }

  lemma PairsPermitAll(rx: Regex, conditionMap: ConditionMap, keys: set<string>, requestMap: Entries,
                       conditionEffect: SecurityEffect, caseSensitive: bool)
    requires keys == conditionMap.Keys
    ensures PairsPermit(rx, conditionMap, keys, requestMap, conditionEffect, caseSensitive) ==
            AllPairsPermit(rx, conditionMap, requestMap, conditionEffect, caseSensitive)
  {
  }

  /** `checkCondition(condition, exchange)`: the effects of the query, form and header
      pairs are collected and the condition permits when all of them are Permit. */
  method CheckCondition(rx: Regex, condition: SecurityCondition, request: HttpRequest) returns (permits: bool)
    ensures permits == ConditionPermits(rx, condition, request)
  {
    var results: seq<SecurityEffect> := [];
    var q := PairEffects(rx, condition.queryParams, request.queryParams, condition.effect, true);
    results := results + q;
    var f := PairEffects(rx, condition.formParams, request.formParams, condition.effect, true);
    results := results + f;
    var h := PairEffects(rx, condition.requestHeaders, request.headers, condition.effect, false);
    results := results + h;
    AllPermitThree(q, f, h);
    permits := AllPermit(results);
  }

  lemma AllPermitThree(q: seq<SecurityEffect>, f: seq<SecurityEffect>, h: seq<SecurityEffect>)
    ensures AllPermit([] + q + f + h) == (AllPermit(q) && AllPermit(f) && AllPermit(h))
  {
    assert [] + q + f + h == (q + f) + h;
    AllPermitAppend(q, f);
    AllPermitAppend(q + f, h);
  }

  lemma AllPermitAppend(a: seq<SecurityEffect>, b: seq<SecurityEffect>)
    ensures AllPermit(a + b) == (AllPermit(a) && AllPermit(b))
  {
    if AllPermit(a) && AllPermit(b) {
      forall i | 0 <= i < |a + b| ensures (a + b)[i] == Permit {
        if i >= |a| { assert (a + b)[i] == b[i - |a|]; }
      }
    }
    if AllPermit(a + b) {
      forall i | 0 <= i < |b| ensures b[i] == Permit {
        assert (a + b)[|a| + i] == b[i];
      }
      forall i | 0 <= i < |a| ensures a[i] == Permit {
        assert (a + b)[i] == a[i];
      }
    }
  }

  /** `evaluatePolicy`: the conditions that do not permit decide. */
  method EvaluatePolicy(rx: Regex, security: SecurityConfig, request: HttpRequest,
                        order: ConditionMap -> seq<string>)
    returns (outcome: PolicyOutcome)
    requires security.conditions != []
    ensures outcome.effect == PolicyEffect(rx, security, request)
    ensures outcome.effect == Permit ==> outcome.policySource == "all conditions"
  {
    var failed: seq<SecurityCondition> := [];
    var i := 0;
    while i < |security.conditions|
      invariant 0 <= i <= |security.conditions|
      invariant failed == [] <==> forall j :: 0 <= j < i ==> ConditionPermits(rx, security.conditions[j], request)
    {
      var permits := CheckCondition(rx, security.conditions[i], request);
      if !permits {
        failed := failed + [security.conditions[i]];
      }
      i := i + 1;
    }
    if failed == [] {
      outcome := PolicyOutcome(Permit, "all conditions");
    } else {
      outcome := PolicyOutcome(Deny, Join(", ", DescribeAll(failed, order)));
    }
  }

  /** `enforce` with `enforceEffect`: a policy without conditions applies its default
      effect; Deny calls `fail(401)` and refuses the request; Permit lets it through
      and touches nothing. */
  method Enforce(rx: Regex, security: SecurityConfig, request: HttpRequest, order: ConditionMap -> seq<string>)
    returns (decision: Decision)
    ensures decision == (if PolicyEffect(rx, security, request) == Permit then PERMIT else DENY)
  {
    var outcome: PolicyOutcome;
    if security.conditions == [] {
      outcome := PolicyOutcome(security.defaultEffect, "default effect");
    } else {
      outcome := EvaluatePolicy(rx, security, request, order);
    }
    if outcome.effect != Permit {
      decision := DENY;
    } else {
      decision := PERMIT;
    }
  }

  // ---------------------------------------------------------------------------
  // Denial description, which only feeds the log

  /** `describeConditionPart`: `partType: [k1, k2]`, after ", " when the description
      already has text; an empty part adds nothing. */
  function DescribeConditionPart(description: string, partKeys: seq<string>, partType: string): string {
    if partKeys == [] then description
    else (if description != [] then description + ", " else description) +
         partType + ": [" + Join(", ", partKeys) + "]"
  }

  /** `describeCondition`, with the maps' key iteration order given by `order`. */
  function DescribeCondition(condition: SecurityCondition, order: ConditionMap -> seq<string>): string {
    DescribeConditionPart(DescribeConditionPart("", order(condition.queryParams), "query conditions"),
                          order(condition.requestHeaders), "header conditions")
  }

  function DescribeAll(conditions: seq<SecurityCondition>, order: ConditionMap -> seq<string>): (r: seq<string>)
    ensures |r| == |conditions|
  {
    if conditions == [] then [] else [DescribeCondition(conditions[0], order)] + DescribeAll(conditions[1..], order)
  }

  // ---------------------------------------------------------------------------
  // Properties

  /** Without conditions the outcome is exactly the default effect. */
  lemma NoConditionsDefaultEffect(rx: Regex, security: SecurityConfig, request: HttpRequest)
    requires security.conditions == []
    ensures PolicyEffect(rx, security, request) == security.defaultEffect
  {
  }

  /** With conditions the default effect is ignored: Deny exactly when some condition
      does not permit. */
  lemma DenyIffSomeConditionFails(rx: Regex, security: SecurityConfig, request: HttpRequest)
    requires security.conditions != []
    ensures PolicyEffect(rx, security, request) == Deny <==>
            exists i :: 0 <= i < |security.conditions| && !ConditionPermits(rx, security.conditions[i], request)
    ensures PolicyEffect(rx, security, request) == PolicyEffect(rx, security.(defaultEffect := Deny), request)
    ensures PolicyEffect(rx, security, request) == PolicyEffect(rx, security.(defaultEffect := Permit), request)
  {
  }

  /** A pair yields Permit exactly when its match outcome agrees with its condition's
      effect: a Permit condition must match, a Deny condition must not. */
  lemma PairPermitsIff(rx: Regex, pair: Condition, requestMap: Entries, conditionEffect: SecurityEffect,
                       caseSensitive: bool)
    ensures PairEffect(rx, pair, requestMap, conditionEffect, caseSensitive) == Permit <==>
            (ConditionMatches(rx, pair, ResourceMatcher.RequestValue(requestMap, pair.name, caseSensitive))
             <==> conditionEffect == Permit)
  {
  }

  /** A condition with no pairs at all permits, whatever its effect. */
  lemma EmptyConditionPermits(rx: Regex, effect: SecurityEffect, request: HttpRequest)
    ensures ConditionPermits(rx, SecurityCondition(effect, map[], map[], map[]), request)
  {
  }

  /** Header pairs compare keys ignoring case: the value tested is that of the last
      request header whose name equals the pair's name ignoring case. */
  lemma HeaderPairIgnoresCase(rx: Regex, pair: Condition, headers: Entries, conditionEffect: SecurityEffect)
    ensures var actual := if HasKeyIgnoringCase(headers, pair.name)
                          then Some(headers[LastIgnoringCase(headers, pair.name)].1) else None;
            PairEffect(rx, pair, headers, conditionEffect, false) ==
            if ConditionMatches(rx, pair, actual) then conditionEffect else conditionEffect.Invert()
  {
    ResourceMatcher.HeaderKeysIgnoreCase(headers, pair.name);
  }

  /** The description names query and header keys only: form pairs never appear. */
  lemma DescriptionIgnoresForm(condition: SecurityCondition, formParams: ConditionMap,
                               order: ConditionMap -> seq<string>)
    ensures DescribeCondition(condition.(formParams := formParams), order) == DescribeCondition(condition, order)
  {
  }
}
