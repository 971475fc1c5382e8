/** The condition evaluator shared by resource matching and security: a configured
    name/operator/value condition tested against an optional actual string. */
module MatchUtil {
  import opened Common

  datatype MatchOperator = EqualTo | NotEqualTo | Matches | NotMatches

  /** `ConditionalNameValuePair`: the configured value may be absent (null). */
  datatype Condition = Condition(name: string, value: Option<string>, operator: MatchOperator)

  /** The regular-expression engine, left uninterpreted: `rx(expression, input)` holds
      when `input` matches `expression` in full. */
  type Regex = (string, string) -> bool

  /** `safeEquals`: null-safe equality, which is exactly equality of optional values. */
  function SafeEquals(a: Option<string>, b: Option<string>): (r: bool)
    ensures r <==> a == b
  {
    if a.Some? then a == b else b.None?
  }

  /** `safeRegexMatch`: a null expression never matches; an absent actual value is
      tested as the empty string. */
  function SafeRegexMatch(rx: Regex, actual: Option<string>, expression: Option<string>): (r: bool)
    ensures expression.None? ==> !r
    ensures expression.Some? && actual.None? ==> (r <==> rx(expression.value, ""))
    ensures expression.Some? && actual.Some? ==> (r <==> rx(expression.value, actual.value))
  {
    match expression
    case None => false
    case Some(e) => rx(e, actual.GetOr(""))
  }

  /** `conditionMatches`: total over the four operators. */
  function ConditionMatches(rx: Regex, condition: Condition, actual: Option<string>): (matched: bool)
    ensures condition.operator == EqualTo ==> (matched <==> actual == condition.value)
    ensures condition.operator == NotEqualTo ==> (matched <==> actual != condition.value)
    ensures condition.operator == Matches ==>
              (matched <==> condition.value.Some? && rx(condition.value.value, actual.GetOr("")))
    ensures condition.operator == NotMatches ==>
              (matched <==> !(condition.value.Some? && rx(condition.value.value, actual.GetOr(""))))
  {
    match condition.operator
    case EqualTo => SafeEquals(actual, condition.value)
    case NotEqualTo => !SafeEquals(actual, condition.value)
    case Matches => SafeRegexMatch(rx, actual, condition.value)
    case NotMatches => !SafeRegexMatch(rx, actual, condition.value)
  }

  /** NotEqualTo is the exact negation of EqualTo, and NotMatches of Matches, for every
      configured value (null included) and every actual value. */
  lemma NegatedOperators(rx: Regex, name: string, value: Option<string>, actual: Option<string>)
    ensures ConditionMatches(rx, Condition(name, value, NotEqualTo), actual)
            == !ConditionMatches(rx, Condition(name, value, EqualTo), actual)
    ensures ConditionMatches(rx, Condition(name, value, NotMatches), actual)
            == !ConditionMatches(rx, Condition(name, value, Matches), actual)
  {
  }

  /** EqualTo with a null configured value matches exactly when the actual value is absent;
      Matches with a null configured value never matches. */
  lemma NullConfiguredValue(rx: Regex, name: string, actual: Option<string>)
    ensures ConditionMatches(rx, Condition(name, None, EqualTo), actual) <==> actual.None?
    ensures !ConditionMatches(rx, Condition(name, None, Matches), actual)
    ensures ConditionMatches(rx, Condition(name, None, NotMatches), actual)
  {
  }

  /** The condition's own name plays no part in the test. */
  lemma NameIrrelevant(rx: Regex, c: Condition, otherName: string, actual: Option<string>)
    ensures ConditionMatches(rx, c.(name := otherName), actual) == ConditionMatches(rx, c, actual)
  {
  }
}
