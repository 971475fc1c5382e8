/** `RemoteProcessingStep`: send a request to a remote service, capture items from its
    exchange, and build the behaviour. The remote call, the capture service and the
    factory's `build` are parameters: a call that throws is a result of `Err` or
    `false`. */
module RemoteStep {
  import opened Common
  import opened Http
  import opened Config
  import opened ResponseBehaviour

  /** `RemoteStepConfig`; `capture` holds its entries in the configured order. */
  datatype RemoteStepConfig<C> = RemoteStepConfig(
    url: string,
    httpMethod: HttpMethod,
    queryParams: Option<map<string, string>>,
    formParams: Option<map<string, string>>,
    headers: Option<map<string, string>>,
    content: Option<string>,
    capture: Option<seq<(string, C)>>
  )

  /** Evaluators are known here by name. */
  const REMOTE_EVALUATOR: string := "RemoteEvaluator"

  /** The step's evaluators: the defaults plus the "remote" entry. */
  function Evaluators(defaults: map<string, string>): (r: map<string, string>)
    ensures r.Keys == defaults.Keys + {"remote"}
    ensures r["remote"] == REMOTE_EVALUATOR
    ensures forall k :: k in defaults && k != "remote" ==> r[k] == defaults[k]
  {
    defaults["remote" := REMOTE_EVALUATOR]
  }

  /** The configuration the failure behaviour is built from: only an empty response
      configuration. */
  const EMPTY_RESOURCE_CONFIG: ResourceConfig := BareConfig.(responseConfig := Some(EmptyResponseConfig))

  function CaptureKeys<C>(captures: seq<(string, C)>): (keys: seq<string>)
    ensures |keys| == |captures|
    ensures forall i :: 0 <= i < |captures| ==> keys[i] == captures[i].0
  {
    seq(|captures|, i requires 0 <= i < |captures| => captures[i].0)
  }

  /** The index of the first capture that throws, or the number of captures when none does. */
  function FirstFailure<C>(captures: seq<(string, C)>, capture: (string, C) -> bool): (n: nat)
    ensures n <= |captures|
    ensures forall i :: 0 <= i < n ==> capture(captures[i].0, captures[i].1)
    ensures n < |captures| ==> !capture(captures[n].0, captures[n].1)
    decreases |captures|
  {
    if captures == [] then 0
    else if !capture(captures[0].0, captures[0].1) then 0
    else 1 + FirstFailure(captures[1..], capture)
  }

  /** The captures attempted: all of them, or up to and including the one that throws. */
  function Attempted<C>(captures: seq<(string, C)>, capture: (string, C) -> bool): seq<string> {
    var n := FirstFailure(captures, capture);
    CaptureKeys(captures[..if n < |captures| then n + 1 else n])
  }

  /** `execute`: never fails. A throwing remote call or capture gives the behaviour built
      with 500 and an empty configuration; otherwise the behaviour is built from the
      incoming status code and the step's resource configuration. Captures run in order,
      only once the remote call has returned, and stop at the first that throws. */
  method Execute<C, X>(config: RemoteStepConfig<C>, rc: ResourceConfig, statusCode: int,
                       sendRequest: RemoteStepConfig<C> -> Result<X>,
                       captureItem: (string, C, X, map<string, string>) -> bool,
                       defaultEvaluators: map<string, string>,
                       build: (int, ResourceConfig) -> BehaviourState)
    returns (behaviour: BehaviourState, captured: seq<string>)
    ensures sendRequest(config).Err? ==>
              behaviour == build(HTTP_INTERNAL_ERROR, EMPTY_RESOURCE_CONFIG) && captured == []
    ensures sendRequest(config).Ok? && config.capture.None? ==>
              behaviour == build(statusCode, rc) && captured == []
    ensures sendRequest(config).Ok? && config.capture.Some? ==>
              var x := sendRequest(config).value;
              var ev := Evaluators(defaultEvaluators);
              var capture := (key, c) => captureItem(key, c, x, ev);
              captured == Attempted(config.capture.value, capture) &&
              behaviour == (if FirstFailure(config.capture.value, capture) == |config.capture.value|
                            then build(statusCode, rc) else build(HTTP_INTERNAL_ERROR, EMPTY_RESOURCE_CONFIG))
  {
    captured := [];
    var remoteExchange := sendRequest(config);
    if remoteExchange.Err? {
      return build(HTTP_INTERNAL_ERROR, EMPTY_RESOURCE_CONFIG), captured;
    }
    var ev := Evaluators(defaultEvaluators);
    var failed := false;
    if config.capture.Some? {
      var captures := config.capture.value;
      ghost var capture := (key, c) => captureItem(key, c, remoteExchange.value, ev);
      var i := 0;
      while i < |captures| && !failed
        invariant 0 <= i <= |captures|
        invariant !failed ==> i <= FirstFailure(captures, capture)
        invariant failed ==> 1 <= i && i - 1 == FirstFailure(captures, capture)
        invariant captured == CaptureKeys(captures[..i])
      {
        captured := captured + [captures[i].0];
        if !captureItem(captures[i].0, captures[i].1, remoteExchange.value, ev) {
          failed := true;
        }
        i := i + 1;
      }
    }
    if failed {
      behaviour := build(HTTP_INTERNAL_ERROR, EMPTY_RESOURCE_CONFIG);
    } else {
      behaviour := build(statusCode, rc);
    }
  }

  /** Every capture runs exactly when none throws. */
  lemma {:induction false} AllCapturesRun<C>(captures: seq<(string, C)>, capture: (string, C) -> bool)
    ensures FirstFailure(captures, capture) == |captures| <==>
            forall i :: 0 <= i < |captures| ==> capture(captures[i].0, captures[i].1)
    ensures FirstFailure(captures, capture) == |captures| ==> Attempted(captures, capture) == CaptureKeys(captures)
  {
    assert captures[..|captures|] == captures;
  }
}
