/** The response behaviour a resource produces, and the factories that fill it in from
    a resource configuration: the default factory, and the OpenAPI and SOAP factories
    that extend its `populate` and `merge`.

    `DefaultResponseBehaviourFactory` and `ReadWriteResponseBehaviourImpl` are not part
    of this model: the base factory's `populate`, `merge` and `build` are parameters, and
    the behaviour keeps only the properties the modelled code reads or writes. */
module ResponseBehaviour {
  import opened Common
  import opened Http
  import opened Config

  datatype ResponseBehaviourType = DefaultBehaviour | ShortCircuit

  /** What a behaviour holds, as a value. */
  datatype BehaviourState = BehaviourState(
    behaviourType: Option<ResponseBehaviourType>,
    statusCode: int,
    exampleName: Option<string>,
    soapFault: bool,
    responseHeaders: map<string, string>
  )

  /** `withSoapFault()`: marks the behaviour as a SOAP fault, which also sets the status
      code to 500. */
  function Faulted(b: BehaviourState): (r: BehaviourState)
    ensures r.soapFault && r.statusCode == HTTP_INTERNAL_ERROR
    ensures r.(soapFault := b.soapFault, statusCode := b.statusCode) == b
  {
    b.(soapFault := true, statusCode := HTTP_INTERNAL_ERROR)
  }

  /** `withExampleName(name)`. */
  function Named(b: BehaviourState, name: string): (r: BehaviourState)
    ensures r.exampleName == Some(name)
    ensures r.(exampleName := b.exampleName) == b
  {
    b.(exampleName := Some(name))
  }

  /** `ReadWriteResponseBehaviour`: a behaviour updated in place by the factories. */
  class ReadWriteResponseBehaviour {
    var behaviourType: Option<ResponseBehaviourType>
    var statusCode: int
    var exampleName: Option<string>
    var soapFault: bool
    var responseHeaders: map<string, string>

    function State(): BehaviourState
      reads this
    {
      BehaviourState(behaviourType, statusCode, exampleName, soapFault, responseHeaders)
    }

    constructor (initial: BehaviourState)
      ensures State() == initial
    {
      behaviourType := initial.behaviourType;
      statusCode := initial.statusCode;
      exampleName := initial.exampleName;
      soapFault := initial.soapFault;
      responseHeaders := initial.responseHeaders;
    }

    method WithSoapFault()
      modifies this
      ensures State() == Faulted(old(State()))
    {
      soapFault := true;
      statusCode := HTTP_INTERNAL_ERROR;
    }

    method WithExampleName(name: string)
      modifies this
      ensures State() == Named(old(State()), name)
    {
      exampleName := Some(name);
    }

    /** Writes a whole state: how the effect of the base factory is applied. */
    method Assign(s: BehaviourState)
      modifies this
      ensures State() == s
    {
      behaviourType := s.behaviourType;
      statusCode := s.statusCode;
      exampleName := s.exampleName;
      soapFault := s.soapFault;
      responseHeaders := s.responseHeaders;
    }
  }

  /** The effect of `DefaultResponseBehaviourFactory`'s own `populate`, `merge` and
      `build`. */
  datatype BaseFactory = BaseFactory(
    populate: (int, ResourceConfig, BehaviourState) -> BehaviourState,
    merge: (BehaviourState, BehaviourState) -> BehaviourState,
    build: (int, ResourceConfig) -> BehaviourState
  )

  datatype FactoryKind = DefaultFactory | OpenApiFactory | SoapFactory

  function ConfiguredExampleName(rc: ResourceConfig): Option<string> {
    if rc.responseConfig.Some? then rc.responseConfig.value.exampleName else None
  }

  function ConfiguredSoapFault(rc: ResourceConfig): Option<bool> {
    if rc.responseConfig.Some? then rc.responseConfig.value.soapFault else None
  }

  /** The OpenAPI factory's `populate`: the base populate first, then the configured
      example name, only where the behaviour has none. */
  function OpenApiPopulated(base: BaseFactory, statusCode: int, rc: ResourceConfig,
                            b: BehaviourState): BehaviourState
  {
    var p := base.populate(statusCode, rc, b);
    var configExampleName := ConfiguredExampleName(rc);
    if IsNullOrEmpty(p.exampleName) && !IsNullOrEmpty(configExampleName)
    then Named(p, configExampleName.value) else p
  }

  /** The SOAP factory's `populate`: the fault mark first, the base populate last. */
  function SoapPopulated(base: BaseFactory, statusCode: int, rc: ResourceConfig,
                         b: BehaviourState): BehaviourState
  {
    base.populate(statusCode, rc, if ConfiguredSoapFault(rc) == Some(true) then Faulted(b) else b)
  }

  /** The SOAP factory's `merge`: the base merge, then the source's fault mark. */
  function SoapMerged(base: BaseFactory, source: BehaviourState, target: BehaviourState): BehaviourState {
    var m := base.merge(source, target);
    if source.soapFault then Faulted(m) else m
  }

  function Populated(kind: FactoryKind, base: BaseFactory, statusCode: int, rc: ResourceConfig,
                     b: BehaviourState): BehaviourState
  {
    match kind
    case DefaultFactory => base.populate(statusCode, rc, b)
    case OpenApiFactory => OpenApiPopulated(base, statusCode, rc, b)
    case SoapFactory => SoapPopulated(base, statusCode, rc, b)
  }

  /** The OpenAPI factory does not override `merge`. */
  function Merged(kind: FactoryKind, base: BaseFactory, source: BehaviourState,
                  target: BehaviourState): BehaviourState
  {
    match kind
    case SoapFactory => SoapMerged(base, source, target)
    case _ => base.merge(source, target)
  }

  /** `populate` of the factory of the given kind, on the behaviour in place. */
  method Populate(kind: FactoryKind, base: BaseFactory, statusCode: int, rc: ResourceConfig,
                  behaviour: ReadWriteResponseBehaviour)
    modifies behaviour
    ensures behaviour.State() == Populated(kind, base, statusCode, rc, old(behaviour.State()))
  {
    match kind
    case DefaultFactory =>
      behaviour.Assign(base.populate(statusCode, rc, behaviour.State()));
    case OpenApiFactory =>
      behaviour.Assign(base.populate(statusCode, rc, behaviour.State()));
      var configExampleName := ConfiguredExampleName(rc);
      if IsNullOrEmpty(behaviour.exampleName) && !IsNullOrEmpty(configExampleName) {
        behaviour.WithExampleName(configExampleName.value);
      }
    case SoapFactory =>
      if ConfiguredSoapFault(rc) == Some(true) {
        behaviour.WithSoapFault();
      }
      behaviour.Assign(base.populate(statusCode, rc, behaviour.State()));
  }

  /** `merge` of the factory of the given kind, into the target in place. */
  method Merge(kind: FactoryKind, base: BaseFactory, source: BehaviourState,
               target: ReadWriteResponseBehaviour)
    modifies target
    ensures target.State() == Merged(kind, base, source, old(target.State()))
  {
    target.Assign(base.merge(source, target.State()));
    if kind == SoapFactory && source.soapFault {
      target.WithSoapFault();
    }
  }

  // ---------------------------------------------------------------------------
  // Properties of the OpenAPI factory

  /** An example name the base populate left non-empty is never overwritten, and the
      OpenAPI rule touches nothing but the example name. */
  lemma OpenApiKeepsExistingName(base: BaseFactory, statusCode: int, rc: ResourceConfig, b: BehaviourState)
    ensures !IsNullOrEmpty(base.populate(statusCode, rc, b).exampleName) ==>
              OpenApiPopulated(base, statusCode, rc, b) == base.populate(statusCode, rc, b)
    ensures OpenApiPopulated(base, statusCode, rc, b).(exampleName := base.populate(statusCode, rc, b).exampleName)
            == base.populate(statusCode, rc, b)
  {
  }

  /** An empty example name after the base populate, with a configured non-empty name,
      ends up as the configured name; an empty configured name leaves the base result. */
  lemma OpenApiFillsEmptyName(base: BaseFactory, statusCode: int, rc: ResourceConfig, b: BehaviourState)
    ensures IsNullOrEmpty(base.populate(statusCode, rc, b).exampleName) && !IsNullOrEmpty(ConfiguredExampleName(rc)) ==>
              OpenApiPopulated(base, statusCode, rc, b).exampleName == ConfiguredExampleName(rc)
    ensures IsNullOrEmpty(ConfiguredExampleName(rc)) ==>
              OpenApiPopulated(base, statusCode, rc, b) == base.populate(statusCode, rc, b)
  {
  }

  /** After the OpenAPI populate, the example name is empty only when both the base
      result and the configuration left it empty. */
  lemma OpenApiNameEmptyIff(base: BaseFactory, statusCode: int, rc: ResourceConfig, b: BehaviourState)
    ensures IsNullOrEmpty(OpenApiPopulated(base, statusCode, rc, b).exampleName) <==>
            IsNullOrEmpty(base.populate(statusCode, rc, b).exampleName) && IsNullOrEmpty(ConfiguredExampleName(rc))
  {
  }

  // ---------------------------------------------------------------------------
  // Properties of the SOAP factory

  /** With `soapFault == true` the base populate receives a faulted behaviour (it runs
      last); with false or null it receives the behaviour untouched. */
  lemma SoapPopulateOrder(base: BaseFactory, statusCode: int, rc: ResourceConfig, b: BehaviourState)
    ensures ConfiguredSoapFault(rc) == Some(true) ==>
              SoapPopulated(base, statusCode, rc, b) == base.populate(statusCode, rc, Faulted(b))
    ensures ConfiguredSoapFault(rc) != Some(true) ==>
              SoapPopulated(base, statusCode, rc, b) == base.populate(statusCode, rc, b)
  {
  }

  /** A faulted source leaves the target faulted; a non-faulted source adds nothing
      beyond the base merge. */
  lemma SoapMergeFault(base: BaseFactory, source: BehaviourState, target: BehaviourState)
    ensures source.soapFault ==> SoapMerged(base, source, target).soapFault
    ensures source.soapFault ==> SoapMerged(base, source, target).statusCode == HTTP_INTERNAL_ERROR
    ensures !source.soapFault ==> SoapMerged(base, source, target) == base.merge(source, target)
  {
  }

  /** Marking a fault twice is the same as marking it once. */
  lemma FaultedIdempotent(b: BehaviourState)
    ensures Faulted(Faulted(b)) == Faulted(b)
  {
  }
}
