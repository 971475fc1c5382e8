/** `SecurityLifecycleListenerImpl`: which policy guards a request, and whether the
    request may proceed. */
module SecurityListener {
  import opened Common
  import opened Http
  import opened MatchUtil
  import opened Config
  import opened ResolvedResourceConfig
  import opened Security

  /** `getSecurityConfig(config)`: null for a configuration that is not a security
      holder, otherwise its (possibly null) policy. */
  function SecurityOf(config: Option<ResourceConfig>): Option<SecurityConfig> {
    match config
    case Some(c) => if c.security.Some? then c.security.value else None
    case None => None
  }

  /** `getSecurityConfig(root, resource)`: the resource's policy, falling back to the
      root's only when the resource has none. */
  function SelectPolicy(root: ResourceConfig, resource: Option<ResourceConfig>): (r: Option<SecurityConfig>)
    ensures resource.Some? && resource.value.security.Some? && resource.value.security.value.Some? ==>
              r == resource.value.security.value
    ensures SecurityOf(resource).None? ==> r == SecurityOf(Some(root))
  {
    var security := SecurityOf(resource);
    if security.None? then SecurityOf(Some(root)) else security
  }

  /** `isRequestPermitted`: with no policy at either level the request proceeds and
      nothing is enforced; otherwise enforcement of the selected policy decides. The
      resolved resource configurations are passed but not consulted. */
  method IsRequestPermitted(rx: Regex, root: ResourceConfig, resource: Option<ResourceConfig>,
                            resolvedResourceConfigs: seq<Option<Resolved>>, request: HttpRequest,
                            order: ConditionMap -> seq<string>)
    returns (decision: Decision)
    ensures SelectPolicy(root, resource).None? ==> decision == PERMIT
    ensures SelectPolicy(root, resource).Some? ==>
              decision == (if PolicyEffect(rx, SelectPolicy(root, resource).value, request) == Permit
                           then PERMIT else DENY)
  {
    var security := SelectPolicy(root, resource);
    if security.Some? {
      decision := Enforce(rx, security.value, request, order);
    } else {
      decision := PERMIT;
    }
  }

  /** A resource-level policy overrides the root policy entirely. */
  lemma ResourcePolicyWins(root: ResourceConfig, resource: ResourceConfig, policy: SecurityConfig)
    requires resource.security == Some(Some(policy))
    ensures SelectPolicy(root, Some(resource)) == Some(policy)
  {
  }

  /** The root policy guards a request whose resource is absent, is not a security
      holder, or holds a null policy. */
  lemma RootPolicyFallback(root: ResourceConfig, resource: Option<ResourceConfig>)
    requires resource.None? || resource.value.security.None? || resource.value.security.value.None?
    ensures SelectPolicy(root, resource) == SecurityOf(Some(root))
  {
  }

  /** Policy selection is the same however the request looks, so a resource with a
      policy is guarded by it even when the root denies everything. */
  lemma ResourcePermitOverridesRootDeny(rx: Regex, root: ResourceConfig, resource: ResourceConfig,
                                        request: HttpRequest)
    requires root.security == Some(Some(SecurityConfig(Deny, [])))
    requires resource.security == Some(Some(SecurityConfig(Permit, [])))
    ensures PolicyEffect(rx, SelectPolicy(root, Some(resource)).value, request) == Permit
    ensures PolicyEffect(rx, SelectPolicy(root, None).value, request) == Deny
  {
  }
}
