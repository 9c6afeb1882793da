/** The external HTTP load balancer in front of the fleet: a global address, a health
    check, a backend service over the instance group, a URL map, a target proxy and a
    forwarding rule, each referring to earlier ones by output. */
module LoadBalancer {
  import opened Strings
  import opened Resources
  import opened Fleet

  datatype GlobalAddress = GlobalAddress(name: string)

  datatype HealthCheck = HealthCheck(name: string, requestPath: string, port: nat)

  datatype BackendService = BackendService(
    name: string,
    groups: seq<Ref>,
    healthCheck: Ref,
    scheme: string,
    protocol: string,
    portName: string)

  datatype UrlMap = UrlMap(name: string, defaultService: Ref)

  datatype HttpProxy = HttpProxy(name: string, urlMap: Ref)

  datatype ForwardingRule = ForwardingRule(name: string, ipAddress: Ref, protocol: string, portRange: string, target: Ref)

  /** What `createLoadBalancer` returns. */
  datatype Balancer = Balancer(
    address: GlobalAddress,
    healthCheck: HealthCheck,
    backend: BackendService,
    urlMap: UrlMap,
    proxy: HttpProxy,
    rule: ForwardingRule,
    ip: Ref)

  /** The name suffixes of the six resources, in declaration order. */
  const Suffixes: seq<string> :=
    ["-address", "-health-check", "-backend-service", "-url-map", "-http-proxy", "-forwarding-rule"]

  /** `createLoadBalancer(name, instanceGroup)`. */
  function CreateLoadBalancer(cfg: Config, name: string, group: GroupManager): (lb: Balancer)
    ensures lb.backend.groups == [Ref(group.name, "instanceGroup")]
    ensures lb.backend.healthCheck == Ref(lb.healthCheck.name, "id")
    ensures lb.healthCheck.requestPath == cfg.healthCheckPath && lb.healthCheck.port == cfg.nodePort
    ensures lb.backend.portName == PortName(cfg.nodePort)
    ensures lb.urlMap.defaultService == Ref(lb.backend.name, "id")
    ensures lb.proxy.urlMap == Ref(lb.urlMap.name, "id")
    ensures lb.rule.target == Ref(lb.proxy.name, "id")
    ensures lb.rule.protocol == "TCP" && lb.rule.portRange == "80"
    ensures lb.ip == lb.rule.ipAddress == Ref(lb.address.name, "address")
  {
    var address := GlobalAddress(name + Suffixes[0]);
    var check := HealthCheck(name + Suffixes[1], cfg.healthCheckPath, cfg.nodePort);
    var backend := BackendService(name + Suffixes[2], [Ref(group.name, "instanceGroup")], Ref(check.name, "id"),
                                  "EXTERNAL", "HTTP", PortName(cfg.nodePort));
    var urlMap := UrlMap(name + Suffixes[3], Ref(backend.name, "id"));
    var proxy := HttpProxy(name + Suffixes[4], Ref(urlMap.name, "id"));
    var rule := ForwardingRule(name + Suffixes[5], Ref(address.name, "address"), "TCP", "80", Ref(proxy.name, "id"));
    Balancer(address, check, backend, urlMap, proxy, rule, Ref(address.name, "address"))
  }

  /** A declared resource: its name and the resources whose outputs it uses. */
  datatype Declaration = Declaration(name: string, uses: seq<string>)

  function GroupNames(groups: seq<Ref>): (r: seq<string>)
    ensures |r| == |groups| && forall k :: 0 <= k < |groups| ==> r[k] == groups[k].resource
  {
    seq(|groups|, k requires 0 <= k < |groups| => groups[k].resource)
  }

  /** The six declarations in program order. */
  function Declarations(lb: Balancer): seq<Declaration>
  {
    [ Declaration(lb.address.name, []),
      Declaration(lb.healthCheck.name, []),
      Declaration(lb.backend.name, GroupNames(lb.backend.groups) + [lb.backend.healthCheck.resource]),
      Declaration(lb.urlMap.name, [lb.urlMap.defaultService.resource]),
      Declaration(lb.proxy.name, [lb.proxy.urlMap.resource]),
      Declaration(lb.rule.name, [lb.rule.ipAddress.resource, lb.rule.target.resource]) ]
  }

  /** Every resource a declaration uses is external or declared before it. */
  predicate InOrder(ds: seq<Declaration>, external: set<string>)
  {
    forall i, k :: 0 <= i < |ds| && 0 <= k < |ds[i].uses| ==>
      ds[i].uses[k] in external || exists j :: 0 <= j < i && ds[j].name == ds[i].uses[k]
  }

  /** The load balancer only refers to the instance group and to its own earlier
      resources, so declaring in program order never waits on a later declaration. */
  lemma DeclaredInOrder(cfg: Config, name: string, group: GroupManager)
    ensures InOrder(Declarations(CreateLoadBalancer(cfg, name, group)), {group.name})
  {
    var lb := CreateLoadBalancer(cfg, name, group);
    var ds := Declarations(lb);
    assert ds[2].uses == [group.name, ds[1].name];
    assert ds[2].uses[1] == ds[1].name;
    assert ds[3].uses[0] == ds[2].name;
    assert ds[4].uses[0] == ds[3].name;
    assert ds[5].uses[0] == ds[0].name && ds[5].uses[1] == ds[4].name;
  }

  lemma SuffixesDistinct()
    ensures forall i, j :: 0 <= i < j < |Suffixes| ==> Suffixes[i] != Suffixes[j]
  {
  }

  /** The six resources get six different names. */
  lemma NamesDistinct(cfg: Config, name: string, group: GroupManager)
    ensures var ds := Declarations(CreateLoadBalancer(cfg, name, group));
      forall i, j :: 0 <= i < j < |ds| ==> ds[i].name != ds[j].name
  {
    var ds := Declarations(CreateLoadBalancer(cfg, name, group));
    forall i, j | 0 <= i < j < |ds|
      ensures ds[i].name != ds[j].name
    {
      assert ds[i].name == name + Suffixes[i] && ds[j].name == name + Suffixes[j];
      SuffixesDistinct();
      if ds[i].name == ds[j].name {
        AppendCancel(name, Suffixes[i], Suffixes[j]);
      }
    }
  }

  /** The backend's port name is the named port the instance group publishes, so traffic
      reaches the port the fleet serves on. */
  lemma PortNamesMatch(cfg: Config, lbName: string, groupName: string, template: FleetTemplate, region: string, size: nat)
    ensures var g := CreateInstanceGroup(cfg, groupName, template, region, size);
      exists k :: 0 <= k < |g.namedPorts| &&
        g.namedPorts[k].name == CreateLoadBalancer(cfg, lbName, g).backend.portName &&
        g.namedPorts[k].port == CreateLoadBalancer(cfg, lbName, g).healthCheck.port == cfg.nodePort
  {
    var g := CreateInstanceGroup(cfg, groupName, template, region, size);
    assert g.namedPorts[0].name == CreateLoadBalancer(cfg, lbName, g).backend.portName;
  }
}
