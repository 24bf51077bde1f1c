/** Flows between the workloads and other namespaces that the generated NetworkPolicies permit. */
module NetworkFlows {
  import opened EgressCidrs
  import opened NetworkPolicies

  /** Not a pod of the workload namespace. */
  predicate Outside(p: Profile, e: Endpoint) {
    e.Pod? ==> e.namespace != p.namespace
  }

  /** Policies of the workload namespace do not bear on what is outside it. */
  lemma OutsideIsFree(p: Profile, e: Endpoint, other: Endpoint, port: Port)
    requires Outside(p, e)
    ensures IngressAllowed(p.namespace, Policies(p), e, other, port)
    ensures EgressAllowed(p.namespace, Policies(p), e, other, port)
  {
  }

  lemma Members(p: Profile, s: Service)
    ensures AllowDns(p) in Policies(p) && StationIngress(p) in Policies(p) && Monitoring(p, s) in Policies(p)
    ensures Public(s) ==> PublicIngress(p, s) in Policies(p)
  {
    var all := Policies(p);
    var i := ServiceListed(s);
    assert all[1] == AllowDns(p) && all[15] == StationIngress(p) && all[6 + i] == Monitoring(p, s);
    if i < 4 { assert all[2 + i] == PublicIngress(p, s); }
  }

  // ---- Flows in.

  /** What other namespaces may send to a service. */
  predicate InboundFlow(p: Profile, namespace: string, to: Service, port: Port) {
    || (namespace == p.ingressNamespace &&
        match to
        case Gateway => port == Tcp(8443)
        case ControlPlane => port == Tcp(8444)
        case AgentProxy => port == Tcp(8445)
        case FirmwareOrigin => port == Tcp(8446)
        case FactoryTimeAuthority => port == Tcp(9445)
        case _ => false)
    || (namespace == p.monitoringNamespace &&
        match to
        case Gateway => port == Tcp(8443)
        case ControlPlane => port == Tcp(8444)
        case AgentProxy => port == Tcp(8445)
        case FirmwareOrigin => port == Tcp(8446)
        case GenerationCoordinator => port == Tcp(8447)
        case AccountAuthorization => port == Tcp(9080)
        case FactoryTimeAuthority => port == Tcp(9081))
    || (namespace == p.operatorNamespace &&
        match to
        case GenerationCoordinator => port == Tcp(8447)
        case AccountAuthorization => port == Tcp(9444)
        case _ => false)
  }

  /** A rule whose only peer is a namespace. */
  lemma NamespaceRule(home: string, number: nat, n: string, from: Endpoint, port: Port)
    ensures DirectionAllows(home, Governed([Rule([Tcp(number)], [NamespacePeer(n)])]), from, port) <==>
            port == Tcp(number) && from.Pod? && from.namespace == n
  {
    var peers := [NamespacePeer(n)];
    OnePortRule(home, number, peers, from, port);
    assert PeerNames(home, peers[0], from) <==> from.Pod? && from.namespace == n;
  }

  /** A rule with pods of the home namespace and then a namespace as peers, seen from outside. */
  lemma OperatorRule(p: Profile, number: nat, pods: seq<Peer>, n: string, from: Endpoint, port: Port)
    requires Outside(p, from) && forall i :: 0 <= i < |pods| ==> pods[i].PodPeer?
    ensures DirectionAllows(p.namespace, Governed([Rule([Tcp(number)], pods + [NamespacePeer(n)])]), from, port) <==>
            port == Tcp(number) && from.Pod? && from.namespace == n
  {
    var peers := pods + [NamespacePeer(n)];
    OnePortRule(p.namespace, number, peers, from, port);
    assert PeerNames(p.namespace, peers[|pods|], from) <==> from.Pod? && from.namespace == n;
  }

  lemma GenerationAdmits(p: Profile, from: Endpoint, port: Port)
    requires Outside(p, from)
    ensures DirectionAllows(p.namespace, GenerationInternal(p).ingress, from, port) <==>
            port == Tcp(8447) && from.Pod? && from.namespace == p.operatorNamespace
  {
    var pods := [PodPeer(Selector(ControlPlane)), PodPeer(Selector(FirmwareOrigin))];
    OperatorRule(p, 8447, pods, p.operatorNamespace, from, port);
    assert pods + [NamespacePeer(p.operatorNamespace)] == GenerationInternal(p).ingress.rules[0].peers;
  }

  lemma AccountAdmits(p: Profile, from: Endpoint, port: Port)
    requires Outside(p, from)
    ensures DirectionAllows(p.namespace, AccountInternal(p).ingress, from, port) <==>
            port == Tcp(9444) && from.Pod? && from.namespace == p.operatorNamespace
  {
    var pods := [PodPeer(Selector(ControlPlane))];
    OperatorRule(p, 9444, pods, p.operatorNamespace, from, port);
    assert pods + [NamespacePeer(p.operatorNamespace)] == AccountInternal(p).ingress.rules[0].peers;
  }

  /** What a policy for one service, with one namespace as its peer, lets in. */
  lemma NamespacePolicy(p: Profile, policy: Policy, s: Service, number: nat, n: string, b: Service, from: Endpoint,
                        to: Endpoint, port: Port)
    requires policy.selector == Selector(s) && policy.ingress == Governed([Rule([Tcp(number)], [NamespacePeer(n)])])
    requires Workload(p, b, to) && Selects(p.namespace, policy, to)
    requires DirectionAllows(p.namespace, policy.ingress, from, port)
    ensures s == b && port == Tcp(number) && from.Pod? && from.namespace == n
  {
    SelectorNames(s, b, to.labels);
    NamespaceRule(p.namespace, number, n, from, port);
  }

  lemma PublicFlow(p: Profile, namespace: string, b: Service, port: Port)
    requires namespace == p.ingressNamespace && port == Tcp(PortOf(b)) && (Public(b) || b == FactoryTimeAuthority)
    ensures InboundFlow(p, namespace, b, port)
  {
  }

  lemma MonitoringFlow(p: Profile, namespace: string, b: Service, port: Port)
    requires namespace == p.monitoringNamespace && port == Tcp(MonitorPort(b))
    ensures InboundFlow(p, namespace, b, port)
  {
  }

  lemma InboundInternal(p: Profile, policy: Policy, b: Service, from: Endpoint, to: Endpoint, port: Port)
    requires policy == GenerationInternal(p) || policy == AccountInternal(p)
    requires Outside(p, from) && Workload(p, b, to)
    requires Selects(p.namespace, policy, to) && DirectionAllows(p.namespace, policy.ingress, from, port)
    ensures from.Pod? && InboundFlow(p, from.namespace, b, port)
  {
    if policy == GenerationInternal(p) {
      SelectorNames(GenerationCoordinator, b, to.labels);
      GenerationAdmits(p, from, port);
    } else {
      SelectorNames(AccountAuthorization, b, to.labels);
      AccountAdmits(p, from, port);
    }
  }

  /** The policies that let anything in. */
  lemma IngressCases(p: Profile, policy: Policy, from: Endpoint, port: Port)
    requires policy in Policies(p) && DirectionAllows(p.namespace, policy.ingress, from, port)
    ensures
      || policy == GenerationInternal(p) || policy == AccountInternal(p) || policy == StationIngress(p)
      || (exists s :: policy == PublicIngress(p, s) && Public(s)) || (exists s :: policy == Monitoring(p, s))
  {
    PolicyCases(p, policy);
  }

  lemma InboundPublic(p: Profile, s: Service, b: Service, from: Endpoint, to: Endpoint, port: Port)
    requires Public(s) && Workload(p, b, to) && Selects(p.namespace, PublicIngress(p, s), to)
    requires DirectionAllows(p.namespace, PublicIngress(p, s).ingress, from, port)
    ensures from.Pod? && InboundFlow(p, from.namespace, b, port)
  {
    NamespacePolicy(p, PublicIngress(p, s), s, PortOf(s), p.ingressNamespace, b, from, to, port);
    PublicFlow(p, from.namespace, b, port);
  }

  lemma InboundMonitoring(p: Profile, s: Service, b: Service, from: Endpoint, to: Endpoint, port: Port)
    requires Workload(p, b, to) && Selects(p.namespace, Monitoring(p, s), to)
    requires DirectionAllows(p.namespace, Monitoring(p, s).ingress, from, port)
    ensures from.Pod? && InboundFlow(p, from.namespace, b, port)
  {
    NamespacePolicy(p, Monitoring(p, s), s, MonitorPort(s), p.monitoringNamespace, b, from, to, port);
    MonitoringFlow(p, from.namespace, b, port);
  }

  lemma InboundStation(p: Profile, b: Service, from: Endpoint, to: Endpoint, port: Port)
    requires Workload(p, b, to) && Selects(p.namespace, StationIngress(p), to)
    requires DirectionAllows(p.namespace, StationIngress(p).ingress, from, port)
    ensures from.Pod? && InboundFlow(p, from.namespace, b, port)
  {
    NamespacePolicy(p, StationIngress(p), FactoryTimeAuthority, 9445, p.ingressNamespace, b, from, to, port);
    PublicFlow(p, from.namespace, b, port);
  }

  lemma InboundPolicy(p: Profile, policy: Policy, b: Service, from: Endpoint, to: Endpoint, port: Port)
    requires policy in Policies(p) && Outside(p, from) && Workload(p, b, to)
    requires Selects(p.namespace, policy, to) && DirectionAllows(p.namespace, policy.ingress, from, port)
    ensures from.Pod? && InboundFlow(p, from.namespace, b, port)
  {
    IngressCases(p, policy, from, port);
    if policy == GenerationInternal(p) || policy == AccountInternal(p) {
      InboundInternal(p, policy, b, from, to, port);
    } else if policy == StationIngress(p) {
      InboundStation(p, b, from, to, port);
    } else if s :| policy == PublicIngress(p, s) && Public(s) {
      InboundPublic(p, s, b, from, to, port);
    } else {
      var s :| policy == Monitoring(p, s);
      InboundMonitoring(p, s, b, from, to, port);
    }
  }

  /** A policy of the list that selects the receiver and lets the sender in. */
  ghost predicate Admits(p: Profile, policy: Policy, to: Endpoint, from: Endpoint, port: Port) {
    && policy in Policies(p) && Selects(p.namespace, policy, to)
    && DirectionAllows(p.namespace, policy.ingress, from, port)
  }

  lemma FromIngress(p: Profile, b: Service, from: Endpoint, to: Endpoint, port: Port) returns (policy: Policy)
    requires from.Pod? && from.namespace == p.ingressNamespace && Workload(p, b, to)
    requires (Public(b) && port == Tcp(PortOf(b))) || (b == FactoryTimeAuthority && port == Tcp(9445))
    ensures Admits(p, policy, to, from, port)
  {
    Members(p, b);
    SelectorNames(b, b, to.labels);
    NamespaceRule(p.namespace, port.number, p.ingressNamespace, from, port);
    policy := if Public(b) then PublicIngress(p, b) else StationIngress(p);
  }

  lemma FromMonitoring(p: Profile, b: Service, from: Endpoint, to: Endpoint, port: Port)
    requires from.Pod? && from.namespace == p.monitoringNamespace && Workload(p, b, to) && port == Tcp(MonitorPort(b))
    ensures Admits(p, Monitoring(p, b), to, from, port)
  {
    Members(p, b);
    SelectorNames(b, b, to.labels);
    NamespaceRule(p.namespace, port.number, p.monitoringNamespace, from, port);
  }

  lemma FromOperator(p: Profile, b: Service, from: Endpoint, to: Endpoint, port: Port) returns (policy: Policy)
    requires from.Pod? && Outside(p, from) && from.namespace == p.operatorNamespace && Workload(p, b, to)
    requires (b == GenerationCoordinator && port == Tcp(8447)) || (b == AccountAuthorization && port == Tcp(9444))
    ensures Admits(p, policy, to, from, port)
  {
    PolicyMembers(p, b);
    SelectorNames(b, b, to.labels);
    GenerationAdmits(p, from, port);
    AccountAdmits(p, from, port);
    policy := if b == GenerationCoordinator then GenerationInternal(p) else AccountInternal(p);
  }

  lemma InboundAllowed(p: Profile, b: Service, from: Endpoint, to: Endpoint, port: Port) returns (policy: Policy)
    requires from.Pod? && Outside(p, from) && Workload(p, b, to) && InboundFlow(p, from.namespace, b, port)
    ensures Admits(p, policy, to, from, port)
  {
    var public := (Public(b) && port == Tcp(PortOf(b))) || (b == FactoryTimeAuthority && port == Tcp(9445));
    if from.namespace == p.ingressNamespace && public {
      policy := FromIngress(p, b, from, to, port);
    } else if from.namespace == p.monitoringNamespace && port == Tcp(MonitorPort(b)) {
      FromMonitoring(p, b, from, to, port);
      policy := Monitoring(p, b);
    } else {
      policy := FromOperator(p, b, from, to, port);
    }
  }

  /**
   What is outside the workload namespace reaches a service exactly on the public ports from the ingress namespace, the
   monitoring ports from the monitoring namespace, and the two operator ports from the operator namespace.
   */
  lemma InboundFlows(p: Profile, b: Service, from: Endpoint, to: Endpoint, port: Port)
    requires ProfileValid(p) && Outside(p, from) && Workload(p, b, to)
    ensures Permitted(p.namespace, Policies(p), from, to, port) <==>
            from.Pod? && InboundFlow(p, from.namespace, b, port)
  {
    OutsideIsFree(p, from, to, port);
    if from.Pod? && InboundFlow(p, from.namespace, b, port) {
      var policy := InboundAllowed(p, b, from, to, port);
    }
    if IngressAllowed(p.namespace, Policies(p), to, from, port) {
      Isolated(p, b, to);
      var policy :| policy in Policies(p) && Selects(p.namespace, policy, to) &&
                    DirectionAllows(p.namespace, policy.ingress, from, port);
      InboundPolicy(p, policy, b, from, to, port);
    }
  }

  // ---- Flows out.

  /** What a service may send to a pod of another namespace, apart from its external addresses. */
  predicate OutboundFlow(p: Profile, to: Endpoint, port: Port)
    requires to.Pod?
  {
    || (to.namespace == p.dnsNamespace && Matches(p.dnsSelector, to.labels) && port.number == 53)
    || (to.namespace == p.monitoringNamespace && Matches(p.telemetrySelector, to.labels) && port == Tcp(4318))
  }

  ghost predicate AddressFlow(p: Profile, s: Service, to: Endpoint, port: Port) {
    exists c :: ExternalFlow(p, s, c, port) && InClass(p.external, c, to.address)
  }

  lemma EitherProtocol(port: Port, ports: seq<Port>)
    requires ports == [Port(53, TCP), Port(53, UDP)]
    ensures port in ports <==> port.number == 53
  {
    match port.protocol
    case TCP => assert ports[0] == Port(53, TCP);
    case UDP => assert ports[1] == Port(53, UDP);
  }

  lemma DnsRule(p: Profile, to: Endpoint, port: Port)
    requires to.Pod?
    ensures DirectionAllows(p.namespace, AllowDns(p).egress, to, port) <==>
            to.namespace == p.dnsNamespace && Matches(p.dnsSelector, to.labels) && port.number == 53
  {
    var rule := AllowDns(p).egress.rules[0];
    assert PeerNames(p.namespace, rule.peers[0], to) <==>
           to.namespace == p.dnsNamespace && Matches(p.dnsSelector, to.labels);
    EitherProtocol(port, rule.ports);
    if RuleAllows(p.namespace, rule, to, port) {
      var i :| 0 <= i < |rule.peers| && PeerNames(p.namespace, rule.peers[i], to);
      assert i == 0;
    }
  }

  lemma BlockReaches(p: Profile, d: (Class, nat), to: Endpoint, port: Port)
    requires d.0 in p.external
    ensures RuleAllows(p.namespace, ExternalRule(p, d), to, port) <==>
            port == Tcp(d.1) && InClass(p.external, d.0, to.address)
  {
    var rule := ExternalRule(p, d);
    if InClass(p.external, d.0, to.address) {
      var i :| 0 <= i < |p.external[d.0]| && Contains(p.external[d.0][i], to.address);
      assert PeerNames(p.namespace, rule.peers[i], to);
    }
  }

  lemma TelemetryReaches(p: Profile, to: Endpoint, port: Port)
    requires to.Pod?
    ensures RuleAllows(p.namespace, TelemetryRule(p), to, port) <==>
            to.namespace == p.monitoringNamespace && Matches(p.telemetrySelector, to.labels) && port == Tcp(4318)
  {
    var rule := TelemetryRule(p);
    assert PeerNames(p.namespace, rule.peers[0], to) <==>
           to.namespace == p.monitoringNamespace && Matches(p.telemetrySelector, to.labels);
  }

  /** One rule of a service's egress policy, for a pod of another namespace. */
  lemma RuleReachesOut(p: Profile, external: seq<(Class, nat)>, internal: seq<(Service, nat)>, to: Endpoint, port: Port,
                       i: nat)
    requires ProfileValid(p) && to.Pod? && Outside(p, to) && i < |RulesFor(p, external, internal)|
    requires RuleAllows(p.namespace, RulesFor(p, external, internal)[i], to, port)
    ensures OutboundFlow(p, to, port) || exists c :: ListedIn(external, c, port) && InClass(p.external, c, to.address)
  {
    if i < |external| {
      BlockReaches(p, external[i], to, port);
      assert ListedIn(external, external[i].0, port);
    } else if i == |external| + |internal| {
      TelemetryReaches(p, to, port);
    }
  }

  lemma ListedReachesOut(p: Profile, external: seq<(Class, nat)>, internal: seq<(Service, nat)>, to: Endpoint,
                         port: Port, c: Class)
    requires ProfileValid(p) && ListedIn(external, c, port) && InClass(p.external, c, to.address)
    ensures DirectionAllows(p.namespace, Governed(RulesFor(p, external, internal)), to, port)
  {
    var rules := RulesFor(p, external, internal);
    var i :| 0 <= i < |external| && external[i] == (c, port.number);
    BlockReaches(p, (c, port.number), to, port);
    assert rules[i] == ExternalRule(p, (c, port.number)) && RuleAllows(p.namespace, rules[i], to, port);
  }

  /** The rules of a service's egress policy, for a pod of another namespace. */
  lemma RulesReachOut(p: Profile, external: seq<(Class, nat)>, internal: seq<(Service, nat)>, to: Endpoint, port: Port)
    requires ProfileValid(p) && to.Pod? && Outside(p, to)
    ensures var allowed := DirectionAllows(p.namespace, Governed(RulesFor(p, external, internal)), to, port);
            var listed := exists c :: ListedIn(external, c, port) && InClass(p.external, c, to.address);
            && (allowed ==> OutboundFlow(p, to, port) || listed) && (listed ==> allowed)
            && (RuleAllows(p.namespace, TelemetryRule(p), to, port) ==> allowed)
  {
    var rules := RulesFor(p, external, internal);
    if i :| 0 <= i < |rules| && RuleAllows(p.namespace, rules[i], to, port) {
      RuleReachesOut(p, external, internal, to, port, i);
    }
    if c :| ListedIn(external, c, port) && InClass(p.external, c, to.address) {
      ListedReachesOut(p, external, internal, to, port, c);
    }
    assert rules[|rules| - 1] == TelemetryRule(p);
  }

  lemma EgressReachesOut(p: Profile, s: Service, to: Endpoint, port: Port)
    requires ProfileValid(p) && to.Pod? && Outside(p, to)
    ensures var allowed := DirectionAllows(p.namespace, Egress(p, s).egress, to, port);
            && (allowed ==> OutboundFlow(p, to, port) || AddressFlow(p, s, to, port))
            && (AddressFlow(p, s, to, port) || RuleAllows(p.namespace, TelemetryRule(p), to, port) ==> allowed)
  {
    RulesReachOut(p, ExternalOf(p, s), InternalOf(s), to, port);
    forall c ensures ListedIn(ExternalOf(p, s), c, port) <==> ExternalFlow(p, s, c, port) {
      ListedIsFlow(p, s, c, port);
    }
  }

  lemma OutboundPolicy(p: Profile, policy: Policy, s: Service, from: Endpoint, to: Endpoint, port: Port)
    requires ProfileValid(p) && policy in Policies(p) && Workload(p, s, from) && to.Pod? && Outside(p, to)
    requires Selects(p.namespace, policy, from) && DirectionAllows(p.namespace, policy.egress, to, port)
    ensures OutboundFlow(p, to, port) || AddressFlow(p, s, to, port)
  {
    PolicyCases(p, policy);
    if policy == AllowDns(p) {
      DnsRule(p, to, port);
    } else if t :| policy == Egress(p, t) {
      SelectorNames(t, s, from.labels);
      EgressReachesOut(p, s, to, port);
    }
  }

  /**
   A service reaches a pod of another namespace exactly for DNS, for telemetry, or as an external address of a class
   that it may reach.
   */
  lemma OutboundFlows(p: Profile, s: Service, from: Endpoint, to: Endpoint, port: Port)
    requires ProfileValid(p) && Workload(p, s, from) && to.Pod? && Outside(p, to)
    ensures Permitted(p.namespace, Policies(p), from, to, port) <==>
            OutboundFlow(p, to, port) || AddressFlow(p, s, to, port)
  {
    OutsideIsFree(p, to, from, port);
    Members(p, s);
    PolicyMembers(p, s);
    SelectorNames(s, s, from.labels);
    Isolated(p, s, from);
    DnsRule(p, to, port);
    TelemetryReaches(p, to, port);
    EgressReachesOut(p, s, to, port);
    assert Selects(p.namespace, AllowDns(p), from) && Selects(p.namespace, Egress(p, s), from);
    if EgressAllowed(p.namespace, Policies(p), from, to, port) {
      var policy :| policy in Policies(p) && Selects(p.namespace, policy, from) &&
                    DirectionAllows(p.namespace, policy.egress, to, port);
      OutboundPolicy(p, policy, s, from, to, port);
    }
  }
}
