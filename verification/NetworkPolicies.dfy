/** The NetworkPolicies that `tools/kubernetes_deployment.py` generates, and what they permit. */
module NetworkPolicies {
  import opened EgressCidrs

  datatype Service =
    | Gateway | ControlPlane | AgentProxy | FirmwareOrigin
    | GenerationCoordinator | AccountAuthorization | FactoryTimeAuthority

  const SERVICES: seq<Service> :=
    [Gateway, ControlPlane, AgentProxy, FirmwareOrigin, GenerationCoordinator, AccountAuthorization,
     FactoryTimeAuthority]

  const PUBLIC: nat := 4

  function ServiceName(s: Service): string {
    match s
    case Gateway => "gateway"
    case ControlPlane => "controlplane"
    case AgentProxy => "agentproxy"
    case FirmwareOrigin => "firmwareorigin"
    case GenerationCoordinator => "generationcoordinator"
    case AccountAuthorization => "accountauthorization"
    case FactoryTimeAuthority => "factorytimeauthority"
  }

  function PortOf(s: Service): nat {
    match s
    case Gateway => 8443
    case ControlPlane => 8444
    case AgentProxy => 8445
    case FirmwareOrigin => 8446
    case GenerationCoordinator => 8447
    case AccountAuthorization => 9444
    case FactoryTimeAuthority => 9445
  }

  function MonitorPort(s: Service): nat {
    match s
    case AccountAuthorization => 9080
    case FactoryTimeAuthority => 9081
    case _ => PortOf(s)
  }

  /** Labels; the component label and its seven values are constructors, any other text is free. */
  datatype LabelKey = Component | OtherKey(name: string)
  datatype LabelValue = Of(service: Service) | Text(value: string)
  type Labels = map<LabelKey, LabelValue>

  datatype Protocol = TCP | UDP
  datatype Port = Port(number: nat, protocol: Protocol)

  datatype Peer =
    | PodPeer(selector: Labels)
    | NamespacePeer(namespace: string)
    | NamespacedPodPeer(namespace: string, selector: Labels)
    | IpBlock(network: Network)

  datatype Rule = Rule(ports: seq<Port>, peers: seq<Peer>)

  /** A direction is absent when the policy does not govern it. */
  datatype Direction = Ungoverned | Governed(rules: seq<Rule>)

  datatype Policy = Policy(name: string, selector: Labels, ingress: Direction, egress: Direction)

  datatype Profile = Profile(
    deploymentId: string, namespace: string, ingressNamespace: string, monitoringNamespace: string,
    operatorNamespace: string, dnsNamespace: string, dnsSelector: Labels, telemetrySelector: Labels,
    external: map<Class, seq<Network>>, pushEnabled: bool)

  /** What profile validation establishes about namespaces and egress. */
  ghost predicate ProfileValid(p: Profile) {
    && |{p.namespace, p.ingressNamespace, p.monitoringNamespace, p.operatorNamespace, p.dnsNamespace}| == 5
    && (forall c: Class :: c in p.external && p.external[c] != [] && AllNarrow(p.external[c]))
    && Disjoint(Flatten(p.external, |CLASSES|))
  }

  // ---- The generated policies.

  function Selector(s: Service): Labels {
    map[Component := Of(s)]
  }

  function Tcp(n: nat): Port {
    Port(n, TCP)
  }

  function DenyAll(p: Profile): Policy {
    Policy(p.deploymentId + "-default-deny-all", map[], Governed([]), Governed([]))
  }

  function AllowDns(p: Profile): Policy {
    Policy(p.deploymentId + "-allow-dns", map[], Ungoverned,
           Governed([Rule([Port(53, TCP), Port(53, UDP)], [NamespacedPodPeer(p.dnsNamespace, p.dnsSelector)])]))
  }

  function IngressOnly(p: Profile, suffix: string, s: Service, peers: seq<Peer>, port: nat): Policy {
    Policy(p.deploymentId + suffix, Selector(s), Governed([Rule([Tcp(port)], peers)]), Ungoverned)
  }

  function PublicIngress(p: Profile, s: Service): Policy {
    IngressOnly(p, "-" + ServiceName(s) + "-public-ingress", s, [NamespacePeer(p.ingressNamespace)], PortOf(s))
  }

  function Monitoring(p: Profile, s: Service): Policy {
    IngressOnly(p, "-" + ServiceName(s) + "-monitoring", s, [NamespacePeer(p.monitoringNamespace)], MonitorPort(s))
  }

  function GenerationInternal(p: Profile): Policy {
    IngressOnly(p, "-generation-internal", GenerationCoordinator,
                [PodPeer(Selector(ControlPlane)), PodPeer(Selector(FirmwareOrigin)),
                 NamespacePeer(p.operatorNamespace)], 8447)
  }

  function AccountInternal(p: Profile): Policy {
    IngressOnly(p, "-account-internal", AccountAuthorization,
                [PodPeer(Selector(ControlPlane)), NamespacePeer(p.operatorNamespace)], 9444)
  }

  function StationIngress(p: Profile): Policy {
    IngressOnly(p, "-factory-time-station-ingress", FactoryTimeAuthority, [NamespacePeer(p.ingressNamespace)], 9445)
  }

  function ExternalOf(p: Profile, s: Service): (r: seq<(Class, nat)>) {
    match s
    case Gateway => [(Speech, 443), (Identity, 443), (Database, 5432)]
    case ControlPlane => [(Identity, 443), (Database, 5432)]
    case AgentProxy => [(Provider, 443), (Identity, 443), (Database, 5432)]
    case FirmwareOrigin => [(Identity, 443)]
    case GenerationCoordinator => []
    case AccountAuthorization => [(Database, 5432)] + if p.pushEnabled then [(Provider, 443)] else []
    case FactoryTimeAuthority => [(Database, 5432), (Signer, 443)]
  }

  function InternalOf(s: Service): (r: seq<(Service, nat)>) {
    match s
    case ControlPlane => [(GenerationCoordinator, 8447), (AccountAuthorization, 9444)]
    case FirmwareOrigin => [(GenerationCoordinator, 8447)]
    case _ => []
  }

  function ExternalRule(p: Profile, d: (Class, nat)): Rule {
    Rule([Tcp(d.1)], if d.0 in p.external
                     then seq(|p.external[d.0]|, i requires 0 <= i < |p.external[d.0]| => IpBlock(p.external[d.0][i]))
                     else [])
  }

  function InternalRule(d: (Service, nat)): Rule {
    Rule([Tcp(d.1)], [PodPeer(Selector(d.0))])
  }

  function TelemetryRule(p: Profile): Rule {
    Rule([Tcp(4318)], [NamespacedPodPeer(p.monitoringNamespace, p.telemetrySelector)])
  }

  function RulesFor(p: Profile, external: seq<(Class, nat)>, internal: seq<(Service, nat)>): (r: seq<Rule>) {
    seq(|external|, i requires 0 <= i < |external| => ExternalRule(p, external[i])) +
    seq(|internal|, i requires 0 <= i < |internal| => InternalRule(internal[i])) +
    [TelemetryRule(p)]
  }

  function EgressRules(p: Profile, s: Service): (r: seq<Rule>) {
    RulesFor(p, ExternalOf(p, s), InternalOf(s))
  }

  function EgressPolicy(p: Profile, s: Service, rules: seq<Rule>): Policy {
    Policy(p.deploymentId + "-" + ServiceName(s) + "-egress", Selector(s), Ungoverned, Governed(rules))
  }

  function Egress(p: Profile, s: Service): Policy {
    EgressPolicy(p, s, EgressRules(p, s))
  }

  /** One policy per service, for the first `n` services. */
  function Each(make: Service -> Policy, n: nat): seq<Policy>
    requires n <= |SERVICES|
  {
    seq(n, i requires 0 <= i < n => make(SERVICES[i]))
  }

  function PublicPolicies(p: Profile): seq<Policy> {
    Each(s => PublicIngress(p, s), PUBLIC)
  }

  function MonitoringPolicies(p: Profile): seq<Policy> {
    Each(s => Monitoring(p, s), |SERVICES|)
  }

  function EgressPolicies(p: Profile): seq<Policy> {
    Each(s => Egress(p, s), |SERVICES|)
  }

  function Policies(p: Profile): (r: seq<Policy>) {
    [DenyAll(p), AllowDns(p)] + PublicPolicies(p) + MonitoringPolicies(p)
    + [GenerationInternal(p), AccountInternal(p), StationIngress(p)] + EgressPolicies(p)
  }

  method BuildPublic(p: Profile) returns (r: seq<Policy>)
    ensures r == PublicPolicies(p)
  {
    r := [];
    for i := 0 to PUBLIC
      invariant r == Each(s => PublicIngress(p, s), i)
    {
      r := r + [PublicIngress(p, SERVICES[i])];
    }
  }

  method BuildMonitoring(p: Profile) returns (r: seq<Policy>)
    ensures r == MonitoringPolicies(p)
  {
    r := [];
    for i := 0 to |SERVICES|
      invariant r == Each(s => Monitoring(p, s), i)
    {
      r := r + [Monitoring(p, SERVICES[i])];
    }
  }

  method BuildEgress(p: Profile) returns (r: seq<Policy>)
    ensures r == EgressPolicies(p)
  {
    r := [];
    for i := 0 to |SERVICES|
      invariant r == Each(s => Egress(p, s), i)
    {
      var rules := BuildEgressRules(p, ExternalOf(p, SERVICES[i]), InternalOf(SERVICES[i]));
      r := r + [EgressPolicy(p, SERVICES[i], rules)];
    }
  }

  /** The generated policies, in the source's order. */
  method BuildPolicies(p: Profile) returns (items: seq<Policy>)
    ensures items == Policies(p)
  {
    var public := BuildPublic(p);
    var monitoring := BuildMonitoring(p);
    var egress := BuildEgress(p);
    items := [DenyAll(p), AllowDns(p)] + public + monitoring
             + [GenerationInternal(p), AccountInternal(p), StationIngress(p)] + egress;
  }

  method BuildEgressRules(p: Profile, external: seq<(Class, nat)>, internal: seq<(Service, nat)>)
    returns (rules: seq<Rule>)
    ensures rules == RulesFor(p, external, internal)
  {
    rules := [];
    for i := 0 to |external|
      invariant rules == seq(i, j requires 0 <= j < i => ExternalRule(p, external[j]))
    {
      rules := rules + [ExternalRule(p, external[i])];
    }
    ghost var before := rules;
    for i := 0 to |internal|
      invariant rules == before + seq(i, j requires 0 <= j < i => InternalRule(internal[j]))
    {
      rules := rules + [InternalRule(internal[i])];
    }
    rules := rules + [TelemetryRule(p)];
  }

  // ---- What policies permit: additive semantics.

  datatype Endpoint =
    | Pod(namespace: string, labels: Labels, address: Address)
    | Host(address: Address)

  predicate Matches(selector: Labels, labels: Labels) {
    forall k :: k in selector ==> k in labels && labels[k] == selector[k]
  }

  /** Whether a peer of a policy in namespace `home` names this endpoint. */
  predicate PeerNames(home: string, peer: Peer, e: Endpoint) {
    match peer
    case PodPeer(selector) => e.Pod? && e.namespace == home && Matches(selector, e.labels)
    case NamespacePeer(n) => e.Pod? && e.namespace == n
    case NamespacedPodPeer(n, selector) => e.Pod? && e.namespace == n && Matches(selector, e.labels)
    case IpBlock(network) => Contains(network, e.address)
  }

  predicate RuleAllows(home: string, rule: Rule, e: Endpoint, port: Port) {
    port in rule.ports && exists i :: 0 <= i < |rule.peers| && PeerNames(home, rule.peers[i], e)
  }

  predicate DirectionAllows(home: string, d: Direction, e: Endpoint, port: Port) {
    d.Governed? && exists i :: 0 <= i < |d.rules| && RuleAllows(home, d.rules[i], e, port)
  }

  predicate Selects(home: string, policy: Policy, e: Endpoint) {
    e.Pod? && e.namespace == home && Matches(policy.selector, e.labels)
  }

  ghost predicate IngressAllowed(home: string, policies: seq<Policy>, to: Endpoint, from: Endpoint, port: Port) {
    || (forall policy :: policy in policies && Selects(home, policy, to) ==> policy.ingress.Ungoverned?)
    || (exists policy ::
          policy in policies && Selects(home, policy, to) && DirectionAllows(home, policy.ingress, from, port))
  }

  ghost predicate EgressAllowed(home: string, policies: seq<Policy>, from: Endpoint, to: Endpoint, port: Port) {
    || (forall policy :: policy in policies && Selects(home, policy, from) ==> policy.egress.Ungoverned?)
    || (exists policy ::
          policy in policies && Selects(home, policy, from) && DirectionAllows(home, policy.egress, to, port))
  }

  ghost predicate Permitted(home: string, policies: seq<Policy>, from: Endpoint, to: Endpoint, port: Port) {
    EgressAllowed(home, policies, from, to, port) && IngressAllowed(home, policies, to, from, port)
  }

  /** A pod of this workload: in the workload namespace, carrying the workload's component label. */
  predicate Workload(p: Profile, s: Service, e: Endpoint) {
    e.Pod? && e.namespace == p.namespace && Component in e.labels && e.labels[Component] == Of(s)
  }

  // ---- Which policies bear on a workload.

  /** The services that the ingress namespace may reach on their main port. */
  predicate Public(s: Service) {
    s in {Gateway, ControlPlane, AgentProxy, FirmwareOrigin}
  }

  lemma PolicyCases(p: Profile, policy: Policy)
    requires policy in Policies(p)
    ensures
      || policy == DenyAll(p) || policy == AllowDns(p)
      || (exists s :: policy == PublicIngress(p, s) && Public(s)) || (exists s :: policy == Monitoring(p, s))
      || policy == GenerationInternal(p) || policy == AccountInternal(p) || policy == StationIngress(p)
      || (exists s :: policy == Egress(p, s))
  {
    var i :| 0 <= i < |Policies(p)| && Policies(p)[i] == policy;
    if i < 2 {
    } else if i < 6 {
      assert policy == PublicIngress(p, SERVICES[i - 2]);
    } else if i < 13 {
      assert policy == Monitoring(p, SERVICES[i - 6]);
    } else if i < 16 {
    } else {
      assert policy == Egress(p, SERVICES[i - 16]);
    }
  }

  lemma ServiceListed(s: Service) returns (i: nat)
    ensures i < |SERVICES| && SERVICES[i] == s
  {
    match s
    case Gateway => i := 0;
    case ControlPlane => i := 1;
    case AgentProxy => i := 2;
    case FirmwareOrigin => i := 3;
    case GenerationCoordinator => i := 4;
    case AccountAuthorization => i := 5;
    case FactoryTimeAuthority => i := 6;
  }

  lemma PolicyMembers(p: Profile, s: Service)
    ensures DenyAll(p) in Policies(p) && GenerationInternal(p) in Policies(p) && AccountInternal(p) in Policies(p)
    ensures Egress(p, s) in Policies(p)
  {
    var all := Policies(p);
    assert all[0] == DenyAll(p) && all[13] == GenerationInternal(p) && all[14] == AccountInternal(p);
    var i := ServiceListed(s);
    assert all[16 + i] == Egress(p, s);
  }

  lemma DistinctNamespaces(p: Profile)
    requires ProfileValid(p)
    ensures p.namespace != p.ingressNamespace && p.namespace != p.monitoringNamespace
    ensures p.namespace != p.operatorNamespace && p.namespace != p.dnsNamespace
  {
  }

  lemma SelectorNames(s: Service, t: Service, labels: Labels)
    requires Component in labels && labels[Component] == Of(t)
    ensures Matches(Selector(s), labels) <==> s == t
  {
    if Matches(Selector(s), labels) { assert Component in Selector(s); }
  }

  // ---- Flows among workloads.

  predicate InternalFlow(from: Service, to: Service, port: Port) {
    || (from == ControlPlane && to == GenerationCoordinator && port == Tcp(8447))
    || (from == ControlPlane && to == AccountAuthorization && port == Tcp(9444))
    || (from == FirmwareOrigin && to == GenerationCoordinator && port == Tcp(8447))
  }

  lemma OnePortRule(home: string, port: nat, peers: seq<Peer>, e: Endpoint, q: Port)
    ensures DirectionAllows(home, Governed([Rule([Tcp(port)], peers)]), e, q) <==>
            q == Tcp(port) && exists i :: 0 <= i < |peers| && PeerNames(home, peers[i], e)
  {
    var d := Governed([Rule([Tcp(port)], peers)]);
    assert RuleAllows(home, d.rules[0], e, q) <==> RuleAllows(home, Rule([Tcp(port)], peers), e, q);
  }

  /** Peers that are namespaces other than the workload's own name no workload pod. */
  lemma ForeignNamespace(home: string, port: nat, n: string, from: Endpoint, q: Port)
    requires from.Pod? && from.namespace == home != n
    ensures !DirectionAllows(home, Governed([Rule([Tcp(port)], [NamespacePeer(n)])]), from, q)
  {
    OnePortRule(home, port, [NamespacePeer(n)], from, q);
  }

  lemma ToGeneration(p: Profile, a: Service, b: Service, from: Endpoint, to: Endpoint, port: Port)
    requires ProfileValid(p) && Workload(p, a, from) && Workload(p, b, to)
    requires Selects(p.namespace, GenerationInternal(p), to)
    requires DirectionAllows(p.namespace, GenerationInternal(p).ingress, from, port)
    ensures InternalFlow(a, b, port)
  {
    DistinctNamespaces(p);
    SelectorNames(GenerationCoordinator, b, to.labels);
    OnePortRule(p.namespace, 8447, GenerationInternal(p).ingress.rules[0].peers, from, port);
    SelectorNames(ControlPlane, a, from.labels);
    SelectorNames(FirmwareOrigin, a, from.labels);
  }

  lemma ToAccount(p: Profile, a: Service, b: Service, from: Endpoint, to: Endpoint, port: Port)
    requires ProfileValid(p) && Workload(p, a, from) && Workload(p, b, to)
    requires Selects(p.namespace, AccountInternal(p), to)
    requires DirectionAllows(p.namespace, AccountInternal(p).ingress, from, port)
    ensures InternalFlow(a, b, port)
  {
    DistinctNamespaces(p);
    SelectorNames(AccountAuthorization, b, to.labels);
    OnePortRule(p.namespace, 9444, AccountInternal(p).ingress.rules[0].peers, from, port);
    SelectorNames(ControlPlane, a, from.labels);
  }

  /** What each ingress policy lets a workload's pod send to another workload's pod. */
  lemma IngressFromWorkload(p: Profile, policy: Policy, a: Service, b: Service, from: Endpoint, to: Endpoint,
                            port: Port)
    requires ProfileValid(p) && policy in Policies(p) && Workload(p, a, from) && Workload(p, b, to)
    requires Selects(p.namespace, policy, to) && DirectionAllows(p.namespace, policy.ingress, from, port)
    ensures InternalFlow(a, b, port)
  {
    DistinctNamespaces(p);
    PolicyCases(p, policy);
    if policy == GenerationInternal(p) {
      ToGeneration(p, a, b, from, to, port);
    } else if policy == AccountInternal(p) {
      ToAccount(p, a, b, from, to, port);
    } else if s :| policy == PublicIngress(p, s) && Public(s) {
      ForeignNamespace(p.namespace, PortOf(s), p.ingressNamespace, from, port);
    } else if s :| policy == Monitoring(p, s) {
      ForeignNamespace(p.namespace, MonitorPort(s), p.monitoringNamespace, from, port);
    } else if policy == StationIngress(p) {
      ForeignNamespace(p.namespace, 9445, p.ingressNamespace, from, port);
    }
  }

  lemma InternalIngress(p: Profile, a: Service, b: Service, from: Endpoint, to: Endpoint, port: Port)
    requires Workload(p, a, from) && Workload(p, b, to) && InternalFlow(a, b, port)
    ensures IngressAllowed(p.namespace, Policies(p), to, from, port)
  {
    var policy := if b == GenerationCoordinator then GenerationInternal(p) else AccountInternal(p);
    PolicyMembers(p, a);
    SelectorNames(b, b, to.labels);
    SelectorNames(a, a, from.labels);
    var peers := policy.ingress.rules[0].peers;
    OnePortRule(p.namespace, port.number, peers, from, port);
    assert PeerNames(p.namespace, peers[if a == FirmwareOrigin then 1 else 0], from);
  }

  lemma InternalEgress(p: Profile, a: Service, b: Service, from: Endpoint, to: Endpoint, port: Port)
    requires Workload(p, a, from) && Workload(p, b, to) && InternalFlow(a, b, port)
    ensures EgressAllowed(p.namespace, Policies(p), from, to, port)
  {
    PolicyMembers(p, a);
    SelectorNames(a, a, from.labels);
    SelectorNames(b, b, to.labels);
    var k := if a == ControlPlane && b == AccountAuthorization then 1 else 0;
    assert InternalOf(a)[k] == (b, port.number);
    var rules, i := EgressRules(p, a), |ExternalOf(p, a)| + k;
    assert rules[i] == InternalRule((b, port.number));
    assert PeerNames(p.namespace, rules[i].peers[0], to);
    assert RuleAllows(p.namespace, rules[i], to, port);
    assert DirectionAllows(p.namespace, Egress(p, a).egress, to, port);
  }

  lemma Isolated(p: Profile, s: Service, e: Endpoint)
    requires Workload(p, s, e)
    ensures DenyAll(p) in Policies(p) && Selects(p.namespace, DenyAll(p), e)
    ensures DenyAll(p).ingress.Governed? && DenyAll(p).egress.Governed?
  {
    PolicyMembers(p, s);
  }

  /**
   For every accepted profile, whatever addresses its pods have: one workload's pod may reach another's exactly on
   the three internal flows.
   */
  lemma WorkloadFlows(p: Profile, a: Service, b: Service, from: Endpoint, to: Endpoint, port: Port)
    requires ProfileValid(p) && Workload(p, a, from) && Workload(p, b, to)
    ensures Permitted(p.namespace, Policies(p), from, to, port) <==> InternalFlow(a, b, port)
  {
    if InternalFlow(a, b, port) {
      InternalIngress(p, a, b, from, to, port);
      InternalEgress(p, a, b, from, to, port);
    }
    if IngressAllowed(p.namespace, Policies(p), to, from, port) {
      Isolated(p, b, to);
      var policy :| policy in Policies(p) && Selects(p.namespace, policy, to) &&
                    DirectionAllows(p.namespace, policy.ingress, from, port);
      IngressFromWorkload(p, policy, a, b, from, to, port);
    }
  }

  // ---- Flows to external hosts.

  /** Which service may reach which class of external hosts, and on which port. */
  predicate ExternalFlow(p: Profile, s: Service, c: Class, port: Port) {
    match c
    case Speech => s == Gateway && port == Tcp(443)
    case Provider => (s == AgentProxy || (s == AccountAuthorization && p.pushEnabled)) && port == Tcp(443)
    case Identity => s in {Gateway, ControlPlane, AgentProxy, FirmwareOrigin} && port == Tcp(443)
    case Database => s !in {FirmwareOrigin, GenerationCoordinator} && port == Tcp(5432)
    case Signer => s == FactoryTimeAuthority && port == Tcp(443)
  }

  lemma ListedIsFlow(p: Profile, s: Service, c: Class, port: Port)
    ensures ListedIn(ExternalOf(p, s), c, port) <==> ExternalFlow(p, s, c, port)
  {
    var listed := ExternalOf(p, s);
    match s
    case Gateway => assert listed[0] == (Speech, 443) && listed[1] == (Identity, 443) && listed[2] == (Database, 5432);
    case ControlPlane => assert listed[0] == (Identity, 443) && listed[1] == (Database, 5432);
    case AgentProxy =>
      assert listed[0] == (Provider, 443) && listed[1] == (Identity, 443) && listed[2] == (Database, 5432);
    case FirmwareOrigin => assert listed[0] == (Identity, 443);
    case GenerationCoordinator =>
    case AccountAuthorization =>
      assert listed[0] == (Database, 5432) && (p.pushEnabled ==> listed[1] == (Provider, 443));
    case FactoryTimeAuthority => assert listed[0] == (Database, 5432) && listed[1] == (Signer, 443);
  }

  lemma ExternalRuleReaches(p: Profile, d: (Class, nat), home: string, h: Endpoint, port: Port)
    requires h.Host? && d.0 in p.external
    ensures RuleAllows(home, ExternalRule(p, d), h, port) <==> port == Tcp(d.1) && InClass(p.external, d.0, h.address)
  {
    var rule := ExternalRule(p, d);
    if InClass(p.external, d.0, h.address) {
      var i :| 0 <= i < |p.external[d.0]| && Contains(p.external[d.0][i], h.address);
      assert PeerNames(home, rule.peers[i], h);
    }
  }

  /** The class is listed with this port. */
  predicate ListedIn(external: seq<(Class, nat)>, c: Class, port: Port) {
    port.protocol == TCP && (c, port.number) in external
  }

  lemma RuleIsExternal(p: Profile, external: seq<(Class, nat)>, internal: seq<(Service, nat)>, h: Endpoint, port: Port,
                       i: nat)
    requires ProfileValid(p) && h.Host? && i < |RulesFor(p, external, internal)|
    requires RuleAllows(p.namespace, RulesFor(p, external, internal)[i], h, port)
    ensures exists c :: ListedIn(external, c, port) && InClass(p.external, c, h.address)
  {
    if i < |external| {
      var d := external[i];
      ExternalRuleReaches(p, d, p.namespace, h, port);
      assert ListedIn(external, d.0, port);
    }
  }

  lemma ListedReaches(p: Profile, external: seq<(Class, nat)>, internal: seq<(Service, nat)>, h: Endpoint, port: Port,
                      c: Class)
    requires ProfileValid(p) && h.Host? && ListedIn(external, c, port) && InClass(p.external, c, h.address)
    ensures DirectionAllows(p.namespace, Governed(RulesFor(p, external, internal)), h, port)
  {
    var rules := RulesFor(p, external, internal);
    var i :| 0 <= i < |external| && external[i] == (c, port.number);
    ExternalRuleReaches(p, (c, port.number), p.namespace, h, port);
    assert rules[i] == ExternalRule(p, (c, port.number)) && RuleAllows(p.namespace, rules[i], h, port);
  }

  /** Which rules of a service's egress policy reach a host. */
  lemma RulesReach(p: Profile, external: seq<(Class, nat)>, internal: seq<(Service, nat)>, h: Endpoint, port: Port)
    requires ProfileValid(p) && h.Host?
    ensures DirectionAllows(p.namespace, Governed(RulesFor(p, external, internal)), h, port) <==>
            exists c :: ListedIn(external, c, port) && InClass(p.external, c, h.address)
  {
    var rules := RulesFor(p, external, internal);
    if i :| 0 <= i < |rules| && RuleAllows(p.namespace, rules[i], h, port) {
      RuleIsExternal(p, external, internal, h, port, i);
    }
    if c :| ListedIn(external, c, port) && InClass(p.external, c, h.address) {
      ListedReaches(p, external, internal, h, port, c);
    }
  }

  lemma EgressToHost(p: Profile, policy: Policy, s: Service, from: Endpoint, h: Endpoint, port: Port)
    requires ProfileValid(p) && policy in Policies(p) && Workload(p, s, from) && h.Host?
    requires Selects(p.namespace, policy, from) && DirectionAllows(p.namespace, policy.egress, h, port)
    ensures policy == Egress(p, s)
  {
    PolicyCases(p, policy);
    if t :| policy == Egress(p, t) {
      SelectorNames(t, s, from.labels);
    }
  }

  /**
   A service reaches an external host on a port exactly when the host's address is in a class that the service may
   reach on that port; and that class is the only one the address is in.
   */
  lemma ExternalFlows(p: Profile, s: Service, from: Endpoint, h: Endpoint, port: Port)
    requires ProfileValid(p) && Workload(p, s, from) && h.Host?
    ensures Permitted(p.namespace, Policies(p), from, h, port) <==>
            exists c :: ExternalFlow(p, s, c, port) && InClass(p.external, c, h.address)
    ensures forall c, d :: InClass(p.external, c, h.address) && InClass(p.external, d, h.address) ==> c == d
  {
    RulesReach(p, ExternalOf(p, s), InternalOf(s), h, port);
    forall c ensures ListedIn(ExternalOf(p, s), c, port) <==> ExternalFlow(p, s, c, port) {
      ListedIsFlow(p, s, c, port);
    }
    PolicyMembers(p, s);
    SelectorNames(s, s, from.labels);
    Isolated(p, s, from);
    if EgressAllowed(p.namespace, Policies(p), from, h, port) {
      var policy :| policy in Policies(p) && Selects(p.namespace, policy, from) &&
                    DirectionAllows(p.namespace, policy.egress, h, port);
      EgressToHost(p, policy, s, from, h, port);
    }
    forall c, d | InClass(p.external, c, h.address) && InClass(p.external, d, h.address) ensures c == d {
      OneClass(p, c, d, h.address);
    }
  }

  lemma OneClass(p: Profile, c: Class, d: Class, a: Address)
    requires ProfileValid(p) && InClass(p.external, c, a) && InClass(p.external, d, a)
    ensures c == d
  {
    var j, k := ClassIndex(c), ClassIndex(d);
    if j < k {
      AddressHasOneClass(p.external, a, j, k);
    } else if k < j {
      AddressHasOneClass(p.external, a, k, j);
    }
  }

  function ClassIndex(c: Class): (i: nat)
    ensures i < |CLASSES| && CLASSES[i] == c
  {
    match c
    case Speech => 0
    case Provider => 1
    case Identity => 2
    case Database => 3
    case Signer => 4
  }
}
