/** The network preflight as a whole: own networks, address pools, policy rules and routes. */
module Preflight {
  import opened Attachments
  import opened Cidr
  import opened HostRoutes
  import opened Wrappers

  /** The seven fixed subnets, in the order in which the controller lists them. */
  const SUBNETS: seq<Net> := [
    Subnet(PgAdmin), Subnet(PgApi), Subnet(PgWorker), Subnet(PgProbe), Subnet(RuntimeData), Subnet(Ingress),
    Subnet(PgErasure)
  ]

  /** The project's own networks once their names, labels and drivers are as the Compose file has them. */
  datatype Shape = Shape(identifiers: map<Logical, string>, nets: Listing)

  ghost predicate Complete(s: Shape) {
    forall l :: l in s.identifiers && l in s.nets
  }

  /** What the preflight can see of the host's routing. */
  datatype Host = NotLinux | NoIpCommand | Unreadable | Tables(rules: seq<Rule>, routes: seq<Route>)

  predicate NoneOwn(networks: seq<DockerNetwork>) {
    forall i :: 0 <= i < |networks| ==> !networks[i].ownName
  }

  ghost predicate AreBridges(owned: seq<Owned>, s: Shape)
    requires Complete(s)
  {
    && (forall l :: Bridge(l, s.identifiers[l], s.nets[l]) in owned)
    && (forall o :: o in owned ==> exists l :: o == Bridge(l, s.identifiers[l], s.nets[l]))
  }

  /** The project has no networks yet, or one of the four stages of its topology is there in full. */
  ghost predicate OwnTopologyOk(networks: seq<DockerNetwork>, shape: Option<Shape>, project: string,
                                inspect: set<string> -> seq<Container>) {
    NoneOwn(networks) || (shape.Some? && exists g :: Authentic(shape.value.nets, project, inspect, g))
  }

  lemma SubnetAt(i: nat)
    requires i < |SUBNETS|
    ensures IsBlock(SUBNETS[i]) && SUBNETS[i].version == 4
  {
    var l := [PgAdmin, PgApi, PgWorker, PgProbe, RuntimeData, Ingress, PgErasure][i];
    SubnetIsBlock(l);
    assert SUBNETS[i] == Subnet(l);
  }

  lemma SubnetIsListed(l: Logical)
    ensures exists i :: 0 <= i < |SUBNETS| && SUBNETS[i] == Subnet(l)
  {
    match l
    case PgAdmin => assert SUBNETS[0] == Subnet(l);
    case PgApi => assert SUBNETS[1] == Subnet(l);
    case PgWorker => assert SUBNETS[2] == Subnet(l);
    case PgProbe => assert SUBNETS[3] == Subnet(l);
    case RuntimeData => assert SUBNETS[4] == Subnet(l);
    case Ingress => assert SUBNETS[5] == Subnet(l);
    case PgErasure => assert SUBNETS[6] == Subnet(l);
  }

  lemma SubnetTouches(l: Logical)
    ensures Touches(Subnet(l), SUBNETS)
  {
    SubnetIsListed(l);
    var i :| 0 <= i < |SUBNETS| && SUBNETS[i] == Subnet(l);
    SubnetIsBlock(l);
    MaskIsRange(Subnet(l).base, Subnet(l));
    assert Overlaps(Subnet(l), SUBNETS[i]);
  }

  lemma BridgesTouch(owned: seq<Owned>, s: Shape)
    requires Complete(s) && AreBridges(owned, s)
    ensures forall j :: 0 <= j < |owned| ==> Touches(owned[j].net, SUBNETS)
  {
    forall j: nat | j < |owned| ensures Touches(owned[j].net, SUBNETS) {
      var l := BridgeOf(owned, s, j);
      SubnetTouches(l);
    }
  }

  method AuthenticateOwn(networks: seq<DockerNetwork>, shape: Option<Shape>, project: string,
                         inspect: set<string> -> seq<Container>) returns (owned: Option<seq<Owned>>)
    requires shape.Some? ==> Complete(shape.value)
    ensures owned.Some? <==> OwnTopologyOk(networks, shape, project, inspect)
    ensures owned.Some? ==> Disjoint(owned.value)
    ensures owned.Some? ==> if NoneOwn(networks) then owned.value == [] else AreBridges(owned.value, shape.value)
  {
    if NoneOwn(networks) { return Some([]); }
    if shape.None? { return None; }
    var stage := AuthenticateStage(shape.value.nets, project, inspect);
    if stage.None? { return None; }
    assert Authentic(shape.value.nets, project, inspect, stage.value);
    var bridges := OwnedBridges(shape.value.identifiers, shape.value.nets);
    owned := Some(bridges);
  }

  ghost predicate PoolsOk(networks: seq<DockerNetwork>, owned: seq<Owned>) {
    forall i :: 0 <= i < |networks| ==> PoolOk(networks[i], SUBNETS, owned)
  }

  /** Off Linux the preflight looks at no route; on Linux it must be able to. */
  ghost predicate HostOk(host: Host, owned: seq<Owned>) {
    || host.NotLinux?
    || (host.Tables?
        && (forall i :: 0 <= i < |host.routes| ==> PolicyRouteOk(host.routes[i], SUBNETS))
        && (forall i :: 0 <= i < |host.rules| ==> RuleOk(host.rules[i]))
        && (forall i :: 0 <= i < |host.routes| ==> HostRouteOk(host.routes[i], SUBNETS, owned)))
  }

  method ValidateHost(host: Host, owned: seq<Owned>) returns (ok: bool)
    requires Disjoint(owned)
    ensures ok <==> HostOk(host, owned)
  {
    match host
    case NotLinux => ok := true;
    case NoIpCommand => ok := false;
    case Unreadable => ok := false;
    case Tables(rules, routes) =>
      ok := ValidatePolicyRouting(rules, routes, SUBNETS);
      if ok { ok := ValidateHostRoutes(routes, SUBNETS, owned); }
  }

  // ----- the same in terms of addresses -----

  ghost predicate ParsedHost(host: Host) {
    host.Tables? ==> forall i :: 0 <= i < |host.routes| ==> Parsed(host.routes[i])
  }

  ghost predicate ParsedPools(networks: seq<DockerNetwork>) {
    forall k, i :: 0 <= k < |networks| && networks[k].pool.Configured? && 0 <= i < |networks[k].pool.subnets|
                   && networks[k].pool.subnets[i].Target? ==>
      IsBlock(networks[k].pool.subnets[i].net)
  }

  /** A pool without blocks is one of Docker's own two; any other block is that of an owned bridge or clear. */
  ghost predicate PoolAccepted(n: DockerNetwork, owned: seq<Owned>) {
    if n.pool.Configured? then
      forall i :: 0 <= i < |n.pool.subnets| ==>
        n.pool.subnets[i].Target?
        && ((exists j :: 0 <= j < |owned| && owned[j].net == n.pool.subnets[i].net)
            || Clear(n.pool.subnets[i].net, SUBNETS))
    else n.pool.NullConfig? && n.name in {"host", "none"}
  }

  /** Off Linux anything; on Linux readable tables, rules of known meaning, and accepted routes. */
  ghost predicate HostAccepted(host: Host, owned: seq<Owned>) {
    match host
    case NotLinux => true
    case NoIpCommand => false
    case Unreadable => false
    case Tables(rules, routes) =>
      && (forall i :: 0 <= i < |rules| ==> !Meaning(rules[i]).Unknown?)
      && (forall i :: 0 <= i < |routes| ==> Accepted(routes[i], SUBNETS, owned))
  }

  lemma SubnetsAreFixed()
    ensures FixedBlocks(SUBNETS)
  {
    forall i | 0 <= i < |SUBNETS| ensures IsBlock(SUBNETS[i]) && SUBNETS[i].version == 4 { SubnetAt(i); }
  }

  lemma BridgesAreFixed(owned: seq<Owned>, s: Shape)
    requires Complete(s) && AreBridges(owned, s)
    ensures FixedBridges(owned, SUBNETS)
  {
    BridgesTouch(owned, s);
    forall j: nat | j < |owned|
      ensures IsBlock(owned[j].net) && owned[j].net.version == 4 && 2 <= Size(owned[j].net)
    {
      var l := BridgeOf(owned, s, j);
      SubnetIsBlock(l);
    }
  }

  lemma BridgeOf(owned: seq<Owned>, s: Shape, j: nat) returns (l: Logical)
    requires Complete(s) && AreBridges(owned, s) && j < |owned|
    ensures owned[j].net == Subnet(l)
  {
    assert owned[j] in owned;
    l :| owned[j] == Bridge(l, s.identifiers[l], s.nets[l]);
  }

  lemma PoolsAcceptedIff(networks: seq<DockerNetwork>, owned: seq<Owned>)
    requires ParsedPools(networks)
    ensures PoolsOk(networks, owned) <==> forall i :: 0 <= i < |networks| ==> PoolAccepted(networks[i], owned)
  {
    SubnetsAreFixed();
    forall k | 0 <= k < |networks|
      ensures PoolOk(networks[k], SUBNETS, owned) <==> PoolAccepted(networks[k], owned)
    {
      if networks[k].pool.Configured? {
        forall i | 0 <= i < |networks[k].pool.subnets| && networks[k].pool.subnets[i].Target?
          ensures Clear(networks[k].pool.subnets[i].net, SUBNETS)
                  <==> !Touches(networks[k].pool.subnets[i].net, SUBNETS)
        {
          ClearIff(networks[k].pool.subnets[i].net, SUBNETS);
        }
      }
    }
  }

  lemma HostAcceptedIff(host: Host, owned: seq<Owned>)
    requires ParsedHost(host) && Disjoint(owned) && FixedBridges(owned, SUBNETS)
    ensures HostOk(host, owned) <==> HostAccepted(host, owned)
  {
    SubnetsAreFixed();
    if host.Tables? {
      forall i | 0 <= i < |host.rules| ensures RuleOk(host.rules[i]) <==> !Meaning(host.rules[i]).Unknown? {
        RuleOkIff(host.rules[i]);
      }
      forall i | 0 <= i < |host.routes|
        ensures PolicyRouteOk(host.routes[i], SUBNETS) && HostRouteOk(host.routes[i], SUBNETS, owned)
                <==> Accepted(host.routes[i], SUBNETS, owned)
      {
        RouteAcceptedIff(host.routes[i], SUBNETS, owned);
      }
    }
  }

  lemma HostIsIsolated(host: Host, owned: seq<Owned>)
    requires Disjoint(owned) && host.Tables? && HostOk(host, owned)
    requires ParsedHost(host)
    ensures Isolated(host.rules, host.routes, SUBNETS, owned)
  {
    SubnetsAreFixed();
  }

  /**
   The preflight accepts exactly a complete stage or no own network, pools that keep clear of the subnets, and
   off Linux any host, on Linux one whose rules and routes are isolated from the subnets.
   */
  method ValidateHostNetworkIsolation(
    networks: seq<DockerNetwork>, shape: Option<Shape>, project: string, inspect: set<string> -> seq<Container>,
    host: Host) returns (ok: bool, owned: seq<Owned>)
    requires shape.Some? ==> Complete(shape.value)
    requires ParsedHost(host) && ParsedPools(networks)
    ensures ok <==>
              && OwnTopologyOk(networks, shape, project, inspect) && HostAccepted(host, owned)
              && forall i :: 0 <= i < |networks| ==> PoolAccepted(networks[i], owned)
    ensures OwnTopologyOk(networks, shape, project, inspect) ==>
              if NoneOwn(networks) then owned == [] else AreBridges(owned, shape.value)
    ensures ok && host.Tables? ==> Isolated(host.rules, host.routes, SUBNETS, owned) && Disjoint(owned)
    ensures ok ==> (PoolsForeignFree(networks, SUBNETS) <==> NoForeignTwin(networks, owned))
  {
    owned := [];
    var own := AuthenticateOwn(networks, shape, project, inspect);
    if own.None? { return false, []; }
    owned := own.value;
    if !NoneOwn(networks) { BridgesAreFixed(owned, shape.value); }
    PoolsAcceptedIff(networks, owned);
    HostAcceptedIff(host, owned);
    ok := ValidateAddressPools(networks, SUBNETS, owned);
    if ok { ok := ValidateHost(host, owned); }
    if ok {
      if host.Tables? { HostIsIsolated(host, owned); }
      ForeignPoolsIffNoTwin(networks, SUBNETS, owned);
    }
  }

  /** The rules of a kernel that nobody has configured: look up the local, the main and the default table. */
  const KERNEL_RULES: seq<Rule> := [
    Rule(false, All, NoSelector, false, Named("local"), Absent),
    Rule(false, All, NoSelector, false, Named("main"), Absent),
    Rule(false, All, NoSelector, false, Named("default"), Absent)
  ]

  /**
   A host with the kernel's own rules is accepted: before the first start with a default route and routes clear of
   the subnets, and afterwards also with the three records of every bridge.
   */
  lemma OrdinaryHostIsAccepted(routes: seq<Route>, owned: seq<Owned>)
    requires forall i :: 0 <= i < |routes| ==>
               || (routes[i].Route? && routes[i].table in {NoTable, Named("main")} && routes[i].dst.DefaultDst?)
               || (routes[i].Route? && !routes[i].table.Malformed? && routes[i].dst.Target?
                   && Clear(routes[i].dst.net, SUBNETS))
               || exists o :: o in owned && OneOfThree(routes[i], o)
    ensures HostAccepted(Tables(KERNEL_RULES, routes), owned)
  {
    forall i | 0 <= i < |routes| ensures Accepted(routes[i], SUBNETS, owned) {
      if o :| o in owned && OneOfThree(routes[i], o) {
        var j :| 0 <= j < |owned| && owned[j] == o;
        assert IsRecordOf(routes[i], owned[j]);
      }
    }
  }

  /** What the kernel keeps for a bridge: its block, its gateway and its broadcast address. */
  ghost predicate OneOfThree(r: Route, o: Owned) {
    || r == BridgeRecord(o, NoTable, false, Absent, Is(Gateway(o.net)), false)
    || r == GatewayRecord(o) || r == BroadcastRecord(o)
  }

  /** Before the first start the project owns nothing: on an accepted host only the main default can match. */
  lemma FirstStartSeesOnlyTheDefault(host: Host, selects: Rule -> bool, a: nat, d: Decision)
    requires host.Tables? && Isolated(host.rules, host.routes, SUBNETS, [])
    requires InSome(a, SUBNETS) && Decides(host.rules, selects, host.routes, a, d)
    ensures d.Via? ==> d.index < |host.routes| && host.routes[d.index].Route?
                       && IsMain(host.routes[d.index].table) && IsDefault(host.routes[d.index].dst)
  {
    NoForeignRouteCaptures(host.rules, selects, host.routes, SUBNETS, [], a, d);
  }
}
