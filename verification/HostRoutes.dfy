/**
 The host part of the network preflight: policy rules, routes and Docker address pools.

 Inputs are decoded JSON records. `expected` are the fixed Compose subnets; `owned` are the
 bridges of this project whose topology has been authenticated.
 */
module HostRoutes {
  import opened Cidr

  /** One field of a decoded record: absent, of another shape, or the value it holds. */
  datatype Field<T> = Absent | Other | Is(value: T)

  /** `Numbered` is an integer, `Named` a string; `Null` is an explicit null. */
  datatype Table = NoTable | Null | Named(name: string) | Numbered(number: int) | Malformed

  /** `bare` tells a plain address from the same block written with its prefix length. */
  datatype Destination = NoDst | DefaultDst | Target(net: Net, bare: bool) | Unparsable | NotText

  /** `prefsrc` is the IPv4 address its text denotes; `extra` tells that there are other keys. */
  datatype Route =
    | NotARecord
    | Route(table: Table, dst: Destination, dev: Field<string>, protocol: Field<string>,
            scope: Field<string>, flags: Field<seq<string>>, kind: Field<string>,
            prefsrc: Field<nat>, extra: bool)

  datatype Selector = NoSelector | All | Block | BadSelector

  datatype Rule =
    | NotARule
    | Rule(unknownFields: bool, src: Selector, dst: Selector, badMatch: bool, table: Table, action: Field<string>)

  datatype Owned = Owned(net: Net, device: string, attached: bool)

  ghost predicate Parsed(r: Route) {
    r.Route? && r.dst.Target? ==>
      IsBlock(r.dst.net) && (r.dst.bare ==> r.dst.net.prefix == Bits(r.dst.net.version))
  }

  predicate IsMain(t: Table) {
    t in {NoTable, Null, Named("main"), Named("254"), Numbered(254)}
  }

  predicate IsLocalOrDefault(t: Table) {
    t in {Named("local"), Named("255"), Numbered(255), Named("default"), Named("253"), Numbered(253)}
  }

  predicate IsDefault(d: Destination) { d.NoDst? || d.DefaultDst? }

  predicate Touches(n: Net, expected: seq<Net>) {
    exists i :: 0 <= i < |expected| && n.version == expected[i].version && Overlaps(n, expected[i])
  }

  function Gateway(n: Net): nat { n.base + 1 }

  /** The exact kernel record of an owned bridge. */
  predicate IsOwnedBridge(r: Route, o: Owned)
    requires r.Route?
  {
    && r.dst.Target? && r.dst.net == o.net
    && r.table in {NoTable, Named("main")} && r.dev == Is(o.device) && r.protocol == Is("kernel")
    && r.scope == Is("link") && r.flags == Is(if o.attached then [] else ["linkdown"])
  }

  /** The exact local-table record of an owned bridge's gateway or broadcast address. */
  predicate IsOwnedCompanion(r: Route, o: Owned)
    requires r.Route?
  {
    && o.net.version == 4 && r.dev == Is(o.device) && r.table == Named("local")
    && r.protocol == Is("kernel") && r.prefsrc == Is(Gateway(o.net)) && !r.extra
    && r.dst.Target? && r.dst.bare && r.dst.net.version == 4
    && ((r.kind == Is("local") && r.dst.net.base == Gateway(o.net)
         && r.scope == Is("host") && r.flags == Is([]))
        || (r.kind == Is("broadcast") && r.dst.net.base == Last(o.net)
            && r.scope == Is("link") && r.flags == Is(if o.attached then [] else ["linkdown"])))
  }

  predicate Encloses(o: Owned, n: Net) {
    o.net.version == n.version && MaskedIn(n.base, o.net) && MaskedIn(Last(n), o.net)
  }

  // ----- what one record must satisfy -----

  predicate PolicyRouteOk(r: Route, expected: seq<Net>) {
    && r.Route? && !r.table.Malformed?
    && (IsMain(r.table)
        || (if IsLocalOrDefault(r.table) then !IsDefault(r.dst)
            else r.dst.Target? && !Touches(r.dst.net, expected)))
  }

  predicate RuleOk(u: Rule) {
    && u.Rule? && !u.unknownFields && !u.src.BadSelector? && !u.dst.BadSelector? && !u.badMatch
    && (if u.table in {NoTable, Null} then u.action == Is("unreachable")
        else u.action.Absent? && !u.table.Malformed?)
  }

  ghost predicate HostRouteOk(r: Route, expected: seq<Net>, owned: seq<Owned>) {
    && r.Route?
    && (IsDefault(r.dst)
        || (r.dst.Target?
            && if exists i :: 0 <= i < |owned| && owned[i].net == r.dst.net then
                 exists i :: 0 <= i < |owned| && IsOwnedBridge(r, owned[i])
               else
                 (exists i :: 0 <= i < |owned| && Encloses(owned[i], r.dst.net) && IsOwnedCompanion(r, owned[i]))
                 || !Touches(r.dst.net, expected)))
  }

  // ----- the checks, in the source's loop form -----

  method ValidatePolicyRouting(rules: seq<Rule>, routes: seq<Route>, expected: seq<Net>) returns (ok: bool)
    ensures ok <==> (forall i :: 0 <= i < |routes| ==> PolicyRouteOk(routes[i], expected))
                    && (forall i :: 0 <= i < |rules| ==> RuleOk(rules[i]))
  {
    for i := 0 to |routes|
      invariant forall j :: 0 <= j < i ==> PolicyRouteOk(routes[j], expected)
    {
      var r := routes[i];
      if !r.Route? { return false; }
      if r.table.Malformed? { return false; }
      if IsMain(r.table) { continue; }
      if IsLocalOrDefault(r.table) {
        if IsDefault(r.dst) { return false; }
        continue;
      }
      if IsDefault(r.dst) || !r.dst.Target? { return false; }
      if Touches(r.dst.net, expected) { return false; }
    }
    for i := 0 to |rules|
      invariant forall j :: 0 <= j < i ==> RuleOk(rules[j])
    {
      var u := rules[i];
      if !u.Rule? || u.unknownFields { return false; }
      if u.src.BadSelector? || u.dst.BadSelector? || u.badMatch { return false; }
      if u.table in {NoTable, Null} {
        if u.action != Is("unreachable") { return false; }
        continue;
      }
      if !u.action.Absent? || u.table.Malformed? { return false; }
    }
    return true;
  }

  /** Bridges that share no address, as the seven fixed subnets do. */
  ghost predicate Disjoint(owned: seq<Owned>) {
    && (forall i :: 0 <= i < |owned| ==> IsBlock(owned[i].net))
    && (forall i, j :: 0 <= i < |owned| && 0 <= j < |owned| && i != j ==>
          !(owned[i].net.version == owned[j].net.version && Overlaps(owned[i].net, owned[j].net)))
  }

  method FindOwned(owned: seq<Owned>, n: Net) returns (i: nat)
    ensures i <= |owned|
    ensures i < |owned| ==> owned[i].net == n
    ensures i == |owned| ==> forall j :: 0 <= j < |owned| ==> owned[j].net != n
  {
    i := 0;
    while i < |owned| && owned[i].net != n
      invariant i <= |owned| && forall j :: 0 <= j < i ==> owned[j].net != n
    {
      i := i + 1;
    }
  }

  method FindEnclosing(owned: seq<Owned>, n: Net) returns (i: nat)
    ensures i <= |owned|
    ensures i < |owned| ==> Encloses(owned[i], n)
    ensures i == |owned| ==> forall j :: 0 <= j < |owned| ==> !Encloses(owned[j], n)
  {
    i := 0;
    while i < |owned| && !Encloses(owned[i], n)
      invariant i <= |owned| && forall j :: 0 <= j < i ==> !Encloses(owned[j], n)
    {
      i := i + 1;
    }
  }

  /** At most one of several disjoint blocks encloses a given block. */
  lemma EnclosingIsUnique(owned: seq<Owned>, n: Net, i: nat, j: nat)
    requires Disjoint(owned) && i < |owned| && j < |owned|
    requires Encloses(owned[i], n) && Encloses(owned[j], n)
    ensures i == j
  {
    MaskIsRange(n.base, owned[i].net);
    MaskIsRange(n.base, owned[j].net);
    OverlapMeansSharedAddress(owned[i].net, owned[j].net);
  }

  method ValidateHostRoutes(routes: seq<Route>, expected: seq<Net>, owned: seq<Owned>) returns (ok: bool)
    requires Disjoint(owned)
    ensures ok <==> forall i :: 0 <= i < |routes| ==> HostRouteOk(routes[i], expected, owned)
  {
    for k := 0 to |routes|
      invariant forall j :: 0 <= j < k ==> HostRouteOk(routes[j], expected, owned)
    {
      var r := routes[k];
      if !r.Route? { return false; }
      if IsDefault(r.dst) { continue; }
      if !r.dst.Target? { return false; }
      var i := FindOwned(owned, r.dst.net);
      if i < |owned| {
        if !IsOwnedBridge(r, owned[i]) {
          forall j: nat | j < |owned| && owned[j].net == r.dst.net
            ensures j == i
          {
            SameNetSameOwner(owned, i, j);
          }
          return false;
        }
        continue;
      }
      i := FindEnclosing(owned, r.dst.net);
      if i < |owned| && IsOwnedCompanion(r, owned[i]) { continue; }
      if Touches(r.dst.net, expected) {
        forall j: nat | j < |owned| && Encloses(owned[j], r.dst.net)
          ensures j == i
        {
          EnclosingIsUnique(owned, r.dst.net, i, j);
        }
        return false;
      }
    }
    return true;
  }

  lemma SameNetSameOwner(owned: seq<Owned>, i: nat, j: nat)
    requires Disjoint(owned) && i < |owned| && j < |owned| && owned[i].net == owned[j].net
    ensures i == j
  {
    var n := owned[i].net;
    MaskIsRange(n.base, n);
  }

  // ----- Docker address pools -----

  /** The decoded address pool of a network: absent or malformed, an explicit null, or its subnets. */
  datatype Pool = NoConfig | NullConfig | Configured(subnets: seq<Destination>)

  /** `ownName` tells that the network carries the project's prefix or tag. */
  datatype DockerNetwork = DockerNetwork(name: string, ownName: bool, pool: Pool)

  ghost predicate PoolOk(n: DockerNetwork, expected: seq<Net>, owned: seq<Owned>) {
    match n.pool
    case NoConfig => false
    case NullConfig => n.name == "host" || n.name == "none"
    case Configured(subnets) =>
      forall i :: 0 <= i < |subnets| ==>
        && subnets[i].Target?
        && ((exists j :: 0 <= j < |owned| && owned[j].net == subnets[i].net)
            || !Touches(subnets[i].net, expected))
  }

  method ValidateAddressPools(networks: seq<DockerNetwork>, expected: seq<Net>, owned: seq<Owned>)
    returns (ok: bool)
    ensures ok <==> forall i :: 0 <= i < |networks| ==> PoolOk(networks[i], expected, owned)
  {
    for k := 0 to |networks|
      invariant forall j :: 0 <= j < k ==> PoolOk(networks[j], expected, owned)
    {
      var n := networks[k];
      if n.pool.NullConfig? && n.name in {"host", "none"} { continue; }
      if !n.pool.Configured? { return false; }
      var subnets := n.pool.subnets;
      for i := 0 to |subnets|
        invariant forall m :: 0 <= m < i ==>
                    && subnets[m].Target?
                    && ((exists j :: 0 <= j < |owned| && owned[j].net == subnets[m].net)
                        || !Touches(subnets[m].net, expected))
      {
        if !subnets[i].Target? { return false; }
        var o := FindOwned(owned, subnets[i].net);
        if o == |owned| && Touches(subnets[i].net, expected) { return false; }
      }
    }
    return true;
  }

  /** No accepted network of another project has an address in the fixed subnets. */
  ghost predicate PoolsForeignFree(networks: seq<DockerNetwork>, expected: seq<Net>) {
    forall k, i :: 0 <= k < |networks| && !networks[k].ownName && networks[k].pool.Configured?
                   && 0 <= i < |networks[k].pool.subnets| && networks[k].pool.subnets[i].Target? ==>
      !Touches(networks[k].pool.subnets[i].net, expected)
  }

  /** No network of another project has exactly the block of an owned bridge. */
  ghost predicate NoForeignTwin(networks: seq<DockerNetwork>, owned: seq<Owned>) {
    forall k, i, j :: 0 <= k < |networks| && !networks[k].ownName && networks[k].pool.Configured?
                      && 0 <= i < |networks[k].pool.subnets| && networks[k].pool.subnets[i].Target?
                      && 0 <= j < |owned| ==>
      networks[k].pool.subnets[i].net != owned[j].net
  }

  /**
   The exemption goes by block, not by network: the accepted pools are free of foreign overlap
   exactly when no foreign network has an owned bridge's own block.
   */
  lemma ForeignPoolsIffNoTwin(networks: seq<DockerNetwork>, expected: seq<Net>, owned: seq<Owned>)
    requires forall k :: 0 <= k < |networks| ==> PoolOk(networks[k], expected, owned)
    requires forall j :: 0 <= j < |owned| ==> Touches(owned[j].net, expected)
    ensures PoolsForeignFree(networks, expected) <==> NoForeignTwin(networks, owned)
  {
    forall k | 0 <= k < |networks|
      ensures PoolOk(networks[k], expected, owned)
    {
    }
  }

  /**
   Such a twin is accepted: add a network of another project with the block of an owned bridge to any
   accepted list, and the list is still accepted.
   */
  lemma ForeignTwinIsAccepted(
    networks: seq<DockerNetwork>, expected: seq<Net>, owned: seq<Owned>, name: string, bare: bool, o: Owned)
    requires forall k :: 0 <= k < |networks| ==> PoolOk(networks[k], expected, owned)
    requires o in owned && Touches(o.net, expected)
    ensures var list := networks + [DockerNetwork(name, false, Configured([Target(o.net, bare)]))];
            && (forall k :: 0 <= k < |list| ==> PoolOk(list[k], expected, owned))
            && !PoolsForeignFree(list, expected)
  {
    var twin := DockerNetwork(name, false, Configured([Target(o.net, bare)]));
    var list := networks + [twin];
    assert PoolOk(twin, expected, owned);
    assert list[|networks|] == twin && twin.pool.subnets[0].net == o.net;
  }

  // ----- what an accepted host can do with a packet -----

  predicate Matches(r: Route, a: nat)
  {
    r.Route? && (IsDefault(r.dst) || (r.dst.Target? && r.dst.net.version == 4 && In(a, r.dst.net)))
  }

  function Length(r: Route): nat
  {
    if r.Route? && r.dst.Target? then r.dst.net.prefix else 0
  }

  /** Two tables the kernel treats as one. */
  predicate SameTable(t: Table, u: Table) {
    t == u || (IsMain(t) && IsMain(u))
  }

  /** A route of table `t` for `a` that no matching route of the table is longer than. */
  ghost predicate LongestMatch(routes: seq<Route>, t: Table, a: nat, k: nat) {
    && k < |routes| && Matches(routes[k], a) && SameTable(routes[k].table, t)
    && forall j :: 0 <= j < |routes| && Matches(routes[j], a) && SameTable(routes[j].table, t) ==>
         Length(routes[j]) <= Length(routes[k])
  }

  datatype Decision = NoRoute | Unreachable | Via(index: nat)

  /** What the kernel does with a packet that a rule selects, as far as the record tells. */
  datatype Verb = Unknown | Refuse | Lookup(table: Table)

  function Meaning(u: Rule): Verb {
    if !u.Rule? || u.unknownFields || u.badMatch || u.src.BadSelector? || u.dst.BadSelector? then Unknown
    else
      match u.action
      case Absent => if u.table.Named? || u.table.Numbered? then Lookup(u.table) else Unknown
      case Is(verb) => if verb == "unreachable" && (u.table.NoTable? || u.table.Null?) then Refuse else Unknown
      case Other => Unknown
  }

  /**
   One run of the rules in order: a rule that does not select the packet is passed over, an unreachable rule
   refuses it, a table without a match passes it on, and a rule of unknown meaning may decide anything.
   */
  ghost predicate Decides(rules: seq<Rule>, selects: Rule -> bool, routes: seq<Route>, a: nat, d: Decision)
  {
    if rules == [] then d == NoRoute
    else if !selects(rules[0]) then Decides(rules[1..], selects, routes, a, d)
    else
      match Meaning(rules[0])
      case Unknown => true
      case Refuse => d == Unreachable
      case Lookup(t) =>
        || (d.Via? && LongestMatch(routes, t, a, d.index))
        || ((forall j :: 0 <= j < |routes| && Matches(routes[j], a) ==> !SameTable(routes[j].table, t))
            && Decides(rules[1..], selects, routes, a, d))
  }

  /** The rule check accepts exactly the rules whose meaning is known. */
  lemma RuleOkIff(u: Rule)
    ensures RuleOk(u) <==> !Meaning(u).Unknown?
  {
  }

  ghost predicate Isolated(rules: seq<Rule>, routes: seq<Route>, expected: seq<Net>, owned: seq<Owned>) {
    && (forall i :: 0 <= i < |routes| ==> Parsed(routes[i]))
    && (forall i :: 0 <= i < |expected| ==> IsBlock(expected[i]) && expected[i].version == 4)
    && (forall i :: 0 <= i < |owned| ==> IsBlock(owned[i].net))
    && (forall i :: 0 <= i < |routes| ==> PolicyRouteOk(routes[i], expected))
    && (forall i :: 0 <= i < |rules| ==> RuleOk(rules[i]))
    && (forall i :: 0 <= i < |routes| ==> HostRouteOk(routes[i], expected, owned))
  }

  ghost predicate InSome(a: nat, nets: seq<Net>) {
    exists i :: 0 <= i < |nets| && In(a, nets[i])
  }

  /** The bridge of an owned block that holds `a`, or the record of exactly its special address. */
  ghost predicate OwnRecordFor(r: Route, owned: seq<Owned>, a: nat)
    requires r.Route?
  {
    exists i :: 0 <= i < |owned| && In(a, owned[i].net) && r.dev == Is(owned[i].device)
      && (IsOwnedBridge(r, owned[i])
          || (IsOwnedCompanion(r, owned[i]) && (a == Gateway(owned[i].net) || a == Last(owned[i].net))))
  }

  /** Every route of every table that can match an address of the fixed subnets. */
  lemma MatchingRoutes(rules: seq<Rule>, routes: seq<Route>, expected: seq<Net>, owned: seq<Owned>, a: nat, k: nat)
    requires Isolated(rules, routes, expected, owned)
    requires InSome(a, expected) && k < |routes| && Matches(routes[k], a)
    ensures OwnRecordFor(routes[k], owned, a) || (IsMain(routes[k].table) && IsDefault(routes[k].dst))
  {
    var r := routes[k];
    assert Parsed(r) && PolicyRouteOk(r, expected) && HostRouteOk(r, expected, owned);
    if !IsDefault(r.dst) {
      var n := r.dst.net;
      var e :| 0 <= e < |expected| && In(a, expected[e]);
      assert Touches(n, expected) by {
        OverlapMeansSharedAddress(n, expected[e]);
      }
      if exists i :: 0 <= i < |owned| && owned[i].net == n {
        var i :| 0 <= i < |owned| && IsOwnedBridge(r, owned[i]);
        assert In(a, owned[i].net);
      } else {
        var i :| 0 <= i < |owned| && Encloses(owned[i], n) && IsOwnedCompanion(r, owned[i]);
        MaskIsRange(n.base, owned[i].net);
        assert Size(n) == Pow2(0);
        assert a == n.base;
      }
    }
  }

  /**
   Whatever the rules select, a packet for the fixed subnets takes an owned record or the main
   default. A custom table never carries it.
   */
  lemma {:induction false} NoForeignRouteCaptures(
    rules: seq<Rule>, selects: Rule -> bool, routes: seq<Route>, expected: seq<Net>, owned: seq<Owned>,
    a: nat, d: Decision)
    requires Isolated(rules, routes, expected, owned)
    requires InSome(a, expected) && Decides(rules, selects, routes, a, d)
    ensures d.Via? ==>
              && d.index < |routes| && routes[d.index].Route?
              && (OwnRecordFor(routes[d.index], owned, a)
                  || (IsMain(routes[d.index].table) && IsDefault(routes[d.index].dst)))
    ensures d.Via? ==> IsMain(routes[d.index].table) || routes[d.index].table == Named("local")
    decreases rules
  {
    if rules != [] {
      RuleOkIff(rules[0]);
      if d.Via? && d.index < |routes| && Matches(routes[d.index], a) {
        MatchingRoutes(rules, routes, expected, owned, a, d.index);
      } else if !selects(rules[0]) || Meaning(rules[0]).Lookup? {
        NoForeignRouteCaptures(rules[1..], selects, routes, expected, owned, a, d);
      }
    }
  }

  // ----- exactly which records are accepted -----

  /** No address of the block is one of the fixed subnets, which are IPv4. */
  ghost predicate Clear(n: Net, expected: seq<Net>) {
    n.version == 4 ==> forall a: nat :: In(a, n) ==> !InSome(a, expected)
  }

  ghost predicate FixedBlocks(expected: seq<Net>) {
    forall i :: 0 <= i < |expected| ==> IsBlock(expected[i]) && expected[i].version == 4
  }

  lemma ClearIff(n: Net, expected: seq<Net>)
    requires IsBlock(n) && FixedBlocks(expected)
    ensures Clear(n, expected) <==> !Touches(n, expected)
  {
    forall i | 0 <= i < |expected|
      ensures Overlaps(n, expected[i]) <==> exists a: nat :: In(a, n) && In(a, expected[i])
    {
      OverlapMeansSharedAddress(n, expected[i]);
    }
  }

  /** The kernel's record of a bridge in the main table, with any fields that are not looked at. */
  function BridgeRecord(o: Owned, table: Table, bare: bool, kind: Field<string>, prefsrc: Field<nat>, extra: bool)
    : Route
  {
    Route(table, Target(o.net, bare), Is(o.device), Is("kernel"), Is("link"),
          Is(if o.attached then [] else ["linkdown"]), kind, prefsrc, extra)
  }

  /** The records of its two special addresses in the local table. */
  function GatewayRecord(o: Owned): Route {
    Route(Named("local"), Target(Net(4, Gateway(o.net), 32), true), Is(o.device), Is("kernel"), Is("host"),
          Is([]), Is("local"), Is(Gateway(o.net)), false)
  }

  function BroadcastRecord(o: Owned): Route {
    Route(Named("local"), Target(Net(4, Last(o.net), 32), true), Is(o.device), Is("kernel"), Is("link"),
          Is(if o.attached then [] else ["linkdown"]), Is("broadcast"), Is(Gateway(o.net)), false)
  }

  /** The bridge record up to the fields that are not looked at; the special records to the letter. */
  ghost predicate IsRecordOf(r: Route, o: Owned) {
    || r == GatewayRecord(o) || r == BroadcastRecord(o)
    || (r.Route? && r.dst.Target? && r.table in {NoTable, Named("main")}
        && r == BridgeRecord(o, r.table, r.dst.bare, r.kind, r.prefsrc, r.extra))
  }

  lemma RecordsAre(r: Route, o: Owned)
    requires r.Route? && Parsed(r) && IsBlock(o.net) && o.net.version == 4
    ensures IsRecordOf(r, o) <==> IsOwnedBridge(r, o) || IsOwnedCompanion(r, o)
  {
  }

  ghost predicate IsOwnRecord(r: Route, owned: seq<Owned>) {
    exists i :: 0 <= i < |owned| && IsRecordOf(r, owned[i])
  }

  /** A default of the main table, a record of an owned bridge, or a route that keeps clear of the subnets. */
  ghost predicate Accepted(r: Route, expected: seq<Net>, owned: seq<Owned>) {
    && r.Route? && !r.table.Malformed?
    && if IsDefault(r.dst) then IsMain(r.table)
       else r.dst.Target? && (IsOwnRecord(r, owned) || Clear(r.dst.net, expected))
  }

  /** Bridges in the fixed subnets, with room for a gateway. */
  ghost predicate FixedBridges(owned: seq<Owned>, expected: seq<Net>) {
    forall i :: 0 <= i < |owned| ==>
      && IsBlock(owned[i].net) && owned[i].net.version == 4 && 2 <= Size(owned[i].net)
      && Touches(owned[i].net, expected)
  }

  lemma CompanionIsEnclosed(r: Route, o: Owned)
    requires r.Route? && Parsed(r) && IsOwnedCompanion(r, o)
    requires IsBlock(o.net) && o.net.version == 4 && 2 <= Size(o.net)
    ensures Encloses(o, r.dst.net) && r.dst.net != o.net
  {
    assert Size(r.dst.net) == Pow2(0);
    MaskIsRange(r.dst.net.base, o.net);
  }

  /** The two route checks together accept exactly these records. */
  lemma RouteAcceptedIff(r: Route, expected: seq<Net>, owned: seq<Owned>)
    requires Parsed(r) && FixedBlocks(expected) && FixedBridges(owned, expected) && Disjoint(owned)
    ensures PolicyRouteOk(r, expected) && HostRouteOk(r, expected, owned) <==> Accepted(r, expected, owned)
  {
    if r.Route? && r.dst.Target? {
      ClearIff(r.dst.net, expected);
      forall i: nat | i < |owned|
        ensures IsRecordOf(r, owned[i]) <==> IsOwnedBridge(r, owned[i]) || IsOwnedCompanion(r, owned[i])
        ensures IsOwnedCompanion(r, owned[i]) ==> Encloses(owned[i], r.dst.net) && r.dst.net != owned[i].net
      {
        RecordsAre(r, owned[i]);
        if IsOwnedCompanion(r, owned[i]) { CompanionIsEnclosed(r, owned[i]); }
      }
      CompanionIsNoBridge(r, owned);
    }
  }

  /** A companion's address is a block of no owned bridge. */
  lemma CompanionIsNoBridge(r: Route, owned: seq<Owned>)
    requires r.Route? && r.dst.Target? && Parsed(r) && Disjoint(owned)
    requires forall i :: 0 <= i < |owned| && IsOwnedCompanion(r, owned[i]) ==>
                           Encloses(owned[i], r.dst.net) && r.dst.net != owned[i].net
    ensures forall i, j :: 0 <= i < |owned| && 0 <= j < |owned| && IsOwnedCompanion(r, owned[i]) ==>
                             owned[j].net != r.dst.net
  {
    forall i, j | 0 <= i < |owned| && 0 <= j < |owned| && IsOwnedCompanion(r, owned[i])
      ensures owned[j].net != r.dst.net
    {
      if owned[j].net == r.dst.net {
        MaskIsRange(r.dst.net.base, owned[i].net);
        MaskIsRange(r.dst.net.base, owned[j].net);
        OverlapMeansSharedAddress(owned[i].net, owned[j].net);
      }
    }
  }

  /** Where the main table holds an owned bridge's record, the longest match is that bridge. */
  lemma BridgeBeatsDefault(
    rules: seq<Rule>, routes: seq<Route>, expected: seq<Net>, owned: seq<Owned>, a: nat, b: nat, i: nat, k: nat)
    requires Isolated(rules, routes, expected, owned) && Disjoint(owned)
    requires InSome(a, expected) && i < |owned| && In(a, owned[i].net) && 0 < owned[i].net.prefix
    requires b < |routes| && routes[b].Route? && IsOwnedBridge(routes[b], owned[i])
    requires owned[i].net.version == 4
    requires LongestMatch(routes, Named("main"), a, k)
    ensures routes[k].dst.Target? && routes[k].dst.net == owned[i].net && IsOwnedBridge(routes[k], owned[i])
  {
    assert Matches(routes[b], a) && SameTable(routes[b].table, Named("main"));
    assert Length(routes[b]) <= Length(routes[k]);
    MatchingRoutes(rules, routes, expected, owned, a, k);
    var j :| 0 <= j < |owned| && In(a, owned[j].net) && IsOwnedBridge(routes[k], owned[j]);
    if i != j {
      OverlapMeansSharedAddress(owned[i].net, owned[j].net);
    }
  }
}
