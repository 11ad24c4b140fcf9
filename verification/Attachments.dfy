/**
 Authentication of the project's own Docker networks against the controller's four stages:
 which addresses may sit on which network, and which containers may hold them.
 */
module Attachments {
  import opened Cidr
  import opened StackWorld
  import opened HostRoutes
  import opened Wrappers

  datatype Logical = PgAdmin | PgApi | PgWorker | PgProbe | RuntimeData | Ingress | PgErasure

  const ALL_LOGICAL: set<Logical> := {PgAdmin, PgApi, PgWorker, PgProbe, RuntimeData, Ingress, PgErasure}

  /** 10.77.third.fourth */
  function Address(third: nat, fourth: nat): nat {
    10 * 0x100_0000 + 77 * 0x1_0000 + third * 0x100 + fourth
  }

  function Subnet(l: Logical): Net {
    match l
    case PgAdmin => Net(4, Address(10, 0), 29)
    case PgApi => Net(4, Address(11, 0), 29)
    case PgWorker => Net(4, Address(12, 0), 29)
    case PgProbe => Net(4, Address(13, 0), 29)
    case RuntimeData => Net(4, Address(14, 0), 28)
    case Ingress => Net(4, Address(15, 0), 29)
    case PgErasure => Net(4, Address(16, 0), 29)
  }

  /** The fixed address of a long-running service on a network; 0 if it is not attached. */
  function At(s: Service, l: Logical): nat {
    match (s, l)
    case (Postgres, PgAdmin) => Address(10, 2)
    case (Postgres, PgApi) => Address(11, 2)
    case (Postgres, PgWorker) => Address(12, 2)
    case (Postgres, PgProbe) => Address(13, 2)
    case (Postgres, PgErasure) => Address(16, 2)
    case (Valkey, RuntimeData) => Address(14, 2)
    case (Seaweedfs, RuntimeData) => Address(14, 3)
    case (Api, PgApi) => Address(11, 3)
    case (Api, RuntimeData) => Address(14, 5)
    case (Api, Ingress) => Address(15, 2)
    case (Edge, Ingress) => Address(15, 4)
    case (Worker, PgWorker) => Address(12, 3)
    case (Worker, RuntimeData) => Address(14, 6)
    case (Erasure, PgErasure) => Address(16, 3)
    case (Erasure, RuntimeData) => Address(14, 7)
    case (Dashboard, Ingress) => Address(15, 3)
    case _ => 0
  }

  /** Every fixed address is a host address of its subnet, apart from the gateway, and belongs to one service. */
  lemma AddressesFit(s: Service, l: Logical)
    ensures At(s, l) != 0 ==> Gateway(Subnet(l)) < At(s, l) < Last(Subnet(l))
    ensures forall t: Service :: t != s && At(s, l) != 0 ==> At(t, l) != At(s, l)
  {
    assert Pow2(3) == 8 && Pow2(4) == 16;
  }

  lemma EveryLogical()
    ensures forall l: Logical :: l in ALL_LOGICAL
  {
    forall l: Logical
      ensures l in ALL_LOGICAL
    {
      match l
      case PgAdmin =>
      case PgApi =>
      case _ =>
    }
  }

  function One(b: bool): nat { if b then 1 else 0 }

  /** How many of the stage's services sit on a network. */
  function CountOn(l: Logical, g: Stage): nat {
    One(At(Postgres, l) != 0) + One(At(Valkey, l) != 0) + One(At(Seaweedfs, l) != 0)
    + One(InStage(Api, g) && At(Api, l) != 0) + One(InStage(Edge, g) && At(Edge, l) != 0)
    + One(InStage(Worker, g) && At(Worker, l) != 0) + One(InStage(Erasure, g) && At(Erasure, l) != 0)
    + One(InStage(Dashboard, g) && At(Dashboard, l) != 0)
  }

  function Degree(s: Service): nat {
    One(At(s, PgAdmin) != 0) + One(At(s, PgApi) != 0) + One(At(s, PgWorker) != 0) + One(At(s, PgProbe) != 0)
    + One(At(s, RuntimeData) != 0) + One(At(s, Ingress) != 0) + One(At(s, PgErasure) != 0)
  }

  /** How many attachments the services of the stage have in all. */
  function Endpoints(g: Stage): nat {
    Degree(Postgres) + Degree(Valkey) + Degree(Seaweedfs)
    + (if InStage(Api, g) then Degree(Api) else 0) + (if InStage(Edge, g) then Degree(Edge) else 0)
    + (if InStage(Worker, g) then Degree(Worker) else 0) + (if InStage(Erasure, g) then Degree(Erasure) else 0)
    + (if InStage(Dashboard, g) then Degree(Dashboard) else 0)
  }

  /** The addresses that the stage puts on a network. */
  function AddressesOn(l: Logical, g: Stage): set<nat> {
    set s: Service | InStage(s, g) && At(s, l) != 0 :: At(s, l)
  }

  /** The addresses in use on each network while everything runs. */
  lemma SustainedAddresses()
    ensures AddressesOn(PgAdmin, Sustained) == {Address(10, 2)} && AddressesOn(PgProbe, Sustained) == {Address(13, 2)}
    ensures AddressesOn(PgApi, Sustained) == {Address(11, 2), Address(11, 3)}
    ensures AddressesOn(PgWorker, Sustained) == {Address(12, 2), Address(12, 3)}
    ensures AddressesOn(PgErasure, Sustained) == {Address(16, 2), Address(16, 3)}
    ensures AddressesOn(Ingress, Sustained) == {Address(15, 2), Address(15, 3), Address(15, 4)}
    ensures AddressesOn(RuntimeData, Sustained)
         == {Address(14, 2), Address(14, 3), Address(14, 5), Address(14, 6), Address(14, 7)}
  {
    OnNetwork(PgAdmin, {Postgres});
    OnNetwork(PgProbe, {Postgres});
    OnNetwork(PgApi, {Postgres, Api});
    OnNetwork(PgWorker, {Postgres, Worker});
    OnNetwork(PgErasure, {Postgres, Erasure});
    OnNetwork(Ingress, {Api, Dashboard, Edge});
    OnNetwork(RuntimeData, {Valkey, Seaweedfs, Api, Worker, Erasure});
  }

  lemma OnNetwork(l: Logical, services: set<Service>)
    requires forall s: Service :: s in services <==> At(s, l) != 0
    ensures AddressesOn(l, Sustained) == set s | s in services :: At(s, l)
  {
  }

  // ----- inspected records -----

  /** One entry of a network's `Containers`: an IPv4 address with its prefix length, or not. */
  datatype Endpoint = Endpoint(address: nat, prefix: nat) | BadEndpoint

  datatype Container = Container(
    id: Field<string>,
    name: Field<string>,
    project: Field<string>,
    service: Field<string>,
    number: Field<string>,
    running: bool,
    status: Field<string>,
    networks: Field<map<string, Field<nat>>>)

  type Listing = map<Logical, map<string, Endpoint>>

  predicate IsIdentifier(s: string) {
    |s| == 64 && forall i :: 0 <= i < 64 ==> s[i] in "0123456789abcdef"
  }

  lemma IdentifierIff(s: string)
    ensures IsIdentifier(s) <==> |s| == 64 && forall c :: c in s ==> c in "0123456789abcdef"
  {
  }

  function LogicalName(l: Logical): string {
    match l
    case PgAdmin => "pg-admin"
    case PgApi => "pg-api"
    case PgWorker => "pg-worker"
    case PgProbe => "pg-probe"
    case RuntimeData => "runtime-data"
    case Ingress => "ingress"
    case PgErasure => "pg-erasure"
  }

  function ServiceName(s: Service): string {
    match s
    case Postgres => "postgres"
    case Valkey => "valkey"
    case Seaweedfs => "seaweedfs"
    case Api => "api"
    case Edge => "edge"
    case Worker => "worker"
    case Erasure => "erasure"
    case Dashboard => "dashboard"
  }

  function NetworkName(project: string, l: Logical): string { project + "_" + LogicalName(l) }

  /** Endpoints with valid identifiers that carry exactly the given addresses, each once. */
  ghost predicate Carries(m: map<string, Endpoint>, count: nat, prefix: nat, addresses: set<nat>) {
    && |m| == count
    && (forall id :: id in m ==> IsIdentifier(id) && m[id].Endpoint? && m[id].prefix == prefix)
    && (forall a, b :: a in m && b in m && a != b ==> m[a].address != m[b].address)
    && (forall id :: id in m ==> m[id].address in addresses)
    && (forall a :: a in addresses ==> exists id :: id in m && m[id].address == a)
  }

  ghost predicate NetworkAuthentic(m: map<string, Endpoint>, l: Logical, g: Stage) {
    Carries(m, CountOn(l, g), Subnet(l).prefix, AddressesOn(l, g))
  }

  /** The inspected container is `s` of this project, at exactly its fixed addresses. */
  predicate ContainerIs(c: Container, project: string, s: Service) {
    && c.service == Is(ServiceName(s)) && c.project == Is(project)
    && c.name == Is("/" + project + "-" + ServiceName(s) + "-1") && c.number == Is("1")
    && (if s in CORE then c.running && c.status == Is("running")
        else c.running || c.status == Is("exited") || c.status == Is("created"))
    && c.networks.Is?
    && c.networks.value.Keys == (set l: Logical | At(s, l) != 0 :: NetworkName(project, l))
    && (forall l :: At(s, l) != 0 ==> c.networks.value[NetworkName(project, l)] == Is(At(s, l)))
  }

  /** The service whose container this is, if it is exactly that. */
  function Recognised(c: Container, ids: set<string>, project: string): Option<Service> {
    if !c.id.Is? || c.id.value !in ids then None
    else if ContainerIs(c, project, Postgres) then Some(Postgres)
    else if ContainerIs(c, project, Valkey) then Some(Valkey)
    else if ContainerIs(c, project, Seaweedfs) then Some(Seaweedfs)
    else if ContainerIs(c, project, Api) then Some(Api)
    else if ContainerIs(c, project, Edge) then Some(Edge)
    else if ContainerIs(c, project, Worker) then Some(Worker)
    else if ContainerIs(c, project, Erasure) then Some(Erasure)
    else if ContainerIs(c, project, Dashboard) then Some(Dashboard)
    else None
  }

  function WhoIs(cs: seq<Container>, ids: set<string>, project: string): (who: seq<Option<Service>>)
    ensures |who| == |cs|
    ensures forall i :: 0 <= i < |cs| ==> who[i] == Recognised(cs[i], ids, project)
  {
    seq(|cs|, i requires 0 <= i < |cs| => Recognised(cs[i], ids, project))
  }

  /** Every service of the stage occurs exactly once, and nothing else occurs. */
  ghost predicate Covers(who: seq<Option<Service>>, g: Stage) {
    && (forall i :: 0 <= i < |who| ==> who[i].Some? && InStage(who[i].value, g))
    && (forall i, j :: 0 <= i < j < |who| ==> who[i] != who[j])
    && (forall s :: InStage(s, g) ==> Some(s) in who)
  }

  ghost predicate ContainersAuthentic(cs: seq<Container>, ids: set<string>, project: string, g: Stage) {
    |cs| == |ids| && Covers(WhoIs(cs, ids, project), g)
  }

  function IdentifiersIn(nets: Listing): set<string> {
    set l, id | l in nets && id in nets[l] :: id
  }

  // ----- counting -----

  function Total(nets: Listing): nat
    requires forall l :: l in nets
  {
    |nets[PgAdmin]| + |nets[PgApi]| + |nets[PgWorker]| + |nets[PgProbe]| + |nets[RuntimeData]|
    + |nets[Ingress]| + |nets[PgErasure]|
  }

  lemma CoreDegrees()
    ensures Degree(Postgres) == 5 && Degree(Valkey) == 1 && Degree(Seaweedfs) == 1
  {
  }

  lemma RuntimeDegrees()
    ensures Degree(Api) == 3 && Degree(Edge) == 1 && Degree(Worker) == 2
    ensures Degree(Erasure) == 2 && Degree(Dashboard) == 1
  {
  }

  lemma EndpointsAre(g: Stage)
    ensures Endpoints(g) == 7 + 7 * One(InStage(Api, g)) + 2 * One(InStage(Worker, g))
  {
    CoreDegrees();
    RuntimeDegrees();
  }

  /** The four stages have 16, 14, 9 and 7 endpoints, so a total names at most one stage. */
  lemma StageTotals()
    ensures Endpoints(Sustained) == 16 && Endpoints(DrainedStage) == 14
    ensures Endpoints(RollbackRecovery) == 9 && Endpoints(CoreOnly) == 7
  {
    EndpointsAre(Sustained);
    EndpointsAre(DrainedStage);
    EndpointsAre(RollbackRecovery);
    EndpointsAre(CoreOnly);
  }

  /** Summed by network or by service, the attachments of a stage are the same number. */
  lemma CountsSumUp(g: Stage)
    ensures CountOn(PgAdmin, g) + CountOn(PgApi, g) + CountOn(PgWorker, g) + CountOn(PgProbe, g)
            + CountOn(RuntimeData, g) + CountOn(Ingress, g) + CountOn(PgErasure, g) == Endpoints(g)
  {
    OwnerDatabaseCounts(g);
    RuntimeDatabaseCounts(g);
    SharedCounts(g);
    EndpointsAre(g);
  }

  lemma OwnerDatabaseCounts(g: Stage)
    ensures CountOn(PgAdmin, g) == CountOn(PgProbe, g) == 1
  {
  }

  lemma RuntimeDatabaseCounts(g: Stage)
    ensures CountOn(PgApi, g) == CountOn(PgErasure, g) == 1 + One(InStage(Api, g))
    ensures CountOn(PgWorker, g) == 1 + One(InStage(Worker, g))
  {
  }

  lemma SharedCounts(g: Stage)
    ensures CountOn(Ingress, g) == 3 * One(InStage(Api, g))
    ensures CountOn(RuntimeData, g) == 2 + One(InStage(Worker, g)) + 2 * One(InStage(Api, g))
  {
  }

  /** Networks that carry a stage's addresses have that stage's total. */
  lemma AuthenticTotal(nets: Listing, g: Stage)
    requires forall l :: l in nets && |nets[l]| == CountOn(l, g)
    ensures Total(nets) == Endpoints(g)
  {
    CountsSumUp(g);
  }

  // ----- the checks, in the source's loop form -----

  method AuthenticateEndpoints(m: map<string, Endpoint>, count: nat, prefix: nat, addresses: set<nat>)
    returns (ok: bool)
    ensures ok <==> Carries(m, count, prefix, addresses)
  {
    if |m| != count { return false; }
    var rest, observed := m.Keys, {};
    while rest != {}
      invariant rest <= m.Keys
      invariant forall id :: id in m.Keys - rest ==>
                  IsIdentifier(id) && m[id].Endpoint? && m[id].prefix == prefix
                  && m[id].address in addresses && m[id].address in observed
      invariant forall a :: a in observed ==> exists id :: id in m.Keys - rest && m[id].Endpoint? && m[id].address == a
      invariant forall a, b :: a in m.Keys - rest && b in m.Keys - rest && a != b ==> m[a].address != m[b].address
      decreases rest
    {
      var id :| id in rest;
      if !IsIdentifier(id) || !m[id].Endpoint? { return false; }
      if m[id].prefix != prefix || m[id].address !in addresses { return false; }
      if m[id].address in observed { return false; }
      observed := observed + {m[id].address};
      rest := rest - {id};
    }
    ok := observed == addresses;
  }

  method AuthenticateServices(who: seq<Option<Service>>, g: Stage) returns (ok: bool)
    ensures ok <==> Covers(who, g)
  {
    var seen: set<Service> := {};
    for i := 0 to |who|
      invariant forall j :: 0 <= j < i ==> who[j].Some? && InStage(who[j].value, g) && who[j].value in seen
      invariant forall s :: s in seen ==> Some(s) in who[..i]
      invariant forall j, k :: 0 <= j < k < i ==> who[j] != who[k]
    {
      if who[i].None? || !InStage(who[i].value, g) { return false; }
      if who[i].value in seen { return false; }
      seen := seen + {who[i].value};
    }
    ok := forall s: Service :: InStage(s, g) ==> s in seen;
    assert who[..|who|] == who;
  }

  ghost predicate NetworksAuthentic(nets: Listing, g: Stage) {
    forall l :: l in nets && NetworkAuthentic(nets[l], l, g)
  }

  ghost predicate Authentic(nets: Listing, project: string, inspect: set<string> -> seq<Container>, g: Stage) {
    NetworksAuthentic(nets, g) && InspectionAuthentic(IdentifiersIn(nets), project, inspect, g)
  }

  ghost predicate InspectionAuthentic(
    ids: set<string>, project: string, inspect: set<string> -> seq<Container>, g: Stage)
  {
    ids != {} && ContainersAuthentic(inspect(ids), ids, project, g)
  }

  method AuthenticateInspection(ids: set<string>, project: string, inspect: set<string> -> seq<Container>, g: Stage)
    returns (ok: bool)
    ensures ok <==> InspectionAuthentic(ids, project, inspect, g)
  {
    if ids == {} { return false; }
    var cs := inspect(ids);
    if |cs| != |ids| { return false; }
    ok := AuthenticateServices(WhoIs(cs, ids, project), g);
  }

  method AuthenticateNetwork(m: map<string, Endpoint>, l: Logical, g: Stage) returns (ok: bool)
    ensures ok <==> NetworkAuthentic(m, l, g)
  {
    ok := AuthenticateEndpoints(m, CountOn(l, g), Subnet(l).prefix, AddressesOn(l, g));
  }

  method AuthenticateNetworks(nets: Listing, g: Stage) returns (ok: bool)
    requires forall l :: l in nets
    ensures ok <==> NetworksAuthentic(nets, g)
  {
    EveryLogical();
    var rest: set<Logical> := ALL_LOGICAL;
    while rest != {}
      invariant forall l :: l in rest || NetworkAuthentic(nets[l], l, g)
      decreases rest
    {
      var l :| l in rest;
      ok := AuthenticateNetwork(nets[l], l, g);
      if !ok { return; }
      rest := rest - {l};
    }
    ok := true;
  }

  method AuthenticateAttachments(nets: Listing, project: string, inspect: set<string> -> seq<Container>, g: Stage)
    returns (ok: bool)
    requires forall l :: l in nets
    ensures ok <==> Authentic(nets, project, inspect, g)
  {
    ok := AuthenticateNetworks(nets, g);
    if !ok { return; }
    ok := AuthenticateInspection(IdentifiersIn(nets), project, inspect, g);
  }

  function StageFor(total: nat): Option<Stage> {
    if total == Endpoints(Sustained) then Some(Sustained)
    else if total == Endpoints(DrainedStage) then Some(DrainedStage)
    else if total == Endpoints(RollbackRecovery) then Some(RollbackRecovery)
    else if total == Endpoints(CoreOnly) then Some(CoreOnly)
    else None
  }

  lemma TotalNamesStage(g: Stage)
    ensures StageFor(Endpoints(g)) == Some(g)
  {
    StageTotals();
  }

  lemma FitsOneStage(nets: Listing, g: Stage)
    requires NetworksAuthentic(nets, g)
    ensures (forall l :: l in nets) && StageFor(Total(nets)) == Some(g)
  {
    forall l: Logical
      ensures l in nets && |nets[l]| == CountOn(l, g)
    {
      assert NetworkAuthentic(nets[l], l, g);
    }
    AuthenticTotal(nets, g);
    TotalNamesStage(g);
  }

  /** Picks the one stage whose total fits and authenticates the attachments against it. */
  method AuthenticateStage(nets: Listing, project: string, inspect: set<string> -> seq<Container>)
    returns (stage: Option<Stage>)
    requires forall l :: l in nets
    ensures forall g :: stage == Some(g) <==> Authentic(nets, project, inspect, g)
  {
    stage := StageFor(Total(nets));
    forall g: Stage | Authentic(nets, project, inspect, g)
      ensures stage == Some(g)
    {
      FitsOneStage(nets, g);
    }
    if stage.Some? {
      var ok := AuthenticateAttachments(nets, project, inspect, stage.value);
      stage := if ok then stage else None;
    }
  }

  // ----- what an accepted project guarantees -----

  ghost predicate DistinctIds(cs: seq<Container>) {
    && (forall i :: 0 <= i < |cs| ==> cs[i].id.Is?)
    && (forall i, j :: 0 <= i < j < |cs| ==> cs[i].id != cs[j].id)
  }

  lemma {:induction false} ListedIds(cs: seq<Container>)
    requires DistinctIds(cs)
    ensures |set i | 0 <= i < |cs| :: cs[i].id.value| == |cs|
  {
    var all := set i | 0 <= i < |cs| :: cs[i].id.value;
    if cs != [] {
      var last, rest := cs[|cs|-1].id.value, cs[..|cs|-1];
      ListedIds(rest);
      var before := set i | 0 <= i < |rest| :: rest[i].id.value;
      assert all == before + {last};
      assert last !in before;
    }
  }

  /**
   If each inspected record has its own identifier, the endpoints and the services of the stage
   are in one-to-one correspondence through the inspected containers.
   */
  lemma EndpointsAreServices(
    ids: set<string>, project: string, inspect: set<string> -> seq<Container>, g: Stage)
    requires InspectionAuthentic(ids, project, inspect, g) && DistinctIds(inspect(ids))
    ensures forall i :: 0 <= i < |inspect(ids)| ==> inspect(ids)[i].id.value in ids
    ensures forall id :: id in ids ==> exists i :: 0 <= i < |inspect(ids)| && inspect(ids)[i].id == Is(id)
  {
    var cs := inspect(ids);
    RecognisedAreListed(cs, ids, project, g);
    EveryIdListed(cs, ids);
  }

  lemma RecognisedAreListed(cs: seq<Container>, ids: set<string>, project: string, g: Stage)
    requires Covers(WhoIs(cs, ids, project), g)
    ensures forall i :: 0 <= i < |cs| ==> cs[i].id.Is? && cs[i].id.value in ids
  {
    forall i | 0 <= i < |cs|
      ensures cs[i].id.Is? && cs[i].id.value in ids
    {
      assert WhoIs(cs, ids, project)[i].Some?;
    }
  }

  lemma EveryIdListed(cs: seq<Container>, ids: set<string>)
    requires DistinctIds(cs) && |cs| == |ids|
    requires forall i :: 0 <= i < |cs| ==> cs[i].id.Is? && cs[i].id.value in ids
    ensures forall id :: id in ids ==> exists i :: 0 <= i < |cs| && cs[i].id == Is(id)
  {
    var listed := set i | 0 <= i < |cs| :: cs[i].id.value;
    ListedIds(cs);
    SubsetOfSameSize(listed, ids);
    assert forall id :: id in ids ==> id in listed;
  }

  lemma {:induction false} SubsetOfSameSize(a: set<string>, b: set<string>)
    requires a <= b && |a| == |b|
    ensures a == b
  {
    assert |b - a| == |b| - |a|;
  }

  /** The endpoint has the fixed address of the service its container is. */
  ghost predicate Fits(e: Endpoint, c: Container, ids: set<string>, project: string, l: Logical) {
    var s := Recognised(c, ids, project);
    s.Some? && e.Endpoint? && e.address == At(s.value, l)
  }

  /** The network listing and the container inspection name the same address. */
  ghost predicate Agrees(e: Endpoint, c: Container, project: string, l: Logical) {
    && e.Endpoint? && c.networks.Is? && NetworkName(project, l) in c.networks.value
    && c.networks.value[NetworkName(project, l)] == Is(e.address)
  }

  ghost predicate EndpointsFitServices(nets: Listing, project: string, cs: seq<Container>, ids: set<string>) {
    forall l, id, i :: l in nets && id in nets[l] && 0 <= i < |cs| && cs[i].id == Is(id) ==>
      Fits(nets[l][id], cs[i], ids, project, l)
  }

  ghost predicate RepliesAgree(nets: Listing, project: string, cs: seq<Container>) {
    forall l, id, i :: l in nets && id in nets[l] && 0 <= i < |cs| && cs[i].id == Is(id) ==>
      Agrees(nets[l][id], cs[i], project, l)
  }

  lemma NetworkNamesDiffer(project: string, l: Logical, k: Logical)
    requires NetworkName(project, l) == NetworkName(project, k)
    ensures l == k
  {
    var n := |project| + 1;
    assert NetworkName(project, l)[n..] == LogicalName(l) && NetworkName(project, k)[n..] == LogicalName(k);
    assert LogicalName(l) == LogicalName(k);
    assert |LogicalName(l)| == |LogicalName(k)|;
    assert LogicalName(l)[0] == LogicalName(k)[0];
    assert |LogicalName(l)| > 3 ==> LogicalName(l)[3] == LogicalName(k)[3];
    assert |LogicalName(l)| > 4 ==> LogicalName(l)[4] == LogicalName(k)[4];
  }

  /** What a recognised container reports on a network is its service's fixed address, if any. */
  lemma ReportedAddress(c: Container, ids: set<string>, project: string, l: Logical)
    requires Recognised(c, ids, project).Some?
    ensures var s := Recognised(c, ids, project).value;
            c.networks.Is? && (NetworkName(project, l) in c.networks.value <==> At(s, l) != 0)
            && (At(s, l) != 0 ==> c.networks.value[NetworkName(project, l)] == Is(At(s, l)))
  {
    var s := Recognised(c, ids, project).value;
    assert ContainerIs(c, project, s);
    if NetworkName(project, l) in c.networks.value {
      var k: Logical :| At(s, k) != 0 && NetworkName(project, k) == NetworkName(project, l);
      NetworkNamesDiffer(project, l, k);
    }
  }

  lemma FitsIffAgrees(e: Endpoint, c: Container, ids: set<string>, project: string, l: Logical)
    requires Recognised(c, ids, project).Some? && e.Endpoint? && e.address != 0
    ensures Fits(e, c, ids, project, l) <==> Agrees(e, c, project, l)
  {
    ReportedAddress(c, ids, project, l);
  }

  lemma AcceptedEndpoint(m: map<string, Endpoint>, l: Logical, g: Stage, id: string)
    requires NetworkAuthentic(m, l, g) && id in m
    ensures m[id].Endpoint? && m[id].address != 0
  {
    assert m[id].address in AddressesOn(l, g);
  }

  lemma AcceptedContainer(cs: seq<Container>, ids: set<string>, project: string, g: Stage, i: nat)
    requires ContainersAuthentic(cs, ids, project, g) && i < |cs|
    ensures Recognised(cs[i], ids, project).Some?
  {
    assert WhoIs(cs, ids, project)[i].Some?;
  }

  /**
   The check never compares the two replies with each other. Accepted endpoints sit at their
   services' addresses exactly when the replies agree.
   */
  lemma EndpointsFitIffRepliesAgree(nets: Listing, project: string, cs: seq<Container>, ids: set<string>, g: Stage)
    requires NetworksAuthentic(nets, g) && ContainersAuthentic(cs, ids, project, g)
    ensures EndpointsFitServices(nets, project, cs, ids) <==> RepliesAgree(nets, project, cs)
  {
    forall l, id, i: nat | l in nets && id in nets[l] && i < |cs|
      ensures Fits(nets[l][id], cs[i], ids, project, l) <==> Agrees(nets[l][id], cs[i], project, l)
    {
      AcceptedEndpoint(nets[l], l, g, id);
      AcceptedContainer(cs, ids, project, g, i);
      FitsIffAgrees(nets[l][id], cs[i], ids, project, l);
    }
  }

  // ----- the owned bridges -----

  lemma SubnetIsBlock(l: Logical)
    ensures IsBlock(Subnet(l)) && Size(Subnet(l)) == (if l.RuntimeData? then 16 else 8)
  {
    assert Pow2(3) == 8 && Pow2(4) == 16;
  }

  lemma SubnetsAreDisjoint(l: Logical, k: Logical)
    requires l != k
    ensures !Overlaps(Subnet(l), Subnet(k))
  {
    SubnetIsBlock(l);
    SubnetIsBlock(k);
    OverlapMeansSharedAddress(Subnet(l), Subnet(k));
  }

  /** The kernel names a bridge after the first twelve digits of the network's identifier. */
  function Bridge(l: Logical, identifier: string, endpoints: map<string, Endpoint>): Owned {
    Owned(Subnet(l), "br-" + (if |identifier| <= 12 then identifier else identifier[..12]), endpoints != map[])
  }

  /** The bridges that authentication hands to the route check, one for each network. */
  method OwnedBridges(identifiers: map<Logical, string>, nets: Listing) returns (owned: seq<Owned>)
    requires forall l :: l in identifiers && l in nets
    ensures Disjoint(owned)
    ensures forall l :: Bridge(l, identifiers[l], nets[l]) in owned
    ensures forall o :: o in owned ==> exists l :: o == Bridge(l, identifiers[l], nets[l])
  {
    owned := [];
    EveryLogical();
    var rest, done: seq<Logical> := ALL_LOGICAL, [];
    while rest != {}
      invariant |done| == |owned|
      invariant forall i :: 0 <= i < |done| ==>
                  done[i] !in rest && owned[i] == Bridge(done[i], identifiers[done[i]], nets[done[i]])
      invariant forall i, j :: 0 <= i < j < |done| ==> done[i] != done[j]
      invariant forall l :: l in rest || Bridge(l, identifiers[l], nets[l]) in owned
      decreases rest
    {
      var l :| l in rest;
      owned := owned + [Bridge(l, identifiers[l], nets[l])];
      done := done + [l];
      rest := rest - {l};
    }
    forall i | 0 <= i < |owned|
      ensures IsBlock(owned[i].net)
    {
      SubnetIsBlock(done[i]);
    }
    forall i, j | 0 <= i < |owned| && 0 <= j < |owned| && i != j
      ensures !Overlaps(owned[i].net, owned[j].net)
    {
      SubnetsAreDisjoint(done[i], done[j]);
    }
  }

  // ----- an accepted listing whose endpoints are swapped -----

  function Genuine(s: Service, id: string, project: string): (c: Container)
    ensures ContainerIs(c, project, s) && c.id == Is(id)
  {
    var names := set l: Logical | At(s, l) != 0 :: NetworkName(project, l);
    var reported := map n | n in names :: Is(Reported(s, project, n));
    assert forall l :: At(s, l) != 0 ==> reported[NetworkName(project, l)] == Is(At(s, l)) by {
      forall l: Logical | At(s, l) != 0
        ensures Reported(s, project, NetworkName(project, l)) == At(s, l)
      {
        ReportedByName(s, project, l);
      }
    }
    Container(Is(id), Is("/" + project + "-" + ServiceName(s) + "-1"), Is(project), Is(ServiceName(s)),
              Is("1"), true, Is("running"), Is(reported))
  }

  function Reported(s: Service, project: string, name: string): nat {
    if name == NetworkName(project, PgAdmin) then At(s, PgAdmin)
    else if name == NetworkName(project, PgApi) then At(s, PgApi)
    else if name == NetworkName(project, PgWorker) then At(s, PgWorker)
    else if name == NetworkName(project, PgProbe) then At(s, PgProbe)
    else if name == NetworkName(project, RuntimeData) then At(s, RuntimeData)
    else if name == NetworkName(project, Ingress) then At(s, Ingress)
    else At(s, PgErasure)
  }

  lemma ReportedByName(s: Service, project: string, l: Logical)
    ensures Reported(s, project, NetworkName(project, l)) == At(s, l)
  {
    forall k: Logical | NetworkName(project, l) == NetworkName(project, k)
      ensures l == k
    {
      NetworkNamesDiffer(project, l, k);
    }
  }

  lemma GenuineIsRecognised(s: Service, id: string, project: string, ids: set<string>)
    requires id in ids
    ensures Recognised(Genuine(s, id, project), ids, project) == Some(s)
  {
    var c := Genuine(s, id, project);
    forall t: Service | ContainerIs(c, project, t)
      ensures t == s
    {
      NamesDiffer(s, t);
    }
  }

  lemma NamesDiffer(s: Service, t: Service)
    requires ServiceName(s) == ServiceName(t)
    ensures s == t
  {
    assert ServiceName(s)[0] == ServiceName(t)[0] && |ServiceName(s)| == |ServiceName(t)|;
    assert |ServiceName(s)| > 3 ==> ServiceName(s)[1] == ServiceName(t)[1];
  }

  /** The idle core, with the addresses of valkey and seaweedfs exchanged in the listing. */
  function SwappedOn(p: string, v: string, q: string, l: Logical): map<string, Endpoint> {
    match l
    case RuntimeData =>
      map[v := Endpoint(At(Seaweedfs, RuntimeData), 28), q := Endpoint(At(Valkey, RuntimeData), 28)]
    case Ingress => map[]
    case _ => map[p := Endpoint(At(Postgres, l), 29)]
  }

  function Swapped(p: string, v: string, q: string): (nets: Listing)
    ensures forall l :: l in nets && nets[l] == SwappedOn(p, v, q, l)
  {
    EveryLogical();
    map l | l in ALL_LOGICAL :: SwappedOn(p, v, q, l)
  }

  lemma OneEndpoint(id: string, a: nat, prefix: nat)
    requires IsIdentifier(id)
    ensures Carries(map[id := Endpoint(a, prefix)], 1, prefix, {a})
  {
    var m := map[id := Endpoint(a, prefix)];
    assert m.Keys == {id} && m[id].address == a;
  }

  lemma TwoEndpoints(v: string, q: string, a: nat, b: nat, prefix: nat)
    requires IsIdentifier(v) && IsIdentifier(q) && v != q && a != b
    ensures Carries(map[v := Endpoint(a, prefix), q := Endpoint(b, prefix)], 2, prefix, {a, b})
  {
    var m := map[v := Endpoint(a, prefix), q := Endpoint(b, prefix)];
    assert m.Keys == {v, q} && m[v].address == a && m[q].address == b;
  }

  lemma CoreAddresses(l: Logical)
    ensures AddressesOn(l, CoreOnly)
            == (match l
                case RuntimeData => {At(Seaweedfs, l), At(Valkey, l)}
                case Ingress => {}
                case _ => {At(Postgres, l)})
  {
    assert At(Postgres, l) != 0 ==> At(Postgres, l) in AddressesOn(l, CoreOnly);
    assert At(Valkey, l) != 0 ==> At(Valkey, l) in AddressesOn(l, CoreOnly);
    assert At(Seaweedfs, l) != 0 ==> At(Seaweedfs, l) in AddressesOn(l, CoreOnly);
  }

  lemma SwappedNetwork(p: string, v: string, q: string, l: Logical)
    requires IsIdentifier(p) && IsIdentifier(v) && IsIdentifier(q) && v != q
    ensures NetworkAuthentic(SwappedOn(p, v, q, l), l, CoreOnly)
  {
    CoreCounts(l);
    CoreAddresses(l);
    match l
    case RuntimeData => TwoEndpoints(v, q, At(Seaweedfs, l), At(Valkey, l), 28);
    case Ingress =>
    case _ => OneEndpoint(p, At(Postgres, l), 29);
  }

  lemma CoreCounts(l: Logical)
    ensures CountOn(l, CoreOnly) == if l.RuntimeData? then 2 else if l.Ingress? then 0 else 1
  {
    OwnerDatabaseCounts(CoreOnly);
    RuntimeDatabaseCounts(CoreOnly);
    SharedCounts(CoreOnly);
  }

  lemma SwappedNetworks(p: string, v: string, q: string)
    requires IsIdentifier(p) && IsIdentifier(v) && IsIdentifier(q) && v != q
    ensures NetworksAuthentic(Swapped(p, v, q), CoreOnly)
  {
    forall l: Logical
      ensures NetworkAuthentic(SwappedOn(p, v, q, l), l, CoreOnly)
    {
      SwappedNetwork(p, v, q, l);
    }
  }

  function GenuineCore(project: string, p: string, v: string, q: string): seq<Container> {
    [Genuine(Postgres, p, project), Genuine(Valkey, v, project), Genuine(Seaweedfs, q, project)]
  }

  lemma GenuineCoreIsAuthentic(project: string, p: string, v: string, q: string)
    requires p != v && p != q && v != q
    ensures ContainersAuthentic(GenuineCore(project, p, v, q), {p, v, q}, project, CoreOnly)
  {
    var ids := {p, v, q};
    var cs := GenuineCore(project, p, v, q);
    GenuineIsRecognised(Postgres, p, project, ids);
    GenuineIsRecognised(Valkey, v, project, ids);
    GenuineIsRecognised(Seaweedfs, q, project, ids);
    assert WhoIs(cs, ids, project) == [Some(Postgres), Some(Valkey), Some(Seaweedfs)];
    CoreIsCovered();
  }

  lemma CoreIsCovered()
    ensures Covers([Some(Postgres), Some(Valkey), Some(Seaweedfs)], CoreOnly)
  {
    var who := [Some(Postgres), Some(Valkey), Some(Seaweedfs)];
    assert who[0] == Some(Postgres) && who[1] == Some(Valkey) && who[2] == Some(Seaweedfs);
  }

  lemma SwappedDoNotFit(project: string, p: string, v: string, q: string)
    requires p != v && p != q && v != q
    ensures !EndpointsFitServices(Swapped(p, v, q), project, GenuineCore(project, p, v, q), {p, v, q})
  {
    var nets, cs, ids := Swapped(p, v, q), GenuineCore(project, p, v, q), {p, v, q};
    GenuineIsRecognised(Valkey, v, project, ids);
    var e := Endpoint(At(Seaweedfs, RuntimeData), 28);
    assert !Fits(e, cs[1], ids, project, RuntimeData);
    assert RuntimeData in nets && v in nets[RuntimeData] && nets[RuntimeData][v] == e && cs[1].id == Is(v);
  }

  /** Every project has a listing that is accepted although two endpoints are swapped. */
  lemma SwappedEndpointsAreAccepted(project: string, p: string, v: string, q: string)
    requires IsIdentifier(p) && IsIdentifier(v) && IsIdentifier(q) && p != v && p != q && v != q
    ensures NetworksAuthentic(Swapped(p, v, q), CoreOnly)
    ensures ContainersAuthentic(GenuineCore(project, p, v, q), {p, v, q}, project, CoreOnly)
    ensures !EndpointsFitServices(Swapped(p, v, q), project, GenuineCore(project, p, v, q), {p, v, q})
  {
    SwappedNetworks(p, v, q);
    GenuineCoreIsAuthentic(project, p, v, q);
    SwappedDoNotFit(project, p, v, q);
  }
}
