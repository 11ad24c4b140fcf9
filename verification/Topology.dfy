/**
 What Docker replies about a world's own networks and containers, and that the authentication of these replies
 accepts exactly the worlds whose attached services are a stage with a running core.
 */
module Topology {
  import opened Attachments
  import opened HostRoutes
  import opened Preflight
  import opened StackWorld
  import opened Wrappers

  // ----- counting services -----

  function CountIn(t: set<Service>): nat {
    One(Postgres in t) + One(Valkey in t) + One(Seaweedfs in t) + One(Api in t) + One(Edge in t)
    + One(Worker in t) + One(Erasure in t) + One(Dashboard in t)
  }

  lemma {:induction false} CountIsSize(t: set<Service>)
    ensures |t| == CountIn(t)
  {
    if x :| x in t {
      CountIsSize(t - {x});
      assert t == (t - {x}) + {x};
      OneLess(t, x);
    } else {
      assert t == {};
    }
  }

  lemma OneLess(t: set<Service>, x: Service)
    requires x in t
    ensures CountIn(t) == CountIn(t - {x}) + 1
  {
    match x
    case Postgres =>
    case Valkey =>
    case Seaweedfs =>
    case Api =>
    case Edge =>
    case Worker =>
    case Erasure =>
    case Dashboard =>
  }

  /** Each service has its own container identifier. */
  ghost predicate Identifies(id: Service -> string) {
    && (forall s :: IsIdentifier(id(s)))
    && (forall s, t :: id(s) == id(t) ==> s == t)
  }

  function Ids(id: Service -> string, t: set<Service>): set<string> { set s | s in t :: id(s) }

  lemma {:induction false} IdsAreAsMany(id: Service -> string, t: set<Service>)
    requires Identifies(id)
    ensures |Ids(id, t)| == |t|
  {
    if x :| x in t {
      IdsAreAsMany(id, t - {x});
      assert Ids(id, t) == Ids(id, t - {x}) + {id(x)};
      assert id(x) !in Ids(id, t - {x});
    } else {
      assert t == {} && Ids(id, t) == {};
    }
  }

  // ----- the replies -----

  function On(l: Logical, attached: set<Service>): set<Service> { set s | s in attached && At(s, l) != 0 }

  /** `docker network inspect`: every attached service at its fixed address, under its identifier. */
  ghost predicate ListsAttached(nets: Listing, id: Service -> string, attached: set<Service>) {
    forall l :: l in nets && ListsOn(nets[l], id, attached, l)
  }

  ghost predicate ListsOn(
    m: map<string, Attachments.Endpoint>, id: Service -> string, attached: set<Service>, l: Logical)
  {
    && m.Keys == Ids(id, On(l, attached))
    && forall s :: s in On(l, attached) ==> id(s) in m && m[id(s)] == Endpoint(At(s, l), Subnet(l).prefix)
  }

  /** `docker container inspect` of one service, running or exited. */
  function Inspected(s: Service, id: string, project: string, running: bool): Container {
    Genuine(s, id, project).(running := running, status := Is(if running then "running" else "exited"))
  }

  /** One record for each attached service, in some order. */
  ghost predicate InspectsAttached(
    cs: seq<Container>, order: seq<Service>, id: Service -> string, project: string, w: World)
  {
    && |cs| == |order| == |w.attached|
    && (forall s :: s in order <==> s in w.attached)
    && (forall i, j :: 0 <= i < j < |order| ==> order[i] != order[j])
    && (forall i :: 0 <= i < |cs| ==> cs[i] == Inspected(order[i], id(order[i]), project, order[i] in w.running))
  }

  // ----- what the authentication makes of them -----

  lemma InspectedIs(s: Service, t: Service, id: string, project: string, running: bool)
    ensures ContainerIs(Inspected(s, id, project, running), project, t) <==> t == s && (s in CORE ==> running)
  {
    var c := Inspected(s, id, project, running);
    if ContainerIs(c, project, t) { NamesDiffer(s, t); }
  }

  lemma InspectedIsRecognised(s: Service, id: string, project: string, running: bool, ids: set<string>)
    requires id in ids
    ensures Recognised(Inspected(s, id, project, running), ids, project)
            == if s in CORE && !running then None else Some(s)
  {
    forall t: Service
      ensures ContainerIs(Inspected(s, id, project, running), project, t) <==> t == s && (s in CORE ==> running)
    {
      InspectedIs(s, t, id, project, running);
    }
  }

  lemma EveryServiceIsSomewhere(s: Service) returns (l: Logical)
    ensures At(s, l) != 0
  {
    match s
    case Postgres => l := PgAdmin;
    case Valkey => l := RuntimeData;
    case Seaweedfs => l := RuntimeData;
    case Api => l := PgApi;
    case Edge => l := Ingress;
    case Worker => l := PgWorker;
    case Erasure => l := PgErasure;
    case Dashboard => l := Ingress;
  }

  lemma IdsAreListed(nets: Listing, id: Service -> string, attached: set<Service>)
    requires ListsAttached(nets, id, attached)
    ensures IdentifiersIn(nets) == Ids(id, attached)
  {
    forall k | k in Ids(id, attached) ensures k in IdentifiersIn(nets) {
      var s :| s in attached && id(s) == k;
      var l := EveryServiceIsSomewhere(s);
      assert s in On(l, attached);
      assert l in nets && ListsOn(nets[l], id, attached, l);
      assert k in nets[l];
    }
    forall k | k in IdentifiersIn(nets) ensures k in Ids(id, attached) {
      var l :| l in nets && k in nets[l];
      assert ListsOn(nets[l], id, attached, l);
    }
  }

  ghost predicate CoreRuns(w: World) {
    forall s :: s in w.attached && s in CORE ==> s in w.running
  }

  function Seen(s: Service, w: World): Option<Service> {
    if s in CORE && s !in w.running then None else Some(s)
  }

  /** `order` lists the attached services, each once, and `who` what the inspection makes of them. */
  ghost predicate SeesAttached(who: seq<Option<Service>>, order: seq<Service>, w: World) {
    && |who| == |order|
    && (forall s :: s in order <==> s in w.attached)
    && (forall i, j :: 0 <= i < j < |order| ==> order[i] != order[j])
    && (forall i :: 0 <= i < |order| ==> who[i] == Seen(order[i], w))
  }

  lemma WhoIsAttached(cs: seq<Container>, order: seq<Service>, id: Service -> string, project: string, w: World)
    requires InspectsAttached(cs, order, id, project, w)
    ensures SeesAttached(WhoIs(cs, Ids(id, w.attached), project), order, w)
  {
    forall i | 0 <= i < |order|
      ensures Recognised(cs[i], Ids(id, w.attached), project) == Seen(order[i], w)
    {
      assert order[i] in w.attached;
      InspectedIsRecognised(order[i], id(order[i]), project, order[i] in w.running, Ids(id, w.attached));
    }
  }

  lemma CoveredIsStage(who: seq<Option<Service>>, order: seq<Service>, w: World, g: Stage)
    requires SeesAttached(who, order, w) && Covers(who, g)
    ensures IsStageOf(w.attached, g) && CoreRuns(w)
  {
    forall s | s in w.attached ensures InStage(s, g) && (s in CORE ==> s in w.running) {
      var i :| 0 <= i < |order| && order[i] == s;
      assert who[i].Some?;
    }
    forall s: Service | InStage(s, g) ensures s in w.attached {
      var i :| 0 <= i < |who| && who[i] == Some(s);
      assert order[i] in order;
    }
  }

  lemma StageIsCovered(who: seq<Option<Service>>, order: seq<Service>, w: World, g: Stage)
    requires SeesAttached(who, order, w) && IsStageOf(w.attached, g) && CoreRuns(w)
    ensures Covers(who, g)
  {
    forall i | 0 <= i < |who| ensures who[i] == Some(order[i]) && InStage(order[i], g) {
      assert order[i] in w.attached;
    }
    forall s: Service | InStage(s, g) ensures Some(s) in who {
      assert s in w.attached;
      var i :| 0 <= i < |order| && order[i] == s;
      assert who[i] == Some(s);
    }
  }

  /** The containers cover a stage exactly if the attached services are that stage and its core runs. */
  lemma CoversIff(cs: seq<Container>, order: seq<Service>, id: Service -> string, project: string, w: World, g: Stage)
    requires InspectsAttached(cs, order, id, project, w)
    ensures Covers(WhoIs(cs, Ids(id, w.attached), project), g) <==> IsStageOf(w.attached, g) && CoreRuns(w)
  {
    var who := WhoIs(cs, Ids(id, w.attached), project);
    WhoIsAttached(cs, order, id, project, w);
    if Covers(who, g) { CoveredIsStage(who, order, w, g); }
    if IsStageOf(w.attached, g) && CoreRuns(w) { StageIsCovered(who, order, w, g); }
  }

  lemma AddressesDiffer(s: Service, t: Service, l: Logical)
    requires At(s, l) == At(t, l) != 0
    ensures s == t
  {
    match l
    case PgAdmin =>
    case PgApi =>
    case PgWorker =>
    case PgProbe =>
    case RuntimeData =>
    case Ingress =>
    case PgErasure =>
  }

  lemma StageCount(attached: set<Service>, l: Logical, g: Stage)
    requires IsStageOf(attached, g)
    ensures |On(l, attached)| == CountOn(l, g)
  {
    CountIsSize(On(l, attached));
  }

  lemma ListedAddressesDiffer(
    m: map<string, Attachments.Endpoint>, id: Service -> string, attached: set<Service>, l: Logical,
    a: string, b: string)
    requires ListsOn(m, id, attached, l) && a in m && b in m && a != b
    ensures m[a].Endpoint? && m[b].Endpoint? && m[a].address != m[b].address
  {
    var s :| s in On(l, attached) && id(s) == a;
    var t :| t in On(l, attached) && id(t) == b;
    if At(s, l) == At(t, l) { AddressesDiffer(s, t, l); }
  }

  lemma ListedAddresses(
    m: map<string, Attachments.Endpoint>, id: Service -> string, attached: set<Service>, l: Logical,
    g: Stage, k: string)
    requires Identifies(id) && IsStageOf(attached, g) && ListsOn(m, id, attached, l) && k in m
    ensures IsIdentifier(k) && m[k].Endpoint? && m[k].prefix == Subnet(l).prefix && m[k].address in AddressesOn(l, g)
  {
    var s :| s in On(l, attached) && id(s) == k;
    assert InStage(s, g);
  }

  lemma EveryAddressIsListed(
    m: map<string, Attachments.Endpoint>, id: Service -> string, attached: set<Service>, l: Logical, g: Stage, a: nat)
    requires IsStageOf(attached, g) && ListsOn(m, id, attached, l) && a in AddressesOn(l, g)
    ensures exists k :: k in m && m[k].Endpoint? && m[k].address == a
  {
    var s :| InStage(s, g) && At(s, l) == a && a != 0;
    assert s in On(l, attached);
    assert id(s) in m && m[id(s)].address == a;
  }

  /** The networks of a stage are accepted for it. */
  lemma ListedNetworkIsAuthentic(
    m: map<string, Attachments.Endpoint>, id: Service -> string, attached: set<Service>, l: Logical, g: Stage)
    requires Identifies(id) && IsStageOf(attached, g) && ListsOn(m, id, attached, l)
    ensures NetworkAuthentic(m, l, g)
  {
    StageCount(attached, l, g);
    IdsAreAsMany(id, On(l, attached));
    assert |m| == |m.Keys|;
    forall k | k in m
      ensures IsIdentifier(k) && m[k].Endpoint? && m[k].prefix == Subnet(l).prefix && m[k].address in AddressesOn(l, g)
    {
      ListedAddresses(m, id, attached, l, g, k);
    }
    forall a, b | a in m && b in m && a != b ensures m[a].address != m[b].address {
      ListedAddressesDiffer(m, id, attached, l, a, b);
    }
    forall a | a in AddressesOn(l, g) ensures exists k :: k in m && m[k].address == a {
      EveryAddressIsListed(m, id, attached, l, g, a);
    }
  }

  lemma ListedNetworksAreAuthentic(nets: Listing, id: Service -> string, attached: set<Service>, g: Stage)
    requires Identifies(id) && IsStageOf(attached, g) && ListsAttached(nets, id, attached)
    ensures NetworksAuthentic(nets, g)
  {
    forall l: Logical ensures l in nets && NetworkAuthentic(nets[l], l, g) {
      assert l in nets && ListsOn(nets[l], id, attached, l);
      ListedNetworkIsAuthentic(nets[l], id, attached, l, g);
    }
  }

  /** Exactly the attached services of a stage with a running core are authentic. */
  lemma AuthenticIff(w: World, project: string, id: Service -> string, order: seq<Service>, nets: Listing,
                     inspect: set<string> -> seq<Container>, g: Stage)
    requires Identifies(id) && ListsAttached(nets, id, w.attached)
    requires InspectsAttached(inspect(Ids(id, w.attached)), order, id, project, w)
    ensures Authentic(nets, project, inspect, g) <==> IsStageOf(w.attached, g) && CoreRuns(w)
  {
    IdsAreListed(nets, id, w.attached);
    InspectionIff(w, project, id, order, inspect, g);
    if IsStageOf(w.attached, g) { ListedNetworksAreAuthentic(nets, id, w.attached, g); }
  }

  lemma InspectionIff(w: World, project: string, id: Service -> string, order: seq<Service>,
                      inspect: set<string> -> seq<Container>, g: Stage)
    requires Identifies(id) && InspectsAttached(inspect(Ids(id, w.attached)), order, id, project, w)
    ensures InspectionAuthentic(Ids(id, w.attached), project, inspect, g)
            <==> IsStageOf(w.attached, g) && CoreRuns(w)
  {
    IdsAreAsMany(id, w.attached);
    CoversIff(inspect(Ids(id, w.attached)), order, id, project, w, g);
    if IsStageOf(w.attached, g) {
      assert Postgres in w.attached;
      assert id(Postgres) in Ids(id, w.attached);
    }
  }

  lemma SomeStageIff(w: World, project: string, id: Service -> string, order: seq<Service>, nets: Listing,
                     inspect: set<string> -> seq<Container>)
    requires WellFormed(w) && TellsContainers(nets, project, inspect, w, id, order)
    ensures (exists g :: Authentic(nets, project, inspect, g)) <==> HasCore(w.running) && IsStage(w.attached)
  {
    StagesAre(w.attached);
    CoreRunsIff(w);
    if g :| Authentic(nets, project, inspect, g) {
      AuthenticIff(w, project, id, order, nets, inspect, g);
      assert IsStageOf(w.attached, g);
    }
    if g :| IsStageOf(w.attached, g) {
      AuthenticIff(w, project, id, order, nets, inspect, g);
    }
  }

  lemma CoreRunsIff(w: World)
    requires WellFormed(w)
    ensures IsStage(w.attached) ==> (CoreRuns(w) <==> HasCore(w.running))
  {
  }

  /** Docker's replies tell the networks and the containers of the world. */
  ghost predicate Tells(networks: seq<DockerNetwork>, shape: Option<Shape>, project: string,
                        inspect: set<string> -> seq<Container>, w: World) {
    && (w.networks.NoNetworks? <==> forall i :: 0 <= i < |networks| ==> !networks[i].ownName)
    && (w.networks.SomeNetworks? ==> shape.None?)
    && (w.networks.AllNetworks? ==>
          && shape.Some?
          && exists id: Service -> string, order: seq<Service> ::
               TellsContainers(shape.value.nets, project, inspect, w, id, order))
  }

  ghost predicate TellsContainers(nets: Listing, project: string, inspect: set<string> -> seq<Container>, w: World,
                                  id: Service -> string, order: seq<Service>) {
    && Identifies(id) && ListsAttached(nets, id, w.attached)
    && InspectsAttached(inspect(Ids(id, w.attached)), order, id, project, w)
  }

  /** Replies that tell a world exist, whatever identifiers its containers have. */
  lemma EveryWorldIsTold(w: World, project: string, id: Service -> string)
    returns (nets: Listing, inspect: set<string> -> seq<Container>, order: seq<Service>)
    requires Identifies(id)
    ensures TellsContainers(nets, project, inspect, w, id, order)
  {
    order := Arranged(w.attached);
    var cs := seq(|order|, i requires 0 <= i < |order| =>
                    Inspected(order[i], id(order[i]), project, order[i] in w.running));
    inspect := _ => cs;
    EveryLogical();
    nets := map l | l in ALL_LOGICAL :: EndpointsOn(id, w.attached, l);
    forall l ensures l in nets && ListsOn(nets[l], id, w.attached, l) {
      assert l in ALL_LOGICAL;
      EndpointsAreListed(id, w.attached, l);
    }
  }

  ghost function EndpointsOn(id: Service -> string, attached: set<Service>, l: Logical)
    : map<string, Attachments.Endpoint>
    requires Identifies(id)
  {
    map s | s in On(l, attached) :: id(s) := Endpoint(At(s, l), Subnet(l).prefix)
  }

  lemma EndpointsAreListed(id: Service -> string, attached: set<Service>, l: Logical)
    requires Identifies(id)
    ensures ListsOn(EndpointsOn(id, attached, l), id, attached, l)
  {
    var m := EndpointsOn(id, attached, l);
    forall s | s in On(l, attached) ensures id(s) in m && m[id(s)] == Endpoint(At(s, l), Subnet(l).prefix) {
    }
    assert m.Keys == Ids(id, On(l, attached));
  }

  lemma {:induction false} Arranged(t: set<Service>) returns (order: seq<Service>)
    ensures |order| == |t| && (forall s :: s in order <==> s in t)
    ensures forall i, j :: 0 <= i < j < |order| ==> order[i] != order[j]
    decreases t
  {
    if x :| x in t {
      var rest := Arranged(t - {x});
      order := [x] + rest;
    } else {
      order := [];
    }
  }

  /** The condition under which a world's preflight succeeds is what the topology check accepts of the replies. */
  lemma GrantIsTheTopologyCheck(w: World, networks: seq<DockerNetwork>, shape: Option<Shape>, project: string,
                                inspect: set<string> -> seq<Container>)
    requires WellFormed(w) && Tells(networks, shape, project, inspect, w)
    ensures OwnTopologyOk(networks, shape, project, inspect) <==> Grants(ValidateConfiguration, w)
  {
    if w.networks.AllNetworks? {
      var id, order :| TellsContainers(shape.value.nets, project, inspect, w, id, order);
      SomeStageIff(w, project, id, order, shape.value.nets, inspect);
    }
  }
}
