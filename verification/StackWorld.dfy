/**
 The world a Compose lifecycle controller acts on, as a transition system.

 A command either succeeds or reports failure. A failed command may have done
 nothing, part of its work, or all of it. Between two commands the world drifts:
 containers crash and restart, the API admits work, the worker finishes it, the
 erasure executor takes and loses its lease.
 */
module StackWorld {

  datatype Service = Postgres | Valkey | Seaweedfs | Api | Edge | Worker | Erasure | Dashboard

  const CORE: set<Service> := {Postgres, Valkey, Seaweedfs}
  const RUNTIME: set<Service> := {Api, Edge, Worker, Erasure, Dashboard}
  const INGRESS: set<Service> := {Dashboard, Edge, Api}

  /** The stages of the topology that the network preflight accepts. */
  datatype Stage = Sustained | DrainedStage | RollbackRecovery | CoreOnly

  predicate InStage(s: Service, g: Stage) {
    match g
    case Sustained => true
    case DrainedStage => !s.Worker?
    case RollbackRecovery => s in CORE || s.Worker?
    case CoreOnly => s in CORE
  }

  predicate HasCore(s: set<Service>) { Postgres in s && Valkey in s && Seaweedfs in s }

  predicate NoCore(s: set<Service>) { Postgres !in s && Valkey !in s && Seaweedfs !in s }

  predicate NoPublic(s: set<Service>) { Api !in s && Edge !in s && Erasure !in s && Dashboard !in s }

  predicate AllPublic(s: set<Service>) { Api in s && Edge in s && Erasure in s && Dashboard in s }

  predicate NoRuntimeIn(s: set<Service>) { NoPublic(s) && Worker !in s }

  /** The attached services of some stage: the core, with or without the worker, and all of the others or none. */
  predicate IsStage(s: set<Service>) { HasCore(s) && (NoPublic(s) || AllPublic(s)) }

  ghost predicate IsStageOf(s: set<Service>, g: Stage) {
    forall x: Service :: x in s <==> InStage(x, g)
  }

  lemma StagesAre(s: set<Service>)
    ensures IsStage(s) <==> exists g: Stage :: IsStageOf(s, g)
  {
    var g := if Worker in s then (if Api in s then Sustained else RollbackRecovery)
             else (if Api in s then DrainedStage else CoreOnly);
    if IsStage(s) {
      forall x: Service ensures x in s <==> InStage(x, g) {
        match x
        case Postgres => case Valkey => case Seaweedfs => case Api => case Edge => case Worker => case Erasure =>
        case Dashboard =>
      }
      assert IsStageOf(s, g);
    }
  }

  /** How many of the project's seven networks exist. */
  datatype Networks = NoNetworks | SomeNetworks | AllNetworks

  predicate NoFewer(n: Networks, n': Networks) {
    n.NoNetworks? || n'.AllNetworks? || n == n'
  }

  function AtLeastSome(n: Networks): Networks { if n.NoNetworks? then SomeNetworks else n }

  /** The newest authority migration the database has applied: none, 0011, 0012 or 0013. */
  datatype Epoch = Fresh | C11 | C12 | C13

  /** The owner-side actions of the `db-bootstrap` one-shot container. */
  datatype Action =
    | Apply
    | Cutover12Closed
    | Cutover13
    | OwnerRollback
    | AdmissionClose
    | AdmissionOpen
    | RuntimeDrainAssert
    | AdmissionAssertClosed
    | ErasureDrainAssert
    | StartPreflight
    | RollbackRecoveryPreflight
    | RefusalRecoveryPreflight

  datatype Probe = PrepublicationReady | Healthz | DrainCount

  datatype Command =
    | ValidateConfiguration
    | Bootstrap(action: Action)
    | S3Init
    | S3VolumeInit
    | Build
    | Up(services: set<Service>)
    | Recreate(services: set<Service>)
    | Stop(services: set<Service>)
    | Remove(services: set<Service>)
    | PsAll
    | PsRunning
    | Exec(service: Service, probe: Probe)

  datatype Reply =
    | Nothing
    | Services(services: set<Service>, oneShot: bool)
    | Count(count: int)  // a negative count stands for output that is not a decimal number

  /**
   `up` holds the services that were started and not stopped since; Docker restarts those
   on its own, so at any moment `running` is some subset of it. A running service is attached to its
   networks; an engine may keep the endpoints of a stopped one or detach it at any time.
   `admitted - completed` is the queued or leased work. `executorActive` and `writeActive` are the receipts
   of the first executor claim since 0013 and of the first protected write since 0012.
   */
  datatype World = World(
    present: set<Service>,
    up: set<Service>,
    running: set<Service>,
    attached: set<Service>,
    networks: Networks,
    residue: bool,
    open: bool,
    admitted: nat,
    completed: nat,
    erasureBusy: bool,
    epoch: Epoch,
    executorActive: bool,
    writeActive: bool)

  predicate Drained(w: World) { w.admitted == w.completed }

  /** Containers have networks; the queue comes with the migrations, and since 0012 queuing is a protected write. */
  predicate WellFormed(w: World) {
    && w.running <= w.up <= w.present && w.running <= w.attached <= w.present
    && (w.networks.NoNetworks? ==> w.present == {})
    && w.completed <= w.admitted
    && (w.epoch == Fresh ==> !w.open && Drained(w))
    && (w.epoch in {C12, C13} && !w.writeActive ==> Drained(w))
  }

  /**
   What may happen without any controller command. Nothing here opens the gate, and a one-shot
   container that was left can at most be removed by the daemon.
   */
  predicate Drift(w: World, w': World) {
    && w'.present == w.present && w'.up == w.up && w'.running <= w.up
    && w'.running <= w'.attached <= w.attached + w.up && w'.networks == w.networks
    && (w'.residue ==> w.residue) && w'.open == w.open && w'.epoch == w.epoch
    && w.admitted <= w'.admitted
    && (w.admitted < w'.admitted ==> w.open && Api in w.up)
    && w.completed <= w'.completed <= w'.admitted
    && (w.completed < w'.completed ==> Worker in w.up)
    && (w'.erasureBusy ==> w.erasureBusy || Erasure in w.up)
    && (w.executorActive ==> w'.executorActive)
    && (w'.executorActive ==> w.executorActive || Erasure in w.up)
    && (w.writeActive ==> w'.writeActive)
    && (w'.writeActive ==> w.writeActive || Api in w.up || Worker in w.up || Erasure in w.up)
    && (w.epoch in {C12, C13} && w.admitted < w'.admitted ==> w'.writeActive)
  }

  /** The services that `up` starts: the named ones and what they depend on. */
  function WithDependencies(s: set<Service>): set<Service> {
    s + (if Api in s || Edge in s || Worker in s || Erasure in s || Dashboard in s then CORE else {})
      + (if Dashboard in s then {Edge, Api} else {})
      + (if Edge in s then {Api} else {})
  }

  /** `up` creates the networks of what it starts; an ingress service and what it needs is on all of them. */
  function NetworksFor(s: set<Service>, n: Networks): Networks {
    if Api in s || Edge in s || Dashboard in s then AllNetworks else AtLeastSome(n)
  }

  function EpochAfter(a: Action, e: Epoch): Epoch {
    match a
    case Apply => if e == Fresh then C11 else e
    case Cutover12Closed => if e == C11 then C12 else e
    case Cutover13 => if e == C12 then C13 else e
    case OwnerRollback => if e == C13 then C12 else if e == C12 then C11 else Fresh
    case _ => e
  }

  function OpenAfter(a: Action, open: bool): bool {
    a == AdmissionOpen || (open && a !in {AdmissionClose, Cutover12Closed, OwnerRollback})
  }

  /** The gate, epoch and activity after an owner action has fully taken effect. */
  function OwnerEffect(a: Action, w: World): World {
    w.(epoch := EpochAfter(a, w.epoch), open := OpenAfter(a, w.open),
       executorActive := w.executorActive && !(a == Cutover13 && w.epoch == C12),
       writeActive := w.writeActive && !(a == Cutover12Closed && w.epoch == C11))
  }

  /** What the database has checked whenever an owner action succeeds. */
  predicate OwnerGrants(a: Action, w: World) {
    match a
    case Apply => true
    case Cutover12Closed =>
      && w.epoch != Fresh && Api !in w.running && (w.epoch == C13 ==> !w.open && !w.erasureBusy)
      && (w.epoch == C11 ==> Drained(w) && Worker !in w.running)
    case Cutover13 =>
      w.epoch in {C12, C13} && (w.epoch == C12 ==> !w.open && Drained(w) && Api !in w.running && Worker !in w.running)
    case OwnerRollback =>
      && w.epoch != Fresh && Api !in w.running
      && (w.epoch == C13 ==> !w.executorActive && !w.erasureBusy)
      && (w.epoch == C12 ==> !w.writeActive)
      && (w.epoch in {C11, C12} ==> Drained(w) && Worker !in w.running)
    case AdmissionClose => w.epoch != Fresh && Api !in w.running
    case AdmissionOpen => w.epoch != Fresh
    case RuntimeDrainAssert =>
      w.epoch != Fresh && !w.open && Drained(w) && Api !in w.running && Worker !in w.running
    case AdmissionAssertClosed => w.epoch != Fresh && !w.open
    case ErasureDrainAssert => w.epoch in {C12, C13} && !w.erasureBusy && Erasure !in w.running
    case StartPreflight =>
      (w.epoch != Fresh ==> !w.open && Drained(w)) && Api !in w.running && Worker !in w.running
    case RollbackRecoveryPreflight => w.epoch == C12 && !w.open && Erasure !in w.running
    case RefusalRecoveryPreflight => w.epoch == C13 && w.executorActive && !w.open
  }

  /**
   A condition that holds whenever the command reports success. The preflight accepts a project without
   networks, or all of them with the endpoints of one stage and a running core.
   */
  predicate Grants(c: Command, w: World) {
    match c
    case ValidateConfiguration =>
      w.networks.NoNetworks? || (w.networks.AllNetworks? && HasCore(w.running) && IsStage(w.attached))
    case Bootstrap(a) => Postgres in w.running && OwnerGrants(a, w)
    case Exec(s, _) => s in w.running
    case _ => true
  }

  function Effect(c: Command, w: World): World {
    match c
    case Bootstrap(a) => OwnerEffect(a, w)
    case Up(s) => Started(WithDependencies(s), NetworksFor(s, w.networks), w)
    case Recreate(s) => Started(s, NetworksFor(s, w.networks), w)
    case Stop(s) => w.(up := w.up - s, running := w.running - s)
    case Remove(s) => Removed(s - w.running, w)
    case _ => w
  }

  function Started(t: set<Service>, n: Networks, w: World): World {
    w.(present := w.present + t, up := w.up + t, running := w.running + t, attached := w.attached + t, networks := n)
  }

  function Removed(t: set<Service>, w: World): World {
    w.(present := w.present - t, up := w.up - t, running := w.running - t, attached := w.attached - t)
  }

  predicate IsOneShot(c: Command) { c.Bootstrap? || c.S3Init? || c.S3VolumeInit? }

  predicate IsContainerCommand(c: Command) { c.Up? || c.Recreate? || c.Stop? || c.Remove? }

  /** Gate, epoch, queue, receipts and one-shot containers are untouched. */
  predicate SameDatabase(w: World, w': World) {
    && w'.open == w.open && w'.epoch == w.epoch && w'.admitted == w.admitted && w'.completed == w.completed
    && w'.erasureBusy == w.erasureBusy && w'.executorActive == w.executorActive && w'.writeActive == w.writeActive
    && w'.residue == w.residue
  }

  /** Only containers and networks changed: some were stopped, some dropped, some added. */
  predicate Reshaped(w: World, w': World, stop: set<Service>, drop: set<Service>, add: set<Service>) {
    && SameDatabase(w, w')
    && w.present - drop <= w'.present <= w.present + add && w.up - stop <= w'.up <= w.up + add
    && w.running - stop <= w'.running <= w.running + add && w.attached - drop <= w'.attached <= w.attached + add
    && w'.running <= w'.up <= w'.present && w'.running <= w'.attached <= w'.present
    && NoFewer(w.networks, w'.networks) && (w'.networks.NoNetworks? ==> w'.present == {})
  }

  /** What a failed owner action may have changed in the database. */
  predicate HalfOwned(a: Action, w: World, w': World) {
    var e := OwnerEffect(a, w);
    && (w'.epoch != w.epoch ==> w'.epoch == e.epoch && Grants(Bootstrap(a), w))
    && (w'.open != w.open ==> w'.open == e.open)
    && (w'.open && !w.open ==> Grants(Bootstrap(a), w))
    && (w'.epoch == Fresh ==> !w'.open)
    && w'.executorActive in {w.executorActive, e.executorActive}
    && w'.writeActive == (if w'.epoch == w.epoch then w.writeActive else e.writeActive)
    && (w' != w.(residue := w'.residue, networks := w'.networks) ==> Postgres in w.running)
  }

  /**
   States a command that reports failure may leave behind. Networks come before containers, and a one-shot
   container may bring its networks.
   */
  predicate Partial(c: Command, w: World, w': World) {
    match c
    case Bootstrap(a) =>
      && w' == w.(residue := w'.residue, networks := w'.networks, epoch := w'.epoch, open := w'.open,
                  executorActive := w'.executorActive, writeActive := w'.writeActive)
      && NoFewer(w.networks, w'.networks) && HalfOwned(a, w, w')
    case Up(s) =>
      && Reshaped(w, w', {}, {}, WithDependencies(s))
      && (w'.up != w.up || w'.present != w.present || w'.attached != w.attached ==>
            NoFewer(NetworksFor(s, w.networks), w'.networks))
    case Recreate(s) => Reshaped(w, w', s, s, s)
    case Stop(s) => Reshaped(w, w', s, {}, {}) && w'.networks == w.networks
    case Remove(s) => Reshaped(w, w', s - w.running, s - w.running, {}) && w'.networks == w.networks
    case _ =>
      && w' == w.(residue := w'.residue, networks := w'.networks) && NoFewer(w.networks, w'.networks)
      && (!IsOneShot(c) ==> w' == w)
  }

  predicate Completes(c: Command, w: World, w': World) {
    var e := Effect(c, w);
    && Grants(c, w) && NoFewer(e.networks, w'.networks)
    && (if IsOneShot(c) then w' == e.(residue := w'.residue, networks := w'.networks)
        else if c.Up? || c.Recreate? then w' == e.(networks := w'.networks)
        else w' == e)
  }

  // ----- an environment in which nothing goes wrong by itself -----

  /**
   At most one kind of command fails. A failed first `up` has made its networks but no container, a failed
   recreation has lost the container, and the lost result of an opening hides that it was committed; every other
   failure is without effect.
   */
  datatype Fault =
    | NoFault | BuildFails | DrainCountFails | RollbackFails | StopErasureFails | PostgresUpFails | RecreationFails
    | WorkerNotReady | OpeningLost

  predicate Faulty(f: Fault, c: Command) {
    match f
    case NoFault => false
    case BuildFails => c == Build
    case DrainCountFails => c == Exec(Worker, DrainCount)
    case RollbackFails => c == Bootstrap(OwnerRollback)
    case StopErasureFails => c == Stop({Erasure})
    case PostgresUpFails => c == Up({Postgres})
    case RecreationFails => c == Recreate({Postgres})
    case WorkerNotReady => c == Exec(Worker, PrepublicationReady)
    case OpeningLost => c == Bootstrap(AdmissionOpen)
  }

  /** What a calm command leaves that was refused or is the faulty one. */
  function Unfinished(f: Fault, c: Command, w: World): World {
    match c
    case Up(s) => w.(networks := NetworksFor(s, w.networks))
    case Recreate(s) => Removed(s, w)
    case _ =>
      if !IsOneShot(c) then w
      else w.(networks := AtLeastSome(w.networks), open := w.open || (Lost(f, c) && Grants(c, w)))
  }

  /** The command takes effect, and its success is not reported. */
  predicate Lost(f: Fault, c: Command) { f == OpeningLost && c == Bootstrap(AdmissionOpen) }

  /**
   `Anything` is the environment of every claim about all runs; `Calm` is one possible course of it, on an
   engine that keeps the endpoints of exactly the given services when they are stopped.
   */
  datatype Environment = Anything | Calm(fault: Fault, keeps: set<Service>)

  ghost predicate CalmBut(env: Environment, f: Fault) { env.Calm? && env.fault == f }

  /** The engine has kept what it keeps. */
  ghost predicate OnEngine(keeps: set<Service>, w: World) {
    w.present * keeps <= w.attached + w.up
  }

  /** What is attached on such an engine. */
  function Endpoints(keeps: set<Service>, w: World): set<Service> { w.up + w.present * keeps }

  /** Everything that should run does, the worker has caught up, and no lease or one-shot container is left. */
  function Settled(keeps: set<Service>, w: World): World {
    w.(running := w.up, attached := Endpoints(keeps, w), residue := false, erasureBusy := false,
       completed := if Worker in w.up then w.admitted else w.completed)
  }

  lemma SettlingIsDrift(keeps: set<Service>, w: World)
    requires WellFormed(w) && OnEngine(keeps, w)
    ensures Drift(w, Settled(keeps, w)) && WellFormed(Settled(keeps, w)) && OnEngine(keeps, Settled(keeps, w))
  {
  }

  /** A calm command succeeds exactly when it is granted and not the faulty one, and then does all its work. */
  ghost predicate CalmOutcome(f: Fault, e: Event) {
    && (e.ok <==> Grants(e.command, e.before) && !Faulty(f, e.command))
    && e.after == (if e.ok then Effect(e.command, e.before) else Unfinished(f, e.command, e.before))
    && (e.ok && e.command == Exec(Worker, DrainCount) ==>
          e.reply == Count(e.before.admitted - e.before.completed))
  }

  /** What a successful command prints. */
  predicate Prints(c: Command, w: World, r: Reply) {
    match c
    case PsAll => r == Services(w.present, w.residue)
    case PsRunning => r == Services(w.running, false)
    case Exec(_, DrainCount) => r.Count? && (r.count < 0 || r.count == w.admitted - w.completed)
    case _ => r == Nothing
  }

  /** One executed command, with the world just before and just after it. */
  datatype Event = Event(command: Command, before: World, ok: bool, reply: Reply, after: World)

  predicate Lawful(e: Event) {
    && WellFormed(e.before) && WellFormed(e.after)
    && (if e.ok then Completes(e.command, e.before, e.after) && Prints(e.command, e.before, e.reply)
        else Partial(e.command, e.before, e.after))
  }

  lemma DriftIsTransitive(a: World, b: World, c: World)
    requires WellFormed(a) && Drift(a, b) && Drift(b, c)
    ensures WellFormed(b) && WellFormed(c) && Drift(a, c)
  {
  }

  lemma UpOnly(s: set<Service>, w: World, w': World)
    requires Completes(Up(s), w, w') || Partial(Up(s), w, w')
    ensures SameDatabase(w, w')
  {
  }

  lemma RecreateOnly(s: set<Service>, w: World, w': World)
    requires Completes(Recreate(s), w, w') || Partial(Recreate(s), w, w')
    ensures SameDatabase(w, w')
  {
  }

  lemma StopOnly(s: set<Service>, w: World, w': World)
    requires Completes(Stop(s), w, w') || Partial(Stop(s), w, w')
    ensures SameDatabase(w, w')
  {
  }

  lemma RemoveOnly(s: set<Service>, w: World, w': World)
    requires Completes(Remove(s), w, w') || Partial(Remove(s), w, w')
    ensures SameDatabase(w, w')
  {
  }

  lemma ContainersOnly(c: Command, w: World, w': World)
    requires IsContainerCommand(c) && (Completes(c, w, w') || Partial(c, w, w'))
    ensures SameDatabase(w, w')
  {
    match c
    case Up(s) => UpOnly(s, w, w');
    case Recreate(s) => RecreateOnly(s, w, w');
    case Stop(s) => StopOnly(s, w, w');
    case Remove(s) => RemoveOnly(s, w, w');
  }

  lemma OwnerKeepsQueue(a: Action, w: World, w': World)
    requires Completes(Bootstrap(a), w, w') || Partial(Bootstrap(a), w, w')
    ensures w'.admitted == w.admitted && w'.completed == w.completed
  {
  }

  lemma CommandsKeepQueue(c: Command, w: World, w': World)
    requires Completes(c, w, w') || Partial(c, w, w')
    ensures w'.admitted == w.admitted && w'.completed == w.completed
  {
    match c
    case Bootstrap(a) => OwnerKeepsQueue(a, w, w');
    case Up(s) => UpOnly(s, w, w');
    case Recreate(s) => RecreateOnly(s, w, w');
    case Stop(s) => StopOnly(s, w, w');
    case Remove(s) => RemoveOnly(s, w, w');
    case _ =>
  }

  lemma ContainersStayWellFormed(c: Command, w: World, w': World)
    requires IsContainerCommand(c) && WellFormed(w) && (Completes(c, w, w') || Partial(c, w, w'))
    ensures WellFormed(w')
  {
    ContainersOnly(c, w, w');
    match c
    case Up(s) => UpStaysWellFormed(s, w, w');
    case Recreate(s) => RecreationStaysWellFormed(s, w, w');
    case Stop(s) =>
    case Remove(s) =>
  }

  lemma UpStaysWellFormed(s: set<Service>, w: World, w': World)
    requires WellFormed(w) && (Completes(Up(s), w, w') || Partial(Up(s), w, w'))
    ensures WellFormed(w')
  {
    UpOnly(s, w, w');
    if Completes(Up(s), w, w') { StartedIsWellFormed(WithDependencies(s), NetworksFor(s, w.networks), w, w'); }
  }

  lemma StartedIsWellFormed(t: set<Service>, n: Networks, w: World, w': World)
    requires WellFormed(w) && !n.NoNetworks? && !w'.networks.NoNetworks?
    requires w' == Started(t, n, w).(networks := w'.networks)
    ensures WellFormed(w')
  {
  }

  lemma RecreationStaysWellFormed(s: set<Service>, w: World, w': World)
    requires WellFormed(w) && (Completes(Recreate(s), w, w') || Partial(Recreate(s), w, w'))
    ensures WellFormed(w')
  {
    RecreateOnly(s, w, w');
    if Completes(Recreate(s), w, w') { StartedIsWellFormed(s, NetworksFor(s, w.networks), w, w'); }
  }

  lemma OwnerStaysWellFormed(a: Action, w: World, w': World)
    requires WellFormed(w) && (Completes(Bootstrap(a), w, w') || Partial(Bootstrap(a), w, w'))
    ensures WellFormed(w')
  {
    match a
    case OwnerRollback =>
    case Cutover12Closed =>
    case _ =>
  }

  lemma CommandsKeepWorldsWellFormed(c: Command, w: World, w': World)
    requires WellFormed(w)
    requires Completes(c, w, w') || Partial(c, w, w')
    ensures WellFormed(w')
  {
    if IsContainerCommand(c) {
      ContainersStayWellFormed(c, w, w');
    } else if c.Bootstrap? {
      OwnerStaysWellFormed(c.action, w, w');
    }
  }

  /** No command but a granted `admission-open` turns a closed gate into an open one. */
  lemma OnlyOpenOpens(e: Event)
    requires Lawful(e) && !e.before.open && e.after.open
    ensures e.command == Bootstrap(AdmissionOpen) && e.before.epoch != Fresh
  {
    if IsContainerCommand(e.command) { ContainersOnly(e.command, e.before, e.after); }
    assert e.command.Bootstrap?;
  }
}
