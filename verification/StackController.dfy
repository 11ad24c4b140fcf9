/**
 The lifecycle controller of the Compose stack: `start`, `upgrade` and `rollback`, with their
 polling loops and nested compensation.

 A method that returns `ok == false` stands for a function that raises. The clock counts
 milliseconds.
 */
module StackController {
  import opened StackShape
  import opened StackSteps
  import opened StackTrace
  import opened StackWorld

  const DRAIN_TIMEOUT: nat := 180_000
  const DRAIN_POLL: nat := 1_000
  const PREPUBLICATION_TIMEOUT: nat := 45_000
  const PREPUBLICATION_POLL: nat := 500

  /** What holds of the stack after an owner action has reported success. */
  ghost predicate Certified(a: Action, w: World) {
    match a
    case Apply => w.epoch != Fresh
    case Cutover12Closed => w.epoch in {C12, C13} && !w.open
    case Cutover13 => w.epoch == C13
    case AdmissionOpen => w.open
    case RuntimeDrainAssert => !w.open && Drained(w)
    case ErasureDrainAssert => w.epoch in {C12, C13} && (Erasure !in w.up ==> !w.erasureBusy)
    case StartPreflight => !w.open && (w.epoch != Fresh ==> Drained(w))
    case RollbackRecoveryPreflight => w.epoch == C12 && !w.open
    case RefusalRecoveryPreflight => w.epoch == C13 && w.executorActive && !w.open
    case _ => !w.open
  }

  predicate OnlyLooks(a: Action) {
    a in {RuntimeDrainAssert, AdmissionAssertClosed, ErasureDrainAssert, StartPreflight, RollbackRecoveryPreflight,
          RefusalRecoveryPreflight}
  }

  /** In a calm environment a receipt of activity changes only with the migration that makes it. */
  ghost predicate CalmReceipts(a: Action, w: World, w': World) {
    && (a != Cutover13 ==> w'.executorActive == w.executorActive)
    && (a != Cutover12Closed ==> w'.writeActive == w.writeActive)
  }

  /** Nothing goes wrong before the runtime has been started. */
  ghost predicate Smooth(env: Environment) { env.Calm? && env.fault in {NoFault, WorkerNotReady, OpeningLost} }

  /** A fence whose stops all work leaves the runtime down and, with a database to ask, the gate closed. */
  ghost predicate CalmlyFenced(ok: bool, w: World, w': World) {
    && RuntimeDown(w') && !w'.networks.NoNetworks?
    && (!ok && Postgres in w.up && w.epoch != Fresh ==> !w'.open)
  }

  /** The last command is the closed-gate proof, and it failed. */
  ghost predicate EndsInFailedProof(tr: seq<Event>) {
    tr != [] && tr[|tr|-1].command == Bootstrap(AdmissionAssertClosed) && !tr[|tr|-1].ok
  }

  /** Commands that can neither start a container nor open the gate nor change the epoch. */
  predicate IsFencing(c: Command) {
    || c.Stop? || c.Remove? || c.PsAll? || c.PsRunning? || c.Exec?
    || (c.Bootstrap? && c.action in {ErasureDrainAssert, AdmissionClose, RuntimeDrainAssert, AdmissionAssertClosed})
  }

  ghost predicate OnlyFences(tr: seq<Event>, lo: nat) {
    forall i :: lo <= i < |tr| ==> IsFencing(tr[i].command)
  }

  ghost predicate OnlyCheckedFences(tr: seq<Event>, lo: nat) {
    forall i :: lo <= i < |tr| ==> tr[i].command == ValidateConfiguration || IsFencing(tr[i].command)
  }

  /** The worker, running behind a closed gate, reported that no work is queued or leased. */
  ghost predicate SeenDrained(e: Event) {
    && Ran(e, Exec(Worker, DrainCount))
    && !e.before.open && Drained(e.before) && Worker in e.before.running
  }

  predicate Starts(c: Command) { c.Up? || c.Recreate? }

  /** Any command that starts containers started the worker alone, right after a closed proof. */
  ghost predicate RestoresOnlyWorker(tr: seq<Event>, lo: nat) {
    forall i :: lo <= i < |tr| && Starts(tr[i].command) ==>
      && lo + 2 == i && tr[i].command == Up({Worker})
      && Ran(tr[lo], Bootstrap(AdmissionAssertClosed))
  }

  /**
   Every container start is the worker's, after an owner rollback or the refusal certificate
   succeeded and then the gate was proved closed.
   */
  ghost predicate WorkerReturnsCertified(tr: seq<Event>, lo: nat) {
    forall i :: lo <= i < |tr| && Starts(tr[i].command) ==>
      && lo + 4 <= i && tr[i].command == Up({Worker})
      && Ran(tr[i-2], Bootstrap(AdmissionAssertClosed))
      && (Ran(tr[i-4], Bootstrap(OwnerRollback)) || Ran(tr[i-4], Bootstrap(RefusalRecoveryPreflight)))
  }

  /** Neither opens the gate nor runs an owner action that could move the epoch. */
  ghost predicate NoOwnerChange(tr: seq<Event>, lo: nat) {
    forall i :: lo <= i < |tr| && tr[i].command.Bootstrap? ==> tr[i].command.action == AdmissionAssertClosed
  }

  /** The containers of the controller's own rollback handoff. */
  predicate IsRecoveryShape(present: set<Service>, oneShot: bool, running: set<Service>) {
    && HasCore(present) && Worker in present && !oneShot
    && HasCore(running) && Worker in running && NoPublic(running)
  }

  /** What `start` accepts as idle: no runtime container, and all of the core or none of it. */
  predicate IsIdleShape(present: set<Service>, running: set<Service>) {
    NoRuntimeIn(present) && (NoCore(present) || (HasCore(present) && HasCore(running)))
  }

  /** The core and the worker are up, and no other service of the runtime. */
  predicate HandoffShape(w: World) { HasCore(w.up) && Worker in w.up && NoPublic(w.up) }

  /** What a normal rollback leaves; no one-shot container is left. */
  predicate HandedBack(w: World) { HandoffShape(w) && Worker in w.running && !w.residue }

  /** `start` has what it needs: an idle stack, or the handoff of a rollback from 0013, behind a closed gate. */
  predicate CanStart(keeps: set<Service>, w: World) {
    StageFits(keeps, w) && !w.open && (Idle(w) || (HandoffShape(w) && w.epoch == C12))
  }

  predicate CanUpgrade(keeps: set<Service>, w: World) { StageFits(keeps, w) && Drainable(w) }

  /** The owner's refusals: after an executor claim at 0013, after a protected write at 0012. */
  predicate OwnerAgrees(w: World) {
    (w.epoch == C13 ==> !w.executorActive) && (w.epoch == C12 ==> !w.writeActive)
  }

  predicate CanRollBack(keeps: set<Service>, w: World) { CanUpgrade(keeps, w) && OwnerAgrees(w) }

  /** A database to migrate, behind a closed gate, with no work and no session in the way. */
  predicate Publishable(w: World) {
    Postgres in w.up && Api !in w.up && Worker !in w.up && !w.open && Drained(w)
  }

  /** The runtime is up on its core, at the newest epoch, and the gate is open. */
  predicate Published(w: World) {
    w.open && w.epoch == C13 && RUNTIME + CORE <= w.up && w.networks.AllNetworks?
  }

  /** Closed and down, with the containers of the runtime left behind, which no operation can then drain. */
  predicate Unpublished(w: World) {
    !w.open && RuntimeDown(w) && AllPublic(w.present) && Worker in w.present && HasCore(w.up)
  }

  /** What a calm start comes to: published if nothing fails, and otherwise what the failure leaves. */
  ghost predicate CalmStart(env: Environment, ok: bool, w: World, w': World) {
    env.Calm? ==>
      && (env.fault == NoFault && CanStart(env.keeps, w) ==> ok)
      && (env.fault in {WorkerNotReady, OpeningLost} && CanStart(env.keeps, w) ==> !ok && Unpublished(w'))
      && (env.fault in {BuildFails, PostgresUpFails} && CanStart(env.keeps, w) && w.present == {} ==> !ok && Wedged(w'))
      && (env.fault == NoFault && !ok && HasCore(w.up) ==> Still(w, w'))
  }

  /** Where `start` can begin: an idle stack, or a core and a worker at 0012. */
  predicate StartableFrom(w: World) {
    Idle(w) || (w.epoch == C12 && HasCore(w.up) && Worker in w.up)
  }

  /** The same public containers, running or not. */
  predicate SamePublic(w: World, w': World) {
    && (Api in w'.present <==> Api in w.present) && (Edge in w'.present <==> Edge in w.present)
    && (Erasure in w'.present <==> Erasure in w.present) && (Dashboard in w'.present <==> Dashboard in w.present)
  }

  predicate SameButIngress(w: World, w': World) {
    w'.present == w.present && w'.up == w.up - INGRESS && w'.epoch == w.epoch && NoFewer(w.networks, w'.networks)
  }

  ghost predicate NoOwnerRollback(tr: seq<Event>, lo: nat) {
    forall i :: lo <= i < |tr| ==> tr[i].command != Bootstrap(OwnerRollback)
  }

  ghost predicate NoFailedRollback(tr: seq<Event>, lo: nat) {
    forall i :: lo <= i < |tr| && tr[i].command == Bootstrap(OwnerRollback) ==> tr[i].ok
  }

  /** The refusal certificate directly follows the failed owner call. */
  ghost predicate RefusalCertified(tr: seq<Event>, k: nat) {
    && k + 1 < |tr| && tr[k].command == Bootstrap(OwnerRollback) && !tr[k].ok
    && Ran(tr[k+1], Bootstrap(RefusalRecoveryPreflight))
  }

  /** An undisturbed rollback: handed back, or refused with the worker handed back at 0013 and gone at 0012. */
  ghost predicate RolledBack(ok: bool, w: World, w': World) {
    && !w'.open && w'.networks.AllNetworks?
    && (ok || w.epoch == C13 ==> HandedBack(w'))
    && (!ok ==> w'.epoch == w.epoch)
    && (!ok && w.epoch == C12 ==> HasCore(w'.up) && RuntimeDown(w') && Worker !in w'.present)
    && (NoRuntime(w') ==> Drained(w'))
  }

  /** Some runtime container besides the worker's exists. */
  predicate MoreThanWorker(w: World) { !NoPublic(w.present) }

  /** The first command is the preflight, and if it is refused it is the only one. */
  ghost predicate ValidatedFirst(tr: seq<Event>, lo: nat) {
    lo < |tr| && tr[lo].command == ValidateConfiguration && (!tr[lo].ok ==> |tr| == lo + 1)
  }

  /** Commands that stop the public ingress or the erasure executor, and look. */
  predicate IsEarlyStop(c: Command) {
    c.ValidateConfiguration? || c.PsRunning? || c == Stop(INGRESS) || c == Stop({Erasure})
  }

  ghost predicate OnlyEarlyStops(tr: seq<Event>, lo: nat) {
    forall i :: lo <= i < |tr| ==> IsEarlyStop(tr[i].command)
  }

  /** Commands with which `start` can refuse; none of them stops or removes anything. */
  predicate IsStartRefusal(c: Command) {
    || c.ValidateConfiguration? || c.PsAll? || c.PsRunning? || c == Up({Postgres})
    || c == Bootstrap(RollbackRecoveryPreflight) || c == Bootstrap(StartPreflight)
  }

  ghost predicate OnlyStartRefusals(tr: seq<Event>, lo: nat) {
    forall i :: lo <= i < |tr| ==> IsStartRefusal(tr[i].command)
  }

  /** From position `lo` on, only the given commands were run. */
  ghost predicate Only(tr: seq<Event>, lo: nat, allowed: set<Command>) {
    forall i :: lo <= i < |tr| ==> tr[i].command in allowed
  }

  datatype Operation = StartStack | UpgradeStack | RollbackStack

  /** Somewhere from position `lo` on, the closed-gate proof failed, and so was raised. */
  ghost predicate FailedProofSince(tr: seq<Event>, lo: nat) {
    exists i :: lo <= i < |tr| && tr[i].command == Bootstrap(AdmissionAssertClosed) && !tr[i].ok
  }

  ghost predicate PublishedSince(ops: seq<Operation>, oks: seq<bool>) {
    exists k :: 0 <= k < |oks| && k < |ops| && oks[k] && ops[k] != RollbackStack
  }

  class Controller {
    const environment: Environment
    var world: World
    var now: nat
    ghost var trace: seq<Event>
    /** The steps so far; only `Run` adds to it. */
    ghost var log: Log
    /** The openings in the trace that still have to be fenced. */
    ghost var owed: set<nat>

    ghost predicate Consistent()
      reads this
    {
      && WellFormed(world) && Chained(trace)
      && (environment.Calm? ==> OnEngine(environment.keeps, world))
      && (trace != [] ==> trace[|trace|-1].after == world)
    }

    ghost predicate Valid()
      reads this
    {
      Consistent() && Disciplined(trace) && OpeningsFenced(trace, owed)
    }

    constructor (w: World, t: nat, e: Environment)
      requires WellFormed(w) && (e.Calm? ==> OnEngine(e.keeps, w))
      ensures Valid() && world == w && now == t && trace == [] && environment == e
      ensures log == Begin && owed == {}
    {
      environment, world, now, trace, log, owed := e, w, t, [], Begin, {};
    }

    /** In a calm environment: the endpoints that this engine keeps fit no stage. */
    predicate Misfit(w: World) { environment.Calm? && !StageFits(environment.keeps, w) }

    /** The gate is closed, or the controller has just failed to prove it closed. */
    ghost predicate GateSafe()
      reads this
    {
      !world.open || EndsInFailedProof(trace)
    }

    // ----- commands -----

    /** Runs one command: drift, then any outcome the command allows. */
    method Run(c: Command) returns (ok: bool, reply: Reply)
      requires Consistent()
      modifies `world, `now, `trace, `log
      ensures Consistent() && old(now) <= now
      ensures log == Logged(old(log), c, ok)
      ensures old(Valid()) && c != Bootstrap(AdmissionOpen) ==> Valid()
      ensures |trace| == |old(trace)| + 1 && old(trace) <= trace
      ensures var e := trace[|trace|-1];
              && e.command == c && e.ok == ok && e.reply == reply && e.after == world
              && Drift(old(world), e.before)
      ensures environment.Calm? ==>
                var e := trace[|trace|-1];
                e.before == Settled(environment.keeps, old(world)) && CalmOutcome(environment.fault, e)
    {
      var before: World := Drifted(world, environment);
      var e := Attempt(c, before, environment);
      ok, reply := e.ok, e.reply;
      HistoryExtends(trace, e, owed);
      if environment.Calm? { EngineKeeps(environment.keeps, environment.fault, world, e); }
      trace := trace + [e];
      log := Logged(log, c, ok);
      world := e.after;
      var t: nat :| now <= t;
      now := t;
    }

    /** A command that only looks. */
    method Read(c: Command) returns (ok: bool, reply: Reply)
      requires Valid()
      requires c.PsAll? || c.PsRunning? || c.Exec? || c.Build?
      modifies `world, `now, `trace, `log
      ensures Valid() && old(now) <= now
      ensures log == Logged(old(log), c, ok)
      ensures |trace| == |old(trace)| + 1 && old(trace) <= trace
      ensures var e := trace[|trace|-1]; e.command == c && e.ok == ok && e.reply == reply && e.before == world
      ensures Drift(old(world), world)
      ensures ok && c.PsRunning? ==> reply == Services(world.running, false)
      ensures ok && c.PsAll? ==> reply == Services(world.present, world.residue)
      ensures ok && c.Exec? ==> c.service in world.running
      ensures ok && c.Exec? && c.probe == DrainCount ==>
                reply.Count? && (reply.count < 0 || reply.count == world.admitted - world.completed)
      ensures environment.Calm? ==> world == Settled(environment.keeps, old(world))
      ensures environment.Calm? ==>
                (ok <==> !Faulty(environment.fault, c) && (c.Exec? ==> c.service in old(world.up)))
      ensures environment.Calm? && ok && c == Exec(Worker, DrainCount) ==>
                reply == Count(world.admitted - world.completed)
    {
      ok, reply := Run(c);
      LastIsLawful(trace);
    }

    /** The preflight of every operation; it refuses any topology but a complete stage, or none at all. */
    method ValidateRenderedConfiguration() returns (ok: bool)
      requires Valid()
      modifies `world, `now, `trace, `log
      ensures Valid() && old(now) <= now
      ensures log == Step(old(log), ValidateConfiguration, ok)
      ensures |trace| == |old(trace)| + 1 && old(trace) <= trace
      ensures trace[|old(trace)|].command == ValidateConfiguration && trace[|old(trace)|].ok == ok
      ensures trace[|old(trace)|].before == world && Drift(old(world), world)
      ensures ok ==> Attachable(old(world)) && Grants(ValidateConfiguration, world)
      ensures environment.Calm? ==> world == Settled(environment.keeps, old(world))
      ensures environment.Calm? ==> (ok <==> StageFits(environment.keeps, old(world)))
    {
      var reply;
      ok, reply := Run(ValidateConfiguration);
      LastIsLawful(trace);
      DriftKeepsShape(old(world), world);
    }

    method StopServices(s: set<Service>) returns (ok: bool)
      requires Valid()
      modifies `world, `now, `trace, `log
      ensures Valid() && old(now) <= now
      ensures log == Step(old(log), Stop(s), ok)
      ensures |trace| == |old(trace)| + 1 && old(trace) <= trace && trace[|trace|-1].command == Stop(s)
      ensures trace[|trace|-1].ok == ok
      ensures world.present == old(world.present) && world.open == old(world.open)
      ensures world.epoch == old(world.epoch)
      ensures old(world.up) - s <= world.up <= old(world.up)
      ensures ok ==> world.up == old(world.up) - s
      ensures Moved(environment, old(world), world)
      ensures environment.Calm? ==> (ok <==> !Faulty(environment.fault, Stop(s)))
      ensures environment.Calm? && environment.fault != StopErasureFails ==> ok
      ensures environment.Calm? && !ok ==> world.up == old(world.up)
    {
      var reply;
      ok, reply := Run(Stop(s));
      LastIsLawful(trace);
    }

    method RemoveServices(s: set<Service>) returns (ok: bool)
      requires Valid()
      modifies `world, `now, `trace, `log
      ensures Valid() && old(now) <= now
      ensures log == Step(old(log), Remove(s), ok)
      ensures |trace| == |old(trace)| + 1 && old(trace) <= trace && trace[|trace|-1].command == Remove(s)
      ensures world.open == old(world.open) && world.epoch == old(world.epoch)
      ensures old(world.up) - s <= world.up <= old(world.up)
      ensures old(world.present) - s <= world.present <= old(world.present)
      ensures ok && old(world.up) !! s ==> world.present == old(world.present) - s
      ensures Moved(environment, old(world), world)
      ensures environment.Calm? ==> ok
    {
      var reply;
      ok, reply := Run(Remove(s));
      LastIsLawful(trace);
    }

    method StartServices(s: set<Service>) returns (ok: bool)
      requires Valid()
      modifies `world, `now, `trace, `log
      ensures Valid() && old(now) <= now
      ensures log == Step(old(log), Up(s), ok)
      ensures |trace| == |old(trace)| + 1 && old(trace) <= trace && trace[|trace|-1].command == Up(s)
      ensures world.open == old(world.open) && world.epoch == old(world.epoch)
      ensures old(world.up) <= world.up <= old(world.up) + WithDependencies(s)
      ensures old(world.present) <= world.present <= old(world.present) + WithDependencies(s)
      ensures ok ==> WithDependencies(s) <= world.up
      ensures ok && Api in s ==> world.networks.AllNetworks?
      ensures Moved(environment, old(world), world) && (world.residue ==> old(world.residue))
      ensures environment.Calm? ==> (ok <==> !Faulty(environment.fault, Up(s)))
      ensures environment.Calm? && !ok ==>
                world.present == old(world.present) && world.up == old(world.up) && !world.networks.NoNetworks?
    {
      var reply;
      ok, reply := Run(Up(s));
      UpLeaves(old(world), trace, s, environment);
    }

    /** `up --force-recreate`: PostgreSQL again, from its volume; half done, it may be gone. */
    method RecreatePostgres() returns (ok: bool)
      requires Valid()
      modifies `world, `now, `trace, `log
      ensures Valid() && old(now) <= now
      ensures log == Step(old(log), Recreate({Postgres}), ok)
      ensures |trace| == |old(trace)| + 1 && old(trace) <= trace && trace[|trace|-1].command == Recreate({Postgres})
      ensures world.open == old(world.open) && world.epoch == old(world.epoch)
      ensures old(world.up) - {Postgres} <= world.up <= old(world.up) + {Postgres}
      ensures old(world.present) - {Postgres} <= world.present <= old(world.present) + {Postgres}
      ensures ok ==> Postgres in world.up
      ensures Moved(environment, old(world), world)
      ensures environment.Calm? ==> (ok <==> environment.fault != RecreationFails)
      ensures CalmBut(environment, RecreationFails) ==> Postgres !in world.up
    {
      var reply;
      ok, reply := Run(Recreate({Postgres}));
      RecreationLeaves(old(world), trace, environment);
    }

    /** Refuses when a finished one-shot container is still listed. */
    method AssertNoOneShotContainer() returns (ok: bool)
      requires Valid()
      modifies `world, `now, `trace, `log
      ensures Valid() && old(now) <= now
      ensures log == old(log)
      ensures |trace| == |old(trace)| + 1 && old(trace) <= trace
      ensures Drift(old(world), world)
      ensures trace[|trace|-1].command == PsAll && trace[|trace|-1].before == world
      ensures ok ==> trace[|trace|-1].ok && trace[|trace|-1].reply == Services(world.present, false)
      ensures ok ==> !world.residue
      ensures environment.Calm? ==> ok && world == Settled(environment.keeps, old(world))
    {
      var reply;
      ok, reply := Read(PsAll);
      ok := ok && !reply.oneShot;
    }

    /** One owner action in its one-shot container. */
    method RunOwner(a: Action) returns (ok: bool)
      requires Valid() && a != AdmissionOpen
      modifies `world, `now, `trace, `log
      ensures Valid() && old(now) <= now
      ensures log == Logged(old(log), Bootstrap(a), ok)
      ensures |trace| == |old(trace)| + 1 && old(trace) <= trace
      ensures trace[|old(trace)|].command == Bootstrap(a) && trace[|old(trace)|].ok == ok
      ensures world.present == old(world.present) && world.up == old(world.up)
      ensures NothingLost(old(world), world)
      ensures world.open ==> old(world.open)
      ensures OpenAfter(a, old(world.open)) == old(world.open) ==> world.open == old(world.open)
      ensures ok ==> Certified(a, world) && world.epoch == EpochAfter(a, old(world.epoch)) && Postgres in old(world.up)
      ensures world.epoch in {old(world.epoch), EpochAfter(a, old(world.epoch))}
      ensures Postgres !in old(world.up) ==> world.open == old(world.open) && world.epoch == old(world.epoch)
      ensures environment.Calm? ==>
                (ok <==> Grants(Bootstrap(a), Settled(environment.keeps, old(world)))
                         && !Faulty(environment.fault, Bootstrap(a)))
      ensures environment.Calm? ==> !world.networks.NoNetworks? && CalmReceipts(a, old(world), world)
      ensures environment.Calm? && !ok ==> world.open == old(world.open) && world.epoch == old(world.epoch)
    {
      var reply;
      ok, reply := Run(Bootstrap(a));
      LastIsLawful(trace);
      ghost var e := trace[|trace|-1];
      if ok {
        OwnerSucceeds(a, old(world), e);
      } else {
        OwnerFails(a, old(world), e);
      }
      if environment.Calm? { CalmOwner(a, old(world), e, environment); }
    }

    /** One owner action, then the residue check. */
    method RunBootstrap(a: Action) returns (ok: bool)
      requires Valid() && a != AdmissionOpen
      modifies `world, `now, `trace, `log
      ensures Valid() && old(now) <= now
      ensures |old(trace)| < |trace| <= |old(trace)| + 2 && old(trace) <= trace
      ensures trace[|old(trace)|].command == Bootstrap(a) && (ok ==> trace[|old(trace)|].ok)
      ensures log == Logged(old(log), Bootstrap(a), trace[|old(trace)|].ok)
      ensures |trace| == |old(trace)| + 2 ==> trace[|old(trace)| + 1].command == PsAll
      ensures !trace[|old(trace)|].ok <==> |trace| == |old(trace)| + 1
      ensures world.present == old(world.present) && world.up == old(world.up)
      ensures NothingLost(old(world), world)
      ensures world.open ==> old(world.open)
      ensures OpenAfter(a, old(world.open)) == old(world.open) ==> world.open == old(world.open)
      ensures trace[|old(trace)|].ok ==> Certified(a, world) && world.epoch == EpochAfter(a, old(world.epoch))
      ensures world.epoch in {old(world.epoch), EpochAfter(a, old(world.epoch))}
      ensures a == AdmissionAssertClosed && !ok ==> GateSafe()
      ensures ok ==> !world.residue && Postgres in old(world.up)
      ensures Postgres !in old(world.up) ==> world.open == old(world.open) && world.epoch == old(world.epoch)
      ensures environment.Calm? ==>
                (ok <==> Grants(Bootstrap(a), Settled(environment.keeps, old(world)))
                         && !Faulty(environment.fault, Bootstrap(a)))
      ensures environment.Calm? ==> !world.networks.NoNetworks? && CalmReceipts(a, old(world), world)
      ensures environment.Calm? && !ok ==> world.open == old(world.open) && world.epoch == old(world.epoch)
    {
      ok := RunOwner(a);
      if ok {
        ghost var middle := world;
        ok := AssertNoOneShotContainer();
        CertifiedSurvivesDrift(a, middle, world);
      }
    }

    /** An owner action that only looks. */
    method Certify(a: Action) returns (ok: bool)
      requires Valid() && OnlyLooks(a)
      modifies `world, `now, `trace, `log
      ensures Valid() && old(now) <= now
      ensures |old(trace)| < |trace| <= |old(trace)| + 2 && old(trace) <= trace
      ensures trace[|old(trace)|].command == Bootstrap(a) && (ok ==> trace[|old(trace)|].ok)
      ensures log == Logged(old(log), Bootstrap(a), trace[|old(trace)|].ok)
      ensures |trace| == |old(trace)| + 2 ==> trace[|old(trace)| + 1].command == PsAll
      ensures ok ==> |trace| == |old(trace)| + 2 && !world.residue && Certified(a, world) && Postgres in old(world.up)
      ensures a == AdmissionAssertClosed && !ok ==> GateSafe()
      ensures SameStack(old(world), world) && Moved(environment, old(world), world)
      ensures environment.Calm? ==>
                (ok <==> Grants(Bootstrap(a), Settled(environment.keeps, old(world)))) && !world.networks.NoNetworks?
    {
      ok := RunBootstrap(a);
    }

    /** The owner's independent proof that the gate is closed. */
    method AssertAdmissionClosed() returns (ok: bool)
      requires Valid()
      modifies `world, `now, `trace, `log
      ensures Valid() && old(now) <= now
      ensures TriedOwner(log, AdmissionAssertClosed) && log.before == old(log) && (ok ==> log.ok)
      ensures |old(trace)| < |trace| <= |old(trace)| + 2 && old(trace) <= trace
      ensures trace[|old(trace)|].command == Bootstrap(AdmissionAssertClosed) && (ok ==> trace[|old(trace)|].ok)
      ensures |trace| == |old(trace)| + 2 ==> trace[|old(trace)| + 1].command == PsAll
      ensures ok ==> |trace| == |old(trace)| + 2 && !world.residue
      ensures SameStack(old(world), world) && Moved(environment, old(world), world)
      ensures if ok then !world.open else GateSafe()
      ensures environment.Calm? && Postgres in old(world.up) && world.epoch != Fresh && !world.open ==> ok
    {
      ok := Certify(AdmissionAssertClosed);
    }

    /** Asks the owner to close the gate. */
    method CloseAdmission() returns (ok: bool)
      requires Valid()
      modifies `world, `now, `trace, `log
      ensures Valid() && old(now) <= now
      ensures TriedOwner(log, AdmissionClose) && log.before == old(log) && (ok ==> log.ok)
      ensures |old(trace)| < |trace| && old(trace) <= trace && trace[|old(trace)|].command == Bootstrap(AdmissionClose)
      ensures Only(trace, |old(trace)|, {Bootstrap(AdmissionClose), PsAll}) && Only(trace, |old(trace)| + 1, {PsAll})
      ensures world.present == old(world.present) && world.up == old(world.up) && world.epoch == old(world.epoch)
      ensures Moved(environment, old(world), world) && (world.open ==> old(world.open))
      ensures Postgres !in old(world.up) ==> !ok && world.open == old(world.open)
      ensures ok ==> !world.open
      ensures environment.Calm? && Postgres in old(world.up) && world.epoch != Fresh && Api !in old(world.up) ==> ok
    {
      ok := RunBootstrap(AdmissionClose);
    }

    /** `time.sleep`: at least the given time passes. */
    method Sleep(milliseconds: nat)
      requires Valid()
      modifies this`now
      ensures old(now) + milliseconds <= now
    {
      var t: nat :| now + milliseconds <= t;
      now := t;
    }

    // ----- polling loops -----

    /** A probe inside one container. */
    method Ask(s: Service, p: Probe) returns (ok: bool)
      requires Valid() && p != DrainCount
      modifies `world, `now, `trace, `log
      ensures Valid() && old(now) <= now
      ensures log == old(log)
      ensures |trace| == |old(trace)| + 1 && old(trace) <= trace
      ensures trace[|old(trace)|].command == Exec(s, p) && trace[|old(trace)|].ok == ok
      ensures trace[|old(trace)|].before.open == old(world.open) && SameStack(old(world), world)
      ensures environment.Calm? && s in old(world.up) ==>
                (ok <==> !(s == Worker && p == PrepublicationReady && environment.fault == WorkerNotReady))
      ensures environment.Calm? && s !in old(world.up) ==> !ok
    {
      var reply;
      ok, reply := Read(Exec(s, p));
    }

    /** Whether the three processes with a session answer that they are ready for publication. */
    method AskReady() returns (ok: bool)
      requires Valid()
      modifies `world, `now, `trace, `log
      ensures Valid() && old(now) <= now && log == old(log)
      ensures |old(trace)| < |trace| <= |old(trace)| + 3 && old(trace) <= trace
      ensures SameStack(old(world), world)
      ensures ok ==> |trace| == |old(trace)| + 3
                     && Ran(trace[|old(trace)|], Exec(Api, PrepublicationReady))
                     && Ran(trace[|old(trace)| + 1], Exec(Worker, PrepublicationReady))
                     && Ran(trace[|old(trace)| + 2], Exec(Erasure, PrepublicationReady))
      ensures environment.Calm? && RUNTIME <= old(world.up) ==> (ok <==> environment.fault != WorkerNotReady)
    {
      ok := Ask(Api, PrepublicationReady);
      if !ok { return; }
      ok := Ask(Worker, PrepublicationReady);
      if !ok { return; }
      ok := Ask(Erasure, PrepublicationReady);
    }

    /** The five questions of a closed probe. */
    method AskRuntime() returns (ok: bool)
      requires Valid()
      modifies `world, `now, `trace, `log
      ensures Valid() && old(now) <= now && log == old(log)
      ensures |old(trace)| < |trace| <= |old(trace)| + 5 && old(trace) <= trace
      ensures SameStack(old(world), world)
      ensures ok ==> |trace| == |old(trace)| + 5
                     && Ran(trace[|old(trace)|], Exec(Api, PrepublicationReady))
                     && Ran(trace[|old(trace)| + 1], Exec(Worker, PrepublicationReady))
                     && Ran(trace[|old(trace)| + 2], Exec(Erasure, PrepublicationReady))
                     && Ran(trace[|old(trace)| + 3], Exec(Api, Healthz))
                     && Ran(trace[|old(trace)| + 4], Exec(Edge, Healthz))
      ensures environment.Calm? && RUNTIME <= old(world.up) ==> (ok <==> environment.fault != WorkerNotReady)
    {
      ok := AskReady();
      if !ok { return; }
      ok := Ask(Api, Healthz);
      if !ok { return; }
      ok := Ask(Edge, Healthz);
    }

    /** One turn of the closed probe. */
    method ProbeOnce() returns (ok: bool)
      requires Valid()
      modifies `world, `now, `trace, `log
      ensures Valid() && old(now) <= now
      ensures log == old(log)
      ensures |old(trace)| < |trace| <= |old(trace)| + 6 && old(trace) <= trace
      ensures SameStack(old(world), world)
      ensures ok ==> |trace| == |old(trace)| + 6 && ClosedProbe(trace, |old(trace)|)
      ensures trace[|old(trace)|].before.open == old(world.open)
      ensures environment.Calm? && RUNTIME <= old(world.up) ==> (ok <==> environment.fault != WorkerNotReady)
    {
      var reply;
      ok, reply := Read(PsRunning);
      if !ok || !(RUNTIME <= reply.services) { return false; }
      ghost var listed := trace;
      ok := AskRuntime();
      assert trace[|old(trace)|] == listed[|old(trace)|];
    }

    method ProbeClosedRuntimePublication() returns (ok: bool)
      requires Valid()
      modifies `world, `now, `trace, `log
      ensures Valid() && old(now) <= now
      ensures log == old(log)
      ensures old(trace) <= trace
      ensures 1 <= |trace| - |old(trace)| <= 6 * (PREPUBLICATION_TIMEOUT / PREPUBLICATION_POLL + 1)
      ensures SameStack(old(world), world)
      ensures ok ==> |old(trace)| + 6 <= |trace| && ClosedProbe(trace, |trace| - 6)
                     && trace[|trace|-6].before.open == world.open
      ensures environment.Calm? && RUNTIME <= old(world.up) ==>
                (ok <==> environment.fault != WorkerNotReady) && (ok ==> |trace| == |old(trace)| + 6)
    {
      var deadline := now + PREPUBLICATION_TIMEOUT;
      ghost var turns := 0;
      while true
        invariant Valid() && old(now) + turns * PREPUBLICATION_POLL <= now
        invariant turns <= PREPUBLICATION_TIMEOUT / PREPUBLICATION_POLL
        invariant log == old(log) && old(trace) <= trace && turns <= |trace| - |old(trace)| <= 6 * turns
        invariant SameStack(old(world), world)
        invariant environment.Calm? && RUNTIME <= old(world.up) ==>
                    environment.fault == WorkerNotReady || turns == 0
        decreases deadline - now
      {
        ok := ProbeOnce();
        if ok { return; }
        if now >= deadline { return; }
        Sleep(PREPUBLICATION_POLL);
        turns := turns + 1;
      }
    }

    method WaitErasureDrain() returns (ok: bool)
      requires Valid()
      modifies `world, `now, `trace, `log
      ensures Valid() && old(now) <= now
      ensures log == old(log)
      ensures old(trace) <= trace
      ensures 1 <= |trace| - |old(trace)| <= 2 * (DRAIN_TIMEOUT / DRAIN_POLL + 1)
      ensures Only(trace, |old(trace)|, {Bootstrap(ErasureDrainAssert), PsAll})
      ensures SameStack(old(world), world) && Moved(environment, old(world), world)
      ensures ok ==> Certified(ErasureDrainAssert, world)
      ensures Postgres !in old(world.up) ==> !ok
      ensures environment.Calm? ==> !world.networks.NoNetworks?
      ensures environment.Calm? && old(world.epoch) in {C12, C13} ==>
                (Postgres in old(world.up) && Erasure !in old(world.up) ==> ok && |trace| == |old(trace)| + 2)
    {
      var deadline := now + DRAIN_TIMEOUT;
      ghost var turns := 0;
      while true
        invariant Valid() && old(now) + turns * DRAIN_POLL <= now
        invariant turns <= DRAIN_TIMEOUT / DRAIN_POLL
        invariant log == old(log) && old(trace) <= trace && turns <= |trace| - |old(trace)| <= 2 * turns
        invariant Only(trace, |old(trace)|, {Bootstrap(ErasureDrainAssert), PsAll})
        invariant SameStack(old(world), world) && Moved(environment, old(world), world)
        invariant environment.Calm? && old(world.epoch) in {C12, C13} ==>
                    (Postgres in old(world.up) && Erasure !in old(world.up) ==> turns == 0)
        decreases deadline - now
      {
        ok := Certify(ErasureDrainAssert);
        if ok { return; }
        if now >= deadline { return; }
        Sleep(DRAIN_POLL);
        turns := turns + 1;
      }
    }

    /** The queued or leased work the running worker reports, unless that cannot be read. */
    method WorkerPendingCount() returns (ok: bool, count: int)
      requires Valid()
      modifies `world, `now, `trace, `log
      ensures Valid() && old(now) <= now
      ensures log == old(log)
      ensures |trace| == |old(trace)| + 1 && old(trace) <= trace
      ensures trace[|trace|-1].command == Exec(Worker, DrainCount) && trace[|trace|-1].before == world
      ensures Drift(old(world), world)
      ensures ok ==> count == world.admitted - world.completed && Worker in world.running
      ensures ok ==> trace[|trace|-1].ok
      ensures environment.Calm? ==> world == Settled(environment.keeps, old(world))
      ensures CalmBut(environment, DrainCountFails) ==> !ok
      ensures environment.Calm? && environment.fault != DrainCountFails && Worker in old(world.up) ==>
                ok && count == 0
    {
      var reply;
      ok, reply := Read(Exec(Worker, DrainCount));
      count := -1;
      if ok {
        count := reply.count;
        ok := 0 <= count;
      }
    }

    /** Success means the queue was seen empty by the worker while it ran. */
    method DrainWorkerQueue() returns (ok: bool)
      requires Valid()
      modifies `world, `now, `trace, `log
      ensures Valid() && old(now) <= now
      ensures log == old(log)
      ensures old(trace) <= trace
      ensures 1 <= |trace| - |old(trace)| <= DRAIN_TIMEOUT / DRAIN_POLL + 1
      ensures Only(trace, |old(trace)|, {Exec(Worker, DrainCount)})
      ensures SameStack(old(world), world) && Moved(environment, old(world), world)
      ensures ok ==> trace[|trace|-1].ok && trace[|trace|-1].before == world
                     && Drained(world) && Worker in world.running
      ensures CalmBut(environment, DrainCountFails) ==> !ok
      ensures environment.Calm? && environment.fault != DrainCountFails && Worker in old(world.up) ==> ok
    {
      var deadline := now + DRAIN_TIMEOUT;
      ghost var turns := 0;
      while true
        invariant Valid() && old(now) + turns * DRAIN_POLL <= now
        invariant turns <= DRAIN_TIMEOUT / DRAIN_POLL
        invariant log == old(log) && old(trace) <= trace && |trace| - |old(trace)| == turns
        invariant Only(trace, |old(trace)|, {Exec(Worker, DrainCount)})
        invariant SameStack(old(world), world) && Moved(environment, old(world), world)
        decreases deadline - now
      {
        var count;
        ok, count := WorkerPendingCount();
        if !ok { return; }
        if count == 0 { return true; }
        if now >= deadline { return false; }
        Sleep(DRAIN_POLL);
        turns := turns + 1;
      }
    }

    // ----- stopping and compensation -----

    /** Stops the given services and checks that none of them still runs. */
    method StopAndCheck(s: set<Service>) returns (ok: bool)
      requires Valid()
      modifies `world, `now, `trace, `log
      ensures Valid() && old(now) <= now
      ensures Tried(log, Stop(s)) && log.before == old(log) && (ok ==> log.ok)
      ensures |old(trace)| < |trace| <= |old(trace)| + 2 && old(trace) <= trace
      ensures Only(trace, |old(trace)|, {Stop(s), PsRunning})
      ensures ok ==> |trace| == |old(trace)| + 2 && Ran(trace[|trace|-1], PsRunning)
      ensures world.present == old(world.present) && world.open == old(world.open)
      ensures world.epoch == old(world.epoch) && Moved(environment, old(world), world)
      ensures old(world.up) - s <= world.up <= old(world.up)
      ensures ok ==> world.up == old(world.up) - s
      ensures environment.Calm? ==> (ok <==> !Faulty(environment.fault, Stop(s)))
      ensures environment.Calm? && !ok ==> world.up == old(world.up)
    {
      ok := StopServices(s);
      if ok {
        var reply;
        ok, reply := Read(PsRunning);
        ok := ok && reply.services * s == {};
      }
    }

    method StopRuntime() returns (ok: bool)
      requires Valid()
      modifies `world, `now, `trace, `log
      ensures Valid() && old(now) <= now
      ensures RuntimeStops(old(log), log)
      ensures environment.Calm? && environment.fault != StopErasureFails ==> ok
      ensures old(trace) <= trace && |old(trace)| < |trace| && trace[|old(trace)|].command == Stop(INGRESS)
      ensures trace[|trace|-1].ok ==> trace[|trace|-1].command == Stop({Worker})
      ensures Only(trace, |old(trace)|, {Stop(INGRESS), Stop({Erasure}), Stop({Worker})})
      ensures world.present == old(world.present) && world.open == old(world.open)
      ensures world.epoch == old(world.epoch) && Moved(environment, old(world), world)
      ensures old(world.up) - RUNTIME <= world.up <= old(world.up)
      ensures ok ==> world.up == old(world.up) - RUNTIME
    {
      ok := StopServices(INGRESS);
      if ok {
        ok := StopServices({Erasure});
      }
      if ok {
        ok := StopServices({Worker});
      }
    }

    /** Stops a partial runtime; the proof that the gate is closed is not suppressed. */
    method CompensateFailedPrepublication(admissionExists: bool) returns (ok: bool)
      requires Valid()
      modifies `world, `now, `trace, `log
      ensures Valid() && old(trace) <= trace
      ensures TakenBack(old(log), admissionExists, log)
      ensures environment.Calm? && environment.fault != StopErasureFails ==> RuntimeDown(world)
      ensures world.open == old(world.open) && world.epoch == old(world.epoch)
      ensures old(world.up) - RUNTIME <= world.up <= old(world.up) && world.present == old(world.present)
      ensures NothingLost(old(world), world)
      ensures admissionExists ==> GateSafe()
      ensures admissionExists && ok ==> !world.open
    {
      var stopped := StopRuntime();
      ok := true;
      if admissionExists {
        ok := AssertAdmissionClosed();
      }
    }

    /** Fences the opening at `k`, which may or may not have committed. */
    method CompensateAmbiguousAdmissionOpen(ghost k: nat) returns (ok: bool)
      requires Valid() && k + 1 == |trace| && FailedOpening(trace[k])
      modifies this
      ensures Valid() && old(trace) <= trace && owed == old(owed) - {k}
      ensures OpeningTakenBack(old(log), log)
      ensures world.epoch == old(world.epoch) && NoFewer(old(world.networks), world.networks)
      ensures old(world.up) - RUNTIME <= world.up <= old(world.up) && world.present == old(world.present)
      ensures GateSafe() && (ok ==> !world.open)
      ensures environment.Calm? && environment.fault != StopErasureFails ==>
                RuntimeDown(world) && (Postgres in old(world.up) && world.epoch != Fresh ==> ok)
    {
      var stopped := StopRuntime();
      ghost var stops := trace;
      var closed := CloseAdmission();
      ghost var asked := trace;
      ok := AssertAdmissionClosed();
      FenceIsComplete(stops, asked, trace, k);
      FenceSettles(trace, owed, k, |stops|, |asked|);
      owed := owed - {k};
    }

    method StopWorkerAfterDrain() returns (ok: bool)
      requires Valid()
      modifies `world, `now, `trace, `log
      ensures Valid() && old(trace) <= trace && |old(trace)| < |trace|
      ensures ok ==> log == Did(Did(old(log), Stop({Worker})), Remove({Worker}))
      ensures Only(trace, |old(trace)|, {Stop({Worker}), PsRunning, Remove({Worker}), PsAll})
      ensures world.open == old(world.open) && world.epoch == old(world.epoch)
      ensures Moved(environment, old(world), world)
      ensures old(world.up) - {Worker} <= world.up <= old(world.up)
      ensures old(world.present) - {Worker} <= world.present <= old(world.present)
      ensures ok ==> Worker !in world.up && Worker !in world.present
      ensures environment.Calm? ==> ok
    {
      ok := StopAndCheck({Worker});
      if !ok { return; }
      ok := RemoveServices({Worker});
      if !ok { return; }
      var reply;
      ok, reply := Read(PsAll);
      ok := ok && Worker !in reply.services;
    }

    method RequireWorkerRunningForDrain() returns (ok: bool)
      requires Valid()
      modifies `world, `now, `trace, `log
      ensures Valid() && |trace| == |old(trace)| + 1 && old(trace) <= trace
      ensures log == old(log)
      ensures trace[|trace|-1].command == PsRunning
      ensures Drift(old(world), world)
      ensures ok ==> Worker in world.running && trace[|trace|-1].ok
      ensures trace[|trace|-1].ok ==> (ok <==> Worker in world.running)
      ensures environment.Calm? ==> (ok <==> Worker in old(world.up)) && world == Settled(environment.keeps, old(world))
    {
      var reply;
      ok, reply := Read(PsRunning);
      ok := ok && Worker in reply.services;
    }

    // ----- fence and drain -----

    /** Behind a closed gate: let the worker finish, then remove it. */
    method DrainAndStopWorker() returns (ok: bool, ghost drain: nat)
      requires Valid() && !world.open
      modifies `world, `now, `trace, `log
      ensures Valid() && old(trace) <= trace
      ensures ok ==> log == Did(Did(old(log), Stop({Worker})), Remove({Worker}))
      ensures OnlyFences(trace, |old(trace)|)
      ensures ok ==> |old(trace)| < |trace| && Ran(trace[|old(trace)|], PsRunning)
      ensures !world.open && Fenced(old(world), world) && old(world.up) - {Worker} <= world.up
      ensures Moved(environment, old(world), world)
      ensures ok ==> Worker !in world.up && Worker !in world.present
      ensures Worker !in world.present ==> Drained(world) || Worker !in old(world.present)
      ensures ok ==> |old(trace)| <= drain < |trace| && SeenDrained(trace[drain]) && Drained(world)
                     && trace[drain].before.admitted == world.admitted
      ensures Worker !in old(world.up) || CalmBut(environment, DrainCountFails) ==>
                !ok && world.present == old(world.present)
      ensures environment.Calm? && environment.fault != DrainCountFails && Worker in old(world.up) ==> ok
    {
      drain := 0;
      ok := RequireWorkerRunningForDrain();
      ghost var looked := trace;
      if ok {
        ok := DrainWorkerQueue();
      }
      if ok {
        drain := |trace| - 1;
        ghost var seen := trace[drain];
        assert SeenDrained(seen);
        ok := StopWorkerAfterDrain();
        assert trace[drain] == seen && trace[|old(trace)|] == looked[|old(trace)|];
      }
    }

    /** The same, and the database agrees that nothing is left. */
    method DrainAndRemoveWorker() returns (ok: bool, ghost drain: nat)
      requires Valid() && !world.open
      modifies `world, `now, `trace, `log
      ensures Valid() && old(trace) <= trace
      ensures ok ==> log == WorkerSteps(old(log))
      ensures OnlyFences(trace, |old(trace)|)
      ensures !world.open && Fenced(old(world), world) && old(world.up) - {Worker} <= world.up
      ensures Moved(environment, old(world), world)
      ensures ok ==> Drained(world) && Worker !in world.up && Worker !in world.present
      ensures Worker !in world.present ==> Drained(world) || Worker !in old(world.present)
      ensures ok ==> |old(trace)| <= drain < |trace| && SeenDrained(trace[drain])
                     && trace[drain].before.admitted == world.admitted
      ensures Worker !in old(world.up) || CalmBut(environment, DrainCountFails) ==>
                !ok && world.present == old(world.present)
      ensures environment.Calm? && environment.fault != DrainCountFails && world.epoch != Fresh ==>
                (Worker in old(world.up) && Postgres in old(world.up) && Api !in old(world.up) ==> ok)
    {
      ok, drain := DrainAndStopWorker();
      if ok {
        ghost var seen := trace[drain];
        ok := Certify(RuntimeDrainAssert);
        assert trace[drain] == seen;
      }
    }

    /** The guarded part of the fence: everything after erasure has stopped. */
    method DrainBehindFence() returns (ok: bool, ghost drain: nat)
      requires Valid()
      modifies `world, `now, `trace, `log
      ensures Valid() && old(trace) <= trace
      ensures ok ==> log == WorkerSteps(DidOwner(old(log), AdmissionClose))
      ensures OnlyFences(trace, |old(trace)|)
      ensures Fenced(old(world), world) && old(world.up) - {Worker} <= world.up
      ensures Moved(environment, old(world), world)
      ensures ok ==> !world.open && Drained(world) && Worker !in world.up && Worker !in world.present
      ensures Worker !in world.present ==> Drained(world) || Worker !in old(world.present)
      ensures ok ==> |old(trace)| <= drain < |trace| && SeenDrained(trace[drain])
                     && trace[drain].before.admitted == world.admitted
      ensures !Drainable(old(world)) || CalmBut(environment, DrainCountFails) ==>
                !ok && world.present == old(world.present)
      ensures environment.Calm? ==> !world.networks.NoNetworks?
      ensures environment.Calm? && environment.fault != DrainCountFails && Drainable(old(world)) ==>
                (Api !in old(world.up) && Erasure !in old(world.up) ==> ok)
    {
      drain := 0;
      ok := WaitErasureDrain();
      if ok {
        ok := CloseAdmission();
      }
      if ok {
        ok, drain := DrainAndRemoveWorker();
      }
    }

    /** Fences every runtime, then asks for a close and insists on the closed proof. */
    method FenceAfterFailedDrain()
      requires Valid()
      modifies `world, `now, `trace, `log
      ensures Valid() && old(trace) <= trace
      ensures DrainTakenBack(old(log), log)
      ensures OnlyFences(trace, |old(trace)|)
      ensures Fenced(old(world), world) && world.present == old(world.present)
      ensures GateSafe()
      ensures environment.Calm? ==> RuntimeDown(world)
      ensures environment.Calm? && Postgres in old(world.up) && world.epoch != Fresh ==> !world.open
      ensures Moved(environment, old(world), world)
    {
      var stopped := StopServices(RUNTIME);
      var closed := CloseAdmission();
      var proved := AssertAdmissionClosed();
    }

    /** The public ingress first, then the only erasure executor. */
    method StopIngressAndErasure() returns (ok: bool)
      requires Valid()
      modifies `world, `now, `trace, `log
      ensures Valid() && old(trace) <= trace
      ensures if ok then log == Did(Did(old(log), Stop(INGRESS)), Stop({Erasure})) else FenceTakenBack(old(log), log)
      ensures OnlyFences(trace, |old(trace)|) && OnlyEarlyStops(trace, |old(trace)|)
      ensures Fenced(old(world), world) && Moved(environment, old(world), world)
      ensures world.present == old(world.present) && world.open == old(world.open)
      ensures Worker in old(world.up) <==> Worker in world.up
      ensures ok ==> world.up == old(world.up) - INGRESS - {Erasure}
      ensures environment.Calm? ==> (ok <==> environment.fault != StopErasureFails)
      ensures environment.Calm? && !ok ==> world.up == old(world.up) - INGRESS
    {
      ok := StopAndCheck(INGRESS);
      if ok {
        ok := StopAndCheck({Erasure});
      }
    }

    /** Drains behind the fence, or takes all of the runtime back. */
    method DrainOrTakeBack() returns (ok: bool, ghost drain: nat)
      requires Valid() && NoPublic(world.up)
      modifies `world, `now, `trace, `log
      ensures Valid() && old(trace) <= trace
      ensures if ok then log == WorkerSteps(DidOwner(old(log), AdmissionClose))
              else TriedOwner(log, AdmissionAssertClosed) && TriedOwner(log.before, AdmissionClose)
                   && Tried(log.before.before, Stop(RUNTIME))
      ensures OnlyFences(trace, |old(trace)|)
      ensures Fenced(old(world), world) && Moved(environment, old(world), world)
      ensures ok ==> !world.open && Drained(world) && Drainable(old(world))
      ensures ok ==> RuntimeDown(world) && Worker !in world.present
      ensures ok ==> |old(trace)| <= drain < |trace| && SeenDrained(trace[drain])
                     && trace[drain].before.admitted == world.admitted
      ensures !ok ==> GateSafe()
      ensures Worker !in world.present ==> Drained(world) || Worker !in old(world.present)
      ensures !Drainable(old(world)) || CalmBut(environment, DrainCountFails) ==>
                !ok && world.present == old(world.present)
      ensures environment.Calm? ==>
                && (environment.fault != DrainCountFails && Drainable(old(world)) ==> ok)
                && CalmlyFenced(ok, old(world), world)
    {
      ok, drain := DrainBehindFence();
      if !ok {
        FenceAfterFailedDrain();
      }
    }

    method FenceAndDrainRuntime() returns (ok: bool, ghost drain: nat)
      requires Valid()
      modifies `world, `now, `trace, `log
      ensures Valid() && old(trace) <= trace
      ensures if ok then log == FenceSteps(old(log)) else FenceTakenBack(old(log), log)
      ensures OnlyFences(trace, |old(trace)|)
      ensures Fenced(old(world), world) && Moved(environment, old(world), world)
      ensures ok ==> !world.open && Drained(world) && Drainable(old(world))
      ensures ok ==> RuntimeDown(world) && Worker !in world.present
      ensures ok ==> |old(trace)| <= drain < |trace| && SeenDrained(trace[drain])
                     && trace[drain].before.admitted == world.admitted
      ensures !ok ==> GateSafe()
                      || (world.open == old(world.open) && world.present == old(world.present)
                          && OnlyEarlyStops(trace, |old(trace)|))
      ensures Worker !in world.present ==> Drained(world) || Worker !in old(world.present)
      ensures !Drainable(old(world)) || CalmBut(environment, DrainCountFails) ==>
                !ok && world.present == old(world.present)
      ensures environment.Calm? && Drainable(old(world)) ==>
                ok || environment.fault in {DrainCountFails, StopErasureFails}
      ensures CalmBut(environment, StopErasureFails) ==>
                !ok && world.present == old(world.present) && world.up == old(world.up) - INGRESS
      ensures environment.Calm? && environment.fault != StopErasureFails ==> CalmlyFenced(ok, old(world), world)
    {
      drain := 0;
      ok := StopIngressAndErasure();
      if ok {
        ok, drain := DrainOrTakeBack();
      }
    }

    // ----- rollback -----

    /** Whether the restored worker runs and answers its closed readiness probe. */
    method LookForWorker() returns (ok: bool)
      requires Valid()
      modifies `world, `now, `trace, `log
      ensures Valid() && old(now) <= now && log == old(log)
      ensures old(trace) <= trace && 1 <= |trace| - |old(trace)| <= 2
      ensures Only(trace, |old(trace)|, {PsRunning, Exec(Worker, PrepublicationReady)})
      ensures SameStack(old(world), world) && (world.residue ==> old(world.residue))
      ensures ok ==> Worker in world.running
      ensures environment.Calm? && Worker in old(world.up) ==>
                (ok <==> environment.fault != WorkerNotReady) && |trace| == |old(trace)| + 2
    {
      var reply;
      ok, reply := Read(PsRunning);
      ok := ok && Worker in reply.services;
      if ok {
        ok, reply := Read(Exec(Worker, PrepublicationReady));
      }
    }

    /** Polls until the restored worker is ready. */
    method AwaitClosedWorker() returns (ok: bool)
      requires Valid()
      modifies `world, `now, `trace, `log
      ensures Valid() && old(now) <= now && log == old(log)
      ensures old(trace) <= trace
      ensures 1 <= |trace| - |old(trace)| <= 2 * (PREPUBLICATION_TIMEOUT / PREPUBLICATION_POLL + 1)
      ensures Only(trace, |old(trace)|, {PsRunning, Exec(Worker, PrepublicationReady)})
      ensures SameStack(old(world), world) && (world.residue ==> old(world.residue))
      ensures ok ==> Worker in world.running
      ensures environment.Calm? && Worker in old(world.up) ==>
                (ok <==> environment.fault != WorkerNotReady) && (ok ==> |trace| == |old(trace)| + 2)
    {
      var deadline := now + PREPUBLICATION_TIMEOUT;
      ghost var turns := 0;
      while true
        invariant Valid() && old(now) + turns * PREPUBLICATION_POLL <= now
        invariant turns <= PREPUBLICATION_TIMEOUT / PREPUBLICATION_POLL
        invariant log == old(log) && old(trace) <= trace && turns <= |trace| - |old(trace)| <= 2 * turns
        invariant Only(trace, |old(trace)|, {PsRunning, Exec(Worker, PrepublicationReady)})
        invariant SameStack(old(world), world) && (world.residue ==> old(world.residue))
        invariant environment.Calm? && Worker in old(world.up) ==>
                    environment.fault == WorkerNotReady || turns == 0
        decreases deadline - now
      {
        ok := LookForWorker();
        if ok { return; }
        if now >= deadline { return; }
        Sleep(PREPUBLICATION_POLL);
        turns := turns + 1;
      }
    }

    method ProveClosedThenStartWorker() returns (ok: bool)
      requires Valid()
      modifies `world, `now, `trace, `log
      ensures Valid() && old(trace) <= trace && |old(trace)| < |trace|
      ensures ok ==> log == RestoreSteps(old(log))
      ensures RestoresOnlyWorker(trace, |old(trace)|) && NoOwnerChange(trace, |old(trace)|)
      ensures world.open == old(world.open) && world.epoch == old(world.epoch)
      ensures old(world.up) <= world.up <= old(world.up) + CORE + {Worker}
      ensures old(world.present) <= world.present <= old(world.present) + CORE + {Worker}
      ensures ok ==> !world.open && HasCore(world.up) && Worker in world.up && Worker in world.running && !world.residue
      ensures ok && NoPublic(old(world.up)) ==> HandedBack(world)
      ensures Rebuilt(old(world), world)
      ensures environment.Calm? && Postgres in old(world.up) && world.epoch != Fresh && !world.open ==>
                (ok <==> environment.fault != WorkerNotReady) && Worker in world.present
    {
      ok := AssertAdmissionClosed();
      RebuiltInPlace(old(world), world);
      ghost var middle := world;
      ghost var proved := trace;
      if ok {
        ok := StartWorker();
        RebuiltTwice(old(world), middle, world);
        WorkerAfterProof(proved, trace, |old(trace)|);
      }
    }

    method StartWorker() returns (ok: bool)
      requires Valid()
      modifies `world, `now, `trace, `log
      ensures Valid() && old(trace) < trace && trace[|old(trace)|].command == Up({Worker})
      ensures Tried(log, Up({Worker})) && log.before == old(log) && (ok ==> log.ok)
      ensures Only(trace, |old(trace)| + 1, {PsRunning, Exec(Worker, PrepublicationReady)})
      ensures world.open == old(world.open) && world.epoch == old(world.epoch) && Rebuilt(old(world), world)
      ensures old(world.up) <= world.up <= old(world.up) + CORE + {Worker}
      ensures old(world.present) <= world.present <= old(world.present) + CORE + {Worker}
      ensures world.residue ==> old(world.residue)
      ensures ok ==> HasCore(world.up) && Worker in world.up && Worker in world.running
      ensures environment.Calm? ==> (ok <==> environment.fault != WorkerNotReady) && Worker in world.present
    {
      ok := StartServices({Worker});
      RebuiltByStart(old(world), world);
      if ok {
        ok := AwaitClosedWorker();
      }
    }

    method StopRestoredWorker()
      requires Valid()
      modifies `world, `now, `trace, `log
      ensures Valid() && old(trace) <= trace
      ensures WorkerTakenBack(log) && log.before.before == old(log)
      ensures environment.Calm? ==> Worker !in world.up
      ensures OnlyFences(trace, |old(trace)|) && NoOwnerChange(trace, |old(trace)|)
      ensures world.open == old(world.open) && world.epoch == old(world.epoch)
      ensures old(world.up) - {Worker} <= world.up <= old(world.up) && world.present == old(world.present)
      ensures GateSafe() && Rebuilt(old(world), world)
    {
      var stopped := StopServices({Worker});
      RebuiltInPlace(old(world), world);
      ghost var middle := world;
      var proved := AssertAdmissionClosed();
      RebuiltInPlace(middle, world);
      RebuiltTwice(old(world), middle, world);
    }

    /** Recreates the worker behind a gate that was just proved closed. */
    method RestoreClosedWorkerAfterRollback() returns (ok: bool)
      requires Valid()
      modifies `world, `now, `trace, `log
      ensures Valid() && old(trace) <= trace && |old(trace)| < |trace|
      ensures if ok then log == RestoreSteps(old(log)) else WorkerTakenBack(log)
      ensures RestoresOnlyWorker(trace, |old(trace)|) && NoOwnerChange(trace, |old(trace)|)
      ensures world.open == old(world.open) && world.epoch == old(world.epoch)
      ensures old(world.up) - {Worker} <= world.up <= old(world.up) + CORE + {Worker}
      ensures old(world.present) <= world.present <= old(world.present) + CORE + {Worker}
      ensures ok ==> !world.open && HasCore(world.up) && Worker in world.up && Worker in world.running && !world.residue
      ensures ok && NoPublic(old(world.up)) ==> HandedBack(world)
      ensures !ok ==> GateSafe()
      ensures Rebuilt(old(world), world)
      ensures environment.Calm? && Postgres in old(world.up) && world.epoch != Fresh && !world.open ==>
                (ok <==> environment.fault != WorkerNotReady) && Worker in world.present
      ensures environment.Calm? && !ok ==> Worker !in world.up
    {
      ok := ProveClosedThenStartWorker();
      if !ok {
        ghost var middle, tr := world, trace;
        StopRestoredWorker();
        RebuiltTwice(old(world), middle, world);
        assert forall i :: 0 <= i < |tr| ==> trace[i] == tr[i];
      }
    }

    // ----- publication -----

    method RunS3Init() returns (ok: bool)
      requires Valid()
      modifies `world, `now, `trace, `log
      ensures Valid() && old(trace) <= trace && |old(trace)| < |trace|
      ensures ok ==> log == Did(old(log), S3Init)
      ensures !ok && trace[|old(trace)|].ok ==> TakenBack(Did(old(log), S3Init), true, log)
      ensures world.open == old(world.open) && world.epoch == old(world.epoch)
      ensures old(world.up) - RUNTIME <= world.up <= old(world.up) && world.present == old(world.present)
      ensures NothingLost(old(world), world)
      ensures ok ==> world.up == old(world.up) && !world.residue
      ensures environment.Calm? ==> ok
    {
      var reply;
      ok, reply := Run(S3Init);
      LastIsLawful(trace);
      if ok {
        ok := AssertNoOneShotContainer();
        if !ok {
          var compensated := CompensateFailedPrepublication(true);
        }
      }
    }

    /** The owner's part of publication: migrate behind a closed gate. */
    method ApplyAndCutOver() returns (ok: bool, applied: bool)
      requires Valid()
      modifies `world, `now, `trace, `log
      ensures Valid() && old(trace) <= trace
      ensures ok ==> log == CutOverSteps(DidOwner(old(log), Apply))
      ensures !applied ==> TriedOwner(log, Apply) && log.before == old(log)
      ensures world.up == old(world.up) && world.present == old(world.present)
      ensures world.open ==> old(world.open)
      ensures ok ==> applied && !world.open && world.epoch == C13
      ensures !applied ==> !ok && Only(trace, |old(trace)|, {Bootstrap(Apply), PsAll})
      ensures NothingLost(old(world), world)
      ensures old(world.epoch) in {C12, C13} ==> world.epoch in {C12, C13}
      ensures environment.Calm? && Publishable(old(world)) ==> ok
    {
      ok := ApplyMigrations();
      applied := ok;
      if ok {
        ok := CutOver();
      }
    }

    /** Migrates a fresh database to 0011; any other is only checked. */
    method ApplyMigrations() returns (ok: bool)
      requires Valid()
      modifies `world, `now, `trace, `log
      ensures Valid() && old(trace) <= trace && Only(trace, |old(trace)|, {Bootstrap(Apply), PsAll})
      ensures TriedOwner(log, Apply) && log.before == old(log) && (ok ==> log.ok)
      ensures world.up == old(world.up) && world.present == old(world.present) && world.open == old(world.open)
      ensures NothingLost(old(world), world)
      ensures world.epoch == old(world.epoch) || (old(world.epoch) == Fresh && world.epoch == C11)
      ensures ok ==> world.epoch != Fresh
      ensures environment.Calm? && Postgres in old(world.up) ==> ok
    {
      ok := RunBootstrap(Apply);
    }

    /** To 0012 with the gate closed, then to 0013. */
    method CutOver() returns (ok: bool)
      requires Valid()
      modifies `world, `now, `trace, `log
      ensures Valid() && old(trace) <= trace
      ensures ok ==> log == CutOverSteps(old(log))
      ensures world.up == old(world.up) && world.present == old(world.present)
      ensures world.open ==> old(world.open)
      ensures ok ==> !world.open && world.epoch == C13
      ensures NothingLost(old(world), world)
      ensures old(world.epoch) in {C12, C13} ==> world.epoch in {C12, C13}
      ensures environment.Calm? && Publishable(old(world)) && old(world.epoch) != Fresh ==> ok
    {
      ok := CutOver12();
      if ok {
        ok := CutOver13();
      }
    }

    method CutOver12() returns (ok: bool)
      requires Valid()
      modifies `world, `now, `trace, `log
      ensures Valid() && old(trace) <= trace
      ensures ok ==> log == DidOwner(old(log), Cutover12Closed)
      ensures world.up == old(world.up) && world.present == old(world.present) && NothingLost(old(world), world)
      ensures world.open ==> old(world.open)
      ensures ok ==> !world.open && world.epoch in {C12, C13}
      ensures old(world.epoch) in {C12, C13} ==> world.epoch in {C12, C13}
      ensures environment.Calm? && Publishable(old(world)) && old(world.epoch) != Fresh ==> ok
    {
      ok := RunBootstrap(Cutover12Closed);
    }

    method CutOver13() returns (ok: bool)
      requires Valid()
      modifies `world, `now, `trace, `log
      ensures Valid() && old(trace) <= trace
      ensures ok ==> log == DidOwner(old(log), Cutover13)
      ensures world.up == old(world.up) && world.present == old(world.present) && NothingLost(old(world), world)
      ensures world.open == old(world.open)
      ensures ok ==> world.epoch == C13
      ensures old(world.epoch) in {C12, C13} ==> world.epoch in {C12, C13}
      ensures environment.Calm? && Publishable(old(world)) && old(world.epoch) in {C12, C13} ==> ok
    {
      ok := RunBootstrap(Cutover13);
    }

    method ProbeAndCheckResidue() returns (ok: bool)
      requires Valid()
      modifies `world, `now, `trace, `log
      ensures Valid() && old(trace) <= trace
      ensures log == old(log)
      ensures SameStack(old(world), world)
      ensures ok && !world.open ==> |old(trace)| + 7 <= |trace| && ProbedUpTo(trace, |trace|)
      ensures environment.Calm? && RUNTIME <= old(world.up) ==> (ok <==> environment.fault != WorkerNotReady)
    {
      ok := ProbeClosedRuntimePublication();
      if !ok { return; }
      ghost var probed, n := trace, |trace| - 6;
      assert ClosedProbe(probed, n);
      ok := AssertNoOneShotContainer();
      SameProbe(probed, trace, n);
    }

    /** Starts the runtime without opening the gate and probes it. */
    method StartAndProbe() returns (ok: bool)
      requires Valid()
      modifies `world, `now, `trace, `log
      ensures Valid() && old(trace) <= trace
      ensures ok ==> log == Did(old(log), Up(RUNTIME))
      ensures world.open == old(world.open) && world.epoch == old(world.epoch)
      ensures Rebuilt(old(world), world)
      ensures ok ==> RUNTIME + CORE <= world.up && !NoRuntime(world) && world.networks.AllNetworks?
      ensures ok && !world.open ==> |old(trace)| + 7 <= |trace| && ProbedUpTo(trace, |trace|)
      ensures environment.Calm? ==> (ok <==> environment.fault != WorkerNotReady)
      ensures environment.Calm? ==>
                AllPublic(world.present) && Worker in world.present && HasCore(world.up) && world.networks.AllNetworks?
    {
      ghost var before := world;
      ok := StartServices(RUNTIME);
      RebuiltByStart(before, world);
      if ok {
        assert Worker in world.present;
        ok := ProbeAndCheckResidue();
      }
    }

    /** Everything before the opening; success leaves a complete closed probe as the last events. */
    method Prepublish() returns (ok: bool, applied: bool)
      requires Valid()
      modifies `world, `now, `trace, `log
      ensures Valid() && old(trace) <= trace
      ensures ok ==> log == PrepublishSteps(old(log))
      ensures world.open ==> old(world.open)
      ensures ok ==> !world.open && world.epoch == C13 && RUNTIME + CORE <= world.up && world.networks.AllNetworks?
      ensures ok ==> |old(trace)| + 7 <= |trace| && ProbedUpTo(trace, |trace|)
      ensures !applied ==> !ok && TriedOwner(log, Apply) && log.before == old(log)
      ensures Rebuilt(old(world), world) && (ok ==> !NoRuntime(world))
      ensures NoRuntime(old(world)) && !NoRuntime(world) ==> world.epoch == C13
      ensures environment.Calm? && Publishable(old(world)) ==>
                && applied && (ok <==> environment.fault != WorkerNotReady) && !world.open && world.epoch == C13
                && AllPublic(world.present) && Worker in world.present && HasCore(world.up)
    {
      ok, applied := ApplyAndCutOver();
      if ok {
        ok := RunS3Init();
      }
      RebuiltInPlace(old(world), world);
      if ok {
        ghost var middle := world;
        ok := StartAndProbe();
        RebuiltTwice(old(world), middle, world);
      }
    }

    /** The one command that may open the gate. */
    method AskToOpen() returns (ok: bool)
      requires Valid() && ProbedUpTo(trace, |trace|) && !world.open
      modifies this
      ensures Valid() && old(trace) <= trace && |trace| == |old(trace)| + 1
      ensures |old(trace)| !in old(owed)
      ensures owed == if ok then old(owed) else old(owed) + {|old(trace)|}
      ensures log == Step(old(log), Bootstrap(AdmissionOpen), ok)
      ensures IsOpening(trace[|old(trace)|]) && trace[|old(trace)|].ok == ok
      ensures world.up == old(world.up) && world.present == old(world.present) && world.epoch == old(world.epoch)
      ensures NoFewer(old(world.networks), world.networks) && (ok ==> world.open)
      ensures environment.Calm? && Postgres in old(world.up) && old(world.epoch) != Fresh ==>
                (ok <==> environment.fault != OpeningLost) && world.open
    {
      var reply;
      ok, reply := Run(Bootstrap(AdmissionOpen));
      OpeningLeaves(old(world), trace, environment);
      assert trace == old(trace) + [trace[|trace|-1]];
      OpeningExtends(old(trace), trace[|trace|-1], owed);
      if !ok { owed := owed + {|old(trace)|}; }
    }

    /** The final owner opening; a reported failure is fenced before it is raised. */
    method OpenAdmission() returns (ok: bool)
      requires Valid() && ProbedUpTo(trace, |trace|) && !world.open
      modifies this
      ensures Valid() && old(trace) <= trace && |old(trace)| < |trace| && owed == old(owed)
      ensures if ok then log == DidOwner(old(log), AdmissionOpen)
              else OpeningTakenBack(Step(old(log), Bootstrap(AdmissionOpen), false), log)
      ensures IsOpening(trace[|old(trace)|]) && world.epoch == old(world.epoch)
      ensures NoFewer(old(world.networks), world.networks)
      ensures old(world.up) - RUNTIME <= world.up && world.present == old(world.present)
      ensures ok ==> world.open && |trace| == |old(trace)| + 1 && Ran(trace[|trace|-1], Bootstrap(AdmissionOpen))
      ensures ok ==> world.up == old(world.up)
      ensures !trace[|old(trace)|].ok ==> !ok
      ensures !ok ==> GateSafe()
      ensures environment.Calm? && Postgres in old(world.up) && old(world.epoch) != Fresh ==>
                (ok <==> environment.fault != OpeningLost) && (!ok ==> !world.open && RuntimeDown(world))
    {
      ok := AskToOpen();
      if !ok {
        var fenced := CompensateAmbiguousAdmissionOpen(|trace| - 1);
      }
    }

    /** Opens the gate of a probed runtime, or takes back what was started. */
    method OpenOrCompensate(ready: bool, applied: bool) returns (ok: bool)
      requires Valid() && (ready ==> !world.open && ProbedUpTo(trace, |trace|) && !NoRuntime(world))
      modifies this
      ensures Valid() && old(trace) <= trace && owed == old(owed)
      ensures if ok then log == DidOwner(old(log), AdmissionOpen) else EndsTakenBack(log)
      ensures !ready ==> TakenBack(old(log), applied, log)
      ensures Rebuilt(old(world), world) && world.present == old(world.present) && world.epoch == old(world.epoch)
      ensures ok ==> ready && world.open && world.epoch == old(world.epoch) && world.up == old(world.up)
      ensures ok ==> |trace| == |old(trace)| + 1 && Ran(trace[|trace|-1], Bootstrap(AdmissionOpen))
      ensures !ok && (ready || applied) ==> GateSafe()
      ensures !ok && world.open ==> old(world.open) || GateSafe()
      ensures environment.Calm? && ready && Postgres in old(world.up) && old(world.epoch) != Fresh ==>
                (ok <==> environment.fault != OpeningLost) && (!ok ==> !world.open && RuntimeDown(world))
      ensures environment.Calm? && environment.fault != StopErasureFails && !ready ==>
                RuntimeDown(world) && world.open == old(world.open)
    {
      if ready {
        ok := OpenAdmission();
      } else {
        var compensated := CompensateFailedPrepublication(applied);
        ok := false;
        RebuiltInPlace(old(world), world);
      }
    }

    method PublishRuntime() returns (ok: bool)
      requires Valid()
      modifies this
      ensures Valid() && old(trace) <= trace && owed == old(owed)
      ensures if ok then log == PublishSteps(old(log)) else EndsTakenBack(log)
      ensures ok ==> Published(world)
      ensures ok ==> |old(trace)| + 7 < |trace| && Ran(trace[|trace|-1], Bootstrap(AdmissionOpen))
      ensures !ok ==> GateSafe() || (old(world.open) && world.open)
      ensures Rebuilt(old(world), world)
      ensures NoRuntime(old(world)) && !NoRuntime(world) ==> world.epoch == C13
      ensures environment.Calm? && Publishable(old(world)) ==>
                && (ok <==> environment.fault !in {WorkerNotReady, OpeningLost})
                && (!ok ==> Unpublished(world))
    {
      var ready, applied := Prepublish();
      ok := OpenOrCompensate(ready, applied);
    }

    // ----- start -----

    method IsRollbackRecoveryState(present: set<Service>, oneShot: bool) returns (ok: bool, recovery: bool)
      requires Valid()
      modifies `world, `now, `trace, `log
      ensures Valid() && old(trace) <= trace && Only(trace, |old(trace)|, {PsRunning})
      ensures log == old(log)
      ensures Still(old(world), world)
      ensures ok ==> (recovery <==> IsRecoveryShape(present, oneShot, world.running))
      ensures environment.Calm? ==> ok && (recovery <==> IsRecoveryShape(present, oneShot, old(world.up)))
    {
      if !HasCore(present) || Worker !in present || oneShot {
        return true, false;
      }
      var reply;
      ok, reply := Read(PsRunning);
      DriftKeepsShape(old(world), world);
      recovery := ok && IsRecoveryShape(present, oneShot, reply.services);
    }

    /** Lists the containers and decides whether they are the rollback handoff. */
    method LookForHandoff() returns (ok: bool, present: set<Service>, recovery: bool)
      requires Valid()
      modifies `world, `now, `trace, `log
      ensures Valid() && old(trace) <= trace && Only(trace, |old(trace)|, {PsAll, PsRunning})
      ensures log == old(log)
      ensures Still(old(world), world)
      ensures ok ==> present == world.present
      ensures ok && recovery ==> HasCore(old(world.up)) && Worker in old(world.up)
      ensures environment.Calm? ==> ok && (recovery <==> HandoffShape(old(world)))
    {
      var reply;
      ok, reply := Read(PsAll);
      DriftKeepsShape(old(world), world);
      if !ok { return false, {}, false; }
      present := reply.services;
      ok, recovery := IsRollbackRecoveryState(reply.services, reply.oneShot);
    }

    /** From the rollback handoff to the idle core that a fresh publication needs. */
    method RecoverRollbackStateForStart() returns (ok: bool)
      requires Valid()
      modifies `world, `now, `trace, `log
      ensures Valid() && old(trace) <= trace
      ensures ok ==> log == RecoverySteps(old(log), true)
      ensures world.epoch == old(world.epoch) && (world.open ==> old(world.open))
      ensures ok ==> !world.open && Drained(world) && world.epoch == C12 && NoRuntime(world)
      ensures ok ==> !old(world.open) && Drainable(old(world))
      ensures ok && HasCore(old(world.up)) ==> HasCore(world.up)
      ensures ok && HasCore(old(world.up)) && HasCore(world.running) ==> IsIdleShape(world.present, world.running)
      ensures !ok ==> !world.open || Only(trace, |old(trace)|, {Bootstrap(RollbackRecoveryPreflight), PsAll})
      ensures world.epoch != C12 || old(world.open) ==>
                !ok && Still(old(world), world)
      ensures Sound(old(world)) ==> Sound(world)
      ensures Smooth(environment) && HandoffShape(old(world)) && world.epoch == C12 && !old(world.open) ==> ok
    {
      ok := Certify(RollbackRecoveryPreflight);
      if Sound(old(world)) { StillKeepsSound(old(world), world); }
      if ok {
        ok := FenceAndRemoveRuntime();
      }
    }

    /** Drains the runtime behind a closed gate and removes all of it. */
    method FenceAndRemoveRuntime() returns (ok: bool)
      requires Valid() && !world.open
      modifies `world, `now, `trace, `log
      ensures Valid() && old(trace) <= trace
      ensures ok ==> log == RemovalSteps(old(log))
      ensures world.epoch == old(world.epoch) && !world.open
      ensures ok ==> Drained(world) && NoRuntime(world) && Drainable(old(world))
      ensures ok && HasCore(old(world.up)) ==> HasCore(world.up)
      ensures Sound(old(world)) ==> Sound(world)
      ensures Smooth(environment) && Drainable(old(world)) ==> ok
    {
      ghost var drain;
      ok, drain := FenceAndDrainRuntime();
      if Sound(old(world)) { FenceKeepsSound(old(world), world); }
      if ok {
        ok := RemoveStoppedRuntime();
      }
    }

    /** Removes what a fence leaves of the runtime, and looks. */
    method RemoveStoppedRuntime() returns (ok: bool)
      requires Valid() && RuntimeDown(world) && Worker !in world.present && !world.open && Drained(world)
      modifies `world, `now, `trace, `log
      ensures Valid() && old(trace) <= trace
      ensures ok ==> log == Did(old(log), Remove({Api, Edge, Erasure, Dashboard}))
      ensures !world.open && world.epoch == old(world.epoch) && Drained(world)
      ensures ok ==> NoRuntime(world)
      ensures HasCore(old(world.up)) ==> HasCore(world.up)
      ensures Sound(old(world)) ==> Sound(world)
      ensures environment.Calm? ==> ok
    {
      ok := RemoveServices({Api, Edge, Erasure, Dashboard});
      if ok {
        var reply;
        ok, reply := Read(PsAll);
        ok := ok && NoRuntimeIn(reply.services);
      }
    }

    method CheckIdle(present: set<Service>) returns (ok: bool, coreRunning: bool)
      requires Valid()
      modifies `world, `now, `trace, `log
      ensures Valid() && old(trace) <= trace && Only(trace, |old(trace)|, {PsRunning})
      ensures log == old(log)
      ensures Still(old(world), world)
      ensures ok ==> NoRuntimeIn(present) && (coreRunning <==> !NoCore(present))
      ensures ok ==> IsIdleShape(present, world.running)
      ensures environment.Calm? ==> (ok <==> IsIdleShape(present, old(world.up)))
    {
      coreRunning := false;
      if !NoRuntimeIn(present) { return false, false; }
      if NoCore(present) { return true, false; }
      var reply;
      ok, reply := Read(PsRunning);
      DriftKeepsShape(old(world), world);
      ok := ok && HasCore(present) && HasCore(reply.services);
      coreRunning := true;
    }

    /** Recovers a rollback handoff, if that is what the listing shows. */
    method RecoverHandoff() returns (ok: bool, present: set<Service>, ghost recovered: bool)
      requires Valid()
      modifies `world, `now, `trace, `log
      ensures Valid() && old(trace) <= trace
      ensures if recovered then ok ==> log == RecoverySteps(old(log), true) else log == old(log)
      ensures world.epoch == old(world.epoch) && (world.open ==> old(world.open))
      ensures world.open ==> OnlyStartRefusals(trace, |old(trace)|)
      ensures ok ==> present == world.present
      ensures !recovered ==> Still(old(world), world)
      ensures recovered ==> HasCore(old(world.up)) && Worker in old(world.up)
      ensures ok && recovered ==>
                && old(world.epoch) == C12 && !old(world.open) && !world.open && Drained(world)
                && NoRuntime(world) && HasCore(world.up)
      ensures recovered && (world.epoch != C12 || old(world.open)) ==>
                !ok && Still(old(world), world)
      ensures Sound(old(world)) ==> Sound(world)
      ensures environment.Calm? ==> (recovered <==> HandoffShape(old(world))) && (ok || recovered)
      ensures Smooth(environment) && recovered && world.epoch == C12 && !old(world.open) ==> ok
    {
      var recovery;
      ok, present, recovery := LookForHandoff();
      recovered := ok && recovery;
      StandingStill(old(world), world);
      if Sound(old(world)) { StillKeepsSound(old(world), world); }
      if !ok || !recovery { return; }
      ok, present := RecoverAndList();
    }

    method RecoverAndList() returns (ok: bool, present: set<Service>)
      requires Valid() && HasCore(world.up)
      modifies `world, `now, `trace, `log
      ensures Valid() && old(trace) <= trace
      ensures ok ==> log == RecoverySteps(old(log), true)
      ensures world.epoch == old(world.epoch) && (world.open ==> old(world.open))
      ensures world.open ==> OnlyStartRefusals(trace, |old(trace)|)
      ensures ok ==> present == world.present && NoRuntime(world) && HasCore(world.up)
      ensures ok ==> !old(world.open) && !world.open && Drained(world) && world.epoch == C12
      ensures world.epoch != C12 || old(world.open) ==>
                !ok && Still(old(world), world)
      ensures Sound(old(world)) ==> Sound(world)
      ensures Smooth(environment) && HandoffShape(old(world)) && world.epoch == C12 && !old(world.open) ==> ok
    {
      ok := RecoverRollbackStateForStart();
      present := {};
      if !ok { return; }
      ghost var middle := world;
      var reply;
      ok, reply := Read(PsAll);
      if Sound(old(world)) { DriftKeepsSound(middle, world); }
      DriftKeepsShape(middle, world);
      if ok { present := reply.services; }
    }

    /** The start of `start`: recover a rollback handoff, then insist on an idle core. */
    method StartPreflightShape() returns (ok: bool, coreRunning: bool)
      requires Valid()
      modifies `world, `now, `trace, `log
      ensures Valid() && old(trace) <= trace
      ensures ok ==> log == RecoverySteps(old(log), !NoRuntime(old(world)))
      ensures world.epoch == old(world.epoch) && (world.open ==> old(world.open))
      ensures ok ==> NoRuntime(world) && (coreRunning <==> !NoCore(world.present))
      ensures ok ==> (coreRunning <==> !NoCore(old(world.present)))
      ensures ok ==> IsIdleShape(world.present, world.running)
      ensures ok ==> (NoRuntime(old(world)) && Still(old(world), world))
                     || (old(world.epoch) == C12 && !old(world.open) && HasCore(old(world.up))
                         && Worker in old(world.up))
      ensures world.open ==> OnlyStartRefusals(trace, |old(trace)|)
      ensures NoRuntime(old(world)) ==> Still(old(world), world)
      ensures !Drainable(old(world)) ==> Still(old(world), world)
      ensures Sound(old(world)) ==> Sound(world)
      ensures environment.Calm? && Idle(old(world)) ==> ok
      ensures environment.Calm? && ok ==> NoRuntime(old(world)) || HandoffShape(old(world))
      ensures Smooth(environment) && HandoffShape(old(world)) && world.epoch == C12 && !old(world.open) ==>
                ok && Idle(world) && !world.open
      ensures Smooth(environment) && !ok ==> Still(old(world), world)
    {
      coreRunning := false;
      var present;
      ghost var recovered;
      ok, present, recovered := RecoverHandoff();
      ghost var middle := world;
      if ok {
        ok, coreRunning := CheckIdle(present);
      }
      StandingStill(middle, world);
      if Sound(middle) { StillKeepsSound(middle, world); }
    }

    /** The owner's certificate for `start`: closed, drained, and nobody in session. */
    method CertifyIdle() returns (ok: bool)
      requires Valid() && NoRuntime(world)
      modifies `world, `now, `trace, `log
      ensures Valid() && old(trace) < trace && |trace| <= |old(trace)| + 2
      ensures TriedOwner(log, StartPreflight) && log.before == old(log) && (ok ==> log.ok)
      ensures trace[|old(trace)|].command == Bootstrap(StartPreflight)
      ensures |trace| == |old(trace)| + 2 ==> trace[|old(trace)| + 1].command == PsAll
      ensures SameStack(old(world), world) && NothingLost(old(world), world)
      ensures ok ==> !world.open && Postgres in world.up && Drained(world)
      ensures environment.Calm? && Postgres in old(world.up) && !old(world.open) && Drained(old(world)) ==> ok
    {
      ok := Certify(StartPreflight);
    }

    /** The owner proves the idle database closed and drained, on its own if need be. */
    method StartPreflightOwner(coreRunning: bool) returns (ok: bool)
      requires Valid() && NoRuntime(world) && (coreRunning <==> !NoCore(world.present))
      requires coreRunning ==> HasCore(world.up)
      modifies `world, `now, `trace, `log
      ensures Valid() && old(trace) <= trace && OnlyStartRefusals(trace, |old(trace)|)
      ensures ok ==> log == PreflightSteps(old(log), coreRunning)
      ensures world.open == old(world.open) && world.epoch == old(world.epoch) && Rebuilt(old(world), world)
      ensures old(world.present) <= world.present <= old(world.present) + {Postgres}
      ensures old(world.up) <= world.up <= old(world.up) + {Postgres}
      ensures ok ==> !world.open && Postgres in world.up && Drained(world) && Idle(old(world))
      ensures coreRunning ==> SameStack(old(world), world)
      ensures NothingLost(old(world), world)
      ensures environment.Calm? && environment.fault != PostgresUpFails && Idle(old(world)) && !old(world.open) ==> ok
      ensures CalmBut(environment, PostgresUpFails) && !coreRunning ==>
                !ok && !world.networks.NoNetworks? && world.up == old(world.up)
    {
      ok := true;
      if !coreRunning {
        ok := StartServices({Postgres});
        RebuiltByStart(old(world), world);
      }
      if ok {
        ghost var middle, started := world, trace;
        ok := CertifyIdle();
        PreflightOnlyRefuses(old(trace), started, trace);
        RebuiltInPlace(middle, world);
        if !coreRunning { RebuiltTwice(old(world), middle, world); }
      }
    }

    /** Images, volume and core, with the gate left alone. */
    method PrepareCore(coreRunning: bool) returns (ok: bool)
      requires Valid()
      modifies `world, `now, `trace, `log
      ensures Valid() && old(trace) <= trace
      ensures ok ==> log == CoreSteps(old(log), coreRunning)
      ensures world.open == old(world.open) && world.epoch == old(world.epoch)
      ensures old(world.present) <= world.present
      ensures old(world.up) <= world.up <= old(world.up) + CORE && Rebuilt(old(world), world)
      ensures NoRuntime(world) <==> NoRuntime(old(world))
      ensures environment.Calm? && environment.fault != BuildFails ==> ok
      ensures CalmBut(environment, BuildFails) ==>
                !ok && world.present == old(world.present) && world.up == old(world.up)
    {
      ok := BuildAndPrepareVolume();
      if ok {
        ok := StartServices(if coreRunning then CORE else {Valkey, Seaweedfs});
      }
      RebuiltByStart(old(world), world);
    }

    method BuildAndPrepareVolume() returns (ok: bool)
      requires Valid()
      modifies `world, `now, `trace, `log
      ensures Valid() && old(trace) <= trace
      ensures ok ==> log == Did(Did(old(log), Build), S3VolumeInit)
      ensures Still(old(world), world)
      ensures environment.Calm? ==> (ok <==> environment.fault != BuildFails)
    {
      var reply;
      ok, reply := Read(Build);
      if ok {
        ok := PrepareS3Volume();
      }
    }

    method PrepareS3Volume() returns (ok: bool)
      requires Valid()
      modifies `world, `now, `trace, `log
      ensures Valid() && old(trace) <= trace
      ensures ok ==> log == Did(old(log), S3VolumeInit)
      ensures Still(old(world), world) && (ok ==> !world.residue)
      ensures environment.Calm? ==> ok
    {
      var reply;
      ok, reply := Run(S3VolumeInit);
      LastIsLawful(trace);
      if ok {
        ok := AssertNoOneShotContainer();
      }
    }

    /** The checks of `start` after the network preflight. */
    method CheckStart() returns (ok: bool, coreRunning: bool)
      requires Valid()
      modifies `world, `now, `trace, `log
      ensures Valid() && old(trace) <= trace
      ensures ok ==> log == PreflightSteps(RecoverySteps(old(log), !NoRuntime(old(world))), coreRunning)
      ensures ok ==> (coreRunning <==> !NoCore(old(world.present)))
      ensures world.open ==> old(world.open)
      ensures ok ==> !world.open && Postgres in world.up && NoRuntime(world) && Drained(world)
      ensures ok ==> !old(world.open) && StartableFrom(old(world))
      ensures ok && !coreRunning ==> !HasCore(world.up)
      ensures !ok && world.open ==> OnlyStartRefusals(trace, |old(trace)|)
      ensures Idle(old(world)) ==> Rebuilt(old(world), world) && NoRuntime(world)
      ensures Attachable(old(world)) && Wedged(old(world)) ==> !ok && Wedged(world)
      ensures Sound(old(world)) ==> Sound(world)
      ensures environment.Calm? && ok ==> Idle(old(world)) || HandoffShape(old(world))
      ensures Smooth(environment) && CanStart(environment.keeps, old(world)) ==> ok
      ensures Smooth(environment) && !ok && HasCore(old(world.up)) ==> Still(old(world), world)
      ensures CalmBut(environment, BuildFails) && old(world.present) == {} && Idle(old(world)) && !old(world.open) ==>
                ok && !coreRunning
      ensures CalmBut(environment, PostgresUpFails) && old(world.present) == {} ==>
                !ok && (Attachable(old(world)) && Idle(old(world)) ==> Wedged(world))
    {
      ok, coreRunning := StartPreflightShape();
      ghost var middle := world;
      if !Drainable(old(world)) || NoRuntime(old(world)) { StandingStill(old(world), middle); }
      if ok {
        ok := StartPreflightOwner(coreRunning);
        if Sound(old(world)) { StillKeepsSound(middle, world); }
        if Attachable(middle) && Wedged(middle) { OwnerStillRefuses(middle, world); }
        if NoRuntime(old(world)) { RebuiltTwice(old(world), middle, world); }
      }
    }

    method PublishIdle(coreRunning: bool) returns (ok: bool)
      requires Valid() && !world.open && NoRuntime(world) && Postgres in world.up && Drained(world)
      modifies this
      ensures Valid() && old(trace) <= trace && owed == old(owed)
      ensures ok ==> log == PublishSteps(CoreSteps(old(log), coreRunning))
      ensures ok ==> Published(world)
      ensures ok ==> |old(trace)| + 7 < |trace| && Ran(trace[|trace|-1], Bootstrap(AdmissionOpen))
      ensures !ok ==> GateSafe()
      ensures Rebuilt(old(world), world) && (!NoRuntime(world) ==> world.epoch == C13)
      ensures CalmBut(environment, NoFault) ==> ok
      ensures environment.Calm? && environment.fault in {WorkerNotReady, OpeningLost} ==> !ok && Unpublished(world)
      ensures CalmBut(environment, BuildFails) ==>
                !ok && world.present == old(world.present) && world.up == old(world.up)
    {
      ok := PrepareCore(coreRunning);
      if ok {
        ghost var middle := world;
        ok := PublishRuntime();
        RebuiltTwice(old(world), middle, world);
      }
    }

    method Start() returns (ok: bool)
      requires Valid()
      modifies this
      ensures Valid() && old(trace) <= trace && owed == old(owed)
      ensures ok ==> log == StartSteps(old(log), !NoRuntime(old(world)), !NoCore(old(world.present)))
      ensures ValidatedFirst(trace, |old(trace)|) && (!trace[|old(trace)|].ok ==> !ok && Still(old(world), world))
      ensures ok ==> Published(world)
      ensures ok ==> |old(trace)| + 7 < |trace| && Ran(trace[|trace|-1], Bootstrap(AdmissionOpen))
      ensures ok ==> Attachable(old(world)) && !old(world.open) && StartableFrom(old(world))
      ensures !ok ==> GateSafe() || (old(world.open) && OnlyStartRefusals(trace, |old(trace)|))
      ensures Wedged(old(world)) ==> !ok && Wedged(world)
      ensures !ok && !Wedged(old(world)) ==>
                (Wedged(world) <==> !Attachable(world) || (Worker !in world.up && !NoRuntime(world)))
      ensures !Wedged(old(world)) && !old(world.networks).NoNetworks? ==> Attachable(world)
      ensures Misfit(old(world)) ==> !ok && world == Settled(environment.keeps, old(world))
      ensures CalmStart(environment, ok, old(world), world)
      ensures environment.Calm? && ok ==> CanStart(environment.keeps, old(world))
    {
      ok := ValidateRenderedConfiguration();
      ghost var first, checked := world, trace;
      DriftKeepsShape(old(world), first);
      if ok {
        ok := StartValidated();
        CalmStartBefore(environment, ok, old(world), first, world);
      } else {
        RefusedStart(environment, old(world), first);
      }
      RefusalsFirst(checked, trace);
      if Still(first, world) { StillTwice(old(world), first, world); }
    }

    /** `start` after the network preflight. */
    method StartValidated() returns (ok: bool)
      requires Valid() && Attachable(world)
      modifies this
      ensures Valid() && old(trace) <= trace && owed == old(owed)
      ensures ok ==> log == ValidatedSteps(old(log), !NoRuntime(old(world)), !NoCore(old(world.present)))
      ensures ok ==> Published(world)
      ensures ok ==> |old(trace)| + 7 < |trace| && Ran(trace[|trace|-1], Bootstrap(AdmissionOpen))
      ensures ok ==> !old(world.open) && StartableFrom(old(world))
      ensures !ok ==> GateSafe() || (old(world.open) && OnlyStartRefusals(trace, |old(trace)|))
      ensures Wedged(old(world)) ==> !ok && Wedged(world)
      ensures !ok && !Wedged(old(world)) ==>
                (Wedged(world) <==> !Attachable(world) || (Worker !in world.up && !NoRuntime(world)))
      ensures !Wedged(old(world)) && !old(world.networks).NoNetworks? ==> Attachable(world)
      ensures environment.Calm? && ok ==> Idle(old(world)) || HandoffShape(old(world))
      ensures CalmStart(environment, ok, old(world), world)
    {
      var coreRunning;
      ok, coreRunning := CheckStart();
      ghost var middle := world;
      if ok {
        ok := PublishIdle(coreRunning);
        if Sound(middle) { RebuildingKeepsSound(middle, world); }
        if Idle(old(world)) { RebuiltTwice(old(world), middle, world); }
      }
      SoundIs(old(world));
      SoundIs(world);
      if !ok && Idle(old(world)) && old(world.networks).NoNetworks? { FirstStartFailed(old(world), world); }
    }

    // ----- upgrade and rollback -----

    /** The common beginning of `upgrade` and `rollback`. */
    method ValidateAndFence() returns (ok: bool, ghost drain: nat)
      requires Valid()
      modifies `world, `now, `trace, `log
      ensures Valid() && old(trace) <= trace
      ensures ok ==> log == FenceSteps(Did(old(log), ValidateConfiguration))
      ensures ValidatedFirst(trace, |old(trace)|) && (!trace[|old(trace)|].ok ==> !ok && Still(old(world), world))
      ensures OnlyCheckedFences(trace, |old(trace)|)
      ensures Fenced(old(world), world) && SameReceipts(environment, old(world), world)
      ensures ok ==> trace[|old(trace)|].ok && !world.open && Drained(world)
      ensures ok ==> Drainable(old(world)) && Attachable(old(world))
      ensures ok ==> RuntimeDown(world) && Worker !in world.present
      ensures ok ==> |old(trace)| <= drain < |trace| && SeenDrained(trace[drain])
      ensures !ok ==> GateSafe()
                      || (old(world.open) && world.present == old(world.present)
                          && OnlyEarlyStops(trace, |old(trace)|))
      ensures Wedged(old(world)) ==> !ok && Wedged(world)
      ensures Idle(old(world)) ==> !ok && Idle(world) && world.present == old(world.present)
      ensures Sound(old(world)) ==> Sound(world)
      ensures Misfit(old(world)) ==> !ok && world == Settled(environment.keeps, old(world))
      ensures environment.Calm? && environment.fault !in {DrainCountFails, StopErasureFails} ==>
                (ok <==> CanUpgrade(environment.keeps, old(world)))
      ensures CalmBut(environment, DrainCountFails) && CanUpgrade(environment.keeps, old(world)) ==>
                !ok && Wedged(world)
      ensures CalmBut(environment, StopErasureFails) && StageFits(environment.keeps, old(world)) ==>
                !ok && world.present == old(world.present) && world.up == old(world.up) - INGRESS
      ensures CalmBut(environment, NoFault) && StageFits(environment.keeps, old(world)) ==>
                CalmlyFenced(ok, old(world), world)
      ensures CalmBut(environment, NoFault) && old(world.networks).NoNetworks? ==> !ok && Wedged(world)
    {
      drain := 0;
      ok := ValidateRenderedConfiguration();
      ghost var middle, checked := world, trace;
      DriftKeepsShape(old(world), middle);
      if ok {
        ok, drain := FenceAndDrainRuntime();
      }
      CheckedFirst(checked, trace);
      FenceFacts(old(world), middle, world);
    }

    /** New images, and PostgreSQL again on its volume. */
    method RebuildPostgres() returns (ok: bool)
      requires Valid()
      modifies `world, `now, `trace, `log
      ensures Valid() && old(trace) <= trace
      ensures ok ==> log == Did(Did(old(log), Build), Recreate({Postgres}))
      ensures world.open == old(world.open) && world.epoch == old(world.epoch) && Preserved(old(world), world)
      ensures ok ==> Postgres in world.up
      ensures environment.Calm? ==> (ok <==> environment.fault !in {BuildFails, RecreationFails})
      ensures environment.Calm? && ok && Publishable(old(world)) ==> Publishable(world)
      ensures CalmBut(environment, BuildFails) ==> world.present == old(world.present) && world.up == old(world.up)
      ensures CalmBut(environment, RecreationFails) ==> Postgres !in world.up
    {
      var reply;
      ok, reply := Read(Build);
      DriftKeepsShape(old(world), world);
      if ok {
        ok := RecreatePostgres();
      }
      PreservedByRecreation(old(world), world);
    }

    method RepublishFenced() returns (ok: bool)
      requires Valid() && !world.open
      modifies this
      ensures Valid() && old(trace) <= trace && owed == old(owed)
      ensures ok ==> log == RepublishSteps(old(log))
      ensures ok ==> Published(world)
      ensures ok ==> |old(trace)| + 7 < |trace| && Ran(trace[|trace|-1], Bootstrap(AdmissionOpen))
      ensures !ok ==> GateSafe()
      ensures Preserved(old(world), world) && (old(world.epoch) in {C12, C13} ==> world.epoch in {C12, C13})
      ensures environment.Calm? && environment.fault !in {BuildFails, RecreationFails} && Publishable(old(world)) ==>
                && (ok <==> environment.fault !in {WorkerNotReady, OpeningLost})
                && (!ok ==> Unpublished(world))
      ensures CalmBut(environment, BuildFails) ==>
                !ok && world.present == old(world.present) && world.up == old(world.up)
      ensures CalmBut(environment, RecreationFails) ==> !ok && Postgres !in world.up
    {
      ok := RebuildPostgres();
      if ok {
        ghost var middle := world;
        ok := PublishRuntime();
        PreservedTwice(old(world), middle, world);
      }
    }

    method Upgrade() returns (ok: bool, ghost drain: nat)
      requires Valid()
      modifies this
      ensures Valid() && old(trace) <= trace && owed == old(owed)
      ensures ok ==> log == UpgradeSteps(old(log))
      ensures ValidatedFirst(trace, |old(trace)|) && (!trace[|old(trace)|].ok ==> !ok && Still(old(world), world))
      ensures ok ==> Published(world)
      ensures ok ==> |old(trace)| + 7 < |trace| && Ran(trace[|trace|-1], Bootstrap(AdmissionOpen))
      ensures ok ==> Attachable(old(world)) && Drainable(old(world))
      ensures NoFewer(old(world.networks), world.networks)
      ensures ok ==> |old(trace)| <= drain < |trace| && SeenDrained(trace[drain])
      ensures !ok ==> GateSafe()
                      || (old(world.open) && world.present == old(world.present)
                          && OnlyEarlyStops(trace, |old(trace)|))
      ensures Wedged(old(world)) ==> !ok && Wedged(world)
      ensures Idle(old(world)) ==> !ok && Idle(world) && world.present == old(world.present)
      ensures !ok && !Wedged(old(world)) && Drainable(old(world)) ==>
                (Wedged(world) <==> Postgres !in world.up || (Worker !in world.up && !NoRuntime(world)))
      ensures Misfit(old(world)) ==> !ok && world == Settled(environment.keeps, old(world))
      ensures CalmBut(environment, NoFault) ==> (ok <==> CanUpgrade(environment.keeps, old(world)))
      ensures CalmBut(environment, NoFault) && StageFits(environment.keeps, old(world)) && !ok ==>
                CalmlyFenced(ok, old(world), world) && Fenced(old(world), world)
      ensures environment.Calm? && CanUpgrade(environment.keeps, old(world)) ==>
                && (environment.fault in {DrainCountFails, RecreationFails} ==> !ok && Wedged(world))
                && (environment.fault in {WorkerNotReady, OpeningLost} ==> !ok && Unpublished(world))
                && (environment.fault == BuildFails && MoreThanWorker(old(world)) ==> !ok && Wedged(world))
      ensures CalmBut(environment, StopErasureFails) && StageFits(environment.keeps, old(world)) ==>
                !ok && SameButIngress(old(world), world)
      ensures CalmBut(environment, NoFault) && old(world.networks).NoNetworks? ==> !ok && Wedged(world)
    {
      ok, drain := ValidateAndFence();
      SoundIs(old(world));
      SoundIs(world);
      if !ok { return; }
      ghost var fenced, middle := trace, world;
      ok := RepublishFenced();
      assert trace[drain] == fenced[drain] && trace[|old(trace)|] == fenced[|old(trace)|];
      UpgradeLeaves(old(world), middle, world);
    }

    /** The owner's certificate of a refusal that changed nothing. */
    method CertifyRefusal() returns (ok: bool)
      requires Valid() && RuntimeDown(world)
      modifies `world, `now, `trace, `log
      ensures Valid() && old(trace) < trace && |trace| <= |old(trace)| + 2
      ensures TriedOwner(log, RefusalRecoveryPreflight) && log.before == old(log) && (ok ==> log.ok)
      ensures trace[|old(trace)|].command == Bootstrap(RefusalRecoveryPreflight)
      ensures |trace| == |old(trace)| + 2 ==> trace[|old(trace)| + 1].command == PsAll
      ensures ok ==> trace[|old(trace)|].ok && |trace| == |old(trace)| + 2
      ensures Still(old(world), world) && Rebuilt(old(world), world)
      ensures environment.Calm? ==>
                && (ok ==> world.epoch == C13 && old(world.executorActive))
                && (world.epoch == C13 && old(world.executorActive) && !world.open && Postgres in old(world.up) ==> ok)
    {
      ok := Certify(RefusalRecoveryPreflight);
      RebuiltInPlace(old(world), world);
    }

    /** After a failed owner rollback: only the owner's certificate lets the worker come back. */
    method RecoverRefusedRollback()
      requires Valid() && !world.open && RuntimeDown(world)
      modifies `world, `now, `trace, `log
      ensures Valid() && old(trace) <= trace
      ensures || TriedOwner(log, RefusalRecoveryPreflight) || WorkerTakenBack(log)
              || log == RestoreSteps(DidOwner(old(log), RefusalRecoveryPreflight))
      ensures world.epoch == old(world.epoch) && !world.open
      ensures CoreKept(old(world), world) && world.present <= old(world.present) + CORE + {Worker}
      ensures WorkerReturnsCertified(trace, |old(trace)|)
      ensures NoOwnerRollback(trace, |old(trace)|)
      ensures environment.Calm? && !(world.epoch == C13 && old(world.executorActive)) ==>
                world.present == old(world.present) && world.up == old(world.up)
      ensures environment.Calm? && environment.fault != WorkerNotReady && world.epoch == C13
              && old(world.executorActive) && Postgres in old(world.up)
              ==>
                && HandedBack(world) && |old(trace)| < |trace|
                && Ran(trace[|old(trace)|], Bootstrap(RefusalRecoveryPreflight))
    {
      ghost var n := |trace|;
      var ok := CertifyRefusal();
      if !ok { return; }
      ghost var asked, checked, middle := trace[n], trace[n+1], world;
      ok := RestoreClosedWorkerAfterRollback();
      RebuiltTwice(old(world), middle, world);
      assert trace[n] == asked && trace[n+1] == checked;
      CertifiedRestore(trace, n);
    }

    /** After a committed owner rollback the worker comes back; after any other answer, only with a certificate. */
    method RestoreOrRecover(committed: bool, ghost n: nat) returns (ok: bool)
      requires Valid() && !world.open && RuntimeDown(world)
      requires n + (if committed then 2 else 1) <= |trace| <= n + 2 && trace[n].command == Bootstrap(OwnerRollback)
      requires |trace| == n + 2 ==> trace[n+1].command == PsAll
      requires committed ==> trace[n].ok
      modifies `world, `now, `trace, `log
      ensures Valid() && old(trace) <= trace
      ensures ok ==> log == RestoreSteps(old(log))
      ensures !world.open && world.epoch == old(world.epoch)
      ensures CoreKept(old(world), world) && world.present <= old(world.present) + CORE + {Worker}
      ensures ok ==> committed && HandedBack(world)
      ensures NoOwnerRollback(trace, n + 1)
      ensures WorkerReturnsCertified(trace, n)
      ensures environment.Calm? && committed && Postgres in old(world.up) && world.epoch != Fresh ==>
                && (ok <==> environment.fault != WorkerNotReady)
                && (!ok ==> Worker in world.present && Worker !in world.up)
      ensures environment.Calm? && !committed && !(world.epoch == C13 && old(world.executorActive)) ==>
                world.present == old(world.present) && world.up == old(world.up)
      ensures CalmBut(environment, NoFault) && !committed && |old(trace)| == n + 1 && !trace[n].ok ==>
                (Postgres in old(world.up) && world.epoch == C13 && old(world.executorActive) ==>
                   HandedBack(world) && RefusalCertified(trace, n))
    {
      ghost var tr := trace;
      if committed {
        ok := RestoreClosedWorkerAfterRollback();
        assert trace[n] == tr[n] && trace[n+1] == tr[n+1];
        CertifiedRestore(trace, n);
      } else {
        RecoverRefusedRollback();
        ok := false;
        assert forall i :: n <= i < |tr| ==> trace[i] == tr[i];
      }
    }

    /** The owner's rollback, which may have committed even if it reports failure. */
    method AskForRollback() returns (ok: bool)
      requires Valid() && !world.open && world.epoch in {C12, C13} && RuntimeDown(world)
      modifies `world, `now, `trace, `log
      ensures Valid() && old(trace) <= trace && |old(trace)| < |trace| <= |old(trace)| + 2
      ensures TriedOwner(log, OwnerRollback) && log.before == old(log) && (ok ==> log.ok)
      ensures trace[|old(trace)|].command == Bootstrap(OwnerRollback)
      ensures ok ==> trace[|old(trace)|].ok && |trace| == |old(trace)| + 2
      ensures |trace| == |old(trace)| + 2 ==> trace[|old(trace)| + 1].command == PsAll
      ensures world.present == old(world.present) && world.up == old(world.up) && NothingLost(old(world), world)
      ensures !world.open && world.epoch in {C11, C12, C13}
      ensures ok ==> world.epoch == (if old(world.epoch) == C13 then C12 else C11)
      ensures environment.Calm? ==>
                && world.executorActive == old(world.executorActive)
                && (ok <==> trace[|old(trace)|].ok)
                && (!ok ==> world.epoch == old(world.epoch) && |trace| == |old(trace)| + 1)
                && (Postgres in old(world.up) && Drained(old(world)) ==>
                      (ok <==> OwnerAgrees(old(world)) && environment.fault != RollbackFails))
                && (environment.fault == RollbackFails ==> !ok)
    {
      ok := RunBootstrap(OwnerRollback);
    }

    method RollbackFenced() returns (ok: bool)
      requires Valid() && !world.open && world.epoch in {C12, C13} && RuntimeDown(world)
      modifies `world, `now, `trace, `log
      ensures Valid() && old(trace) <= trace
      ensures ok ==> log == RestoreSteps(DidOwner(old(log), OwnerRollback))
      ensures !world.open && world.epoch in {C11, C12, C13}
      ensures Preserved(old(world), world) && world.present <= old(world.present) + CORE + {Worker}
      ensures ok ==> HandedBack(world)
      ensures ok ==> world.epoch == (if old(world.epoch) == C13 then C12 else C11)
      ensures Postgres in old(world.up) ==> Postgres in world.up
      ensures |old(trace)| < |trace| && trace[|old(trace)|].command == Bootstrap(OwnerRollback)
      ensures !trace[|old(trace)|].ok ==> !ok
      ensures NoOwnerRollback(trace, |old(trace)| + 1)
      ensures WorkerReturnsCertified(trace, |old(trace)|)
      ensures CalmBut(environment, NoFault) && Postgres in old(world.up) && Drained(old(world)) ==>
                && (ok <==> OwnerAgrees(old(world)))
                && (!ok ==> world.epoch == old(world.epoch))
                && (!ok && world.epoch == C13 ==> HandedBack(world) && RefusalCertified(trace, |old(trace)|))
                && (!ok && world.epoch == C12 ==> world.present == old(world.present) && world.up == old(world.up))
      ensures CalmBut(environment, WorkerNotReady) && Postgres in old(world.up) && Drained(old(world)) ==>
                (OwnerAgrees(old(world)) ==> !ok && Worker in world.present && Worker !in world.up)
      ensures CalmBut(environment, RollbackFails) && OwnerAgrees(old(world)) ==>
                !ok && world.present == old(world.present) && world.up == old(world.up)
    {
      ghost var n := |trace|;
      ok := AskForRollback();
      ghost var tr, middle, committed := trace, world, ok;
      ok := RestoreOrRecover(ok, n);
      PreservedByOwner(old(world), middle, world);
      assert trace[n] == tr[n];
    }

    method Rollback() returns (ok: bool)
      requires Valid()
      modifies `world, `now, `trace, `log
      ensures Valid() && old(trace) <= trace
      ensures ok ==> log == RollbackSteps(old(log))
      ensures ValidatedFirst(trace, |old(trace)|) && (!trace[|old(trace)|].ok ==> !ok && Still(old(world), world))
      ensures world.open ==> old(world.open)
      ensures ok ==> !world.open && HandedBack(world) && Drainable(old(world)) && Attachable(old(world))
      ensures ok ==> world.epoch == (if old(world.epoch) == C13 then C12 else C11)
      ensures ok ==> (Wedged(world) <==> old(world.epoch) == C12)
      ensures !ok ==> GateSafe()
                      || (old(world.open) && world.present == old(world.present)
                          && OnlyEarlyStops(trace, |old(trace)|))
      ensures ok ==> exists k :: |old(trace)| <= k < |trace| && Ran(trace[k], Bootstrap(OwnerRollback))
      ensures ok ==> NoFailedRollback(trace, |old(trace)|)
      ensures WorkerReturnsCertified(trace, |old(trace)|)
      ensures Wedged(old(world)) ==> !ok && Wedged(world)
      ensures Idle(old(world)) ==> !ok && Idle(world)
      ensures !ok && !Wedged(old(world)) && Drainable(old(world)) ==>
                (Wedged(world) <==> (Worker !in world.up || world.epoch == C11) && !NoRuntime(world))
      ensures Misfit(old(world)) ==> !ok && world == Settled(environment.keeps, old(world))
      ensures CalmBut(environment, NoFault) ==> (ok <==> CanRollBack(environment.keeps, old(world)))
      ensures CalmBut(environment, NoFault) && CanUpgrade(environment.keeps, old(world)) ==>
                RolledBack(ok, old(world), world) && SamePublic(old(world), world)
      ensures CalmBut(environment, NoFault) && CanUpgrade(environment.keeps, old(world)) && !ok && world.epoch == C13
              ==> exists k :: RefusalCertified(trace, k)
      ensures environment.Calm? && CanUpgrade(environment.keeps, old(world)) ==>
                && (environment.fault == DrainCountFails ==> !ok && Wedged(world))
                && (environment.fault == WorkerNotReady && OwnerAgrees(old(world)) ==> !ok && Wedged(world))
                && (environment.fault == RollbackFails && OwnerAgrees(old(world)) && MoreThanWorker(old(world)) ==>
                      !ok && Wedged(world))
      ensures CalmBut(environment, StopErasureFails) && StageFits(environment.keeps, old(world)) ==>
                !ok && SameButIngress(old(world), world)
      ensures CalmBut(environment, NoFault) && old(world.networks).NoNetworks? ==> !ok && Wedged(world)
    {
      ghost var drain;
      ok, drain := ValidateAndFence();
      SoundIs(old(world));
      SoundIs(world);
      if !ok { return; }
      ghost var fenced, middle := trace, world;
      ok := RollbackFenced();
      FenceThenRestore(fenced, trace, |old(trace)|);
      RollbackLeaves(old(world), middle, world);
    }

    // ----- any number of operations -----

    method Perform(op: Operation) returns (ok: bool)
      requires Valid()
      modifies this
      ensures Valid() && old(trace) <= trace && owed == old(owed)
      ensures ValidatedFirst(trace, |old(trace)|) && (!trace[|old(trace)|].ok ==> !ok && Still(old(world), world))
      ensures !old(world.open) && world.open ==>
                (ok && op != RollbackStack) || (|old(trace)| < |trace| && EndsInFailedProof(trace))
      ensures Wedged(old(world)) ==> !ok && Wedged(world)
      ensures Misfit(old(world)) ==> !ok && world == Settled(environment.keeps, old(world))
    {
      ghost var drain;
      match op
      case StartStack => ok := Start();
      case UpgradeStack => ok, drain := Upgrade();
      case RollbackStack => ok := Rollback();
    }

    /**
     Any sequence of operations, each of which may fail anywhere: the gate ends up open only if it was open,
     or a publication succeeded, or a closed-gate proof failed and was raised. A wedged stack stays wedged, and so
     does one that fits no stage on a calm engine.
     */
    method Operate(ops: seq<Operation>) returns (oks: seq<bool>)
      requires Valid()
      modifies this
      ensures Valid() && old(trace) <= trace && |oks| == |ops| && owed == old(owed)
      ensures |old(trace)| + |ops| <= |trace|
      ensures owed == {} ==> forall k :: 0 <= k < |trace| && FailedOpening(trace[k]) ==> FencedAt(trace, k)
      ensures world.open ==>
                old(world.open) || PublishedSince(ops, oks) || FailedProofSince(trace, |old(trace)|)
      ensures Wedged(old(world)) ==> Wedged(world) && forall k :: 0 <= k < |oks| ==> !oks[k]
      ensures Misfit(old(world)) ==> Misfit(world) && forall k :: 0 <= k < |oks| ==> !oks[k]
    {
      oks := [];
      for k := 0 to |ops|
        invariant Valid() && old(trace) <= trace && |oks| == k && owed == old(owed)
        invariant |old(trace)| + k <= |trace|
        invariant world.open ==>
                    old(world.open) || PublishedSince(ops, oks) || FailedProofSince(trace, |old(trace)|)
        invariant Wedged(old(world)) ==> Wedged(world) && forall j :: 0 <= j < k ==> !oks[j]
        invariant Misfit(old(world)) ==> Misfit(world) && forall j :: 0 <= j < k ==> !oks[j]
      {
        ghost var tr, were, wasOpen := trace, oks, world.open;
        var ok := Perform(ops[k]);
        oks := oks + [ok];
        PublishedStays(ops, were, ok);
        FailedProofStays(tr, trace, |old(trace)|);
        assert !wasOpen && world.open && !(ok && ops[k] != RollbackStack) ==> EndsInFailedProof(trace);
      }
      if owed == {} {
        forall k: nat | k < |trace| && FailedOpening(trace[k]) ensures FencedAt(trace, k) { AllFenced(trace, k); }
      }
    }
  }

  // ----- what the phases of an operation leave -----

  /** Starting PostgreSQL alone and asking the owner does not make a refused idle stack acceptable. */
  lemma OwnerStillRefuses(w: World, w': World)
    requires WellFormed(w) && WellFormed(w') && NoRuntime(w) && Attachable(w) && Wedged(w)
    requires w'.open == w.open && w'.epoch == w.epoch && NothingLost(w, w')
    requires w.present <= w'.present <= w.present + {Postgres} && w.up <= w'.up <= w.up + {Postgres}
    requires HasCore(w.up) ==> SameStack(w, w')
    ensures Wedged(w')
  {
  }

  /** From nothing at all: what a failed first start must leave to be wedged. */
  lemma FirstStartFailed(w: World, w': World)
    requires WellFormed(w) && WellFormed(w') && Idle(w) && w.networks.NoNetworks? && Rebuilt(w, w')
    requires !NoRuntime(w') ==> w'.epoch == C13
    requires w'.networks.NoNetworks? ==> !w'.open
    ensures Wedged(w') <==> !Attachable(w') || (Worker !in w'.up && !NoRuntime(w'))
  {
  }

  /** What the fence means for the next operation, after a look that changed nothing. */
  lemma FenceFacts(w: World, m: World, w': World)
    requires WellFormed(w) && WellFormed(w') && Drift(w, m) && Fenced(m, w')
    ensures Fenced(w, w') && (Idle(w) ==> !Drainable(w))
    ensures w'.present == w.present ==> (Idle(w) <==> Idle(w'))
    ensures w'.present == w.present && Attachable(w) && Wedged(w) ==> Wedged(w')
    ensures Sound(w) && (Worker !in w'.present ==> Drained(w') || Worker !in w.present) ==> Sound(w')
    ensures Drainable(w) && RuntimeDown(w') && w'.present == w.present ==> Wedged(w')
  {
    DriftIsTransitive(w, m, m);
    DriftKeepsShape(w, m);
    FencedTwice(w, m, w');
    if w'.present == w.present { FencingKeepsIdle(w, w'); }
    if Sound(w) && (Worker !in w'.present ==> Drained(w') || Worker !in w.present) { FenceKeepsSound(w, w'); }
  }

  /** What holds of the commands after the preflight holds, but for the preflight, of all. */
  lemma CheckedFirst(checked: seq<Event>, tr: seq<Event>)
    requires checked != [] && checked <= tr && checked[|checked|-1].command == ValidateConfiguration
    requires OnlyFences(tr, |checked|) && (!checked[|checked|-1].ok ==> |tr| == |checked|)
    ensures ValidatedFirst(tr, |checked| - 1) && tr[|checked|-1] == checked[|checked|-1]
    ensures OnlyCheckedFences(tr, |checked| - 1)
    ensures OnlyEarlyStops(tr, |checked|) ==> OnlyEarlyStops(tr, |checked| - 1)
  {
  }

  lemma RefusalsFirst(checked: seq<Event>, tr: seq<Event>)
    requires checked != [] && checked <= tr && checked[|checked|-1].command == ValidateConfiguration
    requires !checked[|checked|-1].ok ==> |tr| == |checked|
    ensures ValidatedFirst(tr, |checked| - 1) && tr[|checked|-1] == checked[|checked|-1]
    ensures OnlyStartRefusals(tr, |checked|) ==> OnlyStartRefusals(tr, |checked| - 1)
  {
  }

  lemma PreflightOnlyRefuses(a: seq<Event>, b: seq<Event>, c: seq<Event>)
    requires a <= b < c && |b| <= |a| + 1 && |c| <= |b| + 2
    requires |b| == |a| + 1 ==> b[|a|].command == Up({Postgres})
    requires c[|b|].command == Bootstrap(StartPreflight) && (|c| == |b| + 2 ==> c[|b|+1].command == PsAll)
    ensures OnlyStartRefusals(c, |a|)
  {
  }

  lemma FencedTwice(a: World, b: World, c: World)
    requires WellFormed(a) && Fenced(a, b) && Fenced(b, c)
    ensures Fenced(a, c)
  {
  }

  lemma PreservedByRecreation(w: World, w': World)
    requires WellFormed(w) && NothingLost(w, w')
    requires w.present - {Postgres} <= w'.present && w.up - {Postgres} <= w'.up
    ensures Preserved(w, w')
  {
  }

  /** The upgrade failed after its fence, with the core up on all networks. */
  lemma UpgradeLeaves(w: World, m: World, w': World)
    requires WellFormed(w) && WellFormed(m) && WellFormed(w') && Fenced(w, m) && Preserved(m, w')
    requires Attachable(w) && Drainable(w) && Drained(m) && RuntimeDown(m) && Worker !in m.present
    requires w'.epoch in {C12, C13}
    ensures Wedged(w') <==> Postgres !in w'.up || (Worker !in w'.up && !NoRuntime(w'))
    ensures MoreThanWorker(w) && w'.present == m.present && w'.up == m.up ==> Wedged(w')
  {
  }

  lemma PreservedByOwner(a: World, b: World, c: World)
    requires WellFormed(a) && NothingLost(a, b) && b.present == a.present && b.up == a.up && CoreKept(b, c)
    ensures Preserved(a, c)
  {
    RebuiltInPlace(a, b.(epoch := a.epoch));
  }

  lemma FenceThenRestore(fenced: seq<Event>, tr: seq<Event>, lo: nat)
    requires fenced < tr && lo < |fenced| && OnlyCheckedFences(fenced, lo) && ValidatedFirst(fenced, lo)
    requires WorkerReturnsCertified(tr, |fenced|) && NoOwnerRollback(tr, |fenced| + 1) && fenced[lo].ok
    ensures WorkerReturnsCertified(tr, lo) && ValidatedFirst(tr, lo) && tr[lo].ok
    ensures tr[|fenced|].ok ==> NoFailedRollback(tr, lo)
  {
    assert forall i :: 0 <= i < |fenced| ==> tr[i] == fenced[i];
  }

  /** After the owner's part and the restoration of the worker, or the attempts at them. */
  lemma RollbackLeaves(w: World, m: World, w': World)
    requires WellFormed(w) && WellFormed(m) && WellFormed(w') && Fenced(w, m) && Preserved(m, w')
    requires Attachable(w) && Drainable(w) && Drained(m) && RuntimeDown(m) && Worker !in m.present
    requires Postgres in w'.up && w'.epoch in {C11, C12, C13} && w'.present <= m.present + CORE + {Worker}
    ensures SamePublic(w, w') && w'.networks.AllNetworks?
    ensures Worker in w'.present && Worker !in w'.up ==> Wedged(w')
    ensures MoreThanWorker(w) && w'.present == m.present && w'.up == m.up ==> Wedged(w')
    ensures Wedged(w') <==> (Worker !in w'.up || w'.epoch == C11) && !NoRuntime(w')
  {
  }

  lemma PublishedStays(ops: seq<Operation>, oks: seq<bool>, ok: bool)
    ensures PublishedSince(ops, oks) ==> PublishedSince(ops, oks + [ok])
    ensures |oks| < |ops| && ok && ops[|oks|] != RollbackStack ==> PublishedSince(ops, oks + [ok])
  {
    var next := oks + [ok];
    if PublishedSince(ops, oks) {
      var k :| 0 <= k < |oks| && k < |ops| && oks[k] && ops[k] != RollbackStack;
      assert next[k];
    }
    if |oks| < |ops| && ok && ops[|oks|] != RollbackStack {
      assert next[|oks|];
    }
  }

  lemma FailedProofStays(tr: seq<Event>, tr': seq<Event>, lo: nat)
    requires tr <= tr' && lo <= |tr|
    ensures FailedProofSince(tr, lo) ==> FailedProofSince(tr', lo)
    ensures |tr| < |tr'| && EndsInFailedProof(tr') ==> FailedProofSince(tr', lo)
  {
    if FailedProofSince(tr, lo) {
      var i :| lo <= i < |tr| && tr[i].command == Bootstrap(AdmissionAssertClosed) && !tr[i].ok;
      assert tr'[i] == tr[i];
    }
  }

  /**
   What a rollback hands back is recognised by the next `start`, whatever happened in between, exactly while the
   core and the worker run; `upgrade` then finds its worker running, and from 0013 both can go on.
   */
  lemma HandoffIsRecognised(w: World, w': World)
    requires WellFormed(w) && HandedBack(w) && Drift(w, w')
    ensures IsRecoveryShape(w'.present, w'.residue, w'.running) <==> HasCore(w'.running) && Worker in w'.running
    ensures NoPublic(w'.running) && (Drainable(w') <==> w.epoch in {C12, C13})
  {
    DriftKeepsShape(w, w');
  }

  /** Any world that drift can reach. */
  method Drifted(w: World, env: Environment) returns (w': World)
    requires WellFormed(w) && (env.Calm? ==> OnEngine(env.keeps, w))
    ensures Drift(w, w') && WellFormed(w') && (env.Calm? ==> w' == Settled(env.keeps, w))
  {
    if env.Calm? {
      SettlingIsDrift(env.keeps, w);
      return Settled(env.keeps, w);
    }
    assert Drift(w, w);
    w' :| Drift(w, w');
    DriftIsTransitive(w, w', w');
  }

  /** Any outcome that the command allows. */
  method Attempt(c: Command, before: World, env: Environment) returns (e: Event)
    requires WellFormed(before)
    ensures Chained([e]) && e.command == c && e.before == before
    ensures env.Calm? ==> CalmOutcome(env.fault, e)
  {
    if env.Calm? {
      CalmEventIsLawful(env.fault, c, before);
      return CalmEvent(env.fault, c, before);
    }
    CalmEventIsLawful(NoFault, c, before);
    e :| Chained([e]) && e.command == c && e.before == before;
  }

  function CalmEvent(f: Fault, c: Command, w: World): Event {
    if Grants(c, w) && !Faulty(f, c) then Event(c, w, true, Answer(c, w), Effect(c, w))
    else Event(c, w, false, Nothing, Unfinished(f, c, w))
  }

  function Answer(c: Command, w: World): Reply {
    match c
    case PsAll => Services(w.present, w.residue)
    case PsRunning => Services(w.running, false)
    case Exec(_, DrainCount) => Count(w.admitted - w.completed)
    case _ => Nothing
  }

  lemma CalmEventIsLawful(f: Fault, c: Command, w: World)
    requires WellFormed(w)
    ensures Chained([CalmEvent(f, c, w)])
  {
    if Grants(c, w) && !Faulty(f, c) { GrantedIsLawful(c, w); } else { RefusedIsLawful(f, c, w); }
  }

  lemma GrantedIsLawful(c: Command, w: World)
    requires WellFormed(w) && Grants(c, w)
    ensures Chained([Event(c, w, true, Answer(c, w), Effect(c, w))])
  {
    EffectCompletes(c, w);
    CommandsKeepWorldsWellFormed(c, w, Effect(c, w));
    OneEvent(Event(c, w, true, Answer(c, w), Effect(c, w)));
  }

  lemma RefusedIsLawful(f: Fault, c: Command, w: World)
    requires WellFormed(w)
    ensures Chained([Event(c, w, false, Nothing, Unfinished(f, c, w))])
  {
    UnfinishedIsPartial(f, c, w);
    CommandsKeepWorldsWellFormed(c, w, Unfinished(f, c, w));
    OneEvent(Event(c, w, false, Nothing, Unfinished(f, c, w)));
  }

  lemma EffectCompletes(c: Command, w: World)
    requires Grants(c, w)
    ensures Completes(c, w, Effect(c, w))
  {
  }

  lemma UnfinishedIsPartial(f: Fault, c: Command, w: World)
    requires WellFormed(w)
    ensures Partial(c, w, Unfinished(f, c, w))
  {
    match c
    case Up(s) => UnfinishedUp(f, s, w);
    case Recreate(s) => UnfinishedRecreation(f, s, w);
    case Bootstrap(a) => UnfinishedOwner(f, a, w);
    case _ =>
  }

  lemma UnfinishedUp(f: Fault, s: set<Service>, w: World)
    requires WellFormed(w)
    ensures Partial(Up(s), w, Unfinished(f, Up(s), w))
  {
  }

  lemma UnfinishedRecreation(f: Fault, s: set<Service>, w: World)
    requires WellFormed(w)
    ensures Partial(Recreate(s), w, Unfinished(f, Recreate(s), w))
  {
  }

  lemma UnfinishedOwner(f: Fault, a: Action, w: World)
    requires WellFormed(w)
    ensures Partial(Bootstrap(a), w, Unfinished(f, Bootstrap(a), w))
  {
  }

  /** A calm command leaves the engine with what it keeps. */
  lemma EngineKeeps(keeps: set<Service>, f: Fault, w: World, e: Event)
    requires e.before == Settled(keeps, w) && CalmOutcome(f, e)
    ensures OnEngine(keeps, e.after)
  {
    match e.command
    case Bootstrap(_) =>
    case Up(_) =>
    case Recreate(_) =>
    case Stop(_) =>
    case Remove(_) =>
    case _ =>
  }

  ghost predicate OwnerDone(a: Action, w: World, w': World) {
    && w'.present == w.present && w'.up == w.up && NothingLost(w, w') && (w'.open ==> w.open)
    && (OpenAfter(a, w.open) == w.open ==> w'.open == w.open)
  }

  lemma OwnerSucceeds(a: Action, w: World, e: Event)
    requires WellFormed(w) && a != AdmissionOpen && e.command == Bootstrap(a) && e.ok
    requires Lawful(e) && Drift(w, e.before)
    ensures OwnerDone(a, w, e.after)
    ensures Certified(a, e.after) && e.after.epoch == EpochAfter(a, w.epoch) && Postgres in w.up
  {
    OwnerCertifies(a, e.before, e.after);
    OwnerKeepsQueue(a, e.before, e.after);
  }

  lemma OwnerCertifies(a: Action, w: World, w': World)
    requires WellFormed(w) && a != AdmissionOpen && Completes(Bootstrap(a), w, w')
    ensures w'.present == w.present && w'.up == w.up && (w'.open ==> w.open)
    ensures w'.open == OpenAfter(a, w.open) && w'.epoch == EpochAfter(a, w.epoch) && Certified(a, w')
  {
    match a
    case Apply =>
    case Cutover12Closed =>
    case Cutover13 =>
    case OwnerRollback =>
    case _ =>
  }

  lemma CalmOwner(a: Action, w: World, e: Event, env: Environment)
    requires env.Calm? && e.command == Bootstrap(a) && e.before == Settled(env.keeps, w) && CalmOutcome(env.fault, e)
    requires WellFormed(w) && WellFormed(e.before)
    ensures e.ok <==> Grants(Bootstrap(a), Settled(env.keeps, w)) && !Faulty(env.fault, Bootstrap(a))
    ensures CalmReceipts(a, w, e.after) && !e.after.networks.NoNetworks?
    ensures !e.ok && a != AdmissionOpen ==> e.after.open == w.open && e.after.epoch == w.epoch
  {
  }

  lemma UpLeaves(w: World, tr: seq<Event>, s: set<Service>, env: Environment)
    requires WellFormed(w) && Chained(tr) && tr != [] && Drift(w, tr[|tr|-1].before) && tr[|tr|-1].command == Up(s)
    requires env.Calm? ==> tr[|tr|-1].before == Settled(env.keeps, w) && CalmOutcome(env.fault, tr[|tr|-1])
    ensures var e := tr[|tr|-1]; var w' := e.after;
            && w'.open == w.open && w'.epoch == w.epoch && Moved(env, w, w') && (w'.residue ==> w.residue)
            && w.up <= w'.up <= w.up + WithDependencies(s)
            && w.present <= w'.present <= w.present + WithDependencies(s)
            && (e.ok ==> WithDependencies(s) <= w'.up && (Api in s ==> w'.networks.AllNetworks?))
            && (env.Calm? ==> (e.ok <==> !Faulty(env.fault, Up(s))))
            && (env.Calm? && !e.ok ==> w'.present == w.present && w'.up == w.up && !w'.networks.NoNetworks?)
  {
    LastIsLawful(tr);
  }

  lemma RecreationLeaves(w: World, tr: seq<Event>, env: Environment)
    requires WellFormed(w) && Chained(tr) && tr != [] && Drift(w, tr[|tr|-1].before)
    requires tr[|tr|-1].command == Recreate({Postgres})
    requires env.Calm? ==> tr[|tr|-1].before == Settled(env.keeps, w) && CalmOutcome(env.fault, tr[|tr|-1])
    ensures var e := tr[|tr|-1]; var w' := e.after;
            && w'.open == w.open && w'.epoch == w.epoch && Moved(env, w, w')
            && w.up - {Postgres} <= w'.up <= w.up + {Postgres}
            && w.present - {Postgres} <= w'.present <= w.present + {Postgres}
            && (e.ok ==> Postgres in w'.up)
            && (env.Calm? ==> (e.ok <==> env.fault != RecreationFails))
            && (CalmBut(env, RecreationFails) ==> Postgres !in w'.up)
  {
    LastIsLawful(tr);
  }

  /** What an opening leaves, reported or not. */
  lemma OpeningLeaves(w: World, tr: seq<Event>, env: Environment)
    requires Chained(tr) && tr != [] && Drift(w, tr[|tr|-1].before) && IsOpening(tr[|tr|-1])
    requires env.Calm? ==>
               tr[|tr|-1].before == Settled(env.keeps, w) && CalmOutcome(env.fault, tr[|tr|-1])
    ensures var e := tr[|tr|-1];
            && e.after.up == w.up && e.after.present == w.present && e.after.epoch == w.epoch
            && NoFewer(w.networks, e.after.networks) && (e.ok ==> e.after.open) && e.before.open == w.open
            && (env.Calm? && Postgres in w.up && w.epoch != Fresh ==>
                  (e.ok <==> env.fault != OpeningLost) && e.after.open)
  {
    LastIsLawful(tr);
  }

  /** A look that changed nothing comes before the start. */
  lemma CalmStartBefore(env: Environment, ok: bool, w: World, m: World, w': World)
    requires WellFormed(w) && Drift(w, m) && CalmStart(env, ok, m, w')
    requires env.Calm? ==> m == Settled(env.keeps, w)
    ensures CalmStart(env, ok, w, w')
  {
    DriftKeepsShape(w, m);
    if Still(m, w') { StillTwice(w, m, w'); }
  }

  lemma RefusedStart(env: Environment, w: World, m: World)
    requires WellFormed(w) && Drift(w, m) && (env.Calm? ==> !StageFits(env.keeps, w))
    ensures CalmStart(env, false, w, m)
  {
    DriftKeepsShape(w, m);
  }

  lemma CertifiedSurvivesDrift(a: Action, w: World, w': World)
    requires WellFormed(w) && Certified(a, w) && a != AdmissionOpen && Drift(w, w')
    ensures Certified(a, w')
  {
  }

  lemma OwnerFails(a: Action, w: World, e: Event)
    requires WellFormed(w) && a != AdmissionOpen && e.command == Bootstrap(a) && !e.ok
    requires Lawful(e) && Drift(w, e.before)
    ensures OwnerDone(a, w, e.after)
    ensures e.after.epoch in {w.epoch, EpochAfter(a, w.epoch)}
    ensures Postgres !in w.up ==> e.after.open == w.open && e.after.epoch == w.epoch
  {
    OwnerHalfDone(a, e.before, e.after);
    OwnerKeepsQueue(a, e.before, e.after);
  }

  lemma OwnerHalfDone(a: Action, w: World, w': World)
    requires a != AdmissionOpen && Partial(Bootstrap(a), w, w')
    ensures w'.present == w.present && w'.up == w.up && (w'.open ==> w.open) && NoFewer(w.networks, w'.networks)
    ensures w'.open in {w.open, OpenAfter(a, w.open)} && w'.epoch in {w.epoch, EpochAfter(a, w.epoch)}
    ensures Postgres !in w.running ==> w'.open == w.open && w'.epoch == w.epoch
  {
  }

  /** The stops, the request to close and the proof that follow a failed opening make up its fence. */
  lemma FenceIsComplete(stops: seq<Event>, asked: seq<Event>, tr: seq<Event>, k: nat)
    requires k + 1 < |stops| && stops < asked && asked < tr && tr[k+1].command == Stop(INGRESS)
    requires Only(stops, k + 1, {Stop(INGRESS), Stop({Erasure}), Stop({Worker})})
    requires stops[|stops|-1].ok ==> stops[|stops|-1].command == Stop({Worker})
    requires asked[|stops|].command == Bootstrap(AdmissionClose) && Only(asked, |stops| + 1, {PsAll})
    requires tr[|asked|].command == Bootstrap(AdmissionAssertClosed)
    ensures FencedBy(tr, k, |stops|, |asked|)
  {
    assert forall i :: 0 <= i < |stops| ==> tr[i] == stops[i];
    assert forall i :: 0 <= i < |asked| ==> tr[i] == asked[i];
  }

  lemma SameProbe(a: seq<Event>, b: seq<Event>, k: nat)
    requires a <= b && k + 6 <= |a| && ClosedProbe(a, k)
    ensures ClosedProbe(b, k)
  {
  }

  lemma WorkerAfterProof(proved: seq<Event>, tr: seq<Event>, lo: nat)
    requires |proved| == lo + 2 && proved < tr && Ran(proved[lo], Bootstrap(AdmissionAssertClosed))
    requires proved[lo+1].command == PsAll && tr[lo+2].command == Up({Worker})
    requires Only(tr, lo + 3, {PsRunning, Exec(Worker, PrepublicationReady)})
    ensures RestoresOnlyWorker(tr, lo) && NoOwnerChange(tr, lo)
  {
  }

  lemma CertifiedRestore(tr: seq<Event>, lo: nat)
    requires lo + 2 <= |tr| && RestoresOnlyWorker(tr, lo + 2) && NoOwnerChange(tr, lo + 2) && tr[lo+1].command == PsAll
    requires Ran(tr[lo], Bootstrap(OwnerRollback)) || Ran(tr[lo], Bootstrap(RefusalRecoveryPreflight))
    ensures WorkerReturnsCertified(tr, lo) && NoOwnerRollback(tr, lo + 1)
    ensures tr[lo].command == Bootstrap(RefusalRecoveryPreflight) ==> NoOwnerRollback(tr, lo)
  {
  }
}
