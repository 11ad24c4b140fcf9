/**
 Runs in which nothing goes wrong by itself but at most one kind of command: when the operations succeed, which
 single failure leaves a stack that no operation accepts any more, and which operations undo which.
 */
module StackRuns {
  import opened StackController
  import opened StackShape
  import opened StackTrace
  import opened StackWorld

  /** No operation succeeds on this engine, now or later, unless somebody else repairs the stack. */
  predicate Stuck(keeps: set<Service>, w: World) { !StageFits(keeps, w) || Wedged(w) }

  /** The public containers whose endpoints the engine keeps when they are stopped are all four, or none. */
  predicate StopsFit(keeps: set<Service>, w: World) {
    NoPublic(w.present * keeps) || AllPublic(w.present * keeps)
  }

  /** Whether the operation is one that a calm engine lets succeed. */
  predicate Can(op: Operation, keeps: set<Service>, w: World) {
    match op
    case StartStack => CanStart(keeps, w)
    case UpgradeStack => CanUpgrade(keeps, w)
    case RollbackStack => CanRollBack(keeps, w)
  }

  /**
   One operation in a calm environment. Without a fault it succeeds exactly from the worlds it can; a stack that
   fits no stage is refused unchanged. The trace is one of the runs that all other claims range over.
   */
  method Undisturbed(w: World, keeps: set<Service>, op: Operation)
    returns (ok: bool, after: World, ghost tr: seq<Event>)
    requires WellFormed(w) && OnEngine(keeps, w)
    ensures Chained(tr) && Disciplined(tr) && WellFormed(after) && OnEngine(keeps, after)
    ensures ok <==> Can(op, keeps, w)
    ensures ok && op != RollbackStack ==> Published(after) && !Stuck(keeps, after)
    ensures ok && op == RollbackStack ==> HandedBack(after) && (Wedged(after) <==> w.epoch == C12)
    ensures !StageFits(keeps, w) ==> after == Settled(keeps, w)
    ensures op != StartStack && w.networks.NoNetworks? ==> !ok && Wedged(after)
    ensures op == RollbackStack && CanUpgrade(keeps, w) && w.epoch == C13 && w.executorActive ==>
              !ok && HandedBack(after) && Drainable(after) && !after.open && exists k :: RefusalCertified(tr, k)
    ensures op == RollbackStack && CanUpgrade(keeps, w) && w.epoch == C12 && w.writeActive ==>
              !ok && Worker !in after.present && (Wedged(after) <==> MoreThanWorker(w))
  {
    var c := new Controller(w, 0, Calm(NoFault, keeps));
    match op {
      case StartStack => ok := c.Start();
      case UpgradeStack => ghost var drain; ok, drain := c.Upgrade();
      case RollbackStack => ok := c.Rollback();
    }
    after, tr := c.world, c.trace;
    if ok && op != RollbackStack { PublishedFits(keeps, after); }
    if op == RollbackStack && CanUpgrade(keeps, w) { HandoffFits(keeps, w, after); }
  }

  lemma PublishedFits(keeps: set<Service>, w: World)
    requires WellFormed(w) && Published(w)
    ensures !Stuck(keeps, w)
  {
  }

  /**
   One operation that could succeed, and one kind of command that fails in it: which failures leave a stack that
   no operation accepts any more.
   */
  method WithOneFault(w: World, keeps: set<Service>, op: Operation, fault: Fault)
    returns (ok: bool, after: World, ghost tr: seq<Event>)
    requires WellFormed(w) && OnEngine(keeps, w) && Can(op, keeps, w)
    ensures Chained(tr) && Disciplined(tr) && WellFormed(after)
    ensures op == StartStack && fault in {BuildFails, PostgresUpFails} && w.present == {} ==> !ok && Wedged(after)
    ensures op == UpgradeStack && fault in {DrainCountFails, RecreationFails} ==> !ok && Wedged(after)
    ensures op != RollbackStack && fault in {WorkerNotReady, OpeningLost} ==>
              !ok && !after.open && RuntimeDown(after) && Wedged(after)
    ensures op == RollbackStack && fault == WorkerNotReady ==> !ok && Wedged(after)
    ensures op == UpgradeStack && fault == BuildFails && MoreThanWorker(w) ==> !ok && Wedged(after)
    ensures op == RollbackStack && fault == DrainCountFails ==> !ok && Wedged(after)
    ensures op == RollbackStack && fault == RollbackFails && MoreThanWorker(w) ==> !ok && Wedged(after)
    ensures op != StartStack && fault == StopErasureFails && Erasure in w.up ==>
              !ok && !Wedged(after) && (Stuck(keeps, after) <==> !(INGRESS <= w.present * keeps))
  {
    var c := new Controller(w, 0, Calm(fault, keeps));
    match op {
      case StartStack => ok := c.Start();
      case UpgradeStack => ghost var drain; ok, drain := c.Upgrade();
      case RollbackStack => ok := c.Rollback();
    }
    after, tr := c.world, c.trace;
    if Unpublished(after) { UnpublishedIsWedged(after); }
    if op != StartStack && fault == StopErasureFails { ErasureLeftAlone(keeps, w, after); }
  }

  /** A publication that was taken back leaves containers that nothing can drain. */
  lemma UnpublishedIsWedged(w: World)
    requires Unpublished(w)
    ensures Wedged(w)
  {
  }

  /** Some but not all of the four public services. */
  predicate Mixed(s: set<Service>) { !NoPublic(s) && !AllPublic(s) }

  /**
   Any failure of any operation, in any environment: what it leaves is stuck exactly when the core is not whole on
   all networks, or runtime containers are left without a worker that can be drained, or the public services are
   attached only in part.
   */
  method AfterAFailure(w: World, keeps: set<Service>, op: Operation) returns (ok: bool, after: World)
    requires WellFormed(w) && !Wedged(w)
    ensures !ok ==>
              (Stuck(keeps, after) <==>
                 || !Attachable(after)
                 || ((Worker !in after.up || after.epoch == C11) && !NoRuntime(after))
                 || Mixed(Endpoints(keeps, after)))
  {
    var c := new Controller(w, 0, Anything);
    match op {
      case StartStack => ok := c.Start();
      case UpgradeStack => ghost var drain; ok, drain := c.Upgrade();
      case RollbackStack => ok := c.Rollback();
    }
    after := c.world;
    WhenStuck(keeps, after);
  }

  lemma WhenStuck(keeps: set<Service>, w: World)
    requires WellFormed(w)
    ensures Attachable(w) ==> (StageFits(keeps, w) <==> !Mixed(Endpoints(keeps, w)))
    ensures Idle(w) ==> NoRuntime(w) && NoPublic(Endpoints(keeps, w)) && Worker !in w.up
    ensures Drainable(w) ==> w.epoch != C11 && Worker in w.up
  {
  }

  /** Erasure is up without its ingress: the stage is complete only if the stopped three are still attached. */
  lemma ErasureLeftAlone(keeps: set<Service>, w: World, w': World)
    requires CanUpgrade(keeps, w) && WellFormed(w) && SameButIngress(w, w')
    ensures !Wedged(w') && (Erasure in w.up ==> (Stuck(keeps, w') <==> !(INGRESS <= w.present * keeps)))
  {
    assert INGRESS <= w.present * keeps <==>
      Api in w.present * keeps && Edge in w.present * keeps && Dashboard in w.present * keeps;
  }

  /**
   Whatever went before: `start`, then `upgrade`, then `start` again publish the stack exactly when it is not stuck;
   a stuck one they leave stuck.
   */
  method Republish(w: World, keeps: set<Service>) returns (ok: bool, after: World)
    requires WellFormed(w) && OnEngine(keeps, w)
    ensures ok <==> StageFits(keeps, w) && !Wedged(w)
    ensures if ok then Published(after) else Stuck(keeps, after)
  {
    var c := new Controller(w, 0, Calm(NoFault, keeps));
    ok := c.Start();
    ghost var first := c.world;
    if !Stuck(keeps, w) && !ok { StartIsRefused(keeps, w, first); }
    if !ok {
      ghost var drain;
      ok, drain := c.Upgrade();
      if !Stuck(keeps, first) && !ok { UpgradeCloses(keeps, first, c.world); }
    }
    if !ok { ok := c.Start(); }
    after := c.world;
  }

  lemma StartIsRefused(keeps: set<Service>, w: World, w': World)
    requires WellFormed(w) && WellFormed(w') && !Stuck(keeps, w) && !CanStart(keeps, w)
    requires HasCore(w.up) ==> Still(w, w')
    ensures HasCore(w.up) && !Stuck(keeps, w') && (Drainable(w') || (Idle(w') && w'.networks.AllNetworks?))
  {
    if HasCore(w.up) { StandingStill(w, w'); }
  }

  lemma UpgradeCloses(keeps: set<Service>, w: World, w': World)
    requires WellFormed(w) && WellFormed(w') && !Stuck(keeps, w) && !Drainable(w) && HasCore(w.up)
    requires Fenced(w, w') && CalmlyFenced(false, w, w') && Idle(w') && w'.present == w.present
    ensures CanStart(keeps, w')
  {
  }

  /**
   A rollback, undisturbed, and then `upgrade` or `start`. From 0013 the worker is handed back, at 0012 or, after an
   executor claim, with the refusal certified and still at 0013; `upgrade` then publishes again, and `start` only
   after a rollback that was not refused. From 0012 neither does, except `start` after a refusal that left no
   container of the runtime.
   */
  method RollbackThenPublish(w: World, keeps: set<Service>, upgrade: bool)
    returns (rolled: bool, ok: bool, after: World, ghost tr: seq<Event>)
    requires WellFormed(w) && OnEngine(keeps, w) && CanUpgrade(keeps, w)
    ensures Chained(tr) && Disciplined(tr)
    ensures rolled <==> OwnerAgrees(w)
    ensures w.epoch == C13 && !rolled ==> exists k :: RefusalCertified(tr, k)
    ensures w.epoch == C13 ==> (ok <==> StopsFit(keeps, w) && (upgrade || rolled))
    ensures w.epoch == C12 ==> (ok <==> !rolled && !MoreThanWorker(w) && !upgrade)
    ensures ok ==> Published(after)
  {
    var c := new Controller(w, 0, Calm(NoFault, keeps));
    rolled := c.Rollback();
    tr := c.trace;
    HandoffFits(keeps, w, c.world);
    if upgrade {
      ghost var drain;
      ok, drain := c.Upgrade();
    } else {
      ok := c.Start();
    }
    after := c.world;
  }

  /** What is handed back fits a stage exactly if the stopped public containers do. */
  lemma HandoffFits(keeps: set<Service>, w: World, w': World)
    requires WellFormed(w') && SamePublic(w, w') && w'.networks.AllNetworks?
    ensures HandoffShape(w') ==> (StageFits(keeps, w') <==> StopsFit(keeps, w))
    ensures HandoffShape(w') ==> !NoRuntime(w')
    ensures HasCore(w'.up) && RuntimeDown(w') && Worker !in w'.present && !MoreThanWorker(w) ==>
              StageFits(keeps, w') && NoRuntime(w')
    ensures MoreThanWorker(w) ==> !NoRuntime(w')
  {
  }
}
