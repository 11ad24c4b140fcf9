/**
 From which worlds the controller can get on: whether the network preflight can pass, whether the runtime can
 be drained, whether the stack is idle, and what the phases of an operation keep of that.
 */
module StackShape {
  import opened StackWorld

  /** The endpoints are those of a stage, or there is no network yet. */
  predicate StageFits(keeps: set<Service>, w: World) {
    w.networks.NoNetworks? || (w.networks.AllNetworks? && HasCore(w.up) && IsStage(Endpoints(keeps, w)))
  }

  /** Whatever detaches or crashes, the network preflight can pass only here. */
  predicate Attachable(w: World) {
    w.networks.NoNetworks? || (w.networks.AllNetworks? && HasCore(w.up))
  }

  /** The fence of `upgrade` and `rollback` can drain the runtime. */
  predicate Drainable(w: World) {
    w.epoch in {C12, C13} && Worker in w.up && Postgres in w.up
  }

  predicate NoRuntime(w: World) { NoRuntimeIn(w.present) }

  predicate RuntimeDown(w: World) { NoRuntimeIn(w.up) }

  /** No runtime container, all of the core or none of it, and no work that only a runtime could finish. */
  predicate Idle(w: World) {
    NoRuntime(w) && (HasCore(w.up) || (NoCore(w.present) && !w.open)) && Drained(w)
  }

  /** No operation can succeed, now or after any other operations. */
  predicate Wedged(w: World) { !Attachable(w) || (!Drainable(w) && !Idle(w)) }

  // ----- one step of an operation -----

  /** Containers, gate and epoch are as before; queue, lease and crashes may have moved. */
  ghost predicate SameStack(w: World, w': World) {
    && w'.present == w.present && w'.up == w.up && w'.open == w.open && w'.epoch == w.epoch
    && NoFewer(w.networks, w'.networks)
  }

  /** Work was admitted only if the gate was open with the API up; no work and no network was lost. */
  ghost predicate NothingLost(w: World, w': World) {
    && w.admitted <= w'.admitted && w.completed <= w'.completed && NoFewer(w.networks, w'.networks)
    && (!w.open || Api !in w.up ==> w'.admitted == w.admitted)
    && (Worker !in w.up ==> w'.completed == w.completed)
  }

  /** Nothing but queue, lease and crashes moved. */
  ghost predicate Still(w: World, w': World) { SameStack(w, w') && NothingLost(w, w') }

  /** In a calm environment no receipt of activity changed. */
  ghost predicate SameReceipts(env: Environment, w: World, w': World) {
    env.Calm? ==> w'.executorActive == w.executorActive && w'.writeActive == w.writeActive
  }

  ghost predicate Moved(env: Environment, w: World, w': World) {
    NothingLost(w, w') && SameReceipts(env, w, w')
  }

  /** What a fence may do: stop runtime services, remove the worker, close the gate. */
  ghost predicate Fenced(w: World, w': World) {
    && w'.epoch == w.epoch && (w'.open ==> w.open) && NoFewer(w.networks, w'.networks)
    && (Postgres !in w.up ==> w'.open == w.open)
    && w.up - RUNTIME <= w'.up <= w.up && w.present - {Worker} <= w'.present <= w.present
    && (Worker !in w.up ==> w'.completed == w.completed)
    && (Api !in w.up ==> w'.admitted == w.admitted)
  }

  /** Besides PostgreSQL containers are only added, the rest of the core stays up, and no runtime means no new work. */
  ghost predicate Preserved(w: World, w': World) {
    && NoFewer(w.networks, w'.networks) && w.present - {Postgres} <= w'.present
    && (Valkey in w.up ==> Valkey in w'.up) && (Seaweedfs in w.up ==> Seaweedfs in w'.up)
    && (NoRuntime(w') ==> w'.admitted == w.admitted && w'.completed == w.completed)
  }

  ghost predicate CoreKept(w: World, w': World) {
    Preserved(w, w') && (Postgres in w.up ==> Postgres in w'.up)
  }

  /** What publication may do besides: only migrate forward. */
  ghost predicate Rebuilt(w: World, w': World) {
    CoreKept(w, w') && (w.epoch in {C12, C13} ==> w'.epoch in {C12, C13})
  }

  lemma RebuiltInPlace(w: World, w': World)
    requires WellFormed(w) && NothingLost(w, w') && w'.present == w.present && w.up - RUNTIME <= w'.up
    requires w.epoch in {C12, C13} ==> w'.epoch in {C12, C13}
    ensures Rebuilt(w, w')
  {
  }

  lemma RebuiltByStart(w: World, w': World)
    requires WellFormed(w) && NothingLost(w, w') && w.present <= w'.present && w.up <= w'.up && w'.epoch == w.epoch
    ensures Rebuilt(w, w')
  {
  }

  lemma StillTwice(a: World, b: World, c: World)
    requires Still(a, b) && Still(b, c)
    ensures Still(a, c)
  {
  }

  lemma RebuiltTwice(a: World, b: World, c: World)
    requires Rebuilt(a, b) && Rebuilt(b, c)
    ensures Rebuilt(a, c)
  {
  }

  lemma PreservedTwice(a: World, b: World, c: World)
    requires Preserved(a, b) && Preserved(b, c)
    ensures Preserved(a, c)
  {
  }

  lemma DriftKeepsShape(w: World, w': World)
    requires WellFormed(w) && Drift(w, w')
    ensures Attachable(w) <==> Attachable(w')
    ensures (Idle(w) <==> Idle(w')) && (Drainable(w) <==> Drainable(w')) && (Wedged(w) <==> Wedged(w'))
    ensures Rebuilt(w, w') && Fenced(w, w') && Still(w, w')
  {
  }

  // ----- what a failed operation leaves -----

  /** A whole core on all networks, with no work left behind by a runtime that is gone, and a worker of its epoch. */
  predicate Sound(w: World) {
    && HasCore(w.up) && w.networks.AllNetworks?
    && (NoRuntime(w) ==> Drained(w)) && (Worker in w.up ==> w.epoch in {C12, C13})
  }

  /** A sound stack is wedged exactly when it has runtime containers and no worker to drain them. */
  lemma SoundIs(w: World)
    requires WellFormed(w)
    ensures Sound(w) ==> (Wedged(w) <==> Worker !in w.up && !NoRuntime(w))
    ensures !w.networks.NoNetworks? && !Wedged(w) ==> Sound(w)
    ensures Attachable(w) && Drainable(w) ==> Sound(w) && !Wedged(w)
  {
  }

  /** Nothing but the queue, the lease and crashes moved: the stack can get on as before. */
  lemma StandingStill(w: World, w': World)
    requires WellFormed(w) && WellFormed(w') && Still(w, w')
    ensures (Idle(w) <==> Idle(w')) && (Drainable(w) <==> Drainable(w')) && Rebuilt(w, w')
    ensures Attachable(w) && Wedged(w) ==> Wedged(w')
  {
  }

  lemma StillKeepsSound(w: World, w': World)
    requires WellFormed(w) && Still(w, w') && Sound(w)
    ensures Sound(w')
  {
  }

  lemma DriftKeepsSound(w: World, w': World)
    requires WellFormed(w) && Drift(w, w') && Sound(w)
    ensures Sound(w')
  {
  }

  lemma FenceKeepsSound(w: World, w': World)
    requires WellFormed(w) && WellFormed(w') && Fenced(w, w') && Sound(w)
    requires Worker !in w'.present ==> Drained(w') || Worker !in w.present
    ensures Sound(w')
  {
  }

  lemma RebuildingKeepsSound(w: World, w': World)
    requires WellFormed(w) && WellFormed(w') && Rebuilt(w, w') && Sound(w)
    requires w.epoch in {C12, C13} || (NoRuntime(w) && (!NoRuntime(w') ==> w'.epoch == C13))
    ensures Sound(w')
  {
  }

  /** A fence that removes nothing neither makes nor ends idleness, and cannot free a wedged stack. */
  lemma FencingKeepsIdle(w: World, w': World)
    requires WellFormed(w) && WellFormed(w') && Fenced(w, w') && w'.present == w.present
    ensures Idle(w) <==> Idle(w')
    ensures Attachable(w) && Wedged(w) ==> Wedged(w')
  {
  }
}
