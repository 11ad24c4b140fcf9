/**
 The steps of the operations as a history of commands: what a successful operation has done, in order, and what
 its compensations have tried.
 */
module StackSteps {
  import opened StackTrace
  import opened StackWorld

  function Did(l: Log, c: Command): Log { Step(l, c, true) }

  function DidOwner(l: Log, a: Action): Log { Step(l, Bootstrap(a), true) }

  // ----- success -----

  /** Ingress before erasure, the gate before the worker, and the owner's receipt last. */
  function FenceSteps(l: Log): Log {
    WorkerSteps(DidOwner(Did(Did(l, Stop(INGRESS)), Stop({Erasure})), AdmissionClose))
  }

  function WorkerSteps(l: Log): Log {
    DidOwner(Did(Did(l, Stop({Worker})), Remove({Worker})), RuntimeDrainAssert)
  }

  /** Migrations, object store, runtime. */
  function PrepublishSteps(l: Log): Log {
    Did(Did(CutOverSteps(DidOwner(l, Apply)), S3Init), Up(RUNTIME))
  }

  function CutOverSteps(l: Log): Log { DidOwner(DidOwner(l, Cutover12Closed), Cutover13) }

  /** The opening is the last thing done. */
  function PublishSteps(l: Log): Log { DidOwner(PrepublishSteps(l), AdmissionOpen) }

  function CoreSteps(l: Log, coreRunning: bool): Log {
    Did(Did(Did(l, Build), S3VolumeInit), Up(if coreRunning then CORE else {Valkey, Seaweedfs}))
  }

  function PreflightSteps(l: Log, coreRunning: bool): Log {
    DidOwner(if coreRunning then l else Did(l, Up({Postgres})), StartPreflight)
  }

  function RemovalSteps(l: Log): Log { Did(FenceSteps(l), Remove({Api, Edge, Erasure, Dashboard})) }

  function RecoverySteps(l: Log, handoff: bool): Log {
    if handoff then RemovalSteps(DidOwner(l, RollbackRecoveryPreflight)) else l
  }

  function RestoreSteps(l: Log): Log { Did(DidOwner(l, AdmissionAssertClosed), Up({Worker})) }

  function StartSteps(l: Log, handoff: bool, coreRunning: bool): Log {
    ValidatedSteps(Did(l, ValidateConfiguration), handoff, coreRunning)
  }

  function ValidatedSteps(l: Log, handoff: bool, coreRunning: bool): Log {
    PublishSteps(CoreSteps(PreflightSteps(RecoverySteps(l, handoff), coreRunning), coreRunning))
  }

  function RepublishSteps(l: Log): Log { PublishSteps(Did(Did(l, Build), Recreate({Postgres}))) }

  function UpgradeSteps(l: Log): Log { RepublishSteps(FenceSteps(Did(l, ValidateConfiguration))) }

  function RollbackSteps(l: Log): Log {
    RestoreSteps(DidOwner(FenceSteps(Did(l, ValidateConfiguration)), OwnerRollback))
  }

  // ----- compensation -----

  predicate Tried(l: Log, c: Command) { l.Step? && l.command == c }

  predicate TriedOwner(l: Log, a: Action) { Tried(l, Bootstrap(a)) }

  /** Ingress, erasure and worker in this order, up to the first that could not be stopped. */
  predicate RuntimeStops(l: Log, l': Log) {
    || l' == Step(l, Stop(INGRESS), false)
    || l' == Step(Did(l, Stop(INGRESS)), Stop({Erasure}), false)
    || (l'.Step? && l' == Step(Did(Did(l, Stop(INGRESS)), Stop({Erasure})), Stop({Worker}), l'.ok))
  }

  /** The runtime is stopped, and once there is a gate it is proved closed. */
  predicate TakenBack(l: Log, admissionExists: bool, l': Log) {
    if admissionExists then TriedOwner(l', AdmissionAssertClosed) && RuntimeStops(l, l'.before)
    else RuntimeStops(l, l')
  }

  /** The runtime is stopped, the gate is asked to close, and it is proved closed. */
  predicate OpeningTakenBack(l: Log, l': Log) {
    && TriedOwner(l', AdmissionAssertClosed) && TriedOwner(l'.before, AdmissionClose)
    && RuntimeStops(l, l'.before.before)
  }

  /** What a failed publication ends with. */
  predicate EndsTakenBack(l: Log) {
    || EndsInStops(l)
    || (TriedOwner(l, AdmissionAssertClosed)
        && (EndsInStops(l.before) || (TriedOwner(l.before, AdmissionClose) && EndsInStops(l.before.before))))
  }

  predicate EndsInStops(l: Log) {
    || Tried(l, Stop({Worker}))
    || (l.Step? && !l.ok && (l.command == Stop(INGRESS) || l.command == Stop({Erasure})))
  }

  /** All of the runtime is stopped at once, then the gate is asked to close and proved closed. */
  predicate DrainTakenBack(l: Log, l': Log) {
    && TriedOwner(l', AdmissionAssertClosed) && TriedOwner(l'.before, AdmissionClose)
    && Tried(l'.before.before, Stop(RUNTIME)) && l'.before.before.before == l
  }

  /** A failed fence: an early stop did not work, or everything after it is taken back. */
  predicate FenceTakenBack(l: Log, l': Log) {
    || (Tried(l', Stop(INGRESS)) && l'.before == l)
    || (Tried(l', Stop({Erasure})) && l'.before == Did(l, Stop(INGRESS)))
    || (TriedOwner(l', AdmissionAssertClosed) && TriedOwner(l'.before, AdmissionClose)
        && Tried(l'.before.before, Stop(RUNTIME)))
  }

  /** The restored worker is stopped and the gate is proved closed once more. */
  predicate WorkerTakenBack(l: Log) {
    TriedOwner(l, AdmissionAssertClosed) && Tried(l.before, Stop({Worker}))
  }
}
