# Tracebed, modelled in Dafny

Tracebed is a memory service for agents. This project models the parts of its repository where the
hard promises sit and proves them for every input, every run or every reachable state. Nothing here
runs the original program. `dafny verify dfyconfig.toml` checks the whole project.

## What is modelled

- **The Compose lifecycle controller** (`StackWorld`, `StackTrace`, `StackSteps`, `StackShape`,
  `StackController`, `StackRuns`). `start`, `upgrade` and `rollback` act on a world of containers, their network endpoints, a
  durable admission gate, queued work, an erasure lease and a database epoch. Every command may fail before,
  during or after its effect, and the world drifts between commands. The controller is a class; each run leaves
  a ghost trace of the commands it executed and a log of its steps, done or only tried. A method that returns `ok == false` stands for a function that
  raises. The controller's `environment` is `Anything` for claims about all runs. A `Calm` one is a possible
  course of it: nothing fails but at most one kind of command, on an engine that keeps the endpoints of given
  services when they are stopped and detaches all others. What an owner action of the bootstrap container does
  and checks is taken from the bootstrap module and migrations 0011 to 0013.
- **The network preflight** (`Cidr`, `HostRoutes`, `Attachments`, `Preflight`, `Topology`). Address blocks,
  policy routing, host routes, Docker pools, and the authentication of the project's own networks against four stages. The
  claim is about forwarding: which route can carry a packet under longest match (section 5.1 of
  RFC 4632).
- **The blackboard under contention** (`Blackboard`, `Contention`). Any number of committers as
  small-step programs over one lock and one table, every interleaving, and the drill that summarises
  races.
- **The soak** (`Regression`, `Soak`). Least squares over the reals, the discovery schedule, the vault
  driver, the weekly report and its verdict. Logarithms enter only as a strictly increasing function.
- **The generated manifest block** (`Markers`, `Manifest`). Rendering, extracting and replacing marked
  text.
- **The gate runners** (`Gates`, `GatePhases`). What an overall PASS says about the collected cases.
- **Consolidation** (`Deltas`, `Retention`). Named deltas, the consolidator, the replayed log, and the
  rotating partial observation of the regression harness.
- **Smaller stateful cores** (`Vault`, `Ledger`, `Percentile`), with `Sorting` for Python's `sorted` and
  `Wrappers` for optional and refused results.

## Where the code does not meet its promise

Each of these is kept as the code has it, with the exact condition under which the promise holds.

- The controller can leave a stack that none of its operations accepts any more. Every operation first demands
  that the project has no network at all, or all seven with the endpoints of one of four stages and a running
  core (`GrantIsTheTopologyCheck`); a stack that fits no stage is refused unchanged, for ever. Even with a
  fitting stage it is `Wedged` if its runtime cannot be drained (epoch 0012 or 0013 with worker and PostgreSQL
  up) and it is not idle (no runtime container, all of the core or none, no unfinished work). Every operation
  fails on such a stack, which stays wedged (`Operate`), and all other stacks are published by `start`,
  `upgrade` and `start` in turn when nothing fails (`Republish`, an if and only if).
  - Any failed operation, in any environment, leaves a stuck stack exactly when the core is not whole on all
    networks, or runtime containers are left without a worker that can be drained, or the public services are
    attached only in part (`AfterAFailure`).
  - Single failures that do it, each with its run (`WithOneFault`): a drain count; a build in a first `start`; a first
    `up` of PostgreSQL that has only made networks; a half-done recreation of PostgreSQL; a worker that is not
    ready, before a publication or after a rollback; an opening whose result is lost; with public containers
    present, a build in `upgrade` and an owner rollback; and a failed stop of the erasure service, exactly when
    the engine does not keep all three endpoints of the stopped ingress.
  - No failure is needed for three more (`Undisturbed`, `RollbackThenPublish`): an `upgrade` or `rollback` where
    there is no stack, whose one-shot container leaves networks behind; a rollback from 0012, or, with public
    containers present, its refusal after a protected write; and a rollback from 0013 on an engine that keeps the
    endpoints of some but not all public containers.
- Authenticating the attachments never compares an endpoint with the service of its container. Two core
  services with exchanged addresses are accepted; the endpoints fit their services exactly when the
  network listing and the container inspection agree (`SwappedEndpointsAreAccepted`,
  `EndpointsFitIffRepliesAgree`).
- A Docker network of another project is exempt from the overlap check as soon as its block equals an
  owned one, whatever the other networks are (`ForeignTwinIsAccepted`, `ForeignPoolsIffNoTwin`).
- The soak divides by zero for horizons of 7 to 13 days and can pass only for 14 to 41 days
  (`VerdictByHorizon`).
- Phase gates 0 to 3 can report PASS although a collected case was skipped. The cases they pass over are
  characterised exactly (`Phase0HidesExactly` to `Phase3HidesExactly`), and each gate has a passing
  collection with such a case (`Phase0PassesOverASkip` to `Phase3PassesOverASkip`). Phase 4 passes over none.

The contention drill meets its promise as written: its documents are distinct, so every round is clean in
every interleaving (`DrillRaceRound`, `DrillAttackRound`). Only a changed drill could report an inconsistent
round of a correct store: the check passes in every run exactly when the proposals are pairwise distinct
(`RacesPassIffDistinct`), and an attack is repelled in every run exactly when none proposes the stored value
(`AttacksAreRepelledIff`).

## Model

| member | source | states |
|---|---|---|
| `StackWorld.OnlyOpenOpens` | migrations/0011_authority_cutover.sql:807-914 | no command but a granted admission-open, failed or not, turns a closed gate into an open one |
| `StackTrace.GateOpensOnlyAfterAProbe` | scripts/compose_stack.py:1379-1418 | in every run, a gate that one event found closed and the same or a later event left open was opened in between, directly after a complete closed probe that saw all five runtime services running |
| `StackTrace.ClosedGateAdmitsNothing` | scripts/compose_stack.py:1307-1333 | between two commands with no opening in between, a closed gate stays closed, admits no work, and drained work stays drained |
| `StackTrace.FenceCloses` | scripts/compose_stack.py:1196-1209 | behind the fence of a failed opening the gate is closed if the close or the proof was reported done |
| `StackController.Controller.Run` | scripts/compose_stack.py:187-207 | any command, after any drift, may succeed, fail without effect, fail half done or fail after its effect; the trace records it lawfully |
| `StackController.Controller.ValidateRenderedConfiguration` | scripts/compose_stack.py:210-246 | the preflight changes nothing and passes only without networks, or with all of them, a running core and the endpoints of one stage |
| `StackController.Controller.RunBootstrap` | scripts/compose_stack.py:976-1009 | one owner action followed by the one-shot residue check; what success certifies, that no one-shot container is left then, and what failure may leave |
| `StackController.Controller.ProbeClosedRuntimePublication` | scripts/compose_stack.py:1144-1184 | at least one probe, at most timeout/poll + 1 turns; success ends in a complete probe, a timeout is an error |
| `StackController.Controller.WaitErasureDrain` | scripts/compose_stack.py:1230-1241 | at least one and at most timeout/poll + 1 checks; success certifies the erasure drain |
| `StackController.Controller.DrainWorkerQueue` | scripts/compose_stack.py:1295-1304 | bounded polling; success means the running worker itself reported an empty queue |
| `StackController.Controller.AwaitClosedWorker` | scripts/compose_stack.py:1354-1371 | bounded polling; success means the worker was seen running |
| `StackController.Controller.CompensateFailedPrepublication` | scripts/compose_stack.py:1187-1193 | stops ingress, erasure and worker in this order, whatever comes of it, and then insists on the closed proof once there is a gate; with nothing else failing the runtime is down |
| `StackController.Controller.CompensateAmbiguousAdmissionOpen` | scripts/compose_stack.py:1196-1209 | after an opening that reported failure: tries to stop the runtime, asks for the close and insists on the closed proof, in this order; with nothing else failing the gate ends closed and the runtime down although the opening had committed |
| `StackController.Controller.StopWorkerAfterDrain` | scripts/compose_stack.py:1244-1260 | success means the worker is stopped and its container gone; nothing else is removed |
| `StackController.Controller.FenceAndDrainRuntime` | scripts/compose_stack.py:1307-1333 | success means gate closed, runtime stopped, worker container gone, queue seen empty by the running worker behind the closed gate, nothing admitted since; a failure after erasure stopped is closed or a failed proof; a success has stopped, closed, drained and removed in order, and a failure after the first stops ends in a stop of everything, a close and the closed proof |
| `StackController.Controller.RestoreClosedWorkerAfterRollback` | scripts/compose_stack.py:1336-1376 | only the worker comes back, and only right after the gate was proved closed; a failure ends with the worker stopped again and the closed proof |
| `StackController.Controller.OpenAdmission` | scripts/compose_stack.py:1408-1418 | an opening that reports failure, committed or not, is taken back before it is raised; only a reported success leaves the gate open as its last event |
| `StackController.Controller.PublishRuntime` | scripts/compose_stack.py:1379-1418 | success has migrated, initialised the object store, started the runtime, probed it and opened, in this order, and is published; a failure ends in its compensation, closed and with the runtime down if nothing else fails |
| `StackController.Controller.RecreatePostgres` | scripts/compose_stack.py:1034-1044 | success means PostgreSQL is up again; a half-done recreation may leave it stopped or gone, and touches nothing else |
| `StackController.Controller.IsRollbackRecoveryState` | scripts/compose_stack.py:1085-1112 | accepts exactly the shape of the rollback handoff |
| `StackController.Controller.RecoverRollbackStateForStart` | scripts/compose_stack.py:1115-1133 | success leaves a closed, drained database, no runtime container and the idle shape that start accepts; a failure keeps the core whole, and drained if no runtime container is left |
| `StackController.Controller.RecoverHandoff` | scripts/compose_stack.py:1055-1082 | the handoff of a rollback from 0013 is recognised and recovered to a drained idle stack; any other shape is left as it is |
| `StackController.Controller.StartPreflightShape` | scripts/compose_stack.py:1055-1082 | start goes on only from a stack without runtime containers, left as it is, or a closed 0012 handoff, recovered; a failure keeps a sound stack sound |
| `StackController.Controller.ValidateAndFence` | scripts/compose_stack.py:1483-1492 | the preflight comes first and, refused, alone; a fence needs a stack that fits a stage and can be drained, and a failed one keeps the core whole and drained if it lost its runtime |
| `StackController.Controller.Start` | scripts/compose_stack.py:1421-1480 | success publishes; a refusal with the gate open has stopped and removed nothing; a wedged stack stays wedged; any other failed start wedges exactly when the core is not whole on all networks or runtime containers are left without the worker, the former only from nothing; undisturbed it succeeds exactly from a closed stack that fits a stage and is idle or handed back at 0012; a success has done exactly the steps of its protocol, in order, with those of the recovery from a handoff |
| `StackController.Controller.Upgrade` | scripts/compose_stack.py:1483-1509 | success means drained behind a closed gate, then published; failure is closed, a failed proof, or stopped ingress and erasure only; a failure wedges exactly when PostgreSQL was lost in its recreation or runtime containers are left without the worker; undisturbed it succeeds exactly from a stack that fits a stage and can be drained; a success has done exactly the steps of its protocol, in order |
| `StackController.Controller.Rollback` | scripts/compose_stack.py:1512-1557 | success goes one epoch back and hands back core and worker with no one-shot container; the worker restarts only after the owner's success or refusal certificate; success is wedged exactly from 0012, a failure exactly when runtime containers are left that cannot be drained; undisturbed it succeeds exactly if the stack fits a stage, can be drained and saw no activity since its epoch; a success has done exactly the steps of its protocol, in order |
| `StackController.Controller.Operate` | scripts/compose_stack.py:1560-1580 | any sequence of operations: the gate is open only if it was, or a publication succeeded, or a closed proof failed and was raised; every opening that reported failure is followed by stops, a close and the closed proof; in a wedged stack, or one that fits no stage on a calm engine, every operation fails and it stays so |
| `StackRuns.Undisturbed` | scripts/compose_stack.py:1421-1557 | without any failure: each operation succeeds exactly from the worlds it can; no fitting stage means refused and unchanged; a rollback after an executor claim fails, restores the closed worker under the refusal certificate and leaves a stack that can be drained; one after a protected write at 0012 leaves no worker |
| `StackRuns.WithOneFault` | scripts/compose_stack.py:1421-1557 | which single failing command in an operation that could succeed leaves a stack no operation accepts |
| `StackRuns.AfterAFailure` | scripts/compose_stack.py:1421-1557 | any failure of any operation in any environment: exactly what it must leave for the stack to be stuck |
| `StackRuns.Republish` | scripts/compose_stack.py:1421-1509 | from every stack: start, upgrade and start in turn publish exactly when the stack fits a stage and is not wedged |
| `StackRuns.RollbackThenPublish` | scripts/compose_stack.py:1512-1557 | a rollback and then an upgrade or a start publish again exactly: from 0013 if the stopped public containers fit a stage, the start only if the owner agreed; from 0012 only a start after a refusal that left no runtime container |
| `StackShape.SoundIs` | scripts/compose_stack.py:1055-1082 | a whole core with nothing left undone is wedged exactly when runtime containers have no worker to drain them |
| `StackController.HandoffIsRecognised` | scripts/compose_stack.py:1085-1112 | whatever happens after a rollback, the next start recognises the handoff exactly while core and worker run, and upgrade can drain it exactly at 0012 or 0013 |
| `Cidr.MaskIsRange` | scripts/compose_stack.py:303-309 | masking the host bits decides exactly the addresses from base to last |
| `Cidr.OverlapMeansSharedAddress` | scripts/compose_stack.py:705-744 | two blocks overlap exactly when they share an address |
| `Cidr.SameLengthSameBlock` | scripts/compose_stack.py:934-965 | at most one block of a given length contains an address, so a longest match is one block |
| `HostRoutes.ValidatePolicyRouting` | scripts/compose_stack.py:705-778 | accepts exactly the routes and rules whose every record passes; what passes is given by `RuleOkIff` and `RouteAcceptedIff` |
| `HostRoutes.RuleOkIff` | scripts/compose_stack.py:744-778 | a rule passes exactly if its meaning is known: a lookup of a table, or unreachable; any other may send a packet anywhere |
| `HostRoutes.ValidateHostRoutes` | scripts/compose_stack.py:874-931 | accepts exactly the routes that are defaults, exact owned records, or clear of the subnets |
| `HostRoutes.RouteAcceptedIff` | scripts/compose_stack.py:705-931 | both route checks together accept exactly a main default, a record of an owned bridge, or a route that shares no address with the subnets |
| `HostRoutes.RecordsAre` | scripts/compose_stack.py:934-965 | the records of a bridge are the kernel's own, to the letter for its gateway and broadcast address |
| `HostRoutes.ValidateAddressPools` | scripts/compose_stack.py:824-848 | accepts exactly the pools whose every subnet is an owned block or clear of the subnets |
| `HostRoutes.ForeignPoolsIffNoTwin` | scripts/compose_stack.py:824-848 | accepted pools are free of foreign overlap exactly when no foreign network has an owned block |
| `HostRoutes.ForeignTwinIsAccepted` | scripts/compose_stack.py:824-848 | adding a foreign network with the block of any owned bridge to any accepted list leaves it accepted, with a foreign overlap |
| `HostRoutes.MatchingRoutes` | scripts/compose_stack.py:781-965 | on an accepted host every matching route of any table is an owned bridge, an exact gateway or broadcast companion, or a main default |
| `HostRoutes.NoForeignRouteCaptures` | scripts/compose_stack.py:705-778 | whatever the rules select, a packet for the subnets takes an owned record or the main default, never a custom table |
| `HostRoutes.BridgeBeatsDefault` | scripts/compose_stack.py:874-931 | where the main table has the bridge record, the longest match is that bridge |
| `Preflight.ValidateHostNetworkIsolation` | scripts/compose_stack.py:781-931 | accepts exactly a complete stage or no own network, pools whose every block is an owned one or shares no address with the subnets, and off Linux any host, on Linux rules of known meaning and routes that are main defaults, own records or clear of the subnets; the accepted Linux host is isolated |
| `Preflight.OrdinaryHostIsAccepted` | scripts/compose_stack.py:859-931 | a host with the kernel's three rules, a default and clear routes is accepted, before the first start and with the records of every bridge afterwards |
| `Preflight.FirstStartSeesOnlyTheDefault` | scripts/compose_stack.py:874-931 | before the first start, on an accepted host, a packet for the subnets can only take a main default |
| `Topology.GrantIsTheTopologyCheck` | scripts/compose_stack.py:352-569 | on what Docker tells of a world, the topology check accepts exactly no network, or all seven with the attached services of one stage and a running core |
| `Topology.AuthenticIff` | scripts/compose_stack.py:352-464 | the listing and inspection of a world are authentic for a stage exactly when its attached services are that stage and the core runs |
| `Topology.EveryWorldIsTold` | scripts/compose_stack.py:352-464 | every world has Docker replies that tell it |
| `Attachments.StageTotals` | scripts/compose_stack.py:53-104 | the four stages have pairwise different endpoint totals: 16, 14, 9 and 7 |
| `Attachments.AddressesFit` | scripts/compose_stack.py:44-75 | every fixed address is a host address of its subnet apart from the gateway, and no two services share one |
| `Attachments.SustainedAddresses` | scripts/compose_stack.py:53-82 | the addresses in use on each network while everything runs |
| `Attachments.IdentifierIff` | scripts/compose_stack.py:105 | an identifier is 64 lower-case hexadecimal digits |
| `Attachments.CountsSumUp` | scripts/compose_stack.py:342-349 | counted by network or by service, a stage has the same number of attachments |
| `Attachments.AuthenticateNetwork` | scripts/compose_stack.py:538-569 | accepts exactly the listings that carry the stage's addresses on that network, each once |
| `Attachments.AuthenticateInspection` | scripts/compose_stack.py:352-464 | accepts exactly the inspections whose containers are the stage's services one to one, with exact networks and addresses |
| `Attachments.AuthenticateStage` | scripts/compose_stack.py:467-569 | returns a stage exactly when the networks and containers are authentic for it; never two |
| `Attachments.EndpointsAreServices` | scripts/compose_stack.py:352-464 | with distinct identifiers, every endpoint is an inspected container and conversely |
| `Attachments.EndpointsFitIffRepliesAgree` | scripts/compose_stack.py:352-464 | accepted endpoints have their service's address exactly when both Docker replies agree |
| `Attachments.SwappedEndpointsAreAccepted` | scripts/compose_stack.py:352-464 | for every project a listing with two exchanged endpoints is accepted |
| `Attachments.OwnedBridges` | scripts/compose_stack.py:467-569 | the bridges handed to the route check: one per network, sharing no address |
| `Blackboard.StepKeeps` | harness/contention.py:115-148 | every step of every committer keeps the invariant, and no step changes or removes a row |
| `Blackboard.RowsNeverChange` | harness/contention.py:115-148 | in every run, a row once written is the same in every later state |
| `Blackboard.RunsAreShort` | harness/contention.py:242-248 | no run takes more than eight steps per committer |
| `Blackboard.NoDeadlock` | harness/contention.py:242-248 | a reachable state with an unfinished committer always has a next step |
| `Blackboard.ExactlyOneWinner` | src/tracebed/stores/pg/blackboard.py:192-297 | every finished run on a free key has exactly one winner, whose row is stored, and answers everybody else from that row |
| `Blackboard.TakenKeyIsKept` | src/tracebed/stores/pg/blackboard.py:192-297 | a key committed beforehand is never won again, and its row is what everybody is answered from |
| `Blackboard.NoForgedRow` | src/tracebed/stores/pg/blackboard.py:207-216 | a proposal under another principal or project is refused, and no run stores a row under a name its committer is not authenticated as |
| `Blackboard.AnyoneCanWin` | harness/contention.py:263-314 | any authorised committer of a free key wins some finished run |
| `Contention.SharedKeyRound` | harness/contention.py:263-314 | every outcome handed in is counted once, also when threads died at the barrier; a round is consistent exactly when one committer succeeded, every other lost to its row, and the row is stored |
| `Contention.KeySquatRound` | harness/contention.py:329-397 | a round is clean exactly when the first commit landed, nobody hung, and everybody was refused in favour of the stored row |
| `Contention.RacesPassIffDistinct` | harness/contention.py:263-314 | the check passes in every interleaving and order of arrival exactly when the proposals are pairwise distinct |
| `Contention.EqualProposalsFail` | harness/contention.py:263-314 | for two equal proposals, a finished run that the check calls inconsistent |
| `Contention.AttackIsRepelledIff` | harness/contention.py:329-397 | a finished attack on a taken key is repelled exactly when no attacker proposed the stored value |
| `Contention.AttacksAreRepelledIff` | harness/contention.py:329-397 | an attack on a taken key is repelled in every interleaving and order of arrival exactly when no attacker proposes the stored value |
| `Contention.DrillRaceRound` | harness/contention.py:263-314 | every race round of the drill as written is clean, in every interleaving and order of arrival |
| `Contention.DrillAttackRound` | harness/contention.py:329-397 | every attack round of the drill as written is clean: the legitimate commit lands and all attackers are refused |
| `Contention.RunContentionDrill` | harness/contention.py:400-504 | the summed report passes either check exactly when every single round did (and there was one, for squatting) |
| `Regression.FitIsBest` | harness/soak.py:281-291 | the fit minimises the sum of the squared distances over all lines, and no other line attains it |
| `Regression.FallingValuesFallingLine` | harness/soak.py:281-291 | strictly falling values over increasing points give a negative slope |
| `Soak.EvenDistribution` | harness/soak.py:101-106 | nothing is lost, no two days differ by more than one, earlier days never get less |
| `Soak.DailyNewConditionSchedule` | harness/soak.py:109-118 | one entry per day, every full week on its target and two in the tail, each spread so that no two days differ by more than one and earlier days never get less |
| `Soak.Driver.Repeat` | harness/soak.py:223-259 | a repeat is always merged, never adds a row, and never reaches the failure |
| `Soak.Driver.ExtractionJob` | harness/soak.py:177-259 | a day adds exactly its scheduled rows and merges all its repeats |
| `Soak.RunSoak` | harness/soak.py:343-422 | growths and tail telescope to the final size; within the candidate lifetime they are the scheduled numbers; every scheduled discovery and every repeat is counted; the totals of new and merged observations in closed form |
| `Soak.VerdictIsTheTrend` | harness/soak.py:304-340 | the report passes exactly for two or more positive, strictly falling weeks, and raises exactly for one positive week |
| `Soak.ProjectionIsTheBestLine` | harness/soak.py:302-318 | the projection divides by zero exactly for one week; otherwise its line is the one closest to the points (week, logarithm of its growth), and a plateau is projected exactly if it falls |
| `Soak.PlateauIsTheCrossing` | harness/soak.py:304-319 | the fitted growth is below the threshold exactly after the projected week |
| `Soak.VerdictByHorizon` | harness/soak.py:343-422 | the horizon decides: a crash for 7 to 13 days, a pass for 14 to 41, a failure otherwise |
| `Markers.CountIsOneIff` | scripts/generate_authority_acl_profile_manifest.py:79-80 | for text that cannot overlap itself, the left-to-right count is one exactly when there is a sole occurrence |
| `Markers.RefusalIff` | scripts/generate_authority_acl_profile_manifest.py:76-86 | both operations refuse exactly the sources without one ordered marker pair |
| `Markers.ExtractionStrips` | scripts/generate_authority_acl_profile_manifest.py:76-86 | extraction gives what stands between the markers, without the white space around it and with one line break |
| `Markers.AsciiSpaces` | scripts/generate_authority_acl_profile_manifest.py:86 | which ASCII characters are stripped |
| `Markers.ReplacementIsWellMarked` | scripts/generate_authority_acl_profile_manifest.py:89-103 | after a replacement there is again one marker pair around the new block, and everything outside is unchanged |
| `Markers.ExtractAfterReplace` | scripts/generate_authority_acl_profile_manifest.py:76-103 | extracting after replacing gives the new block exactly |
| `Markers.LastReplacementWins` | scripts/generate_authority_acl_profile_manifest.py:89-103 | a second replacement forgets the first, and putting back what was just extracted changes nothing |
| `Manifest.RenderManifest` | scripts/generate_authority_acl_profile_manifest.py:43-73 | accepts exactly the non-empty lists of distinct canonical rows; a reader of the SQL statement gets from the text exactly these rows, in ascending order |
| `Manifest.ReadWhatWasRendered` | scripts/generate_authority_acl_profile_manifest.py:57-73 | a reader that demands the INSERT, the quoted parts, a comma after every row but the last and a semicolon after that one reads back the rendered rows |
| `Manifest.LeqIff` | scripts/generate_authority_acl_profile_manifest.py:46 | rows are ordered by the first part in which they differ |
| `Manifest.HexIff` | scripts/generate_authority_acl_profile_manifest.py:51 | a digest has lower-case hexadecimal digits |
| `Manifest.RenderingIsTheRowSet` | scripts/generate_authority_acl_profile_manifest.py:43-73 | canonical rows render to the same text exactly when they are the same rows in some order |
| `Manifest.RegenerateThenRead` | scripts/generate_authority_acl_profile_manifest.py:43-103 | rendering canonical rows into any well-marked source and reading them back gives the rendered text; regenerating again changes nothing |
| `Gates.Select` | harness/phase4_gate.py:133-150 | the cases that match, in order |
| `Gates.TallySays` | harness/phase4_gate.py:170-174 | every case is counted once, by its status |
| `Gates.ClausePassesIffGreen` | harness/phase4_gate.py:153-185 | a clause passes exactly when it selected a case, selected only passed ones, and its measurement passed |
| `Gates.ClauseVerdictSays` | harness/phase4_gate.py:181-185 | each of the four answers of a clause in terms of its cases and its direct measurement |
| `Gates.Judge` | harness/phase4_gate.py:757-801 | FAIL exactly on a failed or errored case, a direct measurement that decides against its clause or a counted selection of the wrong size; PASS exactly if all clauses are green and no case failed or was skipped untracked; INCOMPLETE otherwise |
| `Gates.PassIff` | harness/phase4_gate.py:793-799 | an overall PASS exactly when every clause is green, nothing failed and no skip is untracked |
| `Gates.FailIff` | harness/phase4_gate.py:793-799 | an overall FAIL exactly on a failed or errored case or a broken clause |
| `Gates.PassHidesOnlyHidden` | harness/phase4_gate.py:681-716 | in a passing run every collected case passed or is a tracked skip that no clause counts |
| `Gates.PassHasEvidence` | harness/phase4_gate.py:153-168 | every pytest-backed clause of a passing run counted a passed case |
| `Gates.SkipSurvivesIffHidden` | harness/phase4_gate.py:793-799 | one more skipped case anywhere leaves a PASS a PASS exactly when it is hidden |
| `Gates.RunFullGate` | harness/full_gate.py:130-205 | the weakest phase decides, and a crashed runner counts as a failure |
| `GatePhases.Phase0HidesExactly` | harness/phase0_gate.py:299-318 | phase 0 passes over exactly the skipped leak tests outside the seven probes and every other clause |
| `GatePhases.Phase0PassesOverASkip` | harness/phase0_gate.py:299-318 | a collection with a skipped case that passes |
| `GatePhases.Phase1HidesExactly` | harness/phase1_gate.py:349-353 | phase 1 passes over exactly the skipped working-memory tests that no other clause selects |
| `GatePhases.Phase1PassesOverASkip` | harness/phase1_gate.py:614-622 | a collection with a skipped case that passes |
| `GatePhases.Phase2HidesExactly` | harness/phase2_gate.py:306-306 | phase 2 passes over exactly the skipped extractor tests outside the eight named ones and every other clause |
| `GatePhases.Phase2PassesOverASkip` | harness/phase2_gate.py:306-306 | a collection with a skipped case that passes |
| `GatePhases.Phase3HidesExactly` | harness/phase3_gate.py:398-401 | phase 3 passes over exactly the skipped promotion tests outside the two named ones and every other clause |
| `GatePhases.Phase3PassesOverASkip` | harness/phase3_gate.py:398-401 | a collection with a skipped case that passes |
| `GatePhases.Phase4PassMeansAllPassed` | harness/phase4_gate.py:681-716 | a phase 4 PASS means that every collected case passed |
| `Deltas.DeltaMeans` | src/tracebed/workers/deltas.py:138-167 | an ADD is refused exactly for a present name, AMEND and REMOVE exactly for an absent one; otherwise exactly the named element changes |
| `Deltas.Consolidate` | src/tracebed/workers/consolidator.py:80-133 | refused exactly for a repeated incoming name; otherwise observed texts win, all else is carried, and the emitted deltas reproduce the result |
| `Deltas.NothingNewIff` | src/tracebed/workers/consolidator.py:80-133 | a sweep emits no delta exactly when it observes nothing new |
| `Deltas.LogIsTheState` | src/tracebed/workers/deltas.py:199-219 | replaying the recorded log of any history gives its state, without a refusal |
| `Deltas.LogIsTheStateBefore` | src/tracebed/workers/deltas.py:199-219 | replaying up to a sweep gives the state just before that sweep, for every sweep of an ordered history |
| `Retention.ThreeSweepsWithholdOnce` | harness/consolidation_regression.py:97-108 | any three consecutive sweeps withhold every fact exactly once and observe 2n facts |
| `Retention.RunRegression` | harness/consolidation_regression.py:206-233 | every fact is retained after every sweep, and every observation is one delta |
| `Retention.ReportOkIff` | harness/consolidation_regression.py:171-187 | the report is ok exactly for three or more facts, or two facts and two or more sweeps |
| `Retention.LossFails` | harness/consolidation_regression.py:178-187 | one lost fact in one sweep, and the report is not ok |
| `Vault.Store.Insert` | harness/closed_loop.py:265-281 | a new row; the invariant that both logs replay to the rows is kept |
| `Vault.Store.WriteEmbedding` | harness/closed_loop.py:303-318 | all three embedding fields or nothing; other projects untouched |
| `Vault.Store.AppendConfirmingRun` | harness/closed_loop.py:336-345 | the three outcomes exactly; a run is added once, and only to a quarantined row of the project |
| `Vault.Store.Persist` | harness/closed_loop.py:367-383 | refused exactly for a missing row, another project or a stale status; replaying the status log still gives every status |
| `Vault.Store.ApplyQUpdate` | harness/closed_loop.py:432-440 | replaying the update log gives value, uses and events of every row |
| `Vault.Store.SelectNeedingEmbedding` | harness/closed_loop.py:283-301 | in order, exactly the first `limit` rows that need it, or all; a negative limit drops that many from the end |
| `Vault.RetrievableIff` | src/tracebed/domain/state_machine.py:77 | three of the nine statuses can be retrieved |
| `Vault.Store.EmbedAll` | harness/closed_loop.py:283-318 | passes with a positive limit end with nothing left to embed, and change nothing but embeddings of the project |
| `Vault.Store.ApplyAll` | harness/closed_loop.py:236-440 | any sequence of operations: the logs still replay to the rows, no row, run or event is lost, only named projects change, and a status moves only by what was logged meanwhile |
| `Ledger.SpendRepo.SpendAdd` | harness/ledger_audit.py:91-123 | one row per day, worker and model; every total by cell or day is that of everything added |
| `Ledger.SpendRepo.SpendByDay` | harness/ledger_audit.py:124-125 | exactly the rows of the day, which total what was added that day |
| `Ledger.RowIsItsCell` | harness/ledger_audit.py:91-123 | a row holds exactly what was added to its cell |
| `Sorting.SortSorts` | scripts/generate_authority_acl_profile_manifest.py:46-46 | sorting gives a sorted arrangement of the same elements, for any total order |
| `Sorting.SortedIsUnique` | harness/fake_runtime.py:167-167 | two sorted arrangements of the same elements are the same list |
| `Percentile.OrderIsIrrelevant` | harness/fake_runtime.py:161-176 | the percentile depends only on the multiset of samples |
| `Percentile.MonotoneInPercentage` | harness/fake_runtime.py:161-176 | a higher percentage never gives a lower value, also across ranks |
| `Percentile.WithinBounds` | harness/latency_bench.py:131-145 | the percentile lies between any bounds of the samples |
| `Percentile.MonotoneInSamples` | harness/fake_runtime.py:161-176 | if no sample gets smaller, no percentile does, whatever the order of the samples |
| `Percentile.WholeRankIsOrderStatistic` | harness/latency_bench.py:131-145 | where the percentage is a whole number k of steps between the samples, it is the k-th smallest sample, by counting |
| `Percentile.EndsAreExtremes` | harness/latency_bench.py:131-145 | the smallest sample at 0 and the largest at 100 percent |
| `Percentile.BetweenRanksIsLinear` | harness/latency_bench.py:131-145 | between two neighbouring positions it lies on the straight line through their samples |
| `Percentile.Stats` | harness/latency_bench.py:148-156 | an attained maximum, ordered percentiles, a mean below the maximum; zeros for no samples |

## Left out

- Docker, subprocess, `ip` and JSON decoding: commands act on an abstract world, and parsed records are the input.
- StackController.Controller.ValidateRenderedConfiguration: host overlaps and foreign networks are clear here; `Preflight` treats them. One-shot containers hold no endpoint at that point.
- StackRuns.Undisturbed: a calm engine treats the endpoints of one service alike in the whole run; other engines are covered by the claims about `Anything`.
- The controller's thread lock and file lock, signal handling and diagnostics: one controller acts at a time.
- The labels, drivers, gateways and other shape checks of an inspected network (scripts/compose_stack.py:475-537); they would only add easy members.
- Preflight.ValidateHostNetworkIsolation: its input `shape` is the outcome of those checks, and parsed routes and pool subnets are canonical blocks.
- The bootstrap container, the database and its roles: their owner actions are a small contract of what success certifies and what failure may leave.
- Floating point: fits, percentiles, costs and Q values are reals, and logarithms only a strictly increasing function.
- Error message texts beyond the manifest's, timestamps of stored rows, and all report rendering.
- Blackboard.ExactlyOneWinner: rows carry no creation time and no isolation level; the store is the offline one with a single lock.
- Contention.DrillRaceRound: content addresses of different documents are taken to differ; principals and run identifiers are inputs.
- Contention.SharedKeyRound: the barrier and the joining of threads are the input `hung`; a run of the state machine never hangs.
- Soak.RunSoak: sweeps after the 45-day candidate lifetime may archive any rows, so growth is on target only for weeks that end within it; the scheduler and the novelty gate's texts are not modelled.
- Manifest.RenderManifest: generating the rows from a database is not part of this model.
- Gates.Judge: JUnit parsing, subprocess steps and drills are inputs: the cases and one verdict per clause; a clause without a direct measurement is given PASS.
- Retention.RunRegression: fact names and markers are numbers, and a text is its marker with the sweep that wrote it.
- Vault.Store.Insert: identifiers are numbers that the caller has not used before, instead of random UUIDs; provenance and promotion counters are left out.
- Ledger.SpendRepo.SpendAdd: the project is not part of the key, as in the source.
- Percentile.WithinBounds: percentages outside 0 to 100 are not modelled; no caller uses them.
- `compose_acceptance.py`, packaging and lint scripts, the other harness drills, the API, SDK and dashboard.
