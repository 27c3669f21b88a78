# The local worker controller, verified

The programs under `scripts/` claim a leased Run from a server, launch one systemd unit for it, send
that unit GO once, seal its stop and its output in a journal, and acknowledge the result. They must
survive process kills, machine crashes, lost replies and failing fsyncs at any moment. This project
models that behaviour and proves what it is meant to guarantee.

Everything is one Dafny project: `dafny verify dfyconfig.toml`.

## How it is built

Protocols that several processes, a disk and a server share are transition systems, so that the proofs
range over every interleaving. Objects and loops of a single process are classes and methods with loop
invariants, proved against specification functions. The controller is both: its methods move through the
transition system, with everybody else moving between any two of their effects.

| files | what they hold |
|---|---|
| `Records`, `RunDirectory` | ticket, journal phases, digest links; a Run directory as names that are absent, visible or durable |
| `CrashDisk`, `PublishMachine`, `PublishProof` | inodes, staged files, pending directory changes and torn writes; any number of concurrent publishers; agreement, and the refinement to the names of `RunDirectory` |
| `Journal` | the sequential journal: `_chain`, `_advance`, `unresolved` |
| `ControllerState` | controllers, units, disk and server as one transition system: every effect of `run`, `_seal`, `_abort` and `reconcile` is a step, and may raise or lose its reply |
| `ControllerInvariant`, `ControllerProof`, `ControllerSteps` | the inductive invariant and its proof, one program point at a time |
| `ControllerTheorems`, `ControllerProvenance`, `ControllerExposure`, `ControllerWitness` | what holds in every run; which reads and replies the records rest on; what a controller still holds after any failure; and a run that goes all the way, so that the theorems are about more than failures |
| `ControllerShapes`, `ControllerSite`, `ControllerCode` | the `Controller` object itself: its methods in the source's order, each effect one step of the transition system |
| `Paths`, `Files`, `Trees`, `OutputDiff`, `Collector`, `Untouched` | file maps, workspace trees, the output diff and the walk that collects it; a workspace nobody touched |
| `Reaping` | process trees under a guard: fork, exit, reparent, kill, wait; the guard's READY, GO, complete |
| `UnitBus` | the physical observer: held references, snapshots, the wait for a stop |
| `Leases`, `Frames`, `Transport`, `Fetch` | lease time bounds, pipe framing, request/reply pairing, chunk reassembly and download |

### What the outside is assumed to do

- A successful fsync makes what it covers durable; a failed one changes neither what is visible nor what
  is durable, and what was pending stays pending. A crash keeps the durable image and any subset of the
  pending directory changes; a file that was not synced comes back torn.
- `link` refuses an existing name atomically. A lock file is held until its process ends.
- A digest is injective. Tickets, unit names and staged names are fresh when they are drawn.
- A stopped unit is `failed` exactly when its final result is not success.
- A unit may start at any time after it was requested, even when the reply was lost. A stopped invocation
  never runs again. In `UnitBus` this is weaker: a unit may even be replaced by a later invocation.
- The server accepts a completion only from a completion message that was sent, never takes one back, and
  says `completed` of a lease only when that lease completed. Nothing is assumed of its cancellations, its
  stop acknowledgements, or of receipts in any other state.
- Only the modelled waits let time pass. The wall clock may jump at any of them.

### Results that are not simply "it holds"

- Collecting an untouched tree does not always return the empty diff. Frozen base64 whose spare bits are
  not zero decodes to the same bytes but does not compare equal, so exactly those files come back; the diff
  is empty if and only if every text is canonical in the sense of section 3.5 of RFC 4648. And `collect`
  counts directories as well as files: it refuses the tree of a valid map exactly when the names alone give
  more than 2048 entries below `out` (`Untouched.CollectUntouched`, `Untouched.AValidTreeCanBeRefused`).
- A tick can fail on a healthy lease once the server's clock is far enough behind. The bound is exactly 23
  seconds less the heartbeat interval, 18 seconds by default (`Leases.NeverFailsIff`).
- `wait_stopped` records the service result it read before the unit state that showed the stop, and never
  asks whether the unit had stopped by then. So success can be recorded, and exit code 0 published, of a
  unit that failed (`UnitObserver.ASuccessCanBeStale`, `ControllerWitness.AStaleSuccessCanBePublished`). The
  record shows it: the result is final if and only if it agrees with the recorded state, `failed` or
  `inactive` (`UnitObserver.ResultIsFinalIff`, `ControllerTheorems.ZeroExitIsRealIff`).
- Between two calls the reply pipe may still hold one frame: the last refusal of a helper that has died
  (`Transport.NothingIsLeftOver`). It can only be read as a failure.
- The text bound 21848 admits every 16384-byte chunk, and by itself two bytes more
  (`Fetch.ChunkTextBound`).

## Model

| member | source | states |
|---|---|---|
| `ControllerTheorems.PhysicalMutualExclusion` | scripts/worker_controller.py:195-246 | in every run of any number of controllers, crashes and restarts, no two units of one worker are ever both unstopped, counting requests that may still start |
| `ControllerTheorems.LaunchRestsOnDurableAcknowledgements` | scripts/worker_controller.py:195-232 | a unit is requested only when the Run's directory, ticket and launch record are durable and every other Run has a durable acknowledgement resting on a sealed stop, also when that acknowledgement was merely visible at first |
| `ControllerTheorems.AtMostOneGo` | scripts/worker_controller.py:243-246 | a Run id is sent GO at most once in the whole history |
| `ControllerTheorems.GoIsAdmitted` | scripts/worker_controller.py:198-246 | before GO the directory, ticket, launch and admitted records are durable, and the admitted one names the unit this same process launched |
| `ControllerTheorems.ReconcileNeverExecutes` | scripts/worker_controller.py:272-310 | a reconciling process never sends GO and never launches, from any crash state |
| `ControllerCode.Controller.Run` | scripts/worker_controller.py:180-270 | ends with the lock given up however it fails, and with every unit it requested sealed or still held; if it returns, this controller sent GO, the server completed this lease with the sealed output, and the acknowledgement is durable; a second call does nothing |
| `ControllerCode.Controller.Try` | scripts/worker_controller.py:212-267 | one call sends at most GO, one release and one completion, in this order, then a cleanup only if no publication was attempted: a Run is never both published and reported stopped by one call |
| `ControllerCode.Controller.Admission` | scripts/worker_controller.py:195-211 | on success every other Run is durably resolved, directory and ticket are durable, and no unit or GO was ever this Run's; nothing is sent and nothing held, so a failure has nothing to clean up |
| `ControllerCode.Controller.Advance` | scripts/worker_journal.py:225-267 | a record that was returned is durable, and only the steps of one publication were taken |
| `ControllerCode.Controller.LaunchUnit` | scripts/worker_controller.py:228-235 | the name is held from before the request; it counts as launched only with the reply |
| `ControllerCode.Controller.WriteGo` | scripts/worker_controller.py:245-246 | GO names the unit of this controller's launch record |
| `ControllerCode.Controller.Seal` | scripts/worker_controller.py:142-148 | exactly one release on success, at most one otherwise, and only under a sealed stop; a failure forgets no reference |
| `ControllerCode.Controller.Abort` | scripts/worker_controller.py:150-169 | always ends the call; without an identity nothing is sent or dropped; otherwise at most a release and then a stop message, and the stop message alone only for a stop sealed before and a unit no longer held |
| `ControllerCode.Controller.Publish` | scripts/worker_controller.py:255-260 | after the attempt flag is set a failure is left to `reconcile` |
| `ControllerCode.Controller.Reconcile` | scripts/worker_controller.py:272-310 | never launches or sends GO; if it returns, the acknowledgement is durable, and a completion is the server's, of the sealed output; nothing held is forgotten |
| `ControllerCode.Controller.Recover` | scripts/worker_controller.py:279-310 | one call sends at most one release and then one message |
| `ControllerCode.Controller.Settle` | scripts/worker_controller.py:297-310 | by the server's status: a completion is taken over without a message, an untouched lease gets the sealed output once more, everything else a stop message; the acknowledgement says the same |
| `ControllerCode.Controller.Close` | scripts/worker_controller.py:312-314 | refused while a name is held; otherwise every unit ever requested belongs to a Run with a sealed stop |
| `ControllerExposure.ExposureIsHeld` | scripts/worker_controller.py:114-121 | in every run, a unit requested without a sealed stop is still among its controller's references, lost replies included |
| `ControllerExposure.CloseMeansSealed` | scripts/worker_controller.py:312-314 | a controller that holds nothing left no unsealed unit behind |
| `ControllerTheorems.EffectsAreGuarded` | scripts/worker_controller.py:142-169 | every GO, completion, stop message and release is preceded by all it rests on; the last three by a durable stopped record of the admitted, stopped invocation |
| `ControllerTheorems.OneSealedOutput` | scripts/worker_controller.py:253-260 | all completion messages of a Run, from `run` or any later `reconcile`, carry the one sealed output under the one lease; exit code 0 only with a successful observation |
| `ControllerTheorems.ZeroExitIsRealIff` | scripts/worker_controller.py:253-260 | exit code 0 is sent only with a recorded success, and of a unit that did succeed exactly when the recorded state is not failed |
| `ControllerProvenance.SealedResultWasRead` | scripts/worker_unit.py:354-365 | in every run, the success and the identity in a stopped record are those that a process of that Run read at its wait for the stop |
| `ControllerProvenance.NoSuccessReadNoZeroExit` | scripts/worker_journal.py:135-136 | a Run none of whose waits read a success never sends exit code 0 |
| `ControllerProvenance.StopWasAcknowledged` | scripts/worker_journal.py:141-156 | a stop-only acknowledgement rests on an earlier reply in which the server acknowledged the stop of this very Run |
| `ControllerProvenance.CompletionWasReceived` | scripts/worker_journal.py:145-156 | a journaled completion is a receipt that a process of the Run got: completed, of the ticket's lease, with the stop acknowledged |
| `ControllerTheorems.CompletionIsTrue` | scripts/worker_controller.py:297-310 | a journaled completion means the server completed this very lease with the sealed output |
| `ControllerTheorems.ChainIsNeverBroken` | scripts/worker_journal.py:159-178 | in every reachable state the phases on disk are a valid prefix: `_chain` meets no gap or broken link the code made |
| `ControllerTheorems.DurableForever` | scripts/worker_journal.py:190-222 | a durable record is never lost or changed, through any steps and crashes |
| `ControllerTheorems.ActImproves` | scripts/worker_controller.py:180-310 | one step overwrites no record, sends at most one thing, and sends GO from one place only |
| `ControllerTheorems.NextKeepsDurable` | scripts/worker_journal.py:45-74 | every step, and a machine crash with any survivors, keeps what was durable |
| `ControllerTheorems.Reachable` | scripts/worker_controller.py:180-310 | the invariant holds in every state of every run |
| `ControllerSteps.NextKeeps` | scripts/worker_controller.py:180-310 | the inductive step for every label: spawn, lock, move, kill, crash, unit and server steps |
| `ControllerSteps.CrashKeeps` | scripts/worker_journal.py:190-222 | a machine crash with any surviving directories and names keeps the invariant of disk, units and history |
| `ControllerProof.ScanKeeps` | scripts/worker_journal.py:286-318 | visiting one Run directory in `unresolved` makes its acknowledgement durable before it counts |
| `ControllerProof.RequestKeeps` | scripts/worker_unit.py:210-216 | requesting a unit, with or without its reply, leaves at most one unit unstopped |
| `ControllerProof.GoKeeps` | scripts/worker_controller.py:245-246 | sending GO, completely or not, keeps at most one GO per Run and everything it rests on |
| `ControllerProof.AbortLoadKeeps` | scripts/worker_controller.py:150-169 | `_abort` sends a stop message, or releases, only where a sealed stop exists |
| `ControllerProof.StatusKeeps` | scripts/worker_controller.py:297-310 | `reconcile` republishes only the sealed output, and journals `completed` only on the server's word |
| `ControllerProof.AcceptedIsSealed` | scripts/worker_controller.py:259-260 | whatever the server accepted is the sealed output under the ticket's lease |
| `ControllerWitness.ARunCanComplete` | scripts/worker_controller.py:180-260 | from an empty root a run reaches GO, release, completion on the server and a durable acknowledgement |
| `ControllerWitness.AStaleSuccessCanBePublished` | scripts/worker_unit.py:354-365 | a run in which the server completes exit code 0 of a unit that failed |
| `PublishProof.Agreement` | scripts/worker_claim.py:93-141 | any two calls for one name that return, concurrent or after crashes, return the same record, durable from then on |
| `PublishProof.LoserAdoptsWinner` | scripts/worker_claim.py:123-135 | a call that returned stands for the durable record; a loser never returns its own nonce and proof |
| `PublishProof.NoTornRecord` | scripts/worker_journal.py:190-222 | no record name is ever bound to torn or unsynced bytes |
| `PublishProof.SurvivingPrefix` | scripts/worker_journal.py:159-222 | after every crash the phases form a prefix with correct links, each on a durable predecessor |
| `PublishProof.StepsRefineCells` | scripts/worker_journal.py:190-222 | with inodes, staged names, torn files and pending changes forgotten, every step is nothing, a directory fsync, a crash, or the link of a free name |
| `PublishProof.NextKeeps` | scripts/worker_journal.py:159-222 | the inductive invariant of any number of publishers under crashes, kills and failing calls |
| `PublishProof.LinkKeeps` | scripts/worker_journal.py:207-212 | the one publishing step binds a free name to a synced whole record that continues a durable chain |
| `CrashDisk.CrashRefines` | scripts/worker_journal.py:190-222 | a disk crash with any subset of pending changes is a crash of the names |
| `CrashDisk.CrashKeepsName` | scripts/worker_journal.py:71-71 | through a crash a name keeps its record or was never durable |
| `CrashDisk.SyncRefines` | scripts/worker_journal.py:177-177 | a directory fsync makes every visible name durable and changes no record |
| `CrashDisk.LinkRefines` | scripts/worker_journal.py:207-208 | linking a synced staged file turns an absent name visible |
| `CrashDisk.StagedWorkRefines` | scripts/worker_journal.py:198-217 | work on staged names is invisible to every record name |
| `RunJournal.RunFolder.Chain` | scripts/worker_journal.py:159-178 | succeeds exactly when the phases are a valid prefix and the fsyncs succeed; then all it read is durable |
| `RunJournal.GoodPrefixIsAccepted` | scripts/worker_journal.py:159-178 | the loop's phase-by-phase checks imply the whole-chain condition |
| `RunJournal.AcceptedIsGood` | scripts/worker_journal.py:159-178 | the whole-chain condition implies every phase check and no gap below a present phase |
| `RunDirectory.AcceptedIff` | scripts/worker_journal.py:109-156 | what `_chain` accepts, field by field: every digest is of the record before, one unit and identity all the way, no exit code 0 for a failed result, an acknowledgement of this Run with its stop acknowledged |
| `RunJournal.RunFolder.Publish` | scripts/worker_journal.py:190-222 | one publication of a single writer: link without overwrite, then fsync; an equal record is kept, another refused |
| `RunJournal.RunFolder.Advance` | scripts/worker_journal.py:225-267 | on success the record built from warranted values on its durable predecessor is durable: one unit, one identity, a stop or completion that the server acknowledged; on failure nothing published changed and the chain is still valid |
| `RunJournal.CandidateIff` | scripts/worker_journal.py:225-267 | a phase can be built exactly from values that name the records before it and the server's own acknowledgement, and holds these values with the digest of its predecessor |
| `RunJournal.PublishingKeepsTheChain` | scripts/worker_journal.py:251-267 | publishing an admissible record leaves a valid chain, makes that phase durable and leaves every other phase as it was |
| `RunJournal.PublishingAgain` | scripts/worker_journal.py:213-214 | a published phase is immutable: equal values change nothing, others are refused |
| `RunJournal.ThreeStepsAdvance` | scripts/worker_journal.py:251-267 | the transition system's barrier, link and fsync steps in sequence are the sequential `_advance` |
| `RunJournal.RunFolder.Inspect` | scripts/worker_journal.py:300-314 | one scanned directory: refused unless ticket, chain and owner agree; the last phase is found |
| `RunJournal.StateRoot.Unresolved` | scripts/worker_journal.py:286-320 | returns exactly the Runs without acknowledgement, with the phase they reached, and only when every entry is readable, names its own directory and launched under its own lease; then everything seen is durable |
| `RunJournal.StateRoot.NothingPending` | scripts/worker_controller.py:195-197 | when nothing is pending every Run is durably resolved |
| `Paths.SplitJoin` | scripts/worker_inputs.py:43-46 | splitting a joined path gives its parts back |
| `Paths.JoinSplit` | scripts/worker_inputs.py:43-46 | joining a split text gives the text back |
| `Paths.JoinInjective` | scripts/worker_inputs.py:35-46 | two files have one key exactly when they have the same components |
| `Paths.LegalIsSlashFree` | scripts/worker_inputs.py:35-46 | a legal path is determined by its key |
| `Paths.WalkStays` | scripts/worker_inputs.py:43-46 | walked by the kernel, with `.` and `..` interpreted, a legal path stays on its own components below the root |
| `Paths.NoControlName` | scripts/worker_inputs.py:44-45 | no component is a control name in any mix of upper and lower case |
| `Paths.PartsAreOrdinary` | scripts/worker_inputs.py:35-45 | no component is empty, blank, `.` or `..`, or holds a slash, a backslash or a control character; the key has at most 512 characters |
| `Paths.StartsWithOut` | scripts/worker_outputs.py:34-35 | the textual `out/` test is the test for a file below the directory `out` |
| `Files.DescriptionsAreAccepted` | scripts/worker_inputs.py:58-68 | a file's description is accepted exactly up to 1048576 bytes, for which 1398104 base64 characters are just enough |
| `Files.AcceptedIsADescription` | scripts/worker_inputs.py:58-68 | an accepted descriptor is exactly a description of at most 1048576 bytes, up to the spare bits of its text |
| `Files.Validate` | scripts/worker_inputs.py:88-99 | accepts exactly the maps that are legal, prefix-free and within every bound, in whatever order it visits them |
| `Files.SumAny` | scripts/worker_inputs.py:91-98 | the total does not depend on the order of the files |
| `Trees.Workspace.Place` | scripts/worker_inputs.py:179-195 | creating one file fails exactly on a non-directory on the way or an existing file; otherwise the tree gains the missing directories and the file |
| `Trees.Workspace.Materialize` | scripts/worker_inputs.py:163-198 | on every valid map, in any order, there is no collision and the tree is exactly the map's tree |
| `Trees.PlacingIsFree` | scripts/worker_inputs.py:94-95 | in a prefix-free map no file placed so far is in the way of another |
| `Trees.FlattenTreeOf` | scripts/worker_inputs.py:163-198 | round trip: flattening the materialized tree gives the map back |
| `Trees.TreeOfIsWellFormed` | scripts/worker_inputs.py:170-198 | the materialized tree is a tree: every node sits in a directory |
| `Trees.TreeFilesArePrefixFree` | scripts/worker_outputs.py:43-46 | the files of any tree are prefix-free |
| `OutputDiff.OverlayIsTheTree` | scripts/worker_outputs.py:98-165 | the diff laid over the frozen files gives exactly the tree's files at selected paths and below `out` |
| `OutputDiff.DiffIsMinimal` | scripts/worker_outputs.py:138-149 | every diff with that effect contains this one |
| `OutputDiff.UntouchedDiff` | scripts/worker_outputs.py:146-149 | the diff of an untouched tree names exactly the files with non-canonical base64 |
| `Untouched.CollectUntouched` | scripts/worker_outputs.py:98-167 | materialize, then collect: it returns exactly for the valid maps with at most 2048 entries below `out`, counted from the file names, and returns exactly the files with non-canonical base64 |
| `Untouched.AcceptableIff` | scripts/worker_outputs.py:121-127 | an untouched tree of a valid map can be collected exactly when those entries are at most 2048 |
| `Untouched.AValidTreeCanBeRefused` | scripts/worker_outputs.py:121-127 | nine empty canonical files make a valid map whose own tree is refused |
| `OutputDiff.ValidateOutput` | scripts/worker_outputs.py:18-47 | decides exactly the declared condition on input, summary, exit code and files, in any order; on success every file after the overlay is an input or below `out`, only inputs are deleted, and all bytes, names and bounds are in order |
| `OutputDiff.AcceptedStaysInScope` | scripts/worker_outputs.py:31-46 | an accepted output laid over the input adds files below `out` only, deletes inputs only, and leaves acceptable files none of which is a directory on the way to another |
| `Collector.Selected` | scripts/worker_outputs.py:83-95 | a selected path is read, missing, or refused for exactly the stated reasons |
| `Collector.Collector.Add` | scripts/worker_outputs.py:107-117 | a file is taken once; refusal means the whole diff does not fit |
| `Collector.Collector.Visit` | scripts/worker_outputs.py:121-140 | the recursive walk sees every node below a directory once and takes exactly those that differ; refusal means the workspace is not acceptable |
| `Collector.Collect` | scripts/worker_outputs.py:98-167 | returns the diff exactly on the acceptable workspaces |
| `Collector.AcceptableIsPlain` | scripts/worker_outputs.py:50-149 | where `collect` succeeds, selected names and everything below `out` are plain files within the size bound, or directories, with legal names, and the overlay holds exactly these files with their bytes and modes |
| `Collector.ClosingCheckAccepts` | scripts/worker_outputs.py:165-165 | the closing `validate` can never refuse what the traversal accepted |
| `Reaping.ChainsReachTheGuard` | scripts/browser_guard.py:40-57 | in every interleaving of fork, exit, reparent, kill and wait each task has a chain of living parents to the guard |
| `Reaping.NoChildMeansNobody` | scripts/worker_namespace.py:129-131 | ECHILD means the whole tree is gone |
| `Reaping.ExitKeepsRoots` | scripts/browser_guard.py:40-42 | an exit hands the children to a living older adopter |
| `Reaping.Namespace.ReapTasks` | scripts/worker_namespace.py:106-131 | terminates with nobody but the guard left, and has counted every other task once |
| `Reaping.Namespace.ReapSubtree` | scripts/browser_guard.py:40-57 | if the subreaper's loop ends, under any forking between its steps, no descendant is left |
| `Reaping.Inside` | scripts/worker_namespace.py:142-178 | READY only once the workspace stands, the task only on the line GO, complete only once no task is left and the output was collected, with the task's exit code or 124; what is counted is every task the started one left behind, once each; however it ends, no task is left |
| `Reaping.ExitCode` | scripts/worker_namespace.py:163-166 | wait statuses become exit codes up to 255, and 0 only for status 0 |
| `UnitObserver.SetsTellTheHistory` | scripts/worker_unit.py:175-228 | launched is within confirmed, confirmed within references, and each says exactly what the effects so far say |
| `UnitObserver.LostForever` | scripts/worker_unit.py:210-228 | a name whose reply was lost stays ambiguous for the observer's life: never captured, released, launched or adopted again |
| `UnitObserver.CaptureNeedsOwnLaunch` | scripts/worker_unit.py:259-264 | a captured name was launched by this connection with its reply received and not released since; a reattached one never is |
| `UnitObserver.UnitBus.Launch` | scripts/worker_unit.py:175-216 | a name that was confirmed exists; it is held before the request; a lost reply leaves it held and unconfirmed |
| `UnitObserver.UnitBus.Retain` | scripts/worker_unit.py:218-228 | reattaches only an unambiguous name, and only to the exact invocation that its last look showed |
| `UnitObserver.UnitBus.Capture` | scripts/worker_unit.py:259-291 | only an own launch, active, without a job and with a main process, under one invocation |
| `UnitObserver.UnitBus.Stop` | scripts/worker_unit.py:293-296 | only a request for the exact invocation, held and shown by its last look; no name is dropped |
| `UnitObserver.UnitBus.AbortLaunch` | scripts/worker_unit.py:298-308 | only a request for an own launch; no name is dropped |
| `UnitObserver.UnitBus.Close` | scripts/worker_unit.py:388-393 | succeeds exactly when every name this connection ever launched or referenced was released again; one lost reply refuses it for good |
| `UnitObserver.UnitBus.RunLoop` | scripts/worker_unit.py:366-371 | entered only while every change since the last look still has its signal to come, and ended by the first such signal; otherwise by the timer or the service |
| `UnitObserver.UnitBus.WaitStopped` | scripts/worker_unit.py:310-376 | all that was shown to it, in order, is rounds that showed no stop and then its conclusion: a stop shown twice of the exact invocation, which is over for good, or a true reason for none; every block is followed by another look unless the service raised |
| `UnitObserver.NoStopOverlooked` | scripts/worker_unit.py:351-367 | whatever was shown in the rounds before the end of a wait did not show a stop: a round that does is never passed over for the deadline |
| `UnitObserver.DecideIff` | scripts/worker_unit.py:354-365 | a stop is decided exactly on two looks at an inactive or failed, jobless unit, the first without a main process and with an empty control group |
| `UnitObserver.UnitBus.Release` | scripts/worker_unit.py:378-386 | drops a reference only after one more such observation; a lost reply drops nothing |
| `UnitObserver.OverForever` | scripts/worker_unit.py:199-209 | a stopped and empty invocation stays over, whatever the manager does |
| `UnitObserver.ResultIsFinalIff` | scripts/worker_unit.py:358-365 | the recorded result is the unit's result in every continuation exactly when the recorded state agrees with it |
| `UnitObserver.ASuccessCanBeStale` | scripts/worker_unit.py:354-365 | reads along a possible evolution on which success is recorded of a failed unit |
| `Leases.Lease.Status` | scripts/worker_controller.py:64-77 | a receipt is taken over only when it names this run and lease and came back within 5 seconds |
| `Leases.Lease.Tick` | scripts/worker_controller.py:50-83 | when it passes, the last receipt was requested strictly less than 29 seconds ago; a forced tick passes only on a receipt of this lease, just requested, claimed, neither cancelled nor stopped, and more than a second from its expiry |
| `Leases.NeverFailsIff` | scripts/worker_controller.py:64-83 | ticks at most 1 second apart never fail in any run with a steady server exactly when its clock is at most 23 seconds less the interval behind |
| `Leases.SteadyStaysAmple` | scripts/worker_controller.py:72-77 | every tick of such a run leaves more than one second of validity, also past the next due time |
| `Leases.FailsBeyond` | scripts/worker_controller.py:72-82 | any larger lag has a run that fails |
| `Framing.Frames.Write` | scripts/worker_io.py:29-38 | whatever the splits, a prefix goes out, and all of it on success; a failure is a passed deadline or a failed tick; under a lease each byte within 30 seconds of the last receipt's request |
| `Framing.Frames.Read` | scripts/worker_io.py:40-63 | returns the next frame and keeps the rest, at once if it is already here; pending bytes never exceed the bound; a failure is a passed deadline, a failed tick, the end, or a frame too long |
| `Framing.RoundTrip` | scripts/worker_io.py:29-63 | what a reader returned is the first of the frames written, in order, and all of them once it has caught up |
| `Framing.TooBigIsTrue` | scripts/worker_io.py:53-54 | the bound error fires only for a frame that is really too long |
| `Framing.SendGo` | scripts/worker_controller.py:245-246 | each GO byte leaves within 30 seconds of the request of a receipt of this lease that was claimed, not cancelled, not stopped and not expired when judged, however the wall clock moves |
| `Transport.MCP.Request` | scripts/worker_transport.py:47-67 | a value returned by call i is the helper's reply to request i; any failure closes the transport and joins the helper |
| `Transport.MCP.CallTool` | scripts/worker_transport.py:90-93 | only the worker's own tools; another name changes nothing |
| `Transport.MCP.Enter` | scripts/worker_transport.py:69-88 | opens only where no helper was ever started; once one was, it refuses for good |
| `Transport.MCP.Exit` | scripts/worker_transport.py:95-104 | afterwards the helper is dead and the transport closed, whatever it answered |
| `Transport.NothingIsLeftOver` | scripts/worker_transport.py:47-67 | between successful calls no reply to an earlier request is left to be read later |
| `Transport.ARefusalCanBeLeft` | scripts/worker_transport.py:155-165 | the one leftover frame does occur: the helper answers and then dies with a refusal |
| `Fetch.FetchInput` | scripts/worker_inputs.py:115-160 | against any server it stops within the byte count of its first reply, and returns one gapless cover under one identity with a matching digest; from an honest server exactly the content, in as few calls as possible |
| `Fetch.CoverIsExact` | scripts/worker_inputs.py:132-148 | every part of what was accepted repeats the one identity, starts where the parts before it end, holds 1 to 16384 bytes, and announces the next part's offset exactly when more is to come |
| `Fetch.StaysFaithful` | scripts/worker_inputs.py:124-148 | no check refuses a chunk an honest server sends, and every step follows its content |
| `Fetch.RefusedMeansUnserved` | scripts/worker_inputs.py:126-144 | a refused reply means that the server does not serve any content |
| `Fetch.ChunkTextBound` | scripts/worker_inputs.py:136-141 | the text bound admits every full chunk |
| `Fetch.Gather` | scripts/mcp_workspace.py:140-159 | the download loop: a gapless cover under the descriptor, and its digest |
| `Fetch.Folder.Link` | scripts/mcp_workspace.py:164-164 | publication refuses an existing name and never replaces it |
| `Fetch.Download` | scripts/mcp_workspace.py:124-167 | the directory ends as others left it, plus, on success only, one name that was free with bytes that match the descriptor |

## Left out

- Concurrent `_publish` and `claim.prepare` are modelled on values, as a transition system over all interleavings; `RunJournal` has the sequential object.
- ControllerCode.Controller.Run: the tickets, frames and transports it creates are locals of the process state; that other controllers do not use its process number is assumed.
- ControllerState.Truthful: the server is trusted about `completed`; what it does on cancellation, expiry or a stop request is not modelled.
- RunJournal.RunFolder.Publish: the staged file, a lost link race and the second read are in `PublishMachine`; here they are outcomes.
- Framing.Frames.Read: the JSON inside a frame is not parsed; a frame that does not parse is consumed and then raises.
- Leases.NeverFailsIff: server time is real-valued but for the expiry, which is in whole milliseconds; rounding counts as lag.
- Reaping.Namespace.ReapSubtree: termination is not claimed, since tasks can fork between two kills of the direct children.
- Transport.MCP.Request: the helper's requests to the server and their side effects; a failed request may have had its effect.
- Fetch.FetchInput: decoding and validating the bundle is a parameter; `Files.Validate` treats its files.
- `Controller.__init__`: publishing `controller.json` is one more use of `_publish`.
- D-Bus, GLib, systemd, bubblewrap, cgroup files and prctl: environment steps only; boot and manager identity are part of `Identity`.
- Resource bounds checked by `capture`: one outcome, differing or not.
- JSON, SHA-256, base64 and UUID libraries: typed values, injective digests, and base64 by its length and round trip; record size limits are left out with them.
- File owners, permission bits, symbolic links and inode replacement: single refusals, but for the `Special` nodes of `Trees`. A private root and a quiescent workspace are assumed.
- Removal of a partly built workspace when `materialize` raises.
- HTTP, sessions, login, the command line, `worker_sci.py` and `worker_runtime.py`: plumbing without a hard property.
- The server's own source is not part of this model.
