# Murge: models and proofs

A Dafny project about the parts of the Murge client that are hardest to get right by reading: the kernel
process supervisor, the privileged service that owns the TUN core, its version catalog and its forwarding
keeper, the quit path, the capped log with its flush, the log archive, the strict kernel configuration and
the profile transformation.

Each module belongs to one part of the program and has the same plan. What an operation does is a function
on values, with everything the outside decides (I/O errors, child deaths, timers, the order of events) as
an input. Where the program updates an object in place or runs a loop, a class or a method does the same
steps and is proved equal to that function. The properties are lemmas about the functions, mostly over all
runs.

| module | part of the program |
|---|---|
| `Supervisor`, `Requests`, `KernelProcess` | the kernel lifecycle as a step machine (one step is the code between two `await`s), what its requests come to over whole runs, and the supervisor object segment by segment |
| `Ownership` | the service's session manager over its record file |
| `VersionTrust` | the trusted versions, their two rolling generations and the directories behind them |
| `Forwarding`, `Gateway` | the keeper of the host's forwarding flags and firewall rule, and what it is for, said of the adapter listing alone |
| `QuitFence` | fence bits, single flight, runtime gate and the ordered quit flow |
| `FileLog`, `LogService` | one capped log file; the ordered queue, its consumer and the flush watermark |
| `Calendar` | the civil-date formula and the log retention |
| `Zip` | the archive writer, against a reader written from the format's description |
| `Yaml`, `StrictConfig` | plain scalars and the tree builder; the strict validator and the generator |
| `ProfileConfig` | the profile-to-kernel transformation and the two overlays |
| `Text`, `Wrappers` | numerals, characters, options and results |

`dafny verify dfyconfig.toml` checks everything.

## Where the code does less than one would expect

Each of these is a lemma with a concrete run or input, or the exact condition under which the property
holds; mostly both.

- Phase `running` does not always come with a handle or a pending exit task: with a readiness pattern the
  report can be followed by the exit and the end of its task before `start` resumes (`LateReportHappens`,
  `RunningIsBackedExactly`). The comments at src-tauri/src/kernel_process.rs:1310 and 1550 speak of an exit
  that ends a start early; the code has no such step, and the model follows the code.
- If a crash restart passes its epoch check and only then waits for the lifecycle lock, it can start a
  kernel over a pending post-exit task, which then cleans the workspace of a live process
  (`QueuedRestartBreaksHygiene`) and can answer a stop in its place (`QueuedRestartBreaksSilence`). That
  step is exactly where hygiene and silence end (`StepKeepsClean`, `HygieneEndsExactly`,
  `SilenceEndsExactly`). A queued restart is also not paid from the budget it runs under
  (`QueuedRestartGoesUnpaid`); the bound that holds is reached (`RestartBudget`, `RestartBudgetIsReached`).
- A child that could be neither recorded nor stopped is forgotten by the next reconcile
  (`OrphanIsShadowed`, `StartKeepsOwnedChild`). A child that was not recorded, or whose record went away while
  the session profile stayed, is still answered as running (`EventKeepsRecorded`, `RunningIsRecorded`).
- A refresh that stops before its marker loses the core if only the previous generation worked
  (`OnlyCurrentSurvives`). A refresh with the digest of the current generation can lose it exactly if the
  name or size differs from the record and no other generation is intact (`SameDigestExactly`).
- A managed adapter is forgotten even if switching it off failed (`OperationEffect`). One that came back
  switched on by someone else while still on the list is switched off (`ClaimedIsSwitchedOff`,
  `OnlyClaimedAreTaken`).
- If adding a firewall rule fails after the old one went away, the keeper believes in a rule that is gone
  (`FirewallBelief`).
- An append that gives up after resetting the cached size lets the file grow past the cap
  (`GivingUpBreaksTheCap`); `CapUnderFailures` says for all failures when that happens.
- `enqueue` takes its number before it sends; another thread in between makes `flush` return too early
  (`OvertakingReturnsEarly`, `OvertakingIsExact`, `FlushIsComplete`).
- A forced quit sets the ordinary bit without the single flight, so that a quit that fails meanwhile takes
  its fence away (`ForcedFenceIsCleared`, `CancelClearsItsOwn`).
- A secret of digits only whose value is below 2^63, or of the form digits-e-digits with a finite value, is
  written unquoted and reads back as a number, which the validator rejects (`SecretReadsBack`).
- `parse_log_file_stamp` lets days up to 31 through for every month (`OverlongDayRollsOver`).
- The DNS overlay and the profile transformation do not commute when the controlled core settings disagree
  with the DNS enhancement on `ipv6` (`DnsCommutesWithBuild`).

## Model

| member | source | states |
|---|---|---|
| `Supervisor.OneKernel` | src-tauri/src/kernel_process.rs:1176-1279 | in every state of every run (start, stop, delayed and queued restarts, exit, error, timeout and timer steps in any order) at most one process lives, it is the tracked handle even after it survived SIGKILL, and a spawn never happens beside a live process or an undelivered terminal event |
| `Supervisor.RunKeepsKernelInv` | src-tauri/src/kernel_process.rs:1408-1509 | the inductive invariant behind it: live processes and pending events belong to the handle, and the lock holder that is about to spawn tracks nothing |
| `Supervisor.WorkspaceHygiene` | src-tauri/src/kernel_process.rs:1517-1598 | each materialized workspace is cleaned at most once, never while its process lives, and all earlier ones are gone when the next is materialized, over all runs, queued restarts included, in which no restart goes on to do_start over a pending post-exit task |
| `Supervisor.StepKeepsClean` | src-tauri/src/kernel_process.rs:1176-1700 | one step keeps the invariant of processes, tasks and workspaces exactly if it is not such a restart |
| `Supervisor.HygieneEndsExactly` | src-tauri/src/kernel_process.rs:1684-1700 | after such a run the next step is such a restart exactly if the resolver answering right after it leads to a second workspace beside an uncleaned one: the restart path lacks the wait that start has |
| `Supervisor.RunKeepsClean` | src-tauri/src/kernel_process.rs:1548-1700 | the inductive invariant over those runs |
| `Supervisor.UnqueuedIsOrderly` | src-tauri/src/kernel_process.rs:1686-1689 | if the epoch check and the lock are one step, no restart ever starts over a pending cleanup |
| `Supervisor.SilenceAfterStop` | src-tauri/src/kernel_process.rs:1452-1475 | once the lock is free in phase stopped nothing is spawned before the next start, whatever restarts still sleep or are queued and whichever epoch they carry, over the runs of WorkspaceHygiene |
| `Supervisor.SilenceEndsExactly` | src-tauri/src/kernel_process.rs:1684-1700 | after such a run the next step is a restart over a pending cleanup exactly if some run of the same kind from there, without a further start, ends stopped with the lock free and something left that is not silent |
| `Supervisor.QueuedRestartBreaksSilence` | src-tauri/src/kernel_process.rs:1575-1586 | outside those runs a stop can be answered by an older exit task: phase stopped, the lock free, the process alive |
| `Supervisor.RestartBudget` | src-tauri/src/kernel_process.rs:1654-1701 | over every run, between two refills: the automatic starts, by fired and by queued restarts, are at most what is left of the budget and the restarts asleep or queued when the window opens |
| `Supervisor.RestartBudgetIsReached` | src-tauri/src/kernel_process.rs:1654-1701 | the bound is reached from every reachable state in which the last start failed, everything is cleaned up and a restart is asleep or queued |
| `Supervisor.UnqueuedBudget` | src-tauri/src/kernel_process.rs:1654-1701 | if no restart was queued before, they are at most max_restarts |
| `Supervisor.QueuedRestartGoesUnpaid` | src-tauri/src/kernel_process.rs:1686-1700 | a restart queued over a refill makes the supervisor start once more by itself than max_restarts allows, for every positive max_restarts |
| `Supervisor.AutoStartsArePaid` | src-tauri/src/kernel_process.rs:1664-1700 | every automatic start uses up one restart that was scheduled, asleep or queued, from any state |
| `Supervisor.BudgetTimerOwner` | src-tauri/src/kernel_process.rs:1326-1353 | in every run a budget timer that refills anything was armed by the latest process, which is the tracked one if any is tracked |
| `Supervisor.RunKeepsTimers` | src-tauri/src/kernel_process.rs:1326-1342 | in every run phase running is entered as the lock is released, and the newest timer belongs to the newest process |
| `Supervisor.RestartDelayShape` | src-tauri/src/kernel_process.rs:1669-1674 | the backoff never shrinks with the attempt, doubles until the cap, never passes the cap and is constant from attempt 17 on |
| `Supervisor.RunningIsBackedExactly` | src-tauri/src/kernel_process.rs:1326-1326 | after every run a step keeps "running implies a handle or a pending exit task" exactly if it is not a late readiness report |
| `Supervisor.RunningIsBackedWithoutMarker` | src-tauri/src/kernel_process.rs:1376-1379 | without a readiness pattern phase running always has a handle or a pending exit task, in every run |
| `Supervisor.LateReportHappens` | src-tauri/src/kernel_process.rs:1385-1396 | with a readiness pattern a run reaches phase running with neither: the report arrives, the process exits and its task ends before start resumes |
| `Supervisor.QueuedRestartBreaksHygiene` | src-tauri/src/kernel_process.rs:1686-1689 | a run in which a restart passes its epoch check and then waits for the lock ends with the workspace of a live process being cleaned |
| `Requests.TwoWaitsBeforeGivingUp` | src-tauri/src/kernel_process.rs:1408-1449 | over every run: a terminate sends SIGTERM to the tracked process and after a first expired exit wait SIGKILL, waits for the same process all along, and leaves it tracked only after a second expired wait; in runs in which no restart starts over a pending cleanup no answer of an exit task ends it earlier |
| `Requests.StopStopsOrGivesUp` | src-tauri/src/kernel_process.rs:1452-1509 | after any such run a stop that is over has left phase stopped, nothing alive or tracked and every workspace removed, or phase failed; the latter exactly if two exit waits have expired (no error report of the process meanwhile) |
| `Requests.StartIsNeverBarred` | src-tauri/src/kernel_process.rs:1176-1206 | in every run, with the lock free the phase is stopped, running or failed, and a start goes on exactly if nothing runs and nothing is tracked |
| `Requests.StartEndsReadyOrFailed` | src-tauri/src/kernel_process.rs:1208-1324 | over every run a start ends running or failed: running only after the marker was seen in the output of the process it spawned, or with no pattern by spawning; a failed one leaves a process tracked only after both exit waits |
| `Requests.RefillIsWhole` | src-tauri/src/kernel_process.rs:1199-1203 | in every run a refill leaves the whole budget, and a start or a stop no restart that could still fire |
| `Requests.SustainedRunRefills` | src-tauri/src/kernel_process.rs:1326-1353 | when the phase turns running with the process tracked the timer is armed, and if nothing happens to the process until it fires, the whole budget is back |
| `Requests.TimerIsFresh` | src-tauri/src/kernel_process.rs:1330-1339 | in every run the epoch under which a running phase is armed is new, so that no earlier timer can refill it |
| `Requests.ExitEndsTheSustainedRun` | src-tauri/src/kernel_process.rs:1548-1562 | without a readiness pattern no timer refills the budget of a process whose exit was seen |
| `Requests.TimerIsInvalidated` | src-tauri/src/kernel_process.rs:1476-1489 | an exit, and a stop of a tracked process, leave no timer that could still refill |
| `Requests.ErrorRefusesTheStart` | src-tauri/src/kernel_process.rs:1601-1611 | in every run a start that waits for its report and is told of an error ends in phase failed |
| `Requests.ErrorIsNeverIgnored` | src-tauri/src/kernel_process.rs:1612-1652 | an error report of a process that seems alive keeps it tracked in phase failed; any other drops the handle of a dead process and leaves a task that cleans up |
| `Supervisor.Starts` | src-tauri/src/kernel_process.rs:1208-1324 | a start none of whose steps fails ends in phase running with the new process tracked and alive |
| `KernelProcess.KernelSupervisor.Perform` | src-tauri/src/kernel_process.rs:1176-1701 | whichever segment between two awaits comes next, the history of the object stays a run of the step machine with its fields as the state, and a process is spawned only beside no other and becomes the handle |
| `KernelProcess.KernelSupervisor.TracksWhatIsAlive` | src-tauri/src/kernel_process.rs:1184-1194 | the object tracks every live process |
| `KernelProcess.KernelSupervisor.IsHygienic` | src-tauri/src/kernel_process.rs:1517-1598 | as long as no restart started over a pending cleanup, the workspaces of the object are hygienic, and stopped with a free lock it has nothing left |
| `KernelProcess.OnlySpawnsAdd` | src-tauri/src/kernel_process.rs:1258-1279 | no step but a spawn adds a process, and a spawn finds none alive |
| `KernelProcess.KernelSupervisor.RefillBudget` | src-tauri/src/kernel_process.rs:1339-1352 | the timer refills only under its own epoch in phase running, and its log line ignores the caps |
| `KernelProcess.KernelSupervisor.AppendLog` | src-tauri/src/kernel_process.rs:1128-1141 | one more line, then the oldest go until both caps hold |
| `KernelProcess.RotatedIsLongestSuffix` | src-tauri/src/kernel_process.rs:1131-1140 | what is kept is the longest suffix of the log that meets both caps |
| `Ownership.OneOwnedChild` | native/tun-service/manager.go:165-333 | over every run of requests, store errors, child deaths and service crashes without an orphaned child, a live child is both the owner in memory and the stored record, and no start ever creates a process beside it |
| `Ownership.StatusTellsOfChild` | native/tun-service/manager.go:260-277 | over the same runs the status names a living child, as running or in conflict, and never reports stopped or failed beside it |
| `Ownership.EventKeepsOwnedChild` | native/tun-service/manager.go:165-333 | one event keeps that exactly if it does not orphan a child |
| `Ownership.StartKeepsOwnedChild` | native/tun-service/manager.go:190-205 | a start breaks it exactly if the write and the emergency stop both fail and the child lives on |
| `Ownership.NoSecondChild` | native/tun-service/manager.go:165-190 | a start that reaches the runtime finds no child alive |
| `Ownership.ReconcileKeepsOwnedChild` | native/tun-service/manager.go:279-333 | reconciling never touches a child and keeps a live one owned |
| `Ownership.StartGate` | native/tun-service/manager.go:165-189 | when a start reaches the runtime, also out of the blocked state |
| `Ownership.StopEndsOnlyItsOwn` | native/tun-service/manager.go:225-258 | a stop ends nothing but the owned child, and that only for its own session |
| `Ownership.LastExitStays` | native/tun-service/manager.go:335-355 | a reported child failure stays reported until a replacement runs or the service restarts |
| `Ownership.OrphanIsShadowed` | native/tun-service/manager.go:190-205 | the boundary: a child that could be neither recorded nor stopped is forgotten by the next reconcile, and a second one is started beside it |
| `Ownership.ResilientReadFailsOnlyIfAllDo` | native/tun-service/manager.go:357-370 | the bounded retry fails exactly if every attempt does, and otherwise yields the record |
| `Ownership.StoreRoundTrip` | native/tun-service/store.go:13-75 | what is written is read back, a failed write changes no reading, and a clear that removed the record reads as none |
| `Ownership.FileOwnershipStore.Write` | native/tun-service/store.go:36-63 | the record changes only if every step of the write succeeds; a failed write leaves it alone |
| `Ownership.FileOwnershipStore.Clear` | native/tun-service/store.go:65-75 | the record goes first, then the session profile |
| `Ownership.SessionManager.ReadStoreResilient` | native/tun-service/manager.go:357-370 | the retry loop computes the bounded retry |
| `Ownership.SessionManager.Reconcile` | native/tun-service/manager.go:279-333 | owner, latches, files and answer after a reconcile, for every outcome of reading, inspecting and clearing |
| `Ownership.SessionManager.Start` | native/tun-service/manager.go:165-214 | state and answer of a start request |
| `Ownership.SessionManager.Launch` | native/tun-service/manager.go:186-214 | spawn, write and, on a failed write, emergency stop |
| `Ownership.SessionManager.Stop` | native/tun-service/manager.go:225-258 | state and answer of a stop request |
| `Ownership.StoppedIsReleased` | native/tun-service/manager.go:225-258 | after a stop answered stopped a status names no child and is never running, every start reaches the runtime, and the record and the profile of the stopped child are gone |
| `Ownership.UnstoppedIsStillOwned` | native/tun-service/manager.go:225-258 | after any other answer the owner is as it was, so that the stop can be asked for again; which answer it is, by latches, session, runtime and store |
| `Ownership.StartAnswers` | native/tun-service/manager.go:165-214 | a start answered running is owned, recorded, alive and what a status then says; one answered failed leaves no owner and no new child; conflict is answered exactly if the runtime is not reached |
| `Ownership.StartSucceeds` | native/tun-service/manager.go:165-214 | a start is answered running exactly if it reaches the runtime, the child starts and the record is written |
| `Ownership.ReconcileAnswers` | native/tun-service/manager.go:279-333 | the answer of a reconcile is what a status then says; a record that cannot be read blocks; a seen exit is remembered |
| `Ownership.ReconcileSettles` | native/tun-service/manager.go:279-333 | a readable record is found running, in conflict, or cleared; if clearing fails owner and latches stay |
| `Ownership.EventKeepsRecorded` | native/tun-service/manager.go:165-333 | one event keeps "the owner is on record" exactly if it is no start whose write and emergency stop both fail and no clear that loses the record but not the profile |
| `Ownership.RunningIsRecorded` | native/tun-service/manager.go:260-277 | over every run without such an event a status that answers running names the stored record |
| `Ownership.ExitIsReported` | native/tun-service/manager.go:335-355 | a seen exit is what every idle status reports, by the last 4096 bytes of its message, until another exit, a running child or a new service replaces it |
| `Ownership.ReadIsWellFormed` | native/tun-service/store.go:13-35 | a reading is an admissible record or none, and fails exactly if the file cannot be read or holds something else |
| `Ownership.SessionManager.CurrentStatus` | native/tun-service/manager.go:260-277 | the answer of a status request, and that it names a living child |
| `VersionTrust.CatalogInvariant` | native/tun-service/kernel_versions_windows.go:93-185 | over any run of stores from an accepted catalog: the loader still accepts it, no channel that has at most two generations gets more, and the entry of a fixed version never changes |
| `VersionTrust.StoreKeepsAccepted` | native/tun-service/kernel_versions_windows.go:84-185 | one store keeps everything the loader checks |
| `VersionTrust.StoreGenerations` | native/tun-service/kernel_versions_windows.go:137-185 | one store leaves its channel with at most two generations and the entries of all other versions alone |
| `VersionTrust.FixedEntriesStay` | native/tun-service/kernel_versions_windows.go:137-160 | the pinned entry of a fixed version is never replaced |
| `VersionTrust.AtMostTwoGenerations` | native/tun-service/kernel_versions_windows.go:161-185 | from an empty catalog no channel ever has more than two entries |
| `VersionTrust.KeysHaveOwnDirectories` | native/tun-service/kernel_versions_windows.go:196-202 | two keys of a channel never share a directory |
| `VersionTrust.RefreshKeepsCore` | native/tun-service/kernel_versions_windows.go:492-573 | if the current generation is intact and the fetched asset has another digest or is cached itself, then wherever versionCore stops the reloaded catalog still serves a verified core |
| `VersionTrust.StoreKeepsCurrent` | native/tun-service/kernel_versions_windows.go:137-185 | the generation that was current before a store is one of the two kept, with its directory untouched |
| `VersionTrust.InstallKeepsCurrent` | native/tun-service/kernel_versions_windows.go:492-573 | installing another generation keeps the current one usable at every failing step |
| `VersionTrust.OnlyCurrentSurvives` | native/tun-service/kernel_versions_windows.go:161-171 | a refresh that stops before its marker leaves a usable core exactly if the current generation was usable, whatever the previous one was worth |
| `VersionTrust.DamagedCurrentIsLost` | native/tun-service/kernel_versions_windows.go:161-171 | with a damaged current generation the store prunes the usable previous one |
| `VersionTrust.SameDigestExactly` | native/tun-service/kernel_versions_windows.go:512-573 | with the digest of the intact current generation a refresh can lose the core exactly if the asset is recorded under another name or size and no other generation is intact |
| `VersionTrust.SameDigestKeepsTheCore` | native/tun-service/kernel_versions_windows.go:512-573 | otherwise no failing step of such a refresh loses it |
| `VersionTrust.InstallStaysInPlace` | native/tun-service/kernel_versions_windows.go:137-150 | the trust store refuses such an asset, so that nothing but the current directory changes |
| `VersionTrust.AnsweredCoreIsServed` | native/tun-service/kernel_versions_windows.go:492-573 | whatever core is answered, fixed or rolling, cached or installed, the reloaded catalog serves exactly that one; if it was fetched, the catalog records the asset and a rolling channel makes it current |
| `VersionTrust.InstallAnswersExactly` | native/tun-service/kernel_versions_windows.go:529-573 | an install answers a core exactly if none of its steps fails and the trust store accepts the asset |
| `VersionTrust.CachedIsAnswered` | native/tun-service/kernel_versions_windows.go:504-511 | without a refresh, and if nothing can be fetched, the answer is the core that was cached |
| `VersionTrust.BadRequestsChangeNothing` | native/tun-service/kernel_versions_windows.go:492-503 | a bad version, no directory or a bad catalog gets no core and changes nothing |
| `VersionTrust.OneDirectoryPerGeneration` | native/tun-service/kernel_versions_windows.go:243-260 | after a store the channel has the directories of its two generations and those the file system would not remove; all others are untouched |
| `VersionTrust.LegacyEntryIsAdopted` | native/tun-service/kernel_versions_windows.go:161-171 | a catalog from before the channels is accepted, and its entry becomes the previous generation |
| `VersionTrust.ServesExactly` | native/tun-service/kernel_versions_windows.go:226-241 | a channel serves a core exactly if its current or another previous generation is intact |
| `VersionTrust.WindowsRuntime.LoadVersionTrust` | native/tun-service/kernel_versions_windows.go:93-135 | the loop accepts exactly the acceptable catalogs |
| `VersionTrust.WindowsRuntime.StoreVersionTrust` | native/tun-service/kernel_versions_windows.go:137-185 | catalog, channel pointers, outdated entries and directories after a store |
| `VersionTrust.WindowsRuntime.DropOutdated` | native/tun-service/kernel_versions_windows.go:172-178 | the loop drops exactly the entries of the channel that are neither current nor previous |
| `VersionTrust.WindowsRuntime.PruneRollingDirectories` | native/tun-service/kernel_versions_windows.go:243-260 | the loop removes exactly the directories of the channel outside its two generations |
| `VersionTrust.WindowsRuntime.CurrentCachedCore` | native/tun-service/kernel_versions_windows.go:226-241 | the first verified core in the order current, previous |
| `VersionTrust.WindowsRuntime.EnsureVersionCore` | native/tun-service/kernel_versions_windows.go:492-573 | state and answer of versionCore |
| `VersionTrust.WindowsRuntime.InstallVersion` | native/tun-service/kernel_versions_windows.go:529-573 | download, extraction, trust write and marker write, each of which may fail |
| `Forwarding.NothingIsLeftOn` | native/tun-service/forwarding.go:172-284 | over every run of keeper operations and host failures, with adapters coming and going, in which no give-back is refused, an adapter that is on was on or is still managed, and managed ones were off |
| `Forwarding.NeverTakesWhatWasOn` | native/tun-service/forwarding.go:172-284 | however the host fails, no run manages or switches off an adapter that was on, except one that came back switched on by someone else while still on the list |
| `Forwarding.OnlyClaimedAreTaken` | native/tun-service/forwarding.go:271-284 | after any run: an operation switches off an adapter that was on only if it is such a claimed one and still managed, and clearing the device does exactly then |
| `Forwarding.OperationSwitchesOff` | native/tun-service/forwarding.go:90-157 | an operation switches off exactly the adapters it gives back and the host does not refuse |
| `Forwarding.ClaimedIsSwitchedOff` | native/tun-service/forwarding.go:269-284 | a run in which a claimed adapter is switched off |
| `Forwarding.OperationEffect` | native/tun-service/forwarding.go:90-157 | one operation leaves something on exactly if the host refuses a give-back: the adapter is forgotten although switching it off failed |
| `Forwarding.RestoreEffect` | native/tun-service/forwarding.go:271-284 | the same for restoreLocked |
| `Forwarding.EnsureSettles` | native/tun-service/forwarding.go:172-238 | after an ensure on a cooperative host each flag is exactly "was on, or managed" |
| `Forwarding.OffGivesBack` | native/tun-service/forwarding.go:102-157 | turning the mode off or clearing the device makes the host flags equal the original ones |
| `Forwarding.EnsureTwice` | native/tun-service/forwarding.go:172-238 | ensuring again in an unchanged world writes nothing and changes nothing |
| `Gateway.GatewayForwards` | native/tun-service/forwarding.go:172-238 | after an ensure on a cooperative host a listed adapter is a target, and forwards if present, exactly if the mode is on and it is the first one up with the name of the device, or that one runs and it is physical, up and has a gateway; every other forwards only if it did before and the keeper had not switched it on |
| `Gateway.NoTunNoTargets` | native/tun-service/forwarding.go:177-205 | without the mode, a device or a running TUN there are no targets, and the keeper says so |
| `Gateway.StatusIsHonest` | native/tun-service/forwarding.go:213-238 | whatever the host does, a status reports the flag of each adapter it could read and claims none it could not, and reports an error exactly if the rule, the listing, a give-back or a target failed |
| `Gateway.RuleFollowsTheWish` | native/tun-service/forwarding.go:245-269 | over every run in which adding a rule does not fail, the host has exactly the rule that the requests so far call for |
| `Gateway.TickIsAnEnsure` | native/tun-service/forwarding.go:130-143 | the tick that is skipped would have changed no adapter |
| `Gateway.ClearedReportsNothing` | native/tun-service/forwarding.go:145-157 | once the device is cleared nothing is reported or managed, whatever the host does |
| `Forwarding.FirewallBelief` | native/tun-service/forwarding.go:245-269 | the firewall rule stays what the keeper believes, unless the old rule went away and adding the new one failed; a refused program path leaves both |
| `Forwarding.ForwardingKeeper.ChangeDevice` | native/tun-service/forwarding.go:90-100 | SetDevice: the device and program, then an ensure |
| `Forwarding.ForwardingKeeper.ChangeDesired` | native/tun-service/forwarding.go:102-110 | SetDesired: the mode, then an ensure, which restores everything when it is off |
| `Forwarding.ForwardingKeeper.ChangeLANProxy` | native/tun-service/forwarding.go:112-118 | SetLANProxy: the wish, then an ensure |
| `Forwarding.ForwardingKeeper.Report` | native/tun-service/forwarding.go:120-125 | Status: an ensure, then the targets and whether anything failed |
| `Forwarding.ForwardingKeeper.OnTick` | native/tun-service/forwarding.go:130-140 | Tick: an ensure unless the mode is off and nothing is managed |
| `Forwarding.ForwardingKeeper.Clear` | native/tun-service/forwarding.go:145-157 | ClearDevice: everything is given back |
| `Forwarding.ForwardingKeeper.SyncFirewall` | native/tun-service/forwarding.go:245-269 | the rule after a change, and what the keeper believes, for every failure |
| `Forwarding.ForwardingKeeper.Restore` | native/tun-service/forwarding.go:271-284 | the loop switches off exactly the managed adapters that are not kept, and forgets them |
| `Forwarding.ForwardingKeeper.FindWanted` | native/tun-service/forwarding.go:190-205 | the loop finds exactly the adapters that are to forward |
| `Forwarding.ForwardingKeeper.Enable` | native/tun-service/forwarding.go:205-238 | the loop switches on exactly the wanted adapters that are off, and remembers them |
| `Forwarding.ForwardingKeeper.Ensure` | native/tun-service/forwarding.go:172-243 | keeper and host after an ensure |
| `Zip.RoundTrip` | src-tauri/src/log_files.rs:212-283 | for every list of files, a reader that goes from the end record (section 4.3.16 of the PKWARE APPNOTE) over the central directory (4.3.12) to the local headers (4.3.7) gets back exactly that list in order, times included, both headers of a file saying the same, given that inflate inverts deflate and sizes, offsets, name lengths and the count fit their fields |
| `Zip.WriteArchive` | src-tauri/src/log_files.rs:195-208 | adding the files in order and finishing yields the specified archive |
| `Zip.ZipWriter.Add` | src-tauri/src/log_files.rs:220-268 | local record and central record are appended, the offset being the length so far; the count wraps at 16 bits |
| `Zip.LocalReadsBack` | src-tauri/src/log_files.rs:231-246 | a local record is read back wherever it stands |
| `Zip.CentralReadsBack` | src-tauri/src/log_files.rs:248-265 | a central record leads to its file wherever the two stand |
| `Zip.IndexReadsBack` | src-tauri/src/log_files.rs:248-266 | the whole central directory is read back, with each offset that of its local record |
| `Zip.EndReadsBack` | src-tauri/src/log_files.rs:270-282 | the end record is found and yields count, size and offset |
| `Yaml.AliasFailureExactly` | src-tauri/src/kernel_config_validation.rs:224-240 | a parser failure is put down to an alias exactly if its message has "unknown anchor" in it |
| `Yaml.ScalarsAreRead` | src-tauri/src/kernel_config_validation.rs:173-183 | a quoted scalar is text whatever it looks like, and text that is read as text stays as it is |
| `Yaml.Rebuild` | src-tauri/src/kernel_config_validation.rs:133-212 | feeding the events of any node tree to the builder completes exactly that tree, from any starting stack: order, duplicate keys, tags and alias leaves kept |
| `Yaml.ParseFirstDocument` | src-tauri/src/kernel_config_validation.rs:216-248 | parsing the events of a stream returns the tree of its first document, and the error if the parser failed or said nothing |
| `Yaml.FirstDocumentIsRoot` | src-tauri/src/kernel_config_validation.rs:133-149 | after a stream of documents the root is the first one |
| `Yaml.LaterDocumentsAreIgnored` | src-tauri/src/kernel_config_validation.rs:133-149 | a builder that has a root keeps it |
| `Yaml.FeedMapping` | src-tauri/src/kernel_config_validation.rs:173-212 | an unfinished mapping is closed with its pending key |
| `Yaml.DomBuilder.PopContainer` | src-tauri/src/kernel_config_validation.rs:151-170 | the innermost container is closed |
| `Yaml.NotANumber` | src-tauri/src/kernel_config_validation.rs:250-271 | text with a character that no number has is neither an integer nor a finite float |
| `Yaml.TwoDots` | src-tauri/src/kernel_config_validation.rs:250-271 | text with two dots is not a number |
| `Yaml.FloatLimit` | src-tauri/src/kernel_config_validation.rs:260-268 | the limit of the finite numbers is 2^1024 - 2^970, half a unit above the largest one |
| `Yaml.LimitLies` | src-tauri/src/kernel_config_validation.rs:260-268 | 1e308 is finite and 2e308 is not |
| `StrictConfig.ValidatorIsExact` | src-tauri/src/kernel_config_validation.rs:279-527 | the validator reports no error exactly for the trees that meet the declarative predicate: distinct allowed keys, all required keys, no alias or tag, and the rule of each key (scalar tun, dns and rules pass) |
| `StrictConfig.ReportsExactly` | src-tauri/src/kernel_config_validation.rs:279-337 | apart from values, every report is about an entry that deserves it and every such entry is reported: no value, an alias, a key that is no text, a tag, a key met before or not allowed |
| `StrictConfig.MissingIsReportedExactly` | src-tauri/src/kernel_config_validation.rs:328-335 | a key is reported missing exactly if it is required and no plain entry has it |
| `StrictConfig.KeyErrorsExact` | src-tauri/src/kernel_config_validation.rs:349-448 | the error list of one key is empty exactly if its value is allowed |
| `StrictConfig.SectionWalkExact` | src-tauri/src/kernel_config_validation.rs:486-526 | the error list of a nested section is empty exactly if it is enable: false and nothing else |
| `StrictConfig.ControllerIsListenAddress` | src-tauri/src/kernel_config_validation.rs:402-425 | the controller check accepts exactly a supported host, a colon and an unprivileged port |
| `StrictConfig.GeneratorIsStrict` | src-tauri/src/kernel_process.rs:113-196 | what the generator emits meets the predicate exactly if the controller host is supported and the secret reads back as text |
| `StrictConfig.AcceptedExactly` | src-tauri/src/kernel_process.rs:113-169 | options are accepted exactly if the ports in use are in range and all different, the secret is 64 hexadecimal digits, the mode direct and the level known |
| `StrictConfig.GeneratedCarriesTheOptions` | src-tauri/src/kernel_process.rs:170-194 | whatever the accepted options are, the generated tree says exactly what they say: each port, the access mode, the log level, host and port of the controller, the secret as text unless it reads as a number, the optional groups exactly if asked for, each key once and no other |
| `StrictConfig.IntegersReadBack` | src-tauri/src/kernel_config_validation.rs:250-271 | an integer written out reads back as itself exactly if it fits 64 bits, and is text otherwise |
| `StrictConfig.SecretReadsBack` | src-tauri/src/kernel_config_validation.rs:250-271 | which secrets read back as text: not those of digits alone within the signed 64-bit range, nor digits-e-digits with a finite value |
| `StrictConfig.SecretBoundary` | src-tauri/src/kernel_config_validation.rs:250-271 | 59 zeros and 1e308 do not read back as text, 59 zeros and 2e308 do |
| `StrictConfig.MihomoConfigErrors` | src-tauri/src/kernel_config_validation.rs:279-337 | the method computes the specified error list in order |
| `StrictConfig.CollectNestedErrors` | src-tauri/src/kernel_config_validation.rs:450-527 | the errors of a nested section |
| `StrictConfig.CollectSectionErrors` | src-tauri/src/kernel_config_validation.rs:486-526 | the loop over the entries of a section |
| `StrictConfig.CollectMissing` | src-tauri/src/kernel_config_validation.rs:328-335 | the loop over the required keys |
| `FileLog.AppendIsExact` | src-tauri/src/file_log.rs:450-534 | without failures the cached size stays right and the contents are those of the specification, whatever was cached before |
| `FileLog.CapHolds` | src-tauri/src/file_log.rs:454-460 | after a line the file is within the cap and ends with the line, or with its last cap bytes |
| `FileLog.RotationIsExact` | src-tauri/src/file_log.rs:518-534 | a rotated file is old tail, marker and new line, and at most half full |
| `FileLog.NewestLinesAreKept` | src-tauri/src/file_log.rs:518-534 | whatever was written before, the newest lines that fit into half the cap together with the marker are all in the file, whole and in order, with at most one marker between them |
| `FileLog.CapUnderFailures` | src-tauri/src/file_log.rs:468-534 | whatever fails, partial writes and failed closes included: a line keeps the file within the cap and the cached size an upper bound exactly if what failed attempts leave behind stays within what was believed (within nothing after a reset that is never made good) and a rotation that is not written finds no larger file |
| `FileLog.CapUnderCleanFailures` | src-tauri/src/file_log.rs:493-512 | if failures leave nothing behind, exactly unless an append to a non-empty file gives up after it has reset the cached size |
| `FileLog.TriedEffect` | src-tauri/src/file_log.rs:479-515 | the length of the file and the cached size after any sequence of attempts |
| `FileLog.GivingUpBreaksTheCap` | src-tauri/src/file_log.rs:493-512 | in that case the next line that goes through takes the file over the cap |
| `LogService.FlushIsComplete` | src-tauri/src/file_log.rs:270-282 | if no request overtakes another between taking its number and being sent, flush returns by its watermark only when every write numbered before the call has been processed, in call order |
| `LogService.RunKeepsInv` | src-tauri/src/file_log.rs:309-317 | without overtaking: sent and processed writes are prefixes of the numbered ones, and the watermark counts the processed ones |
| `LogService.RunKeepsNumbers` | src-tauri/src/file_log.rs:309-317 | in every order: numbers are positions, and every write is pending, queued or processed |
| `LogService.DiskFollowsOutcomes` | src-tauri/src/file_log.rs:378-416 | in every run, in whatever order requests are sent and whatever fails, each path is what its processed writes, in order and each with its own failures, make of it; after a failed initialization nothing was touched |
| `LogService.DiskFollowsCallOrder` | src-tauri/src/file_log.rs:378-416 | without failures each file holds what its processed lines, in order, make of its first contents |
| `LogService.OvertakingIsExact` | src-tauri/src/file_log.rs:270-317 | after a run without overtaking, sending a request lets some flush return early exactly if it overtakes another |
| `LogService.OvertakingReturnsEarly` | src-tauri/src/file_log.rs:315-316 | in every reachable state: sending a request past another with a lower number lets a flush that was called right after it took its number return while the other is not processed |
| `LogService.NoEarlyReturn` | src-tauri/src/file_log.rs:270-282 | without overtaking no flush returns early, whatever its target |
| `LogService.OvertakingBreaksFlush` | src-tauri/src/file_log.rs:315-316 | a run in which the overtaken enqueue had even returned before the flush was called; the watermark later goes back |
| `LogService.AtomicEnqueueIsInOrder` | src-tauri/src/file_log.rs:309-317 | numbering and sending as one step overtakes nothing |
| `LogService.FailedInitializationStays` | src-tauri/src/file_log.rs:386-405 | a failed initialization is remembered: nothing is written and the watermark never moves |
| `LogService.FileLogService.ReadTail` | src-tauri/src/file_log.rs:536-560 | the last bytes of the file, or nothing |
| `LogService.FileLogService.AppendWithRetry` | src-tauri/src/file_log.rs:479-515 | the retry loop computes the specified outcome of at most four attempts |
| `LogService.FileLogService.AppendLimited` | src-tauri/src/file_log.rs:450-534 | the file and its cached size after a line, for every failure |
| `LogService.FileLogService.ConsumerLoop` | src-tauri/src/file_log.rs:378-416 | the loop drains the queue in order |
| `LogService.FileLogService.Enqueue` | src-tauri/src/file_log.rs:309-317 | one more request with the next number at the end of the queue, whose numbers stay consecutive |
| `LogService.DrainedIsFlushed` | src-tauri/src/file_log.rs:378-416 | once such a queue is drained the watermark has reached every number given out, unless the initialization failed |
| `Calendar.OneDatePerDay` | src-tauri/src/file_log.rs:366-376 | the day number orders the valid dates of all years, negative ones included, and no two share one |
| `Calendar.DayByDay` | src-tauri/src/file_log.rs:366-376 | days_from_civil counts the days from 1970-01-01 one by one in the proleptic Gregorian calendar, in both directions |
| `Calendar.NextDay` | src-tauri/src/file_log.rs:366-376 | the day after a date has the next number |
| `Calendar.AdvanceCounts` | src-tauri/src/file_log.rs:366-376 | so many days later is so many numbers higher |
| `Calendar.Increasing` | src-tauri/src/file_log.rs:366-376 | a later valid date has a higher number |
| `Calendar.RetentionIsExact` | src-tauri/src/file_log.rs:418-448 | cleanup deletes a dated log exactly if it is at least retention_days days old |
| `Calendar.StampOfLogName` | src-tauri/src/file_log.rs:437-448 | the name of a dated log is read back as its date |
| `Calendar.StampExactly` | src-tauri/src/file_log.rs:437-448 | a name has a stamp exactly if it is a dated log of one of the three kinds, and then that of its date |
| `Calendar.OnlyOldLogsExpire` | src-tauri/src/file_log.rs:418-435 | a file expires exactly if it is a dated log whose date is at least the retention days ago |
| `Calendar.OverlongDayRollsOver` | src-tauri/src/file_log.rs:444-447 | a day that its month does not have is read as that many days after the first |
| `Calendar.CleanupExpired` | src-tauri/src/file_log.rs:418-435 | the loop leaves exactly the files that are not expired or cannot be removed |
| `QuitFence.FenceHolds` | src-tauri/src/lifecycle.rs:54-68 | once a shutdown step has held the gate no guarded mutation runs or acts before that quit is cancelled, and none at all while the session is ending |
| `QuitFence.KernelStopsAfterRestore` | src-tauri/src/lifecycle.rs:122-135 | apart from a guarded mutation nothing stops the kernel but the flow, the forced path included, and that only after a confirmed restore of this quit, with the proxy still given back although the gate was free in between |
| `QuitFence.FinishedIsClean` | src-tauri/src/lifecycle.rs:312-345 | a finished flow has left the proxy given back, and the kernel stopped if its stop went through, whatever else was requested meanwhile |
| `QuitFence.FlowKeepsItsOrder` | src-tauri/src/lifecycle.rs:122-135 | in every run a finished quit has made the calls restore, stop, dispose in this order, each once, and one whose restore failed only the first: the calls of the flow |
| `QuitFence.ExitIsEarned` | src-tauri/src/lifecycle.rs:348-432 | the application exits only after a confirmed restore, by force, or as the session ends |
| `QuitFence.QuitNeverHangs` | src-tauri/src/lifecycle.rs:139-156 | in every run, whoever holds the gate and whichever step hangs, a quit in flight can go on |
| `QuitFence.SessionEndStays` | src-tauri/src/lifecycle.rs:70-78 | nothing clears the session bit |
| `QuitFence.CancelClearsItsOwn` | src-tauri/src/lifecycle.rs:70-72 | a cancelled quit clears no fence of another quit, opens the fence exactly if the session is not ending, and takes it from a forced quit exactly if one is under way |
| `QuitFence.FencesDoNotOverlap` | src-tauri/src/lifecycle.rs:271-278 | when a quit raises its fence that of an earlier one is gone, because the single flight is released last |
| `QuitFence.ForcedRestoreHolds` | src-tauri/src/lifecycle.rs:408-426 | what a forced quit has given back stays given back, whatever the quit in flight does, until a guarded mutation acts |
| `QuitFence.ForceFences` | src-tauri/src/lifecycle.rs:408-411 | until a quit is cancelled no mutation that enters the gate behind a forced quit gets past the check |
| `QuitFence.FailedQuitEnds` | src-tauri/src/lifecycle.rs:359-382 | a failed quit of a session end leaves with its fence up and any other is cancelled, whichever other quits were asked for meanwhile |
| `QuitFence.QueueMovesOn` | src-tauri/src/lifecycle.rs:58-68 | whatever mutation holds the gate can let go of it without anybody else, and the queue stays as it was |
| `QuitFence.ForcedFenceIsCleared` | src-tauri/src/lifecycle.rs:408-432 | a run in which a quit fails beside a forced quit, clears the bit the forced one relies on, and a mutation gets in |
| `QuitFence.RunKeepsInv` | src-tauri/src/lifecycle.rs:262-400 | the inductive invariant: gate and queue agree with the phase of the quit, its fence is up, and behind a closed gate nothing runs |
| `QuitFence.RestoredMeansConfirmed` | src-tauri/src/lifecycle.rs:122-135 | a flow past its restore has had one confirmed, with no mutation and no cancelled quit since |
| `QuitFence.RestoreWithRetry` | src-tauri/src/lifecycle.rs:160-176 | at most three attempts, ending with the first success |
| `QuitFence.AttemptsAgree` | src-tauri/src/lifecycle.rs:160-176 | the attempts of the step machine are those of the loop |
| `QuitFence.RunQuitFlow` | src-tauri/src/lifecycle.rs:122-133 | a failed restore calls nothing else; otherwise stop and dispose follow in order |
| `QuitFence.Lifecycle.MarkQuitting` | src-tauri/src/lifecycle.rs:76-78 | sets the session bit and nothing else |
| `QuitFence.Lifecycle.RaiseFence` | src-tauri/src/lifecycle.rs:278-278 | sets the ordinary bit and nothing else |
| `QuitFence.Lifecycle.CancelNormalQuit` | src-tauri/src/lifecycle.rs:70-72 | clears the ordinary bit and nothing else |
| `QuitFence.Lifecycle.CheckFence` | src-tauri/src/lifecycle.rs:58-68 | admits exactly if neither bit is set |
| `QuitFence.Lifecycle.Claim` | src-tauri/src/lifecycle.rs:271-273 | only the first of several quits starts the flow |
| `QuitFence.Lifecycle.ReleaseFlight` | src-tauri/src/lifecycle.rs:379-381 | the next quit may start |
| `ProfileConfig.BuiltIsExpected` | src-tauri/src/inspection.rs:285-400 | the composed steps give each key exactly what one table says of it |
| `ProfileConfig.BuiltSaysTheOptions` | src-tauri/src/inspection.rs:285-400 | whatever the document is, what is built from it says exactly what the options say: ports, controller address, access, secret, panel, core settings and geodata each under its own key, and no other listener |
| `ProfileConfig.WhoDownloadsExactly` | src-tauri/src/inspection.rs:415-441 | which providers get a proxy and which groups can be it: the type in any case, the name or proxy with something other than spaces in it |
| `ProfileConfig.ProblemIsReal` | src-tauri/src/inspection.rs:236-284 | a reported problem is one the options have, and what was checked before it is in order |
| `ProfileConfig.FirstGroupIsFirst` | src-tauri/src/inspection.rs:415-430 | the group found is the first usable select group of the list, and none if there is none |
| `ProfileConfig.ProviderDownloadsBy` | src-tauri/src/inspection.rs:431-449 | an http provider without a proxy downloads by the first usable group |
| `ProfileConfig.BuildTwice` | src-tauri/src/inspection.rs:236-400 | building again with the same options changes nothing |
| `ProfileConfig.ForcedKeysIgnoreTheDocument` | src-tauri/src/inspection.rs:288-348 | listener, access and removed keys are the same for every document |
| `ProfileConfig.OtherKeysStay` | src-tauri/src/inspection.rs:285-400 | keys outside the managed set, the DNS section and the rule providers are those of the document |
| `ProfileConfig.OtherFieldsStay` | src-tauri/src/inspection.rs:314-386 | inside dns and profile only listen and ipv6, and the two store switches, can differ |
| `ProfileConfig.ProvidersKeepTheirProxy` | src-tauri/src/inspection.rs:412-451 | a rule provider changes exactly if there is a usable group and it is an http provider that names no proxy, and then in that field alone |
| `ProfileConfig.OverlaysCommute` | src-tauri/src/inspection.rs:177-230 | the DNS and sniffer overlays can be applied in either order |
| `ProfileConfig.SnifferCommutesWithBuild` | src-tauri/src/inspection.rs:205-230 | the sniffer overlay can be applied before or after the transformation |
| `ProfileConfig.DnsCommutesWithBuild` | src-tauri/src/inspection.rs:177-202 | the DNS overlay can be exchanged with the transformation exactly if the core settings are off or agree with it on ipv6 |
| `ProfileConfig.CheckOptions` | src-tauri/src/inspection.rs:236-284 | the first failing check is reported, and none fails exactly if the ports are in range and distinct and the secret is well-formed |
| `ProfileConfig.BuildProfileKernelConfig` | src-tauri/src/inspection.rs:236-401 | the error of bad options comes before that of an unreadable document; otherwise the built document |
| `ProfileConfig.RemoveKeys` | src-tauri/src/inspection.rs:288-313 | the loop removes exactly these keys |
| `ProfileConfig.AssignRuleProviderDownloadProxy` | src-tauri/src/inspection.rs:412-451 | which group is found, and the providers after it |
| `ProfileConfig.FindGroup` | src-tauri/src/inspection.rs:415-430 | the loop finds the first usable select group |
| `ProfileConfig.AssignProxies` | src-tauri/src/inspection.rs:431-449 | the loop completes exactly the providers without a proxy |
| `ProfileConfig.ApplyToDocument` | src-tauri/src/inspection.rs:177-202 | an overlay wins over its section and keeps the other fields; off or unreadable leaves the document as it is |

## Left out

- WorkspaceHygiene: about runs in which no restart starts a kernel over a pending post-exit task, because such a step ends hygiene (`HygieneEndsExactly` is exact).
- SilenceAfterStop: about the same runs as `WorkspaceHygiene`; the step that leaves them ends silence (`SilenceEndsExactly` is exact).
- TwoWaitsBeforeGivingUp: its last part is about the same runs; outside them the exit task of another process can end a terminate (`QueuedRestartBreaksSilence`).
- StopStopsOrGivesUp: leaves out stops during which the process reports an error; its task ends them in phase failed, and `is_stopping` stays set.
- SustainedRunRefills: about the same runs, and about processes that are tracked when the phase turns running.
- ExitEndsTheSustainedRun: about supervisors without a readiness pattern, because a late report (`LateReportHappens`) arms a timer for a process that is gone.
- RunningIsRecorded: about runs without the events that leave an owner off the record (`EventKeepsRecorded` is exact).
- RuleFollowsTheWish: about runs in which adding a rule does not fail (`FirewallBelief` is exact for one operation).
- RefreshKeepsCore: asks for an intact current generation and another digest, because without them it is false (`OnlyCurrentSurvives`, `SameDigestExactly`).
- NothingIsLeftOn: asks that no give-back is refused, because a refused one is forgotten (`OperationEffect` is exact).
- NeverTakesWhatWasOn: exempts adapters that came back switched on while still managed, which are switched off (`OnlyClaimedAreTaken` is exact).
- OneOwnedChild: leaves out runs with an orphaned child, which break it (`EventKeepsOwnedChild` is exact).
- FlushIsComplete: says nothing about a flush that gives up after its 30 seconds or whose consumer is gone.
- DiskFollowsCallOrder: about writes that meet no failure; `DiskFollowsOutcomes` is about all of them.
- RoundTrip: asks that sizes, offsets, name lengths and the count fit their fields; the writer truncates without a check. Deflate, inflate and CRC are parameters.
- GeneratorIsStrict: about the generated tree; a controller host with a comment mark in it changes how the generated text splits into a tree, which is not modelled.
- FenceHolds: about mutations that take the runtime guard; other writers of the system proxy fence themselves and are not part of this model.
- Process identity: a process is a fresh number, so that reuse of a PID by the operating system is not modelled; a spawn that reports no PID is taken to leave no process.
- Epoch counters and sequence numbers are unbounded; their wrap-around at 64 bits is not modelled.
- Interleavings inside one segment between two awaits, and the watchdog, stale PID, status text and version fields of the supervisor.
- The config stores, the readiness pattern over output, describe_exit, and the timeouts as durations: a timeout is a step that may come at any time.
- Forwarding and installer calls inside the manager's start, stop and command dispatch; the forwarding keeper is a model of its own.
- Outside writes of a forwarding flag while an adapter is present, and a rule deletion by netsh that fails without an error.
- The order in which forwarding targets are reported, and Unicode case folding of adapter names (ASCII only).
- Private files are all-or-nothing: the remove-then-rename of native/tun-service/private_file.go is not modelled; neither is its size limit.
- Downloads, hashing, archive extraction and release metadata are inputs with any outcome.
- The text level of YAML and JSON: trees and maps only. Digits in patterns are ASCII digits. Key order of a built profile is not part of the model.
- The block builders and coercions of src-tauri/src/enhancements.rs: a block is any map, and for DNS one that has `ipv6` and no `listen`.
- ZIP64, external attributes and the clock of the archive; a time is an input.
- Redaction and the 64 Ki character cut of a log line before it is queued; local time zones; the one cleanup before the first write is in `Calendar`, not in the consumer.
- The emergency TUN teardown, window handling, log flush and exit backstop of the quit path.
- parse_app_log, port reclaiming, icon caches, bounded tail writers: correct but shallow loops.
- IPC dispatch, diagnostics, settings, profiles, updates and the renderer.
