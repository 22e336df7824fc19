# Verified models of sysbox

This project models three parts of the sysbox repository in Dafny and proves properties of them:
the container runtime `sysbox-runc-lite`, the admission webhook `sysbox-admission` and the
snapshotter `sysbox-snapshotter`. `dafny verify dfyconfig.toml` checks everything.

| files | what they model |
|---|---|
| `Permissions`, `DeviceTable`, `DeviceTransition`, `DeviceScript`, `DevicesList`, `Emulator` | the device-cgroup emulator: tables of exceptions, the edit script between two tables, the `devices.list` text |
| `NsExec`, `NsExecSafety`, `NsExecProgress` | the three-process handshake of `nsexec.c`, over all interleavings and deaths |
| `InitSync`, `InitSyncSafety`, `InitSyncProgress`, `InitSyncEnvironment` | the handshake between `start` and the container's init, with short-lived JSON decoders that can swallow messages |
| `Netlink`, `NamespacePaths`, `MountSources`, `Bootstrap` | the bootstrap message, the namespace list and the mount-source descriptors, Go side against C side |
| `ContainerState` | the container's in-memory state against the outside world |
| `Certificates`, `CertificateLifecycle` | the webhook's certificates, reconciled under optimistic concurrency |
| `LexicalPath`, `RootfsPaths`, `Admission`, `RootfsLayer`, `PodPatch` | the contract for persistent root filesystem layers between webhook and snapshotter |
| `JsonEscape`, `ExecUser` | JSON escaping of log text, resolution of user specifications |
| `Decimal`, `Text`, `Wrappers` | decimal numerals, splitting and trimming of text, optional values |

Objects that the source updates in place are classes whose methods are tied to specification
functions; loops are loops; the two protocols are state machines with one step per statement that
another process can observe. The kernel, the API server, clocks, keys, JSON text of annotations and
the reading of files are parameters.

## Where the code and the expected law part

Each of these has a lemma with the exact condition and, where useful, a concrete instance.

- A device transition does not always reach its target: a permission that is lost while a wider
  wildcard keeps it, in both tables, is refused (`ReplayReachesTarget`, `BlockedTransitionExample`).
  Entries without permissions are also lost.
- During a whitelist transition an access allowed before and after can be denied in between, unless
  one and the same exception grants it in both tables (`NoSpuriousDenialIffKept`).
- A wildcard removal leaves narrower and crossing exceptions in force (`RuleDecidesIffClean`,
  `WildcardRemovalCounterexample`).
- If the init's environment does not parse, its error report is swallowed by the decoder that reads
  the pid (`LosslessIffEnvironmentParses`, `BadEnvironmentLosesReport`).
- A child killed between `procError` and its error body makes the parent panic
  (`KilledReporterPanicsParent`, `PanicAlwaysNeedsKill`).
- An empty bind-mount source makes stage 0 send fewer descriptors than stage 1 waits for
  (`SourcesAgreeIff`), and then no stage 2 is born (`FdMismatchStopsHandshake`).
- The boolean attributes are lost on big-endian hosts (`FlagsArriveIff`).
- A stored leaf whose PEM block has an unusual label is healthy, is never rotated, and cannot be
  loaded: `Ensure` fails until it is due for renewal (`WrongLabelStays`, `RelabelledBundle`).
- A stored CA that passes the checks may still be unable to vouch for a server certificate, because
  of its extended key usages, its name constraints or an unknown critical extension: then every run
  issues a new leaf and none is ever healthy (`ReconcileStabilisesIff`, `RestrictedCaNeverHeals`,
  `RestrictedCaExists`).
- A stored CA key too short to sign with, or a Secret that refuses our update, makes `Ensure` fail
  for as long as it stays (`WeakCaNeverReconciles`, `Manager.Ensure`).
- A renewal window less than a second short of the leaf validity can leave a new leaf due for
  renewal at once, because certificates keep whole seconds (`HealthyAtTheEndIff`,
  `LeafAlwaysLastsIff`, `WindowTooCloseToValidity`).
- A restored container keeps saying "running" after it stopped; pausing one freezes it and fails;
  pausing and resuming a created container in one process leaves a state that cannot be read
  until the exec fifo goes or init dies (`StatusIsTruthful`, `PauseIsAllOrNothingIff`,
  `LiveLookRefusedIff`).
- `Signal` means to spare a process that took over init's pid, but a frozen container is not checked
  for init's start time, and a restored one not at all (`WrongProcessSignalledIff`,
  `RecycledPidSignalled`).
- A start that cannot hand its new exec fifo to the container's root leaves it behind, and the next
  start is refused for it (`FailedStartLeavesFifoIff`).
- Admission accepts an entry for a container with the sidecar's own name, which the snapshotter
  never selects (`AdmittedEntryIsSelected`, `SidecarEntryIsIgnored`).
- The webhook's patch is undefined for a pod document without a containers member, which admission
  itself never produces (`PatchYieldsMutated`, `MutationPatchApplies`).
- `uid:gid` beyond 2^31-1 resolves only if the files list the id (`IdsResolveExactly`).

## Model

| member | source | states |
|---|---|---|
| `Permissions.ToSet` | sysbox-runc-lite/libcontainer/devices/device.go:40-52 | the loop over the characters sets exactly the bits of the accesses in the text |
| `Permissions.FromSet` | sysbox-runc-lite/libcontainer/devices/device.go:55-67 | the text of a set grants exactly that set and is canonical |
| `Permissions.Union` | sysbox-runc-lite/libcontainer/devices/device.go:70-74 | grants what either text grants, canonically |
| `Permissions.Difference` | sysbox-runc-lite/libcontainer/devices/device.go:78-82 | grants what the first grants and the second does not |
| `Permissions.Intersection` | sysbox-runc-lite/libcontainer/devices/device.go:85-89 | grants what both grant |
| `Permissions.EmptyMeansNothing` | sysbox-runc-lite/libcontainer/devices/device.go:93-95 | a canonical text is empty exactly when it grants nothing |
| `Permissions.ValidIsExtensional` | sysbox-runc-lite/libcontainer/devices/device.go:99-101 | canonical texts that grant the same are equal |
| `DeviceTable.PartialsAreTheWiderKeys` | sysbox-runc-lite/libcontainer/cgroups/devices/devices_emulator.go:154-180 | the keys looked up before a removal are exactly those that cover the removed key and differ from it |
| `DeviceTable.HoleIsWiderOverlap` | sysbox-runc-lite/libcontainer/cgroups/devices/devices_emulator.go:154-190 | a removal is refused exactly when a wider exception holds one of the permissions |
| `DeviceTable.AddMeans` | sysbox-runc-lite/libcontainer/cgroups/devices/devices_emulator.go:142-152 | an addition changes one key, by union, and keeps the table well formed |
| `DeviceTable.RemoveMeans` | sysbox-runc-lite/libcontainer/cgroups/devices/devices_emulator.go:154-197 | a removal changes one key, by difference, and leaves no empty entry there |
| `DeviceTable.ApplyKeepsWellFormed` | sysbox-runc-lite/libcontainer/cgroups/devices/devices_emulator.go:239-261 | every applied rule keeps the table well formed |
| `DeviceTable.RuleDecidesIffClean` | sysbox-runc-lite/libcontainer/cgroups/devices/devices_emulator.go:199-261 | one applied rule decides exactly the accesses it matches, and no other, if and only if no other exception overlaps a removal |
| `DeviceTable.ConcreteRemovalIsClean` | sysbox-runc-lite/libcontainer/cgroups/devices/devices_emulator.go:154-197 | a successful removal at concrete numbers meets that condition |
| `DeviceTable.LastMatchDecidesIffClean` | sysbox-runc-lite/libcontainer/cgroups/devices/devices_emulator.go:142-261 | after each rule of a list, every device access is decided by the last matching rule so far, else as before, if and only if each rule is clean in the table it finds |
| `DeviceTable.LastMatchDecides` | sysbox-runc-lite/libcontainer/cgroups/devices/devices_emulator.go:142-261 | with concrete removals that condition is met, at every prefix and at the end |
| `DeviceTable.WildcardRemovalCounterexample` | sysbox-runc-lite/libcontainer/cgroups/devices/devices_emulator.go:154-197 | with a wildcard removal that law fails |
| `DeviceTransition.OrderIsUnique` | sysbox-runc-lite/libcontainer/cgroups/devices/devices_emulator.go:51-64 | a key set has one sorted listing, so the script is determined by the tables |
| `DeviceTransition.DropsTrim` | sysbox-runc-lite/libcontainer/cgroups/devices/devices_emulator.go:336-350 | replaying the removals trims every source key to what the target keeps, unless one of them is blocked |
| `DeviceTransition.AddsFill` | sysbox-runc-lite/libcontainer/cgroups/devices/devices_emulator.go:352-369 | replaying the additions is never refused and gives each key the target's permissions |
| `DeviceTransition.DisruptiveReplay` | sysbox-runc-lite/libcontainer/cgroups/devices/devices_emulator.go:307-332 | with a reset rule the replay reaches the target exactly when the target has no entry without permissions |
| `DeviceTransition.GentleReplay` | sysbox-runc-lite/libcontainer/cgroups/devices/devices_emulator.go:333-370 | without a reset it does so exactly when no removal is blocked and empty entries agree |
| `DeviceTransition.ReplayReachesTarget` | sysbox-runc-lite/libcontainer/cgroups/devices/devices_emulator.go:307-370 | the replay of a transition's script gives exactly the target if and only if it resets or no lost permission is held by a wildcard trimmed later or kept |
| `DeviceTransition.WiderSortsFirst` | sysbox-runc-lite/libcontainer/cgroups/devices/devices_emulator.go:51-64 | with numbers from -1 up, every wider key sorts before a narrower one |
| `DeviceTransition.ReplayForOrdinaryNumbers` | sysbox-runc-lite/libcontainer/cgroups/devices/devices_emulator.go:307-370 | for such numbers the condition is that no dropped permission is also held, in both tables, by a strictly wider wildcard |
| `DeviceScript.ScriptIsNeeded` | sysbox-runc-lite/libcontainer/cgroups/devices/devices_emulator.go:318-369 | a whitelist-to-whitelist script has no reset rule and only rules for differences |
| `DeviceScript.PrefixIsBetween` | sysbox-runc-lite/libcontainer/cgroups/devices/devices_emulator.go:318-369 | after every applied prefix each exception lies between intersection and union of its source and target permissions |
| `DeviceScript.ChangedPairsWrittenOnce` | sysbox-runc-lite/libcontainer/cgroups/devices/devices_emulator.go:318-369 | each changed (exception, permission) pair is written exactly once, no other pair at all |
| `DeviceScript.SelfTransitionIsEmpty` | sysbox-runc-lite/libcontainer/cgroups/devices/devices_emulator.go:307-370 | a whitelist's transition to itself is empty |
| `DeviceScript.NoSpuriousDenialIffKept` | sysbox-runc-lite/libcontainer/cgroups/devices/devices_emulator.go:300-370 | an access stays allowed after every prefix if and only if one exception grants it in both tables |
| `DeviceScript.NoSpuriousGrant` | sysbox-runc-lite/libcontainer/cgroups/devices/devices_emulator.go:300-370 | no prefix allows an access that neither table allows |
| `DeviceScript.RulesRebuildTable` | sysbox-runc-lite/libcontainer/cgroups/devices/devices_emulator.go:376-379 | `Rules()` rebuilds a table from deny-all exactly when no entry is empty |
| `DeviceScript.BlockedTransitionExample` | sysbox-runc-lite/libcontainer/cgroups/devices/devices_emulator.go:154-197 | two tables that the code cannot move between |
| `DeviceEmulator.OrderedEntries` | sysbox-runc-lite/libcontainer/cgroups/devices/devices_emulator.go:51-64 | the entries of the map in its one sorted order |
| `DeviceEmulator.Emulator.Add` | sysbox-runc-lite/libcontainer/cgroups/devices/devices_emulator.go:142-152 | the table in place becomes the one with the addition |
| `DeviceEmulator.Emulator.Remove` | sysbox-runc-lite/libcontainer/cgroups/devices/devices_emulator.go:154-197 | refused exactly for a wider overlap and then unchanged, else the table with the difference |
| `DeviceEmulator.Emulator.Update` | sysbox-runc-lite/libcontainer/cgroups/devices/devices_emulator.go:199-237 | allow and deny, with the reset for a missing rule |
| `DeviceEmulator.Emulator.Apply` | sysbox-runc-lite/libcontainer/cgroups/devices/devices_emulator.go:239-261 | the new state is what the rule denotes; an error changes nothing |
| `DeviceEmulator.Emulator.Transition` | sysbox-runc-lite/libcontainer/cgroups/devices/devices_emulator.go:307-370 | returns exactly the script of which the lemmas speak |
| `DeviceEmulator.Emulator.MinimalRules` | sysbox-runc-lite/libcontainer/cgroups/devices/devices_emulator.go:376-379 | the script from deny-all |
| `DeviceEmulator.InverseRules` | sysbox-runc-lite/libcontainer/cgroups/devices/devices_emulator.go:333-369 | one rule, in sorted order, for each entry that the other table lacks in part |
| `DeviceEmulator.FromList` | sysbox-runc-lite/libcontainer/cgroups/devices/devices_emulator.go:268-296 | the emulator holds what the lines denote; the first bad line is the error |
| `DevicesList.LineRoundTrip` | sysbox-runc-lite/libcontainer/devices/device.go:158-170 | a printed exception parses back exactly when its numbers fit 32 bits or are wildcards and it grants something, and is refused otherwise |
| `DevicesList.ListRoundTrip` | sysbox-runc-lite/libcontainer/cgroups/devices/devices_emulator.go:79-140 | printing all exceptions in any order and reading them back gives the same table if and only if each is printable |
| `DevicesList.WildcardLineAllowsAll` | sysbox-runc-lite/libcontainer/cgroups/devices/devices_emulator.go:268-296 | one line of type `a` among readable lines makes the list allow-all with no exceptions |
| `DevicesList.ReadableListLoads` | sysbox-runc-lite/libcontainer/cgroups/devices/devices_emulator.go:268-296 | readable lines never fail to load, and allow-all has no exceptions |
| `NsExecSafety.RunKeepsInv` | sysbox-runc-lite/libcontainer/nsenter/nsexec.c:961-1369 | the invariant of queues, counters and effects holds in every state of every run |
| `NsExecSafety.GrandchildRunsLast` | sysbox-runc-lite/libcontainer/nsenter/nsexec.c:961-1369 | past SYNC_GRANDCHILD the maps are written, all descriptors installed in order, the pid forwarded exactly once and stage 1's finish message sent |
| `NsExecSafety.EachFlagUnsharedOnce` | sysbox-runc-lite/libcontainer/nsenter/nsexec.c:1129-1340 | in every state the unshare calls made begin the one list of them, none is repeated or unasked, and when stage 2 returns each requested namespace was unshared exactly once |
| `NsExecProgress.NoDeadlock` | sysbox-runc-lite/libcontainer/nsenter/nsexec.c:961-1369 | while a process is active, some process can take a step |
| `NsExecProgress.StuckMeansFinished` | sysbox-runc-lite/libcontainer/nsenter/nsexec.c:961-1369 | a run that cannot go on has every process finished, dead or unborn |
| `NsExecProgress.EveryRunEnds` | sysbox-runc-lite/libcontainer/nsenter/nsexec.c:961-1369 | no run is infinite, whatever the interleaving and whoever dies |
| `NsExecProgress.SmoothRunSucceeds` | sysbox-runc-lite/libcontainer/nsenter/nsexec.c:961-1369 | if no call fails and the descriptor counts agree, every maximal run ends with stage 2 returned and both parents gone |
| `NsExecProgress.FdMismatchStopsHandshake` | sysbox-runc-lite/libcontainer/nsenter/nsexec.c:741-831 | if the counts differ, stage 2 is never born |
| `InitSyncSafety.RunKeepsInv` | sysbox-runc-lite/libcontainer/process_linux.go:356-615 | the one-in-flight invariant of both queues holds in every state of every run |
| `InitSyncSafety.SuccessMeansSynchronised` | sysbox-runc-lite/libcontainer/process_linux.go:356-615 | if the environment parses, success means that all was sent and done, hooks exactly once with a mount namespace, in every earlier state nothing was sent before its work was done, and the child is through its init or killed |
| `InitSyncSafety.ChildWaitsForItsParent` | sysbox-runc-lite/libcontainer/standard_init_linux.go:48-261 | the child passes procResume and procRun only after the parent's part was done |
| `InitSyncSafety.PanicNeedsKill` | sysbox-runc-lite/libcontainer/sync.go:97-126 | if the environment parses, the parent's panic on a missing error body needs a killed child |
| `InitSyncProgress.NoDeadlock` | sysbox-runc-lite/libcontainer/process_linux.go:356-615 | if the environment parses, no reachable state is a deadlock |
| `InitSyncProgress.EveryRunEnds` | sysbox-runc-lite/libcontainer/process_linux.go:356-615 | no handshake goes on forever |
| `InitSyncProgress.SmoothRunSucceeds` | sysbox-runc-lite/libcontainer/process_linux.go:356-615 | if nothing fails, every maximal run returns success with the child done |
| `InitSyncProgress.LosslessIffEnvironmentParses` | sysbox-runc-lite/libcontainer/sync.go:70-126 | no dropped decoder ever loses a message, in any run, if and only if the environment parses |
| `InitSyncProgress.BadEnvironmentLosesReport` | sysbox-runc-lite/libcontainer/factory_linux.go:277-357 | otherwise some run loses both messages of the error report |
| `InitSyncProgress.KilledReporterPanicsParent` | sysbox-runc-lite/libcontainer/sync.go:97-126 | a child killed between procError and its body makes the parent panic |
| `InitSyncEnvironment.NeverDeadlocks` | sysbox-runc-lite/libcontainer/process_linux.go:356-615 | no reachable state of any configuration is a deadlock, whether the environment parses or not |
| `InitSyncEnvironment.SuccessIsAlwaysSynchronised` | sysbox-runc-lite/libcontainer/process_linux.go:356-615 | for every configuration, success means that the environment parsed and the full synchronisation took place, in that order |
| `InitSyncEnvironment.NothingIsSentEarly` | sysbox-runc-lite/libcontainer/process_linux.go:497-592 | in every state of every run procRun is out only after the state was saved and the rlimits set, procResume only after the cgroup was configured and the hooks ran |
| `InitSyncEnvironment.PanicAlwaysNeedsKill` | sysbox-runc-lite/libcontainer/sync.go:97-126 | for every configuration, the parent panics only over a killed child |
| `InitSyncEnvironment.BadEnvironmentStopsInit` | sysbox-runc-lite/libcontainer/factory_linux.go:277-357 | with an environment that does not parse, init never gets past its error report and procRun is never sent |
| `Netlink.Serialize` | sysbox-runc-lite/libcontainer/message_linux.go:36-93 | the three serialisers fill their buffers with the encoding, and fail exactly for a length beyond 16 bits |
| `Netlink.ParseLoop` | sysbox-runc-lite/libcontainer/nsenter/nsexec.c:503-560 | the parser's loop with its cursor computes the parse of the payload, for all bytes |
| `Netlink.ParseOneEncoded` | sysbox-runc-lite/libcontainer/nsenter/nsexec.c:503-560 | on an encoded attribute the parser stores what was meant and advances exactly to the next one |
| `Netlink.AttributesRoundTrip` | sysbox-runc-lite/libcontainer/nsenter/nsexec.c:480-561 | parsing any encoded list recovers every type and value and stops at its end, in either byte order |
| `Netlink.MessageRoundTrip` | sysbox-runc-lite/libcontainer/nsenter/nsexec.c:480-561 | the whole message, header included, is received as meant whatever follows it on the pipe |
| `NamespacePaths.OrderNamespacePaths` | sysbox-runc-lite/libcontainer/container_linux.go:2071-2100 | the loop gives the wanted namespaces in order, or the first refusal |
| `NamespacePaths.OrderIsComplete` | sysbox-runc-lite/libcontainer/container_linux.go:2071-2100 | refused exactly when a wanted path is unsupported, missing or has a comma; otherwise each wanted namespace once, with its path, user namespace first |
| `NamespacePaths.JoinListRoundTrip` | sysbox-runc-lite/libcontainer/nsenter/nsexec.c:568-633 | splitting the joined list gives back the same namespaces and paths in the same order, and an empty list is refused |
| `NamespacePaths.NameRecovered` | sysbox-runc-lite/libcontainer/nsenter/nsexec.c:449-468 | the C side maps each name back to the namespace it came from |
| `MountSources.EncodeSources` | sysbox-runc-lite/libcontainer/container_linux.go:2219-2236 | one string per mount, refused exactly for a NUL byte in a bind source |
| `MountSources.MountFds` | sysbox-runc-lite/libcontainer/container_linux.go:564-590 | the number recorded for each mount: the next extra file, or -1 |
| `MountSources.SendSources` | sysbox-runc-lite/libcontainer/nsenter/nsexec.c:775-831 | the loop opens exactly the strings of the list |
| `MountSources.OpensTheBindSources` | sysbox-runc-lite/libcontainer/nsenter/nsexec.c:799-820 | these are the non-empty bind sources in mount order |
| `MountSources.SlotsRoundTrip` | sysbox-runc-lite/libcontainer/nsenter/nsexec.c:741-773 | reading the marshalled numbers gives back those in use, in order |
| `MountSources.SourcesReachTheirMounts` | sysbox-runc-lite/libcontainer/nsenter/nsexec.c:741-831 | as many descriptors are sent as waited for if and only if no bind source is empty, and then each bind mount finds its own source at its number |
| `Bootstrap.AttrsAreUnderstood` | sysbox-runc-lite/libcontainer/container_linux.go:2124-2239 | the attributes fit exactly when every text is short enough, and set every field of the C structure as meant |
| `Bootstrap.WrittenIff` | sysbox-runc-lite/libcontainer/container_linux.go:2124-2239 | a message is written exactly when no path or source is refused and no text is too long |
| `Bootstrap.BootstrapRoundTrip` | sysbox-runc-lite/libcontainer/container_linux.go:2124-2239 | whatever message is written, the C side reads back all of it |
| `Bootstrap.FlagsArriveIff` | sysbox-runc-lite/libcontainer/message_linux.go:80-93 | of whatever message is written, the C side reads each boolean as it was meant if and only if the host is little-endian or it is unset |
| `Bootstrap.NamespacesAreJoined` | sysbox-runc-lite/libcontainer/nsenter/nsexec.c:568-633 | from the received message exactly the wanted namespaces are joined, the user namespace first |
| `Bootstrap.SourcesAgreeIff` | sysbox-runc-lite/libcontainer/container_linux.go:564-590 | the handshake's descriptor counts, as fixed by message and environment, agree if and only if no bind source is empty |
| `ContainerState.StatusIsTruthful` | sysbox-runc-lite/libcontainer/state_linux.go:86-236 | a look is refused exactly in the listed cases, and otherwise returns the observed status, except for a restored container that stopped |
| `ContainerState.LinuxContainer.CurrentStatus` | sysbox-runc-lite/libcontainer/container_linux.go:1944-1999 | the status call in place, with both looks at the world |
| `ContainerState.LinuxContainer.Start` | sysbox-runc-lite/libcontainer/container_linux.go:228-246 | result, new state and what becomes of the fifo: refused for skipped devices or its fifo, or the inner start with the fifo removed if that fails |
| `ContainerState.LinuxContainer.Launch` | sysbox-runc-lite/libcontainer/container_linux.go:336-375 | result and new state of the inner start: not set up, ended by a refused look, failed before or after the created state is stored, or done |
| `ContainerState.FailedStartLeavesFifoIff` | sysbox-runc-lite/libcontainer/container_linux.go:409-431 | a failed start leaves its fifo behind exactly if it was made but could not be handed to the container's root |
| `ContainerState.LinuxContainer.Pause` | sysbox-runc-lite/libcontainer/container_linux.go:712-729 | result, new state and effect on the freezer |
| `ContainerState.LinuxContainer.Resume` | sysbox-runc-lite/libcontainer/container_linux.go:731-747 | result, new state and effect on the freezer |
| `ContainerState.LinuxContainer.Signal` | sysbox-runc-lite/libcontainer/container_linux.go:377-407 | result, new state and which processes are signalled |
| `ContainerState.LinuxContainer.Destroy` | sysbox-runc-lite/libcontainer/state_linux.go:38-60 | result, new state and what is cleaned up, for each state |
| `ContainerState.WrongProcessSignalledIff` | sysbox-runc-lite/libcontainer/container_linux.go:377-407 | the pid is signalled although init is not behind it exactly for an unfrozen restored container, and for any other that is frozen and not known to be stopped |
| `ContainerState.RecycledPidSignalled` | sysbox-runc-lite/libcontainer/container_linux.go:390-392 | a process that took over the pid of a frozen container's init is signalled |
| `ContainerState.PauseIsAllOrNothingIff` | sysbox-runc-lite/libcontainer/container_linux.go:712-729 | a pause fails after freezing exactly for a restored container that is unfrozen and shows no fifo while it runs |
| `ContainerState.ResumeEndsRunning` | sysbox-runc-lite/libcontainer/container_linux.go:731-747 | a resume that thaws succeeds and ends in the running state |
| `ContainerState.LookAfterResume` | sysbox-runc-lite/libcontainer/container_linux.go:731-747 | the next look is refused exactly when the exec fifo is still there or a dead container is found alive |
| `ContainerState.ResumedCreatedContainer` | sysbox-runc-lite/libcontainer/state_linux.go:114-129 | pausing and resuming a created container leaves a state that cannot be read |
| `ContainerState.DestroySparesRunning` | sysbox-runc-lite/libcontainer/state_linux.go:131-243 | what is destroyed was not seen running, unless created (then it is killed) or restored |
| `ContainerState.EveryStatusIsTruthful` | sysbox-runc-lite/libcontainer/container_linux.go:1944-1999 | in every sequence of starts, calls and outside events without a restore, each status returned is the observed one |
| `ContainerState.LiveLookRefusedIff` | sysbox-runc-lite/libcontainer/container_linux.go:1955-1991 | over the whole life of a container in one process, while init is alive, a look is refused if and only if some call met the freezer and the container is now unfrozen behind its fifo, and else returns what is the case |
| `ContainerState.RestoredStaysRestored` | sysbox-runc-lite/libcontainer/state_linux.go:194-220 | only destroying a restored container or starting it anew ends its restored state |
| `ContainerState.StartUpLook` | sysbox-runc-lite/libcontainer/container_linux.go:1955-1991 | during start-up a look succeeds exactly while the cgroup is unfrozen, and changes nothing |
| `ContainerState.StartUpIsNeverRejected` | sysbox-runc-lite/libcontainer/process_linux.go:470-553 | while the cgroup stays unfrozen, a first start is never ended by a rejected look before the created state is stored |
| `ContainerState.CreatedNeverRefuses` | sysbox-runc-lite/libcontainer/process_linux.go:534-553 | once the created state is stored, a look returns what it sees |
| `Certificates.LeafVerifies` | sysbox-admission/admission/cert_health.go:96-109 | the loop decides verification for all service names |
| `Certificates.ActionMeans` | sysbox-admission/admission/cert_health.go:26-66 | the bundle is renewed exactly when the CA half is unusable or due, the leaf exactly when only it is, and nothing otherwise |
| `Certificates.LeafRotationHasUsableCa` | sysbox-admission/admission/certificate_resources.go:40-44 | when only the leaf is to be rotated, the CA key parses and matches: the fallback to a new bundle is unreachable |
| `Certificates.HealthOfUsable` | sysbox-admission/admission/cert_health.go:26-94 | two usable halves are healthy exactly while both are in time, if the leaf is bound to the CA |
| `Certificates.HealthLasts` | sysbox-admission/admission/cert_health.go:26-94 | a healthy set stays healthy exactly until the first renewal window opens |
| `Certificates.FreshLeaf` | sysbox-admission/admission/certs.go:101-153 | a leaf can be issued exactly under a strong CA key, and is healthy while in time exactly if the CA vouches for the service's names |
| `Certificates.FreshBundle` | sysbox-admission/admission/certs.go:50-99 | a new bundle can always be issued and is healthy exactly until a window opens |
| `Certificates.ReconcileStabilisesIff` | sysbox-admission/admission/certificate_resources.go:20-135 | from any contents of the Secrets an undisturbed reconciliation succeeds if and only if a kept CA can sign, and its set is healthy exactly while in time if that CA vouches, else never |
| `Certificates.ReconciledHealth` | sysbox-admission/admission/certificate_resources.go:20-135 | any set arrived at is healthy exactly while in time, if its leaf is bound |
| `Certificates.HealthyAtTheEndIff` | sysbox-admission/admission/certs.go:101-153 | for every run, the set is healthy at its end exactly if it was and is still in time, or the kept CA is in time and vouches and the new leaf lasts, or both are new and last |
| `Certificates.LeafAlwaysLastsIff` | sysbox-admission/admission/certs.go:14-18 | a new leaf is never due at once, whenever issued, if and only if the window is at least a second below the leaf validity |
| `Certificates.CaLastsWithTheLeaf` | sysbox-admission/admission/certs.go:14-18 | such a window also suits the CA of a new bundle, unless nine years pass between the two issues |
| `Certificates.WindowTooCloseToValidity` | sysbox-admission/admission/certs.go:138-146 | a window below the leaf validity by less than a second need not suffice |
| `Certificates.QuietUntilRenewal` | sysbox-admission/admission/certificate_resources.go:37-39 | any number of later reconciliations change nothing until a renewal window opens |
| `Certificates.RestrictedCaNeverHeals` | sysbox-admission/admission/cert_health.go:62-64 | a strong CA that does not vouch is kept over any number of runs, each with a new leaf, and no set is ever healthy |
| `Certificates.RestrictedCaExists` | sysbox-admission/admission/cert_health.go:36-46 | a new CA without the server usage is such a one |
| `Certificates.WeakCaNeverReconciles` | sysbox-admission/admission/certificate_resources.go:114-124 | under a CA key too short to sign, no leaf rotation succeeds |
| `Certificates.WrongLabelStays` | sysbox-admission/admission/cert_health.go:68-90 | a healthy set with an unusual PEM label stays healthy until a window opens and cannot be loaded |
| `Certificates.RelabelledBundle` | sysbox-admission/admission/lifecycle.go:66-69 | such a set exists |
| `CertificateLifecycle.ApiObject.Apply` | sysbox-admission/admission/certificate_resources.go:137-233 | success under any interference means that exactly this data is stored; undisturbed it succeeds if and only if the object accepts updates |
| `CertificateLifecycle.Manager.ReadCertificates` | sysbox-admission/admission/certificate_resources.go:52-77 | undisturbed, what the Secrets hold, and no write |
| `CertificateLifecycle.Manager.RotateCertificateBundle` | sysbox-admission/admission/certificate_resources.go:79-112 | a returned set is the new bundle with its leaf stored, whatever others do; undisturbed it succeeds exactly if both Secrets accept updates |
| `CertificateLifecycle.Manager.RotateLeafCertificate` | sysbox-admission/admission/certificate_resources.go:114-135 | a returned set is the given CA with its new leaf, which is stored |
| `CertificateLifecycle.Manager.EnsureCertificates` | sysbox-admission/admission/certificate_resources.go:20-50 | under any interleaving a returned set is one an undisturbed run could return; undisturbed it returns and stores the reconciled set exactly if that exists and can be written, and a healthy set is not written again |
| `CertificateLifecycle.Manager.Ensure` | sysbox-admission/admission/lifecycle.go:55-138 | on any success the webhook's CA bundle is that of the returned set, whose leaf loads; undisturbed it succeeds if and only if the names are set, a kept CA can sign, what must be written can be and a kept leaf loads, and then the Secrets hold the set |
| `LexicalPath.CleanedNames` | sysbox-snapshotter/rootfs/path.go:22-28 | a cleaned path has dot-dots only as a leading run, and none if absolute |
| `LexicalPath.CleanIsIdempotent` | sysbox-snapshotter/rootfs/path.go:22-28 | cleaning keeps names and kind of a path and is idempotent |
| `RootfsPaths.ChecksAgree` | sysbox-admission/admission/mutate.go:194-209 | admission accepts exactly the paths that the snapshotter accepts, for every string |
| `RootfsPaths.SnapshotterAcceptsInside` | sysbox-snapshotter/rootfs/path.go:15-30 | accepted exactly if relative and without dot-dot after cleaning, with the cleaned path as result |
| `RootfsPaths.SafeJoinStaysBelow` | sysbox-snapshotter/rootfs/path.go:32-38 | under an absolute root the result is the root's names followed by the path's, so the root or below it |
| `RootfsPaths.OverlapIsNesting` | sysbox-admission/admission/mutate.go:172-174 | on cleaned absolute paths the textual overlap check is nesting |
| `Admission.CheckSpecials` | sysbox-admission/admission/mutate.go:135-147 | the nested loops accept exactly lists of usable paths without overlap among themselves and the built-in ones |
| `Admission.CheckEntry` | sysbox-admission/admission/mutate.go:117-149 | accepts exactly the valid entries |
| `Admission.CheckEntries` | sysbox-admission/admission/mutate.go:98-114 | accepts exactly non-empty lists of valid entries with distinct non-empty names |
| `Admission.SpecialPathsAreSeparate` | sysbox-admission/admission/mutate.go:132-174 | the built-in and custom special paths of an accepted entry are pairwise not nested |
| `Admission.SidecarMounts` | sysbox-admission/admission/sidecar.go:33-44 | the loop yields the required mounts |
| `Admission.OneMountPerVolume` | sysbox-admission/admission/sidecar.go:33-44 | one mount for each distinct volume of the entries, at its path, and no other |
| `Admission.EnsureSidecar` | sysbox-admission/admission/sidecar.go:9-31 | the other containers in order, then the sidecar |
| `Admission.OthersAreTheOthers` | sysbox-admission/admission/sidecar.go:14-19 | every container but a sidecar is kept |
| `Admission.Mutate` | sysbox-admission/admission/mutate.go:40-75 | the edited copy, or a rejection, as specified |
| `Admission.MutateIsIdempotent` | sysbox-admission/admission/mutate.go:40-75 | mutating an admitted pod again changes nothing |
| `Admission.ExactlyOneSidecar` | sysbox-admission/admission/sidecar.go:9-44 | an admitted configured pod ends with exactly one sidecar that mounts each volume of the entries once, all others kept in order |
| `RootfsLayer.ResolveLayer` | sysbox-snapshotter/rootfs/sidecar_metadata.go:16-59 | the first-match search as specified, with its error cases |
| `RootfsLayer.AdmittedEntryIsSelected` | sysbox-snapshotter/rootfs/sidecar_metadata.go:27-57 | for every entry of an admitted pod the snapshotter selects exactly that entry, unless it names the sidecar, which never gets a layer |
| `RootfsLayer.SidecarEntryIsIgnored` | sysbox-snapshotter/rootfs/sidecar_metadata.go:27-35 | an admitted pod with such an entry |
| `RootfsLayer.ResolveMount` | sysbox-snapshotter/rootfs/pvc_mountpath_resolver.go:31-57 | the mount search as specified, with its error cases |
| `RootfsLayer.SidecarMountPathOf` | sysbox-admission/admission/sidecar.go:41 | a volume is mounted right below the sidecar path under its own name |
| `RootfsLayer.LookupFindsTheVolume` | sysbox-snapshotter/rootfs/pvc_mountpath_resolver.go:46-56 | the lookup finds the source of exactly the mount that admission added for the entry's volume |
| `PodPatch.PatchForPod` | sysbox-admission/admission/patch.go:16-45 | the list of operations that the lemmas speak of |
| `PodPatch.PatchYieldsMutated` | sysbox-admission/admission/patch.go:16-45 | for any two pods the patch is defined exactly when the members it needs are there, and yields a document of the second |
| `PodPatch.PatchLeavesTheRest` | sysbox-admission/admission/patch.go:16-45 | nothing else in the document changes |
| `PodPatch.MutationPatchApplies` | sysbox-admission/admission/patch.go:16-45 | the patch for an admitted pod is always defined and yields the mutated pod |
| `PodPatch.MissingContainersMember` | sysbox-admission/admission/patch.go:25-27 | without a containers member the replacement is undefined |
| `JsonEscape.PassesAgree` | sysbox-runc-lite/libcontainer/nsenter/escape.c:35-55 | counting and writing agree on every character |
| `JsonEscape.LengthIsCounted` | sysbox-runc-lite/libcontainer/nsenter/escape.c:80-137 | the second pass writes exactly the length counted by the first |
| `JsonEscape.Emit` | sysbox-runc-lite/libcontainer/nsenter/escape.c:96-136 | one escaped character is written in place, inside the buffer |
| `JsonEscape.EscapeJsonString` | sysbox-runc-lite/libcontainer/nsenter/escape.c:67-142 | the argument comes back exactly if nothing was counted, else a buffer filled to its last byte with the escaped text and its NUL |
| `JsonEscape.EscapeRoundTrip` | sysbox-runc-lite/libcontainer/nsenter/escape.c:67-142 | decoding by section 2.5 of RFC 4627 gives back every byte |
| `ExecUser.ParsePasswdFilter` | sysbox-runc-lite/libcontainer/user/user.go:121-154 | the wanted users of the lines, in order |
| `ExecUser.ParseGroupFilter` | sysbox-runc-lite/libcontainer/user/user.go:179-245 | the wanted groups of the lines, in order |
| `ExecUser.GetExecUser` | sysbox-runc-lite/libcontainer/user/user.go:295-428 | the resolution that the lemmas below describe, with its error cases |
| `ExecUser.NameResolves` | sysbox-runc-lite/libcontainer/user/user.go:322-424 | a name resolves to the first passwd entry of that name in file order, with exactly the gids of the groups that list it, or is an error without one |
| `ExecUser.EmptyResolves` | sysbox-runc-lite/libcontainer/user/user.go:322-424 | an empty specification resolves to the first entry with the default uid and its groups, or to the defaults |
| `ExecUser.UserPartMeans` | sysbox-runc-lite/libcontainer/user/user.go:322-368 | the user part gives the first passwd entry it describes, else the default, a uid in range or an error, and keeps the default groups |
| `ExecUser.GroupNameResolves` | sysbox-runc-lite/libcontainer/user/user.go:385-417 | a specification with a group name resolves to its user with the gid of the first group of that name and the default groups, or is an error without one |
| `ExecUser.IdsResolveExactly` | sysbox-runc-lite/libcontainer/user/user.go:295-428 | `uid:gid` resolves to exactly that uid and gid, exactly when the files can be read or are absent and each id is in range or listed |
| `ExecUser.SmallIdsAlwaysResolve` | sysbox-runc-lite/utils_linux.go:84 | up to 2^31-1 nothing in the files matters |

## Left out

- Command line, terminals, signal and log forwarding, stats and RDT: input and output plumbing.
- Checkpoint and restore: only the restored state is modelled.
- Mounting, seccomp, capabilities, eBPF and keyrings: kernel and foreign-library calls.
- Snapshot transactions of `fuseoverlayfs.go` and the lookup of the sidecar's spec in containerd: the stores are outside the repository.
- Cryptography, X.509 and PEM text: keys and signatures are abstract; a PEM text is its first block, and a second block that the key-pair loader could fall back on is not modelled; domain constraints are compared without case folding.
- JSON text of annotations and pods: decoders are parameters, documents are trees.
- ContainerState.LinuxContainer.Start: only the start of an init process; a further process in a running container does not touch the state.
- Joining a running container (the setns side of `process_linux.go`) and the agent behind the seccomp notification.
- Socket buffers and short writes: a queue takes every message and a message is read whole.
- The order in which Go's map iteration and sort visit equal keys: keys are distinct, so the order is determined.
- `stablePVCMountPathFromMountInfo` and `unescapeMountInfoPath`: a search and a replacement table.
- The lifecycle lease and leader election: a flag that is created once.
- Error messages: errors are compared by kind.
- JsonEscape.EscapeJsonString: the length is not bounded by a 32-bit int and allocation does not fail, because a log line of hundreds of megabytes is not the point.
- MountSources.ReceiveSlots: strtol does not saturate, because every value that would be saturated is out of range either way.
- MountSources.SourcesReachTheirMounts: assumes that the descriptor numbers fit an int, as the kernel guarantees for open descriptors.
- CertificateLifecycle.Manager.Ensure: the fallback branch of a leaf rotation is left out of the method, since it is proved unreachable; clock readings within a run do not go back.
