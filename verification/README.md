# Verified models of Hoserva

Hoserva is a NAS daemon (`hoservad`), its command line (`hoserva`) and a contract
mock of its API (`mockapi`). This project models the parts of it whose
correctness rests on the order of steps, on what a crash or a fault leaves behind,
or on how several goroutines interleave, and proves what they promise.
`dafny verify dfyconfig.toml` checks all of it.

| files | what they model |
|---|---|
| `Utf8`, `TerminalEscape` | `safeText`, `safeBlock` and the streaming `copyBlock`, with the UTF-8 decoder they rest on (section 4 of RFC 3629) |
| `TlsPair`, `TlsInstall`, `TlsRuns`, `TlsMachine` | installing, recovering and loading the certificate and key as one thing, one file operation at a time, with a crash at every point |
| `StorageHost`, `StorageTarget`, `ArraySequence` | the storage-ready flag and systemd gate, the durable array-stopped flag, `array stop`, `array start`, shutdown and reboot |
| `DegradedGate`, `Acknowledgement`, `AcknowledgementRace` | the degraded-array gate, and the user's acknowledgement carried across rebuilds that race with it |
| `TlsListener`, `SourceFilter` | the TLS-sniffing listener and the LAN-only filter as interleaved steps |
| `MigrationLog`, `MigratedStacks`, `Migration`, `ContainerFlow`, `StackRace` | the Unraid migration protocol of the mock: scan, import, verify, point of no return, then its stacks one at a time |
| `Wrappers` | the optional value the others share |
| `ImportMapping`, `SpaceAlert` | the disk-role mapping an import sends, and the edge-triggered space alerts |

How to read the models:

- A fault is a nondeterministic choice: every file operation, systemctl call,
  publish or read may fail unless the object was built `calm`. What is proved
  without `calm` holds whatever fails; what is proved with it says that a
  fault-free call succeeds.
- What was done, and in what order, is kept in ghost sequences (`Host.trace`,
  `Store.ops`, with `Store.faults` counting failures), so that a contract says
  which steps ran and not only where they led.
- A crash is described by the set of disks an operation passes through
  (`visited`). In program order a crash keeps all changes made; otherwise it
  keeps any subset of the changes since the last directory sync.
- Concurrency is a step relation over whole worlds, and the theorems are about
  every run of steps. Code that holds a mutex throughout is one step.
- The migration's handlers write what they did to a ghost log. `Allowed` and
  `Lawful` say which logs there can be, every handler is proved to keep its
  fields equal to what the log says and the log lawful, and the promises of the
  protocol are theorems about positions in a lawful log.

## Where the code and its promise part

Each of these is the code as it is, with the exact condition under which the
promise holds.

- Whatever point of an install a crash strikes and whatever subset of the
  unsynced renames it keeps, exactly the old or exactly the new pair loads, if and
  only if neither pair's certificate matches the other's key
  (`TlsPair.OldOrNewExactlyWhenForeign`). An install that reuses the key is
  covered, since the two pairs then share a file.
- A finished install is never undone, over every run of loads with read faults and
  of crashes, if and only if no snapshot of another pair is left synced on the
  disk (`TlsRuns.FinishedInstallStaysExactlyWithoutSnapshot`). None is after a
  plain success. When only the cleanup failed one may be, and then a crash and a
  load that cannot read the live pair bring the previous pair back
  (`TlsRuns.SnapshotComesBack`); a fault-free load does not.
- With unsynced renames reordered, a pair always loads over every run that starts
  from a synced pair, provided that an operation which gave up, a rollback or a
  load that failed, is followed by a crash or left the disk settled. Otherwise the
  next snapshot can strand the directory (`TlsRuns.FailedRollbackCanStrand`,
  `TlsRuns.FailedLoadCanStrand`). A first certificate, with nothing to snapshot,
  has no such promise: two interrupted first boots can leave a certificate and a
  key that do not match (`TlsRuns.FirstBootsCanStrand`).
- Loading takes any error of `os.Stat` for an absent file. Then it can generate
  over a pair that is there, through a directory from which nothing loads
  (`TlsRuns.StatFaultCanStrand`); without such an error it never does.
- `os.WriteFile` can create the storage-ready flag and still report an error. The
  flag is then present with `ready` false, and the gate is open to a start from
  outside (`StorageHost.FlagAloneOpensTheGate`). The invariant of
  `StorageTargetSync` names this as its one exception (`torn`). `Update` does not
  take such a flag back: a fault-free call over a gate that is not ready leaves
  the flag present if and only if readiness had been applied before, the flag was
  there and `ready` was false. Only `Close`, `Startup` or a later ready gate
  brings the two back in line.
- A fault-free `Update` outside maintenance ends with the flag present if and
  only if the gate is ready and the pool can come up. It cannot while the
  array-stopped flag is there and the pool is not mounted, because systemd then
  skips the mount units without an error.
- A `Start` whose disk, catch-all or share mount fails puts the array-stopped flag
  back and nothing else: exactly the mounts made before it stay up under a row
  that says stopped (`MountsLeft` of `ArraySequence.Sequence.Start`). So may disks
  that do not unmount again after a failed disk check (`DisksLeft`). Every error
  from the storage target on unmounts everything or says that it could not.
- Clearing the flag before stopping the gate always closes it; the other order
  does if and only if nothing is started in between while the flag is set
  (`StorageHost.GateThenFlagCloses`).
- An acknowledgement covers the degraded slots it was given for if and only if
  each has a WWN or a serial (`Acknowledgement.RecordCoversExactlyNamed`). A
  rebuild that could not list the disks forgets it
  (`Acknowledgement.UnlistedRebuildForgets`).
- A container check reads a stack and records its result in two sections. With
  whole calls, a confirmed stack was checked after its latest start; at the grain
  of the locks that holds exactly for the checks not overlapped by a start
  (`StackRace.TimelyChecksAreCurrent`, `StackRace.UntimelyCheckMisleads`), and a
  run that breaks it exists (`StackRace.CheckCanPrecedeTheStart`). The check of a
  stack that has been deleted finds no paths and passes.
- At most one entry of a mapping names a disk of the table, for every table and
  every `--role`, if and only if all the rows that are set and answer to that disk
  go by one key (`ImportMapping.NamedOnceExactlyByOneKey`). Distinct serials and
  case-folded WWNs are enough (`ImportMapping.OneEntryPerDisk`). Two rows whose
  WWNs differ only in case get two entries, and so do two rows with one serial of
  which only one has a WWN (`ImportMapping.TwinRowsGetTwoEntries`,
  `ImportMapping.SharedSerialGetsTwoEntries`).

## Model

| member | source | states |
|---|---|---|
| `Utf8.FullRuneIsStable` | cmd/hoserva/output.go:100-103 | once the bytes hold a full rune, it decodes the same whatever bytes follow |
| `Utf8.UndecidedIsShort` | cmd/hoserva/output.go:100-105 | bytes that are not yet a full rune are at most three |
| `Utf8.DecodeEncoded` | cmd/hoserva/output.go:63-78 | every rune decodes back from its encoding, with any bytes after it |
| `Utf8.EncodeDecoded` | cmd/hoserva/output.go:63-78 | what decodes as a rune is exactly that rune's encoding |
| `Utf8.AcceptsExactlyEncodings` | cmd/hoserva/output.go:75-76 | the decoder accepts a front of the input if and only if it is the encoding of some rune |
| `TerminalEscape.HexReadsBack` | cmd/hoserva/output.go:76-81 | hexadecimal digits of a value read back as that value |
| `TerminalEscape.QuoteReadsBack` | cmd/hoserva/output.go:79-81 | the quoted form of every rune names that rune |
| `TerminalEscape.EscapesACharacter` | cmd/hoserva/output.go:73-83 | whatever follows it, a printable character, a space, or a line feed or tab of a block stays; any other becomes an escape that names it, in the form for its value |
| `TerminalEscape.EscapesAnIllFormedByte` | cmd/hoserva/output.go:73-83 | a byte no character starts with becomes a four-byte escape that names it, and the rest is escaped on its own |
| `TerminalEscape.EscapeText` | cmd/hoserva/output.go:60-68 | the loop computes the recursive escape of the whole text |
| `TerminalEscape.EscapeIsClean` | cmd/hoserva/output.go:47-58 | the output is valid UTF-8 of printable characters and spaces, and of line feeds and tabs in a block |
| `TerminalEscape.CleanHasNoControls` | cmd/hoserva/output.go:47-58 | no byte of such a text is a control character, except line feed and tab in a block |
| `TerminalEscape.CleanIsFixed` | cmd/hoserva/output.go:60-83 | text that is already clean is left as it is |
| `TerminalEscape.EscapeFixesExactlyClean` | cmd/hoserva/output.go:47-83 | escaping leaves a text unchanged if and only if it is clean, and escaping twice is escaping once |
| `TerminalEscape.EscapeSize` | cmd/hoserva/output.go:60-83 | the output is at most four times as long as the input |
| `TerminalEscape.EscapeDecided` | cmd/hoserva/output.go:98-105 | escaping the decided part of the buffer and then the rest is escaping the whole; at most three bytes are kept |
| `TerminalEscape.CopyBlock` | cmd/hoserva/output.go:85-118 | for every split into reads, empty ones and a final error included, what is written is `safeBlock` of everything read; a failed write leaves a prefix; at most three bytes wait between reads |
| `TlsPair.HeldSurvivesCrash` | cmd/hoservad/cert.go:69-106 | from a held disk, any subset of the unsynced changes leaves a directory that loads, and a disk an operation may start from |
| `TlsPair.InstallingIsRecoverable` | cmd/hoservad/cert.go:264-288 | at every point of an install the live pair or the snapshot loads |
| `TlsPair.InstallingIsHeld` | cmd/hoservad/cert.go:264-288 | at every point of an install from a settled disk, a pair is held whatever subset of changes survives |
| `TlsPair.InstallEndsSettled` | cmd/hoservad/cert.go:264-288 | an install that ends without a rollback error ends where another may start |
| `TlsPair.BootingIsRecoverable` | cmd/hoservad/cert.go:69-106 | at every point of a load, recovery and generation included, a certificate that is there can be loaded or repaired |
| `TlsPair.BootingIsHeld` | cmd/hoservad/cert.go:69-106 | at every point of a load, with unsynced changes before it or not, a pair is held whatever subset of changes survives |
| `TlsPair.BootEndsSettled` | cmd/hoservad/cert.go:69-106 | a load that returns a pair ends where another operation may start |
| `TlsPair.CrashLoadsOldOrNew` | cmd/hoservad/cert.go:178-216 | over a synced pair, a crash that keeps any subset of unsynced renames loads exactly the old pair or exactly the new one |
| `TlsPair.OldOrNewExactlyWhenForeign` | cmd/hoservad/cert.go:178-216 | for every directory with a live pair, every point of an install and every surviving subset load the old pair or the new one, if and only if the pairs do not cross-match |
| `TlsInstall.Store.SnapshotPair` | cmd/hoservad/cert.go:312-337 | success leaves the pair copied and synced; otherwise the live names are untouched; every disk passed through is one of a snapshot |
| `TlsInstall.Store.WritePair` | cmd/hoservad/cert.go:178-216 | key, then certificate, then sync and check, one operation at a time, with the progress record true of the live files at every exit; it fails for one failed operation |
| `TlsInstall.Store.RestoreInstalled` | cmd/hoservad/cert.go:339-366 | success puts the snapshot back for exactly the names that were replaced; it fails for one failed operation |
| `TlsInstall.Store.RemoveBackups` | cmd/hoservad/cert.go:296-310 | certificate, key, sync, the new pair staying live and synced throughout; success, which is when nothing fails, leaves no snapshot |
| `TlsInstall.Store.Install` | cmd/hoservad/cert.go:257-288 | no failed operation and it is installed, exactly the new pair; one and it failed with the old files byte for byte or left its backup; two for a failed rollback; a pair that does not load is rejected, untouched; every disk passed through is a point of an install |
| `TlsInstall.Store.ReplacePair` | cmd/hoservad/cert.go:272-287 | from the snapshot on: written, synced, checked and loaded before the snapshot goes; one failure puts back what was replaced, two are a failed rollback; every disk in between is one of a replacement or a cleanup |
| `TlsInstall.Store.Recover` | cmd/hoservad/cert.go:372-398 | loads only a snapshot that matches, which its two renames and sync leave live; without one nothing is touched |
| `TlsInstall.Store.LoadOrGenerate` | cmd/hoservad/cert.go:69-106 | what is returned is live and was the live pair, the snapshot, or the generated pair when a file was missing; when nothing fails, from any directory, it is the live pair, else the snapshot, else the generated pair if a name is missing, and a pair that loads is left as it is |
| `TlsInstall.HttpsControl.Install` | cmd/hoservad/https.go:87-103 | done means disk and served certificate are both the new pair; after any other error the served certificate is unchanged |
| `TlsRuns.OrderedRunsStayRecoverable` | cmd/hoservad/cert.go:69-106 | over every run of loads, installs and crashes anywhere, in program order, a certificate that is there can be loaded or repaired |
| `TlsRuns.EmptyIsRecoverable` | cmd/hoservad/cert.go:69-106 | such a run may start from an empty directory |
| `TlsRuns.LivePairStaysOrIsReplaced` | cmd/hoservad/cert.go:264-288 | at every point of an install over a live pair the next load returns it or the new one |
| `TlsRuns.FinishedInstallStaysExactlyWithoutSnapshot` | cmd/hoservad/cert.go:279-310 | after a finished install the live pair stays over every run of loads and crashes, if and only if no snapshot of another pair is left synced |
| `TlsRuns.LastingThroughBoots` | cmd/hoservad/cert.go:69-106 | over every run of loads with read faults and crashes keeping any subset, a live pair with no other snapshot stays |
| `TlsRuns.SnapshotComesBack` | cmd/hoservad/cert.go:372-398 | with a snapshot left, a crash and a load that cannot read the live pair bring it back |
| `TlsRuns.InstalledStays` | cmd/hoservad/cert.go:264-288 | what a plain success leaves is never undone by loads and crashes |
| `TlsRuns.UnsyncedRunsStayLoadable` | cmd/hoservad/cert.go:178-216 | from a synced pair, over every run of loads and installs in which crashes keep any subset of unsynced changes, a pair always loads; only an act that failed and went on without a crash must have left the disk settled |
| `TlsRuns.FailedRollbackCanStrand` | cmd/hoservad/cert.go:339-366 | operation by operation: after a failed rollback, a crash in the next snapshot can leave nothing that loads |
| `TlsRuns.FailedLoadCanStrand` | cmd/hoservad/cert.go:69-106 | the same after a load that generated a pair and could not sync it |
| `TlsRuns.FirstBootsCanStrand` | cmd/hoservad/cert.go:69-106 | operation by operation: two interrupted first boots can leave a pair that does not match |
| `TlsRuns.StatFaultCanStrand` | cmd/hoservad/cert.go:70-96 | operation by operation: generating over a pair that is there passes through a directory from which nothing loads |
| `TlsRuns.EveryLoadIsAnOfferedPair` | cmd/hoservad/cert.go:69-106 | over every run whatever, a load returns only a pair that was generated or offered whole |
| `TlsMachine.Do` | cmd/hoservad/cert.go:69-288 | every disk a load or an install passes through or ends at is one the run laws speak of |
| `TlsMachine.Run` | cmd/hoservad/cert.go:69-288 | any sequence of loads and installs, each struck by a crash anywhere or not, is a run of those laws; so from a recoverable directory it stays recoverable in program order, and from a settled one a pair always loads whatever subset survives |
| `StorageHost.ClosedStaysClosed` | internal/pool/target.go:72-79 | no start from outside changes anything behind a closed gate |
| `StorageHost.OutsideStartsNeedTheGate` | internal/pool/target.go:162-164 | outside starts never touch the flag, and start nothing with the gate down and the flag gone |
| `StorageHost.FlagThenGateCloses` | cmd/hoservad/storagetarget.go:924-948 | clearing the flag and then stopping the gate ends closed, with outside starts at every point |
| `StorageHost.GateThenFlagCloses` | cmd/hoservad/storagetarget.go:879-923 | the other order ends closed if and only if nothing is started in between while the flag is set |
| `StorageHost.FlagAloneOpensTheGate` | cmd/hoservad/storagetarget.go:276-287 | with the gate down, services stay down exactly as long as the flag is absent |
| `StorageTarget.StorageTargetSync.ReconcileMountFailures` | cmd/hoservad/storagetarget.go:418-450 | exactly the recorded slots confirmed mounted are dropped, and none when the store cannot be read |
| `StorageTarget.StorageTargetSync.MountArrayAndPool` | cmd/hoservad/storagetarget.go:487-500 | success means every disk, the catch-all and every share was mounted in order and is up; a disk that does not mount ends it and is recorded, and nothing else is |
| `StorageTarget.StorageTargetSync.Update` | cmd/hoservad/storagetarget.go:720-808 | completed, it did exactly its steps in order: the units if they differ, then either the flag cleared or every mount, the flag and the four dependents; the gate opens only over a mounted array; refused or failed it leaves ready as it was; nothing is done when nothing changed; and exactly what becomes of the flag |
| `StorageTarget.StorageTargetSync.ConfirmReady` | cmd/hoservad/storagetarget.go:849-869 | success means flag, ready and units agree over a mounted pool and all four dependents were asked to start; a failure changes none of the remembered state |
| `StorageTarget.StorageTargetSync.Startup` | cmd/hoservad/storagetarget.go:570-650 | completed, it did exactly its steps in order, ending ready over a mounted array outside maintenance; past clearing the flag the invariant holds; a disk that does not mount is recorded; no dependent is started |
| `StorageTarget.StorageTargetSync.Close` | cmd/hoservad/storagetarget.go:924-948 | success, with outside starts between all steps, leaves flag absent, gate down and nothing behind it running, having stopped Docker and libvirt before the flag and the gate; only a persistent close moves the stopped flag |
| `StorageTarget.StorageTargetSync.Open` | cmd/hoservad/storagetarget.go:956-960 | clears the stopped flag or leaves it |
| `StorageTarget.StorageTargetSync.Reclose` | cmd/hoservad/storagetarget.go:996-1000 | sets the stopped flag or leaves it |
| `StorageTarget.StorageTargetSync.Serve` | cmd/hoservad/storagetarget.go:720-1000 | over every run of calls with any step failing, a flag that is there was set over a confirmed pool, by a ready gate outside maintenance or an explicit start; the stopped flag moves only in a call to move it |
| `ArraySequence.Sequence.StopSequence` | internal/job/array.go:415-463 | success closes the gate and unmounts everything, in order: services, gate, shares, pool, disks |
| `ArraySequence.Sequence.Stop` | internal/job/array.go:332-403 | a user's stop ends at rest with row and flag set; a shutdown moves neither; everything is drained before the first service stops; success restores the invariant from any state |
| `ArraySequence.Sequence.Start` | internal/job/array.go:611-735 | success has everything mounted, the flag set and nothing saying stopped; every error says what is left: as it was, exactly the mounts made before the one that failed, disks that did not unmount, or a rollback that did not finish |
| `ArraySequence.Sequence.MountUp` | internal/job/array.go:646-691 | disks, catch-all and shares in order; the first failure leaves exactly the mounts before it, a failed disk check none unless an unmount fails |
| `ArraySequence.Sequence.StartServices` | internal/job/array.go:692-735 | the storage target, then the services last first, then the row; an error rolls back exactly the services that had been started |
| `ArraySequence.Sequence.RollbackToStopped` | internal/job/array.go:574-591 | going back takes the stop steps from the given service on and ends closed and unmounted, or reports that it did not |
| `ArraySequence.Sequence.Boot` | internal/job/scheduler.go:1000-1016 | a reboot moves the stopped flag only to the persisted row, and a good one does; past clearing the flag the invariant holds even if Startup fails; nothing is mounted when stopped |
| `ArraySequence.Sequence.Run` | internal/job/array.go:332-735 | over every run of stops, starts, shutdowns, rebuilds and reboots, whatever fails, row and flag move only as the laws on their history allow, and the storage invariant holds unless a reboot failed |
| `ArraySequence.OnlyTheUserMovesTheMarks` | cmd/hoservad/storagetarget.go:570-597 | any number of shutdowns, reboots and rebuilds, failed ones included, leaves row and flag as the user's last stop or start left them |
| `ArraySequence.RebootRealigns` | cmd/hoservad/storagetarget.go:582-597 | after any failures, one good reboot brings the flag back in line with the row, which nothing but the user moved |
| `DegradedGate.FindMatch` | internal/disk/degraded.go:45-52 | finds the first present disk that matches, and tells absent and wrong disks apart |
| `DegradedGate.MatchesByStrongest` | internal/disk/identity.go:112-124 | one disk by WWN when both sides have one, else by a serial both have |
| `DegradedGate.ListedExactly` | internal/disk/degraded.go:43-61 | missing are the expected disks nothing matches, wrong those whose first match has another filesystem known on both sides |
| `DegradedGate.FoundIsNotListed` | internal/disk/identity.go:126-141 | a disk found with its filesystem, or with one that cannot be told, is never listed |
| `DegradedGate.CheckDisks` | internal/disk/degraded.go:43-61 | missing and wrong disks are exactly those, in order, and ready means there is none |
| `DegradedGate.NothingDegraded` | internal/disk/degraded.go:53-60 | the two lists are empty if and only if every expected disk is present with its filesystem |
| `DegradedGate.StorageGate.Evaluate` | internal/disk/degraded.go:95-103 | a whole array ends an earlier acknowledgement; a degraded one keeps it |
| `DegradedGate.StorageGate.Acknowledge` | internal/disk/degraded.go:142-150 | refused if and only if there is nothing to acknowledge |
| `Acknowledgement.Holder.Record` | cmd/hoservad/array.go:313-324 | what is kept is every degraded slot, missing ones first |
| `Acknowledgement.Holder.Reapply` | cmd/hoservad/array.go:333-354 | a new gate is acknowledged if and only if each degraded slot matches one recorded; nothing degraded ends the record |
| `Acknowledgement.RecordCoversExactlyNamed` | cmd/hoservad/array.go:308-324 | recorded slots cover themselves if and only if each has an identity to match by |
| `Acknowledgement.RebuildKeepsAcknowledgement` | cmd/hoservad/array.go:326-354 | a rebuild that finds nothing newly degraded keeps the acknowledgement |
| `Acknowledgement.NewSlotIsNotCovered` | cmd/hoservad/array.go:326-354 | a slot not acknowledged leaves the gate not ready |
| `Acknowledgement.UnlistedRebuildForgets` | cmd/hoservad/array.go:326-354 | a rebuild that could not list the disks drops the acknowledgement |
| `AcknowledgementRace.StepKeepsInv` | cmd/hoservad/array.go:382-454 | every step of a hook or a rebuild keeps gate and record in agreement whenever the mutex is free |
| `AcknowledgementRace.EveryInterleavingAgrees` | cmd/hoservad/array.go:382-454 | in every interleaving, with the mutex free, a published degraded gate is acknowledged if and only if each slot is recorded |
| `AcknowledgementRace.BuiltGatesAreFresh` | cmd/hoservad/array.go:58-258 | the gates a rebuild publishes start unacknowledged and sound |
| `AcknowledgementRace.UnlockedRaceLosesIt` | cmd/hoservad/array.go:382-454 | without the mutex the same steps lose an acknowledgement already reported |
| `TlsListener.EveryRunKeepsInv` | cmd/hoservad/tlslistener.go:123-212 | in every run a connection is delivered to a call exactly when that call returned it; only one that began with 0x16 is delivered and only one that began otherwise is answered; at most one error is sent; closed is reported only when it is so |
| `TlsListener.StartHolds` | cmd/hoservad/tlslistener.go:78-92 | a new listener satisfies the invariant |
| `TlsListener.EndsAreFinal` | cmd/hoservad/tlslistener.go:179-195 | no accepted connection is forgotten, and none ends twice |
| `TlsListener.ClosedForGood` | cmd/hoservad/tlslistener.go:167-170 | in every run with a close, done is closed and stays so |
| `TlsListener.ErrorNeverBlocks` | cmd/hoservad/tlslistener.go:123-160 | sending the loop's error never blocks |
| `TlsListener.LoopEndsOnlyForGood` | cmd/hoservad/tlslistener.go:123-160 | a temporary error never ends the loop |
| `TlsListener.BackoffDoubles` | cmd/hoservad/tlslistener.go:123-160 | the wait after the k-th temporary error in a row is 5 ms doubled k-1 times, at most a second |
| `TlsListener.NobodyStaysBlocked` | cmd/hoservad/tlslistener.go:167-212 | with done closed and nothing able to move, where the inner listener need fail only once closed, every connection has ended, every Accept returned and the loop is over |
| `TlsListener.InternalStepsRunOut` | cmd/hoservad/tlslistener.go:123-212 | the listener's own steps strictly decrease a measure, so that state is reached |
| `TlsListener.PrefixConn.Read` | cmd/hoservad/tlslistener.go:223-246 | reads deliver the stream unchanged, the peeked byte first |
| `SourceFilter.Tracker.Set` | cmd/hoservad/sourcefilter_listener.go:38-61 | turning the filter on takes out exactly the refused connections |
| `SourceFilter.Tracker.Admit` | cmd/hoservad/sourcefilter_listener.go:67-85 | a connection is tracked if and only if its source is allowed now |
| `SourceFilter.WhoIsLetIn` | cmd/hoservad/sourcefilter_listener.go:38-80 | a LAN source always, another source while the filter is off, one without a TCP address never; a sweep takes out exactly the others |
| `SourceFilter.TakeKeepsInv` | cmd/hoservad/sourcefilter_listener.go:38-106 | every step keeps tracked connections allowed and the others owned by a sweep or close |
| `SourceFilter.NoneAdmittedBehindASweep` | cmd/hoservad/sourcefilter_listener.go:38-106 | in every interleaving, with the filter on, an open handed-out connection from a refused source is already being closed |
| `SourceFilter.SweptClean` | cmd/hoservad/sourcefilter_listener.go:38-61 | once sweeps and closes are through, the server holds none |
| `SourceFilter.CheckIsLookThenTrack` | cmd/hoservad/sourcefilter_listener.go:67-85 | with nothing in between, looking and tracking are the check |
| `SourceFilter.UnlockedCheckLeaks` | cmd/hoservad/sourcefilter_listener.go:67-85 | with a SetAllowAll between its two halves the check lets one through behind the sweep |
| `MigrationLog.PhasesAreDisjoint` | cmd/mockapi/migrate.go:108-122 | a migration is pending, half-way or done, never two of these |
| `MigrationLog.FormattingFollowsAPassedVerify` | cmd/mockapi/migrate.go:683-725 | every point of no return follows a passing verify of the latest import, with no import or undo since; it is never the first verify; report and roles are those imported |
| `MigrationLog.PastThePoint` | cmd/mockapi/migrate.go:683-725 | the disks are formatted at most once in a run, and nothing is imported, verified or undone after it |
| `MigrationLog.FinishedForGood` | cmd/mockapi/migrate.go:730-744 | once finished, it is never imported, undone or unfinished again |
| `MigrationLog.WhileUnfinished` | cmd/mockapi/migrate.go:108-122 | while unfinished the report does not change and only migration, service and VM jobs are queued |
| `MigrationLog.ConfirmedWasChecked` | cmd/mockapi/migrate.go:1532-1612 | every confirmed stack had a check after its latest start, the latest of which passed or was accepted |
| `MigrationLog.OneAtATime` | cmd/mockapi/migrate.go:1440-1490 | between the starts of two stacks the first was confirmed, or deleted and made anew |
| `MigrationLog.StacksComeAfterParity` | cmd/mockapi/migrate.go:1188-1199 | no stack is made, so none is started, before a point of no return |
| `MigratedStacks.Placed` | cmd/mockapi/migrate.go:1174-1227 | an event about one stack changes that stack's record and nothing else the log says |
| `MigratedStacks.MayBegin` | cmd/mockapi/migrate.go:1471-1478 | with no other record started, starting an unconfirmed one is allowed by the log |
| `Migration.Handler.Queue` | cmd/mockapi/appdata.go:136-154 | which jobs the shared guard lets through, in maintenance and while a migration is unfinished |
| `Migration.Handler.SubmitParity` | cmd/mockapi/pool.go:422-441 | parity jobs are refused in maintenance and while a migration is unfinished |
| `Migration.Handler.Scan` | cmd/mockapi/migrate.go:438-474 | accepted if and only if the upload reads, outside maintenance and an unfinished migration; then the report is the scan's, which depends on there having been one before |
| `Migration.Handler.DeviceScan` | cmd/mockapi/migrate.go:476-509 | the same for the stick, and never after an internal boot |
| `Migration.Handler.Forget` | cmd/mockapi/migrate.go:890-898 | refused if and only if the migration is unfinished |
| `Migration.Handler.Import` | cmd/mockapi/migrate.go:1118-1172 | accepted exactly when confirmed over an importable report and mapping with no array but a pending import's; forgets the verify |
| `Migration.Handler.Undo` | cmd/mockapi/migrate.go:868-888 | accepted exactly for a pending import; forgets the verify |
| `Migration.Handler.Verify` | cmd/mockapi/migrate.go:564-606 | accepted exactly for a pending import; the first run fails and every later one passes |
| `Migration.Handler.InitializeParity` | cmd/mockapi/migrate.go:683-725 | accepted exactly with a passing latest verify and the confirmation of the plan for the imported roles, never one with a cache on a mirrored boot pool, or the finishing one half-way; success queues one sync |
| `Migration.Handler.FinishParity` | cmd/mockapi/migrate.go:730-744 | finishes with the finishing confirmation alone and queues one sync |
| `Migration.Handler.EndParity` | cmd/mockapi/migrate.go:750-768 | a parity job succeeds if and only if its sync could be queued |
| `ContainerFlow.ArrangeSorts` | cmd/mockapi/migrate.go:1388-1391 | the plan is a permutation, autostart positions first and ascending, equal positions as selected |
| `ContainerFlow.Flow.IndexOf` | cmd/mockapi/migrate.go:1212-1219 | the first record that matches, or none |
| `ContainerFlow.Flow.Select` | cmd/mockapi/migrate.go:1361-1381 | a template is chosen if and only if it exists, its stack can have its name and its warnings are acknowledged |
| `ContainerFlow.Flow.PlanStacks` | cmd/mockapi/migrate.go:1333-1387 | a selection is planned if and only if it is not empty, repeats nothing, every item can be made and no two share a stack |
| `ContainerFlow.Flow.MakeOne` | cmd/mockapi/migrate.go:1393-1432 | a stack is made if and only if its name is free and usable; its record takes the place of its source's earlier one, or the next |
| `ContainerFlow.Flow.Create` | cmd/mockapi/migrate.go:1329-1434 | refused before anything is made; else one result a selection in order, fresh if and only if the stack was not there and can be had, already there if and only if its record and stack were, and exactly the fresh ones are added |
| `ContainerFlow.Flow.FittingIsThere` | cmd/mockapi/migrate.go:1393-1432 | every template that fits ends with its stack, with its paths |
| `ContainerFlow.Flow.StaysThere` | cmd/mockapi/migrate.go:1393-1432 | a stack that was there stays as it was |
| `ContainerFlow.Flow.NewOneFits` | cmd/mockapi/migrate.go:1393-1432 | a stack that is new is of a selected template that fitted |
| `ContainerFlow.Flow.HasNewRecord` | cmd/mockapi/migrate.go:1422-1430 | a source of which a stack is made has a record that is created and unchecked |
| `ContainerFlow.Flow.KeepsRecord` | cmd/mockapi/migrate.go:1422-1430 | a source of which none is made keeps its record |
| `ContainerFlow.Flow.Start` | cmd/mockapi/migrate.go:1440-1490 | accepted if and only if the stack is migrated, unconfirmed and there, the array runs and no other stack is started; then it is started and unchecked |
| `ContainerFlow.Flow.Check` | cmd/mockapi/migrate.go:1532-1577 | the result is whether every mounted path is sound, recorded exactly for a started stack |
| `ContainerFlow.Flow.Confirm` | cmd/mockapi/migrate.go:1582-1612 | accepted if and only if confirmed already, or started and checked with a check that passed or is accepted |
| `ContainerFlow.Flow.Serve` | cmd/mockapi/migrate.go:438-1612 | over every run of requests the log is lawful and at most one migrated stack is started |
| `StackRace.TakeKeepsInv` | cmd/mockapi/migrate.go:1329-1612 | every section under a lock keeps one started stack at most |
| `StackRace.EmptyHolds` | cmd/mockapi/migrate.go:97-101 | before any stack is made the invariant holds |
| `StackRace.EveryInterleavingStartsOne` | cmd/mockapi/migrate.go:1329-1612 | in every interleaving at most one stack is started and every confirmed one had a check recorded after its latest start |
| `StackRace.TimelyChecksAreCurrent` | cmd/mockapi/migrate.go:1532-1577 | if no start falls inside a check, what was confirmed was looked at after the latest start |
| `StackRace.UntimelyCheckMisleads` | cmd/mockapi/migrate.go:1569-1575 | if one does, a stack can be confirmed on a look from before it |
| `StackRace.CheckCanPrecedeTheStart` | cmd/mockapi/migrate.go:1532-1577 | such a run exists |
| `ImportMapping.Cut` | cmd/hoserva/migrate.go:873-877 | the text around the first separator, if there is one |
| `ImportMapping.CutIsUnique` | cmd/hoserva/migrate.go:873-877 | no other split has the separator first there |
| `ImportMapping.SerialRole` | cmd/hoserva/migrate.go:873-887 | a serial, an equals sign and one of the four role texts is that disk and that role |
| `ImportMapping.WwnRole` | cmd/hoserva/migrate.go:873-887 | the same for a WWN after its prefix |
| `ImportMapping.NoRole` | cmd/hoserva/migrate.go:873-887 | anything else is refused |
| `ImportMapping.PartitionEntry` | cmd/hoserva/migrate.go:898-904 | a by-id name, a colon and a partition UUID is that cache partition, and both are needed |
| `ImportMapping.FindRowKey` | cmd/hoserva/migrate.go:862-872 | the key of the first table row a name means, or the name itself |
| `ImportMapping.NamedInAnyCase` | cmd/hoserva/migrate.go:862-872 | a WWN in any case, or the serial, takes the key of the disk that has it |
| `ImportMapping.Set` | cmd/hoserva/migrate.go:831-836 | a key keeps its first place and takes the last role |
| `ImportMapping.ProposedRoles` | cmd/hoserva/migrate.go:837-857 | the proposals that are sent: not ignored, not refused, not a boot disk as cache |
| `ImportMapping.Override` | cmd/hoserva/migrate.go:873-887 | each --role sets the key of the row it names; the first that does not parse is an error |
| `ImportMapping.CachePartitions` | cmd/hoserva/migrate.go:898-904 | one cache entry a partition; the first that does not parse is an error |
| `ImportMapping.ImportMapping` | cmd/hoserva/migrate.go:821-909 | succeeds if and only if every entry parses and there is something to send; then the entries are the settings in first-seen order with their last roles, then the partitions |
| `ImportMapping.FirstSeenIsExact` | cmd/hoserva/migrate.go:831-836 | the keys sent are exactly those set, each once |
| `ImportMapping.FirstSeenInOrder` | cmd/hoserva/migrate.go:831-836 | entries come in the order they were first set |
| `ImportMapping.OneEntryPerDisk` | cmd/hoserva/migrate.go:858-887 | over distinct rows at most one entry names a disk, one does if and only if the user or the scan gives it a role, and it has the last --role naming it, else the proposal |
| `ImportMapping.NamedOnceExactlyByOneKey` | cmd/hoserva/migrate.go:837-897 | for every table at most one entry names a row if and only if all set rows that answer to it go by one key |
| `ImportMapping.TwinRowsGetTwoEntries` | cmd/hoserva/migrate.go:849-854 | rows whose WWNs differ only in case get two entries for each disk |
| `ImportMapping.SharedSerialGetsTwoEntries` | cmd/hoserva/migrate.go:849-854 | two rows with one serial, only one of them with a WWN, get two entries for that disk |
| `SpaceAlert.Runner.TickNearMinFreeSpace` | cmd/hoservad/space_alert.go:96-113 | every disk is seen once a tick, and the remembered set is exactly the disks near and alerted |
| `SpaceAlert.Runner.TickRebalanceSuggestion` | cmd/hoservad/space_alert.go:115-135 | what is remembered is the suggestion delivered last, forgotten by a tick without one |
| `SpaceAlert.Runner.Run` | cmd/hoservad/space_alert.go:62-94 | both hold over every run of ticks and publish failures |
| `SpaceAlert.OneAttemptUntilDelivered` | cmd/hoservad/space_alert.go:96-113 | a sight tries to alert if and only if the disk is near and nothing was delivered in this stretch |
| `SpaceAlert.DeliveredOncePerStretch` | cmd/hoservad/space_alert.go:96-113 | between two delivered alerts the disk was seen not near |
| `SpaceAlert.SentUnlessDeliveredLast` | cmd/hoservad/space_alert.go:115-135 | a suggestion is published if and only if it is not the one delivered last with no empty tick since |

## Left out

- `unicode.IsPrint` is a parameter with its ASCII facts; its tables beyond ASCII are not part of this model.
- A reader that returns no bytes and no error for ever: each empty read of the model is one of a finite number.
- X.509, ECDSA and TLS: a certificate and key either match or do not. File modes are not modelled; the permission check is a step that may fail.
- TlsRuns.UnsyncedRunsStayLoadable: an operation that failed may go on without a crash only from a settled disk, because from another one the promise is false, as the two lemmas on a failed rollback and a failed load show.
- `systemctl`'s not-found, masked and disabled answers are a start that may be skipped; unit file contents are not modelled, so neither is their agreement with the remembered units.
- The expected filesystem identities that `reconcileMountFailures` reads are the set of slots it could confirm.
- `guardMountpoints`, wall-clock timeouts and the containers service of `ArraySequence`; jobs and share changes that a stop drains are one step that may fail.
- `regenerateArrayMounts` and `newArraySequence`'s mount building: a step that may fail, and the lists it yields.
- The address ranges of the source filter: a source is allowed, refused or unknown.
- The plain-HTTP answer of the TLS listener, its deadlines and the connection's TLS handshake.
- The migration scenarios other than migration-pending, the seeded shares and accounts, the post-migration checklist, report text and the API's conversions. The embedded verify results are taken to decode.
- The rules of `PlanFromReview` and `CheckAdoptionLayout`: a mapping resolves to a plan or does not. That a stack's name is a function of its source is how templates are looked up.
- Jobs that handlers put into the mock's job table without either shared guard, and their later states.
- `strings.EqualFold` compares characters by a folding parameter, for text that is valid UTF-8.
- Space computation and the choice of a rebalance suggestion: what a tick sees is an input.
- The command line's other commands, HTTP serving, the remaining mock handlers, `history.go`, `reload.go`, `schedule.go`, `mover.go` and `rebalance.go`: thin, or resting on other packages.
