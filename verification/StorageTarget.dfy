/** cmd/hoservad/storagetarget.go: storageTargetSync, which reflects the
    readiness of the array into the runtime flag that systemd's gate unit
    tests, and opens and closes that gate with the array. Each method holds the
    source's mutex for its whole body, so methods do not interleave. */
module StorageTarget {
  import opened Wrappers
  import opened StorageHost

  /** The parts of job.ArraySequence a call reads: the gate's verdict, the
      scheduler's maintenance mode, and the mountpoints. */
  datatype ArraySeq = ArraySeq(gateReady: bool, maintenance: bool, catchAll: Option<string>,
                               shareMounts: seq<string>, disks: seq<string>)

  datatype Outcome = Done | Refused | Failed

  /** What is mounted for the pool: the catch-all, then every share mount. */
  function PoolMounts(arr: ArraySeq): (ws: seq<string>) {
    if arr.catchAll.Some? then [arr.catchAll.value] + arr.shareMounts else []
  }

  /** All the mounts that bring an array up, in order. */
  ghost function MountsOf(arr: ArraySeq): (actions: seq<Action>) {
    Mounts(arr.disks, true) + Mounts(PoolMounts(arr), false)
  }

  ghost predicate AllMounted(arr: ArraySeq, mounted: set<string>) {
    && (forall d :: d in arr.disks ==> d in mounted)
    && (arr.catchAll.Some? ==> arr.catchAll.value in mounted && forall w :: w in arr.shareMounts ==> w in mounted)
  }

  /** The array disk whose mount was the last thing done, and failed. */
  ghost function FailedDisk(before: seq<Op>, after: seq<Op>): (where: set<string>) {
    if |before| < |after| && after[|after| - 1].what.Mount? && after[|after| - 1].what.disk && !after[|after| - 1].ok
    then {after[|after| - 1].what.where} else {}
  }

  /** Broken off where something failed, or where the pool was not found mounted. */
  ghost predicate StoppedShort(before: seq<Op>, after: seq<Op>) {
    Broke(before, after) && (!after[|after| - 1].ok || after[|after| - 1].what.Mount?)
  }

  /** What a Close that completes does, starts from outside aside. */
  ghost function CloseActions(persist: bool): (actions: seq<Action>) {
    (if persist then [StoppedSet] else []) + [Action.Stop(Docker), Action.Stop(Libvirt), FlagCleared, GateStop]
  }

  /** What a Startup that completes does. */
  ghost function StartupActions(arr: ArraySeq): (actions: seq<Action>) {
    SettleActions(arr) +
    if arr.gateReady && !arr.maintenance then MountsOf(arr) + [FlagSet] else []
  }

  ghost function SettleActions(arr: ArraySeq): (actions: seq<Action>) {
    [FlagCleared, if arr.maintenance then StoppedSet else StoppedCleared, Task(RegenerateMounts), UnitsWritten]
  }

  /** A recorded slot is dropped only when its own filesystem is confirmed mounted
      at its mountpoint, and none is when the expected ones cannot be read. */
  function Reconciled(failed: set<string>, arr: ArraySeq, confirmed: set<string>, storeRead: bool): (r: set<string>) {
    if storeRead then set w | w in failed && !(w in arr.disks && w in confirmed) else failed
  }

  class StorageTargetSync {
    const host: Host
    const unitName: string -> string
    var applied: bool
    var ready: bool
    var units: seq<string>
    var mountFailed: set<string>

    constructor (host: Host, unitName: string -> string)
      ensures this.host == host && this.unitName == unitName
      ensures !applied && !ready && units == [] && mountFailed == {}
    {
      this.host, this.unitName := host, unitName;
      applied, ready, units, mountFailed := false, false, [], {};
    }

    /** While the flag is there, this process set it over a confirmed pool and
        for a reason it may trust, and remembers being ready; the one exception
        is a flag file whose creation reported an error. */
    ghost predicate Inv()
      reads this, host
    {
      && (ready ==> applied)
      && (host.sd.flag ==> (ready || host.torn) && host.origin.Some? && Trusted(host.origin.value))
    }

    /** diskMountUnitNames. */
    function UnitNames(seq_: ArraySeq): seq<string> {
      seq(|seq_.disks|, i requires 0 <= i < |seq_.disks| => unitName(seq_.disks[i]))
    }

    /** Whether a fault-free mount attempt would find the catch-all mounted. */
    ghost predicate PoolComesUp(seq_: ArraySeq)
      reads host
    {
      seq_.catchAll.None? || seq_.catchAll.value in host.mounted || !host.stopped
    }

    /** reconcileMountFailures. */
    method ReconcileMountFailures(seq_: ArraySeq, confirmed: set<string>, storeRead: bool)
      modifies this`mountFailed
      ensures mountFailed == Reconciled(old(mountFailed), seq_, confirmed, storeRead)
    {
      if mountFailed == {} || !storeRead {
        return;
      }
      for i := 0 to |seq_.disks|
        invariant mountFailed == set w | w in old(mountFailed) && !(w in seq_.disks[..i] && w in confirmed)
      {
        var where := seq_.disks[i];
        if where in mountFailed && where in confirmed {
          mountFailed := mountFailed - {where};
        }
      }
      assert seq_.disks[..|seq_.disks|] == seq_.disks;
    }

    /** mountArrayDisks: stops at the first disk that fails and names it. */
    method MountArrayDisks(seq_: ArraySeq) returns (failed: Option<string>)
      modifies host`mounted, host`mounts, host`trace
      ensures host.calm ==> failed == None
      ensures failed.Some? ==> failed.value in seq_.disks && FailedDisk(old(host.trace), host.trace) == {failed.value}
      ensures failed.Some? ==> Broke(old(host.trace), host.trace) && !host.trace[|host.trace| - 1].ok
      ensures failed == None ==> Did(old(host.trace), host.trace, Mounts(seq_.disks, true))
      ensures old(host.mounted) <= host.mounted && (host.stopped ==> host.mounted == old(host.mounted))
      ensures failed == None && !host.stopped ==> forall d :: d in seq_.disks ==> d in host.mounted
    {
      var made := MountEach(seq_.disks, true);
      if made < |seq_.disks| {
        return Some(seq_.disks[made]);
      }
      return None;
    }

    /** A loop of Mount calls up to the first that fails. */
    method MountEach(wheres: seq<string>, disk: bool) returns (made: nat)
      modifies host`mounted, host`mounts, host`trace
      ensures made <= |wheres| && (host.calm ==> made == |wheres|)
      ensures made == |wheres| ==> Did(old(host.trace), host.trace, Mounts(wheres, disk))
      ensures made < |wheres| ==>
        && Broke(old(host.trace), host.trace)
        && host.trace[|host.trace| - 1] == Op(Action.Mount(wheres[made], disk), false)
      ensures old(host.mounted) <= host.mounted && (host.stopped ==> host.mounted == old(host.mounted))
      ensures made == |wheres| && !host.stopped ==> forall w :: w in wheres ==> w in host.mounted
    {
      made := 0;
      while made < |wheres|
        invariant made <= |wheres|
        invariant Did(old(host.trace), host.trace, Mounts(wheres[..made], disk))
        invariant old(host.mounted) <= host.mounted && (host.stopped ==> host.mounted == old(host.mounted))
        invariant !host.stopped ==> forall w :: w in wheres[..made] ==> w in host.mounted
      {
        hide Did, Broke, Mounts;
        Goes(old(host.trace), host.trace, Mounts(wheres[..made], disk), Action.Mount(wheres[made], disk));
        MountsNext(wheres, disk, made);
        var ok := host.Mount(wheres[made], disk);
        if !ok {
          return;
        }
        made := made + 1;
      }
      assert wheres[..made] == wheres;
    }

    lemma MountsNext(wheres: seq<string>, disk: bool, n: nat)
      requires n < |wheres|
      ensures Mounts(wheres[..n + 1], disk) == Mounts(wheres[..n], disk) + [Action.Mount(wheres[n], disk)]
    {
    }

    /** mountPool: the catch-all, then every share mount. */
    method MountPool(seq_: ArraySeq) returns (ok: bool)
      requires seq_.catchAll.Some?
      modifies host`mounted, host`mounts, host`trace
      ensures host.calm ==> ok
      ensures ok ==> Did(old(host.trace), host.trace, Mounts(PoolMounts(seq_), false))
      ensures !ok ==>
        && Broke(old(host.trace), host.trace) && FailedDisk(old(host.trace), host.trace) == {}
        && !host.trace[|host.trace| - 1].ok
      ensures old(host.mounted) <= host.mounted && (host.stopped ==> host.mounted == old(host.mounted))
      ensures ok && !host.stopped ==> forall w :: w in PoolMounts(seq_) ==> w in host.mounted
    {
      Goes(host.trace, host.trace, [], Action.Mount(seq_.catchAll.value, false));
      ok := host.Mount(seq_.catchAll.value, false);
      if !ok {
        return;
      }
      ghost var up, did := host.mounted, host.trace;
      var made := MountEach(seq_.shareMounts, false);
      ok := made == |seq_.shareMounts|;
      ghost var first, rest := [Action.Mount(seq_.catchAll.value, false)], Mounts(seq_.shareMounts, false);
      GoesFar(old(host.trace), did, first, host.trace, rest);
      assert Mounts(PoolMounts(seq_), false) == first + rest;
    }

    /** confirmPoolMounted. */
    method ConfirmPoolMounted(seq_: ArraySeq) returns (ok: bool)
      ensures ok ==> seq_.catchAll.None? || seq_.catchAll.value in host.mounted
      ensures host.calm ==> ok == (seq_.catchAll.None? || seq_.catchAll.value in host.mounted)
    {
      if seq_.catchAll.None? {
        return true;
      }
      ok := host.Mounted(seq_.catchAll.value);
    }

    /** mountArrayAndPool, with mountAndConfirmPool inside it: success has every
        mount of the array attempted in order and found up, and a disk that does
        not mount is recorded. */
    method MountArrayAndPool(seq_: ArraySeq) returns (ok: bool)
      modifies host`mounted, host`mounts, host`trace, this`mountFailed
      ensures ok ==> seq_.catchAll.None? || seq_.catchAll.value in host.mounted
      ensures ok && !host.stopped ==> AllMounted(seq_, host.mounted)
      ensures ok ==> Did(old(host.trace), host.trace, MountsOf(seq_))
      ensures !ok ==> StoppedShort(old(host.trace), host.trace)
      ensures host.calm ==> ok == old(PoolComesUp(seq_))
      ensures old(host.mounted) <= host.mounted && (host.stopped ==> host.mounted == old(host.mounted))
      ensures mountFailed == old(mountFailed) + FailedDisk(old(host.trace), host.trace)
      ensures FailedDisk(old(host.trace), host.trace) <= set d | d in seq_.disks
      ensures ok ==> mountFailed == old(mountFailed)
    {
      var failed := MountArrayDisks(seq_);
      if failed.Some? {
        mountFailed := mountFailed + {failed.value};
        return false;
      }
      if seq_.catchAll.None? {
        assert Mounts(seq_.disks, true) == MountsOf(seq_);
        NoFailedDisk(old(host.trace), host.trace, MountsOf(seq_));
        return true;
      }
      ghost var did := host.trace;
      ok := MountPool(seq_);
      GoesFar(old(host.trace), did, Mounts(seq_.disks, true), host.trace, Mounts(PoolMounts(seq_), false));
      if ok {
        NoFailedDisk(old(host.trace), host.trace, MountsOf(seq_));
        PoolIsLast(seq_, old(host.trace), host.trace);
        ok := ConfirmPoolMounted(seq_);
      }
    }

    lemma NoFailedDisk(before: seq<Op>, after: seq<Op>, actions: seq<Action>)
      requires Did(before, after, actions)
      ensures FailedDisk(before, after) == {}
    {
    }

    lemma PoolIsLast(seq_: ArraySeq, before: seq<Op>, after: seq<Op>)
      requires seq_.catchAll.Some? && Did(before, after, MountsOf(seq_))
      ensures StoppedShort(before, after)
    {
    }

    /** startDependents: each service on its own, failures only logged. */
    method StartDependents()
      modifies host`sd, host`rounds, host`trace
      ensures host.sd.flag == old(host.sd.flag)
      ensures host.rounds == old(host.rounds) + 1
      ensures Did(old(host.trace), host.trace, Starts([Smbd, Nfs, Docker, Libvirt]))
    {
      for i := 0 to |DEPENDENTS|
        invariant host.sd.flag == old(host.sd.flag) && host.rounds == old(host.rounds)
        invariant Did(old(host.trace), host.trace, Starts(DEPENDENTS[..i]))
      {
        Goes(old(host.trace), host.trace, Starts(DEPENDENTS[..i]), Action.Start(DEPENDENTS[i]));
        assert Starts(DEPENDENTS[..i + 1]) == Starts(DEPENDENTS[..i]) + [Action.Start(DEPENDENTS[i])];
        host.StartService(DEPENDENTS[i]);
      }
      assert DEPENDENTS[..|DEPENDENTS|] == [Smbd, Nfs, Docker, Libvirt];
      host.rounds := host.rounds + 1;
    }

    lemma NamesOf(arr: ArraySeq)
      ensures var names := UnitNames(arr);
        |names| == |arr.disks| && forall i :: 0 <= i < |names| ==> names[i] == unitName(arr.disks[i])
    {
    }

    /** The unit write of an Update, if there is one. */
    ghost function UnitActions(arr: ArraySeq): (actions: seq<Action>)
      reads this
    {
      if !applied || units != UnitNames(arr) then [UnitsWritten] else []
    }

    /** What an Update that completes does: the units if they differ, then the
        transition if readiness differs. */
    ghost function UpdateActions(arr: ArraySeq): (actions: seq<Action>)
      reads this
    {
      UnitActions(arr) + if applied && ready == arr.gateReady then [] else TurnActions(arr)
    }

    ghost function TurnActions(arr: ArraySeq): (actions: seq<Action>) {
      if arr.gateReady then MountsOf(arr) + [FlagSet] + Starts([Smbd, Nfs, Docker, Libvirt]) else [FlagCleared]
    }

    /** updateTransition, behind Update and UpdateOrError. */
    method Update(arr: Option<ArraySeq>, confirmed: set<string>, storeRead: bool) returns (r: Outcome)
      modifies this, host
      ensures old(Inv()) ==> Inv()
      ensures host.stopped == old(host.stopped)
      // Edge-triggered: dependents start exactly when ready turns true.
      ensures old(Inv()) ==> host.rounds == old(host.rounds) + if !old(ready) && ready then 1 else 0
      // Nothing to reflect: nothing is written, mounted or started.
      ensures arr.None? || (old(applied) && old(units) == UnitNames(arr.value) && old(ready) == arr.value.gateReady) ==>
                && r == Done && ready == old(ready) && units == old(units) && applied == old(applied)
                && host.sd == old(host.sd) && host.mounted == old(host.mounted)
                && host.unitWrites == old(host.unitWrites) && host.mounts == old(host.mounts)
      // A transition that was refused or failed is still to be made.
      ensures r != Done ==> ready == old(ready)
      ensures r == Refused ==> arr.Some? && arr.value.gateReady && arr.value.maintenance
      ensures r == Refused ==> host.mounts == old(host.mounts) && (old(Inv()) ==> !ready)
      // Self-correcting.
      ensures host.calm && arr.Some? && !arr.value.maintenance && old(Inv()) && old(ready == host.sd.flag) ==>
                && ready == host.sd.flag
                && host.sd.flag == (arr.value.gateReady && (old(ready) || old(PoolComesUp(arr.value))))
      // What becomes of a flag that ready does not agree with. A gate that is not
      // ready closes exactly the flag that this process remembers setting, or
      // any flag in its first call; one left by a creation that was reported as
      // failed stays. A ready gate sets the flag exactly when ready was false.
      ensures host.calm && arr.Some? && old(Inv()) && !arr.value.gateReady ==>
                (host.sd.flag <==> old(applied && host.sd.flag && !ready))
      ensures host.calm && arr.Some? && !arr.value.maintenance && old(Inv()) && arr.value.gateReady ==>
                (host.sd.flag <==> old(host.sd.flag) || (!old(ready) && old(PoolComesUp(arr.value))))
      // All that was done, in order.
      ensures arr.None? ==> host.trace == old(host.trace) && mountFailed == old(mountFailed)
      ensures arr.Some? && r == Done ==> Did(old(host.trace), host.trace, old(UpdateActions(arr.value)))
      ensures r == Refused ==> Did(old(host.trace), host.trace, old(UnitActions(arr.value)))
      ensures r == Failed ==> StoppedShort(old(host.trace), host.trace)
      ensures arr.Some? && r == Done ==>
        |units| == |arr.value.disks| && forall i :: 0 <= i < |units| ==> units[i] == unitName(arr.value.disks[i])
      // The gate opens over the whole array, and a disk that does not mount is recorded.
      ensures arr.Some? && !old(ready) && ready && !host.stopped ==> AllMounted(arr.value, host.mounted)
      ensures arr.Some? ==>
        mountFailed ==
        Reconciled(old(mountFailed), arr.value, confirmed, storeRead) + FailedDisk(old(host.trace), host.trace)
    {
      if arr.None? {
        return Done;
      }
      var seq_ := arr.value;
      ReconcileMountFailures(seq_, confirmed, storeRead);
      hide Did, StoppedShort, FailedDisk, MountsOf, Starts, AllMounted, PoolComesUp, Reconciled, Trusted;
      NamesOf(seq_);
      var readyChanged := !applied || ready != seq_.gateReady;
      ghost var t, did := host.trace, UnitActions(seq_);
      assert did + [] == did;
      var ok := WriteChangedUnits(seq_);
      if !ok {
        return Failed;
      }
      if !readyChanged {
        return Done;
      }
      r := Turn(seq_, t, did);
    }

    /** The units are written if they differ from those written last. */
    method WriteChangedUnits(seq_: ArraySeq) returns (ok: bool)
      modifies this`units, this`applied, host`unitWrites, host`trace
      ensures ok ==> units == UnitNames(seq_) && applied && Did(old(host.trace), host.trace, old(UnitActions(seq_)))
      ensures !ok ==> units == old(units) && applied == old(applied) && StoppedShort(old(host.trace), host.trace)
      ensures FailedDisk(old(host.trace), host.trace) == {}
      ensures old(applied && units == UnitNames(seq_)) ==>
        ok && host.unitWrites == old(host.unitWrites) && host.trace == old(host.trace)
      ensures host.calm ==> ok
    {
      hide Did, StoppedShort, FailedDisk, UnitNames;
      NoOp(host.trace);
      ok := true;
      if !applied || units != UnitNames(seq_) {
        Next(host.trace, host.trace, [], UnitsWritten);
        assert [] + [UnitsWritten] == UnitActions(seq_);
        ok := host.WriteUnits();
        if ok {
          units, applied := UnitNames(seq_), true;
        }
      }
    }

    /** The transition, when readiness differs. */
    method Turn(seq_: ArraySeq, ghost before: seq<Op>, ghost did: seq<Action>) returns (r: Outcome)
      requires Did(before, host.trace, did) && FailedDisk(before, host.trace) == {}
      modifies this`ready, this`applied, this`mountFailed, host
      ensures old(Inv()) ==> Inv()
      ensures host.stopped == old(host.stopped) && host.unitWrites == old(host.unitWrites)
      ensures r == Refused <==> seq_.gateReady && seq_.maintenance
      ensures r == Refused ==> host.trace == old(host.trace) && host.mounts == old(host.mounts)
      ensures r == Refused ==> host.sd == old(host.sd)
      ensures r == Done ==> ready == host.sd.flag == seq_.gateReady && applied
      ensures r == Done ==> Did(before, host.trace, did + TurnActions(seq_))
      ensures r == Done && ready && !host.stopped ==> AllMounted(seq_, host.mounted)
      ensures r == Failed ==> StoppedShort(before, host.trace)
      ensures r != Done ==> ready == old(ready) && applied == old(applied)
      ensures host.rounds == old(host.rounds) + if r == Done && seq_.gateReady then 1 else 0
      ensures mountFailed == old(mountFailed) + FailedDisk(before, host.trace)
      ensures host.calm && r == Failed ==> seq_.gateReady && host.sd == old(host.sd) && !old(PoolComesUp(seq_))
      ensures host.calm && r == Done && seq_.gateReady ==> old(PoolComesUp(seq_))
    {
      hide Did, StoppedShort, FailedDisk, MountsOf, Starts, AllMounted, PoolComesUp, Trusted;
      if !seq_.gateReady {
        r := CloseGate(before, did);
      } else if seq_.maintenance {
        r := Refused;
      } else {
        r := OpenGate(seq_, before, did);
      }
    }

    /** The transition to not ready: the flag is cleared. */
    method CloseGate(ghost before: seq<Op>, ghost did: seq<Action>) returns (r: Outcome)
      requires Did(before, host.trace, did)
      modifies this`ready, this`applied, host`sd, host`torn, host`trace
      ensures r == Done ==> !ready && applied && host.sd == old(host.sd).(flag := false) && !host.torn
      ensures r == Done ==> Did(before, host.trace, did + [FlagCleared])
      ensures r != Done ==>
        && r == Failed && ready == old(ready) && applied == old(applied)
        && host.sd == old(host.sd) && host.torn == old(host.torn) && StoppedShort(before, host.trace)
      ensures FailedDisk(before, host.trace) == {}
      ensures host.calm ==> r == Done
    {
      Next(before, host.trace, did, FlagCleared);
      var ok := host.ClearFlag();
      if !ok {
        return Failed;
      }
      ready, applied := false, true;
      return Done;
    }

    /** The transition to ready: everything is mounted, the flag set and the
        dependents asked to start. */
    method OpenGate(seq_: ArraySeq, ghost before: seq<Op>, ghost did: seq<Action>) returns (r: Outcome)
      requires seq_.gateReady && !seq_.maintenance && Did(before, host.trace, did)
      modifies this`ready, this`applied, this`mountFailed, host
      ensures old(Inv()) ==> Inv()
      ensures host.stopped == old(host.stopped) && host.unitWrites == old(host.unitWrites)
      ensures r == Done || r == Failed
      ensures r == Done ==>
        && ready && applied && host.sd.flag && host.rounds == old(host.rounds) + 1
        && Did(before, host.trace, did + (MountsOf(seq_) + [FlagSet] + Starts([Smbd, Nfs, Docker, Libvirt])))
      ensures r == Done && !host.stopped ==> AllMounted(seq_, host.mounted)
      ensures r == Failed ==> ready == old(ready) && applied == old(applied) && host.rounds == old(host.rounds)
      ensures r == Failed ==> StoppedShort(before, host.trace)
      ensures r == Failed && host.calm ==> host.sd == old(host.sd)
      ensures mountFailed == old(mountFailed) + FailedDisk(before, host.trace)
      ensures host.calm ==> (r == Done <==> old(PoolComesUp(seq_)))
    {
      hide Did, MountsOf, Starts, AllMounted, FailedDisk, StoppedShort, Broke;
      ghost var t0 := host.trace;
      var ok := MountArrayAndPool(seq_);
      ghost var t1, mounts := host.trace, MountsOf(seq_);
      if !ok {
        ShortOf(before, t0, did, t1);
        return Failed;
      }
      GoesFar(before, t0, did, t1, mounts);
      Next(before, t1, did + mounts, FlagSet);
      ok := host.SetFlag(seq_.catchAll, seq_.gateReady, seq_.maintenance, false);
      ghost var t2 := host.trace;
      if !ok {
        return Failed;
      }
      StartDependents();
      GoesFar(before, t2, did + mounts + [FlagSet], host.trace, Starts([Smbd, Nfs, Docker, Libvirt]));
      assert did + mounts + [FlagSet] + Starts([Smbd, Nfs, Docker, Libvirt]) ==
             did + (mounts + [FlagSet] + Starts([Smbd, Nfs, Docker, Libvirt]));
      NoFailedDisk(before, host.trace, did + (mounts + [FlagSet] + Starts([Smbd, Nfs, Docker, Libvirt])));
      ready, applied := true, true;
      return Done;
    }

    lemma ShortOf(before: seq<Op>, now: seq<Op>, did: seq<Action>, after: seq<Op>)
      requires Did(before, now, did) && StoppedShort(now, after)
      ensures StoppedShort(before, after) && FailedDisk(before, after) == FailedDisk(now, after)
    {
      GoesFar(before, now, did, after, []);
    }

    /** One more step that mounts nothing. */
    lemma Next(before: seq<Op>, now: seq<Op>, did: seq<Action>, a: Action)
      requires Did(before, now, did) && !a.Mount?
      ensures var after := now + [Op(a, true)]; Did(before, after, did + [a]) && FailedDisk(before, after) == {}
      ensures var after := now + [Op(a, false)]; StoppedShort(before, after) && FailedDisk(before, after) == {}
    {
      Goes(before, now, did, a);
    }

    /** ConfirmReady, for an explicit `array start`. */
    method ConfirmReady(arr: Option<ArraySeq>) returns (r: Outcome)
      modifies this, host
      ensures old(Inv()) ==> Inv()
      ensures host.stopped == old(host.stopped) && host.mounted == old(host.mounted)
      ensures r == Done && arr.Some? ==> ready && applied && units == UnitNames(arr.value) && host.sd.flag
      ensures r == Done && arr.Some? ==> arr.value.catchAll.None? || arr.value.catchAll.value in host.mounted
      ensures r != Done ==>
        ready == old(ready) && units == old(units) && applied == old(applied) && host.rounds == old(host.rounds)
      ensures host.calm && arr.Some? ==>
        (r == Done <==> arr.value.catchAll.None? || arr.value.catchAll.value in host.mounted)
      ensures arr.None? ==> host.trace == old(host.trace)
      ensures arr.Some? && r == Done ==>
        Did(old(host.trace), host.trace, [UnitsWritten, FlagSet] + Starts([Smbd, Nfs, Docker, Libvirt]))
      ensures r == Failed ==>
        && Broke(old(host.trace), host.trace)
        && (!host.trace[|host.trace| - 1].ok || host.trace[|host.trace| - 1].what == UnitsWritten)
      ensures r != Refused
    {
      if arr.None? {
        return Done;
      }
      var seq_ := arr.value;
      Goes(host.trace, host.trace, [], UnitsWritten);
      var ok := host.WriteUnits();
      if !ok {
        return Failed;
      }
      ok := ConfirmPoolMounted(seq_);
      if !ok {
        return Failed;
      }
      Goes(old(host.trace), host.trace, [UnitsWritten], FlagSet);
      ok := host.SetFlag(seq_.catchAll, seq_.gateReady, seq_.maintenance, true);
      if !ok {
        return Failed;
      }
      ghost var did := host.trace;
      StartDependents();
      GoesFar(old(host.trace), did, [UnitsWritten, FlagSet], host.trace, Starts([Smbd, Nfs, Docker, Libvirt]));
      units, ready, applied := UnitNames(seq_), true, true;
      return Done;
    }

    /** Startup; cleared tells whether it got past removing an earlier run's flag. */
    method Startup(arr: Option<ArraySeq>, confirmed: set<string>, storeRead: bool) returns (r: Outcome, cleared: bool)
      modifies this, host
      ensures old(ready ==> applied) && cleared ==> Inv()
      ensures arr.None? ==> r == Done && host.sd == old(host.sd) && host.stopped == old(host.stopped)
      ensures arr.Some? ==> host.stopped == old(host.stopped) || host.stopped == arr.value.maintenance
      ensures r == Done && arr.Some? ==> cleared && host.stopped == arr.value.maintenance
      ensures r == Done && arr.Some? ==> ready == host.sd.flag == (arr.value.gateReady && !arr.value.maintenance)
      ensures host.rounds == old(host.rounds)
      ensures arr.Some? && arr.value.maintenance ==> host.mounted == old(host.mounted) && (cleared ==> !host.sd.flag)
      ensures host.calm && arr.Some? ==> r == Done
      ensures arr.None? ==> host.trace == old(host.trace)
      ensures arr.Some? && r == Done ==> Did(old(host.trace), host.trace, StartupActions(arr.value))
      ensures r == Failed ==> StoppedShort(old(host.trace), host.trace)
      ensures arr.Some? && r == Done ==>
        |units| == |arr.value.disks| && forall i :: 0 <= i < |units| ==> units[i] == unitName(arr.value.disks[i])
      ensures arr.Some? && r == Done && ready ==> AllMounted(arr.value, host.mounted)
      ensures arr.Some? ==>
        mountFailed ==
        Reconciled(old(mountFailed), arr.value, confirmed, storeRead) + FailedDisk(old(host.trace), host.trace)
    {
      r, cleared := Done, false;
      if arr.None? {
        return;
      }
      hide Did, StoppedShort, FailedDisk, MountsOf, AllMounted, Reconciled;
      var seq_ := arr.value;
      r := Failed;
      ReconcileMountFailures(seq_, confirmed, storeRead);
      var ok;
      ok, cleared := Settle(seq_);
      if !ok {
        return;
      }
      var up := seq_.gateReady && !seq_.maintenance;
      if up {
        ok := MountAndSet(seq_, old(host.trace), SettleActions(seq_));
        if !ok {
          return;
        }
      }
      assert SettleActions(seq_) + [] == SettleActions(seq_);
      applied, ready, units := true, up, UnitNames(seq_);
      r := Done;
    }

    /** A Startup up to the mounts: the flags and the units. */
    method Settle(seq_: ArraySeq) returns (ok: bool, cleared: bool)
      modifies host`sd, host`torn, host`stopped, host`unitWrites, host`trace
      ensures cleared ==> !host.sd.flag && !host.torn
      ensures !cleared ==> host.sd == old(host.sd) && !ok
      ensures host.stopped == old(host.stopped) || host.stopped == seq_.maintenance
      ensures ok ==> cleared && host.stopped == seq_.maintenance
      ensures ok ==> Did(old(host.trace), host.trace, SettleActions(seq_))
      ensures !ok ==> StoppedShort(old(host.trace), host.trace)
      ensures FailedDisk(old(host.trace), host.trace) == {}
      ensures host.calm ==> ok
    {
      hide Did, StoppedShort, FailedDisk;
      cleared := false;
      ghost var t, did := host.trace, [];
      NoOp(t);
      Next(t, host.trace, did, FlagCleared);
      ok := host.ClearFlag();
      if !ok {
        return;
      }
      cleared, did := true, did + [FlagCleared];
      Next(t, host.trace, did, if seq_.maintenance then StoppedSet else StoppedCleared);
      if seq_.maintenance {
        ok := host.SetStopped();
      } else {
        ok := host.ClearStopped();
      }
      if !ok {
        return;
      }
      did := did + [if seq_.maintenance then StoppedSet else StoppedCleared];
      Next(t, host.trace, did, Task(RegenerateMounts));
      ok := host.Attempt(Task(RegenerateMounts));
      if !ok {
        return;
      }
      did := did + [Task(RegenerateMounts)];
      Next(t, host.trace, did, UnitsWritten);
      ok := host.WriteUnits();
      assert did + [UnitsWritten] == SettleActions(seq_);
    }

    /** The end of a Startup over a ready gate. */
    method MountAndSet(seq_: ArraySeq, ghost before: seq<Op>, ghost did: seq<Action>) returns (ok: bool)
      requires seq_.gateReady && !seq_.maintenance && !host.stopped && Did(before, host.trace, did)
      requires host.sd.flag ==> (ready || host.torn) && host.origin.Some? && Trusted(host.origin.value)
      modifies this`mountFailed, host
      ensures host.sd.flag ==> (ready || host.torn || ok) && host.origin.Some? && Trusted(host.origin.value)
      ensures host.stopped == old(host.stopped) && host.rounds == old(host.rounds)
      ensures ok ==> host.sd.flag && AllMounted(seq_, host.mounted)
      ensures ok ==> Did(before, host.trace, did + (MountsOf(seq_) + [FlagSet]))
      ensures !ok ==> StoppedShort(before, host.trace)
      ensures mountFailed == old(mountFailed) + FailedDisk(before, host.trace)
      ensures host.calm ==> ok
    {
      hide Did, MountsOf, AllMounted, FailedDisk, StoppedShort, Broke;
      ghost var t0 := host.trace;
      ok := MountArrayAndPool(seq_);
      ghost var t1, mounts := host.trace, MountsOf(seq_);
      if !ok {
        ShortOf(before, t0, did, t1);
        return;
      }
      GoesFar(before, t0, did, t1, mounts);
      Next(before, t1, did + mounts, FlagSet);
      ok := host.SetFlag(seq_.catchAll, seq_.gateReady, seq_.maintenance, false);
      assert did + mounts + [FlagSet] == did + (mounts + [FlagSet]);
      if ok {
        NoFailedDisk(before, host.trace, did + (mounts + [FlagSet]));
      }
    }

    /** Close, with starts from outside hoservad between all of its steps: when
        it succeeds the gate is down and nothing it gates is running. */
    method Close(persist: bool) returns (ok: bool)
      modifies this, host
      ensures old(Inv()) ==> Inv()
      ensures ok ==> Closed(host.sd) && !ready && applied
      ensures !ok ==> ready == old(ready) && applied == old(applied)
      ensures units == old(units) && host.mounted == old(host.mounted)
      ensures host.stopped == old(host.stopped) || (persist && host.stopped)
      ensures ok && persist ==> host.stopped
      ensures host.calm ==> ok
      ensures ok ==> Did(old(host.trace), host.trace, CloseActions(persist))
      ensures !ok ==> Broke(old(host.trace), host.trace) && !host.trace[|host.trace| - 1].ok
    {
      hide Did, Broke, OutsideStarts, Trusted;
      NoOp(host.trace);
      ghost var did: seq<Action> := [];
      ok := true;
      if persist {
        Goes(old(host.trace), host.trace, did, StoppedSet);
        ok := host.SetStopped();
        if !ok {
          return;
        }
        did := did + [StoppedSet];
      }
      var _ := host.Outside();
      ok := StopHere(old(host.trace), did);
      if !ok {
        return;
      }
      did := did + [Action.Stop(Docker), Action.Stop(Libvirt)];
      Goes(old(host.trace), host.trace, did, FlagCleared);
      ok := host.ClearFlag();
      if !ok {
        return;
      }
      var _ := host.Outside();
      Goes(old(host.trace), host.trace, did + [FlagCleared], GateStop);
      ok := host.StopGate();
      if !ok {
        return;
      }
      assert did + [FlagCleared] + [GateStop] == CloseActions(persist);
      ready, applied := false, true;
      var _ := host.Outside();
    }

    /** The two services that only Close stops, with starts from outside between. */
    method StopHere(ghost before: seq<Op>, ghost did: seq<Action>) returns (ok: bool)
      requires Did(before, host.trace, did)
      modifies host`sd, host`trace
      ensures host.sd.flag == old(host.sd.flag)
      ensures ok ==> Did(before, host.trace, did + [Action.Stop(Docker), Action.Stop(Libvirt)])
      ensures !ok ==> Broke(before, host.trace) && !host.trace[|host.trace| - 1].ok
      ensures host.calm ==> ok
    {
      hide Did, Broke;
      assert did + Stops(CLOSED_HERE[..0]) == did;
      for i := 0 to |CLOSED_HERE|
        invariant host.sd.flag == old(host.sd.flag)
        invariant Did(before, host.trace, did + Stops(CLOSED_HERE[..i]))
      {
        Goes(before, host.trace, did + Stops(CLOSED_HERE[..i]), Action.Stop(CLOSED_HERE[i]));
        assert did + Stops(CLOSED_HERE[..i + 1]) == did + Stops(CLOSED_HERE[..i]) + [Action.Stop(CLOSED_HERE[i])];
        ok := host.StopService(CLOSED_HERE[i]);
        if !ok {
          return;
        }
        var _ := host.Outside();
      }
      assert Stops(CLOSED_HERE[..|CLOSED_HERE|]) == [Action.Stop(Docker), Action.Stop(Libvirt)];
      ok := true;
    }

    lemma NoOp(t: seq<Op>)
      ensures Did(t, t, []) && FailedDisk(t, t) == {}
    {
    }

    /** Open and Reclose: the array-stopped flag alone. */
    method Open() returns (ok: bool)
      modifies host`stopped, host`trace
      ensures host.trace == old(host.trace) + [Op(StoppedCleared, ok)]
      ensures host.stopped == (old(host.stopped) && !ok)
      ensures host.calm ==> ok
    {
      ok := host.ClearStopped();
    }

    method Reclose() returns (ok: bool)
      modifies host`stopped, host`trace
      ensures host.trace == old(host.trace) + [Op(StoppedSet, ok)]
      ensures ok ==> host.stopped
      ensures host.stopped == old(host.stopped) || host.stopped
      ensures host.calm ==> ok
    {
      ok := host.SetStopped();
    }

    /** Every run of calls after a Startup that got past clearing the flag, with
        any step of any call failing and services started from outside between
        the calls: a flag that is there was set over a confirmed pool for a
        reason to trust, and is remembered unless creating it was reported as
        failed; the stopped flag has moved only if a call to move it was made. */
    method Serve(calls: seq<Call>)
      requires Inv()
      modifies this, host
      ensures Inv()
      ensures host.sd.flag ==> (ready || host.torn) && host.origin.Some? && Trusted(host.origin.value)
      ensures (forall k :: 0 <= k < |calls| ==> !MovesStopped(calls[k])) ==> host.stopped == old(host.stopped)
    {
      for n := 0 to |calls|
        invariant Inv()
        invariant (forall k :: 0 <= k < n ==> !MovesStopped(calls[k])) ==> host.stopped == old(host.stopped)
      {
        var _ := host.Outside();
        match calls[n]
        case Updated(arr, confirmed, storeRead) => var _ := Update(arr, confirmed, storeRead);
        case Confirmed(arr) => var _ := ConfirmReady(arr);
        case Closing(persist) => var _ := Close(persist);
        case Opening => var _ := Open();
        case Reclosing => var _ := Reclose();
      }
    }
  }

  datatype Call =
    | Updated(arr: Option<ArraySeq>, confirmed: set<string>, storeRead: bool)
    | Confirmed(arr: Option<ArraySeq>)
    | Closing(persist: bool)
    | Opening
    | Reclosing

  predicate MovesStopped(c: Call) {
    c == Closing(true) || c == Opening || c == Reclosing
  }
}
