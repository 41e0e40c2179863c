/** internal/job/array.go: ArraySequence.Stop, StopForShutdown and Start with its
    two ways of taking a failed start back, over the storage target and the
    scheduler's persisted maintenance row (internal/job/scheduler.go). */
module ArraySequence {
  import opened Wrappers
  import opened StorageHost
  import opened StorageTarget

  /** How a start ended. Started. BackToStopped: an error, and everything is as
      it was. MountsLeft: a mount failed after that many others, which stay up,
      and only the array-stopped flag was put back. DisksLeft: the disk check
      failed, and so did unmounting some disk again. Stuck: going back to stopped
      did not finish. FlagLost: the array-stopped flag could not be put back. */
  datatype StartResult = Started | BackToStopped | MountsLeft(made: nat) | DisksLeft | Stuck | FlagLost

  ghost function Members(ws: seq<string>): (r: set<string>) {
    set w | w in ws
  }

  lemma OnlyMember(w: string)
    ensures Members([w]) == {w} && Members([]) == {}
  {
  }

  lemma MembersOf(a: seq<string>, b: seq<string>)
    ensures Members(a + b) == Members(a) + Members(b)
  {
  }

  /** The last first. */
  ghost function Backwards(services: seq<Service>): (r: seq<Service>) {
    if services == [] then [] else Backwards(services[1..]) + [services[0]]
  }

  class Sequence {
    const target: StorageTargetSync
    const host: Host
    const services: seq<Service>
    const catchAll: Option<string>
    const shareMounts: seq<string>
    const disks: seq<string>
    var gateReady: bool
    var maintenance: bool
    var row: bool

    constructor (target: StorageTargetSync, services: seq<Service>, catchAll: Option<string>,
                 shareMounts: seq<string>, disks: seq<string>, gateReady: bool, row: bool)
      ensures this.target == target && host == target.host && this.services == services && this.catchAll == catchAll
      ensures this.shareMounts == shareMounts && this.disks == disks
      ensures this.gateReady == gateReady && this.row == row && maintenance == row
    {
      this.target, this.host, this.services := target, target.host, services;
      this.catchAll, this.shareMounts, this.disks := catchAll, shareMounts, disks;
      this.gateReady, this.row, this.maintenance := gateReady, row, row;
    }

    ghost predicate Valid()
      reads this, target, host
    {
      host == target.host && target.Inv()
    }

    /** The array as the storage target sees it. */
    function Seen(): ArraySeq
      reads this
    {
      ArraySeq(gateReady, maintenance, catchAll, shareMounts, disks)
    }

    /** Stopped for good: the row and the flag say so, the gate is down and
        nothing behind it is running. */
    ghost predicate AtRest()
      reads this, target, host
    {
      row && maintenance && host.stopped && Closed(host.sd) && !target.ready
    }

    ghost function Marked(): Mark
      reads this, host
    {
      Mark(row, host.stopped)
    }

    /** Everything the sequence mounts. */
    ghost function Mountpoints(): set<string> {
      Members(MountOrder())
    }

    function CatchAlls(): seq<string> {
      if catchAll.Some? then [catchAll.value] else []
    }

    /** The order Start mounts in. */
    function MountOrder(): seq<string> {
      disks + CatchAlls() + shareMounts
    }

    method UnmountAll(wheres: seq<string>) returns (ok: bool)
      modifies host`mounted, host`trace
      ensures host.calm ==> ok
      ensures host.mounted <= old(host.mounted)
      ensures ok ==> host.mounted == old(host.mounted) - Members(wheres)
      ensures ok ==> Did(old(host.trace), host.trace, Unmounts(wheres))
      ensures !ok ==> Broke(old(host.trace), host.trace) && !host.trace[|host.trace| - 1].ok
    {
      for i := 0 to |wheres|
        invariant host.mounted == old(host.mounted) - Members(wheres[..i])
        invariant Did(old(host.trace), host.trace, Unmounts(wheres[..i]))
      {
        hide Did, Broke;
        Goes(old(host.trace), host.trace, Unmounts(wheres[..i]), Action.Unmount(wheres[i]));
        assert Unmounts(wheres[..i + 1]) == Unmounts(wheres[..i]) + [Action.Unmount(wheres[i])];
        ok := host.Unmount(wheres[i]);
        if !ok {
          return;
        }
      }
      assert wheres[..|wheres|] == wheres;
      ok := true;
    }

    /** Mounts in order up to the first that fails. */
    method MountAll(wheres: seq<string>, disk: bool) returns (made: nat)
      modifies host`mounted, host`mounts, host`trace
      ensures made <= |wheres| && (host.calm ==> made == |wheres|)
      ensures !host.stopped ==> host.mounted == old(host.mounted) + Members(wheres[..made])
      ensures made == |wheres| ==> Did(old(host.trace), host.trace, Mounts(wheres, disk))
      ensures made < |wheres| ==>
        && Broke(old(host.trace), host.trace)
        && host.trace[|host.trace| - 1] == Op(Action.Mount(wheres[made], disk), false)
    {
      made := 0;
      while made < |wheres|
        invariant made <= |wheres|
        invariant !host.stopped ==> host.mounted == old(host.mounted) + Members(wheres[..made])
        invariant Did(old(host.trace), host.trace, Mounts(wheres[..made], disk))
      {
        hide Did, Broke;
        Goes(old(host.trace), host.trace, Mounts(wheres[..made], disk), Action.Mount(wheres[made], disk));
        assert Mounts(wheres[..made + 1], disk) == Mounts(wheres[..made], disk) + [Action.Mount(wheres[made], disk)];
        var ok := host.Mount(wheres[made], disk);
        if !ok {
          return;
        }
        made := made + 1;
      }
      assert wheres[..made] == wheres;
    }

    /** What a stop from the given service on does: the services, the gate, then
        the shares, the pool and the disks. */
    ghost function StopActions(from: nat, persist: bool): (actions: seq<Action>)
      requires from <= |services|
    {
      Stops(services[from..]) + CloseActions(persist) + [Task(ClosePoolWrites)] + UnmountActions()
    }

    ghost function UnmountActions(): (actions: seq<Action>) {
      Unmounts(shareMounts) + Unmounts(CatchAlls()) + Unmounts(disks)
    }

    /** stopSequence, from the given service on: services, gate, mounts. */
    method StopSequence(from: nat, persist: bool) returns (ok: bool)
      requires host == target.host && from <= |services|
      modifies target, host
      ensures old(Valid()) || ok ==> Valid()
      ensures ok ==> Closed(host.sd) && !target.ready && host.mounted !! Mountpoints()
      ensures host.mounted <= old(host.mounted)
      ensures ok && persist ==> host.stopped
      ensures host.stopped == old(host.stopped) || (persist && host.stopped)
      ensures ok ==> Did(old(host.trace), host.trace, StopActions(from, persist))
      ensures !ok ==> Broke(old(host.trace), host.trace) && !host.trace[|host.trace| - 1].ok
      ensures host.calm ==> ok
    {
      hide Did, Broke, CloseActions, Members;
      ghost var t0, did := host.trace, Stops(services[from..]);
      ok := StopServices(from);
      if !ok {
        return;
      }
      ghost var t1 := host.trace;
      ok := target.Close(persist);
      ghost var t2 := host.trace;
      GoesFar(t0, t1, did, t2, CloseActions(persist));
      if !ok {
        return;
      }
      did := did + CloseActions(persist);
      Goes(t0, t2, did, Task(ClosePoolWrites));
      ok := host.Attempt(Task(ClosePoolWrites));
      if !ok {
        return;
      }
      ghost var t3 := host.trace;
      did := did + [Task(ClosePoolWrites)];
      ok := UnmountArray();
      GoesFar(t0, t3, did, host.trace, UnmountActions());
    }

    /** The services from the given one on, in stop order. */
    method StopServices(from: nat) returns (ok: bool)
      requires host == target.host && from <= |services|
      modifies host`sd, host`trace
      ensures old(Valid()) ==> Valid()
      ensures ok ==> Did(old(host.trace), host.trace, Stops(services[from..]))
      ensures !ok ==> Broke(old(host.trace), host.trace) && !host.trace[|host.trace| - 1].ok
      ensures host.calm ==> ok
    {
      assert Stops(services[from..from]) == [];
      NothingDone(host.trace);
      for i := from to |services|
        invariant old(Valid()) ==> Valid()
        invariant Did(old(host.trace), host.trace, Stops(services[from..i]))
      {
        hide Did, Broke;
        Goes(old(host.trace), host.trace, Stops(services[from..i]), Action.Stop(services[i]));
        assert Stops(services[from..i + 1]) == Stops(services[from..i]) + [Action.Stop(services[i])];
        ok := host.StopService(services[i]);
        if !ok {
          return;
        }
      }
      assert services[from..|services|] == services[from..];
      ok := true;
    }

    /** The unmounts of a stop. */
    method UnmountArray() returns (ok: bool)
      modifies host`mounted, host`trace
      ensures ok ==> host.mounted !! Mountpoints()
      ensures host.mounted <= old(host.mounted)
      ensures ok ==> Did(old(host.trace), host.trace, UnmountActions())
      ensures !ok ==> Broke(old(host.trace), host.trace) && !host.trace[|host.trace| - 1].ok
      ensures host.calm ==> ok
    {
      hide Did, Broke, Members;
      MembersOf(disks, CatchAlls());
      MembersOf(disks + CatchAlls(), shareMounts);
      ghost var t0 := host.trace;
      ok := UnmountAll(shareMounts);
      if !ok {
        return;
      }
      ghost var t1 := host.trace;
      if catchAll.Some? {
        OnlyMember(catchAll.value);
        Goes(t0, t1, Unmounts(shareMounts), Action.Unmount(catchAll.value));
        assert Unmounts(CatchAlls()) == [Action.Unmount(catchAll.value)];
        ok := host.Unmount(catchAll.value);
        if !ok {
          return;
        }
      } else {
        OnlyMember("");
        assert Unmounts(shareMounts) + Unmounts(CatchAlls()) == Unmounts(shareMounts);
      }
      ghost var t2 := host.trace;
      ok := UnmountAll(disks);
      GoesFar(t0, t2, Unmounts(shareMounts) + Unmounts(CatchAlls()), host.trace, Unmounts(disks));
    }

    /** Stop (persist) and StopForShutdown (!persist). */
    method Stop(persist: bool) returns (ok: bool)
      requires host == target.host
      modifies this, target, host
      ensures old(Valid()) || ok ==> Valid()
      ensures ok ==> maintenance && Closed(host.sd) && host.mounted !! Mountpoints()
      ensures ok && persist ==> AtRest()
      ensures Marks(if persist then UserStop else Shutdown, ok, old(Marked()), Marked())
      ensures host.calm ==> ok
      ensures ok ==>
        Did(old(host.trace), host.trace, Persisting(persist) + DrainActions() + StopActions(0, persist))
      ensures !ok ==> Broke(old(host.trace), host.trace) && !host.trace[|host.trace| - 1].ok
    {
      hide Did, Broke, StopActions;
      NothingDone(host.trace);
      ghost var t0, did := host.trace, [];
      if persist {
        Goes(t0, host.trace, did, Task(PersistStop));
        ok := host.Attempt(Task(PersistStop));
        if !ok {
          return;
        }
        row := true;
        did := did + [Task(PersistStop)];
      }
      maintenance := true;
      ghost var t1 := host.trace;
      ok := DrainAll();
      ghost var t2 := host.trace;
      GoesFar(t0, t1, did, t2, DrainActions());
      if !ok {
        return;
      }
      ok := StopSequence(0, persist);
      assert did == Persisting(persist);
      GoesFar(t0, t2, did + DrainActions(), host.trace, StopActions(0, persist));
    }

    ghost function Persisting(persist: bool): (actions: seq<Action>) {
      if persist then [Task(PersistStop)] else []
    }

    ghost function DrainActions(): (actions: seq<Action>) {
      [Task(DrainJobs), Task(DrainShareMutations), Task(DrainAppActions)]
    }

    /** Waiting for what was under way before maintenance mode. */
    method DrainAll() returns (ok: bool)
      modifies host`trace
      ensures ok ==> Did(old(host.trace), host.trace, DrainActions())
      ensures !ok ==> Broke(old(host.trace), host.trace) && !host.trace[|host.trace| - 1].ok
      ensures host.calm ==> ok
    {
      hide Did, Broke;
      NothingDone(host.trace);
      ghost var t, did := host.trace, [];
      Goes(t, t, did, Task(DrainJobs));
      ok := host.Attempt(Task(DrainJobs));
      if !ok {
        return;
      }
      did := did + [Task(DrainJobs)];
      Goes(t, host.trace, did, Task(DrainShareMutations));
      ok := host.Attempt(Task(DrainShareMutations));
      if !ok {
        return;
      }
      did := did + [Task(DrainShareMutations)];
      Goes(t, host.trace, did, Task(DrainAppActions));
      ok := host.Attempt(Task(DrainAppActions));
      assert did + [Task(DrainAppActions)] == DrainActions();
    }

    /** recloseAfterFailedStart: the array-stopped flag is put back, nothing else. */
    method RecloseAfterFailedStart(error: StartResult) returns (r: StartResult)
      requires host == target.host
      modifies host`stopped, host`trace
      ensures r == error || r == FlagLost
      ensures |host.trace| == |old(host.trace)| + 1 && old(host.trace) <= host.trace
      ensures host.trace[|host.trace| - 1].what == StoppedSet
      ensures r != FlagLost ==> host.stopped
      ensures host.calm ==> r == error
    {
      var ok := target.Reclose();
      return if ok then error else FlagLost;
    }

    /** rollbackToStopped. */
    method RollbackToStopped(from: nat) returns (r: StartResult)
      requires host == target.host && from <= |services|
      modifies target, host
      ensures old(Valid()) || r == BackToStopped ==> Valid()
      ensures r == BackToStopped || r == Stuck || r == FlagLost
      ensures host.mounted <= old(host.mounted)
      ensures r == BackToStopped ==> host.stopped && Closed(host.sd) && !target.ready && host.mounted !! Mountpoints()
      ensures r == Stuck ==> host.stopped
      ensures r == BackToStopped ==> Did(old(host.trace), host.trace, StopActions(from, true))
      ensures host.calm ==> r == BackToStopped
    {
      var ok := StopSequence(from, true);
      if ok {
        return BackToStopped;
      }
      ok := target.Reclose();
      return if ok then Stuck else FlagLost;
    }

    /** Start: on success everything is up and nothing says stopped any more; on
        an error the result says what is left of the attempt. */
    method Start() returns (r: StartResult)
      requires host == target.host
      modifies this, target, host
      ensures old(Valid()) ==> Valid()
      ensures gateReady == old(gateReady)
      ensures r == Started ==> !row && !maintenance && !host.stopped && target.ready && host.sd.flag
      ensures r == Started ==> Mountpoints() <= host.mounted
      ensures Marks(UserStart, r == Started, old(Marked()), Marked())
      ensures r != Started ==> maintenance == old(maintenance)
      // Every error but Stuck and FlagLost leaves the array at rest as it was, and
      // only a failed mount or unmount before the gate leaves anything mounted.
      ensures old(AtRest()) && (r == BackToStopped || r.MountsLeft? || r == DisksLeft) ==> AtRest()
      ensures r == BackToStopped && old(host.mounted !! Mountpoints()) ==> host.mounted !! Mountpoints()
      ensures r.MountsLeft? ==>
                r.made < |MountOrder()| && host.mounted == old(host.mounted) + Members(MountOrder()[..r.made])
      ensures r == DisksLeft ==> host.mounted <= old(host.mounted) + Members(disks)
      ensures host.mounted <= old(host.mounted) + Mountpoints()
      ensures r == Stuck ==> host.stopped
      ensures host.calm && old(AtRest()) ==> r == if gateReady then Started else BackToStopped
      ensures r == Started ==>
        Did(old(host.trace), host.trace, [Task(BeginStart), StoppedCleared] + UpActions() + ServeActions())
    {
      r := BackToStopped;
      hide Did, Broke, UpActions, ServeActions, Members;
      ghost var t0 := host.trace;
      NothingDone(t0);
      Goes(t0, t0, [], Task(BeginStart));
      assert [] + [Task(BeginStart)] == [Task(BeginStart)];
      var ok := host.Attempt(Task(BeginStart));
      if !ok || !gateReady {
        return;
      }
      Goes(t0, host.trace, [Task(BeginStart)], StoppedCleared);
      ok := target.Open();
      if !ok {
        return;
      }
      ghost var t1 := host.trace;
      assert [Task(BeginStart)] + [StoppedCleared] == [Task(BeginStart), StoppedCleared];
      var error := MountUp();
      ghost var t2 := host.trace;
      if error.Some? {
        r := error.value;
      } else {
        GoesFar(t0, t1, [Task(BeginStart), StoppedCleared], t2, UpActions());
        ghost var begun, at;
        r, begun, at := StartServices();
        GoesFar(t0, t2, [Task(BeginStart), StoppedCleared] + UpActions(), host.trace, ServeActions());
      }
    }

    /** What a Start that gets to the storage target has done, and what one that
        completes does from there. */
    ghost function UpActions(): (actions: seq<Action>) {
      Mounts(disks, true) + [Task(CheckDisks)] +
      (if catchAll.Some? then [Action.Mount(catchAll.value, false), Task(OpenPoolWrites)] else []) +
      Mounts(shareMounts, false)
    }

    ghost function ServeActions(): (actions: seq<Action>) {
      ConfirmActions() + Starts(Backwards(services)) + [Task(PersistStart)] + [Task(AfterStart)]
    }

    ghost function ConfirmActions(): (actions: seq<Action>) {
      [UnitsWritten, FlagSet] + Starts([Smbd, Nfs, Docker, Libvirt])
    }

    /** Start from the first mount to the storage target. */
    method MountUp() returns (error: Option<StartResult>)
      requires host == target.host && !host.stopped
      modifies host`mounted, host`mounts, host`stopped, host`trace
      ensures error.None? ==> !host.stopped && host.mounted == old(host.mounted) + Mountpoints()
      ensures error.Some? ==>
        error.value == BackToStopped || error.value.MountsLeft? || error.value == DisksLeft || error.value == FlagLost
      ensures error.Some? && error.value != FlagLost ==> host.stopped
      ensures host.mounted <= old(host.mounted) + Mountpoints()
      ensures error == Some(BackToStopped) ==> host.mounted <= old(host.mounted)
      ensures error.Some? && error.value.MountsLeft? ==>
        && error.value.made < |MountOrder()|
        && host.mounted == old(host.mounted) + Members(MountOrder()[..error.value.made])
      ensures error == Some(DisksLeft) ==> host.mounted <= old(host.mounted) + Members(disks)
      ensures host.calm ==> error.None?
      ensures error.None? ==> Did(old(host.trace), host.trace, UpActions())
    {
      hide Members;
      OnlyMember("");
      MembersOf(disks, CatchAlls());
      MembersOf(disks + CatchAlls(), shareMounts);
      hide Did, Broke;
      ghost var t0 := host.trace;
      error := MountDisks();
      if error.Some? {
        return;
      }
      ghost var did := Mounts(disks, true) + [Task(CheckDisks)];
      var base := disks + CatchAlls();
      if catchAll.Some? {
        OnlyMember(catchAll.value);
        Goes(t0, host.trace, did, Action.Mount(catchAll.value, false));
        var ok := host.Mount(catchAll.value, false);
        if !ok {
          Prefix(disks, CatchAlls() + shareMounts, |disks|);
          var r := RecloseAfterFailedStart(MountsLeft(|disks|));
          return Some(r);
        }
        did := did + [Action.Mount(catchAll.value, false)];
        Goes(t0, host.trace, did, Task(OpenPoolWrites));
        host.Note(Task(OpenPoolWrites));
        did := did + [Task(OpenPoolWrites)];
      }
      ghost var t1 := host.trace;
      var made := MountAll(shareMounts, false);
      GoesFar(t0, t1, did, host.trace, Mounts(shareMounts, false));
      if made < |shareMounts| {
        assert MountOrder()[..|base| + made] == base + shareMounts[..made];
        MembersOf(base, shareMounts[..made]);
        MembersOf(shareMounts[..made], shareMounts[made..]);
        assert shareMounts[..made] + shareMounts[made..] == shareMounts;
        var r := RecloseAfterFailedStart(MountsLeft(|base| + made));
        return Some(r);
      }
      assert shareMounts[..made] == shareMounts;
      assert did + Mounts(shareMounts, false) == UpActions();
    }

    /** The disks, and the check of them once they are mounted. */
    method MountDisks() returns (error: Option<StartResult>)
      requires host == target.host && !host.stopped
      modifies host`mounted, host`mounts, host`stopped, host`trace
      ensures error.None? ==> !host.stopped && host.mounted == old(host.mounted) + Members(disks)
      ensures error.Some? ==>
        error.value == BackToStopped || error.value.MountsLeft? || error.value == DisksLeft || error.value == FlagLost
      ensures error.Some? && error.value != FlagLost ==> host.stopped
      ensures host.mounted <= old(host.mounted) + Members(disks)
      ensures error == Some(BackToStopped) ==> host.mounted <= old(host.mounted)
      ensures error.Some? && error.value.MountsLeft? ==>
        && error.value.made < |disks|
        && host.mounted == old(host.mounted) + Members(MountOrder()[..error.value.made])
      ensures host.calm ==> error.None?
      ensures error.None? ==> Did(old(host.trace), host.trace, Mounts(disks, true) + [Task(CheckDisks)])
    {
      var r;
      var made := MountAll(disks, true);
      if made < |disks| {
        Prefix(disks, CatchAlls() + shareMounts, made);
        r := RecloseAfterFailedStart(MountsLeft(made));
        return Some(r);
      }
      assert disks[..made] == disks;
      Goes(old(host.trace), host.trace, Mounts(disks, true), Task(CheckDisks));
      var ok := host.Attempt(Task(CheckDisks));
      if !ok {
        ok := TakeDisksDown();
        r := RecloseAfterFailedStart(if ok then BackToStopped else DisksLeft);
        return Some(r);
      }
      return None;
    }

    lemma Prefix(a: seq<string>, b: seq<string>, k: nat)
      requires k <= |a| && a + b == MountOrder()
      ensures MountOrder()[..k] == a[..k]
    {
    }

    /** Unmounting every disk again, whatever fails on the way. */
    method TakeDisksDown() returns (ok: bool)
      modifies host`mounted, host`trace
      ensures old(host.trace) <= host.trace && |host.trace| == |old(host.trace)| + |disks|
      ensures forall i :: 0 <= i < |disks| ==> host.trace[|old(host.trace)| + i].what == Action.Unmount(disks[i])
      ensures host.mounted <= old(host.mounted)
      ensures ok ==> host.mounted == old(host.mounted) - Members(disks)
      ensures host.calm ==> ok
    {
      ok := true;
      for i := 0 to |disks|
        invariant host.mounted <= old(host.mounted) && (host.calm ==> ok)
        invariant old(host.trace) <= host.trace && |host.trace| == |old(host.trace)| + i
        invariant forall k :: 0 <= k < i ==> host.trace[|old(host.trace)| + k].what == Action.Unmount(disks[k])
        invariant ok ==> host.mounted == old(host.mounted) - Members(disks[..i])
      {
        var down := host.Unmount(disks[i]);
        ok := ok && down;
      }
      assert disks[..|disks|] == disks;
    }

    /** Start from the storage target on, with everything mounted. An error of the
        storage target, of a service or of the row is rolled back: begun is the
        first service that had been started, and at what had been done by then. */
    method StartServices() returns (r: StartResult, ghost begun: nat, ghost at: seq<Op>)
      requires host == target.host && !host.stopped && Mountpoints() <= host.mounted
      modifies this, target, host
      ensures old(Valid()) ==> Valid()
      ensures gateReady == old(gateReady)
      ensures r == Started || r == BackToStopped || r == Stuck || r == FlagLost
      ensures host.mounted <= old(host.mounted)
      ensures r == Started ==> !row && !maintenance && !host.stopped && target.ready && host.sd.flag
      ensures r == Started ==> Mountpoints() <= host.mounted
      ensures r != Started ==> row == old(row) && maintenance == old(maintenance)
      ensures r == BackToStopped ==> host.stopped && Closed(host.sd) && !target.ready && host.mounted !! Mountpoints()
      ensures r == Stuck ==> host.stopped
      ensures r == Started ==> Did(old(host.trace), host.trace, ServeActions())
      ensures r != Started ==> begun <= |services| && Broke(old(host.trace), at)
      ensures r != Started ==> |old(host.trace)| < |at|
      ensures r != Started && begun < |services| ==>
        Did(old(host.trace), at[..|at| - 1], ConfirmActions() + Starts(Backwards(services[begun..])))
      ensures r != Started && 0 < begun < |services| ==> at[|at| - 1] == Op(Action.Start(services[begun - 1]), false)
      ensures r == BackToStopped ==> Did(at, host.trace, StopActions(begun, true))
      ensures host.calm ==> r == Started
    {
      CatchAllIsIn(host.mounted);
      assert ConfirmActions() == [UnitsWritten, FlagSet] + Starts([Smbd, Nfs, Docker, Libvirt]);
      hide Did, Broke, StopActions, Starts, Backwards, Trusted, Mountpoints;
      hide ConfirmActions, ServingActions, ServeActions;
      ghost var t0 := host.trace;
      var confirmed := target.ConfirmReady(Some(Seen()));
      ghost var t1 := host.trace;
      var from, ok := |services|, false;
      if confirmed == Done {
        ok, from := Serve();
      }
      begun, at := from, host.trace;
      if ok {
        Served(t0, t1, at);
        return Started, begun, at;
      }
      if confirmed == Done {
        NotServed(t0, t1, at, begun);
      }
      r := RollbackToStopped(from);
    }

    lemma Served(t0: seq<Op>, t1: seq<Op>, t2: seq<Op>)
      requires Did(t0, t1, ConfirmActions()) && Did(t1, t2, ServingActions())
      ensures Did(t0, t2, ServeActions())
    {
      hide Did;
      GoesFar(t0, t1, ConfirmActions(), t2, ServingActions());
      assert ConfirmActions() + ServingActions() == ServeActions();
    }

    lemma NotServed(t0: seq<Op>, t1: seq<Op>, at: seq<Op>, begun: nat)
      requires begun <= |services| && |t1| < |at| && Did(t0, t1, ConfirmActions()) && Broke(t1, at)
      requires Did(t1, at[..|at| - 1], Starts(Backwards(services[begun..])))
      ensures |t0| < |at| && Broke(t0, at)
      ensures Did(t0, at[..|at| - 1], ConfirmActions() + Starts(Backwards(services[begun..])))
    {
      hide Starts, Backwards, ConfirmActions;
      GoesFar(t0, t1, ConfirmActions(), at[..|at| - 1], Starts(Backwards(services[begun..])));
      GoesFar(t0, t1, ConfirmActions(), at, []);
    }

    /** The services, the row and what follows a start. On an error begun is the
        first service that had been started. */
    method Serve() returns (ok: bool, begun: nat)
      requires host == target.host && host.sd.flag
      modifies this`row, this`maintenance, host`sd, host`trace
      ensures old(Valid()) ==> Valid()
      ensures host.sd.flag
      ensures ok ==> !row && !maintenance && Did(old(host.trace), host.trace, ServingActions())
      ensures !ok ==> row == old(row) && maintenance == old(maintenance) && begun <= |services|
      ensures !ok ==> |old(host.trace)| < |host.trace| && Broke(old(host.trace), host.trace)
      ensures !ok ==> Did(old(host.trace), host.trace[..|host.trace| - 1], Starts(Backwards(services[begun..])))
      ensures !ok && 0 < begun ==> host.trace[|host.trace| - 1] == Op(Action.Start(services[begun - 1]), false)
      ensures host.calm ==> ok
    {
      hide Did, Broke, Starts, Backwards, Trusted;
      begun, ok := StartEach();
      if !ok {
        begun := begun + 1;
        return;
      }
      assert services[0..] == services;
      ghost var t1, did := host.trace, Starts(Backwards(services));
      Goes(old(host.trace), t1, did, Task(PersistStart));
      begun := 0;
      ok := host.Attempt(Task(PersistStart)); // ExitMaintenanceChecked
      assert host.trace[..|host.trace| - 1] == t1;
      if !ok {
        return;
      }
      row, maintenance := false, false;
      Goes(old(host.trace), host.trace, did + [Task(PersistStart)], Task(AfterStart));
      host.Note(Task(AfterStart));
    }

    ghost function ServingActions(): (actions: seq<Action>) {
      Starts(Backwards(services)) + [Task(PersistStart)] + [Task(AfterStart)]
    }

    /** The services in start order, the last of the stop order first. A failure
        names the one it was. */
    method StartEach() returns (i: nat, ok: bool)
      requires host == target.host && host.sd.flag
      modifies host`sd, host`trace
      ensures old(Valid()) ==> Valid()
      ensures host.sd.flag
      ensures ok ==> Did(old(host.trace), host.trace, Starts(Backwards(services)))
      ensures !ok ==>
        && i < |services| && |old(host.trace)| < |host.trace| && Broke(old(host.trace), host.trace)
        && host.trace[|host.trace| - 1] == Op(Action.Start(services[i]), false)
        && Did(old(host.trace), host.trace[..|host.trace| - 1], Starts(Backwards(services[i + 1..])))
      ensures host.calm ==> ok
    {
      hide Did, Broke, Starts;
      i, ok := |services|, true;
      NothingStarted();
      assert services[|services|..] == [];
      NothingDone(host.trace);
      while i > 0
        invariant i <= |services|
        invariant (old(Valid()) ==> Valid()) && host.sd.flag
        invariant Did(old(host.trace), host.trace, Starts(Backwards(services[i..])))
      {
        i := i - 1;
        Goes(old(host.trace), host.trace, Starts(Backwards(services[i + 1..])), Action.Start(services[i]));
        OneMoreStarted(i);
        ghost var before := host.trace;
        ok := host.TryStart(services[i]);
        if !ok {
          assert host.trace[..|host.trace| - 1] == before;
          return;
        }
      }
      assert services[0..] == services;
      ok := true;
    }

    lemma CatchAllIsIn(mounted: set<string>)
      requires Mountpoints() <= mounted
      ensures catchAll.Some? ==> catchAll.value in mounted
    {
      assert catchAll.Some? ==> MountOrder()[|disks|] == catchAll.value;
    }

    lemma NothingStarted()
      ensures Starts(Backwards([])) == []
    {
    }

    lemma OneMoreStarted(i: nat)
      requires i < |services|
      ensures Starts(Backwards(services[i..])) == Starts(Backwards(services[i + 1..])) + [Action.Start(services[i])]
    {
      assert services[i..][1..] == services[i + 1..];
    }

    /** A daemon start: the row is restored before Startup runs. An error of
        Startup is logged and the daemon goes on; cleared tells whether it got
        past removing an earlier run's flag. */
    method Boot(confirmed: set<string>, storeRead: bool) returns (ok: bool, cleared: bool)
      requires host == target.host && (target.ready ==> target.applied)
      modifies this, target, host
      ensures Marks(Reboot, ok, old(Marked()), Marked()) && maintenance == row
      ensures ok ==> cleared
      ensures cleared ==> Valid()
      ensures row ==> host.mounted == old(host.mounted) && (cleared ==> !host.sd.flag)
      ensures host.calm ==> ok
      ensures ok ==> Did(old(host.trace), host.trace, StartupActions(Seen()))
    {
      maintenance := row;
      var r;
      r, cleared := target.Startup(Some(Seen()), confirmed, storeRead);
      ok := r == Done;
    }

    /** One call of a run. A reboot starts a new process, which remembers nothing;
        the gate's verdict may change at any time. */
    method Do(call: Call) returns (ok: bool)
      requires host == target.host
      modifies this, target, host
      ensures Marks(call, ok, old(Marked()), Marked())
      ensures if call == Reboot then ok ==> Valid() else old(Valid()) ==> Valid()
    {
      gateReady := *;
      match call
      case UserStop => ok := Stop(true);
      case Shutdown => ok := Stop(false);
      case UserStart =>
        var r := Start();
        ok := r == Started;
      case Rebuild =>
        var confirmed, storeRead := *, *;
        var r := target.Update(Some(Seen()), confirmed, storeRead);
        ok := r == Done;
      case Reboot =>
        target.applied, target.ready, target.units, target.mountFailed := false, false, [], {};
        var confirmed, storeRead := *, *;
        var cleared;
        ok, cleared := Boot(confirmed, storeRead);
    }

    /** Every run of calls, whatever fails in it: the marks have a history, and the
        storage invariant holds unless a reboot failed. */
    method Run(calls: seq<Call>) returns (ghost h: seq<Event>)
      requires host == target.host
      modifies this, target, host
      ensures |h| == |calls| && forall i :: 0 <= i < |h| ==> h[i].call == calls[i]
      ensures History(old(Marked()), h) && Marked() == Last(old(Marked()), h)
      ensures old(Valid()) && (forall e :: e in h && e.call == Reboot ==> e.ok) ==> Valid()
    {
      h := [];
      for n := 0 to |calls|
        invariant host == target.host
        invariant old(Valid()) && (forall e :: e in h && e.call == Reboot ==> e.ok) ==> Valid()
        invariant |h| == n && forall i :: 0 <= i < n ==> h[i].call == calls[i]
        invariant History(old(Marked()), h) && Marked() == Last(old(Marked()), h)
      {
        var ok := Do(calls[n]);
        HistoryGoesOn(old(Marked()), h, Event(calls[n], ok, Marked()));
        h := h + [Event(calls[n], ok, Marked())];
      }
    }
  }

  // ----- runs -----

  /** What one call did to the persisted row and the array-stopped flag. */
  datatype Mark = Mark(row: bool, stopped: bool)

  datatype Call = UserStop | UserStart | Shutdown | Reboot | Rebuild

  /** The marks a call may leave, as the contracts of Stop, Start, Boot and
      StorageTargetSync.Update state them. ok is whether it succeeded. */
  ghost predicate Marks(c: Call, ok: bool, a: Mark, b: Mark) {
    match c
    case UserStop =>
      && (b.row == a.row || b.row) && (b.stopped == a.stopped || (b.row && b.stopped))
      && (ok ==> b == Mark(true, true))
    case UserStart => if ok then b == Mark(false, false) else b.row == a.row
    case Shutdown => b == a
    case Reboot => b.row == a.row && (b.stopped == a.stopped || b.stopped == b.row) && (ok ==> b.stopped == b.row)
    case Rebuild => b == a
  }

  datatype Event = Event(call: Call, ok: bool, after: Mark)

  ghost predicate History(a: Mark, h: seq<Event>)
    decreases |h|
  {
    h == [] || (Marks(h[0].call, h[0].ok, a, h[0].after) && History(h[0].after, h[1..]))
  }

  function Last(a: Mark, h: seq<Event>): Mark {
    if h == [] then a else h[|h| - 1].after
  }

  lemma {:induction false} HistoryGoesOn(a: Mark, h: seq<Event>, e: Event)
    requires History(a, h) && Marks(e.call, e.ok, Last(a, h), e.after)
    ensures History(a, h + [e]) && Last(a, h + [e]) == e.after
    decreases |h|
  {
    if h != [] {
      HistoryGoesOn(h[0].after, h[1..], e);
      assert (h + [e])[1..] == h[1..] + [e];
    }
  }

  ghost predicate Unattended(e: Event) {
    e.call == Shutdown || e.call == Rebuild || e.call == Reboot
  }

  /** However often the machine is shut down, rebooted and rebuilt, and whatever
      of that fails, the marks stay as the user's last stop or start left them. */
  lemma {:induction false} OnlyTheUserMovesTheMarks(a: Mark, h: seq<Event>)
    requires a.row == a.stopped && History(a, h) && forall e :: e in h ==> Unattended(e)
    ensures Last(a, h) == a
    decreases |h|
  {
    if h != [] {
      assert h[0] in h;
      OnlyTheUserMovesTheMarks(h[0].after, h[1..]);
    }
  }

  /** The row survives everything but a user's stop or start; after any history,
      however many steps of it failed, one good reboot brings the flag back in
      line with it. */
  lemma {:induction false} RebootRealigns(a: Mark, h: seq<Event>)
    requires History(a, h) && forall e :: e in h ==> e.call != UserStop && e.call != UserStart
    ensures Last(a, h).row == a.row
    ensures h != [] && h[|h| - 1].call == Reboot && h[|h| - 1].ok ==> Last(a, h) == Mark(a.row, a.row)
    decreases |h|
  {
    if h != [] {
      assert h[0] in h;
      RebootRealigns(h[0].after, h[1..]);
    }
  }
}
