/** What cmd/hoservad/storagetarget.go acts on: the runtime storage-ready flag,
    the durable array-stopped flag, mounts, and systemd's gate unit with the
    four services bound to it (internal/pool/target.go). */
module StorageHost {
  import opened Wrappers

  /** pool.DependentServiceUnits. */
  datatype Service = Smbd | Nfs | Docker | Libvirt

  const DEPENDENTS := [Smbd, Nfs, Docker, Libvirt]

  /** dependentServicesOutsideArraySequence: the two that only Close stops. */
  const CLOSED_HERE := [Docker, Libvirt]

  /** systemd's side of the gate. gateActive is hoserva-storage-ready.service,
      which stays active once its test of the flag has succeeded; running holds
      the dependent services that are up. */
  datatype Systemd = Systemd(flag: bool, gateActive: bool, running: set<Service>)

  /** `systemctl start` of a dependent: its drop-in pulls in the gate, which
      needs the flag unless it is active already. */
  function StartUnit(sd: Systemd, svc: Service): Systemd {
    if sd.gateActive || sd.flag then sd.(gateActive := true, running := sd.running + {svc}) else sd
  }

  /** `systemctl stop` of the gate: everything bound to it stops with it. */
  function StopGateUnit(sd: Systemd): Systemd {
    sd.(gateActive := false, running := {})
  }

  /** Starts from outside hoservad, one after another. */
  function OutsideStarts(sd: Systemd, svcs: seq<Service>): Systemd
    decreases |svcs|
  {
    if svcs == [] then sd else OutsideStarts(StartUnit(sd, svcs[0]), svcs[1..])
  }

  ghost predicate Closed(sd: Systemd) {
    !sd.flag && !sd.gateActive && sd.running == {}
  }

  /** Nothing outside hoservad reopens a closed gate. */
  lemma {:induction false} ClosedStaysClosed(sd: Systemd, svcs: seq<Service>)
    requires Closed(sd)
    ensures OutsideStarts(sd, svcs) == sd
  {
    if svcs != [] {
      ClosedStaysClosed(sd, svcs[1..]);
    }
  }

  /** Outside starts never touch the flag, and start nothing while the gate is
      down and the flag is gone. */
  lemma {:induction false} OutsideStartsNeedTheGate(sd: Systemd, svcs: seq<Service>)
    ensures var after := OutsideStarts(sd, svcs);
            && after.flag == sd.flag
            && sd.running <= after.running
            && (!sd.flag && !sd.gateActive ==> after == sd)
    decreases |svcs|
  {
    if svcs != [] {
      OutsideStartsNeedTheGate(StartUnit(sd, svcs[0]), svcs[1..]);
    }
  }

  /** The two last steps of Close in the order the code has them, with outside
      starts at every point: closed, whatever was running. */
  lemma FlagThenGateCloses(sd: Systemd, a: seq<Service>, b: seq<Service>, c: seq<Service>)
    ensures Closed(OutsideStarts(StopGateUnit(OutsideStarts(OutsideStarts(sd, a).(flag := false), b)), c))
  {
    var cleared := OutsideStarts(sd, a).(flag := false);
    OutsideStartsNeedTheGate(cleared, b);
    ClosedStaysClosed(StopGateUnit(OutsideStarts(cleared, b)), c);
  }

  /** The other order is closed at the end exactly when no start from outside
      lands between its two steps while the flag is set. */
  lemma GateThenFlagCloses(sd: Systemd, between: seq<Service>)
    ensures Closed(OutsideStarts(StopGateUnit(sd), between).(flag := false)) <==> (!sd.flag || between == [])
  {
    var stopped := StopGateUnit(sd);
    if !sd.flag {
      ClosedStaysClosed(stopped, between);
    } else if between != [] {
      OutsideStartsNeedTheGate(StartUnit(stopped, between[0]), between[1..]);
      assert between[0] in StartUnit(stopped, between[0]).running;
    }
  }

  /** With the gate down, services stay down exactly as long as the flag is
      absent; so a flag file that exists although creating it was reported as
      failed lets the next start from outside through. */
  lemma FlagAloneOpensTheGate(sd: Systemd, svcs: seq<Service>)
    requires !sd.gateActive && sd.running == {}
    ensures OutsideStarts(sd, svcs).running == {} <==> (!sd.flag || svcs == [])
  {
    if !sd.flag {
      ClosedStaysClosed(sd, svcs);
    } else if svcs != [] {
      OutsideStartsNeedTheGate(StartUnit(sd, svcs[0]), svcs[1..]);
      assert svcs[0] in StartUnit(sd, svcs[0]).running;
    }
  }

  /** Why the flag was set: the pool, if there is one, was confirmed mounted;
      the gate was ready outside maintenance, or a user's `array start` asked. */
  datatype Origin = Origin(poolConfirmed: bool, gateReady: bool, maintenance: bool, explicit: bool)

  ghost predicate Trusted(o: Origin) {
    o.poolConfirmed && (o.explicit || (o.gateReady && !o.maintenance))
  }

  // ----- what was done, in order -----

  /** A step without a state of its own here. */
  datatype Job =
    | RegenerateMounts | PersistStop | DrainJobs | DrainShareMutations | DrainAppActions | ClosePoolWrites
    | BeginStart | CheckDisks | OpenPoolWrites | PersistStart | AfterStart

  datatype Action =
    | FlagCleared | FlagSet | StoppedSet | StoppedCleared | UnitsWritten
    | Mount(where: string, disk: bool) | Unmount(where: string)
    | Start(service: Service) | Stop(service: Service) | GateStop
    | Task(job: Job)

  /** An action attempted, and whether it succeeded. */
  datatype Op = Op(what: Action, ok: bool)

  ghost function Oks(actions: seq<Action>): (ops: seq<Op>) {
    seq(|actions|, i requires 0 <= i < |actions| => Op(actions[i], true))
  }

  lemma OksOf(a: seq<Action>, b: seq<Action>)
    ensures Oks(a + b) == Oks(a) + Oks(b)
  {
  }

  ghost function Mounts(wheres: seq<string>, disk: bool): (actions: seq<Action>) {
    seq(|wheres|, i requires 0 <= i < |wheres| => Action.Mount(wheres[i], disk))
  }

  ghost function Unmounts(wheres: seq<string>): (actions: seq<Action>) {
    seq(|wheres|, i requires 0 <= i < |wheres| => Action.Unmount(wheres[i]))
  }

  ghost function Starts(services: seq<Service>): (actions: seq<Action>) {
    seq(|services|, i requires 0 <= i < |services| => Action.Start(services[i]))
  }

  ghost function Stops(services: seq<Service>): (actions: seq<Action>) {
    seq(|services|, i requires 0 <= i < |services| => Action.Stop(services[i]))
  }

  /** What was done since before: all of it succeeded. */
  ghost predicate Did(before: seq<Op>, after: seq<Op>, actions: seq<Action>) {
    after == before + Oks(actions)
  }

  lemma NothingDone(t: seq<Op>)
    ensures Did(t, t, [])
  {
  }

  /** Something was done, and only the last of it can have failed. */
  ghost predicate Broke(before: seq<Op>, after: seq<Op>) {
    |before| < |after| && after[..|before|] == before && forall i :: |before| <= i < |after| - 1 ==> after[i].ok
  }

  lemma Goes(before: seq<Op>, now: seq<Op>, actions: seq<Action>, next: Action)
    requires Did(before, now, actions)
    ensures Did(before, now + [Op(next, true)], actions + [next])
    ensures Broke(before, now + [Op(next, true)]) && Broke(before, now + [Op(next, false)])
  {
    OksOf(actions, [next]);
  }

  lemma GoesFar(before: seq<Op>, now: seq<Op>, actions: seq<Action>, after: seq<Op>, more: seq<Action>)
    requires Did(before, now, actions)
    ensures Did(now, after, more) ==> Did(before, after, actions + more)
    ensures Broke(now, after) ==> Broke(before, after)
  {
    OksOf(actions, more);
    if Broke(now, after) {
      assert forall i :: |before| <= i < |now| ==> after[i] == after[..|now|][i];
      assert after[..|before|] == after[..|now|][..|before|];
    }
  }

  /** Every step may fail unless calm. Creating a flag file can fail after the
      file exists, which torn remembers. trace has what was attempted, in order;
      the counters number the unit writes, mount attempts and rounds of dependent
      starts. */
  class Host {
    const calm: bool
    var sd: Systemd
    var stopped: bool
    var mounted: set<string>
    ghost var torn: bool
    ghost var origin: Option<Origin>
    ghost var unitWrites: nat
    ghost var mounts: nat
    ghost var rounds: nat
    ghost var trace: seq<Op>

    constructor (calm: bool, sd: Systemd, stopped: bool, mounted: set<string>)
      ensures this.calm == calm && this.sd == sd && this.stopped == stopped && this.mounted == mounted
      ensures !torn && origin == None && unitWrites == 0 && mounts == 0 && rounds == 0 && trace == []
    {
      this.calm, this.sd, this.stopped, this.mounted := calm, sd, stopped, mounted;
      torn, origin, unitWrites, mounts, rounds, trace := false, None, 0, 0, 0, [];
    }

    method Attempt(what: Action) returns (ok: bool)
      modifies this`trace
      ensures calm ==> ok
      ensures trace == old(trace) + [Op(what, ok)]
    {
      if calm { ok := true; } else { ok := *; }
      trace := trace + [Op(what, ok)];
    }

    /** A step that cannot fail. */
    method Note(what: Action)
      modifies this`trace
      ensures trace == old(trace) + [Op(what, true)]
    {
      trace := trace + [Op(what, true)];
    }

    method ClearFlag() returns (ok: bool)
      modifies this`sd, this`torn, this`trace
      ensures calm ==> ok
      ensures sd == if ok then old(sd).(flag := false) else old(sd)
      ensures torn == (old(torn) && !ok)
      ensures trace == old(trace) + [Op(FlagCleared, ok)]
    {
      ok := Attempt(FlagCleared);
      if ok {
        sd, torn := sd.(flag := false), false;
      }
    }

    ghost predicate PoolUp(pool: Option<string>)
      reads this`mounted
    {
      pool.None? || pool.value in mounted
    }

    /** setFlagReady; what was true when the flag was set is kept in origin. */
    method SetFlag(ghost pool: Option<string>, ghost gateReady: bool, ghost maintenance: bool, ghost explicit: bool)
      returns (ok: bool)
      modifies this`sd, this`torn, this`origin, this`trace
      ensures calm ==> ok
      ensures ok ==> sd == old(sd).(flag := true) && torn == old(torn)
      ensures !ok ==> (sd == old(sd) && torn == old(torn)) || (sd == old(sd).(flag := true) && torn)
      ensures sd != old(sd) || ok ==> origin == Some(Origin(PoolUp(pool), gateReady, maintenance, explicit))
      ensures origin == old(origin) || origin == Some(Origin(PoolUp(pool), gateReady, maintenance, explicit))
      ensures trace == old(trace) + [Op(FlagSet, ok)]
    {
      ok := Attempt(FlagSet);
      var created := true;
      if !ok { created := *; }
      if created {
        sd, origin := sd.(flag := true), Some(Origin(PoolUp(pool), gateReady, maintenance, explicit));
        if !ok {
          torn := true;
        }
      }
    }

    method SetStopped() returns (ok: bool)
      modifies this`stopped, this`trace
      ensures calm ==> ok
      ensures ok ==> stopped
      ensures stopped == old(stopped) || stopped
      ensures trace == old(trace) + [Op(StoppedSet, ok)]
    {
      ok := Attempt(StoppedSet);
      if ok {
        stopped := true;
      } else if * {
        stopped := true;
      }
    }

    method ClearStopped() returns (ok: bool)
      modifies this`stopped, this`trace
      ensures calm ==> ok
      ensures stopped == (old(stopped) && !ok)
      ensures trace == old(trace) + [Op(StoppedCleared, ok)]
    {
      ok := Attempt(StoppedCleared);
      if ok {
        stopped := false;
      }
    }

    /** writeUnits: the generator's write and the daemon-reload after it. */
    method WriteUnits() returns (ok: bool)
      modifies this`unitWrites, this`trace
      ensures calm ==> ok
      ensures unitWrites == old(unitWrites) + 1
      ensures trace == old(trace) + [Op(UnitsWritten, ok)]
    {
      unitWrites := unitWrites + 1;
      ok := Attempt(UnitsWritten);
    }

    /** `systemctl start` of a mount unit. With the array-stopped flag in place
        its condition fails, and the start is skipped without an error. */
    method Mount(where: string, disk: bool) returns (ok: bool)
      modifies this`mounted, this`mounts, this`trace
      ensures calm ==> ok
      ensures mounts == old(mounts) + 1
      ensures mounted == if ok && !stopped then old(mounted) + {where} else old(mounted)
      ensures trace == old(trace) + [Op(Action.Mount(where, disk), ok)]
    {
      mounts := mounts + 1;
      ok := Attempt(Action.Mount(where, disk));
      if ok && !stopped {
        mounted := mounted + {where};
      }
    }

    /** pool.IsMountedConfirmed. */
    method Mounted(where: string) returns (r: bool)
      ensures r ==> where in mounted
      ensures calm ==> r == (where in mounted)
    {
      r := where in mounted;
      if r && !calm { r := *; }
    }

    /** ServiceUnitController.Start: skipped for a unit that is not installed,
        masked or disabled, and only ever logged when it fails. */
    method StartService(svc: Service)
      modifies this`sd, this`trace
      ensures sd == old(sd) || sd == StartUnit(old(sd), svc)
      ensures trace == old(trace) + [Op(Action.Start(svc), true)]
    {
      trace := trace + [Op(Action.Start(svc), true)];
      var asked := *;
      if asked {
        sd := StartUnit(sd, svc);
      }
    }

    /** `systemctl start` of a service of the array sequence, whose error counts:
        it fails when its gate does. A disabled or masked unit is skipped. */
    method TryStart(svc: Service) returns (ok: bool)
      modifies this`sd, this`trace
      ensures sd == old(sd) || sd == StartUnit(old(sd), svc)
      ensures calm && old(sd).flag ==> ok
      ensures trace == old(trace) + [Op(Action.Start(svc), ok)]
    {
      ok := true;
      var asked := *;
      if asked {
        if !calm { ok := *; }
        if ok {
          ok := sd.gateActive || sd.flag;
          sd := StartUnit(sd, svc);
        }
      }
      trace := trace + [Op(Action.Start(svc), ok)];
    }

    /** `systemctl stop` of a mount unit. */
    method Unmount(where: string) returns (ok: bool)
      modifies this`mounted, this`trace
      ensures calm ==> ok
      ensures mounted == if ok then old(mounted) - {where} else old(mounted)
      ensures trace == old(trace) + [Op(Action.Unmount(where), ok)]
    {
      ok := Attempt(Action.Unmount(where));
      if ok {
        mounted := mounted - {where};
      }
    }

    /** ServiceUnitController.Stop. */
    method StopService(svc: Service) returns (ok: bool)
      modifies this`sd, this`trace
      ensures calm ==> ok
      ensures sd == if ok then old(sd).(running := old(sd).running - {svc}) else old(sd)
      ensures trace == old(trace) + [Op(Action.Stop(svc), ok)]
    {
      ok := Attempt(Action.Stop(svc));
      if ok {
        sd := sd.(running := sd.running - {svc});
      }
    }

    method StopGate() returns (ok: bool)
      modifies this`sd, this`trace
      ensures calm ==> ok
      ensures sd == if ok then StopGateUnit(old(sd)) else old(sd)
      ensures trace == old(trace) + [Op(GateStop, ok)]
    {
      ok := Attempt(GateStop);
      if ok {
        sd := StopGateUnit(sd);
      }
    }

    /** Any number of service starts from outside hoservad: a package update, a
        hand-run systemctl. */
    method Outside() returns (ghost started: seq<Service>)
      modifies this`sd
      ensures sd == OutsideStarts(old(sd), started)
      ensures sd.flag == old(sd).flag
      ensures !old(sd).flag && !old(sd).gateActive ==> sd == old(sd)
    {
      var svcs: seq<Service> := *;
      started := svcs;
      while svcs != []
        invariant OutsideStarts(sd, svcs) == OutsideStarts(old(sd), started)
        decreases |svcs|
      {
        sd, svcs := StartUnit(sd, svcs[0]), svcs[1..];
      }
      OutsideStartsNeedTheGate(old(sd), started);
    }
  }
}
