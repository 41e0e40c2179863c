/** cmd/mockapi/migrate.go: the handlers that take an Unraid installation
    through scan, import, verify and the point of no return, in the
    migration-pending scenario. The ghost log records what they did; Inv says
    that the handler's fields are exactly what the log says. */
module Migration {
  import opened Wrappers
  import opened MigrationLog
  import opened MigratedStacks

  datatype Code = ConfirmationRequired | InvalidFile | InvalidDevice | ZipOnly | InvalidRoles
    | NoReport | NoGo | NoReview | PlanRefused | ArrayExists | LayoutRefused
    | NoImportPending | VerifyRequired | MaintenanceMode | MigrationInProgress
    | ParityNotInitialized | InvalidSelection | SourceUnavailable | TemplateNotFound | WarningsNotAcknowledged
    | StackNotMigrated | AlreadyConfirmed | NoSuchStack | ArrayStopped | OtherUnconfirmed
    | NotStarted | CheckRequired | CheckFailed

  datatype Answer = Accepted(job: nat) | Refused(code: Code)
  datatype Status = Waiting | Succeeded | Failed
  datatype Job = Job(kind: Kind, group: Class, status: Status)

  /** A resolved mapping: the text to type for it, whether its disks can be
      laid out, and whether its cache is on a mirrored boot pool. */
  datatype Plan = Plan(confirmation: string, layoutOk: bool, mirroredCache: bool)

  /** disk.ParityInitFINISH_CONFIRMATION */
  const FINISH_CONFIRMATION := "FINISH PARITY INITIALISATION"

  /** The jobs are those the log says were queued. */
  ghost predicate Listed(jobs: seq<Job>, log: Log) {
    |jobs| == |Jobs(log)| && forall i :: 0 <= i < |jobs| ==> (jobs[i].kind, jobs[i].group) == Jobs(log)[i]
  }

  /** One more event, and the job it queued if it queued one. */
  lemma Recorded(log: Log, e: Event, jobs: seq<Job>, stacks: seq<Stack>, next: seq<Job>)
    requires Lawful(log) && !OfStack(e) && Permits(At(log), e) && Listed(jobs, log) && Reflects(stacks, log)
    requires e.Queued? ==>
      && |next| == |jobs| + 1 && next[..|jobs|] == jobs
      && (next[|jobs|].kind, next[|jobs|].group) == (e.kind, e.group)
    requires !e.Queued? ==> next == jobs
    ensures Lawful(log + [e]) && At(log + [e]) == After(At(log), e)
    ensures Listed(next, log + [e]) && Reflects(stacks, log + [e])
  {
    Logged(log, e);
    NoStack(log, e, stacks);
    forall i | 0 <= i < |next|
      ensures (next[i].kind, next[i].group) == Jobs(log + [e])[i]
    {
      assert i < |jobs| ==> next[i] == next[..|jobs|][i];
    }
  }

  lemma Seeded(report: Report)
    ensures Lawful([Reported(report)]) && Listed([], [Reported(report)]) && Reflects([], [Reported(report)])
    ensures At([Reported(report)]) == Phase(Some(report), None, None, 0, false, false)
  {
    Recorded([], Reported(report), [], [], []);
    assert [] + [Reported(report)] == [Reported(report)];
  }

  /** mockFlashDevice is the one stick on offer. */
  class Handler {
    const stopParityInit: bool
    const flashDevice: string
    /** The report the mock makes of an upload it has inspected, and of the stick
        with a layout unverified or not; either way the second argument tells
        whether there was a report before. */
    const upload: (int, bool) -> Report
    const stick: (bool, bool) -> Report
    const planFor: (int, seq<Assignment>) -> Option<Plan>

    var maintenance: bool
    var jobs: seq<Job>
    var report: Option<Report>
    var device: string
    var imported: bool
    var roles: seq<Assignment>
    var verify: Option<bool>
    var verifyRuns: nat
    var initialized: bool
    var finishing: bool
    var containers: seq<Stack>
    ghost var log: Log

    ghost predicate Session()
      reads this`report, this`imported, this`roles, this`verify, this`verifyRuns
      reads this`initialized, this`finishing, this`log
    {
      At(log) == Phase(report, if imported then Some(roles) else None, verify, verifyRuns, finishing, initialized)
    }

    ghost predicate Inv()
      reads this
    {
      Lawful(log) && Session() && Listed(jobs, log) && Reflects(containers, log)
    }

    constructor (stop: bool, flashDevice: string, upload: (int, bool) -> Report, stick: (bool, bool) -> Report,
                 planFor: (int, seq<Assignment>) -> Option<Plan>, seeded: Report)
      ensures Inv() && log == [Reported(seeded)] && stopParityInit == stop
      ensures !maintenance && jobs == [] && containers == []
    {
      stopParityInit, this.flashDevice := stop, flashDevice;
      this.upload, this.stick, this.planFor := upload, stick, planFor;
      maintenance, jobs, report, device := false, [], Some(seeded), "";
      imported, roles, verify, verifyRuns, initialized, finishing := false, [], None, 0, false, false;
      containers, log := [], [Reported(seeded)];
      new;
      hide Lawful, At, Listed, Reflects;
      Seeded(seeded);
    }

    predicate Unfinished()
      reads this`imported, this`finishing
    {
      imported || finishing
    }

    /** mockArrayDisks(arrayScenario()) is not nil. */
    predicate ArrayServed()
      reads this`imported, this`finishing, this`initialized
    {
      imported || initialized || finishing
    }

    /** queueMockJobIn: the guard every job of a class passes. */
    method Queue(kind: Kind, group: Class) returns (r: Answer)
      requires Inv()
      modifies this`jobs, this`log
      ensures Inv()
      ensures r == if maintenance then Refused(MaintenanceMode)
                   else if Unfinished() && !LetThrough(kind, group) then Refused(MigrationInProgress)
                   else Accepted(|old(jobs)|)
      ensures jobs == if r.Accepted? then old(jobs) + [Job(kind, group, Waiting)] else old(jobs)
      ensures log == if r.Accepted? then old(log) + [Queued(kind, group)] else old(log)
    {
      hide Lawful, At, Listed, Reflects, Jobs, LifeOf;
      if maintenance {
        return Refused(MaintenanceMode);
      }
      if group != Service && group != Vm &&
         kind != MigrationImport && kind != MigrationVerify && kind != MigrationParity && Unfinished() {
        return Refused(MigrationInProgress);
      }
      r := Accepted(|jobs|);
      Recorded(log, Queued(kind, group), jobs, containers, jobs + [Job(kind, group, Waiting)]);
      jobs := jobs + [Job(kind, group, Waiting)];
      log := log + [Queued(kind, group)];
    }

    /** submitParityJob: the guard of sync, scrub and fix. */
    method SubmitParity(kind: Kind) returns (r: Answer)
      requires Inv()
      modifies this`jobs, this`log
      ensures Inv()
      ensures r == if maintenance then Refused(MaintenanceMode)
                   else if Unfinished() then Refused(MigrationInProgress)
                   else Accepted(|old(jobs)|)
      ensures jobs == if r.Accepted? then old(jobs) + [Job(kind, Class.Parity, Waiting)] else old(jobs)
      ensures log == if r.Accepted? then old(log) + [Queued(kind, Class.Parity)] else old(log)
    {
      hide Lawful, At, Listed, Reflects, Jobs, LifeOf;
      if maintenance {
        return Refused(MaintenanceMode);
      }
      if Unfinished() {
        return Refused(MigrationInProgress);
      }
      r := Accepted(|jobs|);
      Recorded(log, Queued(kind, Class.Parity), jobs, containers, jobs + [Job(kind, Class.Parity, Waiting)]);
      jobs := jobs + [Job(kind, Class.Parity, Waiting)];
      log := log + [Queued(kind, Class.Parity)];
    }

    method End(job: nat, status: Status)
      requires Inv() && job < |jobs|
      modifies this`jobs
      ensures Inv() && jobs == old(jobs)[job := old(jobs)[job].(status := status)]
    {
      jobs := jobs[job := jobs[job].(status := status)];
    }

    /** StartMigrationScan; flash is the upload, if it could be inspected. */
    method Scan(flash: Option<int>) returns (r: Answer)
      requires Inv()
      modifies this`jobs, this`log, this`report, this`device
      ensures Inv()
      ensures r.Accepted? <==> flash.Some? && !maintenance && !Unfinished()
      ensures r.Refused? ==>
        r.code == (if flash.None? then InvalidFile else if maintenance then MaintenanceMode else MigrationInProgress)
      ensures r.Accepted? ==> report == Some(upload(flash.value, old(report).Some?)) && device == ""
      ensures r.Accepted? ==> log == old(log) + [Queued(MigrationScan, Topology), Reported(report.value)]
      ensures r.Refused? ==> unchanged(this)
    {
      hide Lawful, At, Listed, Reflects, Jobs, LifeOf;
      if flash.None? {
        return Refused(InvalidFile);
      }
      r := Queue(MigrationScan, Topology);
      if r.Accepted? {
        FinishScan(r.job, upload(flash.value, report.Some?), "");
      }
    }

    /** A scan done as soon as it is queued. */
    method FinishScan(job: nat, made: Report, dev: string)
      requires Inv() && job < |jobs| && !Unfinished()
      modifies this`jobs, this`log, this`report, this`device
      ensures Inv() && report == Some(made) && device == dev
      ensures jobs == old(jobs)[job := old(jobs)[job].(status := Succeeded)]
      ensures log == old(log) + [Reported(made)]
    {
      hide Lawful, At, Listed, Reflects, Jobs, LifeOf;
      End(job, Succeeded);
      Recorded(log, Reported(made), jobs, containers, jobs);
      log, report, device := log + [Reported(made)], Some(made), dev;
    }

    /** StartMigrationDeviceScan. */
    method DeviceScan(dev: string, unverified: bool) returns (r: Answer)
      requires Inv()
      modifies this`jobs, this`log, this`report, this`device
      ensures Inv()
      ensures r.Accepted? <==>
        && dev != "" && dev == flashDevice && !maintenance && !Unfinished()
        && !(old(report).Some? && old(report).value.internalBoot)
      ensures r.Refused? ==>
        r.code == (if dev == "" then InvalidDevice
                   else if old(report).Some? && old(report).value.internalBoot then ZipOnly
                   else if dev != flashDevice then InvalidDevice
                   else if maintenance then MaintenanceMode
                   else MigrationInProgress)
      ensures r.Accepted? ==> report == Some(stick(unverified, old(report).Some?)) && device == dev
      ensures r.Accepted? ==> log == old(log) + [Queued(MigrationScan, Topology), Reported(report.value)]
      ensures r.Refused? ==> unchanged(this)
    {
      hide Lawful, At, Listed, Reflects, Jobs, LifeOf;
      if dev == "" {
        return Refused(InvalidDevice);
      }
      if report.Some? && report.value.internalBoot {
        return Refused(ZipOnly);
      }
      if dev != flashDevice {
        return Refused(InvalidDevice);
      }
      r := Queue(MigrationScan, Topology);
      if r.Accepted? {
        FinishScan(r.job, stick(unverified, report.Some?), dev);
      }
    }

    /** ForgetMigration. */
    method Forget() returns (ok: bool)
      requires Inv()
      modifies this`log, this`report, this`device
      ensures Inv()
      ensures ok <==> !Unfinished()
      ensures ok ==> report == None && device == "" && log == old(log) + [Forgotten]
      ensures !ok ==> unchanged(this)
    {
      hide Lawful, At, Listed, Reflects, Jobs, LifeOf;
      if Unfinished() {
        return false;
      }
      Recorded(log, Forgotten, jobs, containers, jobs);
      log, report, device := log + [Forgotten], None, "";
      return true;
    }

    /** The mapping resolved over the report, when the report can be imported. */
    function ImportPlan(rep: Option<Report>, mapping: seq<Assignment>): (r: Option<Plan>) {
      if rep.Some? && rep.value.go && rep.value.review.Some? then planFor(rep.value.review.value, mapping) else None
    }

    /** StartMigrationImport without undo. */
    method Import(confirm: bool, mapping: seq<Assignment>) returns (r: Answer)
      requires Inv()
      modifies this`jobs, this`log, this`imported, this`roles, this`verify
      ensures Inv()
      ensures r.Accepted? <==>
        && confirm && mapping != [] && !maintenance && (old(imported) || !old(ArrayServed()))
        && ImportPlan(report, mapping).Some? && ImportPlan(report, mapping).value.layoutOk
      ensures r.Refused? ==>
        r.code == (if !confirm then ConfirmationRequired
                   else if mapping == [] then InvalidRoles
                   else if report.None? then NoReport
                   else if !report.value.go then NoGo
                   else if report.value.review.None? then NoReview
                   else if ImportPlan(report, mapping).None? then PlanRefused
                   else if ArrayServed() && !imported then ArrayExists
                   else if !ImportPlan(report, mapping).value.layoutOk then LayoutRefused
                   else MaintenanceMode)
      ensures r.Accepted? ==> imported && roles == mapping && verify == None
      ensures r.Accepted? ==> log == old(log) + [Queued(MigrationImport, Topology), Imported(mapping)]
      ensures r.Refused? ==> unchanged(this)
    {
      hide Lawful, At, Listed, Reflects, Jobs, LifeOf;
      if !confirm {
        return Refused(ConfirmationRequired);
      }
      if mapping == [] {
        return Refused(InvalidRoles);
      }
      if report.None? {
        return Refused(NoReport);
      }
      if !report.value.go {
        return Refused(NoGo);
      }
      if report.value.review.None? {
        return Refused(NoReview);
      }
      var plan := planFor(report.value.review.value, mapping);
      if plan.None? {
        return Refused(PlanRefused);
      }
      if ArrayServed() && !imported {
        return Refused(ArrayExists);
      }
      if !plan.value.layoutOk {
        return Refused(LayoutRefused);
      }
      r := Queue(MigrationImport, Topology);
      if r.Accepted? {
        Adopt(r.job, mapping);
      }
    }

    /** The rest of StartMigrationImport, once its job is queued. */
    method Adopt(job: nat, mapping: seq<Assignment>)
      requires Inv() && job < |jobs| && (imported || !ArrayServed())
      modifies this`jobs, this`log, this`imported, this`roles, this`verify
      ensures Inv() && imported && roles == mapping && verify == None
      ensures jobs == old(jobs)[job := old(jobs)[job].(status := Succeeded)]
      ensures log == old(log) + [Imported(mapping)]
    {
      hide Lawful, At, Listed, Reflects, Jobs, LifeOf;
      End(job, Succeeded);
      OnePhase(log);
      Recorded(log, Imported(mapping), jobs, containers, jobs);
      log, roles, verify, imported := log + [Imported(mapping)], mapping, None, true;
    }

    /** StartMigrationImport with undo. */
    method Undo(confirm: bool, mapping: seq<Assignment>) returns (r: Answer)
      requires Inv()
      modifies this`jobs, this`log, this`imported, this`roles, this`verify
      ensures Inv()
      ensures r.Accepted? <==> confirm && mapping == [] && old(imported) && !maintenance
      ensures r.Refused? ==>
        r.code == (if !confirm then ConfirmationRequired
                   else if mapping != [] then InvalidRoles
                   else if !imported then NoImportPending
                   else MaintenanceMode)
      ensures r.Accepted? ==>
        !imported && verify == None && log == old(log) + [Queued(MigrationImport, Topology), Undone]
      ensures r.Refused? ==> unchanged(this)
    {
      hide Lawful, At, Listed, Reflects, Jobs, LifeOf;
      if !confirm {
        return Refused(ConfirmationRequired);
      }
      if mapping != [] {
        return Refused(InvalidRoles);
      }
      if !imported {
        return Refused(NoImportPending);
      }
      r := Queue(MigrationImport, Topology);
      if r.Accepted? {
        TakeBack(r.job);
      }
    }

    /** The rest of undoMigrationImport, once its job is queued. */
    method TakeBack(job: nat)
      requires Inv() && job < |jobs| && imported
      modifies this`jobs, this`log, this`imported, this`roles, this`verify
      ensures Inv() && !imported && verify == None
      ensures jobs == old(jobs)[job := old(jobs)[job].(status := Succeeded)]
      ensures log == old(log) + [Undone]
    {
      hide Lawful, At, Listed, Reflects, Jobs, LifeOf;
      End(job, Succeeded);
      Recorded(log, Undone, jobs, containers, jobs);
      log, roles, verify, imported := log + [Undone], [], None, false;
    }

    /** StartMigrationVerify: the mock's first run fails, every later one passes. */
    method Verify() returns (r: Answer)
      requires Inv()
      modifies this`jobs, this`log, this`verify, this`verifyRuns
      ensures Inv()
      ensures r.Accepted? <==> imported && !maintenance
      ensures r.Refused? ==> r.code == if imported then MaintenanceMode else NoImportPending
      ensures r.Accepted? ==> verify == Some(old(verifyRuns) > 0)
      ensures r.Accepted? ==> log == old(log) + [Queued(MigrationVerify, Topology), Verified(verify.value)]
      ensures r.Accepted? ==>
        jobs == old(jobs) + [Job(MigrationVerify, Topology, if verify.value then Succeeded else Failed)]
      ensures r.Refused? ==> unchanged(this)
    {
      hide Lawful, At, Listed, Reflects, Jobs, LifeOf;
      if !imported {
        return Refused(NoImportPending);
      }
      r := Queue(MigrationVerify, Topology);
      if r.Accepted? {
        FinishVerify(r.job);
      }
    }

    /** The rest of StartMigrationVerify, once its job is queued. */
    method FinishVerify(job: nat)
      requires Inv() && job < |jobs| && imported
      modifies this`jobs, this`log, this`verify, this`verifyRuns
      ensures Inv() && verify == Some(old(verifyRuns) > 0)
      ensures jobs == old(jobs)[job := old(jobs)[job].(status := if verify.value then Succeeded else Failed)]
      ensures log == old(log) + [Verified(verify.value)]
    {
      hide Lawful, At, Listed, Reflects, Jobs, LifeOf;
      var passed := verifyRuns > 0;
      End(job, if passed then Succeeded else Failed);
      Recorded(log, Verified(passed), jobs, containers, jobs);
      log, verify, verifyRuns := log + [Verified(passed)], Some(passed), verifyRuns + 1;
    }

    /** mockParityPlan */
    function ParityPlan(): (r: Option<Plan>)
      reads this`report, this`roles
    {
      if report.None? || report.value.review.None? then None
      else
        var plan := planFor(report.value.review.value, roles);
        if plan.None? || plan.value.mirroredCache then None else plan
    }

    /** InitializeMigrationParity, whose finishing half is FinishParity. */
    method InitializeParity(confirmation: string) returns (r: Answer)
      requires Inv()
      modifies this`jobs, this`log, this`imported, this`verify, this`initialized, this`finishing
      ensures Inv()
      ensures old(finishing) ==>
        (r.Accepted? <==> !maintenance && confirmation != "" && confirmation == FINISH_CONFIRMATION)
      ensures !old(finishing) ==>
        (r.Accepted? <==>
          && !maintenance && old(imported) && old(verify) == Some(true)
          && ParityPlan().Some? && confirmation != "" && confirmation == ParityPlan().value.confirmation)
      ensures r.Refused? && !finishing ==>
        r.code == (if !imported then NoImportPending
                   else if verify != Some(true) then VerifyRequired
                   else if ParityPlan().None? then PlanRefused
                   else if confirmation != "" && confirmation == ParityPlan().value.confirmation then MaintenanceMode
                   else ConfirmationRequired)
      ensures r.Refused? && finishing ==>
        r.code == if confirmation == FINISH_CONFIRMATION then MaintenanceMode else ConfirmationRequired
      ensures r.Accepted? ==> !imported && finishing == (!old(finishing) && stopParityInit) && initialized == !finishing
      ensures r.Accepted? && finishing ==>
        && jobs == old(jobs) + [Job(MigrationParity, Topology, Failed)]
        && log == old(log) + [Queued(MigrationParity, Topology), Formatted(true)]
      ensures r.Accepted? && !finishing ==>
        && jobs == old(jobs) + [Job(MigrationParity, Topology, Succeeded), Job(Sync, Class.Parity, Waiting)]
        && var past := if old(finishing) then Completed else Formatted(false);
           log == old(log) + [Queued(MigrationParity, Topology), past, Queued(Sync, Class.Parity)]
      ensures r.Refused? ==> unchanged(this)
      // The plan is of the roles imported, over the report's disks, and none with a
      // cache on a mirrored boot pool is one.
      ensures r.Accepted? && !old(finishing) ==>
        && report.Some? && report.value.review.Some?
        && planFor(report.value.review.value, roles).Some?
        && var p := planFor(report.value.review.value, roles).value; !p.mirroredCache && confirmation == p.confirmation
      ensures r == Refused(PlanRefused) ==>
        || report.None? || report.value.review.None? || planFor(report.value.review.value, roles).None?
        || planFor(report.value.review.value, roles).value.mirroredCache
    {
      hide Lawful, At, Listed, Reflects, Jobs, LifeOf;
      if finishing {
        r := FinishParity(confirmation);
        return;
      }
      if !imported {
        return Refused(NoImportPending);
      }
      if verify != Some(true) {
        return Refused(VerifyRequired);
      }
      var plan := ParityPlan();
      if plan.None? {
        return Refused(PlanRefused);
      }
      if confirmation == "" || confirmation != plan.value.confirmation {
        return Refused(ConfirmationRequired);
      }
      r := Queue(MigrationParity, Topology);
      if r.Accepted? {
        PassThePoint(r.job);
      }
    }

    /** The rest of InitializeMigrationParity, once its job is queued. */
    method PassThePoint(job: nat)
      requires Inv() && imported && verify == Some(true) && !maintenance && job < |jobs|
      modifies this`jobs, this`log, this`imported, this`verify, this`initialized, this`finishing
      ensures Inv() && !imported && finishing == stopParityInit && initialized == !finishing
      ensures finishing ==>
        && jobs == old(jobs)[job := old(jobs)[job].(status := Failed)]
        && log == old(log) + [Formatted(true)]
      ensures !finishing ==>
        && jobs == old(jobs)[job := old(jobs)[job].(status := Succeeded)] + [Job(Sync, Class.Parity, Waiting)]
        && log == old(log) + [Formatted(false), Queued(Sync, Class.Parity)]
    {
      hide Lawful, At, Listed, Reflects, Jobs, LifeOf;
      OnePhase(log);
      Recorded(log, Formatted(stopParityInit), jobs, containers, jobs);
      verify := None;
      if stopParityInit {
        finishing := true;
      } else {
        initialized := true;
      }
      imported, log := false, log + [Formatted(stopParityInit)];
      EndParity(job, stopParityInit);
    }

    /** finishMigrationParity */
    method FinishParity(confirmation: string) returns (r: Answer)
      requires Inv() && finishing
      modifies this`jobs, this`log, this`initialized, this`finishing
      ensures Inv()
      ensures r.Accepted? <==> !maintenance && confirmation != "" && confirmation == FINISH_CONFIRMATION
      ensures r.Refused? ==>
        r.code == if confirmation == FINISH_CONFIRMATION then MaintenanceMode else ConfirmationRequired
      ensures r.Accepted? ==> !finishing && initialized && !imported
      ensures r.Accepted? ==>
        jobs == old(jobs) + [Job(MigrationParity, Topology, Succeeded), Job(Sync, Class.Parity, Waiting)]
      ensures r.Accepted? ==>
        log == old(log) + [Queued(MigrationParity, Topology), Completed, Queued(Sync, Class.Parity)]
      ensures r.Refused? ==> unchanged(this)
    {
      hide Lawful, At, Listed, Reflects, Jobs, LifeOf;
      if confirmation == "" || confirmation != FINISH_CONFIRMATION {
        return Refused(ConfirmationRequired);
      }
      r := Queue(MigrationParity, Topology);
      if r.Accepted? {
        OnePhase(log);
        Recorded(log, Completed, jobs, containers, jobs);
        log, initialized, finishing := log + [Completed], true, false;
        EndParity(r.job, false);
      }
    }

    /** endMockParityJob: success queues the initial sync, after the migration
        stopped being pending. */
    method EndParity(job: nat, failed: bool)
      requires Inv() && job < |jobs|
      modifies this`jobs, this`log
      ensures Inv()
      ensures failed ==> log == old(log) && jobs == old(jobs)[job := old(jobs)[job].(status := Failed)]
      ensures !failed && !maintenance && !Unfinished() ==>
        && log == old(log) + [Queued(Sync, Class.Parity)]
        && jobs == old(jobs)[job := old(jobs)[job].(status := Succeeded)] + [Job(Sync, Class.Parity, Waiting)]
      ensures !failed && (maintenance || Unfinished()) ==>
        log == old(log) && jobs == old(jobs)[job := old(jobs)[job].(status := Failed)]
    {
      hide Lawful, At, Listed, Reflects, Jobs, LifeOf;
      var status := if failed then Failed else Succeeded;
      if !failed {
        var sync := SubmitParity(Sync);
        if sync.Refused? {
          status := Failed;
        }
      }
      End(job, status);
    }
  }
}
