/** What the Unraid migration of cmd/mockapi/migrate.go has been through, as a
    log of the things its handlers did, and the laws every log obeys. Allowed
    says when the protocol lets an event happen; the lemmas say what that means
    for whole runs, by position in the log. */
module MigrationLog {
  import opened Wrappers

  /** The scan's result: its verdict, whether it has a disk table to review
      (and which), and whether Unraid booted from an internal disk. */
  datatype Report = Report(go: bool, review: Option<int>, internalBoot: bool)
  datatype Assignment = Assignment(role: string, disk: string)

  datatype Kind = MigrationScan | MigrationImport | MigrationVerify | MigrationParity
    | Sync | StackStart | Other(name: string)
  datatype Class = Service | Vm | Topology | Parity | ArrayWrite

  datatype Event =
    | Reported(report: Report)
    | Forgotten
    | Imported(roles: seq<Assignment>)
    | Undone
    | Verified(passed: bool)
    | Formatted(halted: bool)      // the point of no return, stopping half-way or not
    | Completed                    // a half-way initialisation finished
    | Queued(kind: Kind, group: Class)
    | Made(source: string)
    | Begun(source: string)
    | Checked(source: string, ok: bool)
    | Confirmed(source: string, accepted: bool)

  type Log = seq<Event>

  // What the log says about now.

  /** The roles of an import waiting for its point of no return. */
  ghost function Pending(log: Log): (r: Option<seq<Assignment>>) {
    if log == [] then None
    else match log[|log| - 1]
      case Imported(roles) => Some(roles)
      case Undone => None
      case Formatted(_) => None
      case _ => Pending(log[..|log| - 1])
  }

  /** Formatted, and stopped there. */
  ghost predicate Halfway(log: Log) {
    log != [] && match log[|log| - 1]
      case Formatted(halted) => halted
      case Completed => false
      case _ => Halfway(log[..|log| - 1])
  }

  ghost predicate Done(log: Log) {
    log != [] && (log[|log| - 1] in {Formatted(false), Completed} || Done(log[..|log| - 1]))
  }

  ghost predicate Unfinished(log: Log) {
    Pending(log).Some? || Halfway(log)
  }

  /** The result of the latest verify of this import. */
  ghost function Latest(log: Log): (r: Option<bool>) {
    if log == [] then None
    else match log[|log| - 1]
      case Verified(passed) => Some(passed)
      case Imported(_) => None
      case Undone => None
      case Formatted(_) => None
      case _ => Latest(log[..|log| - 1])
  }

  ghost function Runs(log: Log): (n: nat) {
    if log == [] then 0 else Runs(log[..|log| - 1]) + if log[|log| - 1].Verified? then 1 else 0
  }

  ghost function ReportOf(log: Log): (r: Option<Report>) {
    if log == [] then None
    else match log[|log| - 1]
      case Reported(report) => Some(report)
      case Forgotten => None
      case _ => ReportOf(log[..|log| - 1])
  }

  ghost function Jobs(log: Log): (r: seq<(Kind, Class)>) {
    if log == [] then []
    else Jobs(log[..|log| - 1]) + if log[|log| - 1].Queued? then [(log[|log| - 1].kind, log[|log| - 1].group)] else []
  }

  /** How far the stack made from source has come. */
  datatype Life = Nothing | Ready | Running(check: Option<bool>) | Kept

  ghost function LifeOf(log: Log, source: string): (r: Life) {
    if log == [] then Nothing
    else
      var before := LifeOf(log[..|log| - 1], source);
      match log[|log| - 1]
      case Made(s) => if s == source then Ready else before
      case Begun(s) => if s == source then Running(None) else before
      case Checked(s, ok) => if s == source && before.Running? then Running(Some(ok)) else before
      case Confirmed(s, _) => if s == source then Kept else before
      case _ => before
  }

  /** A job the migration lets through while it is unfinished. */
  predicate LetThrough(kind: Kind, group: Class) {
    group in {Service, Vm} || kind in {MigrationImport, MigrationVerify, MigrationParity}
  }

  /** What the log says about the migration, gathered. */
  datatype Phase = Phase(report: Option<Report>, pending: Option<seq<Assignment>>, verify: Option<bool>,
                         runs: nat, halfway: bool, done: bool)

  ghost function At(log: Log): (r: Phase) {
    Phase(ReportOf(log), Pending(log), Latest(log), Runs(log), Halfway(log), Done(log))
  }

  predicate OfStack(e: Event) {
    e.Made? || e.Begun? || e.Checked? || e.Confirmed?
  }

  /** When an event of the migration itself may happen. */
  predicate Permits(p: Phase, e: Event)
    requires !OfStack(e)
  {
    var unfinished := p.pending.Some? || p.halfway;
    match e
    case Reported(_) => !unfinished
    case Forgotten => !unfinished
    case Imported(_) => !p.halfway && !p.done
    case Undone => p.pending.Some?
    case Verified(passed) => p.pending.Some? && passed == (p.runs > 0)
    case Formatted(_) => p.pending.Some? && p.verify == Some(true)
    case Completed => p.halfway
    case Queued(kind, group) => unfinished ==> LetThrough(kind, group)
  }

  ghost predicate Allowed(log: Log, e: Event) {
    if !OfStack(e) then Permits(At(log), e)
    else
      match e
      case Made(_) => Done(log)
      case Begun(s) =>
        LifeOf(log, s) !in {Nothing, Kept} && forall t :: t != s ==> !LifeOf(log, t).Running?
      case Checked(s, _) => LifeOf(log, s).Running?
      case Confirmed(s, accepted) =>
        LifeOf(log, s).Running? && LifeOf(log, s).check.Some? && (LifeOf(log, s).check.value || accepted)
  }

  ghost predicate Lawful(log: Log) {
    log == [] || (Lawful(log[..|log| - 1]) && Allowed(log[..|log| - 1], log[|log| - 1]))
  }

  // Whole runs.

  lemma {:induction false} LawfulPrefix(log: Log, i: nat)
    requires Lawful(log) && i <= |log|
    ensures Lawful(log[..i])
    ensures i < |log| ==> Allowed(log[..i], log[i])
    decreases |log|
  {
    if i == |log| {
      assert log[..i] == log;
    } else if i < |log| - 1 {
      LawfulPrefix(log[..|log| - 1], i);
      assert log[..|log| - 1][..i] == log[..i];
    }
  }

  /** A migration is pending, half-way or done, never two of these. */
  lemma {:induction false} PhasesAreDisjoint(log: Log)
    requires Lawful(log)
    ensures !(Pending(log).Some? && Halfway(log))
    ensures !(Pending(log).Some? && Done(log))
    ensures !(Halfway(log) && Done(log))
    decreases |log|
  {
    if log != [] {
      PhasesAreDisjoint(log[..|log| - 1]);
    }
  }


  /** An import pending now is the latest one: nothing undid or used it since,
      and the report is still the one it was made from. */
  lemma {:induction false} PendingSince(log: Log) returns (p: nat)
    requires Lawful(log) && Pending(log).Some?
    ensures p < |log| && log[p] == Imported(Pending(log).value)
    ensures forall k :: p < k < |log| ==> !(log[k].Imported? || log[k].Undone? || log[k].Formatted?)
    ensures ReportOf(log[..p]) == ReportOf(log)
    decreases |log|
  {
    var shorter := log[..|log| - 1];
    if log[|log| - 1].Imported? {
      p := |log| - 1;
    } else {
      p := PendingSince(shorter);
      assert shorter[..p] == log[..p];
      forall k | p < k < |log|
        ensures !(log[k].Imported? || log[k].Undone? || log[k].Formatted?)
      {
        assert k < |log| - 1 ==> log[k] == shorter[k];
      }
    }
  }

  lemma {:induction false} LatestSince(log: Log) returns (v: nat)
    requires Latest(log).Some?
    ensures v < |log| && log[v] == Verified(Latest(log).value)
    ensures forall k :: v < k < |log| ==> !(log[k].Verified? || log[k].Imported? || log[k].Undone? || log[k].Formatted?)
    ensures forall k :: v < k < |log| ==> !log[k].Verified?
    decreases |log|
  {
    var shorter := log[..|log| - 1];
    if log[|log| - 1].Verified? {
      v := |log| - 1;
    } else {
      v := LatestSince(shorter);
      forall k | v < k < |log|
        ensures !(log[k].Verified? || log[k].Imported? || log[k].Undone? || log[k].Formatted?)
      {
        assert k < |log| - 1 ==> log[k] == shorter[k];
      }
    }
  }

  lemma {:induction false} FirstRun(log: Log) returns (f: nat)
    requires Lawful(log) && Runs(log) > 0
    ensures f < |log| && log[f] == Verified(false) && Runs(log[..f]) == 0
    decreases |log|
  {
    var shorter := log[..|log| - 1];
    if Runs(shorter) > 0 {
      f := FirstRun(shorter);
      assert shorter[..f] == log[..f];
    } else {
      f := |log| - 1;
    }
  }

  /** Every point of no return comes after a passing verify, which comes after
      the import it verified, with no import or undo between or since; it is
      never the first verify; and the report and the roles the plan is resolved
      from are those that were imported. */
  lemma {:induction false} FormattingFollowsAPassedVerify(log: Log, i: nat) returns (p: nat, v: nat, f: nat)
    requires Lawful(log) && i < |log| && log[i].Formatted?
    ensures f < v && p < v < i
    ensures Pending(log[..i]).Some? && log[p] == Imported(Pending(log[..i]).value)
    ensures log[v] == Verified(true) && log[f] == Verified(false)
    ensures forall k :: p < k < i ==> !(log[k].Imported? || log[k].Undone? || log[k].Formatted?)
    ensures forall k :: v < k < i ==> !log[k].Verified?
    ensures ReportOf(log[..p]) == ReportOf(log[..i])
  {
    hide Lawful, Allowed, Pending, Latest, Runs, ReportOf;
    FormattedNeeds(log, i);
    var now := log[..i];
    p := PendingSince(now);
    v := LatestSince(now);
    VerifiedNeeds(log, v);
    f := FirstRun(log[..v]);
    assert now[..p] == log[..p];
    assert p != v && !(v < p);
  }

  lemma FormattedNeeds(log: Log, i: nat)
    requires Lawful(log) && i < |log| && log[i].Formatted?
    ensures Lawful(log[..i]) && Pending(log[..i]).Some? && Latest(log[..i]) == Some(true)
  {
    LawfulPrefix(log, i);
  }

  lemma VerifiedNeeds(log: Log, v: nat)
    requires Lawful(log) && v < |log| && log[v].Verified?
    ensures Lawful(log[..v]) && (log[v].passed <==> Runs(log[..v]) > 0)
  {
    LawfulPrefix(log, v);
  }

  /** The disks are formatted at most once in any run, and from then on nothing
      is imported, verified or undone. */
  lemma {:induction false} PastThePoint(log: Log, i: nat)
    requires Lawful(log) && i < |log| && log[i].Formatted?
    ensures Halfway(log) || Done(log)
    ensures forall k :: i < k < |log| ==> !(log[k].Imported? || log[k].Undone? || log[k].Verified? || log[k].Formatted?)
    decreases |log|
  {
    if i < |log| - 1 {
      var shorter := log[..|log| - 1];
      PastThePoint(shorter, i);
      PhasesAreDisjoint(shorter);
      forall k | i < k < |log|
        ensures !(log[k].Imported? || log[k].Undone? || log[k].Verified? || log[k].Formatted?)
      {
        assert k < |log| - 1 ==> log[k] == shorter[k];
      }
    }
  }

  lemma {:induction false} DoneWasFormatted(log: Log) returns (i: nat)
    requires Lawful(log) && (Done(log) || Halfway(log))
    ensures i < |log| && log[i].Formatted?
    decreases |log|
  {
    if log[|log| - 1].Formatted? {
      i := |log| - 1;
    } else {
      i := DoneWasFormatted(log[..|log| - 1]);
    }
  }

  lemma {:induction false} DoneStays(log: Log, i: nat)
    requires i <= |log| && Done(log[..i])
    ensures Done(log)
    decreases |log|
  {
    if i < |log| {
      assert log[..|log| - 1][..i] == log[..i];
      DoneStays(log[..|log| - 1], i);
    } else {
      assert log[..i] == log;
    }
  }

  /** Once finished, it is never imported, undone or unfinished again. */
  lemma FinishedForGood(log: Log, i: nat)
    requires Lawful(log) && i <= |log| && Done(log[..i])
    ensures !Unfinished(log)
    ensures forall k :: i <= k < |log| ==>
      !(log[k].Imported? || log[k].Undone? || log[k].Verified? || log[k].Formatted? || log[k].Completed?)
  {
    DoneStays(log, i);
    PhasesAreDisjoint(log);
    forall k | i <= k < |log|
      ensures !(log[k].Imported? || log[k].Undone? || log[k].Verified? || log[k].Formatted? || log[k].Completed?)
    {
      LawfulPrefix(log, k);
      assert log[..k][..i] == log[..i];
      DoneStays(log[..k], i);
      PhasesAreDisjoint(log[..k]);
    }
  }

  /** While a migration is unfinished the report is the one at its start, and
      every job queued is the migration's own or a service or VM job. */
  lemma {:induction false} WhileUnfinished(log: Log, i: nat)
    requires Lawful(log) && i <= |log|
    requires forall k :: i <= k <= |log| ==> Unfinished(log[..k])
    ensures ReportOf(log) == ReportOf(log[..i])
    ensures forall k :: i <= k < |log| && log[k].Queued? ==> LetThrough(log[k].kind, log[k].group)
    decreases |log|
  {
    if i == |log| {
      assert log[..i] == log;
    } else {
      var shorter := log[..|log| - 1];
      forall k | i <= k <= |shorter|
        ensures Unfinished(shorter[..k])
      {
        assert shorter[..k] == log[..k];
      }
      WhileUnfinished(shorter, i);
      assert shorter[..i] == log[..i] && shorter[..|shorter|] == shorter;
      forall k | i <= k < |log| && log[k].Queued?
        ensures LetThrough(log[k].kind, log[k].group)
      {
        assert k < |log| - 1 ==> log[k] == shorter[k];
      }
    }
  }

  // The stacks.

  lemma {:induction false} RunningSince(log: Log, s: string) returns (b: nat, c: nat)
    requires LifeOf(log, s).Running?
    ensures b < |log| && log[b] == Begun(s)
    ensures forall k :: b < k < |log| ==>
      log[k] != Begun(s) && log[k] != Made(s) && !(log[k].Confirmed? && log[k].source == s)
    ensures LifeOf(log, s).check.Some? ==> b < c < |log| && log[c] == Checked(s, LifeOf(log, s).check.value)
    ensures LifeOf(log, s).check.Some? ==> forall k :: c < k < |log| ==> !(log[k].Checked? && log[k].source == s)
    decreases |log|
  {
    var shorter, e := log[..|log| - 1], log[|log| - 1];
    if e == Begun(s) {
      b, c := |log| - 1, 0;
    } else {
      b, c := RunningSince(shorter, s);
      if e.Checked? && e.source == s {
        c := |log| - 1;
      }
      forall k | b < k < |log|
        ensures log[k] != Begun(s) && log[k] != Made(s) && !(log[k].Confirmed? && log[k].source == s)
      {
        assert k < |log| - 1 ==> log[k] == shorter[k];
      }
      forall k | LifeOf(log, s).check.Some? && c < k < |log|
        ensures !(log[k].Checked? && log[k].source == s)
      {
        assert k < |log| - 1 ==> log[k] == shorter[k];
      }
    }
  }

  /** Every confirmed stack was checked after its latest start, and the latest
      such check passed or the confirmation accepted that it failed. */
  lemma ConfirmedWasChecked(log: Log, i: nat) returns (b: nat, c: nat)
    requires Lawful(log) && i < |log| && log[i].Confirmed?
    ensures b < c < i && log[b] == Begun(log[i].source)
    ensures log[c].Checked? && log[c].source == log[i].source && (log[c].ok || log[i].accepted)
    ensures forall k :: b < k < i ==> log[k] != Begun(log[i].source) && log[k] != Made(log[i].source)
    ensures forall k :: c < k < i ==> !(log[k].Checked? && log[k].source == log[i].source)
  {
    LawfulPrefix(log, i);
    b, c := RunningSince(log[..i], log[i].source);
  }

  lemma {:induction false} RunningUntil(log: Log, a: nat, s: string) returns (c: nat)
    requires a < |log| && log[a] == Begun(s) && !LifeOf(log, s).Running?
    ensures a < c < |log| && (log[c] == Made(s) || (log[c].Confirmed? && log[c].source == s))
    decreases |log|
  {
    var shorter := log[..|log| - 1];
    if a < |log| - 1 && !LifeOf(shorter, s).Running? {
      c := RunningUntil(shorter, a, s);
    } else {
      c := |log| - 1;
    }
  }

  /** One at a time: between the starts of two different stacks the first was
      confirmed, or was deleted and made anew. */
  lemma OneAtATime(log: Log, a: nat, b: nat) returns (c: nat)
    requires Lawful(log) && a < b < |log|
    requires log[a].Begun? && log[b].Begun? && log[a].source != log[b].source
    ensures a < c < b && (log[c] == Made(log[a].source) || (log[c].Confirmed? && log[c].source == log[a].source))
  {
    LawfulPrefix(log, b);
    c := RunningUntil(log[..b], a, log[a].source);
  }

  lemma {:induction false} LivingWasMade(log: Log, s: string) returns (m: nat)
    requires Lawful(log) && LifeOf(log, s) != Nothing
    ensures m < |log| && log[m] == Made(s)
    decreases |log|
  {
    if log[|log| - 1] == Made(s) {
      m := |log| - 1;
    } else {
      m := LivingWasMade(log[..|log| - 1], s);
    }
  }

  /** Nothing is made, and so nothing started, before a point of no return that
      followed a passing verify. */
  lemma StacksComeAfterParity(log: Log, i: nat) returns (m: nat, n: nat)
    requires Lawful(log) && i < |log| && (log[i].Made? || log[i].Begun?)
    ensures n < m <= i && log[m] == Made(log[i].source) && log[n].Formatted?
    ensures !Unfinished(log[..m])
  {
    LawfulPrefix(log, i);
    m := i;
    if log[i].Begun? {
      m := LivingWasMade(log[..i], log[i].source);
    }
    LawfulPrefix(log, m);
    n := DoneWasFormatted(log[..m]);
    PhasesAreDisjoint(log[..m]);
  }
}
