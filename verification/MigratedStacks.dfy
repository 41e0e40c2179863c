/** The stacks the migration has made (mockMigratedStack in
    cmd/mockapi/migrate.go), and what the migration's log says about them. */
module MigratedStacks {
  import opened Wrappers
  import opened MigrationLog

  datatype State = Created | Started | Settled
  datatype Stack = Stack(name: string, source: string, state: State, checked: bool, checkFailed: bool)

  /** A record started, again or for the first time: what was checked is stale. */
  function Restarted(s: Stack): (r: Stack) {
    s.(state := Started, checked := false, checkFailed := false)
  }

  /** How far a record says its stack has come. */
  function Shown(s: Stack): (r: Life) {
    match s.state
    case Created => Ready
    case Started => Running(if s.checked then Some(!s.checkFailed) else None)
    case Settled => Kept
  }

  /** One record a source, each where the log says it is, and none the log has
      not made. */
  ghost predicate Reflects(stacks: seq<Stack>, log: Log) {
    && (forall i, j :: 0 <= i < j < |stacks| ==> stacks[i].source != stacks[j].source)
    && (forall i :: 0 <= i < |stacks| ==> LifeOf(log, stacks[i].source) == Shown(stacks[i]))
    && (forall s :: LifeOf(log, s) != Nothing ==> exists i :: 0 <= i < |stacks| && stacks[i].source == s)
  }

  /** Where the record of a name is: the first that has it. */
  function First(stacks: seq<Stack>, name: string): (i: nat)
    ensures i <= |stacks| && (i < |stacks| ==> stacks[i].name == name)
    ensures forall k :: 0 <= k < i ==> stacks[k].name != name
  {
    if stacks == [] || stacks[0].name == name then 0 else 1 + First(stacks[1..], name)
  }

  /** Where the record of a source is, or the place after the last. */
  function FirstOf(stacks: seq<Stack>, source: string): (i: nat)
    ensures i <= |stacks| && (i < |stacks| ==> stacks[i].source == source)
    ensures forall k :: 0 <= k < i ==> stacks[k].source != source
  {
    if stacks == [] || stacks[0].source == source then 0 else 1 + FirstOf(stacks[1..], source)
  }

  function After(p: Phase, e: Event): (r: Phase) {
    match e
    case Reported(report) => p.(report := Some(report))
    case Forgotten => p.(report := None)
    case Imported(roles) => p.(pending := Some(roles), verify := None)
    case Undone => p.(pending := None, verify := None)
    case Verified(passed) => p.(verify := Some(passed), runs := p.runs + 1)
    case Formatted(halted) => p.(pending := None, verify := None, halfway := halted, done := p.done || !halted)
    case Completed => p.(halfway := false, done := true)
    case _ => p
  }

  lemma Last(log: Log, e: Event)
    ensures (log + [e])[..|log|] == log && (log + [e])[|log|] == e
  {
  }

  /** One more event: what it changes, and all it changes. */
  lemma Logged(log: Log, e: Event)
    ensures At(log + [e]) == After(At(log), e)
    ensures Lawful(log + [e]) == (Lawful(log) && Allowed(log, e))
    ensures Jobs(log + [e]) == Jobs(log) + if e.Queued? then [(e.kind, e.group)] else []
  {
    Last(log, e);
  }

  lemma OnePhase(log: Log)
    requires Lawful(log)
    ensures !(At(log).pending.Some? && At(log).halfway) && !(At(log).pending.Some? && At(log).done)
    ensures !(At(log).halfway && At(log).done)
  {
    PhasesAreDisjoint(log);
  }

  /** An event of the migration leaves every stack where it was. */
  lemma NoStack(log: Log, e: Event, stacks: seq<Stack>)
    requires !OfStack(e)
    ensures Reflects(stacks, log + [e]) == Reflects(stacks, log)
  {
    Last(log, e);
    assert forall s :: LifeOf(log + [e], s) == LifeOf(log, s);
  }

  /** stacks with x at i, which may be the place after the last. */
  function Put(stacks: seq<Stack>, i: nat, x: Stack): (r: seq<Stack>)
    requires i <= |stacks|
  {
    if i < |stacks| then stacks[i := x] else stacks + [x]
  }

  /** What an event about a source makes of its stack. */
  function LifeAfter(before: Life, e: Event): (r: Life)
    requires OfStack(e)
  {
    match e
    case Made(_) => Ready
    case Begun(_) => Running(None)
    case Checked(_, ok) => if before.Running? then Running(Some(ok)) else before
    case Confirmed(_, _) => Kept
  }

  /** An event about one stack changes that stack's record and nothing else. */
  lemma Placed(log: Log, e: Event, stacks: seq<Stack>, i: nat, x: Stack)
    requires Reflects(stacks, log) && OfStack(e) && e.source == x.source && i <= |stacks|
    requires if i < |stacks| then stacks[i].source == x.source else forall k :: 0 <= k < |stacks| ==>
      stacks[k].source != x.source
    requires Shown(x) == LifeAfter(LifeOf(log, x.source), e)
    ensures Reflects(Put(stacks, i, x), log + [e])
    ensures At(log + [e]) == At(log) && Jobs(log + [e]) == Jobs(log)
    ensures Lawful(log + [e]) == (Lawful(log) && Allowed(log, e))
  {
    Logged(log, e);
    Last(log, e);
    assert LifeOf(log + [e], x.source) == Shown(x);
    assert forall s :: s != x.source ==> LifeOf(log + [e], s) == LifeOf(log, s);
    var next := Put(stacks, i, x);
    assert next[i] == x;
    forall s | LifeOf(log + [e], s) != Nothing
      ensures exists k :: 0 <= k < |next| && next[k].source == s
    {
      if s != x.source {
        var k :| 0 <= k < |stacks| && stacks[k].source == s;
        assert next[k].source == s;
      }
    }
  }

  /** A record that is not confirmed may be started when no other is started. */
  lemma MayBegin(log: Log, stacks: seq<Stack>, i: nat)
    requires Reflects(stacks, log) && i < |stacks| && !stacks[i].state.Settled?
    requires forall j :: 0 <= j < |stacks| && j != i ==> !stacks[j].state.Started?
    ensures Allowed(log, Begun(stacks[i].source))
  {
    forall t | t != stacks[i].source
      ensures !LifeOf(log, t).Running?
    {
      if LifeOf(log, t) != Nothing {
        var k :| 0 <= k < |stacks| && stacks[k].source == t;
      }
    }
  }
}
