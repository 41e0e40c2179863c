/** The container flow of cmd/mockapi/migrate.go at the grain of its locks:
    create and start hold flowMu across several sections under mu, confirm is
    one section under both, and a check is two sections under mu alone, with
    anything between them. */
module StackRace {
  import opened MigratedStacks

  /** A stack's record; how often it was started; and of the check last recorded
      in it, how often it had been started when that check looked, and when it
      was recorded. fine is whether the confirmation rested on a check that
      passed or was accepted. */
  datatype Rec = Rec(stack: Stack, starts: nat, looked: nat, recorded: nat, fine: bool)

  /** Where the holder of flowMu is. */
  datatype Holder = Free | Idle | Making(source: string, at: nat) | Starting(name: string) | Cleared(name: string)

  /** A check that has looked and not yet recorded. */
  datatype Looking = Looking(name: string, started: bool, starts: nat)

  datatype World = World(recs: seq<Rec>, flow: Holder, checks: map<nat, Looking>)

  datatype Step =
    | Lock | Unlock
    | Look(source: string) | Drop | Make    // create: find the source's record; give up on it; write it
    | Pick(name: string) | Scan | Begin     // start: find the stack; see no other is started; write it
    | CheckLooks(t: nat, name: string) | CheckRecords(t: nat, ok: bool)
    | Confirm(name: string, accept: bool)

  type Names = string -> string

  function Stacks(recs: seq<Rec>): (s: seq<Stack>) {
    seq(|recs|, i requires 0 <= i < |recs| => recs[i].stack)
  }

  function Named(recs: seq<Rec>, name: string): (i: nat)
    ensures i <= |recs| && (i < |recs| ==> recs[i].stack.name == name)
    ensures forall k :: 0 <= k < i ==> recs[k].stack.name != name
  {
    assert forall k :: 0 <= k < |recs| ==> recs[k].stack == Stacks(recs)[k];
    First(Stacks(recs), name)
  }

  function Sourced(recs: seq<Rec>, source: string): (i: nat)
    ensures i <= |recs| && (i < |recs| ==> recs[i].stack.source == source)
    ensures forall k :: 0 <= k < i ==> recs[k].stack.source != source
  {
    assert forall k :: 0 <= k < |recs| ==> recs[k].stack == Stacks(recs)[k];
    FirstOf(Stacks(recs), source)
  }

  predicate OthersStarted(recs: seq<Rec>, name: string) {
    exists k :: 0 <= k < |recs| && recs[k].stack.name != name && recs[k].stack.state.Started?
  }

  predicate Enabled(w: World, s: Step) {
    match s
    case Lock => w.flow.Free?
    case Unlock => w.flow.Idle?
    case Look(_) => w.flow.Idle?
    case Drop => !w.flow.Free? && !w.flow.Idle?
    case Make => w.flow.Making? && w.flow.at <= |w.recs|
    case Pick(name) =>
      w.flow.Idle? && Named(w.recs, name) < |w.recs| && !w.recs[Named(w.recs, name)].stack.state.Settled?
    case Scan => w.flow.Starting? && !OthersStarted(w.recs, w.flow.name)
    case Begin => w.flow.Cleared?
    case CheckLooks(t, name) =>
      t !in w.checks && Named(w.recs, name) < |w.recs| && !w.recs[Named(w.recs, name)].stack.state.Created?
    case CheckRecords(t, _) => t in w.checks
    case Confirm(name, accept) =>
      && w.flow.Free? && Named(w.recs, name) < |w.recs|
      && var s := w.recs[Named(w.recs, name)].stack; s.state.Started? && s.checked && (s.checkFailed ==> accept)
  }

  function Begun(r: Rec): (x: Rec) {
    r.(stack := Restarted(r.stack), starts := r.starts + 1)
  }

  function CheckedNow(r: Rec, c: Looking, ok: bool): (x: Rec) {
    r.(stack := r.stack.(checked := true, checkFailed := !ok), looked := c.starts, recorded := r.starts)
  }

  function ConfirmedNow(r: Rec, accept: bool): (x: Rec) {
    r.(stack := r.stack.(state := Settled), fine := !r.stack.checkFailed || accept)
  }

  function Take(names: Names, w: World, s: Step): (v: World)
    requires Enabled(w, s)
  {
    match s
    case Lock => w.(flow := Idle)
    case Unlock => w.(flow := Free)
    case Look(source) => w.(flow := Making(source, Sourced(w.recs, source)))
    case Drop => w.(flow := Idle)
    case Make =>
      var entry := Stack(names(w.flow.source), w.flow.source, Created, false, false);
      w.(flow := Idle,
         recs := if w.flow.at < |w.recs| then w.recs[w.flow.at := w.recs[w.flow.at].(stack := entry)]
                 else w.recs + [Rec(entry, 0, 0, 0, false)])
    case Pick(name) => w.(flow := Starting(name))
    case Scan => w.(flow := Cleared(w.flow.name))
    case Begin =>
      var i := Named(w.recs, w.flow.name);
      w.(flow := Idle, recs := if i < |w.recs| then w.recs[i := Begun(w.recs[i])] else w.recs)
    case CheckLooks(t, name) =>
      var r := w.recs[Named(w.recs, name)];
      w.(checks := w.checks[t := Looking(name, r.stack.state.Started?, r.starts)])
    case CheckRecords(t, ok) =>
      var c := w.checks[t];
      var i := Named(w.recs, c.name);
      w.(checks := w.checks - {t},
         recs := if c.started && i < |w.recs| then w.recs[i := CheckedNow(w.recs[i], c, ok)] else w.recs)
    case Confirm(name, accept) =>
      var i := Named(w.recs, name);
      w.(recs := w.recs[i := ConfirmedNow(w.recs[i], accept)])
  }

  // ----- the invariant -----

  ghost predicate Keyed(names: Names, recs: seq<Rec>) {
    && (forall i :: 0 <= i < |recs| ==> recs[i].stack.name == names(recs[i].stack.source))
    && (forall i, j :: 0 <= i < j < |recs| ==> recs[i].stack.source != recs[j].stack.source)
  }

  ghost predicate OneStarted(recs: seq<Rec>) {
    && (forall i, j :: 0 <= i < j < |recs| && recs[j].stack.state.Started? ==> recs[i].stack.name != recs[j].stack.name)
    && (forall i, j :: 0 <= i < j < |recs| ==> !(recs[i].stack.state.Started? && recs[j].stack.state.Started?))
  }

  /** A started stack that reads as checked had a check recorded since it was
      started; a confirmed one too, and it passed or was accepted. */
  ghost predicate Recorded(r: Rec) {
    && (r.stack.state.Started? && r.stack.checked ==> r.recorded == r.starts)
    && (r.stack.state.Settled? ==> r.recorded == r.starts && r.fine)
  }

  ghost predicate HolderFits(w: World) {
    match w.flow
    case Making(source, at) => at == Sourced(w.recs, source)
    case Cleared(name) => !OthersStarted(w.recs, name)
    case _ => true
  }

  ghost predicate Inv(names: Names, w: World) {
    && Keyed(names, w.recs) && OneStarted(w.recs) && HolderFits(w)
    && forall i :: 0 <= i < |w.recs| ==> Recorded(w.recs[i])
  }

  /** A record changed under its own name and source is found where it was. */
  lemma SameKeys(recs: seq<Rec>, i: nat, x: Rec)
    requires i < |recs| && x.stack.name == recs[i].stack.name && x.stack.source == recs[i].stack.source
    ensures forall n :: Named(recs[i := x], n) == Named(recs, n)
    ensures forall n :: Sourced(recs[i := x], n) == Sourced(recs, n)
  {
    var next := recs[i := x];
    assert forall k :: 0 <= k < |recs| ==>
      next[k].stack.name == recs[k].stack.name && next[k].stack.source == recs[k].stack.source;
    forall n
      ensures Named(next, n) == Named(recs, n) && Sourced(next, n) == Sourced(recs, n)
    {
    }
  }

  /** A change that starts nothing keeps everything. */
  lemma ChangeKeepsInv(names: Names, w: World, i: nat, x: Rec)
    requires Inv(names, w) && i < |w.recs| && Recorded(x)
    requires x.stack.name == w.recs[i].stack.name && x.stack.source == w.recs[i].stack.source
    requires x.stack.state.Started? ==> w.recs[i].stack.state.Started?
    ensures Inv(names, w.(recs := w.recs[i := x]))
  {
    SameKeys(w.recs, i, x);
    var next := w.recs[i := x];
    assert OneStarted(next) by {
      forall a, b | 0 <= a < b < |next|
        ensures next[b].stack.state.Started? ==> next[a].stack.name != next[b].stack.name
        ensures !(next[a].stack.state.Started? && next[b].stack.state.Started?)
      {
        assert next[a].stack.name == w.recs[a].stack.name && next[b].stack.name == w.recs[b].stack.name;
      }
    }
    if w.flow.Cleared? {
      NoOthersAfter(w.recs, i, x, w.flow.name);
    }
  }

  lemma NoOthersAfter(recs: seq<Rec>, i: nat, x: Rec, name: string)
    requires i < |recs| && !OthersStarted(recs, name) && x.stack.name == recs[i].stack.name
    requires x.stack.state.Started? ==> recs[i].stack.state.Started?
    ensures !OthersStarted(recs[i := x], name)
  {
  }

  lemma MakeKeepsInv(names: Names, w: World)
    requires Inv(names, w) && Enabled(w, Make)
    ensures Inv(names, Take(names, w, Make))
  {
    var at, entry := w.flow.at, Stack(names(w.flow.source), w.flow.source, Created, false, false);
    if at < |w.recs| {
      ChangeKeepsInv(names, w.(flow := Idle), at, w.recs[at].(stack := entry));
    }
  }

  lemma BegunStartsOne(recs: seq<Rec>, name: string)
    requires OneStarted(recs) && Named(recs, name) < |recs| && !OthersStarted(recs, name)
    ensures OneStarted(recs[Named(recs, name) := Begun(recs[Named(recs, name)])])
  {
    var i := Named(recs, name);
    assert forall k :: 0 <= k < |recs| && recs[k].stack.state.Started? ==> recs[k].stack.name == name;
    assert forall k :: 0 <= k < i ==> !recs[k].stack.state.Started?;
    assert forall k :: i < k < |recs| ==> !recs[k].stack.state.Started?;
  }

  lemma BeginKeepsInv(names: Names, w: World)
    requires Inv(names, w) && Enabled(w, Begin)
    ensures Inv(names, Take(names, w, Begin))
  {
    if Named(w.recs, w.flow.name) < |w.recs| {
      BegunStartsOne(w.recs, w.flow.name);
      hide OneStarted;
    }
  }

  lemma TakeKeepsInv(names: Names, w: World, s: Step)
    requires Inv(names, w) && Enabled(w, s)
    ensures Inv(names, Take(names, w, s))
  {
    match s
    case Make => MakeKeepsInv(names, w);
    case Begin => BeginKeepsInv(names, w);
    case CheckRecords(t, ok) =>
      var i := Named(w.recs, w.checks[t].name);
      if w.checks[t].started && i < |w.recs| {
        ChangeKeepsInv(names, w.(checks := w.checks - {t}), i, CheckedNow(w.recs[i], w.checks[t], ok));
      }
    case Confirm(name, accept) =>
      var i := Named(w.recs, name);
      ChangeKeepsInv(names, w, i, ConfirmedNow(w.recs[i], accept));
    case _ =>
  }

  ghost predicate Run(names: Names, w: World, steps: seq<Step>)
    decreases |steps|
  {
    steps == [] || (Enabled(w, steps[0]) && Run(names, Take(names, w, steps[0]), steps[1..]))
  }

  ghost function After(names: Names, w: World, steps: seq<Step>): World
    requires Run(names, w, steps)
    decreases |steps|
  {
    if steps == [] then w else After(names, Take(names, w, steps[0]), steps[1..])
  }

  const EMPTY := World([], Free, map[])

  lemma EmptyHolds(names: Names)
    ensures Inv(names, EMPTY)
  {
  }

  /** In every interleaving at most one stack is started, and every confirmed
      stack had a check recorded after its latest start. */
  lemma {:induction false} EveryInterleavingStartsOne(names: Names, w: World, steps: seq<Step>)
    requires Inv(names, w) && Run(names, w, steps)
    ensures Inv(names, After(names, w, steps))
    decreases |steps|
  {
    if steps != [] {
      TakeKeepsInv(names, w, steps[0]);
      EveryInterleavingStartsOne(names, Take(names, w, steps[0]), steps[1..]);
    }
  }

  // ----- when the check also looked after the latest start -----

  /** What a confirmation rests on looked after the latest start. */
  ghost predicate Current(r: Rec) {
    !r.stack.state.Created? && r.stack.checked ==> r.looked == r.starts
  }

  /** A check records into a stack that was not started since it looked. */
  predicate Timely(w: World, s: Step)
    requires Enabled(w, s)
  {
    s.CheckRecords? && w.checks[s.t].started && Named(w.recs, w.checks[s.t].name) < |w.recs| ==>
      w.checks[s.t].starts == w.recs[Named(w.recs, w.checks[s.t].name)].starts
  }

  ghost predicate TimelyRun(names: Names, w: World, steps: seq<Step>)
    decreases |steps|
  {
    steps == [] ||
    (Enabled(w, steps[0]) && Timely(w, steps[0]) && TimelyRun(names, Take(names, w, steps[0]), steps[1..]))
  }

  lemma {:induction false} TimelyChecksAreCurrent(names: Names, w: World, steps: seq<Step>)
    requires TimelyRun(names, w, steps)
    requires forall i :: 0 <= i < |w.recs| ==> Current(w.recs[i])
    ensures Run(names, w, steps) && forall i :: 0 <= i < |After(names, w, steps).recs| ==>
      Current(After(names, w, steps).recs[i])
    decreases |steps|
  {
    if steps != [] {
      TimelyChecksAreCurrent(names, Take(names, w, steps[0]), steps[1..]);
    }
  }

  /** And only then: one untimely record, and the stack can be confirmed on a
      check that looked before it was last started. */
  lemma UntimelyCheckMisleads(names: Names, w: World, t: nat, ok: bool)
    requires Inv(names, w) && t in w.checks && !Timely(w, CheckRecords(t, ok)) && w.flow.Free?
    requires var i := Named(w.recs, w.checks[t].name); i < |w.recs| && w.recs[i].stack.state.Started?
    ensures var name := w.checks[t].name;
      var recorded := Take(names, w, CheckRecords(t, ok));
      Enabled(recorded, Confirm(name, true)) &&
      var v := Take(names, recorded, Confirm(name, true));
      var i := Named(w.recs, name);
      && i < |v.recs| && v.recs[i].stack.name == name && v.recs[i].stack.state.Settled?
      && v.recs[i].looked != v.recs[i].starts
  {
    var i := Named(w.recs, w.checks[t].name);
    SameKeys(w.recs, i, CheckedNow(w.recs[i], w.checks[t], ok));
  }

  lemma Only(x: Rec, y: Rec)
    ensures [x][0 := y] == [y] && [] + [y] == [y]
  {
  }

  lemma NoSteps(names: Names, w: World)
    ensures Run(names, w, []) && After(names, w, []) == w
  {
  }

  lemma FirstStep(names: Names, w: World, s: Step, rest: seq<Step>)
    requires Enabled(w, s) && Run(names, Take(names, w, s), rest)
    ensures Run(names, w, [s] + rest) && After(names, w, [s] + rest) == After(names, Take(names, w, s), rest)
  {
    assert ([s] + rest)[1..] == rest;
  }

  /** The only stack there is can be started, whatever follows. */
  lemma StartsAlone(names: Names, r: Rec, checks: map<nat, Looking>, rest: seq<Step>) returns (steps: seq<Step>)
    requires !r.stack.state.Settled? && Run(names, World([Begun(r)], Free, checks), rest)
    ensures Run(names, World([r], Free, checks), steps)
    ensures After(names, World([r], Free, checks), steps) == After(names, World([Begun(r)], Free, checks), rest)
  {
    hide Run, After;
    var n := r.stack.name;
    assert !OthersStarted([r], n);
    Only(r, Begun(r));
    FirstStep(names, World([Begun(r)], Idle, checks), Unlock, rest);
    steps := [Unlock] + rest;
    FirstStep(names, World([r], Cleared(n), checks), Begin, steps);
    steps := [Begin] + steps;
    FirstStep(names, World([r], Starting(n), checks), Scan, steps);
    steps := [Scan] + steps;
    FirstStep(names, World([r], Idle, checks), Pick(n), steps);
    steps := [Pick(n)] + steps;
    FirstStep(names, World([r], Free, checks), Lock, steps);
    steps := [Lock] + steps;
  }

  /** A check that looked once started, recorded after a second start, and the
      confirmation that rests on it. */
  lemma ConfirmsOnALateRecord(names: Names, r: Rec) returns (steps: seq<Step>, v: World)
    requires r.stack.state.Started? && r.starts == 2
    ensures var w := World([r], Free, map[0 := Looking(r.stack.name, true, 1)]);
            Run(names, w, steps) && After(names, w, steps) == v
    ensures |v.recs| == 1 && v.recs[0].stack.state.Settled? && v.recs[0].starts == 2 && v.recs[0].looked == 1
  {
    hide Run, After;
    var c := map[0 := Looking(r.stack.name, true, 1)];
    var late := CheckedNow(r, c[0], true);
    v := World([late.(stack := late.stack.(state := Settled), fine := true)], Free, map[]);
    Only(r, late);
    Only(late, v.recs[0]);
    assert c - {0} == map[];
    NoSteps(names, v);
    FirstStep(names, World([late], Free, map[]), Confirm(r.stack.name, false), []);
    FirstStep(names, World([r], Free, c), CheckRecords(0, true), [Confirm(r.stack.name, false)] + []);
    steps := [CheckRecords(0, true)] + ([Confirm(r.stack.name, false)] + []);
  }

  /** Such a run exists: started, looked at, started again, recorded, confirmed. */
  lemma CheckCanPrecedeTheStart(names: Names, source: string) returns (steps: seq<Step>, v: World)
    ensures Run(names, EMPTY, steps) && After(names, EMPTY, steps) == v
    ensures |v.recs| == 1 && v.recs[0].stack.state.Settled? && v.recs[0].starts == 2 && v.recs[0].looked == 1
  {
    hide Run, After;
    var n := names(source);
    var made := Rec(Stack(n, source, Created, false, false), 0, 0, 0, false);
    steps, v := ConfirmsOnALateRecord(names, Begun(Begun(made)));
    steps := StartsAlone(names, Begun(made), map[0 := Looking(n, true, 1)], steps);
    FirstStep(names, World([Begun(made)], Free, map[]), CheckLooks(0, n), steps);
    steps := StartsAlone(names, made, map[], [CheckLooks(0, n)] + steps);
    Only(made, made);
    FirstStep(names, World([made], Idle, map[]), Unlock, steps);
    steps := [Unlock] + steps;
    FirstStep(names, EMPTY.(flow := Making(source, 0)), Make, steps);
    steps := [Make] + steps;
    FirstStep(names, EMPTY.(flow := Idle), Look(source), steps);
    steps := [Look(source)] + steps;
    FirstStep(names, EMPTY, Lock, steps);
    steps := [Lock] + steps;
  }
}
