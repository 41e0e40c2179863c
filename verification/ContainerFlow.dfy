/** cmd/mockapi/migrate.go, Phase D: the stacks a finished migration makes from
    the report's templates, started one at a time, each checked for its data
    and confirmed before the next. */
module ContainerFlow {
  import opened Wrappers
  import opened MigrationLog
  import opened MigratedStacks
  import opened Migration

  /** A template of the report converted, or the Compose Manager project:
      the name its stack gets, its place in Unraid's autostart list (0 is
      none), whether a warning of it needs acknowledging, whether its Compose
      file and environment are ones a stack can have, and the host paths it
      mounts. */
  datatype Template =
    Template(file: string, stack: string, position: nat, warns: bool, usable: bool, paths: seq<string>)
  /** The stacks there are, each with the host paths it mounts. */
  type Stacks = map<string, seq<string>>

  datatype Item = Item(name: string, acknowledged: bool)

  /** The last template of a file; later ones overwrite earlier ones. */
  function Lookup(ts: seq<Template>, file: string): (r: Option<Template>)
    ensures r.Some? ==> r.value in ts && r.value.file == file
    ensures r.None? ==> forall t :: t in ts ==> t.file != file
  {
    if ts == [] then None
    else if ts[|ts| - 1].file == file then Some(ts[|ts| - 1])
    else Lookup(ts[..|ts| - 1], file)
  }

  // The order stacks are made in: Unraid's autostart list first.

  predicate Before(a: Template, b: Template) {
    a.position > 0 && (b.position == 0 || a.position < b.position)
  }

  function Insert(s: seq<Template>, t: Template): (r: seq<Template>) {
    if s != [] && Before(t, s[|s| - 1]) then Insert(s[..|s| - 1], t) + [s[|s| - 1]] else s + [t]
  }

  function Arrange(plan: seq<Template>): (r: seq<Template>) {
    if plan == [] then [] else Insert(Arrange(plan[..|plan| - 1]), plan[|plan| - 1])
  }

  ghost predicate Arranged(s: seq<Template>) {
    forall i, j :: 0 <= i < j < |s| ==> !Before(s[j], s[i])
  }

  ghost function AtPosition(s: seq<Template>, n: nat): (r: seq<Template>) {
    if s == [] then []
    else AtPosition(s[..|s| - 1], n) + If(s[|s| - 1], n)
  }

  ghost function If(t: Template, n: nat): (r: seq<Template>) {
    if t.position == n then [t] else []
  }

  lemma {:induction false} AtPositionLast(s: seq<Template>, t: Template, n: nat)
    ensures AtPosition(s + [t], n) == AtPosition(s, n) + If(t, n)
  {
    assert (s + [t])[..|s|] == s;
  }

  lemma {:induction false} InsertContents(s: seq<Template>, t: Template)
    ensures multiset(Insert(s, t)) == multiset(s) + multiset{t}
    decreases |s|
  {
    if s != [] && Before(t, s[|s| - 1]) {
      InsertContents(s[..|s| - 1], t);
      assert s == s[..|s| - 1] + [s[|s| - 1]];
    }
  }

  lemma {:induction false} InsertKeepsOrder(s: seq<Template>, t: Template)
    requires Arranged(s)
    ensures Arranged(Insert(s, t))
    decreases |s|
  {
    if s != [] && Before(t, s[|s| - 1]) {
      var init, last := s[..|s| - 1], s[|s| - 1];
      InsertKeepsOrder(init, t);
      InsertContents(init, t);
      var r := Insert(init, t);
      forall i | 0 <= i < |r|
        ensures !Before(last, r[i])
      {
        assert r[i] in multiset(r);
        assert r[i] == t || r[i] in multiset(init);
      }
    }
  }

  lemma {:induction false} InsertIsStable(s: seq<Template>, t: Template, n: nat)
    ensures AtPosition(Insert(s, t), n) == AtPosition(s + [t], n)
    decreases |s|
  {
    if s != [] && Before(t, s[|s| - 1]) {
      var init, last := s[..|s| - 1], s[|s| - 1];
      InsertGoesOn(s, t);
      Swap(AtPosition(init, n), last, t, n);
      hide *;
      InsertIsStable(init, t, n);
      AtPositionLast(Insert(init, t), last, n);
      AtPositionLast(s, t, n);
      AtPositionLast(init, t, n);
      AtPositionLast(init, last, n);
    }
  }

  lemma InsertGoesOn(s: seq<Template>, t: Template)
    requires s != [] && Before(t, s[|s| - 1])
    ensures var init, last := s[..|s| - 1], s[|s| - 1]; s == init + [last] && Insert(s, t) == Insert(init, t) + [last]
  {
  }

  lemma Swap(a: seq<Template>, x: Template, y: Template, n: nat)
    requires x.position != y.position
    ensures (a + If(x, n)) + If(y, n) == (a + If(y, n)) + If(x, n)
  {
  }

  /** The arranged plan is the plan, autostart positions ascending before the
      rest, equal positions in the order they were selected. */
  lemma {:induction false} ArrangeSorts(plan: seq<Template>)
    ensures Arranged(Arrange(plan)) && multiset(Arrange(plan)) == multiset(plan)
    ensures forall i, j :: 0 <= i < j < |Arrange(plan)| && Arrange(plan)[j].position > 0 ==>
      0 < Arrange(plan)[i].position <= Arrange(plan)[j].position
    ensures forall n :: AtPosition(Arrange(plan), n) == AtPosition(plan, n)
    decreases |plan|
  {
    if plan != [] {
      var init, last := plan[..|plan| - 1], plan[|plan| - 1];
      assert plan == init + [last];
      ArrangeSorts(init);
      InsertKeepsOrder(Arrange(init), last);
      InsertContents(Arrange(init), last);
      forall n: nat
        ensures AtPosition(Arrange(plan), n) == AtPosition(plan, n)
      {
        InsertIsStable(Arrange(init), last, n);
        AtPositionLast(Arrange(init), last, n);
        AtPositionLast(init, last, n);
      }
    }
  }

  /** Names follow sources, a started record is the one its name finds, and
      there is at most one. */
  ghost predicate Orderly(stacks: seq<Stack>, ts: seq<Template>) {
    && (forall i :: 0 <= i < |stacks| ==>
          Lookup(ts, stacks[i].source).Some? && stacks[i].name == Lookup(ts, stacks[i].source).value.stack)
    && (forall i, j :: 0 <= i < j < |stacks| && stacks[j].state.Started? ==> stacks[i].name != stacks[j].name)
    && (forall i, j :: 0 <= i < j < |stacks| ==> !(stacks[i].state.Started? && stacks[j].state.Started?))
  }

  datatype Outcome = Fresh | AlreadyThere | NotMade
  datatype Result = Result(source: string, stack: string, outcome: Outcome)

  ghost function MadeIn(rs: seq<Result>): (log: Log) {
    if rs == [] then []
    else MadeIn(rs[..|rs| - 1]) + if rs[|rs| - 1].outcome.Fresh? then [Event.Made(rs[|rs| - 1].source)] else []
  }

  datatype Request =
    | Upload(flash: Option<int>)
    | Stick(device: string, unverified: bool)
    | Forget
    | Import(confirm: bool, mapping: seq<Assignment>)
    | Undo(confirm: bool, mapping: seq<Assignment>)
    | Verify
    | Initialize(confirmation: string)
    | Submit(kind: Kind, group: Class)
    | SubmitParity(kind: Kind)
    | Maintain(on: bool)
    | Select(items: seq<Item>)
    | Start(name: string)
    | Check(name: string)
    | Confirm(name: string, accept: bool)
    | Change(name: string, paths: Option<seq<string>>)

  /** The log has grown by what these results made. */
  ghost predicate GrownBy(before: Log, now: Log, rs: seq<Result>) {
    now == before + MadeIn(rs)
  }

  lemma GrownByNothing(log: Log)
    ensures GrownBy(log, log, [])
  {
  }

  lemma GrownByOne(before: Log, now: Log, rs: seq<Result>, r: Result)
    requires GrownBy(before, now, rs)
    ensures GrownBy(before, if r.outcome.Fresh? then now + [Event.Made(r.source)] else now, rs + [r])
  {
    assert (rs + [r])[..|rs|] == rs;
  }

  /** The record of a stack just made. */
  function NewRecord(t: Template): (s: Stack) {
    Stack(t.stack, t.file, Created, false, false)
  }

  /** No two templates of a plan share a file or a stack. */
  ghost predicate Different(plan: seq<Template>) {
    forall i, j :: 0 <= i < j < |plan| ==> plan[i].file != plan[j].file && plan[i].stack != plan[j].stack
  }

  /** The source has the same record in both, or none in either. */
  ghost predicate SameRecord(a: seq<Stack>, b: seq<Stack>, source: string) {
    if FirstOf(a, source) == |a| then FirstOf(b, source) == |b|
    else FirstOf(b, source) < |b| && b[FirstOf(b, source)] == a[FirstOf(a, source)]
  }

  /** A record put in its source's place moves no other source's. */
  lemma PutElsewhere(records: seq<Stack>, x: Stack, f: string)
    requires f != x.source
    ensures SameRecord(records, Put(records, FirstOf(records, x.source), x), f)
  {
    var at, next := FirstOf(records, x.source), Put(records, FirstOf(records, x.source), x);
    assert forall k :: 0 <= k < |records| && k != at ==> next[k] == records[k];
    assert at < |records| ==> records[at].source != f;
    assert next[at].source != f;
    var a, b := FirstOf(records, f), FirstOf(next, f);
    if a < |records| {
      assert next[a] == records[a];
      assert forall k :: 0 <= k < a ==> next[k].source != f;
    }
  }

  lemma PutHere(records: seq<Stack>, x: Stack)
    ensures var next := Put(records, FirstOf(records, x.source), x);
      FirstOf(next, x.source) < |next| && next[FirstOf(next, x.source)] == x
  {
    var at, next := FirstOf(records, x.source), Put(records, FirstOf(records, x.source), x);
    assert next[at] == x;
    assert forall k :: 0 <= k < at ==> next[k] == records[k];
  }

  /** Arranging keeps a plan's templates different. */
  lemma {:induction false} ArrangeKeepsDifferent(plan: seq<Template>)
    requires Different(plan)
    ensures Different(Arrange(plan))
    decreases |plan|
  {
    if plan != [] {
      var front, t := plan[..|plan| - 1], plan[|plan| - 1];
      ArrangeKeepsDifferent(front);
      ArrangeSorts(front);
      forall k | 0 <= k < |Arrange(front)|
        ensures Arrange(front)[k].file != t.file && Arrange(front)[k].stack != t.stack
      {
        assert Arrange(front)[k] in multiset(Arrange(front));
        assert Arrange(front)[k] in front;
      }
      InsertKeepsDifferent(Arrange(front), t);
    }
  }

  lemma {:induction false} InsertKeepsDifferent(s: seq<Template>, t: Template)
    requires Different(s) && forall k :: 0 <= k < |s| ==> s[k].file != t.file && s[k].stack != t.stack
    ensures Different(Insert(s, t))
    decreases |s|
  {
    if s != [] && Before(t, s[|s| - 1]) {
      var init, last := s[..|s| - 1], s[|s| - 1];
      InsertKeepsDifferent(init, t);
      InsertContents(init, t);
      forall k | 0 <= k < |Insert(init, t)|
        ensures Insert(init, t)[k].file != last.file && Insert(init, t)[k].stack != last.stack
      {
        assert Insert(init, t)[k] in multiset(Insert(init, t));
        assert Insert(init, t)[k] == t || Insert(init, t)[k] in init;
      }
    }
  }

  class Flow {
    const h: Handler
    /** The Compose Manager project first, then the templates. */
    const templates: seq<Template>
    const validName: string -> bool
    /** The last element of the path holds "missing" or "empty". */
    const unsound: string -> bool
    /** The stacks there are, each with the host paths it mounts. */
    var stacks: Stacks

    constructor (h: Handler, templates: seq<Template>, validName: string -> bool, unsound: string -> bool)
      requires h.Inv() && h.containers == []
      ensures Inv() && this.h == h && this.templates == templates && this.validName == validName
    {
      this.h, this.templates, this.validName, this.unsound, stacks := h, templates, validName, unsound, map[];
    }

    ghost predicate Inv()
      reads this, h
    {
      h.Inv() && Orderly(h.containers, templates)
    }

    /** mockStackIndex */
    method IndexOf(match_: Stack -> bool) returns (i: int)
      ensures -1 <= i < |h.containers|
      ensures i >= 0 ==> match_(h.containers[i]) && forall k :: 0 <= k < i ==> !match_(h.containers[k])
      ensures i < 0 ==> forall k :: 0 <= k < |h.containers| ==> !match_(h.containers[k])
    {
      i := 0;
      while i < |h.containers|
        invariant 0 <= i <= |h.containers|
        invariant forall k :: 0 <= k < i ==> !match_(h.containers[k])
      {
        if match_(h.containers[i]) {
          return;
        }
        i := i + 1;
      }
      i := -1;
    }

    /** mockParityInitialized: an array is served and no migration is
        unfinished. */
    predicate ParityInitialized()
      reads h
    {
      !h.Unfinished() && h.ArrayServed()
    }

    /** CreateStack of cmd/mockapi/stacks.go. */
    method CreateStack(t: Template) returns (ok: bool)
      modifies this`stacks
      ensures ok <==> validName(t.stack) && t.usable && t.stack !in old(stacks)
      ensures stacks == if ok then old(stacks)[t.stack := t.paths] else old(stacks)
    {
      if !validName(t.stack) || !t.usable || t.stack in stacks {
        return false;
      }
      stacks := stacks[t.stack := t.paths];
      return true;
    }

    /** A stack edited, installed or deleted by another handler. */
    method ChangeStack(name: string, paths: Option<seq<string>>)
      modifies this`stacks
      ensures stacks == if paths.Some? then old(stacks)[name := paths.value] else old(stacks) - {name}
    {
      stacks := if paths.Some? then stacks[name := paths.value] else stacks - {name};
    }

    /** A selection that names something twice. */
    method Repeats(items: seq<Item>) returns (twice: bool)
      ensures twice <==> exists i, j :: 0 <= i < j < |items| && items[i].name == items[j].name
    {
      var seen: set<string> := {};
      for n := 0 to |items|
        invariant seen == set k | 0 <= k < n :: items[k].name
        invariant forall i, j :: 0 <= i < j < n ==> items[i].name != items[j].name
      {
        if items[n].name in seen {
          return true;
        }
        seen := seen + {items[n].name};
      }
      return false;
    }

    /** The item names a template with a name a stack can have, and every
        warning of it is acknowledged. */
    ghost predicate Selectable(item: Item) {
      && Lookup(templates, item.name).Some? && validName(Lookup(templates, item.name).value.stack)
      && (item.acknowledged ||
          forall k :: 0 <= k < |templates| && templates[k].file == item.name ==> !templates[k].warns)
    }

    /** The template an item selects. */
    method Select(item: Item) returns (t: Option<Template>, refused: Code)
      ensures t.Some? <==> Selectable(item)
      ensures t.Some? ==> t == Lookup(templates, item.name)
    {
      t, refused := None, TemplateNotFound;
      for n := 0 to |templates|
        invariant t == Lookup(templates[..n], item.name)
        invariant item.acknowledged || forall k :: 0 <= k < n && templates[k].file == item.name ==> !templates[k].warns
      {
        assert templates[..n + 1][..n] == templates[..n];
        if templates[n].file == item.name {
          if templates[n].warns && !item.acknowledged {
            return None, WarningsNotAcknowledged;
          }
          t := Some(templates[n]);
        }
      }
      assert templates[..|templates|] == templates;
      if t.Some? && !validName(t.value.stack) {
        t, refused := None, InvalidSelection;
      }
    }

    ghost predicate Selected(items: seq<Item>, plan: seq<Template>) {
      |plan| == |items| && forall k :: 0 <= k < |items| ==> Lookup(templates, items[k].name) == Some(plan[k])
    }

    /** A selection every stack of which can be attempted. */
    ghost predicate Makeable(items: seq<Item>) {
      && (forall k :: 0 <= k < |items| ==> Selectable(items[k]))
      && (forall i, j :: 0 <= i < j < |items| ==> items[i].name != items[j].name)
      && (forall i, j :: 0 <= i < j < |items| ==>
            Lookup(templates, items[i].name).value.stack != Lookup(templates, items[j].name).value.stack)
    }

    /** Everything that is checked of a selection before the first stack is made. */
    method PlanStacks(items: seq<Item>) returns (ok: bool, plan: seq<Template>, refused: Code)
      ensures ok <==> items != [] && h.report.Some? && h.device == "" && Makeable(items)
      ensures ok ==> Selected(items, plan) && Different(plan)
    {
      hide Selected, Makeable, Selectable, Different, Lookup;
      ok, plan, refused := false, [], InvalidSelection;
      if items == [] {
        return;
      }
      var twice := Repeats(items);
      if twice {
        NotMakeable(items);
        return;
      }
      NothingSelected();
      var taken: set<string> := {};
      for n := 0 to |items|
        invariant !ok && |plan| == n && Selected(items[..n], plan) && Makeable(items[..n])
        invariant n > 0 ==> h.report.Some? && h.device == ""
        invariant taken == set k | 0 <= k < n :: plan[k].stack
      {
        if h.report.None? {
          refused := NoReport;
          return;
        }
        if h.device != "" {
          refused := SourceUnavailable;
          return;
        }
        var t, code := Select(items[n]);
        if t.None? {
          NotMakeable(items);
          refused := code;
          return;
        }
        if t.value.stack in taken {
          var k :| 0 <= k < n && plan[k].stack == t.value.stack;
          SharesAStack(items, plan, k, n);
          return;
        }
        OneMoreSelected(items, plan, n, t.value);
        assert forall k :: 0 <= k < n ==> (plan + [t.value])[k] == plan[k];
        taken, plan := taken + {t.value.stack}, plan + [t.value];
        assert plan[n] == t.value;
      }
      assert items[..|items|] == items;
      SelectedDiffer(items, plan);
      ok := true;
    }

    lemma NothingSelected()
      ensures Selected([], []) && Makeable([])
    {
    }

    lemma NotMakeable(items: seq<Item>)
      ensures (exists i, j :: 0 <= i < j < |items| && items[i].name == items[j].name) ==> !Makeable(items)
      ensures (exists k :: 0 <= k < |items| && !Selectable(items[k])) ==> !Makeable(items)
    {
    }

    lemma SharesAStack(items: seq<Item>, plan: seq<Template>, k: nat, n: nat)
      requires k < n < |items| && |plan| == n && Selected(items[..n], plan)
      requires Lookup(templates, items[n].name).Some? && plan[k].stack == Lookup(templates, items[n].name).value.stack
      ensures !Makeable(items)
    {
      assert items[..n][k] == items[k];
      assert Lookup(templates, items[k].name) == Some(plan[k]);
    }

    lemma OneMoreSelected(items: seq<Item>, plan: seq<Template>, n: nat, t: Template)
      requires n < |items| && |plan| == n && Selected(items[..n], plan) && Makeable(items[..n])
      requires Selectable(items[n]) && Lookup(templates, items[n].name) == Some(t)
      requires forall k :: 0 <= k < n ==> items[k].name != items[n].name && plan[k].stack != t.stack
      ensures Selected(items[..n + 1], plan + [t]) && Makeable(items[..n + 1])
    {
      hide Selectable, Lookup;
      var front, next := items[..n], items[..n + 1];
      assert forall k :: 0 <= k < n ==> next[k] == front[k];
      assert next[n] == items[n];
    }

    lemma SelectedDiffer(items: seq<Item>, plan: seq<Template>)
      requires Selected(items, plan) && Makeable(items)
      ensures Different(plan)
    {
    }

    /** A stack of the template can be made beside these. */
    predicate Fits(there: Stacks, t: Template) {
      t.stack !in there && validName(t.stack) && t.usable
    }

    /** The template's stack was made before and is still there. */
    predicate StillThere(there: Stacks, records: seq<Stack>, t: Template) {
      var i := FirstOf(records, t.file);
      i < |records| && records[i].name in there
    }

    /** What a result says of its template. */
    ghost predicate Reported(there: Stacks, records: seq<Stack>, t: Template, r: Result) {
      && r.source == t.file && r.stack == t.stack
      && (r.outcome.Fresh? <==> Fits(there, t))
      && (r.outcome.AlreadyThere? <==> StillThere(there, records, t))
    }

    /** The stacks after a plan over these: the ones that fit are added. */
    ghost function StacksAfter(there: Stacks, plan: seq<Template>): (after: Stacks) {
      if plan == [] then there
      else
        var t, before := plan[|plan| - 1], StacksAfter(there, plan[..|plan| - 1]);
        if Fits(there, t) then before[t.stack := t.paths] else before
    }

    /** The records after it: each made stack takes its source's earlier place. */
    ghost function RecordsAfter(there: Stacks, records: seq<Stack>, plan: seq<Template>): (after: seq<Stack>) {
      if plan == [] then records
      else
        var t, before := plan[|plan| - 1], RecordsAfter(there, records, plan[..|plan| - 1]);
        if Fits(there, t) then Put(before, FirstOf(before, t.file), NewRecord(t)) else before
    }

    /** A stack that was there stays as it was. */
    lemma {:induction false} StaysThere(there: Stacks, plan: seq<Template>, name: string)
      requires name in there
      ensures name in StacksAfter(there, plan) && StacksAfter(there, plan)[name] == there[name]
      decreases |plan|
    {
      if plan != [] {
        StaysThere(there, plan[..|plan| - 1], name);
      }
    }

    /** A new one is of a template of the plan that fits. */
    lemma {:induction false} NewOneFits(there: Stacks, plan: seq<Template>, name: string) returns (k: nat)
      requires name in StacksAfter(there, plan) && name !in there
      ensures k < |plan| && Fits(there, plan[k]) && plan[k].stack == name
      decreases |plan|
    {
      var t := plan[|plan| - 1];
      if Fits(there, t) && t.stack == name {
        k := |plan| - 1;
      } else {
        k := NewOneFits(there, plan[..|plan| - 1], name);
      }
    }

    lemma {:induction false} StaysAway(there: Stacks, plan: seq<Template>, name: string)
      requires name !in there && forall k :: 0 <= k < |plan| ==> plan[k].stack != name
      ensures name !in StacksAfter(there, plan)
      decreases |plan|
    {
      if plan != [] {
        StaysAway(there, plan[..|plan| - 1], name);
      }
    }

    /** And every template that fits has its stack, with its paths. */
    lemma {:induction false} FittingIsThere(there: Stacks, plan: seq<Template>, k: nat)
      requires Different(plan) && k < |plan| && Fits(there, plan[k])
      ensures var after := StacksAfter(there, plan); plan[k].stack in after && after[plan[k].stack] == plan[k].paths
      decreases |plan|
    {
      if k < |plan| - 1 {
        FittingIsThere(there, plan[..|plan| - 1], k);
      }
    }

    /** A source of which no stack is made keeps its record. */
    lemma {:induction false} KeepsRecord(there: Stacks, records: seq<Stack>, plan: seq<Template>, f: string)
      requires forall k :: 0 <= k < |plan| && Fits(there, plan[k]) ==> plan[k].file != f
      ensures SameRecord(records, RecordsAfter(there, records, plan), f)
      decreases |plan|
    {
      if plan != [] {
        var front, t := plan[..|plan| - 1], plan[|plan| - 1];
        assert forall k :: 0 <= k < |front| ==> front[k] == plan[k];
        KeepsRecord(there, records, front, f);
        if Fits(there, t) {
          PutElsewhere(RecordsAfter(there, records, front), NewRecord(t), f);
        }
      }
    }

    /** A source of which one is made has a record that is new and unchecked. */
    lemma {:induction false} HasNewRecord(there: Stacks, records: seq<Stack>, plan: seq<Template>, k: nat)
      requires Different(plan) && k < |plan| && Fits(there, plan[k])
      ensures var after, t := RecordsAfter(there, records, plan), plan[k];
        && FirstOf(after, t.file) < |after|
        && after[FirstOf(after, t.file)] == Stack(t.stack, t.file, Created, false, false)
      decreases |plan|
    {
      var front, t := plan[..|plan| - 1], plan[|plan| - 1];
      var before := RecordsAfter(there, records, front);
      if k < |plan| - 1 {
        HasNewRecord(there, records, front, k);
        if Fits(there, t) {
          PutElsewhere(before, NewRecord(t), plan[k].file);
        }
      } else {
        PutHere(before, NewRecord(t));
      }
    }

    /** One planned stack: made, already there, or not makeable. */
    method MakeOne(t: Template) returns (r: Result)
      requires Inv() && h.initialized && Lookup(templates, t.file) == Some(t)
      modifies this`stacks, h`containers, h`log
      ensures Inv() && r.source == t.file && r.stack == t.stack
      ensures r.outcome.Fresh? <==> t.stack !in old(stacks) && validName(t.stack) && t.usable
      ensures r.outcome.Fresh? <==> Fits(old(stacks), t)
      ensures r.outcome.AlreadyThere? <==> StillThere(old(stacks), old(h.containers), t)
      ensures stacks == if r.outcome.Fresh? then old(stacks)[t.stack := t.paths] else old(stacks)
      ensures h.log == if r.outcome.Fresh? then old(h.log) + [Event.Made(t.file)] else old(h.log)
      ensures !r.outcome.Fresh? ==> h.containers == old(h.containers)
      ensures r.outcome.Fresh? ==>
        h.containers == Put(old(h.containers), FirstOf(old(h.containers), t.file), NewRecord(t))
    {
      hide Lawful, At, Listed, Reflects, Orderly, Lookup;
      var i := IndexOf((s: Stack) => s.source == t.file);
      if i >= 0 {
        NameFollows(h.containers, templates, i);
      }
      if i >= 0 && h.containers[i].name in stacks {
        return Result(t.file, t.stack, AlreadyThere);
      }
      var ok := CreateStack(t);
      if !ok {
        return Result(t.file, t.stack, NotMade);
      }
      Enter(t, if i >= 0 then i else |h.containers|);
      return Result(t.file, t.stack, Fresh);
    }

    /** The record of a stack just made takes the place of its source's earlier one. */
    method Enter(t: Template, at: nat)
      requires Inv() && h.initialized && Lookup(templates, t.file) == Some(t) && at == FirstOf(h.containers, t.file)
      modifies h`containers, h`log
      ensures Inv()
      ensures h.containers == Put(old(h.containers), at, NewRecord(t)) && h.log == old(h.log) + [Event.Made(t.file)]
    {
      hide Lawful, At, Listed, Reflects, Orderly, Lookup;
      MadeKeeps(h.log, h.jobs, h.containers, at, NewRecord(t), templates);
      h.containers := Put(h.containers, at, NewRecord(t));
      h.log := h.log + [Event.Made(t.file)];
    }

    lemma SelectedArranged(items: seq<Item>, plan: seq<Template>)
      requires Selected(items, plan)
      ensures forall k :: 0 <= k < |Arrange(plan)| ==>
        Lookup(templates, Arrange(plan)[k].file) == Some(Arrange(plan)[k])
    {
      ArrangeSorts(plan);
      hide Arrange, Lookup, AtPosition, Arranged;
      forall k | 0 <= k < |Arrange(plan)|
        ensures Lookup(templates, Arrange(plan)[k].file) == Some(Arrange(plan)[k])
      {
        assert Arrange(plan)[k] in multiset(Arrange(plan));
      }
    }

    /** CreateMigrationStacks. */
    method Create(items: seq<Item>) returns (refused: Option<Code>, results: seq<Result>, ghost chosen: seq<Template>)
      requires Inv()
      modifies this`stacks, h`containers, h`log
      ensures Inv()
      ensures refused.Some? ==> results == [] && unchanged(this) && unchanged(h)
      ensures refused.None? <==>
        old(h.initialized) && items != [] && h.report.Some? && h.device == "" && Makeable(items)
      ensures h.log == old(h.log) + MadeIn(results)
      ensures refused.None? ==> Selected(items, chosen) && |results| == |Arrange(chosen)|
      // Which result, and what there is afterwards.
      ensures refused.None? ==> Different(Arrange(chosen))
      ensures forall k :: 0 <= k < |results| ==>
        Reported(old(stacks), old(h.containers), Arrange(chosen)[k], results[k])
      ensures refused.None? ==> stacks == StacksAfter(old(stacks), Arrange(chosen))
      ensures refused.None? ==> h.containers == RecordsAfter(old(stacks), old(h.containers), Arrange(chosen))
    {
      hide Lawful, At, Listed, Reflects, LifeOf, Jobs, Orderly, Arrange, Lookup, Makeable, Selectable, MadeIn;
      hide Reported, StacksAfter, RecordsAfter, Different;
      GrownByNothing(h.log);
      results := [];
      OnePhase(h.log);
      if !ParityInitialized() {
        return Some(ParityNotInitialized), [], [];
      }
      var ok, plan, code := PlanStacks(items);
      if !ok {
        return Some(code), [], [];
      }
      refused, chosen := None, plan;
      SelectedArranged(items, plan);
      ArrangeKeepsDifferent(plan);
      results := MakeAll(Arrange(plan));
    }

    /** One result a planned stack, a failure of one leaving the others made. */
    method MakeAll(plan: seq<Template>) returns (results: seq<Result>)
      requires Inv() && h.initialized && Different(plan)
      requires forall k :: 0 <= k < |plan| ==> Lookup(templates, plan[k].file) == Some(plan[k])
      modifies this`stacks, h`containers, h`log
      ensures Inv() && |results| == |plan|
      ensures GrownBy(old(h.log), h.log, results)
      ensures forall k :: 0 <= k < |plan| ==> Reported(old(stacks), old(h.containers), plan[k], results[k])
      ensures stacks == StacksAfter(old(stacks), plan)
      ensures h.containers == RecordsAfter(old(stacks), old(h.containers), plan)
    {
      ghost var there, records, log := stacks, h.containers, h.log;
      assert Orderly(records, templates);
      NothingAfter(there, records);
      GrownByNothing(log);
      results := [];
      assert SoFar(plan, [], there, records, log, Now());
      for n := 0 to |plan|
        invariant Inv() && |results| == n && SoFar(plan, results, there, records, log, Now())
      {
        hide Inv, Orderly, Lookup, SoFar, Different, Fits, StillThere, FirstOf, Put, NewRecord;
        ghost var now := Now();
        var r := MakeOne(plan[n]);
        CarriedOn(plan, results, there, records, log, now, r);
        results := results + [r];
      }
      assert plan[..|plan|] == plan;
    }

    /** Where a plan that began over these stacks, records and log is after so many
        results: with these stacks, records and log now. */
    ghost predicate SoFar(plan: seq<Template>, results: seq<Result>, there: Stacks, records: seq<Stack>, log: Log,
                          now: (Stacks, seq<Stack>, Log))
    {
      && |results| <= |plan|
      && (forall k :: 0 <= k < |results| ==> Reported(there, records, plan[k], results[k]))
      && now.0 == StacksAfter(there, plan[..|results|])
      && now.1 == RecordsAfter(there, records, plan[..|results|])
      && GrownBy(log, now.2, results)
    }

    ghost function Now(): (now: (Stacks, seq<Stack>, Log))
      reads this`stacks, h`containers, h`log
    {
      (stacks, h.containers, h.log)
    }

    /** One more result carries a plan on. */
    lemma CarriedOn(plan: seq<Template>, results: seq<Result>, there: Stacks, records: seq<Stack>, log: Log,
                    now: (Stacks, seq<Stack>, Log), r: Result)
      requires |results| < |plan| && Different(plan) && Orderly(records, templates)
      requires var t := plan[|results|];
        Lookup(templates, t.file) == Some(t) && r.source == t.file && r.stack == t.stack
      requires SoFar(plan, results, there, records, log, now)
      requires var t := plan[|results|];
        (r.outcome.Fresh? <==> Fits(now.0, t)) && (r.outcome.AlreadyThere? <==> StillThere(now.0, now.1, t))
      ensures SoFar(plan, results + [r], there, records, log, Next(plan[|results|], now, r))
    {
      var n := |results|;
      assert |results + [r]| == n + 1;
      NextIsAfter(plan, there, records, now, r, n);
      GrownByOne(log, now.2, results, r);
      NextLog(plan[n], now, r);
      hide Fits, StillThere, Reported, StacksAfter, RecordsAfter, GrownBy, Next;
      ReportedMore(plan, results, there, records, r);
    }

    lemma NextIsAfter(plan: seq<Template>, there: Stacks, records: seq<Stack>,
                      now: (Stacks, seq<Stack>, Log), r: Result, n: nat)
      requires n < |plan| && Different(plan) && Orderly(records, templates)
      requires var t := plan[n]; Lookup(templates, t.file) == Some(t) && r.source == t.file && r.stack == t.stack
      requires now.0 == StacksAfter(there, plan[..n]) && now.1 == RecordsAfter(there, records, plan[..n])
      requires var t := plan[n];
        (r.outcome.Fresh? <==> Fits(now.0, t)) && (r.outcome.AlreadyThere? <==> StillThere(now.0, now.1, t))
      ensures Next(plan[n], now, r).0 == StacksAfter(there, plan[..n + 1])
      ensures Next(plan[n], now, r).1 == RecordsAfter(there, records, plan[..n + 1])
      ensures Reported(there, records, plan[n], r)
    {
      OneMoreAfter(there, records, plan, n);
      hide Orderly, Lookup, Fits, StillThere, StacksAfter, RecordsAfter, Different, FirstOf, Put, NewRecord;
    }

    lemma NextLog(t: Template, now: (Stacks, seq<Stack>, Log), r: Result)
      ensures Next(t, now, r).2 == if r.outcome.Fresh? then now.2 + [Event.Made(r.source)] else now.2
    {
    }

    lemma ReportedMore(plan: seq<Template>, results: seq<Result>, there: Stacks, records: seq<Stack>, r: Result)
      requires |results| < |plan| && Reported(there, records, plan[|results|], r)
      requires forall k :: 0 <= k < |results| ==> Reported(there, records, plan[k], results[k])
      ensures forall k :: 0 <= k < |results + [r]| ==> Reported(there, records, plan[k], (results + [r])[k])
    {
      hide Reported;
    }

    /** The stacks, records and log that a result for a template leaves. */
    ghost function Next(t: Template, now: (Stacks, seq<Stack>, Log), r: Result): (after: (Stacks, seq<Stack>, Log)) {
      if r.outcome.Fresh?
      then (now.0[t.stack := t.paths], Put(now.1, FirstOf(now.1, t.file), NewRecord(t)), now.2 + [Event.Made(r.source)])
      else now
    }

    lemma NothingAfter(there: Stacks, records: seq<Stack>)
      ensures StacksAfter(there, []) == there && RecordsAfter(there, records, []) == records
    {
    }

    /** Whether the next stack of a plan fits, or is there, does not depend on
        those before it. */
    lemma OneMoreAfter(there: Stacks, records: seq<Stack>, plan: seq<Template>, n: nat)
      requires n < |plan| && Different(plan) && Orderly(records, templates)
      requires Lookup(templates, plan[n].file) == Some(plan[n])
      ensures var t, s, rs := plan[n], StacksAfter(there, plan[..n]), RecordsAfter(there, records, plan[..n]);
        && (Fits(s, t) <==> Fits(there, t))
        && (StillThere(s, rs, t) <==> StillThere(there, records, t))
        && StacksAfter(there, plan[..n + 1]) == (if Fits(there, t) then s[t.stack := t.paths] else s)
        && RecordsAfter(there, records, plan[..n + 1]) ==
           (if Fits(there, t) then Put(rs, FirstOf(rs, t.file), NewRecord(t)) else rs)
    {
      var front, t := plan[..n], plan[n];
      assert plan[..n + 1][..n] == front && plan[..n + 1][n] == t;
      KeepsRecord(there, records, front, t.file);
      var i := FirstOf(records, t.file);
      if i < |records| {
        NameFollows(records, templates, i);
      }
      if t.stack in there {
        StaysThere(there, front, t.stack);
      } else {
        StaysAway(there, front, t.stack);
      }
      hide Orderly, Different, Lookup, FirstOf, Put;
    }

    /** StartMigrationContainer. */
    method Start(name: string) returns (r: Answer)
      requires Inv()
      modifies h`jobs, h`containers, h`log
      ensures Inv()
      ensures var i := First(old(h.containers), name);
        r.Accepted? <==>
          && h.initialized && h.report.Some? && !h.maintenance && name in stacks
          && i < |old(h.containers)| && !old(h.containers)[i].state.Settled?
          && forall k :: 0 <= k < |old(h.containers)| && old(h.containers)[k].state.Started? ==>
               old(h.containers)[k].name == name
      ensures var i := First(old(h.containers), name);
        r.Refused? ==>
          r.code == (if !h.initialized then ParityNotInitialized
                     else if h.report.None? then NoReport
                     else if i == |old(h.containers)| then StackNotMigrated
                     else if old(h.containers)[i].state.Settled? then AlreadyConfirmed
                     else if name !in stacks then NoSuchStack
                     else if h.maintenance then ArrayStopped
                     else OtherUnconfirmed)
      ensures var i := First(old(h.containers), name);
        r.Accepted? ==>
          && h.containers == old(h.containers)[i := Restarted(old(h.containers)[i])]
          && h.log == old(h.log) + [Queued(StackStart, Service), Begun(h.containers[i].source)]
      ensures r.Refused? ==> unchanged(h)
    {
      hide Lawful, At, Listed, Reflects, LifeOf, Jobs, Orderly;
      OnePhase(h.log);
      if !ParityInitialized() {
        return Refused(ParityNotInitialized);
      }
      if h.report.None? {
        return Refused(NoReport);
      }
      var i := IndexOf((s: Stack) => s.name == name);
      if i < 0 {
        return Refused(StackNotMigrated);
      }
      if h.containers[i].state.Settled? {
        return Refused(AlreadyConfirmed);
      }
      if name !in stacks {
        return Refused(NoSuchStack);
      }
      if h.maintenance {
        return Refused(ArrayStopped);
      }
      var other := OtherStarted(name);
      if other {
        return Refused(OtherUnconfirmed);
      }
      r := h.Queue(StackStart, Service);
      Begin(i);
    }

    method Begin(i: nat)
      requires Inv() && i < |h.containers| && !h.containers[i].state.Settled?
      requires forall k :: 0 <= k < i ==> h.containers[k].name != h.containers[i].name
      requires forall k :: 0 <= k < |h.containers| && h.containers[k].state.Started? ==>
        h.containers[k].name == h.containers[i].name
      modifies h`containers, h`log
      ensures Inv()
      ensures h.containers == old(h.containers)[i := Restarted(old(h.containers)[i])]
      ensures h.log == old(h.log) + [Begun(h.containers[i].source)]
    {
      hide Lawful, At, Listed, Reflects, LifeOf, Jobs, Orderly;
      BegunKeeps(h.log, h.jobs, h.containers, i, templates);
      h.containers := h.containers[i := Restarted(h.containers[i])];
      h.log := h.log + [Begun(h.containers[i].source)];
    }

    /** Whether a stack of another name is started and not confirmed. */
    method OtherStarted(name: string) returns (other: bool)
      ensures !other <==>
        forall k :: 0 <= k < |h.containers| && h.containers[k].state.Started? ==> h.containers[k].name == name
    {
      for n := 0 to |h.containers|
        invariant forall k :: 0 <= k < n && h.containers[k].state.Started? ==> h.containers[k].name == name
      {
        if h.containers[n].name != name && h.containers[n].state.Started? {
          return true;
        }
      }
      return false;
    }

    /** CheckMigrationContainer. A stack that was deleted since has no paths. */
    method Check(name: string) returns (refused: Option<Code>, allOk: bool)
      requires Inv()
      modifies h`containers, h`log
      ensures Inv()
      ensures refused.Some? ==> unchanged(h)
      ensures refused.None? ==> allOk == (name in stacks ==> forall p :: p in stacks[name] ==> !unsound(p))
      ensures var i := First(old(h.containers), name);
        refused.None? <==>
          h.initialized && h.report.Some? && i < |old(h.containers)| && !old(h.containers)[i].state.Created?
      ensures var i := First(old(h.containers), name);
        refused.Some? ==>
          refused.value == (if !h.initialized then ParityNotInitialized
                            else if h.report.None? then NoReport
                            else if i == |old(h.containers)| then StackNotMigrated
                            else NotStarted)
      ensures var i := First(old(h.containers), name);
        refused.None? ==>
          if old(h.containers)[i].state.Started? then
            && h.containers == old(h.containers)[i := old(h.containers)[i].(checked := true, checkFailed := !allOk)]
            && h.log == old(h.log) + [Checked(h.containers[i].source, allOk)]
          else unchanged(h)
    {
      hide Lawful, At, Listed, Reflects, LifeOf, Jobs, Orderly;
      OnePhase(h.log);
      allOk := true;
      if !ParityInitialized() {
        return Some(ParityNotInitialized), false;
      }
      if h.report.None? {
        return Some(NoReport), false;
      }
      var i := IndexOf((s: Stack) => s.name == name);
      if i < 0 {
        return Some(StackNotMigrated), false;
      }
      if h.containers[i].state.Created? {
        return Some(NotStarted), false;
      }
      refused := None;
      var paths := if name in stacks then stacks[name] else [];
      for n := 0 to |paths|
        invariant allOk == forall p :: p in paths[..n] ==> !unsound(p)
      {
        assert paths[..n + 1] == paths[..n] + [paths[n]];
        if unsound(paths[n]) {
          allOk := false;
        }
      }
      assert paths[..|paths|] == paths;
      if h.containers[i].state.Started? {
        CheckedKeeps(h.log, h.jobs, h.containers, i, allOk, templates);
        h.containers := h.containers[i := h.containers[i].(checked := true, checkFailed := !allOk)];
        h.log := h.log + [Checked(h.containers[i].source, allOk)];
      }
    }

    /** ConfirmMigrationContainer. */
    method Confirm(name: string, accept: bool) returns (refused: Option<Code>)
      requires Inv()
      modifies h`containers, h`log
      ensures Inv()
      ensures refused.Some? ==> unchanged(h)
      ensures var i := First(old(h.containers), name);
        refused.None? <==>
          && h.initialized && h.report.Some? && i < |old(h.containers)|
          && var s := old(h.containers)[i];
             s.state.Settled? || (s.state.Started? && s.checked && (!s.checkFailed || accept))
      ensures var i := First(old(h.containers), name);
        refused.Some? ==>
          refused.value == (if !h.initialized then ParityNotInitialized
                            else if h.report.None? then NoReport
                            else if i == |old(h.containers)| then StackNotMigrated
                            else if !old(h.containers)[i].state.Started? then NotStarted
                            else if !old(h.containers)[i].checked then CheckRequired
                            else CheckFailed)
      ensures var i := First(old(h.containers), name);
        refused.None? ==>
          if old(h.containers)[i].state.Settled? then unchanged(h)
          else
            && h.containers == old(h.containers)[i := old(h.containers)[i].(state := Settled)]
            && h.log == old(h.log) + [Confirmed(h.containers[i].source, accept)]
    {
      hide Lawful, At, Listed, Reflects, LifeOf, Jobs, Orderly;
      OnePhase(h.log);
      if !ParityInitialized() {
        return Some(ParityNotInitialized);
      }
      if h.report.None? {
        return Some(NoReport);
      }
      var i := IndexOf((s: Stack) => s.name == name);
      if i < 0 {
        return Some(StackNotMigrated);
      }
      var s := h.containers[i];
      if s.state.Settled? {
        return None;
      }
      if !s.state.Started? {
        return Some(NotStarted);
      }
      if !s.checked {
        return Some(CheckRequired);
      }
      if s.checkFailed && !accept {
        return Some(CheckFailed);
      }
      ConfirmedKeeps(h.log, h.jobs, h.containers, i, accept, templates);
      h.containers := h.containers[i := s.(state := Settled)];
      h.log := h.log + [Confirmed(s.source, accept)];
      return None;
    }

    /** One request to any of the handlers, or a change made elsewhere. */
    method Handle(r: Request)
      requires Inv()
      modifies this`stacks, h
      ensures Inv() && old(h.log) <= h.log
    {
      hide Lawful, At, Listed, Reflects, Orderly, MadeIn, Arrange;
      match r
      case Upload(flash) => var _ := h.Scan(flash);
      case Stick(dev, unverified) => var _ := h.DeviceScan(dev, unverified);
      case Forget => var _ := h.Forget();
      case Import(confirm, mapping) => var _ := h.Import(confirm, mapping);
      case Undo(confirm, mapping) => var _ := h.Undo(confirm, mapping);
      case Verify => var _ := h.Verify();
      case Initialize(text) => var _ := h.InitializeParity(text);
      case Submit(kind, group) => var _ := h.Queue(kind, group);
      case SubmitParity(kind) => var _ := h.SubmitParity(kind);
      case Maintain(on) => h.maintenance := on;
      case Select(items) => var _, _, _ := Create(items);
      case Start(name) => var _ := Start(name);
      case Check(name) => var _, _ := Check(name);
      case Confirm(name, accept) => var _ := Confirm(name, accept);
      case Change(name, paths) => ChangeStack(name, paths);
    }

    /** Every run of requests: what happened is a lawful log, and at most one
        migrated stack is started. */
    method Serve(requests: seq<Request>)
      requires Inv()
      modifies this`stacks, h
      ensures Inv() && old(h.log) <= h.log && Lawful(h.log)
      ensures forall i, j :: 0 <= i < j < |h.containers| ==>
        !(h.containers[i].state.Started? && h.containers[j].state.Started?)
    {
      for n := 0 to |requests|
        invariant Inv() && old(h.log) <= h.log
      {
        Handle(requests[n]);
      }
    }
  }

  lemma MadeKeeps(log: Log, jobs: seq<Job>, stacks: seq<Stack>, i: nat, x: Stack, ts: seq<Template>)
    requires Lawful(log) && At(log).done && Listed(jobs, log) && Reflects(stacks, log) && Orderly(stacks, ts)
    requires i <= |stacks| && x.state.Created?
    requires if i < |stacks| then stacks[i].source == x.source else forall k :: 0 <= k < |stacks| ==>
      stacks[k].source != x.source
    requires Lookup(ts, x.source).Some? && x.name == Lookup(ts, x.source).value.stack
    ensures Reflects(Put(stacks, i, x), log + [Event.Made(x.source)]) && Orderly(Put(stacks, i, x), ts)
    ensures Lawful(log + [Event.Made(x.source)]) && At(log + [Event.Made(x.source)]) == At(log)
    ensures Listed(jobs, log + [Event.Made(x.source)])
  {
    Placed(log, Event.Made(x.source), stacks, i, x);
    OrderlyPut(stacks, i, x, ts);
    hide Reflects, At, Orderly, LifeOf, Jobs;
  }

  lemma NameFollows(stacks: seq<Stack>, ts: seq<Template>, i: nat)
    requires Orderly(stacks, ts) && i < |stacks|
    ensures Lookup(ts, stacks[i].source).Some? && stacks[i].name == Lookup(ts, stacks[i].source).value.stack
  {
  }

  lemma OrderlyPut(stacks: seq<Stack>, i: nat, x: Stack, ts: seq<Template>)
    requires Orderly(stacks, ts) && i <= |stacks| && x.state.Created?
    requires i < |stacks| ==> stacks[i].source == x.source
    requires Lookup(ts, x.source).Some? && x.name == Lookup(ts, x.source).value.stack
    ensures Orderly(Put(stacks, i, x), ts)
  {
    var next := Put(stacks, i, x);
    assert forall k :: 0 <= k < |stacks| ==> next[k].name == stacks[k].name;
  }

  lemma BegunKeeps(log: Log, jobs: seq<Job>, stacks: seq<Stack>, i: nat, ts: seq<Template>)
    requires Lawful(log) && Listed(jobs, log) && Reflects(stacks, log) && Orderly(stacks, ts)
    requires i < |stacks| && !stacks[i].state.Settled?
    requires forall k :: 0 <= k < i ==> stacks[k].name != stacks[i].name
    requires forall k :: 0 <= k < |stacks| && stacks[k].state.Started? ==> stacks[k].name == stacks[i].name
    ensures var e, x := Begun(stacks[i].source), Restarted(stacks[i]);
      && Lawful(log + [e]) && At(log + [e]) == At(log) && Listed(jobs, log + [e])
      && Reflects(stacks[i := x], log + [e]) && Orderly(stacks[i := x], ts)
  {
    Placed(log, Begun(stacks[i].source), stacks, i, Restarted(stacks[i]));
    MayBegin(log, stacks, i);
  }

  lemma CheckedKeeps(log: Log, jobs: seq<Job>, stacks: seq<Stack>, i: nat, ok: bool, ts: seq<Template>)
    requires Lawful(log) && Listed(jobs, log) && Reflects(stacks, log) && Orderly(stacks, ts)
    requires i < |stacks| && stacks[i].state.Started?
    ensures var e, x := Checked(stacks[i].source, ok), stacks[i].(checked := true, checkFailed := !ok);
      && Lawful(log + [e]) && At(log + [e]) == At(log) && Listed(jobs, log + [e])
      && Reflects(stacks[i := x], log + [e]) && Orderly(stacks[i := x], ts)
  {
    Placed(log, Checked(stacks[i].source, ok), stacks, i, stacks[i].(checked := true, checkFailed := !ok));
  }

  lemma ConfirmedKeeps(log: Log, jobs: seq<Job>, stacks: seq<Stack>, i: nat, accept: bool, ts: seq<Template>)
    requires Lawful(log) && Listed(jobs, log) && Reflects(stacks, log) && Orderly(stacks, ts)
    requires i < |stacks| && stacks[i].state.Started? && stacks[i].checked && (stacks[i].checkFailed ==> accept)
    ensures var e, x := Confirmed(stacks[i].source, accept), stacks[i].(state := Settled);
      && Lawful(log + [e]) && At(log + [e]) == At(log) && Listed(jobs, log + [e])
      && Reflects(stacks[i := x], log + [e]) && Orderly(stacks[i := x], ts)
  {
    Placed(log, Confirmed(stacks[i].source, accept), stacks, i, stacks[i].(state := Settled));
  }
}
