/** cmd/hoservad/sourcefilter_listener.go: the LAN-only filter at accept time,
    which can be turned off and on while connections are open. The sections
    under its mutex are the methods of Tracker; World interleaves them with
    everything that happens outside the mutex. */
module SourceFilter {
  /** auth.AllowedSource for a connection's address; none has no TCP address. */
  datatype Source = Lan | Elsewhere | Unknown

  predicate Allowed(s: Source, allowAll: bool) {
    s != Unknown && (allowAll || s == Lan)
  }

  type Sources = nat -> Source

  /** The connections a sweep takes out of the set. */
  function Refused(src: Sources, conns: set<nat>): set<nat> {
    set c | c in conns && !Allowed(src(c), false)
  }

  /** What the mutex guards, and what each section under it makes of that. */
  datatype Filter = Filter(allowAll: bool, conns: set<nat>)

  function SetTo(src: Sources, f: Filter, v: bool): Filter {
    Filter(v, if v then f.conns else f.conns - Refused(src, f.conns))
  }

  function Admitted(src: Sources, f: Filter, c: nat): Filter {
    if Allowed(src(c), f.allowAll) then f.(conns := f.conns + {c}) else f
  }

  function Forgotten(f: Filter, c: nat): Filter {
    f.(conns := f.conns - {c})
  }

  class Tracker {
    const src: Sources
    var allowAll: bool
    var conns: set<nat>

    constructor (src: Sources, allowAll: bool)
      ensures this.src == src && this.allowAll == allowAll && conns == {}
    {
      this.src, this.allowAll, this.conns := src, allowAll, {};
    }

    function Now(): Filter
      reads this
    {
      Filter(allowAll, conns)
    }

    /** SetAllowAll under the mutex; what it returns is closed after it. */
    method Set(v: bool) returns (refused: set<nat>)
      modifies this
      ensures Now() == SetTo(src, old(Now()), v)
      ensures refused == old(conns) - conns
    {
      allowAll, refused := v, {};
      if v {
        return;
      }
      var left := conns;
      while left != {}
        invariant allowAll == v && left <= old(conns)
        invariant refused == Refused(src, old(conns) - left)
        invariant conns == old(conns) - refused
        decreases left
      {
        var c :| c in left;
        if !Allowed(src(c), false) {
          refused, conns := refused + {c}, conns - {c};
        }
        left := left - {c};
      }
      assert old(conns) - left == old(conns);
    }

    /** Accept's check-and-track under the mutex. */
    method Admit(c: nat) returns (ok: bool)
      modifies this
      ensures ok == Allowed(src(c), allowAll)
      ensures Now() == Admitted(src, old(Now()), c)
    {
      ok := Allowed(src(c), allowAll);
      if ok {
        conns := conns + {c};
      }
    }

    /** filteredConn.Close under the mutex. */
    method Forget(c: nat)
      modifies this
      ensures Now() == Forgotten(old(Now()), c)
    {
      conns := conns - {c};
    }
  }

  // ----- interleavings -----

  /** filter is the Tracker's; held has the connections handed to
      the server; open those whose socket is open; checking those accepted but
      not yet checked; refusing those refused at accept, not yet closed;
      sweeping and closing those a SetAllowAll or a Close has taken out of the
      set and not yet closed. */
  datatype World = World(filter: Filter, held: set<nat>, open: set<nat>,
                         checking: set<nat>, refusing: set<nat>, sweeping: set<nat>, closing: set<nat>)

  datatype Step =
    | InnerAccepts(c: nat) | Check(c: nat) | CloseRefused(c: nat)
    | SetAllowAll(v: bool) | SweepCloses(c: nat)
    | CloseForgets(c: nat) | CloseCloses(c: nat)

  predicate Enabled(w: World, s: Step) {
    match s
    case InnerAccepts(c) => c !in w.open && c !in w.held && c !in w.checking && c !in w.refusing
    case Check(c) => c in w.checking
    case CloseRefused(c) => c in w.refusing
    case SetAllowAll(_) => true
    case SweepCloses(c) => c in w.sweeping
    case CloseForgets(c) => c in w.held
    case CloseCloses(c) => c in w.closing
  }

  function Take(src: Sources, w: World, s: Step): World
    requires Enabled(w, s)
  {
    match s
    case InnerAccepts(c) => w.(open := w.open + {c}, checking := w.checking + {c})
    case Check(c) =>
      var checked := w.(checking := w.checking - {c}, filter := Admitted(src, w.filter, c));
      if Allowed(src(c), w.filter.allowAll) then checked.(held := w.held + {c})
      else checked.(refusing := w.refusing + {c})
    case CloseRefused(c) => w.(refusing := w.refusing - {c}, open := w.open - {c})
    case SetAllowAll(v) =>
      var after := SetTo(src, w.filter, v);
      w.(filter := after, sweeping := w.sweeping + (w.filter.conns - after.conns))
    case SweepCloses(c) => w.(sweeping := w.sweeping - {c}, open := w.open - {c})
    case CloseForgets(c) => w.(filter := Forgotten(w.filter, c), closing := w.closing + {c})
    case CloseCloses(c) => w.(closing := w.closing - {c}, open := w.open - {c})
  }

  /** While the filter is on, only allowed sources are tracked, and whatever is
      open in the server's hands and no longer tracked is being closed. */
  ghost predicate Inv(src: Sources, w: World) {
    && (!w.filter.allowAll ==> forall c :: c in w.filter.conns ==> Allowed(src(c), false))
    && (forall c :: c in w.filter.conns ==> c in w.held)
    && (forall c :: c in w.held && c in w.open ==> c in w.filter.conns || c in w.sweeping || c in w.closing)
    && w.checking !! w.refusing && w.held !! (w.checking + w.refusing)
  }

  lemma TakeKeepsInv(src: Sources, w: World, s: Step)
    requires Inv(src, w) && Enabled(w, s)
    ensures Inv(src, Take(src, w, s))
  {
    if s.SetAllowAll? && !s.v {
      forall c | c in w.filter.conns - Refused(src, w.filter.conns)
        ensures Allowed(src(c), false)
      {
      }
    }
  }

  ghost predicate Run(src: Sources, w: World, steps: seq<Step>)
    decreases |steps|
  {
    steps == [] || (Enabled(w, steps[0]) && Run(src, Take(src, w, steps[0]), steps[1..]))
  }

  ghost function After(src: Sources, w: World, steps: seq<Step>): World
    requires Run(src, w, steps)
    decreases |steps|
  {
    if steps == [] then w else After(src, Take(src, w, steps[0]), steps[1..])
  }

  /** Who is let in: the LAN always, other sources while the filter is off, and a
      connection without a TCP address never. A sweep takes out exactly the other
      sources. */
  lemma WhoIsLetIn(src: Sources, f: Filter, c: nat)
    requires c !in f.conns
    ensures c in Admitted(src, f, c).conns <==> src(c) == Lan || (src(c) == Elsewhere && f.allowAll)
    ensures forall d :: d in f.conns && src(d) == Lan ==> d in SetTo(src, f, false).conns
    ensures forall d :: src(d) != Lan ==> d !in SetTo(src, f, false).conns
    ensures SetTo(src, f, true).conns == f.conns
  {
    assert c in Admitted(src, f, c).conns <==> Allowed(src(c), f.allowAll);
  }

  /** In every interleaving: while the filter is on, a connection from outside
      the LAN that the server still holds open is already being closed. */
  lemma {:induction false} NoneAdmittedBehindASweep(src: Sources, w: World, steps: seq<Step>)
    requires Inv(src, w) && Run(src, w, steps)
    ensures var v := After(src, w, steps);
            && Inv(src, v)
            && (!v.filter.allowAll ==> forall c :: c in v.held && c in v.open && !Allowed(src(c), false) ==>
                  c in v.sweeping || c in v.closing)
    decreases |steps|
  {
    if steps != [] {
      TakeKeepsInv(src, w, steps[0]);
      NoneAdmittedBehindASweep(src, Take(src, w, steps[0]), steps[1..]);
    }
  }

  const EMPTY := World(Filter(true, {}), {}, {}, {}, {}, {}, {})

  /** Once the filter is on and its sweeps and closes are through, the server
      holds no connection from outside the LAN. */
  lemma SweptClean(src: Sources, steps: seq<Step>)
    requires Run(src, EMPTY, steps)
    requires var v := After(src, EMPTY, steps); !v.filter.allowAll && v.sweeping == {} && v.closing == {}
    ensures var v := After(src, EMPTY, steps); forall c :: c in v.held && c in v.open ==> Allowed(src(c), false)
  {
    NoneAdmittedBehindASweep(src, EMPTY, steps);
  }

  /** The check in two sections, as it would be without the mutex around both:
      looking at the setting, and tracking what was found allowed. */
  predicate Looks(src: Sources, w: World, c: nat) {
    c in w.checking && Allowed(src(c), w.filter.allowAll)
  }

  function Track(w: World, c: nat): World {
    w.(checking := w.checking - {c}, filter := w.filter.(conns := w.filter.conns + {c}), held := w.held + {c})
  }

  /** With nothing in between the two are the check. */
  lemma CheckIsLookThenTrack(src: Sources, w: World, c: nat)
    requires Looks(src, w, c)
    ensures Take(src, w, Check(c)) == Track(w, c)
  {
  }

  /** With a SetAllowAll in between they let a connection through behind its
      sweep: the filter is on, the source refused, and nobody is closing it. */
  lemma UnlockedCheckLeaks(src: Sources, c: nat)
    requires src(c) == Elsewhere
    ensures var accepted := Take(src, EMPTY, InnerAccepts(c));
            var late := Track(Take(src, accepted, SetAllowAll(false)), c);
            && Looks(src, accepted, c) && !late.filter.allowAll
            && c in late.open && c in late.held && c !in late.sweeping && c !in late.closing
            && !Allowed(src(c), false) && !Inv(src, late)
  {
    var late := Track(Take(src, Take(src, EMPTY, InnerAccepts(c)), SetAllowAll(false)), c);
    assert c in late.filter.conns;
  }
}
