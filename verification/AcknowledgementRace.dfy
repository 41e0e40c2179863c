/** The acknowledge hook (wireAcknowledgeDegraded) and the rebuild closure
    (newRebuildArraySequence) of cmd/hoservad/array.go as interleaved steps:
    any number of threads, each somewhere in one of the two, with seqMu. */
module AcknowledgementRace {
  import opened Wrappers
  import opened DegradedGate
  import opened Acknowledgement

  /** Where a thread is. The hook: holding the lock, after Acknowledge, after
      record. The rebuild: holding the lock, with a gate built, with the
      acknowledgement reapplied to it, after publishing it. */
  datatype Pc =
    | Idle
    | HookLocked | HookAcked | HookRecorded
    | RebuildLocked | Built(gate: Gate) | Reapplied(gate: Gate) | Published

  datatype World = World(lock: Option<nat>, pcs: map<nat, Pc>, published: Option<Gate>, ids: seq<Identity>)

  function PcOf(w: World, t: nat): Pc {
    if t in w.pcs then w.pcs[t] else Idle
  }

  function Move(w: World, t: nat, pc: Pc): World {
    w.(pcs := w.pcs[t := pc])
  }

  function Release(w: World, t: nat): World {
    Move(w, t, Idle).(lock := None)
  }

  /** A freshly built gate: checked or not, never yet acknowledged. */
  ghost predicate Fresh(g: Gate) {
    Sound(g) && !g.acked && AllNamed(g.Degraded())
  }

  // The steps of thread t from a to b.

  ghost predicate Acquire(a: World, b: World, t: nat) {
    a.lock == None && PcOf(a, t) == Idle &&
    (b == Move(a, t, HookLocked).(lock := Some(t)) || b == Move(a, t, RebuildLocked).(lock := Some(t)))
  }

  /** gate.Acknowledge on the published gate, or giving up. */
  ghost predicate HookAcks(a: World, b: World, t: nat) {
    PcOf(a, t) == HookLocked &&
    if a.published.None? || a.published.value.last.ready then b == Release(a, t)
    else b == Move(a, t, HookAcked).(published := Some(a.published.value.(acked := true)))
  }

  ghost predicate HookRecords(a: World, b: World, t: nat) {
    PcOf(a, t) == HookAcked && a.published.Some? &&
    b == Move(a, t, HookRecorded).(ids := a.published.value.Degraded())
  }

  /** newArraySequence: an error gives up, no array publishes nothing. */
  ghost predicate RebuildBuilds(a: World, b: World, t: nat) {
    PcOf(a, t) == RebuildLocked &&
    (b == Release(a, t) || b == Move(a, t, Published).(published := None) ||
     exists g: Gate :: Fresh(g) && b == Move(a, t, Built(g)))
  }

  ghost predicate RebuildReapplies(a: World, b: World, t: nat) {
    PcOf(a, t).Built? &&
    var g := PcOf(a, t).gate;
    b == Move(a, t, Reapplied(ReapplyGate(g, a.ids))).(ids := ReapplyIds(g, a.ids))
  }

  ghost predicate RebuildPublishes(a: World, b: World, t: nat) {
    PcOf(a, t).Reapplied? && b == Move(a, t, Published).(published := Some(PcOf(a, t).gate))
  }

  /** The storage target's update and the deferred unlock. */
  ghost predicate Leaves(a: World, b: World, t: nat) {
    (PcOf(a, t) == HookRecorded || PcOf(a, t) == Published) && b == Release(a, t)
  }

  ghost predicate Step(a: World, b: World, t: nat) {
    || Acquire(a, b, t)
    || HookAcks(a, b, t)
    || HookRecords(a, b, t)
    || RebuildBuilds(a, b, t)
    || RebuildReapplies(a, b, t)
    || RebuildPublishes(a, b, t)
    || Leaves(a, b, t)
  }

  // ----- the invariant -----

  ghost predicate PublishedAgrees(w: World) {
    w.published.Some? ==> Agrees(w.published.value, w.ids)
  }

  ghost predicate Inv(w: World) {
    && (w.published.Some? ==> Sound(w.published.value) && AllNamed(w.published.value.Degraded()))
    && (forall t: nat :: PcOf(w, t) != Idle <==> w.lock == Some(t))
    && (w.lock == None ==> PublishedAgrees(w))
    && (w.lock.Some? ==> Holding(w, PcOf(w, w.lock.value)))
  }

  /** What holds while a thread is at pc with the lock. */
  ghost predicate Holding(w: World, pc: Pc) {
    match pc
    case HookAcked => w.published.Some? && w.published.value.acked && !w.published.value.last.ready
    case Built(g) => Fresh(g) && PublishedAgrees(w)
    case Reapplied(g) => Agrees(g, w.ids) && Sound(g) && AllNamed(g.Degraded())
    case _ => PublishedAgrees(w)
  }

  lemma StepKeepsInv(a: World, b: World, t: nat)
    requires Inv(a) && Step(a, b, t)
    ensures Inv(b)
  {
    if HookRecords(a, b, t) {
      RecordCoversExactlyNamed(a.published.value.Degraded());
    } else if RebuildReapplies(a, b, t) {
      ReapplyAgrees(PcOf(a, t).gate, a.ids);
    }
    LockFollows(a, b, t);
    assert Acquire(a, b, t) ==> Holding(b, PcOf(b, t));
  }

  /** Only the thread that steps moves; it takes a free lock, or is under way and
      keeps the lock or gives it back. */
  lemma OneMoves(a: World, b: World, t: nat)
    requires Step(a, b, t)
    ensures b.pcs == a.pcs[t := PcOf(b, t)]
    ensures if PcOf(a, t) == Idle then a.lock == None && b.lock == Some(t) && PcOf(b, t) != Idle
            else b.lock == if PcOf(b, t) == Idle then None else a.lock
  {
    hide Fresh;
  }

  lemma LockFollows(a: World, b: World, t: nat)
    requires forall u: nat :: PcOf(a, u) != Idle <==> a.lock == Some(u)
    requires Step(a, b, t)
    ensures forall u: nat :: PcOf(b, u) != Idle <==> b.lock == Some(u)
  {
    OneMoves(a, b, t);
    hide Step;
    forall u: nat
      ensures PcOf(b, u) != Idle <==> b.lock == Some(u)
    {
      assert u != t ==> PcOf(b, u) == PcOf(a, u);
      assert PcOf(a, t) != Idle <==> a.lock == Some(t);
    }
  }

  /** A step taken: the thread and the world it leaves. */
  datatype Tick = Tick(thread: nat, after: World)

  ghost predicate Run(w: World, ticks: seq<Tick>)
    decreases |ticks|
  {
    ticks == [] || (Step(w, ticks[0].after, ticks[0].thread) && Run(ticks[0].after, ticks[1..]))
  }

  function Last(w: World, ticks: seq<Tick>): World {
    if ticks == [] then w else ticks[|ticks| - 1].after
  }

  /** In every interleaving, whenever seqMu is free, a published gate with
      degraded slots is acknowledged if and only if each of them is recorded. */
  lemma {:induction false} EveryInterleavingAgrees(w: World, ticks: seq<Tick>)
    requires Inv(w) && Run(w, ticks)
    ensures Inv(Last(w, ticks))
    ensures Last(w, ticks).lock == None ==> PublishedAgrees(Last(w, ticks))
    decreases |ticks|
  {
    if ticks != [] {
      StepKeepsInv(w, ticks[0].after, ticks[0].thread);
      EveryInterleavingAgrees(ticks[0].after, ticks[1..]);
    }
  }

  /** The gates newArraySequence builds are fresh: one that was evaluated, over
      expected disks that can all be matched, or one whose listing failed. */
  lemma {:induction false} DegradedAreExpected(expected: seq<Identity>, present: seq<Identity>)
    requires AllNamed(expected)
    ensures AllNamed(MissingOf(expected, present)) && AllNamed(WrongOf(expected, present))
  {
    if expected != [] {
      DegradedAreExpected(expected[..|expected| - 1], present);
    }
  }

  lemma BuiltGatesAreFresh(expected: seq<Identity>, present: seq<Identity>, c: Check)
    requires AllNamed(expected) && EvaluatesTo(expected, present, c)
    ensures Fresh(Gate(c, false)) && Fresh(UNEVALUATED)
    ensures c.ready <==> Gate(c, false).Degraded() == []
  {
    NothingDegraded(expected, present);
    DegradedAreExpected(expected, present);
  }

  /** A daemon that has published its first gate and acknowledged nothing. */
  lemma FreshStartHolds(g: Gate)
    requires Fresh(g)
    ensures Inv(World(None, map[], Some(g), []))
  {
    if g.Degraded() != [] {
      assert !Known(g.Degraded()[0], []);
    }
  }

  /** Without the lock the same steps can publish an unacknowledged gate over an
      acknowledgement already reported as made: the rebuild reapplies before the
      hook records and publishes after it. */
  lemma UnlockedRaceLosesIt(g: Gate) returns (w0: World, w1: World, w2: World, w3: World, w4: World)
    requires Fresh(g) && g.Degraded() != []
    ensures w0.published == Some(g) && PcOf(w0, 0) == HookLocked && PcOf(w0, 1) == Built(g)
    ensures RebuildReapplies(w0, w1, 1) && HookAcks(w1, w2, 0) && HookRecords(w2, w3, 0) && RebuildPublishes(w3, w4, 1)
    ensures Covered(g.Degraded(), w4.ids) && w4.published.Some? && !w4.published.value.Ready()
  {
    assert !Known(g.Degraded()[0], []);
    assert ReapplyGate(g, []) == g;
    w0 := World(None, map[0 := HookLocked, 1 := Built(g)], Some(g), []);
    w1 := Move(w0, 1, Reapplied(g));
    w2 := Move(w1, 0, HookAcked).(published := Some(g.(acked := true)));
    w3 := Move(w2, 0, HookRecorded).(ids := g.Degraded());
    w4 := Move(w3, 1, Published).(published := Some(g));
    RecordCoversExactlyNamed(g.Degraded());
  }
}
