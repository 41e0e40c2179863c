/** cmd/hoservad/array.go: the holder that carries the user's acknowledgement of
    a degraded array from one rebuilt gate to the next, and the two closures
    that race for it under seqMu. */
module Acknowledgement {
  import opened Wrappers
  import opened DegradedGate

  /** Every slot matches an identity of ids. */
  ghost predicate Covered(slots: seq<Identity>, ids: seq<Identity>) {
    forall i :: 0 <= i < |slots| ==> Known(slots[i], ids)
  }

  ghost predicate Known(slot: Identity, ids: seq<Identity>) {
    exists j :: 0 <= j < |ids| && Matches(slot, ids[j])
  }

  ghost predicate AllNamed(slots: seq<Identity>) {
    forall i :: 0 <= i < |slots| ==> Named(slots[i])
  }

  /** A gate that reports a degraded slot is not ready of itself. */
  ghost predicate Sound(g: Gate) {
    g.Degraded() != [] ==> !g.last.ready
  }

  /** The holder's view of a published gate: its degraded slots are acknowledged
      if and only if each is one the user has acknowledged. */
  ghost predicate Agrees(g: Gate, ids: seq<Identity>) {
    g.Degraded() != [] ==> (g.acked <==> Covered(g.Degraded(), ids))
  }

  // ----- the holder -----

  /** What reapply makes of a freshly built gate. */
  ghost function ReapplyGate(g: Gate, ids: seq<Identity>): Gate {
    if g.Degraded() != [] && Covered(g.Degraded(), ids) && !g.last.ready then g.(acked := true) else g
  }

  ghost function ReapplyIds(g: Gate, ids: seq<Identity>): seq<Identity> {
    if g.Degraded() == [] then [] else ids
  }

  class Holder {
    var identities: seq<Identity>

    constructor ()
      ensures identities == []
    {
      identities := [];
    }

    /** record. */
    method Record(missing: seq<Identity>, wrongFs: seq<Identity>)
      modifies this
      ensures identities == missing + wrongFs
    {
      var ids := [];
      for i := 0 to |missing|
        invariant ids == missing[..i]
      {
        ids := ids + [missing[i]];
      }
      for i := 0 to |wrongFs|
        invariant ids == missing + wrongFs[..i]
      {
        ids := ids + [wrongFs[i]];
      }
      identities := ids;
    }

    /** reapply. */
    method Reapply(g: StorageGate)
      modifies this, g
      ensures g.gate == ReapplyGate(old(g.gate), old(identities))
      ensures identities == ReapplyIds(old(g.gate), old(identities))
    {
      var degraded := g.gate.Degraded();
      if degraded == [] {
        identities := [];
        return;
      }
      for i := 0 to |degraded|
        invariant Covered(degraded[..i], identities)
      {
        var j := 0;
        while j < |identities| && !Matches(degraded[i], identities[j])
          invariant j <= |identities|
          invariant forall k :: 0 <= k < j ==> !Matches(degraded[i], identities[k])
        {
          j := j + 1;
        }
        if j == |identities| {
          assert !Known(degraded[i], identities);
          return;
        }
        assert Known(degraded[i], identities);
      }
      assert degraded[..|degraded|] == degraded;
      var _ := g.Acknowledge();
    }
  }

  // ----- what recording and reapplying keep -----

  /** An identity with neither WWN nor serial matches nothing, itself included. */
  lemma NamelessMatchesNothing(a: Identity, b: Identity)
    requires !Named(a)
    ensures !Matches(a, b)
  {
  }

  /** Recording the slots behind an acknowledgement covers them exactly when
      every one of them can be matched at all. */
  lemma RecordCoversExactlyNamed(slots: seq<Identity>)
    ensures Covered(slots, slots) <==> AllNamed(slots)
  {
    forall i | 0 <= i < |slots|
      ensures Known(slots[i], slots) <==> Named(slots[i])
    {
      if Named(slots[i]) {
        assert Matches(slots[i], slots[i]);
      } else {
        forall j | 0 <= j < |slots|
          ensures !Matches(slots[i], slots[j])
        {
          NamelessMatchesNothing(slots[i], slots[j]);
        }
      }
    }
  }

  lemma ReapplyAgrees(g: Gate, ids: seq<Identity>)
    requires Sound(g) && !g.acked
    ensures Agrees(ReapplyGate(g, ids), ReapplyIds(g, ids)) && Sound(ReapplyGate(g, ids))
  {
  }

  /** A rebuild that finds nothing new degraded keeps the acknowledgement. */
  lemma RebuildKeepsAcknowledgement(before: Gate, ids: seq<Identity>, g: Gate)
    requires Agrees(before, ids) && before.acked && before.Degraded() != []
    requires Sound(g) && !g.acked && g.Degraded() != []
    requires forall i :: 0 <= i < |g.Degraded()| ==> g.Degraded()[i] in before.Degraded()
    ensures ReapplyGate(g, ids).acked && ReapplyGate(g, ids).Ready() && ReapplyIds(g, ids) == ids
  {
    var slots := g.Degraded();
    forall i | 0 <= i < |slots|
      ensures Known(slots[i], ids)
    {
      var k :| 0 <= k < |before.Degraded()| && before.Degraded()[k] == slots[i];
      assert Known(before.Degraded()[k], ids);
    }
  }

  /** A slot the user has not acknowledged is never covered by an earlier one. */
  lemma NewSlotIsNotCovered(g: Gate, ids: seq<Identity>, i: nat)
    requires Sound(g) && !g.acked && i < |g.Degraded()| && !Known(g.Degraded()[i], ids)
    ensures !ReapplyGate(g, ids).Ready()
  {
    assert !Covered(g.Degraded(), ids);
  }

  /** A rebuild that cannot list the disks forgets the acknowledgement: the same
      slot found degraded by the next one is not covered any more. */
  lemma UnlistedRebuildForgets(ids: seq<Identity>, g: Gate)
    requires Sound(g) && !g.acked && g.Degraded() != []
    ensures ReapplyIds(UNEVALUATED, ids) == []
    ensures !ReapplyGate(g, ReapplyIds(UNEVALUATED, ids)).Ready()
  {
    assert !Known(g.Degraded()[0], []);
  }
}
