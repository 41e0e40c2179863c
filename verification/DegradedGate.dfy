/** internal/disk/degraded.go and the identity rules it rests on: whether every
    expected disk is present with its own filesystem, and the user's choice to
    go on without. */
module DegradedGate {
  /** disk.Identity, as far as matching reads it. */
  datatype Identity = Identity(wwn: string, serial: string, fsUuid: string)

  /** Identity.Matches: by WWN when both have one, else by serial. */
  predicate Matches(a: Identity, b: Identity) {
    if a.wwn != "" && b.wwn != "" then a.wwn == b.wwn
    else a.serial != "" && b.serial != "" && a.serial == b.serial
  }

  /** FSUUIDMismatch: both sides known and different. */
  predicate OtherFilesystem(want: string, got: string) {
    want != "" && got != "" && want != got
  }

  /** An identity there is something to match by. */
  predicate Named(id: Identity) {
    id.wwn != "" || id.serial != ""
  }

  /** The disk found for an expected identity: the first that matches. */
  predicate FirstMatch(e: Identity, present: seq<Identity>, i: nat) {
    i < |present| && Matches(e, present[i]) && forall j :: 0 <= j < i ==> !Matches(e, present[j])
  }

  ghost predicate Absent(e: Identity, present: seq<Identity>) {
    forall j :: 0 <= j < |present| ==> !Matches(e, present[j])
  }

  ghost predicate WrongDisk(e: Identity, present: seq<Identity>) {
    exists i: nat :: FirstMatch(e, present, i) && OtherFilesystem(e.fsUuid, present[i].fsUuid)
  }

  /** ReadinessCheck. */
  datatype Check = Check(ready: bool, missing: seq<Identity>, wrongFs: seq<Identity>)

  /** A gate's contents: the last check, or none yet, and the acknowledgement. */
  datatype Gate = Gate(last: Check, acked: bool) {
    predicate Ready() {
      last.ready || acked
    }

    function Degraded(): seq<Identity> {
      last.missing + last.wrongFs
    }
  }

  const UNEVALUATED := Gate(Check(false, [], []), false)

  /** The expected disks that are absent, in order. */
  ghost function MissingOf(expected: seq<Identity>, present: seq<Identity>): seq<Identity> {
    if expected == [] then []
    else
      var e := expected[|expected| - 1];
      MissingOf(expected[..|expected| - 1], present) + (if Absent(e, present) then [e] else [])
  }

  /** The expected disks found with another filesystem, in order. */
  ghost function WrongOf(expected: seq<Identity>, present: seq<Identity>): seq<Identity> {
    if expected == [] then []
    else
      var e := expected[|expected| - 1];
      WrongOf(expected[..|expected| - 1], present) + (if WrongDisk(e, present) then [e] else [])
  }

  ghost predicate EvaluatesTo(expected: seq<Identity>, present: seq<Identity>, c: Check) {
    && c.missing == MissingOf(expected, present)
    && c.wrongFs == WrongOf(expected, present)
    && (c.ready <==> forall e :: e in expected ==> !Absent(e, present) && !WrongDisk(e, present))
  }

  lemma {:induction false} NothingDegraded(expected: seq<Identity>, present: seq<Identity>)
    ensures MissingOf(expected, present) == [] && WrongOf(expected, present) == [] <==>
            forall e :: e in expected ==> !Absent(e, present) && !WrongDisk(e, present)
  {
    if expected != [] {
      var front := expected[..|expected| - 1];
      assert expected == front + [expected[|expected| - 1]];
      NothingDegraded(front, present);
    }
  }

  /** Two identities are of one disk by WWN when both have one, whatever the
      serials, and else by a serial that both have. */
  lemma MatchesByStrongest(a: Identity, b: Identity)
    ensures a.wwn != "" && a.wwn == b.wwn ==> Matches(a, b)
    ensures a.wwn != "" && b.wwn != "" && a.wwn != b.wwn ==> !Matches(a, b)
    ensures (a.wwn == "" || b.wwn == "") && a.serial != "" && a.serial == b.serial ==> Matches(a, b)
    ensures (a.wwn == "" || b.wwn == "") && (a.serial == "" || a.serial != b.serial) ==> !Matches(a, b)
  {
  }

  /** Exactly these are listed: as missing the expected disks that nothing present
      matches, as wrong those whose first match has another filesystem, known on
      both sides. */
  lemma {:induction false} ListedExactly(expected: seq<Identity>, present: seq<Identity>, e: Identity)
    ensures e in MissingOf(expected, present) <==>
      e in expected && forall j :: 0 <= j < |present| ==> !Matches(e, present[j])
    ensures e in WrongOf(expected, present) <==>
      e in expected && exists i: nat ::
        FirstMatch(e, present, i) && e.fsUuid != "" && present[i].fsUuid != "" && e.fsUuid != present[i].fsUuid
  {
    if expected != [] {
      var front := expected[..|expected| - 1];
      assert expected == front + [expected[|expected| - 1]];
      ListedExactly(front, present, e);
      hide Matches, FirstMatch;
    }
  }

  /** A disk found with the filesystem it should have, or with one that cannot be
      told, is never listed. */
  lemma FoundIsNotListed(expected: seq<Identity>, present: seq<Identity>, e: Identity, i: nat)
    requires FirstMatch(e, present, i)
    requires e.fsUuid == present[i].fsUuid || e.fsUuid == "" || present[i].fsUuid == ""
    ensures e !in MissingOf(expected, present) && e !in WrongOf(expected, present)
  {
    ListedExactly(expected, present, e);
  }

  /** The search for a match: the first one, or past the end. */
  method FindMatch(e: Identity, present: seq<Identity>) returns (i: nat)
    ensures i == |present| ==> Absent(e, present)
    ensures i != |present| ==> FirstMatch(e, present, i) && !Absent(e, present)
    ensures WrongDisk(e, present) <==> i < |present| && OtherFilesystem(e.fsUuid, present[i].fsUuid)
  {
    i := 0;
    while i < |present| && !Matches(e, present[i])
      invariant i <= |present|
      invariant forall j :: 0 <= j < i ==> !Matches(e, present[j])
    {
      i := i + 1;
    }
  }

  /** evaluate. */
  method CheckDisks(expected: seq<Identity>, present: seq<Identity>) returns (c: Check)
    ensures EvaluatesTo(expected, present, c)
  {
    hide WrongDisk, Absent, Matches, OtherFilesystem;
    var missing, wrongFs := [], [];
    for n := 0 to |expected|
      invariant missing == MissingOf(expected[..n], present)
      invariant wrongFs == WrongOf(expected[..n], present)
    {
      var e := expected[n];
      var i := FindMatch(e, present);
      assert expected[..n + 1][..n] == expected[..n];
      if i == |present| {
        missing := missing + [e];
      } else if OtherFilesystem(e.fsUuid, present[i].fsUuid) {
        wrongFs := wrongFs + [e];
      }
    }
    assert expected[..|expected|] == expected;
    NothingDegraded(expected, present);
    c := Check(missing == [] && wrongFs == [], missing, wrongFs);
  }

  /** disk.StorageGate. */
  class StorageGate {
    const expected: seq<Identity>
    var gate: Gate

    constructor (expected: seq<Identity>)
      ensures this.expected == expected && gate == UNEVALUATED
    {
      this.expected, gate := expected, UNEVALUATED;
    }

    /** A whole array again ends an earlier acknowledgement. */
    method Evaluate(present: seq<Identity>)
      modifies this
      ensures EvaluatesTo(expected, present, gate.last)
      ensures gate.acked == (old(gate.acked) && !gate.last.ready)
      ensures gate.last.ready ==> gate.Ready()
      ensures !old(gate.acked) && !gate.last.ready ==> !gate.Ready()
    {
      var c := CheckDisks(expected, present);
      gate := Gate(c, gate.acked && !c.ready);
    }

    /** Refused when there is nothing to acknowledge. */
    method Acknowledge() returns (ok: bool)
      modifies this
      ensures ok == !old(gate.last.ready)
      ensures gate == if ok then old(gate).(acked := true) else old(gate)
      ensures gate.Ready()
    {
      ok := !gate.last.ready;
      if ok {
        gate := gate.(acked := true);
      }
    }
  }
}
