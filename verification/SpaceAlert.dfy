/** cmd/hoservad/space_alert.go: the disk-near-minfreespace and the
    rebalance-suggested alerts, edge-triggered, retried until delivered. The
    ghost logs hold what the ticks saw and what they tried to publish. */
module SpaceAlert {
  import opened Wrappers

  datatype Disk = Disk(path: string, near: bool)

  /** A disk seen by a tick; tried says whether the alert was published. */
  datatype Sight = Sight(disk: Disk, tried: Option<bool>)

  /** A suggestion, or none, seen by a tick. */
  datatype Tip = Tip(path: Option<string>, tried: Option<bool>)

  /** A tick with no array or data disk, or whose space could not be read, does
      nothing. */
  datatype Tick = Unread | Read(disks: seq<Disk>, suggestion: Option<string>)

  /** The disk was near at its last sight, and an alert was delivered for it. */
  ghost predicate Alerted(log: seq<Sight>, path: string) {
    log != [] &&
    var s, before := log[|log| - 1], log[..|log| - 1];
    if s.disk.path != path then Alerted(before, path)
    else s.disk.near && (s.tried == Some(true) || Alerted(before, path))
  }

  /** The suggestion delivered last, unless a tick had none since. */
  ghost function Suggested(log: seq<Tip>): (r: string) {
    if log == [] then ""
    else
      var t, before := log[|log| - 1], log[..|log| - 1];
      if t.path.None? then "" else if t.tried == Some(true) then t.path.value else Suggested(before)
  }

  ghost predicate Proper(log: seq<Sight>) {
    log == [] ||
    var s, before := log[|log| - 1], log[..|log| - 1];
    Proper(before) && (s.tried.Some? <==> s.disk.near && !Alerted(before, s.disk.path))
  }

  ghost predicate ProperTips(log: seq<Tip>) {
    log == [] ||
    var t, before := log[|log| - 1], log[..|log| - 1];
    ProperTips(before) && (t.tried.Some? <==> t.path.Some? && t.path.value != Suggested(before))
  }

  class Runner {
    var nearMinFreeSpace: map<string, bool>
    var rebalanceSuggestion: string
    ghost var sights: seq<Sight>
    ghost var tips: seq<Tip>

    ghost predicate Inv()
      reads this
    {
      && Proper(sights) && ProperTips(tips) && rebalanceSuggestion == Suggested(tips)
      && forall p :: Alerted(sights, p) <==> p in nearMinFreeSpace && nearMinFreeSpace[p]
    }

    constructor ()
      ensures Inv() && sights == [] && tips == []
    {
      nearMinFreeSpace, rebalanceSuggestion, sights, tips := map[], "", [], [];
    }

    /** Any publish can fail. */
    method TickNearMinFreeSpace(disks: seq<Disk>)
      requires Inv()
      modifies this`nearMinFreeSpace, this`sights
      ensures Inv() && |sights| == |old(sights)| + |disks| && old(sights) <= sights
      ensures forall i :: 0 <= i < |disks| ==> sights[|old(sights)| + i].disk == disks[i]
    {
      for n := 0 to |disks|
        invariant Inv() && |sights| == |old(sights)| + n && old(sights) <= sights
        invariant forall i :: 0 <= i < n ==> sights[|old(sights)| + i].disk == disks[i]
      {
        var d := disks[n];
        var was := d.path in nearMinFreeSpace && nearMinFreeSpace[d.path];
        if d.near && !was {
          var published: bool := *;
          Seen(sights, Sight(d, Some(published)));
          sights := sights + [Sight(d, Some(published))];
          if !published {
            continue;
          }
        } else {
          Seen(sights, Sight(d, None));
          sights := sights + [Sight(d, None)];
        }
        nearMinFreeSpace := nearMinFreeSpace[d.path := d.near];
      }
    }

    method TickRebalanceSuggestion(suggestion: Option<string>)
      requires Inv()
      modifies this`rebalanceSuggestion, this`tips
      ensures Inv() && |tips| == |old(tips)| + 1 && old(tips) <= tips && tips[|old(tips)|].path == suggestion
    {
      hide Proper, Alerted, ProperTips, Suggested;
      var suggestedPath := "";
      var tried: Option<bool> := None;
      if suggestion.Some? {
        suggestedPath := suggestion.value;
        if suggestedPath != rebalanceSuggestion {
          var published: bool := *;
          tried := Some(published);
        }
      }
      Tipped(tips, Tip(suggestion, tried));
      tips := tips + [Tip(suggestion, tried)];
      if tried == Some(false) {
        return;
      }
      rebalanceSuggestion := suggestedPath;
    }

    /** Every run of ticks. */
    method Run(ticks: seq<Tick>)
      requires Inv()
      modifies this
      ensures Inv() && old(sights) <= sights && old(tips) <= tips
    {
      for n := 0 to |ticks|
        invariant Inv() && old(sights) <= sights && old(tips) <= tips
      {
        match ticks[n]
        case Unread =>
        case Read(disks, suggestion) =>
          TickNearMinFreeSpace(disks);
          TickRebalanceSuggestion(suggestion);
      }
    }
  }

  lemma Tipped(log: seq<Tip>, t: Tip)
    ensures ProperTips(log + [t]) <==>
      ProperTips(log) && (t.tried.Some? <==> t.path.Some? && t.path.value != Suggested(log))
    ensures t.path.None? ==> Suggested(log + [t]) == ""
    ensures t.path.Some? ==> Suggested(log + [t]) == if t.tried == Some(true) then t.path.value else Suggested(log)
  {
    assert (log + [t])[..|log|] == log;
  }

  lemma Seen(log: seq<Sight>, s: Sight)
    ensures Proper(log + [s]) <==> Proper(log) && (s.tried.Some? <==> s.disk.near && !Alerted(log, s.disk.path))
    ensures forall p :: Alerted(log + [s], p) <==>
      if p != s.disk.path then Alerted(log, p) else s.disk.near && (s.tried == Some(true) || Alerted(log, p))
  {
    assert (log + [s])[..|log|] == log;
  }

  // ----- stretches -----

  /** The alert of a disk was delivered at a and the disk was near at every
      sight of it from there up to i. */
  ghost predicate DeliveredAt(log: seq<Sight>, a: nat, i: nat, path: string)
    requires a < i <= |log|
  {
    && log[a].disk.path == path && log[a].tried == Some(true)
    && forall c :: a <= c < i && log[c].disk.path == path ==> log[c].disk.near
  }

  lemma {:induction false} ProperPrefix(log: seq<Sight>, i: nat)
    requires Proper(log) && i < |log|
    ensures Proper(log[..i]) && (log[i].tried.Some? <==> log[i].disk.near && !Alerted(log[..i], log[i].disk.path))
    decreases |log|
  {
    if i < |log| - 1 {
      ProperPrefix(log[..|log| - 1], i);
      assert log[..|log| - 1][..i] == log[..i];
    }
  }

  lemma {:induction false} AlertedSince(log: seq<Sight>, path: string) returns (a: nat)
    requires Proper(log) && Alerted(log, path)
    ensures a < |log| && DeliveredAt(log, a, |log|, path)
    decreases |log|
  {
    var s, before := log[|log| - 1], log[..|log| - 1];
    if s.disk.path == path && s.tried == Some(true) {
      a := |log| - 1;
    } else {
      a := AlertedSince(before, path);
      assert forall c :: 0 <= c < |log| - 1 ==> log[c] == before[c];
    }
  }

  lemma {:induction false} StillAlerted(log: seq<Sight>, a: nat, path: string)
    requires Proper(log) && a < |log| && DeliveredAt(log, a, |log|, path)
    ensures Alerted(log, path)
    decreases |log|
  {
    if a < |log| - 1 {
      var before := log[..|log| - 1];
      assert forall c :: 0 <= c < |log| - 1 ==> log[c] == before[c];
      StillAlerted(before, a, path);
    }
  }

  /** A sight of a disk tries to alert if and only if the disk is near and no
      alert has been delivered in this stretch: one attempt a sight until the
      first success, none after it, none outside. */
  lemma OneAttemptUntilDelivered(log: seq<Sight>, i: nat)
    requires Proper(log) && i < |log|
    ensures log[i].tried.Some? <==>
      log[i].disk.near && !exists a: nat :: a < i && DeliveredAt(log, a, i, log[i].disk.path)
  {
    ProperPrefix(log, i);
    var before, path := log[..i], log[i].disk.path;
    assert forall c :: 0 <= c < i ==> log[c] == before[c];
    if Alerted(before, path) {
      var a := AlertedSince(before, path);
      assert DeliveredAt(log, a, i, path);
    } else {
      forall a: nat | a < i && DeliveredAt(log, a, i, path)
        ensures false
      {
        StillAlerted(before, a, path);
      }
    }
  }

  /** Between two alerts delivered for a disk it was seen not near. */
  lemma DeliveredOncePerStretch(log: seq<Sight>, a: nat, b: nat) returns (c: nat)
    requires Proper(log) && a < b < |log| && log[a].disk.path == log[b].disk.path
    requires log[a].tried == Some(true) && log[b].tried == Some(true)
    ensures a < c < b && log[c].disk.path == log[a].disk.path && !log[c].disk.near
  {
    OneAttemptUntilDelivered(log, b);
    ProperPrefix(log, a);
    assert !DeliveredAt(log, a, b, log[b].disk.path);
    c :| a <= c < b && log[c].disk.path == log[a].disk.path && !log[c].disk.near;
  }

  // ----- suggestions -----

  lemma {:induction false} TipsPrefix(log: seq<Tip>, i: nat)
    requires ProperTips(log) && i < |log|
    ensures ProperTips(log[..i])
    ensures (log[i].tried.Some? <==> log[i].path.Some? && log[i].path.value != Suggested(log[..i]))
    decreases |log|
  {
    if i < |log| - 1 {
      TipsPrefix(log[..|log| - 1], i);
      assert log[..|log| - 1][..i] == log[..i];
    }
  }

  /** The last delivery, with no tick without a suggestion after it. */
  ghost predicate LastDelivered(log: seq<Tip>, a: nat, i: nat, path: string)
    requires a < i <= |log|
  {
    && log[a] == Tip(Some(path), Some(true))
    && forall c :: a < c < i ==> log[c].path.Some? && log[c].tried != Some(true)
  }

  lemma {:induction false} SuggestedSince(log: seq<Tip>) returns (a: nat)
    requires Suggested(log) != ""
    ensures a < |log| && LastDelivered(log, a, |log|, Suggested(log))
    decreases |log|
  {
    var t, before := log[|log| - 1], log[..|log| - 1];
    if t.tried == Some(true) {
      a := |log| - 1;
    } else {
      a := SuggestedSince(before);
      assert forall c :: 0 <= c < |log| - 1 ==> log[c] == before[c];
    }
  }

  lemma {:induction false} StillSuggested(log: seq<Tip>, a: nat, path: string)
    requires a < |log| && LastDelivered(log, a, |log|, path)
    ensures Suggested(log) == path
    decreases |log|
  {
    if a < |log| - 1 {
      var before := log[..|log| - 1];
      assert forall c :: 0 <= c < |log| - 1 ==> log[c] == before[c];
      StillSuggested(before, a, path);
    }
  }

  /** A suggestion is published if and only if it is not the one delivered last,
      which a tick without a suggestion makes the daemon forget. */
  lemma SentUnlessDeliveredLast(log: seq<Tip>, i: nat)
    requires ProperTips(log) && i < |log| && log[i].path.Some? && log[i].path.value != ""
    ensures log[i].tried.Some? <==> !exists a: nat :: a < i && LastDelivered(log, a, i, log[i].path.value)
  {
    TipsPrefix(log, i);
    var before := log[..i];
    assert forall c :: 0 <= c < i ==> log[c] == before[c];
    if Suggested(before) == log[i].path.value {
      var a := SuggestedSince(before);
      assert LastDelivered(log, a, i, log[i].path.value);
    } else {
      forall a: nat | a < i && LastDelivered(log, a, i, log[i].path.value)
        ensures false
      {
        StillSuggested(before, a, log[i].path.value);
      }
    }
  }
}
