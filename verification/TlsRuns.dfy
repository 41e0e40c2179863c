/** Whole runs of the certificate code: boots, installs and crashes, each act
    being found at any point its method in TlsInstall visits. */
module TlsRuns {
  import opened Wrappers
  import opened TlsPair

  datatype Act = Boot(generated: Pair) | Replace(offered: Pair)

  /** One act, the disk it was found at when it ended or the machine stopped,
      and the disk the next act starts from. */
  datatype Stage = Stage(act: Act, at: Disk, after: Disk)

  /** The disks an act that starts at s can be found at. */
  ghost predicate During(m: Matcher, s: Disk, act: Act, t: Disk) {
    || t == s
    || (act.Boot? && Booting(m, s, act.generated, t))
    || (act.Replace? && m(act.offered.cert, act.offered.key) && Installing(m, s, act.offered, t))
  }

  function Final(s: Disk, run: seq<Stage>): Disk {
    if run == [] then s else run[|run| - 1].after
  }

  // ----- changes persist in program order -----

  /** An act ends or is cut short anywhere; a crash keeps every change made. */
  ghost predicate Ordered(m: Matcher, s: Disk, run: seq<Stage>)
    decreases |run|
  {
    run == [] ||
    (&& During(m, s, run[0].act, run[0].at)
     && (run[0].after == run[0].at || run[0].after == Rebooted(run[0].at.now))
     && Ordered(m, run[0].after, run[1..]))
  }

  /** From an empty directory on, no run ever reaches a certificate that cannot
      be loaded or repaired. */
  lemma {:induction false} OrderedRunsStayRecoverable(m: Matcher, s: Disk, run: seq<Stage>)
    requires Recoverable(m, s.now) && Ordered(m, s, run)
    ensures Recoverable(m, Final(s, run).now)
    decreases |run|
  {
    if run != [] {
      var at := run[0].at;
      if at != s {
        match run[0].act
        case Boot(g) => BootingIsRecoverable(m, s, g, at);
        case Replace(n) => InstallingIsRecoverable(m, s, n, at);
      }
      OrderedRunsStayRecoverable(m, run[0].after, run[1..]);
    }
  }

  lemma EmptyIsRecoverable(m: Matcher)
    ensures Recoverable(m, EMPTY)
  {
  }

  /** An install over a live pair never loses it before the new one is in
      place, and a finished one is never undone: at every point of a later
      install the next load returns the pair that was live or the new one. */
  lemma LivePairStaysOrIsReplaced(m: Matcher, s: Disk, prev: Pair, n: Pair, t: Disk)
    requires m(n.cert, n.key) && Live(m, s.now) == Some(prev) && Foreign(m, prev, n)
    requires Installing(m, s, n, t)
    ensures Current(m, t.now) == Some(prev) || Current(m, t.now) == Some(n)
  {
  }

  // ----- a crash keeps any subset of the unsynced changes -----

  /** Where an act that completed ends: a load that returned a pair, an install
      that reported no failed rollback. */
  ghost predicate Ends(m: Matcher, s: Disk, act: Act, t: Disk) {
    match act
    case Boot(_) => BootEnds(m, s, t)
    case Replace(n) => t == s || (m(n.cert, n.key) && InstallEnds(m, s, n, t))
  }

  /** An act completes, or a crash strikes it anywhere and keeps any subset of
      the unsynced changes, or it gives up where another may start. */
  ghost predicate AnySubset(m: Matcher, s: Disk, run: seq<Stage>)
    decreases |run|
  {
    run == [] ||
    (&& During(m, s, run[0].act, run[0].at)
     && (|| (run[0].after == run[0].at && (Ends(m, s, run[0].act, run[0].at) || Settled(m, run[0].at)))
         || (Survives(run[0].at, run[0].after.now) && run[0].after == Rebooted(run[0].after.now)))
     && AnySubset(m, run[0].after, run[1..]))
  }

  lemma StageEndsSettled(m: Matcher, s: Disk, act: Act, t: Disk)
    requires Settled(m, s) && Ends(m, s, act, t)
    ensures Settled(m, t)
  {
    match act
    case Boot(_) => BootEndsSettled(m, s, t);
    case Replace(n) =>
      if t != s {
        InstallEndsSettled(m, s, n, t);
      }
  }

  lemma StageIsHeld(m: Matcher, s: Disk, act: Act, t: Disk)
    requires Settled(m, s) && During(m, s, act, t)
    ensures Held(m, t)
  {
    if t == s {
      SettledIsHeld(m, s);
    } else {
      match act
      case Boot(g) => BootingIsHeld(m, s, g, t);
      case Replace(n) => InstallingIsHeld(m, s, n, t);
    }
  }

  lemma {:induction false} UnsyncedRunsStayLoadable(m: Matcher, s: Disk, run: seq<Stage>)
    requires Settled(m, s) && AnySubset(m, s, run)
    ensures Settled(m, Final(s, run)) && Current(m, Final(s, run).now).Some?
    decreases |run|
  {
    hide Settled, Held, During, Ends, Survives, Current;
    if run == [] {
      SettledIsHeld(m, s);
      SettledSurvives(m, s);
      HeldSurvivesCrash(m, s, s.now);
    } else {
      var at, after := run[0].at, run[0].after;
      if after == at && Ends(m, s, run[0].act, at) {
        StageEndsSettled(m, s, run[0].act, at);
      } else if after != at || !Settled(m, at) {
        StageIsHeld(m, s, run[0].act, at);
        HeldSurvivesCrash(m, at, after.now);
      }
      UnsyncedRunsStayLoadable(m, after, run[1..]);
    }
  }

  lemma SettledSurvives(m: Matcher, s: Disk)
    requires Settled(m, s)
    ensures Survives(s, s.now)
  {
  }

  // ----- a finished install and the boots after it -----

  /** Boots and crashes only: a boot is found anywhere, reading faults
      included, and is left there or crashes, keeping any subset. */
  ghost predicate Boots(m: Matcher, s: Disk, run: seq<Stage>)
    decreases |run|
  {
    run == [] ||
    (&& run[0].act.Boot? && During(m, s, run[0].act, run[0].at)
     && (|| run[0].after == run[0].at
         || (Survives(run[0].at, run[0].after.now) && run[0].after == Rebooted(run[0].after.now)))
     && Boots(m, run[0].after, run[1..]))
  }

  /** n is live and nothing that survives or that a load could put back differs
      from it. */
  ghost predicate Lasting(m: Matcher, n: Pair, s: Disk) {
    && s.now.cert == s.base.cert == Some(n.cert) && s.now.key == s.base.key == Some(n.key)
    && (Backup(m, s.base).None? || Backup(m, s.base) == Some(n))
    && (s.now.certBak == s.base.certBak || s.now.certBak.None?)
    && (s.now.keyBak == s.base.keyBak || s.now.keyBak.None?)
    && forall c :: c in s.pending ==> c.to == s.base.Get(c.path) || (!LivePath(c.path) && c.to.None?)
  }

  lemma LastingThroughACrash(m: Matcher, n: Pair, s: Disk, d: Dir)
    requires Lasting(m, n, s) && Survives(s, d)
    ensures Lasting(m, n, Rebooted(d))
  {
    Names(d);
    Names(s.base);
    assert Possible(s, Cert, d.Get(Cert)) && Possible(s, Key, d.Get(Key));
    assert Possible(s, CertBak, d.Get(CertBak)) && Possible(s, KeyBak, d.Get(KeyBak));
  }

  lemma LastingThroughABoot(m: Matcher, n: Pair, s: Disk, g: Pair, t: Disk)
    requires Lasting(m, n, s) && Booting(m, s, g, t)
    ensures Lasting(m, n, t)
  {
    Names(t.now);
    Names(t.base);
    Names(s.base);
  }

  lemma {:induction false} LastingThroughBoots(m: Matcher, n: Pair, s: Disk, run: seq<Stage>)
    requires Lasting(m, n, s) && Boots(m, s, run)
    ensures Lasting(m, n, Final(s, run))
    decreases |run|
  {
    if run != [] {
      var at, after := run[0].at, run[0].after;
      hide Lasting, Booting, Survives;
      if at != s {
        LastingThroughABoot(m, n, s, run[0].act.generated, at);
      }
      if after != at {
        LastingThroughACrash(m, n, at, after.now);
      }
      LastingThroughBoots(m, n, after, run[1..]);
    }
  }

  /** A load that cannot read the live pair puts the snapshot back. */
  lemma PutBackIsABoot(m: Matcher, d: Dir, b: Pair, g: Pair)
    requires d.cert.Some? && d.key.Some? && Backup(m, d) == Some(b)
    ensures Booting(m, Rebooted(d), g, PutBack(Rebooted(d), b)) && Live(m, PutBack(Rebooted(d), b).now) == Some(b)
  {
    RecoveringIsBooting(m, Rebooted(d), g, b);
  }

  /** A finished install is never undone, over every run of boots with read
      faults and of crashes that keep any subset of the unsynced changes, if and
      only if no snapshot of another pair is left synced on the disk. */
  lemma FinishedInstallStaysExactlyWithoutSnapshot(m: Matcher, a: Disk, n: Pair, t: Disk)
    requires m(n.cert, n.key) && Cleaning(a, n, t) && Survives(t, t.now)
    ensures (forall run :: Boots(m, t, run) ==> Live(m, Final(t, run).now) == Some(n)) <==>
            (Backup(m, t.base).None? || Backup(m, t.base) == Some(n))
  {
    if Backup(m, t.base).None? || Backup(m, t.base) == Some(n) {
      FinishedIsLasting(m, a, n, t);
      forall run | Boots(m, t, run)
        ensures Live(m, Final(t, run).now) == Some(n)
      {
        LastingThroughBoots(m, n, t, run);
      }
    } else {
      var run := SnapshotComesBack(m, a, n, t);
      assert Boots(m, t, run) && Live(m, Final(t, run).now) != Some(n);
    }
  }

  lemma FinishedIsLasting(m: Matcher, a: Disk, n: Pair, t: Disk)
    requires Cleaning(a, n, t) && Survives(t, t.now)
    requires Backup(m, t.base).None? || Backup(m, t.base) == Some(n)
    ensures Lasting(m, n, t)
  {
    Names(t.now);
    Names(t.base);
  }

  /** The run that undoes it: a crash before the removals are synced, and one
      boot that cannot read the live pair. */
  lemma SnapshotComesBack(m: Matcher, a: Disk, n: Pair, t: Disk) returns (run: seq<Stage>)
    requires Cleaning(a, n, t) && Backup(m, t.base).Some?
    ensures Boots(m, t, run) && Live(m, Final(t, run).now) == Backup(m, t.base)
  {
    var b, crashed := Backup(m, t.base).value, Rebooted(t.base);
    var back := PutBack(crashed, b);
    PutBackIsABoot(m, t.base, b, n);
    var second := Stage(Boot(n), back, back);
    run := [Stage(Boot(n), t, crashed), second];
    hide Booting, Cleaning;
    assert run[1..] == [second] && [second][1..] == [];
    assert Survives(t, t.base);
    assert Boots(m, back, []);
    assert Boots(m, crashed, [second]);
  }

  /** What Install leaves when it reports success has no snapshot. */
  lemma InstalledStays(m: Matcher, n: Pair, run: seq<Stage>)
    requires m(n.cert, n.key)
    requires Boots(m, Rebooted(Dir(Some(n.cert), Some(n.key), None, None)), run)
    ensures Live(m, Final(Rebooted(Dir(Some(n.cert), Some(n.key), None, None)), run).now) == Some(n)
  {
    LastingThroughBoots(m, n, Rebooted(Dir(Some(n.cert), Some(n.key), None, None)), run);
  }

  // ----- what the promises do not cover, one operation after another -----

  /** Why an install must not follow a failed rollback in the same process. The
      steps: a snapshot, both renames, a sync and a rollback that fail; the next
      install copies the certificate it finds, and a crash keeps the new key
      and that copy. Nothing that is left loads. */
  lemma FailedRollbackCanStrand(m: Matcher, prev: Pair, n: Pair)
    requires m(prev.cert, prev.key) && m(n.cert, n.key) && !m(prev.cert, n.key) && !m(n.cert, prev.key)
    ensures var s := Unsynced(Dir(Some(prev.cert), Some(prev.key), None, None), prev, n);
            var d := Dir(Some(prev.cert), Some(n.key), Some(n.cert), Some(prev.key));
            && Live(m, s.now) == Some(n) && Held(m, s) && !Settled(m, s)
            && Survives(Renamed(s, CertBak, n.cert), d) && Current(m, d).None?
  {
    var s := Unsynced(Dir(Some(prev.cert), Some(prev.key), None, None), prev, n);
    var t := Renamed(s, CertBak, n.cert);
    var d := Dir(Some(prev.cert), Some(n.key), Some(n.cert), Some(prev.key));
    Names(d);
    Names(s.base);
    assert Change(Key, Some(n.key)) in t.pending && Change(CertBak, Some(n.cert)) in t.pending;
    assert BackupHolds(m, s);
    assert !LiveSteady(m, s) by {
      assert Change(Key, Some(n.key)) in s.pending;
    }
  }

  /** The same after a load that failed: with the live certificate gone and the
      snapshot unreadable it generates a pair and cannot sync it; the next
      process loads that pair, and an install copies its certificate. */
  lemma FailedLoadCanStrand(m: Matcher, prev: Pair, g: Pair)
    requires m(prev.cert, prev.key) && m(g.cert, g.key) && !m(g.cert, prev.key)
    ensures var base := Dir(None, Some(prev.key), Some(prev.cert), Some(prev.key));
            var s := Written(Rebooted(base), g);
            var d := Dir(Some(g.cert), Some(prev.key), Some(g.cert), Some(prev.key));
            && Settled(m, Rebooted(base)) && Live(m, s.now) == Some(g)
            && Survives(Renamed(s, CertBak, g.cert), d) && Current(m, d).None?
  {
    var base := Dir(None, Some(prev.key), Some(prev.cert), Some(prev.key));
    var s := Written(Rebooted(base), g);
    var t := Renamed(s, CertBak, g.cert);
    var d := Dir(Some(g.cert), Some(prev.key), Some(g.cert), Some(prev.key));
    Names(d);
    Names(base);
    assert BackupHolds(m, Rebooted(base));
    HeldSurvivesCrash(m, Rebooted(base), base);
    assert Change(Cert, Some(g.cert)) in t.pending && Change(CertBak, Some(g.cert)) in t.pending;
  }

  /** Why a first certificate has no such promise. With nothing to snapshot, a
      first boot's two renames can survive as the certificate alone; the next
      boot renames its own key beside it and is cut short. */
  lemma FirstBootsCanStrand(m: Matcher, g: Pair, h: Pair)
    requires m(g.cert, g.key) && m(h.cert, h.key) && !m(g.cert, h.key)
    ensures var t := Written(Rebooted(EMPTY), g);
            var d := EMPTY.(cert := Some(g.cert));
            var u := Renamed(Rebooted(d), Key, h.key);
            && Live(m, t.now) == Some(g) && Survives(t, d) && Survives(u, u.now)
            && u.now.cert.Some? && u.now.key.Some? && Current(m, u.now).None?
  {
    var t := Written(Rebooted(EMPTY), g);
    var d := EMPTY.(cert := Some(g.cert));
    var u := Renamed(Rebooted(d), Key, h.key);
    Names(d);
    Names(u.now);
    Names(EMPTY);
    assert Change(Cert, d.Get(Cert)) in t.pending;
    assert Change(Key, u.now.Get(Key)) in u.pending;
  }

  /** Why loading must not take a stat error for an absent file: generating over
      a pair that is there, with no snapshot, begins with renaming its own key
      over that pair's. */
  lemma StatFaultCanStrand(m: Matcher, prev: Pair, g: Pair)
    requires m(prev.cert, prev.key) && m(g.cert, g.key) && !m(prev.cert, g.key)
    ensures var d := Dir(Some(prev.cert), Some(prev.key), None, None);
            var t := Renamed(Rebooted(d), Key, g.key);
            && Recoverable(m, d) && !Recoverable(m, t.now) && Current(m, t.now).None?
            && Live(m, Synced(Renamed(t, Cert, g.cert)).now) == Some(g)
  {
  }

  // ----- no mixed pair is ever loaded -----

  ghost predicate From(offered: set<Pair>, p: Path, v: Option<Pem>) {
    v.Some? ==> exists x :: x in offered && v.value == (if p == Cert || p == CertBak then x.cert else x.key)
  }

  /** Every file on the disk, synced or not, came from an offered pair. */
  ghost predicate Sourced(offered: set<Pair>, t: Disk) {
    && (forall p: Path :: From(offered, p, t.now.Get(p)) && From(offered, p, t.base.Get(p)))
    && (forall c :: c in t.pending ==> From(offered, c.path, c.to))
  }

  ghost predicate Apart(m: Matcher, offered: set<Pair>) {
    forall x, y :: x in offered && y in offered ==> Foreign(m, x, y)
  }

  /** A directory whose files are sourced loads an offered pair or none. */
  lemma SourcedLoadsOffered(m: Matcher, offered: set<Pair>, t: Disk)
    requires Sourced(offered, t) && Apart(m, offered)
    ensures Current(m, t.now).Some? ==> Current(m, t.now).value in offered
  {
    var d := t.now;
    assert d.Get(Cert) == d.cert && d.Get(Key) == d.key && d.Get(CertBak) == d.certBak && d.Get(KeyBak) == d.keyBak;
  }

  lemma SurvivorIsSourced(offered: set<Pair>, t: Disk, d: Dir)
    requires Sourced(offered, t) && Survives(t, d)
    ensures Sourced(offered, Rebooted(d))
  {
  }

  lemma BootIsSourced(m: Matcher, offered: set<Pair>, s: Disk, g: Pair, t: Disk)
    requires Sourced(offered, s) && g in offered && Booting(m, s, g, t)
    ensures Sourced(offered, t)
  {
    assert s.now.Get(Cert) == s.now.cert && s.now.Get(Key) == s.now.key;
    assert s.now.Get(CertBak) == s.now.certBak && s.now.Get(KeyBak) == s.now.keyBak;
    assert t.now.Get(CertBak) == t.now.certBak && t.now.Get(KeyBak) == t.now.keyBak;
    assert t.base.Get(CertBak) == t.base.certBak && t.base.Get(KeyBak) == t.base.keyBak;
  }

  lemma ReplaceIsSourced(m: Matcher, offered: set<Pair>, s: Disk, n: Pair, t: Disk)
    requires Sourced(offered, s) && n in offered && Installing(m, s, n, t)
    ensures Sourced(offered, t)
  {
    assert s.now.Get(Cert) == s.now.cert && s.now.Get(Key) == s.now.key;
    assert s.now.Get(CertBak) == s.now.certBak && s.now.Get(KeyBak) == s.now.keyBak;
    var a := Armed(m, s);
    assert Sourced(offered, a);
    assert a.now.Get(Cert) == a.now.cert && a.now.Get(Key) == a.now.key;
    assert a.now.Get(CertBak) == a.now.certBak && a.now.Get(KeyBak) == a.now.keyBak;
    assert From(offered, Cert, Some(n.cert)) && From(offered, Key, Some(n.key));
  }

  /** Any run at all: acts cut short anywhere, crashes keeping everything or any
      subset of what was not synced, failed rollbacks included. */
  ghost predicate AnyRun(m: Matcher, offered: set<Pair>, s: Disk, run: seq<Stage>)
    decreases |run|
  {
    run == [] ||
    (&& During(m, s, run[0].act, run[0].at)
     && (if run[0].act.Boot? then run[0].act.generated else run[0].act.offered) in offered
     && (|| run[0].after == run[0].at
         || run[0].after == Rebooted(run[0].at.now)
         || (Survives(run[0].at, run[0].after.now) && run[0].after == Rebooted(run[0].after.now)))
     && AnyRun(m, offered, run[0].after, run[1..]))
  }

  /** Whatever happens, a load never returns one pair's certificate with
      another pair's key: only a pair that was generated or offered whole. */
  lemma {:induction false} EveryLoadIsAnOfferedPair(m: Matcher, offered: set<Pair>, s: Disk, run: seq<Stage>)
    requires Sourced(offered, s) && Apart(m, offered) && AnyRun(m, offered, s, run)
    ensures Sourced(offered, Final(s, run))
    ensures Current(m, Final(s, run).now).Some? ==> Current(m, Final(s, run).now).value in offered
    decreases |run|
  {
    hide Booting, Installing, Sourced, Apart, Survives, Current;
    if run == [] {
      SourcedLoadsOffered(m, offered, s);
    } else {
      var at := run[0].at;
      assert Sourced(offered, at) by {
        if at != s {
          match run[0].act
          case Boot(g) => BootIsSourced(m, offered, s, g, at);
          case Replace(n) => ReplaceIsSourced(m, offered, s, n, at);
        }
      }
      if run[0].after == Rebooted(at.now) {
        NowIsSourced(offered, at);
      } else if run[0].after != at {
        SurvivorIsSourced(offered, at, run[0].after.now);
      }
      EveryLoadIsAnOfferedPair(m, offered, run[0].after, run[1..]);
    }
  }

  lemma NowIsSourced(offered: set<Pair>, t: Disk)
    requires Sourced(offered, t)
    ensures Sourced(offered, Rebooted(t.now))
  {
  }
}
