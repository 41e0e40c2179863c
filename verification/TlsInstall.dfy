/** The code of cmd/hoservad/cert.go over the directory of TlsPair, one file
    operation at a time, and httpsControl.install of cmd/hoservad/https.go. */
module TlsInstall {
  import opened Wrappers
  import opened TlsPair

  datatype ReadResult = Missing | Unreadable | Contents(data: Pem)

  /** Which live names writeTLSCertificatePair has renamed over. */
  datatype Progress = Progress(keyInstalled: bool, certInstalled: bool)

  /** Rejected: the offered pair does not load. Failed: an error, the previous
      pair being in place. RollbackFailed: an error, and restoring the previous
      pair failed too. BackupLeft: installed, with the .bak files left behind. */
  datatype InstallResult = Rejected | Failed | RollbackFailed | BackupLeft | Installed

  /** A file operation. */
  datatype FileOp =
    Prepares | Renames(p: Path) | Removes(p: Path) | Syncs | Reads(p: Path) | Stats(p: Path) | Checks(p: Path)

  // The operations of each step that goes through, after those before it.

  type Ops = seq<FileOp>

  ghost function Durable(o: Ops, p: Path): Ops {
    o + [Prepares] + [Renames(p)]
  }

  ghost function Loaded(o: Ops): Ops {
    o + [Reads(Cert)] + [Reads(Key)]
  }

  ghost function Snapshotted(o: Ops): Ops {
    Durable(Durable(Loaded(o), CertBak), KeyBak) + [Syncs]
  }

  ghost function PairWritten(o: Ops): Ops {
    o + [Prepares] + [Prepares] + [Prepares] + [Renames(Key)] + [Renames(Cert)] + [Syncs] + [Checks(Key)]
  }

  ghost function BackupsRemoved(o: Ops): Ops {
    o + [Removes(CertBak)] + [Removes(KeyBak)] + [Syncs]
  }

  /** The pair is written, synced, checked and loaded before the snapshot goes. */
  ghost function Replaced(o: Ops): Ops {
    BackupsRemoved(Loaded(PairWritten(o)))
  }

  ghost function Recovered(o: Ops): Ops {
    Loaded(Durable(Durable(o + [Checks(KeyBak)] + [Reads(CertBak)] + [Reads(KeyBak)], Key), Cert) + [Syncs])
  }

  /** The certificate directory. Every file operation may fail unless calm, and
      os.Stat may fail for a file that is there when statFaults; faults counts the
      operations that failed and ops has them all, in order. Each operation that changes something is recorded in
      visited, so that visited holds every disk a crash can strike. */
  class Store {
    const pairs: Matcher
    const calm: bool
    const statFaults: bool
    var dir: Dir
    var base: Dir
    var pending: set<Change>
    var visited: set<Disk>
    ghost var faults: nat
    ghost var ops: seq<FileOp>

    constructor (pairs: Matcher, calm: bool, statFaults: bool, dir: Dir)
      ensures this.pairs == pairs && this.calm == calm && this.statFaults == statFaults
      ensures Now() == Rebooted(dir) && visited == {} && faults == 0 && ops == []
    {
      this.pairs, this.calm, this.statFaults, this.dir := pairs, calm, statFaults, dir;
      base, pending, visited, faults, ops := dir, {}, {}, 0, [];
    }

    function Now(): Disk
      reads this`dir, this`base, this`pending
    {
      Disk(dir, base, pending)
    }

    /** Every visible value is the synced one or a change made since. */
    ghost predicate Coherent()
      reads this`dir, this`base, this`pending
    {
      Survives(Now(), dir)
    }

    // ----- file operations -----

    /** A step that touches none of the four names: making the directory, or
        writing, syncing and chmodding a temporary file. */
    method Prepare() returns (ok: bool)
      modifies this`faults, this`ops
      ensures calm ==> ok
      ensures faults == old(faults) + if ok then 0 else 1
      ensures ops == old(ops) + [Prepares]
    {
      ops := ops + [Prepares];
      if calm { ok := true; } else { ok := *; }
      faults := faults + if ok then 0 else 1;
    }

    /** os.Rename of a finished temporary file over p. */
    method RenameInto(p: Path, data: Pem) returns (ok: bool)
      modifies this
      ensures old(Coherent()) ==> Coherent()
      ensures calm ==> ok
      ensures ok ==> Now() == Renamed(old(Now()), p, data) && visited == old(visited) + {Now()}
      ensures !ok ==> Now() == old(Now()) && visited == old(visited)
      ensures faults == old(faults) + if ok then 0 else 1
      ensures ops == old(ops) + [Renames(p)]
    {
      ops := ops + [Renames(p)];
      ok := calm;
      if !calm { ok := *; }
      faults := faults + if ok then 0 else 1;
      if ok {
        if Coherent() {
          ChangedSurvives(Now(), Change(p, Some(data)));
        }
        dir, pending := dir.Put(p, Some(data)), pending + {Change(p, Some(data))};
        visited := visited + {Now()};
      }
    }

    /** os.Remove of p, an absent file being no error. */
    method Remove(p: Path) returns (ok: bool)
      modifies this
      ensures old(Coherent()) ==> Coherent()
      ensures calm ==> ok
      ensures ok ==> Now() == Removed(old(Now()), p) && visited == old(visited) + {Now()}
      ensures !ok ==> Now() == old(Now()) && visited == old(visited)
      ensures faults == old(faults) + if ok then 0 else 1
      ensures ops == old(ops) + [Removes(p)]
    {
      ops := ops + [Removes(p)];
      ok := calm;
      if !calm { ok := *; }
      faults := faults + if ok then 0 else 1;
      if ok {
        if Coherent() {
          ChangedSurvives(Now(), Change(p, None));
        }
        dir, pending := dir.Put(p, None), pending + {Change(p, None)};
        visited := visited + {Now()};
      }
    }

    /** fsyncDir. */
    method SyncDir() returns (ok: bool)
      modifies this
      ensures old(Coherent()) ==> Coherent()
      ensures calm ==> ok
      ensures dir == old(dir)
      ensures ok ==> Now() == Synced(old(Now())) && visited == old(visited) + {Now()}
      ensures !ok ==> Now() == old(Now()) && visited == old(visited)
      ensures faults == old(faults) + if ok then 0 else 1
      ensures ops == old(ops) + [Syncs]
    {
      ops := ops + [Syncs];
      ok := calm;
      if !calm { ok := *; }
      faults := faults + if ok then 0 else 1;
      if ok {
        base, pending := dir, {};
        visited := visited + {Now()};
      }
    }

    /** os.ReadFile. */
    method ReadFile(p: Path) returns (r: ReadResult)
      modifies this`faults, this`ops
      ensures faults == old(faults) + if r == Unreadable then 1 else 0
      ensures r == Missing ==> dir.Get(p).None?
      ensures r.Contents? ==> dir.Get(p) == Some(r.data)
      ensures calm ==> r != Unreadable
      ensures ops == old(ops) + [Reads(p)]
    {
      ops := ops + [Reads(p)];
      var faulty := false;
      if !calm { faulty := *; }
      if faulty {
        r, faults := Unreadable, faults + 1;
      } else {
        match dir.Get(p)
        case None => r := Missing;
        case Some(data) => r := Contents(data);
      }
    }

    /** os.Stat, any error counting as an absent file. */
    method Stat(p: Path) returns (there: bool)
      modifies this`faults, this`ops
      ensures faults == old(faults) + if there == dir.Get(p).Some? then 0 else 1
      ensures there ==> dir.Get(p).Some?
      ensures calm || !statFaults ==> there == dir.Get(p).Some?
      ensures ops == old(ops) + [Stats(p)]
    {
      ops := ops + [Stats(p)];
      there := dir.Get(p).Some?;
      if there && !calm && statFaults {
        there := *;
        faults := faults + if there then 0 else 1;
      }
    }

    /** tls.LoadX509KeyPair of the live names. */
    method LoadLive() returns (r: Option<Pair>)
      modifies this`faults, this`ops
      ensures r.Some? ==> Live(pairs, dir) == r
      ensures faults == old(faults) || (faults == old(faults) + 1 && r.None? && !calm)
      ensures faults == old(faults) ==> r == Live(pairs, dir)
      ensures calm ==> r == Live(pairs, dir)
      ensures r.Some? ==> ops == Loaded(old(ops))
    {
      r := None;
      var c := ReadFile(Cert);
      if !c.Contents? {
        return;
      }
      var k := ReadFile(Key);
      if k.Contents? && pairs(c.data, k.data) {
        r := Some(Pair(c.data, k.data));
      }
    }

    /** checkTLSKeyPermissions. */
    method CheckKey(p: Path) returns (ok: bool)
      modifies this`faults, this`ops
      ensures faults == old(faults) + if ok == dir.Get(p).Some? then 0 else 1
      ensures ok ==> dir.Get(p).Some?
      ensures calm ==> ok == dir.Get(p).Some?
      ensures ops == old(ops) + [Checks(p)]
    {
      ops := ops + [Checks(p)];
      ok := dir.Get(p).Some?;
      if ok && !calm {
        ok := *;
        faults := faults + if ok then 0 else 1;
      }
    }

    /** writeTLSFileDurable. */
    method WriteDurable(p: Path, data: Pem) returns (ok: bool)
      modifies this
      ensures old(Coherent()) ==> Coherent()
      ensures calm ==> ok
      ensures ok ==> Now() == Renamed(old(Now()), p, data) && visited == old(visited) + {Now()}
      ensures !ok ==> Now() == old(Now()) && visited == old(visited)
      ensures faults == old(faults) + if ok then 0 else 1
      ensures ok ==> ops == Durable(old(ops), p)
    {
      ok := Prepare();
      if ok {
        ok := RenameInto(p, data);
      }
    }

    // ----- the steps of an install -----

    /** snapshotTLSPair: a live pair that loads is copied to the .bak names and
        synced before it reports success; anything else is left as it is. */
    method SnapshotPair() returns (ok: bool)
      modifies this
      ensures old(Coherent()) ==> Coherent()
      ensures ok ==> Now() == Armed(pairs, old(Now()))
      ensures !ok ==> Now() == old(Now()) || Snapshotting(pairs, old(Now()), Now())
      ensures forall t :: t in visited ==> t in old(visited) || Snapshotting(pairs, old(Now()), t)
      ensures calm ==> ok
      ensures faults == old(faults) + if ok then 0 else 1
      ensures ok && Live(pairs, old(dir)).Some? ==>
        ops == Snapshotted(old(ops))
      ensures ok && Live(pairs, old(dir)).None? ==> ops == old(ops) + [Reads(Cert)] || ops == Loaded(old(ops))
    {
      var c := ReadFile(Cert);
      if !c.Contents? {
        return c == Missing;
      }
      var k := ReadFile(Key);
      if !k.Contents? {
        return k == Missing;
      }
      if !pairs(c.data, k.data) {
        return true;
      }
      ok := WriteDurable(CertBak, c.data);
      if !ok {
        return;
      }
      ok := WriteDurable(KeyBak, k.data);
      if !ok {
        return;
      }
      ok := SyncDir();
    }

    /** writeTLSCertificatePair: key first, then certificate, then the sync. */
    method WritePair(n: Pair) returns (progress: Progress, ok: bool)
      modifies this
      ensures old(Coherent()) ==> Coherent()
      ensures !pairs(n.cert, n.key) ==> !progress.keyInstalled
      ensures !progress.keyInstalled ==> !progress.certInstalled && !ok && Now() == old(Now())
      ensures progress.keyInstalled ==> dir.key == Some(n.key)
      ensures dir.cert == if progress.certInstalled then Some(n.cert) else old(dir.cert)
      ensures ok ==> progress.certInstalled && Now() == Rebooted(dir)
      ensures progress.certInstalled ==> Now() == Written(old(Now()), n) || Now() == Synced(Written(old(Now()), n))
      ensures progress.keyInstalled && !progress.certInstalled ==> Now() == Renamed(old(Now()), Key, n.key)
      ensures Replacing(old(Now()), n, Now())
      ensures forall t :: t in visited ==> t in old(visited) || (Replacing(old(Now()), n, t) && pairs(n.cert, n.key))
      ensures calm && pairs(n.cert, n.key) ==> ok
      ensures pairs(n.cert, n.key) ==> faults == old(faults) + if ok then 0 else 1
      ensures !pairs(n.cert, n.key) ==> faults == old(faults)
      ensures ok ==> ops == PairWritten(old(ops))
    {
      WritingIsReplacing(Now(), n);
      hide Replacing, Survives;
      progress, ok := Progress(false, false), false;
      if !pairs(n.cert, n.key) {
        return;
      }
      var made := Prepare();
      if !made {
        return;
      }
      var tmpCert := Prepare();
      if !tmpCert {
        return;
      }
      var tmpKey := Prepare();
      if !tmpKey {
        return;
      }
      var renamed := RenameInto(Key, n.key);
      if !renamed {
        return;
      }
      progress := Progress(true, false);
      renamed := RenameInto(Cert, n.cert);
      if !renamed {
        return;
      }
      progress := Progress(true, true);
      ok := SyncDir();
      if ok {
        ok := CheckKey(Key);
      }
    }

    /** restoreInstalledTLSFiles: puts back, from the snapshot, the names that
        were renamed over. a is the disk the replacement started from. */
    method RestoreInstalled(progress: Progress, ghost a: Disk, ghost n: Pair) returns (ok: bool)
      requires Replacing(a, n, Now())
      requires progress.certInstalled ==> progress.keyInstalled
      requires progress.keyInstalled ==> dir.key == Some(n.key)
      modifies this
      ensures old(Coherent()) ==> Coherent()
      ensures !progress.keyInstalled ==> ok && Now() == old(Now())
      ensures ok && progress.keyInstalled ==> Now() == Rebooted(dir)
      ensures ok ==> dir.key == if progress.keyInstalled && a.now.keyBak.Some? then a.now.keyBak else old(dir.key)
      ensures ok ==> dir.cert == if progress.certInstalled && a.now.certBak.Some? then a.now.certBak else old(dir.cert)
      ensures Replacing(a, n, Now())
      ensures forall t :: t in visited ==> t in old(visited) || Replacing(a, n, t)
      ensures calm ==> ok
      ensures faults == old(faults) + if ok then 0 else 1
    {
      SyncingIsReplacing(a, n, Now());
      hide Replacing, Survives;
      if !progress.keyInstalled && !progress.certInstalled {
        return true;
      }
      if progress.keyInstalled {
        ok := RestoreOne(Key, KeyBak, a, n);
        if !ok {
          return;
        }
      }
      SyncingIsReplacing(a, n, Now());
      if progress.certInstalled {
        ok := RestoreOne(Cert, CertBak, a, n);
        if !ok {
          return;
        }
      }
      SyncingIsReplacing(a, n, Now());
      ok := SyncDir();
    }

    /** One name put back from its snapshot, if there is one. */
    method RestoreOne(p: Path, bak: Path, ghost a: Disk, ghost n: Pair) returns (ok: bool)
      requires Replacing(a, n, Now())
      requires (p == Key && bak == KeyBak) ||
               (p == Cert && bak == CertBak && (a.now.keyBak.Some? || dir.key == Some(n.key)))
      modifies this
      ensures old(Coherent()) ==> Coherent()
      ensures Replacing(a, n, Now())
      ensures forall t :: t in visited ==> t in old(visited) || Replacing(a, n, t)
      ensures dir == if ok && old(dir).Get(bak).Some? then old(dir).Put(p, old(dir).Get(bak)) else old(dir)
      ensures faults == old(faults) + if ok then 0 else 1
      ensures calm ==> ok
    {
      SyncingIsReplacing(a, n, Now());
      hide Replacing, Survives;
      var r := ReadFile(bak);
      if r == Unreadable {
        return false;
      }
      ok := true;
      if r.Contents? {
        RestoringIsReplacing(a, n, Now(), p, r.data);
        ok := WriteDurable(p, r.data);
      }
    }

    /** removeTLSBackups, once the new pair is live and synced. */
    method RemoveBackups(ghost a: Disk, ghost n: Pair) returns (ok: bool)
      requires Cleaning(a, n, Now())
      modifies this
      ensures old(Coherent()) ==> Coherent()
      ensures Cleaning(a, n, Now())
      ensures ok ==> Now() == Rebooted(Dir(Some(n.cert), Some(n.key), None, None))
      ensures forall t :: t in visited ==> t in old(visited) || Cleaning(a, n, t)
      ensures calm ==> ok
      ensures faults >= old(faults) && (ok <==> faults == old(faults))
      // The certificate goes first: with it gone recovery has nothing to read.
      ensures faults == old(faults) ==> forall t :: t in visited ==> t in old(visited) || t.now.certBak.None?
      ensures ops == BackupsRemoved(old(ops))
    {
      hide Cleaning, Survives;
      CleaningGoesOn(a, n, Now(), CertBak);
      var certGone := Remove(CertBak);
      CleaningGoesOn(a, n, Now(), KeyBak);
      var keyGone := Remove(KeyBak);
      CleaningGoesOn(a, n, Now(), KeyBak);
      ok := SyncDir();
      ok := ok && certGone && keyGone;
    }

    /** The snapshot is a copy of the live pair. */
    ghost predicate Copied()
      reads this
    {
      dir.cert.Some? && dir.key.Some? && dir.certBak == dir.cert && dir.keyBak == dir.key
    }

    /** installTLSCertificate. */
    method Install(n: Pair) returns (r: InstallResult)
      modifies this
      ensures old(Coherent()) ==> Coherent()
      ensures r == Rejected <==> !pairs(n.cert, n.key)
      ensures r == Rejected ==> Now() == old(Now()) && visited == old(visited)
      ensures forall t :: t in visited ==> t in old(visited) || Installing(pairs, old(Now()), n, t)
      ensures Now() == old(Now()) || Installing(pairs, old(Now()), n, Now())
      ensures r == Installed ==> Now() == Rebooted(Dir(Some(n.cert), Some(n.key), None, None))
      ensures r == BackupLeft ==> Cleaning(Armed(pairs, old(Now())), n, Now())
      ensures r == Failed && Live(pairs, old(dir)).Some? ==> dir.cert == old(dir.cert) && dir.key == old(dir.key)
      ensures r != RollbackFailed && old(Coherent()) ==> InstallEnds(pairs, old(Now()), n, Now())
      ensures r != RollbackFailed && old(Settled(pairs, Now())) ==> Settled(pairs, Now())
      ensures calm && pairs(n.cert, n.key) ==> r == Installed
      // Which result, by how many operations failed: none, and it is installed; one,
      // and it failed with the rollback done or left its backup.
      ensures pairs(n.cert, n.key) ==> faults >= old(faults) && (r == Installed <==> faults == old(faults))
      ensures r == Failed ==> faults == old(faults) + 1
      ensures r == RollbackFailed ==> faults == old(faults) + 2
      ensures r == Installed && Live(pairs, old(dir)).Some? ==>
        ops == Replaced(Snapshotted(old(ops)))
      ensures r == Installed && Live(pairs, old(dir)).None? ==>
        ops == Replaced(old(ops) + [Reads(Cert)]) || ops == Replaced(Loaded(old(ops)))
    {
      ghost var s := Now();
      if !pairs(n.cert, n.key) {
        return Rejected;
      }
      var ok := SnapshotPair();
      if ok {
        r := ReplacePair(n);
      } else {
        r := Failed;
      }
      if r != RollbackFailed && Settled(pairs, s) {
        InstallEndsSettled(pairs, s, n, Now());
      }
    }

    /** installTLSCertificate once the snapshot is there: the pair is written and
        loaded, and taken back if either fails. */
    method ReplacePair(n: Pair) returns (r: InstallResult)
      requires pairs(n.cert, n.key)
      modifies this
      ensures old(Coherent()) ==> Coherent()
      ensures r != Rejected
      ensures forall t :: t in visited ==>
        t in old(visited) || Replacing(old(Now()), n, t) || Cleaning(old(Now()), n, t)
      ensures r == Installed ==> Now() == Rebooted(Dir(Some(n.cert), Some(n.key), None, None))
      ensures if r == Installed || r == BackupLeft then Cleaning(old(Now()), n, Now())
              else Replacing(old(Now()), n, Now())
      ensures r == Failed ==> Now() == old(Now()) || Now() == Rebooted(dir)
      ensures r == Failed && old(Copied()) ==> dir.cert == old(dir.cert) && dir.key == old(dir.key)
      ensures calm ==> r == Installed
      // A rollback that succeeded follows one failure, a failed one two.
      ensures faults >= old(faults) && (r == Installed <==> faults == old(faults))
      ensures r == Failed ==> faults == old(faults) + 1
      ensures r == RollbackFailed ==> faults == old(faults) + 2
      ensures r == Installed ==> ops == Replaced(old(ops))
    {
      ghost var a := Now();
      var progress, ok := WritePair(n);
      if !ok {
        ok := RestoreInstalled(progress, a, n);
        return if ok then Failed else RollbackFailed;
      }
      var loaded := LoadLive();
      if loaded.None? {
        ok := RestoreInstalled(Progress(true, true), a, n);
        return if ok then Failed else RollbackFailed;
      }
      ok := RemoveBackups(a, n);
      return if ok then Installed else BackupLeft;
    }

    // ----- loading -----

    /** recoverTLSCertificatePair. */
    method Recover(ghost g: Pair) returns (r: Option<Pair>)
      modifies this
      ensures old(Coherent()) ==> Coherent()
      ensures r.Some? ==> r == Backup(pairs, old(dir)) && Live(pairs, dir) == r && Now() == PutBack(old(Now()), r.value)
      ensures Backup(pairs, old(dir)).None? ==> r.None? && Now() == old(Now()) && visited == old(visited)
      ensures forall t :: t in visited ==> t in old(visited) || Booting(pairs, old(Now()), g, t)
      ensures Now() == old(Now()) || Booting(pairs, old(Now()), g, Now())
      ensures calm ==> r == Backup(pairs, old(dir))
      ensures faults >= old(faults) && (faults == old(faults) ==> r == Backup(pairs, old(dir)))
      ensures calm ==> faults == old(faults)
      ensures r.Some? ==> ops == Recovered(old(ops))
    {
      hide Booting, Survives, Loaded, Durable;
      r := None;
      var ok := CheckKey(KeyBak);
      if !ok {
        return;
      }
      var c := ReadFile(CertBak);
      if !c.Contents? {
        return;
      }
      var k := ReadFile(KeyBak);
      if !k.Contents? {
        return;
      }
      if !pairs(c.data, k.data) {
        return;
      }
      RecoveringIsBooting(pairs, Now(), g, Pair(c.data, k.data));
      ok := WriteDurable(Key, k.data);
      if !ok {
        return;
      }
      ok := WriteDurable(Cert, c.data);
      if !ok {
        return;
      }
      ok := SyncDir();
      if !ok {
        return;
      }
      r := LoadLive();
    }

    /** loadOrGenerateTLSCertificate; g is what generateSelfSignedCertificate
        made, if it is asked. */
    method LoadOrGenerate(g: Pair) returns (r: Option<Pair>)
      modifies this
      ensures old(Coherent()) ==> Coherent()
      ensures r.Some? ==> Live(pairs, dir) == r
      ensures r.Some? ==>
                || r == Live(pairs, old(dir)) || r == Backup(pairs, old(dir))
                || (r == Some(g) && (old(dir).cert.None? || old(dir).key.None? || statFaults))
      ensures r.Some? ==> BootEnds(pairs, old(Now()), Now())
      ensures r.Some? && old(Settled(pairs, Now())) ==> Settled(pairs, Now())
      ensures calm && Current(pairs, old(dir)).Some? ==> r == Current(pairs, old(dir))
      ensures calm && Live(pairs, old(dir)).Some? ==> Now() == old(Now()) && visited == old(visited)
      ensures calm && Recoverable(pairs, old(dir)) && pairs(g.cert, g.key) ==> r.Some?
      ensures calm || !statFaults ==>
                && (Now() == old(Now()) || Booting(pairs, old(Now()), g, Now()))
                && forall t :: t in visited ==> t in old(visited) || Booting(pairs, old(Now()), g, t)
      // A load in which nothing fails, from any directory.
      ensures faults >= old(faults)
      ensures faults == old(faults) ==>
        r == (if Live(pairs, old(dir)).Some? then Live(pairs, old(dir))
              else if Backup(pairs, old(dir)).Some? then Backup(pairs, old(dir))
              else if old(dir).cert.Some? && old(dir).key.Some? then None
              else if pairs(g.cert, g.key) then Some(g)
              else None)
      ensures faults == old(faults) && Live(pairs, old(dir)).Some? ==> Now() == old(Now()) && visited == old(visited)
      ensures calm ==> faults == old(faults)
      ensures faults == old(faults) && Live(pairs, old(dir)).Some? ==>
        ops == Loaded(old(ops) + [Stats(Cert)] + [Stats(Key)] + [Checks(Key)])
    {
      ghost var s := Now();
      r := None;
      var there := Stat(Cert);
      if there {
        there := Stat(Key);
      }
      if there {
        var ok := CheckKey(Key);
        if ok {
          r := LoadLive();
          if r.None? {
            r := Recover(g);
          }
        }
      } else {
        r := Recover(g);
        if r.None? {
          r := Generate(g, s);
        }
      }
      if r.Some? && Settled(pairs, s) {
        BootEndsSettled(pairs, s, Now());
      }
    }

    /** loadOrGenerateTLSCertificate from where there is nothing to load: the
        generated pair is written. s is the disk the load started from. */
    method Generate(g: Pair, ghost s: Disk) returns (r: Option<Pair>)
      modifies this
      ensures old(Coherent()) ==> Coherent()
      ensures r.Some? ==> r == Some(g) && Live(pairs, dir) == r && Now() == Rebooted(dir)
      ensures faults >= old(faults) && (calm ==> faults == old(faults))
      ensures faults == old(faults) ==> r == if pairs(g.cert, g.key) then Some(g) else None
      ensures
        (s.now.cert.None? || s.now.key.None?) &&
        (old(Now()) == s || (Booting(pairs, s, g, old(Now())) && Backup(pairs, s.now).Some?)) ==>
          && (Now() == old(Now()) || Booting(pairs, s, g, Now()))
          && forall t :: t in visited ==> t in old(visited) || Booting(pairs, s, g, t)
    {
      ghost var mid, seen := Now(), visited;
      var _, ok := WritePair(g);
      r := if ok then Some(g) else None;
      if
        && pairs(g.cert, g.key) && (s.now.cert.None? || s.now.key.None?)
        && (mid == s || (Booting(pairs, s, g, mid) && Backup(pairs, s.now).Some?))
      {
        forall t | (t == Now() || (t in visited && t !in seen)) && Replacing(mid, g, t)
          ensures Booting(pairs, s, g, t)
        {
          GeneratingIsBooting(pairs, s, mid, g, t);
        }
      }
    }
  }

  /** httpsControl: the store and the certificate it serves. */
  class HttpsControl {
    const store: Store
    var served: Option<Pair>

    constructor (store: Store, served: Option<Pair>)
      ensures this.store == store && this.served == served
    {
      this.store, this.served := store, served;
    }

    /** httpsControl.install. done is false for an error other than a leftover
        backup. */
    method Install(n: Pair) returns (r: InstallResult, done: bool)
      modifies this, store
      ensures done ==>
        (r == Installed || r == BackupLeft) && served == Some(n) && Live(store.pairs, store.dir) == served
      ensures !done ==> served == old(served)
      ensures !done && (r == Installed || r == BackupLeft) ==> Live(store.pairs, store.dir) == Some(n)
      ensures r == Failed && Live(store.pairs, old(store.dir)).Some? ==>
                store.dir.cert == old(store.dir.cert) && store.dir.key == old(store.dir.key)
      ensures store.calm && store.pairs(n.cert, n.key) ==> done
      ensures store.pairs(n.cert, n.key) ==> (r == Installed && done <==> store.faults == old(store.faults))
      ensures !done && (r == Installed || r == BackupLeft) ==> store.faults > old(store.faults)
      ensures done && r == Installed && Live(store.pairs, old(store.dir)).Some? ==>
        store.ops == Loaded(Replaced(Snapshotted(old(store.ops))))
    {
      r := store.Install(n);
      done := false;
      if r != Installed && r != BackupLeft {
        return;
      }
      var loaded := store.LoadLive();
      if loaded.None? {
        return;
      }
      served, done := loaded, true;
    }
  }
}
