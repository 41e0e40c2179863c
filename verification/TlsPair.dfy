/** cmd/hoservad/cert.go and the install path of cmd/hoservad/https.go.

    A certificate and its key are two files that no single operation replaces,
    so an install snapshots the pair to .bak files, renames key and certificate
    into place and removes the snapshot; loading repairs an interrupted install
    from it. This file holds the directory and what it means to be able to
    load from it; TlsInstall holds the code. */
module TlsPair {
  import opened Wrappers

  /** The contents of one PEM file. */
  type Pem = seq<int>

  /** tls.X509KeyPair's verdict on a certificate and a key. */
  type Matcher = (Pem, Pem) -> bool

  datatype Pair = Pair(cert: Pem, key: Pem)

  datatype Path = Cert | Key | CertBak | KeyBak

  /** The four names that recovery reads. Temporary files have hidden names that
      nothing reads back, so they are not part of it. */
  datatype Dir = Dir(cert: Option<Pem>, key: Option<Pem>, certBak: Option<Pem>, keyBak: Option<Pem>) {
    function Get(p: Path): Option<Pem> {
      match p
      case Cert => cert
      case Key => key
      case CertBak => certBak
      case KeyBak => keyBak
    }

    function Put(p: Path, to: Option<Pem>): Dir {
      match p
      case Cert => this.(cert := to)
      case Key => this.(key := to)
      case CertBak => this.(certBak := to)
      case KeyBak => this.(keyBak := to)
    }
  }

  const EMPTY := Dir(None, None, None, None)

  /** A rename into, or a removal of, one name. */
  datatype Change = Change(path: Path, to: Option<Pem>)

  /** The directory as a process sees it, what was last synced, and the changes
      made since. */
  datatype Disk = Disk(now: Dir, base: Dir, pending: set<Change>)

  /** What a name can hold after a crash: its synced value or one it was given
      since. */
  ghost predicate Possible(t: Disk, p: Path, v: Option<Pem>) {
    v == t.base.Get(p) || Change(p, v) in t.pending
  }

  /** What a crash may leave when any subset of the changes since the last sync
      reached the disk. */
  ghost predicate Survives(t: Disk, d: Dir) {
    forall p: Path :: Possible(t, p, d.Get(p))
  }

  /** The disk a process finds after such a crash. */
  function Rebooted(d: Dir): Disk {
    Disk(d, d, {})
  }

  // ----- the three operations that change a directory -----

  /** os.Rename of a finished temporary file over p. */
  function Renamed(t: Disk, p: Path, data: Pem): Disk {
    Disk(t.now.Put(p, Some(data)), t.base, t.pending + {Change(p, Some(data))})
  }

  /** os.Remove of p. */
  function Removed(t: Disk, p: Path): Disk {
    Disk(t.now.Put(p, None), t.base, t.pending + {Change(p, None)})
  }

  /** fsyncDir. */
  function Synced(t: Disk): Disk {
    Rebooted(t.now)
  }

  /** A pair written over the live names, the key first. */
  function Written(t: Disk, n: Pair): Disk {
    Renamed(Renamed(t, Key, n.key), Cert, n.cert)
  }

  /** What a recovery from the snapshot b leaves. */
  function PutBack(t: Disk, b: Pair): Disk {
    Synced(Written(t, b))
  }

  /** A change is one of those that may survive. */
  lemma ChangedSurvives(t: Disk, c: Change)
    requires Survives(t, t.now)
    ensures var now := t.now.Put(c.path, c.to); Survives(Disk(now, t.base, t.pending + {c}), now)
  {
    var now := t.now.Put(c.path, c.to);
    forall p: Path
      ensures Possible(Disk(now, t.base, t.pending + {c}), p, now.Get(p))
    {
      assert p != c.path ==> now.Get(p) == t.now.Get(p) && Possible(t, p, t.now.Get(p));
    }
  }

  // ----- loading -----

  /** tls.LoadX509KeyPair without read faults. */
  function Load(m: Matcher, cert: Option<Pem>, key: Option<Pem>): (r: Option<Pair>)
    ensures r.Some? ==> m(r.value.cert, r.value.key)
  {
    if cert.Some? && key.Some? && m(cert.value, key.value) then Some(Pair(cert.value, key.value)) else None
  }

  function Live(m: Matcher, d: Dir): Option<Pair> {
    Load(m, d.cert, d.key)
  }

  function Backup(m: Matcher, d: Dir): Option<Pair> {
    Load(m, d.certBak, d.keyBak)
  }

  /** The pair the next load returns, if there is one to return. */
  function Current(m: Matcher, d: Dir): Option<Pair> {
    if Live(m, d).Some? then Live(m, d) else Backup(m, d)
  }

  /** What holds at every point of every run when changes persist in program
      order: a live certificate always has a key, and the live pair or the
      snapshot loads; there is no snapshot before there is a certificate. */
  ghost predicate Recoverable(m: Matcher, d: Dir) {
    && (d.cert.Some? ==> d.key.Some? && Current(m, d).Some?)
    && (d.cert.None? ==> d.certBak.None? && d.keyBak.None?)
  }

  // ----- unsynced changes -----

  ghost predicate LivePath(p: Path) {
    p == Cert || p == Key
  }

  /** Whatever survives a crash, the live pair loads. */
  ghost predicate LiveHolds(m: Matcher, t: Disk) {
    forall c, k :: Possible(t, Cert, c) && Possible(t, Key, k) ==> Load(m, c, k).Some?
  }

  /** The synced live pair loads and no change since then altered it. */
  ghost predicate LiveSteady(m: Matcher, t: Disk) {
    && Live(m, t.base).Some?
    && (forall c :: c in t.pending ==> !LivePath(c.path) || c.to == t.base.Get(c.path))
  }

  /** The synced snapshot loads and no change since then altered it. */
  ghost predicate BackupHolds(m: Matcher, t: Disk) {
    && Backup(m, t.base).Some?
    && (forall c :: c in t.pending ==> LivePath(c.path) || c.to == t.base.Get(c.path))
  }

  /** Whatever subset of the unsynced changes a crash keeps, a pair can be loaded. */
  ghost predicate Held(m: Matcher, t: Disk) {
    LiveHolds(m, t) || BackupHolds(m, t)
  }

  predicate Share(p: Pair, q: Pair) {
    p.cert == q.cert || p.key == q.key
  }

  /** A disk an operation may start from: the live pair is steady, or the
      snapshot holds and a visible pair that loads is that snapshot; and a
      snapshot that a load could put back over a live pair holds, or differs
      from that pair in one file at most. */
  ghost predicate Settled(m: Matcher, t: Disk) {
    && Survives(t, t.now)
    && (LiveSteady(m, t) || (BackupHolds(m, t) && (Live(m, t.now).None? || Live(m, t.now) == Backup(m, t.base))))
    && (Live(m, t.now).Some? && Backup(m, t.now).Some? ==>
          BackupHolds(m, t) || Share(Live(m, t.now).value, Backup(m, t.now).value))
  }

  /** The fields of a directory under the names that quantifiers use. */
  lemma Names(d: Dir)
    ensures d.Get(Cert) == d.cert && d.Get(Key) == d.key && d.Get(CertBak) == d.certBak && d.Get(KeyBak) == d.keyBak
  {
  }

  lemma SteadyHolds(m: Matcher, t: Disk)
    requires LiveSteady(m, t)
    ensures LiveHolds(m, t)
    ensures Survives(t, t.now) ==> Live(m, t.now) == Live(m, t.base)
  {
    Names(t.base);
    Names(t.now);
  }

  lemma SettledIsHeld(m: Matcher, t: Disk)
    requires Settled(m, t)
    ensures Held(m, t)
  {
    if LiveSteady(m, t) {
      SteadyHolds(m, t);
    }
  }

  lemma HeldSurvivesCrash(m: Matcher, t: Disk, d: Dir)
    requires Held(m, t) && Survives(t, d)
    ensures Current(m, d).Some?
    ensures Settled(m, Rebooted(d))
  {
    Names(d);
    Names(t.base);
    if LiveHolds(m, t) {
      assert Possible(t, Cert, d.Get(Cert)) && Possible(t, Key, d.Get(Key));
    } else {
      assert Possible(t, CertBak, d.Get(CertBak)) && Possible(t, KeyBak, d.Get(KeyBak));
      assert Backup(m, d) == Backup(m, t.base);
    }
  }

  // ----- the points of an install of n that started at s -----

  /** The snapshot is being written: the live names are untouched. */
  ghost predicate Snapshotting(m: Matcher, s: Disk, t: Disk) {
    && Live(m, s.now).Some?
    && t.now.cert == s.now.cert && t.now.key == s.now.key
    && (t.now.certBak == s.now.certBak || t.now.certBak == s.now.cert)
    && (t.now.keyBak == s.now.keyBak || t.now.keyBak == s.now.key)
    && (|| (&& t.base == s.base
            && forall c :: c in t.pending ==>
                 || c in s.pending
                 || (c == Change(CertBak, s.now.cert) && t.now.certBak == s.now.cert)
                 || (c == Change(KeyBak, s.now.key) && t.now.keyBak == s.now.key))
        || t == Armed(m, s))
  }

  /** The disk once the snapshot step has succeeded. */
  ghost function Armed(m: Matcher, s: Disk): Disk {
    if Live(m, s.now).Some? then
      Rebooted(Dir(s.now.cert, s.now.key, s.now.cert, s.now.key))
    else s
  }

  /** The values the live names can have while a is being replaced by n and
      while that is being taken back. */
  ghost predicate LiveValue(a: Disk, n: Pair, p: Path, v: Option<Pem>) {
    || (p == Cert && (v == a.now.cert || v == Some(n.cert) || (v == a.now.certBak && v.Some?)))
    || (p == Key && (v == a.now.key || v == Some(n.key) || (v == a.now.keyBak && v.Some?)))
  }

  /** Only live names move, and only to those values; the snapshot stays. */
  ghost predicate Replacing(a: Disk, n: Pair, t: Disk) {
    && t.now.certBak == a.now.certBak && t.now.keyBak == a.now.keyBak
    && LiveValue(a, n, Cert, t.now.cert) && LiveValue(a, n, Key, t.now.key)
    && (a.now.keyBak.None? ==> t.now.cert == a.now.cert || t.now.key == Some(n.key))
    && (|| (&& t.base == a.base
            && forall c :: c in t.pending ==> c in a.pending || LiveValue(a, n, c.path, c.to))
        || (&& t.base.certBak == a.now.certBak && t.base.keyBak == a.now.keyBak
            && LiveValue(a, n, Cert, t.base.cert) && LiveValue(a, n, Key, t.base.key)
            && forall c :: c in t.pending ==> LiveValue(a, n, c.path, c.to)))
  }

  /** The steps of writing a pair. */
  lemma WritingIsReplacing(a: Disk, n: Pair)
    ensures Replacing(a, n, a) && Replacing(a, n, Renamed(a, Key, n.key))
    ensures Replacing(a, n, Written(a, n)) && Replacing(a, n, Synced(Written(a, n)))
  {
    Names(a.now);
    Names(a.base);
  }

  /** The steps of putting the snapshot back. */
  lemma RestoringIsReplacing(a: Disk, n: Pair, t: Disk, p: Path, data: Pem)
    requires Replacing(a, n, t)
    requires || (p == Key && a.now.keyBak == Some(data))
             || (p == Cert && a.now.certBak == Some(data) && (a.now.keyBak.Some? || t.now.key == Some(n.key)))
    ensures Replacing(a, n, Renamed(t, p, data))
  {
    Names(t.now);
  }

  lemma SyncingIsReplacing(a: Disk, n: Pair, t: Disk)
    requires Replacing(a, n, t)
    ensures Replacing(a, n, Synced(t)) && t.now.certBak == a.now.certBak && t.now.keyBak == a.now.keyBak
  {
    Names(t.now);
  }

  /** The new pair is live and synced; only the snapshot is still changing. */
  ghost predicate Cleaning(a: Disk, n: Pair, t: Disk) {
    && t.now.cert == Some(n.cert) && t.now.key == Some(n.key)
    && t.base.cert == Some(n.cert) && t.base.key == Some(n.key)
    && (forall p: Path :: !LivePath(p) ==>
          && (t.now.Get(p) == a.now.Get(p) || t.now.Get(p).None?)
          && (t.base.Get(p) == a.now.Get(p) || t.base.Get(p).None?)
          && (t.now.Get(p).Some? ==> t.base.Get(p) == t.now.Get(p)))
    && forall c :: c in t.pending ==> !LivePath(c.path) && c.to.None? && t.now.Get(c.path).None?
  }

  /** Removing a snapshot file, and syncing, keep cleaning. */
  lemma CleaningGoesOn(a: Disk, n: Pair, t: Disk, p: Path)
    requires Cleaning(a, n, t) && !LivePath(p)
    ensures Cleaning(a, n, Removed(t, p)) && Cleaning(a, n, Synced(t))
    ensures Removed(t, p).now.Get(p) == None && forall q: Path :: q != p ==> Removed(t, p).now.Get(q) == t.now.Get(q)
  {
    Names(t.now);
    Names(Removed(t, p).now);
  }

  ghost predicate Installing(m: Matcher, s: Disk, n: Pair, t: Disk) {
    Snapshotting(m, s, t) || Replacing(Armed(m, s), n, t) || Cleaning(Armed(m, s), n, t)
  }

  /** Only live names move, to any value; the snapshot stays. */
  ghost predicate OnlyLive(s: Disk, t: Disk) {
    && t.now.certBak == s.now.certBak && t.now.keyBak == s.now.keyBak
    && (|| (t.base == s.base && forall c :: c in t.pending ==> c in s.pending || LivePath(c.path))
        || (&& t.base.certBak == s.now.certBak && t.base.keyBak == s.now.keyBak
            && forall c :: c in t.pending ==> LivePath(c.path)))
  }

  /** Loading puts back the snapshot b, or writes the generated pair g when a
      live name is missing. */
  ghost predicate Booting(m: Matcher, s: Disk, g: Pair, t: Disk) {
    && OnlyLive(s, t)
    && (forall p: Path :: LivePath(p) ==>
          BootValue(s, g, p, t.now.Get(p)) && (t.base == s.base || BootValue(s, g, p, t.base.Get(p))))
    && (forall c :: c in t.pending ==> c in s.pending || BootValue(s, g, c.path, c.to))
    && (s.now.cert.Some? && s.now.key.Some? ==> Backup(m, s.now).Some?)
    && (s.now.cert.None? && s.now.keyBak.None? && t.now.cert.Some? ==>
          Live(m, t.now) == Some(g) || t.now.cert == s.now.certBak)
  }

  ghost predicate BootValue(s: Disk, g: Pair, p: Path, v: Option<Pem>) {
    var missing := s.now.cert.None? || s.now.key.None?;
    || (p == Cert && (v == s.now.cert || v == s.now.certBak || (missing && v == Some(g.cert))))
    || (p == Key && (v == s.now.key || v == s.now.keyBak || (missing && v == Some(g.key))))
  }

  /** The steps of a recovery. */
  lemma RecoveringIsBooting(m: Matcher, s: Disk, g: Pair, b: Pair)
    requires Backup(m, s.now) == Some(b)
    ensures Booting(m, s, g, Renamed(s, Key, b.key))
    ensures Booting(m, s, g, Written(s, b)) && Booting(m, s, g, PutBack(s, b))
    ensures Live(m, Written(s, b).now) == Some(b)
  {
    var t := Written(s, b);
    Names(s.now);
    Names(s.base);
    Names(t.now);
  }

  /** Generating a pair after a recovery that failed, wherever it failed. */
  lemma GeneratingIsBooting(m: Matcher, s: Disk, mid: Disk, g: Pair, t: Disk)
    requires m(g.cert, g.key) && (s.now.cert.None? || s.now.key.None?)
    requires mid == s || (Booting(m, s, g, mid) && Backup(m, s.now).Some?)
    requires Replacing(mid, g, t)
    ensures Booting(m, s, g, t)
  {
    assert t.now.Get(Cert) == t.now.cert && t.now.Get(Key) == t.now.key;
    assert t.base.Get(Cert) == t.base.cert && t.base.Get(Key) == t.base.key;
    assert mid.now.Get(Cert) == mid.now.cert && mid.now.Get(Key) == mid.now.key;
  }

  // ----- what those points mean -----

  lemma InstallingIsRecoverable(m: Matcher, s: Disk, n: Pair, t: Disk)
    requires m(n.cert, n.key) && Recoverable(m, s.now) && Installing(m, s, n, t)
    ensures Recoverable(m, t.now)
  {
  }

  lemma InstallingIsHeld(m: Matcher, s: Disk, n: Pair, t: Disk)
    requires m(n.cert, n.key) && Settled(m, s) && Installing(m, s, n, t)
    ensures Held(m, t)
  {
    if Cleaning(Armed(m, s), n, t) {
      SteadyHolds(m, t);
    } else if Snapshotting(m, s, t) {
      SnapshottingHolds(m, s, t);
      if LiveSteady(m, t) {
        SteadyHolds(m, t);
      }
    } else {
      ReplacingIsHeld(m, s, n, t);
    }
  }

  lemma SnapshottingHolds(m: Matcher, s: Disk, t: Disk)
    requires Settled(m, s) && Snapshotting(m, s, t)
    ensures LiveSteady(m, t) || (BackupHolds(m, t) && Live(m, t.now) == Backup(m, t.base))
  {
    Names(s.base);
    if t != Armed(m, s) && !LiveSteady(m, s) {
      assert t.base.Get(CertBak) == s.now.cert && t.base.Get(KeyBak) == s.now.key;
    }
  }

  lemma ReplacingIsHeld(m: Matcher, s: Disk, n: Pair, t: Disk)
    requires Settled(m, s) && Replacing(Armed(m, s), n, t)
    ensures Held(m, t)
  {
    if Live(m, s.now).None? {
      SettledLive(m, s);
    }
    assert Backup(m, t.base) == Backup(m, Armed(m, s).base);
  }

  /** Settled with no visible pair that loads means the snapshot holds it. */
  lemma SettledLive(m: Matcher, s: Disk)
    requires Settled(m, s) && Live(m, s.now).None?
    ensures BackupHolds(m, s)
    ensures s.now.certBak == s.base.certBak && s.now.keyBak == s.base.keyBak
  {
    if LiveSteady(m, s) {
      SteadyHolds(m, s);
    }
    BackupIsVisible(m, s);
  }

  lemma BackupIsVisible(m: Matcher, s: Disk)
    requires BackupHolds(m, s) && Survives(s, s.now)
    ensures s.now.certBak == s.base.certBak && s.now.keyBak == s.base.keyBak
  {
    Names(s.now);
    Names(s.base);
    assert Possible(s, CertBak, s.now.Get(CertBak)) && Possible(s, KeyBak, s.now.Get(KeyBak));
  }

  /** Where an install that ends without a rollback error ends. */
  ghost predicate InstallEnds(m: Matcher, s: Disk, n: Pair, t: Disk) {
    && Survives(t, t.now)
    && (|| t == s || Snapshotting(m, s, t) || Cleaning(Armed(m, s), n, t)
        || (Installing(m, s, n, t) && (t == Armed(m, s) || t == Rebooted(t.now))))
  }

  /** Another operation may start there. */
  lemma InstallEndsSettled(m: Matcher, s: Disk, n: Pair, t: Disk)
    requires m(n.cert, n.key) && Settled(m, s) && InstallEnds(m, s, n, t)
    ensures Settled(m, t)
  {
    if t == s {
    } else if Cleaning(Armed(m, s), n, t) {
      CleaningIsSettled(m, Armed(m, s), n, t);
    } else if Snapshotting(m, s, t) {
      SnapshottingIsSettled(m, s, t);
    } else if t == Rebooted(t.now) {
      InstallingIsHeld(m, s, n, t);
      HeldSurvivesCrash(m, t, t.now);
    }
  }

  lemma CleaningIsSettled(m: Matcher, a: Disk, n: Pair, t: Disk)
    requires m(n.cert, n.key) && Cleaning(a, n, t) && Survives(t, t.now)
    ensures Settled(m, t)
  {
    Names(t.now);
    Names(t.base);
    if Backup(m, t.now).Some? {
      assert Backup(m, t.base) == Backup(m, t.now);
      assert BackupHolds(m, t);
    }
  }

  lemma SnapshottingIsSettled(m: Matcher, s: Disk, t: Disk)
    requires Settled(m, s) && Snapshotting(m, s, t) && Survives(t, t.now)
    ensures Settled(m, t)
  {
    SnapshottingHolds(m, s, t);
    if t != Armed(m, s) && Backup(m, t.now).Some? && !Share(Live(m, t.now).value, Backup(m, t.now).value) {
      assert Backup(m, t.now) == Backup(m, s.now);
      assert BackupHolds(m, t);
    }
  }

  /** Where a load that returns a pair ends: nothing written, or all of it
      synced. */
  ghost predicate BootEnds(m: Matcher, s: Disk, t: Disk) {
    Live(m, t.now).Some? && (t == s || t == Rebooted(t.now))
  }

  lemma BootEndsSettled(m: Matcher, s: Disk, t: Disk)
    requires Settled(m, s) && BootEnds(m, s, t)
    ensures Settled(m, t)
  {
    if t != s {
      Names(t.now);
      assert LiveSteady(m, t);
      SteadyHolds(m, t);
      HeldSurvivesCrash(m, t, t.now);
    }
  }

  lemma BootingIsRecoverable(m: Matcher, s: Disk, g: Pair, t: Disk)
    requires Recoverable(m, s.now) && Booting(m, s, g, t)
    ensures Recoverable(m, t.now)
  {
    assert t.now.Get(Cert) == t.now.cert && t.now.Get(Key) == t.now.key;
  }

  /** At every point of a load, with or without unsynced changes before it. */
  lemma BootingIsHeld(m: Matcher, s: Disk, g: Pair, t: Disk)
    requires Settled(m, s) && Booting(m, s, g, t)
    ensures Held(m, t)
  {
    if BackupHolds(m, s) {
      BackupIsVisible(m, s);
      Names(t.base);
      assert Backup(m, t.base) == Backup(m, s.base);
    } else {
      SteadyHolds(m, s);
      BootingShares(m, s, g, t);
    }
  }

  lemma BootingShares(m: Matcher, s: Disk, g: Pair, t: Disk)
    requires LiveSteady(m, s) && Live(m, s.now) == Live(m, s.base) && Booting(m, s, g, t)
    requires Backup(m, s.now).Some? ==> Share(Live(m, s.now).value, Backup(m, s.now).value)
    ensures LiveHolds(m, t)
  {
    var p, b := Live(m, s.now).value, Backup(m, s.now).value;
    Names(s.base);
    Names(t.base);
    forall c, k | Possible(t, Cert, c) && Possible(t, Key, k)
      ensures Load(m, c, k).Some?
    {
      assert c == Some(p.cert) || c == Some(b.cert);
      assert k == Some(p.key) || k == Some(b.key);
    }
  }

  // ----- exactly the old pair or exactly the new one -----

  /** Neither pair's certificate loads with the other's key, except where the
      two pairs share that file. */
  predicate Foreign(m: Matcher, prev: Pair, n: Pair) {
    prev.cert == n.cert || prev.key == n.key || (!m(prev.cert, n.key) && !m(n.cert, prev.key))
  }

  /** Over a synced pair, every crash that keeps any subset of the unsynced
      changes leaves a directory that loads the old pair or the new one. */
  lemma CrashLoadsOldOrNew(m: Matcher, s: Dir, prev: Pair, n: Pair, t: Disk, d: Dir)
    requires m(n.cert, n.key) && Live(m, s) == Some(prev) && Foreign(m, prev, n)
    requires Installing(m, Rebooted(s), n, t) && Survives(t, d)
    ensures Current(m, d) == Some(prev) || Current(m, d) == Some(n)
  {
    if Snapshotting(m, Rebooted(s), t) {
      SnapshottingLoads(m, s, prev, t, d);
    } else if Cleaning(Armed(m, Rebooted(s)), n, t) {
      CleaningLoads(m, Armed(m, Rebooted(s)), n, t, d);
    } else {
      ReplacingLoads(m, s, prev, n, t, d);
    }
  }

  lemma SnapshottingLoads(m: Matcher, s: Dir, prev: Pair, t: Disk, d: Dir)
    requires Live(m, s) == Some(prev) && Snapshotting(m, Rebooted(s), t) && Survives(t, d)
    ensures Live(m, d) == Some(prev)
  {
    Names(d);
    Names(t.base);
    assert Possible(t, Cert, d.Get(Cert)) && Possible(t, Key, d.Get(Key));
  }

  lemma CleaningLoads(m: Matcher, a: Disk, n: Pair, t: Disk, d: Dir)
    requires m(n.cert, n.key) && Cleaning(a, n, t) && Survives(t, d)
    ensures Live(m, d) == Some(n)
  {
    Names(d);
    Names(t.base);
    assert Possible(t, Cert, d.Get(Cert)) && Possible(t, Key, d.Get(Key));
  }

  lemma ReplacingLoads(m: Matcher, s: Dir, prev: Pair, n: Pair, t: Disk, d: Dir)
    requires m(n.cert, n.key) && Live(m, s) == Some(prev) && Foreign(m, prev, n)
    requires Replacing(Armed(m, Rebooted(s)), n, t) && Survives(t, d)
    ensures Current(m, d) == Some(prev) || Current(m, d) == Some(n)
  {
    Names(d);
    Names(t.base);
    assert Possible(t, Cert, d.Get(Cert)) && Possible(t, Key, d.Get(Key));
    assert Possible(t, CertBak, d.Get(CertBak)) && Possible(t, KeyBak, d.Get(KeyBak));
  }

  /** The disk an install over a synced prev has reached once both live names
      are renamed over, one operation after another. */
  function Unsynced(s: Dir, prev: Pair, n: Pair): Disk {
    var snapshot := Synced(Renamed(Renamed(Rebooted(s), CertBak, prev.cert), KeyBak, prev.key));
    Written(snapshot, n)
  }

  /** Foreign is exactly what the promise needs. For every directory with a live
      pair: whatever point of an install a crash strikes and whatever it keeps,
      the old pair or the new one loads, if and only if the pairs are foreign. */
  lemma OldOrNewExactlyWhenForeign(m: Matcher, s: Dir, prev: Pair, n: Pair)
    requires m(n.cert, n.key) && Live(m, s) == Some(prev)
    ensures Foreign(m, prev, n) <==>
            forall t, d :: Installing(m, Rebooted(s), n, t) && Survives(t, d) ==> Current(m, d) in {Some(prev), Some(n)}
  {
    if Foreign(m, prev, n) {
      forall t, d | Installing(m, Rebooted(s), n, t) && Survives(t, d)
        ensures Current(m, d) in {Some(prev), Some(n)}
      {
        CrashLoadsOldOrNew(m, s, prev, n, t, d);
      }
    } else {
      var d := CrossedSurvivor(m, s, prev, n);
      assert Survives(Unsynced(s, prev, n), d);
    }
  }

  /** Pairs that cross-match can be mixed by a crash before the sync. */
  lemma CrossedSurvivor(m: Matcher, s: Dir, prev: Pair, n: Pair) returns (d: Dir)
    requires m(n.cert, n.key) && Live(m, s) == Some(prev) && !Foreign(m, prev, n)
    ensures Installing(m, Rebooted(s), n, Unsynced(s, prev, n)) && Survives(Unsynced(s, prev, n), d)
    ensures Current(m, d) !in {Some(prev), Some(n)}
  {
    var t := Unsynced(s, prev, n);
    assert Armed(m, Rebooted(s)) == Rebooted(Dir(Some(prev.cert), Some(prev.key), Some(prev.cert), Some(prev.key)));
    assert Replacing(Armed(m, Rebooted(s)), n, t);
    d := if m(prev.cert, n.key) then t.base.(key := Some(n.key)) else t.base.(cert := Some(n.cert));
    Names(d);
    Names(t.base);
    assert Change(Key, Some(n.key)) in t.pending && Change(Cert, Some(n.cert)) in t.pending;
  }
}
