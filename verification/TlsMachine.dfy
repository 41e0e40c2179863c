/** The methods of TlsInstall under a machine that crashes: one act after
    another, each ending by itself or struck at any disk it passed through. What
    comes out are the runs that TlsRuns is about. */
module TlsMachine {
  import opened Wrappers
  import opened TlsPair
  import opened TlsInstall
  import opened TlsRuns

  /** One act. completed is false for a load that returned nothing and for an
      install whose rollback failed. */
  method Do(store: Store, act: Act) returns (completed: bool)
    requires !store.statFaults && store.Coherent()
    modifies store
    ensures store.Coherent()
    ensures During(store.pairs, old(store.Now()), act, store.Now())
    ensures forall t :: t in store.visited ==> During(store.pairs, old(store.Now()), act, t)
    ensures completed ==> Ends(store.pairs, old(store.Now()), act, store.Now())
  {
    hide Booting, Installing, InstallEnds, Survives;
    store.visited := {store.Now()};
    match act
    case Boot(g) =>
      var loaded := store.LoadOrGenerate(g);
      completed := loaded.Some?;
    case Replace(n) =>
      var result := store.Install(n);
      completed := result != RollbackFailed;
  }

  /** The values a name can have after a crash. */
  function Values(t: Disk, p: Path): (vs: set<Option<Pem>>)
    ensures t.base.Get(p) in vs && forall v :: v in vs ==> Possible(t, p, v)
  {
    {t.base.Get(p)} + set c | c in t.pending && c.path == p :: c.to
  }

  /** A crash at some disk the act passed through, keeping every change made or
      any subset of the unsynced ones. */
  method Strike(store: Store, inOrder: bool) returns (at: Disk)
    modifies store
    ensures at == old(store.Now()) || at in old(store.visited)
    ensures store.Now() == Rebooted(store.dir)
    ensures if inOrder then store.dir == at.now else Survives(at, store.dir)
  {
    var struck := store.visited + {store.Now()};
    assert store.Now() in struck;
    at :| at in struck;
    var d := at.now;
    if !inOrder {
      var cert :| cert in Values(at, Cert);
      var key :| key in Values(at, Key);
      var certBak :| certBak in Values(at, CertBak);
      var keyBak :| keyBak in Values(at, KeyBak);
      d := Dir(cert, key, certBak, keyBak);
      forall p: Path
        ensures Possible(at, p, d.Get(p))
      {
        Names(d);
        assert d.Get(p) in Values(at, p);
      }
    }
    store.dir, store.base, store.pending := d, d, {};
  }

  function Offer(act: Act): Pair {
    if act.Boot? then act.generated else act.offered
  }

  /** Every run of acts and crashes. With careful an act that did not complete is
      followed by a crash before the next. */
  method Run(store: Store, acts: seq<Act>, inOrder: bool, careful: bool) returns (run: seq<Stage>)
    requires !store.statFaults && store.Coherent()
    modifies store
    ensures |run| == |acts| && forall i :: 0 <= i < |run| ==> run[i].act == acts[i]
    ensures store.Now() == Final(old(store.Now()), run)
    ensures inOrder ==> Ordered(store.pairs, old(store.Now()), run)
    ensures !inOrder && careful ==> AnySubset(store.pairs, old(store.Now()), run)
    ensures AnyRun(store.pairs, set a | a in acts :: Offer(a), old(store.Now()), run)
    ensures inOrder && old(Recoverable(store.pairs, store.dir)) ==> Recoverable(store.pairs, store.dir)
    ensures !inOrder && careful && old(Settled(store.pairs, store.Now())) ==>
      Settled(store.pairs, store.Now()) && Current(store.pairs, store.dir).Some?
  {
    ghost var m, s, offered := store.pairs, store.Now(), set a | a in acts :: Offer(a);
    run := [];
    for n := 0 to |acts|
      invariant store.Coherent()
      invariant |run| == n && forall i :: 0 <= i < n ==> run[i].act == acts[i]
      invariant store.Now() == Final(s, run)
      invariant inOrder ==> Ordered(m, s, run)
      invariant !inOrder && careful ==> AnySubset(m, s, run)
      invariant AnyRun(m, offered, s, run)
    {
      hide During, Ends, Survives, Settled, Ordered, AnySubset, AnyRun;
      var completed := Do(store, acts[n]);
      var crash := careful && !completed;
      if !crash {
        crash := *;
      }
      var at := store.Now();
      if crash {
        at := Strike(store, inOrder);
        RebootedIsCoherent(store.dir);
      }
      var stage := Stage(acts[n], at, store.Now());
      assert Offer(acts[n]) in offered;
      if inOrder {
        OrderedGoesOn(m, s, run, stage);
      } else if careful {
        AnySubsetGoesOn(m, s, run, stage);
      }
      AnyRunGoesOn(m, offered, s, run, stage);
      run := run + [stage];
    }
    if inOrder && Recoverable(m, s.now) {
      OrderedRunsStayRecoverable(m, s, run);
    } else if !inOrder && careful && Settled(m, s) {
      UnsyncedRunsStayLoadable(m, s, run);
    }
  }

  lemma RebootedIsCoherent(d: Dir)
    ensures Survives(Rebooted(d), d)
  {
  }

  lemma {:induction false} OrderedGoesOn(m: Matcher, s: Disk, run: seq<Stage>, x: Stage)
    requires Ordered(m, s, run) && During(m, Final(s, run), x.act, x.at)
    requires x.after == x.at || x.after == Rebooted(x.at.now)
    ensures Ordered(m, s, run + [x])
    decreases |run|
  {
    hide During;
    if run != [] {
      OrderedGoesOn(m, run[0].after, run[1..], x);
      assert (run + [x])[1..] == run[1..] + [x];
    }
  }

  lemma {:induction false} AnySubsetGoesOn(m: Matcher, s: Disk, run: seq<Stage>, x: Stage)
    requires AnySubset(m, s, run) && During(m, Final(s, run), x.act, x.at)
    requires (x.after == x.at && Ends(m, Final(s, run), x.act, x.at)) ||
             (Survives(x.at, x.after.now) && x.after == Rebooted(x.after.now))
    ensures AnySubset(m, s, run + [x])
    decreases |run|
  {
    hide During, Ends, Survives, Settled;
    if run != [] {
      AnySubsetGoesOn(m, run[0].after, run[1..], x);
      assert (run + [x])[1..] == run[1..] + [x];
    }
  }

  lemma {:induction false} AnyRunGoesOn(m: Matcher, offered: set<Pair>, s: Disk, run: seq<Stage>, x: Stage)
    requires AnyRun(m, offered, s, run) && During(m, Final(s, run), x.act, x.at) && Offer(x.act) in offered
    requires || x.after == x.at || x.after == Rebooted(x.at.now)
             || (Survives(x.at, x.after.now) && x.after == Rebooted(x.after.now))
    ensures AnyRun(m, offered, s, run + [x])
    decreases |run|
  {
    hide During, Survives;
    if run != [] {
      AnyRunGoesOn(m, offered, run[0].after, run[1..], x);
      assert (run + [x])[1..] == run[1..] + [x];
    }
  }
}
