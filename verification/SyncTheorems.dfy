/** What a synchronization achieves: the group equals the subscription, what survives keeps its
    identity, every account that can be served is bound, and a second pass changes nothing. */
module SyncTheorems {
  import opened Wrappers
  import opened Database
  import opened PoolState
  import opened Binding
  import opened Sync

  // ----- the rows -----

  /** The group's addresses are the subscription's. */
  ghost predicate AddressesMatch(db: Db, gid: int, sub: seq<SubProxy>) {
    forall host, port :: HasAddress(db, gid, host, port) <==> Last(sub, host, port).Some?
  }

  /** A row of the group survives exactly when it is subscribed to, and then keeps its id, key
      and status; a new row has a fresh id and is available; other groups' rows are untouched. */
  ghost predicate RowsKept(db: Db, db': Db, gid: int, sub: seq<SubProxy>) {
    && (forall p :: p in db.proxies && db.proxies[p].group == gid ==>
          (p in db'.proxies <==> Last(sub, db.proxies[p].host, db.proxies[p].port).Some?))
    && (forall p :: p in db.proxies && p in db'.proxies ==>
          Key(db'.proxies[p]) == Key(db.proxies[p]) && db'.proxies[p].status == db.proxies[p].status)
    && (forall p :: p in db.proxies && db.proxies[p].group != gid ==>
          p in db'.proxies && db'.proxies[p] == db.proxies[p])
    && (forall p :: p in db'.proxies && p !in db.proxies ==>
          db.nextProxy <= p && db'.proxies[p].group == gid && db'.proxies[p].status == Available)
  }

  /** An account keeps its binding unless its proxy was dropped. */
  ghost predicate BindingsKept(db: Db, db': Db) {
    && db'.accounts.Keys == db.accounts.Keys
    && forall a :: a in db.accounts && db.accounts[a].boundProxy.Some? && db.accounts[a].boundProxy.value in db'.proxies
         ==> db'.accounts[a].boundProxy == db.accounts[a].boundProxy
  }

  ghost predicate Reconciled(db: Db, db': Db, gid: int, sub: seq<SubProxy>) {
    AddressesMatch(db', gid, sub) && RowsKept(db, db', gid, sub) && BindingsKept(db, db') && RowsCarry(db', gid, sub)
  }

  lemma ReconcileKeepsWellFormed(db: Db, gid: int, sub: seq<SubProxy>)
    requires WellFormed(db) && gid in db.groups
    ensures WellFormed(Reconcile(db, gid, sub))
  {
    UpsertAllExact(db, gid, sub);
    var up := UpsertAll(db, gid, sub);
    DeleteProxiesKeepsWellFormed(up, Stale(up, gid, PresentKeys(sub)));
  }

  /** A row is dropped exactly when it is in the group and not subscribed to. */
  lemma PruneExact(up: Db, gid: int, sub: seq<SubProxy>, p: int)
    requires p in up.proxies
    ensures p in Stale(up, gid, PresentKeys(sub))
       <==> up.proxies[p].group == gid && Last(sub, up.proxies[p].host, up.proxies[p].port).None?
  {
    PresentExact(sub, up.proxies[p].host, up.proxies[p].port);
  }

  lemma PruneAll(up: Db, gid: int, sub: seq<SubProxy>)
    ensures var kept := DeleteProxies(up, Stale(up, gid, PresentKeys(sub))).proxies;
      forall p :: p in kept <==>
        p in up.proxies && (up.proxies[p].group != gid || Last(sub, up.proxies[p].host, up.proxies[p].port).Some?)
  {
    forall p | p in up.proxies
      ensures p in Stale(up, gid, PresentKeys(sub))
         <==> up.proxies[p].group == gid && Last(sub, up.proxies[p].host, up.proxies[p].port).None?
    {
      PruneExact(up, gid, sub, p);
    }
  }

  lemma ReconcileAddresses(db: Db, gid: int, sub: seq<SubProxy>)
    requires WellFormed(db) && gid in db.groups
    ensures AddressesMatch(Reconcile(db, gid, sub), gid, sub)
  {
    UpsertAllExact(db, gid, sub);
    var up := UpsertAll(db, gid, sub);
    var db' := Reconcile(db, gid, sub);
    PruneAll(up, gid, sub);
    forall host, port
      ensures HasAddress(db', gid, host, port) <==> Last(sub, host, port).Some?
    {
      if Last(sub, host, port).Some? {
        assert HasAddress(up, gid, host, port);
        var p :| p in up.proxies && Key(up.proxies[p]) == (gid, host, port);
        assert Key(db'.proxies[p]) == (gid, host, port);
      }
      if HasAddress(db', gid, host, port) {
        var p :| p in db'.proxies && Key(db'.proxies[p]) == (gid, host, port);
        assert p in up.proxies;
      }
    }
  }

  lemma ReconcileExact(db: Db, gid: int, sub: seq<SubProxy>)
    requires WellFormed(db) && gid in db.groups
    ensures Reconciled(db, Reconcile(db, gid, sub), gid, sub)
  {
    UpsertAllExact(db, gid, sub);
    PruneAll(UpsertAll(db, gid, sub), gid, sub);
    ReconcileAddresses(db, gid, sub);
    assert RowsKept(db, Reconcile(db, gid, sub), gid, sub);
    assert BindingsKept(db, Reconcile(db, gid, sub));
  }

  // ----- rebinding -----

  /** What a pass of binds leaves alone, and the accounts it must have served. */
  ghost predicate Rebound(st: State, st': State, ids: seq<int>) {
    && WellFormed(st'.db)
    && st'.db.proxies == st.db.proxies && st'.db.links == st.db.links && st'.db.nextProxy == st.db.nextProxy
    && st'.db.accounts.Keys == st.db.accounts.Keys && st'.proxies == st.proxies
    && (forall a :: a in st.db.accounts ==>
          st'.db.accounts[a] == st.db.accounts[a].(boundProxy := st'.db.accounts[a].boundProxy))
    && (forall a :: a in st.db.accounts && a !in ids ==> st'.db.accounts[a] == st.db.accounts[a])
    && (forall a :: a in ids && a in st.db.accounts && Served(st.db, st.db.accounts[a].platform) ==>
          st'.db.accounts[a].boundProxy.Some?)
  }

  lemma SameProxiesSameService(db: Db, db': Db, slug: string)
    requires db'.proxies == db.proxies && db'.links == db.links
    ensures Served(db', slug) <==> Served(db, slug)
  {
    if Served(db, slug) {
      var g, p :| Linked(db, slug, g) && Usable(db, g, p);
      assert Linked(db', slug, g) && Usable(db', g, p);
    }
    if Served(db', slug) {
      var g, p :| Linked(db', slug, g) && Usable(db', g, p);
      assert Linked(db, slug, g) && Usable(db, g, p);
    }
  }

  lemma {:induction false} RebindAllExact(st: State, ids: seq<int>)
    requires WellFormed(st.db)
    ensures Rebound(st, RebindAll(st, ids), ids)
  {
    if ids != [] {
      var init, a := ids[..|ids| - 1], ids[|ids| - 1];
      RebindAllExact(st, init);
      var mid := RebindAll(st, init);
      assert ids == init + [a];
      if a in mid.db.accounts {
        var row := mid.db.accounts[a];
        BindKeeps(mid.db, a, row.registrationIp);
        SameProxiesSameService(st.db, mid.db, row.platform);
        ChoiceMeaning(mid.db, row.platform, row.registrationIp);
        assert RebindAll(st, ids).db == BindDb(mid.db, a, row.registrationIp);
      }
    }
  }

  /** After a synchronization an account of a platform linked to the group is unbound only if
      none of that platform's groups has an available proxy. */
  lemma RebindingIsComplete(st: State, gid: int, sub: seq<SubProxy>, a: int)
    requires WellFormed(st.db) && gid in st.db.groups
    ensures var db' := SyncGroup(st, gid, Some(sub)).db;
      NeedsProxy(db', gid, a) ==> !Served(db', db'.accounts[a].platform)
  {
    ReconcileKeepsWellFormed(st.db, gid, sub);
    var st1 := Reload(st.(db := Reconcile(st.db, gid, sub)), gid);
    var ids := NullAccounts(st1.db, gid, st1.db.nextAccount);
    RebindAllExact(st1, ids);
    var db' := SyncGroup(st, gid, Some(sub)).db;
    if NeedsProxy(db', gid, a) {
      var row := st1.db.accounts[a];
      assert db'.accounts[a] == row.(boundProxy := None);
      SameProxiesSameService(st1.db, db', row.platform);
      assert row.boundProxy.Some? ==> a !in ids;
    }
  }

  lemma SameProxiesSameAddresses(db: Db, db': Db, gid: int, sub: seq<SubProxy>)
    requires db'.proxies == db.proxies && AddressesMatch(db, gid, sub)
    ensures AddressesMatch(db', gid, sub)
  {
    forall host, port
      ensures HasAddress(db', gid, host, port) <==> HasAddress(db, gid, host, port)
    {
      if HasAddress(db, gid, host, port) {
        var p :| p in db.proxies && Key(db.proxies[p]) == (gid, host, port);
        assert Key(db'.proxies[p]) == (gid, host, port);
      }
      if HasAddress(db', gid, host, port) {
        var p :| p in db'.proxies && Key(db'.proxies[p]) == (gid, host, port);
        assert Key(db.proxies[p]) == (gid, host, port);
      }
    }
  }

  lemma SameProxiesSameRows(db: Db, mid: Db, db': Db, gid: int, sub: seq<SubProxy>)
    requires db'.proxies == mid.proxies && RowsKept(db, mid, gid, sub) && RowsCarry(mid, gid, sub)
    ensures RowsKept(db, db', gid, sub) && RowsCarry(db', gid, sub)
  {
  }

  lemma ReboundKeepsBindings(db: Db, st1: State, st': State, ids: seq<int>)
    requires BindingsKept(db, st1.db) && Rebound(st1, st', ids)
    requires forall a :: a in ids && a in st1.db.accounts ==> st1.db.accounts[a].boundProxy.None?
    ensures BindingsKept(db, st'.db)
  {
    forall a | a in db.accounts && db.accounts[a].boundProxy.Some? && db.accounts[a].boundProxy.value in st'.db.proxies
      ensures st'.db.accounts[a].boundProxy == db.accounts[a].boundProxy
    {
      assert st1.db.accounts[a].boundProxy == db.accounts[a].boundProxy;
      assert a !in ids;
    }
  }

  /** Rebinding the unbound keeps what a reconciliation has achieved. */
  lemma ReboundReconciled(db: Db, st1: State, st': State, gid: int, sub: seq<SubProxy>, ids: seq<int>)
    requires Reconciled(db, st1.db, gid, sub) && Rebound(st1, st', ids)
    requires forall a :: a in ids && a in st1.db.accounts ==> st1.db.accounts[a].boundProxy.None?
    ensures Reconciled(db, st'.db, gid, sub)
  {
    SameProxiesSameAddresses(st1.db, st'.db, gid, sub);
    SameProxiesSameRows(db, st1.db, st'.db, gid, sub);
    ReboundKeepsBindings(db, st1, st', ids);
  }

  /** The whole synchronization leaves the store reconciled. */
  lemma SyncReconciles(st: State, gid: int, sub: seq<SubProxy>)
    requires WellFormed(st.db) && gid in st.db.groups
    ensures var db' := SyncGroup(st, gid, Some(sub)).db;
      WellFormed(db') && Reconciled(st.db, db', gid, sub)
  {
    ReconcileKeepsWellFormed(st.db, gid, sub);
    ReconcileExact(st.db, gid, sub);
    var mid := Reconcile(st.db, gid, sub);
    var st1 := Reload(st.(db := mid), gid);
    var ids := NullAccounts(mid, gid, mid.nextAccount);
    RebindAllExact(st1, ids);
    ReboundReconciled(st.db, st1, RebindAll(st1, ids), gid, sub, ids);
  }

  /** ... and the memory map with exactly the store's rows for the group, and with what it held
      before for the other groups. */
  lemma SyncMirrorsGroup(st: State, gid: int, sub: seq<SubProxy>)
    requires WellFormed(st.db) && gid in st.db.groups
    ensures var st' := SyncGroup(st, gid, Some(sub));
      && (forall p :: p in st'.db.proxies && st'.db.proxies[p].group == gid ==>
            p in st'.proxies && st'.proxies[p] == Entry(st'.db.proxies[p]))
      && (forall p :: p in st'.proxies && st'.proxies[p].group == gid ==>
            p in st'.db.proxies && st'.db.proxies[p].group == gid)
      && (forall p :: p in st.proxies && st.proxies[p].group != gid ==>
            || (p in st'.db.proxies && st'.db.proxies[p].group == gid)
            || (p in st'.proxies && st'.proxies[p] == st.proxies[p]))
  {
    ReconcileKeepsWellFormed(st.db, gid, sub);
    var st1 := Reload(st.(db := Reconcile(st.db, gid, sub)), gid);
    RebindAllExact(st1, NullAccounts(st1.db, gid, st1.db.nextAccount));
  }

  // ----- a second pass -----

  lemma {:induction false} RebindNobody(st: State, ids: seq<int>)
    requires forall i :: 0 <= i < |ids| ==> Rebind(st, ids[i]) == st
    ensures RebindAll(st, ids) == st
  {
    if ids != [] {
      assert forall i :: 0 <= i < |ids| - 1 ==> ids[..|ids| - 1][i] == ids[i];
      RebindNobody(st, ids[..|ids| - 1]);
    }
  }

  /** Upserting a subscription every row of which is there already changes nothing. */
  lemma UpsertAgain(db: Db, gid: int, sub: seq<SubProxy>)
    requires WellFormed(db) && gid in db.groups
    requires AllPresent(db, gid, sub) && RowsCarry(db, gid, sub)
    ensures UpsertAll(db, gid, sub) == db
  {
    UpsertAllExact(db, gid, sub);
    var db' := UpsertAll(db, gid, sub);
    forall p | p in db'.proxies
      ensures p in db.proxies && db'.proxies[p] == db.proxies[p]
    {
      assert HasAddress(db, gid, db'.proxies[p].host, db'.proxies[p].port) || p in db.proxies;
    }
    assert forall p :: p in db.proxies ==> p in db'.proxies;
    assert db'.proxies == db.proxies;
    assert db.nextProxy in db.proxies || db.nextProxy == db'.nextProxy;
  }

  lemma ReconcileAgain(db: Db, gid: int, sub: seq<SubProxy>)
    requires WellFormed(db) && gid in db.groups
    requires AddressesMatch(db, gid, sub)
    requires RowsCarry(db, gid, sub)
    ensures Reconcile(db, gid, sub) == db
  {
    UpsertAgain(db, gid, sub);
    var stale := Stale(db, gid, PresentKeys(sub));
    forall p | p in stale
      ensures false
    {
      PruneExact(db, gid, sub, p);
      assert HasAddress(db, gid, db.proxies[p].host, db.proxies[p].port);
    }
    assert stale == {};
    DeleteNoProxies(db);
  }

  lemma ReloadAgain(st: State, gid: int)
    requires forall p :: p in st.db.proxies && st.db.proxies[p].group == gid ==>
      p in st.proxies && st.proxies[p] == Entry(st.db.proxies[p])
    requires forall p :: p in st.proxies && st.proxies[p].group == gid ==>
      p in st.db.proxies && st.db.proxies[p].group == gid
    ensures Reload(st, gid) == st
  {
    var again := Reload(st, gid);
    assert forall p :: p in st.proxies ==> p in again.proxies && again.proxies[p] == st.proxies[p];
    assert forall p :: p in again.proxies ==> p in st.proxies;
    assert again.proxies == st.proxies;
  }

  /** Synchronizing the same subscription again changes nothing at all, in the store or in memory. */
  lemma SyncTwiceIsOnce(st: State, gid: int, sub: seq<SubProxy>)
    requires WellFormed(st.db) && gid in st.db.groups
    ensures var st' := SyncGroup(st, gid, Some(sub));
      SyncGroup(st', gid, Some(sub)) == st'
  {
    var st' := SyncGroup(st, gid, Some(sub));
    SyncReconciles(st, gid, sub);
    SyncMirrorsGroup(st, gid, sub);
    ReconcileKeepsGroups(st, gid, sub);
    ReconcileAgain(st'.db, gid, sub);
    ReloadAgain(st', gid);
    var ids := NullAccounts(st'.db, gid, st'.db.nextAccount);
    forall i | 0 <= i < |ids|
      ensures Rebind(st', ids[i]) == st'
    {
      assert ids[i] in ids;
      NobodyLeftToBind(st, gid, sub, ids[i]);
    }
    RebindNobody(st', ids);
  }

  lemma NobodyLeftToBind(st: State, gid: int, sub: seq<SubProxy>, a: int)
    requires WellFormed(st.db) && gid in st.db.groups
    requires NeedsProxy(SyncGroup(st, gid, Some(sub)).db, gid, a)
    ensures var st' := SyncGroup(st, gid, Some(sub)); Rebind(st', a) == st'
  {
    var st' := SyncGroup(st, gid, Some(sub));
    SyncReconciles(st, gid, sub);
    RebindingIsComplete(st, gid, sub, a);
    ChoiceMeaning(st'.db, st'.db.accounts[a].platform, st'.db.accounts[a].registrationIp);
  }

  lemma {:induction false} RebindAllKeepsGroups(st: State, ids: seq<int>)
    ensures RebindAll(st, ids).db.groups == st.db.groups
    ensures RebindAll(st, ids).db.nextAccount == st.db.nextAccount
  {
    if ids != [] { RebindAllKeepsGroups(st, ids[..|ids| - 1]); }
  }

  lemma ReconcileKeepsGroups(st: State, gid: int, sub: seq<SubProxy>)
    requires WellFormed(st.db) && gid in st.db.groups
    ensures SyncGroup(st, gid, Some(sub)).db.groups == st.db.groups
  {
    UpsertAllExact(st.db, gid, sub);
    var st1 := Reload(st.(db := Reconcile(st.db, gid, sub)), gid);
    RebindAllKeepsGroups(st1, NullAccounts(st1.db, gid, st1.db.nextAccount));
  }
}
