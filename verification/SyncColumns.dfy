/** What a synchronization writes, column by column, in the store and in memory, and which proxies
    it gives to the accounts it binds. */
module SyncColumns {
  import opened Wrappers
  import opened Database
  import opened PoolState
  import opened Binding
  import opened Sync
  import opened SyncTheorems
  import opened Admin

  /** The last entry of the subscription for the address is its `k`-th. */
  ghost predicate LastEntry(sub: seq<SubProxy>, k: int, host: string, port: int) {
    && 0 <= k < |sub| && sub[k].host == host && sub[k].port == port
    && forall j :: k < j < |sub| ==> !(sub[j].host == host && sub[j].port == port)
  }

  lemma {:induction false} LastIsEntry(sub: seq<SubProxy>, host: string, port: int) returns (k: int)
    ensures Last(sub, host, port).Some? ==> LastEntry(sub, k, host, port) && Last(sub, host, port).value == sub[k]
    ensures Last(sub, host, port).None? ==> forall j :: 0 <= j < |sub| ==> !(sub[j].host == host && sub[j].port == port)
  {
    k := 0;
    if sub != [] {
      var n := |sub| - 1;
      k := n;
      if !(sub[n].host == host && sub[n].port == port) {
        k := LastIsEntry(sub[..n], host, port);
        assert forall j :: 0 <= j < n ==> sub[..n][j] == sub[j];
      }
    }
  }

  lemma SyncedFacts(st: State, gid: int, sub: seq<SubProxy>)
    requires WellFormed(st.db) && gid in st.db.groups
    ensures var st' := SyncGroup(st, gid, Some(sub));
      && Reconciled(st.db, st'.db, gid, sub)
      && (forall p :: p in st'.db.proxies && st'.db.proxies[p].group == gid ==>
            p in st'.proxies && st'.proxies[p] == Entry(st'.db.proxies[p]))
  {
    SyncReconciles(st, gid, sub);
    SyncMirrorsGroup(st, gid, sub);
  }

  /** After a synchronization every row of the group is as the last subscription entry for its
      address says, in every column the subscription has; memory shows the same proxy; an old row
      keeps its status, and a new one is available. */
  lemma SyncedRow(st: State, gid: int, sub: seq<SubProxy>, now: int, p: int) returns (k: int)
    requires WellFormed(st.db) && gid in st.db.groups
    requires var db' := Apply(st, SyncOp(gid, Some(sub)), now).db; p in db'.proxies && db'.proxies[p].group == gid
    ensures var st' := Apply(st, SyncOp(gid, Some(sub)), now); var row := st'.db.proxies[p];
      && LastEntry(sub, k, row.host, row.port)
      && row.username == sub[k].username && row.password == sub[k].password
      && row.country == sub[k].country && row.exitIp == sub[k].exitIp
      && row.status == (if p in st.db.proxies then st.db.proxies[p].status else Available)
      && (p in st.db.proxies ==>
            st.db.proxies[p].group == gid && st.db.proxies[p].host == row.host && st.db.proxies[p].port == row.port)
      && p in st'.proxies
      && var shown := st'.proxies[p];
         && shown.group == gid && shown.host == sub[k].host && shown.port == sub[k].port
         && shown.username == sub[k].username && shown.password == sub[k].password
         && shown.exitIp == sub[k].exitIp && shown.status == row.status
  {
    SyncedFacts(st, gid, sub);
    var row := Apply(st, SyncOp(gid, Some(sub)), now).db.proxies[p];
    assert Key(row) == (gid, row.host, row.port);
    assert HasAddress(Apply(st, SyncOp(gid, Some(sub)), now).db, gid, row.host, row.port);
    k := LastIsEntry(sub, row.host, row.port);
  }

  /** Every address of the subscription has a row in the group. */
  lemma SyncedAddress(st: State, gid: int, sub: seq<SubProxy>, j: int) returns (p: int)
    requires WellFormed(st.db) && gid in st.db.groups && 0 <= j < |sub|
    ensures var db' := SyncGroup(st, gid, Some(sub)).db;
      && p in db'.proxies && db'.proxies[p].group == gid
      && db'.proxies[p].host == sub[j].host && db'.proxies[p].port == sub[j].port
  {
    SyncedFacts(st, gid, sub);
    var db' := SyncGroup(st, gid, Some(sub)).db;
    var k := LastIsEntry(sub, sub[j].host, sub[j].port);
    assert HasAddress(db', gid, sub[j].host, sub[j].port);
    p :| p in db'.proxies && Key(db'.proxies[p]) == (gid, sub[j].host, sub[j].port);
  }

  // ----- the registration IP -----

  /** An available proxy in a group linked to the platform leaves through the IP. */
  ghost predicate ExitFor(db: Db, slug: string, ip: string, p: int) {
    OnOffer(db, slug, p) && db.proxies[p].exitIp == Some(ip)
  }

  ghost predicate BoundToExit(db: Db, a: int, ip: string) {
    a in db.accounts && db.accounts[a].boundProxy.Some?
    && ExitFor(db, db.accounts[a].platform, ip, db.accounts[a].boundProxy.value)
  }

  lemma BindTakesExit(db: Db, a: int, ip: string, p: int)
    requires WellFormed(db) && a in db.accounts && ExitFor(db, db.accounts[a].platform, ip, p)
    ensures BoundToExit(BindDb(db, a, Some(ip)), a, ip)
  {
    var slug := db.accounts[a].platform;
    ChoiceMeaning(db, slug, Some(ip));
    assert Linked(db, slug, db.proxies[p].group) && Usable(db, db.proxies[p].group, p);
    BindKeeps(db, a, Some(ip));
  }

  /** An account among those bound anew has its registration IP if there is a proxy that has it. */
  lemma {:induction false} RebindTakesExit(st: State, ids: seq<int>, a: int, ip: string, p: int)
    requires WellFormed(st.db) && a in ids && a in st.db.accounts && st.db.accounts[a].registrationIp == Some(ip)
    requires ExitFor(st.db, st.db.accounts[a].platform, ip, p)
    ensures BoundToExit(RebindAll(st, ids).db, a, ip)
  {
    var init, last := ids[..|ids| - 1], ids[|ids| - 1];
    var mid := RebindAll(st, init);
    RebindAllExact(st, init);
    assert ids == init + [last];
    assert mid.db.accounts[a].platform == st.db.accounts[a].platform;
    assert mid.db.accounts[a].registrationIp == Some(ip);
    if last == a {
      BindTakesExit(mid.db, a, ip, p);
      BindStore(mid, a, Some(ip));
    } else {
      RebindTakesExit(st, init, a, ip, p);
      if last in mid.db.accounts {
        BindKeeps(mid.db, last, mid.db.accounts[last].registrationIp);
        BindStore(mid, last, mid.db.accounts[last].registrationIp);
      }
    }
  }

  lemma BindStore(st: State, id: int, ip: Option<string>)
    ensures BindAccount(st, id, ip).db == BindDb(st.db, id, ip)
  {
  }

  /** After a synchronization an account that was unbound, or bound to a proxy that has gone, and
      whose platform is linked to the group, is bound to a proxy that leaves through the IP it was
      registered from, if any of its platform's groups has an available one. */
  lemma SyncKeepsRegistrationIp(st: State, gid: int, sub: seq<SubProxy>, a: int, ip: string, p: int)
    requires WellFormed(st.db) && gid in st.db.groups
    requires a in st.db.accounts && (st.db.accounts[a].platform, gid) in st.db.links
    requires st.db.accounts[a].registrationIp == Some(ip)
    requires var db' := SyncGroup(st, gid, Some(sub)).db;
      && (st.db.accounts[a].boundProxy.None? || st.db.accounts[a].boundProxy.value !in db'.proxies)
      && ExitFor(db', st.db.accounts[a].platform, ip, p)
    ensures BoundToExit(SyncGroup(st, gid, Some(sub)).db, a, ip)
  {
    var mid := Reconcile(st.db, gid, sub);
    var st1 := Reload(st.(db := mid), gid);
    var ids := NullAccounts(mid, gid, mid.nextAccount);
    ReconcileKeepsWellFormed(st.db, gid, sub);
    ReconcileRows(st.db, gid, sub, a);
    RebindAllExact(st1, ids);
    RebindTakesExit(st1, ids, a, ip, p);
  }

  /** Of an account row a reconciliation changes at most the binding, to none when its proxy goes. */
  lemma ReconcileRows(db: Db, gid: int, sub: seq<SubProxy>, a: int)
    requires WellFormed(db) && gid in db.groups && a in db.accounts
    ensures var mid := Reconcile(db, gid, sub);
      && a in mid.accounts && mid.links == db.links
      && mid.accounts[a] == db.accounts[a].(boundProxy := mid.accounts[a].boundProxy)
      && (db.accounts[a].boundProxy.None? || db.accounts[a].boundProxy.value !in mid.proxies ==>
            mid.accounts[a].boundProxy.None?)
  {
    UpsertAllExact(db, gid, sub);
  }

  // ----- the accounts -----

  /** A synchronization changes an account row at most in its binding. An account bound to a proxy
      that stays keeps it. Otherwise it is bound to a proxy on offer if its platform is linked to
      the group and there is one; else it is bound to none. */
  lemma SyncedAccount(st: State, gid: int, sub: seq<SubProxy>, now: int, a: int)
    requires WellFormed(st.db) && gid in st.db.groups && a in st.db.accounts
    ensures var db' := Apply(st, SyncOp(gid, Some(sub)), now).db; var row := st.db.accounts[a];
      && a in db'.accounts && db'.links == st.db.links
      && db'.accounts[a] == row.(boundProxy := db'.accounts[a].boundProxy)
      && (if row.boundProxy.Some? && row.boundProxy.value in db'.proxies then
            db'.accounts[a].boundProxy == row.boundProxy
          else if (row.platform, gid) in st.db.links && SomeOffer(db', row.platform) then
            db'.accounts[a].boundProxy.Some? && OnOffer(db', row.platform, db'.accounts[a].boundProxy.value)
          else db'.accounts[a].boundProxy.None?)
  {
    var mid := Reconcile(st.db, gid, sub);
    var st1 := Reload(st.(db := mid), gid);
    var ids := NullAccounts(mid, gid, mid.nextAccount);
    ReconcileKeepsWellFormed(st.db, gid, sub);
    ReconcileExact(st.db, gid, sub);
    ReconcileRows(st.db, gid, sub, a);
    RebindAllExact(st1, ids);
    var db' := RebindAll(st1, ids).db;
    assert a in ids <==> mid.accounts[a].boundProxy.None? && (mid.accounts[a].platform, gid) in mid.links;
    ServedIffOffer(mid, mid.accounts[a].platform);
    SameOffer(mid, db', mid.accounts[a].platform);
    if a in ids { RebindTakesOffer(st1, ids, a); }
  }

  lemma SameOffer(db: Db, db': Db, slug: string)
    requires db'.proxies == db.proxies && db'.links == db.links
    ensures SomeOffer(db', slug) <==> SomeOffer(db, slug)
    ensures forall p :: OnOffer(db', slug, p) <==> OnOffer(db, slug, p)
  {
    forall p ensures OnOffer(db', slug, p) <==> OnOffer(db, slug, p) {}
    if p :| OnOffer(db, slug, p) { assert OnOffer(db', slug, p); }
    if p :| OnOffer(db', slug, p) { assert OnOffer(db, slug, p); }
  }

  /** Unbound, or bound to a proxy on offer. */
  ghost predicate WellBound(db: Db, a: int) {
    a in db.accounts && (db.accounts[a].boundProxy.None?
                         || OnOffer(db, db.accounts[a].platform, db.accounts[a].boundProxy.value))
  }

  lemma BindTakesOffer(db: Db, a: int, ip: Option<string>)
    requires WellFormed(db) && WellBound(db, a)
    ensures WellBound(BindDb(db, a, ip), a)
    ensures !SomeOffer(db, db.accounts[a].platform) ==> BindDb(db, a, ip) == db
  {
    ChoiceMeaning(db, db.accounts[a].platform, ip);
    ServedIffOffer(db, db.accounts[a].platform);
    BindKeeps(db, a, ip);
  }

  lemma {:induction false} RebindTakesOffer(st: State, ids: seq<int>, a: int)
    requires WellFormed(st.db) && a in st.db.accounts && st.db.accounts[a].boundProxy.None?
    ensures WellBound(RebindAll(st, ids).db, a)
    ensures !SomeOffer(st.db, st.db.accounts[a].platform) ==> RebindAll(st, ids).db.accounts[a].boundProxy.None?
  {
    if ids != [] {
      var init, last := ids[..|ids| - 1], ids[|ids| - 1];
      RebindTakesOffer(st, init, a);
      RebindAllExact(st, init);
      var mid := RebindAll(st, init);
      SameOffer(st.db, mid.db, st.db.accounts[a].platform);
      if last in mid.db.accounts {
        BindStore(mid, last, mid.db.accounts[last].registrationIp);
        BindKeeps(mid.db, last, mid.db.accounts[last].registrationIp);
        if last == a { BindTakesOffer(mid.db, a, mid.db.accounts[a].registrationIp); }
      }
    }
  }
}
