/** Bringing a proxy group in line with its subscription. */
module Sync {
  import opened Wrappers
  import opened Text
  import opened Counting
  import opened Database
  import opened PoolState
  import opened Binding

  datatype SubProxy = SubProxy(host: string, port: int, username: Option<string>, password: Option<string>,
                               country: Option<string>, exitIp: Option<string>)

  // ----- upsert -----

  function FindKey(db: Db, key: (int, string, int), hi: int): (r: Option<int>)
    ensures r.Some? ==> r.value in db.proxies && Key(db.proxies[r.value]) == key
    ensures r.None? ==> forall p :: 1 <= p < hi && p in db.proxies ==> Key(db.proxies[p]) != key
    decreases hi
  {
    if hi <= 1 then None
    else if hi - 1 in db.proxies && Key(db.proxies[hi - 1]) == key then Some(hi - 1)
    else FindKey(db, key, hi - 1)
  }

  function Refreshed(row: ProxyRow, p: SubProxy): ProxyRow {
    row.(username := p.username, password := p.password, country := p.country, exitIp := p.exitIp)
  }

  /** `INSERT ... ON CONFLICT(group_id,host,port) DO UPDATE`: the status is not touched. */
  function Upsert(db: Db, gid: int, p: SubProxy): Db {
    match FindKey(db, (gid, p.host, p.port), db.nextProxy)
    case Some(id) => db.(proxies := db.proxies[id := Refreshed(db.proxies[id], p)])
    case None =>
      db.(proxies := db.proxies[db.nextProxy :=
            ProxyRow(gid, p.host, p.port, p.username, p.password, p.country, p.exitIp, Available)],
          nextProxy := db.nextProxy + 1)
  }

  function UpsertAll(db: Db, gid: int, sub: seq<SubProxy>): Db {
    if sub == [] then db
    else Upsert(UpsertAll(db, gid, sub[..|sub| - 1]), gid, sub[|sub| - 1])
  }

  // ----- prune -----

  function KeyText(host: string, port: int): string { host + ":" + PrintInt(port) }

  function PresentKeys(sub: seq<SubProxy>): set<string> {
    if sub == [] then {}
    else PresentKeys(sub[..|sub| - 1]) + {KeyText(sub[|sub| - 1].host, sub[|sub| - 1].port)}
  }

  predicate IsStale(db: Db, gid: int, present: set<string>, p: int) {
    p in db.proxies && db.proxies[p].group == gid
    && KeyText(db.proxies[p].host, db.proxies[p].port) !in present
  }

  function Stale(db: Db, gid: int, present: set<string>): set<int> {
    set p | p in db.proxies && IsStale(db, gid, present, p)
  }

  function Reconcile(db: Db, gid: int, sub: seq<SubProxy>): Db {
    var up := UpsertAll(db, gid, sub);
    DeleteProxies(up, Stale(up, gid, PresentKeys(sub)))
  }

  // ----- reload and rebind -----

  function Reload(st: State, gid: int): State {
    st.(proxies := (map p | p in st.proxies && st.proxies[p].group != gid :: st.proxies[p])
                 + GroupEntries(st.db, gid))
  }

  function GroupEntries(db: Db, gid: int): map<int, ProxyEntry> {
    map p | p in db.proxies && db.proxies[p].group == gid :: Entry(db.proxies[p])
  }

  predicate NeedsProxy(db: Db, gid: int, a: int) {
    a in db.accounts && db.accounts[a].boundProxy.None? && (db.accounts[a].platform, gid) in db.links
  }

  /** The unbound accounts of the platforms linked to the group, in id order. */
  function NullAccounts(db: Db, gid: int, hi: int): (r: seq<int>)
    ensures forall a :: a in r <==> 1 <= a < hi && NeedsProxy(db, gid, a)
    decreases hi
  {
    if hi <= 1 then []
    else NullAccounts(db, gid, hi - 1) + (if NeedsProxy(db, gid, hi - 1) then [hi - 1] else [])
  }

  function Rebind(st: State, id: int): State {
    if id in st.db.accounts then BindAccount(st, id, st.db.accounts[id].registrationIp) else st
  }

  function RebindAll(st: State, ids: seq<int>): State {
    if ids == [] then st else Rebind(RebindAll(st, ids[..|ids| - 1]), ids[|ids| - 1])
  }

  /** No subscription (the fetch failed) or no such group: nothing changes. */
  function SyncGroup(st: State, gid: int, subscription: Option<seq<SubProxy>>): State {
    if gid !in st.db.groups || subscription.None? then st
    else
      var st1 := Reload(st.(db := Reconcile(st.db, gid, subscription.value)), gid);
      RebindAll(st1, NullAccounts(st1.db, gid, st1.db.nextAccount))
  }

  method Synchronize(pools: Pools, gid: int, subscription: Option<seq<SubProxy>>) returns (ok: bool)
    requires WellFormed(pools.db)
    modifies pools`db, pools`proxies, pools`accounts
    ensures pools.View() == SyncGroup(old(pools.View()), gid, subscription)
    ensures ok <==> old(gid in pools.db.groups) && subscription.Some?
  {
    if gid !in pools.db.groups || subscription.None? { return false; }
    ghost var before := pools.db;
    var present := UpsertRows(pools, gid, subscription.value);
    UpsertAllExact(before, gid, subscription.value);
    DeleteProxiesKeepsWellFormed(pools.db, Stale(pools.db, gid, present));
    Prune(pools, gid, present);
    ReloadGroup(pools, gid);
    RebindNull(pools, gid);
    return true;
  }

  method UpsertRows(pools: Pools, gid: int, sub: seq<SubProxy>) returns (present: set<string>)
    modifies pools`db
    ensures pools.db == UpsertAll(old(pools.db), gid, sub)
    ensures present == PresentKeys(sub)
  {
    present := {};
    for i := 0 to |sub|
      invariant present == PresentKeys(sub[..i])
      invariant pools.db == UpsertAll(old(pools.db), gid, sub[..i])
    {
      assert sub[..i + 1][..i] == sub[..i];
      present := present + {KeyText(sub[i].host, sub[i].port)};
      pools.db := Upsert(pools.db, gid, sub[i]);
    }
    assert sub[..|sub|] == sub;
  }

  method Prune(pools: Pools, gid: int, present: set<string>)
    requires WellFormed(pools.db)
    modifies pools`db
    ensures pools.db == DeleteProxies(old(pools.db), Stale(old(pools.db), gid, present))
  {
    var before := pools.db;
    ghost var gone: set<int> := {};
    DeleteNoProxies(before);
    for p := 1 to before.nextProxy
      invariant forall q :: q in gone <==> 1 <= q < p && IsStale(before, gid, present, q)
      invariant pools.db == DeleteProxies(before, gone)
    {
      if p in before.proxies && before.proxies[p].group == gid {
        var key := KeyText(before.proxies[p].host, before.proxies[p].port);
        if key !in present {
          DeleteProxiesCompose(before, gone, {p});
          pools.db := DeleteProxies(pools.db, {p});
          gone := gone + {p};
        }
      }
    }
    assert forall q :: q in gone ==> q in Stale(before, gid, present);
    assert forall q :: q in Stale(before, gid, present) ==> q in gone;
    assert gone == Stale(before, gid, present);
  }

  lemma DeleteNoProxies(db: Db)
    ensures DeleteProxies(db, {}) == db
  {
    var d := DeleteProxies(db, {});
    assert forall a :: a in db.accounts ==> d.accounts[a] == db.accounts[a];
    assert d.accounts == db.accounts;
    assert forall l :: l in db.logs ==> d.logs[l] == db.logs[l];
    assert d.logs == db.logs;
  }

  method ReloadGroup(pools: Pools, gid: int)
    requires WellFormed(pools.db)
    modifies pools`proxies
    ensures pools.View() == Reload(old(pools.View()), gid)
  {
    var db, before := pools.db, pools.proxies;
    var kept := map p | p in before && before[p].group != gid :: before[p];
    ghost var entries := GroupEntries(db, gid);
    pools.proxies := kept;
    for id := 1 to db.nextProxy
      invariant pools.proxies == kept + Upto(entries, id)
    {
      EntriesNext(kept, db, gid, id);
      if id in db.proxies && db.proxies[id].group == gid {
        pools.proxies := pools.proxies[id := Entry(db.proxies[id])];
      }
    }
    UptoAll(entries, db.nextProxy);
  }

  lemma EntriesNext(kept: map<int, ProxyEntry>, db: Db, gid: int, id: int)
    ensures kept + Upto(GroupEntries(db, gid), id + 1)
         == if id in db.proxies && db.proxies[id].group == gid
            then (kept + Upto(GroupEntries(db, gid), id))[id := Entry(db.proxies[id])]
            else kept + Upto(GroupEntries(db, gid), id)
  {
    var entries := GroupEntries(db, gid);
    UptoNext(entries, id);
    if id in entries {
      assert kept + Upto(entries, id)[id := entries[id]] == (kept + Upto(entries, id))[id := entries[id]];
    }
  }

  method RebindNull(pools: Pools, gid: int)
    modifies pools`db, pools`accounts
    ensures pools.View() == RebindAll(old(pools.View()), NullAccounts(old(pools.db), gid, old(pools.db.nextAccount)))
  {
    var ids := NullAccounts(pools.db, gid, pools.db.nextAccount);
    for i := 0 to |ids|
      invariant pools.View() == RebindAll(old(pools.View()), ids[..i])
    {
      assert ids[..i + 1][..i] == ids[..i];
      if ids[i] in pools.db.accounts {
        Bind(pools, ids[i], pools.db.accounts[ids[i]].registrationIp);
      }
    }
    assert ids[..|ids|] == ids;
  }

  // ----- the textual key -----

  /** Two addresses with the same `host:port` text are the same address, whatever the host
      contains: a printed port has no colon. */
  lemma KeyTextInjective(host: string, port: int, host': string, port': int)
    requires KeyText(host, port) == KeyText(host', port')
    ensures host == host' && port == port'
  {
    LastCutUnique(host, ':', PrintInt(port));
    LastCutUnique(host', ':', PrintInt(port'));
    PrintIntInjective(port, port');
  }

  /** The last subscription entry for an address: the one whose fields win. */
  function Last(sub: seq<SubProxy>, host: string, port: int): Option<SubProxy> {
    if sub == [] then None
    else
      var p := sub[|sub| - 1];
      if p.host == host && p.port == port then Some(p) else Last(sub[..|sub| - 1], host, port)
  }

  lemma {:induction false} PresentExact(sub: seq<SubProxy>, host: string, port: int)
    ensures KeyText(host, port) in PresentKeys(sub) <==> Last(sub, host, port).Some?
  {
    if sub != [] {
      PresentExact(sub[..|sub| - 1], host, port);
      var p := sub[|sub| - 1];
      if KeyText(p.host, p.port) == KeyText(host, port) {
        KeyTextInjective(p.host, p.port, host, port);
      }
    }
  }

  // ----- what the upserts do -----

  predicate Carries(row: ProxyRow, p: SubProxy) {
    row.username == p.username && row.password == p.password && row.country == p.country && row.exitIp == p.exitIp
  }

  /** Rows keep their id, key and status; a row of another group, or not subscribed to, keeps everything. */
  ghost predicate RowsSurvive(db: Db, db': Db, gid: int, sub: seq<SubProxy>) {
    forall p :: p in db.proxies ==>
      && p in db'.proxies && Key(db'.proxies[p]) == Key(db.proxies[p])
      && db'.proxies[p].status == db.proxies[p].status
      && (db.proxies[p].group != gid || Last(sub, db.proxies[p].host, db.proxies[p].port).None?
          ==> db'.proxies[p] == db.proxies[p])
  }

  /** New rows have fresh ids without gaps, are available, and are subscribed to. */
  ghost predicate RowsAdded(db: Db, db': Db, gid: int, sub: seq<SubProxy>) {
    && db.nextProxy <= db'.nextProxy
    && (forall p :: p in db'.proxies && p !in db.proxies ==>
          && db'.proxies[p].group == gid && db'.proxies[p].status == Available
          && Last(sub, db'.proxies[p].host, db'.proxies[p].port).Some?)
    && (forall p :: p in db'.proxies && p !in db.proxies <==> db.nextProxy <= p < db'.nextProxy)
  }

  /** A subscribed row carries the fields of the last entry for its address. */
  ghost predicate RowsCarry(db: Db, gid: int, sub: seq<SubProxy>) {
    forall p :: p in db.proxies && db.proxies[p].group == gid ==>
      var last := Last(sub, db.proxies[p].host, db.proxies[p].port);
      last.Some? ==> Carries(db.proxies[p], last.value)
  }

  /** Some proxy of the group has the address. */
  ghost predicate HasAddress(db: Db, gid: int, host: string, port: int) {
    exists p :: p in db.proxies && Key(db.proxies[p]) == (gid, host, port)
  }

  ghost predicate AllPresent(db: Db, gid: int, sub: seq<SubProxy>) {
    forall host, port :: Last(sub, host, port).Some? ==> HasAddress(db, gid, host, port)
  }

  /** One upsert writes one row: the one with the key if there is one, else a new one. */
  lemma UpsertRow(db: Db, gid: int, p: SubProxy) returns (id: int, row: ProxyRow)
    requires WellFormed(db)
    ensures Upsert(db, gid, p)
         == db.(proxies := db.proxies[id := row], nextProxy := db.nextProxy + Bit(id !in db.proxies))
    ensures Key(row) == (gid, p.host, p.port) && Carries(row, p)
    ensures id in db.proxies ==> row == Refreshed(db.proxies[id], p) && Key(db.proxies[id]) == Key(row)
    ensures id !in db.proxies ==> id == db.nextProxy && row.status == Available
    ensures id !in db.proxies ==> forall q :: q in db.proxies ==> Key(db.proxies[q]) != Key(row)
  {
    var r := FindKey(db, (gid, p.host, p.port), db.nextProxy);
    id := if r.Some? then r.value else db.nextProxy;
    row := Upsert(db, gid, p).proxies[id];
  }

  lemma UpsertWellFormed(db: Db, gid: int, p: SubProxy)
    requires WellFormed(db) && gid in db.groups
    ensures WellFormed(Upsert(db, gid, p))
  {
    var id, row := UpsertRow(db, gid, p);
    var db' := Upsert(db, gid, p);
    assert UniqueKeys(db'.proxies);
    assert IdsBelow(db'.proxies, db'.nextProxy);
  }

  lemma UpsertStep(db: Db, mid: Db, gid: int, init: seq<SubProxy>, p: SubProxy)
    requires WellFormed(db) && WellFormed(mid)
    requires RowsSurvive(db, mid, gid, init) && RowsAdded(db, mid, gid, init)
    ensures RowsSurvive(db, Upsert(mid, gid, p), gid, init + [p])
    ensures RowsAdded(db, Upsert(mid, gid, p), gid, init + [p])
  {
    var id, row := UpsertRow(mid, gid, p);
    LastSnoc(init, p);
  }

  lemma LastSnoc(init: seq<SubProxy>, p: SubProxy)
    ensures forall h, t :: Last(init + [p], h, t) == if p.host == h && p.port == t then Some(p) else Last(init, h, t)
  {
    assert (init + [p])[..|init + [p]| - 1] == init;
  }

  lemma CarryStep(mid: Db, gid: int, init: seq<SubProxy>, p: SubProxy)
    requires WellFormed(mid) && RowsCarry(mid, gid, init)
    ensures RowsCarry(Upsert(mid, gid, p), gid, init + [p])
  {
    var id, row := UpsertRow(mid, gid, p);
    var db' := Upsert(mid, gid, p);
    LastSnoc(init, p);
    forall q | q in db'.proxies && db'.proxies[q].group == gid && q != id
      ensures Key(db'.proxies[q]) != (gid, p.host, p.port)
    {
      assert q in mid.proxies;
    }
  }

  lemma PresentStep(mid: Db, gid: int, init: seq<SubProxy>, p: SubProxy)
    requires WellFormed(mid) && AllPresent(mid, gid, init)
    ensures AllPresent(Upsert(mid, gid, p), gid, init + [p])
  {
    var id, row := UpsertRow(mid, gid, p);
    var db' := Upsert(mid, gid, p);
    LastSnoc(init, p);
    forall host, port | Last(init + [p], host, port).Some?
      ensures HasAddress(db', gid, host, port)
    {
      if p.host == host && p.port == port {
        assert Key(db'.proxies[id]) == (gid, host, port);
      } else {
        assert HasAddress(mid, gid, host, port);
        var q :| q in mid.proxies && Key(mid.proxies[q]) == (gid, host, port);
        assert Key(db'.proxies[q]) == (gid, host, port);
      }
    }
  }

  lemma {:induction false} UpsertAllExact(db: Db, gid: int, sub: seq<SubProxy>)
    requires WellFormed(db) && gid in db.groups
    ensures var db' := UpsertAll(db, gid, sub);
      && WellFormed(db')
      && db' == db.(proxies := db'.proxies, nextProxy := db'.nextProxy)
      && RowsSurvive(db, db', gid, sub) && RowsAdded(db, db', gid, sub)
      && RowsCarry(db', gid, sub) && AllPresent(db', gid, sub)
  {
    if sub != [] {
      var init, p := sub[..|sub| - 1], sub[|sub| - 1];
      assert sub == init + [p];
      UpsertAllExact(db, gid, init);
      var mid := UpsertAll(db, gid, init);
      var id, row := UpsertRow(mid, gid, p);
      UpsertWellFormed(mid, gid, p);
      UpsertStep(db, mid, gid, init, p);
      CarryStep(mid, gid, init, p);
      PresentStep(mid, gid, init, p);
    }
  }
}
