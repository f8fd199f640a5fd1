/** The two copies of an account, the memory slot and the store row: they lead to the same
    proxy, and agree on status and quota, through every operation. */
module Copies {
  import opened Wrappers
  import opened Text
  import opened Database
  import opened PoolState
  import opened Binding
  import opened Sync
  import opened SyncTheorems
  import opened Admin

  // ----- the same proxy -----

  function MemoryProxy(st: State, a: int): Option<(int, ProxyEntry)> {
    if a in st.accounts && st.accounts[a].boundProxy.Some? && st.accounts[a].boundProxy.value in st.proxies
    then Some((st.accounts[a].boundProxy.value, st.proxies[st.accounts[a].boundProxy.value])) else None
  }

  function StoreProxy(st: State, a: int): Option<(int, ProxyEntry)> {
    if a in st.db.accounts && st.db.accounts[a].boundProxy.Some? && st.db.accounts[a].boundProxy.value in st.db.proxies
    then Some((st.db.accounts[a].boundProxy.value, Entry(st.db.proxies[st.db.accounts[a].boundProxy.value]))) else None
  }

  ghost predicate ProxiesMirrored(entries: map<int, ProxyEntry>, rows: map<int, ProxyRow>) {
    && (forall p :: p in entries <==> p in rows)
    && (forall p :: p in entries ==> entries[p] == Entry(rows[p]))
  }

  /** Memory may keep the id of a dropped proxy; that id is never handed out again. */
  ghost predicate BoundAlike(mem: Option<int>, store: Option<int>, rows: map<int, ProxyRow>, nextProxy: int) {
    || mem == store
    || (store.None? && mem.Some? && mem.value !in rows && mem.value < nextProxy)
  }

  ghost predicate AccountsMirrored(slots: map<int, AccountSlot>, accounts: map<int, AccountRow>,
                                   rows: map<int, ProxyRow>, nextProxy: int) {
    forall a :: a in slots ==>
      a in accounts && BoundAlike(slots[a].boundProxy, accounts[a].boundProxy, rows, nextProxy)
  }

  ghost predicate Mirrored(st: State) {
    && WellFormed(st.db)
    && ProxiesMirrored(st.proxies, st.db.proxies)
    && AccountsMirrored(st.accounts, st.db.accounts, st.db.proxies, st.db.nextProxy)
  }

  /** In a mirrored state every loaded account leads to the same proxy, or to none, both ways. */
  lemma MirroredResolves(st: State, a: int)
    requires Mirrored(st) && a in st.accounts
    ensures MemoryProxy(st, a) == StoreProxy(st, a)
  {
    var mem, store := st.accounts[a].boundProxy, st.db.accounts[a].boundProxy;
    assert BoundAlike(mem, store, st.db.proxies, st.db.nextProxy);
    if mem.Some? { assert mem.value in st.proxies <==> mem.value in st.db.proxies; }
    if store.Some? { assert store.value in st.db.proxies; }
  }

  lemma LoadMirrors(db: Db, decrypt: string -> Option<string>)
    requires WellFormed(db)
    ensures Mirrored(LoadAll(db, decrypt))
  {
  }

  lemma BindMirrors(st: State, id: int, registrationIp: Option<string>)
    requires Mirrored(st)
    ensures Mirrored(BindAccount(st, id, registrationIp))
  {
    BindKeeps(st.db, id, registrationIp);
    var st' := BindAccount(st, id, registrationIp);
    if id in st.db.accounts {
      ChoiceMeaning(st.db, st.db.accounts[id].platform, registrationIp);
    }
  }

  lemma {:induction false} RebindAllMirrors(st: State, ids: seq<int>)
    requires Mirrored(st)
    ensures Mirrored(RebindAll(st, ids))
  {
    if ids != [] {
      RebindAllMirrors(st, ids[..|ids| - 1]);
      var mid := RebindAll(st, ids[..|ids| - 1]);
      var a := ids[|ids| - 1];
      if a in mid.db.accounts { BindMirrors(mid, a, mid.db.accounts[a].registrationIp); }
    }
  }

  lemma {:induction false} BindEachMirrors(st: State, ids: seq<int>)
    requires Mirrored(st)
    ensures Mirrored(BindEach(st, ids))
  {
    if ids != [] {
      BindEachMirrors(st, ids[..|ids| - 1]);
      BindMirrors(BindEach(st, ids[..|ids| - 1]), ids[|ids| - 1], None);
    }
  }

  /** Dropping proxies in the store leaves memory bindings that lead nowhere. */
  lemma DroppedBindings(st: State, gone: set<int>, rows: map<int, ProxyRow>, next: int)
    requires AccountsMirrored(st.accounts, st.db.accounts, st.db.proxies, st.db.nextProxy)
    requires WellFormed(st.db) && st.db.nextProxy <= next
    requires forall p :: p in gone ==> p !in rows
    requires forall p :: p < st.db.nextProxy && p in rows ==> p in st.db.proxies
    requires forall p :: p in gone ==> p in st.db.proxies || st.db.nextProxy <= p
    ensures AccountsMirrored(st.accounts, DeleteProxies(st.db, gone).accounts, rows, next)
  {
    var after := DeleteProxies(st.db, gone).accounts;
    forall a | a in st.accounts
      ensures a in after && BoundAlike(st.accounts[a].boundProxy, after[a].boundProxy, rows, next)
    {
      assert BoundAlike(st.accounts[a].boundProxy, st.db.accounts[a].boundProxy, st.db.proxies, st.db.nextProxy);
    }
  }

  lemma ReloadMirrors(st: State, db': Db, gid: int, sub: seq<SubProxy>)
    requires ProxiesMirrored(st.proxies, st.db.proxies) && RowsKept(st.db, db', gid, sub)
    ensures ProxiesMirrored(Reload(st.(db := db'), gid).proxies, db'.proxies)
  {
  }

  lemma ReconcileMirrors(st: State, gid: int, sub: seq<SubProxy>)
    requires Mirrored(st) && gid in st.db.groups
    ensures Mirrored(Reload(st.(db := Reconcile(st.db, gid, sub)), gid))
  {
    var db' := Reconcile(st.db, gid, sub);
    ReconcileExact(st.db, gid, sub);
    ReloadMirrors(st, db', gid, sub);
    ReconcileKeepsWellFormed(st.db, gid, sub);
    UpsertAllExact(st.db, gid, sub);
    var up := UpsertAll(st.db, gid, sub);
    DroppedBindings(st, Stale(up, gid, PresentKeys(sub)), db'.proxies, db'.nextProxy);
  }

  lemma SyncMirrors(st: State, gid: int, subscription: Option<seq<SubProxy>>)
    requires Mirrored(st)
    ensures Mirrored(SyncGroup(st, gid, subscription))
  {
    if gid in st.db.groups && subscription.Some? {
      ReconcileMirrors(st, gid, subscription.value);
      var st1 := Reload(st.(db := Reconcile(st.db, gid, subscription.value)), gid);
      RebindAllMirrors(st1, NullAccounts(st1.db, gid, st1.db.nextAccount));
    }
  }

  lemma {:induction false} LinksWithoutExact(links: seq<(string, int)>, gid: int)
    ensures forall l :: l in LinksWithout(links, gid) <==> l in links && l.1 != gid
  {
    if links != [] { LinksWithoutExact(links[1..], gid); assert links == [links[0]] + links[1..]; }
  }

  lemma DeleteGroupMirrors(st: State, gid: int)
    requires Mirrored(st)
    ensures Mirrored(DeleteGroup(st, gid))
  {
    var gone := InGroup(st.db, gid);
    LinksWithoutExact(st.db.links, gid);
    var st' := DeleteGroup(st, gid);
    DeleteProxiesKeepsWellFormed(st.db, gone);
    DroppedBindings(st, gone, st'.db.proxies, st'.db.nextProxy);
  }

  lemma {:induction false} LinksOfOthersExact(links: seq<(string, int)>, slug: string)
    ensures forall l :: l in LinksOfOthers(links, slug) <==> l in links && l.0 != slug
  {
    if links != [] { LinksOfOthersExact(links[1..], slug); assert links == [links[0]] + links[1..]; }
  }

  lemma {:induction false} InsertLinkExact(links: seq<(string, int)>, slug: string, gid: int)
    ensures forall l :: l in InsertLink(links, slug, gid) <==> l in links || l == (slug, gid)
  {
    if links != [] { InsertLinkExact(links[1..], slug, gid); assert links == [links[0]] + links[1..]; }
  }

  lemma {:induction false} AddLinksExact(links: seq<(string, int)>, slug: string, gids: seq<int>)
    ensures forall l :: l in AddLinks(links, slug, gids) <==> l in links || (l.0 == slug && l.1 in gids)
  {
    if gids != [] {
      AddLinksExact(links, slug, gids[..|gids| - 1]);
      InsertLinkExact(AddLinks(links, slug, gids[..|gids| - 1]), slug, gids[|gids| - 1]);
      assert gids == gids[..|gids| - 1] + [gids[|gids| - 1]];
    }
  }

  lemma LinksMirror(st: State, links: seq<(string, int)>)
    requires Mirrored(st) && forall l :: l in links ==> l.0 in st.db.platforms && l.1 in st.db.groups
    ensures Mirrored(st.(db := st.db.(links := links)))
  {
    var st' := st.(db := st.db.(links := links));
  }

  lemma PermitMirrors(st: State, slug: string, m: Option<nat>)
    requires Mirrored(st)
    ensures Mirrored(PermitIfSet(st, slug, m))
  {
    var st' := PermitIfSet(st, slug, m);
  }

  lemma RelinkMirrors(st: State, slug: string, gids: seq<int>)
    requires Mirrored(st) && LinksAccepted(st.db, slug, gids)
    ensures Mirrored(Relink(st, slug, gids))
  {
    LinksOfOthersExact(st.db.links, slug);
    var others := LinksOfOthers(st.db.links, slug);
    AddLinksExact(others, slug, gids);
    forall l | l in AddLinks(others, slug, gids)
      ensures l.0 in st.db.platforms && l.1 in st.db.groups
    {
      var g := l.1;
      if l !in others { assert g in gids && g in st.db.groups; } else { assert l in st.db.links; }
    }
    LinksMirror(st, AddLinks(others, slug, gids));
  }

  lemma PatchPlatformMirrors(st: State, slug: string, gids: Option<seq<int>>, m: Option<nat>)
    requires Mirrored(st)
    ensures Mirrored(PatchPlatform(st, slug, gids, m))
  {
    if gids.None? {
      PermitMirrors(st, slug, m);
    } else if LinksAccepted(st.db, slug, gids.value) {
      RelinkMirrors(st, slug, gids.value);
      PermitMirrors(Relink(st, slug, gids.value), slug, m);
      var st2 := PermitIfSet(Relink(st, slug, gids.value), slug, m);
      BindEachMirrors(st2, UnboundOn(st2.db, slug, st2.db.nextAccount));
    }
  }

  lemma UploadMirrors(st: State, slug: string, item: UploadItem, quota: Option<int>, c: nat)
    requires Mirrored(st)
    ensures Mirrored(UploadOne(st, slug, item, quota, c))
  {
    if Trim(item.apiKey) != "" && slug in st.db.platforms {
      assert Mirrored(Uploaded(st, slug, item, quota, c));
      BindMirrors(Uploaded(st, slug, item, quota, c), st.db.nextAccount, item.registrationIp);
    }
  }

  lemma PatchMirrors(st: State, id: int, patch: AccountPatch)
    requires Mirrored(st)
    ensures Mirrored(PatchAccount(st, id, patch))
  {
    var st' := PatchAccount(st, id, patch);
  }

  lemma SwitchMirrors(st: State, id: int, s: ProxyStatus)
    requires Mirrored(st)
    ensures Mirrored(SetProxyStatus(st, id, s))
  {
    var st' := SetProxyStatus(st, id, s);
    assert forall p :: p in st'.db.proxies ==> p in st.db.proxies && Key(st'.db.proxies[p]) == Key(st.db.proxies[p]);
  }

  /** The other operations: bindings and proxies are left alone, accounts may disappear. */
  lemma OtherFieldsMirror(st: State, st': State)
    requires Mirrored(st) && st'.proxies == st.proxies
    requires ProxySide(st'.db.platforms, st'.db.groups, st'.db.nextGroup, st'.db.links, st'.db.proxies,
                       st'.db.nextProxy)
    requires st'.db.platforms == st.db.platforms && st'.db.proxies == st.db.proxies
      && st'.db.nextProxy == st.db.nextProxy
    requires st'.db.nextAccount == st.db.nextAccount
    requires 1 <= st'.db.nextToken && IdsBelow(st'.db.tokens, st'.db.nextToken)
    requires 1 <= st'.db.nextLog && IdsBelow(st'.db.logs, st'.db.nextLog)
    requires forall a :: a in st'.db.accounts ==>
      (a in st.db.accounts && st'.db.accounts[a].platform == st.db.accounts[a].platform
       && st'.db.accounts[a].boundProxy == st.db.accounts[a].boundProxy)
    requires forall a :: a in st'.accounts ==>
      (a in st.accounts && (a in st.db.accounts ==> a in st'.db.accounts)
       && st'.accounts[a].boundProxy == st.accounts[a].boundProxy)
    ensures Mirrored(st')
  {
    forall a | a in st'.accounts
      ensures a in st'.db.accounts
      ensures BoundAlike(st'.accounts[a].boundProxy, st'.db.accounts[a].boundProxy, st'.db.proxies, st'.db.nextProxy)
    {
      assert BoundAlike(st.accounts[a].boundProxy, st.db.accounts[a].boundProxy, st.db.proxies, st.db.nextProxy);
    }
  }

  /** Changes of memory slots alone. */
  lemma SlotsMirror(st: State, slots: map<int, AccountSlot>)
    requires Mirrored(st)
    requires forall a :: a in slots ==> a in st.accounts && slots[a].boundProxy == st.accounts[a].boundProxy
    ensures Mirrored(st.(accounts := slots))
  {
    assert forall a :: a in slots ==> a in st.db.accounts;
  }

  /** Changes of account rows alone. */
  lemma RowsMirror(st: State, rows: map<int, AccountRow>)
    requires Mirrored(st) && rows.Keys == st.db.accounts.Keys
    requires forall a :: a in rows ==>
      (rows[a].boundProxy == st.db.accounts[a].boundProxy && rows[a].platform == st.db.accounts[a].platform)
    ensures Mirrored(st.(db := st.db.(accounts := rows)))
  {
  }

  lemma StatusMemMirrors(st: State, id: int, s: AccountStatus)
    requires Mirrored(st)
    ensures Mirrored(SetStatusMem(st, id, s))
  {
    SlotsMirror(st, SetStatusMem(st, id, s).accounts);
  }

  lemma StatusDbMirrors(st: State, id: int, s: AccountStatus)
    requires Mirrored(st)
    ensures Mirrored(SetStatusDb(st, id, s))
  {
    RowsMirror(st, SetStatusDb(st, id, s).db.accounts);
  }

  lemma RecordMemMirrors(st: State, id: int, success: bool)
    requires Mirrored(st)
    ensures Mirrored(RecordMem(st, id, success))
  {
    SlotsMirror(st, RecordMem(st, id, success).accounts);
  }

  lemma RecordDbMirrors(st: State, id: int, success: bool, s: Option<AccountStatus>)
    requires Mirrored(st)
    ensures Mirrored(RecordDb(st, id, success, s))
  {
    RowsMirror(st, RecordDb(st, id, success, s).db.accounts);
  }

  lemma ResetMirrors(st: State, now: int)
    requires Mirrored(st)
    ensures Mirrored(ResetQuotas(st, now))
  {
    var st1 := st.(db := ResetQuotas(st, now).db);
    RowsMirror(st, st1.db.accounts);
    SlotsMirror(st1, ResetQuotas(st, now).accounts);
  }

  lemma DeleteMirrors(st: State, id: int)
    requires Mirrored(st)
    ensures Mirrored(DeleteAccount(st, id))
  {
    OtherFieldsMirror(st, DeleteAccount(st, id));
  }

  lemma RefreshMirrors(st: State, id: int, resetAt: Option<int>)
    requires Mirrored(st)
    ensures Mirrored(RefreshBalance(st, id, resetAt))
  {
    RowsMirror(st, RefreshBalance(st, id, resetAt).db.accounts);
  }

  lemma CreateGroupMirrors(st: State)
    requires Mirrored(st)
    ensures Mirrored(CreateGroup(st))
  {
    OtherFieldsMirror(st, CreateGroup(st));
  }

  lemma OtherOpMirrors(st: State, op: Op, now: int)
    requires Mirrored(st) && (op.TokenCreate? || op.TokenDelete? || op.Cleanup? || op.SetMaxRetries?)
    ensures Mirrored(Apply(st, op, now))
  {
    var st' := Apply(st, op, now);
    assert st' == st.(db := st'.db) && st'.db.proxies == st.db.proxies && st'.db.accounts == st.db.accounts;
  }

  /** Every operation keeps the two copies leading to the same proxy. */
  lemma ApplyMirrors(st: State, op: Op, now: int)
    requires Mirrored(st)
    ensures Mirrored(Apply(st, op, now))
  {
    match op
    case ChangeStatus(id, s) => StatusMemMirrors(st, id, s); StatusDbMirrors(SetStatusMem(st, id, s), id, s);
    case BindOne(id) => BindMirrors(st, id, None);
    case SyncOp(gid, sub) => SyncMirrors(st, gid, sub);
    case Reset => ResetMirrors(st, now);
    case Upload(slug, item, quota, c) => UploadMirrors(st, slug, item, quota, c);
    case PatchOp(id, patch) => PatchMirrors(st, id, patch);
    case DeleteOp(id) => DeleteMirrors(st, id);
    case ProxySwitch(id, s) => SwitchMirrors(st, id, s);
    case GroupDelete(gid) => DeleteGroupMirrors(st, gid);
    case GroupCreate => CreateGroupMirrors(st);
    case PlatformOp(slug, gids, m) => PatchPlatformMirrors(st, slug, gids, m);
    case Refresh(id, r) => RefreshMirrors(st, id, r);
    case _ => OtherOpMirrors(st, op, now);
  }

  // ----- the same status, limit and quota -----

  ghost predicate Agree(st: State) {
    forall a :: a in st.accounts ==>
      && a in st.db.accounts
      && st.accounts[a].status == st.db.accounts[a].status
      && st.accounts[a].quotaUsed == st.db.accounts[a].quotaUsed
      && st.accounts[a].quotaLimit == st.db.accounts[a].quotaLimit
  }

  lemma LoadAgrees(db: Db, decrypt: string -> Option<string>)
    ensures Agree(LoadAll(db, decrypt))
  {
  }

  lemma BindAgrees(st: State, id: int, registrationIp: Option<string>)
    requires Agree(st)
    ensures Agree(BindAccount(st, id, registrationIp))
  {
  }

  lemma {:induction false} RebindAllAgrees(st: State, ids: seq<int>)
    requires Agree(st)
    ensures Agree(RebindAll(st, ids))
  {
    if ids != [] {
      RebindAllAgrees(st, ids[..|ids| - 1]);
      var mid := RebindAll(st, ids[..|ids| - 1]);
      var a := ids[|ids| - 1];
      if a in mid.db.accounts { BindAgrees(mid, a, mid.db.accounts[a].registrationIp); }
    }
  }

  lemma {:induction false} BindEachAgrees(st: State, ids: seq<int>)
    requires Agree(st)
    ensures Agree(BindEach(st, ids))
  {
    if ids != [] {
      BindEachAgrees(st, ids[..|ids| - 1]);
      BindAgrees(BindEach(st, ids[..|ids| - 1]), ids[|ids| - 1], None);
    }
  }

  lemma SyncAgrees(st: State, gid: int, subscription: Option<seq<SubProxy>>)
    requires WellFormed(st.db) && Agree(st)
    ensures Agree(SyncGroup(st, gid, subscription))
  {
    if gid in st.db.groups && subscription.Some? {
      UpsertAllExact(st.db, gid, subscription.value);
      var st1 := Reload(st.(db := Reconcile(st.db, gid, subscription.value)), gid);
      assert Agree(st1);
      RebindAllAgrees(st1, NullAccounts(st1.db, gid, st1.db.nextAccount));
    }
  }

  lemma UploadAgrees(st: State, slug: string, item: UploadItem, quota: Option<int>, c: nat)
    requires Agree(st)
    ensures Agree(UploadOne(st, slug, item, quota, c))
  {
    if UploadOne(st, slug, item, quota, c) != st {
      BindAgrees(Uploaded(st, slug, item, quota, c), st.db.nextAccount, item.registrationIp);
    }
  }

  lemma PatchPlatformAgrees(st: State, slug: string, gids: Option<seq<int>>, m: Option<nat>)
    requires Agree(st)
    ensures Agree(PatchPlatform(st, slug, gids, m))
  {
    if gids.Some? && LinksAccepted(st.db, slug, gids.value) {
      var st2 := PermitIfSet(Relink(st, slug, gids.value), slug, m);
      BindEachAgrees(st2, UnboundOn(st2.db, slug, st2.db.nextAccount));
    }
  }

  lemma SameFieldsAgree(st: State, st': State)
    requires Agree(st)
    requires forall a :: a in st'.accounts ==>
      (a in st.accounts && st'.accounts[a].status == st.accounts[a].status
       && st'.accounts[a].quotaUsed == st.accounts[a].quotaUsed
       && st'.accounts[a].quotaLimit == st.accounts[a].quotaLimit)
    requires forall a :: a in st'.accounts && a in st.db.accounts ==>
      (a in st'.db.accounts && st'.db.accounts[a].status == st.db.accounts[a].status
       && st'.db.accounts[a].quotaUsed == st.db.accounts[a].quotaUsed
       && st'.db.accounts[a].quotaLimit == st.db.accounts[a].quotaLimit)
    ensures Agree(st')
  {
  }

  lemma StatusAgrees(st: State, id: int, s: AccountStatus)
    requires Agree(st)
    ensures Agree(SetStatus(st, id, s))
  {
  }

  lemma ResetAgrees(st: State, now: int)
    requires Agree(st)
    ensures Agree(ResetQuotas(st, now))
  {
  }

  lemma PatchAgrees(st: State, id: int, patch: AccountPatch)
    requires Agree(st)
    ensures Agree(PatchAccount(st, id, patch))
  {
    if PatchAccepted(st.db, id, patch) && id in st.accounts {
      var st' := PatchAccount(st, id, patch);
      assert st'.accounts == st.accounts[id := PatchSlot(st.accounts[id], patch)];
      assert st'.db.accounts == st.db.accounts[id := PatchRow(st.db.accounts[id], patch)];
    }
  }

  lemma RefreshAgrees(st: State, id: int, resetAt: Option<int>)
    requires Agree(st)
    ensures Agree(RefreshBalance(st, id, resetAt))
  {
  }

  lemma DeleteAgrees(st: State, id: int)
    requires Agree(st)
    ensures Agree(DeleteAccount(st, id))
  {
  }

  lemma OtherOpsAgree(st: State, op: Op, now: int)
    requires Agree(st)
    requires op.ProxySwitch? || op.GroupDelete? || op.GroupCreate? || op.TokenCreate? || op.TokenDelete?
      || op.Cleanup? || op.SetMaxRetries?
    ensures Agree(Apply(st, op, now))
  {
    SameFieldsAgree(st, Apply(st, op, now));
  }

  /** Every operation, carried out as one step, keeps the copies agreeing. */
  lemma ApplyAgrees(st: State, op: Op, now: int)
    requires WellFormed(st.db) && Agree(st)
    ensures Agree(Apply(st, op, now))
  {
    match op
    case ChangeStatus(id, s) => StatusAgrees(st, id, s);
    case BindOne(id) => BindAgrees(st, id, None);
    case SyncOp(gid, sub) => SyncAgrees(st, gid, sub);
    case Reset => ResetAgrees(st, now);
    case Upload(slug, item, quota, c) => UploadAgrees(st, slug, item, quota, c);
    case PlatformOp(slug, gids, m) => PatchPlatformAgrees(st, slug, gids, m);
    case Refresh(id, r) => RefreshAgrees(st, id, r);
    case PatchOp(id, patch) => PatchAgrees(st, id, patch);
    case DeleteOp(id) => DeleteAgrees(st, id);
    case _ => OtherOpsAgree(st, op, now);
  }

  /** An operation, or one call's accounting, each as one step. */
  datatype Action = Administer(op: Op, now: int) | Recorded(id: int, success: bool)

  function Act(st: State, action: Action): State {
    match action
    case Administer(op, now) => Apply(st, op, now)
    case Recorded(id, success) => RecordCall(st, id, success)
  }

  function ActAll(st: State, actions: seq<Action>): State {
    if actions == [] then st else Act(ActAll(st, actions[..|actions| - 1]), actions[|actions| - 1])
  }

  lemma RecordCallKeeps(st: State, id: int, success: bool)
    requires Mirrored(st) && Agree(st)
    ensures Mirrored(RecordCall(st, id, success)) && Agree(RecordCall(st, id, success))
  {
    var mem := RecordMem(st, id, success);
    RecordMemMirrors(st, id, success);
    RecordDbMirrors(mem, id, success, ReadStatus(mem, id));
    RecordAgrees(st, id, success);
  }

  lemma RecordAgrees(st: State, id: int, success: bool)
    requires Agree(st)
    ensures Agree(RecordCall(st, id, success))
  {
    var mem := RecordMem(st, id, success);
    var st' := RecordCall(st, id, success);
    if id in st.accounts {
      assert mem.accounts == st.accounts[id := RecordSlot(st.accounts[id], success)];
      var seen := ReadStatus(mem, id);
      assert st'.db.accounts == st.db.accounts[id := RecordRow(st.db.accounts[id], success, seen)];
    } else if id in st.db.accounts {
      assert st'.db.accounts == st.db.accounts[id := RecordRow(st.db.accounts[id], success, None)];
    }
  }

  /** From start-up, through any run of whole operations and recorded calls, each loaded account
      has the same status and quota in memory and in the store, and leads to the same proxy. */
  lemma {:induction false} CopiesAgreeOnEveryRun(db: Db, decrypt: string -> Option<string>, actions: seq<Action>)
    requires WellFormed(db)
    ensures var st := ActAll(LoadAll(db, decrypt), actions);
      && Mirrored(st) && Agree(st)
      && forall a :: a in st.accounts ==> MemoryProxy(st, a) == StoreProxy(st, a)
  {
    if actions == [] {
      LoadMirrors(db, decrypt);
      LoadAgrees(db, decrypt);
    } else {
      CopiesAgreeOnEveryRun(db, decrypt, actions[..|actions| - 1]);
      var st := ActAll(LoadAll(db, decrypt), actions[..|actions| - 1]);
      match actions[|actions| - 1] {
        case Administer(op, now) => ApplyMirrors(st, op, now); ApplyAgrees(st, op, now);
        case Recorded(id, success) => RecordCallKeeps(st, id, success);
      }
    }
    var st := ActAll(LoadAll(db, decrypt), actions);
    forall a | a in st.accounts ensures MemoryProxy(st, a) == StoreProxy(st, a) { MirroredResolves(st, a); }
  }

  // ----- where they part -----

  /** The failure counters are not kept equal: from agreement, one recorded call leaves them
      agreeing exactly when the call failed. */
  lemma FailureCountersAgreeIff(st: State, id: int, success: bool)
    requires id in st.accounts && id in st.db.accounts
    requires st.accounts[id].failures == st.db.accounts[id].failures && 0 <= st.accounts[id].failures
    ensures var st' := RecordCall(st, id, success);
      st'.accounts[id].failures == st'.db.accounts[id].failures <==> !success
  {
  }

  /** A reset revives a revoked account: afterwards a loaded account is revoked exactly when it
      was revoked and not due. */
  lemma ResetRevives(st: State, now: int, a: int)
    requires a in st.accounts && a in st.db.accounts
    ensures ResetQuotas(st, now).accounts[a].status == HardRevoked
       <==> st.accounts[a].status == HardRevoked && !Due(st.db.accounts[a], now)
  {
  }
}
