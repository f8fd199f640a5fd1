/** The periodic reset and the administrator's state-changing handlers, as functions on the
    pools' state and as the methods that carry them out. */
module Admin {
  import opened Wrappers
  import opened Text
  import opened Database
  import opened PoolState
  import opened Binding
  import opened Sync

  /** Clock readings are nanoseconds. */
  const SECOND: int := 1_000_000_000
  const RESET_PERIOD: int := 30 * 86400 * SECOND

  // ----- quota reset -----

  predicate Due(row: AccountRow, now: int) {
    row.resetAt.None? || row.resetAt.value <= now
  }

  function ResetRow(row: AccountRow, now: int): AccountRow {
    row.(quotaUsed := 0, status := Healthy, resetAt := Some(now + RESET_PERIOD), failures := 0)
  }

  function ResetSlot(slot: AccountSlot, now: int): AccountSlot {
    slot.(quotaUsed := 0, status := Healthy, resetAt := Some(now + RESET_PERIOD), failures := 0)
  }

  /** Every due account starts afresh as healthy, whatever its status was. */
  function ResetQuotas(st: State, now: int): State {
    st.(db := st.db.(accounts := map a | a in st.db.accounts ::
          if Due(st.db.accounts[a], now) then ResetRow(st.db.accounts[a], now) else st.db.accounts[a]),
        accounts := map a | a in st.accounts ::
          if a in st.db.accounts && Due(st.db.accounts[a], now) then ResetSlot(st.accounts[a], now) else st.accounts[a])
  }

  /** The pass over the ids below `hi`. */
  ghost function ResetBelow(st: State, now: int, hi: int): State {
    st.(db := st.db.(accounts := map a | a in st.db.accounts ::
          if a < hi && Due(st.db.accounts[a], now) then ResetRow(st.db.accounts[a], now) else st.db.accounts[a]),
        accounts := map a | a in st.accounts ::
          if a < hi && a in st.db.accounts && Due(st.db.accounts[a], now) then ResetSlot(st.accounts[a], now)
          else st.accounts[a])
  }

  lemma ResetBelowNext(st: State, now: int, id: int)
    ensures var s, s' := ResetBelow(st, now, id), ResetBelow(st, now, id + 1);
      s' == if id in st.db.accounts && Due(st.db.accounts[id], now) then
              s.(db := WithAccount(s.db, id, ResetRow(st.db.accounts[id], now)),
                 accounts := if id in st.accounts then s.accounts[id := ResetSlot(st.accounts[id], now)]
                             else s.accounts)
            else s
  {
    var s, s' := ResetBelow(st, now, id), ResetBelow(st, now, id + 1);
    if id in st.db.accounts && Due(st.db.accounts[id], now) {
      assert s'.db.accounts == s.db.accounts[id := ResetRow(st.db.accounts[id], now)];
      if id in st.accounts {
        assert s'.accounts == s.accounts[id := ResetSlot(st.accounts[id], now)];
      } else {
        assert s'.accounts == s.accounts;
      }
    } else {
      assert s'.db.accounts == s.db.accounts;
      assert s'.accounts == s.accounts;
    }
  }

  lemma ResetBelowEnds(st: State, now: int)
    requires WellFormed(st.db)
    ensures ResetBelow(st, now, 1) == st
    ensures ResetBelow(st, now, st.db.nextAccount) == ResetQuotas(st, now)
  {
    var s := ResetBelow(st, now, 1);
    assert s.db.accounts == st.db.accounts;
    assert s.accounts == st.accounts;
    var e, r := ResetBelow(st, now, st.db.nextAccount), ResetQuotas(st, now);
    assert e.db.accounts == r.db.accounts;
    assert e.accounts == r.accounts;
  }

  method ResetDue(pools: Pools, now: int)
    requires WellFormed(pools.db)
    modifies pools`db, pools`accounts
    ensures pools.View() == ResetQuotas(old(pools.View()), now)
  {
    var rows := pools.db.accounts;
    ghost var st := pools.View();
    ResetBelowEnds(st, now);
    for id := 1 to pools.db.nextAccount
      invariant pools.View() == ResetBelow(st, now, id)
    {
      ResetBelowNext(st, now, id);
      if id in rows && Due(rows[id], now) {
        pools.db := WithAccount(pools.db, id, ResetRow(pools.db.accounts[id], now));
        if id in pools.accounts {
          pools.accounts := pools.accounts[id := ResetSlot(pools.accounts[id], now)];
        }
      }
    }
  }

  /** `reset_at=COALESCE(reset_at,?)`, in the store only. */
  function RefreshBalance(st: State, id: int, resetAt: Option<int>): State {
    if id in st.db.accounts && st.db.accounts[id].resetAt.None? then
      st.(db := WithAccount(st.db, id, st.db.accounts[id].(resetAt := resetAt)))
    else st
  }

  // ----- accounts -----

  datatype UploadItem = UploadItem(apiKey: string, encrypted: string, registrationIp: Option<string>)

  function NewRow(slug: string, item: UploadItem, quota: Option<int>): AccountRow {
    AccountRow(slug, item.encrypted, item.registrationIp, None, Pending, quota, 0, None, 0)
  }

  /** The row, its permits and its slot, not yet bound. */
  function Uploaded(st: State, slug: string, item: UploadItem, quota: Option<int>, concurrency: nat): State {
    var id := st.db.nextAccount;
    var row := NewRow(slug, item, quota);
    st.(db := st.db.(accounts := st.db.accounts[id := row], nextAccount := id + 1),
        acctPermits := st.acctPermits[id := if concurrency < 1 then 1 else concurrency],
        accounts := st.accounts[id := Slot(row, item.apiKey)])
  }

  function UploadOne(st: State, slug: string, item: UploadItem, quota: Option<int>, concurrency: nat): State {
    if Trim(item.apiKey) == "" || slug !in st.db.platforms then st
    else BindAccount(Uploaded(st, slug, item, quota, concurrency), st.db.nextAccount, item.registrationIp)
  }

  function UploadAll(st: State, slug: string, items: seq<UploadItem>, quota: Option<int>, concurrency: nat): State {
    if items == [] then st
    else UploadOne(UploadAll(st, slug, items[..|items| - 1], quota, concurrency),
                   slug, items[|items| - 1], quota, concurrency)
  }

  /** Row, permits and slot of a new account. */
  method InsertAccount(pools: Pools, slug: string, item: UploadItem, quota: Option<int>, concurrency: nat)
      returns (id: int)
    modifies pools`db, pools`accounts, pools`acctPermits
    ensures id == old(pools.db.nextAccount)
    ensures pools.View() == Uploaded(old(pools.View()), slug, item, quota, concurrency)
  {
    id := pools.db.nextAccount;
    var row := NewRow(slug, item, quota);
    pools.db := pools.db.(accounts := pools.db.accounts[id := row], nextAccount := id + 1);
    pools.acctPermits := pools.acctPermits[id := if concurrency < 1 then 1 else concurrency];
    pools.accounts := pools.accounts[id := Slot(row, item.apiKey)];
  }

  method UploadItemRow(pools: Pools, slug: string, item: UploadItem, quota: Option<int>, concurrency: nat)
    requires slug in pools.db.platforms
    modifies pools`db, pools`accounts, pools`acctPermits
    ensures pools.View() == UploadOne(old(pools.View()), slug, item, quota, concurrency)
  {
    if Trim(item.apiKey) == "" { return; }
    var id := InsertAccount(pools, slug, item, quota, concurrency);
    Bind(pools, id, item.registrationIp);
  }

  lemma UploadKeepsPlatforms(st: State, slug: string, item: UploadItem, quota: Option<int>, concurrency: nat)
    ensures UploadOne(st, slug, item, quota, concurrency).db.platforms == st.db.platforms
  {
    assert Uploaded(st, slug, item, quota, concurrency).db.platforms == st.db.platforms;
  }

  /** The request's default limit wins over the platform's. */
  method UploadAccounts(pools: Pools, slug: string, items: seq<UploadItem>, defaultLimit: Option<int>, concurrency: nat)
      returns (found: bool)
    modifies pools`db, pools`accounts, pools`acctPermits
    ensures found <==> old(slug in pools.db.platforms)
    ensures pools.View() == if found
      then UploadAll(old(pools.View()), slug, items,
                     if defaultLimit.Some? then defaultLimit else old(pools.db).platforms[slug], concurrency)
      else old(pools.View())
  {
    if slug !in pools.db.platforms { return false; }
    var quota := if defaultLimit.Some? then defaultLimit else pools.db.platforms[slug];
    for i := 0 to |items|
      invariant pools.View() == UploadAll(old(pools.View()), slug, items[..i], quota, concurrency)
      invariant slug in pools.db.platforms
    {
      assert items[..i + 1][..i] == items[..i];
      UploadKeepsPlatforms(pools.View(), slug, items[i], quota, concurrency);
      UploadItemRow(pools, slug, items[i], quota, concurrency);
    }
    assert items[..|items|] == items;
    return true;
  }

  /** A field that is absent or null is None, and leaves the column and the slot as they are. */
  datatype AccountPatch = AccountPatch(quotaLimit: Option<int>, boundProxy: Option<int>, registrationIp: Option<string>)

  function Coalesce<T>(a: Option<T>, b: Option<T>): Option<T> {
    if a.Some? then a else b
  }

  /** The store refuses a binding to a proxy that does not exist. */
  predicate PatchAccepted(db: Db, id: int, patch: AccountPatch) {
    id in db.accounts && patch.boundProxy.Some? ==> patch.boundProxy.value in db.proxies
  }

  function PatchRow(row: AccountRow, patch: AccountPatch): AccountRow {
    row.(quotaLimit := Coalesce(patch.quotaLimit, row.quotaLimit),
         boundProxy := Coalesce(patch.boundProxy, row.boundProxy),
         registrationIp := Coalesce(patch.registrationIp, row.registrationIp))
  }

  function PatchSlot(slot: AccountSlot, patch: AccountPatch): AccountSlot {
    slot.(boundProxy := Coalesce(patch.boundProxy, slot.boundProxy),
          quotaLimit := Coalesce(patch.quotaLimit, slot.quotaLimit))
  }

  function PatchAccount(st: State, id: int, patch: AccountPatch): State {
    if !PatchAccepted(st.db, id, patch) then st
    else
      st.(db := if id in st.db.accounts then WithAccount(st.db, id, PatchRow(st.db.accounts[id], patch)) else st.db,
          accounts := if id in st.accounts then st.accounts[id := PatchSlot(st.accounts[id], patch)] else st.accounts)
  }

  method Patch(pools: Pools, id: int, patch: AccountPatch) returns (ok: bool)
    modifies pools`db, pools`accounts
    ensures pools.View() == PatchAccount(old(pools.View()), id, patch)
    ensures ok <==> PatchAccepted(old(pools.db), id, patch)
  {
    if !PatchAccepted(pools.db, id, patch) { return false; }
    if id in pools.db.accounts {
      pools.db := WithAccount(pools.db, id, PatchRow(pools.db.accounts[id], patch));
    }
    if patch.boundProxy.Some? {
      if id in pools.accounts {
        pools.accounts := pools.accounts[id := pools.accounts[id].(boundProxy := patch.boundProxy)];
      }
    }
    if patch.quotaLimit.Some? {
      if id in pools.accounts {
        pools.accounts := pools.accounts[id := pools.accounts[id].(quotaLimit := patch.quotaLimit)];
      }
    }
    return true;
  }

  function ForgetAccount(row: LogRow, id: int): LogRow {
    if row.account == Some(id) then row.(account := None) else row
  }

  function WithoutAccount(logs: map<int, LogRow>, id: int): map<int, LogRow> {
    map l | l in logs :: ForgetAccount(logs[l], id)
  }

  function DeleteAccount(st: State, id: int): State {
    st.(db := st.db.(accounts := st.db.accounts - {id}, logs := WithoutAccount(st.db.logs, id)),
        accounts := st.accounts - {id},
        acctPermits := st.acctPermits - {id})
  }

  method RemoveAccount(pools: Pools, id: int)
    modifies pools`db, pools`accounts, pools`acctPermits
    ensures pools.View() == DeleteAccount(old(pools.View()), id)
  {
    pools.db := pools.db.(accounts := pools.db.accounts - {id}, logs := WithoutAccount(pools.db.logs, id));
    pools.accounts := pools.accounts - {id};
    pools.acctPermits := pools.acctPermits - {id};
  }

  // ----- proxies and groups -----

  function SetProxyStatus(st: State, id: int, s: ProxyStatus): State {
    st.(db := if id in st.db.proxies
              then st.db.(proxies := st.db.proxies[id := st.db.proxies[id].(status := s)]) else st.db,
        proxies := if id in st.proxies
                   then st.proxies[id := st.proxies[id].(status := s)] else st.proxies)
  }

  method ChangeProxyStatus(pools: Pools, id: int, s: ProxyStatus)
    modifies pools`db, pools`proxies
    ensures pools.View() == SetProxyStatus(old(pools.View()), id, s)
  {
    if id in pools.db.proxies {
      pools.db := pools.db.(proxies := pools.db.proxies[id := pools.db.proxies[id].(status := s)]);
    }
    if id in pools.proxies {
      pools.proxies := pools.proxies[id := pools.proxies[id].(status := s)];
    }
  }

  function LinksWithout(links: seq<(string, int)>, gid: int): seq<(string, int)> {
    if links == [] then []
    else (if links[0].1 == gid then [] else [links[0]]) + LinksWithout(links[1..], gid)
  }

  function InGroup(db: Db, gid: int): set<int> {
    set p | p in db.proxies && db.proxies[p].group == gid
  }

  /** ON DELETE CASCADE for proxies and links, SET NULL for what referred to the proxies. */
  function DeleteGroup(st: State, gid: int): State {
    var db := DeleteProxies(st.db, InGroup(st.db, gid));
    st.(db := db.(groups := db.groups - {gid}, links := LinksWithout(db.links, gid)),
        proxies := map p | p in st.proxies && st.proxies[p].group != gid :: st.proxies[p])
  }

  method RemoveGroup(pools: Pools, gid: int)
    modifies pools`db, pools`proxies
    ensures pools.View() == DeleteGroup(old(pools.View()), gid)
  {
    var db := DeleteProxies(pools.db, InGroup(pools.db, gid));
    pools.db := db.(groups := db.groups - {gid}, links := LinksWithout(db.links, gid));
    pools.proxies := map p | p in pools.proxies && pools.proxies[p].group != gid :: pools.proxies[p];
  }

  function CreateGroup(st: State): State {
    st.(db := st.db.(groups := st.db.groups + {st.db.nextGroup}, nextGroup := st.db.nextGroup + 1))
  }

  // ----- platforms -----

  function LinksOfOthers(links: seq<(string, int)>, slug: string): seq<(string, int)> {
    if links == [] then []
    else (if links[0].0 == slug then [] else [links[0]]) + LinksOfOthers(links[1..], slug)
  }

  /** `INSERT OR IGNORE` under a primary key that keeps the groups of a platform in ascending order. */
  function InsertLink(links: seq<(string, int)>, slug: string, gid: int): seq<(string, int)> {
    if links == [] then [(slug, gid)]
    else if links[0] == (slug, gid) then links
    else if links[0].0 == slug && gid < links[0].1 then [(slug, gid)] + links
    else [links[0]] + InsertLink(links[1..], slug, gid)
  }

  function AddLinks(links: seq<(string, int)>, slug: string, gids: seq<int>): seq<(string, int)> {
    if gids == [] then links
    else InsertLink(AddLinks(links, slug, gids[..|gids| - 1]), slug, gids[|gids| - 1])
  }

  function UnboundOn(db: Db, slug: string, hi: int): (r: seq<int>)
    ensures forall a :: a in r <==>
      1 <= a < hi && a in db.accounts && db.accounts[a].platform == slug && db.accounts[a].boundProxy.None?
    decreases hi
  {
    if hi <= 1 then []
    else
      UnboundOn(db, slug, hi - 1)
      + (if hi - 1 in db.accounts && db.accounts[hi - 1].platform == slug && db.accounts[hi - 1].boundProxy.None?
         then [hi - 1] else [])
  }

  function BindEach(st: State, ids: seq<int>): State {
    if ids == [] then st else BindAccount(BindEach(st, ids[..|ids| - 1]), ids[|ids| - 1], None)
  }

  /** The transaction fails, and nothing changes, when a link would refer to a missing row. */
  predicate LinksAccepted(db: Db, slug: string, gids: seq<int>) {
    gids == [] || (slug in db.platforms && forall g :: g in gids ==> g in db.groups)
  }

  function Relink(st: State, slug: string, gids: seq<int>): State {
    st.(db := st.db.(links := AddLinks(LinksOfOthers(st.db.links, slug), slug, gids)))
  }

  function PermitIfSet(st: State, slug: string, maxConcurrency: Option<nat>): State {
    if maxConcurrency.Some? then EnsurePlatformPermit(st, slug, maxConcurrency.value) else st
  }

  function BindUnbound(st: State, slug: string): State {
    BindEach(st, UnboundOn(st.db, slug, st.db.nextAccount))
  }

  function PatchPlatform(st: State, slug: string, gids: Option<seq<int>>, maxConcurrency: Option<nat>): State {
    if gids.None? then PermitIfSet(st, slug, maxConcurrency)
    else if !LinksAccepted(st.db, slug, gids.value) then st
    else BindUnbound(PermitIfSet(Relink(st, slug, gids.value), slug, maxConcurrency), slug)
  }

  method ReconfigurePlatform(pools: Pools, slug: string, gids: Option<seq<int>>, maxConcurrency: Option<nat>)
      returns (ok: bool)
    modifies pools`db, pools`accounts, pools`platPermits
    ensures pools.View() == PatchPlatform(old(pools.View()), slug, gids, maxConcurrency)
    ensures ok <==> gids.None? || LinksAccepted(old(pools.db), slug, gids.value)
  {
    if gids.Some? {
      if !LinksAccepted(pools.db, slug, gids.value) { return false; }
      pools.db := pools.db.(links := AddLinks(LinksOfOthers(pools.db.links, slug), slug, gids.value));
    }
    if maxConcurrency.Some? { pools.AddPlatformPermit(slug, maxConcurrency.value); }
    if gids.Some? {
      var ids := UnboundOn(pools.db, slug, pools.db.nextAccount);
      ghost var st := pools.View();
      for i := 0 to |ids|
        invariant pools.View() == BindEach(st, ids[..i])
      {
        assert ids[..i + 1][..i] == ids[..i];
        Bind(pools, ids[i], None);
      }
      assert ids[..|ids|] == ids;
    }
    return true;
  }

  // ----- tokens, logs, settings -----

  function CreateToken(st: State): State {
    st.(db := st.db.(tokens := st.db.tokens[st.db.nextToken := 0], nextToken := st.db.nextToken + 1))
  }

  function ForgetToken(row: LogRow, id: int): LogRow {
    if row.token == Some(id) then row.(token := None) else row
  }

  function WithoutToken(logs: map<int, LogRow>, id: int): map<int, LogRow> {
    map l | l in logs :: ForgetToken(logs[l], id)
  }

  function DeleteToken(st: State, id: int): State {
    st.(db := st.db.(tokens := st.db.tokens - {id}, logs := WithoutToken(st.db.logs, id)))
  }

  function KeptFrom(logs: map<int, LogRow>, oldestKept: int): map<int, LogRow> {
    map l | l in logs && l >= oldestKept :: logs[l]
  }

  /** The oldest log rows go. */
  function CleanupLogs(st: State, oldestKept: int): State {
    st.(db := st.db.(logs := KeptFrom(st.db.logs, oldestKept)))
  }

  // ----- all of them -----

  datatype Op =
    | ChangeStatus(id: int, status: AccountStatus)          // enable, disable, a conclusive probe
    | BindOne(id: int)                                      // a probe of an unbound account
    | SyncOp(gid: int, subscription: Option<seq<SubProxy>>)
    | Reset
    | Refresh(id: int, resetAt: Option<int>)
    | Upload(slug: string, item: UploadItem, quota: Option<int>, concurrency: nat)
    | PatchOp(id: int, patch: AccountPatch)
    | DeleteOp(id: int)
    | ProxySwitch(id: int, proxyStatus: ProxyStatus)
    | GroupDelete(gid: int)
    | GroupCreate
    | PlatformOp(slug: string, gids: Option<seq<int>>, maxConcurrency: Option<nat>)
    | TokenCreate
    | TokenDelete(id: int)
    | Cleanup(oldestKept: int)
    | SetMaxRetries(v: int)

  function Apply(st: State, op: Op, now: int): State {
    match op
    case ChangeStatus(id, s) => SetStatus(st, id, s)
    case BindOne(id) => BindAccount(st, id, None)
    case SyncOp(gid, sub) => SyncGroup(st, gid, sub)
    case Reset => ResetQuotas(st, now)
    case Refresh(id, r) => RefreshBalance(st, id, r)
    case Upload(slug, item, quota, c) => UploadOne(st, slug, item, quota, c)
    case PatchOp(id, patch) => PatchAccount(st, id, patch)
    case DeleteOp(id) => DeleteAccount(st, id)
    case ProxySwitch(id, s) => SetProxyStatus(st, id, s)
    case GroupDelete(gid) => DeleteGroup(st, gid)
    case GroupCreate => CreateGroup(st)
    case PlatformOp(slug, gids, m) => PatchPlatform(st, slug, gids, m)
    case TokenCreate => CreateToken(st)
    case TokenDelete(id) => DeleteToken(st, id)
    case Cleanup(k) => CleanupLogs(st, k)
    case SetMaxRetries(v) => st.(db := st.db.(maxRetries := v))
  }
}
