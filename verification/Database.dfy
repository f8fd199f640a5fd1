/** The relational store (src/db.rs) as maps, with the constraints of its schema:
    AUTOINCREMENT ids never reused, foreign keys, and one proxy per (group, host, port). */
module Database {
  import opened Wrappers
  import opened Counting

  datatype AccountStatus = Pending | Healthy | ManualDisabled | HardRevoked
  datatype ProxyStatus = Available | ProxyDisabled

  function StatusText(s: AccountStatus): string {
    match s
    case Pending => "pending"
    case Healthy => "healthy"
    case ManualDisabled => "manual_disabled"
    case HardRevoked => "hard_revoked"
  }

  function ProxyStatusText(s: ProxyStatus): string {
    match s
    case Available => "available"
    case ProxyDisabled => "manual_disabled"
  }

  datatype AccountRow = AccountRow(
    platform: string, encryptedKey: string, registrationIp: Option<string>, boundProxy: Option<int>,
    status: AccountStatus, quotaLimit: Option<int>, quotaUsed: int, resetAt: Option<int>, failures: int)

  datatype ProxyRow = ProxyRow(
    group: int, host: string, port: int, username: Option<string>, password: Option<string>,
    country: Option<string>, exitIp: Option<string>, status: ProxyStatus)

  datatype LogRow = LogRow(
    token: Option<int>, platform: string, account: Option<int>, proxy: Option<int>,
    statusCode: Option<int>, retryCount: int, success: bool)

  /** `platforms` maps a slug to its default quota limit, `tokens` an id to its call count. */
  datatype Db = Db(
    platforms: map<string, Option<int>>,
    groups: set<int>, nextGroup: int,
    links: seq<(string, int)>,
    proxies: map<int, ProxyRow>, nextProxy: int,
    accounts: map<int, AccountRow>, nextAccount: int,
    tokens: map<int, int>, nextToken: int,
    logs: map<int, LogRow>, nextLog: int,
    maxRetries: int)

  ghost predicate IdsBelow<R>(m: map<int, R>, next: int) {
    forall id :: id in m ==> 1 <= id < next
  }

  /** The columns of UNIQUE(group_id, host, port). */
  function Key(row: ProxyRow): (int, string, int) { (row.group, row.host, row.port) }

  ghost predicate UniqueKeys(proxies: map<int, ProxyRow>) {
    forall p, q :: p in proxies && q in proxies && Key(proxies[p]) == Key(proxies[q]) ==> p == q
  }

  ghost predicate ProxySide(platforms: map<string, Option<int>>, groups: set<int>, nextGroup: int,
                            links: seq<(string, int)>, proxies: map<int, ProxyRow>, nextProxy: int) {
    && 1 <= nextGroup && 1 <= nextProxy
    && IdsBelow(proxies, nextProxy)
    && UniqueKeys(proxies)
    && (forall g :: g in groups ==> 1 <= g < nextGroup)
    && (forall p :: p in proxies ==> proxies[p].group in groups)
    && (forall l :: l in links ==> l.0 in platforms && l.1 in groups)
  }

  ghost predicate AccountSide(platforms: map<string, Option<int>>, proxies: map<int, ProxyRow>,
                              accounts: map<int, AccountRow>, nextAccount: int) {
    && 1 <= nextAccount
    && IdsBelow(accounts, nextAccount)
    && (forall a :: a in accounts ==> accounts[a].platform in platforms)
    && (forall a :: a in accounts && accounts[a].boundProxy.Some? ==> accounts[a].boundProxy.value in proxies)
  }

  ghost predicate WellFormed(db: Db) {
    && ProxySide(db.platforms, db.groups, db.nextGroup, db.links, db.proxies, db.nextProxy)
    && AccountSide(db.platforms, db.proxies, db.accounts, db.nextAccount)
    && 1 <= db.nextToken && IdsBelow(db.tokens, db.nextToken)
    && 1 <= db.nextLog && IdsBelow(db.logs, db.nextLog)
  }

  function WithAccount(db: Db, id: int, row: AccountRow): Db {
    db.(accounts := db.accounts[id := row])
  }

  /** `UPDATE accounts SET bound_proxy_id=? WHERE id=?` */
  function SetBinding(db: Db, id: int, pid: int): Db {
    if id in db.accounts then WithAccount(db, id, db.accounts[id].(boundProxy := Some(pid))) else db
  }

  /** DELETE of proxy rows: accounts and logs that refer to one get NULL. */
  function DeleteProxies(db: Db, gone: set<int>): Db {
    db.(proxies := db.proxies - gone,
        accounts := map a | a in db.accounts :: Unbind(db.accounts[a], gone),
        logs := map l | l in db.logs :: ForgetProxy(db.logs[l], gone))
  }

  function Unbind(row: AccountRow, gone: set<int>): AccountRow {
    if row.boundProxy.Some? && row.boundProxy.value in gone then row.(boundProxy := None) else row
  }

  function ForgetProxy(row: LogRow, gone: set<int>): LogRow {
    if row.proxy.Some? && row.proxy.value in gone then row.(proxy := None) else row
  }

  lemma DeleteProxiesKeepsWellFormed(db: Db, gone: set<int>)
    requires WellFormed(db)
    ensures WellFormed(DeleteProxies(db, gone))
  {
  }

  lemma DeleteProxiesCompose(db: Db, a: set<int>, b: set<int>)
    ensures DeleteProxies(DeleteProxies(db, a), b) == DeleteProxies(db, a + b)
  {
    var step, once := DeleteProxies(DeleteProxies(db, a), b), DeleteProxies(db, a + b);
    assert step.proxies == once.proxies;
    assert forall i :: i in db.accounts ==> step.accounts[i] == once.accounts[i];
    assert step.accounts == once.accounts;
    assert forall i :: i in db.logs ==> step.logs[i] == once.logs[i];
    assert step.logs == once.logs;
  }

  // ----- how many accounts a proxy carries -----

  function BoundTo(pid: int): AccountRow -> bool {
    (a: AccountRow) => a.boundProxy == Some(pid)
  }

  /** `COUNT(a.id)` of the least-bound query. */
  function Load(db: Db, pid: int): nat {
    Count(db.accounts, BoundTo(pid))
  }
}
