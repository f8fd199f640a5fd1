/** The shared pools: memory maps mirrored into the store, semaphores, exit-IP counters.
    `State` is their value at one moment; class `Pools` changes it in place. */
module PoolState {
  import opened Wrappers
  import opened Database
  import opened Counting

  const PER_ACCOUNT_CONCURRENCY: nat := 3

  datatype AccountSlot = AccountSlot(
    platform: string, key: string, boundProxy: Option<int>, status: AccountStatus,
    quotaLimit: Option<int>, quotaUsed: int, resetAt: Option<int>, failures: int)

  datatype ProxyEntry = ProxyEntry(
    group: int, host: string, port: int, username: Option<string>, password: Option<string>,
    exitIp: Option<string>, status: ProxyStatus)

  datatype State = State(
    accounts: map<int, AccountSlot>,
    proxies: map<int, ProxyEntry>,
    acctPermits: map<int, nat>,
    platPermits: map<string, nat>,
    busy: map<string, nat>,
    limitedUntil: map<int, int>,
    db: Db)

  // ----- exit-IP counters, permits, back-off -----

  function BusyCount(st: State, ip: string): nat {
    if ip in st.busy then st.busy[ip] else 0
  }

  function IncExitIp(st: State, ip: string): State {
    st.(busy := st.busy[ip := BusyCount(st, ip) + 1])
  }

  /** The guard of the source: a counter at 0 stays there. */
  function DecExitIp(st: State, ip: string): State {
    if ip in st.busy && st.busy[ip] > 0 then st.(busy := st.busy[ip := st.busy[ip] - 1]) else st
  }

  /** The first configured maximum stays. */
  function EnsurePlatformPermit(st: State, slug: string, most: nat): State {
    if slug in st.platPermits then st
    else st.(platPermits := st.platPermits[slug := if most < 1 then 1 else most])
  }

  function MarkRateLimited(st: State, id: int, until: int): State {
    st.(limitedUntil := st.limitedUntil[id := until])
  }

  // ----- status and call accounting, memory half and store half -----

  function SetStatusMem(st: State, id: int, s: AccountStatus): State {
    if id in st.accounts then
      st.(accounts := st.accounts[id := st.accounts[id].(status := s, failures := 0)])
    else st
  }

  function SetStatusDb(st: State, id: int, s: AccountStatus): State {
    if id in st.db.accounts then
      st.(db := WithAccount(st.db, id, st.db.accounts[id].(status := s, failures := 0)))
    else st
  }

  function SetStatus(st: State, id: int, s: AccountStatus): State {
    SetStatusDb(SetStatusMem(st, id, s), id, s)
  }

  function RecordSlot(slot: AccountSlot, success: bool): AccountSlot {
    if success then
      slot.(quotaUsed := slot.quotaUsed + 1, failures := 0,
            status := if slot.status == Pending then Healthy else slot.status)
    else slot.(failures := slot.failures + 1)
  }

  function RecordMem(st: State, id: int, success: bool): State {
    if id in st.accounts then
      st.(accounts := st.accounts[id := RecordSlot(st.accounts[id], success)])
    else st
  }

  function ReadStatus(st: State, id: int): Option<AccountStatus> {
    if id in st.accounts then Some(st.accounts[id].status) else None
  }

  /** The store adds 1 to the failure counter whatever the outcome. */
  function RecordRow(row: AccountRow, success: bool, s: Option<AccountStatus>): AccountRow {
    row.(quotaUsed := row.quotaUsed + Bit(success), failures := row.failures + 1,
         status := s.GetOr(row.status))
  }

  function RecordDb(st: State, id: int, success: bool, s: Option<AccountStatus>): State {
    if id in st.db.accounts then
      st.(db := WithAccount(st.db, id, RecordRow(st.db.accounts[id], success, s)))
    else st
  }

  function RecordCall(st: State, id: int, success: bool): State {
    var mem := RecordMem(st, id, success);
    RecordDb(mem, id, success, ReadStatus(mem, id))
  }

  function IncTokenCount(st: State, token: int): State {
    if token in st.db.tokens then
      st.(db := st.db.(tokens := st.db.tokens[token := st.db.tokens[token] + 1]))
    else st
  }

  /** The foreign keys of a log row: the insert fails when a referenced row is gone,
      and the caller ignores the failure. */
  predicate LogAccepted(db: Db, row: LogRow) {
    && (row.token.Some? ==> row.token.value in db.tokens)
    && (row.account.Some? ==> row.account.value in db.accounts)
    && (row.proxy.Some? ==> row.proxy.value in db.proxies)
  }

  function WriteCallLog(st: State, row: LogRow): State {
    if LogAccepted(st.db, row) then
      st.(db := st.db.(logs := st.db.logs[st.db.nextLog := row], nextLog := st.db.nextLog + 1))
    else st
  }

  // ----- loading -----

  function Entry(row: ProxyRow): ProxyEntry {
    ProxyEntry(row.group, row.host, row.port, row.username, row.password, row.exitIp, row.status)
  }

  function Slot(row: AccountRow, key: string): AccountSlot {
    AccountSlot(row.platform, key, row.boundProxy, row.status, row.quotaLimit, row.quotaUsed,
                row.resetAt, row.failures)
  }

  /** An account whose key does not decrypt is skipped at start-up. */
  predicate Loads(db: Db, decrypt: string -> Option<string>, a: int) {
    a in db.accounts && decrypt(db.accounts[a].encryptedKey).Some?
  }

  function LoadAccounts(db: Db, decrypt: string -> Option<string>): map<int, AccountSlot> {
    map a | a in db.accounts && Loads(db, decrypt, a) ::
      Slot(db.accounts[a], decrypt(db.accounts[a].encryptedKey).value)
  }

  function LoadPermits(db: Db, decrypt: string -> Option<string>): map<int, nat> {
    map a | a in db.accounts && Loads(db, decrypt, a) :: PER_ACCOUNT_CONCURRENCY
  }

  function LoadProxies(db: Db): map<int, ProxyEntry> {
    map p | p in db.proxies :: Entry(db.proxies[p])
  }

  function LoadAll(db: Db, decrypt: string -> Option<string>): State {
    State(LoadAccounts(db, decrypt), LoadProxies(db), LoadPermits(db, decrypt), map[], map[], map[], db)
  }

  ghost function Upto<V>(m: map<int, V>, hi: int): map<int, V> {
    map k | k in m && k < hi :: m[k]
  }

  lemma UptoNext<V>(m: map<int, V>, k: int)
    ensures Upto(m, k + 1) == if k in m then Upto(m, k)[k := m[k]] else Upto(m, k)
  {
  }

  lemma UptoAll<V>(m: map<int, V>, hi: int)
    requires forall k :: k in m ==> k < hi
    ensures Upto(m, hi) == m
  {
  }

  // ----- candidates -----

  predicate Schedulable(st: State, platform: string, now: int, id: int) {
    && id in st.accounts
    && var s := st.accounts[id];
    && s.platform == platform
    && (s.status == Healthy || s.status == Pending)
    && !(id in st.limitedUntil && st.limitedUntil[id] > now)
    && !(s.quotaLimit.Some? && s.quotaUsed >= s.quotaLimit.value)
  }

  /** The schedulable accounts, in the iteration order of the memory map. */
  function CandidatesIn(st: State, platform: string, now: int, order: seq<int>): seq<int> {
    if order == [] then []
    else
      var n := |order| - 1;
      CandidatesIn(st, platform, now, order[..n])
      + (if Schedulable(st, platform, now, order[n]) then [order[n]] else [])
  }

  /** An iteration order of a map: each key once. */
  ghost predicate Enumerates<R>(order: seq<int>, m: map<int, R>) {
    Lists(order, m.Keys)
  }

  ghost predicate Lists(order: seq<int>, keys: set<int>) {
    && (forall id :: id in order <==> id in keys)
    && (forall i, j :: 0 <= i < j < |order| ==> order[i] != order[j])
  }

  lemma {:induction false} CandidatesExact(st: State, platform: string, now: int, order: seq<int>)
    requires forall i, j :: 0 <= i < j < |order| ==> order[i] != order[j]
    ensures var c := CandidatesIn(st, platform, now, order);
            && (forall id :: id in c <==> id in order && Schedulable(st, platform, now, id))
            && (forall i, j :: 0 <= i < j < |c| ==> c[i] != c[j])
  {
    if order != [] {
      var n := |order| - 1;
      CandidatesExact(st, platform, now, order[..n]);
      var c := CandidatesIn(st, platform, now, order[..n]);
      assert order == order[..n] + [order[n]];
      assert forall i :: 0 <= i < |c| ==> c[i] in c;
      assert forall i :: 0 <= i < n ==> order[..n][i] == order[i];
    }
  }

  class Pools {
    var accounts: map<int, AccountSlot>
    var proxies: map<int, ProxyEntry>
    var acctPermits: map<int, nat>
    var platPermits: map<string, nat>
    var busyExitIps: map<string, nat>
    var rateLimitedUntil: map<int, int>
    var db: Db

    function View(): State
      reads this
    {
      State(accounts, proxies, acctPermits, platPermits, busyExitIps, rateLimitedUntil, db)
    }

    constructor (db: Db)
      ensures View() == State(map[], map[], map[], map[], map[], map[], db)
    {
      accounts, proxies, acctPermits, platPermits := map[], map[], map[], map[];
      busyExitIps, rateLimitedUntil, this.db := map[], map[], db;
    }

    /** Reads every account and proxy row into memory. */
    method LoadRows(decrypt: string -> Option<string>)
      requires WellFormed(db)
      requires View() == State(map[], map[], map[], map[], map[], map[], db)
      modifies this
      ensures View() == LoadAll(old(db), decrypt)
    {
      LoadAccountRows(decrypt);
      LoadProxyRows();
    }

    method LoadAccountRows(decrypt: string -> Option<string>)
      requires WellFormed(db) && accounts == map[] && acctPermits == map[]
      modifies this`accounts, this`acctPermits
      ensures accounts == LoadAccounts(db, decrypt)
      ensures acctPermits == LoadPermits(db, decrypt)
    {
      ghost var slots, permits := LoadAccounts(db, decrypt), LoadPermits(db, decrypt);
      for id := 1 to db.nextAccount
        invariant accounts == Upto(slots, id) && acctPermits == Upto(permits, id)
      {
        UptoNext(slots, id);
        UptoNext(permits, id);
        if id in db.accounts {
          var key := decrypt(db.accounts[id].encryptedKey);
          if key.Some? {
            acctPermits := acctPermits[id := PER_ACCOUNT_CONCURRENCY];
            accounts := accounts[id := Slot(db.accounts[id], key.value)];
          }
        }
      }
    }

    method LoadProxyRows()
      requires WellFormed(db) && proxies == map[]
      modifies this`proxies
      ensures proxies == LoadProxies(db)
    {
      ghost var entries := LoadProxies(db);
      for id := 1 to db.nextProxy
        invariant proxies == Upto(entries, id)
      {
        UptoNext(entries, id);
        if id in db.proxies {
          proxies := proxies[id := Entry(db.proxies[id])];
        }
      }
    }

    method AddPlatformPermit(slug: string, most: nat)
      modifies this`platPermits
      ensures View() == EnsurePlatformPermit(old(View()), slug, most)
    {
      if slug !in platPermits {
        platPermits := platPermits[slug := if most < 1 then 1 else most];
      }
    }

    method TakeExitIp(ip: string)
      modifies this`busyExitIps
      ensures View() == IncExitIp(old(View()), ip)
    {
      if ip in busyExitIps {
        busyExitIps := busyExitIps[ip := busyExitIps[ip] + 1];
      } else {
        busyExitIps := busyExitIps[ip := 1];
      }
    }

    method ReleaseExitIp(ip: string)
      modifies this`busyExitIps
      ensures View() == DecExitIp(old(View()), ip)
    {
      if ip in busyExitIps {
        var c := busyExitIps[ip];
        if c > 0 {
          busyExitIps := busyExitIps[ip := c - 1];
        }
      }
    }

    method LimitUntil(id: int, until: int)
      modifies this`rateLimitedUntil
      ensures View() == MarkRateLimited(old(View()), id, until)
    {
      rateLimitedUntil := rateLimitedUntil[id := until];
    }

    method ChangeStatus(id: int, s: AccountStatus)
      modifies this`accounts, this`db
      ensures View() == SetStatus(old(View()), id, s)
    {
      if id in accounts {
        var slot := accounts[id];
        accounts := accounts[id := slot.(status := s, failures := 0)];
      }
      if id in db.accounts {
        db := WithAccount(db, id, db.accounts[id].(status := s, failures := 0));
      }
    }

    method Record(id: int, success: bool)
      modifies this`accounts, this`db
      ensures View() == RecordCall(old(View()), id, success)
    {
      if id in accounts {
        var slot := accounts[id];
        if success {
          slot := slot.(quotaUsed := slot.quotaUsed + 1, failures := 0);
          if slot.status == Pending { slot := slot.(status := Healthy); }
        } else {
          slot := slot.(failures := slot.failures + 1);
        }
        accounts := accounts[id := slot];
      }
      var newStatus := if id in accounts then Some(accounts[id].status) else None;
      if id in db.accounts {
        db := WithAccount(db, id, RecordRow(db.accounts[id], success, newStatus));
      }
    }

    method CountToken(token: int)
      modifies this`db
      ensures View() == IncTokenCount(old(View()), token)
    {
      if token in db.tokens {
        db := db.(tokens := db.tokens[token := db.tokens[token] + 1]);
      }
    }

    method Log(row: LogRow)
      modifies this`db
      ensures View() == WriteCallLog(old(View()), row)
    {
      if LogAccepted(db, row) {
        db := db.(logs := db.logs[db.nextLog := row], nextLog := db.nextLog + 1);
      }
    }

    /** `order` is the order in which the memory map is iterated. */
    method Candidates(platform: string, now: int, order: seq<int>) returns (out: seq<int>)
      requires Enumerates(order, accounts)
      ensures out == CandidatesIn(View(), platform, now, order)
    {
      out := [];
      for i := 0 to |order|
        invariant out == CandidatesIn(View(), platform, now, order[..i])
      {
        assert order[..i + 1][..i] == order[..i];
        assert order[i] in order;
        var id := order[i];
        var s := accounts[id];
        if s.platform != platform { continue; }
        if s.status != Healthy && s.status != Pending { continue; }
        if id in rateLimitedUntil {
          if rateLimitedUntil[id] > now { continue; }
        }
        if s.quotaLimit.Some? {
          if s.quotaUsed >= s.quotaLimit.value { continue; }
        }
        out := out + [id];
      }
      assert order[..|order|] == order;
    }
  }
}
