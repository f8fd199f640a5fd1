/** The three list handlers while the gateway is at work: a client follows the cursors, and each page
    is served from the store as some run has left it by then. */
module PagedRuns {
  import opened Wrappers
  import opened Database
  import opened PoolState
  import opened Paging
  import opened Copies
  import opened Engine
  import opened CopyRuns
  import opened Tables

  // ----- the store while pages are served -----

  /** The world after the first `n` events of a run, or after all of them. */
  ghost function WorldAt(w: World, evs: seq<Event>, n: nat): World
    decreases evs
  {
    if n == 0 || evs == [] || !Enabled(w, evs[0]) then w else WorldAt(Next(w, evs[0]), evs[1..], n - 1)
  }

  lemma {:induction false} WorldAtIsRun(w: World, evs: seq<Event>, n: nat)
    requires Runnable(w, evs) && n <= |evs|
    ensures Runnable(w, evs[..n]) && WorldAt(w, evs, n) == Run(w, evs[..n])
    decreases evs
  {
    if n > 0 {
      WorldAtIsRun(Next(w, evs[0]), evs[1..], n - 1);
      assert evs[..n][1..] == evs[1..][..n - 1];
    }
  }

  lemma {:induction false} WorldAtGrows(w: World, evs: seq<Event>, i: nat, j: nat)
    requires Mirrored(w.st) && i <= j
    ensures Mirrored(WorldAt(w, evs, i).st) && StoreStep(WorldAt(w, evs, i).st.db, WorldAt(w, evs, j).st.db)
    decreases evs
  {
    if j > 0 && evs != [] && Enabled(w, evs[0]) {
      var w1 := Next(w, evs[0]);
      MirrorStep(w, evs[0]);
      WorldAtGrows(w1, evs[1..], if i > 0 then i - 1 else 0, j - 1);
      if i == 0 {
        EventStep(w, evs[0]);
        StoreStepTransitive(w.st.db, w1.st.db, WorldAt(w1, evs[1..], j - 1).st.db);
      }
    }
  }

  /** Page `i` is served from the store as the first `at(i)` events of the run have left it. */
  ghost predicate ServedFrom(dbs: nat -> Db, w: World, evs: seq<Event>, at: nat -> nat) {
    forall i: nat :: at(i) <= |evs| && Runnable(w, evs[..at(i)]) && dbs(i) == Run(w, evs[..at(i)]).st.db
  }

  ghost predicate Later(at: nat -> nat) { forall i: nat, j: nat :: i <= j ==> at(i) <= at(j) }

  ghost predicate StoresEvolve(dbs: nat -> Db) {
    && (forall i: nat :: WellFormed(dbs(i)))
    && (forall i: nat, j: nat :: i <= j ==> StoreStep(dbs(i), dbs(j)))
  }

  lemma RunStoresEvolve(w: World, evs: seq<Event>, at: nat -> nat, dbs: nat -> Db)
    requires Mirrored(w.st) && Runnable(w, evs) && Later(at) && ServedFrom(dbs, w, evs, at)
    ensures StoresEvolve(dbs)
  {
    forall i: nat ensures dbs(i) == WorldAt(w, evs, at(i)).st.db && WellFormed(dbs(i)) {
      WorldAtIsRun(w, evs, at(i));
      WorldAtGrows(w, evs, at(i), at(i));
    }
    forall i: nat, j: nat | i <= j ensures StoreStep(dbs(i), dbs(j)) {
      WorldAtGrows(w, evs, at(i), at(j));
    }
  }

  // ----- any list handler -----

  /** A handler lists a table of the store with a fixed filter and page size, from the cursor given. */
  type Handler = (Db, Option<int>) -> Page

  ghost predicate ListsTable<R(!new)>(handler: Handler, table: Db -> Table<R>, keep: R -> bool, limit: nat) {
    1 <= limit
    && forall db, cursor {:trigger handler(db, cursor)} ::
         handler(db, cursor) == ListPage(table(db), keep, cursor.GetOr(0), limit)
  }

  ghost function TableAt<R(!new)>(table: Db -> Table<R>, dbs: nat -> Db): nat -> Table<R> {
    (i: nat) => table(dbs(i))
  }

  /** The next cursor is a row's id, below the last cursor. */
  lemma CursorFalls<R>(t: Table<R>, keep: R -> bool, cursor: int, limit: nat)
    requires 1 <= limit && 0 <= cursor
    ensures var next := ListPage(t, keep, cursor, limit).nextCursor;
      next.Some? ==> 1 <= next.value && (cursor == 0 || next.value < cursor)
  {
    var p := ListPage(t, keep, cursor, limit);
    PageFacts(t, keep, cursor, limit);
    if p.nextCursor.Some? { assert p.items[|p.items| - 1] in p.items; }
  }

  /** The pages of a client that asks again with the cursor it was given, page `i` coming from the
      store `dbs(i)`. */
  ghost function Pages<R(!new)>(handler: Handler, table: Db -> Table<R>, keep: R -> bool, limit: nat,
                                dbs: nat -> Db, i: nat, cursor: Option<int>): seq<Page>
    requires ListsTable(handler, table, keep, limit) && 0 <= cursor.GetOr(0)
    decreases cursor.GetOr(0) == 0, cursor.GetOr(0)
  {
    var p := handler(dbs(i), cursor);
    CursorFalls(table(dbs(i)), keep, cursor.GetOr(0), limit);
    if p.nextCursor.None? then [p]
    else [p] + Pages(handler, table, keep, limit, dbs, i + 1, p.nextCursor)
  }

  lemma PagesStep<R(!new)>(handler: Handler, table: Db -> Table<R>, keep: R -> bool, limit: nat,
                           dbs: nat -> Db, i: nat, cursor: Option<int>) returns (p: Page)
    requires ListsTable(handler, table, keep, limit) && 0 <= cursor.GetOr(0)
    ensures p == ListPage(table(dbs(i)), keep, cursor.GetOr(0), limit)
    ensures p.nextCursor.Some? ==>
      1 <= p.nextCursor.value && (cursor.GetOr(0) == 0 || p.nextCursor.value < cursor.GetOr(0))
    ensures Pages(handler, table, keep, limit, dbs, i, cursor)
         == if p.nextCursor.None? then [p] else [p] + Pages(handler, table, keep, limit, dbs, i + 1, p.nextCursor)
  {
    p := handler(dbs(i), cursor);
    CursorFalls(table(dbs(i)), keep, cursor.GetOr(0), limit);
  }

  lemma FollowStep<R(!new)>(hist: nat -> Table<R>, i: nat, keep: R -> bool, cursor: int, limit: nat, p: Page)
    requires 1 <= limit && 0 <= cursor && p == ListPage(hist(i), keep, cursor, limit)
    requires p.nextCursor.Some? ==> 1 <= p.nextCursor.value
    ensures Follow(hist, i, keep, cursor, limit)
         == if p.nextCursor.None? then [p] else [p] + Follow(hist, i + 1, keep, p.nextCursor.value, limit)
  {
  }

  lemma {:induction false} PagesFollow<R(!new)>(handler: Handler, table: Db -> Table<R>, keep: R -> bool, limit: nat,
                                                dbs: nat -> Db, i: nat, cursor: Option<int>)
    requires ListsTable(handler, table, keep, limit) && 0 <= cursor.GetOr(0)
    ensures Pages(handler, table, keep, limit, dbs, i, cursor)
         == Follow(TableAt(table, dbs), i, keep, cursor.GetOr(0), limit)
    decreases cursor.GetOr(0) == 0, cursor.GetOr(0)
  {
    var p := PagesStep(handler, table, keep, limit, dbs, i, cursor);
    FollowStep(TableAt(table, dbs), i, keep, cursor.GetOr(0), limit, p);
    if p.nextCursor.Some? { PagesFollow(handler, table, keep, limit, dbs, i + 1, p.nextCursor); }
  }

  /** A handler's pages, from the first on, over a store that evolves. */
  lemma HandlerPagesWell<R(!new)>(handler: Handler, table: Db -> Table<R>, keep: R -> bool, limit: nat, dbs: nat -> Db)
    requires ListsTable(handler, table, keep, limit) && Evolves(TableAt(table, dbs))
    ensures PagedWell(TableAt(table, dbs), keep, Pages(handler, table, keep, limit, dbs, 0, None))
  {
    PagesFollow(handler, table, keep, limit, dbs, 0, None);
    FollowUnderChanges(TableAt(table, dbs), keep, limit);
  }

  /** On a store nobody changes, the pages are the full filtered scan, and every total counts it. */
  lemma HandlerPagesAll<R(!new)>(handler: Handler, table: Db -> Table<R>, keep: R -> bool, limit: nat, db: Db)
    requires ListsTable(handler, table, keep, limit)
    ensures var pages := Pages(handler, table, keep, limit, (i: nat) => db, 0, None);
            var all := Scan(table(db).rows, keep, table(db).next);
      Shown(pages) == all && AllTotal(pages, |all|)
  {
    var dbs := (i: nat) => db;
    PagesFollow(handler, table, keep, limit, dbs, 0, None);
    FollowStatic(TableAt(table, dbs), table(db), 0, keep, 0, limit);
    TotalsStatic(TableAt(table, dbs), table(db), 0, keep, 0, limit);
  }

  // ----- the three handlers -----

  function Accounts(): Db -> Table<AccountRow> { (db: Db) => AccountTable(db) }
  function Proxies(): Db -> Table<ProxyRow> { (db: Db) => ProxyTable(db) }
  function Logs(): Db -> Table<LogRow> { (db: Db) => LogTable(db) }

  /** The queries with a cursor put in. */
  function AccountHandler(q: AccountQuery): Handler {
    (db: Db, cursor: Option<int>) => ListAccounts(db, q.(cursor := cursor))
  }

  function ProxyHandler(q: ProxyQuery): Handler {
    (db: Db, cursor: Option<int>) => ListProxies(db, q.(cursor := cursor))
  }

  function LogHandler(q: LogQuery): Handler {
    (db: Db, cursor: Option<int>) => ListCallLogs(db, q.(cursor := cursor))
  }

  function KeptAccounts(q: AccountQuery): AccountRow -> bool { AccountFilter(q.platform, q.status) }
  function KeptProxies(q: ProxyQuery): ProxyRow -> bool { ProxyFilter(q.group, q.country, q.status) }
  function KeptLogs(q: LogQuery): LogRow -> bool { LogFilter(q.platform, q.account, q.token) }

  function AccountLimit(q: AccountQuery): nat { Clamp(q.limit.GetOr(50), 200) }
  function ProxyLimit(q: ProxyQuery): nat { Clamp(q.limit.GetOr(50), 500) }
  function LogLimit(q: LogQuery): nat { Clamp(q.limit.GetOr(50), 200) }

  /** Each of them is such a handler. */
  lemma AccountsList(q: AccountQuery)
    ensures ListsTable(AccountHandler(q), Accounts(), KeptAccounts(q), AccountLimit(q))
  {
  }

  lemma ProxiesList(q: ProxyQuery)
    ensures ListsTable(ProxyHandler(q), Proxies(), KeptProxies(q), ProxyLimit(q))
  {
  }

  lemma LogsList(q: LogQuery)
    ensures ListsTable(LogHandler(q), Logs(), KeptLogs(q), LogLimit(q))
  {
  }

  /** All the pages a client of each is served. */
  ghost function AccountPages(dbs: nat -> Db, q: AccountQuery): seq<Page> {
    AccountsList(q);
    Pages(AccountHandler(q), Accounts(), KeptAccounts(q), AccountLimit(q), dbs, 0, None)
  }

  ghost function ProxyPages(dbs: nat -> Db, q: ProxyQuery): seq<Page> {
    ProxiesList(q);
    Pages(ProxyHandler(q), Proxies(), KeptProxies(q), ProxyLimit(q), dbs, 0, None)
  }

  ghost function LogPages(dbs: nat -> Db, q: LogQuery): seq<Page> {
    LogsList(q);
    Pages(LogHandler(q), Logs(), KeptLogs(q), LogLimit(q), dbs, 0, None)
  }

  /** The tables evolve as the store does. */
  lemma TablesEvolve(dbs: nat -> Db)
    requires StoresEvolve(dbs)
    ensures Evolves(TableAt(Accounts(), dbs)) && Evolves(TableAt(Proxies(), dbs)) && Evolves(TableAt(Logs(), dbs))
  {
    forall i: nat
      ensures KeysBelowNext(AccountTable(dbs(i))) && KeysBelowNext(ProxyTable(dbs(i)))
        && KeysBelowNext(LogTable(dbs(i)))
    {
      assert WellFormed(dbs(i));
    }
    forall i: nat, j: nat | i <= j ensures StoreStep(dbs(i), dbs(j)) {}
  }

  lemma HandlersPageWell(dbs: nat -> Db, accounts: AccountQuery, proxies: ProxyQuery, logs: LogQuery)
    requires StoresEvolve(dbs)
    ensures PagedWell(TableAt(Accounts(), dbs), KeptAccounts(accounts), AccountPages(dbs, accounts))
    ensures PagedWell(TableAt(Proxies(), dbs), KeptProxies(proxies), ProxyPages(dbs, proxies))
    ensures PagedWell(TableAt(Logs(), dbs), KeptLogs(logs), LogPages(dbs, logs))
  {
    TablesEvolve(dbs);
    AccountsList(accounts);
    ProxiesList(proxies);
    LogsList(logs);
    HandlerPagesWell(AccountHandler(accounts), Accounts(), KeptAccounts(accounts), AccountLimit(accounts), dbs);
    HandlerPagesWell(ProxyHandler(proxies), Proxies(), KeptProxies(proxies), ProxyLimit(proxies), dbs);
    HandlerPagesWell(LogHandler(logs), Logs(), KeptLogs(logs), LogLimit(logs), dbs);
  }

  // ----- every run -----

  /** On every run from start-up, whatever happens between the pages, the clients of all three
      handlers see no row twice, every row that matches throughout, only rows that matched when
      their page was served, and no row inserted after the first page. */
  lemma PagesOnEveryRun(db: Db, decrypt: string -> Option<string>, most: string -> nat, now: int, evs: seq<Event>,
                        at: nat -> nat, dbs: nat -> Db, accounts: AccountQuery, proxies: ProxyQuery, logs: LogQuery)
    requires WellFormed(db) && Runnable(Boot(db, decrypt, most, now), evs)
    requires Later(at) && ServedFrom(dbs, Boot(db, decrypt, most, now), evs, at)
    ensures PagedWell(TableAt(Accounts(), dbs), KeptAccounts(accounts), AccountPages(dbs, accounts))
    ensures PagedWell(TableAt(Proxies(), dbs), KeptProxies(proxies), ProxyPages(dbs, proxies))
    ensures PagedWell(TableAt(Logs(), dbs), KeptLogs(logs), LogPages(dbs, logs))
  {
    var w := Boot(db, decrypt, most, now);
    LoadMirrors(db, decrypt);
    assert w.st == LoadAll(db, decrypt).(platPermits := w.st.platPermits);
    RunStoresEvolve(w, evs, at, dbs);
    HandlersPageWell(dbs, accounts, proxies, logs);
  }

  /** On a store nobody changes, the clients of all three handlers see the full filtered scan. */
  lemma PagesOfOneStore(db: Db, accounts: AccountQuery, proxies: ProxyQuery, logs: LogQuery)
    ensures var dbs := (i: nat) => db;
      && Shown(AccountPages(dbs, accounts)) == Scan(db.accounts, KeptAccounts(accounts), db.nextAccount)
      && Shown(ProxyPages(dbs, proxies)) == Scan(db.proxies, KeptProxies(proxies), db.nextProxy)
      && Shown(LogPages(dbs, logs)) == Scan(db.logs, KeptLogs(logs), db.nextLog)
  {
    AccountsList(accounts);
    ProxiesList(proxies);
    LogsList(logs);
    HandlerPagesAll(AccountHandler(accounts), Accounts(), KeptAccounts(accounts), AccountLimit(accounts), db);
    HandlerPagesAll(ProxyHandler(proxies), Proxies(), KeptProxies(proxies), ProxyLimit(proxies), db);
    HandlerPagesAll(LogHandler(logs), Logs(), KeptLogs(logs), LogLimit(logs), db);
  }
}
