/** What the three list handlers show, in terms of the rows' own columns and of the figures of the
    query: which rows, how many on a page, and the total. */
module PagedColumns {
  import opened Wrappers
  import opened Database
  import opened Paging
  import opened Engine
  import opened PagedRuns

  // ----- what is asked for -----

  /** Absent or empty, or equal to the column. */
  ghost predicate TextAsked(wanted: Option<string>, column: Option<string>) {
    wanted.None? || wanted.value == "" || column == wanted
  }

  /** Absent or 0, or equal to the column. */
  ghost predicate IdAsked(wanted: Option<int>, column: Option<int>) {
    wanted.None? || wanted.value == 0 || column == wanted
  }

  ghost predicate AccountAsked(q: AccountQuery, row: AccountRow) {
    && TextAsked(q.platform, Some(row.platform))
    && (|| q.status.None? || q.status.value == ""
        || (q.status.value == "pending" && row.status == Pending)
        || (q.status.value == "healthy" && row.status == Healthy)
        || (q.status.value == "manual_disabled" && row.status == ManualDisabled)
        || (q.status.value == "hard_revoked" && row.status == HardRevoked))
  }

  ghost predicate ProxyAsked(q: ProxyQuery, row: ProxyRow) {
    && IdAsked(q.group, Some(row.group)) && TextAsked(q.country, row.country)
    && (|| q.status.None? || q.status.value == ""
        || (q.status.value == "available" && row.status == Available)
        || (q.status.value == "manual_disabled" && row.status == ProxyDisabled))
  }

  ghost predicate LogAsked(q: LogQuery, row: LogRow) {
    TextAsked(q.platform, Some(row.platform)) && IdAsked(q.account, row.account) && IdAsked(q.token, row.token)
  }

  /** The words of the schema are different. */
  lemma StatusWords(s: AccountStatus, t: ProxyStatus)
    ensures StatusText(s) != "" && ProxyStatusText(t) != ""
    ensures (StatusText(s) == "pending" <==> s == Pending) && (StatusText(s) == "healthy" <==> s == Healthy)
    ensures StatusText(s) == "manual_disabled" <==> s == ManualDisabled
    ensures StatusText(s) == "hard_revoked" <==> s == HardRevoked
    ensures ProxyStatusText(t) == "available" <==> t == Available
    ensures ProxyStatusText(t) == "manual_disabled" <==> t == ProxyDisabled
  {
    assert "pending"[0] != "healthy"[0] && "pending"[0] != "manual_disabled"[0] && "healthy"[1] == 'e';
    assert "hard_revoked"[1] == 'a' && |"available"| != |"manual_disabled"|;
  }

  // ----- a store nobody changes -----

  /** As many rows a page as asked for, between 1 and `most`, and 50 if not asked. */
  function PageSize(limit: Option<int>, most: int): int {
    if limit.None? then 50 else if limit.value < 1 then 1 else if most < limit.value then most else limit.value
  }

  /** Every page but the last is full, and the last is not; the client is told which. */
  ghost predicate FullButLast(pages: seq<Page>, size: int) {
    && pages != [] && |pages[|pages| - 1].items| < size && !pages[|pages| - 1].hasMore
    && forall k :: 0 <= k < |pages| - 1 ==> |pages[k].items| == size && pages[k].hasMore
  }

  lemma {:induction false} FollowFills<R(!new)>(hist: nat -> Table<R>, i: nat, keep: R -> bool, cursor: int, limit: nat)
    requires 1 <= limit && 0 <= cursor
    ensures FullButLast(Follow(hist, i, keep, cursor, limit), limit)
    decreases cursor == 0, cursor
  {
    var p := ListPage(hist(i), keep, cursor, limit);
    CursorFalls(hist(i), keep, cursor, limit);
    FollowStep(hist, i, keep, cursor, limit, p);
    if p.nextCursor.Some? { FollowFills(hist, i + 1, keep, p.nextCursor.value, limit); }
  }

  lemma {:induction false} ScanCounts<R>(rows: map<int, R>, keep: R -> bool, hi: int)
    ensures |Scan(rows, keep, hi)| == |set id | id in rows && 1 <= id < hi && keep(rows[id])|
    decreases hi
  {
    var hits := set id | id in rows && 1 <= id < hi && keep(rows[id]);
    if hi > 1 {
      ScanCounts(rows, keep, hi - 1);
      var fewer := set id | id in rows && 1 <= id < hi - 1 && keep(rows[id]);
      assert hits == if hi - 1 in rows && keep(rows[hi - 1]) then fewer + {hi - 1} else fewer;
    } else {
      assert hits == {};
    }
  }

  /** The pages of a handler on a store nobody changes: exactly the rows that match, newest first,
      each total their number, each page but the last full. */
  ghost predicate ShowsExactly(pages: seq<Page>, ids: set<int>, size: int) {
    && Descending(Shown(pages)) && (forall id :: id in Shown(pages) <==> id in ids)
    && (forall k :: 0 <= k < |pages| ==> pages[k].total == |ids|)
    && FullButLast(pages, size)
  }

  lemma HandlerShows<R(!new)>(handler: Handler, table: Db -> Table<R>, keep: R -> bool, limit: nat,
                              db: Db, ids: set<int>)
    requires ListsTable(handler, table, keep, limit) && KeysBelowNext(table(db))
    requires ids == set id | id in table(db).rows && keep(table(db).rows[id])
    ensures ShowsExactly(Pages(handler, table, keep, limit, (i: nat) => db, 0, None), ids, limit)
  {
    var t := table(db);
    HandlerPagesAll(handler, table, keep, limit, db);
    PagesFollow(handler, table, keep, limit, (i: nat) => db, 0, None);
    FollowFills(TableAt(table, (i: nat) => db), 0, keep, 0, limit);
    ScanExact(t.rows, keep, t.next);
    ScanCounts(t.rows, keep, t.next);
    assert ids == set id | id in t.rows && 1 <= id < t.next && keep(t.rows[id]);
  }

  /** The three handlers. */
  lemma AccountsShown(db: Db, q: AccountQuery)
    requires WellFormed(db)
    ensures ShowsExactly(AccountPages((i: nat) => db, q),
                         (set id | id in db.accounts && AccountAsked(q, db.accounts[id])), PageSize(q.limit, 200))
  {
    AccountsList(q);
    forall id | id in db.accounts ensures KeptAccounts(q)(db.accounts[id]) <==> AccountAsked(q, db.accounts[id]) {
      AccountKept(q, db.accounts[id]);
    }
    var ids := set id | id in db.accounts && AccountAsked(q, db.accounts[id]);
    assert ids == set id | id in Accounts()(db).rows && KeptAccounts(q)(Accounts()(db).rows[id]);
    HandlerShows(AccountHandler(q), Accounts(), KeptAccounts(q), AccountLimit(q), db, ids);
  }

  lemma AccountKept(q: AccountQuery, row: AccountRow)
    ensures KeptAccounts(q)(row) <==> AccountAsked(q, row)
  {
    StatusWords(row.status, Available);
  }

  lemma ProxyKept(q: ProxyQuery, row: ProxyRow)
    ensures KeptProxies(q)(row) <==> ProxyAsked(q, row)
  {
    StatusWords(Pending, row.status);
  }

  lemma LogKept(q: LogQuery, row: LogRow)
    ensures KeptLogs(q)(row) <==> LogAsked(q, row)
  {
  }

  lemma ProxiesShown(db: Db, q: ProxyQuery)
    requires WellFormed(db)
    ensures ShowsExactly(ProxyPages((i: nat) => db, q),
                         (set id | id in db.proxies && ProxyAsked(q, db.proxies[id])), PageSize(q.limit, 500))
  {
    ProxiesList(q);
    forall id | id in db.proxies ensures KeptProxies(q)(db.proxies[id]) <==> ProxyAsked(q, db.proxies[id]) {
      ProxyKept(q, db.proxies[id]);
    }
    var ids := set id | id in db.proxies && ProxyAsked(q, db.proxies[id]);
    assert ids == set id | id in Proxies()(db).rows && KeptProxies(q)(Proxies()(db).rows[id]);
    HandlerShows(ProxyHandler(q), Proxies(), KeptProxies(q), ProxyLimit(q), db, ids);
  }

  lemma LogsShown(db: Db, q: LogQuery)
    requires WellFormed(db)
    ensures ShowsExactly(LogPages((i: nat) => db, q),
                         (set id | id in db.logs && LogAsked(q, db.logs[id])), PageSize(q.limit, 200))
  {
    LogsList(q);
    forall id | id in db.logs ensures KeptLogs(q)(db.logs[id]) <==> LogAsked(q, db.logs[id]) {
      LogKept(q, db.logs[id]);
    }
    var ids := set id | id in db.logs && LogAsked(q, db.logs[id]);
    assert ids == set id | id in Logs()(db).rows && KeptLogs(q)(Logs()(db).rows[id]);
    HandlerShows(LogHandler(q), Logs(), KeptLogs(q), LogLimit(q), db, ids);
  }

  // ----- one page from any cursor -----

  /** One page: the newest of `ids`, below the cursor if there is one, as many as fit; the total
      counts all of `ids`; there is more, perhaps, when the page is full. */
  ghost predicate PageOf(p: Page, ids: set<int>, cursor: Option<int>, size: int)
    requires 1 <= size
  {
    && Descending(p.items) && |p.items| <= size && p.total == |ids|
    && (forall id :: id in p.items ==> id in ids && BelowCursor(id, cursor))
    && (forall id :: id in ids && BelowCursor(id, cursor) && id !in p.items ==>
          |p.items| == size && id < p.items[size - 1])
    && p.hasMore == (|p.items| == size)
    && p.nextCursor == if p.hasMore then Some(p.items[size - 1]) else None
  }

  /** No cursor, or 0, begins with the newest row. */
  ghost predicate BelowCursor(id: int, cursor: Option<int>) {
    cursor.None? || cursor.value == 0 || id < cursor.value
  }

  /** The scan from the cursor on holds exactly the ids asked for. */
  lemma ScanIsAsked<R>(t: Table<R>, keep: R -> bool, cursor: Option<int>, ids: set<int>)
    requires KeysBelowNext(t) && ids == set id | id in t.rows && keep(t.rows[id])
    ensures var all := Scan(t.rows, keep, Bound(t, cursor.GetOr(0)));
      && Descending(all)
      && forall id :: id in all <==> id in ids && BelowCursor(id, cursor)
  {
    ScanExact(t.rows, keep, Bound(t, cursor.GetOr(0)));
  }

  lemma TotalIsAsked<R>(t: Table<R>, keep: R -> bool, ids: set<int>)
    requires KeysBelowNext(t) && ids == set id | id in t.rows && keep(t.rows[id])
    ensures |Scan(t.rows, keep, t.next)| == |ids|
  {
    ScanCounts(t.rows, keep, t.next);
    assert ids == set id | id in t.rows && 1 <= id < t.next && keep(t.rows[id]);
  }

  lemma ListPageExact<R>(t: Table<R>, keep: R -> bool, cursor: Option<int>, limit: nat, ids: set<int>)
    requires 1 <= limit && KeysBelowNext(t) && ids == set id | id in t.rows && keep(t.rows[id])
    ensures PageOf(ListPage(t, keep, cursor.GetOr(0), limit), ids, cursor, limit)
  {
    var all := Scan(t.rows, keep, Bound(t, cursor.GetOr(0)));
    var p := ListPage(t, keep, cursor.GetOr(0), limit);
    ScanIsAsked(t, keep, cursor, ids);
    TotalIsAsked(t, keep, ids);
    assert forall i :: 0 <= i < |p.items| ==> p.items[i] == all[i] && all[i] in all;
    forall id | id in ids && BelowCursor(id, cursor) && id !in p.items
      ensures |p.items| == limit && id < p.items[limit - 1]
    {
      assert id in all;
      var i :| 0 <= i < |all| && all[i] == id;
      if i < |p.items| { assert p.items[i] == id; }
    }
  }

  /** A page of accounts. */
  lemma AccountsPage(db: Db, q: AccountQuery)
    requires WellFormed(db)
    ensures PageOf(ListAccounts(db, q), (set id | id in db.accounts && AccountAsked(q, db.accounts[id])),
                   q.cursor, PageSize(q.limit, 200))
  {
    var t, keep := AccountTable(db), AccountFilter(q.platform, q.status);
    forall id | id in db.accounts ensures keep(db.accounts[id]) <==> AccountAsked(q, db.accounts[id]) {
      AccountKept(q, db.accounts[id]);
    }
    var ids := set id | id in db.accounts && AccountAsked(q, db.accounts[id]);
    assert ids == set id | id in t.rows && keep(t.rows[id]);
    ListPageExact(t, keep, q.cursor, Clamp(q.limit.GetOr(50), 200), ids);
  }

  /** A page of proxies. */
  lemma ProxiesPage(db: Db, q: ProxyQuery)
    requires WellFormed(db)
    ensures PageOf(ListProxies(db, q), (set id | id in db.proxies && ProxyAsked(q, db.proxies[id])),
                   q.cursor, PageSize(q.limit, 500))
  {
    var t, keep := ProxyTable(db), ProxyFilter(q.group, q.country, q.status);
    forall id | id in db.proxies ensures keep(db.proxies[id]) <==> ProxyAsked(q, db.proxies[id]) {
      ProxyKept(q, db.proxies[id]);
    }
    var ids := set id | id in db.proxies && ProxyAsked(q, db.proxies[id]);
    assert ids == set id | id in t.rows && keep(t.rows[id]);
    ListPageExact(t, keep, q.cursor, Clamp(q.limit.GetOr(50), 500), ids);
  }

  /** A page of call logs. */
  lemma LogsPage(db: Db, q: LogQuery)
    requires WellFormed(db)
    ensures PageOf(ListCallLogs(db, q), (set id | id in db.logs && LogAsked(q, db.logs[id])),
                   q.cursor, PageSize(q.limit, 200))
  {
    var t, keep := LogTable(db), LogFilter(q.platform, q.account, q.token);
    forall id | id in db.logs ensures keep(db.logs[id]) <==> LogAsked(q, db.logs[id]) {
      LogKept(q, db.logs[id]);
    }
    var ids := set id | id in db.logs && LogAsked(q, db.logs[id]);
    assert ids == set id | id in t.rows && keep(t.rows[id]);
    ListPageExact(t, keep, q.cursor, Clamp(q.limit.GetOr(50), 200), ids);
  }

  // ----- every run -----

  /** What a client can rely on when page `i` is served from a store where exactly the ids in
      `asked(i)` match: every id that always matches is shown, only ids that matched once are, none
      twice, and none that was not there at the first page. */
  ghost predicate ShowsWell(pages: seq<Page>, asked: nat -> set<int>, first: set<int>) {
    && Descending(Shown(pages))
    && (forall id :: (forall k: nat :: k < |pages| ==> id in asked(k)) ==> id in Shown(pages))
    && (forall id :: id in Shown(pages) ==> exists k: nat :: k < |pages| && id in asked(k))
    && (forall id :: id in Shown(pages) ==> id in first)
  }

  lemma PagedShows<R(!new)>(hist: nat -> Table<R>, keep: R -> bool, pages: seq<Page>, asked: nat -> set<int>,
                            first: set<int>)
    requires PagedWell(hist, keep, pages) && first == hist(0).rows.Keys
    requires forall k: nat, id :: id in asked(k) <==> Matches(hist(k), keep, id)
    ensures ShowsWell(pages, asked, first)
  {
    forall id | forall k: nat :: k < |pages| ==> id in asked(k) ensures id in Shown(pages) {
      assert forall k: nat :: k < |pages| ==> Matches(hist(k), keep, id);
    }
    forall id | id in Shown(pages) ensures exists k: nat :: k < |pages| && id in asked(k) {
      var k: nat :| k < |pages| && Matches(hist(k), keep, id);
      assert id in asked(k);
    }
  }

  ghost function AskedAccounts(dbs: nat -> Db, q: AccountQuery): nat -> set<int> {
    (k: nat) => set id | id in dbs(k).accounts && AccountAsked(q, dbs(k).accounts[id])
  }

  ghost function AskedProxies(dbs: nat -> Db, q: ProxyQuery): nat -> set<int> {
    (k: nat) => set id | id in dbs(k).proxies && ProxyAsked(q, dbs(k).proxies[id])
  }

  ghost function AskedLogs(dbs: nat -> Db, q: LogQuery): nat -> set<int> {
    (k: nat) => set id | id in dbs(k).logs && LogAsked(q, dbs(k).logs[id])
  }

  /** On every run from start-up, whatever happens between the pages. */
  lemma ShownOnEveryRun(db: Db, decrypt: string -> Option<string>, most: string -> nat, now: int, evs: seq<Event>,
                        at: nat -> nat, dbs: nat -> Db, accounts: AccountQuery, proxies: ProxyQuery, logs: LogQuery)
    requires WellFormed(db) && Runnable(Boot(db, decrypt, most, now), evs)
    requires Later(at) && ServedFrom(dbs, Boot(db, decrypt, most, now), evs, at)
    ensures ShowsWell(AccountPages(dbs, accounts), AskedAccounts(dbs, accounts), dbs(0).accounts.Keys)
    ensures ShowsWell(ProxyPages(dbs, proxies), AskedProxies(dbs, proxies), dbs(0).proxies.Keys)
    ensures ShowsWell(LogPages(dbs, logs), AskedLogs(dbs, logs), dbs(0).logs.Keys)
  {
    PagesOnEveryRun(db, decrypt, most, now, evs, at, dbs, accounts, proxies, logs);
    AccountsShowWell(dbs, accounts);
    ProxiesShowWell(dbs, proxies);
    LogsShowWell(dbs, logs);
  }

  lemma AccountsShowWell(dbs: nat -> Db, q: AccountQuery)
    requires PagedWell(TableAt(Accounts(), dbs), KeptAccounts(q), AccountPages(dbs, q))
    ensures ShowsWell(AccountPages(dbs, q), AskedAccounts(dbs, q), dbs(0).accounts.Keys)
  {
    var hist := TableAt(Accounts(), dbs);
    forall k: nat, id ensures id in AskedAccounts(dbs, q)(k) <==> Matches(hist(k), KeptAccounts(q), id) {
      if id in dbs(k).accounts { AccountKept(q, dbs(k).accounts[id]); }
    }
    PagedShows(hist, KeptAccounts(q), AccountPages(dbs, q), AskedAccounts(dbs, q), dbs(0).accounts.Keys);
  }

  lemma ProxiesShowWell(dbs: nat -> Db, q: ProxyQuery)
    requires PagedWell(TableAt(Proxies(), dbs), KeptProxies(q), ProxyPages(dbs, q))
    ensures ShowsWell(ProxyPages(dbs, q), AskedProxies(dbs, q), dbs(0).proxies.Keys)
  {
    var hist := TableAt(Proxies(), dbs);
    forall k: nat, id ensures id in AskedProxies(dbs, q)(k) <==> Matches(hist(k), KeptProxies(q), id) {
      if id in dbs(k).proxies { ProxyKept(q, dbs(k).proxies[id]); }
    }
    PagedShows(hist, KeptProxies(q), ProxyPages(dbs, q), AskedProxies(dbs, q), dbs(0).proxies.Keys);
  }

  lemma LogsShowWell(dbs: nat -> Db, q: LogQuery)
    requires PagedWell(TableAt(Logs(), dbs), KeptLogs(q), LogPages(dbs, q))
    ensures ShowsWell(LogPages(dbs, q), AskedLogs(dbs, q), dbs(0).logs.Keys)
  {
    var hist := TableAt(Logs(), dbs);
    forall k: nat, id ensures id in AskedLogs(dbs, q)(k) <==> Matches(hist(k), KeptLogs(q), id) {
      if id in dbs(k).logs { LogKept(q, dbs(k).logs[id]); }
    }
    PagedShows(hist, KeptLogs(q), LogPages(dbs, q), AskedLogs(dbs, q), dbs(0).logs.Keys);
  }
}
