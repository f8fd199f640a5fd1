/** Keyset pagination of the three list handlers: newest row first, the next page being the
    rows with an id below the last one shown. */
module Paging {
  import opened Wrappers
  import opened Database

  /** A table with an AUTOINCREMENT key: every id handed out so far is below `next`. */
  datatype Table<R> = Table(rows: map<int, R>, next: int)

  ghost predicate KeysBelowNext<R>(t: Table<R>) {
    forall id :: id in t.rows ==> 1 <= id < t.next
  }

  datatype Page = Page(items: seq<int>, total: nat, hasMore: bool, nextCursor: Option<int>)

  /** `SELECT id ... WHERE <keep> AND id < hi ORDER BY id DESC`. */
  function Scan<R>(rows: map<int, R>, keep: R -> bool, hi: int): seq<int>
    decreases hi
  {
    if hi <= 1 then []
    else (if hi - 1 in rows && keep(rows[hi - 1]) then [hi - 1] else []) + Scan(rows, keep, hi - 1)
  }

  function Clamp(limit: int, most: int): int
    requires 1 <= most
  {
    if limit < 1 then 1 else if limit > most then most else limit
  }

  /** A cursor of 0, or none, starts from the newest row. */
  function Bound<R>(t: Table<R>, cursor: int): int {
    if cursor == 0 then t.next else cursor
  }

  function ListPage<R>(t: Table<R>, keep: R -> bool, cursor: int, limit: nat): Page
    requires 1 <= limit
  {
    var matching := Scan(t.rows, keep, Bound(t, cursor));
    var items := if |matching| < limit then matching else matching[..limit];
    var hasMore := |items| == limit;
    Page(items, |Scan(t.rows, keep, t.next)|, hasMore,
         if hasMore then Some(items[limit - 1]) else None)
  }

  // ----- the three handlers -----

  datatype AccountQuery = AccountQuery(platform: Option<string>, status: Option<string>,
                                       cursor: Option<int>, limit: Option<int>)
  datatype ProxyQuery = ProxyQuery(group: Option<int>, country: Option<string>, status: Option<string>,
                                   cursor: Option<int>, limit: Option<int>)
  datatype LogQuery = LogQuery(platform: Option<string>, account: Option<int>, token: Option<int>,
                               cursor: Option<int>, limit: Option<int>)

  /** `?='' OR column=?` and `?=0 OR column=?`; a NULL column equals nothing. */
  predicate TextFilter(wanted: Option<string>, column: Option<string>) {
    var w := wanted.GetOr("");
    w == "" || column == Some(w)
  }

  predicate IdFilter(wanted: Option<int>, column: Option<int>) {
    var w := wanted.GetOr(0);
    w == 0 || column == Some(w)
  }

  function AccountFilter(platform: Option<string>, status: Option<string>): AccountRow -> bool {
    (a: AccountRow) => TextFilter(platform, Some(a.platform)) && TextFilter(status, Some(StatusText(a.status)))
  }

  function ProxyFilter(group: Option<int>, country: Option<string>, status: Option<string>): ProxyRow -> bool {
    (p: ProxyRow) => IdFilter(group, Some(p.group)) && TextFilter(country, p.country)
            && TextFilter(status, Some(ProxyStatusText(p.status)))
  }

  function LogFilter(platform: Option<string>, account: Option<int>, token: Option<int>): LogRow -> bool {
    (l: LogRow) => TextFilter(platform, Some(l.platform)) && IdFilter(account, l.account) && IdFilter(token, l.token)
  }

  function AccountTable(db: Db): Table<AccountRow> { Table(db.accounts, db.nextAccount) }
  function ProxyTable(db: Db): Table<ProxyRow> { Table(db.proxies, db.nextProxy) }
  function LogTable(db: Db): Table<LogRow> { Table(db.logs, db.nextLog) }

  function ListAccounts(db: Db, q: AccountQuery): Page {
    ListPage(AccountTable(db), AccountFilter(q.platform, q.status), q.cursor.GetOr(0), Clamp(q.limit.GetOr(50), 200))
  }

  function ListProxies(db: Db, q: ProxyQuery): Page {
    ListPage(ProxyTable(db), ProxyFilter(q.group, q.country, q.status), q.cursor.GetOr(0),
             Clamp(q.limit.GetOr(50), 500))
  }

  function ListCallLogs(db: Db, q: LogQuery): Page {
    ListPage(LogTable(db), LogFilter(q.platform, q.account, q.token), q.cursor.GetOr(0), Clamp(q.limit.GetOr(50), 200))
  }

  // ----- what one scan returns -----

  ghost predicate Descending(s: seq<int>) {
    forall i, j :: 0 <= i < j < |s| ==> s[i] > s[j]
  }

  lemma {:induction false} ScanExact<R>(rows: map<int, R>, keep: R -> bool, hi: int)
    ensures Descending(Scan(rows, keep, hi))
    ensures forall id :: id in Scan(rows, keep, hi) <==> 1 <= id < hi && id in rows && keep(rows[id])
    decreases hi
  {
    if hi > 1 {
      ScanExact(rows, keep, hi - 1);
      var rest := Scan(rows, keep, hi - 1);
      assert forall i :: 0 <= i < |rest| ==> rest[i] in rest;
    }
  }

  /** Restarting a scan below its k-th hit continues it. */
  lemma {:induction false} ScanResume<R>(rows: map<int, R>, keep: R -> bool, hi: int, k: nat)
    requires 1 <= k <= |Scan(rows, keep, hi)|
    ensures Scan(rows, keep, Scan(rows, keep, hi)[k - 1]) == Scan(rows, keep, hi)[k..]
    decreases hi
  {
    var s := Scan(rows, keep, hi);
    var rest := Scan(rows, keep, hi - 1);
    if hi - 1 in rows && keep(rows[hi - 1]) {
      assert s == [hi - 1] + rest;
      if k > 1 {
        ScanResume(rows, keep, hi - 1, k - 1);
        assert s[k..] == rest[k - 1..];
      }
    } else {
      assert s == rest;
      ScanResume(rows, keep, hi - 1, k);
    }
  }

  lemma PageFacts<R>(t: Table<R>, keep: R -> bool, cursor: int, limit: nat)
    requires 1 <= limit && 0 <= cursor
    ensures var p := ListPage(t, keep, cursor, limit);
            && |p.items| <= limit
            && Descending(p.items)
            && (forall id :: id in p.items ==> 1 <= id < Bound(t, cursor) && id in t.rows && keep(t.rows[id]))
            && (p.nextCursor.Some? ==> p.items != [] && p.nextCursor.value == p.items[|p.items| - 1])
            && (forall id :: 1 <= id < Bound(t, cursor) && id in t.rows && keep(t.rows[id]) ==>
                  id in p.items || (p.nextCursor.Some? && id < p.nextCursor.value))
  {
    var hi := Bound(t, cursor);
    ScanExact(t.rows, keep, hi);
    var all := Scan(t.rows, keep, hi);
    var p := ListPage(t, keep, cursor, limit);
    assert forall i :: 0 <= i < |p.items| ==> p.items[i] == all[i] && all[i] in all;
    forall id | 1 <= id < hi && id in t.rows && keep(t.rows[id])
      ensures id in p.items || (p.nextCursor.Some? && id < p.nextCursor.value)
    {
      assert id in all;
      var i :| 0 <= i < |all| && all[i] == id;
      if i < |p.items| { assert p.items[i] == id; }
    }
  }

  // ----- following the cursors -----

  /** The pages a client sees that follows `next_cursor`, page `i` being served from the
      table as it is at that moment, `hist(i)`. It ends: the cursor falls at every page. */
  ghost function Follow<R(!new)>(hist: nat -> Table<R>, i: nat, keep: R -> bool, cursor: int, limit: nat): seq<Page>
    requires 1 <= limit && 0 <= cursor
    decreases cursor == 0, cursor
  {
    var p := ListPage(hist(i), keep, cursor, limit);
    PageFacts(hist(i), keep, cursor, limit);
    if p.nextCursor.None? then [p]
    else
      assert p.items[|p.items| - 1] in p.items;
      [p] + Follow(hist, i + 1, keep, p.nextCursor.value, limit)
  }

  function Shown(pages: seq<Page>): seq<int> {
    if pages == [] then [] else pages[0].items + Shown(pages[1..])
  }

  /** Rows are inserted with fresh ids, deleted and altered in any way between pages. */
  ghost predicate Evolves<R(!new)>(hist: nat -> Table<R>) {
    && (forall i: nat :: KeysBelowNext(hist(i)))
    && (forall i: nat, j: nat :: i <= j ==> hist(i).next <= hist(j).next)
    && (forall i: nat, j: nat, id ::
          i <= j && id in hist(j).rows && id !in hist(i).rows ==> hist(i).next <= id)
  }

  lemma JoinDescending(a: seq<int>, b: seq<int>, c: int)
    requires Descending(a) && Descending(b)
    requires a != [] && a[|a| - 1] == c && forall id :: id in b ==> id < c
    ensures Descending(a + b)
  {
    assert forall i :: 0 <= i < |b| ==> b[i] in b;
  }

  lemma {:induction false} FollowFalls<R(!new)>(hist: nat -> Table<R>, i: nat, keep: R -> bool, cursor: int, limit: nat)
    requires 1 <= limit && 0 <= cursor
    ensures Descending(Shown(Follow(hist, i, keep, cursor, limit)))
    ensures forall id :: id in Shown(Follow(hist, i, keep, cursor, limit)) ==> 1 <= id < Bound(hist(i), cursor)
    decreases cursor == 0, cursor
  {
    var p := ListPage(hist(i), keep, cursor, limit);
    PageFacts(hist(i), keep, cursor, limit);
    if p.nextCursor.None? {
      assert Shown([p]) == p.items + Shown([]) == p.items;
    } else {
      var c := p.nextCursor.value;
      assert p.items[|p.items| - 1] in p.items;
      FollowFalls(hist, i + 1, keep, c, limit);
      var rest := Follow(hist, i + 1, keep, c, limit);
      assert ([p] + rest)[1..] == rest;
      JoinDescending(p.items, Shown(rest), c);
    }
  }

  ghost predicate Matches<R>(t: Table<R>, keep: R -> bool, id: int) {
    id in t.rows && keep(t.rows[id])
  }

  /** Every row shown matched at the moment its page was served. */
  lemma {:induction false} FollowSound<R(!new)>(hist: nat -> Table<R>, i: nat, keep: R -> bool, cursor: int,
                                                limit: nat, id: int)
      returns (k: nat)
    requires 1 <= limit && 0 <= cursor
    requires id in Shown(Follow(hist, i, keep, cursor, limit))
    ensures i <= k < i + |Follow(hist, i, keep, cursor, limit)| && Matches(hist(k), keep, id)
    decreases cursor == 0, cursor
  {
    var p := ListPage(hist(i), keep, cursor, limit);
    PageFacts(hist(i), keep, cursor, limit);
    k := i;
    if p.nextCursor.None? {
      assert Shown([p]) == p.items + Shown([]) == p.items;
    } else {
      assert p.items[|p.items| - 1] in p.items;
      var rest := Follow(hist, i + 1, keep, p.nextCursor.value, limit);
      assert ([p] + rest)[1..] == rest;
      if id !in p.items {
        k := FollowSound(hist, i + 1, keep, p.nextCursor.value, limit, id);
      }
    }
  }

  /** A row below the cursor that matches whenever a page is served is shown. */
  lemma {:induction false} FollowComplete<R(!new)>(hist: nat -> Table<R>, i: nat, keep: R -> bool, cursor: int,
                                                   limit: nat, id: int)
    requires 1 <= limit && 0 <= cursor && 1 <= id < Bound(hist(i), cursor)
    requires forall k: nat :: i <= k < i + |Follow(hist, i, keep, cursor, limit)| ==> Matches(hist(k), keep, id)
    ensures id in Shown(Follow(hist, i, keep, cursor, limit))
    decreases cursor == 0, cursor
  {
    var p := ListPage(hist(i), keep, cursor, limit);
    PageFacts(hist(i), keep, cursor, limit);
    assert Matches(hist(i), keep, id);
    if p.nextCursor.Some? {
      assert p.items[|p.items| - 1] in p.items;
      var rest := Follow(hist, i + 1, keep, p.nextCursor.value, limit);
      assert Follow(hist, i, keep, cursor, limit) == [p] + rest;
      assert ([p] + rest)[1..] == rest;
      assert Shown([p] + rest) == p.items + Shown(rest);
      if id !in p.items {
        FollowComplete(hist, i + 1, keep, p.nextCursor.value, limit, id);
      }
    }
  }

  /** What a client that starts without a cursor can rely on while the table changes under it:
      the ids shown fall strictly, so no row is shown twice; every row that matches
      throughout is shown; every row shown matched when its page was served; and no row
      inserted after the first page is shown. */
  ghost predicate PagedWell<R(!new)>(hist: nat -> Table<R>, keep: R -> bool, pages: seq<Page>) {
    && Descending(Shown(pages))
    && (forall id :: (forall k: nat :: k < |pages| ==> Matches(hist(k), keep, id)) ==> id in Shown(pages))
    && (forall id :: id in Shown(pages) ==> exists k: nat :: k < |pages| && Matches(hist(k), keep, id))
    && (forall id :: id in Shown(pages) ==> id in hist(0).rows)
  }

  lemma FollowUnderChanges<R(!new)>(hist: nat -> Table<R>, keep: R -> bool, limit: nat)
    requires 1 <= limit && Evolves(hist)
    ensures PagedWell(hist, keep, Follow(hist, 0, keep, 0, limit))
  {
    var pages := Follow(hist, 0, keep, 0, limit);
    FollowFalls(hist, 0, keep, 0, limit);
    forall id | forall k: nat :: k < |pages| ==> Matches(hist(k), keep, id)
      ensures id in Shown(pages)
    {
      assert Matches(hist(0), keep, id) && KeysBelowNext(hist(0));
      FollowComplete(hist, 0, keep, 0, limit, id);
    }
    forall id | id in Shown(pages)
      ensures id in hist(0).rows && exists k: nat :: k < |pages| && Matches(hist(k), keep, id)
    {
      var k := FollowSound(hist, 0, keep, 0, limit, id);
    }
  }

  /** Where a client stands after one page of a table that stays as it is. */
  lemma StaticStep<R>(t: Table<R>, keep: R -> bool, cursor: int, limit: nat)
    requires 1 <= limit && 0 <= cursor
    requires ListPage(t, keep, cursor, limit).nextCursor.Some?
    ensures var p := ListPage(t, keep, cursor, limit);
            var all := Scan(t.rows, keep, Bound(t, cursor));
            && 1 <= p.nextCursor.value && p.items == all[..limit]
            && Scan(t.rows, keep, p.nextCursor.value) == all[limit..]
  {
    var p := ListPage(t, keep, cursor, limit);
    PageFacts(t, keep, cursor, limit);
    assert p.items[|p.items| - 1] in p.items;
    ScanResume(t.rows, keep, Bound(t, cursor), limit);
  }

  /** On a table nobody changes, the pages joined are one full scan. */
  lemma {:induction false} FollowStatic<R(!new)>(hist: nat -> Table<R>, t: Table<R>, i: nat, keep: R -> bool,
                                                 cursor: int, limit: nat)
    requires 1 <= limit && 0 <= cursor && forall n: nat :: hist(n) == t
    ensures Shown(Follow(hist, i, keep, cursor, limit)) == Scan(t.rows, keep, Bound(t, cursor))
    decreases cursor == 0, cursor
  {
    var p := ListPage(t, keep, cursor, limit);
    var all := Scan(t.rows, keep, Bound(t, cursor));
    assert hist(i) == t;
    if p.nextCursor.None? {
      assert Shown([p]) == p.items + Shown([]) == all;
    } else {
      PageFacts(t, keep, cursor, limit);
      assert p.items[|p.items| - 1] in p.items;
      StaticStep(t, keep, cursor, limit);
      FollowStatic(hist, t, i + 1, keep, p.nextCursor.value, limit);
      var rest := Follow(hist, i + 1, keep, p.nextCursor.value, limit);
      assert ([p] + rest)[1..] == rest;
      assert all == all[..limit] + all[limit..];
    }
  }

  ghost predicate AllTotal(pages: seq<Page>, total: int) {
    forall k :: 0 <= k < |pages| ==> pages[k].total == total
  }

  /** And `total` counts the whole scan on every page, whatever its cursor. */
  lemma {:induction false} TotalsStatic<R(!new)>(hist: nat -> Table<R>, t: Table<R>, i: nat, keep: R -> bool,
                                                 cursor: int, limit: nat)
    requires 1 <= limit && 0 <= cursor && forall n: nat :: hist(n) == t
    ensures AllTotal(Follow(hist, i, keep, cursor, limit), |Scan(t.rows, keep, t.next)|)
    decreases cursor == 0, cursor
  {
    var p := ListPage(t, keep, cursor, limit);
    assert hist(i) == t;
    if p.nextCursor.Some? {
      PageFacts(t, keep, cursor, limit);
      assert p.items[|p.items| - 1] in p.items;
      TotalsStatic(hist, t, i + 1, keep, p.nextCursor.value, limit);
    }
  }

  /** There are as few pages as can hold the scan and one row more. */
  lemma {:induction false} StaticPageCount<R(!new)>(hist: nat -> Table<R>, t: Table<R>, i: nat, keep: R -> bool,
                                                    cursor: int, limit: nat)
    requires 1 <= limit && 0 <= cursor && forall n: nat :: hist(n) == t
    ensures Fills(|Follow(hist, i, keep, cursor, limit)|, |Scan(t.rows, keep, Bound(t, cursor))|, limit)
    decreases cursor == 0, cursor
  {
    var p := ListPage(t, keep, cursor, limit);
    assert hist(i) == t;
    if p.nextCursor.None? {
      assert Fills(1, |Scan(t.rows, keep, Bound(t, cursor))|, limit);
    } else {
      PageFacts(t, keep, cursor, limit);
      assert p.items[|p.items| - 1] in p.items;
      StaticStep(t, keep, cursor, limit);
      StaticPageCount(hist, t, i + 1, keep, p.nextCursor.value, limit);
      FillsOneMore(|Follow(hist, i + 1, keep, p.nextCursor.value, limit)|,
                   |Scan(t.rows, keep, p.nextCursor.value)|, limit);
    }
  }

  ghost predicate Fills(pages: int, rows: int, limit: int) {
    (pages - 1) * limit <= rows < pages * limit
  }

  lemma FillsOneMore(pages: int, rows: int, limit: int)
    requires Fills(pages, rows, limit)
    ensures Fills(pages + 1, rows + limit, limit)
  {
    assert (pages - 1) * limit + limit == pages * limit;
    assert pages * limit + limit == (pages + 1) * limit;
  }
}
