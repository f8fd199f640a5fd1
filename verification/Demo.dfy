/** The smallest gateway: one account behind one proxy, just started. The runs
    that show a bound reached or a promise missed start here. */
module Demo {
  import opened Wrappers
  import opened Database
  import opened Adapter
  import opened PoolState
  import opened Selection
  import opened Copies
  import opened Forwarding
  import opened Engine
  import opened Concurrency

  const SLUG: string := "exa"
  const CALL: Call := Call(SLUG, true, StatusCodes([401], [429]), None)
  const ATTEMPT: Attempt := Attempt(1, 1, None)
  const ROW: AccountRow := AccountRow(SLUG, "k", None, Some(1), Healthy, Some(1), 0, None, 0)
  const PROXY: ProxyRow := ProxyRow(1, "h", 1, None, None, None, None, Available)

  /** The platforms a new store is seeded with, and their default quota limits. */
  const PLATFORMS: map<string, Option<int>> :=
    map["context7" := Some(1000), SLUG := None, "firecrawl" := Some(1000), "tavily" := Some(1000)]

  /** `used` calls counted of a limit of `limit`. */
  function Store(limit: int, used: int, maxRetries: int): Db {
    Db(PLATFORMS, {1}, 2, [(SLUG, 1)], map[1 := PROXY], 2,
       map[1 := ROW.(quotaLimit := Some(limit), quotaUsed := used)], 2, map[], 1, map[], 1, maxRetries)
  }

  function Start(limit: int, used: int, maxRetries: int, most: nat): World {
    Boot(Store(limit, used, maxRetries), s => Some(s), slug => most, 0)
  }

  lemma StoreWellFormed(limit: int, used: int, maxRetries: int)
    ensures WellFormed(Store(limit, used, maxRetries))
  {
  }

  /** The account is loaded, schedulable at the moment, and its proxy there. */
  ghost predicate Able(st: State, now: int) {
    && st.accounts.Keys == {1} && st.proxies == map[1 := Entry(PROXY)]
    && st.accounts[1].platform == SLUG && st.accounts[1].boundProxy == Some(1) && st.accounts[1].status == Healthy
    && (1 in st.limitedUntil ==> st.limitedUntil[1] <= now)
    && (st.accounts[1].quotaLimit.Some? ==> st.accounts[1].quotaUsed < st.accounts[1].quotaLimit.value)
  }

  /** Then it is what a selection picks. */
  lemma AbleIsChosen(st: State, now: int)
    requires Able(st, now)
    ensures Lists([1], st.accounts.Keys) && Choose(st, SLUG, now, [1]) == Some(ATTEMPT)
  {
    assert Schedulable(st, SLUG, now, 1);
    assert [1][..0] == [];
    assert CandidatesIn(st, SLUG, now, [1]) == [1];
    assert Ready(st, 1);
    assert [1][1..] == [];
    assert Best(st, [1]) == Some(1);
  }

  /** What start-up makes of the store. */
  lemma StartFacts(limit: int, used: int, maxRetries: int, most: nat)
    ensures var w := Start(limit, used, maxRetries, most);
      && PermitsOk(w) && Mirrored(w.st) && w.reqs == map[] && w.now == 0
      && w.st.db == Store(limit, used, maxRetries) && w.st.limitedUntil == map[]
      && w.st.accounts == map[1 := Slot(w.st.db.accounts[1], "k")]
      && w.st.acctPermits == map[1 := 3] && w.sems == map[1 := 3]
      && SLUG in w.st.platPermits && w.st.platPermits[SLUG] == (if most < 1 then 1 else most)
    ensures used < limit ==> Able(Start(limit, used, maxRetries, most).st, 0)
  {
    var db := Store(limit, used, maxRetries);
    StoreWellFormed(limit, used, maxRetries);
    BootPermits(db, s => Some(s), slug => most, 0);
    LoadMirrors(db, s => Some(s));
    var w := Start(limit, used, maxRetries, most);
    assert w.st == LoadAll(db, s => Some(s)).(platPermits := w.st.platPermits);
    assert w.st.accounts == map[1 := Slot(db.accounts[1], "k")];
    assert w.st.acctPermits == map[1 := 3];
    assert w.st.proxies == map[1 := Entry(PROXY)];
    assert "exa" in REGISTERED;
  }

  /** A world where nothing has happened yet and a request can be served. */
  ghost predicate Idle(w: World) {
    && w.reqs == map[] && Able(w.st, w.now) && PermitsOk(w)
    && SLUG in w.st.platPermits && 1 <= w.st.platPermits[SLUG]
    && 1 in w.st.acctPermits && 1 in w.sems && 1 <= w.sems[1]
  }

  lemma StartIsIdle(limit: int, used: int, maxRetries: int, most: nat)
    requires used < limit
    ensures var w := Start(limit, used, maxRetries, most);
      Idle(w) && w.st.db == Store(limit, used, maxRetries) && w.st.accounts[1].quotaUsed == used
  {
    StartFacts(limit, used, maxRetries, most);
  }
}
