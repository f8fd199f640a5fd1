/** The gateway when it starts, column by column, which requests it admits, and what memory shows of
    the proxies ever after. */
module StartUp {
  import opened Wrappers
  import opened Database
  import opened PoolState
  import opened Copies
  import opened Forwarding
  import opened Engine
  import opened CopyRuns
  import opened ExitIps
  import opened History

  /** The slot shows the row's columns, and the key in clear. */
  ghost predicate ShowsAccount(slot: AccountSlot, row: AccountRow, key: string) {
    && slot.platform == row.platform && slot.key == key && slot.boundProxy == row.boundProxy
    && slot.status == row.status && slot.quotaLimit == row.quotaLimit && slot.quotaUsed == row.quotaUsed
    && slot.resetAt == row.resetAt && slot.failures == row.failures
  }

  /** The entry shows the row's columns, all but the country. */
  ghost predicate ShowsProxy(entry: ProxyEntry, row: ProxyRow) {
    && entry.group == row.group && entry.host == row.host && entry.port == row.port
    && entry.username == row.username && entry.password == row.password
    && entry.exitIp == row.exitIp && entry.status == row.status
  }

  ghost predicate ShowsProxies(entries: map<int, ProxyEntry>, rows: map<int, ProxyRow>) {
    entries.Keys == rows.Keys && forall p :: p in entries ==> ShowsProxy(entries[p], rows[p])
  }

  /** Every account whose key decrypts is loaded, with three permits, and every proxy; each of the
      four platforms has as many permits as configured, but one at least; nobody is there, nobody
      is backed off, no exit IP is busy. */
  lemma StartsAsStored(db: Db, decrypt: string -> Option<string>, most: string -> nat, now: int)
    ensures var w := Boot(db, decrypt, most, now);
      && w.st.db == db && w.reqs == map[] && w.now == now && w.st.busy == map[] && w.st.limitedUntil == map[]
      && (forall a :: a in w.st.accounts <==> a in db.accounts && decrypt(db.accounts[a].encryptedKey).Some?)
      && (forall a :: a in w.st.accounts ==>
            ShowsAccount(w.st.accounts[a], db.accounts[a], decrypt(db.accounts[a].encryptedKey).value))
      && (forall a :: a in w.st.acctPermits <==> a in w.st.accounts)
      && (forall a :: a in w.st.acctPermits ==> w.st.acctPermits[a] == 3) && w.sems == w.st.acctPermits
      && ShowsProxies(w.st.proxies, db.proxies)
      && w.st.platPermits.Keys == {"context7", "exa", "firecrawl", "tavily"}
      && (forall s :: s in w.st.platPermits ==> w.st.platPermits[s] == if most(s) < 1 then 1 else most(s))
  {
  }

  /** On every run from start-up memory shows exactly the store's proxies, column by column. */
  lemma ProxiesShownOnEveryRun(db: Db, decrypt: string -> Option<string>, most: string -> nat, now: int,
                               evs: seq<Event>)
    requires WellFormed(db) && Runnable(Boot(db, decrypt, most, now), evs)
    ensures var st := Run(Boot(db, decrypt, most, now), evs).st; ShowsProxies(st.proxies, st.db.proxies)
  {
    var w0 := Boot(db, decrypt, most, now);
    LoadMirrors(db, decrypt);
    assert w0.st == LoadAll(db, decrypt).(platPermits := w0.st.platPermits);
    RunMirrors(w0, evs);
    MirroredShows(Run(w0, evs).st);
  }

  lemma MirroredShows(st: State)
    requires ProxiesMirrored(st.proxies, st.db.proxies)
    ensures ShowsProxies(st.proxies, st.db.proxies)
  {
    forall p ensures p in st.proxies.Keys <==> p in st.db.proxies.Keys {
      assert p in st.proxies <==> p in st.db.proxies;
    }
  }

  // ----- admission -----

  /** A request for a platform that is none of the four, or has no permits, ends at once; any other
      waits for its platform. */
  lemma ArrivalIsSorted(w: World, r: int, call: Call)
    requires r !in w.reqs
    ensures var q := NextReq(w, Arrive(r, call));
      && q.call == call && q.endings == [] && q.submitted == []
      && q.pc == (if call.platform !in {"context7", "exa", "firecrawl", "tavily"} then Done(NotRegistered)
                  else if call.platform !in w.st.platPermits then Done(NotReady)
                  else AwaitPlatform)
  {
  }

  /** Before it sends, an attempt waits for a permit of its account, unless the account has been
      deleted since it was selected: then it sends without one. */
  lemma PermitIsAskedFor(w: World, r: int)
    requires Enabled(w, LookUpPermit(r))
    ensures var att, w' := w.reqs[r].pc.att, Next(w, LookUpPermit(r));
      && w'.st == w.st && w'.sems == w.sems
      && w'.reqs == w.reqs[r := w.reqs[r].(
           pc := if att.acct in w.st.acctPermits then AwaitAccount(att) else Sending(att, false))]
  {
  }

  lemma {:induction false} RunKeepsMaxRetries(w: World, evs: seq<Event>, r: int)
    requires Runnable(w, evs) && r in w.reqs && !w.reqs[r].pc.AwaitPlatform?
    ensures var w' := Run(w, evs);
      r in w'.reqs && !w'.reqs[r].pc.AwaitPlatform? && w'.reqs[r].maxRetries == w.reqs[r].maxRetries
    decreases evs
  {
    if evs != [] { RunKeepsMaxRetries(Next(w, evs[0]), evs[1..], r); }
  }

  /** On every run from start-up a request admitted while the setting is `v` makes at most `v` plus
      one attempts, whatever the setting becomes: at most one if it is negative. */
  lemma AttemptsWithinSetting(db: Db, decrypt: string -> Option<string>, most: string -> nat, now: int,
                              before: seq<Event>, r: int, after: seq<Event>, v: int)
    requires Runnable(Boot(db, decrypt, most, now), before)
    requires var w := Run(Boot(db, decrypt, most, now), before);
      && w.st.db.maxRetries == v < 0x1_0000_0000 - 1 && Enabled(w, EnterPlatform(r))
      && Runnable(Next(w, EnterPlatform(r)), after)
    ensures var w := Run(Boot(db, decrypt, most, now), before);
      var w' := Run(Next(w, EnterPlatform(r)), after);
      r in w'.reqs && |w'.reqs[r].endings| <= (if v < 0 then 0 else v) + 1
  {
    var w0 := Boot(db, decrypt, most, now);
    RunKeepsHistories(w0, before);
    RunKeepsTodos(w0, before);
    AdmittedWithinSetting(Run(w0, before), r, after);
  }

  lemma AdmittedWithinSetting(w: World, r: int, after: seq<Event>)
    requires TodosOk(w) && forall r :: r in w.reqs ==> HistoryOk(w.reqs[r])
    requires w.st.db.maxRetries < 0x1_0000_0000 - 1 && Enabled(w, EnterPlatform(r))
    requires Runnable(Next(w, EnterPlatform(r)), after)
    ensures var w' := Run(Next(w, EnterPlatform(r)), after);
      r in w'.reqs && |w'.reqs[r].endings| <= (if w.st.db.maxRetries < 0 then 0 else w.st.db.maxRetries) + 1
  {
    var w1 := Next(w, EnterPlatform(r));
    RequestKeepsHistory(w, EnterPlatform(r));
    TodosStep(w, EnterPlatform(r));
    RunKeepsHistories(w1, after);
    RunKeepsMaxRetries(w1, after, r);
    AttemptsBelow(Run(w1, after).reqs[r]);
  }

  lemma AttemptsBelow(q: Req)
    requires HistoryOk(q) && q.maxRetries < U32_LIMIT - 1
    ensures |q.endings| <= q.maxRetries + 1
  {
  }

  lemma {:induction false} RunKeepsTodos(w: World, evs: seq<Event>)
    requires TodosOk(w) && Runnable(w, evs)
    ensures TodosOk(Run(w, evs))
    decreases evs
  {
    if evs != [] {
      TodosStep(w, evs[0]);
      RunKeepsTodos(Next(w, evs[0]), evs[1..]);
    }
  }
}
