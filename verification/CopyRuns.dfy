/** The two copies over every interleaving: requests, workers and administrators at once. */
module CopyRuns {
  import opened Wrappers
  import opened Database
  import opened PoolState
  import opened Sync
  import opened SyncTheorems
  import opened Copies
  import opened Forwarding
  import opened Engine

  lemma LogMirrors(st: State, row: LogRow)
    requires Mirrored(st)
    ensures Mirrored(WriteCallLog(st, row))
  {
    var st' := WriteCallLog(st, row);
    assert st'.db == st.db.(logs := st'.db.logs, nextLog := st'.db.nextLog);
  }

  lemma TokenMirrors(st: State, t: int)
    requires Mirrored(st)
    ensures Mirrored(IncTokenCount(st, t))
  {
    var st' := IncTokenCount(st, t);
    assert st'.db == st.db.(tokens := st'.db.tokens);
  }

  lemma PerformMirrors(st: State, e: Effect, now: int)
    requires Mirrored(st)
    ensures Mirrored(Perform(st, e, now))
  {
    match e
    case RecordInMemory(a, ok) => RecordMemMirrors(st, a, ok);
    case RecordInStore(a, ok, seen) => RecordDbMirrors(st, a, ok, seen);
    case StatusInMemory(a, s) => StatusMemMirrors(st, a, s);
    case StatusInStore(a, s) => StatusDbMirrors(st, a, s);
    case CountTokenUse(t) => TokenMirrors(st, t);
    case LogCall(row) => LogMirrors(st, row);
    case RebindAccount(a) => BindMirrors(st, a, None);
    case _ =>
      assert Perform(st, e, now)
          == st.(busy := Perform(st, e, now).busy, limitedUntil := Perform(st, e, now).limitedUntil);
  }

  lemma MirrorStep(w: World, ev: Event)
    requires Enabled(w, ev) && Mirrored(w.st)
    ensures Mirrored(Next(w, ev).st)
  {
    match ev
    case Operate(op) => ApplyMirrors(w.st, op, w.now);
    case DoEffect(r) => PerformMirrors(w.st, w.reqs[r].pc.todo[0], w.now);
    case CountIp(r) => assert NextState(w, ev) == w.st.(busy := NextState(w, ev).busy);
    case _ =>
  }

  lemma {:induction false} RunMirrors(w: World, evs: seq<Event>)
    requires Mirrored(w.st) && Runnable(w, evs)
    ensures Mirrored(Run(w, evs).st)
    decreases evs
  {
    if evs != [] {
      MirrorStep(w, evs[0]);
      RunMirrors(Next(w, evs[0]), evs[1..]);
    }
  }

  /** On every run from start-up, whatever interleaves, each loaded account leads to the same proxy
      through memory and through the store, or to none both ways. */
  lemma SameProxyOnEveryRun(db: Db, decrypt: string -> Option<string>, most: string -> nat, now: int, evs: seq<Event>,
                            a: int)
    requires WellFormed(db) && Runnable(Boot(db, decrypt, most, now), evs)
    ensures var st := Run(Boot(db, decrypt, most, now), evs).st;
      a in st.accounts ==> MemoryProxy(st, a) == StoreProxy(st, a)
  {
    var w0 := Boot(db, decrypt, most, now);
    LoadMirrors(db, decrypt);
    var st0 := LoadAll(db, decrypt);
    assert w0.st == st0.(platPermits := w0.st.platPermits);
    RunMirrors(w0, evs);
    var st := Run(w0, evs).st;
    if a in st.accounts { MirroredResolves(st, a); }
  }

  // ----- inside a synchronization -----

  /** While a group is reloaded: its entries have been dropped from memory, and those in `back`
      put in again. */
  function Refilling(st: State, gid: int, back: set<int>): State {
    st.(proxies := (map p | p in st.proxies && st.proxies[p].group != gid :: st.proxies[p])
                 + (map p | p in GroupEntries(st.db, gid) && p in back :: GroupEntries(st.db, gid)[p]))
  }

  lemma RefilledIsReloaded(st: State, gid: int, back: set<int>)
    requires forall p :: p in GroupEntries(st.db, gid) ==> p in back
    ensures Refilling(st, gid, back) == Reload(st, gid)
  {
    var entries := GroupEntries(st.db, gid);
    var part := map p | p in entries && p in back :: entries[p];
    forall p ensures p in part <==> p in entries {}
    assert part == entries;
  }

  /** What is missing then is what is not back yet. */
  lemma RefillingProxies(st: State, db': Db, gid: int, sub: seq<SubProxy>, back: set<int>)
    requires ProxiesMirrored(st.proxies, st.db.proxies) && RowsKept(st.db, db', gid, sub)
    ensures var mid := Refilling(st.(db := db'), gid, back).proxies;
      && (forall p :: p in mid <==> p in db'.proxies && (db'.proxies[p].group == gid ==> p in back))
      && (forall p :: p in mid ==> mid[p] == Entry(db'.proxies[p]))
  {
    ReloadMirrors(st, db', gid, sub);
    var full := Reload(st.(db := db'), gid).proxies;
    forall p | p in st.proxies && st.proxies[p].group != gid ensures p in db'.proxies && db'.proxies[p].group != gid {
      assert st.proxies[p] == Entry(st.db.proxies[p]);
    }
    forall p | p in db'.proxies && db'.proxies[p].group != gid ensures p in st.proxies && st.proxies[p].group != gid {
      assert p in full && full[p] == Entry(db'.proxies[p]);
    }
  }

  /** Meanwhile a loaded account leads to the same proxy both ways, except that it leads nowhere
      through memory exactly when the store binds it to a proxy of the group that is not back yet. */
  lemma SyncWindow(st: State, gid: int, sub: seq<SubProxy>, back: set<int>, a: int)
    requires Mirrored(st) && gid in st.db.groups && a in st.accounts
    ensures var mid := Refilling(st.(db := Reconcile(st.db, gid, sub)), gid, back);
      var bound := StoreProxy(mid, a);
      MemoryProxy(mid, a) == if bound.Some? && bound.value.1.group == gid && bound.value.0 !in back then None else bound
  {
    var db' := Reconcile(st.db, gid, sub);
    ReconcileMirrors(st, gid, sub);
    ReconcileExact(st.db, gid, sub);
    RefillingProxies(st, db', gid, sub, back);
    WindowResolves(st.(db := db'), gid, back, a);
  }

  lemma WindowResolves(st: State, gid: int, back: set<int>, a: int)
    requires Mirrored(Reload(st, gid)) && a in st.accounts
    requires forall p :: p in Refilling(st, gid, back).proxies <==>
      p in st.db.proxies && (st.db.proxies[p].group == gid ==> p in back)
    requires forall p :: p in Refilling(st, gid, back).proxies ==>
      p in st.db.proxies && Refilling(st, gid, back).proxies[p] == Entry(st.db.proxies[p])
    ensures var mid := Refilling(st, gid, back);
      var bound := StoreProxy(mid, a);
      MemoryProxy(mid, a) == if bound.Some? && bound.value.1.group == gid && bound.value.0 !in back then None else bound
  {
    var full, mid := Reload(st, gid), Refilling(st, gid, back);
    assert full.accounts == st.accounts && full.db == st.db;
    var mem, store := st.accounts[a].boundProxy, st.db.accounts[a].boundProxy;
    assert BoundAlike(mem, store, st.db.proxies, st.db.nextProxy);
    if store.Some? { assert store.value in st.db.proxies; }
    if mem.Some? { assert mem.value in mid.proxies ==> mem.value in st.db.proxies; }
  }
}
