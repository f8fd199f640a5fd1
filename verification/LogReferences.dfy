/** What the rows of the log refer to: exactly what is still there of what they referred to when
    they were written, on every run. */
module LogReferences {
  import opened Wrappers
  import opened Database
  import opened PoolState
  import opened Sync
  import opened Admin
  import opened Copies
  import opened Forwarding
  import opened Engine
  import opened CopyRuns
  import opened Conservation
  import opened Tables
  import opened Answers
  import opened Handlers

  ghost predicate RefsLive(db: Db, row: LogRow) {
    && (row.account.Some? ==> row.account.value in db.accounts)
    && (row.proxy.Some? ==> row.proxy.value in db.proxies)
    && (row.token.Some? ==> row.token.value in db.tokens)
  }

  /** The foreign keys of the log hold. */
  ghost predicate LogLive(db: Db) {
    forall l :: l in db.logs ==> RefsLive(db, db.logs[l])
  }

  /** A reference that is there is kept, one that is gone is NULL. */
  function Still<R>(ref: Option<int>, rows: map<int, R>): Option<int> {
    if ref.Some? && ref.value in rows then ref else None
  }

  /** The row is what it was, but for references to what is gone. */
  ghost predicate RowStill(db: Db, row: LogRow, row': LogRow) {
    row' == row.(account := Still(row.account, db.accounts), proxy := Still(row.proxy, db.proxies),
                 token := Still(row.token, db.tokens))
  }

  /** Old rows that are not cleaned away are still what they were; new ones refer to what is there. */
  ghost predicate LogStill(db: Db, db': Db) {
    && (forall l :: l in db.logs && l in db'.logs ==> RowStill(db', db.logs[l], db'.logs[l]))
    && (forall l :: l in db'.logs && l !in db.logs ==> RefsLive(db', db'.logs[l]))
  }

  lemma StillIsLive(db: Db, db': Db)
    requires LogStill(db, db')
    ensures LogLive(db')
  {
  }

  /** Nothing the log refers to goes, and the log stays. */
  lemma NothingGoes(db: Db, db': Db)
    requires LogLive(db) && db'.logs == db.logs
    requires db.accounts.Keys <= db'.accounts.Keys && db.proxies.Keys <= db'.proxies.Keys
    requires db.tokens.Keys <= db'.tokens.Keys
    ensures LogStill(db, db')
  {
    forall l | l in db.logs ensures RowStill(db', db.logs[l], db'.logs[l]) {
      var row := db.logs[l];
      assert RefsLive(db, row);
      assert row.account.Some? ==> row.account.value in db.accounts.Keys;
      assert row.proxy.Some? ==> row.proxy.value in db.proxies.Keys;
      assert row.token.Some? ==> row.token.value in db.tokens.Keys;
    }
  }

  lemma StillTransitive(a: Db, b: Db, c: Db)
    requires LogStill(a, b) && LogStill(b, c) && LogLive(a)
    requires StoreStep(a, b) && StoreStep(b, c) && WellFormed(a)
    ensures LogStill(a, c)
  {
    forall l | l in a.logs && l in c.logs ensures RowStill(c, a.logs[l], c.logs[l]) {
      LogStaysBetween(a, b, c, l);
      RefsBetween(a, b, c, a.logs[l]);
    }
    forall l | l in c.logs && l !in a.logs ensures RefsLive(c, c.logs[l]) {
      if l in b.logs { assert RowStill(c, b.logs[l], c.logs[l]); }
    }
  }

  /** A row that is there at the end was there in between: its id is not given out again. */
  lemma LogStaysBetween(a: Db, b: Db, c: Db, l: int)
    requires StoreStep(a, b) && StoreStep(b, c) && WellFormed(a) && l in a.logs && l in c.logs
    ensures l in b.logs
  {
  }

  lemma RefsBetween(a: Db, b: Db, c: Db, row: LogRow)
    requires StoreStep(a, b) && StoreStep(b, c) && WellFormed(a) && RefsLive(a, row)
    ensures Still(Still(row.account, b.accounts), c.accounts) == Still(row.account, c.accounts)
    ensures Still(Still(row.proxy, b.proxies), c.proxies) == Still(row.proxy, c.proxies)
    ensures Still(Still(row.token, b.tokens), c.tokens) == Still(row.token, c.tokens)
  {
    RefBetween(row.account, a.accounts, a.nextAccount, b.accounts, b.nextAccount, c.accounts, c.nextAccount);
    RefBetween(row.proxy, a.proxies, a.nextProxy, b.proxies, b.nextProxy, c.proxies, c.nextProxy);
    RefBetween(row.token, a.tokens, a.nextToken, b.tokens, b.nextToken, c.tokens, c.nextToken);
  }

  lemma RefBetween<R, S, T>(ref: Option<int>, a: map<int, R>, nextA: int, b: map<int, S>, nextB: int,
                            c: map<int, T>, nextC: int)
    requires IdsBelow(a, nextA) && TableStep(a, nextA, b, nextB) && TableStep(b, nextB, c, nextC)
    requires ref.Some? ==> ref.value in a
    ensures Still(Still(ref, b), c) == Still(ref, c)
  {
    if ref.Some? {
      var id := ref.value;
      assert id in a && id < nextA;
      assert id in c && id !in b ==> nextB <= id;
    }
  }

  // ----- operations -----

  /** Deleting proxies, whatever else is there. */
  lemma ProxiesGo(db: Db, gone: set<int>, db': Db)
    requires LogLive(db) && db'.logs == DeleteProxies(db, gone).logs
    requires db'.accounts.Keys == db.accounts.Keys && db'.tokens == db.tokens
    requires forall p :: p in db.proxies ==> (p in db'.proxies <==> p !in gone)
    ensures LogStill(db, db')
  {
    forall l | l in db.logs ensures RowStill(db', db.logs[l], db'.logs[l]) {
      var row := db.logs[l];
      assert RefsLive(db, row) && db'.logs[l] == ForgetProxy(row, gone);
      assert row.account.Some? ==> row.account.value in db'.accounts.Keys;
      if row.proxy.Some? {
        var p := row.proxy.value;
        assert p in db.proxies;
        assert p in db'.proxies <==> p !in gone;
      }
    }
  }

  lemma SyncStill(st: State, gid: int, subscription: Option<seq<SubProxy>>)
    requires WellFormed(st.db) && LogLive(st.db)
    ensures LogStill(st.db, SyncGroup(st, gid, subscription).db)
  {
    if gid in st.db.groups && subscription.Some? {
      var sub := subscription.value;
      var up := UpsertAll(st.db, gid, sub);
      UpsertAllExact(st.db, gid, sub);
      var gone := Stale(up, gid, PresentKeys(sub));
      var st1 := Reload(st.(db := DeleteProxies(up, gone)), gid);
      assert DeleteProxies(up, gone).logs == DeleteProxies(st.db, gone).logs;
      RebindAllLedger(st1, NullAccounts(st1.db, gid, st1.db.nextAccount));
      ProxiesGo(st.db, gone, SyncGroup(st, gid, subscription).db);
    } else {
      NothingGoes(st.db, st.db);
    }
  }

  lemma GroupGoes(st: State, gid: int)
    requires LogLive(st.db)
    ensures LogStill(st.db, DeleteGroup(st, gid).db)
  {
    ProxiesGo(st.db, InGroup(st.db, gid), DeleteGroup(st, gid).db);
  }

  lemma PlatformStill(st: State, slug: string, gids: Option<seq<int>>, m: Option<nat>)
    requires LogLive(st.db)
    ensures LogStill(st.db, PatchPlatform(st, slug, gids, m).db)
  {
    if gids.Some? && LinksAccepted(st.db, slug, gids.value) {
      var st1 := Relink(st, slug, gids.value);
      PermitOnly(st1, slug, m);
      var st2 := PermitIfSet(st1, slug, m);
      BindEachLedger(st2, UnboundOn(st2.db, slug, st2.db.nextAccount));
    } else {
      PermitOnly(st, slug, m);
    }
    NothingGoes(st.db, PatchPlatform(st, slug, gids, m).db);
  }

  lemma UploadStill(st: State, slug: string, item: UploadItem, quota: Option<int>, c: nat)
    requires LogLive(st.db)
    ensures LogStill(st.db, UploadOne(st, slug, item, quota, c).db)
  {
    BindKeepsRows(Uploaded(st, slug, item, quota, c), st.db.nextAccount, item.registrationIp);
    NothingGoes(st.db, UploadOne(st, slug, item, quota, c).db);
  }

  lemma AccountOpStill(st: State, op: Op, now: int)
    requires LogLive(st.db) && (op.ChangeStatus? || op.BindOne? || op.Reset? || op.Refresh? || op.PatchOp?)
    ensures LogStill(st.db, Apply(st, op, now).db)
  {
    match op {
      case ChangeStatus(id, s) => StatusIsSet(st, id, s, now);
      case BindOne(id) => BindKeepsRows(st, id, None);
      case Reset => ResetStartsAfresh(st, now);
      case Refresh(id, r) => RefreshFillsIn(st, id, r, now);
      case PatchOp(id, patch) => PatchTakesValues(st, id, patch, now);
    }
    NothingGoes(st.db, Apply(st, op, now).db);
  }

  lemma DeletionStill(st: State, op: Op, now: int)
    requires LogLive(st.db) && (op.DeleteOp? || op.TokenDelete? || op.Cleanup?)
    ensures LogStill(st.db, Apply(st, op, now).db)
  {
    var db' := Apply(st, op, now).db;
    match op {
      case DeleteOp(id) => DeletedAccountIsGone(st, id, now);
      case TokenDelete(id) => DeletedTokenIsGone(st, id, now);
      case Cleanup(oldest) => CleanupKeepsTheNewest(st, oldest, now);
    }
    forall l | l in st.db.logs && l in db'.logs ensures RowStill(db', st.db.logs[l], db'.logs[l]) {
      assert RefsLive(st.db, st.db.logs[l]);
    }
  }

  lemma OtherOpStill(st: State, op: Op, now: int)
    requires LogLive(st.db) && (op.ProxySwitch? || op.GroupCreate? || op.TokenCreate? || op.SetMaxRetries?)
    ensures LogStill(st.db, Apply(st, op, now).db)
  {
    NothingGoes(st.db, Apply(st, op, now).db);
  }

  lemma ApplyStill(st: State, op: Op, now: int)
    requires WellFormed(st.db) && LogLive(st.db)
    ensures LogStill(st.db, Apply(st, op, now).db)
  {
    match op
    case SyncOp(gid, sub) => SyncStill(st, gid, sub);
    case GroupDelete(gid) => GroupGoes(st, gid);
    case PlatformOp(slug, gids, m) => PlatformStill(st, slug, gids, m);
    case Upload(slug, item, quota, c) => UploadStill(st, slug, item, quota, c);
    case _ =>
      if op.ChangeStatus? || op.BindOne? || op.Reset? || op.Refresh? || op.PatchOp? { AccountOpStill(st, op, now); }
      else if op.DeleteOp? || op.TokenDelete? || op.Cleanup? { DeletionStill(st, op, now); }
      else { OtherOpStill(st, op, now); }
  }

  // ----- effects and runs -----

  lemma LogRowStill(db: Db, db': Db, row: LogRow)
    requires LogLive(db) && Logged(db, db', row) && db' == db.(logs := db'.logs, nextLog := db'.nextLog)
    requires db.nextLog !in db.logs
    ensures LogStill(db, db')
  {
    forall l | l in db.logs ensures RefsLive(db, db.logs[l]) {}
  }

  lemma PerformStill(st: State, e: Effect, now: int)
    requires WellFormed(st.db) && LogLive(st.db)
    ensures LogStill(st.db, Perform(st, e, now).db)
  {
    if e.LogCall? {
      LogRowStill(st.db, WriteCallLog(st, e.row).db, e.row);
    } else {
      OtherEffectStill(st, e, now);
    }
  }

  lemma OtherEffectStill(st: State, e: Effect, now: int)
    requires LogLive(st.db) && !e.LogCall?
    ensures LogStill(st.db, Perform(st, e, now).db)
  {
    PerformKeepsRows(st, e, now);
    PerformKeepsLogTable(st, e, now);
    NothingGoes(st.db, Perform(st, e, now).db);
  }

  lemma StillSame(db: Db, db': Db)
    requires LogLive(db) && db' == db
    ensures LogStill(db, db')
  {
    NothingGoes(db, db');
  }

  lemma EventStill(w: World, ev: Event)
    requires Enabled(w, ev) && WellFormed(w.st.db) && LogLive(w.st.db)
    ensures LogStill(w.st.db, Next(w, ev).st.db)
  {
    match ev
    case Operate(op) => ApplyStill(w.st, op, w.now);
    case DoEffect(r) => PerformStill(w.st, w.reqs[r].pc.todo[0], w.now);
    case _ => StillSame(w.st.db, Next(w, ev).st.db);
  }

  /** On every run from a store whose log refers to what is there: a row that is still in the log is
      what it was, its references to accounts, proxies and tokens kept exactly as long as those are
      there; and rows written since refer to what is there. */
  lemma {:induction false} ReferencesAreExact(w: World, evs: seq<Event>)
    requires Mirrored(w.st) && LogLive(w.st.db) && Runnable(w, evs)
    ensures LogStill(w.st.db, Run(w, evs).st.db) && LogLive(Run(w, evs).st.db)
    decreases evs
  {
    if evs == [] {
      StillSame(w.st.db, w.st.db);
    } else {
      var w1 := Next(w, evs[0]);
      EventStill(w, evs[0]);
      StillIsLive(w.st.db, w1.st.db);
      EventStep(w, evs[0]);
      MirrorStep(w, evs[0]);
      ReferencesAreExact(w1, evs[1..]);
      RunStep(w1, evs[1..]);
      StillTransitive(w.st.db, w1.st.db, Run(w1, evs[1..]).st.db);
    }
  }
}
