/** How the store's tables change over any run: rows come under fresh ids only, and an id that has
    been deleted never comes back. */
module Tables {
  import opened Wrappers
  import opened Database
  import opened PoolState
  import opened Sync
  import opened Admin
  import opened Copies
  import opened Forwarding
  import opened Engine
  import opened CopyRuns
  import opened Conservation
  import opened ProxyLife

  /** New rows have ids the table had not handed out before. */
  ghost predicate TableStep<R, S>(rows: map<int, R>, next: int, rows': map<int, S>, next': int) {
    next <= next' && forall id :: id in rows' && id !in rows ==> next <= id
  }

  ghost predicate StoreStep(db: Db, db': Db) {
    && TableStep(db.accounts, db.nextAccount, db'.accounts, db'.nextAccount)
    && TableStep(db.proxies, db.nextProxy, db'.proxies, db'.nextProxy)
    && TableStep(db.tokens, db.nextToken, db'.tokens, db'.nextToken)
    && TableStep(db.logs, db.nextLog, db'.logs, db'.nextLog)
  }

  lemma StoreStepTransitive(a: Db, b: Db, c: Db)
    requires StoreStep(a, b) && StoreStep(b, c)
    ensures StoreStep(a, c)
  {
  }

  /** Only account rows change, and none comes or goes. */
  lemma RowsOnlyStep(db: Db, db': Db)
    requires db' == db.(accounts := db'.accounts) && db'.accounts.Keys == db.accounts.Keys
    ensures StoreStep(db, db')
  {
  }

  lemma SyncStep(st: State, gid: int, subscription: Option<seq<SubProxy>>)
    requires WellFormed(st.db)
    ensures StoreStep(st.db, SyncGroup(st, gid, subscription).db)
  {
    if gid in st.db.groups && subscription.Some? {
      var sub := subscription.value;
      UpsertAllExact(st.db, gid, sub);
      var st1 := Reload(st.(db := Reconcile(st.db, gid, sub)), gid);
      assert StoreStep(st.db, st1.db);
      RebindAllLedger(st1, NullAccounts(st1.db, gid, st1.db.nextAccount));
    }
  }

  lemma PatchPlatformStep(st: State, slug: string, gids: Option<seq<int>>, m: Option<nat>)
    ensures StoreStep(st.db, PatchPlatform(st, slug, gids, m).db)
  {
    if gids.Some? && LinksAccepted(st.db, slug, gids.value) {
      var st1 := Relink(st, slug, gids.value);
      PermitOnly(st1, slug, m);
      var st2 := PermitIfSet(st1, slug, m);
      BindEachLedger(st2, UnboundOn(st2.db, slug, st2.db.nextAccount));
    } else {
      PermitOnly(st, slug, m);
    }
  }

  lemma UploadStep(st: State, slug: string, item: UploadItem, quota: Option<int>, c: nat)
    ensures StoreStep(st.db, UploadOne(st, slug, item, quota, c).db)
  {
    BindKeepsRows(Uploaded(st, slug, item, quota, c), st.db.nextAccount, item.registrationIp);
  }

  lemma PatchKeepsAccounts(st: State, id: int, patch: AccountPatch)
    ensures PatchAccount(st, id, patch).db.accounts.Keys == st.db.accounts.Keys
  {
  }

  lemma RowOpStep(st: State, op: Op, now: int)
    requires op.ChangeStatus? || op.Refresh? || op.PatchOp? || op.BindOne? || op.Reset?
    ensures StoreStep(st.db, Apply(st, op, now).db)
  {
    match op {
      case ChangeStatus(id, s) => StatusRows(st, id, s); assert SetStatusMem(st, id, s).db == st.db;
      case Refresh(id, r) => RefreshRows(st, id, r);
      case PatchOp(id, patch) => PatchRows(st, id, patch); PatchKeepsAccounts(st, id, patch);
      case BindOne(id) => BindKeepsRows(st, id, None);
      case Reset =>
    }
    RowsOnlyStep(st.db, Apply(st, op, now).db);
  }

  lemma OtherOpStep(st: State, op: Op, now: int)
    requires op.DeleteOp? || op.ProxySwitch? || op.GroupDelete? || op.GroupCreate? || op.TokenCreate? || op.TokenDelete?
      || op.Cleanup? || op.SetMaxRetries?
    ensures StoreStep(st.db, Apply(st, op, now).db)
  {
  }

  lemma ApplyStep(st: State, op: Op, now: int)
    requires WellFormed(st.db)
    ensures StoreStep(st.db, Apply(st, op, now).db)
  {
    match op
    case SyncOp(gid, sub) => SyncStep(st, gid, sub);
    case PlatformOp(slug, gids, m) => PatchPlatformStep(st, slug, gids, m);
    case Upload(slug, item, quota, c) => UploadStep(st, slug, item, quota, c);
    case _ =>
      if op.ChangeStatus? || op.Refresh? || op.PatchOp? || op.BindOne? || op.Reset? { RowOpStep(st, op, now); }
      else { OtherOpStep(st, op, now); }
  }

  lemma PerformStep(st: State, e: Effect, now: int)
    ensures StoreStep(st.db, Perform(st, e, now).db)
  {
    PerformKeepsRows(st, e, now);
    PerformKeepsProxyTable(st, e, now);
    PerformRuntime(st, e, now);
    if e.LogCall? { LogOnly(st, e.row); } else { PerformKeepsLogTable(st, e, now); }
  }

  lemma PerformKeepsLogTable(st: State, e: Effect, now: int)
    requires !e.LogCall?
    ensures var db' := Perform(st, e, now).db;
      db'.logs == st.db.logs && db'.nextLog == st.db.nextLog && db'.nextToken == st.db.nextToken
  {
    if e.RebindAccount? { BindKeepsRows(st, e.acct, None); }
  }

  lemma SameStore(db: Db, db': Db)
    requires db' == db
    ensures StoreStep(db, db')
  {
  }

  lemma EventStep(w: World, ev: Event)
    requires Enabled(w, ev) && WellFormed(w.st.db)
    ensures StoreStep(w.st.db, Next(w, ev).st.db)
  {
    match ev
    case Operate(op) => ApplyStep(w.st, op, w.now);
    case DoEffect(r) => PerformStep(w.st, w.reqs[r].pc.todo[0], w.now);
    case _ => SameStore(w.st.db, Next(w, ev).st.db);
  }

  /** Over any run every table has gained rows under fresh ids only. */
  lemma {:induction false} RunStep(w: World, evs: seq<Event>)
    requires Mirrored(w.st) && Runnable(w, evs)
    ensures StoreStep(w.st.db, Run(w, evs).st.db)
    decreases evs
  {
    if evs != [] {
      EventStep(w, evs[0]);
      MirrorStep(w, evs[0]);
      RunStep(Next(w, evs[0]), evs[1..]);
      StoreStepTransitive(w.st.db, Next(w, evs[0]).st.db, Run(w, evs).st.db);
    }
  }
}
