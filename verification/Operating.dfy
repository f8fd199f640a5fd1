/** Whatever the administrator or a background task asks for, carried out in place on the shared
    pools: an operation of the engine's runs is what the handler's statements do. */
module Operating {
  import opened Wrappers
  import opened Database
  import opened PoolState
  import opened Binding
  import opened Sync
  import opened Admin

  /** Operations on the tables of tokens and logs. */
  predicate OnLedger(op: Op) { op.TokenCreate? || op.TokenDelete? || op.Cleanup? }

  method ChangeLedger(pools: Pools, op: Op, now: int)
    requires OnLedger(op)
    modifies pools`db
    ensures pools.View() == Apply(old(pools.View()), op, now)
  {
    match op
    case TokenCreate =>
      pools.db := pools.db.(tokens := pools.db.tokens[pools.db.nextToken := 0], nextToken := pools.db.nextToken + 1);
    case TokenDelete(id) =>
      pools.db := pools.db.(tokens := pools.db.tokens - {id}, logs := WithoutToken(pools.db.logs, id));
    case Cleanup(oldestKept) =>
      pools.db := pools.db.(logs := KeptFrom(pools.db.logs, oldestKept));
  }

  /** Others the memory maps know nothing of. */
  predicate OnStoreOnly(op: Op) { op.Refresh? || op.GroupCreate? || op.SetMaxRetries? }

  method ChangeStore(pools: Pools, op: Op, now: int)
    requires OnStoreOnly(op)
    modifies pools`db
    ensures pools.View() == Apply(old(pools.View()), op, now)
  {
    match op
    case Refresh(id, resetAt) =>
      if id in pools.db.accounts && pools.db.accounts[id].resetAt.None? {
        pools.db := WithAccount(pools.db, id, pools.db.accounts[id].(resetAt := resetAt));
      }
    case GroupCreate =>
      pools.db := pools.db.(groups := pools.db.groups + {pools.db.nextGroup}, nextGroup := pools.db.nextGroup + 1);
    case SetMaxRetries(v) => pools.db := pools.db.(maxRetries := v);
  }

  predicate OnAccounts(op: Op) {
    op.ChangeStatus? || op.BindOne? || op.Reset? || op.Upload? || op.PatchOp? || op.DeleteOp?
  }

  method ChangeAccounts(pools: Pools, op: Op, now: int)
    requires WellFormed(pools.db) && OnAccounts(op)
    modifies pools
    ensures pools.View() == Apply(old(pools.View()), op, now)
  {
    match op
    case ChangeStatus(id, s) => pools.ChangeStatus(id, s);
    case BindOne(id) => Bind(pools, id, None);
    case Reset => ResetDue(pools, now);
    case Upload(slug, item, quota, concurrency) =>
      if slug in pools.db.platforms { UploadItemRow(pools, slug, item, quota, concurrency); }
    case PatchOp(id, patch) => var ok := Patch(pools, id, patch);
    case DeleteOp(id) => RemoveAccount(pools, id);
  }

  /** The handler that a request, or a timer, leads to. */
  method CarryOut(pools: Pools, op: Op, now: int)
    requires WellFormed(pools.db)
    modifies pools
    ensures pools.View() == Apply(old(pools.View()), op, now)
  {
    if OnLedger(op) {
      ChangeLedger(pools, op, now);
    } else if OnStoreOnly(op) {
      ChangeStore(pools, op, now);
    } else if OnAccounts(op) {
      ChangeAccounts(pools, op, now);
    } else {
      match op
      case SyncOp(gid, subscription) => var ok := Synchronize(pools, gid, subscription);
      case ProxySwitch(id, s) => ChangeProxyStatus(pools, id, s);
      case GroupDelete(gid) => RemoveGroup(pools, gid);
      case PlatformOp(slug, gids, most) => var ok := ReconfigurePlatform(pools, slug, gids, most);
    }
  }
}
