/** A proxy switched off by hand stays unused over every interleaving, whatever its subscription
    says, until it is switched on again. */
module ProxyLife {
  import opened Wrappers
  import opened Database
  import opened PoolState
  import opened Selection
  import opened Sync
  import opened SyncTheorems
  import opened Admin
  import opened Copies
  import opened Forwarding
  import opened Engine
  import opened CopyRuns
  import opened Conservation

  /** Disabled in the store, or gone for good. */
  ghost predicate Off(db: Db, p: int) {
    p < db.nextProxy && (p in db.proxies ==> db.proxies[p].status == ProxyDisabled)
  }

  predicate SwitchesOn(ev: Event, p: int) {
    ev.Operate? && ev.op.ProxySwitch? && ev.op.id == p && ev.op.proxyStatus == Available
  }

  lemma RebindKeepsProxies(st: State, ids: seq<int>)
    ensures RebindAll(st, ids).db.proxies == st.db.proxies && RebindAll(st, ids).db.nextProxy == st.db.nextProxy
  {
    RebindAllLedger(st, ids);
  }

  /** A subscription that lists the proxy refreshes it and leaves it off. */
  lemma SyncKeepsOff(st: State, gid: int, subscription: Option<seq<SubProxy>>, p: int)
    requires WellFormed(st.db) && Off(st.db, p)
    ensures Off(SyncGroup(st, gid, subscription).db, p)
  {
    if gid in st.db.groups && subscription.Some? {
      var sub := subscription.value;
      ReconcileExact(st.db, gid, sub);
      UpsertAllExact(st.db, gid, sub);
      var st1 := Reload(st.(db := Reconcile(st.db, gid, sub)), gid);
      RebindKeepsProxies(st1, NullAccounts(st1.db, gid, st1.db.nextAccount));
    }
  }

  lemma PlatformKeepsProxies(st: State, slug: string, gids: Option<seq<int>>, m: Option<nat>)
    ensures var db' := PatchPlatform(st, slug, gids, m).db;
      db'.proxies == st.db.proxies && db'.nextProxy == st.db.nextProxy
  {
    if gids.Some? && LinksAccepted(st.db, slug, gids.value) {
      var st1 := Relink(st, slug, gids.value);
      PermitOnly(st1, slug, m);
      var st2 := PermitIfSet(st1, slug, m);
      BindEachLedger(st2, UnboundOn(st2.db, slug, st2.db.nextAccount));
    } else {
      PermitOnly(st, slug, m);
    }
  }

  lemma AccountOpKeepsProxies(st: State, op: Op, now: int)
    requires op.ChangeStatus? || op.BindOne? || op.Refresh? || op.PatchOp? || op.Upload?
    ensures var db' := Apply(st, op, now).db; db'.proxies == st.db.proxies && db'.nextProxy == st.db.nextProxy
  {
    match op
    case ChangeStatus(id, s) => StatusRows(st, id, s);
    case BindOne(id) => BindKeepsRows(st, id, None);
    case Refresh(id, r) => RefreshRows(st, id, r);
    case PatchOp(id, patch) => PatchRows(st, id, patch);
    case Upload(slug, item, quota, c) =>
      BindKeepsRows(Uploaded(st, slug, item, quota, c), st.db.nextAccount, item.registrationIp);
  }

  lemma OtherOpKeepsOff(st: State, op: Op, now: int, p: int)
    requires Off(st.db, p) && !(op.ProxySwitch? && op.id == p && op.proxyStatus == Available)
    requires op.Reset? || op.DeleteOp? || op.ProxySwitch? || op.GroupDelete? || op.GroupCreate? || op.TokenCreate?
      || op.TokenDelete? || op.Cleanup? || op.SetMaxRetries?
    ensures Off(Apply(st, op, now).db, p)
  {
  }

  lemma ApplyKeepsOff(st: State, op: Op, now: int, p: int)
    requires WellFormed(st.db) && Off(st.db, p)
    requires !(op.ProxySwitch? && op.id == p && op.proxyStatus == Available)
    ensures Off(Apply(st, op, now).db, p)
  {
    match op
    case SyncOp(gid, sub) => SyncKeepsOff(st, gid, sub, p);
    case PlatformOp(slug, gids, m) => PlatformKeepsProxies(st, slug, gids, m);
    case _ =>
      if op.ChangeStatus? || op.BindOne? || op.Refresh? || op.PatchOp? || op.Upload? {
        AccountOpKeepsProxies(st, op, now);
      } else {
        OtherOpKeepsOff(st, op, now, p);
      }
  }

  lemma OffStep(w: World, ev: Event, p: int)
    requires Enabled(w, ev) && Mirrored(w.st) && Off(w.st.db, p) && !SwitchesOn(ev, p)
    ensures Off(Next(w, ev).st.db, p)
  {
    match ev
    case Operate(op) => ApplyKeepsOff(w.st, op, w.now, p);
    case DoEffect(r) => PerformKeepsProxyTable(w.st, w.reqs[r].pc.todo[0], w.now);
    case _ =>
  }

  lemma PerformKeepsProxyTable(st: State, e: Effect, now: int)
    ensures Perform(st, e, now).db.proxies == st.db.proxies && Perform(st, e, now).db.nextProxy == st.db.nextProxy
  {
    PerformKeepsRows(st, e, now);
    if e.RebindAccount? { BindKeepsRows(st, e.acct, None); }
  }

  /** The selection uses the proxy. */
  ghost predicate Uses(w: World, ev: Event, p: int)
    requires Enabled(w, ev)
  {
    ev.SelectNow? && NextReq(w, ev).pc.Chosen? && NextReq(w, ev).pc.att.proxy == p
  }

  lemma OffIsNotUsed(w: World, ev: Event, p: int)
    requires Enabled(w, ev) && Mirrored(w.st) && Off(w.st.db, p)
    ensures !Uses(w, ev, p)
  {
    if ev.SelectNow? {
      ChosenIsSchedulable(w.st, w.reqs[ev.r].call.platform, w.now, ev.order);
      assert p in w.st.proxies ==> p in w.st.db.proxies && w.st.proxies[p] == Entry(w.st.db.proxies[p]);
    }
  }

  ghost predicate NeverUsed(w: World, evs: seq<Event>, p: int)
    requires Runnable(w, evs)
    decreases evs
  {
    evs == [] || (!Uses(w, evs[0], p) && NeverUsed(Next(w, evs[0]), evs[1..], p))
  }

  /** On every run without an explicit enabling of it, a proxy that is off is used by no
      selection: no synchronization, bind or reload brings it back, and no new row takes its id. */
  lemma {:induction false} OffUntilSwitchedOn(w: World, evs: seq<Event>, p: int)
    requires Runnable(w, evs) && Mirrored(w.st) && Off(w.st.db, p)
    requires forall i :: 0 <= i < |evs| ==> !SwitchesOn(evs[i], p)
    ensures Off(Run(w, evs).st.db, p) && NeverUsed(w, evs, p)
    decreases evs
  {
    if evs != [] {
      OffStep(w, evs[0], p);
      OffIsNotUsed(w, evs[0], p);
      MirrorStep(w, evs[0]);
      OffUntilSwitchedOn(Next(w, evs[0]), evs[1..], p);
    }
  }
}
