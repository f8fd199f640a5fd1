/** When a row is still there after a run: exactly when no event of the run deleted it. */
module Deletions {
  import opened Wrappers
  import opened Database
  import opened PoolState
  import opened Sync
  import opened SyncTheorems
  import opened Admin
  import opened Copies
  import opened Engine
  import opened CopyRuns
  import opened Conservation
  import opened ProxyLife
  import opened Tables

  // ----- accounts -----

  lemma OpKeepsAccount(st: State, op: Op, now: int, a: int)
    requires a in st.db.accounts && op != DeleteOp(a)
    ensures a in Apply(st, op, now).db.accounts
  {
    match op
    case SyncOp(gid, sub) => SyncOnly(st, gid, sub);
    case PlatformOp(slug, gids, m) => PatchPlatformOnly(st, slug, gids, m);
    case BindOne(id) => BindOnly(st, id, None);
    case Upload(slug, item, quota, c) =>
      BindKeepsRows(Uploaded(st, slug, item, quota, c), st.db.nextAccount, item.registrationIp);
    case ChangeStatus(id, s) => StatusRows(st, id, s);
    case Refresh(id, r) => RefreshRows(st, id, r);
    case PatchOp(id, patch) => PatchRows(st, id, patch);
    case _ =>
  }

  lemma AccountStepIff(w: World, ev: Event, a: int)
    requires Enabled(w, ev) && a in w.st.db.accounts
    ensures a in Next(w, ev).st.db.accounts <==> !DropsAccount(ev, a)
  {
    match ev
    case Operate(op) => if op != DeleteOp(a) { OpKeepsAccount(w.st, op, w.now, a); }
    case DoEffect(r) => PerformKeepsRows(w.st, w.reqs[r].pc.todo[0], w.now);
    case _ =>
  }

  lemma {:induction false} AccountLivesIff(w: World, evs: seq<Event>, a: int)
    requires Mirrored(w.st) && Runnable(w, evs) && a in w.st.db.accounts
    ensures a in Run(w, evs).st.db.accounts <==> forall i :: 0 <= i < |evs| ==> !DropsAccount(evs[i], a)
    decreases evs
  {
    if evs != [] {
      var w1 := Next(w, evs[0]);
      AccountStepIff(w, evs[0], a);
      EventStep(w, evs[0]);
      MirrorStep(w, evs[0]);
      if a in w1.st.db.accounts {
        AccountLivesIff(w1, evs[1..], a);
        TailHasNone(evs, (ev: Event) => DropsAccount(ev, a));
      } else {
        RunStep(w1, evs[1..]);
      }
    }
  }

  /** Whatever no event does from the second on, and the first does not, none does. */
  lemma TailHasNone(evs: seq<Event>, p: Event -> bool)
    requires evs != [] && !p(evs[0])
    ensures (forall i :: 0 <= i < |evs| ==> !p(evs[i])) <==> forall i :: 0 <= i < |evs| - 1 ==> !p(evs[1..][i])
  {
    assert forall i :: 1 <= i < |evs| ==> evs[i] == evs[1..][i - 1];
  }

  // ----- tokens -----

  lemma OpKeepsToken(st: State, op: Op, now: int, t: int)
    requires WellFormed(st.db) && t in st.db.tokens && op != TokenDelete(t)
    ensures t in Apply(st, op, now).db.tokens
  {
    if !EditsLog(op) { ApplyLedger(st, op, now); }
  }

  lemma OpDropsTokenIff(st: State, op: Op, now: int, t: int)
    requires WellFormed(st.db) && t in st.db.tokens
    ensures t in Apply(st, op, now).db.tokens <==> op != TokenDelete(t)
  {
    if op != TokenDelete(t) { OpKeepsToken(st, op, now, t); }
  }

  lemma TokenStepIff(w: World, ev: Event, t: int)
    requires Enabled(w, ev) && WellFormed(w.st.db) && t in w.st.db.tokens
    ensures t in Next(w, ev).st.db.tokens <==> !DropsToken(ev, t)
  {
    match ev
    case Operate(op) => OpDropsTokenIff(w.st, op, w.now, t);
    case DoEffect(r) => PerformKeepsRows(w.st, w.reqs[r].pc.todo[0], w.now);
    case _ =>
  }

  lemma {:induction false} TokenLivesIff(w: World, evs: seq<Event>, t: int)
    requires Mirrored(w.st) && Runnable(w, evs) && t in w.st.db.tokens
    ensures t in Run(w, evs).st.db.tokens <==> forall i :: 0 <= i < |evs| ==> !DropsToken(evs[i], t)
    decreases evs
  {
    if evs != [] {
      var w1 := Next(w, evs[0]);
      TokenStepIff(w, evs[0], t);
      EventStep(w, evs[0]);
      MirrorStep(w, evs[0]);
      if t in w1.st.db.tokens {
        TokenLivesIff(w1, evs[1..], t);
        TailHasNone(evs, (ev: Event) => DropsToken(ev, t));
      } else {
        RunStep(w1, evs[1..]);
      }
    }
  }

  // ----- proxies -----

  /** Deleting its group, or a synchronization of the group whose subscription does not list its
      address. */
  predicate OpDropsProxy(db: Db, op: Op, p: int) {
    p in db.proxies
    && match op
       case GroupDelete(gid) => db.proxies[p].group == gid
       case SyncOp(gid, sub) =>
         db.proxies[p].group == gid && sub.Some? && Last(sub.value, db.proxies[p].host, db.proxies[p].port).None?
       case _ => false
  }

  predicate DropsProxy(w: World, ev: Event, p: int) { ev.Operate? && OpDropsProxy(w.st.db, ev.op, p) }

  ghost predicate NeverDropsProxy(w: World, evs: seq<Event>, p: int)
    requires Runnable(w, evs)
    decreases evs
  {
    evs == [] || (!DropsProxy(w, evs[0], p) && NeverDropsProxy(Next(w, evs[0]), evs[1..], p))
  }

  lemma SyncDropsIff(st: State, gid: int, subscription: Option<seq<SubProxy>>, p: int)
    requires WellFormed(st.db) && p in st.db.proxies
    ensures p in SyncGroup(st, gid, subscription).db.proxies <==> !OpDropsProxy(st.db, SyncOp(gid, subscription), p)
  {
    if gid in st.db.groups && subscription.Some? {
      var sub := subscription.value;
      ReconcileExact(st.db, gid, sub);
      var st1 := Reload(st.(db := Reconcile(st.db, gid, sub)), gid);
      RebindKeepsProxies(st1, NullAccounts(st1.db, gid, st1.db.nextAccount));
    } else {
      assert st.db.proxies[p].group in st.db.groups;
    }
  }

  lemma OtherOpKeepsProxy(st: State, op: Op, now: int, p: int)
    requires p in st.db.proxies
    requires op.Reset? || op.DeleteOp? || op.ProxySwitch? || op.GroupCreate? || op.TokenCreate?
      || op.TokenDelete? || op.Cleanup? || op.SetMaxRetries?
    ensures p in Apply(st, op, now).db.proxies
  {
  }

  lemma OpDropsIff(st: State, op: Op, now: int, p: int)
    requires WellFormed(st.db) && p in st.db.proxies
    ensures p in Apply(st, op, now).db.proxies <==> !OpDropsProxy(st.db, op, p)
  {
    match op
    case SyncOp(gid, sub) => SyncDropsIff(st, gid, sub, p);
    case GroupDelete(gid) =>
    case PlatformOp(slug, gids, m) => PlatformKeepsProxies(st, slug, gids, m);
    case _ =>
      if op.ChangeStatus? || op.BindOne? || op.Refresh? || op.PatchOp? || op.Upload? {
        AccountOpKeepsProxies(st, op, now);
      } else {
        OtherOpKeepsProxy(st, op, now, p);
      }
  }

  lemma ProxyStepIff(w: World, ev: Event, p: int)
    requires Enabled(w, ev) && WellFormed(w.st.db) && p in w.st.db.proxies
    ensures p in Next(w, ev).st.db.proxies <==> !DropsProxy(w, ev, p)
  {
    match ev
    case Operate(op) => OpDropsIff(w.st, op, w.now, p);
    case DoEffect(r) => PerformKeepsRows(w.st, w.reqs[r].pc.todo[0], w.now);
    case _ =>
  }

  lemma {:induction false} ProxyLivesIff(w: World, evs: seq<Event>, p: int)
    requires Mirrored(w.st) && Runnable(w, evs) && p in w.st.db.proxies
    ensures p in Run(w, evs).st.db.proxies <==> NeverDropsProxy(w, evs, p)
    decreases evs
  {
    if evs != [] {
      var w1 := Next(w, evs[0]);
      ProxyStepIff(w, evs[0], p);
      EventStep(w, evs[0]);
      MirrorStep(w, evs[0]);
      if p in w1.st.db.proxies { ProxyLivesIff(w1, evs[1..], p); } else { RunStep(w1, evs[1..]); }
    }
  }
}
