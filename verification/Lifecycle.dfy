/** The life of an account over every interleaving: once out it stays out until it is enabled,
    probed or reset, and resets of one account keep their distance. */
module Lifecycle {
  import opened Wrappers
  import opened Database
  import opened PoolState
  import opened Binding
  import opened Selection
  import opened Admin
  import opened Forwarding
  import opened Engine
  import opened Accounting

  // ----- out of service -----

  /** Revoked, disabled by hand, or deleted. */
  predicate Out(st: State, a: int) {
    a in st.accounts ==> st.accounts[a].status == HardRevoked || st.accounts[a].status == ManualDisabled
  }

  /** The operations that bring an existing account back: enabling it, a successful probe, and a
      reset that is due. */
  predicate Revives(st: State, op: Op, now: int, a: int) {
    && a in st.accounts
    && match op
       case ChangeStatus(id, s) => id == a && (s == Healthy || s == Pending)
       case Reset => a in st.db.accounts && Due(st.db.accounts[a], now)
       case _ => false
  }

  /** A slot keeps its status, or is gone. */
  ghost predicate StatusKept(st: State, st': State, a: int) {
    a in st'.accounts ==> a in st.accounts && st'.accounts[a].status == st.accounts[a].status
  }

  lemma BindingsKeepStatus(st: State, st': State, a: int)
    requires SlotsButBinding(st.accounts, st'.accounts)
    ensures StatusKept(st, st', a)
  {
  }

  lemma UploadKeepsStatus(st: State, slug: string, item: UploadItem, quota: Option<int>, c: nat, a: int)
    requires a < st.db.nextAccount
    ensures StatusKept(st, UploadOne(st, slug, item, quota, c), a)
  {
    var up := Uploaded(st, slug, item, quota, c);
    assert StatusKept(st, up, a);
    BindOnly(up, st.db.nextAccount, item.registrationIp);
    BindingsKeepStatus(up, BindAccount(up, st.db.nextAccount, item.registrationIp), a);
  }

  lemma SlotOpKeepsStatus(st: State, op: Op, now: int, a: int)
    requires op.Refresh? || op.PatchOp? || op.DeleteOp?
    ensures StatusKept(st, Apply(st, op, now), a)
  {
  }

  lemma OtherOpKeepsStatus(st: State, op: Op, now: int, a: int)
    requires op.ProxySwitch? || op.GroupDelete? || op.GroupCreate? || op.TokenCreate? || op.TokenDelete? || op.Cleanup?
      || op.SetMaxRetries?
    ensures StatusKept(st, Apply(st, op, now), a)
  {
  }

  lemma ApplyKeepsStatus(st: State, op: Op, now: int, a: int)
    requires a < st.db.nextAccount && !op.ChangeStatus? && !op.Reset?
    ensures StatusKept(st, Apply(st, op, now), a)
  {
    var st' := Apply(st, op, now);
    match op
    case BindOne(id) => BindOnly(st, id, None); BindingsKeepStatus(st, st', a);
    case SyncOp(gid, sub) => SyncOnly(st, gid, sub); BindingsKeepStatus(st, st', a);
    case PlatformOp(slug, gids, m) => PatchPlatformOnly(st, slug, gids, m); BindingsKeepStatus(st, st', a);
    case Upload(slug, item, quota, c) => UploadKeepsStatus(st, slug, item, quota, c, a);
    case _ =>
      if op.Refresh? || op.PatchOp? || op.DeleteOp? { SlotOpKeepsStatus(st, op, now, a); }
      else { OtherOpKeepsStatus(st, op, now, a); }
  }

  lemma StatusRevivesIff(st: State, id: int, s: AccountStatus, a: int)
    requires Out(st, a)
    ensures Out(SetStatus(st, id, s), a) <==> !(a in st.accounts && id == a && (s == Healthy || s == Pending))
  {
    assert SetStatusMem(st, id, s).accounts == SetStatus(st, id, s).accounts;
  }

  lemma ResetRevivesIff(st: State, now: int, a: int)
    requires Out(st, a)
    ensures Out(ResetQuotas(st, now), a) <==> !(a in st.accounts && a in st.db.accounts && Due(st.db.accounts[a], now))
  {
  }

  /** An operation brings an account that is out back exactly when it is one of those. */
  lemma OperationRevivesIff(st: State, op: Op, now: int, a: int)
    requires Out(st, a) && a < st.db.nextAccount
    ensures Out(Apply(st, op, now), a) <==> !Revives(st, op, now, a)
  {
    match op
    case ChangeStatus(id, s) => StatusRevivesIff(st, id, s, a);
    case Reset => ResetRevivesIff(st, now, a);
    case _ => ApplyKeepsStatus(st, op, now, a);
  }

  /** No effect of any request brings it back: in particular not the late record of a success. */
  lemma EffectsNeverRevive(st: State, e: Effect, now: int, a: int)
    requires Out(st, a) && (e.StatusInMemory? ==> e.status == HardRevoked)
    ensures Out(Perform(st, e, now), a)
  {
    if e.RebindAccount? { BindOnly(st, e.acct, None); }
  }

  /** Requests set no status but revocation. */
  ghost predicate OnlyRevoke(todo: seq<Effect>) {
    forall i :: 0 <= i < |todo| && todo[i].StatusInMemory? ==> todo[i].status == HardRevoked
  }

  ghost predicate RevokeOk(w: World) {
    forall r :: r in w.reqs && w.reqs[r].pc.Settling? ==> OnlyRevoke(w.reqs[r].pc.todo)
  }

  lemma RevokeStep(w: World, ev: Event)
    requires Enabled(w, ev) && RevokeOk(w)
    ensures RevokeOk(Next(w, ev))
  {
    if ev.Respond? {
      var q := w.reqs[ev.r];
      EffectsOnlyRevoke(q.call, q.pc.att, q.retries, ev.answer);
    } else if ev.DoEffect? {
      PopOnlyRevoke(w.st, w.reqs[ev.r].pc.todo);
    }
  }

  lemma EffectsOnlyRevoke(call: Call, att: Attempt, retries: nat, answer: Answer)
    ensures OnlyRevoke(Effects(call, att, retries, answer))
  {
  }

  lemma PopOnlyRevoke(st: State, todo: seq<Effect>)
    requires todo != [] && OnlyRevoke(todo)
    ensures OnlyRevoke(Leaves(st, todo[0]) + todo[1..])
  {
  }

  /** No event of the run brings the account back. */
  ghost predicate NeverRevived(w: World, evs: seq<Event>, a: int)
    requires Runnable(w, evs)
    decreases evs
  {
    evs == []
    || (!(evs[0].Operate? && Revives(w.st, evs[0].op, w.now, a)) && NeverRevived(Next(w, evs[0]), evs[1..], a))
  }

  /** No selection of the run picks the account. */
  ghost predicate NeverPicked(w: World, evs: seq<Event>, a: int)
    requires Runnable(w, evs)
    decreases evs
  {
    evs == [] || (!Picks(w, evs[0], a) && NeverPicked(Next(w, evs[0]), evs[1..], a))
  }

  ghost predicate Picks(w: World, ev: Event, a: int)
    requires Enabled(w, ev)
  {
    ev.SelectNow? && NextReq(w, ev).pc.Chosen? && NextReq(w, ev).pc.att.acct == a
  }

  lemma OutIsNotPicked(w: World, ev: Event, a: int)
    requires Enabled(w, ev) && Out(w.st, a)
    ensures !Picks(w, ev, a)
  {
    if ev.SelectNow? { ChosenIsSchedulable(w.st, w.reqs[ev.r].call.platform, w.now, ev.order); }
  }

  lemma OutStep(w: World, ev: Event, a: int)
    requires Enabled(w, ev) && RevokeOk(w) && Out(w.st, a) && a < w.st.db.nextAccount
    requires !(ev.Operate? && Revives(w.st, ev.op, w.now, a))
    ensures Out(Next(w, ev).st, a) && a < Next(w, ev).st.db.nextAccount
  {
    match ev
    case Operate(op) =>
      OperationRevivesIff(w.st, op, w.now, a);
      ApplyRuntime(w.st, op, w.now);
    case DoEffect(r) =>
      EffectsNeverRevive(w.st, w.reqs[r].pc.todo[0], w.now, a);
      PerformRuntime(w.st, w.reqs[r].pc.todo[0], w.now);
    case _ =>
  }

  /** On every run a revoked, disabled or deleted account stays out and is never selected until it
      is enabled, probed with success, or due at a reset; whatever requests under way do. */
  lemma {:induction false} OutUntilRevived(w: World, evs: seq<Event>, a: int)
    requires Runnable(w, evs) && RevokeOk(w)
    requires Out(w.st, a) && a < w.st.db.nextAccount && NeverRevived(w, evs, a)
    ensures Out(Run(w, evs).st, a) && NeverPicked(w, evs, a)
    decreases evs
  {
    if evs != [] {
      OutStep(w, evs[0], a);
      OutIsNotPicked(w, evs[0], a);
      RevokeStep(w, evs[0]);
      OutUntilRevived(Next(w, evs[0]), evs[1..], a);
    }
  }

  // ----- resets -----

  /** After a pass no account is due, and those that were not due are as they were. */
  lemma ResetPass(st: State, now: int, a: int)
    requires a in st.db.accounts
    ensures var st' := ResetQuotas(st, now);
      && a in st'.db.accounts && !Due(st'.db.accounts[a], now) && st'.db.accounts[a].resetAt.value > now
      && (!Due(st.db.accounts[a], now) ==>
            && st'.db.accounts[a] == st.db.accounts[a]
            && (a in st.accounts ==> a in st'.accounts && st'.accounts[a] == st.accounts[a]))
      && (Due(st.db.accounts[a], now) ==>
            && st'.db.accounts[a].quotaUsed == 0 && st'.db.accounts[a].resetAt == Some(now + RESET_PERIOD)
            && (a in st.accounts ==>
                  a in st'.accounts && st'.accounts[a].quotaUsed == 0
                    && st'.accounts[a].resetAt == st'.db.accounts[a].resetAt))
  {
  }

  /** The account's next reset, if it exists, is set and not before `floor`. */
  ghost predicate NotBefore(db: Db, a: int, floor: int) {
    a in db.accounts ==> db.accounts[a].resetAt.Some? && floor <= db.accounts[a].resetAt.value
  }

  /** A row keeps its reset time once it has one, or is gone. */
  ghost predicate ResetAtKept(db: Db, db': Db, a: int) {
    a in db'.accounts ==>
      a in db.accounts && (db.accounts[a].resetAt.Some? ==> db'.accounts[a].resetAt == db.accounts[a].resetAt)
  }

  lemma BindingsKeepResetAt(st: State, st': State, a: int)
    requires RowsButBinding(st.db.accounts, st'.db.accounts)
    ensures ResetAtKept(st.db, st'.db, a)
  {
  }

  lemma UploadKeepsResetAt(st: State, slug: string, item: UploadItem, quota: Option<int>, c: nat, a: int)
    requires a < st.db.nextAccount
    ensures ResetAtKept(st.db, UploadOne(st, slug, item, quota, c).db, a)
  {
    var up := Uploaded(st, slug, item, quota, c);
    assert ResetAtKept(st.db, up.db, a);
    BindOnly(up, st.db.nextAccount, item.registrationIp);
    BindingsKeepResetAt(up, BindAccount(up, st.db.nextAccount, item.registrationIp), a);
  }

  lemma StatusKeepsResetAt(st: State, id: int, s: AccountStatus, a: int)
    ensures ResetAtKept(st.db, SetStatus(st, id, s).db, a)
  {
    var mem := SetStatusMem(st, id, s);
    assert mem.db == st.db;
    if id in st.db.accounts {
      assert SetStatusDb(mem, id, s).db.accounts
        == st.db.accounts[id := st.db.accounts[id].(status := s, failures := 0)];
    }
  }

  lemma PatchKeepsResetAt(st: State, id: int, patch: AccountPatch, a: int)
    ensures ResetAtKept(st.db, PatchAccount(st, id, patch).db, a)
  {
  }

  /** The balance refresh never overwrites a reset time. */
  lemma RefreshKeepsResetAt(st: State, id: int, resetAt: Option<int>, a: int)
    ensures ResetAtKept(st.db, RefreshBalance(st, id, resetAt).db, a)
  {
  }

  lemma OtherOpKeepsResetAt(st: State, op: Op, now: int, a: int)
    requires op.DeleteOp? || op.ProxySwitch? || op.GroupDelete? || op.GroupCreate? || op.TokenCreate? || op.TokenDelete?
      || op.Cleanup? || op.SetMaxRetries?
    ensures ResetAtKept(st.db, Apply(st, op, now).db, a)
  {
  }

  lemma ApplyKeepsResetAt(st: State, op: Op, now: int, a: int)
    requires a < st.db.nextAccount && !op.Reset?
    ensures ResetAtKept(st.db, Apply(st, op, now).db, a)
  {
    var st' := Apply(st, op, now);
    match op
    case BindOne(id) => BindOnly(st, id, None); BindingsKeepResetAt(st, st', a);
    case SyncOp(gid, sub) => SyncOnly(st, gid, sub); BindingsKeepResetAt(st, st', a);
    case PlatformOp(slug, gids, m) => PatchPlatformOnly(st, slug, gids, m); BindingsKeepResetAt(st, st', a);
    case Upload(slug, item, quota, c) => UploadKeepsResetAt(st, slug, item, quota, c, a);
    case ChangeStatus(id, s) => StatusKeepsResetAt(st, id, s, a);
    case PatchOp(id, patch) => PatchKeepsResetAt(st, id, patch, a);
    case Refresh(id, r) => RefreshKeepsResetAt(st, id, r, a);
    case _ => OtherOpKeepsResetAt(st, op, now, a);
  }

  lemma RecordKeepsResetAt(st: State, id: int, success: bool, seen: Option<AccountStatus>, a: int)
    ensures ResetAtKept(st.db, RecordDb(st, id, success, seen).db, a)
  {
  }

  lemma RowStatusKeepsResetAt(st: State, id: int, s: AccountStatus, a: int)
    ensures ResetAtKept(st.db, SetStatusDb(st, id, s).db, a)
  {
  }

  lemma PerformKeepsResetAt(st: State, e: Effect, now: int, a: int)
    ensures ResetAtKept(st.db, Perform(st, e, now).db, a)
  {
    if e.RebindAccount? {
      BindOnly(st, e.acct, None);
      BindingsKeepResetAt(st, BindAccount(st, e.acct, None), a);
    } else if e.RecordInStore? {
      RecordKeepsResetAt(st, e.acct, e.success, e.seen, a);
    } else if e.StatusInStore? {
      RowStatusKeepsResetAt(st, e.acct, e.status, a);
    } else {
      PerformNoRow(st, e, now);
    }
  }

  lemma KeptIsNotBefore(db: Db, db': Db, a: int, floor: int)
    requires ResetAtKept(db, db', a) && NotBefore(db, a, floor)
    ensures NotBefore(db', a, floor)
  {
  }

  lemma ResetNotBefore(st: State, now: int, a: int, floor: int)
    requires NotBefore(st.db, a, floor) && floor <= now + RESET_PERIOD
    ensures NotBefore(ResetQuotas(st, now).db, a, floor)
  {
    if a in st.db.accounts { ResetPass(st, now, a); }
  }

  lemma OperateResetAt(st: State, op: Op, now: int, a: int, floor: int)
    requires a < st.db.nextAccount && NotBefore(st.db, a, floor) && floor <= now + RESET_PERIOD
    ensures NotBefore(Apply(st, op, now).db, a, floor)
  {
    if op.Reset? {
      ResetNotBefore(st, now, a, floor);
    } else {
      ApplyKeepsResetAt(st, op, now, a);
      KeptIsNotBefore(st.db, Apply(st, op, now).db, a, floor);
    }
  }

  lemma ResetAtStep(w: World, ev: Event, a: int, floor: int)
    requires Enabled(w, ev) && a < w.st.db.nextAccount && NotBefore(w.st.db, a, floor) && floor <= w.now + RESET_PERIOD
    ensures NotBefore(Next(w, ev).st.db, a, floor) && a < Next(w, ev).st.db.nextAccount
  {
    match ev
    case Operate(op) =>
      ApplyRuntime(w.st, op, w.now);
      OperateResetAt(w.st, op, w.now, a, floor);
    case DoEffect(r) =>
      PerformKeepsResetAt(w.st, w.reqs[r].pc.todo[0], w.now, a);
      KeptIsNotBefore(w.st.db, Next(w, ev).st.db, a, floor);
      PerformRuntime(w.st, w.reqs[r].pc.todo[0], w.now);
    case _ =>
  }

  lemma {:induction false} RunKeepsResetAt(w: World, evs: seq<Event>, a: int, floor: int)
    requires Runnable(w, evs) && a < w.st.db.nextAccount && NotBefore(w.st.db, a, floor)
      && floor <= w.now + RESET_PERIOD
    ensures NotBefore(Run(w, evs).st.db, a, floor) && w.now <= Run(w, evs).now
    decreases evs
  {
    if evs != [] {
      ResetAtStep(w, evs[0], a, floor);
      RunKeepsResetAt(Next(w, evs[0]), evs[1..], a, floor);
    }
  }

  /** Two resets of the same account are at least thirty days apart on every run. */
  lemma ResetsAreSpaced(w: World, evs: seq<Event>, a: int)
    requires a in w.st.db.accounts && a < w.st.db.nextAccount && Due(w.st.db.accounts[a], w.now)
    requires Runnable(Next(w, Event.Operate(Reset)), evs)
    ensures var w' := Run(Next(w, Event.Operate(Reset)), evs);
      a in w'.st.db.accounts && Due(w'.st.db.accounts[a], w'.now) ==> w'.now >= w.now + RESET_PERIOD
  {
    ResetPass(w.st, w.now, a);
    var w1 := Next(w, Event.Operate(Reset));
    RunKeepsResetAt(w1, evs, a, w.now + RESET_PERIOD);
  }
}
