/** How far concurrent requests can overshoot an account's quota. */
module Quota {
  import opened Wrappers
  import opened Counting
  import opened Database
  import opened PoolState
  import opened Binding
  import opened Selection
  import opened Admin
  import opened Forwarding
  import opened Engine
  import opened Concurrency
  import opened ExitIps

  ghost function MemoryCount(a: int): Effect -> bool {
    (e: Effect) => e == RecordInMemory(a, true)
  }

  /** Selected on the account, and its success not yet counted in memory. */
  ghost function Unrecorded(a: int): Req -> bool {
    (q: Req) =>
      || ((q.pc.Chosen? || q.pc.CountedIp? || q.pc.AwaitAccount? || q.pc.Sending?) && q.pc.att.acct == a)
      || (q.pc.Settling? && Has(q.pc.todo, MemoryCount(a)))
  }

  /** The account belongs to platform `slug`, has limit `limit`, and the platform `permits` permits. */
  ghost predicate OnAccount(w: World, a: int, slug: string, limit: int, permits: nat) {
    && a < w.st.db.nextAccount
    && slug in w.st.platPermits && w.st.platPermits[slug] == permits
    && (a in w.st.accounts ==> w.st.accounts[a].platform == slug && w.st.accounts[a].quotaLimit == Some(limit))
    && (forall r :: r in w.reqs && Unrecorded(a)(w.reqs[r]) ==> HoldsPlatform(slug)(w.reqs[r]))
  }

  ghost predicate Bounded(w: World, a: int, limit: int, permits: nat) {
    a in w.st.accounts ==>
      w.st.accounts[a].quotaUsed + Count(w.reqs, Unrecorded(a)) <= limit - 1 + permits
  }

  /** An operation that sets the account's limit. */
  predicate SetsLimit(ev: Event, a: int) {
    ev.Operate? && ev.op.PatchOp? && ev.op.id == a && ev.op.patch.quotaLimit.Some?
  }

  lemma UnrecordedHoldPermits(w: World, a: int, slug: string, limit: int, permits: nat)
    requires OnAccount(w, a, slug, limit, permits)
    ensures Count(w.reqs, Unrecorded(a)) <= Count(w.reqs, HoldsPlatform(slug))
    ensures forall r :: r in w.reqs && HoldsPlatform(slug)(w.reqs[r]) && !Unrecorded(a)(w.reqs[r]) ==>
              Count(w.reqs, Unrecorded(a)) < Count(w.reqs, HoldsPlatform(slug))
  {
    var p, q := Unrecorded(a), HoldsPlatform(slug);
    forall r | r in w.reqs && p(w.reqs[r]) ensures q(w.reqs[r]) { assert Unrecorded(a)(w.reqs[r]); }
    CountSubset(w.reqs, p, q);
  }

  // ----- operations -----

  /** What operations do to the slot of an account that exists: a reset, or nothing that matters here. */
  ghost predicate SlotKept(st: State, st': State, a: int) {
    a in st'.accounts ==>
      && a in st.accounts
      && st'.accounts[a].platform == st.accounts[a].platform
      && st'.accounts[a].quotaLimit == st.accounts[a].quotaLimit
      && (st'.accounts[a].quotaUsed == st.accounts[a].quotaUsed || st'.accounts[a].quotaUsed == 0)
  }

  lemma BindingsKeepSlot(st: State, st': State, a: int)
    requires SlotsButBinding(st.accounts, st'.accounts)
    ensures SlotKept(st, st', a)
  {
  }

  lemma StatusKeepsSlot(st: State, id: int, s: AccountStatus, a: int)
    ensures SlotKept(st, SetStatus(st, id, s), a)
  {
    assert SetStatus(st, id, s).accounts == SetStatusMem(st, id, s).accounts;
  }

  lemma ResetKeepsSlot(st: State, now: int, a: int)
    ensures SlotKept(st, ResetQuotas(st, now), a)
  {
  }

  lemma DeleteKeepsSlot(st: State, id: int, a: int)
    ensures SlotKept(st, DeleteAccount(st, id), a)
  {
  }

  lemma PatchKeepsSlot(st: State, id: int, patch: AccountPatch, a: int)
    requires !(id == a && patch.quotaLimit.Some?)
    ensures SlotKept(st, PatchAccount(st, id, patch), a)
  {
  }

  lemma StoreOpKeepsSlot(st: State, op: Op, now: int, a: int)
    requires op.Refresh? || op.ProxySwitch? || op.GroupDelete? || op.GroupCreate? || op.TokenCreate?
      || op.TokenDelete? || op.Cleanup? || op.SetMaxRetries?
    ensures SlotKept(st, Apply(st, op, now), a)
  {
  }

  lemma UploadKeepsSlot(st: State, slug: string, item: UploadItem, quota: Option<int>, c: nat, a: int)
    requires a < st.db.nextAccount
    ensures SlotKept(st, UploadOne(st, slug, item, quota, c), a)
  {
    var up := Uploaded(st, slug, item, quota, c);
    BindOnly(up, st.db.nextAccount, item.registrationIp);
    assert a in up.accounts ==> a in st.accounts && up.accounts[a] == st.accounts[a];
    BindingsKeepSlot(up, BindAccount(up, st.db.nextAccount, item.registrationIp), a);
  }

  lemma ApplyKeepsSlot(st: State, op: Op, now: int, a: int)
    requires a < st.db.nextAccount
    requires !(op.PatchOp? && op.id == a && op.patch.quotaLimit.Some?)
    ensures SlotKept(st, Apply(st, op, now), a)
  {
    match op
    case BindOne(id) => BindOnly(st, id, None); BindingsKeepSlot(st, Apply(st, op, now), a);
    case SyncOp(gid, sub) => SyncOnly(st, gid, sub); BindingsKeepSlot(st, Apply(st, op, now), a);
    case PlatformOp(slug, gids, m) => PatchPlatformOnly(st, slug, gids, m); BindingsKeepSlot(st, Apply(st, op, now), a);
    case Upload(slug, item, quota, c) => UploadKeepsSlot(st, slug, item, quota, c, a);
    case ChangeStatus(id, s) => StatusKeepsSlot(st, id, s, a);
    case Reset => ResetKeepsSlot(st, now, a);
    case DeleteOp(id) => DeleteKeepsSlot(st, id, a);
    case PatchOp(id, patch) => PatchKeepsSlot(st, id, patch, a);
    case _ => StoreOpKeepsSlot(st, op, now, a);
  }

  // ----- steps of requests -----

  lemma EffectsMemoryCount(call: Call, att: Attempt, retries: nat, answer: Answer, a: int)
    ensures Has(Effects(call, att, retries, answer), MemoryCount(a)) ==> a == att.acct
  {
  }

  /** A request's step frees an attempt, keeps it, or takes one by selecting the account. */
  lemma MoveUnrecorded(w: World, ev: Event, a: int)
    requires Enabled(w, ev) && OfRequest(ev) && TodosOk(w)
    ensures var before := ev.r in w.reqs && Unrecorded(a)(w.reqs[ev.r]);
            var after := Unrecorded(a)(NextReq(w, ev));
      && (after ==> before || (ev.SelectNow? && NextReq(w, ev).pc.Chosen? && NextReq(w, ev).pc.att.acct == a))
      && (ev.DoEffect? && w.reqs[ev.r].pc.todo[0] == RecordInMemory(a, true) ==> before && !after)
  {
    match ev
    case Respond(r, answer) =>
      var q := w.reqs[r];
      EffectsMemoryCount(q.call, q.pc.att, q.retries, answer, a);
    case DoEffect(r) => PopHas(w.st, w.reqs[r].pc.todo, MemoryCount(a), 1);
    case _ =>
  }

  lemma PerformSlot(st: State, e: Effect, now: int, a: int)
    ensures CallsAdded(st, Perform(st, e, now), a, Bit(e == RecordInMemory(a, true)))
  {
    if e.RebindAccount? { BindOnly(st, e.acct, None); }
    else if e.RecordInMemory? { RecordedSlot(st, e.acct, e.success, a); }
    else if e.StatusInMemory? { StatusSlot(st, e.acct, e.status, a); }
    else { PerformNoSlot(st, e, now); }
  }

  /** The slot with `n` more calls counted. */
  ghost predicate CallsAdded(st: State, st': State, a: int, n: int) {
    && (a in st'.accounts <==> a in st.accounts)
    && (a in st.accounts ==>
          && st'.accounts[a].platform == st.accounts[a].platform
          && st'.accounts[a].quotaLimit == st.accounts[a].quotaLimit
          && st'.accounts[a].quotaUsed == st.accounts[a].quotaUsed + n)
  }

  lemma RecordedSlot(st: State, id: int, success: bool, a: int)
    ensures CallsAdded(st, RecordMem(st, id, success), a, Bit(id == a && success))
  {
    if id == a {} else {}
  }

  lemma StatusSlot(st: State, id: int, s: AccountStatus, a: int)
    ensures CallsAdded(st, SetStatusMem(st, id, s), a, 0)
  {
    if id == a {} else {}
  }

  /** The effects that leave slots alone. */
  lemma PerformNoSlot(st: State, e: Effect, now: int)
    requires !e.RebindAccount? && !e.RecordInMemory? && !e.StatusInMemory?
    ensures Perform(st, e, now).accounts == st.accounts
  {
  }

  lemma RequestSlot(w: World, ev: Event, a: int)
    requires Enabled(w, ev) && OfRequest(ev)
    ensures CallsAdded(w.st, NextState(w, ev), a,
                       Bit(ev.DoEffect? && w.reqs[ev.r].pc.todo[0] == RecordInMemory(a, true)))
  {
    if ev.DoEffect? { PerformSlot(w.st, w.reqs[ev.r].pc.todo[0], w.now, a); }
  }

  /** Selecting: the account is below its limit, and the selecting request holds a platform
      permit without having an attempt on the account yet. */
  lemma SelectHasRoom(w: World, ev: Event, a: int, slug: string, limit: int, permits: nat)
    requires Enabled(w, ev) && ev.SelectNow? && PlatformOk(w) && OnAccount(w, a, slug, limit, permits)
    requires NextReq(w, ev).pc.Chosen? && NextReq(w, ev).pc.att.acct == a
    ensures a in w.st.accounts && w.st.accounts[a].quotaUsed <= limit - 1
    ensures w.reqs[ev.r].call.platform == slug && Count(w.reqs, Unrecorded(a)) <= permits - 1
  {
    var q := w.reqs[ev.r];
    ChosenIsSchedulable(w.st, q.call.platform, w.now, ev.order);
    assert HoldsPlatform(slug)(q) && !Unrecorded(a)(q);
    UnrecordedHoldPermits(w, a, slug, limit, permits);
    assert Count(w.reqs, HoldsPlatform(slug)) <= permits;
  }

  lemma RequestQuota(w: World, ev: Event, a: int, slug: string, limit: int, permits: nat)
    requires Enabled(w, ev) && OfRequest(ev) && PlatformOk(w) && TodosOk(w)
    requires OnAccount(w, a, slug, limit, permits) && Bounded(w, a, limit, permits)
    ensures Bounded(Next(w, ev), a, limit, permits)
  {
    RequestSlot(w, ev, a);
    MoveUnrecorded(w, ev, a);
    CountUpdate(w.reqs, ev.r, NextReq(w, ev), Unrecorded(a));
    if ev.SelectNow? && NextReq(w, ev).pc.Chosen? && NextReq(w, ev).pc.att.acct == a {
      SelectHasRoom(w, ev, a, slug, limit, permits);
    }
  }

  /** A request with an unrecorded attempt on the account is at work on the account's platform. */
  lemma UnrecordedOnPlatform(w: World, ev: Event, a: int, slug: string, limit: int, permits: nat)
    requires Enabled(w, ev) && OfRequest(ev) && PlatformOk(w) && TodosOk(w)
    requires OnAccount(w, a, slug, limit, permits)
    ensures Unrecorded(a)(NextReq(w, ev)) ==> HoldsPlatform(slug)(NextReq(w, ev))
  {
    MoveUnrecorded(w, ev, a);
    var q' := NextReq(w, ev);
    if ev.SelectNow? && q'.pc.Chosen? && q'.pc.att.acct == a { SelectHasRoom(w, ev, a, slug, limit, permits); }
  }

  lemma RequestOnAccount(w: World, ev: Event, a: int, slug: string, limit: int, permits: nat)
    requires Enabled(w, ev) && OfRequest(ev) && PlatformOk(w) && TodosOk(w)
    requires OnAccount(w, a, slug, limit, permits)
    ensures OnAccount(Next(w, ev), a, slug, limit, permits)
  {
    RequestSlot(w, ev, a);
    RequestKeepsPermits(w, ev);
    UnrecordedOnPlatform(w, ev, a, slug, limit, permits);
    var w' := Next(w, ev);
    forall r | r in w'.reqs && Unrecorded(a)(w'.reqs[r])
      ensures HoldsPlatform(slug)(w'.reqs[r])
    {
      if r != ev.r { assert w'.reqs[r] == w.reqs[r]; }
    }
  }

  lemma OperateQuota(w: World, op: Op, a: int, slug: string, limit: int, permits: nat)
    requires !SetsLimit(Operate(op), a) && PlatformOk(w) && 1 <= limit
    requires OnAccount(w, a, slug, limit, permits) && Bounded(w, a, limit, permits)
    ensures OnAccount(Next(w, Operate(op)), a, slug, limit, permits) && Bounded(Next(w, Operate(op)), a, limit, permits)
  {
    ApplyKeepsSlot(w.st, op, w.now, a);
    ApplyRuntime(w.st, op, w.now);
    UnrecordedHoldPermits(w, a, slug, limit, permits);
    assert Count(w.reqs, HoldsPlatform(slug)) <= permits;
  }

  lemma QuotaStep(w: World, ev: Event, a: int, slug: string, limit: int, permits: nat)
    requires Enabled(w, ev) && 1 <= limit && PlatformOk(w) && TodosOk(w) && !SetsLimit(ev, a)
    requires OnAccount(w, a, slug, limit, permits) && Bounded(w, a, limit, permits)
    ensures OnAccount(Next(w, ev), a, slug, limit, permits) && Bounded(Next(w, ev), a, limit, permits)
  {
    match ev
    case Operate(op) => OperateQuota(w, op, a, slug, limit, permits);
    case Tick(_) =>
    case _ =>
      RequestQuota(w, ev, a, slug, limit, permits);
      RequestOnAccount(w, ev, a, slug, limit, permits);
  }

  lemma BoundedUsed(w: World, a: int, limit: int, permits: nat)
    requires Bounded(w, a, limit, permits)
    ensures a in w.st.accounts ==> w.st.accounts[a].quotaUsed <= limit + permits - 1
  {
  }

  /** With a fixed limit L >= 1 and P platform permits, every run keeps
      quota used + attempts selected and unrecorded <= L - 1 + P on the account, through
      concurrent selections, resets, deletions and everything else, if it held at the start. */
  lemma {:induction false} OvershootIsBounded(w: World, evs: seq<Event>, a: int, slug: string, limit: int, permits: nat)
    requires 1 <= limit && PlatformOk(w) && TodosOk(w) && Runnable(w, evs)
    requires OnAccount(w, a, slug, limit, permits) && Bounded(w, a, limit, permits)
    requires forall i :: 0 <= i < |evs| ==> !SetsLimit(evs[i], a)
    ensures Bounded(Run(w, evs), a, limit, permits)
    ensures a in Run(w, evs).st.accounts ==> Run(w, evs).st.accounts[a].quotaUsed <= limit + permits - 1
    decreases evs
  {
    if evs != [] {
      QuotaStep(w, evs[0], a, slug, limit, permits);
      PlatformStep(w, evs[0]);
      TodosStep(w, evs[0]);
      OvershootIsBounded(Next(w, evs[0]), evs[1..], a, slug, limit, permits);
    }
    BoundedUsed(Run(w, evs), a, limit, permits);
  }

  /** From start-up: a loaded account of a registered platform never exceeds its limit by as much as
      the platform's permits, if it does not at the start and its limit stays. */
  lemma OvershootFromStart(db: Db, decrypt: string -> Option<string>, most: string -> nat, now: int, evs: seq<Event>,
                           a: int, limit: int)
    requires WellFormed(db) && Loads(db, decrypt, a) && Runnable(Boot(db, decrypt, most, now), evs)
    requires db.accounts[a].platform in REGISTERED && db.accounts[a].quotaLimit == Some(limit) && 1 <= limit
    requires db.accounts[a].quotaUsed < limit + Permits(most, db.accounts[a].platform)
    requires forall i :: 0 <= i < |evs| ==> !SetsLimit(evs[i], a)
    ensures var w := Run(Boot(db, decrypt, most, now), evs);
      a in w.st.accounts ==> w.st.accounts[a].quotaUsed < limit + Permits(most, db.accounts[a].platform)
  {
    var w0, slug := Boot(db, decrypt, most, now), db.accounts[a].platform;
    BootPermits(db, decrypt, most, now);
    CountNone(w0.reqs, Unrecorded(a));
    OvershootIsBounded(w0, evs, a, slug, limit, Permits(most, slug));
  }

  /** The permits of a platform configured with maximum `most`. */
  function Permits(most: string -> nat, slug: string): nat {
    if most(slug) < 1 then 1 else most(slug)
  }
}
