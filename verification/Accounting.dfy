/** Conservation over runs: what memory counts, what the store counts, what the logs show and what
    the tokens were charged all grow together; and what one request logs. */
module Accounting {
  import opened Wrappers
  import opened Counting
  import opened Database
  import opened Adapter
  import opened PoolState
  import opened Binding
  import opened Selection
  import opened Admin
  import opened Forwarding
  import opened Engine
  import opened ExitIps
  import opened Quota

  // ----- pending effects -----

  /** The requests with an effect satisfying `f` still to do. */
  ghost function Owing(f: Effect -> bool): Req -> bool {
    (q: Req) => q.pc.Settling? && Has(q.pc.todo, f)
  }

  ghost function StoreCount(a: int): Effect -> bool {
    (e: Effect) => e == ReadThenStore(a, true) || (e.RecordInStore? && e.acct == a && e.success)
  }

  ghost function SuccessLog(a: int): Effect -> bool {
    (e: Effect) => e.LogCall? && e.row.success && e.row.account == Some(a)
  }

  ghost function TokenLog(t: int): Effect -> bool {
    (e: Effect) => e.LogCall? && e.row.success && e.row.token == Some(t)
  }

  ghost function TokenUse(t: int): Effect -> bool {
    (e: Effect) => e == CountTokenUse(t)
  }

  /** What a request's step does to the number of requests with a pending `f`-effect: an answer
      can add one, performing the effect removes one, reading before the store half keeps it. */
  lemma MovePending(w: World, ev: Event, f: Effect -> bool, k: nat)
    requires Enabled(w, ev) && OfRequest(ev) && TodosOk(w) && OfKind(f, k)
    ensures Count(Next(w, ev).reqs, Owing(f)) == Count(w.reqs, Owing(f))
      + (if ev.Respond? then
           Bit(Has(Effects(w.reqs[ev.r].call, w.reqs[ev.r].pc.att, w.reqs[ev.r].retries, ev.answer), f))
         else if ev.DoEffect? && f(w.reqs[ev.r].pc.todo[0]) then
           (var left := Leaves(w.st, w.reqs[ev.r].pc.todo[0]);
            Bit(left != [] && f(left[0])) - 1)
         else if ev.DoEffect? && Kind(w.reqs[ev.r].pc.todo[0]) == k then
           (var left := Leaves(w.st, w.reqs[ev.r].pc.todo[0]);
            Bit(left != [] && f(left[0])))
         else 0)
  {
    CountUpdate(w.reqs, ev.r, NextReq(w, ev), Owing(f));
    if ev.DoEffect? { PopHas(w.st, w.reqs[ev.r].pc.todo, f, k); }
  }

  /** The effects of an answer contain a success's records all together or not at all. */
  lemma AccountEffects(call: Call, att: Attempt, retries: nat, answer: Answer, a: int)
    ensures var todo := Effects(call, att, retries, answer);
            var counted := EndingOf(call, answer) == Answered(Success) && att.acct == a;
      && (Has(todo, MemoryCount(a)) <==> counted)
      && (Has(todo, StoreCount(a)) <==> counted)
      && (Has(todo, SuccessLog(a)) <==> counted)
  {
    var todo := Effects(call, att, retries, answer);
    var k := if att.exitIp.Some? then 1 else 0;
    if EndingOf(call, answer) == Answered(Success) {
      assert todo[k] == RecordInMemory(att.acct, true);
      assert todo[k + 1] == ReadThenStore(att.acct, true);
      assert todo[|todo| - 1] == LogCall(CallRow(call, att, Some(answer.code), retries, true));
      if att.acct == a {
        assert MemoryCount(a)(todo[k]) && StoreCount(a)(todo[k + 1]) && SuccessLog(a)(todo[|todo| - 1]);
      }
    }
  }

  lemma TokenEffects(call: Call, att: Attempt, retries: nat, answer: Answer, t: int)
    ensures var todo := Effects(call, att, retries, answer);
            var counted := EndingOf(call, answer) == Answered(Success) && call.token == Some(t);
      && (Has(todo, TokenUse(t)) <==> counted)
      && (Has(todo, TokenLog(t)) <==> counted)
  {
    var todo := Effects(call, att, retries, answer);
    var k := if att.exitIp.Some? then 1 else 0;
    if EndingOf(call, answer) == Answered(Success) {
      assert todo[|todo| - 1] == LogCall(CallRow(call, att, Some(answer.code), retries, true));
      if call.token == Some(t) {
        assert todo[k + 2] == CountTokenUse(t);
        assert TokenUse(t)(todo[k + 2]) && TokenLog(t)(todo[|todo| - 1]);
      }
    }
  }

  // ----- memory against the store -----

  ghost predicate Loaded(w: World, a: int) {
    a in w.st.accounts && a in w.st.db.accounts && a < w.st.db.nextAccount
  }

  /** What memory counts on the account, with the successes it has still to count. */
  ghost function MemoryTotal(w: World, a: int): int
    requires Loaded(w, a)
  {
    w.st.accounts[a].quotaUsed + Count(w.reqs, Owing(MemoryCount(a)))
  }

  ghost function StoreTotal(w: World, a: int): int
    requires Loaded(w, a)
  {
    w.st.db.accounts[a].quotaUsed + Count(w.reqs, Owing(StoreCount(a)))
  }

  /** The event is an upstream success on the account. */
  ghost predicate Succeeds(w: World, ev: Event, a: int)
    requires Enabled(w, ev)
  {
    ev.Respond? && EndingOf(w.reqs[ev.r].call, ev.answer) == Answered(Success) && w.reqs[ev.r].pc.att.acct == a
  }

  /** How many upstream successes a run has on the account. */
  ghost function Successes(w: World, evs: seq<Event>, a: int): nat
    requires Runnable(w, evs)
    decreases evs
  {
    if evs == [] then 0 else Bit(Succeeds(w, evs[0], a)) + Successes(Next(w, evs[0]), evs[1..], a)
  }

  predicate ResetsOrDeletes(ev: Event, a: int) {
    ev.Operate? && (ev.op.Reset? || (ev.op.DeleteOp? && ev.op.id == a))
  }

  ghost predicate UsedKept(st: State, st': State, a: int)
    requires a in st.accounts && a in st.db.accounts
  {
    && a in st'.accounts && a in st'.db.accounts && a < st'.db.nextAccount
    && st'.accounts[a].quotaUsed == st.accounts[a].quotaUsed
    && st'.db.accounts[a].quotaUsed == st.db.accounts[a].quotaUsed
  }

  lemma BindingsKeepUsed(st: State, st': State, a: int)
    requires a in st.accounts && a in st.db.accounts && a < st.db.nextAccount <= st'.db.nextAccount
    requires SlotsButBinding(st.accounts, st'.accounts) && RowsButBinding(st.db.accounts, st'.db.accounts)
    ensures UsedKept(st, st', a)
  {
    assert st'.accounts[a].quotaUsed == st.accounts[a].quotaUsed;
  }

  lemma UploadKeepsUsed(st: State, slug: string, item: UploadItem, quota: Option<int>, c: nat, a: int)
    requires a in st.accounts && a in st.db.accounts && a < st.db.nextAccount
    ensures UsedKept(st, UploadOne(st, slug, item, quota, c), a)
  {
    var up := Uploaded(st, slug, item, quota, c);
    BindOnly(up, st.db.nextAccount, item.registrationIp);
    assert UsedKept(st, up, a);
    BindingsKeepUsed(up, BindAccount(up, st.db.nextAccount, item.registrationIp), a);
  }

  /** Replacing one slot and one row by ones with the same counts. */
  lemma ReplacingKeepsUsed(st: State, id: int, slot: AccountSlot, row: AccountRow, a: int)
    requires a in st.accounts && a in st.db.accounts && a < st.db.nextAccount
    requires id in st.accounts ==> slot.quotaUsed == st.accounts[id].quotaUsed
    requires id in st.db.accounts ==> row.quotaUsed == st.db.accounts[id].quotaUsed
    ensures UsedKept(st, st.(accounts := st.accounts[id := slot], db := WithAccount(st.db, id, row)), a)
    ensures UsedKept(st, st.(accounts := st.accounts[id := slot]), a)
    ensures UsedKept(st, st.(db := WithAccount(st.db, id, row)), a)
  {
  }

  lemma StatusKeepsUsed(st: State, id: int, s: AccountStatus, a: int)
    requires a in st.accounts && a in st.db.accounts && a < st.db.nextAccount
    ensures UsedKept(st, SetStatus(st, id, s), a)
  {
    var mem := SetStatusMem(st, id, s);
    var slot := if id in st.accounts then st.accounts[id].(status := s, failures := 0) else st.accounts[a];
    var row := if id in st.db.accounts then st.db.accounts[id].(status := s, failures := 0) else st.db.accounts[a];
    ReplacingKeepsUsed(st, id, slot, row, a);
  }

  lemma PatchKeepsUsed(st: State, id: int, patch: AccountPatch, a: int)
    requires a in st.accounts && a in st.db.accounts && a < st.db.nextAccount
    ensures UsedKept(st, PatchAccount(st, id, patch), a)
  {
    var slot := if id in st.accounts then PatchSlot(st.accounts[id], patch) else st.accounts[a];
    var row := if id in st.db.accounts then PatchRow(st.db.accounts[id], patch) else st.db.accounts[a];
    ReplacingKeepsUsed(st, id, slot, row, a);
  }

  lemma RefreshKeepsUsed(st: State, id: int, resetAt: Option<int>, a: int)
    requires a in st.accounts && a in st.db.accounts && a < st.db.nextAccount
    ensures UsedKept(st, RefreshBalance(st, id, resetAt), a)
  {
    if id in st.db.accounts {
      var row := st.db.accounts[id].(resetAt := resetAt);
      ReplacingKeepsUsed(st, id, if id in st.accounts then st.accounts[id] else st.accounts[a], row, a);
    }
  }

  lemma DeleteKeepsUsed(st: State, id: int, a: int)
    requires a in st.accounts && a in st.db.accounts && a < st.db.nextAccount && id != a
    ensures UsedKept(st, DeleteAccount(st, id), a)
  {
  }

  lemma StoreOpKeepsUsed(st: State, op: Op, now: int, a: int)
    requires a in st.accounts && a in st.db.accounts && a < st.db.nextAccount
    requires op.ProxySwitch? || op.GroupDelete? || op.GroupCreate? || op.TokenCreate?
      || op.TokenDelete? || op.Cleanup? || op.SetMaxRetries?
    ensures UsedKept(st, Apply(st, op, now), a)
  {
  }

  lemma ApplyKeepsUsed(st: State, op: Op, now: int, a: int)
    requires a in st.accounts && a in st.db.accounts && a < st.db.nextAccount
    requires !op.Reset? && !(op.DeleteOp? && op.id == a)
    ensures UsedKept(st, Apply(st, op, now), a)
  {
    match op
    case BindOne(id) => BindOnly(st, id, None); BindingsKeepUsed(st, Apply(st, op, now), a);
    case SyncOp(gid, sub) => SyncOnly(st, gid, sub); BindingsKeepUsed(st, Apply(st, op, now), a);
    case PlatformOp(slug, gids, m) => PatchPlatformOnly(st, slug, gids, m); BindingsKeepUsed(st, Apply(st, op, now), a);
    case Upload(slug, item, quota, c) => UploadKeepsUsed(st, slug, item, quota, c, a);
    case ChangeStatus(id, s) => StatusKeepsUsed(st, id, s, a);
    case PatchOp(id, patch) => PatchKeepsUsed(st, id, patch, a);
    case Refresh(id, r) => RefreshKeepsUsed(st, id, r, a);
    case DeleteOp(id) => DeleteKeepsUsed(st, id, a);
    case _ => StoreOpKeepsUsed(st, op, now, a);
  }

  lemma PerformUsed(st: State, e: Effect, now: int, a: int)
    requires a in st.accounts && a in st.db.accounts && a < st.db.nextAccount
    ensures var st' := Perform(st, e, now);
      && a in st'.accounts && a in st'.db.accounts && a < st'.db.nextAccount
      && st'.accounts[a].quotaUsed == st.accounts[a].quotaUsed + Bit(e == RecordInMemory(a, true))
      && st'.db.accounts[a].quotaUsed
           == st.db.accounts[a].quotaUsed + Bit(e.RecordInStore? && e.acct == a && e.success)
  {
    PerformSlot(st, e, now, a);
    PerformRuntime(st, e, now);
    if e.RebindAccount? { BindOnly(st, e.acct, None); } else { PerformRow(st, e, now, a); }
  }

  /** The effects that leave account rows alone. */
  lemma PerformNoRow(st: State, e: Effect, now: int)
    requires !e.RebindAccount? && !e.RecordInStore? && !e.StatusInStore?
    ensures Perform(st, e, now).db.accounts == st.db.accounts
  {
  }

  lemma RecordRowUsed(st: State, id: int, success: bool, seen: Option<AccountStatus>, a: int)
    requires a in st.db.accounts
    ensures var rows := RecordDb(st, id, success, seen).db.accounts;
      a in rows && rows[a].quotaUsed == st.db.accounts[a].quotaUsed + Bit(id == a && success)
  {
    if id == a {} else {}
  }

  lemma StatusRowUsed(st: State, id: int, s: AccountStatus, a: int)
    requires a in st.db.accounts
    ensures var rows := SetStatusDb(st, id, s).db.accounts;
      a in rows && rows[a].quotaUsed == st.db.accounts[a].quotaUsed
  {
  }

  lemma PerformRow(st: State, e: Effect, now: int, a: int)
    requires a in st.db.accounts && !e.RebindAccount?
    ensures var rows := Perform(st, e, now).db.accounts;
      && a in rows
      && rows[a].quotaUsed == st.db.accounts[a].quotaUsed + Bit(e.RecordInStore? && e.acct == a && e.success)
  {
    if e.RecordInStore? { RecordRowUsed(st, e.acct, e.success, e.seen, a); }
    else if e.StatusInStore? { StatusRowUsed(st, e.acct, e.status, a); }
    else { PerformNoRow(st, e, now); }
  }

  lemma RequestMemoryTotal(w: World, ev: Event, a: int)
    requires Enabled(w, ev) && OfRequest(ev) && TodosOk(w) && Loaded(w, a)
    ensures Loaded(Next(w, ev), a) && MemoryTotal(Next(w, ev), a) == MemoryTotal(w, a) + Bit(Succeeds(w, ev, a))
  {
    MovePending(w, ev, MemoryCount(a), 1);
    if ev.Respond? {
      var q := w.reqs[ev.r];
      AccountEffects(q.call, q.pc.att, q.retries, ev.answer, a);
    }
    if ev.DoEffect? { PerformUsed(w.st, w.reqs[ev.r].pc.todo[0], w.now, a); }
  }

  lemma RequestStoreTotal(w: World, ev: Event, a: int)
    requires Enabled(w, ev) && OfRequest(ev) && TodosOk(w) && Loaded(w, a)
    ensures Loaded(Next(w, ev), a) && StoreTotal(Next(w, ev), a) == StoreTotal(w, a) + Bit(Succeeds(w, ev, a))
  {
    MovePending(w, ev, StoreCount(a), 2);
    if ev.Respond? {
      var q := w.reqs[ev.r];
      AccountEffects(q.call, q.pc.att, q.retries, ev.answer, a);
    }
    if ev.DoEffect? { PerformUsed(w.st, w.reqs[ev.r].pc.todo[0], w.now, a); }
  }

  lemma UsedStep(w: World, ev: Event, a: int)
    requires Enabled(w, ev) && TodosOk(w) && Loaded(w, a) && !ResetsOrDeletes(ev, a)
    ensures Loaded(Next(w, ev), a)
    ensures MemoryTotal(Next(w, ev), a) == MemoryTotal(w, a) + Bit(Succeeds(w, ev, a))
    ensures StoreTotal(Next(w, ev), a) == StoreTotal(w, a) + Bit(Succeeds(w, ev, a))
  {
    match ev
    case Operate(op) => ApplyKeepsUsed(w.st, op, w.now, a);
    case Tick(_) =>
    case _ =>
      RequestMemoryTotal(w, ev, a);
      RequestStoreTotal(w, ev, a);
  }

  /** Without resets, and while the account exists, memory and store both end up counting exactly
      the upstream successes of the run, on every run. */
  lemma {:induction false} QuotaCountsSuccesses(w: World, evs: seq<Event>, a: int)
    requires TodosOk(w) && Runnable(w, evs) && Loaded(w, a)
    requires forall i :: 0 <= i < |evs| ==> !ResetsOrDeletes(evs[i], a)
    ensures Loaded(Run(w, evs), a)
    ensures MemoryTotal(Run(w, evs), a) == MemoryTotal(w, a) + Successes(w, evs, a)
    ensures StoreTotal(Run(w, evs), a) == StoreTotal(w, a) + Successes(w, evs, a)
    decreases evs
  {
    if evs != [] {
      var ev := evs[0];
      UsedStep(w, ev, a);
      TodosStep(w, ev);
      QuotaCountsSuccesses(Next(w, ev), evs[1..], a);
    }
  }

  // ----- between the two halves -----

  /** The memory half of a record is followed by its store half. */
  ghost predicate Paired(todo: seq<Effect>) {
    forall i :: 0 <= i < |todo| && todo[i].RecordInMemory? ==>
      i + 1 < |todo| && todo[i + 1] == ReadThenStore(todo[i].acct, todo[i].success)
  }

  ghost predicate PairsOk(w: World) {
    forall r :: r in w.reqs && w.reqs[r].pc.Settling? ==> Paired(w.reqs[r].pc.todo)
  }

  lemma EffectsPaired(call: Call, att: Attempt, retries: nat, answer: Answer)
    ensures Paired(Effects(call, att, retries, answer))
  {
  }

  lemma PopPaired(st: State, todo: seq<Effect>)
    requires todo != [] && Paired(todo)
    ensures Paired(Leaves(st, todo[0]) + todo[1..])
  {
    var left := Leaves(st, todo[0]);
    assert forall i :: 1 <= i < |todo| ==> (left + todo[1..])[|left| + i - 1] == todo[i];
  }

  lemma PairsStep(w: World, ev: Event)
    requires Enabled(w, ev) && PairsOk(w)
    ensures PairsOk(Next(w, ev))
  {
    if ev.Respond? {
      var q := w.reqs[ev.r];
      EffectsPaired(q.call, q.pc.att, q.retries, ev.answer);
    } else if ev.DoEffect? {
      PopPaired(w.st, w.reqs[ev.r].pc.todo);
    }
  }

  lemma {:induction false} RunKeepsPairs(w: World, evs: seq<Event>)
    requires PairsOk(w) && Runnable(w, evs)
    ensures PairsOk(Run(w, evs))
    decreases evs
  {
    if evs != [] {
      PairsStep(w, evs[0]);
      RunKeepsPairs(Next(w, evs[0]), evs[1..]);
    }
  }

  /** The call has passed the memory half of its record and not yet the store half. */
  ghost function BetweenHalves(a: int): Req -> bool {
    (q: Req) => q.pc.Settling? && Has(q.pc.todo, StoreCount(a)) && !Has(q.pc.todo, MemoryCount(a))
  }

  lemma PairedPending(todo: seq<Effect>, a: int)
    requires Paired(todo) && Has(todo, MemoryCount(a))
    ensures Has(todo, StoreCount(a))
  {
    var i :| 0 <= i < |todo| && MemoryCount(a)(todo[i]);
    assert StoreCount(a)(todo[i + 1]);
  }

  /** Without resets, and while the account exists, memory's quota_used stays ahead of the store's
      by exactly the calls between the two halves of their record, on every run. */
  lemma MemoryAheadByCallsInBetween(w: World, evs: seq<Event>, a: int)
    requires TodosOk(w) && PairsOk(w) && Runnable(w, evs) && Loaded(w, a)
    requires forall i :: 0 <= i < |evs| ==> !ResetsOrDeletes(evs[i], a)
    requires w.st.accounts[a].quotaUsed == w.st.db.accounts[a].quotaUsed + Count(w.reqs, BetweenHalves(a))
    ensures Loaded(Run(w, evs), a)
    ensures Run(w, evs).st.accounts[a].quotaUsed
         == Run(w, evs).st.db.accounts[a].quotaUsed + Count(Run(w, evs).reqs, BetweenHalves(a))
  {
    QuotaCountsSuccesses(w, evs, a);
    RunKeepsPairs(w, evs);
    CountBetween(w, a);
    CountBetween(Run(w, evs), a);
  }

  /** So from start-up, for every account that is loaded. */
  lemma MemoryAheadFromStart(db: Db, decrypt: string -> Option<string>, most: string -> nat, now: int, evs: seq<Event>,
                             a: int)
    requires WellFormed(db) && Loads(db, decrypt, a) && Runnable(Boot(db, decrypt, most, now), evs)
    requires forall i :: 0 <= i < |evs| ==> !ResetsOrDeletes(evs[i], a)
    ensures var w := Run(Boot(db, decrypt, most, now), evs);
      && Loaded(w, a)
      && w.st.accounts[a].quotaUsed == w.st.db.accounts[a].quotaUsed + Count(w.reqs, BetweenHalves(a))
  {
    var w0 := Boot(db, decrypt, most, now);
    CountNone(w0.reqs, BetweenHalves(a));
    MemoryAheadByCallsInBetween(w0, evs, a);
  }

  lemma CountBetween(w: World, a: int)
    requires PairsOk(w)
    ensures Count(w.reqs, Owing(StoreCount(a)))
         == Count(w.reqs, Owing(MemoryCount(a))) + Count(w.reqs, BetweenHalves(a))
  {
    forall r | r in w.reqs && Owing(MemoryCount(a))(w.reqs[r]) ensures Owing(StoreCount(a))(w.reqs[r]) {
      PairedPending(w.reqs[r].pc.todo, a);
    }
    CountDifference(w.reqs, Owing(MemoryCount(a)), Owing(StoreCount(a)), BetweenHalves(a));
  }
}
