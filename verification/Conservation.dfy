/** Conservation over runs: each upstream success ends up in the account's quota, in the token's
    call count and in the log, once each, as long as nothing in use is deleted meanwhile. */
module Conservation {
  import opened Wrappers
  import opened Counting
  import opened Database
  import opened Adapter
  import opened PoolState
  import opened Binding
  import opened Selection
  import opened Sync
  import opened Admin
  import opened Copies
  import opened Forwarding
  import opened Engine
  import opened ExitIps
  import opened Quota
  import opened Accounting
  import opened CopyRuns

  // ----- what a request refers to exists -----

  predicate RowLive(row: LogRow, accts: set<int>, proxies: set<int>, tokens: set<int>) {
    && (row.token.Some? ==> row.token.value in tokens)
    && (row.account.Some? ==> row.account.value in accts)
    && (row.proxy.Some? ==> row.proxy.value in proxies)
  }

  ghost predicate TodoLive(todo: seq<Effect>, accts: set<int>, proxies: set<int>, tokens: set<int>) {
    forall i :: 0 <= i < |todo| && todo[i].LogCall? ==> RowLive(todo[i].row, accts, proxies, tokens)
  }

  ghost predicate ReqLive(q: Req, accts: set<int>, proxies: set<int>, tokens: set<int>) {
    && (!q.pc.Done? && q.call.token.Some? ==> q.call.token.value in tokens)
    && (HasAttempt(q.pc) ==> q.pc.att.acct in accts && q.pc.att.proxy in proxies)
    && (q.pc.Settling? ==> TodoLive(q.pc.todo, accts, proxies, tokens))
  }

  /** No request refers to a row that is gone. */
  ghost predicate AllLive(w: World) {
    forall r :: r in w.reqs ==>
      ReqLive(w.reqs[r], w.st.db.accounts.Keys, w.st.db.proxies.Keys, w.st.db.tokens.Keys)
  }

  lemma EffectsLive(call: Call, att: Attempt, retries: nat, answer: Answer, accts: set<int>, proxies: set<int>,
                    tokens: set<int>)
    requires call.token.Some? ==> call.token.value in tokens
    requires att.acct in accts && att.proxy in proxies
    ensures TodoLive(Effects(call, att, retries, answer), accts, proxies, tokens)
  {
  }

  lemma PopLive(st: State, todo: seq<Effect>, accts: set<int>, proxies: set<int>, tokens: set<int>)
    requires todo != [] && TodoLive(todo, accts, proxies, tokens)
    ensures TodoLive(Leaves(st, todo[0]) + todo[1..], accts, proxies, tokens)
  {
    var left := Leaves(st, todo[0]);
    assert forall i :: 1 <= i < |todo| ==> (left + todo[1..])[|left| + i - 1] == todo[i];
  }

  /** Selection picks a loaded account and a proxy in memory: both exist in a mirrored store. */
  lemma ChosenLive(st: State, platform: string, now: int, order: seq<int>)
    requires Mirrored(st)
    ensures var r := Choose(st, platform, now, order);
      r.Some? ==> r.value.acct in st.db.accounts && r.value.proxy in st.db.proxies
  {
    ChosenIsSchedulable(st, platform, now, order);
    var r := Choose(st, platform, now, order);
    if r.Some? {
      var p := st.accounts[r.value.acct].boundProxy.value;
      assert p in st.proxies <==> p in st.db.proxies;
    }
  }

  lemma NextLive(w: World, ev: Event)
    requires Enabled(w, ev) && OfRequest(ev) && Mirrored(w.st) && AllLive(w)
    requires ev.Arrive? && ev.call.token.Some? ==> ev.call.token.value in w.st.db.tokens
    ensures ReqLive(NextReq(w, ev), w.st.db.accounts.Keys, w.st.db.proxies.Keys, w.st.db.tokens.Keys)
  {
    var accts, proxies, tokens := w.st.db.accounts.Keys, w.st.db.proxies.Keys, w.st.db.tokens.Keys;
    if !ev.Arrive? { assert ReqLive(w.reqs[ev.r], accts, proxies, tokens); }
    match ev
    case SelectNow(r, order) => ChosenLive(w.st, w.reqs[r].call.platform, w.now, order);
    case Respond(r, answer) =>
      var q := w.reqs[r];
      EffectsLive(q.call, q.pc.att, q.retries, answer, accts, proxies, tokens);
    case DoEffect(r) => PopLive(w.st, w.reqs[r].pc.todo, accts, proxies, tokens);
    case _ =>
  }

  lemma PerformKeepsRows(st: State, e: Effect, now: int)
    ensures var db' := Perform(st, e, now).db;
      && db'.accounts.Keys == st.db.accounts.Keys && db'.proxies == st.db.proxies
      && db'.tokens.Keys == st.db.tokens.Keys
  {
    if e.RebindAccount? {
      BindKeepsRows(st, e.acct, None);
    } else {
      PerformKeepsProxies(st, e, now);
      if !e.CountTokenUse? { PerformOtherTokens(st, e, now); }
      if !e.RecordInStore? && !e.StatusInStore? { PerformNoRow(st, e, now); }
    }
  }

  lemma PerformKeepsProxies(st: State, e: Effect, now: int)
    requires !e.RebindAccount?
    ensures Perform(st, e, now).db.proxies == st.db.proxies
  {
  }

  lemma BindKeepsRows(st: State, id: int, ip: Option<string>)
    ensures var db' := BindAccount(st, id, ip).db;
      && db' == st.db.(accounts := db'.accounts) && db'.accounts.Keys == st.db.accounts.Keys
  {
  }

  lemma RequestLive(w: World, ev: Event)
    requires Enabled(w, ev) && OfRequest(ev) && Mirrored(w.st) && AllLive(w)
    requires ev.Arrive? && ev.call.token.Some? ==> ev.call.token.value in w.st.db.tokens
    ensures AllLive(Next(w, ev))
  {
    NextLive(w, ev);
    if ev.DoEffect? { PerformKeepsRows(w.st, w.reqs[ev.r].pc.todo[0], w.now); }
  }

  // ----- what operations do to the log and the tokens -----

  /** The same row, its proxy perhaps dropped since. */
  ghost predicate ButProxy(row: LogRow, row': LogRow) {
    row' == row.(proxy := row'.proxy) && (row'.proxy == row.proxy || row'.proxy.None?)
  }

  /** The same log rows up to their proxies, and the same call counts, perhaps with new tokens. */
  ghost predicate LedgerKept(db: Db, db': Db) {
    && (forall t :: t in db.tokens ==> t in db'.tokens && db'.tokens[t] == db.tokens[t])
    && db'.logs.Keys == db.logs.Keys && db'.nextLog == db.nextLog
    && (forall l :: l in db.logs ==> ButProxy(db.logs[l], db'.logs[l]))
  }

  lemma {:induction false} RebindAllLedger(st: State, ids: seq<int>)
    ensures var db' := RebindAll(st, ids).db;
      && db' == st.db.(accounts := db'.accounts) && db'.accounts.Keys == st.db.accounts.Keys
  {
    if ids != [] {
      RebindAllLedger(st, ids[..|ids| - 1]);
      var mid := RebindAll(st, ids[..|ids| - 1]);
      var id := ids[|ids| - 1];
      if id in mid.db.accounts { BindKeepsRows(mid, id, mid.db.accounts[id].registrationIp); }
    }
  }

  lemma {:induction false} BindEachLedger(st: State, ids: seq<int>)
    ensures var db' := BindEach(st, ids).db;
      && db' == st.db.(accounts := db'.accounts) && db'.accounts.Keys == st.db.accounts.Keys
  {
    if ids != [] {
      BindEachLedger(st, ids[..|ids| - 1]);
      BindKeepsRows(BindEach(st, ids[..|ids| - 1]), ids[|ids| - 1], None);
    }
  }

  lemma SyncLedger(st: State, gid: int, subscription: Option<seq<SubProxy>>)
    ensures LedgerKept(st.db, SyncGroup(st, gid, subscription).db)
  {
    if gid in st.db.groups && subscription.Some? {
      UpsertAllOnly(st.db, gid, subscription.value);
      var st1 := Reload(st.(db := Reconcile(st.db, gid, subscription.value)), gid);
      assert LedgerKept(st.db, st1.db);
      RebindAllLedger(st1, NullAccounts(st1.db, gid, st1.db.nextAccount));
    }
  }

  lemma PatchPlatformLedger(st: State, slug: string, gids: Option<seq<int>>, m: Option<nat>)
    ensures LedgerKept(st.db, PatchPlatform(st, slug, gids, m).db)
  {
    if gids.Some? && LinksAccepted(st.db, slug, gids.value) {
      var st1 := Relink(st, slug, gids.value);
      RelinkOnly(st, slug, gids.value);
      PermitOnly(st1, slug, m);
      var st2 := PermitIfSet(st1, slug, m);
      BindEachLedger(st2, UnboundOn(st2.db, slug, st2.db.nextAccount));
    } else {
      PermitOnly(st, slug, m);
    }
  }

  lemma UploadLedger(st: State, slug: string, item: UploadItem, quota: Option<int>, c: nat)
    ensures LedgerKept(st.db, UploadOne(st, slug, item, quota, c).db)
  {
    BindKeepsRows(Uploaded(st, slug, item, quota, c), st.db.nextAccount, item.registrationIp);
  }

  lemma GroupDeleteLedger(st: State, gid: int)
    ensures LedgerKept(st.db, DeleteGroup(st, gid).db)
  {
  }

  lemma RowsOnlyLedger(db: Db, db': Db)
    requires db' == db.(accounts := db'.accounts)
    ensures LedgerKept(db, db')
  {
  }

  lemma RowOpLedger(st: State, op: Op, now: int)
    requires op.ChangeStatus? || op.Refresh? || op.PatchOp?
    ensures LedgerKept(st.db, Apply(st, op, now).db)
  {
    match op {
      case ChangeStatus(id, s) => StatusRows(st, id, s);
      case Refresh(id, r) => RefreshRows(st, id, r);
      case PatchOp(id, patch) => PatchRows(st, id, patch);
    }
    RowsOnlyLedger(st.db, Apply(st, op, now).db);
  }

  lemma StatusRows(st: State, id: int, s: AccountStatus)
    ensures var db' := SetStatus(st, id, s).db;
      db' == st.db.(accounts := db'.accounts) && st.db.accounts.Keys <= db'.accounts.Keys
  {
    var mem := SetStatusMem(st, id, s);
    assert mem.db == st.db;
    if id in st.db.accounts {
      assert SetStatusDb(mem, id, s).db == WithAccount(st.db, id, st.db.accounts[id].(status := s, failures := 0));
    }
  }

  lemma RefreshRows(st: State, id: int, resetAt: Option<int>)
    ensures var db' := RefreshBalance(st, id, resetAt).db;
      db' == st.db.(accounts := db'.accounts) && st.db.accounts.Keys <= db'.accounts.Keys
  {
  }

  lemma PatchRows(st: State, id: int, patch: AccountPatch)
    ensures var db' := PatchAccount(st, id, patch).db;
      db' == st.db.(accounts := db'.accounts) && st.db.accounts.Keys <= db'.accounts.Keys
  {
  }

  lemma OtherOpLedger(st: State, op: Op, now: int)
    requires WellFormed(st.db)
    requires op.ProxySwitch? || op.GroupCreate? || op.TokenCreate? || op.SetMaxRetries?
    ensures LedgerKept(st.db, Apply(st, op, now).db)
  {
    var db' := Apply(st, op, now).db;
    assert db'.accounts == st.db.accounts && db'.logs == st.db.logs;
  }

  /** The operations that touch log rows beyond their proxies. */
  predicate EditsLog(op: Op) { op.DeleteOp? || op.TokenDelete? || op.Cleanup? }

  lemma ApplyLedger(st: State, op: Op, now: int)
    requires WellFormed(st.db) && !EditsLog(op)
    ensures LedgerKept(st.db, Apply(st, op, now).db)
  {
    match op
    case BindOne(id) => BindKeepsRows(st, id, None);
    case SyncOp(gid, sub) => SyncLedger(st, gid, sub);
    case PlatformOp(slug, gids, m) => PatchPlatformLedger(st, slug, gids, m);
    case Upload(slug, item, quota, c) => UploadLedger(st, slug, item, quota, c);
    case GroupDelete(gid) => GroupDeleteLedger(st, gid);
    case Reset => RowsOnlyLedger(st.db, ResetQuotas(st, now).db);
    case _ =>
      if op.ChangeStatus? || op.Refresh? || op.PatchOp? {
        RowOpLedger(st, op, now);
      } else {
        OtherOpLedger(st, op, now);
      }
  }

  // ----- the totals -----

  /** Rows of successful calls on an account, and on behalf of a token. */
  ghost function SuccessOn(a: int): LogRow -> bool {
    (row: LogRow) => row.success && row.account == Some(a)
  }

  ghost function SuccessFor(t: int): LogRow -> bool {
    (row: LogRow) => row.success && row.token == Some(t)
  }

  ghost function LogTotal(w: World, a: int): int {
    Count(w.st.db.logs, SuccessOn(a)) + Count(w.reqs, Owing(SuccessLog(a)))
  }

  ghost function TokenLogTotal(w: World, t: int): int {
    Count(w.st.db.logs, SuccessFor(t)) + Count(w.reqs, Owing(TokenLog(t)))
  }

  ghost function TokenTotal(w: World, t: int): int
    requires t in w.st.db.tokens
  {
    w.st.db.tokens[t] + Count(w.reqs, Owing(TokenUse(t)))
  }

  /** The event is an upstream success of a request of the token. */
  ghost predicate SucceedsFor(w: World, ev: Event, t: int)
    requires Enabled(w, ev)
  {
    ev.Respond? && EndingOf(w.reqs[ev.r].call, ev.answer) == Answered(Success) && w.reqs[ev.r].call.token == Some(t)
  }

  ghost function SuccessesFor(w: World, evs: seq<Event>, t: int): nat
    requires Runnable(w, evs)
    decreases evs
  {
    if evs == [] then 0 else Bit(SucceedsFor(w, evs[0], t)) + SuccessesFor(Next(w, evs[0]), evs[1..], t)
  }

  lemma PerformLogs(st: State, e: Effect, now: int, p: LogRow -> bool)
    requires WellFormed(st.db) && (e.LogCall? ==> LogAccepted(st.db, e.row))
    ensures Count(Perform(st, e, now).db.logs, p) == Count(st.db.logs, p) + Bit(e.LogCall? && p(e.row))
  {
    if e.LogCall? {
      CountUpdate(st.db.logs, st.db.nextLog, e.row, p);
    } else {
      PerformOtherLogs(st, e, now);
    }
  }

  lemma PerformOtherLogs(st: State, e: Effect, now: int)
    requires !e.LogCall?
    ensures Perform(st, e, now).db.logs == st.db.logs
  {
    if e.RebindAccount? { BindKeepsRows(st, e.acct, None); }
  }

  lemma PerformTokens(st: State, e: Effect, now: int, t: int)
    requires t in st.db.tokens
    ensures var tokens := Perform(st, e, now).db.tokens;
      t in tokens && tokens[t] == st.db.tokens[t] + Bit(e == CountTokenUse(t))
  {
    if e.CountTokenUse? {
      assert Perform(st, e, now).db.tokens
          == if e.token in st.db.tokens then st.db.tokens[e.token := st.db.tokens[e.token] + 1] else st.db.tokens;
      assert e == CountTokenUse(t) <==> e.token == t;
    } else {
      PerformOtherTokens(st, e, now);
    }
  }

  lemma PerformOtherTokens(st: State, e: Effect, now: int)
    requires !e.CountTokenUse?
    ensures Perform(st, e, now).db.tokens == st.db.tokens
  {
    if e.RebindAccount? { BindKeepsRows(st, e.acct, None); }
  }

  lemma RequestLogTotal(w: World, ev: Event, a: int)
    requires Enabled(w, ev) && OfRequest(ev) && TodosOk(w) && Mirrored(w.st) && AllLive(w)
    ensures LogTotal(Next(w, ev), a) == LogTotal(w, a) + Bit(Succeeds(w, ev, a))
  {
    MovePending(w, ev, SuccessLog(a), 6);
    if ev.Respond? {
      var q := w.reqs[ev.r];
      AccountEffects(q.call, q.pc.att, q.retries, ev.answer, a);
    }
    if ev.DoEffect? {
      FirstLogAccepted(w, ev);
      PerformLogs(w.st, w.reqs[ev.r].pc.todo[0], w.now, SuccessOn(a));
    }
  }

  lemma FirstLogAccepted(w: World, ev: Event)
    requires Enabled(w, ev) && ev.DoEffect? && AllLive(w)
    ensures var e := w.reqs[ev.r].pc.todo[0]; e.LogCall? ==> LogAccepted(w.st.db, e.row)
  {
    assert ReqLive(w.reqs[ev.r], w.st.db.accounts.Keys, w.st.db.proxies.Keys, w.st.db.tokens.Keys);
  }

  lemma RequestTokenLogTotal(w: World, ev: Event, t: int)
    requires Enabled(w, ev) && OfRequest(ev) && TodosOk(w) && Mirrored(w.st) && AllLive(w)
    ensures TokenLogTotal(Next(w, ev), t) == TokenLogTotal(w, t) + Bit(SucceedsFor(w, ev, t))
  {
    MovePending(w, ev, TokenLog(t), 6);
    if ev.Respond? {
      var q := w.reqs[ev.r];
      TokenEffects(q.call, q.pc.att, q.retries, ev.answer, t);
    }
    if ev.DoEffect? {
      FirstLogAccepted(w, ev);
      PerformLogs(w.st, w.reqs[ev.r].pc.todo[0], w.now, SuccessFor(t));
    }
  }

  lemma RequestTokenTotal(w: World, ev: Event, t: int)
    requires Enabled(w, ev) && OfRequest(ev) && TodosOk(w) && t in w.st.db.tokens
    ensures t in Next(w, ev).st.db.tokens
    ensures TokenTotal(Next(w, ev), t) == TokenTotal(w, t) + Bit(SucceedsFor(w, ev, t))
  {
    MovePending(w, ev, TokenUse(t), 5);
    if ev.Respond? {
      var q := w.reqs[ev.r];
      TokenEffects(q.call, q.pc.att, q.retries, ev.answer, t);
    }
    if ev.DoEffect? { PerformTokens(w.st, w.reqs[ev.r].pc.todo[0], w.now, t); }
  }

  /** Rows that differ in their proxy at most are counted alike. */
  lemma LedgerCounts(db: Db, db': Db, p: LogRow -> bool)
    requires LedgerKept(db, db') && forall row: LogRow, x :: p(row.(proxy := x)) == p(row)
    ensures Count(db'.logs, p) == Count(db.logs, p)
  {
    forall l | l in db.logs ensures p(db'.logs[l]) == p(db.logs[l]) {
      assert ButProxy(db.logs[l], db'.logs[l]);
      assert db'.logs[l] == db.logs[l].(proxy := db'.logs[l].proxy);
    }
    CountAlike(db.logs, db'.logs, p);
  }

  lemma DeleteOthersCounts(st: State, b: int, a: int, t: int)
    ensures b != a ==> Count(DeleteAccount(st, b).db.logs, SuccessOn(a)) == Count(st.db.logs, SuccessOn(a))
    ensures Count(DeleteAccount(st, b).db.logs, SuccessFor(t)) == Count(st.db.logs, SuccessFor(t))
  {
    var logs, logs' := st.db.logs, DeleteAccount(st, b).db.logs;
    forall l | l in logs
      ensures b != a ==> SuccessOn(a)(logs'[l]) == SuccessOn(a)(logs[l])
      ensures SuccessFor(t)(logs'[l]) == SuccessFor(t)(logs[l])
    {
      assert logs'[l] == ForgetAccount(logs[l], b);
    }
    if b != a { CountAlike(logs, logs', SuccessOn(a)); }
    CountAlike(logs, logs', SuccessFor(t));
  }

  lemma DeleteTokenCounts(st: State, u: int, a: int, t: int)
    ensures Count(DeleteToken(st, u).db.logs, SuccessOn(a)) == Count(st.db.logs, SuccessOn(a))
    ensures u != t ==> Count(DeleteToken(st, u).db.logs, SuccessFor(t)) == Count(st.db.logs, SuccessFor(t))
  {
    var logs, logs' := st.db.logs, DeleteToken(st, u).db.logs;
    forall l | l in logs
      ensures SuccessOn(a)(logs'[l]) == SuccessOn(a)(logs[l])
      ensures u != t ==> SuccessFor(t)(logs'[l]) == SuccessFor(t)(logs[l])
    {
      assert logs'[l] == ForgetToken(logs[l], u);
    }
    CountAlike(logs, logs', SuccessOn(a));
    if u != t { CountAlike(logs, logs', SuccessFor(t)); }
  }

  predicate DropsAccount(ev: Event, a: int) { ev.Operate? && ev.op == DeleteOp(a) }

  predicate DropsToken(ev: Event, t: int) { ev.Operate? && ev.op == TokenDelete(t) }

  lemma OperateTotals(w: World, op: Op, a: int)
    requires WellFormed(w.st.db) && !op.Cleanup? && op != DeleteOp(a)
    ensures LogTotal(Next(w, Event.Operate(op)), a) == LogTotal(w, a)
  {
    if op.DeleteOp? { DeleteOthersCounts(w.st, op.id, a, 0); }
    else if op.TokenDelete? { DeleteTokenCounts(w.st, op.id, a, 0); }
    else {
      ApplyLedger(w.st, op, w.now);
      LedgerCounts(w.st.db, Apply(w.st, op, w.now).db, SuccessOn(a));
    }
  }

  lemma OperateTokenTotals(w: World, op: Op, t: int)
    requires WellFormed(w.st.db) && !op.Cleanup? && op != TokenDelete(t) && t in w.st.db.tokens
    ensures t in Next(w, Event.Operate(op)).st.db.tokens
    ensures TokenLogTotal(Next(w, Event.Operate(op)), t) == TokenLogTotal(w, t)
    ensures TokenTotal(Next(w, Event.Operate(op)), t) == TokenTotal(w, t)
  {
    if op.DeleteOp? { DeleteOthersCounts(w.st, op.id, 0, t); }
    else if op.TokenDelete? { DeleteTokenCounts(w.st, op.id, 0, t); }
    else {
      ApplyLedger(w.st, op, w.now);
      LedgerCounts(w.st.db, Apply(w.st, op, w.now).db, SuccessFor(t));
    }
  }

  // ----- every quiet run -----

  /** An operation deletes nothing an unfinished request refers to, and no log rows; a request
      arrives with a token that exists. Resets, and deletions of anything else, are quiet. */
  ghost predicate Quiet(w: World, ev: Event)
    requires Enabled(w, ev)
  {
    match ev
    case Operate(op) => !op.Cleanup? && AllLive(Next(w, ev))
    case Arrive(_, call) => call.token.Some? ==> call.token.value in w.st.db.tokens
    case _ => true
  }

  ghost predicate QuietRun(w: World, evs: seq<Event>)
    requires Runnable(w, evs)
    decreases evs
  {
    evs == [] || (Quiet(w, evs[0]) && QuietRun(Next(w, evs[0]), evs[1..]))
  }

  ghost predicate Sound(w: World) {
    TodosOk(w) && Mirrored(w.st) && AllLive(w)
  }

  lemma SoundStep(w: World, ev: Event)
    requires Enabled(w, ev) && Sound(w) && Quiet(w, ev)
    ensures Sound(Next(w, ev))
  {
    TodosStep(w, ev);
    MirrorStep(w, ev);
    match ev
    case Operate(_) =>
    case Tick(_) =>
    case _ => RequestLive(w, ev);
  }

  /** On every quiet run an account's successful log rows grow by exactly its upstream successes,
      counting the rows still to be written, as long as the account is there. */
  lemma {:induction false} LogsCountSuccesses(w: World, evs: seq<Event>, a: int)
    requires Sound(w) && Runnable(w, evs) && QuietRun(w, evs)
    requires forall i :: 0 <= i < |evs| ==> !DropsAccount(evs[i], a)
    ensures LogTotal(Run(w, evs), a) == LogTotal(w, a) + Successes(w, evs, a)
    decreases evs
  {
    if evs != [] {
      LogStep(w, evs[0], a);
      SoundStep(w, evs[0]);
      LogsCountSuccesses(Next(w, evs[0]), evs[1..], a);
    }
  }

  lemma LogStep(w: World, ev: Event, a: int)
    requires Enabled(w, ev) && Sound(w) && Quiet(w, ev) && !DropsAccount(ev, a)
    ensures LogTotal(Next(w, ev), a) == LogTotal(w, a) + Bit(Succeeds(w, ev, a))
  {
    match ev
    case Operate(op) => OperateTotals(w, op, a);
    case Tick(_) =>
    case _ => RequestLogTotal(w, ev, a);
  }

  lemma RequestTokens(w: World, ev: Event, t: int)
    requires Enabled(w, ev) && OfRequest(ev) && Sound(w) && t in w.st.db.tokens
    ensures t in Next(w, ev).st.db.tokens
    ensures TokenLogTotal(Next(w, ev), t) == TokenLogTotal(w, t) + Bit(SucceedsFor(w, ev, t))
    ensures TokenTotal(Next(w, ev), t) == TokenTotal(w, t) + Bit(SucceedsFor(w, ev, t))
  {
    RequestTokenLogTotal(w, ev, t);
    RequestTokenTotal(w, ev, t);
  }

  lemma TokenStep(w: World, ev: Event, t: int)
    requires Enabled(w, ev) && Sound(w) && Quiet(w, ev) && !DropsToken(ev, t) && t in w.st.db.tokens
    ensures t in Next(w, ev).st.db.tokens
    ensures TokenLogTotal(Next(w, ev), t) == TokenLogTotal(w, t) + Bit(SucceedsFor(w, ev, t))
    ensures TokenTotal(Next(w, ev), t) == TokenTotal(w, t) + Bit(SucceedsFor(w, ev, t))
  {
    if ev.Operate? { OperateTokenTotals(w, ev.op, t); }
    else if OfRequest(ev) { RequestTokens(w, ev, t); }
  }

  /** And a token's call count and its successful log rows grow by exactly its successes. */
  lemma {:induction false} TokensCountSuccesses(w: World, evs: seq<Event>, t: int)
    requires Sound(w) && Runnable(w, evs) && QuietRun(w, evs) && t in w.st.db.tokens
    requires forall i :: 0 <= i < |evs| ==> !DropsToken(evs[i], t)
    ensures t in Run(w, evs).st.db.tokens
    ensures TokenLogTotal(Run(w, evs), t) == TokenLogTotal(w, t) + SuccessesFor(w, evs, t)
    ensures TokenTotal(Run(w, evs), t) == TokenTotal(w, t) + SuccessesFor(w, evs, t)
    decreases evs
  {
    if evs != [] {
      TokenStep(w, evs[0], t);
      SoundStep(w, evs[0]);
      TokensCountSuccesses(Next(w, evs[0]), evs[1..], t);
    }
  }

  ghost predicate AllDone(w: World) {
    forall r :: r in w.reqs ==> w.reqs[r].pc.Done?
  }

  lemma NothingOwed(w: World, f: Effect -> bool)
    requires AllDone(w)
    ensures Count(w.reqs, Owing(f)) == 0
  {
    forall r | r in w.reqs ensures !Owing(f)(w.reqs[r]) {}
    CountNone(w.reqs, Owing(f));
  }

  /** Over a quiet run without resets between two moments with no request at work, the growth of an account's
      successful log rows, of its quota_used in the store and of its quota_used in memory are
      equal; and so are the growth of a token's successful rows and of its call count. */
  lemma GrowthIsEqual(w: World, evs: seq<Event>, a: int, t: int)
    requires Sound(w) && Runnable(w, evs) && QuietRun(w, evs) && Loaded(w, a) && t in w.st.db.tokens
    requires forall i :: 0 <= i < |evs| ==> !ResetsOrDeletes(evs[i], a) && !DropsToken(evs[i], t)
    requires AllDone(w) && AllDone(Run(w, evs))
    ensures var w' := Run(w, evs);
            var rows := Count(w'.st.db.logs, SuccessOn(a)) - Count(w.st.db.logs, SuccessOn(a));
            var charged := Count(w'.st.db.logs, SuccessFor(t)) - Count(w.st.db.logs, SuccessFor(t));
      && Loaded(w', a) && t in w'.st.db.tokens
      && rows == w'.st.db.accounts[a].quotaUsed - w.st.db.accounts[a].quotaUsed
      && rows == w'.st.accounts[a].quotaUsed - w.st.accounts[a].quotaUsed
      && charged == w'.st.db.tokens[t] - w.st.db.tokens[t]
  {
    QuotaCountsSuccesses(w, evs, a);
    LogsCountSuccesses(w, evs, a);
    TokensCountSuccesses(w, evs, t);
    var w' := Run(w, evs);
    NothingOwed(w, MemoryCount(a)); NothingOwed(w', MemoryCount(a));
    NothingOwed(w, StoreCount(a)); NothingOwed(w', StoreCount(a));
    NothingOwed(w, SuccessLog(a)); NothingOwed(w', SuccessLog(a));
    NothingOwed(w, TokenLog(t)); NothingOwed(w', TokenLog(t));
    NothingOwed(w, TokenUse(t)); NothingOwed(w', TokenUse(t));
  }

  /** Start-up is sound and has no request at work. */
  lemma BootSound(db: Db, decrypt: string -> Option<string>, most: string -> nat, now: int)
    requires WellFormed(db)
    ensures Sound(Boot(db, decrypt, most, now)) && AllDone(Boot(db, decrypt, most, now))
  {
    LoadMirrors(db, decrypt);
    var w := Boot(db, decrypt, most, now);
    assert w.st == LoadAll(db, decrypt).(platPermits := w.st.platPermits);
  }
}
