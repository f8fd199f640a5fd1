/** The gateway at work: any number of requests, each a small state machine, interleaved with one
    another, with the workers' and administrators' operations and with the clock. Requests are not
    cancelled. Upstream answers are arbitrary. */
module Engine {
  import opened Wrappers
  import opened Counting
  import opened Database
  import opened PoolState
  import opened Binding
  import opened Selection
  import opened Sync
  import opened Admin
  import opened Forwarding

  /** Where a request stands. `guarded` says whether it holds an account permit: it does unless
      the account was deleted before the permit was looked up. */
  datatype Pc =
    | AwaitPlatform
    | Choosing
    | Diagnosing
    | Chosen(att: Attempt)
    | CountedIp(att: Attempt)
    | AwaitAccount(att: Attempt)
    | Sending(att: Attempt, guarded: bool)
    | Settling(att: Attempt, guarded: bool, todo: seq<Effect>)
    | Done(result: Result)

  /** `endings` and `submitted` record how the attempts ended and which log rows were submitted. */
  datatype Req = Req(call: Call, pc: Pc, retries: nat, maxRetries: nat, endings: seq<Ending>, submitted: seq<LogRow>)

  /** `sems` holds the capacity of every account semaphore ever made: a deleted account's lives on
      in the requests that hold it. */
  datatype World = World(st: State, sems: map<int, nat>, reqs: map<int, Req>, now: int)

  datatype Event =
    | Arrive(r: int, call: Call)
    | EnterPlatform(r: int)
    | SelectNow(r: int, order: seq<int>)
    | DiagnoseNone(r: int, order: seq<int>)
    | CountIp(r: int)
    | LookUpPermit(r: int)
    | EnterAccount(r: int)
    | Respond(r: int, answer: Answer)
    | DoEffect(r: int)
    | Finish(r: int)
    | Operate(op: Op)
    | Tick(d: nat)

  predicate HasAttempt(pc: Pc) {
    pc.Chosen? || pc.CountedIp? || pc.AwaitAccount? || pc.Sending? || pc.Settling?
  }

  function HoldsPlatform(slug: string): Req -> bool {
    (q: Req) => q.call.platform == slug && !q.pc.AwaitPlatform? && !q.pc.Done?
  }

  function HoldsAccount(a: int): Req -> bool {
    (q: Req) => (q.pc.Sending? || q.pc.Settling?) && q.pc.guarded && q.pc.att.acct == a
  }

  ghost predicate Enabled(w: World, ev: Event) {
    match ev
    case Arrive(r, _) => r !in w.reqs
    case EnterPlatform(r) =>
      r in w.reqs && w.reqs[r].pc.AwaitPlatform?
      && var slug := w.reqs[r].call.platform;
         slug in w.st.platPermits && Count(w.reqs, HoldsPlatform(slug)) < w.st.platPermits[slug]
    case SelectNow(r, order) => r in w.reqs && w.reqs[r].pc.Choosing? && Enumerates(order, w.st.accounts)
    case DiagnoseNone(r, order) => r in w.reqs && w.reqs[r].pc.Diagnosing? && Enumerates(order, w.st.accounts)
    case CountIp(r) => r in w.reqs && w.reqs[r].pc.Chosen?
    case LookUpPermit(r) => r in w.reqs && w.reqs[r].pc.CountedIp?
    case EnterAccount(r) =>
      r in w.reqs && w.reqs[r].pc.AwaitAccount?
      && var a := w.reqs[r].pc.att.acct;
         a in w.sems && Count(w.reqs, HoldsAccount(a)) < w.sems[a]
    case Respond(r, _) => r in w.reqs && w.reqs[r].pc.Sending?
    case DoEffect(r) => r in w.reqs && w.reqs[r].pc.Settling? && w.reqs[r].pc.todo != []
    case Finish(r) => r in w.reqs && w.reqs[r].pc.Settling? && w.reqs[r].pc.todo == [] && w.reqs[r].endings != []
    case Operate(_) => true
    case Tick(_) => true
  }

  predicate OfRequest(ev: Event) { !ev.Operate? && !ev.Tick? }

  function Arriving(st: State, call: Call): Req {
    Req(call,
        if call.platform !in REGISTERED then Done(NotRegistered)
        else if call.platform !in st.platPermits then Done(NotReady)
        else AwaitPlatform,
        0, 0, [], [])
  }

  function Finished(q: Req): Req
    requires q.endings != []
  {
    var last := q.endings[|q.endings| - 1];
    if Final(last) then q.(pc := Done(Passed(last)))
    else
      var retries := (q.retries + 1) % U32_LIMIT;
      if retries > q.maxRetries then q.(pc := Done(Exhausted))
      else q.(pc := Choosing, retries := retries)
  }

  /** The request after its own step. */
  ghost function NextReq(w: World, ev: Event): Req
    requires Enabled(w, ev) && OfRequest(ev)
  {
    match ev
    case Arrive(r, call) => Arriving(w.st, call)
    case EnterPlatform(r) => w.reqs[r].(pc := Choosing, retries := 0, maxRetries := ReadMaxRetries(w.st.db.maxRetries))
    case SelectNow(r, order) =>
      var q := w.reqs[r];
      var chosen := Choose(w.st, q.call.platform, w.now, order);
      q.(pc := if chosen.Some? then Chosen(chosen.value) else Diagnosing)
    case DiagnoseNone(r, order) =>
      var q := w.reqs[r];
      q.(pc := Done(NoAccount(Diagnose(w.st, q.call.platform, w.now, order))))
    case CountIp(r) => w.reqs[r].(pc := CountedIp(w.reqs[r].pc.att))
    case LookUpPermit(r) =>
      var att := w.reqs[r].pc.att;
      w.reqs[r].(pc := if att.acct in w.st.acctPermits then AwaitAccount(att) else Sending(att, false))
    case EnterAccount(r) => w.reqs[r].(pc := Sending(w.reqs[r].pc.att, true))
    case Respond(r, answer) =>
      var q := w.reqs[r];
      q.(pc := Settling(q.pc.att, q.pc.guarded, Effects(q.call, q.pc.att, q.retries, answer)),
         endings := q.endings + [EndingOf(q.call, answer)])
    case DoEffect(r) =>
      var q := w.reqs[r];
      var e := q.pc.todo[0];
      q.(pc := q.pc.(todo := Leaves(w.st, e) + q.pc.todo[1..]),
         submitted := q.submitted + (if e.LogCall? then [e.row] else []))
    case Finish(r) => Finished(w.reqs[r])
  }

  /** The pools after a request's step. */
  ghost function NextState(w: World, ev: Event): State
    requires Enabled(w, ev) && OfRequest(ev)
  {
    match ev
    case CountIp(r) =>
      var ip := w.reqs[r].pc.att.exitIp;
      if ip.Some? then IncExitIp(w.st, ip.value) else w.st
    case DoEffect(r) => Perform(w.st, w.reqs[r].pc.todo[0], w.now)
    case _ => w.st
  }

  ghost function Next(w: World, ev: Event): World
    requires Enabled(w, ev)
  {
    match ev
    case Operate(op) =>
      var st := Apply(w.st, op, w.now);
      w.(st := st, sems := w.sems + st.acctPermits)
    case Tick(d) => w.(now := w.now + d)
    case _ => w.(st := NextState(w, ev), reqs := w.reqs[ev.r := NextReq(w, ev)])
  }

  ghost predicate Runnable(w: World, evs: seq<Event>)
    decreases evs
  {
    evs == [] || (Enabled(w, evs[0]) && Runnable(Next(w, evs[0]), evs[1..]))
  }

  ghost function Run(w: World, evs: seq<Event>): World
    requires Runnable(w, evs)
    decreases evs
  {
    if evs == [] then w else Run(Next(w, evs[0]), evs[1..])
  }

  /** Start-up: everything loaded, a permit for each registered platform, no requests. */
  function Boot(db: Db, decrypt: string -> Option<string>, most: string -> nat, now: int): World {
    var st := LoadAll(db, decrypt).(platPermits := map s | s in REGISTERED :: if most(s) < 1 then 1 else most(s));
    World(st, st.acctPermits, map[], now)
  }

  // ----- what operations and effects leave alone -----

  ghost predicate SameRuntime(st: State, st': State) {
    && st'.busy == st.busy && st'.limitedUntil == st.limitedUntil
    && st'.acctPermits == st.acctPermits && st'.platPermits == st.platPermits
    && st'.db.nextAccount == st.db.nextAccount && st'.accounts.Keys == st.accounts.Keys
  }

  ghost predicate SlotsButBinding(slots: map<int, AccountSlot>, slots': map<int, AccountSlot>) {
    slots'.Keys == slots.Keys && forall a :: a in slots ==> slots'[a] == slots[a].(boundProxy := slots'[a].boundProxy)
  }

  ghost predicate RowsButBinding(rows: map<int, AccountRow>, rows': map<int, AccountRow>) {
    rows'.Keys == rows.Keys && forall a :: a in rows ==> rows'[a] == rows[a].(boundProxy := rows'[a].boundProxy)
  }

  /** Of the accounts, nothing but their bindings changes. */
  ghost predicate OnlyBindings(st: State, st': State) {
    && SameRuntime(st, st')
    && SlotsButBinding(st.accounts, st'.accounts) && RowsButBinding(st.db.accounts, st'.db.accounts)
  }

  lemma BindingsTransitive(a: State, b: State, c: State)
    requires OnlyBindings(a, b) && OnlyBindings(b, c)
    ensures OnlyBindings(a, c)
  {
  }

  lemma BindOnly(st: State, id: int, ip: Option<string>)
    ensures OnlyBindings(st, BindAccount(st, id, ip))
  {
    if id in st.db.accounts {
      var choice := ChooseProxy(st.db, st.db.accounts[id].platform, ip);
      if choice.Some? {
        var st' := BindAccount(st, id, ip);
        assert st'.db.accounts == st.db.accounts[id := st.db.accounts[id].(boundProxy := choice)];
        assert id in st.accounts ==> st'.accounts == st.accounts[id := st.accounts[id].(boundProxy := choice)];
      }
    }
  }

  lemma {:induction false} RebindAllOnly(st: State, ids: seq<int>)
    ensures OnlyBindings(st, RebindAll(st, ids))
  {
    if ids != [] {
      var mid := RebindAll(st, ids[..|ids| - 1]);
      var id := ids[|ids| - 1];
      RebindAllOnly(st, ids[..|ids| - 1]);
      if id in mid.db.accounts { BindOnly(mid, id, mid.db.accounts[id].registrationIp); }
      BindingsTransitive(st, mid, RebindAll(st, ids));
    }
  }

  lemma {:induction false} BindEachOnly(st: State, ids: seq<int>)
    ensures OnlyBindings(st, BindEach(st, ids))
  {
    if ids != [] {
      var mid := BindEach(st, ids[..|ids| - 1]);
      BindEachOnly(st, ids[..|ids| - 1]);
      BindOnly(mid, ids[|ids| - 1], None);
      BindingsTransitive(st, mid, BindEach(st, ids));
    }
  }

  lemma {:induction false} UpsertAllOnly(db: Db, gid: int, sub: seq<SubProxy>)
    ensures var db' := UpsertAll(db, gid, sub);
      db' == db.(proxies := db'.proxies, nextProxy := db'.nextProxy)
  {
    if sub != [] { UpsertAllOnly(db, gid, sub[..|sub| - 1]); }
  }

  lemma SyncOnly(st: State, gid: int, subscription: Option<seq<SubProxy>>)
    ensures OnlyBindings(st, SyncGroup(st, gid, subscription))
  {
    if gid in st.db.groups && subscription.Some? {
      UpsertAllOnly(st.db, gid, subscription.value);
      var st1 := Reload(st.(db := Reconcile(st.db, gid, subscription.value)), gid);
      var ids := NullAccounts(st1.db, gid, st1.db.nextAccount);
      RebindAllOnly(st1, ids);
      BindingsTransitive(st, st1, RebindAll(st1, ids));
    }
  }

  ghost predicate PlatformPermitsGrow(before: map<string, nat>, after: map<string, nat>) {
    && (forall s :: s in before ==> s in after && after[s] == before[s])
    && (forall s :: s in after && s !in before ==> 1 <= after[s])
  }

  lemma PermitOnly(st: State, slug: string, m: Option<nat>)
    ensures var st' := PermitIfSet(st, slug, m);
      && st' == st.(platPermits := st'.platPermits) && PlatformPermitsGrow(st.platPermits, st'.platPermits)
  {
  }

  lemma RelinkOnly(st: State, slug: string, gids: seq<int>)
    ensures var st' := Relink(st, slug, gids); st' == st.(db := st.db.(links := st'.db.links))
  {
  }

  lemma BindUnboundOnly(st: State, slug: string)
    ensures OnlyBindings(st, BindUnbound(st, slug))
  {
    BindEachOnly(st, UnboundOn(st.db, slug, st.db.nextAccount));
  }

  lemma ButPermits(st: State, st2: State, st': State)
    requires st2 == st.(platPermits := st2.platPermits, db := st.db.(links := st2.db.links)) && OnlyBindings(st2, st')
    ensures OnlyBindings(st.(platPermits := st'.platPermits), st') && st'.platPermits == st2.platPermits
  {
  }

  lemma RelinkedOnly(st: State, slug: string, gids: seq<int>, m: Option<nat>)
    ensures var st' := BindUnbound(PermitIfSet(Relink(st, slug, gids), slug, m), slug);
      OnlyBindings(st.(platPermits := st'.platPermits), st') && PlatformPermitsGrow(st.platPermits, st'.platPermits)
  {
    var st1 := Relink(st, slug, gids);
    var st2 := PermitIfSet(st1, slug, m);
    RelinkOnly(st, slug, gids);
    PermitOnly(st1, slug, m);
    BindUnboundOnly(st2, slug);
    ButPermits(st, st2, BindUnbound(st2, slug));
  }

  lemma PatchPlatformOnly(st: State, slug: string, gids: Option<seq<int>>, m: Option<nat>)
    ensures var st' := PatchPlatform(st, slug, gids, m);
      OnlyBindings(st.(platPermits := st'.platPermits), st') && PlatformPermitsGrow(st.platPermits, st'.platPermits)
  {
    if gids.None? {
      PermitOnly(st, slug, m);
    } else if LinksAccepted(st.db, slug, gids.value) {
      RelinkedOnly(st, slug, gids.value, m);
    }
  }

  /** Operations never touch the exit-IP counters or back-offs, never lower or remove a platform
      permit, and give an account its permits only when they create it, under a fresh id; an
      account loses its permits only with its slot. */
  ghost predicate RuntimeKept(st: State, st': State) {
    && st'.busy == st.busy && st'.limitedUntil == st.limitedUntil
    && PlatformPermitsGrow(st.platPermits, st'.platPermits)
    && st.db.nextAccount <= st'.db.nextAccount
    && (forall a :: a in st'.acctPermits ==>
          || (a in st.acctPermits && st'.acctPermits[a] == st.acctPermits[a])
          || (a == st.db.nextAccount < st'.db.nextAccount && 1 <= st'.acctPermits[a]))
    && (forall a :: a in st'.accounts ==>
          || (a in st.accounts && (a in st.acctPermits ==> a in st'.acctPermits))
          || (a == st.db.nextAccount && a in st'.acctPermits))
  }

  lemma UploadRuntime(st: State, slug: string, item: UploadItem, quota: Option<int>, c: nat)
    ensures RuntimeKept(st, UploadOne(st, slug, item, quota, c))
  {
    assert RuntimeKept(st, Uploaded(st, slug, item, quota, c));
    BindOnly(Uploaded(st, slug, item, quota, c), st.db.nextAccount, item.registrationIp);
  }

  lemma StatusRuntime(st: State, id: int, s: AccountStatus)
    ensures SameRuntime(st, SetStatus(st, id, s))
  {
    assert SameRuntime(st, SetStatusMem(st, id, s));
  }

  lemma ResetRuntime(st: State, now: int)
    ensures SameRuntime(st, ResetQuotas(st, now))
  {
  }

  lemma PatchRuntime(st: State, id: int, patch: AccountPatch)
    ensures SameRuntime(st, PatchAccount(st, id, patch))
  {
  }

  lemma ProxyOpRuntime(st: State, op: Op, now: int)
    requires op.ProxySwitch? || op.GroupDelete? || op.GroupCreate?
    ensures SameRuntime(st, Apply(st, op, now))
  {
  }

  lemma StoreOpRuntime(st: State, op: Op, now: int)
    requires op.Refresh? || op.TokenCreate? || op.TokenDelete? || op.Cleanup? || op.SetMaxRetries?
    ensures SameRuntime(st, Apply(st, op, now))
  {
    var st' := Apply(st, op, now);
    assert st' == st.(db := st'.db) && st'.db.nextAccount == st.db.nextAccount;
  }

  lemma ApplyRuntime(st: State, op: Op, now: int)
    ensures RuntimeKept(st, Apply(st, op, now))
  {
    match op
    case SyncOp(gid, sub) => SyncOnly(st, gid, sub);
    case PlatformOp(slug, gids, m) => PatchPlatformOnly(st, slug, gids, m);
    case Upload(slug, item, quota, c) => UploadRuntime(st, slug, item, quota, c);
    case DeleteOp(id) =>
    case ChangeStatus(id, s) => StatusRuntime(st, id, s);
    case BindOne(id) => BindOnly(st, id, None);
    case Reset => ResetRuntime(st, now);
    case PatchOp(id, patch) => PatchRuntime(st, id, patch);
    case _ =>
      if op.ProxySwitch? || op.GroupDelete? || op.GroupCreate? { ProxyOpRuntime(st, op, now); }
      else { StoreOpRuntime(st, op, now); }
  }

  /** Account permits, platform permits, ids and loaded accounts stay. */
  ghost predicate PermitsKept(st: State, st': State) {
    && st'.acctPermits == st.acctPermits && st'.platPermits == st.platPermits
    && st'.db.nextAccount == st.db.nextAccount && st'.accounts.Keys == st.accounts.Keys
  }

  lemma MemoryEffectRuntime(st: State, e: Effect, now: int)
    requires e.RecordInMemory? || e.StatusInMemory? || e.RebindAccount?
    ensures PermitsKept(st, Perform(st, e, now)) && Perform(st, e, now).busy == st.busy
  {
    if e.RebindAccount? { BindOnly(st, e.acct, None); }
    else if e.RecordInMemory? { RecordRuntime(st, e.acct, e.success); }
    else { StatusMemRuntime(st, e.acct, e.status); }
  }

  lemma RowEffectRuntime(st: State, e: Effect, now: int)
    requires e.RecordInStore? || e.StatusInStore?
    ensures PermitsKept(st, Perform(st, e, now)) && Perform(st, e, now).busy == st.busy
  {
    if e.RecordInStore? { RecordDbOnly(st, e.acct, e.success, e.seen); } else { StatusDbOnly(st, e.acct, e.status); }
  }

  lemma RecordDbOnly(st: State, a: int, ok: bool, seen: Option<AccountStatus>)
    ensures var st' := RecordDb(st, a, ok, seen); st' == st.(db := st.db.(accounts := st'.db.accounts))
  {
  }

  lemma StatusDbOnly(st: State, a: int, s: AccountStatus)
    ensures var st' := SetStatusDb(st, a, s); st' == st.(db := st.db.(accounts := st'.db.accounts))
  {
  }

  lemma LedgerEffectRuntime(st: State, e: Effect, now: int)
    requires e.LogCall? || e.CountTokenUse?
    ensures PermitsKept(st, Perform(st, e, now)) && Perform(st, e, now).busy == st.busy
  {
    if e.LogCall? { LogOnly(st, e.row); }
  }

  lemma LogOnly(st: State, row: LogRow)
    ensures var st' := WriteCallLog(st, row); st' == st.(db := st.db.(logs := st'.db.logs, nextLog := st'.db.nextLog))
  {
  }

  lemma OtherEffectRuntime(st: State, e: Effect, now: int)
    requires e.ReleaseIp? || e.BackOff? || e.ReadThenStore?
    ensures PermitsKept(st, Perform(st, e, now)) && (!e.ReleaseIp? ==> Perform(st, e, now).busy == st.busy)
  {
  }

  lemma PerformRuntime(st: State, e: Effect, now: int)
    ensures PermitsKept(st, Perform(st, e, now)) && (!e.ReleaseIp? ==> Perform(st, e, now).busy == st.busy)
  {
    if e.RecordInMemory? || e.StatusInMemory? || e.RebindAccount? { MemoryEffectRuntime(st, e, now); }
    else if e.RecordInStore? || e.StatusInStore? { RowEffectRuntime(st, e, now); }
    else if e.LogCall? || e.CountTokenUse? { LedgerEffectRuntime(st, e, now); }
    else { OtherEffectRuntime(st, e, now); }
  }

  lemma RecordRuntime(st: State, a: int, ok: bool)
    ensures SameRuntime(st, RecordMem(st, a, ok)) && RecordMem(st, a, ok).db == st.db
  {
  }

  lemma StatusMemRuntime(st: State, a: int, s: AccountStatus)
    ensures SameRuntime(st, SetStatusMem(st, a, s)) && SetStatusMem(st, a, s).db == st.db
  {
  }

  // ----- the effects still to do -----

  /** Effects of one kind: a pending call record is one kind, before and after its read. */
  function Kind(e: Effect): nat {
    match e
    case ReleaseIp(_) => 0
    case RecordInMemory(_, _) => 1
    case ReadThenStore(_, _) => 2
    case RecordInStore(_, _, _) => 2
    case StatusInMemory(_, _) => 3
    case StatusInStore(_, _) => 4
    case CountTokenUse(_) => 5
    case LogCall(_) => 6
    case RebindAccount(_) => 7
    case BackOff(_, _) => 8
  }

  ghost predicate OneOfEachKind(todo: seq<Effect>) {
    forall i, j :: 0 <= i < j < |todo| ==> Kind(todo[i]) != Kind(todo[j])
  }

  lemma ReactionOneOfEachKind(call: Call, att: Attempt, retries: nat, answer: Answer)
    ensures var todo := Reaction(call, att, retries, answer);
      OneOfEachKind(todo) && forall i :: 0 <= i < |todo| ==> !todo[i].ReleaseIp?
  {
  }

  lemma PrependKind(e: Effect, rest: seq<Effect>)
    requires OneOfEachKind(rest) && forall i :: 0 <= i < |rest| ==> Kind(rest[i]) != Kind(e)
    ensures OneOfEachKind([e] + rest)
  {
  }

  lemma EffectsOneOfEachKind(call: Call, att: Attempt, retries: nat, answer: Answer)
    ensures OneOfEachKind(Effects(call, att, retries, answer))
  {
    ReactionOneOfEachKind(call, att, retries, answer);
    var rest := Reaction(call, att, retries, answer);
    if att.exitIp.Some? { PrependKind(ReleaseIp(att.exitIp.value), rest); } else { assert [] + rest == rest; }
  }

  lemma PopOneOfEachKind(st: State, todo: seq<Effect>)
    requires todo != [] && OneOfEachKind(todo)
    ensures OneOfEachKind(Leaves(st, todo[0]) + todo[1..])
  {
  }

  /** Some effect still to do satisfies `f`. */
  ghost predicate Has(todo: seq<Effect>, f: Effect -> bool) {
    exists i :: 0 <= i < |todo| && f(todo[i])
  }

  /** `f` is about effects of one kind. */
  ghost predicate OfKind(f: Effect -> bool, k: nat) {
    forall e :: f(e) ==> Kind(e) == k
  }

  /** After the first effect, one of its kind is left only if it left it itself. */
  lemma PopHas(st: State, todo: seq<Effect>, f: Effect -> bool, k: nat)
    requires todo != [] && OneOfEachKind(todo) && OfKind(f, k)
    ensures var rest := Leaves(st, todo[0]) + todo[1..];
      Has(rest, f) <==>
        if Kind(todo[0]) == k then Leaves(st, todo[0]) != [] && f(Leaves(st, todo[0])[0]) else Has(todo, f)
    ensures Kind(todo[0]) == k ==> (Has(todo, f) <==> f(todo[0]))
  {
    var left := Leaves(st, todo[0]);
    var rest := left + todo[1..];
    assert forall i :: 1 <= i < |todo| ==> rest[|left| + i - 1] == todo[i];
    if Has(todo, f) {
      var i :| 0 <= i < |todo| && f(todo[i]);
      if i > 0 { assert f(rest[|left| + i - 1]); }
    }
    if Has(rest, f) {
      var i :| 0 <= i < |rest| && f(rest[i]);
      if i >= |left| { assert rest[i] == todo[i - |left| + 1]; }
    }
    if left != [] && f(left[0]) { assert f(rest[0]); }
  }
}
