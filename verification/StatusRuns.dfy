/** The status of an account in memory and in the store over every interleaving, with the two halves
    of a recorded call and of a revocation apart: when the copies agree, what makes them part, and
    what a restart makes of it. */
module StatusRuns {
  import opened Wrappers
  import opened Database
  import opened PoolState
  import opened Binding
  import opened Selection
  import opened Admin
  import opened Forwarding
  import opened Engine
  import opened Accounting
  import opened Lifecycle
  import opened Copies
  import opened CopyRuns
  import opened Tables

  // ----- the store halves still to come -----

  ghost function RecordWrite(a: int): Effect -> bool { (e: Effect) => e.RecordInStore? && e.acct == a }
  ghost function RecordRead(a: int): Effect -> bool { (e: Effect) => e.ReadThenStore? && e.acct == a }
  ghost function StatusWrite(a: int): Effect -> bool { (e: Effect) => e.StatusInStore? && e.acct == a }
  ghost function StatusStep(): Effect -> bool { (e: Effect) => e.StatusInMemory? }

  /** The status to be written to the store is settled: it was read already, or memory has it. */
  ghost predicate InHand(todo: seq<Effect>, a: int) {
    Has(todo, RecordWrite(a)) || (Has(todo, StatusWrite(a)) && !Has(todo, StatusStep()))
  }

  /** A store half for the account is still to come, its status settled or not. */
  ghost predicate Owes(todo: seq<Effect>, a: int) { InHand(todo, a) || Has(todo, RecordRead(a)) }

  /** Whatever is settled is the status `s`. */
  ghost predicate HandIs(todo: seq<Effect>, a: int, s: AccountStatus) {
    && (forall i :: 0 <= i < |todo| && RecordWrite(a)(todo[i]) ==> todo[i].seen == Some(s))
    && (!Has(todo, StatusStep()) ==> forall i :: 0 <= i < |todo| && StatusWrite(a)(todo[i]) ==> todo[i].status == s)
  }

  /** The memory half of a status change is followed by its store half. */
  ghost predicate StatusPaired(todo: seq<Effect>) {
    forall i :: 0 <= i < |todo| && todo[i].StatusInMemory? ==>
      i + 1 < |todo| && todo[i + 1] == StatusInStore(todo[i].acct, todo[i].status)
  }

  ghost predicate Orderly(todo: seq<Effect>) { OneOfEachKind(todo) && Paired(todo) && StatusPaired(todo) }

  /** The account's memory status after the effect. */
  function MemoryAfter(e: Effect, a: int, s: AccountStatus): AccountStatus {
    if e == RecordInMemory(a, true) && s == Pending then Healthy
    else if e.StatusInMemory? && e.acct == a then e.status
    else s
  }

  /** What is settled stays what memory shows exactly when memory does not change or nothing is settled. */
  lemma OtherHandIff(todo: seq<Effect>, a: int, s: AccountStatus, s': AccountStatus)
    requires HandIs(todo, a, s)
    ensures HandIs(todo, a, s') <==> s' == s || !InHand(todo, a)
  {
    if Has(todo, RecordWrite(a)) {
      var i :| 0 <= i < |todo| && RecordWrite(a)(todo[i]);
    }
    if Has(todo, StatusWrite(a)) && !Has(todo, StatusStep()) {
      var i :| 0 <= i < |todo| && StatusWrite(a)(todo[i]);
    }
  }

  function Popped(st: State, todo: seq<Effect>): seq<Effect>
    requires todo != []
  {
    Leaves(st, todo[0]) + todo[1..]
  }

  lemma PopOrderly(st: State, todo: seq<Effect>)
    requires todo != [] && Orderly(todo)
    ensures Orderly(Popped(st, todo))
  {
    PopOneOfEachKind(st, todo);
    PopPaired(st, todo);
    var left := Leaves(st, todo[0]);
    assert forall i :: 1 <= i < |todo| ==> Popped(st, todo)[|left| + i - 1] == todo[i];
  }

  /** An effect that is not the memory half of a status change leaves what is settled alone, but for
      the write it makes itself and the read it makes. */
  lemma PopHand(st: State, todo: seq<Effect>, a: int, s: AccountStatus)
    requires todo != [] && Orderly(todo) && HandIs(todo, a, s) && ReadStatus(st, a) == Some(s)
    requires todo[0].StatusInMemory? && todo[0].acct == a ==> todo[0].status == s
    ensures HandIs(Popped(st, todo), a, s)
  {
    var left, rest := Leaves(st, todo[0]), Popped(st, todo);
    PopHas(st, todo, StatusStep(), 3);
    assert forall i :: |left| <= i < |rest| ==> rest[i] == todo[i - |left| + 1];
    if !Has(rest, StatusStep()) && Has(todo, StatusStep()) { OnlyStatusWrite(todo); }
  }

  /** After the memory half of a status change its store half is the only one of its kind. */
  lemma OnlyStatusWrite(todo: seq<Effect>)
    requires todo != [] && Orderly(todo) && todo[0].StatusInMemory?
    ensures forall i :: 0 <= i < |todo| && todo[i].StatusInStore? ==>
      todo[i] == StatusInStore(todo[0].acct, todo[0].status)
  {
    assert Kind(todo[1]) == 4;
  }

  lemma PopInHand(st: State, todo: seq<Effect>, a: int)
    requires todo != [] && Orderly(todo) && todo[0].RecordInMemory?
    ensures InHand(Popped(st, todo), a) <==> InHand(todo, a)
  {
    PopHas(st, todo, RecordWrite(a), 2);
    PopHas(st, todo, StatusWrite(a), 4);
    PopHas(st, todo, StatusStep(), 3);
  }

  lemma PopStatusHandIff(st: State, todo: seq<Effect>, a: int, s: AccountStatus)
    requires todo != [] && Orderly(todo) && HandIs(todo, a, s)
    requires todo[0].StatusInMemory? && todo[0].acct == a && todo[0].status != s
    ensures HandIs(Popped(st, todo), a, todo[0].status) <==> !InHand(todo, a)
  {
    var rest := Popped(st, todo);
    assert forall i :: 0 <= i < |rest| ==> rest[i] == todo[i + 1];
    OnlyStatusWrite(todo);
    assert StatusStep()(todo[0]);
    if Has(todo, RecordWrite(a)) {
      var i :| 0 <= i < |todo| && RecordWrite(a)(todo[i]);
      assert RecordWrite(a)(rest[i - 1]);
    }
    if forall i :: 0 <= i < |todo| ==> !RecordWrite(a)(todo[i]) {
      assert forall i :: 0 <= i < |rest| ==> !RecordWrite(a)(rest[i]);
    }
  }

  /** What is settled is what memory shows after the effect exactly when the effect does not change
      the memory status or nothing was settled before it. */
  lemma PopHandIff(st: State, todo: seq<Effect>, a: int, s: AccountStatus)
    requires todo != [] && Orderly(todo) && HandIs(todo, a, s) && ReadStatus(st, a) == Some(s)
    ensures var s' := MemoryAfter(todo[0], a, s);
      HandIs(Popped(st, todo), a, s') <==> s' == s || !InHand(todo, a)
  {
    var s' := MemoryAfter(todo[0], a, s);
    if s' == s {
      PopHand(st, todo, a, s);
    } else if todo[0].StatusInMemory? {
      PopStatusHandIff(st, todo, a, s);
    } else {
      PopHand(st, todo, a, s);
      PopInHand(st, todo, a);
      OtherHandIff(Popped(st, todo), a, s, s');
    }
  }

  /** The effect writes the account's status in the store. */
  predicate Writes(e: Effect, a: int) { (e.RecordInStore? || e.StatusInStore?) && e.acct == a }

  /** What is owed stays owed until it is written. */
  lemma PopOwes(st: State, todo: seq<Effect>, a: int)
    requires todo != [] && Orderly(todo) && Owes(todo, a) && !Writes(todo[0], a)
    ensures Owes(Popped(st, todo), a)
  {
    PopHas(st, todo, RecordWrite(a), 2);
    PopHas(st, todo, RecordRead(a), 2);
    PopHas(st, todo, StatusWrite(a), 4);
    PopHas(st, todo, StatusStep(), 3);
    if todo[0].ReadThenStore? { assert RecordWrite(a)(Leaves(st, todo[0])[0]) == (todo[0].acct == a); }
  }

  /** An effect that changes the memory status leaves its store half to be done. */
  lemma MoveOwes(st: State, todo: seq<Effect>, a: int, s: AccountStatus)
    requires todo != [] && Orderly(todo) && MemoryAfter(todo[0], a, s) != s
    ensures Owes(Popped(st, todo), a)
  {
    var rest := Popped(st, todo);
    assert rest[0] == todo[1];
    if todo[0].StatusInMemory? {
      PopHas(st, todo, StatusStep(), 3);
      assert StatusWrite(a)(rest[0]);
    } else {
      assert RecordRead(a)(rest[0]);
    }
  }

  /** What is written to the store is what was settled. */
  lemma WrittenIsSettled(todo: seq<Effect>, a: int, s: AccountStatus)
    requires todo != [] && Orderly(todo) && HandIs(todo, a, s) && Writes(todo[0], a)
    ensures if todo[0].RecordInStore? then todo[0].seen == Some(s) else todo[0].status == s
  {
    if todo[0].StatusInStore? {
      forall i | 0 <= i < |todo| ensures !StatusStep()(todo[i]) {
        assert i + 1 < |todo| ==> Kind(todo[0]) != Kind(todo[i + 1]);
      }
      assert StatusWrite(a)(todo[0]);
    } else {
      assert RecordWrite(a)(todo[0]);
    }
  }

  lemma EffectsHand(call: Call, att: Attempt, retries: nat, answer: Answer, a: int, s: AccountStatus)
    ensures var todo := Effects(call, att, retries, answer); Orderly(todo) && HandIs(todo, a, s)
  {
    EffectsOneOfEachKind(call, att, retries, answer);
    EffectsPaired(call, att, retries, answer);
    EffectsStatusPaired(call, att, retries, answer);
    NothingSettledYet(call, att, retries, answer);
    var todo := Effects(call, att, retries, answer);
    forall i | 0 <= i < |todo| && StatusWrite(a)(todo[i]) ensures Has(todo, StatusStep()) {
      assert StatusStep()(todo[i - 1]);
    }
  }

  lemma NothingSettledYet(call: Call, att: Attempt, retries: nat, answer: Answer)
    ensures var todo := Effects(call, att, retries, answer);
      && (forall i :: 0 <= i < |todo| ==> !todo[i].RecordInStore?)
      && (forall i :: 0 <= i < |todo| && todo[i].StatusInStore? ==> i > 0 && todo[i - 1].StatusInMemory?)
  {
  }

  lemma EffectsStatusPaired(call: Call, att: Attempt, retries: nat, answer: Answer)
    ensures StatusPaired(Effects(call, att, retries, answer))
  {
  }

  // ----- the world -----

  ghost predicate AllOrderly(w: World) {
    forall r :: r in w.reqs && w.reqs[r].pc.Settling? ==> Orderly(w.reqs[r].pc.todo)
  }

  ghost predicate HandsAre(reqs: map<int, Req>, a: int, s: AccountStatus) {
    forall r :: r in reqs && reqs[r].pc.Settling? ==> HandIs(reqs[r].pc.todo, a, s)
  }

  /** Some request has a status settled for the account and not written yet. */
  ghost predicate SomeInHand(reqs: map<int, Req>, a: int) {
    exists r :: r in reqs && reqs[r].pc.Settling? && InHand(reqs[r].pc.todo, a)
  }

  ghost predicate SomeOwes(reqs: map<int, Req>, a: int) {
    exists r :: r in reqs && reqs[r].pc.Settling? && Owes(reqs[r].pc.todo, a)
  }

  /** Memory and store have the account both or neither; what is settled for it is what memory
      shows; and the store shows something else only while a store half is still to come. */
  ghost predicate InStep(w: World, a: int) {
    && (a in w.st.accounts <==> a in w.st.db.accounts)
    && (a in w.st.accounts ==>
          && HandsAre(w.reqs, a, w.st.accounts[a].status)
          && (w.st.accounts[a].status != w.st.db.accounts[a].status ==> SomeOwes(w.reqs, a)))
  }

  /** The event changes the memory status of an account that shows status `s`. */
  predicate Moves(w: World, ev: Event, a: int)
    requires a in w.st.accounts
  {
    var s := w.st.accounts[a].status;
    match ev
    case DoEffect(r) =>
      r in w.reqs && w.reqs[r].pc.Settling? && w.reqs[r].pc.todo != [] && MemoryAfter(w.reqs[r].pc.todo[0], a, s) != s
    case Operate(ChangeStatus(id, s')) => id == a && s' != s
    case Operate(Reset) => a in w.st.db.accounts && Due(w.st.db.accounts[a], w.now) && s != Healthy
    case _ => false
  }

  /** It does so while some request has read the status, or written it to memory, and not yet
      made its store half. */
  ghost predicate Disturbs(w: World, ev: Event, a: int) {
    a in w.st.accounts && Moves(w, ev, a) && SomeInHand(w.reqs, a)
  }

  // ----- one step of a request -----

  /** One request moves, the memory status with it: what is settled by the others. */
  lemma HandsIff(reqs: map<int, Req>, r: int, q: Req, a: int, s: AccountStatus, s': AccountStatus)
    requires HandsAre(reqs, a, s)
    requires q.pc.Settling? ==>
      (HandIs(q.pc.todo, a, s')
       <==> s' == s || !(r in reqs && reqs[r].pc.Settling? && InHand(reqs[r].pc.todo, a)))
    requires !q.pc.Settling? ==> s' == s
    ensures HandsAre(reqs[r := q], a, s') <==> s' == s || !SomeInHand(reqs, a)
  {
    var reqs' := reqs[r := q];
    forall x | x in reqs && x != r && reqs[x].pc.Settling?
      ensures HandIs(reqs[x].pc.todo, a, s') <==> s' == s || !InHand(reqs[x].pc.todo, a)
    {
      OtherHandIff(reqs[x].pc.todo, a, s, s');
    }
    if s' != s && SomeInHand(reqs, a) {
      var x :| x in reqs && reqs[x].pc.Settling? && InHand(reqs[x].pc.todo, a);
      assert x in reqs' && reqs'[x].pc.Settling? && !HandIs(reqs'[x].pc.todo, a, s');
    }
  }

  lemma HandsStay(reqs: map<int, Req>, r: int, q: Req, a: int, s: AccountStatus)
    requires HandsAre(reqs, a, s) && (q.pc.Settling? ==> HandIs(q.pc.todo, a, s))
    ensures HandsAre(reqs[r := q], a, s)
  {
  }

  lemma OwesStays(reqs: map<int, Req>, r: int, q: Req, a: int)
    requires SomeOwes(reqs, a)
    requires r in reqs && reqs[r].pc.Settling? && Owes(reqs[r].pc.todo, a) ==> q.pc.Settling? && Owes(q.pc.todo, a)
    ensures SomeOwes(reqs[r := q], a)
  {
    var x :| x in reqs && reqs[x].pc.Settling? && Owes(reqs[x].pc.todo, a);
    var reqs' := reqs[r := q];
    assert x in reqs' && reqs'[x].pc.Settling? && Owes(reqs'[x].pc.todo, a);
  }

  /** The status in the store after the effect. */
  function StoreAfter(e: Effect, a: int, s: AccountStatus): AccountStatus {
    if e.RecordInStore? && e.acct == a then e.seen.GetOr(s)
    else if e.StatusInStore? && e.acct == a then e.status
    else s
  }

  lemma PerformMemoryStatus(st: State, e: Effect, now: int, a: int)
    requires a in st.accounts
    ensures var st' := Perform(st, e, now);
      a in st'.accounts && st'.accounts[a].status == MemoryAfter(e, a, st.accounts[a].status)
  {
    if e.RebindAccount? { BindOnly(st, e.acct, None); }
    else if e.RecordInMemory? { RecordMemoryStatus(st, e.acct, e.success, a); }
    else if e.StatusInMemory? { SetMemoryStatus(st, e.acct, e.status, a); }
    else { Quota.PerformNoSlot(st, e, now); }
  }

  lemma RecordMemoryStatus(st: State, id: int, ok: bool, a: int)
    requires a in st.accounts
    ensures var st' := RecordMem(st, id, ok);
      a in st'.accounts && st'.accounts[a].status == MemoryAfter(RecordInMemory(id, ok), a, st.accounts[a].status)
  {
    if id == a {} else {}
  }

  lemma SetMemoryStatus(st: State, id: int, s: AccountStatus, a: int)
    requires a in st.accounts
    ensures var st' := SetStatusMem(st, id, s);
      a in st'.accounts && st'.accounts[a].status == MemoryAfter(StatusInMemory(id, s), a, st.accounts[a].status)
  {
    if id == a {} else {}
  }

  lemma PerformStoreStatus(st: State, e: Effect, now: int, a: int)
    requires a in st.db.accounts
    ensures var rows := Perform(st, e, now).db.accounts;
      a in rows && rows[a].status == StoreAfter(e, a, st.db.accounts[a].status)
  {
    if e.RebindAccount? { BindOnly(st, e.acct, None); }
    else if e.RecordInStore? { RecordStoreStatus(st, e.acct, e.success, e.seen, a); }
    else if e.StatusInStore? { SetStoreStatus(st, e.acct, e.status, a); }
    else { PerformNoRow(st, e, now); }
  }

  lemma RecordStoreStatus(st: State, id: int, ok: bool, seen: Option<AccountStatus>, a: int)
    requires a in st.db.accounts
    ensures var rows := RecordDb(st, id, ok, seen).db.accounts;
      a in rows && rows[a].status == StoreAfter(RecordInStore(id, ok, seen), a, st.db.accounts[a].status)
  {
    if id == a {} else {}
  }

  lemma SetStoreStatus(st: State, id: int, s: AccountStatus, a: int)
    requires a in st.db.accounts
    ensures var rows := SetStatusDb(st, id, s).db.accounts;
      a in rows && rows[a].status == StoreAfter(StatusInStore(id, s), a, st.db.accounts[a].status)
  {
    if id == a {} else {}
  }

  /** Neither copy gains or loses an account through an effect. */
  lemma PerformKeepsBoth(st: State, e: Effect, now: int, a: int)
    ensures var st' := Perform(st, e, now);
      (a in st'.accounts <==> a in st.accounts) && (a in st'.db.accounts <==> a in st.db.accounts)
  {
    PerformRuntime(st, e, now);
    assert a in Perform(st, e, now).accounts.Keys <==> a in st.accounts.Keys;
    Conservation.PerformKeepsRows(st, e, now);
    assert a in Perform(st, e, now).db.accounts.Keys <==> a in st.db.accounts.Keys;
  }

  /** After an effect that keeps what is settled, the store shows something else than memory only
      while something is owed. */
  lemma EffectOwes(st: State, reqs: map<int, Req>, r: int, q: Req, a: int)
    requires r in reqs && reqs[r].pc.Settling? && reqs[r].pc.todo != [] && Orderly(reqs[r].pc.todo)
    requires a in st.accounts && a in st.db.accounts && HandIs(reqs[r].pc.todo, a, st.accounts[a].status)
    requires st.accounts[a].status != st.db.accounts[a].status ==> SomeOwes(reqs, a)
    requires q.pc.Settling? && q.pc.todo == Popped(st, reqs[r].pc.todo)
    ensures var e := reqs[r].pc.todo[0];
      MemoryAfter(e, a, st.accounts[a].status) != StoreAfter(e, a, st.db.accounts[a].status) ==>
        SomeOwes(reqs[r := q], a)
  {
    var todo, s := reqs[r].pc.todo, st.accounts[a].status;
    var reqs' := reqs[r := q];
    if MemoryAfter(todo[0], a, s) != s {
      MoveOwes(st, todo, a, s);
      assert r in reqs' && reqs'[r].pc.Settling? && Owes(reqs'[r].pc.todo, a);
    } else if Writes(todo[0], a) {
      WrittenIsSettled(todo, a, s);
    } else if SomeOwes(reqs, a) {
      if Owes(todo, a) { PopOwes(st, todo, a); }
      OwesStays(reqs, r, q, a);
    }
  }

  lemma EffectStepIff(w: World, r: int, a: int)
    requires Enabled(w, DoEffect(r)) && AllOrderly(w) && InStep(w, a) && a in w.st.accounts
    ensures InStep(Next(w, DoEffect(r)), a) <==> !Disturbs(w, DoEffect(r), a)
  {
    var q, q' := w.reqs[r], NextReq(w, DoEffect(r));
    var e, s := q.pc.todo[0], w.st.accounts[a].status;
    var w' := Next(w, DoEffect(r));
    PerformKeepsBoth(w.st, e, w.now, a);
    PerformMemoryStatus(w.st, e, w.now, a);
    PerformStoreStatus(w.st, e, w.now, a);
    PopHandIff(w.st, q.pc.todo, a, s);
    HandsIff(w.reqs, r, q', a, s, MemoryAfter(e, a, s));
    EffectOwes(w.st, w.reqs, r, q', a);
  }

  lemma AnswerHand(w: World, ev: Event, a: int, s: AccountStatus)
    requires Enabled(w, ev) && OfRequest(ev) && !ev.DoEffect? && NextReq(w, ev).pc.Settling?
    ensures HandIs(NextReq(w, ev).pc.todo, a, s)
    ensures !(ev.r in w.reqs && w.reqs[ev.r].pc.Settling?)
  {
    var q := w.reqs[ev.r];
    EffectsHand(q.call, q.pc.att, q.retries, ev.answer, a, s);
  }

  lemma FinishOwesNothing(w: World, ev: Event, a: int)
    requires Enabled(w, ev) && OfRequest(ev) && !ev.DoEffect? && ev.r in w.reqs && w.reqs[ev.r].pc.Settling?
    ensures !Owes(w.reqs[ev.r].pc.todo, a)
  {
    assert w.reqs[ev.r].pc.todo == [];
  }

  /** The other steps of a request change no status; an answer settles nothing. */
  lemma PlainStepKeeps(w: World, ev: Event, a: int)
    requires Enabled(w, ev) && OfRequest(ev) && !ev.DoEffect? && InStep(w, a) && a in w.st.accounts
    ensures InStep(Next(w, ev), a)
  {
    var q' := NextReq(w, ev);
    if q'.pc.Settling? { AnswerHand(w, ev, a, w.st.accounts[a].status); }
    if ev.r in w.reqs && w.reqs[ev.r].pc.Settling? { FinishOwesNothing(w, ev, a); }
    PlainMove(w, Next(w, ev), ev.r, q', a);
  }

  lemma PlainMove(w: World, w': World, r: int, q': Req, a: int)
    requires InStep(w, a) && a in w.st.accounts && w'.reqs == w.reqs[r := q']
    requires q'.pc.Settling? ==> HandIs(q'.pc.todo, a, w.st.accounts[a].status)
    requires r in w.reqs && w.reqs[r].pc.Settling? ==> !Owes(w.reqs[r].pc.todo, a)
    requires w'.st.accounts == w.st.accounts && w'.st.db == w.st.db
    ensures InStep(w', a)
  {
    HandsStay(w.reqs, r, q', a, w.st.accounts[a].status);
    if SomeOwes(w.reqs, a) { OwesStays(w.reqs, r, q', a); }
    SameStatuses(w, w', a);
  }

  lemma SameStatuses(w: World, w': World, a: int)
    requires InStep(w, a) && a in w.st.accounts && HandsAre(w'.reqs, a, w.st.accounts[a].status)
    requires SomeOwes(w.reqs, a) ==> SomeOwes(w'.reqs, a)
    requires w'.st.accounts == w.st.accounts && w'.st.db == w.st.db
    ensures InStep(w', a)
  {
  }

  // ----- operations -----

  /** The store's status of an account through the operations that are not about statuses. */
  lemma BindingsKeepRow(st: State, st': State, a: int)
    requires RowsButBinding(st.db.accounts, st'.db.accounts) && a in st.db.accounts
    ensures a in st'.db.accounts && st'.db.accounts[a].status == st.db.accounts[a].status
  {
    assert a in st'.db.accounts.Keys;
  }

  lemma UploadKeepsRow(st: State, slug: string, item: UploadItem, quota: Option<int>, c: nat, a: int)
    requires a in st.db.accounts && a < st.db.nextAccount
    ensures var rows := UploadOne(st, slug, item, quota, c).db.accounts;
      a in rows && rows[a].status == st.db.accounts[a].status
  {
    var up := Uploaded(st, slug, item, quota, c);
    assert a in up.db.accounts && up.db.accounts[a] == st.db.accounts[a];
    BindOnly(up, st.db.nextAccount, item.registrationIp);
    BindingsKeepRow(up, BindAccount(up, st.db.nextAccount, item.registrationIp), a);
  }

  lemma RefreshKeepsRow(st: State, id: int, r: Option<int>, a: int)
    requires a in st.db.accounts
    ensures var rows := RefreshBalance(st, id, r).db.accounts; a in rows && rows[a].status == st.db.accounts[a].status
  {
    if id == a {} else {}
  }

  lemma PatchKeepsRow(st: State, id: int, patch: AccountPatch, a: int)
    requires a in st.db.accounts
    ensures var rows := PatchAccount(st, id, patch).db.accounts; a in rows && rows[a].status == st.db.accounts[a].status
  {
    if id == a {} else {}
  }

  lemma OtherOpKeepsRow(st: State, op: Op, now: int, a: int)
    requires a in st.db.accounts
    requires (op.DeleteOp? && op.id != a) || op.ProxySwitch? || op.GroupDelete? || op.GroupCreate? || op.TokenCreate?
      || op.TokenDelete? || op.Cleanup? || op.SetMaxRetries?
    ensures var rows := Apply(st, op, now).db.accounts; a in rows && rows[a].status == st.db.accounts[a].status
  {
  }

  lemma OpKeepsRow(st: State, op: Op, now: int, a: int)
    requires a in st.db.accounts && a < st.db.nextAccount && !op.ChangeStatus? && !op.Reset? && op != DeleteOp(a)
    ensures var rows := Apply(st, op, now).db.accounts; a in rows && rows[a].status == st.db.accounts[a].status
  {
    var st' := Apply(st, op, now);
    match op
    case BindOne(id) => BindOnly(st, id, None); BindingsKeepRow(st, st', a);
    case SyncOp(gid, sub) => SyncOnly(st, gid, sub); BindingsKeepRow(st, st', a);
    case PlatformOp(slug, gids, m) => PatchPlatformOnly(st, slug, gids, m); BindingsKeepRow(st, st', a);
    case Upload(slug, item, quota, c) => UploadKeepsRow(st, slug, item, quota, c, a);
    case Refresh(id, r) => RefreshKeepsRow(st, id, r, a);
    case PatchOp(id, patch) => PatchKeepsRow(st, id, patch, a);
    case _ => OtherOpKeepsRow(st, op, now, a);
  }

  /** Memory's status of an account that stays, through the same operations. */
  lemma OpKeepsSlot(st: State, op: Op, now: int, a: int)
    requires a in st.accounts && a in st.db.accounts && a < st.db.nextAccount
    requires !op.ChangeStatus? && !op.Reset? && op != DeleteOp(a)
    ensures var slots := Apply(st, op, now).accounts; a in slots && slots[a].status == st.accounts[a].status
  {
    ApplyKeepsUsed(st, op, now, a);
    ApplyKeepsStatus(st, op, now, a);
  }

  /** The status an operation leaves in both copies, if it is about statuses. */
  lemma StatusOpWritesBoth(st: State, id: int, s: AccountStatus, a: int)
    requires a in st.accounts && a in st.db.accounts
    ensures var st' := SetStatus(st, id, s);
      && a in st'.accounts && a in st'.db.accounts
      && st'.accounts[a].status == (if id == a then s else st.accounts[a].status)
      && st'.db.accounts[a].status == (if id == a then s else st.db.accounts[a].status)
  {
    SetMemoryStatus(st, id, s, a);
    var mem := SetStatusMem(st, id, s);
    SetStoreStatus(mem, id, s, a);
    assert mem.db == st.db && SetStatusDb(mem, id, s).accounts == mem.accounts;
  }

  lemma ResetWritesBoth(st: State, now: int, a: int)
    requires a in st.accounts && a in st.db.accounts
    ensures var st' := ResetQuotas(st, now);
      && a in st'.accounts && a in st'.db.accounts
      && st'.accounts[a].status == (if Due(st.db.accounts[a], now) then Healthy else st.accounts[a].status)
      && st'.db.accounts[a].status == (if Due(st.db.accounts[a], now) then Healthy else st.db.accounts[a].status)
  {
  }

  /** An operation that writes both copies, or neither. */
  lemma BothWritten(w: World, w': World, a: int, s': AccountStatus)
    requires InStep(w, a) && a in w.st.accounts && w'.reqs == w.reqs
    requires a in w'.st.accounts && a in w'.st.db.accounts
      && w'.st.accounts[a].status == s' == w'.st.db.accounts[a].status
    ensures InStep(w', a) <==> s' == w.st.accounts[a].status || !SomeInHand(w.reqs, a)
  {
    var s := w.st.accounts[a].status;
    forall r | r in w.reqs && w.reqs[r].pc.Settling?
      ensures HandIs(w.reqs[r].pc.todo, a, s') <==> s' == s || !InHand(w.reqs[r].pc.todo, a)
    {
      OtherHandIff(w.reqs[r].pc.todo, a, s, s');
    }
  }

  lemma NeitherWritten(w: World, w': World, a: int)
    requires InStep(w, a) && a in w.st.accounts && w'.reqs == w.reqs && a in w'.st.accounts && a in w'.st.db.accounts
    requires w'.st.accounts[a].status == w.st.accounts[a].status
      && w'.st.db.accounts[a].status == w.st.db.accounts[a].status
    ensures InStep(w', a)
  {
  }

  lemma Gone(w: World, a: int)
    requires a !in w.st.accounts && a !in w.st.db.accounts
    ensures InStep(w, a)
  {
  }

  lemma OperateStepIff(w: World, op: Op, a: int)
    requires InStep(w, a) && a in w.st.accounts && a < w.st.db.nextAccount
    ensures InStep(Next(w, Event.Operate(op)), a) <==> !Disturbs(w, Event.Operate(op), a)
  {
    var w' := Next(w, Event.Operate(op));
    if op.ChangeStatus? {
      StatusOpWritesBoth(w.st, op.id, op.status, a);
      if op.id == a { BothWritten(w, w', a, op.status); } else { NeitherWritten(w, w', a); }
    } else if op.Reset? {
      ResetWritesBoth(w.st, w.now, a);
      if Due(w.st.db.accounts[a], w.now) { BothWritten(w, w', a, Healthy); } else { NeitherWritten(w, w', a); }
    } else if op == DeleteOp(a) {
      Gone(w', a);
    } else {
      OpKeepsRow(w.st, op, w.now, a);
      OpKeepsSlot(w.st, op, w.now, a);
      NeitherWritten(w, w', a);
    }
  }

  // ----- every run -----

  lemma OrderlyStep(w: World, ev: Event)
    requires Enabled(w, ev) && AllOrderly(w)
    ensures AllOrderly(Next(w, ev))
  {
    if ev.Respond? {
      var q := w.reqs[ev.r];
      EffectsHand(q.call, q.pc.att, q.retries, ev.answer, 0, Healthy);
    } else if ev.DoEffect? {
      PopOrderly(w.st, w.reqs[ev.r].pc.todo);
    }
  }

  /** From a world in step, one event leaves it in step exactly when it does not disturb. */
  lemma InStepIff(w: World, ev: Event, a: int)
    requires Enabled(w, ev) && AllOrderly(w) && InStep(w, a) && a in w.st.accounts && a < w.st.db.nextAccount
    ensures InStep(Next(w, ev), a) <==> !Disturbs(w, ev, a)
  {
    match ev
    case Operate(op) => OperateStepIff(w, op, a);
    case Tick(_) => SameStatuses(w, Next(w, ev), a);
    case DoEffect(r) => EffectStepIff(w, r, a);
    case _ => PlainStepKeeps(w, ev, a);
  }

  /** A deleted account stays deleted in both copies. */
  lemma AbsentStays(w: World, ev: Event, a: int)
    requires Enabled(w, ev) && Mirrored(w.st) && a !in w.st.db.accounts && a < w.st.db.nextAccount
    ensures InStep(Next(w, ev), a)
  {
    EventStep(w, ev);
    MirrorStep(w, ev);
    Gone(Next(w, ev), a);
  }

  ghost predicate Undisturbed(w: World, evs: seq<Event>, a: int)
    requires Runnable(w, evs)
    decreases evs
  {
    evs == [] || (!Disturbs(w, evs[0], a) && Undisturbed(Next(w, evs[0]), evs[1..], a))
  }

  ghost predicate Sane(w: World, a: int) {
    Mirrored(w.st) && AllOrderly(w) && InStep(w, a) && a < w.st.db.nextAccount
  }

  lemma SaneStep(w: World, ev: Event, a: int)
    requires Enabled(w, ev) && Sane(w, a) && !Disturbs(w, ev, a)
    ensures Sane(Next(w, ev), a)
  {
    MirrorStep(w, ev);
    OrderlyStep(w, ev);
    EventStep(w, ev);
    if a in w.st.accounts { InStepIff(w, ev, a); } else { AbsentStays(w, ev, a); }
  }

  lemma {:induction false} RunStaysSane(w: World, evs: seq<Event>, a: int)
    requires Runnable(w, evs) && Sane(w, a) && Undisturbed(w, evs, a)
    ensures Sane(Run(w, evs), a)
    decreases evs
  {
    if evs != [] {
      SaneStep(w, evs[0], a);
      RunStaysSane(Next(w, evs[0]), evs[1..], a);
    }
  }

  /** No store half is outstanding for the account. */
  ghost predicate Settled(w: World, a: int) { !SomeOwes(w.reqs, a) }

  lemma BootSane(db: Db, decrypt: string -> Option<string>, most: string -> nat, now: int, a: int)
    requires WellFormed(db) && Loads(db, decrypt, a)
    ensures Sane(Boot(db, decrypt, most, now), a)
  {
    LoadMirrors(db, decrypt);
    var w := Boot(db, decrypt, most, now);
    assert w.st == LoadAll(db, decrypt).(platPermits := w.st.platPermits);
  }

  /** On every run from start-up on which no event changes an account's memory status between the
      moment a request reads that status, or writes it to memory, and its store half: whenever no
      store half is outstanding, both copies show the same status. */
  lemma StatusesAgreeWhenSettled(db: Db, decrypt: string -> Option<string>, most: string -> nat, now: int,
                                 evs: seq<Event>, a: int)
    requires WellFormed(db) && Loads(db, decrypt, a)
    requires Runnable(Boot(db, decrypt, most, now), evs) && Undisturbed(Boot(db, decrypt, most, now), evs, a)
    requires Settled(Run(Boot(db, decrypt, most, now), evs), a)
    ensures var st := Run(Boot(db, decrypt, most, now), evs).st;
      && (a in st.accounts <==> a in st.db.accounts)
      && (a in st.accounts ==> st.accounts[a].status == st.db.accounts[a].status)
  {
    BootSane(db, decrypt, most, now, a);
    RunStaysSane(Boot(db, decrypt, most, now), evs, a);
  }

  // ----- one event -----

  /** The effects that part two copies showing status `s`: a first success or a revocation that has
      only its memory half, and a store half that writes a status memory no longer shows. */
  predicate Parts(e: Effect, a: int, s: AccountStatus) {
    || (e == RecordInMemory(a, true) && s == Pending)
    || (e.StatusInMemory? && e.acct == a && e.status != s)
    || (e.RecordInStore? && e.acct == a && e.seen.Some? && e.seen.value != s)
    || (e.StatusInStore? && e.acct == a && e.status != s)
  }

  predicate EventParts(w: World, ev: Event, a: int)
    requires a in w.st.accounts
  {
    ev.DoEffect? && ev.r in w.reqs && w.reqs[ev.r].pc.Settling? && w.reqs[ev.r].pc.todo != []
    && Parts(w.reqs[ev.r].pc.todo[0], a, w.st.accounts[a].status)
  }

  predicate SameStatus(st: State, a: int) {
    a in st.accounts && a in st.db.accounts ==> st.accounts[a].status == st.db.accounts[a].status
  }

  lemma OperateNeverParts(st: State, op: Op, now: int, a: int)
    requires a in st.accounts && a in st.db.accounts && a < st.db.nextAccount && SameStatus(st, a)
    ensures SameStatus(Apply(st, op, now), a)
  {
    if op.ChangeStatus? { StatusOpWritesBoth(st, op.id, op.status, a); }
    else if op.Reset? { ResetWritesBoth(st, now, a); }
    else if op != DeleteOp(a) { OpKeepsRow(st, op, now, a); OpKeepsSlot(st, op, now, a); }
  }

  /** Of all events exactly those effects part two copies that agree; no operation does, an
      administrator's change of status included, whatever requests have still to write. */
  lemma EventPartsIff(w: World, ev: Event, a: int)
    requires Enabled(w, ev) && a in w.st.accounts && a in w.st.db.accounts && a < w.st.db.nextAccount
      && SameStatus(w.st, a)
    ensures SameStatus(Next(w, ev).st, a) <==> !EventParts(w, ev, a)
  {
    match ev
    case Operate(op) => OperateNeverParts(w.st, op, w.now, a);
    case DoEffect(r) => EffectPartsIff(w.st, w.reqs[r].pc.todo[0], w.now, a);
    case _ => assert Next(w, ev).st == w.st.(busy := Next(w, ev).st.busy);
  }

  lemma EffectPartsIff(st: State, e: Effect, now: int, a: int)
    requires a in st.accounts && a in st.db.accounts && SameStatus(st, a)
    ensures SameStatus(Perform(st, e, now), a) <==> !Parts(e, a, st.accounts[a].status)
  {
    PerformMemoryStatus(st, e, now, a);
    PerformStoreStatus(st, e, now, a);
  }

  // ----- a restart -----

  /** On every such run an account that was out is out after a restart too, once no store half is
      outstanding: the reloaded gateway selects it on no run before it is revived. */
  lemma OutAcrossRestart(w: World, evs: seq<Event>, a: int, decrypt: string -> Option<string>,
                         most: string -> nat, now: int, evs': seq<Event>)
    requires Runnable(w, evs) && Sane(w, a) && RevokeOk(w) && a in w.st.accounts && Out(w.st, a)
    requires NeverRevived(w, evs, a) && Undisturbed(w, evs, a) && Settled(Run(w, evs), a)
    requires Runnable(Boot(Run(w, evs).st.db, decrypt, most, now), evs')
    requires NeverRevived(Boot(Run(w, evs).st.db, decrypt, most, now), evs', a)
    ensures Out(LoadAll(Run(w, evs).st.db, decrypt), a)
    ensures NeverPicked(Boot(Run(w, evs).st.db, decrypt, most, now), evs', a)
  {
    var w1 := Run(w, evs);
    RunStaysSane(w, evs, a);
    OutUntilRevived(w, evs, a);
    ReloadedOut(w1, a, decrypt);
    var w2 := Boot(w1.st.db, decrypt, most, now);
    assert w2.st == LoadAll(w1.st.db, decrypt).(platPermits := w2.st.platPermits);
    OutUntilRevived(w2, evs', a);
  }

  lemma ReloadedOut(w: World, a: int, decrypt: string -> Option<string>)
    requires Sane(w, a) && Out(w.st, a) && Settled(w, a)
    ensures Out(LoadAll(w.st.db, decrypt), a)
  {
  }
}
