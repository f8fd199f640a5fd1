/** What each status code does: which are passed on and which retried, and what becomes of the
    account, its back-off, the counters and the log, column by column. */
module Answers {
  import opened Wrappers
  import opened Text
  import opened Database
  import opened PoolState
  import opened Binding
  import opened Selection
  import opened Admin
  import opened Forwarding
  import opened SoloForward
  import opened Engine
  import opened LinkOrder
  import opened BindColumns

  // ----- what may change -----

  ghost predicate OtherSlotsKept(slots: map<int, AccountSlot>, slots': map<int, AccountSlot>, a: int) {
    slots'.Keys == slots.Keys && forall b :: b in slots && b != a ==> slots'[b] == slots[b]
  }

  ghost predicate OtherRowsKept(rows: map<int, AccountRow>, rows': map<int, AccountRow>, a: int) {
    rows'.Keys == rows.Keys && forall b :: b in rows && b != a ==> rows'[b] == rows[b]
  }

  /** Apart from the account's slot and row, the tokens, the log and the exit-IP counters, all is as it was. */
  ghost predicate OnlyItsOwn(st: State, st': State, a: int) {
    && st' == st.(accounts := st'.accounts, busy := st'.busy,
                  db := st.db.(accounts := st'.db.accounts, tokens := st'.db.tokens,
                               logs := st'.db.logs, nextLog := st'.db.nextLog))
    && OtherSlotsKept(st.accounts, st'.accounts, a) && OtherRowsKept(st.db.accounts, st'.db.accounts, a)
  }

  /** The row is written under the next id if what it refers to is there; else nothing is. */
  ghost predicate Logged(db: Db, db': Db, row: LogRow) {
    if (row.token.Some? ==> row.token.value in db.tokens) && (row.account.Some? ==> row.account.value in db.accounts)
       && (row.proxy.Some? ==> row.proxy.value in db.proxies)
    then db'.logs == db.logs[db.nextLog := row] && db'.nextLog == db.nextLog + 1
    else db'.logs == db.logs && db'.nextLog == db.nextLog
  }

  function CountOf(busy: map<string, nat>, ip: string): nat { if ip in busy then busy[ip] else 0 }

  /** The counter of the exit IP falls by one, if it is not 0; no other moves. */
  ghost predicate Freed(busy: map<string, nat>, busy': map<string, nat>, exitIp: Option<string>) {
    forall ip :: CountOf(busy', ip)
      == CountOf(busy, ip) - (if exitIp == Some(ip) && CountOf(busy, ip) > 0 then 1 else 0)
  }

  /** The account's columns are as they were, in both copies, and so are the tokens. */
  ghost predicate AccountsStay(st: State, st': State) {
    st'.accounts == st.accounts && st'.db.accounts == st.db.accounts && st'.db.tokens == st.db.tokens
  }

  // ----- the release comes first, the log last -----

  lemma Released(st: State, call: Call, att: Attempt, retries: nat, answer: Answer, now: int) returns (st1: State)
    ensures st1 == st.(busy := st1.busy) && Freed(st.busy, st1.busy, att.exitIp)
    ensures PerformAll(st, Effects(call, att, retries, answer), now)
         == PerformAll(st1, Reaction(call, att, retries, answer), now)
  {
    var rest := Reaction(call, att, retries, answer);
    if att.exitIp.Some? {
      PerformPlain(st, ReleaseIp(att.exitIp.value), rest, now);
      st1 := DecExitIp(st, att.exitIp.value);
    } else {
      assert [] + rest == rest;
      st1 := st;
    }
  }

  /** The number of the attempt is cut to a signed 32-bit integer. */
  function Row(call: Call, att: Attempt, code: Option<int>, retries: nat, success: bool): LogRow {
    LogRow(call.token, call.platform, Some(att.acct), Some(att.proxy), code,
           if retries < 0x8000_0000 then retries else retries - 0x1_0000_0000, success)
  }

  lemma LogsRow(st: State, call: Call, att: Attempt, code: Option<int>, retries: nat, success: bool, now: int)
    requires retries < 0x1_0000_0000
    ensures var row := CallRow(call, att, code, retries, success);
      var st' := PerformAll(st, [LogCall(row)], now);
      && row == Row(call, att, code, retries, success)
      && st' == st.(db := st.db.(logs := st'.db.logs, nextLog := st'.db.nextLog))
      && Logged(st.db, st'.db, row)
  {
    LogAtTheEnd(st, CallRow(call, att, code, retries, success), now);
  }

  // ----- the state after each kind of code -----

  lemma ServerErrorState(st: State, call: Call, att: Attempt, retries: nat, code: nat, header: Option<string>, now: int)
    requires 500 <= code < 600 && retries < 0x1_0000_0000
    ensures var st' := PerformAll(st, Effects(call, att, retries, Responded(code, header)), now);
      && OnlyItsOwn(st, st', att.acct) && AccountsStay(st, st') && Freed(st.busy, st'.busy, att.exitIp)
      && Logged(st.db, st'.db, Row(call, att, Some(code), retries, false))
  {
    var st1 := Released(st, call, att, retries, Responded(code, header), now);
    LogsRow(st1, call, att, Some(code), retries, false, now);
  }

  /** In memory the call is counted, the failures are forgotten, and a pending account is healthy. */
  ghost predicate SlotSucceeded(st: State, st': State, a: int) {
    a in st.accounts ==>
      && a in st'.accounts
      && st'.accounts[a] == st.accounts[a].(quotaUsed := st.accounts[a].quotaUsed + 1, failures := 0,
           status := if st.accounts[a].status == Pending then Healthy else st.accounts[a].status)
  }

  /** In the store the call is counted, as a failure too, with the status memory shows. */
  ghost predicate RowRecorded(st: State, st': State, a: int, used: int) {
    a in st.db.accounts ==>
      && a in st'.db.accounts
      && st'.db.accounts[a] == st.db.accounts[a].(quotaUsed := st.db.accounts[a].quotaUsed + used,
           failures := st.db.accounts[a].failures + 1,
           status := if a in st'.accounts then st'.accounts[a].status else st.db.accounts[a].status)
  }

  ghost predicate TokenCounted(db: Db, db': Db, token: Option<int>) {
    && db'.tokens.Keys == db.tokens.Keys
    && forall t :: t in db.tokens ==> db'.tokens[t] == db.tokens[t] + (if token == Some(t) then 1 else 0)
  }

  lemma MemoryRecorded(st: State, a: int, success: bool)
    ensures var mem := RecordMem(st, a, success);
      && mem == st.(accounts := mem.accounts) && OtherSlotsKept(st.accounts, mem.accounts, a)
      && (success ==> SlotSucceeded(st, mem, a)) && (!success ==> SlotFailed(st, mem, a))
  {
    if a in st.accounts {
      assert RecordMem(st, a, success).accounts == st.accounts[a := RecordSlot(st.accounts[a], success)];
    }
  }

  lemma StoreRecorded(st: State, mem: State, a: int, success: bool)
    requires mem.db == st.db && mem.accounts.Keys == st.accounts.Keys
    ensures var st' := RecordDb(mem, a, success, ReadStatus(mem, a));
      && st' == mem.(db := st.db.(accounts := st'.db.accounts))
      && OtherRowsKept(st.db.accounts, st'.db.accounts, a) && RowRecorded(st, st', a, if success then 1 else 0)
  {
  }

  lemma RecordedState(st: State, a: int, success: bool)
    ensures var st' := RecordCall(st, a, success);
      && st' == st.(accounts := st'.accounts, db := st.db.(accounts := st'.db.accounts))
      && OtherSlotsKept(st.accounts, st'.accounts, a) && OtherRowsKept(st.db.accounts, st'.db.accounts, a)
      && RowRecorded(st, st', a, if success then 1 else 0)
      && (success ==> SlotSucceeded(st, st', a)) && (!success ==> SlotFailed(st, st', a))
  {
    MemoryRecorded(st, a, success);
    StoreRecorded(st, RecordMem(st, a, success), a, success);
  }

  /** In memory the failure is counted and nothing else. */
  ghost predicate SlotFailed(st: State, st': State, a: int) {
    a in st.accounts ==>
      && a in st'.accounts
      && st'.accounts[a] == st.accounts[a].(failures := st.accounts[a].failures + 1)
  }

  /** Up to the log row. */
  lemma SuccessRecorded(st: State, call: Call, att: Attempt, retries: nat, code: nat, header: Option<string>, now: int)
      returns (st': State)
    requires 200 <= code < 300
    ensures PerformAll(st, Reaction(call, att, retries, Responded(code, header)), now)
         == PerformAll(st', [LogCall(CallRow(call, att, Some(code), retries, true))], now)
    ensures st' == st.(accounts := st'.accounts, db := st.db.(accounts := st'.db.accounts, tokens := st'.db.tokens))
    ensures OtherSlotsKept(st.accounts, st'.accounts, att.acct)
    ensures OtherRowsKept(st.db.accounts, st'.db.accounts, att.acct)
    ensures SlotSucceeded(st, st', att.acct) && RowRecorded(st, st', att.acct, 1)
    ensures TokenCounted(st.db, st'.db, call.token)
  {
    var log := [LogCall(CallRow(call, att, Some(code), retries, true))];
    var token := if call.token.Some? then [CountTokenUse(call.token.value)] else [];
    assert Reaction(call, att, retries, Responded(code, header))
        == [RecordInMemory(att.acct, true), ReadThenStore(att.acct, true)] + (token + log);
    PerformRecord(st, att.acct, true, token + log, now);
    RecordedState(st, att.acct, true);
    st' := TokenState(RecordCall(st, att.acct, true), call.token, log, now);
    RecordThenToken(st, RecordCall(st, att.acct, true), st', att.acct, call.token);
  }

  lemma RecordThenToken(st: State, mid: State, st': State, a: int, token: Option<int>)
    requires mid == st.(accounts := mid.accounts, db := st.db.(accounts := mid.db.accounts))
    requires st' == mid.(db := mid.db.(tokens := st'.db.tokens)) && TokenCounted(mid.db, st'.db, token)
    requires SlotSucceeded(st, mid, a) && RowRecorded(st, mid, a, 1)
    ensures st' == st.(accounts := mid.accounts, db := st.db.(accounts := mid.db.accounts, tokens := st'.db.tokens))
    ensures st'.accounts == mid.accounts && st'.db.accounts == mid.db.accounts
    ensures SlotSucceeded(st, st', a) && RowRecorded(st, st', a, 1) && TokenCounted(st.db, st'.db, token)
  {
  }

  lemma SuccessState(st: State, call: Call, att: Attempt, retries: nat, code: nat, header: Option<string>, now: int)
    requires 200 <= code < 300 && retries < 0x1_0000_0000
    ensures var st' := PerformAll(st, Effects(call, att, retries, Responded(code, header)), now);
      && OnlyItsOwn(st, st', att.acct) && Freed(st.busy, st'.busy, att.exitIp)
      && SlotSucceeded(st, st', att.acct) && RowRecorded(st, st', att.acct, 1)
      && TokenCounted(st.db, st'.db, call.token)
      && Logged(st.db, st'.db, Row(call, att, Some(code), retries, true))
  {
    var st1 := Released(st, call, att, retries, Responded(code, header), now);
    var st2 := SuccessRecorded(st1, call, att, retries, code, header, now);
    LogsRow(st2, call, att, Some(code), retries, true, now);
  }

  lemma TokenState(st: State, token: Option<int>, log: seq<Effect>, now: int) returns (st': State)
    ensures PerformAll(st, (if token.Some? then [CountTokenUse(token.value)] else []) + log, now)
         == PerformAll(st', log, now)
    ensures st' == st.(db := st.db.(tokens := st'.db.tokens)) && TokenCounted(st.db, st'.db, token)
  {
    st' := st;
    if token.Some? {
      PerformPlain(st, CountTokenUse(token.value), log, now);
      st' := IncTokenCount(st, token.value);
    } else {
      assert [] + log == log;
    }
  }

  /** Both copies show the account with the status, its failures forgotten. */
  ghost predicate BothShow(st: State, st': State, a: int, s: AccountStatus) {
    && (a in st.accounts ==>
          a in st'.accounts && st'.accounts[a] == st.accounts[a].(status := s, failures := 0))
    && (a in st.db.accounts ==>
          a in st'.db.accounts && st'.db.accounts[a] == st.db.accounts[a].(status := s, failures := 0))
  }

  lemma MemoryShown(st: State, a: int, s: AccountStatus)
    ensures var mem := SetStatusMem(st, a, s);
      && mem == st.(accounts := mem.accounts) && OtherSlotsKept(st.accounts, mem.accounts, a)
      && (a in st.accounts ==> mem.accounts[a] == st.accounts[a].(status := s, failures := 0))
  {
  }

  lemma StoreShown(st: State, a: int, s: AccountStatus)
    ensures var st' := SetStatusDb(st, a, s);
      && st' == st.(db := st.db.(accounts := st'.db.accounts)) && OtherRowsKept(st.db.accounts, st'.db.accounts, a)
      && (a in st.db.accounts ==> st'.db.accounts[a] == st.db.accounts[a].(status := s, failures := 0))
  {
  }

  lemma ShownState(st: State, a: int, s: AccountStatus)
    ensures var st' := SetStatus(st, a, s);
      && st' == st.(accounts := st'.accounts, db := st.db.(accounts := st'.db.accounts))
      && OtherSlotsKept(st.accounts, st'.accounts, a) && OtherRowsKept(st.db.accounts, st'.db.accounts, a)
      && BothShow(st, st', a, s)
  {
    MemoryShown(st, a, s);
    StoreShown(SetStatusMem(st, a, s), a, s);
  }

  lemma RevocationState(st: State, call: Call, att: Attempt, retries: nat, code: nat, header: Option<string>, now: int)
    requires !(200 <= code < 300) && !(500 <= code < 600) && code in call.codes.revoke && retries < 0x1_0000_0000
    ensures var st' := PerformAll(st, Effects(call, att, retries, Responded(code, header)), now);
      && OnlyItsOwn(st, st', att.acct) && Freed(st.busy, st'.busy, att.exitIp)
      && BothShow(st, st', att.acct, HardRevoked) && st'.db.tokens == st.db.tokens
      && Logged(st.db, st'.db, Row(call, att, Some(code), retries, false))
  {
    var st1 := Released(st, call, att, retries, Responded(code, header), now);
    var row := CallRow(call, att, Some(code), retries, false);
    PerformStatus(st1, att.acct, HardRevoked, [LogCall(row)], now);
    ShownState(st1, att.acct, HardRevoked);
    LogsRow(SetStatus(st1, att.acct, HardRevoked), call, att, Some(code), retries, false, now);
  }

  lemma OtherCodeState(st: State, call: Call, att: Attempt, retries: nat, code: nat, header: Option<string>, now: int)
    requires !(200 <= code < 300) && !(500 <= code < 600) && code !in call.codes.revoke && code !in call.codes.rate
    requires retries < 0x1_0000_0000
    ensures var st' := PerformAll(st, Effects(call, att, retries, Responded(code, header)), now);
      && OnlyItsOwn(st, st', att.acct) && Freed(st.busy, st'.busy, att.exitIp)
      && SlotFailed(st, st', att.acct) && RowRecorded(st, st', att.acct, 0) && st'.db.tokens == st.db.tokens
      && Logged(st.db, st'.db, Row(call, att, Some(code), retries, false))
  {
    var st1 := Released(st, call, att, retries, Responded(code, header), now);
    var row := CallRow(call, att, Some(code), retries, false);
    PerformRecord(st1, att.acct, false, [LogCall(row)], now);
    RecordedState(st1, att.acct, false);
    LogsRow(RecordCall(st1, att.acct, false), call, att, Some(code), retries, false, now);
  }

  /** The account has a back-off that ends at `until`, whatever it had; nobody else's changes. */
  ghost predicate BacksOffUntil(st: State, st': State, a: int, until: int) {
    st'.limitedUntil == st.limitedUntil[a := until]
  }

  /** Nothing else changes but the exit-IP counters and the log. */
  ghost predicate BackedOffOnly(st: State, st': State, a: int, until: int) {
    st' == st.(busy := st'.busy, limitedUntil := st.limitedUntil[a := until],
               db := st.db.(logs := st'.db.logs, nextLog := st'.db.nextLog))
  }

  lemma BackedOffState(st: State, call: Call, att: Attempt, retries: nat, code: nat, header: Option<string>, now: int)
    requires !(200 <= code < 300) && !(500 <= code < 600) && code !in call.codes.revoke && code in call.codes.rate
    requires retries < 0x1_0000_0000
    ensures var st' := PerformAll(st, Effects(call, att, retries, Responded(code, header)), now);
      && BackedOffOnly(st, st', att.acct, now + RetryAfterSeconds(header) * 1_000_000_000)
      && Freed(st.busy, st'.busy, att.exitIp)
      && Logged(st.db, st'.db, Row(call, att, Some(code), retries, false))
  {
    var st1 := Released(st, call, att, retries, Responded(code, header), now);
    PerformRateLimit(st1, call, att, retries, code, header, now);
    var st2 := MarkRateLimited(st1, att.acct, now + RetryAfterSeconds(header) * SECOND);
    LogsRow(st2, call, att, Some(code), retries, false, now);
    LogAtTheEnd(st2, CallRow(call, att, Some(code), retries, false), now);
  }

  /** Of the accounts only this one's binding can differ, in both copies. */
  ghost predicate OnlyRebound(st: State, st': State, a: int) {
    && OtherSlotsKept(st.accounts, st'.accounts, a) && OtherRowsKept(st.db.accounts, st'.db.accounts, a)
    && (a in st.accounts ==> st'.accounts[a] == st.accounts[a].(boundProxy := st'.accounts[a].boundProxy))
    && (a in st.db.accounts ==> st'.db.accounts[a] == st.db.accounts[a].(boundProxy := st'.db.accounts[a].boundProxy))
  }

  lemma BindWrites(st: State, a: int, choice: Option<int>)
    requires a in st.db.accounts && choice == ChooseProxy(st.db, st.db.accounts[a].platform, None)
    ensures var st' := BindAccount(st, a, None);
      if choice.None? then st' == st
      else st'.db.accounts == st.db.accounts[a := st.db.accounts[a].(boundProxy := choice)]
           && st'.accounts == if a in st.accounts then st.accounts[a := st.accounts[a].(boundProxy := choice)]
                              else st.accounts
  {
  }

  lemma ReboundOnly(st: State, a: int)
    ensures var st' := BindAccount(st, a, None);
      OnlyRebound(st, st', a) && st' == st.(accounts := st'.accounts, db := st.db.(accounts := st'.db.accounts))
  {
    if a in st.db.accounts { BindWrites(st, a, ChooseProxy(st.db, st.db.accounts[a].platform, None)); }
  }

  lemma NoAnswerState(st: State, call: Call, att: Attempt, retries: nat, now: int)
    requires retries < 0x1_0000_0000
    ensures var st' := PerformAll(st, Effects(call, att, retries, Failed), now);
      && OnlyItsOwn(st.(limitedUntil := st'.limitedUntil), st', att.acct) && OnlyRebound(st, st', att.acct)
      && st'.db.tokens == st.db.tokens && Freed(st.busy, st'.busy, att.exitIp)
      && BacksOffUntil(st, st', att.acct, now + 30 * 1_000_000_000)
      && Logged(st.db, st'.db, Row(call, att, None, retries, false))
  {
    var st1 := Released(st, call, att, retries, Failed, now);
    var row := CallRow(call, att, None, retries, false);
    PerformFailure(st1, call, att, retries, now);
    LogsRow(st1, call, att, None, retries, false, now);
    LogAtTheEnd(st1, row, now);
    ReboundOnly(WriteCallLog(st1, row), att.acct);
  }

  // ----- passed on or retried -----

  /** The request goes on to its next attempt, or has none left. */
  ghost predicate Retried(q: Req, q': Req) {
    if q.retries < q.maxRetries then q'.pc == Choosing && q'.retries == q.retries + 1 else q'.pc == Done(Exhausted)
  }

  /** The caller gets the upstream's response. */
  ghost predicate PassedOn(q': Req) { q'.pc.Done? && q'.pc.result.Passed? }

  /** A request that waits for its answer, its retries within their limit. */
  ghost predicate Asking(w: World, r: int) {
    && r in w.reqs && w.reqs[r].pc.Sending?
    && w.reqs[r].retries <= w.reqs[r].maxRetries < 0x1_0000_0000 - 1
  }

  /** The pools after the answer's effects, nobody interfering. */
  ghost function AfterAnswer(w: World, r: int, answer: Answer): State
    requires Asking(w, r)
  {
    PerformAll(w.st, NextReq(w, Respond(r, answer)).pc.todo, w.now)
  }

  /** The request after its attempt, whoever interferes. */
  ghost function Decided(w: World, r: int, answer: Answer): Req
    requires Asking(w, r)
  {
    Finished(NextReq(w, Respond(r, answer)))
  }

  lemma DecisionIff(w: World, r: int, answer: Answer)
    requires Asking(w, r)
    ensures if Final(EndingOf(w.reqs[r].call, answer)) then PassedOn(Decided(w, r, answer))
            else Retried(w.reqs[r], Decided(w, r, answer))
  {
  }

  /** Passed on: 200 to 299, and what is neither a server error nor in a list. */
  lemma CodeDecides(w: World, r: int, code: nat, header: Option<string>)
    requires Asking(w, r)
    ensures var q, q' := w.reqs[r], Decided(w, r, Responded(code, header));
      if 200 <= code < 300 || !(500 <= code < 600 || code in q.call.codes.revoke || code in q.call.codes.rate)
      then PassedOn(q') else Retried(q, q')
  {
    DecisionIff(w, r, Responded(code, header));
  }

  lemma SettledIs(w: World, r: int, answer: Answer)
    requires Asking(w, r)
    ensures var q := w.reqs[r];
      AfterAnswer(w, r, answer) == PerformAll(w.st, Effects(q.call, q.pc.att, q.retries, answer), w.now)
  {
  }

  /** 500 to 599, whatever the lists say: the attempt is logged and the request retried; nothing is
      held against the account. */
  lemma ServerErrorIsRetried(w: World, r: int, code: nat, header: Option<string>)
    requires Asking(w, r) && 500 <= code < 600
    ensures var q, st' := w.reqs[r], AfterAnswer(w, r, Responded(code, header));
      && OnlyItsOwn(w.st, st', q.pc.att.acct) && AccountsStay(w.st, st') && Freed(w.st.busy, st'.busy, q.pc.att.exitIp)
      && Logged(w.st.db, st'.db, Row(q.call, q.pc.att, Some(code), q.retries, false))
    ensures Retried(w.reqs[r], Decided(w, r, Responded(code, header)))
  {
    var q := w.reqs[r];
    SettledIs(w, r, Responded(code, header));
    ServerErrorState(w.st, q.call, q.pc.att, q.retries, code, header, w.now);
    CodeDecides(w, r, code, header);
  }

  /** 200 to 299, whatever the lists say: the response is passed on and the call counted once. */
  lemma SuccessIsPassedOn(w: World, r: int, code: nat, header: Option<string>)
    requires Asking(w, r) && 200 <= code < 300
    ensures var q, st' := w.reqs[r], AfterAnswer(w, r, Responded(code, header)); var a := q.pc.att.acct;
      && OnlyItsOwn(w.st, st', a) && Freed(w.st.busy, st'.busy, q.pc.att.exitIp)
      && SlotSucceeded(w.st, st', a) && RowRecorded(w.st, st', a, 1) && TokenCounted(w.st.db, st'.db, q.call.token)
      && Logged(w.st.db, st'.db, Row(q.call, q.pc.att, Some(code), q.retries, true))
    ensures PassedOn(Decided(w, r, Responded(code, header)))
  {
    var q := w.reqs[r];
    SettledIs(w, r, Responded(code, header));
    SuccessState(w.st, q.call, q.pc.att, q.retries, code, header, w.now);
    CodeDecides(w, r, code, header);
  }

  /** Any other code in the revoke list, in the rate list or not: the account is revoked in both
      copies and the request retried. */
  lemma RevokeCodeRevokes(w: World, r: int, code: nat, header: Option<string>)
    requires Asking(w, r) && !(200 <= code < 300) && !(500 <= code < 600) && code in w.reqs[r].call.codes.revoke
    ensures var q, st' := w.reqs[r], AfterAnswer(w, r, Responded(code, header)); var a := q.pc.att.acct;
      && OnlyItsOwn(w.st, st', a) && Freed(w.st.busy, st'.busy, q.pc.att.exitIp)
      && BothShow(w.st, st', a, HardRevoked) && st'.db.tokens == w.st.db.tokens
      && Logged(w.st.db, st'.db, Row(q.call, q.pc.att, Some(code), q.retries, false))
    ensures Retried(w.reqs[r], Decided(w, r, Responded(code, header)))
  {
    var q := w.reqs[r];
    SettledIs(w, r, Responded(code, header));
    RevocationState(w.st, q.call, q.pc.att, q.retries, code, header, w.now);
    CodeDecides(w, r, code, header);
  }

  /** A code in the rate list alone: the account is backed off and the request retried. */
  lemma RateCodeBacksOff(w: World, r: int, code: nat, header: Option<string>)
    requires Asking(w, r) && !(200 <= code < 300) && !(500 <= code < 600)
    requires code !in w.reqs[r].call.codes.revoke && code in w.reqs[r].call.codes.rate
    ensures var q, st' := w.reqs[r], AfterAnswer(w, r, Responded(code, header));
      && BackedOffOnly(w.st, st', q.pc.att.acct, w.now + RetryAfterSeconds(header) * 1_000_000_000)
      && Freed(w.st.busy, st'.busy, q.pc.att.exitIp)
      && Logged(w.st.db, st'.db, Row(q.call, q.pc.att, Some(code), q.retries, false))
    ensures Retried(w.reqs[r], Decided(w, r, Responded(code, header)))
  {
    var q := w.reqs[r];
    SettledIs(w, r, Responded(code, header));
    BackedOffState(w.st, q.call, q.pc.att, q.retries, code, header, w.now);
    CodeDecides(w, r, code, header);
  }

  /** For 30 seconds if the upstream does not say how long. */
  lemma RateCodeWithoutHeader(w: World, r: int, code: nat)
    requires Asking(w, r) && !(200 <= code < 300) && !(500 <= code < 600)
    requires code !in w.reqs[r].call.codes.revoke && code in w.reqs[r].call.codes.rate
    ensures var q, st' := w.reqs[r], AfterAnswer(w, r, Responded(code, None));
      && st'.limitedUntil == w.st.limitedUntil[q.pc.att.acct := w.now + 30_000_000_000]
      && Logged(w.st.db, st'.db, Row(q.call, q.pc.att, Some(code), q.retries, false))
  {
    RateCodeBacksOff(w, r, code, None);
  }

  /** Every other code: the response is passed on and counted as a failure, not against the quota. */
  lemma OtherCodeIsPassedOn(w: World, r: int, code: nat, header: Option<string>)
    requires Asking(w, r) && !(200 <= code < 300) && !(500 <= code < 600)
    requires code !in w.reqs[r].call.codes.revoke && code !in w.reqs[r].call.codes.rate
    ensures var q, st' := w.reqs[r], AfterAnswer(w, r, Responded(code, header)); var a := q.pc.att.acct;
      && OnlyItsOwn(w.st, st', a) && Freed(w.st.busy, st'.busy, q.pc.att.exitIp)
      && SlotFailed(w.st, st', a) && RowRecorded(w.st, st', a, 0) && st'.db.tokens == w.st.db.tokens
      && Logged(w.st.db, st'.db, Row(q.call, q.pc.att, Some(code), q.retries, false))
    ensures PassedOn(Decided(w, r, Responded(code, header)))
  {
    var q := w.reqs[r];
    SettledIs(w, r, Responded(code, header));
    OtherCodeState(w.st, q.call, q.pc.att, q.retries, code, header, w.now);
    CodeDecides(w, r, code, header);
  }

  /** No response at all: the account is bound anew at most, backed off for 30 seconds, and the
      request retried; the log row has no status code. */
  lemma NoAnswerBacksOff(w: World, r: int)
    requires Asking(w, r)
    ensures var q, st' := w.reqs[r], AfterAnswer(w, r, Failed); var a := q.pc.att.acct;
      && OnlyItsOwn(w.st.(limitedUntil := st'.limitedUntil), st', a) && OnlyRebound(w.st, st', a)
      && st'.db.tokens == w.st.db.tokens && Freed(w.st.busy, st'.busy, q.pc.att.exitIp)
      && BacksOffUntil(w.st, st', a, w.now + 30_000_000_000)
      && Logged(w.st.db, st'.db, Row(q.call, q.pc.att, None, q.retries, false))
    ensures Retried(w.reqs[r], Decided(w, r, Failed))
  {
    var q := w.reqs[r];
    SettledIs(w, r, Failed);
    NoAnswerState(w.st, q.call, q.pc.att, q.retries, w.now);
    DecisionIff(w, r, Failed);
  }

  /** And bound anew it is, as if it had no registration IP: to the same proxy perhaps. */
  lemma NoAnswerBindsAnew(w: World, r: int) returns (c: int)
    requires Asking(w, r) && WellFormed(w.st.db) && InKeyOrder(w.st.db.links)
    ensures var st', a := AfterAnswer(w, r, Failed), w.reqs[r].pc.att.acct;
      a in w.st.db.accounts && SomeOffer(w.st.db, w.st.db.accounts[a].platform) ==>
        && Suits(w.st.db, w.st.db.accounts[a].platform, None, c)
        && a in st'.db.accounts && st'.db.accounts[a].boundProxy == Some(c)
        && (a in w.st.accounts ==> a in st'.accounts && st'.accounts[a].boundProxy == Some(c))
  {
    var q := w.reqs[r];
    SettledIs(w, r, Failed);
    c := FailureBinds(w.st, q.call, q.pc.att, q.retries, w.now);
  }

  lemma FailureBinds(st: State, call: Call, att: Attempt, retries: nat, now: int) returns (c: int)
    requires WellFormed(st.db) && InKeyOrder(st.db.links)
    ensures var st', a := PerformAll(st, Effects(call, att, retries, Failed), now), att.acct;
      a in st.db.accounts && SomeOffer(st.db, st.db.accounts[a].platform) ==>
        && Suits(st.db, st.db.accounts[a].platform, None, c)
        && a in st'.db.accounts && st'.db.accounts[a].boundProxy == Some(c)
        && (a in st.accounts ==> a in st'.accounts && st'.accounts[a].boundProxy == Some(c))
  {
    var st1 := Released(st, call, att, retries, Failed, now);
    var row := CallRow(call, att, None, retries, false);
    PerformFailure(st1, call, att, retries, now);
    LogAtTheEnd(st1, row, now);
    var st2 := WriteCallLog(st1, row);
    LoggedChoice(st2, st, att.acct);
    c := BindExactly(st, att.acct, None);
  }

  /** What an account is bound to does not depend on the log. */
  lemma LoggedChoice(st: State, st0: State, a: int)
    requires st.db == st0.db.(logs := st.db.logs, nextLog := st.db.nextLog) && st.accounts == st0.accounts
    ensures BindAccount(st, a, None).accounts == BindAccount(st0, a, None).accounts
    ensures BindAccount(st, a, None).db.accounts == BindAccount(st0, a, None).db.accounts
  {
    if a in st.db.accounts {
      SameChoiceProxy(st0.db, st.db, st.db.accounts[a].platform);
      BindWrites(st, a, ChooseProxy(st.db, st.db.accounts[a].platform, None));
      BindWrites(st0, a, ChooseProxy(st.db, st.db.accounts[a].platform, None));
    }
  }

  lemma SameChoiceProxy(db: Db, db': Db, slug: string)
    requires db'.proxies == db.proxies && db'.accounts == db.accounts && db'.links == db.links
    requires db'.nextProxy == db.nextProxy
    ensures ChooseProxy(db', slug, None) == ChooseProxy(db, slug, None)
  {
    SameFirstLeast(db, db', GroupsOf(db.links, slug));
  }

  lemma {:induction false} SameFirstLeast(db: Db, db': Db, groups: seq<int>)
    requires db'.proxies == db.proxies && db'.accounts == db.accounts && db'.nextProxy == db.nextProxy
    ensures FirstLeast(db', groups) == FirstLeast(db, groups)
  {
    if groups != [] {
      SameLeastLoaded(db, db', groups[0], db.nextProxy);
      SameFirstLeast(db, db', groups[1..]);
    }
  }

  lemma {:induction false} SameLeastLoaded(db: Db, db': Db, gid: int, hi: int)
    requires db'.proxies == db.proxies && db'.accounts == db.accounts
    ensures LeastLoaded(db', gid, hi) == LeastLoaded(db, gid, hi)
    decreases hi
  {
    if hi > 1 { SameLeastLoaded(db, db', gid, hi - 1); }
  }

  // ----- the seconds of a Retry-After -----

  /** A number of seconds is taken, with blanks around it or not; a number that 64 bits cannot hold,
      and anything with a character that is neither a digit nor a sign, counts as 30. */
  lemma RetryAfterMeaning(l: string, n: int, r: string, header: string)
    requires AllBlank(l) && AllBlank(r)
    ensures RetryAfterSeconds(Some(l + PrintInt(n) + r))
         == if -0x8000_0000_0000_0000 <= n < 0x8000_0000_0000_0000 then n else 30
    ensures (exists i :: 0 <= i < |header| && !IsBlank(header[i]) && !IsDigit(header[i])
                         && header[i] != '+' && header[i] != '-')
            ==> RetryAfterSeconds(Some(header)) == 30
    ensures RetryAfterSeconds(Some(l)) == 30 && RetryAfterSeconds(None) == 30
  {
    PrintIsBare(n);
    TrimUnique(l, PrintInt(n), r);
    PrintParses(n);
    if i :| 0 <= i < |header| && !IsBlank(header[i]) && !IsDigit(header[i]) && header[i] != '+' && header[i] != '-' {
      OddCharacter(header, i);
    }
    TrimUnique(l, "", "");
    assert l + "" + "" == l;
  }

  lemma PrintIsBare(n: int)
    ensures Bare(PrintInt(n))
  {
    var s := PrintNat(if n < 0 then -n else n);
    assert IsDigit(s[0]) && IsDigit(s[|s| - 1]);
  }

  lemma PrintParses(n: int)
    ensures ParseI64(PrintInt(n)) == if IsI64(n) then Some(n) else None
  {
    SignOfPrint(n);
    if n >= 0 { assert IsDigit(PrintNat(n)[0]); }
  }

  lemma OddCharacter(header: string, i: int)
    requires 0 <= i < |header|
    requires !IsBlank(header[i]) && !IsDigit(header[i]) && header[i] != '+' && header[i] != '-'
    ensures ParseI64(Trim(header)).None?
  {
    var l, r := TrimParts(header);
    var t := Trim(header);
    assert header[i] == t[i - |l|];
    var digits := if t[0] == '-' || t[0] == '+' then t[1..] else t;
    assert header[i] in digits;
    DigitsParse(digits);
  }
}
