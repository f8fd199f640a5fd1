/** Runs from start-up on which the gateway departs from what its documentation says. */
module Departures {
  import opened Wrappers
  import opened Database
  import opened Adapter
  import opened PoolState
  import opened Binding
  import opened Selection
  import opened Admin
  import opened Forwarding
  import opened SoloForward
  import opened Engine
  import opened Lifecycle
  import opened Steps
  import opened Demo
  import opened QuotaReached
  import opened Scenes
  import opened BackOffs

  const REVOKED: Answer := Responded(401, None)
  const REVOKED_ROW: LogRow := CallRow(CALL, ATTEMPT, Some(401), 0, false)

  lemma RevokedEffects()
    ensures Effects(CALL, ATTEMPT, 0, REVOKED)
         == [StatusInMemory(1, HardRevoked), StatusInStore(1, HardRevoked)] + [LogCall(REVOKED_ROW)]
    ensures EndingOf(CALL, REVOKED) == Answered(HardRevokedCode)
  {
    assert Classify(401, CALL.codes) == HardRevokedCode;
  }

  /** What a restart loads. */
  function Restarted(st: State): State { LoadAll(st.db, s => Some(s)) }

  // ----- a late record undoes a revocation in the store -----

  /** The first of two requests makes an effect. */
  lemma FirstEffect(w0: World, w: World, q0: Req, q1: Req, e: Effect, rest: seq<Effect>)
    requires RunsTo(w0, Two(w, q0, q1)) && q0.pc.Settling? && q0.pc.todo == [e] + rest
    ensures RunsTo(w0, Two(w.(st := Perform(w.st, e, w.now)), Onward(q0, Leaves(w.st, e) + rest, RowsOf(e)), q1))
  {
    EffectRuns(w0, Two(w, q0, q1), 0, e, rest);
    TwoMoves(w, q0, q1, Onward(q0, Leaves(w.st, e) + rest, RowsOf(e)));
  }

  lemma SecondEffect(w0: World, w: World, q0: Req, q1: Req, e: Effect, rest: seq<Effect>)
    requires RunsTo(w0, Two(w, q0, q1)) && q1.pc.Settling? && q1.pc.todo == [e] + rest
    ensures RunsTo(w0, Two(w.(st := Perform(w.st, e, w.now)), q0, Onward(q1, Leaves(w.st, e) + rest, RowsOf(e))))
  {
    EffectRuns(w0, Two(w, q0, q1), 1, e, rest);
    TwoMoves(w, q0, q1, Onward(q1, Leaves(w.st, e) + rest, RowsOf(e)));
  }

  /** Both requests have their answers. */
  lemma BothAnswered(w0: World, q: Req, a0: Answer, a1: Answer)
    requires Reaches(w0, Two(w0, q, q)) && q.pc == Sending(ATTEMPT, true)
    ensures RunsTo(w0, Two(w0, AnsweredReq(q, ATTEMPT, a0), AnsweredReq(q, ATTEMPT, a1)))
  {
    RespondStep(w0, Two(w0, q, q), 0, a0, ATTEMPT);
    var q0 := AnsweredReq(q, ATTEMPT, a0);
    TwoMoves(w0, q, q, q0);
    RespondStep(w0, Two(w0, q0, q), 1, a1, ATTEMPT);
    TwoMoves(w0, q0, q, AnsweredReq(q, ATTEMPT, a1));
    ReachesRuns(w0, Two(w0, q0, AnsweredReq(q, ATTEMPT, a1)));
  }

  /** The first request reads the status; the second revokes the account in both copies; then the
      first writes what it read. */
  lemma LateWrite(w0: World, q0: Req, q1: Req, log: seq<Effect>, log': seq<Effect>) returns (w: World)
    requires RunsTo(w0, Two(w0, q0, q1)) && q0.pc.Settling? && q1.pc.Settling?
    requires q0.pc.todo == [RecordInMemory(1, true), ReadThenStore(1, true)] + log
    requires q1.pc.todo == [StatusInMemory(1, HardRevoked), StatusInStore(1, HardRevoked)] + log'
    ensures var mem := RecordMem(w0.st, 1, true);
      RunsTo(w0, w) && w.st == RecordDb(SetStatus(mem, 1, HardRevoked), 1, true, ReadStatus(mem, 1))
  {
    var e1, e2 := RecordInMemory(1, true), ReadThenStore(1, true);
    var f1, f2 := StatusInMemory(1, HardRevoked), StatusInStore(1, HardRevoked);
    assert q0.pc.todo == [e1] + ([e2] + log) && q1.pc.todo == [f1] + ([f2] + log');
    FirstEffect(w0, w0, q0, q1, e1, [e2] + log);
    assert [] + ([e2] + log) == [e2] + log;
    var w1, q2 := w0.(st := RecordMem(w0.st, 1, true)), Onward(q0, [e2] + log, []);
    FirstEffect(w0, w1, q2, q1, e2, log);
    var e3 := RecordInStore(1, true, ReadStatus(w1.st, 1));
    var q3 := Onward(q2, [e3] + log, []);
    w := Revoked(w0, w1, q3, q1, log');
    FirstEffect(w0, w1.(st := SetStatus(w1.st, 1, HardRevoked)), q3, w.reqs[1], e3, log);
    w := Two(w1.(st := RecordDb(SetStatus(w1.st, 1, HardRevoked), 1, true, ReadStatus(w1.st, 1))),
             Onward(q3, [] + log, []), w.reqs[1]);
  }

  lemma Revoked(w0: World, w: World, q0: Req, q1: Req, log: seq<Effect>) returns (w': World)
    requires RunsTo(w0, Two(w, q0, q1)) && q1.pc.Settling?
    requires q1.pc.todo == [StatusInMemory(1, HardRevoked), StatusInStore(1, HardRevoked)] + log
    ensures RunsTo(w0, w') && 1 in w'.reqs && w' == Two(w.(st := SetStatus(w.st, 1, HardRevoked)), q0, w'.reqs[1])
  {
    var f1, f2 := StatusInMemory(1, HardRevoked), StatusInStore(1, HardRevoked);
    assert q1.pc.todo == [f1] + ([f2] + log);
    SecondEffect(w0, w, q0, q1, f1, [f2] + log);
    assert [] + ([f2] + log) == [f2] + log;
    var w1, q2 := w.(st := SetStatusMem(w.st, 1, HardRevoked)), Onward(q1, [f2] + log, []);
    SecondEffect(w0, w1, q0, q2, f2, log);
    w' := Two(w1.(st := SetStatus(w.st, 1, HardRevoked)), q0, Onward(q2, [] + log, []));
  }

  lemma LateWriteStatus(st: State)
    requires 1 in st.accounts && 1 in st.db.accounts && st.accounts[1].status == Healthy
    ensures var mem := RecordMem(st, 1, true);
            var st' := RecordDb(SetStatus(mem, 1, HardRevoked), 1, true, ReadStatus(mem, 1));
      && 1 in st'.accounts && st'.accounts[1].status == HardRevoked
      && 1 in st'.db.accounts && st'.db.accounts[1].status == Healthy
      && (StoreIs(st.db, 10) && st.db.accounts[1].quotaUsed == 0 ==> StoreIs(st'.db, 10))
  {
    var mem := RecordMem(st, 1, true);
    assert mem.db == st.db && mem.accounts[1].status == Healthy;
    var out := SetStatus(mem, 1, HardRevoked);
    assert out.accounts[1].status == HardRevoked && 1 in out.db.accounts;
  }

  /** A late record of a success undoes a revocation at the next restart: one request succeeds and
      reads the status; another is answered with 401 and revokes the account in both copies; then
      the first writes what it read. Memory shows the account revoked, the store healthy, and the
      restarted gateway selects it. */
  lemma LateRecordUndoesRevocation() returns (w: World)
    ensures RunsTo(Start(10, 0, 1, 2), w)
    ensures 1 in w.st.accounts && w.st.accounts[1].status == HardRevoked
    ensures 1 in w.st.db.accounts && w.st.db.accounts[1].status == Healthy
    ensures 1 in Restarted(w.st).accounts && Restarted(w.st).accounts[1].status == Healthy
    ensures Choose(Restarted(w.st), SLUG, 0, [1]) == Some(ATTEMPT)
  {
    var w0 := Start(10, 0, 1, 2);
    StartsBothSent(w0);
    StartStore(w0);
    w := LateWriteFrom(w0);
    RestartSelects(w.st, 10);
  }

  lemma StartStore(w0: World)
    requires w0 == Start(10, 0, 1, 2)
    ensures StoreIs(w0.st.db, 10) && w0.st.db.accounts[1].quotaUsed == 0
  {
    StartIsIdle(10, 0, 1, 2);
  }

  lemma RestartSelects(st: State, limit: int)
    requires StoreIs(st.db, limit)
    ensures 1 in Restarted(st).accounts && Restarted(st).accounts[1].status == Healthy
    ensures Choose(Restarted(st), SLUG, 0, [1]) == Some(ATTEMPT)
  {
    RestartedIsAble(st, limit);
    AbleIsChosen(Restarted(st), 0);
  }

  /** The store as it was but for the account's counts and the log. */
  ghost predicate StoreIs(db: Db, limit: int) {
    && db.accounts.Keys == {1} && db.proxies == map[1 := PROXY]
    && db.accounts[1].platform == SLUG && db.accounts[1].boundProxy == Some(1) && db.accounts[1].status == Healthy
    && db.accounts[1].quotaLimit == Some(limit) && db.accounts[1].quotaUsed < limit
  }

  lemma RestartedIsAble(st: State, limit: int)
    requires StoreIs(st.db, limit)
    ensures Able(Restarted(st), 0)
  {
    assert Restarted(st).accounts.Keys == {1};
    assert Restarted(st).proxies == map[1 := Entry(PROXY)];
  }

  lemma LateWriteFrom(w0: World) returns (w: World)
    requires Reaches(w0, BothSent(w0)) && Able(w0.st, 0)
    requires StoreIs(w0.st.db, 10) && w0.st.db.accounts[1].quotaUsed == 0
    ensures RunsTo(w0, w) && StoreIs(w.st.db, 10)
    ensures 1 in w.st.accounts && w.st.accounts[1].status == HardRevoked
    ensures 1 in w.st.db.accounts && w.st.db.accounts[1].status == Healthy
  {
    var q := Picked(w0).(pc := Sending(ATTEMPT, true));
    BothAnswered(w0, q, Responded(200, None), REVOKED);
    SuccessEffects();
    RevokedEffects();
    w := LateWrite(w0, AnsweredReq(q, ATTEMPT, Responded(200, None)), AnsweredReq(q, ATTEMPT, REVOKED),
                   [LogCall(CallRow(CALL, ATTEMPT, Some(200), 0, true))], [LogCall(REVOKED_ROW)]);
    LateWriteStatus(w0.st);
  }

  // ----- an enabling lost between the halves of a revocation -----

  /** An administrator who enables the account between the two halves of its revocation loses it at
      the next restart: memory shows it healthy, the store revoked. */
  lemma EnablingIsLost() returns (w: World)
    ensures RunsTo(Start(10, 0, 0, 1), w)
    ensures 1 in w.st.accounts && w.st.accounts[1].status == Healthy
    ensures 1 in w.st.db.accounts && w.st.db.accounts[1].status == HardRevoked
    ensures 1 in Restarted(w.st).accounts && Restarted(w.st).accounts[1].status == HardRevoked
  {
    StartIsIdle(10, 0, 0, 1);
    w := LostFromIdle(Start(10, 0, 0, 1));
  }

  lemma LostFromIdle(w0: World) returns (w: World)
    requires Idle(w0) && 1 in w0.st.db.accounts
    ensures RunsTo(w0, w)
    ensures 1 in w.st.accounts && w.st.accounts[1].status == Healthy
    ensures 1 in w.st.db.accounts && w.st.db.accounts[1].status == HardRevoked
  {
    OneAnswered(w0, REVOKED);
    RevokedEffects();
    w := EnabledBetween(w0, AnsweredReq(First(w0, Sending(ATTEMPT, true)), ATTEMPT, REVOKED), [LogCall(REVOKED_ROW)]);
    EnabledStatus(w0.st);
  }

  lemma EnabledBetween(w0: World, q: Req, log: seq<Effect>) returns (w: World)
    requires RunsTo(w0, One(w0, q)) && q.pc.Settling?
    requires q.pc.todo == [StatusInMemory(1, HardRevoked), StatusInStore(1, HardRevoked)] + log
    ensures RunsTo(w0, w)
    ensures w.st == SetStatusDb(SetStatus(SetStatusMem(w0.st, 1, HardRevoked), 1, Healthy), 1, HardRevoked)
  {
    var f1, f2 := StatusInMemory(1, HardRevoked), StatusInStore(1, HardRevoked);
    assert q.pc.todo == [f1] + ([f2] + log);
    OneEffect(w0, w0, q, f1, [f2] + log);
    assert [] + ([f2] + log) == [f2] + log;
    var w1, q1 := w0.(st := SetStatusMem(w0.st, 1, HardRevoked)), Onward(q, [f2] + log, []);
    OneOperates(w0, w1, q1, ChangeStatus(1, Healthy));
    var st2 := SetStatus(w1.st, 1, Healthy);
    var w2 := w1.(st := st2, sems := w1.sems + st2.acctPermits);
    OneEffect(w0, w2, q1, f2, log);
    w := One(w2.(st := SetStatusDb(st2, 1, HardRevoked)), Onward(q1, [] + log, []));
  }

  lemma EnabledStatus(st: State)
    requires 1 in st.accounts && 1 in st.db.accounts
    ensures var st' := SetStatusDb(SetStatus(SetStatusMem(st, 1, HardRevoked), 1, Healthy), 1, HardRevoked);
      && 1 in st'.accounts && st'.accounts[1].status == Healthy
      && 1 in st'.db.accounts && st'.db.accounts[1].status == HardRevoked
  {
    var mem := SetStatusMem(st, 1, HardRevoked);
    assert mem.db == st.db && 1 in mem.accounts;
    var both := SetStatus(mem, 1, Healthy);
    assert both.accounts[1].status == Healthy && 1 in both.db.accounts;
  }

  // ----- revoked, and back after a reset -----

  /** A request is answered with 401 and goes on to its second attempt. */
  lemma RevokedGoesOn(w0: World) returns (rows: seq<LogRow>)
    requires Idle(w0) && w0.st.db.maxRetries == 1
    ensures var q := First(w0, Sending(ATTEMPT, true));
      RunsTo(w0, One(w0.(st := WriteCallLog(SetStatus(w0.st, 1, HardRevoked), REVOKED_ROW)),
                     After(q, Answered(HardRevokedCode), rows)))
  {
    var q := First(w0, Sending(ATTEMPT, true));
    OneSent(w0);
    rows := AnswerStep(w0, One(w0, q), 0, REVOKED, ATTEMPT);
    RevokedEffects();
    RevokedState(w0.st, w0.now);
    OneMoves(w0, q, After(q, Answered(HardRevokedCode), rows));
    ReachesRuns(w0, One(w0.(st := WriteCallLog(SetStatus(w0.st, 1, HardRevoked), REVOKED_ROW)),
                        After(q, Answered(HardRevokedCode), rows)));
  }

  lemma RevokedState(st: State, now: int)
    ensures PerformAll(st, Effects(CALL, ATTEMPT, 0, REVOKED), now)
      == WriteCallLog(SetStatus(st, 1, HardRevoked), REVOKED_ROW)
  {
    RevokedEffects();
    PerformStatus(st, 1, HardRevoked, [LogCall(REVOKED_ROW)], now);
    LogAtTheEnd(SetStatus(st, 1, HardRevoked), REVOKED_ROW, now);
  }

  lemma ChoosesAfterRevocation(q: Req, rows: seq<LogRow>)
    requires q.retries == 0 && q.maxRetries == 1 && q.call == CALL
    ensures var q' := After(q, Answered(HardRevokedCode), rows); q'.pc == Choosing && q'.call == CALL
  {
  }

  lemma ResetMakesAble(st: State)
    requires Able(st, 0) && 1 in st.db.accounts && st.db.accounts[1].resetAt.None? && st.limitedUntil == map[]
    requires st.accounts[1].quotaLimit.Some? ==> 0 < st.accounts[1].quotaLimit.value
    ensures var out := WriteCallLog(SetStatus(st, 1, HardRevoked), REVOKED_ROW);
      && 1 in out.accounts && out.accounts[1].status == HardRevoked
      && Able(ResetQuotas(out, 0), 0)
  {
    var both := SetStatus(st, 1, HardRevoked);
    SetStatusShape(st);
    var out := WriteCallLog(both, REVOKED_ROW);
    LogOnly(both, REVOKED_ROW);
    LogKeepsRows(both, REVOKED_ROW);
    assert Due(out.db.accounts[1], 0);
  }

  lemma SetStatusShape(st: State)
    requires 1 in st.accounts && 1 in st.db.accounts
    ensures var both := SetStatus(st, 1, HardRevoked);
      && both.accounts == st.accounts[1 := st.accounts[1].(status := HardRevoked, failures := 0)]
      && both.db.accounts == st.db.accounts[1 := st.db.accounts[1].(status := HardRevoked, failures := 0)]
      && both.proxies == st.proxies && both.limitedUntil == st.limitedUntil
  {
    assert SetStatusMem(st, 1, HardRevoked).db == st.db;
  }

  lemma LogKeepsRows(st: State, row: LogRow)
    ensures WriteCallLog(st, row).db.accounts == st.db.accounts
  {
  }

  /** A revoked account comes back: on a run from start-up a 401 revokes it, a reset passes, and the
      same request selects it again. */
  lemma RevokedIsPickedAgain() returns (w: World, w': World)
    ensures RunsTo(Start(10, 0, 1, 1), w) && 1 in w.st.accounts && w.st.accounts[1].status == HardRevoked
    ensures w' == Next(w, Event.Operate(Reset)) && Enabled(w', SelectNow(0, [1])) && Picks(w', SelectNow(0, [1]), 1)
  {
    StartIsIdle(10, 0, 1, 1);
    StartFacts(10, 0, 1, 1);
    w, w' := PickedAgainFrom(Start(10, 0, 1, 1));
  }

  lemma PickedAgainFrom(w0: World) returns (w: World, w': World)
    requires Idle(w0) && w0.now == 0 && w0.st.db.maxRetries == 1 && 1 in w0.st.db.accounts
    requires w0.st.db.accounts[1].resetAt.None? && w0.st.limitedUntil == map[]
    requires w0.st.accounts[1].quotaLimit == Some(10)
    ensures RunsTo(w0, w) && 1 in w.st.accounts && w.st.accounts[1].status == HardRevoked
    ensures w' == Next(w, Event.Operate(Reset)) && Enabled(w', SelectNow(0, [1])) && Picks(w', SelectNow(0, [1]), 1)
  {
    var rows := RevokedGoesOn(w0);
    var q := First(w0, Sending(ATTEMPT, true));
    ChoosesAfterRevocation(q, rows);
    ResetMakesAble(w0.st);
    w := One(w0.(st := WriteCallLog(SetStatus(w0.st, 1, HardRevoked), REVOKED_ROW)),
             After(q, Answered(HardRevokedCode), rows));
    w' := Next(w, Event.Operate(Reset));
    SelectsAgain(w', ResetQuotas(w.st, 0));
  }

  // ----- the failure counters part on a success -----

  /** On a run from start-up one successful call leaves the failure counter at 0 in memory and at 1
      in the store. */
  lemma FailureCountersPart() returns (w: World)
    ensures RunsTo(Start(10, 0, 0, 1), w) && 0 in w.reqs && w.reqs[0].endings == [Answered(Success)]
    ensures 1 in w.st.accounts && w.st.accounts[1].failures == 0
    ensures 1 in w.st.db.accounts && w.st.db.accounts[1].failures == 1
  {
    var w0 := Start(10, 0, 0, 1);
    StartIsIdle(10, 0, 0, 1);
    StartFacts(10, 0, 0, 1);
    var q := RecordedOne(w0);
    RecordedFailures(w0.st);
    w := One(w0.(st := RecordCall(w0.st, 1, true)), q);
  }

  lemma RecordedFailures(st: State)
    requires 1 in st.accounts && 1 in st.db.accounts
    ensures var st' := RecordCall(st, 1, true);
      && 1 in st'.accounts && st'.accounts[1].failures == 0
      && 1 in st'.db.accounts && st'.db.accounts[1].failures == st.db.accounts[1].failures + 1
  {
    var mem := RecordMem(st, 1, true);
    assert mem.accounts[1].failures == 0 && mem.db == st.db;
  }

  // ----- a failed send, and still the same proxy -----

  /** On a run from start-up a send fails and the account, bound anew to "another" proxy, is bound to
      the one it had, in both copies. */
  lemma StaysOnItsProxy() returns (w: World)
    ensures RunsTo(Start(10, 0, 0, 1), w) && 0 in w.reqs && w.reqs[0].endings == [NetworkFailure]
    ensures 1 in w.st.accounts && w.st.accounts[1].boundProxy == Some(1)
    ensures 1 in w.st.db.accounts && w.st.db.accounts[1].boundProxy == Some(1)
  {
    var w0 := Start(10, 0, 0, 1);
    StartHasOneProxy(w0);
    w := FailedFrom(w0);
  }

  lemma StartHasOneProxy(w0: World)
    requires w0 == Start(10, 0, 0, 1)
    ensures Idle(w0) && WellFormed(w0.st.db) && w0.st.db.proxies.Keys == {1}
    ensures 1 in w0.st.db.accounts && w0.st.db.accounts[1].boundProxy == Some(1)
  {
    StartIsIdle(10, 0, 0, 1);
    StoreWellFormed(10, 0, 0);
  }

  lemma FailedFrom(w0: World) returns (w: World)
    requires Idle(w0) && WellFormed(w0.st.db) && w0.st.db.proxies.Keys == {1}
    requires 1 in w0.st.db.accounts && w0.st.db.accounts[1].boundProxy == Some(1)
    ensures RunsTo(w0, w) && 0 in w.reqs && w.reqs[0].endings == [NetworkFailure]
    ensures 1 in w.st.accounts && w.st.accounts[1].boundProxy == Some(1)
    ensures 1 in w.st.db.accounts && w.st.db.accounts[1].boundProxy == Some(1)
  {
    var q := First(w0, Sending(ATTEMPT, true));
    OneSent(w0);
    var rows := DrainStep(w0, One(w0, q), 0, Failed, ATTEMPT);
    FailureState(w0.st, w0.now);
    FailureBinding(w0.st, w0.now);
    var q' := Drained(q, ATTEMPT, NetworkFailure, rows);
    OneMoves(w0, q, q');
    w := One(w0.(st := PerformAll(w0.st, Effects(CALL, ATTEMPT, 0, Failed), w0.now)), q');
    ReachesRuns(w0, w);
  }

  lemma FailureBinding(st: State, now: int)
    requires WellFormed(st.db) && st.db.proxies.Keys == {1}
    requires 1 in st.db.accounts && st.db.accounts[1].boundProxy == Some(1)
    ensures var rows := PerformAll(st, Effects(CALL, ATTEMPT, 0, Failed), now).db.accounts;
      1 in rows && rows[1].boundProxy == Some(1)
  {
    var row := CallRow(CALL, ATTEMPT, None, 0, false);
    assert Effects(CALL, ATTEMPT, 0, Failed) == Reaction(CALL, ATTEMPT, 0, Failed);
    PerformFailure(st, CALL, ATTEMPT, 0, now);
    var st1 := WriteCallLog(st, row);
    LogMirrorsWellFormed(st, row);
    LogKeepsRows(st, row);
    BoundAgain(st1);
  }

  lemma BoundAgain(st: State)
    requires WellFormed(st.db) && st.db.proxies.Keys == {1}
    requires 1 in st.db.accounts && st.db.accounts[1].boundProxy == Some(1)
    ensures var rows := BindAccount(st, 1, None).db.accounts; 1 in rows && rows[1].boundProxy == Some(1)
  {
    ChoiceMeaning(st.db, st.db.accounts[1].platform, None);
    var choice := ChooseProxy(st.db, st.db.accounts[1].platform, None);
    if choice.Some? {
      assert choice.value in st.db.proxies.Keys;
      assert BindAccount(st, 1, None).db.accounts == st.db.accounts[1 := st.db.accounts[1].(boundProxy := choice)];
    }
  }
}
