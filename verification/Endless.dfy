/** A retry limit at the 32-bit maximum is no limit: one request can go on for ever. */
module Endless {
  import opened Counting
  import opened Wrappers
  import opened Database
  import opened Adapter
  import opened PoolState
  import opened Forwarding
  import opened SoloForward
  import opened Engine
  import opened Concurrency
  import opened Steps
  import opened SoloRuns
  import opened Demo

  const ANSWER: Answer := Responded(500, None)

  /** A server error writes a log row and leaves memory as it is. */
  lemma ServerErrorKeepsMemory(st: State, retries: nat, now: int)
    ensures var st' := AfterAttempt(st, CALL, ATTEMPT, retries, Env([1], now, ANSWER, now));
      st' == st.(db := st'.db)
  {
    assert Classify(500, CALL.codes) == Transient;
    var row := CallRow(CALL, ATTEMPT, Some(500), retries, false);
    assert Effects(CALL, ATTEMPT, retries, ANSWER) == [LogCall(row)];
    LogAtTheEnd(st, row, now);
  }

  /** The request stands before another attempt after n of them. */
  ghost predicate Attempted(w0: World, w: World, n: nat) {
    && Reaches(w0, w) && Alone(w, 0) && Able(w.st, w.now)
    && w.reqs[0].pc == Choosing && w.reqs[0].call == CALL && w.reqs[0].maxRetries == U32_LIMIT - 1
    && |w.reqs[0].endings| == n
  }

  lemma ChoosesAgain(q: Req, rows: seq<LogRow>)
    requires q.maxRetries == U32_LIMIT - 1
    ensures var q' := After(q, Answered(Transient), rows);
      && q'.pc == Choosing && q'.call == q.call && q'.maxRetries == q.maxRetries
      && |q'.endings| == |q.endings| + 1
  {
    assert 0 <= (q.retries + 1) % U32_LIMIT <= U32_LIMIT - 1;
  }

  lemma AttemptAgain(w0: World, w: World, n: nat) returns (w': World)
    requires PermitsOk(w0) && Attempted(w0, w, n)
    ensures Attempted(w0, w', n + 1)
  {
    var q, e := w.reqs[0], Env([1], w.now, ANSWER, w.now);
    AbleIsChosen(w.st, w.now);
    var rows := AttemptAlone(w0, w, 0, e, ATTEMPT);
    assert EndingOf(CALL, ANSWER) == Answered(Transient);
    ChoosesAgain(q, rows);
    ServerErrorKeepsMemory(w.st, q.retries, w.now);
    w' := World(AfterAttempt(w.st, CALL, ATTEMPT, q.retries, e), w.sems,
                w.reqs[0 := After(q, Answered(Transient), rows)], w.now);
  }

  lemma {:induction false} AttemptTimes(w0: World, w: World, n: nat) returns (w': World)
    requires PermitsOk(w0) && Attempted(w0, w, 0)
    ensures Attempted(w0, w', n)
  {
    w' := w;
    if n > 0 {
      w' := AttemptTimes(w0, w, n - 1);
      w' := AttemptAgain(w0, w', n - 1);
    }
  }

  lemma FirstAttempt(w0: World) returns (w: World)
    requires w0.reqs == map[] && Able(w0.st, w0.now) && ReadMaxRetries(w0.st.db.maxRetries) == U32_LIMIT - 1
    requires SLUG in w0.st.platPermits && 1 <= w0.st.platPermits[SLUG]
    ensures Attempted(w0, w, 0)
  {
    ReachesSelf(w0);
    CountNone(w0.reqs, HoldsPlatform(SLUG));
    AdmitStep(w0, w0, 0, CALL);
    w := Moved(w0, 0, Req(CALL, Choosing, 0, U32_LIMIT - 1, [], []));
  }

  /** With the retry limit at the 32-bit maximum there is for every n a run from start-up on which
      one request has made n attempts and is not finished. Below the maximum
      `Concurrency.OwnStepsAreBounded` bounds its steps. */
  lemma AnyNumberOfAttempts(n: nat) returns (w: World)
    ensures Reaches(Start(1, 0, U32_LIMIT - 1, 1), w)
    ensures 0 in w.reqs && |w.reqs[0].endings| == n && !w.reqs[0].pc.Done? && w.reqs[0].maxRetries == U32_LIMIT - 1
  {
    var w0 := Start(1, 0, U32_LIMIT - 1, 1);
    StartIsEndless(w0);
    w := AttemptsFrom(w0, n);
  }

  lemma StartIsEndless(w0: World)
    requires w0 == Start(1, 0, U32_LIMIT - 1, 1)
    ensures Idle(w0) && ReadMaxRetries(w0.st.db.maxRetries) == U32_LIMIT - 1
  {
    StartIsIdle(1, 0, U32_LIMIT - 1, 1);
    assert ReadMaxRetries(U32_LIMIT - 1) == U32_LIMIT - 1;
  }

  lemma AttemptsFrom(w0: World, n: nat) returns (w: World)
    requires Idle(w0) && ReadMaxRetries(w0.st.db.maxRetries) == U32_LIMIT - 1
    ensures Attempted(w0, w, n)
  {
    w := FirstAttempt(w0);
    w := AttemptTimes(w0, w, n);
  }
}
