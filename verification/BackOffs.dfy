/** Back-offs over every interleaving: how long a recorded one keeps its account from being
    selected, and what cuts it short. */
module BackOffs {
  import opened Wrappers
  import opened Text
  import opened Database
  import opened Adapter
  import opened PoolState
  import opened Binding
  import opened Selection
  import opened Admin
  import opened Forwarding
  import opened Engine
  import opened Lifecycle
  import opened Steps
  import opened Demo
  import opened QuotaReached
  import opened Scenes

  /** The account has a back-off that lasts until `t` at least. */
  predicate Barred(st: State, a: int, t: int) {
    a in st.limitedUntil && t <= st.limitedUntil[a]
  }

  /** The event records a back-off of the account that ends before `t`. */
  ghost predicate Shortens(w: World, ev: Event, a: int, t: int)
    requires Enabled(w, ev)
  {
    ev.DoEffect?
    && var e := w.reqs[ev.r].pc.todo[0];
       e.BackOff? && e.acct == a && w.now + e.seconds * SECOND < t
  }

  lemma EffectBarsIff(st: State, e: Effect, now: int, a: int, t: int)
    requires Barred(st, a, t)
    ensures Barred(Perform(st, e, now), a, t) <==> !(e.BackOff? && e.acct == a && now + e.seconds * SECOND < t)
  {
    if e.RebindAccount? { BindOnly(st, e.acct, None); }
  }

  /** One step ends the exclusion before `t` exactly when it records such a back-off, overwriting
      the longer one; nothing else does. */
  lemma StepBarsIff(w: World, ev: Event, a: int, t: int)
    requires Enabled(w, ev) && Barred(w.st, a, t)
    ensures Barred(Next(w, ev).st, a, t) <==> !Shortens(w, ev, a, t)
  {
    match ev
    case Operate(op) => ApplyRuntime(w.st, op, w.now);
    case DoEffect(r) => EffectBarsIff(w.st, w.reqs[r].pc.todo[0], w.now, a, t);
    case _ =>
  }

  ghost predicate NeverShortened(w: World, evs: seq<Event>, a: int, t: int)
    requires Runnable(w, evs)
    decreases evs
  {
    evs == [] || (!Shortens(w, evs[0], a, t) && NeverShortened(Next(w, evs[0]), evs[1..], a, t))
  }

  /** No selection of the run picks the account before `t`. */
  ghost predicate NotPickedBefore(w: World, evs: seq<Event>, a: int, t: int)
    requires Runnable(w, evs)
    decreases evs
  {
    evs == [] || (!(w.now < t && Picks(w, evs[0], a)) && NotPickedBefore(Next(w, evs[0]), evs[1..], a, t))
  }

  lemma BarredIsNotPicked(w: World, ev: Event, a: int, t: int)
    requires Enabled(w, ev) && Barred(w.st, a, t) && w.now < t
    ensures !Picks(w, ev, a)
  {
    if ev.SelectNow? { ChosenIsSchedulable(w.st, w.reqs[ev.r].call.platform, w.now, ev.order); }
  }

  /** On every run an account backed off until `t` is selected by nobody before `t`, as long as no
      back-off that ends earlier is recorded for it meanwhile. */
  lemma {:induction false} BackOffHolds(w: World, evs: seq<Event>, a: int, t: int)
    requires Runnable(w, evs) && Barred(w.st, a, t) && NeverShortened(w, evs, a, t)
    ensures Barred(Run(w, evs).st, a, t) && NotPickedBefore(w, evs, a, t)
    decreases evs
  {
    if evs != [] {
      StepBarsIff(w, evs[0], a, t);
      if w.now < t { BarredIsNotPicked(w, evs[0], a, t); }
      BackOffHolds(Next(w, evs[0]), evs[1..], a, t);
    }
  }

  // ----- a shorter back-off wins -----

  /** The delta-seconds form is read back. */
  lemma RetryAfterReadBack(n: int)
    requires IsI64(n)
    ensures RetryAfterSeconds(Some(PrintInt(n))) == n
  {
    var s := PrintInt(n);
    I64RoundTrip(n);
    SignOfPrint(n);
    NatRoundTrip(if n < 0 then -n else n);
    assert s != "" && !IsBlank(s[0]) && !IsBlank(s[|s| - 1]);
  }

  /** Rate limited for n seconds. */
  function Limited(n: int): Answer { Responded(429, Some(PrintInt(n))) }

  const LIMITED_ROW: LogRow := CallRow(CALL, ATTEMPT, Some(429), 0, false)

  /** A rate limit backs the account off for the time it names. */
  lemma RateLimitState(st: State, n: int, now: int)
    requires IsI64(n)
    ensures PerformAll(st, Effects(CALL, ATTEMPT, 0, Limited(n)), now)
         == WriteCallLog(MarkRateLimited(st, 1, now + n * SECOND), LIMITED_ROW)
  {
    RetryAfterReadBack(n);
    assert Classify(429, CALL.codes) == RateLimited;
    assert Effects(CALL, ATTEMPT, 0, Limited(n)) == Reaction(CALL, ATTEMPT, 0, Limited(n));
    PerformRateLimit(st, CALL, ATTEMPT, 0, 429, Some(PrintInt(n)), now);
  }

  /** With one proxy, binding anew binds to it again. */
  lemma BindStays(st: State)
    requires WellFormed(st.db) && st.db.proxies.Keys == {1} && st.accounts.Keys == {1}
      && st.accounts[1].boundProxy == Some(1)
    ensures var st' := BindAccount(st, 1, None); st' == st.(db := st'.db)
  {
    if 1 in st.db.accounts {
      ChoiceMeaning(st.db, st.db.accounts[1].platform, None);
      var choice := ChooseProxy(st.db, st.db.accounts[1].platform, None);
      if choice.Some? {
        assert choice.value in st.db.proxies.Keys;
        assert st.accounts[1 := st.accounts[1].(boundProxy := choice)] == st.accounts;
      }
    }
  }

  /** A failed send then backs it off for 30 seconds. */
  lemma FailureState(st: State, now: int)
    requires WellFormed(st.db) && st.db.proxies.Keys == {1} && st.accounts.Keys == {1}
      && st.accounts[1].boundProxy == Some(1)
    ensures var st' := PerformAll(st, Effects(CALL, ATTEMPT, 0, Failed), now);
      st' == st.(limitedUntil := st.limitedUntil[1 := now + 30 * SECOND], db := st'.db)
  {
    var row := CallRow(CALL, ATTEMPT, None, 0, false);
    assert Effects(CALL, ATTEMPT, 0, Failed) == Reaction(CALL, ATTEMPT, 0, Failed);
    PerformFailure(st, CALL, ATTEMPT, 0, now);
    var st1 := WriteCallLog(st, row);
    LogMirrorsWellFormed(st, row);
    BindStays(st1);
  }

  lemma LogMirrorsWellFormed(st: State, row: LogRow)
    requires WellFormed(st.db)
    ensures var db' := WriteCallLog(st, row).db;
      WellFormed(db') && db' == st.db.(logs := db'.logs, nextLog := db'.nextLog)
  {
  }

  /** From sending to settled, `st'` being what the effects make of the pools. */
  lemma SettleStep(w0: World, w: World, r: int, answer: Answer, st': State) returns (rows: seq<LogRow>)
    requires Reaches(w0, w) && r in w.reqs && w.reqs[r].pc == Sending(ATTEMPT, true)
    requires PerformAll(w.st, Effects(w.reqs[r].call, ATTEMPT, w.reqs[r].retries, answer), w.now) == st'
    ensures Reaches(w0, Moved(w, r, Drained(w.reqs[r], ATTEMPT, EndingOf(w.reqs[r].call, answer), rows)).(st := st'))
  {
    rows := DrainStep(w0, w, r, answer, ATTEMPT);
  }

  /** Of two requests that have sent, the first settles. */
  lemma FirstSettles(w0: World, w: World, q: Req, answer: Answer, st': State) returns (rows: seq<LogRow>)
    requires Reaches(w0, Two(w, q, q)) && q.pc == Sending(ATTEMPT, true)
    requires PerformAll(w.st, Effects(q.call, ATTEMPT, q.retries, answer), w.now) == st'
    ensures Reaches(w0, Two(w, Drained(q, ATTEMPT, EndingOf(q.call, answer), rows), q).(st := st'))
  {
    rows := SettleStep(w0, Two(w, q, q), 0, answer, st');
    TwoMoves(w, q, q, Drained(q, ATTEMPT, EndingOf(q.call, answer), rows));
  }

  /** The second settles, the first finishes its attempt, and half a minute passes. */
  lemma SecondSettles(w: World, q0: Req, q: Req, answer: Answer, st': State) returns (rows: seq<LogRow>)
    requires q.pc == Sending(ATTEMPT, true) && q0.pc == Settling(ATTEMPT, true, []) && q0.endings != [] && w.now == 0
    requires PerformAll(w.st, Effects(q.call, ATTEMPT, q.retries, answer), 0) == st'
    ensures Reaches(Two(w, q0, q),
                    World(st', w.sems, map[0 := Finished(q0),
                                           1 := Drained(q, ATTEMPT, EndingOf(q.call, answer), rows)], 30 * SECOND))
  {
    var w0 := Two(w, q0, q);
    ReachesSelf(w0);
    rows := SettleStep(w0, w0, 1, answer, st');
    var q1 := Drained(q, ATTEMPT, EndingOf(q.call, answer), rows);
    TwoMoves(w, q0, q, q1);
    var w1 := Two(w, q0, q1).(st := st');
    FinishStep(w0, w1, 0);
    TwoMoves(w, q0, q1, Finished(q0));
    WaitUntil(w0, Two(w, Finished(q0), q1).(st := st'), 30 * SECOND);
  }

  lemma AbleAgain(st: State, n: int) returns (st1: State, st2: State)
    requires WellFormed(st.db) && Able(st, 0) && st.db.proxies.Keys == {1}
    ensures st1 == WriteCallLog(MarkRateLimited(st, 1, n * SECOND), LIMITED_ROW)
    ensures st2 == PerformAll(st1, Effects(CALL, ATTEMPT, 0, Failed), 0)
    ensures Barred(st1, 1, n * SECOND) && Able(st2, 30 * SECOND)
  {
    st1 := WriteCallLog(MarkRateLimited(st, 1, n * SECOND), LIMITED_ROW);
    LogMirrorsWellFormed(MarkRateLimited(st, 1, n * SECOND), LIMITED_ROW);
    LogOnly(MarkRateLimited(st, 1, n * SECOND), LIMITED_ROW);
    FailureState(st1, 0);
    st2 := PerformAll(st1, Effects(CALL, ATTEMPT, 0, Failed), 0);
  }

  /** A rate limit lets the first attempt be followed by a second one. */
  lemma LimitedGoesOn(q: Req, n: int, rows: seq<LogRow>)
    requires q.call == CALL && q.retries == 0 && q.maxRetries == 1 && q.endings == []
    ensures EndingOf(CALL, Limited(n)) == Answered(RateLimited)
    ensures var q0 := Drained(q, ATTEMPT, Answered(RateLimited), rows);
      q0.endings != [] && Finished(q0).pc == Choosing && Finished(q0).call == CALL
  {
  }

  /** A back-off of an hour need not last the hour, nor any other longer than half a minute: on a
      run from start-up with two requests on the account, one rate limited for n seconds, the other
      then failing to send, the first selects the account again after 30 seconds. */
  lemma ShorterBackOffWins(n: int) returns (w: World, w': World)
    requires IsI64(n) && 30 < n
    ensures Reaches(Start(10, 0, 1, 2), w) && Reaches(w, w')
    ensures w.now == 0 && Barred(w.st, 1, n * SECOND)
    ensures w'.now == 30 * SECOND < n * SECOND && Enabled(w', SelectNow(0, [1])) && Picks(w', SelectNow(0, [1]), 1)
  {
    var w0 := Start(10, 0, 1, 2);
    StartsBothSent(w0);
    w, w' := Race(w0, n);
  }

  lemma Race(w0: World, n: int) returns (w: World, w': World)
    requires Reaches(w0, BothSent(w0)) && WellFormed(w0.st.db) && w0.now == 0 && Able(w0.st, 0) && IsI64(n)
    requires w0.st.db.proxies.Keys == {1} && w0.st.db.maxRetries == 1
    ensures Reaches(w0, w) && Reaches(w, w')
    ensures w.now == 0 && Barred(w.st, 1, n * SECOND)
    ensures w'.now == 30 * SECOND && Enabled(w', SelectNow(0, [1])) && Picks(w', SelectNow(0, [1]), 1)
  {
    RateLimitState(w0.st, n, 0);
    var st1, st2 := AbleAgain(w0.st, n);
    var q := Picked(w0).(pc := Sending(ATTEMPT, true));
    var rows := FirstSettles(w0, w0, q, Limited(n), st1);
    LimitedGoesOn(q, n, rows);
    var q0 := Drained(q, ATTEMPT, Answered(RateLimited), rows);
    w := Two(w0, q0, q).(st := st1);
    var rows' := SecondSettles(w0.(st := st1), q0, q, Failed, st2);
    w' := World(st2, w0.sems, map[0 := Finished(q0), 1 := Drained(q, ATTEMPT, NetworkFailure, rows')], 30 * SECOND);
    SelectsAgain(w', st2);
  }

  lemma SelectsAgain(w: World, st: State)
    requires w.st == st && Able(st, w.now) && 0 in w.reqs && w.reqs[0].pc == Choosing && w.reqs[0].call == CALL
    ensures Enabled(w, SelectNow(0, [1])) && Picks(w, SelectNow(0, [1]), 1)
  {
    AbleIsChosen(st, w.now);
  }
}
