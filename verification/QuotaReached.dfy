/** The overshoot bound is attained from start-up: for every limit and every number of permits some
    run ends with the quota overshot by exactly one less than the permits. */
module QuotaReached {
  import opened Wrappers
  import opened Counting
  import opened Database
  import opened Adapter
  import opened PoolState
  import opened Forwarding
  import opened SoloForward
  import opened Engine
  import opened Steps
  import opened Demo

  const ANSWER: Answer := Responded(200, None)

  /** A request that has selected the account. */
  function Picked(w: World): Req { Req(CALL, Chosen(ATTEMPT), 0, ReadMaxRetries(w.st.db.maxRetries), [], []) }

  // ----- all select -----

  /** Requests 0 to k - 1 have selected the account; nothing else has happened. */
  ghost predicate AllPicked(w0: World, w: World, k: nat) {
    && Reaches(w0, w) && w == w0.(reqs := w.reqs)
    && (forall r :: r in w.reqs <==> 0 <= r < k)
    && (forall r :: r in w.reqs ==> w.reqs[r] == Picked(w0))
    && Count(w.reqs, HoldsPlatform(SLUG)) == k
  }

  /** Request k has its platform permit. */
  lemma AdmitReaches(w0: World, w: World, k: nat)
    requires AllPicked(w0, w, k) && SLUG in w0.st.platPermits && k < w0.st.platPermits[SLUG]
    ensures Reaches(w0, Moved(w, k, Picked(w0).(pc := Choosing)))
  {
    AdmitStep(w0, w, k, CALL);
  }

  lemma SelectReaches(w0: World, w: World, r: int)
    requires Reaches(w0, w) && r in w.reqs && w.reqs[r].pc == Choosing && w.reqs[r].call == CALL && Able(w.st, w.now)
    ensures Reaches(w0, Moved(w, r, w.reqs[r].(pc := Chosen(ATTEMPT))))
  {
    AbleIsChosen(w.st, w.now);
    SelectStep(w0, w, r, Env([1], w.now, ANSWER, w.now));
  }

  lemma PickReaches(w0: World, w: World, k: nat)
    requires AllPicked(w0, w, k) && Able(w0.st, w0.now) && SLUG in w0.st.platPermits && k < w0.st.platPermits[SLUG]
    ensures Reaches(w0, Moved(w, k, Picked(w0)))
  {
    AdmitReaches(w0, w, k);
    var w1 := Moved(w, k, Picked(w0).(pc := Choosing));
    SelectReaches(w0, w1, k);
    assert w1.reqs[k := Picked(w0)] == w.reqs[k := Picked(w0)];
  }

  lemma PickOne(w0: World, w: World, k: nat) returns (w': World)
    requires AllPicked(w0, w, k) && Able(w0.st, w0.now) && SLUG in w0.st.platPermits && k < w0.st.platPermits[SLUG]
    ensures AllPicked(w0, w', k + 1)
  {
    PickReaches(w0, w, k);
    w' := Moved(w, k, Picked(w0));
    CountUpdate(w.reqs, k, Picked(w0), HoldsPlatform(SLUG));
  }

  lemma {:induction false} PickAll(w0: World, k: nat) returns (w: World)
    requires Able(w0.st, w0.now) && w0.reqs == map[] && SLUG in w0.st.platPermits && k <= w0.st.platPermits[SLUG]
    ensures AllPicked(w0, w, k)
  {
    if k == 0 {
      w := w0;
      ReachesSelf(w0);
      CountNone(w0.reqs, HoldsPlatform(SLUG));
    } else {
      w := PickAll(w0, k - 1);
      w := PickOne(w0, w, k - 1);
    }
  }

  // ----- one after the other, all succeed -----

  /** Of n requests that selected the account, those below j have run to their end, each with a
      success, and the others still stand where they selected. */
  ghost predicate ServedTo(w0: World, w: World, n: nat, j: nat) {
    && Reaches(w0, w) && 1 in w.st.acctPermits && 1 in w.sems && 1 <= w.sems[1]
    && (forall r :: r in w.reqs <==> 0 <= r < n)
    && (forall r :: 0 <= r < j && r in w.reqs ==> w.reqs[r].pc.Done?)
    && (forall r :: j <= r && r in w.reqs ==> w.reqs[r] == Picked(w0))
    && 1 in w.st.accounts && 1 in w0.st.accounts
    && w.st.accounts[1].quotaUsed == w0.st.accounts[1].quotaUsed + j
    && w.st.accounts[1].quotaLimit == w0.st.accounts[1].quotaLimit
  }

  /** What a success does to the account in memory. */
  lemma SuccessCounts(st: State, now: int)
    requires 1 in st.accounts
    ensures var st' := PerformAll(Counted(st, ATTEMPT), Effects(CALL, ATTEMPT, 0, ANSWER), now);
      && 1 in st'.accounts && st'.accounts[1].quotaUsed == st.accounts[1].quotaUsed + 1
      && st'.accounts[1].quotaLimit == st.accounts[1].quotaLimit
      && st'.acctPermits == st.acctPermits
  {
    assert Classify(200, CALL.codes) == Success;
    var row := CallRow(CALL, ATTEMPT, Some(200), 0, true);
    var todo := [RecordInMemory(1, true), ReadThenStore(1, true)] + [LogCall(row)];
    assert Effects(CALL, ATTEMPT, 0, ANSWER) == todo;
    PerformRecord(st, 1, true, [LogCall(row)], now);
    LogAtTheEnd(RecordCall(st, 1, true), row, now);
    assert RecordCall(st, 1, true).accounts == st.accounts[1 := RecordSlot(st.accounts[1], true)];
  }

  lemma NobodySends(w0: World, w: World, n: nat, j: nat)
    requires ServedTo(w0, w, n, j) && j < n
    ensures FreePermit(w, j, ATTEMPT)
  {
    var reqs := w.reqs[j := w.reqs[j].(pc := AwaitAccount(ATTEMPT))];
    forall r | r in reqs ensures !HoldsAccount(1)(reqs[r]) {
      if r != j { assert reqs[r] == w.reqs[r]; }
    }
    CountNone(reqs, HoldsAccount(1));
  }

  /** Request j after its success. */
  function Finished200(w0: World, rows: seq<LogRow>): Req {
    After(Picked(w0).(pc := Sending(ATTEMPT, true)), Answered(Success), rows)
  }

  lemma SendsNext(w0: World, w: World, n: nat, j: nat) returns (w1: World)
    requires ServedTo(w0, w, n, j) && j < n
    ensures Reaches(w0, w1)
    ensures w1 == Moved(w, j, Picked(w0).(pc := Sending(ATTEMPT, true))).(st := Counted(w.st, ATTEMPT))
  {
    NobodySends(w0, w, n, j);
    SendStep(w0, w, j, ATTEMPT);
    w1 := Moved(w, j, Picked(w0).(pc := Sending(ATTEMPT, true))).(st := Counted(w.st, ATTEMPT));
  }

  lemma ServeReaches(w0: World, w: World, n: nat, j: nat) returns (rows: seq<LogRow>)
    requires ServedTo(w0, w, n, j) && j < n
    ensures Reaches(w0, Moved(w, j, Finished200(w0, rows))
                        .(st := PerformAll(Counted(w.st, ATTEMPT), Effects(CALL, ATTEMPT, 0, ANSWER), w.now)))
  {
    var w1 := SendsNext(w0, w, n, j);
    rows := AnswerStep(w0, w1, j, ANSWER, ATTEMPT);
    assert EndingOf(CALL, ANSWER) == Answered(Success);
    assert w1.reqs[j := Finished200(w0, rows)] == w.reqs[j := Finished200(w0, rows)];
  }

  lemma ServeOne(w0: World, w: World, n: nat, j: nat) returns (w': World)
    requires ServedTo(w0, w, n, j) && j < n
    ensures ServedTo(w0, w', n, j + 1)
  {
    var rows := ServeReaches(w0, w, n, j);
    SuccessCounts(w.st, w.now);
    w' := Moved(w, j, Finished200(w0, rows))
          .(st := PerformAll(Counted(w.st, ATTEMPT), Effects(CALL, ATTEMPT, 0, ANSWER), w.now));
    assert Finished200(w0, rows).pc == Done(Passed(Answered(Success)));
  }

  lemma {:induction false} ServeMany(w0: World, w: World, n: nat, j: nat) returns (w': World)
    requires ServedTo(w0, w, n, 0) && j <= n
    ensures ServedTo(w0, w', n, j)
  {
    w' := w;
    if j > 0 {
      w' := ServeMany(w0, w, n, j - 1);
      w' := ServeOne(w0, w', n, j - 1);
    }
  }

  lemma ServeEverybody(w0: World, n: nat) returns (w: World)
    requires Able(w0.st, w0.now) && w0.reqs == map[] && SLUG in w0.st.platPermits && n == w0.st.platPermits[SLUG]
    requires 1 in w0.st.acctPermits && 1 in w0.sems && 1 <= w0.sems[1]
    ensures ServedTo(w0, w, n, n)
  {
    w := PickAll(w0, n);
    w := ServeMany(w0, w, n, n);
  }

  /** For every limit and every configured number of permits there is a run from start-up, on a
      store whose only account is one below its limit, of requests that all select that account
      before the first of them sends, and then run to their end one after the other: it ends with
      quota_used at the limit plus the permits less one. The bound cannot be lowered. */
  lemma BoundIsReached(limit: int, maxRetries: int, most: nat) returns (w: World)
    requires 1 <= limit
    ensures Reaches(Start(limit, limit - 1, maxRetries, most), w)
    ensures 1 in w.st.accounts && w.st.accounts[1].quotaLimit == Some(limit)
    ensures w.st.accounts[1].quotaUsed == limit + (if most < 1 then 1 else most) - 1
    ensures forall r :: r in w.reqs ==> w.reqs[r].pc.Done?
  {
    StartFacts(limit, limit - 1, maxRetries, most);
    w := ServeEverybody(Start(limit, limit - 1, maxRetries, most), if most < 1 then 1 else most);
  }
}
