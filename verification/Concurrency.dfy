/** Permits and progress: what every interleaving keeps about the platform and account
    semaphores, and why no reachable state is stuck. */
module Concurrency {
  import opened Wrappers
  import opened Counting
  import opened Database
  import opened PoolState
  import opened Selection
  import opened Admin
  import opened Forwarding
  import opened Engine

  // ----- platform permits -----

  ghost predicate PlatformOk(w: World) {
    && (forall s :: s in w.st.platPermits ==>
          1 <= w.st.platPermits[s] && Count(w.reqs, HoldsPlatform(s)) <= w.st.platPermits[s])
    && (forall r :: r in w.reqs && !w.reqs[r].pc.Done? ==> w.reqs[r].call.platform in w.st.platPermits)
  }

  lemma OperatePlatforms(w: World, op: Op)
    requires PlatformOk(w)
    ensures PlatformOk(Next(w, Operate(op)))
  {
    ApplyRuntime(w.st, op, w.now);
    PermitsGrowOk(w, Next(w, Operate(op)));
  }

  /** Platforms may get permits; nobody is at work on one that had none. */
  lemma PermitsGrowOk(w: World, w': World)
    requires PlatformOk(w) && w'.reqs == w.reqs && PlatformPermitsGrow(w.st.platPermits, w'.st.platPermits)
    ensures PlatformOk(w')
  {
    forall s | s in w'.st.platPermits && s !in w.st.platPermits
      ensures Count(w.reqs, HoldsPlatform(s)) == 0
    {
      forall r | r in w.reqs ensures !HoldsPlatform(s)(w.reqs[r]) {}
      CountNone(w.reqs, HoldsPlatform(s));
    }
  }

  /** Only entering a platform adds a holder, and then there was room. */
  lemma HoldsOnlyAfterEntering(w: World, ev: Event, s: string)
    requires Enabled(w, ev) && OfRequest(ev) && HoldsPlatform(s)(NextReq(w, ev))
    ensures (ev.r in w.reqs && HoldsPlatform(s)(w.reqs[ev.r]))
      || (s in w.st.platPermits && Count(w.reqs, HoldsPlatform(s)) < w.st.platPermits[s])
  {
  }

  lemma RequestPlatforms(w: World, ev: Event, s: string)
    requires Enabled(w, ev) && OfRequest(ev) && PlatformOk(w) && s in w.st.platPermits
    ensures Count(Next(w, ev).reqs, HoldsPlatform(s)) <= w.st.platPermits[s]
  {
    if HoldsPlatform(s)(NextReq(w, ev)) { HoldsOnlyAfterEntering(w, ev, s); }
    CountUpdate(w.reqs, ev.r, NextReq(w, ev), HoldsPlatform(s));
  }

  lemma RequestStaysOnPlatform(w: World, ev: Event)
    requires Enabled(w, ev) && OfRequest(ev) && PlatformOk(w)
    ensures var q' := NextReq(w, ev); !q'.pc.Done? ==> q'.call.platform in w.st.platPermits
  {
  }

  lemma RequestPlatformsOk(w: World, ev: Event)
    requires Enabled(w, ev) && OfRequest(ev) && PlatformOk(w)
    ensures PlatformOk(Next(w, ev))
  {
    var w' := Next(w, ev);
    RequestKeepsPermits(w, ev);
    RequestStaysOnPlatform(w, ev);
    forall s | s in w.st.platPermits
      ensures Count(w'.reqs, HoldsPlatform(s)) <= w.st.platPermits[s]
    {
      RequestPlatforms(w, ev, s);
    }
  }

  lemma PlatformStep(w: World, ev: Event)
    requires Enabled(w, ev) && PlatformOk(w)
    ensures PlatformOk(Next(w, ev))
  {
    match ev
    case Operate(op) => OperatePlatforms(w, op);
    case Tick(_) =>
    case _ => RequestPlatformsOk(w, ev);
  }

  lemma RequestKeepsPermits(w: World, ev: Event)
    requires Enabled(w, ev) && OfRequest(ev)
    ensures var st' := NextState(w, ev);
      && st'.acctPermits == w.st.acctPermits && st'.platPermits == w.st.platPermits
      && st'.db.nextAccount == w.st.db.nextAccount && st'.accounts.Keys == w.st.accounts.Keys
  {
    if ev.DoEffect? { PerformRuntime(w.st, w.reqs[ev.r].pc.todo[0], w.now); }
  }

  // ----- account permits -----

  /** What a request may hold or wait for: an unguarded attempt is on a deleted account. */
  ghost predicate AttemptOk(pc: Pc, sems: map<int, nat>, acctPermits: map<int, nat>, nextAccount: int) {
    && (HasAttempt(pc) ==> pc.att.acct < nextAccount)
    && (pc.AwaitAccount? ==> pc.att.acct in sems)
    && ((pc.Sending? || pc.Settling?) && pc.guarded ==> pc.att.acct in sems)
    && ((pc.Sending? || pc.Settling?) && !pc.guarded ==> pc.att.acct !in acctPermits)
  }

  ghost predicate SlotsHavePermits(w: World) {
    && (forall a :: a in w.st.accounts ==> a in w.st.acctPermits)
    && (forall a :: a in w.st.acctPermits ==> a in w.sems && w.sems[a] == w.st.acctPermits[a])
    && (forall a :: a in w.sems ==> 1 <= w.sems[a] && a < w.st.db.nextAccount)
  }

  ghost predicate AccountOk(w: World) {
    && SlotsHavePermits(w)
    && (forall a :: a in w.sems ==> Count(w.reqs, HoldsAccount(a)) <= w.sems[a])
    && (forall r :: r in w.reqs ==> AttemptOk(w.reqs[r].pc, w.sems, w.st.acctPermits, w.st.db.nextAccount))
  }

  lemma OperateAccounts(w: World, op: Op)
    requires AccountOk(w)
    ensures AccountOk(Next(w, Operate(op)))
  {
    ApplyRuntime(w.st, op, w.now);
    RuntimeKeptOk(w, Next(w, Operate(op)));
  }

  /** Accounts may get permits with a fresh id; nobody holds any of them. */
  lemma RuntimeKeptOk(w: World, w': World)
    requires AccountOk(w) && RuntimeKept(w.st, w'.st) && w'.reqs == w.reqs && w'.sems == w.sems + w'.st.acctPermits
    ensures AccountOk(w')
  {
    forall a | a in w'.sems && a !in w.sems
      ensures Count(w.reqs, HoldsAccount(a)) == 0
    {
      assert forall r :: r in w.reqs ==> AttemptOk(w.reqs[r].pc, w.sems, w.st.acctPermits, w.st.db.nextAccount);
      CountNone(w.reqs, HoldsAccount(a));
    }
    forall r | r in w'.reqs
      ensures AttemptOk(w'.reqs[r].pc, w'.sems, w'.st.acctPermits, w'.st.db.nextAccount)
    {
      assert AttemptOk(w.reqs[r].pc, w.sems, w.st.acctPermits, w.st.db.nextAccount);
    }
  }

  lemma RequestAccounts(w: World, ev: Event)
    requires Enabled(w, ev) && OfRequest(ev) && AccountOk(w)
    ensures AccountOk(Next(w, ev))
  {
    RequestKeepsPermits(w, ev);
    var w' := Next(w, ev);
    var q' := NextReq(w, ev);
    assert AttemptOk(q'.pc, w.sems, w.st.acctPermits, w.st.db.nextAccount) by {
      if ev.r in w.reqs { assert AttemptOk(w.reqs[ev.r].pc, w.sems, w.st.acctPermits, w.st.db.nextAccount); }
      if ev.SelectNow? { ChosenIsSchedulable(w.st, w.reqs[ev.r].call.platform, w.now, ev.order); }
    }
    forall a | a in w.sems
      ensures Count(w'.reqs, HoldsAccount(a)) <= w.sems[a]
    {
      CountUpdate(w.reqs, ev.r, q', HoldsAccount(a));
    }
  }

  lemma AccountStep(w: World, ev: Event)
    requires Enabled(w, ev) && AccountOk(w)
    ensures AccountOk(Next(w, ev))
  {
    match ev
    case Operate(op) => OperateAccounts(w, op);
    case Tick(_) =>
    case _ => RequestAccounts(w, ev);
  }

  // ----- every run -----

  ghost predicate PermitsOk(w: World) { PlatformOk(w) && AccountOk(w) }

  lemma BootPermits(db: Db, decrypt: string -> Option<string>, most: string -> nat, now: int)
    requires WellFormed(db)
    ensures PermitsOk(Boot(db, decrypt, most, now))
  {
    var w := Boot(db, decrypt, most, now);
    forall s ensures Count(w.reqs, HoldsPlatform(s)) == 0 { assert Where(w.reqs, HoldsPlatform(s)) == {}; }
    forall a ensures Count(w.reqs, HoldsAccount(a)) == 0 { assert Where(w.reqs, HoldsAccount(a)) == {}; }
  }

  lemma {:induction false} RunKeepsPermits(w: World, evs: seq<Event>)
    requires PermitsOk(w) && Runnable(w, evs)
    ensures PermitsOk(Run(w, evs))
    decreases evs
  {
    if evs != [] {
      PlatformStep(w, evs[0]);
      AccountStep(w, evs[0]);
      RunKeepsPermits(Next(w, evs[0]), evs[1..]);
    }
  }

  /** At work on the platform: admitted and not finished. */
  ghost function AtWork(w: World, slug: string): set<int> {
    set r | r in w.reqs && w.reqs[r].call.platform == slug && !w.reqs[r].pc.AwaitPlatform? && !w.reqs[r].pc.Done?
  }

  /** In an attempt on the account: sending, or settling what came back. */
  ghost function UnderWay(w: World, a: int): set<int> {
    set r | r in w.reqs && (w.reqs[r].pc.Sending? || w.reqs[r].pc.Settling?) && w.reqs[r].pc.att.acct == a
  }

  /** On every run from start-up: the requests at work on a platform are at most its permits,
      which stay max(1, first configured maximum); and the attempts under way on an account that
      has not been deleted are at most its permits. */
  lemma PermitsBoundEveryRun(db: Db, decrypt: string -> Option<string>, most: string -> nat, now: int, evs: seq<Event>)
    requires WellFormed(db) && Runnable(Boot(db, decrypt, most, now), evs)
    ensures var w := Run(Boot(db, decrypt, most, now), evs);
      && (forall s :: s in {"context7", "exa", "firecrawl", "tavily"} ==>
            && s in w.st.platPermits && w.st.platPermits[s] == (if most(s) < 1 then 1 else most(s))
            && |AtWork(w, s)| <= w.st.platPermits[s])
      && (forall a :: a in w.st.accounts ==> a in w.st.acctPermits && |UnderWay(w, a)| <= w.st.acctPermits[a])
  {
    var w0 := Boot(db, decrypt, most, now);
    BootPermits(db, decrypt, most, now);
    RunKeepsPermits(w0, evs);
    RunKeepsCapacities(w0, evs);
    var w := Run(w0, evs);
    forall s | s in REGISTERED ensures |AtWork(w, s)| <= w.st.platPermits[s] { WorkHolds(w, s); }
    forall a | a in w.st.accounts ensures a in w.st.acctPermits && |UnderWay(w, a)| <= w.st.acctPermits[a] {
      AttemptsHold(w, a);
    }
  }

  lemma WorkHolds(w: World, s: string)
    requires PlatformOk(w) && s in w.st.platPermits
    ensures |AtWork(w, s)| <= w.st.platPermits[s]
  {
    assert AtWork(w, s) == Where(w.reqs, HoldsPlatform(s));
  }

  lemma AttemptsHold(w: World, a: int)
    requires AccountOk(w) && a in w.st.accounts
    ensures a in w.st.acctPermits && |UnderWay(w, a)| <= w.st.acctPermits[a]
  {
    forall r | r in UnderWay(w, a) ensures r in Where(w.reqs, HoldsAccount(a)) {
      assert AttemptOk(w.reqs[r].pc, w.sems, w.st.acctPermits, w.st.db.nextAccount);
    }
    SubsetSize(UnderWay(w, a), Where(w.reqs, HoldsAccount(a)));
  }

  lemma {:induction false} RunKeepsCapacities(w: World, evs: seq<Event>)
    requires Runnable(w, evs)
    ensures forall s :: s in w.st.platPermits ==>
      s in Run(w, evs).st.platPermits && Run(w, evs).st.platPermits[s] == w.st.platPermits[s]
    decreases evs
  {
    if evs != [] {
      match evs[0] {
        case Operate(op) => ApplyRuntime(w.st, op, w.now);
        case Tick(_) =>
        case _ => RequestKeepsPermits(w, evs[0]);
      }
      RunKeepsCapacities(Next(w, evs[0]), evs[1..]);
    }
  }

  // ----- progress -----

  /** Some request can take its next step, the upstream answering if it is waiting for it. */
  ghost predicate CanStep(w: World) {
    exists ev :: OfRequest(ev) && !ev.Arrive? && Enabled(w, ev)
  }

  ghost predicate Waiting(q: Req) { q.pc.AwaitPlatform? || q.pc.AwaitAccount? || q.pc.Done? }

  lemma {:induction false} SomeOrder(keys: set<int>) returns (order: seq<int>)
    ensures Lists(order, keys)
  {
    if keys == {} {
      order := [];
    } else {
      var k := Pick(keys);
      var rest := SomeOrder(keys - {k});
      order := [k] + rest;
      assert forall i :: 0 <= i < |rest| ==> rest[i] in rest;
    }
  }

  /** A request that is neither finished nor waiting for a permit can step. */
  lemma BusyRequestSteps(w: World, r: int)
    requires r in w.reqs && !Waiting(w.reqs[r])
    requires w.reqs[r].pc.Settling? ==> w.reqs[r].endings != []
    ensures CanStep(w)
  {
    var order := SomeOrder(w.st.accounts.Keys);
    var pc := w.reqs[r].pc;
    var ev :=
      if pc.Choosing? then SelectNow(r, order)
      else if pc.Diagnosing? then DiagnoseNone(r, order)
      else if pc.Chosen? then CountIp(r)
      else if pc.CountedIp? then LookUpPermit(r)
      else if pc.Sending? then Respond(r, Failed)
      else if pc.todo == [] then Finish(r) else DoEffect(r);
    assert OfRequest(ev) && !ev.Arrive? && Enabled(w, ev);
  }

  ghost predicate EndingsOk(w: World) {
    forall r :: r in w.reqs && w.reqs[r].pc.Settling? ==> w.reqs[r].endings != []
  }

  /** No state that keeps the permits is stuck: as long as a request is unfinished, some
      request can step. A full account semaphore has a holder that is not waiting; a full
      platform semaphore has a holder that is not waiting for it. */
  lemma NeverStuck(w: World, r: int)
    requires PermitsOk(w) && EndingsOk(w) && r in w.reqs && !w.reqs[r].pc.Done?
    ensures CanStep(w)
  {
    if !Waiting(w.reqs[r]) {
      BusyRequestSteps(w, r);
    } else if w.reqs[r].pc.AwaitAccount? {
      AccountWaiterHelped(w, r);
    } else {
      var s := w.reqs[r].call.platform;
      if Count(w.reqs, HoldsPlatform(s)) < w.st.platPermits[s] {
        assert Enabled(w, EnterPlatform(r));
      } else {
        var h := CountWitness(w.reqs, HoldsPlatform(s));
        if w.reqs[h].pc.AwaitAccount? { AccountWaiterHelped(w, h); } else { BusyRequestSteps(w, h); }
      }
    }
  }

  lemma AccountWaiterHelped(w: World, r: int)
    requires PermitsOk(w) && EndingsOk(w) && r in w.reqs && w.reqs[r].pc.AwaitAccount?
    ensures CanStep(w)
  {
    var a := w.reqs[r].pc.att.acct;
    assert AttemptOk(w.reqs[r].pc, w.sems, w.st.acctPermits, w.st.db.nextAccount);
    if Count(w.reqs, HoldsAccount(a)) < w.sems[a] {
      assert Enabled(w, EnterAccount(r));
    } else {
      var h := CountWitness(w.reqs, HoldsAccount(a));
      BusyRequestSteps(w, h);
    }
  }

  lemma {:induction false} RunKeepsEndings(w: World, evs: seq<Event>)
    requires EndingsOk(w) && Runnable(w, evs)
    ensures EndingsOk(Run(w, evs))
    decreases evs
  {
    if evs != [] { RunKeepsEndings(Next(w, evs[0]), evs[1..]); }
  }

  /** No reachable state is deadlocked. */
  lemma NoReachableDeadlock(db: Db, decrypt: string -> Option<string>, most: string -> nat, now: int, evs: seq<Event>,
                            r: int)
    requires WellFormed(db) && Runnable(Boot(db, decrypt, most, now), evs)
    requires var w := Run(Boot(db, decrypt, most, now), evs); r in w.reqs && !w.reqs[r].pc.Done?
    ensures CanStep(Run(Boot(db, decrypt, most, now), evs))
  {
    var w0 := Boot(db, decrypt, most, now);
    BootPermits(db, decrypt, most, now);
    RunKeepsPermits(w0, evs);
    RunKeepsEndings(w0, evs);
    NeverStuck(Run(w0, evs), r);
  }

  // ----- how long one request can take -----

  /** A bound on the steps a request has left. */
  function Work(q: Req): int {
    var perAttempt := 14;
    match q.pc
    case Done(_) => 0
    case AwaitPlatform => U32_LIMIT * perAttempt
    case Choosing => (q.maxRetries - q.retries) * perAttempt + 13
    case Diagnosing => (q.maxRetries - q.retries) * perAttempt + 1
    case Chosen(_) => (q.maxRetries - q.retries) * perAttempt + 12
    case CountedIp(_) => (q.maxRetries - q.retries) * perAttempt + 11
    case AwaitAccount(_) => (q.maxRetries - q.retries) * perAttempt + 10
    case Sending(_, _) => (q.maxRetries - q.retries) * perAttempt + 9
    case Settling(_, _, todo) => (q.maxRetries - q.retries) * perAttempt + 1 + Weights(todo)
  }

  lemma EffectsAreFew(call: Call, att: Attempt, retries: nat, answer: Answer)
    ensures Weights(Effects(call, att, retries, answer)) <= 7
  {
    var r := Reaction(call, att, retries, answer);
    WeightsBound(Effects(call, att, retries, answer));
  }

  lemma {:induction false} WeightsBound(todo: seq<Effect>)
    ensures Weights(todo) <= |todo| + (if exists i :: 0 <= i < |todo| && todo[i].ReadThenStore? then 1 else 0)
      || exists i, j :: 0 <= i < j < |todo| && todo[i].ReadThenStore? && todo[j].ReadThenStore?
  {
    if todo != [] {
      var rest := todo[1..];
      WeightsBound(rest);
      assert forall i :: 0 <= i < |rest| ==> rest[i] == todo[i + 1];
    }
  }

  ghost predicate RetriesOk(w: World) {
    forall r :: r in w.reqs ==> w.reqs[r].retries <= w.reqs[r].maxRetries
  }

  /** Every step of a request uses up some of its work, as long as its retry limit is below the
      32-bit maximum. */
  lemma StepUsesWork(w: World, ev: Event)
    requires Enabled(w, ev) && OfRequest(ev) && !ev.Arrive? && RetriesOk(w)
    requires NextReq(w, ev).maxRetries < U32_LIMIT - 1
    ensures 0 <= Work(NextReq(w, ev)) < Work(w.reqs[ev.r])
  {
    match ev
    case Respond(r, answer) => EffectsAreFew(w.reqs[r].call, w.reqs[r].pc.att, w.reqs[r].retries, answer);
    case DoEffect(r) => PerformLightens(w.st, w.reqs[r].pc.todo);
    case _ =>
  }

  lemma RetriesStep(w: World, ev: Event)
    requires Enabled(w, ev) && RetriesOk(w)
    ensures RetriesOk(Next(w, ev))
  {
  }

  function StepsOf(evs: seq<Event>, r: int): nat {
    if evs == [] then 0 else Bit(OfRequest(evs[0]) && evs[0].r == r) + StepsOf(evs[1..], r)
  }

  /** An admitted request with a retry limit below the 32-bit maximum finishes within a fixed
      number of its own steps, whatever the others do meanwhile. */
  lemma {:induction false} OwnStepsAreBounded(w: World, evs: seq<Event>, r: int)
    requires RetriesOk(w) && Runnable(w, evs)
    requires r in w.reqs && !w.reqs[r].pc.AwaitPlatform? && w.reqs[r].maxRetries < U32_LIMIT - 1
    ensures r in Run(w, evs).reqs && StepsOf(evs, r) + Work(Run(w, evs).reqs[r]) <= Work(w.reqs[r])
    decreases evs
  {
    if evs != [] {
      var ev := evs[0];
      RetriesStep(w, ev);
      if OfRequest(ev) && ev.r == r { StepUsesWork(w, ev); }
      OwnStepsAreBounded(Next(w, ev), evs[1..], r);
    }
  }

  // ----- at the 32-bit maximum -----

  ghost predicate NeverExhausted(w: World) {
    forall r :: r in w.reqs && w.reqs[r].maxRetries == U32_LIMIT - 1 ==> w.reqs[r].pc != Done(Exhausted)
  }

  lemma NeverExhaustedStep(w: World, ev: Event)
    requires Enabled(w, ev) && NeverExhausted(w)
    ensures NeverExhausted(Next(w, ev))
  {
    if ev.Finish? { assert 0 <= (w.reqs[ev.r].retries + 1) % U32_LIMIT <= U32_LIMIT - 1; }
  }

  lemma {:induction false} RunNeverExhausts(w: World, evs: seq<Event>)
    requires NeverExhausted(w) && Runnable(w, evs)
    ensures NeverExhausted(Run(w, evs))
    decreases evs
  {
    if evs != [] {
      NeverExhaustedStep(w, evs[0]);
      RunNeverExhausts(Next(w, evs[0]), evs[1..]);
    }
  }

  /** On no run from start-up does a request whose retry limit is the 32-bit maximum use up its
      retries: its counter wraps around instead. */
  lemma MaximalRetriesNeverExhaust(db: Db, decrypt: string -> Option<string>, most: string -> nat, now: int,
                                   evs: seq<Event>, r: int)
    requires Runnable(Boot(db, decrypt, most, now), evs)
    requires var w := Run(Boot(db, decrypt, most, now), evs); r in w.reqs && w.reqs[r].maxRetries == U32_LIMIT - 1
    ensures Run(Boot(db, decrypt, most, now), evs).reqs[r].pc != Done(Exhausted)
  {
    RunNeverExhausts(Boot(db, decrypt, most, now), evs);
  }
}
