/** The forward loop when no other actor is at work: the loop itself, and which accounts it can
    try again within one request. */
module SoloForward {
  import opened Wrappers
  import opened Database
  import opened Adapter
  import opened PoolState
  import opened Binding
  import opened Selection
  import opened Admin
  import opened Forwarding
  import opened Retrying

  /** What attempt number `i` meets: the iteration order of the account map, the clock when
      selecting, the upstream's answer, the clock when settling. */
  datatype Env = Env(order: seq<int>, selectAt: int, answer: Answer, settleAt: int)

  /** An attempt made: `until` is the back-off it recorded, if its ending records one. */
  datatype Try = Try(att: Attempt, ending: Ending, until: int)

  function BackOffAfter(answer: Answer, now: int): int {
    match answer
    case Failed => now + 30 * SECOND
    case Responded(_, header) => now + RetryAfterSeconds(header) * SECOND
  }

  function BackOffEnd(e: Env): int { BackOffAfter(e.answer, e.settleAt) }

  function Counted(st: State, att: Attempt): State {
    if att.exitIp.Some? then IncExitIp(st, att.exitIp.value) else st
  }

  /** One attempt from selection to the last effect. */
  function AfterAttempt(st: State, call: Call, att: Attempt, retries: nat, e: Env): State {
    PerformAll(Counted(st, att), Effects(call, att, retries, e.answer), e.settleAt)
  }

  function TryOnce(st: State, call: Call, e: Env, retries: nat): Option<(State, Try)> {
    match Choose(st, call.platform, e.selectAt, e.order)
    case None => None
    case Some(att) =>
      Some((AfterAttempt(st, call, att, retries, e), Try(att, EndingOf(call, e.answer), BackOffEnd(e))))
  }

  function Attempting(call: Call, env: nat -> Env): (State, nat) -> Option<(State, Try)> {
    (st: State, n: nat) => TryOnce(st, call, env(n), n)
  }

  function LastTry(): Try -> bool {
    (t: Try) => Final(t.ending)
  }

  /** The final state and the attempts made. */
  function Solo(st: State, call: Call, env: nat -> Env, maxRetries: nat): (State, seq<Try>) {
    Retry(Attempting(call, env), LastTry(), st, 0, maxRetries)
  }

  function ResultOf(st: State, tried: seq<Try>, call: Call, env: nat -> Env, maxRetries: nat): Result {
    if tried != [] && Final(tried[|tried| - 1].ending) then Passed(tried[|tried| - 1].ending)
    else if |tried| > maxRetries then Exhausted
    else
      var e := env(|tried|);
      NoAccount(Diagnose(st, call.platform, e.selectAt, e.order))
  }

  /** Every iteration order the request meets is one of the account map. */
  ghost predicate Fits(env: nat -> Env, keys: set<int>) {
    forall i: nat {:trigger Lists(env(i).order, keys)} :: Lists(env(i).order, keys)
  }

  method AttemptOnce(pools: Pools, call: Call, retries: nat, e: Env) returns (t: Option<Try>)
    requires Lists(e.order, pools.accounts.Keys)
    modifies pools
    ensures TryOnce(old(pools.View()), call, e, retries)
         == if t.None? then None else Some((pools.View(), t.value))
    ensures t.None? ==> pools.View() == old(pools.View())
    ensures pools.accounts.Keys == old(pools.accounts.Keys)
  {
    var chosen := Select(pools, call.platform, call.isolation, e.selectAt, e.order);
    if chosen.None? { return None; }
    var att := chosen.value;
    AttemptKeepsKeys(pools.View(), call, att, retries, e);
    if att.exitIp.Some? { pools.TakeExitIp(att.exitIp.value); }
    Settle(pools, call, att, retries, e.answer, e.settleAt);
    return Some(Try(att, EndingOf(call, e.answer), BackOffEnd(e)));
  }

  /** The whole call. The permits are free, so neither wait blocks; `max_retries` must be below
      the 32-bit maximum, where the retry counter would wrap around. */
  method Forward(pools: Pools, call: Call, env: nat -> Env) returns (r: Result, tried: seq<Try>)
    requires Fits(env, pools.accounts.Keys)
    requires ReadMaxRetries(pools.db.maxRetries) < U32_LIMIT - 1
    modifies pools
    ensures call.platform !in REGISTERED ==> r == NotRegistered
    ensures call.platform in REGISTERED && call.platform !in old(pools.platPermits) ==> r == NotReady
    ensures call.platform !in REGISTERED || call.platform !in old(pools.platPermits) ==>
      pools.View() == old(pools.View()) && tried == []
    ensures call.platform in REGISTERED && call.platform in old(pools.platPermits) ==>
      var most := ReadMaxRetries(old(pools.db.maxRetries));
      && (pools.View(), tried) == Solo(old(pools.View()), call, env, most)
      && r == ResultOf(pools.View(), tried, call, env, most)
  {
    if call.platform !in REGISTERED { return NotRegistered, []; }
    if call.platform !in pools.platPermits { return NotReady, []; }
    r, tried := RetryLoop(pools, call, env, ReadMaxRetries(pools.db.maxRetries));
  }

  type Attempts = (State, nat) -> Option<(State, Try)>

  /** The function says what the attempts of the request do. */
  ghost predicate Does(attempt: Attempts, call: Call, env: nat -> Env) {
    forall st: State, n: nat {:trigger TryOnce(st, call, env(n), n)} :: attempt(st, n) == TryOnce(st, call, env(n), n)
  }

  /** A request that has tried this much will have done `total` in the end. */
  ghost predicate Ongoing(total: (State, seq<Try>), attempt: Attempts, tried: seq<Try>, st: State, most: nat) {
    && (tried != [] ==> !Final(tried[|tried| - 1].ending))
    && Continues(attempt, LastTry(), total, tried, st, |tried|, most)
  }

  lemma OngoingStart(st: State, call: Call, env: nat -> Env, most: nat)
    ensures Does(Attempting(call, env), call, env)
    ensures Ongoing(Solo(st, call, env, most), Attempting(call, env), [], st, most)
  {
    var total := Solo(st, call, env, most);
    assert [] + total.1 == total.1;
  }

  lemma OngoingStep(total: (State, seq<Try>), attempt: Attempts, tried: seq<Try>, st: State, most: nat)
    requires Ongoing(total, attempt, tried, st, most)
    ensures |tried| <= most
    ensures match attempt(st, |tried|)
      case None => total == (st, tried)
      case Some(p) =>
        if Final(p.1.ending) || |tried| == most then total == (p.0, tried + [p.1])
        else Ongoing(total, attempt, tried + [p.1], p.0, most)
  {
    ContinueStep(attempt, LastTry(), total, tried, st, |tried|, most);
    var next := attempt(st, |tried|);
    if next.Some? { assert LastTry()(next.value.1) == Final(next.value.1.ending); }
  }

  /** The next attempt of a request that has tried this much. */
  method AttemptNext(pools: Pools, call: Call, env: nat -> Env, tried: seq<Try>, most: nat,
                     ghost attempt: Attempts, ghost total: (State, seq<Try>))
      returns (t: Option<Try>)
    requires Fits(env, pools.accounts.Keys) && Does(attempt, call, env)
    requires Ongoing(total, attempt, tried, pools.View(), most)
    modifies pools
    ensures pools.accounts.Keys == old(pools.accounts.Keys) && |tried| <= most
    ensures t.None? ==> total == (pools.View(), tried) && (tried != [] ==> !Final(tried[|tried| - 1].ending))
    ensures t.Some? && (Final(t.value.ending) || |tried| == most) ==> total == (pools.View(), tried + [t.value])
    ensures t.Some? && !Final(t.value.ending) && |tried| < most ==>
      Ongoing(total, attempt, tried + [t.value], pools.View(), most)
  {
    OngoingStep(total, attempt, tried, pools.View(), most);
    assert Lists(env(|tried|).order, pools.accounts.Keys);
    assert attempt(pools.View(), |tried|) == TryOnce(pools.View(), call, env(|tried|), |tried|);
    t := AttemptOnce(pools, call, |tried|, env(|tried|));
  }

  /** Attempt after attempt, until one is final, nobody is left, or the retries are used up. */
  method AttemptAll(pools: Pools, call: Call, env: nat -> Env, maxRetries: nat,
                    ghost attempt: Attempts, ghost total: (State, seq<Try>))
      returns (tried: seq<Try>, nobody: bool)
    requires Fits(env, pools.accounts.Keys) && maxRetries < U32_LIMIT - 1 && Does(attempt, call, env)
    requires Ongoing(total, attempt, [], pools.View(), maxRetries)
    modifies pools
    ensures total == (pools.View(), tried) && |tried| <= maxRetries + 1
    ensures nobody ==> |tried| <= maxRetries && (tried != [] ==> !Final(tried[|tried| - 1].ending))
    ensures !nobody ==> tried != [] && (Final(tried[|tried| - 1].ending) || |tried| == maxRetries + 1)
  {
    tried := [];
    var retries := 0;
    while true
      invariant 0 <= retries <= maxRetries && |tried| == retries
      invariant pools.accounts.Keys == old(pools.accounts.Keys)
      invariant Ongoing(total, attempt, tried, pools.View(), maxRetries)
      decreases maxRetries - retries
    {
      var t := AttemptNext(pools, call, env, tried, maxRetries, attempt, total);
      if t.None? { return tried, true; }
      tried := tried + [t.value];
      if Final(t.value.ending) { return tried, false; }
      retries := (retries + 1) % U32_LIMIT;
      if retries > maxRetries { return tried, false; }
    }
  }

  method RetryLoop(pools: Pools, call: Call, env: nat -> Env, maxRetries: nat) returns (r: Result, tried: seq<Try>)
    requires Fits(env, pools.accounts.Keys)
    requires maxRetries < U32_LIMIT - 1
    modifies pools
    ensures (pools.View(), tried) == Solo(old(pools.View()), call, env, maxRetries)
    ensures r == ResultOf(pools.View(), tried, call, env, maxRetries)
  {
    OngoingStart(pools.View(), call, env, maxRetries);
    var nobody: bool;
    tried, nobody := AttemptAll(pools, call, env, maxRetries, Attempting(call, env),
                                Solo(pools.View(), call, env, maxRetries));
    if nobody { r := NoAccount(DiagnoseNow(pools, call, env(|tried|))); }
    else if Final(tried[|tried| - 1].ending) { r := Passed(tried[|tried| - 1].ending); }
    else { r := Exhausted; }
  }

  function DiagnoseNow(pools: Pools, call: Call, e: Env): Reason
    reads pools
  {
    Diagnose(pools.View(), call.platform, e.selectAt, e.order)
  }

  // ----- what an attempt leaves alone -----

  /** Neither the account's standing nor its back-off changes unless an effect names it. */
  ghost predicate Untouched(st: State, st': State, a: int) {
    && st'.accounts.Keys == st.accounts.Keys
    && (a in st.accounts ==> st'.accounts[a].status == st.accounts[a].status)
    && (a in st'.limitedUntil <==> a in st.limitedUntil)
    && (a in st.limitedUntil ==> st'.limitedUntil[a] == st.limitedUntil[a])
  }

  predicate Names(e: Effect, a: int) {
    match e
    case ReleaseIp(_) => false
    case CountTokenUse(_) => false
    case LogCall(_) => false
    case RecordInMemory(b, _) => a == b
    case ReadThenStore(b, _) => a == b
    case RecordInStore(b, _, _) => a == b
    case StatusInMemory(b, _) => a == b
    case StatusInStore(b, _) => a == b
    case RebindAccount(b) => a == b
    case BackOff(b, _) => a == b
  }

  lemma PerformLeavesAlone(st: State, e: Effect, now: int, a: int)
    requires !Names(e, a)
    ensures Untouched(st, Perform(st, e, now), a)
  {
    if e.RebindAccount? { BindLeavesAlone(st, e.acct, a); }
    else if e.RecordInMemory? { RecordLeavesAlone(st, e.acct, e.success, a); }
    else if e.StatusInMemory? { StatusLeavesAlone(st, e.acct, e.status, a); }
    else { StoreLeavesAlone(st, e, now, a); }
  }

  lemma BindLeavesAlone(st: State, id: int, a: int)
    requires id != a
    ensures Untouched(st, BindAccount(st, id, None), a)
  {
  }

  lemma RecordLeavesAlone(st: State, id: int, success: bool, a: int)
    requires id != a
    ensures Untouched(st, RecordMem(st, id, success), a)
  {
  }

  lemma StatusLeavesAlone(st: State, id: int, s: AccountStatus, a: int)
    requires id != a
    ensures Untouched(st, SetStatusMem(st, id, s), a)
  {
  }

  lemma StoreLeavesAlone(st: State, e: Effect, now: int, a: int)
    requires !Names(e, a) && !e.RebindAccount? && !e.RecordInMemory? && !e.StatusInMemory?
    ensures Untouched(st, Perform(st, e, now), a)
  {
    assert Perform(st, e, now).accounts == st.accounts;
  }

  lemma PerformKeepsKeys(st: State, e: Effect, now: int)
    ensures Perform(st, e, now).accounts.Keys == st.accounts.Keys
  {
  }

  lemma {:induction false} AllLeaveAlone(st: State, todo: seq<Effect>, now: int, a: int)
    requires forall e :: e in todo ==> !Names(e, a)
    ensures Untouched(st, PerformAll(st, todo, now), a)
    decreases Weights(todo)
  {
    if todo != [] {
      PerformLightens(st, todo);
      assert todo[0] in todo;
      PerformLeavesAlone(st, todo[0], now, a);
      assert forall e :: e in todo[1..] ==> e in todo;
      AllLeaveAlone(Perform(st, todo[0], now), Leaves(st, todo[0]) + todo[1..], now, a);
    }
  }

  lemma {:induction false} AllKeepKeys(st: State, todo: seq<Effect>, now: int)
    ensures PerformAll(st, todo, now).accounts.Keys == st.accounts.Keys
    decreases Weights(todo)
  {
    if todo != [] {
      PerformLightens(st, todo);
      PerformKeepsKeys(st, todo[0], now);
      AllKeepKeys(Perform(st, todo[0], now), Leaves(st, todo[0]) + todo[1..], now);
    }
  }

  lemma AttemptKeepsKeys(st: State, call: Call, att: Attempt, retries: nat, e: Env)
    ensures AfterAttempt(st, call, att, retries, e).accounts.Keys == st.accounts.Keys
  {
    AllKeepKeys(Counted(st, att), Effects(call, att, retries, e.answer), e.settleAt);
  }

  lemma EffectsName(call: Call, att: Attempt, retries: nat, answer: Answer, a: int)
    requires a != att.acct
    ensures forall e :: e in Effects(call, att, retries, answer) ==> !Names(e, a)
  {
  }

  lemma AttemptLeavesOthersAlone(st: State, call: Call, att: Attempt, retries: nat, e: Env, a: int)
    requires a != att.acct
    ensures Untouched(st, AfterAttempt(st, call, att, retries, e), a)
  {
    EffectsName(call, att, retries, e.answer, a);
    AllLeaveAlone(Counted(st, att), Effects(call, att, retries, e.answer), e.settleAt, a);
  }

  // ----- what an attempt records about its own account -----

  /** Kinds of ending after which the account must not be tried again before `until`. */
  predicate Bars(e: Ending) {
    e == NetworkFailure || e == Answered(HardRevokedCode) || e == Answered(RateLimited)
  }

  /** The account cannot be selected at any clock reading up to `t`. */
  ghost predicate Blocked(st: State, a: int, t: int) {
    && a in st.accounts
    && (st.accounts[a].status == HardRevoked || (a in st.limitedUntil && t < st.limitedUntil[a]))
  }

  /** Releasing the exit IP comes first and touches no account. */
  lemma AfterRelease(st: State, call: Call, att: Attempt, retries: nat, e: Env) returns (st1: State)
    ensures st1.accounts == st.accounts && st1.limitedUntil == st.limitedUntil
    ensures AfterAttempt(st, call, att, retries, e)
      == PerformAll(st1, Reaction(call, att, retries, e.answer), e.settleAt)
  {
    var rest := Reaction(call, att, retries, e.answer);
    st1 := Counted(st, att);
    if att.exitIp.Some? {
      PerformPlain(st1, ReleaseIp(att.exitIp.value), rest, e.settleAt);
      st1 := DecExitIp(st1, att.exitIp.value);
    } else {
      assert [] + rest == rest;
    }
  }

  /** Writing the row comes last and touches memory no more. */
  lemma LogAtTheEnd(st: State, row: LogRow, now: int)
    ensures PerformAll(st, [LogCall(row)], now) == WriteCallLog(st, row)
    ensures WriteCallLog(st, row) == st.(db := WriteCallLog(st, row).db)
  {
    PerformLast(st, LogCall(row), now);
  }

  lemma StatusSticks(st: State, a: int)
    requires a in st.accounts
    ensures a in SetStatus(st, a, HardRevoked).accounts
    ensures SetStatus(st, a, HardRevoked).accounts[a].status == HardRevoked
  {
  }

  lemma AttemptBlocks(st: State, call: Call, att: Attempt, retries: nat, e: Env, t: int)
    requires att.acct in st.accounts && Bars(EndingOf(call, e.answer))
    requires EndingOf(call, e.answer) == Answered(HardRevokedCode) || t < BackOffEnd(e)
    ensures Blocked(AfterAttempt(st, call, att, retries, e), att.acct, t)
  {
    var st1 := AfterRelease(st, call, att, retries, e);
    match e.answer
    case Failed => FailureBacksOff(st1, call, att, retries, e.settleAt);
    case Responded(code, header) =>
      if Classify(code, call.codes) == HardRevokedCode {
        RevocationSticks(st1, call, att, retries, code, header, e.settleAt);
      } else {
        RateLimitBacksOff(st1, call, att, retries, code, header, e.settleAt);
      }
  }

  // ----- when an account can be tried again -----

  /** Same slot up to the binding, and a back-off that ends at `until`. */
  ghost predicate BackedOff(st: State, st': State, a: int, until: int) {
    && a in st.accounts && a in st'.accounts
    && st'.accounts[a] == st.accounts[a].(boundProxy := st'.accounts[a].boundProxy)
    && a in st'.limitedUntil && st'.limitedUntil[a] == until
  }

  lemma FailureBacksOff(st: State, call: Call, att: Attempt, retries: nat, now: int)
    requires att.acct in st.accounts
    ensures BackedOff(st, PerformAll(st, Reaction(call, att, retries, Failed), now), att.acct, now + 30 * SECOND)
  {
    PerformFailure(st, call, att, retries, now);
    var st1 := WriteCallLog(st, CallRow(call, att, None, retries, false));
    BindBacksOff(st1, att.acct, now + 30 * SECOND);
  }

  lemma BindBacksOff(st: State, a: int, until: int)
    requires a in st.accounts
    ensures BackedOff(st, MarkRateLimited(BindAccount(st, a, None), a, until), a, until)
  {
  }

  lemma RateLimitBacksOff(st: State, call: Call, att: Attempt, retries: nat, code: nat, header: Option<string>,
                          now: int)
    requires att.acct in st.accounts && Classify(code, call.codes) == RateLimited
    ensures BackedOff(st, PerformAll(st, Reaction(call, att, retries, Responded(code, header)), now),
                      att.acct, now + RetryAfterSeconds(header) * SECOND)
  {
    PerformRateLimit(st, call, att, retries, code, header, now);
  }

  lemma BackedOffIff(st: State, st': State, platform: string, a: int, s: int, t: int, until: int)
    requires Schedulable(st, platform, s, a) && BackedOff(st, st', a, until)
    ensures Schedulable(st', platform, t, a) <==> until <= t
  {
  }

  /** The same of what follows the release of the exit IP. */
  lemma ReactionTriedAgainIff(st: State, call: Call, att: Attempt, retries: nat, answer: Answer, s: int, now: int,
                              t: int)
    requires Schedulable(st, call.platform, s, att.acct) && s <= t && !Final(EndingOf(call, answer))
    ensures Schedulable(PerformAll(st, Reaction(call, att, retries, answer), now), call.platform, t, att.acct)
       <==> EndingOf(call, answer) == Answered(Transient)
            || (EndingOf(call, answer) != Answered(HardRevokedCode) && BackOffAfter(answer, now) <= t)
  {
    var st', a := PerformAll(st, Reaction(call, att, retries, answer), now), att.acct;
    match answer
    case Failed =>
      FailureBacksOff(st, call, att, retries, now);
      BackedOffIff(st, st', call.platform, a, s, t, BackOffAfter(answer, now));
    case Responded(code, header) =>
      match Classify(code, call.codes) {
        case HardRevokedCode => RevocationSticks(st, call, att, retries, code, header, now);
        case RateLimited =>
          RateLimitBacksOff(st, call, att, retries, code, header, now);
          BackedOffIff(st, st', call.platform, a, s, t, BackOffAfter(answer, now));
        case _ => LogAtTheEnd(st, CallRow(call, att, Some(code), retries, false), now);
      }
  }

  /** After an attempt that does not end the request, its account can be tried again at `t` exactly
      when the upstream failed on its side, or a back-off that was recorded is over: a server error
      excludes nothing, and a Retry-After of zero or less is no back-off at all. */
  lemma TriedAgainIff(st: State, call: Call, att: Attempt, retries: nat, e: Env, t: int)
    requires Schedulable(st, call.platform, e.selectAt, att.acct) && e.selectAt <= t
    requires e.answer.Responded? ==>
      !(200 <= e.answer.code < 300)
      && (500 <= e.answer.code < 600 || e.answer.code in call.codes.revoke || e.answer.code in call.codes.rate)
    ensures Schedulable(AfterAttempt(st, call, att, retries, e), call.platform, t, att.acct)
       <==> (e.answer.Responded? && 500 <= e.answer.code < 600)
            || (!(e.answer.Responded? && e.answer.code in call.codes.revoke) && BackOffEnd(e) <= t)
  {
    var st1 := AfterRelease(st, call, att, retries, e);
    assert Schedulable(st1, call.platform, e.selectAt, att.acct);
    ReactionTriedAgainIff(st1, call, att, retries, e.answer, e.selectAt, e.settleAt, t);
  }

  lemma RevocationSticks(st: State, call: Call, att: Attempt, retries: nat, code: nat, header: Option<string>, now: int)
    requires att.acct in st.accounts && Classify(code, call.codes) == HardRevokedCode
    ensures var st' := PerformAll(st, Reaction(call, att, retries, Responded(code, header)), now);
      att.acct in st'.accounts && st'.accounts[att.acct].status == HardRevoked
  {
    var row, a := CallRow(call, att, Some(code), retries, false), att.acct;
    PerformStatus(st, a, HardRevoked, [LogCall(row)], now);
    StatusSticks(st, a);
    LogAtTheEnd(SetStatus(st, a, HardRevoked), row, now);
  }

  // ----- which accounts a request tries -----

  /** The clock never runs backwards between two selections. */
  ghost predicate Monotone(env: nat -> Env) {
    forall i: nat, j: nat :: i <= j ==> env(i).selectAt <= env(j).selectAt
  }

  /** One attempt of a request, leading from `st` to `st'`. */
  lemma AttemptLinks(st: State, call: Call, env: nat -> Env, n: nat, st': State, t: Try)
    requires Attempting(call, env)(st, n) == Some((st', t))
    ensures Schedulable(st, call.platform, env(n).selectAt, t.att.acct)
    ensures st' == AfterAttempt(st, call, t.att, n, env(n))
    ensures t.ending == EndingOf(call, env(n).answer) && t.until == BackOffEnd(env(n))
  {
    ChosenIsSchedulable(st, call.platform, env(n).selectAt, env(n).order);
  }

  /** A blocked account is not tried, and stays blocked, as long as the clock has not passed `t`. */
  lemma {:induction false} StaysBlocked(call: Call, env: nat -> Env, tried: seq<Try>, sts: seq<State>,
                                        a: int, t: int, i: nat, j: nat)
    requires Trail(Attempting(call, env), 0, tried, sts) && i <= j <= |tried|
    requires Blocked(sts[i], a, t) && forall k: nat :: i <= k < j ==> env(k).selectAt <= t
    ensures Blocked(sts[j], a, t) && forall k :: i <= k < j ==> tried[k].att.acct != a
  {
    if i < j {
      StaysBlocked(call, env, tried, sts, a, t, i, j - 1);
      var k := j - 1;
      assert Attempting(call, env)(sts[k], 0 + k) == Some((sts[k + 1], tried[k]));
      AttemptLinks(sts[k], call, env, k, sts[k + 1], tried[k]);
      assert env(k).selectAt <= t;
      AttemptLeavesOthersAlone(sts[k], call, tried[k].att, k, env(k), a);
    }
  }

  /** An account whose attempt ended in revocation, in a network failure or in a rate limit is
      not tried again by the same request: ever in the first case, and in the others as long
      as the clock has not reached the recorded back-off. */
  lemma NeverTriedAgain(st: State, call: Call, env: nat -> Env, maxRetries: nat, i: nat, j: nat)
    requires Monotone(env)
    requires i < j < |Solo(st, call, env, maxRetries).1|
    requires var t := Solo(st, call, env, maxRetries).1[i];
      Bars(t.ending) && (t.ending == Answered(HardRevokedCode) || env(j).selectAt < t.until)
    ensures Solo(st, call, env, maxRetries).1[i].att.acct != Solo(st, call, env, maxRetries).1[j].att.acct
  {
    var tried := Solo(st, call, env, maxRetries).1;
    var sts := RetryLeavesTrail(Attempting(call, env), LastTry(), st, 0, maxRetries);
    TrailNeverRepeats(call, env, tried, sts, i, j);
  }

  lemma TrailNeverRepeats(call: Call, env: nat -> Env, tried: seq<Try>, sts: seq<State>, i: nat, j: nat)
    requires Monotone(env) && Trail(Attempting(call, env), 0, tried, sts) && i < j < |tried|
    requires Bars(tried[i].ending) && (tried[i].ending == Answered(HardRevokedCode) || env(j).selectAt < tried[i].until)
    ensures tried[i].att.acct != tried[j].att.acct
  {
    var a, t := tried[i].att.acct, env(j).selectAt;
    assert Attempting(call, env)(sts[i], 0 + i) == Some((sts[i + 1], tried[i]));
    AttemptLinks(sts[i], call, env, i, sts[i + 1], tried[i]);
    AttemptBlocks(sts[i], call, tried[i].att, i, env(i), t);
    StaysBlocked(call, env, tried, sts, a, t, i + 1, j + 1);
  }

  /** If every attempt but the last ends in one of those ways, and every back-off outlasts the
      request, no account is tried twice. */
  lemma TriedAccountsAreDistinct(st: State, call: Call, env: nat -> Env, maxRetries: nat)
    requires Monotone(env)
    requires var tried := Solo(st, call, env, maxRetries).1;
      forall i :: 0 <= i < |tried| - 1 ==>
        Bars(tried[i].ending)
        && (tried[i].ending == Answered(HardRevokedCode) || env(|tried| - 1).selectAt < tried[i].until)
    ensures var tried := Solo(st, call, env, maxRetries).1;
      forall i, j :: 0 <= i < j < |tried| ==> tried[i].att.acct != tried[j].att.acct
  {
    var tried := Solo(st, call, env, maxRetries).1;
    forall i, j | 0 <= i < j < |tried| ensures tried[i].att.acct != tried[j].att.acct {
      assert env(j).selectAt <= env(|tried| - 1).selectAt;
      NeverTriedAgain(st, call, env, maxRetries, i, j);
    }
  }

  /** At most one attempt more than the retries; only the last can be final; the call passes a
      response on exactly when the last attempt is final, and otherwise has used up its
      retries or found nobody to ask. */
  lemma SoloShape(st: State, call: Call, env: nat -> Env, maxRetries: nat)
    ensures var (st', tried) := Solo(st, call, env, maxRetries);
      Shaped(st', tried, call, env, maxRetries)
  {
    var (st', tried) := Solo(st, call, env, maxRetries);
    RetryShape(Attempting(call, env), LastTry(), st, 0, maxRetries);
    ShapeOf(st', tried, call, env, maxRetries);
  }

  ghost predicate Shaped(st: State, tried: seq<Try>, call: Call, env: nat -> Env, maxRetries: nat) {
    var r := ResultOf(st, tried, call, env, maxRetries);
    && |tried| <= maxRetries + 1
    && (forall i :: 0 <= i < |tried| - 1 ==> !Final(tried[i].ending))
    && (r.Passed? <==> tried != [] && Final(tried[|tried| - 1].ending))
    && (r.Exhausted? ==> |tried| == maxRetries + 1)
    && (r.NoAccount? ==> TryOnce(st, call, env(|tried|), |tried|).None?)
  }

  lemma ShapeOf(st: State, tried: seq<Try>, call: Call, env: nat -> Env, maxRetries: nat)
    requires |tried| <= maxRetries + 1 && forall i :: 0 <= i < |tried| - 1 ==> !LastTry()(tried[i])
    requires |tried| <= maxRetries && (tried == [] || !LastTry()(tried[|tried| - 1])) ==>
      Attempting(call, env)(st, 0 + |tried|).None?
    ensures Shaped(st, tried, call, env, maxRetries)
  {
    forall i | 0 <= i < |tried| - 1 ensures !Final(tried[i].ending) { assert !LastTry()(tried[i]); }
    assert tried != [] ==> LastTry()(tried[|tried| - 1]) == Final(tried[|tried| - 1].ending);
    assert Attempting(call, env)(st, 0 + |tried|) == TryOnce(st, call, env(|tried|), |tried|);
  }
}
