/** One forwarded request: what an upstream answer makes the gateway do, in order, and the
    retry loop when nobody else is at work. */
module Forwarding {
  import opened Wrappers
  import opened Text
  import opened Database
  import opened Adapter
  import opened PoolState
  import opened Binding
  import opened Selection
  import opened Admin

  const U32_LIMIT: int := 0x1_0000_0000
  const REGISTERED: set<string> := {"context7", "exa", "firecrawl", "tavily"}

  datatype Call = Call(platform: string, isolation: bool, codes: StatusCodes, token: Option<int>)

  /** What the upstream does with one attempt: no response at all, or a status code and
      perhaps a Retry-After header. */
  datatype Answer = Failed | Responded(code: nat, retryAfter: Option<string>)

  datatype Ending = NetworkFailure | Answered(outcome: CallOutcome)

  function EndingOf(call: Call, answer: Answer): Ending {
    match answer
    case Failed => NetworkFailure
    case Responded(code, _) => Answered(Classify(code, call.codes))
  }

  /** The response is passed to the caller; otherwise the request is retried. */
  predicate Final(e: Ending) {
    e == Answered(Success) || e == Answered(OtherError)
  }

  /** What the caller of `forward` gets. */
  datatype Result = Passed(ending: Ending) | NoAccount(reason: Reason) | Exhausted | NotRegistered | NotReady

  /** Only the delta-seconds form of section 10.2.3 of RFC 9110; 30 when absent or not a number. */
  function RetryAfterSeconds(header: Option<string>): int {
    if header.None? then 30 else ParseI64(Trim(header.value)).GetOr(30)
  }

  /** The setting is cut to 32 bits after negative values are raised to 0. */
  function ReadMaxRetries(v: int): nat {
    (if v < 0 then 0 else v) % U32_LIMIT
  }

  /** `retries as i32` */
  function AsI32(n: nat): int {
    var m := n % U32_LIMIT;
    if m < 0x8000_0000 then m else m - U32_LIMIT
  }

  // ----- effects -----

  /** The atomic steps that follow an answer. Recording a call reads the memory status between
      its memory half and its store half. */
  datatype Effect =
    | ReleaseIp(ip: string)
    | RecordInMemory(acct: int, success: bool)
    | ReadThenStore(acct: int, success: bool)
    | RecordInStore(acct: int, success: bool, seen: Option<AccountStatus>)
    | StatusInMemory(acct: int, status: AccountStatus)
    | StatusInStore(acct: int, status: AccountStatus)
    | CountTokenUse(token: int)
    | LogCall(row: LogRow)
    | RebindAccount(acct: int)
    | BackOff(acct: int, seconds: int)

  function CallRow(call: Call, att: Attempt, code: Option<int>, retries: nat, success: bool): LogRow {
    LogRow(call.token, call.platform, Some(att.acct), Some(att.proxy), code, AsI32(retries), success)
  }

  function Effects(call: Call, att: Attempt, retries: nat, answer: Answer): seq<Effect> {
    (if att.exitIp.Some? then [ReleaseIp(att.exitIp.value)] else []) + Reaction(call, att, retries, answer)
  }

  function Reaction(call: Call, att: Attempt, retries: nat, answer: Answer): seq<Effect> {
    match answer
    case Failed =>
      [LogCall(CallRow(call, att, None, retries, false)), RebindAccount(att.acct), BackOff(att.acct, 30)]
    case Responded(code, header) =>
      var outcome := Classify(code, call.codes);
      var log := [LogCall(CallRow(call, att, Some(code), retries, outcome == Success))];
      match outcome
      case Success =>
        [RecordInMemory(att.acct, true), ReadThenStore(att.acct, true)]
        + (if call.token.Some? then [CountTokenUse(call.token.value)] else []) + log
      case OtherError => [RecordInMemory(att.acct, false), ReadThenStore(att.acct, false)] + log
      case HardRevokedCode => [StatusInMemory(att.acct, HardRevoked), StatusInStore(att.acct, HardRevoked)] + log
      case RateLimited => [BackOff(att.acct, RetryAfterSeconds(header))] + log
      case Transient => log
  }

  function Perform(st: State, e: Effect, now: int): State {
    match e
    case ReleaseIp(ip) => DecExitIp(st, ip)
    case RecordInMemory(a, ok) => RecordMem(st, a, ok)
    case ReadThenStore(a, ok) => st
    case RecordInStore(a, ok, seen) => RecordDb(st, a, ok, seen)
    case StatusInMemory(a, s) => SetStatusMem(st, a, s)
    case StatusInStore(a, s) => SetStatusDb(st, a, s)
    case CountTokenUse(t) => IncTokenCount(st, t)
    case LogCall(row) => WriteCallLog(st, row)
    case RebindAccount(a) => BindAccount(st, a, None)
    case BackOff(a, secs) => MarkRateLimited(st, a, now + secs * SECOND)
  }

  /** What an effect leaves to be done before the rest: the store half of a recorded call,
      carrying the status it read. */
  function Leaves(st: State, e: Effect): seq<Effect> {
    if e.ReadThenStore? then [RecordInStore(e.acct, e.success, ReadStatus(st, e.acct))] else []
  }

  function Weight(e: Effect): nat { if e.ReadThenStore? then 2 else 1 }

  function Weights(todo: seq<Effect>): nat {
    if todo == [] then 0 else Weight(todo[0]) + Weights(todo[1..])
  }

  lemma PerformLightens(st: State, todo: seq<Effect>)
    requires todo != []
    ensures Weights(Leaves(st, todo[0]) + todo[1..]) < Weights(todo)
  {
    var cont := Leaves(st, todo[0]);
    if cont != [] {
      assert (cont + todo[1..])[1..] == todo[1..];
    } else {
      assert cont + todo[1..] == todo[1..];
    }
  }

  /** All effects in order, nobody interfering. */
  function PerformAll(st: State, todo: seq<Effect>, now: int): State
    decreases Weights(todo)
  {
    if todo == [] then st
    else
      PerformLightens(st, todo);
      PerformAll(Perform(st, todo[0], now), Leaves(st, todo[0]) + todo[1..], now)
  }

  lemma PerformFirst(st: State, e: Effect, rest: seq<Effect>, now: int)
    ensures PerformAll(st, [e] + rest, now) == PerformAll(Perform(st, e, now), Leaves(st, e) + rest, now)
  {
    assert ([e] + rest)[1..] == rest;
  }

  lemma PerformPlain(st: State, e: Effect, rest: seq<Effect>, now: int)
    requires !e.ReadThenStore?
    ensures PerformAll(st, [e] + rest, now) == PerformAll(Perform(st, e, now), rest, now)
  {
    PerformFirst(st, e, rest, now);
    assert [] + rest == rest;
  }

  lemma PerformRead(st: State, a: int, ok: bool, rest: seq<Effect>, now: int)
    ensures PerformAll(st, [ReadThenStore(a, ok)] + rest, now)
      == PerformAll(RecordDb(st, a, ok, ReadStatus(st, a)), rest, now)
  {
    PerformFirst(st, ReadThenStore(a, ok), rest, now);
    PerformPlain(st, RecordInStore(a, ok, ReadStatus(st, a)), rest, now);
  }

  /** The two halves of a recorded call, with nothing between them, are the whole. */
  lemma PerformRecord(st: State, a: int, ok: bool, rest: seq<Effect>, now: int)
    ensures PerformAll(st, [RecordInMemory(a, ok), ReadThenStore(a, ok)] + rest, now)
         == PerformAll(RecordCall(st, a, ok), rest, now)
  {
    var tail := [ReadThenStore(a, ok)] + rest;
    assert [RecordInMemory(a, ok), ReadThenStore(a, ok)] + rest == [RecordInMemory(a, ok)] + tail;
    PerformPlain(st, RecordInMemory(a, ok), tail, now);
    PerformRead(RecordMem(st, a, ok), a, ok, rest, now);
  }

  lemma PerformStatus(st: State, a: int, s: AccountStatus, rest: seq<Effect>, now: int)
    ensures PerformAll(st, [StatusInMemory(a, s), StatusInStore(a, s)] + rest, now)
         == PerformAll(SetStatus(st, a, s), rest, now)
  {
    var tail := [StatusInStore(a, s)] + rest;
    assert [StatusInMemory(a, s), StatusInStore(a, s)] + rest == [StatusInMemory(a, s)] + tail;
    PerformPlain(st, StatusInMemory(a, s), tail, now);
    PerformPlain(SetStatusMem(st, a, s), StatusInStore(a, s), rest, now);
  }

  lemma PerformLast(st: State, e: Effect, now: int)
    requires !e.ReadThenStore?
    ensures PerformAll(st, [e], now) == Perform(st, e, now)
  {
    assert [e] + [] == [e];
    PerformPlain(st, e, [], now);
  }

  lemma PerformTwo(st: State, e: Effect, f: Effect, now: int)
    requires !e.ReadThenStore? && !f.ReadThenStore?
    ensures PerformAll(st, [e, f], now) == Perform(Perform(st, e, now), f, now)
  {
    assert [e, f] == [e] + [f];
    PerformPlain(st, e, [f], now);
    PerformLast(Perform(st, e, now), f, now);
  }

  /** A rate limit backs the account off, whatever back-off it had, and is logged. */
  lemma PerformRateLimit(st: State, call: Call, att: Attempt, retries: nat, code: nat, header: Option<string>, now: int)
    requires Classify(code, call.codes) == RateLimited
    ensures PerformAll(st, Reaction(call, att, retries, Responded(code, header)), now)
         == WriteCallLog(MarkRateLimited(st, att.acct, now + RetryAfterSeconds(header) * SECOND),
                         CallRow(call, att, Some(code), retries, false))
  {
    var row, secs := CallRow(call, att, Some(code), retries, false), RetryAfterSeconds(header);
    assert Reaction(call, att, retries, Responded(code, header)) == [BackOff(att.acct, secs), LogCall(row)];
    PerformTwo(st, BackOff(att.acct, secs), LogCall(row), now);
  }

  /** The statements of the source that follow an answer, in its order. */
  method Settle(pools: Pools, call: Call, att: Attempt, retries: nat, answer: Answer, now: int)
    modifies pools
    ensures pools.View() == PerformAll(old(pools.View()), Effects(call, att, retries, answer), now)
  {
    ghost var rest := Reaction(call, att, retries, answer);
    if att.exitIp.Some? {
      PerformPlain(pools.View(), ReleaseIp(att.exitIp.value), rest, now);
      pools.ReleaseExitIp(att.exitIp.value);
    } else {
      assert [] + rest == rest;
    }
    match answer {
      case Failed => SettleFailure(pools, call, att, retries, now);
      case Responded(code, header) =>
        match Classify(code, call.codes) {
          case Success => SettleSuccess(pools, call, att, retries, code, now);
          case HardRevokedCode => SettleRevocation(pools, call, att, retries, code, now);
          case RateLimited => SettleRateLimit(pools, call, att, retries, code, header, now);
          case OtherError => SettleOtherError(pools, call, att, retries, code, now);
          case Transient => LogLast(pools, CallRow(call, att, Some(code), retries, false), now);
        }
    }
  }

  method LogLast(pools: Pools, row: LogRow, now: int)
    modifies pools
    ensures pools.View() == PerformAll(old(pools.View()), [LogCall(row)], now)
  {
    assert [LogCall(row)] + [] == [LogCall(row)];
    PerformPlain(pools.View(), LogCall(row), [], now);
    pools.Log(row);
  }

  lemma PerformFailure(st: State, call: Call, att: Attempt, retries: nat, now: int)
    ensures PerformAll(st, Reaction(call, att, retries, Failed), now)
         == MarkRateLimited(BindAccount(WriteCallLog(st, CallRow(call, att, None, retries, false)), att.acct, None),
                            att.acct, now + 30 * SECOND)
  {
    var row, a := CallRow(call, att, None, retries, false), att.acct;
    var rest := [RebindAccount(a), BackOff(a, 30)];
    assert Reaction(call, att, retries, Failed) == [LogCall(row)] + rest;
    PerformPlain(st, LogCall(row), rest, now);
    PerformTwo(WriteCallLog(st, row), RebindAccount(a), BackOff(a, 30), now);
  }

  method SettleFailure(pools: Pools, call: Call, att: Attempt, retries: nat, now: int)
    modifies pools
    ensures pools.View() == PerformAll(old(pools.View()), Reaction(call, att, retries, Failed), now)
  {
    var row, a := CallRow(call, att, None, retries, false), att.acct;
    PerformFailure(pools.View(), call, att, retries, now);
    pools.Log(row);
    Bind(pools, a, None);
    pools.LimitUntil(a, now + 30 * SECOND);
  }

  method SettleSuccess(pools: Pools, call: Call, att: Attempt, retries: nat, code: nat, now: int)
    requires Classify(code, call.codes) == Success
    modifies pools
    ensures pools.View() == PerformAll(old(pools.View()), Reaction(call, att, retries, Responded(code, None)), now)
  {
    var row, a := CallRow(call, att, Some(code), retries, true), att.acct;
    ghost var token := if call.token.Some? then [CountTokenUse(call.token.value)] else [];
    assert Reaction(call, att, retries, Responded(code, None))
        == [RecordInMemory(a, true), ReadThenStore(a, true)] + (token + [LogCall(row)]);
    PerformRecord(pools.View(), a, true, token + [LogCall(row)], now);
    pools.Record(a, true);
    if call.token.Some? {
      PerformPlain(pools.View(), CountTokenUse(call.token.value), [LogCall(row)], now);
      pools.CountToken(call.token.value);
    } else {
      assert token + [LogCall(row)] == [LogCall(row)];
    }
    LogLast(pools, row, now);
  }

  method SettleOtherError(pools: Pools, call: Call, att: Attempt, retries: nat, code: nat, now: int)
    requires Classify(code, call.codes) == OtherError
    modifies pools
    ensures pools.View() == PerformAll(old(pools.View()), Reaction(call, att, retries, Responded(code, None)), now)
  {
    var row, a := CallRow(call, att, Some(code), retries, false), att.acct;
    PerformRecord(pools.View(), a, false, [LogCall(row)], now);
    pools.Record(a, false);
    LogLast(pools, row, now);
  }

  method SettleRevocation(pools: Pools, call: Call, att: Attempt, retries: nat, code: nat, now: int)
    requires Classify(code, call.codes) == HardRevokedCode
    modifies pools
    ensures pools.View() == PerformAll(old(pools.View()), Reaction(call, att, retries, Responded(code, None)), now)
  {
    var row, a := CallRow(call, att, Some(code), retries, false), att.acct;
    PerformStatus(pools.View(), a, HardRevoked, [LogCall(row)], now);
    pools.ChangeStatus(a, HardRevoked);
    LogLast(pools, row, now);
  }

  method SettleRateLimit(pools: Pools, call: Call, att: Attempt, retries: nat, code: nat, header: Option<string>,
                         now: int)
    requires Classify(code, call.codes) == RateLimited
    modifies pools
    ensures pools.View() == PerformAll(old(pools.View()), Reaction(call, att, retries, Responded(code, header)), now)
  {
    PerformRateLimit(pools.View(), call, att, retries, code, header, now);
    pools.LimitUntil(att.acct, now + RetryAfterSeconds(header) * SECOND);
    pools.Log(CallRow(call, att, Some(code), retries, false));
  }
}
