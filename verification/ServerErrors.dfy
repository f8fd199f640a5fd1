/** After a server error of the upstream nothing is different for the next selection, so that a
    request retries the account it has just tried. */
module ServerErrors {
  import opened Wrappers
  import opened Database
  import opened PoolState
  import opened Selection
  import opened Forwarding
  import opened Retrying
  import opened SoloForward

  /** All a selection looks at, apart from the clock. */
  ghost predicate SameForSelection(st: State, st': State) {
    && st'.accounts == st.accounts && st'.proxies == st.proxies && st'.limitedUntil == st.limitedUntil
    && forall ip :: BusyCount(st', ip) == BusyCount(st, ip)
  }

  /** No recorded back-off ends later than `s` and not later than `t`. */
  ghost predicate NoBackOffEnds(st: State, s: int, t: int) {
    s <= t && forall a :: a in st.limitedUntil ==> !(s < st.limitedUntil[a] <= t)
  }

  lemma {:induction false} SameCandidates(st: State, st': State, platform: string, s: int, t: int, order: seq<int>)
    requires SameForSelection(st, st') && NoBackOffEnds(st, s, t)
    ensures CandidatesIn(st', platform, t, order) == CandidatesIn(st, platform, s, order)
  {
    if order != [] {
      var n := |order| - 1;
      SameCandidates(st, st', platform, s, t, order[..n]);
      assert Schedulable(st', platform, t, order[n]) <==> Schedulable(st, platform, s, order[n]);
    }
  }

  lemma SameKeys(st: State, st': State, id: int)
    requires SameForSelection(st, st')
    ensures Ready(st', id) == Ready(st, id) && BusyKey(st', id) == BusyKey(st, id)
    ensures Ready(st, id) ==> AttemptOn(st', id) == AttemptOn(st, id)
  {
    assert BoundEntry(st', id) == BoundEntry(st, id);
  }

  lemma {:induction false} SameBest(st: State, st': State, cands: seq<int>)
    requires SameForSelection(st, st')
    ensures Best(st', cands) == Best(st, cands)
  {
    if cands != [] {
      SameBest(st, st', cands[1..]);
      SameKeys(st, st', cands[0]);
      var b := Best(st, cands[1..]);
      if b.Some? { SameKeys(st, st', b.value); }
    }
  }

  lemma SameChoice(st: State, st': State, platform: string, s: int, t: int, order: seq<int>)
    requires SameForSelection(st, st') && NoBackOffEnds(st, s, t)
    ensures Choose(st', platform, t, order) == Choose(st, platform, s, order)
  {
    SameCandidates(st, st', platform, s, t, order);
    var cands := CandidatesIn(st, platform, s, order);
    SameBest(st, st', cands);
    if Best(st, cands).Some? { SameKeys(st, st', Best(st, cands).value); }
  }

  lemma CountedAndReleased(st: State, ip: string)
    ensures SameForSelection(st, DecExitIp(IncExitIp(st, ip), ip))
  {
  }

  lemma LoggedOnly(st: State, st1: State, row: LogRow)
    requires SameForSelection(st, st1)
    ensures SameForSelection(st, st1.(db := WriteCallLog(st1, row).db))
  {
  }

  /** The exit IP is counted and released, and the log row is in the store only. */
  lemma ServerErrorLeavesAlone(st: State, call: Call, att: Attempt, retries: nat, e: Env)
    requires e.answer.Responded? && 500 <= e.answer.code < 600
    ensures SameForSelection(st, AfterAttempt(st, call, att, retries, e))
  {
    var row := CallRow(call, att, Some(e.answer.code), retries, false);
    var st1 := st;
    if att.exitIp.Some? {
      var ip := att.exitIp.value;
      PerformPlain(IncExitIp(st, ip), ReleaseIp(ip), [LogCall(row)], e.settleAt);
      st1 := DecExitIp(IncExitIp(st, ip), ip);
      CountedAndReleased(st, ip);
    } else {
      assert [] + [LogCall(row)] == [LogCall(row)];
    }
    LogAtTheEnd(st1, row, e.settleAt);
    LoggedOnly(st, st1, row);
  }

  /** Whatever platform selects next, and whenever, it picks as if the attempt had not been made. */
  lemma ServerErrorChoosesTheSame(st: State, call: Call, att: Attempt, retries: nat, e: Env,
                                platform: string, t: int, order: seq<int>)
    requires e.answer.Responded? && 500 <= e.answer.code < 600
    ensures Choose(AfterAttempt(st, call, att, retries, e), platform, t, order) == Choose(st, platform, t, order)
  {
    ServerErrorLeavesAlone(st, call, att, retries, e);
    SameChoice(st, AfterAttempt(st, call, att, retries, e), platform, t, t, order);
  }

  /** The upstream answers every attempt with a server error, and no back-off ends while the
      request is at it. */
  ghost predicate OnlyServerErrors(st: State, call: Call, env: nat -> Env) {
    forall i: nat ::
      && env(i).answer.Responded? && 500 <= env(i).answer.code < 600
      && env(i).order == env(0).order && NoBackOffEnds(st, env(0).selectAt, env(i).selectAt)
  }

  /** So does attempt number `n`, in a state like the first. */
  lemma TriesTheSame(st0: State, st: State, call: Call, env: nat -> Env, n: nat)
    requires OnlyServerErrors(st0, call, env) && SameForSelection(st0, st)
    ensures match Choose(st0, call.platform, env(0).selectAt, env(0).order)
      case None => TryOnce(st, call, env(n), n).None?
      case Some(att) =>
        && TryOnce(st, call, env(n), n).Some?
        && var (st', t) := TryOnce(st, call, env(n), n).value;
           t.att == att && !Final(t.ending) && SameForSelection(st0, st')
  {
    var e := env(n);
    SameChoice(st0, st, call.platform, env(0).selectAt, e.selectAt, e.order);
    var chosen := Choose(st, call.platform, e.selectAt, e.order);
    if chosen.Some? { ServerErrorLeavesAlone(st, call, chosen.value, n, e); }
  }

  /** Then the request spends all its attempts on one account through one proxy, however many
      others could have served it. */
  lemma ServerErrorsTryOneAccount(st: State, call: Call, env: nat -> Env, maxRetries: nat)
    requires OnlyServerErrors(st, call, env)
    ensures var tried := Solo(st, call, env, maxRetries).1;
      match Choose(st, call.platform, env(0).selectAt, env(0).order)
      case None => tried == []
      case Some(att) => |tried| == maxRetries + 1 && forall i :: 0 <= i < |tried| ==> tried[i].att == att
  {
    var attempt := Attempting(call, env);
    match Choose(st, call.platform, env(0).selectAt, env(0).order)
    case None =>
      TriesTheSame(st, st, call, env, 0);
      assert attempt(st, 0) == TryOnce(st, call, env(0), 0);
    case Some(att) =>
      var kind, alike := (s: State) => SameForSelection(st, s), (t: Try) => t.att == att;
      forall s: State, n: nat | kind(s)
        ensures attempt(s, n).Some? && kind(attempt(s, n).value.0)
        ensures !LastTry()(attempt(s, n).value.1) && alike(attempt(s, n).value.1)
      {
        TriesTheSame(st, s, call, env, n);
        assert attempt(s, n) == TryOnce(s, call, env(n), n);
      }
      RetryPersists(attempt, LastTry(), kind, alike, st, 0, maxRetries);
  }
}
