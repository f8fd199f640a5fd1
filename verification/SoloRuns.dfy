/** The call-by-call loop of `Forward` is one of the interleavings of the engine: the run in which
    nobody else is at work. So whatever holds on every run holds for it. */
module SoloRuns {
  import opened Wrappers
  import opened Counting
  import opened Database
  import opened PoolState
  import opened Selection
  import opened Forwarding
  import opened Retrying
  import opened SoloForward
  import opened Engine
  import opened Concurrency
  import opened Steps

  /** Every other request is finished. */
  ghost predicate Alone(w: World, r: int) {
    r in w.reqs && forall x :: x in w.reqs && x != r ==> w.reqs[x].pc.Done?
  }

  lemma ReachedPermits(w0: World, w: World)
    requires PermitsOk(w0) && Reaches(w0, w)
    ensures PermitsOk(w)
  {
    var evs :| Leads(w0, evs, w) && NoOperation(evs);
    RunKeepsPermits(w0, evs);
  }

  /** With everybody else finished, an account's permits are free. */
  lemma PermitIsFree(w: World, r: int, att: Attempt)
    requires PermitsOk(w) && Alone(w, r) && att.acct in w.st.accounts
    ensures FreePermit(w, r, att)
  {
    var reqs := w.reqs[r := w.reqs[r].(pc := AwaitAccount(att))];
    forall x | x in reqs ensures !HoldsAccount(att.acct)(reqs[x]) {}
    CountNone(reqs, HoldsAccount(att.acct));
  }

  /** The choice, with a permit of its account free. */
  lemma ChosenAlone(w0: World, w: World, r: int, e: Env, att: Attempt)
    requires PermitsOk(w0) && Reaches(w0, w) && Alone(w, r) && w.reqs[r].pc == Choosing
    requires w.now <= e.selectAt && Lists(e.order, w.st.accounts.Keys)
    requires Choose(w.st, w.reqs[r].call.platform, e.selectAt, e.order) == Some(att)
    ensures var w' := Moved(w, r, w.reqs[r].(pc := Chosen(att))).(now := e.selectAt);
      Reaches(w0, w') && FreePermit(w', r, att)
  {
    SelectStep(w0, w, r, e);
    ChosenIsSchedulable(w.st, w.reqs[r].call.platform, e.selectAt, e.order);
    var w' := Moved(w, r, w.reqs[r].(pc := Chosen(att))).(now := e.selectAt);
    ReachedPermits(w0, w');
    PermitIsFree(w', r, att);
  }

  /** The world at the moment of the answer. */
  function Sent(w: World, r: int, e: Env, att: Attempt): World
    requires r in w.reqs
  {
    World(Counted(w.st, att), w.sems, w.reqs[r := w.reqs[r].(pc := Sending(att, true))], e.settleAt)
  }

  lemma SentAlone(w0: World, w: World, r: int, e: Env, att: Attempt)
    requires PermitsOk(w0) && Reaches(w0, w) && Alone(w, r) && w.reqs[r].pc == Choosing
    requires w.now <= e.selectAt <= e.settleAt && Lists(e.order, w.st.accounts.Keys)
    requires Choose(w.st, w.reqs[r].call.platform, e.selectAt, e.order) == Some(att)
    ensures Reaches(w0, Sent(w, r, e, att))
  {
    ChosenAlone(w0, w, r, e, att);
    SendAndWait(w0, w, r, e, att);
  }

  lemma SendAndWait(w0: World, w: World, r: int, e: Env, att: Attempt)
    requires r in w.reqs && e.selectAt <= e.settleAt
    requires var w1 := Moved(w, r, w.reqs[r].(pc := Chosen(att))).(now := e.selectAt);
      Reaches(w0, w1) && FreePermit(w1, r, att)
    ensures Reaches(w0, Sent(w, r, e, att))
  {
    var q := w.reqs[r];
    var w1 := Moved(w, r, q.(pc := Chosen(att))).(now := e.selectAt);
    SendStep(w0, w1, r, att);
    var w2 := Moved(w1, r, q.(pc := Sending(att, true))).(st := Counted(w.st, att));
    assert w2.reqs == w.reqs[r := q.(pc := Sending(att, true))];
    WaitUntil(w0, w2, e.settleAt);
  }

  /** One whole attempt. */
  lemma AttemptAlone(w0: World, w: World, r: int, e: Env, att: Attempt) returns (rows: seq<LogRow>)
    requires PermitsOk(w0) && Reaches(w0, w) && Alone(w, r) && w.reqs[r].pc == Choosing
    requires w.now <= e.selectAt <= e.settleAt && Lists(e.order, w.st.accounts.Keys)
    requires Choose(w.st, w.reqs[r].call.platform, e.selectAt, e.order) == Some(att)
    ensures var q := w.reqs[r];
      Reaches(w0, World(AfterAttempt(w.st, q.call, att, q.retries, e), w.sems,
                        w.reqs[r := After(q, EndingOf(q.call, e.answer), rows)], e.settleAt))
  {
    SentAlone(w0, w, r, e, att);
    rows := AnswerStep(w0, Sent(w, r, e, att), r, e.answer, att);
    AnsweredAfterSent(w, r, e, att, rows);
  }

  lemma AnsweredAfterSent(w: World, r: int, e: Env, att: Attempt, rows: seq<LogRow>)
    requires r in w.reqs
    ensures var w1, q := Sent(w, r, e, att), w.reqs[r];
      Moved(w1, r, After(w1.reqs[r], EndingOf(q.call, e.answer), rows)).reqs
      == w.reqs[r := After(q, EndingOf(q.call, e.answer), rows)]
  {
  }

  // ----- the loop -----

  /** The clock runs from each selection to its settling and on to the next selection. */
  ghost predicate InOrder(env: nat -> Env, i: nat) {
    env(i).selectAt <= env(i).settleAt <= env(i + 1).selectAt
  }

  ghost predicate Clocked(env: nat -> Env) { forall i: nat :: InOrder(env, i) }

  function EndingsOf(tried: seq<Try>): seq<Ending> {
    if tried == [] then [] else [tried[0].ending] + EndingsOf(tried[1..])
  }

  /** What the caller gets when the attempts from number `n` on were `tried`. */
  function ResultFrom(st: State, tried: seq<Try>, call: Call, env: nat -> Env, n: nat, most: nat): Result {
    if tried != [] && Final(tried[|tried| - 1].ending) then Passed(tried[|tried| - 1].ending)
    else if n + |tried| > most then Exhausted
    else NoAccount(Diagnose(st, call.platform, env(n + |tried|).selectAt, env(n + |tried|).order))
  }

  /** The request has finished as the loop from attempt number `n` on does. */
  ghost predicate EndsAs(w': World, r: int, q: Req, p: (State, seq<Try>), env: nat -> Env, n: nat, most: nat) {
    && w'.st == p.0 && r in w'.reqs
    && w'.reqs[r].pc == Done(ResultFrom(p.0, p.1, q.call, env, n, most))
    && w'.reqs[r].endings == q.endings + EndingsOf(p.1)
  }

  /** Nobody to ask. */
  lemma NobodyAlone(w0: World, w: World, r: int, e: Env) returns (w': World)
    requires Reaches(w0, w) && r in w.reqs && w.reqs[r].pc == Choosing
    requires w.now <= e.selectAt && Lists(e.order, w.st.accounts.Keys)
    requires Choose(w.st, w.reqs[r].call.platform, e.selectAt, e.order).None?
    ensures Reaches(w0, w') && w'.st == w.st && r in w'.reqs && w'.reqs[r].endings == w.reqs[r].endings
    ensures w'.reqs[r].pc == Done(NoAccount(Diagnose(w.st, w.reqs[r].call.platform, e.selectAt, e.order)))
  {
    SelectStep(w0, w, r, e);
    var w1 := Moved(w, r, w.reqs[r].(pc := Diagnosing)).(now := e.selectAt);
    ReachesOn(w0, w1, DiagnoseNone(r, e.order));
    w' := Next(w1, DiagnoseNone(r, e.order));
  }

  /** The request finishes as the loop does from attempt number `n` on, starting from `st`. */
  ghost predicate EndsLikeLoop(w': World, r: int, st: State, q: Req, env: nat -> Env, n: nat, most: nat)
    requires n <= most
  {
    EndsAs(w', r, q, Retry(Attempting(q.call, env), LastTry(), st, n, most), env, n, most)
  }

  lemma EndsAfter(w': World, r: int, st: State, q: Req, st1: State, q1: Req, t: Try, env: nat -> Env, n: nat, most: nat)
    requires n < most && !Final(t.ending) && EndsLikeLoop(w', r, st1, q1, env, n + 1, most)
    requires Attempting(q.call, env)(st, n) == Some((st1, t))
    requires q1.call == q.call && q1.endings == q.endings + [t.ending]
    ensures EndsLikeLoop(w', r, st, q, env, n, most)
  {
    var p := Retry(Attempting(q.call, env), LastTry(), st1, n + 1, most);
    assert LastTry()(t) == Final(t.ending);
    assert Retry(Attempting(q.call, env), LastTry(), st, n, most) == (p.0, [t] + p.1);
    assert ([t] + p.1)[1..] == p.1;
    assert q.endings + ([t.ending] + EndingsOf(p.1)) == q1.endings + EndingsOf(p.1);
  }

  lemma EndsHere(w': World, r: int, st: State, q: Req, t: Try, env: nat -> Env, n: nat, most: nat)
    requires r in w'.reqs && w'.reqs[r].endings == q.endings + [t.ending] && n <= most
    requires w'.reqs[r].pc == if Final(t.ending) then Done(Passed(t.ending)) else Done(Exhausted)
    requires Final(t.ending) || n == most
    requires Attempting(q.call, env)(st, n) == Some((w'.st, t))
    ensures EndsLikeLoop(w', r, st, q, env, n, most)
  {
    assert LastTry()(t) == Final(t.ending);
    assert [t][1..] == [];
  }

  lemma EndsAtOnce(w': World, r: int, st: State, q: Req, env: nat -> Env, n: nat, most: nat)
    requires r in w'.reqs && w'.reqs[r].endings == q.endings && w'.st == st && n <= most
    requires w'.reqs[r].pc == Done(NoAccount(Diagnose(st, q.call.platform, env(n).selectAt, env(n).order)))
    requires TryOnce(st, q.call, env(n), n).None?
    ensures EndsLikeLoop(w', r, st, q, env, n, most)
  {
    assert Attempting(q.call, env)(st, n) == TryOnce(st, q.call, env(n), n);
    assert q.endings + [] == q.endings;
  }

  /** One attempt of the loop: what the attempt function says, done by the engine. */
  lemma StepAlone(w0: World, w: World, r: int, env: nat -> Env, n: nat) returns (w': World, t: Try)
    requires PermitsOk(w0) && Reaches(w0, w) && Alone(w, r) && w.reqs[r].pc == Choosing
    requires w.reqs[r].retries == n < U32_LIMIT - 1 && Fits(env, w.st.accounts.Keys) && Clocked(env)
      && w.now <= env(n).selectAt
    requires Choose(w.st, w.reqs[r].call.platform, env(n).selectAt, env(n).order).Some?
    ensures Reaches(w0, w') && Alone(w', r) && w'.st.accounts.Keys == w.st.accounts.Keys
      && w'.now <= env(n + 1).selectAt
    ensures Attempting(w.reqs[r].call, env)(w.st, n) == Some((w'.st, t))
    ensures MovedOn(w.reqs[r], w'.reqs[r], t.ending)
  {
    var q, e := w.reqs[r], env(n);
    assert Lists(e.order, w.st.accounts.Keys);
    assert InOrder(env, n);
    var att := Choose(w.st, q.call.platform, e.selectAt, e.order).value;
    var rows := AttemptAlone(w0, w, r, e, att);
    var st' := AfterAttempt(w.st, q.call, att, n, e);
    t := Try(att, EndingOf(q.call, e.answer), BackOffEnd(e));
    w' := World(st', w.sems, w.reqs[r := After(q, t.ending, rows)], e.settleAt);
    AttemptKeepsKeys(w.st, q.call, att, n, e);
    AttemptIs(w.st, q.call, env, n, att, st');
    AfterMovesOn(q, t.ending, rows);
  }

  lemma AttemptIs(st: State, call: Call, env: nat -> Env, n: nat, att: Attempt, st': State)
    requires Choose(st, call.platform, env(n).selectAt, env(n).order) == Some(att)
    requires st' == AfterAttempt(st, call, att, n, env(n))
    ensures Attempting(call, env)(st, n) == Some((st', Try(att, EndingOf(call, env(n).answer), BackOffEnd(env(n)))))
  {
  }

  lemma AfterMovesOn(q: Req, ending: Ending, rows: seq<LogRow>)
    requires q.retries < U32_LIMIT - 1
    ensures MovedOn(q, After(q, ending, rows), ending)
  {
  }

  /** The request after an attempt: finished, or choosing again. */
  ghost predicate MovedOn(q: Req, q': Req, ending: Ending) {
    && q'.call == q.call && q'.maxRetries == q.maxRetries && q'.endings == q.endings + [ending]
    && q'.retries == (if Final(ending) || q.retries >= q.maxRetries then q.retries else q.retries + 1)
    && q'.pc == (if Final(ending) then Done(Passed(ending))
                 else if q.retries >= q.maxRetries then Done(Exhausted) else Choosing)
  }

  lemma {:induction false} LoopAlone(w0: World, w: World, r: int, env: nat -> Env, n: nat, most: nat)
      returns (w': World)
    requires PermitsOk(w0) && Reaches(w0, w) && Alone(w, r) && w.reqs[r].pc == Choosing
    requires w.reqs[r].retries == n <= most == w.reqs[r].maxRetries < U32_LIMIT - 1
    requires Fits(env, w.st.accounts.Keys) && Clocked(env) && w.now <= env(n).selectAt
    ensures Reaches(w0, w') && EndsLikeLoop(w', r, w.st, w.reqs[r], env, n, most)
    decreases most - n
  {
    var q, e := w.reqs[r], env(n);
    assert Lists(e.order, w.st.accounts.Keys);
    if Choose(w.st, q.call.platform, e.selectAt, e.order).None? {
      w' := NobodyAlone(w0, w, r, e);
      EndsAtOnce(w', r, w.st, q, env, n, most);
    } else {
      var w1, t := StepAlone(w0, w, r, env, n);
      var q1 := w1.reqs[r];
      if Final(t.ending) || n == most {
        w' := w1;
        EndsHere(w', r, w.st, q, t, env, n, most);
      } else {
        w' := LoopAlone(w0, w1, r, env, n + 1, most);
        EndsAfter(w', r, w.st, q, w1.st, q1, t, env, n, most);
      }
    }
  }

  /** The whole call: from a state with every request finished, some run of the engine in which
      only this request and the clock move ends in the state, with the result and with the
      attempts' endings of `Forward`. */
  lemma ForwardIsARun(w: World, r: int, call: Call, env: nat -> Env) returns (w': World)
    requires PermitsOk(w) && r !in w.reqs && forall x :: x in w.reqs ==> w.reqs[x].pc.Done?
    requires call.platform in REGISTERED && call.platform in w.st.platPermits
    requires ReadMaxRetries(w.st.db.maxRetries) < U32_LIMIT - 1
    requires Fits(env, w.st.accounts.Keys) && Clocked(env) && w.now <= env(0).selectAt
    ensures var most := ReadMaxRetries(w.st.db.maxRetries);
            var (st', tried) := Solo(w.st, call, env, most);
      && Reaches(w, w') && w'.st == st' && r in w'.reqs
      && w'.reqs[r].pc == Done(ResultOf(st', tried, call, env, most))
      && w'.reqs[r].endings == EndingsOf(tried)
  {
    var most := ReadMaxRetries(w.st.db.maxRetries);
    ReachesSelf(w);
    forall x | x in w.reqs ensures !HoldsPlatform(call.platform)(w.reqs[x]) {}
    CountNone(w.reqs, HoldsPlatform(call.platform));
    AdmitStep(w, w, r, call);
    var q := Req(call, Choosing, 0, most, [], []);
    w' := LoopAlone(w, Moved(w, r, q), r, env, 0, most);
    var p := Solo(w.st, call, env, most);
    assert EndsLikeLoop(w', r, w.st, q, env, 0, most);
    assert [] + EndingsOf(p.1) == EndingsOf(p.1);
    assert ResultFrom(p.0, p.1, call, env, 0, most) == ResultOf(p.0, p.1, call, env, most);
  }
}
