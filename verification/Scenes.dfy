/** Scenes of one or two requests at the smallest gateway, from which the exhibited runs are made. */
module Scenes {
  import opened Wrappers
  import opened Counting
  import opened Database
  import opened Adapter
  import opened PoolState
  import opened Selection
  import opened Admin
  import opened Forwarding
  import opened SoloForward
  import opened Engine
  import opened Steps
  import opened Demo
  import opened QuotaReached

  // ----- one request -----

  /** One request alone. */
  function One(w: World, q: Req): World { w.(reqs := map[0 := q]) }

  lemma OneMoves(w: World, q: Req, q': Req)
    ensures Moved(One(w, q), 0, q') == One(w, q')
  {
    assert map[0 := q][0 := q'] == map[0 := q'];
  }

  /** A request in its first attempt. */
  function First(w: World, pc: Pc): Req { Req(CALL, pc, 0, ReadMaxRetries(w.st.db.maxRetries), [], []) }

  lemma OneAdmitted(w0: World)
    requires Idle(w0)
    ensures Reaches(w0, One(w0, First(w0, Choosing)))
  {
    ReachesSelf(w0);
    CountNone(w0.reqs, HoldsPlatform(SLUG));
    AdmitStep(w0, w0, 0, CALL);
    assert Moved(w0, 0, First(w0, Choosing)).reqs == map[0 := First(w0, Choosing)];
  }

  lemma OneWaits(w: World, q: Req, att: Attempt)
    requires att.acct in w.st.acctPermits && att.acct in w.sems && 1 <= w.sems[att.acct]
    ensures FreePermit(One(w, q), 0, att)
  {
    CountNone(map[0 := q][0 := q.(pc := AwaitAccount(att))], HoldsAccount(att.acct));
  }

  lemma OneSends(w0: World, q: Req, e: Env, att: Attempt)
    requires Reaches(w0, One(w0, q)) && q.pc == Choosing && att.exitIp.None?
    requires e.selectAt == w0.now && Lists(e.order, w0.st.accounts.Keys)
    requires Choose(w0.st, q.call.platform, e.selectAt, e.order) == Some(att)
    requires att.acct in w0.st.acctPermits && att.acct in w0.sems && 1 <= w0.sems[att.acct]
    ensures Reaches(w0, One(w0, q.(pc := Sending(att, true))))
  {
    SelectStep(w0, One(w0, q), 0, e);
    OneMoves(w0, q, q.(pc := Chosen(att)));
    OneMoves(w0, q.(pc := Chosen(att)), q.(pc := Sending(att, true)));
    OneWaits(w0, q.(pc := Chosen(att)), att);
    SendStep(w0, One(w0, q.(pc := Chosen(att))), 0, att);
  }

  lemma OneSent(w0: World)
    requires Idle(w0)
    ensures Reaches(w0, One(w0, First(w0, Sending(ATTEMPT, true))))
  {
    OneAdmitted(w0);
    AbleIsChosen(w0.st, w0.now);
    OneSends(w0, First(w0, Choosing), Env([1], w0.now, Failed, w0.now), ATTEMPT);
  }

  /** The request with its answer, nothing done about it yet. */
  function AnsweredReq(q: Req, att: Attempt, answer: Answer): Req {
    q.(pc := Settling(att, true, Effects(q.call, att, q.retries, answer)),
       endings := q.endings + [EndingOf(q.call, answer)])
  }

  lemma OneAnswered(w0: World, answer: Answer)
    requires Idle(w0)
    ensures RunsTo(w0, One(w0, AnsweredReq(First(w0, Sending(ATTEMPT, true)), ATTEMPT, answer)))
  {
    OneSent(w0);
    var q := First(w0, Sending(ATTEMPT, true));
    RespondStep(w0, One(w0, q), 0, answer, ATTEMPT);
    OneMoves(w0, q, AnsweredReq(q, ATTEMPT, answer));
    ReachesRuns(w0, One(w0, AnsweredReq(q, ATTEMPT, answer)));
  }

  /** The request with other effects to do, and more rows submitted. */
  function Onward(q: Req, todo: seq<Effect>, rows: seq<LogRow>): Req
    requires q.pc.Settling?
  {
    q.(pc := q.pc.(todo := todo), submitted := q.submitted + rows)
  }

  function RowsOf(e: Effect): seq<LogRow> { if e.LogCall? then [e.row] else [] }

  /** One effect of one request, whoever else is there. */
  lemma EffectRuns(w0: World, w: World, r: int, e: Effect, rest: seq<Effect>)
    requires RunsTo(w0, w) && r in w.reqs && w.reqs[r].pc.Settling? && w.reqs[r].pc.todo == [e] + rest
    ensures var q' := Onward(w.reqs[r], Leaves(w.st, e) + rest, RowsOf(e));
      RunsTo(w0, Moved(w, r, q').(st := Perform(w.st, e, w.now)))
  {
    assert ([e] + rest)[1..] == rest;
    RunsOn(w0, w, DoEffect(r));
    assert NextReq(w, DoEffect(r)) == Onward(w.reqs[r], Leaves(w.st, e) + rest, RowsOf(e));
  }

  lemma OneEffect(w0: World, w: World, q: Req, e: Effect, rest: seq<Effect>)
    requires RunsTo(w0, One(w, q)) && q.pc.Settling? && q.pc.todo == [e] + rest
    ensures RunsTo(w0, One(w.(st := Perform(w.st, e, w.now)), Onward(q, Leaves(w.st, e) + rest, RowsOf(e))))
  {
    EffectRuns(w0, One(w, q), 0, e, rest);
    OneMoves(w, q, Onward(q, Leaves(w.st, e) + rest, RowsOf(e)));
  }

  lemma OneOperates(w0: World, w: World, q: Req, op: Op)
    requires RunsTo(w0, One(w, q))
    ensures var st := Apply(w.st, op, w.now); RunsTo(w0, One(w.(st := st, sems := w.sems + st.acctPermits), q))
  {
    RunsOn(w0, One(w, q), Event.Operate(op));
  }

  /** One request has had a success recorded in both copies; its log row is still to be written. */
  lemma RecordedOne(w0: World) returns (q: Req)
    requires Idle(w0)
    ensures RunsTo(w0, One(w0.(st := RecordCall(w0.st, 1, true)), q))
    ensures q.endings == [Answered(Success)] && q.submitted == [] && q.retries == 0
    ensures q.pc == Settling(ATTEMPT, true, [LogCall(CallRow(CALL, ATTEMPT, Some(200), 0, true))])
  {
    var q0 := AnsweredReq(First(w0, Sending(ATTEMPT, true)), ATTEMPT, Responded(200, None));
    var log := LogCall(CallRow(CALL, ATTEMPT, Some(200), 0, true));
    OneAnswered(w0, Responded(200, None));
    SuccessEffects();
    q := RecordsOne(w0, w0, q0, 1, [log]);
    assert [] + [Answered(Success)] == [Answered(Success)];
  }

  lemma SuccessEffects()
    ensures Effects(CALL, ATTEMPT, 0, Responded(200, None))
         == [RecordInMemory(1, true), ReadThenStore(1, true)] + [LogCall(CallRow(CALL, ATTEMPT, Some(200), 0, true))]
    ensures EndingOf(CALL, Responded(200, None)) == Answered(Success)
  {
    assert Classify(200, CALL.codes) == Success;
  }

  /** The three steps of a record, nobody interfering. */
  lemma RecordsOne(w0: World, w: World, q: Req, a: int, rest: seq<Effect>) returns (q': Req)
    requires RunsTo(w0, One(w, q)) && q.pc.Settling?
    requires q.pc.todo == [RecordInMemory(a, true), ReadThenStore(a, true)] + rest
    ensures RunsTo(w0, One(w.(st := RecordCall(w.st, a, true)), q'))
    ensures q' == q.(pc := q.pc.(todo := rest))
  {
    var first, second := RecordInMemory(a, true), ReadThenStore(a, true);
    var mem := w.(st := RecordMem(w.st, a, true));
    var third := RecordInStore(a, true, ReadStatus(mem.st, a));
    assert q.pc.todo == [first] + ([second] + rest);
    OneEffect(w0, w, q, first, [second] + rest);
    var q1 := Onward(q, [second] + rest, []);
    assert [] + ([second] + rest) == [second] + rest;
    OneEffect(w0, mem, q1, second, rest);
    var q2 := Onward(q1, [third] + rest, []);
    OneEffect(w0, mem, q2, third, rest);
    assert [] + rest == rest;
    q' := Onward(q2, rest, []);
    assert q.submitted + [] + [] + [] == q.submitted;
  }

  // ----- two requests -----

  /** Two requests. */
  function Two(w: World, q0: Req, q1: Req): World { w.(reqs := map[0 := q0, 1 := q1]) }

  lemma TwoMoves(w: World, q0: Req, q1: Req, q: Req)
    ensures Moved(Two(w, q0, q1), 0, q) == Two(w, q, q1) && Moved(Two(w, q0, q1), 1, q) == Two(w, q0, q)
  {
    assert map[0 := q0, 1 := q1][0 := q] == map[0 := q, 1 := q1];
    assert map[0 := q0, 1 := q1][1 := q] == map[0 := q0, 1 := q];
  }

  lemma BothPicked(w0: World, w: World)
    requires AllPicked(w0, w, 2)
    ensures w == Two(w0, Picked(w0), Picked(w0))
  {
    assert 0 in w.reqs && 1 in w.reqs;
    assert forall r :: r in w.reqs ==> r == 0 || r == 1;
    assert w.reqs == map[0 := Picked(w0), 1 := Picked(w0)];
  }

  /** Of two requests at most one holds a permit when the other only waits for it. */
  lemma OneHolds(q0: Req, q1: Req, a: int)
    requires !HoldsAccount(a)(q0) || !HoldsAccount(a)(q1)
    ensures Count(map[0 := q0, 1 := q1], HoldsAccount(a)) <= 1
  {
    var one := if HoldsAccount(a)(q0) then {0} else {1};
    var holders := Where(map[0 := q0, 1 := q1], HoldsAccount(a));
    assert forall r :: r in holders ==> r in one;
    SubsetSize(holders, one);
  }

  lemma FirstSends(w0: World, w: World, q: Req, att: Attempt)
    requires Reaches(w0, Two(w, q, q)) && q.pc == Chosen(att) && att.exitIp.None?
    requires att.acct in w.st.acctPermits && att.acct in w.sems && 2 <= w.sems[att.acct]
    ensures Reaches(w0, Two(w, q.(pc := Sending(att, true)), q))
  {
    TwoMoves(w, q, q, q.(pc := AwaitAccount(att)));
    TwoMoves(w, q, q, q.(pc := Sending(att, true)));
    OneHolds(q.(pc := AwaitAccount(att)), q, att.acct);
    SendStep(w0, Two(w, q, q), 0, att);
  }

  lemma SecondSends(w0: World, w: World, q: Req, att: Attempt)
    requires Reaches(w0, Two(w, q.(pc := Sending(att, true)), q)) && q.pc == Chosen(att) && att.exitIp.None?
    requires att.acct in w.st.acctPermits && att.acct in w.sems && 2 <= w.sems[att.acct]
    ensures Reaches(w0, Two(w, q.(pc := Sending(att, true)), q.(pc := Sending(att, true))))
  {
    var sent := q.(pc := Sending(att, true));
    TwoMoves(w, sent, q, q.(pc := AwaitAccount(att)));
    TwoMoves(w, sent, q, sent);
    OneHolds(sent, q.(pc := AwaitAccount(att)), att.acct);
    SendStep(w0, Two(w, sent, q), 1, att);
  }

  /** Requests 0 and 1 have sent on the account. */
  function BothSent(w0: World): World {
    var q := Picked(w0).(pc := Sending(ATTEMPT, true));
    Two(w0, q, q)
  }

  lemma BothSend(w0: World)
    requires Able(w0.st, w0.now) && w0.reqs == map[] && SLUG in w0.st.platPermits && w0.st.platPermits[SLUG] == 2
    requires 1 in w0.st.acctPermits && 1 in w0.sems && 2 <= w0.sems[1]
    ensures Reaches(w0, BothSent(w0))
  {
    var w := PickAll(w0, 2);
    BothPicked(w0, w);
    FirstSends(w0, w0, Picked(w0), ATTEMPT);
    SecondSends(w0, w0, Picked(w0), ATTEMPT);
  }

  lemma StartsBothSent(w0: World)
    requires w0 == Start(10, 0, 1, 2)
    ensures Reaches(w0, BothSent(w0)) && WellFormed(w0.st.db) && w0.now == 0 && Able(w0.st, 0)
    ensures w0.st.db.proxies.Keys == {1} && w0.st.db.maxRetries == 1
  {
    StartFacts(10, 0, 1, 2);
    StoreWellFormed(10, 0, 1);
    BothSend(w0);
  }
}
