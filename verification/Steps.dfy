/** Runs put together from steps of single requests. */
module Steps {
  import opened Counting
  import opened Database
  import opened PoolState
  import opened Selection
  import opened Forwarding
  import opened SoloForward
  import opened Engine

  /** The events lead from one world to the other. */
  ghost predicate Leads(w: World, evs: seq<Event>, w': World) {
    Runnable(w, evs) && Run(w, evs) == w'
  }

  ghost predicate NoOperation(evs: seq<Event>) {
    forall i :: 0 <= i < |evs| ==> !evs[i].Operate?
  }

  /** Requests and the clock alone can lead from one world to the other. */
  ghost predicate Reaches(w: World, w': World) {
    exists evs :: Leads(w, evs, w') && NoOperation(evs)
  }

  /** Some run leads from one world to the other. */
  ghost predicate RunsTo(w: World, w': World) {
    exists evs :: Leads(w, evs, w')
  }

  lemma ReachesSelf(w: World)
    ensures Reaches(w, w)
  {
    assert Leads(w, [], w) && NoOperation([]);
  }

  lemma {:induction false} LeadsOn(w: World, evs: seq<Event>, mid: World, ev: Event)
    requires Leads(w, evs, mid) && Enabled(mid, ev)
    ensures Leads(w, evs + [ev], Next(mid, ev))
    decreases evs
  {
    if evs == [] {
      assert evs + [ev] == [ev] && [ev][1..] == [];
    } else {
      assert (evs + [ev])[1..] == evs[1..] + [ev];
      LeadsOn(Next(w, evs[0]), evs[1..], mid, ev);
    }
  }

  lemma ReachesOn(w: World, mid: World, ev: Event)
    requires Reaches(w, mid) && Enabled(mid, ev) && !ev.Operate?
    ensures Reaches(w, Next(mid, ev))
  {
    var evs :| Leads(w, evs, mid) && NoOperation(evs);
    LeadsOn(w, evs, mid, ev);
    assert NoOperation(evs + [ev]);
  }

  lemma RunsOn(w: World, mid: World, ev: Event)
    requires RunsTo(w, mid) && Enabled(mid, ev)
    ensures RunsTo(w, Next(mid, ev))
  {
    var evs :| Leads(w, evs, mid);
    LeadsOn(w, evs, mid, ev);
  }

  lemma ReachesRuns(w: World, w': World)
    requires Reaches(w, w')
    ensures RunsTo(w, w')
  {
    var evs :| Leads(w, evs, w') && NoOperation(evs);
  }

  /** The world with the request elsewhere. */
  function Moved(w: World, r: int, q: Req): World { w.(reqs := w.reqs[r := q]) }

  lemma WaitUntil(w0: World, w: World, t: int)
    requires Reaches(w0, w) && w.now <= t
    ensures Reaches(w0, w.(now := t))
  {
    ReachesOn(w0, w, Tick(t - w.now));
  }

  /** The effects of an attempt, one after the other. */
  lemma {:induction false} SettleAll(w0: World, w: World, r: int) returns (rows: seq<LogRow>)
    requires Reaches(w0, w) && r in w.reqs && w.reqs[r].pc.Settling?
    ensures var q := w.reqs[r]; var q' := q.(pc := q.pc.(todo := []), submitted := rows);
      Reaches(w0, Moved(w, r, q').(st := PerformAll(w.st, q.pc.todo, w.now)))
    decreases Weights(w.reqs[r].pc.todo)
  {
    var q := w.reqs[r];
    var todo := q.pc.todo;
    if todo == [] {
      rows := q.submitted;
      assert w.reqs[r := q] == w.reqs;
    } else {
      PerformLightens(w.st, todo);
      var w1 := Next(w, DoEffect(r));
      ReachesOn(w0, w, DoEffect(r));
      rows := SettleAll(w0, w1, r);
      var q' := q.(pc := q.pc.(todo := []), submitted := rows);
      assert w1.reqs[r := q'] == w.reqs[r := q'];
    }
  }

  /** A new request is admitted to its platform. */
  lemma AdmitStep(w0: World, w: World, r: int, call: Call)
    requires Reaches(w0, w) && r !in w.reqs
    requires call.platform in REGISTERED && call.platform in w.st.platPermits
    requires Count(w.reqs, HoldsPlatform(call.platform)) < w.st.platPermits[call.platform]
    ensures Reaches(w0, Moved(w, r, Req(call, Choosing, 0, ReadMaxRetries(w.st.db.maxRetries), [], [])))
  {
    var q := Req(call, AwaitPlatform, 0, 0, [], []);
    var q' := Req(call, Choosing, 0, ReadMaxRetries(w.st.db.maxRetries), [], []);
    ReachesOn(w0, w, Arrive(r, call));
    assert Next(w, Arrive(r, call)) == Moved(w, r, q);
    CountUpdate(w.reqs, r, q, HoldsPlatform(call.platform));
    EnterStep(w0, Moved(w, r, q), r);
    assert w.reqs[r := q][r := q'] == w.reqs[r := q'];
  }

  lemma EnterStep(w0: World, w: World, r: int)
    requires Reaches(w0, w) && r in w.reqs && w.reqs[r].pc.AwaitPlatform?
    requires var slug := w.reqs[r].call.platform;
      slug in w.st.platPermits && Count(w.reqs, HoldsPlatform(slug)) < w.st.platPermits[slug]
    ensures var most := ReadMaxRetries(w.st.db.maxRetries);
      Reaches(w0, Moved(w, r, w.reqs[r].(pc := Choosing, retries := 0, maxRetries := most)))
  {
    ReachesOn(w0, w, EnterPlatform(r));
    assert Next(w, EnterPlatform(r)) == Moved(w, r, NextReq(w, EnterPlatform(r)));
  }

  /** Waiting for the clock and selecting. */
  lemma SelectStep(w0: World, w: World, r: int, e: Env)
    requires Reaches(w0, w) && r in w.reqs && w.reqs[r].pc == Choosing
    requires w.now <= e.selectAt && Lists(e.order, w.st.accounts.Keys)
    ensures var chosen := Choose(w.st, w.reqs[r].call.platform, e.selectAt, e.order);
      var q' := w.reqs[r].(pc := if chosen.Some? then Chosen(chosen.value) else Diagnosing);
      Reaches(w0, Moved(w, r, q').(now := e.selectAt))
  {
    WaitUntil(w0, w, e.selectAt);
    var w1 := w.(now := e.selectAt);
    ReachesOn(w0, w1, SelectNow(r, e.order));
  }

  /** Counting the exit IP and looking up the account's permits. */
  lemma CountStep(w0: World, w: World, r: int, att: Attempt)
    requires Reaches(w0, w) && r in w.reqs
    requires w.reqs[r].pc == Chosen(att) && att.acct in w.st.acctPermits
    ensures Reaches(w0, Moved(w, r, w.reqs[r].(pc := AwaitAccount(att))).(st := Counted(w.st, att)))
  {
    var q, st1 := w.reqs[r], Counted(w.st, att);
    ReachesOn(w0, w, CountIp(r));
    var w1 := Moved(w, r, q.(pc := CountedIp(att))).(st := st1);
    assert Next(w, CountIp(r)) == w1;
    ReachesOn(w0, w1, LookUpPermit(r));
    assert Next(w1, LookUpPermit(r)).reqs == w.reqs[r := q.(pc := AwaitAccount(att))];
  }

  lemma TakePermit(w0: World, w: World, r: int, att: Attempt)
    requires Reaches(w0, w) && r in w.reqs && w.reqs[r].pc == AwaitAccount(att)
    requires att.acct in w.sems && Count(w.reqs, HoldsAccount(att.acct)) < w.sems[att.acct]
    ensures Reaches(w0, Moved(w, r, w.reqs[r].(pc := Sending(att, true))))
  {
    ReachesOn(w0, w, EnterAccount(r));
    assert Next(w, EnterAccount(r)) == Moved(w, r, w.reqs[r].(pc := Sending(att, true)));
  }

  /** A permit of the account is free for the request, which holds none. */
  ghost predicate FreePermit(w: World, r: int, att: Attempt)
    requires r in w.reqs
  {
    && att.acct in w.st.acctPermits && att.acct in w.sems
    && Count(w.reqs[r := w.reqs[r].(pc := AwaitAccount(att))], HoldsAccount(att.acct)) < w.sems[att.acct]
  }

  /** From the selection to the answer, with the account's permit. */
  lemma SendStep(w0: World, w: World, r: int, att: Attempt)
    requires Reaches(w0, w) && r in w.reqs && w.reqs[r].pc == Chosen(att) && FreePermit(w, r, att)
    ensures Reaches(w0, Moved(w, r, w.reqs[r].(pc := Sending(att, true))).(st := Counted(w.st, att)))
  {
    CountStep(w0, w, r, att);
    var q := w.reqs[r];
    var w1 := Moved(w, r, q.(pc := AwaitAccount(att))).(st := Counted(w.st, att));
    TakePermit(w0, w1, r, att);
    assert w1.reqs[r := q.(pc := Sending(att, true))] == w.reqs[r := q.(pc := Sending(att, true))];
  }

  /** The request after an attempt that ended so. */
  function After(q: Req, ending: Ending, rows: seq<LogRow>): Req {
    Finished(q.(endings := q.endings + [ending], submitted := rows))
  }

  lemma RespondStep(w0: World, w: World, r: int, answer: Answer, att: Attempt)
    requires Reaches(w0, w) && r in w.reqs && w.reqs[r].pc == Sending(att, true)
    ensures var q := w.reqs[r];
      Reaches(w0, Moved(w, r, q.(pc := Settling(att, true, Effects(q.call, att, q.retries, answer)),
                                 endings := q.endings + [EndingOf(q.call, answer)])))
  {
    ReachesOn(w0, w, Respond(r, answer));
    var q := w.reqs[r];
    var q1 := q.(pc := Settling(att, true, Effects(q.call, att, q.retries, answer)),
                 endings := q.endings + [EndingOf(q.call, answer)]);
    assert Next(w, Respond(r, answer)) == Moved(w, r, q1);
  }

  /** The request with its attempt's effects done. */
  function Drained(q: Req, att: Attempt, ending: Ending, rows: seq<LogRow>): Req {
    q.(pc := Settling(att, true, []), endings := q.endings + [ending], submitted := rows)
  }

  lemma DrainStep(w0: World, w: World, r: int, answer: Answer, att: Attempt) returns (rows: seq<LogRow>)
    requires Reaches(w0, w) && r in w.reqs && w.reqs[r].pc == Sending(att, true)
    ensures var q := w.reqs[r];
      Reaches(w0, Moved(w, r, Drained(q, att, EndingOf(q.call, answer), rows))
                  .(st := PerformAll(w.st, Effects(q.call, att, q.retries, answer), w.now)))
  {
    var q := w.reqs[r];
    RespondStep(w0, w, r, answer, att);
    var q1 := q.(pc := Settling(att, true, Effects(q.call, att, q.retries, answer)),
                 endings := q.endings + [EndingOf(q.call, answer)]);
    rows := SettleAll(w0, Moved(w, r, q1), r);
    var q2 := Drained(q, att, EndingOf(q.call, answer), rows);
    assert Moved(w, r, q1).reqs[r := q2] == w.reqs[r := q2];
  }

  /** From the answer to the end of the attempt. */
  lemma AnswerStep(w0: World, w: World, r: int, answer: Answer, att: Attempt) returns (rows: seq<LogRow>)
    requires Reaches(w0, w) && r in w.reqs && w.reqs[r].pc == Sending(att, true)
    ensures var q := w.reqs[r];
      Reaches(w0, Moved(w, r, After(q, EndingOf(q.call, answer), rows))
                  .(st := PerformAll(w.st, Effects(q.call, att, q.retries, answer), w.now)))
  {
    var q := w.reqs[r];
    rows := DrainStep(w0, w, r, answer, att);
    EndStep(w0, w, r, Drained(q, att, EndingOf(q.call, answer), rows),
            PerformAll(w.st, Effects(q.call, att, q.retries, answer), w.now));
    assert Finished(Drained(q, att, EndingOf(q.call, answer), rows)) == After(q, EndingOf(q.call, answer), rows);
  }

  lemma EndStep(w0: World, w: World, r: int, q: Req, st: State)
    requires Reaches(w0, Moved(w, r, q).(st := st)) && q.pc.Settling? && q.pc.todo == [] && q.endings != []
    ensures Reaches(w0, Moved(w, r, Finished(q)).(st := st))
  {
    var w1 := Moved(w, r, q).(st := st);
    FinishStep(w0, w1, r);
    assert w1.reqs[r := Finished(q)] == w.reqs[r := Finished(q)];
  }

  lemma FinishStep(w0: World, w: World, r: int)
    requires Reaches(w0, w) && r in w.reqs && w.reqs[r].pc.Settling? && w.reqs[r].pc.todo == []
      && w.reqs[r].endings != []
    ensures Reaches(w0, Moved(w, r, Finished(w.reqs[r])))
  {
    ReachesOn(w0, w, Finish(r));
    assert Next(w, Finish(r)) == Moved(w, r, Finished(w.reqs[r]));
  }
}
