/** Which log rows are written. The insert of a row that refers to a deleted row fails, and nobody
    notices: exactly when that happens, and a run on which it does. */
module RowFate {
  import opened Wrappers
  import opened Database
  import opened Adapter
  import opened PoolState
  import opened Selection
  import opened Admin
  import opened Copies
  import opened Forwarding
  import opened Engine
  import opened CopyRuns
  import opened Conservation
  import opened Deletions
  import opened Steps
  import opened Demo
  import opened Scenes

  // ----- following one attempt -----

  /** The rows still to be logged name the attempt's account and proxy and the call's token. */
  ghost predicate RowsName(todo: seq<Effect>, call: Call, att: Attempt) {
    forall i :: 0 <= i < |todo| && todo[i].LogCall? ==>
      todo[i].row.token == call.token && todo[i].row.account == Some(att.acct) && todo[i].row.proxy == Some(att.proxy)
  }

  /** The request is in its attempt number n, which is `att`, or past it. */
  ghost predicate InAttempt(q: Req, call: Call, att: Attempt, n: nat) {
    && q.call == call
    && (|q.endings| == n ==> HasAttempt(q.pc) && !q.pc.Settling? && q.pc.att == att)
    && |q.endings| >= n
    && (|q.endings| == n + 1 && q.pc.Settling? ==> RowsName(q.pc.todo, call, att))
  }

  lemma EffectsNameRows(call: Call, att: Attempt, retries: nat, answer: Answer)
    ensures RowsName(Effects(call, att, retries, answer), call, att)
  {
  }

  lemma PopNames(st: State, todo: seq<Effect>, call: Call, att: Attempt)
    requires todo != [] && RowsName(todo, call, att)
    ensures RowsName(Leaves(st, todo[0]) + todo[1..], call, att)
  {
    var left := Leaves(st, todo[0]);
    assert forall i :: 1 <= i < |todo| ==> (left + todo[1..])[|left| + i - 1] == todo[i];
  }

  lemma AttemptStep(w: World, ev: Event, r: int, call: Call, att: Attempt, n: nat)
    requires Enabled(w, ev) && r in w.reqs && InAttempt(w.reqs[r], call, att, n)
    ensures r in Next(w, ev).reqs && InAttempt(Next(w, ev).reqs[r], call, att, n)
  {
    if OfRequest(ev) && ev.r == r {
      var q := w.reqs[r];
      if ev.Respond? { EffectsNameRows(q.call, q.pc.att, q.retries, ev.answer); }
      if ev.DoEffect? && |q.endings| == n + 1 { PopNames(w.st, q.pc.todo, call, att); }
    }
  }

  lemma {:induction false} RunInAttempt(w: World, evs: seq<Event>, r: int, call: Call, att: Attempt, n: nat)
    requires Runnable(w, evs) && r in w.reqs && InAttempt(w.reqs[r], call, att, n)
    ensures r in Run(w, evs).reqs && InAttempt(Run(w, evs).reqs[r], call, att, n)
    decreases evs
  {
    if evs != [] {
      AttemptStep(w, evs[0], r, call, att, n);
      RunInAttempt(Next(w, evs[0]), evs[1..], r, call, att, n);
    }
  }

  lemma {:induction false} RunKeepsCall(w: World, evs: seq<Event>, r: int)
    requires Runnable(w, evs) && r in w.reqs
    ensures r in Run(w, evs).reqs && Run(w, evs).reqs[r].call == w.reqs[r].call
    decreases evs
  {
    if evs != [] { RunKeepsCall(Next(w, evs[0]), evs[1..], r); }
  }

  // ----- when the row is written -----

  /** After `evs` the request is about to submit the row of the attempt it was choosing at `w`. */
  ghost predicate AboutToLog(w: World, evs: seq<Event>, r: int) {
    && Runnable(w, evs) && r in w.reqs && r in Run(w, evs).reqs
    && var q := Run(w, evs).reqs[r];
       q.pc.Settling? && q.pc.todo != [] && q.pc.todo[0].LogCall? && |q.endings| == |w.reqs[r].endings| + 1
  }

  /** Since the selection nobody has deleted the attempt's account or proxy. */
  ghost predicate AttemptKept(w: World, evs: seq<Event>, att: Attempt)
    requires Runnable(w, evs)
  {
    (forall i :: 0 <= i < |evs| ==> !DropsAccount(evs[i], att.acct)) && NeverDropsProxy(w, evs, att.proxy)
  }

  ghost predicate TokenKept(evs: seq<Event>, token: Option<int>) {
    token.Some? ==> forall i :: 0 <= i < |evs| ==> !DropsToken(evs[i], token.value)
  }

  /** A row is appended or nothing happens to the store. */
  ghost predicate Written(db: Db, db': Db, row: LogRow) {
    db'.logs == db.logs[db.nextLog := row] && db'.nextLog == db.nextLog + 1
  }

  lemma WriteIff(st: State, row: LogRow)
    ensures Written(st.db, WriteCallLog(st, row).db, row) <==> LogAccepted(st.db, row)
    ensures !LogAccepted(st.db, row) ==> WriteCallLog(st, row) == st
  {
  }

  /** The attempt's account and proxy are there at the moment of the submission exactly when nobody
      has deleted them since the selection, and the row names them. */
  lemma AttemptLivesIff(w: World, evs: seq<Event>, r: int, att: Attempt)
    requires Mirrored(w.st) && AboutToLog(w, evs, r) && w.reqs[r].pc == Chosen(att)
    requires att.acct in w.st.db.accounts && att.proxy in w.st.db.proxies
    ensures var w' := Run(w, evs); var row := w'.reqs[r].pc.todo[0].row;
      && row.account == Some(att.acct) && row.proxy == Some(att.proxy) && row.token == w.reqs[r].call.token
      && (att.acct in w'.st.db.accounts && att.proxy in w'.st.db.proxies <==> AttemptKept(w, evs, att))
  {
    RunInAttempt(w, evs, r, w.reqs[r].call, att, |w.reqs[r].endings|);
    AccountLivesIff(w, evs, att.acct);
    ProxyLivesIff(w, evs, att.proxy);
  }

  /** Right after a selection what it picked exists. */
  lemma JustSelected(w: World, r: int, order: seq<int>, att: Attempt)
    requires Mirrored(w.st) && Enabled(w, SelectNow(r, order)) && NextReq(w, SelectNow(r, order)).pc == Chosen(att)
    ensures var w1 := Next(w, SelectNow(r, order));
      && w1.st == w.st && r in w1.reqs && w1.reqs[r].pc == Chosen(att) && w1.reqs[r].call == w.reqs[r].call
      && att.acct in w.st.db.accounts && att.proxy in w.st.db.proxies
  {
    ChosenLive(w.st, w.reqs[r].call.platform, w.now, order);
  }

  lemma SubmitStep(w: World, r: int)
    requires Enabled(w, DoEffect(r)) && w.reqs[r].pc.todo[0].LogCall?
    ensures Next(w, DoEffect(r)).st == WriteCallLog(w.st, w.reqs[r].pc.todo[0].row)
  {
  }

  /** What becomes of the row submitted next by request r. */
  ghost predicate RowWritten(w: World, r: int)
    requires Enabled(w, DoEffect(r)) && w.reqs[r].pc.todo[0].LogCall?
  {
    Written(w.st.db, Next(w, DoEffect(r)).st.db, w.reqs[r].pc.todo[0].row)
  }

  /** A submitted row is written exactly when no event since the request's selection deleted its
      account or proxy, and none since the request arrived deleted its token; otherwise nothing
      changes. At `w0` the request has arrived, at `w` it selects, `w1` is the world after that. */
  lemma RowIsWrittenIff(w0: World, evs0: seq<Event>, w: World, order: seq<int>, w1: World, evs: seq<Event>, r: int,
                        att: Attempt)
    requires Mirrored(w0.st) && Leads(w0, evs0, w) && r in w0.reqs
    requires w0.reqs[r].call.token.Some? ==> w0.reqs[r].call.token.value in w0.st.db.tokens
    requires Enabled(w, SelectNow(r, order)) && NextReq(w, SelectNow(r, order)).pc == Chosen(att)
    requires w1 == Next(w, SelectNow(r, order)) && AboutToLog(w1, evs, r)
    ensures var w2 := Run(w1, evs); var token := w0.reqs[r].call.token;
      && (RowWritten(w2, r) <==> AttemptKept(w1, evs, att) && TokenKept(evs0, token) && TokenKept(evs, token))
      && (!RowWritten(w2, r) ==> Next(w2, DoEffect(r)).st == w2.st)
  {
    var w2 := Run(w1, evs);
    RunMirrors(w0, evs0);
    JustSelected(w, r, order, att);
    RunKeepsCall(w0, evs0, r);
    AttemptLivesIff(w1, evs, r, att);
    TokenFate(w0, evs0, w1, evs, w0.reqs[r].call.token);
    SubmitStep(w2, r);
    WriteIff(w2.st, w2.reqs[r].pc.todo[0].row);
  }

  lemma TokenFate(w0: World, evs0: seq<Event>, w1: World, evs: seq<Event>, token: Option<int>)
    requires Mirrored(w0.st) && Runnable(w0, evs0) && Mirrored(w1.st) && Runnable(w1, evs)
    requires w1.st == Run(w0, evs0).st && (token.Some? ==> token.value in w0.st.db.tokens)
    ensures (token.Some? ==> token.value in Run(w1, evs).st.db.tokens)
      <==> TokenKept(evs0, token) && TokenKept(evs, token)
  {
    if token.Some? {
      TokenLivesIff(w0, evs0, token.value);
      if token.value in w1.st.db.tokens {
        TokenLivesIff(w1, evs, token.value);
      } else {
        Tables.RunStep(w0, evs0);
        Tables.RunStep(w1, evs);
      }
    }
  }

  // ----- a lost row -----

  const LOST: LogRow := CallRow(CALL, ATTEMPT, Some(200), 0, true)

  /** Deleting the group takes the proxy the row names; the counts stay. */
  lemma GroupGone(st: State)
    requires st.db.proxies == map[1 := PROXY] && 1 in st.accounts && 1 in st.db.accounts
    ensures var st1 := RecordCall(st, 1, true);
            var st2 := DeleteGroup(st1, 1);
      && 1 in st2.accounts && st2.accounts[1].quotaUsed == st.accounts[1].quotaUsed + 1
      && 1 in st2.db.accounts && st2.db.accounts[1].quotaUsed == st.db.accounts[1].quotaUsed + 1
      && st2.db.proxies == map[] && st2.db.logs.Keys == st.db.logs.Keys
      && WriteCallLog(st2, LOST) == st2
  {
    var st1 := RecordCall(st, 1, true);
    assert st1.db.accounts[1].quotaUsed == st.db.accounts[1].quotaUsed + 1;
    assert st1.accounts[1].quotaUsed == st.accounts[1].quotaUsed + 1;
    assert st1.db.proxies == st.db.proxies && st1.db.logs == st.db.logs;
    assert InGroup(st1.db, 1) == {1};
  }

  /** A run from start-up on which a success is counted in both copies and logged nowhere: the
      administrator deletes the proxy's group between the record and the log row. */
  lemma ARowIsLost() returns (w: World)
    ensures RunsTo(Start(10, 0, 0, 1), w)
    ensures 0 in w.reqs && w.reqs[0].endings == [Answered(Success)] && w.reqs[0].submitted == [LOST]
    ensures 1 in w.st.accounts && w.st.accounts[1].quotaUsed == 1
    ensures 1 in w.st.db.accounts && w.st.db.accounts[1].quotaUsed == 1
    ensures w.st.db.logs == map[]
  {
    StartIsIdle(10, 0, 0, 1);
    w := LostFrom(Start(10, 0, 0, 1));
  }

  lemma LostFrom(w0: World) returns (w: World)
    requires Idle(w0) && w0.st.db.maxRetries == 0 && w0.st.db.proxies == map[1 := PROXY] && 1 in w0.st.db.accounts
    ensures RunsTo(w0, w)
    ensures 0 in w.reqs && w.reqs[0].endings == [Answered(Success)] && w.reqs[0].submitted == [LOST]
    ensures 1 in w.st.accounts && w.st.accounts[1].quotaUsed == w0.st.accounts[1].quotaUsed + 1
    ensures 1 in w.st.db.accounts && w.st.db.accounts[1].quotaUsed == w0.st.db.accounts[1].quotaUsed + 1
    ensures w.st.db.logs.Keys == w0.st.db.logs.Keys
  {
    var q := RecordedOne(w0);
    GroupGone(w0.st);
    w := LoseRow(w0, RecordCall(w0.st, 1, true), q);
  }

  lemma LoseRow(w0: World, st: State, q: Req) returns (w: World)
    requires RunsTo(w0, One(w0.(st := st), q)) && q.pc == Settling(ATTEMPT, true, [LogCall(LOST)]) && q.submitted == []
    requires WriteCallLog(DeleteGroup(st, 1), LOST) == DeleteGroup(st, 1)
    ensures RunsTo(w0, w) && w.st == DeleteGroup(st, 1)
    ensures 0 in w.reqs && w.reqs[0].endings == q.endings && w.reqs[0].submitted == [LOST]
  {
    OneOperates(w0, w0.(st := st), q, GroupDelete(1));
    var st' := DeleteGroup(st, 1);
    var w1 := w0.(st := st', sems := w0.sems + st'.acctPermits);
    assert q.pc.todo == [LogCall(LOST)] + [];
    OneEffect(w0, w1, q, LogCall(LOST), []);
    w := One(w1, Onward(q, [] + [], [LOST]));
  }
}
