/** What one request leaves behind, whatever interleaves with it: how its attempts ended, which log
    rows it submitted, and what its caller gets. */
module History {
  import opened Wrappers
  import opened Database
  import opened Adapter
  import opened Selection
  import opened Forwarding
  import opened Engine
  import opened ExitIps

  ghost predicate NoneFinal(endings: seq<Ending>) {
    forall i :: 0 <= i < |endings| ==> !Final(endings[i])
  }

  /** The i-th row is numbered i, and shows a success exactly when the i-th attempt was one. */
  ghost predicate RowsMatch(submitted: seq<LogRow>, endings: seq<Ending>) {
    && |submitted| <= |endings|
    && forall i :: 0 <= i < |submitted| ==>
         submitted[i].retryCount == AsI32(i) && (submitted[i].success <==> endings[i] == Answered(Success))
  }

  ghost function IsLog(): Effect -> bool {
    (e: Effect) => e.LogCall?
  }

  /** Exactly the row of the last attempt is still to be submitted, if any is. */
  ghost predicate LastRowOwed(q: Req)
    requires q.pc.Settling? && q.endings != []
  {
    var last := |q.endings| - 1;
    && |q.submitted| == (if Has(q.pc.todo, IsLog()) then last else last + 1)
    && forall i :: 0 <= i < |q.pc.todo| && q.pc.todo[i].LogCall? ==>
         q.pc.todo[i].row.retryCount == AsI32(last)
         && (q.pc.todo[i].row.success <==> q.endings[last] == Answered(Success))
  }

  ghost predicate Complete(q: Req) { |q.submitted| == |q.endings| }

  ghost predicate History(q: Req) {
    && RowsMatch(q.submitted, q.endings)
    && q.retries <= q.maxRetries
    && match q.pc
       case Done(Passed(e)) =>
         Complete(q) && q.endings != [] && e == q.endings[|q.endings| - 1] && Final(e)
         && |q.endings| <= q.maxRetries + 1 && NoneFinal(q.endings[..|q.endings| - 1])
       case Done(Exhausted) => Complete(q) && |q.endings| == q.maxRetries + 1 && NoneFinal(q.endings)
       case Done(NoAccount(_)) => Complete(q) && |q.endings| <= q.maxRetries && NoneFinal(q.endings)
       case Done(_) => q.endings == []
       case AwaitPlatform => q.endings == []
       case Settling(_, _, _) =>
         |q.endings| == q.retries + 1 && NoneFinal(q.endings[..q.retries]) && LastRowOwed(q)
       case _ => Complete(q) && |q.endings| == q.retries && NoneFinal(q.endings)
  }

  ghost predicate HistoryOk(q: Req) {
    && (q.pc.AwaitPlatform? ==> q.endings == [] && q.submitted == [])
    && (q.maxRetries < U32_LIMIT - 1 ==> History(q))
  }

  lemma EffectsLog(call: Call, att: Attempt, retries: nat, answer: Answer)
    ensures var todo := Effects(call, att, retries, answer);
      && Has(todo, IsLog())
      && forall i :: 0 <= i < |todo| && todo[i].LogCall? ==>
           todo[i].row.retryCount == AsI32(retries)
           && (todo[i].row.success <==> EndingOf(call, answer) == Answered(Success))
  {
    var todo := Effects(call, att, retries, answer);
    match answer
    case Failed => assert IsLog()(todo[|todo| - 3]);
    case Responded(_, _) => assert IsLog()(todo[|todo| - 1]);
  }

  lemma RespondKeepsHistory(w: World, ev: Event)
    requires Enabled(w, ev) && ev.Respond? && HistoryOk(w.reqs[ev.r])
    ensures HistoryOk(NextReq(w, ev))
  {
    var q, q' := w.reqs[ev.r], NextReq(w, ev);
    EffectsLog(q.call, q.pc.att, q.retries, ev.answer);
    assert q'.endings[..|q.endings|] == q.endings;
  }

  lemma EffectKeepsHistory(w: World, ev: Event)
    requires Enabled(w, ev) && ev.DoEffect? && HistoryOk(w.reqs[ev.r]) && TodosOk(w)
    ensures HistoryOk(NextReq(w, ev))
  {
    var q, q' := w.reqs[ev.r], NextReq(w, ev);
    var todo := q.pc.todo;
    PopHas(w.st, todo, IsLog(), 6);
    var left := Leaves(w.st, todo[0]);
    forall i | 0 <= i < |q'.pc.todo| && q'.pc.todo[i].LogCall?
      ensures q'.pc.todo[i] in todo
    {
      if i >= |left| { assert q'.pc.todo[i] == todo[i - |left| + 1]; }
    }
    if q.maxRetries < U32_LIMIT - 1 { assert LastRowOwed(q'); }
  }

  lemma FinishKeepsHistory(w: World, ev: Event)
    requires Enabled(w, ev) && ev.Finish? && HistoryOk(w.reqs[ev.r])
    ensures HistoryOk(NextReq(w, ev))
  {
    var q := w.reqs[ev.r];
    var n := |q.endings| - 1;
    assert q.endings == q.endings[..n] + [q.endings[n]];
  }

  lemma RequestKeepsHistory(w: World, ev: Event)
    requires Enabled(w, ev) && OfRequest(ev) && TodosOk(w)
    requires ev.r in w.reqs ==> HistoryOk(w.reqs[ev.r])
    ensures HistoryOk(NextReq(w, ev))
  {
    match ev
    case Respond(_, _) => RespondKeepsHistory(w, ev);
    case DoEffect(_) => EffectKeepsHistory(w, ev);
    case Finish(_) => FinishKeepsHistory(w, ev);
    case _ =>
  }

  lemma {:induction false} RunKeepsHistories(w: World, evs: seq<Event>)
    requires Runnable(w, evs) && TodosOk(w) && forall r :: r in w.reqs ==> HistoryOk(w.reqs[r])
    ensures forall r :: r in Run(w, evs).reqs ==> HistoryOk(Run(w, evs).reqs[r])
    decreases evs
  {
    if evs != [] {
      if OfRequest(evs[0]) { RequestKeepsHistory(w, evs[0]); }
      TodosStep(w, evs[0]);
      RunKeepsHistories(Next(w, evs[0]), evs[1..]);
    }
  }

  /** On every run, a finished request whose retry limit was below the 32-bit maximum has submitted
      one log row per attempt, numbered 0, 1, ...; made at most its limit plus one attempts; only
      the last of them can be a success; and its caller got a response exactly when the last
      attempt was a success or an error to be passed on. */
  lemma FinishedRequests(db: Db, decrypt: string -> Option<string>, most: string -> nat, now: int, evs: seq<Event>,
                         r: int)
    requires Runnable(Boot(db, decrypt, most, now), evs)
    requires var w := Run(Boot(db, decrypt, most, now), evs);
      r in w.reqs && w.reqs[r].pc.Done? && w.reqs[r].maxRetries < U32_LIMIT - 1
    ensures var q := Run(Boot(db, decrypt, most, now), evs).reqs[r];
            var k := |q.endings|;
      && |q.submitted| == k <= q.maxRetries + 1
      && (forall i :: 0 <= i < k ==>
            q.submitted[i].retryCount == if i < 0x8000_0000 then i else i - 0x1_0000_0000)
      && (forall i :: 0 <= i < k ==> (q.submitted[i].success <==> q.endings[i] == Answered(Success)))
      && (forall i :: 0 <= i < k - 1 ==> !q.submitted[i].success)
      && (q.pc.result.Passed? <==> k > 0 && Final(q.endings[k - 1]))
      && (q.pc.result.Passed? ==> q.pc.result.ending == q.endings[k - 1])
      && (q.pc.result.Exhausted? ==> k == q.maxRetries + 1)
  {
    var w0 := Boot(db, decrypt, most, now);
    RunKeepsHistories(w0, evs);
    DoneHistory(Run(w0, evs).reqs[r]);
  }

  lemma DoneHistory(q: Req)
    requires History(q) && q.pc.Done? && q.maxRetries < U32_LIMIT - 1
    ensures var k := |q.endings|;
      && |q.submitted| == k <= q.maxRetries + 1
      && (forall i :: 0 <= i < k ==>
            q.submitted[i].retryCount == if i < 0x8000_0000 then i else i - 0x1_0000_0000)
      && (forall i :: 0 <= i < k ==> (q.submitted[i].success <==> q.endings[i] == Answered(Success)))
      && (forall i :: 0 <= i < k - 1 ==> !q.submitted[i].success)
      && (q.pc.result.Passed? <==> k > 0 && Final(q.endings[k - 1]))
      && (q.pc.result.Passed? ==> q.pc.result.ending == q.endings[k - 1])
      && (q.pc.result.Exhausted? ==> k == q.maxRetries + 1)
  {
    var k := |q.endings|;
    if k > 0 {
      assert forall i :: 0 <= i < k - 1 ==> q.endings[..k - 1][i] == q.endings[i];
    }
  }
}
