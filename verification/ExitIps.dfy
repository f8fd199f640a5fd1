/** Exit-IP accounting over every interleaving: a counter is exactly the number of attempts that
    took the exit IP and have not released it yet. */
module ExitIps {
  import opened Wrappers
  import opened Counting
  import opened Database
  import opened PoolState
  import opened Selection
  import opened Admin
  import opened Forwarding
  import opened Engine

  ghost predicate TodosOk(w: World) {
    forall r :: r in w.reqs && w.reqs[r].pc.Settling? ==> OneOfEachKind(w.reqs[r].pc.todo)
  }

  lemma TodosStep(w: World, ev: Event)
    requires Enabled(w, ev) && TodosOk(w)
    ensures TodosOk(Next(w, ev))
  {
    if ev.Respond? {
      var q := w.reqs[ev.r];
      EffectsOneOfEachKind(q.call, q.pc.att, q.retries, ev.answer);
    } else if ev.DoEffect? {
      PopOneOfEachKind(w.st, w.reqs[ev.r].pc.todo);
    }
  }

  ghost function IsRelease(ip: string): Effect -> bool {
    (e: Effect) => e == ReleaseIp(ip)
  }

  /** The request has counted the exit IP and not released it. */
  ghost function TookIp(ip: string): Req -> bool {
    (q: Req) =>
      || ((q.pc.CountedIp? || q.pc.AwaitAccount? || q.pc.Sending?) && q.pc.att.exitIp == Some(ip))
      || (q.pc.Settling? && Has(q.pc.todo, IsRelease(ip)))
  }

  ghost predicate IpOk(w: World) {
    forall ip :: BusyCount(w.st, ip) == Count(w.reqs, TookIp(ip))
  }

  lemma EffectsRelease(call: Call, att: Attempt, retries: nat, answer: Answer, ip: string)
    ensures Has(Effects(call, att, retries, answer), IsRelease(ip)) <==> att.exitIp == Some(ip)
  {
    var todo := Effects(call, att, retries, answer);
    var rest := Reaction(call, att, retries, answer);
    assert forall i :: 0 <= i < |rest| ==> !rest[i].ReleaseIp?;
    if att.exitIp.Some? {
      assert todo[1..] == rest;
      if att.exitIp == Some(ip) { assert IsRelease(ip)(todo[0]); }
      assert forall i :: 1 <= i < |todo| ==> todo[i] == rest[i - 1];
    } else {
      assert todo == rest;
    }
  }

  lemma OperateIps(w: World, op: Op)
    requires IpOk(w)
    ensures IpOk(Next(w, Operate(op)))
  {
    ApplyRuntime(w.st, op, w.now);
    forall ip ensures BusyCount(Next(w, Operate(op)).st, ip) == BusyCount(w.st, ip) {}
  }

  /** What a request's step does to whether it has taken an exit IP. */
  lemma MoveTookIp(w: World, ev: Event, ip: string)
    requires Enabled(w, ev) && OfRequest(ev) && TodosOk(w)
    ensures var before := ev.r in w.reqs && TookIp(ip)(w.reqs[ev.r]);
            var after := TookIp(ip)(NextReq(w, ev));
      if ev.CountIp? && w.reqs[ev.r].pc.att.exitIp == Some(ip) then !before && after
      else if ev.DoEffect? && w.reqs[ev.r].pc.todo[0] == ReleaseIp(ip) then before && !after
      else before == after
  {
    match ev
    case Respond(r, answer) =>
      var q := w.reqs[r];
      EffectsRelease(q.call, q.pc.att, q.retries, answer, ip);
    case DoEffect(r) => PopHas(w.st, w.reqs[r].pc.todo, IsRelease(ip), 0);
    case _ =>
  }

  lemma RequestIp(w: World, ev: Event, ip: string)
    requires Enabled(w, ev) && OfRequest(ev) && TodosOk(w) && IpOk(w)
    ensures BusyCount(NextState(w, ev), ip) == Count(Next(w, ev).reqs, TookIp(ip))
  {
    CountUpdate(w.reqs, ev.r, NextReq(w, ev), TookIp(ip));
    MoveTookIp(w, ev, ip);
    if ev.DoEffect? {
      PerformBusy(w.st, w.reqs[ev.r].pc.todo[0], w.now, ip);
      if w.reqs[ev.r].pc.todo[0] == ReleaseIp(ip) { CountPositive(w.reqs, ev.r, TookIp(ip)); }
    }
  }

  lemma PerformBusy(st: State, e: Effect, now: int, ip: string)
    ensures BusyCount(Perform(st, e, now), ip)
         == if e == ReleaseIp(ip) && BusyCount(st, ip) > 0 then BusyCount(st, ip) - 1 else BusyCount(st, ip)
  {
    if !e.ReleaseIp? { PerformRuntime(st, e, now); }
  }

  lemma IpStep(w: World, ev: Event)
    requires Enabled(w, ev) && TodosOk(w) && IpOk(w)
    ensures IpOk(Next(w, ev))
  {
    match ev
    case Operate(op) => OperateIps(w, op);
    case Tick(_) =>
      forall ip ensures BusyCount(Next(w, ev).st, ip) == Count(w.reqs, TookIp(ip)) {}
    case _ =>
      forall ip ensures BusyCount(Next(w, ev).st, ip) == Count(Next(w, ev).reqs, TookIp(ip)) {
        RequestIp(w, ev, ip);
      }
  }

  lemma {:induction false} RunKeepsIps(w: World, evs: seq<Event>)
    requires TodosOk(w) && IpOk(w) && Runnable(w, evs)
    ensures TodosOk(Run(w, evs)) && IpOk(Run(w, evs))
    decreases evs
  {
    if evs != [] {
      TodosStep(w, evs[0]);
      IpStep(w, evs[0]);
      RunKeepsIps(Next(w, evs[0]), evs[1..]);
    }
  }

  /** On every run from start-up each counter equals the number of attempts between their
      increment and their decrement; so a decrement never meets a zero counter, and when no
      attempt is in between, every counter is 0. */
  lemma CountersAreExact(db: Db, decrypt: string -> Option<string>, most: string -> nat, now: int, evs: seq<Event>,
                         ip: string)
    requires Runnable(Boot(db, decrypt, most, now), evs)
    ensures var w := Run(Boot(db, decrypt, most, now), evs);
      && BusyCount(w.st, ip) == Count(w.reqs, TookIp(ip))
      && (forall r :: r in w.reqs && TookIp(ip)(w.reqs[r]) ==> BusyCount(w.st, ip) > 0)
      && ((forall r :: r in w.reqs ==> w.reqs[r].pc.Done?) ==> BusyCount(w.st, ip) == 0)
  {
    var w0 := Boot(db, decrypt, most, now);
    forall i ensures BusyCount(w0.st, i) == Count(w0.reqs, TookIp(i)) { CountNone(w0.reqs, TookIp(i)); }
    RunKeepsIps(w0, evs);
    var w := Run(w0, evs);
    forall r | r in w.reqs && TookIp(ip)(w.reqs[r]) ensures BusyCount(w.st, ip) > 0 {
      CountPositive(w.reqs, r, TookIp(ip));
    }
    if forall r :: r in w.reqs ==> w.reqs[r].pc.Done? { CountNone(w.reqs, TookIp(ip)); }
  }
}
