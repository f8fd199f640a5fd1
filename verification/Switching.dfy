/** Switching a proxy off and on by hand: what the switch writes, and what it means for the
    selections of every run. */
module Switching {
  import opened Wrappers
  import opened Counting
  import opened Database
  import opened PoolState
  import opened Selection
  import opened Admin
  import opened Copies
  import opened Forwarding
  import opened Engine
  import opened Steps
  import opened Demo
  import opened CopyRuns
  import opened ProxyLife
  import opened Serving

  /** The switch shows in the proxy's row and entry, if they are there, and nowhere else. */
  lemma SwitchExactly(st: State, p: int, s: ProxyStatus, now: int)
    ensures var st' := Apply(st, ProxySwitch(p, s), now);
      && st' == st.(proxies := st'.proxies, db := st.db.(proxies := st'.db.proxies))
      && st'.db.proxies.Keys == st.db.proxies.Keys && st'.proxies.Keys == st.proxies.Keys
      && (forall q :: q in st.db.proxies && q != p ==> st'.db.proxies[q] == st.db.proxies[q])
      && (forall q :: q in st.proxies && q != p ==> st'.proxies[q] == st.proxies[q])
      && (p in st.db.proxies ==> st'.db.proxies[p] == st.db.proxies[p].(status := s))
      && (p in st.proxies ==> st'.proxies[p] == st.proxies[p].(status := s))
  {
  }

  /** On every run from start-up: once a proxy that is in the store has been disabled, no selection
      uses it before it is enabled again, whatever synchronizations and bindings do. */
  lemma DisabledUntilEnabled(db: Db, decrypt: string -> Option<string>, most: string -> nat, now: int,
                             before: seq<Event>, p: int, after: seq<Event>)
    requires WellFormed(db) && Runnable(Boot(db, decrypt, most, now), before)
    requires var w := Run(Boot(db, decrypt, most, now), before);
      && p in w.st.db.proxies && Runnable(Next(w, Operate(ProxySwitch(p, ProxyDisabled))), after)
    requires forall i :: 0 <= i < |after| ==> !SwitchesOn(after[i], p)
    ensures var w := Run(Boot(db, decrypt, most, now), before);
      NeverUsed(Next(w, Operate(ProxySwitch(p, ProxyDisabled))), after, p)
  {
    var w0 := Boot(db, decrypt, most, now);
    LoadMirrors(db, decrypt);
    assert w0.st == LoadAll(db, decrypt).(platPermits := w0.st.platPermits);
    RunMirrors(w0, before);
    var w := Run(w0, before);
    DisabledIsOff(w, p);
    MirrorStep(w, Operate(ProxySwitch(p, ProxyDisabled)));
    OffUntilSwitchedOn(Next(w, Operate(ProxySwitch(p, ProxyDisabled))), after, p);
  }

  lemma DisabledIsOff(w: World, p: int)
    requires Mirrored(w.st) && p in w.st.db.proxies
    ensures Off(Next(w, Operate(ProxySwitch(p, ProxyDisabled))).st.db, p)
  {
    SwitchExactly(w.st, p, ProxyDisabled, w.now);
  }

  /** Once it is enabled, every account on call that is bound to it can serve. */
  lemma EnabledServes(st: State, slug: string, p: int, now: int, a: int)
    requires OnCall(st, slug, now, a) && st.accounts[a].boundProxy == Some(p) && p in st.proxies
    ensures CanServe(Apply(st, ProxySwitch(p, Available), now), slug, now, a)
  {
    SwitchExactly(st, p, Available, now);
  }

  // ----- off and on again -----

  /** A further request waits to select. */
  function Admitted(w: World, r: int): World {
    Moved(w, r, Req(CALL, Choosing, 0, ReadMaxRetries(w.st.db.maxRetries), [], []))
  }

  lemma ArrivesNext(w0: World, w: World, r: int)
    requires RunsTo(w0, w) && r !in w.reqs && SLUG in w.st.platPermits
    ensures RunsTo(w0, Moved(w, r, Req(CALL, AwaitPlatform, 0, 0, [], [])))
  {
    RunsOn(w0, w, Arrive(r, CALL));
    assert Next(w, Arrive(r, CALL)) == Moved(w, r, Req(CALL, AwaitPlatform, 0, 0, [], []));
  }

  lemma EntersNext(w0: World, w: World, r: int)
    requires RunsTo(w0, w) && r in w.reqs && w.reqs[r] == Req(CALL, AwaitPlatform, 0, 0, [], [])
    requires SLUG in w.st.platPermits && Count(w.reqs, HoldsPlatform(SLUG)) < w.st.platPermits[SLUG]
    ensures RunsTo(w0, Admitted(w, r))
  {
    RunsOn(w0, w, EnterPlatform(r));
    assert Next(w, EnterPlatform(r)) == Admitted(w, r);
  }

  lemma HoldersAreRequests(reqs: map<int, Req>, r: int, q: Req)
    requires r !in reqs && q.pc.AwaitPlatform?
    ensures Count(reqs[r := q], HoldsPlatform(SLUG)) <= |reqs.Keys|
  {
    CountUpdate(reqs, r, q, HoldsPlatform(SLUG));
    SubsetSize(Where(reqs, HoldsPlatform(SLUG)), reqs.Keys);
  }

  lemma AdmitsOneMore(w0: World, w: World, r: int)
    requires RunsTo(w0, w) && r !in w.reqs && SLUG in w.st.platPermits && |w.reqs.Keys| < w.st.platPermits[SLUG]
    ensures RunsTo(w0, Admitted(w, r))
  {
    var q := Req(CALL, AwaitPlatform, 0, 0, [], []);
    var q' := Req(CALL, Choosing, 0, ReadMaxRetries(w.st.db.maxRetries), [], []);
    ArrivesNext(w0, w, r);
    HoldersAreRequests(w.reqs, r, q);
    EntersNext(w0, Moved(w, r, q), r);
    assert w.reqs[r := q][r := q'] == w.reqs[r := q'];
  }

  /** The world after a request has selected. */
  ghost function Selected(w: World, r: int): World {
    var w1 := Admitted(w, r);
    if Enabled(w1, SelectNow(r, [1])) then Next(w1, SelectNow(r, [1])) else w1
  }

  lemma SelectsOneMore(w0: World, w: World, r: int)
    requires RunsTo(w0, w) && r !in w.reqs && SLUG in w.st.platPermits && |w.reqs.Keys| < w.st.platPermits[SLUG]
    requires w.st.accounts.Keys == {1}
    ensures RunsTo(w0, Selected(w, r)) && Selected(w, r).st == w.st && Selected(w, r).now == w.now
    ensures Selected(w, r).reqs.Keys == w.reqs.Keys + {r}
  {
    AdmitsOneMore(w0, w, r);
    RunsOn(w0, Admitted(w, r), SelectNow(r, [1]));
  }

  ghost function Switched(w: World, s: ProxyStatus): World {
    Next(w, Event.Operate(ProxySwitch(1, s)))
  }

  lemma SwitchedIs(w: World, s: ProxyStatus)
    ensures Switched(w, s).st == Apply(w.st, ProxySwitch(1, s), w.now)
    ensures Switched(w, s).reqs == w.reqs && Switched(w, s).now == w.now
  {
  }

  /** One account, behind proxy 1 that is on or off. */
  ghost predicate Behind(st: State, now: int, s: ProxyStatus) {
    && st.accounts.Keys == {1} && st.proxies == map[1 := Entry(PROXY).(status := s)]
    && st.accounts[1].platform == SLUG && st.accounts[1].boundProxy == Some(1) && st.accounts[1].status == Healthy
    && (1 in st.limitedUntil ==> st.limitedUntil[1] <= now)
    && (st.accounts[1].quotaLimit.Some? ==> st.accounts[1].quotaUsed < st.accounts[1].quotaLimit.value)
  }

  lemma SwitchMoves(st: State, now: int, s: ProxyStatus, t: ProxyStatus)
    requires Behind(st, now, s)
    ensures Behind(Apply(st, ProxySwitch(1, t), now), now, t)
    ensures Apply(st, ProxySwitch(1, t), now).platPermits == st.platPermits
  {
    SwitchExactly(st, 1, t, now);
    var st' := Apply(st, ProxySwitch(1, t), now);
    assert st'.proxies == map[1 := Entry(PROXY).(status := t)];
  }

  lemma ChosenIffOn(st: State, now: int, s: ProxyStatus)
    requires Behind(st, now, s)
    ensures Enumerates([1], st.accounts)
    ensures Choose(st, SLUG, now, [1]) == if s == Available then Some(ATTEMPT) else None
  {
    if s == Available {
      assert Able(st, now);
      AbleIsChosen(st, now);
    } else {
      ChoiceServes(st, SLUG, now, [1]);
    }
  }

  /** A run leads to a further request's selection, which uses the proxy or finds nobody. */
  ghost predicate Tried(w0: World, w: World, r: int, used: bool) {
    && RunsTo(w0, Admitted(w, r)) && Enabled(Admitted(w, r), SelectNow(r, [1]))
    && (Uses(Admitted(w, r), SelectNow(r, [1]), 1) <==> used)
    && (NextReq(Admitted(w, r), SelectNow(r, [1])).pc == Diagnosing <==> !used)
  }

  /** On one run from start-up the proxy is used, disabled, not used, enabled, and used again. */
  lemma OffAndOnAgain() returns (w: World, off: World, on: World)
    ensures Tried(Start(10, 0, 0, 3), w, 0, true) && off == Switched(Selected(w, 0), ProxyDisabled)
    ensures Tried(Start(10, 0, 0, 3), off, 1, false) && on == Switched(Selected(off, 1), Available)
    ensures Tried(Start(10, 0, 0, 3), on, 2, true)
  {
    w := Start(10, 0, 0, 3);
    StartFacts(10, 0, 0, 3);
    ReachesSelf(w);
    ReachesRuns(w, w);
    off, on := SwitchedTwice(w);
  }

  lemma SwitchedTwice(w: World) returns (off: World, on: World)
    requires Scene(w, w, Available, 0)
    ensures Tried(w, w, 0, true) && off == Switched(Selected(w, 0), ProxyDisabled)
    ensures Tried(w, off, 1, false) && on == Switched(Selected(off, 1), Available)
    ensures Tried(w, on, 2, true)
  {
    Tries(w, w, 0, Available);
    off := Turns(w, w, 0, Available, ProxyDisabled);
    Tries(w, off, 1, ProxyDisabled);
    on := Turns(w, off, 1, ProxyDisabled, Available);
    Tries(w, on, 2, Available);
  }

  /** With `n` requests there and the proxy on or off. */
  ghost predicate Scene(w0: World, w: World, s: ProxyStatus, n: int) {
    && RunsTo(w0, w) && Behind(w.st, w.now, s) && SLUG in w.st.platPermits && w.st.platPermits[SLUG] == 3
    && |w.reqs.Keys| == n && (forall r :: r in w.reqs ==> 0 <= r < n)
  }

  lemma Tries(w0: World, w: World, r: int, s: ProxyStatus)
    requires Scene(w0, w, s, r) && r < 3
    ensures Tried(w0, w, r, s == Available)
  {
    AdmitsOneMore(w0, w, r);
    ChosenIffOn(w.st, w.now, s);
  }

  lemma Turns(w0: World, w: World, r: int, s: ProxyStatus, t: ProxyStatus) returns (w': World)
    requires Scene(w0, w, s, r) && r < 3
    ensures w' == Switched(Selected(w, r), t) && Scene(w0, w', t, r + 1)
  {
    SelectsOneMore(w0, w, r);
    var w1 := Selected(w, r);
    w' := Switched(w1, t);
    SwitchesNext(w0, w1, s, t);
    assert |w1.reqs.Keys| == r + 1;
  }

  lemma SwitchesNext(w0: World, w: World, s: ProxyStatus, t: ProxyStatus)
    requires RunsTo(w0, w) && Behind(w.st, w.now, s)
    ensures var w' := Switched(w, t);
      RunsTo(w0, w') && Behind(w'.st, w'.now, t) && w'.reqs == w.reqs && w'.st.platPermits == w.st.platPermits
  {
    RunsOn(w0, w, Event.Operate(ProxySwitch(1, t)));
    SwitchedIs(w, t);
    SwitchMoves(w.st, w.now, s, t);
  }
}
