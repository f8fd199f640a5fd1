/** Whatever is under way comes to an end: once no more requests arrive, the steps left are bounded
    by the work left, and when no request can take one, all of them are finished. */
module Completion {
  import opened Wrappers
  import opened Counting
  import opened Database
  import opened PoolState
  import opened Sync
  import opened Admin
  import opened Forwarding
  import opened Engine
  import opened Conservation
  import opened Concurrency

  predicate BelowMaximum(setting: int) { ReadMaxRetries(setting) < U32_LIMIT - 1 }

  /** No request retries up to the 32-bit maximum, nor will one that has yet to be admitted. */
  ghost predicate Modest(w: World) {
    && BelowMaximum(w.st.db.maxRetries)
    && forall r :: r in w.reqs && !w.reqs[r].pc.AwaitPlatform? && !w.reqs[r].pc.Done? ==>
         w.reqs[r].maxRetries < U32_LIMIT - 1
  }

  /** Nobody arrives, and nobody raises the setting to the maximum. */
  predicate Closing(ev: Event) {
    !ev.Arrive? && (ev.Operate? && ev.op.SetMaxRetries? ==> BelowMaximum(ev.op.v))
  }

  function WorkOf(): Req -> int { (q: Req) => Work(q) }

  ghost function TotalWork(w: World): int { Sum(w.reqs, WorkOf()) }

  function StepsIn(evs: seq<Event>): nat {
    if evs == [] then 0 else Bit(OfRequest(evs[0])) + StepsIn(evs[1..])
  }

  // ----- the setting -----

  lemma SettingStays(st: State, op: Op, now: int)
    ensures Apply(st, op, now).db.maxRetries == if op.SetMaxRetries? then op.v else st.db.maxRetries
  {
    match op
    case BindOne(id) => BindKeepsRows(st, id, None);
    case Upload(slug, item, quota, c) => UploadKeepsSetting(st, slug, item, quota, c);
    case SyncOp(gid, subscription) => SyncKeepsSetting(st, gid, subscription);
    case PlatformOp(slug, gids, m) => PatchPlatformKeepsSetting(st, slug, gids, m);
    case _ =>
  }

  lemma UploadKeepsSetting(st: State, slug: string, item: UploadItem, quota: Option<int>, c: nat)
    ensures UploadOne(st, slug, item, quota, c).db.maxRetries == st.db.maxRetries
  {
    BindKeepsRows(Uploaded(st, slug, item, quota, c), st.db.nextAccount, item.registrationIp);
  }

  lemma SyncKeepsSetting(st: State, gid: int, subscription: Option<seq<SubProxy>>)
    ensures SyncGroup(st, gid, subscription).db.maxRetries == st.db.maxRetries
  {
    if gid in st.db.groups && subscription.Some? {
      UpsertAllOnly(st.db, gid, subscription.value);
      var st1 := Reload(st.(db := Reconcile(st.db, gid, subscription.value)), gid);
      RebindAllLedger(st1, NullAccounts(st1.db, gid, st1.db.nextAccount));
    }
  }

  lemma PatchPlatformKeepsSetting(st: State, slug: string, gids: Option<seq<int>>, m: Option<nat>)
    ensures PatchPlatform(st, slug, gids, m).db.maxRetries == st.db.maxRetries
  {
    if gids.Some? && LinksAccepted(st.db, slug, gids.value) {
      var st1 := Relink(st, slug, gids.value);
      PermitOnly(st1, slug, m);
      var st2 := PermitIfSet(st1, slug, m);
      BindEachLedger(st2, UnboundOn(st2.db, slug, st2.db.nextAccount));
    } else {
      PermitOnly(st, slug, m);
    }
  }

  lemma EffectKeepsSetting(st: State, e: Effect, now: int)
    ensures Perform(st, e, now).db.maxRetries == st.db.maxRetries
  {
    if e.RebindAccount? { BindKeepsRows(st, e.acct, None); }
  }

  // ----- one event -----

  lemma RequestUsesWork(w: World, ev: Event)
    requires Enabled(w, ev) && OfRequest(ev) && Closing(ev) && RetriesOk(w) && Modest(w)
    ensures Modest(Next(w, ev)) && TotalWork(Next(w, ev)) < TotalWork(w)
  {
    if ev.DoEffect? { EffectKeepsSetting(w.st, w.reqs[ev.r].pc.todo[0], w.now); }
    var q' := NextReq(w, ev);
    assert q'.maxRetries < U32_LIMIT - 1;
    StepUsesWork(w, ev);
    SumUpdate(w.reqs, ev.r, q', WorkOf());
  }

  lemma ClosingStep(w: World, ev: Event)
    requires Enabled(w, ev) && Closing(ev) && RetriesOk(w) && Modest(w)
    ensures RetriesOk(Next(w, ev)) && Modest(Next(w, ev))
    ensures Bit(OfRequest(ev)) + TotalWork(Next(w, ev)) <= TotalWork(w)
  {
    RetriesStep(w, ev);
    match ev
    case Operate(op) => SettingStays(w.st, op, w.now);
    case Tick(_) =>
    case _ => RequestUsesWork(w, ev);
  }

  lemma WorkIsLeft(w: World)
    requires RetriesOk(w)
    ensures 0 <= TotalWork(w)
  {
    forall r | r in w.reqs ensures 0 <= WorkOf()(w.reqs[r]) {
      assert w.reqs[r].retries <= w.reqs[r].maxRetries;
    }
    SumNonNegative(w.reqs, WorkOf());
  }

  // ----- every run -----

  lemma {:induction false} ClosingRun(w: World, evs: seq<Event>)
    requires Runnable(w, evs) && RetriesOk(w) && Modest(w) && forall ev :: ev in evs ==> Closing(ev)
    ensures RetriesOk(Run(w, evs)) && Modest(Run(w, evs))
    ensures StepsIn(evs) + TotalWork(Run(w, evs)) <= TotalWork(w)
    decreases evs
  {
    if evs != [] {
      ClosingStep(w, evs[0]);
      ClosingRun(Next(w, evs[0]), evs[1..]);
    }
  }

  lemma {:induction false} RunKeepsRetries(w: World, evs: seq<Event>)
    requires RetriesOk(w) && Runnable(w, evs)
    ensures RetriesOk(Run(w, evs))
    decreases evs
  {
    if evs != [] {
      RetriesStep(w, evs[0]);
      RunKeepsRetries(Next(w, evs[0]), evs[1..]);
    }
  }

  /** What every reachable state keeps that the end depends on. */
  ghost predicate Lively(w: World) { PermitsOk(w) && EndingsOk(w) && RetriesOk(w) }

  lemma ReachableIsLively(db: Db, decrypt: string -> Option<string>, most: string -> nat, now: int, evs: seq<Event>)
    requires WellFormed(db) && Runnable(Boot(db, decrypt, most, now), evs)
    ensures Lively(Run(Boot(db, decrypt, most, now), evs))
  {
    var w0 := Boot(db, decrypt, most, now);
    BootPermits(db, decrypt, most, now);
    RunKeepsPermits(w0, evs);
    RunKeepsEndings(w0, evs);
    RunKeepsRetries(w0, evs);
  }

  lemma StuckIsDone(w: World)
    requires Lively(w) && !CanStep(w)
    ensures AllDone(w)
  {
    forall r | r in w.reqs ensures w.reqs[r].pc.Done? {
      if !w.reqs[r].pc.Done? { NeverStuck(w, r); }
    }
  }

  /** After any run from start-up, whatever administrators, tasks and the clock do from then on: if
      nobody arrives, the requests take no more steps than the work that was left, and when none of
      them can take another, all are finished. */
  lemma EveryoneFinishes(db: Db, decrypt: string -> Option<string>, most: string -> nat, now: int,
                         before: seq<Event>, evs: seq<Event>)
    requires WellFormed(db) && Runnable(Boot(db, decrypt, most, now), before)
    requires var w := Run(Boot(db, decrypt, most, now), before);
      Modest(w) && Runnable(w, evs) && forall ev :: ev in evs ==> Closing(ev)
    ensures var w := Run(Boot(db, decrypt, most, now), before);
      StepsIn(evs) <= TotalWork(w) && (!CanStep(Run(w, evs)) ==> AllDone(Run(w, evs)))
  {
    var w0 := Boot(db, decrypt, most, now);
    var w := Run(w0, before);
    ReachableIsLively(db, decrypt, most, now, before);
    LivelyRun(w, evs);
    ClosingRun(w, evs);
    WorkIsLeft(Run(w, evs));
    if !CanStep(Run(w, evs)) { StuckIsDone(Run(w, evs)); }
  }

  lemma LivelyRun(w: World, evs: seq<Event>)
    requires Lively(w) && Runnable(w, evs)
    ensures Lively(Run(w, evs))
  {
    RunKeepsPermits(w, evs);
    RunKeepsEndings(w, evs);
    RunKeepsRetries(w, evs);
  }

  lemma LivelyStep(w: World, ev: Event)
    requires Lively(w) && Enabled(w, ev)
    ensures Lively(Next(w, ev))
  {
    PlatformStep(w, ev);
    AccountStep(w, ev);
    RetriesStep(w, ev);
    EndingsStep(w, ev);
  }

  lemma EndingsStep(w: World, ev: Event)
    requires EndingsOk(w) && Enabled(w, ev)
    ensures EndingsOk(Next(w, ev))
  {
  }

  /** A step of a request that is under way. */
  predicate OwnStep(ev: Event) { OfRequest(ev) && !ev.Arrive? }

  lemma FirstThen(w: World, ev: Event, rest: seq<Event>)
    requires Enabled(w, ev) && Runnable(Next(w, ev), rest)
    ensures Runnable(w, [ev] + rest) && Run(w, [ev] + rest) == Run(Next(w, ev), rest)
  {
    assert ([ev] + rest)[1..] == rest;
  }

  /** And there is always a way to finish them all. */
  lemma {:induction false} WayToFinish(w: World) returns (evs: seq<Event>)
    requires Lively(w) && Modest(w)
    ensures Runnable(w, evs) && AllDone(Run(w, evs)) && |evs| <= TotalWork(w)
    ensures forall ev :: ev in evs ==> OwnStep(ev)
    decreases TotalWork(w)
  {
    WorkIsLeft(w);
    if CanStep(w) {
      var ev :| OfRequest(ev) && !ev.Arrive? && Enabled(w, ev);
      assert OwnStep(ev);
      LivelyStep(w, ev);
      RequestUsesWork(w, ev);
      var rest := WayToFinish(Next(w, ev));
      FirstThen(w, ev, rest);
      evs := [ev] + rest;
    } else {
      StuckIsDone(w);
      evs := [];
    }
  }
}
