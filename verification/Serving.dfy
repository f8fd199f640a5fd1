/** Who can be selected, said column by column: what a selection returns, why it returns nothing,
    and that an uploaded account is among those it can return. */
module Serving {
  import opened Wrappers
  import opened Text
  import opened Database
  import opened PoolState
  import opened Binding
  import opened Selection
  import opened Admin
  import opened Copies
  import opened Forwarding
  import opened Engine
  import opened Concurrency
  import opened CopyRuns

  /** A loaded account of the platform, healthy or not tried yet, not backed off and below its limit. */
  ghost predicate OnCall(st: State, platform: string, now: int, a: int) {
    && a in st.accounts && st.accounts[a].platform == platform
    && (st.accounts[a].status == Healthy || st.accounts[a].status == Pending)
    && (a in st.limitedUntil ==> st.limitedUntil[a] <= now)
    && (st.accounts[a].quotaLimit.Some? ==> st.accounts[a].quotaUsed < st.accounts[a].quotaLimit.value)
  }

  /** Bound to a proxy that memory shows available. */
  ghost predicate Connected(st: State, a: int) {
    && a in st.accounts && st.accounts[a].boundProxy.Some?
    && st.accounts[a].boundProxy.value in st.proxies
    && st.proxies[st.accounts[a].boundProxy.value].status == Available
  }

  ghost predicate CanServe(st: State, platform: string, now: int, a: int) {
    OnCall(st, platform, now, a) && Connected(st, a)
  }

  /** The counter of its proxy's exit IP. */
  ghost function Traffic(st: State, a: int): int
    requires Connected(st, a)
  {
    var ip := st.proxies[st.accounts[a].boundProxy.value].exitIp;
    if ip.Some? && ip.value in st.busy then st.busy[ip.value] else 0
  }

  lemma OnCallIsSchedulable(st: State, platform: string, now: int, a: int)
    ensures Schedulable(st, platform, now, a) <==> OnCall(st, platform, now, a)
  {
  }

  lemma ConnectedIsReady(st: State, a: int)
    ensures Ready(st, a) <==> Connected(st, a)
    ensures Connected(st, a) ==> BusyKey(st, a) == Traffic(st, a)
  {
  }

  /** Where the candidates stand in the iteration order. */
  lemma {:induction false} CandidatePositions(st: State, platform: string, now: int, order: seq<int>)
      returns (at: seq<int>)
    ensures var c := CandidatesIn(st, platform, now, order);
      && |at| == |c| && (forall k :: 0 <= k < |c| ==> 0 <= at[k] < |order| && order[at[k]] == c[k])
      && (forall k, l :: 0 <= k < l < |c| ==> at[k] < at[l])
  {
    at := [];
    if order != [] {
      var n := |order| - 1;
      at := CandidatePositions(st, platform, now, order[..n]);
      if Schedulable(st, platform, now, order[n]) { at := at + [n]; }
    }
  }

  /** The account at position `i` can serve, and whoever else can carries more traffic on its exit
      IP, or as much and comes later in the order. */
  ghost predicate FirstOfLeast(st: State, platform: string, now: int, order: seq<int>, i: int)
    requires 0 <= i < |order|
  {
    && CanServe(st, platform, now, order[i])
    && forall j :: 0 <= j < |order| && CanServe(st, platform, now, order[j]) ==>
         Traffic(st, order[i]) < Traffic(st, order[j]) || (Traffic(st, order[i]) == Traffic(st, order[j]) && i <= j)
  }

  lemma LeastIsFirst(st: State, platform: string, now: int, order: seq<int>, at: seq<int>, k: int)
    requires Enumerates(order, st.accounts)
    requires var c := CandidatesIn(st, platform, now, order);
      && |at| == |c| && 0 <= k < |c| && LeastAt(st, c, k)
      && (forall k :: 0 <= k < |c| ==> 0 <= at[k] < |order| && order[at[k]] == c[k])
      && (forall k, l :: 0 <= k < l < |c| ==> at[k] < at[l])
    ensures FirstOfLeast(st, platform, now, order, at[k])
  {
    var c := CandidatesIn(st, platform, now, order);
    CandidatesExact(st, platform, now, order);
    assert c[k] in c;
    OnCallIsSchedulable(st, platform, now, c[k]);
    ConnectedIsReady(st, c[k]);
    forall j | 0 <= j < |order| && CanServe(st, platform, now, order[j])
      ensures Traffic(st, c[k]) < Traffic(st, order[j]) || (Traffic(st, c[k]) == Traffic(st, order[j]) && at[k] <= j)
    {
      OnCallIsSchedulable(st, platform, now, order[j]);
      ConnectedIsReady(st, order[j]);
      assert order[j] in order;
      var l :| 0 <= l < |c| && c[l] == order[j];
      assert order[at[l]] == order[j];
    }
  }

  /** Somebody is selected exactly when somebody can serve, and then it is the first of those with
      the least traffic, through the proxy it is bound to. */
  lemma ChoiceServes(st: State, platform: string, now: int, order: seq<int>)
    requires Enumerates(order, st.accounts)
    ensures var c := Choose(st, platform, now, order);
      && (c.Some? <==> exists a :: CanServe(st, platform, now, a))
      && (c.Some? ==>
            && (exists i :: 0 <= i < |order| && order[i] == c.value.acct && FirstOfLeast(st, platform, now, order, i))
            && Connected(st, c.value.acct)
            && c.value.proxy == st.accounts[c.value.acct].boundProxy.value
            && c.value.exitIp == st.proxies[c.value.proxy].exitIp)
  {
    var cands := CandidatesIn(st, platform, now, order);
    BestIsLeast(st, cands);
    CandidatesExact(st, platform, now, order);
    var at := CandidatePositions(st, platform, now, order);
    if Best(st, cands).Some? {
      var k :| 0 <= k < |cands| && cands[k] == Best(st, cands).value && LeastAt(st, cands, k);
      LeastIsFirst(st, platform, now, order, at, k);
      ConnectedIsReady(st, cands[k]);
    } else {
      forall a ensures !CanServe(st, platform, now, a) {
        OnCallIsSchedulable(st, platform, now, a);
        ConnectedIsReady(st, a);
        assert a in cands ==> !Ready(st, a);
      }
    }
  }

  lemma LinkedSomewhere(links: seq<(string, int)>, slug: string)
    ensures (exists g :: (slug, g) in links) <==> !(forall l :: l in links ==> l.0 != slug)
  {
    if l :| l in links && l.0 == slug {
      var g := l.1;
      assert l == (slug, g) && (slug, g) in links;
    } else {
      forall g ensures (slug, g) !in links { assert (slug, g).0 == slug; }
    }
  }

  /** The first of these that is so: the platform is linked to no group; it has no account in the
      store; none of its accounts is on call; some that are have no proxy, and how many; else it is
      the proxies, which is right when nobody can serve. */
  ghost function Why(st: State, slug: string, now: int): Reason {
    var unbound := set a | a in st.accounts && OnCall(st, slug, now, a) && st.accounts[a].boundProxy.None?;
    if !exists g :: (slug, g) in st.db.links then NoGroups
    else if !exists a :: OnCall(st, slug, now, a) then
      if exists a :: a in st.db.accounts && st.db.accounts[a].platform == slug then AllUnusable else NoAccounts
    else if unbound != {} then Unbound(|unbound|)
    else ProxiesUnavailable
  }

  lemma RefusalTellsWhy(st: State, slug: string, now: int, order: seq<int>)
    requires Enumerates(order, st.accounts)
    ensures Diagnose(st, slug, now, order) == Why(st, slug, now)
  {
    forall a ensures Schedulable(st, slug, now, a) <==> OnCall(st, slug, now, a) {
      OnCallIsSchedulable(st, slug, now, a);
    }
    var cands := CandidatesIn(st, slug, now, order);
    CandidatesExact(st, slug, now, order);
    LinkCountZero(st.db.links, slug);
    LinkedSomewhere(st.db.links, slug);
    NobodyOnPlatform(st.db, slug);
    UnboundCountExact(st, cands);
    var unbound := set a | a in st.accounts && OnCall(st, slug, now, a) && st.accounts[a].boundProxy.None?;
    assert unbound == UnboundOf(st, cands);
    if cands != [] { assert cands[0] in cands; }
  }

  /** The step of a request that selects: it goes on with the account that serves it, if anybody
      can serve; else it goes on to ask why. */
  lemma SelectionStep(w: World, r: int, order: seq<int>)
    requires Enabled(w, SelectNow(r, order))
    ensures var q, w' := w.reqs[r], Next(w, SelectNow(r, order)); var slug, pc := q.call.platform, w'.reqs[r].pc;
      && w' == w.(reqs := w.reqs[r := q.(pc := pc)])
      && if exists a :: CanServe(w.st, slug, w.now, a) then
           && pc.Chosen? && Connected(w.st, pc.att.acct)
           && (exists i :: 0 <= i < |order| && order[i] == pc.att.acct && FirstOfLeast(w.st, slug, w.now, order, i))
           && pc.att.proxy == w.st.accounts[pc.att.acct].boundProxy.value
           && pc.att.exitIp == w.st.proxies[pc.att.proxy].exitIp
         else pc == Diagnosing
  {
    ChoiceServes(w.st, w.reqs[r].call.platform, w.now, order);
  }

  /** And it ends with the reason found then. */
  lemma RefusalStep(w: World, r: int, order: seq<int>)
    requires Enabled(w, DiagnoseNone(r, order))
    ensures var q := w.reqs[r];
      Next(w, DiagnoseNone(r, order))
      == w.(reqs := w.reqs[r := q.(pc := Done(NoAccount(Why(w.st, q.call.platform, w.now))))])
  {
    RefusalTellsWhy(w.st, w.reqs[r].call.platform, w.now, order);
  }

  // ----- an uploaded account -----

  ghost predicate BackOffsBelow(todo: seq<Effect>, next: int) {
    forall i :: 0 <= i < |todo| && todo[i].BackOff? ==> todo[i].acct < next
  }

  /** Back-offs are recorded of accounts that have been made, whether they are still there or not. */
  ghost predicate BackOffsKnown(w: World) {
    && (forall a :: a in w.st.limitedUntil ==> a < w.st.db.nextAccount)
    && (forall r :: r in w.reqs && w.reqs[r].pc.Settling? ==> BackOffsBelow(w.reqs[r].pc.todo, w.st.db.nextAccount))
  }

  lemma PopBackOffs(st: State, todo: seq<Effect>, next: int)
    requires todo != [] && BackOffsBelow(todo, next)
    ensures BackOffsBelow(Leaves(st, todo[0]) + todo[1..], next)
  {
    var left := Leaves(st, todo[0]);
    var rest := left + todo[1..];
    forall i | 0 <= i < |rest| && rest[i].BackOff? ensures rest[i].acct < next {
      assert rest[i] == todo[i - |left| + 1];
    }
  }

  lemma EffectsBackOff(call: Call, att: Attempt, retries: nat, answer: Answer, next: int)
    requires att.acct < next
    ensures BackOffsBelow(Effects(call, att, retries, answer), next)
  {
  }

  lemma RequestKnown(w: World, ev: Event)
    requires Enabled(w, ev) && OfRequest(ev) && BackOffsKnown(w) && AccountOk(w)
    ensures var q' := NextReq(w, ev); q'.pc.Settling? ==> BackOffsBelow(q'.pc.todo, w.st.db.nextAccount)
    ensures forall a :: a in NextState(w, ev).limitedUntil ==> a < w.st.db.nextAccount
  {
    if ev.Respond? {
      var q := w.reqs[ev.r];
      assert AttemptOk(q.pc, w.sems, w.st.acctPermits, w.st.db.nextAccount);
      EffectsBackOff(q.call, q.pc.att, q.retries, ev.answer, w.st.db.nextAccount);
    } else if ev.DoEffect? {
      var todo := w.reqs[ev.r].pc.todo;
      PopBackOffs(w.st, todo, w.st.db.nextAccount);
      EffectBackOffs(w.st, todo[0], w.now, w.st.db.nextAccount);
    }
  }

  lemma EffectBackOffs(st: State, e: Effect, now: int, next: int)
    requires e.BackOff? ==> e.acct < next
    requires forall a :: a in st.limitedUntil ==> a < next
    ensures forall a :: a in Perform(st, e, now).limitedUntil ==> a < next
  {
    if e.RebindAccount? { BindOnly(st, e.acct, None); }
  }

  lemma KnownStep(w: World, ev: Event)
    requires Enabled(w, ev) && BackOffsKnown(w) && AccountOk(w)
    ensures BackOffsKnown(Next(w, ev))
  {
    match ev
    case Operate(op) => ApplyRuntime(w.st, op, w.now); StaysKnown(w, Next(w, ev));
    case Tick(_) => StaysKnown(w, Next(w, ev));
    case _ => RequestStepKnown(w, ev);
  }

  lemma RequestStepKnown(w: World, ev: Event)
    requires Enabled(w, ev) && OfRequest(ev) && BackOffsKnown(w) && AccountOk(w)
    ensures BackOffsKnown(Next(w, ev))
  {
    RequestKeepsPermits(w, ev);
    RequestKnown(w, ev);
    MovesKnown(w, Next(w, ev), ev.r, NextReq(w, ev));
  }

  lemma StaysKnown(w: World, w': World)
    requires BackOffsKnown(w) && w'.reqs == w.reqs
    requires w'.st.limitedUntil == w.st.limitedUntil && w.st.db.nextAccount <= w'.st.db.nextAccount
    ensures BackOffsKnown(w')
  {
  }

  lemma MovesKnown(w: World, w': World, r: int, q': Req)
    requires BackOffsKnown(w) && w'.reqs == w.reqs[r := q'] && w'.st.db.nextAccount == w.st.db.nextAccount
    requires forall a :: a in w'.st.limitedUntil ==> a < w.st.db.nextAccount
    requires q'.pc.Settling? ==> BackOffsBelow(q'.pc.todo, w.st.db.nextAccount)
    ensures BackOffsKnown(w')
  {
  }

  lemma {:induction false} RunKeepsKnown(w: World, evs: seq<Event>)
    requires BackOffsKnown(w) && AccountOk(w) && Runnable(w, evs)
    ensures BackOffsKnown(Run(w, evs))
    decreases evs
  {
    if evs != [] {
      KnownStep(w, evs[0]);
      AccountStep(w, evs[0]);
      RunKeepsKnown(Next(w, evs[0]), evs[1..]);
    }
  }

  /** A fresh account of a platform that has a proxy for it can serve. */
  lemma UploadedServes(st: State, slug: string, item: UploadItem, quota: Option<int>, c: nat, now: int, p: int)
    requires Mirrored(st) && st.db.nextAccount !in st.limitedUntil
    requires Trim(item.apiKey) != "" && slug in st.db.platforms && OnOffer(st.db, slug, p)
    requires quota.Some? ==> 0 < quota.value
    ensures CanServe(UploadOne(st, slug, item, quota, c), slug, now, st.db.nextAccount)
  {
    var up := Uploaded(st, slug, item, quota, c);
    UploadedMirrors(st, slug, item, quota, c);
    OfferStays(st.db, up.db, slug, p);
    BoundServes(up, slug, st.db.nextAccount, item.registrationIp, now, p);
  }

  lemma UploadedMirrors(st: State, slug: string, item: UploadItem, quota: Option<int>, c: nat)
    requires Mirrored(st) && slug in st.db.platforms
    ensures var up := Uploaded(st, slug, item, quota, c); var id := st.db.nextAccount;
      && Mirrored(up) && up.db.proxies == st.db.proxies && up.db.links == st.db.links
      && up.limitedUntil == st.limitedUntil && id in up.db.accounts && up.db.accounts[id].platform == slug
      && id in up.accounts && up.accounts[id].platform == slug && up.accounts[id].status == Pending
      && up.accounts[id].quotaLimit == quota && up.accounts[id].quotaUsed == 0
  {
  }

  /** An account on call can serve once it is bound. */
  lemma BoundServes(st: State, slug: string, id: int, ip: Option<string>, now: int, p: int)
    requires Mirrored(st) && OnOffer(st.db, slug, p) && id in st.db.accounts && st.db.accounts[id].platform == slug
    requires OnCall(st, slug, now, id)
    ensures CanServe(BindAccount(st, id, ip), slug, now, id)
  {
    ServedIffOffer(st.db, slug);
    ChoiceMeaning(st.db, slug, ip);
    var choice := ChooseProxy(st.db, slug, ip);
    assert choice.value in st.db.proxies && st.db.proxies[choice.value].status == Available;
    MemoryAgrees(st, choice.value);
    assert BindAccount(st, id, ip).accounts[id] == st.accounts[id].(boundProxy := choice);
  }

  lemma MemoryAgrees(st: State, p: int)
    requires ProxiesMirrored(st.proxies, st.db.proxies) && p in st.db.proxies
    ensures p in st.proxies && st.proxies[p].status == st.db.proxies[p].status
  {
  }

  lemma OfferStays(db: Db, db': Db, slug: string, p: int)
    requires db'.proxies == db.proxies && db'.links == db.links && OnOffer(db, slug, p)
    ensures OnOffer(db', slug, p)
  {
  }

  /** On every run from start-up: an account uploaded with a key, for a platform with an available
      proxy in one of its groups, with no limit or a positive one, can serve as soon as it is
      there, in whatever order the accounts are looked at; so the next selection finds somebody. */
  lemma UploadIsSelected(db: Db, decrypt: string -> Option<string>, most: string -> nat, now: int, evs: seq<Event>,
                         slug: string, item: UploadItem, quota: Option<int>, c: nat, order: seq<int>, p: int)
    requires WellFormed(db) && Runnable(Boot(db, decrypt, most, now), evs)
    requires var w := Run(Boot(db, decrypt, most, now), evs);
      && Trim(item.apiKey) != "" && slug in w.st.db.platforms && OnOffer(w.st.db, slug, p)
      && (quota.Some? ==> 0 < quota.value)
    ensures var w := Run(Boot(db, decrypt, most, now), evs);
      var w' := Next(w, Operate(Upload(slug, item, quota, c)));
      && CanServe(w'.st, slug, w'.now, w.st.db.nextAccount)
      && (Enumerates(order, w'.st.accounts) ==> Choose(w'.st, slug, w'.now, order).Some?)
  {
    ReachableKnown(db, decrypt, most, now, evs);
    UploadServes(Run(Boot(db, decrypt, most, now), evs), slug, item, quota, c, order, p);
  }

  lemma UploadNext(w: World, slug: string, item: UploadItem, quota: Option<int>, c: nat)
    ensures var w' := Next(w, Operate(Upload(slug, item, quota, c)));
      w'.st == UploadOne(w.st, slug, item, quota, c) && w'.now == w.now
  {
  }

  lemma UploadServes(w: World, slug: string, item: UploadItem, quota: Option<int>, c: nat, order: seq<int>, p: int)
    requires Mirrored(w.st) && w.st.db.nextAccount !in w.st.limitedUntil
    requires Trim(item.apiKey) != "" && slug in w.st.db.platforms && OnOffer(w.st.db, slug, p)
    requires quota.Some? ==> 0 < quota.value
    ensures var w' := Next(w, Operate(Upload(slug, item, quota, c)));
      && CanServe(w'.st, slug, w'.now, w.st.db.nextAccount)
      && (Enumerates(order, w'.st.accounts) ==> Choose(w'.st, slug, w'.now, order).Some?)
  {
    UploadedServes(w.st, slug, item, quota, c, w.now, p);
    UploadNext(w, slug, item, quota, c);
    var w' := Next(w, Operate(Upload(slug, item, quota, c)));
    if Enumerates(order, w'.st.accounts) { SomebodySelected(w'.st, slug, w'.now, order, w.st.db.nextAccount); }
  }

  lemma ReachableKnown(db: Db, decrypt: string -> Option<string>, most: string -> nat, now: int, evs: seq<Event>)
    requires WellFormed(db) && Runnable(Boot(db, decrypt, most, now), evs)
    ensures var w := Run(Boot(db, decrypt, most, now), evs); Mirrored(w.st) && w.st.db.nextAccount !in w.st.limitedUntil
  {
    var w0 := Boot(db, decrypt, most, now);
    LoadMirrors(db, decrypt);
    assert w0.st == LoadAll(db, decrypt).(platPermits := w0.st.platPermits);
    RunMirrors(w0, evs);
    BootPermits(db, decrypt, most, now);
    RunKeepsKnown(w0, evs);
  }

  lemma SomebodySelected(st: State, slug: string, now: int, order: seq<int>, a: int)
    requires Enumerates(order, st.accounts) && CanServe(st, slug, now, a)
    ensures Choose(st, slug, now, order).Some?
  {
    ChoiceServes(st, slug, now, order);
  }
}
