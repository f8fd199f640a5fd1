/** What each administrator's handler and background task writes, column by column, in the store and
    in memory, and that it writes nothing else. */
module Handlers {
  import opened Wrappers
  import opened Text
  import opened Database
  import opened PoolState
  import opened Binding
  import opened SyncTheorems
  import opened Admin
  import opened Copies
  import opened Forwarding
  import opened Engine
  import opened Conservation
  import opened LinkOrder
  import opened BindColumns
  import opened Answers

  // ----- accounts -----

  /** Enabling, disabling and the verdict of a probe: both copies show the status, failures forgotten. */
  lemma StatusIsSet(st: State, id: int, s: AccountStatus, now: int)
    ensures var st' := Apply(st, ChangeStatus(id, s), now);
      && st' == st.(accounts := st'.accounts, db := st.db.(accounts := st'.db.accounts))
      && OtherSlotsKept(st.accounts, st'.accounts, id) && OtherRowsKept(st.db.accounts, st'.db.accounts, id)
      && BothShow(st, st', id, s)
  {
    ShownState(st, id, s);
  }

  /** Its reset time has come, or it has none. */
  ghost predicate HasCome(resetAt: Option<int>, now: int) { resetAt.None? || resetAt.value <= now }

  ghost predicate Afresh(row: AccountRow, row': AccountRow, now: int) {
    row' == row.(quotaUsed := 0, status := Healthy, failures := 0,
                 resetAt := Some(now + 30 * 24 * 60 * 60 * 1_000_000_000))
  }

  ghost predicate AfreshInMemory(slot: AccountSlot, slot': AccountSlot, now: int) {
    slot' == slot.(quotaUsed := 0, status := Healthy, failures := 0,
                   resetAt := Some(now + 30 * 24 * 60 * 60 * 1_000_000_000))
  }

  /** A due account starts afresh in both copies, for thirty days; the others stay as they are. */
  lemma ResetStartsAfresh(st: State, now: int)
    ensures var st' := Apply(st, Reset, now);
      && st' == st.(accounts := st'.accounts, db := st.db.(accounts := st'.db.accounts))
      && st'.accounts.Keys == st.accounts.Keys && st'.db.accounts.Keys == st.db.accounts.Keys
      && (forall a :: a in st.db.accounts ==>
            if HasCome(st.db.accounts[a].resetAt, now) then Afresh(st.db.accounts[a], st'.db.accounts[a], now)
            else st'.db.accounts[a] == st.db.accounts[a])
      && (forall a :: a in st.accounts ==>
            if a in st.db.accounts && HasCome(st.db.accounts[a].resetAt, now)
            then AfreshInMemory(st.accounts[a], st'.accounts[a], now)
            else st'.accounts[a] == st.accounts[a])
  {
  }

  lemma RefreshedRow(st: State, id: int, resetAt: Option<int>)
    ensures var st' := RefreshBalance(st, id, resetAt);
      && st' == st.(db := st.db.(accounts := st'.db.accounts)) && OtherRowsKept(st.db.accounts, st'.db.accounts, id)
      && (id in st.db.accounts ==>
            var row := st.db.accounts[id];
            st'.db.accounts[id] == row.(resetAt := if row.resetAt.None? then resetAt else row.resetAt))
  {
    if id in st.db.accounts && st.db.accounts[id].resetAt.None? {
      assert RefreshBalance(st, id, resetAt).db.accounts
          == st.db.accounts[id := st.db.accounts[id].(resetAt := resetAt)];
    }
  }

  /** A balance refresh fills in a reset time that is not set, in the store alone. */
  lemma RefreshFillsIn(st: State, id: int, resetAt: Option<int>, now: int)
    ensures var st' := Apply(st, Refresh(id, resetAt), now);
      && st' == st.(db := st.db.(accounts := st'.db.accounts)) && OtherRowsKept(st.db.accounts, st'.db.accounts, id)
      && (id in st.db.accounts ==>
            var row := st.db.accounts[id];
            st'.db.accounts[id] == row.(resetAt := if row.resetAt.None? then resetAt else row.resetAt))
  {
    RefreshedRow(st, id, resetAt);
  }

  /** An uploaded account is bound as its registration IP asks, if a proxy is on offer, alike in both
      copies; an item without a key, or for an unknown platform, changes nothing. */
  lemma UploadBinds(st: State, slug: string, item: UploadItem, quota: Option<int>, concurrency: nat, now: int)
      returns (c: int)
    requires WellFormed(st.db) && InKeyOrder(st.db.links)
    ensures var st' := Apply(st, Upload(slug, item, quota, concurrency), now); var id := st.db.nextAccount;
      if Trim(item.apiKey) != "" && slug in st.db.platforms then
        && id in st'.accounts && id in st'.db.accounts && st'.accounts[id].boundProxy == st'.db.accounts[id].boundProxy
        && (if SomeOffer(st.db, slug)
            then Suits(st.db, slug, item.registrationIp, c) && st'.accounts[id].boundProxy == Some(c)
            else st'.accounts[id].boundProxy == None)
        && st' == st.(accounts := st'.accounts, acctPermits := st'.acctPermits,
                      db := st.db.(accounts := st'.db.accounts, nextAccount := id + 1))
      else st' == st
  {
    c := 0;
    if Trim(item.apiKey) != "" && slug in st.db.platforms {
      var up := Uploaded(st, slug, item, quota, concurrency);
      UploadedIsWellFormed(st, slug, item, quota, concurrency);
      c := BindExactly(up, st.db.nextAccount, item.registrationIp);
      OffersStay(st.db, up.db, slug, item.registrationIp, c);
    }
  }

  lemma UploadedIsWellFormed(st: State, slug: string, item: UploadItem, quota: Option<int>, concurrency: nat)
    requires WellFormed(st.db) && slug in st.db.platforms
    ensures var up := Uploaded(st, slug, item, quota, concurrency); var id := st.db.nextAccount;
      && WellFormed(up.db) && up.db == st.db.(accounts := up.db.accounts, nextAccount := id + 1)
      && up == st.(accounts := up.accounts, acctPermits := up.acctPermits, db := up.db)
      && up.db.accounts == st.db.accounts[id := up.db.accounts[id]] && up.db.accounts[id].boundProxy.None?
      && id in up.accounts && up.accounts[id].boundProxy.None? && up.db.accounts[id].platform == slug
      && id !in st.db.accounts
  {
  }

  /** A new account without a proxy changes no offer, and no load. */
  lemma OffersStay(db: Db, db': Db, slug: string, ip: Option<string>, c: int)
    requires db' == db.(accounts := db'.accounts, nextAccount := db'.nextAccount)
    requires db.nextAccount !in db.accounts && db.nextAccount in db'.accounts
    requires db'.accounts == db.accounts[db.nextAccount := db'.accounts[db.nextAccount]]
    requires db'.accounts[db.nextAccount].boundProxy.None?
    ensures forall p :: OnOffer(db', slug, p) <==> OnOffer(db, slug, p)
    ensures Suits(db', slug, ip, c) <==> Suits(db, slug, ip, c)
  {
    forall p ensures OnOffer(db', slug, p) <==> OnOffer(db, slug, p) {}
    forall p ensures Carried(db', p) == Carried(db, p) {
      assert (set a | a in db'.accounts && db'.accounts[a].boundProxy == Some(p))
          == (set a | a in db.accounts && db.accounts[a].boundProxy == Some(p));
    }
  }

  /** A patch takes the values given and keeps the others, in both copies; a binding to a proxy that
      does not exist is refused and changes nothing. */
  lemma PatchTakesValues(st: State, id: int, patch: AccountPatch, now: int)
    ensures var st' := Apply(st, PatchOp(id, patch), now);
      if id in st.db.accounts && patch.boundProxy.Some? && patch.boundProxy.value !in st.db.proxies then st' == st
      else
        && st' == st.(accounts := st'.accounts, db := st.db.(accounts := st'.db.accounts))
        && OtherSlotsKept(st.accounts, st'.accounts, id) && OtherRowsKept(st.db.accounts, st'.db.accounts, id)
        && (id in st.db.accounts ==> st'.db.accounts[id] == st.db.accounts[id].(
              quotaLimit := if patch.quotaLimit.Some? then patch.quotaLimit else st.db.accounts[id].quotaLimit,
              boundProxy := if patch.boundProxy.Some? then patch.boundProxy else st.db.accounts[id].boundProxy,
              registrationIp :=
                if patch.registrationIp.Some? then patch.registrationIp else st.db.accounts[id].registrationIp))
        && (id in st.accounts ==> st'.accounts[id] == st.accounts[id].(
              quotaLimit := if patch.quotaLimit.Some? then patch.quotaLimit else st.accounts[id].quotaLimit,
              boundProxy := if patch.boundProxy.Some? then patch.boundProxy else st.accounts[id].boundProxy))
  {
  }

  /** The log keeps its rows; of what they refer to only `gone` is forgotten. */
  ghost predicate LogsForget(logs: map<int, LogRow>, logs': map<int, LogRow>,
                             token: Option<int>, account: Option<int>)
  {
    && logs'.Keys == logs.Keys
    && forall l :: l in logs ==> logs'[l] == logs[l].(
         token := if token.Some? && logs[l].token == token then None else logs[l].token,
         account := if account.Some? && logs[l].account == account then None else logs[l].account)
  }

  /** A deleted account is gone from both copies, with its permits; the log forgets it. */
  lemma DeletedAccountIsGone(st: State, id: int, now: int)
    ensures var st' := Apply(st, DeleteOp(id), now);
      && st' == st.(accounts := st'.accounts, acctPermits := st'.acctPermits,
                    db := st.db.(accounts := st'.db.accounts, logs := st'.db.logs))
      && st'.accounts == (map a | a in st.accounts && a != id :: st.accounts[a])
      && st'.db.accounts == (map a | a in st.db.accounts && a != id :: st.db.accounts[a])
      && st'.acctPermits == (map a | a in st.acctPermits && a != id :: st.acctPermits[a])
      && LogsForget(st.db.logs, st'.db.logs, None, Some(id))
  {
  }

  // ----- tokens, log, settings -----

  lemma NewTokenIsUnused(st: State, now: int)
    ensures var st' := Apply(st, TokenCreate, now);
      && st' == st.(db := st.db.(tokens := st'.db.tokens, nextToken := st.db.nextToken + 1))
      && st'.db.tokens == st.db.tokens[st.db.nextToken := 0]
  {
  }

  lemma DeletedTokenIsGone(st: State, id: int, now: int)
    ensures var st' := Apply(st, TokenDelete(id), now);
      && st' == st.(db := st.db.(tokens := st'.db.tokens, logs := st'.db.logs))
      && st'.db.tokens == (map t | t in st.db.tokens && t != id :: st.db.tokens[t])
      && LogsForget(st.db.logs, st'.db.logs, Some(id), None)
  {
  }

  lemma CleanupKeepsTheNewest(st: State, oldest: int, now: int)
    ensures var st' := Apply(st, Cleanup(oldest), now);
      && st' == st.(db := st.db.(logs := st'.db.logs))
      && (forall l :: l in st'.db.logs <==> l in st.db.logs && oldest <= l)
      && (forall l :: l in st'.db.logs ==> st'.db.logs[l] == st.db.logs[l])
  {
  }

  /** The next request admitted retries as often as the setting says: a negative one counts as 0,
      and only its lowest 32 bits count. */
  lemma SettingIsRead(w: World, v: int, r: int)
    requires Enabled(Next(w, Operate(SetMaxRetries(v))), EnterPlatform(r))
    ensures var w' := Next(w, Operate(SetMaxRetries(v)));
      && w'.st == w.st.(db := w.st.db.(maxRetries := v))
      && var q := NextReq(w', EnterPlatform(r));
         && q.pc == Choosing && q.retries == 0
         && (v < 0 ==> q.maxRetries == 0) && (0 <= v < 0x1_0000_0000 ==> q.maxRetries == v)
         && (v >= 0 ==> exists k: nat :: v == k * 0x1_0000_0000 + q.maxRetries)
         && q.maxRetries < 0x1_0000_0000
  {
    if v >= 0 { assert v == (v / U32_LIMIT) * 0x1_0000_0000 + v % U32_LIMIT; }
  }

  /** The bind of a probe asks for no exit IP. */
  lemma BindAsksForNoIp(st: State, id: int, now: int) returns (c: int)
    requires WellFormed(st.db) && InKeyOrder(st.db.links)
    ensures var st' := Apply(st, BindOne(id), now);
      if id in st.db.accounts && SomeOffer(st.db, st.db.accounts[id].platform) then
        && Suits(st.db, st.db.accounts[id].platform, None, c)
        && st'.db == st.db.(accounts := st.db.accounts[id := st.db.accounts[id].(boundProxy := Some(c))])
        && st' == st.(db := st'.db,
                      accounts := if id in st.accounts then st.accounts[id := st.accounts[id].(boundProxy := Some(c))]
                                  else st.accounts)
      else st' == st
  {
    c := BindExactly(st, id, None);
  }

  // ----- groups -----

  lemma NewGroupIsFresh(st: State, now: int)
    ensures var st' := Apply(st, GroupCreate, now);
      st' == st.(db := st.db.(groups := st.db.groups + {st.db.nextGroup}, nextGroup := st.db.nextGroup + 1))
  {
  }

  /** The binding is dropped if its proxy is in the group. */
  ghost predicate FreedOf(db: Db, gid: int, row: AccountRow, row': AccountRow) {
    row' == if row.boundProxy.Some? && row.boundProxy.value in db.proxies
               && db.proxies[row.boundProxy.value].group == gid
            then row.(boundProxy := None) else row
  }

  ghost predicate LogFreedOf(db: Db, gid: int, row: LogRow, row': LogRow) {
    row' == if row.proxy.Some? && row.proxy.value in db.proxies && db.proxies[row.proxy.value].group == gid
            then row.(proxy := None) else row
  }

  /** A deleted group takes its proxies with it, in both copies, and its links; accounts and log
      rows in the store forget those proxies; slots in memory keep the ids. */
  lemma DeletedGroupIsGone(st: State, gid: int, now: int)
    ensures var st' := Apply(st, GroupDelete(gid), now);
      && st' == st.(proxies := st'.proxies,
                    db := st.db.(groups := st.db.groups - {gid}, links := st'.db.links, proxies := st'.db.proxies,
                                 accounts := st'.db.accounts, logs := st'.db.logs))
      && st'.proxies == (map p | p in st.proxies && st.proxies[p].group != gid :: st.proxies[p])
      && st'.db.proxies == (map p | p in st.db.proxies && st.db.proxies[p].group != gid :: st.db.proxies[p])
      && (forall l :: l in st'.db.links <==> l in st.db.links && l.1 != gid)
      && st'.db.accounts.Keys == st.db.accounts.Keys && st'.db.logs.Keys == st.db.logs.Keys
      && (forall a :: a in st.db.accounts ==> FreedOf(st.db, gid, st.db.accounts[a], st'.db.accounts[a]))
      && (forall l :: l in st.db.logs ==> LogFreedOf(st.db, gid, st.db.logs[l], st'.db.logs[l]))
  {
    LinksWithoutExact(st.db.links, gid);
    var gone := InGroup(st.db, gid);
    var st' := Apply(st, GroupDelete(gid), now);
    assert st'.db.proxies == st.db.proxies - gone;
  }

  // ----- platforms -----

  /** Without a list of groups a platform's patch can only give it permits, and the first stay. */
  lemma PatchGivesPermits(st: State, slug: string, m: Option<nat>, now: int)
    ensures var st' := Apply(st, PlatformOp(slug, None, m), now);
      st' == st.(platPermits := if m.None? || slug in st.platPermits then st.platPermits
                                else st.platPermits[slug := if m.value < 1 then 1 else m.value])
  {
  }

  /** The links of the platform are replaced by those listed, each once; the other platforms keep
      theirs; nothing changes when one cannot be made. */
  lemma PatchReplacesLinks(st: State, slug: string, gids: seq<int>, m: Option<nat>, now: int)
    ensures var st' := Apply(st, PlatformOp(slug, Some(gids), m), now);
      if gids == [] || (slug in st.db.platforms && forall g :: g in gids ==> g in st.db.groups) then
        && st' == st.(accounts := st'.accounts, platPermits := Apply(st, PlatformOp(slug, None, m), now).platPermits,
                      db := st.db.(links := st'.db.links, accounts := st'.db.accounts))
        && (forall l :: l in st'.db.links <==> if l.0 == slug then l.1 in gids else l in st.db.links)
        && OnlyBindings(st, st'.(platPermits := st.platPermits))
      else st' == st
  {
    if LinksAccepted(st.db, slug, gids) {
      var others := LinksOfOthers(st.db.links, slug);
      LinksOfOthersExact(st.db.links, slug);
      AddLinksExact(others, slug, gids);
      PatchedLinks(st, slug, gids, m);
    }
  }

  lemma PatchedLinks(st: State, slug: string, gids: seq<int>, m: Option<nat>)
    requires LinksAccepted(st.db, slug, gids)
    ensures var st' := PatchPlatform(st, slug, Some(gids), m);
      && st' == st.(accounts := st'.accounts, platPermits := PermitIfSet(st, slug, m).platPermits,
                    db := st.db.(links := AddLinks(LinksOfOthers(st.db.links, slug), slug, gids),
                                 accounts := st'.db.accounts))
      && OnlyBindings(st, st'.(platPermits := st.platPermits))
  {
    var st1 := Relink(st, slug, gids);
    PermitOnly(st1, slug, m);
    var st2 := PermitIfSet(st1, slug, m);
    var ids := UnboundOn(st2.db, slug, st2.db.nextAccount);
    BindEachOnly(st2, ids);
    BindEachLedger(st2, ids);
    BindEachShape(st2, ids);
  }

  lemma {:induction false} BindEachShape(st: State, ids: seq<int>)
    ensures var st' := BindEach(st, ids); st' == st.(accounts := st'.accounts, db := st'.db)
  {
    if ids != [] { BindEachShape(st, ids[..|ids| - 1]); }
  }

  /** Accounts of one platform bound in turn: all get a proxy if one is on offer, else nothing happens. */
  lemma {:induction false} BindEachServes(st: State, ids: seq<int>, slug: string)
    requires WellFormed(st.db)
    requires forall i :: 0 <= i < |ids| ==> ids[i] in st.db.accounts && st.db.accounts[ids[i]].platform == slug
    ensures var st' := BindEach(st, ids);
      && WellFormed(st'.db) && st'.db.proxies == st.db.proxies && st'.db.links == st.db.links
      && OnlyBindings(st, st')
      && (Served(st.db, slug) ==> forall i :: 0 <= i < |ids| ==> BoundAlikeAt(st', ids[i]))
      && (!Served(st.db, slug) ==> st' == st)
  {
    BindEachOnly(st, ids);
    if ids != [] {
      var init, a := ids[..|ids| - 1], ids[|ids| - 1];
      BindEachServes(st, init, slug);
      var mid := BindEach(st, init);
      SameProxiesSameService(st.db, mid.db, slug);
      assert a in mid.db.accounts.Keys && mid.db.accounts[a].platform == st.db.accounts[a].platform;
      BindServes(mid, a, slug);
      assert ids == init + [a];
      if Served(st.db, slug) { OneMoreBound(mid, BindEach(st, ids), init, a); }
    }
  }

  lemma OneMoreBound(mid: State, st': State, init: seq<int>, a: int)
    requires forall i :: 0 <= i < |init| ==> BoundAlikeAt(mid, init[i])
    requires BoundAlikeAt(st', a) && forall b :: BoundAlikeAt(mid, b) ==> BoundAlikeAt(st', b)
    ensures forall i :: 0 <= i < |init| + 1 ==> BoundAlikeAt(st', (init + [a])[i])
  {
  }

  /** Bound in the store, and to the same proxy in memory if it is loaded. */
  ghost predicate BoundAlikeAt(st: State, a: int) {
    a in st.db.accounts && st.db.accounts[a].boundProxy.Some?
    && (a in st.accounts ==> st.accounts[a].boundProxy == st.db.accounts[a].boundProxy)
  }

  lemma BindServes(st: State, a: int, slug: string)
    requires WellFormed(st.db) && a in st.db.accounts && st.db.accounts[a].platform == slug
    ensures var st' := BindAccount(st, a, None);
      && WellFormed(st'.db) && st'.db.proxies == st.db.proxies && st'.db.links == st.db.links
      && (Served(st.db, slug) ==> BoundAlikeAt(st', a) && forall b :: BoundAlikeAt(st, b) ==> BoundAlikeAt(st', b))
      && (!Served(st.db, slug) ==> st' == st)
  {
    ChoiceMeaning(st.db, slug, None);
    BindKeeps(st.db, a, None);
    assert BindAccount(st, a, None).db == BindDb(st.db, a, None);
  }

  /** After its groups have been listed every account of the platform that had no proxy has one,
      alike in both copies, if one is on offer then; else it has none. */
  lemma PatchBindsTheUnbound(st: State, slug: string, gids: seq<int>, m: Option<nat>, a: int)
    requires Mirrored(st) && a in st.db.accounts
    requires gids == [] || (slug in st.db.platforms && forall g :: g in gids ==> g in st.db.groups)
    requires st.db.accounts[a].platform == slug && st.db.accounts[a].boundProxy.None?
    ensures var st' := PatchPlatform(st, slug, Some(gids), m);
      if SomeOffer(st'.db, slug) then BoundAlikeAt(st', a)
      else a in st'.db.accounts && st'.db.accounts[a].boundProxy.None?
  {
    var st2 := RelinkedWithPermit(st, slug, gids, m);
    UnboundAreServed(st2, slug, a);
  }

  lemma RelinkedWithPermit(st: State, slug: string, gids: seq<int>, m: Option<nat>) returns (st': State)
    requires Mirrored(st) && LinksAccepted(st.db, slug, gids)
    ensures WellFormed(st'.db) && st'.db.accounts == st.db.accounts
    ensures PatchPlatform(st, slug, Some(gids), m) == BindUnbound(st', slug)
  {
    var st1 := Relink(st, slug, gids);
    RelinkMirrors(st, slug, gids);
    PermitOnly(st1, slug, m);
    st' := PermitIfSet(st1, slug, m);
  }

  lemma UnboundAreServed(st: State, slug: string, a: int)
    requires WellFormed(st.db) && a in st.db.accounts && st.db.accounts[a].platform == slug
    requires st.db.accounts[a].boundProxy.None?
    ensures var st' := BindUnbound(st, slug);
      if SomeOffer(st'.db, slug) then BoundAlikeAt(st', a)
      else a in st'.db.accounts && st'.db.accounts[a].boundProxy.None?
  {
    var ids := UnboundOn(st.db, slug, st.db.nextAccount);
    assert a in ids;
    assert forall i :: 0 <= i < |ids| ==> ids[i] in ids;
    BindEachServes(st, ids, slug);
    var st' := BindEach(st, ids);
    SameProxiesSameService(st.db, st'.db, slug);
    ServedIffOffer(st'.db, slug);
  }
}
