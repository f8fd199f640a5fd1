/** The order in which a platform's groups are tried: ascending ids, on every run, so that an
    account goes to the lowest-numbered group that can serve it. */
module LinkOrder {
  import opened Wrappers
  import opened Database
  import opened PoolState
  import opened Binding
  import opened Sync
  import opened Admin
  import opened Copies
  import opened Forwarding
  import opened Engine
  import opened CopyRuns
  import opened Conservation

  ghost predicate Ascending(s: seq<int>) {
    forall i, j :: 0 <= i < j < |s| ==> s[i] < s[j]
  }

  /** What the primary key makes of the link table. */
  ghost predicate InKeyOrder(links: seq<(string, int)>) {
    forall slug :: Ascending(GroupsOf(links, slug))
  }

  /** A smaller element in front. */
  lemma AscendsWith(x: int, s: seq<int>)
    requires Ascending(s) && forall y :: y in s ==> x < y
    ensures Ascending([x] + s)
  {
    var all := [x] + s;
    forall i, j | 0 <= i < j < |all| ensures all[i] < all[j] {
      assert all[j] == s[j - 1] && s[j - 1] in s;
      if i > 0 { assert all[i] == s[i - 1]; }
    }
  }

  lemma AscendsFrom(x: int, s: seq<int>)
    requires Ascending([x] + s)
    ensures Ascending(s) && forall y :: y in s ==> x < y
  {
    var all := [x] + s;
    forall i | 0 <= i < |s| ensures s[i] == all[i + 1] && x < s[i] { assert all[0] < all[i + 1]; }
  }

  lemma {:induction false} InsertedGroups(links: seq<(string, int)>, slug: string, gid: int, other: string)
    requires Ascending(GroupsOf(links, other))
    ensures Ascending(GroupsOf(InsertLink(links, slug, gid), other))
  {
    if links != [] {
      var rest := links[1..];
      if links[0] == (slug, gid) {
      } else if links[0].0 == slug && gid < links[0].1 {
        assert ([(slug, gid)] + links)[1..] == links;
        if slug == other {
          AscendsFrom(links[0].1, GroupsOf(rest, other));
          AscendsWith(gid, GroupsOf(links, other));
        }
      } else {
        var grown := InsertLink(rest, slug, gid);
        assert ([links[0]] + grown)[1..] == grown;
        assert [] + GroupsOf(rest, other) == GroupsOf(rest, other)
          && [] + GroupsOf(grown, other) == GroupsOf(grown, other);
        if links[0].0 == other { AscendsFrom(links[0].1, GroupsOf(rest, other)); }
        InsertedGroups(rest, slug, gid, other);
        if links[0].0 == other {
          GroupsExact(rest, other);
          InsertLinkExact(rest, slug, gid);
          GroupsExact(grown, other);
          AscendsWith(links[0].1, GroupsOf(grown, other));
        }
      }
    }
  }

  lemma {:induction false} AddedGroups(links: seq<(string, int)>, slug: string, gids: seq<int>, other: string)
    requires Ascending(GroupsOf(links, other))
    ensures Ascending(GroupsOf(AddLinks(links, slug, gids), other))
  {
    if gids != [] {
      AddedGroups(links, slug, gids[..|gids| - 1], other);
      InsertedGroups(AddLinks(links, slug, gids[..|gids| - 1]), slug, gids[|gids| - 1], other);
    }
  }

  lemma {:induction false} OthersGroups(links: seq<(string, int)>, slug: string, other: string)
    ensures GroupsOf(LinksOfOthers(links, slug), other) == if slug == other then [] else GroupsOf(links, other)
  {
    if links != [] {
      OthersGroups(links[1..], slug, other);
      var rest := LinksOfOthers(links[1..], slug);
      assert ([links[0]] + rest)[1..] == rest;
      assert [] + rest == rest;
    }
  }

  lemma {:induction false} RemainingGroups(links: seq<(string, int)>, gid: int, slug: string)
    requires Ascending(GroupsOf(links, slug))
    ensures Ascending(GroupsOf(LinksWithout(links, gid), slug))
  {
    if links != [] {
      var rest, kept := links[1..], LinksWithout(links[1..], gid);
      assert ([links[0]] + kept)[1..] == kept && [] + kept == kept;
      assert [] + GroupsOf(rest, slug) == GroupsOf(rest, slug) && [] + GroupsOf(kept, slug) == GroupsOf(kept, slug);
      if links[0].0 == slug { AscendsFrom(links[0].1, GroupsOf(rest, slug)); }
      RemainingGroups(rest, gid, slug);
      if links[0].0 == slug && links[0].1 != gid {
        GroupsExact(rest, slug);
        LinksWithoutExact(rest, gid);
        GroupsExact(kept, slug);
        AscendsWith(links[0].1, GroupsOf(kept, slug));
      }
    }
  }

  // ----- every operation and every run -----

  lemma PatchPlatformOrder(st: State, slug: string, gids: Option<seq<int>>, m: Option<nat>)
    requires InKeyOrder(st.db.links)
    ensures InKeyOrder(PatchPlatform(st, slug, gids, m).db.links)
  {
    if gids.Some? && LinksAccepted(st.db, slug, gids.value) {
      var others := LinksOfOthers(st.db.links, slug);
      forall s ensures Ascending(GroupsOf(AddLinks(others, slug, gids.value), s)) {
        OthersGroups(st.db.links, slug, s);
        AddedGroups(others, slug, gids.value, s);
      }
      var st1 := Relink(st, slug, gids.value);
      PermitOnly(st1, slug, m);
      var st2 := PermitIfSet(st1, slug, m);
      BindEachLedger(st2, UnboundOn(st2.db, slug, st2.db.nextAccount));
    } else {
      PermitOnly(st, slug, m);
    }
  }

  lemma ApplyOrder(st: State, op: Op, now: int)
    requires InKeyOrder(st.db.links)
    ensures InKeyOrder(Apply(st, op, now).db.links)
  {
    match op
    case PlatformOp(slug, gids, m) => PatchPlatformOrder(st, slug, gids, m);
    case GroupDelete(gid) =>
      forall s ensures Ascending(GroupsOf(LinksWithout(st.db.links, gid), s)) { RemainingGroups(st.db.links, gid, s); }
    case _ => LinksStay(st, op, now);
  }

  lemma LinksStay(st: State, op: Op, now: int)
    requires !op.PlatformOp? && !op.GroupDelete?
    ensures Apply(st, op, now).db.links == st.db.links
  {
    match op
    case BindOne(id) => BindKeepsRows(st, id, None);
    case Upload(slug, item, quota, c) => UploadKeepsLinks(st, slug, item, quota, c);
    case SyncOp(gid, subscription) => SyncKeepsLinks(st, gid, subscription);
    case _ =>
  }

  lemma UploadKeepsLinks(st: State, slug: string, item: UploadItem, quota: Option<int>, c: nat)
    ensures UploadOne(st, slug, item, quota, c).db.links == st.db.links
  {
    BindKeepsRows(Uploaded(st, slug, item, quota, c), st.db.nextAccount, item.registrationIp);
  }

  lemma SyncKeepsLinks(st: State, gid: int, subscription: Option<seq<SubProxy>>)
    ensures SyncGroup(st, gid, subscription).db.links == st.db.links
  {
    if gid in st.db.groups && subscription.Some? {
      UpsertAllOnly(st.db, gid, subscription.value);
      var st1 := Reload(st.(db := Reconcile(st.db, gid, subscription.value)), gid);
      RebindAllLedger(st1, NullAccounts(st1.db, gid, st1.db.nextAccount));
    }
  }

  lemma EffectKeepsLinks(st: State, e: Effect, now: int)
    ensures Perform(st, e, now).db.links == st.db.links
  {
    if e.RebindAccount? { BindKeepsRows(st, e.acct, None); }
  }

  lemma StepKeepsOrder(w: World, ev: Event)
    requires Enabled(w, ev) && InKeyOrder(w.st.db.links)
    ensures InKeyOrder(Next(w, ev).st.db.links)
  {
    match ev
    case Operate(op) => ApplyOrder(w.st, op, w.now);
    case DoEffect(r) => EffectKeepsLinks(w.st, w.reqs[r].pc.todo[0], w.now);
    case _ => assert Next(w, ev).st.db == w.st.db;
  }

  lemma {:induction false} RunKeepsOrder(w: World, evs: seq<Event>)
    requires InKeyOrder(w.st.db.links) && Runnable(w, evs)
    ensures InKeyOrder(Run(w, evs).st.db.links)
    decreases evs
  {
    if evs != [] {
      StepKeepsOrder(w, evs[0]);
      RunKeepsOrder(Next(w, evs[0]), evs[1..]);
    }
  }

  /** No proxy of a linked group with a lower id is available. */
  ghost predicate LowestServing(db: Db, slug: string, gid: int) {
    Linked(db, slug, gid) && forall g, p :: Linked(db, slug, g) && g < gid ==> !Usable(db, g, p)
  }

  lemma ChoiceInLowestGroup(db: Db, slug: string)
    requires WellFormed(db) && InKeyOrder(db.links) && Served(db, slug)
    ensures var c := ChooseProxy(db, slug, None);
      c.Some? && c.value in db.proxies && LowestServing(db, slug, db.proxies[c.value].group)
  {
    var groups := GroupsOf(db.links, slug);
    var k := ChoiceInFirstServed(db, slug);
    GroupsExact(db.links, slug);
    forall g, p | Linked(db, slug, g) && g < groups[k] ensures !Usable(db, g, p) {
      var j :| 0 <= j < |groups| && groups[j] == g;
      assert j < k;
    }
  }

  /** On every run from start-up over a store as the schema keeps it, an account without a
      registration IP is bound within the lowest-numbered linked group that has an available proxy. */
  lemma LowestGroupOnEveryRun(db: Db, decrypt: string -> Option<string>, most: string -> nat, now: int, evs: seq<Event>,
                              slug: string)
    requires WellFormed(db) && InKeyOrder(db.links) && Runnable(Boot(db, decrypt, most, now), evs)
    ensures var db' := Run(Boot(db, decrypt, most, now), evs).st.db; var c := ChooseProxy(db', slug, None);
      && (c.Some? <==> Served(db', slug))
      && (c.Some? ==> c.value in db'.proxies && LowestServing(db', slug, db'.proxies[c.value].group))
  {
    var w := Boot(db, decrypt, most, now);
    LoadMirrors(db, decrypt);
    assert w.st == LoadAll(db, decrypt).(platPermits := w.st.platPermits);
    RunMirrors(w, evs);
    RunKeepsOrder(w, evs);
    var db' := Run(w, evs).st.db;
    ChoiceMeaning(db', slug, None);
    if Served(db', slug) { ChoiceInLowestGroup(db', slug); }
  }
}
