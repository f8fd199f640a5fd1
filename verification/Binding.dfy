/** Giving an account a proxy: first the one whose exit IP is the account's registration IP,
    otherwise the least-loaded available proxy of the first linked group that has one. */
module Binding {
  import opened Wrappers
  import opened Counting
  import opened Database
  import opened PoolState

  /** The groups linked to a platform, in row order. */
  function GroupsOf(links: seq<(string, int)>, slug: string): seq<int> {
    if links == [] then []
    else (if links[0].0 == slug then [links[0].1] else []) + GroupsOf(links[1..], slug)
  }

  predicate Usable(db: Db, gid: int, p: int) {
    p in db.proxies && db.proxies[p].group == gid && db.proxies[p].status == Available
  }

  /** `... AND exit_ip=? AND status='available' LIMIT 1` among the ids below `hi`. */
  function ExitMatch(db: Db, gid: int, ip: string, hi: int): (r: Option<int>)
    ensures r.Some? ==> Usable(db, gid, r.value) && db.proxies[r.value].exitIp == Some(ip)
    ensures r.None? ==> forall p :: 1 <= p < hi && Usable(db, gid, p) ==> db.proxies[p].exitIp != Some(ip)
    decreases hi
  {
    if hi <= 1 then None
    else
      var r := ExitMatch(db, gid, ip, hi - 1);
      if r.None? && Usable(db, gid, hi - 1) && db.proxies[hi - 1].exitIp == Some(ip) then Some(hi - 1) else r
  }

  /** `... GROUP BY p.id ORDER BY COUNT(a.id) ASC LIMIT 1` among the ids below `hi`:
      of equally loaded proxies, the lowest id. */
  function LeastLoaded(db: Db, gid: int, hi: int): (r: Option<int>)
    ensures r.Some? ==>
      && 1 <= r.value < hi && Usable(db, gid, r.value)
      && forall p :: 1 <= p < hi && Usable(db, gid, p) ==>
           Load(db, r.value) < Load(db, p) || (Load(db, r.value) == Load(db, p) && r.value <= p)
    ensures r.None? ==> forall p :: 1 <= p < hi ==> !Usable(db, gid, p)
    decreases hi
  {
    if hi <= 1 then None
    else
      var r := LeastLoaded(db, gid, hi - 1);
      if Usable(db, gid, hi - 1) && (r.None? || Load(db, hi - 1) < Load(db, r.value))
      then Some(hi - 1) else r
  }

  function FirstMatch(db: Db, groups: seq<int>, ip: string): Option<int> {
    if groups == [] then None
    else
      var r := ExitMatch(db, groups[0], ip, db.nextProxy);
      if r.Some? then r else FirstMatch(db, groups[1..], ip)
  }

  function FirstLeast(db: Db, groups: seq<int>): Option<int> {
    if groups == [] then None
    else
      var r := LeastLoaded(db, groups[0], db.nextProxy);
      if r.Some? then r else FirstLeast(db, groups[1..])
  }

  function ChooseProxy(db: Db, slug: string, registrationIp: Option<string>): Option<int> {
    var groups := GroupsOf(db.links, slug);
    var matched := if registrationIp.Some? then FirstMatch(db, groups, registrationIp.value) else None;
    if matched.Some? then matched else FirstLeast(db, groups)
  }

  function BindDb(db: Db, id: int, registrationIp: Option<string>): Db {
    if id !in db.accounts then db
    else
      match ChooseProxy(db, db.accounts[id].platform, registrationIp)
      case None => db
      case Some(pid) => SetBinding(db, id, pid)
  }

  function BindAccount(st: State, id: int, registrationIp: Option<string>): State {
    if id !in st.db.accounts then st
    else
      match ChooseProxy(st.db, st.db.accounts[id].platform, registrationIp)
      case None => st
      case Some(pid) =>
        st.(db := SetBinding(st.db, id, pid),
            accounts := if id in st.accounts
                        then st.accounts[id := st.accounts[id].(boundProxy := Some(pid))] else st.accounts)
  }

  /** The first loop: the registration IP, group by group. */
  method FindMatch(db: Db, groups: seq<int>, ip: string) returns (choice: Option<int>)
    ensures choice == FirstMatch(db, groups, ip)
  {
    choice := None;
    var i := 0;
    while i < |groups| && choice.None?
      invariant 0 <= i <= |groups|
      invariant FirstMatch(db, groups, ip) == if choice.Some? then choice else FirstMatch(db, groups[i..], ip)
      decreases |groups| - i
    {
      choice := ExitMatch(db, groups[i], ip, db.nextProxy);
      i := i + 1;
    }
  }

  /** The second loop: the least-loaded, group by group. */
  method FindLeast(db: Db, groups: seq<int>) returns (choice: Option<int>)
    ensures choice == FirstLeast(db, groups)
  {
    choice := None;
    var i := 0;
    while i < |groups| && choice.None?
      invariant 0 <= i <= |groups|
      invariant FirstLeast(db, groups) == if choice.Some? then choice else FirstLeast(db, groups[i..])
      decreases |groups| - i
    {
      choice := LeastLoaded(db, groups[i], db.nextProxy);
      i := i + 1;
    }
  }

  method Bind(pools: Pools, id: int, registrationIp: Option<string>)
    modifies pools`db, pools`accounts
    ensures pools.View() == BindAccount(old(pools.View()), id, registrationIp)
  {
    if id !in pools.db.accounts { return; }
    var slug := pools.db.accounts[id].platform;
    var groups := GroupsOf(pools.db.links, slug);
    if groups == [] { return; }
    var choice: Option<int> := None;
    if registrationIp.Some? { choice := FindMatch(pools.db, groups, registrationIp.value); }
    if choice.None? { choice := FindLeast(pools.db, groups); }
    if choice.Some? {
      pools.db := SetBinding(pools.db, id, choice.value);
      if id in pools.accounts {
        pools.accounts := pools.accounts[id := pools.accounts[id].(boundProxy := choice)];
      }
    }
  }

  // ----- what a choice is -----

  ghost predicate Linked(db: Db, slug: string, gid: int) {
    (slug, gid) in db.links
  }

  /** Some available proxy is in a group linked to the platform. */
  ghost predicate Served(db: Db, slug: string) {
    exists gid, p :: Linked(db, slug, gid) && Usable(db, gid, p)
  }

  /** An available proxy in a group linked to the platform. */
  ghost predicate OnOffer(db: Db, slug: string, p: int) {
    p in db.proxies && db.proxies[p].status == Available && (slug, db.proxies[p].group) in db.links
  }

  ghost predicate SomeOffer(db: Db, slug: string) { exists p :: OnOffer(db, slug, p) }

  lemma ServedIffOffer(db: Db, slug: string)
    ensures Served(db, slug) <==> SomeOffer(db, slug)
  {
    if Served(db, slug) {
      var g, p :| Linked(db, slug, g) && Usable(db, g, p);
      assert OnOffer(db, slug, p);
    }
    if p :| OnOffer(db, slug, p) {
      assert Linked(db, slug, db.proxies[p].group) && Usable(db, db.proxies[p].group, p);
    }
  }

  lemma {:induction false} GroupsExact(links: seq<(string, int)>, slug: string)
    ensures forall g :: g in GroupsOf(links, slug) <==> (slug, g) in links
  {
    if links != [] {
      GroupsExact(links[1..], slug);
      assert links == [links[0]] + links[1..];
    }
  }

  lemma {:induction false} FirstMatchExact(db: Db, groups: seq<int>, ip: string)
    requires WellFormed(db)
    ensures var r := FirstMatch(db, groups, ip);
      && (r.Some? ==>
            && r.value in db.proxies && db.proxies[r.value].group in groups
            && db.proxies[r.value].status == Available && db.proxies[r.value].exitIp == Some(ip))
      && (r.None? ==> forall g, p :: g in groups && Usable(db, g, p) ==> db.proxies[p].exitIp != Some(ip))
  {
    if groups != [] {
      FirstMatchExact(db, groups[1..], ip);
      assert groups == [groups[0]] + groups[1..];
    }
  }

  /** No available proxy of the group carries fewer accounts, nor as many under a lower id. */
  ghost predicate LeastIn(db: Db, gid: int, c: int) {
    forall p :: Usable(db, gid, p) ==> Load(db, c) < Load(db, p) || (Load(db, c) == Load(db, p) && c <= p)
  }

  /** The chosen group is the first with an available proxy, at position `k`. */
  lemma {:induction false} FirstLeastExact(db: Db, groups: seq<int>) returns (k: nat)
    requires WellFormed(db)
    ensures var r := FirstLeast(db, groups);
      && (r.Some? ==>
            && k < |groups| && Usable(db, groups[k], r.value)
            && (forall j, p :: 0 <= j < k ==> !Usable(db, groups[j], p))
            && LeastIn(db, groups[k], r.value))
      && (r.None? ==> forall g, p :: g in groups ==> !Usable(db, g, p))
  {
    k := 0;
    if groups != [] && LeastLoaded(db, groups[0], db.nextProxy).None? {
      var j := FirstLeastExact(db, groups[1..]);
      k := j + 1;
      assert groups == [groups[0]] + groups[1..];
    }
  }

  /** A choice is an available proxy of a linked group, and there is one exactly when the
      platform is served; it has the registration IP as its exit IP whenever such a proxy
      exists; otherwise no available proxy of its group carries fewer accounts. */
  lemma ChoiceMeaning(db: Db, slug: string, registrationIp: Option<string>)
    requires WellFormed(db)
    ensures var r := ChooseProxy(db, slug, registrationIp);
      && (r.Some? <==> Served(db, slug))
      && (r.Some? ==>
            && r.value in db.proxies && Linked(db, slug, db.proxies[r.value].group)
            && db.proxies[r.value].status == Available)
      && (r.Some? && registrationIp.Some? ==>
            ((exists g, p :: Linked(db, slug, g) && Usable(db, g, p) && db.proxies[p].exitIp == registrationIp)
             <==> db.proxies[r.value].exitIp == registrationIp))
      && (r.Some? && (registrationIp.None? || db.proxies[r.value].exitIp != registrationIp) ==>
            forall p :: Usable(db, db.proxies[r.value].group, p) ==> Load(db, r.value) <= Load(db, p))
  {
    var groups := GroupsOf(db.links, slug);
    GroupsExact(db.links, slug);
    if registrationIp.Some? { FirstMatchExact(db, groups, registrationIp.value); }
    var k := FirstLeastExact(db, groups);
    var r := ChooseProxy(db, slug, registrationIp);
    if r.Some? {
      assert Linked(db, slug, db.proxies[r.value].group) && Usable(db, db.proxies[r.value].group, r.value);
    }
  }

  // ----- loads -----

  /** Binding moves one account: its old proxy loses one, its new one gains one. */
  lemma LoadAfterBinding(db: Db, id: int, pid: int, q: int)
    requires id in db.accounts
    ensures Load(SetBinding(db, id, pid), q)
         == Load(db, q) - Bit(db.accounts[id].boundProxy == Some(q)) + Bit(pid == q)
  {
    CountUpdate(db.accounts, id, db.accounts[id].(boundProxy := Some(pid)), BoundTo(q));
  }

  /** No two available proxies of the group differ by more than `gap`. */
  ghost predicate Balanced(db: Db, gid: int, gap: int) {
    forall p, q :: Usable(db, gid, p) && Usable(db, gid, q) ==> Load(db, p) - Load(db, q) <= gap
  }

  function BindAll(db: Db, ids: seq<int>): Db
    decreases ids
  {
    if ids == [] then db else BindAll(BindDb(db, ids[0], None), ids[1..])
  }

  lemma BindKeeps(db: Db, id: int, registrationIp: Option<string>)
    requires WellFormed(db)
    ensures var db' := BindDb(db, id, registrationIp);
      && WellFormed(db')
      && db'.proxies == db.proxies && db'.links == db.links && db'.nextProxy == db.nextProxy
      && db'.accounts.Keys == db.accounts.Keys
      && (forall a :: a in db.accounts && a != id ==> db'.accounts[a] == db.accounts[a])
      && (id in db.accounts ==> db'.accounts[id] == db.accounts[id].(boundProxy := db'.accounts[id].boundProxy))
      && (id in db.accounts ==>
            db'.accounts[id].boundProxy
            == if Served(db, db.accounts[id].platform)
               then ChooseProxy(db, db.accounts[id].platform, registrationIp) else db.accounts[id].boundProxy)
  {
    if id in db.accounts { ChoiceMeaning(db, db.accounts[id].platform, registrationIp); }
  }

  /** One bind of an unbound account never widens any group's gap beyond 1. */
  lemma BindBalanced(db: Db, id: int, gid: int, gap: int)
    requires WellFormed(db) && 1 <= gap && Balanced(db, gid, gap)
    requires id in db.accounts && db.accounts[id].boundProxy == None
    ensures Balanced(BindDb(db, id, None), gid, gap)
  {
    var slug := db.accounts[id].platform;
    ChoiceMeaning(db, slug, None);
    var c := ChooseProxy(db, slug, None);
    if c.Some? {
      var db' := SetBinding(db, id, c.value);
      forall p, q | Usable(db', gid, p) && Usable(db', gid, q)
        ensures Load(db', p) - Load(db', q) <= gap
      {
        assert Usable(db, gid, p) && Usable(db, gid, q);
        LoadAfterBinding(db, id, c.value, p);
        LoadAfterBinding(db, id, c.value, q);
      }
    }
  }

  /** In any sequence of binds of unbound accounts without a registration IP, the gap of every
      group stays within the larger of its initial gap and 1. */
  lemma {:induction false} BindAllBalanced(db: Db, ids: seq<int>, gid: int, gap: int)
    requires WellFormed(db) && 1 <= gap && Balanced(db, gid, gap)
    requires forall i :: 0 <= i < |ids| ==> ids[i] in db.accounts && db.accounts[ids[i]].boundProxy == None
    requires forall i, j :: 0 <= i < j < |ids| ==> ids[i] != ids[j]
    ensures Balanced(BindAll(db, ids), gid, gap)
    decreases ids
  {
    if ids != [] {
      BindBalanced(db, ids[0], gid, gap);
      BindKeeps(db, ids[0], None);
      BindAllBalanced(BindDb(db, ids[0], None), ids[1..], gid, gap);
    }
  }

  /** How many accounts the available proxies of a group carry together, up to id `hi`. */
  function TotalLoad(db: Db, gid: int, hi: int): nat
    decreases hi
  {
    if hi <= 1 then 0
    else TotalLoad(db, gid, hi - 1) + (if Usable(db, gid, hi - 1) then Load(db, hi - 1) else 0)
  }

  lemma {:induction false} TotalAfterBinding(db: Db, id: int, pid: int, gid: int, hi: int)
    requires id in db.accounts && db.accounts[id].boundProxy.Some?
    requires Usable(db, gid, db.accounts[id].boundProxy.value) && Usable(db, gid, pid)
    requires 1 <= db.accounts[id].boundProxy.value && 1 <= pid
    ensures TotalLoad(SetBinding(db, id, pid), gid, hi)
         == TotalLoad(db, gid, hi) - Bit(db.accounts[id].boundProxy.value < hi) + Bit(pid < hi)
    decreases hi
  {
    if hi > 1 {
      TotalAfterBinding(db, id, pid, gid, hi - 1);
      LoadAfterBinding(db, id, pid, hi - 1);
      assert Usable(SetBinding(db, id, pid), gid, hi - 1) == Usable(db, gid, hi - 1);
    }
  }

  /** Rebinding an account inside its group keeps the group's total (one proxy loses what
      another gains) and lifts no proxy above both the old maximum and the old minimum plus 1. */
  lemma RebindWithinGroup(db: Db, id: int, gid: int, most: int, least: int)
    requires WellFormed(db) && id in db.accounts
    requires db.accounts[id].boundProxy.Some? && Usable(db, gid, db.accounts[id].boundProxy.value)
    requires var c := ChooseProxy(db, db.accounts[id].platform, None);
             c.Some? && Usable(db, gid, c.value)
    requires forall p :: Usable(db, gid, p) ==> least <= Load(db, p) <= most
    requires exists p :: Usable(db, gid, p) && Load(db, p) == least
    ensures var db' := BindDb(db, id, None);
      && (forall p :: Usable(db', gid, p) ==>
            Load(db', p) <= (if most < least + 1 then least + 1 else most))
      && (forall p :: Load(db', p) == Load(db, p)
            - Bit(db.accounts[id].boundProxy == Some(p)) + Bit(db'.accounts[id].boundProxy == Some(p)))
      && TotalLoad(db', gid, db'.nextProxy) == TotalLoad(db, gid, db.nextProxy)
  {
    var slug := db.accounts[id].platform;
    ChoiceMeaning(db, slug, None);
    var c := ChooseProxy(db, slug, None).value;
    var db' := BindDb(db, id, None);
    forall p
      ensures Load(db', p) == Load(db, p) - Bit(db.accounts[id].boundProxy == Some(p)) + Bit(c == p)
    {
      LoadAfterBinding(db, id, c, p);
    }
    assert forall p :: Usable(db', gid, p) ==> Usable(db, gid, p);
    TotalAfterBinding(db, id, c, gid, db.nextProxy);
  }

  // ----- where the code and its comments part -----

  /** The `k`-th linked group has an available proxy and none before it has. */
  ghost predicate FirstServed(db: Db, slug: string, k: int) {
    var groups := GroupsOf(db.links, slug);
    0 <= k < |groups| && (exists p :: Usable(db, groups[k], p))
      && forall j, p :: 0 <= j < k ==> !Usable(db, groups[j], p)
  }

  /** Without a registration IP the choice is the least-loaded proxy of the first group served. */
  lemma ChoiceInFirstServed(db: Db, slug: string) returns (k: nat)
    requires WellFormed(db)
    ensures Served(db, slug) ==>
      && FirstServed(db, slug, k) && ChooseProxy(db, slug, None).Some?
      && var c, g := ChooseProxy(db, slug, None).value, GroupsOf(db.links, slug)[k];
         Usable(db, g, c) && LeastIn(db, g, c)
  {
    ChoiceMeaning(db, slug, None);
    k := FirstLeastExact(db, GroupsOf(db.links, slug));
    if Served(db, slug) {
      assert Usable(db, GroupsOf(db.links, slug)[k], ChooseProxy(db, slug, None).value);
    }
  }

  /** After a network failure the account is bound again, to "another" proxy by the comment.
      It stays on the same one exactly when its platform's groups have no available proxy at all,
      or its proxy is available in the first of them that has, and none there is less loaded, nor
      equally loaded with a lower id. */
  lemma RebindMayStay(db: Db, id: int) returns (k: nat)
    requires WellFormed(db) && id in db.accounts && db.accounts[id].boundProxy.Some?
    ensures var slug, p := db.accounts[id].platform, db.accounts[id].boundProxy.value;
      && (Served(db, slug) ==> FirstServed(db, slug, k))
      && (BindDb(db, id, None).accounts[id].boundProxy == Some(p)
          <==> !Served(db, slug)
               || (Usable(db, GroupsOf(db.links, slug)[k], p) && LeastIn(db, GroupsOf(db.links, slug)[k], p)))
  {
    var slug := db.accounts[id].platform;
    k := ChoiceInFirstServed(db, slug);
    BindKeeps(db, id, None);
  }

  /** No available proxy of a group linked to the platform carries fewer accounts. */
  ghost predicate UnionLeast(db: Db, slug: string, c: int) {
    c in db.proxies && forall g, p :: Linked(db, slug, g) && Usable(db, g, p) ==> Load(db, c) <= Load(db, p)
  }

  /** Every available proxy of group `g` carries at least as many as some available one of `first`. */
  ghost predicate NoIdler(db: Db, first: int, g: int) {
    forall p :: Usable(db, g, p) ==> exists q :: Usable(db, first, q) && Load(db, q) <= Load(db, p)
  }

  /** The comment promises the least-loaded proxy of the union of the linked groups. The code
      delivers it exactly when no group after the first one with an available proxy holds one that
      is less loaded than all of that first group's. */
  lemma UnionLeastIff(db: Db, slug: string) returns (k: nat)
    requires WellFormed(db) && Served(db, slug)
    ensures FirstServed(db, slug, k) && ChooseProxy(db, slug, None).Some?
    ensures UnionLeast(db, slug, ChooseProxy(db, slug, None).value)
       <==> forall j :: k < j < |GroupsOf(db.links, slug)| ==>
              NoIdler(db, GroupsOf(db.links, slug)[k], GroupsOf(db.links, slug)[j])
  {
    var groups := GroupsOf(db.links, slug);
    k := ChoiceInFirstServed(db, slug);
    var c := ChooseProxy(db, slug, None).value;
    LeastOverIff(db, groups, k, c);
    GroupsExact(db.links, slug);
    assert UnionLeast(db, slug, c) <==> LeastOver(db, groups, c) by {
      assert forall g :: Linked(db, slug, g) <==> g in groups;
    }
  }

  ghost predicate LeastOver(db: Db, groups: seq<int>, c: int) {
    forall g, p :: g in groups && Usable(db, g, p) ==> Load(db, c) <= Load(db, p)
  }

  lemma LeastOverIff(db: Db, groups: seq<int>, k: nat, c: int)
    requires k < |groups| && Usable(db, groups[k], c) && LeastIn(db, groups[k], c)
    requires forall j, p :: 0 <= j < k ==> !Usable(db, groups[j], p)
    ensures LeastOver(db, groups, c) <==> forall j :: k < j < |groups| ==> NoIdler(db, groups[k], groups[j])
  {
    if LeastOver(db, groups, c) {
      forall j | k < j < |groups| ensures NoIdler(db, groups[k], groups[j]) { assert groups[j] in groups; }
    }
    if forall j :: k < j < |groups| ==> NoIdler(db, groups[k], groups[j]) {
      forall g, p | g in groups && Usable(db, g, p) ensures Load(db, c) <= Load(db, p) {
        var j :| 0 <= j < |groups| && groups[j] == g;
        assert j > k ==> NoIdler(db, groups[k], groups[j]);
      }
    }
  }

  /** It does not always: with two linked groups the first one wins even when the second holds an
      idle proxy. */
  lemma UnionIsNotSearched()
    ensures exists db: Db, slug: string ::
      && WellFormed(db) && ChooseProxy(db, slug, None) == Some(1)
      && Linked(db, slug, 2) && Usable(db, 2, 2) && Load(db, 2) < Load(db, 1)
  {
    var row := AccountRow("exa", "", None, Some(1), Healthy, None, 0, None, 0);
    var proxy := ProxyRow(1, "a", 1, None, None, None, None, Available);
    var db := Db(map["exa" := None], {1, 2}, 3, [("exa", 1), ("exa", 2)],
                 map[1 := proxy, 2 := proxy.(group := 2)], 3, map[1 := row], 2, map[], 1, map[], 1, 3);
    assert Where(db.accounts, BoundTo(1)) == {1};
    assert Where(db.accounts, BoundTo(2)) == {};
    assert LeastLoaded(db, 1, 1) == None;
    assert LeastLoaded(db, 1, 2) == Some(1);
    assert LeastLoaded(db, 1, 3) == Some(1);
    assert GroupsOf(db.links, "exa")[0] == 1;
    assert ChooseProxy(db, "exa", None) == Some(1);
    assert db.links[1] == ("exa", 2);
    assert WellFormed(db);
  }
}
