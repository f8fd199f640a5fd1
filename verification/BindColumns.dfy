/** Which proxy an account is bound to, said with the columns and the ids alone. */
module BindColumns {
  import opened Wrappers
  import opened Counting
  import opened Database
  import opened PoolState
  import opened Binding
  import opened LinkOrder

  /** How many accounts the store binds to the proxy. */
  ghost function Carried(db: Db, p: int): int {
    |set a | a in db.accounts && db.accounts[a].boundProxy == Some(p)|
  }

  /** In a lower group, or in the same group less loaded, or as much loaded with a lower id. */
  ghost predicate Preferred(db: Db, c: int, p: int)
    requires c in db.proxies && p in db.proxies
  {
    || db.proxies[c].group < db.proxies[p].group
    || (db.proxies[c].group == db.proxies[p].group
        && (Carried(db, c) < Carried(db, p) || (Carried(db, c) == Carried(db, p) && c <= p)))
  }

  /** In a lower group, or in the same group with a lower id. */
  ghost predicate Earlier(db: Db, c: int, p: int)
    requires c in db.proxies && p in db.proxies
  {
    db.proxies[c].group < db.proxies[p].group || (db.proxies[c].group == db.proxies[p].group && c <= p)
  }

  /** The registration IP decides if some proxy on offer has it as its exit IP; otherwise groups,
      loads and ids do. */
  ghost predicate Suits(db: Db, slug: string, ip: Option<string>, c: int) {
    && OnOffer(db, slug, c)
    && if ip.Some? && exists p :: OnOffer(db, slug, p) && db.proxies[p].exitIp == ip
       then db.proxies[c].exitIp == ip
            && forall p :: OnOffer(db, slug, p) && db.proxies[p].exitIp == ip ==> Earlier(db, c, p)
       else forall p :: OnOffer(db, slug, p) ==> Preferred(db, c, p)
  }

  lemma CarriedIsLoad(db: Db, p: int)
    ensures Carried(db, p) == Load(db, p)
  {
    assert (set a | a in db.accounts && db.accounts[a].boundProxy == Some(p)) == Where(db.accounts, BoundTo(p));
  }

  lemma {:induction false} ExitMatchLowest(db: Db, gid: int, ip: string, hi: int)
    ensures var r := ExitMatch(db, gid, ip, hi);
      r.Some? ==> forall p :: 1 <= p < hi && Usable(db, gid, p) && db.proxies[p].exitIp == Some(ip) ==> r.value <= p
    ensures var r := ExitMatch(db, gid, ip, hi); r.Some? ==> r.value < hi
    decreases hi
  {
    if hi > 1 { ExitMatchLowest(db, gid, ip, hi - 1); }
  }

  /** The match is in the first of the groups that has one, at position `k`. */
  lemma {:induction false} FirstMatchAt(db: Db, groups: seq<int>, ip: string) returns (k: nat)
    requires WellFormed(db)
    ensures var r := FirstMatch(db, groups, ip);
      r.Some? ==>
        && k < |groups| && Usable(db, groups[k], r.value) && db.proxies[r.value].exitIp == Some(ip)
        && (forall j, p :: 0 <= j < k && Usable(db, groups[j], p) ==> db.proxies[p].exitIp != Some(ip))
        && (forall p :: Usable(db, groups[k], p) && db.proxies[p].exitIp == Some(ip) ==> r.value <= p)
  {
    k := 0;
    if groups != [] {
      ExitMatchLowest(db, groups[0], ip, db.nextProxy);
      if ExitMatch(db, groups[0], ip, db.nextProxy).None? {
        var j := FirstMatchAt(db, groups[1..], ip);
        k := j + 1;
      }
    }
  }

  /** Of groups in ascending order the one at `k` is the lowest that counts. */
  lemma PositionOf(db: Db, slug: string, p: int) returns (j: nat)
    requires OnOffer(db, slug, p)
    ensures j < |GroupsOf(db.links, slug)| && GroupsOf(db.links, slug)[j] == db.proxies[p].group
    ensures Usable(db, db.proxies[p].group, p)
  {
    GroupsExact(db.links, slug);
    assert db.proxies[p].group in GroupsOf(db.links, slug);
    j :| 0 <= j < |GroupsOf(db.links, slug)| && GroupsOf(db.links, slug)[j] == db.proxies[p].group;
  }

  lemma OnOfferIff(db: Db, slug: string, k: nat, p: int)
    requires k < |GroupsOf(db.links, slug)| && Usable(db, GroupsOf(db.links, slug)[k], p)
    ensures OnOffer(db, slug, p)
  {
    GroupsExact(db.links, slug);
    assert GroupsOf(db.links, slug)[k] in GroupsOf(db.links, slug);
  }

  lemma MatchIsChosen(db: Db, slug: string, ip: string)
    requires WellFormed(db) && InKeyOrder(db.links)
    ensures var r := FirstMatch(db, GroupsOf(db.links, slug), ip);
      && (r.Some? <==> exists p :: OnOffer(db, slug, p) && db.proxies[p].exitIp == Some(ip))
      && (r.Some? ==> Suits(db, slug, Some(ip), r.value))
  {
    var groups := GroupsOf(db.links, slug);
    var r := FirstMatch(db, groups, ip);
    FirstMatchExact(db, groups, ip);
    var k := FirstMatchAt(db, groups, ip);
    forall p | OnOffer(db, slug, p) && db.proxies[p].exitIp == Some(ip)
      ensures r.Some? && Earlier(db, r.value, p)
    {
      var j := PositionOf(db, slug, p);
      assert groups[j] in groups;
    }
    if r.Some? { OnOfferIff(db, slug, k, r.value); }
  }

  lemma LeastIsChosen(db: Db, slug: string, ip: Option<string>)
    requires WellFormed(db) && InKeyOrder(db.links)
    requires ip.Some? ==> forall p :: OnOffer(db, slug, p) ==> db.proxies[p].exitIp != ip
    ensures var r := FirstLeast(db, GroupsOf(db.links, slug));
      && (r.Some? <==> SomeOffer(db, slug))
      && (r.Some? ==> Suits(db, slug, ip, r.value))
  {
    var groups := GroupsOf(db.links, slug);
    var r := FirstLeast(db, groups);
    var k := FirstLeastExact(db, groups);
    forall p | OnOffer(db, slug, p) ensures r.Some? && Preferred(db, r.value, p) {
      var j := PositionOf(db, slug, p);
      assert groups[j] in groups;
      CarriedIsLoad(db, p);
      CarriedIsLoad(db, r.value);
    }
    if r.Some? { OnOfferIff(db, slug, k, r.value); }
  }

  /** What is chosen, and when nothing is. */
  lemma ChoiceExactly(db: Db, slug: string, ip: Option<string>)
    requires WellFormed(db) && InKeyOrder(db.links)
    ensures var r := ChooseProxy(db, slug, ip);
      && (r.Some? <==> SomeOffer(db, slug))
      && (r.Some? ==> Suits(db, slug, ip, r.value))
  {
    if ip.Some? { MatchIsChosen(db, slug, ip.value); }
    if !(ip.Some? && FirstMatch(db, GroupsOf(db.links, slug), ip.value).Some?) { LeastIsChosen(db, slug, ip); }
  }

  /** Binding an account writes the choice to its row and to its slot, if it is loaded, and changes
      nothing else; without a proxy on offer it changes nothing at all. */
  lemma BindExactly(st: State, a: int, ip: Option<string>) returns (c: int)
    requires WellFormed(st.db) && InKeyOrder(st.db.links)
    ensures var st' := BindAccount(st, a, ip);
      if a in st.db.accounts && SomeOffer(st.db, st.db.accounts[a].platform) then
        && Suits(st.db, st.db.accounts[a].platform, ip, c)
        && st'.db == st.db.(accounts := st.db.accounts[a := st.db.accounts[a].(boundProxy := Some(c))])
        && st' == st.(db := st'.db,
                      accounts := if a in st.accounts then st.accounts[a := st.accounts[a].(boundProxy := Some(c))]
                                  else st.accounts)
      else st' == st
  {
    c := 0;
    if a in st.db.accounts {
      var slug := st.db.accounts[a].platform;
      ChoiceExactly(st.db, slug, ip);
      if ChooseProxy(st.db, slug, ip).Some? { c := ChooseProxy(st.db, slug, ip).value; }
    }
  }
}
