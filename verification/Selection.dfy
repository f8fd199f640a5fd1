/** Choosing an account and its proxy on one snapshot of the pools, and saying why none
    could be chosen. */
module Selection {
  import opened Wrappers
  import opened Counting
  import opened Database
  import opened PoolState

  datatype Attempt = Attempt(acct: int, proxy: int, exitIp: Option<string>)

  /** The proxy a slot is bound to, through the memory map. */
  function BoundEntry(st: State, id: int): Option<ProxyEntry> {
    if id in st.accounts && st.accounts[id].boundProxy.Some? && st.accounts[id].boundProxy.value in st.proxies
    then Some(st.proxies[st.accounts[id].boundProxy.value]) else None
  }

  predicate Ready(st: State, id: int) {
    BoundEntry(st, id).Some? && BoundEntry(st, id).value.status == Available
  }

  /** The sort key: how busy the exit IP of the account's proxy is. */
  function BusyKey(st: State, id: int): nat {
    match BoundEntry(st, id)
    case None => 0
    case Some(p) => if p.exitIp.Some? then BusyCount(st, p.exitIp.value) else 0
  }

  function AttemptOn(st: State, id: int): Attempt
    requires Ready(st, id)
  {
    Attempt(id, st.accounts[id].boundProxy.value, BoundEntry(st, id).value.exitIp)
  }

  // ----- the simple specification -----

  /** Of the candidates with an available proxy, the least busy one; of equals, the first. */
  function Best(st: State, cands: seq<int>): (r: Option<int>)
    ensures r.Some? ==> r.value in cands && Ready(st, r.value)
  {
    if cands == [] then None
    else
      var b := Best(st, cands[1..]);
      if Ready(st, cands[0]) && (b.None? || BusyKey(st, cands[0]) <= BusyKey(st, b.value))
      then Some(cands[0]) else b
  }

  function Choose(st: State, platform: string, now: int, order: seq<int>): Option<Attempt> {
    var id :- Best(st, CandidatesIn(st, platform, now, order));
    Some(AttemptOn(st, id))
  }

  /** The candidate at position i is ready, and every ready one is busier, or as busy and not before it. */
  ghost predicate LeastAt(st: State, cands: seq<int>, i: int)
    requires 0 <= i < |cands|
  {
    Ready(st, cands[i])
    && forall j :: 0 <= j < |cands| && Ready(st, cands[j]) ==>
         BusyKey(st, cands[i]) < BusyKey(st, cands[j]) || (BusyKey(st, cands[i]) == BusyKey(st, cands[j]) && i <= j)
  }

  /** A further candidate in front: it is the least one, or the least of the rest stays so. */
  lemma LeastInFront(st: State, cands: seq<int>, i: int)
    requires cands != [] && 0 <= i < |cands| - 1 && LeastAt(st, cands[1..], i)
    ensures if Ready(st, cands[0]) && BusyKey(st, cands[0]) <= BusyKey(st, cands[i + 1])
            then LeastAt(st, cands, 0) else LeastAt(st, cands, i + 1)
  {
    assert forall j :: 1 <= j < |cands| ==> cands[j] == cands[1..][j - 1];
  }

  lemma {:induction false} BestIsLeast(st: State, cands: seq<int>)
    ensures Best(st, cands).None? <==> forall i :: 0 <= i < |cands| ==> !Ready(st, cands[i])
    ensures Best(st, cands).Some? ==>
      exists i :: 0 <= i < |cands| && cands[i] == Best(st, cands).value && LeastAt(st, cands, i)
  {
    if cands != [] {
      var rest := cands[1..];
      BestIsLeast(st, rest);
      assert forall j :: 1 <= j < |cands| ==> cands[j] == rest[j - 1];
      if Best(st, rest).Some? {
        var i :| 0 <= i < |rest| && rest[i] == Best(st, rest).value && LeastAt(st, rest, i);
        LeastInFront(st, cands, i);
        assert cands[i + 1] == rest[i];
      } else if Ready(st, cands[0]) {
        assert LeastAt(st, cands, 0);
      }
    }
  }

  /** What a selection means for the accounts themselves: it is schedulable, its proxy exists
      and is available, and no other schedulable account with an available proxy is less busy.
      In particular a busy exit IP is chosen only when every such account's exit IP is busy.
      None is returned exactly when there is no such account. */
  lemma ChoiceIsLeastBusy(st: State, platform: string, now: int, order: seq<int>)
    requires Enumerates(order, st.accounts)
    ensures var r := Choose(st, platform, now, order);
      && (r.None? <==> forall id :: Schedulable(st, platform, now, id) ==> !Ready(st, id))
      && (r.Some? ==>
            && Schedulable(st, platform, now, r.value.acct) && Ready(st, r.value.acct)
            && r.value == AttemptOn(st, r.value.acct)
            && forall id :: Schedulable(st, platform, now, id) && Ready(st, id) ==>
                 BusyKey(st, r.value.acct) <= BusyKey(st, id))
  {
    CandidatesExact(st, platform, now, order);
    BestIsLeast(st, CandidatesIn(st, platform, now, order));
  }

  lemma {:induction false} CandidatesSchedulable(st: State, platform: string, now: int, order: seq<int>)
    ensures forall id :: id in CandidatesIn(st, platform, now, order) ==> Schedulable(st, platform, now, id)
  {
    if order != [] { CandidatesSchedulable(st, platform, now, order[..|order| - 1]); }
  }

  /** Whatever the iteration order, a chosen account is schedulable. */
  lemma ChosenIsSchedulable(st: State, platform: string, now: int, order: seq<int>)
    ensures var r := Choose(st, platform, now, order);
      r.Some? ==> Schedulable(st, platform, now, r.value.acct) && Ready(st, r.value.acct)
                  && r.value == AttemptOn(st, r.value.acct)
  {
    CandidatesSchedulable(st, platform, now, order);
  }

  // ----- the sort and the two rounds of the source -----

  function Insert(st: State, x: int, sorted: seq<int>): seq<int> {
    if sorted == [] then [x]
    else if BusyKey(st, x) <= BusyKey(st, sorted[0]) then [x] + sorted
    else [sorted[0]] + Insert(st, x, sorted[1..])
  }

  /** A stable sort by busy count. */
  function SortByBusy(st: State, cands: seq<int>): seq<int> {
    if cands == [] then [] else Insert(st, cands[0], SortByBusy(st, cands[1..]))
  }

  ghost predicate Sorted(st: State, s: seq<int>) {
    |s| <= 1 || (BusyKey(st, s[0]) <= BusyKey(st, s[1]) && Sorted(st, s[1..]))
  }

  function FirstReady(st: State, s: seq<int>): Option<int> {
    if s == [] then None else if Ready(st, s[0]) then Some(s[0]) else FirstReady(st, s[1..])
  }

  lemma {:induction false} SortedFromHead(st: State, s: seq<int>, j: nat)
    requires Sorted(st, s) && j < |s|
    ensures BusyKey(st, s[0]) <= BusyKey(st, s[j])
  {
    if j > 0 { SortedFromHead(st, s[1..], j - 1); }
  }

  lemma {:induction false} SortedAt(st: State, s: seq<int>, i: nat, j: nat)
    requires Sorted(st, s) && i <= j < |s|
    ensures BusyKey(st, s[i]) <= BusyKey(st, s[j])
  {
    if i == 0 { SortedFromHead(st, s, j); } else { SortedAt(st, s[1..], i - 1, j - 1); }
  }

  lemma {:induction false} FirstReadyNotBefore(st: State, s: seq<int>)
    requires Sorted(st, s) && s != []
    ensures FirstReady(st, s).Some? ==> BusyKey(st, s[0]) <= BusyKey(st, FirstReady(st, s).value)
  {
    if !Ready(st, s[0]) && |s| > 1 {
      FirstReadyNotBefore(st, s[1..]);
    }
  }

  lemma {:induction false} InsertSorted(st: State, x: int, s: seq<int>)
    requires Sorted(st, s)
    ensures Sorted(st, Insert(st, x, s))
    ensures Insert(st, x, s) != []
    ensures Insert(st, x, s)[0] == if s == [] || BusyKey(st, x) <= BusyKey(st, s[0]) then x else s[0]
    ensures FirstReady(st, Insert(st, x, s))
         == if Ready(st, x) && (FirstReady(st, s).None? || BusyKey(st, x) <= BusyKey(st, FirstReady(st, s).value))
            then Some(x) else FirstReady(st, s)
  {
    if s == [] {
    } else if BusyKey(st, x) <= BusyKey(st, s[0]) {
      FirstReadyNotBefore(st, s);
      assert ([x] + s)[1..] == s;
    } else {
      InsertSorted(st, x, s[1..]);
      var rest := Insert(st, x, s[1..]);
      assert ([s[0]] + rest)[1..] == rest;
      FirstReadyNotBefore(st, s);
    }
  }

  /** Sorting and taking the first ready candidate is the simple specification. */
  lemma {:induction false} SortedFirstIsBest(st: State, cands: seq<int>)
    ensures Sorted(st, SortByBusy(st, cands))
    ensures FirstReady(st, SortByBusy(st, cands)) == Best(st, cands)
  {
    if cands != [] {
      SortedFirstIsBest(st, cands[1..]);
      InsertSorted(st, cands[0], SortByBusy(st, cands[1..]));
    }
  }

  lemma {:induction false} FirstReadyAt(st: State, s: seq<int>, i: nat)
    requires i <= |s| && (i < |s| ==> Ready(st, s[i])) && forall j :: 0 <= j < i ==> !Ready(st, s[j])
    ensures FirstReady(st, s) == if i < |s| then Some(s[i]) else None
  {
    if i > 0 { FirstReadyAt(st, s[1..], i - 1); }
  }

  /** The first round: skip busy exit IPs when isolation is on. */
  method FirstRound(st: State, cands: seq<int>, isolation: bool) returns (r: Option<int>)
    requires Sorted(st, cands)
    ensures r.Some? ==> r == FirstReady(st, cands)
  {
    for i := 0 to |cands|
      invariant forall j :: 0 <= j < i && Ready(st, cands[j]) ==> isolation && BusyKey(st, cands[j]) > 0
    {
      var p := BoundEntry(st, cands[i]);
      if p.Some? {
        if p.value.status != Available { continue; }
        if p.value.exitIp.Some? {
          if isolation && BusyCount(st, p.value.exitIp.value) > 0 { continue; }
        }
        forall j | 0 <= j < i ensures !Ready(st, cands[j]) { SortedAt(st, cands, j, i); }
        FirstReadyAt(st, cands, i);
        return Some(cands[i]);
      }
    }
    return None;
  }

  /** The second round: isolation relaxed. */
  method SecondRound(st: State, cands: seq<int>) returns (r: Option<int>)
    ensures r == FirstReady(st, cands)
  {
    for i := 0 to |cands|
      invariant forall j :: 0 <= j < i ==> !Ready(st, cands[j])
    {
      var p := BoundEntry(st, cands[i]);
      if p.Some? {
        if p.value.status == Available {
          FirstReadyAt(st, cands, i);
          return Some(cands[i]);
        }
      }
    }
    FirstReadyAt(st, cands, |cands|);
    return None;
  }

  /** Both rounds, with isolation on or off, give the one answer of the specification. */
  method Select(pools: Pools, platform: string, isolation: bool, now: int, order: seq<int>) returns (r: Option<Attempt>)
    requires Enumerates(order, pools.accounts)
    ensures r == Choose(pools.View(), platform, now, order)
  {
    var cands := pools.Candidates(platform, now, order);
    if cands == [] { return None; }
    var st := pools.View();
    SortedFirstIsBest(st, cands);
    cands := SortByBusy(st, cands);
    var id := FirstRound(st, cands, isolation);
    if id.None? { id := SecondRound(st, cands); }
    return if id.Some? then Some(AttemptOn(st, id.value)) else None;
  }

  // ----- diagnosis -----

  datatype Reason = NoGroups | NoAccounts | AllUnusable | Unbound(count: nat) | ProxiesUnavailable

  function LinkCount(links: seq<(string, int)>, slug: string): nat {
    if links == [] then 0 else Bit(links[0].0 == slug) + LinkCount(links[1..], slug)
  }

  function OnPlatform(slug: string): AccountRow -> bool {
    (a: AccountRow) => a.platform == slug
  }

  function UnboundCount(st: State, cands: seq<int>): nat {
    if cands == [] then 0
    else Bit(cands[0] in st.accounts && st.accounts[cands[0]].boundProxy.None?) + UnboundCount(st, cands[1..])
  }

  function Diagnose(st: State, slug: string, now: int, order: seq<int>): Reason {
    if LinkCount(st.db.links, slug) == 0 then NoGroups
    else
      var cands := CandidatesIn(st, slug, now, order);
      if cands == [] then
        if Count(st.db.accounts, OnPlatform(slug)) == 0 then NoAccounts else AllUnusable
      else
        var n := UnboundCount(st, cands);
        if n > 0 then Unbound(n) else ProxiesUnavailable
  }

  lemma {:induction false} LinkCountZero(links: seq<(string, int)>, slug: string)
    ensures LinkCount(links, slug) == 0 <==> forall l :: l in links ==> l.0 != slug
  {
    if links != [] {
      LinkCountZero(links[1..], slug);
      assert links[0] in links;
    }
  }

  ghost predicate IsUnbound(st: State, id: int) {
    id in st.accounts && st.accounts[id].boundProxy.None?
  }

  /** The unbound ones among the candidates. */
  ghost function UnboundOf(st: State, cands: seq<int>): set<int> {
    set id | id in cands && IsUnbound(st, id)
  }

  lemma UnboundOfTail(st: State, cands: seq<int>)
    requires cands != [] && cands[0] !in cands[1..]
    ensures UnboundOf(st, cands) == UnboundOf(st, cands[1..]) + (if IsUnbound(st, cands[0]) then {cands[0]} else {})
    ensures cands[0] !in UnboundOf(st, cands[1..])
  {
    assert cands == [cands[0]] + cands[1..];
  }

  lemma {:induction false} UnboundCountExact(st: State, cands: seq<int>)
    requires forall i, j :: 0 <= i < j < |cands| ==> cands[i] != cands[j]
    ensures UnboundCount(st, cands) == |UnboundOf(st, cands)|
  {
    if cands == [] {
      assert UnboundOf(st, cands) == {};
    } else {
      UnboundCountExact(st, cands[1..]);
      UnboundOfTail(st, cands);
    }
  }

  lemma NobodyOnPlatform(db: Db, slug: string)
    ensures Count(db.accounts, OnPlatform(slug)) == 0
       <==> forall a :: a in db.accounts ==> db.accounts[a].platform != slug
  {
    forall a | a in db.accounts && db.accounts[a].platform == slug
      ensures Count(db.accounts, OnPlatform(slug)) > 0
    {
      CountPositive(db.accounts, a, OnPlatform(slug));
    }
    if Count(db.accounts, OnPlatform(slug)) > 0 {
      var a := CountWitness(db.accounts, OnPlatform(slug));
    }
  }

  /** Bound, to a proxy that is missing or not available. */
  ghost predicate BoundToDeadProxy(st: State, id: int) {
    && id in st.accounts && st.accounts[id].boundProxy.Some?
    && var pid := st.accounts[id].boundProxy.value;
       pid !in st.proxies || st.proxies[pid].status != Available
  }

  /** When nothing could be selected, the reason given is true of the same snapshot, and each
      reason is given exactly in its own situation. */
  lemma DiagnosisIsTrue(st: State, slug: string, now: int, order: seq<int>)
    requires Enumerates(order, st.accounts) && Choose(st, slug, now, order).None?
    ensures var noGroups := forall l :: l in st.db.links ==> l.0 != slug;
            var nobody := forall id :: !Schedulable(st, slug, now, id);
            var noAccounts := forall a :: a in st.db.accounts ==> st.db.accounts[a].platform != slug;
            var unbound := set id | id in st.accounts && Schedulable(st, slug, now, id) && IsUnbound(st, id);
      match Diagnose(st, slug, now, order)
      case NoGroups => noGroups
      case NoAccounts => !noGroups && nobody && noAccounts
      case AllUnusable => !noGroups && nobody && !noAccounts
      case Unbound(n) => !noGroups && n == |unbound| && unbound != {}
      case ProxiesUnavailable =>
        !noGroups && !nobody && forall id :: Schedulable(st, slug, now, id) ==> BoundToDeadProxy(st, id)
  {
    LinkCountZero(st.db.links, slug);
    CandidatesExact(st, slug, now, order);
    NobodyOnPlatform(st.db, slug);
    var cands := CandidatesIn(st, slug, now, order);
    UnboundCountExact(st, cands);
    var unbound := set id | id in st.accounts && Schedulable(st, slug, now, id) && IsUnbound(st, id);
    assert unbound == UnboundOf(st, cands);
    if cands != [] { assert cands[0] in cands; }
    ChoiceIsLeastBusy(st, slug, now, order);
    if Diagnose(st, slug, now, order).ProxiesUnavailable? {
      forall id | Schedulable(st, slug, now, id)
        ensures BoundToDeadProxy(st, id)
      {
        assert !Ready(st, id);
        assert id !in unbound;
      }
    }
  }
}
