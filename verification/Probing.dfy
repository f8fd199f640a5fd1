/** Probing an account: one request through its bound proxy decides whether its key is good. */
module Probing {
  import opened Wrappers
  import opened Database
  import opened Adapter
  import opened PoolState
  import opened Binding
  import opened Admin
  import opened Copies
  import opened Forwarding

  datatype ProbeOutcome = Alive | Revoked | Unknown | Skipped

  /** The account can be probed at all: it exists, its platform is registered, its key decrypts. */
  predicate Probeable(db: Db, id: int, decrypt: string -> Option<string>) {
    id in db.accounts && db.accounts[id].platform in REGISTERED && decrypt(db.accounts[id].encryptedKey).Some?
  }

  /** An unbound account is bound first. */
  function BoundFirst(st: State, id: int): State {
    if id in st.db.accounts && st.db.accounts[id].boundProxy.None? then BindAccount(st, id, None) else st
  }

  /** The store's binding leads to a proxy in memory, whatever that proxy's status. */
  predicate HasProxy(st: State, id: int) {
    id in st.db.accounts && st.db.accounts[id].boundProxy.Some? && st.db.accounts[id].boundProxy.value in st.proxies
  }

  /** `answer` is the upstream's status code, None when the request failed. */
  function Verdict(answer: Option<nat>, codes: StatusCodes): ProbeOutcome {
    if answer.None? then Unknown
    else
      match Classify(answer.value, codes)
      case Success => Alive
      case HardRevokedCode => Revoked
      case _ => Unknown
  }

  function AfterVerdict(bound: State, id: int, verdict: ProbeOutcome): State {
    match verdict
    case Alive => SetStatus(bound, id, Healthy)
    case Revoked => SetStatus(bound, id, HardRevoked)
    case _ => bound
  }

  function Probe(st: State, id: int, decrypt: string -> Option<string>, answer: Option<nat>,
                 codes: StatusCodes): (State, ProbeOutcome) {
    if !Probeable(st.db, id, decrypt) then (st, Skipped)
    else
      var bound := BoundFirst(st, id);
      if !HasProxy(bound, id) then (bound, Skipped)
      else
        var v := Verdict(answer, codes);
        (AfterVerdict(bound, id, v), v)
  }

  method ProbeAccount(pools: Pools, id: int, decrypt: string -> Option<string>, answer: Option<nat>, codes: StatusCodes)
      returns (outcome: ProbeOutcome)
    modifies pools
    ensures (pools.View(), outcome) == Probe(old(pools.View()), id, decrypt, answer, codes)
  {
    if id !in pools.db.accounts { return Skipped; }
    var row := pools.db.accounts[id];
    if row.platform !in REGISTERED { return Skipped; }
    if decrypt(row.encryptedKey).None? { return Skipped; }
    var pid := row.boundProxy;
    if pid.None? {
      Bind(pools, id, None);
      pid := if id in pools.db.accounts then pools.db.accounts[id].boundProxy else None;
    }
    if pid.None? { return Skipped; }
    if pid.value !in pools.proxies { return Skipped; }
    if answer.None? { return Unknown; }
    match Classify(answer.value, codes) {
      case Success =>
        pools.ChangeStatus(id, Healthy);
        return Alive;
      case HardRevokedCode =>
        pools.ChangeStatus(id, HardRevoked);
        return Revoked;
      case _ => return Unknown;
    }
  }

  /** The steps a probe takes are operations of the engine: at most one bind and one status change. */
  function BindSteps(st: State, id: int, decrypt: string -> Option<string>): seq<Op> {
    if Probeable(st.db, id, decrypt) && st.db.accounts[id].boundProxy.None? then [BindOne(id)] else []
  }

  function StatusSteps(id: int, outcome: ProbeOutcome): seq<Op> {
    match outcome
    case Alive => [ChangeStatus(id, Healthy)]
    case Revoked => [ChangeStatus(id, HardRevoked)]
    case _ => []
  }

  function ApplyAll(st: State, ops: seq<Op>, now: int): State
    decreases ops
  {
    if ops == [] then st else ApplyAll(Apply(st, ops[0], now), ops[1..], now)
  }

  lemma ApplyOne(st: State, op: Op, now: int)
    ensures ApplyAll(st, [op], now) == Apply(st, op, now)
  {
    assert [op][1..] == [];
  }

  lemma ProbeIsItsSteps(st: State, id: int, decrypt: string -> Option<string>, answer: Option<nat>, codes: StatusCodes,
                        now: int)
    ensures var (st', outcome) := Probe(st, id, decrypt, answer, codes);
      st' == ApplyAll(ApplyAll(st, BindSteps(st, id, decrypt), now), StatusSteps(id, outcome), now)
  {
    var (st', outcome) := Probe(st, id, decrypt, answer, codes);
    ApplyOne(st, BindOne(id), now);
    if Probeable(st.db, id, decrypt) {
      var bound := BoundFirst(st, id);
      assert bound == ApplyAll(st, BindSteps(st, id, decrypt), now);
      ApplyOne(bound, ChangeStatus(id, Healthy), now);
      ApplyOne(bound, ChangeStatus(id, HardRevoked), now);
      assert outcome == Alive ==> st' == SetStatus(bound, id, Healthy);
      assert outcome == Revoked ==> st' == SetStatus(bound, id, HardRevoked);
    }
  }

  /** What a probe can have said: it is skipped exactly when the account does not exist, is not on
      one of the four platforms, has a key that does not decrypt, or has no proxy and none is on
      offer; otherwise 200 to 299 says alive, any other code below 500 or above 599 in the revoke
      list says revoked, and then both copies show it; in all other cases no status changes. */
  lemma ProbeMeaning(st: State, id: int, decrypt: string -> Option<string>, answer: Option<nat>, codes: StatusCodes)
    requires Mirrored(st)
    ensures var (st', outcome) := Probe(st, id, decrypt, answer, codes);
      && (outcome == Skipped <==>
            || id !in st.db.accounts
            || st.db.accounts[id].platform !in {"context7", "exa", "firecrawl", "tavily"}
            || decrypt(st.db.accounts[id].encryptedKey).None?
            || (st.db.accounts[id].boundProxy.None? && !SomeOffer(st.db, st.db.accounts[id].platform)))
      && (outcome == Alive <==> outcome != Skipped && answer.Some? && 200 <= answer.value < 300)
      && (outcome == Revoked <==>
            outcome != Skipped && answer.Some? && answer.value in codes.revoke
            && !(200 <= answer.value < 300) && !(500 <= answer.value < 600))
      && StatusAfter(st, st', id,
                     if outcome == Alive then Some(Healthy) else if outcome == Revoked then Some(HardRevoked) else None)
  {
    if Probeable(st.db, id, decrypt) {
      ServedIffOffer(st.db, st.db.accounts[id].platform);
      BoundFirstFacts(st, id);
      VerdictIff(answer, codes);
      VerdictShows(st, BoundFirst(st, id), id, answer, codes);
    }
  }

  lemma VerdictIff(answer: Option<nat>, codes: StatusCodes)
    ensures Verdict(answer, codes) == Alive <==> answer.Some? && 200 <= answer.value < 300
    ensures Verdict(answer, codes) == Revoked <==>
      answer.Some? && answer.value in codes.revoke && !(200 <= answer.value < 300) && !(500 <= answer.value < 600)
    ensures Verdict(answer, codes) != Skipped
  {
  }

  lemma VerdictShows(st: State, bound: State, id: int, answer: Option<nat>, codes: StatusCodes)
    requires StatusAfter(st, bound, id, None)
    ensures var v := Verdict(answer, codes);
      StatusAfter(st, AfterVerdict(bound, id, v), id,
                  if v == Alive then Some(Healthy) else if v == Revoked then Some(HardRevoked) else None)
  {
    match Verdict(answer, codes)
    case Alive => SetStatusFacts(bound, id, Healthy);
    case Revoked => SetStatusFacts(bound, id, HardRevoked);
    case _ =>
  }

  ghost predicate SlotsShow(slots: map<int, AccountSlot>, slots': map<int, AccountSlot>, id: int,
                            s: Option<AccountStatus>) {
    && slots'.Keys == slots.Keys
    && (forall a :: a in slots && a != id ==> slots'[a].status == slots[a].status)
    && (id in slots ==> slots'[id].status == s.GetOr(slots[id].status))
  }

  ghost predicate RowsShow(rows: map<int, AccountRow>, rows': map<int, AccountRow>, id: int, s: Option<AccountStatus>) {
    && rows'.Keys == rows.Keys
    && (forall a :: a in rows && a != id ==> rows'[a].status == rows[a].status)
    && (id in rows ==> rows'[id].status == s.GetOr(rows[id].status))
  }

  /** Both copies of the account show the new status, if there is one; all else keeps its status. */
  ghost predicate StatusAfter(st: State, st': State, id: int, s: Option<AccountStatus>) {
    SlotsShow(st.accounts, st'.accounts, id, s) && RowsShow(st.db.accounts, st'.db.accounts, id, s)
  }

  lemma BoundFirstFacts(st: State, id: int)
    requires Mirrored(st) && id in st.db.accounts
    ensures var st' := BoundFirst(st, id);
      && StatusAfter(st, st', id, None)
      && (HasProxy(st', id) <==> st.db.accounts[id].boundProxy.Some? || Served(st.db, st.db.accounts[id].platform))
  {
    ChoiceMeaning(st.db, st.db.accounts[id].platform, None);
    var choice := ChooseProxy(st.db, st.db.accounts[id].platform, None);
    assert choice.Some? ==> choice.value in st.db.proxies;
    assert st.db.accounts[id].boundProxy.Some? ==> st.db.accounts[id].boundProxy.value in st.db.proxies;
    assert forall p :: p in st.proxies <==> p in st.db.proxies;
  }

  lemma SetStatusFacts(st: State, id: int, s: AccountStatus)
    ensures StatusAfter(st, SetStatus(st, id, s), id, Some(s))
  {
    MemoryShows(st, id, s);
    var mem := SetStatusMem(st, id, s);
    StoreShows(mem, id, s);
    assert mem.db == st.db && SetStatusDb(mem, id, s).accounts == mem.accounts;
  }

  lemma MemoryShows(st: State, id: int, s: AccountStatus)
    ensures SlotsShow(st.accounts, SetStatusMem(st, id, s).accounts, id, Some(s))
  {
    if id in st.accounts {
      assert SetStatusMem(st, id, s).accounts == st.accounts[id := st.accounts[id].(status := s, failures := 0)];
    }
  }

  lemma StoreShows(st: State, id: int, s: AccountStatus)
    ensures RowsShow(st.db.accounts, SetStatusDb(st, id, s).db.accounts, id, Some(s))
  {
    if id in st.db.accounts {
      assert SetStatusDb(st, id, s).db.accounts
        == st.db.accounts[id := st.db.accounts[id].(status := s, failures := 0)];
    }
  }
}
