/** Where the submitted log rows end up. */
module LogRuns {
  import opened Wrappers
  import opened Database
  import opened PoolState
  import opened Admin
  import opened Forwarding
  import opened Engine
  import opened Conservation

  /** The log rows submitted during a run, in order. */
  ghost function Submitted(w: World, evs: seq<Event>): seq<LogRow>
    requires Runnable(w, evs)
    decreases evs
  {
    if evs == [] then [] else SubmittedBy(w, evs[0]) + Submitted(Next(w, evs[0]), evs[1..])
  }

  ghost function SubmittedBy(w: World, ev: Event): seq<LogRow>
    requires Enabled(w, ev)
  {
    if ev.DoEffect? && w.reqs[ev.r].pc.todo[0].LogCall? then [w.reqs[ev.r].pc.todo[0].row] else []
  }

  /** The same row, what it refers to perhaps deleted since. */
  ghost predicate ButNulls(row: LogRow, row': LogRow) {
    && row' == row.(account := row'.account, proxy := row'.proxy, token := row'.token)
    && (row'.account == row.account || row'.account.None?)
    && (row'.proxy == row.proxy || row'.proxy.None?)
    && (row'.token == row.token || row'.token.None?)
  }

  /** The log holds the row under this id. */
  ghost predicate Holds(logs: map<int, LogRow>, id: int, row: LogRow) {
    id in logs && ButNulls(row, logs[id])
  }

  ghost predicate HoldsNew(logs: map<int, LogRow>, next: int, rows: seq<LogRow>, id: int)
    requires next <= id < next + |rows|
  {
    Holds(logs, id, rows[id - next])
  }

  /** `logs'` holds what `logs` holds and, from id `next` on, `rows`. */
  ghost predicate Extends(logs: map<int, LogRow>, logs': map<int, LogRow>, next: int, rows: seq<LogRow>) {
    && (forall l :: l in logs ==> Holds(logs', l, logs[l]))
    && (forall l :: next <= l < next + |rows| ==> HoldsNew(logs', next, rows, l))
  }

  lemma ExtendsTransitive(a: map<int, LogRow>, b: map<int, LogRow>, c: map<int, LogRow>, next: int, r: seq<LogRow>,
                          s: seq<LogRow>)
    requires Extends(a, b, next, r) && Extends(b, c, next + |r|, s)
    ensures Extends(a, c, next, r + s)
  {
    forall l | l in a ensures Holds(c, l, a[l]) { assert Holds(b, l, a[l]); }
    forall l | next <= l < next + |r + s| ensures HoldsNew(c, next, r + s, l) {
      if l < next + |r| {
        assert HoldsNew(b, next, r, l);
      } else {
        assert HoldsNew(c, next + |r|, s, l);
      }
    }
  }

  /** From one store to a later one exactly `rows` were appended to the log. */
  ghost predicate Appended(db: Db, db': Db, rows: seq<LogRow>) {
    Extends(db.logs, db'.logs, db.nextLog, rows) && db'.nextLog == db.nextLog + |rows|
  }

  lemma AppendedTransitive(a: Db, b: Db, c: Db, r: seq<LogRow>, s: seq<LogRow>)
    requires Appended(a, b, r) && Appended(b, c, s)
    ensures Appended(a, c, r + s)
  {
    ExtendsTransitive(a.logs, b.logs, c.logs, a.nextLog, r, s);
  }

  lemma PerformExtends(st: State, e: Effect, now: int)
    requires WellFormed(st.db) && (e.LogCall? ==> LogAccepted(st.db, e.row))
    ensures var db' := Perform(st, e, now).db;
      Appended(st.db, db', if e.LogCall? then [e.row] else [])
  {
    if !e.LogCall? {
      PerformOtherLogs(st, e, now);
      PerformKeepsNextLog(st, e, now);
    }
  }

  lemma PerformKeepsNextLog(st: State, e: Effect, now: int)
    requires !e.LogCall?
    ensures Perform(st, e, now).db.nextLog == st.db.nextLog
  {
    if e.RebindAccount? { BindKeepsRows(st, e.acct, None); }
  }

  lemma OperateAppends(st: State, op: Op, now: int)
    requires WellFormed(st.db) && !op.Cleanup?
    ensures Appended(st.db, Apply(st, op, now).db, [])
  {
    if !EditsLog(op) {
      ApplyLedger(st, op, now);
      LedgerExtends(st.db, Apply(st, op, now).db);
    }
  }

  lemma LedgerExtends(db: Db, db': Db)
    requires LedgerKept(db, db')
    ensures Appended(db, db', [])
  {
    forall l | l in db.logs ensures Holds(db'.logs, l, db.logs[l]) { assert ButProxy(db.logs[l], db'.logs[l]); }
  }

  lemma EffectExtends(w: World, r: int)
    requires Enabled(w, DoEffect(r)) && Sound(w)
    ensures Appended(w.st.db, Next(w, DoEffect(r)).st.db, SubmittedBy(w, DoEffect(r)))
  {
    FirstLogAccepted(w, DoEffect(r));
    PerformExtends(w.st, w.reqs[r].pc.todo[0], w.now);
  }

  lemma StepExtends(w: World, ev: Event)
    requires Enabled(w, ev) && Sound(w) && Quiet(w, ev)
    ensures Appended(w.st.db, Next(w, ev).st.db, SubmittedBy(w, ev))
  {
    if ev.DoEffect? { EffectExtends(w, ev.r); }
    else if ev.Operate? { OperateAppends(w.st, ev.op, w.now); }
    else { NothingAppended(w.st.db, Next(w, ev).st.db); }
  }

  lemma NothingAppended(db: Db, db': Db)
    requires db' == db
    ensures Appended(db, db', [])
  {
  }

  /** On a quiet run every submitted row is written, in the order of submission and under
      consecutive ids, although the insert's failure would go unnoticed; and no row is lost. */
  lemma {:induction false} EveryRowIsWritten(w: World, evs: seq<Event>)
    requires Sound(w) && Runnable(w, evs) && QuietRun(w, evs)
    ensures Appended(w.st.db, Run(w, evs).st.db, Submitted(w, evs))
    decreases evs
  {
    if evs != [] {
      StepExtends(w, evs[0]);
      SoundStep(w, evs[0]);
      var mid := Next(w, evs[0]);
      EveryRowIsWritten(mid, evs[1..]);
      AppendedTransitive(w.st.db, mid.st.db, Run(mid, evs[1..]).st.db, SubmittedBy(w, evs[0]),
                         Submitted(mid, evs[1..]));
    }
  }
}
