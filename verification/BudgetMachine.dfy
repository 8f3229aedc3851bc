/** Admission and resolution of paid calls by any number of workers, step by step.

    An admission is a transaction: read the clock, wait for the day's advisory lock,
    sweep lapsed rows, read the committed figure and compare it with the cap, insert,
    commit. Its writes stay private until the commit, and the rows it swept stay locked
    by it. Settling, retaining, releasing, sweeping and logging are single statements of
    other workers; they take no advisory lock and may fall between any two of those steps. */
module BudgetMachine {
  import opened Basics
  import opened Ledger

  datatype Request = Request(pair: Pair, estimate: real, ttl: int)

  datatype Phase =
    | Waiting                            // the clock is read, the lock is not held yet
    | Locked                             // holds the advisory lock of its day
    | Swept(rows: set<nat>)              // and the row locks of the rows it marked expired
    | Admitted(rows: set<nat>)           // the figure was read and the estimate fits
    | Inserted(rows: set<nat>, row: Row) // the new row is written, not yet visible

  datatype Txn = Txn(now: int, request: Request, phase: Phase)
  {
    function Day(): int { DayOf(now) }

    predicate HoldsLock() { !phase.Waiting? }

    function LockedRows(): set<nat> {
      match phase
      case Waiting => {}
      case Locked => {}
      case Swept(rs) => rs
      case Admitted(rs) => rs
      case Inserted(rs, _) => rs
    }
  }

  /** The committed tables, the shared clock and the open transactions. */
  datatype State = State(clock: int, log: seq<LogEntry>, rows: seq<Row>, txns: map<nat, Txn>)

  datatype Action =
    | Tick(to: int)
    | Log(entry: LogEntry)
    | Begin(w: nat, request: Request)
    | Acquire(w: nat)
    | Sweep(w: nat)
    | Check(w: nat)
    | Insert(w: nat)
    | Commit(w: nat)
    | Rollback(w: nat)
    | Settle(id: nat, actual: real, at: int)
    | Retain(id: nat, at: int)
    | Release(id: nat, at: int)
    | Expire(at: int)

  // ---- locks ----

  predicate LockFree(s: State, w: nat, day: int) {
    forall v :: v in s.txns && v != w && s.txns[v].HoldsLock() ==> s.txns[v].Day() != day
  }

  predicate RowFree(s: State, w: Option<nat>, id: nat) {
    forall v :: v in s.txns && w != Some(v) ==> id !in s.txns[v].LockedRows()
  }

  /** What a sweep at `now` updates. */
  function Lapsed(rows: seq<Row>, now: int): set<nat> {
    set i: nat | i < |rows| && rows[i].status == Active && rows[i].expiresAt <= now
  }

  /** A sweep waits for every row it would update. */
  predicate SweepFree(s: State, w: Option<nat>, now: int) {
    forall i :: i in Lapsed(s.rows, now) ==> RowFree(s, w, i)
  }

  /** The rows as the transaction sees them: its own sweep is applied. */
  function View(rows: seq<Row>, swept: set<nat>): (out: seq<Row>)
    ensures |out| == |rows|
    ensures forall i :: 0 <= i < |rows| ==> out[i] == if i in swept then rows[i].(status := Expired) else rows[i]
  {
    seq(|rows|, i requires 0 <= i < |rows| => if i in swept then rows[i].(status := Expired) else rows[i])
  }

  function NewRow(t: Txn): Row {
    Row(t.request.pair, t.request.estimate, t.now, t.now + t.request.ttl, Active, None, None, false)
  }

  /** The admission test. A zero estimate (a known-free model) is not held against the cap. */
  predicate Fits(log: seq<LogEntry>, rows: seq<Row>, cap: real, t: Txn) {
    !(t.request.estimate > 0.0
      && Committed(log, rows, t.Day(), t.now) + t.request.estimate > cap)
  }

  // ---- steps ----

  predicate Enabled(s: State, a: Action) {
    match a
    case Tick(to) => s.clock <= to
    case Log(entry) => entry.cost >= 0.0
    case Begin(w, r) => w !in s.txns && r.estimate >= 0.0 && r.ttl > 0
    case Acquire(w) => w in s.txns && s.txns[w].phase.Waiting? && LockFree(s, w, s.txns[w].Day())
    case Sweep(w) => w in s.txns && s.txns[w].phase.Locked? && SweepFree(s, Some(w), s.txns[w].now)
    case Check(w) => w in s.txns && s.txns[w].phase.Swept?
    case Insert(w) => w in s.txns && s.txns[w].phase.Admitted?
    case Commit(w) => w in s.txns && s.txns[w].phase.Inserted?
    case Rollback(w) => w in s.txns
    case Settle(id, actual, at) => actual >= 0.0 && at <= s.clock && RowFree(s, None, id)
    case Retain(id, at) => at <= s.clock && RowFree(s, None, id)
    case Release(id, at) => at <= s.clock && RowFree(s, None, id)
    case Expire(at) => at <= s.clock && SweepFree(s, None, at)
  }

  function Step(s: State, cap: real, a: Action): State
    requires Enabled(s, a)
  {
    match a
    case Tick(to) => s.(clock := to)
    case Log(entry) => s.(log := s.log + [entry])
    case Begin(w, r) => s.(txns := s.txns[w := Txn(s.clock, r, Waiting)])
    case Acquire(w) => s.(txns := s.txns[w := s.txns[w].(phase := Locked)])
    case Sweep(w) =>
      s.(txns := s.txns[w := s.txns[w].(phase := Swept(Lapsed(s.rows, s.txns[w].now)))])
    case Check(w) =>
      var t := s.txns[w];
      if Fits(s.log, View(s.rows, t.phase.rows), cap, t)
      then s.(txns := s.txns[w := t.(phase := Admitted(t.phase.rows))])
      else s.(txns := s.txns - {w})
    case Insert(w) =>
      var t := s.txns[w];
      s.(txns := s.txns[w := t.(phase := Inserted(t.phase.rows, NewRow(t)))])
    case Commit(w) =>
      var p := s.txns[w].phase;
      s.(rows := View(s.rows, p.rows) + [p.row], txns := s.txns - {w})
    case Rollback(w) => s.(txns := s.txns - {w})
    case Settle(id, actual, at) => s.(rows := SettleIn(s.rows, id, actual, at, s.clock))
    case Retain(id, at) => s.(rows := RetainIn(s.rows, id, at, s.clock))
    case Release(id, at) => s.(rows := ReleaseIn(s.rows, id, at))
    case Expire(at) => s.(rows := ExpireIn(s.rows, at))
  }

  ghost predicate Legal(s: State, cap: real, run: seq<Action>)
    decreases |run|
  {
    run == [] || (Enabled(s, run[0]) && Legal(Step(s, cap, run[0]), cap, run[1..]))
  }

  ghost function Exec(s: State, cap: real, run: seq<Action>): State
    requires Legal(s, cap, run)
    decreases |run|
  {
    if run == [] then s else Exec(Step(s, cap, run[0]), cap, run[1..])
  }

  /** No reservations, no open transactions; any log of nonnegative costs. */
  ghost predicate Init(s: State) {
    s.rows == [] && s.txns == map[] && forall i :: 0 <= i < |s.log| ==> s.log[i].cost >= 0.0
  }

  /** Others are never held up for good: time passes, calls are logged, any number of
      admissions begin and may fail at any point, and another day's admission or an unlocked
      row can always go on. */
  lemma {:induction false} OthersGoOn(s: State, w: nat, r: Request, to: int, entry: LogEntry, id: nat, actual: real)
    ensures s.clock <= to ==> Enabled(s, Tick(to))
    ensures entry.cost >= 0.0 ==> Enabled(s, Log(entry))
    ensures w !in s.txns && r.estimate >= 0.0 && r.ttl > 0 ==> Enabled(s, Begin(w, r))
    ensures w in s.txns ==> Enabled(s, Rollback(w))
    ensures
      && w in s.txns && s.txns[w].phase.Waiting?
      && (forall v :: v in s.txns && v != w ==> s.txns[v].phase.Waiting? || s.txns[v].Day() != s.txns[w].Day())
      ==> Enabled(s, Acquire(w))
    ensures (forall v :: v in s.txns ==> id !in s.txns[v].LockedRows()) && actual >= 0.0 ==>
      Enabled(s, Settle(id, actual, s.clock)) && Enabled(s, Retain(id, s.clock)) && Enabled(s, Release(id, s.clock))
  {
  }

  // ---- the invariant ----

  /** Every day's load fits under the cap. */
  ghost predicate LoadFits(s: State, cap: real) {
    forall day: int :: Load(s.rows, day, s.clock) <= cap
  }

  /** Past the admission test the estimate still fits on top of the load. */
  ghost predicate RoomFor(s: State, cap: real, t: Txn) {
    && (t.phase.Admitted? || t.phase.Inserted?)
    && t.request.estimate > 0.0
    ==> Load(s.rows, t.Day(), s.clock) + t.request.estimate <= cap
  }

  ghost predicate TxnOk(s: State, t: Txn) {
    && t.now <= s.clock && t.request.estimate >= 0.0 && t.request.ttl > 0
    && (forall i :: i in t.LockedRows() ==>
          i < |s.rows| && s.rows[i].status == Active && s.rows[i].expiresAt <= s.clock)
    && (t.phase.Inserted? ==> t.phase.row == NewRow(t))
  }

  /** A day's advisory lock and a row lock have one holder each. */
  ghost predicate Exclusive(s: State) {
    && (forall v, w :: v in s.txns && w in s.txns && v != w && s.txns[v].HoldsLock() && s.txns[w].HoldsLock()
          ==> s.txns[v].Day() != s.txns[w].Day())
    && (forall v, w, i :: v in s.txns && w in s.txns && v != w && i in s.txns[v].LockedRows()
          ==> i !in s.txns[w].LockedRows())
  }

  ghost predicate RowsOk(s: State) {
    && ValidTables(s.log, s.rows)
    && (forall i :: 0 <= i < |s.rows| && s.rows[i].status == Expired ==> s.rows[i].expiresAt <= s.clock)
  }

  ghost predicate Inv(s: State, cap: real) {
    && RowsOk(s)
    && LoadFits(s, cap)
    && Exclusive(s)
    && (forall w :: w in s.txns ==> TxnOk(s, s.txns[w]) && RoomFor(s, cap, s.txns[w]))
  }

  lemma {:induction false} InitInv(s: State, cap: real)
    requires Init(s) && cap >= 0.0
    ensures Inv(s, cap)
  {
  }

  /** A step that only moves rows, never up in any day's load, and leaves the locked
      rows alone keeps the invariant. */
  lemma {:induction false} RowsStepInv(s: State, cap: real, rows: seq<Row>)
    requires Inv(s, cap)
    requires |rows| == |s.rows|
    requires RowsOk(s.(rows := rows))
    requires forall day :: Load(rows, day, s.clock) <= Load(s.rows, day, s.clock)
    requires forall w, i :: w in s.txns && i in s.txns[w].LockedRows() ==> i < |rows| && rows[i] == s.rows[i]
    ensures Inv(s.(rows := rows), cap)
  {
    var s' := s.(rows := rows);
    forall w | w in s'.txns ensures TxnOk(s', s'.txns[w]) && RoomFor(s', cap, s'.txns[w]) {
      assert Load(rows, s.txns[w].Day(), s.clock) <= Load(s.rows, s.txns[w].Day(), s.clock);
    }
  }

  lemma {:induction false} SettleInv(s: State, cap: real, id: nat, actual: real, at: int)
    requires Inv(s, cap) && Enabled(s, Settle(id, actual, at))
    ensures Inv(Step(s, cap, Settle(id, actual, at)), cap)
  {
    forall day: int { SettleKeepsLoad(s.rows, day, id, actual, at, s.clock); }
    RowsStepInv(s, cap, SettleIn(s.rows, id, actual, at, s.clock));
  }

  lemma {:induction false} ReleaseInv(s: State, cap: real, id: nat, at: int)
    requires Inv(s, cap) && Enabled(s, Release(id, at))
    ensures Inv(Step(s, cap, Release(id, at)), cap)
  {
    forall day: int { ReleaseKeepsLoad(s.rows, day, id, at, s.clock); }
    RowsStepInv(s, cap, ReleaseIn(s.rows, id, at));
  }

  lemma {:induction false} ExpireInv(s: State, cap: real, at: int)
    requires Inv(s, cap) && Enabled(s, Expire(at))
    ensures Inv(Step(s, cap, Expire(at)), cap)
  {
    forall day: int { ExpireKeepsLoad(s.rows, day, at, s.clock); }
    forall w, i | w in s.txns && i in s.txns[w].LockedRows() ensures ExpireRow(s.rows[i], at) == s.rows[i] {
      assert TxnOk(s, s.txns[w]);
      assert i in Lapsed(s.rows, at) ==> RowFree(s, None, i);
    }
    RowsStepInv(s, cap, ExpireIn(s.rows, at));
  }

  lemma {:induction false} TickInv(s: State, cap: real, to: int)
    requires Inv(s, cap) && Enabled(s, Tick(to))
    ensures Inv(Step(s, cap, Tick(to)), cap)
  {
    var s' := Step(s, cap, Tick(to));
    forall day: int { LoadFallsWithTime(s.rows, day, s.clock, to); }
    forall w | w in s'.txns ensures TxnOk(s', s'.txns[w]) && RoomFor(s', cap, s'.txns[w]) {
      assert Load(s'.rows, s.txns[w].Day(), to) <= Load(s.rows, s.txns[w].Day(), s.clock);
    }
  }

  /** A transaction's own sweep touches only lapsed rows, which carry no load. */
  lemma {:induction false} ViewKeepsLoad(s: State, w: nat, day: int)
    requires RowsOk(s) && w in s.txns && TxnOk(s, s.txns[w])
    ensures Load(View(s.rows, s.txns[w].LockedRows()), day, s.clock) == Load(s.rows, day, s.clock)
  {
    var view := View(s.rows, s.txns[w].LockedRows());
    SumPointwiseLe(view, s.rows, LoadWeight(day, s.clock), LoadWeight(day, s.clock));
    SumPointwiseLe(s.rows, view, LoadWeight(day, s.clock), LoadWeight(day, s.clock));
  }

  lemma {:induction false} TxnStepExclusive(s: State, s': State, w: nat, t: Txn)
    requires Exclusive(s) && s' == s.(txns := s.txns[w := t])
    requires t.HoldsLock() ==> LockFree(s, w, t.Day())
    requires forall i :: i in t.LockedRows() ==> RowFree(s, Some(w), i)
    ensures Exclusive(s')
  {
    forall v, u, i | v in s'.txns && u in s'.txns && v != u && i in s'.txns[v].LockedRows()
      ensures i !in s'.txns[u].LockedRows()
    {
      assert i in t.LockedRows() ==> RowFree(s, Some(w), i);
    }
  }

  /** A step of one transaction that leaves the tables alone. */
  lemma {:induction false} TxnStepInv(s: State, cap: real, w: nat, t: Txn)
    requires Inv(s, cap)
    requires TxnOk(s, t) && RoomFor(s, cap, t)
    requires t.HoldsLock() ==> LockFree(s, w, t.Day())
    requires forall i :: i in t.LockedRows() ==> RowFree(s, Some(w), i)
    ensures Inv(s.(txns := s.txns[w := t]), cap)
  {
    var s' := s.(txns := s.txns[w := t]);
    TxnStepExclusive(s, s', w, t);
    forall v | v in s'.txns ensures TxnOk(s', s'.txns[v]) && RoomFor(s', cap, s'.txns[v]) {
      if v != w { assert TxnOk(s, s.txns[v]) && RoomFor(s, cap, s.txns[v]); }
    }
  }

  lemma {:induction false} TxnEndInv(s: State, cap: real, w: nat)
    requires Inv(s, cap)
    ensures Inv(s.(txns := s.txns - {w}), cap)
  {
    var s' := s.(txns := s.txns - {w});
    forall v | v in s'.txns ensures TxnOk(s', s'.txns[v]) && RoomFor(s', cap, s'.txns[v]) {
      assert TxnOk(s, s.txns[v]) && RoomFor(s, cap, s.txns[v]);
    }
  }

  /** The figure is read at a clock value that may be stale by now; the load can only
      have fallen since, so passing the test leaves room. */
  lemma {:induction false} PassingLeavesRoom(s: State, cap: real, w: nat)
    requires RowsOk(s) && w in s.txns && TxnOk(s, s.txns[w])
    requires s.txns[w].request.estimate > 0.0
    requires Fits(s.log, View(s.rows, s.txns[w].LockedRows()), cap, s.txns[w])
    ensures Load(s.rows, s.txns[w].Day(), s.clock) + s.txns[w].request.estimate <= cap
  {
    var t := s.txns[w];
    var view := View(s.rows, t.LockedRows());
    ViewKeepsLoad(s, w, t.Day());
    LoadFallsWithTime(view, t.Day(), t.now, s.clock);
    LoadWithinReserved(view, t.Day(), t.now);
    SpentWithinLog(s.log, view, t.Day());
  }

  lemma {:induction false} CheckInv(s: State, cap: real, w: nat)
    requires Inv(s, cap) && Enabled(s, Check(w))
    ensures Inv(Step(s, cap, Check(w)), cap)
  {
    var t := s.txns[w];
    assert TxnOk(s, t);
    if Fits(s.log, View(s.rows, t.phase.rows), cap, t) {
      if t.request.estimate > 0.0 { PassingLeavesRoom(s, cap, w); }
      TxnStepInv(s, cap, w, t.(phase := Admitted(t.phase.rows)));
    } else {
      TxnEndInv(s, cap, w);
    }
  }

  /** Publishing the new row: its day gains at most the estimate, which the lock kept
      free, and no other day gains anything. */
  lemma {:induction false} CommitLoads(s: State, cap: real, w: nat, s': State)
    requires Inv(s, cap) && Enabled(s, Commit(w)) && s' == Step(s, cap, Commit(w))
    ensures LoadFits(s', cap)
    ensures forall day: int :: day != s.txns[w].Day() ==> Load(s'.rows, day, s.clock) == Load(s.rows, day, s.clock)
  {
    var t := s.txns[w];
    var view := View(s.rows, t.phase.rows);
    assert TxnOk(s, t) && RoomFor(s, cap, t);
    forall day: int
      ensures Load(s'.rows, day, s.clock) <= cap
      ensures day != t.Day() ==> Load(s'.rows, day, s.clock) == Load(s.rows, day, s.clock)
    {
      ViewKeepsLoad(s, w, day);
      SumAppend(view, t.phase.row, LoadWeight(day, s.clock));
    }
  }

  lemma {:induction false} CommittedRows(s: State, s': State, t: Txn)
    requires RowsOk(s) && TxnOk(s, t) && t.phase.Inserted?
    requires s'.clock == s.clock && s'.log == s.log && s'.rows == View(s.rows, t.phase.rows) + [t.phase.row]
    ensures RowsOk(s')
  {
  }

  /** Another transaction's rows are not the ones this commit publishes as expired. */
  lemma {:induction false} OthersOutliveCommit(s: State, s': State, w: nat, v: nat)
    requires Exclusive(s) && w in s.txns && v in s.txns && v != w && s.txns[w].phase.Inserted?
    requires TxnOk(s, s.txns[v]) && s'.clock == s.clock
    requires s'.rows == View(s.rows, s.txns[w].phase.rows) + [s.txns[w].phase.row]
    ensures TxnOk(s', s.txns[v])
  {
  }

  lemma {:induction false} CommitRows(s: State, cap: real, w: nat, s': State)
    requires Inv(s, cap) && Enabled(s, Commit(w)) && s' == Step(s, cap, Commit(w))
    ensures RowsOk(s') && Exclusive(s')
    ensures forall v :: v in s'.txns ==> TxnOk(s', s'.txns[v])
  {
    assert TxnOk(s, s.txns[w]);
    CommittedRows(s, s', s.txns[w]);
    forall v | v in s'.txns ensures TxnOk(s', s'.txns[v]) {
      assert v != w && TxnOk(s, s.txns[v]);
      OthersOutliveCommit(s, s', w, v);
    }
  }

  /** No other transaction holds room on the day of the new row. */
  lemma {:induction false} CommitInv(s: State, cap: real, w: nat)
    requires Inv(s, cap) && Enabled(s, Commit(w))
    ensures Inv(Step(s, cap, Commit(w)), cap)
  {
    var s' := Step(s, cap, Commit(w));
    CommitLoads(s, cap, w, s');
    CommitRows(s, cap, w, s');
    forall v | v in s'.txns ensures RoomFor(s', cap, s'.txns[v]) {
      assert v != w && RoomFor(s, cap, s.txns[v]);
    }
  }

  lemma {:induction false} LogInv(s: State, cap: real, entry: LogEntry)
    requires Inv(s, cap) && Enabled(s, Log(entry))
    ensures Inv(Step(s, cap, Log(entry)), cap)
  {
    var s' := Step(s, cap, Log(entry));
    forall w | w in s'.txns ensures TxnOk(s', s'.txns[w]) && RoomFor(s', cap, s'.txns[w]) {
      assert TxnOk(s, s.txns[w]) && RoomFor(s, cap, s.txns[w]);
    }
  }

  lemma {:induction false} PrivateInv(s: State, cap: real, a: Action)
    requires Inv(s, cap) && Enabled(s, a) && (a.Acquire? || a.Sweep? || a.Insert?)
    ensures Inv(Step(s, cap, a), cap)
  {
    var t := s.txns[a.w];
    assert TxnOk(s, t) && RoomFor(s, cap, t);
    if a.Acquire? {
      TxnStepInv(s, cap, a.w, t.(phase := Locked));
    } else if a.Sweep? {
      TxnStepInv(s, cap, a.w, t.(phase := Swept(Lapsed(s.rows, t.now))));
    } else {
      TxnStepInv(s, cap, a.w, t.(phase := Inserted(t.phase.rows, NewRow(t))));
    }
  }

  lemma {:induction false} StepInv(s: State, cap: real, a: Action)
    requires Inv(s, cap) && Enabled(s, a)
    ensures Inv(Step(s, cap, a), cap)
  {
    match a
    case Tick(to) => TickInv(s, cap, to);
    case Log(entry) => LogInv(s, cap, entry);
    case Begin(w, r) => TxnStepInv(s, cap, w, Txn(s.clock, r, Waiting));
    case Acquire(_) => PrivateInv(s, cap, a);
    case Sweep(_) => PrivateInv(s, cap, a);
    case Check(w) => CheckInv(s, cap, w);
    case Insert(_) => PrivateInv(s, cap, a);
    case Rollback(w) => TxnEndInv(s, cap, w);
    case Commit(w) => CommitInv(s, cap, w);
    case Settle(id, actual, at) => SettleInv(s, cap, id, actual, at);
    case Retain(id, at) =>
      if id < |s.rows| { SettleInv(s, cap, id, s.rows[id].estimate, at); }
    case Release(id, at) => ReleaseInv(s, cap, id, at);
    case Expire(at) => ExpireInv(s, cap, at);
  }

  lemma {:induction false} RunInv(s: State, cap: real, run: seq<Action>)
    requires Inv(s, cap) && Legal(s, cap, run)
    ensures Inv(Exec(s, cap, run), cap)
    decreases |run|
  {
    if run != [] {
      StepInv(s, cap, run[0]);
      RunInv(Step(s, cap, run[0]), cap, run[1..]);
    }
  }

  // ---- what holds in every run ----

  /** Under any interleaving, no day's committed figure goes past the cap by more than
      the day's settlements beyond their estimates, its settlements after lapse, and its
      logged cost. */
  lemma {:induction false} CapHolds(s0: State, cap: real, run: seq<Action>, day: int)
    requires Init(s0) && cap >= 0.0 && Legal(s0, cap, run)
    ensures
      var s := Exec(s0, cap, run);
      Committed(s.log, s.rows, day, s.clock)
        <= cap + Excess(s.rows, day) + Late(s.rows, day) + LoggedDay(s.log, day)
  {
    InitInv(s0, cap);
    RunInv(s0, cap, run);
    var s := Exec(s0, cap, run);
    ReservedSplits(s.rows, day, s.clock);
    SpentWithinLog(s.log, s.rows, day);
  }

  /** What reservations hold, or held in time, never passes the cap in any run. */
  lemma {:induction false} LoadWithinCap(s0: State, cap: real, run: seq<Action>, day: int)
    requires Init(s0) && cap >= 0.0 && Legal(s0, cap, run)
    ensures Load(Exec(s0, cap, run).rows, day, Exec(s0, cap, run).clock) <= cap
  {
    InitInv(s0, cap);
    RunInv(s0, cap, run);
  }

  /** So with no cost logged outside reservations, and every call settled in time for no
      more than its estimate, the cap itself is never passed. */
  lemma {:induction false} CapIsHardForPunctualCalls(s0: State, cap: real, run: seq<Action>, day: int)
    requires Init(s0) && cap >= 0.0 && Legal(s0, cap, run)
    requires LoggedDay(Exec(s0, cap, run).log, day) == 0.0
    requires forall r :: r in Exec(s0, cap, run).rows && r.status == Settled ==> !r.late && r.Actual() <= r.estimate
    ensures Committed(Exec(s0, cap, run).log, Exec(s0, cap, run).rows, day, Exec(s0, cap, run).clock) <= cap
  {
    var s := Exec(s0, cap, run);
    CapHolds(s0, cap, run, day);
    SumZero(s.rows, ExcessWeight(day));
    SumZero(s.rows, LateWeight(day));
  }

  lemma {:induction false} Prepend(s: State, cap: real, a: Action, run: seq<Action>)
    requires Enabled(s, a) && Legal(Step(s, cap, a), cap, run)
    ensures Legal(s, cap, [a] + run) && Exec(s, cap, [a] + run) == Exec(Step(s, cap, a), cap, run)
  {
    assert ([a] + run)[1..] == run;
  }

  function Ending(w: nat): seq<Action> { [Check(w)] + ([Insert(w)] + ([Commit(w)] + [])) }

  /** One worker's admission that nobody interrupts, as one run. */
  function Admission(w: nat, r: Request): seq<Action> {
    [Begin(w, r)] + ([Acquire(w)] + ([Sweep(w)] + Ending(w)))
  }

  lemma {:induction false} EndingRuns(s: State, cap: real, w: nat, t: Txn, swept: set<nat>)
    requires s.txns == map[w := t.(phase := Swept(swept))]
    requires Fits(s.log, View(s.rows, swept), cap, t)
    ensures Legal(s, cap, Ending(w))
    ensures Exec(s, cap, Ending(w)) == s.(rows := View(s.rows, swept) + [NewRow(t)], txns := map[])
  {
    var s1 := s.(txns := map[w := t.(phase := Admitted(swept))]);
    var s2 := s.(txns := map[w := t.(phase := Inserted(swept, NewRow(t)))]);
    var s3 := s.(rows := View(s.rows, swept) + [NewRow(t)], txns := map[]);
    assert Step(s, cap, Check(w)) == s1;
    assert Step(s1, cap, Insert(w)) == s2;
    assert Step(s2, cap, Commit(w)) == s3;
    Prepend(s2, cap, Commit(w), []);
    Prepend(s1, cap, Insert(w), [Commit(w)] + []);
    Prepend(s, cap, Check(w), [Insert(w)] + ([Commit(w)] + []));
  }

  /** Uninterrupted, the six steps are one transaction: lapsed rows expire and the new
      row is added, provided the estimate fits on top of the figure. */
  lemma {:induction false} AdmissionRuns(s: State, cap: real, w: nat, r: Request)
    requires s.txns == map[] && r.estimate >= 0.0 && r.ttl > 0
    requires Fits(s.log, ExpireIn(s.rows, s.clock), cap, Txn(s.clock, r, Waiting))
    ensures Legal(s, cap, Admission(w, r))
    ensures Exec(s, cap, Admission(w, r))
      == s.(rows := ExpireIn(s.rows, s.clock) + [NewRow(Txn(s.clock, r, Waiting))])
  {
    var lapsed := Lapsed(s.rows, s.clock);
    var t := Txn(s.clock, r, Waiting);
    assert View(s.rows, lapsed) == ExpireIn(s.rows, s.clock);
    var s1 := s.(txns := map[w := t]);
    var s2 := s.(txns := map[w := t.(phase := Locked)]);
    var s3 := s.(txns := map[w := t.(phase := Swept(lapsed))]);
    assert Step(s, cap, Begin(w, r)) == s1;
    assert Step(s1, cap, Acquire(w)) == s2;
    assert Step(s2, cap, Sweep(w)) == s3;
    EndingRuns(s3, cap, w, t, lapsed);
    Prepend(s2, cap, Sweep(w), Ending(w));
    Prepend(s1, cap, Acquire(w), [Sweep(w)] + Ending(w));
    Prepend(s, cap, Begin(w, r), [Acquire(w)] + ([Sweep(w)] + Ending(w)));
  }

  lemma {:induction false} ExecAppend(s: State, cap: real, run: seq<Action>, a: Action)
    requires Legal(s, cap, run) && Enabled(Exec(s, cap, run), a)
    ensures Legal(s, cap, run + [a]) && Exec(s, cap, run + [a]) == Step(Exec(s, cap, run), cap, a)
    decreases |run|
  {
    if run == [] {
      Prepend(s, cap, a, []);
      assert [] + [a] == [a] + [];
    } else {
      ExecAppend(Step(s, cap, run[0]), cap, run[1..], a);
      Prepend(s, cap, run[0], run[1..] + [a]);
      assert [run[0]] + (run[1..] + [a]) == run + [a];
    }
  }

  lemma {:induction false} OneRowFigure(r: Row, day: int, now: int)
    ensures Committed([], [r], day, now) == OpenWeight(day, now)(r) + SettledWeight(day)(r)
  {
    SumOfOne(r, OpenWeight(day, now));
    SumOfOne(r, SettledWeight(day));
    assert Keys(DayEntries([], day), PairOf()) == [];
  }

  /** The sums are needed: one call reserves the whole cap and then settles for more. */
  lemma {:induction false} SettlementCanPassTheCap()
    ensures exists s0, run ::
      && Init(s0) && Legal(s0, 1.0, run)
      && Committed(Exec(s0, 1.0, run).log, Exec(s0, 1.0, run).rows, 0, Exec(s0, 1.0, run).clock) == 5.0
  {
    var r := Request(Pair(None, "briefing"), 1.0, 600);
    var t := Txn(0, r, Waiting);
    var s0, s1 := State(0, [], [], map[]), State(0, [], [NewRow(t)], map[]);
    assert ExpireIn([], 0) == [];
    OverspentRun(s0, s1, r, t);
    var settled := SettleRow(NewRow(t), 5.0, 0, false);
    OneRowFigure(settled, 0, 0);
  }

  lemma {:induction false} OverspentRun(s0: State, s1: State, r: Request, t: Txn)
    requires s0 == State(0, [], [], map[]) && s1 == State(0, [], [NewRow(t)], map[])
    requires r.estimate == 1.0 && r.ttl == 600 && t == Txn(0, r, Waiting)
    ensures exists run ::
      Legal(s0, 1.0, run) && Exec(s0, 1.0, run) == s1.(rows := [SettleRow(NewRow(t), 5.0, 0, false)])
  {
    assert ExpireIn([], 0) == [] && Fits([], [], 1.0, t);
    AdmissionRuns(s0, 1.0, 0, r);
    assert Exec(s0, 1.0, Admission(0, r)) == s1;
    ExecAppend(s0, 1.0, Admission(0, r), Settle(0, 5.0, 0));
    assert SettleIn(s1.rows, 0, 5.0, 0, 0) == [SettleRow(NewRow(t), 5.0, 0, false)];
  }

  // ---- rows never come back ----

  predicate Closed(r: Row) { r.status == Settled || r.status == Released }

  /** The table only grows; a row's provenance never changes, and a closed row never
      changes at all: each call is settled, retained or released at most once. */
  ghost predicate Continues(before: seq<Row>, after: seq<Row>) {
    && |before| <= |after|
    && (forall i :: 0 <= i < |before| ==>
          && after[i].pair == before[i].pair && after[i].estimate == before[i].estimate
          && after[i].reservedAt == before[i].reservedAt && after[i].expiresAt == before[i].expiresAt
          && (Closed(before[i]) ==> after[i] == before[i])
          && (before[i].status == Expired ==> after[i].status != Active && after[i].status != Released))
  }

  lemma {:induction false} CommitContinues(s: State, s': State, t: Txn)
    requires TxnOk(s, t) && t.phase.Inserted? && s'.rows == View(s.rows, t.phase.rows) + [t.phase.row]
    ensures Continues(s.rows, s'.rows)
  {
  }

  lemma {:induction false} StepContinues(s: State, cap: real, a: Action)
    requires Inv(s, cap) && Enabled(s, a)
    ensures Continues(s.rows, Step(s, cap, a).rows)
  {
    if a.Commit? {
      assert TxnOk(s, s.txns[a.w]);
      CommitContinues(s, Step(s, cap, a), s.txns[a.w]);
    }
  }

  lemma {:induction false} RunContinues(s: State, cap: real, run: seq<Action>)
    requires Inv(s, cap) && Legal(s, cap, run)
    ensures Continues(s.rows, Exec(s, cap, run).rows)
    decreases |run|
  {
    if run != [] {
      StepInv(s, cap, run[0]);
      StepContinues(s, cap, run[0]);
      RunContinues(Step(s, cap, run[0]), cap, run[1..]);
    }
  }
}
