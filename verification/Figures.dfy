/** What each step does to a day's committed figure, and exactly which steps take it from
    within the cap to past it. */
module Figures {
  import opened Basics
  import opened Ledger
  import opened BudgetMachine

  function Figure(s: State, day: int): real { Committed(s.log, s.rows, day, s.clock) }

  lemma {:induction false} SumPointwiseEqual<T>(xs: seq<T>, ys: seq<T>, w: T -> real)
    requires |xs| == |ys|
    requires forall i :: 0 <= i < |xs| ==> w(xs[i]) == w(ys[i])
    ensures Sum(xs, w) == Sum(ys, w)
  {
    SumPointwiseLe(xs, ys, w, w);
    SumPointwiseLe(ys, xs, w, w);
  }

  /** The day's unreserved spend depends on the reservations through what pairs settled. */
  lemma {:induction false} SpentFollowsSettled(log: seq<LogEntry>, rows: seq<Row>, rows': seq<Row>, day: int)
    requires forall p :: SettledTotal(rows', p) == SettledTotal(rows, p)
    ensures Spent(log, rows', day) == Spent(log, rows, day)
  {
    var logged := Keys(DayEntries(log, day), PairOf());
    forall i | 0 <= i < |logged|
      ensures Unreserved(log, rows', day)(logged[i]) == Unreserved(log, rows, day)(logged[i])
    {
      assert SettledTotal(rows', logged[i]) == SettledTotal(rows, logged[i]);
    }
    SumEqual(logged, Unreserved(log, rows', day), Unreserved(log, rows, day));
  }

  // ---- statements that change no row's weight ----

  /** Rows marked expired only where their time to live is over: nothing changes. */
  ghost predicate OnlyLapsed(rows: seq<Row>, rows': seq<Row>, now: int) {
    && |rows'| == |rows|
    && forall i :: 0 <= i < |rows| ==>
         rows'[i] == rows[i]
         || (rows[i].status == Active && rows[i].expiresAt <= now && rows'[i] == rows[i].(status := Expired))
  }

  lemma {:induction false} LapsingKeepsWeights(rows: seq<Row>, rows': seq<Row>, day: int, now: int)
    requires OnlyLapsed(rows, rows', now)
    ensures Reserved(rows', day, now) == Reserved(rows, day, now)
    ensures forall p :: SettledTotal(rows', p) == SettledTotal(rows, p)
  {
    SumPointwiseEqual(rows', rows, OpenWeight(day, now));
    SumPointwiseEqual(rows', rows, SettledWeight(day));
    forall p ensures SettledTotal(rows', p) == SettledTotal(rows, p) {
      SumPointwiseEqual(rows', rows, InGroup(RowPair(), p, ActualWeight()));
    }
  }

  /** Lapsed rows count for nothing whether or not they are marked expired. */
  lemma {:induction false} SweepKeepsFigure(log: seq<LogEntry>, rows: seq<Row>, day: int, at: int, now: int)
    requires at <= now
    ensures Committed(log, ExpireIn(rows, at), day, now) == Committed(log, rows, day, now)
  {
    LapsingKeepsWeights(rows, ExpireIn(rows, at), day, now);
    SpentFollowsSettled(log, rows, ExpireIn(rows, at), day);
  }

  /** As time passes the figure can only fall, by the estimates that lapse. */
  lemma {:induction false} FigureFallsWithTime(log: seq<LogEntry>, rows: seq<Row>, day: int, now: int, later: int)
    requires now <= later && forall i :: 0 <= i < |rows| ==> rows[i].Valid()
    ensures Committed(log, rows, day, later) <= Committed(log, rows, day, now)
  {
    SumPointwiseLe(rows, rows, OpenWeight(day, later), OpenWeight(day, now));
  }

  // ---- settling ----

  /** What settling an open row adds to a day's figure: the actual on the reservation's
      own day, less the estimate it held, less the logged cost it now accounts for. */
  function SettleChange(log: seq<LogEntry>, rows: seq<Row>, id: nat, actual: real, day: int, now: int): real
    requires id < |rows|
  {
    (if rows[id].Day() == day then actual else 0.0)
    - OpenWeight(day, now)(rows[id])
    - Min(actual, Unreserved(log, rows, day)(rows[id].pair))
  }

  lemma {:induction false} UnloggedOnDay(log: seq<LogEntry>, day: int, p: Pair)
    requires forall i :: 0 <= i < |log| ==> log[i].pair != p
    ensures LoggedOn(log, day, p) == 0.0
  {
    SumZero(log, InGroup(PairOf(), p, LogWeight(day)));
  }

  lemma {:induction false} CoveringPairs(log: seq<LogEntry>) returns (pairs: seq<Pair>)
    ensures Distinct(pairs)
    ensures forall i :: 0 <= i < |log| ==> log[i].pair in pairs
  {
    pairs := Keys(log, PairOf());
    forall i | 0 <= i < |log| ensures log[i].pair in pairs { assert PairOf()(log[i]) in pairs; }
  }

  lemma {:induction false} SettledUnreserved(log: seq<LogEntry>, rows: seq<Row>, rows': seq<Row>, day: int, p: Pair,
      actual: real)
    requires actual >= 0.0
    requires forall q :: SettledTotal(rows', q) == SettledTotal(rows, q) + if q == p then actual else 0.0
    ensures
      var covered := Single(p, Min(actual, Unreserved(log, rows, day)(p)));
      forall q :: Unreserved(log, rows, day)(q) == Unreserved(log, rows', day)(q) + covered(q)
  {
  }

  lemma {:induction false} CoveredInPairs(log: seq<LogEntry>, rows: seq<Row>, day: int, p: Pair, actual: real,
      pairs: seq<Pair>)
    requires ValidTables(log, rows) && actual >= 0.0 && Distinct(pairs)
    requires forall i :: 0 <= i < |log| ==> log[i].pair in pairs
    ensures
      var covered := Min(actual, Unreserved(log, rows, day)(p));
      Sum(pairs, Single(p, covered)) == covered
  {
    SumSingle(pairs, p, Min(actual, Unreserved(log, rows, day)(p)));
    if p !in pairs {
      UnloggedOnDay(log, day, p);
      SumNonnegative(rows, InGroup(RowPair(), p, ActualWeight()));
    }
  }

  /** The unreserved spend falls by exactly what the settlement accounts for. */
  lemma {:induction false} SettleMovesSpent(log: seq<LogEntry>, rows: seq<Row>, id: nat, actual: real, at: int,
      clock: int, day: int)
    requires ValidTables(log, rows) && Open(rows, id, at) && actual >= 0.0
    ensures Spent(log, SettleIn(rows, id, actual, at, clock), day) ==
      Spent(log, rows, day) - Min(actual, Unreserved(log, rows, day)(rows[id].pair))
  {
    var rows', p := SettleIn(rows, id, actual, at, clock), rows[id].pair;
    var pairs := CoveringPairs(log);
    var covered := Min(actual, Unreserved(log, rows, day)(p));
    SettleMovesFigures(rows, id, actual, at, clock, day, clock);
    SettledUnreserved(log, rows, rows', day, p, actual);
    SpentOverAllPairs(log, rows, day, pairs);
    SpentOverAllPairs(log, rows', day, pairs);
    SumSplit(pairs, Unreserved(log, rows', day), Single(p, covered), Unreserved(log, rows, day));
    CoveredInPairs(log, rows, day, p, actual, pairs);
  }

  lemma {:induction false} SettleMovesFigure(log: seq<LogEntry>, rows: seq<Row>, id: nat, actual: real, at: int,
      clock: int, day: int, now: int)
    requires ValidTables(log, rows) && Open(rows, id, at) && actual >= 0.0
    ensures Committed(log, SettleIn(rows, id, actual, at, clock), day, now) ==
      Committed(log, rows, day, now) + SettleChange(log, rows, id, actual, day, now)
  {
    SettleMovesSpent(log, rows, id, actual, at, clock, day);
    SettleMovesFigures(rows, id, actual, at, clock, day, now);
  }

  lemma {:induction false} ReleaseNeverAdds(log: seq<LogEntry>, rows: seq<Row>, id: nat, at: int, day: int, now: int)
    requires forall i :: 0 <= i < |rows| ==> rows[i].Valid()
    ensures Committed(log, ReleaseIn(rows, id, at), day, now) <= Committed(log, rows, day, now)
  {
    if Open(rows, id, at) {
      ReleaseMovesFigures(rows, id, at, day, now);
      SpentFollowsSettled(log, rows, ReleaseIn(rows, id, at), day);
    }
  }

  // ---- logging ----

  /** What a log row adds to a day's figure: its cost, as far as it goes beyond what the
      pair has settled. */
  function LogChange(log: seq<LogEntry>, rows: seq<Row>, e: LogEntry, day: int): real {
    if DayOf(e.startedAt) != day then 0.0 else
      Max(LoggedOn(log, day, e.pair) + e.cost - SettledTotal(rows, e.pair), 0.0) - Unreserved(log, rows, day)(e.pair)
  }

  lemma {:induction false} LoggedOnGrows(log: seq<LogEntry>, e: LogEntry, day: int, q: Pair)
    ensures LoggedOn(log + [e], day, q) ==
      LoggedOn(log, day, q) + if e.pair == q && DayOf(e.startedAt) == day then e.cost else 0.0
  {
    SumAppend(log, e, InGroup(PairOf(), q, LogWeight(day)));
  }

  lemma {:induction false} LoggedUnreservedAt(log: seq<LogEntry>, rows: seq<Row>, e: LogEntry, day: int, q: Pair)
    ensures Unreserved(log + [e], rows, day)(q) ==
      Unreserved(log, rows, day)(q) + if q == e.pair then LogChange(log, rows, e, day) else 0.0
  {
    LoggedOnGrows(log, e, day, q);
  }

  lemma {:induction false} LoggedUnreserved(log: seq<LogEntry>, rows: seq<Row>, e: LogEntry, day: int)
    ensures
      var change := Single(e.pair, LogChange(log, rows, e, day));
      forall q :: Unreserved(log + [e], rows, day)(q) == Unreserved(log, rows, day)(q) + change(q)
  {
    var change := Single(e.pair, LogChange(log, rows, e, day));
    forall q ensures Unreserved(log + [e], rows, day)(q) == Unreserved(log, rows, day)(q) + change(q) {
      LoggedUnreservedAt(log, rows, e, day, q);
    }
  }

  lemma {:induction false} LogMovesFigure(log: seq<LogEntry>, rows: seq<Row>, e: LogEntry, day: int, now: int)
    requires ValidTables(log, rows)
    ensures Committed(log + [e], rows, day, now) == Committed(log, rows, day, now) + LogChange(log, rows, e, day)
  {
    var pairs := CoveringPairs(log + [e]);
    assert forall i :: 0 <= i < |log| ==> (log + [e])[i] == log[i];
    assert (log + [e])[|log|] == e;
    LoggedUnreserved(log, rows, e, day);
    SpentOverAllPairs(log, rows, day, pairs);
    SpentOverAllPairs(log + [e], rows, day, pairs);
    var change := Single(e.pair, LogChange(log, rows, e, day));
    SumSplit(pairs, Unreserved(log, rows, day), change, Unreserved(log + [e], rows, day));
    SumSingle(pairs, e.pair, LogChange(log, rows, e, day));
  }

  // ---- committing an admission ----

  /** A new row adds its estimate to its own day, unless it has lapsed already. */
  lemma {:induction false} CommitMovesFigure(log: seq<LogEntry>, rows: seq<Row>, view: seq<Row>, row: Row, day: int,
      now: int)
    requires OnlyLapsed(rows, view, now) && row.status == Active
    ensures Committed(log, view + [row], day, now) == Committed(log, rows, day, now) + OpenWeight(day, now)(row)
  {
    LapsingKeepsWeights(rows, view, day, now);
    SumAppend(view, row, OpenWeight(day, now));
    SumAppend(view, row, SettledWeight(day));
    forall p ensures SettledTotal(view + [row], p) == SettledTotal(rows, p) {
      SumAppend(view, row, InGroup(RowPair(), p, ActualWeight()));
    }
    SpentFollowsSettled(log, rows, view + [row], day);
  }

  /** What an admission leaves in the table: lapsed rows are marked expired, all others stay,
      and an active row is added that holds the estimate for its pair from now on until the
      time to live is over. */
  ghost predicate AddsReservation(rows: seq<Row>, rows': seq<Row>, r: Request, now: int) {
    && |rows'| == |rows| + 1
    && (forall i :: 0 <= i < |rows| ==>
          rows'[i] ==
            if rows[i].status == Active && rows[i].expiresAt <= now then rows[i].(status := Expired) else rows[i])
    && var row := rows'[|rows|];
    && row.pair == r.pair && row.estimate == r.estimate
    && row.reservedAt == now && row.expiresAt == now + r.ttl
    && row.status == Active && row.settled.None? && row.settledAt.None? && !row.late
  }

  /** Of all days' figures the new reservation raises that of its own day, by its estimate. */
  ghost predicate RaisesFigure(log: seq<LogEntry>, rows: seq<Row>, rows': seq<Row>, r: Request, now: int) {
    forall day: int ::
      Committed(log, rows', day, now) == Committed(log, rows, day, now) + if day == DayOf(now) then r.estimate else 0.0
  }

  lemma {:induction false} ReservationRaises(log: seq<LogEntry>, rows: seq<Row>, rows': seq<Row>, r: Request, now: int)
    requires AddsReservation(rows, rows', r, now) && r.ttl > 0
    ensures RaisesFigure(log, rows, rows', r, now)
  {
    forall day: int
      ensures Committed(log, rows', day, now) ==
        Committed(log, rows, day, now) + if day == DayOf(now) then r.estimate else 0.0
    {
      var view := rows'[..|rows|];
      assert rows' == view + [rows'[|rows|]];
      CommitMovesFigure(log, rows, view, rows'[|rows|], day, now);
    }
  }

  /** A free call, or one whose estimate fits on top of the day's figure, is admitted; its
      reservation then counts, so that later calls find that much less room. */
  lemma {:induction false} AdmissionReserves(s: State, cap: real, w: nat, r: Request)
    requires s.txns == map[] && r.estimate >= 0.0 && r.ttl > 0
    requires r.estimate == 0.0 || Committed(s.log, s.rows, DayOf(s.clock), s.clock) + r.estimate <= cap
    ensures Legal(s, cap, Admission(w, r))
    ensures
      var s' := Exec(s, cap, Admission(w, r));
      && s' == s.(rows := s'.rows)
      && AddsReservation(s.rows, s'.rows, r, s.clock) && RaisesFigure(s.log, s.rows, s'.rows, r, s.clock)
  {
    SweepKeepsFigure(s.log, s.rows, DayOf(s.clock), s.clock, s.clock);
    AdmissionRuns(s, cap, w, r);
    ReservationRaises(s.log, s.rows, Exec(s, cap, Admission(w, r)).rows, r, s.clock);
  }

  /** A paid call that does not fit leaves everything as it was. */
  lemma {:induction false} RefusalChangesNothing(s: State, cap: real, w: nat, r: Request)
    requires s.txns == map[] && r.estimate > 0.0 && r.ttl > 0
    requires Committed(s.log, s.rows, DayOf(s.clock), s.clock) + r.estimate > cap
    ensures
      var s1 := Step(s, cap, Begin(w, r));
      var s2 := Step(s1, cap, Acquire(w));
      Enabled(s2, Sweep(w)) && Enabled(Step(s2, cap, Sweep(w)), Check(w))
      && Step(Step(s2, cap, Sweep(w)), cap, Check(w)) == s
  {
    SweepKeepsFigure(s.log, s.rows, DayOf(s.clock), s.clock, s.clock);
    assert View(s.rows, Lapsed(s.rows, s.clock)) == ExpireIn(s.rows, s.clock);
    var s3 := Step(Step(Step(s, cap, Begin(w, r)), cap, Acquire(w)), cap, Sweep(w));
    assert Step(s3, cap, Check(w)).txns == map[];
  }

  // ---- which steps pass the cap ----

  /** The step adds more to the day's figure than the cap leaves. Everything here can be
      read off the tables before the step. */
  predicate PassesCap(s: State, cap: real, a: Action, day: int) {
    var left := cap - Figure(s, day);
    match a
    case Settle(id, actual, at) => Open(s.rows, id, at) && SettleChange(s.log, s.rows, id, actual, day, s.clock) > left
    case Retain(id, at) =>
      Open(s.rows, id, at) && SettleChange(s.log, s.rows, id, s.rows[id].estimate, day, s.clock) > left
    case Log(entry) => LogChange(s.log, s.rows, entry, day) > left
    case Commit(w) =>
      w in s.txns && s.txns[w].phase.Inserted? && OpenWeight(day, s.clock)(s.txns[w].phase.row) > left
    case _ => false
  }

  lemma {:induction false} CommitStepMoves(s: State, cap: real, w: nat, day: int)
    requires Inv(s, cap) && Enabled(s, Commit(w))
    ensures Figure(Step(s, cap, Commit(w)), day) == Figure(s, day) + OpenWeight(day, s.clock)(s.txns[w].phase.row)
  {
    var p := s.txns[w].phase;
    assert TxnOk(s, s.txns[w]);
    CommitMovesFigure(s.log, s.rows, View(s.rows, p.rows), p.row, day, s.clock);
  }

  lemma {:induction false} SettleStepMoves(s: State, cap: real, id: nat, actual: real, at: int, day: int)
    requires Inv(s, cap) && actual >= 0.0
    ensures Committed(s.log, SettleIn(s.rows, id, actual, at, s.clock), day, s.clock) ==
      Figure(s, day) + if Open(s.rows, id, at) then SettleChange(s.log, s.rows, id, actual, day, s.clock) else 0.0
  {
    if Open(s.rows, id, at) {
      SettleMovesFigure(s.log, s.rows, id, actual, at, s.clock, day, s.clock);
    }
  }

  lemma {:induction false} SettlementPassesIff(s: State, cap: real, a: Action, day: int)
    requires Inv(s, cap) && Enabled(s, a) && Figure(s, day) <= cap && (a.Settle? || a.Retain?)
    ensures Figure(Step(s, cap, a), day) > cap <==> PassesCap(s, cap, a, day)
  {
    if a.Settle? {
      SettleStepMoves(s, cap, a.id, a.actual, a.at, day);
    } else if a.id < |s.rows| {
      SettleStepMoves(s, cap, a.id, s.rows[a.id].estimate, a.at, day);
    }
  }

  /** Releases, expiries and time never add to a figure. */
  lemma {:induction false} GivingBackNeverPasses(s: State, cap: real, a: Action, day: int)
    requires Inv(s, cap) && Enabled(s, a) && (a.Release? || a.Expire? || a.Tick?)
    ensures Figure(Step(s, cap, a), day) <= Figure(s, day)
  {
    if a.Release? {
      ReleaseNeverAdds(s.log, s.rows, a.id, a.at, day, s.clock);
    } else if a.Expire? {
      SweepKeepsFigure(s.log, s.rows, day, a.at, s.clock);
    } else {
      FigureFallsWithTime(s.log, s.rows, day, s.clock, a.to);
    }
  }

  /** The steps of a transaction before its commit are private to it. */
  lemma {:induction false} PrivateStepsKeepFigure(s: State, cap: real, a: Action, day: int)
    requires Enabled(s, a)
    requires a.Begin? || a.Acquire? || a.Sweep? || a.Check? || a.Insert? || a.Rollback?
    ensures Figure(Step(s, cap, a), day) == Figure(s, day)
  {
    assert Step(s, cap, a).rows == s.rows && Step(s, cap, a).log == s.log && Step(s, cap, a).clock == s.clock;
  }

  /** A step takes a day's figure from within the cap to past it exactly if it is a
      settlement, a retained estimate, a log row or the commit of an admission that adds
      more than the cap leaves. No other step ever does. */
  lemma {:induction false} StepPassesCapIff(s: State, cap: real, a: Action, day: int)
    requires Inv(s, cap) && Enabled(s, a) && Figure(s, day) <= cap
    ensures Figure(Step(s, cap, a), day) > cap <==> PassesCap(s, cap, a, day)
  {
    if a.Settle? || a.Retain? {
      SettlementPassesIff(s, cap, a, day);
    } else if a.Log? {
      LogMovesFigure(s.log, s.rows, a.entry, day, s.clock);
    } else if a.Commit? {
      CommitStepMoves(s, cap, a.w, day);
    } else if a.Release? || a.Expire? || a.Tick? {
      GivingBackNeverPasses(s, cap, a, day);
    } else {
      PrivateStepsKeepFigure(s, cap, a, day);
    }
  }

  /** The day's figure is within the cap before, between and after all steps of a run. */
  ghost predicate StaysWithin(s: State, cap: real, run: seq<Action>, day: int)
    requires Legal(s, cap, run)
    decreases |run|
  {
    Figure(s, day) <= cap && (run != [] ==> StaysWithin(Step(s, cap, run[0]), cap, run[1..], day))
  }

  /** No step of the run adds more to the day's figure than the cap leaves at that step. */
  ghost predicate NoStepPasses(s: State, cap: real, run: seq<Action>, day: int)
    requires Legal(s, cap, run)
    decreases |run|
  {
    run != [] ==> !PassesCap(s, cap, run[0], day) && NoStepPasses(Step(s, cap, run[0]), cap, run[1..], day)
  }

  lemma {:induction false} StaysWithinFrom(s: State, cap: real, run: seq<Action>, day: int)
    requires Inv(s, cap) && Legal(s, cap, run)
    ensures StaysWithin(s, cap, run, day) <==> Figure(s, day) <= cap && NoStepPasses(s, cap, run, day)
    decreases |run|
  {
    if run != [] && Figure(s, day) <= cap {
      StepInv(s, cap, run[0]);
      StepPassesCapIff(s, cap, run[0], day);
      StaysWithinFrom(Step(s, cap, run[0]), cap, run[1..], day);
    }
  }

  /** "Workers can never push the figure over the cap", exactly: in every interleaving, a
      day that starts within the cap stays within it throughout if and only if no
      settlement, retained estimate, log row or commit adds more than the cap leaves then. */
  lemma {:induction false} WithinCapIff(s0: State, cap: real, run: seq<Action>, day: int)
    requires Init(s0) && cap >= 0.0 && Legal(s0, cap, run)
    ensures StaysWithin(s0, cap, run, day) <==> Figure(s0, day) <= cap && NoStepPasses(s0, cap, run, day)
  {
    InitInv(s0, cap);
    StaysWithinFrom(s0, cap, run, day);
  }

  /** A paid admission that nobody interrupts leaves its day within the cap. */
  lemma {:induction false} QuietAdmissionStaysWithin(s: State, cap: real, w: nat, r: Request)
    requires s.txns == map[] && r.estimate > 0.0 && r.ttl > 0
    requires Fits(s.log, ExpireIn(s.rows, s.clock), cap, Txn(s.clock, r, Waiting))
    ensures Legal(s, cap, Admission(w, r))
    ensures Figure(Exec(s, cap, Admission(w, r)), DayOf(s.clock)) <= cap
  {
    var row := NewRow(Txn(s.clock, r, Waiting));
    AdmissionRuns(s, cap, w, r);
    SweepKeepsFigure(s.log, s.rows, DayOf(s.clock), s.clock, s.clock);
    CommitMovesFigure(s.log, s.rows, ExpireIn(s.rows, s.clock), row, DayOf(s.clock), s.clock);
  }

  // ---- free calls ----

  /** A zero estimate passes the admission test whatever the figure. */
  lemma {:induction false} FreeCallsAlwaysFit(log: seq<LogEntry>, rows: seq<Row>, cap: real, t: Txn)
    requires t.request.estimate == 0.0
    ensures Fits(log, rows, cap, t)
  {
  }

  lemma {:induction false} LoggedFigure(e: LogEntry)
    requires e.cost > 0.0
    ensures Committed([e], [], DayOf(e.startedAt), e.startedAt) == e.cost
  {
    var day := DayOf(e.startedAt);
    assert [] + [e] == [e];
    LogMovesFigure([], [], e, day, e.startedAt);
    assert LoggedOn([], day, e.pair) == 0.0 && SettledTotal([], e.pair) == 0.0;
    assert Keys(DayEntries([], day), PairOf()) == [];
  }

  lemma {:induction false} FreeCallRuns(s: State, cap: real, r: Request)
    requires s.txns == map[] && s.rows == [] && r.estimate == 0.0 && r.ttl > 0
    ensures Legal(s, cap, Admission(0, r)) && |Exec(s, cap, Admission(0, r)).rows| == 1
  {
    FreeCallsAlwaysFit(s.log, ExpireIn(s.rows, s.clock), cap, Txn(s.clock, r, Waiting));
    AdmissionRuns(s, cap, 0, r);
  }

  /** So a free call is admitted on a day that paid spend has already taken past the cap. */
  lemma {:induction false} FreeCallAdmittedOverTheCap()
    ensures exists s: State, r: Request ::
      && Init(s) && r.estimate == 0.0 && Figure(s, DayOf(s.clock)) > 1.0
      && Legal(s, 1.0, Admission(0, r))
      && |Exec(s, 1.0, Admission(0, r)).rows| == |s.rows| + 1
  {
    var e := LogEntry(0, Pair(None, "briefing"), 5.0);
    var r := Request(e.pair, 0.0, 600);
    var s := State(0, [e], [], map[]);
    LoggedFigure(e);
    FreeCallRuns(s, 1.0, r);
  }
}
