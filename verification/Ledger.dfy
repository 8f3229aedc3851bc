/** The budget tables: reservations, the processing log beside them, and the
    committed figure that admission compares with the daily cap. */
module Ledger {
  import opened Basics

  /** Microseconds in one UTC day; clock readings are microseconds. */
  const DAY: int := 86_400_000_000

  function DayOf(t: int): int { t / DAY }

  /** Days are 24 hours long and begin at multiples of that. */
  lemma {:induction false} DayIs24Hours(t: int, day: int)
    ensures DayOf(t) == day <==> 0 <= t - day * (24 * 60 * 60 * 1_000_000) < 24 * 60 * 60 * 1_000_000
  {
  }

  /** What the log and the reservations are reconciled by. Equality of the
      optional correlation is SQL's IS NOT DISTINCT FROM. */
  datatype Pair = Pair(correlation: Option<string>, processor: string)

  datatype LogEntry = LogEntry(startedAt: int, pair: Pair, cost: real)

  datatype Status = Active | Expired | Settled | Released

  /** One reservation row. The table only grows, so a row's id is its index.
      `late` is history, not a column: whether the TTL had lapsed when the row
      was settled. The settledAt column cannot tell, because its value is read
      before the update waits for the row. */
  datatype Row = Row(
    pair: Pair, estimate: real, reservedAt: int, expiresAt: int,
    status: Status, settled: Option<real>, settledAt: Option<int>, late: bool)
  {
    function Day(): int { DayOf(reservedAt) }

    function Actual(): real { if settled.Some? then settled.value else estimate }

    /** The CHECK constraints of the table, and nonnegative amounts. */
    predicate Valid() {
      && estimate >= 0.0
      && (settled.Some? ==> settled.value >= 0.0)
      && (settled.Some? <==> settledAt.Some?)
      && (status == Active || status == Expired ==> settled.None?)
      && (status == Settled ==> settled.Some?)
      && (status == Released ==> settled == Some(0.0))
    }
  }

  // ---- what one statement does to a row ----

  function SettleRow(r: Row, actual: real, at: int, lapsed: bool): Row {
    r.(status := Settled, settled := Some(actual), settledAt := Some(at), late := lapsed)
  }

  function ReleaseRow(r: Row, at: int): Row {
    r.(status := Released, settled := Some(0.0), settledAt := Some(at))
  }

  function ExpireRow(r: Row, now: int): Row {
    if r.status == Active && r.expiresAt <= now then r.(status := Expired) else r
  }

  /** A row still open to settle and retain; released rows and settled rows are not.
      The last conjunct is the table's settle_after_reserve constraint. */
  predicate Open(rows: seq<Row>, id: nat, at: int) {
    && id < |rows|
    && (rows[id].status == Active || rows[id].status == Expired)
    && rows[id].reservedAt <= at
  }

  /** Settling reaches an active or expired row, and no other. */
  function SettleIn(rows: seq<Row>, id: nat, actual: real, at: int, clock: int): seq<Row> {
    if Open(rows, id, at)
    then rows[id := SettleRow(rows[id], actual, at, rows[id].expiresAt <= clock)]
    else rows
  }

  /** As SettleIn, with the row's own estimate as the actual. */
  function RetainIn(rows: seq<Row>, id: nat, at: int, clock: int): seq<Row> {
    if id < |rows| then SettleIn(rows, id, rows[id].estimate, at, clock) else rows
  }

  /** Releasing reaches an active row, and no other. */
  function ReleaseIn(rows: seq<Row>, id: nat, at: int): seq<Row> {
    if Open(rows, id, at) && rows[id].status == Active
    then rows[id := ReleaseRow(rows[id], at)]
    else rows
  }

  /** Expiring reaches every active row whose time to live is over. */
  function ExpireIn(rows: seq<Row>, now: int): (out: seq<Row>)
    ensures |out| == |rows|
    ensures forall i :: 0 <= i < |rows| ==> out[i] == ExpireRow(rows[i], now)
  {
    seq(|rows|, i requires 0 <= i < |rows| => ExpireRow(rows[i], now))
  }

  // ---- the committed figure ----

  function LogWeight(day: int): LogEntry -> real {
    (e: LogEntry) => if DayOf(e.startedAt) == day then e.cost else 0.0
  }

  function PairOf(): LogEntry -> Pair { (e: LogEntry) => e.pair }

  function RowPair(): Row -> Pair { (r: Row) => r.pair }

  /** What the log says one pair cost on one day. */
  function LoggedOn(log: seq<LogEntry>, day: int, p: Pair): real {
    Sum(log, InGroup(PairOf(), p, LogWeight(day)))
  }

  function ActualWeight(): Row -> real {
    (r: Row) => if r.status == Settled then r.Actual() else 0.0
  }

  /** A pair's settled actuals, whatever their day. */
  function SettledTotal(rows: seq<Row>, p: Pair): real {
    Sum(rows, InGroup(RowPair(), p, ActualWeight()))
  }

  /** The log cost of a pair that its settlements do not already account for. */
  function Unreserved(log: seq<LogEntry>, rows: seq<Row>, day: int): Pair -> real {
    (p: Pair) => Max(LoggedOn(log, day, p) - SettledTotal(rows, p), 0.0)
  }

  function DayEntries(log: seq<LogEntry>, day: int): (out: seq<LogEntry>)
    ensures forall i :: 0 <= i < |out| ==> DayOf(out[i].startedAt) == day
  {
    if log == [] then [] else
      var rest := DayEntries(log[..|log| - 1], day);
      var e := log[|log| - 1];
      if DayOf(e.startedAt) == day then rest + [e] else rest
  }

  function Spent(log: seq<LogEntry>, rows: seq<Row>, day: int): real {
    Sum(Keys(DayEntries(log, day), PairOf()), Unreserved(log, rows, day))
  }

  /** Estimates of the day's active reservations whose TTL has not lapsed. */
  function OpenWeight(day: int, now: int): Row -> real {
    (r: Row) => if r.Day() == day && r.status == Active && r.expiresAt > now then r.estimate else 0.0
  }

  function SettledWeight(day: int): Row -> real {
    (r: Row) => if r.Day() == day && r.status == Settled then r.Actual() else 0.0
  }

  function Reserved(rows: seq<Row>, day: int, now: int): real {
    Sum(rows, OpenWeight(day, now)) + Sum(rows, SettledWeight(day))
  }

  /** The figure admission compares with the cap. */
  function Committed(log: seq<LogEntry>, rows: seq<Row>, day: int, now: int): real {
    Spent(log, rows, day) + Reserved(rows, day, now)
  }

  // ---- Spent is the sum over all pairs, not only those the day logged ----

  lemma {:induction false} DayEntriesKeepDay(log: seq<LogEntry>, day: int, p: Pair)
    ensures LoggedOn(DayEntries(log, day), day, p) == LoggedOn(log, day, p)
  {
    if log != [] {
      var n := |log| - 1;
      DayEntriesKeepDay(log[..n], day, p);
      if DayOf(log[n].startedAt) == day {
        SumAppend(DayEntries(log[..n], day), log[n], InGroup(PairOf(), p, LogWeight(day)));
      }
    }
  }

  lemma {:induction false} UnloggedPairCostsNothing(log: seq<LogEntry>, day: int, p: Pair)
    requires p !in Keys(DayEntries(log, day), PairOf())
    ensures LoggedOn(log, day, p) == 0.0
  {
    DayEntriesKeepDay(log, day, p);
    SumZero(DayEntries(log, day), InGroup(PairOf(), p, LogWeight(day)));
  }

  /** Distinct lists of keys sum alike when the keys they do not share weigh nothing. */
  lemma {:induction false} SumOverSuperset<K(!new)>(small: seq<K>, big: seq<K>, w: K -> real)
    requires Distinct(small) && Distinct(big)
    requires forall k :: k in small ==> k in big
    requires forall k :: k in big && k !in small ==> w(k) == 0.0
    ensures Sum(small, w) == Sum(big, w)
  {
    if small == [] {
      SumZero(big, w);
    } else {
      var n := |small| - 1;
      var k := small[n];
      var rest := Except(w, k);
      assert small == small[..n] + [k];
      SumOverSuperset(small[..n], big, rest);
      SumEqual(small[..n], rest, w);
      SumSingle(big, k, w(k));
      SumSplit(big, rest, Single(k, w(k)), w);
    }
  }

  function Except<K(==)>(w: K -> real, k0: K): K -> real {
    (k: K) => if k == k0 then 0.0 else w(k)
  }

  lemma {:induction false} SpentOverAllPairs(log: seq<LogEntry>, rows: seq<Row>, day: int, pairs: seq<Pair>)
    requires Distinct(pairs)
    requires forall i :: 0 <= i < |log| ==> log[i].pair in pairs
    requires forall i :: 0 <= i < |rows| ==> rows[i].Valid()
    ensures Spent(log, rows, day) == Sum(pairs, Unreserved(log, rows, day))
  {
    var logged := Keys(DayEntries(log, day), PairOf());
    DayKeysAreLogKeys(log, day, pairs);
    forall p | p in pairs && p !in logged ensures Unreserved(log, rows, day)(p) == 0.0 {
      UnloggedPairCostsNothing(log, day, p);
      SumNonnegative(rows, InGroup(RowPair(), p, ActualWeight()));
    }
    SumOverSuperset(logged, pairs, Unreserved(log, rows, day));
  }

  lemma {:induction false} DayKeysAreLogKeys(log: seq<LogEntry>, day: int, pairs: seq<Pair>)
    requires forall i :: 0 <= i < |log| ==> log[i].pair in pairs
    ensures forall k :: k in Keys(DayEntries(log, day), PairOf()) ==> k in pairs
  {
    if log != [] {
      var n := |log| - 1;
      DayKeysAreLogKeys(log[..n], day, pairs);
      if DayOf(log[n].startedAt) == day {
        var rest := DayEntries(log[..n], day);
        assert (rest + [log[n]])[..|rest|] == rest;
      }
    }
  }

  // ---- bounds ----

  ghost predicate ValidTables(log: seq<LogEntry>, rows: seq<Row>) {
    && (forall i :: 0 <= i < |log| ==> log[i].cost >= 0.0)
    && (forall i :: 0 <= i < |rows| ==> rows[i].Valid())
  }

  /** What the whole log says the day cost. */
  function LoggedDay(log: seq<LogEntry>, day: int): real { Sum(log, LogWeight(day)) }

  /** The unreserved part lies between nothing and the day's whole logged cost. */
  lemma {:induction false} SpentWithinLog(log: seq<LogEntry>, rows: seq<Row>, day: int)
    requires ValidTables(log, rows)
    ensures 0.0 <= Spent(log, rows, day) <= LoggedDay(log, day)
  {
    var pairs := Keys(log, PairOf());
    forall i | 0 <= i < |log| ensures log[i].pair in pairs { assert PairOf()(log[i]) in pairs; }
    SpentOverAllPairs(log, rows, day, pairs);
    GroupsPartition(log, PairOf(), LogWeight(day), pairs);
    forall i | 0 <= i < |pairs|
      ensures Unreserved(log, rows, day)(pairs[i]) <= GroupTotal(log, PairOf(), LogWeight(day))(pairs[i])
    {
      SumNonnegative(rows, InGroup(RowPair(), pairs[i], ActualWeight()));
      SumNonnegative(log, InGroup(PairOf(), pairs[i], LogWeight(day)));
    }
    SumPointwiseLe(pairs, pairs, Unreserved(log, rows, day), GroupTotal(log, PairOf(), LogWeight(day)));
    SumNonnegative(pairs, Unreserved(log, rows, day));
  }

  // ---- the committed figure, taken apart ----

  /** What a reservation can hold of the cap: its estimate while it is open, then no
      more than that estimate once it was settled in time. */
  function LoadWeight(day: int, now: int): Row -> real {
    (r: Row) =>
      if r.Day() != day then 0.0
      else if r.status == Active && r.expiresAt > now then r.estimate
      else if r.status == Settled && !r.late then Min(r.estimate, r.Actual())
      else 0.0
  }

  /** Settled in time, but for more than was reserved. */
  function ExcessWeight(day: int): Row -> real {
    (r: Row) =>
      if r.Day() == day && r.status == Settled && !r.late then Max(r.Actual() - r.estimate, 0.0) else 0.0
  }

  /** Settled after the TTL had lapsed and the estimate had been given back. */
  function LateWeight(day: int): Row -> real {
    (r: Row) => if r.Day() == day && r.status == Settled && r.late then r.Actual() else 0.0
  }

  function Load(rows: seq<Row>, day: int, now: int): real { Sum(rows, LoadWeight(day, now)) }

  function Excess(rows: seq<Row>, day: int): real { Sum(rows, ExcessWeight(day)) }

  function Late(rows: seq<Row>, day: int): real { Sum(rows, LateWeight(day)) }

  function BeyondWeight(day: int): Row -> real {
    (r: Row) => ExcessWeight(day)(r) + LateWeight(day)(r)
  }

  function HeldWeight(day: int, now: int): Row -> real {
    (r: Row) => OpenWeight(day, now)(r) + SettledWeight(day)(r)
  }

  /** The reserved part is exactly the load plus the two ways settlements go past it. */
  lemma {:induction false} ReservedSplits(rows: seq<Row>, day: int, now: int)
    ensures Reserved(rows, day, now) == Load(rows, day, now) + Excess(rows, day) + Late(rows, day)
  {
    SumSplit(rows, OpenWeight(day, now), SettledWeight(day), HeldWeight(day, now));
    SumSplit(rows, ExcessWeight(day), LateWeight(day), BeyondWeight(day));
    SumSplit(rows, LoadWeight(day, now), BeyondWeight(day), HeldWeight(day, now));
  }

  lemma {:induction false} LoadWithinReserved(rows: seq<Row>, day: int, now: int)
    requires forall i :: 0 <= i < |rows| ==> rows[i].Valid()
    ensures 0.0 <= Load(rows, day, now) <= Reserved(rows, day, now)
  {
    ReservedSplits(rows, day, now);
    SumNonnegative(rows, ExcessWeight(day));
    SumNonnegative(rows, LateWeight(day));
    SumNonnegative(rows, LoadWeight(day, now));
  }

  // ---- what each statement does to the load ----

  lemma {:induction false} LoadFallsWithTime(rows: seq<Row>, day: int, now: int, later: int)
    requires forall i :: 0 <= i < |rows| ==> rows[i].Valid()
    requires now <= later
    ensures Load(rows, day, later) <= Load(rows, day, now)
  {
    SumPointwiseLe(rows, rows, LoadWeight(day, later), LoadWeight(day, now));
  }

  lemma {:induction false} SettleKeepsLoad(rows: seq<Row>, day: int, id: nat, actual: real, at: int, clock: int)
    requires forall i :: 0 <= i < |rows| ==> rows[i].Valid()
    requires actual >= 0.0
    requires forall i :: 0 <= i < |rows| && rows[i].status == Expired ==> rows[i].expiresAt <= clock
    ensures Load(SettleIn(rows, id, actual, at, clock), day, clock) <= Load(rows, day, clock)
  {
    if Open(rows, id, at) {
      SumUpdate(rows, id, SettleRow(rows[id], actual, at, rows[id].expiresAt <= clock), LoadWeight(day, clock));
    }
  }

  lemma {:induction false} ReleaseKeepsLoad(rows: seq<Row>, day: int, id: nat, at: int, clock: int)
    requires forall i :: 0 <= i < |rows| ==> rows[i].Valid()
    ensures Load(ReleaseIn(rows, id, at), day, clock) <= Load(rows, day, clock)
  {
    if Open(rows, id, at) {
      SumUpdate(rows, id, ReleaseRow(rows[id], at), LoadWeight(day, clock));
    }
  }

  lemma {:induction false} ExpireKeepsLoad(rows: seq<Row>, day: int, now: int, clock: int)
    requires forall i :: 0 <= i < |rows| ==> rows[i].Valid()
    ensures Load(ExpireIn(rows, now), day, clock) <= Load(rows, day, clock)
  {
    SumPointwiseLe(ExpireIn(rows, now), rows, LoadWeight(day, clock), LoadWeight(day, clock));
  }

  // ---- what each statement does to the figures ----

  /** Settling exchanges the open estimate for the actual on the reservation's own day,
      and adds the actual to what its pair has settled. */
  lemma {:induction false} SettleMovesFigures(rows: seq<Row>, id: nat, actual: real, at: int, clock: int, day: int,
      now: int)
    requires Open(rows, id, at)
    ensures
      var r, rows' := rows[id], SettleIn(rows, id, actual, at, clock);
      && Reserved(rows', day, now) ==
           Reserved(rows, day, now) - OpenWeight(day, now)(r) + (if r.Day() == day then actual else 0.0)
      && (forall p :: SettledTotal(rows', p) == SettledTotal(rows, p) + if p == r.pair then actual else 0.0)
  {
    var r' := SettleRow(rows[id], actual, at, rows[id].expiresAt <= clock);
    SumUpdate(rows, id, r', OpenWeight(day, now));
    SumUpdate(rows, id, r', SettledWeight(day));
    forall p
      ensures SettledTotal(rows[id := r'], p) == SettledTotal(rows, p) + if p == rows[id].pair then actual else 0.0
    {
      SumUpdate(rows, id, r', InGroup(RowPair(), p, ActualWeight()));
    }
  }

  /** Releasing an active reservation gives back its estimate and settles nothing. */
  lemma {:induction false} ReleaseMovesFigures(rows: seq<Row>, id: nat, at: int, day: int, now: int)
    requires Open(rows, id, at)
    ensures
      var r, rows' := rows[id], ReleaseIn(rows, id, at);
      && Reserved(rows', day, now) == Reserved(rows, day, now) - OpenWeight(day, now)(r)
      && (forall p :: SettledTotal(rows', p) == SettledTotal(rows, p))
  {
    var r' := ReleaseRow(rows[id], at);
    SumUpdate(rows, id, r', OpenWeight(day, now));
    SumUpdate(rows, id, r', SettledWeight(day));
    forall p ensures SettledTotal(rows[id := r'], p) == SettledTotal(rows, p) {
      SumUpdate(rows, id, r', InGroup(RowPair(), p, ActualWeight()));
    }
  }
}
