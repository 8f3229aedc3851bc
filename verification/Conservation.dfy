/** "Every dollar is counted exactly once": what one pair contributes to the
    committed figures of all days together, and when that is the larger of what
    was logged and what was settled for it. */
module Conservation {
  import opened Basics
  import opened Ledger

  function EntryDay(): LogEntry -> int { (e: LogEntry) => DayOf(e.startedAt) }

  function RowDay(): Row -> int { (r: Row) => r.Day() }

  function CostOf(): LogEntry -> real { (e: LogEntry) => e.cost }

  function PairCost(p: Pair): LogEntry -> real { InGroup(PairOf(), p, CostOf()) }

  function LoggedTotal(log: seq<LogEntry>, p: Pair): real { Sum(log, PairCost(p)) }

  /** The committed figure of one day on the part of the tables that belongs to one pair. */
  function Contribution(log: seq<LogEntry>, rows: seq<Row>, p: Pair, now: int): int -> real {
    (day: int) =>
      Unreserved(log, rows, day)(p)
      + Sum(rows, InGroup(RowPair(), p, OpenWeight(day, now)))
      + Sum(rows, InGroup(RowPair(), p, SettledWeight(day)))
  }

  function PairContribution(log: seq<LogEntry>, rows: seq<Row>, day: int, now: int): Pair -> real {
    (p: Pair) => Contribution(log, rows, p, now)(day)
  }

  function UnreservedAndOpen(log: seq<LogEntry>, rows: seq<Row>, day: int, now: int): Pair -> real {
    (p: Pair) => Unreserved(log, rows, day)(p) + GroupTotal(rows, RowPair(), OpenWeight(day, now))(p)
  }

  /** A day's committed figure is the sum of what the pairs contribute to it. */
  lemma {:induction false} CommittedIsSumOfPairs(log: seq<LogEntry>, rows: seq<Row>, day: int, now: int,
      pairs: seq<Pair>)
    requires ValidTables(log, rows)
    requires Distinct(pairs)
    requires forall i :: 0 <= i < |log| ==> log[i].pair in pairs
    requires forall i :: 0 <= i < |rows| ==> rows[i].pair in pairs
    ensures Committed(log, rows, day, now) == Sum(pairs, PairContribution(log, rows, day, now))
  {
    SpentOverAllPairs(log, rows, day, pairs);
    GroupsPartition(rows, RowPair(), OpenWeight(day, now), pairs);
    GroupsPartition(rows, RowPair(), SettledWeight(day), pairs);
    SumSplit(pairs, Unreserved(log, rows, day), GroupTotal(rows, RowPair(), OpenWeight(day, now)),
             UnreservedAndOpen(log, rows, day, now));
    forall i | 0 <= i < |pairs|
      ensures PairContribution(log, rows, day, now)(pairs[i])
        == UnreservedAndOpen(log, rows, day, now)(pairs[i]) + GroupTotal(rows, RowPair(), SettledWeight(day))(pairs[i])
    {
      var p := pairs[i];
      assert PairContribution(log, rows, day, now)(p) == Contribution(log, rows, p, now)(day);
    }
    SumSplit(pairs, UnreservedAndOpen(log, rows, day, now), GroupTotal(rows, RowPair(), SettledWeight(day)),
             PairContribution(log, rows, day, now));
  }

  // ---- summing one pair over all days ----

  function LoggedPerDay(log: seq<LogEntry>, p: Pair): int -> real {
    (day: int) => LoggedOn(log, day, p)
  }

  function SettledPerDay(rows: seq<Row>, p: Pair): int -> real {
    (day: int) => Sum(rows, InGroup(RowPair(), p, SettledWeight(day)))
  }

  ghost predicate CoversDays(log: seq<LogEntry>, rows: seq<Row>, days: seq<int>) {
    && Distinct(days)
    && (forall i :: 0 <= i < |log| ==> DayOf(log[i].startedAt) in days)
    && (forall i :: 0 <= i < |rows| ==> rows[i].Day() in days)
  }

  lemma {:induction false} DaysPartition(log: seq<LogEntry>, rows: seq<Row>, p: Pair, days: seq<int>)
    requires CoversDays(log, rows, days)
    ensures Sum(days, LoggedPerDay(log, p)) == LoggedTotal(log, p)
    ensures Sum(days, SettledPerDay(rows, p)) == SettledTotal(rows, p)
  {
    GroupsPartition(log, EntryDay(), PairCost(p), days);
    forall i | 0 <= i < |days|
      ensures LoggedPerDay(log, p)(days[i]) == GroupTotal(log, EntryDay(), PairCost(p))(days[i])
    {
      SumEqual(log, InGroup(PairOf(), p, LogWeight(days[i])), InGroup(EntryDay(), days[i], PairCost(p)));
    }
    SumEqual(days, LoggedPerDay(log, p), GroupTotal(log, EntryDay(), PairCost(p)));

    var w := InGroup(RowPair(), p, ActualWeight());
    GroupsPartition(rows, RowDay(), w, days);
    forall i | 0 <= i < |days|
      ensures SettledPerDay(rows, p)(days[i]) == GroupTotal(rows, RowDay(), w)(days[i])
    {
      SumEqual(rows, InGroup(RowPair(), p, SettledWeight(days[i])), InGroup(RowDay(), days[i], w));
    }
    SumEqual(days, SettledPerDay(rows, p), GroupTotal(rows, RowDay(), w));
  }

  // ---- the arithmetic of max(x - s, 0) over several days ----

  function Beyond(f: int -> real, s: real): int -> real { (d: int) => Max(f(d) - s, 0.0) }

  function Capped(f: int -> real, s: real): int -> real { (d: int) => Min(f(d), s) }

  /** At most one day carries any cost. */
  ghost predicate OneDay(days: seq<int>, f: int -> real) {
    forall i, j :: 0 <= i < |days| && 0 <= j < |days| && f(days[i]) > 0.0 && f(days[j]) > 0.0 ==> i == j
  }

  lemma {:induction false} TwoTerms<T>(xs: seq<T>, i: nat, j: nat, w: T -> real)
    requires i < j < |xs|
    requires forall k :: 0 <= k < |xs| ==> w(xs[k]) >= 0.0
    ensures Sum(xs, w) >= w(xs[i]) + w(xs[j])
  {
    var n := |xs| - 1;
    if j < n {
      TwoTerms(xs[..n], i, j, w);
    } else {
      SumAtLeast(xs[..n], i, w);
    }
  }

  lemma {:induction false} OneDaySum(days: seq<int>, f: int -> real)
    requires forall k :: 0 <= k < |days| ==> f(days[k]) >= 0.0
    requires OneDay(days, f)
    ensures Sum(days, f) == 0.0
      || exists k :: 0 <= k < |days| && Sum(days, f) == f(days[k])
  {
    if days != [] {
      var n := |days| - 1;
      OneDaySum(days[..n], f);
      if f(days[n]) > 0.0 {
        SumZero(days[..n], f);
      } else if Sum(days[..n], f) != 0.0 {
        var k :| 0 <= k < n && Sum(days[..n], f) == f(days[..n][k]);
        assert Sum(days, f) == f(days[k]);
      }
    }
  }

  /** Capping each day at s and adding up gives s exactly when s is zero or the cost
      lies on one day, once the days together cost more than s. */
  lemma {:induction false} CappedSum(days: seq<int>, f: int -> real, s: real)
    requires s >= 0.0
    requires forall k :: 0 <= k < |days| ==> f(days[k]) >= 0.0
    requires Sum(days, f) > s
    ensures Sum(days, Capped(f, s)) == s <==> s == 0.0 || OneDay(days, f)
  {
    var c := Capped(f, s);
    assert forall k :: 0 <= k < |days| ==> c(days[k]) == Min(f(days[k]), s);
    if s == 0.0 {
      SumZero(days, c);
    } else if OneDay(days, f) {
      OneDaySum(days, f);
      var k :| 0 <= k < |days| && Sum(days, f) == f(days[k]);
      assert OneDay(days, c);
      OneDaySum(days, c);
      SumAtLeast(days, k, c);
    } else {
      var i, j :| 0 <= i < |days| && 0 <= j < |days| && f(days[i]) > 0.0 && f(days[j]) > 0.0 && i < j;
      if exists k :: 0 <= k < |days| && f(days[k]) >= s {
        var k :| 0 <= k < |days| && f(days[k]) >= s;
        if k == i { TwoTerms(days, k, j, c); }
        else if k < i { TwoTerms(days, k, i, c); }
        else { TwoTerms(days, i, k, c); }
      } else {
        SumEqual(days, c, f);
      }
    }
  }

  /** Adding up max(f - s, 0) over the days and then s itself counts every dollar once
      exactly when nothing is logged beyond s, or s is nothing, or one day has it all. */
  lemma {:induction false} BeyondSum(days: seq<int>, f: int -> real, s: real)
    requires s >= 0.0
    requires forall k :: 0 <= k < |days| ==> f(days[k]) >= 0.0
    ensures Sum(days, Beyond(f, s)) + s == Max(Sum(days, f), s)
      <==> Sum(days, f) <= s || s == 0.0 || OneDay(days, f)
  {
    assert forall k :: 0 <= k < |days| ==> Capped(f, s)(days[k]) == Min(f(days[k]), s);
    assert forall k :: 0 <= k < |days| ==> Beyond(f, s)(days[k]) == Max(f(days[k]) - s, 0.0);
    SumSplit(days, Beyond(f, s), Capped(f, s), f);
    if Sum(days, f) <= s {
      forall k | 0 <= k < |days| ensures f(days[k]) <= s { SumAtLeast(days, k, f); }
      SumEqual(days, Capped(f, s), f);
    } else {
      CappedSum(days, f, s);
    }
  }

  // ---- the conservation law ----

  ghost predicate NothingOpen(rows: seq<Row>, p: Pair, now: int) {
    forall i :: 0 <= i < |rows| && rows[i].pair == p ==> !(rows[i].status == Active && rows[i].expiresAt > now)
  }

  /** Over all days, a pair with nothing open contributes its unreserved log costs and
      then its settlements. */
  lemma {:induction false} ContributionTotal(log: seq<LogEntry>, rows: seq<Row>, p: Pair, now: int, days: seq<int>)
    requires ValidTables(log, rows)
    requires CoversDays(log, rows, days)
    requires NothingOpen(rows, p, now)
    ensures Sum(days, Contribution(log, rows, p, now))
      == Sum(days, Beyond(LoggedPerDay(log, p), SettledTotal(rows, p))) + SettledTotal(rows, p)
  {
    var beyond := Beyond(LoggedPerDay(log, p), SettledTotal(rows, p));
    DaysPartition(log, rows, p, days);
    forall i | 0 <= i < |days|
      ensures Contribution(log, rows, p, now)(days[i]) == beyond(days[i]) + SettledPerDay(rows, p)(days[i])
    {
      var day := days[i];
      SumZero(rows, InGroup(RowPair(), p, OpenWeight(day, now)));
      assert beyond(day) == Unreserved(log, rows, day)(p);
    }
    SumSplit(days, beyond, SettledPerDay(rows, p), Contribution(log, rows, p, now));
  }

  /** Counted exactly once: the contributions of a pair with no reservation left open add
      up, over all days, to the larger of its logged and its settled total if and only if
      it has nothing logged beyond its settlements, or nothing settled, or all its logged
      cost on one day. The days of its reservations do not matter. */
  lemma {:induction false} CountedOnceIff(log: seq<LogEntry>, rows: seq<Row>, p: Pair, now: int, days: seq<int>)
    requires ValidTables(log, rows)
    requires CoversDays(log, rows, days)
    requires NothingOpen(rows, p, now)
    ensures Sum(days, Contribution(log, rows, p, now)) == Max(LoggedTotal(log, p), SettledTotal(rows, p))
      <==>
        || LoggedTotal(log, p) <= SettledTotal(rows, p)
        || SettledTotal(rows, p) == 0.0
        || OneDay(days, LoggedPerDay(log, p))
  {
    ContributionTotal(log, rows, p, now, days);
    DaysPartition(log, rows, p, days);
    SumNonnegative(rows, InGroup(RowPair(), p, ActualWeight()));
    forall k | 0 <= k < |days| ensures LoggedPerDay(log, p)(days[k]) >= 0.0 {
      SumNonnegative(log, InGroup(PairOf(), p, LogWeight(days[k])));
    }
    BeyondSum(days, LoggedPerDay(log, p), SettledTotal(rows, p));
  }

  /** The promised case: all of a pair's log rows start on one day, whatever day its
      reservations were admitted on. */
  lemma {:induction false} CountedOnceWhenLoggedOnOneDay(log: seq<LogEntry>, rows: seq<Row>, p: Pair, now: int,
      days: seq<int>, day: int)
    requires ValidTables(log, rows)
    requires CoversDays(log, rows, days)
    requires NothingOpen(rows, p, now)
    requires forall i :: 0 <= i < |log| && log[i].pair == p ==> DayOf(log[i].startedAt) == day
    ensures Sum(days, Contribution(log, rows, p, now)) == Max(LoggedTotal(log, p), SettledTotal(rows, p))
  {
    forall k | 0 <= k < |days| && days[k] != day ensures LoggedPerDay(log, p)(days[k]) == 0.0 {
      SumZero(log, InGroup(PairOf(), p, LogWeight(days[k])));
    }
    assert OneDay(days, LoggedPerDay(log, p));
    CountedOnceIff(log, rows, p, now, days);
  }

  /** The documented claim without the one-day condition is false: a run logged 3 on each
      of two days and settled 1; its 6 dollars are counted as 5. */
  lemma {:induction false} TwoLoggedDaysLoseADollar()
    ensures exists log: seq<LogEntry>, rows: seq<Row>, p: Pair, days: seq<int> ::
      && ValidTables(log, rows) && CoversDays(log, rows, days) && NothingOpen(rows, p, 0)
      && Sum(days, Contribution(log, rows, p, 0)) < Max(LoggedTotal(log, p), SettledTotal(rows, p))
  {
    var p := Pair(None, "briefing");
    var log := [LogEntry(0, p, 3.0), LogEntry(DAY, p, 3.0)];
    var rows := [Row(p, 1.0, 0, 1, Settled, Some(1.0), Some(0), false)];
    var days := [0, 1];
    forall day: int {
      SumOfTwo(log[0], log[1], InGroup(PairOf(), p, LogWeight(day)));
    }
    SumOfTwo(log[0], log[1], PairCost(p));
    SumOfOne(rows[0], InGroup(RowPair(), p, ActualWeight()));
    assert CoversDays(log, rows, days);
    ContributionTotal(log, rows, p, 0, days);
    SumOfTwo(0, 1, Beyond(LoggedPerDay(log, p), 1.0));
  }
}
