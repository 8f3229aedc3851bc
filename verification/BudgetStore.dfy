/** The budget module's operations on the stored tables, one transaction each. Every
    method is a run of the interleaved machine in which nobody else gets a step. */
module BudgetStore {
  import opened Basics
  import opened Ledger
  import opened BudgetMachine
  import opened Figures

  datatype BudgetError =
    | BudgetExceeded(figure: real)
    | InvalidAmount

  lemma {:induction false} OneAdmission(s: State, cap: real, r: Request, rows: seq<Row>)
    requires s.txns == map[] && ValidTables(s.log, s.rows) && r.estimate >= 0.0 && r.ttl > 0
    requires r.estimate > 0.0 ==> Committed(s.log, s.rows, DayOf(s.clock), s.clock) + r.estimate <= cap
    requires rows == ExpireIn(s.rows, s.clock) + [NewRow(Txn(s.clock, r, Waiting))]
    ensures Legal(s, cap, Admission(0, r)) && s.(rows := rows) == Exec(s, cap, Admission(0, r))
    ensures AddsReservation(s.rows, rows, r, s.clock) && RaisesFigure(s.log, s.rows, rows, r, s.clock)
    ensures ValidTables(s.log, rows)
  {
    AdmissionReserves(s, cap, 0, r);
    SweepKeepsFigure(s.log, s.rows, DayOf(s.clock), s.clock, s.clock);
    AdmissionRuns(s, cap, 0, r);
  }

  /** Recorded and not yet closed: settling still counts after the time to live is over. */
  ghost predicate Unclosed(rows: seq<Row>, id: nat, now: int) {
    id < |rows| && rows[id].status in {Active, Expired} && rows[id].reservedAt <= now
  }

  /** One row is closed with an actual at this moment, and no other changes. */
  ghost predicate Closes(rows: seq<Row>, rows': seq<Row>, id: nat, status: Status, actual: real, now: int) {
    && id < |rows| == |rows'|
    && (forall i :: 0 <= i < |rows| && i != id ==> rows'[i] == rows[i])
    && var late := if status == Settled then rows[id].expiresAt <= now else rows[id].late;
    rows'[id] == rows[id].(status := status, settled := Some(actual), settledAt := Some(now), late := late)
  }

  class Store {
    var log: seq<LogEntry>
    var rows: seq<Row>

    ghost predicate Valid()
      reads this
    {
      ValidTables(log, rows)
    }

    /** The stored tables as a machine state without open transactions. */
    ghost function At(clock: int): State
      reads this
    {
      State(clock, log, rows, map[])
    }

    /** Admit one call under the cap. On refusal the transaction rolls back, and with it
        the sweep of lapsed rows. */
    method ReserveBudgetQuota(cap: real, r: Request, now: int) returns (result: Result<nat, BudgetError>)
      requires Valid() && r.estimate >= 0.0 && r.ttl > 0
      modifies this`rows
      ensures Valid()
      ensures result.Err? <==>
        && r.estimate > 0.0
        && Committed(log, old(rows), DayOf(now), now) + r.estimate > cap
      ensures result.Ok? ==>
        && result.value == |old(rows)| == |rows| - 1
        && Legal(old(At(now)), cap, Admission(0, r))
        && At(now) == Exec(old(At(now)), cap, Admission(0, r))
        && AddsReservation(old(rows), rows, r, now) && RaisesFigure(log, old(rows), rows, r, now)
      ensures result.Err? ==>
        && rows == old(rows)
        && result.error == BudgetExceeded(Committed(log, old(rows), DayOf(now), now))
    {
      var swept := ExpireIn(rows, now);
      var figure := Committed(log, swept, DayOf(now), now);
      SweepKeepsFigure(log, rows, DayOf(now), now, now);
      if r.estimate > 0.0 && figure + r.estimate > cap {
        return Err(BudgetExceeded(figure));
      }
      ghost var before := At(now);
      rows := swept + [NewRow(Txn(now, r, Waiting))];
      OneAdmission(before, cap, r, rows);
      return Ok(|rows| - 1);
    }

    /** Record an actual. `reachable` is whether the database answered; an unanswered
        call reports false and changes nothing. */
    method SettleBudgetReservation(id: Option<nat>, actual: real, now: int, reachable: bool)
      returns (result: Result<bool, BudgetError>)
      requires Valid()
      modifies this`rows
      ensures Valid()
      ensures result == Err(InvalidAmount) <==> id.Some? && actual < 0.0
      ensures id.None? ==> result == Ok(true)
      ensures id.Some? && actual >= 0.0 ==> result == Ok(reachable && old(Open(rows, id.value, now)))
      ensures result.Ok? && id.Some? && reachable ==>
        && Enabled(old(At(now)), Settle(id.value, actual, now))
        && At(now) == Step(old(At(now)), 0.0, Settle(id.value, actual, now))
      ensures result == Ok(true) && id.Some? ==>
        Unclosed(old(rows), id.value, now) && Closes(old(rows), rows, id.value, Settled, actual, now)
      ensures result == Ok(false) ==> rows == old(rows) && (reachable ==> !Unclosed(rows, id.value, now))
      ensures !(result.Ok? && id.Some? && reachable) ==> rows == old(rows)
    {
      if id.None? { return Ok(true); }
      if actual < 0.0 { return Err(InvalidAmount); }
      if !reachable { return Ok(false); }
      result := Ok(Open(rows, id.value, now));
      rows := SettleIn(rows, id.value, actual, now, now);
    }

    method ReleaseBudgetReservation(id: Option<nat>, now: int, reachable: bool) returns (result: bool)
      requires Valid()
      modifies this`rows
      ensures Valid()
      ensures result <==>
        || id.None?
        || (reachable && old(Open(rows, id.value, now)) && old(rows)[id.value].status == Active)
      ensures id.Some? && reachable ==> At(now) == Step(old(At(now)), 0.0, Release(id.value, now))
      ensures result && id.Some? ==>
        && Unclosed(old(rows), id.value, now) && old(rows)[id.value].status == Active
        && Closes(old(rows), rows, id.value, Released, 0.0, now)
      ensures !result ==>
        rows == old(rows) && (reachable && Unclosed(rows, id.value, now) ==> rows[id.value].status != Active)
      ensures !(id.Some? && reachable) ==> rows == old(rows)
    {
      if id.None? { return true; }
      if !reachable { return false; }
      result := Open(rows, id.value, now) && rows[id.value].status == Active;
      rows := ReleaseIn(rows, id.value, now);
    }

    method RetainBudgetReservation(id: Option<nat>, now: int, reachable: bool) returns (result: bool)
      requires Valid()
      modifies this`rows
      ensures Valid()
      ensures result <==> id.None? || (reachable && old(Open(rows, id.value, now)))
      ensures id.Some? && reachable ==> At(now) == Step(old(At(now)), 0.0, Retain(id.value, now))
      ensures result && id.Some? ==>
        && Unclosed(old(rows), id.value, now)
        && Closes(old(rows), rows, id.value, Settled, old(rows)[id.value].estimate, now)
      ensures !result ==> rows == old(rows) && (reachable ==> !Unclosed(rows, id.value, now))
      ensures !(id.Some? && reachable) ==> rows == old(rows)
    {
      if id.None? { return true; }
      if !reachable { return false; }
      result := Open(rows, id.value, now);
      rows := RetainIn(rows, id.value, now, now);
    }

    /** Returns how many rows the sweep expired. */
    method ExpireAbandonedReservations(now: int, reachable: bool) returns (count: nat)
      requires Valid()
      modifies this`rows
      ensures Valid()
      ensures reachable ==> At(now) == Step(old(At(now)), 0.0, Expire(now)) && count == |old(Lapsed(rows, now))|
      ensures reachable ==> |rows| == |old(rows)| && forall i :: 0 <= i < |rows| ==>
        rows[i] ==
          if old(rows)[i].status == Active && old(rows)[i].expiresAt <= now
          then old(rows)[i].(status := Expired) else old(rows)[i]
      ensures !reachable ==> count == 0 && rows == old(rows)
    {
      if !reachable { return 0; }
      count := |Lapsed(rows, now)|;
      rows := ExpireIn(rows, now);
    }
  }
}
