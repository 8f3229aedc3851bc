/** Declared write batches in one transaction: validation first, then INSERT statements
    with their conflict policies, committed together or not at all. */
module Batches {
  import opened Basics

  datatype Value = Null | Val(v: int)

  type Row = map<string, Value>

  /** A stored row and the table it is in. */
  datatype Entry = Entry(table: string, row: Row)

  type Database = seq<Entry>

  /** One record with its batch's conflict columns and policy. */
  datatype Op = Op(table: string, row: Row, key: seq<string>, insertOnly: bool)

  // ---- one INSERT statement ----

  /** The stored row and the record agree on all conflict columns; NULL agrees with nothing. */
  predicate Hits(e: Entry, op: Op) {
    && e.table == op.table
    && forall c :: c in op.key ==> c in e.row && c in op.row && e.row[c] == op.row[c] && e.row[c] != Null
  }

  /** Where the conflicting row is, or the number of rows if there is none. */
  function Find(db: Database, op: Op): (i: nat)
    ensures i <= |db| && (i < |db| ==> Hits(db[i], op))
    ensures forall j :: 0 <= j < i ==> !Hits(db[j], op)
  {
    if db == [] || Hits(db[0], op) then 0 else 1 + Find(db[1..], op)
  }

  predicate Found(db: Database, op: Op) { Find(db, op) < |db| }

  /** The columns an upsert sets: all but the conflict columns. */
  function Updates(op: Op): set<string> { set c | c in op.row && c !in op.key }

  function Updated(e: Entry, op: Op): Entry {
    e.(row := e.row + (map c | c in Updates(op) :: op.row[c]))
  }

  /** INSERT, with ON CONFLICT DO NOTHING or DO UPDATE when there are conflict columns. */
  function Apply(db: Database, op: Op): Database {
    if op.key == [] || !Found(db, op) then db + [Entry(op.table, op.row)]
    else if op.insertOnly || Updates(op) == {} then db
    else db[Find(db, op) := Updated(db[Find(db, op)], op)]
  }

  function Run(db: Database, ops: seq<Op>): Database {
    if ops == [] then db else Apply(Run(db, ops[..|ops| - 1]), ops[|ops| - 1])
  }

  /** No statement changes an existing row, unless it is an upsert and hits that row; and
      then only columns outside the conflict key change. */
  lemma {:induction false} StatementsTouchOneRow(db: Database, op: Op, i: nat)
    requires i < |db|
    ensures i < |Apply(db, op)| && Apply(db, op)[i].table == db[i].table
    ensures Apply(db, op)[i] != db[i] ==> !op.insertOnly && op.key != [] && i == Find(db, op) && Hits(db[i], op)
    ensures forall c :: c in op.key && c in db[i].row ==>
      c in Apply(db, op)[i].row && Apply(db, op)[i].row[c] == db[i].row[c]
  {
  }

  /** Insert-only statements only ever add rows at the end. */
  lemma {:induction false} InsertOnlyKeepsRows(db: Database, ops: seq<Op>)
    requires forall k :: 0 <= k < |ops| ==> ops[k].insertOnly || ops[k].key == []
    ensures db <= Run(db, ops)
  {
    if ops != [] {
      InsertOnlyKeepsRows(db, ops[..|ops| - 1]);
    }
  }

  // ---- what is stored afterwards ----

  /** Some row of the table has all of the record's values. */
  ghost predicate Stored(db: Database, table: string, record: Row) {
    exists i :: 0 <= i < |db| && StoredAs(db[i], table, record)
  }

  ghost predicate StoredAs(e: Entry, table: string, record: Row) {
    e.table == table && forall c :: c in record ==> c in e.row && e.row[c] == record[c]
  }

  /** The two records have the same conflict columns, and differ in one of them. */
  ghost predicate OtherRow(table: string, record: Row, op: Op) {
    op.table == table ==>
      exists c :: c in op.key && c in record && c in op.row && op.row[c] != record[c]
  }

  /** An upsert stores the whole record. */
  lemma {:induction false} UpsertStores(db: Database, op: Op)
    requires !op.insertOnly
    ensures Stored(Apply(db, op), op.table, op.row)
  {
    var db' := Apply(db, op);
    if op.key == [] || !Found(db, op) {
      assert StoredAs(db'[|db|], op.table, op.row);
    } else {
      forall c | c in op.row ensures c in db'[Find(db, op)].row && db'[Find(db, op)].row[c] == op.row[c] {
        assert c in op.key || c in Updates(op);
      }
      assert StoredAs(db'[Find(db, op)], op.table, op.row);
    }
  }

  /** A record to insert is stored, unless its key is there already. */
  lemma {:induction false} InsertStores(db: Database, op: Op)
    requires op.key == [] || forall i :: 0 <= i < |db| ==> !Hits(db[i], op)
    ensures Apply(db, op) == db + [Entry(op.table, op.row)]
  {
  }

  /** A stored record stays while other rows are written. */
  lemma {:induction false} StoredStays(db: Database, op: Op, table: string, record: Row)
    requires Stored(db, table, record) && OtherRow(table, record, op)
    ensures Stored(Apply(db, op), table, record)
  {
    var i :| 0 <= i < |db| && StoredAs(db[i], table, record);
    StatementsTouchOneRow(db, op, i);
    assert StoredAs(Apply(db, op)[i], table, record);
  }

  lemma {:induction false} StoredOverRun(db: Database, ops: seq<Op>, table: string, record: Row)
    requires Stored(db, table, record) && forall k :: 0 <= k < |ops| ==> OtherRow(table, record, ops[k])
    ensures Stored(Run(db, ops), table, record)
  {
    if ops != [] {
      var n := |ops| - 1;
      StoredOverRun(db, ops[..n], table, record);
      StoredStays(Run(db, ops[..n]), ops[n], table, record);
    }
  }

  // ---- replaying ----

  /** Every record names its table's one conflict key, and has a value for all of it. */
  ghost predicate Keyed(ops: seq<Op>, keyOf: string -> seq<string>) {
    forall k :: 0 <= k < |ops| ==> KeyedOp(ops[k], keyOf)
  }

  ghost predicate KeyedOp(op: Op, keyOf: string -> seq<string>) {
    op.key == keyOf(op.table) && op.key != [] && forall c :: c in op.key ==> c in op.row && op.row[c] != Null
  }

  lemma {:induction false} FindIs(db: Database, op: Op, i: nat)
    requires i < |db| && Hits(db[i], op) && forall j :: 0 <= j < i ==> !Hits(db[j], op)
    ensures Find(db, op) == i
  {
  }

  lemma {:induction false} HitsStay(e: Entry, w: Op, op: Op, keyOf: string -> seq<string>)
    requires KeyedOp(w, keyOf) && KeyedOp(op, keyOf) && e.table == w.table
    ensures Hits(Updated(e, w), op) <==> Hits(e, op)
  {
  }

  /** A conflicting row stays where it is, whatever is written next. */
  lemma {:induction false} FoundStays(db: Database, w: Op, op: Op, keyOf: string -> seq<string>)
    requires KeyedOp(w, keyOf) && KeyedOp(op, keyOf) && Found(db, op)
    ensures Find(Apply(db, w), op) == Find(db, op) && Found(Apply(db, w), op)
  {
    var i, b := Find(db, op), Find(db, w);
    var db' := Apply(db, w);
    forall j | 0 <= j <= i ensures Hits(db'[j], op) <==> Hits(db[j], op) {
      if b < |db| && j == b {
        HitsStay(db[b], w, op, keyOf);
      }
    }
    FindIs(db', op, i);
  }

  /** After a record was written, its key is in the table. */
  lemma {:induction false} WrittenIsFound(db: Database, op: Op, keyOf: string -> seq<string>)
    requires KeyedOp(op, keyOf)
    ensures Found(Apply(db, op), op)
  {
    if Found(db, op) {
      FoundStays(db, op, op, keyOf);
    } else {
      assert Hits(Apply(db, op)[|db|], op);
    }
  }

  lemma {:induction false} AllFound(db: Database, ops: seq<Op>, keyOf: string -> seq<string>, k: nat)
    requires Keyed(ops, keyOf) && k < |ops|
    ensures Found(Run(db, ops), ops[k])
  {
    var n := |ops| - 1;
    if k < n {
      AllFound(db, ops[..n], keyOf, k);
      FoundStays(Run(db, ops[..n]), ops[n], ops[k], keyOf);
    } else {
      WrittenIsFound(Run(db, ops[..n]), ops[n], keyOf);
    }
  }

  /** Writing records whose keys are all there leaves the rows and their number alone. */
  lemma {:induction false} FoundStayOverRun(db: Database, ops: seq<Op>, op: Op, keyOf: string -> seq<string>)
    requires Keyed(ops, keyOf) && KeyedOp(op, keyOf) && Found(db, op)
    ensures Find(Run(db, ops), op) == Find(db, op) && Found(Run(db, ops), op)
  {
    if ops != [] {
      var n := |ops| - 1;
      FoundStayOverRun(db, ops[..n], op, keyOf);
      FoundStays(Run(db, ops[..n]), ops[n], op, keyOf);
    }
  }

  /** The two databases agree but for some columns of row i. */
  ghost predicate AgreeBut(a: Database, b: Database, i: nat, columns: set<string>) {
    && |a| == |b| && i < |a| && a[i].table == b[i].table
    && (forall k :: 0 <= k < |a| && k != i ==> a[k] == b[k])
    && (forall c :: c !in columns ==>
      (c in a[i].row <==> c in b[i].row) && (c in a[i].row ==> a[i].row[c] == b[i].row[c]))
  }

  lemma {:induction false} AgreeFinds(a: Database, b: Database, i: nat, op: Op, q: Op, keyOf: string -> seq<string>)
    requires AgreeBut(a, b, i, Updates(op)) && KeyedOp(op, keyOf) && KeyedOp(q, keyOf)
    requires op.table == a[i].table && Found(b, q)
    ensures Find(a, q) == Find(b, q)
  {
    var j := Find(b, q);
    forall k | 0 <= k <= j ensures Hits(a[k], q) <==> Hits(b[k], q) {
      if k == i && q.table == op.table {
        assert forall c :: c in q.key ==> c !in Updates(op);
      }
    }
    FindIs(a, q, j);
  }

  lemma {:induction false} AgreeAfter(a: Database, b: Database, i: nat, op: Op, q: Op, keyOf: string -> seq<string>)
    requires AgreeBut(a, b, i, Updates(op)) && KeyedOp(op, keyOf) && KeyedOp(q, keyOf)
    requires op.table == a[i].table && Found(b, q)
    ensures AgreeBut(Apply(a, q), Apply(b, q), i, Updates(op))
  {
    AgreeFinds(a, b, i, op, q, keyOf);
  }

  lemma {:induction false} AgreeOverRun(a: Database, b: Database, i: nat, op: Op, ops: seq<Op>,
      keyOf: string -> seq<string>)
    requires AgreeBut(a, b, i, Updates(op)) && KeyedOp(op, keyOf) && Keyed(ops, keyOf)
    requires op.table == a[i].table && forall k :: 0 <= k < |ops| ==> Found(b, ops[k])
    ensures AgreeBut(Run(a, ops), Run(b, ops), i, Updates(op)) && Run(a, ops)[i].table == op.table
  {
    if ops != [] {
      var n := |ops| - 1;
      AgreeOverRun(a, b, i, op, ops[..n], keyOf);
      FoundStayOverRun(b, ops[..n], ops[n], keyOf);
      AgreeAfter(Run(a, ops[..n]), Run(b, ops[..n]), i, op, ops[n], keyOf);
      StatementsTouchOneRow(Run(a, ops[..n]), ops[n], i);
    }
  }

  /** The last write wins: what an upsert sets does not depend on what was there. */
  lemma {:induction false} LastWriteWins(a: Database, b: Database, op: Op, keyOf: string -> seq<string>)
    requires KeyedOp(op, keyOf) && Found(b, op) && !op.insertOnly
    requires AgreeBut(a, b, Find(b, op), Updates(op))
    ensures Apply(a, op) == Apply(b, op)
  {
    var i := Find(b, op);
    assert a[i].table == op.table by { assert Hits(b[i], op); }
    AgreeFinds(a, b, i, op, op, keyOf);
    assert Updated(a[i], op).row == Updated(b[i], op).row;
    if Updates(op) == {} {
      assert a[i].row == b[i].row;
      assert a == b;
    }
  }

  lemma {:induction false} AppendedStays(db: Database, ops: seq<Op>, e: Entry, keyOf: string -> seq<string>)
    requires Keyed(ops, keyOf) && forall k :: 0 <= k < |ops| ==> Found(db, ops[k])
    ensures Run(db + [e], ops) == Run(db, ops) + [e]
  {
    if ops != [] {
      var n := |ops| - 1;
      AppendedStays(db, ops[..n], e, keyOf);
      FoundStayOverRun(db, ops[..n], ops[n], keyOf);
      var m := Run(db, ops[..n]);
      var i := Find(m, ops[n]);
      FindIs(m + [e], ops[n], i);
      assert (m + [e])[i := Updated(m[i], ops[n])] == m[i := Updated(m[i], ops[n])] + [e];
    }
  }

  /** With one conflict key per table and no NULL in it, writing the same batches again
      changes nothing. */
  lemma {:induction false} ReplayChangesNothing(db: Database, ops: seq<Op>, keyOf: string -> seq<string>)
    requires Keyed(ops, keyOf)
    ensures Run(Run(db, ops), ops) == Run(db, ops)
  {
    if ops != [] {
      var n := |ops| - 1;
      var pre, op := ops[..n], ops[n];
      var m := Run(db, pre);
      ReplayChangesNothing(db, pre, keyOf);
      forall k | 0 <= k < |pre| ensures Found(m, pre[k]) {
        AllFound(db, pre, keyOf, k);
      }
      LastOpAgain(m, pre, op, keyOf);
    }
  }

  lemma {:induction false} LastOpAgain(m: Database, pre: seq<Op>, op: Op, keyOf: string -> seq<string>)
    requires Keyed(pre, keyOf) && KeyedOp(op, keyOf) && Run(m, pre) == m
    requires forall k :: 0 <= k < |pre| ==> Found(m, pre[k])
    ensures Apply(Run(Apply(m, op), pre), op) == Apply(m, op)
  {
    var s := Apply(m, op);
    if !Found(m, op) {
      AppendedStays(m, pre, Entry(op.table, op.row), keyOf);
      SameAgain(m, op, keyOf);
    } else if !op.insertOnly && Updates(op) != {} {
      var i := Find(m, op);
      assert AgreeBut(s, m, i, Updates(op));
      AgreeOverRun(s, m, i, op, pre, keyOf);
      LastWriteWins(Run(s, pre), m, op, keyOf);
    }
  }

  lemma {:induction false} SameAgain(db: Database, op: Op, keyOf: string -> seq<string>)
    requires KeyedOp(op, keyOf) && !Found(db, op)
    ensures Apply(db + [Entry(op.table, op.row)], op) == db + [Entry(op.table, op.row)]
  {
    var e := Entry(op.table, op.row);
    assert Hits((db + [e])[|db|], op);
    FindIs(db + [e], op, |db|);
    assert Updated(e, op).row == e.row;
  }

  /** A single statement can be repeated without effect exactly if it has conflict
      columns and values, not NULL, in all of them. */
  lemma {:induction false} RepeatableIff(op: Op)
    ensures (forall db :: Apply(Apply(db, op), op) == Apply(db, op)) <==>
      op.key != [] && forall c :: c in op.key ==> c in op.row && op.row[c] != Null
  {
    var empty: Database := [];
    var once := Apply(empty, op);
    if op.key != [] && forall c :: c in op.key ==> c in op.row && op.row[c] != Null {
      forall db ensures Apply(Apply(db, op), op) == Apply(db, op) {
        ReplayChangesNothing(db, [op], t => op.key);
        assert Run(db, [op]) == Apply(Run(db, []), op);
        assert Run(Run(db, [op]), [op]) == Apply(Run(Run(db, [op]), []), op);
      }
    } else {
      assert once == [Entry(op.table, op.row)];
      assert op.key != [] ==> !Hits(once[0], op);
      assert |Apply(once, op)| == 2;
    }
  }
}
