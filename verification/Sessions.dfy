/** Writing a sequence of declared batches through one session: all are validated before
    anything is executed, and they are committed together or not at all. */
module Sessions {
  import opened Basics
  import opened Batches

  /** A declared batch; Malformed stands for one whose parts have the wrong types. */
  datatype Batch = Malformed | Batch(table: string, records: seq<Row>, key: seq<string>, insertOnly: bool)

  datatype Written = Written(attempted: nat, written: nat)

  datatype Outcome = Committed(results: seq<Written>) | Rejected(index: nat) | RolledBack(index: nat) | CommitFailed

  predicate IsIdentifier(s: string) {
    && s != "" && !('0' <= s[0] <= '9')
    && forall i :: 0 <= i < |s| ==> 'a' <= s[i] <= 'z' || s[i] == '_' || '0' <= s[i] <= '9'
  }

  /** There is no bound on an identifier's length. */
  lemma {:induction false} IdentifierOfEveryLength(n: nat)
    requires n > 0
    ensures exists s: string :: |s| == n && IsIdentifier(s)
  {
    var s: string := seq(n, i requires 0 <= i < n => 'a');
    assert |s| == n && IsIdentifier(s);
  }

  /** Names are identifiers, all records have the same columns, and the conflict columns
      are among them. */
  predicate ValidBatch(b: Batch) {
    && b.Batch? && IsIdentifier(b.table)
    && (forall i :: 0 <= i < |b.key| ==> IsIdentifier(b.key[i]))
    && (b.records != [] ==>
          && (forall i :: 0 <= i < |b.records| ==> b.records[i].Keys == b.records[0].Keys)
          && (forall c :: c in b.records[0] ==> IsIdentifier(c))
          && (forall i :: 0 <= i < |b.key| ==> b.key[i] in b.records[0]))
  }

  function OpOf(b: Batch, r: Row): Op
    requires b.Batch?
  {
    Op(b.table, r, b.key, b.insertOnly)
  }

  /** The statements of one batch, and of a sequence of batches, in order. */
  function OpsOf(b: Batch): seq<Op>
    requires b.Batch?
  {
    seq(|b.records|, i requires 0 <= i < |b.records| => OpOf(b, b.records[i]))
  }

  function AllOps(batches: seq<Batch>): seq<Op>
    requires forall k :: 0 <= k < |batches| ==> batches[k].Batch?
  {
    if batches == [] then [] else AllOps(batches[..|batches| - 1]) + OpsOf(batches[|batches| - 1])
  }

  ghost predicate AllValid(batches: seq<Batch>) {
    forall k :: 0 <= k < |batches| ==> ValidBatch(batches[k])
  }

  function WrittenBy(b: Batch): Written
    requires b.Batch?
  {
    Written(|b.records|, |b.records|)
  }

  lemma {:induction false} RunAppend(db: Database, ops: seq<Op>, more: seq<Op>)
    ensures Run(db, ops + more) == Run(Run(db, ops), more)
  {
    if more == [] {
      assert ops + more == ops;
    } else {
      var n, all := |more| - 1, ops + more;
      RunAppend(db, ops, more[..n]);
      assert all[..|all| - 1] == ops + more[..n] && all[|all| - 1] == more[n];
      assert Run(db, all) == Apply(Run(db, ops + more[..n]), more[n]);
    }
  }

  /** The first k batches ran, and none of those with records failed. */
  ghost predicate Ran(before: Database, after: Database, batches: seq<Batch>, k: nat, fails: nat -> bool)
    requires AllValid(batches)
  {
    && k <= |batches| && after == Run(before, AllOps(batches[..k]))
    && forall j :: 0 <= j < k && batches[j].records != [] ==> !fails(j)
  }

  /** One result for each of the first k batches, in order. */
  ghost predicate Reports(results: seq<Written>, batches: seq<Batch>, k: nat) {
    && |results| == k <= |batches|
    && forall j :: 0 <= j < k ==>
         batches[j].Batch? && results[j].attempted == results[j].written == |batches[j].records|
  }

  lemma {:induction false} ReportsOneMore(results: seq<Written>, batches: seq<Batch>, k: nat)
    requires k < |batches| && batches[k].Batch? && Reports(results, batches, k)
    ensures Reports(results + [WrittenBy(batches[k])], batches, k + 1)
  {
  }

  lemma {:induction false} AllOpsOneMore(batches: seq<Batch>, k: nat)
    requires AllValid(batches) && k < |batches|
    ensures AllOps(batches[..k + 1]) == AllOps(batches[..k]) + OpsOf(batches[k])
  {
    assert batches[..k + 1][..k] == batches[..k] && batches[..k + 1][k] == batches[k];
  }

  lemma {:induction false} RanOneMore(before: Database, after: Database, batches: seq<Batch>, k: nat,
      fails: nat -> bool)
    requires AllValid(batches) && k < |batches| && Ran(before, after, batches, k, fails)
    requires batches[k].records != [] ==> !fails(k)
    ensures Ran(before, Run(after, OpsOf(batches[k])), batches, k + 1, fails)
  {
    AllOpsOneMore(batches, k);
    RunAppend(before, AllOps(batches[..k]), OpsOf(batches[k]));
  }

  predicate FirstInvalid(batches: seq<Batch>, k: nat) {
    k < |batches| && !ValidBatch(batches[k]) && forall j :: 0 <= j < k ==> ValidBatch(batches[j])
  }

  /** The first batch with records whose execution fails. */
  ghost predicate FirstFailing(batches: seq<Batch>, fails: nat -> bool, k: nat)
    requires AllValid(batches)
  {
    && k < |batches| && batches[k].records != [] && fails(k)
    && forall j :: 0 <= j < k && batches[j].records != [] ==> !fails(j)
  }

  /** The first invalid batch, if there is one. */
  method Validate(batches: seq<Batch>) returns (bad: Option<nat>)
    ensures bad.None? <==> AllValid(batches)
    ensures bad.Some? ==> FirstInvalid(batches, bad.value)
  {
    for k := 0 to |batches|
      invariant forall j :: 0 <= j < k ==> ValidBatch(batches[j])
    {
      if !ValidBatch(batches[k]) {
        return Some(k);
      }
    }
    bad := None;
  }

  /** An open transaction: the rows it sees, and how many statements it has executed. */
  class Session {
    var rows: Database
    var executed: nat

    constructor (db: Database)
      ensures rows == db && executed == 0
    {
      rows, executed := db, 0;
    }

    /** Executes one batch's statements in order. */
    method Execute(b: Batch)
      requires b.Batch?
      modifies this
      ensures rows == Run(old(rows), OpsOf(b)) && executed == old(executed) + |b.records|
    {
      var ops := OpsOf(b);
      for i := 0 to |ops|
        invariant rows == Run(old(rows), ops[..i]) && executed == old(executed) + i
      {
        assert ops[..i + 1][..i] == ops[..i];
        rows := Apply(rows, ops[i]);
        executed := executed + 1;
      }
      assert ops[..|ops|] == ops;
    }

    /** Nothing is executed unless every batch is valid; then the batches are executed in
        order up to the first that fails. */
    method WriteBatches(batches: seq<Batch>, fails: nat -> bool) returns (o: Outcome)
      modifies this
      ensures o.Rejected? <==> !AllValid(batches)
      ensures o.Rejected? ==> FirstInvalid(batches, o.index) && rows == old(rows) && executed == old(executed)
      ensures !o.CommitFailed?
      ensures o.Committed? ==> rows == Run(old(rows), AllOps(batches))
      ensures o.Committed? ==> Reports(o.results, batches, |batches|)
      ensures o.Committed? <==>
        AllValid(batches) && forall k :: 0 <= k < |batches| && batches[k].records != [] ==> !fails(k)
      ensures o.RolledBack? ==> AllValid(batches) && FirstFailing(batches, fails, o.index)
    {
      var bad := Validate(batches);
      if bad.Some? {
        return Rejected(bad.value);
      }
      o := ExecuteAll(batches, fails);
      assert batches[..|batches|] == batches;
    }

    /** The batches in order, up to the first that fails. */
    method ExecuteAll(batches: seq<Batch>, fails: nat -> bool) returns (o: Outcome)
      requires AllValid(batches)
      modifies this
      ensures o.Committed? || o.RolledBack?
      ensures o.Committed? ==> Ran(old(rows), rows, batches, |batches|, fails) && Reports(o.results, batches, |batches|)
      ensures o.RolledBack? ==> FirstFailing(batches, fails, o.index)
    {
      var results: seq<Written> := [];
      for k := 0 to |batches|
        invariant Reports(results, batches, k)
        invariant Ran(old(rows), rows, batches, k, fails)
      {
        var b := batches[k];
        if b.records != [] && fails(k) {
          return RolledBack(k);
        }
        RanOneMore(old(rows), rows, batches, k, fails);
        Execute(b);
        ReportsOneMore(results, batches, k);
        results := results + [WrittenBy(b)];
      }
      o := Committed(results);
    }
  }

  class Store {
    var committed: Database

    constructor ()
      ensures committed == []
    {
      committed := [];
    }

    /** One session around a write: commits if the write succeeds, and rolls everything
        back if any part of it, or the commit itself, fails. */
    method WithSession(batches: seq<Batch>, fails: nat -> bool, commitFails: bool) returns (o: Outcome)
      modifies this
      ensures o.Committed? || o.CommitFailed? <==>
        AllValid(batches) && forall k :: 0 <= k < |batches| && batches[k].records != [] ==> !fails(k)
      ensures o.Committed? ==> !commitFails && committed == Run(old(committed), AllOps(batches))
      ensures o.Committed? ==> Reports(o.results, batches, |batches|)
      ensures o.CommitFailed? ==> commitFails
      ensures o.Rejected? ==> FirstInvalid(batches, o.index)
      ensures o.RolledBack? ==> AllValid(batches) && FirstFailing(batches, fails, o.index)
      ensures !o.Committed? ==> committed == old(committed)
    {
      var session := new Session(committed);
      o := session.WriteBatches(batches, fails);
      if o.Committed? {
        if commitFails {
          return CommitFailed;
        }
        committed := session.rows;
      }
    }
  }

  /** Every batch names its table's one conflict key, and no record has NULL in it. */
  ghost predicate OneKeyPerTable(batches: seq<Batch>, keyOf: string -> seq<string>)
    requires AllValid(batches)
  {
    forall k, i :: 0 <= k < |batches| && 0 <= i < |batches[k].records| ==>
      KeyedOp(OpOf(batches[k], batches[k].records[i]), keyOf)
  }

  lemma {:induction false} AllOpsKeyed(batches: seq<Batch>, keyOf: string -> seq<string>)
    requires AllValid(batches) && OneKeyPerTable(batches, keyOf)
    ensures Keyed(AllOps(batches), keyOf)
  {
    if batches != [] {
      var n := |batches| - 1;
      AllOpsKeyed(batches[..n], keyOf);
      assert forall i :: 0 <= i < |OpsOf(batches[n])| ==> KeyedOp(OpsOf(batches[n])[i], keyOf);
    }
  }

  /** Committing the same batches a second time changes nothing. */
  lemma {:induction false} CommittingAgainChangesNothing(db: Database, batches: seq<Batch>,
      keyOf: string -> seq<string>)
    requires AllValid(batches) && OneKeyPerTable(batches, keyOf)
    ensures Run(Run(db, AllOps(batches)), AllOps(batches)) == Run(db, AllOps(batches))
  {
    AllOpsKeyed(batches, keyOf);
    ReplayChangesNothing(db, AllOps(batches), keyOf);
  }

  // ---- what a write leaves in the tables ----

  /** Record i of batch k is an upsert, and no record after it is for the same row. */
  ghost predicate WrittenLast(batches: seq<Batch>, k: nat, i: nat)
    requires AllValid(batches)
  {
    && k < |batches| && i < |batches[k].records| && !batches[k].insertOnly
    && forall l, j :: k <= l < |batches| && 0 <= j < |batches[l].records| && (l > k || j > i) ==>
         OtherRecord(batches[k].table, batches[k].records[i], batches[l], j)
  }

  /** Another table's record, or one that differs in one of its batch's conflict columns. */
  ghost predicate OtherRecord(table: string, record: Row, b: Batch, j: nat)
    requires ValidBatch(b) && j < |b.records|
  {
    b.table == table ==> exists c :: c in b.key && c in record && b.records[j][c] != record[c]
  }

  lemma {:induction false} OthersAre(table: string, record: Row, b: Batch, j: nat)
    requires ValidBatch(b) && j < |b.records| && OtherRecord(table, record, b, j)
    ensures OtherRow(table, record, OpsOf(b)[j])
  {
    if b.table == table {
      var c :| c in b.key && c in record && b.records[j][c] != record[c];
      assert c in OpsOf(b)[j].key && c in OpsOf(b)[j].row;
    }
  }

  lemma {:induction false} BatchKeepsStored(db: Database, b: Batch, from: nat, table: string, record: Row)
    requires ValidBatch(b) && from <= |b.records| && Stored(db, table, record)
    requires forall j :: from <= j < |b.records| ==> OtherRecord(table, record, b, j)
    ensures Stored(Run(db, OpsOf(b)[from..]), table, record)
  {
    var ops := OpsOf(b)[from..];
    forall m | 0 <= m < |ops| ensures OtherRow(table, record, ops[m]) {
      OthersAre(table, record, b, from + m);
    }
    StoredOverRun(db, ops, table, record);
  }

  lemma {:induction false} RunInThree(db: Database, ops: seq<Op>, i: nat)
    requires i < |ops|
    ensures Run(db, ops) == Run(Apply(Run(db, ops[..i]), ops[i]), ops[i + 1..])
  {
    assert ops[..i + 1][..i] == ops[..i] && ops[..i + 1][i] == ops[i];
    RunAppend(db, ops[..i + 1], ops[i + 1..]);
    assert ops[..i + 1] + ops[i + 1..] == ops;
  }

  lemma {:induction false} BatchStores(db: Database, b: Batch, i: nat)
    requires ValidBatch(b) && i < |b.records| && !b.insertOnly
    requires forall j :: i < j < |b.records| ==> OtherRecord(b.table, b.records[i], b, j)
    ensures Stored(Run(db, OpsOf(b)), b.table, b.records[i])
  {
    var op := OpsOf(b)[i];
    var before := Run(db, OpsOf(b)[..i]);
    UpsertStores(before, op);
    BatchKeepsStored(Apply(before, op), b, i + 1, b.table, b.records[i]);
    RunInThree(db, OpsOf(b), i);
  }

  /** After a write, every upserted record that no later one is for is in its table with all
      its values. */
  lemma {:induction false} LastWriteIsStored(db: Database, batches: seq<Batch>, k: nat, i: nat)
    requires AllValid(batches) && WrittenLast(batches, k, i)
    ensures Stored(Run(db, AllOps(batches)), batches[k].table, batches[k].records[i])
  {
    var n := |batches| - 1;
    var b, record := batches[k], batches[k].records[i];
    RunAppend(db, AllOps(batches[..n]), OpsOf(batches[n]));
    if k == n {
      forall j | i < j < |b.records| ensures OtherRecord(b.table, record, b, j) {
      }
      BatchStores(Run(db, AllOps(batches[..n])), b, i);
    } else {
      assert WrittenLast(batches[..n], k, i);
      LastWriteIsStored(db, batches[..n], k, i);
      BatchKeepsStored(Run(db, AllOps(batches[..n])), batches[n], 0, b.table, record);
      assert OpsOf(batches[n])[0..] == OpsOf(batches[n]);
    }
  }

  lemma {:induction false} InsertOnlyOps(batches: seq<Batch>)
    requires AllValid(batches) && forall k :: 0 <= k < |batches| ==> batches[k].insertOnly || batches[k].key == []
    ensures forall m :: 0 <= m < |AllOps(batches)| ==> AllOps(batches)[m].insertOnly || AllOps(batches)[m].key == []
  {
    if batches != [] {
      InsertOnlyOps(batches[..|batches| - 1]);
    }
  }

  /** A write of insert-only batches leaves every stored row as it is. */
  lemma {:induction false} InsertOnlyWriteKeepsRows(db: Database, batches: seq<Batch>)
    requires AllValid(batches) && forall k :: 0 <= k < |batches| ==> batches[k].insertOnly || batches[k].key == []
    ensures db <= Run(db, AllOps(batches))
  {
    InsertOnlyOps(batches);
    InsertOnlyKeepsRows(db, AllOps(batches));
  }

  /** A batch without conflict columns adds its records at the end, in order. */
  lemma {:induction false} KeylessBatchAppends(db: Database, b: Batch, i: nat)
    requires ValidBatch(b) && b.key == [] && i <= |b.records|
    ensures Run(db, OpsOf(b)[..i]) == db + seq(i, j requires 0 <= j < i => Entry(b.table, b.records[j]))
  {
    var ops := OpsOf(b)[..i];
    if i == 0 {
      assert ops == [];
    } else {
      KeylessBatchAppends(db, b, i - 1);
      assert ops[..i - 1] == OpsOf(b)[..i - 1];
      assert ops[i - 1] == Op(b.table, b.records[i - 1], [], b.insertOnly);
      assert Run(db, ops) == Apply(Run(db, ops[..i - 1]), ops[i - 1]);
    }
  }

  // ---- what is refused ----

  ghost predicate NameChar(c: char) { 'a' <= c <= 'z' || c == '_' || '0' <= c <= '9' }

  /** No name at all, one that starts with a digit, or one with any other character. */
  ghost predicate BadName(s: string) {
    s == "" || '0' <= s[0] <= '9' || exists i :: 0 <= i < |s| && !NameChar(s[i])
  }

  /** What is wrong with a batch: its parts, a name, or records that do not fit together or
      lack a conflict column. */
  ghost predicate Defective(b: Batch) {
    || b.Malformed? || BadName(b.table)
    || (exists c :: c in b.key && BadName(c))
    || (exists i, c :: 0 <= i < |b.records| && c in b.records[i] && BadName(c))
    || (exists i, j :: 0 <= i < j < |b.records| && b.records[i].Keys != b.records[j].Keys)
    || (exists i, c :: 0 <= i < |b.records| && c in b.key && c !in b.records[i])
  }

  lemma {:induction false} NamedWell(s: string)
    ensures IsIdentifier(s) <==> !BadName(s)
  {
  }

  lemma {:induction false} FitsTogether(b: Batch)
    requires b.Batch? && b.records != []
    ensures (forall i :: 0 <= i < |b.records| ==> b.records[i].Keys == b.records[0].Keys) <==>
      !(exists i, j :: 0 <= i < j < |b.records| && b.records[i].Keys != b.records[j].Keys)
  {
    if i :| 0 <= i < |b.records| && b.records[i].Keys != b.records[0].Keys {
      assert 0 < i;
    }
  }

  lemma {:induction false} KeyNamedWell(b: Batch)
    requires b.Batch?
    ensures (forall i :: 0 <= i < |b.key| ==> IsIdentifier(b.key[i])) <==> !(exists c :: c in b.key && BadName(c))
  {
    forall i | 0 <= i < |b.key| ensures IsIdentifier(b.key[i]) <==> !BadName(b.key[i]) {
      NamedWell(b.key[i]);
    }
  }

  /** With the same columns in all records, the first one's speak for all. */
  lemma {:induction false} FirstSpeaksForAll(b: Batch)
    requires b.Batch? && b.records != []
    requires forall i :: 0 <= i < |b.records| ==> b.records[i].Keys == b.records[0].Keys
    ensures (forall c :: c in b.records[0] ==> IsIdentifier(c)) <==>
      !(exists i, c :: 0 <= i < |b.records| && c in b.records[i] && BadName(c))
    ensures (forall i :: 0 <= i < |b.key| ==> b.key[i] in b.records[0]) <==>
      !(exists i, c :: 0 <= i < |b.records| && c in b.key && c !in b.records[i])
  {
    forall c | c in b.records[0] ensures IsIdentifier(c) <==> !BadName(c) {
      NamedWell(c);
    }
    forall i, c | 0 <= i < |b.records| ensures c in b.records[i] <==> c in b.records[0] {
      assert c in b.records[i].Keys <==> c in b.records[0].Keys;
    }
    if c :| c in b.key && c !in b.records[0] {
      var i :| 0 <= i < |b.key| && b.key[i] == c;
      assert b.key[i] !in b.records[0] && c !in b.records[0];
    }
    forall i | 0 <= i < |b.key| ensures b.key[i] in b.key {
    }
  }

  /** A batch is refused exactly if something is wrong with it. */
  lemma {:induction false} RefusedIff(b: Batch)
    ensures ValidBatch(b) <==> !Defective(b)
  {
    if b.Batch? {
      NamedWell(b.table);
      KeyNamedWell(b);
      if b.records != [] {
        FitsTogether(b);
        if forall i :: 0 <= i < |b.records| ==> b.records[i].Keys == b.records[0].Keys {
          FirstSpeaksForAll(b);
        }
      }
    }
  }
}
