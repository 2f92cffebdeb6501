/** One backend table and the statements sent to it inside a transaction. */
module Backend {
  import opened Records

  datatype Statement =
    | InsertMany(ams: seq<ActiveModel>)
    | UpdateOne(am: ActiveModel)
    | DeleteMany(keys: seq<Key>)

  // A multi-row INSERT: refused as a whole when a primary key is missing or already present.
  function InsertAll(rows: Rows, ams: seq<ActiveModel>): Option<Rows>
    decreases |ams|
  {
    if ams == [] then Some(rows)
    else
      var row := Stored(ams[0]);
      if |row| == 0 || row[0] in rows then None else InsertAll(rows[row[0] := row], ams[1..])
  }

  // An UPDATE addressed by the primary key of its active model: refused when no such row exists.
  function UpdateRow(rows: Rows, am: ActiveModel): Option<Rows> {
    if |am| == 0 then None
    else
      var key := am[0].IntoValue();
      if key.None? || key.value !in rows then None
      else Some(rows[key.value := Patched(rows[key.value], am)])
  }

  function Exec(rows: Rows, s: Statement): Option<Rows> {
    match s
    case InsertMany(ams) => InsertAll(rows, ams)
    case UpdateOne(am) => UpdateRow(rows, am)
    case DeleteMany(keys) => Some(map k | k in rows && k !in keys :: rows[k])
  }

  function ExecAll(rows: Rows, log: seq<Statement>): Option<Rows> {
    if log == [] then Some(rows)
    else
      var before := ExecAll(rows, log[..|log| - 1]);
      if before.None? then None else Exec(before.value, log[|log| - 1])
  }

  lemma ExecAllAppend(rows: Rows, log: seq<Statement>, s: Statement)
    ensures ExecAll(rows, log + [s]) ==
            (var before := ExecAll(rows, log); if before.None? then None else Exec(before.value, s))
  {
    assert (log + [s])[..|log|] == log;
  }

  function SizeOf(s: Statement): nat {
    match s
    case InsertMany(ams) => |ams|
    case UpdateOne(_) => 1
    case DeleteMany(keys) => |keys|
  }

  // The primary keys a statement addresses; a model without one addresses `Null`.
  function TargetOf(am: ActiveModel): Key {
    if |am| > 0 && am[0].IntoValue().Some? then am[0].IntoValue().value else Null
  }

  function Targets(s: Statement): seq<Key> {
    match s
    case InsertMany(ams) => seq(|ams|, i requires 0 <= i < |ams| => TargetOf(ams[i]))
    case UpdateOne(am) => [TargetOf(am)]
    case DeleteMany(keys) => keys
  }

  function Addressed(log: seq<Statement>): multiset<Key> {
    if log == [] then multiset{}
    else Addressed(log[..|log| - 1]) + multiset(Targets(log[|log| - 1]))
  }

  lemma AddressedAppend(log: seq<Statement>, s: Statement)
    ensures Addressed(log + [s]) == Addressed(log) + multiset(Targets(s))
  {
    assert (log + [s])[..|log|] == log;
  }

  // ---- Writing a set of update records, one record for each key.

  type Batch = map<Key, CacheUpdate>

  // What the row of `k` is once the batch has been written.
  function RowAfter(rows: Rows, batch: Batch, k: Key): Option<Row> {
    if k in batch then Apply(batch[k], Lookup(rows, k)) else Lookup(rows, k)
  }

  // The table once every record of the batch has been written.
  function Written(rows: Rows, batch: Batch): Rows {
    map k | k in rows.Keys + batch.Keys && RowAfter(rows, batch, k).Some? :: RowAfter(rows, batch, k).value
  }

  lemma WrittenRow(rows: Rows, batch: Batch, k: Key)
    ensures Lookup(Written(rows, batch), k) == RowAfter(rows, batch, k)
  {
  }

  predicate AllAccepted(rows: Rows, batch: Batch) {
    forall k :: k in batch ==> Accepts(batch[k], Lookup(rows, k))
  }

  ghost predicate AllKeyed(batch: Batch, width: nat) {
    forall k :: k in batch ==> WellKeyed(k, batch[k], width)
  }

  lemma RowsEqual(a: Rows, b: Rows)
    requires forall k :: Lookup(a, k) == Lookup(b, k)
    ensures a == b
  {
    forall k ensures k in a <==> k in b {
      assert Lookup(a, k) == Lookup(b, k);
    }
    forall k | k in a ensures a[k] == b[k] {
      assert Lookup(a, k) == Lookup(b, k);
    }
  }

  // Records written one at a time, in the given order; `None` when the backend refuses one.
  function WriteOneByOne(rows: Rows, items: seq<(Key, CacheUpdate)>): Option<Rows>
    decreases |items|
  {
    if items == [] then Some(rows)
    else
      var (k, u) := items[0];
      if !Accepts(u, Lookup(rows, k)) then None
      else WriteOneByOne(Written(rows, map[k := u]), items[1..])
  }

  ghost predicate DistinctKeys(items: seq<(Key, CacheUpdate)>) {
    forall i, j :: 0 <= i < j < |items| ==> items[i].0 != items[j].0
  }

  // Writing one record of a batch first, then the others.
  lemma WriteOneFirst(rows: Rows, k: Key, batch: Batch)
    requires k in batch
    ensures var next := Written(rows, map[k := batch[k]]);
            && Written(next, batch - {k}) == Written(rows, batch)
            && (AllAccepted(rows, batch) <==> Accepts(batch[k], Lookup(rows, k)) && AllAccepted(next, batch - {k}))
  {
    var one: Batch := map[k := batch[k]];
    var next := Written(rows, one);
    var rest := batch - {k};
    forall j ensures Lookup(next, j) == if j == k then Apply(batch[k], Lookup(rows, k)) else Lookup(rows, j) {
      WrittenRow(rows, one, j);
    }
    forall j ensures Lookup(Written(next, rest), j) == Lookup(Written(rows, batch), j) {
      WrittenRow(next, rest, j);
      WrittenRow(rows, batch, j);
    }
    RowsEqual(Written(next, rest), Written(rows, batch));
    assert forall j :: j in batch && j != k ==> j in rest && rest[j] == batch[j];
  }

  // Any order of writing the records of a batch one by one has the effect of the batch, and is refused exactly
  // when the batch holds a record the backend refuses.
  lemma {:induction false} OrderIsIrrelevant(rows: Rows, items: seq<(Key, CacheUpdate)>, batch: Batch)
    requires DistinctKeys(items)
    requires forall i :: 0 <= i < |items| ==> items[i].0 in batch && batch[items[i].0] == items[i].1
    requires forall k :: k in batch ==> exists i :: 0 <= i < |items| && items[i].0 == k
    ensures WriteOneByOne(rows, items) == if AllAccepted(rows, batch) then Some(Written(rows, batch)) else None
    decreases |items|
  {
    if items == [] {
      forall k ensures Lookup(rows, k) == Lookup(Written(rows, batch), k) {
        WrittenRow(rows, batch, k);
      }
      RowsEqual(rows, Written(rows, batch));
    } else {
      var (k, u) := items[0];
      if Accepts(u, Lookup(rows, k)) {
        WriteOneFirst(rows, k, batch);
        var rest := batch - {k};
        forall j | j in rest ensures exists i :: 0 <= i < |items[1..]| && items[1..][i].0 == j {
          var i :| 0 <= i < |items| && items[i].0 == j;
          assert items[1..][i - 1].0 == j;
        }
        OrderIsIrrelevant(Written(rows, map[k := u]), items[1..], rest);
      }
    }
  }

  // ---- How the statements act on single rows.

  ghost predicate DistinctSeq(keys: seq<Key>) {
    forall i, j :: 0 <= i < j < |keys| ==> keys[i] != keys[j]
  }

  // The models of one INSERT chunk, taken from a batch.
  ghost predicate ModelsOf(ams: seq<ActiveModel>, keys: seq<Key>, batch: Batch, width: nat) {
    && |ams| == |keys| && DistinctSeq(keys) && AllKeyed(batch, width)
    && forall i :: 0 <= i < |ams| ==> keys[i] in batch && batch[keys[i]] == Insert(ams[i])
  }

  lemma AbsentAfterFirst(rows: Rows, row: Row, keys: seq<Key>)
    requires keys != [] && DistinctSeq(keys) && keys[0] !in rows
    ensures (forall i :: 0 <= i < |keys| ==> keys[i] !in rows) <==>
            (forall i :: 0 <= i < |keys[1..]| ==> keys[1..][i] !in rows[keys[0] := row])
    ensures keys[0] !in keys[1..]
  {
    assert forall i :: 0 < i < |keys| ==> keys[i] == keys[1..][i - 1];
  }

  lemma {:induction false} InsertAllRows(rows: Rows, ams: seq<ActiveModel>, keys: seq<Key>, batch: Batch, width: nat)
    requires ModelsOf(ams, keys, batch, width)
    ensures var r := InsertAll(rows, ams);
            && (r.Some? <==> forall i :: 0 <= i < |keys| ==> keys[i] !in rows)
            && (r.Some? ==> forall k ::
                  Lookup(r.value, k) == (if k in keys then Apply(batch[k], Lookup(rows, k)) else Lookup(rows, k)))
    decreases |ams|
  {
    if ams != [] {
      assert WellKeyed(keys[0], batch[keys[0]], width);
      var row := Stored(ams[0]);
      assert row[0] == keys[0];
      if keys[0] !in rows {
        var next, rest := rows[keys[0] := row], keys[1..];
        InsertAllRows(next, ams[1..], rest, batch, width);
        AbsentAfterFirst(rows, row, keys);
        assert keys == [keys[0]] + rest && keys[0] !in rest;
      }
    }
  }

  lemma TargetsOfModels(ams: seq<ActiveModel>, keys: seq<Key>, batch: Batch, width: nat)
    requires ModelsOf(ams, keys, batch, width)
    ensures Targets(InsertMany(ams)) == keys
  {
    forall i | 0 <= i < |keys| ensures TargetOf(ams[i]) == keys[i] {
      assert WellKeyed(keys[i], batch[keys[i]], width);
    }
  }

  lemma UpdateRowRows(rows: Rows, k: Key, am: ActiveModel, width: nat)
    requires WellKeyed(k, Update(am), width)
    ensures var r := UpdateRow(rows, am);
            && (r.Some? <==> k in rows)
            && (r.Some? ==> forall j ::
                  Lookup(r.value, j) == (if j == k then Apply(Update(am), Lookup(rows, k)) else Lookup(rows, j)))
    ensures Targets(UpdateOne(am)) == [k]
  {
  }
}
