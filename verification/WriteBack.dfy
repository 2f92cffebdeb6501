/** The write-back of the simulation's data controllers: one transaction, updates sent in place, inserts and deletes
    sent in chunks, everything confirmed only after the commit. */
module WriteBack {
  import opened Records
  import opened Backend
  import opened UpdatePool

  const CHUNK: nat := 1000

  /** A backend table.  `outage` is the number of statements a transaction can carry (the commit counts as one) and
      `readable` whether a fetch succeeds: they stand for every failure that is not the table's own refusal. */
  class Table {
    var rows: Rows
    var outage: nat
    var readable: bool

    constructor (rows: Rows, outage: nat, readable: bool)
      ensures this.rows == rows && this.outage == outage && this.readable == readable
    {
      this.rows, this.outage, this.readable := rows, outage, readable;
    }
  }

  /** An open transaction: its own view of the rows, and the statements it has carried. */
  class Transaction {
    const outage: nat
    ghost const start: Rows
    var rows: Rows
    var log: seq<Statement>

    constructor (table: Table)
      ensures Valid() && rows == start == table.rows && log == [] && outage == table.outage
    {
      start, rows, log, outage := table.rows, table.rows, [], table.outage;
    }

    ghost predicate Valid()
      reads this
    {
      ExecAll(start, log) == Some(rows) && |log| <= outage
    }

    method Execute(s: Statement) returns (ok: bool)
      requires Valid()
      modifies this
      ensures Valid()
      ensures ok <==> old(|log|) < outage && Exec(old(rows), s).Some?
      ensures ok ==> log == old(log) + [s] && Exec(old(rows), s) == Some(rows)
      ensures !ok ==> log == old(log) && rows == old(rows)
    {
      var r := Exec(rows, s);
      ok := |log| < outage && r.Some?;
      if ok {
        ExecAllAppend(start, log, s);
        log := log + [s];
        rows := r.value;
      }
    }
  }

  ghost predicate ChunksFit(log: seq<Statement>) {
    forall i :: 0 <= i < |log| ==> 1 <= SizeOf(log[i]) <= 1000
  }

  // Of the batch `due`, the records of `sent` are in the transaction and no other record is.
  ghost predicate Progress(start: Rows, rows: Rows, due: Batch, sent: set<Key>) {
    && sent <= due.Keys
    && (forall k :: k in sent ==> Accepts(due[k], Lookup(start, k)))
    && forall k :: Lookup(rows, k) == if k in sent then Apply(due[k], Lookup(start, k)) else Lookup(start, k)
  }

  ghost function SetOf(keys: seq<Key>): set<Key> {
    set k | k in keys
  }

  lemma ProgressInsert(start: Rows, rows: Rows, due: Batch, sent: set<Key>, ams: seq<ActiveModel>, keys: seq<Key>,
                       width: nat)
    requires Progress(start, rows, due, sent) && ModelsOf(ams, keys, due, width) && SetOf(keys) !! sent
    ensures var r := InsertAll(rows, ams);
            && (r.Some? ==> Progress(start, r.value, due, sent + SetOf(keys)))
            && (r.None? ==> !AllAccepted(start, due))
  {
    InsertAllRows(rows, ams, keys, due, width);
    var r := InsertAll(rows, ams);
    assert forall k :: k in keys ==> k in SetOf(keys);
    if r.Some? {
      forall k | k in keys ensures Accepts(due[k], Lookup(start, k)) {
        assert Lookup(rows, k) == Lookup(start, k);
      }
      forall k ensures Lookup(r.value, k) ==
          if k in sent + SetOf(keys) then Apply(due[k], Lookup(start, k)) else Lookup(start, k) {
        assert Lookup(rows, k) == if k in sent then Apply(due[k], Lookup(start, k)) else Lookup(start, k);
      }
    } else {
      var i :| 0 <= i < |keys| && keys[i] in rows;
      assert Lookup(rows, keys[i]) == Lookup(start, keys[i]);
      assert !Accepts(due[keys[i]], Lookup(start, keys[i]));
    }
  }

  lemma ProgressDelete(start: Rows, rows: Rows, due: Batch, sent: set<Key>, keys: seq<Key>)
    requires Progress(start, rows, due, sent)
    requires forall k :: k in keys ==> k in due && due[k] == Delete
    ensures Progress(start, Exec(rows, DeleteMany(keys)).value, due, sent + SetOf(keys))
  {
    var r := Exec(rows, DeleteMany(keys)).value;
    forall k ensures Lookup(r, k) ==
        if k in sent + SetOf(keys) then Apply(due[k], Lookup(start, k)) else Lookup(start, k) {
      assert Lookup(rows, k) == if k in sent then Apply(due[k], Lookup(start, k)) else Lookup(start, k);
    }
  }

  lemma ProgressUpdate(start: Rows, rows: Rows, due: Batch, sent: set<Key>, k: Key, am: ActiveModel, width: nat)
    requires Progress(start, rows, due, sent) && k in due && k !in sent && due[k] == Update(am)
    requires WellKeyed(k, due[k], width)
    ensures var r := Exec(rows, UpdateOne(am));
            && (r.Some? ==> Progress(start, r.value, due, sent + {k}))
            && (r.None? ==> !AllAccepted(start, due))
  {
    UpdateRowRows(rows, k, am, width);
    var r := Exec(rows, UpdateOne(am));
    assert Lookup(rows, k) == Lookup(start, k);
    if r.Some? {
      forall j ensures Lookup(r.value, j) ==
          if j in sent + {k} then Apply(due[j], Lookup(start, j)) else Lookup(start, j) {
        assert Lookup(rows, j) == if j in sent then Apply(due[j], Lookup(start, j)) else Lookup(start, j);
      }
    } else {
      assert !Accepts(due[k], Lookup(start, k));
    }
  }

  lemma ProgressComplete(start: Rows, rows: Rows, due: Batch)
    requires Progress(start, rows, due, due.Keys)
    ensures rows == Written(start, due) && AllAccepted(start, due)
  {
    forall k ensures Lookup(rows, k) == Lookup(Written(start, due), k) {
      WrittenRow(start, due, k);
    }
    RowsEqual(rows, Written(start, due));
  }

  // Items taken from the iterator whose records are not in the transaction yet; all of one kind.
  ghost predicate Waiting(iter: UpdateIterator, items: seq<Item>, due: Batch)
    reads iter, iter.pool, iter.pool.records.Values
  {
    Kept(iter, items, due, KeysOf(iter.worked))
  }

  ghost predicate Kept(iter: UpdateIterator, items: seq<Item>, due: Batch, worked: seq<Key>)
    reads iter.pool, iter.pool.records.Values
  {
    && DistinctSeq(KeysOf(items))
    && forall i :: 0 <= i < |items| ==>
         && iter.Holds(items[i]) && items[i].key in due && items[i].state.data == Some(due[items[i].key])
         && items[i].key !in worked
  }

  // Clearing a list of items gives every one of them back to the iterator.
  method DropAll(iter: UpdateIterator, items: seq<Item>, ghost due: Batch)
    requires iter.Valid() && !iter.Primed() && Waiting(iter, items, due)
    modifies iter`worked
    ensures iter.Valid() && iter.worked == old(iter.worked) + items
    ensures KeysOf(iter.worked) == KeysOf(old(iter.worked)) + KeysOf(items)
  {
    var rest := items;
    while rest != []
      invariant iter.Valid() && iter.worked + rest == old(iter.worked) + items
      invariant Waiting(iter, rest, due)
      decreases |rest|
    {
      var item, left := rest[0], rest[1..];
      assert KeysOf(rest)[0] == item.key;
      iter.TakeBack(item);
      assert KeysOf(left) == KeysOf(rest)[1..];
      assert KeysOf(iter.worked) == KeysOf(iter.worked[..|iter.worked| - 1]) + [item.key];
      forall i | 0 <= i < |left|
        ensures iter.Holds(left[i]) && left[i].key in due && left[i].state.data == Some(due[left[i].key])
                && left[i].key !in KeysOf(iter.worked) {
        assert left[i] == rest[i + 1] && KeysOf(rest)[i + 1] == left[i].key;
      }
      rest := left;
    }
    assert KeysOf(old(iter.worked) + items) == KeysOf(old(iter.worked)) + KeysOf(items);
  }

  ghost predicate AreInserts(items: seq<Item>, due: Batch) {
    forall i :: 0 <= i < |items| ==> items[i].key in due && due[items[i].key].Insert?
  }

  ghost predicate AreDeletes(items: seq<Item>, due: Batch) {
    forall i :: 0 <= i < |items| ==> items[i].key in due && due[items[i].key].Delete?
  }

  function ModelsIn(items: seq<Item>): (ams: seq<ActiveModel>)
    requires forall i :: 0 <= i < |items| ==> items[i].state.data.Some? && items[i].state.data.value.Insert?
    reads set i | 0 <= i < |items| :: items[i].state
    ensures |ams| == |items| && forall i :: 0 <= i < |items| ==> items[i].state.data == Some(Insert(ams[i]))
  {
    if items == [] then [] else [items[0].state.data.value.am] + ModelsIn(items[1..])
  }

  lemma WaitingModels(iter: UpdateIterator, items: seq<Item>, due: Batch, width: nat)
    requires Waiting(iter, items, due) && AreInserts(items, due) && AllKeyed(due, width)
    ensures forall i :: 0 <= i < |items| ==> items[i].state.data.Some? && items[i].state.data.value.Insert?
    ensures ModelsOf(ModelsIn(items), KeysOf(items), due, width)
    ensures SetOf(KeysOf(items)) !! SetOf(KeysOf(iter.worked))
  {
  }

  lemma SetOfAppend(a: seq<Key>, b: seq<Key>)
    ensures SetOf(a + b) == SetOf(a) + SetOf(b)
  {
  }

  // Logging one more statement of a permitted size.
  lemma LogGrows(log: seq<Statement>, s: Statement)
    requires ChunksFit(log) && 1 <= SizeOf(s) <= CHUNK
    ensures ChunksFit(log + [s]) && Addressed(log + [s]) == Addressed(log) + multiset(Targets(s))
  {
    AddressedAppend(log, s);
  }

  method ExecuteInserts(tx: Transaction, ams: seq<ActiveModel>, ghost keys: seq<Key>, ghost due: Batch,
                        ghost sent: set<Key>, ghost width: nat) returns (ok: bool)
    requires tx.Valid() && ChunksFit(tx.log) && 1 <= |ams| <= CHUNK
    requires ModelsOf(ams, keys, due, width) && SetOf(keys) !! sent
    requires Progress(tx.start, tx.rows, due, sent)
    modifies tx
    ensures tx.Valid() && ChunksFit(tx.log)
    ensures ok ==>
              && Progress(tx.start, tx.rows, due, sent + SetOf(keys))
              && Addressed(tx.log) == Addressed(old(tx.log)) + multiset(keys)
    ensures !ok ==> tx.rows == old(tx.rows) && tx.log == old(tx.log)
    ensures !ok ==> |tx.log| >= tx.outage || !AllAccepted(tx.start, due)
  {
    ProgressInsert(tx.start, tx.rows, due, sent, ams, keys, width);
    TargetsOfModels(ams, keys, due, width);
    LogGrows(tx.log, InsertMany(ams));
    ok := tx.Execute(InsertMany(ams));
  }

  method ExecuteDeletes(tx: Transaction, keys: seq<Key>, ghost due: Batch, ghost sent: set<Key>) returns (ok: bool)
    requires tx.Valid() && ChunksFit(tx.log) && 1 <= |keys| <= CHUNK
    requires forall k :: k in keys ==> k in due && due[k] == Delete
    requires Progress(tx.start, tx.rows, due, sent)
    modifies tx
    ensures tx.Valid() && ChunksFit(tx.log)
    ensures ok ==>
              && Progress(tx.start, tx.rows, due, sent + SetOf(keys))
              && Addressed(tx.log) == Addressed(old(tx.log)) + multiset(keys)
    ensures !ok ==> tx.rows == old(tx.rows) && tx.log == old(tx.log)
    ensures !ok ==> |tx.log| >= tx.outage
  {
    ProgressDelete(tx.start, tx.rows, due, sent, keys);
    LogGrows(tx.log, DeleteMany(keys));
    ok := tx.Execute(DeleteMany(keys));
  }

  // The transaction holds exactly the records that were given back to the iterator.
  ghost predicate Sound(iter: UpdateIterator, tx: Transaction, due: Batch)
    reads iter, iter.pool, iter.pool.records.Values, tx
  {
    && iter.Valid() && tx.Valid() && ChunksFit(tx.log)
    && Progress(tx.start, tx.rows, due, SetOf(KeysOf(iter.worked)))
    && Addressed(tx.log) == multiset(KeysOf(iter.worked))
  }

  // Sends the waiting inserts as one statement and gives the items back.
  method SendInserts(iter: UpdateIterator, tx: Transaction, items: seq<Item>, ghost due: Batch, ghost width: nat)
    returns (ok: bool)
    requires Sound(iter, tx, due) && !iter.Primed() && Waiting(iter, items, due) && AreInserts(items, due)
    requires 1 <= |items| <= CHUNK && AllKeyed(due, width)
    modifies tx, iter`worked
    ensures Sound(iter, tx, due)
    ensures KeysOf(iter.worked) == KeysOf(old(iter.worked)) + if ok then KeysOf(items) else []
    ensures !ok ==> |tx.log| >= tx.outage || !AllAccepted(tx.start, due)
  {
    WaitingModels(iter, items, due, width);
    ghost var keys := KeysOf(items);
    ok := ExecuteInserts(tx, ModelsIn(items), keys, due, SetOf(KeysOf(iter.worked)), width);
    if ok {
      SetOfAppend(KeysOf(iter.worked), keys);
      DropAll(iter, items, due);
    }
  }

  // Sends the waiting deletes as one statement and gives the items back.
  method SendDeletes(iter: UpdateIterator, tx: Transaction, items: seq<Item>, ghost due: Batch)
    returns (ok: bool)
    requires Sound(iter, tx, due) && !iter.Primed() && Waiting(iter, items, due) && AreDeletes(items, due)
    requires 1 <= |items| <= CHUNK
    modifies tx, iter`worked
    ensures Sound(iter, tx, due)
    ensures KeysOf(iter.worked) == KeysOf(old(iter.worked)) + if ok then KeysOf(items) else []
    ensures !ok ==> |tx.log| >= tx.outage
  {
    ok := ExecuteDeletes(tx, KeysOf(items), due, SetOf(KeysOf(iter.worked)));
    if ok {
      SetOfAppend(KeysOf(iter.worked), KeysOf(items));
      DropAll(iter, items, due);
    }
  }

  // Every record of the batch is still in the pool; it is due, waiting, or back with the iterator.
  ghost predicate Ledger(iter: UpdateIterator, waiting: set<Key>, due: Batch)
    reads iter, iter.pool, iter.pool.records.Values
  {
    Ledgered(iter, waiting, due, KeysOf(iter.worked))
  }

  ghost predicate Ledgered(iter: UpdateIterator, waiting: set<Key>, due: Batch, worked: seq<Key>)
    reads iter`unprocessed, iter`nextIdx, iter.pool, iter.pool.records.Values
  {
    && (forall k :: k in due ==> k in iter.pool.records && iter.pool.records[k].data == Some(due[k]))
    && (forall k :: iter.IsDue(k) <==> k in due && k !in worked && k !in waiting)
    && waiting !! SetOf(worked)
  }

  lemma WaitingAppend(iter: UpdateIterator, items: seq<Item>, item: Item, due: Batch)
    requires Waiting(iter, items, due)
    requires iter.Holds(item) && item.key in due && item.state.data == Some(due[item.key])
    requires item.key !in KeysOf(iter.worked) && item.key !in KeysOf(items)
    ensures Waiting(iter, items + [item], due) && SetOf(KeysOf(items + [item])) == SetOf(KeysOf(items)) + {item.key}
  {
    assert KeysOf(items + [item]) == KeysOf(items) + [item.key];
  }

  // An abandoned transaction: every item still held is dropped, which gives it back to the iterator.
  method Abandon(iter: UpdateIterator, inserts: seq<Item>, deletes: seq<Item>, item: Option<Item>, ghost due: Batch)
    requires iter.Valid() && !iter.Primed()
    requires Waiting(iter, inserts, due) && Waiting(iter, deletes, due)
    requires SetOf(KeysOf(inserts)) !! SetOf(KeysOf(deletes))
    requires item.Some? ==>
               && Waiting(iter, [item.value], due)
               && item.value.key !in KeysOf(inserts) && item.value.key !in KeysOf(deletes)
    modifies iter`worked
    ensures iter.Valid()
    ensures KeysOf(iter.worked) == KeysOf(old(iter.worked)) + KeysOf(inserts) + KeysOf(deletes)
                                   + if item.Some? then [item.value.key] else []
  {
    DropAll(iter, inserts, due);
    assert Waiting(iter, deletes, due) by {
      forall i | 0 <= i < |deletes| ensures deletes[i].key !in KeysOf(inserts) {
        assert KeysOf(deletes)[i] in SetOf(KeysOf(deletes));
      }
    }
    DropAll(iter, deletes, due);
    if item.Some? {
      DropAll(iter, [item.value], due);
      assert KeysOf([item.value]) == [item.value.key];
    }
  }

  // The state of a write-back between two statements.  `held` is the key of the item just taken, if any.
  ghost predicate InFlight(iter: UpdateIterator, tx: Transaction, inserts: seq<Item>, deletes: seq<Item>,
                           held: set<Key>, due: Batch)
    reads iter, iter.pool, iter.pool.records.Values, tx
  {
    && Sound(iter, tx, due)
    && Waiting(iter, inserts, due) && AreInserts(inserts, due) && |inserts| <= CHUNK
    && Waiting(iter, deletes, due) && AreDeletes(deletes, due) && |deletes| <= CHUNK
    && held !! SetOf(KeysOf(inserts)) + SetOf(KeysOf(deletes))
    && Ledger(iter, SetOf(KeysOf(inserts)) + SetOf(KeysOf(deletes)) + held, due)
  }

  lemma KindsDisjoint(inserts: seq<Item>, deletes: seq<Item>, due: Batch)
    requires AreInserts(inserts, due) && AreDeletes(deletes, due)
    ensures SetOf(KeysOf(inserts)) !! SetOf(KeysOf(deletes))
  {
  }

  // Chunks are sent when they are full, and on the last round whatever is left.
  method SendFullInserts(iter: UpdateIterator, tx: Transaction, last: bool, inserts: seq<Item>, deletes: seq<Item>,
                     ghost held: set<Key>, ghost due: Batch, ghost width: nat)
    returns (ok: bool, left: seq<Item>)
    requires InFlight(iter, tx, inserts, deletes, held, due) && !iter.Primed() && AllKeyed(due, width)
    modifies tx, iter`worked
    ensures InFlight(iter, tx, left, deletes, held, due)
    ensures !last && |inserts| < 1000 ==> ok && left == inserts && tx.log == old(tx.log)
    ensures ok && (last || |inserts| >= 1000) ==> left == []
    ensures !ok ==> |tx.log| >= tx.outage || !AllAccepted(tx.start, due)
  {
    ok, left := true, inserts;
    if (last && left != []) || |left| >= CHUNK {
      KindsDisjoint(inserts, deletes, due);
      ghost var worked := KeysOf(iter.worked);
      ok := SendInserts(iter, tx, left, due, width);
      if ok {
        left := [];
      }
      Resume(iter, tx, left, deletes, held, due, worked, if ok then KeysOf(inserts) else []);
    }
  }

  method SendFullDeletes(iter: UpdateIterator, tx: Transaction, last: bool, inserts: seq<Item>, deletes: seq<Item>,
                     ghost held: set<Key>, ghost due: Batch, ghost width: nat)
    returns (ok: bool, left: seq<Item>)
    requires InFlight(iter, tx, inserts, deletes, held, due) && !iter.Primed() && AllKeyed(due, width)
    modifies tx, iter`worked
    ensures InFlight(iter, tx, inserts, left, held, due)
    ensures !last && |deletes| < 1000 ==> ok && left == deletes && tx.log == old(tx.log)
    ensures ok && (last || |deletes| >= 1000) ==> left == []
    ensures !ok ==> |tx.log| >= tx.outage || !AllAccepted(tx.start, due)
  {
    ok, left := true, deletes;
    if (last && left != []) || |left| >= CHUNK {
      KindsDisjoint(inserts, deletes, due);
      ghost var worked := KeysOf(iter.worked);
      ok := SendDeletes(iter, tx, left, due);
      if ok {
        left := [];
      }
      Resume(iter, tx, inserts, left, held, due, worked, if ok then KeysOf(deletes) else []);
    }
  }

  // The items are still waiting after those of `moved` have been given back.
  lemma Resume(iter: UpdateIterator, tx: Transaction, inserts: seq<Item>, deletes: seq<Item>, held: set<Key>,
               due: Batch, worked: seq<Key>, moved: seq<Key>)
    requires Sound(iter, tx, due) && KeysOf(iter.worked) == worked + moved
    requires AreInserts(inserts, due) && |inserts| <= CHUNK && Kept(iter, inserts, due, worked)
    requires AreDeletes(deletes, due) && |deletes| <= CHUNK && Kept(iter, deletes, due, worked)
    requires held !! SetOf(KeysOf(inserts)) + SetOf(KeysOf(deletes))
    requires SetOf(moved) !! SetOf(KeysOf(inserts)) + SetOf(KeysOf(deletes)) + held
    requires Ledgered(iter, SetOf(KeysOf(inserts)) + SetOf(KeysOf(deletes)) + held + SetOf(moved), due, worked)
    ensures InFlight(iter, tx, inserts, deletes, held, due)
  {
    StillWaiting(iter, inserts, due, worked, moved);
    StillWaiting(iter, deletes, due, worked, moved);
    SetOfAppend(worked, moved);
  }

  // Items stay waiting when others have been given back.
  lemma StillWaiting(iter: UpdateIterator, items: seq<Item>, due: Batch, worked: seq<Key>, added: seq<Key>)
    requires KeysOf(iter.worked) == worked + added
    requires SetOf(KeysOf(items)) !! SetOf(added)
    requires Kept(iter, items, due, worked)
    ensures Waiting(iter, items, due)
  {
    forall i | 0 <= i < |items| ensures items[i].key !in added {
      assert KeysOf(items)[i] in SetOf(KeysOf(items));
    }
  }

  method ExecuteUpdate(tx: Transaction, k: Key, am: ActiveModel, ghost due: Batch, ghost sent: set<Key>,
                       ghost width: nat) returns (ok: bool)
    requires tx.Valid() && ChunksFit(tx.log) && Progress(tx.start, tx.rows, due, sent)
    requires k in due && k !in sent && due[k] == Update(am) && WellKeyed(k, due[k], width)
    modifies tx
    ensures tx.Valid() && ChunksFit(tx.log)
    ensures ok ==>
              && Progress(tx.start, tx.rows, due, sent + {k})
              && Addressed(tx.log) == Addressed(old(tx.log)) + multiset([k])
    ensures !ok ==> tx.rows == old(tx.rows) && tx.log == old(tx.log)
    ensures !ok ==> |tx.log| >= tx.outage || !AllAccepted(tx.start, due)
  {
    ProgressUpdate(tx.start, tx.rows, due, sent, k, am, width);
    UpdateRowRows(tx.rows, k, am, width);
    LogGrows(tx.log, UpdateOne(am));
    ok := tx.Execute(UpdateOne(am));
  }

  // An update is sent at once and its item given back.
  method SendUpdate(iter: UpdateIterator, tx: Transaction, item: Item, ghost due: Batch, ghost width: nat)
    returns (ok: bool)
    requires Sound(iter, tx, due) && !iter.Primed() && Waiting(iter, [item], due)
    requires item.key in due && due[item.key].Update? && WellKeyed(item.key, due[item.key], width)
    modifies tx, iter`worked
    ensures Sound(iter, tx, due)
    ensures KeysOf(iter.worked) == KeysOf(old(iter.worked)) + if ok then [item.key] else []
    ensures !ok ==> |tx.log| >= tx.outage || !AllAccepted(tx.start, due)
  {
    assert [item][0] == item;
    var am := item.state.data.value.am;
    ok := ExecuteUpdate(tx, item.key, am, due, SetOf(KeysOf(iter.worked)), width);
    if ok {
      SetOfAppend(KeysOf(iter.worked), [item.key]);
      DropAll(iter, [item], due);
      assert KeysOf([item]) == [item.key];
    }
  }

  lemma InsertJoins(iter: UpdateIterator, tx: Transaction, inserts: seq<Item>, deletes: seq<Item>, item: Item,
                    due: Batch)
    requires InFlight(iter, tx, inserts, deletes, {item.key}, due) && |inserts| < CHUNK
    requires Waiting(iter, [item], due) && item.key in due && due[item.key].Insert?
    ensures InFlight(iter, tx, inserts + [item], deletes, {}, due)
  {
    assert [item][0] == item && item.key !in SetOf(KeysOf(inserts));
    WaitingAppend(iter, inserts, item, due);
    assert SetOf(KeysOf(inserts + [item])) + SetOf(KeysOf(deletes)) + {} ==
           SetOf(KeysOf(inserts)) + SetOf(KeysOf(deletes)) + {item.key};
  }

  lemma DeleteJoins(iter: UpdateIterator, tx: Transaction, inserts: seq<Item>, deletes: seq<Item>, item: Item,
                    due: Batch)
    requires InFlight(iter, tx, inserts, deletes, {item.key}, due) && |deletes| < CHUNK
    requires Waiting(iter, [item], due) && item.key in due && due[item.key].Delete?
    ensures InFlight(iter, tx, inserts, deletes + [item], {}, due)
  {
    assert [item][0] == item && item.key !in SetOf(KeysOf(deletes));
    WaitingAppend(iter, deletes, item, due);
    assert SetOf(KeysOf(inserts)) + SetOf(KeysOf(deletes + [item])) + {} ==
           SetOf(KeysOf(inserts)) + SetOf(KeysOf(deletes)) + {item.key};
  }

  // The item just taken joins the waiting inserts or deletes, or is sent when it is an update.
  method Place(iter: UpdateIterator, tx: Transaction, item: Item, inserts: seq<Item>, deletes: seq<Item>,
               ghost due: Batch, ghost width: nat) returns (ok: bool, ins: seq<Item>, del: seq<Item>)
    requires InFlight(iter, tx, inserts, deletes, {item.key}, due) && |inserts| < CHUNK && |deletes| < CHUNK
    requires !iter.Primed() && Waiting(iter, [item], due)
    requires item.key in due && WellKeyed(item.key, due[item.key], width)
    modifies tx, iter`worked
    ensures ok ==> InFlight(iter, tx, ins, del, {}, due)
    ensures !ok ==> InFlight(iter, tx, ins, del, {item.key}, due)
    ensures !ok ==> |tx.log| >= tx.outage || !AllAccepted(tx.start, due)
  {
    ok, ins, del := true, inserts, deletes;
    assert [item][0] == item && item.key in SetOf([item.key]);
    ghost var worked := KeysOf(iter.worked);
    match item.state.data.value
    case Insert(_) =>
      InsertJoins(iter, tx, inserts, deletes, item, due);
      ins := inserts + [item];
    case Update(_) =>
      ok := SendUpdate(iter, tx, item, due, width);
      Resume(iter, tx, ins, del, if ok then {} else {item.key}, due, worked, if ok then [item.key] else []);
    case Delete =>
      DeleteJoins(iter, tx, inserts, deletes, item, due);
      del := deletes + [item];
  }

  ghost function HeldBy(item: Option<Item>): set<Key> {
    if item.None? then {} else {item.value.key}
  }

  // Takes the next item; its record is then due no more, and the others wait as before.
  method Take(iter: UpdateIterator, ghost inserts: seq<Item>, ghost deletes: seq<Item>, ghost due: Batch,
              ghost worked: seq<Key>) returns (item: Option<Item>)
    requires iter.Valid() && worked == KeysOf(iter.worked)
    requires Kept(iter, inserts, due, worked) && Kept(iter, deletes, due, worked)
    requires Ledgered(iter, SetOf(KeysOf(inserts)) + SetOf(KeysOf(deletes)), due, worked)
    modifies iter`unprocessed, iter`nextIdx, iter.pool.States()`locked
    ensures iter.Valid() && !iter.Primed() && |iter.unprocessed| == old(|iter.unprocessed|)
    ensures Kept(iter, inserts, due, worked) && Kept(iter, deletes, due, worked)
    ensures HeldBy(item) !! SetOf(KeysOf(inserts)) + SetOf(KeysOf(deletes))
    ensures Ledgered(iter, SetOf(KeysOf(inserts)) + SetOf(KeysOf(deletes)) + HeldBy(item), due, worked)
    ensures item.None? ==> (forall k :: !iter.IsDue(k)) && (forall k :: !old(iter.IsDue(k)))
    ensures item.Some? ==> iter.nextIdx > old(iter.nextIdx) && Kept(iter, [item.value], due, worked)
    ensures item.Some? ==> item.value.key in due
    ensures forall k :: old(iter.IsDue(k)) <==> iter.IsDue(k) || (item.Some? && k == item.value.key)
    ensures forall k :: k in iter.pool.records ==>
              (iter.pool.records[k].locked <==>
                old(iter.pool.records[k].locked) || (item.Some? && k == item.value.key))
  {
    item := iter.Next();
    assert item.Some? ==> KeysOf([item.value]) == [item.value.key];
  }

  method Fetch(iter: UpdateIterator, tx: Transaction, inserts: seq<Item>, deletes: seq<Item>, ghost due: Batch)
    returns (item: Option<Item>)
    requires InFlight(iter, tx, inserts, deletes, {}, due)
    modifies iter`unprocessed, iter`nextIdx, iter.pool.States()`locked
    ensures !iter.Primed() && |iter.unprocessed| == old(|iter.unprocessed|)
    ensures InFlight(iter, tx, inserts, deletes, HeldBy(item), due)
    ensures item.None? ==> (forall k :: !iter.IsDue(k)) && (forall k :: !old(iter.IsDue(k)))
    ensures item.Some? ==> iter.nextIdx > old(iter.nextIdx) && Waiting(iter, [item.value], due) && item.value.key in due
    ensures forall k :: old(iter.IsDue(k)) <==> iter.IsDue(k) || (item.Some? && k == item.value.key)
    ensures forall k :: k in iter.pool.records ==>
              (iter.pool.records[k].locked <==>
                old(iter.pool.records[k].locked) || (item.Some? && k == item.value.key))
  {
    item := Take(iter, inserts, deletes, due, KeysOf(iter.worked));
  }

  // What a round does with the item it has taken: send the chunks that are ready, then place the item.
  method Dispatch(iter: UpdateIterator, tx: Transaction, item: Option<Item>, inserts: seq<Item>, deletes: seq<Item>,
                  ghost due: Batch, ghost width: nat) returns (ok: bool, ins: seq<Item>, del: seq<Item>)
    requires InFlight(iter, tx, inserts, deletes, HeldBy(item), due)
    requires !iter.Primed() && AllKeyed(due, width)
    requires item.Some? ==> Waiting(iter, [item.value], due) && item.value.key in due
    modifies tx, iter`worked
    ensures iter.Valid() && tx.Valid() && ChunksFit(tx.log)
    ensures ok ==> InFlight(iter, tx, ins, del, {}, due)
    ensures ok && item.None? ==> ins == [] && del == []
    ensures !ok ==> |tx.log| <= |due| && (|tx.log| >= tx.outage || !AllAccepted(tx.start, due))
    ensures !ok ==> forall k :: k in KeysOf(iter.worked) <==> k in due && !iter.IsDue(k)
  {
    assert item.Some? ==> Kept(iter, [item.value], due, []);
    ok, ins, del := SendAndPlace(iter, tx, item, inserts, deletes, due, width);
    if !ok {
      AbandonAll(iter, tx, ins, del, item, due);
    }
  }

  method SendAndPlace(iter: UpdateIterator, tx: Transaction, item: Option<Item>, inserts: seq<Item>, deletes: seq<Item>,
                      ghost due: Batch, ghost width: nat) returns (ok: bool, ins: seq<Item>, del: seq<Item>)
    requires InFlight(iter, tx, inserts, deletes, HeldBy(item), due)
    requires !iter.Primed() && AllKeyed(due, width)
    requires item.Some? ==> Waiting(iter, [item.value], due) && item.value.key in due
    modifies tx, iter`worked
    ensures InFlight(iter, tx, ins, del, if ok || item.None? then {} else {item.value.key}, due)
    ensures ok && item.None? ==> ins == [] && del == []
    ensures !ok ==> |tx.log| >= tx.outage || !AllAccepted(tx.start, due)
  {
    assert item.Some? ==> Kept(iter, [item.value], due, []);
    ok, ins, del := SendReady(iter, tx, item, inserts, deletes, due, width);
    if ok && item.Some? {
      KeepItem(iter, tx, item.value, ins, del, due);
      ok, ins, del := Place(iter, tx, item.value, ins, del, due, width);
    }
  }

  method SendReady(iter: UpdateIterator, tx: Transaction, item: Option<Item>, inserts: seq<Item>, deletes: seq<Item>,
                   ghost due: Batch, ghost width: nat) returns (ok: bool, ins: seq<Item>, del: seq<Item>)
    requires InFlight(iter, tx, inserts, deletes, HeldBy(item), due)
    requires !iter.Primed() && AllKeyed(due, width)
    modifies tx, iter`worked
    ensures InFlight(iter, tx, ins, del, HeldBy(item), due)
    ensures ok ==> |ins| < CHUNK && |del| < CHUNK && (item.None? ==> ins == [] && del == [])
    ensures !ok ==> |tx.log| >= tx.outage || !AllAccepted(tx.start, due)
  {
    ghost var held := HeldBy(item);
    del := deletes;
    ok, ins := SendFullInserts(iter, tx, item.None?, inserts, del, held, due, width);
    if ok {
      ok, del := SendFullDeletes(iter, tx, item.None?, ins, del, held, due, width);
    }
  }

  // While a record is held, its item may still be given back.
  lemma KeepItem(iter: UpdateIterator, tx: Transaction, item: Item, ins: seq<Item>, del: seq<Item>, due: Batch)
    requires InFlight(iter, tx, ins, del, {item.key}, due)
    requires Kept(iter, [item], due, [])
    ensures Waiting(iter, [item], due) && item.key !in KeysOf(ins) && item.key !in KeysOf(del)
  {
    assert [item][0] == item && item.key in {item.key};
    assert item.key !in SetOf(KeysOf(ins)) && item.key !in SetOf(KeysOf(del));
    assert item.key !in SetOf(KeysOf(iter.worked));
  }

  method AbandonAll(iter: UpdateIterator, tx: Transaction, ins: seq<Item>, del: seq<Item>, item: Option<Item>,
                    ghost due: Batch)
    requires InFlight(iter, tx, ins, del, HeldBy(item), due) && !iter.Primed()
    requires item.Some? ==> Kept(iter, [item.value], due, []) && item.value.key in due
    modifies iter`worked
    ensures iter.Valid() && |tx.log| <= |due| && forall k :: k in KeysOf(iter.worked) <==> k in due && !iter.IsDue(k)
  {
    LogFits(iter, tx, due);
    KindsDisjoint(ins, del, due);
    if item.Some? {
      KeepItem(iter, tx, item.value, ins, del, due);
    }
    NotDueNow(iter, tx, ins, del, item, due);
    Abandon(iter, ins, del, item, due);
  }

  // What is due no more is held, waiting, or back with the iterator.
  lemma NotDueNow(iter: UpdateIterator, tx: Transaction, ins: seq<Item>, del: seq<Item>, item: Option<Item>, due: Batch)
    requires InFlight(iter, tx, ins, del, HeldBy(item), due) && (item.Some? ==> item.value.key in due)
    ensures var back := KeysOf(iter.worked) + KeysOf(ins) + KeysOf(del) + if item.Some? then [item.value.key] else [];
            forall k :: k in back <==> k in due && !iter.IsDue(k)
  {
    KeysAreDue(ins, due);
    KeysAreDue(del, due);
    InSetOf(KeysOf(iter.worked));
    InSetOf(KeysOf(ins));
    InSetOf(KeysOf(del));
  }

  lemma KeysAreDue(items: seq<Item>, due: Batch)
    requires forall i :: 0 <= i < |items| ==> items[i].key in due
    ensures forall k :: k in KeysOf(items) ==> k in due
  {
  }

  // One round of the write-back loop.
  method Round(iter: UpdateIterator, tx: Transaction, inserts: seq<Item>, deletes: seq<Item>, ghost due: Batch,
               ghost width: nat) returns (ok: bool, last: bool, ins: seq<Item>, del: seq<Item>)
    requires InFlight(iter, tx, inserts, deletes, {}, due)
    requires AllKeyed(due, width)
    modifies tx, iter, iter.pool.States()`locked
    ensures iter.Valid() && tx.Valid() && ChunksFit(tx.log) && !iter.Primed()
    ensures |iter.unprocessed| == old(|iter.unprocessed|)
    ensures ok ==> InFlight(iter, tx, ins, del, {}, due)
    ensures ok && last ==> ins == [] && del == [] && forall k :: !iter.IsDue(k)
    ensures ok && !last ==> iter.nextIdx > old(iter.nextIdx)
    ensures !ok ==> |tx.log| <= |due| && (|tx.log| >= tx.outage || !AllAccepted(tx.start, due))
    ensures !ok ==> forall k :: k in KeysOf(iter.worked) <==> k in due && !iter.IsDue(k)
    ensures forall k :: iter.IsDue(k) ==> old(iter.IsDue(k))
    ensures forall k :: k in iter.pool.records ==>
              (iter.pool.records[k].locked <==>
                old(iter.pool.records[k].locked) || (old(iter.IsDue(k)) && !iter.IsDue(k)))
  {
    var item := Fetch(iter, tx, inserts, deletes, due);
    last := item.None?;
    assert forall k :: k in iter.pool.records ==>
             (iter.pool.records[k].locked <==>
               old(iter.pool.records[k].locked) || (old(iter.IsDue(k)) && !iter.IsDue(k)));
    ok, ins, del := Dispatch(iter, tx, item, inserts, deletes, due, width);
  }

  lemma {:induction false} DistinctAsSet(keys: seq<Key>)
    requires DistinctSeq(keys)
    ensures multiset(keys) == multiset(SetOf(keys))
  {
    if keys != [] {
      DistinctAsSet(keys[1..]);
      assert keys == [keys[0]] + keys[1..] && keys[0] !in keys[1..];
      assert SetOf(keys) == {keys[0]} + SetOf(keys[1..]);
    }
  }

  lemma {:induction false} LogBounded(log: seq<Statement>)
    requires ChunksFit(log)
    ensures |log| <= |Addressed(log)|
  {
    if log != [] {
      var init := log[..|log| - 1];
      LogBounded(init);
      assert |Addressed(log)| == |Addressed(init)| + SizeOf(log[|log| - 1]);
    }
  }

  // No more statements have been sent than there are records.
  lemma LogFits(iter: UpdateIterator, tx: Transaction, due: Batch)
    requires Sound(iter, tx, due)
    ensures |tx.log| <= |due|
  {
    LogBounded(tx.log);
    DistinctAsSet(KeysOf(iter.worked));
    SubsetSize(SetOf(KeysOf(iter.worked)), due.Keys);
  }

  lemma {:induction false} SubsetSize(a: set<Key>, b: set<Key>)
    requires a <= b
    ensures |a| <= |b| && |multiset(a)| == |a|
  {
    assert b == a + (b - a);
    if a != {} {
      var x :| x in a;
      SubsetSize(a - {x}, b - {x});
      assert multiset(a) == multiset(a - {x}) + multiset{x};
    }
  }

  lemma Begin(iter: UpdateIterator, tx: Transaction, due: Batch)
    requires iter.Valid() && iter.worked == [] && due == iter.Due()
    requires tx.Valid() && tx.rows == tx.start && tx.log == []
    ensures InFlight(iter, tx, [], [], {}, due)
  {
    assert KeysOf(iter.worked) == [];
  }

  // The loop of the write-back: rounds until nothing is due or a statement fails.
  method SendAll(iter: UpdateIterator, tx: Transaction, ghost due: Batch, ghost width: nat) returns (ok: bool)
    requires iter.Valid() && iter.worked == [] && due == iter.Due() && AllKeyed(due, width)
    requires tx.Valid() && tx.rows == tx.start && tx.log == []
    modifies tx, iter, iter.pool.States()`locked
    ensures iter.Valid() && tx.Valid() && ChunksFit(tx.log) && !iter.Primed()
    ensures ok ==>
              && SetOf(KeysOf(iter.worked)) == due.Keys && Addressed(tx.log) == multiset(due.Keys)
              && AllAccepted(tx.start, due) && tx.rows == Written(tx.start, due)
    ensures |tx.log| <= |due| && (!ok ==> |tx.log| >= tx.outage || !AllAccepted(tx.start, due))
    ensures forall k :: k in iter.pool.records ==>
              (iter.pool.records[k].locked && k !in KeysOf(iter.worked) <==>
                old(iter.pool.records[k].locked) && k !in due)
  {
    var inserts: seq<Item>, deletes: seq<Item>, last := [], [], false;
    ok := true;
    Begin(iter, tx, due);
    while ok && !last
      invariant iter.Valid() && tx.Valid() && ChunksFit(tx.log)
      invariant ok ==> InFlight(iter, tx, inserts, deletes, {}, due)
      invariant last || !ok ==> !iter.Primed()
      invariant ok && last ==> inserts == [] && deletes == [] && forall k :: !iter.IsDue(k)
      invariant !ok ==> |tx.log| <= |due| && (|tx.log| >= tx.outage || !AllAccepted(tx.start, due))
      invariant !ok ==> forall k :: k in KeysOf(iter.worked) <==> k in due && !iter.IsDue(k)
      invariant forall k :: iter.IsDue(k) ==> k in due
      invariant forall k :: k in iter.pool.records ==>
        (iter.pool.records[k].locked <==> old(iter.pool.records[k].locked) || (k in due && !iter.IsDue(k)))
      decreases if ok && !last then |iter.unprocessed| - iter.nextIdx + 1 else 0
    {
      ok, last, inserts, deletes := Round(iter, tx, inserts, deletes, due, width);
    }
    if ok {
      AllSent(iter, tx, due);
    }
  }

  lemma AllSent(iter: UpdateIterator, tx: Transaction, due: Batch)
    requires InFlight(iter, tx, [], [], {}, due) && forall k :: !iter.IsDue(k)
    ensures SetOf(KeysOf(iter.worked)) == due.Keys && Addressed(tx.log) == multiset(due.Keys)
    ensures AllAccepted(tx.start, due) && tx.rows == Written(tx.start, due) && |tx.log| <= |due|
    ensures forall k :: k in KeysOf(iter.worked) <==> k in due
  {
    LogFits(iter, tx, due);
    InSetOf(KeysOf(iter.worked));
    assert SetOf(KeysOf(iter.worked)) == due.Keys;
    ProgressComplete(tx.start, tx.rows, due);
    DistinctAsSet(KeysOf(iter.worked));
  }

  // Commits the transaction and confirms every record given back; nothing is confirmed before the commit.
  method Commit(iter: UpdateIterator, tx: Transaction, table: Table, ghost recs: map<Key, UpdateState>,
                ghost due: Batch) returns (ok: bool)
    requires iter.Valid() && !iter.Primed() && recs == iter.pool.records && SetOf(KeysOf(iter.worked)) == due.Keys
    modifies table`rows, iter.pool.States()`data
    ensures iter.Valid() && (ok <==> |tx.log| < tx.outage)
    ensures table.rows == if ok then tx.rows else old(table.rows)
    ensures forall k :: k in recs ==> recs[k].data == if ok && k in due then None else old(recs[k].data)
  {
    ok := |tx.log| < tx.outage;
    if ok {
      table.rows := tx.rows;
      iter.ConfirmAll();
      InSetOf(KeysOf(iter.worked));
    }
  }

  // The rounds and, when they succeed, the commit.
  method SendAndCommit(iter: UpdateIterator, tx: Transaction, table: Table, ghost recs: map<Key, UpdateState>,
                       ghost due: Batch, ghost width: nat) returns (ok: bool)
    requires iter.Valid() && iter.worked == [] && recs == iter.pool.records
    requires due == iter.Due() && AllKeyed(due, width)
    requires tx.Valid() && tx.rows == tx.start == table.rows && tx.log == [] && tx.outage == table.outage
    modifies tx, iter, table`rows, iter.pool.States()`locked, iter.pool.States()`data
    ensures iter.Valid() && !iter.Primed() && tx.Valid() && ChunksFit(tx.log)
    ensures AllAccepted(tx.start, due) && |due| < tx.outage ==> ok
    ensures table.rows == if ok then Written(tx.start, due) else tx.start
    ensures ok ==> AllAccepted(tx.start, due) && tx.rows == table.rows
    ensures ok ==> Addressed(tx.log) == multiset(due.Keys) && SetOf(KeysOf(iter.worked)) == due.Keys
    ensures forall k :: k in recs ==> recs[k].data == if ok && k in due then None else old(recs[k].data)
    ensures forall k :: k in recs ==>
              (recs[k].locked && k !in KeysOf(iter.worked) <==> old(recs[k].locked) && k !in due)
  {
    ok := SendAll(iter, tx, due, width);
    if ok {
      ok := Commit(iter, tx, table, recs, due);
    }
  }

  // `wbdc_write_back`, for the batch `due` the iterator has to yield.  When it succeeds the table has received every
  // due record exactly once, in chunks of 1 to 1000, with the effect of the whole batch, and the records are
  // confirmed.  When it fails, which takes a broken connection or a record the table refuses, neither the table nor
  // any record has changed.
  method WbdcWriteBack(iter: UpdateIterator, table: Table, ghost start: Rows, ghost recs: map<Key, UpdateState>,
                       ghost due: Batch, ghost width: nat) returns (ok: bool, log: seq<Statement>)
    requires iter.Valid() && iter.worked == [] && start == table.rows && recs == iter.pool.records
    requires due == iter.Due() && AllKeyed(due, width)
    modifies iter, table`rows, iter.pool.States()`locked, iter.pool.States()`data
    ensures iter.Valid() && !iter.Primed() && ChunksFit(log)
    ensures AllAccepted(start, due) && |due| < table.outage ==> ok
    ensures table.rows == if ok then Written(start, due) else start
    ensures ok ==> AllAccepted(start, due) && ExecAll(start, log) == Some(table.rows)
    ensures ok ==> Addressed(log) == multiset(due.Keys) && SetOf(KeysOf(iter.worked)) == due.Keys
    ensures forall k :: k in recs ==> recs[k].data == if ok && k in due then None else old(recs[k].data)
    ensures forall k :: k in recs ==>
              (recs[k].locked && k !in KeysOf(iter.worked) <==> old(recs[k].locked) && k !in due)
  {
    var tx := new Transaction(table);
    ok := SendAndCommit(iter, tx, table, recs, due, width);
    log := tx.log;
  }

  lemma InSetOf(keys: seq<Key>)
    ensures forall k :: k in keys <==> k in SetOf(keys)
  {
  }
}
