/** The cache controller itself, over primary keys: the inner cache, the pool of shared update records and the backend
    table, updated in place.  Every method takes a step of `CacheModel`. */
module Cache {
  import opened Records
  import opened Backend
  import opened UpdatePool
  import opened WriteBack
  import opened CacheModel
  import opened Refinement
  import DC = DataController

  class Cache {
    const imm: bool
    const pool: Pool
    const table: Table
    ghost const width: nat
    var entries: map<Key, Row>

    constructor (imm: bool, table: Table, ghost width: nat)
      ensures Valid() && Keyed() && fresh(pool) && this.imm == imm && this.table == table && this.width == width
      ensures Abs() == State(map[], map[], table.rows)
    {
      this.imm, this.table, this.width := imm, table, width;
      this.pool := new Pool();
      this.entries := map[];
    }

    // Between operations: no record is locked, and each is shared by nobody but the pool.
    ghost predicate Valid()
      reads this, pool, pool.records.Values
    {
      pool.Valid() && Shared(None)
    }

    // No record is locked; `st` has one handle besides the pool's, the others none.
    ghost predicate Shared(st: Option<UpdateState>)
      reads pool, pool.records.Values
    {
      forall k :: k in pool.records ==>
        !pool.records[k].locked && pool.records[k].refs == if Some(pool.records[k]) == st then 2 else 1
    }

    ghost function Abs(): State
      reads this, pool, pool.records.Values, table
    {
      State(entries, pool.Contents(), table.rows)
    }

    // Every pending record is addressed to its key: what every controller answer guarantees.
    ghost predicate Keyed()
      reads pool, pool.records.Values
    {
      forall k :: k in pool.records && pool.records[k].data.Some? ==> WellKeyed(k, pool.records[k].data.value, width)
    }

    // ---- Write-backs.

    // Removes the records that have been written and that nobody else shares, then drops the iterator.
    // The lookup cannot fail; the count returned is the one the original returns.
    method PurifyUpdates(iter: UpdateIterator, ghost recs: map<Key, UpdateState>) returns (count: nat)
      requires recs == pool.records && iter.Valid() && !iter.Primed() && iter.pool == pool
      requires forall k :: k in KeysOf(iter.worked) ==> k in pool.records && pool.records[k].data.None?
      modifies pool, iter`worked, pool.States()`locked
      ensures count == 0
      ensures forall k :: k in pool.records <==> k in recs && !(k in KeysOf(old(iter.worked)) && recs[k].refs <= 1)
      ensures forall k :: k in pool.records ==> pool.records[k] == recs[k]
      ensures forall k :: k in recs ==> (recs[k].locked <==> old(recs[k].locked) && k !in KeysOf(old(iter.worked)))
    {
      var items := iter.worked;
      assert forall i :: 0 <= i < |items| ==> KeysOf(items)[i] == items[i].key && iter.Holds(items[i]);
      RemoveWritten(items);
      ghost var left := pool.records;
      for i := 0 to |items|
        invariant pool.records == left
        invariant forall k :: k in recs ==> (recs[k].locked <==> old(recs[k].locked) && k !in KeysOf(items)[..i])
      {
        assert KeysOf(items)[..i + 1] == KeysOf(items)[..i] + [items[i].key];
        items[i].state.locked := false;
      }
      assert KeysOf(items)[..|items|] == KeysOf(items);
      iter.worked := [];
      return 0;
    }

    method RemoveWritten(items: seq<Item>)
      requires DistinctSeq(KeysOf(items))
      requires forall i :: 0 <= i < |items| ==>
                 && items[i].key in pool.records && pool.records[items[i].key] == items[i].state
                 && items[i].state.data.None?
      modifies pool
      ensures forall k :: k in pool.records <==>
                k in old(pool.records) && !(k in KeysOf(items) && old(pool.records[k].refs) <= 1)
      ensures forall k :: k in pool.records ==> pool.records[k] == old(pool.records)[k]
    {
      ghost var records := pool.records;
      for i := 0 to |items|
        invariant forall k :: k in pool.records <==>
                    k in records && !(k in KeysOf(items)[..i] && records[k].refs <= 1)
        invariant forall k :: k in pool.records ==> pool.records[k] == records[k]
      {
        var key := items[i].key;
        assert KeysOf(items)[i] == key && key !in KeysOf(items)[..i];
        assert KeysOf(items)[..i + 1] == KeysOf(items)[..i] + [key];
        var update := pool.records[key];
        if update.refs <= 1 && items[i].state.data.None? {
          pool.records := pool.records - {key};
        }
      }
      assert KeysOf(items)[..|items|] == KeysOf(items);
    }

    // A write-back and what follows it: purification when it succeeded, the bare drop of the iterator when not.
    method WriteAndSettle(iter: UpdateIterator, ghost start: Rows, ghost recs: map<Key, UpdateState>, ghost due: Batch)
      returns (ok: bool)
      requires iter.Valid() && iter.worked == [] && iter.pool == pool
      requires start == table.rows && recs == pool.records && due == iter.Due() && AllKeyed(due, width)
      modifies iter, pool, pool.States()`locked, pool.States()`data, table`rows
      ensures AllAccepted(start, due) && |due| < table.outage ==> ok
      ensures ok ==> AllAccepted(start, due)
      ensures table.rows == if ok then Written(start, due) else start
      ensures forall k :: k in pool.records <==> k in recs && !(ok && k in due && recs[k].refs <= 1)
      ensures forall k :: k in pool.records ==> pool.records[k] == recs[k]
      ensures forall k :: k in recs ==> recs[k].data == if ok && k in due then None else old(recs[k].data)
      ensures forall k :: k in recs ==>
                (recs[k].locked <==> old(recs[k].locked) && k !in due) && recs[k].refs == old(recs[k].refs)
    {
      var log;
      ok, log := WbdcWriteBack(iter, table, start, recs, due, width);
      InSetOf(KeysOf(iter.worked));
      if ok {
        var _ := PurifyUpdates(iter, recs);
      } else {
        iter.ReleaseWorked();
      }
    }

    // What a settled write-back means for the cache as a value.
    lemma FlushTaken(s: State, recs: map<Key, UpdateState>, keys: set<Key>, single: bool, ok: bool, io: Io)
      requires entries == s.entries && recs.Keys == s.pool.Keys
      requires forall k :: k in pool.records <==> k in recs && !(ok && k in DueAmong(s, keys) && !single)
      requires forall k :: k in pool.records ==> pool.records[k] == recs[k]
      requires forall k :: k in recs ==>
                 recs[k].data == if ok && k in DueAmong(s, keys) then None else s.pool[k]
      requires ok ==> AllAccepted(s.db, DueAmong(s, keys))
      requires table.rows == if ok then Written(s.db, DueAmong(s, keys)) else s.db
      requires io.canWrite == (ok || !AllAccepted(s.db, DueAmong(s, keys)))
      requires single ==> DueAmong(s, keys) != map[]
      ensures Outcome(Abs(), if ok then Done else Failed) == FlushKeys(s, keys, single, io)
    {
      var t := FlushKeys(s, keys, single, io).state;
      assert pool.Contents() == t.pool;
    }

    // The end of every flush: the iterator is written back and settled.
    method FlushIter(iter: UpdateIterator, ghost s: State, ghost recs: map<Key, UpdateState>, ghost keys: set<Key>,
                     ghost single: bool) returns (reply: Reply, ghost io: Io)
      requires iter.Valid() && iter.worked == [] && iter.pool == pool && s == Abs() && recs == pool.records
      requires iter.Due() == DueAmong(s, keys) && AllKeyed(DueAmong(s, keys), width)
      requires forall k :: k in recs ==>
                 && (recs[k].locked <==> single && k in DueAmong(s, keys))
                 && recs[k].refs == if single && k in DueAmong(s, keys) then 2 else 1
      requires single ==> DueAmong(s, keys) != map[]
      modifies iter, pool, pool.States()`locked, pool.States()`data, table`rows
      ensures Outcome(Abs(), reply) == FlushKeys(s, keys, single, io)
      ensures io.canRead == table.readable && (|DueAmong(s, keys)| < table.outage ==> io.canWrite)
      ensures forall k :: k in pool.records ==> k in recs && pool.records[k] == recs[k]
      ensures forall k :: k in recs ==>
                && !recs[k].locked && recs[k].refs == (if single && k in DueAmong(s, keys) then 2 else 1)
                && (recs[k].data.Some? ==> recs[k].data == s.pool[k])
    {
      ghost var due := DueAmong(s, keys);
      var ok := WriteAndSettle(iter, s.db, recs, due);
      io := Io(ok || !AllAccepted(s.db, due), table.readable);
      FlushTaken(s, recs, keys, single, ok, io);
      reply := if ok then Done else Failed;
    }

    lemma Restored(s: State, recs: map<Key, UpdateState>)
      requires forall j, k :: j in recs && k in recs && j != k ==> recs[j] != recs[k]
      requires forall k :: k in pool.records ==> k in recs && pool.records[k] == recs[k]
      requires recs.Keys == s.pool.Keys
      requires forall k :: k in recs ==> !recs[k].locked && recs[k].refs == 1
      requires forall k :: k in recs && recs[k].data.Some? ==> recs[k].data == s.pool[k]
      requires forall k :: k in s.pool && s.pool[k].Some? ==> WellKeyed(k, s.pool[k].value, width)
      ensures Valid() && Keyed()
    {
    }

    // `flush_many_raw`: the observers may run through the batch first; the iterator is reset after them.
    method FlushManyRaw(keys: seq<Key>, visits: nat, ghost s: State) returns (reply: Reply, ghost io: Io)
      requires Valid() && Keyed() && s == Abs()
      modifies pool, pool.States(), table`rows
      ensures Valid() && Keyed() && pool.States() <= old(pool.States())
      ensures Outcome(Abs(), reply) == FlushKeys(s, SetOf(keys), false, io)
      ensures io.canRead == table.readable && (|DueAmong(s, SetOf(keys))| < table.outage ==> io.canWrite)
    {
      ghost var recs := pool.records;
      var iter := PrepareBatch(keys, visits, s, DueAmong(s, SetOf(keys)));
      reply, io := FlushIter(iter, s, recs, SetOf(keys), false);
      Restored(s, recs);
    }

    // The iterator of a batch, after the observers have seen it.
    method PrepareBatch(keys: seq<Key>, visits: nat, ghost s: State, ghost due: Batch) returns (iter: UpdateIterator)
      requires Valid() && Keyed() && s == Abs() && due == DueAmong(s, SetOf(keys))
      modifies pool.States()`locked
      ensures fresh(iter) && iter.Valid() && iter.worked == [] && iter.pool == pool
      ensures iter.Due() == due && AllKeyed(due, width) && Valid()
    {
      iter := new UpdateIterator.Keys(pool, keys);
      var _ := iter.ObserverPass(visits);
      assert iter.Due() == due;
    }

    // `flush_raw`: every key in the pool.
    method FlushRaw(visits: nat, ghost s: State) returns (reply: Reply, ghost io: Io)
      requires Valid() && Keyed() && s == Abs()
      modifies pool, pool.States(), table`rows
      ensures Valid() && Keyed() && pool.States() <= old(pool.States())
      ensures Outcome(Abs(), reply) == FlushKeys(s, s.pool.Keys, false, io)
      ensures io.canRead == table.readable && (|DueAmong(s, s.pool.Keys)| < table.outage ==> io.canWrite)
    {
      var keys := PoolKeys();
      ghost var all := s.pool.Keys;
      assert SetOf(keys) == all;
      reply, io := FlushManyRaw(keys, visits, s);
    }

    method PoolKeys() returns (keys: seq<Key>)
      ensures SetOf(keys) == pool.records.Keys
    {
      keys := [];
      var left := pool.records.Keys;
      while left != {}
        invariant SetOf(keys) + left == pool.records.Keys
        decreases |left|
      {
        var k :| k in left;
        left := left - {k};
        SetOfAppend(keys, [k]);
        keys := keys + [k];
      }
    }

    // `flush_one`: the record is shared and locked for the time of its write-back.
    method FlushOne(k: Key, ghost s: State) returns (reply: Reply, ghost io: Io)
      requires Valid() && Keyed() && s == Abs()
      modifies pool, pool.States(), table`rows
      ensures Valid() && Keyed() && pool.States() <= old(pool.States())
      ensures Outcome(Abs(), reply) == FlushOneStep(s, k, io)
      ensures io.canRead == table.readable && (1 < table.outage ==> io.canWrite)
    {
      reply, io := Done, Io(true, table.readable);
      if k in pool.records {
        var update := pool.records[k];
        if update.data.Some? {
          reply, io := FlushShared(k, update, s);
        }
      }
    }

    method FlushShared(k: Key, update: UpdateState, ghost s: State) returns (reply: Reply, ghost io: Io)
      requires Valid() && Keyed() && s == Abs()
      requires k in pool.records && pool.records[k] == update && update.data.Some?
      modifies pool, pool.States(), table`rows
      ensures Valid() && Keyed() && pool.States() <= old(pool.States())
      ensures Outcome(Abs(), reply) == FlushOneStep(s, k, io)
      ensures io.canRead == table.readable && (1 < table.outage ==> io.canWrite)
    {
      var iter := PrepareSingle(k, update, s);
      reply, io := SettleShared(iter, k, update, s, pool.records);
    }

    // The write-back of the shared record, after which the handle to it is dropped.
    method SettleShared(iter: UpdateIterator, k: Key, update: UpdateState, ghost s: State,
                        ghost recs: map<Key, UpdateState>)
      returns (reply: Reply, ghost io: Io)
      requires iter.Valid() && iter.worked == [] && iter.pool == pool && s == Abs() && Keyed() && recs == pool.records
      requires k in recs && recs[k] == update && update.data.Some? && iter.Due() == map[k := update.data.value]
      requires forall j :: j in recs ==> (recs[j].locked <==> j == k) && recs[j].refs == if j == k then 2 else 1
      modifies iter, pool, pool.States(), table`rows
      ensures Valid() && Keyed() && pool.States() <= recs.Values
      ensures Outcome(Abs(), reply) == FlushOneStep(s, k, io)
      ensures io.canRead == table.readable && (1 < table.outage ==> io.canWrite)
    {
      assert DueAmong(s, {k}) == map[k := update.data.value];
      reply, io := FlushIter(iter, s, recs, {k}, true);
      ReleaseHandle(k, update, s, recs, Abs());
    }

    // The end of a single flush: its handle to the record is dropped.
    method ReleaseHandle(k: Key, update: UpdateState, ghost s: State, ghost recs: map<Key, UpdateState>, ghost t: State)
      requires t == Abs() && k in recs && recs[k] == update && update.refs == 2
      requires forall i, j :: i in recs && j in recs && i != j ==> recs[i] != recs[j]
      requires forall j :: j in pool.records ==> j in recs && pool.records[j] == recs[j]
      requires recs.Keys == s.pool.Keys
      requires forall j :: j in recs ==> !recs[j].locked && (j != k ==> recs[j].refs == 1)
      requires forall j :: j in recs && recs[j].data.Some? ==> recs[j].data == s.pool[j]
      requires forall j :: j in s.pool && s.pool[j].Some? ==> WellKeyed(j, s.pool[j].value, width)
      modifies update`refs
      ensures Valid() && Keyed() && t == Abs()
    {
      update.refs := update.refs - 1;
      Restored(s, recs);
      assert pool.Contents() == t.pool;
    }

    // Takes a handle and the lock of the record, and an iterator for it.
    method PrepareSingle(k: Key, update: UpdateState, ghost s: State) returns (iter: UpdateIterator)
      requires Valid() && Keyed() && s == Abs()
      requires k in pool.records && pool.records[k] == update && update.data.Some?
      modifies update`refs, update`locked
      ensures fresh(iter) && iter.Valid() && iter.worked == [] && iter.pool == pool && s == Abs()
      ensures iter.Due() == map[k := update.data.value] && Keyed()
      ensures forall j :: j in pool.records ==>
                (pool.records[j].locked <==> j == k) && pool.records[j].refs == if j == k then 2 else 1
    {
      update.refs := update.refs + 1;
      update.locked := true;
      iter := new UpdateIterator.KeyGuard(pool, k, update);
      assert iter.Due() == map[k := s.pool[k].value];
      assert pool.Contents() == s.pool;
    }

    // A record that is pooled but not cached must be flushed before its value can be read.
    method MaybeFlushOne(k: Key, ghost s: State) returns (reply: Reply, ghost io: Io)
      requires Valid() && Keyed() && s == Abs()
      modifies pool, pool.States(), table`rows
      ensures Valid() && Keyed() && pool.States() <= old(pool.States())
      ensures Outcome(Abs(), reply) == CacheModel.MaybeFlushOne(s, k, io)
      ensures io.canRead == table.readable && (1 < table.outage ==> io.canWrite)
    {
      if k in entries {
        return Done, Io(true, table.readable);
      }
      reply, io := FlushOne(k, s);
    }

    // ---- Changes of one pending record.

    // The cache while a controller answer for `k` is awaited: its record has two handles, which keeps it from being
    // purified, and everything else is as in `s`.
    ghost predicate Holding(k: Key, state: UpdateState, s: State)
      reads this, pool, pool.records.Values, table
    {
      && pool.Valid() && Shared(Some(state)) && k in pool.records && pool.records[k] == state
      && entries == s.entries && table.rows == s.db && pool.records.Keys == s.pool.Keys + {k}
      && (forall j :: j in s.pool && j != k ==> pool.records[j].data == s.pool[j])
      && (forall j :: j in s.pool && s.pool[j].Some? ==> WellKeyed(j, s.pool[j].value, width))
    }

    // The handle to the record of `k`, which is created when the pool has none.
    method FetchState(k: Key, ghost s: State) returns (state: UpdateState)
      requires Valid() && Keyed() && s == Abs()
      modifies pool, pool.States()`refs
      ensures Holding(k, state, s) && state.data == Pending(s, k)
      ensures state in old(pool.States()) || fresh(state)
      ensures pool.States() <= old(pool.States()) + {state}
    {
      if k !in pool.records {
        state := new UpdateState();
        pool.records := pool.records[k := state];
      } else {
        state := pool.records[k];
      }
      state.refs := state.refs + 1;
    }

    // Once the controller has answered, the record is put into the pool again, in case it has been purified
    // meanwhile, and the handle goes.
    method Reinsert(k: Key, state: UpdateState, ghost s: State)
      requires Holding(k, state, s) && (state.data.Some? ==> WellKeyed(k, state.data.value, width))
      modifies pool, state`refs
      ensures Valid() && Keyed() && pool.records == old(pool.records)
      ensures Abs() == PutPending(s, k, state.data)
    {
      pool.records := pool.records[k := state];
      assert pool.records == old(pool.records);
      state.refs := state.refs - 1;
      assert pool.Contents() == s.pool[k := state.data];
    }

    method OnNew(k: Key, value: Row, ghost s: State) returns (op: DC.DataControllerOp)
      requires Valid() && Keyed() && s == Abs() && Fits(k, value, width)
      modifies pool, pool.States()
      ensures Valid() && Keyed() && fresh(pool.States() - old(pool.States()))
      ensures op == DC.OnNew(imm, value).op && Abs() == PutPending(s, k, DC.OnNew(imm, value).update)
    {
      var state := FetchState(k, s);
      op := state.OnNew(imm, value);
      Reinsert(k, state, s);
    }

    // No refusal: the key of the pending record has not been deleted.  A refusal takes the pending record along.
    method OnChange(k: Key, value: Row, prior: Row, ghost s: State) returns (op: Option<DC.DataControllerOp>)
      requires Valid() && Keyed() && s == Abs() && Fits(k, value, width) && Fits(k, prior, width)
      modifies pool, pool.States()
      ensures Valid() && Keyed() && fresh(pool.States() - old(pool.States()))
      ensures match DC.OnChange(imm, value, prior, Pending(s, k))
              case ModifiedDeletedKey => op.None? && Abs() == PutPending(s, k, None)
              case Answered(r) => op == Some(r.op) && Abs() == PutPending(s, k, r.update)
    {
      var state := FetchState(k, s);
      ChangeKeyed(imm, k, value, prior, state.data, width);
      op := state.OnChange(imm, value, prior);
      Reinsert(k, state, s);
    }

    method OnAccess(k: Key, ghost s: State)
      requires Valid() && Keyed() && s == Abs()
      modifies pool, pool.States()
      ensures Valid() && Keyed() && fresh(pool.States() - old(pool.States()))
      ensures Abs() == AccessStep(s, k)
    {
      var state := FetchState(k, s);
      var _ := state.OnAccess();
      Reinsert(k, state, s);
    }

    method AskDelete(k: Key, ghost s: State) returns (op: DC.DataControllerOp)
      requires Valid() && Keyed() && s == Abs()
      modifies pool, pool.States()
      ensures Valid() && Keyed() && fresh(pool.States() - old(pool.States()))
      ensures op == DC.OnDelete(imm, Pending(s, k)).op && Abs() == PutPending(s, k, Some(CacheUpdate.Delete))
    {
      var state := FetchState(k, s);
      op := state.OnDelete(imm);
      Reinsert(k, state, s);
    }

    // A `Drop` answer takes the record out of the pool.
    method OnDelete(k: Key, ghost s: State)
      requires Valid() && Keyed() && s == Abs()
      modifies pool, pool.States()
      ensures Valid() && Keyed() && fresh(pool.States() - old(pool.States()))
      ensures var r := DC.OnDelete(imm, Pending(s, k));
              Abs() == s.(pool := if r.op == DC.Drop then s.pool - {k} else s.pool[k := r.update])
    {
      var op := AskDelete(k, s);
      DropRecord(k, op, PutPending(s, k, Some(CacheUpdate.Delete)));
      assert s.pool[k := Some(CacheUpdate.Delete)] - {k} == s.pool - {k};
    }

    method DropRecord(k: Key, op: DC.DataControllerOp, ghost s: State)
      requires Valid() && Keyed() && s == Abs()
      modifies pool
      ensures Valid() && Keyed() && pool.States() <= old(pool.States())
      ensures Abs() == if op == DC.Drop then s.(pool := s.pool - {k}) else s
    {
      if op == DC.Drop {
        pool.records := pool.records - {k};
        assert pool.Contents() == s.pool - {k};
      }
    }

    // ---- The public operations.

    // The compute closure, and the inner cache's reaction to its answer.
    method ComputeOn(k: Key, cur: Option<Row>, f: Callback, ghost s: State) returns (reply: Reply)
      requires Valid() && Keyed() && s == Abs() && Proper(Op.Compute(k, f), width)
      requires cur.Some? ==> Fits(k, cur.value, width)
      modifies pool, pool.States(), this`entries
      ensures Valid() && Keyed() && fresh(pool.States() - old(pool.States()))
      ensures Outcome(Abs(), reply) == CacheModel.ComputeOn(imm, s, k, cur, f)
    {
      assert KeepsShape(f, k, cur, width);
      match f(cur)
      case Fail => return Failed;
      case Nop => reply := Keep(k, cur);
      case Remove => reply := Remove(k, s);
      case Put(v) => reply := Put(k, v, cur, s);
    }

    method Keep(k: Key, cur: Option<Row>) returns (reply: Reply)
      modifies this`entries
      ensures entries == if k !in old(entries) && cur.Some? then old(entries)[k := cur.value] else old(entries)
      ensures reply == Computed(if k in old(entries) then CompResult.Unchanged(old(entries)[k])
                                else if cur.Some? then Inserted(cur.value) else StillNone)
    {
      var cached := Lookup(entries, k);
      if cached.None? && cur.Some? {
        entries := entries[k := cur.value];
        return Computed(Inserted(cur.value));
      }
      return Computed(if cached.Some? then CompResult.Unchanged(cached.value) else StillNone);
    }

    method Remove(k: Key, ghost s: State) returns (reply: Reply)
      requires Valid() && Keyed() && s == Abs()
      modifies pool, pool.States(), this`entries
      ensures Valid() && Keyed() && fresh(pool.States() - old(pool.States()))
      ensures Outcome(Abs(), reply) == RemoveStep(imm, s, k)
    {
      OnDelete(k, s);
      var cached := Lookup(entries, k);
      entries := entries - {k};
      return Computed(if cached.Some? then Removed(cached.value) else StillNone);
    }

    method Put(k: Key, v: Row, cur: Option<Row>, ghost s: State) returns (reply: Reply)
      requires Valid() && Keyed() && s == Abs() && Fits(k, v, width)
      requires cur.Some? ==> Fits(k, cur.value, width)
      modifies pool, pool.States(), this`entries
      ensures Valid() && Keyed() && fresh(pool.States() - old(pool.States()))
      ensures Outcome(Abs(), reply) == if cur.Some? then ChangeStep(imm, s, k, v, cur.value) else NewStep(imm, s, k, v)
    {
      if cur.None? {
        var op := OnNew(k, v, s);
        reply := Settle(k, v, op);
      } else {
        var op := OnChange(k, v, cur.value, s);
        if op.None? {
          return Failed;
        }
        reply := Settle(k, v, op.value);
      }
    }

    // What the inner cache makes of the controller's answer to a new value.
    method Settle(k: Key, v: Row, op: DC.DataControllerOp) returns (reply: Reply)
      requires op != DC.Drop && op != DC.Revoke
      modifies this`entries
      ensures entries == if op == DC.Put then old(entries)[k := v] else old(entries)
      ensures reply == Computed(if op == DC.Put then (if k in old(entries) then ReplacedWith(v) else Inserted(v))
                                else if k in old(entries) then CompResult.Unchanged(old(entries)[k]) else StillNone)
    {
      var cached := Lookup(entries, k);
      if op == DC.Put {
        entries := entries[k := v];
        return Computed(if cached.Some? then ReplacedWith(v) else Inserted(v));
      }
      return Computed(if cached.Some? then CompResult.Unchanged(cached.value) else StillNone);
    }

    // `get_and_try_compute_with_primary`
    method Compute(k: Key, f: Callback, ghost s: State) returns (reply: Reply, ghost io: Io)
      requires Valid() && Keyed() && s == Abs() && WellTyped(s, width) && Proper(Op.Compute(k, f), width)
      modifies pool, pool.States(), table`rows, this`entries
      ensures Valid() && Keyed() && fresh(pool.States() - old(pool.States()))
      ensures Outcome(Abs(), reply) == ComputeStep(imm, s, k, f, io)
      ensures io.canRead == table.readable && (1 < table.outage ==> io.canWrite)
    {
      reply, io := MaybeFlushOne(k, s);
      if reply == Failed || (k !in entries && !table.readable) {
        return Failed, io;
      }
      FlushTyped(s, {k}, true, io, width);
      var cur := if k in entries then Some(entries[k]) else Lookup(table.rows, k);
      reply := ComputeOn(k, cur, f, Abs());
    }

    method Get(k: Key, ghost s: State) returns (reply: Reply, ghost io: Io)
      requires Valid() && Keyed() && s == Abs() && WellTyped(s, width)
      modifies pool, pool.States(), table`rows, this`entries
      ensures Valid() && Keyed() && fresh(pool.States() - old(pool.States()))
      ensures Outcome(Abs(), reply) == GetStep(imm, s, k, io)
      ensures io.canRead == table.readable && (1 < table.outage ==> io.canWrite)
    {
      reply, io := Compute(k, KeepIt, s);
      match reply
      case Computed(Inserted(v)) =>
        OnAccess(k, Abs());
        return Found(Some(v)), io;
      case Computed(Unchanged(v)) =>
        OnAccess(k, Abs());
        return Found(Some(v)), io;
      case Computed(ReplacedWith(v)) =>
        OnAccess(k, Abs());
        return Found(Some(v)), io;
      case Computed(_) => return Found(None), io;
      case _ =>
    }

    method Delete(k: Key, ghost s: State) returns (reply: Reply, ghost io: Io)
      requires Valid() && Keyed() && s == Abs() && WellTyped(s, width)
      modifies pool, pool.States(), table`rows, this`entries
      ensures Valid() && Keyed() && fresh(pool.States() - old(pool.States()))
      ensures Outcome(Abs(), reply) == DeleteStep(imm, s, k, io)
      ensures io.canRead == table.readable && (1 < table.outage ==> io.canWrite)
    {
      reply, io := Compute(k, RemoveIfAny, s);
      match reply
      case Computed(Removed(v)) => return Found(Some(v)), io;
      case Computed(StillNone) => return Found(None), io;
      case Computed(_) => return Panicked, io;
      case _ =>
    }

    method Insert(v: Row, ghost s: State) returns (reply: Reply)
      requires Valid() && Keyed() && s == Abs() && Fits(KeyOf(v), v, width)
      modifies pool, pool.States(), this`entries
      ensures Valid() && Keyed() && fresh(pool.States() - old(pool.States()))
      ensures Outcome(Abs(), reply) == InsertStep(imm, s, v)
    {
      reply := Put(KeyOf(v), v, None, s);
      match reply
      case Computed(StillNone) => return Found(None);
      case Computed(Removed(_)) => return Panicked;
      case Computed(c) => return Found(Some(c.row));
      case _ =>
    }

    // `get_or_try_insert_with_primary`
    method GetOrInsert(k: Key, init: Option<Row>, ghost s: State) returns (reply: Reply, ghost io: Io)
      requires Valid() && Keyed() && s == Abs() && (init.Some? ==> Fits(k, init.value, width))
      modifies pool, pool.States(), table`rows, this`entries
      ensures Valid() && Keyed() && fresh(pool.States() - old(pool.States()))
      ensures Outcome(Abs(), reply) == GetOrInsertStep(imm, s, k, init, io)
      ensures io.canRead == table.readable && (1 < table.outage ==> io.canWrite)
    {
      reply, io := MaybeFlushOne(k, s);
      if reply != Failed {
        reply := ReadOrInit(k, init, Abs());
      }
    }

    method ReadOrInit(k: Key, init: Option<Row>, ghost s: State) returns (reply: Reply)
      requires Valid() && Keyed() && s == Abs() && (init.Some? ==> Fits(k, init.value, width))
      modifies pool, pool.States(), this`entries
      ensures Valid() && Keyed() && fresh(pool.States() - old(pool.States()))
      ensures Outcome(Abs(), reply) ==
              if k in s.entries then Outcome(s, Found(Some(s.entries[k])))
              else if !table.readable then Outcome(s, Failed)
              else if k in s.db then Outcome(s.(entries := s.entries[k := s.db[k]]), Found(Some(s.db[k])))
              else if init.None? then Outcome(s, Failed)
              else Outcome(PutPending(s, k, DC.OnNew(imm, init.value).update)
                             .(entries := s.entries[k := init.value]), Found(init))
    {
      if k in entries {
        return Found(Some(entries[k]));
      }
      if !table.readable {
        return Failed;
      }
      if k in table.rows {
        entries := entries[k := table.rows[k]];
        return Found(Some(table.rows[k]));
      }
      if init.None? {
        return Failed;
      }
      var _ := OnNew(k, init.value, s);
      entries := entries[k := init.value];
      return Found(init);
    }

    // `invalidate`, and the effect of an eviction.
    method Invalidate(k: Key, ghost s: State)
      requires Valid() && Keyed() && s == Abs()
      modifies this`entries
      ensures Valid() && Keyed() && Abs() == Uncache(s, k).state
    {
      entries := entries - {k};
    }

    // Any public operation of a cache over an immutable table: the objects move exactly as the value model does, so
    // the cache goes on refining the plain map, and what the caller is told about that map is true.
    method Perform(op: Op, ghost s: State, ghost m: Rows) returns (reply: Reply, ghost io: Io)
      requires imm && Valid() && Keyed() && s == Abs() && Refines(s, m, width) && Proper(op, width) && Fresh(s, op)
      modifies pool, pool.States(), table`rows, this`entries
      ensures Valid() && Keyed() && fresh(pool.States() - old(pool.States()))
      ensures Outcome(Abs(), reply) == Step(true, s, op, io)
      ensures Refines(Abs(), if reply == Failed then m else PlainStep(m, op), width)
      ensures reply == Failed <==> Refused(s, op, io, m)
      ensures reply != Failed ==> Honest(true, op, reply, s, Abs(), m, PlainStep(m, op))
    {
      RefinesTyped(s, m, width);
      reply, io := Dispatch(op, s);
      StepRefines(s, op, io, m, width);
    }

    method Dispatch(op: Op, ghost s: State) returns (reply: Reply, ghost io: Io)
      requires imm && Valid() && Keyed() && s == Abs() && WellTyped(s, width) && Proper(op, width)
      modifies pool, pool.States(), table`rows, this`entries
      ensures Valid() && Keyed() && fresh(pool.States() - old(pool.States()))
      ensures Outcome(Abs(), reply) == Step(true, s, op, io)
    {
      reply, io := Done, Io(true, true);
      match op
      case Insert(v) => reply := Insert(v, s);
      case Get(k) => reply, io := Get(k, s);
      case Compute(k, f) => reply, io := Compute(k, f, s);
      case GetOrInsert(k, init) => reply, io := GetOrInsert(k, init, s);
      case Delete(k) => reply, io := Delete(k, s);
      case Invalidate(k) => Invalidate(k, s);
      case Evict(k) => Invalidate(k, s);
      case Flush => reply, io := FlushRaw(0, s);
      case FlushMany(keys) =>
        assert SetOf(keys) == set k | k in keys;
        reply, io := FlushManyRaw(keys, 0, s);
      case FlushOne(k) => reply, io := FlushOne(k, s);
    }
  }

  // Columns and keys are in order everywhere: guaranteed by the types and the column order of the original.
  ghost predicate WellTyped(s: State, width: nat) {
    && (forall k :: k in s.entries ==> Fits(k, s.entries[k], width))
    && (forall k :: k in s.db ==> Fits(k, s.db[k], width))
    && (forall k :: k in s.pool && s.pool[k].Some? ==> WellKeyed(k, s.pool[k].value, width))
  }

  lemma RefinesTyped(s: State, m: Rows, width: nat)
    requires Refines(s, m, width)
    ensures WellTyped(s, width)
  {
    forall k ensures (k in s.entries ==> Fits(k, s.entries[k], width)) && (k in s.db ==> Fits(k, s.db[k], width)) {
      assert DC.Pends(k, Pending(s, k), Lookup(s.db, k), Lookup(m, k), width);
    }
    forall k | k in s.pool && s.pool[k].Some? ensures WellKeyed(k, s.pool[k].value, width) {
      assert DC.Pends(k, Pending(s, k), Lookup(s.db, k), Lookup(m, k), width);
    }
  }

  lemma FlushTyped(s: State, keys: set<Key>, single: bool, io: Io, width: nat)
    requires WellTyped(s, width)
    ensures WellTyped(FlushKeys(s, keys, single, io).state, width)
  {
    var due := DueAmong(s, keys);
    forall k | k in Written(s.db, due) ensures Fits(k, Written(s.db, due)[k], width) {
      WrittenRow(s.db, due, k);
    }
  }

  lemma ChangeKeyed(imm: bool, k: Key, value: Row, prior: Row, pending: Option<CacheUpdate>, width: nat)
    requires Fits(k, value, width) && Fits(k, prior, width)
    requires pending.Some? ==> WellKeyed(k, pending.value, width)
    ensures DC.SameColumns(value, prior, pending)
    ensures var a := DC.OnChange(imm, value, prior, pending);
            && (a.Answered? ==> a.response.op != DC.Drop && a.response.op != DC.Revoke)
            && (a.Answered? && a.response.update.Some? ==> WellKeyed(k, a.response.update.value, width))
  {
  }
}
