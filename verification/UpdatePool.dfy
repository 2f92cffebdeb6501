/** The pool of pending update records and the iterator that hands them to a write-back. */
module UpdatePool {
  import opened Records
  import opened Backend
  import DC = DataController

  /** A shared, lockable pending record.  `refs` is the number of `Arc` handles to it. */
  class UpdateState {
    var data: Option<CacheUpdate>
    var locked: bool
    var refs: nat

    constructor ()
      ensures data == None && !locked && refs == 1
    {
      data, locked, refs := None, false, 1;
    }

    // The four handlers run under the write lock of the record: they wait until nobody else holds it.

    method OnNew(imm: bool, value: Row) returns (op: DC.DataControllerOp)
      requires !locked
      modifies this`data
      ensures DC.Response(op, data) == DC.OnNew(imm, value)
    {
      var response := DC.OnNew(imm, value);
      data := response.update;
      return response.op;
    }

    // The pending record is taken out before the controller is asked, so a refusal loses it.
    method OnChange(imm: bool, value: Row, prior: Row) returns (op: Option<DC.DataControllerOp>)
      requires !locked && DC.SameColumns(value, prior, data)
      modifies this`data
      ensures match DC.OnChange(imm, value, prior, old(data))
              case ModifiedDeletedKey => op.None? && data.None?
              case Answered(r) => op == Some(r.op) && data == r.update
    {
      var taken := data;
      data := None;
      var answer := DC.WbdcOnChange(imm, value, prior, taken);
      if answer.ModifiedDeletedKey? {
        return None;
      }
      data := answer.response.update;
      return Some(answer.response.op);
    }

    // No controller of the simulation handles accesses; the default puts the taken record back.
    method OnAccess() returns (op: DC.DataControllerOp)
      requires !locked
      modifies this`data
      ensures data == old(data) && op == DC.Nop
    {
      var taken := data;
      data := None;
      data := taken;
      return DC.Nop;
    }

    method OnDelete(imm: bool) returns (op: DC.DataControllerOp)
      requires !locked
      modifies this`data
      ensures DC.Response(op, data) == DC.OnDelete(imm, old(data))
    {
      var response := DC.OnDelete(imm, data);
      data := response.update;
      return response.op;
    }
  }

  // A record whose write lock is held.
  datatype Item = Item(key: Key, state: UpdateState)

  // A key still to be visited, with its lock when that was taken beforehand.
  datatype Slot = Slot(key: Key, guard: Option<UpdateState>)

  function KeysOf(items: seq<Item>): (r: seq<Key>)
    ensures |r| == |items|
  {
    seq(|items|, i requires 0 <= i < |items| => items[i].key)
  }

  class Pool {
    var records: map<Key, UpdateState>

    constructor ()
      ensures records == map[]
    {
      records := map[];
    }

    // No record is pooled under two keys.
    ghost predicate Valid()
      reads this
    {
      forall j, k :: j in records && k in records && j != k ==> records[j] != records[k]
    }

    ghost function States(): set<UpdateState>
      reads this
    {
      records.Values
    }

    // The pool as a value.
    ghost function Contents(): map<Key, Option<CacheUpdate>>
      reads this, records.Values
    {
      map k | k in records :: records[k].data
    }
  }

  ghost predicate Ahead(slots: seq<Slot>, from: nat, k: Key) {
    exists j :: from <= j < |slots| && slots[j].key == k
  }

  lemma AheadStep(slots: seq<Slot>, from: nat, k: Key)
    requires from < |slots|
    ensures Ahead(slots, from, k) <==> slots[from].key == k || Ahead(slots, from + 1, k)
  {
  }

  class UpdateIterator {
    const pool: Pool
    var unprocessed: seq<Slot>
    var nextIdx: nat
    var worked: seq<Item>

    ghost predicate Valid()
      reads this, pool, pool.records.Values
    {
      && pool.Valid()
      && nextIdx <= |unprocessed|
      && (forall i :: 0 <= i < |worked| ==> Holds(worked[i]))
      && DistinctSeq(KeysOf(worked))
      && (Primed() ==> nextIdx == 0 && worked == [] && Holds(Item(unprocessed[0].key, unprocessed[0].guard.value))
                       && unprocessed[0].guard.value.data.Some?)
      && (!Primed() ==> forall j :: 0 <= j < |unprocessed| ==> unprocessed[j].guard.None?)
    }

    // The iterator of a single flush, before its one lock has been handed out.
    ghost predicate Primed()
      reads this`unprocessed
    {
      |unprocessed| == 1 && unprocessed[0].guard.Some?
    }

    // The lock of the record pooled under this key is held by the iterator or its user.
    ghost predicate Holds(item: Item)
      reads pool, pool.records.Values
    {
      item.key in pool.records && pool.records[item.key] == item.state && pool.records[item.key].locked
    }

    // The record of this key is still to be yielded.
    ghost predicate IsDue(k: Key)
      reads this`unprocessed, this`nextIdx, pool, pool.records.Values
    {
      && k in pool.records && pool.records[k].data.Some?
      && Ahead(unprocessed, nextIdx, k) && (Primed() || !pool.records[k].locked)
    }

    // All records still to be yielded.
    ghost function Due(): Batch
      reads this`unprocessed, this`nextIdx, pool, pool.records.Values
    {
      map k | k in pool.records && IsDue(k) :: pool.records[k].data.value
    }

    // A batch flush visits keys without locks.
    constructor Keys(pool: Pool, keys: seq<Key>)
      requires pool.Valid()
      ensures Valid() && this.pool == pool && nextIdx == 0 && worked == []
      ensures !Primed() && forall k :: IsDue(k) <==>
                k in keys && k in pool.records && pool.records[k].data.Some? && !pool.records[k].locked
    {
      this.pool := pool;
      this.unprocessed := seq(|keys|, i requires 0 <= i < |keys| => Slot(keys[i], None));
      this.nextIdx := 0;
      this.worked := [];
      new;
      forall k ensures Ahead(unprocessed, 0, k) <==> k in keys {
        if k in keys {
          var j :| 0 <= j < |keys| && keys[j] == k;
          assert unprocessed[j].key == k;
        }
      }
    }

    // A single flush starts with the lock of its one record.
    constructor KeyGuard(pool: Pool, key: Key, guard: UpdateState)
      requires pool.Valid() && key in pool.records && pool.records[key] == guard
      requires guard.locked && guard.data.Some?
      ensures Valid() && this.pool == pool && nextIdx == 0 && worked == []
      ensures Primed() && unprocessed == [Slot(key, Some(guard))] && forall k :: IsDue(k) <==> k == key
    {
      this.pool := pool;
      this.unprocessed := [Slot(key, Some(guard))];
      this.nextIdx := 0;
      this.worked := [];
    }

    // The immediate lock attempt: nothing is waited for, a locked or missing record is skipped.
    method TryLock(key: Key) returns (state: Option<UpdateState>)
      requires pool.Valid()
      modifies pool.States()`locked
      ensures state.Some? <==> key in pool.records && !old(pool.records[key].locked)
      ensures state.Some? ==> state.value == pool.records[key]
      ensures forall k :: k in pool.records ==>
                (pool.records[k].locked <==> old(pool.records[k].locked) || (state.Some? && k == key))
    {
      if key !in pool.records || pool.records[key].locked {
        return None;
      }
      pool.records[key].locked := true;
      return Some(pool.records[key]);
    }

    // `next`: the lock of the first record ahead that holds data and is not locked by somebody else.
    method Next() returns (item: Option<Item>)
      requires Valid()
      modifies this`unprocessed, this`nextIdx, pool.States()`locked
      ensures Valid() && old(nextIdx) <= nextIdx
      ensures old(unprocessed) == unprocessed || (|unprocessed| == 1 && old(Primed()) && !Primed())
      ensures item.None? ==> nextIdx == |unprocessed| && unprocessed == old(unprocessed) && forall k :: !old(IsDue(k))
      ensures item.Some? ==>
                && old(nextIdx) < nextIdx && !Primed() && Holds(item.value)
                && old(IsDue(item.value.key)) && forall k :: IsDue(k) <==> old(IsDue(k)) && k != item.value.key
      ensures forall k :: k in pool.records ==>
                (pool.records[k].locked <==>
                  old(pool.records[k].locked) || (item.Some? && k == item.value.key))
    {
      while nextIdx < |unprocessed|
        invariant Valid() && old(nextIdx) <= nextIdx && unprocessed == old(unprocessed)
        invariant forall k :: k in pool.records ==> pool.records[k].locked == old(pool.records[k].locked)
        invariant forall k :: IsDue(k) <==> old(IsDue(k))
        decreases |unprocessed| - nextIdx
      {
        if unprocessed[nextIdx].guard.Some? {
          item := TakeGuard();
        } else {
          item := TakeFromPool();
        }
        if item.Some? {
          return;
        }
      }
      return None;
    }

    // The visit of a slot without a lock: the record is looked up in the pool; an empty one is let go again.
    method TakeFromPool() returns (item: Option<Item>)
      requires Valid() && nextIdx < |unprocessed| && unprocessed[nextIdx].guard.None?
      modifies this`nextIdx, pool.States()`locked
      ensures Valid() && !Primed() && nextIdx == old(nextIdx) + 1
      ensures item.None? ==> forall k :: IsDue(k) <==> old(IsDue(k))
      ensures item.Some? ==>
                && Holds(item.value) && old(IsDue(item.value.key))
                && forall k :: IsDue(k) <==> old(IsDue(k)) && k != item.value.key
      ensures forall k :: k in pool.records ==>
                (pool.records[k].locked <==>
                  old(pool.records[k].locked) || (item.Some? && k == item.value.key))
    {
      var key := unprocessed[nextIdx].key;
      forall k ensures Ahead(unprocessed, nextIdx, k) <==> key == k || Ahead(unprocessed, nextIdx + 1, k) {
        AheadStep(unprocessed, nextIdx, k);
      }
      nextIdx := nextIdx + 1;
      var state := TryLock(key);
      if state.None? {
        return None;
      }
      if state.value.data.None? {
        state.value.locked := false;
        return None;
      }
      return Some(Item(key, state.value));
    }

    method TakeGuard() returns (item: Option<Item>)
      requires Valid() && nextIdx < |unprocessed| && unprocessed[nextIdx].guard.Some?
      modifies this`unprocessed, this`nextIdx
      ensures Valid() && nextIdx == 1 == |unprocessed| && !Primed()
      ensures old(Primed()) && item == Some(Item(old(unprocessed[0].key), old(unprocessed[0].guard.value)))
      ensures Holds(item.value) && old(IsDue(item.value.key)) && forall k :: !IsDue(k)
      ensures forall k :: old(IsDue(k)) ==> k == item.value.key
    {
      var Slot(key, guard) := unprocessed[nextIdx];
      unprocessed := [Slot(key, None)];
      nextIdx := nextIdx + 1;
      item := Some(Item(key, guard.value));
    }

    // A yielded item comes back when its user is done with it: a record that still holds data keeps its lock
    // until the iterator is dropped.
    method TakeBack(item: Item)
      requires Valid() && !Primed() && Holds(item) && item.key !in KeysOf(worked)
      modifies this`worked, (if item.state.data.Some? then {} else {item.state})`locked
      ensures Valid()
      ensures worked == if item.state.data.Some? then old(worked) + [item] else old(worked)
      ensures item.state.locked == item.state.data.Some?
      ensures forall k :: IsDue(k) <==> old(IsDue(k))
    {
      if item.state.data.Some? {
        worked := worked + [item];
        assert KeysOf(worked) == KeysOf(old(worked)) + [item.key];
      } else {
        item.state.locked := false;
        forall i | 0 <= i < |worked| ensures Holds(worked[i]) {
          assert KeysOf(worked)[i] == worked[i].key;
        }
      }
    }

    // Confirms every record that was given back.
    method ConfirmAll()
      requires Valid() && !Primed()
      modifies pool.States()`data
      ensures Valid()
      ensures forall k :: k in pool.records ==>
                pool.records[k].data == if k in KeysOf(worked) then None else old(pool.records[k].data)
    {
      for i := 0 to |worked|
        invariant forall k :: k in pool.records ==>
                    pool.records[k].data == if k in KeysOf(worked)[..i] then None else old(pool.records[k].data)
      {
        assert Holds(worked[i]) && KeysOf(worked)[..i + 1] == KeysOf(worked)[..i] + [worked[i].key];
        worked[i].state.data := None;
      }
      assert KeysOf(worked)[..|worked|] == KeysOf(worked);
    }

    // Dropping the records given back releases their locks.
    method ReleaseWorked()
      requires Valid() && !Primed()
      modifies this`worked, pool.States()`locked
      ensures Valid() && worked == []
      ensures forall k :: k in pool.records ==>
                (pool.records[k].locked <==> old(pool.records[k].locked) && k !in KeysOf(old(worked)))
    {
      var items := worked;
      worked := [];
      for i := 0 to |items|
        invariant Valid() && worked == []
        invariant forall k :: k in pool.records ==>
                    (pool.records[k].locked <==> old(pool.records[k].locked) && k !in KeysOf(items)[..i])
      {
        assert old(Holds(worked[i])) && KeysOf(items)[..i + 1] == KeysOf(items)[..i] + [items[i].key];
        items[i].state.locked := false;
      }
      assert KeysOf(items)[..|items|] == KeysOf(items);
    }

    // `reset`: the iterator can be run again over the same keys.
    method Reset()
      requires Valid() && !Primed()
      modifies this`nextIdx, this`worked, pool.States()`locked
      ensures Valid() && nextIdx == 0 && worked == []
      ensures forall k :: k in pool.records ==>
                (pool.records[k].locked <==> old(pool.records[k].locked) && k !in KeysOf(old(worked)))
    {
      nextIdx := 0;
      ReleaseWorked();
    }

    // An observer visits up to `visits` records of a fresh batch, drops each of them unconfirmed, and the cache
    // resets the iterator: nothing has changed.
    method ObserverPass(visits: nat) returns (seen: seq<Key>)
      requires Valid() && !Primed() && nextIdx == 0 && worked == []
      modifies this, pool.States()`locked
      ensures Valid() && nextIdx == 0 && worked == [] && unprocessed == old(unprocessed)
      ensures forall k :: k in pool.records ==> pool.records[k].locked == old(pool.records[k].locked)
      ensures forall k :: IsDue(k) <==> old(IsDue(k))
      ensures DistinctSeq(seen) && forall k :: k in seen ==> old(IsDue(k))
    {
      seen := [];
      var count := 0;
      while count < visits
        invariant Valid() && !Primed() && unprocessed == old(unprocessed) && seen == KeysOf(worked)
        invariant forall k :: k in seen ==> old(IsDue(k))
        invariant forall k :: IsDue(k) <==> old(IsDue(k)) && k !in seen
        invariant forall k :: k in pool.records ==>
                    (pool.records[k].locked <==> old(pool.records[k].locked) || k in seen)
      {
        var item := Next();
        if item.None? {
          break;
        }
        TakeBack(item.value);
        assert KeysOf(worked) == seen + [item.value.key];
        seen := seen + [item.value.key];
        count := count + 1;
      }
      Reset();
    }
  }
}
