/** What becomes of the cache when callers insert keys the backend has already: a flush is refused exactly as long as a
    pending Insert meets a row. */
module Clashes {
  import opened Records
  import opened Backend
  import opened CacheModel
  import opened Refinement
  import DC = DataController

  // A pending Insert over a row that is there: the backend refuses any batch with it.
  predicate Clash(s: State, k: Key) {
    Pending(s, k).Some? && Pending(s, k).value.Insert? && k in s.db
  }

  // The row a pending record is written over, if one pretends that an Insert finds none.
  function Under(s: State, k: Key): Option<Row> {
    if Clash(s, k) then None else Lookup(s.db, k)
  }

  // All is in order for this key, but for a clash; the cached record is the visible one.
  ghost predicate TameAt(s: State, k: Key, width: nat) {
    && (k in s.db ==> Fits(k, s.db[k], width))
    && DC.Pends(k, Pending(s, k), Under(s, k), View(s, k), width)
    && (k in s.entries ==> View(s, k) == Some(s.entries[k]))
  }

  ghost predicate Tame(s: State, width: nat) {
    forall k :: TameAt(s, k, width)
  }

  // The key is as it was before.
  predicate KeptAt(s: State, t: State, k: Key) {
    Pending(t, k) == Pending(s, k) && Lookup(t.db, k) == Lookup(s.db, k)
    && (k in t.entries ==> k in s.entries && t.entries[k] == s.entries[k])
  }

  lemma TameStays(s: State, t: State, k: Key, width: nat)
    requires TameAt(s, k, width) && KeptAt(s, t, k)
    ensures TameAt(t, k, width) && (Clash(t, k) <==> Clash(s, k))
  {
    assert k in s.db <==> Lookup(s.db, k).Some?;
    assert k in t.db <==> Lookup(t.db, k).Some?;
  }

  // A batch is refused exactly when it holds a clash.
  lemma FlushTame(s: State, keys: set<Key>, single: bool, io: Io, width: nat, k: Key)
    requires Tame(s, width)
    ensures AllAccepted(s.db, DueAmong(s, keys)) <==> forall j :: j in keys ==> !Clash(s, j)
    ensures var t := FlushKeys(s, keys, single, io).state;
            && TameAt(t, k, width) && t.entries == s.entries
            && (Clash(t, k) <==> Clash(s, k))
            && (FlushKeys(s, keys, single, io).reply != Failed && k in keys ==> Pending(t, k).None?)
  {
    var due := DueAmong(s, keys);
    forall j ensures j in due ==> (Accepts(due[j], Lookup(s.db, j)) <==> !Clash(s, j)) {
      assert TameAt(s, j, width);
    }
    assert TameAt(s, k, width);
    WrittenRow(s.db, due, k);
  }

  // ---- One operation.

  // The key an operation may leave with a clash it did not have: that of an insert over a row.
  predicate Clashes(s: State, op: Op, k: Key) {
    op.Insert? && KeyOf(op.value) == k && k in s.db
  }

  lemma MaybeFlushTame(s: State, k: Key, io: Io, width: nat, j: Key)
    requires Tame(s, width)
    ensures var r := MaybeFlushOne(s, k, io);
            && TameAt(r.state, j, width) && r.state.entries == s.entries && (Clash(r.state, j) <==> Clash(s, j))
            && (r.reply != Failed && k !in s.entries ==>
                  Pending(r.state, k).None? && View(r.state, k) == Lookup(r.state.db, k))
  {
    FlushTame(s, {k}, true, io, width, j);
    FlushTame(s, {k}, true, io, width, k);
  }

  lemma NewTame(s: State, k: Key, v: Row, width: nat)
    requires TameAt(s, k, width) && Fits(k, v, width)
    ensures var t := NewStep(true, s, k, v).state; TameAt(t, k, width) && (Clash(t, k) <==> k in s.db)
  {
    DC.NewPends(true, k, v, None, width);
    assert Pending(NewStep(true, s, k, v).state, k) == DC.OnNew(true, v).update;
  }

  lemma ChangeTame(s: State, k: Key, v: Row, width: nat)
    requires TameAt(s, k, width) && Fits(k, v, width) && View(s, k).Some?
    ensures var t := ChangeStep(true, s, k, v, View(s, k).value).state;
            TameAt(t, k, width) && (Clash(t, k) <==> Clash(s, k))
  {
    var prior := View(s, k).value;
    DC.ChangePends(true, k, v, prior, Pending(s, k), Under(s, k), width);
    var t := ChangeStep(true, s, k, v, prior).state;
    assert Pending(t, k) == DC.OnChange(true, v, prior, Pending(s, k)).response.update;
  }

  // Deleting takes a clash along: what was never written is dropped, and the row is seen again.
  lemma RemoveTame(s: State, k: Key, width: nat)
    requires TameAt(s, k, width)
    ensures var t := RemoveStep(true, s, k).state;
            && TameAt(t, k, width) && !Clash(t, k)
            && (Clash(s, k) ==> View(t, k) == Some(s.db[k]) && Pending(t, k).None?)
  {
    DC.DeletePends(true, k, Pending(s, k), Under(s, k), View(s, k), width);
  }

  // The closure runs on the visible record.
  lemma ComputeOnTame(s: State, k: Key, f: Callback, width: nat)
    requires TameAt(s, k, width) && KeepsShape(f, k, View(s, k), width)
    requires k !in s.entries ==> Pending(s, k).None?
    ensures var t := ComputeOn(true, s, k, View(s, k), f).state;
            TameAt(t, k, width) && (Clash(t, k) <==> Clash(s, k) && !f(View(s, k)).Remove?)
  {
    match f(View(s, k))
    case Put(v) =>
      if View(s, k).Some? {
        DC.SeenFits(k, Pending(s, k), Under(s, k), View(s, k).value, width);
        ChangeTame(s, k, v, width);
      } else {
        NewTame(s, k, v, width);
      }
    case Remove => RemoveTame(s, k, width);
    case Nop =>
    case Fail =>
  }

  lemma OthersSame(s: State, k: Key, cur: Option<Row>, f: Callback, j: Key)
    requires j != k
    ensures KeptAt(s, ComputeOn(true, s, k, cur, f).state, j)
  {
  }

  lemma ComputeReady(s: State, k: Key, f: Callback, io: Io, width: nat)
    requires Tame(s, width)
    ensures var flushed := MaybeFlushOne(s, k, io);
            ComputeStep(true, s, k, f, io).state ==
            if flushed.reply == Failed || (k !in s.entries && !io.canRead) then flushed.state
            else ComputeOn(true, flushed.state, k, View(flushed.state, k), f).state
  {
    MaybeFlushTame(s, k, io, width, k);
  }

  // A compute leaves no clash that was not there, and only a removal ends one.
  lemma ComputeTame(s: State, k: Key, f: Callback, io: Io, width: nat, j: Key)
    requires Tame(s, width) && Proper(Compute(k, f), width)
    ensures var t := ComputeStep(true, s, k, f, io).state;
            && TameAt(t, j, width) && (Clash(t, j) ==> Clash(s, j))
            && (Clash(s, j) && (j != k || forall cur :: !f(cur).Remove?) ==> Clash(t, j))
  {
    ComputeReady(s, k, f, io, width);
    MaybeFlushTame(s, k, io, width, j);
    MaybeFlushTame(s, k, io, width, k);
    var s1 := MaybeFlushOne(s, k, io).state;
    assert KeepsShape(f, k, View(s1, k), width);
    if MaybeFlushOne(s, k, io).reply != Failed {
      if j == k {
        ComputeOnTame(s1, k, f, width);
      } else {
        OthersSame(s1, k, View(s1, k), f, j);
        TameStays(s1, ComputeOn(true, s1, k, View(s1, k), f).state, j, width);
      }
    }
  }

  lemma GetOrInsertTame(s: State, k: Key, init: Option<Row>, io: Io, width: nat, j: Key)
    requires Tame(s, width) && (init.Some? ==> Fits(k, init.value, width))
    ensures var t := GetOrInsertStep(true, s, k, init, io).state; TameAt(t, j, width) && (Clash(t, j) <==> Clash(s, j))
  {
    MaybeFlushTame(s, k, io, width, j);
    MaybeFlushTame(s, k, io, width, k);
    var s1, t := MaybeFlushOne(s, k, io).state, GetOrInsertStep(true, s, k, init, io).state;
    if j != k {
      TameStays(s1, t, j, width);
    } else if init.Some? {
      DC.NewPends(true, k, init.value, None, width);
    }
  }

  // Does the operation, on whatever record it finds, never remove it?
  ghost predicate Spares(op: Op, k: Key) {
    (op.Delete? ==> op.key != k) && (op.Compute? && op.key == k ==> forall cur :: !op.f(cur).Remove?)
  }

  // One operation under any backend failures: all stays in order; only an insert over a row starts a clash, and only
  // a removal of the record ends one.
  lemma StepTame(s: State, op: Op, io: Io, width: nat, j: Key)
    requires Tame(s, width) && Proper(op, width)
    ensures var t := Step(true, s, op, io).state;
            && TameAt(t, j, width)
            && (Clash(t, j) ==> Clash(s, j) || Clashes(s, op, j))
            && (Clash(s, j) && Spares(op, j) ==> Clash(t, j))
  {
    match op
    case Insert(v) => InsertTame(s, v, width, j);
    case Get(k) => GetTame(s, k, io, width, j);
    case Compute(k, f) => ComputeTame(s, k, f, io, width, j);
    case GetOrInsert(k, init) => GetOrInsertTame(s, k, init, io, width, j);
    case Delete(k) => ComputeTame(s, k, RemoveIfAny, io, width, j);
    case Flush => FlushTame(s, s.pool.Keys, false, io, width, j);
    case FlushMany(keys) => FlushTame(s, set k | k in keys, false, io, width, j);
    case FlushOne(k) => FlushTame(s, {k}, true, io, width, j);
    case _ => TameStays(s, Step(true, s, op, io).state, j, width);
  }

  lemma InsertTame(s: State, v: Row, width: nat, j: Key)
    requires Tame(s, width) && Fits(KeyOf(v), v, width)
    ensures var t := InsertStep(true, s, v).state;
            TameAt(t, j, width) && (Clash(t, j) <==> if j == KeyOf(v) then j in s.db else Clash(s, j))
  {
    if j == KeyOf(v) {
      NewTame(s, j, v, width);
    } else {
      TameStays(s, InsertStep(true, s, v).state, j, width);
    }
  }

  lemma GetTame(s: State, k: Key, io: Io, width: nat, j: Key)
    requires Tame(s, width)
    ensures var t := GetStep(true, s, k, io).state; TameAt(t, j, width) && (Clash(t, j) <==> Clash(s, j))
  {
    ComputeTame(s, k, KeepIt, io, width, j);
    TameStays(ComputeStep(true, s, k, KeepIt, io).state, GetStep(true, s, k, io).state, j, width);
  }

  // ---- Whole runs.

  ghost predicate AllProper(run: Run, width: nat) {
    forall i :: 0 <= i < |run| ==> Proper(run[i].0, width)
  }

  lemma {:induction false} RunTame(s: State, run: Run, width: nat)
    requires Tame(s, width) && AllProper(run, width)
    ensures Tame(StateAfter(s, run), width)
    decreases |run|
  {
    if run != [] {
      var t := Step(true, s, run[0].0, run[0].1).state;
      forall j ensures TameAt(t, j, width) {
        StepTame(s, run[0].0, run[0].1, width, j);
      }
      RunTame(t, run[1..], width);
    }
  }

  lemma OpenedTame(db: Rows, width: nat)
    requires forall k :: k in db ==> Fits(k, db[k], width)
    ensures Tame(Opened(db), width)
  {
  }

  // After any run, with inserts of whatever keys: a healthy backend refuses a full flush exactly when some pending
  // Insert meets a row.
  lemma {:induction false} FlushRefusedExact(db: Rows, run: Run, width: nat)
    requires (forall k :: k in db ==> Fits(k, db[k], width)) && AllProper(run, width)
    ensures var s := StateAfter(Opened(db), run);
            Step(true, s, Flush, Io(true, true)).reply == Failed <==> exists k :: Clash(s, k)
  {
    OpenedTame(db, width);
    RunTame(Opened(db), run, width);
    RefusedByClash(StateAfter(Opened(db), run), width);
  }

  lemma RefusedByClash(s: State, width: nat)
    requires Tame(s, width)
    ensures Step(true, s, Flush, Io(true, true)).reply == Failed <==> exists k :: Clash(s, k)
  {
    FlushTame(s, s.pool.Keys, false, Io(true, true), width, Null);
    assert forall k :: Clash(s, k) ==> k in s.pool.Keys;
  }

  // Inserts of other keys than `k` are of keys the backend does not have.
  ghost predicate FreshBut(s: State, run: Run, k: Key)
    decreases |run|
  {
    run == [] ||
    ((run[0].0.Insert? && KeyOf(run[0].0.value) != k ==> Fresh(s, run[0].0)) &&
     FreshBut(Step(true, s, run[0].0, run[0].1).state, run[1..], k))
  }

  lemma {:induction false} OnlyClash(s: State, run: Run, k: Key, width: nat)
    requires Tame(s, width) && AllProper(run, width) && FreshBut(s, run, k) && forall j :: Clash(s, j) ==> j == k
    ensures forall j :: Clash(StateAfter(s, run), j) ==> j == k
    decreases |run|
  {
    if run != [] {
      var t := Step(true, s, run[0].0, run[0].1).state;
      forall j ensures TameAt(t, j, width) && (Clash(t, j) ==> j == k) {
        StepTame(s, run[0].0, run[0].1, width, j);
      }
      OnlyClash(t, run[1..], k, width);
    }
  }

  lemma {:induction false} ClashLasts(s: State, run: Run, k: Key, width: nat)
    requires Tame(s, width) && AllProper(run, width) && Clash(s, k)
    requires forall i :: 0 <= i < |run| ==> Spares(run[i].0, k)
    ensures Clash(StateAfter(s, run), k)
    decreases |run|
  {
    if run != [] {
      var t := Step(true, s, run[0].0, run[0].1).state;
      forall j ensures TameAt(t, j, width) {
        StepTame(s, run[0].0, run[0].1, width, j);
      }
      StepTame(s, run[0].0, run[0].1, width, k);
      ClashLasts(t, run[1..], k, width);
    }
  }

  // A stored key that is deleted and inserted again before a flush.
  function Reinserted(k: Key, r: Row, v: Row): State {
    var s := Step(true, Opened(map[k := r]), Op.Delete(k), Io(true, true)).state;
    Step(true, s, Op.Insert(v), Io(true, true)).state
  }

  lemma ReinsertedClashes(k: Key, r: Row, v: Row, width: nat)
    requires Fits(k, r, width) && Fits(k, v, width)
    ensures Tame(Reinserted(k, r, v), width) && forall j :: Clash(Reinserted(k, r, v), j) <==> j == k
    ensures Reinserted(k, r, v).db == map[k := r] && k in Reinserted(k, r, v).entries
  {
    var s0 := Opened(map[k := r]);
    OpenedTame(map[k := r], width);
    var s1 := Step(true, s0, Op.Delete(k), Io(true, true)).state;
    forall j ensures TameAt(s1, j, width) {
      StepTame(s0, Op.Delete(k), Io(true, true), width, j);
    }
    forall j ensures TameAt(Reinserted(k, r, v), j, width) && (Clash(Reinserted(k, r, v), j) <==> j == k) {
      StepTame(s0, Op.Delete(k), Io(true, true), width, j);
      InsertTame(s1, v, width, j);
    }
  }

  // Whatever is done next, a flush is refused exactly as long as the pool has an Insert for the key and the row is
  // there; and it is as long as nothing removes the record.
  lemma {:induction false} ReinsertBlocksFlush(k: Key, r: Row, v: Row, more: Run, width: nat)
    requires Fits(k, r, width) && Fits(k, v, width)
    requires AllProper(more, width) && FreshBut(Reinserted(k, r, v), more, k)
    ensures var s := StateAfter(Reinserted(k, r, v), more);
            && (Step(true, s, Flush, Io(true, true)).reply == Failed <==> Clash(s, k))
            && ((forall i :: 0 <= i < |more| ==> Spares(more[i].0, k)) ==> Clash(s, k))
  {
    ReinsertedClashes(k, r, v, width);
    RunTame(Reinserted(k, r, v), more, width);
    OnlyClash(Reinserted(k, r, v), more, k, width);
    RefusedByClash(StateAfter(Reinserted(k, r, v), more), width);
    if forall i :: 0 <= i < |more| ==> Spares(more[i].0, k) {
      ClashLasts(Reinserted(k, r, v), more, k, width);
    }
  }

  // Deleting the record a second time is answered with `Drop`: the flush is possible again, and the old row is back.
  lemma {:induction false} DeleteUnblocks(k: Key, r: Row, v: Row, width: nat)
    requires Fits(k, r, width) && Fits(k, v, width)
    ensures var s := Step(true, Reinserted(k, r, v), Op.Delete(k), Io(true, true)).state;
            && Step(true, s, Flush, Io(true, true)).reply == Done
            && View(s, k) == Some(r) && Step(true, s, Flush, Io(true, true)).state.db == map[k := r]
  {
    var s0 := Reinserted(k, r, v);
    ReinsertedClashes(k, r, v, width);
    var s := Step(true, s0, Op.Delete(k), Io(true, true)).state;
    assert View(s0, k) == Some(s0.entries[k]) by {
      assert TameAt(s0, k, width);
    }
    assert s == RemoveStep(true, s0, k).state;
    RemoveTame(s0, k, width);
    forall j ensures TameAt(s, j, width) && !Clash(s, j) && Pending(s, j).None? {
      StepTame(s0, Op.Delete(k), Io(true, true), width, j);
    }
    RefusedByClash(s, width);
    assert DueAmong(s, s.pool.Keys) == map[];
    assert Written(s.db, map[]) == s.db;
  }
}
