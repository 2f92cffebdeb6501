/** The cache refines a plain map: over any run of operations, with background flushes, evictions and failing backend
    calls at any point. */
module Refinement {
  import opened Records
  import opened Backend
  import opened CacheModel
  import DC = DataController

  // A batch drawn from the pool is accepted by the backend and writing it changes no view.
  lemma FlushRefines(s: State, keys: set<Key>, single: bool, io: Io, m: Rows, width: nat)
    requires Refines(s, m, width)
    ensures AllAccepted(s.db, DueAmong(s, keys))
    ensures var r := FlushKeys(s, keys, single, io);
            && Refines(r.state, m, width)
            && (r.reply == Failed <==> !io.canWrite && (single ==> exists k :: k in keys && Pending(s, k).Some?))
            && (r.reply == Failed ==> r.state == s)
            && (r.reply != Failed ==> r.reply == Done && forall k :: k in keys ==> Pending(r.state, k).None?)
  {
    var due := DueAmong(s, keys);
    var r := FlushKeys(s, keys, single, io);
    assert due != map[] <==> exists k :: k in keys && Pending(s, k).Some? by {
      if k :| k in due {
        assert k in keys && Pending(s, k).Some?;
      }
      if k :| k in keys && Pending(s, k).Some? {
        assert k in due;
      }
    }
    forall k ensures DC.Pends(k, Pending(r.state, k), Lookup(r.state.db, k), Lookup(m, k), width) {
      assert DC.Pends(k, Pending(s, k), Lookup(s.db, k), Lookup(m, k), width);
      WrittenRow(s.db, due, k);
      if r.state != s && k in due {
        SeenRowFits(k, Pending(s, k), Lookup(s.db, k), width);
      }
    }
    forall k | k in due ensures Accepts(due[k], Lookup(s.db, k)) {
      assert DC.Pends(k, Pending(s, k), Lookup(s.db, k), Lookup(m, k), width);
    }
  }

  // A flush is about its keys only: nothing else changes, no cached copy does, and of the pool entries only those of
  // records that a batch has written go.
  lemma FlushTouches(s: State, keys: set<Key>, single: bool, io: Io, k: Key)
    ensures var t := FlushKeys(s, keys, single, io).state;
            && t.entries == s.entries
            && (k !in keys ==> Pending(t, k) == Pending(s, k) && Lookup(t.db, k) == Lookup(s.db, k))
            && (k in t.pool <==> k in s.pool && (t == s || single || k !in keys || Pending(s, k).None?))
  {
    WrittenRow(s.db, DueAmong(s, keys), k);
  }

  lemma SeenRowFits(k: Key, pending: Option<CacheUpdate>, cur: Option<Row>, width: nat)
    requires DC.Pends(k, pending, cur, Seen(pending, cur), width)
    ensures Seen(pending, cur).Some? ==> Fits(k, Seen(pending, cur).value, width)
  {
  }

  // The two states and the two maps agree away from `k`.
  ghost predicate SameElsewhere(s: State, t: State, m: Rows, n: Rows, k: Key) {
    && t.db == s.db
    && (forall j :: j != k ==> Pending(t, j) == Pending(s, j) && Lookup(n, j) == Lookup(m, j))
    && (forall j :: j in t.entries && j != k ==> j in s.entries && t.entries[j] == s.entries[j])
  }

  lemma ChangeAt(s: State, t: State, m: Rows, n: Rows, k: Key, width: nat)
    requires Refines(s, m, width) && SameElsewhere(s, t, m, n, k)
    requires DC.Pends(k, Pending(t, k), Lookup(t.db, k), Lookup(n, k), width)
    requires k in t.entries ==> Lookup(n, k) == Some(t.entries[k])
    ensures Refines(t, n, width)
  {
    forall j ensures DC.Pends(j, Pending(t, j), Lookup(t.db, j), Lookup(n, j), width) {
      assert DC.Pends(j, Pending(s, j), Lookup(s.db, j), Lookup(m, j), width);
    }
    forall j | j in t.entries ensures j in n && n[j] == t.entries[j] {
      assert Lookup(n, j) == if j == k then Lookup(n, k) else Lookup(m, j);
    }
  }

  // A new record shows correctly exactly when the backend has no row for its key.
  lemma NewExact(imm: bool, s: State, k: Key, v: Row, m: Rows, width: nat)
    requires Refines(s, m, width) && Fits(k, v, width)
    requires imm || k !in s.entries
    ensures Refines(NewStep(imm, s, k, v).state, m[k := v], width) <==> k !in s.db
  {
    var t := NewStep(imm, s, k, v).state;
    assert DC.Pends(k, Pending(s, k), Lookup(s.db, k), Lookup(m, k), width);
    DC.NewPends(imm, k, v, Lookup(s.db, k), width);
    assert Pending(t, k) == DC.OnNew(imm, v).update && Lookup(m[k := v], k) == Some(v);
    if k !in s.db {
      ChangeAt(s, t, m, m[k := v], k, width);
    } else {
      assert !DC.Pends(k, Pending(t, k), Lookup(t.db, k), Lookup(m[k := v], k), width);
    }
  }

  // A change of an existing record.
  lemma ChangeRefines(imm: bool, s: State, k: Key, v: Row, prior: Row, m: Rows, width: nat)
    requires Refines(s, m, width) && Fits(k, v, width)
    requires Lookup(m, k) == Some(prior)
    requires imm || k !in s.entries || v == prior
    ensures var r := ChangeStep(imm, s, k, v, prior);
            Refines(r.state, m[k := v], width) && r.reply.Computed? && !r.reply.result.Removed?
            && (!r.reply.result.StillNone? ==> r.reply.result.row == v)
  {
    assert DC.Pends(k, Pending(s, k), Lookup(s.db, k), Lookup(m, k), width);
    DC.ChangePends(imm, k, v, prior, Pending(s, k), Lookup(s.db, k), width);
    var t := ChangeStep(imm, s, k, v, prior).state;
    assert k in s.entries ==> s.entries[k] == prior;
    assert Pending(t, k) == DC.OnChange(imm, v, prior, Pending(s, k)).response.update;
    ChangeAt(s, t, m, m[k := v], k, width);
  }

  lemma RemoveRefines(imm: bool, s: State, k: Key, m: Rows, width: nat)
    requires Refines(s, m, width)
    ensures Refines(RemoveStep(imm, s, k).state, m - {k}, width)
  {
    assert DC.Pends(k, Pending(s, k), Lookup(s.db, k), Lookup(m, k), width);
    DC.DeletePends(imm, k, Pending(s, k), Lookup(s.db, k), Lookup(m, k), width);
    ChangeAt(s, RemoveStep(imm, s, k).state, m, m - {k}, k, width);
  }

  // What the compute closure is given: the plain record, with nothing pending unless it came from the cache.
  ghost predicate Current(s: State, k: Key, cur: Option<Row>, m: Rows) {
    && cur == Lookup(m, k)
    && (k in s.entries ==> cur == Some(s.entries[k]))
    && (k !in s.entries ==> cur == Lookup(s.db, k))
  }

  // With a controller that does not cache new values, replacing a cached record is the one thing that goes wrong.
  ghost predicate CacheFollows(imm: bool, s: State, k: Key, cur: Option<Row>, f: Callback) {
    imm || k !in s.entries || !f(cur).Put? || Some(f(cur).value) == cur
  }

  lemma ComputeOnRefines(imm: bool, s: State, k: Key, cur: Option<Row>, f: Callback, m: Rows, width: nat)
    requires Refines(s, m, width) && Current(s, k, cur, m) && Proper(Compute(k, f), width)
    requires CacheFollows(imm, s, k, cur, f)
    ensures var r := ComputeOn(imm, s, k, cur, f);
            && Refines(r.state, PlainCompute(m, k, f), width)
            && (r.reply == Failed <==> f(cur).Fail?)
            && (f(cur).Remove? && k in s.entries ==> r.reply == Computed(Removed(s.entries[k])))
            && (f(cur).Remove? && k !in s.entries ==> r.reply == Computed(StillNone))
            && (f(cur).Nop? && cur.Some? ==> r.reply.result.Inserted? || r.reply.result.Unchanged?)
            && (f(cur).Nop? && cur.None? ==> r.reply.result.StillNone?)
  {
    assert KeepsShape(f, k, cur, width);
    assert DC.Pends(k, Pending(s, k), Lookup(s.db, k), cur, width);
    match f(cur)
    case Fail =>
    case Nop =>
      ChangeAt(s, ComputeOn(imm, s, k, cur, f).state, m, m, k, width) by {
        assert DC.Pends(k, Pending(s, k), Lookup(s.db, k), Lookup(m, k), width);
      }
    case Remove => RemoveRefines(imm, s, k, m, width);
    case Put(v) =>
      if cur.Some? {
        ChangeRefines(imm, s, k, v, cur.value, m, width);
      } else {
        NewExact(imm, s, k, v, m, width);
      }
  }

  // What the caller is told.
  lemma ComputeOnTells(imm: bool, s: State, k: Key, cur: Option<Row>, f: Callback, m: Rows, width: nat)
    requires Current(s, k, cur, m) && KeepsShape(f, k, cur, width) && CacheFollows(imm, s, k, cur, f)
    requires DC.Pends(k, Pending(s, k), Lookup(s.db, k), cur, width) && (k !in s.entries ==> Pending(s, k).None?)
    ensures var r := ComputeOn(imm, s, k, cur, f);
            !f(cur).Fail? ==> r.reply.Computed? && Told(imm, k, f, r.reply.result, s, r.state, m, PlainCompute(m, k, f))
  {
    if f(cur).Put? && cur.Some? {
      ChangeTells(imm, s, k, f(cur).value, cur.value, width);
    }
  }

  lemma ChangeTells(imm: bool, s: State, k: Key, v: Row, prior: Row, width: nat)
    requires Fits(k, v, width) && DC.Pends(k, Pending(s, k), Lookup(s.db, k), Some(prior), width)
    requires k in s.entries ==> s.entries[k] == prior
    ensures DC.SameColumns(v, prior, Pending(s, k))
    ensures var r := ChangeStep(imm, s, k, v, prior);
            && r.reply.Computed? && Reports(r.reply.result, Lookup(s.entries, k), Lookup(r.state.entries, k))
            && !r.reply.result.Removed?
            && (imm && DC.Writes(v, prior, Pending(s, k)) ==> k in r.state.entries && r.state.entries[k] == v)
            && (!(imm && DC.Writes(v, prior, Pending(s, k))) ==> r.state.entries == s.entries)
            && (r.reply.result.ReplacedWith? <==> k in s.entries && imm && DC.Writes(v, prior, Pending(s, k)))
            && (!DC.Writes(v, prior, Pending(s, k)) ==> v == prior)
  {
    DC.ChangePends(imm, k, v, prior, Pending(s, k), Lookup(s.db, k), width);
    DC.ChangeAnswers(imm, v, prior, Pending(s, k));
  }

  // Before the closure runs, a record that is not cached has been flushed; the view has not moved.
  lemma MaybeFlushRefines(s: State, k: Key, io: Io, m: Rows, width: nat)
    requires Refines(s, m, width)
    ensures var r := MaybeFlushOne(s, k, io);
            && Refines(r.state, m, width) && r.state.entries == s.entries
            && (r.reply == Failed <==> k !in s.entries && Pending(s, k).Some? && !io.canWrite)
            && (r.reply == Failed || k in s.entries ==> r.state == s)
            && (r.reply != Failed ==> r.reply == Done && (k !in s.entries ==> Pending(r.state, k).None?))
  {
    if k !in s.entries {
      FlushRefines(s, {k}, true, io, m, width);
    }
  }

  lemma ComputeRefines(imm: bool, s: State, k: Key, f: Callback, io: Io, m: Rows, width: nat)
    requires Refines(s, m, width) && Proper(Compute(k, f), width)
    requires CacheFollows(imm, s, k, Lookup(m, k), f)
    ensures var r := ComputeStep(imm, s, k, f, io);
            var n := PlainCompute(m, k, f);
            && Refines(r.state, if r.reply == Failed then m else n, width)
            && (r.reply == Failed <==> Refused(s, Compute(k, f), io, m))
            && (r.reply != Failed ==> Honest(imm, Compute(k, f), r.reply, s, r.state, m, n))
            && (r.reply != Failed && f(Lookup(m, k)).Remove? ==>
                  r.reply == Computed(if k in s.entries then Removed(s.entries[k]) else StillNone))
            && (r.reply != Failed && f(Lookup(m, k)).Nop? ==>
                  if k in m then r.reply.result.Inserted? || r.reply.result.Unchanged? else r.reply.result.StillNone?)
  {
    MaybeFlushRefines(s, k, io, m, width);
    var flushed := MaybeFlushOne(s, k, io);
    if flushed.reply != Failed {
      var s1 := flushed.state;
      var cur := if k in s1.entries then Some(s1.entries[k]) else Lookup(s1.db, k);
      assert DC.Pends(k, Pending(s1, k), Lookup(s1.db, k), Lookup(m, k), width);
      assert Current(s1, k, cur, m) && KeepsShape(f, k, cur, width);
      ComputeOnRefines(imm, s1, k, cur, f, m, width);
      ComputeOnTells(imm, s1, k, cur, f, m, width);
    }
  }

  lemma GetRefines(imm: bool, s: State, k: Key, io: Io, m: Rows, width: nat)
    requires Refines(s, m, width)
    ensures var r := GetStep(imm, s, k, io);
            && Refines(r.state, m, width)
            && (r.reply == Failed <==> Refused(s, Op.Get(k), io, m))
            && (r.reply != Failed ==> Honest(imm, Op.Get(k), r.reply, s, r.state, m, m))
  {
    assert Proper(Compute(k, KeepIt), width);
    ComputeRefines(imm, s, k, KeepIt, io, m, width);
    AccessRefines(ComputeStep(imm, s, k, KeepIt, io).state, k, m, width);
  }

  // Pooling a record with the content it has changes nothing.
  lemma AccessRefines(s: State, k: Key, m: Rows, width: nat)
    requires Refines(s, m, width)
    ensures Refines(AccessStep(s, k), m, width)
  {
    assert DC.Pends(k, Pending(s, k), Lookup(s.db, k), Lookup(m, k), width);
    ChangeAt(s, AccessStep(s, k), m, m, k, width);
  }

  // Deleting removes the record from the view, whether or not it was cached; the reply names it only if it was.
  lemma DeleteRefines(imm: bool, s: State, k: Key, io: Io, m: Rows, width: nat)
    requires Refines(s, m, width)
    ensures var r := DeleteStep(imm, s, k, io);
            && Refines(r.state, if r.reply == Failed then m else m - {k}, width)
            && (r.reply == Failed <==> Refused(s, Op.Delete(k), io, m))
            && (r.reply != Failed ==> r.reply == Found(if k in s.entries then Lookup(m, k) else None))
            && (r.reply != Failed ==> Honest(imm, Op.Delete(k), r.reply, s, r.state, m, m - {k}))
  {
    ComputeRefines(imm, s, k, RemoveIfAny, io, m, width);
    assert k !in m ==> m - {k} == m;
  }

  lemma GetOrInsertRefines(imm: bool, s: State, k: Key, init: Option<Row>, io: Io, m: Rows, width: nat)
    requires Refines(s, m, width) && (init.Some? ==> Fits(k, init.value, width))
    ensures var r := GetOrInsertStep(imm, s, k, init, io);
            var n := PlainStep(m, GetOrInsert(k, init));
            && Refines(r.state, if r.reply == Failed then m else n, width)
            && (r.reply == Failed <==> Refused(s, GetOrInsert(k, init), io, m))
            && (r.reply != Failed ==> Honest(imm, GetOrInsert(k, init), r.reply, s, r.state, m, n))
  {
    MaybeFlushRefines(s, k, io, m, width);
    var r := GetOrInsertStep(imm, s, k, init, io);
    var flushed := MaybeFlushOne(s, k, io);
    if r.reply != Failed && k !in s.entries {
      var s1 := flushed.state;
      assert DC.Pends(k, Pending(s1, k), Lookup(s1.db, k), Lookup(m, k), width);
      if k !in s1.db {
        DC.NewPends(imm, k, init.value, None, width);
        ChangeAt(s1, r.state, m, m[k := init.value], k, width);
      } else {
        ChangeAt(s1, r.state, m, m, k, width);
      }
    }
  }

  // With a controller that does not cache new values, what keeps the cached copies right: no cached record is
  // replaced by another.
  ghost predicate Follows(imm: bool, s: State, op: Op, m: Rows) {
    match op
    case Insert(v) => imm || KeyOf(v) !in s.entries
    case Compute(k, f) => CacheFollows(imm, s, k, Lookup(m, k), f)
    case _ => true
  }

  // One operation, with any pattern of backend failures: it fails exactly when something it needs does, and then leaves
  // the view as it was; otherwise it moves the view as the plain map moves, answers truthfully, and never panics.
  lemma StepRefinesFor(imm: bool, s: State, op: Op, io: Io, m: Rows, width: nat)
    requires Refines(s, m, width) && Proper(op, width) && Fresh(s, op) && Follows(imm, s, op, m)
    ensures var r := Step(imm, s, op, io);
            && r.reply != Panicked && (r.reply == Failed <==> Refused(s, op, io, m))
            && Refines(r.state, if r.reply == Failed then m else PlainStep(m, op), width)
            && (r.reply != Failed ==> Honest(imm, op, r.reply, s, r.state, m, PlainStep(m, op)))
  {
    match op
    case Insert(v) => NewExact(imm, s, KeyOf(v), v, m, width);
    case Get(k) => GetRefines(imm, s, k, io, m, width);
    case Compute(k, f) => ComputeRefines(imm, s, k, f, io, m, width);
    case GetOrInsert(k, init) => GetOrInsertRefines(imm, s, k, init, io, m, width);
    case Delete(k) => DeleteRefines(imm, s, k, io, m, width);
    case Flush => FlushRefines(s, s.pool.Keys, false, io, m, width);
    case FlushMany(keys) => FlushRefines(s, set k | k in keys, false, io, m, width);
    case FlushOne(k) => FlushRefines(s, {k}, true, io, m, width);
    case _ =>
  }

  // The same for an immutable controller, whatever is cached.
  lemma StepRefines(s: State, op: Op, io: Io, m: Rows, width: nat)
    requires Refines(s, m, width) && Proper(op, width) && Fresh(s, op)
    ensures var r := Step(true, s, op, io);
            && r.reply != Panicked && (r.reply == Failed <==> Refused(s, op, io, m))
            && Refines(r.state, if r.reply == Failed then m else PlainStep(m, op), width)
            && (r.reply != Failed ==> Honest(true, op, r.reply, s, r.state, m, PlainStep(m, op)))
  {
    StepRefinesFor(true, s, op, io, m, width);
  }

  // ---- What an operation leaves alone.

  predicate SameAt(s: State, t: State, j: Key) {
    && Pending(t, j) == Pending(s, j) && Lookup(t.db, j) == Lookup(s.db, j)
    && Lookup(t.entries, j) == Lookup(s.entries, j)
  }

  lemma ChangeElsewhere(imm: bool, s: State, k: Key, v: Row, prior: Row, j: Key)
    requires j != k
    ensures SameAt(s, ChangeStep(imm, s, k, v, prior).state, j)
  {
  }

  lemma ComputeOnElsewhere(imm: bool, s: State, k: Key, cur: Option<Row>, f: Callback, j: Key)
    requires j != k
    ensures SameAt(s, ComputeOn(imm, s, k, cur, f).state, j)
  {
    match f(cur)
    case Put(v) =>
      if cur.Some? {
        ChangeElsewhere(imm, s, k, v, cur.value, j);
      } else {
        NewElsewhere(imm, s, k, v, j);
      }
    case _ =>
  }

  lemma ComputeElsewhere(imm: bool, s: State, k: Key, f: Callback, io: Io, j: Key)
    requires j != k
    ensures SameAt(s, ComputeStep(imm, s, k, f, io).state, j)
  {
    FlushTouches(s, {k}, true, io, j);
    var t := MaybeFlushOne(s, k, io).state;
    assert SameAt(s, t, j);
    ComputeOnElsewhere(imm, t, k, if k in t.entries then Some(t.entries[k]) else Lookup(t.db, k), f, j);
  }

  // An operation on one key changes nothing of any other: not its pending record, its row, or its cached copy.
  lemma StepElsewhere(imm: bool, s: State, op: Op, io: Io, j: Key)
    requires !op.Flush? && !op.FlushMany? && j != Subject(op)
    ensures SameAt(s, Step(imm, s, op, io).state, j)
  {
    match op
    case Get(k) => ComputeElsewhere(imm, s, k, KeepIt, io, j);
    case Compute(k, f) => ComputeElsewhere(imm, s, k, f, io, j);
    case Delete(k) => ComputeElsewhere(imm, s, k, RemoveIfAny, io, j);
    case GetOrInsert(k, init) => GetOrInsertElsewhere(imm, s, k, init, io, j);
    case FlushOne(k) => FlushTouches(s, {k}, true, io, j);
    case Insert(v) => NewElsewhere(imm, s, KeyOf(v), v, j);
    case _ =>
  }

  lemma GetOrInsertElsewhere(imm: bool, s: State, k: Key, init: Option<Row>, io: Io, j: Key)
    requires j != k
    ensures SameAt(s, GetOrInsertStep(imm, s, k, init, io).state, j)
  {
    FlushTouches(s, {k}, true, io, j);
  }

  lemma NewElsewhere(imm: bool, s: State, k: Key, v: Row, j: Key)
    requires j != k
    ensures SameAt(s, NewStep(imm, s, k, v).state, j)
  {
  }

  // ---- Whole runs.

  type Run = seq<(Op, Io)>

  // The states of a run, and the plain map driven by the operations that did not fail.
  function StateAfter(s: State, run: Run): State
    decreases |run|
  {
    if run == [] then s else StateAfter(Step(true, s, run[0].0, run[0].1).state, run[1..])
  }

  function PlainAfter(s: State, m: Rows, run: Run): Rows
    decreases |run|
  {
    if run == [] then m
    else
      var r := Step(true, s, run[0].0, run[0].1);
      PlainAfter(r.state, if r.reply == Failed then m else PlainStep(m, run[0].0), run[1..])
  }

  // The caller's side of the bargain at every step.
  ghost predicate Lawful(s: State, run: Run, width: nat)
    decreases |run|
  {
    run == [] ||
    (Proper(run[0].0, width) && Fresh(s, run[0].0) && Lawful(Step(true, s, run[0].0, run[0].1).state, run[1..], width))
  }

  // Every operation of the run that did not fail told its caller the truth about the plain map, and none panicked.
  predicate AllHonest(s: State, m: Rows, run: Run)
    decreases |run|
  {
    run == [] ||
    var r := Step(true, s, run[0].0, run[0].1);
    var n := if r.reply == Failed then m else PlainStep(m, run[0].0);
    && r.reply != Panicked && (r.reply == Failed <==> Refused(s, run[0].0, run[0].1, m))
    && (r.reply != Failed ==> Honest(true, run[0].0, r.reply, s, r.state, m, n))
    && AllHonest(r.state, n, run[1..])
  }

  lemma {:induction false} RunRefines(s: State, m: Rows, run: Run, width: nat)
    requires Refines(s, m, width) && Lawful(s, run, width)
    ensures Refines(StateAfter(s, run), PlainAfter(s, m, run), width) && AllHonest(s, m, run)
    decreases |run|
  {
    if run != [] {
      StepRefines(s, run[0].0, run[0].1, m, width);
      var r := Step(true, s, run[0].0, run[0].1);
      RunRefines(r.state, if r.reply == Failed then m else PlainStep(m, run[0].0), run[1..], width);
    }
  }

  // A cache opened over a table.
  function Opened(db: Rows): State {
    State(map[], map[], db)
  }

  lemma OpenedRefines(db: Rows, width: nat)
    requires forall k :: k in db ==> Fits(k, db[k], width)
    ensures Refines(Opened(db), db, width)
  {
  }

  // From opening the cache over a table through any lawful run: every reply was true, every key reads as in the plain
  // map, and a flush that the backend carries leaves the backend table equal to the plain map.  Such a flush is never
  // refused.
  lemma {:induction false} CacheIsTransparent(db: Rows, run: Run, width: nat)
    requires forall k :: k in db ==> Fits(k, db[k], width)
    requires Lawful(Opened(db), run, width)
    ensures var s := StateAfter(Opened(db), run);
            var m := PlainAfter(Opened(db), db, run);
            && AllHonest(Opened(db), db, run)
            && (forall k :: View(s, k) == Lookup(m, k))
            && (forall k :: k in s.entries ==> View(s, k) == Some(s.entries[k]))
            && Step(true, s, Flush, Io(true, true)).reply == Done
            && Step(true, s, Flush, Io(true, true)).state.db == m
  {
    OpenedRefines(db, width);
    RunRefines(Opened(db), db, run, width);
    var s := StateAfter(Opened(db), run);
    var m := PlainAfter(Opened(db), db, run);
    FlushedIsPlain(s, m, width);
    forall k ensures View(s, k) == Lookup(m, k) {
      assert DC.Pends(k, Pending(s, k), Lookup(s.db, k), Lookup(m, k), width);
    }
  }

  lemma FlushedIsPlain(s: State, m: Rows, width: nat)
    requires Refines(s, m, width)
    ensures Step(true, s, Flush, Io(true, true)).reply == Done
    ensures Step(true, s, Flush, Io(true, true)).state.db == m
  {
    var io := Io(true, true);
    FlushRefines(s, s.pool.Keys, false, io, m, width);
    var t := Step(true, s, Flush, io).state;
    forall k ensures Lookup(t.db, k) == Lookup(m, k) {
      assert DC.Pends(k, Pending(t, k), Lookup(t.db, k), Lookup(m, k), width);
    }
    RowsEqual(t.db, m);
  }

  // Flushing, evicting and invalidating move no view, at any point of a run.
  lemma {:induction false} UpkeepIsInvisible(s: State, op: Op, io: Io, m: Rows, width: nat)
    requires Refines(s, m, width)
    requires op.Flush? || op.FlushMany? || op.FlushOne? || op.Evict? || op.Invalidate?
    ensures forall k :: View(Step(true, s, op, io).state, k) == View(s, k)
    ensures Refines(Step(true, s, op, io).state, m, width)
  {
    StepRefines(s, op, io, m, width);
    var t := Step(true, s, op, io).state;
    forall k ensures View(t, k) == View(s, k) {
      assert DC.Pends(k, Pending(s, k), Lookup(s.db, k), Lookup(m, k), width);
      assert DC.Pends(k, Pending(t, k), Lookup(t.db, k), Lookup(m, k), width);
    }
  }

  // In every reachable state: a cached record has no pending deletion, a pending insert has no backend row and a
  // pending update has one, so no controller refusal and no refused statement can follow.
  lemma {:induction false} ReachableFacts(db: Rows, run: Run, width: nat, k: Key)
    requires forall j :: j in db ==> Fits(j, db[j], width)
    requires Lawful(Opened(db), run, width)
    ensures var s := StateAfter(Opened(db), run);
            && (k in s.entries ==> Pending(s, k) != Some(CacheUpdate.Delete))
            && (Pending(s, k).Some? && Pending(s, k).value.Insert? ==> k !in s.db)
            && (Pending(s, k).Some? && Pending(s, k).value.Update? ==> k in s.db)
            && (k in s.entries ==> forall v :: DC.OnChange(true, v, s.entries[k], Pending(s, k)).Answered?)
  {
    OpenedRefines(db, width);
    RunRefines(Opened(db), db, run, width);
    var s := StateAfter(Opened(db), run);
    var m := PlainAfter(Opened(db), db, run);
    assert DC.Pends(k, Pending(s, k), Lookup(s.db, k), Lookup(m, k), width);
  }

  // ---- Where the bargain is exact.

  // `insert` keeps the refinement, and leaves the pool writable, exactly when the backend has no row for the key.
  lemma InsertExact(s: State, v: Row, m: Rows, width: nat)
    requires Refines(s, m, width) && Fits(KeyOf(v), v, width)
    ensures Refines(InsertStep(true, s, v).state, m[KeyOf(v) := v], width) <==> KeyOf(v) !in s.db
    ensures Step(true, InsertStep(true, s, v).state, Flush, Io(true, true)).reply == Done <==> KeyOf(v) !in s.db
  {
    var k := KeyOf(v);
    var t := InsertStep(true, s, v).state;
    NewExact(true, s, k, v, m, width);
    if k !in s.db {
      FlushedIsPlain(t, m[k := v], width);
    } else {
      assert DueAmong(t, t.pool.Keys)[k].Insert? && t.db == s.db;
    }
  }

  // A controller that does not cache new values: putting a new value keeps the cached records right exactly when the
  // record was not cached or has not changed.
  lemma MutablePutExact(s: State, k: Key, v: Row, io: Io, m: Rows, width: nat)
    requires Refines(s, m, width) && Fits(k, v, width) && io == Io(true, true) && k in m
    ensures Refines(ComputeStep(false, s, k, cur => Put(v), io).state, m[k := v], width) <==>
            k !in s.entries || s.entries[k] == v
  {
    var f: Callback := cur => Put(v);
    if k !in s.entries || s.entries[k] == v {
      ComputeRefines(false, s, k, f, io, m, width);
    } else {
      var t := ComputeStep(false, s, k, f, io).state;
      assert DC.Pends(k, Pending(s, k), Lookup(s.db, k), Lookup(m, k), width);
      DC.ChangePends(false, k, v, m[k], Pending(s, k), Lookup(s.db, k), width);
      assert k in t.entries && t.entries[k] == s.entries[k];
      assert m[k := v][k] != t.entries[k];
    }
  }
}
