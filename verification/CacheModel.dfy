/** The cache as a value: one step function for each public operation, with the shared data controller built in.
    Background flushes and evictions are operations of their own.  The methods of class `Cache` are proved to take
    exactly these steps; the refinement theorems are about them. */
module CacheModel {
  import opened Records
  import opened Backend
  import DC = DataController

  // `entries` is the inner cache, `pool` the pending records (a pooled record may be empty), `db` the backend table.
  datatype State = State(entries: map<Key, Row>, pool: map<Key, Option<CacheUpdate>>, db: Rows)

  // Whether the backend carries a write-back, and a fetch, that this operation asks for.
  datatype Io = Io(canWrite: bool, canRead: bool)

  // What a compute callback decides.
  datatype Decision = Nop | Put(value: Row) | Remove | Fail

  type Callback = Option<Row> -> Decision

  datatype CompResult =
    | Inserted(row: Row) | ReplacedWith(row: Row) | Unchanged(row: Row) | Removed(row: Row) | StillNone

  datatype Reply = Done | Found(value: Option<Row>) | Computed(result: CompResult) | Failed | Panicked

  datatype Op =
    | Insert(value: Row)
    | Get(key: Key)
    | Compute(key: Key, f: Callback)
    | GetOrInsert(key: Key, init: Option<Row>)
    | Delete(key: Key)
    | Invalidate(key: Key)
    | Evict(key: Key)
    | Flush
    | FlushMany(keys: seq<Key>)
    | FlushOne(key: Key)

  datatype Outcome = Outcome(state: State, reply: Reply)

  function KeyOf(row: Row): Key {
    if |row| > 0 then row[0] else Null
  }

  function Pending(s: State, k: Key): Option<CacheUpdate> {
    if k in s.pool then s.pool[k] else None
  }

  // The view: what the record of `k` is, seen through the pending update.
  function View(s: State, k: Key): Option<Row> {
    Seen(Pending(s, k), Lookup(s.db, k))
  }

  // The pending records among `keys`.
  function DueAmong(s: State, keys: set<Key>): Batch {
    map k | k in s.pool && k in keys && s.pool[k].Some? :: s.pool[k].value
  }

  // One write-back.  A batch flush removes the records it confirmed from the pool; a single flush still shares the
  // record when the pool is purified, so the emptied record stays.
  function FlushKeys(s: State, keys: set<Key>, single: bool, io: Io): Outcome {
    var due := DueAmong(s, keys);
    if due == map[] && single then Outcome(s, Done)
    else if io.canWrite && AllAccepted(s.db, due) then
      var pool := if single then map k | k in s.pool :: if k in due then None else s.pool[k]
                  else s.pool - due.Keys;
      Outcome(s.(pool := pool, db := Written(s.db, due)), Done)
    else Outcome(s, Failed)
  }

  function FlushOneStep(s: State, k: Key, io: Io): Outcome {
    FlushKeys(s, {k}, true, io)
  }

  function MaybeFlushOne(s: State, k: Key, io: Io): Outcome {
    if k in s.entries then Outcome(s, Done) else FlushOneStep(s, k, io)
  }

  function PutPending(s: State, k: Key, u: Option<CacheUpdate>): State {
    s.(pool := s.pool[k := u])
  }

  // `on_new` and what the cache does with the answer.
  function NewStep(imm: bool, s: State, k: Key, v: Row): Outcome {
    var r := DC.OnNew(imm, v);
    var s1 := PutPending(s, k, r.update);
    if r.op == DC.Put then
      Outcome(s1.(entries := s1.entries[k := v]),
              Computed(if k in s.entries then ReplacedWith(v) else Inserted(v)))
    else Outcome(s1, Computed(if k in s.entries then CompResult.Unchanged(s.entries[k]) else StillNone))
  }

  // `on_change` and what the cache does with the answer.  A refusal loses the pending record: it has been taken out
  // before the controller is asked.
  function ChangeStep(imm: bool, s: State, k: Key, v: Row, prior: Row): Outcome {
    match DC.OnChange(imm, v, prior, Pending(s, k))
    case ModifiedDeletedKey => Outcome(PutPending(s, k, None), Failed)
    case Answered(r) =>
      var s1 := PutPending(s, k, r.update);
      if r.op == DC.Put then
        Outcome(s1.(entries := s1.entries[k := v]),
                Computed(if k in s.entries then ReplacedWith(v) else Inserted(v)))
      else Outcome(s1, Computed(if k in s.entries then CompResult.Unchanged(s.entries[k]) else StillNone))
  }

  // `on_delete` and what the cache does with the answer.
  function RemoveStep(imm: bool, s: State, k: Key): Outcome {
    var r := DC.OnDelete(imm, Pending(s, k));
    var pool := if r.op == DC.Drop then s.pool - {k} else s.pool[k := r.update];
    Outcome(s.(pool := pool, entries := s.entries - {k}),
            Computed(if k in s.entries then Removed(s.entries[k]) else StillNone))
  }

  // The compute closure over the current record.
  function ComputeOn(imm: bool, s: State, k: Key, cur: Option<Row>, f: Callback): Outcome {
    match f(cur)
    case Fail => Outcome(s, Failed)
    case Nop =>
      if k in s.entries then Outcome(s, Computed(CompResult.Unchanged(s.entries[k])))
      else if cur.Some? then Outcome(s.(entries := s.entries[k := cur.value]), Computed(Inserted(cur.value)))
      else Outcome(s, Computed(StillNone))
    case Remove => RemoveStep(imm, s, k)
    case Put(v) => if cur.Some? then ChangeStep(imm, s, k, v, cur.value) else NewStep(imm, s, k, v)
  }

  // `get_and_try_compute_with_primary`
  function ComputeStep(imm: bool, s: State, k: Key, f: Callback, io: Io): Outcome {
    var flushed := MaybeFlushOne(s, k, io);
    if flushed.reply == Failed then flushed
    else
      var s1 := flushed.state;
      if k !in s1.entries && !io.canRead then Outcome(s1, Failed)
      else ComputeOn(imm, s1, k, if k in s1.entries then Some(s1.entries[k]) else Lookup(s1.db, k), f)
  }

  function KeepIt(cur: Option<Row>): Decision {
    Nop
  }

  function RemoveIfAny(cur: Option<Row>): Decision {
    if cur.Some? then Remove else Nop
  }

  // `on_access` with the default controller answer: the record is pooled, its content stays.
  function AccessStep(s: State, k: Key): State {
    PutPending(s, k, Pending(s, k))
  }

  function GetStep(imm: bool, s: State, k: Key, io: Io): Outcome {
    var r := ComputeStep(imm, s, k, KeepIt, io);
    match r.reply
    case Computed(Inserted(v)) => Outcome(AccessStep(r.state, k), Found(Some(v)))
    case Computed(Unchanged(v)) => Outcome(AccessStep(r.state, k), Found(Some(v)))
    case Computed(ReplacedWith(v)) => Outcome(AccessStep(r.state, k), Found(Some(v)))
    case Computed(_) => Outcome(r.state, Found(None))
    case _ => r
  }

  function DeleteStep(imm: bool, s: State, k: Key, io: Io): Outcome {
    var r := ComputeStep(imm, s, k, RemoveIfAny, io);
    match r.reply
    case Computed(Removed(v)) => Outcome(r.state, Found(Some(v)))
    case Computed(StillNone) => Outcome(r.state, Found(None))
    case Computed(_) => Outcome(r.state, Panicked)
    case _ => r
  }

  // `insert` asks nothing of the backend and flushes nothing.
  function InsertStep(imm: bool, s: State, v: Row): Outcome {
    var r := NewStep(imm, s, KeyOf(v), v);
    match r.reply
    case Computed(StillNone) => Outcome(r.state, Found(None))
    case Computed(Removed(_)) => Outcome(r.state, Panicked)
    case Computed(c) => Outcome(r.state, Found(Some(c.row)))
    case _ => r
  }

  // `get_or_try_insert_with_primary`: a new record is cached whatever the controller answers.
  function GetOrInsertStep(imm: bool, s: State, k: Key, init: Option<Row>, io: Io): Outcome {
    var flushed := MaybeFlushOne(s, k, io);
    if flushed.reply == Failed then flushed
    else
      var s1 := flushed.state;
      if k in s1.entries then Outcome(s1, Found(Some(s1.entries[k])))
      else if !io.canRead then Outcome(s1, Failed)
      else if k in s1.db then Outcome(s1.(entries := s1.entries[k := s1.db[k]]), Found(Some(s1.db[k])))
      else if init.None? then Outcome(s1, Failed)
      else
        var s2 := PutPending(s1, k, DC.OnNew(imm, init.value).update);
        Outcome(s2.(entries := s2.entries[k := init.value]), Found(init))
  }

  function Uncache(s: State, k: Key): Outcome {
    Outcome(s.(entries := s.entries - {k}), Done)
  }

  function Step(imm: bool, s: State, op: Op, io: Io): Outcome {
    match op
    case Insert(v) => InsertStep(imm, s, v)
    case Get(k) => GetStep(imm, s, k, io)
    case Compute(k, f) => ComputeStep(imm, s, k, f, io)
    case GetOrInsert(k, init) => GetOrInsertStep(imm, s, k, init, io)
    case Delete(k) => DeleteStep(imm, s, k, io)
    case Invalidate(k) => Uncache(s, k)
    case Evict(k) => Uncache(s, k)
    case Flush => FlushKeys(s, s.pool.Keys, false, io)
    case FlushMany(keys) => FlushKeys(s, set k | k in keys, false, io)
    case FlushOne(k) => FlushOneStep(s, k, io)
  }

  // The key an operation is about.
  function Subject(op: Op): Key {
    match op
    case Insert(v) => KeyOf(v)
    case Get(k) => k
    case Compute(k, _) => k
    case GetOrInsert(k, _) => k
    case Delete(k) => k
    case Invalidate(k) => k
    case Evict(k) => k
    case FlushOne(k) => k
    case _ => Null
  }

  // ---- The plain map the cache must be indistinguishable from.

  function PlainCompute(m: Rows, k: Key, f: Callback): Rows {
    match f(Lookup(m, k))
    case Put(v) => m[k := v]
    case Remove => m - {k}
    case _ => m
  }

  function PlainStep(m: Rows, op: Op): Rows {
    match op
    case Insert(v) => m[KeyOf(v) := v]
    case Compute(k, f) => PlainCompute(m, k, f)
    case GetOrInsert(k, init) => if k !in m && init.Some? then m[k := init.value] else m
    case Delete(k) => m - {k}
    case _ => m
  }

  // What the result of a compute says of the cached copy, as it was before and is now.
  predicate Reports(c: CompResult, before: Option<Row>, after: Option<Row>) {
    match c
    case Inserted(v) => before.None? && after == Some(v)
    case ReplacedWith(v) => before.Some? && after == Some(v)
    case Unchanged(v) => before == after == Some(v)
    case Removed(v) => before == Some(v) && after.None?
    case StillNone => before.None? && after.None?
  }

  // A cached copy is replaced when an immutable controller finds something to write.
  predicate Replaces(imm: bool, s: State, k: Key, d: Decision) {
    && imm && k in s.entries && d.Put?
    && DC.SameColumns(d.value, s.entries[k], Pending(s, k)) && DC.Writes(d.value, s.entries[k], Pending(s, k))
  }

  // The callback puts back the very record it was given.
  predicate PutsBack(m: Rows, k: Key, f: Callback) {
    k in m && f(Some(m[k])) == Put(m[k])
  }

  // What the result of a compute tells the caller: the truth about the cached copy, and about the plain map.  An
  // immutable controller says that there is no record, although there is one, exactly when a record that was not cached
  // is put back as it was.
  predicate Told(imm: bool, k: Key, f: Callback, c: CompResult, s: State, t: State, m: Rows, n: Rows) {
    && Reports(c, Lookup(s.entries, k), Lookup(t.entries, k))
    && (c.ReplacedWith? <==> Replaces(imm, s, k, f(Lookup(m, k))))
    && (c.Removed? ==> Lookup(m, k) == Some(c.row) && k !in n)
    && (!c.Removed? && !c.StillNone? ==> Lookup(n, k) == Some(c.row))
    && (imm ==> (c.StillNone? && k in n <==> k !in s.entries && PutsBack(m, k, f)))
  }

  // What a reply tells the caller about the plain map before (`m`) and after (`n`) the operation, when the cache goes
  // from `s` to `t`.
  predicate Honest(imm: bool, op: Op, reply: Reply, s: State, t: State, m: Rows, n: Rows) {
    match op
    case Get(k) => reply == Found(Lookup(m, k)) && (k in m ==> k in t.entries && k in t.pool)
    case GetOrInsert(k, _) => reply == Found(Lookup(n, k)) && k in n && k in t.entries
    case Delete(k) => reply == Found(Lookup(s.entries, k)) && k !in t.entries
    case Compute(k, f) => reply.Computed? && Told(imm, k, f, reply.result, s, t, m, n)
    case Insert(v) => reply == Found(if imm then Some(v) else None) && (imm <==> KeyOf(v) in t.entries)
    case _ => reply == Done
  }

  // Exactly when an operation fails: for a write-back it needs, for a fetch it needs, or because the callback does.
  predicate Refused(s: State, op: Op, io: Io, m: Rows) {
    match op
    case Get(k) => Unready(s, k, io)
    case Delete(k) => Unready(s, k, io)
    case Compute(k, f) => Unready(s, k, io) || f(Lookup(m, k)).Fail?
    case GetOrInsert(k, init) => Unready(s, k, io) || (k !in m && init.None?)
    case Flush => !io.canWrite
    case FlushMany(_) => !io.canWrite
    case FlushOne(k) => Pending(s, k).Some? && !io.canWrite
    case _ => false
  }

  // A record that is not cached has to be written, if something is pending, and read again.
  predicate Unready(s: State, k: Key, io: Io) {
    k !in s.entries && (!io.canRead || (Pending(s, k).Some? && !io.canWrite))
  }

  // ---- The invariant.

  // Every pending record can be written over its backend row and shows the plain record; every cached record is the
  // plain record.
  ghost predicate Refines(s: State, m: Rows, width: nat) {
    && (forall k :: DC.Pends(k, Pending(s, k), Lookup(s.db, k), Lookup(m, k), width))
    && (forall k :: k in s.entries ==> k in m && m[k] == s.entries[k])
  }

  predicate KeepsShape(f: Callback, k: Key, cur: Option<Row>, width: nat) {
    f(cur).Put? && (cur.Some? ==> Fits(k, cur.value, width)) ==> Fits(k, f(cur).value, width)
  }

  // What the callers must respect: records keep their key and their columns.
  ghost predicate Proper(op: Op, width: nat) {
    match op
    case Insert(v) => Fits(KeyOf(v), v, width)
    case Compute(k, f) => forall cur :: KeepsShape(f, k, cur, width)
    case GetOrInsert(k, init) => init.Some? ==> Fits(k, init.value, width)
    case _ => true
  }

  // An insert is not preceded by a flush, so its key must be absent from the backend.
  predicate Fresh(s: State, op: Op) {
    op.Insert? ==> KeyOf(op.value) !in s.db
  }
}
