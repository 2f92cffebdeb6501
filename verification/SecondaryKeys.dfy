/** A cache whose records have a secondary key besides the primary one, like the e-mail of a customer.  The inner cache
    then also holds links from secondary to primary keys, which come and go independently of the records. */
module SecondaryKeys {
  import opened Records
  import opened Backend
  import opened CacheModel
  import opened Refinement
  import DC = DataController

  // The column of the secondary key.
  const SECONDARY: nat := 1

  function SecondaryOf(row: Row): Value {
    if SECONDARY < |row| then row[SECONDARY] else Null
  }

  datatype Indexed = Indexed(s: State, links: map<Key, Key>)

  datatype Event =
    | Primary(op: Op)
    | GetBy(secondary: Key)
    // A link is evicted or invalidated.
    | DropLink(secondary: Key)

  // The backend's lookup by secondary key.
  ghost function FindBySecondary(db: Rows, e: Key): Option<Key> {
    if exists p :: p in db && SecondaryOf(db[p]) == e then
      var p :| p in db && SecondaryOf(db[p]) == e;
      Some(p)
    else None
  }

  // Where a secondary key leads: along its link, or through the backend.
  ghost function Resolve(x: Indexed, e: Key): Option<Key> {
    if e in x.links then Some(x.links[e]) else FindBySecondary(x.s.db, e)
  }

  // The record a compute closure finds, after the flush that precedes it.
  function Fetched(s: State, k: Key, io: Io): Option<Row> {
    var t := MaybeFlushOne(s, k, io).state;
    if k in t.entries then Some(t.entries[k]) else Lookup(t.db, k)
  }

  // The secondary key that an operation by primary key takes out of the cache.
  function Unlinked(imm: bool, s: State, op: Op, io: Io): set<Key> {
    match op
    case Delete(k) =>
      if DeleteStep(imm, s, k, io).reply != Failed && Fetched(s, k, io).Some?
      then {SecondaryOf(Fetched(s, k, io).value)} else {}
    case Compute(k, f) =>
      if ComputeStep(imm, s, k, f, io).reply != Failed && f(Fetched(s, k, io)).Remove? && Fetched(s, k, io).Some?
      then {SecondaryOf(Fetched(s, k, io).value)} else {}
    case Invalidate(k) => if k in s.entries then {SecondaryOf(s.entries[k])} else {}
    case _ => {}
  }

  datatype IndexedOutcome = IndexedOutcome(state: Indexed, reply: Reply)

  // `get_and_try_compute_with_secondary` with a callback that keeps the record: a found record is linked.
  ghost function GetBySecondary(imm: bool, x: Indexed, e: Key, io: Io): IndexedOutcome {
    match Resolve(x, e)
    case None => IndexedOutcome(x, Found(None))
    case Some(p) =>
      var r := ComputeStep(imm, x.s, p, KeepIt, io);
      match r.reply
      case Computed(StillNone) => IndexedOutcome(x.(s := r.state), Found(None))
      case Computed(Removed(_)) => IndexedOutcome(Indexed(r.state, x.links - {e}), Found(None))
      case Computed(c) => IndexedOutcome(Indexed(r.state, x.links[e := p]), Found(Some(c.row)))
      case _ => IndexedOutcome(x.(s := r.state), r.reply)
  }

  ghost function React(imm: bool, x: Indexed, e: Event, io: Io): IndexedOutcome {
    match e
    case Primary(op) =>
      var r := Step(imm, x.s, op, io);
      IndexedOutcome(Indexed(r.state, x.links - Unlinked(imm, x.s, op, io)), r.reply)
    case GetBy(key) => GetBySecondary(imm, x, key, io)
    case DropLink(key) => IndexedOutcome(x.(links := x.links - {key}), Done)
  }

  // ---- The invariant.

  // The secondary key of the record of `p`: as the plain map has it, or as the backend still has it.
  function SecondaryAt(db: Rows, m: Rows, p: Key): Option<Key> {
    if p in m then Some(SecondaryOf(m[p])) else if p in db then Some(SecondaryOf(db[p])) else None
  }

  predicate StableAt(db: Rows, m: Rows, p: Key) {
    p in db && p in m ==> SecondaryOf(db[p]) == SecondaryOf(m[p])
  }

  predicate DistinctAt(db: Rows, m: Rows, p: Key, q: Key) {
    p != q && SecondaryAt(db, m, p).Some? ==> SecondaryAt(db, m, p) != SecondaryAt(db, m, q)
  }

  predicate LinkOk(x: Indexed, m: Rows, e: Key) {
    e in x.links ==> x.links[e] in m && SecondaryOf(m[x.links[e]]) == e
  }

  // Every link leads to a record that has this secondary key.
  ghost predicate Coherent(x: Indexed, m: Rows, width: nat) {
    && Refines(x.s, m, width)
    && (forall e :: LinkOk(x, m, e))
    && (forall p :: StableAt(x.s.db, m, p))
    && (forall p, q :: DistinctAt(x.s.db, m, p, q))
  }

  // What the callers respect: a new record brings a secondary key of its own, a changed one keeps its secondary key;
  // and with a controller that is not immutable, as that of the customers, no cached record is replaced by another.
  ghost predicate NewKeyFor(x: Indexed, m: Rows, k: Key, row: Row) {
    forall p :: p != k ==> SecondaryAt(x.s.db, m, p) != Some(SecondaryOf(row))
  }

  ghost predicate KeepsKey(x: Indexed, m: Rows, k: Key, row: Row) {
    if k in m then SecondaryOf(row) == SecondaryOf(m[k]) else NewKeyFor(x, m, k, row)
  }

  ghost predicate Lawful(imm: bool, x: Indexed, m: Rows, e: Event, width: nat) {
    match e
    case Primary(op) =>
      && Proper(op, width) && Fresh(x.s, op) && Follows(imm, x.s, op, m)
      && (match op
          case Insert(v) => KeepsKey(x, m, KeyOf(v), v)
          case Compute(k, f) => f(Lookup(m, k)).Put? ==> KeepsKey(x, m, k, f(Lookup(m, k)).value)
          case GetOrInsert(k, init) => init.Some? && k !in m ==> NewKeyFor(x, m, k, init.value)
          case _ => true)
    case _ => true
  }

  function PlainReact(m: Rows, e: Event, reply: Reply): Rows {
    if e.Primary? && reply != Failed then PlainStep(m, e.op) else m
  }

  // ---- The tables of a step.

  // A step of the cache writes rows of the plain map to the backend, or takes rows out that the plain map lacks.
  predicate RowMoves(db: Rows, db': Rows, m: Rows, p: Key) {
    Lookup(db', p) == Lookup(db, p) || Lookup(db', p) == Lookup(m, p)
  }

  lemma FlushMoves(s: State, keys: set<Key>, single: bool, io: Io, m: Rows, width: nat, p: Key)
    requires Refines(s, m, width)
    ensures RowMoves(s.db, FlushKeys(s, keys, single, io).state.db, m, p)
  {
    var due := DueAmong(s, keys);
    WrittenRow(s.db, due, p);
    assert DC.Pends(p, Pending(s, p), Lookup(s.db, p), Lookup(m, p), width);
  }

  // The backend row of the key itself, once the flush before a compute has been carried out, is the plain record's.
  lemma ReadyRow(s: State, k: Key, io: Io, m: Rows, width: nat)
    requires Refines(s, m, width) && MaybeFlushOne(s, k, io).reply != Failed
    ensures Fetched(s, k, io) == Lookup(m, k)
    ensures var db := MaybeFlushOne(s, k, io).state.db;
            k !in s.entries ==> Lookup(db, k) == Lookup(m, k)
    ensures k !in m ==> k !in s.entries
  {
    MaybeFlushRefines(s, k, io, m, width);
    var t := MaybeFlushOne(s, k, io).state;
    assert DC.Pends(k, Pending(t, k), Lookup(t.db, k), Lookup(m, k), width);
  }

  // The operations that flush one key first write nothing else.
  lemma ComputeOnWrites(imm: bool, s: State, k: Key, cur: Option<Row>, f: Callback)
    ensures ComputeOn(imm, s, k, cur, f).state.db == s.db
  {
  }

  lemma ComputeWrites(imm: bool, s: State, k: Key, f: Callback, io: Io)
    ensures ComputeStep(imm, s, k, f, io).state.db == MaybeFlushOne(s, k, io).state.db
  {
    var t := MaybeFlushOne(s, k, io).state;
    ComputeOnWrites(imm, t, k, if k in t.entries then Some(t.entries[k]) else Lookup(t.db, k), f);
  }

  lemma ComputeMoves(imm: bool, s: State, k: Key, f: Callback, io: Io, m: Rows, width: nat, p: Key)
    requires Refines(s, m, width)
    ensures ComputeStep(imm, s, k, f, io).state.db == MaybeFlushOne(s, k, io).state.db
    ensures RowMoves(s.db, ComputeStep(imm, s, k, f, io).state.db, m, p)
  {
    ComputeWrites(imm, s, k, f, io);
    if k !in s.entries {
      FlushMoves(s, {k}, true, io, m, width, p);
    }
  }

  lemma ComputeOpMoves(imm: bool, s: State, op: Op, io: Io, m: Rows, width: nat, p: Key)
    requires Refines(s, m, width) && (op.Get? || op.Compute? || op.Delete?)
    ensures RowMoves(s.db, Step(imm, s, op, io).state.db, m, p)
  {
    var f := if op.Get? then KeepIt else if op.Compute? then op.f else RemoveIfAny;
    ComputeMoves(imm, s, op.key, f, io, m, width, p);
  }

  lemma FlushOpMoves(imm: bool, s: State, op: Op, io: Io, m: Rows, width: nat, p: Key)
    requires Refines(s, m, width) && (op.GetOrInsert? || op.Flush? || op.FlushMany? || op.FlushOne?)
    ensures RowMoves(s.db, Step(imm, s, op, io).state.db, m, p)
  {
    var keys := if op.Flush? then s.pool.Keys else if op.FlushMany? then set k | k in op.keys else {op.key};
    FlushMoves(s, keys, op.GetOrInsert? || op.FlushOne?, io, m, width, p);
  }

  lemma StepMoves(imm: bool, s: State, op: Op, io: Io, m: Rows, width: nat, p: Key)
    requires Refines(s, m, width)
    ensures RowMoves(s.db, Step(imm, s, op, io).state.db, m, p)
  {
    if op.Get? || op.Compute? || op.Delete? {
      ComputeOpMoves(imm, s, op, io, m, width, p);
    } else if op.GetOrInsert? || op.Flush? || op.FlushMany? || op.FlushOne? {
      FlushOpMoves(imm, s, op, io, m, width, p);
    }
  }

  // Moving rows to the backend keeps secondary keys stable and distinct.
  lemma MovedKeys(db: Rows, db': Rows, m: Rows, p: Key, q: Key)
    requires StableAt(db, m, p) && DistinctAt(db, m, p, q)
    requires RowMoves(db, db', m, p) && RowMoves(db, db', m, q)
    ensures StableAt(db', m, p) && DistinctAt(db', m, p, q)
    ensures SecondaryAt(db', m, p).Some? ==> SecondaryAt(db', m, p) == SecondaryAt(db, m, p)
  {
    assert Lookup(db', p) == Lookup(db, p) ==> (p in db' <==> p in db);
    assert Lookup(db', q) == Lookup(db, q) ==> (q in db' <==> q in db);
    assert Lookup(db', p) == Lookup(m, p) ==> (p in db' <==> p in m);
    assert Lookup(db', q) == Lookup(m, q) ==> (q in db' <==> q in m);
  }

  // The plain map changes at one key: the record keeps its secondary key, is new with one of its own, or leaves.
  ghost predicate ChangesAt(db: Rows, m: Rows, m': Rows, k: Key) {
    && (forall j :: j != k ==> Lookup(m', j) == Lookup(m, j))
    && (k in m' && k in m ==> SecondaryOf(m'[k]) == SecondaryOf(m[k]))
    && (k in m' && k !in m ==>
          k !in db && forall p :: p != k ==> SecondaryAt(db, m, p) != Some(SecondaryOf(m'[k])))
  }

  lemma ChangedKeys(db: Rows, m: Rows, m': Rows, k: Key, p: Key, q: Key)
    requires ChangesAt(db, m, m', k)
    requires StableAt(db, m, p) && StableAt(db, m, q) && DistinctAt(db, m, p, q) && DistinctAt(db, m, q, p)
    ensures StableAt(db, m', p) && DistinctAt(db, m', p, q)
  {
    assert p != k ==> Lookup(m', p) == Lookup(m, p);
    assert q != k ==> Lookup(m', q) == Lookup(m, q);
  }

  // From the invariant before a step to the invariant after it.
  lemma StaysCoherent(x: Indexed, t: State, links: map<Key, Key>, m: Rows, m': Rows, k: Key, width: nat)
    requires Coherent(x, m, width) && Refines(t, m', width)
    requires forall p :: RowMoves(x.s.db, t.db, m, p)
    requires ChangesAt(t.db, m, m', k)
    requires forall e :: e in links ==> e in x.links && links[e] == x.links[e]
    requires forall e :: e in links && links[e] == k ==> k in m'
    ensures Coherent(Indexed(t, links), m', width)
  {
    forall p, q ensures StableAt(t.db, m', p) && DistinctAt(t.db, m', p, q) {
      KeysStay(x, t, m, m', k, p, q, width);
    }
    forall p ensures StableAt(t.db, m', p) {
      KeysStay(x, t, m, m', k, p, p, width);
    }
    forall e ensures LinkOk(Indexed(t, links), m', e) {
      assert LinkOk(x, m, e);
      if e in links && links[e] != k {
        assert Lookup(m', links[e]) == Lookup(m, links[e]);
      }
    }
  }

  lemma KeysStay(x: Indexed, t: State, m: Rows, m': Rows, k: Key, p: Key, q: Key, width: nat)
    requires Coherent(x, m, width) && ChangesAt(t.db, m, m', k)
    requires forall j :: RowMoves(x.s.db, t.db, m, j)
    ensures StableAt(t.db, m', p) && DistinctAt(t.db, m', p, q)
  {
    assert StableAt(x.s.db, m, p) && DistinctAt(x.s.db, m, p, q);
    assert StableAt(x.s.db, m, q) && DistinctAt(x.s.db, m, q, p);
    assert RowMoves(x.s.db, t.db, m, p) && RowMoves(x.s.db, t.db, m, q);
    MovedKeys(x.s.db, t.db, m, p, q);
    MovedKeys(x.s.db, t.db, m, q, p);
    ChangedKeys(t.db, m, m', k, p, q);
  }

  // A new record's secondary key is still its own once rows have moved to the backend.
  lemma StillNew(x: Indexed, db': Rows, m: Rows, k: Key, row: Row, width: nat)
    requires Coherent(x, m, width) && NewKeyFor(x, m, k, row) && forall p :: RowMoves(x.s.db, db', m, p)
    ensures forall p :: p != k ==> SecondaryAt(db', m, p) != Some(SecondaryOf(row))
  {
    forall p | p != k ensures SecondaryAt(db', m, p) != Some(SecondaryOf(row)) {
      assert StableAt(x.s.db, m, p) && DistinctAt(x.s.db, m, p, p) && RowMoves(x.s.db, db', m, p);
      MovedKeys(x.s.db, db', m, p, p);
    }
  }

  lemma PrimaryMoves(imm: bool, x: Indexed, op: Op, io: Io, m: Rows, width: nat)
    requires Coherent(x, m, width) && Lawful(imm, x, m, Primary(op), width)
    ensures forall p :: RowMoves(x.s.db, Step(imm, x.s, op, io).state.db, m, p)
  {
    var r := Step(imm, x.s, op, io);
    forall p ensures RowMoves(x.s.db, r.state.db, m, p) {
      StepMoves(imm, x.s, op, io, m, width, p);
    }
  }

  // A record that comes into being had no row.
  lemma PrimaryNew(imm: bool, s: State, op: Op, io: Io, m: Rows, width: nat)
    requires Refines(s, m, width) && Subject(op) !in m && Subject(op) in PlainStep(m, op)
    requires op.Insert? ==> Subject(op) !in s.db
    requires Step(imm, s, op, io).reply != Failed
    ensures Subject(op) !in Step(imm, s, op, io).state.db
  {
    match op
    case Compute(k, f) =>
      ReadyRow(s, k, io, m, width);
      ComputeMoves(imm, s, k, f, io, m, width, k);
    case GetOrInsert(k, _) => ReadyRow(s, k, io, m, width);
    case _ =>
  }

  lemma PrimaryChanges(imm: bool, x: Indexed, op: Op, io: Io, m: Rows, width: nat)
    requires Coherent(x, m, width) && Lawful(imm, x, m, Primary(op), width)
    ensures var r := Step(imm, x.s, op, io);
            ChangesAt(r.state.db, m, if r.reply == Failed then m else PlainStep(m, op), Subject(op))
  {
    var r := Step(imm, x.s, op, io);
    var m' := if r.reply == Failed then m else PlainStep(m, op);
    var k := Subject(op);
    PrimaryMoves(imm, x, op, io, m, width);
    if k in m' && k !in m {
      StillNew(x, r.state.db, m, k, m'[k], width);
      PrimaryNew(imm, x.s, op, io, m, width);
    }
  }

  // A removed record takes its link with it.
  lemma PrimaryUnlinks(imm: bool, x: Indexed, op: Op, io: Io, m: Rows, width: nat, e: Key)
    requires Coherent(x, m, width) && e in x.links && x.links[e] == Subject(op)
    ensures var r := Step(imm, x.s, op, io);
            var m' := if r.reply == Failed then m else PlainStep(m, op);
            e !in Unlinked(imm, x.s, op, io) ==> Subject(op) in m'
  {
    var k := Subject(op);
    assert LinkOk(x, m, e);
    match op
    case Delete(_) =>
      if DeleteStep(imm, x.s, k, io).reply != Failed {
        ReadyRow(x.s, k, io, m, width);
      }
    case Compute(_, f) =>
      if ComputeStep(imm, x.s, k, f, io).reply != Failed {
        ReadyRow(x.s, k, io, m, width);
      }
    case _ =>
  }

  // And it takes no other link: an operation by primary key removes exactly the links to records that are gone.
  lemma LinksKept(imm: bool, x: Indexed, op: Op, io: Io, m: Rows, width: nat, e: Key)
    requires Coherent(x, m, width) && !op.Invalidate?
    ensures var r := React(imm, x, Primary(op), io);
            && (e in r.state.links <==> e in x.links && x.links[e] in PlainReact(m, Primary(op), r.reply))
            && (e in r.state.links ==> r.state.links[e] == x.links[e])
  {
    if e in x.links {
      assert LinkOk(x, m, e);
      if e in Unlinked(imm, x.s, op, io) {
        UnlinkedIsGone(imm, x, op, io, m, width, e);
      } else if x.links[e] == Subject(op) {
        PrimaryUnlinks(imm, x, op, io, m, width, e);
      }
    }
  }

  lemma UnlinkedIsGone(imm: bool, x: Indexed, op: Op, io: Io, m: Rows, width: nat, e: Key)
    requires Coherent(x, m, width) && !op.Invalidate? && e in x.links && e in Unlinked(imm, x.s, op, io)
    ensures Step(imm, x.s, op, io).reply != Failed && x.links[e] !in PlainStep(m, op)
  {
    var k := Subject(op);
    assert LinkOk(x, m, e) && DistinctAt(x.s.db, m, x.links[e], k);
    match op
    case Delete(_) => ReadyRow(x.s, k, io, m, width);
    case Compute(_, f) => ReadyRow(x.s, k, io, m, width);
    case _ =>
  }

  lemma PrimaryKeeps(imm: bool, x: Indexed, op: Op, io: Io, m: Rows, width: nat)
    requires Coherent(x, m, width) && Lawful(imm, x, m, Primary(op), width)
    ensures var r := React(imm, x, Primary(op), io);
            Coherent(r.state, PlainReact(m, Primary(op), r.reply), width)
  {
    var r := Step(imm, x.s, op, io);
    var m' := if r.reply == Failed then m else PlainStep(m, op);
    StepRefinesFor(imm, x.s, op, io, m, width);
    PrimaryChanges(imm, x, op, io, m, width);
    forall p ensures RowMoves(x.s.db, r.state.db, m, p) {
      StepMoves(imm, x.s, op, io, m, width, p);
    }
    var links := x.links - Unlinked(imm, x.s, op, io);
    forall e | e in links && links[e] == Subject(op) ensures Subject(op) in m' {
      PrimaryUnlinks(imm, x, op, io, m, width, e);
    }
    StaysCoherent(x, r.state, links, m, m', Subject(op), width);
  }

  // A read by secondary key changes no link but its own.
  lemma OtherLinksStay(imm: bool, x: Indexed, e: Key, io: Io, d: Key)
    requires d != e
    ensures Lookup(GetBySecondary(imm, x, e, io).state.links, d) == Lookup(x.links, d)
  {
  }

  // Reading by a secondary key: the record it leads to is read as it is by its primary key, and gets linked.
  lemma GetByKeeps(imm: bool, x: Indexed, e: Key, io: Io, m: Rows, width: nat)
    requires Coherent(x, m, width)
    ensures var r := GetBySecondary(imm, x, e, io);
            && Coherent(r.state, m, width)
            && (r.reply == Failed <==> Resolve(x, e).Some? && Unready(x.s, Resolve(x, e).value, io))
            && (r.reply != Failed ==>
                  r.reply == Found(if Resolve(x, e).None? then None else Lookup(m, Resolve(x, e).value)))
            && (r.reply.Found? && r.reply.value.Some? ==>
                  && e in r.state.links && r.state.links[e] == Resolve(x, e).value
                  && r.state.links[e] in r.state.s.entries)
            && (r.reply.Found? && r.reply.value.Some? ==> SecondaryOf(r.reply.value.value) == e)
  {
    var resolved := Resolve(x, e);
    if resolved.Some? {
      var p := resolved.value;
      ComputeRefines(imm, x.s, p, KeepIt, io, m, width);
      var r := ComputeStep(imm, x.s, p, KeepIt, io);
      forall q ensures RowMoves(x.s.db, r.state.db, m, q) {
        ComputeMoves(imm, x.s, p, KeepIt, io, m, width, q);
      }
      assert LinkOk(x, m, e) && StableAt(x.s.db, m, p);
      forall d | d in x.links ensures x.links[d] in m {
        assert LinkOk(x, m, d);
      }
      StaysCoherent(x, r.state, x.links, m, m, Null, width);
      if r.reply.Computed? && !r.reply.result.StillNone? {
        LinkAdded(Indexed(r.state, x.links), m, e, p, width);
      }
    }
  }

  lemma LinkAdded(x: Indexed, m: Rows, e: Key, p: Key, width: nat)
    requires Coherent(x, m, width) && p in m && SecondaryOf(m[p]) == e
    ensures Coherent(x.(links := x.links[e := p]), m, width)
  {
    var x' := x.(links := x.links[e := p]);
    forall d ensures LinkOk(x', m, d) {
      assert LinkOk(x, m, d);
    }
  }

  lemma EventKeeps(imm: bool, x: Indexed, e: Event, io: Io, m: Rows, width: nat)
    requires Coherent(x, m, width) && Lawful(imm, x, m, e, width)
    ensures var r := React(imm, x, e, io); Coherent(r.state, PlainReact(m, e, r.reply), width)
  {
    match e
    case Primary(op) => PrimaryKeeps(imm, x, op, io, m, width);
    case GetBy(key) => GetByKeeps(imm, x, key, io, m, width);
    case DropLink(key) =>
      var x' := x.(links := x.links - {key});
      forall d ensures LinkOk(x', m, d) {
        assert LinkOk(x, m, d);
      }
  }

  // A read by secondary key finds an existing record exactly when the record has been linked or is in the backend: a
  // new record that is still waiting in the pool is missed.
  lemma GetByExact(imm: bool, x: Indexed, p: Key, m: Rows, width: nat)
    requires Coherent(x, m, width) && p in m
    ensures var e := SecondaryOf(m[p]);
            GetBySecondary(imm, x, e, Io(true, true)).reply == Found(Some(m[p])) <==> e in x.links || p in x.s.db
  {
    var e := SecondaryOf(m[p]);
    GetByKeeps(imm, x, e, Io(true, true), m, width);
    assert LinkOk(x, m, e) && StableAt(x.s.db, m, p);
    if e in x.links {
      assert DistinctAt(x.s.db, m, p, x.links[e]);
    } else if Resolve(x, e).Some? {
      var q := Resolve(x, e).value;
      assert StableAt(x.s.db, m, q) && DistinctAt(x.s.db, m, p, q);
    }
  }

  // ---- Runs.

  type Run = seq<(Event, Io)>

  ghost function StateAfter(imm: bool, x: Indexed, run: Run): Indexed
    decreases |run|
  {
    if run == [] then x else StateAfter(imm, React(imm, x, run[0].0, run[0].1).state, run[1..])
  }

  ghost function PlainAfter(imm: bool, x: Indexed, m: Rows, run: Run): Rows
    decreases |run|
  {
    if run == [] then m
    else
      var r := React(imm, x, run[0].0, run[0].1);
      PlainAfter(imm, r.state, PlainReact(m, run[0].0, r.reply), run[1..])
  }

  ghost predicate AllLawful(imm: bool, x: Indexed, m: Rows, run: Run, width: nat)
    decreases |run|
  {
    run == [] ||
    (Lawful(imm, x, m, run[0].0, width) &&
     var r := React(imm, x, run[0].0, run[0].1);
     AllLawful(imm, r.state, PlainReact(m, run[0].0, r.reply), run[1..], width))
  }

  lemma {:induction false} RunKeeps(imm: bool, x: Indexed, m: Rows, run: Run, width: nat)
    requires Coherent(x, m, width) && AllLawful(imm, x, m, run, width)
    ensures Coherent(StateAfter(imm, x, run), PlainAfter(imm, x, m, run), width)
    decreases |run|
  {
    if run != [] {
      EventKeeps(imm, x, run[0].0, run[0].1, m, width);
      var r := React(imm, x, run[0].0, run[0].1);
      RunKeeps(imm, r.state, PlainReact(m, run[0].0, r.reply), run[1..], width);
    }
  }

  // In every reachable state each link leads to a record with this secondary key, and reading through the link is
  // reading through the primary key.
  lemma {:induction false} LinksAreTrue(imm: bool, db: Rows, run: Run, e: Key, io: Io, width: nat)
    requires forall k :: k in db ==> Fits(k, db[k], width)
    requires forall p, q :: p in db && q in db && p != q ==> SecondaryOf(db[p]) != SecondaryOf(db[q])
    requires AllLawful(imm, Indexed(Opened(db), map[]), db, run, width)
    ensures var x := StateAfter(imm, Indexed(Opened(db), map[]), run);
            var m := PlainAfter(imm, Indexed(Opened(db), map[]), db, run);
            e in x.links ==>
              && x.links[e] in m && SecondaryOf(m[x.links[e]]) == e
              && View(x.s, x.links[e]) == Some(m[x.links[e]])
              && (GetBySecondary(imm, x, e, io).reply != Failed ==>
                    GetBySecondary(imm, x, e, io).reply == Found(View(x.s, x.links[e])))
  {
    var start := Indexed(Opened(db), map[]);
    OpenedRefines(db, width);
    forall p, q ensures DistinctAt(db, db, p, q) {
    }
    forall p ensures StableAt(db, db, p) && LinkOk(start, db, p) {
    }
    RunKeeps(imm, start, db, run, width);
    var x, m := StateAfter(imm, start, run), PlainAfter(imm, start, db, run);
    assert LinkOk(x, m, e);
    GetByKeeps(imm, x, e, io, m, width);
    if e in x.links {
      var p := x.links[e];
      assert DC.Pends(p, Pending(x.s, p), Lookup(x.s.db, p), Lookup(m, p), width);
    }
  }
}
