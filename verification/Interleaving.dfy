/** The pool under concurrency, one lock operation at a time: any number of threads change records, run batch
    flushes and run single flushes.  A step is what the original does between two points where another thread may
    come in.  The locks, the handles and the steps are those of the code; `truth`, `commits` and `clears` are
    history that no step looks at. */
module Interleaving {
  import opened Records
  import opened Backend
  import DC = DataController

  // The identity of a shared record; a record serves one key.
  datatype Id = Id(key: Key, serial: nat)

  type Tid = nat

  datatype Stage = Collecting | Committed | Confirmed | Purified

  datatype Thread =
    | Idle
    // A changing thread: it has a handle to the record; it holds the lock while the controller is asked.
    | Asking(id: Id) | Changing(id: Id) | Changed(id: Id, drop: bool)
    // The controller has answered `Drop`: the pool entry is still to be removed, without the lock.
    | Dropping(id: Id)
    // A single flush with its handle, waiting for the lock.
    | Waiting(id: Id)
    // A write-back: a single flush keeps its handle in `pin`, a batch visits `keys`.
    | Flushing(pin: Option<Id>, keys: seq<Key>, next: nat, held: set<Id>, stage: Stage)

  datatype State = State(
    pool: map<Key, Id>,
    data: map<Id, Option<CacheUpdate>>,
    locks: map<Id, Tid>,
    threads: map<Tid, Thread>,
    db: Rows,
    truth: Rows,
    commits: map<Id, nat>,
    clears: map<Id, nat>)

  datatype Change = New(value: Row) | Change(value: Row, prior: Row) | Access | Remove

  datatype Action =
    | FetchOld(key: Key)
    | FetchNew(id: Id)
    | LockRecord
    | Ask(change: Change)
    | Reinsert
    | DropEntry
    | StartBatch(keys: seq<Key>)
    | Next
    | Reset
    | Commit
    | Confirm
    | Purify
    | Release
    | StartSingle(key: Key)
    | LockSingle

  function ThreadOf(s: State, t: Tid): Thread {
    if t in s.threads then s.threads[t] else Idle
  }

  function Locks(th: Thread): set<Id> {
    match th
    case Changing(id) => {id}
    case Flushing(_, _, _, held, _) => held
    case _ => {}
  }

  function Handles(th: Thread): set<Id> {
    match th
    case Idle => {}
    case Flushing(pin, _, _, _, _) => if pin.Some? then {pin.value} else {}
    case _ => {th.id}
  }

  predicate Pooled(s: State, id: Id) {
    id.key in s.pool && s.pool[id.key] == id
  }

  // The strong count of a pooled record is above one: some thread has a handle.
  predicate Shared(s: State, id: Id) {
    exists t :: t in s.threads && id in Handles(s.threads[t])
  }

  function Pending(s: State, k: Key): Option<CacheUpdate> {
    if k in s.pool then Content(s, s.pool[k]) else None
  }

  function Content(s: State, id: Id): Option<CacheUpdate> {
    if id in s.data then s.data[id] else None
  }

  // How often a record has been written, and cleared.
  function Writes(s: State, id: Id): nat {
    if id in s.commits then s.commits[id] else 0
  }

  function Clears(s: State, id: Id): nat {
    if id in s.clears then s.clears[id] else 0
  }

  // ---- The controller's answers.

  function Answer(imm: bool, c: Change, prev: Option<CacheUpdate>): Option<CacheUpdate> {
    match c
    case New(v) => DC.OnNew(imm, v).update
    case Change(v, prior) =>
      var a := DC.OnChange(imm, v, prior, prev);
      if a.Answered? then a.response.update else None
    case Access => prev
    case Remove => DC.OnDelete(imm, prev).update
  }

  function PlainChange(truth: Rows, k: Key, c: Change): Rows {
    match c
    case New(v) => truth[k := v]
    case Change(v, _) => truth[k := v]
    case Access => truth
    case Remove => truth - {k}
  }

  predicate DropsIt(imm: bool, c: Change, prev: Option<CacheUpdate>) {
    c.Remove? && DC.OnDelete(imm, prev).op == DC.Drop
  }

  // What callers respect: a new record has no backend row and a change starts from the current record.
  predicate Lawful(imm: bool, s: State, k: Key, c: Change, width: nat) {
    match c
    case New(v) => Fits(k, v, width) && k !in s.db
    case Change(v, prior) => Fits(k, v, width) && Lookup(s.truth, k) == Some(prior)
    case Access => true
    case Remove => true
  }

  // A guard that still relies on the pool entry: purification will look it up.
  predicate Guards(th: Thread, id: Id) {
    th.Flushing? && id in th.held && th.stage != Purified
  }

  // Nothing in the record waits to be written.
  predicate NothingWaits(s: State, id: Id) {
    Content(s, id).None? || (Content(s, id) == Some(Delete) && id.key !in s.db)
  }

  // What the removal of a dropped entry needs: no other thread has come to rely on the record since the controller
  // answered, and nothing new waits in it.
  predicate DropSafe(s: State, t: Tid)
    requires ThreadOf(s, t).Dropping?
  {
    var id := ThreadOf(s, t).id;
    && (forall u :: u in s.threads && u != t ==> id !in Handles(s.threads[u]) && !Guards(s.threads[u], id))
    && NothingWaits(s, id)
  }

  // ---- The steps.

  // The records a write-back holds, by key.
  function BatchOf(s: State, held: set<Id>): Batch {
    map k | k in (set id | id in held :: id.key) && k in s.pool && s.pool[k] in held && Pending(s, k).Some? ::
      Pending(s, k).value
  }

  // Can thread `t` take this step now?
  predicate Enabled(s: State, t: Tid, a: Action) {
    var th := ThreadOf(s, t);
    match a
    case FetchOld(k) => th.Idle? && k in s.pool
    case FetchNew(id) => th.Idle? && id.key !in s.pool && id !in s.data
    case LockRecord => th.Asking? && th.id !in s.locks
    case Ask(_) => th.Changing?
    case Reinsert => th.Changed?
    case DropEntry => th.Dropping?
    case StartBatch(_) => th.Idle?
    case Next => th.Flushing? && th.stage == Collecting && th.next < |th.keys|
    case Reset => th.Flushing? && th.stage == Collecting && th.pin.None?
    case Commit => th.Flushing? && th.stage == Collecting && th.next >= |th.keys|
    case Confirm => th.Flushing? && th.stage == Committed
    case Purify => th.Flushing? && th.stage == Confirmed
    case Release => th.Flushing? && (th.stage == Collecting || th.stage == Purified)
    case StartSingle(k) => th.Idle? && k in s.pool
    case LockSingle => th.Waiting? && th.id !in s.locks
  }

  // The next visit of a batch: an immediate lock attempt on the record pooled under the key.
  function Visit(s: State, t: Tid, th: Thread): State
    requires th.Flushing? && th.next < |th.keys|
  {
    var k := th.keys[th.next];
    var next := th.(next := th.next + 1);
    if k !in s.pool || s.pool[k] in s.locks || Pending(s, k).None? then s.(threads := s.threads[t := next])
    else
      var id := s.pool[k];
      s.(locks := s.locks[id := t], threads := s.threads[t := next.(held := th.held + {id})])
  }

  // Purification looks each held record up by its key, and would panic without it.
  predicate LookupFails(s: State, t: Tid) {
    var th := ThreadOf(s, t);
    th.Flushing? && exists id :: id in th.held && id.key !in s.pool
  }

  function Removable(s: State, held: set<Id>): set<Key> {
    set id | id in held && id.key in s.pool && !Shared(s, s.pool[id.key]) && id in s.data && s.data[id].None? :: id.key
  }

  function Do(imm: bool, s: State, t: Tid, a: Action): State
    requires Enabled(s, t, a)
  {
    var th := ThreadOf(s, t);
    match a
    case FetchOld(k) => s.(threads := s.threads[t := Asking(s.pool[k])])
    case FetchNew(id) =>
      s.(pool := s.pool[id.key := id], data := s.data[id := None], threads := s.threads[t := Asking(id)],
         commits := s.commits[id := 0], clears := s.clears[id := 0])
    case LockRecord => s.(locks := s.locks[th.id := t], threads := s.threads[t := Changing(th.id)])
    case Ask(c) =>
      var prev := if th.id in s.data then s.data[th.id] else None;
      s.(data := s.data[th.id := Answer(imm, c, prev)], truth := PlainChange(s.truth, th.id.key, c),
         locks := s.locks - {th.id}, threads := s.threads[t := Changed(th.id, DropsIt(imm, c, prev))])
    case Reinsert =>
      s.(pool := s.pool[th.id.key := th.id], threads := s.threads[t := if th.drop then Dropping(th.id) else Idle])
    case DropEntry => s.(pool := s.pool - {th.id.key}, threads := s.threads[t := Idle])
    case StartBatch(keys) => s.(threads := s.threads[t := Flushing(None, keys, 0, {}, Collecting)])
    case Next => Visit(s, t, th)
    case Reset => s.(locks := s.locks - th.held, threads := s.threads[t := th.(next := 0, held := {})])
    case Commit =>
      s.(db := Written(s.db, BatchOf(s, th.held)), threads := s.threads[t := th.(stage := Committed)],
         commits := map id | id in s.commits :: s.commits[id] + if id in th.held then 1 else 0)
    case Confirm =>
      s.(data := map id | id in s.data :: if id in th.held then None else s.data[id],
         threads := s.threads[t := th.(stage := Confirmed)],
         clears := map id | id in s.clears :: s.clears[id] + if id in th.held then 1 else 0)
    case Purify => s.(pool := s.pool - Removable(s, th.held), threads := s.threads[t := th.(stage := Purified)])
    case Release => s.(locks := s.locks - th.held, threads := s.threads[t := Idle])
    case StartSingle(k) => s.(threads := s.threads[t := Waiting(s.pool[k])])
    case LockSingle =>
      if th.id in s.data && s.data[th.id].Some? then
        s.(locks := s.locks[th.id := t], threads := s.threads[t := Flushing(Some(th.id), [], 0, {th.id}, Collecting)])
      else s.(threads := s.threads[t := Idle])
  }

  // ---- The invariant, one record, thread or key at a time.

  predicate SlotOk(s: State, k: Key) {
    k in s.pool ==> s.pool[k].key == k && s.pool[k] in s.data
  }

  // A record that is no longer pooled holds nothing, or the deletion of a row that never was: no change is lost.
  predicate RecordOk(s: State, id: Id) {
    && (id in s.data && !Pooled(s, id) ==> s.data[id].None? || s.data[id] == Some(Delete))
    && (id in s.data <==> id in s.commits) && (id in s.data <==> id in s.clears)
    && (id in s.locks ==> id in s.data)
  }

  // A lock is held by exactly the thread that thinks so.
  predicate LockOk(s: State, t: Tid, id: Id) {
    id in Locks(ThreadOf(s, t)) <==> id in s.locks && s.locks[id] == t
  }

  // A handle keeps its record in the pool, and so does a guard until purification.  A write-back holds data until it
  // confirms, and none afterwards.
  predicate GripOk(s: State, th: Thread, id: Id) {
    && (id in Handles(th) ==> Pooled(s, id))
    && (th.Flushing? && th.pin.Some? ==> th.held == {th.pin.value} && th.keys == [])
    && (th.Flushing? && id in th.held ==>
          && (th.stage != Purified ==> Pooled(s, id))
          && id in s.data && (s.data[id].Some? <==> th.stage == Collecting || th.stage == Committed))
  }

  predicate Committing(th: Thread) {
    th.Flushing? && th.stage == Committed
  }

  // Written to the backend, not yet cleared.
  predicate Unconfirmed(s: State, id: Id) {
    id in s.locks && Committing(ThreadOf(s, s.locks[id]))
  }

  // The key reads as the plain record: through its pending update, or already from the backend.
  ghost predicate Reads(s: State, k: Key, width: nat) {
    DC.Pends(k, if k in s.pool && Unconfirmed(s, s.pool[k]) then None else Pending(s, k),
             Lookup(s.db, k), Lookup(s.truth, k), width)
  }

  // A record is cleared once for each time it is written, and never before.
  predicate CountOk(s: State, id: Id) {
    id in s.commits && id in s.clears ==> s.commits[id] == s.clears[id] + if Unconfirmed(s, id) then 1 else 0
  }

  ghost predicate Inv(s: State, width: nat) {
    && (forall k :: SlotOk(s, k))
    && (forall id :: RecordOk(s, id))
    && (forall t, id :: LockOk(s, t, id))
    && (forall t, id :: GripOk(s, ThreadOf(s, t), id))
    && (forall k :: Reads(s, k, width))
    && (forall id :: CountOk(s, id))
  }

  // ---- Every step keeps the invariant.

  lemma Moved(s: State, s': State, t: Tid)
    requires t in s'.threads && s'.threads == s.threads[t := s'.threads[t]]
    ensures forall u :: ThreadOf(s', u) == if u == t then s'.threads[t] else ThreadOf(s, u)
  {
  }

  // The lock of `id` is what it must be when `t` holds the locks of `th`; none is taken from another thread.
  predicate LockMoves(s: State, t: Tid, th: Thread, s': State, id: Id) {
    && (id in Locks(th) ==> (id in s.locks ==> s.locks[id] == t) && id in s'.locks && s'.locks[id] == t)
    && (id !in Locks(th) ==>
          && (id in s'.locks <==> id in s.locks && s.locks[id] != t)
          && (id in s'.locks ==> s'.locks[id] == s.locks[id]))
  }

  // Steps in which a thread takes or lets go locks and handles, and no record, row or pool entry changes.
  lemma Regrip(s: State, t: Tid, th: Thread, s': State, width: nat)
    requires Inv(s, width) && s' == s.(locks := s'.locks, threads := s.threads[t := th])
    requires forall id :: LockMoves(s, t, th, s', id) && GripOk(s, th, id)
    requires !Committing(th) && !Committing(ThreadOf(s, t))
    ensures Inv(s', width)
  {
    Moved(s, s', t);
    forall u, id ensures LockOk(s', u, id) && GripOk(s', ThreadOf(s', u), id) {
      assert LockOk(s, u, id) && GripOk(s, ThreadOf(s, u), id) && GripOk(s, th, id) && LockMoves(s, t, th, s', id);
    }
    forall id ensures RecordOk(s', id) && CountOk(s', id) && (Unconfirmed(s', id) <==> Unconfirmed(s, id)) {
      assert RecordOk(s, id) && CountOk(s, id) && LockMoves(s, t, th, s', id);
      assert GripOk(s, th, id) && SlotOk(s, id.key);
    }
    forall k ensures SlotOk(s', k) && Reads(s', k, width) {
      assert SlotOk(s, k) && Reads(s, k, width);
    }
  }

  // Who holds a lock also has a grip on the record, and nobody else has the lock.
  lemma Holder(s: State, t: Tid, id: Id, width: nat)
    requires Inv(s, width)
    ensures id in s.locks ==> id in Locks(ThreadOf(s, s.locks[id])) && GripOk(s, ThreadOf(s, s.locks[id]), id)
    ensures id in Locks(ThreadOf(s, t)) ==> id in s.locks && s.locks[id] == t
    ensures GripOk(s, ThreadOf(s, t), id) && RecordOk(s, id) && CountOk(s, id) && SlotOk(s, id.key)
  {
    assert LockOk(s, t, id);
    assert id in s.locks ==> LockOk(s, s.locks[id], id);
  }

  lemma FetchOldKeeps(imm: bool, s: State, t: Tid, k: Key, width: nat)
    requires Inv(s, width) && Enabled(s, t, Action.FetchOld(k))
    ensures Inv(Do(imm, s, t, Action.FetchOld(k)), width)
  {
    var th := ThreadOf(s, t);
    var s' := Do(imm, s, t, Action.FetchOld(k));
    assert SlotOk(s, k);
    forall id ensures LockMoves(s, t, s'.threads[t], s', id) && GripOk(s, s'.threads[t], id) {
      assert GripOk(s, th, id) && LockOk(s, t, id);
    }
    Regrip(s, t, s'.threads[t], s', width);
  }

  lemma LockRecordKeeps(imm: bool, s: State, t: Tid, width: nat)
    requires Inv(s, width) && Enabled(s, t, Action.LockRecord)
    ensures Inv(Do(imm, s, t, Action.LockRecord), width)
  {
    var th := ThreadOf(s, t);
    var s' := Do(imm, s, t, Action.LockRecord);
    forall id ensures LockMoves(s, t, s'.threads[t], s', id) && GripOk(s, s'.threads[t], id) {
      assert GripOk(s, th, id) && LockOk(s, t, id);
    }
    Regrip(s, t, s'.threads[t], s', width);
  }

  lemma StartBatchKeeps(imm: bool, s: State, t: Tid, keys: seq<Key>, width: nat)
    requires Inv(s, width) && Enabled(s, t, Action.StartBatch(keys))
    ensures Inv(Do(imm, s, t, Action.StartBatch(keys)), width)
  {
    var th := ThreadOf(s, t);
    var s' := Do(imm, s, t, Action.StartBatch(keys));
    forall id ensures LockMoves(s, t, s'.threads[t], s', id) && GripOk(s, s'.threads[t], id) {
      assert GripOk(s, th, id) && LockOk(s, t, id);
    }
    Regrip(s, t, s'.threads[t], s', width);
  }

  lemma NextKeeps(imm: bool, s: State, t: Tid, width: nat)
    requires Inv(s, width) && Enabled(s, t, Action.Next)
    ensures Inv(Do(imm, s, t, Action.Next), width)
  {
    var th := ThreadOf(s, t);
    var s' := Do(imm, s, t, Action.Next);
    var k := th.keys[th.next];
    assert SlotOk(s, k);
    var taken := if k in s.pool && s.pool[k] !in s.locks && Pending(s, k).Some? then {s.pool[k]} else {};
    assert taken == {} ==> th.held + taken == th.held;
    var th' := th.(next := th.next + 1, held := th.held + taken);
    forall id ensures LockMoves(s, t, th', s', id) && GripOk(s, th', id) {
      assert GripOk(s, th, id) && LockOk(s, t, id);
    }
    Regrip(s, t, th', s', width);
  }

  lemma ResetKeeps(imm: bool, s: State, t: Tid, width: nat)
    requires Inv(s, width) && Enabled(s, t, Action.Reset)
    ensures Inv(Do(imm, s, t, Action.Reset), width)
  {
    var th := ThreadOf(s, t);
    var s' := Do(imm, s, t, Action.Reset);
    forall id ensures LockMoves(s, t, s'.threads[t], s', id) && GripOk(s, s'.threads[t], id) {
      assert GripOk(s, th, id) && LockOk(s, t, id);
    }
    Regrip(s, t, s'.threads[t], s', width);
  }

  lemma ReleaseKeeps(imm: bool, s: State, t: Tid, width: nat)
    requires Inv(s, width) && Enabled(s, t, Action.Release)
    ensures Inv(Do(imm, s, t, Action.Release), width)
  {
    var th := ThreadOf(s, t);
    var s' := Do(imm, s, t, Action.Release);
    forall id ensures LockMoves(s, t, s'.threads[t], s', id) && GripOk(s, s'.threads[t], id) {
      assert GripOk(s, th, id) && LockOk(s, t, id);
    }
    Regrip(s, t, s'.threads[t], s', width);
  }

  lemma StartSingleKeeps(imm: bool, s: State, t: Tid, k: Key, width: nat)
    requires Inv(s, width) && Enabled(s, t, Action.StartSingle(k))
    ensures Inv(Do(imm, s, t, Action.StartSingle(k)), width)
  {
    var th := ThreadOf(s, t);
    var s' := Do(imm, s, t, Action.StartSingle(k));
    assert SlotOk(s, k);
    forall id ensures LockMoves(s, t, s'.threads[t], s', id) && GripOk(s, s'.threads[t], id) {
      assert GripOk(s, th, id) && LockOk(s, t, id);
    }
    Regrip(s, t, s'.threads[t], s', width);
  }

  // Putting the record into the pool again changes nothing: while a thread has a handle, its record is still there.
  lemma ReinsertKeeps(imm: bool, s: State, t: Tid, width: nat)
    requires Inv(s, width) && Enabled(s, t, Action.Reinsert)
    ensures Do(imm, s, t, Action.Reinsert).pool == s.pool
    ensures Inv(Do(imm, s, t, Action.Reinsert), width)
  {
    var th := ThreadOf(s, t);
    var s' := Do(imm, s, t, Action.Reinsert);
    assert GripOk(s, th, th.id);
    assert s'.pool == s.pool;
    forall id ensures LockMoves(s, t, s'.threads[t], s', id) && GripOk(s, s'.threads[t], id) {
      assert GripOk(s, th, id) && LockOk(s, t, id);
    }
    Regrip(s, t, s'.threads[t], s', width);
  }

  lemma LockSingleKeeps(imm: bool, s: State, t: Tid, width: nat)
    requires Inv(s, width) && Enabled(s, t, Action.LockSingle)
    ensures Inv(Do(imm, s, t, Action.LockSingle), width)
  {
    var th := ThreadOf(s, t);
    assert GripOk(s, th, th.id) && SlotOk(s, th.id.key);
    var th' := if s.data[th.id].Some? then Flushing(Some(th.id), [], 0, {th.id}, Collecting) else Idle;
    var s' := Do(imm, s, t, Action.LockSingle);
    forall id ensures LockMoves(s, t, th', s', id) && GripOk(s, th', id) {
      assert GripOk(s, th, id) && LockOk(s, t, id);
    }
    Regrip(s, t, th', s', width);
  }

  lemma FetchNewKeeps(imm: bool, s: State, t: Tid, id: Id, width: nat)
    requires Inv(s, width) && Enabled(s, t, Action.FetchNew(id))
    ensures Inv(Do(imm, s, t, Action.FetchNew(id)), width)
  {
    var s' := Do(imm, s, t, Action.FetchNew(id));
    Moved(s, s', t);
    Holder(s, t, id, width);
    forall u, x ensures LockOk(s', u, x) && GripOk(s', ThreadOf(s', u), x) {
      assert LockOk(s, u, x) && GripOk(s, ThreadOf(s, u), x);
    }
    forall x ensures RecordOk(s', x) && CountOk(s', x) {
      Holder(s, t, x, width);
    }
    forall j ensures SlotOk(s', j) && Reads(s', j, width) {
      assert SlotOk(s, j) && Reads(s, j, width);
    }
  }

  // A lawful change, whatever is pending: the key reads as the changed record.
  lemma AnswerPends(imm: bool, s: State, k: Key, c: Change, width: nat)
    requires Lawful(imm, s, k, c, width)
    requires DC.Pends(k, Pending(s, k), Lookup(s.db, k), Lookup(s.truth, k), width)
    ensures DC.Pends(k, Answer(imm, c, Pending(s, k)), Lookup(s.db, k), Lookup(PlainChange(s.truth, k, c), k), width)
  {
    match c
    case New(v) => DC.NewPends(imm, k, v, Lookup(s.db, k), width);
    case Change(v, prior) => DC.ChangePends(imm, k, v, prior, Pending(s, k), Lookup(s.db, k), width);
    case Access =>
    case Remove => DC.DeletePends(imm, k, Pending(s, k), Lookup(s.db, k), Lookup(s.truth, k), width);
  }

  lemma AskKeeps(imm: bool, s: State, t: Tid, c: Change, width: nat)
    requires Inv(s, width) && Enabled(s, t, Action.Ask(c)) && Lawful(imm, s, ThreadOf(s, t).id.key, c, width)
    ensures Inv(Do(imm, s, t, Action.Ask(c)), width)
  {
    var th := ThreadOf(s, t);
    var s' := Do(imm, s, t, Action.Ask(c));
    Moved(s, s', t);
    Holder(s, t, th.id, width);
    forall u, x ensures LockOk(s', u, x) && GripOk(s', ThreadOf(s', u), x) {
      assert LockOk(s, u, x) && LockOk(s, t, x) && GripOk(s, ThreadOf(s, u), x);
    }
    forall x ensures RecordOk(s', x) && CountOk(s', x) {
      Holder(s, t, x, width);
    }
    forall j ensures SlotOk(s', j) && Reads(s', j, width) {
      assert SlotOk(s, j) && Reads(s, j, width);
      if j == th.id.key {
        AnswerPends(imm, s, j, c, width);
      }
    }
  }

  // The commit writes the held records, and each of them was still to be written.
  lemma CommitKeeps(imm: bool, s: State, t: Tid, width: nat)
    requires Inv(s, width) && Enabled(s, t, Action.Commit)
    ensures Inv(Do(imm, s, t, Action.Commit), width)
  {
    var th := ThreadOf(s, t);
    var s' := Do(imm, s, t, Action.Commit);
    Moved(s, s', t);
    forall u, x ensures LockOk(s', u, x) && GripOk(s', ThreadOf(s', u), x) {
      assert LockOk(s, u, x) && GripOk(s, ThreadOf(s, u), x);
    }
    forall x ensures RecordOk(s', x) && CountOk(s', x) {
      Holder(s, t, x, width);
    }
    forall j ensures SlotOk(s', j) && Reads(s', j, width) {
      assert SlotOk(s, j) && Reads(s, j, width);
      WrittenRow(s.db, BatchOf(s, th.held), j);
      if j in s.pool {
        Holder(s, t, s.pool[j], width);
      }
    }
  }

  lemma ConfirmKeeps(imm: bool, s: State, t: Tid, width: nat)
    requires Inv(s, width) && Enabled(s, t, Action.Confirm)
    ensures Inv(Do(imm, s, t, Action.Confirm), width)
  {
    var th := ThreadOf(s, t);
    var s' := Do(imm, s, t, Action.Confirm);
    Moved(s, s', t);
    forall u, x ensures LockOk(s', u, x) && GripOk(s', ThreadOf(s', u), x) {
      assert LockOk(s, u, x) && LockOk(s, t, x) && GripOk(s, ThreadOf(s, u), x);
    }
    forall x ensures RecordOk(s', x) && CountOk(s', x) {
      Holder(s, t, x, width);
    }
    forall j ensures SlotOk(s', j) && Reads(s', j, width) {
      assert SlotOk(s, j) && Reads(s, j, width);
      if j in s.pool {
        Holder(s, t, s.pool[j], width);
      }
    }
  }

  // Purification removes only records without data that nobody else has a handle to, and its lookups do not fail.
  lemma PurifyKeeps(imm: bool, s: State, t: Tid, width: nat)
    requires Inv(s, width) && Enabled(s, t, Action.Purify)
    ensures !LookupFails(s, t)
    ensures Inv(Do(imm, s, t, Action.Purify), width)
    ensures forall id :: id in ThreadOf(s, t).held ==>
              (id.key in Do(imm, s, t, Action.Purify).pool <==> Shared(s, id))
    ensures forall k :: k in s.pool && s.pool[k] !in ThreadOf(s, t).held ==> k in Do(imm, s, t, Action.Purify).pool
  {
    var th := ThreadOf(s, t);
    var s' := Do(imm, s, t, Action.Purify);
    Moved(s, s', t);
    forall id | id in th.held ensures Pooled(s, id) && id in s.data && s.data[id].None? {
      assert GripOk(s, th, id);
    }
    forall u, x ensures LockOk(s', u, x) && GripOk(s', ThreadOf(s', u), x) {
      assert LockOk(s, u, x) && LockOk(s, t, x) && GripOk(s, ThreadOf(s, u), x);
    }
    forall x ensures RecordOk(s', x) && CountOk(s', x) {
      Holder(s, t, x, width);
    }
    forall j ensures SlotOk(s', j) && Reads(s', j, width) {
      assert SlotOk(s, j) && Reads(s, j, width);
    }
  }

  // Removing the entry of a dropped record.
  lemma DropKeeps(imm: bool, s: State, t: Tid, width: nat)
    requires Inv(s, width) && Enabled(s, t, DropEntry) && DropSafe(s, t)
    ensures Inv(Do(imm, s, t, DropEntry), width)
  {
    var id := ThreadOf(s, t).id;
    var s' := Do(imm, s, t, DropEntry);
    Moved(s, s', t);
    Holder(s, t, id, width);
    forall u, x ensures LockOk(s', u, x) && GripOk(s', ThreadOf(s', u), x) {
      assert LockOk(s, u, x) && GripOk(s, ThreadOf(s, u), x);
    }
    forall x ensures RecordOk(s', x) && CountOk(s', x) {
      Holder(s, t, x, width);
    }
    forall j ensures SlotOk(s', j) && Reads(s', j, width) {
      assert SlotOk(s, j) && Reads(s, j, width);
    }
  }

  // ... keeps the invariant exactly when no other thread has a handle to the record or a guard it has still to purify,
  // and nothing new waits in it.
  lemma DropExact(imm: bool, s: State, t: Tid, width: nat)
    requires Inv(s, width) && Enabled(s, t, DropEntry)
    ensures Inv(Do(imm, s, t, DropEntry), width) <==> DropSafe(s, t)
  {
    var id := ThreadOf(s, t).id;
    var s' := Do(imm, s, t, DropEntry);
    if DropSafe(s, t) {
      DropKeeps(imm, s, t, width);
    } else if Inv(s', width) {
      Moved(s, s', t);
      Holder(s, t, id, width);
      forall u | u in s.threads && u != t ensures id !in Handles(s.threads[u]) && !Guards(s.threads[u], id) {
        Relied(s', u, id, width);
      }
      Stranded(s, s', t, id, width);
    }
  }

  lemma Relied(s: State, u: Tid, id: Id, width: nat)
    requires Inv(s, width)
    ensures id in Handles(ThreadOf(s, u)) || Guards(ThreadOf(s, u), id) ==> Pooled(s, id)
  {
    assert GripOk(s, ThreadOf(s, u), id);
  }

  // A record that still has something to write is not seen through the backend.
  lemma Stranded(s: State, s': State, t: Tid, id: Id, width: nat)
    requires Inv(s, width) && Inv(s', width) && s' == s.(pool := s.pool - {id.key}, threads := s'.threads)
    requires Pooled(s, id) && !Committing(if id in s.locks then ThreadOf(s, s.locks[id]) else Idle)
    ensures NothingWaits(s, id)
  {
    assert Reads(s, id.key, width) && Reads(s', id.key, width) && RecordOk(s', id) && SlotOk(s, id.key);
  }

  // The stages a write-back has still to reach before it purifies.
  function StepsLeft(th: Thread): nat
    requires th.Flushing?
  {
    if th.stage == Collecting then 2 else if th.stage == Committed then 1 else 0
  }

  // The next step of a write-back, until it purifies.
  function NextOf(th: Thread): Action
    requires th.Flushing?
  {
    if th.stage == Committed then Action.Confirm else if th.next < |th.keys| then Next else Commit
  }

  lemma Advanced(imm: bool, s: State, u: Tid, id: Id)
    requires Guards(ThreadOf(s, u), id) && ThreadOf(s, u).stage != Confirmed
    ensures var th := ThreadOf(s, u);
            && Enabled(s, u, NextOf(th))
            && var s1 := Do(imm, s, u, NextOf(th));
               && Guards(ThreadOf(s1, u), id) && s1.pool == s.pool && ThreadOf(s1, u).keys == th.keys
               && if NextOf(th).Next? then ThreadOf(s1, u).stage == th.stage && ThreadOf(s1, u).next == th.next + 1
                  else ThreadOf(s1, u).stage == if th.stage == Collecting then Committed else Confirmed
  {
  }

  // A thread that holds an unpurified guard when the entry goes cannot be saved: it only has to carry on.
  lemma {:induction false} Doomed(imm: bool, s: State, u: Tid, id: Id) returns (run: Run)
    requires Guards(ThreadOf(s, u), id) && id.key !in s.pool
    ensures Possible(imm, s, run) && forall i :: 0 <= i < |run| ==> run[i].0 == u
    ensures var t := After(imm, s, run);
            ThreadOf(t, u).Flushing? && ThreadOf(t, u).stage == Confirmed && LookupFails(t, u)
    decreases StepsLeft(ThreadOf(s, u)), |ThreadOf(s, u).keys| - ThreadOf(s, u).next
  {
    var th := ThreadOf(s, u);
    if th.stage == Confirmed {
      run := [];
    } else {
      Advanced(imm, s, u, id);
      var rest := Doomed(imm, Do(imm, s, u, NextOf(th)), u, id);
      run := [(u, NextOf(th))] + rest;
      assert run[1..] == rest;
    }
  }

  // ---- Whole runs.

  type Run = seq<(Tid, Action)>

  function Start(db: Rows): State {
    State(map[], map[], map[], map[], db, db, map[], map[])
  }

  // Can the steps of `run` be taken one after the other?
  predicate Possible(imm: bool, s: State, run: Run)
    decreases |run|
  {
    run == [] || (Enabled(s, run[0].0, run[0].1) && Possible(imm, Do(imm, s, run[0].0, run[0].1), run[1..]))
  }

  function After(imm: bool, s: State, run: Run): State
    requires Possible(imm, s, run)
    decreases |run|
  {
    if run == [] then s else After(imm, Do(imm, s, run[0].0, run[0].1), run[1..])
  }

  predicate LawfulStep(imm: bool, s: State, t: Tid, a: Action, width: nat)
    requires Enabled(s, t, a)
  {
    && (a.Ask? ==> Lawful(imm, s, ThreadOf(s, t).id.key, a.change, width))
    && (a.DropEntry? ==> DropSafe(s, t))
  }

  predicate AllLawful(imm: bool, s: State, run: Run, width: nat)
    requires Possible(imm, s, run)
    decreases |run|
  {
    run == [] || (LawfulStep(imm, s, run[0].0, run[0].1, width) &&
                  AllLawful(imm, Do(imm, s, run[0].0, run[0].1), run[1..], width))
  }

  lemma StepKeeps(imm: bool, s: State, t: Tid, a: Action, width: nat)
    requires Inv(s, width) && Enabled(s, t, a) && LawfulStep(imm, s, t, a, width)
    ensures Inv(Do(imm, s, t, a), width)
  {
    match a
    case FetchOld(k) => FetchOldKeeps(imm, s, t, k, width);
    case FetchNew(id) => FetchNewKeeps(imm, s, t, id, width);
    case LockRecord => LockRecordKeeps(imm, s, t, width);
    case Ask(c) => AskKeeps(imm, s, t, c, width);
    case Reinsert => ReinsertKeeps(imm, s, t, width);
    case DropEntry => DropKeeps(imm, s, t, width);
    case StartBatch(keys) => StartBatchKeeps(imm, s, t, keys, width);
    case Next => NextKeeps(imm, s, t, width);
    case Reset => ResetKeeps(imm, s, t, width);
    case Commit => CommitKeeps(imm, s, t, width);
    case Confirm => ConfirmKeeps(imm, s, t, width);
    case Purify => PurifyKeeps(imm, s, t, width);
    case Release => ReleaseKeeps(imm, s, t, width);
    case StartSingle(k) => StartSingleKeeps(imm, s, t, k, width);
    case LockSingle => LockSingleKeeps(imm, s, t, width);
  }

  lemma {:induction false} RunKeeps(imm: bool, s: State, run: Run, width: nat)
    requires Inv(s, width) && Possible(imm, s, run) && AllLawful(imm, s, run, width)
    ensures Inv(After(imm, s, run), width)
    decreases |run|
  {
    if run != [] {
      StepKeeps(imm, s, run[0].0, run[0].1, width);
      RunKeeps(imm, Do(imm, s, run[0].0, run[0].1), run[1..], width);
    }
  }

  ghost predicate Reachable(imm: bool, db: Rows, run: Run, width: nat) {
    && (forall k :: k in db ==> Fits(k, db[k], width))
    && Possible(imm, Start(db), run) && AllLawful(imm, Start(db), run, width)
  }

  lemma ReachableInv(imm: bool, db: Rows, run: Run, width: nat)
    requires Reachable(imm, db, run, width)
    ensures Inv(After(imm, Start(db), run), width)
  {
    var s := Start(db);
    assert Inv(s, width);
    RunKeeps(imm, s, run, width);
  }

  // No lost update: at any moment of any lawful run, a handle or a guard belongs to the record the pool has for its
  // key, and every key reads as in the plain map: through its record, or from the backend once that was written.
  lemma NoLostUpdate(imm: bool, db: Rows, run: Run, t: Tid, id: Id, k: Key, width: nat)
    requires Reachable(imm, db, run, width)
    ensures var s := After(imm, Start(db), run);
            var th := ThreadOf(s, t);
            && (id in Handles(th) ==> Pooled(s, id))
            && (id in Locks(th) && !(th.Flushing? && th.stage == Purified) ==> Pooled(s, id))
            && !(th.Flushing? && th.stage == Confirmed && LookupFails(s, t))
            && Seen(if k in s.pool && Unconfirmed(s, s.pool[k]) then None else Pending(s, k), Lookup(s.db, k))
               == Lookup(s.truth, k)
  {
    ReachableInv(imm, db, run, width);
    var s := After(imm, Start(db), run);
    Holder(s, t, id, width);
    assert Reads(s, k, width);
    if ThreadOf(s, t).Flushing? && ThreadOf(s, t).stage == Confirmed {
      PurifyKeeps(imm, s, t, width);
    }
  }

  // ---- A batch takes what is due.

  // The visit of a key, whatever the other threads do: a record that holds data is afterwards held by the visitor,
  // unless another thread has it locked; and no other record is taken.
  lemma VisitTakes(imm: bool, s: State, t: Tid, width: nat)
    requires Inv(s, width) && Enabled(s, t, Action.Next)
    ensures var th, s' := ThreadOf(s, t), Do(imm, s, t, Action.Next);
            var k := th.keys[th.next];
            && ThreadOf(s', t).next == th.next + 1
            && (Pending(s, k).Some? ==>
                  s.pool[k] in ThreadOf(s', t).held || (s.pool[k] in s.locks && s.locks[s.pool[k]] != t))
            && (forall id :: id in ThreadOf(s', t).held <==>
                  id in th.held || (Pending(s, k).Some? && id == s.pool[k] && id !in s.locks))
  {
    var k := ThreadOf(s, t).keys[ThreadOf(s, t).next];
    if k in s.pool {
      assert SlotOk(s, k);
      Holder(s, t, s.pool[k], width);
    }
  }

  // A single flush that gets the lock takes the record exactly when it holds data.
  lemma LockSingleTakes(imm: bool, s: State, t: Tid)
    requires Enabled(s, t, Action.LockSingle)
    ensures var th' := ThreadOf(Do(imm, s, t, Action.LockSingle), t);
            if Content(s, ThreadOf(s, t).id).Some? then th'.Flushing? && th'.held == {ThreadOf(s, t).id} else th'.Idle?
  {
  }

  // The records that visiting the first `n` keys takes when nothing is locked.
  function Taken(s: State, keys: seq<Key>, n: nat): set<Id>
    requires n <= |keys|
  {
    set k | k in keys[..n] && k in s.pool && Pending(s, k).Some? :: s.pool[k]
  }

  function Visiting(s: State, t: Tid, keys: seq<Key>, n: nat): State
    requires n <= |keys|
  {
    s.(locks := map id | id in Taken(s, keys, n) :: t,
       threads := s.threads[t := Flushing(None, keys, n, Taken(s, keys, n), Collecting)])
  }

  ghost predicate AllIdle(s: State) {
    forall u :: ThreadOf(s, u).Idle?
  }

  lemma NothingLocked(s: State, width: nat)
    requires Inv(s, width) && AllIdle(s)
    ensures s.locks == map[]
  {
    forall id ensures id !in s.locks {
      Holder(s, 0, id, width);
    }
  }

  lemma TakenMore(s: State, keys: seq<Key>, n: nat)
    requires n < |keys|
    ensures var k := keys[n];
            Taken(s, keys, n + 1) ==
            if k in s.pool && Pending(s, k).Some? then Taken(s, keys, n) + {s.pool[k]} else Taken(s, keys, n)
  {
    assert keys[..n + 1] == keys[..n] + [keys[n]];
  }

  lemma NextTakes(imm: bool, s: State, t: Tid, keys: seq<Key>, n: nat)
    requires n < |keys| && keys[n] in s.pool && Pending(s, keys[n]).Some?
    requires s.pool[keys[n]] !in Taken(s, keys, n)
    ensures Do(imm, Visiting(s, t, keys, n), t, Action.Next) == Visiting(s, t, keys, n + 1)
  {
    var v, w, k := Visiting(s, t, keys, n), Visiting(s, t, keys, n + 1), keys[n];
    TakenMore(s, keys, n);
    assert Pending(v, k) == Pending(s, k);
    assert v.threads[t := Flushing(None, keys, n + 1, Taken(s, keys, n + 1), Collecting)] == w.threads;
    assert v.locks[s.pool[k] := t] == w.locks;
  }

  lemma NextSkips(imm: bool, s: State, t: Tid, keys: seq<Key>, n: nat)
    requires n < |keys|
    requires keys[n] in s.pool && Pending(s, keys[n]).Some? ==> s.pool[keys[n]] in Taken(s, keys, n)
    ensures Do(imm, Visiting(s, t, keys, n), t, Action.Next) == Visiting(s, t, keys, n + 1)
  {
    var v, w, k := Visiting(s, t, keys, n), Visiting(s, t, keys, n + 1), keys[n];
    TakenMore(s, keys, n);
    assert Taken(s, keys, n + 1) == Taken(s, keys, n);
    assert Pending(v, k) == Pending(s, k);
    assert v.threads[t := Flushing(None, keys, n + 1, Taken(s, keys, n + 1), Collecting)] == w.threads;
  }

  lemma NextVisiting(imm: bool, s: State, t: Tid, keys: seq<Key>, n: nat)
    requires n < |keys|
    ensures Enabled(Visiting(s, t, keys, n), t, Action.Next)
    ensures Do(imm, Visiting(s, t, keys, n), t, Action.Next) == Visiting(s, t, keys, n + 1)
  {
    if keys[n] in s.pool && Pending(s, keys[n]).Some? && s.pool[keys[n]] !in Taken(s, keys, n) {
      NextTakes(imm, s, t, keys, n);
    } else {
      NextSkips(imm, s, t, keys, n);
    }
  }

  // The steps of one flush from the first visit on.
  function Visits(t: Tid, n: nat): Run {
    seq(n, i requires 0 <= i < n => (t, Action.Next))
  }

  function WriteSteps(t: Tid): Run {
    [(t, Action.Commit), (t, Action.Confirm), (t, Action.Purify), (t, Action.Release)]
  }

  function BatchRun(t: Tid, keys: seq<Key>): Run {
    [(t, StartBatch(keys))] + (Visits(t, |keys|) + WriteSteps(t))
  }

  function SingleRun(t: Tid, k: Key): Run {
    [(t, StartSingle(k)), (t, LockSingle)] + WriteSteps(t)
  }

  // What a finished flush of `held` leaves behind.
  ghost predicate Flushed(s: State, s': State, t: Tid, held: set<Id>) {
    && s'.truth == s.truth && s'.locks == s.locks - held
    && (forall u :: ThreadOf(s', u) == if u == t then Idle else ThreadOf(s, u))
    && (forall k :: Pending(s', k) == if k in s.pool && s.pool[k] in held then None else Pending(s, k))
    && s'.db == Written(s.db, BatchOf(s, held))
  }

  lemma OneMore(imm: bool, s: State, s': State, t: Tid, a: Action, rest: Run)
    requires Enabled(s, t, a) && Do(imm, s, t, a) == s' && Possible(imm, s', rest)
    ensures Possible(imm, s, [(t, a)] + rest) && After(imm, s, [(t, a)] + rest) == After(imm, s', rest)
  {
    assert ([(t, a)] + rest)[1..] == rest;
  }

  // The four steps, one after the other.
  lemma WriteSteps4(imm: bool, s: State, t: Tid)
    requires ThreadOf(s, t).Flushing? && ThreadOf(s, t).stage == Collecting
    requires ThreadOf(s, t).next >= |ThreadOf(s, t).keys|
    ensures Possible(imm, s, WriteSteps(t))
    ensures var s1 := Do(imm, s, t, Action.Commit);
            && Enabled(s1, t, Action.Confirm)
            && var s2 := Do(imm, s1, t, Action.Confirm);
               && Enabled(s2, t, Action.Purify)
               && var s3 := Do(imm, s2, t, Action.Purify);
                  && Enabled(s3, t, Action.Release)
                  && After(imm, s, WriteSteps(t)) == Do(imm, s3, t, Action.Release)
  {
    var s1 := Do(imm, s, t, Action.Commit);
    var s2 := Do(imm, s1, t, Action.Confirm);
    var s3 := Do(imm, s2, t, Action.Purify);
    var s4 := Do(imm, s3, t, Action.Release);
    var released: Run := [(t, Action.Release)] + [];
    var purified: Run := [(t, Action.Purify)] + released;
    var confirmed: Run := [(t, Action.Confirm)] + purified;
    OneMore(imm, s3, s4, t, Action.Release, []);
    OneMore(imm, s2, s3, t, Action.Purify, released);
    OneMore(imm, s1, s2, t, Action.Confirm, purified);
    OneMore(imm, s, s1, t, Action.Commit, confirmed);
    assert WriteSteps(t) == [(t, Action.Commit)] + confirmed;
  }

  // The records are written and cleared.
  ghost predicate Cleared(s: State, s': State, t: Tid, held: set<Id>) {
    && s'.pool == s.pool && s'.truth == s.truth && s'.locks == s.locks && s'.db == Written(s.db, BatchOf(s, held))
    && ThreadOf(s', t).Flushing? && ThreadOf(s', t).held == held
    && (forall u :: u != t ==> ThreadOf(s', u) == ThreadOf(s, u))
    && forall k :: Pending(s', k) == if k in s.pool && s.pool[k] in held then None else Pending(s, k)
  }

  lemma CommitClears(imm: bool, s: State, t: Tid)
    requires ThreadOf(s, t).Flushing? && ThreadOf(s, t).stage == Collecting
    requires ThreadOf(s, t).next >= |ThreadOf(s, t).keys|
    requires forall id :: id in ThreadOf(s, t).held ==> Pooled(s, id)
    ensures Cleared(s, Do(imm, Do(imm, s, t, Action.Commit), t, Action.Confirm), t, ThreadOf(s, t).held)
  {
  }

  lemma WriteRun(imm: bool, s: State, t: Tid)
    requires ThreadOf(s, t).Flushing? && ThreadOf(s, t).stage == Collecting
    requires ThreadOf(s, t).next >= |ThreadOf(s, t).keys|
    requires forall id :: id in ThreadOf(s, t).held ==> Pooled(s, id)
    ensures Possible(imm, s, WriteSteps(t))
    ensures Flushed(s, After(imm, s, WriteSteps(t)), t, ThreadOf(s, t).held)
  {
    WriteSteps4(imm, s, t);
    CommitClears(imm, s, t);
  }

  lemma {:induction false} VisitRun(imm: bool, s: State, t: Tid, keys: seq<Key>, n: nat, rest: Run)
    requires n <= |keys|
    requires Possible(imm, Visiting(s, t, keys, |keys|), rest)
    ensures var run := Visits(t, |keys| - n) + rest;
            && Possible(imm, Visiting(s, t, keys, n), run)
            && After(imm, Visiting(s, t, keys, n), run) == After(imm, Visiting(s, t, keys, |keys|), rest)
    decreases |keys| - n
  {
    if n == |keys| {
      assert Visits(t, 0) + rest == rest;
    } else {
      NextVisiting(imm, s, t, keys, n);
      VisitRun(imm, s, t, keys, n + 1, rest);
      var later := Visits(t, |keys| - n - 1) + rest;
      assert Visits(t, |keys| - n) + rest == [(t, Action.Next)] + later;
      OneMore(imm, Visiting(s, t, keys, n), Visiting(s, t, keys, n + 1), t, Action.Next, later);
    }
  }

  // A key whose pending record is among the flushed ones, or that had none, is up to date in the backend.
  lemma FlushedKey(s: State, s': State, t: Tid, held: set<Id>, k: Key, width: nat)
    requires Inv(s, width) && !(k in s.pool && Unconfirmed(s, s.pool[k])) && Flushed(s, s', t, held)
    requires Pending(s, k).Some? ==> s.pool[k] in held
    ensures Pending(s', k).None? && Lookup(s'.db, k) == Lookup(s'.truth, k)
  {
    assert Reads(s, k, width);
    WrittenRow(s.db, BatchOf(s, held), k);
    if Pending(s, k).Some? {
      assert SlotOk(s, k) && s.pool[k].key == k;
      assert k in BatchOf(s, held);
    }
  }

  lemma BatchReaches(imm: bool, s: State, t: Tid, keys: seq<Key>)
    requires AllIdle(s) && s.locks == map[]
    requires Possible(imm, Visiting(s, t, keys, |keys|), WriteSteps(t))
    ensures Possible(imm, s, BatchRun(t, keys))
    ensures After(imm, s, BatchRun(t, keys)) == After(imm, Visiting(s, t, keys, |keys|), WriteSteps(t))
  {
    var v0 := Visiting(s, t, keys, 0);
    assert Taken(s, keys, 0) == {} && v0.locks == map[] && Do(imm, s, t, StartBatch(keys)) == v0;
    VisitRun(imm, s, t, keys, 0, WriteSteps(t));
    var flush := BatchRun(t, keys);
    assert flush[0] == (t, StartBatch(keys)) && flush[1..] == Visits(t, |keys|) + WriteSteps(t);
  }

  lemma TakenArePooled(s: State, keys: seq<Key>, width: nat)
    requires Inv(s, width)
    ensures forall id :: id in Taken(s, keys, |keys|) ==> Pooled(s, id)
  {
    forall id | id in Taken(s, keys, |keys|) ensures Pooled(s, id) {
      var k :| k in keys[..|keys|] && k in s.pool && s.pool[k] == id;
      assert SlotOk(s, k);
    }
  }

  lemma BatchLeaves(imm: bool, s: State, t: Tid, keys: seq<Key>, width: nat)
    requires Inv(s, width) && AllIdle(s)
    ensures Possible(imm, s, BatchRun(t, keys))
    ensures Flushed(s, After(imm, s, BatchRun(t, keys)), t, Taken(s, keys, |keys|))
  {
    NothingLocked(s, width);
    var v, held := Visiting(s, t, keys, |keys|), Taken(s, keys, |keys|);
    TakenArePooled(s, keys, width);
    WriteRun(imm, v, t);
    BatchReaches(imm, s, t, keys);
    BatchSame(s, v, held);
    assert v.locks - held == map[];
  }

  // When nobody else is at work, a batch flush writes all that is pending for its keys, and nothing else.
  lemma BatchWrites(imm: bool, db: Rows, run: Run, t: Tid, keys: seq<Key>, width: nat)
    requires Reachable(imm, db, run, width) && AllIdle(After(imm, Start(db), run))
    ensures var s := After(imm, Start(db), run);
            && Possible(imm, s, BatchRun(t, keys))
            && var s' := After(imm, s, BatchRun(t, keys));
               && AllIdle(s') && s'.truth == s.truth
               && (forall k :: k in keys ==> Pending(s', k).None? && Lookup(s'.db, k) == Lookup(s'.truth, k))
               && (forall k :: k !in keys ==> Pending(s', k) == Pending(s, k) && Lookup(s'.db, k) == Lookup(s.db, k))
  {
    ReachableInv(imm, db, run, width);
    var s, held := After(imm, Start(db), run), Taken(After(imm, Start(db), run), keys, |keys|);
    BatchLeaves(imm, s, t, keys, width);
    NothingLocked(s, width);
    var s' := After(imm, s, BatchRun(t, keys));
    assert keys[..|keys|] == keys;
    forall k | k in keys ensures Pending(s', k).None? && Lookup(s'.db, k) == Lookup(s'.truth, k) {
      FlushedKey(s, s', t, held, k, width);
    }
    forall k | k !in keys ensures Pending(s', k) == Pending(s, k) && Lookup(s'.db, k) == Lookup(s.db, k) {
      WrittenRow(s.db, BatchOf(s, held), k);
      TakenKeys(s, keys, width);
      assert SlotOk(s, k);
    }
  }

  lemma TakenKeys(s: State, keys: seq<Key>, width: nat)
    requires Inv(s, width)
    ensures forall id :: id in Taken(s, keys, |keys|) ==> id.key in keys
  {
    forall id | id in Taken(s, keys, |keys|) ensures id.key in keys {
      var j :| j in keys[..|keys|] && j in s.pool && s.pool[j] == id;
      assert SlotOk(s, j);
    }
  }

  lemma BatchSame(s: State, v: State, held: set<Id>)
    requires v.pool == s.pool && v.data == s.data
    ensures BatchOf(v, held) == BatchOf(s, held) && forall k :: Pending(v, k) == Pending(s, k)
  {
  }

  // And so does a single flush for its one key.
  lemma SingleWrites(imm: bool, db: Rows, run: Run, t: Tid, k: Key, width: nat)
    requires Reachable(imm, db, run, width) && AllIdle(After(imm, Start(db), run))
    requires Pending(After(imm, Start(db), run), k).Some?
    ensures var s := After(imm, Start(db), run);
            && Possible(imm, s, SingleRun(t, k))
            && var s' := After(imm, s, SingleRun(t, k));
               && AllIdle(s') && s'.truth == s.truth
               && Pending(s', k).None? && Lookup(s'.db, k) == Lookup(s'.truth, k)
  {
    ReachableInv(imm, db, run, width);
    SingleFrom(imm, After(imm, Start(db), run), t, k, width);
  }

  lemma SingleFrom(imm: bool, s: State, t: Tid, k: Key, width: nat)
    requires Inv(s, width) && AllIdle(s) && Pending(s, k).Some?
    ensures Possible(imm, s, SingleRun(t, k))
    ensures var s' := After(imm, s, SingleRun(t, k));
            && AllIdle(s') && s'.truth == s.truth
            && Pending(s', k).None? && Lookup(s'.db, k) == Lookup(s'.truth, k)
  {
    NothingLocked(s, width);
    assert SlotOk(s, k);
    var id := s.pool[k];
    var s2 := s.(locks := map[id := t], threads := s.threads[t := Flushing(Some(id), [], 0, {id}, Collecting)]);
    WriteRun(imm, s2, t);
    SingleGrips(imm, s, t, k);
    BatchSame(s, s2, {id});
    assert s2.locks - {id} == map[];
    FlushedKey(s, After(imm, s2, WriteSteps(t)), t, {id}, k, width);
  }

  lemma SingleGrips(imm: bool, s: State, t: Tid, k: Key)
    requires AllIdle(s) && s.locks == map[] && Pending(s, k).Some?
    requires var id := s.pool[k];
             Possible(imm, s.(locks := map[id := t],
                              threads := s.threads[t := Flushing(Some(id), [], 0, {id}, Collecting)]), WriteSteps(t))
    ensures Possible(imm, s, SingleRun(t, k))
    ensures var id := s.pool[k];
            After(imm, s, SingleRun(t, k)) ==
            After(imm, s.(locks := map[id := t],
                          threads := s.threads[t := Flushing(Some(id), [], 0, {id}, Collecting)]), WriteSteps(t))
  {
    var id := s.pool[k];
    var s1 := Do(imm, s, t, StartSingle(k));
    assert s1 == s.(threads := s.threads[t := Waiting(id)]) && ThreadOf(s1, t) == Waiting(id);
    var s2 := Do(imm, s1, t, LockSingle);
    assert s.threads[t := Waiting(id)][t := Flushing(Some(id), [], 0, {id}, Collecting)] ==
           s.threads[t := Flushing(Some(id), [], 0, {id}, Collecting)];
    var flush, rest := SingleRun(t, k), SingleRun(t, k)[1..];
    assert rest == [(t, LockSingle)] + WriteSteps(t) && rest[1..] == WriteSteps(t);
    assert Possible(imm, s1, rest) && After(imm, s1, rest) == After(imm, s2, WriteSteps(t));
  }

  // Two threads never hold the same lock.
  lemma GuardsAreExclusive(imm: bool, db: Rows, run: Run, t: Tid, u: Tid, width: nat)
    requires Reachable(imm, db, run, width) && t != u
    ensures var s := After(imm, Start(db), run); Locks(ThreadOf(s, t)) !! Locks(ThreadOf(s, u))
  {
    ReachableInv(imm, db, run, width);
    var s := After(imm, Start(db), run);
    forall id ensures !(id in Locks(ThreadOf(s, t)) && id in Locks(ThreadOf(s, u))) {
      assert LockOk(s, t, id) && LockOk(s, u, id);
    }
  }

  // Whatever a write-back has collected, the backend accepts it, all of it, and none of it has been written before.
  lemma BatchIsFresh(imm: bool, db: Rows, run: Run, t: Tid, width: nat)
    requires Reachable(imm, db, run, width)
    requires var th := ThreadOf(After(imm, Start(db), run), t); th.Flushing? && th.stage == Collecting
    ensures var s := After(imm, Start(db), run);
            var held := ThreadOf(s, t).held;
            && AllAccepted(s.db, BatchOf(s, held))
            && (forall id :: id in held ==> Content(s, id).Some? && Lookup(BatchOf(s, held), id.key) == Content(s, id))
            && (forall id :: id in held ==> Writes(s, id) == Clears(s, id))
  {
    ReachableInv(imm, db, run, width);
    var s := After(imm, Start(db), run);
    var held := ThreadOf(s, t).held;
    forall k | k in BatchOf(s, held) ensures Accepts(BatchOf(s, held)[k], Lookup(s.db, k)) {
      Holder(s, t, s.pool[k], width);
      assert Reads(s, k, width);
    }
    forall id | id in held
      ensures Content(s, id).Some? && Lookup(BatchOf(s, held), id.key) == Content(s, id)
      ensures Writes(s, id) == Clears(s, id)
    {
      Holder(s, t, id, width);
    }
  }

  // Exactly once: a record's writes and clears alternate, so each content is written by one write-back before it is
  // cleared.
  lemma WrittenOnce(imm: bool, db: Rows, run: Run, id: Id, width: nat)
    requires Reachable(imm, db, run, width)
    ensures var s := After(imm, Start(db), run);
            Writes(s, id) == Clears(s, id) + if Unconfirmed(s, id) then 1 else 0
  {
    ReachableInv(imm, db, run, width);
    var s := After(imm, Start(db), run);
    Holder(s, 0, id, width);
  }

  // A locked record is untouched by every other thread, in the middle of whatever its holder does.
  lemma LockedIsUntouched(imm: bool, s: State, t: Tid, a: Action, id: Id, width: nat)
    requires Inv(s, width) && Enabled(s, t, a) && id in s.locks && s.locks[id] != t
    ensures var s' := Do(imm, s, t, a);
            && id in s'.locks && s'.locks[id] == s.locks[id] && ThreadOf(s', s.locks[id]) == ThreadOf(s, s.locks[id])
            && Content(s', id) == Content(s, id) && Writes(s', id) == Writes(s, id) && Clears(s', id) == Clears(s, id)
  {
    Holder(s, t, id, width);
    assert LockOk(s, t, id);
    LockIsKept(imm, s, t, a, id);
    OthersStand(imm, s, t, a, s.locks[id]);
    ContentIsKept(imm, s, t, a, id);
  }

  lemma LockIsKept(imm: bool, s: State, t: Tid, a: Action, id: Id)
    requires Enabled(s, t, a) && id in s.locks && id !in Locks(ThreadOf(s, t))
    ensures id in Do(imm, s, t, a).locks && Do(imm, s, t, a).locks[id] == s.locks[id]
  {
    var th := ThreadOf(s, t);
    match a
    case LockRecord => assert th.id != id;
    case Ask(_) => assert th.id != id;
    case Next =>
    case LockSingle =>
    case Reset => assert id !in th.held;
    case Release => assert id !in th.held;
    case _ =>
  }

  lemma OthersStand(imm: bool, s: State, t: Tid, a: Action, u: Tid)
    requires Enabled(s, t, a) && u != t
    ensures ThreadOf(Do(imm, s, t, a), u) == ThreadOf(s, u)
  {
    if a.Next? {
      OthersVisited(s, t, ThreadOf(s, t), u);
    }
  }

  lemma OthersVisited(s: State, t: Tid, th: Thread, u: Tid)
    requires th.Flushing? && th.next < |th.keys| && u != t
    ensures ThreadOf(Visit(s, t, th), u) == ThreadOf(s, u)
  {
  }

  lemma ContentIsKept(imm: bool, s: State, t: Tid, a: Action, id: Id)
    requires Enabled(s, t, a) && id in s.locks && RecordOk(s, id) && id !in Locks(ThreadOf(s, t))
    requires id in s.data
    ensures var s' := Do(imm, s, t, a);
            Content(s', id) == Content(s, id) && Writes(s', id) == Writes(s, id) && Clears(s', id) == Clears(s, id)
  {
  }

  // Between being written and being cleared a record does not change, and only the thread that wrote it clears it.
  lemma WrittenIsFrozen(imm: bool, s: State, t: Tid, a: Action, id: Id, width: nat)
    requires Inv(s, width) && Enabled(s, t, a) && Unconfirmed(s, id)
    ensures var s' := Do(imm, s, t, a);
            if s.locks[id] == t then a == Action.Confirm && Content(s', id).None? && Clears(s', id) == Clears(s, id) + 1
            else Unconfirmed(s', id) && Content(s', id) == Content(s, id) && Writes(s', id) == Writes(s, id)
  {
    Holder(s, t, id, width);
    if s.locks[id] != t {
      LockedIsUntouched(imm, s, t, a, id, width);
    }
  }

  // When every thread has finished and no record holds data, the backend is the plain map.
  lemma QuiescentIsWritten(imm: bool, db: Rows, run: Run, width: nat)
    requires Reachable(imm, db, run, width)
    requires forall t :: ThreadOf(After(imm, Start(db), run), t).Idle?
    requires forall k :: Pending(After(imm, Start(db), run), k).None?
    ensures var s := After(imm, Start(db), run); s.db == s.truth && s.locks == map[]
  {
    ReachableInv(imm, db, run, width);
    var s := After(imm, Start(db), run);
    forall k ensures Lookup(s.db, k) == Lookup(s.truth, k) {
      assert Reads(s, k, width);
    }
    RowsEqual(s.db, s.truth);
    forall id ensures id !in s.locks {
      Holder(s, 0, id, width);
    }
  }

  // No deadlock: a thread that has not finished can move, or the holder of the one lock it waits for can.
  lemma SomeoneMoves(imm: bool, db: Rows, run: Run, t: Tid, width: nat)
    requires Reachable(imm, db, run, width) && !ThreadOf(After(imm, Start(db), run), t).Idle?
    ensures var s := After(imm, Start(db), run);
            exists u, a :: Enabled(s, u, a) && (a.DropEntry? || LawfulStep(imm, s, u, a, width)) &&
                           (u == t || exists id :: id in s.locks && s.locks[id] == u && id in Handles(ThreadOf(s, t)))
    ensures var s := After(imm, Start(db), run);
            ThreadOf(s, t).Changing? ==> forall c :: Lawful(imm, s, ThreadOf(s, t).id.key, c, width) ==>
              Enabled(s, t, Ask(c)) && LawfulStep(imm, s, t, Ask(c), width)
  {
    ReachableInv(imm, db, run, width);
    var s := After(imm, Start(db), run);
    var th := ThreadOf(s, t);
    var u := if (th.Asking? || th.Waiting?) && th.id in s.locks then s.locks[th.id] else t;
    if th.Asking? || th.Waiting? {
      Holder(s, t, th.id, width);
    }
    var a := CanDo(s, u);
    assert GripOk(s, ThreadOf(s, u), Id(Null, 0));
    assert Enabled(s, u, a) && (a.DropEntry? || LawfulStep(imm, s, u, a, width));
  }

  // What a thread that does not wait can do next.
  function CanDo(s: State, t: Tid): Action {
    match ThreadOf(s, t)
    case Idle => StartBatch([])
    case Asking(_) => LockRecord
    case Changing(_) => Ask(Access)
    case Changed(_, _) => Action.Reinsert
    case Dropping(_) => DropEntry
    case Waiting(_) => LockSingle
    case Flushing(_, keys, next, _, stage) =>
      match stage
      case Collecting => if next < |keys| then Next else Commit
      case Committed => Action.Confirm
      case Confirmed => Action.Purify
      case Purified => Release
  }

  // ---- Why `Drop` is left out.

  lemma {:induction false} Extend(imm: bool, s: State, run: Run, t: Tid, a: Action)
    requires Possible(imm, s, run) && Enabled(After(imm, s, run), t, a)
    ensures Possible(imm, s, run + [(t, a)]) && After(imm, s, run + [(t, a)]) == Do(imm, After(imm, s, run), t, a)
    decreases |run|
  {
    var longer := run + [(t, a)];
    if run == [] {
      assert longer[1..] == [];
    } else {
      assert longer[1..] == run[1..] + [(t, a)];
      Extend(imm, Do(imm, s, run[0].0, run[0].1), run[1..], t, a);
    }
  }

  // The stages of one unlucky run: thread 1 inserts a record and deletes it again before any flush, which is answered
  // with `Drop`; thread 2 flushes.
  function Stuck(k: Key, data: Option<CacheUpdate>, truth: Rows, locks: map<Id, Tid>, one: Thread, two: Thread): State {
    var id := Id(k, 0);
    State(map[k := id], map[id := data], locks, map[1 := one, 2 := two], map[], truth, map[id := 0], map[id := 0])
  }

  lemma Inserting(k: Key) returns (run: Run)
    ensures Possible(true, Start(map[]), run)
    ensures After(true, Start(map[]), run) ==
            Stuck(k, None, map[], map[Id(k, 0) := 1], Changing(Id(k, 0)), Flushing(None, [k], 0, {}, Collecting))
  {
    var id := Id(k, 0);
    var s := Start(map[]);
    run := [];
    Extend(true, s, run, 2, StartBatch([k]));
    run := run + [(2, StartBatch([k]))];
    Extend(true, s, run, 1, FetchNew(id));
    run := run + [(1, FetchNew(id))];
    Extend(true, s, run, 1, LockRecord);
    run := run + [(1, LockRecord)];
  }

  lemma AskedToInsert(k: Key, v: Row)
    ensures var id, two := Id(k, 0), Flushing(None, [k], 0, {}, Collecting);
            var s := Stuck(k, None, map[], map[id := 1], Changing(id), two);
            Do(true, s, 1, Ask(New(v))) ==
            Stuck(k, Some(Insert(IntoActive(v))), map[k := v], map[], Changed(id, false), two)
  {
    assert map[Id(k, 0) := 1] - {Id(k, 0)} == map[];
  }

  lemma Inserted(k: Key, v: Row) returns (run: Run)
    ensures Possible(true, Start(map[]), run)
    ensures After(true, Start(map[]), run) ==
            Stuck(k, Some(Insert(IntoActive(v))), map[k := v], map[], Changed(Id(k, 0), false),
                  Flushing(None, [k], 0, {}, Collecting))
  {
    run := Inserting(k);
    AskedToInsert(k, v);
    Extend(true, Start(map[]), run, 1, Ask(New(v)));
    run := run + [(1, Ask(New(v)))];
  }

  lemma PutBack(k: Key, v: Row) returns (run: Run)
    ensures Possible(true, Start(map[]), run)
    ensures After(true, Start(map[]), run) ==
            Stuck(k, Some(Insert(IntoActive(v))), map[k := v], map[], Idle, Flushing(None, [k], 0, {}, Collecting))
  {
    run := Inserted(k, v);
    Extend(true, Start(map[]), run, 1, Action.Reinsert);
    run := run + [(1, Action.Reinsert)];
  }

  lemma Reopened(k: Key, v: Row) returns (run: Run)
    ensures Possible(true, Start(map[]), run)
    ensures After(true, Start(map[]), run) ==
            Stuck(k, Some(Insert(IntoActive(v))), map[k := v], map[], Asking(Id(k, 0)),
                  Flushing(None, [k], 0, {}, Collecting))
  {
    run := PutBack(k, v);
    Extend(true, Start(map[]), run, 1, FetchOld(k));
    run := run + [(1, FetchOld(k))];
  }

  lemma Deleting(k: Key, v: Row) returns (run: Run)
    ensures Possible(true, Start(map[]), run)
    ensures After(true, Start(map[]), run) ==
            Stuck(k, Some(Insert(IntoActive(v))), map[k := v], map[Id(k, 0) := 1], Changing(Id(k, 0)),
                  Flushing(None, [k], 0, {}, Collecting))
  {
    run := Reopened(k, v);
    Extend(true, Start(map[]), run, 1, LockRecord);
    run := run + [(1, LockRecord)];
  }

  lemma AskedToDelete(k: Key, v: Row)
    ensures var id, two := Id(k, 0), Flushing(None, [k], 0, {}, Collecting);
            var s := Stuck(k, Some(Insert(IntoActive(v))), map[k := v], map[id := 1], Changing(id), two);
            Do(true, s, 1, Ask(Remove)) == Stuck(k, Some(Delete), map[], map[], Changed(id, true), two)
  {
    assert map[k := v] - {k} == map[] && map[Id(k, 0) := 1] - {Id(k, 0)} == map[];
  }

  lemma Asked(k: Key, v: Row) returns (run: Run)
    ensures Possible(true, Start(map[]), run)
    ensures After(true, Start(map[]), run) ==
            Stuck(k, Some(Delete), map[], map[], Changed(Id(k, 0), true), Flushing(None, [k], 0, {}, Collecting))
  {
    run := Deleting(k, v);
    AskedToDelete(k, v);
    Extend(true, Start(map[]), run, 1, Ask(Remove));
    run := run + [(1, Ask(Remove))];
  }

  lemma Deleted(k: Key, v: Row) returns (run: Run)
    ensures Possible(true, Start(map[]), run)
    ensures After(true, Start(map[]), run) ==
            Stuck(k, Some(Delete), map[], map[], Dropping(Id(k, 0)), Flushing(None, [k], 0, {}, Collecting))
  {
    run := Asked(k, v);
    Extend(true, Start(map[]), run, 1, Action.Reinsert);
    run := run + [(1, Action.Reinsert)];
  }

  // The flush takes the lock before the entry is dropped ...
  lemma Overtaken(k: Key, v: Row) returns (run: Run)
    ensures Possible(true, Start(map[]), run)
    ensures var s := After(true, Start(map[]), run);
            && ThreadOf(s, 2) == Flushing(None, [k], 1, {Id(k, 0)}, Collecting)
            && ThreadOf(s, 1) == Dropping(Id(k, 0))
  {
    run := Deleted(k, v);
    Extend(true, Start(map[]), run, 2, Next);
    run := run + [(2, Next)];
  }

  // ... and finds no entry when it purifies.
  lemma DropRaces(k: Key, v: Row) returns (run: Run)
    ensures Possible(true, Start(map[]), run)
    ensures var s := After(true, Start(map[]), run);
            ThreadOf(s, 2).Flushing? && ThreadOf(s, 2).stage == Confirmed && LookupFails(s, 2)
  {
    var s := Start(map[]);
    run := Overtaken(k, v);
    Extend(true, s, run, 1, DropEntry);
    run := run + [(1, DropEntry)];
    Extend(true, s, run, 2, Commit);
    run := run + [(2, Commit)];
    Extend(true, s, run, 2, Action.Confirm);
    run := run + [(2, Action.Confirm)];
  }
}
