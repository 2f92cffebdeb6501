/** The session cache beside the customer cache, with the collection that goes past the cache.  Whatever happens to the
    sessions, their references to customers are never violated. */
module Sessions {
  import opened Records
  import opened Backend
  import opened Company
  import opened Screenplay
  import CM = CacheModel
  import DC = DataController
  import CC = CachedCompany

  // `violated` records a write-back that wrote a reference to a customer the backend did not have, `refused` any other
  // failure.
  datatype Desk = Desk(customers: CM.State, sessions: CM.State, day: int, violated: bool, refused: bool)

  datatype Event =
    | AddCustomer(row: Row)
    | FlushCustomers
    | AddSession(session: Session)
    | UpdateSession(session: Session)
    // `loggedIn` lists the sessions the backend returned.
    | CollectSessions(loggedIn: seq<Key>)
    | FlushSessions
    | FlushSession(key: Key)
    | Evict(key: Key)
    | NextDay(day: int)

  // The customer an update record refers to, if any.
  function CustomerOf(u: CacheUpdate): Option<Key> {
    if u.Delete? || |u.am| <= SESSION_CUSTOMER || u.am[SESSION_CUSTOMER].IntoValue() == Some(Null) then None
    else u.am[SESSION_CUSTOMER].IntoValue()
  }

  predicate RefHeld(u: CacheUpdate, customers: Rows) {
    CustomerOf(u).Some? ==> CustomerOf(u).value in customers
  }

  predicate RefsHeld(due: Batch, customers: Rows) {
    forall k :: k in due ==> RefHeld(due[k], customers)
  }

  // The customers the observer collects from a batch.
  function CustomersOf(due: Batch): set<Key> {
    set k | k in due && CustomerOf(due[k]).Some? :: CustomerOf(due[k]).value
  }

  // A batch flush: the observer flushes the customers the batch refers to, and no others.
  function FlushAll(d: Desk): Desk {
    var due := CM.DueAmong(d.sessions, d.sessions.pool.Keys);
    var observed := CM.FlushKeys(d.customers, CustomersOf(due), false, CC.HEALTHY);
    var r := CM.FlushKeys(d.sessions, d.sessions.pool.Keys, false, CC.HEALTHY);
    d.(customers := observed.state, sessions := r.state, violated := d.violated || !RefsHeld(due, observed.state.db),
       refused := d.refused || observed.reply == CM.Failed || r.reply == CM.Failed)
  }

  // A single flush, with the one customer the session refers to flushed before.
  function FlushOne(d: Desk, k: Key): Desk {
    var due := CM.DueAmong(d.sessions, {k});
    var who := if k in due then CustomerOf(due[k]) else None;
    var observed := if who.Some? then CM.FlushOneStep(d.customers, who.value, CC.HEALTHY)
                    else CM.Outcome(d.customers, CM.Done);
    var r := CM.FlushOneStep(d.sessions, k, CC.HEALTHY);
    d.(customers := observed.state, sessions := r.state, violated := d.violated || !RefsHeld(due, observed.state.db),
       refused := d.refused || observed.reply == CM.Failed || r.reply == CM.Failed)
  }

  // A compute on one session; a pending record that is not cached is flushed before.
  function OnSession(d: Desk, k: Key, f: CM.Callback): Desk {
    var ready := if k in d.sessions.entries then d else FlushOne(d, k);
    var r := CM.ComputeStep(true, ready.sessions, k, f, CC.HEALTHY);
    ready.(sessions := r.state, refused := ready.refused || r.reply == CM.Failed)
  }

  function Login(s: Session): CM.Callback {
    (cur: Option<Row>) =>
      if cur.None? then CM.Fail
      else CM.Put(With(With(cur.value, SESSION_CUSTOMER, SessionRow(s)[SESSION_CUSTOMER]), 2, Int(s.expiresOn)))
  }

  function Expire(day: int): CM.Callback {
    (cur: Option<Row>) => if cur.Some? && Expired(cur.value, day) then CM.Remove else CM.Nop
  }

  function CollectEach(d: Desk, keys: seq<Key>): Desk
    decreases |keys|
  {
    if keys == [] then d else CollectEach(OnSession(d, keys[0], Expire(d.day)), keys[1..])
  }

  // Expired sessions without a customer are deleted in the backend, past the cache.
  function DropStubs(d: Desk): Desk {
    d.(sessions := d.sessions.(db := map k | k in d.sessions.db &&
         !(Expired(d.sessions.db[k], d.day) && Visitor(d.sessions.db[k])) :: d.sessions.db[k]))
  }

  function React(d: Desk, e: Event): Desk {
    match e
    case AddCustomer(row) => d.(customers := CM.Step(false, d.customers, CM.Insert(row), CC.HEALTHY).state)
    case FlushCustomers => d.(customers := CC.FlushAll(d.customers).state)
    case AddSession(s) => d.(sessions := CM.Step(true, d.sessions, CM.Insert(SessionRow(s)), CC.HEALTHY).state)
    case UpdateSession(s) => OnSession(d, Int(s.id), Login(s))
    case CollectSessions(loggedIn) => CollectEach(DropStubs(d), loggedIn)
    case FlushSessions => FlushAll(d)
    case FlushSession(k) => FlushOne(d, k)
    case Evict(k) => d.(sessions := CM.Uncache(d.sessions, k).state)
    case NextDay(day) => d.(day := day)
  }

  // Each customer comes before their sessions, and is added once.
  predicate Lawful(m: Rows, e: Event) {
    match e
    case AddCustomer(row) => Fits(CM.KeyOf(row), row, CUSTOMER_WIDTH) && CM.KeyOf(row) !in m
    case AddSession(s) => s.customerId.Some? ==> Int(s.customerId.value) in m
    case UpdateSession(s) => s.customerId.Some? ==> Int(s.customerId.value) in m
    case _ => true
  }

  function Registered(m: Rows, e: Event): Rows {
    if e.AddCustomer? then m[CM.KeyOf(e.row) := e.row] else m
  }

  // ---- The invariant.

  predicate RefersAt(s: CM.State, k: Key, m: Rows) {
    CM.Pending(s, k).Some? ==> RefHeld(CM.Pending(s, k).value, m)
  }

  ghost predicate Inv(d: Desk, m: Rows) {
    Mirrors(d.customers, m, CUSTOMER_WIDTH) && (forall k :: RefersAt(d.sessions, k, m)) && !d.violated
  }

  // A customer the company has and that has just been flushed is in the backend.
  lemma FlushedCustomer(s: CM.State, keys: set<Key>, single: bool, m: Rows, k: Key)
    requires Mirrors(s, m, CUSTOMER_WIDTH) && k in keys && k in m
    ensures k in CM.FlushKeys(s, keys, single, CC.HEALTHY).state.db
  {
    FlushMirrors(s, keys, single, m, CUSTOMER_WIDTH);
    assert MirrorsAt(CM.FlushKeys(s, keys, single, CC.HEALTHY).state, m, k, CUSTOMER_WIDTH);
  }

  // The customers the observer flushes are all the batch needs.
  lemma FlushAllKeeps(d: Desk, m: Rows)
    requires Inv(d, m)
    ensures Inv(FlushAll(d), m)
  {
    var due := CM.DueAmong(d.sessions, d.sessions.pool.Keys);
    var ids := CustomersOf(due);
    FlushMirrors(d.customers, ids, false, m, CUSTOMER_WIDTH);
    var customers := CM.FlushKeys(d.customers, ids, false, CC.HEALTHY).state;
    forall k | k in due ensures RefHeld(due[k], customers.db) {
      assert RefersAt(d.sessions, k, m);
      if CustomerOf(due[k]).Some? {
        FlushedCustomer(d.customers, ids, false, m, CustomerOf(due[k]).value);
      }
    }
    forall k ensures RefersAt(FlushAll(d).sessions, k, m) {
      assert RefersAt(d.sessions, k, m);
    }
  }

  lemma FlushOneKeeps(d: Desk, k: Key, m: Rows)
    requires Inv(d, m)
    ensures Inv(FlushOne(d, k), m)
  {
    var due := CM.DueAmong(d.sessions, {k});
    assert RefersAt(d.sessions, k, m);
    if k in due && CustomerOf(due[k]).Some? {
      var who := CustomerOf(due[k]).value;
      FlushMirrors(d.customers, {who}, true, m, CUSTOMER_WIDTH);
      FlushedCustomer(d.customers, {who}, true, m, who);
    }
    forall j ensures RefersAt(FlushOne(d, k).sessions, j, m) {
      assert RefersAt(d.sessions, j, m);
    }
  }

  // A changed session refers to the customer of its new value.
  lemma ChangeRefers(v: Row, prior: Row, prev: Option<CacheUpdate>, m: Rows)
    requires prev.Some? ==> RefHeld(prev.value, m)
    requires At(v, SESSION_CUSTOMER) == Null || At(v, SESSION_CUSTOMER) in m
    ensures var a := DC.OnChange(true, v, prior, prev);
            a.Answered? && a.response.update.Some? ==> RefHeld(a.response.update.value, m)
  {
  }

  ghost predicate PutsKnown(f: CM.Callback, m: Rows) {
    forall cur :: PutKnown(f, cur, m)
  }

  predicate PutKnown(f: CM.Callback, cur: Option<Row>, m: Rows) {
    f(cur).Put? ==>
      cur.Some? && (At(f(cur).value, SESSION_CUSTOMER) == Null || At(f(cur).value, SESSION_CUSTOMER) in m)
  }

  lemma ComputeRefers(s: CM.State, k: Key, cur: Option<Row>, f: CM.Callback, m: Rows, j: Key)
    requires RefersAt(s, k, m) && RefersAt(s, j, m) && PutKnown(f, cur, m)
    ensures RefersAt(CM.ComputeOn(true, s, k, cur, f).state, j, m)
  {
    if f(cur).Put? {
      PutRefers(s, k, f(cur).value, cur.value, m, j);
    }
  }

  lemma PutRefers(s: CM.State, k: Key, v: Row, prior: Row, m: Rows, j: Key)
    requires RefersAt(s, k, m) && RefersAt(s, j, m)
    requires At(v, SESSION_CUSTOMER) == Null || At(v, SESSION_CUSTOMER) in m
    ensures RefersAt(CM.ChangeStep(true, s, k, v, prior).state, j, m)
  {
    ChangeRefers(v, prior, CM.Pending(s, k), m);
  }

  lemma OnSessionKeeps(d: Desk, k: Key, f: CM.Callback, m: Rows)
    requires Inv(d, m) && PutsKnown(f, m)
    ensures Inv(OnSession(d, k, f), m)
  {
    FlushOneKeeps(d, k, m);
    var ready := if k in d.sessions.entries then d else FlushOne(d, k);
    var s := CM.MaybeFlushOne(ready.sessions, k, CC.HEALTHY).state;
    var cur := if k in s.entries then Some(s.entries[k]) else Lookup(s.db, k);
    assert PutKnown(f, cur, m);
    forall j ensures RefersAt(OnSession(d, k, f).sessions, j, m) {
      assert RefersAt(ready.sessions, j, m) && RefersAt(ready.sessions, k, m);
      ComputeRefers(s, k, cur, f, m, j);
    }
  }

  lemma {:induction false} CollectEachKeeps(d: Desk, keys: seq<Key>, m: Rows)
    requires Inv(d, m)
    ensures Inv(CollectEach(d, keys), m)
    decreases |keys|
  {
    if keys != [] {
      assert forall cur :: PutKnown(Expire(d.day), cur, m);
      OnSessionKeeps(d, keys[0], Expire(d.day), m);
      CollectEachKeeps(OnSession(d, keys[0], Expire(d.day)), keys[1..], m);
    }
  }

  lemma EventKeeps(d: Desk, e: Event, m: Rows)
    requires Inv(d, m) && Lawful(m, e)
    ensures Inv(React(d, e), Registered(m, e))
  {
    match e
    case AddCustomer(row) =>
      InsertMirrors(false, d.customers, row, m, CUSTOMER_WIDTH);
      forall k ensures RefersAt(d.sessions, k, Registered(m, e)) {
        assert RefersAt(d.sessions, k, m);
      }
    case FlushCustomers => FlushAllMirrors(d.customers, m, CUSTOMER_WIDTH);
    case AddSession(s) =>
      forall k ensures RefersAt(React(d, e).sessions, k, m) {
        assert RefersAt(d.sessions, k, m);
      }
    case UpdateSession(s) =>
      assert forall cur :: PutKnown(Login(s), cur, m);
      OnSessionKeeps(d, Int(s.id), Login(s), m);
    case CollectSessions(loggedIn) =>
      forall k ensures RefersAt(DropStubs(d).sessions, k, m) {
        assert RefersAt(d.sessions, k, m);
      }
      CollectEachKeeps(DropStubs(d), loggedIn, m);
    case FlushSessions => FlushAllKeeps(d, m);
    case FlushSession(k) => FlushOneKeeps(d, k, m);
    case Evict(k) =>
      forall j ensures RefersAt(React(d, e).sessions, j, m) {
        assert RefersAt(d.sessions, j, m);
      }
    case NextDay(_) =>
  }

  function ReactAll(d: Desk, events: seq<Event>): Desk
    decreases |events|
  {
    if events == [] then d else ReactAll(React(d, events[0]), events[1..])
  }

  predicate AllLawful(m: Rows, events: seq<Event>)
    decreases |events|
  {
    events == [] || (Lawful(m, events[0]) && AllLawful(Registered(m, events[0]), events[1..]))
  }

  lemma {:induction false} RunKeeps(d: Desk, events: seq<Event>, m: Rows)
    requires Inv(d, m) && AllLawful(m, events)
    ensures !ReactAll(d, events).violated
    decreases |events|
  {
    if events != [] {
      EventKeeps(d, events[0], m);
      RunKeeps(React(d, events[0]), events[1..], Registered(m, events[0]));
    }
  }

  // Whatever is collected, evicted or flushed, and however the session cache and its table drift apart: when each
  // customer precedes their sessions, no write-back of a session ever refers to a customer missing in the backend.
  lemma {:induction false} SessionsReferToCustomers(events: seq<Event>)
    requires AllLawful(map[], events)
    ensures var s := CM.State(map[], map[], map[]);
            !ReactAll(Desk(s, s, 0, false, false), events).violated
  {
    var s := CM.State(map[], map[], map[]);
    assert forall k :: MirrorsAt(s, map[], k, CUSTOMER_WIDTH) && RefersAt(s, k, map[]);
    RunKeeps(Desk(s, s, 0, false, false), events, map[]);
  }
}
