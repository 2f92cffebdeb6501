/** The session table under collection.  The plain company deletes every expired session in its table; the cached one
    deletes expired visitors' sessions behind the cache's back and removes the expired sessions of customers through
    the cache, but it looks for both in the backend.  So it misses exactly what the backend has not got yet. */
module Collecting {
  import opened Records
  import opened Backend
  import opened Company
  import opened Screenplay
  import opened Sessions
  import CC = CachedCompany
  import CM = CacheModel
  import DC = DataController
  import Refinement

  // The session cache is in order for this key: what is pending may be written; a cached session is the visible one,
  // unless its row has been collected meanwhile; visitors' sessions are never changed, and nobody turns into one.
  ghost predicate SoundAt(s: CM.State, k: Key) {
    var v := CM.View(s, k);
    && DC.Pends(k, CM.Pending(s, k), Lookup(s.db, k), v, SESSION_WIDTH)
    && (k in s.entries && v.Some? ==> v == Some(s.entries[k]))
    && (k in s.entries && v.None? ==> k !in s.db && CM.Pending(s, k).None?)
    && (k in s.db && Visitor(s.db[k]) ==> CM.Pending(s, k).None?)
    && (k in s.db && !Visitor(s.db[k]) && v.Some? ==> !Visitor(v.value))
  }

  ghost predicate Sound(s: CM.State) {
    forall k :: SoundAt(s, k)
  }

  // Rows appear only for sessions that are visible, and disappear only with them.
  predicate RowKept(s: CM.State, t: CM.State, k: Key) {
    && (k in t.db ==> k in s.db || CM.View(s, k).Some?)
    && (k in s.db && CM.View(t, k).Some? ==> k in t.db)
  }

  lemma RowKeptTwice(s: CM.State, t: CM.State, u: CM.State, k: Key)
    requires RowKept(s, t, k) && RowKept(t, u, k)
    requires (CM.View(t, k).Some? ==> CM.View(s, k).Some?) && (CM.View(u, k).Some? ==> CM.View(t, k).Some?)
    ensures RowKept(s, u, k)
  {
  }

  lemma SoundStays(s: CM.State, t: CM.State, k: Key)
    requires SoundAt(s, k) && Refinement.SameAt(s, t, k)
    ensures SoundAt(t, k) && CM.View(t, k) == CM.View(s, k) && (k in t.db <==> k in s.db)
  {
    assert (k in s.db <==> Lookup(s.db, k).Some?) && (k in t.db <==> Lookup(t.db, k).Some?);
    assert (k in s.entries <==> Lookup(s.entries, k).Some?) && (k in t.entries <==> Lookup(t.entries, k).Some?);
  }

  // ---- Flushes.

  // A flush is accepted and moves no view; what it has written is in the backend.
  lemma FlushSound(s: CM.State, keys: set<Key>, single: bool, k: Key)
    requires Sound(s)
    ensures var r := CM.FlushKeys(s, keys, single, CC.HEALTHY);
            && r.reply == CM.Done && r.state.entries == s.entries
            && SoundAt(r.state, k) && CM.View(r.state, k) == CM.View(s, k)
            && (k in keys ==> CM.Pending(r.state, k).None? && (k in r.state.db <==> CM.View(s, k).Some?))
            && (k !in keys ==> Refinement.SameAt(s, r.state, k))
  {
    var due := CM.DueAmong(s, keys);
    forall j | j in due ensures Accepts(due[j], Lookup(s.db, j)) {
      assert SoundAt(s, j);
    }
    assert SoundAt(s, k);
    WrittenRow(s.db, due, k);
    var r := CM.FlushKeys(s, keys, single, CC.HEALTHY);
    if k in due {
      Refinement.SeenRowFits(k, CM.Pending(s, k), Lookup(s.db, k), SESSION_WIDTH);
    }
  }

  // ---- Changes of one session.

  lemma InsertSound(s: CM.State, v: Row, k: Key)
    requires SoundAt(s, k) && Fits(CM.KeyOf(v), v, SESSION_WIDTH) && CM.KeyOf(v) !in s.db
    ensures var t := CM.InsertStep(true, s, v).state;
            && SoundAt(t, k) && CM.View(t, k) == (if k == CM.KeyOf(v) then Some(v) else CM.View(s, k))
            && t.db == s.db && CM.InsertStep(true, s, v).reply.Found?
  {
    var t := CM.InsertStep(true, s, v).state;
    if k == CM.KeyOf(v) {
      DC.NewPends(true, k, v, None, SESSION_WIDTH);
      assert CM.Pending(t, k) == DC.OnNew(true, v).update;
    } else {
      SoundStays(s, t, k);
    }
  }

  // A customer's session gets a new value.
  lemma ChangeSound(s: CM.State, k: Key, v: Row)
    requires SoundAt(s, k) && CM.View(s, k).Some? && Fits(k, v, SESSION_WIDTH)
    requires !Visitor(CM.View(s, k).value) && !Visitor(v)
    ensures var r := CM.ChangeStep(true, s, k, v, CM.View(s, k).value);
            r.reply.Computed? && SoundAt(r.state, k) && CM.View(r.state, k) == Some(v)
  {
    var prior := CM.View(s, k).value;
    DC.ChangePends(true, k, v, prior, CM.Pending(s, k), Lookup(s.db, k), SESSION_WIDTH);
    var t := CM.ChangeStep(true, s, k, v, prior).state;
    assert CM.Pending(t, k) == DC.OnChange(true, v, prior, CM.Pending(s, k)).response.update;
  }

  lemma RemoveSound(s: CM.State, k: Key)
    requires SoundAt(s, k) && (k in s.db ==> !Visitor(s.db[k]))
    ensures var r := CM.RemoveStep(true, s, k);
            r.reply.Computed? && SoundAt(r.state, k) && CM.View(r.state, k).None?
  {
    DC.DeletePends(true, k, CM.Pending(s, k), Lookup(s.db, k), CM.View(s, k), SESSION_WIDTH);
  }

  // A compute finds the visible session, and its own key is all it changes.
  lemma OnSessionIs(d: Desk, k: Key, f: CM.Callback, j: Key)
    requires Sound(d.sessions) && (k in d.sessions.entries ==> CM.View(d.sessions, k).Some?)
    ensures var ready := if k in d.sessions.entries then d.sessions else FlushOne(d, k).sessions;
            var r := CM.ComputeOn(true, ready, k, CM.View(d.sessions, k), f);
            && OnSession(d, k, f).sessions == r.state
            && SoundAt(ready, j) && CM.View(ready, j) == CM.View(d.sessions, j)
            && (j != k ==> Refinement.SameAt(d.sessions, ready, j))
            && (OnSession(d, k, f).refused <==>
                  (if k in d.sessions.entries then d.refused else FlushOne(d, k).refused) || r.reply == CM.Failed)
  {
    FlushSound(d.sessions, {k}, true, k);
    FlushSound(d.sessions, {k}, true, j);
    assert SoundAt(d.sessions, k) && SoundAt(d.sessions, j);
    var ready := if k in d.sessions.entries then d else FlushOne(d, k);
    assert k !in d.sessions.entries ==> CM.DueAmong(ready.sessions, {k}) == map[];
    assert CM.MaybeFlushOne(ready.sessions, k, CC.HEALTHY) == CM.Outcome(ready.sessions, CM.Done);
  }

  // ---- The desk: the sessions beside the customers they refer to.

  ghost predicate DeskSound(d: Desk, customers: Rows) {
    Inv(d, customers) && Sound(d.sessions) && !d.refused
  }

  lemma FlushAllSound(d: Desk, customers: Rows)
    requires DeskSound(d, customers)
    ensures DeskSound(FlushAll(d), customers)
    ensures forall k :: CM.View(FlushAll(d).sessions, k) == CM.View(d.sessions, k)
    ensures forall k :: Lookup(FlushAll(d).sessions.db, k) == CM.View(d.sessions, k)
  {
    FlushAllKeeps(d, customers);
    FlushMirrors(d.customers, CustomersOf(CM.DueAmong(d.sessions, d.sessions.pool.Keys)), false, customers,
                 CUSTOMER_WIDTH);
    var t := FlushAll(d).sessions;
    forall k
      ensures SoundAt(t, k) && CM.View(t, k) == CM.View(d.sessions, k) == Lookup(t.db, k)
    {
      FlushSound(d.sessions, d.sessions.pool.Keys, false, k);
    }
  }

  lemma FlushOneSound(d: Desk, k: Key, customers: Rows)
    requires DeskSound(d, customers)
    ensures DeskSound(FlushOne(d, k), customers)
  {
    FlushOneKeeps(d, k, customers);
    var due := CM.DueAmong(d.sessions, {k});
    if k in due && CustomerOf(due[k]).Some? {
      FlushMirrors(d.customers, {CustomerOf(due[k]).value}, true, customers, CUSTOMER_WIDTH);
    }
    FlushSound(d.sessions, {k}, true, k);
    forall j ensures SoundAt(FlushOne(d, k).sessions, j) {
      FlushSound(d.sessions, {k}, true, j);
    }
  }

  // A compute on a session that changes or removes it, as `after` says.
  lemma OnSessionSound(d: Desk, k: Key, f: CM.Callback, customers: Rows, after: Option<Row>)
    requires DeskSound(d, customers) && PutsKnown(f, customers)
    requires k in d.sessions.entries ==> CM.View(d.sessions, k).Some?
    requires forall t :: Becomes(t, k, CM.View(d.sessions, k), f, after)
    requires after.Some? ==> CM.View(d.sessions, k).Some?
    ensures var d' := OnSession(d, k, f);
            && DeskSound(d', customers) && d'.day == d.day
            && CM.View(d'.sessions, k) == after && RowKept(d.sessions, d'.sessions, k)
            && forall j :: j != k ==> CM.View(d'.sessions, j) == CM.View(d.sessions, j)
                                      && (j in d'.sessions.db <==> j in d.sessions.db)
                                      && Lookup(d'.sessions.db, j) == Lookup(d.sessions.db, j)
  {
    FlushOneSound(d, k, customers);
    OnSessionKeeps(d, k, f, customers);
    var ready := if k in d.sessions.entries then d.sessions else FlushOne(d, k).sessions;
    var d' := OnSession(d, k, f);
    OnSessionIs(d, k, f, k);
    FlushSound(d.sessions, {k}, true, k);
    ComputeWritesNothing(ready, k, CM.View(d.sessions, k), f);
    assert Becomes(ready, k, CM.View(d.sessions, k), f, after);
    forall j
      ensures SoundAt(d'.sessions, j)
      ensures j != k ==> CM.View(d'.sessions, j) == CM.View(d.sessions, j)
      ensures j != k ==> Refinement.SameAt(d.sessions, d'.sessions, j)
    {
      OnSessionIs(d, k, f, j);
      if j != k {
        Refinement.ComputeOnElsewhere(true, ready, k, CM.View(d.sessions, k), f, j);
        SoundStays(ready, d'.sessions, j);
      }
    }
    forall j | j != k ensures j in d'.sessions.db <==> j in d.sessions.db {
      assert Refinement.SameAt(d.sessions, d'.sessions, j);
      assert SoundAt(d.sessions, j);
      SoundStays(d.sessions, d'.sessions, j);
    }
  }

  lemma ComputeWritesNothing(s: CM.State, k: Key, cur: Option<Row>, f: CM.Callback)
    ensures CM.ComputeOn(true, s, k, cur, f).state.db == s.db
  {
  }

  // Running `f` on the record of `k` succeeds, leaves the key in order, and makes it read as `after`.
  ghost predicate Becomes(s: CM.State, k: Key, cur: Option<Row>, f: CM.Callback, after: Option<Row>) {
    SoundAt(s, k) && CM.View(s, k) == cur && (k !in s.entries ==> CM.Pending(s, k).None?) ==>
      var r := CM.ComputeOn(true, s, k, cur, f);
      r.reply != CM.Failed && SoundAt(r.state, k) && CM.View(r.state, k) == after
  }

  lemma LoginBecomes(t: CM.State, s: Session, cur: Row)
    requires s.customerId.Some? && !Visitor(cur)
    ensures Becomes(t, Int(s.id), Some(cur), Login(s), Some(SessionRow(s)))
  {
    var k := Int(s.id);
    if SoundAt(t, k) && CM.View(t, k) == Some(cur) {
      DC.SeenFits(k, CM.Pending(t, k), Lookup(t.db, k), cur, SESSION_WIDTH);
      assert Login(s)(Some(cur)) == CM.Put(SessionRow(s));
      ChangeSound(t, k, SessionRow(s));
    }
  }

  lemma ExpireBecomes(t: CM.State, k: Key, day: int, cur: Option<Row>)
    requires cur.Some? ==> !Visitor(cur.value)
    ensures Becomes(t, k, cur, Expire(day), if cur.Some? && Expired(cur.value, day) then None else cur)
  {
    if SoundAt(t, k) && CM.View(t, k) == cur && (k !in t.entries ==> CM.Pending(t, k).None?) {
      if cur.Some? && Expired(cur.value, day) {
        RemoveSound(t, k);
      }
    }
  }

  // A customer's session is updated.
  lemma LoginSound(d: Desk, s: Session, customers: Rows)
    requires DeskSound(d, customers) && s.customerId.Some? && Int(s.customerId.value) in customers
    requires CM.View(d.sessions, Int(s.id)).Some? && !Visitor(CM.View(d.sessions, Int(s.id)).value)
    ensures var d' := OnSession(d, Int(s.id), Login(s));
            && DeskSound(d', customers) && d'.day == d.day
            && CM.View(d'.sessions, Int(s.id)) == Some(SessionRow(s))
            && (forall j :: j != Int(s.id) ==> CM.View(d'.sessions, j) == CM.View(d.sessions, j))
            && (forall j :: RowKept(d.sessions, d'.sessions, j))
  {
    var cur := CM.View(d.sessions, Int(s.id)).value;
    assert forall c :: PutKnown(Login(s), c, customers);
    forall t ensures Becomes(t, Int(s.id), Some(cur), Login(s), Some(SessionRow(s))) {
      LoginBecomes(t, s, cur);
    }
    OnSessionSound(d, Int(s.id), Login(s), customers, Some(SessionRow(s)));
  }

  // ---- Collecting.

  // The rows with a customer, as the backend lists them: each once, in any order.
  ghost predicate Lists(keys: seq<Key>, db: Rows) {
    && DistinctSeq(keys)
    && (forall i :: 0 <= i < |keys| ==> keys[i] in db && !Visitor(db[keys[i]]))
    && (forall k :: k in db && !Visitor(db[k]) ==> k in keys)
  }

  // What is visible once the listed sessions have been visited.
  function Left(v: Option<Row>, day: int, visited: bool): Option<Row> {
    if visited && v.Some? && Expired(v.value, day) then None else v
  }

  lemma DropStubsSound(d: Desk, customers: Rows)
    requires DeskSound(d, customers)
    ensures DeskSound(DropStubs(d), customers)
    ensures forall k :: CM.View(DropStubs(d).sessions, k) ==
                        Left(CM.View(d.sessions, k), d.day, k in d.sessions.db && Visitor(d.sessions.db[k]))
  {
    var t := DropStubs(d).sessions;
    forall k
      ensures SoundAt(t, k) && RefersAt(t, k, customers)
      ensures CM.View(t, k) == Left(CM.View(d.sessions, k), d.day, k in d.sessions.db && Visitor(d.sessions.db[k]))
    {
      assert SoundAt(d.sessions, k) && RefersAt(d.sessions, k, customers);
      assert CM.Pending(t, k) == CM.Pending(d.sessions, k);
    }
  }

  // One listed session is visited.
  lemma VisitSound(d: Desk, k: Key, customers: Rows)
    requires DeskSound(d, customers) && k in d.sessions.db && !Visitor(d.sessions.db[k])
    ensures var d' := OnSession(d, k, Expire(d.day));
            && DeskSound(d', customers) && d'.day == d.day
            && (forall j :: CM.View(d'.sessions, j) == Left(CM.View(d.sessions, j), d.day, j == k))
            && (forall j :: RowKept(d.sessions, d'.sessions, j))
            && (forall j :: j != k ==> Lookup(d'.sessions.db, j) == Lookup(d.sessions.db, j))
  {
    var cur := CM.View(d.sessions, k);
    assert SoundAt(d.sessions, k);
    assert forall c :: PutKnown(Expire(d.day), c, customers);
    forall t ensures Becomes(t, k, cur, Expire(d.day), Left(cur, d.day, true)) {
      ExpireBecomes(t, k, d.day, cur);
    }
    OnSessionSound(d, k, Expire(d.day), customers, Left(cur, d.day, true));
  }

  lemma {:induction false} CollectEachSound(d: Desk, keys: seq<Key>, customers: Rows)
    requires DeskSound(d, customers) && DistinctSeq(keys)
    requires forall i :: 0 <= i < |keys| ==> keys[i] in d.sessions.db && !Visitor(d.sessions.db[keys[i]])
    ensures var d' := CollectEach(d, keys);
            && DeskSound(d', customers) && d'.day == d.day
            && (forall k :: CM.View(d'.sessions, k) == Left(CM.View(d.sessions, k), d.day, k in keys))
            && (forall k :: RowKept(d.sessions, d'.sessions, k))
    decreases |keys|
  {
    if keys != [] {
      var k, rest := keys[0], keys[1..];
      VisitSound(d, k, customers);
      var d1 := OnSession(d, k, Expire(d.day));
      forall i | 0 <= i < |rest| ensures rest[i] in d1.sessions.db && !Visitor(d1.sessions.db[rest[i]]) {
        assert rest[i] == keys[i + 1] && rest[i] != k;
        assert Lookup(d1.sessions.db, rest[i]) == Lookup(d.sessions.db, rest[i]);
      }
      CollectEachSound(d1, rest, customers);
      assert keys == [k] + rest && k !in rest;
      forall j
        ensures CM.View(CollectEach(d1, rest).sessions, j) == Left(CM.View(d.sessions, j), d.day, j in keys)
        ensures RowKept(d.sessions, CollectEach(d1, rest).sessions, j)
      {
        RowKeptTwice(d.sessions, d1.sessions, CollectEach(d1, rest).sessions, j);
      }
    }
  }

  function Collect(d: Desk, listed: seq<Key>): Desk {
    CollectEach(DropStubs(d), listed)
  }

  // Collecting takes away the expired sessions that have a row in the backend, and nothing else.
  lemma CollectTakes(d: Desk, listed: seq<Key>, customers: Rows)
    requires DeskSound(d, customers) && Lists(listed, DropStubs(d).sessions.db)
    ensures var d' := Collect(d, listed);
            && DeskSound(d', customers) && d'.day == d.day
            && (forall k :: CM.View(d'.sessions, k) == Left(CM.View(d.sessions, k), d.day, k in d.sessions.db))
            && (forall k :: RowKept(d.sessions, d'.sessions, k))
  {
    DropStubsSound(d, customers);
    CollectEachSound(DropStubs(d), listed, customers);
    var d1 := DropStubs(d);
    forall k
      ensures CM.View(Collect(d, listed).sessions, k) == Left(CM.View(d.sessions, k), d.day, k in d.sessions.db)
      ensures RowKept(d.sessions, Collect(d, listed).sessions, k)
    {
      assert SoundAt(d.sessions, k) && RowKept(d1.sessions, Collect(d, listed).sessions, k);
    }
  }

  // Every session that has expired has reached the backend.
  ghost predicate ExpiredAreStored(s: CM.State, day: int) {
    forall k :: CM.View(s, k).Some? && Expired(CM.View(s, k).value, day) ==> k in s.db
  }

  function CollectPlain(m: Rows, day: int): Rows {
    map k | k in m && !Expired(m[k], day) :: m[k]
  }

  // While the two session tables read the same, collecting keeps them so exactly when every expired session has a
  // row in the backend already, as it has after a flush.
  lemma CollectExact(d: Desk, listed: seq<Key>, customers: Rows, m: Rows)
    requires DeskSound(d, customers) && Lists(listed, DropStubs(d).sessions.db)
    requires forall k :: CM.View(d.sessions, k) == Lookup(m, k)
    ensures (forall k :: CM.View(Collect(d, listed).sessions, k) == Lookup(CollectPlain(m, d.day), k)) <==>
            ExpiredAreStored(d.sessions, d.day)
  {
    CollectTakes(d, listed, customers);
    var t, n := Collect(d, listed).sessions, CollectPlain(m, d.day);
    if ExpiredAreStored(d.sessions, d.day) {
    } else {
      var k :| CM.View(d.sessions, k).Some? && Expired(CM.View(d.sessions, k).value, d.day) && k !in d.sessions.db;
      assert CM.View(t, k) != Lookup(n, k);
    }
  }

  // Why a visitor's session must not be updated: once its old row has expired in the backend, the row is deleted behind
  // the pending update, the session is lost although it lasts, and every flush with it is refused.
  lemma UpdatedVisitorIsLost(d: Desk, k: Key)
    requires k in d.sessions.db && Visitor(d.sessions.db[k]) && Expired(d.sessions.db[k], d.day)
    requires CM.Pending(d.sessions, k).Some? && CM.Pending(d.sessions, k).value.Update?
    ensures CM.View(d.sessions, k).Some?
    ensures CM.View(DropStubs(d).sessions, k).None? && FlushAll(DropStubs(d)).refused
  {
    var t := DropStubs(d).sessions;
    assert k in CM.DueAmong(t, t.pool.Keys) && CM.DueAmong(t, t.pool.Keys)[k].Update? && k !in t.db;
  }

  lemma FlushStores(d: Desk, customers: Rows)
    requires DeskSound(d, customers)
    ensures ExpiredAreStored(FlushAll(d).sessions, d.day)
  {
    FlushAllSound(d, customers);
    var t := FlushAll(d).sessions;
    forall k | CM.View(t, k).Some? ensures k in t.db {
      assert Lookup(t.db, k) == CM.View(t, k);
    }
  }
}
