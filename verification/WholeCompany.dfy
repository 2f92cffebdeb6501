/** The cached company with all five of its caches: what `Screenplay` says of products, inventory, customers and orders,
    and what becomes of the sessions beside them. */
module WholeCompany {
  import opened Records
  import opened Backend
  import opened Company
  import opened Scripting
  import opened Screenplay
  import opened Sessions
  import opened Collecting
  import CC = CachedCompany
  import CM = CacheModel

  datatype Whole = Whole(caches: CC.Caches, sessions: CM.State)

  datatype Acted = Acted(whole: Whole, ok: bool)

  // `listed` is what the backend answers when sessions are collected.
  datatype Happening =
    | Act(step: Step, listed: seq<Key>)
    | Monitor(table: CC.Table)
    | Evict(table: CC.Table, key: Key)
    | MonitorSessions
    | EvictSession(key: Key)

  function DeskOf(w: Whole): Desk {
    Desk(w.caches.customers, w.sessions, w.caches.day, false, false)
  }

  function Rejoin(w: Whole, d: Desk): Acted {
    Acted(Whole(w.caches.(customers := d.customers), d.sessions), !d.violated && !d.refused)
  }

  function ActOut(w: Whole, step: Step, listed: seq<Key>): Acted {
    match step
    case AddSession(s) =>
      var r := CM.InsertStep(true, w.sessions, SessionRow(s));
      Acted(w.(sessions := r.state), r.reply != CM.Failed)
    case UpdateSession(s) => Rejoin(w, OnSession(DeskOf(w), Int(s.id), Login(s)))
    case CollectSessions => Rejoin(w, Collect(DeskOf(w), listed))
    case _ =>
      var r := CC.CachedStep(w.caches, step);
      Acted(w.(caches := r.caches), r.ok)
  }

  function Happens(w: Whole, h: Happening): Acted {
    match h
    case Act(step, listed) => ActOut(w, step, listed)
    case Monitor(table) =>
      var r := CC.React(w.caches, CC.Monitor(table));
      Acted(w.(caches := r.caches), r.ok)
    case Evict(table, k) => Acted(w.(caches := CC.Evicted(w.caches, table, k)), true)
    case MonitorSessions => Rejoin(w, Sessions.FlushAll(DeskOf(w)))
    case EvictSession(k) => Acted(w.(sessions := CM.Uncache(w.sessions, k).state), true)
  }

  // A run stops at the first failure, in a step or in the background.
  function HappenAll(w: Whole, run: seq<Happening>): Acted
    decreases |run|
  {
    if run == [] then Acted(w, true)
    else
      var r := Happens(w, run[0]);
      if !r.ok then r else HappenAll(r.whole, run[1..])
  }

  function ScriptOf(run: seq<Happening>): Script
    decreases |run|
  {
    if run == [] then []
    else if run[0].Act? then [run[0].step] + ScriptOf(run[1..])
    else ScriptOf(run[1..])
  }

  // The curtain call: the sessions are closed last.
  function Closed(w: Whole): Acted {
    var four := CC.Closed(w.caches);
    if !four.ok then Acted(w.(caches := four.caches), false)
    else Rejoin(w.(caches := four.caches), Sessions.FlushAll(DeskOf(w.(caches := four.caches))))
  }

  function OpenedOn(): Whole {
    Whole(CC.OpenedOn(), CM.State(map[], map[], map[]))
  }

  // The backend tells the truth when it is asked for the sessions of customers.
  ghost predicate Answered(w: Whole, run: seq<Happening>)
    decreases |run|
  {
    run == [] ||
    ((run[0].Act? && run[0].step.CollectSessions? ==> Lists(run[0].listed, DropStubs(DeskOf(w)).sessions.db)) &&
     Answered(Happens(w, run[0]).whole, run[1..]))
  }

  // ---- The invariant.

  // A session of the plain table is visible through the cache; what else is visible has expired.
  predicate FollowsAt(s: CM.State, b: Books, k: Key) {
    && (k in b.sessions ==> CM.View(s, k) == Some(b.sessions[k]))
    && (k !in b.sessions && CM.View(s, k).Some? ==> Expired(CM.View(s, k).value, b.day))
  }

  predicate NewAt(s: CM.State, done: Script, k: Key) {
    (k in s.db || CM.View(s, k).Some?) ==> Added(done, k)
  }

  ghost predicate Agree(w: Whole, b: Books, done: Script) {
    && Related(w.caches, b) && DeskSound(DeskOf(w), b.customers)
    && (forall k :: FollowsAt(w.sessions, b, k)) && (forall k :: NewAt(w.sessions, done, k))
  }

  // Visible, but gone from the plain table.
  predicate Straggler(s: CM.State, b: Books, k: Key) {
    CM.View(s, k).Some? && k !in b.sessions
  }

  // ---- Steps.

  lemma AddedMore(done: Script, step: Step, k: Key)
    ensures Added(done + [step], k) <==> Added(done, k) || (step.AddSession? && Int(step.session.id) == k)
  {
    if Added(done, k) {
      var i :| 0 <= i < |done| && done[i].AddSession? && Int(done[i].session.id) == k;
      assert (done + [step])[i] == done[i];
    }
    if step.AddSession? {
      assert (done + [step])[|done|] == step;
    }
  }

  // What has to be shown of a step: the sessions of both companies have moved alike.
  ghost predicate MovedAlike(w: Whole, b: Books, w': Whole, b': Books, done: Script, k: Key) {
    && FollowsAt(w'.sessions, b', k) && NewAt(w'.sessions, done, k) && RowKept(w.sessions, w'.sessions, k)
    && (Straggler(w'.sessions, b', k) <==> Straggler(w.sessions, b, k))
  }

  lemma AddSessionAgrees(w: Whole, b: Books, done: Script, s: Session, listed: seq<Key>)
    requires Agree(w, b, done) && !Added(done, Int(s.id)) && PlainStep(b, Step.AddSession(s)).error.None?
    ensures var r := ActOut(w, Step.AddSession(s), listed);
            var b' := PlainStep(b, Step.AddSession(s)).books;
            && r.ok && Agree(r.whole, b', done + [Step.AddSession(s)])
            && forall k :: MovedAlike(w, b, r.whole, b', done + [Step.AddSession(s)], k)
  {
    var w', b' := ActOut(w, Step.AddSession(s), listed).whole, PlainStep(b, Step.AddSession(s)).books;
    var row := SessionRow(s);
    assert NewAt(w.sessions, done, Int(s.id));
    forall k
      ensures SoundAt(w'.sessions, k) && RefersAt(w'.sessions, k, b'.customers)
      ensures FollowsAt(w'.sessions, b', k) && NewAt(w'.sessions, done + [Step.AddSession(s)], k)
      ensures MovedAlike(w, b, w', b', done + [Step.AddSession(s)], k)
    {
      assert SoundAt(w.sessions, k) && RefersAt(w.sessions, k, b.customers) && FollowsAt(w.sessions, b, k);
      assert NewAt(w.sessions, done, k) && SoundAt(w.sessions, CM.KeyOf(row));
      InsertSound(w.sessions, row, k);
      InsertSound(w.sessions, row, CM.KeyOf(row));
      AddedMore(done, Step.AddSession(s), k);
    }
    SessionsMoved(w.caches, b, b'.sessions);
  }

  // The customers have moved to the backend, or not, and the sessions have changed.
  lemma Rejoined(w: Whole, b: Books, d: Desk, sessions: Rows)
    requires Related(w.caches, b) && DeskSound(d, b.customers) && d.day == w.caches.day
    ensures var r := Rejoin(w, d);
            r.ok && Related(r.whole.caches, b.(sessions := sessions)) && DeskSound(DeskOf(r.whole), b.customers)
  {
    var c' := Rejoin(w, d).whole.caches;
    CachesMoved(w.caches, b, c');
    SessionsMoved(c', b, sessions);
  }

  lemma UpdateSessionAgrees(w: Whole, b: Books, done: Script, s: Session, listed: seq<Key>)
    requires Agree(w, b, done) && SeatedStep(done, Step.UpdateSession(s)) && b == Play(Empty(), done).books
    requires PlainStep(b, Step.UpdateSession(s)).error.None?
    ensures var r := ActOut(w, Step.UpdateSession(s), listed);
            var b' := PlainStep(b, Step.UpdateSession(s)).books;
            && r.ok && Agree(r.whole, b', done + [Step.UpdateSession(s)])
            && forall k :: MovedAlike(w, b, r.whole, b', done + [Step.UpdateSession(s)], k)
  {
    var w', b' := ActOut(w, Step.UpdateSession(s), listed).whole, PlainStep(b, Step.UpdateSession(s)).books;
    assert FollowsAt(w.sessions, b, Int(s.id));
    LoginSound(DeskOf(w), s, b.customers);
    Rejoined(w, b, OnSession(DeskOf(w), Int(s.id), Login(s)), b'.sessions);
    forall k
      ensures FollowsAt(w'.sessions, b', k) && NewAt(w'.sessions, done + [Step.UpdateSession(s)], k)
      ensures MovedAlike(w, b, w', b', done + [Step.UpdateSession(s)], k)
    {
      assert FollowsAt(w.sessions, b, k) && NewAt(w.sessions, done, k) && RowKept(w.sessions, w'.sessions, k);
      AddedMore(done, Step.UpdateSession(s), k);
    }
  }

  lemma CollectAgrees(w: Whole, b: Books, done: Script, listed: seq<Key>)
    requires Agree(w, b, done) && Lists(listed, DropStubs(DeskOf(w)).sessions.db)
    ensures var r := ActOut(w, Step.CollectSessions, listed);
            var b' := PlainStep(b, Step.CollectSessions).books;
            && r.ok && Agree(r.whole, b', done + [Step.CollectSessions])
            && (forall k :: RowKept(w.sessions, r.whole.sessions, k))
            && ((forall k :: !Straggler(r.whole.sessions, b', k)) <==> ExpiredAreStored(w.sessions, b.day))
  {
    var w', b' := ActOut(w, Step.CollectSessions, listed).whole, PlainStep(b, Step.CollectSessions).books;
    CollectTakes(DeskOf(w), listed, b.customers);
    Rejoined(w, b, Collect(DeskOf(w), listed), b'.sessions);
    forall k
      ensures FollowsAt(w'.sessions, b', k) && NewAt(w'.sessions, done + [Step.CollectSessions], k)
      ensures Straggler(w'.sessions, b', k) <==>
              CM.View(w.sessions, k).Some? && Expired(CM.View(w.sessions, k).value, b.day) && k !in w.sessions.db
    {
      assert FollowsAt(w.sessions, b, k) && NewAt(w.sessions, done, k) && RowKept(w.sessions, w'.sessions, k);
      AddedMore(done, Step.CollectSessions, k);
    }
  }

  predicate OfSessions(step: Step) {
    step.AddSession? || step.UpdateSession? || step.CollectSessions?
  }

  // A step that is not about sessions leaves them alone; customers only get more.
  lemma PlainSessions(b: Books, step: Step)
    requires !OfSessions(step)
    ensures var b' := PlainStep(b, step).books;
            && b'.sessions == b.sessions && (forall k :: k in b.customers ==> k in b'.customers)
            && b'.day == (if step.Day? then step.day else b.day)
  {
    if IsOrder(step) {
      StockAside(b, step.order);
    }
  }

  lemma StockAside(b: Books, o: Order)
    ensures var b' := TakeStock(b, o).books;
            b'.sessions == b.sessions && b'.customers == b.customers && b'.day == b.day
  {
  }

  lemma OtherStepAgrees(w: Whole, b: Books, done: Script, step: Step, listed: seq<Key>)
    requires Agree(w, b, done) && b == Play(Empty(), done).books && !OfSessions(step)
    requires Orderly(b, step) && SeatedStep(done, step) && PlainStep(b, step).error.None?
    ensures var r := ActOut(w, step, listed);
            && r.ok && Agree(r.whole, PlainStep(b, step).books, done + [step])
            && forall k :: MovedAlike(w, b, r.whole, PlainStep(b, step).books, done + [step], k)
  {
    StepKeeps(w.caches, b, step);
    PlainSessions(b, step);
    var b' := PlainStep(b, step).books;
    CachesReplaced(w, b, done, CC.CachedStep(w.caches, step).caches, b');
    var w' := ActOut(w, step, listed).whole;
    forall k ensures NewAt(w'.sessions, done + [step], k) && MovedAlike(w, b, w', b', done + [step], k) {
      assert FollowsAt(w.sessions, b, k) && NewAt(w.sessions, done, k);
      AddedMore(done, step, k);
    }
  }

  // The other four caches have moved; the sessions stay.
  lemma CachesReplaced(w: Whole, b: Books, done: Script, c': CC.Caches, b': Books)
    requires Agree(w, b, done) && Related(c', b') && b'.sessions == b.sessions && b.day <= b'.day
    requires forall k :: k in b.customers ==> k in b'.customers
    ensures Agree(w.(caches := c'), b', done)
  {
    var w' := w.(caches := c');
    forall k
      ensures RefersAt(w'.sessions, k, b'.customers) && SoundAt(w'.sessions, k) && FollowsAt(w'.sessions, b', k)
    {
      assert RefersAt(w.sessions, k, b.customers) && SoundAt(w.sessions, k) && FollowsAt(w.sessions, b, k);
    }
  }

  // ---- The background.

  lemma BackgroundAgrees(w: Whole, b: Books, done: Script, h: Happening)
    requires Agree(w, b, done) && !h.Act?
    ensures var r := Happens(w, h);
            && r.ok && Agree(r.whole, b, done)
            && (forall k :: MovedAlike(w, b, r.whole, b, done, k))
            && (h.MonitorSessions? ==> forall k :: CM.View(r.whole.sessions, k).Some? ==> k in r.whole.sessions.db)
  {
    match h
    case Monitor(table) =>
      BackgroundKeeps(w.caches, b, CC.Monitor(table));
      CachesReplaced(w, b, done, CC.React(w.caches, CC.Monitor(table)).caches, b);
    case Evict(table, k) =>
      EvictKeeps(w.caches, b, table, k);
      CachesReplaced(w, b, done, CC.Evicted(w.caches, table, k), b);
    case MonitorSessions => SessionsFlushed(w, b, done);
    case EvictSession(k) => SessionEvicted(w, b, done, k);
  }

  lemma SessionsFlushed(w: Whole, b: Books, done: Script)
    requires Agree(w, b, done)
    ensures var r := Happens(w, MonitorSessions);
            && r.ok && Agree(r.whole, b, done)
            && (forall k :: Lookup(r.whole.sessions.db, k) == CM.View(w.sessions, k) == CM.View(r.whole.sessions, k))
            && (forall k :: MovedAlike(w, b, r.whole, b, done, k))
  {
    FlushAllSound(DeskOf(w), b.customers);
    Rejoined(w, b, Sessions.FlushAll(DeskOf(w)), b.sessions);
    var w' := Happens(w, MonitorSessions).whole;
    forall k ensures FollowsAt(w'.sessions, b, k) && NewAt(w'.sessions, done, k) && MovedAlike(w, b, w', b, done, k) {
      assert FollowsAt(w.sessions, b, k) && NewAt(w.sessions, done, k);
      assert Lookup(w'.sessions.db, k) == CM.View(w.sessions, k) == CM.View(w'.sessions, k);
    }
  }

  lemma SessionEvicted(w: Whole, b: Books, done: Script, j: Key)
    requires Agree(w, b, done)
    ensures var w' := Happens(w, EvictSession(j)).whole;
            Agree(w', b, done) && forall k :: MovedAlike(w, b, w', b, done, k)
  {
    var w' := Happens(w, EvictSession(j)).whole;
    forall k
      ensures SoundAt(w'.sessions, k) && RefersAt(w'.sessions, k, b.customers) && MovedAlike(w, b, w', b, done, k)
      ensures FollowsAt(w'.sessions, b, k) && NewAt(w'.sessions, done, k)
    {
      assert SoundAt(w.sessions, k) && RefersAt(w.sessions, k, b.customers);
      assert FollowsAt(w.sessions, b, k) && NewAt(w.sessions, done, k);
    }
  }

  // ---- Whole runs.

  lemma NextSeated(done: Script, step: Step, rest: Script)
    requires Seated(done + ([step] + rest))
    ensures SeatedStep(done, step) && done + [step] + rest == done + ([step] + rest)
  {
    var all := done + ([step] + rest);
    assert SeatedAt(all, |done|) && all[..|done|] == done && all[|done|] == step;
  }

  lemma ActAgrees(w: Whole, b: Books, done: Script, step: Step, listed: seq<Key>)
    requires Agree(w, b, done) && b == Play(Empty(), done).books
    requires Orderly(b, step) && SeatedStep(done, step) && PlainStep(b, step).error.None?
    requires step.CollectSessions? ==> Lists(listed, DropStubs(DeskOf(w)).sessions.db)
    ensures var r := ActOut(w, step, listed);
            var b' := PlainStep(b, step).books;
            && r.ok && Agree(r.whole, b', done + [step])
            && (forall k :: RowKept(w.sessions, r.whole.sessions, k))
            && (!step.CollectSessions? ==>
                  forall k :: Straggler(r.whole.sessions, b', k) <==> Straggler(w.sessions, b, k))
            && (step.CollectSessions? ==>
                  ((forall k :: !Straggler(r.whole.sessions, b', k)) <==> ExpiredAreStored(w.sessions, b.day)))
  {
    var w', b' := ActOut(w, step, listed).whole, PlainStep(b, step).books;
    if step.CollectSessions? {
      CollectAgrees(w, b, done, listed);
    } else {
      QuietAgrees(w, b, done, step, listed);
      forall k
        ensures RowKept(w.sessions, w'.sessions, k)
        ensures Straggler(w'.sessions, b', k) <==> Straggler(w.sessions, b, k)
      {
        assert MovedAlike(w, b, w', b', done + [step], k);
      }
    }
  }

  lemma QuietAgrees(w: Whole, b: Books, done: Script, step: Step, listed: seq<Key>)
    requires Agree(w, b, done) && b == Play(Empty(), done).books && !step.CollectSessions?
    requires Orderly(b, step) && SeatedStep(done, step) && PlainStep(b, step).error.None?
    ensures var r := ActOut(w, step, listed);
            && r.ok && Agree(r.whole, PlainStep(b, step).books, done + [step])
            && forall k :: MovedAlike(w, b, r.whole, PlainStep(b, step).books, done + [step], k)
  {
    match step
    case AddSession(s) => AddSessionAgrees(w, b, done, s, listed);
    case UpdateSession(s) => UpdateSessionAgrees(w, b, done, s, listed);
    case _ => OtherStepAgrees(w, b, done, step, listed);
  }

  // Were all expired sessions in the backend when sessions were last collected?
  ghost predicate Complete(w: Whole, run: seq<Happening>, sofar: bool)
    decreases |run|
  {
    if run == [] then sofar
    else
      Complete(Happens(w, run[0]).whole, run[1..],
               if run[0].Act? && run[0].step.CollectSessions? then ExpiredAreStored(w.sessions, w.caches.day)
               else sofar)
  }

  lemma {:induction false} RunAgrees(w: Whole, b: Books, done: Script, run: seq<Happening>, sofar: bool)
    requires Agree(w, b, done) && Play(Empty(), done) == Outcome(b, None)
    requires AllOrderly(b, ScriptOf(run)) && Play(b, ScriptOf(run)).error.None?
    requires Seated(done + ScriptOf(run)) && Answered(w, run)
    requires sofar <==> forall k :: !Straggler(w.sessions, b, k)
    ensures var r := HappenAll(w, run);
            var b' := Play(b, ScriptOf(run)).books;
            && r.ok && Agree(r.whole, b', done + ScriptOf(run))
            && (Complete(w, run, sofar) <==> forall k :: !Straggler(r.whole.sessions, b', k))
    decreases |run|
  {
    if run == [] {
      assert done + [] == done;
    } else if run[0].Act? {
      var step, rest := run[0].step, ScriptOf(run[1..]);
      var script := ScriptOf(run);
      assert script[0] == step && script[1..] == rest;
      NextSeated(done, step, rest);
      ActAgrees(w, b, done, step, run[0].listed);
      PlayOne(done, step);
      RunAgrees(Happens(w, run[0]).whole, PlainStep(b, step).books, done + [step], run[1..],
                if step.CollectSessions? then ExpiredAreStored(w.sessions, w.caches.day) else sofar);
    } else {
      BackgroundAgrees(w, b, done, run[0]);
      var w' := Happens(w, run[0]).whole;
      forall k ensures Straggler(w'.sessions, b, k) <==> Straggler(w.sessions, b, k) {
        assert MovedAlike(w, b, w', b, done, k);
      }
      RunAgrees(w', b, done, run[1..], sofar);
    }
  }

  lemma OpenedAgrees()
    ensures Agree(OpenedOn(), Empty(), []) && forall k :: !Straggler(OpenedOn().sessions, Empty(), k)
  {
    OpenedRelated();
    var s := OpenedOn().sessions;
    assert forall k :: RefersAt(s, k, map[]) && SoundAt(s, k) && FollowsAt(s, Empty(), k) && NewAt(s, [], k);
  }

  // What the curtain call leaves in the backend.
  ghost predicate TablesMatch(w: Whole, b: Books) {
    && w.caches.products.db == b.products && w.caches.inventory.db == b.inventory
    && w.caches.customers.db == b.customers && w.caches.orders.db == b.orders
    && (forall k :: k in b.sessions ==> Lookup(w.sessions.db, k) == Some(b.sessions[k]))
    && (forall k :: k in w.sessions.db && k !in b.sessions ==> Expired(w.sessions.db[k], b.day))
  }

  lemma ClosedMatches(w: Whole, b: Books, done: Script)
    requires Agree(w, b, done)
    ensures var r := Closed(w);
            && r.ok && TablesMatch(r.whole, b)
            && (r.whole.sessions.db == b.sessions <==> forall k :: !Straggler(w.sessions, b, k))
  {
    CurtainCallWrites(w.caches, b);
    var w1 := w.(caches := CC.Closed(w.caches).caches);
    CachesReplaced(w, b, done, w1.caches, b);
    SessionsFlushed(w1, b, done);
    FourStay(w1, b);
    var t := Closed(w).whole.sessions;
    forall k ensures Lookup(t.db, k) == CM.View(w.sessions, k) && FollowsAt(w.sessions, b, k) {
      assert Lookup(t.db, k) == CM.View(w1.sessions, k);
    }
    assert forall k :: k in t.db <==> Lookup(t.db, k).Some?;
    if forall k :: !Straggler(w.sessions, b, k) {
      forall k ensures Lookup(t.db, k) == Lookup(b.sessions, k) {
        assert FollowsAt(w.sessions, b, k) && !Straggler(w.sessions, b, k);
      }
      RowsEqual(t.db, b.sessions);
    } else {
      var k :| Straggler(w.sessions, b, k);
      assert k in t.db && k !in b.sessions;
    }
  }

  // Once the customers are written, flushing the sessions writes no customer.
  lemma FourStay(w: Whole, b: Books)
    requires Related(w.caches, b) && DeskSound(DeskOf(w), b.customers) && w.caches.customers.db == b.customers
    ensures Sessions.FlushAll(DeskOf(w)).customers.db == b.customers
  {
    var ids := CustomersOf(CM.DueAmong(w.sessions, w.sessions.pool.Keys));
    FlushMirrors(w.caches.customers, ids, false, b.customers, CUSTOMER_WIDTH);
    var s, t := w.caches.customers, Sessions.FlushAll(DeskOf(w)).customers;
    forall k ensures Lookup(t.db, k) == Lookup(b.customers, k) {
      WrittenRow(s.db, CM.DueAmong(s, ids), k);
      assert MirrorsAt(s, b.customers, k, CUSTOMER_WIDTH);
    }
    RowsEqual(t.db, b.customers);
  }

  // A screenplay that the plain company plays without a failure.
  ghost predicate Lawful(run: seq<Happening>) {
    && AllOrderly(Empty(), ScriptOf(run)) && Play(Empty(), ScriptOf(run)).error.None?
    && Seated(ScriptOf(run)) && Answered(OpenedOn(), run)
  }

  // The cached company plays it without a failure, whatever is flushed and evicted meanwhile, and no write-back is
  // refused.  After the curtain call four tables are equal; the session table has all that the plain one has, and the
  // rest of it has expired.  It is equal exactly when, at the last collection, all expired sessions had reached the
  // backend.
  lemma {:induction false} AllTables(run: seq<Happening>)
    requires Lawful(run)
    ensures var r := HappenAll(OpenedOn(), run);
            var closed := Closed(r.whole);
            var b := Play(Empty(), ScriptOf(run)).books;
            && r.ok && closed.ok && TablesMatch(closed.whole, b)
            && (closed.whole.sessions.db == b.sessions <==> Complete(OpenedOn(), run, true))
  {
    OpenedAgrees();
    assert [] + ScriptOf(run) == ScriptOf(run);
    RunAgrees(OpenedOn(), Empty(), [], run, true);
    ClosedMatches(HappenAll(OpenedOn(), run).whole, Play(Empty(), ScriptOf(run)).books, [] + ScriptOf(run));
  }

  // ---- When collections are complete.

  // Of the sessions added since step `from`, none has expired by the time of the collection.
  predicate NewerLast(done: Script, from: nat) {
    var b := Play(Empty(), done).books;
    forall i :: from <= i < |done| && done[i].AddSession? ==>
      var k := Int(done[i].session.id);
      k in b.sessions ==> !Expired(b.sessions[k], b.day)
  }

  // Every collection comes after a flush of the sessions, since which only sessions were added that last longer.
  // `from` is the number of steps played before the last flush.
  predicate Timely(done: Script, from: nat, run: seq<Happening>)
    decreases |run|
  {
    if run == [] then true
    else
      match run[0]
      case Act(step, _) =>
        (step.CollectSessions? ==> NewerLast(done, from)) && Timely(done + [step], from, run[1..])
      case MonitorSessions => Timely(done, |done|, run[1..])
      case _ => Timely(done, from, run[1..])
  }

  function FlushedAt(h: Happening, done: Script, from: nat): nat {
    if h.MonitorSessions? then |done| else from
  }

  predicate AddedSince(done: Script, from: nat, k: Key) {
    exists i :: from <= i < |done| && done[i].AddSession? && Int(done[i].session.id) == k
  }

  // Only sessions added lately have still to reach the backend.
  predicate StoredAt(s: CM.State, done: Script, from: nat, k: Key) {
    CM.View(s, k).Some? && k !in s.db ==> AddedSince(done, from, k)
  }

  lemma SinceMore(done: Script, from: nat, step: Step, k: Key)
    requires from <= |done|
    ensures AddedSince(done + [step], from, k) <==>
            AddedSince(done, from, k) || (step.AddSession? && Int(step.session.id) == k)
  {
    if AddedSince(done, from, k) {
      var i :| from <= i < |done| && done[i].AddSession? && Int(done[i].session.id) == k;
      assert (done + [step])[i] == done[i];
    }
    if step.AddSession? {
      assert (done + [step])[|done|] == step;
    }
  }

  lemma StoredStep(s: CM.State, t: CM.State, done: Script, from: nat, step: Step, k: Key)
    requires from <= |done| && StoredAt(s, done, from, k) && RowKept(s, t, k)
    requires CM.View(t, k).Some? ==> CM.View(s, k).Some? || (step.AddSession? && Int(step.session.id) == k)
    ensures StoredAt(t, done + [step], from, k)
  {
    SinceMore(done, from, step, k);
  }

  // What is visible after a step was visible before, unless the step has added it.
  lemma VisibleBefore(w: Whole, b: Books, done: Script, step: Step, listed: seq<Key>, k: Key)
    requires Agree(w, b, done) && b == Play(Empty(), done).books
    requires Orderly(b, step) && SeatedStep(done, step) && PlainStep(b, step).error.None?
    requires step.CollectSessions? ==> Lists(listed, DropStubs(DeskOf(w)).sessions.db)
    requires CM.View(ActOut(w, step, listed).whole.sessions, k).Some?
    ensures CM.View(w.sessions, k).Some? || (step.AddSession? && Int(step.session.id) == k)
  {
    match step
    case AddSession(s) =>
      assert NewAt(w.sessions, done, Int(s.id)) && SoundAt(w.sessions, k);
      InsertSound(w.sessions, SessionRow(s), k);
    case UpdateSession(s) =>
      assert FollowsAt(w.sessions, b, Int(s.id));
      LoginSound(DeskOf(w), s, b.customers);
    case CollectSessions => CollectTakes(DeskOf(w), listed, b.customers);
    case _ =>
  }

  lemma {:induction false} TimelyComplete(w: Whole, b: Books, done: Script, from: nat, run: seq<Happening>)
    requires Agree(w, b, done) && Play(Empty(), done) == Outcome(b, None) && from <= |done|
    requires AllOrderly(b, ScriptOf(run)) && Play(b, ScriptOf(run)).error.None?
    requires Seated(done + ScriptOf(run)) && Answered(w, run) && Timely(done, from, run)
    requires (forall k :: !Straggler(w.sessions, b, k)) && forall k :: StoredAt(w.sessions, done, from, k)
    ensures Complete(w, run, true)
    decreases |run|
  {
    if run == [] {
    } else if run[0].Act? {
      var step, rest, listed := run[0].step, ScriptOf(run[1..]), run[0].listed;
      var script := ScriptOf(run);
      assert script[0] == step && script[1..] == rest;
      NextSeated(done, step, rest);
      ActAgrees(w, b, done, step, listed);
      PlayOne(done, step);
      var w' := ActOut(w, step, listed).whole;
      forall k ensures StoredAt(w'.sessions, done + [step], from, k) {
        if CM.View(w'.sessions, k).Some? {
          VisibleBefore(w, b, done, step, listed, k);
        }
        StoredStep(w.sessions, w'.sessions, done, from, step, k);
      }
      if step.CollectSessions? {
        NewerStored(w, b, done, from);
      }
      TimelyComplete(w', PlainStep(b, step).books, done + [step], from, run[1..]);
    } else {
      BackgroundStored(w, b, done, from, run[0]);
      TimelyComplete(Happens(w, run[0]).whole, b, done, FlushedAt(run[0], done, from), run[1..]);
    }
  }

  lemma NewerStored(w: Whole, b: Books, done: Script, from: nat)
    requires Agree(w, b, done) && b == Play(Empty(), done).books && NewerLast(done, from)
    requires (forall k :: !Straggler(w.sessions, b, k)) && forall k :: StoredAt(w.sessions, done, from, k)
    ensures ExpiredAreStored(w.sessions, b.day)
  {
    forall k | CM.View(w.sessions, k).Some? && Expired(CM.View(w.sessions, k).value, b.day) ensures k in w.sessions.db {
      assert FollowsAt(w.sessions, b, k) && !Straggler(w.sessions, b, k) && StoredAt(w.sessions, done, from, k);
    }
  }

  lemma BackgroundStored(w: Whole, b: Books, done: Script, from: nat, h: Happening)
    requires Agree(w, b, done) && !h.Act? && from <= |done|
    requires (forall k :: !Straggler(w.sessions, b, k)) && forall k :: StoredAt(w.sessions, done, from, k)
    ensures var r := Happens(w, h);
            && Agree(r.whole, b, done)
            && (forall k :: !Straggler(r.whole.sessions, b, k))
            && forall k :: StoredAt(r.whole.sessions, done, FlushedAt(h, done, from), k)
  {
    BackgroundAgrees(w, b, done, h);
    var w' := Happens(w, h).whole;
    forall k
      ensures !Straggler(w'.sessions, b, k)
      ensures StoredAt(w'.sessions, done, FlushedAt(h, done, from), k)
    {
      assert MovedAlike(w, b, w', b, done, k) && !Straggler(w.sessions, b, k) && StoredAt(w.sessions, done, from, k);
      assert FollowsAt(w'.sessions, b, k) && FollowsAt(w.sessions, b, k);
    }
  }

  // With a flush in time before every collection, all five tables are equal.
  lemma {:induction false} TimelyTables(run: seq<Happening>)
    requires Lawful(run) && Timely([], 0, run)
    ensures Closed(HappenAll(OpenedOn(), run).whole).whole.sessions.db == Play(Empty(), ScriptOf(run)).books.sessions
  {
    AllTables(run);
    OpenedAgrees();
    assert [] + ScriptOf(run) == ScriptOf(run);
    assert forall k :: StoredAt(OpenedOn().sessions, [], 0, k);
    TimelyComplete(OpenedOn(), Empty(), [], 0, run);
  }

  // ---- Scripts whose sessions last for some days.

  // On the day of each collection the last flush of the sessions is two days old at most.
  predicate FlushedLately(day: int, flushed: int, run: seq<Happening>)
    decreases |run|
  {
    if run == [] then true
    else
      match run[0]
      case Act(step, _) =>
        && (step.CollectSessions? ==> day <= flushed + 2)
        && FlushedLately(if step.Day? then step.day else day, flushed, run[1..])
      case MonitorSessions => FlushedLately(day, day, run[1..])
      case _ => FlushedLately(day, flushed, run[1..])
  }

  // The sessions added since the last flush, on day `flushed`, last three days from then.
  predicate LastsAt(done: Script, i: nat, flushed: int)
    requires i < |done|
  {
    var b := Play(Empty(), done).books;
    done[i].AddSession? && Int(done[i].session.id) in b.sessions ==>
      IntAt(b.sessions[Int(done[i].session.id)], 2) >= flushed + 3
  }

  lemma {:induction false} LatelyTimely(done: Script, from: nat, flushed: int, run: seq<Happening>)
    requires Play(Empty(), done).error.None? && from <= |done| && flushed <= Play(Empty(), done).books.day
    requires Play(Play(Empty(), done).books, ScriptOf(run)).error.None?
    requires Seated(done + ScriptOf(run)) && Lasting(done + ScriptOf(run))
    requires forall i :: from <= i < |done| ==> LastsAt(done, i, flushed)
    requires FlushedLately(Play(Empty(), done).books.day, flushed, run)
    ensures Timely(done, from, run)
    decreases |run|
  {
    if run == [] {
    } else if run[0].Act? {
      var step, rest := run[0].step, ScriptOf(run[1..]);
      var script, all := ScriptOf(run), done + ScriptOf(run);
      assert script[0] == step && script[1..] == rest;
      NextSeated(done, step, rest);
      assert LastingAt(all, |done|) && all[..|done|] == done && all[|done|] == step;
      PlayOne(done, step);
      forall i | from <= i < |done + [step]| ensures LastsAt(done + [step], i, flushed) {
        LastsMore(done, step, i, flushed);
      }
      LastingDay(done, step);
      if step.CollectSessions? {
        NewerNow(done, from, flushed);
      }
      assert done + script == done + [step] + rest;
      LatelyTimely(done + [step], from, flushed, run[1..]);
    } else {
      LatelyTimely(done, FlushedAt(run[0], done, from),
                   if run[0].MonitorSessions? then Play(Empty(), done).books.day else flushed, run[1..]);
    }
  }

  lemma NewerNow(done: Script, from: nat, flushed: int)
    requires from <= |done| && (forall i :: from <= i < |done| ==> LastsAt(done, i, flushed))
    requires Play(Empty(), done).books.day <= flushed + 2
    ensures NewerLast(done, from)
  {
    var b := Play(Empty(), done).books;
    forall i | from <= i < |done| && done[i].AddSession? && Int(done[i].session.id) in b.sessions
      ensures !Expired(b.sessions[Int(done[i].session.id)], b.day)
    {
      assert LastsAt(done, i, flushed);
    }
  }

  lemma LastingDay(done: Script, step: Step)
    requires Play(Empty(), done).error.None?
    requires PlainStep(Play(Empty(), done).books, step).error.None? && SeatedStep(done, step)
    ensures var b' := PlainStep(Play(Empty(), done).books, step).books;
            b'.day == (if step.Day? then step.day else Play(Empty(), done).books.day) >= Play(Empty(), done).books.day
  {
    if !OfSessions(step) {
      PlainSessions(Play(Empty(), done).books, step);
    }
  }

  lemma LastsMore(done: Script, step: Step, i: nat, flushed: int)
    requires Play(Empty(), done).error.None? && flushed <= Play(Empty(), done).books.day
    requires PlainStep(Play(Empty(), done).books, step).error.None? && LastingStep(done, step)
    requires i <= |done| && (i < |done| ==> LastsAt(done, i, flushed))
    ensures LastsAt(done + [step], i, flushed)
  {
    PlayOne(done, step);
    assert i < |done| ==> (done + [step])[i] == done[i];
    if (done + [step])[i].AddSession? {
      SessionsLast(Play(Empty(), done).books, step, (done + [step])[i], flushed);
    }
  }

  // A step keeps the expiry of a session, or sets one that is far enough ahead.
  lemma SessionsLast(b: Books, step: Step, added: Step, flushed: int)
    requires PlainStep(b, step).error.None? && flushed <= b.day && added.AddSession?
    requires (step.AddSession? || step.UpdateSession?) ==> step.session.expiresOn >= b.day + 3
    requires var k := Int(added.session.id);
             step == added || (k in b.sessions ==> IntAt(b.sessions[k], 2) >= flushed + 3)
    ensures var k, b' := Int(added.session.id), PlainStep(b, step).books;
            k in b'.sessions ==> IntAt(b'.sessions[k], 2) >= flushed + 3
  {
    if !OfSessions(step) {
      PlainSessions(b, step);
    }
  }

  // The script writer's sessions last three days and more: with a flush every other day, all five tables are equal.
  lemma {:induction false} LatelyTables(run: seq<Happening>)
    requires Lawful(run) && Lasting(ScriptOf(run)) && FlushedLately(0, 0, run)
    ensures Closed(HappenAll(OpenedOn(), run).whole).whole.sessions.db == Play(Empty(), ScriptOf(run)).books.sessions
  {
    assert [] + ScriptOf(run) == ScriptOf(run);
    LatelyTimely([], 0, 0, run);
    TimelyTables(run);
  }

  // ---- When they are not.

  // One visitor, whose session expires three days later, and no flush of the sessions until it is collected.
  function Forgetful(id: int): seq<Happening> {
    [Act(Step.Day(1), []), Act(Step.AddSession(Session(id, None, 4)), []), Act(Step.Day(2), []),
     Act(Step.Day(3), []), Act(Step.Day(4), []), Act(Step.CollectSessions, [])]
  }

  function ForgetfulScript(id: int): Script {
    [Step.Day(1), Step.AddSession(Session(id, None, 4)), Step.Day(2), Step.Day(3), Step.Day(4), Step.CollectSessions]
  }

  lemma {:induction false} ScriptOfActs(run: seq<Happening>, script: Script)
    requires |script| == |run| && forall i :: 0 <= i < |run| ==> run[i].Act? && run[i].step == script[i]
    ensures ScriptOf(run) == script
    decreases |run|
  {
    if run != [] {
      ScriptOfActs(run[1..], script[1..]);
      assert script == [script[0]] + script[1..];
    } else {
      assert script == [];
    }
  }

  // The books before step `n` of that script.
  function ForgetfulBooks(id: int, n: nat): Books {
    Empty().(day := if n == 0 then 0 else if n <= 2 then 1 else if n <= 4 then n - 1 else 4,
             sessions := if 2 <= n <= 5 then map[Int(id) := SessionRow(Session(id, None, 4))] else map[])
  }

  lemma ForgetfulStep(id: int, n: nat)
    requires n < 6
    ensures PlainStep(ForgetfulBooks(id, n), ForgetfulScript(id)[n]) == Outcome(ForgetfulBooks(id, n + 1), None)
    ensures Orderly(ForgetfulBooks(id, n), ForgetfulScript(id)[n])
  {
    var b := PlainStep(ForgetfulBooks(id, n), ForgetfulScript(id)[n]).books;
    if n == 5 {
      assert b.sessions == map[];
    }
  }

  lemma {:induction false} ForgetfulPlays(id: int, n: nat)
    requires n <= 6
    ensures Play(Empty(), ForgetfulScript(id)[..n]) == Outcome(ForgetfulBooks(id, n), None)
  {
    if n > 0 {
      ForgetfulPlays(id, n - 1);
      ForgetfulStep(id, n - 1);
      assert ForgetfulScript(id)[..n] == ForgetfulScript(id)[..n - 1] + [ForgetfulScript(id)[n - 1]];
      PlayOne(ForgetfulScript(id)[..n - 1], ForgetfulScript(id)[n - 1]);
    }
  }

  lemma {:induction false} ForgetfulOrderly(id: int, n: nat)
    requires n <= 6
    ensures AllOrderly(ForgetfulBooks(id, n), ForgetfulScript(id)[n..])
    decreases 6 - n
  {
    if n < 6 {
      ForgetfulOrderly(id, n + 1);
      ForgetfulStep(id, n);
      assert ForgetfulScript(id)[n..][0] == ForgetfulScript(id)[n];
      assert ForgetfulScript(id)[n..][1..] == ForgetfulScript(id)[n + 1..];
    }
  }

  lemma ForgetfulSeated(id: int)
    ensures Seated(ForgetfulScript(id)) && Lasting(ForgetfulScript(id))
  {
    var script := ForgetfulScript(id);
    forall i: nat ensures SeatedAt(script, i) && LastingAt(script, i) {
      if i < |script| {
        ForgetfulPlays(id, i);
      }
    }
  }

  // The session cache before step `n`: nothing is ever written.
  ghost predicate Unwritten(w: Whole, id: int, n: nat) {
    && w.sessions == (if n < 2 then CM.State(map[], map[], map[])
                      else CM.InsertStep(true, CM.State(map[], map[], map[]), SessionRow(Session(id, None, 4))).state)
    && w.caches == CC.OpenedOn().(day := ForgetfulBooks(id, n).day)
  }

  lemma {:induction false} ForgetfulRuns(w: Whole, id: int, n: nat, sofar: bool)
    requires n <= 5 && Unwritten(w, id, n)
    ensures Answered(w, Forgetful(id)[n..]) && !Complete(w, Forgetful(id)[n..], sofar)
    decreases 6 - n
  {
    var run := Forgetful(id)[n..];
    assert run[0] == Forgetful(id)[n] && run[1..] == Forgetful(id)[n + 1..];
    if n < 5 {
      ForgetfulActs(w, id, n);
      ForgetfulRuns(Happens(w, run[0]).whole, id, n + 1, sofar);
    } else {
      var row := SessionRow(Session(id, None, 4));
      assert CM.Pending(w.sessions, Int(id)) == Some(Insert(IntoActive(row)));
      assert Stored(IntoActive(row)) == row;
      assert CM.View(w.sessions, Int(id)) == Some(row) && Expired(row, w.caches.day);
      assert DropStubs(DeskOf(w)).sessions.db == map[];
      assert Lists([], map[]);
      assert run[1..] == [];
    }
  }

  lemma ForgetfulActs(w: Whole, id: int, n: nat)
    requires n < 5 && Unwritten(w, id, n)
    ensures Unwritten(Happens(w, Forgetful(id)[n]).whole, id, n + 1)
  {
    if n == 0 {
      var s := CM.State(map[], map[], map[]);
      assert CM.DueAmong(s, s.pool.Keys) == map[] && Written(map[], map[]) == map[];
      assert CC.FlushAll(s) == CM.Outcome(s, CM.Done);
    }
  }

  // The plain table ends up without the session, the cached one with it.
  lemma {:induction false} SessionTablesMayDiffer(id: int)
    ensures var run := Forgetful(id);
            && Lawful(run) && Lasting(ScriptOf(run))
            && Closed(HappenAll(OpenedOn(), run).whole).whole.sessions.db != Play(Empty(), ScriptOf(run)).books.sessions
  {
    var run, script := Forgetful(id), ForgetfulScript(id);
    ScriptOfActs(run, script);
    assert script[..6] == script && script[0..] == script && run[0..] == run;
    ForgetfulPlays(id, 6);
    ForgetfulOrderly(id, 0);
    ForgetfulSeated(id);
    ForgetfulRuns(OpenedOn(), id, 0, true);
    assert ForgetfulBooks(id, 0) == Empty();
    AllTables(run);
  }
}
