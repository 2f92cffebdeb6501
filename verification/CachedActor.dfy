/** The actor that plays through caches, as an object: its five caches, each held as a value, and its own bookkeeping,
    updated in place.  The ghost argument `b` of a method is what the plain company has in its tables at that moment:
    the contracts say how the two companies stay together. */
module CachedActor {
  import opened Records
  import opened Company
  import opened Scripting
  import opened Screenplay
  import opened Collecting
  import opened WholeCompany
  import CC = CachedCompany
  import CM = CacheModel
  import Sessions

  class TestCompany {
    var productCache: CM.State
    var invRecCache: CM.State
    var customerCache: CM.State
    var orderCache: CM.State
    var sessionCache: CM.State
    var currentDay: int
    var updatedFrom: map<int, Order>
    var invCheckNo: nat

    constructor ()
      ensures Abs() == OpenedOn()
    {
      var s := CM.State(map[], map[], map[]);
      productCache, invRecCache, customerCache, orderCache, sessionCache := s, s, s, s, s;
      currentDay, updatedFrom, invCheckNo := 0, map[], 0;
    }

    ghost function Caches(): CC.Caches
      reads this
    {
      CC.Caches(productCache, invRecCache, customerCache, orderCache, currentDay, updatedFrom, invCheckNo)
    }

    ghost function Abs(): Whole
      reads this
    {
      Whole(Caches(), sessionCache)
    }

    // The four trading caches show the tables `b` of the plain company.
    ghost predicate Shows(b: Books)
      reads this
    {
      Related(Caches(), b)
    }

    // ---- Flushes.

    method FlushCustomerCache(ghost b: Books) returns (ok: bool)
      modifies this`customerCache
      ensures CC.Played(Caches(), ok) == CC.FlushCustomers(old(Caches()))
      ensures old(Shows(b)) ==> ok && Shows(b) && customerCache.db == b.customers
    {
      ghost var before := Caches();
      var r := CC.FlushAll(customerCache);
      customerCache, ok := r.state, r.reply == CM.Done;
      if Related(before, b) {
        CustomersFlushed(before, b);
      }
    }

    method FlushProductCache(ghost b: Books) returns (ok: bool)
      modifies this`productCache
      ensures CC.Played(Caches(), ok) == CC.FlushProducts(old(Caches()))
      ensures old(Shows(b)) ==> ok && Shows(b) && productCache.db == b.products
    {
      ghost var before := Caches();
      var r := CC.FlushAll(productCache);
      productCache, ok := r.state, r.reply == CM.Done;
      if Related(before, b) {
        ProductsFlushed(before, b);
      }
    }

    // No record is refused for a product missing in the backend.
    method FlushInvRecCache(ghost b: Books) returns (ok: bool)
      modifies this`invRecCache
      ensures CC.Played(Caches(), ok) == CC.FlushInventory(old(Caches()))
      ensures old(Shows(b)) ==> ok && Shows(b) && invRecCache.db == b.inventory
    {
      ghost var before := Caches();
      ok := CC.RefsHeld(CM.DueAmong(invRecCache, invRecCache.pool.Keys), 0, productCache.db);
      if ok {
        var r := CC.FlushAll(invRecCache);
        invRecCache, ok := r.state, r.reply == CM.Done;
      }
      if Related(before, b) {
        InventoryFlushed(before, b);
      }
    }

    // The observer flushes the customers first, so no order is refused for its customer, nor for its product.
    method FlushOrderCache(ghost b: Books) returns (ok: bool)
      modifies this`customerCache, this`orderCache
      ensures CC.Played(Caches(), ok) == CC.FlushOrders(old(Caches()))
      ensures old(Shows(b)) ==> ok && Shows(b) && orderCache.db == b.orders && customerCache.db == b.customers
    {
      ghost var before := Caches();
      ok := FlushCustomerCache(b);
      if ok {
        ok := WriteOrders();
      }
      if Related(before, b) {
        OrdersFlushed(before, b);
      }
    }

    method WriteOrders() returns (ok: bool)
      modifies this`orderCache
      ensures var due := CM.DueAmong(old(orderCache), old(orderCache).pool.Keys);
              var r := CC.FlushAll(old(orderCache));
              if CC.RefsHeld(due, ORDER_CUSTOMER, customerCache.db) && CC.RefsHeld(due, ORDER_PRODUCT, productCache.db)
              then orderCache == r.state && ok == (r.reply == CM.Done) else orderCache == old(orderCache) && !ok
    {
      var due := CM.DueAmong(orderCache, orderCache.pool.Keys);
      ok := CC.RefsHeld(due, ORDER_CUSTOMER, customerCache.db) && CC.RefsHeld(due, ORDER_PRODUCT, productCache.db);
      if ok {
        var r := CC.FlushAll(orderCache);
        orderCache, ok := r.state, r.reply == CM.Done;
      }
    }

    // The observer before a single order: afterwards what this order refers to is in the backend.
    method OnFlushOne(k: Key, ghost b: Books) returns (ok: bool)
      modifies this`customerCache, this`productCache
      ensures CC.Played(Caches(), ok) == CC.BeforeOrder(old(Caches()), k)
      ensures old(Shows(b)) ==> ok && Shows(b) && CC.OrderRefsHeld(Caches(), k)
    {
      ghost var before := Caches();
      var pending := CM.Pending(orderCache, k);
      ok := true;
      if pending.Some? && !pending.value.Delete? {
        ok := FlushCustomerCache(b);
        if ok {
          ok := FlushProductCache(b);
        }
      }
      if Related(before, b) {
        BeforeOrderKeeps(before, b, k);
      }
    }

    // ---- Stock.

    method OnInvRecCache(k: Key, op: CM.Op) returns (reply: CM.Reply)
      modifies this`invRecCache
      ensures CC.Reserved(Caches(), reply) == CC.OnInventory(old(Caches()), k, op)
    {
      if k !in invRecCache.entries && !CC.RefsHeld(CM.DueAmong(invRecCache, {k}), 0, productCache.db) {
        return CM.Failed;
      }
      var r := CM.Step(true, invRecCache, op, CC.HEALTHY);
      invRecCache := r.state;
      return r.reply;
    }

    // Fails exactly when the plain company would: for a missing record, or for want of stock.
    method UpdateInventoryRecord(productId: int, quantity: int, ghost b: Books) returns (ok: bool)
      modifies this`invRecCache
      ensures CC.Played(Caches(), ok) == CC.ChangeStock(old(Caches()), productId, quantity)
      ensures old(Shows(b)) ==>
                var p := MoveStock(b, productId, quantity);
                (ok <==> p.error.None?) && (ok ==> Shows(p.books))
    {
      ghost var before := Caches();
      var reply := OnInvRecCache(Int(productId), CM.Compute(Int(productId), CC.MovedStock(quantity)));
      ok := reply != CM.Failed;
      if Related(before, b) {
        MoveStockKeeps(before, b, productId, quantity);
      }
    }

    // An order takes stock once; a second time is refused, as by the plain company.
    method UpdateInventory(order: Order, ghost b: Books) returns (ok: bool)
      modifies this`invRecCache, this`updatedFrom
      ensures CC.Played(Caches(), ok) == CC.ReserveStock(old(Caches()), order)
      ensures old(Shows(b)) ==>
                var p := TakeStock(b, order);
                (ok <==> p.error.None?) && (ok ==> Shows(p.books))
    {
      ghost var before := Caches();
      ok := TakesStock(order.status) ==> order.id !in updatedFrom;
      if ok && TakesStock(order.status) {
        updatedFrom := updatedFrom[order.id := order];
        assert Caches() == before.(updatedFrom := updatedFrom);
        ok := UpdateInventoryRecord(order.productId, -order.quantity, b);
      }
      if Related(before, b) {
        TakeStockKeeps(before, b, order);
      }
    }

    // ---- The steps.

    // A step that the plain company can take is taken, and leaves the same records.
    ghost predicate KeepsUp(before: CC.Caches, b: Books, step: Step, ok: bool)
      reads this
    {
      Related(before, b) && Orderly(b, step) && PlainStep(b, step).error.None? ==> ok && Shows(PlainStep(b, step).books)
    }

    lemma StepKeepsUp(before: CC.Caches, b: Books, step: Step, ok: bool)
      requires CC.Played(Caches(), ok) == CC.CachedStep(before, step)
      ensures KeepsUp(before, b, step, ok)
    {
      if Related(before, b) && Orderly(b, step) && PlainStep(b, step).error.None? {
        StepKeeps(before, b, step);
      }
    }

    method AddOrder(order: Order, ghost b: Books) returns (ok: bool)
      modifies this`invRecCache, this`updatedFrom, this`orderCache
      ensures CC.Played(Caches(), ok) == CC.CachedStep(old(Caches()), Step.AddOrder(order))
      ensures KeepsUp(old(Caches()), b, Step.AddOrder(order), ok)
    {
      ghost var before := Caches();
      ok := UpdateInventory(order, b);
      if ok {
        var r := CM.Step(true, orderCache, CM.Insert(OrderRow(order.(purchasedOn := currentDay))), CC.HEALTHY);
        orderCache, ok := r.state, r.reply != CM.Failed;
      }
      StepKeepsUp(before, b, Step.AddOrder(order), ok);
    }

    method UpdateOrder(order: Order, ghost b: Books) returns (ok: bool)
      modifies this`productCache, this`invRecCache, this`customerCache, this`orderCache, this`updatedFrom
      ensures CC.Played(Caches(), ok) == CC.CachedStep(old(Caches()), Step.UpdateOrder(order))
      ensures KeepsUp(old(Caches()), b, Step.UpdateOrder(order), ok)
    {
      ghost var before := Caches();
      ok := ReadyOrder(Int(order.id), b);
      if ok {
        ok := TakeAndSet(order, b);
      }
      StepKeepsUp(before, b, Step.UpdateOrder(order), ok);
    }

    method ReadyOrder(k: Key, ghost b: Books) returns (ok: bool)
      modifies this`customerCache, this`productCache
      ensures var c := old(Caches());
              var ready := if k in c.orders.entries then CC.Played(c, true) else CC.BeforeOrder(c, k);
              && Caches() == ready.caches
              && (ok <==> ready.ok && (k in c.orders.entries || CC.OrderRefsHeld(ready.caches, k)))
    {
      if k in orderCache.entries {
        return true;
      }
      ok := OnFlushOne(k, b);
      var due := CM.DueAmong(orderCache, {k});
      ok := ok && CC.RefsHeld(due, ORDER_CUSTOMER, customerCache.db);
      ok := ok && CC.RefsHeld(due, ORDER_PRODUCT, productCache.db);
    }

    // The compute callback takes the stock, then the record gets its new status.
    method TakeAndSet(order: Order, ghost b: Books) returns (ok: bool)
      modifies this`invRecCache, this`updatedFrom, this`orderCache
      ensures CC.Played(Caches(), ok) == CC.ChangeOrder(old(Caches()), order)
      ensures old(Shows(b)) && PlainStep(b, Step.UpdateOrder(order)).error.None? ==>
                ok && Shows(PlainStep(b, Step.UpdateOrder(order)).books)
    {
      ghost var before := Caches();
      var k := Int(order.id);
      var found := if k in orderCache.entries then Some(orderCache.entries[k])
                   else Lookup(CM.FlushOneStep(orderCache, k, CC.HEALTHY).state.db, k);
      ok := true;
      if found.Some? {
        ok := UpdateInventory(order, b);
      }
      var r := CM.ComputeStep(true, orderCache, k, CC.NewStatus(order, ok), CC.HEALTHY);
      orderCache, ok := r.state, r.reply != CM.Failed;
      if Related(before, b) && PlainStep(b, Step.UpdateOrder(order)).error.None? {
        ChangeOrderKeeps(before, b, order);
      }
    }

    method AddCustomer(customer: Customer, ghost b: Books) returns (ok: bool)
      modifies this`customerCache
      ensures CC.Played(Caches(), ok) == CC.CachedStep(old(Caches()), Step.AddCustomer(customer))
      ensures KeepsUp(old(Caches()), b, Step.AddCustomer(customer), ok)
    {
      ghost var before := Caches();
      var row := CustomerRow(customer.(registeredOn := currentDay));
      var r := CM.Step(false, customerCache, CM.Insert(row), CC.HEALTHY);
      customerCache, ok := r.state, r.reply != CM.Failed;
      StepKeepsUp(before, b, Step.AddCustomer(customer), ok);
    }

    method AddProduct(product: Product, ghost b: Books) returns (ok: bool)
      modifies this`productCache
      ensures CC.Played(Caches(), ok) == CC.CachedStep(old(Caches()), Step.AddProduct(product))
      ensures KeepsUp(old(Caches()), b, Step.AddProduct(product), ok)
    {
      ghost var before := Caches();
      var r := CM.Step(true, productCache, CM.Insert(ProductRow(product)), CC.HEALTHY);
      productCache, ok := r.state, r.reply != CM.Failed;
      StepKeepsUp(before, b, Step.AddProduct(product), ok);
    }

    method AddInventoryRecord(record: InventoryRecord, ghost b: Books) returns (ok: bool)
      modifies this`productCache, this`invRecCache
      ensures CC.Played(Caches(), ok) == CC.CachedStep(old(Caches()), Step.AddInventoryRecord(record))
      ensures KeepsUp(old(Caches()), b, Step.AddInventoryRecord(record), ok)
    {
      ghost var before := Caches();
      ok := FlushProductCache(b);
      if ok {
        var r := CM.Step(true, invRecCache, CM.Insert(InventoryRow(record)), CC.HEALTHY);
        invRecCache, ok := r.state, r.reply != CM.Failed;
      }
      StepKeepsUp(before, b, Step.AddInventoryRecord(record), ok);
    }

    // A check passes exactly when it does in the plain company.
    method CheckInventory(productId: int, stock: int, ghost b: Books) returns (ok: bool)
      modifies this`invRecCache, this`invCheckNo
      ensures CC.Played(Caches(), ok) == CC.CachedStep(old(Caches()), Step.CheckInventory(productId, stock))
      ensures old(Shows(b)) ==>
                var p := PlainStep(b, Step.CheckInventory(productId, stock));
                (ok <==> p.error.None?) && Shows(p.books)
    {
      ghost var before := Caches();
      var reply := OnInvRecCache(Int(productId), CM.Get(Int(productId)));
      ok := reply.Found? && reply.value.Some? && IntAt(reply.value.value, STOCK) == stock;
      if ok {
        invCheckNo := invCheckNo + 1;
      }
      if Related(before, b) {
        CheckInventoryKeeps(before, b, productId, stock);
      }
    }

    // Unlike the plain company, it fails for a missing product.
    method UpdateProductViewCount(productId: int, ghost b: Books) returns (ok: bool)
      modifies this`productCache
      ensures CC.Played(Caches(), ok) == CC.CachedStep(old(Caches()), ViewProduct(productId))
      ensures old(Shows(b)) ==>
                (ok <==> Int(productId) in b.products) && (ok ==> Shows(PlainStep(b, ViewProduct(productId)).books))
    {
      ghost var before := Caches();
      var r := CM.Step(true, productCache, CM.Compute(Int(productId), CC.BumpViews()), CC.HEALTHY);
      productCache, ok := r.state, r.reply != CM.Failed;
      if Related(before, b) {
        ViewExact(before, b, productId);
      }
    }

    // From day 1 on all products are in the backend.
    method SetCurrentDay(day: int, ghost b: Books) returns (ok: bool)
      modifies this`productCache, this`invRecCache, this`customerCache, this`currentDay
      ensures CC.Played(Caches(), ok) == CC.CachedStep(old(Caches()), Step.Day(day))
      ensures KeepsUp(old(Caches()), b, Step.Day(day), ok)
      ensures old(Shows(b)) && day == 1 ==>
                customerCache.db == b.customers && productCache.db == b.products && invRecCache.db == b.inventory
    {
      ghost var before := Caches();
      ok := true;
      if day == 1 {
        ok := FlushCustomerCache(b);
        if ok {
          ok := FlushProductCache(b);
        }
        if ok {
          ok := FlushInvRecCache(b);
        }
      }
      if ok {
        currentDay := day;
      }
      StepKeepsUp(before, b, Step.Day(day), ok);
    }

    // ---- Sessions.

    // The session observer before a single flush, the flush, and the compute.
    method OnSessionCache(k: Key, f: CM.Callback) returns (ok: bool)
      modifies this`customerCache, this`sessionCache
      ensures Acted(Abs(), ok) == Rejoin(old(Abs()), Sessions.OnSession(DeskOf(old(Abs())), k, f))
    {
      ok := true;
      if k !in sessionCache.entries {
        ok := FlushOneSession(k);
      }
      var r := CM.ComputeStep(true, sessionCache, k, f, CC.HEALTHY);
      sessionCache, ok := r.state, ok && r.reply != CM.Failed;
    }

    method FlushOneSession(k: Key) returns (ok: bool)
      modifies this`customerCache, this`sessionCache
      ensures Acted(Abs(), ok) == Rejoin(old(Abs()), Sessions.FlushOne(DeskOf(old(Abs())), k))
    {
      var due := CM.DueAmong(sessionCache, {k});
      ok := true;
      if k in due && Sessions.CustomerOf(due[k]).Some? {
        var observed := CM.FlushOneStep(customerCache, Sessions.CustomerOf(due[k]).value, CC.HEALTHY);
        customerCache, ok := observed.state, observed.reply != CM.Failed;
      }
      ok := ok && Sessions.RefsHeld(due, customerCache.db);
      var r := CM.FlushOneStep(sessionCache, k, CC.HEALTHY);
      sessionCache, ok := r.state, ok && r.reply != CM.Failed;
    }

    // The observer flushes the customers the batch refers to; afterwards every session is in the backend as it is
    // seen through the cache.
    method FlushSessionCache(ghost b: Books, ghost done: Script) returns (ok: bool)
      modifies this`customerCache, this`sessionCache
      ensures Acted(Abs(), ok) == Happens(old(Abs()), MonitorSessions)
      ensures Agree(old(Abs()), b, done) ==>
                ok && Agree(Abs(), b, done) && forall k :: Lookup(sessionCache.db, k) == CM.View(old(sessionCache), k)
    {
      ghost var before := Abs();
      var due := CM.DueAmong(sessionCache, sessionCache.pool.Keys);
      var observed := CM.FlushKeys(customerCache, Sessions.CustomersOf(due), false, CC.HEALTHY);
      var r := CM.FlushKeys(sessionCache, sessionCache.pool.Keys, false, CC.HEALTHY);
      customerCache, sessionCache := observed.state, r.state;
      ok := Sessions.RefsHeld(due, observed.state.db) && observed.reply != CM.Failed && r.reply != CM.Failed;
      if Agree(before, b, done) {
        SessionsFlushed(before, b, done);
      }
    }

    method AddSession(session: Session, ghost b: Books, ghost done: Script) returns (ok: bool)
      modifies this`sessionCache
      ensures Acted(Abs(), ok) == Happens(old(Abs()), Act(Step.AddSession(session), []))
      ensures Agree(old(Abs()), b, done) && !Added(done, Int(session.id)) ==>
                ok && CM.View(sessionCache, Int(session.id)) == Some(SessionRow(session))
    {
      ghost var before := sessionCache;
      assert Agree(Abs(), b, done) ==> NewAt(before, done, Int(session.id)) && SoundAt(before, Int(session.id));
      var r := CM.InsertStep(true, sessionCache, SessionRow(session));
      sessionCache, ok := r.state, r.reply != CM.Failed;
      if SoundAt(before, Int(session.id)) && Int(session.id) !in before.db {
        InsertSound(before, SessionRow(session), Int(session.id));
      }
    }

    // A customer's session that is visible gets its new value.
    method UpdateSession(session: Session, ghost b: Books) returns (ok: bool)
      modifies this`customerCache, this`sessionCache
      ensures Acted(Abs(), ok) == Happens(old(Abs()), Act(Step.UpdateSession(session), []))
      ensures DeskSound(DeskOf(old(Abs())), b.customers) && session.customerId.Some? && KnowsCustomer(b, session) ==>
                var seen := CM.View(old(sessionCache), Int(session.id));
                seen.Some? && !Visitor(seen.value) ==>
                  ok && CM.View(sessionCache, Int(session.id)) == Some(SessionRow(session))
    {
      ghost var d := DeskOf(Abs());
      ok := OnSessionCache(Int(session.id), Sessions.Login(session));
      if && DeskSound(d, b.customers) && session.customerId.Some? && KnowsCustomer(b, session)
         && CM.View(d.sessions, Int(session.id)).Some? && !Visitor(CM.View(d.sessions, Int(session.id)).value) {
        LoginSound(d, session, b.customers);
      }
    }

    // Visitors' expired sessions are deleted in the backend; the sessions it lists are visited one by one, up to the
    // first failure.  All in all, the expired sessions with a row in the backend are gone.
    method CollectSessions(listed: seq<Key>, ghost b: Books) returns (ok: bool)
      modifies this`customerCache, this`sessionCache
      ensures ok ==> Acted(Abs(), true) == Happens(old(Abs()), Act(Step.CollectSessions, listed))
      ensures Collectable(old(Abs()), listed, b) ==>
                ok && forall k :: CM.View(sessionCache, k) ==
                                  Left(CM.View(old(sessionCache), k), currentDay, k in old(sessionCache).db)
    {
      ghost var before := DeskOf(Abs());
      ghost var caches := Caches();
      sessionCache := Sessions.DropStubs(Sessions.Desk(customerCache, sessionCache, currentDay, false, false)).sessions;
      if Collectable(Whole(caches, before.sessions), listed, b) {
        CollectTakes(before, listed, b.customers);
      }
      ok := true;
      for i := 0 to |listed|
        invariant ok && Caches() == caches.(customers := customerCache)
        invariant Collect(before, listed) == Sessions.CollectEach(DeskOf(Abs()), listed[i..])
      {
        assert listed[i..][0] == listed[i] && listed[i..][1..] == listed[i + 1..];
        ghost var next := Sessions.OnSession(DeskOf(Abs()), listed[i], Sessions.Expire(currentDay));
        ok := OnSessionCache(listed[i], Sessions.Expire(currentDay));
        if !ok {
          FlagsStick(next, listed[i + 1..]);
          return;
        }
      }
      assert listed[|listed|..] == [];
    }

    // ---- Whole runs.

    method Perform(step: Step, listed: seq<Key>, ghost b: Books) returns (ok: bool)
      modifies this
      ensures ok ==> Acted(Abs(), true) == Happens(old(Abs()), Act(step, listed))
      ensures Happens(old(Abs()), Act(step, listed)).ok && !step.CollectSessions? ==> ok
      ensures step.CollectSessions? && Collectable(old(Abs()), listed, b) ==> ok
    {
      match step
      case Title => return true;
      case Day(day) => ok := SetCurrentDay(day, b);
      case AddProduct(product) => ok := AddProduct(product, b);
      case AddInventoryRecord(record) => ok := AddInventoryRecord(record, b);
      case AddCustomer(customer) => ok := AddCustomer(customer, b);
      case AddOrder(order) => ok := AddOrder(order, b);
      case AddStock(productId, batchSize) => ok := UpdateInventoryRecord(productId, batchSize, b);
      case UpdateOrder(order) => ok := UpdateOrder(order, b);
      case CheckInventory(productId, stock) => ok := CheckInventory(productId, stock, b);
      case ViewProduct(productId) => ok := UpdateProductViewCount(productId, b);
      case AddSession(session) => ok := AddSession(session, b, []);
      case UpdateSession(session) => ok := UpdateSession(session, b);
      case CollectSessions => ok := CollectSessions(listed, b);
    }

    // What happens in the background.
    method Behind(h: Happening, ghost b: Books) returns (ok: bool)
      requires !h.Act?
      modifies this
      ensures Acted(Abs(), ok) == Happens(old(Abs()), h)
    {
      ok := true;
      match h
      case Monitor(Products) => ok := FlushProductCache(b);
      case Monitor(Inventory) => ok := FlushInvRecCache(b);
      case Monitor(Customers) => ok := FlushCustomerCache(b);
      case Monitor(Orders) => ok := FlushOrderCache(b);
      case MonitorSessions => ok := FlushSessionCache(b, []);
      case Evict(Products, k) => productCache := CM.Uncache(productCache, k).state;
      case Evict(Inventory, k) => invRecCache := CM.Uncache(invRecCache, k).state;
      case Evict(Customers, k) => customerCache := CM.Uncache(customerCache, k).state;
      case Evict(Orders, k) => orderCache := CM.Uncache(orderCache, k).state;
      case EvictSession(k) => sessionCache := CM.Uncache(sessionCache, k).state;
    }

    // The caches are closed one after the other; then the backend has all tables of the plain company.
    method CurtainCall(ghost b: Books, ghost done: Script) returns (ok: bool)
      modifies this
      ensures Acted(Abs(), ok) == Closed(old(Abs()))
      ensures Agree(old(Abs()), b, done) ==> ok && TablesMatch(Abs(), b)
    {
      ghost var before := Abs();
      ok := CloseAll(b);
      if Agree(before, b, done) {
        ClosedMatches(before, b, done);
      }
    }

    method CloseAll(ghost b: Books) returns (ok: bool)
      modifies this
      ensures Acted(Abs(), ok) == Closed(old(Abs()))
    {
      ok := CloseFour(b);
      if ok {
        ok := CloseSessions(b);
      }
    }

    method CloseSessions(ghost b: Books) returns (ok: bool)
      modifies this`customerCache, this`sessionCache
      ensures Acted(Abs(), ok) == Rejoin(old(Abs()), Sessions.FlushAll(DeskOf(old(Abs()))))
    {
      ok := FlushSessionCache(b, []);
    }

    method CloseFour(ghost b: Books) returns (ok: bool)
      modifies this`productCache, this`invRecCache, this`customerCache, this`orderCache
      ensures CC.Played(Caches(), ok) == CC.Closed(old(Caches()))
      ensures old(Shows(b)) ==>
                && ok && Shows(b) && customerCache.db == b.customers && productCache.db == b.products
                && invRecCache.db == b.inventory && orderCache.db == b.orders
    {
      ghost var before := Caches();
      ok := FlushCustomerCache(b);
      if ok {
        ok := FlushProductCache(b);
      }
      if ok {
        ok := FlushInvRecCache(b);
      }
      if ok {
        ok := FlushOrderCache(b);
      }
      if Related(before, b) {
        CurtainCallWrites(before, b);
      }
    }

    // The company, from its opening to the curtain call, with anything happening in the background: it never fails on
    // a screenplay that the plain company plays, and leaves the plain company's tables.
    method PlayOut(run: seq<Happening>) returns (ok: bool)
      modifies this
      ensures old(Abs()) == OpenedOn() && Lawful(run) ==>
                && ok && TablesMatch(Abs(), Play(Empty(), ScriptOf(run)).books)
                && (sessionCache.db == Play(Empty(), ScriptOf(run)).books.sessions <==> Complete(OpenedOn(), run, true))
    {
      ghost var lawful := Abs() == OpenedOn() && Lawful(run);
      ghost var done: Script := [];
      if lawful {
        AllTables(run);
        OpenedAgrees();
        assert [] + ScriptOf(run) == ScriptOf(run);
      }
      ok := true;
      assert run[0..] == run;
      for i := 0 to |run|
        invariant ok && (lawful ==> Underway(Abs(), done, run[i..]))
        invariant lawful ==> HappenAll(OpenedOn(), run) == HappenAll(Abs(), run[i..])
        invariant lawful ==> done + ScriptOf(run[i..]) == ScriptOf(run)
      {
        assert run[i..][0] == run[i] && run[i..][1..] == run[i + 1..];
        ghost var b, before := Play(Empty(), done).books, done;
        if lawful {
          Onward(Abs(), done, run[i..]);
        }
        if run[i].Act? {
          ok := Perform(run[i].step, run[i].listed, b);
          done := done + [run[i].step];
        } else {
          ok := Behind(run[i], b);
        }
        if !ok {
          return;
        }
      }
      assert run[|run|..] == [] && (lawful ==> done + [] == done);
      ok := CurtainCall(Play(Empty(), done).books, done);
    }
  }

  // The sessions are in order, and the backend has listed those of customers.
  ghost predicate Collectable(w: Whole, listed: seq<Key>, b: Books) {
    DeskSound(DeskOf(w), b.customers) && Lists(listed, Sessions.DropStubs(DeskOf(w)).sessions.db)
  }

  // The rest of a run is still lawful.
  ghost predicate Underway(w: Whole, done: Script, rest: seq<Happening>) {
    var played := Play(Empty(), done);
    && played.error.None? && Agree(w, played.books, done)
    && AllOrderly(played.books, ScriptOf(rest)) && Play(played.books, ScriptOf(rest)).error.None?
    && Seated(done + ScriptOf(rest)) && Answered(w, rest)
  }

  lemma Onward(w: Whole, done: Script, rest: seq<Happening>)
    requires Underway(w, done, rest) && rest != []
    ensures var r := Happens(w, rest[0]);
            var done' := if rest[0].Act? then done + [rest[0].step] else done;
            && r.ok && Underway(r.whole, done', rest[1..]) && HappenAll(w, rest) == HappenAll(r.whole, rest[1..])
            && done' + ScriptOf(rest[1..]) == done + ScriptOf(rest)
    ensures rest[0].Act? && rest[0].step.CollectSessions? ==>
              Collectable(w, rest[0].listed, Play(Empty(), done).books)
  {
    var b := Play(Empty(), done).books;
    if rest[0].Act? {
      var step, script := rest[0].step, ScriptOf(rest);
      assert script[0] == step && script[1..] == ScriptOf(rest[1..]);
      NextSeated(done, step, ScriptOf(rest[1..]));
      ActAgrees(w, b, done, step, rest[0].listed);
      PlayOne(done, step);
    } else {
      BackgroundAgrees(w, b, done, rest[0]);
    }
  }

  // A failure among the visited sessions is not forgotten.
  lemma {:induction false} FlagsStick(d: Sessions.Desk, keys: seq<Key>)
    requires d.violated || d.refused
    ensures Sessions.CollectEach(d, keys).violated || Sessions.CollectEach(d, keys).refused
    decreases |keys|
  {
    if keys != [] {
      FlagsStick(Sessions.OnSession(d, keys[0], Sessions.Expire(d.day)), keys[1..]);
    }
  }
}
