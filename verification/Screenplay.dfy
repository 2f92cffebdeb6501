/** The cached company and the plain company play the same screenplay: with background flushes and evictions anywhere,
    no step fails that does not fail in the plain company, no write-back is refused, and once the caches are closed the
    tables are equal. */
module Screenplay {
  import opened Records
  import opened Backend
  import opened Company
  import opened CachedCompany
  import opened Refinement
  import CM = CacheModel
  import DC = DataController

  // One cache against one table: every key reads as in the table, and nothing is to be deleted.
  ghost predicate MirrorsAt(s: CM.State, m: Rows, k: Key, width: nat) {
    && DC.Pends(k, CM.Pending(s, k), Lookup(s.db, k), Lookup(m, k), width)
    && CM.Pending(s, k) != Some(Delete)
    && (k in s.entries ==> Lookup(m, k) == Some(s.entries[k]))
  }

  ghost predicate Mirrors(s: CM.State, m: Rows, width: nat) {
    forall k :: MirrorsAt(s, m, k, width)
  }

  // The rows the plain company keeps have their columns, and refer to rows it keeps.
  predicate ConsistentAt(b: Books, k: Key) {
    && (k in b.products ==> Fits(k, b.products[k], PRODUCT_WIDTH))
    && (k in b.inventory ==> Fits(k, b.inventory[k], INVENTORY_WIDTH) && k in b.products)
    && (k in b.customers ==> Fits(k, b.customers[k], CUSTOMER_WIDTH))
    && (k in b.orders ==>
          && Fits(k, b.orders[k], ORDER_WIDTH)
          && At(b.orders[k], ORDER_CUSTOMER) in b.customers && At(b.orders[k], ORDER_PRODUCT) in b.products)
  }

  // Which products are in the backend for sure: all of them from day 1 on, those with an inventory record, and those
  // ordered.
  predicate ShelvedAt(c: Caches, b: Books, k: Key) {
    && (k in b.products && (k in b.inventory || b.day >= 1) ==> k in c.products.db)
    && (k in b.orders ==> At(b.orders[k], ORDER_PRODUCT) in c.products.db)
  }

  ghost predicate Related(c: Caches, b: Books) {
    && Mirrors(c.products, b.products, PRODUCT_WIDTH)
    && Mirrors(c.inventory, b.inventory, INVENTORY_WIDTH)
    && Mirrors(c.customers, b.customers, CUSTOMER_WIDTH)
    && Mirrors(c.orders, b.orders, ORDER_WIDTH)
    && (forall k :: ConsistentAt(b, k))
    && (forall k :: ShelvedAt(c, b, k))
    && c.day == b.day && c.updatedFrom == b.updatedFrom && c.checks == b.checks
  }

  lemma MirrorsRefines(s: CM.State, m: Rows, width: nat)
    requires Mirrors(s, m, width)
    ensures CM.Refines(s, m, width) && forall k :: CM.Pending(s, k) != Some(Delete)
  {
    forall k
      ensures DC.Pends(k, CM.Pending(s, k), Lookup(s.db, k), Lookup(m, k), width)
      ensures CM.Pending(s, k) != Some(Delete) && (k in s.entries ==> Lookup(m, k) == Some(s.entries[k]))
    {
      assert MirrorsAt(s, m, k, width);
    }
  }

  lemma RefinesMirrors(s: CM.State, m: Rows, width: nat)
    requires CM.Refines(s, m, width) && forall k :: CM.Pending(s, k) != Some(Delete)
    ensures Mirrors(s, m, width)
  {
    forall k ensures MirrorsAt(s, m, k, width) {
      assert DC.Pends(k, CM.Pending(s, k), Lookup(s.db, k), Lookup(m, k), width);
    }
  }

  // ---- One cache.

  // A flush of a mirroring cache succeeds, and takes no row out of the backend.
  lemma FlushMirrors(s: CM.State, keys: set<Key>, single: bool, m: Rows, width: nat)
    requires Mirrors(s, m, width)
    ensures var r := CM.FlushKeys(s, keys, single, HEALTHY);
            && r.reply == CM.Done && Mirrors(r.state, m, width) && r.state.entries == s.entries
            && (forall k :: k in s.db ==> k in r.state.db)
            && (forall k :: k in keys ==> CM.Pending(r.state, k).None?)
  {
    MirrorsRefines(s, m, width);
    FlushRefines(s, keys, single, HEALTHY, m, width);
    var due := CM.DueAmong(s, keys);
    var t := CM.FlushKeys(s, keys, single, HEALTHY).state;
    forall k | k in s.db ensures k in t.db {
      WrittenRow(s.db, due, k);
      assert CM.Pending(s, k) != Some(Delete);
    }
    forall k ensures CM.Pending(t, k) != Some(Delete) {
      assert CM.Pending(s, k) != Some(Delete);
    }
    RefinesMirrors(t, m, width);
  }

  // With every key flushed, the backend is the table.
  lemma FlushAllMirrors(s: CM.State, m: Rows, width: nat)
    requires Mirrors(s, m, width)
    ensures FlushAll(s).reply == CM.Done && Mirrors(FlushAll(s).state, m, width) && FlushAll(s).state.db == m
    ensures forall k :: k in s.db ==> k in m
  {
    FlushMirrors(s, s.pool.Keys, false, m, width);
    MirrorsRefines(s, m, width);
    FlushedIsPlain(s, m, width);
  }

  lemma EvictMirrors(s: CM.State, k: Key, m: Rows, width: nat)
    requires Mirrors(s, m, width)
    ensures Mirrors(CM.Uncache(s, k).state, m, width)
  {
    var t := CM.Uncache(s, k).state;
    forall j ensures MirrorsAt(t, m, j, width) {
      assert MirrorsAt(s, m, j, width);
    }
  }

  lemma InsertMirrors(imm: bool, s: CM.State, v: Row, m: Rows, width: nat)
    requires Mirrors(s, m, width) && Fits(CM.KeyOf(v), v, width) && CM.KeyOf(v) !in m
    ensures var r := CM.Step(imm, s, CM.Insert(v), HEALTHY);
            && r.reply.Found? && Mirrors(r.state, m[CM.KeyOf(v) := v], width) && r.state.db == s.db
  {
    var k := CM.KeyOf(v);
    assert MirrorsAt(s, m, k, width);
    MirrorsRefines(s, m, width);
    NewExact(imm, s, k, v, m, width);
    var t := CM.Step(imm, s, CM.Insert(v), HEALTHY).state;
    forall j ensures CM.Pending(t, j) != Some(Delete) {
      assert CM.Pending(s, j) != Some(Delete);
    }
    RefinesMirrors(t, m[k := v], width);
  }

  // Computing a new value for a row succeeds exactly when the callback does not fail on the table's row.
  lemma ComputeMirrors(s: CM.State, k: Key, f: CM.Callback, m: Rows, width: nat)
    requires Mirrors(s, m, width) && CM.Proper(CM.Compute(k, f), width)
    requires f(Lookup(m, k)).Fail? || (f(Lookup(m, k)).Put? && k in m)
    ensures var r := CM.ComputeStep(true, s, k, f, HEALTHY);
            && (r.reply == CM.Failed <==> f(Lookup(m, k)).Fail?)
            && (r.reply != CM.Failed ==> Mirrors(r.state, m[k := f(Lookup(m, k)).value], width))
            && (forall j :: j in s.db ==> j in r.state.db)
  {
    MirrorsRefines(s, m, width);
    ComputeRefines(true, s, k, f, HEALTHY, m, width);
    ComputedRow(s, k, f, m, width);
    var r := CM.ComputeStep(true, s, k, f, HEALTHY);
    if r.reply != CM.Failed {
      RefinesMirrors(r.state, m[k := f(Lookup(m, k)).value], width);
    }
  }

  // What the callback is given is the table's row; no deletion gets pending and no row leaves the backend.
  lemma ComputedRow(s: CM.State, k: Key, f: CM.Callback, m: Rows, width: nat)
    requires Mirrors(s, m, width) && (f(Lookup(m, k)).Fail? || (f(Lookup(m, k)).Put? && k in m))
    ensures var r := CM.ComputeStep(true, s, k, f, HEALTHY);
            && (r.reply == CM.Failed <==> f(Lookup(m, k)).Fail?)
            && (forall j :: CM.Pending(r.state, j) != Some(Delete))
            && (forall j :: j in s.db ==> j in r.state.db)
  {
    FlushMirrors(s, {k}, true, m, width);
    var t := CM.MaybeFlushOne(s, k, HEALTHY).state;
    assert MirrorsAt(t, m, k, width);
    var r := CM.ComputeStep(true, s, k, f, HEALTHY);
    assert r == CM.ComputeOn(true, t, k, Lookup(m, k), f);
    forall j ensures CM.Pending(r.state, j) != Some(Delete) {
      assert MirrorsAt(t, m, j, width);
    }
    if f(Lookup(m, k)).Put? {
      DC.SeenFits(k, CM.Pending(t, k), Lookup(t.db, k), m[k], width);
    }
  }

  lemma GetMirrors(s: CM.State, k: Key, m: Rows, width: nat)
    requires Mirrors(s, m, width)
    ensures var r := CM.GetStep(true, s, k, HEALTHY);
            && r.reply == CM.Found(Lookup(m, k)) && Mirrors(r.state, m, width)
            && (forall j :: j in s.db ==> j in r.state.db)
  {
    MirrorsRefines(s, m, width);
    GetRefines(true, s, k, HEALTHY, m, width);
    FlushMirrors(s, {k}, true, m, width);
    var t := CM.GetStep(true, s, k, HEALTHY).state;
    forall j ensures CM.Pending(t, j) != Some(Delete) {
      assert CM.Pending(s, j) != Some(Delete);
    }
    RefinesMirrors(t, m, width);
  }

  // What is pending writes only references the table has.
  lemma PendingRefs(s: CM.State, keys: set<Key>, m: Rows, width: nat, col: nat, target: Rows)
    requires Mirrors(s, m, width) && col < width
    requires forall k :: k in m ==> At(m[k], col) in target
    ensures RefsHeld(CM.DueAmong(s, keys), col, target)
  {
    var due := CM.DueAmong(s, keys);
    forall k | k in due ensures RefHeld(due[k], col, target) {
      assert MirrorsAt(s, m, k, width);
      assert CM.Pending(s, k) == Some(due[k]) && due[k] != Delete;
      assert k in m && m[k] == Apply(due[k], Lookup(s.db, k)).value;
    }
  }

  // The references of inventory records and of orders, against any backend tables that have what is certainly there.
  lemma InventoryRefs(c: Caches, b: Books, keys: set<Key>)
    requires Related(c, b)
    ensures RefsHeld(CM.DueAmong(c.inventory, keys), 0, c.products.db)
  {
    forall k | k in b.inventory ensures At(b.inventory[k], 0) in c.products.db {
      assert ConsistentAt(b, k) && ShelvedAt(c, b, k);
    }
    PendingRefs(c.inventory, keys, b.inventory, INVENTORY_WIDTH, 0, c.products.db);
  }

  lemma OrderRefs(c: Caches, b: Books, keys: set<Key>)
    requires Related(c, b)
    ensures RefsHeld(CM.DueAmong(c.orders, keys), ORDER_PRODUCT, c.products.db)
    ensures RefsHeld(CM.DueAmong(c.orders, keys), ORDER_CUSTOMER, b.customers)
  {
    forall k | k in b.orders
      ensures At(b.orders[k], ORDER_PRODUCT) in c.products.db && At(b.orders[k], ORDER_CUSTOMER) in b.customers
    {
      assert ConsistentAt(b, k) && ShelvedAt(c, b, k);
    }
    PendingRefs(c.orders, keys, b.orders, ORDER_WIDTH, ORDER_PRODUCT, c.products.db);
    PendingRefs(c.orders, keys, b.orders, ORDER_WIDTH, ORDER_CUSTOMER, b.customers);
  }

  // ---- Flushes of the company.

  lemma CustomersFlushed(c: Caches, b: Books)
    requires Related(c, b)
    ensures FlushCustomers(c).ok && Related(FlushCustomers(c).caches, b)
    ensures FlushCustomers(c).caches.customers.db == b.customers
  {
    FlushAllMirrors(c.customers, b.customers, CUSTOMER_WIDTH);
    CachesMoved(c, b, FlushCustomers(c).caches);
  }

  lemma ProductsFlushed(c: Caches, b: Books)
    requires Related(c, b)
    ensures FlushProducts(c).ok && Related(FlushProducts(c).caches, b)
    ensures FlushProducts(c).caches.products.db == b.products
  {
    FlushAllMirrors(c.products, b.products, PRODUCT_WIDTH);
    ShelfGrows(c, b, FlushAll(c.products).state);
  }

  // More products in the backend do no harm.
  lemma ShelfGrows(c: Caches, b: Books, s: CM.State)
    requires Related(c, b) && Mirrors(s, b.products, PRODUCT_WIDTH) && forall k :: k in c.products.db ==> k in s.db
    ensures Related(c.(products := s), b)
  {
    forall k ensures ShelvedAt(c.(products := s), b, k) {
      assert ShelvedAt(c, b, k);
    }
  }

  // The other caches may change as long as they mirror their tables.
  lemma CachesMoved(c: Caches, b: Books, c': Caches)
    requires Related(c, b) && c'.products == c.products
    requires Mirrors(c'.inventory, b.inventory, INVENTORY_WIDTH) && Mirrors(c'.customers, b.customers, CUSTOMER_WIDTH)
    requires Mirrors(c'.orders, b.orders, ORDER_WIDTH)
    requires c'.day == c.day && c'.updatedFrom == c.updatedFrom && c'.checks == c.checks
    ensures Related(c', b)
  {
    forall k ensures ShelvedAt(c', b, k) {
      assert ShelvedAt(c, b, k);
    }
  }

  lemma InventoryFlushed(c: Caches, b: Books)
    requires Related(c, b)
    ensures FlushInventory(c).ok && Related(FlushInventory(c).caches, b)
    ensures FlushInventory(c).caches.inventory.db == b.inventory
  {
    InventoryRefs(c, b, c.inventory.pool.Keys);
    FlushAllMirrors(c.inventory, b.inventory, INVENTORY_WIDTH);
    CachesMoved(c, b, FlushInventory(c).caches);
  }

  // The customers have just been flushed by the observer; the products were in the backend already.
  lemma OrdersFlushed(c: Caches, b: Books)
    requires Related(c, b)
    ensures FlushOrders(c).ok && Related(FlushOrders(c).caches, b)
    ensures FlushOrders(c).caches.orders.db == b.orders
    ensures FlushOrders(c).caches.products == c.products && FlushOrders(c).caches.inventory == c.inventory
    ensures FlushOrders(c).caches.customers.db == b.customers
  {
    CustomersFlushed(c, b);
    OrderRefs(c, b, c.orders.pool.Keys);
    FlushAllMirrors(c.orders, b.orders, ORDER_WIDTH);
    CachesMoved(c, b, FlushOrders(c).caches);
  }

  lemma BackgroundKeeps(c: Caches, b: Books, e: Event)
    requires Related(c, b) && !e.Play?
    ensures React(c, e).ok && Related(React(c, e).caches, b)
  {
    match e
    case Monitor(Products) => ProductsFlushed(c, b);
    case Monitor(Inventory) => InventoryFlushed(c, b);
    case Monitor(Customers) => CustomersFlushed(c, b);
    case Monitor(Orders) => OrdersFlushed(c, b);
    case Evict(table, k) => EvictKeeps(c, b, table, k);
  }

  lemma EvictKeeps(c: Caches, b: Books, table: Table, k: Key)
    requires Related(c, b)
    ensures Related(Evicted(c, table, k), b)
  {
    match table
    case Products =>
      EvictMirrors(c.products, k, b.products, PRODUCT_WIDTH);
      ShelfGrows(c, b, CM.Uncache(c.products, k).state);
    case Inventory =>
      EvictMirrors(c.inventory, k, b.inventory, INVENTORY_WIDTH);
      CachesMoved(c, b, Evicted(c, table, k));
    case Customers =>
      EvictMirrors(c.customers, k, b.customers, CUSTOMER_WIDTH);
      CachesMoved(c, b, Evicted(c, table, k));
    case Orders =>
      EvictMirrors(c.orders, k, b.orders, ORDER_WIDTH);
      CachesMoved(c, b, Evicted(c, table, k));
  }

  // ---- Steps.

  // Moving stock fails in both companies or in neither, and moves the inventory of both alike.
  lemma StockMirrors(c: Caches, b: Books, productId: int, quantity: int)
    requires Related(c, b)
    ensures var p := Company.MoveStock(b, productId, quantity);
            var r := ChangeStock(c, productId, quantity);
            && (r.ok <==> p.error.None?)
            && (r.ok ==> Mirrors(r.caches.inventory, p.books.inventory, INVENTORY_WIDTH))
  {
    var k := Int(productId);
    InventoryRefs(c, b, {k});
    ComputeMirrors(c.inventory, k, MovedStock(quantity), b.inventory, INVENTORY_WIDTH) by {
      assert forall cur :: CM.KeepsShape(MovedStock(quantity), k, cur, INVENTORY_WIDTH);
    }
  }

  // The inventories move together.
  lemma InventoryMoved(c: Caches, b: Books, s: CM.State, m: Rows, from: map<int, Order>, checks: nat)
    requires Related(c, b) && Mirrors(s, m, INVENTORY_WIDTH)
    requires forall k :: k in m ==> k in b.inventory || (k in b.products && k in c.products.db)
    ensures Related(c.(inventory := s, updatedFrom := from, checks := checks),
                    b.(inventory := m, updatedFrom := from, checks := checks))
  {
    var c' := c.(inventory := s, updatedFrom := from, checks := checks);
    var b' := b.(inventory := m, updatedFrom := from, checks := checks);
    forall k ensures ConsistentAt(b', k) && ShelvedAt(c', b', k) {
      assert ConsistentAt(b, k) && ShelvedAt(c, b, k);
      MirroredRowFits(s, m, k, INVENTORY_WIDTH);
    }
  }

  lemma MirroredRowFits(s: CM.State, m: Rows, k: Key, width: nat)
    requires Mirrors(s, m, width)
    ensures k in m ==> Fits(k, m[k], width)
  {
    assert MirrorsAt(s, m, k, width);
    if k in m {
      DC.SeenFits(k, CM.Pending(s, k), Lookup(s.db, k), m[k], width);
    }
  }

  lemma MoveStockKeeps(c: Caches, b: Books, productId: int, quantity: int)
    requires Related(c, b)
    ensures var p := Company.MoveStock(b, productId, quantity);
            var r := ChangeStock(c, productId, quantity);
            (r.ok <==> p.error.None?) && (r.ok ==> Related(r.caches, p.books))
  {
    StockMirrors(c, b, productId, quantity);
    var p, r := Company.MoveStock(b, productId, quantity), ChangeStock(c, productId, quantity);
    if r.ok {
      InventoryMoved(c, b, r.caches.inventory, p.books.inventory, c.updatedFrom, c.checks);
      assert c.(inventory := r.caches.inventory) == r.caches && b.(inventory := p.books.inventory) == p.books;
    }
  }

  lemma TakeStockKeeps(c: Caches, b: Books, o: Order)
    requires Related(c, b)
    ensures var p := Company.TakeStock(b, o);
            var r := ReserveStock(c, o);
            && (r.ok <==> p.error.None?) && (r.ok ==> Related(r.caches, p.books))
            && r.caches.orders == c.orders
  {
    if TakesStock(o.status) && o.id !in c.updatedFrom {
      StockMirrors(c, b, o.productId, -o.quantity);
      if Company.TakeStock(b, o).error.None? {
        StockTaken(c, b, o);
      }
    }
  }

  // Inventory operations do not look at the orders that have taken stock.
  lemma InventoryApart(c: Caches, from: map<int, Order>, k: Key, op: CM.Op)
    ensures var r, r' := OnInventory(c, k, op), OnInventory(c.(updatedFrom := from), k, op);
            && r'.reply == r.reply && r'.caches == r.caches.(updatedFrom := from)
            && r.caches == c.(inventory := r.caches.inventory)
  {
  }

  lemma StockApart(c: Caches, from: map<int, Order>, productId: int, quantity: int)
    ensures var r, r' := ChangeStock(c, productId, quantity), ChangeStock(c.(updatedFrom := from), productId, quantity);
            r'.ok == r.ok && r'.caches == c.(inventory := r.caches.inventory, updatedFrom := from)
  {
    InventoryApart(c, from, Int(productId), CM.Compute(Int(productId), MovedStock(quantity)));
  }

  lemma BooksApart(b: Books, from: map<int, Order>, productId: int, quantity: int)
    ensures var p, p' := Company.MoveStock(b, productId, quantity),
                         Company.MoveStock(b.(updatedFrom := from), productId, quantity);
            p'.error == p.error && p'.books == p.books.(updatedFrom := from)
  {
  }

  // The stock has moved, and an order may be remembered.
  lemma StockRelates(c: Caches, b: Books, productId: int, quantity: int, from: map<int, Order>)
    requires Related(c, b) && ChangeStock(c, productId, quantity).ok
    ensures Related(c.(inventory := ChangeStock(c, productId, quantity).caches.inventory, updatedFrom := from),
                    Company.MoveStock(b, productId, quantity).books.(updatedFrom := from))
  {
    StockMirrors(c, b, productId, quantity);
    var p, r := Company.MoveStock(b, productId, quantity), ChangeStock(c, productId, quantity);
    InventoryMoved(c, b, r.caches.inventory, p.books.inventory, from, c.checks);
  }

  lemma StockTaken(c: Caches, b: Books, o: Order)
    requires Related(c, b) && TakesStock(o.status)
    requires Company.TakeStock(b, o).error.None? && ReserveStock(c, o).ok
    ensures Related(ReserveStock(c, o).caches, Company.TakeStock(b, o).books)
  {
    var from := c.updatedFrom[o.id := o];
    StockApart(c, from, o.productId, -o.quantity);
    BooksApart(b, from, o.productId, -o.quantity);
    StockRelates(c, b, o.productId, -o.quantity, from);
  }

  // The order tables move together.
  lemma OrdersMoved(c: Caches, b: Books, s: CM.State, k: Key, row: Row)
    requires Related(c, b) && Mirrors(s, b.orders[k := row], ORDER_WIDTH)
    requires At(row, ORDER_CUSTOMER) in b.customers && At(row, ORDER_PRODUCT) in b.products
    requires At(row, ORDER_PRODUCT) in c.products.db
    ensures Related(c.(orders := s), b.(orders := b.orders[k := row]))
  {
    var c', b' := c.(orders := s), b.(orders := b.orders[k := row]);
    MirroredRowFits(s, b'.orders, k, ORDER_WIDTH);
    forall j ensures ConsistentAt(b', j) && ShelvedAt(c', b', j) {
      assert ConsistentAt(b, j) && ShelvedAt(c, b, j);
    }
  }

  lemma ProductsMoved(c: Caches, b: Books, s: CM.State, k: Key, row: Row)
    requires Related(c, b) && Mirrors(s, b.products[k := row], PRODUCT_WIDTH)
    requires forall j :: j in c.products.db ==> j in s.db
    requires k in b.products || (b.day < 1 && k !in b.inventory)
    ensures Related(c.(products := s), b.(products := b.products[k := row]))
  {
    var c', b' := c.(products := s), b.(products := b.products[k := row]);
    MirroredRowFits(s, b'.products, k, PRODUCT_WIDTH);
    forall j ensures ConsistentAt(b', j) && ShelvedAt(c', b', j) {
      assert ConsistentAt(b, j) && ShelvedAt(c, b, j);
    }
  }

  lemma AddOrderKeeps(c: Caches, b: Books, o: Order)
    requires Related(c, b) && Orderly(b, Step.AddOrder(o)) && PlainStep(b, Step.AddOrder(o)).error.None?
    ensures var r := CachedStep(c, Step.AddOrder(o)); r.ok && Related(r.caches, PlainStep(b, Step.AddOrder(o)).books)
  {
    TakeStockKeeps(c, b, o);
    var c1, b1 := ReserveStock(c, o).caches, Company.TakeStock(b, o).books;
    InsertOrderKeeps(c1, b1, o);
  }

  lemma InsertOrderKeeps(c: Caches, b: Books, o: Order)
    requires Related(c, b) && Company.InsertOrder(b, o).error.None?
    requires b.day >= 1 || Int(o.productId) in b.inventory
    ensures var r := PlaceOrder(c, o); r.ok && Related(r.caches, Company.InsertOrder(b, o).books)
  {
    var row := OrderRow(o.(purchasedOn := c.day));
    InsertMirrors(true, c.orders, row, b.orders, ORDER_WIDTH);
    assert ShelvedAt(c, b, Int(o.productId));
    OrdersMoved(c, b, PlaceOrder(c, o).caches.orders, Int(o.id), row);
  }

  // The observer's flushes before a single order is written.
  lemma BeforeOrderKeeps(c: Caches, b: Books, k: Key)
    requires Related(c, b)
    ensures var r := BeforeOrder(c, k);
            && r.ok && Related(r.caches, b) && r.caches.orders == c.orders && OrderRefsHeld(r.caches, k)
  {
    var r := BeforeOrder(c, k);
    if CM.Pending(c.orders, k).Some? {
      assert MirrorsAt(c.orders, b.orders, k, ORDER_WIDTH);
      CustomersFlushed(c, b);
      ProductsFlushed(FlushCustomers(c).caches, b);
      OrderRefs(r.caches, b, {k});
    }
  }

  lemma FoundOrderIsPlain(c: Caches, b: Books, k: Key)
    requires Related(c, b)
    ensures FoundOrder(c, k) == Lookup(b.orders, k)
  {
    if k !in c.orders.entries {
      FlushMirrors(c.orders, {k}, true, b.orders, ORDER_WIDTH);
      var t := CM.FlushOneStep(c.orders, k, HEALTHY).state;
      assert MirrorsAt(t, b.orders, k, ORDER_WIDTH);
    } else {
      assert MirrorsAt(c.orders, b.orders, k, ORDER_WIDTH);
    }
  }

  lemma UpdateOrderKeeps(c: Caches, b: Books, o: Order)
    requires Related(c, b) && PlainStep(b, Step.UpdateOrder(o)).error.None?
    ensures var r := CachedStep(c, Step.UpdateOrder(o));
            r.ok && Related(r.caches, PlainStep(b, Step.UpdateOrder(o)).books)
  {
    var k := Int(o.id);
    BeforeOrderKeeps(c, b, k);
    var c1 := if k in c.orders.entries then c else BeforeOrder(c, k).caches;
    ChangeOrderKeeps(c1, b, o);
    assert CachedCompany.UpdateOrder(c, o) == ChangeOrder(c1, o);
  }

  lemma ChangeOrderKeeps(c: Caches, b: Books, o: Order)
    requires Related(c, b) && PlainStep(b, Step.UpdateOrder(o)).error.None?
    ensures var r := ChangeOrder(c, o); r.ok && Related(r.caches, PlainStep(b, Step.UpdateOrder(o)).books)
  {
    FoundOrderIsPlain(c, b, Int(o.id));
    TakeStockKeeps(c, b, o);
    SetStatusKeeps(ReserveStock(c, o).caches, Company.TakeStock(b, o).books, o);
  }

  lemma SetStatusKeeps(c: Caches, b: Books, o: Order)
    requires Related(c, b) && Company.SetStatus(b, o).error.None?
    ensures var r := CM.ComputeStep(true, c.orders, Int(o.id), NewStatus(o, true), HEALTHY);
            r.reply != CM.Failed && Related(c.(orders := r.state), Company.SetStatus(b, o).books)
  {
    var k := Int(o.id);
    var f := NewStatus(o, true);
    assert forall cur :: CM.KeepsShape(f, k, cur, ORDER_WIDTH);
    ComputeMirrors(c.orders, k, f, b.orders, ORDER_WIDTH);
    assert ConsistentAt(b, k) && ShelvedAt(c, b, k);
    OrdersMoved(c, b, CM.ComputeStep(true, c.orders, k, f, HEALTHY).state, k, f(Lookup(b.orders, k)).value);
  }

  lemma CheckInventoryKeeps(c: Caches, b: Books, p: int, n: int)
    requires Related(c, b)
    ensures var r := CachedCompany.CheckInventory(c, p, n);
            var q := PlainStep(b, Step.CheckInventory(p, n));
            (r.ok <==> q.error.None?) && Related(r.caches, q.books)
  {
    InventoryRefs(c, b, {Int(p)});
    GetMirrors(c.inventory, Int(p), b.inventory, INVENTORY_WIDTH);
    var r, q := CachedCompany.CheckInventory(c, p, n), PlainStep(b, Step.CheckInventory(p, n));
    InventoryMoved(c, b, r.caches.inventory, b.inventory, c.updatedFrom, q.books.checks);
    assert r.caches == c.(inventory := r.caches.inventory, checks := q.books.checks);
  }

  // Viewing succeeds in the cached company exactly when the product exists; in the plain company always.
  lemma ViewExact(c: Caches, b: Books, p: int)
    requires Related(c, b)
    ensures var r := CachedStep(c, ViewProduct(p));
            && (r.ok <==> Int(p) in b.products)
            && (r.ok ==> Related(r.caches, PlainStep(b, ViewProduct(p)).books))
  {
    assert forall cur :: CM.KeepsShape(BumpViews(), Int(p), cur, PRODUCT_WIDTH);
    ComputeMirrors(c.products, Int(p), BumpViews(), b.products, PRODUCT_WIDTH);
    if Int(p) in b.products {
      ProductsMoved(c, b, CachedStep(c, ViewProduct(p)).caches.products, Int(p), Viewed(b.products[Int(p)]));
    }
  }

  lemma AddProductKeeps(c: Caches, b: Books, p: Product)
    requires Related(c, b) && Orderly(b, Step.AddProduct(p)) && PlainStep(b, Step.AddProduct(p)).error.None?
    ensures var r := CachedStep(c, Step.AddProduct(p));
            r.ok && Related(r.caches, PlainStep(b, Step.AddProduct(p)).books)
  {
    InsertMirrors(true, c.products, ProductRow(p), b.products, PRODUCT_WIDTH);
    assert ConsistentAt(b, Int(p.id));
    ProductsMoved(c, b, CachedStep(c, Step.AddProduct(p)).caches.products, Int(p.id), ProductRow(p));
  }

  lemma AddCustomerKeeps(c: Caches, b: Books, u: Customer)
    requires Related(c, b) && PlainStep(b, Step.AddCustomer(u)).error.None?
    ensures var r := CachedStep(c, Step.AddCustomer(u));
            r.ok && Related(r.caches, PlainStep(b, Step.AddCustomer(u)).books)
  {
    InsertMirrors(false, c.customers, CustomerRow(u.(registeredOn := c.day)), b.customers, CUSTOMER_WIDTH);
    var c', b' := CachedStep(c, Step.AddCustomer(u)).caches, PlainStep(b, Step.AddCustomer(u)).books;
    forall k ensures ConsistentAt(b', k) && ShelvedAt(c', b', k) {
      assert ConsistentAt(b, k) && ShelvedAt(c, b, k);
    }
  }

  lemma AddInventoryRecordKeeps(c: Caches, b: Books, i: InventoryRecord)
    requires Related(c, b) && PlainStep(b, Step.AddInventoryRecord(i)).error.None?
    ensures var r := CachedStep(c, Step.AddInventoryRecord(i));
            r.ok && Related(r.caches, PlainStep(b, Step.AddInventoryRecord(i)).books)
  {
    ProductsFlushed(c, b);
    InsertMirrors(true, c.inventory, InventoryRow(i), b.inventory, INVENTORY_WIDTH);
    var c1, c' := FlushProducts(c).caches, CachedStep(c, Step.AddInventoryRecord(i)).caches;
    InventoryMoved(c1, b, c'.inventory, b.inventory[Int(i.productId) := InventoryRow(i)], c.updatedFrom, c.checks);
    assert c' == c1.(inventory := c'.inventory);
  }

  lemma SetDayKeeps(c: Caches, b: Books, d: int)
    requires Related(c, b) && Orderly(b, Step.Day(d))
    ensures var r := CachedStep(c, Step.Day(d)); r.ok && Related(r.caches, PlainStep(b, Step.Day(d)).books)
  {
    if d == 1 {
      CustomersFlushed(c, b);
      var c1 := FlushCustomers(c).caches;
      ProductsFlushed(c1, b);
      var c2 := FlushProducts(c1).caches;
      InventoryFlushed(c2, b);
      DayMoved(FlushInventory(c2).caches, b, d);
    } else {
      DayMoved(c, b, d);
    }
  }

  lemma DayMoved(c: Caches, b: Books, d: int)
    requires Related(c, b) && (d < 1 || b.day >= 1 || c.products.db == b.products)
    ensures Related(c.(day := d), b.(day := d))
  {
    forall k ensures ConsistentAt(b.(day := d), k) && ShelvedAt(c.(day := d), b.(day := d), k) {
      assert ConsistentAt(b, k) && ShelvedAt(c, b, k);
    }
  }

  // The session table is not kept in the caches here.
  lemma SessionsMoved(c: Caches, b: Books, sessions: Rows)
    requires Related(c, b)
    ensures Related(c, b.(sessions := sessions))
  {
    forall k ensures ConsistentAt(b.(sessions := sessions), k) && ShelvedAt(c, b.(sessions := sessions), k) {
      assert ConsistentAt(b, k) && ShelvedAt(c, b, k);
    }
  }

  // A step that succeeds in the plain company succeeds in the cached one and moves both alike.
  lemma StepKeeps(c: Caches, b: Books, step: Step)
    requires Related(c, b) && Orderly(b, step) && PlainStep(b, step).error.None?
    ensures CachedStep(c, step).ok && Related(CachedStep(c, step).caches, PlainStep(b, step).books)
  {
    match step
    case Day(d) => SetDayKeeps(c, b, d);
    case AddProduct(p) => AddProductKeeps(c, b, p);
    case AddInventoryRecord(i) => AddInventoryRecordKeeps(c, b, i);
    case AddCustomer(u) => AddCustomerKeeps(c, b, u);
    case AddOrder(o) => AddOrderKeeps(c, b, o);
    case UpdateOrder(o) => UpdateOrderKeeps(c, b, o);
    case AddStock(p, n) => MoveStockKeeps(c, b, p, n);
    case CheckInventory(p, n) => CheckInventoryKeeps(c, b, p, n);
    case ViewProduct(p) => ViewExact(c, b, p);
    case Title =>
    case _ => SessionsMoved(c, b, PlainStep(b, step).books.sessions);
  }

  // ---- Whole screenplays.

  lemma {:induction false} RunKeeps(c: Caches, b: Books, events: seq<Event>)
    requires Related(c, b) && AllOrderly(b, ScriptOf(events)) && Company.Play(b, ScriptOf(events)).error.None?
    ensures ReactAll(c, events).ok
    ensures Related(ReactAll(c, events).caches, Company.Play(b, ScriptOf(events)).books)
    decreases |events|
  {
    if events != [] {
      var e := events[0];
      if e.Play? {
        var script := ScriptOf(events);
        assert script[0] == e.step && script[1..] == ScriptOf(events[1..]);
        StepKeeps(c, b, e.step);
        RunKeeps(CachedStep(c, e.step).caches, PlainStep(b, e.step).books, events[1..]);
      } else {
        BackgroundKeeps(c, b, e);
        RunKeeps(React(c, e).caches, b, events[1..]);
      }
    }
  }

  lemma OpenedRelated()
    ensures Related(OpenedOn(), Empty())
  {
    assert forall k, width :: MirrorsAt(OpenedOn().products, map[], k, width);
  }

  // Any orderly screenplay that the plain company plays without a failure, the cached company plays without a failure
  // under any background activity; no write-back of it is refused, and after the curtain call the tables are equal.
  lemma {:induction false} SameTables(events: seq<Event>)
    requires AllOrderly(Empty(), ScriptOf(events)) && Company.Play(Empty(), ScriptOf(events)).error.None?
    ensures var r := ReactAll(OpenedOn(), events);
            var closed := Closed(r.caches);
            var b := Company.Play(Empty(), ScriptOf(events)).books;
            && r.ok && closed.ok
            && closed.caches.products.db == b.products && closed.caches.inventory.db == b.inventory
            && closed.caches.customers.db == b.customers && closed.caches.orders.db == b.orders
  {
    OpenedRelated();
    RunKeeps(OpenedOn(), Empty(), events);
    CurtainCallWrites(ReactAll(OpenedOn(), events).caches, Company.Play(Empty(), ScriptOf(events)).books);
  }

  lemma CurtainCallWrites(c: Caches, b: Books)
    requires Related(c, b)
    ensures var r := Closed(c);
            && r.ok && Related(r.caches, b)
            && r.caches.products.db == b.products && r.caches.inventory.db == b.inventory
            && r.caches.customers.db == b.customers && r.caches.orders.db == b.orders
  {
    CustomersFlushed(c, b);
    var c1 := FlushCustomers(c).caches;
    ProductsFlushed(c1, b);
    var c2 := FlushProducts(c1).caches;
    InventoryFlushed(c2, b);
    OrdersFlushed(FlushInventory(c2).caches, b);
  }

  // In every reachable state, whatever is pending may be written now: the references of inventory records are in the
  // backend, and those of orders are once the observer has flushed the customers.
  lemma {:induction false} ReferencesHeld(events: seq<Event>)
    requires AllOrderly(Empty(), ScriptOf(events)) && Company.Play(Empty(), ScriptOf(events)).error.None?
    ensures var c := ReactAll(OpenedOn(), events).caches;
            var due := CM.DueAmong(c.orders, c.orders.pool.Keys);
            && RefsHeld(CM.DueAmong(c.inventory, c.inventory.pool.Keys), 0, c.products.db)
            && RefsHeld(due, ORDER_PRODUCT, c.products.db)
            && RefsHeld(due, ORDER_CUSTOMER, FlushCustomers(c).caches.customers.db)
            && (forall k :: BeforeOrder(c, k).ok && OrderRefsHeld(BeforeOrder(c, k).caches, k))
  {
    OpenedRelated();
    RunKeeps(OpenedOn(), Empty(), events);
    var c, b := ReactAll(OpenedOn(), events).caches, Company.Play(Empty(), ScriptOf(events)).books;
    CustomersFlushed(c, b);
    InventoryRefs(c, b, c.inventory.pool.Keys);
    OrderRefs(c, b, c.orders.pool.Keys);
    forall k ensures BeforeOrder(c, k).ok && OrderRefsHeld(BeforeOrder(c, k).caches, k) {
      BeforeOrderKeeps(c, b, k);
    }
  }

  // The pending record of this order writes its product column: it is a new order, as no step changes a product.
  predicate WritesProduct(u: CacheUpdate) {
    u.Insert? || (u.Update? && ORDER_PRODUCT < |u.am| && u.am[ORDER_PRODUCT].Set?)
  }

  predicate WaitsForProduct(c: Caches, b: Books, k: Key) {
    && k in b.orders && CM.Pending(c.orders, k).Some? && WritesProduct(CM.Pending(c.orders, k).value)
    && At(b.orders[k], ORDER_PRODUCT) !in c.products.db
  }

  // Why orders must wait for their products: the observer of a batch does not flush products, so the batch is
  // accepted exactly when no pending order is the first to refer to a product missing in the backend.
  lemma OrdersFlushExact(c: Caches, b: Books)
    requires Mirrors(c.customers, b.customers, CUSTOMER_WIDTH) && Mirrors(c.orders, b.orders, ORDER_WIDTH)
    requires forall k :: ConsistentAt(b, k)
    ensures FlushOrders(c).ok <==> forall k :: !WaitsForProduct(c, b, k)
  {
    FlushAllMirrors(c.customers, b.customers, CUSTOMER_WIDTH);
    FlushAllMirrors(c.orders, b.orders, ORDER_WIDTH);
    var due := CM.DueAmong(c.orders, c.orders.pool.Keys);
    forall k | k in b.orders ensures At(b.orders[k], ORDER_CUSTOMER) in b.customers {
      assert ConsistentAt(b, k);
    }
    PendingRefs(c.orders, c.orders.pool.Keys, b.orders, ORDER_WIDTH, ORDER_CUSTOMER, b.customers);
    ProductsHeld(c, b);
  }

  lemma ProductsHeld(c: Caches, b: Books)
    requires Mirrors(c.orders, b.orders, ORDER_WIDTH)
    ensures RefsHeld(CM.DueAmong(c.orders, c.orders.pool.Keys), ORDER_PRODUCT, c.products.db) <==>
            forall k :: !WaitsForProduct(c, b, k)
  {
    var due := CM.DueAmong(c.orders, c.orders.pool.Keys);
    forall k ensures k in due && !RefHeld(due[k], ORDER_PRODUCT, c.products.db) <==> WaitsForProduct(c, b, k) {
      assert MirrorsAt(c.orders, b.orders, k, ORDER_WIDTH);
      if k in due {
        assert CM.Pending(c.orders, k) == Some(due[k]);
        assert k in b.orders && b.orders[k] == Apply(due[k], Lookup(c.orders.db, k)).value;
      }
    }
  }
}
