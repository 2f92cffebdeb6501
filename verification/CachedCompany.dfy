/** The company that acts through caches.  Each cache is held as a value; the observers of the order cache flush the
    caches an order refers to, and a write-back is refused when a referenced row is not in the backend yet.  Backend
    calls succeed otherwise. */
module CachedCompany {
  import opened Records
  import opened Backend
  import opened Company
  import CM = CacheModel

  const HEALTHY: CM.Io := CM.Io(true, true)

  datatype Caches = Caches(products: CM.State, inventory: CM.State, customers: CM.State, orders: CM.State,
                           day: int, updatedFrom: map<int, Order>, checks: nat)

  datatype Played = Played(caches: Caches, ok: bool)

  // ---- Write-backs under the foreign keys.

  // A record that writes column `col` writes the key of a row of `target`.
  predicate RefHeld(u: CacheUpdate, col: nat, target: Rows) {
    match u
    case Insert(am) => col < |am| && am[col].IntoValue().Some? && am[col].IntoValue().value in target
    case Update(am) => col < |am| && am[col].Set? ==> am[col].v in target
    case Delete => true
  }

  predicate RefsHeld(due: Batch, col: nat, target: Rows) {
    forall k :: k in due ==> RefHeld(due[k], col, target)
  }

  // A flush of one cache by itself.
  function FlushAll(s: CM.State): CM.Outcome {
    CM.FlushKeys(s, s.pool.Keys, false, HEALTHY)
  }

  function FlushProducts(c: Caches): Played {
    var r := FlushAll(c.products);
    Played(c.(products := r.state), r.reply == CM.Done)
  }

  function FlushCustomers(c: Caches): Played {
    var r := FlushAll(c.customers);
    Played(c.(customers := r.state), r.reply == CM.Done)
  }

  // The inventory cache has no observer; its records refer to products.
  function FlushInventory(c: Caches): Played {
    if !RefsHeld(CM.DueAmong(c.inventory, c.inventory.pool.Keys), 0, c.products.db) then Played(c, false)
    else
      var r := FlushAll(c.inventory);
      Played(c.(inventory := r.state), r.reply == CM.Done)
  }

  // The order cache's observer flushes the customers before every batch, the products are not flushed with it.
  function FlushOrders(c: Caches): Played {
    var observed := FlushCustomers(c);
    if !observed.ok then observed
    else
      var due := CM.DueAmong(c.orders, c.orders.pool.Keys);
      if !RefsHeld(due, ORDER_CUSTOMER, observed.caches.customers.db) || !RefsHeld(due, ORDER_PRODUCT, c.products.db)
      then Played(observed.caches, false)
      else
        var r := FlushAll(c.orders);
        Played(observed.caches.(orders := r.state), r.reply == CM.Done)
  }

  // What the observer does before a single order is flushed: customers and products, unless the order is deleted.
  function BeforeOrder(c: Caches, k: Key): Played {
    if CM.Pending(c.orders, k).None? || CM.Pending(c.orders, k).value.Delete? then Played(c, true)
    else
      var customers := FlushCustomers(c);
      if !customers.ok then customers else FlushProducts(customers.caches)
  }

  predicate OrderRefsHeld(c: Caches, k: Key) {
    var due := CM.DueAmong(c.orders, {k});
    RefsHeld(due, ORDER_CUSTOMER, c.customers.db) && RefsHeld(due, ORDER_PRODUCT, c.products.db)
  }

  // ---- The steps.

  datatype Reserved = Reserved(caches: Caches, reply: CM.Reply)

  // An operation on one inventory record.  A record that is pooled but not cached is flushed first.
  function OnInventory(c: Caches, k: Key, op: CM.Op): Reserved {
    if k !in c.inventory.entries && !RefsHeld(CM.DueAmong(c.inventory, {k}), 0, c.products.db)
    then Reserved(c, CM.Failed)
    else
      var r := CM.Step(true, c.inventory, op, HEALTHY);
      Reserved(c.(inventory := r.state), r.reply)
  }

  function MovedStock(quantity: int): CM.Callback {
    (cur: Option<Row>) =>
      if cur.None? || IntAt(cur.value, STOCK) + quantity < 0 then CM.Fail
      else CM.Put(With(cur.value, STOCK, Int(IntAt(cur.value, STOCK) + quantity)))
  }

  function ChangeStock(c: Caches, productId: int, quantity: int): Played {
    var r := OnInventory(c, Int(productId), CM.Compute(Int(productId), MovedStock(quantity)));
    Played(r.caches, r.reply != CM.Failed)
  }

  function ReserveStock(c: Caches, o: Order): Played {
    if !TakesStock(o.status) then Played(c, true)
    else if o.id in c.updatedFrom then Played(c, false)
    else ChangeStock(c.(updatedFrom := c.updatedFrom[o.id := o]), o.productId, -o.quantity)
  }

  function PlaceOrder(c: Caches, o: Order): Played {
    var r := CM.Step(true, c.orders, CM.Insert(OrderRow(o.(purchasedOn := c.day))), HEALTHY);
    Played(c.(orders := r.state), r.reply != CM.Failed)
  }

  function NewStatus(o: Order, allowed: bool): CM.Callback {
    (cur: Option<Row>) =>
      if cur.None? || !allowed then CM.Fail
      else CM.Put(With(cur.value, STATUS, StatusValue(o.status)))
  }

  // The order as the compute callback finds it.
  function FoundOrder(c: Caches, k: Key): Option<Row> {
    if k in c.orders.entries then Some(c.orders.entries[k])
    else Lookup(CM.FlushOneStep(c.orders, k, HEALTHY).state.db, k)
  }

  // `update_order`: the stock is taken inside the compute callback, once the order has been found.
  function UpdateOrder(c: Caches, o: Order): Played {
    var k := Int(o.id);
    var ready := if k in c.orders.entries then Played(c, true) else BeforeOrder(c, k);
    if !ready.ok || (k !in c.orders.entries && !OrderRefsHeld(ready.caches, k)) then Played(ready.caches, false)
    else ChangeOrder(ready.caches, o)
  }

  function ChangeOrder(c: Caches, o: Order): Played {
    var k := Int(o.id);
    var taken := if FoundOrder(c, k).Some? then ReserveStock(c, o) else Played(c, true);
    var r := CM.ComputeStep(true, c.orders, k, NewStatus(o, taken.ok), HEALTHY);
    Played(taken.caches.(orders := r.state), r.reply != CM.Failed)
  }

  function BumpViews(): CM.Callback {
    (cur: Option<Row>) => if cur.None? then CM.Fail else CM.Put(Viewed(cur.value))
  }

  function CheckInventory(c: Caches, productId: int, stock: int): Played {
    var r := OnInventory(c, Int(productId), CM.Get(Int(productId)));
    var ok := r.reply.Found? && r.reply.value.Some? && IntAt(r.reply.value.value, STOCK) == stock;
    Played(if ok then r.caches.(checks := c.checks + 1) else r.caches, ok)
  }

  // `set_current_day`: day 1 begins with everything so far in the backend, products before their inventory.
  function SetDay(c: Caches, day: int): Played {
    if day != 1 then Played(c.(day := day), true)
    else
      var customers := FlushCustomers(c);
      if !customers.ok then customers
      else
        var products := FlushProducts(customers.caches);
        if !products.ok then products
        else
          var inventory := FlushInventory(products.caches);
          if !inventory.ok then inventory else Played(inventory.caches.(day := day), true)
  }

  function AddInventoryRecord(c: Caches, r: InventoryRecord): Played {
    var flushed := FlushProducts(c);
    if !flushed.ok then flushed
    else
      var s := CM.Step(true, c.inventory, CM.Insert(InventoryRow(r)), HEALTHY);
      Played(flushed.caches.(inventory := s.state), s.reply != CM.Failed)
  }

  // Session steps do not touch the caches kept here; `WholeCompany` has the fifth cache.
  function CachedStep(c: Caches, step: Step): Played {
    match step
    case Day(d) => SetDay(c, d)
    case AddProduct(p) =>
      var r := CM.Step(true, c.products, CM.Insert(ProductRow(p)), HEALTHY);
      Played(c.(products := r.state), r.reply != CM.Failed)
    case AddInventoryRecord(r) => AddInventoryRecord(c, r)
    case AddCustomer(u) =>
      var r := CM.Step(false, c.customers, CM.Insert(CustomerRow(u.(registeredOn := c.day))), HEALTHY);
      Played(c.(customers := r.state), r.reply != CM.Failed)
    case AddOrder(o) =>
      var taken := ReserveStock(c, o);
      if !taken.ok then taken else PlaceOrder(taken.caches, o)
    case UpdateOrder(o) => UpdateOrder(c, o)
    case AddStock(p, n) => ChangeStock(c, p, n)
    case CheckInventory(p, n) => CheckInventory(c, p, n)
    case ViewProduct(p) =>
      var r := CM.Step(true, c.products, CM.Compute(Int(p), BumpViews()), HEALTHY);
      Played(c.(products := r.state), r.reply != CM.Failed)
    case _ => Played(c, true)
  }

  // ---- What happens in the background, at any time.

  datatype Table = Products | Inventory | Customers | Orders

  datatype Event = Play(step: Step) | Monitor(table: Table) | Evict(table: Table, key: Key)

  function Evicted(c: Caches, table: Table, k: Key): Caches {
    match table
    case Products => c.(products := CM.Uncache(c.products, k).state)
    case Inventory => c.(inventory := CM.Uncache(c.inventory, k).state)
    case Customers => c.(customers := CM.Uncache(c.customers, k).state)
    case Orders => c.(orders := CM.Uncache(c.orders, k).state)
  }

  function React(c: Caches, e: Event): Played {
    match e
    case Play(step) => CachedStep(c, step)
    case Monitor(Products) => FlushProducts(c)
    case Monitor(Inventory) => FlushInventory(c)
    case Monitor(Customers) => FlushCustomers(c)
    case Monitor(Orders) => FlushOrders(c)
    case Evict(table, k) => Played(Evicted(c, table, k), true)
  }

  // A run stops at the first failure, in a step or in the background.
  function ReactAll(c: Caches, events: seq<Event>): Played
    decreases |events|
  {
    if events == [] then Played(c, true)
    else
      var r := React(c, events[0]);
      if !r.ok then r else ReactAll(r.caches, events[1..])
  }

  // The screenplay inside a run.
  function ScriptOf(events: seq<Event>): Script
    decreases |events|
  {
    if events == [] then []
    else if events[0].Play? then [events[0].step] + ScriptOf(events[1..])
    else ScriptOf(events[1..])
  }

  // `curtain_call`: the caches are closed one after the other, each with a last flush.
  function Closed(c: Caches): Played {
    var customers := FlushCustomers(c);
    if !customers.ok then customers
    else
      var products := FlushProducts(customers.caches);
      if !products.ok then products
      else
        var inventory := FlushInventory(products.caches);
        if !inventory.ok then inventory else FlushOrders(inventory.caches)
  }

  function OpenedOn(): Caches {
    var s := CM.State(map[], map[], map[]);
    Caches(s, s, s, s, 0, map[], 0)
  }
}
