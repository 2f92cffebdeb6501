/** What the tables of the plain company hold after a script, told from the steps of the script alone: every stock,
    view count, order, customer, session and check. */
module PlainLaws {
  import opened Records
  import opened Company
  import opened Scripting
  import opened Totals

  // The company has played the first `n` steps.
  function BooksAt(steps: Script, n: nat): Books
    requires n <= |steps|
  {
    Play(Empty(), steps[..n]).books
  }

  predicate PlayedTo(steps: Script, n: nat) {
    n <= |steps| && Play(Empty(), steps[..n]).error.None?
  }

  lemma PlayedBack(steps: Script, n: nat)
    requires n > 0 && PlayedTo(steps, n)
    ensures PlayedTo(steps, n - 1) && PlainStep(BooksAt(steps, n - 1), steps[n - 1]).error.None?
    ensures BooksAt(steps, n) == PlainStep(BooksAt(steps, n - 1), steps[n - 1]).books
  {
    assert steps[..n] == steps[..n - 1] + [steps[n - 1]];
    PlayAppend(Empty(), steps[..n - 1], [steps[n - 1]]);
    PlayOne(steps[..n - 1], steps[n - 1]);
  }

  // ---- Stock.

  // A step that takes stock for an order: only new and pending orders do.
  predicate Claims(step: Step) {
    IsOrder(step) && (step.order.status == New || step.order.status == Pending)
  }

  // What one step takes of product `p`.
  function Takes(step: Step, p: int): int {
    if Claims(step) && step.order.productId == p then step.order.quantity else 0
  }

  function TakenTo(steps: Script, n: nat, p: int): int
    requires n <= |steps|
  {
    if n == 0 then 0 else TakenTo(steps, n - 1, p) + Takes(steps[n - 1], p)
  }

  function Taken(steps: Script, p: int): int {
    TakenTo(steps, |steps|, p)
  }

  predicate StockIs(b: Books, p: int, stock: int) {
    if Int(p) in b.inventory then
      |b.inventory[Int(p)]| == INVENTORY_WIDTH && IntAt(b.inventory[Int(p)], STOCK) == stock
    else stock == 0
  }

  lemma StepMovesStock(b: Books, step: Step, p: int, stock: int)
    requires StockIs(b, p, stock) && PlainStep(b, step).error.None?
    ensures StockIs(PlainStep(b, step).books, p, stock + Weight(step, Brought(p)) - Takes(step, p))
  {
    if IsOrder(step) {
      TakeMovesStock(b, step.order, p, stock);
    } else if step.AddStock? {
      MoveMovesStock(b, step.productId, step.batchSize, p, stock);
    }
  }

  lemma MoveMovesStock(b: Books, q: int, n: int, p: int, stock: int)
    requires StockIs(b, p, stock) && MoveStock(b, q, n).error.None?
    ensures StockIs(MoveStock(b, q, n).books, p, stock + if q == p then n else 0)
  {
  }

  lemma TakeMovesStock(b: Books, o: Order, p: int, stock: int)
    requires StockIs(b, p, stock) && TakeStock(b, o).error.None?
    ensures StockIs(TakeStock(b, o).books, p,
                    stock - if (o.status == New || o.status == Pending) && o.productId == p then o.quantity else 0)
  {
    if TakesStock(o.status) {
      MoveMovesStock(b.(updatedFrom := b.updatedFrom[o.id := o]), o.productId, -o.quantity, p, stock);
    }
  }

  // The stock of a product is all that was ever brought minus all that orders have taken.
  lemma {:induction false} StockConserved(steps: Script, n: nat, p: int)
    requires PlayedTo(steps, n)
    ensures StockIs(BooksAt(steps, n), p, TotalTo(steps, n, Brought(p)) - TakenTo(steps, n, p))
  {
    if n > 0 {
      PlayedBack(steps, n);
      StockConserved(steps, n - 1, p);
      StepMovesStock(BooksAt(steps, n - 1), steps[n - 1], p,
                     TotalTo(steps, n - 1, Brought(p)) - TakenTo(steps, n - 1, p));
    }
  }

  lemma {:induction false} TakenPrefix(a: Script, b: Script, n: nat, p: int)
    requires n <= |a|
    ensures TakenTo(a + b, n, p) == TakenTo(a, n, p)
  {
    if n > 0 {
      TakenPrefix(a, b, n - 1, p);
    }
  }

  lemma {:induction false} TakenSuffix(a: Script, b: Script, n: nat, p: int)
    requires n <= |b|
    ensures TakenTo(a + b, |a| + n, p) == Taken(a, p) + TakenTo(b, n, p)
  {
    if n == 0 {
      TakenPrefix(a, b, |a|, p);
    } else {
      TakenSuffix(a, b, n - 1, p);
      assert (a + b)[|a| + n - 1] == b[n - 1];
    }
  }

  // A script that has grown: the stock has risen by what was brought and fallen by what the new steps take.
  lemma StockMoves(before: Script, after: Script, brought: Script, p: int)
    requires before <= after && Gained(before, after, brought) && Int(p) in Play(Empty(), before).books.inventory
    requires Play(Empty(), before).error.None? && Play(Empty(), after).error.None?
    requires Int(p) in Play(Empty(), after).books.inventory
    ensures Stock(Play(Empty(), after).books, p).value ==
            Stock(Play(Empty(), before).books, p).value + Total(brought, Brought(p)) - Taken(after[|before|..], p)
  {
    assert before[..|before|] == before && after[..|after|] == after;
    StockConserved(before, |before|, p);
    StockConserved(after, |after|, p);
    assert GainedOf(before, after, brought, Brought(p));
    var added := after[|before|..];
    assert before + added == after;
    TakenSuffix(before, added, |added|, p);
  }

  // An inventory record is as it was added, but for its stock: what it came with and what was brought and taken since.
  lemma {:induction false} RecordTold(steps: Script, m: nat, n: nat, record: InventoryRecord)
    requires m < n && PlayedTo(steps, n) && steps[m] == AddInventoryRecord(record)
    ensures var p := record.productId;
            var stock := TotalTo(steps, n, Brought(p)) - TotalTo(steps, m, Brought(p))
                         - (TakenTo(steps, n, p) - TakenTo(steps, m, p));
            Lookup(BooksAt(steps, n).inventory, Int(p)) == Some(InventoryRow(record.(stock := stock)))
  {
    PlayedBack(steps, n);
    if m < n - 1 {
      RecordTold(steps, m, n - 1, record);
      var p := record.productId;
      var stock := TotalTo(steps, n - 1, Brought(p)) - TotalTo(steps, m, Brought(p))
                   - (TakenTo(steps, n - 1, p) - TakenTo(steps, m, p));
      RecordStep(BooksAt(steps, n - 1), steps[n - 1], record.(stock := stock));
    }
  }

  lemma RecordStep(b: Books, step: Step, record: InventoryRecord)
    requires Lookup(b.inventory, Int(record.productId)) == Some(InventoryRow(record))
    requires PlainStep(b, step).error.None?
    ensures var p := record.productId;
            var stock := record.stock + Weight(step, Brought(p)) - Takes(step, p);
            Lookup(PlainStep(b, step).books.inventory, Int(p)) == Some(InventoryRow(record.(stock := stock)))
  {
    if IsOrder(step) {
      RecordClaimed(b, step.order, record);
    } else if step.AddStock? {
      RecordMoved(b, step.productId, step.batchSize, record);
    }
  }

  lemma RecordMoved(b: Books, q: int, n: int, record: InventoryRecord)
    requires Lookup(b.inventory, Int(record.productId)) == Some(InventoryRow(record)) && MoveStock(b, q, n).error.None?
    ensures var stock := record.stock + if q == record.productId then n else 0;
            Lookup(MoveStock(b, q, n).books.inventory, Int(record.productId)) ==
            Some(InventoryRow(record.(stock := stock)))
  {
    if q == record.productId {
      assert With(InventoryRow(record), STOCK, Int(record.stock + n)) ==
             InventoryRow(record.(stock := record.stock + n));
    }
  }

  lemma RecordClaimed(b: Books, o: Order, record: InventoryRecord)
    requires Lookup(b.inventory, Int(record.productId)) == Some(InventoryRow(record)) && TakeStock(b, o).error.None?
    ensures var taken := if (o.status == New || o.status == Pending) && o.productId == record.productId
                         then o.quantity else 0;
            Lookup(TakeStock(b, o).books.inventory, Int(record.productId)) ==
            Some(InventoryRow(record.(stock := record.stock - taken)))
  {
    if TakesStock(o.status) {
      RecordMoved(b.(updatedFrom := b.updatedFrom[o.id := o]), o.productId, -o.quantity, record);
    }
  }

  // ---- Checks and views.

  lemma {:induction false} ChecksCounted(steps: Script, n: nat)
    requires PlayedTo(steps, n)
    ensures BooksAt(steps, n).checks == TotalTo(steps, n, AllChecks)
  {
    if n > 0 {
      PlayedBack(steps, n);
      ChecksCounted(steps, n - 1);
      ChecksStep(BooksAt(steps, n - 1), steps[n - 1]);
    }
  }

  lemma ChecksStep(b: Books, step: Step)
    requires PlainStep(b, step).error.None?
    ensures PlainStep(b, step).books.checks == b.checks + Weight(step, AllChecks)
  {
  }

  // A product is as it was added, but for its views: those it came with and one for each time it was viewed since.
  lemma {:induction false} ViewsCounted(steps: Script, m: nat, n: nat, product: Product)
    requires m < n && PlayedTo(steps, n) && steps[m] == AddProduct(product)
    ensures var views := TotalTo(steps, n, Viewings(product.id)) - TotalTo(steps, m, Viewings(product.id));
            Lookup(BooksAt(steps, n).products, Int(product.id)) == Some(ProductRow(product.(views := views)))
  {
    PlayedBack(steps, n);
    if m < n - 1 {
      ViewsCounted(steps, m, n - 1, product);
      var views := TotalTo(steps, n - 1, Viewings(product.id)) - TotalTo(steps, m, Viewings(product.id));
      ViewsStep(BooksAt(steps, n - 1), steps[n - 1], product.(views := views));
    }
  }

  lemma ViewsStep(b: Books, step: Step, product: Product)
    requires Lookup(b.products, Int(product.id)) == Some(ProductRow(product)) && PlainStep(b, step).error.None?
    ensures var views := product.views + Weight(step, Viewings(product.id));
            Lookup(PlainStep(b, step).books.products, Int(product.id)) == Some(ProductRow(product.(views := views)))
  {
    if step.ViewProduct? && step.productId == product.id {
      assert Viewed(ProductRow(product)) == ProductRow(product.(views := product.views + 1));
    }
  }

  // ---- Days, customers and orders.

  // The day on which step `n` is played.
  function DayAt(steps: Script, n: nat): int
    requires n <= |steps|
  {
    if n == 0 then 0 else if steps[n - 1].Day? then steps[n - 1].day else DayAt(steps, n - 1)
  }

  lemma {:induction false} DayTold(steps: Script, n: nat)
    requires PlayedTo(steps, n)
    ensures BooksAt(steps, n).day == DayAt(steps, n)
  {
    if n > 0 {
      PlayedBack(steps, n);
      DayTold(steps, n - 1);
      DayStep(BooksAt(steps, n - 1), steps[n - 1]);
    }
  }

  lemma DayStep(b: Books, step: Step)
    ensures PlainStep(b, step).books.day == if step.Day? then step.day else b.day
  {
  }

  // A customer is as added, registered on the day of the addition, and stays so.
  lemma {:induction false} CustomerTold(steps: Script, m: nat, n: nat, customer: Customer)
    requires m < n && PlayedTo(steps, n) && steps[m] == AddCustomer(customer)
    ensures Lookup(BooksAt(steps, n).customers, Int(customer.id)) ==
            Some(CustomerRow(customer.(registeredOn := DayAt(steps, m))))
  {
    PlayedBack(steps, n);
    if m < n - 1 {
      CustomerTold(steps, m, n - 1, customer);
      CustomerStays(BooksAt(steps, n - 1), steps[n - 1], customer.id);
    } else {
      DayTold(steps, m);
      CustomerPlaced(BooksAt(steps, m), customer);
    }
  }

  lemma CustomerStays(b: Books, step: Step, x: int)
    requires Int(x) in b.customers && PlainStep(b, step).error.None?
    ensures Lookup(PlainStep(b, step).books.customers, Int(x)) == Lookup(b.customers, Int(x))
  {
  }

  lemma CustomerPlaced(b: Books, customer: Customer)
    requires PlainStep(b, AddCustomer(customer)).error.None?
    ensures Lookup(PlainStep(b, AddCustomer(customer)).books.customers, Int(customer.id)) ==
            Some(CustomerRow(customer.(registeredOn := b.day)))
  {
  }

  predicate OrderStep(step: Step, x: int) {
    IsOrder(step) && step.order.id == x
  }

  // No step between `j` and `n` is for order `x`.
  predicate LastFor(steps: Script, j: nat, n: nat, x: int)
    requires n <= |steps|
  {
    && j < n && OrderStep(steps[j], x)
    && forall i :: j < i < n ==> !OrderStep(steps[i], x)
  }

  // An order is as it was placed, on the day it was placed, with the status it was given last.
  lemma {:induction false} OrderTold(steps: Script, m: nat, j: nat, n: nat, order: Order)
    requires m <= j && PlayedTo(steps, n) && LastFor(steps, j, n, order.id) && steps[m] == AddOrder(order)
    ensures Lookup(BooksAt(steps, n).orders, Int(order.id)) ==
            Some(OrderRow(order.(status := steps[j].order.status, purchasedOn := DayAt(steps, m))))
  {
    PlayedBack(steps, n);
    if j < n - 1 {
      OrderTold(steps, m, j, n - 1, order);
      OrderStays(BooksAt(steps, n - 1), steps[n - 1], order.id);
    } else if m < j {
      var i := LastBefore(steps, m, j, order.id);
      OrderTold(steps, m, i, j, order);
      var before := order.(status := steps[i].order.status, purchasedOn := DayAt(steps, m));
      StatusChanges(BooksAt(steps, j), steps[j], before);
    } else {
      DayTold(steps, m);
      OrderPlaced(BooksAt(steps, m), order);
    }
  }

  lemma {:induction false} LastBefore(steps: Script, m: nat, n: nat, x: int) returns (i: nat)
    requires m < n <= |steps| && OrderStep(steps[m], x)
    ensures m <= i && LastFor(steps, i, n, x)
  {
    i := n - 1;
    if !OrderStep(steps[i], x) {
      i := LastBefore(steps, m, n - 1, x);
    }
  }

  lemma OrderStays(b: Books, step: Step, x: int)
    requires PlainStep(b, step).error.None? && !OrderStep(step, x)
    ensures Lookup(PlainStep(b, step).books.orders, Int(x)) == Lookup(b.orders, Int(x))
  {
  }

  lemma StatusChanges(b: Books, step: Step, order: Order)
    requires Lookup(b.orders, Int(order.id)) == Some(OrderRow(order))
    requires OrderStep(step, order.id) && PlainStep(b, step).error.None?
    ensures Lookup(PlainStep(b, step).books.orders, Int(order.id)) ==
            Some(OrderRow(order.(status := step.order.status)))
  {
    assert With(OrderRow(order), STATUS, StatusValue(step.order.status)) ==
           OrderRow(order.(status := step.order.status));
  }

  lemma OrderPlaced(b: Books, order: Order)
    requires PlainStep(b, AddOrder(order)).error.None?
    ensures Lookup(PlainStep(b, AddOrder(order)).books.orders, Int(order.id)) ==
            Some(OrderRow(order.(purchasedOn := b.day)))
  {
  }

  // ---- Sessions.

  // The session under this id, as it was last added or updated, unless it had expired when sessions were collected.
  function SessionAt(steps: Script, n: nat, id: int): Option<Session>
    requires n <= |steps|
  {
    if n == 0 then None
    else
      var s := SessionAt(steps, n - 1, id);
      match steps[n - 1]
      case AddSession(t) => if t.id == id then Some(t) else s
      case UpdateSession(t) => if t.id == id then Some(t) else s
      case CollectSessions => if s.Some? && s.value.expiresOn <= DayAt(steps, n - 1) then None else s
      case _ => s
  }

  // The session table holds exactly these sessions.
  lemma {:induction false} SessionsTold(steps: Script, n: nat, id: int)
    requires PlayedTo(steps, n)
    ensures var s := SessionAt(steps, n, id);
            Lookup(BooksAt(steps, n).sessions, Int(id)) == if s.None? then None else Some(SessionRow(s.value))
  {
    if n > 0 {
      PlayedBack(steps, n);
      SessionsTold(steps, n - 1, id);
      DayTold(steps, n - 1);
      SessionStep(BooksAt(steps, n - 1), steps[n - 1], id, SessionAt(steps, n - 1, id));
    }
  }

  lemma SessionStep(b: Books, step: Step, id: int, s: Option<Session>)
    requires PlainStep(b, step).error.None?
    requires Lookup(b.sessions, Int(id)) == if s.None? then None else Some(SessionRow(s.value))
    ensures var s' := match step
                      case AddSession(t) => if t.id == id then Some(t) else s
                      case UpdateSession(t) => if t.id == id then Some(t) else s
                      case CollectSessions => if s.Some? && s.value.expiresOn <= b.day then None else s
                      case _ => s;
            Lookup(PlainStep(b, step).books.sessions, Int(id)) == if s'.None? then None else Some(SessionRow(s'.value))
  {
  }

  // ---- What is in the tables, and when a step is refused.

  predicate AddsProduct(step: Step, x: int) {
    step.AddProduct? && step.product.id == x
  }

  predicate AddsRecord(step: Step, x: int) {
    step.AddInventoryRecord? && step.record.productId == x
  }

  predicate AddsCustomer(step: Step, x: int) {
    step.AddCustomer? && step.customer.id == x
  }

  predicate AddsOrder(step: Step, x: int) {
    step.AddOrder? && step.order.id == x
  }

  predicate ClaimsFor(step: Step, x: int) {
    Claims(step) && step.order.id == x
  }

  // What steps of the first `n` there are about product, customer or order `x`.
  datatype Traces = Traces(product: bool, record: bool, customer: bool, order: bool, claim: bool)

  function TracesOf(steps: Script, n: nat, x: int): Traces
    requires n <= |steps|
  {
    Traces(exists i :: 0 <= i < n && AddsProduct(steps[i], x), exists i :: 0 <= i < n && AddsRecord(steps[i], x),
           exists i :: 0 <= i < n && AddsCustomer(steps[i], x), exists i :: 0 <= i < n && AddsOrder(steps[i], x),
           exists i :: 0 <= i < n && ClaimsFor(steps[i], x))
  }

  function TracesIn(b: Books, x: int): Traces {
    Traces(Int(x) in b.products, Int(x) in b.inventory, Int(x) in b.customers, Int(x) in b.orders, x in b.updatedFrom)
  }

  lemma TraceStep(b: Books, step: Step, x: int)
    requires PlainStep(b, step).error.None?
    ensures var t := TracesIn(b, x);
            TracesIn(PlainStep(b, step).books, x) ==
            Traces(t.product || AddsProduct(step, x), t.record || AddsRecord(step, x),
                   t.customer || AddsCustomer(step, x), t.order || AddsOrder(step, x), t.claim || ClaimsFor(step, x))
  {
    if IsOrder(step) {
      OrderTrace(b, step, x);
    } else if step.AddStock? {
      StockTrace(b, step.productId, step.batchSize, x);
    } else {
      OtherTrace(b, step, x);
    }
  }

  lemma OtherTrace(b: Books, step: Step, x: int)
    requires !IsOrder(step) && !step.AddStock? && PlainStep(b, step).error.None?
    ensures var t := TracesIn(b, x);
            TracesIn(PlainStep(b, step).books, x) ==
            t.(product := t.product || AddsProduct(step, x), record := t.record || AddsRecord(step, x),
               customer := t.customer || AddsCustomer(step, x))
  {
    match step
    case AddProduct(p) => ProductTrace(b, p, x);
    case ViewProduct(p) => ViewTrace(b, p, x);
    case AddInventoryRecord(r) => RecordTrace(b, r, x);
    case AddCustomer(c) => CustomerTrace(b, c, x);
    case _ =>
  }

  lemma RecordTrace(b: Books, r: InventoryRecord, x: int)
    requires PlainStep(b, AddInventoryRecord(r)).error.None?
    ensures TracesIn(PlainStep(b, AddInventoryRecord(r)).books, x) ==
            TracesIn(b, x).(record := Int(x) in b.inventory || r.productId == x)
  {
  }

  lemma CustomerTrace(b: Books, c: Customer, x: int)
    requires PlainStep(b, AddCustomer(c)).error.None?
    ensures TracesIn(PlainStep(b, AddCustomer(c)).books, x) ==
            TracesIn(b, x).(customer := Int(x) in b.customers || c.id == x)
  {
  }

  lemma ProductTrace(b: Books, p: Product, x: int)
    requires PlainStep(b, AddProduct(p)).error.None?
    ensures TracesIn(PlainStep(b, AddProduct(p)).books, x) ==
            TracesIn(b, x).(product := Int(x) in b.products || p.id == x)
  {
  }

  lemma ViewTrace(b: Books, p: int, x: int)
    ensures TracesIn(PlainStep(b, ViewProduct(p)).books, x) == TracesIn(b, x)
  {
  }

  lemma StockTrace(b: Books, p: int, n: int, x: int)
    requires MoveStock(b, p, n).error.None?
    ensures TracesIn(MoveStock(b, p, n).books, x) == TracesIn(b, x)
  {
  }

  lemma OrderTrace(b: Books, step: Step, x: int)
    requires IsOrder(step) && PlainStep(b, step).error.None?
    ensures var t := TracesIn(b, x);
            TracesIn(PlainStep(b, step).books, x) ==
            t.(order := t.order || AddsOrder(step, x), claim := t.claim || ClaimsFor(step, x))
  {
    ClaimTrace(b, step.order, x);
  }

  lemma ClaimTrace(b: Books, o: Order, x: int)
    requires TakeStock(b, o).error.None?
    ensures var t := TracesIn(b, x);
            TracesIn(TakeStock(b, o).books, x) ==
            t.(claim := t.claim || ((o.status == New || o.status == Pending) && o.id == x))
  {
  }

  lemma MoreTraces(steps: Script, n: nat, x: int)
    requires n < |steps|
    ensures var t, step := TracesOf(steps, n, x), steps[n];
            TracesOf(steps, n + 1, x) ==
            Traces(t.product || AddsProduct(step, x), t.record || AddsRecord(step, x),
                   t.customer || AddsCustomer(step, x), t.order || AddsOrder(step, x), t.claim || ClaimsFor(step, x))
  {
  }

  // The tables have what was added, and the memory of orders those that took stock.
  lemma {:induction false} TracesTold(steps: Script, n: nat, x: int)
    requires PlayedTo(steps, n)
    ensures TracesIn(BooksAt(steps, n), x) == TracesOf(steps, n, x)
  {
    if n > 0 {
      PlayedBack(steps, n);
      TracesTold(steps, n - 1, x);
      TraceStep(BooksAt(steps, n - 1), steps[n - 1], x);
      MoreTraces(steps, n - 1, x);
    }
  }

  // The stock of product `p`, told from the script.
  function StockAt(steps: Script, n: nat, p: int): int
    requires n <= |steps|
  {
    TotalTo(steps, n, Brought(p)) - TakenTo(steps, n, p)
  }

  // A check passes exactly when the product is in the inventory and its stock is what was brought minus what was taken.
  lemma CheckExact(steps: Script, n: nat, p: int, stock: int)
    requires PlayedTo(steps, n)
    ensures PlainStep(BooksAt(steps, n), CheckInventory(p, stock)).error.None? <==>
            TracesOf(steps, n, p).record && stock == StockAt(steps, n, p)
  {
    StockConserved(steps, n, p);
    TracesTold(steps, n, p);
  }

  // Stock can be brought exactly for a product with a record, and taken away exactly as far as there is enough.
  lemma StockExact(steps: Script, n: nat, p: int, quantity: int)
    requires PlayedTo(steps, n)
    ensures PlainStep(BooksAt(steps, n), AddStock(p, quantity)).error.None? <==>
            TracesOf(steps, n, p).record && StockAt(steps, n, p) + quantity >= 0
  {
    StockConserved(steps, n, p);
    TracesTold(steps, n, p);
  }

  // An order step may claim stock: not for an order that has done so before, and not more than there is.
  predicate MayClaim(steps: Script, n: nat, o: Order)
    requires n <= |steps|
  {
    o.status == New || o.status == Pending ==>
      !TracesOf(steps, n, o.id).claim && TracesOf(steps, n, o.productId).record
      && StockAt(steps, n, o.productId) >= o.quantity
  }

  lemma ClaimExact(steps: Script, n: nat, o: Order)
    requires PlayedTo(steps, n)
    ensures TakeStock(BooksAt(steps, n), o).error.None? <==> MayClaim(steps, n, o)
  {
    StockConserved(steps, n, o.productId);
    TracesTold(steps, n, o.productId);
    TracesTold(steps, n, o.id);
  }

  // An order is accepted exactly when it is new, its customer and product were added, and it may claim its stock.
  lemma OrderExact(steps: Script, n: nat, o: Order)
    requires PlayedTo(steps, n)
    ensures PlainStep(BooksAt(steps, n), AddOrder(o)).error.None? <==>
            && MayClaim(steps, n, o) && !TracesOf(steps, n, o.id).order
            && TracesOf(steps, n, o.customerId).customer && TracesOf(steps, n, o.productId).product
    ensures PlainStep(BooksAt(steps, n), UpdateOrder(o)).error.None? <==>
            MayClaim(steps, n, o) && TracesOf(steps, n, o.id).order
  {
    ClaimExact(steps, n, o);
    TracesTold(steps, n, o.id);
    TracesTold(steps, n, o.customerId);
    TracesTold(steps, n, o.productId);
    TakingLeaves(BooksAt(steps, n), o);
  }

  lemma TakingLeaves(b: Books, o: Order)
    ensures var b' := TakeStock(b, o).books;
            b'.orders == b.orders && b'.customers == b.customers && b'.products == b.products
  {
  }
}
