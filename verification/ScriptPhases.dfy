/** The phases of a simulated day, as they change the writer's desk: what each may submit, and why it keeps the desk in
    order. */
module ScriptPhases {
  import opened Records
  import opened Company
  import opened Scripting
  import opened Queues
  import opened ScriptDesk

  // ---- Steps that concern neither orders nor stock.

  lemma SubmitPlain(d: Desk, day: int, step: Step)
    requires !IsOrder(step)
    ensures Submit(d, day, [step]) == Some(d.(steps := d.steps + [step]))
  {
    var f := DraftOf(d).(steps := d.steps + [step]);
    assert [step][1..] == [];
    assert WriteAll(DraftOf(d), day, [step]) == WriteAll(f, day, []) == Some(f);
  }

  lemma {:induction false} TodoConcat(a: Script, b: Script, status: OrderStatus, x: int)
    ensures Todo(a + b, status, x) == Todo(a, status, x) + Todo(b, status, x)
    decreases |a|
  {
    if a == [] {
      assert a + b == b;
    } else {
      assert (a + b)[1..] == a[1..] + b;
      TodoConcat(a[1..], b, status, x);
    }
  }

  lemma {:induction false} AheadConcat(a: Script, b: Script, p: int)
    ensures Ahead(a + b, p) == Ahead(a, p) + Ahead(b, p)
    decreases |a|
  {
    if a == [] {
      assert a + b == b;
    } else {
      assert (a + b)[1..] == a[1..] + b;
      AheadConcat(a[1..], b, p);
    }
  }

  // The balance after a step that is not for an order.
  lemma PlainBalance(d: Desk, low: int, hor: nat, step: Step, x: int)
    requires QueuesOk(d, low, hor) && BalancedFor(d, [], [], hor, x) && !IsOrder(step)
    ensures BalancedFor(d.(steps := d.steps + [step]), [], [], hor, x)
  {
    StepAdded(DraftOf(d), 0, step, x);
    QueuesGrow(d, low, hor, d.steps + [step]);
  }

  // A step outside orders and stock that succeeds leaves the desk in order.
  lemma PlainKeeps(d: Desk, low: int, hor: nat, step: Step)
    requires DeskOk(d, low, [], [], hor) && !IsOrder(step)
    requires var b := Play(Empty(), d.steps).books;
             var r := PlainStep(b, step);
             r.error.None? && r.books.inventory == b.inventory && forall k :: k in b.products ==> k in r.books.products
    ensures DeskOk(d.(steps := d.steps + [step]), low, [], [], hor)
  {
    var b := Play(Empty(), d.steps).books;
    var d' := d.(steps := d.steps + [step]);
    var b' := PlainStep(b, step).books;
    PlayOne(d.steps, step);
    QueuesGrow(d, low, hor, d'.steps);
    forall p | 0 <= p < |d.inventory| ensures RecordInSync(b', d.inventory, Ahead([], p), p) {
      assert RecordInSync(b, d.inventory, Ahead([], p), p);
    }
    forall x ensures KnownInSync(b', KnownOf(d'.steps), x) {
      KnownIsRecorded(d'.steps, x);
    }
    forall x ensures BalancedFor(d', [], [], hor, x) {
      assert BalancedFor(d, [], [], hor, x);
      PlainBalance(d, low, hor, step, x);
    }
  }

  // ---- Submissions that neither bring stock nor take an order out of a queue: purchases and returns.

  predicate Ordinary(step: Step) {
    !step.AddStock? && (IsOrder(step) ==> step.order.status == New || step.order.status == Refunded)
  }

  lemma {:induction false} OrdinaryTodo(todo: Script, x: int)
    requires forall i :: 0 <= i < |todo| ==> Ordinary(todo[i])
    ensures Todo(todo, Recheck, x) == 0 && Todo(todo, Shipped, x) == 0 && Ahead(todo, x) == 0
    decreases |todo|
  {
    if todo != [] {
      OrdinaryTodo(todo[1..], x);
    }
  }

  lemma OrdinaryReady(d: Desk, low: int, hor: nat, todo: Script)
    requires DeskOk(d, low, [], [], hor) && forall i :: 0 <= i < |todo| ==> Ordinary(todo[i])
    ensures DeskOk(d, low, todo, [], hor) && StockFirst(todo)
  {
    var b := Play(Empty(), d.steps).books;
    forall p | 0 <= p < |d.inventory| ensures RecordInSync(b, d.inventory, Ahead(todo, p), p) {
      OrdinaryTodo(todo, p);
      assert RecordInSync(b, d.inventory, Ahead([], p), p);
    }
    forall x ensures BalancedFor(d, todo, [], hor, x) {
      OrdinaryTodo(todo, x);
      assert BalancedFor(d, [], [], hor, x);
    }
  }

  // ---- Where the orders in the pending queue come from.

  // An order that has taken stock has been placed.
  lemma ReservedIsPlaced(d: Desk, low: int, todo: Script, rest: Script, hor: nat, i: nat)
    requires DeskOk(d, low, todo, rest, hor) && Awaiting(d.steps, i)
    ensures d.steps[i].order.id in KnownOf(d.steps).placed && d.steps[i].order.quantity >= 0
  {
    var x := d.steps[i].order.id;
    CountPositive(d.steps, |d.steps|, Reservations, x);
    assert One(d.steps[i], Reservations, x) == 1 && CleanStep(d.steps[i]);
    assert BalancedFor(d, todo, rest, hor, x);
    KnownIsRecorded(d.steps, x);
  }

  // ---- Fulfilling pending orders.

  function ShipmentOf(steps: Script, i: nat): Step {
    UpdateOrder(if i < |steps| && IsOrder(steps[i]) then steps[i].order.(status := Shipped)
                else Order(0, 0, 0, 0, Shipped, 0))
  }

  function ShipmentsOf(steps: Script, queue: seq<nat>): Script {
    seq(|queue|, j requires 0 <= j < |queue| => ShipmentOf(steps, queue[j]))
  }

  lemma {:induction false} ShipmentsCount(steps: Script, queue: seq<nat>, n: nat, x: int)
    requires n <= |queue| && DayOk(steps, queue)
    ensures Todo(ShipmentsOf(steps, queue)[..n], Shipped, x) == InQueueTo(steps, queue, n, x)
    ensures Todo(ShipmentsOf(steps, queue)[..n], Recheck, x) == 0 && Ahead(ShipmentsOf(steps, queue)[..n], x) == 0
  {
    var all := ShipmentsOf(steps, queue);
    if n == 0 {
      assert all[..0] == [];
    } else {
      ShipmentsCount(steps, queue, n - 1, x);
      assert all[..n] == all[..n - 1] + [all[n - 1]] && [all[n - 1]][1..] == [];
      TodoConcat(all[..n - 1], [all[n - 1]], Shipped, x);
      TodoConcat(all[..n - 1], [all[n - 1]], Recheck, x);
      AheadConcat(all[..n - 1], [all[n - 1]], x);
      assert Awaiting(steps, queue[n - 1]);
    }
  }

  // The day's queue is taken out; its orders are to be shipped, and nothing stays due up to this day.
  lemma DayTaken(d: Desk, day: nat, hor: nat)
    requires DeskOk(d, day - 1, [], [], hor) && day < hor
    ensures var queue := QueueOn(d.pending, day);
            DayOk(d.steps, queue) && DeskOk(d.(pending := d.pending - {day}), day, [], ShipmentsOf(d.steps, queue), hor)
  {
    var queue := QueueOn(d.pending, day);
    var all := ShipmentsOf(d.steps, queue);
    var d' := d.(pending := d.pending - {day});
    assert all[..|all|] == all;
    assert DueOk(d.steps, d.pending, day, day - 1, hor);
    forall due ensures DueOk(d'.steps, d'.pending, due, day, hor) {
      assert DueOk(d.steps, d.pending, due, day - 1, hor);
    }
    forall x ensures BalancedFor(d', [], all, hor, x) {
      assert BalancedFor(d, [], [], hor, x);
      WaitingRemove(d.steps, d.pending, day, hor, x);
      ShipmentsCount(d.steps, queue, |queue|, x);
    }
  }

  predicate AllShipments(todo: Script, k: Known) {
    forall i :: 0 <= i < |todo| ==>
      && todo[i].UpdateOrder? && todo[i].order.status == Shipped
      && todo[i].order.id in k.placed && todo[i].order.quantity >= 0
  }

  lemma {:induction false} ShipmentsFine(todo: Script, k: Known, products: nat)
    requires AllShipments(todo, k)
    ensures Fine(todo, k, products) && StockFirst(todo) && forall p :: Ahead(todo, p) == 0
    decreases |todo|
  {
    if todo != [] {
      ShipmentsFine(todo[1..], k, products);
    }
  }

  // The next chunk of what is still to be shipped may be submitted.
  lemma ChunkReady(d: Desk, low: int, hor: nat, chunk: Script, rest: Script)
    requires DeskOk(d, low, [], chunk + rest, hor) && AllShipments(chunk, KnownOf(d.steps))
    ensures DeskOk(d, low, chunk, rest, hor) && Fine(chunk, KnownOf(d.steps), |d.inventory|) && StockFirst(chunk)
  {
    ShipmentsFine(chunk, KnownOf(d.steps), |d.inventory|);
    var b := Play(Empty(), d.steps).books;
    forall p | 0 <= p < |d.inventory| ensures RecordInSync(b, d.inventory, Ahead(chunk, p), p) {
      assert RecordInSync(b, d.inventory, Ahead([], p), p);
    }
    forall x ensures BalancedFor(d, chunk, rest, hor, x) {
      assert BalancedFor(d, [], chunk + rest, hor, x);
      TodoConcat(chunk, rest, Recheck, x);
      TodoConcat(chunk, rest, Shipped, x);
    }
  }

  // ---- Replenishing.

  // A delivery enters the books before its step is submitted.
  lemma ArrivalKeeps(d: Desk, low: int, hor: nat, todo: Script, p: nat, n: int)
    requires DeskOk(d, low, todo, [], hor) && p < |d.inventory|
    ensures var r := d.inventory[p];
            DeskOk(d.(inventory := d.inventory[p := r.(stock := r.stock + n)]), low, todo + [AddStock(p, n)], [], hor)
  {
    var r := d.inventory[p];
    var d' := d.(inventory := d.inventory[p := r.(stock := r.stock + n)]);
    var todo' := todo + [AddStock(p, n)];
    var b := Play(Empty(), d.steps).books;
    assert [AddStock(p, n)][1..] == [];
    forall q | 0 <= q < |d'.inventory| ensures RecordInSync(b, d'.inventory, Ahead(todo', q), q) {
      assert RecordInSync(b, d.inventory, Ahead(todo, q), q);
      AheadConcat(todo, [AddStock(p, n)], q);
    }
    forall x ensures BalancedFor(d', todo', [], hor, x) {
      assert BalancedFor(d, todo, [], hor, x);
      TodoConcat(todo, [AddStock(p, n)], Recheck, x);
      TodoConcat(todo, [AddStock(p, n)], Shipped, x);
    }
  }

  function RecheckOf(steps: Script, i: nat): Step {
    UpdateOrder(if i < |steps| && IsOrder(steps[i]) then steps[i].order.(status := Recheck)
                else Order(0, 0, 0, 0, Recheck, 0))
  }

  // The first backorder of a product is taken out of its queue, to be submitted again.
  lemma PopKeeps(d: Desk, low: int, hor: nat, todo: Script, p: nat)
    requires DeskOk(d, low, todo, [], hor) && p < |d.backorders| && d.backorders[p] != []
    ensures var i := d.backorders[p][0];
            && Backorder(d.steps, p, i) && d.steps[i].order.quantity >= 0
            && DeskOk(d.(backorders := d.backorders[p := d.backorders[p][1..]]), low,
                      todo + [RecheckOf(d.steps, i)], [], hor)
  {
    var i := d.backorders[p][0];
    assert QueueOk(d.steps, p, d.backorders[p]);
    assert CleanStep(d.steps[i]);
    var step := RecheckOf(d.steps, i);
    var d' := d.(backorders := d.backorders[p := d.backorders[p][1..]]);
    var todo' := todo + [step];
    var b := Play(Empty(), d.steps).books;
    assert [step][1..] == [];
    forall q | 0 <= q < |d'.inventory| ensures RecordInSync(b, d'.inventory, Ahead(todo', q), q) {
      assert RecordInSync(b, d.inventory, Ahead(todo, q), q);
      AheadConcat(todo, [step], q);
    }
    forall q | 0 <= q < |d'.backorders| ensures QueueOk(d'.steps, q, d'.backorders[q]) {
      assert QueueOk(d.steps, q, d.backorders[q]);
    }
    forall x ensures BalancedFor(d', todo', [], hor, x) {
      assert BalancedFor(d, todo, [], hor, x);
      TodoConcat(todo, [step], Recheck, x);
      TodoConcat(todo, [step], Shipped, x);
      QueuedChange(d.steps, d.backorders, p, d.backorders[p][1..], |d.backorders|, x);
      HeadCount(d.steps, d.backorders[p], x);
    }
  }

  lemma HeadCount(steps: Script, queue: seq<nat>, x: int)
    requires queue != []
    ensures InQueue(steps, queue, x) == InQueue(steps, queue[1..], x) + if IsAt(steps, queue[0], x) then 1 else 0
  {
    assert queue == [queue[0]] + queue[1..];
    InQueueConcat(steps, [queue[0]], queue[1..], x);
    assert InQueueTo(steps, [queue[0]], 1, x) ==
           InQueueTo(steps, [queue[0]], 0, x) + if IsAt(steps, queue[0], x) then 1 else 0;
  }

  predicate RestockStep(step: Step, products: nat) {
    match step
    case AddStock(p, n) => 0 <= p < products && n >= 0
    case UpdateOrder(o) => o.status == Recheck && 0 <= o.productId < products && o.quantity >= 0
    case _ => false
  }

  lemma {:induction false} RestockFine(todo: Script, k: Known, products: nat)
    requires forall i :: 0 <= i < |todo| ==> RestockStep(todo[i], products)
    requires forall x :: Todo(todo, Recheck, x) <= 1 && (Todo(todo, Recheck, x) == 1 ==> x in k.placed && x !in k.taken)
    ensures Fine(todo, k, products)
    decreases |todo|
  {
    if todo != [] {
      if todo[0].UpdateOrder? {
        assert Todo(todo, Recheck, todo[0].order.id) == 1 + Todo(todo[1..], Recheck, todo[0].order.id);
      }
      forall x ensures Todo(todo[1..], Recheck, x) <= Todo(todo, Recheck, x) {
      }
      RestockFine(todo[1..], Learn(k, todo[0]), products);
    }
  }

  // Deliveries and rechecks may be submitted: each order is rechecked once, and has not taken stock before.
  lemma RestockReady(d: Desk, low: int, hor: nat, todo: Script)
    requires DeskOk(d, low, todo, [], hor) && forall i :: 0 <= i < |todo| ==> RestockStep(todo[i], |d.inventory|)
    ensures Fine(todo, KnownOf(d.steps), |d.inventory|)
  {
    forall x
      ensures Todo(todo, Recheck, x) <= 1
      ensures Todo(todo, Recheck, x) == 1 ==> x in KnownOf(d.steps).placed && x !in KnownOf(d.steps).taken
    {
      assert BalancedFor(d, todo, [], hor, x);
      KnownIsRecorded(d.steps, x);
    }
    RestockFine(todo, KnownOf(d.steps), |d.inventory|);
  }

  // ---- Submissions that are written as they are.

  predicate WrittenAsIs(step: Step) {
    IsOrder(step) ==> step.order.status != New && step.order.status != Recheck
  }

  lemma {:induction false} WriteAsIs(d: Draft, day: int, todo: Script)
    requires forall i :: 0 <= i < |todo| ==> WrittenAsIs(todo[i])
    ensures WriteAll(d, day, todo) == Some(d.(steps := d.steps + todo))
    decreases |todo|
  {
    if todo == [] {
      assert d.steps + todo == d.steps;
    } else {
      var d1 := d.(steps := d.steps + [todo[0]]);
      assert Write(d, day, todo[0]) == Some(d1);
      WriteAsIs(d1, day, todo[1..]);
      assert d1.steps + todo[1..] == d.steps + todo;
    }
  }

  lemma SubmitAsIs(d: Desk, day: int, todo: Script)
    requires forall i :: 0 <= i < |todo| ==> WrittenAsIs(todo[i])
    ensures Submit(d, day, todo) == Some(d.(steps := d.steps + todo))
  {
    WriteAsIs(DraftOf(d), day, todo);
  }

  // A longer script has the same shipments at the same positions.
  lemma ShipmentsGrow(steps: Script, more: Script, queue: seq<nat>)
    requires DayOk(steps, queue)
    ensures ShipmentsOf(steps + more, queue) == ShipmentsOf(steps, queue) && DayOk(steps + more, queue)
  {
    forall j | 0 <= j < |queue| ensures ShipmentOf(steps + more, queue[j]) == ShipmentOf(steps, queue[j]) {
      assert Awaiting(steps, queue[j]);
    }
  }

  // A chunk of a queue, looked up in a longer script.
  lemma ShipmentsSlice(steps: Script, more: Script, queue: seq<nat>, from: nat, to: nat)
    requires DayOk(steps, queue) && from <= to <= |queue|
    ensures DayOk(steps + more, queue[from..to])
    ensures ShipmentsOf(steps + more, queue[from..to]) == ShipmentsOf(steps, queue)[from..to]
  {
    assert DayOk(steps, queue[from..to]);
    ShipmentsGrow(steps, more, queue[from..to]);
  }

  // The shipments of waiting orders are for orders that have been placed.
  lemma ShipmentsPlaced(d: Desk, low: int, rest: Script, hor: nat, queue: seq<nat>)
    requires DeskOk(d, low, [], rest, hor) && DayOk(d.steps, queue)
    ensures AllShipments(ShipmentsOf(d.steps, queue), KnownOf(d.steps))
  {
    forall j | 0 <= j < |queue|
      ensures ShipmentOf(d.steps, queue[j]).order.id in KnownOf(d.steps).placed
      ensures ShipmentOf(d.steps, queue[j]).order.quantity >= 0
    {
      ReservedIsPlaced(d, low, [], rest, hor, queue[j]);
    }
  }

  // Checks against the stock on hand pass.
  lemma CheckPasses(d: Desk, low: int, hor: nat, p: nat)
    requires DeskOk(d, low, [], [], hor) && p < |d.inventory|
    ensures DeskOk(d.(steps := d.steps + [CheckInventory(p, d.inventory[p].stock)]), low, [], [], hor)
  {
    assert RecordInSync(Play(Empty(), d.steps).books, d.inventory, Ahead([], p), p);
    PlainKeeps(d, low, hor, CheckInventory(p, d.inventory[p].stock));
  }

  function ChecksOf(inventory: seq<InventoryRecord>): Script {
    seq(|inventory|, p requires 0 <= p < |inventory| => CheckInventory(inventory[p].productId, inventory[p].stock))
  }

  lemma {:induction false} ChecksPass(d: Desk, low: int, hor: nat, n: nat)
    requires DeskOk(d, low, [], [], hor) && n <= |d.inventory|
    ensures DeskOk(d.(steps := d.steps + ChecksOf(d.inventory)[..n]), low, [], [], hor)
    ensures var b, b' := Play(Empty(), d.steps).books, Play(Empty(), d.steps + ChecksOf(d.inventory)[..n]).books;
            b'.sessions == b.sessions && b'.customers == b.customers && b'.day == b.day && b'.checks == b.checks + n
  {
    var all := ChecksOf(d.inventory);
    if n == 0 {
      assert d.steps + all[..0] == d.steps;
    } else {
      ChecksPass(d, low, hor, n - 1);
      var d1 := d.(steps := d.steps + all[..n - 1]);
      assert RecordInSync(Play(Empty(), d1.steps).books, d.inventory, Ahead([], n - 1), n - 1);
      CheckPasses(d1, low, hor, n - 1);
      PlayOne(d1.steps, all[n - 1]);
      assert d1.steps + [all[n - 1]] == d.steps + all[..n];
    }
  }

  // ---- What the writer knows, phase by phase.

  predicate SameKnown(steps: Script, steps': Script) {
    KnownOf(steps).placed == KnownOf(steps').placed && KnownOf(steps).customers == KnownOf(steps').customers
  }

  predicate AddsNobody(todo: Script) {
    forall i :: 0 <= i < |todo| ==> !todo[i].AddOrder? && !todo[i].AddCustomer?
  }

  lemma KnownStays(steps: Script, more: Script)
    requires AddsNobody(more)
    ensures SameKnown(steps, steps + more)
  {
    var all := steps + more;
    forall i | 0 <= i < |all| ensures all[i] == if i < |steps| then steps[i] else more[i - |steps|] {
    }
    forall i | 0 <= i < |steps| ensures all[i] == steps[i] {
    }
  }

  lemma CustomerLearned(steps: Script, c: Customer)
    ensures KnownOf(steps + [AddCustomer(c)]).customers == KnownOf(steps).customers + {c.id}
    ensures KnownOf(steps + [AddCustomer(c)]).placed == KnownOf(steps).placed
  {
    var all := steps + [AddCustomer(c)];
    assert all[|steps|] == AddCustomer(c);
    forall i | 0 <= i < |steps| ensures all[i] == steps[i] {
    }
    var a, b := KnownOf(all), KnownOf(steps);
    forall x ensures x in a.customers <==> x in b.customers + {c.id} {
      if x in b.customers {
        var i :| 0 <= i < |steps| && steps[i].AddCustomer? && steps[i].customer.id == x;
        assert all[i].AddCustomer?;
      }
    }
    forall x ensures x in a.placed <==> x in b.placed {
      if x in b.placed {
        var i :| 0 <= i < |steps| && steps[i].AddOrder? && steps[i].order.id == x;
        assert all[i].AddOrder?;
      }
    }
  }

  lemma {:induction false} LearnsNoOrder(k: Known, todo: Script)
    requires AddsNobody(todo)
    ensures LearnAll(k, todo).placed == k.placed
    decreases |todo|
  {
    if todo != [] {
      LearnsNoOrder(Learn(k, todo[0]), todo[1..]);
    }
  }

  // Knowing less about who has taken stock only makes more submissions fine.
  lemma {:induction false} FineAnyway(todo: Script, k: Known, k': Known, products: nat)
    requires Fine(todo, k, products) && k'.placed == k.placed && k'.customers == k.customers && k'.taken <= k.taken
    ensures Fine(todo, k', products) && LearnAll(k', todo).placed == LearnAll(k, todo).placed
    decreases |todo|
  {
    if todo != [] {
      FineAnyway(todo[1..], Learn(k, todo[0]), Learn(k', todo[0]), products);
    }
  }

  // Only placed orders have taken stock.
  lemma TakenIsPlaced(d: Desk, low: int, hor: nat)
    requires DeskOk(d, low, [], [], hor)
    ensures KnownOf(d.steps).taken <= KnownOf(d.steps).placed
  {
    forall x | x in KnownOf(d.steps).taken ensures x in KnownOf(d.steps).placed {
      KnownIsRecorded(d.steps, x);
      assert BalancedFor(d, [], [], hor, x);
    }
  }

  // Batches of purchases, one after the other.
  predicate FineAll(batches: seq<Script>, k: Known, products: nat)
    decreases |batches|
  {
    batches == [] ||
    (Fine(batches[0], k, products) && (forall i :: 0 <= i < |batches[0]| ==> Ordinary(batches[0][i])) &&
     FineAll(batches[1..], LearnAll(k, batches[0]), products))
  }

  function LearnBatches(k: Known, batches: seq<Script>): Known
    decreases |batches|
  {
    if batches == [] then k else LearnBatches(LearnAll(k, batches[0]), batches[1..])
  }

  // ---- The beginning.

  lemma EmptyDesk(hor: nat)
    ensures DeskOk(Desk([], [], [], map[]), 0, [], [], hor)
    ensures KnownOf([]) == Known({}, {}, {})
  {
    var d := Desk([], [], [], map[]);
    forall x ensures BalancedFor(d, [], [], hor, x) && KnownInSync(Empty(), KnownOf([]), x) {
      EmptyWaits(hor, x);
    }
  }

  lemma {:induction false} EmptyWaits(n: nat, x: int)
    ensures WaitingTo([], map[], n, x) == 0
  {
    if n > 0 {
      EmptyWaits(n - 1, x);
    }
  }

  // Products are numbered in the order in which they are added.
  ghost predicate NoProductsFrom(b: Books, n: nat) {
    forall x :: x >= n ==> Int(x) !in b.products && Int(x) !in b.inventory
  }

  // A product enters the desk together with its inventory record and an empty backorder queue.
  lemma ProductKeeps(d: Desk, low: int, hor: nat, product: Product, record: InventoryRecord)
    requires DeskOk(d, low, [], [], hor) && NoProductsFrom(Play(Empty(), d.steps).books, |d.inventory|)
    requires product.id == record.productId == |d.inventory| && record.stock >= 0
    requires 0 <= record.handlingDays <= MAX_HANDLING
    ensures var steps := d.steps + [AddProduct(product)] + [AddInventoryRecord(record)];
            && DeskOk(Desk(steps, d.inventory + [record], d.backorders + [[]], d.pending), low, [], [], hor)
            && NoProductsFrom(Play(Empty(), steps).books, |d.inventory| + 1)
            && Play(Empty(), steps).books.day == Play(Empty(), d.steps).books.day
            && Play(Empty(), steps).books.sessions == Play(Empty(), d.steps).books.sessions
            && Play(Empty(), steps).books.customers == Play(Empty(), d.steps).books.customers
            && SameKnown(d.steps, steps)
  {
    var b := Play(Empty(), d.steps).books;
    assert Int(product.id) !in b.products && Int(product.id) !in b.inventory;
    PlainKeeps(d, low, hor, AddProduct(product));
    PlayOne(d.steps, AddProduct(product));
    KnownStays(d.steps, [AddProduct(product)]);
    var d1 := d.(steps := d.steps + [AddProduct(product)]);
    RecordKeeps(d1, low, hor, record);
    PlayOne(d1.steps, AddInventoryRecord(record));
    KnownStays(d1.steps, [AddInventoryRecord(record)]);
  }

  lemma RecordKeeps(d: Desk, low: int, hor: nat, record: InventoryRecord)
    requires DeskOk(d, low, [], [], hor) && record.productId == |d.inventory|
    requires Int(record.productId) !in Play(Empty(), d.steps).books.inventory
    requires Int(record.productId) in Play(Empty(), d.steps).books.products
    requires 0 <= record.handlingDays <= MAX_HANDLING && record.stock >= 0
    ensures DeskOk(Desk(d.steps + [AddInventoryRecord(record)], d.inventory + [record], d.backorders + [[]], d.pending),
                   low, [], [], hor)
  {
    var step := AddInventoryRecord(record);
    var b := Play(Empty(), d.steps).books;
    var d' := Desk(d.steps + [step], d.inventory + [record], d.backorders + [[]], d.pending);
    PlayOne(d.steps, step);
    var b' := PlainStep(b, step).books;
    QueuesGrow(d, low, hor, d'.steps);
    forall p | 0 <= p < |d'.inventory| ensures RecordInSync(b', d'.inventory, Ahead([], p), p) {
      if p < |d.inventory| {
        assert RecordInSync(b, d.inventory, Ahead([], p), p);
      }
    }
    forall x ensures KnownInSync(b', KnownOf(d'.steps), x) {
      KnownIsRecorded(d'.steps, x);
    }
    forall x ensures BalancedFor(d', [], [], hor, x) {
      assert BalancedFor(d, [], [], hor, x);
      RecordBalance(d, low, hor, record, x);
    }
  }

  lemma RecordBalance(d: Desk, low: int, hor: nat, record: InventoryRecord, x: int)
    requires QueuesOk(d, low, hor) && BalancedFor(d, [], [], hor, x)
    ensures BalancedFor(Desk(d.steps + [AddInventoryRecord(record)], d.inventory + [record], d.backorders + [[]],
                             d.pending), [], [], hor, x)
  {
    var step := AddInventoryRecord(record);
    PlainBalance(d, low, hor, step, x);
    QueuedPrefix(d.steps + [step], d.backorders, [[]], |d.backorders|, x);
    assert (d.backorders + [[]])[|d.backorders|] == [];
    assert InQueue(d.steps + [step], [], x) == 0;
  }

  lemma {:induction false} QueuedPrefix(steps: Script, backorders: seq<seq<nat>>, more: seq<seq<nat>>, n: nat, x: int)
    requires n <= |backorders|
    ensures QueuedTo(steps, backorders + more, n, x) == QueuedTo(steps, backorders, n, x)
  {
    if n > 0 {
      QueuedPrefix(steps, backorders, more, n - 1, x);
    }
  }
}
