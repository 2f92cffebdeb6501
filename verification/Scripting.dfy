/** How the script writer turns submitted steps into script steps: orders take stock or go into a queue, and the plain
    company that plays the script keeps the same stock.  The methods of class `ScriptWriter` are proved against these
    functions. */
module Scripting {
  import opened Records
  import opened Company

  // The longest handling time an inventory record is given.
  const MAX_HANDLING: nat := 255

  // What is still to be done for an order once its step has been written.
  datatype PostProc =
    | BackorderNew(productId: int) | BackorderAgain(productId: int)
    | Pend(day: int) | Shipping(order: Order) | Nothing

  datatype Processed = Processed(step: Step, post: PostProc, inventory: seq<InventoryRecord>) | Unprocessed

  predicate IsOrder(step: Step) {
    step.AddOrder? || step.UpdateOrder?
  }

  function WithOrder(step: Step, o: Order): Step
    requires IsOrder(step)
  {
    if step.AddOrder? then AddOrder(o) else UpdateOrder(o)
  }

  // `process_order`
  function ProcessOrder(inventory: seq<InventoryRecord>, day: int, step: Step): Processed {
    if !IsOrder(step) then Unprocessed
    else
      var o := step.order;
      if o.status != New && o.status != Recheck then Processed(step, Nothing, inventory)
      else if !(0 <= o.productId < |inventory|) then Unprocessed
      else
        var r := inventory[o.productId];
        if r.stock < o.quantity then
          Processed(WithOrder(step, o.(status := Backordered)),
                    if o.status == New then BackorderNew(o.productId) else BackorderAgain(o.productId), inventory)
        else
          Processed(WithOrder(step, o.(status := Pending)),
                    if r.handlingDays > 0 then Pend(day + r.handlingDays) else Shipping(o.(status := Shipped)),
                    inventory[o.productId := r.(stock := r.stock - o.quantity)])
  }

  // The script under construction: what a run of `add_steps` has written, and what it will file in the queues.
  datatype Draft = Draft(steps: Script, inventory: seq<InventoryRecord>, pending: seq<(int, nat)>,
                         again: seq<(int, nat)>, newly: seq<(int, nat)>)

  function Write(d: Draft, day: int, step: Step): Option<Draft> {
    if !IsOrder(step) then Some(d.(steps := d.steps + [step]))
    else
      match ProcessOrder(d.inventory, day, step)
      case Unprocessed => None
      case Processed(written, post, inventory) =>
        var i := |d.steps|;
        var d1 := d.(steps := d.steps + [written], inventory := inventory);
        match post
        case Pend(due) => Some(d1.(pending := d.pending + [(due, i)]))
        case BackorderNew(p) => Some(d1.(newly := d.newly + [(p, i)]))
        case BackorderAgain(p) => Some(d1.(again := d.again + [(p, i)]))
        case Shipping(o) => Some(d1.(steps := d1.steps + [UpdateOrder(o)]))
        case Nothing => Some(d1)
  }

  function WriteAll(d: Draft, day: int, todo: Script): Option<Draft>
    decreases |todo|
  {
    if todo == [] then Some(d)
    else
      var d1 := Write(d, day, todo[0]);
      if d1.None? then None else WriteAll(d1.value, day, todo[1..])
  }

  // ---- The writer and the plain company.

  // What the writer knows about the company that will play the script.  `taken` may hold more orders than have taken
  // stock.
  datatype Known = Known(placed: set<int>, taken: set<int>, customers: set<int>)

  // A step that may be submitted, with nothing else than orders in mind that have been placed.
  predicate FineStep(step: Step, k: Known, products: nat) {
    match step
    case AddOrder(o) =>
      && o.status == New && o.id !in k.placed && o.id !in k.taken && o.customerId in k.customers
      && 0 <= o.productId < products && o.quantity >= 0
    case UpdateOrder(o) =>
      && o.id in k.placed && o.quantity >= 0
      && ((o.status == Recheck && o.id !in k.taken && 0 <= o.productId < products)
          || o.status == Shipped || o.status == Refunded)
    case AddStock(p, n) => 0 <= p < products && n >= 0
    case ViewProduct(p) => 0 <= p < products
    case _ => false
  }

  function Learn(k: Known, step: Step): Known {
    match step
    case AddOrder(o) => k.(placed := k.placed + {o.id}, taken := k.taken + {o.id})
    case UpdateOrder(o) => if o.status == Recheck then k.(taken := k.taken + {o.id}) else k
    case _ => k
  }

  function LearnAll(k: Known, todo: Script): Known
    decreases |todo|
  {
    if todo == [] then k else LearnAll(Learn(k, todo[0]), todo[1..])
  }

  predicate Fine(todo: Script, k: Known, products: nat)
    decreases |todo|
  {
    todo == [] || (FineStep(todo[0], k, products) && Fine(todo[1..], Learn(k, todo[0]), products))
  }

  // Stock arrives before any order of the same submission.
  predicate StockFirst(todo: Script) {
    forall i, j :: 0 <= i < j < |todo| && todo[j].AddStock? ==> todo[i].AddStock?
  }

  // The stock of `p` that is in the writer's books already but still to be submitted.
  function Ahead(todo: Script, p: int): int
    decreases |todo|
  {
    if todo == [] then 0
    else (if todo[0].AddStock? && todo[0].productId == p then todo[0].batchSize else 0) + Ahead(todo[1..], p)
  }

  predicate RecordInSync(b: Books, inventory: seq<InventoryRecord>, ahead: int, p: nat)
    requires p < |inventory|
  {
    && Int(p) in b.inventory && |b.inventory[Int(p)]| == INVENTORY_WIDTH && Int(p) in b.products
    && IntAt(b.inventory[Int(p)], STOCK) == inventory[p].stock - ahead && inventory[p].stock - ahead >= 0
    && inventory[p].productId == p && 0 <= inventory[p].handlingDays <= MAX_HANDLING
  }

  predicate KnownInSync(b: Books, k: Known, x: int) {
    && (x in k.placed <==> Int(x) in b.orders) && (x in b.updatedFrom ==> x in k.taken)
    && (x in k.customers <==> Int(x) in b.customers)
  }

  // The company that has played the script so far keeps the writer's stock, never negative, and knows what the writer
  // thinks it knows.
  ghost predicate InSync(b: Books, inventory: seq<InventoryRecord>, todo: Script, k: Known) {
    && (forall p :: 0 <= p < |inventory| ==> RecordInSync(b, inventory, Ahead(todo, p), p))
    && (forall x :: KnownInSync(b, k, x))
  }

  lemma {:induction false} NoStockAhead(todo: Script, p: int)
    requires forall i :: 0 <= i < |todo| ==> !todo[i].AddStock?
    ensures Ahead(todo, p) == 0
    decreases |todo|
  {
    if todo != [] {
      NoStockAhead(todo[1..], p);
    }
  }

  lemma NoStockLeft(todo: Script, p: int)
    requires StockFirst(todo) && todo != [] && !todo[0].AddStock?
    ensures Ahead(todo, p) == 0
  {
    NoStockAhead(todo, p);
  }

  // Playing the step that was written for an order that takes stock.
  lemma TakesFromStock(b: Books, inventory: seq<InventoryRecord>, todo: Script, k: Known, step: Step)
    requires InSync(b, inventory, todo, k) && FineStep(step, k, |inventory|) && IsOrder(step)
    requires step.order.status == New || step.order.status == Recheck
    requires forall p :: Ahead(todo, p) == 0
    requires step.order.quantity <= inventory[step.order.productId].stock
    ensures var o := step.order;
            var r := inventory[o.productId];
            var played := PlainStep(b, WithOrder(step, o.(status := Pending)));
            && played.error.None?
            && InSync(played.books, inventory[o.productId := r.(stock := r.stock - o.quantity)], todo, Learn(k, step))
            && Int(o.id) in played.books.orders
  {
    var o := step.order;
    var r := inventory[o.productId];
    var inventory' := inventory[o.productId := r.(stock := r.stock - o.quantity)];
    assert RecordInSync(b, inventory, Ahead(todo, o.productId), o.productId) && KnownInSync(b, k, o.id);
    assert KnownInSync(b, k, o.customerId);
    var b' := PlainStep(b, WithOrder(step, o.(status := Pending))).books;
    forall p | 0 <= p < |inventory| ensures RecordInSync(b', inventory', Ahead(todo, p), p) {
      assert RecordInSync(b, inventory, Ahead(todo, p), p);
    }
    forall x ensures KnownInSync(b', Learn(k, step), x) {
      assert KnownInSync(b, k, x);
    }
  }

  // Playing a step that takes no stock: the order is recorded, or its status changes.
  lemma TakesNothing(b: Books, inventory: seq<InventoryRecord>, todo: Script, k: Known, step: Step, status: OrderStatus)
    requires InSync(b, inventory, todo, k) && FineStep(step, k, |inventory|) && IsOrder(step) && !TakesStock(status)
    ensures var played := PlainStep(b, WithOrder(step, step.order.(status := status)));
            played.error.None? && InSync(played.books, inventory, todo, Learn(k, step))
  {
    var o := step.order;
    assert KnownInSync(b, k, o.id) && KnownInSync(b, k, o.customerId);
    if step.AddOrder? {
      assert RecordInSync(b, inventory, Ahead(todo, o.productId), o.productId);
    }
    var b' := PlainStep(b, WithOrder(step, o.(status := status))).books;
    forall p | 0 <= p < |inventory| ensures RecordInSync(b', inventory, Ahead(todo, p), p) {
      assert RecordInSync(b, inventory, Ahead(todo, p), p);
    }
    forall x ensures KnownInSync(b', Learn(k, step), x) {
      assert KnownInSync(b, k, x);
    }
  }

  lemma StockArrives(b: Books, inventory: seq<InventoryRecord>, todo: Script, k: Known)
    requires todo != [] && InSync(b, inventory, todo, k) && FineStep(todo[0], k, |inventory|) && todo[0].AddStock?
    ensures var played := PlainStep(b, todo[0]);
            played.error.None? && InSync(played.books, inventory, todo[1..], k)
  {
    var i := todo[0].productId;
    assert RecordInSync(b, inventory, Ahead(todo, i), i);
    var b' := PlainStep(b, todo[0]).books;
    forall p | 0 <= p < |inventory| ensures RecordInSync(b', inventory, Ahead(todo[1..], p), p) {
      assert RecordInSync(b, inventory, Ahead(todo, p), p);
    }
    forall x ensures KnownInSync(b', k, x) {
      assert KnownInSync(b, k, x);
    }
  }

  lemma ProductViewed(b: Books, inventory: seq<InventoryRecord>, todo: Script, k: Known, p: int)
    requires InSync(b, inventory, todo, k)
    ensures var played := PlainStep(b, ViewProduct(p));
            played.error.None? && InSync(played.books, inventory, todo, k)
  {
    var b' := PlainStep(b, ViewProduct(p)).books;
    forall q | 0 <= q < |inventory| ensures RecordInSync(b', inventory, Ahead(todo, q), q) {
      assert RecordInSync(b, inventory, Ahead(todo, q), q);
    }
    forall x ensures KnownInSync(b', k, x) {
      assert KnownInSync(b, k, x);
    }
  }

  // Orders and stock leave the rest of the books alone.
  predicate SameElsewhere(b: Books, b': Books) {
    b'.sessions == b.sessions && b'.customers == b.customers && b'.day == b.day && b'.checks == b.checks
  }

  // The script of a draft, played from the beginning.
  function Played(d: Draft): Outcome {
    Play(Empty(), d.steps)
  }

  // The draft has been played without a failure up to here, and agrees with the company that played it.
  ghost predicate Agrees(d: Draft, todo: Script, k: Known) {
    Played(d).error.None? && InSync(Played(d).books, d.inventory, todo, k)
  }

  lemma PlayOne(steps: Script, step: Step)
    requires Play(Empty(), steps).error.None?
    ensures Play(Empty(), steps + [step]) == PlainStep(Play(Empty(), steps).books, step)
  {
    PlayAppend(Empty(), steps, [step]);
    assert [step][1..] == [];
  }

  // Writing one submitted step keeps writer and company in agreement.
  lemma WriteAgrees(d: Draft, day: int, todo: Script, k: Known)
    requires todo != [] && Agrees(d, todo, k) && FineStep(todo[0], k, |d.inventory|) && StockFirst(todo)
    ensures var r := Write(d, day, todo[0]);
            && r.Some? && Agrees(r.value, todo[1..], Learn(k, todo[0])) && |r.value.inventory| == |d.inventory|
            && SameElsewhere(Played(d).books, Played(r.value).books)
  {
    var b := Played(d).books;
    var step := todo[0];
    if !IsOrder(step) {
      PlayOne(d.steps, step);
      if step.AddStock? {
        StockArrives(b, d.inventory, todo, k);
      } else {
        assert forall p :: Ahead(todo, p) == Ahead(todo[1..], p);
        ProductViewed(b, d.inventory, todo[1..], k, step.productId);
      }
    } else {
      forall p ensures Ahead(todo, p) == 0 == Ahead(todo[1..], p) {
        NoStockLeft(todo, p);
      }
      assert InSync(b, d.inventory, todo[1..], k);
      WriteOrderAgrees(d, day, todo[1..], k, step);
    }
  }

  lemma WriteOrderAgrees(d: Draft, day: int, todo: Script, k: Known, step: Step)
    requires Agrees(d, todo, k) && FineStep(step, k, |d.inventory|) && IsOrder(step)
    requires forall p :: Ahead(todo, p) == 0
    ensures var r := Write(d, day, step);
            && r.Some? && Agrees(r.value, todo, Learn(k, step)) && |r.value.inventory| == |d.inventory|
            && SameElsewhere(Played(d).books, Played(r.value).books)
  {
    var b := Played(d).books;
    var o := step.order;
    if (o.status == New || o.status == Recheck) && o.quantity <= d.inventory[o.productId].stock {
      PendingAgrees(d, day, todo, k, step);
    } else {
      var status := if o.status == New || o.status == Recheck then Backordered else o.status;
      assert WithOrder(step, o.(status := o.status)) == step;
      PlayOne(d.steps, WithOrder(step, o.(status := status)));
      TakesNothing(b, d.inventory, todo, k, step, status);
    }
  }

  lemma PendingAgrees(d: Draft, day: int, todo: Script, k: Known, step: Step)
    requires Agrees(d, todo, k) && FineStep(step, k, |d.inventory|) && IsOrder(step)
    requires forall p :: Ahead(todo, p) == 0
    requires step.order.status == New || step.order.status == Recheck
    requires step.order.quantity <= d.inventory[step.order.productId].stock
    ensures var r := Write(d, day, step);
            && r.Some? && Agrees(r.value, todo, Learn(k, step)) && |r.value.inventory| == |d.inventory|
            && SameElsewhere(Played(d).books, Played(r.value).books)
  {
    PendingWritten(d, todo, k, step);
    var o := step.order;
    var r := d.inventory[o.productId];
    var d1 := d.(steps := d.steps + [WithOrder(step, o.(status := Pending))],
                 inventory := d.inventory[o.productId := r.(stock := r.stock - o.quantity)]);
    if r.handlingDays <= 0 {
      ShippedAtOnce(Write(d, day, step).value, d1.steps, todo, Learn(k, step), o);
    }
  }

  lemma PendingWritten(d: Draft, todo: Script, k: Known, step: Step)
    requires Agrees(d, todo, k) && FineStep(step, k, |d.inventory|) && IsOrder(step)
    requires forall p :: Ahead(todo, p) == 0
    requires step.order.status == New || step.order.status == Recheck
    requires step.order.quantity <= d.inventory[step.order.productId].stock
    ensures var o := step.order;
            var r := d.inventory[o.productId];
            var d1 := d.(steps := d.steps + [WithOrder(step, o.(status := Pending))],
                         inventory := d.inventory[o.productId := r.(stock := r.stock - o.quantity)]);
            Agrees(d1, todo, Learn(k, step)) && SameElsewhere(Played(d).books, Played(d1).books)
  {
    PlayOne(d.steps, WithOrder(step, step.order.(status := Pending)));
    TakesFromStock(Played(d).books, d.inventory, todo, k, step);
  }

  // Same-day shipping: the Shipped step follows the Pending one.
  lemma ShippedAtOnce(d: Draft, steps: Script, todo: Script, k: Known, o: Order)
    requires d.steps == steps + [UpdateOrder(o.(status := Shipped))]
    requires Agrees(d.(steps := steps), todo, k) && o.id in k.placed && o.quantity >= 0
    ensures Agrees(d, todo, k) && SameElsewhere(Play(Empty(), steps).books, Played(d).books)
  {
    PlayOne(steps, UpdateOrder(o.(status := Shipped)));
    TakesNothing(Play(Empty(), steps).books, d.inventory, todo, k, UpdateOrder(o.(status := Shipped)), Shipped);
  }

  lemma {:induction false} WriteAllAgrees(d: Draft, day: int, todo: Script, k: Known)
    requires Agrees(d, todo, k) && Fine(todo, k, |d.inventory|) && StockFirst(todo)
    ensures var r := WriteAll(d, day, todo);
            && r.Some? && Agrees(r.value, [], LearnAll(k, todo)) && |r.value.inventory| == |d.inventory|
            && SameElsewhere(Played(d).books, Played(r.value).books)
    decreases |todo|
  {
    if todo != [] {
      WriteAgrees(d, day, todo, k);
      WriteAllAgrees(Write(d, day, todo[0]).value, day, todo[1..], Learn(k, todo[0]));
    }
  }
}
