/** The script writer: it simulates the company day by day, updating its own inventory and queues in place, and writes
    the script that the company actors will play.  Sampled quantities are parameters. */
module ScriptWriter {
  import opened Records
  import opened Company
  import opened Scripting
  import opened Queues
  import opened ScriptDesk
  import opened ScriptPhases
  import opened ScriptSessions
  import opened Totals
  import opened Shipments
  import opened PlainLaws
  import opened Backlog
  import opened Plans

  const LOGIN_EXPIRE_DAYS: nat := 7

  predicate AllStock(todo: Script) {
    forall i :: 0 <= i < |todo| ==> todo[i].AddStock?
  }

  predicate Restock(todo: Script, products: nat) {
    forall i :: 0 <= i < |todo| ==> RestockStep(todo[i], products)
  }

  // The stock of product `p` has risen by the deliveries of the day and fallen by what the new steps take.
  predicate StockBookedFor(before: seq<InventoryRecord>, after: seq<InventoryRecord>,
                           shipments: map<int, seq<Delivery>>, day: int, added: Script, p: nat) {
    p < |before| && p < |after| ==> after[p].stock == before[p].stock + Due(shipments, day, p) - Taken(added, p)
  }

  ghost predicate StockBooked(before: seq<InventoryRecord>, after: seq<InventoryRecord>,
                              shipments: map<int, seq<Delivery>>, day: int, added: Script) {
    forall p: nat :: StockBookedFor(before, after, shipments, day, added, p)
  }

  class ScriptWriter {
    const horizon: nat
    var currentDay: nat
    var steps: Script
    var inventory: seq<InventoryRecord>
    var backorders: seq<seq<nat>>
    var pendingOrders: map<int, seq<nat>>
    var shipments: map<int, seq<Delivery>>
    var productShipping: map<int, int>
    ghost var farthest: nat
    // Sessions by customer, the running number of the next one, and the factor that sets the days apart.
    const daySpan: nat
    var customerSessions: seq<Option<Session>>
    var nextSession: nat
    ghost var collected: int

    constructor (horizon: nat, daySpan: nat, marketCapacity: nat)
      requires MAX_HANDLING < horizon
      ensures this.horizon == horizon && this.daySpan == daySpan && currentDay == 0 && steps == []
      ensures inventory == [] && backorders == [] && pendingOrders == map[] && |customerSessions| == marketCapacity
      ensures shipments == map[] && productShipping == map[]
      ensures Ready(0) && Sessions() && ShippingOk()
    {
      this.horizon, this.daySpan, currentDay, steps := horizon, daySpan, 0, [];
      inventory, backorders, pendingOrders := [], [], map[];
      shipments, productShipping, farthest := map[], map[], 0;
      customerSessions, nextSession, collected := seq(marketCapacity, _ => None), 0, 0;
      new;
      EmptyDesk(horizon);
      assert Company() == Empty();
    }

    ghost function Abs(): Desk
      reads this
    {
      Desk(steps, inventory, backorders, pendingOrders)
    }

    // The desk is in order and nothing is due up to day `low`.
    ghost predicate Ready(low: int)
      reads this
    {
      DeskOk(Abs(), low, [], [], horizon) && currentDay + MAX_HANDLING < horizon
    }

    // `process_order`
    method ProcessOrder(step: Step) returns (written: Option<(Step, PostProc)>)
      modifies this`inventory
      ensures match Scripting.ProcessOrder(old(inventory), currentDay, step)
              case Unprocessed => written.None? && inventory == old(inventory)
              case Processed(s, post, stock) => written == Some((s, post)) && inventory == stock
    {
      if !IsOrder(step) {
        return None;
      }
      var order := step.order;
      if order.status != New && order.status != Recheck {
        return Some((step, Nothing));
      }
      var newOrder := order.status == New;
      if !(0 <= order.productId < |inventory|) {
        return None;
      }
      var invRec := inventory[order.productId];
      if invRec.stock < order.quantity {
        var post := if newOrder then BackorderNew(order.productId) else BackorderAgain(order.productId);
        return Some((WithOrder(step, order.(status := Backordered)), post));
      }
      var post := if invRec.handlingDays > 0 then Pend(currentDay + invRec.handlingDays)
                  else Shipping(order.(status := Shipped));
      inventory := inventory[order.productId := invRec.(stock := invRec.stock - order.quantity)];
      return Some((WithOrder(step, order.(status := Pending)), post));
    }

    // `add_steps`: the steps are processed and written one by one; the queues are filed at the end.
    method AddSteps(newSteps: Script) returns (ok: bool)
      requires |inventory| <= |backorders|
      modifies this`steps, this`inventory, this`backorders, this`pendingOrders
      ensures ok <==> Submit(old(Abs()), currentDay, newSteps).Some?
      ensures ok ==> Abs() == Submit(old(Abs()), currentDay, newSteps).value
    {
      var pending: seq<(int, nat)>, again: seq<(int, nat)>, newly: seq<(int, nat)> := [], [], [];
      ghost var start := Abs();
      ghost var day := currentDay;
      for i := 0 to |newSteps|
        invariant backorders == start.backorders && pendingOrders == start.pending && |inventory| == |start.inventory|
        invariant ForProducts(again, |inventory|) && ForProducts(newly, |inventory|)
        invariant WriteAll(DraftOf(start), day, newSteps) ==
                  WriteAll(Draft(steps, inventory, pending, again, newly), day, newSteps[i..])
      {
        assert newSteps[i..][0] == newSteps[i] && newSteps[i..][1..] == newSteps[i + 1..];
        var step, post := newSteps[i], Nothing;
        if IsOrder(step) {
          var written := ProcessOrder(step);
          if written.None? {
            return false;
          }
          step, post := written.value.0, written.value.1;
        }
        steps := steps + [step];
        var stepIdx: nat := |steps| - 1;
        match post
        case Pend(due) => pending := pending + [(due, stepIdx)];
        case BackorderNew(productId) => newly := newly + [(productId, stepIdx)];
        case BackorderAgain(productId) => again := again + [(productId, stepIdx)];
        case Shipping(order) => steps := steps + [UpdateOrder(order)];
        case Nothing =>
      }
      assert newSteps[|newSteps|..] == [];
      FileEntries(pending, again, newly, start);
      return true;
    }

    method FileEntries(pending: seq<(int, nat)>, again: seq<(int, nat)>, newly: seq<(int, nat)>, ghost start: Desk)
      requires backorders == start.backorders && pendingOrders == start.pending && |inventory| <= |backorders|
      requires ForProducts(again, |inventory|) && ForProducts(newly, |inventory|)
      modifies this`backorders, this`pendingOrders
      ensures Abs() == Filed(start, Draft(steps, inventory, pending, again, newly))
    {
      for j := 0 to |pending|
        invariant pendingOrders == FilePending(start.pending, pending, j) && backorders == start.backorders
      {
        var (due, stepIdx) := pending[j];
        pendingOrders := pendingOrders[due := QueueOn(pendingOrders, due) + [stepIdx]];
      }
      for j := 0 to |again|
        invariant pendingOrders == FilePending(start.pending, pending, |pending|)
        invariant backorders == FileFront(start.backorders, again, j)
      {
        var (productId, stepIdx) := again[j];
        backorders := backorders[productId := [stepIdx] + backorders[productId]];
      }
      ghost var front := backorders;
      for j := 0 to |newly|
        invariant pendingOrders == FilePending(start.pending, pending, |pending|)
        invariant backorders == FileBack(front, newly, j)
      {
        var (productId, stepIdx) := newly[j];
        backorders := backorders[productId := backorders[productId] + [stepIdx]];
      }
    }

    // The count of items being shipped is, for each product, the sum of its outstanding deliveries.
    ghost predicate ShippingOk()
      reads this`shipments, this`productShipping, this`farthest, this`inventory
    {
      && (forall day :: DeliveriesOk(shipments, day, |inventory|, farthest))
      && (forall p :: ShippingOf(productShipping, p) == Outstanding(shipments, farthest, p))
    }

    // No order at the head of a backorder queue could be served by the stock on hand.
    ghost predicate HeadsWait()
      reads this`steps, this`inventory, this`backorders
    {
      forall p: nat :: HeadWaits(steps, inventory, backorders, p)
    }

    // The script has grown, and stock and queues are as before.
    lemma StillWait(before: Script)
      requires before <= steps && forall p: nat :: HeadWaits(before, inventory, backorders, p)
      ensures HeadsWait()
    {
      forall p: nat ensures HeadWaits(steps, inventory, backorders, p) {
        StillWaits(before, steps, inventory, backorders, p);
      }
    }

    // The company that has played the script so far.
    ghost function Company(): Books
      reads this`steps
    {
      Play(Empty(), steps).books
    }

    // ---- Replenishing the inventory.

    // `replenish_inventory`: the day's deliveries enter the stock, then waiting orders that can be served now are
    // rechecked.  The steps amount to the deliveries, the stock moves by them and by what the rechecked orders take,
    // and afterwards no order waits at the head of its queue that the stock could serve.
    method ReplenishInventory()
      requires currentDay >= 1 && Ready(currentDay - 1) && ShippingOk() && HeadsWait()
      modifies this`steps, this`inventory, this`backorders, this`pendingOrders, this`shipments, this`productShipping
      ensures Ready(currentDay - 1) && ShippingOk() && HeadsWait() && shipments == old(shipments) - {currentDay}
      ensures |inventory| == old(|inventory|) && Grown(old(steps), steps, |inventory|)
      ensures Gained(old(steps), steps, DeliverySteps(DeliveriesOn(old(shipments), currentDay)))
      ensures StockBooked(old(inventory), inventory, old(shipments), currentDay, steps[old(|steps|)..])
      ensures forall p :: ShippingOf(productShipping, p) ==
                          ShippingOf(old(productShipping), p) - Due(old(shipments), currentDay, p)
      ensures SameElsewhere(old(Company()), Company()) && SameKnown(old(steps), steps)
    {
      ghost var low, start, deliveries := currentDay - 1, Abs(), DeliveriesOn(shipments, currentDay);
      var invSteps := [];
      if currentDay in shipments {
        invSteps := ReceiveAndRecheck(shipments[currentDay], low);
      } else {
        assert shipments - {currentDay} == shipments;
        MovesGainNothing([], []);
      }
      SubmitRestock(invSteps, low);
      GainedAs(start.steps, steps, invSteps, DeliverySteps(deliveries));
      AllStockFollows(start, old(shipments), low);
    }

    method ReceiveAndRecheck(arrived: seq<Delivery>, ghost low: int) returns (invSteps: Script)
      requires DeskOk(Abs(), low, [], [], horizon) && ShippingOk() && HeadsWait()
      requires currentDay in shipments && shipments[currentDay] == arrived
      modifies this`inventory, this`shipments, this`productShipping, this`backorders
      ensures DeskOk(Abs(), low, invSteps, [], horizon) && ShippingOk() && shipments == old(shipments) - {currentDay}
      ensures Restock(invSteps, |inventory|) && StockFirst(invSteps) && |inventory| == old(|inventory|)
      ensures HeadsWait() && Gained([], invSteps, DeliverySteps(arrived))
      ensures forall p :: ShippingOf(productShipping, p) ==
                          ShippingOf(old(productShipping), p) - BatchesFor(arrived, |arrived|, p)
    {
      invSteps := Receive(arrived, low);
      var affected := Affected(arrived, |inventory|);
      invSteps := RecheckBackorders(affected, invSteps, low);
    }

    lemma {:induction false} AllStockFollows(start: Desk, before: map<int, seq<Delivery>>, low: int)
      requires DeskOk(start, low, [], [], horizon) && DeskOk(Abs(), low, [], [], horizon) && start.steps <= steps
      requires Gained(start.steps, steps, DeliverySteps(DeliveriesOn(before, currentDay)))
      requires |inventory| == |start.inventory|
      ensures StockBooked(start.inventory, inventory, before, currentDay, steps[|start.steps|..])
    {
      forall p: nat ensures StockBookedFor(start.inventory, inventory, before, currentDay, steps[|start.steps|..], p) {
        if p < |inventory| {
          StockFollows(start, DeliveriesOn(before, currentDay), low, p);
        }
      }
    }

    // The writer's stock moves as the company's does.
    lemma {:induction false} StockFollows(start: Desk, deliveries: seq<Delivery>, low: int, p: nat)
      requires DeskOk(start, low, [], [], horizon) && DeskOk(Abs(), low, [], [], horizon)
      requires p < |inventory| == |start.inventory| && start.steps <= steps
      requires Gained(start.steps, steps, DeliverySteps(deliveries))
      ensures inventory[p].stock ==
              start.inventory[p].stock + BatchesFor(deliveries, |deliveries|, p) - Taken(steps[|start.steps|..], p)
    {
      assert RecordInSync(Play(Empty(), start.steps).books, start.inventory, Ahead([], p), p);
      assert RecordInSync(Company(), inventory, Ahead([], p), p);
      StockMoves(start.steps, steps, DeliverySteps(deliveries), p);
      DeliveriesBring(deliveries, |deliveries|, p);
    }

    method Affected(deliveries: seq<Delivery>, products: nat) returns (affected: seq<bool>)
      requires forall i :: 0 <= i < |deliveries| ==> 0 <= deliveries[i].productId < products
      ensures |affected| == products
      ensures forall p :: 0 <= p < products ==> (affected[p] <==> Delivered(deliveries, p))
    {
      affected := seq(products, _ => false);
      for i := 0 to |deliveries|
        invariant |affected| == products
        invariant forall p :: 0 <= p < products ==>
                    (affected[p] <==> exists j :: 0 <= j < i && deliveries[j].productId == p)
      {
        affected := affected[deliveries[i].productId := true];
      }
    }

    // The queues of all affected products are popped to the first order that cannot be served.
    method RecheckBackorders(affected: seq<bool>, invSteps: Script, ghost low: int) returns (out: Script)
      requires DeskOk(Abs(), low, invSteps, [], horizon) && Restock(invSteps, |inventory|) && StockFirst(invSteps)
      requires |affected| == |inventory|
      requires forall p: nat :: p >= |affected| || !affected[p] ==> HeadWaits(steps, inventory, backorders, p)
      modifies this`backorders
      ensures DeskOk(Abs(), low, out, [], horizon) && Restock(out, |inventory|) && StockFirst(out)
      ensures HeadsWait() && Gained([], out, invSteps)
    {
      out := invSteps;
      MovesGainNothing(invSteps, []);
      assert invSteps + [] == invSteps;
      for productId := 0 to |affected|
        invariant DeskOk(Abs(), low, out, [], horizon) && Restock(out, |inventory|) && StockFirst(out)
        invariant Gained([], out, invSteps)
        invariant forall p: nat ::
          p < productId || p >= |affected| || !affected[p] ==> HeadWaits(steps, inventory, backorders, p)
      {
        if affected[productId] {
          out := RecheckQueue(productId, out, low, invSteps);
        }
      }
    }

    method RecheckQueue(productId: nat, invSteps: Script, ghost low: int, ghost start: Script) returns (out: Script)
      requires DeskOk(Abs(), low, invSteps, [], horizon) && Restock(invSteps, |inventory|) && StockFirst(invSteps)
      requires productId < |inventory| && Gained([], invSteps, start)
      modifies this`backorders
      ensures DeskOk(Abs(), low, out, [], horizon) && Restock(out, |inventory|) && StockFirst(out)
      ensures HeadWaits(steps, inventory, backorders, productId) && Gained([], out, start)
      ensures forall p: nat :: old(HeadWaits(steps, inventory, backorders, p)) ==>
                               HeadWaits(steps, inventory, backorders, p)
    {
      ghost var queue := backorders[productId];
      out := PopBackorders(productId, invSteps, low);
      ghost var moves := out[|invSteps|..];
      assert out == invSteps + moves;
      forall i | 0 <= i < |moves| ensures IsMove(moves[i]) {
        assert moves[i] == out[|invSteps| + i] == RecheckOf(steps, queue[i]);
      }
      MovesGainNothing(invSteps, moves);
      GainedAs([], out, invSteps, start);
    }

    method Receive(deliveries: seq<Delivery>, ghost low: int) returns (invSteps: Script)
      requires DeskOk(Abs(), low, [], [], horizon) && ShippingOk() && HeadsWait()
      requires currentDay in shipments && shipments[currentDay] == deliveries
      modifies this`inventory, this`shipments, this`productShipping
      ensures DeskOk(Abs(), low, invSteps, [], horizon) && ShippingOk() && shipments == old(shipments) - {currentDay}
      ensures invSteps == DeliverySteps(deliveries) && |inventory| == old(|inventory|)
      ensures Restock(invSteps, |inventory|) && StockFirst(invSteps)
      ensures forall p :: ShippingOf(productShipping, p) ==
                          ShippingOf(old(productShipping), p) - BatchesFor(deliveries, |deliveries|, p)
      ensures forall p :: 0 <= p < |inventory| ==>
                StockedUp(old(inventory), inventory, deliveries, |deliveries|, p)
      ensures forall i :: 0 <= i < |deliveries| ==> 0 <= deliveries[i].productId < |inventory|
      ensures forall p: nat :: !Delivered(deliveries, p) ==> HeadWaits(steps, inventory, backorders, p)
    {
      assert DeliveriesOk(shipments, currentDay, |inventory|, farthest);
      ghost var all, stock := shipments, inventory;
      shipments := shipments - {currentDay};
      invSteps := TakeIn(deliveries, low);
      forall day ensures DeliveriesOk(shipments, day, |inventory|, farthest) {
        assert DeliveriesOk(all, day, |inventory|, farthest);
      }
      forall p ensures ShippingOf(productShipping, p) == Outstanding(shipments, farthest, p) {
        OutstandingRemove(all, farthest, currentDay, p);
      }
      NotDelivered(stock, deliveries);
    }

    method TakeIn(deliveries: seq<Delivery>, ghost low: int) returns (invSteps: Script)
      requires DeskOk(Abs(), low, [], [], horizon)
      requires forall i :: 0 <= i < |deliveries| ==> 0 <= deliveries[i].productId < |inventory|
      modifies this`inventory, this`productShipping
      ensures DeskOk(Abs(), low, invSteps, [], horizon)
      ensures invSteps == DeliverySteps(deliveries) && |inventory| == old(|inventory|)
      ensures forall p :: 0 <= p < |inventory| ==>
                StockedUp(old(inventory), inventory, deliveries, |deliveries|, p)
      ensures forall p :: ShippingOf(productShipping, p) ==
                          ShippingOf(old(productShipping), p) - BatchesFor(deliveries, |deliveries|, p)
    {
      invSteps := [];
      ghost var stock, shipping := inventory, productShipping;
      for i := 0 to |deliveries|
        invariant DeskOk(Abs(), low, invSteps, [], horizon) && |inventory| == |stock|
        invariant invSteps == DeliverySteps(deliveries)[..i]
        invariant forall p :: 0 <= p < |inventory| ==> StockedUp(stock, inventory, deliveries, i, p)
        invariant forall p :: CountedOff(shipping, productShipping, deliveries, i, p)
      {
        var Delivery(productId, batchSize) := deliveries[i];
        ghost var before, counted := inventory, productShipping;
        invSteps := Stock(productId, batchSize, invSteps, low);
        MoreStock(stock, before, inventory, deliveries, i, i + 1);
        productShipping := productShipping[productId := ShippingOf(productShipping, productId) - batchSize];
        OneMoreCounted(shipping, counted, productShipping, deliveries, i, i + 1);
      }
      assert DeliverySteps(deliveries)[..|deliveries|] == DeliverySteps(deliveries);
      forall p ensures ShippingOf(productShipping, p) ==
                       ShippingOf(shipping, p) - BatchesFor(deliveries, |deliveries|, p) {
        assert CountedOff(shipping, productShipping, deliveries, |deliveries|, p);
      }
    }

    // Without a delivery the order at the head of the queue still cannot be served.
    lemma NotDelivered(stock: seq<InventoryRecord>, deliveries: seq<Delivery>)
      requires |stock| == |inventory| && forall p: nat :: HeadWaits(steps, stock, backorders, p)
      requires forall p :: 0 <= p < |inventory| ==> StockedUp(stock, inventory, deliveries, |deliveries|, p)
      ensures forall p: nat :: !Delivered(deliveries, p) ==> HeadWaits(steps, inventory, backorders, p)
    {
      forall p: nat | !Delivered(deliveries, p) ensures HeadWaits(steps, inventory, backorders, p) {
        assert HeadWaits(steps, stock, backorders, p);
        NothingDelivered(deliveries, |deliveries|, p);
        if p < |inventory| {
          assert StockedUp(stock, inventory, deliveries, |deliveries|, p);
        }
      }
    }

    static lemma MoreStock(stock: seq<InventoryRecord>, before: seq<InventoryRecord>, after: seq<InventoryRecord>,
                           deliveries: seq<Delivery>, i: nat, n: nat)
      requires n == i + 1 <= |deliveries| && |before| == |stock| && 0 <= deliveries[i].productId < |before|
      requires forall p :: 0 <= p < |before| ==> StockedUp(stock, before, deliveries, i, p)
      requires var Delivery(productId, batchSize) := deliveries[i];
               var invRec := before[productId];
               after == before[productId := invRec.(stock := invRec.stock + batchSize)]
      ensures forall p :: 0 <= p < |after| ==> StockedUp(stock, after, deliveries, n, p)
    {
      forall p | 0 <= p < |after| ensures StockedUp(stock, after, deliveries, n, p) {
        assert StockedUp(stock, before, deliveries, i, p);
      }
    }

    method Stock(productId: nat, batchSize: int, invSteps: Script, ghost low: int) returns (out: Script)
      requires DeskOk(Abs(), low, invSteps, [], horizon) && productId < |inventory|
      modifies this`inventory
      ensures DeskOk(Abs(), low, out, [], horizon)
      ensures var invRec := old(inventory)[productId];
              inventory == old(inventory)[productId := invRec.(stock := invRec.stock + batchSize)]
      ensures out == invSteps + [AddStock(productId, batchSize)]
    {
      ArrivalKeeps(Abs(), low, horizon, invSteps, productId, batchSize);
      var invRec := inventory[productId];
      inventory := inventory[productId := invRec.(stock := invRec.stock + batchSize)];
      out := invSteps + [AddStock(productId, batchSize)];
    }

    // Waiting orders of one product leave the queue as long as the stock on hand would serve each of them.
    method PopBackorders(productId: nat, invSteps: Script, ghost low: int) returns (out: Script)
      requires DeskOk(Abs(), low, invSteps, [], horizon) && Restock(invSteps, |inventory|) && StockFirst(invSteps)
      requires productId < |inventory|
      modifies this`backorders
      ensures DeskOk(Abs(), low, out, [], horizon) && Restock(out, |inventory|) && StockFirst(out)
      ensures |backorders| == |old(backorders)| == |inventory|
      ensures forall p :: 0 <= p < |backorders| && p != productId ==> backorders[p] == old(backorders)[p]
      ensures Popped(old(backorders)[productId], backorders[productId], invSteps, out, productId)
      ensures backorders[productId] != [] ==> !Serves(productId, backorders[productId][0])
    {
      out := invSteps;
      ghost var all := backorders;
      assert QueueOk(steps, productId, backorders[productId]);
      while backorders[productId] != []
        invariant DeskOk(Abs(), low, out, [], horizon) && Restock(out, |inventory|) && StockFirst(out)
        invariant backorders == all[productId := backorders[productId]]
        invariant Popped(all[productId], backorders[productId], invSteps, out, productId)
        decreases |backorders[productId]|
      {
        var stepIdx := backorders[productId][0];
        var order := steps[stepIdx].order;
        if order.quantity > inventory[productId].stock {
          break;
        }
        PoppedOne(all[productId], backorders[productId], invSteps, out, productId);
        PopRestocks(out, productId, low);
        backorders := backorders[productId := backorders[productId][1..]];
        out := out + [UpdateOrder(order.(status := Recheck))];
      }
    }

    lemma PoppedOne(queue: seq<nat>, left: seq<nat>, before: Script, out: Script, productId: nat)
      requires Popped(queue, left, before, out, productId) && left != [] && Serves(productId, left[0])
      ensures Popped(queue, left[1..], before, out + [RecheckOf(steps, left[0])], productId)
      ensures RecheckOf(steps, left[0]) == UpdateOrder(steps[left[0]].order.(status := Recheck))
    {
    }

    lemma PopRestocks(out: Script, productId: nat, low: int)
      requires DeskOk(Abs(), low, out, [], horizon) && Restock(out, |inventory|) && StockFirst(out)
      requires productId < |inventory| && backorders[productId] != []
      ensures var i := backorders[productId][0];
              var out' := out + [RecheckOf(steps, i)];
              var rest := backorders[productId := backorders[productId][1..]];
              && DeskOk(Abs().(backorders := rest), low, out', [], horizon)
              && Restock(out', |inventory|) && StockFirst(out')
    {
      PopKeeps(Abs(), low, horizon, out, productId);
    }

    // The stock on hand would serve the order queued under this index.
    predicate Serves(productId: nat, stepIdx: nat)
      requires productId < |inventory| && stepIdx < |steps| && IsOrder(steps[stepIdx])
      reads this`steps, this`inventory
    {
      steps[stepIdx].order.quantity <= inventory[productId].stock
    }

    // The orders at the front of `queue` have left it, in turn; each is of this product, could be served, and is
    // submitted again to be rechecked.
    ghost predicate Popped(queue: seq<nat>, left: seq<nat>, before: Script, out: Script, productId: nat)
      reads this`steps, this`inventory
    {
      var n := |queue| - |left|;
      && productId < |inventory| && n >= 0 && left == queue[n..] && |out| == |before| + n && out[..|before|] == before
      && (forall j :: 0 <= j < |left| ==> Backorder(steps, productId, left[j]))
      && forall j :: 0 <= j < n ==>
           && Backorder(steps, productId, queue[j]) && Serves(productId, queue[j])
           && out[|before| + j] == RecheckOf(steps, queue[j])
    }

    method SubmitRestock(invSteps: Script, ghost low: int)
      requires DeskOk(Abs(), low, invSteps, [], horizon) && Restock(invSteps, |inventory|) && StockFirst(invSteps)
      requires low <= currentDay && currentDay + MAX_HANDLING < horizon && HeadsWait()
      modifies this`steps, this`inventory, this`backorders, this`pendingOrders
      ensures DeskOk(Abs(), low, [], [], horizon) && |inventory| == old(|inventory|) && HeadsWait()
      ensures Grown(old(steps), steps, |inventory|) && Gained(old(steps), steps, invSteps)
      ensures SameElsewhere(old(Company()), Company()) && SameKnown(old(steps), steps)
    {
      LearnsNoOrder(KnownOf(steps), invSteps);
      RestockReady(Abs(), low, horizon, invSteps);
      SubmitKeeps(Abs(), low, currentDay, invSteps, [], horizon);
      SubmitGains(Abs(), currentDay, invSteps);
      SubmitAllWait(invSteps);
      var ok := AddSteps(invSteps);
    }

    lemma SubmitAllWait(todo: Script)
      requires HeadsWait() && Submit(Abs(), currentDay, todo).Some? && Fine(todo, KnownOf(steps), |inventory|)
      ensures var d := Submit(Abs(), currentDay, todo).value;
              forall p: nat :: HeadWaits(d.steps, d.inventory, d.backorders, p)
    {
      FineIsNonNegative(todo, KnownOf(steps), |inventory|);
      forall p: nat
        ensures var d := Submit(Abs(), currentDay, todo).value; HeadWaits(d.steps, d.inventory, d.backorders, p)
      {
        SubmitWaits(Abs(), currentDay, todo, p);
      }
    }

    // ---- Shipping the pending orders of the day.

    // `fulfill_pending`: the orders due today, and only they, get their Shipped step, in the order in which they were
    // filed; the chunks handed to the workers cover the queue without a gap, and none is empty.
    method FulfillPending(workerCount: nat)
      requires workerCount >= 1 && Ready(currentDay - 1)
      modifies this`steps, this`inventory, this`backorders, this`pendingOrders
      ensures Ready(currentDay) && pendingOrders == old(pendingOrders) - {currentDay}
      ensures steps == old(steps) + ShipmentsOf(old(steps), QueueOn(old(pendingOrders), currentDay))
      ensures inventory == old(inventory) && backorders == old(backorders)
      ensures SameElsewhere(old(Company()), Company())
      ensures Grown(old(steps), steps, |inventory|) && SameKnown(old(steps), steps)
    {
      KnownStays(steps, ShipmentsOf(steps, QueueOn(pendingOrders, currentDay)));
      DayTaken(Abs(), currentDay, horizon);
      assert DueOk(steps, pendingOrders, currentDay, currentDay - 1, horizon);
      if currentDay !in pendingOrders {
        assert pendingOrders - {currentDay} == pendingOrders;
        assert ShipmentsOf(steps, []) == [] && steps + [] == steps;
        return;
      }
      var indices := pendingOrders[currentDay];
      pendingOrders := pendingOrders - {currentDay};
      var orderCount := |indices|;
      var batchCount := if orderCount / 1000 + 1 < workerCount then orderCount / 1000 + 1 else workerCount;
      var batchSize := orderCount / batchCount;
      ShipInChunks(indices, batchSize);
    }

    method ShipInChunks(indices: seq<nat>, batchSize: nat)
      requires batchSize >= 1 && DayOk(steps, indices) && currentDay + MAX_HANDLING < horizon
      requires DeskOk(Abs(), currentDay, [], ShipmentsOf(steps, indices), horizon)
      modifies this`steps, this`inventory, this`backorders, this`pendingOrders
      ensures DeskOk(Abs(), currentDay, [], [], horizon)
      ensures Abs() == old(Abs()).(steps := old(steps) + ShipmentsOf(old(steps), indices))
      ensures SameElsewhere(old(Company()), Company())
    {
      ghost var start, books := Abs(), Company();
      ghost var all := ShipmentsOf(steps, indices);
      var done := 0;
      while done < |indices|
        invariant done <= |indices| && DeskOk(Abs(), currentDay, [], all[done..], horizon)
        invariant Abs() == start.(steps := start.steps + all[..done])
        invariant SameElsewhere(books, Company())
      {
        var next := if done + batchSize < |indices| then done + batchSize else |indices|;
        ShipmentsSlice(start.steps, all[..done], indices, done, next);
        ChunksJoin(all, done, next);
        TaskPending(indices[done..next], all[next..]);
        assert steps == start.steps + all[..next];
        done := next;
      }
      assert all[|indices|..] == [] && all[..|indices|] == all;
    }

    // `task_pending`, while the other chunks are still with their workers.
    method TaskPending(indices: seq<nat>, ghost rest: Script)
      requires DayOk(steps, indices) && DeskOk(Abs(), currentDay, [], ShipmentsOf(steps, indices) + rest, horizon)
      requires currentDay + MAX_HANDLING < horizon
      modifies this`steps, this`inventory, this`backorders, this`pendingOrders
      ensures DeskOk(Abs(), currentDay, [], rest, horizon)
      ensures Abs() == old(Abs()).(steps := old(steps) + ShipmentsOf(old(steps), indices))
      ensures SameElsewhere(old(Company()), Company())
    {
      var batchSteps := [];
      for j := 0 to |indices|
        invariant batchSteps == ShipmentsOf(steps, indices)[..j]
      {
        assert Awaiting(steps, indices[j]);
        var order := steps[indices[j]].order;
        batchSteps := batchSteps + [UpdateOrder(order.(status := Shipped))];
      }
      assert batchSteps == ShipmentsOf(steps, indices);
      ShipmentsPlaced(Abs(), currentDay, batchSteps + rest, horizon, indices);
      ChunkReady(Abs(), currentDay, horizon, batchSteps, rest);
      SubmitKeeps(Abs(), currentDay, currentDay, batchSteps, rest, horizon);
      SubmitAsIs(Abs(), currentDay, batchSteps);
      var ok := AddSteps(batchSteps);
    }

    // ---- Purchases and returns.

    // One task's purchases: new orders with ids of their own, and product views.
    method TaskPurchases(batch: Script)
      requires Ready(currentDay) && HeadsWait() && Fine(batch, KnownOf(steps), |inventory|)
      requires forall i :: 0 <= i < |batch| ==> Ordinary(batch[i])
      modifies this`steps, this`inventory, this`backorders, this`pendingOrders
      ensures Ready(currentDay) && HeadsWait() && |inventory| == old(|inventory|)
      ensures Submit(old(Abs()), currentDay, batch) == Some(Abs()) && Gained(old(steps), steps, batch)
      ensures Grown(old(steps), steps, |inventory|) && SameElsewhere(old(Company()), Company())
      ensures KnownOf(steps).placed == LearnAll(old(KnownOf(steps)), batch).placed
      ensures KnownOf(steps).customers == old(KnownOf(steps)).customers
    {
      OrdinaryReady(Abs(), currentDay, horizon, batch);
      SubmitKeeps(Abs(), currentDay, currentDay, batch, [], horizon);
      SubmitGains(Abs(), currentDay, batch);
      SubmitAllWait(batch);
      var ok := AddSteps(batch);
    }

    // Returned orders, whatever has become of them, are marked so; no stock comes back.
    method TaskReturns(returned: seq<Order>)
      requires Ready(currentDay)
      requires forall i :: 0 <= i < |returned| ==> returned[i].id in KnownOf(steps).placed && returned[i].quantity >= 0
      modifies this`steps, this`inventory, this`backorders, this`pendingOrders
      ensures Ready(currentDay) && inventory == old(inventory) && backorders == old(backorders)
      ensures steps == old(steps) + Refunds(returned) && Grown(old(steps), steps, |inventory|)
      ensures SameElsewhere(old(Company()), Company()) && SameKnown(old(steps), steps)
    {
      var batchSteps := [];
      for i := 0 to |returned|
        invariant batchSteps == Refunds(returned)[..i]
      {
        batchSteps := batchSteps + [UpdateOrder(returned[i].(status := Refunded))];
      }
      assert batchSteps == Refunds(returned);
      RefundsFine(batchSteps, KnownOf(steps), |inventory|);
      LearnsNoOrder(KnownOf(steps), batchSteps);
      OrdinaryReady(Abs(), currentDay, horizon, batchSteps);
      SubmitKeeps(Abs(), currentDay, currentDay, batchSteps, [], horizon);
      SubmitAsIs(Abs(), currentDay, batchSteps);
      var ok := AddSteps(batchSteps);
    }

    // ---- The end of the day.

    // The inventory part of `log_progress`: the script is made to check every stock, and every check will pass.
    method LogProgress()
      requires Ready(currentDay)
      modifies this`steps, this`inventory, this`backorders, this`pendingOrders
      ensures Ready(currentDay) && steps == old(steps) + ChecksOf(old(inventory))
      ensures inventory == old(inventory) && backorders == old(backorders) && pendingOrders == old(pendingOrders)
      ensures Company().sessions == old(Company()).sessions && Company().customers == old(Company()).customers
      ensures Company().day == old(Company()).day && Company().checks == old(Company()).checks + |inventory|
      ensures SameKnown(old(steps), steps)
    {
      KnownStays(steps, ChecksOf(inventory));
      var checkSteps := [];
      for p := 0 to |inventory|
        invariant checkSteps == ChecksOf(inventory)[..p]
      {
        checkSteps := checkSteps + [CheckInventory(inventory[p].productId, inventory[p].stock)];
      }
      assert checkSteps == ChecksOf(inventory) == ChecksOf(inventory)[..|inventory|];
      ChecksPass(Abs(), currentDay, horizon, |inventory|);
      SubmitAsIs(Abs(), currentDay, checkSteps);
      var ok := AddSteps(checkSteps);
    }

    // `order_shipments`, for any estimates of the sales to come and any delays: orders are counted where they are
    // due, and together with the stock they cover the estimate, without exceeding it.
    method OrderShipments(initial: bool, estimates: seq<int>, delays: seq<nat>)
      requires ShippingOk() && |estimates| == |delays| == |inventory|
      requires forall p :: 0 <= p < |inventory| ==> inventory[p].stock >= 0
      modifies this`shipments, this`productShipping, this`farthest
      ensures ShippingOk()
      ensures forall p :: 0 <= p < |inventory| ==>
                Suits(initial, estimates[p], inventory[p].stock, ShippingOf(old(productShipping), p),
                      ShippingOf(productShipping, p))
      ensures AllArrive(old(shipments), shipments, old(productShipping), productShipping, initial, currentDay, delays)
    {
      for p := 0 to |inventory|
        invariant ShippingOk()
        invariant forall q :: 0 <= q < p ==>
                    Suits(initial, estimates[q], inventory[q].stock, ShippingOf(old(productShipping), q),
                          ShippingOf(productShipping, q))
        invariant forall q :: p <= q ==> ShippingOf(productShipping, q) == ShippingOf(old(productShipping), q)
        invariant forall q, day :: p <= q ==> Due(shipments, day, q) == Due(old(shipments), day, q)
        invariant AllArrive(old(shipments), shipments, old(productShipping), productShipping, initial, currentDay,
                            delays)
      {
        ghost var before, shipping := shipments, productShipping;
        OrderGoods(initial, p, estimates[p], delays[p]);
        forall q: nat, day ensures OrdersArrive(old(shipments), shipments, old(productShipping), productShipping,
                                                initial, currentDay, delays, q, day) {
          assert OrdersArrive(old(shipments), before, old(productShipping), shipping, initial, currentDay, delays, q,
                              day);
        }
      }
    }

    method OrderGoods(initial: bool, p: nat, estimate: int, delay: nat)
      requires ShippingOk() && p < |inventory| && inventory[p].stock >= 0
      modifies this`shipments, this`productShipping, this`farthest
      ensures ShippingOk()
      ensures Suits(initial, estimate, inventory[p].stock, ShippingOf(old(productShipping), p),
                    ShippingOf(productShipping, p))
      ensures forall q :: q != p ==> ShippingOf(productShipping, q) == ShippingOf(old(productShipping), q)
      ensures forall q, day :: Due(shipments, day, q) ==
                Due(old(shipments), day, q)
                + if q == p && day == (if initial then 1 else currentDay + delay)
                  then ShippingOf(productShipping, p) - ShippingOf(old(productShipping), p) else 0
    {
      var beingShipped := ShippingOf(productShipping, p);
      if beingShipped > estimate || estimate == 0 {
        return;
      }
      var batchSize := estimate - beingShipped;
      var arrivesOn: nat := 1;
      if !initial {
        if inventory[p].stock > batchSize {
          return;
        }
        batchSize := batchSize - inventory[p].stock;
        arrivesOn := currentDay + delay;
      }
      if batchSize > 0 {
        Ship(Delivery(p, batchSize), arrivesOn);
      }
    }

    method Ship(delivery: Delivery, arrivesOn: nat)
      requires ShippingOk() && 0 <= delivery.productId < |inventory| && delivery.batchSize > 0
      modifies this`shipments, this`productShipping, this`farthest
      ensures ShippingOk()
      ensures forall p :: ShippingOf(productShipping, p) ==
                ShippingOf(old(productShipping), p) + if p == delivery.productId then delivery.batchSize else 0
      ensures forall p, day :: Due(shipments, day, p) ==
                Due(old(shipments), day, p)
                + if day == arrivesOn && p == delivery.productId then delivery.batchSize else 0
    {
      ghost var before, bound := shipments, farthest;
      var p := delivery.productId;
      productShipping := productShipping[p := ShippingOf(productShipping, p) + delivery.batchSize];
      shipments := shipments[arrivesOn := DeliveriesOn(shipments, arrivesOn) + [delivery]];
      farthest := if arrivesOn < farthest then farthest else arrivesOn + 1;
      forall day ensures DeliveriesOk(shipments, day, |inventory|, farthest) {
        assert DeliveriesOk(before, day, |inventory|, bound);
      }
      forall q ensures ShippingOf(productShipping, q) == Outstanding(shipments, farthest, q) {
        forall day | day in before ensures day < bound {
          assert DeliveriesOk(before, day, |inventory|, bound);
        }
        OutstandingBound(before, bound, farthest, q);
        OutstandingAdd(before, farthest, arrivesOn, delivery, q);
      }
      forall q, day
        ensures Due(shipments, day, q) ==
                Due(before, day, q) + if day == arrivesOn && q == p then delivery.batchSize else 0
      {
        DueAdd(before, arrivesOn, delivery, q, day);
      }
    }

    // ---- Steps outside orders and stock.

    method AddStep(step: Step)
      requires !IsOrder(step) && |inventory| <= |backorders|
      modifies this`steps, this`inventory, this`backorders, this`pendingOrders
      ensures Abs() == old(Abs()).(steps := old(steps) + [step])
    {
      SubmitPlain(Abs(), currentDay, step);
      var ok := AddSteps([step]);
    }

    // A step that the company can play and that leaves products and inventory alone.
    method AddQuietStep(step: Step, ghost low: int)
      requires DeskOk(Abs(), low, [], [], horizon) && !IsOrder(step)
      requires var r := PlainStep(Company(), step);
               r.error.None? && r.books.inventory == Company().inventory && r.books.products == Company().products
      modifies this`steps, this`inventory, this`backorders, this`pendingOrders
      ensures DeskOk(Abs(), low, [], [], horizon) && Abs() == old(Abs()).(steps := old(steps) + [step])
      ensures Company() == PlainStep(old(Company()), step).books
      ensures !step.AddCustomer? ==> SameKnown(old(steps), steps)
      ensures AllOrderly(Empty(), old(steps)) && Orderly(old(Company()), step) ==> AllOrderly(Empty(), steps)
    {
      if !step.AddCustomer? {
        KnownStays(steps, [step]);
      }
      if AllOrderly(Empty(), steps) && Orderly(Company(), step) {
        OrderlyAppend(Empty(), steps, step);
      }
      PlainKeeps(Abs(), low, horizon, step);
      PlayOne(steps, step);
      AddStep(step);
    }

    // ---- Sessions.

    // The id the next session gets: the day's base, and a counter that never goes back.
    function NextId(): int
      reads this`currentDay, this`nextSession
    {
      nextSession + currentDay * daySpan
    }

    ghost predicate Sessions()
      reads this`steps, this`customerSessions, this`currentDay, this`nextSession, this`collected
    {
      && SessionsOk(steps, customerSessions, NextId(), collected) && collected <= currentDay == Company().day
      && AllOrderly(Empty(), steps)
    }

    // A script that has grown by trade is as good as before.
    lemma Traded(before: Script)
      requires SessionsOk(before, customerSessions, NextId(), collected) && AllOrderly(Empty(), before)
      requires before <= steps && Grown(before, steps, |inventory|) && Play(Empty(), steps).error.None?
      requires var b := Play(Empty(), before).books;
               && Company().sessions == b.sessions && Company().customers == b.customers
               && collected <= currentDay == b.day && currentDay >= 1
               && forall p :: 0 <= p < |inventory| ==> Int(p) in b.products
      ensures Sessions()
    {
      GrownOrderly(before, steps, |inventory|);
      SessionsStay(before, steps, customerSessions, NextId(), NextId(), collected);
    }

    method NextSessionId() returns (id: int)
      modifies this`nextSession
      ensures id == old(NextId()) && NextId() == id + 1
    {
      id := nextSession + currentDay * daySpan;
      nextSession := nextSession + 1;
    }

    // `customer_login`: a session that is still valid is extended, which the company can do because it cannot have
    // collected it; otherwise there is a new one.
    method CustomerLogin(customerId: nat, ghost low: int)
      requires DeskOk(Abs(), low, [], [], horizon) && Sessions() && collected < currentDay
      requires 1 <= customerId <= |customerSessions| && Int(customerId) in Company().customers
      modifies this`steps, this`inventory, this`backorders, this`pendingOrders, this`customerSessions, this`nextSession
      ensures DeskOk(Abs(), low, [], [], horizon) && Sessions() && |customerSessions| == old(|customerSessions|)
      ensures Company() == old(Company()).(sessions := Company().sessions)
      ensures var existing := old(customerSessions[customerId - 1]);
              Abs() == old(Abs()).(steps := old(steps) +
                if existing.Some? && existing.value.expiresOn >= currentDay
                then [UpdateSession(existing.value.(expiresOn := currentDay + LOGIN_EXPIRE_DAYS))]
                else [AddSession(Session(old(NextId()), Some(customerId), currentDay + LOGIN_EXPIRE_DAYS))])
      ensures LogsIn(steps[old(|steps|)], customerId, currentDay)
      ensures var session := steps[old(|steps|)].session;
              customerSessions == old(customerSessions)[customerId - 1 := Some(session)]
      ensures SameKnown(old(steps), steps)
    {
      var existing := customerSessions[customerId - 1];
      if existing.Some? && existing.value.expiresOn >= currentDay {
        ExtendSession(customerId - 1, low);
      } else {
        OpenSession(customerId - 1, low);
      }
    }

    method ExtendSession(c: nat, ghost low: int)
      requires DeskOk(Abs(), low, [], [], horizon) && Sessions() && collected < currentDay
      requires c < |customerSessions| && customerSessions[c].Some? && customerSessions[c].value.expiresOn >= currentDay
      modifies this`steps, this`inventory, this`backorders, this`pendingOrders, this`customerSessions
      ensures DeskOk(Abs(), low, [], [], horizon) && Sessions() && |customerSessions| == old(|customerSessions|)
      ensures Company() == old(Company()).(sessions := Company().sessions)
      ensures var session := old(customerSessions[c]).value.(expiresOn := currentDay + LOGIN_EXPIRE_DAYS);
              session.customerId == Some(c + 1) && Abs() == old(Abs()).(steps := old(steps) + [UpdateSession(session)])
              && customerSessions == old(customerSessions)[c := Some(session)]
      ensures SameKnown(old(steps), steps)
    {
      assert KeptOk(Company(), customerSessions, c, NextId(), collected);
      var until := currentDay + LOGIN_EXPIRE_DAYS;
      var session := customerSessions[c].value.(expiresOn := until);
      ExtendedSession(steps, c, until, customerSessions, NextId(), collected);
      customerSessions := customerSessions[c := Some(session)];
      AddQuietStep(UpdateSession(session), low);
    }

    method OpenSession(c: nat, ghost low: int)
      requires DeskOk(Abs(), low, [], [], horizon) && Sessions()
      requires c < |customerSessions| && Int(c + 1) in Company().customers
      modifies this`steps, this`inventory, this`backorders, this`pendingOrders, this`customerSessions, this`nextSession
      ensures DeskOk(Abs(), low, [], [], horizon) && Sessions() && |customerSessions| == old(|customerSessions|)
      ensures Company() == old(Company()).(sessions := Company().sessions)
      ensures var session := Session(old(NextId()), Some(c + 1), currentDay + LOGIN_EXPIRE_DAYS);
              Abs() == old(Abs()).(steps := old(steps) + [AddSession(session)])
              && customerSessions == old(customerSessions)[c := Some(session)]
      ensures SameKnown(old(steps), steps)
    {
      var id := NextSessionId();
      var session := Session(id, Some(c + 1), currentDay + LOGIN_EXPIRE_DAYS);
      AddedSession(steps, session, customerSessions, id, collected);
      RememberedSession(steps, session, c, customerSessions, id, collected);
      customerSessions := customerSessions[c := Some(session)];
      AddQuietStep(AddSession(session), low);
    }

    // `task_sessions`, for any number of visitors.
    method TaskSessions(visitors: nat, ghost low: int)
      requires DeskOk(Abs(), low, [], [], horizon) && Sessions()
      modifies this`steps, this`inventory, this`backorders, this`pendingOrders, this`nextSession
      ensures DeskOk(Abs(), low, [], [], horizon) && Sessions()
      ensures Abs() == old(Abs()).(steps := old(steps) + VisitorSteps(old(NextId()), visitors, currentDay))
      ensures Company() == old(Company()).(sessions := Company().sessions)
      ensures NextId() == old(NextId()) + visitors && SameKnown(old(steps), steps)
    {
      ghost var start, books, first := Abs(), Company(), NextId();
      NoVisitor(steps, first, currentDay);
      for i := 0 to visitors
        invariant DeskOk(Abs(), low, [], [], horizon) && Sessions() && NextId() == first + i
        invariant Abs() == start.(steps := start.steps + VisitorSteps(first, i, currentDay))
        invariant Company() == books.(sessions := Company().sessions)
        invariant SameKnown(start.steps, steps)
      {
        var id := NextSessionId();
        var session := Session(id, None, currentDay + 3);
        AddedSession(steps, session, customerSessions, id, collected);
        AddQuietStep(AddSession(session), low);
        OneMoreVisitor(start.steps, first, i, currentDay);
      }
    }

    // ---- A day of the simulation.

    // The day starts: nothing that was due before is left.
    method BeginDay()
      requires Ready(currentDay) && Sessions() && currentDay + 1 + MAX_HANDLING < horizon
      modifies this`steps, this`inventory, this`backorders, this`pendingOrders, this`currentDay
      ensures currentDay == old(currentDay) + 1 && Ready(currentDay - 1) && Sessions()
      ensures Abs() == old(Abs()).(steps := old(steps) + [Day(currentDay)]) && SameKnown(old(steps), steps)
    {
      ghost var before, bound := steps, NextId();
      currentDay := currentDay + 1;
      AddQuietStep(Day(currentDay), currentDay - 1);
      assert currentDay * daySpan == (currentDay - 1) * daySpan + daySpan;
      SessionsStay(before, steps, customerSessions, bound, NextId(), collected);
    }

    method RegisterCustomers(newcomers: seq<Customer>)
      requires Ready(currentDay) && Sessions()
      requires forall i :: 0 <= i < |newcomers| ==> newcomers[i].id !in KnownOf(steps).customers
      requires forall i, j :: 0 <= i < j < |newcomers| ==> newcomers[i].id != newcomers[j].id
      modifies this`steps, this`inventory, this`backorders, this`pendingOrders
      ensures Ready(currentDay) && Sessions()
      ensures Abs() == old(Abs()).(steps := old(steps) + Registrations(newcomers))
      ensures KnownOf(steps).placed == old(KnownOf(steps)).placed
      ensures KnownOf(steps).customers == old(KnownOf(steps)).customers + IdsOf(newcomers, |newcomers|)
    {
      ghost var start, known := Abs(), KnownOf(steps);
      for i := 0 to |newcomers|
        invariant Ready(currentDay) && Sessions()
        invariant Abs() == start.(steps := start.steps + Registrations(newcomers)[..i])
        invariant KnownOf(steps).placed == known.placed
        invariant KnownOf(steps).customers == known.customers + IdsOf(newcomers, i)
      {
        NewIdAmong(newcomers, i);
        RegisterCustomer(newcomers[i]);
        OneMoreCustomer(start.steps, newcomers, i);
      }
      assert Registrations(newcomers)[..|newcomers|] == Registrations(newcomers);
    }

    method RegisterCustomer(customer: Customer)
      requires Ready(currentDay) && Sessions() && customer.id !in KnownOf(steps).customers
      modifies this`steps, this`inventory, this`backorders, this`pendingOrders
      ensures Ready(currentDay) && Sessions() && Abs() == old(Abs()).(steps := old(steps) + [AddCustomer(customer)])
      ensures KnownOf(steps).placed == old(KnownOf(steps)).placed
      ensures KnownOf(steps).customers == old(KnownOf(steps)).customers + {customer.id}
    {
      ghost var before := steps;
      assert KnownInSync(Company(), KnownOf(steps), customer.id);
      CustomerLearned(steps, customer);
      AddQuietStep(AddCustomer(customer), currentDay);
      SessionsStay(before, steps, customerSessions, NextId(), NextId(), collected);
    }

    // The customers who visit today log in, each to a valid session.
    method LogIn(logins: seq<nat>)
      requires Ready(currentDay) && Sessions() && collected < currentDay
      requires forall i :: 0 <= i < |logins| ==>
                 1 <= logins[i] <= |customerSessions| && logins[i] in KnownOf(steps).customers
      modifies this`steps, this`inventory, this`backorders, this`pendingOrders, this`customerSessions, this`nextSession
      ensures Ready(currentDay) && Sessions() && |customerSessions| == old(|customerSessions|)
      ensures old(steps) <= steps && Abs() == old(Abs()).(steps := steps) && SameKnown(old(steps), steps)
      ensures AllLogIn(steps[old(|steps|)..], logins, currentDay)
      ensures forall c :: 0 <= c < |customerSessions| ==>
                SessionHeld(old(customerSessions), customerSessions, logins, |logins|, currentDay, c)
    {
      ghost var start := Abs();
      for i := 0 to |logins|
        invariant Ready(currentDay) && Sessions() && |customerSessions| == old(|customerSessions|)
        invariant start.steps <= steps && Abs() == start.(steps := steps) && SameKnown(start.steps, steps)
        invariant AllLogIn(steps[|start.steps|..], logins[..i], currentDay)
        invariant forall c :: 0 <= c < |customerSessions| ==>
                    SessionHeld(old(customerSessions), customerSessions, logins, i, currentDay, c)
      {
        assert KnownInSync(Company(), KnownOf(steps), logins[i]);
        ghost var before, held := steps, customerSessions;
        CustomerLogin(logins[i], currentDay);
        assert steps[|start.steps|..] == before[|start.steps|..] + [steps[|before|]];
        OneMoreLogin(before[|start.steps|..], steps[|before|], logins, i, i + 1, currentDay);
        StillHeld(old(customerSessions), held, customerSessions, logins, i, i + 1, currentDay,
                  steps[|before|].session);
      }
      assert logins[..|logins|] == logins;
    }

    method PlaceOrders(batches: seq<Script>)
      requires Ready(currentDay) && Sessions() && HeadsWait() && currentDay >= 1
      requires FineAll(batches, Cautious(KnownOf(steps)), |inventory|)
      modifies this`steps, this`inventory, this`backorders, this`pendingOrders
      ensures Ready(currentDay) && Sessions() && HeadsWait() && |inventory| == old(|inventory|)
      ensures old(steps) <= steps && Gained(old(steps), steps, Joined(batches))
      ensures KnownOf(steps).placed == LearnBatches(old(Cautious(KnownOf(steps))), batches).placed
      ensures KnownOf(steps).customers == old(KnownOf(steps)).customers
    {
      ghost var k, done: Script := Cautious(KnownOf(steps)), [];
      TakenIsPlaced(Abs(), currentDay, horizon);
      GainedByAppending(steps, []);
      assert steps + [] == steps;
      for i := 0 to |batches|
        invariant Ready(currentDay) && Sessions() && HeadsWait() && |inventory| == old(|inventory|)
        invariant old(steps) <= steps && Gained(old(steps), steps, done)
        invariant done + Joined(batches[i..]) == Joined(batches)
        invariant KnownOf(steps).placed == k.placed <= k.taken && KnownOf(steps).taken <= k.taken
        invariant KnownOf(steps).customers == k.customers == old(KnownOf(steps)).customers
        invariant FineAll(batches[i..], k, |inventory|)
        invariant LearnBatches(k, batches[i..]) == LearnBatches(old(Cautious(KnownOf(steps))), batches)
      {
        assert batches[i..][0] == batches[i] && batches[i..][1..] == batches[i + 1..];
        ghost var before := steps;
        k := PlaceBatch(batches[i], k);
        GainedTwice(old(steps), before, steps, done, batches[i]);
        JoinedNext(done, batches, i);
        done := done + batches[i];
      }
      assert batches[|batches|..] == [] && done + [] == done;
    }

    method PlaceBatch(batch: Script, ghost k: Known) returns (ghost k': Known)
      requires Ready(currentDay) && Sessions() && HeadsWait() && currentDay >= 1 && Fine(batch, k, |inventory|)
      requires forall i :: 0 <= i < |batch| ==> Ordinary(batch[i])
      requires KnownOf(steps).placed == k.placed && KnownOf(steps).taken <= k.taken
      requires KnownOf(steps).customers == k.customers && k.placed <= k.taken
      modifies this`steps, this`inventory, this`backorders, this`pendingOrders
      ensures k' == LearnAll(k, batch) && k'.placed <= k'.taken && k'.customers == k.customers
      ensures Ready(currentDay) && Sessions() && HeadsWait() && |inventory| == old(|inventory|)
      ensures old(steps) <= steps && Gained(old(steps), steps, batch)
      ensures KnownOf(steps).placed == k'.placed && KnownOf(steps).taken <= k'.taken
      ensures KnownOf(steps).customers == k'.customers
    {
      ghost var before := steps;
      FineAnyway(batch, k, KnownOf(steps), |inventory|);
      ProductsKnown(Abs(), currentDay, [], [], horizon);
      TaskPurchases(batch);
      Traded(before);
      k' := LearnAll(k, batch);
      LearnsNoCustomer(k, batch);
      PlacedIsTaken(k, batch);
      TakenIsPlaced(Abs(), currentDay, horizon);
    }

    // The day ends: expired sessions are collected, and every stock is checked.
    method EndDay()
      requires Ready(currentDay) && Sessions() && currentDay >= 1
      modifies this`steps, this`inventory, this`backorders, this`pendingOrders, this`collected
      ensures Ready(currentDay) && Sessions() && collected == currentDay
      ensures Abs() == old(Abs()).(steps := old(steps) + [CollectSessions] + ChecksOf(inventory))
      ensures SameKnown(old(steps), steps)
    {
      Collect();
      ghost var before := steps;
      ProductsKnown(Abs(), currentDay, [], [], horizon);
      LogProgress();
      Traded(before);
    }

    method Collect()
      requires Ready(currentDay) && Sessions()
      modifies this`steps, this`inventory, this`backorders, this`pendingOrders, this`collected
      ensures Ready(currentDay) && Sessions() && collected == currentDay
      ensures Abs() == old(Abs()).(steps := old(steps) + [CollectSessions]) && SameKnown(old(steps), steps)
    {
      CollectedSessions(steps, customerSessions, NextId(), collected);
      AddQuietStep(CollectSessions, currentDay);
      collected := currentDay;
    }

    // `init_products`: every product with an empty inventory record and an empty backorder queue.
    method InitProducts(products: seq<Product>, handling: seq<nat>)
      requires Ready(0) && Sessions() && ShippingOk() && currentDay == 0 && steps == [Title] && inventory == []
      requires pendingOrders == map[] && |handling| == |products|
      requires forall i :: 0 <= i < |products| ==> products[i].id == i && handling[i] <= MAX_HANDLING
      modifies this`steps, this`inventory, this`backorders, this`pendingOrders
      ensures Ready(0) && Sessions() && ShippingOk() && |inventory| == |products| && SameKnown(old(steps), steps)
      ensures steps == [Title] + ProductSteps(products, handling, |products|)
      ensures backorders == seq(|products|, _ => []) && pendingOrders == map[]
      ensures forall p :: 0 <= p < |products| ==> inventory[p] == InventoryRecord(p, 0, handling[p])
    {
      backorders := seq(|products|, _ => []);
      PlayTitle();
      for id := 0 to |products|
        invariant Stocking(products, handling, id)
      {
        InitNext(products, handling, id);
      }
      assert backorders[..|products|] == backorders;
      MoreProducts();
    }

    // The first `id` products have their records.
    ghost predicate Stocking(products: seq<Product>, handling: seq<nat>, id: nat)
      requires id <= |products| == |handling|
      reads this
    {
      && |inventory| == id && |backorders| == |products| && pendingOrders == map[]
      && (forall p :: 0 <= p < |products| ==> backorders[p] == [])
      && steps == [Title] + ProductSteps(products, handling, id)
      && (forall p :: 0 <= p < id ==> inventory[p] == InventoryRecord(p, 0, handling[p]))
      && DeskOk(Desk(steps, inventory, backorders[..id], pendingOrders), 0, [], [], horizon)
      && NoProductsFrom(Company(), id) && Sessions() && SameKnown([Title], steps) && currentDay == 0
    }

    method InitNext(products: seq<Product>, handling: seq<nat>, id: nat)
      requires id < |products| == |handling| && Stocking(products, handling, id)
      requires forall i :: 0 <= i < |products| ==> products[i].id == i && handling[i] <= MAX_HANDLING
      modifies this`steps, this`inventory, this`backorders, this`pendingOrders
      ensures Stocking(products, handling, id + 1)
    {
      OneMoreProduct(products, handling, id);
      OneMoreQueue(id);
      InitProduct(products[id], InventoryRecord(id, 0, handling[id]));
    }

    lemma OneMoreQueue(id: nat)
      requires id < |backorders| && backorders[id] == []
      ensures backorders[..id + 1] == backorders[..id] + [[]]
    {
    }

    // Deliveries for no product at all are deliveries for more products.
    lemma MoreProducts()
      requires forall day :: DeliveriesOk(shipments, day, 0, farthest)
      ensures forall day :: DeliveriesOk(shipments, day, |inventory|, farthest)
    {
      forall day ensures DeliveriesOk(shipments, day, |inventory|, farthest) {
        assert DeliveriesOk(shipments, day, 0, farthest);
      }
    }

    lemma PlayTitle()
      requires steps == [Title]
      ensures Company() == Empty()
    {
      assert [Step.Title][1..] == [];
    }

    method InitProduct(product: Product, record: InventoryRecord)
      requires product.id == record.productId == |inventory| < |backorders| && record.stock >= 0
      requires var d := Desk(steps, inventory, backorders[..|inventory|], pendingOrders);
               DeskOk(d, 0, [], [], horizon) && NoProductsFrom(Company(), |inventory|)
      requires record.handlingDays <= MAX_HANDLING && record.handlingDays >= 0
      requires Sessions() && currentDay == 0
      modifies this`steps, this`inventory, this`backorders, this`pendingOrders
      ensures inventory == old(inventory) + [record] && backorders == old(backorders)
      ensures pendingOrders == old(pendingOrders)
      ensures steps == old(steps) + [AddProduct(product)] + [AddInventoryRecord(record)]
      ensures DeskOk(Desk(steps, inventory, backorders[..|inventory| - 1] + [[]], pendingOrders), 0, [], [], horizon)
      ensures NoProductsFrom(Company(), |inventory|) && Sessions() && SameKnown(old(steps), steps)
    {
      ghost var before, d := steps, Desk(steps, inventory, backorders[..|inventory|], pendingOrders);
      ProductKeeps(d, 0, horizon, product, record);
      AddStep(AddProduct(product));
      ghost var middle := steps;
      inventory := inventory + [record];
      AddStep(AddInventoryRecord(record));
      PlayAppend(Empty(), middle, [AddInventoryRecord(record)]);
      OrderlyAppend(Empty(), before, AddProduct(product));
      OrderlyAppend(Empty(), middle, AddInventoryRecord(record));
      SessionsStay(before, steps, customerSessions, NextId(), NextId(), collected);
    }

    // ---- The day, in the order of its phases.

    method Morning(visitors: nat, workers: nat) returns (ghost arrivals: Script, ghost shipped: Script)
      requires Ready(currentDay) && Sessions() && ShippingOk() && HeadsWait() && workers >= 1
      requires currentDay + 1 + MAX_HANDLING < horizon
      modifies this`steps, this`inventory, this`backorders, this`pendingOrders, this`currentDay, this`nextSession,
               this`shipments, this`productShipping
      ensures currentDay == old(currentDay) + 1 && Ready(currentDay) && Sessions() && ShippingOk() && HeadsWait()
      ensures |inventory| == old(|inventory|) && SameKnown(old(steps), steps)
      ensures currentDay !in pendingOrders && shipments == old(shipments) - {currentDay}
      ensures forall p :: ShippingOf(productShipping, p) ==
                          ShippingOf(old(productShipping), p) - Due(old(shipments), currentDay, p)
      ensures steps == old(steps) + [Day(currentDay)] + VisitorSteps(FirstId(old(nextSession)), visitors, currentDay)
                       + arrivals + shipped
      ensures Gained([], arrivals, DeliverySteps(DeliveriesOn(old(shipments), currentDay))) && AllShipped(shipped)
    {
      OpenDay(visitors);
      arrivals := Replenish();
      shipped := Fulfill(workers);
    }

    method OpenDay(visitors: nat)
      requires Ready(currentDay) && Sessions() && HeadsWait() && currentDay + 1 + MAX_HANDLING < horizon
      modifies this`steps, this`inventory, this`backorders, this`pendingOrders, this`currentDay, this`nextSession
      ensures currentDay == old(currentDay) + 1 && Ready(currentDay - 1) && Sessions() && HeadsWait()
      ensures inventory == old(inventory) && SameKnown(old(steps), steps)
      ensures steps == old(steps) + [Day(currentDay)] + VisitorSteps(FirstId(old(nextSession)), visitors, currentDay)
    {
      ghost var before := steps;
      BeginDay();
      TaskSessions(visitors, currentDay - 1);
      StillWait(before);
    }

    // The id of the day's first session.
    function FirstId(counter: nat): int
      reads this`currentDay
    {
      counter + currentDay * daySpan
    }

    method Replenish() returns (ghost arrivals: Script)
      requires currentDay >= 1 && Ready(currentDay - 1) && Sessions() && ShippingOk() && HeadsWait()
      modifies this`steps, this`inventory, this`backorders, this`pendingOrders, this`shipments, this`productShipping
      ensures Ready(currentDay - 1) && Sessions() && ShippingOk() && HeadsWait()
      ensures |inventory| == old(|inventory|) && SameKnown(old(steps), steps)
      ensures shipments == old(shipments) - {currentDay}
      ensures forall p :: ShippingOf(productShipping, p) ==
                          ShippingOf(old(productShipping), p) - Due(old(shipments), currentDay, p)
      ensures steps == old(steps) + arrivals
      ensures Gained([], arrivals, DeliverySteps(DeliveriesOn(old(shipments), currentDay)))
    {
      ghost var before, deliveries := steps, DeliveriesOn(shipments, currentDay);
      TakeDeliveries(deliveries);
      GainedSince(before, steps, DeliverySteps(deliveries));
      arrivals := steps[|before|..];
    }

    method TakeDeliveries(ghost deliveries: seq<Delivery>)
      requires currentDay >= 1 && Ready(currentDay - 1) && Sessions() && ShippingOk() && HeadsWait()
      requires deliveries == DeliveriesOn(shipments, currentDay)
      modifies this`steps, this`inventory, this`backorders, this`pendingOrders, this`shipments, this`productShipping
      ensures Ready(currentDay - 1) && Sessions() && ShippingOk() && HeadsWait()
      ensures |inventory| == old(|inventory|) && SameKnown(old(steps), steps)
      ensures shipments == old(shipments) - {currentDay}
      ensures forall p :: ShippingOf(productShipping, p) ==
                          ShippingOf(old(productShipping), p) - Due(old(shipments), currentDay, p)
      ensures old(steps) <= steps && Gained(old(steps), steps, DeliverySteps(deliveries))
    {
      ghost var before := steps;
      ProductsKnown(Abs(), currentDay - 1, [], [], horizon);
      ReplenishInventory();
      Traded(before);
    }

    method Fulfill(workers: nat) returns (ghost shipped: Script)
      requires currentDay >= 1 && Ready(currentDay - 1) && Sessions() && HeadsWait() && workers >= 1
      modifies this`steps, this`inventory, this`backorders, this`pendingOrders
      ensures Ready(currentDay) && Sessions() && HeadsWait() && currentDay !in pendingOrders
      ensures inventory == old(inventory) && SameKnown(old(steps), steps)
      ensures steps == old(steps) + shipped && AllShipped(shipped)
    {
      ghost var before := steps;
      ProductsKnown(Abs(), currentDay - 1, [], [], horizon);
      FulfillPending(workers);
      Traded(before);
      StillWait(before);
      shipped := steps[|before|..];
    }

    method Midday(plan: DayPlan, ghost k: Known) returns (ghost logins: Script, ghost purchases: Script)
      requires Ready(currentDay) && Sessions() && HeadsWait() && collected < currentDay && currentDay >= 1
      requires k == KnownOf(steps) && PlanOk(plan, k, |inventory|, |customerSessions|)
      modifies this`steps, this`inventory, this`backorders, this`pendingOrders, this`nextSession, this`customerSessions
      ensures Ready(currentDay) && Sessions() && HeadsWait()
      ensures |inventory| == old(|inventory|) && |customerSessions| == old(|customerSessions|)
      ensures KnownOf(steps).placed == LearnPlan(k, plan).placed
      ensures KnownOf(steps).customers == LearnPlan(k, plan).customers
      ensures steps == old(steps) + Registrations(plan.newcomers) + Refunds(plan.returned) + logins + purchases
      ensures AllLogIn(logins, plan.logins, currentDay) && Gained([], purchases, Joined(plan.purchases))
    {
      Welcome(plan.newcomers, plan.returned);
      logins := Visit(plan.logins);
      assert Cautious(KnownOf(steps)) ==
             Known(k.placed, k.placed, k.customers + IdsOf(plan.newcomers, |plan.newcomers|));
      purchases := Buy(plan.purchases);
    }

    method Visit(logins: seq<nat>) returns (ghost added: Script)
      requires Ready(currentDay) && Sessions() && HeadsWait() && collected < currentDay
      requires forall i :: 0 <= i < |logins| ==>
                 1 <= logins[i] <= |customerSessions| && logins[i] in KnownOf(steps).customers
      modifies this`steps, this`inventory, this`backorders, this`pendingOrders, this`customerSessions, this`nextSession
      ensures Ready(currentDay) && Sessions() && HeadsWait() && |customerSessions| == old(|customerSessions|)
      ensures inventory == old(inventory) && SameKnown(old(steps), steps)
      ensures steps == old(steps) + added && AllLogIn(added, logins, currentDay)
    {
      ghost var before := steps;
      LogIn(logins);
      StillWait(before);
      added := steps[|before|..];
    }

    method Buy(batches: seq<Script>) returns (ghost added: Script)
      requires Ready(currentDay) && Sessions() && HeadsWait() && currentDay >= 1
      requires FineAll(batches, Cautious(KnownOf(steps)), |inventory|)
      modifies this`steps, this`inventory, this`backorders, this`pendingOrders
      ensures Ready(currentDay) && Sessions() && HeadsWait() && |inventory| == old(|inventory|)
      ensures KnownOf(steps).placed == LearnBatches(old(Cautious(KnownOf(steps))), batches).placed
      ensures KnownOf(steps).customers == old(KnownOf(steps)).customers
      ensures steps == old(steps) + added && Gained([], added, Joined(batches))
    {
      ghost var before := steps;
      PlaceOrders(batches);
      GainedSince(before, steps, Joined(batches));
      added := steps[|before|..];
    }

    method Welcome(newcomers: seq<Customer>, returned: seq<Order>)
      requires Ready(currentDay) && Sessions() && HeadsWait() && currentDay >= 1
      requires forall i :: 0 <= i < |newcomers| ==> newcomers[i].id !in KnownOf(steps).customers
      requires forall i, j :: 0 <= i < j < |newcomers| ==> newcomers[i].id != newcomers[j].id
      requires forall i :: 0 <= i < |returned| ==> returned[i].id in KnownOf(steps).placed && returned[i].quantity >= 0
      modifies this`steps, this`inventory, this`backorders, this`pendingOrders
      ensures Ready(currentDay) && Sessions() && HeadsWait() && inventory == old(inventory)
      ensures steps == old(steps) + Registrations(newcomers) + Refunds(returned)
      ensures KnownOf(steps).placed == old(KnownOf(steps)).placed
      ensures KnownOf(steps).customers == old(KnownOf(steps)).customers + IdsOf(newcomers, |newcomers|)
    {
      ghost var before := steps;
      RegisterCustomers(newcomers);
      Returns(returned);
      StillWait(before);
    }

    method Returns(returned: seq<Order>)
      requires Ready(currentDay) && Sessions() && currentDay >= 1
      requires forall i :: 0 <= i < |returned| ==> returned[i].id in KnownOf(steps).placed && returned[i].quantity >= 0
      modifies this`steps, this`inventory, this`backorders, this`pendingOrders
      ensures Ready(currentDay) && Sessions() && inventory == old(inventory) && backorders == old(backorders)
      ensures steps == old(steps) + Refunds(returned) && SameKnown(old(steps), steps)
    {
      ghost var before := steps;
      ProductsKnown(Abs(), currentDay, [], [], horizon);
      TaskReturns(returned);
      Traded(before);
    }

    method Evening(estimates: seq<int>, delays: seq<nat>)
      requires Ready(currentDay) && Sessions() && ShippingOk() && HeadsWait() && currentDay >= 1
      requires |estimates| == |delays| == |inventory|
      modifies this`steps, this`inventory, this`backorders, this`pendingOrders, this`collected,
               this`shipments, this`productShipping, this`farthest
      ensures Ready(currentDay) && Sessions() && ShippingOk() && HeadsWait() && collected == currentDay
      ensures Abs() == old(Abs()).(steps := old(steps) + [CollectSessions] + ChecksOf(inventory))
      ensures SameKnown(old(steps), steps)
      ensures forall p :: 0 <= p < |inventory| ==>
                Suits(false, estimates[p], inventory[p].stock, ShippingOf(old(productShipping), p),
                      ShippingOf(productShipping, p))
      ensures AllArrive(old(shipments), shipments, old(productShipping), productShipping, false, currentDay, delays)
    {
      ghost var before := steps;
      ProductsKnown(Abs(), currentDay, [], [], horizon);
      OrderShipments(false, estimates, delays);
      EndDay();
      StillWait(before);
    }

    method Daytime(plan: DayPlan)
      returns (ghost arrivals: Script, ghost shipped: Script, ghost logins: Script, ghost purchases: Script)
      requires Ready(currentDay) && Sessions() && ShippingOk() && HeadsWait()
      requires currentDay + 1 + MAX_HANDLING < horizon
      requires PlanOk(plan, KnownOf(steps), |inventory|, |customerSessions|)
      modifies this`steps, this`inventory, this`backorders, this`pendingOrders, this`currentDay, this`nextSession,
               this`customerSessions, this`shipments, this`productShipping
      ensures currentDay == old(currentDay) + 1 && Ready(currentDay) && Sessions() && ShippingOk() && HeadsWait()
      ensures |inventory| == old(|inventory|) && |customerSessions| == old(|customerSessions|)
      ensures KnownOf(steps).placed == LearnPlan(old(KnownOf(steps)), plan).placed
      ensures KnownOf(steps).customers == LearnPlan(old(KnownOf(steps)), plan).customers
      ensures shipments == old(shipments) - {currentDay}
      ensures forall p :: ShippingOf(productShipping, p) ==
                          ShippingOf(old(productShipping), p) - Due(old(shipments), currentDay, p)
      ensures steps == old(steps) + [Day(currentDay)]
                       + VisitorSteps(FirstId(old(nextSession)), plan.visitors, currentDay) + arrivals + shipped
                       + Registrations(plan.newcomers) + Refunds(plan.returned) + logins + purchases
      ensures Gained([], arrivals, DeliverySteps(DeliveriesOn(old(shipments), currentDay))) && AllShipped(shipped)
      ensures AllLogIn(logins, plan.logins, currentDay) && Gained([], purchases, Joined(plan.purchases))
    {
      ghost var known, products := KnownOf(steps), |inventory|;
      arrivals, shipped := Morning(plan.visitors, plan.workers);
      PlanSuffices(plan, known, KnownOf(steps), products, |customerSessions|);
      logins, purchases := Midday(plan, KnownOf(steps));
      assert |inventory| == products;
    }

    // One turn of the loop in `direct`, for any sampled quantities: the script grows by the steps of the plan, phase by
    // phase, and ends with a check of every stock; the day's deliveries have arrived, and goods are ordered as the
    // estimates ask.
    method SimulateDay(plan: DayPlan) returns (ghost parts: DayParts)
      requires Ready(currentDay) && Sessions() && ShippingOk() && HeadsWait()
      requires currentDay + 1 + MAX_HANDLING < horizon
      requires PlanOk(plan, KnownOf(steps), |inventory|, |customerSessions|)
      modifies this
      ensures currentDay == old(currentDay) + 1 && Ready(currentDay) && Sessions() && ShippingOk() && HeadsWait()
      ensures |inventory| == old(|inventory|) && |customerSessions| == old(|customerSessions|)
      ensures KnownOf(steps).placed == LearnPlan(old(KnownOf(steps)), plan).placed
      ensures KnownOf(steps).customers == LearnPlan(old(KnownOf(steps)), plan).customers
      ensures steps == old(steps) + WholeDay(currentDay, parts)
      ensures Follows(parts, plan, currentDay, FirstId(old(nextSession)), DeliveriesOn(old(shipments), currentDay),
                      inventory)
      ensures forall p :: 0 <= p < |inventory| && plan.estimates[p] > 0 ==>
                Covered(false, plan.estimates[p], inventory[p].stock, ShippingOf(productShipping, p))
      ensures AllShippedOn(old(shipments), shipments, old(productShipping), productShipping, currentDay, plan.delays)
    {
      ghost var start, before, shipping := steps, shipments, productShipping;
      ghost var arrivals, shipped, logins, purchases := Daytime(plan);
      ghost var first, morning, middle := FirstId(old(nextSession)), shipments, productShipping;
      Evening(plan.estimates, plan.delays);
      parts := DayParts(VisitorSteps(first, plan.visitors, currentDay), arrivals, shipped,
                        Registrations(plan.newcomers), Refunds(plan.returned), logins, purchases,
                        ChecksOf(inventory));
      PartsJoin(start, currentDay, parts);
      DayGoesBy(before, morning, shipments, shipping, middle, productShipping, currentDay, plan.delays);
    }

    // `direct`: the script of a whole period, for any sampled quantities.  The company that plays it never fails, so
    // every stock check passes, and there is one for each product on each day; no order is refused for want of stock;
    // the script is orderly, and but for deliveries it amounts to what was planned.
    method Direct(products: seq<Product>, handling: seq<nat>, founders: seq<Customer>, estimates: seq<int>,
                  plans: seq<DayPlan>)
      requires Ready(0) && Sessions() && ShippingOk() && currentDay == 0 && steps == [] && inventory == []
      requires pendingOrders == map[] && backorders == [] && |plans| + MAX_HANDLING < horizon
      requires shipments == map[] && productShipping == map[]
      requires |handling| == |products| == |estimates|
      requires forall i :: 0 <= i < |products| ==> products[i].id == i && handling[i] <= MAX_HANDLING
      requires forall i, j :: 0 <= i < j < |founders| ==> founders[i].id != founders[j].id
      requires PlansOk(plans, Known({}, {}, IdsOf(founders, |founders|)), |products|, |customerSessions|)
      modifies this
      ensures currentDay == |plans| && Ready(currentDay) && Sessions() && ShippingOk() && |inventory| == |products|
      ensures Play(Empty(), steps).error.None? && AllOrderly(Empty(), steps) && Seated(steps) && Lasting(steps)
      ensures Company().checks == |plans| * |products| && HeadsWait()
      ensures Beginning(products, handling, founders) <= steps
      ensures AllAsPlanned(steps, Beginning(products, handling, founders), PlannedDays(plans, |plans|, |products|))
    {
      Prologue(products, handling, founders, estimates);
      ghost var beginning := steps;
      Starts(plans, Known({}, {}, IdsOf(founders, |founders|)));
      ChecksAdded(products, handling, founders);
      for day := 0 to |plans|
        invariant OnSchedule(plans, day, beginning) && |inventory| == |products|
      {
        NextDay(plans, day, beginning);
      }
      AllChecked(plans, beginning);
    }

    lemma Starts(plans: seq<DayPlan>, k: Known)
      requires Ready(0) && Sessions() && ShippingOk() && HeadsWait() && currentDay == 0
      requires PlansOk(plans, k, |inventory|, |customerSessions|)
      requires KnownOf(steps).placed == k.placed && KnownOf(steps).customers == k.customers
      ensures OnSchedule(plans, 0, steps)
    {
      KnownSuffices(plans, k, KnownOf(steps), |inventory|, |customerSessions|);
      NothingPlanned(steps, plans, |inventory|);
    }

    // The first `day` days have been written as planned.
    ghost predicate OnSchedule(plans: seq<DayPlan>, day: nat, beginning: Script)
      requires day <= |plans|
      reads this
    {
      && currentDay == day && Ready(day) && Sessions() && ShippingOk() && HeadsWait() && beginning <= steps
      && PlansOk(plans[day..], KnownOf(steps), |inventory|, |customerSessions|)
      && AllAsPlanned(steps, beginning, PlannedDays(plans, day, |inventory|))
      && Total(PlannedDays(plans, day, |inventory|), AllChecks) == day * |inventory|
    }

    method NextDay(plans: seq<DayPlan>, day: nat, ghost beginning: Script)
      requires day < |plans| && OnSchedule(plans, day, beginning) && |plans| + MAX_HANDLING < horizon
      modifies this
      ensures OnSchedule(plans, day + 1, beginning) && |inventory| == old(|inventory|)
    {
      ghost var k, capacity := KnownOf(steps), |customerSessions|;
      NextPlanned(plans, day, k, |inventory|, capacity);
      WriteDay(plans, beginning);
      KnownSuffices(plans[day + 1..], LearnPlan(k, plans[day]), KnownOf(steps), |inventory|, capacity);
    }

    method WriteDay(plans: seq<DayPlan>, ghost beginning: Script)
      requires currentDay < |plans| && |plans| + MAX_HANDLING < horizon
      requires Ready(currentDay) && Sessions() && ShippingOk() && HeadsWait() && beginning <= steps
      requires PlanOk(plans[currentDay], KnownOf(steps), |inventory|, |customerSessions|)
      requires AllAsPlanned(steps, beginning, PlannedDays(plans, currentDay, |inventory|))
      modifies this
      ensures currentDay == old(currentDay) + 1 && Ready(currentDay) && Sessions() && ShippingOk() && HeadsWait()
      ensures |inventory| == old(|inventory|) && |customerSessions| == old(|customerSessions|)
      ensures KnownOf(steps).placed == LearnPlan(old(KnownOf(steps)), plans[currentDay - 1]).placed
      ensures KnownOf(steps).customers == LearnPlan(old(KnownOf(steps)), plans[currentDay - 1]).customers
      ensures beginning <= steps && AllAsPlanned(steps, beginning, PlannedDays(plans, currentDay, |inventory|))
    {
      ghost var before, shipped, counter := steps, shipments, nextSession;
      ghost var parts := SimulateDay(plans[currentDay]);
      Numbered();
      DayDone(before, beginning, plans, parts, FirstId(counter), DeliveriesOn(shipped, currentDay));
    }

    lemma AllChecked(plans: seq<DayPlan>, beginning: Script)
      requires OnSchedule(plans, |plans|, beginning) && Total(beginning, AllChecks) == 0
      ensures Company().checks == |plans| * |inventory|
    {
      assert steps[..|steps|] == steps;
      ChecksCounted(steps, |steps|);
      assert AsPlanned(steps, beginning, PlannedDays(plans, |plans|, |inventory|), AllChecks);
    }

    lemma DayDone(before: Script, beginning: Script, plans: seq<DayPlan>, parts: DayParts, first: int,
                  due: seq<Delivery>)
      requires 1 <= currentDay <= |plans| && steps == before + WholeDay(currentDay, parts)
      requires forall p :: 0 <= p < |inventory| ==> inventory[p].productId == p
      requires Follows(parts, plans[currentDay - 1], currentDay, first, due, inventory)
      requires AllAsPlanned(before, beginning, PlannedDays(plans, currentDay - 1, |inventory|))
      requires beginning <= before
      ensures AllAsPlanned(steps, beginning, PlannedDays(plans, currentDay, |inventory|)) && beginning <= steps
    {
      AllDayAdded(before, steps, beginning, plans, currentDay, parts, first, due, inventory);
    }

    lemma Numbered()
      requires Ready(currentDay)
      ensures forall p :: 0 <= p < |inventory| ==> inventory[p].productId == p
    {
      forall p | 0 <= p < |inventory| ensures inventory[p].productId == p {
        assert RecordInSync(Company(), inventory, Ahead([], p), p);
      }
    }

    // Before the first day: the title, the products, the first customers and the first shipments.
    method Prologue(products: seq<Product>, handling: seq<nat>, founders: seq<Customer>, estimates: seq<int>)
      requires Ready(0) && Sessions() && ShippingOk() && currentDay == 0 && steps == [] && inventory == []
      requires pendingOrders == map[] && backorders == [] && |handling| == |products| == |estimates|
      requires shipments == map[] && productShipping == map[]
      requires forall i :: 0 <= i < |products| ==> products[i].id == i && handling[i] <= MAX_HANDLING
      requires forall i, j :: 0 <= i < j < |founders| ==> founders[i].id != founders[j].id
      modifies this`steps, this`inventory, this`backorders, this`pendingOrders, this`shipments, this`productShipping,
               this`farthest
      ensures Ready(0) && Sessions() && ShippingOk() && HeadsWait() && |inventory| == |products|
      ensures steps == Beginning(products, handling, founders)
      ensures KnownOf(steps).placed == {} && KnownOf(steps).customers == IdsOf(founders, |founders|)
      ensures forall p :: 0 <= p < |inventory| && estimates[p] > 0 ==>
                Covered(true, estimates[p], 0, ShippingOf(productShipping, p))
      ensures forall p: nat, day :: FirstShipped(shipments, productShipping, |inventory|, p, day)
    {
      EmptyDesk(horizon);
      Found(products, handling, founders);
      FirstOrders(estimates);
    }

    method Found(products: seq<Product>, handling: seq<nat>, founders: seq<Customer>)
      requires Ready(0) && Sessions() && ShippingOk() && currentDay == 0 && steps == [] && inventory == []
      requires pendingOrders == map[] && |handling| == |products| && KnownOf([]) == Known({}, {}, {})
      requires forall i :: 0 <= i < |products| ==> products[i].id == i && handling[i] <= MAX_HANDLING
      requires forall i, j :: 0 <= i < j < |founders| ==> founders[i].id != founders[j].id
      modifies this`steps, this`inventory, this`backorders, this`pendingOrders
      ensures Ready(0) && Sessions() && ShippingOk() && HeadsWait() && |inventory| == |products|
      ensures steps == Beginning(products, handling, founders)
      ensures KnownOf(steps).placed == {} && KnownOf(steps).customers == IdsOf(founders, |founders|)
      ensures forall p :: 0 <= p < |inventory| ==> inventory[p].stock == 0
    {
      WriteTitle();
      InitProducts(products, handling);
      RegisterCustomers(founders);
    }

    method FirstOrders(estimates: seq<int>)
      requires ShippingOk() && |estimates| == |inventory| && currentDay == 0
      requires forall p :: 0 <= p < |inventory| ==> inventory[p].stock == 0
      requires shipments == map[] && productShipping == map[]
      modifies this`shipments, this`productShipping, this`farthest
      ensures ShippingOk()
      ensures forall p :: 0 <= p < |inventory| && estimates[p] > 0 ==>
                Covered(true, estimates[p], 0, ShippingOf(productShipping, p))
      ensures forall p: nat, day :: FirstShipped(shipments, productShipping, |inventory|, p, day)
    {
      ghost var before, shipping := shipments, productShipping;
      var delays: seq<nat> := seq(|estimates|, _ => 0);
      OrderShipments(true, estimates, delays);
      forall p: nat, day ensures FirstShipped(shipments, productShipping, |inventory|, p, day) {
        assert OrdersArrive(before, shipments, shipping, productShipping, true, 0, delays, p, day);
      }
    }

    method WriteTitle()
      requires Ready(0) && Sessions() && currentDay == 0 && steps == []
      modifies this`steps, this`inventory, this`backorders, this`pendingOrders
      ensures Ready(0) && Sessions() && Abs() == old(Abs()).(steps := [Title]) && SameKnown(old(steps), steps)
    {
      AddQuietStep(Title, 0);
      SessionsStay([], steps, customerSessions, NextId(), NextId(), collected);
    }
  }

  lemma ChunksJoin(all: Script, from: nat, to: nat)
    requires from <= to <= |all|
    ensures all[from..] == all[from..to] + all[to..] && all[..from] + all[from..to] == all[..to]
  {
  }
}
