/** Shipments under way: what is due to arrive on which day, and what of it is outstanding. */
module Shipments {
  import opened Company
  import opened Totals

  datatype Delivery = Delivery(productId: int, batchSize: int)

  // ---- Outstanding shipments, by product.

  function BatchesFor(deliveries: seq<Delivery>, n: nat, p: int): int
    requires n <= |deliveries|
  {
    if n == 0 then 0
    else BatchesFor(deliveries, n - 1, p) + if deliveries[n - 1].productId == p then deliveries[n - 1].batchSize else 0
  }

  function DeliveriesOn(shipments: map<int, seq<Delivery>>, day: int): seq<Delivery> {
    if day in shipments then shipments[day] else []
  }

  // What is due to arrive for product `p` before day `n`.
  function Outstanding(shipments: map<int, seq<Delivery>>, n: nat, p: int): int {
    if n == 0 then 0
    else
      var deliveries := DeliveriesOn(shipments, n - 1);
      Outstanding(shipments, n - 1, p) + BatchesFor(deliveries, |deliveries|, p)
  }

  lemma {:induction false} BatchesGrow(a: seq<Delivery>, b: seq<Delivery>, n: nat, p: int)
    requires n <= |a|
    ensures BatchesFor(a + b, n, p) == BatchesFor(a, n, p)
  {
    if n > 0 {
      BatchesGrow(a, b, n - 1, p);
    }
  }

  lemma {:induction false} OutstandingAdd(shipments: map<int, seq<Delivery>>, n: nat, day: nat, e: Delivery, p: int)
    ensures Outstanding(shipments[day := DeliveriesOn(shipments, day) + [e]], n, p) ==
            Outstanding(shipments, n, p) + if day < n && e.productId == p then e.batchSize else 0
  {
    if n > 0 {
      OutstandingAdd(shipments, n - 1, day, e, p);
      var deliveries := DeliveriesOn(shipments, day);
      BatchesGrow(deliveries, [e], |deliveries|, p);
    }
  }

  lemma {:induction false} OutstandingRemove(shipments: map<int, seq<Delivery>>, n: nat, day: nat, p: int)
    ensures var deliveries := DeliveriesOn(shipments, day);
            Outstanding(shipments - {day}, n, p) ==
            Outstanding(shipments, n, p) - if day < n then BatchesFor(deliveries, |deliveries|, p) else 0
  {
    if n > 0 {
      OutstandingRemove(shipments, n - 1, day, p);
    }
  }

  // Nothing is due from day `m` on, so a later bound finds no more.
  lemma {:induction false} OutstandingBound(shipments: map<int, seq<Delivery>>, m: nat, n: nat, p: int)
    requires m <= n && forall day :: day in shipments ==> day < m
    ensures Outstanding(shipments, n, p) == Outstanding(shipments, m, p)
  {
    if m < n {
      OutstandingBound(shipments, m, n - 1, p);
    }
  }

  // Deliveries are for known products and bring something.
  predicate DeliveriesOk(shipments: map<int, seq<Delivery>>, day: int, products: nat, bound: nat) {
    day in shipments ==>
      && 0 <= day < bound
      && forall j :: 0 <= j < |shipments[day]| ==>
           0 <= shipments[day][j].productId < products && shipments[day][j].batchSize > 0
  }

  function ShippingOf(shipping: map<int, int>, p: int): int {
    if p in shipping then shipping[p] else 0
  }

  // What arrives for product `p` on one day.
  function Due(shipments: map<int, seq<Delivery>>, day: int, p: int): int {
    var deliveries := DeliveriesOn(shipments, day);
    BatchesFor(deliveries, |deliveries|, p)
  }

  lemma DueAdd(shipments: map<int, seq<Delivery>>, arrival: int, e: Delivery, p: int, day: int)
    ensures Due(shipments[arrival := DeliveriesOn(shipments, arrival) + [e]], day, p) ==
            Due(shipments, day, p) + if day == arrival && e.productId == p then e.batchSize else 0
  {
    var deliveries := DeliveriesOn(shipments, arrival);
    BatchesGrow(deliveries, [e], |deliveries|, p);
  }

  predicate Delivered(deliveries: seq<Delivery>, p: int) {
    exists i :: 0 <= i < |deliveries| && deliveries[i].productId == p
  }

  // When an order of goods that is placed today arrives.
  function ArrivalDay(initial: bool, today: int, delays: seq<nat>, p: nat): int
    requires p < |delays|
  {
    if initial then 1 else today + delays[p]
  }

  // What has been ordered for product `p` arrives on that one day.
  predicate ArrivesOn(before: map<int, seq<Delivery>>, after: map<int, seq<Delivery>>, p: int, ordered: int,
                      arrival: int, day: int) {
    Due(after, day, p) == Due(before, day, p) + if day == arrival then ordered else 0
  }

  predicate OrdersArrive(before: map<int, seq<Delivery>>, after: map<int, seq<Delivery>>, shipping: map<int, int>,
                         shipping': map<int, int>, initial: bool, today: int, delays: seq<nat>, p: nat, day: int) {
    p < |delays| ==> ArrivesOn(before, after, p, ShippingOf(shipping', p) - ShippingOf(shipping, p),
                               ArrivalDay(initial, today, delays, p), day)
  }

  // The sales estimate is met by what is on its way, and after the start by the stock on hand as well.
  predicate Covered(initial: bool, estimate: int, stock: int, shipping: int) {
    if initial then shipping >= estimate else stock + shipping >= estimate
  }

  ghost predicate AllArrive(before: map<int, seq<Delivery>>, after: map<int, seq<Delivery>>, shipping: map<int, int>,
                            shipping': map<int, int>, initial: bool, today: int, delays: seq<nat>) {
    forall p: nat, day :: OrdersArrive(before, after, shipping, shipping', initial, today, delays, p, day)
  }

  // What is ordered before the first day arrives on it.
  predicate FirstShipped(shipments: map<int, seq<Delivery>>, shipping: map<int, int>, products: nat, p: nat, day: int) {
    p < products ==> Due(shipments, day, p) == if day == 1 then ShippingOf(shipping, p) else 0
  }

  // If goods are ordered at all, then as many as are missing from the estimate.
  predicate Suits(initial: bool, estimate: int, stock: int, before: int, after: int) {
    && (estimate > 0 ==> Covered(initial, estimate, stock, after))
    && (after == before || after == estimate - if initial then 0 else stock)
  }

  // The deliveries of the day have arrived, and what has been ordered since is under way.
  predicate DayShipped(before: map<int, seq<Delivery>>, after: map<int, seq<Delivery>>, shipping: map<int, int>,
                       shipping': map<int, int>, today: int, delays: seq<nat>, p: nat, day: int) {
    p < |delays| ==>
      var ordered := ShippingOf(shipping', p) - (ShippingOf(shipping, p) - Due(before, today, p));
      Due(after, day, p) ==
      (if day == today then 0 else Due(before, day, p)) + if day == today + delays[p] then ordered else 0
  }

  ghost predicate AllShippedOn(before: map<int, seq<Delivery>>, after: map<int, seq<Delivery>>,
                               shipping: map<int, int>, shipping': map<int, int>, today: int, delays: seq<nat>) {
    forall p: nat, day :: DayShipped(before, after, shipping, shipping', today, delays, p, day)
  }

  lemma DayGoesBy(before: map<int, seq<Delivery>>, middle: map<int, seq<Delivery>>, after: map<int, seq<Delivery>>,
                  shipping: map<int, int>, left: map<int, int>, shipping': map<int, int>, today: int,
                  delays: seq<nat>)
    requires middle == before - {today} && AllArrive(middle, after, left, shipping', false, today, delays)
    requires forall p :: ShippingOf(left, p) == ShippingOf(shipping, p) - Due(before, today, p)
    ensures AllShippedOn(before, after, shipping, shipping', today, delays)
  {
    forall p: nat, day ensures DayShipped(before, after, shipping, shipping', today, delays, p, day) {
      assert OrdersArrive(middle, after, left, shipping', false, today, delays, p, day);
    }
  }

  // The stock of product `p` has risen by the first `n` deliveries.
  predicate StockedUp(before: seq<InventoryRecord>, after: seq<InventoryRecord>, deliveries: seq<Delivery>, n: nat,
                      p: nat)
    requires n <= |deliveries| && p < |before| == |after|
  {
    after[p] == before[p].(stock := before[p].stock + BatchesFor(deliveries, n, p))
  }

  // The first `n` deliveries have been counted off what is being shipped.
  predicate CountedOff(before: map<int, int>, after: map<int, int>, deliveries: seq<Delivery>, n: nat, p: int)
    requires n <= |deliveries|
  {
    ShippingOf(after, p) == ShippingOf(before, p) - BatchesFor(deliveries, n, p)
  }

  lemma OneMoreCounted(start: map<int, int>, before: map<int, int>, after: map<int, int>, deliveries: seq<Delivery>,
                       i: nat, n: nat)
    requires n == i + 1 <= |deliveries| && forall p :: CountedOff(start, before, deliveries, i, p)
    requires var Delivery(q, batchSize) := deliveries[i]; after == before[q := ShippingOf(before, q) - batchSize]
    ensures forall p :: CountedOff(start, after, deliveries, n, p)
  {
    forall p ensures CountedOff(start, after, deliveries, n, p) {
      assert CountedOff(start, before, deliveries, i, p);
    }
  }

  lemma {:induction false} NothingDelivered(deliveries: seq<Delivery>, n: nat, p: int)
    requires n <= |deliveries| && !Delivered(deliveries, p)
    ensures BatchesFor(deliveries, n, p) == 0
  {
    if n > 0 {
      NothingDelivered(deliveries, n - 1, p);
    }
  }

  // ---- The steps of the deliveries of one day.

  function DeliverySteps(deliveries: seq<Delivery>): Script {
    seq(|deliveries|, i requires 0 <= i < |deliveries| => AddStock(deliveries[i].productId, deliveries[i].batchSize))
  }

  lemma {:induction false} DeliveriesBring(deliveries: seq<Delivery>, n: nat, p: int)
    requires n <= |deliveries|
    ensures TotalTo(DeliverySteps(deliveries), n, Brought(p)) == BatchesFor(deliveries, n, p)
  {
    if n > 0 {
      DeliveriesBring(deliveries, n - 1, p);
    }
  }
}
