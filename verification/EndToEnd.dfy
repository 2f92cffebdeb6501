/** What the parts say together: where every order and every item is at the end of a phase, and that the script of any
    simulated period leaves the plain and the cached company with the same tables. */
module EndToEnd {
  import opened Records
  import opened Company
  import opened Scripting
  import opened Queues
  import opened ScriptDesk
  import opened WholeCompany
  import opened Totals
  import opened Plans
  import opened PlainLaws
  import opened Backlog
  import W = ScriptWriter

  // Whenever no submission is under way: an order is placed once at most; it either has one Pending step or sits in
  // exactly one place of one backorder queue; and a Pending order has one Shipped step or waits, once, for a day that
  // is still to come.
  lemma OrdersAccounted(d: Desk, low: int, hor: nat, x: int)
    requires DeskOk(d, low, [], [], hor)
    ensures Count(d.steps, Placements, x) <= 1
    ensures Count(d.steps, Placements, x) == Count(d.steps, Reservations, x) + Queued(d, x)
    ensures Count(d.steps, Reservations, x) == Count(d.steps, Shipments, x) + WaitingTo(d.steps, d.pending, hor, x)
    ensures Count(d.steps, Placements, x) == 1 ==> (Count(d.steps, Reservations, x) == 0 <==> Queued(d, x) == 1)
    ensures Count(d.steps, Reservations, x) == 1 ==>
              (Count(d.steps, Shipments, x) == 0 <==> WaitingTo(d.steps, d.pending, hor, x) == 1)
    ensures forall due :: due in d.pending ==> low < due < hor
  {
    assert BalancedFor(d, [], [], hor, x);
    KnownIsRecorded(d.steps, x);
    forall due | due in d.pending ensures low < due < hor {
      assert DueOk(d.steps, d.pending, due, low, hor);
    }
  }

  lemma {:induction false} EntriesCount(steps: Script, queue: seq<nat>, n: nat, i: nat, j: nat, x: int)
    requires i <= j < n <= |queue| && IsAt(steps, queue[i], x) && IsAt(steps, queue[j], x)
    ensures InQueueTo(steps, queue, n, x) >= if i == j then 1 else 2
  {
    if j < n - 1 {
      EntriesCount(steps, queue, n - 1, i, j, x);
    } else if i < j {
      EntriesCount(steps, queue, n - 1, i, i, x);
    }
  }

  lemma {:induction false} QueuesCount(d: Desk, n: nat, p: nat, q: nat, x: int)
    requires p <= q < n <= |d.backorders|
    ensures QueuedTo(d.steps, d.backorders, n, x) >=
            InQueue(d.steps, d.backorders[q], x) + if p == q then 0 else InQueue(d.steps, d.backorders[p], x)
  {
    if q < n - 1 {
      QueuesCount(d, n - 1, p, q, x);
    } else if p < q {
      QueuesCount(d, n - 1, p, p, x);
    }
  }

  // A queued order sits in the queue of its own product and nowhere else; the company has the order, and has not
  // taken its stock.
  lemma QueuedOnce(d: Desk, low: int, hor: nat, p: nat, i: nat, q: nat, j: nat)
    requires DeskOk(d, low, [], [], hor) && p < |d.backorders| && i < |d.backorders[p]|
    requires q < |d.backorders| && j < |d.backorders[q]|
    ensures IsOrder(d.steps[d.backorders[p][i]]) && d.steps[d.backorders[p][i]].order.productId == p
    ensures IsAt(d.steps, d.backorders[q][j], d.steps[d.backorders[p][i]].order.id) ==> p == q && i == j
    ensures var x := d.steps[d.backorders[p][i]].order.id;
            Int(x) in Play(Empty(), d.steps).books.orders && x !in Play(Empty(), d.steps).books.updatedFrom
  {
    assert QueueOk(d.steps, p, d.backorders[p]) && Backorder(d.steps, p, d.backorders[p][i]);
    var x := d.steps[d.backorders[p][i]].order.id;
    OrdersAccounted(d, low, hor, x);
    EntriesCount(d.steps, d.backorders[p], |d.backorders[p]|, i, i, x);
    QueuesCount(d, |d.backorders|, p, p, x);
    assert d.steps[..|d.steps|] == d.steps;
    PlayRecorded(d.steps, |d.steps|, x);
    if IsAt(d.steps, d.backorders[q][j], x) {
      if p == q {
        EntriesCount(d.steps, d.backorders[p], |d.backorders[p]|, if i < j then i else j, if i < j then j else i, x);
      } else {
        EntriesCount(d.steps, d.backorders[q], |d.backorders[q]|, j, j, x);
        QueuesCount(d, |d.backorders|, if p < q then p else q, if p < q then q else p, x);
      }
    }
  }

  // The stock the script writer keeps is the stock of the company that plays the script, and never negative.
  lemma StockAgrees(d: Desk, low: int, hor: nat, p: nat)
    requires DeskOk(d, low, [], [], hor) && p < |d.inventory|
    ensures Stock(Play(Empty(), d.steps).books, p) == Some(d.inventory[p].stock) && d.inventory[p].stock >= 0
  {
    assert RecordInSync(Play(Empty(), d.steps).books, d.inventory, Ahead([], p), p);
  }

  // ---- The whole simulation.

  // A run of the cached company succeeds, and its curtain call leaves the tables of the plain company; the session
  // table as well when sessions were flushed every other day, and in general exactly when the last collection found
  // all expired sessions in the backend.
  ghost predicate TablesAgree(run: seq<Happening>, script: Script) {
    var r := HappenAll(OpenedOn(), run);
    var closed := Closed(r.whole);
    var b := Play(Empty(), script).books;
    && r.ok && closed.ok && TablesMatch(closed.whole, b)
    && (closed.whole.sessions.db == b.sessions <==> Complete(OpenedOn(), run, true))
    && (FlushedLately(0, 0, run) ==> closed.whole.sessions.db == b.sessions)
  }

  // Where an order is, once the script has ended on day `today`.
  predicate Accounted(d: Desk, today: int, hor: nat, x: int) {
    && Count(d.steps, Placements, x) <= 1
    && Count(d.steps, Placements, x) == Count(d.steps, Reservations, x) + Queued(d, x)
    && Count(d.steps, Reservations, x) == Count(d.steps, Shipments, x) + WaitingTo(d.steps, d.pending, hor, x)
    && forall due :: due in d.pending ==> today < due < hor
  }

  // A day by which every order of the first `days` days has been shipped.
  function Beyond(days: nat): nat {
    days + MAX_HANDLING + 1
  }

  // The stock at the end, told from the script alone: all that was brought minus all that orders have taken.
  predicate StockTold(d: Desk, p: nat) {
    p < |d.inventory| ==> d.inventory[p].stock == Total(d.steps, Brought(p)) - Taken(d.steps, p)
  }

  lemma StockIsTold(d: Desk, low: int, hor: nat, p: nat)
    requires DeskOk(d, low, [], [], hor)
    ensures StockTold(d, p)
  {
    if p < |d.inventory| {
      assert RecordInSync(Play(Empty(), d.steps).books, d.inventory, Ahead([], p), p);
      assert d.steps[..|d.steps|] == d.steps;
      StockConserved(d.steps, |d.steps|, p);
    }
  }

  predicate StockAgreesAt(d: Desk, p: nat) {
    p < |d.inventory| ==>
      Stock(Play(Empty(), d.steps).books, p) == Some(d.inventory[p].stock) && d.inventory[p].stock >= 0
  }

  // For any period, any sampled quantities, and any flushes and evictions while the cached company plays: the script
  // is played by both companies without a failure and leaves the same tables; it amounts to what was planned, with a
  // check of every stock on every day; every order and every item is accounted for in the writer's books, and no order
  // waits at the head of its queue that could be served.
  method Simulate(marketCapacity: nat, daySpan: nat, products: seq<Product>, handling: seq<nat>,
                  founders: seq<Customer>, estimates: seq<int>, plans: seq<DayPlan>)
    returns (script: Script, desk: Desk)
    requires |handling| == |products| == |estimates|
    requires forall i :: 0 <= i < |products| ==> products[i].id == i && handling[i] <= MAX_HANDLING
    requires forall i, j :: 0 <= i < j < |founders| ==> founders[i].id != founders[j].id
    requires PlansOk(plans, Known({}, {}, IdsOf(founders, |founders|)), |products|, marketCapacity)
    ensures Play(Empty(), script).error.None?
    ensures forall run :: ScriptOf(run) == script && Answered(OpenedOn(), run) ==> TablesAgree(run, script)
    ensures desk.steps == script && |desk.inventory| == |products|
    ensures forall x :: Accounted(desk, |plans|, Beyond(|plans|), x)
    ensures forall p: nat :: StockAgreesAt(desk, p) && StockTold(desk, p)
    ensures forall p: nat :: HeadWaits(desk.steps, desk.inventory, desk.backorders, p)
    ensures Play(Empty(), script).books.checks == |plans| * |products|
    ensures Beginning(products, handling, founders) <= script
    ensures AllAsPlanned(script, Beginning(products, handling, founders), PlannedDays(plans, |plans|, |products|))
  {
    var writer := new W.ScriptWriter(Beyond(|plans|), daySpan, marketCapacity);
    writer.Direct(products, handling, founders, estimates, plans);
    script, desk := writer.steps, Desk(writer.steps, writer.inventory, writer.backorders, writer.pendingOrders);
    forall run | ScriptOf(run) == script && Answered(OpenedOn(), run) ensures TablesAgree(run, script) {
      AllTables(run);
      if FlushedLately(0, 0, run) {
        LatelyTables(run);
      }
    }
    forall x ensures Accounted(desk, |plans|, writer.horizon, x) {
      OrdersAccounted(desk, |plans|, writer.horizon, x);
    }
    forall p: nat ensures StockAgreesAt(desk, p) && StockTold(desk, p) {
      StockIsTold(desk, |plans|, writer.horizon, p);
      if p < |desk.inventory| {
        StockAgrees(desk, |plans|, writer.horizon, p);
      }
    }
  }
}
