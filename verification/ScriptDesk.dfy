/** The writer's desk: the script so far with the inventory and the two kinds of queues, as a value.  `Submit` is what
    `add_steps` does to it. */
module ScriptDesk {
  import opened Records
  import opened Company
  import opened Scripting
  import opened Queues

  datatype Desk = Desk(steps: Script, inventory: seq<InventoryRecord>, backorders: seq<seq<nat>>,
                       pending: map<int, seq<nat>>)

  function QueueOn(pending: map<int, seq<nat>>, day: int): seq<nat> {
    if day in pending then pending[day] else []
  }

  // ---- How often an order is in the backorder queues, and in the pending queue.

  function QueuedTo(steps: Script, backorders: seq<seq<nat>>, n: nat, x: int): nat
    requires n <= |backorders|
  {
    if n == 0 then 0 else QueuedTo(steps, backorders, n - 1, x) + InQueue(steps, backorders[n - 1], x)
  }

  function Queued(d: Desk, x: int): nat {
    QueuedTo(d.steps, d.backorders, |d.backorders|, x)
  }

  // Days are counted from 0 up to the horizon, beyond which nothing is due.
  function WaitingTo(steps: Script, pending: map<int, seq<nat>>, n: nat, x: int): nat {
    if n == 0 then 0 else WaitingTo(steps, pending, n - 1, x) + InQueue(steps, QueueOn(pending, n - 1), x)
  }

  lemma {:induction false} QueuedChange(steps: Script, backorders: seq<seq<nat>>, p: nat, queue: seq<nat>, n: nat,
                                        x: int)
    requires p < |backorders| && n <= |backorders|
    ensures QueuedTo(steps, backorders[p := queue], n, x) ==
            QueuedTo(steps, backorders, n, x)
            + if p < n then InQueue(steps, queue, x) - InQueue(steps, backorders[p], x) else 0
  {
    if n > 0 {
      QueuedChange(steps, backorders, p, queue, n - 1, x);
    }
  }

  lemma {:induction false} WaitingChange(steps: Script, pending: map<int, seq<nat>>, day: nat, queue: seq<nat>, n: nat,
                                         x: int)
    ensures WaitingTo(steps, pending[day := queue], n, x) ==
            WaitingTo(steps, pending, n, x)
            + if day < n then InQueue(steps, queue, x) - InQueue(steps, QueueOn(pending, day), x) else 0
  {
    if n > 0 {
      WaitingChange(steps, pending, day, queue, n - 1, x);
    }
  }

  lemma {:induction false} WaitingRemove(steps: Script, pending: map<int, seq<nat>>, day: nat, n: nat, x: int)
    ensures WaitingTo(steps, pending - {day}, n, x) ==
            WaitingTo(steps, pending, n, x) - if day < n then InQueue(steps, QueueOn(pending, day), x) else 0
  {
    if n > 0 {
      WaitingRemove(steps, pending, day, n - 1, x);
    }
  }

  lemma {:induction false} QueuedGrow(steps: Script, more: Script, backorders: seq<seq<nat>>, n: nat, x: int)
    requires n <= |backorders| && forall p :: 0 <= p < |backorders| ==> InScript(steps, backorders[p])
    ensures QueuedTo(steps + more, backorders, n, x) == QueuedTo(steps, backorders, n, x)
  {
    if n > 0 {
      QueuedGrow(steps, more, backorders, n - 1, x);
      InQueueGrow(steps, more, backorders[n - 1], x);
    }
  }

  lemma {:induction false} WaitingGrow(steps: Script, more: Script, pending: map<int, seq<nat>>, n: nat, x: int)
    requires forall day :: day in pending ==> InScript(steps, pending[day])
    ensures WaitingTo(steps + more, pending, n, x) == WaitingTo(steps, pending, n, x)
  {
    if n > 0 {
      WaitingGrow(steps, more, pending, n - 1, x);
      InQueueGrow(steps, more, QueueOn(pending, n - 1), x);
    }
  }

  // ---- Filing what a submission has queued.

  // Orders queued again go to the front, one after the other; new ones go to the back.
  function FileFront(backorders: seq<seq<nat>>, entries: seq<(int, nat)>, n: nat): (r: seq<seq<nat>>)
    requires n <= |entries| && ForProducts(entries, |backorders|)
    ensures |r| == |backorders|
  {
    if n == 0 then backorders
    else
      var filed := FileFront(backorders, entries, n - 1);
      var (p, i) := entries[n - 1];
      filed[p := [i] + filed[p]]
  }

  function FileBack(backorders: seq<seq<nat>>, entries: seq<(int, nat)>, n: nat): (r: seq<seq<nat>>)
    requires n <= |entries| && ForProducts(entries, |backorders|)
    ensures |r| == |backorders|
  {
    if n == 0 then backorders
    else
      var filed := FileBack(backorders, entries, n - 1);
      var (p, i) := entries[n - 1];
      filed[p := filed[p] + [i]]
  }

  function FilePending(pending: map<int, seq<nat>>, entries: seq<(int, nat)>, n: nat): map<int, seq<nat>>
    requires n <= |entries|
  {
    if n == 0 then pending
    else
      var filed := FilePending(pending, entries, n - 1);
      var (day, i) := entries[n - 1];
      filed[day := QueueOn(filed, day) + [i]]
  }

  lemma PositionsPrefix(entries: seq<(int, nat)>, n: nat)
    requires n < |entries|
    ensures Positions(entries[..n + 1]) == Positions(entries[..n]) + [entries[n].1]
  {
  }

  lemma {:induction false} FileFrontCounts(steps: Script, backorders: seq<seq<nat>>, entries: seq<(int, nat)>, n: nat,
                                           x: int)
    requires n <= |entries| && ForProducts(entries, |backorders|)
    ensures QueuedTo(steps, FileFront(backorders, entries, n), |backorders|, x) ==
            QueuedTo(steps, backorders, |backorders|, x) + InQueue(steps, Positions(entries[..n]), x)
  {
    if n > 0 {
      var filed := FileFront(backorders, entries, n - 1);
      var (p, i) := entries[n - 1];
      FileFrontCounts(steps, backorders, entries, n - 1, x);
      QueuedChange(steps, filed, p, [i] + filed[p], |backorders|, x);
      InQueueConcat(steps, [i], filed[p], x);
      PositionsPrefix(entries, n - 1);
      InQueueConcat(steps, Positions(entries[..n - 1]), [i], x);
    }
  }

  lemma {:induction false} FileBackCounts(steps: Script, backorders: seq<seq<nat>>, entries: seq<(int, nat)>, n: nat,
                                          x: int)
    requires n <= |entries| && ForProducts(entries, |backorders|)
    ensures QueuedTo(steps, FileBack(backorders, entries, n), |backorders|, x) ==
            QueuedTo(steps, backorders, |backorders|, x) + InQueue(steps, Positions(entries[..n]), x)
  {
    if n > 0 {
      var filed := FileBack(backorders, entries, n - 1);
      var (p, i) := entries[n - 1];
      FileBackCounts(steps, backorders, entries, n - 1, x);
      QueuedChange(steps, filed, p, filed[p] + [i], |backorders|, x);
      InQueueConcat(steps, filed[p], [i], x);
      PositionsPrefix(entries, n - 1);
      InQueueConcat(steps, Positions(entries[..n - 1]), [i], x);
    }
  }

  lemma {:induction false} FilePendingCounts(steps: Script, pending: map<int, seq<nat>>, entries: seq<(int, nat)>,
                                             n: nat, hor: nat, x: int)
    requires n <= |entries| && forall j :: 0 <= j < |entries| ==> 0 <= entries[j].0 < hor
    ensures WaitingTo(steps, FilePending(pending, entries, n), hor, x) ==
            WaitingTo(steps, pending, hor, x) + InQueue(steps, Positions(entries[..n]), x)
  {
    if n > 0 {
      var filed := FilePending(pending, entries, n - 1);
      var (day, i) := entries[n - 1];
      FilePendingCounts(steps, pending, entries, n - 1, hor, x);
      WaitingChange(steps, filed, day, QueueOn(filed, day) + [i], hor, x);
      InQueueConcat(steps, QueueOn(filed, day), [i], x);
      PositionsPrefix(entries, n - 1);
      InQueueConcat(steps, Positions(entries[..n - 1]), [i], x);
    }
  }

  // ---- What a script that has been played without a failure tells.

  predicate CleanStep(step: Step) {
    IsOrder(step) ==> step.order.status != New && step.order.status != Recheck && step.order.quantity >= 0
  }

  // No order is left unprocessed in the script.
  predicate Clean(steps: Script) {
    forall i :: 0 <= i < |steps| ==> CleanStep(steps[i])
  }

  function KnownOf(steps: Script): Known {
    Known(set i | 0 <= i < |steps| && steps[i].AddOrder? :: steps[i].order.id,
          set i | 0 <= i < |steps| && Counts(steps[i], Reservations) :: steps[i].order.id,
          set i | 0 <= i < |steps| && steps[i].AddCustomer? :: steps[i].customer.id)
  }

  lemma {:induction false} CountPositive(steps: Script, n: nat, kind: Kind, x: int)
    requires n <= |steps|
    ensures CountTo(steps, n, kind, x) >= 1 <==> exists i :: 0 <= i < n && One(steps[i], kind, x) == 1
  {
    if n > 0 {
      CountPositive(steps, n - 1, kind, x);
    }
  }

  predicate AddsCustomer(step: Step, x: int) {
    step.AddCustomer? && step.customer.id == x
  }

  // What the company that played the first `n` steps has recorded about order and customer `x`.
  predicate Recorded(b: Books, steps: Script, n: nat, x: int)
    requires n <= |steps|
  {
    && CountTo(steps, n, Placements, x) <= 1 && CountTo(steps, n, Reservations, x) <= 1
    && (CountTo(steps, n, Placements, x) == 1 <==> Int(x) in b.orders)
    && (CountTo(steps, n, Reservations, x) == 1 <==> x in b.updatedFrom)
    && ((exists i :: 0 <= i < n && AddsCustomer(steps[i], x)) <==> Int(x) in b.customers)
  }

  // What one step records about order and customer `x`.
  lemma StepEffect(b: Books, step: Step, x: int)
    requires CleanStep(step) && PlainStep(b, step).error.None?
    ensures var b' := PlainStep(b, step).books;
            && (Int(x) in b'.orders <==> Int(x) in b.orders || One(step, Placements, x) == 1)
            && (One(step, Placements, x) == 1 ==> Int(x) !in b.orders)
            && (x in b'.updatedFrom <==> x in b.updatedFrom || One(step, Reservations, x) == 1)
            && (One(step, Reservations, x) == 1 ==> x !in b.updatedFrom)
            && (Int(x) in b'.customers <==> Int(x) in b.customers || AddsCustomer(step, x))
  {
    match step
    case AddOrder(o) => TakeStockEffect(b, o, x);
    case UpdateOrder(o) => TakeStockEffect(b, o, x);
    case AddStock(_, _) =>
    case _ =>
  }

  lemma TakeStockEffect(b: Books, o: Order, x: int)
    requires o.status != New && TakeStock(b, o).error.None?
    ensures var b' := TakeStock(b, o).books;
            && b'.orders == b.orders && b'.customers == b.customers
            && (x in b'.updatedFrom <==> x in b.updatedFrom || (o.status == Pending && o.id == x))
            && (o.status == Pending ==> o.id !in b.updatedFrom)
  {
  }

  lemma StepRecorded(b: Books, steps: Script, n: nat, x: int)
    requires n < |steps| && CleanStep(steps[n]) && PlainStep(b, steps[n]).error.None? && Recorded(b, steps, n, x)
    ensures Recorded(PlainStep(b, steps[n]).books, steps, n + 1, x)
  {
    StepEffect(b, steps[n], x);
    assert AddsCustomer(steps[n], x) || !AddsCustomer(steps[n], x);
  }

  // No order is placed twice or takes stock twice in a script that plays without a failure.
  lemma {:induction false} PlayRecorded(steps: Script, n: nat, x: int)
    requires n <= |steps| && Clean(steps) && Play(Empty(), steps[..n]).error.None?
    ensures Recorded(Play(Empty(), steps[..n]).books, steps, n, x)
  {
    if n > 0 {
      assert steps[..n] == steps[..n - 1] + [steps[n - 1]];
      PlayAppend(Empty(), steps[..n - 1], [steps[n - 1]]);
      PlayRecorded(steps, n - 1, x);
      PlayOne(steps[..n - 1], steps[n - 1]);
      StepRecorded(Play(Empty(), steps[..n - 1]).books, steps, n - 1, x);
    }
  }

  lemma KnownIsRecorded(steps: Script, x: int)
    requires Clean(steps) && Play(Empty(), steps).error.None?
    ensures KnownInSync(Play(Empty(), steps).books, KnownOf(steps), x)
    ensures Count(steps, Placements, x) <= 1 && Count(steps, Reservations, x) <= 1
    ensures x in KnownOf(steps).placed <==> Count(steps, Placements, x) == 1
    ensures x in KnownOf(steps).taken <==> Count(steps, Reservations, x) == 1
  {
    assert steps[..|steps|] == steps;
    PlayRecorded(steps, |steps|, x);
    CountPositive(steps, |steps|, Placements, x);
    CountPositive(steps, |steps|, Reservations, x);
    var k := KnownOf(steps);
    assert x in k.placed <==> exists i :: 0 <= i < |steps| && One(steps[i], Placements, x) == 1;
    assert x in k.taken <==> exists i :: 0 <= i < |steps| && One(steps[i], Reservations, x) == 1;
    assert x in k.customers <==> exists i :: 0 <= i < |steps| && AddsCustomer(steps[i], x);
  }

  // ---- Submitting steps.

  function DraftOf(d: Desk): Draft {
    Draft(d.steps, d.inventory, [], [], [])
  }

  function Filed(d: Desk, f: Draft): Desk
    requires ForProducts(f.again, |d.backorders|) && ForProducts(f.newly, |d.backorders|)
  {
    var front := FileFront(d.backorders, f.again, |f.again|);
    Desk(f.steps, f.inventory, FileBack(front, f.newly, |f.newly|), FilePending(d.pending, f.pending, |f.pending|))
  }

  // `add_steps`
  function Submit(d: Desk, day: int, todo: Script): Option<Desk> {
    var f := WriteAll(DraftOf(d), day, todo);
    if f.None? || !ForProducts(f.value.again, |d.backorders|) || !ForProducts(f.value.newly, |d.backorders|) then None
    else Some(Filed(d, f.value))
  }

  predicate QueueOk(steps: Script, p: int, queue: seq<nat>) {
    forall j :: 0 <= j < |queue| ==> Backorder(steps, p, queue[j])
  }

  predicate DayOk(steps: Script, queue: seq<nat>) {
    forall j :: 0 <= j < |queue| ==> Awaiting(steps, queue[j])
  }

  // A queue, never empty, of orders that are due later, but not beyond the horizon.
  predicate DueOk(steps: Script, pending: map<int, seq<nat>>, due: int, day: int, hor: nat) {
    due in pending ==> day < due < hor && pending[due] != [] && DayOk(steps, pending[due])
  }

  ghost predicate QueuesOk(d: Desk, day: int, hor: nat) {
    && |d.backorders| == |d.inventory|
    && (forall p :: 0 <= p < |d.backorders| ==> QueueOk(d.steps, p, d.backorders[p]))
    && (forall due :: DueOk(d.steps, d.pending, due, day, hor))
  }

  // The balance of order `x`: `todo` is about to be submitted, `rest` after it.
  predicate BalancedFor(d: Desk, todo: Script, rest: Script, hor: nat, x: int) {
    Conserved(DraftOf(d), todo, x, Queued(d, x) + Todo(rest, Recheck, x),
              WaitingTo(d.steps, d.pending, hor, x) + Todo(rest, Shipped, x))
  }

  // The desk is in order: the company that plays the script agrees with it, every queue holds its own orders, and no
  // order is lost or doubled.
  ghost predicate DeskOk(d: Desk, day: int, todo: Script, rest: Script, hor: nat) {
    && Clean(d.steps) && QueuesOk(d, day, hor)
    && Agrees(DraftOf(d), todo, KnownOf(d.steps))
    && forall x :: BalancedFor(d, todo, rest, hor, x)
  }

  // A step for orders, stock or views of one of the first `products` products.
  predicate Trade(step: Step, products: nat) {
    match step
    case AddOrder(_) => true
    case UpdateOrder(_) => true
    case AddStock(_, _) => true
    case ViewProduct(p) => 0 <= p < products
    case CheckInventory(_, _) => true
    case _ => false
  }

  // The script has grown by such steps.
  predicate Grown(steps: Script, steps': Script, products: nat) {
    steps <= steps' && forall i :: |steps| <= i < |steps'| ==> Trade(steps'[i], products)
  }

  // A draft's steps grow, and stay processed.
  lemma {:induction false} WriteAllGrows(d: Draft, day: int, todo: Script, k: Known)
    requires Agrees(d, todo, k) && Fine(todo, k, |d.inventory|) && StockFirst(todo) && Clean(d.steps)
    ensures WriteAll(d, day, todo).Some? && Clean(WriteAll(d, day, todo).value.steps)
    ensures Grown(d.steps, WriteAll(d, day, todo).value.steps, |d.inventory|)
    decreases |todo|
  {
    if todo != [] {
      WriteAgrees(d, day, todo, k);
      WriteOutcome(d, day, todo[0]);
      WriteAllGrows(Write(d, day, todo[0]).value, day, todo[1..], Learn(k, todo[0]));
    }
  }

  // Filing keeps every queue to its own orders.
  lemma {:induction false} FileFrontOk(steps: Script, backorders: seq<seq<nat>>, entries: seq<(int, nat)>, n: nat)
    requires n <= |entries| && ForProducts(entries, |backorders|)
    requires forall p :: 0 <= p < |backorders| ==> QueueOk(steps, p, backorders[p])
    requires forall j :: 0 <= j < |entries| ==> Backorder(steps, entries[j].0, entries[j].1)
    ensures forall p :: 0 <= p < |backorders| ==> QueueOk(steps, p, FileFront(backorders, entries, n)[p])
  {
    if n > 0 {
      FileFrontOk(steps, backorders, entries, n - 1);
    }
  }

  lemma {:induction false} FileBackOk(steps: Script, backorders: seq<seq<nat>>, entries: seq<(int, nat)>, n: nat)
    requires n <= |entries| && ForProducts(entries, |backorders|)
    requires forall p :: 0 <= p < |backorders| ==> QueueOk(steps, p, backorders[p])
    requires forall j :: 0 <= j < |entries| ==> Backorder(steps, entries[j].0, entries[j].1)
    ensures forall p :: 0 <= p < |backorders| ==> QueueOk(steps, p, FileBack(backorders, entries, n)[p])
  {
    if n > 0 {
      FileBackOk(steps, backorders, entries, n - 1);
    }
  }

  lemma {:induction false} FilePendingOk(steps: Script, pending: map<int, seq<nat>>, entries: seq<(int, nat)>, n: nat,
                                         day: int, hor: nat)
    requires n <= |entries|
    requires forall due :: DueOk(steps, pending, due, day, hor)
    requires forall j :: 0 <= j < |entries| ==> day < entries[j].0 < hor && Awaiting(steps, entries[j].1)
    ensures forall due :: DueOk(steps, FilePending(pending, entries, n), due, day, hor)
  {
    if n > 0 {
      FilePendingOk(steps, pending, entries, n - 1, day, hor);
      var filed := FilePending(pending, entries, n - 1);
      forall due ensures DueOk(steps, FilePending(pending, entries, n), due, day, hor) {
        assert DueOk(steps, filed, due, day, hor);
      }
    }
  }

  // The queues of a desk whose script has grown.
  lemma QueuesGrow(d: Desk, day: int, hor: nat, steps: Script)
    requires QueuesOk(d, day, hor) && d.steps <= steps
    ensures forall p :: 0 <= p < |d.backorders| ==> QueueOk(steps, p, d.backorders[p])
    ensures forall due :: DueOk(steps, d.pending, due, day, hor)
    ensures forall x :: QueuedTo(steps, d.backorders, |d.backorders|, x) == Queued(d, x)
    ensures forall x :: WaitingTo(steps, d.pending, hor, x) == WaitingTo(d.steps, d.pending, hor, x)
  {
    var more := steps[|d.steps|..];
    assert steps == d.steps + more;
    forall p | 0 <= p < |d.backorders|
      ensures QueueOk(steps, p, d.backorders[p]) && InScript(d.steps, d.backorders[p]) {
      assert QueueOk(d.steps, p, d.backorders[p]);
    }
    forall due
      ensures DueOk(steps, d.pending, due, day, hor) && (due in d.pending ==> InScript(d.steps, d.pending[due]))
    {
      assert DueOk(d.steps, d.pending, due, day, hor);
      if due in d.pending {
        assert DayOk(d.steps, d.pending[due]);
      }
    }
    forall x
      ensures QueuedTo(steps, d.backorders, |d.backorders|, x) == Queued(d, x)
      ensures WaitingTo(steps, d.pending, hor, x) == WaitingTo(d.steps, d.pending, hor, x)
    {
      QueuedGrow(d.steps, more, d.backorders, |d.backorders|, x);
      WaitingGrow(d.steps, more, d.pending, hor, x);
    }
  }

  // The balance of one order after a submission, before and after filing.
  lemma DraftConserves(d: Desk, low: int, day: int, todo: Script, rest: Script, hor: nat, x: int)
    requires DeskOk(d, low, todo, rest, hor) && Fine(todo, KnownOf(d.steps), |d.inventory|) && StockFirst(todo)
    ensures WriteAll(DraftOf(d), day, todo).Some?
    ensures var f := WriteAll(DraftOf(d), day, todo).value;
            EntriesOk(f, day) && Conserved(f, [], x, Queued(d, x) + Todo(rest, Recheck, x),
                                           WaitingTo(d.steps, d.pending, hor, x) + Todo(rest, Shipped, x))
  {
    assert BalancedFor(d, todo, rest, hor, x);
    WriteAllConserves(DraftOf(d), day, todo, KnownOf(d.steps), x, Queued(d, x) + Todo(rest, Recheck, x),
                      WaitingTo(d.steps, d.pending, hor, x) + Todo(rest, Shipped, x));
  }

  lemma FiledBalances(d: Desk, low: int, day: int, f: Draft, rest: Script, hor: nat, x: int)
    requires QueuesOk(d, low, hor) && d.steps <= f.steps && EntriesOk(f, day) && |f.inventory| == |d.inventory|
    requires Conserved(f, [], x, Queued(d, x) + Todo(rest, Recheck, x),
                       WaitingTo(d.steps, d.pending, hor, x) + Todo(rest, Shipped, x))
    requires 0 <= day && day + MAX_HANDLING < hor
    ensures BalancedFor(Filed(d, f), [], rest, hor, x)
  {
    QueuesGrow(d, low, hor, f.steps);
    FiledCounts(d, f, hor, x);
  }

  lemma FiledCounts(d: Desk, f: Draft, hor: nat, x: int)
    requires ForProducts(f.again, |d.backorders|) && ForProducts(f.newly, |d.backorders|)
    requires forall j :: 0 <= j < |f.pending| ==> 0 <= f.pending[j].0 < hor
    ensures Queued(Filed(d, f), x) == QueuedTo(f.steps, d.backorders, |d.backorders|, x) + InDraft(f, x)
    ensures WaitingTo(f.steps, Filed(d, f).pending, hor, x) ==
            WaitingTo(f.steps, d.pending, hor, x) + InQueue(f.steps, Positions(f.pending), x)
  {
    assert f.again[..|f.again|] == f.again && f.newly[..|f.newly|] == f.newly && f.pending[..|f.pending|] == f.pending;
    FileFrontCounts(f.steps, d.backorders, f.again, |f.again|, x);
    FileBackCounts(f.steps, FileFront(d.backorders, f.again, |f.again|), f.newly, |f.newly|, x);
    FilePendingCounts(f.steps, d.pending, f.pending, |f.pending|, hor, x);
  }

  // Filing keeps all queues in order.
  lemma FiledQueues(d: Desk, low: int, day: int, f: Draft, hor: nat)
    requires QueuesOk(d, low, hor) && low <= day && d.steps <= f.steps && EntriesOk(f, day)
    requires |f.inventory| == |d.inventory|
    requires 0 <= day && day + MAX_HANDLING < hor
    ensures QueuesOk(Filed(d, f), low, hor)
  {
    QueuesGrow(d, low, hor, f.steps);
    FileFrontOk(f.steps, d.backorders, f.again, |f.again|);
    FileBackOk(f.steps, FileFront(d.backorders, f.again, |f.again|), f.newly, |f.newly|);
    FilePendingOk(f.steps, d.pending, f.pending, |f.pending|, low, hor);
  }

  // A fine submission goes through and leaves the desk in order; nothing is due up to day `low`.
  lemma SubmitKeeps(d: Desk, low: int, day: int, todo: Script, rest: Script, hor: nat)
    requires DeskOk(d, low, todo, rest, hor) && Fine(todo, KnownOf(d.steps), |d.inventory|) && StockFirst(todo)
    requires low <= day && 0 <= day && day + MAX_HANDLING < hor
    ensures var r := Submit(d, day, todo);
            && r.Some? && DeskOk(r.value, low, [], rest, hor) && Grown(d.steps, r.value.steps, |d.inventory|)
            && |r.value.inventory| == |d.inventory|
            && KnownOf(r.value.steps).placed == LearnAll(KnownOf(d.steps), todo).placed
            && KnownOf(r.value.steps).customers == KnownOf(d.steps).customers
            && SameElsewhere(Play(Empty(), d.steps).books, Play(Empty(), r.value.steps).books)
  {
    var f := SubmitDraft(d, low, day, todo, rest, hor);
    var r := Filed(d, f);
    forall x ensures BalancedFor(r, [], rest, hor, x) {
      DraftConserves(d, low, day, todo, rest, hor, x);
      FiledBalances(d, low, day, f, rest, hor, x);
    }
    FiledQueues(d, low, day, f, hor);
    KnownAgain(f, LearnAll(KnownOf(d.steps), todo));
    LearnsNoCustomer(KnownOf(d.steps), todo);
  }

  lemma {:induction false} LearnsNoCustomer(k: Known, todo: Script)
    ensures LearnAll(k, todo).customers == k.customers
    decreases |todo|
  {
    if todo != [] {
      LearnsNoCustomer(Learn(k, todo[0]), todo[1..]);
    }
  }

  lemma SubmitDraft(d: Desk, low: int, day: int, todo: Script, rest: Script, hor: nat) returns (f: Draft)
    requires DeskOk(d, low, todo, rest, hor) && Fine(todo, KnownOf(d.steps), |d.inventory|) && StockFirst(todo)
    requires low <= day && 0 <= day && day + MAX_HANDLING < hor
    ensures WriteAll(DraftOf(d), day, todo) == Some(f) && EntriesOk(f, day) && |f.inventory| == |d.inventory|
    ensures Agrees(f, [], LearnAll(KnownOf(d.steps), todo)) && Clean(f.steps) && Grown(d.steps, f.steps, |d.inventory|)
    ensures SameElsewhere(Play(Empty(), d.steps).books, Play(Empty(), f.steps).books)
  {
    WriteAllAgrees(DraftOf(d), day, todo, KnownOf(d.steps));
    WriteAllGrows(DraftOf(d), day, todo, KnownOf(d.steps));
    DraftConserves(d, low, day, todo, rest, hor, 0);
    f := WriteAll(DraftOf(d), day, todo).value;
  }

  // What the writer knows can be read off the script.
  lemma KnownAgain(f: Draft, k: Known)
    requires Clean(f.steps) && Agrees(f, [], k)
    ensures Agrees(Draft(f.steps, f.inventory, [], [], []), [], KnownOf(f.steps))
    ensures KnownOf(f.steps).placed == k.placed && KnownOf(f.steps).customers == k.customers
  {
    var known := KnownOf(f.steps);
    forall x ensures KnownInSync(Played(f).books, known, x) {
      KnownIsRecorded(f.steps, x);
    }
    forall x: int ensures x in known.placed <==> x in k.placed {
      assert KnownInSync(Played(f).books, known, x) && KnownInSync(Played(f).books, k, x);
    }
    forall x: int ensures x in known.customers <==> x in k.customers {
      assert KnownInSync(Played(f).books, known, x) && KnownInSync(Played(f).books, k, x);
    }
    assert known.placed == k.placed && known.customers == k.customers;
  }

  // Once the first day has begun, such steps keep a script orderly.
  lemma {:induction false} GrownOrderly(steps: Script, steps': Script, products: nat)
    requires Grown(steps, steps', products) && Play(Empty(), steps').error.None? && AllOrderly(Empty(), steps)
    requires Play(Empty(), steps).books.day >= 1
    requires forall p :: 0 <= p < products ==> Int(p) in Play(Empty(), steps).books.products
    ensures AllOrderly(Empty(), steps') && Play(Empty(), steps').books.day == Play(Empty(), steps).books.day
    ensures forall p :: 0 <= p < products ==> Int(p) in Play(Empty(), steps').books.products
    decreases |steps'|
  {
    if |steps'| > |steps| {
      var init, last := steps'[..|steps'| - 1], steps'[|steps'| - 1];
      assert steps' == init + [last];
      PlayAppend(Empty(), init, [last]);
      GrownOrderly(steps, init, products);
      PlayOne(init, last);
      assert Trade(last, products);
      OrderlyAppend(Empty(), init, last);
    } else {
      assert steps' == steps;
    }
  }

  lemma ProductsKnown(d: Desk, low: int, todo: Script, rest: Script, hor: nat)
    requires DeskOk(d, low, todo, rest, hor)
    ensures forall p :: 0 <= p < |d.inventory| ==>
              Int(p) in Play(Empty(), d.steps).books.products && (Ahead(todo, p) == 0 ==> d.inventory[p].stock >= 0)
  {
    forall p | 0 <= p < |d.inventory|
      ensures Int(p) in Play(Empty(), d.steps).books.products && (Ahead(todo, p) == 0 ==> d.inventory[p].stock >= 0)
    {
      assert RecordInSync(Play(Empty(), d.steps).books, d.inventory, Ahead(todo, p), p);
    }
  }
}
