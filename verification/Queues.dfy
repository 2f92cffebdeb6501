/** Where the orders of a script are: placed, written as Pending, waiting in a backorder queue, or waiting for their
    shipping day.  Every submission conserves them, order by order. */
module Queues {
  import opened Company
  import opened Scripting

  datatype Kind = Placements | Reservations | Shipments

  // An order is placed by its AddOrder step, takes stock with a Pending step, and leaves with a Shipped one.
  predicate Counts(step: Step, kind: Kind) {
    match kind
    case Placements => step.AddOrder?
    case Reservations => IsOrder(step) && step.order.status == Pending
    case Shipments => IsOrder(step) && step.order.status == Shipped
  }

  function One(step: Step, kind: Kind, x: int): nat {
    if Counts(step, kind) && step.order.id == x then 1 else 0
  }

  // How many of the first `n` steps are of this kind and for order `x`.
  function CountTo(steps: Script, n: nat, kind: Kind, x: int): nat
    requires n <= |steps|
  {
    if n == 0 then 0 else CountTo(steps, n - 1, kind, x) + One(steps[n - 1], kind, x)
  }

  function Count(steps: Script, kind: Kind, x: int): nat {
    CountTo(steps, |steps|, kind, x)
  }

  lemma {:induction false} CountGrow(steps: Script, more: Script, n: nat, kind: Kind, x: int)
    requires n <= |steps|
    ensures CountTo(steps + more, n, kind, x) == CountTo(steps, n, kind, x)
  {
    if n > 0 {
      CountGrow(steps, more, n - 1, kind, x);
    }
  }

  lemma CountAppend(steps: Script, step: Step, kind: Kind, x: int)
    ensures Count(steps + [step], kind, x) == Count(steps, kind, x) + One(step, kind, x)
  {
    CountGrow(steps, [step], |steps|, kind, x);
  }

  // How often order `x` is still to be submitted with this status.
  function Todo(todo: Script, status: OrderStatus, x: int): nat
    decreases |todo|
  {
    if todo == [] then 0
    else
      (if IsOrder(todo[0]) && todo[0].order.status == status && todo[0].order.id == x then 1 else 0)
      + Todo(todo[1..], status, x)
  }

  // ---- Queues hold positions of order steps.

  predicate IsAt(steps: Script, i: nat, x: int) {
    i < |steps| && IsOrder(steps[i]) && steps[i].order.id == x
  }

  // How many of the first `n` entries of the queue are for order `x`.
  function InQueueTo(steps: Script, queue: seq<nat>, n: nat, x: int): nat
    requires n <= |queue|
  {
    if n == 0 then 0 else InQueueTo(steps, queue, n - 1, x) + if IsAt(steps, queue[n - 1], x) then 1 else 0
  }

  function InQueue(steps: Script, queue: seq<nat>, x: int): nat {
    InQueueTo(steps, queue, |queue|, x)
  }

  lemma {:induction false} InQueuePrefix(steps: Script, a: seq<nat>, b: seq<nat>, n: nat, x: int)
    requires n <= |a|
    ensures InQueueTo(steps, a + b, n, x) == InQueueTo(steps, a, n, x)
  {
    if n > 0 {
      InQueuePrefix(steps, a, b, n - 1, x);
    }
  }

  lemma {:induction false} InQueueSuffix(steps: Script, a: seq<nat>, b: seq<nat>, n: nat, x: int)
    requires n <= |b|
    ensures InQueueTo(steps, a + b, |a| + n, x) == InQueue(steps, a, x) + InQueueTo(steps, b, n, x)
  {
    if n == 0 {
      InQueuePrefix(steps, a, b, |a|, x);
    } else {
      InQueueSuffix(steps, a, b, n - 1, x);
      assert (a + b)[|a| + n - 1] == b[n - 1];
    }
  }

  lemma InQueueConcat(steps: Script, a: seq<nat>, b: seq<nat>, x: int)
    ensures InQueue(steps, a + b, x) == InQueue(steps, a, x) + InQueue(steps, b, x)
  {
    InQueueSuffix(steps, a, b, |b|, x);
  }

  predicate InScript(steps: Script, queue: seq<nat>) {
    forall j :: 0 <= j < |queue| ==> queue[j] < |steps|
  }

  lemma {:induction false} InQueueGrowTo(steps: Script, more: Script, queue: seq<nat>, n: nat, x: int)
    requires InScript(steps, queue) && n <= |queue|
    ensures InQueueTo(steps + more, queue, n, x) == InQueueTo(steps, queue, n, x)
  {
    if n > 0 {
      InQueueGrowTo(steps, more, queue, n - 1, x);
    }
  }

  lemma InQueueGrow(steps: Script, more: Script, queue: seq<nat>, x: int)
    requires InScript(steps, queue)
    ensures InQueue(steps + more, queue, x) == InQueue(steps, queue, x)
  {
    InQueueGrowTo(steps, more, queue, |queue|, x);
  }

  function Positions(entries: seq<(int, nat)>): seq<nat> {
    seq(|entries|, i requires 0 <= i < |entries| => entries[i].1)
  }

  lemma EntryAdded(steps: Script, entries: seq<(int, nat)>, e: (int, nat), x: int)
    ensures InQueue(steps, Positions(entries + [e]), x) ==
            InQueue(steps, Positions(entries), x) + if IsAt(steps, e.1, x) then 1 else 0
  {
    assert Positions(entries + [e]) == Positions(entries) + [e.1];
    InQueueConcat(steps, Positions(entries), [e.1], x);
    assert InQueueTo(steps, [e.1], 1, x) == InQueueTo(steps, [e.1], 0, x) + if IsAt(steps, e.1, x) then 1 else 0;
  }

  // ---- A submission conserves the orders.

  // Entries of the backorder queues are for backordered orders of that product, entries of the pending queue for
  // pending orders that are due later.
  predicate Backorder(steps: Script, p: int, i: nat) {
    i < |steps| && IsOrder(steps[i]) && steps[i].order.status == Backordered && steps[i].order.productId == p
  }

  predicate Awaiting(steps: Script, i: nat) {
    i < |steps| && IsOrder(steps[i]) && steps[i].order.status == Pending
  }

  predicate ForProducts(entries: seq<(int, nat)>, n: nat) {
    forall j :: 0 <= j < |entries| ==> 0 <= entries[j].0 < n
  }

  predicate EntriesOk(d: Draft, day: int) {
    && ForProducts(d.again, |d.inventory|) && ForProducts(d.newly, |d.inventory|)
    && (forall j :: 0 <= j < |d.again| ==> Backorder(d.steps, d.again[j].0, d.again[j].1))
    && (forall j :: 0 <= j < |d.newly| ==> Backorder(d.steps, d.newly[j].0, d.newly[j].1))
    && (forall j :: 0 <= j < |d.pending| ==>
          day < d.pending[j].0 <= day + MAX_HANDLING && Awaiting(d.steps, d.pending[j].1))
  }

  function InDraft(d: Draft, x: int): nat {
    InQueue(d.steps, Positions(d.again), x) + InQueue(d.steps, Positions(d.newly), x)
  }

  // Order `x` is in the backorder queues `queued` times and in the pending queue `waiting` times, besides the draft's
  // own entries and what is still to be submitted.
  predicate Conserved(d: Draft, todo: Script, x: int, queued: int, waiting: int) {
    && Count(d.steps, Placements, x) ==
       Count(d.steps, Reservations, x) + Todo(todo, Recheck, x) + queued + InDraft(d, x)
    && Count(d.steps, Reservations, x) ==
       Count(d.steps, Shipments, x) + Todo(todo, Shipped, x) + waiting + InQueue(d.steps, Positions(d.pending), x)
  }

  // The counts of a draft with one more step and the same entries.
  lemma StepAdded(d: Draft, day: int, step: Step, x: int)
    requires EntriesOk(d, day)
    ensures var d1 := d.(steps := d.steps + [step]);
            && EntriesOk(d1, day) && InDraft(d1, x) == InDraft(d, x)
            && InQueue(d1.steps, Positions(d.pending), x) == InQueue(d.steps, Positions(d.pending), x)
            && Count(d1.steps, Placements, x) == Count(d.steps, Placements, x) + One(step, Placements, x)
            && Count(d1.steps, Reservations, x) == Count(d.steps, Reservations, x) + One(step, Reservations, x)
            && Count(d1.steps, Shipments, x) == Count(d.steps, Shipments, x) + One(step, Shipments, x)
  {
    InQueueGrow(d.steps, [step], Positions(d.again), x);
    InQueueGrow(d.steps, [step], Positions(d.newly), x);
    InQueueGrow(d.steps, [step], Positions(d.pending), x);
    CountAppend(d.steps, step, Placements, x);
    CountAppend(d.steps, step, Reservations, x);
    CountAppend(d.steps, step, Shipments, x);
  }

  // The four outcomes of writing a step.

  function Backlogged(d: Draft, step: Step): Draft
    requires IsOrder(step)
  {
    var written := WithOrder(step, step.order.(status := Backordered));
    var e := (step.order.productId, |d.steps|);
    var d1 := d.(steps := d.steps + [written]);
    if step.order.status == New then d1.(newly := d.newly + [e]) else d1.(again := d.again + [e])
  }

  function Waits(d: Draft, step: Step, due: int): Draft
    requires IsOrder(step)
  {
    var written := WithOrder(step, step.order.(status := Pending));
    d.(steps := d.steps + [written], pending := d.pending + [(due, |d.steps|)])
  }

  function Leaves(d: Draft, step: Step): Draft
    requires IsOrder(step)
  {
    var written := WithOrder(step, step.order.(status := Pending));
    d.(steps := d.steps + [written] + [UpdateOrder(step.order.(status := Shipped))])
  }

  predicate Asks(step: Step) {
    IsOrder(step) && (step.order.status == New || step.order.status == Recheck)
  }

  lemma WriteOutcome(d: Draft, day: int, step: Step)
    requires Write(d, day, step).Some?
    ensures Asks(step) ==> 0 <= step.order.productId < |d.inventory|
    ensures var d' := Write(d, day, step).value;
            var d0 := d.(inventory := d'.inventory);
            if !Asks(step) then d' == d.(steps := d.steps + [step])
            else
              var r := d.inventory[step.order.productId];
              if r.stock < step.order.quantity then d' == Backlogged(d0, step)
              else if r.handlingDays > 0 then d' == Waits(d0, step, day + r.handlingDays)
              else d' == Leaves(d0, step)
  {
  }

  lemma QueuedConserves(d: Draft, day: int, todo: Script, step: Step, x: int, queued: int, waiting: int)
    requires IsOrder(step) && step.order.status == (if step.AddOrder? then New else Recheck)
    requires 0 <= step.order.productId < |d.inventory|
    requires EntriesOk(d, day) && Conserved(d, [step] + todo, x, queued, waiting)
    ensures EntriesOk(Backlogged(d, step), day) && Conserved(Backlogged(d, step), todo, x, queued, waiting)
  {
    var o := step.order;
    var written := WithOrder(step, o.(status := Backordered));
    StepAdded(d, day, written, x);
    EntryAdded(d.steps + [written], if step.AddOrder? then d.newly else d.again, (o.productId, |d.steps|), x);
    assert ([step] + todo)[1..] == todo;
  }

  lemma WaitsConserves(d: Draft, day: int, todo: Script, step: Step, due: int, x: int, queued: int, waiting: int)
    requires IsOrder(step) && step.order.status == (if step.AddOrder? then New else Recheck)
    requires day < due <= day + MAX_HANDLING
    requires EntriesOk(d, day) && Conserved(d, [step] + todo, x, queued, waiting)
    ensures EntriesOk(Waits(d, step, due), day) && Conserved(Waits(d, step, due), todo, x, queued, waiting)
  {
    var written := WithOrder(step, step.order.(status := Pending));
    StepAdded(d, day, written, x);
    EntryAdded(d.steps + [written], d.pending, (due, |d.steps|), x);
    assert ([step] + todo)[1..] == todo;
  }

  lemma LeavesConserves(d: Draft, day: int, todo: Script, step: Step, x: int, queued: int, waiting: int)
    requires IsOrder(step) && step.order.status == (if step.AddOrder? then New else Recheck)
    requires EntriesOk(d, day) && Conserved(d, [step] + todo, x, queued, waiting)
    ensures EntriesOk(Leaves(d, step), day) && Conserved(Leaves(d, step), todo, x, queued, waiting)
  {
    var written := WithOrder(step, step.order.(status := Pending));
    StepAdded(d, day, written, x);
    StepAdded(d.(steps := d.steps + [written]), day, UpdateOrder(step.order.(status := Shipped)), x);
    assert ([step] + todo)[1..] == todo;
  }

  // Any other step queues nothing.
  lemma OtherConserves(d: Draft, day: int, todo: Script, step: Step, x: int, queued: int, waiting: int)
    requires IsOrder(step) ==> step.UpdateOrder? && (step.order.status == Shipped || step.order.status == Refunded)
    requires EntriesOk(d, day) && Conserved(d, [step] + todo, x, queued, waiting)
    ensures var d1 := d.(steps := d.steps + [step]); EntriesOk(d1, day) && Conserved(d1, todo, x, queued, waiting)
  {
    StepAdded(d, day, step, x);
    assert ([step] + todo)[1..] == todo;
  }

  // An order that is to be placed or rechecked takes one of the three outcomes.
  lemma AskedConserves(d: Draft, day: int, todo: Script, step: Step, x: int, queued: int, waiting: int)
    requires Write(d, day, step).Some? && Asks(step) && step.order.status == (if step.AddOrder? then New else Recheck)
    requires forall p :: 0 <= p < |d.inventory| ==> d.inventory[p].handlingDays <= MAX_HANDLING
    requires EntriesOk(d, day) && Conserved(d, [step] + todo, x, queued, waiting)
    ensures var d' := Write(d, day, step).value; EntriesOk(d', day) && Conserved(d', todo, x, queued, waiting)
  {
    WriteOutcome(d, day, step);
    var d0 := d.(inventory := Write(d, day, step).value.inventory);
    assert |d0.inventory| == |d.inventory|;
    assert Conserved(d0, [step] + todo, x, queued, waiting) && EntriesOk(d0, day);
    var r := d.inventory[step.order.productId];
    if r.stock < step.order.quantity {
      QueuedConserves(d0, day, todo, step, x, queued, waiting);
    } else if r.handlingDays > 0 {
      WaitsConserves(d0, day, todo, step, day + r.handlingDays, x, queued, waiting);
    } else {
      LeavesConserves(d0, day, todo, step, x, queued, waiting);
    }
  }

  // Writing one step: an order that was to be rechecked or shipped is written so, or queued again.
  lemma WriteConserves(d: Draft, day: int, todo: Script, k: Known, x: int, queued: int, waiting: int)
    requires todo != [] && FineStep(todo[0], k, |d.inventory|) && Write(d, day, todo[0]).Some?
    requires forall p :: 0 <= p < |d.inventory| ==> d.inventory[p].handlingDays <= MAX_HANDLING
    requires EntriesOk(d, day) && Conserved(d, todo, x, queued, waiting)
    ensures var d' := Write(d, day, todo[0]).value;
            EntriesOk(d', day) && Conserved(d', todo[1..], x, queued, waiting)
  {
    assert todo == [todo[0]] + todo[1..];
    if Asks(todo[0]) {
      AskedConserves(d, day, todo[1..], todo[0], x, queued, waiting);
    } else {
      WriteOutcome(d, day, todo[0]);
      var d0 := d.(inventory := Write(d, day, todo[0]).value.inventory);
      OtherConserves(d0, day, todo[1..], todo[0], x, queued, waiting);
    }
  }

  lemma {:induction false} WriteAllConserves(d: Draft, day: int, todo: Script, k: Known, x: int, queued: int,
                                             waiting: int)
    requires Agrees(d, todo, k) && Fine(todo, k, |d.inventory|) && StockFirst(todo)
    requires EntriesOk(d, day) && Conserved(d, todo, x, queued, waiting)
    ensures WriteAll(d, day, todo).Some?
    ensures var d' := WriteAll(d, day, todo).value;
            EntriesOk(d', day) && Conserved(d', [], x, queued, waiting)
    decreases |todo|
  {
    if todo != [] {
      WriteAgrees(d, day, todo, k);
      forall p | 0 <= p < |d.inventory| ensures d.inventory[p].handlingDays <= MAX_HANDLING {
        assert RecordInSync(Played(d).books, d.inventory, Ahead(todo, p), p);
      }
      WriteConserves(d, day, todo, k, x, queued, waiting);
      WriteAllConserves(Write(d, day, todo[0]).value, day, todo[1..], Learn(k, todo[0]), x, queued, waiting);
    }
  }
}
