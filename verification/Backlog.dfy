/** The backorder queues: in which order a submission leaves them, and that no order waits at the head of its queue
    which the stock on hand could serve. */
module Backlog {
  import opened Company
  import opened Scripting
  import opened Queues
  import opened ScriptDesk

  // ---- The order in which entries are filed.

  // The positions filed under `p`, in turn.
  function EntriesFor(entries: seq<(int, nat)>, n: nat, p: int): seq<nat>
    requires n <= |entries|
  {
    if n == 0 then []
    else EntriesFor(entries, n - 1, p) + if entries[n - 1].0 == p then [entries[n - 1].1] else []
  }

  function Backwards(queue: seq<nat>): (r: seq<nat>)
    ensures |r| == |queue|
    ensures forall i :: 0 <= i < |queue| ==> r[i] == queue[|queue| - 1 - i]
  {
    seq(|queue|, i requires 0 <= i < |queue| => queue[|queue| - 1 - i])
  }

  // Orders queued again stand before all others, the last one first.
  lemma {:induction false} FrontFiled(backorders: seq<seq<nat>>, entries: seq<(int, nat)>, n: nat, p: nat)
    requires n <= |entries| && ForProducts(entries, |backorders|) && p < |backorders|
    ensures FileFront(backorders, entries, n)[p] == Backwards(EntriesFor(entries, n, p)) + backorders[p]
  {
    if n == 0 {
      assert Backwards([]) + backorders[p] == backorders[p];
    } else {
      FrontFiled(backorders, entries, n - 1, p);
      if entries[n - 1].0 == p {
        var before := EntriesFor(entries, n - 1, p);
        assert Backwards(before + [entries[n - 1].1]) == [entries[n - 1].1] + Backwards(before);
      } else {
        assert EntriesFor(entries, n, p) == EntriesFor(entries, n - 1, p);
      }
    }
  }

  // New backorders stand behind all others, in turn.
  lemma {:induction false} BackFiled(backorders: seq<seq<nat>>, entries: seq<(int, nat)>, n: nat, p: nat)
    requires n <= |entries| && ForProducts(entries, |backorders|) && p < |backorders|
    ensures FileBack(backorders, entries, n)[p] == backorders[p] + EntriesFor(entries, n, p)
  {
    if n > 0 {
      BackFiled(backorders, entries, n - 1, p);
    }
  }

  // Pending orders are filed under the day they are due, in turn.
  lemma {:induction false} PendingFiled(pending: map<int, seq<nat>>, entries: seq<(int, nat)>, n: nat, day: int)
    requires n <= |entries|
    ensures QueueOn(FilePending(pending, entries, n), day) == QueueOn(pending, day) + EntriesFor(entries, n, day)
  {
    if n > 0 {
      PendingFiled(pending, entries, n - 1, day);
    }
  }

  // ---- No order waits in vain.

  // The order at position `i` asks for more of product `p` than there is.
  predicate TooMuch(steps: Script, inventory: seq<InventoryRecord>, p: int, i: nat) {
    0 <= p < |inventory| && i < |steps| && IsOrder(steps[i]) && steps[i].order.quantity > inventory[p].stock
  }

  predicate HeadWaits(steps: Script, inventory: seq<InventoryRecord>, backorders: seq<seq<nat>>, p: nat) {
    p < |backorders| && backorders[p] != [] ==> TooMuch(steps, inventory, p, backorders[p][0])
  }

  // A longer script leaves the queues as they are.
  lemma StillWaits(steps: Script, steps': Script, inventory: seq<InventoryRecord>, backorders: seq<seq<nat>>, p: nat)
    requires HeadWaits(steps, inventory, backorders, p) && steps <= steps'
    ensures HeadWaits(steps', inventory, backorders, p)
  {
  }

  predicate EntriesWait(steps: Script, inventory: seq<InventoryRecord>, entries: seq<(int, nat)>) {
    forall j :: 0 <= j < |entries| ==> TooMuch(steps, inventory, entries[j].0, entries[j].1)
  }

  predicate StockFell(inventory: seq<InventoryRecord>, inventory': seq<InventoryRecord>) {
    |inventory'| == |inventory| && forall p :: 0 <= p < |inventory| ==> inventory'[p].stock <= inventory[p].stock
  }

  predicate NonNegative(step: Step) {
    Asks(step) ==> step.order.quantity >= 0
  }

  lemma {:induction false} FineIsNonNegative(todo: Script, k: Known, products: nat)
    requires Fine(todo, k, products)
    ensures forall i :: 0 <= i < |todo| ==> NonNegative(todo[i])
    decreases |todo|
  {
    if todo != [] {
      FineIsNonNegative(todo[1..], Learn(k, todo[0]), products);
      assert todo == [todo[0]] + todo[1..];
    }
  }

  // Whatever a step is written as, the entries made so far and its own stand for orders that cannot be served.
  lemma WriteWaits(d: Draft, day: int, step: Step)
    requires Write(d, day, step).Some? && NonNegative(step)
    requires EntriesWait(d.steps, d.inventory, d.again) && EntriesWait(d.steps, d.inventory, d.newly)
    ensures var d' := Write(d, day, step).value;
            && d.steps <= d'.steps && StockFell(d.inventory, d'.inventory)
            && EntriesWait(d'.steps, d'.inventory, d'.again) && EntriesWait(d'.steps, d'.inventory, d'.newly)
  {
    var d' := Write(d, day, step).value;
    WriteOutcome(d, day, step);
    forall j | 0 <= j < |d'.again| ensures TooMuch(d'.steps, d'.inventory, d'.again[j].0, d'.again[j].1) {
      assert j < |d.again| ==> TooMuch(d.steps, d.inventory, d.again[j].0, d.again[j].1);
    }
    forall j | 0 <= j < |d'.newly| ensures TooMuch(d'.steps, d'.inventory, d'.newly[j].0, d'.newly[j].1) {
      assert j < |d.newly| ==> TooMuch(d.steps, d.inventory, d.newly[j].0, d.newly[j].1);
    }
  }

  lemma {:induction false} WriteAllWaits(d: Draft, day: int, todo: Script)
    requires WriteAll(d, day, todo).Some? && forall i :: 0 <= i < |todo| ==> NonNegative(todo[i])
    requires EntriesWait(d.steps, d.inventory, d.again) && EntriesWait(d.steps, d.inventory, d.newly)
    ensures var d' := WriteAll(d, day, todo).value;
            && d.steps <= d'.steps && StockFell(d.inventory, d'.inventory)
            && EntriesWait(d'.steps, d'.inventory, d'.again) && EntriesWait(d'.steps, d'.inventory, d'.newly)
    decreases |todo|
  {
    if todo != [] {
      assert NonNegative(todo[0]);
      WriteWaits(d, day, todo[0]);
      WriteAllWaits(Write(d, day, todo[0]).value, day, todo[1..]);
    }
  }

  lemma {:induction false} FromEntries(entries: seq<(int, nat)>, n: nat, p: int, i: nat)
    requires n <= |entries| && i < |EntriesFor(entries, n, p)|
    ensures exists j :: 0 <= j < n && entries[j].0 == p && entries[j].1 == EntriesFor(entries, n, p)[i]
  {
    if i < |EntriesFor(entries, n - 1, p)| {
      FromEntries(entries, n - 1, p, i);
    }
  }

  // A submission leaves at the head of each queue an order that the stock on hand cannot serve, if there was one.
  lemma SubmitWaits(d: Desk, day: int, todo: Script, p: nat)
    requires Submit(d, day, todo).Some? && forall i :: 0 <= i < |todo| ==> NonNegative(todo[i])
    requires HeadWaits(d.steps, d.inventory, d.backorders, p)
    ensures var d' := Submit(d, day, todo).value; HeadWaits(d'.steps, d'.inventory, d'.backorders, p)
  {
    WriteAllWaits(DraftOf(d), day, todo);
    var f := WriteAll(DraftOf(d), day, todo).value;
    var front := FileFront(d.backorders, f.again, |f.again|);
    if p < |d.backorders| {
      var again, newly := EntriesFor(f.again, |f.again|, p), EntriesFor(f.newly, |f.newly|, p);
      FrontFiled(d.backorders, f.again, |f.again|, p);
      BackFiled(front, f.newly, |f.newly|, p);
      var queue := FileBack(front, f.newly, |f.newly|)[p];
      assert queue == Backwards(again) + d.backorders[p] + newly;
      if again != [] {
        FromEntries(f.again, |f.again|, p, |again| - 1);
        assert queue[0] == again[|again| - 1];
      } else if d.backorders[p] == [] && newly != [] {
        FromEntries(f.newly, |f.newly|, p, 0);
        assert queue[0] == newly[0];
      }
    }
  }
}
