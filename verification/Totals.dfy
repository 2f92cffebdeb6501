/** What a script amounts to: how often each thing happens in it, how often a product has been viewed, and how many
    items of it have been brought.  A submission may queue orders and write them in other words, but it adds up to what
    was submitted. */
module Totals {
  import opened Company
  import opened Scripting
  import opened Queues
  import opened ScriptDesk

  datatype Topic =
    | Days(day: int) | Visits | Logins(customerId: int) | Registered(id: int)
    | Ordered(id: int) | Returned(id: int) | Viewings(productId: int)
    | Collections | Checks(productId: int) | AllChecks
    | Products(id: int) | Stocked(productId: int) | Brought(productId: int)

  // What one step counts for.  Steps that only move an order on count for nothing.
  function Weight(step: Step, topic: Topic): int {
    match step
    case Day(d) => if topic == Days(d) then 1 else 0
    case AddProduct(p) => if topic == Products(p.id) then 1 else if topic == Viewings(p.id) then p.views else 0
    case AddInventoryRecord(r) =>
      if topic == Stocked(r.productId) then 1 else if topic == Brought(r.productId) then r.stock else 0
    case AddCustomer(c) => if topic == Registered(c.id) then 1 else 0
    case AddOrder(o) => if topic == Ordered(o.id) then 1 else 0
    case UpdateOrder(o) => if o.status == Refunded && topic == Returned(o.id) then 1 else 0
    case AddStock(p, n) => if topic == Brought(p) then n else 0
    case AddSession(s) =>
      if topic == (if s.customerId.None? then Visits else Logins(s.customerId.value)) then 1 else 0
    case UpdateSession(s) => if s.customerId.Some? && topic == Logins(s.customerId.value) then 1 else 0
    case ViewProduct(p) => if topic == Viewings(p) then 1 else 0
    case CollectSessions => if topic == Collections then 1 else 0
    case CheckInventory(p, _) => if topic == Checks(p) || topic == AllChecks then 1 else 0
    case Title => 0
  }

  function TotalTo(steps: Script, n: nat, topic: Topic): int
    requires n <= |steps|
  {
    if n == 0 then 0 else TotalTo(steps, n - 1, topic) + Weight(steps[n - 1], topic)
  }

  function Total(steps: Script, topic: Topic): int {
    TotalTo(steps, |steps|, topic)
  }

  // The script has come to amount to as much more as `added` does.
  ghost predicate Gained(before: Script, after: Script, added: Script) {
    forall topic :: GainedOf(before, after, added, topic)
  }

  predicate GainedOf(before: Script, after: Script, added: Script, topic: Topic) {
    Total(after, topic) == Total(before, topic) + Total(added, topic)
  }

  lemma {:induction false} TotalConcatTo(a: Script, b: Script, n: nat, topic: Topic)
    requires n <= |b|
    ensures TotalTo(a + b, |a| + n, topic) == Total(a, topic) + TotalTo(b, n, topic)
    decreases n
  {
    if n == 0 {
      TotalPrefix(a, b, |a|, topic);
    } else {
      TotalConcatTo(a, b, n - 1, topic);
      assert (a + b)[|a| + n - 1] == b[n - 1];
    }
  }

  lemma {:induction false} TotalPrefix(a: Script, b: Script, n: nat, topic: Topic)
    requires n <= |a|
    ensures TotalTo(a + b, n, topic) == TotalTo(a, n, topic)
  {
    if n > 0 {
      TotalPrefix(a, b, n - 1, topic);
    }
  }

  lemma TotalConcat(a: Script, b: Script, topic: Topic)
    ensures Total(a + b, topic) == Total(a, topic) + Total(b, topic)
  {
    TotalConcatTo(a, b, |b|, topic);
  }

  lemma TotalOne(step: Step, topic: Topic)
    ensures Total([step], topic) == Weight(step, topic)
  {
    assert TotalTo([step], 0, topic) == 0;
  }

  lemma GainedByAppending(before: Script, added: Script)
    ensures Gained(before, before + added, added)
  {
    forall topic ensures GainedOf(before, before + added, added, topic) {
      TotalConcat(before, added, topic);
    }
  }

  lemma GainedTwice(a: Script, b: Script, c: Script, x: Script, y: Script)
    requires Gained(a, b, x) && Gained(b, c, y)
    ensures Gained(a, c, x + y)
  {
    forall topic ensures GainedOf(a, c, x + y, topic) {
      assert GainedOf(a, b, x, topic) && GainedOf(b, c, y, topic);
      TotalConcat(x, y, topic);
    }
  }

  // A script that amounts to the same stands for another.
  lemma GainedAs(a: Script, b: Script, x: Script, y: Script)
    requires Gained(a, b, x) && Gained([], x, y)
    ensures Gained(a, b, y)
  {
    forall topic ensures GainedOf(a, b, y, topic) {
      assert GainedOf(a, b, x, topic) && GainedOf([], x, y, topic);
    }
  }

  // What the script has grown by amounts to that.
  lemma GainedSince(before: Script, after: Script, x: Script)
    requires before <= after && Gained(before, after, x)
    ensures Gained([], after[|before|..], x)
  {
    var added := after[|before|..];
    assert after == before + added;
    forall topic ensures GainedOf([], added, x, topic) {
      assert GainedOf(before, after, x, topic);
      TotalConcat(before, added, topic);
    }
  }

  // ---- Submissions.

  lemma WriteGains(d: Draft, day: int, step: Step)
    requires Write(d, day, step).Some?
    ensures Gained(d.steps, Write(d, day, step).value.steps, [step])
  {
    var d' := Write(d, day, step).value;
    forall topic ensures GainedOf(d.steps, d'.steps, [step], topic) {
      WriteGainsOf(d, day, step, topic);
    }
  }

  lemma WriteGainsOf(d: Draft, day: int, step: Step, topic: Topic)
    requires Write(d, day, step).Some?
    ensures GainedOf(d.steps, Write(d, day, step).value.steps, [step], topic)
  {
    WriteOutcome(d, day, step);
    TotalOne(step, topic);
    var d0 := d.(inventory := Write(d, day, step).value.inventory);
    if Asks(step) {
      var r := d.inventory[step.order.productId];
      var status := if r.stock < step.order.quantity then Backordered else Pending;
      var written := WithOrder(step, step.order.(status := status));
      var shipped := UpdateOrder(step.order.(status := Shipped));
      TotalConcat(d.steps, [written], topic);
      TotalOne(written, topic);
      TotalConcat(d.steps + [written], [shipped], topic);
      TotalOne(shipped, topic);
    } else {
      TotalConcat(d.steps, [step], topic);
    }
  }

  lemma {:induction false} WriteAllGains(d: Draft, day: int, todo: Script)
    requires WriteAll(d, day, todo).Some?
    ensures Gained(d.steps, WriteAll(d, day, todo).value.steps, todo)
    decreases |todo|
  {
    if todo == [] {
      forall topic ensures GainedOf(d.steps, d.steps, [], topic) {
      }
    } else {
      var d1 := Write(d, day, todo[0]).value;
      WriteGains(d, day, todo[0]);
      WriteAllGains(d1, day, todo[1..]);
      GainedTwice(d.steps, d1.steps, WriteAll(d, day, todo).value.steps, [todo[0]], todo[1..]);
      assert [todo[0]] + todo[1..] == todo;
    }
  }

  // A submission adds up to what was submitted.
  lemma SubmitGains(d: Desk, day: int, todo: Script)
    requires Submit(d, day, todo).Some?
    ensures Gained(d.steps, Submit(d, day, todo).value.steps, todo)
  {
    WriteAllGains(DraftOf(d), day, todo);
  }

  // Steps that only move orders on count for nothing.
  lemma MovesGainNothing(steps: Script, moves: Script)
    requires forall i :: 0 <= i < |moves| ==> IsMove(moves[i])
    ensures Gained([], steps + moves, steps)
  {
    forall topic ensures GainedOf([], steps + moves, steps, topic) {
      NothingTo(moves, |moves|, topic);
      TotalConcat(steps, moves, topic);
    }
  }

  lemma {:induction false} NothingGained(steps: Script)
    requires forall i :: 0 <= i < |steps| ==> IsMove(steps[i])
    ensures Gained([], steps, [])
  {
    forall topic ensures GainedOf([], steps, [], topic) {
      NothingTo(steps, |steps|, topic);
    }
  }

  // An order is moved on, and not returned.
  predicate IsMove(step: Step) {
    step.UpdateOrder? && step.order.status != Refunded
  }

  lemma {:induction false} NothingTo(steps: Script, n: nat, topic: Topic)
    requires n <= |steps| && forall i :: 0 <= i < |steps| ==> IsMove(steps[i])
    ensures TotalTo(steps, n, topic) == 0
  {
    if n > 0 {
      NothingTo(steps, n - 1, topic);
    }
  }
}
