/** The company that acts on its tables directly, updated in place, and the interpreter that takes it through a
    screenplay. */
module PlainCompany {
  import opened Records
  import opened Company

  class TestCompany {
    var products: Rows
    var inventory: Rows
    var customers: Rows
    var orders: Rows
    var sessions: Rows
    var currentDay: int
    var updatedFrom: map<int, Order>
    var invCheckNo: nat

    constructor ()
      ensures Abs() == Empty()
    {
      products, inventory, customers, orders, sessions := map[], map[], map[], map[], map[];
      currentDay, updatedFrom, invCheckNo := 0, map[], 0;
    }

    ghost function Abs(): Books
      reads this
    {
      Books(products, inventory, customers, orders, sessions, currentDay, updatedFrom, invCheckNo)
    }

    method UpdateInventoryRecord(productId: int, quantity: int) returns (error: Option<Error>)
      modifies this`inventory
      ensures Outcome(Abs(), error) == MoveStock(old(Abs()), productId, quantity)
    {
      var record := Lookup(inventory, Int(productId));
      if record.None? {
        return Some(NoInventoryRecord);
      }
      var newStock := IntAt(record.value, STOCK) + quantity;
      if newStock < 0 {
        return Some(NotEnoughStock);
      }
      inventory := inventory[Int(productId) := With(record.value, STOCK, Int(newStock))];
      return None;
    }

    method UpdateInventory(order: Order) returns (error: Option<Error>)
      modifies this`inventory, this`updatedFrom
      ensures Outcome(Abs(), error) == TakeStock(old(Abs()), order)
    {
      match order.status
      case Backordered | Refunded | Shipped | Recheck => return None;
      case _ =>
        if order.id in updatedFrom {
          return Some(AlreadyUpdated);
        }
        updatedFrom := updatedFrom[order.id := order];
        error := UpdateInventoryRecord(order.productId, -order.quantity);
    }

    method AddOrder(order: Order) returns (error: Option<Error>)
      modifies this
      ensures Outcome(Abs(), error) == PlainStep(old(Abs()), Step.AddOrder(order))
    {
      error := UpdateInventory(order);
      if error.Some? {
        return;
      }
      if Int(order.id) in orders {
        return Some(Duplicate);
      }
      if Int(order.customerId) !in customers || Int(order.productId) !in products {
        return Some(MissingReference);
      }
      orders := orders[Int(order.id) := OrderRow(order.(purchasedOn := currentDay))];
    }

    method UpdateOrder(order: Order) returns (error: Option<Error>)
      modifies this
      ensures Outcome(Abs(), error) == PlainStep(old(Abs()), Step.UpdateOrder(order))
    {
      error := UpdateInventory(order);
      if error.Some? {
        return;
      }
      var row := Lookup(orders, Int(order.id));
      if row.None? {
        return Some(MissingRow);
      }
      orders := orders[Int(order.id) := With(row.value, STATUS, StatusValue(order.status))];
    }

    method AddProduct(product: Product) returns (error: Option<Error>)
      modifies this`products
      ensures Outcome(Abs(), error) == PlainStep(old(Abs()), Step.AddProduct(product))
    {
      if Int(product.id) in products {
        return Some(Duplicate);
      }
      products := products[Int(product.id) := ProductRow(product)];
      return None;
    }

    method AddInventoryRecord(record: InventoryRecord) returns (error: Option<Error>)
      modifies this`inventory
      ensures Outcome(Abs(), error) == PlainStep(old(Abs()), Step.AddInventoryRecord(record))
    {
      if Int(record.productId) in inventory {
        return Some(Duplicate);
      }
      if Int(record.productId) !in products {
        return Some(MissingReference);
      }
      inventory := inventory[Int(record.productId) := InventoryRow(record)];
      return None;
    }

    method AddCustomer(customer: Customer) returns (error: Option<Error>)
      modifies this`customers
      ensures Outcome(Abs(), error) == PlainStep(old(Abs()), Step.AddCustomer(customer))
    {
      if Int(customer.id) in customers {
        return Some(Duplicate);
      }
      customers := customers[Int(customer.id) := CustomerRow(customer.(registeredOn := currentDay))];
      return None;
    }

    method CheckInventory(productId: int, stock: int) returns (error: Option<Error>)
      modifies this`invCheckNo
      ensures Outcome(Abs(), error) == PlainStep(old(Abs()), Step.CheckInventory(productId, stock))
    {
      error := InvRecCompare(Lookup(inventory, Int(productId)), stock);
      if error.None? {
        invCheckNo := invCheckNo + 1;
      }
    }

    method UpdateProductViewCount(productId: int) returns (error: Option<Error>)
      modifies this`products
      ensures Outcome(Abs(), error) == PlainStep(old(Abs()), ViewProduct(productId))
    {
      var row := Lookup(products, Int(productId));
      if row.Some? {
        products := products[Int(productId) := Viewed(row.value)];
      }
      return None;
    }

    method AddSession(session: Session) returns (error: Option<Error>)
      modifies this`sessions
      ensures Outcome(Abs(), error) == PlainStep(old(Abs()), Step.AddSession(session))
    {
      if Int(session.id) in sessions {
        return Some(Duplicate);
      }
      if session.customerId.Some? && Int(session.customerId.value) !in customers {
        return Some(MissingReference);
      }
      sessions := sessions[Int(session.id) := SessionRow(session)];
      return None;
    }

    method UpdateSession(session: Session) returns (error: Option<Error>)
      modifies this`sessions
      ensures Outcome(Abs(), error) == PlainStep(old(Abs()), Step.UpdateSession(session))
    {
      if Int(session.id) !in sessions {
        return Some(MissingRow);
      }
      if session.customerId.Some? && Int(session.customerId.value) !in customers {
        return Some(MissingReference);
      }
      sessions := sessions[Int(session.id) := SessionRow(session)];
      return None;
    }

    method CollectExpired()
      modifies this`sessions
      ensures Outcome(Abs(), None) == PlainStep(old(Abs()), CollectSessions)
    {
      sessions := map k | k in sessions && IntAt(sessions[k], 2) > currentDay :: sessions[k];
    }

    method Perform(step: Step) returns (error: Option<Error>)
      modifies this
      ensures Outcome(Abs(), error) == PlainStep(old(Abs()), step)
    {
      match step
      case Title => return None;
      case Day(day) =>
        currentDay := day;
        return None;
      case AddProduct(product) => error := AddProduct(product);
      case AddInventoryRecord(record) => error := AddInventoryRecord(record);
      case AddCustomer(customer) => error := AddCustomer(customer);
      case AddOrder(order) => error := AddOrder(order);
      case AddStock(productId, batchSize) => error := UpdateInventoryRecord(productId, batchSize);
      case UpdateOrder(order) => error := UpdateOrder(order);
      case CheckInventory(productId, stock) => error := CheckInventory(productId, stock);
      case AddSession(session) => error := AddSession(session);
      case UpdateSession(session) => error := UpdateSession(session);
      case ViewProduct(productId) => error := UpdateProductViewCount(productId);
      case CollectSessions =>
        CollectExpired();
        return None;
    }

    // `act`: after a failed step up to ten more are passed over before the failure is returned, so a failure close to
    // the end of the screenplay is not reported at all.  The tables are as after the failed step either way.
    method Act(screenplay: Script) returns (error: Option<ActError>)
      modifies this
      ensures error == ActResult(old(Abs()), screenplay)
      ensures Abs() == if StartsWell(screenplay) then Play(old(Abs()), screenplay).books else old(Abs())
    {
      if |screenplay| == 0 || !screenplay[0].Title? {
        return Some(NoTitle);
      }
      var err, postSteps: nat := None, 0;
      ghost var start := Abs();
      ghost var failedAt: nat := |screenplay|;
      for i := 0 to |screenplay|
        invariant err.None? ==> postSteps == 0 && Play(start, screenplay[..i]) == Outcome(Abs(), None)
        invariant err.Some? ==> failedAt + postSteps + 1 == i && postSteps <= SKIPPED
        invariant err.Some? ==> FailsAt(start, screenplay, failedAt)
        invariant err.Some? ==> Play(start, screenplay[..failedAt + 1]) == Outcome(Abs(), err)
      {
        if err.Some? {
          if postSteps < SKIPPED {
            postSteps := postSteps + 1;
            continue;
          }
          FirstFailure(start, screenplay, failedAt);
          return Some(StepFailed(err.value));
        }
        assert screenplay[..i + 1] == screenplay[..i] + [screenplay[i]];
        PlayAppend(start, screenplay[..i], [screenplay[i]]);
        OneStep(Abs(), screenplay[i]);
        err := Perform(screenplay[i]);
        if err.Some? {
          failedAt := i;
        }
      }
      assert screenplay[..|screenplay|] == screenplay;
      if err.Some? {
        FirstFailure(start, screenplay, failedAt);
      }
      return None;
    }
  }

  const SKIPPED: nat := 10

  datatype ActError = NoTitle | StepFailed(error: Error)

  function InvRecCompare(record: Option<Row>, stock: int): Option<Error> {
    if record.None? then Some(NoInventoryRecord)
    else if IntAt(record.value, STOCK) != stock then Some(WrongStock)
    else None
  }

  predicate StartsWell(script: Script) {
    |script| > 0 && script[0].Title?
  }

  // The first step that fails is number `i`.
  predicate FailsAt(b: Books, script: Script, i: nat) {
    i < |script| && Play(b, script[..i]).error.None? && PlainStep(Play(b, script[..i]).books, script[i]).error.Some?
  }

  // How many steps succeed.
  function Succeeding(b: Books, script: Script): (n: nat)
    ensures n <= |script| && (n == |script| <==> Play(b, script).error.None?)
    decreases |script|
  {
    if script == [] || PlainStep(b, script[0]).error.Some? then 0
    else 1 + Succeeding(PlainStep(b, script[0]).books, script[1..])
  }

  // A failure is reported exactly when more than ten steps follow the failed one.
  function ActResult(b: Books, script: Script): Option<ActError> {
    if !StartsWell(script) then Some(NoTitle)
    else
      var n := Succeeding(b, script);
      if n + 1 + SKIPPED < |script| then Some(StepFailed(Play(b, script).error.value)) else None
  }

  lemma OneStep(b: Books, step: Step)
    ensures Play(b, [step]) == PlainStep(b, step)
  {
    var r := PlainStep(b, step);
    assert [step][1..] == [];
  }

  lemma {:induction false} FirstFailure(b: Books, script: Script, i: nat)
    requires FailsAt(b, script, i)
    ensures Succeeding(b, script) == i
    ensures Play(b, script) == Play(b, script[..i + 1])
    ensures Play(b, script).error.Some?
    decreases |script|
  {
    if i == 0 {
      assert script[..0] == [] && script[..1] == [script[0]];
      OneStep(b, script[0]);
    } else {
      assert script[..i][0] == script[0] && script[..i][1..] == script[1..][..i - 1];
      assert script[..i + 1][0] == script[0] && script[..i + 1][1..] == script[1..][..i];
      FirstFailure(PlainStep(b, script[0]).books, script[1..], i - 1);
    }
  }

  lemma {:induction false} FirstFails(b: Books, script: Script)
    requires Play(b, script).error.Some?
    ensures FailsAt(b, script, Succeeding(b, script))
    decreases |script|
  {
    var r := PlainStep(b, script[0]);
    if r.error.Some? {
      assert script[..0] == [];
    } else {
      var n := Succeeding(r.books, script[1..]);
      FirstFails(r.books, script[1..]);
      assert script[..n + 1][0] == script[0] && script[..n + 1][1..] == script[1..][..n];
    }
  }

  // Whether a failure is reported: it is when more than ten steps follow the one that failed.
  lemma ActReports(b: Books, script: Script)
    requires StartsWell(script)
    ensures ActResult(b, script).None? <==> forall i: nat :: FailsAt(b, script, i) ==> |script| <= i + 1 + 10
    ensures forall i: nat :: FailsAt(b, script, i) && |script| > i + 1 + 10 ==>
              ActResult(b, script) ==
              Some(StepFailed(PlainStep(Play(b, script[..i]).books, script[i]).error.value))
  {
    if Play(b, script).error.Some? {
      FirstFails(b, script);
    }
    forall i: nat | FailsAt(b, script, i)
      ensures i == Succeeding(b, script)
      ensures Play(b, script) == PlainStep(Play(b, script[..i]).books, script[i])
    {
      FirstFailure(b, script, i);
      assert script[..i + 1] == script[..i] + [script[i]];
      PlayAppend(b, script[..i], [script[i]]);
      OneStep(Play(b, script[..i]).books, script[i]);
    }
  }
}
