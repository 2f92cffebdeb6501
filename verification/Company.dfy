/** The simulated company: its records, the steps of a screenplay, and what each step does to the tables when it acts
    on them directly.  Sessions are kept here too; the cached company leaves them to a module of their own. */
module Company {
  import opened Records

  datatype OrderStatus = New | Backordered | Recheck | Pending | Shipped | Refunded

  datatype Product = Product(id: int, name: string, price: int, views: int)

  datatype InventoryRecord = InventoryRecord(productId: int, stock: int, handlingDays: int)

  datatype Customer = Customer(id: int, email: string, firstName: string, lastName: string, registeredOn: int)

  datatype Order =
    Order(id: int, customerId: int, productId: int, quantity: int, status: OrderStatus, purchasedOn: int)

  datatype Session = Session(id: int, customerId: Option<int>, expiresOn: int)

  datatype Step =
    | Title
    | Day(day: int)
    | AddProduct(product: Product)
    | AddInventoryRecord(record: InventoryRecord)
    | AddCustomer(customer: Customer)
    | AddOrder(order: Order)
    | AddStock(productId: int, batchSize: int)
    | UpdateOrder(order: Order)
    | CheckInventory(productId: int, stock: int)
    | AddSession(session: Session)
    | UpdateSession(session: Session)
    | ViewProduct(productId: int)
    | CollectSessions

  type Script = seq<Step>

  const PRODUCT_WIDTH: nat := 4
  const INVENTORY_WIDTH: nat := 3
  const CUSTOMER_WIDTH: nat := 5
  const ORDER_WIDTH: nat := 6
  const SESSION_WIDTH: nat := 3

  // Columns.
  const STOCK: nat := 1
  const VIEWS: nat := 3
  const ORDER_CUSTOMER: nat := 1
  const ORDER_PRODUCT: nat := 2
  const STATUS: nat := 4
  const SESSION_CUSTOMER: nat := 1

  function ProductRow(p: Product): Row {
    [Int(p.id), Text(p.name), Int(p.price), Int(p.views)]
  }

  function InventoryRow(r: InventoryRecord): Row {
    [Int(r.productId), Int(r.stock), Int(r.handlingDays)]
  }

  function CustomerRow(c: Customer): Row {
    [Int(c.id), Text(c.email), Text(c.firstName), Text(c.lastName), Int(c.registeredOn)]
  }

  function StatusValue(s: OrderStatus): Value {
    Text(match s
         case New => "New"
         case Backordered => "Backordered"
         case Recheck => "Recheck"
         case Pending => "Pending"
         case Shipped => "Shipped"
         case Refunded => "Refunded")
  }

  function OrderRow(o: Order): Row {
    [Int(o.id), Int(o.customerId), Int(o.productId), Int(o.quantity), StatusValue(o.status), Int(o.purchasedOn)]
  }

  function SessionRow(s: Session): Row {
    [Int(s.id), if s.customerId.Some? then Int(s.customerId.value) else Null, Int(s.expiresOn)]
  }

  function IntAt(row: Row, col: nat): int {
    if col < |row| && row[col].Int? then row[col].i else 0
  }

  function At(row: Row, col: nat): Value {
    if col < |row| then row[col] else Null
  }

  function With(row: Row, col: nat, v: Value): Row {
    if col < |row| then row[col := v] else row
  }

  datatype Error =
    | Duplicate | MissingRow | MissingReference
    | AlreadyUpdated | NoInventoryRecord | NotEnoughStock | WrongStock | Refused

  // The company that acts on its tables directly.
  datatype Books = Books(products: Rows, inventory: Rows, customers: Rows, orders: Rows, sessions: Rows, day: int,
                         updatedFrom: map<int, Order>, checks: nat)

  datatype Outcome = Outcome(books: Books, error: Option<Error>)

  // Only these changes of an order move stock.
  predicate TakesStock(s: OrderStatus) {
    !(s.Backordered? || s.Refunded? || s.Shipped? || s.Recheck?)
  }

  function Stock(b: Books, productId: int): Option<int> {
    if Int(productId) in b.inventory then Some(IntAt(b.inventory[Int(productId)], STOCK)) else None
  }

  // `update_inventory_record`
  function MoveStock(b: Books, productId: int, quantity: int): Outcome {
    var k := Int(productId);
    if k !in b.inventory then Outcome(b, Some(NoInventoryRecord))
    else
      var stock := IntAt(b.inventory[k], STOCK) + quantity;
      if stock < 0 then Outcome(b, Some(NotEnoughStock))
      else Outcome(b.(inventory := b.inventory[k := With(b.inventory[k], STOCK, Int(stock))]), None)
  }

  // `update_inventory`: an order takes stock once.
  function TakeStock(b: Books, o: Order): Outcome {
    if !TakesStock(o.status) then Outcome(b, None)
    else if o.id in b.updatedFrom then Outcome(b, Some(AlreadyUpdated))
    else MoveStock(b.(updatedFrom := b.updatedFrom[o.id := o]), o.productId, -o.quantity)
  }

  function InsertOrder(b: Books, o: Order): Outcome {
    if Int(o.id) in b.orders then Outcome(b, Some(Duplicate))
    else if Int(o.customerId) !in b.customers || Int(o.productId) !in b.products then Outcome(b, Some(MissingReference))
    else Outcome(b.(orders := b.orders[Int(o.id) := OrderRow(o.(purchasedOn := b.day))]), None)
  }

  function SetStatus(b: Books, o: Order): Outcome {
    var k := Int(o.id);
    if k !in b.orders then Outcome(b, Some(MissingRow))
    else Outcome(b.(orders := b.orders[k := With(b.orders[k], STATUS, StatusValue(o.status))]), None)
  }

  predicate KnowsCustomer(b: Books, s: Session) {
    s.customerId.Some? ==> Int(s.customerId.value) in b.customers
  }

  function PlainStep(b: Books, step: Step): Outcome {
    match step
    case Title => Outcome(b, None)
    case Day(d) => Outcome(b.(day := d), None)
    case AddProduct(p) =>
      if Int(p.id) in b.products then Outcome(b, Some(Duplicate))
      else Outcome(b.(products := b.products[Int(p.id) := ProductRow(p)]), None)
    case AddInventoryRecord(r) =>
      if Int(r.productId) in b.inventory then Outcome(b, Some(Duplicate))
      else if Int(r.productId) !in b.products then Outcome(b, Some(MissingReference))
      else Outcome(b.(inventory := b.inventory[Int(r.productId) := InventoryRow(r)]), None)
    case AddCustomer(c) =>
      if Int(c.id) in b.customers then Outcome(b, Some(Duplicate))
      else Outcome(b.(customers := b.customers[Int(c.id) := CustomerRow(c.(registeredOn := b.day))]), None)
    case AddOrder(o) =>
      var taken := TakeStock(b, o);
      if taken.error.Some? then taken else InsertOrder(taken.books, o)
    case UpdateOrder(o) =>
      var taken := TakeStock(b, o);
      if taken.error.Some? then taken else SetStatus(taken.books, o)
    case AddStock(p, n) => MoveStock(b, p, n)
    case CheckInventory(p, n) =>
      if Stock(b, p).None? then Outcome(b, Some(NoInventoryRecord))
      else if Stock(b, p).value != n then Outcome(b, Some(WrongStock))
      else Outcome(b.(checks := b.checks + 1), None)
    case AddSession(s) =>
      if Int(s.id) in b.sessions then Outcome(b, Some(Duplicate))
      else if !KnowsCustomer(b, s) then Outcome(b, Some(MissingReference))
      else Outcome(b.(sessions := b.sessions[Int(s.id) := SessionRow(s)]), None)
    case UpdateSession(s) =>
      if Int(s.id) !in b.sessions then Outcome(b, Some(MissingRow))
      else if !KnowsCustomer(b, s) then Outcome(b, Some(MissingReference))
      else Outcome(b.(sessions := b.sessions[Int(s.id) := SessionRow(s)]), None)
    case ViewProduct(p) =>
      // The counter is bumped by an UPDATE with a filter, which does not mind a missing product.
      var k := Int(p);
      if k !in b.products then Outcome(b, None)
      else Outcome(b.(products := b.products[k := Viewed(b.products[k])]), None)
    case CollectSessions =>
      Outcome(b.(sessions := map k | k in b.sessions && IntAt(b.sessions[k], 2) > b.day :: b.sessions[k]), None)
  }

  function Viewed(row: Row): Row {
    With(row, VIEWS, Int(IntAt(row, VIEWS) + 1))
  }

  function Empty(): Books {
    Books(map[], map[], map[], map[], map[], 0, map[], 0)
  }

  // A whole screenplay, stopping at the first step that fails.
  function Play(b: Books, script: Script): Outcome
    decreases |script|
  {
    if script == [] then Outcome(b, None)
    else
      var r := PlainStep(b, script[0]);
      if r.error.Some? then r else Play(r.books, script[1..])
  }

  lemma {:induction false} PlayAppend(b: Books, first: Script, second: Script)
    ensures Play(b, first + second) ==
            (var r := Play(b, first); if r.error.Some? then r else Play(r.books, second))
    decreases |first|
  {
    if first == [] {
      assert first + second == second;
    } else {
      assert (first + second)[1..] == first[1..] + second;
      PlayAppend(PlainStep(b, first[0]).books, first[1..], second);
    }
  }

  // What the screenplay has to respect: products are added before day 1 and exist when they are viewed, an order is
  // added when its product is certainly in the backend, and days are counted from 1.
  predicate Orderly(b: Books, step: Step) {
    match step
    case AddProduct(_) => b.day < 1
    case AddOrder(o) => b.day >= 1 || Int(o.productId) in b.inventory
    case Day(d) => d <= 1 || b.day >= 1
    case ViewProduct(p) => Int(p) in b.products
    case _ => true
  }

  predicate AllOrderly(b: Books, script: Script)
    decreases |script|
  {
    script == [] || (Orderly(b, script[0]) && AllOrderly(PlainStep(b, script[0]).books, script[1..]))
  }

  lemma {:induction false} OrderlyAppend(b: Books, script: Script, step: Step)
    requires AllOrderly(b, script) && Play(b, script).error.None? && Orderly(Play(b, script).books, step)
    ensures AllOrderly(b, script + [step])
    decreases |script|
  {
    var longer := script + [step];
    if script == [] {
      assert longer[1..] == [];
    } else {
      assert longer[1..] == script[1..] + [step];
      OrderlyAppend(PlainStep(b, script[0]).books, script[1..], step);
    }
  }

  // ---- What the screenplay has to respect about sessions.

  predicate Expired(row: Row, day: int) {
    IntAt(row, 2) <= day
  }

  // A session nobody has used to log in.
  predicate Visitor(row: Row) {
    At(row, SESSION_CUSTOMER) == Null
  }

  predicate Added(steps: Script, k: Key) {
    exists i :: 0 <= i < |steps| && steps[i].AddSession? && Int(steps[i].session.id) == k
  }

  // After the steps `done`: days do not go back, a session is added under an id of its own, and only a customer's
  // session is updated, for a customer.
  predicate SeatedStep(done: Script, step: Step) {
    var b := Play(Empty(), done).books;
    match step
    case Day(d) => b.day <= d
    case AddSession(s) => !Added(done, Int(s.id))
    case UpdateSession(s) => s.customerId.Some? && (Int(s.id) in b.sessions ==> !Visitor(b.sessions[Int(s.id)]))
    case _ => true
  }

  predicate SeatedAt(steps: Script, i: nat) {
    i < |steps| ==> SeatedStep(steps[..i], steps[i])
  }

  ghost predicate Seated(steps: Script) {
    forall i: nat :: SeatedAt(steps, i)
  }

  // Sessions are added and extended for more than two days.
  predicate LastingStep(done: Script, step: Step) {
    var day := Play(Empty(), done).books.day;
    match step
    case AddSession(s) => s.expiresOn >= day + 3
    case UpdateSession(s) => s.expiresOn >= day + 3
    case _ => true
  }

  predicate LastingAt(steps: Script, i: nat) {
    i < |steps| ==> LastingStep(steps[..i], steps[i])
  }

  ghost predicate Lasting(steps: Script) {
    forall i: nat :: LastingAt(steps, i)
  }
}
