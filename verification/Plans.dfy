/** What is planned for a day of the simulation, the steps its phases write, and what they amount to. */
module Plans {
  import opened Records
  import opened Company
  import opened Scripting
  import opened ScriptDesk
  import opened ScriptPhases
  import opened Totals
  import opened Shipments

  // What is sampled for one day.
  datatype DayPlan = DayPlan(visitors: nat, workers: nat, newcomers: seq<Customer>, returned: seq<Order>,
                             logins: seq<nat>, purchases: seq<Script>, estimates: seq<int>, delays: seq<nat>)

  // New customers and new orders have ids of their own, customers log in and buy after they have registered, and only
  // placed orders are returned.
  predicate PlanOk(plan: DayPlan, k: Known, products: nat, capacity: nat) {
    var customers := k.customers + IdsOf(plan.newcomers, |plan.newcomers|);
    && plan.workers >= 1 && |plan.estimates| == |plan.delays| == products
    && (forall i :: 0 <= i < |plan.newcomers| ==> plan.newcomers[i].id !in k.customers)
    && (forall i, j :: 0 <= i < j < |plan.newcomers| ==> plan.newcomers[i].id != plan.newcomers[j].id)
    && (forall i :: 0 <= i < |plan.returned| ==> plan.returned[i].id in k.placed && plan.returned[i].quantity >= 0)
    && (forall i :: 0 <= i < |plan.logins| ==> 1 <= plan.logins[i] <= capacity && plan.logins[i] in customers)
    && FineAll(plan.purchases, Known(k.placed, k.placed, customers), products)
  }

  function LearnPlan(k: Known, plan: DayPlan): Known {
    var customers := k.customers + IdsOf(plan.newcomers, |plan.newcomers|);
    Known(LearnBatches(Known(k.placed, k.placed, customers), plan.purchases).placed, {}, customers)
  }

  predicate PlansOk(plans: seq<DayPlan>, k: Known, products: nat, capacity: nat)
    decreases |plans|
  {
    plans == [] ||
    (PlanOk(plans[0], k, products, capacity) && PlansOk(plans[1..], LearnPlan(k, plans[0]), products, capacity))
  }

  lemma PlanSuffices(plan: DayPlan, k: Known, k': Known, products: nat, capacity: nat)
    requires PlanOk(plan, k, products, capacity) && k'.placed == k.placed && k'.customers == k.customers
    ensures PlanOk(plan, k', products, capacity) && LearnPlan(k', plan) == LearnPlan(k, plan)
    ensures |plan.estimates| == |plan.delays| == products && plan.workers >= 1
  {
  }

  // The plans depend on the placed orders and the customers only.
  lemma KnownSuffices(plans: seq<DayPlan>, k: Known, k': Known, products: nat, capacity: nat)
    requires PlansOk(plans, k, products, capacity) && k'.placed == k.placed && k'.customers == k.customers
    ensures PlansOk(plans, k', products, capacity)
  {
    if plans != [] {
      assert LearnPlan(k, plans[0]) == LearnPlan(k', plans[0]);
    }
  }

  // Every order placed counts as having taken stock.
  function Cautious(k: Known): Known {
    k.(taken := k.placed)
  }

  lemma {:induction false} PlacedIsTaken(k: Known, todo: Script)
    requires k.placed <= k.taken
    ensures LearnAll(k, todo).placed <= LearnAll(k, todo).taken
    decreases |todo|
  {
    if todo != [] {
      PlacedIsTaken(Learn(k, todo[0]), todo[1..]);
    }
  }

  function IdsOf(customers: seq<Customer>, n: nat): set<int>
    requires n <= |customers|
  {
    if n == 0 then {} else IdsOf(customers, n - 1) + {customers[n - 1].id}
  }

  lemma {:induction false} NewIdAmong(customers: seq<Customer>, n: nat)
    requires n < |customers| && forall i, j :: 0 <= i < j < |customers| ==> customers[i].id != customers[j].id
    ensures customers[n].id !in IdsOf(customers, n)
  {
    NewIdAt(customers, n, n);
  }

  lemma {:induction false} NewIdAt(customers: seq<Customer>, n: nat, m: nat)
    requires m <= n < |customers| && forall i, j :: 0 <= i < j < |customers| ==> customers[i].id != customers[j].id
    ensures customers[n].id !in IdsOf(customers, m)
  {
    if m > 0 {
      NewIdAt(customers, n, m - 1);
    }
  }

  lemma {:induction false} RefundsFine(todo: Script, k: Known, products: nat)
    requires forall i :: 0 <= i < |todo| ==>
               todo[i].UpdateOrder? && todo[i].order.status == Refunded && todo[i].order.id in k.placed
               && todo[i].order.quantity >= 0
    ensures Fine(todo, k, products)
    decreases |todo|
  {
    if todo != [] {
      RefundsFine(todo[1..], k, products);
    }
  }

  // ---- The steps of a day, phase by phase.

  function VisitorSteps(first: int, visitors: nat, day: int): Script {
    seq(visitors, i requires 0 <= i < visitors => AddSession(Session(first + i, None, day + 3)))
  }

  function Registrations(newcomers: seq<Customer>): Script {
    seq(|newcomers|, i requires 0 <= i < |newcomers| => AddCustomer(newcomers[i]))
  }

  function Refunds(returned: seq<Order>): Script {
    seq(|returned|, i requires 0 <= i < |returned| => UpdateOrder(returned[i].(status := Refunded)))
  }

  lemma NoVisitor(steps: Script, first: int, day: int)
    ensures steps + VisitorSteps(first, 0, day) == steps
  {
  }

  lemma OneMoreVisitor(steps: Script, first: int, i: nat, day: int)
    ensures steps + VisitorSteps(first, i, day) + [AddSession(Session(first + i, None, day + 3))] ==
            steps + VisitorSteps(first, i + 1, day)
  {
  }

  lemma OneMoreCustomer(steps: Script, newcomers: seq<Customer>, i: nat)
    requires i < |newcomers|
    ensures steps + Registrations(newcomers)[..i] + [AddCustomer(newcomers[i])] ==
            steps + Registrations(newcomers)[..i + 1]
  {
  }

  // A login adds or extends a session of that customer, which lasts a week.
  predicate LogsIn(step: Step, customerId: int, day: int) {
    (step.AddSession? || step.UpdateSession?)
    && step.session.customerId == Some(customerId) && step.session.expiresOn == day + 7
  }

  predicate AllLogIn(steps: Script, logins: seq<nat>, day: int) {
    |steps| == |logins| && forall i :: 0 <= i < |logins| ==> LogsIn(steps[i], logins[i], day)
  }

  lemma OneMoreLogin(steps: Script, step: Step, logins: seq<nat>, i: nat, n: nat, day: int)
    requires n == i + 1 <= |logins| && AllLogIn(steps, logins[..i], day) && LogsIn(step, logins[i], day)
    ensures AllLogIn(steps + [step], logins[..n], day)
  {
  }

  function Joined(batches: seq<Script>): Script
    decreases |batches|
  {
    if batches == [] then [] else batches[0] + Joined(batches[1..])
  }

  lemma JoinedNext(done: Script, batches: seq<Script>, i: nat)
    requires i < |batches|
    ensures done + Joined(batches[i..]) == (done + batches[i]) + Joined(batches[i + 1..])
  {
    assert batches[i..][0] == batches[i] && batches[i..][1..] == batches[i + 1..];
  }

  predicate AllShipped(steps: Script) {
    forall i :: 0 <= i < |steps| ==> steps[i].UpdateOrder? && steps[i].order.status == Shipped
  }

  // The steps written in the phases of one day.
  datatype DayParts = DayParts(visits: Script, arrivals: Script, shipped: Script, newcomers: Script, refunds: Script,
                               logins: Script, purchases: Script, checks: Script)

  function WholeDay(day: int, parts: DayParts): Script {
    Opening(day, parts) + parts.newcomers + parts.refunds + parts.logins + parts.purchases
    + [CollectSessions] + parts.checks
  }

  function Opening(day: int, parts: DayParts): Script {
    [Day(day)] + parts.visits + parts.arrivals + parts.shipped
  }

  // The phases do what was planned for the day: visits and logins, customers and returns step by step, deliveries and
  // purchases in what they amount to, and one check for each product.
  ghost predicate Follows(parts: DayParts, plan: DayPlan, day: int, first: int, deliveries: seq<Delivery>,
                          inventory: seq<InventoryRecord>) {
    && parts.visits == VisitorSteps(first, plan.visitors, day)
    && Gained([], parts.arrivals, DeliverySteps(deliveries))
    && AllShipped(parts.shipped)
    && parts.newcomers == Registrations(plan.newcomers)
    && parts.refunds == Refunds(plan.returned)
    && AllLogIn(parts.logins, plan.logins, day)
    && Gained([], parts.purchases, Joined(plan.purchases))
    && parts.checks == ChecksOf(inventory)
  }

  // ---- What a day amounts to, told from its plan.

  function PlannedLogins(logins: seq<nat>): Script {
    seq(|logins|, i requires 0 <= i < |logins| => UpdateSession(Session(0, Some(logins[i]), 0)))
  }

  function PlannedChecks(products: nat): Script {
    seq(products, p => CheckInventory(p, 0))
  }

  function PlannedDay(plan: DayPlan, day: int, products: nat): Script {
    [Day(day)] + VisitorSteps(0, plan.visitors, 0) + Registrations(plan.newcomers) + Refunds(plan.returned)
    + PlannedLogins(plan.logins) + Joined(plan.purchases) + [CollectSessions] + PlannedChecks(products)
  }

  lemma {:induction false} SameWeights(a: Script, b: Script, n: nat, topic: Topic)
    requires n <= |a| == |b| && forall i :: 0 <= i < n ==> Weight(a[i], topic) == Weight(b[i], topic)
    ensures TotalTo(a, n, topic) == TotalTo(b, n, topic)
  {
    if n > 0 {
      SameWeights(a, b, n - 1, topic);
    }
  }

  lemma {:induction false} NoWeight(a: Script, n: nat, topic: Topic)
    requires n <= |a| && forall i :: 0 <= i < n ==> Weight(a[i], topic) == 0
    ensures TotalTo(a, n, topic) == 0
  {
    if n > 0 {
      NoWeight(a, n - 1, topic);
    }
  }

  function SumOf(topic: Topic, a: Script, b: Script, c: Script, d: Script): int {
    Total(a, topic) + Total(b, topic) + Total(c, topic) + Total(d, topic)
  }

  lemma TotalFour(topic: Topic, a: Script, b: Script, c: Script, d: Script)
    ensures Total(a + b + c + d, topic) == SumOf(topic, a, b, c, d)
  {
    TotalConcat(a, b, topic);
    TotalConcat(a + b, c, topic);
    TotalConcat(a + b + c, d, topic);
  }

  lemma WholeDayTotal(day: int, parts: DayParts, topic: Topic)
    ensures Total(WholeDay(day, parts), topic) ==
            SumOf(topic, [Day(day)], parts.visits, parts.arrivals, parts.shipped)
            + SumOf(topic, parts.newcomers, parts.refunds, parts.logins, parts.purchases)
            + Total([CollectSessions], topic) + Total(parts.checks, topic)
  {
    var opening := Opening(day, parts);
    TotalFour(topic, [Day(day)], parts.visits, parts.arrivals, parts.shipped);
    TotalFour(topic, opening, parts.newcomers, parts.refunds, parts.logins);
    TotalFour(topic, opening + parts.newcomers + parts.refunds + parts.logins, parts.purchases, [CollectSessions],
              parts.checks);
  }

  lemma PlannedDayTotal(plan: DayPlan, day: int, products: nat, topic: Topic)
    ensures Total(PlannedDay(plan, day, products), topic) ==
            SumOf(topic, [Day(day)], VisitorSteps(0, plan.visitors, 0), Registrations(plan.newcomers),
                  Refunds(plan.returned))
            + Total(PlannedLogins(plan.logins), topic) + Total(Joined(plan.purchases), topic)
            + Total([CollectSessions], topic) + Total(PlannedChecks(products), topic)
  {
    var morning := [Day(day)] + VisitorSteps(0, plan.visitors, 0) + Registrations(plan.newcomers)
                   + Refunds(plan.returned);
    TotalFour(topic, [Day(day)], VisitorSteps(0, plan.visitors, 0), Registrations(plan.newcomers),
              Refunds(plan.returned));
    TotalFour(topic, morning, PlannedLogins(plan.logins), Joined(plan.purchases), [CollectSessions]);
    TotalConcat(morning + PlannedLogins(plan.logins) + Joined(plan.purchases) + [CollectSessions],
                PlannedChecks(products), topic);
  }

  lemma AmountsTo(steps: Script, planned: Script, topic: Topic)
    requires Gained([], steps, planned)
    ensures Total(steps, topic) == Total(planned, topic)
  {
    assert GainedOf([], steps, planned, topic);
  }

  lemma VisitsAsPlanned(steps: Script, first: int, visitors: nat, day: int, topic: Topic)
    requires steps == VisitorSteps(first, visitors, day)
    ensures Total(steps, topic) == Total(VisitorSteps(0, visitors, 0), topic)
  {
    SameWeights(steps, VisitorSteps(0, visitors, 0), visitors, topic);
  }

  lemma LoginsAsPlanned(steps: Script, logins: seq<nat>, day: int, topic: Topic)
    requires AllLogIn(steps, logins, day)
    ensures Total(steps, topic) == Total(PlannedLogins(logins), topic)
  {
    SameWeights(steps, PlannedLogins(logins), |logins|, topic);
  }

  lemma ChecksAsPlanned(inventory: seq<InventoryRecord>, topic: Topic)
    requires forall p :: 0 <= p < |inventory| ==> inventory[p].productId == p
    ensures Total(ChecksOf(inventory), topic) == Total(PlannedChecks(|inventory|), topic)
  {
    SameWeights(ChecksOf(inventory), PlannedChecks(|inventory|), |inventory|, topic);
  }

  // A day that follows its plan amounts to the plan and the day's deliveries.
  lemma DayAsPlanned(parts: DayParts, plan: DayPlan, day: int, first: int, deliveries: seq<Delivery>,
                     inventory: seq<InventoryRecord>, topic: Topic)
    requires Follows(parts, plan, day, first, deliveries, inventory)
    requires forall p :: 0 <= p < |inventory| ==> inventory[p].productId == p
    ensures Total(WholeDay(day, parts), topic) ==
            Total(PlannedDay(plan, day, |inventory|), topic) + Total(DeliverySteps(deliveries), topic)
  {
    WholeDayTotal(day, parts, topic);
    PlannedDayTotal(plan, day, |inventory|, topic);
    VisitsAsPlanned(parts.visits, first, plan.visitors, day, topic);
    LoginsAsPlanned(parts.logins, plan.logins, day, topic);
    ChecksAsPlanned(inventory, topic);
    NoWeight(parts.shipped, |parts.shipped|, topic);
    AmountsTo(parts.arrivals, DeliverySteps(deliveries), topic);
    AmountsTo(parts.purchases, Joined(plan.purchases), topic);
  }

  // ---- What a whole script amounts to, told from its plans.

  function ProductSteps(products: seq<Product>, handling: seq<nat>, n: nat): Script
    requires n <= |products| == |handling|
  {
    if n == 0 then []
    else
      ProductSteps(products, handling, n - 1) + [AddProduct(products[n - 1])]
      + [AddInventoryRecord(InventoryRecord(n - 1, 0, handling[n - 1]))]
  }

  lemma OneMoreProduct(products: seq<Product>, handling: seq<nat>, n: nat)
    requires n < |products| == |handling|
    ensures [Title] + ProductSteps(products, handling, n) + [AddProduct(products[n])]
            + [AddInventoryRecord(InventoryRecord(n, 0, handling[n]))]
            == [Title] + ProductSteps(products, handling, n + 1)
  {
  }

  function Beginning(products: seq<Product>, handling: seq<nat>, founders: seq<Customer>): Script
    requires |products| == |handling|
  {
    [Title] + ProductSteps(products, handling, |products|) + Registrations(founders)
  }

  function PlannedDays(plans: seq<DayPlan>, n: nat, products: nat): Script
    requires n <= |plans|
  {
    if n == 0 then [] else PlannedDays(plans, n - 1, products) + PlannedDay(plans[n - 1], n, products)
  }

  // In all that is not delivered, the script amounts to what was planned.
  predicate AsPlanned(script: Script, beginning: Script, days: Script, topic: Topic) {
    !topic.Brought? ==> Total(script, topic) == Total(beginning, topic) + Total(days, topic)
  }

  ghost predicate AllAsPlanned(script: Script, beginning: Script, days: Script) {
    forall topic :: AsPlanned(script, beginning, days, topic)
  }

  lemma NothingPlanned(beginning: Script, plans: seq<DayPlan>, products: nat)
    ensures AllAsPlanned(beginning, beginning, PlannedDays(plans, 0, products)) && plans[0..] == plans
    ensures Total(PlannedDays(plans, 0, products), AllChecks) == 0 * products
  {
    forall topic ensures AsPlanned(beginning, beginning, [], topic) {
    }
  }

  lemma DayAdded(script: Script, beginning: Script, plans: seq<DayPlan>, day: nat, parts: DayParts, first: int,
                 deliveries: seq<Delivery>, inventory: seq<InventoryRecord>, topic: Topic)
    requires 1 <= day <= |plans| && AsPlanned(script, beginning, PlannedDays(plans, day - 1, |inventory|), topic)
    requires Follows(parts, plans[day - 1], day, first, deliveries, inventory)
    requires forall p :: 0 <= p < |inventory| ==> inventory[p].productId == p
    ensures AsPlanned(script + WholeDay(day, parts), beginning, PlannedDays(plans, day, |inventory|), topic)
  {
    if !topic.Brought? {
      var plan := plans[day - 1];
      DayAsPlanned(parts, plan, day, first, deliveries, inventory, topic);
      NoWeight(DeliverySteps(deliveries), |deliveries|, topic);
      TotalConcat(script, WholeDay(day, parts), topic);
      TotalConcat(PlannedDays(plans, day - 1, |inventory|), PlannedDay(plan, day, |inventory|), topic);
    }
  }

  lemma AllDayAdded(script: Script, script': Script, beginning: Script, plans: seq<DayPlan>, day: nat,
                    parts: DayParts, first: int, deliveries: seq<Delivery>, inventory: seq<InventoryRecord>)
    requires 1 <= day <= |plans| && AllAsPlanned(script, beginning, PlannedDays(plans, day - 1, |inventory|))
    requires script' == script + WholeDay(day, parts)
    requires Follows(parts, plans[day - 1], day, first, deliveries, inventory)
    requires forall p :: 0 <= p < |inventory| ==> inventory[p].productId == p
    ensures AllAsPlanned(script', beginning, PlannedDays(plans, day, |inventory|))
  {
    var before, after := PlannedDays(plans, day - 1, |inventory|), PlannedDays(plans, day, |inventory|);
    forall topic ensures AsPlanned(script', beginning, after, topic) {
      assert AsPlanned(script, beginning, before, topic);
      DayAdded(script, beginning, plans, day, parts, first, deliveries, inventory, topic);
    }
  }

  // ---- How many checks are planned.

  lemma {:induction false} FineChecksNothing(todo: Script, k: Known, products: nat)
    requires Fine(todo, k, products)
    ensures forall i :: 0 <= i < |todo| ==> Weight(todo[i], AllChecks) == 0
    decreases |todo|
  {
    if todo != [] {
      FineChecksNothing(todo[1..], Learn(k, todo[0]), products);
      assert todo == [todo[0]] + todo[1..];
    }
  }

  lemma {:induction false} JoinedChecksNothing(batches: seq<Script>, k: Known, products: nat)
    requires FineAll(batches, k, products)
    ensures Total(Joined(batches), AllChecks) == 0
    decreases |batches|
  {
    if batches != [] {
      FineChecksNothing(batches[0], k, products);
      NoWeight(batches[0], |batches[0]|, AllChecks);
      JoinedChecksNothing(batches[1..], LearnAll(k, batches[0]), products);
      TotalConcat(batches[0], Joined(batches[1..]), AllChecks);
    }
  }

  lemma {:induction false} EachChecked(products: nat, n: nat)
    requires n <= products
    ensures TotalTo(PlannedChecks(products), n, AllChecks) == n
  {
    if n > 0 {
      EachChecked(products, n - 1);
    }
  }

  lemma VisitsCheckNothing(plan: DayPlan)
    ensures Total(VisitorSteps(0, plan.visitors, 0), AllChecks) == 0
    ensures Total(Registrations(plan.newcomers), AllChecks) == 0 && Total(Refunds(plan.returned), AllChecks) == 0
    ensures Total(PlannedLogins(plan.logins), AllChecks) == 0
  {
    NoWeight(VisitorSteps(0, plan.visitors, 0), plan.visitors, AllChecks);
    NoWeight(Registrations(plan.newcomers), |plan.newcomers|, AllChecks);
    NoWeight(Refunds(plan.returned), |plan.returned|, AllChecks);
    NoWeight(PlannedLogins(plan.logins), |plan.logins|, AllChecks);
  }

  lemma DayChecks(plan: DayPlan, day: int, k: Known, products: nat, capacity: nat)
    requires PlanOk(plan, k, products, capacity)
    ensures Total(PlannedDay(plan, day, products), AllChecks) == products
  {
    PlannedDayTotal(plan, day, products, AllChecks);
    TotalOne(Day(day), AllChecks);
    TotalOne(CollectSessions, AllChecks);
    VisitsCheckNothing(plan);
    var customers := k.customers + IdsOf(plan.newcomers, |plan.newcomers|);
    JoinedChecksNothing(plan.purchases, Known(k.placed, k.placed, customers), products);
    EachChecked(products, products);
  }

  lemma NextPlanned(plans: seq<DayPlan>, n: nat, k: Known, products: nat, capacity: nat)
    requires n < |plans| && PlansOk(plans[n..], k, products, capacity)
    requires Total(PlannedDays(plans, n, products), AllChecks) == n * products
    ensures PlanOk(plans[n], k, products, capacity)
    ensures PlansOk(plans[n + 1..], LearnPlan(k, plans[n]), products, capacity)
    ensures Total(PlannedDays(plans, n + 1, products), AllChecks) == (n + 1) * products
  {
    assert plans[n..][0] == plans[n] && plans[n..][1..] == plans[n + 1..];
    DayChecks(plans[n], n + 1, k, products, capacity);
    TotalConcat(PlannedDays(plans, n, products), PlannedDay(plans[n], n + 1, products), AllChecks);
    assert (n + 1) * products == n * products + products;
  }

  lemma {:induction false} ProductsCheckNothing(products: seq<Product>, handling: seq<nat>, n: nat)
    requires n <= |products| == |handling|
    ensures Total(ProductSteps(products, handling, n), AllChecks) == 0
  {
    if n > 0 {
      ProductsCheckNothing(products, handling, n - 1);
      var before := ProductSteps(products, handling, n - 1);
      TotalConcat(before, [AddProduct(products[n - 1])], AllChecks);
      TotalOne(AddProduct(products[n - 1]), AllChecks);
      var record := AddInventoryRecord(InventoryRecord(n - 1, 0, handling[n - 1]));
      TotalConcat(before + [AddProduct(products[n - 1])], [record], AllChecks);
      TotalOne(record, AllChecks);
    }
  }

  // Before the first day nothing is checked.
  lemma ChecksAdded(products: seq<Product>, handling: seq<nat>, founders: seq<Customer>)
    requires |products| == |handling|
    ensures Total(Beginning(products, handling, founders), AllChecks) == 0
  {
    ProductsCheckNothing(products, handling, |products|);
    TotalOne(Title, AllChecks);
    TotalConcat([Title], ProductSteps(products, handling, |products|), AllChecks);
    NoWeight(Registrations(founders), |founders|, AllChecks);
    TotalConcat([Title] + ProductSteps(products, handling, |products|), Registrations(founders), AllChecks);
  }

  // The phases of a day, one after the other.
  lemma PartsJoin(start: Script, day: int, parts: DayParts)
    ensures start + [Day(day)] + parts.visits + parts.arrivals + parts.shipped + parts.newcomers + parts.refunds
            + parts.logins + parts.purchases + [CollectSessions] + parts.checks
            == start + WholeDay(day, parts)
  {
  }

  // ---- The writer's sessions after the logins of a day.

  // Whoever has logged in holds a session for a week; whoever has not keeps what there was.
  predicate SessionHeld(before: seq<Option<Session>>, after: seq<Option<Session>>, logins: seq<nat>, n: nat, day: int,
                        c: nat)
    requires n <= |logins| && c < |after| == |before|
  {
    if c + 1 in logins[..n] then after[c].Some? && after[c].value.expiresOn == day + 7 else after[c] == before[c]
  }

  lemma StillHeld(before: seq<Option<Session>>, middle: seq<Option<Session>>, after: seq<Option<Session>>,
                  logins: seq<nat>, i: nat, n: nat, day: int, s: Session)
    requires n == i + 1 <= |logins| && |before| == |middle| && 1 <= logins[i] <= |middle|
    requires s.expiresOn == day + 7 && after == middle[logins[i] - 1 := Some(s)]
    requires forall c :: 0 <= c < |middle| ==> SessionHeld(before, middle, logins, i, day, c)
    ensures forall c :: 0 <= c < |after| ==> SessionHeld(before, after, logins, n, day, c)
  {
    assert logins[..n] == logins[..i] + [logins[i]];
    forall c | 0 <= c < |after| ensures SessionHeld(before, after, logins, n, day, c) {
      assert SessionHeld(before, middle, logins, i, day, c);
    }
  }
}
