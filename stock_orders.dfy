/** `StockOrder`: one line of an order, for one stock at one price, with the
    quantity executed so far, the quantity still open and its status. */
module StockOrders {
  import opened Values
  import opened Statuses

  datatype StockOrderRow = StockOrderRow(
    id: Id,
    order: Option<Id>,
    stock: Id,
    portfolio: Option<Id>,
    requestedQuantity: Quantity,
    requestedPrice: Money,
    executed: Quantity,
    remained: Quantity,
    averagePrice: Option<Money>,
    status: LineStatus,
    createdAt: int,
    updatedAt: int)

  /** What has been executed and what is still open add up to what was requested. */
  predicate Balanced(l: StockOrderRow)
  {
    l.executed + l.remained == l.requestedQuantity
  }

  /** `StockOrder.createStockOrder`: a PENDING line with nothing executed. */
  function CreateStockOrder(id: Id, stock: Id, quantity: Quantity, price: Money, portfolio: Option<Id>, now: int): (r: StockOrderRow)
    ensures r.status == PENDING && r.executed == 0 && r.remained == quantity && Balanced(r)
    ensures r.requestedQuantity == quantity && r.requestedPrice == price
    ensures r.stock == stock && r.portfolio == portfolio && r.order == None && r.averagePrice == None
  {
    StockOrderRow(id, None, stock, portfolio, quantity, price, 0, quantity, None, PENDING, now, now)
  }

  /** `setOrder`: attach the line to its parent order. */
  function SetOrder(l: StockOrderRow, order: Id): (r: StockOrderRow)
    ensures r.order == Some(order) && r.(order := l.order) == l
  {
    l.(order := Some(order))
  }

  /** `updateStatus` sets any status, whatever the current one is. */
  function UpdateStatus(l: StockOrderRow, status: LineStatus, now: int): (r: StockOrderRow)
    ensures r.status == status && r.updatedAt == now
    ensures r.(status := l.status, updatedAt := l.updatedAt) == l
  {
    l.(status := status, updatedAt := now)
  }

  /** `calculateWeightedAverage`: the running average price of the executions,
      where a line that has no average yet counts as average zero. */
  function CalculateWeightedAverage(l: StockOrderRow, quantity: Quantity, price: Money): (r: Result<Money>)
    ensures r.Err? <==> l.executed + quantity == 0
    ensures l.executed == 0 && quantity > 0 ==> r == Ok(price)
    ensures r == FloorAverage(if l.averagePrice.Some? then l.averagePrice.value else 0, l.executed, price, quantity)
    ensures l.averagePrice.None? && l.executed + quantity > 0 ==>
      r.value * (l.executed + quantity) <= price * quantity < (r.value + 1) * (l.executed + quantity)
  {
    var previous := if l.averagePrice.Some? then l.averagePrice.value else 0;
    var r := FloorAverage(previous, l.executed, price, quantity);
    assert l.executed == 0 && quantity > 0 ==> r == Ok(price) by {
      if l.executed == 0 && quantity > 0 { AverageBetween(previous, 0, price, quantity); }
    }
    r
  }

  /** `applyExecution`. The new average is computed first (a division by zero
      when nothing was or is executed, which changes nothing); then the executed
      quantity advances, and only then is the open quantity recomputed from the
      requested one, which fails on over-execution with the executed quantity
      already advanced. On success the line is FILLED when nothing remains
      open and PARTIALLY_FILLED otherwise. */
  function ApplyExecution(l: StockOrderRow, quantity: Quantity, price: Money, now: int): (r: Effect<StockOrderRow, ()>)
    ensures r.result.Ok? <==> 0 < l.executed + quantity <= l.requestedQuantity
    ensures l.executed + quantity == 0 ==> r == Effect(l, Err(Failure(Arithmetic, DivisionByZero)))
    ensures l.executed + quantity > l.requestedQuantity ==>
      r == Effect(l.(executed := l.executed + quantity), Err(Failure(IllegalArgument, InsufficientRemainder)))
    ensures r.result.Ok? ==> r.state.executed == l.executed + quantity && Balanced(r.state)
    ensures r.result.Ok? ==> (r.state.status == FILLED <==> r.state.remained == 0)
    ensures r.result.Ok? ==> r.state.status in {FILLED, PARTIALLY_FILLED}
    ensures r.result.Ok? ==>
      r.state.averagePrice == Some(CalculateWeightedAverage(l, quantity, price).value) && r.state.updatedAt == now
    ensures r.result.Ok? && l.averagePrice.Some? ==>
      var avg := r.state.averagePrice.value;
      avg * (l.executed + quantity) <= l.averagePrice.value * l.executed + price * quantity < (avg + 1) * (l.executed + quantity)
    ensures r.result.Err? ==> r.state.averagePrice == l.averagePrice && r.state.updatedAt == l.updatedAt
    ensures r.state.requestedQuantity == l.requestedQuantity && r.state.requestedPrice == l.requestedPrice
    ensures r.state.id == l.id && r.state.order == l.order && r.state.stock == l.stock && r.state.portfolio == l.portfolio
  {
    var newExecuted := QuantityPlus(l.executed, quantity);
    match CalculateWeightedAverage(l, quantity, price)
    case Err(f) => Effect(l, Err(f))
    case Ok(average) =>
      var advanced := l.(executed := newExecuted);
      match QuantityMinus(l.requestedQuantity, newExecuted)
      case Err(f) => Effect(advanced, Err(f))
      case Ok(remained) =>
        var updated := advanced.(remained := remained, averagePrice := Some(average), updatedAt := now);
        Effect(UpdateStockOrderStatus(updated), Ok(()))
  }

  /** `updateStockOrderStatus`. */
  function UpdateStockOrderStatus(l: StockOrderRow): (r: StockOrderRow)
    ensures r.status == FILLED <==> l.remained == 0
    ensures r.status in {FILLED, PARTIALLY_FILLED}
    ensures r.(status := l.status) == l
  {
    l.(status := if IsZero(l.remained) then FILLED else PARTIALLY_FILLED)
  }

  // ---------------------------------------------------------------- lemmas

  /** Executing in two steps leaves the same quantities and status as executing
      the sum at once (the average may round differently). */
  lemma {:induction false} ExecutionsAccumulate(l: StockOrderRow, q1: Quantity, q2: Quantity, price: Money, now: int)
    requires ApplyExecution(l, q1, price, now).result.Ok?
    requires ApplyExecution(ApplyExecution(l, q1, price, now).state, q2, price, now).result.Ok?
    ensures var once := ApplyExecution(l, q1 + q2, price, now);
      var twice := ApplyExecution(ApplyExecution(l, q1, price, now).state, q2, price, now);
      once.result.Ok? && once.state.executed == twice.state.executed &&
      once.state.remained == twice.state.remained && once.state.status == twice.state.status
  {
    var first := ApplyExecution(l, q1, price, now);
    assert first.state.executed == l.executed + q1;
    assert first.state.requestedQuantity == l.requestedQuantity;
  }

  /** A balanced line stays balanced whatever is executed against it, as long as
      the execution succeeds; over-execution breaks the balance it leaves behind. */
  lemma {:induction false} OverExecutionBreaksBalance(l: StockOrderRow, quantity: Quantity, price: Money, now: int)
    requires Balanced(l)
    requires quantity > l.remained
    ensures ApplyExecution(l, quantity, price, now).result.Err?
    ensures !Balanced(ApplyExecution(l, quantity, price, now).state)
  {
    assert l.executed + quantity > l.requestedQuantity;
  }

  /** Executing exactly what remains open fills a balanced line. */
  lemma {:induction false} ExecutingTheRemainderFills(l: StockOrderRow, price: Money, now: int)
    requires Balanced(l) && l.remained > 0
    ensures ApplyExecution(l, l.remained, price, now).result.Ok?
    ensures ApplyExecution(l, l.remained, price, now).state.status == FILLED
  {
    assert l.executed + l.remained == l.requestedQuantity;
  }
}
