/** `OrderValidator`: the checks the order consumers run before an order
    line enters the book, and the lookup of a freshly committed order that
    tries a fixed number of times. */
module OrderValidation {
  import opened Values
  import opened Statuses
  import StockOrders
  import Orders
  import Stocks
  import opened Ledger
  import opened OrderPlacement

  /** How many times the order is looked up before giving up. */
  const MAX_RETRY: nat := 5

  /** `validate`: a line must be present, ask for a quantity other than zero
      and have its stock. `stocks` are the stocks the line's stock reference
      can resolve to. */
  function Validate(line: Option<StockOrders.StockOrderRow>, stocks: map<Id, Stocks.StockRow>): (r: Result<()>)
    ensures r.Ok? <==> line.Some? && line.value.requestedQuantity != 0 && line.value.stock in stocks
    ensures line.None? ==> r == Err(Failure(IllegalArgument, NullLine))
    ensures line.Some? && line.value.requestedQuantity == 0 ==> r == Err(Failure(IllegalState, MissingQuantity))
    ensures line.Some? && line.value.requestedQuantity != 0 && line.value.stock !in stocks ==>
      r == Err(Failure(IllegalState, MissingStock))
  {
    if line.None? then Err(Failure(IllegalArgument, NullLine))
    else if IsZero(line.value.requestedQuantity) then Err(Failure(IllegalState, MissingQuantity))
    else if line.value.stock !in stocks then Err(Failure(IllegalState, MissingStock))
    else Ok(())
  }

  /** `findOrderWithRetry`: look the order up at most `MAX_RETRY` times and
      return what the first successful lookup finds. `answer(i)` is what the
      repository returns on the attempt numbered `i` (from zero); the pause
      between attempts is not modelled. `attempts` counts the lookups made. */
  method FindOrderWithRetry(answer: nat -> Option<Orders.OrderRow>) returns (r: Result<Orders.OrderRow>, attempts: nat)
    ensures 1 <= attempts <= MAX_RETRY
    ensures forall i | 0 <= i < attempts - 1 :: answer(i).None?
    ensures r.Ok? ==> answer(attempts - 1) == Some(r.value)
    ensures r.Err? ==> attempts == MAX_RETRY && forall i | 0 <= i < MAX_RETRY :: answer(i).None?
    ensures r.Err? ==> r.failure == Failure(IllegalState, OrderNotFoundAfterRetries)
  {
    var i := 0;
    while i < MAX_RETRY
      invariant 0 <= i <= MAX_RETRY
      invariant forall j | 0 <= j < i :: answer(j).None?
    {
      var found := answer(i);
      if found.Some? {
        return Ok(found.value), i + 1;
      }
      i := i + 1;
    }
    return Err(Failure(IllegalState, OrderNotFoundAfterRetries)), MAX_RETRY;
  }

  // ---------------------------------------------------------------- lemmas

  /** Placement accepts a buy of zero shares, which passes every check there
      (its total is zero, so any free cash covers it); the validation run
      afterwards rejects its line. */
  lemma {:induction false} ZeroQuantityPassesPlacementNotValidation(t: Tables, userId: Id, stockCode: string,
                                                                    price: Option<int>, now: int)
    requires Valid(t) && userId in t.users && DefaultPortfolio(t, userId).Ok? && StockByCode(t, stockCode).Ok?
    requires NewMoney(price).Ok?
    ensures PlaceSingleOrder(t, BUY, userId, stockCode, Some(0), price, now).Ok?
    ensures var r := PlaceSingleOrder(t, BUY, userId, stockCode, Some(0), price, now).value;
      t.nextId in r.lines && Validate(Some(r.lines[t.nextId]), r.stocks) == Err(Failure(IllegalState, MissingQuantity))
  {
    var portfolio := DefaultPortfolio(t, userId).value;
    var stock := StockByCode(t, stockCode).value;
    var unit := NewMoney(price).value;
    AcceptedIffReservable(t, BUY, userId, stockCode, Some(0), price, now, portfolio, stock, 0, unit);
    PlacementRecordsOrder(t, BUY, userId, stockCode, Some(0), price, now, portfolio, stock, 0, unit);
  }
}
