/** `BuyStockService.placeBuyOrder`: the oldest buy path. It pays for the
    order out of the user's own cash balance (not out of a portfolio), checks
    the market quantity without taking from it, and saves an order and a line
    that belongs to no portfolio. The whole call is one transaction. */
module BuySubmission {
  import opened Values
  import opened Statuses
  import Users
  import Stocks
  import StockOrders
  import Orders
  import opened BookEntries
  import opened Ledger
  import opened Settlement

  /** `validateQuantity` and `validatePrice`: present and positive. */
  function Positive(v: Option<int>, reason: Reason): (r: Result<int>)
    ensures r.Ok? <==> v.Some? && v.value > 0
    ensures r.Ok? ==> r.value == v.value
    ensures r.Err? ==> r.failure == Failure(IllegalArgument, reason)
  {
    if v.None? || v.value <= 0 then Err(Failure(IllegalArgument, reason)) else Ok(v.value)
  }

  /** `stockRepository.findById`. */
  function StockById(t: Tables, id: Id): (r: Result<Stocks.StockRow>)
    ensures r.Ok? <==> id in t.stocks
    ensures r.Ok? ==> r.value == t.stocks[id]
    ensures r.Err? ==> r.failure == Failure(IllegalArgument, StockNotFound)
  {
    if id in t.stocks then Ok(t.stocks[id]) else Err(Failure(IllegalArgument, StockNotFound))
  }

  /** `placeBuyOrder`. The account id is accepted and never used. The order
      takes the next id and the line the one after it; the line points to
      the order but the order's list of lines stays empty. */
  function PlaceBuyOrder(t: Tables, userId: Id, accountId: Id, stockId: Id,
                         quantity: Option<int>, price: Option<int>, now: int): (r: Result<Tables>)
    ensures r.Ok? ==> userId in t.users && stockId in t.stocks
    ensures r.Err? ==> r.failure.cls == IllegalArgument
  {
    var user :- FindUser(t, userId);
    var stock :- StockById(t, stockId);
    var q :- Positive(quantity, QuantityNotPositive);
    var unit :- Positive(price, PriceNotPositive);
    var total := q * unit;
    if Users.IsBalanceInsufficient(Balance(t, user), total) then Err(Failure(IllegalArgument, InsufficientUserBalance))
    else if Stocks.HasLowerQuantityThan(stock, q) then Err(Failure(IllegalArgument, NotEnoughMarketStock))
    else
      var balance := Users.WithdrawBalance(Balance(t, user), total).value;
      var orderId := t.nextId;
      var lineId := t.nextId + 1;
      var order := Orders.NewOrder(orderId, user, BUY, total, now);
      var line := StockOrders.SetOrder(StockOrders.CreateStockOrder(lineId, stock.id, q, unit, None, now), orderId);
      Ok(t.(balances := t.balances[user := balance], orders := t.orders[orderId := order],
            lines := t.lines[lineId := line], nextId := t.nextId + 2))
  }

  // ---------------------------------------------------------------- lemmas

  /** With the user and the stock found, the order is accepted exactly when
      the quantity and the price are positive, the user's balance covers
      their product and the market holds at least the quantity. */
  lemma {:induction false} BuyOrderAcceptedIff(t: Tables, userId: Id, accountId: Id, stockId: Id,
                                               quantity: Option<int>, price: Option<int>, now: int)
    requires userId in t.users && stockId in t.stocks
    ensures PlaceBuyOrder(t, userId, accountId, stockId, quantity, price, now).Ok? <==>
      quantity.Some? && quantity.value > 0 && price.Some? && price.value > 0 &&
      quantity.value * price.value <= Balance(t, userId) && quantity.value <= t.stocks[stockId].available
  {
    if quantity.Some? && quantity.value > 0 && price.Some? && price.value > 0 {
      var total := quantity.value * price.value;
      assert PlaceBuyOrder(t, userId, accountId, stockId, quantity, price, now).Ok? <==>
        !Users.IsBalanceInsufficient(Balance(t, userId), total) && !Stocks.HasLowerQuantityThan(t.stocks[stockId], quantity.value);
    }
  }

  /** An accepted order takes its total out of the user's balance and
      nothing else: the market quantity, the portfolios and the holdings are
      untouched. */
  lemma {:induction false} BuyOrderDebitsBalance(t: Tables, userId: Id, accountId: Id, stockId: Id,
                                                 quantity: Option<int>, price: Option<int>, now: int)
    requires PlaceBuyOrder(t, userId, accountId, stockId, quantity, price, now).Ok?
    ensures quantity.Some? && price.Some?
    ensures var r := PlaceBuyOrder(t, userId, accountId, stockId, quantity, price, now).value;
      Balance(r, userId) + quantity.value * price.value == Balance(t, userId) &&
      r.balances == t.balances[userId := Balance(r, userId)] &&
      r.stocks == t.stocks && r.portfolios == t.portfolios && r.holdings == t.holdings && r.outbox == t.outbox
  {
  }

  /** The line of an accepted order names no portfolio, so the fetch with
      all relations does not find it: whichever book entry stands for it,
      settling it fails when the line is loaded. */
  lemma {:induction false} BuyServiceLineCannotSettle(t: Tables, userId: Id, accountId: Id, stockId: Id,
                                                      quantity: Option<int>, price: Option<int>, now: int, e: BookEntry)
    requires PlaceBuyOrder(t, userId, accountId, stockId, quantity, price, now).Ok?
    requires e.id == t.nextId + 1
    ensures var r := PlaceBuyOrder(t, userId, accountId, stockId, quantity, price, now).value;
      t.nextId + 1 in r.lines && r.lines[t.nextId + 1].status == PENDING && r.lines[t.nextId + 1].portfolio.None? &&
      LoadLine(r, e) == Err(Failure(IllegalArgument, LineNotFound))
  {
  }

  /** An accepted order keeps the tables valid. */
  lemma {:induction false} PlaceBuyOrderKeepsValid(t: Tables, userId: Id, accountId: Id, stockId: Id,
                                                   quantity: Option<int>, price: Option<int>, now: int)
    requires Valid(t) && PlaceBuyOrder(t, userId, accountId, stockId, quantity, price, now).Ok?
    ensures Valid(PlaceBuyOrder(t, userId, accountId, stockId, quantity, price, now).value)
  {
    var r := PlaceBuyOrder(t, userId, accountId, stockId, quantity, price, now).value;
    assert r.portfolios == t.portfolios && r.portfolioIndex == t.portfolioIndex && r.users == t.users;
    assert r.holdings == t.holdings && r.trades == t.trades && r.stocks == t.stocks;
    assert forall id | id in r.lines :: StockOrders.Balanced(r.lines[id]);
  }
}
