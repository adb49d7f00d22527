/** `SellStockService.placeSingleSellOrder` (kept in two identical copies, in
    `service` and in `service.old`): the sell path written out before the
    strategies existed. The user's default portfolio, the stock, the
    quantity and the price are looked up and built as in `placeSingleOrder`;
    the holding of the stock must exist and sets the quantity aside; a new
    SELL order with one line is saved, and the `OrderCreated` event is
    published once the transaction commits. */
module SellSubmission {
  import opened Values
  import opened Statuses
  import Stocks
  import opened Ledger
  import opened OrderPlacement

  function PlaceSingleSellOrder(t: Tables, userId: Id, stockCode: string,
                                quantity: Option<int>, price: Option<int>, now: int): (r: Result<Tables>)
    ensures r.Err? && r.failure.cls == IllegalState ==> r.failure.reason == NoHoldingToReserve
  {
    var user :- FindUser(t, userId);
    var portfolio :- DefaultPortfolio(t, user);
    var stock :- StockByCode(t, stockCode);
    var q :- NewQuantity(quantity);
    var unit :- NewMoney(price);
    var reserved :- ReserveForSell(t, portfolio, stock.id, q, now);
    Ok(SaveOrder(reserved, SELL, portfolio, stock, q, unit, now))
  }

  // ---------------------------------------------------------------- lemmas

  /** The older sell service and the strategy-based `placeSingleOrder` with
      the sell strategy accept the same requests and write the same rows and
      the same event. */
  lemma {:induction false} SellServiceAgreesWithStrategy(t: Tables, userId: Id, stockCode: string,
                                                         quantity: Option<int>, price: Option<int>, now: int)
    ensures PlaceSingleSellOrder(t, userId, stockCode, quantity, price, now) ==
            PlaceSingleOrder(t, SELL, userId, stockCode, quantity, price, now)
  {
    if FindUser(t, userId).Ok? && DefaultPortfolio(t, userId).Ok? && StockByCode(t, stockCode).Ok? &&
       NewQuantity(quantity).Ok? && NewMoney(price).Ok? {
      var portfolio := DefaultPortfolio(t, userId).value;
      var stock := StockByCode(t, stockCode).value;
      var q := NewQuantity(quantity).value;
      var unit := NewMoney(price).value;
      assert Reserve(t, SELL, portfolio, stock.id, q, Multiply(unit, q), now) == ReserveForSell(t, portfolio, stock.id, q, now);
    }
  }

  /** A sell order is accepted exactly when the seller's STOCK portfolio
      holds the stock with at least the quantity free of reservations, and
      the acceptance moves no cash: the portfolios are untouched and only
      that holding's reservation grows. */
  lemma {:induction false} SellOrderReservesSharesOnly(t: Tables, userId: Id, stockCode: string,
                                                       quantity: Option<int>, price: Option<int>, now: int,
                                                       portfolio: Id, stock: Stocks.StockRow, q: Quantity)
    requires userId in t.users && DefaultPortfolio(t, userId) == Ok(portfolio) && StockByCode(t, stockCode) == Ok(stock)
    requires NewQuantity(quantity) == Ok(q) && NewMoney(price).Ok?
    ensures PlaceSingleSellOrder(t, userId, stockCode, quantity, price, now).Ok? <==>
      (portfolio, stock.id) in t.holdings &&
      t.holdings[(portfolio, stock.id)].reserved + q <= t.holdings[(portfolio, stock.id)].quantity
    ensures PlaceSingleSellOrder(t, userId, stockCode, quantity, price, now).Ok? ==>
      var r := PlaceSingleSellOrder(t, userId, stockCode, quantity, price, now).value;
      var key := (portfolio, stock.id);
      key in t.holdings && key in r.holdings &&
      r.portfolios == t.portfolios && r.holdings == t.holdings[key := r.holdings[key]] &&
      r.holdings[key].reserved == t.holdings[key].reserved + q
  {
    var unit := NewMoney(price).value;
    if ReserveForSell(t, portfolio, stock.id, q, now).Ok? {
      var reserved := ReserveForSell(t, portfolio, stock.id, q, now).value;
      assert PlaceSingleSellOrder(t, userId, stockCode, quantity, price, now).value ==
        SaveOrder(reserved, SELL, portfolio, stock, q, unit, now);
    }
  }
}
