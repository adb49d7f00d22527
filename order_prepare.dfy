/** `OrderPrepareService.validateAndRegisterToRedis`: the last step of an
    order's creation, which lists its line in the order book on the side the
    order type names. */
module OrderPreparation {
  import opened Values
  import opened Statuses
  import StockOrders
  import Stocks
  import opened BookEntries
  import opened OrderBook

  /** `line` is the line to list and `stock` the stock it refers to, `None`
      standing for a null reference; `orderType` is `None` for a null type. */
  method ValidateAndRegisterToRedis(book: RedisBook, line: Option<StockOrders.StockOrderRow>,
                                    stock: Option<Stocks.StockRow>, orderType: Option<OrderType>) returns (r: Result<()>)
    requires book.Valid()
    modifies book
    ensures book.Valid()
    ensures r.Ok? <==> line.Some? && stock.Some? && orderType.Some?
    ensures line.None? || stock.None? ==> r == Err(Failure(IllegalArgument, InvalidLine)) && book.zsets == old(book.zsets)
    ensures line.Some? && stock.Some? && orderType.None? ==>
      r == Err(Failure(IllegalArgument, UnsupportedOrderType)) && book.zsets == old(book.zsets)
    ensures r.Ok? && orderType.value == BUY ==>
      var e := From(line.value, stock.value.code);
      book.zsets == old(book.zsets)[BuyKey(e.stockCode) := Add(old(book.Side(BuyKey(e.stockCode))), e, BuyScore(e))]
    ensures r.Ok? && orderType.value == SELL ==>
      var e := From(line.value, stock.value.code);
      book.zsets == old(book.zsets)[SellKey(e.stockCode) := Add(old(book.Side(SellKey(e.stockCode))), e, SellScore(e))]
  {
    if line.None? || stock.None? {
      return Err(Failure(IllegalArgument, InvalidLine));
    }
    match orderType {
      case Some(BUY) => book.PushBuyOrder(line.value, stock.value.code);
      case Some(SELL) => book.PushSellOrder(line.value, stock.value.code);
      case None => return Err(Failure(IllegalArgument, UnsupportedOrderType));
    }
    r := Ok(());
  }
}
