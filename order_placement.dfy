/** `StockOrderService.placeSingleOrder` with its two strategies,
    `BuyOrderProcessor` and `SellOrderProcessor`: look up the user, the user's
    STOCK portfolio and the stock, build the quantity and the unit price, let
    the strategy reserve what the order needs (cash for a buy, shares for a
    sell), then save a new order holding one new line and publish an
    `OrderCreated` event. The whole call is one transaction: a failure at any
    step leaves the tables as they were. */
module OrderPlacement {
  import opened Values
  import opened Statuses
  import Portfolios
  import Holdings
  import StockOrders
  import Orders
  import Stocks
  import opened Ledger
  import opened Settlement

  /** `getDefaultPortfolioWithLock`: the id of the user's STOCK portfolio. */
  function DefaultPortfolio(t: Tables, user: Id): (r: Result<Id>)
    ensures r.Ok? <==> PortfolioOf(t, user, Portfolios.STOCK).Ok?
    ensures r.Ok? ==> r.value in t.portfolios && t.portfolios[r.value] == PortfolioOf(t, user, Portfolios.STOCK).value
    ensures r.Err? ==> r.failure == Failure(IllegalArgument, PortfolioNotFound)
  {
    match PortfolioOf(t, user, Portfolios.STOCK)
    case Err(f) => Err(f)
    case Ok(_) => Ok(t.portfolioIndex[(user, Portfolios.STOCK)])
  }

  /** `BuyOrderProcessor.reserve`: `reserveAndDeductCash` (named `reserveCash`
      in `Portfolio`) moves the total from the portfolio's free cash to its
      reserved cash, and refuses when the free cash is short. */
  function ReserveForBuy(t: Tables, portfolio: Id, total: Money): (r: Result<Tables>)
    requires portfolio in t.portfolios
    ensures r.Ok? <==> total <= t.portfolios[portfolio].available
    ensures r.Err? ==> r.failure == Failure(IllegalArgument, InsufficientPortfolioCash)
    ensures r.Ok? ==> portfolio in r.value.portfolios
    ensures r.Ok? ==> r.value == t.(portfolios := t.portfolios[portfolio := r.value.portfolios[portfolio]])
    ensures r.Ok? ==> r.value.portfolios[portfolio].available + total == t.portfolios[portfolio].available
    ensures r.Ok? ==> r.value.portfolios[portfolio].reserved == t.portfolios[portfolio].reserved + total
    ensures r.Ok? ==> PortfolioKey(r.value.portfolios[portfolio]) == PortfolioKey(t.portfolios[portfolio])
  {
    var reserved := Portfolios.ReserveCash(t.portfolios[portfolio], total);
    if reserved.result.Err? then Err(reserved.result.failure)
    else Ok(t.(portfolios := t.portfolios[portfolio := reserved.state]))
  }

  /** `SellOrderProcessor.reserve`: the portfolio's holding of the stock must
      exist (an illegal state otherwise) and sets the quantity aside, which
      it refuses when fewer shares are free. */
  function ReserveForSell(t: Tables, portfolio: Id, stock: Id, q: Quantity, now: int): (r: Result<Tables>)
    ensures r.Ok? <==>
      (portfolio, stock) in t.holdings && t.holdings[(portfolio, stock)].reserved + q <= t.holdings[(portfolio, stock)].quantity
    ensures (portfolio, stock) !in t.holdings ==> r == Err(Failure(IllegalState, NoHoldingToReserve))
    ensures (portfolio, stock) in t.holdings && r.Err? ==> r.failure.cls == IllegalArgument
    ensures r.Ok? ==> (portfolio, stock) in r.value.holdings
    ensures r.Ok? ==> r.value == t.(holdings := t.holdings[(portfolio, stock) := r.value.holdings[(portfolio, stock)]])
    ensures r.Ok? ==>
      r.value.holdings[(portfolio, stock)] ==
      t.holdings[(portfolio, stock)].(reserved := t.holdings[(portfolio, stock)].reserved + q, lastUpdatedAt := now)
  {
    var key := (portfolio, stock);
    if key !in t.holdings then Err(Failure(IllegalState, NoHoldingToReserve))
    else
      var reserved := Holdings.Reserve(t.holdings[key], q, now);
      if reserved.result.Err? then Err(reserved.result.failure)
      else Ok(t.(holdings := t.holdings[key := reserved.state]))
  }

  /** The strategy's `reserve`, chosen by the side of the order. */
  function Reserve(t: Tables, side: OrderType, portfolio: Id, stock: Id, q: Quantity, total: Money, now: int): (r: Result<Tables>)
    requires portfolio in t.portfolios
    ensures r.Ok? ==> r.value.portfolios.Keys == t.portfolios.Keys
  {
    if side == BUY then ReserveForBuy(t, portfolio, total) else ReserveForSell(t, portfolio, stock, q, now)
  }

  /** The strategy's `createOrder`, `orderRepository.save` and the strategy's
      `publishEvent`. The new line takes the next id and the new order the
      one after it; `createSingleOrder` gives the order to the portfolio's
      owner. */
  function SaveOrder(t: Tables, side: OrderType, portfolio: Id, stock: Stocks.StockRow, q: Quantity, unit: Money, now: int): (r: Tables)
    requires portfolio in t.portfolios
    ensures t.nextId in r.lines && t.nextId + 1 in r.orders
    ensures r.lines == t.lines[t.nextId := r.lines[t.nextId]]
    ensures r.orders == t.orders[t.nextId + 1 := r.orders[t.nextId + 1]]
    ensures var line := r.lines[t.nextId];
      line.status == PENDING && line.executed == 0 && StockOrders.Balanced(line) &&
      line.requestedQuantity == q && line.requestedPrice == unit && line.stock == stock.id &&
      line.portfolio == Some(portfolio) && line.order == Some(t.nextId + 1)
    ensures var order := r.orders[t.nextId + 1];
      order.status == CREATED && order.lines == [t.nextId] && order.orderType == side &&
      order.totalPrice == unit * q && order.user == t.portfolios[portfolio].user
    ensures r.outbox == t.outbox + [OrderCreated(t.nextId + 1, t.portfolios[portfolio].user, portfolio, stock.code, q, unit, side)]
    ensures r.nextId == t.nextId + 2
    ensures r.(lines := t.lines, orders := t.orders, outbox := t.outbox, nextId := t.nextId) == t
  {
    var lineId := t.nextId;
    var orderId := t.nextId + 1;
    var owner := t.portfolios[portfolio].user;
    var line := StockOrders.SetOrder(StockOrders.CreateStockOrder(lineId, stock.id, q, unit, Some(portfolio), now), orderId);
    var order := Orders.CreateSingleOrder(orderId, owner, lineId, side, Multiply(unit, q), now);
    var event := OrderCreated(orderId, owner, portfolio, stock.code, q, unit, side);
    t.(lines := t.lines[lineId := line], orders := t.orders[orderId := order],
       outbox := t.outbox + [event], nextId := t.nextId + 2)
  }

  /** `placeSingleOrder`. The lookups come first and fail with an illegal
      argument; after them only the reservation can fail, and of its
      failures only a sell without a holding is an illegal state. */
  function PlaceSingleOrder(t: Tables, side: OrderType, userId: Id, stockCode: string,
                            quantity: Option<int>, price: Option<int>, now: int): (r: Result<Tables>)
    ensures userId !in t.users ==> r == Err(Failure(IllegalArgument, UserNotFound))
    ensures r.Err? ==> r.failure.cls == IllegalArgument || r.failure == Failure(IllegalState, NoHoldingToReserve)
    ensures r.Err? && r.failure.cls == IllegalState ==> side == SELL
  {
    var user :- FindUser(t, userId);
    var portfolio :- DefaultPortfolio(t, user);
    var stock :- StockByCode(t, stockCode);
    var q :- NewQuantity(quantity);
    var unit :- NewMoney(price);
    var reserved :- Reserve(t, side, portfolio, stock.id, q, Multiply(unit, q), now);
    Ok(SaveOrder(reserved, side, portfolio, stock, q, unit, now))
  }

  // ---------------------------------------------------------------- lemmas

  /** The id the default-portfolio lookup gives names a portfolio owned by
      that user. */
  lemma DefaultPortfolioIsOwned(t: Tables, user: Id, portfolio: Id)
    requires PortfoliosIndexed(t) && DefaultPortfolio(t, user) == Ok(portfolio)
    ensures t.portfolios[portfolio].user == user
    ensures t.portfolios[portfolio].portfolioType == Portfolios.STOCK
  {
    assert PortfolioKey(t.portfolios[t.portfolioIndex[(user, Portfolios.STOCK)]]) == (user, Portfolios.STOCK);
  }

  /** Once the lookups and the two value constructors have passed, the order
      is accepted exactly when the reservation is possible: a buy needs free
      cash of at least the unit price times the quantity in the STOCK
      portfolio, a sell needs a holding of the stock with that many shares
      not yet reserved. */
  lemma {:induction false} AcceptedIffReservable(t: Tables, side: OrderType, userId: Id, stockCode: string,
                                                 quantity: Option<int>, price: Option<int>, now: int,
                                                 portfolio: Id, stock: Stocks.StockRow, q: Quantity, unit: Money)
    requires userId in t.users && DefaultPortfolio(t, userId) == Ok(portfolio) && StockByCode(t, stockCode) == Ok(stock)
    requires NewQuantity(quantity) == Ok(q) && NewMoney(price) == Ok(unit)
    ensures portfolio in t.portfolios
    ensures PlaceSingleOrder(t, side, userId, stockCode, quantity, price, now).Ok? <==>
      if side == BUY then unit * q <= t.portfolios[portfolio].available
      else (portfolio, stock.id) in t.holdings &&
           t.holdings[(portfolio, stock.id)].reserved + q <= t.holdings[(portfolio, stock.id)].quantity
  {
    assert PlaceSingleOrder(t, side, userId, stockCode, quantity, price, now).Ok? <==>
      Reserve(t, side, portfolio, stock.id, q, Multiply(unit, q), now).Ok?;
  }

  /** An accepted buy moves the total from the STOCK portfolio's free cash to
      its reserved cash and touches no holding. */
  lemma {:induction false} BuyPlacementReservesCash(t: Tables, userId: Id, stockCode: string,
                                                    quantity: Option<int>, price: Option<int>, now: int,
                                                    portfolio: Id, stock: Stocks.StockRow, q: Quantity, unit: Money)
    requires DefaultPortfolio(t, userId) == Ok(portfolio) && StockByCode(t, stockCode) == Ok(stock)
    requires NewQuantity(quantity) == Ok(q) && NewMoney(price) == Ok(unit)
    requires PlaceSingleOrder(t, BUY, userId, stockCode, quantity, price, now).Ok?
    ensures var r := PlaceSingleOrder(t, BUY, userId, stockCode, quantity, price, now).value;
      portfolio in t.portfolios && portfolio in r.portfolios && r.portfolios.Keys == t.portfolios.Keys
    ensures var r := PlaceSingleOrder(t, BUY, userId, stockCode, quantity, price, now).value;
      r.portfolios[portfolio].available + unit * q == t.portfolios[portfolio].available &&
      r.portfolios[portfolio].reserved == t.portfolios[portfolio].reserved + unit * q &&
      (forall id | id in t.portfolios && id != portfolio :: r.portfolios[id] == t.portfolios[id]) &&
      r.holdings == t.holdings && r.stocks == t.stocks
  {
    var reserved := ReserveForBuy(t, portfolio, Multiply(unit, q)).value;
    assert PlaceSingleOrder(t, BUY, userId, stockCode, quantity, price, now).value ==
      SaveOrder(reserved, BUY, portfolio, stock, q, unit, now);
  }

  /** An accepted sell sets the quantity aside in the portfolio's holding of
      the stock and touches no cash. */
  lemma {:induction false} SellPlacementReservesShares(t: Tables, userId: Id, stockCode: string,
                                                       quantity: Option<int>, price: Option<int>, now: int,
                                                       portfolio: Id, stock: Stocks.StockRow, q: Quantity, unit: Money)
    requires DefaultPortfolio(t, userId) == Ok(portfolio) && StockByCode(t, stockCode) == Ok(stock)
    requires NewQuantity(quantity) == Ok(q) && NewMoney(price) == Ok(unit)
    requires PlaceSingleOrder(t, SELL, userId, stockCode, quantity, price, now).Ok?
    ensures var r := PlaceSingleOrder(t, SELL, userId, stockCode, quantity, price, now).value;
      (portfolio, stock.id) in t.holdings && (portfolio, stock.id) in r.holdings
    ensures var r := PlaceSingleOrder(t, SELL, userId, stockCode, quantity, price, now).value;
      var key := (portfolio, stock.id);
      r.holdings[key].reserved == t.holdings[key].reserved + q &&
      r.holdings[key].quantity == t.holdings[key].quantity &&
      r.holdings == t.holdings[key := r.holdings[key]] &&
      r.portfolios == t.portfolios && r.stocks == t.stocks
  {
    var reserved := ReserveForSell(t, portfolio, stock.id, q, now).value;
    assert PlaceSingleOrder(t, SELL, userId, stockCode, quantity, price, now).value ==
      SaveOrder(reserved, SELL, portfolio, stock, q, unit, now);
  }

  /** An accepted order adds exactly one line and one order under fresh ids,
      the line PENDING for the requested quantity and unit price and attached
      to the order, the order holding just that line and owned by the caller,
      and publishes one `OrderCreated` event naming them. */
  lemma {:induction false} PlacementRecordsOrder(t: Tables, side: OrderType, userId: Id, stockCode: string,
                                                 quantity: Option<int>, price: Option<int>, now: int,
                                                 portfolio: Id, stock: Stocks.StockRow, q: Quantity, unit: Money)
    requires PortfoliosIndexed(t) && IdsBelowNext(t)
    requires DefaultPortfolio(t, userId) == Ok(portfolio) && StockByCode(t, stockCode) == Ok(stock)
    requires NewQuantity(quantity) == Ok(q) && NewMoney(price) == Ok(unit)
    requires PlaceSingleOrder(t, side, userId, stockCode, quantity, price, now).Ok?
    ensures var r := PlaceSingleOrder(t, side, userId, stockCode, quantity, price, now).value;
      t.nextId !in t.lines && t.nextId + 1 !in t.orders && t.nextId in r.lines && t.nextId + 1 in r.orders
    ensures var r := PlaceSingleOrder(t, side, userId, stockCode, quantity, price, now).value;
      |r.lines| == |t.lines| + 1 && |r.orders| == |t.orders| + 1
    ensures var r := PlaceSingleOrder(t, side, userId, stockCode, quantity, price, now).value;
      var line := r.lines[t.nextId];
      line.status == PENDING && line.remained == q && line.requestedPrice == unit && line.stock == stock.id &&
      line.portfolio == Some(portfolio) && line.order == Some(t.nextId + 1)
    ensures var r := PlaceSingleOrder(t, side, userId, stockCode, quantity, price, now).value;
      var order := r.orders[t.nextId + 1];
      order.user == userId && order.lines == [t.nextId] && order.orderType == side && order.totalPrice == unit * q
    ensures var r := PlaceSingleOrder(t, side, userId, stockCode, quantity, price, now).value;
      r.outbox == t.outbox + [OrderCreated(t.nextId + 1, userId, portfolio, stock.code, q, unit, side)]
  {
    var reserved := PlacedIsSaved(t, side, userId, stockCode, quantity, price, now, portfolio, stock, q, unit);
    SaveOrderAddsOne(reserved, side, portfolio, stock, q, unit, now);
  }

  /** An accepted placement is the reservation followed by `SaveOrder`; the
      reservation leaves the lines, the orders, the outbox and the next id as
      they were. */
  lemma {:induction false} PlacedIsSaved(t: Tables, side: OrderType, userId: Id, stockCode: string,
                                         quantity: Option<int>, price: Option<int>, now: int,
                                         portfolio: Id, stock: Stocks.StockRow, q: Quantity, unit: Money)
    returns (reserved: Tables)
    requires PortfoliosIndexed(t) && IdsBelowNext(t)
    requires DefaultPortfolio(t, userId) == Ok(portfolio) && StockByCode(t, stockCode) == Ok(stock)
    requires NewQuantity(quantity) == Ok(q) && NewMoney(price) == Ok(unit)
    requires PlaceSingleOrder(t, side, userId, stockCode, quantity, price, now).Ok?
    ensures portfolio in reserved.portfolios && reserved.portfolios[portfolio].user == userId
    ensures IdsBelowNext(reserved)
    ensures reserved.lines == t.lines && reserved.orders == t.orders && reserved.outbox == t.outbox
    ensures reserved.nextId == t.nextId
    ensures PlaceSingleOrder(t, side, userId, stockCode, quantity, price, now) ==
            Ok(SaveOrder(reserved, side, portfolio, stock, q, unit, now))
  {
    DefaultPortfolioIsOwned(t, userId, portfolio);
    reserved := Reserve(t, side, portfolio, stock.id, q, Multiply(unit, q), now).value;
    assert reserved.(portfolios := t.portfolios, holdings := t.holdings) == t;
  }

  /** With the next two ids unused, a saved order grows the lines and the
      orders by exactly one row each. */
  lemma {:induction false} SaveOrderAddsOne(t: Tables, side: OrderType, portfolio: Id, stock: Stocks.StockRow,
                                            q: Quantity, unit: Money, now: int)
    requires IdsBelowNext(t) && portfolio in t.portfolios
    ensures t.nextId !in t.lines && t.nextId + 1 !in t.orders
    ensures var r := SaveOrder(t, side, portfolio, stock, q, unit, now);
      |r.lines| == |t.lines| + 1 && |r.orders| == |t.orders| + 1
  {
    assert t.nextId !in t.lines && t.nextId + 1 !in t.orders;
    var r := SaveOrder(t, side, portfolio, stock, q, unit, now);
    FreshKeyGrowsMap(t.lines, t.nextId, r.lines[t.nextId]);
    FreshKeyGrowsMap(t.orders, t.nextId + 1, r.orders[t.nextId + 1]);
  }

  lemma FreshKeyGrowsMap<K, V>(m: map<K, V>, k: K, v: V)
    requires k !in m
    ensures |m[k := v]| == |m| + 1
  {
    assert m[k := v].Keys == m.Keys + {k};
  }

  /** A saved order keeps the tables valid: its line is balanced and both new
      ids are below the next id. */
  lemma {:induction false} SaveOrderKeepsValid(t: Tables, side: OrderType, portfolio: Id, stock: Stocks.StockRow,
                                               q: Quantity, unit: Money, now: int)
    requires Valid(t) && portfolio in t.portfolios
    ensures Valid(SaveOrder(t, side, portfolio, stock, q, unit, now))
  {
    var r := SaveOrder(t, side, portfolio, stock, q, unit, now);
    assert r.portfolios == t.portfolios && r.portfolioIndex == t.portfolioIndex;
    assert r.holdings == t.holdings && r.trades == t.trades && r.users == t.users;
    assert forall id | id in r.lines :: StockOrders.Balanced(r.lines[id]);
  }

  /** An accepted order keeps the tables valid. */
  lemma {:induction false} PlaceSingleOrderKeepsValid(t: Tables, side: OrderType, userId: Id, stockCode: string,
                                                      quantity: Option<int>, price: Option<int>, now: int)
    requires Valid(t) && PlaceSingleOrder(t, side, userId, stockCode, quantity, price, now).Ok?
    ensures Valid(PlaceSingleOrder(t, side, userId, stockCode, quantity, price, now).value)
  {
    var portfolio := DefaultPortfolio(t, userId).value;
    var stock := StockByCode(t, stockCode).value;
    var q := NewQuantity(quantity).value;
    var unit := NewMoney(price).value;
    var total := Multiply(unit, q);
    var reserved := Reserve(t, side, portfolio, stock.id, q, total, now).value;
    if side == BUY {
      PortfolioUpdateKeepsValid(t, portfolio, reserved.portfolios[portfolio]);
    } else {
      var key := (portfolio, stock.id);
      HoldingUpdateKeepsValid(t, key, reserved.holdings[key]);
    }
    SaveOrderKeepsValid(reserved, side, portfolio, stock, q, unit, now);
  }
}
