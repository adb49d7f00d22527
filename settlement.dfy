/** The steps that settle one matched pair against the tables, shared by the
    two settlement services (`TradeService` and `TradeExecutionService`).
    Each step either fails or gives the new tables; a failure in a
    transaction rolls all of its steps back, so a failing step's partial
    writes are not kept. */
module Settlement {
  import opened Values
  import opened Statuses
  import Portfolios
  import Holdings
  import StockOrders
  import Orders
  import Trades
  import opened BookEntries
  import opened Matching
  import opened Ledger

  /** The shares of a stock held in a portfolio; none when there is no holding. */
  function Held(t: Tables, portfolio: Id, stock: Id): int
  {
    if (portfolio, stock) in t.holdings then t.holdings[(portfolio, stock)].quantity else 0
  }

  /** `loadStockOrder`: the line behind a book entry, fetched with all its
      relations; a line without its order or its portfolio is not found. */
  function LoadLine(t: Tables, e: BookEntry): (r: Result<StockOrders.StockOrderRow>)
    ensures r.Ok? <==> e.id in t.lines && HasAllRelations(t, t.lines[e.id])
    ensures r.Ok? ==> r.value == t.lines[e.id]
    ensures r.Ok? ==> r.value.order.Some? && r.value.order.value in t.orders
    ensures r.Ok? ==> r.value.portfolio.Some? && r.value.portfolio.value in t.portfolios
    ensures r.Err? ==> r.failure == Failure(IllegalArgument, LineNotFound)
  {
    FindLineWithAllRelations(t, e.id)
  }

  /** The buyer's cash in `TradeExecutionService`: `releaseAndDeductCash` of
      the cost, which takes it from the reserved AND from the free cash. */
  function ChargeBuyer(t: Tables, buyer: Id, cost: Money): (r: Result<Tables>)
    requires buyer in t.portfolios
    ensures r.Ok? <==> cost <= t.portfolios[buyer].reserved && cost <= t.portfolios[buyer].available
    ensures r.Err? ==> r.failure == Failure(IllegalArgument, InsufficientBalance)
    ensures r.Ok? ==> buyer in r.value.portfolios
    ensures r.Ok? ==> r.value == t.(portfolios := t.portfolios[buyer := r.value.portfolios[buyer]])
    ensures r.Ok? ==> r.value.portfolios[buyer].reserved + cost == t.portfolios[buyer].reserved
    ensures r.Ok? ==> r.value.portfolios[buyer].available + cost == t.portfolios[buyer].available
    ensures r.Ok? ==> PortfolioKey(r.value.portfolios[buyer]) == PortfolioKey(t.portfolios[buyer])
  {
    var charged := Portfolios.ReleaseAndDeductCash(t.portfolios[buyer], cost);
    if charged.result.Err? then Err(charged.result.failure)
    else
      var r := t.(portfolios := t.portfolios[buyer := charged.state]);
      Ok(r)
  }

  /** The buyer's holding after a purchase: `addQuantity` (now named
      `applyBuy`) on the holding the buyer already has, or a new holding
      bought at the price. */
  function BoughtHolding(t: Tables, portfolio: Id, stock: Id, q: Quantity, price: Money, now: int): (r: Result<Holdings.HoldingRow>)
    ensures r.Err? <==> (portfolio, stock) in t.holdings && t.holdings[(portfolio, stock)].quantity + q == 0
    ensures r.Err? ==> r.failure == Failure(Arithmetic, DivisionByZero)
    ensures r.Ok? ==> r.value.quantity == Held(t, portfolio, stock) + q
    ensures r.Ok? && (portfolio, stock) in t.holdings ==>
      r.value == Holdings.ApplyBuy(t.holdings[(portfolio, stock)], q, price, now).state
    ensures r.Ok? && (portfolio, stock) !in t.holdings ==>
      r.value.averagePrice == price && r.value.reserved == 0 && r.value.portfolio == portfolio && r.value.stock == stock
  {
    var key := (portfolio, stock);
    if key in t.holdings then
      var bought := Holdings.ApplyBuy(t.holdings[key], q, price, now);
      if bought.result.Err? then Err(bought.result.failure) else Ok(bought.state)
    else
      Ok(Holdings.CreatePortfolioStock(t.nextId, portfolio, stock, q, price, now))
  }

  /** The shares part of `handleBuyerPortfolioAndCash`: the bought holding is
      stored under the buyer's portfolio and the stock; a new holding takes
      the next id. */
  function AddShares(t: Tables, portfolio: Id, stock: Id, q: Quantity, price: Money, now: int): (r: Result<Tables>)
    ensures r.Err? <==> (portfolio, stock) in t.holdings && t.holdings[(portfolio, stock)].quantity + q == 0
    ensures r.Err? ==> r.failure == Failure(Arithmetic, DivisionByZero)
    ensures r.Ok? ==> (portfolio, stock) in r.value.holdings && r.value.holdings[(portfolio, stock)] == BoughtHolding(t, portfolio, stock, q, price, now).value
    ensures r.Ok? ==> Held(r.value, portfolio, stock) == Held(t, portfolio, stock) + q
    ensures r.Ok? ==> r.value.holdings == t.holdings[(portfolio, stock) := r.value.holdings[(portfolio, stock)]]
    ensures r.Ok? ==> r.value.(holdings := t.holdings, nextId := t.nextId) == t && r.value.nextId >= t.nextId
  {
    var key := (portfolio, stock);
    match BoughtHolding(t, portfolio, stock, q, price, now)
    case Err(f) => Err(f)
    case Ok(h) => Ok(t.(holdings := t.holdings[key := h], nextId := if key in t.holdings then t.nextId else t.nextId + 1))
  }

  /** The seller's holding after the shares leave it: `decreaseQuantity`,
      with `None` for a holding that became empty and is deleted. A seller
      with no holding of the stock is an illegal state. */
  function SoldHolding(t: Tables, seller: Id, stock: Id, q: Quantity, now: int): (r: Result<Option<Holdings.HoldingRow>>)
    ensures r.Ok? <==>
      (seller, stock) in t.holdings && q <= t.holdings[(seller, stock)].quantity && q <= t.holdings[(seller, stock)].reserved
    ensures (seller, stock) !in t.holdings ==> r == Err(Failure(IllegalState, NoHoldingToSell))
    ensures (seller, stock) in t.holdings && r.Err? ==> r.failure.cls == IllegalArgument
    ensures r.Ok? ==> (r.value.None? <==> t.holdings[(seller, stock)].quantity == q)
    ensures r.Ok? && r.value.Some? ==>
      r.value.value.quantity + q == t.holdings[(seller, stock)].quantity &&
      r.value.value.reserved + q == t.holdings[(seller, stock)].reserved
    ensures r.Ok? && r.value.Some? ==>
      r.value.value.(quantity := t.holdings[(seller, stock)].quantity, reserved := t.holdings[(seller, stock)].reserved,
                     lastUpdatedAt := t.holdings[(seller, stock)].lastUpdatedAt) == t.holdings[(seller, stock)]
  {
    var key := (seller, stock);
    if key !in t.holdings then Err(Failure(IllegalState, NoHoldingToSell))
    else
      var decreased := Holdings.DecreaseQuantity(t.holdings[key], q, now);
      if decreased.result.Err? then Err(decreased.result.failure)
      else if decreased.result.value then Ok(None)
      else Ok(Some(decreased.state))
  }

  /** Store a holding under a key, or delete the key's holding (`None`). */
  function Put(holdings: map<(Id, Id), Holdings.HoldingRow>, key: (Id, Id), h: Option<Holdings.HoldingRow>): (r: map<(Id, Id), Holdings.HoldingRow>)
    ensures key in r <==> h.Some?
    ensures h.Some? ==> r[key] == h.value
    ensures forall k | k != key :: (k in r <==> k in holdings)
    ensures forall k | k in r && k != key :: r[k] == holdings[k]
  {
    if h.Some? then holdings[key := h.value] else holdings - {key}
  }

  /** `handleSellerPortfolioAndCash`: the seller is credited the cost, then
      the shares leave the seller's holding, which is deleted once empty. */
  function SettleSeller(t: Tables, seller: Id, stock: Id, q: Quantity, price: Money, now: int): (r: Result<Tables>)
    requires seller in t.portfolios
    ensures r.Ok? <==> SoldHolding(t, seller, stock, q, now).Ok?
    ensures r.Err? ==> r.failure == SoldHolding(t, seller, stock, q, now).failure
    ensures r.Ok? ==> r.value == t.(portfolios := t.portfolios[seller := Portfolios.Deposit(t.portfolios[seller], Multiply(price, q))],
                                    holdings := Put(t.holdings, (seller, stock), SoldHolding(t, seller, stock, q, now).value))
    ensures r.Ok? ==> Held(r.value, seller, stock) + q == Held(t, seller, stock)
  {
    match SoldHolding(t, seller, stock, q, now)
    case Err(f) => Err(f)
    case Ok(h) =>
      Ok(t.(portfolios := t.portfolios[seller := Portfolios.Deposit(t.portfolios[seller], Multiply(price, q))],
            holdings := Put(t.holdings, (seller, stock), h)))
  }

  /** `updateQuantity` (now named `applyExecution`) on a stored line. */
  function ExecuteLine(t: Tables, id: Id, q: Quantity, price: Money, now: int): (r: Result<Tables>)
    requires id in t.lines
    ensures r.Ok? <==> 0 < t.lines[id].executed + q <= t.lines[id].requestedQuantity
    ensures r.Err? ==> r.failure == StockOrders.ApplyExecution(t.lines[id], q, price, now).result.failure
    ensures r.Ok? ==> id in r.value.lines && r.value == t.(lines := t.lines[id := r.value.lines[id]])
    ensures r.Ok? ==> r.value.lines[id] == StockOrders.ApplyExecution(t.lines[id], q, price, now).state
    ensures r.Ok? ==> r.value.lines[id].executed == t.lines[id].executed + q && StockOrders.Balanced(r.value.lines[id])
    ensures r.Ok? ==> r.value.lines[id].order == t.lines[id].order
    ensures r.Ok? ==> r.value.lines[id].remained + q == t.lines[id].remained || !StockOrders.Balanced(t.lines[id])
  {
    var executed := StockOrders.ApplyExecution(t.lines[id], q, price, now);
    if executed.result.Err? then Err(executed.result.failure)
    else
      var r := t.(lines := t.lines[id := executed.state]);
      Ok(r)
  }

  /** `getOrder().aggregateStatusFromChildren()` for a line's order: the order
      takes the status the aggregation rule gives its lines' statuses. The
      order is there, since the line was loaded with it. */
  function Reaggregate(t: Tables, lineId: Id, now: int): (r: Tables)
    requires lineId in t.lines && t.lines[lineId].order.Some? && t.lines[lineId].order.value in t.orders
    ensures var oid := t.lines[lineId].order.value;
      oid in r.orders &&
      r == t.(orders := t.orders[oid := r.orders[oid]]) &&
      r.orders[oid].status == RuleFor(ChildStatuses(t.lines, oid)) &&
      r.orders[oid].(status := t.orders[oid].status, updatedAt := t.orders[oid].updatedAt) == t.orders[oid]
    ensures r.lines == t.lines && r.orders.Keys == t.orders.Keys
  {
    var oid := t.lines[lineId].order.value;
    t.(orders := t.orders[oid := Orders.UpdateStatus(t.orders[oid], RuleFor(ChildStatuses(t.lines, oid)), now)])
  }

  /** The trade `createTrade` builds for a pair and `save` stores: its id is
      the next id, its stock is the buy line's, and its trade time is the
      saving time. */
  function NewTrade(t: Tables, p: MatchingPair, stock: Id, price: Money, q: Quantity, now: int): (r: Trades.TradeRow)
    ensures r.id == t.nextId && r.buyLine == p.buy.id && r.sellLine == p.sell.id && r.stock == stock
    ensures r.price == price && r.quantity == q && r.amount == Multiply(price, q) && r.tradedAt == now
  {
    Trades.OnCreate(Trades.CreateTrade(t.nextId, p.buy.id, p.sell.id, stock, price, q, now), now)
  }

  /** `saveTradeAndPublishEvent`: when a trade for the two lines already
      exists nothing happens; otherwise the trade is stored and an event
      carrying both entries, reduced by the executed quantity, is published.
      The result says whether a trade was stored. */
  function SaveTrade(t: Tables, p: MatchingPair, stock: Id, price: Money, q: Quantity, now: int): (r: (Tables, bool))
    ensures r.1 <==> (p.buy.id, p.sell.id) !in t.trades
    ensures !r.1 ==> r.0 == t
    ensures r.1 ==> r.0.trades == t.trades[(p.buy.id, p.sell.id) := NewTrade(t, p, stock, price, q, now)]
    ensures r.1 ==> |r.0.trades| == |t.trades| + 1
    ensures r.1 ==> r.0.outbox == t.outbox + [TradeSaved(t.nextId, Matching.AfterExecution(p, q).buy, Matching.AfterExecution(p, q).sell)]
    ensures r.1 ==> r.0.(trades := t.trades, outbox := t.outbox, nextId := t.nextId) == t && r.0.nextId == t.nextId + 1
  {
    var key := (p.buy.id, p.sell.id);
    if key in t.trades then (t, false)
    else
      var after := Matching.AfterExecution(p, q);
      var r := t.(trades := t.trades[key := NewTrade(t, p, stock, price, q, now)],
                  outbox := t.outbox + [TradeSaved(t.nextId, after.buy, after.sell)],
                  nextId := t.nextId + 1);
      (r, true)
  }

  /** The insert of `tradeRepository.save` in `TradeService`, which has no
      existence check: a second trade for the same two lines breaks the
      unique constraint. */
  function InsertTrade(t: Tables, p: MatchingPair, stock: Id, price: Money, q: Quantity, now: int): (r: Result<Tables>)
    ensures r.Ok? <==> (p.buy.id, p.sell.id) !in t.trades
    ensures r.Err? ==> r.failure == Failure(DataIntegrityViolation, DuplicateTrade)
    ensures r.Ok? ==> r.value.trades == t.trades[(p.buy.id, p.sell.id) := NewTrade(t, p, stock, price, q, now)]
    ensures r.Ok? ==> r.value.(trades := t.trades, nextId := t.nextId) == t && r.value.nextId == t.nextId + 1
  {
    var key := (p.buy.id, p.sell.id);
    if key in t.trades then Err(Failure(DataIntegrityViolation, DuplicateTrade))
    else
      var inserted := t.(trades := t.trades[key := NewTrade(t, p, stock, price, q, now)]);
      Ok(inserted.(nextId := t.nextId + 1))
  }

  // ------------------------------------------- every step keeps Valid

  lemma {:induction false} ChargeBuyerKeepsValid(t: Tables, buyer: Id, cost: Money)
    requires Valid(t) && buyer in t.portfolios && ChargeBuyer(t, buyer, cost).Ok?
    ensures Valid(ChargeBuyer(t, buyer, cost).value)
  {
    var r := ChargeBuyer(t, buyer, cost).value;
    PortfolioUpdateKeepsValid(t, buyer, r.portfolios[buyer]);
  }

  lemma {:induction false} AddSharesKeepsValid(t: Tables, portfolio: Id, stock: Id, q: Quantity, price: Money, now: int)
    requires Valid(t) && AddShares(t, portfolio, stock, q, price, now).Ok?
    ensures Valid(AddShares(t, portfolio, stock, q, price, now).value)
  {
    var key := (portfolio, stock);
    var h := BoughtHolding(t, portfolio, stock, q, price, now).value;
    if key in t.holdings {
      Holdings.OperationsKeepReservedWithinHeld(t.holdings[key], q, price, now);
    }
    HoldingUpdateKeepsValid(t, key, h);
    var r := AddShares(t, portfolio, stock, q, price, now).value;
    NextIdGrowthKeepsValid(t.(holdings := t.holdings[key := h]), r.nextId);
    assert r == t.(holdings := t.holdings[key := h]).(nextId := r.nextId);
  }

  lemma {:induction false} SettleSellerKeepsValid(t: Tables, seller: Id, stock: Id, q: Quantity, price: Money, now: int)
    requires Valid(t) && seller in t.portfolios && SettleSeller(t, seller, stock, q, price, now).Ok?
    ensures Valid(SettleSeller(t, seller, stock, q, price, now).value)
  {
    var key := (seller, stock);
    var paid := t.(portfolios := t.portfolios[seller := Portfolios.Deposit(t.portfolios[seller], Multiply(price, q))]);
    PortfolioUpdateKeepsValid(t, seller, paid.portfolios[seller]);
    var h := SoldHolding(t, seller, stock, q, now).value;
    if h.Some? {
      HoldingUpdateKeepsValid(paid, key, h.value);
    } else {
      HoldingDeleteKeepsValid(paid, key);
    }
  }

  lemma {:induction false} ExecuteLineKeepsValid(t: Tables, id: Id, q: Quantity, price: Money, now: int)
    requires Valid(t) && id in t.lines && ExecuteLine(t, id, q, price, now).Ok?
    ensures Valid(ExecuteLine(t, id, q, price, now).value)
  {
    LineUpdateKeepsValid(t, id, ExecuteLine(t, id, q, price, now).value.lines[id]);
  }

  lemma {:induction false} ReaggregateKeepsValid(t: Tables, lineId: Id, now: int)
    requires Valid(t)
    requires lineId in t.lines && t.lines[lineId].order.Some? && t.lines[lineId].order.value in t.orders
    ensures Valid(Reaggregate(t, lineId, now))
  {
    var oid := t.lines[lineId].order.value;
    OrderUpdateKeepsValid(t, oid, Reaggregate(t, lineId, now).orders[oid]);
  }

  lemma {:induction false} SaveTradeKeepsValid(t: Tables, p: MatchingPair, stock: Id, price: Money, q: Quantity, now: int)
    requires Valid(t)
    ensures Valid(SaveTrade(t, p, stock, price, q, now).0)
  {
    var key := (p.buy.id, p.sell.id);
    if key !in t.trades {
      var r := SaveTrade(t, p, stock, price, q, now).0;
      TradeInsertKeepsValid(t, key, NewTrade(t, p, stock, price, q, now));
      var inserted := t.(trades := t.trades[key := NewTrade(t, p, stock, price, q, now)]);
      NextIdGrowthKeepsValid(inserted.(outbox := r.outbox), t.nextId + 1);
      assert r == inserted.(outbox := r.outbox).(nextId := t.nextId + 1);
    }
  }

  lemma {:induction false} InsertTradeKeepsValid(t: Tables, p: MatchingPair, stock: Id, price: Money, q: Quantity, now: int)
    requires Valid(t) && InsertTrade(t, p, stock, price, q, now).Ok?
    ensures Valid(InsertTrade(t, p, stock, price, q, now).value)
  {
    var key := (p.buy.id, p.sell.id);
    TradeInsertKeepsValid(t, key, NewTrade(t, p, stock, price, q, now));
    var inserted := t.(trades := t.trades[key := NewTrade(t, p, stock, price, q, now)]);
    NextIdGrowthKeepsValid(inserted, t.nextId + 1);
  }

  // ------------------------------------------------ frame lemmas for Valid

  lemma PortfolioUpdateKeepsValid(t: Tables, id: Id, p: Portfolios.PortfolioRow)
    requires Valid(t) && id in t.portfolios
    requires PortfolioKey(p) == PortfolioKey(t.portfolios[id])
    ensures Valid(t.(portfolios := t.portfolios[id := p]))
  {
    var u := t.(portfolios := t.portfolios[id := p]);
    forall k | k in u.portfolioIndex
      ensures u.portfolioIndex[k] in u.portfolios && PortfolioKey(u.portfolios[u.portfolioIndex[k]]) == k
    {
      assert t.portfolioIndex[k] in t.portfolios;
    }
  }

  lemma HoldingUpdateKeepsValid(t: Tables, key: (Id, Id), h: Holdings.HoldingRow)
    requires Valid(t)
    requires h.portfolio == key.0 && h.stock == key.1 && Holdings.ReservedWithinHeld(h)
    ensures Valid(t.(holdings := t.holdings[key := h]))
  {
  }

  lemma HoldingDeleteKeepsValid(t: Tables, key: (Id, Id))
    requires Valid(t)
    ensures Valid(t.(holdings := t.holdings - {key}))
  {
  }

  lemma LineUpdateKeepsValid(t: Tables, id: Id, l: StockOrders.StockOrderRow)
    requires Valid(t) && id in t.lines && StockOrders.Balanced(l)
    ensures Valid(t.(lines := t.lines[id := l]))
  {
  }

  lemma OrderUpdateKeepsValid(t: Tables, id: Id, o: Orders.OrderRow)
    requires Valid(t) && id in t.orders
    ensures Valid(t.(orders := t.orders[id := o]))
  {
  }

  lemma TradeInsertKeepsValid(t: Tables, key: (Id, Id), tr: Trades.TradeRow)
    requires Valid(t) && tr.buyLine == key.0 && tr.sellLine == key.1
    ensures Valid(t.(trades := t.trades[key := tr]))
  {
  }

  lemma NextIdGrowthKeepsValid(t: Tables, next: Id)
    requires Valid(t) && next >= t.nextId
    ensures Valid(t.(nextId := next))
  {
  }
}
