/** `TradeExecutionService.matchSinglePair`: settle one matched pair in one
    transaction. The buyer is charged and receives the shares, the seller is
    paid and delivers them, both lines record the execution, both parent
    orders are re-aggregated, and a trade is stored and announced unless one
    already exists for the two lines. */
module TradeExecution {
  import opened Values
  import opened Statuses
  import StockOrders
  import opened BookEntries
  import opened Matching
  import opened Ledger
  import opened Settlement

  /** The catch clauses of `matchSinglePair`: an illegal state is a structural
      problem that a retry will not fix; an unreachable cache or database
      (including a broken constraint, which the database layer reports as a
      data access failure) is worth retrying; anything else passes through
      unchanged. */
  function Classify(f: Failure): (r: Failure)
    ensures r.reason == f.reason
    ensures f.cls == IllegalState ==> r.cls == NonRetryableMatch
    ensures f.cls in {RedisConnection, DataAccess, DataIntegrityViolation} ==> r.cls == RetryableMatch
    ensures f.cls !in {IllegalState, RedisConnection, DataAccess, DataIntegrityViolation} ==> r == f
  {
    match f.cls
    case IllegalState => Failure(NonRetryableMatch, f.reason)
    case RedisConnection => Failure(RetryableMatch, f.reason)
    case DataAccess => Failure(RetryableMatch, f.reason)
    case DataIntegrityViolation => Failure(RetryableMatch, f.reason)
    case _ => f
  }

  /** The portfolio of the line behind the pair's buy entry, if both exist. */
  function BuyerOf(t: Tables, p: MatchingPair): Option<Id>
  {
    if p.buy.id in t.lines then t.lines[p.buy.id].portfolio else None
  }

  /** The portfolio of the line behind the pair's sell entry, if both exist. */
  function SellerOf(t: Tables, p: MatchingPair): Option<Id>
  {
    if p.sell.id in t.lines then t.lines[p.sell.id].portfolio else None
  }

  /** The stock of the buy line, which is the stock both sides trade. */
  function StockOf(t: Tables, p: MatchingPair): Id
    requires p.buy.id in t.lines
  {
    t.lines[p.buy.id].stock
  }

  /** What the steps of `matchSinglePair` produce before the trade is saved:
      the executed quantity, the price, the two lines as loaded, the two
      portfolios, and the tables after each step. */
  datatype Stages = Stages(
    q: Quantity, price: Money,
    buyLine: StockOrders.StockOrderRow, sellLine: StockOrders.StockOrderRow,
    buyer: Id, seller: Id,
    charged: Tables, bought: Tables, sold: Tables,
    buyExecuted: Tables, sellExecuted: Tables,
    buyOrdered: Tables, sellOrdered: Tables)

  /** The steps of `matchSinglePair` up to the trade: load the two lines,
      charge the buyer and give them the shares, pay the seller and take the
      shares from them, execute both lines, re-aggregate both orders. The
      quantity is the pair's executable quantity and the price is the sell
      entry's price. The first failing step decides the failure. */
  function Run(t: Tables, p: MatchingPair, now: int): Result<Stages>
  {
    var q :- ExecutableQuantity(p);
    var price :- NewMoney(Some(p.sell.requestedPrice));
    var buy :- LoadLine(t, p.buy);
    var sell :- LoadLine(t, p.sell);
    var buyer := buy.portfolio.value;
    var t1 :- ChargeBuyer(t, buyer, Multiply(price, q));
    var t2 :- AddShares(t1, buyer, buy.stock, q, price, now);
    var seller := sell.portfolio.value;
    var t3 :- SettleSeller(t2, seller, buy.stock, q, price, now);
    var t4 :- ExecuteLine(t3, p.buy.id, q, price, now);
    var t5 :- ExecuteLine(t4, p.sell.id, q, price, now);
    var t6 := Reaggregate(t5, p.buy.id, now);
    var t7 := Reaggregate(t6, p.sell.id, now);
    Ok(Stages(q, price, buy, sell, buyer, seller, t1, t2, t3, t4, t5, t6, t7))
  }

  /** The whole of `matchSinglePair` before its catch clauses: the steps,
      then `saveTradeAndPublishEvent`. The flag says whether a trade was
      stored. */
  function Settle(t: Tables, p: MatchingPair, now: int): Result<(Tables, bool)>
  {
    var s :- Run(t, p, now);
    Ok(SaveTrade(s.sellOrdered, p, s.buyLine.stock, s.price, s.q, now))
  }

  /** `matchSinglePair` on the database: the steps run one after the other on
      the transaction's copy of the tables; the first failure is classified
      and leaves the database as it was; otherwise the copy is committed. The
      result says whether a new trade was stored. */
  method MatchSinglePair(db: Database, p: MatchingPair, now: int) returns (r: Result<bool>)
    modifies db
    ensures r.Err? ==> db.tables == old(db.tables)
    ensures r.Err? ==> Settle(old(db.tables), p, now).Err? && r.failure == Classify(Settle(old(db.tables), p, now).failure)
    ensures r.Ok? ==> Settle(old(db.tables), p, now) == Ok((db.tables, r.value))
  {
    var t := db.tables;
    var q := ExecutableQuantity(p);
    if q.Err? { return Err(Classify(q.failure)); }
    var price := NewMoney(Some(p.sell.requestedPrice));
    if price.Err? { return Err(Classify(price.failure)); }
    var buy := LoadLine(t, p.buy);
    if buy.Err? { return Err(Classify(buy.failure)); }
    var sell := LoadLine(t, p.sell);
    if sell.Err? { return Err(Classify(sell.failure)); }
    var stock := buy.value.stock;

    // the buyer pays and receives the shares
    var buyer := buy.value.portfolio.value;
    var charged := ChargeBuyer(t, buyer, Multiply(price.value, q.value));
    if charged.Err? { return Err(Classify(charged.failure)); }
    t := charged.value;
    var bought := AddShares(t, buyer, stock, q.value, price.value, now);
    if bought.Err? { return Err(Classify(bought.failure)); }
    t := bought.value;

    // the seller is paid and delivers the shares
    var seller := sell.value.portfolio.value;
    var sold := SettleSeller(t, seller, stock, q.value, price.value, now);
    if sold.Err? { return Err(Classify(sold.failure)); }
    t := sold.value;

    // both lines, then both orders
    var buyExecuted := ExecuteLine(t, p.buy.id, q.value, price.value, now);
    if buyExecuted.Err? { return Err(Classify(buyExecuted.failure)); }
    t := buyExecuted.value;
    var sellExecuted := ExecuteLine(t, p.sell.id, q.value, price.value, now);
    if sellExecuted.Err? { return Err(Classify(sellExecuted.failure)); }
    t := sellExecuted.value;
    t := Reaggregate(t, p.buy.id, now);
    t := Reaggregate(t, p.sell.id, now);

    var saved := SaveTrade(t, p, stock, price.value, q.value, now);
    db.tables := saved.0;
    r := Ok(saved.1);
  }

  // ---------------------------------------------------------------- lemmas

  /** The stages of a successful run, one step after the other. */
  lemma RunSteps(t: Tables, p: MatchingPair, now: int)
    requires Run(t, p, now).Ok?
    ensures var s := Run(t, p, now).value;
      ExecutableQuantity(p) == Ok(s.q) && s.price == p.sell.requestedPrice &&
      p.buy.id in t.lines && p.sell.id in t.lines &&
      s.buyLine == t.lines[p.buy.id] && s.sellLine == t.lines[p.sell.id] &&
      s.buyLine.portfolio == Some(s.buyer) && s.buyer in t.portfolios &&
      ChargeBuyer(t, s.buyer, Multiply(s.price, s.q)) == Ok(s.charged) &&
      AddShares(s.charged, s.buyer, s.buyLine.stock, s.q, s.price, now) == Ok(s.bought) &&
      s.sellLine.portfolio == Some(s.seller) && s.seller in s.bought.portfolios &&
      SettleSeller(s.bought, s.seller, s.buyLine.stock, s.q, s.price, now) == Ok(s.sold) &&
      p.buy.id in s.sold.lines &&
      ExecuteLine(s.sold, p.buy.id, s.q, s.price, now) == Ok(s.buyExecuted) &&
      p.sell.id in s.buyExecuted.lines &&
      ExecuteLine(s.buyExecuted, p.sell.id, s.q, s.price, now) == Ok(s.sellExecuted) &&
      p.buy.id in s.sellExecuted.lines && s.sellExecuted.lines[p.buy.id].order == s.buyLine.order &&
      s.buyLine.order.Some? && s.buyLine.order.value in s.sellExecuted.orders &&
      Reaggregate(s.sellExecuted, p.buy.id, now) == s.buyOrdered &&
      p.sell.id in s.buyOrdered.lines && s.buyOrdered.lines[p.sell.id].order == s.sellLine.order &&
      s.sellLine.order.Some? && s.sellLine.order.value in s.buyOrdered.orders &&
      Reaggregate(s.buyOrdered, p.sell.id, now) == s.sellOrdered
  {
    var q := ExecutableQuantity(p).value;
    var price := NewMoney(Some(p.sell.requestedPrice)).value;
    var buy := LoadLine(t, p.buy).value;
    var sell := LoadLine(t, p.sell).value;
    var buyer := buy.portfolio.value;
    var t1 := ChargeBuyer(t, buyer, Multiply(price, q)).value;
    var t2 := AddShares(t1, buyer, buy.stock, q, price, now).value;
    var seller := sell.portfolio.value;
    var t3 := SettleSeller(t2, seller, buy.stock, q, price, now).value;
    var t4 := ExecuteLine(t3, p.buy.id, q, price, now).value;
    var t5 := ExecuteLine(t4, p.sell.id, q, price, now).value;
    var t6 := Reaggregate(t5, p.buy.id, now);
    var t7 := Reaggregate(t6, p.sell.id, now);
    assert Run(t, p, now).value == Stages(q, price, buy, sell, buyer, seller, t1, t2, t3, t4, t5, t6, t7);
  }

  /** Which tables each step of a successful run touches, and the tables
      `Settle` ends with. */
  lemma RunFrames(t: Tables, p: MatchingPair, now: int)
    requires Run(t, p, now).Ok?
    ensures var s := Run(t, p, now).value;
      s.charged.holdings == t.holdings && s.charged.lines == t.lines &&
      s.bought.portfolios == s.charged.portfolios && s.bought.lines == t.lines &&
      s.sold.lines == t.lines &&
      s.sellExecuted.portfolios == s.sold.portfolios && s.sellExecuted.holdings == s.sold.holdings &&
      s.sellOrdered.portfolios == s.sold.portfolios && s.sellOrdered.holdings == s.sold.holdings &&
      s.sellOrdered.lines == s.sellExecuted.lines && s.buyOrdered.lines == s.sellExecuted.lines &&
      s.sellOrdered.trades == t.trades && s.sellOrdered.outbox == t.outbox
    ensures var s := Run(t, p, now).value; var r := Settle(t, p, now).value;
      r == SaveTrade(s.sellOrdered, p, s.buyLine.stock, s.price, s.q, now) &&
      r.0.portfolios == s.sold.portfolios && r.0.holdings == s.sold.holdings &&
      r.0.lines == s.sellExecuted.lines && r.0.orders == s.sellOrdered.orders
  {
    RunSteps(t, p, now);
  }

  /** The cash of the two portfolios across the charge and the deposit. */
  lemma CashAcrossSteps(t: Tables, charged: Tables, sold: Tables, buyer: Id, seller: Id, cost: Money)
    requires buyer in t.portfolios && ChargeBuyer(t, buyer, cost) == Ok(charged)
    requires seller in charged.portfolios
    requires sold.portfolios == charged.portfolios[seller := Portfolios.Deposit(charged.portfolios[seller], cost)]
    ensures sold.portfolios.Keys == t.portfolios.Keys
    ensures buyer != seller ==>
      sold.portfolios[buyer].reserved + cost == t.portfolios[buyer].reserved &&
      sold.portfolios[buyer].available + cost == t.portfolios[buyer].available &&
      sold.portfolios[seller].available == t.portfolios[seller].available + cost &&
      sold.portfolios[seller].reserved == t.portfolios[seller].reserved
    ensures buyer == seller ==>
      sold.portfolios[buyer].reserved + cost == t.portfolios[buyer].reserved &&
      sold.portfolios[buyer].available == t.portfolios[buyer].available
  {
  }

  /** The two lines across their two executions. */
  lemma LinesAcrossSteps(t: Tables, buyExecuted: Tables, sellExecuted: Tables, buyId: Id, sellId: Id, q: Quantity, price: Money, now: int)
    requires buyId != sellId && buyId in t.lines && sellId in t.lines
    requires ExecuteLine(t, buyId, q, price, now) == Ok(buyExecuted)
    requires sellId in buyExecuted.lines && ExecuteLine(buyExecuted, sellId, q, price, now) == Ok(sellExecuted)
    ensures sellExecuted.lines.Keys == t.lines.Keys
    ensures sellExecuted.lines[buyId] == StockOrders.ApplyExecution(t.lines[buyId], q, price, now).state
    ensures sellExecuted.lines[sellId] == StockOrders.ApplyExecution(t.lines[sellId], q, price, now).state
    ensures forall id | id in t.lines && id != buyId && id != sellId :: sellExecuted.lines[id] == t.lines[id]
    ensures sellExecuted.lines[buyId].executed == t.lines[buyId].executed + q
    ensures sellExecuted.lines[sellId].executed == t.lines[sellId].executed + q
  {
  }

  /** Settling keeps the tables valid: holdings stay filed under their keys
      with no more reserved than held, lines stay balanced, portfolios stay
      unique per user and type, and ids stay below the next id. */
  lemma {:induction false} SettleKeepsValid(t: Tables, p: MatchingPair, now: int)
    requires Valid(t) && Settle(t, p, now).Ok?
    ensures Valid(Settle(t, p, now).value.0)
  {
    var s := Run(t, p, now).value;
    RunSteps(t, p, now);
    ChargeBuyerKeepsValid(t, s.buyer, Multiply(s.price, s.q));
    AddSharesKeepsValid(s.charged, s.buyer, s.buyLine.stock, s.q, s.price, now);
    SettleSellerKeepsValid(s.bought, s.seller, s.buyLine.stock, s.q, s.price, now);
    ExecuteLineKeepsValid(s.sold, p.buy.id, s.q, s.price, now);
    ExecuteLineKeepsValid(s.buyExecuted, p.sell.id, s.q, s.price, now);
    ReaggregateKeepsValid(s.sellExecuted, p.buy.id, now);
    ReaggregateKeepsValid(s.buyOrdered, p.sell.id, now);
    SaveTradeKeepsValid(s.sellOrdered, p, s.buyLine.stock, s.price, s.q, now);
  }

  /** A settled pair moves the cost, price times quantity, from the buyer's
      reserved and available cash to the seller's available cash; a
      portfolio trading with itself pays and is paid the same amount. The
      charge is checked against both of the buyer's pots beforehand. */
  lemma {:induction false} CashChangesHands(t: Tables, p: MatchingPair, now: int, q: Quantity, buyer: Id, seller: Id)
    requires Settle(t, p, now).Ok? && ExecutableQuantity(p) == Ok(q)
    requires BuyerOf(t, p) == Some(buyer) && SellerOf(t, p) == Some(seller)
    ensures buyer in t.portfolios && seller in t.portfolios
    ensures var cost := p.sell.requestedPrice * q;
      cost <= t.portfolios[buyer].reserved && cost <= t.portfolios[buyer].available
    ensures var r := Settle(t, p, now).value.0;
      r.portfolios.Keys == t.portfolios.Keys
    ensures var r := Settle(t, p, now).value.0; var cost := p.sell.requestedPrice * q;
      buyer != seller ==>
        r.portfolios[buyer].reserved + cost == t.portfolios[buyer].reserved &&
        r.portfolios[buyer].available + cost == t.portfolios[buyer].available &&
        r.portfolios[seller].available == t.portfolios[seller].available + cost &&
        r.portfolios[seller].reserved == t.portfolios[seller].reserved
    ensures var r := Settle(t, p, now).value.0; var cost := p.sell.requestedPrice * q;
      buyer == seller ==>
        r.portfolios[buyer].reserved + cost == t.portfolios[buyer].reserved &&
        r.portfolios[buyer].available == t.portfolios[buyer].available
  {
    var s := Run(t, p, now).value;
    RunSteps(t, p, now);
    RunFrames(t, p, now);
    CashAcrossSteps(t, s.charged, s.sold, buyer, seller, Multiply(s.price, s.q));
  }

  /** A settled pair moves the executed quantity of the buy line's stock
      from the seller's holding to the buyer's; the seller must hold and
      have reserved that many, and a seller's holding that reaches zero is
      deleted. A portfolio trading with itself ends with what it held. */
  lemma {:induction false} SharesChangeHands(t: Tables, p: MatchingPair, now: int, q: Quantity, buyer: Id, seller: Id)
    requires Settle(t, p, now).Ok? && ExecutableQuantity(p) == Ok(q)
    requires BuyerOf(t, p) == Some(buyer) && SellerOf(t, p) == Some(seller)
    ensures var r := Settle(t, p, now).value.0; var stock := StockOf(t, p);
      buyer != seller ==>
        Held(r, buyer, stock) == Held(t, buyer, stock) + q &&
        Held(r, seller, stock) + q == Held(t, seller, stock)
    ensures var stock := StockOf(t, p);
      buyer != seller ==> (seller, stock) in t.holdings && q <= t.holdings[(seller, stock)].reserved
    ensures var r := Settle(t, p, now).value.0; var stock := StockOf(t, p);
      buyer != seller ==> ((seller, stock) !in r.holdings <==> t.holdings[(seller, stock)].quantity == q)
    ensures var r := Settle(t, p, now).value.0; var stock := StockOf(t, p);
      buyer == seller ==> Held(r, buyer, stock) == Held(t, buyer, stock)
  {
    var s := Run(t, p, now).value;
    RunSteps(t, p, now);
    RunFrames(t, p, now);
    var stock := s.buyLine.stock;
    if buyer != seller {
      assert (buyer, stock) != (seller, stock);
      assert Held(s.bought, seller, stock) == Held(t, seller, stock);
      assert Held(s.sold, buyer, stock) == Held(s.bought, buyer, stock);
    }
  }

  /** A settled pair executes the quantity on both of its lines, with the
      sell entry's price, and leaves every other line alone. */
  lemma {:induction false} LinesRecordExecution(t: Tables, p: MatchingPair, now: int, q: Quantity)
    requires Settle(t, p, now).Ok? && ExecutableQuantity(p) == Ok(q)
    requires p.buy.id != p.sell.id
    ensures p.buy.id in t.lines && p.sell.id in t.lines
    ensures var r := Settle(t, p, now).value.0;
      r.lines.Keys == t.lines.Keys &&
      r.lines[p.buy.id] == StockOrders.ApplyExecution(t.lines[p.buy.id], q, p.sell.requestedPrice, now).state &&
      r.lines[p.sell.id] == StockOrders.ApplyExecution(t.lines[p.sell.id], q, p.sell.requestedPrice, now).state
    ensures var r := Settle(t, p, now).value.0;
      r.lines[p.buy.id].executed == t.lines[p.buy.id].executed + q &&
      r.lines[p.sell.id].executed == t.lines[p.sell.id].executed + q
    ensures var r := Settle(t, p, now).value.0;
      forall id | id in t.lines && id != p.buy.id && id != p.sell.id :: r.lines[id] == t.lines[id]
  {
    var s := Run(t, p, now).value;
    RunSteps(t, p, now);
    RunFrames(t, p, now);
    LinesAcrossSteps(s.sold, s.buyExecuted, s.sellExecuted, p.buy.id, p.sell.id, s.q, s.price, now);
    assert Settle(t, p, now).value.0.lines == s.sellExecuted.lines;
    assert s.sold.lines == t.lines && s.q == q;
  }

  /** After a settled pair, each of the two parent orders carries the
      status the aggregation rule gives the statuses of its lines as they
      now stand. */
  lemma {:induction false} ParentOrdersFollowLines(t: Tables, p: MatchingPair, now: int)
    requires Settle(t, p, now).Ok?
    ensures var r := Settle(t, p, now).value.0;
      p.buy.id in r.lines && p.sell.id in r.lines &&
      r.lines[p.buy.id].order.Some? && r.lines[p.sell.id].order.Some? &&
      r.lines[p.buy.id].order.value in r.orders && r.lines[p.sell.id].order.value in r.orders
    ensures var r := Settle(t, p, now).value.0;
      var buyOrder := r.lines[p.buy.id].order.value;
      var sellOrder := r.lines[p.sell.id].order.value;
      r.orders[buyOrder].status == RuleFor(ChildStatuses(r.lines, buyOrder)) &&
      r.orders[sellOrder].status == RuleFor(ChildStatuses(r.lines, sellOrder))
  {
    RunSteps(t, p, now);
    RunFrames(t, p, now);
  }

  /** The trade is stored exactly when none exists for the two lines; a
      stored trade carries the executed quantity and the sell entry's price,
      and its event carries both entries reduced by that quantity. When a
      trade already exists the trades and the events are left as they
      were. */
  lemma {:induction false} TradeRecordedOnce(t: Tables, p: MatchingPair, now: int, q: Quantity)
    requires Settle(t, p, now).Ok? && ExecutableQuantity(p) == Ok(q)
    ensures var key := (p.buy.id, p.sell.id);
      Settle(t, p, now).value.1 <==> key !in t.trades
    ensures var r := Settle(t, p, now).value.0;
      !Settle(t, p, now).value.1 ==> r.trades == t.trades && r.outbox == t.outbox
    ensures var r := Settle(t, p, now).value.0; var key := (p.buy.id, p.sell.id);
      Settle(t, p, now).value.1 ==>
        key in r.trades && r.trades == t.trades[key := r.trades[key]] &&
        r.trades[key].quantity == q && r.trades[key].price == p.sell.requestedPrice &&
        r.outbox == t.outbox + [TradeSaved(r.trades[key].id, Matching.AfterExecution(p, q).buy, Matching.AfterExecution(p, q).sell)]
  {
    RunSteps(t, p, now);
    RunFrames(t, p, now);
  }

  /** The existence check for the trade comes after the money, the shares
      and the lines have moved: a pair whose trade is already stored is
      charged, delivered and executed again, and only the trade and its
      event are skipped. */
  lemma {:induction false} ReplayedPairSettlesAgain(t: Tables, p: MatchingPair, now: int, q: Quantity, buyer: Id, seller: Id)
    requires Settle(t, p, now).Ok? && ExecutableQuantity(p) == Ok(q)
    requires BuyerOf(t, p) == Some(buyer) && SellerOf(t, p) == Some(seller) && buyer != seller
    requires p.buy.id != p.sell.id
    requires (p.buy.id, p.sell.id) in t.trades
    ensures var r := Settle(t, p, now).value;
      !r.1 && r.0.trades == t.trades && r.0.outbox == t.outbox
    ensures var r := Settle(t, p, now).value.0;
      buyer in t.portfolios && seller in t.portfolios && buyer in r.portfolios && seller in r.portfolios &&
      p.buy.id in t.lines && p.sell.id in t.lines && p.buy.id in r.lines && p.sell.id in r.lines
    ensures var r := Settle(t, p, now).value.0;
      r.portfolios[buyer].available + p.sell.requestedPrice * q == t.portfolios[buyer].available &&
      r.portfolios[seller].available == t.portfolios[seller].available + p.sell.requestedPrice * q
    ensures var r := Settle(t, p, now).value.0;
      r.lines[p.buy.id].executed == t.lines[p.buy.id].executed + q &&
      r.lines[p.sell.id].executed == t.lines[p.sell.id].executed + q
  {
    TradeRecordedOnce(t, p, now, q);
    CashChangesHands(t, p, now, q, buyer, seller);
    LinesRecordExecution(t, p, now, q);
  }
}
