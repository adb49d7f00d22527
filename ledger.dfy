/** The database the services work on: one map per repository, the events the
    services publish, and the id sequence new rows take their ids from. */
module Ledger {
  import opened Values
  import opened Statuses
  import Users
  import Accounts
  import Stocks
  import Portfolios
  import Holdings
  import StockOrders
  import Orders
  import Trades
  import opened BookEntries

  /** The events the services publish: `OrderCreatedEvent` and `TradeSavedEvent`. */
  datatype Event =
    | OrderCreated(orderId: Id, userId: Id, portfolioId: Id, stockCode: string, quantity: int, price: int, orderType: OrderType)
    | TradeSaved(tradeId: Id, buy: BookEntry, sell: BookEntry)

  /** The repositories as maps. Portfolios are also indexed by (user, type) and
      stocks by code, as the unique constraints on those columns allow; holdings
      are keyed by (portfolio, stock) and trades by (buy line, sell line). The
      users' cash balances are kept beside the users, since the `User` entity
      that would hold them is not part of this model. */
  datatype Tables = Tables(
    users: map<Id, Users.UserRow>,
    balances: map<Id, Money>,
    accounts: map<string, Accounts.AccountRow>,
    portfolios: map<Id, Portfolios.PortfolioRow>,
    portfolioIndex: map<(Id, Portfolios.PortfolioType), Id>,
    stocks: map<Id, Stocks.StockRow>,
    stockCodes: map<string, Id>,
    holdings: map<(Id, Id), Holdings.HoldingRow>,
    lines: map<Id, StockOrders.StockOrderRow>,
    orders: map<Id, Orders.OrderRow>,
    trades: map<(Id, Id), Trades.TradeRow>,
    outbox: seq<Event>,
    nextId: Id)

  /** The key of the unique constraint on portfolios. */
  function PortfolioKey(p: Portfolios.PortfolioRow): (Id, Portfolios.PortfolioType)
  {
    (p.user, p.portfolioType)
  }

  /** The index and the portfolios agree: each index entry names a portfolio
      with that key, and each portfolio is the one its key names. */
  predicate PortfoliosIndexed(t: Tables)
  {
    (forall k | k in t.portfolioIndex ::
       t.portfolioIndex[k] in t.portfolios && PortfolioKey(t.portfolios[t.portfolioIndex[k]]) == k) &&
    (forall id | id in t.portfolios ::
       PortfolioKey(t.portfolios[id]) in t.portfolioIndex && t.portfolioIndex[PortfolioKey(t.portfolios[id])] == id)
  }

  /** A user and a stock are filed under their own ids, a holding under its
      own portfolio and stock, a trade under its own lines. */
  predicate RowsKeyed(t: Tables)
  {
    (forall id | id in t.users :: t.users[id].id == id) &&
    (forall id | id in t.stocks :: t.stocks[id].id == id) &&
    (forall k | k in t.holdings :: t.holdings[k].portfolio == k.0 && t.holdings[k].stock == k.1) &&
    (forall k | k in t.trades :: t.trades[k].buyLine == k.0 && t.trades[k].sellLine == k.1)
  }

  /** Every id in use is below the next id to be given out. */
  predicate IdsBelowNext(t: Tables)
  {
    (forall id | id in t.portfolios :: id < t.nextId) &&
    (forall id | id in t.lines :: id < t.nextId) &&
    (forall id | id in t.orders :: id < t.nextId)
  }

  /** No holding has more shares reserved than held, and every line's executed
      and open quantities add up to its requested quantity. */
  predicate Healthy(t: Tables)
  {
    (forall k | k in t.holdings :: Holdings.ReservedWithinHeld(t.holdings[k])) &&
    (forall id | id in t.lines :: StockOrders.Balanced(t.lines[id]))
  }

  predicate Valid(t: Tables)
  {
    PortfoliosIndexed(t) && RowsKeyed(t) && IdsBelowNext(t) && Healthy(t)
  }

  /** The statuses of the lines that belong to an order, as the order's
      `stockOrders` collection loads them. */
  function ChildStatuses(lines: map<Id, StockOrders.StockOrderRow>, order: Id): (r: set<LineStatus>)
    ensures forall id | id in lines && lines[id].order == Some(order) :: lines[id].status in r
    ensures forall s | s in r :: exists id | id in lines && lines[id].order == Some(order) :: lines[id].status == s
  {
    set id | id in lines && lines[id].order == Some(order) :: lines[id].status
  }

  /** `findByIdForUpdate` on users: the user must exist. */
  function FindUser(t: Tables, id: Id): (r: Result<Id>)
    ensures r.Ok? <==> id in t.users
    ensures r.Ok? ==> r.value == id
    ensures r.Err? ==> r.failure == Failure(IllegalArgument, UserNotFound)
  {
    if id in t.users then Ok(id) else Err(Failure(IllegalArgument, UserNotFound))
  }

  /** A user's cash balance; a user with no balance recorded has none. */
  function Balance(t: Tables, user: Id): Money
  {
    if user in t.balances then t.balances[user] else 0
  }

  /** `findByStockCode`. */
  function StockByCode(t: Tables, code: string): (r: Result<Stocks.StockRow>)
    ensures r.Ok? <==> code in t.stockCodes && t.stockCodes[code] in t.stocks
    ensures r.Ok? ==> r.value == t.stocks[t.stockCodes[code]]
    ensures r.Err? ==> r.failure == Failure(IllegalArgument, StockNotFound)
  {
    if code in t.stockCodes && t.stockCodes[code] in t.stocks then Ok(t.stocks[t.stockCodes[code]])
    else Err(Failure(IllegalArgument, StockNotFound))
  }

  /** `findByUserIdAndPortfolioType`. */
  function PortfolioOf(t: Tables, user: Id, portfolioType: Portfolios.PortfolioType): (r: Result<Portfolios.PortfolioRow>)
    ensures r.Ok? <==> (user, portfolioType) in t.portfolioIndex && t.portfolioIndex[(user, portfolioType)] in t.portfolios
    ensures r.Ok? ==> r.value == t.portfolios[t.portfolioIndex[(user, portfolioType)]]
    ensures r.Err? ==> r.failure == Failure(IllegalArgument, PortfolioNotFound)
  {
    var key := (user, portfolioType);
    if key in t.portfolioIndex && t.portfolioIndex[key] in t.portfolios then Ok(t.portfolios[t.portfolioIndex[key]])
    else Err(Failure(IllegalArgument, PortfolioNotFound))
  }

  /** A line as the inner joins of `findByIdWithAllRelations` see it: its
      order, the order's user, its portfolio and the portfolio's user are all
      stored. */
  predicate HasAllRelations(t: Tables, l: StockOrders.StockOrderRow)
  {
    l.order.Some? && l.order.value in t.orders && t.orders[l.order.value].user in t.users &&
    l.portfolio.Some? && l.portfolio.value in t.portfolios && t.portfolios[l.portfolio.value].user in t.users
  }

  /** `findByIdWithAllRelations`: the line is fetched with its order, its
      portfolio and their users through inner joins, so a line that lacks any
      of them is not found, exactly like a missing line. Every caller turns
      "not found" into an illegal argument. */
  function FindLineWithAllRelations(t: Tables, id: Id): (r: Result<StockOrders.StockOrderRow>)
    ensures r.Ok? <==> id in t.lines && HasAllRelations(t, t.lines[id])
    ensures r.Ok? ==> r.value == t.lines[id]
    ensures r.Ok? ==> r.value.order.Some? && r.value.order.value in t.orders
    ensures r.Ok? ==> r.value.portfolio.Some? && r.value.portfolio.value in t.portfolios
    ensures r.Err? ==> r.failure == Failure(IllegalArgument, LineNotFound)
  {
    if id in t.lines && HasAllRelations(t, t.lines[id]) then Ok(t.lines[id])
    else Err(Failure(IllegalArgument, LineNotFound))
  }

  /** The database the services change. A transaction works on a copy of the
      tables and writes it back when it commits. */
  class Database {
    var tables: Tables

    constructor (t: Tables)
      ensures tables == t
    {
      tables := t;
    }
  }

  // ---------------------------------------------------------------- lemmas

  /** The unique constraint on portfolios: two portfolios with the same user
      and type are the same portfolio. */
  lemma {:induction false} OnePortfolioPerUserAndType(t: Tables, a: Id, b: Id)
    requires PortfoliosIndexed(t)
    requires a in t.portfolios && b in t.portfolios
    requires PortfolioKey(t.portfolios[a]) == PortfolioKey(t.portfolios[b])
    ensures a == b
  {
    assert t.portfolioIndex[PortfolioKey(t.portfolios[a])] == a;
    assert t.portfolioIndex[PortfolioKey(t.portfolios[b])] == b;
  }

  /** Whatever order an order's lines are listed in, aggregating their
      statuses gives the status the rule assigns to the set of statuses. */
  lemma {:induction false} AggregateOfChildren(t: Tables, order: Id, children: seq<LineStatus>)
    requires forall s :: s in children <==> s in ChildStatuses(t.lines, order)
    ensures Aggregate(children) == RuleFor(ChildStatuses(t.lines, order))
  {
    assert Kinds(children) == ChildStatuses(t.lines, order);
  }
}
