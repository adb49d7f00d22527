/** `StockOrderService.modifyStockOrder`: replace a PENDING line by a new
    order for a new quantity and price. Under the line's lock it checks the
    line, its owner and its status, cancels the line, withdraws it from the
    order book, and saves a new order with one new line for the same stock
    and portfolio. The method itself declares no transaction, while its
    locking query and its save need one; the model takes the transaction to
    be supplied by the caller, so a failure writes nothing to the database,
    while the book, which no transaction covers, keeps the withdrawal. No
    cash or shares are reserved or released for either line. */
module OrderModification {
  import opened Values
  import opened Statuses
  import StockOrders
  import Stocks
  import opened BookEntries
  import opened Ledger
  import opened Settlement
  import opened OrderBook
  import opened OrderPlacement

  /** What the checks of a modification find: the line, the side of its
      parent order, its stock and the portfolio it was placed from. */
  datatype Target = Target(line: StockOrders.StockOrderRow, orderType: OrderType, stock: Stocks.StockRow, portfolio: Id)

  /** The line must be found with all its relations, its parent order must
      belong to the caller (the access-denied error is rethrown as a plain
      runtime error) and it must still be PENDING. */
  function FindTarget(t: Tables, lineId: Id, userId: Id): (r: Result<Target>)
    ensures !(lineId in t.lines && HasAllRelations(t, t.lines[lineId])) ==> r == Err(Failure(IllegalArgument, LineNotFound))
    ensures r.Ok? ==> lineId in t.lines && r.value.line == t.lines[lineId] && r.value.line.status == PENDING
    ensures r.Ok? ==> HasAllRelations(t, r.value.line) && r.value.line.order.Some? && r.value.line.order.value in t.orders
    ensures r.Ok? ==> r.value.line.portfolio == Some(r.value.portfolio) && r.value.portfolio in t.portfolios
    ensures r.Ok? ==> t.orders[r.value.line.order.value].user == userId
    ensures r.Ok? ==> r.value.orderType == t.orders[r.value.line.order.value].orderType
    ensures r.Ok? ==> r.value.line.stock in t.stocks && r.value.stock == t.stocks[r.value.line.stock]
    ensures (lineId in t.lines && HasAllRelations(t, t.lines[lineId]) &&
             t.orders[t.lines[lineId].order.value].user != userId) ==> r == Err(Failure(Runtime, NotOwner))
  {
    var line :- FindLineWithAllRelations(t, lineId);
    var order := t.orders[line.order.value];
    if order.user != userId then Err(Failure(Runtime, NotOwner))
    else if line.status != PENDING then Err(Failure(IllegalState, NotPending))
    else if line.stock !in t.stocks then Err(Failure(NullPointer, MissingStock))
    else Ok(Target(line, order.orderType, t.stocks[line.stock], line.portfolio.value))
  }

  /** `StockOrderRedisDTO.from` of the cancelled line: the status does not
      enter the entry, so it is the entry the PENDING line was listed as. */
  function Withdrawn(target: Target, now: int): (r: BookEntry)
    ensures r == From(target.line, target.stock.code)
  {
    From(StockOrders.UpdateStatus(target.line, CANCELLED, now), target.stock.code)
  }

  /** A sorted set by key; a missing key reads as an empty set. */
  function SideOf(zsets: map<string, SortedSet>, key: string): SortedSet
  {
    if key in zsets then zsets[key] else map[]
  }

  /** The book after `removeBuyOrder` or `removeSellOrder` of the withdrawn
      entry, by the side of the parent order. */
  function WithdrawFrom(zsets: map<string, SortedSet>, target: Target, now: int): (r: map<string, SortedSet>)
  {
    var e := Withdrawn(target, now);
    if target.orderType == BUY then zsets[BuyKey(e.stockCode) := Remove(SideOf(zsets, BuyKey(e.stockCode)), e)]
    else zsets[SellKey(e.stockCode) := Remove(SideOf(zsets, SellKey(e.stockCode)), e)]
  }

  /** The database part after the checks: the new quantity and price are
      built, the line is cancelled, and the new order is saved for the line's
      portfolio. */
  function Replace(t: Tables, lineId: Id, target: Target, quantity: Option<int>, price: Option<int>, now: int): (r: Result<Tables>)
    requires lineId in t.lines && target.portfolio in t.portfolios
  {
    var q :- NewQuantity(quantity);
    var unit :- NewMoney(price);
    var cancelled := t.(lines := t.lines[lineId := StockOrders.UpdateStatus(t.lines[lineId], CANCELLED, now)]);
    Ok(SaveOrder(cancelled, target.orderType, target.portfolio, target.stock, q, unit, now))
  }

  /** What `modifyStockOrder` writes to the database. Only the owner of a
      PENDING line, holding the lock, gets a modification through. */
  function Modify(t: Tables, lockAcquired: bool, lineId: Id, userId: Id,
                  quantity: Option<int>, price: Option<int>, now: int): (r: Result<Tables>)
    ensures !lockAcquired ==> r == Err(Failure(IllegalState, LockNotAcquired))
    ensures r.Ok? ==> lockAcquired && lineId in t.lines && t.lines[lineId].status == PENDING
    ensures r.Ok? ==> t.lines[lineId].order.Some? && t.lines[lineId].order.value in t.orders &&
                      t.orders[t.lines[lineId].order.value].user == userId
  {
    if !lockAcquired then Err(Failure(IllegalState, LockNotAcquired))
    else
      var target :- FindTarget(t, lineId, userId);
      Replace(t, lineId, target, quantity, price, now)
  }

  /** What `modifyStockOrder` leaves in the order book: the line is withdrawn
      as soon as the checks pass, whether or not the rest succeeds. */
  function BookAfterModify(zsets: map<string, SortedSet>, t: Tables, lockAcquired: bool, lineId: Id, userId: Id, now: int): map<string, SortedSet>
  {
    if !lockAcquired then zsets
    else match FindTarget(t, lineId, userId)
      case Err(_) => zsets
      case Ok(target) => WithdrawFrom(zsets, target, now)
  }

  /** `modifyStockOrder` against the database and the book. `lockAcquired`
      is the outcome of `tryLock`. */
  method ModifyStockOrder(db: Database, book: RedisBook, lockAcquired: bool, lineId: Id, userId: Id,
                          quantity: Option<int>, price: Option<int>, now: int) returns (r: Result<()>)
    requires book.Valid()
    modifies db, book
    ensures book.Valid()
    ensures r.Ok? <==> Modify(old(db.tables), lockAcquired, lineId, userId, quantity, price, now).Ok?
    ensures r.Ok? ==> db.tables == Modify(old(db.tables), lockAcquired, lineId, userId, quantity, price, now).value
    ensures r.Err? ==> db.tables == old(db.tables)
    ensures r.Err? ==> r.failure == Modify(old(db.tables), lockAcquired, lineId, userId, quantity, price, now).failure
    ensures book.zsets == BookAfterModify(old(book.zsets), old(db.tables), lockAcquired, lineId, userId, now)
  {
    if !lockAcquired {
      return Err(Failure(IllegalState, LockNotAcquired));
    }
    var t := db.tables;
    var found := FindTarget(t, lineId, userId);
    if found.Err? {
      return Err(found.failure);
    }
    var target := found.value;
    var entry := Withdrawn(target, now);
    if target.orderType == BUY {
      book.RemoveBuyOrder(entry);
    } else {
      book.RemoveSellOrder(entry);
    }
    var next := Replace(t, lineId, target, quantity, price, now);
    if next.Err? {
      return Err(next.failure);
    }
    db.tables := next.value;
    r := Ok(());
  }

  // ---------------------------------------------------------------- lemmas

  /** A modification reserves nothing for the new line and releases nothing
      of the old one: the portfolios and the holdings are left as they were. */
  lemma {:induction false} ModifyReservesNothing(t: Tables, lockAcquired: bool, lineId: Id, userId: Id,
                                                 quantity: Option<int>, price: Option<int>, now: int)
    requires Modify(t, lockAcquired, lineId, userId, quantity, price, now).Ok?
    ensures var r := Modify(t, lockAcquired, lineId, userId, quantity, price, now).value;
      r.portfolios == t.portfolios && r.holdings == t.holdings && r.trades == t.trades
  {
    var target := FindTarget(t, lineId, userId).value;
    var portfolio := target.portfolio;
    var cancelled := t.(lines := t.lines[lineId := StockOrders.UpdateStatus(t.lines[lineId], CANCELLED, now)]);
    assert Modify(t, lockAcquired, lineId, userId, quantity, price, now).value ==
      SaveOrder(cancelled, target.orderType, portfolio, target.stock, NewQuantity(quantity).value, NewMoney(price).value, now);
  }

  /** A modification cancels the old line, leaves its parent order as it was
      (its status is not re-aggregated), and adds a PENDING line for the new
      quantity and price, the same stock and the same portfolio, under a new
      order of the old order's side; one `OrderCreated` event names the new
      order. */
  lemma {:induction false} ModifyReplacesLine(t: Tables, lockAcquired: bool, lineId: Id, userId: Id,
                                              quantity: Option<int>, price: Option<int>, now: int,
                                              q: Quantity, unit: Money)
    requires Valid(t)
    requires NewQuantity(quantity) == Ok(q) && NewMoney(price) == Ok(unit)
    requires Modify(t, lockAcquired, lineId, userId, quantity, price, now).Ok?
    ensures var r := Modify(t, lockAcquired, lineId, userId, quantity, price, now).value;
      lineId in t.lines && lineId in r.lines && t.nextId in r.lines && t.nextId + 1 in r.orders &&
      t.lines[lineId].order.Some? && t.lines[lineId].order.value in t.orders && t.lines[lineId].order.value in r.orders
    ensures var r := Modify(t, lockAcquired, lineId, userId, quantity, price, now).value;
      var old_ := t.lines[lineId];
      r.lines[lineId] == old_.(status := CANCELLED, updatedAt := now) &&
      r.orders[old_.order.value] == t.orders[old_.order.value]
    ensures var r := Modify(t, lockAcquired, lineId, userId, quantity, price, now).value;
      var old_ := t.lines[lineId]; var line := r.lines[t.nextId];
      line.status == PENDING && line.requestedQuantity == q && line.requestedPrice == unit &&
      line.stock == old_.stock && line.portfolio == old_.portfolio && line.order == Some(t.nextId + 1)
    ensures var r := Modify(t, lockAcquired, lineId, userId, quantity, price, now).value;
      var old_ := t.lines[lineId]; var order := r.orders[t.nextId + 1];
      order.orderType == t.orders[old_.order.value].orderType && order.lines == [t.nextId] &&
      order.totalPrice == unit * q && |r.outbox| == |t.outbox| + 1 && r.outbox[|t.outbox|].OrderCreated? &&
      r.outbox[|t.outbox|].orderId == t.nextId + 1
  {
    var target := FindTarget(t, lineId, userId).value;
    var portfolio := target.portfolio;
    var cancelled := t.(lines := t.lines[lineId := StockOrders.UpdateStatus(t.lines[lineId], CANCELLED, now)]);
    var r := SaveOrder(cancelled, target.orderType, portfolio, target.stock, q, unit, now);
    assert Modify(t, lockAcquired, lineId, userId, quantity, price, now).value == r;
    assert target.stock.id == t.lines[lineId].stock && Some(portfolio) == t.lines[lineId].portfolio;
    assert lineId < t.nextId && t.lines[lineId].order.value < t.nextId;
  }

  /** A modification keeps the tables valid. */
  lemma {:induction false} ModifyKeepsValid(t: Tables, lockAcquired: bool, lineId: Id, userId: Id,
                                            quantity: Option<int>, price: Option<int>, now: int)
    requires Valid(t) && Modify(t, lockAcquired, lineId, userId, quantity, price, now).Ok?
    ensures Valid(Modify(t, lockAcquired, lineId, userId, quantity, price, now).value)
  {
    var target := FindTarget(t, lineId, userId).value;
    var portfolio := target.portfolio;
    var l := StockOrders.UpdateStatus(t.lines[lineId], CANCELLED, now);
    LineUpdateKeepsValid(t, lineId, l);
    var cancelled := t.(lines := t.lines[lineId := l]);
    SaveOrderKeepsValid(cancelled, target.orderType, portfolio, target.stock, NewQuantity(quantity).value, NewMoney(price).value, now);
  }

  /** A line the owner asks to modify with a missing or negative quantity
      is lost to matching: the modification fails after the line was
      withdrawn from the book, and nothing reaches the database, so the line
      stays PENDING there without being listed in the book any more. */
  lemma {:induction false} InvalidModificationStrandsLine(t: Tables, zsets: map<string, SortedSet>, lineId: Id, userId: Id,
                                                          quantity: Option<int>, price: Option<int>, now: int)
    requires FindTarget(t, lineId, userId).Ok?
    requires quantity.None? || quantity.value < 0
    ensures Modify(t, true, lineId, userId, quantity, price, now) == Err(Failure(IllegalArgument, NegativeQuantity))
    ensures lineId in t.lines && t.lines[lineId].status == PENDING && t.lines[lineId].stock in t.stocks
    ensures var target := FindTarget(t, lineId, userId).value;
      var e := From(t.lines[lineId], target.stock.code);
      var key := if target.orderType == BUY then BuyKey(target.stock.code) else SellKey(target.stock.code);
      e !in SideOf(BookAfterModify(zsets, t, true, lineId, userId, now), key)
  {
  }
}
