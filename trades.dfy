/** `Trade`: the record of one execution between a buy line and a sell line. */
module Trades {
  import opened Values

  datatype TradeRow = TradeRow(
    id: Id,
    buyLine: Id,
    sellLine: Id,
    stock: Id,
    price: Money,
    quantity: Quantity,
    amount: Money,
    tradedAt: int,
    createdAt: Option<int>,
    updatedAt: int)

  /** `Trade.createTrade`: the amount is price times quantity; the update time
      starts at the trade time. */
  function CreateTrade(id: Id, buyLine: Id, sellLine: Id, stock: Id, price: Money, quantity: Quantity, tradedAt: int): (r: TradeRow)
    ensures r.amount == Multiply(price, quantity)
    ensures r.buyLine == buyLine && r.sellLine == sellLine && r.stock == stock
    ensures r.price == price && r.quantity == quantity
    ensures r.updatedAt == r.tradedAt == tradedAt && r.createdAt == None
  {
    TradeRow(id, buyLine, sellLine, stock, price, quantity, Multiply(price, quantity), tradedAt, None, tradedAt)
  }

  /** The persist hook: the trade time is overwritten with the time of saving. */
  function OnCreate(t: TradeRow, now: int): (r: TradeRow)
    ensures r.createdAt == Some(now) && r.tradedAt == now
    ensures r.(createdAt := t.createdAt, tradedAt := t.tradedAt) == t
  {
    t.(createdAt := Some(now), tradedAt := now)
  }

  /** The update hook. */
  function OnUpdate(t: TradeRow, now: int): (r: TradeRow)
    ensures r.updatedAt == now && r.(updatedAt := t.updatedAt) == t
  {
    t.(updatedAt := now)
  }

  /** The trade time passed to `createTrade` does not survive saving: a saved
      trade always carries its saving time, whatever time it was created with. */
  lemma SavedTradeTimeIsSavingTime(id: Id, buyLine: Id, sellLine: Id, stock: Id, price: Money,
                                   quantity: Quantity, tradedAt1: int, tradedAt2: int, now: int)
    ensures OnCreate(CreateTrade(id, buyLine, sellLine, stock, price, quantity, tradedAt1), now).tradedAt
         == OnCreate(CreateTrade(id, buyLine, sellLine, stock, price, quantity, tradedAt2), now).tradedAt == now
  {
  }
}
