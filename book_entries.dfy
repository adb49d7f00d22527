/** `StockOrderRedisDTO` and `StockOrderRedisConverter`: the entry an order line
    becomes in the order book. It carries the line's open (not requested)
    quantity as a plain signed number, since the entry never re-checks it. */
module BookEntries {
  import opened Values
  import opened StockOrders

  /** The creation time is the line's `createdAt`, counted in milliseconds. */
  datatype BookEntry = BookEntry(id: Id, stockCode: string, requestedPrice: int, remainQuantity: int, createdAt: int)

  /** `StockOrderRedisDTO.from`: the line's id, its stock's code, its unit price,
      its open quantity and its creation time. */
  function From(l: StockOrderRow, stockCode: string): (r: BookEntry)
    ensures r.id == l.id && r.stockCode == stockCode && r.createdAt == l.createdAt
    ensures r.requestedPrice == l.requestedPrice && r.remainQuantity == l.remained
    ensures Balanced(l) ==> r.remainQuantity == l.requestedQuantity - l.executed
    ensures HasQuantity(r) <==> l.remained > 0
  {
    BookEntry(l.id, stockCode, l.requestedPrice, l.remained, l.createdAt)
  }

  /** `StockOrderRedisConverter.toDTO`, a second projection written out field
      by field, which agrees with `from`. */
  function ToDTO(l: StockOrderRow, stockCode: string): (r: BookEntry)
    ensures r == From(l, stockCode)
  {
    BookEntry(l.id, stockCode, l.requestedPrice, l.remained, l.createdAt)
  }

  /** `afterExecution`: the open quantity goes down by the executed quantity,
      with no check that it stays non-negative. */
  function AfterExecution(e: BookEntry, executed: Quantity): (r: BookEntry)
    ensures r.remainQuantity + executed == e.remainQuantity
    ensures r.(remainQuantity := e.remainQuantity) == e
  {
    e.(remainQuantity := e.remainQuantity - executed)
  }

  /** `hasQuantity`. */
  predicate HasQuantity(e: BookEntry)
  {
    e.remainQuantity > 0
  }

  // ---------------------------------------------------------------- lemmas

  /** Two executions in a row are one execution of their sum. */
  lemma AfterExecutionsAdd(e: BookEntry, a: Quantity, b: Quantity)
    ensures AfterExecution(AfterExecution(e, a), b) == AfterExecution(e, a + b)
  {
  }

  /** Executing more than is open leaves a negative open quantity. */
  lemma OverExecutionGoesNegative(e: BookEntry, executed: Quantity)
    requires executed > e.remainQuantity
    ensures AfterExecution(e, executed).remainQuantity < 0
    ensures !HasQuantity(AfterExecution(e, executed))
  {
  }

  /** The projection commutes with an execution: projecting a balanced line
      after `applyExecution` gives the projection from before, with
      `afterExecution` applied to it. The book entry and the stored line thus
      stay in step. */
  lemma {:induction false} ProjectionFollowsExecution(l: StockOrderRow, code: string, q: Quantity, price: Money, now: int)
    requires Balanced(l)
    requires ApplyExecution(l, q, price, now).result.Ok?
    ensures From(ApplyExecution(l, q, price, now).state, code) == AfterExecution(From(l, code), q)
  {
    var after := ApplyExecution(l, q, price, now).state;
    assert after.executed == l.executed + q && Balanced(after);
    assert after.remained == l.remained - q;
  }
}
