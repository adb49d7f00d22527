/** `PortfolioStock`: the shares of one stock held in one portfolio, the part
    of them reserved for open sell orders, and their average cost. */
module Holdings {
  import opened Values

  datatype HoldingRow = HoldingRow(
    id: Id,
    portfolio: Id,
    stock: Id,
    quantity: Quantity,
    reserved: Quantity,
    averagePrice: Money,
    lastUpdatedAt: int)

  /** No more shares are reserved than are held. */
  predicate ReservedWithinHeld(h: HoldingRow)
  {
    h.reserved <= h.quantity
  }

  /** `PortfolioStock.createPortfolioStock`: a holding with nothing reserved. */
  function CreatePortfolioStock(id: Id, portfolio: Id, stock: Id, quantity: Quantity, averagePrice: Money, now: int): (r: HoldingRow)
    ensures r.reserved == 0 && ReservedWithinHeld(r)
    ensures r.quantity == quantity && r.averagePrice == averagePrice
    ensures r.portfolio == portfolio && r.stock == stock
  {
    HoldingRow(id, portfolio, stock, quantity, 0, averagePrice, now)
  }

  /** `applyBuy`: first the average cost is recomputed from the quantity held
      before the purchase (a division by zero when both quantities are zero,
      which changes nothing), then the quantity grows. */
  function ApplyBuy(h: HoldingRow, added: Quantity, price: Money, now: int): (r: Effect<HoldingRow, ()>)
    ensures r.result.Err? <==> h.quantity + added == 0
    ensures r.result.Err? ==> r.state == h && r.result.failure == Failure(Arithmetic, DivisionByZero)
    ensures r.result.Ok? ==> r.state.quantity == h.quantity + added && r.state.lastUpdatedAt == now
    ensures r.result.Ok? ==>
      r.state.averagePrice * r.state.quantity <= h.averagePrice * h.quantity + price * added < (r.state.averagePrice + 1) * r.state.quantity
    ensures r.state.(quantity := h.quantity, averagePrice := h.averagePrice, lastUpdatedAt := h.lastUpdatedAt) == h
  {
    match FloorAverage(h.averagePrice, h.quantity, price, added)
    case Err(f) => Effect(h, Err(f))
    case Ok(average) =>
      Effect(h.(averagePrice := average, quantity := QuantityPlus(h.quantity, added), lastUpdatedAt := now), Ok(()))
  }

  /** `decreaseQuantity`: shares leave the holding, and their reservation with
      them. Asking for more than is held fails with nothing changed; asking for
      more than is reserved fails after the held quantity was already reduced.
      On success the result says whether the holding is now empty. */
  function DecreaseQuantity(h: HoldingRow, executed: Quantity, now: int): (r: Effect<HoldingRow, bool>)
    ensures r.result.Ok? <==> executed <= h.quantity && executed <= h.reserved
    ensures executed > h.quantity ==>
      r == Effect(h, Err(Failure(IllegalArgument, DecreaseExceedsHolding)))
    ensures executed <= h.quantity && executed > h.reserved ==>
      r == Effect(h.(quantity := h.quantity - executed), Err(Failure(IllegalArgument, InsufficientRemainder)))
    ensures r.result.Ok? ==>
      r.state.quantity + executed == h.quantity && r.state.reserved + executed == h.reserved &&
      (r.result.value <==> r.state.quantity == 0)
    ensures r.result.Ok? ==> r.state.(quantity := h.quantity, reserved := h.reserved, lastUpdatedAt := h.lastUpdatedAt) == h
  {
    if executed > h.quantity then Effect(h, Err(Failure(IllegalArgument, DecreaseExceedsHolding)))
    else
      var reduced := h.(quantity := QuantityMinus(h.quantity, executed).value);
      match QuantityMinus(reduced.reserved, executed)
      case Err(f) => Effect(reduced, Err(f))
      case Ok(rest) =>
        var updated := reduced.(reserved := rest, lastUpdatedAt := now);
        Effect(updated, Ok(IsZero(updated.quantity)))
  }

  /** `hasNotEnough`: fewer shares are held than asked for. */
  predicate HasNotEnough(h: HoldingRow, q: Quantity)
  {
    QuantityIsLowerThan(h.quantity, q)
  }

  /** `reserve`: set shares aside for a sell order. The free quantity is the held
      quantity minus the reserved one (which itself fails if more is reserved
      than held); a request above it fails, and nothing changes on failure. */
  function Reserve(h: HoldingRow, requested: Quantity, now: int): (r: Effect<HoldingRow, ()>)
    ensures r.result.Ok? <==> h.reserved + requested <= h.quantity
    ensures h.reserved > h.quantity ==> r.result == Err(Failure(IllegalArgument, InsufficientRemainder))
    ensures h.reserved <= h.quantity < h.reserved + requested ==> r.result == Err(Failure(IllegalArgument, NotEnoughToReserve))
    ensures r.result.Err? ==> r.state == h
    ensures r.result.Ok? ==> r.state == h.(reserved := h.reserved + requested, lastUpdatedAt := now)
  {
    match QuantityMinus(h.quantity, h.reserved)
    case Err(f) => Effect(h, Err(f))
    case Ok(free) =>
      if QuantityIsLowerThan(free, requested) then Effect(h, Err(Failure(IllegalArgument, NotEnoughToReserve)))
      else Effect(h.(reserved := QuantityPlus(h.reserved, requested), lastUpdatedAt := now), Ok(()))
  }

  // ---------------------------------------------------------------- lemmas

  /** Every operation that succeeds keeps the reservation within the holding,
      and `reserve` touches neither the held quantity nor the average cost. */
  lemma {:induction false} OperationsKeepReservedWithinHeld(h: HoldingRow, q: Quantity, price: Money, now: int)
    requires ReservedWithinHeld(h)
    ensures ReservedWithinHeld(Reserve(h, q, now).state)
    ensures Reserve(h, q, now).state.quantity == h.quantity && Reserve(h, q, now).state.averagePrice == h.averagePrice
    ensures DecreaseQuantity(h, q, now).result.Ok? ==> ReservedWithinHeld(DecreaseQuantity(h, q, now).state)
    ensures ReservedWithinHeld(ApplyBuy(h, q, price, now).state)
  {
    var d := DecreaseQuantity(h, q, now);
    if d.result.Ok? {
      assert d.state.quantity + q == h.quantity && d.state.reserved + q == h.reserved;
    }
    var b := ApplyBuy(h, q, price, now);
    if b.result.Ok? {
      assert b.state.quantity == h.quantity + q && b.state.reserved == h.reserved;
    }
  }

  /** The sell path: shares reserved when the order was placed are released by
      the execution, so the reservation returns to its old value and the held
      quantity drops by exactly the executed amount. */
  lemma {:induction false} ReserveThenDecrease(h: HoldingRow, q: Quantity, now: int, later: int)
    requires ReservedWithinHeld(h)
    requires h.reserved + q <= h.quantity
    ensures var reserved := Reserve(h, q, now).state;
      var sold := DecreaseQuantity(reserved, q, later);
      sold.result.Ok? && sold.state.reserved == h.reserved && sold.state.quantity + q == h.quantity &&
      (sold.result.value <==> q == h.quantity)
  {
    var reserved := Reserve(h, q, now);
    assert reserved.result.Ok?;
    assert reserved.state.reserved == h.reserved + q && reserved.state.quantity == h.quantity;
  }

  /** The average cost after a purchase lies between the old average and the
      purchase price; the first purchase into an empty holding sets it to the price. */
  lemma {:induction false} ApplyBuyAverageBetween(h: HoldingRow, added: Quantity, price: Money, now: int)
    requires h.quantity + added > 0
    ensures var avg := ApplyBuy(h, added, price, now).state.averagePrice;
      (h.averagePrice <= price ==> h.averagePrice <= avg <= price) &&
      (price <= h.averagePrice ==> price <= avg <= h.averagePrice) &&
      (h.quantity == 0 ==> avg == price)
  {
    AverageBetween(h.averagePrice, h.quantity, price, added);
  }
}
