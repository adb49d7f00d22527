/** `Stock`: a listed stock with the quantity still available on the market. */
module Stocks {
  import opened Values

  datatype StockRow = StockRow(id: Id, price: Money, name: string, code: string, available: Quantity)

  /** `hasLowerQuantityThan`: the market holds fewer shares than desired. */
  predicate HasLowerQuantityThan(s: StockRow, desired: Quantity)
  {
    QuantityIsLowerThan(s.available, desired)
  }

  /** `validateSufficientQuantity` fails exactly when the market is short. */
  function ValidateSufficientQuantity(s: StockRow, desired: Quantity): (r: Result<()>)
    ensures r.Err? <==> s.available < desired
    ensures r.Err? ==> r.failure == Failure(IllegalArgument, NotEnoughMarketStock)
  {
    if HasLowerQuantityThan(s, desired) then Err(Failure(IllegalArgument, NotEnoughMarketStock)) else Ok(())
  }

  /** `assertReservable` delegates to the same check. */
  function AssertReservable(s: StockRow, desired: Quantity): (r: Result<()>)
    ensures r.Err? <==> s.available < desired
    ensures r.Err? ==> r.failure == Failure(IllegalArgument, NotEnoughMarketStock)
  {
    ValidateSufficientQuantity(s, desired)
  }

  /** `decreaseAvailableQuantity` never takes the market quantity below zero. */
  function DecreaseAvailableQuantity(s: StockRow, executed: Quantity): (r: Effect<StockRow, ()>)
    ensures r.result.Ok? <==> executed <= s.available
    ensures r.result.Ok? ==> r.state.available + executed == s.available
    ensures r.result.Err? ==> r.state == s && r.result.failure == Failure(IllegalArgument, InsufficientRemainder)
    ensures r.state.(available := s.available) == s
  {
    match QuantityMinus(s.available, executed)
    case Ok(rest) => Effect(s.(available := rest), Ok(()))
    case Err(f) => Effect(s, Err(f))
  }

  /** A successful validation guarantees that the decrease that follows succeeds. */
  lemma ValidatedDecreaseSucceeds(s: StockRow, q: Quantity)
    requires ValidateSufficientQuantity(s, q).Ok?
    ensures DecreaseAvailableQuantity(s, q).result.Ok?
  {
  }
}
