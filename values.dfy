/** The value types every other component relies on: the non-negative
    `Money` and `Quantity` scalars of the `domain.vo` package, the failures the
    source throws as exceptions, and the result wrappers that carry them. */
module Values {

  /** A database id (a Java `Long` primary key). */
  type Id = int

  datatype Option<+T> = None | Some(value: T)

  /** The Java exception class a failure is thrown as; the settlement code
      decides retryable or not from this class alone. */
  datatype ExceptionClass =
    | IllegalArgument
    | IllegalState
    | Arithmetic
    | AccessDenied
    | DataIntegrityViolation
    | RedisConnection
    | DataAccess
    | NullPointer
    | Runtime
    | NonRetryableMatch           // settlement: a structural problem, do not retry
    | RetryableMatch              // settlement: a passing infrastructure problem

  /** Why an operation failed: one constructor per distinct message of the source. */
  datatype Reason =
    | NegativeAmount              // Money constructor: amount missing or below zero
    | NegativeQuantity            // Quantity constructor: quantity missing or below zero
    | InsufficientBalance         // Money.minus: the subtrahend is larger
    | InsufficientRemainder       // Quantity.minus: the subtrahend is larger
    | InsufficientPortfolioCash   // Portfolio: available cash below the amount
    | DecreaseExceedsHolding      // PortfolioStock.decreaseQuantity: more than is held
    | NotEnoughToReserve          // PortfolioStock.reserve: more than is free
    | NotEnoughMarketStock        // Stock: market quantity below the request
    | DivisionByZero              // a weighted average over a total quantity of zero
    | RequiredAccountField        // Account constructor: user, bank or number missing
    | RequiredUserField           // User constructor: name or login id missing
    | UserRequired                // AccountService: no user
    | BankNameRequired            // AccountService: bank name missing or blank
    | AccountNumberRequired       // AccountService: account number missing or blank
    | DuplicateAccountNumber      // the unique constraint on account numbers
    | AccountNotFound
    | UserNotFound
    | PortfolioNotFound
    | StockNotFound
    | LineNotFound
    | DuplicatePortfolio          // PortfolioService: one portfolio per (user, type)
    | NoHoldingToReserve          // sell submission without a holding
    | NoHoldingToSell             // settlement: the seller holds nothing of the stock
    | LockNotAcquired             // modifyStockOrder: another user holds the lock
    | NotOwner                    // modifyStockOrder: the caller does not own the order
    | NotPending                  // modifyStockOrder: the line is no longer PENDING
    | NullLine                    // OrderValidator: no line
    | MissingQuantity             // OrderValidator: requested quantity missing or zero
    | MissingStock                // OrderValidator, modifyStockOrder: the line's stock is not there
    | InvalidLine                 // OrderPrepareService: no line or no stock
    | UnsupportedOrderType        // OrderPrepareService: neither BUY nor SELL
    | OrderNotFoundAfterRetries   // OrderValidator.findOrderWithRetry
    | QuantityNotPositive         // BuyStockService.validateQuantity
    | PriceNotPositive            // BuyStockService.validatePrice
    | InsufficientUserBalance     // BuyStockService: the user cannot pay
    | DuplicateTrade              // the unique constraint on (buy line, sell line)
    | InfrastructureFailure       // the cache or the database could not be reached

  datatype Failure = Failure(cls: ExceptionClass, reason: Reason)

  datatype Result<+T> = Ok(value: T) | Err(failure: Failure)
  {
    /** Failure propagation: `var x :- r;` stops at the first failure. */
    predicate IsFailure()
    {
      Err?
    }

    function PropagateFailure<U>(): Result<U>
      requires Err?
    {
      Err(failure)
    }

    function Extract(): T
      requires Ok?
    {
      value
    }
  }

  /** What an in-place operation leaves behind: the new state of the object and
      the value returned or the failure thrown. When a failure is thrown after
      some fields were already written, `state` holds those writes. */
  datatype Effect<S, T> = Effect(state: S, result: Result<T>)

  // ---------------------------------------------------------------- Money

  /** `vo.Money`: a non-negative amount in the smallest currency unit. */
  type Money = m: int | m >= 0

  /** The `Money` constructor; `None` stands for a null `Long`. */
  function NewMoney(amount: Option<int>): (r: Result<Money>)
    ensures r.Ok? <==> amount.Some? && amount.value >= 0
    ensures r.Ok? ==> r.value == amount.value
    ensures r.Err? ==> r.failure == Failure(IllegalArgument, NegativeAmount)
  {
    if amount.Some? && amount.value >= 0 then Ok(amount.value)
    else Err(Failure(IllegalArgument, NegativeAmount))
  }

  function MoneyPlus(a: Money, b: Money): Money
  {
    a + b
  }

  /** `Money.minus`: refuses to go below zero. */
  function MoneyMinus(a: Money, b: Money): (r: Result<Money>)
    ensures r.Ok? <==> b <= a
    ensures r.Ok? ==> r.value + b == a
    ensures r.Err? ==> r.failure == Failure(IllegalArgument, InsufficientBalance)
  {
    if MoneyIsLowerThan(a, b) then Err(Failure(IllegalArgument, InsufficientBalance))
    else Ok(a - b)
  }

  predicate MoneyIsLowerThan(a: Money, b: Money)
  {
    a < b
  }

  predicate MoneyIsHigherThan(a: Money, b: Money)
  {
    a > b
  }

  /** `Money.multiply(Quantity)`: price times quantity. */
  function Multiply(price: Money, quantity: Quantity): Money
  {
    price * quantity
  }

  /** `Long.compareTo`, which returns exactly -1, 0 or 1. */
  function Compare(a: int, b: int): (r: int)
    ensures r == -1 || r == 0 || r == 1
    ensures r < 0 <==> a < b
    ensures r == 0 <==> a == b
    ensures r > 0 <==> a > b
  {
    if a < b then -1 else if a == b then 0 else 1
  }

  // ------------------------------------------------------------- Quantity

  /** `vo.Quantity`: a non-negative number of shares. */
  type Quantity = q: int | q >= 0

  /** The `Quantity` constructor; `None` stands for a null `Long`. */
  function NewQuantity(quantity: Option<int>): (r: Result<Quantity>)
    ensures r.Ok? <==> quantity.Some? && quantity.value >= 0
    ensures r.Ok? ==> r.value == quantity.value
    ensures r.Err? ==> r.failure == Failure(IllegalArgument, NegativeQuantity)
  {
    if quantity.Some? && quantity.value >= 0 then Ok(quantity.value)
    else Err(Failure(IllegalArgument, NegativeQuantity))
  }

  function QuantityPlus(a: Quantity, b: Quantity): Quantity
  {
    a + b
  }

  /** `Quantity.minus`: refuses to go below zero. */
  function QuantityMinus(a: Quantity, b: Quantity): (r: Result<Quantity>)
    ensures r.Ok? <==> b <= a
    ensures r.Ok? ==> r.value + b == a
    ensures r.Err? ==> r.failure == Failure(IllegalArgument, InsufficientRemainder)
  {
    if QuantityIsLowerThan(a, b) then Err(Failure(IllegalArgument, InsufficientRemainder))
    else Ok(a - b)
  }

  /** Written in the source as a sign test on the difference. */
  predicate QuantityIsLowerThan(a: Quantity, b: Quantity)
  {
    a - b < 0
  }

  predicate IsZero(q: Quantity)
  {
    q == 0
  }

  // ---------------------------------------------------- weighted average

  /** The running average used by `PortfolioStock.updateAveragePrice` and
      `StockOrder.calculateWeightedAverage`: the old total plus the new total,
      divided by the new quantity, rounded down. A total quantity of zero is a
      division by zero. */
  function FloorAverage(oldAverage: Money, oldQuantity: Quantity, price: Money, added: Quantity): (r: Result<Money>)
    ensures r.Err? <==> oldQuantity + added == 0
    ensures r.Err? ==> r.failure == Failure(Arithmetic, DivisionByZero)
    ensures r.Ok? ==>
      r.value * (oldQuantity + added) <= oldAverage * oldQuantity + price * added < (r.value + 1) * (oldQuantity + added)
  {
    var total := oldQuantity + added;
    if total == 0 then Err(Failure(Arithmetic, DivisionByZero))
    else
      var sum := oldAverage * oldQuantity + price * added;
      FloorDivBounds(sum, total);
      Ok(sum / total)
  }

  lemma FloorDivBounds(n: nat, d: int)
    requires d > 0
    ensures (n / d) * d <= n < (n / d + 1) * d
  {
  }

  // ---------------------------------------------------------------- lemmas

  /** `x.plus(y).minus(y)` gives back `x`, for both scalars. */
  lemma PlusThenMinus(x: int, y: int)
    requires x >= 0 && y >= 0
    ensures MoneyMinus(MoneyPlus(x, y), y) == Ok(x)
    ensures QuantityMinus(QuantityPlus(x, y), y) == Ok(x)
  {
  }

  /** Exactly one of lower, higher and equal holds, and it agrees with `Compare`. */
  lemma MoneyOrderIsTotal(a: Money, b: Money)
    ensures MoneyIsLowerThan(a, b) <==> Compare(a, b) < 0
    ensures MoneyIsHigherThan(a, b) <==> Compare(a, b) > 0
    ensures !MoneyIsLowerThan(a, b) && !MoneyIsHigherThan(a, b) <==> a == b
    ensures MoneyIsLowerThan(a, b) <==> MoneyIsHigherThan(b, a)
  {
  }

  /** Executing in two parts costs the same as executing at once. */
  lemma MultiplySplits(price: Money, q1: Quantity, q2: Quantity)
    ensures Multiply(price, QuantityPlus(q1, q2)) == MoneyPlus(Multiply(price, q1), Multiply(price, q2))
  {
  }

  /** The new average lies between the old average and the new price, and
      a first acquisition simply takes the price. */
  lemma {:induction false} AverageBetween(oldAverage: Money, oldQuantity: Quantity, price: Money, added: Quantity)
    requires oldQuantity + added > 0
    ensures FloorAverage(oldAverage, oldQuantity, price, added).Ok?
    ensures oldQuantity == 0 ==> FloorAverage(oldAverage, oldQuantity, price, added).value == price
    ensures added == 0 ==> FloorAverage(oldAverage, oldQuantity, price, added).value == oldAverage
    ensures var avg := FloorAverage(oldAverage, oldQuantity, price, added).value;
      (oldAverage <= price ==> oldAverage <= avg <= price) && (price <= oldAverage ==> price <= avg <= oldAverage)
  {
    var total := oldQuantity + added;
    var sum := oldAverage * oldQuantity + price * added;
    assert FloorAverage(oldAverage, oldQuantity, price, added).value == sum / total;
    var lo := if oldAverage <= price then oldAverage else price;
    var hi := if oldAverage <= price then price else oldAverage;
    WeightedBetween(lo, hi, oldAverage, oldQuantity, price, added);
    FloorBetween(sum, total, lo, hi);
  }

  /** A weighted sum of two values in `[lo, hi]` lies between `lo` and `hi`
      times the total weight. */
  lemma WeightedBetween(lo: int, hi: int, x: int, wx: nat, y: int, wy: nat)
    requires lo <= x <= hi && lo <= y <= hi
    ensures lo * (wx + wy) <= x * wx + y * wy <= hi * (wx + wy)
  {
    MultiplyMonotone(lo, x, wx);
    MultiplyMonotone(x, hi, wx);
    MultiplyMonotone(lo, y, wy);
    MultiplyMonotone(y, hi, wy);
    assert lo * (wx + wy) == lo * wx + lo * wy;
    assert hi * (wx + wy) == hi * wx + hi * wy;
  }

  /** Floor division keeps a quotient that is bounded by `lo` and `hi`. */
  lemma FloorBetween(sum: nat, total: int, lo: int, hi: int)
    requires total > 0 && lo * total <= sum <= hi * total
    ensures lo <= sum / total <= hi
  {
    var avg := sum / total;
    FloorDivBounds(sum, total);
    if avg < lo {
      MultiplyMonotone(avg + 1, lo, total);
    }
    if avg > hi {
      MultiplyMonotone(hi + 1, avg, total);
    }
  }

  lemma MultiplyMonotone(a: int, b: int, c: nat)
    requires a <= b
    ensures a * c <= b * c
  {
  }
}
