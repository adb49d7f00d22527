/** `Portfolio`: the cash a user holds for trading, split into the cash that is
    free (`availableCash`) and the cash set aside for open buy orders
    (`reservedCash`). */
module Portfolios {
  import opened Values
  import Users

  /** The name of a `PortfolioType` constant. */
  type PortfolioType = string

  /** The type of the portfolio that orders are placed from. */
  const STOCK: PortfolioType := "STOCK"

  datatype PortfolioRow = PortfolioRow(
    id: Id,
    user: Id,
    portfolioType: PortfolioType,
    totalValue: Money,
    available: Money,
    reserved: Money,
    createdAt: int,
    updatedAt: Option<int>)

  /** All the cash of the portfolio, free or reserved. */
  function Cash(p: PortfolioRow): int
  {
    p.available + p.reserved
  }

  /** `Portfolio.createPortfolio`: a new, empty portfolio that is appended to its
      owner's list of portfolios. */
  function CreatePortfolio(id: Id, owner: Users.UserRow, portfolioType: PortfolioType, now: int,
                           updatedAt: Option<int>): (r: (PortfolioRow, Users.UserRow))
    ensures r.0.available == 0 && r.0.reserved == 0 && r.0.totalValue == 0
    ensures r.0.id == id && r.0.user == owner.id && r.0.portfolioType == portfolioType
    ensures r.1.portfolios == owner.portfolios + [id]
    ensures r.1.(portfolios := owner.portfolios) == owner
  {
    (PortfolioRow(id, owner.id, portfolioType, 0, 0, 0, now, updatedAt), Users.AddPortfolio(owner, id))
  }

  /** `deposit` adds to the free cash. */
  function Deposit(p: PortfolioRow, amount: Money): (r: PortfolioRow)
    ensures r.available == p.available + amount
    ensures r.(available := p.available) == p
  {
    p.(available := MoneyPlus(p.available, amount))
  }

  /** `withdraw` takes from the free cash and refuses to overdraw it. */
  function Withdraw(p: PortfolioRow, amount: Money): (r: Effect<PortfolioRow, ()>)
    ensures r.result.Ok? <==> amount <= p.available
    ensures r.result.Ok? ==> r.state.available + amount == p.available
    ensures r.result.Err? ==> r.state == p && r.result.failure == Failure(IllegalArgument, InsufficientBalance)
    ensures r.state.(available := p.available) == p
  {
    match MoneyMinus(p.available, amount)
    case Ok(rest) => Effect(p.(available := rest), Ok(()))
    case Err(f) => Effect(p, Err(f))
  }

  /** `validateSufficientCash`. */
  function ValidateSufficientCash(p: PortfolioRow, amount: Money): (r: Result<()>)
    ensures r.Err? <==> p.available < amount
    ensures r.Err? ==> r.failure == Failure(IllegalArgument, InsufficientPortfolioCash)
  {
    if MoneyIsLowerThan(p.available, amount) then Err(Failure(IllegalArgument, InsufficientPortfolioCash))
    else Ok(())
  }

  /** `buy`: check the free cash, then deduct the total from it. The reserved
      cash is not touched, and the quantity is not checked at all. */
  function Buy(p: PortfolioRow, totalPrice: Money, totalQuantity: Quantity): (r: Effect<PortfolioRow, ()>)
    ensures r.result.Ok? <==> totalPrice <= p.available
    ensures r.result.Ok? ==> r.state.available + totalPrice == p.available
    ensures r.result.Err? ==> r.state == p && r.result.failure == Failure(IllegalArgument, InsufficientPortfolioCash)
    ensures r.state.(available := p.available) == p
  {
    match ValidateSufficientCash(p, totalPrice)
    case Err(f) => Effect(p, Err(f))
    case Ok(_) => Withdraw(p, totalPrice)
  }

  /** `reserveCash`: move the amount from free to reserved cash. */
  function ReserveCash(p: PortfolioRow, amount: Money): (r: Effect<PortfolioRow, ()>)
    ensures r.result.Ok? <==> amount <= p.available
    ensures r.result.Ok? ==> r.state.available + amount == p.available && r.state.reserved == p.reserved + amount
    ensures r.result.Err? ==> r.state == p && r.result.failure == Failure(IllegalArgument, InsufficientPortfolioCash)
    ensures r.state.(available := p.available, reserved := p.reserved) == p
  {
    match ValidateSufficientCash(p, amount)
    case Err(f) => Effect(p, Err(f))
    case Ok(_) =>
      var available := MoneyMinus(p.available, amount).value;
      Effect(p.(available := available, reserved := MoneyPlus(p.reserved, amount)), Ok(()))
  }

  /** `releaseCash`: the free cash is increased first; only then is the reserved
      cash reduced, which fails when less than the amount is reserved. The
      increase stays in place when it fails. */
  function ReleaseCash(p: PortfolioRow, amount: Money): (r: Effect<PortfolioRow, ()>)
    ensures r.state.available == p.available + amount
    ensures r.result.Ok? <==> amount <= p.reserved
    ensures r.result.Ok? ==> r.state.reserved + amount == p.reserved
    ensures r.result.Err? ==> r.state.reserved == p.reserved && r.result.failure == Failure(IllegalArgument, InsufficientBalance)
    ensures r.state.(available := p.available, reserved := p.reserved) == p
  {
    var released := p.(available := MoneyPlus(p.available, amount));
    match MoneyMinus(released.reserved, amount)
    case Ok(rest) => Effect(released.(reserved := rest), Ok(()))
    case Err(f) => Effect(released, Err(f))
  }

  /** `releaseAndDeductCash`: the reserved cash is reduced first, then the free
      cash is reduced by the same amount. When the free cash is short, the
      reduction of the reserved cash stays in place. */
  function ReleaseAndDeductCash(p: PortfolioRow, amount: Money): (r: Effect<PortfolioRow, ()>)
    ensures r.result.Ok? <==> amount <= p.reserved && amount <= p.available
    ensures r.result.Ok? ==> r.state.reserved + amount == p.reserved && r.state.available + amount == p.available
    ensures amount > p.reserved ==> r.state == p
    ensures amount <= p.reserved && amount > p.available ==>
      r.state.reserved + amount == p.reserved && r.state.available == p.available
    ensures r.result.Err? ==> r.result.failure == Failure(IllegalArgument, InsufficientBalance)
    ensures r.state.(available := p.available, reserved := p.reserved) == p
  {
    match MoneyMinus(p.reserved, amount)
    case Err(f) => Effect(p, Err(f))
    case Ok(rest) =>
      var released := p.(reserved := rest);
      match MoneyMinus(released.available, amount)
      case Ok(left) => Effect(released.(available := left), Ok(()))
      case Err(f) => Effect(released, Err(f))
  }

  /** `cancelReservation`: the reserved cash is reduced first, so a failure
      leaves both fields as they were; then the free cash is increased. */
  function CancelReservation(p: PortfolioRow, amount: Money): (r: Effect<PortfolioRow, ()>)
    ensures r.result.Ok? <==> amount <= p.reserved
    ensures r.result.Ok? ==> r.state.reserved + amount == p.reserved && r.state.available == p.available + amount
    ensures r.result.Err? ==> r.state == p && r.result.failure == Failure(IllegalArgument, InsufficientBalance)
    ensures r.state.(available := p.available, reserved := p.reserved) == p
  {
    match MoneyMinus(p.reserved, amount)
    case Err(f) => Effect(p, Err(f))
    case Ok(rest) => Effect(p.(reserved := rest, available := MoneyPlus(p.available, amount)), Ok(()))
  }

  // ---------------------------------------------------------------- lemmas

  /** Reserving keeps the portfolio's cash; so do releasing and cancelling when they succeed. */
  lemma {:induction false} MovesConserveCash(p: PortfolioRow, amount: Money)
    ensures Cash(ReserveCash(p, amount).state) == Cash(p)
    ensures ReleaseCash(p, amount).result.Ok? ==> Cash(ReleaseCash(p, amount).state) == Cash(p)
    ensures CancelReservation(p, amount).result.Ok? ==> Cash(CancelReservation(p, amount).state) == Cash(p)
  {
    var reserved := ReserveCash(p, amount);
    if reserved.result.Ok? {
      assert reserved.state.available + amount == p.available;
      assert reserved.state.reserved == p.reserved + amount;
    }
  }

  /** A successful `releaseCash` and a successful `cancelReservation` have the
      same effect; they differ only in what a failure leaves behind. */
  lemma ReleaseAndCancelAgree(p: PortfolioRow, amount: Money)
    requires amount <= p.reserved
    ensures ReleaseCash(p, amount) == CancelReservation(p, amount)
  {
  }

  /** When more is released than is reserved, `releaseCash` has already raised
      the free cash, while `cancelReservation` has changed nothing. */
  lemma ReleaseWritesBeforeFailing(p: PortfolioRow, amount: Money)
    requires amount > p.reserved
    ensures ReleaseCash(p, amount).result.Err? && ReleaseCash(p, amount).state.available == p.available + amount
    ensures CancelReservation(p, amount) == Effect(p, Err(Failure(IllegalArgument, InsufficientBalance)))
  {
  }

  /** Reserving and then cancelling the same amount restores the portfolio. */
  lemma ReserveThenCancel(p: PortfolioRow, amount: Money)
    requires amount <= p.available
    ensures CancelReservation(ReserveCash(p, amount).state, amount) == Effect(p, Ok(()))
  {
  }

  /** The buy path of settlement: the order reserved `amount` when it was placed,
      and settling it calls `releaseAndDeductCash(amount)`. The reserved cash
      returns to what it was, but the free cash is charged a second time, so
      the portfolio's cash drops by twice the amount; when less than twice the
      amount was free, settlement fails after the reserved cash is reduced. */
  lemma {:induction false} ReserveThenSettleChargesTwice(p: PortfolioRow, amount: Money)
    requires amount <= p.available
    ensures var settled := ReleaseAndDeductCash(ReserveCash(p, amount).state, amount);
      (settled.result.Ok? <==> 2 * amount <= p.available) &&
      (settled.result.Ok? ==> settled.state.reserved == p.reserved && Cash(settled.state) == Cash(p) - 2 * amount) &&
      (settled.result.Err? ==> settled.state.reserved == p.reserved && settled.state.available == p.available - amount)
  {
    var reserved := ReserveCash(p, amount);
    assert reserved.result.Ok?;
    assert reserved.state.available == p.available - amount;
    assert reserved.state.reserved == p.reserved + amount;
  }

  /** `buy` is `withdraw` with its own error message. */
  lemma BuyIsCheckedWithdraw(p: PortfolioRow, totalPrice: Money, totalQuantity: Quantity)
    ensures Buy(p, totalPrice, totalQuantity).state == Withdraw(p, totalPrice).state
    ensures Buy(p, totalPrice, totalQuantity).result.Ok? <==> Withdraw(p, totalPrice).result.Ok?
  {
  }
}
