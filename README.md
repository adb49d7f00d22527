# Stock simulator core in Dafny

This project models the core of a stock trading simulator written in Java
with Spring. Users hold brokerage accounts and investment portfolios. A
portfolio holds cash (free and reserved) and holdings of stocks. An order
for a stock is placed from the user's STOCK portfolio:

- a buy reserves the cash for it;
- a sell reserves the shares;
- the order's line (a `StockOrder`) is listed in a Redis sorted set per stock
  and side, the order book.

The matcher pops the best bid and the best ask of a stock. When the prices
cross, it settles the pair:

- the buyer pays and receives the shares;
- the seller is paid and gives the shares up;
- both lines record the execution;
- the parent orders re-aggregate their status;
- a trade row is stored and an event is published.

## How the Java code is represented

- **Value objects.** `Money` and `Quantity` (`domain/vo`) are subset types
  of `int` that are never negative. Their constructors and `minus` return a
  `Result`, whose error carries the exception class and the reason. The
  older `domain/Money` class is a separate datatype, proved to agree with the
  value-object version (`LegacyMoney.AgreesWithValueMoney`). `AccountService`
  builds amounts with the older class, but hands them to `Account.withdraw`
  and `deposit`, which take the value-object `Money`. The model therefore
  uses the value-object `Money` throughout that service.
- **Entities.** Each entity is a row datatype with one function per entity
  method (modules `Portfolios`, `Holdings`, `StockOrders`, `Orders`,
  `Trades`, `Stocks`, `Accounts`, `Users`).
  - A method that writes a field and then throws returns an `Effect(state,
    result)`. The partial write is therefore visible to the caller, as in the
    Java object. Examples: `releaseCash`, `releaseAndDeductCash`,
    `decreaseQuantity`, `applyExecution`.
  - Module `Domain` gives each entity its in-place form: a class whose
    methods update the fields and are proved equal to those functions.
- **Repositories.** The repositories are maps in one `Tables` value
  (module `Ledger`), together with:
  - an id sequence;
  - the events published to Kafka, kept as an outbox sequence;
  - the users' cash balances, which the services read and write through
    `User` methods that `User.java` does not define.
- **Transactions.** A `@Transactional` service method is a function from
  `Tables` to `Result<Tables>`. A failure yields no tables at all, which is
  the rollback. `TradeExecution.MatchSinglePair`, `TradeMatching.Match` and
  `OrderModification.ModifyStockOrder` are methods on a `Database` object
  and the `RedisBook`, because they interleave database and cache writes.
  Their contracts say which writes survive a failure: the database rolls
  back, while the cache keeps what was popped, pushed or removed.
  `modifyStockOrder` declares no transaction of its own, but its locking
  query and its save need one; the model gives it the all-or-nothing
  database behaviour of a transaction supplied by its caller.
- **Order book.** The Redis sorted set is a map from entry to score.
  - The buy score is `-price * 1_000_000_000 - createdAt`.
  - The sell score is `price * 1_000_000_000 + createdAt`.
  - Both are computed on unbounded integers, with creation times as epoch
    milliseconds.
- **Parameters.** Clocks, the outcome of a Redisson `tryLock` and the
  repository's answers during retries are parameters.

`RedisStockOrderService` as shipped does not define six methods that its
callers use:

- `popMatchPair` and `pushBack`, called at `TradeService.java:54-63`;
- `pushBuyOrderDTO` and `pushSellOrderDTO`, called at
  `TradeService.java:101-107`;
- `removeBuyOrder` and `removeSellOrder`, called at
  `StockOrderService.java:119-126`.

They are modelled from those call sites, on top of the ZADD and ZREM that
the defined methods use. Likewise:

- `Order.createSingleOrder` and `aggregateStatusFromChildren` are called but
  not defined in `Order.java`;
- `User.getDefaultPortfolio`, `isBalanceInsufficient`, `withdraw` and
  `deposit` are called but not defined in `User.java`;
- `Order.createBuyOrder(user, totalPrice)` is called at
  `BuyStockService.java:67`, but `Order.java` defines only a four-argument
  `createBuyOrder`;
- `StockOrder.create(order, stock, quantity, price)` is called at
  `BuyStockService.java:70`, but `StockOrder.java` defines only
  `createStockOrder`, which takes a portfolio and no order.

Their models follow the call sites. For the last two, `PlaceBuyOrder`
takes the arguments at face value: the order gets no lines, and the line
points to the order but names no portfolio, since none is passed. The aggregation follows the rule
written out at the head of `StockOrderStatus.java`; combinations that rule
leaves open (a partially filled or expired line, or pending lines mixed
with finished ones) give PROCESSING.

Where the code and its comments disagree, the model follows the code. The
proved lemmas show the consequences:

- **Double charge on a buy.** Placing a buy already moves the total from
  free to reserved cash (`reserveCash`). `TradeExecutionService` then settles
  it with `releaseAndDeductCash`, which takes the amount from the reserved
  cash AND from the free cash again (`Portfolios.ReserveThenSettleChargesTwice`,
  `TradeExecution.CashChangesHands`). The older `TradeService` does not charge
  the buyer at all (`TradeMatching.OnlySellerCashMoves`).
- **Trade check after the updates.** The idempotency check for an
  existing trade runs after money, shares and lines have moved. A replayed
  pair is settled again and only the trade row is skipped
  (`TradeExecution.ReplayedPairSettlesAgain`). `TradeService` has no check
  at all, so the same pair twice breaks the unique constraint
  (`TradeMatching.SamePairTwiceFails`).
- **Buy side pops the lowest bid.** The buy side takes the member with the
  highest score, and under the buy score that is the lowest bid
  (`OrderBook.BestBuyIsLowestBid`). Time outweighs price once two entries
  are `1_000_000_000` ms apart (`OrderBook.TimeOutweighsPriceOutsideWindow`).
- **Modification.** A modification withdraws the old line from the book
  before it builds the new quantity and price. An invalid quantity leaves
  the line PENDING in the database but gone from the book
  (`OrderModification.InvalidModificationStrandsLine`). A modification
  neither releases the old reservation nor makes a new one
  (`OrderModification.ModifyReservesNothing`).
- **`BuyStockService`.** Following from the bodies assumed above for the
  two undefined factories, this service saves a line without a portfolio.
  The fetch with all relations never finds such a line, so it can never be
  settled (`BuySubmission.BuyServiceLineCannotSettle`).
- **Zero-quantity orders.** Placement accepts an order for zero shares,
  which `OrderValidator` rejects afterwards
  (`OrderValidation.ZeroQuantityPassesPlacementNotValidation`).

Several names in the Java source refer to methods under other names. The
model uses the names in the right-hand column; all of them are defined in
the source except `createSingleOrder`, which is itself only called:

| called as | modelled by |
|---|---|
| `StockOrder.updateQuantity` | `applyExecution` |
| `PortfolioStock.addQuantity` | `applyBuy` |
| `Portfolio.reserveAndDeductCash` | `reserveCash` |
| `Order.createSingleBuyOrder` | `createSingleOrder` |

`PortfolioService` calls a two-argument `createPortfolio`, which is modelled
with no update time.

## Model

| member | source | states |
|---|---|---|
| Values.NewMoney | src/main/java/com/portfolio2025/first/domain/vo/Money.java:26-31 | Money is built exactly from a present, non-negative amount; otherwise an illegal-argument failure |
| Values.MoneyMinus | src/main/java/com/portfolio2025/first/domain/vo/Money.java:38-45 | subtraction succeeds iff the subtrahend is not larger, and then adding it back gives the minuend |
| Values.Compare | src/main/java/com/portfolio2025/first/domain/vo/Money.java:65-67 | the comparison is -1, 0 or 1 and its sign agrees with less, equal and greater |
| Values.NewQuantity | src/main/java/com/portfolio2025/first/domain/vo/Quantity.java:26-31 | a quantity is built exactly from a present, non-negative count; otherwise an illegal-argument failure |
| Values.QuantityMinus | src/main/java/com/portfolio2025/first/domain/vo/Quantity.java:38-46 | subtraction succeeds iff the result stays non-negative, and then it is the exact difference |
| Values.FloorAverage | src/main/java/com/portfolio2025/first/domain/PortfolioStock.java:92-101 | the running average is the floor of the weighted total over the new quantity; a zero total quantity is a division-by-zero failure |
| Values.PlusThenMinus | src/main/java/com/portfolio2025/first/domain/vo/Money.java:33-45 | plus followed by minus of the same value gives back the original, for money and quantity |
| Values.MoneyOrderIsTotal | src/main/java/com/portfolio2025/first/domain/vo/Money.java:53-67 | exactly one of lower, higher and equal holds; each agrees with compareTo, and lower is higher with the arguments swapped |
| Values.MultiplySplits | src/main/java/com/portfolio2025/first/domain/vo/Money.java:61-63 | price times a sum of quantities is the sum of the two costs |
| Values.AverageBetween | src/main/java/com/portfolio2025/first/domain/PortfolioStock.java:92-101 | the new average lies between the old average and the new price; a first purchase takes the price, and adding nothing keeps the average |
| LegacyMoney.New | src/main/java/com/portfolio2025/first/domain/Money.java:15-20 | the older money class accepts exactly present, non-negative amounts |
| LegacyMoney.Minus | src/main/java/com/portfolio2025/first/domain/Money.java:26-31 | subtraction fails with insufficient balance exactly when the amount is lower, and otherwise is undone by plus |
| LegacyMoney.EqualsIsValueEquality | src/main/java/com/portfolio2025/first/domain/Money.java:42-52 | equals holds iff the two values are the same, iff neither is lower nor higher |
| LegacyMoney.AgreesWithValueMoney | src/main/java/com/portfolio2025/first/domain/Money.java:22-39 | plus, minus and both comparisons of the older class agree with the value-object Money |
| Statuses.RuleFor | src/main/java/com/portfolio2025/first/domain/stock/StockOrderStatus.java:3-12 | the order status for a set of line statuses: CREATED iff only pending, COMPLETED iff some filled and only filled or cancelled, CANCELED iff only cancelled, PROCESSING otherwise |
| Statuses.Aggregate | src/main/java/com/portfolio2025/first/domain/stock/StockOrderStatus.java:3-12 | the same rule stated over the list of line statuses, each outcome as an if-and-only-if |
| Statuses.AggregateIgnoresOrder | src/main/java/com/portfolio2025/first/domain/stock/StockOrderStatus.java:3-12 | two lists in which the same statuses occur aggregate alike, whatever their order and however many lines share a status |
| Statuses.CompletedHasNoOpenLine | src/main/java/com/portfolio2025/first/domain/stock/StockOrderStatus.java:3-12 | a COMPLETED order has no pending and no partially filled line |
| Portfolios.CreatePortfolio | src/main/java/com/portfolio2025/first/domain/Portfolio.java:92-102 | a new portfolio is empty, belongs to its owner with the given type, and the owner's list gains exactly its id |
| Portfolios.Deposit | src/main/java/com/portfolio2025/first/domain/Portfolio.java:104-106 | free cash grows by the amount and nothing else changes |
| Portfolios.Withdraw | src/main/java/com/portfolio2025/first/domain/Portfolio.java:108-110 | succeeds iff the free cash covers the amount, then reduces it by exactly that; a failure changes nothing |
| Portfolios.ValidateSufficientCash | src/main/java/com/portfolio2025/first/domain/Portfolio.java:127-131 | fails exactly when the free cash is below the amount |
| Portfolios.Buy | src/main/java/com/portfolio2025/first/domain/Portfolio.java:114-121 | succeeds iff the free cash covers the total, which it then deducts; reserved cash is untouched |
| Portfolios.ReserveCash | src/main/java/com/portfolio2025/first/domain/Portfolio.java:137-141 | succeeds iff the free cash covers the amount, which then moves from free to reserved; a failure changes nothing |
| Portfolios.ReleaseCash | src/main/java/com/portfolio2025/first/domain/Portfolio.java:143-146 | free cash always grows by the amount; reserved shrinks by it iff enough is reserved, otherwise it fails with the increase kept |
| Portfolios.ReleaseAndDeductCash | src/main/java/com/portfolio2025/first/domain/Portfolio.java:148-152 | succeeds iff both reserved and free cash cover the amount and takes it from both; short free cash fails after the reserved cash was reduced |
| Portfolios.CancelReservation | src/main/java/com/portfolio2025/first/domain/Portfolio.java:155-158 | succeeds iff enough is reserved and then moves the amount back to free cash; a failure changes nothing |
| Portfolios.MovesConserveCash | src/main/java/com/portfolio2025/first/domain/Portfolio.java:137-158 | reserving, and successful releasing or cancelling, keep free plus reserved cash constant |
| Portfolios.ReleaseAndCancelAgree | src/main/java/com/portfolio2025/first/domain/Portfolio.java:143-158 | when enough is reserved, releaseCash and cancelReservation have the same effect |
| Portfolios.ReleaseWritesBeforeFailing | src/main/java/com/portfolio2025/first/domain/Portfolio.java:143-146 | releasing more than is reserved fails with free cash already raised, whereas cancelReservation fails with nothing changed |
| Portfolios.ReserveThenCancel | src/main/java/com/portfolio2025/first/domain/Portfolio.java:137-158 | reserving then cancelling the same amount restores the portfolio |
| Portfolios.ReserveThenSettleChargesTwice | src/main/java/com/portfolio2025/first/domain/Portfolio.java:137-152 | reserve followed by releaseAndDeductCash of the same amount succeeds iff free cash covers twice the amount and then lowers total cash by twice the amount |
| Portfolios.BuyIsCheckedWithdraw | src/main/java/com/portfolio2025/first/domain/Portfolio.java:108-121 | buy leaves the same state as withdraw and succeeds in the same cases |
| Holdings.CreatePortfolioStock | src/main/java/com/portfolio2025/first/domain/PortfolioStock.java:75-84 | a new holding has the given quantity and price and nothing reserved |
| Holdings.ApplyBuy | src/main/java/com/portfolio2025/first/domain/PortfolioStock.java:86-101 | the quantity grows by the purchase and the average is the floored weighted average; both quantities zero is a division by zero that changes nothing |
| Holdings.DecreaseQuantity | src/main/java/com/portfolio2025/first/domain/PortfolioStock.java:103-113 | succeeds iff both held and reserved cover the amount and reduces both, reporting whether the holding is empty; too few reserved fails after the held quantity was reduced |
| Holdings.Reserve | src/main/java/com/portfolio2025/first/domain/PortfolioStock.java:120-134 | succeeds iff reserved plus requested stays within held, then raises the reservation only; every failure changes nothing |
| Holdings.OperationsKeepReservedWithinHeld | src/main/java/com/portfolio2025/first/domain/PortfolioStock.java:86-134 | reserve, a successful decrease and applyBuy keep reserved shares within held shares |
| Holdings.ReserveThenDecrease | src/main/java/com/portfolio2025/first/domain/PortfolioStock.java:103-134 | reserving and then selling the same quantity succeeds, restores the reservation and lowers the holding by that quantity |
| Holdings.ApplyBuyAverageBetween | src/main/java/com/portfolio2025/first/domain/PortfolioStock.java:92-101 | the average after a purchase lies between the old average and the price; a first purchase takes the price |
| StockOrders.CreateStockOrder | src/main/java/com/portfolio2025/first/domain/stock/StockOrder.java:98-121 | a new line is PENDING and balanced, with nothing executed and the whole quantity open |
| StockOrders.SetOrder | src/main/java/com/portfolio2025/first/domain/stock/StockOrder.java:124-126 | the line is attached to the order and nothing else changes |
| StockOrders.UpdateStatus | src/main/java/com/portfolio2025/first/domain/stock/StockOrder.java:129-132 | any status can be set from any status, and only status and update time change |
| StockOrders.CalculateWeightedAverage | src/main/java/com/portfolio2025/first/domain/stock/StockOrder.java:148-158 | the new average is the floor of (previous average × executed + price × quantity) over the new executed total, with a missing average counted as zero; fails iff that total is zero; a first execution averages to its price |
| StockOrders.ApplyExecution | src/main/java/com/portfolio2025/first/domain/stock/StockOrder.java:135-145 | succeeds iff the executed total stays positive and within the requested quantity; the line is then balanced, FILLED iff nothing remains open, and carries the weighted average price and the update time; over-execution fails with the executed quantity already advanced and the average untouched |
| StockOrders.UpdateStockOrderStatus | src/main/java/com/portfolio2025/first/domain/stock/StockOrder.java:161-165 | the status becomes FILLED iff nothing remains open and PARTIALLY_FILLED otherwise |
| StockOrders.ExecutionsAccumulate | src/main/java/com/portfolio2025/first/domain/stock/StockOrder.java:135-145 | two executions in a row leave the same quantities and status as one execution of their sum |
| StockOrders.OverExecutionBreaksBalance | src/main/java/com/portfolio2025/first/domain/stock/StockOrder.java:135-145 | executing more than is open fails and leaves the line unbalanced |
| StockOrders.ExecutingTheRemainderFills | src/main/java/com/portfolio2025/first/domain/stock/StockOrder.java:135-165 | executing exactly the open quantity of a balanced line succeeds and fills it |
| Orders.NewOrder | src/main/java/com/portfolio2025/first/domain/Order.java:72-81 | a new order is CREATED, not deleted, with no lines |
| Orders.CreateBuyOrder | src/main/java/com/portfolio2025/first/domain/Order.java:83-94 | the order is CREATED and the line it is given is not attached to it |
| Orders.CreateSingleOrder | src/main/java/com/portfolio2025/first/service/BuyOrderProcessor.java:38-42 | the order is CREATED and holds exactly the one given line |
| Orders.UpdateStatus | src/main/java/com/portfolio2025/first/domain/Order.java:111-114 | only the status and the update time change |
| Orders.AggregateStatusFromChildren | src/main/java/com/portfolio2025/first/service/TradeExecutionService.java:100-102 | the order takes exactly the aggregation rule's status for its lines and the update time, nothing else changes: CREATED iff every line is pending, CANCELED iff every line of a non-empty order is cancelled, COMPLETED iff the lines are filled or cancelled with at least one filled |
| Orders.AggregationIgnoresLineOrder | src/main/java/com/portfolio2025/first/service/TradeExecutionService.java:100-102 | lists of line statuses that differ only in order give the same order |
| Trades.CreateTrade | src/main/java/com/portfolio2025/first/domain/Trade.java:79-93 | the trade's amount is price times quantity and its update time starts at the trade time |
| Trades.OnCreate | src/main/java/com/portfolio2025/first/domain/Trade.java:95-99 | saving stamps the creation time and overwrites the trade time with it |
| Trades.OnUpdate | src/main/java/com/portfolio2025/first/domain/Trade.java:101-104 | an update changes only the update time |
| Trades.SavedTradeTimeIsSavingTime | src/main/java/com/portfolio2025/first/domain/Trade.java:79-99 | a saved trade's time is the saving time, whatever time it was created with |
| Stocks.ValidateSufficientQuantity | src/main/java/com/portfolio2025/first/domain/stock/Stock.java:90-98 | fails exactly when the market holds fewer shares than desired |
| Stocks.AssertReservable | src/main/java/com/portfolio2025/first/domain/stock/Stock.java:100-102 | fails exactly when the market holds fewer shares than desired |
| Stocks.DecreaseAvailableQuantity | src/main/java/com/portfolio2025/first/domain/stock/Stock.java:104-106 | succeeds iff the market holds the amount, which it then removes; a failure changes nothing |
| Stocks.ValidatedDecreaseSucceeds | src/main/java/com/portfolio2025/first/domain/stock/Stock.java:94-106 | after a successful validation the decrease succeeds |
| Accounts.CreateAccount | src/main/java/com/portfolio2025/first/domain/Account.java:56-79 | an account is created iff user, bank name and number are present, and opens active with ten million |
| Accounts.Withdraw | src/main/java/com/portfolio2025/first/domain/Account.java:81-83 | succeeds iff the balance covers the amount, which it then removes; a failure changes nothing |
| Accounts.Deposit | src/main/java/com/portfolio2025/first/domain/Account.java:85-87 | the balance grows by exactly the amount |
| Accounts.DepositThenWithdraw | src/main/java/com/portfolio2025/first/domain/Account.java:81-87 | depositing and withdrawing the same amount restores the account |
| Users.CreateUser | src/main/java/com/portfolio2025/first/domain/User.java:52-74 | a user is created iff name and login id are present, and owns no portfolio |
| Users.UpdateContact | src/main/java/com/portfolio2025/first/domain/User.java:76-80 | phone and e-mail are replaced and nothing else but the update time |
| Users.UpdateLocation | src/main/java/com/portfolio2025/first/domain/User.java:82-85 | the location is replaced and nothing else but the update time |
| Users.AddPortfolio | src/main/java/com/portfolio2025/first/domain/User.java:88-90 | the list of portfolios gains exactly the one id at its end |
| Users.UpdatesCommute | src/main/java/com/portfolio2025/first/domain/User.java:76-85 | the two updates touch disjoint fields and commute |
| Users.DepositBalance | src/main/java/com/portfolio2025/first/service/AccountService.java:55-58 | the user's balance grows by exactly the amount |
| Users.WithdrawBalance | src/main/java/com/portfolio2025/first/service/BuyStockService.java:55-64 | succeeds iff the balance is not insufficient for the amount, and then reduces it by exactly that |
| Domain.User.constructor | src/main/java/com/portfolio2025/first/domain/User.java:52-64 | the new user object holds the row createUser builds |
| Domain.User.UpdateContact | src/main/java/com/portfolio2025/first/domain/User.java:76-80 | the object's new state is the updated contact row |
| Domain.User.UpdateLocation | src/main/java/com/portfolio2025/first/domain/User.java:82-85 | the object's new state is the updated location row |
| Domain.User.AddPortfolio | src/main/java/com/portfolio2025/first/domain/User.java:88-90 | the object's list of portfolios gains the one id |
| Domain.Account.constructor | src/main/java/com/portfolio2025/first/domain/Account.java:56-70 | the new account object holds the row createAccount builds |
| Domain.Account.Withdraw | src/main/java/com/portfolio2025/first/domain/Account.java:81-83 | new state and outcome are those of Accounts.Withdraw |
| Domain.Account.Deposit | src/main/java/com/portfolio2025/first/domain/Account.java:85-87 | the new state is that of Accounts.Deposit |
| Domain.Stock.constructor | src/main/java/com/portfolio2025/first/domain/stock/Stock.java:79-88 | the new stock object holds the given fields |
| Domain.Stock.DecreaseAvailableQuantity | src/main/java/com/portfolio2025/first/domain/stock/Stock.java:104-106 | new state and outcome are those of Stocks.DecreaseAvailableQuantity |
| Domain.Portfolio.CreatePortfolio | src/main/java/com/portfolio2025/first/domain/Portfolio.java:92-102 | the new portfolio and its owner's new state are those of Portfolios.CreatePortfolio |
| Domain.Portfolio.Deposit | src/main/java/com/portfolio2025/first/domain/Portfolio.java:104-106 | the new state is that of Portfolios.Deposit |
| Domain.Portfolio.Withdraw | src/main/java/com/portfolio2025/first/domain/Portfolio.java:108-110 | new state and outcome are those of Portfolios.Withdraw |
| Domain.Portfolio.Buy | src/main/java/com/portfolio2025/first/domain/Portfolio.java:114-121 | new state and outcome are those of Portfolios.Buy |
| Domain.Portfolio.ReserveCash | src/main/java/com/portfolio2025/first/domain/Portfolio.java:137-141 | new state and outcome are those of Portfolios.ReserveCash |
| Domain.Portfolio.ReleaseCash | src/main/java/com/portfolio2025/first/domain/Portfolio.java:143-146 | new state and outcome, including the write kept on failure, are those of Portfolios.ReleaseCash |
| Domain.Portfolio.ReleaseAndDeductCash | src/main/java/com/portfolio2025/first/domain/Portfolio.java:148-152 | new state and outcome, including the write kept on failure, are those of Portfolios.ReleaseAndDeductCash |
| Domain.Portfolio.CancelReservation | src/main/java/com/portfolio2025/first/domain/Portfolio.java:155-158 | new state and outcome are those of Portfolios.CancelReservation |
| Domain.PortfolioStock.CreatePortfolioStock | src/main/java/com/portfolio2025/first/domain/PortfolioStock.java:75-84 | the new holding object holds the row createPortfolioStock builds |
| Domain.PortfolioStock.ApplyBuy | src/main/java/com/portfolio2025/first/domain/PortfolioStock.java:86-101 | new state and outcome are those of Holdings.ApplyBuy |
| Domain.PortfolioStock.DecreaseQuantity | src/main/java/com/portfolio2025/first/domain/PortfolioStock.java:103-113 | new state and outcome, including the write kept on failure, are those of Holdings.DecreaseQuantity |
| Domain.PortfolioStock.Reserve | src/main/java/com/portfolio2025/first/domain/PortfolioStock.java:120-134 | new state and outcome are those of Holdings.Reserve |
| Domain.StockOrder.CreateStockOrder | src/main/java/com/portfolio2025/first/domain/stock/StockOrder.java:98-121 | the new line object holds the row createStockOrder builds |
| Domain.StockOrder.SetOrder | src/main/java/com/portfolio2025/first/domain/stock/StockOrder.java:124-126 | the new state is that of StockOrders.SetOrder |
| Domain.StockOrder.UpdateStatus | src/main/java/com/portfolio2025/first/domain/stock/StockOrder.java:129-132 | the new state is that of StockOrders.UpdateStatus |
| Domain.StockOrder.ApplyExecution | src/main/java/com/portfolio2025/first/domain/stock/StockOrder.java:135-145 | new state and outcome, including the write kept on failure, are those of StockOrders.ApplyExecution |
| Domain.StockOrder.UpdateStockOrderStatus | src/main/java/com/portfolio2025/first/domain/stock/StockOrder.java:161-165 | the new state is that of StockOrders.UpdateStockOrderStatus |
| Domain.Order.CreateBuyOrder | src/main/java/com/portfolio2025/first/domain/Order.java:83-94 | the new order object holds the row createBuyOrder builds |
| Domain.Order.UpdateStatus | src/main/java/com/portfolio2025/first/domain/Order.java:111-114 | the new state is that of Orders.UpdateStatus |
| Domain.Order.AggregateStatusFromChildren | src/main/java/com/portfolio2025/first/service/TradeExecutionService.java:100-102 | the new state is that of Orders.AggregateStatusFromChildren |
| BookEntries.From | src/main/java/com/portfolio2025/first/dto/StockOrderRedisDTO.java:25-33 | the entry carries the line's id, price, remaining quantity and creation time; for a balanced line that is requested minus executed, and it is positive iff the line has quantity open |
| BookEntries.ToDTO | src/main/java/com/portfolio2025/first/converter/StockOrderRedisConverter.java:8-16 | the converter's projection equals StockOrderRedisDTO.from |
| BookEntries.AfterExecution | src/main/java/com/portfolio2025/first/dto/StockOrderRedisDTO.java:35-45 | the open quantity drops by the executed quantity, unchecked, and nothing else changes |
| BookEntries.AfterExecutionsAdd | src/main/java/com/portfolio2025/first/dto/StockOrderRedisDTO.java:35-45 | two executions of an entry equal one execution of their sum |
| BookEntries.OverExecutionGoesNegative | src/main/java/com/portfolio2025/first/dto/StockOrderRedisDTO.java:35-49 | executing more than is open leaves a negative open quantity with no quantity left |
| BookEntries.ProjectionFollowsExecution | src/main/java/com/portfolio2025/first/dto/StockOrderRedisDTO.java:25-45 | projecting a line after applyExecution equals applying afterExecution to its projection |
| Matching.ExecutableQuantity | src/main/java/com/portfolio2025/first/dto/MatchingPair.java:31-33 | the executable quantity is the smaller open quantity, and fails iff one is negative |
| Matching.AfterExecution | src/main/java/com/portfolio2025/first/dto/MatchingPair.java:35-40 | both sides lose exactly the executed quantity and nothing else changes |
| Matching.MatchabilityIsExclusive | src/main/java/com/portfolio2025/first/dto/MatchingPair.java:23-29 | a pair is matchable iff the ask is at most the bid, and exactly one of matchable and not matchable holds |
| Matching.ExecutionExhaustsOneSide | src/main/java/com/portfolio2025/first/dto/MatchingPair.java:31-40 | executing the executable quantity empties at least one side and leaves neither negative |
| OrderBook.Add | src/main/java/com/portfolio2025/first/service/RedisStockOrderService.java:39-49 | after ZADD the member is present with the score and every other member keeps its score |
| OrderBook.Remove | src/main/java/com/portfolio2025/first/service/RedisStockOrderService.java:52-64 | after ZREM the member is gone, other members keep their scores, and the size drops by one iff it was present |
| OrderBook.HighestExists | src/main/java/com/portfolio2025/first/service/RedisStockOrderService.java:52-58 | a non-empty sorted set has a member with the highest score, so the reverse range is never empty |
| OrderBook.LowestExists | src/main/java/com/portfolio2025/first/service/RedisStockOrderService.java:80-86 | a non-empty sorted set has a member with the lowest score |
| OrderBook.RedisBook.constructor | src/main/java/com/portfolio2025/first/service/RedisStockOrderService.java:24-28 | a new book is empty and valid |
| OrderBook.RedisBook.PushBuyOrderDTO | src/main/java/com/portfolio2025/first/service/TradeService.java:101-107 | only the entry's buy side changes, gaining the entry with its buy score |
| OrderBook.RedisBook.PushSellOrderDTO | src/main/java/com/portfolio2025/first/service/TradeService.java:101-107 | only the entry's sell side changes, gaining the entry with its sell score |
| OrderBook.RedisBook.PushBuyOrder | src/main/java/com/portfolio2025/first/service/RedisStockOrderService.java:39-49 | only the stock's buy side changes, gaining the line's projection scored by negated weighted price minus time |
| OrderBook.RedisBook.PushSellOrder | src/main/java/com/portfolio2025/first/service/RedisStockOrderService.java:67-77 | only the stock's sell side changes, gaining the line's projection scored by weighted price plus time |
| OrderBook.RedisBook.PopBestBuyOrder | src/main/java/com/portfolio2025/first/service/RedisStockOrderService.java:52-64 | returns nothing iff the buy side is empty; otherwise a member of that stock with the highest score, which is removed and nothing else |
| OrderBook.RedisBook.PopBestSellOrder | src/main/java/com/portfolio2025/first/service/RedisStockOrderService.java:80-92 | returns nothing iff the sell side is empty; otherwise a member of that stock with the lowest score, which is removed and nothing else |
| OrderBook.RedisBook.RemoveBuyOrder | src/main/java/com/portfolio2025/first/service/StockOrderService.java:119-126 | only the entry's buy side changes, losing the entry |
| OrderBook.RedisBook.RemoveSellOrder | src/main/java/com/portfolio2025/first/service/StockOrderService.java:119-126 | only the entry's sell side changes, losing the entry |
| OrderBook.RedisBook.PopMatchPair | src/main/java/com/portfolio2025/first/service/TradeService.java:54-56 | pops nothing iff either side is empty; otherwise the best bid and the best ask of the stock, each removed from its side |
| OrderBook.RedisBook.PushBack | src/main/java/com/portfolio2025/first/service/TradeService.java:59-63 | both entries return to their sides with their scores |
| OrderBook.SellKeyIsNeverBuyKey | src/main/java/com/portfolio2025/first/service/RedisStockOrderService.java:30-36 | a buy key and a sell key never coincide |
| OrderBook.BuyKeyIsInjective | src/main/java/com/portfolio2025/first/service/RedisStockOrderService.java:30-32 | two stocks share a buy key iff they are the same stock |
| OrderBook.SellKeyIsInjective | src/main/java/com/portfolio2025/first/service/RedisStockOrderService.java:34-36 | two stocks share a sell key iff they are the same stock |
| OrderBook.SellPriceDominatesWithinWindow | src/main/java/com/portfolio2025/first/service/RedisStockOrderService.java:69-70 | within the time window a cheaper ask scores lower, and a lower score never means a dearer ask |
| OrderBook.TimeBreaksTies | src/main/java/com/portfolio2025/first/service/RedisStockOrderService.java:41-42 | at equal prices the older entry is popped first on both sides |
| OrderBook.BestBuyIsLowestBid | src/main/java/com/portfolio2025/first/service/RedisStockOrderService.java:41-42 | within the time window the highest buy score belongs to the lowest bid |
| OrderBook.TimeOutweighsPriceOutsideWindow | src/main/java/com/portfolio2025/first/service/RedisStockOrderService.java:69-70 | two entries a full window apart score against their prices |
| OrderBook.PushIntoEmptySide | src/main/java/com/portfolio2025/first/service/RedisStockOrderService.java:39-64 | a line pushed into an empty buy side is the only member and the one popped, with the line's code, open quantity and price |
| OrderBook.PushBackThenPop | src/main/java/com/portfolio2025/first/service/TradeService.java:54-63 | a pair pushed back into an empty book is the pair popped next |
| OrderBook.RemoveThenAddRestores | src/main/java/com/portfolio2025/first/service/TradeService.java:59-63 | removing a member and adding it back with its score restores the set |
| Ledger.ChildStatuses | src/main/java/com/portfolio2025/first/service/TradeExecutionService.java:100-102 | the set holds exactly the statuses of the lines that belong to the order |
| Ledger.FindUser | src/main/java/com/portfolio2025/first/service/StockOrderService.java:175-178 | the lookup succeeds iff the user exists, otherwise user-not-found |
| Ledger.StockByCode | src/main/java/com/portfolio2025/first/service/StockOrderService.java:180-183 | the lookup succeeds iff the code names a stored stock, which it returns |
| Ledger.FindLineWithAllRelations | src/main/java/com/portfolio2025/first/repository/StockOrderRepositoryImpl.java:20-35 | a line is found iff it is stored with its order, its portfolio and both of their users, and is then returned as stored |
| Ledger.PortfolioOf | src/main/java/com/portfolio2025/first/service/PortfolioService.java:49-52 | the lookup succeeds iff the user has a portfolio of the type, which it returns |
| Ledger.OnePortfolioPerUserAndType | src/main/java/com/portfolio2025/first/domain/Portfolio.java:37 | in valid tables two portfolios with the same user and type are the same portfolio |
| Ledger.AggregateOfChildren | src/main/java/com/portfolio2025/first/domain/stock/StockOrderStatus.java:3-12 | aggregating an order's lines in any listing gives the rule's status for their set of statuses |
| Settlement.LoadLine | src/main/java/com/portfolio2025/first/service/TradeExecutionService.java:81-86 | succeeds iff the entry's line is stored with its order, its portfolio and their users, returning it; otherwise an illegal-argument failure |
| Settlement.ChargeBuyer | src/main/java/com/portfolio2025/first/service/TradeExecutionService.java:144-150 | succeeds iff the buyer's reserved and free cash both cover the cost, which it takes from both and changes no other row |
| Settlement.BoughtHolding | src/main/java/com/portfolio2025/first/service/TradeExecutionService.java:152-163 | the buyer's holding grows by the quantity, via applyBuy on an existing holding or as a new holding at the price |
| Settlement.AddShares | src/main/java/com/portfolio2025/first/service/TradeExecutionService.java:144-164 | the bought holding is stored under buyer and stock, the buyer holds the quantity more, and nothing else but holdings and ids changes |
| Settlement.SoldHolding | src/main/java/com/portfolio2025/first/service/TradeExecutionService.java:173-186 | succeeds iff the seller's holding exists and both held and reserved cover the quantity; it reduces both and is deleted iff it becomes empty; no holding is an illegal state |
| Settlement.SettleSeller | src/main/java/com/portfolio2025/first/service/TradeExecutionService.java:166-187 | the seller is credited the cost and holds the quantity fewer; it fails exactly as the holding step does |
| Settlement.ExecuteLine | src/main/java/com/portfolio2025/first/service/TradeExecutionService.java:93-98 | the stored line is replaced by its applyExecution, which succeeds iff the execution stays within the request |
| Settlement.Reaggregate | src/main/java/com/portfolio2025/first/service/TradeExecutionService.java:100-102 | the loaded line's order takes the rule's status for its lines, changing nothing else |
| Settlement.NewTrade | src/main/java/com/portfolio2025/first/service/TradeExecutionService.java:115-121 | the trade takes the next id, the two lines, the price, the quantity and amount price times quantity |
| Settlement.SaveTrade | src/main/java/com/portfolio2025/first/service/TradeExecutionService.java:105-138 | stores a trade and its event iff none exists for the two lines; otherwise changes nothing |
| Settlement.InsertTrade | src/main/java/com/portfolio2025/first/service/TradeService.java:85-87 | the insert succeeds iff no trade exists for the two lines, otherwise a constraint violation |
| Settlement.ChargeBuyerKeepsValid | src/main/java/com/portfolio2025/first/service/TradeExecutionService.java:144-150 | charging the buyer keeps the tables valid |
| Settlement.AddSharesKeepsValid | src/main/java/com/portfolio2025/first/service/TradeExecutionService.java:152-163 | adding the bought shares keeps the tables valid |
| Settlement.SettleSellerKeepsValid | src/main/java/com/portfolio2025/first/service/TradeExecutionService.java:166-187 | settling the seller keeps the tables valid |
| Settlement.ExecuteLineKeepsValid | src/main/java/com/portfolio2025/first/service/TradeExecutionService.java:93-98 | executing a line keeps the tables valid |
| Settlement.ReaggregateKeepsValid | src/main/java/com/portfolio2025/first/service/TradeExecutionService.java:100-102 | re-aggregating an order keeps the tables valid |
| Settlement.SaveTradeKeepsValid | src/main/java/com/portfolio2025/first/service/TradeExecutionService.java:105-126 | saving the trade keeps the tables valid |
| Settlement.InsertTradeKeepsValid | src/main/java/com/portfolio2025/first/service/TradeService.java:85-87 | inserting the trade keeps the tables valid |
| TradeExecution.Classify | src/main/java/com/portfolio2025/first/service/TradeExecutionService.java:58-62 | illegal states become non-retryable, cache and data-access failures retryable, and every other failure passes unchanged, keeping its reason |
| TradeExecution.MatchSinglePair | src/main/java/com/portfolio2025/first/service/TradeExecutionService.java:41-63 | on success the database holds the settled tables; on failure it is unchanged and the failure is the classified one |
| TradeExecution.SettleKeepsValid | src/main/java/com/portfolio2025/first/service/TradeExecutionService.java:41-63 | a settled pair keeps the tables valid |
| TradeExecution.CashChangesHands | src/main/java/com/portfolio2025/first/service/TradeExecutionService.java:144-171 | a settled pair takes the cost from the buyer's reserved and free cash and credits the seller's free cash; the buyer must hold both |
| TradeExecution.SharesChangeHands | src/main/java/com/portfolio2025/first/service/TradeExecutionService.java:152-186 | the quantity moves from the seller's holding to the buyer's, and the seller's holding is deleted iff it is used up |
| TradeExecution.LinesRecordExecution | src/main/java/com/portfolio2025/first/service/TradeExecutionService.java:93-98 | both lines record the execution at the ask price and every other line is unchanged |
| TradeExecution.ParentOrdersFollowLines | src/main/java/com/portfolio2025/first/service/TradeExecutionService.java:100-102 | both parent orders carry the rule's status for their lines after the execution |
| TradeExecution.TradeRecordedOnce | src/main/java/com/portfolio2025/first/service/TradeExecutionService.java:105-138 | a trade and its event are stored iff none existed for the two lines, with the executed quantity and the ask price |
| TradeExecution.ReplayedPairSettlesAgain | src/main/java/com/portfolio2025/first/service/TradeExecutionService.java:105-113 | with the trade already stored, cash and lines still move and only the trade and its event are skipped |
| TradeMatching.Match | src/main/java/com/portfolio2025/first/service/TradeService.java:50-109 | on success the database holds every settled pair folded in order and the book has no crossing pair left; on failure the database is unchanged |
| TradeMatching.MatchOnceKeepsValid | src/main/java/com/portfolio2025/first/service/TradeService.java:66-87 | one pass of the loop keeps the tables valid |
| TradeMatching.MatchAllKeepsValid | src/main/java/com/portfolio2025/first/service/TradeService.java:50-92 | a whole match call keeps the tables valid |
| TradeMatching.MatchOnceInsertsTrade | src/main/java/com/portfolio2025/first/service/TradeService.java:85-87 | a pass stores exactly one new trade for the two lines with the executed quantity and the ask price |
| TradeMatching.ExistingTradeFails | src/main/java/com/portfolio2025/first/service/TradeService.java:85-87 | a pass for a pair whose trade exists fails |
| TradeMatching.SamePairTwiceFails | src/main/java/com/portfolio2025/first/service/TradeService.java:50-92 | settling the same pair twice in one call fails the whole call |
| TradeMatching.OnlySellerCashMoves | src/main/java/com/portfolio2025/first/service/TradeService.java:123-152 | a pass leaves the buyer's portfolio as it was and credits the seller the cost |
| OrderPlacement.DefaultPortfolio | src/main/java/com/portfolio2025/first/service/StockOrderService.java:170-173 | succeeds iff the user has a STOCK portfolio, returning its id |
| OrderPlacement.ReserveForBuy | src/main/java/com/portfolio2025/first/service/BuyOrderProcessor.java:32-35 | succeeds iff free cash covers the total, which moves to reserved; no other row changes |
| OrderPlacement.ReserveForSell | src/main/java/com/portfolio2025/first/service/SellOrderProcessor.java:25-30 | succeeds iff the holding exists and has the quantity free, which it reserves; a missing holding is an illegal state |
| OrderPlacement.Reserve | src/main/java/com/portfolio2025/first/service/StockOrderService.java:74 | the reservation chosen by side keeps the set of portfolios |
| OrderPlacement.SaveOrder | src/main/java/com/portfolio2025/first/service/StockOrderService.java:76-81 | adds one PENDING balanced line and one CREATED order holding it under fresh ids, and publishes its event; nothing else changes |
| OrderPlacement.PlaceSingleOrder | src/main/java/com/portfolio2025/first/service/StockOrderService.java:62-82 | a missing user is user-not-found, and the only illegal-state failure is a sell without a holding |
| OrderPlacement.DefaultPortfolioIsOwned | src/main/java/com/portfolio2025/first/service/StockOrderService.java:170-173 | the default portfolio belongs to the user and is of type STOCK |
| OrderPlacement.AcceptedIffReservable | src/main/java/com/portfolio2025/first/service/StockOrderService.java:62-82 | once lookups pass, an order is accepted iff a buy's total is covered by free cash or a sell's quantity is free in the holding |
| OrderPlacement.BuyPlacementReservesCash | src/main/java/com/portfolio2025/first/service/BuyOrderProcessor.java:32-35 | an accepted buy moves the total from free to reserved cash of that portfolio only, and touches no holding or stock |
| OrderPlacement.SellPlacementReservesShares | src/main/java/com/portfolio2025/first/service/SellOrderProcessor.java:25-30 | an accepted sell reserves the quantity in that holding only, and touches no cash |
| OrderPlacement.PlacementRecordsOrder | src/main/java/com/portfolio2025/first/service/StockOrderService.java:74-81 | an accepted order adds exactly one line and one order under fresh ids, with the requested quantity, price and side, and publishes its event |
| OrderPlacement.SaveOrderKeepsValid | src/main/java/com/portfolio2025/first/service/StockOrderService.java:76-78 | saving an order keeps the tables valid |
| OrderPlacement.PlaceSingleOrderKeepsValid | src/main/java/com/portfolio2025/first/service/StockOrderService.java:62-82 | an accepted order keeps the tables valid |
| OrderModification.FindTarget | src/main/java/com/portfolio2025/first/service/StockOrderService.java:100-112 | succeeds only for a PENDING line found with all its relations whose order belongs to the caller; a line not found that way is an illegal argument before anything else, a foreign owner a runtime error |
| OrderModification.Withdrawn | src/main/java/com/portfolio2025/first/service/StockOrderService.java:119 | the entry withdrawn equals the projection of the line as it was listed |
| OrderModification.Modify | src/main/java/com/portfolio2025/first/service/StockOrderService.java:87-143 | without the lock it fails; a success needs the owner's PENDING line |
| OrderModification.ModifyStockOrder | src/main/java/com/portfolio2025/first/service/StockOrderService.java:87-168 | the database takes the modification iff it succeeds and is unchanged otherwise, while the book loses the line as soon as the checks pass |
| OrderModification.ModifyReservesNothing | src/main/java/com/portfolio2025/first/service/StockOrderService.java:114-143 | a modification leaves portfolios, holdings and trades as they were |
| OrderModification.ModifyReplacesLine | src/main/java/com/portfolio2025/first/service/StockOrderService.java:114-158 | the old line is CANCELLED and its order untouched; a new PENDING line for the new quantity and price, same stock and portfolio, is saved with a new order and event |
| OrderModification.ModifyKeepsValid | src/main/java/com/portfolio2025/first/service/StockOrderService.java:87-143 | a modification keeps the tables valid |
| OrderModification.InvalidModificationStrandsLine | src/main/java/com/portfolio2025/first/service/StockOrderService.java:119-129 | a negative quantity fails the modification after the PENDING line was removed from the book |
| SellSubmission.PlaceSingleSellOrder | src/main/java/com/portfolio2025/first/service/SellStockService.java:35-81 | the only illegal-state failure is a missing holding |
| SellSubmission.SellServiceAgreesWithStrategy | src/main/java/com/portfolio2025/first/service/old/SellStockService.java:47-93 | the older sell service writes exactly what placeSingleOrder with the sell strategy writes |
| SellSubmission.SellOrderReservesSharesOnly | src/main/java/com/portfolio2025/first/service/SellStockService.java:46-51 | a sell is accepted iff the holding has the quantity free, and then only that holding's reservation changes |
| BuySubmission.Positive | src/main/java/com/portfolio2025/first/service/BuyStockService.java:74-84 | a value passes iff present and positive |
| BuySubmission.StockById | src/main/java/com/portfolio2025/first/service/BuyStockService.java:46-47 | the lookup succeeds iff the stock exists |
| BuySubmission.PlaceBuyOrder | src/main/java/com/portfolio2025/first/service/BuyStockService.java:41-72 | a success needs the user and the stock, and every failure is an illegal argument |
| BuySubmission.BuyOrderAcceptedIff | src/main/java/com/portfolio2025/first/service/BuyStockService.java:49-61 | with user and stock found, accepted iff quantity and price are positive, the balance covers their product and the market has the quantity |
| BuySubmission.BuyOrderDebitsBalance | src/main/java/com/portfolio2025/first/service/BuyStockService.java:63-64 | an accepted order lowers the user's balance by the total and leaves stocks, portfolios, holdings and events alone |
| BuySubmission.BuyServiceLineCannotSettle | src/main/java/com/portfolio2025/first/service/BuyStockService.java:66-71 | the saved line is PENDING but names no portfolio, so loading it for settlement fails with an illegal argument |
| BuySubmission.PlaceBuyOrderKeepsValid | src/main/java/com/portfolio2025/first/service/BuyStockService.java:41-72 | an accepted order keeps the tables valid |
| OrderValidation.Validate | src/main/java/com/portfolio2025/first/OrderValidator.java:49-61 | a line passes iff present, with a non-zero quantity and a known stock; each failure has its own error |
| OrderValidation.FindOrderWithRetry | src/main/java/com/portfolio2025/first/OrderValidator.java:33-44 | returns the first found order within the retry limit, and fails only after every attempt found nothing |
| OrderValidation.ZeroQuantityPassesPlacementNotValidation | src/main/java/com/portfolio2025/first/OrderValidator.java:53-56 | a zero-share buy is accepted by placement and its line is rejected by validation |
| OrderPreparation.ValidateAndRegisterToRedis | src/main/java/com/portfolio2025/first/service/OrderPrepareService.java:17-34 | succeeds iff line, stock and type are present, adding the line's projection to the side its type names; failures leave the book unchanged |
| AccountService.ValidateAccountCreateInput | src/main/java/com/portfolio2025/first/service/AccountService.java:18-28 | input passes iff user, non-blank bank name and non-blank number are given, checked in that order |
| AccountService.CreateAccount | src/main/java/com/portfolio2025/first/service/AccountService.java:31-42 | an account is saved iff the input passes and the number is unused, opening active with ten million |
| AccountService.DepositMovesCash | src/main/java/com/portfolio2025/first/service/AccountService.java:51-59 | a deposit succeeds iff the account exists and holds the amount, moving it to the user's balance with the sum unchanged |
| AccountService.WithdrawMovesCash | src/main/java/com/portfolio2025/first/service/AccountService.java:63-71 | a withdrawal succeeds iff the account exists and the balance holds the amount, moving it back to the account |
| AccountService.DepositThenWithdrawRestores | src/main/java/com/portfolio2025/first/service/AccountService.java:51-71 | withdrawing what was just deposited restores the tables |
| PortfolioService.CreatePortfolio | src/main/java/com/portfolio2025/first/service/PortfolioService.java:33-46 | succeeds iff the user exists and has no portfolio of the type; the duplicate check comes first |
| PortfolioService.CreatedPortfolioIsFound | src/main/java/com/portfolio2025/first/service/PortfolioService.java:33-52 | the created portfolio is empty, is found for its user and type, is appended to the user's list, and older portfolios are unchanged |
| PortfolioService.SecondPortfolioOfTypeFails | src/main/java/com/portfolio2025/first/service/PortfolioService.java:36-39 | creating the same type twice fails the second time |
| PortfolioService.CreatePortfolioKeepsValid | src/main/java/com/portfolio2025/first/service/PortfolioService.java:33-46 | creating a portfolio keeps at most one portfolio per user and type |

## Left out

- Java `long` overflow is not modelled. Money, quantities and scores are
  unbounded integers, so `desiredQuantity * desiredPrice` in
  `BuyStockService` and the `double` scores of the order book never wrap or
  round.
- Ties in the order book are not resolved as Redis resolves them. Redis
  orders members with equal scores by their serialised bytes, but
  `RedisBook.PopBestBuyOrder` and `RedisBook.PopBestSellOrder` may return any
  member with the best score.
- JSON serialisation of book entries and its exceptions are left out. A
  member of a sorted set is the entry itself.
- Concurrency is left out: Redisson locks, row locks
  (`findByIdForUpdate`, `WithLock`), `Thread.sleep` between retries and
  interrupts. A lock's outcome is a boolean parameter.
- Kafka publishing and after-commit hooks are left out. Published events
  are appended to an outbox.
- Wall-clock time is a parameter. `LocalDateTime.now()` in entity
  constructors is not modelled as a distinct clock reading per field.
- `AccountService.getAccountsByUsername` is left out. It passes a user
  name to a repository method that looks accounts up by user.
- Controllers, consumers, `TradeQueueService`, `StockOrderFactory` and
  `RedisRegister` are not part of this model. They only call into the core.
- `PortfolioStock.hasNotEnough`, `Stock.hasLowerQuantityThan` and
  `Account.isLowerThan` are the predicates `Holdings.HasNotEnough`,
  `Stocks.HasLowerQuantityThan` and `Accounts.IsLowerThan`. They have no rows
  of their own; the contracts of the operations that use them state the
  comparison.
- `Portfolio.deductCash` has no member of its own. It is private and
  subsumed by `buy`.
- `Money.requireNonNull` and `Quantity.requireNonNull` are not modelled. They
  reject a null argument to `plus` and `minus`, and the model's arguments
  are values that cannot be null.
- OrderModification.ModifyStockOrder: assumes a transaction supplied by its
  caller. As written, the method declares none, so its locking fetch and
  its save run without one, and the cancelled old line is not cascaded from
  the new order. The model does not capture that case.
- Only the relations `findByIdWithAllRelations` joins are checked when a
  line is loaded. A line whose stock is not stored is a null-pointer failure
  in `OrderModification.FindTarget` rather than a lazy-loading error.
