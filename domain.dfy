/** The entities of the `domain` package as objects whose methods update their
    fields in place, each method proved to leave the object in the state, and
    return the result, that the entity's transition function describes. */
module Domain {
  import opened Values
  import opened Statuses
  import Users
  import Accounts
  import Stocks
  import Portfolios
  import Holdings
  import StockOrders
  import Orders

  class User {
    const id: Id
    const name: string
    const loginId: string
    var location: Option<string>
    var phone: Option<string>
    var email: Option<string>
    const createdAt: int
    var updatedAt: int
    var portfolios: seq<Id>

    function Row(): Users.UserRow
      reads this
    {
      Users.UserRow(id, name, loginId, location, phone, email, createdAt, updatedAt, portfolios)
    }

    /** The builder behind `User.createUser`, for a name and login id that are present. */
    constructor (id: Id, name: string, location: Option<string>, phone: Option<string>,
                 email: Option<string>, loginId: string, now: int)
      ensures Ok(Row()) == Users.CreateUser(id, Some(name), location, phone, email, Some(loginId), now)
    {
      this.id := id;
      this.name := name;
      this.loginId := loginId;
      this.location := location;
      this.phone := phone;
      this.email := email;
      this.createdAt := now;
      this.updatedAt := now;
      this.portfolios := [];
    }

    method UpdateContact(phone: Option<string>, email: Option<string>, now: int)
      modifies this
      ensures Row() == Users.UpdateContact(old(Row()), phone, email, now)
    {
      this.phone := phone;
      this.email := email;
      this.updatedAt := now;
    }

    method UpdateLocation(location: Option<string>, now: int)
      modifies this
      ensures Row() == Users.UpdateLocation(old(Row()), location, now)
    {
      this.location := location;
      this.updatedAt := now;
    }

    method AddPortfolio(portfolio: Id)
      modifies this
      ensures Row() == Users.AddPortfolio(old(Row()), portfolio)
    {
      portfolios := portfolios + [portfolio];
    }
  }

  class Account {
    const id: Id
    const user: Id
    const bankName: string
    const accountNumber: string
    const userName: Option<string>
    const createdAt: int
    const isActive: bool
    var availableCash: Money

    function Row(): Accounts.AccountRow
      reads this
    {
      Accounts.AccountRow(id, user, bankName, accountNumber, userName, createdAt, isActive, availableCash)
    }

    /** The builder behind `Account.createAccount`, for present user, bank name and number. */
    constructor (id: Id, user: Id, bankName: string, accountNumber: string, userName: Option<string>, now: int)
      ensures Ok(Row()) == Accounts.CreateAccount(id, Some(user), Some(bankName), Some(accountNumber), userName, now)
    {
      this.id := id;
      this.user := user;
      this.bankName := bankName;
      this.accountNumber := accountNumber;
      this.userName := userName;
      this.createdAt := now;
      this.isActive := true;
      this.availableCash := Accounts.OPENING_BALANCE;
    }

    method Withdraw(amount: Money) returns (r: Result<()>)
      modifies this
      ensures Effect(Row(), r) == Accounts.Withdraw(old(Row()), amount)
    {
      var rest := MoneyMinus(availableCash, amount);
      if rest.Err? {
        return Err(rest.failure);
      }
      availableCash := rest.value;
      r := Ok(());
    }

    method Deposit(amount: Money)
      modifies this
      ensures Row() == Accounts.Deposit(old(Row()), amount)
    {
      availableCash := MoneyPlus(availableCash, amount);
    }
  }

  class Stock {
    const id: Id
    const price: Money
    const name: string
    const code: string
    var available: Quantity

    function Row(): Stocks.StockRow
      reads this
    {
      Stocks.StockRow(id, price, name, code, available)
    }

    constructor (id: Id, price: Money, name: string, code: string, available: Quantity)
      ensures Row() == Stocks.StockRow(id, price, name, code, available)
    {
      this.id := id;
      this.price := price;
      this.name := name;
      this.code := code;
      this.available := available;
    }

    method DecreaseAvailableQuantity(executed: Quantity) returns (r: Result<()>)
      modifies this
      ensures Effect(Row(), r) == Stocks.DecreaseAvailableQuantity(old(Row()), executed)
    {
      var rest := QuantityMinus(available, executed);
      if rest.Err? {
        return Err(rest.failure);
      }
      available := rest.value;
      r := Ok(());
    }
  }

  class Portfolio {
    const id: Id
    const user: Id
    const portfolioType: Portfolios.PortfolioType
    var totalValue: Money
    var available: Money
    var reserved: Money
    const createdAt: int
    var updatedAt: Option<int>

    function Row(): Portfolios.PortfolioRow
      reads this
    {
      Portfolios.PortfolioRow(id, user, portfolioType, totalValue, available, reserved, createdAt, updatedAt)
    }

    /** `Portfolio.createPortfolio`: builds the portfolio and appends it to its owner. */
    constructor CreatePortfolio(id: Id, owner: User, portfolioType: Portfolios.PortfolioType, now: int, updatedAt: Option<int>)
      modifies owner
      ensures (Row(), owner.Row()) == Portfolios.CreatePortfolio(id, old(owner.Row()), portfolioType, now, updatedAt)
    {
      this.id := id;
      this.user := owner.id;
      this.portfolioType := portfolioType;
      this.totalValue := 0;
      this.available := 0;
      this.reserved := 0;
      this.createdAt := now;
      this.updatedAt := updatedAt;
      new;
      owner.AddPortfolio(id);
    }

    method Deposit(amount: Money)
      modifies this
      ensures Row() == Portfolios.Deposit(old(Row()), amount)
    {
      available := MoneyPlus(available, amount);
    }

    method Withdraw(amount: Money) returns (r: Result<()>)
      modifies this
      ensures Effect(Row(), r) == Portfolios.Withdraw(old(Row()), amount)
    {
      var rest := MoneyMinus(available, amount);
      if rest.Err? {
        return Err(rest.failure);
      }
      available := rest.value;
      r := Ok(());
    }

    method Buy(totalPrice: Money, totalQuantity: Quantity) returns (r: Result<()>)
      modifies this
      ensures Effect(Row(), r) == Portfolios.Buy(old(Row()), totalPrice, totalQuantity)
    {
      if MoneyIsLowerThan(available, totalPrice) {
        return Err(Failure(IllegalArgument, InsufficientPortfolioCash));
      }
      r := Withdraw(totalPrice);
    }

    method ReserveCash(amount: Money) returns (r: Result<()>)
      modifies this
      ensures Effect(Row(), r) == Portfolios.ReserveCash(old(Row()), amount)
    {
      if MoneyIsLowerThan(available, amount) {
        return Err(Failure(IllegalArgument, InsufficientPortfolioCash));
      }
      available := MoneyMinus(available, amount).value;
      reserved := MoneyPlus(reserved, amount);
      r := Ok(());
    }

    method ReleaseCash(amount: Money) returns (r: Result<()>)
      modifies this
      ensures Effect(Row(), r) == Portfolios.ReleaseCash(old(Row()), amount)
    {
      available := MoneyPlus(available, amount);
      var rest := MoneyMinus(reserved, amount);
      if rest.Err? {
        return Err(rest.failure);
      }
      reserved := rest.value;
      r := Ok(());
    }

    method ReleaseAndDeductCash(amount: Money) returns (r: Result<()>)
      modifies this
      ensures Effect(Row(), r) == Portfolios.ReleaseAndDeductCash(old(Row()), amount)
    {
      var rest := MoneyMinus(reserved, amount);
      if rest.Err? {
        return Err(rest.failure);
      }
      reserved := rest.value;
      var left := MoneyMinus(available, amount);
      if left.Err? {
        return Err(left.failure);
      }
      available := left.value;
      r := Ok(());
    }

    method CancelReservation(amount: Money) returns (r: Result<()>)
      modifies this
      ensures Effect(Row(), r) == Portfolios.CancelReservation(old(Row()), amount)
    {
      var rest := MoneyMinus(reserved, amount);
      if rest.Err? {
        return Err(rest.failure);
      }
      reserved := rest.value;
      available := MoneyPlus(available, amount);
      r := Ok(());
    }
  }

  class PortfolioStock {
    const id: Id
    const portfolio: Id
    const stock: Id
    var quantity: Quantity
    var reserved: Quantity
    var averagePrice: Money
    var lastUpdatedAt: int

    function Row(): Holdings.HoldingRow
      reads this
    {
      Holdings.HoldingRow(id, portfolio, stock, quantity, reserved, averagePrice, lastUpdatedAt)
    }

    /** `PortfolioStock.createPortfolioStock`. */
    constructor CreatePortfolioStock(id: Id, portfolio: Id, stock: Id, quantity: Quantity, averagePrice: Money, now: int)
      ensures Row() == Holdings.CreatePortfolioStock(id, portfolio, stock, quantity, averagePrice, now)
    {
      this.id := id;
      this.portfolio := portfolio;
      this.stock := stock;
      this.quantity := quantity;
      this.reserved := 0;
      this.averagePrice := averagePrice;
      this.lastUpdatedAt := now;
    }

    /** `applyBuy`: `updateAveragePrice` from the quantity held before the
        purchase, then the quantity grows. */
    method ApplyBuy(added: Quantity, price: Money, now: int) returns (r: Result<()>)
      modifies this
      ensures Effect(Row(), r) == Holdings.ApplyBuy(old(Row()), added, price, now)
    {
      var average := FloorAverage(averagePrice, quantity, price, added);
      if average.Err? {
        return Err(average.failure);
      }
      averagePrice := average.value;
      quantity := QuantityPlus(quantity, added);
      lastUpdatedAt := now;
      r := Ok(());
    }

    method DecreaseQuantity(executed: Quantity, now: int) returns (r: Result<bool>)
      modifies this
      ensures Effect(Row(), r) == Holdings.DecreaseQuantity(old(Row()), executed, now)
    {
      if executed > quantity {
        return Err(Failure(IllegalArgument, DecreaseExceedsHolding));
      }
      quantity := QuantityMinus(quantity, executed).value;
      var rest := QuantityMinus(reserved, executed);
      if rest.Err? {
        return Err(rest.failure);
      }
      reserved := rest.value;
      lastUpdatedAt := now;
      r := Ok(IsZero(quantity));
    }

    method Reserve(requested: Quantity, now: int) returns (r: Result<()>)
      modifies this
      ensures Effect(Row(), r) == Holdings.Reserve(old(Row()), requested, now)
    {
      var free := QuantityMinus(quantity, reserved);
      if free.Err? {
        return Err(free.failure);
      }
      if QuantityIsLowerThan(free.value, requested) {
        return Err(Failure(IllegalArgument, NotEnoughToReserve));
      }
      reserved := QuantityPlus(reserved, requested);
      lastUpdatedAt := now;
      r := Ok(());
    }
  }

  class StockOrder {
    const id: Id
    var order: Option<Id>
    const stock: Id
    const portfolio: Option<Id>
    const requestedQuantity: Quantity
    const requestedPrice: Money
    var executed: Quantity
    var remained: Quantity
    var averagePrice: Option<Money>
    var status: LineStatus
    const createdAt: int
    var updatedAt: int

    function Row(): StockOrders.StockOrderRow
      reads this
    {
      StockOrders.StockOrderRow(id, order, stock, portfolio, requestedQuantity, requestedPrice,
                                executed, remained, averagePrice, status, createdAt, updatedAt)
    }

    /** `StockOrder.createStockOrder`. */
    constructor CreateStockOrder(id: Id, stock: Id, quantity: Quantity, price: Money, portfolio: Option<Id>, now: int)
      ensures Row() == StockOrders.CreateStockOrder(id, stock, quantity, price, portfolio, now)
    {
      this.id := id;
      this.order := None;
      this.stock := stock;
      this.portfolio := portfolio;
      this.requestedQuantity := quantity;
      this.requestedPrice := price;
      this.executed := 0;
      this.remained := quantity;
      this.averagePrice := None;
      this.status := PENDING;
      this.createdAt := now;
      this.updatedAt := now;
    }

    method SetOrder(order: Id)
      modifies this
      ensures Row() == StockOrders.SetOrder(old(Row()), order)
    {
      this.order := Some(order);
    }

    method UpdateStatus(status: LineStatus, now: int)
      modifies this
      ensures Row() == StockOrders.UpdateStatus(old(Row()), status, now)
    {
      this.status := status;
      this.updatedAt := now;
    }

    method ApplyExecution(quantity: Quantity, price: Money, now: int) returns (r: Result<()>)
      modifies this
      ensures Effect(Row(), r) == StockOrders.ApplyExecution(old(Row()), quantity, price, now)
    {
      var newExecuted := QuantityPlus(executed, quantity);
      var average := StockOrders.CalculateWeightedAverage(Row(), quantity, price);
      if average.Err? {
        return Err(average.failure);
      }
      executed := newExecuted;
      var rest := QuantityMinus(requestedQuantity, newExecuted);
      if rest.Err? {
        return Err(rest.failure);
      }
      remained := rest.value;
      averagePrice := Some(average.value);
      updatedAt := now;
      UpdateStockOrderStatus();
      r := Ok(());
    }

    method UpdateStockOrderStatus()
      modifies this
      ensures Row() == StockOrders.UpdateStockOrderStatus(old(Row()))
    {
      status := if IsZero(remained) then FILLED else PARTIALLY_FILLED;
    }
  }

  class Order {
    const id: Id
    const user: Id
    var status: OrderStatus
    const orderType: OrderType
    const totalPrice: Money
    const deleted: bool
    const createdAt: int
    var updatedAt: int
    var lines: seq<Id>

    function Row(): Orders.OrderRow
      reads this
    {
      Orders.OrderRow(id, user, status, orderType, totalPrice, deleted, createdAt, updatedAt, lines)
    }

    /** `Order.createBuyOrder`, which leaves the line it is given unattached. */
    constructor CreateBuyOrder(id: Id, user: Id, line: Id, orderType: OrderType, totalPrice: Money, now: int)
      ensures Row() == Orders.CreateBuyOrder(id, user, line, orderType, totalPrice, now)
    {
      this.id := id;
      this.user := user;
      this.status := CREATED;
      this.orderType := orderType;
      this.totalPrice := totalPrice;
      this.deleted := false;
      this.createdAt := now;
      this.updatedAt := now;
      this.lines := [];
    }

    method UpdateStatus(status: OrderStatus, now: int)
      modifies this
      ensures Row() == Orders.UpdateStatus(old(Row()), status, now)
    {
      this.status := status;
      this.updatedAt := now;
    }

    method AggregateStatusFromChildren(children: seq<LineStatus>, now: int)
      modifies this
      ensures Row() == Orders.AggregateStatusFromChildren(old(Row()), children, now)
    {
      UpdateStatus(Aggregate(children), now);
    }
  }
}
