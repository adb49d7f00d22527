/** `Account`: a bank account that funds a user's balance. */
module Accounts {
  import opened Values

  /** Every new account starts with ten million in the smallest currency unit. */
  const OPENING_BALANCE: Money := 10_000_000

  datatype AccountRow = AccountRow(
    id: Id,
    user: Id,
    bankName: string,
    accountNumber: string,
    userName: Option<string>,
    createdAt: int,
    isActive: bool,
    availableCash: Money)

  /** `Account.createAccount`: user, bank name and account number are required;
      the account opens active with the opening balance. */
  function CreateAccount(id: Id, user: Option<Id>, bankName: Option<string>, accountNumber: Option<string>,
                         userName: Option<string>, now: int): (r: Result<AccountRow>)
    ensures r.Ok? <==> user.Some? && bankName.Some? && accountNumber.Some?
    ensures r.Err? ==> r.failure == Failure(IllegalArgument, RequiredAccountField)
    ensures r.Ok? ==> r.value.isActive && r.value.availableCash == OPENING_BALANCE
    ensures r.Ok? ==> r.value.user == user.value && r.value.bankName == bankName.value
    ensures r.Ok? ==> r.value.accountNumber == accountNumber.value && r.value.userName == userName
  {
    if user.None? || bankName.None? || accountNumber.None? then Err(Failure(IllegalArgument, RequiredAccountField))
    else Ok(AccountRow(id, user.value, bankName.value, accountNumber.value, userName, now, true, OPENING_BALANCE))
  }

  /** `withdraw` takes money out of the account and refuses to overdraw it. */
  function Withdraw(a: AccountRow, amount: Money): (r: Effect<AccountRow, ()>)
    ensures r.result.Ok? <==> !IsLowerThan(a, amount)
    ensures r.result.Ok? ==> r.state.availableCash + amount == a.availableCash
    ensures r.result.Err? ==> r.state == a && r.result.failure == Failure(IllegalArgument, InsufficientBalance)
    ensures r.state.(availableCash := a.availableCash) == a
  {
    match MoneyMinus(a.availableCash, amount)
    case Ok(rest) => Effect(a.(availableCash := rest), Ok(()))
    case Err(f) => Effect(a, Err(f))
  }

  /** `deposit` adds exactly the amount. */
  function Deposit(a: AccountRow, amount: Money): (r: AccountRow)
    ensures r.availableCash - amount == a.availableCash
    ensures r.(availableCash := a.availableCash) == a
  {
    a.(availableCash := MoneyPlus(a.availableCash, amount))
  }

  predicate IsLowerThan(a: AccountRow, amount: Money)
  {
    MoneyIsLowerThan(a.availableCash, amount)
  }

  /** Depositing and then withdrawing the same amount restores the account. */
  lemma DepositThenWithdraw(a: AccountRow, amount: Money)
    ensures Withdraw(Deposit(a, amount), amount) == Effect(a, Ok(()))
  {
  }
}
