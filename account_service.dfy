/** `AccountService`: opening a bank account for a user, and moving cash
    between an account and its user's balance. Depositing takes cash out of
    the account and into the user's balance; withdrawing puts it back. */
module AccountService {
  import opened Values
  import Accounts
  import Users
  import opened Ledger

  /** `Character.isWhitespace`: the space, line and paragraph separators
      other than the non-breaking spaces, and the control characters from
      tab to carriage return and from U+001C to U+001F. */
  predicate IsWhitespace(c: char)
  {
    var n := c as int;
    n == 0x20 || 0x09 <= n <= 0x0D || 0x1C <= n <= 0x1F ||
    n == 0x1680 || (0x2000 <= n <= 0x200A && n != 0x2007) ||
    n == 0x2028 || n == 0x2029 || n == 0x205F || n == 0x3000
  }

  /** `String.isBlank`: empty or whitespace only. */
  predicate IsBlank(s: string)
  {
    forall i | 0 <= i < |s| :: IsWhitespace(s[i])
  }

  /** `validateAccountCreateInput`: the user, then the bank name, then the
      account number must be given, and neither name may be blank. */
  function ValidateAccountCreateInput(user: Option<Id>, bankName: Option<string>, accountNumber: Option<string>): (r: Result<()>)
    ensures r.Ok? <==> user.Some? && bankName.Some? && !IsBlank(bankName.value) &&
                       accountNumber.Some? && !IsBlank(accountNumber.value)
    ensures user.None? ==> r == Err(Failure(IllegalArgument, UserRequired))
    ensures user.Some? && (bankName.None? || IsBlank(bankName.value)) ==> r == Err(Failure(IllegalArgument, BankNameRequired))
    ensures user.Some? && bankName.Some? && !IsBlank(bankName.value) && (accountNumber.None? || IsBlank(accountNumber.value)) ==>
      r == Err(Failure(IllegalArgument, AccountNumberRequired))
  {
    if user.None? then Err(Failure(IllegalArgument, UserRequired))
    else if bankName.None? || IsBlank(bankName.value) then Err(Failure(IllegalArgument, BankNameRequired))
    else if accountNumber.None? || IsBlank(accountNumber.value) then Err(Failure(IllegalArgument, AccountNumberRequired))
    else Ok(())
  }

  /** `createAccount`: validate, build the account and save it. Account
      numbers are unique, so saving a second account under a number fails. */
  function CreateAccount(t: Tables, user: Option<Id>, bankName: Option<string>, accountNumber: Option<string>,
                         userName: Option<string>, now: int): (r: Result<Tables>)
    ensures r.Ok? <==> ValidateAccountCreateInput(user, bankName, accountNumber).Ok? && accountNumber.value !in t.accounts
    ensures ValidateAccountCreateInput(user, bankName, accountNumber).Err? ==>
      r == Err(ValidateAccountCreateInput(user, bankName, accountNumber).failure)
    ensures r.Ok? ==> accountNumber.Some? && accountNumber.value in r.value.accounts
    ensures r.Ok? ==> var a := r.value.accounts[accountNumber.value];
      a.user == user.value && a.bankName == bankName.value && a.userName == userName &&
      a.isActive && a.availableCash == Accounts.OPENING_BALANCE
    ensures r.Ok? ==> r.value.accounts == t.accounts[accountNumber.value := r.value.accounts[accountNumber.value]]
    ensures r.Ok? ==> r.value.(accounts := t.accounts, nextId := t.nextId) == t
  {
    match ValidateAccountCreateInput(user, bankName, accountNumber)
    case Err(f) => Err(f)
    case Ok(_) =>
      var account := Accounts.CreateAccount(t.nextId, user, bankName, accountNumber, userName, now).value;
      if account.accountNumber in t.accounts then Err(Failure(DataIntegrityViolation, DuplicateAccountNumber))
      else Ok(t.(accounts := t.accounts[account.accountNumber := account], nextId := t.nextId + 1))
  }

  /** `deposit`: the account is found by its number and pays the amount out
      (it refuses to go below zero), and the amount is added to its user's
      balance. */
  function Deposit(t: Tables, accountNumber: string, amount: Money): (r: Result<Tables>)
  {
    if accountNumber !in t.accounts then Err(Failure(IllegalArgument, AccountNotFound))
    else
      var account := t.accounts[accountNumber];
      var paid := Accounts.Withdraw(account, amount);
      if paid.result.Err? then Err(paid.result.failure)
      else
        var balance := Users.DepositBalance(Balance(t, account.user), amount);
        Ok(t.(accounts := t.accounts[accountNumber := paid.state], balances := t.balances[account.user := balance]))
  }

  /** `withdraw`: the account is found by its number and receives the
      amount, which is taken from its user's balance (refused when the
      balance is short, which rolls the account back). */
  function Withdraw(t: Tables, accountNumber: string, amount: Money): (r: Result<Tables>)
  {
    if accountNumber !in t.accounts then Err(Failure(IllegalArgument, AccountNotFound))
    else
      var account := t.accounts[accountNumber];
      match Users.WithdrawBalance(Balance(t, account.user), amount)
      case Err(f) => Err(f)
      case Ok(balance) =>
        Ok(t.(accounts := t.accounts[accountNumber := Accounts.Deposit(account, amount)],
              balances := t.balances[account.user := balance]))
  }

  // ---------------------------------------------------------------- lemmas

  /** A deposit succeeds exactly when the account exists and holds the
      amount; it moves the amount from the account to the user's balance,
      so their sum is unchanged, and touches nothing else. */
  lemma {:induction false} DepositMovesCash(t: Tables, accountNumber: string, amount: Money)
    ensures Deposit(t, accountNumber, amount).Ok? <==>
      accountNumber in t.accounts && amount <= t.accounts[accountNumber].availableCash
    ensures accountNumber !in t.accounts ==> Deposit(t, accountNumber, amount) == Err(Failure(IllegalArgument, AccountNotFound))
    ensures Deposit(t, accountNumber, amount).Ok? ==>
      var r := Deposit(t, accountNumber, amount).value; var user := t.accounts[accountNumber].user;
      accountNumber in r.accounts &&
      r.accounts[accountNumber].availableCash + amount == t.accounts[accountNumber].availableCash &&
      Balance(r, user) == Balance(t, user) + amount &&
      r.accounts[accountNumber].availableCash + Balance(r, user) == t.accounts[accountNumber].availableCash + Balance(t, user) &&
      r.(accounts := t.accounts, balances := t.balances) == t
  {
    if accountNumber in t.accounts {
      var account := t.accounts[accountNumber];
      assert Deposit(t, accountNumber, amount).Ok? <==> Accounts.Withdraw(account, amount).result.Ok?;
    }
  }

  /** A withdrawal succeeds exactly when the account exists and the user's
      balance holds the amount; it moves the amount from the balance back to
      the account, so their sum is unchanged. */
  lemma {:induction false} WithdrawMovesCash(t: Tables, accountNumber: string, amount: Money)
    ensures Withdraw(t, accountNumber, amount).Ok? <==>
      accountNumber in t.accounts && amount <= Balance(t, t.accounts[accountNumber].user)
    ensures Withdraw(t, accountNumber, amount).Ok? ==>
      var r := Withdraw(t, accountNumber, amount).value; var user := t.accounts[accountNumber].user;
      accountNumber in r.accounts &&
      r.accounts[accountNumber].availableCash == t.accounts[accountNumber].availableCash + amount &&
      Balance(r, user) + amount == Balance(t, user) &&
      r.(accounts := t.accounts, balances := t.balances) == t
  {
    if accountNumber in t.accounts {
      var user := t.accounts[accountNumber].user;
      assert Withdraw(t, accountNumber, amount).Ok? <==> Users.WithdrawBalance(Balance(t, user), amount).Ok?;
    }
  }

  /** Withdrawing what was just deposited restores the tables, when the
      user's balance was recorded before. */
  lemma {:induction false} DepositThenWithdrawRestores(t: Tables, accountNumber: string, amount: Money)
    requires Deposit(t, accountNumber, amount).Ok?
    requires t.accounts[accountNumber].user in t.balances
    ensures Withdraw(Deposit(t, accountNumber, amount).value, accountNumber, amount) == Ok(t)
  {
    var account := t.accounts[accountNumber];
    var r := Deposit(t, accountNumber, amount).value;
    assert r.accounts[accountNumber].user == account.user;
    var back := Withdraw(r, accountNumber, amount).value;
    assert back.accounts == t.accounts;
    assert back.balances == t.balances;
  }
}
