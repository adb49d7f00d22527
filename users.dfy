/** `User`: a person with contact details and the list of portfolios they own. */
module Users {
  import opened Values

  datatype UserRow = UserRow(
    id: Id,
    name: string,
    loginId: string,
    location: Option<string>,
    phone: Option<string>,
    email: Option<string>,
    createdAt: int,
    updatedAt: int,
    portfolios: seq<Id>)

  /** `User.createUser`: the name and the login id are required; a new user owns no portfolio. */
  function CreateUser(id: Id, name: Option<string>, location: Option<string>, phone: Option<string>,
                      email: Option<string>, loginId: Option<string>, now: int): (r: Result<UserRow>)
    ensures r.Ok? <==> name.Some? && loginId.Some?
    ensures r.Err? ==> r.failure == Failure(IllegalArgument, RequiredUserField)
    ensures r.Ok? ==> r.value.portfolios == [] && r.value.id == id
    ensures r.Ok? ==> r.value.name == name.value && r.value.loginId == loginId.value
    ensures r.Ok? ==> r.value.location == location && r.value.phone == phone && r.value.email == email
  {
    if name.None? || loginId.None? then Err(Failure(IllegalArgument, RequiredUserField))
    else Ok(UserRow(id, name.value, loginId.value, location, phone, email, now, now, []))
  }

  /** `updateContact` replaces the phone number and the e-mail address and nothing else. */
  function UpdateContact(u: UserRow, phone: Option<string>, email: Option<string>, now: int): (r: UserRow)
    ensures r.phone == phone && r.email == email && r.updatedAt == now
    ensures r.(phone := u.phone, email := u.email, updatedAt := u.updatedAt) == u
  {
    u.(phone := phone, email := email, updatedAt := now)
  }

  /** `updateLocation` replaces the location and nothing else. */
  function UpdateLocation(u: UserRow, location: Option<string>, now: int): (r: UserRow)
    ensures r.location == location && r.updatedAt == now
    ensures r.(location := u.location, updatedAt := u.updatedAt) == u
  {
    u.(location := location, updatedAt := now)
  }

  /** `addPortfolio` appends exactly one portfolio to the owner's list. */
  function AddPortfolio(u: UserRow, portfolio: Id): (r: UserRow)
    ensures |r.portfolios| == |u.portfolios| + 1 && r.portfolios[|u.portfolios|] == portfolio
    ensures r.portfolios[..|u.portfolios|] == u.portfolios
    ensures r.(portfolios := u.portfolios) == u
  {
    u.(portfolios := u.portfolios + [portfolio])
  }

  /** The two updates touch disjoint fields, so their order does not matter. */
  lemma UpdatesCommute(u: UserRow, phone: Option<string>, email: Option<string>, location: Option<string>, now: int)
    ensures UpdateLocation(UpdateContact(u, phone, email, now), location, now)
         == UpdateContact(UpdateLocation(u, location, now), phone, email, now)
  {
  }

  // The user's cash balance. `User.java` declares no balance; its
  // `isBalanceInsufficient`, `deposit` and `withdraw` are called by the services
  // and are modelled here as the same arithmetic as `Money`.

  predicate IsBalanceInsufficient(balance: Money, amount: Money)
  {
    MoneyIsLowerThan(balance, amount)
  }

  function DepositBalance(balance: Money, amount: Money): (r: Money)
    ensures r - amount == balance
  {
    MoneyPlus(balance, amount)
  }

  function WithdrawBalance(balance: Money, amount: Money): (r: Result<Money>)
    ensures r.Ok? <==> !IsBalanceInsufficient(balance, amount)
    ensures r.Ok? ==> r.value + amount == balance
    ensures r.Err? ==> r.failure == Failure(IllegalArgument, InsufficientBalance)
  {
    MoneyMinus(balance, amount)
  }
}
