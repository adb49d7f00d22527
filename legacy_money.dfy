/** The older `domain.Money` embeddable: the same non-negative amount as
    `vo.Money` under the field name `amount`, with value equality. */
module LegacyMoney {
  import opened Values

  datatype Money = Money(amount: Values.Money)

  /** The constructor; `None` stands for a null `Long`. */
  function New(amount: Option<int>): (r: Result<Money>)
    ensures r.Ok? <==> amount.Some? && amount.value >= 0
    ensures r.Ok? ==> r.value.amount == amount.value
    ensures r.Err? ==> r.failure == Failure(IllegalArgument, NegativeAmount)
  {
    if amount.Some? && amount.value >= 0 then Ok(Money(amount.value))
    else Err(Failure(IllegalArgument, NegativeAmount))
  }

  function Plus(a: Money, b: Money): Money
  {
    Money(a.amount + b.amount)
  }

  /** Throws "insufficient balance" exactly when `a` is below `b`. */
  function Minus(a: Money, b: Money): (r: Result<Money>)
    ensures r.Ok? <==> !IsLowerThan(a, b)
    ensures r.Ok? ==> Plus(r.value, b) == a
    ensures r.Err? ==> r.failure == Failure(IllegalArgument, InsufficientBalance)
  {
    if a.amount < b.amount then Err(Failure(IllegalArgument, InsufficientBalance))
    else Ok(Money(a.amount - b.amount))
  }

  predicate IsLowerThan(a: Money, b: Money)
  {
    a.amount < b.amount
  }

  predicate IsHigherThan(a: Money, b: Money)
  {
    a.amount > b.amount
  }

  /** `equals` compares the amounts only. */
  predicate Equals(a: Money, b: Money)
  {
    a.amount == b.amount
  }

  /** Equality by amount is identity of the value, and it is exactly the case
      where neither strict comparison holds. */
  lemma EqualsIsValueEquality(a: Money, b: Money)
    ensures Equals(a, b) <==> a == b
    ensures Equals(a, b) <==> !IsLowerThan(a, b) && !IsHigherThan(a, b)
  {
  }

  /** The older class computes exactly what `vo.Money` computes. */
  lemma AgreesWithValueMoney(a: Money, b: Money)
    ensures Plus(a, b).amount == MoneyPlus(a.amount, b.amount)
    ensures Minus(a, b).Ok? <==> MoneyMinus(a.amount, b.amount).Ok?
    ensures Minus(a, b).Ok? ==> Minus(a, b).value.amount == MoneyMinus(a.amount, b.amount).value
    ensures IsLowerThan(a, b) <==> MoneyIsLowerThan(a.amount, b.amount)
    ensures IsHigherThan(a, b) <==> MoneyIsHigherThan(a.amount, b.amount)
  {
  }
}
