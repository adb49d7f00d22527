/** `MatchingPair`: the best buy entry and the best sell entry of one stock,
    taken together. The class is declared twice in the repository (once under
    `domain/`, once under `dto/`, both in the same package) with the same
    four methods; one datatype models both. */
module Matching {
  import opened Values
  import opened BookEntries

  datatype MatchingPair = MatchingPair(buy: BookEntry, sell: BookEntry)

  /** `isPriceMatchable`: the buyer bids at least what the seller asks. */
  predicate IsPriceMatchable(p: MatchingPair)
  {
    p.buy.requestedPrice >= p.sell.requestedPrice
  }

  /** `isNotPriceMatchable`. */
  predicate IsNotPriceMatchable(p: MatchingPair)
  {
    !IsPriceMatchable(p)
  }

  /** `getExecutableQuantity`: the smaller of the two open quantities, passed
      through the `Quantity` constructor, which refuses a negative one. */
  function ExecutableQuantity(p: MatchingPair): (r: Result<Quantity>)
    ensures r.Ok? <==> p.buy.remainQuantity >= 0 && p.sell.remainQuantity >= 0
    ensures r.Err? ==> r.failure == Failure(IllegalArgument, NegativeQuantity)
    ensures r.Ok? ==> r.value <= p.buy.remainQuantity && r.value <= p.sell.remainQuantity
    ensures r.Ok? ==> r.value == p.buy.remainQuantity || r.value == p.sell.remainQuantity
  {
    var least := if p.buy.remainQuantity <= p.sell.remainQuantity then p.buy.remainQuantity else p.sell.remainQuantity;
    NewQuantity(Some(least))
  }

  /** `afterExecution`: both sides lose the same quantity, and nothing else changes. */
  function AfterExecution(p: MatchingPair, executed: Quantity): (r: MatchingPair)
    ensures r.buy.remainQuantity + executed == p.buy.remainQuantity
    ensures r.sell.remainQuantity + executed == p.sell.remainQuantity
    ensures r.buy.(remainQuantity := p.buy.remainQuantity) == p.buy
    ensures r.sell.(remainQuantity := p.sell.remainQuantity) == p.sell
  {
    MatchingPair(BookEntries.AfterExecution(p.buy, executed), BookEntries.AfterExecution(p.sell, executed))
  }

  // ---------------------------------------------------------------- lemmas

  /** Every pair is exactly one of matchable and not matchable. */
  lemma MatchabilityIsExclusive(p: MatchingPair)
    ensures IsPriceMatchable(p) != IsNotPriceMatchable(p)
    ensures IsPriceMatchable(p) <==> p.sell.requestedPrice <= p.buy.requestedPrice
  {
  }

  /** Executing the executable quantity exhausts at least one side and leaves
      neither side negative; the other side keeps the difference. */
  lemma {:induction false} ExecutionExhaustsOneSide(p: MatchingPair)
    requires ExecutableQuantity(p).Ok?
    ensures var q := ExecutableQuantity(p).value;
      var after := AfterExecution(p, q);
      (!HasQuantity(after.buy) || !HasQuantity(after.sell)) &&
      after.buy.remainQuantity >= 0 && after.sell.remainQuantity >= 0 &&
      (after.buy.remainQuantity == 0 || after.sell.remainQuantity == 0)
  {
    var q := ExecutableQuantity(p).value;
    assert q == p.buy.remainQuantity || q == p.sell.remainQuantity;
  }
}
