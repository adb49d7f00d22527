/** `PortfolioService.createPortfolio`: a user gets at most one portfolio of
    each type. The duplicate check comes before the user is even looked up. */
module PortfolioService {
  import opened Values
  import Portfolios
  import opened Ledger

  /** `createPortfolio`: refuse a second portfolio of the type, then look
      up the user, then save a new empty portfolio under the next id and
      append it to the user's list. */
  function CreatePortfolio(t: Tables, userId: Id, portfolioType: Portfolios.PortfolioType, now: int): (r: Result<Tables>)
    ensures r.Ok? <==> (userId, portfolioType) !in t.portfolioIndex && userId in t.users
    ensures (userId, portfolioType) in t.portfolioIndex ==> r == Err(Failure(IllegalState, DuplicatePortfolio))
    ensures (userId, portfolioType) !in t.portfolioIndex && userId !in t.users ==> r == Err(Failure(IllegalArgument, UserNotFound))
  {
    if (userId, portfolioType) in t.portfolioIndex then Err(Failure(IllegalState, DuplicatePortfolio))
    else if userId !in t.users then Err(Failure(IllegalArgument, UserNotFound))
    else
      var created := Portfolios.CreatePortfolio(t.nextId, t.users[userId], portfolioType, now, None);
      Ok(t.(portfolios := t.portfolios[t.nextId := created.0],
            portfolioIndex := t.portfolioIndex[(userId, portfolioType) := t.nextId],
            users := t.users[userId := created.1],
            nextId := t.nextId + 1))
  }

  // ---------------------------------------------------------------- lemmas

  /** A created portfolio is empty, is found by the lookup for its user and
      type (`findPortfolioWithLock`), and is appended to its user's list of
      portfolios. */
  lemma {:induction false} CreatedPortfolioIsFound(t: Tables, userId: Id, portfolioType: Portfolios.PortfolioType, now: int)
    requires Valid(t) && CreatePortfolio(t, userId, portfolioType, now).Ok?
    ensures var r := CreatePortfolio(t, userId, portfolioType, now).value;
      PortfolioOf(r, userId, portfolioType).Ok? && userId in r.users
    ensures var r := CreatePortfolio(t, userId, portfolioType, now).value;
      var p := PortfolioOf(r, userId, portfolioType).value;
      p.user == userId && p.portfolioType == portfolioType && p.available == 0 && p.reserved == 0 &&
      r.users[userId].portfolios == t.users[userId].portfolios + [t.nextId]
    ensures var r := CreatePortfolio(t, userId, portfolioType, now).value;
      forall id | id in t.portfolios :: id in r.portfolios && r.portfolios[id] == t.portfolios[id]
  {
    assert t.nextId !in t.portfolios;
  }

  /** Creating the same portfolio twice fails the second time, whatever
      happens in between that leaves the first one in place. */
  lemma {:induction false} SecondPortfolioOfTypeFails(t: Tables, userId: Id, portfolioType: Portfolios.PortfolioType, now: int, later: int)
    requires CreatePortfolio(t, userId, portfolioType, now).Ok?
    ensures CreatePortfolio(CreatePortfolio(t, userId, portfolioType, now).value, userId, portfolioType, later) ==
            Err(Failure(IllegalState, DuplicatePortfolio))
  {
  }

  /** Creating a portfolio keeps the tables valid; in particular each user
      still has at most one portfolio of each type. */
  lemma {:induction false} CreatePortfolioKeepsValid(t: Tables, userId: Id, portfolioType: Portfolios.PortfolioType, now: int)
    requires Valid(t) && CreatePortfolio(t, userId, portfolioType, now).Ok?
    ensures Valid(CreatePortfolio(t, userId, portfolioType, now).value)
  {
    var r := CreatePortfolio(t, userId, portfolioType, now).value;
    var key := (userId, portfolioType);
    assert t.nextId !in t.portfolios;
    assert PortfolioKey(r.portfolios[t.nextId]) == key;
    forall id | id in r.portfolios
      ensures PortfolioKey(r.portfolios[id]) in r.portfolioIndex && r.portfolioIndex[PortfolioKey(r.portfolios[id])] == id
    {
      if id != t.nextId {
        assert PortfolioKey(t.portfolios[id]) in t.portfolioIndex;
        assert PortfolioKey(t.portfolios[id]) != key;
      }
    }
    assert PortfoliosIndexed(r);
  }
}
