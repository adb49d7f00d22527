/** `TradeService.match`: the older matching loop. It pops the best pair of a
    stock from the order book, stops when a side is empty or the pair does
    not cross, and otherwise settles the pair and pushes the remainders
    back, all in one transaction over the whole loop. Unlike
    `matchSinglePair` it charges no cash to the buyer (the cash left the
    buyer when the order was placed), does not re-aggregate the parent
    orders, publishes no event, and inserts the trade without checking for
    an existing one. */
module TradeMatching {
  import opened Values
  import opened BookEntries
  import opened Matching
  import opened Ledger
  import opened Settlement
  import opened OrderBook

  /** One pass of the loop body against the tables: load the two lines, give
      the buyer the shares, pay the seller and take the shares, execute both
      lines, insert the trade. */
  function MatchOnce(t: Tables, p: MatchingPair, now: int): Result<Tables>
  {
    var q :- ExecutableQuantity(p);
    var price :- NewMoney(Some(p.sell.requestedPrice));
    var buy :- LoadLine(t, p.buy);
    var sell :- LoadLine(t, p.sell);
    var buyer := buy.portfolio.value;
    var t1 :- AddShares(t, buyer, buy.stock, q, price, now);
    var seller := sell.portfolio.value;
    var t2 :- SettleSeller(t1, seller, buy.stock, q, price, now);
    var t3 :- ExecuteLine(t2, p.buy.id, q, price, now);
    var t4 :- ExecuteLine(t3, p.sell.id, q, price, now);
    InsertTrade(t4, p, buy.stock, price, q, now)
  }

  /** The pairs of one `match` call settled in turn; the first failure stops
      the fold. */
  function MatchAll(t: Tables, pairs: seq<MatchingPair>, now: int): Result<Tables>
    decreases |pairs|
  {
    if |pairs| == 0 then Ok(t)
    else
      var before :- MatchAll(t, pairs[..|pairs| - 1], now);
      MatchOnce(before, pairs[|pairs| - 1], now)
  }

  /** `match`: the loop over the order book. The database is written only
      when the loop ends without a failure; a failure rolls it back, while
      the book keeps whatever was popped and pushed, since the cache is not
      part of the transaction. `settled` lists the pairs that were settled,
      in order. */
  method Match(db: Database, book: RedisBook, code: string, now: int) returns (r: Result<()>, ghost settled: seq<MatchingPair>)
    requires book.Valid()
    modifies db, book
    ensures book.Valid()
    ensures r.Err? ==> db.tables == old(db.tables)
    ensures r.Ok? ==> MatchAll(old(db.tables), settled, now) == Ok(db.tables)
    ensures r.Ok? ==> Quiet(book.zsets, code)
  {
    var t := db.tables;
    settled := [];
    SellKeyIsNeverBuyKey(code, code);
    while true
      invariant book.Valid()
      invariant db.tables == old(db.tables)
      invariant MatchAll(old(db.tables), settled, now) == Ok(t)
      decreases |book.Side(BuyKey(code))| + |book.Side(SellKey(code))|
    {
      ghost var buys := book.Side(BuyKey(code));
      ghost var sells := book.Side(SellKey(code));
      assert ScoredBySide(BuyKey(code), buys) && ScoredBySide(SellKey(code), sells);
      var candidate := book.PopMatchPair(code);
      if candidate.None? {
        break;
      }
      var pair := candidate.value;
      if IsNotPriceMatchable(pair) {
        book.PushBack(pair);
        BuyScoreOnBuySide(code, buys, pair.buy);
        SellScoreOnSellSide(code, sells, pair.sell);
        RemoveThenAddRestores(buys, pair.buy);
        RemoveThenAddRestores(sells, pair.sell);
        assert book.Side(BuyKey(code)) == buys && book.Side(SellKey(code)) == sells;
        assert IsHighest(buys, pair.buy) && IsLowest(sells, pair.sell);
        break;
      }
      var next := MatchOnce(t, pair, now);
      if next.Err? {
        return Err(next.failure), settled;
      }
      MatchOnceNeedsQuantity(t, pair, now);
      MatchAllStep(old(db.tables), settled, pair, now);
      t := next.value;
      settled := settled + [pair];

      // push back what is left of each side; at least one side is used up
      var after := Matching.AfterExecution(pair, ExecutableQuantity(pair).value);
      ExecutionExhaustsOneSide(pair);
      ghost var popped := |book.Side(BuyKey(code))| + |book.Side(SellKey(code))|;
      assert popped + 2 == |buys| + |sells|;
      assert after.buy.stockCode == code && after.sell.stockCode == code;
      if HasQuantity(after.sell) {
        book.PushSellOrderDTO(after.sell);
      }
      if HasQuantity(after.buy) {
        book.PushBuyOrderDTO(after.buy);
      }
      assert |book.Side(BuyKey(code))| + |book.Side(SellKey(code))| <= popped + 1;
    }
    db.tables := t;
    r := Ok(());
  }

  // ---------------------------------------------------------------- lemmas

  /** Settling one more pair extends the fold by one pass. */
  lemma MatchAllStep(t: Tables, done: seq<MatchingPair>, p: MatchingPair, now: int)
    requires MatchAll(t, done, now).Ok?
    ensures MatchAll(t, done + [p], now) == MatchOnce(MatchAll(t, done, now).value, p, now)
  {
    assert (done + [p])[..|done|] == done;
  }

  /** A pass that settles has a non-negative executable quantity. */
  lemma MatchOnceNeedsQuantity(t: Tables, p: MatchingPair, now: int)
    requires MatchOnce(t, p, now).Ok?
    ensures ExecutableQuantity(p).Ok?
  {
  }

  /** A member of a buy side carries its buy score. */
  lemma BuyScoreOnBuySide(code: string, z: SortedSet, e: BookEntry)
    requires ScoredBySide(BuyKey(code), z) && e in z && e.stockCode == code
    ensures z[e] == BuyScore(e)
  {
    SellKeyIsNeverBuyKey(code, code);
  }

  /** A member of a sell side carries its sell score. */
  lemma SellScoreOnSellSide(code: string, z: SortedSet, e: BookEntry)
    requires ScoredBySide(SellKey(code), z) && e in z && e.stockCode == code
    ensures z[e] == SellScore(e)
  {
    SellKeyIsNeverBuyKey(code, code);
  }

  /** A pass keeps the tables valid. */
  lemma {:induction false} MatchOnceKeepsValid(t: Tables, p: MatchingPair, now: int)
    requires Valid(t) && MatchOnce(t, p, now).Ok?
    ensures Valid(MatchOnce(t, p, now).value)
  {
    var q := ExecutableQuantity(p).value;
    var price: Money := p.sell.requestedPrice;
    var buy := t.lines[p.buy.id];
    var sell := t.lines[p.sell.id];
    var buyer := buy.portfolio.value;
    var t1 := AddShares(t, buyer, buy.stock, q, price, now).value;
    AddSharesKeepsValid(t, buyer, buy.stock, q, price, now);
    var seller := sell.portfolio.value;
    var t2 := SettleSeller(t1, seller, buy.stock, q, price, now).value;
    SettleSellerKeepsValid(t1, seller, buy.stock, q, price, now);
    var t3 := ExecuteLine(t2, p.buy.id, q, price, now).value;
    ExecuteLineKeepsValid(t2, p.buy.id, q, price, now);
    var t4 := ExecuteLine(t3, p.sell.id, q, price, now).value;
    ExecuteLineKeepsValid(t3, p.sell.id, q, price, now);
    InsertTradeKeepsValid(t4, p, buy.stock, price, q, now);
  }

  /** A whole `match` call keeps the tables valid. */
  lemma {:induction false} MatchAllKeepsValid(t: Tables, pairs: seq<MatchingPair>, now: int)
    requires Valid(t) && MatchAll(t, pairs, now).Ok?
    ensures Valid(MatchAll(t, pairs, now).value)
    decreases |pairs|
  {
    if |pairs| > 0 {
      var init := pairs[..|pairs| - 1];
      MatchAllKeepsValid(t, init, now);
      MatchOnceKeepsValid(MatchAll(t, init, now).value, pairs[|pairs| - 1], now);
    }
  }

  /** A pass stores exactly one new trade, for the pair's two lines, with
      the executed quantity and the sell entry's price. */
  lemma {:induction false} MatchOnceInsertsTrade(t: Tables, p: MatchingPair, now: int, q: Quantity)
    requires MatchOnce(t, p, now).Ok? && ExecutableQuantity(p) == Ok(q)
    ensures (p.buy.id, p.sell.id) !in t.trades
    ensures var r := MatchOnce(t, p, now).value; var key := (p.buy.id, p.sell.id);
      key in r.trades && r.trades == t.trades[key := r.trades[key]] &&
      r.trades[key].quantity == q && r.trades[key].price == p.sell.requestedPrice
  {
    var price: Money := p.sell.requestedPrice;
    var buy := t.lines[p.buy.id];
    var sell := t.lines[p.sell.id];
    var buyer := buy.portfolio.value;
    var t1 := AddShares(t, buyer, buy.stock, q, price, now).value;
    var seller := sell.portfolio.value;
    var t2 := SettleSeller(t1, seller, buy.stock, q, price, now).value;
    var t3 := ExecuteLine(t2, p.buy.id, q, price, now).value;
    var t4 := ExecuteLine(t3, p.sell.id, q, price, now).value;
    assert t4.trades == t.trades;
  }

  /** `TradeService` inserts without looking for an existing trade: a pair
      whose trade is already stored fails, on the unique constraint if no
      earlier step fails first. */
  lemma {:induction false} ExistingTradeFails(t: Tables, p: MatchingPair, now: int)
    requires (p.buy.id, p.sell.id) in t.trades
    ensures MatchOnce(t, p, now).Err?
  {
    if MatchOnce(t, p, now).Ok? {
      MatchOnceInsertsTrade(t, p, now, ExecutableQuantity(p).value);
    }
  }

  /** Settling the same pair twice in one `match` call breaks the unique
      constraint on trades, so the whole call fails and rolls back. */
  lemma {:induction false} SamePairTwiceFails(t: Tables, p: MatchingPair, now: int)
    ensures MatchAll(t, [p, p], now).Err?
  {
    assert [p, p][..1] == [p];
    assert [p][..0] == [];
    assert MatchAll(t, [], now) == Ok(t);
    var first := MatchAll(t, [p], now);
    assert first == MatchOnce(t, p, now);
    if first.Ok? {
      MatchOnceInsertsTrade(t, p, now, ExecutableQuantity(p).value);
      ExistingTradeFails(first.value, p, now);
      assert MatchAll(t, [p, p], now) == MatchOnce(first.value, p, now);
    }
  }

  /** The buyer is not charged by a pass (the cash left the buyer's available
      cash when the order was placed), while the seller is credited the
      cost. */
  lemma {:induction false} OnlySellerCashMoves(t: Tables, p: MatchingPair, now: int, q: Quantity, buyer: Id, seller: Id)
    requires MatchOnce(t, p, now).Ok? && ExecutableQuantity(p) == Ok(q)
    requires p.buy.id in t.lines && t.lines[p.buy.id].portfolio == Some(buyer)
    requires p.sell.id in t.lines && t.lines[p.sell.id].portfolio == Some(seller)
    requires buyer != seller
    ensures var r := MatchOnce(t, p, now).value;
      buyer in t.portfolios && seller in t.portfolios && buyer in r.portfolios && seller in r.portfolios
    ensures var r := MatchOnce(t, p, now).value;
      r.portfolios[buyer] == t.portfolios[buyer] &&
      r.portfolios[seller].available == t.portfolios[seller].available + p.sell.requestedPrice * q &&
      r.portfolios[seller].reserved == t.portfolios[seller].reserved
  {
    var price: Money := p.sell.requestedPrice;
    var buy := t.lines[p.buy.id];
    var t1 := AddShares(t, buyer, buy.stock, q, price, now).value;
    var t2 := SettleSeller(t1, seller, buy.stock, q, price, now).value;
    var t3 := ExecuteLine(t2, p.buy.id, q, price, now).value;
    var t4 := ExecuteLine(t3, p.sell.id, q, price, now).value;
    assert t1.portfolios == t.portfolios;
    assert t4.portfolios == t2.portfolios;
  }
}
