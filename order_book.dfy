/** `RedisStockOrderService`: the order book, one sorted set per stock and side.
    A sorted set maps each member (a book entry) to its score; adding a member
    that is already present only changes its score, as `ZADD` does. Scores are
    whole numbers here, and members are the entries themselves rather than
    their JSON text. */
module OrderBook {
  import opened Values
  import opened BookEntries
  import opened Matching
  import StockOrders

  /** The weight that puts the price ahead of the creation time in a score. */
  const PRICE_WEIGHT: int := 1_000_000_000

  const BUY_PREFIX: string := "BUY_QUEUE_"
  const SELL_PREFIX: string := "SELL_QUEUE_"

  /** `getBuyKey`. */
  function BuyKey(stockCode: string): string
  {
    BUY_PREFIX + stockCode
  }

  /** `getSellKey`. */
  function SellKey(stockCode: string): string
  {
    SELL_PREFIX + stockCode
  }

  /** The score `pushBuyOrder` gives an entry: the negated price, weighted,
      minus the creation time. */
  function BuyScore(e: BookEntry): int
  {
    -e.requestedPrice * PRICE_WEIGHT - e.createdAt
  }

  /** The score `pushSellOrder` gives an entry: the price, weighted, plus the
      creation time. */
  function SellScore(e: BookEntry): int
  {
    e.requestedPrice * PRICE_WEIGHT + e.createdAt
  }

  type SortedSet = map<BookEntry, int>

  /** `ZADD`: the member is present afterwards with the given score, and every
      other member keeps its score. */
  function Add(z: SortedSet, e: BookEntry, score: int): (r: SortedSet)
    ensures r.Keys == z.Keys + {e} && r[e] == score
    ensures forall m | m in z && m != e :: r[m] == z[m]
    ensures |r| <= |z| + 1
  {
    z[e := score]
  }

  /** `ZREM`: the member is gone and every other member keeps its score. */
  function Remove(z: SortedSet, e: BookEntry): (r: SortedSet)
    ensures r.Keys == z.Keys - {e}
    ensures forall m | m in r :: r[m] == z[m]
    ensures e in z ==> |r| == |z| - 1
    ensures e !in z ==> r == z
  {
    z - {e}
  }

  /** A member whose score no other member exceeds. */
  predicate IsHighest(z: SortedSet, b: BookEntry)
  {
    b in z && forall e | e in z :: z[e] <= z[b]
  }

  /** A member whose score no other member undercuts. */
  predicate IsLowest(z: SortedSet, b: BookEntry)
  {
    b in z && forall e | e in z :: z[b] <= z[e]
  }

  /** Every non-empty sorted set has a member with the highest score. */
  lemma {:induction false} HighestExists(z: SortedSet)
    requires |z| > 0
    ensures exists b :: IsHighest(z, b)
    decreases |z|
  {
    var k :| k in z;
    var rest := Remove(z, k);
    if |rest| == 0 {
      assert forall e | e in z :: e == k;
      assert IsHighest(z, k);
    } else {
      HighestExists(rest);
      var b :| IsHighest(rest, b);
      if z[k] >= z[b] {
        assert IsHighest(z, k);
      } else {
        assert IsHighest(z, b);
      }
    }
  }

  /** Every non-empty sorted set has a member with the lowest score. */
  lemma {:induction false} LowestExists(z: SortedSet)
    requires |z| > 0
    ensures exists b :: IsLowest(z, b)
    decreases |z|
  {
    var k :| k in z;
    var rest := Remove(z, k);
    if |rest| == 0 {
      assert forall e | e in z :: e == k;
      assert IsLowest(z, k);
    } else {
      LowestExists(rest);
      var b :| IsLowest(rest, b);
      if z[k] <= z[b] {
        assert IsLowest(z, k);
      } else {
        assert IsLowest(z, b);
      }
    }
  }

  /** Every member of a sorted set under a key carries the score of that key's
      side, and its own stock code is the one the key was built from. */
  predicate ScoredBySide(key: string, z: SortedSet)
  {
    forall e | e in z ::
      (key == BuyKey(e.stockCode) && z[e] == BuyScore(e)) ||
      (key == SellKey(e.stockCode) && z[e] == SellScore(e))
  }

  /** The redis server's sorted sets, by key. */
  class RedisBook {
    var zsets: map<string, SortedSet>

    /** A key that does not exist reads as an empty set. */
    function Side(key: string): SortedSet
      reads this
    {
      if key in zsets then zsets[key] else map[]
    }

    /** Every entry was pushed by one of the push operations below. */
    predicate Valid()
      reads this
    {
      forall key | key in zsets :: ScoredBySide(key, zsets[key])
    }

    constructor ()
      ensures zsets == map[] && Valid()
    {
      zsets := map[];
    }

    /** The push behind `pushBuyOrder`, for an entry already projected: a
        `ZADD` under the entry's own buy key with the buy score. */
    method PushBuyOrderDTO(e: BookEntry)
      requires Valid()
      modifies this
      ensures Valid()
      ensures zsets == old(zsets)[BuyKey(e.stockCode) := Add(old(Side(BuyKey(e.stockCode))), e, BuyScore(e))]
    {
      var key := BuyKey(e.stockCode);
      var z := Add(Side(key), e, BuyScore(e));
      zsets := zsets[key := z];
      assert ScoredBySide(key, z);
    }

    /** The push behind `pushSellOrder`, for an entry already projected. */
    method PushSellOrderDTO(e: BookEntry)
      requires Valid()
      modifies this
      ensures Valid()
      ensures zsets == old(zsets)[SellKey(e.stockCode) := Add(old(Side(SellKey(e.stockCode))), e, SellScore(e))]
    {
      var key := SellKey(e.stockCode);
      var z := Add(Side(key), e, SellScore(e));
      zsets := zsets[key := z];
      assert ScoredBySide(key, z);
    }

    /** `pushBuyOrder`: project the line and add it to its stock's buy side. */
    method PushBuyOrder(l: StockOrders.StockOrderRow, stockCode: string)
      requires Valid()
      modifies this
      ensures Valid()
      ensures zsets == old(zsets)[BuyKey(stockCode) := Add(old(Side(BuyKey(stockCode))), ToDTO(l, stockCode), BuyScore(ToDTO(l, stockCode)))]
    {
      PushBuyOrderDTO(ToDTO(l, stockCode));
    }

    /** `pushSellOrder`: project the line and add it to its stock's sell side. */
    method PushSellOrder(l: StockOrders.StockOrderRow, stockCode: string)
      requires Valid()
      modifies this
      ensures Valid()
      ensures zsets == old(zsets)[SellKey(stockCode) := Add(old(Side(SellKey(stockCode))), ToDTO(l, stockCode), SellScore(ToDTO(l, stockCode)))]
    {
      PushSellOrderDTO(ToDTO(l, stockCode));
    }

    /** `popBestBuyOrder`: take the member with the highest score off the buy
        side, which under the buy score is the cheapest bid. An empty side
        gives nothing and changes nothing. */
    method PopBestBuyOrder(stockCode: string) returns (r: Option<BookEntry>)
      requires Valid()
      modifies this
      ensures Valid()
      ensures r.None? <==> |old(Side(BuyKey(stockCode)))| == 0
      ensures r.None? ==> zsets == old(zsets)
      ensures r.Some? ==> IsHighest(old(Side(BuyKey(stockCode))), r.value)
      ensures r.Some? ==> zsets == old(zsets)[BuyKey(stockCode) := Remove(old(Side(BuyKey(stockCode))), r.value)]
      ensures r.Some? ==> r.value.stockCode == stockCode
      ensures r.Some? ==> forall e | e in old(Side(BuyKey(stockCode))) :: BuyScore(e) <= BuyScore(r.value)
    {
      var key := BuyKey(stockCode);
      var z := Side(key);
      if |z| == 0 {
        return None;
      }
      HighestExists(z);
      var best :| IsHighest(z, best);
      assert ScoredBySide(key, z);
      SellKeyIsNeverBuyKey(stockCode, best.stockCode);
      BuyKeyIsInjective(best.stockCode, stockCode);
      forall e | e in z
        ensures BuyScore(e) <= BuyScore(best)
      {
        SellKeyIsNeverBuyKey(stockCode, e.stockCode);
        assert z[e] == BuyScore(e) && z[best] == BuyScore(best);
      }
      zsets := zsets[key := Remove(z, best)];
      r := Some(best);
    }

    /** `popBestSellOrder`: take the member with the lowest score off the sell
        side, which is the cheapest ask. */
    method PopBestSellOrder(stockCode: string) returns (r: Option<BookEntry>)
      requires Valid()
      modifies this
      ensures Valid()
      ensures r.None? <==> |old(Side(SellKey(stockCode)))| == 0
      ensures r.None? ==> zsets == old(zsets)
      ensures r.Some? ==> IsLowest(old(Side(SellKey(stockCode))), r.value)
      ensures r.Some? ==> zsets == old(zsets)[SellKey(stockCode) := Remove(old(Side(SellKey(stockCode))), r.value)]
      ensures r.Some? ==> r.value.stockCode == stockCode
      ensures r.Some? ==> forall e | e in old(Side(SellKey(stockCode))) :: SellScore(r.value) <= SellScore(e)
    {
      var key := SellKey(stockCode);
      var z := Side(key);
      if |z| == 0 {
        return None;
      }
      LowestExists(z);
      var best :| IsLowest(z, best);
      assert ScoredBySide(key, z);
      SellKeyIsNeverBuyKey(best.stockCode, stockCode);
      SellKeyIsInjective(best.stockCode, stockCode);
      forall e | e in z
        ensures SellScore(best) <= SellScore(e)
      {
        SellKeyIsNeverBuyKey(e.stockCode, stockCode);
        assert z[e] == SellScore(e) && z[best] == SellScore(best);
      }
      zsets := zsets[key := Remove(z, best)];
      r := Some(best);
    }

    /** `removeBuyOrder`: a `ZREM` of the entry from its stock's buy side. */
    method RemoveBuyOrder(e: BookEntry)
      requires Valid()
      modifies this
      ensures Valid()
      ensures zsets == old(zsets)[BuyKey(e.stockCode) := Remove(old(Side(BuyKey(e.stockCode))), e)]
    {
      var key := BuyKey(e.stockCode);
      zsets := zsets[key := Remove(Side(key), e)];
    }

    /** `removeSellOrder`: a `ZREM` of the entry from its stock's sell side. */
    method RemoveSellOrder(e: BookEntry)
      requires Valid()
      modifies this
      ensures Valid()
      ensures zsets == old(zsets)[SellKey(e.stockCode) := Remove(old(Side(SellKey(e.stockCode))), e)]
    {
      var key := SellKey(e.stockCode);
      zsets := zsets[key := Remove(Side(key), e)];
    }

    /** `popMatchPair`: when both sides of the stock hold an entry, pop the best
        of each; otherwise pop nothing. */
    method PopMatchPair(stockCode: string) returns (r: Option<MatchingPair>)
      requires Valid()
      modifies this
      ensures Valid()
      ensures r.None? <==> |old(Side(BuyKey(stockCode)))| == 0 || |old(Side(SellKey(stockCode)))| == 0
      ensures r.None? ==> zsets == old(zsets)
      ensures r.Some? ==> IsHighest(old(Side(BuyKey(stockCode))), r.value.buy)
      ensures r.Some? ==> IsLowest(old(Side(SellKey(stockCode))), r.value.sell)
      ensures r.Some? ==> zsets == old(zsets)[BuyKey(stockCode) := Remove(old(Side(BuyKey(stockCode))), r.value.buy)]
                                              [SellKey(stockCode) := Remove(old(Side(SellKey(stockCode))), r.value.sell)]
      ensures r.Some? ==> r.value.buy.stockCode == stockCode && r.value.sell.stockCode == stockCode
    {
      if |Side(BuyKey(stockCode))| == 0 || |Side(SellKey(stockCode))| == 0 {
        return None;
      }
      SellKeyIsNeverBuyKey(stockCode, stockCode);
      var buy := PopBestBuyOrder(stockCode);
      var sell := PopBestSellOrder(stockCode);
      r := Some(MatchingPair(buy.value, sell.value));
    }

    /** `pushBack`: both entries of the pair go back to their own sides. */
    method PushBack(p: MatchingPair)
      requires Valid()
      modifies this
      ensures Valid()
      ensures var afterBuy := old(zsets)[BuyKey(p.buy.stockCode) := Add(old(Side(BuyKey(p.buy.stockCode))), p.buy, BuyScore(p.buy))];
        zsets == afterBuy[SellKey(p.sell.stockCode) :=
          Add(if SellKey(p.sell.stockCode) in afterBuy then afterBuy[SellKey(p.sell.stockCode)] else map[], p.sell, SellScore(p.sell))]
    {
      PushBuyOrderDTO(p.buy);
      PushSellOrderDTO(p.sell);
    }
  }

  /** The best buy and the best sell entry of a stock, when both sides hold
      one, do not cross: the bid is below the ask. */
  ghost predicate Quiet(zsets: map<string, SortedSet>, stockCode: string)
  {
    var buys := if BuyKey(stockCode) in zsets then zsets[BuyKey(stockCode)] else map[];
    var sells := if SellKey(stockCode) in zsets then zsets[SellKey(stockCode)] else map[];
    |buys| == 0 || |sells| == 0 ||
    exists b, s | IsHighest(buys, b) && IsLowest(sells, s) :: IsNotPriceMatchable(MatchingPair(b, s))
  }

  // ---------------------------------------------------------------- lemmas

  /** A buy key and a sell key never coincide, so a push or a pop on one side
      never touches the other side of any stock. */
  lemma SellKeyIsNeverBuyKey(buyCode: string, sellCode: string)
    ensures BuyKey(buyCode) != SellKey(sellCode)
  {
    assert BuyKey(buyCode)[0] == 'B';
    assert SellKey(sellCode)[0] == 'S';
  }

  /** Different stocks have different buy keys. */
  lemma BuyKeyIsInjective(a: string, b: string)
    ensures BuyKey(a) == BuyKey(b) <==> a == b
  {
    if BuyKey(a) == BuyKey(b) {
      assert a == BuyKey(a)[|BUY_PREFIX|..];
      assert b == BuyKey(b)[|BUY_PREFIX|..];
    }
  }

  /** Different stocks have different sell keys. */
  lemma SellKeyIsInjective(a: string, b: string)
    ensures SellKey(a) == SellKey(b) <==> a == b
  {
    if SellKey(a) == SellKey(b) {
      assert a == SellKey(a)[|SELL_PREFIX|..];
      assert b == SellKey(b)[|SELL_PREFIX|..];
    }
  }

  /** On the sell side, a cheaper ask scores lower (and is popped first) as
      long as the two entries were created less than `PRICE_WEIGHT`
      milliseconds apart. */
  lemma {:induction false} SellPriceDominatesWithinWindow(a: BookEntry, b: BookEntry)
    requires -PRICE_WEIGHT < a.createdAt - b.createdAt < PRICE_WEIGHT
    ensures a.requestedPrice < b.requestedPrice ==> SellScore(a) < SellScore(b)
    ensures SellScore(a) <= SellScore(b) ==> a.requestedPrice <= b.requestedPrice
  {
    if a.requestedPrice < b.requestedPrice {
      assert (b.requestedPrice - a.requestedPrice) * PRICE_WEIGHT >= PRICE_WEIGHT;
    }
    if b.requestedPrice < a.requestedPrice {
      assert (a.requestedPrice - b.requestedPrice) * PRICE_WEIGHT >= PRICE_WEIGHT;
    }
  }

  /** At the same price the older entry scores lower on the sell side and
      higher on the buy side, so on both sides it is popped first. */
  lemma TimeBreaksTies(a: BookEntry, b: BookEntry)
    requires a.requestedPrice == b.requestedPrice
    ensures a.createdAt < b.createdAt <==> SellScore(a) < SellScore(b)
    ensures a.createdAt < b.createdAt <==> BuyScore(a) > BuyScore(b)
  {
  }

  /** On the buy side the highest score, which is what `popBestBuyOrder`
      takes, belongs to the LOWEST bid whenever the entries were created less
      than `PRICE_WEIGHT` milliseconds apart: the best bid is the one popped
      last. */
  lemma {:induction false} BestBuyIsLowestBid(a: BookEntry, b: BookEntry)
    requires -PRICE_WEIGHT < a.createdAt - b.createdAt < PRICE_WEIGHT
    ensures BuyScore(a) >= BuyScore(b) ==> a.requestedPrice <= b.requestedPrice
    ensures a.requestedPrice < b.requestedPrice ==> BuyScore(a) > BuyScore(b)
  {
    if b.requestedPrice < a.requestedPrice {
      assert (a.requestedPrice - b.requestedPrice) * PRICE_WEIGHT >= PRICE_WEIGHT;
    }
    if a.requestedPrice < b.requestedPrice {
      assert (b.requestedPrice - a.requestedPrice) * PRICE_WEIGHT >= PRICE_WEIGHT;
    }
  }

  /** When the creation times are `PRICE_WEIGHT` milliseconds (about eleven
      and a half days) or more apart, time outweighs price: here a sell
      entry asking 1 scores above one asking 2 because it is newer. */
  lemma TimeOutweighsPriceOutsideWindow()
    ensures var cheap := BookEntry(1, "A", 1, 1, 2 * PRICE_WEIGHT);
      var dear := BookEntry(2, "A", 2, 1, 0);
      cheap.requestedPrice < dear.requestedPrice && SellScore(cheap) > SellScore(dear)
  {
  }

  /** A line pushed into an empty buy side is the only member afterwards, and
      it is the entry a pop returns, carrying the line's stock code, open
      quantity and price. */
  lemma PushIntoEmptySide(l: StockOrders.StockOrderRow, stockCode: string)
    ensures var side := Add(map[], ToDTO(l, stockCode), BuyScore(ToDTO(l, stockCode)));
      |side| == 1 &&
      forall b | IsHighest(side, b) ::
        b.stockCode == stockCode && b.remainQuantity == l.remained && b.requestedPrice == l.requestedPrice
  {
  }

  /** `pushBack` followed by `popMatchPair` in the same, otherwise empty, book
      gives back the same pair. */
  lemma {:induction false} PushBackThenPop(p: MatchingPair, code: string)
    requires p.buy.stockCode == code && p.sell.stockCode == code
    ensures var buySide := Add(map[], p.buy, BuyScore(p.buy));
      var sellSide := Add(map[], p.sell, SellScore(p.sell));
      (forall b | IsHighest(buySide, b) :: b == p.buy) && (forall s | IsLowest(sellSide, s) :: s == p.sell)
  {
  }

  /** Popping a member and adding it back with its score restores the set. */
  lemma RemoveThenAddRestores(z: SortedSet, e: BookEntry)
    requires e in z
    ensures Add(Remove(z, e), e, z[e]) == z
  {
    assert Add(Remove(z, e), e, z[e]).Keys == z.Keys;
  }
}
