// The statistics panel: money spent, earned and netted over the whole
// collection, and how many items have each status.

module Stats {
  import opened Types
  import opened Seqs
  import Card

  function IsSold(): Item -> bool {
    (x: Item) => x.status == Sold
  }

  function IsSoldWithPrice(): Item -> bool {
    (x: Item) => x.status == Sold && HasSellPrice(x)
  }

  function HasStatus(s: Status): Item -> bool {
    (x: Item) => x.status == s
  }

  /** `reduce((sum, item) => sum + item.purchasePrice, 0)`. */
  function SumPurchase(s: seq<Item>): int {
    if s == [] then 0 else s[0].purchasePrice + SumPurchase(s[1..])
  }

  /** `reduce((sum, item) => sum + (item.sellPrice || 0), 0)`. */
  function SumSell(s: seq<Item>): int {
    if s == [] then 0 else s[0].sellPrice.GetOr(0) + SumSell(s[1..])
  }

  function TotalSpent(items: seq<Item>): int {
    SumPurchase(items)
  }

  /** Sell prices of the Sold items whose sell price is truthy. */
  function TotalEarned(items: seq<Item>): int {
    SumSell(Filter(items, IsSoldWithPrice()))
  }

  /** Earnings less the purchase prices of every Sold item, priced or not. */
  function TotalProfit(items: seq<Item>): int {
    TotalEarned(items) - SumPurchase(Filter(items, IsSold()))
  }

  /** `items.filter(item => item.status === s).length`. */
  function Count(items: seq<Item>, s: Status): (n: nat)
    ensures n <= |items|
  {
    |Filter(items, HasStatus(s))|
  }

  lemma {:induction false} SumPurchaseAppend(a: seq<Item>, b: seq<Item>)
    ensures SumPurchase(a + b) == SumPurchase(a) + SumPurchase(b)
  {
    if a == [] {
      assert a + b == b;
    } else {
      assert (a + b)[1..] == a[1..] + b;
      SumPurchaseAppend(a[1..], b);
    }
  }

  /** What one item adds to the net profit: its card profit, or minus its price when it is Sold without a truthy sell price. */
  function NetContribution(x: Item): int {
    match Card.Profit(x)
    case Some(p) => p
    case None => if x.status == Sold then -x.purchasePrice else 0
  }

  function SumNet(s: seq<Item>): int {
    if s == [] then 0 else NetContribution(s[0]) + SumNet(s[1..])
  }

  lemma PurchaseOfFilterCons(s: seq<Item>, keep: Item -> bool)
    requires s != []
    ensures SumPurchase(Filter(s, keep)) ==
              (if keep(s[0]) then s[0].purchasePrice else 0) + SumPurchase(Filter(s[1..], keep))
  {
    var f, rest := Filter(s, keep), Filter(s[1..], keep);
    if keep(s[0]) {
      assert f == [s[0]] + rest;
      assert f[0] == s[0] && f[1..] == rest;
    } else {
      assert f == rest;
    }
  }

  lemma SellOfFilterCons(s: seq<Item>, keep: Item -> bool)
    requires s != []
    ensures SumSell(Filter(s, keep)) ==
              (if keep(s[0]) then s[0].sellPrice.GetOr(0) else 0) + SumSell(Filter(s[1..], keep))
  {
    var f, rest := Filter(s, keep), Filter(s[1..], keep);
    if keep(s[0]) {
      assert f == [s[0]] + rest;
      assert f[0] == s[0] && f[1..] == rest;
    } else {
      assert f == rest;
    }
  }

  lemma NetOfFilterCons(s: seq<Item>, keep: Item -> bool)
    requires s != []
    ensures SumNet(Filter(s, keep)) ==
              (if keep(s[0]) then NetContribution(s[0]) else 0) + SumNet(Filter(s[1..], keep))
  {
    var f, rest := Filter(s, keep), Filter(s[1..], keep);
    if keep(s[0]) {
      assert f == [s[0]] + rest;
      assert f[0] == s[0] && f[1..] == rest;
    } else {
      assert f == rest;
    }
  }

  /** The net profit is the sum of the per-item card profits, less the price of every Sold item without a sell price. */
  lemma {:induction false} ProfitIsSumOfContributions(items: seq<Item>)
    ensures TotalProfit(items) == SumNet(items)
  {
    if items != [] {
      ProfitIsSumOfContributions(items[1..]);
      SellOfFilterCons(items, IsSoldWithPrice());
      PurchaseOfFilterCons(items, IsSold());
    }
  }

  /** When every Sold item was sold for what it cost, the net profit is zero. */
  lemma {:induction false} BreakEvenMeansZeroProfit(items: seq<Item>)
    requires forall i :: 0 <= i < |items| && items[i].status == Sold ==>
               items[i].sellPrice == Some(items[i].purchasePrice)
    ensures TotalProfit(items) == 0
  {
    ProfitIsSumOfContributions(items);
    BreakEvenSum(items);
  }

  lemma {:induction false} BreakEvenSum(items: seq<Item>)
    requires forall i :: 0 <= i < |items| && items[i].status == Sold ==>
               items[i].sellPrice == Some(items[i].purchasePrice)
    ensures SumNet(items) == 0
  {
    if items != [] {
      BreakEvenSum(items[1..]);
    }
  }

  /** Items that are not Sold change neither the earnings nor the net profit. */
  lemma {:induction false} OnlySoldItemsCount(items: seq<Item>)
    ensures TotalEarned(Filter(items, IsSold())) == TotalEarned(items)
    ensures TotalProfit(Filter(items, IsSold())) == TotalProfit(items)
  {
    EarnedOfSold(items);
    ProfitIsSumOfContributions(items);
    ProfitIsSumOfContributions(Filter(items, IsSold()));
    NetOfSold(items);
  }

  lemma {:induction false} EarnedOfSold(items: seq<Item>)
    ensures SumSell(Filter(Filter(items, IsSold()), IsSoldWithPrice())) == SumSell(Filter(items, IsSoldWithPrice()))
  {
    if items != [] {
      EarnedOfSold(items[1..]);
      var x := items[0];
      var sold := Filter(items, IsSold());
      SellOfFilterCons(items, IsSoldWithPrice());
      if IsSold()(x) {
        assert sold[0] == x && sold[1..] == Filter(items[1..], IsSold());
        SellOfFilterCons(sold, IsSoldWithPrice());
      } else {
        assert sold == Filter(items[1..], IsSold());
      }
    }
  }

  lemma {:induction false} NetOfSold(items: seq<Item>)
    ensures SumNet(Filter(items, IsSold())) == SumNet(items)
  {
    if items != [] {
      NetOfSold(items[1..]);
      NetOfFilterCons(items, IsSold());
    }
  }

  /** Sold items whose sell price is absent or zero would add nothing, so the earnings are the sell prices of all Sold items. */
  lemma {:induction false} EarnedSumsSoldSellPrices(items: seq<Item>)
    ensures TotalEarned(items) == SumSell(Filter(items, IsSold()))
  {
    if items != [] {
      EarnedSumsSoldSellPrices(items[1..]);
      SellOfFilterCons(items, IsSoldWithPrice());
      SellOfFilterCons(items, IsSold());
    }
  }

  /** Every item has exactly one of the four statuses, so the four counts add up to the number of items. */
  lemma {:induction false} CountsPartition(items: seq<Item>)
    ensures Count(items, Owned) + Count(items, Wishlist) + Count(items, ForSale) + Count(items, Sold) == |items|
  {
    if items != [] {
      CountsPartition(items[1..]);
    }
  }

  /** What was spent splits by status into the purchase prices of each status' items. */
  lemma {:induction false} SpentSplitsByStatus(items: seq<Item>)
    ensures TotalSpent(items) ==
      SumPurchase(Filter(items, HasStatus(Owned))) + SumPurchase(Filter(items, HasStatus(Wishlist)))
      + SumPurchase(Filter(items, HasStatus(ForSale))) + SumPurchase(Filter(items, HasStatus(Sold)))
  {
    if items != [] {
      SpentSplitsByStatus(items[1..]);
      PurchaseOfFilterCons(items, HasStatus(Owned));
      PurchaseOfFilterCons(items, HasStatus(Wishlist));
      PurchaseOfFilterCons(items, HasStatus(ForSale));
      PurchaseOfFilterCons(items, HasStatus(Sold));
    }
  }

  datatype Trend = Up | Down

  /** The panel's figures. */
  datatype Summary = Summary(
    totalItems: nat,
    spent: int,
    earned: int,
    profit: int,
    trend: Trend,
    owned: nat,
    wishlist: nat,
    forSale: nat,
    sold: nat)

  function Summarize(items: seq<Item>): (s: Summary)
    ensures s.owned + s.wishlist + s.forSale + s.sold == s.totalItems
    ensures s.trend == Up <==> s.profit >= 0
    ensures items == [] ==> s.spent == 0 && s.earned == 0 && s.profit == 0
  {
    CountsPartition(items);
    var profit := TotalProfit(items);
    Summary(|items|, TotalSpent(items), TotalEarned(items), profit,
            if profit >= 0 then Up else Down,
            Count(items, Owned), Count(items, Wishlist), Count(items, ForSale), Count(items, Sold))
  }
}
