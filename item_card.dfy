// What an item card shows besides markup: the status badge colour, the
// per-item profit with its sign and colour, the "Sold:" line, and the two
// marketplace links.

module Card {
  import opened Types
  import opened Catalog
  import opened Links

  /** statusColors: the badge classes of each status; no two statuses share one. */
  function StatusColor(s: Status): string {
    match s
    case Owned => "bg-green-100 text-green-800 border-green-200"
    case Wishlist => "bg-blue-100 text-blue-800 border-blue-200"
    case ForSale => "bg-orange-100 text-orange-800 border-orange-200"
    case Sold => "bg-gray-100 text-gray-800 border-gray-200"
  }

  lemma StatusColorsDistinct(s: Status, t: Status)
    ensures StatusColor(s) == StatusColor(t) ==> s == t
  {
  }

  /** calculateProfit, in cents: defined for a Sold item with a truthy sell price. */
  function Profit(it: Item): (r: Option<int>)
    ensures r.Some? <==> it.status == Sold && HasSellPrice(it)
    ensures r.Some? ==> r.value + it.purchasePrice == it.sellPrice.value
  {
    if HasSellPrice(it) && it.status == Sold then Some(it.sellPrice.value - it.purchasePrice) else None
  }

  /** The sign shown before a profit: "+" above zero, "-" below, nothing at zero. */
  function SignPrefix(profit: int): (s: string)
    ensures |s| <= 1
  {
    if profit > 0 then "+" else if profit < 0 then "-" else ""
  }

  /** The amount shown after the sign. */
  function Magnitude(profit: int): (m: nat)
    ensures m == profit || m == -profit
  {
    if profit < 0 then -profit else profit
  }

  /** The profit a reader recovers from the sign and the amount shown. */
  function ReadBack(sign: string, magnitude: nat): int {
    if sign == "-" then -(magnitude as int) else magnitude
  }

  /** The sign and amount on the card determine the profit, and zero shows no sign. */
  lemma ProfitDisplayFaithful(profit: int)
    ensures ReadBack(SignPrefix(profit), Magnitude(profit)) == profit
    ensures SignPrefix(profit) == "" <==> profit == 0
    ensures SignPrefix(profit) in {"", "+", "-"}
  {
  }

  datatype Colour = Green | Red

  /** The profit is green when it is not negative, red otherwise. */
  function ProfitColour(profit: int): (c: Colour)
    ensures c == Green <==> profit >= 0
  {
    if profit >= 0 then Green else Red
  }

  /** The "Sold:" line shows exactly for a truthy sell price: the status plays no part. */
  lemma SoldLineIgnoresStatus(it: Item, s: Status)
    ensures HasSellPrice(it.(status := s)) == HasSellPrice(it)
    ensures HasSellPrice(it) <==> it.sellPrice.Some? && it.sellPrice.value != 0
  {
  }

  /** Everything an item card derives from its item. */
  datatype CardView = CardView(
    id: string,
    badge: string,
    profit: Option<int>,
    showsSoldLine: bool,
    popMartUrl: string,
    stockXUrl: string)

  function View(catalog: CatalogData, it: Item): (v: CardView)
    ensures v.id == it.id
    ensures v.profit.Some? ==> it.status == Sold && v.showsSoldLine
  {
    CardView(
      it.id,
      StatusColor(it.status),
      Profit(it),
      HasSellPrice(it),
      PopMartUrl(catalog, it.character, it.series),
      StockXUrl(catalog, it.character, it.series, it.item))
  }
}
