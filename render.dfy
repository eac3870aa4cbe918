/** `displayCoins` and `formatCurrency` as a mapping from coin records to view rows.
    The DOM building itself, number grouping (`toLocaleString`) and rounding (`toFixed(2)`)
    are not part of this model: a formatted amount keeps its currency prefix and the raw value. */
module Render {
  import opened Wrappers
  import opened Text
  import opened Coins
  import opened Views
  import opened Ranking

  /** The CSS class of the 24h change. */
  datatype ChangeStyle = Positive | Negative

  /** The text of the 24h change: the percentage, or "N/A" when the API sent `null`. */
  datatype ChangeText = Percent(value: real) | NotAvailable

  /** The style of script.js:75: positive for a change of at least 0. JavaScript compares a `null`
      change as 0, so a missing change is styled positive even though its text reads "N/A". */
  function ChangeClass(change: Option<real>): (r: ChangeStyle)
    ensures r == Positive <==> change.None? || change.value >= 0.0
  {
    match change
    case None => Positive
    case Some(v) => if v >= 0.0 then Positive else Negative
  }

  /** The text of script.js:76: the change as a percentage, or "N/A" when it is `null`. */
  function ChangeLabel(change: Option<real>): (r: ChangeText)
    ensures r == NotAvailable <==> change.None?
    ensures r.Percent? ==> change == Some(r.value)
  {
    match change
    case None => NotAvailable
    case Some(v) => Percent(v)
  }

  /** The style agrees with the number the gainers and losers comparators use. */
  lemma ChangeClassAgreesWithKey(c: Coin)
    ensures ChangeClass(c.priceChange24h) == Positive <==> ChangeKey(c) >= 0.0
  {
  }

  /** In the gainers list every positive row sits above every negative one. */
  lemma GainersPositiveFirst(coins: seq<Coin>)
    ensures forall i, j | 0 <= i < j < |Gainers(coins)| ::
      ChangeClass(Gainers(coins)[j].priceChange24h) == Positive ==> ChangeClass(Gainers(coins)[i].priceChange24h) == Positive
  {
    var g := Gainers(coins);
    forall i, j | 0 <= i < j < |g| && ChangeClass(g[j].priceChange24h) == Positive
      ensures ChangeClass(g[i].priceChange24h) == Positive
    {
      assert Precedes(g[i], g[j], true);
    }
  }

  /** The symbol table of `formatCurrency` (script.js:95): one character for each known currency. */
  function CurrencySymbol(currency: string): (r: Option<string>)
    ensures r.Some? <==> currency == "usd" || currency == "eur" || currency == "inr"
    ensures r.Some? ==> |r.value| == 1
  {
    if currency == "usd" then Some("$")
    else if currency == "eur" then Some("€")
    else if currency == "inr" then Some("₹")
    else None
  }

  /** The prefix script.js:96 prints: the symbol, or "undefined" for a currency not in the table. */
  function CurrencyPrefix(currency: string): (r: string)
    ensures currency == "usd" ==> r == "$"
    ensures currency == "eur" ==> r == "€"
    ensures currency == "inr" ==> r == "₹"
    ensures CurrencySymbol(currency).None? ==> r == "undefined"
  {
    CurrencySymbol(currency).GetOr("undefined")
  }

  /** A formatted amount: `prefix` followed by `value.toLocaleString()`. */
  datatype Amount = Amount(prefix: string, value: real)

  /** `formatCurrency(value)` under the active currency. */
  function FormatCurrency(currency: string, value: real): (r: Amount)
    ensures r.value == value
    ensures r.prefix == CurrencyPrefix(currency)
    ensures CurrencySymbol(currency).Some? ==> Some(r.prefix) == CurrencySymbol(currency)
  {
    Amount(CurrencyPrefix(currency), value)
  }

  /** One coin card of the list. */
  datatype Row = Row(
    id: string,
    favorite: bool,
    image: string,
    title: string,
    price: Amount,
    marketCap: Amount,
    style: ChangeStyle,
    change: ChangeText,
    rank: int)

  /** The card heading of script.js:81: the name, then the upper-cased symbol in parentheses. */
  function Title(c: Coin): (r: string)
    ensures StartsWith(r, c.name)
    ensures r[|c.name|..] == " (" + ToUpper(c.symbol) + ")"
  {
    c.name + " (" + ToUpper(c.symbol) + ")"
  }

  /** The card of one coin (script.js:70-87). */
  function RenderRow(c: Coin, user: Option<string>, watchlist: map<string, seq<string>>, currency: string): (row: Row)
    ensures row.id == c.id && row.image == c.image && row.rank == c.marketCapRank
    ensures row.favorite <==> IsFavorite(c, user, watchlist)
    ensures row.title == Title(c)
    ensures row.price == FormatCurrency(currency, c.currentPrice)
    ensures row.marketCap == FormatCurrency(currency, c.marketCap)
    ensures row.style == ChangeClass(c.priceChange24h) && row.change == ChangeLabel(c.priceChange24h)
  {
    Row(c.id, IsFavorite(c, user, watchlist), c.image, Title(c),
        FormatCurrency(currency, c.currentPrice), FormatCurrency(currency, c.marketCap),
        ChangeClass(c.priceChange24h), ChangeLabel(c.priceChange24h), c.marketCapRank)
  }

  /** `displayCoins`: one card per coin, in the order given. */
  function Render(coins: seq<Coin>, user: Option<string>, watchlist: map<string, seq<string>>, currency: string): (rows: seq<Row>)
    ensures |rows| == |coins|
    ensures forall i :: 0 <= i < |coins| ==> rows[i].id == coins[i].id && rows[i].rank == coins[i].marketCapRank
    ensures forall i :: 0 <= i < |coins| ==> rows[i].favorite == IsFavorite(coins[i], user, watchlist)
    ensures forall i :: 0 <= i < |coins| ==> rows[i].title == Title(coins[i])
    ensures forall i :: 0 <= i < |coins| ==>
      rows[i].price == FormatCurrency(currency, coins[i].currentPrice) &&
      rows[i].marketCap == FormatCurrency(currency, coins[i].marketCap)
    ensures forall i :: 0 <= i < |coins| ==>
      rows[i].style == ChangeClass(coins[i].priceChange24h) && rows[i].change == ChangeLabel(coins[i].priceChange24h)
  {
    seq(|coins|, i requires 0 <= i < |coins| => RenderRow(coins[i], user, watchlist, currency))
  }

  /** A card shows a filled star exactly when its coin belongs to the watchlist view. */
  lemma StarsMatchWatchlist(coins: seq<Coin>, user: Option<string>, watchlist: map<string, seq<string>>, currency: string)
    ensures forall i :: 0 <= i < |coins| ==>
      (Render(coins, user, watchlist, currency)[i].favorite <==> coins[i] in WatchlistCoins(coins, user, watchlist))
  {
  }

  /** A card shows "N/A" exactly when the change is missing, and its style is then positive. */
  lemma MissingChangeRendering(coins: seq<Coin>, user: Option<string>, watchlist: map<string, seq<string>>, currency: string)
    ensures forall i :: 0 <= i < |coins| ==>
      (Render(coins, user, watchlist, currency)[i].change == NotAvailable <==> coins[i].priceChange24h.None?)
    ensures forall i :: 0 <= i < |coins| && coins[i].priceChange24h.None? ==>
      Render(coins, user, watchlist, currency)[i].style == Positive
  {
  }
}
