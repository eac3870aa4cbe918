/** The display-only projections of the coin collection: the watchlist view and the search box.
    Neither changes any state; each is a filter of the coins it is given. */
module Views {
  import opened Wrappers
  import opened Seqs
  import opened Text
  import opened Coins

  /** The coin is starred by the logged-in user (script.js:73, 202). Without a user, or for a user
      without an entry, no coin is. */
  predicate IsFavorite(c: Coin, user: Option<string>, watchlist: map<string, seq<string>>)
    ensures user.None? ==> !IsFavorite(c, user, watchlist)
    ensures user.Some? && user.value !in watchlist ==> !IsFavorite(c, user, watchlist)
    ensures user.Some? && user.value in watchlist ==> (IsFavorite(c, user, watchlist) <==> c.id in watchlist[user.value])
  {
    user.Some? && user.value in watchlist && c.id in watchlist[user.value]
  }

  /** `getWatchlistCoins`: the coins starred by the current user, in collection order. */
  function WatchlistCoins(coins: seq<Coin>, user: Option<string>, watchlist: map<string, seq<string>>): (r: seq<Coin>)
    ensures user.None? ==> r == []
    ensures forall c :: c in r <==> c in coins && IsFavorite(c, user, watchlist)
    ensures forall c | c in coins && IsFavorite(c, user, watchlist) :: multiset(r)[c] == multiset(coins)[c]
    ensures IsSubsequence(r, coins)
  {
    if user.None? then []
    else
      var starred := (c: Coin) => IsFavorite(c, user, watchlist);
      FilterCount(coins, starred);
      FilterIsSubsequence(coins, starred);
      Filter(coins, starred)
  }

  /** The search test of script.js:111: the lower-cased name contains the lower-cased query. */
  predicate NameMatches(c: Coin, query: string)
    ensures query == [] ==> NameMatches(c, query)
    ensures NameMatches(c, query) ==> |query| <= |c.name|
  {
    IncludesEmpty(ToLower(c.name));
    Includes(ToLower(c.name), ToLower(query))
  }

  /** The search box: the coins whose name contains the query, ignoring case, in their order. */
  function Search(coins: seq<Coin>, query: string): (r: seq<Coin>)
    ensures forall c :: c in r <==> c in coins && NameMatches(c, query)
    ensures forall c | c in coins && NameMatches(c, query) :: multiset(r)[c] == multiset(coins)[c]
    ensures IsSubsequence(r, coins)
  {
    var matches := (c: Coin) => NameMatches(c, query);
    FilterCount(coins, matches);
    FilterIsSubsequence(coins, matches);
    Filter(coins, matches)
  }

  /** An empty search box shows every visible coin. */
  lemma SearchEmptyQuery(coins: seq<Coin>)
    ensures Search(coins, "") == coins
  {
    forall i | 0 <= i < |coins| ensures NameMatches(coins[i], "") {
      IncludesEmpty(ToLower(coins[i].name));
    }
    FilterKeepsAll(coins, (c: Coin) => NameMatches(c, ""));
  }

  /** A match means some position of the lower-cased name starts the lower-cased query. */
  lemma SearchMatchesOccur(coins: seq<Coin>, query: string, c: Coin)
    requires c in Search(coins, query)
    ensures exists i :: OccursAt(ToLower(c.name), ToLower(query), i)
  {
    IncludesIffOccurs(ToLower(c.name), ToLower(query));
  }

  /** Searching inside the watchlist view only ever shows starred coins. */
  lemma SearchWithinWatchlist(coins: seq<Coin>, user: Option<string>, watchlist: map<string, seq<string>>, query: string)
    ensures forall c :: c in Search(WatchlistCoins(coins, user, watchlist), query) ==>
      c in coins && IsFavorite(c, user, watchlist) && NameMatches(c, query)
  {
  }
}
