/** Sequences of user actions and network answers, and what the handlers' contracts alone
    guarantee about the state they leave behind. */
module Scenarios {
  import opened Wrappers
  import opened Coins
  import opened Watchlists
  import opened Pagination
  import opened Views
  import opened Ranking
  import opened Session
  import Text

  /** Picking a currency while no fetch is in flight, then receiving its first page, leaves
      exactly that page in the collection: nothing of the previous currency remains. */
  method CurrencyChangeShowsOnlyNewPage(d: Dashboard, value: string, data: seq<Coin>)
    requires d.Valid() && !d.isFetching
    modifies d
    ensures d.Valid() && !d.isFetching
    ensures d.currency == value && d.currentPage == 1 && d.allCoins == data
  {
    var request := d.OnCurrencyChange(value);
    assert request == Some(Query(value, d.sortBy, CoinsPerPage, 1));
    d.ReceivePage(Page(data));
  }

  /** The same for the sort selector. */
  method SortChangeShowsOnlyNewPage(d: Dashboard, value: string, data: seq<Coin>)
    requires d.Valid() && !d.isFetching
    modifies d
    ensures d.Valid() && !d.isFetching
    ensures d.sortBy == value && d.currentPage == 1 && d.allCoins == data
  {
    var request := d.OnSortChange(value);
    d.ReceivePage(Page(data));
  }

  /** A currency picked while a later page is still loading is never fetched: the guard drops
      the page-1 request, the old page is appended when it arrives, and the collection keeps
      the old currency's coins although the page counter says 1. */
  method CurrencyChangeDuringFetchIsLost(d: Dashboard, value: string, data: seq<Coin>) returns (request: Option<Query>)
    requires d.Valid() && d.isFetching && d.pending.page != 1
    modifies d
    ensures d.Valid() && !d.isFetching
    ensures request == None
    ensures d.currency == value && d.currentPage == 1
    ensures d.allCoins == old(d.allCoins) + data
  {
    request := d.OnCurrencyChange(value);
    d.ReceivePage(Page(data));
  }

  /** Scrolling again while the next page is loading moves the counter anyway, so the page
      after it is never requested: from page n the requests are n + 1 and then n + 3. */
  method ScrollDuringFetchSkipsPage(d: Dashboard, data: seq<Coin>)
    returns (first: Option<Query>, second: Option<Query>, third: Option<Query>)
    requires d.Valid() && !d.isFetching && !d.viewingWatchlist
    modifies d
    ensures first.Some? && first.value.page == old(d.currentPage) + 1
    ensures second.None?
    ensures third.Some? && third.value.page == old(d.currentPage) + 3
    ensures d.allCoins == old(d.allCoins) + data
  {
    first := d.OnScroll(true);
    second := d.OnScroll(true);
    d.ReceivePage(Page(data));
    third := d.OnScroll(true);
  }

  /** Starring a coin that is not in the current user's list and starring it again restores
      the whole watchlist and the stored copy of it. */
  method StarTwiceRestores(d: Dashboard, id: string)
    requires d.Valid() && d.currentUser.Some? && id !in d.watchlist[d.currentUser.value]
    modifies d
    ensures d.Valid()
    ensures d.watchlist == old(d.watchlist) && d.saved == Some(old(d.watchlist))
  {
    var user := d.currentUser.value;
    var list := d.watchlist[user];
    var r1 := d.OnStarClick(id);
    var r2 := d.OnStarClick(id);
    ToggleRoundTrip(list, id);
    assert d.watchlist == old(d.watchlist)[user := list];
  }

  /** Logging in again as the same user keeps that user's favourites. */
  method LoginKeepsFavourites(d: Dashboard, input: string)
    requires d.Valid() && d.currentUser.Some? && Text.Trim(input) == d.currentUser.value
    modifies d
    ensures d.Valid()
    ensures d.currentUser == old(d.currentUser) && d.watchlist == old(d.watchlist)
  {
    var reply := d.Login(input);
  }

  /** The search box and the gainers and losers buttons only ever show coins of the collection,
      and in the watchlist view only coins the user starred. */
  lemma ViewsDrawFromCollection(d: Dashboard, query: string)
    ensures forall c :: c in Search(d.Visible(), query) ==>
      c in d.allCoins && NameMatches(c, query) && (d.viewingWatchlist ==> IsFavorite(c, d.currentUser, d.watchlist))
    ensures forall c :: c in Gainers(d.Visible()) ==>
      c in d.allCoins && (d.viewingWatchlist ==> IsFavorite(c, d.currentUser, d.watchlist))
    ensures forall c :: c in Losers(d.Visible()) ==>
      c in d.allCoins && (d.viewingWatchlist ==> IsFavorite(c, d.currentUser, d.watchlist))
  {
  }
}
