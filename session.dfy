/** The dashboard's global state and the event handlers that change it. Each handler runs to
    completion; the only suspension point, the awaited fetch of a market page, is split into
    `FetchCoins` (up to the `await`) and `ReceivePage` (after it). */
module Session {
  import opened Wrappers
  import opened Text
  import opened Coins
  import opened Watchlists
  import opened Views
  import opened Pagination

  const EnterUsername: string := "Please enter a username!"
  const LoginFirst: string := "Please login first!"

  /** What a handler shows the user: nothing, or an `alert` with a message. */
  datatype Reply = Done | Alert(message: string)

  class Dashboard {
    var allCoins: seq<Coin>
    var watchlist: map<string, seq<string>>
    /** The `watchlist` entry of `localStorage`, as `saveWatchlist` last wrote it. */
    var saved: Option<map<string, seq<string>>>
    var currentPage: int
    var isFetching: bool
    /** The query of the latest `fetchCoins` call that got past the guard; while `isFetching`,
        its answer is still to come. */
    var pending: Query
    var viewingWatchlist: bool
    var currency: string
    var sortBy: string
    var currentUser: Option<string>

    ghost predicate Valid()
      reads this
    {
      && currentPage >= 1
      && (currentUser.Some? ==>
            currentUser.value in watchlist && currentUser.value != [] && Trim(currentUser.value) == currentUser.value)
      && (viewingWatchlist ==> currentUser.Some?)
    }

    /** Page load: the watchlist is read from storage, empty when nothing was stored (script.js:17);
        the globals take their initial values; the first page is requested (script.js:251). */
    constructor (stored: Option<map<string, seq<string>>>)
      ensures Valid()
      ensures allCoins == [] && watchlist == stored.GetOr(map[]) && saved == stored
      ensures currentPage == 1 && !viewingWatchlist && currentUser.None?
      ensures currency == "usd" && sortBy == "market_cap_desc"
      ensures isFetching && pending == Query("usd", "market_cap_desc", CoinsPerPage, 1)
    {
      allCoins := [];
      watchlist := stored.GetOr(map[]);
      saved := stored;
      currentPage := 1;
      viewingWatchlist := false;
      currency := "usd";
      sortBy := "market_cap_desc";
      currentUser := None;
      isFetching := true;
      pending := Query("usd", "market_cap_desc", CoinsPerPage, 1);
    }

    /** The coins every view starts from: the watchlist view's coins or the whole collection
        (script.js:43, 110, 137, 143, 149). */
    function Visible(): (r: seq<Coin>)
      reads this
      ensures forall c :: c in r ==> c in allCoins
      ensures !viewingWatchlist ==> r == allCoins
      ensures viewingWatchlist ==> r == WatchlistCoins(allCoins, currentUser, watchlist)
      ensures viewingWatchlist ==> forall c :: c in r <==> c in allCoins && IsFavorite(c, currentUser, watchlist)
    {
      if viewingWatchlist then WatchlistCoins(allCoins, currentUser, watchlist) else allCoins
    }

    /** `saveWatchlist`: the storage entry becomes a snapshot of the in-memory watchlist. */
    method SaveWatchlist()
      modifies this`saved
      ensures saved == Some(watchlist)
    {
      saved := Some(watchlist);
    }

    /** The login button, with `input` the text of the username box. */
    method Login(input: string) returns (reply: Reply)
      requires Valid()
      modifies this`currentUser, this`watchlist, this`saved
      ensures Valid()
      ensures Trim(input) == [] ==>
        reply == Alert(EnterUsername) && currentUser == old(currentUser) &&
        watchlist == old(watchlist) && saved == old(saved)
      ensures Trim(input) != [] ==>
        reply == Done && currentUser == Some(Trim(input)) && saved == Some(watchlist) &&
        watchlist == if Trim(input) in old(watchlist) then old(watchlist) else old(watchlist)[Trim(input) := []]
    {
      var username := Trim(input);
      if username == [] {
        return Alert(EnterUsername);
      }
      currentUser := Some(username);
      if username !in watchlist {
        watchlist := watchlist[username := []];
      }
      TrimIdempotent(input);
      SaveWatchlist();
      reply := Done;
    }

    /** `toggleFavorite(id)`: stars or unstars `id` for the current user; without one it does nothing. */
    method ToggleFavorite(id: string)
      requires Valid()
      modifies this`watchlist, this`saved
      ensures Valid()
      ensures currentUser.None? ==> watchlist == old(watchlist) && saved == old(saved)
      ensures currentUser.Some? ==>
        var user := currentUser.value;
        && watchlist == old(watchlist)[user := Toggle(old(watchlist)[user], id)]
        && (forall u :: u != user ==> (u in watchlist <==> u in old(watchlist)))
        && (forall u | u in old(watchlist) && u != user :: watchlist[u] == old(watchlist)[u])
        && saved == Some(watchlist)
    {
      if currentUser.None? {
        return;
      }
      var user := currentUser.value;
      var userList := watchlist[user];
      if id in userList {
        watchlist := watchlist[user := Without(userList, id)];
      } else {
        watchlist := watchlist[user := userList + [id]];
      }
      SaveWatchlist();
    }

    /** A click on a star of the coin list. */
    method OnStarClick(id: string) returns (reply: Reply)
      requires Valid()
      modifies this`watchlist, this`saved
      ensures Valid()
      ensures currentUser.None? ==> reply == Alert(LoginFirst) && watchlist == old(watchlist) && saved == old(saved)
      ensures currentUser.Some? ==>
        reply == Done && saved == Some(watchlist) &&
        watchlist == old(watchlist)[currentUser.value := Toggle(old(watchlist)[currentUser.value], id)]
    {
      if currentUser.None? {
        return Alert(LoginFirst);
      }
      ToggleFavorite(id);
      reply := Done;
    }

    /** The watchlist button: switches between all coins and the starred ones, for a logged-in user. */
    method OnWatchlistButton() returns (reply: Reply)
      requires Valid()
      modifies this`viewingWatchlist
      ensures Valid()
      ensures currentUser.None? ==> reply == Alert(LoginFirst) && viewingWatchlist == old(viewingWatchlist)
      ensures currentUser.Some? ==> reply == Done && viewingWatchlist == !old(viewingWatchlist)
    {
      if currentUser.None? {
        return Alert(LoginFirst);
      }
      viewingWatchlist := !viewingWatchlist;
      reply := Done;
    }

    /** `fetchCoins(page)` up to its `await`: ignored while another fetch is in flight, otherwise
        marks a fetch in flight and returns the query it sends. */
    method FetchCoins(page: int) returns (request: Option<Query>)
      requires Valid()
      modifies this`isFetching, this`pending
      ensures Valid()
      ensures isFetching
      ensures old(isFetching) ==> request == None && pending == old(pending)
      ensures !old(isFetching) ==>
        request == Some(Query(currency, sortBy, CoinsPerPage, page)) && pending == request.value
    {
      if isFetching {
        return None;
      }
      isFetching := true;
      pending := Query(currency, sortBy, CoinsPerPage, page);
      request := Some(pending);
    }

    /** `fetchCoins` after its `await`: the answer to the pending query is merged into the
        collection, and the guard is released whatever happened. */
    method ReceivePage(response: Response)
      requires Valid() && isFetching
      modifies this`allCoins, this`isFetching
      ensures Valid()
      ensures !isFetching
      ensures allCoins == Merge(old(allCoins), pending.page, response)
    {
      match response {
        case Failed =>
        case NotAList =>
          if pending.page == 1 {
            allCoins := [];
          }
        case Page(data) =>
          if pending.page == 1 {
            allCoins := [];
          }
          allCoins := allCoins + data;
      }
      isFetching := false;
    }

    /** The scroll listener, with `nearBottom` standing for the page-geometry test. Away from the
        watchlist view it moves to the next page even when the fetch is then ignored. */
    method OnScroll(nearBottom: bool) returns (request: Option<Query>)
      requires Valid()
      modifies this`currentPage, this`isFetching, this`pending
      ensures Valid()
      ensures !nearBottom || viewingWatchlist ==>
        request == None && currentPage == old(currentPage) && isFetching == old(isFetching) && pending == old(pending)
      ensures nearBottom && !viewingWatchlist ==>
        && currentPage == old(currentPage) + 1
        && isFetching
        && (old(isFetching) ==> request == None && pending == old(pending))
        && (!old(isFetching) ==> request == Some(Query(currency, sortBy, CoinsPerPage, currentPage)) && pending == request.value)
    {
      request := None;
      if nearBottom && !viewingWatchlist {
        currentPage := currentPage + 1;
        request := FetchCoins(currentPage);
      }
    }

    /** The currency selector: back to page 1 of the new currency. */
    method OnCurrencyChange(value: string) returns (request: Option<Query>)
      requires Valid()
      modifies this`currency, this`currentPage, this`isFetching, this`pending
      ensures Valid()
      ensures currency == value && currentPage == 1 && isFetching
      ensures old(isFetching) ==> request == None && pending == old(pending)
      ensures !old(isFetching) ==> request == Some(Query(value, sortBy, CoinsPerPage, 1)) && pending == request.value
    {
      currency := value;
      currentPage := 1;
      request := FetchCoins(currentPage);
    }

    /** The sort selector: back to page 1 in the new order. */
    method OnSortChange(value: string) returns (request: Option<Query>)
      requires Valid()
      modifies this`sortBy, this`currentPage, this`isFetching, this`pending
      ensures Valid()
      ensures sortBy == value && currentPage == 1 && isFetching
      ensures old(isFetching) ==> request == None && pending == old(pending)
      ensures !old(isFetching) ==> request == Some(Query(currency, value, CoinsPerPage, 1)) && pending == request.value
    {
      sortBy := value;
      currentPage := 1;
      request := FetchCoins(currentPage);
    }
  }
}
