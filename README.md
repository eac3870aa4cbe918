# digital-coin-hub: the dashboard's state logic in Dafny

digital-coin-hub is a browser dashboard over the CoinGecko market API. This project models
the part of `script.js` that is state logic rather than DOM or network wiring:

- the **session globals** (`allCoins`, `watchlist`, `currentPage`, `isFetching`,
  `viewingWatchlist`, `currency`, `sortBy`, `currentUser`) as the fields of one class,
  `Session.Dashboard`, whose methods are the event handlers that change them (login, the
  watchlist button, star clicks, the currency and sort selectors, the scroll listener);
- **`fetchCoins`**, split at its `await`: `FetchCoins` is the part before it (the `isFetching`
  guard and the query it sends), `ReceivePage` the part after it, which merges the answer
  atomically (`Pagination.Merge`) and always releases the guard;
- the **per-user watchlist**, a map from username to a list of coin ids, and `toggleFavorite`
  on it (`Watchlists.Toggle`), with `saveWatchlist` as a snapshot into a `saved` field;
- the **display-only projections**: the watchlist view (`Views.WatchlistCoins`), the search
  box (`Views.Search`), the gainers and losers buttons (`Ranking.Gainers`, `Ranking.Losers`),
  and `displayCoins` / `formatCurrency` as a mapping from coin records to card rows
  (`Render.Render`), including the 24h-change style and the "N/A" rule;
- the string built-ins these rely on (`trim`, `toLowerCase`, `toUpperCase`, `includes`) in
  `Text`, and `Array.prototype.filter` in `Seqs`.

`Scenarios` holds client methods that drive a `Dashboard` through several handlers and state
what the handlers' contracts guarantee afterwards.

Two JavaScript details decide edge cases and are modelled as the language evaluates them:
the API sends a missing 24h change as `null`, and `null >= 0` is true while `b - null` treats
`null` as 0. So a coin without a change is styled "positive", reads "N/A", and sorts as a
change of 0 in the gainers and losers lists.

Four consequences of the code are worth knowing, and the model keeps each of them:

- A failed request does not always leave the collection unchanged: a body that is not a JSON
  array (such as an API error object) throws at the spread (script.js:57) after page 1 has
  already emptied `allCoins` (script.js:55). See `Pagination.Merge`, case `NotAList`.
- The scroll listener increments `currentPage` on every qualifying event (script.js:102), even
  when the `isFetching` guard then drops the fetch (script.js:48), so a page can be skipped
  (`Scenarios.ScrollDuringFetchSkipsPage`).
- A currency or sort change does not clear the collection itself: it sets the page to 1 and
  fetches (script.js:155-156, 161-162), the collection is replaced when that page arrives, and a
  change made while another page is loading is dropped by the guard
  (`Scenarios.CurrencyChangeDuringFetchIsLost`).
- Nothing keeps a stored watchlist free of duplicates (script.js:17). Toggling removes every
  copy of an id (script.js:191) and keeps a duplicate-free list duplicate-free
  (`Watchlists.ToggleKeepsDistinct`).

## Model

| member | source | states |
|---|---|---|
| Seqs.Filter | script.js:191 | `Array.prototype.filter`: the result keeps exactly the elements satisfying the predicate, never grows, and shrinks when some element fails it |
| Text.ToLower | script.js:109-111 | `toLowerCase` (ASCII letters): same length, each upper-case letter shifted to lower case, every other character kept |
| Text.ToLowerIdempotent | script.js:109-111 | a lower-cased string has no upper-case letter, so lower-casing it again changes nothing |
| Text.ToUpper | script.js:81 | `toUpperCase` (ASCII letters): same length, each lower-case letter shifted to upper case, every other character kept |
| Text.Includes | script.js:111 | `includes` never finds a substring longer than the string |
| Text.IncludesIffOccurs | script.js:111 | the left-to-right scan of `includes` is true exactly when some position starts a copy of the substring |
| Text.IncludesEmpty | script.js:111 | every string includes the empty string |
| Text.Trim | script.js:29 | `trim` returns the slice of the input between its leading and trailing whitespace, and starts and ends with a non-whitespace character when not empty |
| Text.TrimEmptyIff | script.js:29-30 | a username trims to nothing exactly when it is all whitespace |
| Text.TrimIdempotent | script.js:29-35 | trimming a trimmed name changes nothing |
| Watchlists.Without | script.js:191 | every occurrence of the id is removed, every other id keeps its number of occurrences, and the order is kept |
| Watchlists.Toggle | script.js:188-194 | the id is in the new list exactly when it was not in the old one; an absent id is appended at the end; a present one is removed with all its copies while every other id keeps its occurrences and order (the result is `Without`) |
| Watchlists.ToggleRoundTrip | script.js:190-194 | toggling an absent id twice gives back exactly the original list |
| Watchlists.ToggleTwiceSameMembers | script.js:190-194 | toggling any id twice leaves the set of ids unchanged |
| Watchlists.ToggleKeepsDistinct | script.js:190-194 | toggling keeps a duplicate-free list duplicate-free |
| Views.IsFavorite | script.js:73 | a coin is starred exactly when a user is logged in, has an entry, and the entry contains the coin's id; no user or no entry means no favourites |
| Views.WatchlistCoins | script.js:200-203 | no user gives `[]`; otherwise the order-preserving subsequence of the coins whose id is in the user's list, each with its multiplicity |
| Views.NameMatches | script.js:111 | an empty query matches every name; a query longer than the name matches none |
| Views.Search | script.js:108-113 | the order-preserving subsequence of the visible coins whose lower-cased name includes the lower-cased query, each with its multiplicity |
| Views.SearchEmptyQuery | script.js:109-111 | an empty query returns every visible coin, in order |
| Views.SearchMatchesOccur | script.js:111 | every coin found has the lower-cased query at some position of its lower-cased name |
| Views.SearchWithinWatchlist | script.js:110-111 | a search in the watchlist view only returns starred coins whose name matches |
| Ranking.ChangeKey | script.js:138 | the comparator's number is the 24h change, or 0 when the change is `null` |
| Ranking.Insert | script.js:138 | inserting into a list sorted by 24h change keeps it sorted and adds exactly the one coin |
| Ranking.SortByChange | script.js:138 | the sorted copy is ordered by 24h change (non-increasing or non-decreasing) and is a permutation of the coins |
| Ranking.InsertKeepsTies | script.js:138 | among the coins with its own 24h change the inserted coin comes first, and the coins of every change value keep their order |
| Ranking.SortIsStable | script.js:138-144 | like `Array.prototype.sort`, the sort is stable: for every change value, the coins with that value appear in the same order as in the input |
| Ranking.Top | script.js:138 | the first min(10, n) coins of the stable sort: ordered, drawn from the coins with multiplicity |
| Ranking.Gainers | script.js:136-140 | the first min(10, n) coins of the stable sort by non-increasing 24h change, a sub-multiset of the visible coins |
| Ranking.Losers | script.js:142-146 | the first min(10, n) coins of the stable sort by non-decreasing 24h change, a sub-multiset of the visible coins |
| Ranking.TopIsBest | script.js:138 | every coin left out of a top list ranks no better than every coin in it |
| Ranking.GainersAreLargest | script.js:138 | no coin left out of the gainers has a larger 24h change than one shown |
| Ranking.LosersAreSmallest | script.js:144 | no coin left out of the losers has a smaller 24h change than one shown |
| Render.ChangeClass | script.js:75 | the style is positive exactly when the change is missing or at least 0 (zero included) |
| Render.ChangeLabel | script.js:76 | the text is "N/A" exactly when the change is missing, otherwise the change itself |
| Render.ChangeClassAgreesWithKey | script.js:75 | the style is positive exactly when the number the sort comparators use is at least 0 |
| Render.GainersPositiveFirst | script.js:75 | in the gainers list every positive card stands above every negative one |
| Render.CurrencySymbol | script.js:95 | exactly "usd", "eur" and "inr" have a symbol, one character each |
| Render.CurrencyPrefix | script.js:94-96 | "usd" prints "$", "eur" "€", "inr" "₹", any other currency "undefined" |
| Render.FormatCurrency | script.js:94-96 | the amount keeps its value and carries the printed prefix: the currency's symbol, or "undefined" outside the table |
| Render.Title | script.js:81 | the card title is the name followed by " (", the upper-cased symbol and ")" |
| Render.RenderRow | script.js:70-87 | a card carries the coin's id, image and rank, the favourite test as its star, its title, price and market cap formatted in the currency, and the change style and text |
| Render.Render | script.js:66-91 | one card per coin in the given order; each card carries its coin's id, rank, star (favourite test), title, formatted price and market cap, change style and change text |
| Render.StarsMatchWatchlist | script.js:73 | a card's star is filled exactly when its coin is in the watchlist view |
| Render.MissingChangeRendering | script.js:75-76 | a card reads "N/A" exactly when the change is missing, and is then styled positive |
| Pagination.Merge | script.js:53-61 | a rejected request keeps the collection; page 1 replaces it with the data; a later page appends the data after the old coins; a non-array body empties it on page 1 and keeps it otherwise |
| Pagination.PageOneForgetsPrevious | script.js:55-57 | what a first page leaves does not depend on the collection before it |
| Pagination.PageOneIdempotent | script.js:55-57 | receiving the same first page twice is receiving it once |
| Pagination.LaterPagesAccumulate | script.js:57 | two later pages in a row append both, in order |
| Session.Dashboard.constructor | script.js:16-25 | the initial globals, the watchlist read from storage (empty when absent), and the first page requested as at line 251 |
| Session.Dashboard.Visible | script.js:43 | all coins, or in the watchlist view exactly `getWatchlistCoins`' ordered list, which holds only starred coins of the collection |
| Session.Dashboard.SaveWatchlist | script.js:206-208 | the stored copy becomes the in-memory watchlist |
| Session.Dashboard.Login | script.js:28-44 | an all-whitespace name alerts and changes nothing; otherwise the trimmed name becomes the user, an empty list is created only when the user has none, and the watchlist is saved |
| Session.Dashboard.ToggleFavorite | script.js:185-197 | without a user nothing changes; with one, only that user's list is toggled, every other user's entry is unchanged, and the result is saved |
| Session.Dashboard.OnStarClick | script.js:166-176 | without a user it alerts "Please login first!" and changes nothing; otherwise it toggles the star |
| Session.Dashboard.OnWatchlistButton | script.js:123-133 | without a user it alerts and keeps the view; otherwise it flips the view |
| Session.Dashboard.FetchCoins | script.js:47-52 | while a fetch is in flight nothing happens; otherwise a fetch is marked in flight with the query for the current currency, order, 50 per page and the page |
| Session.Dashboard.ReceivePage | script.js:53-62 | the collection becomes the merge of the answer for the pending page, and the guard is released in every case |
| Session.Dashboard.OnScroll | script.js:100-105 | near the bottom and outside the watchlist view the page counter goes up by one even when the guard then drops the fetch; otherwise nothing changes |
| Session.Dashboard.OnCurrencyChange | script.js:153-157 | the currency is set, the page counter is 1, and page 1 is requested unless a fetch is in flight |
| Session.Dashboard.OnSortChange | script.js:159-163 | the order is set, the page counter is 1, and page 1 is requested unless a fetch is in flight |
| Scenarios.CurrencyChangeShowsOnlyNewPage | script.js:153-157 | with no fetch in flight, a currency change followed by its first page leaves exactly that page |
| Scenarios.SortChangeShowsOnlyNewPage | script.js:159-163 | with no fetch in flight, a sort change followed by its first page leaves exactly that page |
| Scenarios.CurrencyChangeDuringFetchIsLost | script.js:153-157 | a currency change while a later page loads requests nothing, and the old page is appended when it arrives |
| Scenarios.ScrollDuringFetchSkipsPage | script.js:100-105 | scrolling during a fetch moves the counter anyway: from page n the requests are n + 1 and then n + 3 |
| Scenarios.StarTwiceRestores | script.js:185-197 | two clicks on the star of an unstarred coin restore the watchlist and its stored copy |
| Scenarios.LoginKeepsFavourites | script.js:38-40 | logging in again as the same user keeps that user's list |
| Scenarios.ViewsDrawFromCollection | script.js:108-146 | search, gainers and losers over the visible coins show only coins of the collection, and in the watchlist view only starred ones |

## Left out

- The DOM: element lookup, `innerHTML` templating, event-listener registration, the theme toggle, and `alert` dialogs. Handlers return the alert message instead.
- Which list is currently on screen. The projections are pure functions of the state; the model does not track the last list passed to `displayCoins`.
- The chart (`showChart`): the history request, Chart.js construction and teardown, and locale-formatted date labels. These are a foreign library and locale-dependent.
- The network: `fetch`, `res.json()` and the URL string. The answer is a `Response` input, and `FetchCoins` returns the query parameters instead of sending them.
- `localStorage` and JSON serialisation. Saving is a snapshot of the map. A corrupt stored value would make `JSON.parse` throw at load; the constructor takes the parsed value instead.
- `toLocaleString` digit grouping and `toFixed(2)` rounding: a formatted amount keeps its raw value; only the currency prefix is modelled.
- The scroll geometry test (`innerHeight + scrollY >= offsetHeight - 200`): it is the boolean input `nearBottom`.
- A 24h change that is `undefined` rather than `null`: the comparator would yield NaN and `toFixed` would throw. The model only has present and `null` changes.
- Exceptions thrown by `displayCoins` after the collection was updated (a record missing its `symbol`, say): records are well-formed here.
- Usernames or currencies that name inherited object properties (`constructor`, `__proto__`): the model's maps have no prototype.
- Text.ToLower: maps only the ASCII letters; JavaScript's full Unicode case mapping is not modelled.
- Text.ToUpper: maps only the ASCII letters, for the same reason.
