/** Paged loading of the market list: the query `fetchCoins` sends and how its answer is merged
    into the collection, which page 1 first empties and every page then extends (script.js:55-57). */
module Pagination {
  import opened Coins

  /** The page size of every market request (script.js:25). */
  const CoinsPerPage: nat := 50

  /** The parameters of `coins/markets?vs_currency=…&order=…&per_page=…&page=…`. */
  datatype Query = Query(vsCurrency: string, order: string, perPage: nat, page: int)

  /** How the awaited `fetch(…)` and `res.json()` end. */
  datatype Response =
    | Failed              // a rejected promise: the catch is reached before any assignment
    | Page(coins: seq<Coin>)  // the body is a JSON array of coin records
    | NotAList            // the body parses to a value that cannot be spread, such as an error object

  /** The collection after the answer to a request for `page` arrives. A body that is not a list
      throws at the spread, after page 1 has already emptied the collection. */
  function Merge(current: seq<Coin>, page: int, response: Response): (r: seq<Coin>)
    ensures response.Failed? ==> r == current
    ensures response.NotAList? ==> r == if page == 1 then [] else current
    ensures response.Page? && page == 1 ==> r == response.coins
    ensures response.Page? && page != 1 ==>
      |r| == |current| + |response.coins| && r[..|current|] == current && r[|current|..] == response.coins
  {
    match response
    case Failed => current
    case NotAList => if page == 1 then [] else current
    case Page(data) => (if page == 1 then [] else current) + data
  }

  /** A first page leaves nothing of what was there before: the result does not depend on it. */
  lemma PageOneForgetsPrevious(a: seq<Coin>, b: seq<Coin>, response: Response)
    requires !response.Failed?
    ensures Merge(a, 1, response) == Merge(b, 1, response)
  {
  }

  /** Receiving the same first page twice is receiving it once. */
  lemma PageOneIdempotent(current: seq<Coin>, response: Response)
    ensures Merge(Merge(current, 1, response), 1, response) == Merge(current, 1, response)
  {
  }

  /** Later pages only ever add at the end: two of them in a row append both, in order. */
  lemma LaterPagesAccumulate(current: seq<Coin>, p: int, q: int, x: seq<Coin>, y: seq<Coin>)
    requires p != 1 && q != 1
    ensures Merge(Merge(current, p, Page(x)), q, Page(y)) == current + x + y
  {
  }
}
