/** The gainers and losers buttons: the visible coins sorted by 24h change, first ten kept.
    Both sort a copy of the visible coins (script.js:138, 144), so the collection itself is untouched. */
module Ranking {
  import opened Coins

  /** How many coins the gainers and losers buttons show. */
  const TopCount: nat := 10

  /** The number the comparators of script.js:138 and 144 subtract. JavaScript's subtraction turns a
      `null` change into 0. */
  function ChangeKey(c: Coin): (r: real)
    ensures c.priceChange24h.Some? ==> r == c.priceChange24h.value
    ensures c.priceChange24h.None? ==> r == 0.0
  {
    c.priceChange24h.GetOr(0.0)
  }

  /** `a` may stand before `b`: non-increasing change for gainers, non-decreasing for losers. */
  predicate Precedes(a: Coin, b: Coin, descending: bool) {
    if descending then ChangeKey(a) >= ChangeKey(b) else ChangeKey(a) <= ChangeKey(b)
  }

  ghost predicate SortedBy(s: seq<Coin>, descending: bool) {
    forall i, j :: 0 <= i < j < |s| ==> Precedes(s[i], s[j], descending)
  }

  /** Places `c` before the first element it may precede, so that it stays ahead of equal keys. */
  function Insert(c: Coin, s: seq<Coin>, descending: bool): (r: seq<Coin>)
    requires SortedBy(s, descending)
    ensures SortedBy(r, descending)
    ensures forall x | x in r :: x == c || x in s
    ensures multiset(r) == multiset(s) + multiset{c}
  {
    if s == [] || Precedes(c, s[0], descending) then [c] + s
    else
      var t := Insert(c, s[1..], descending);
      var r := [s[0]] + t;
      assert forall j | 0 <= j < |t| :: Precedes(s[0], t[j], descending) by {
        forall j | 0 <= j < |t| ensures Precedes(s[0], t[j], descending) {
          assert t[j] in t;
        }
      }
      assert SortedBy(r, descending) by {
        forall i, j | 0 <= i < j < |r| ensures Precedes(r[i], r[j], descending) {
          if i > 0 {
            assert r[i] == t[i - 1] && r[j] == t[j - 1];
          }
        }
      }
      assert s == [s[0]] + s[1..];
      r
  }

  /** A stable sort of `coins` by 24h change (`Array.prototype.sort` is stable). */
  function SortByChange(coins: seq<Coin>, descending: bool): (r: seq<Coin>)
    ensures SortedBy(r, descending)
    ensures multiset(r) == multiset(coins)
  {
    if coins == [] then []
    else
      assert coins == [coins[0]] + coins[1..];
      Insert(coins[0], SortByChange(coins[1..], descending), descending)
  }

  /** The coins whose 24h change is `k`, in their order. */
  function WithChange(s: seq<Coin>, k: real): seq<Coin> {
    if s == [] then []
    else (if ChangeKey(s[0]) == k then [s[0]] else []) + WithChange(s[1..], k)
  }

  lemma {:induction false} InsertKeepsTies(c: Coin, s: seq<Coin>, descending: bool, k: real)
    requires SortedBy(s, descending)
    ensures WithChange(Insert(c, s, descending), k) == (if ChangeKey(c) == k then [c] else []) + WithChange(s, k)
  {
    if s == [] || Precedes(c, s[0], descending) {
      assert ([c] + s)[1..] == s;
    } else {
      var t := Insert(c, s[1..], descending);
      InsertKeepsTies(c, s[1..], descending, k);
      assert ([s[0]] + t)[1..] == t;
      assert ChangeKey(c) != ChangeKey(s[0]);
    }
  }

  /** The sort is stable: coins with equal 24h change keep their relative order. */
  lemma {:induction false} SortIsStable(coins: seq<Coin>, descending: bool, k: real)
    ensures WithChange(SortByChange(coins, descending), k) == WithChange(coins, k)
  {
    if coins != [] {
      SortIsStable(coins[1..], descending, k);
      InsertKeepsTies(coins[0], SortByChange(coins[1..], descending), descending, k);
    }
  }

  /** The first ten coins of the stable sort, or all of them when there are fewer. */
  function Top(coins: seq<Coin>, descending: bool): (r: seq<Coin>)
    ensures |r| == if |coins| < TopCount then |coins| else TopCount
    ensures r == SortByChange(coins, descending)[..|r|]
    ensures SortedBy(r, descending)
    ensures multiset(r) <= multiset(coins)
  {
    var sorted := SortByChange(coins, descending);
    assert |sorted| == |multiset(sorted)| == |coins|;
    var k := if |coins| < TopCount then |coins| else TopCount;
    assert sorted == sorted[..k] + sorted[k..];
    assert multiset(sorted) == multiset(sorted[..k]) + multiset(sorted[k..]);
    sorted[..k]
  }

  /** The gainers button: at most ten coins, largest 24h change first. */
  function Gainers(coins: seq<Coin>): (r: seq<Coin>)
    ensures |r| == if |coins| < TopCount then |coins| else TopCount
    ensures r == SortByChange(coins, true)[..|r|]
    ensures SortedBy(r, true)
    ensures multiset(r) <= multiset(coins)
    ensures forall c :: c in r ==> c in coins
  {
    var r := Top(coins, true);
    assert forall c :: c in r ==> c in multiset(r);
    r
  }

  /** The losers button: at most ten coins, smallest 24h change first. */
  function Losers(coins: seq<Coin>): (r: seq<Coin>)
    ensures |r| == if |coins| < TopCount then |coins| else TopCount
    ensures r == SortByChange(coins, false)[..|r|]
    ensures SortedBy(r, false)
    ensures multiset(r) <= multiset(coins)
    ensures forall c :: c in r ==> c in coins
  {
    var r := Top(coins, false);
    assert forall c :: c in r ==> c in multiset(r);
    r
  }

  /** The coins left out of a top list rank no better than any coin shown in it. */
  lemma TopIsBest(coins: seq<Coin>, descending: bool)
    ensures forall x, y | x in multiset(coins) - multiset(Top(coins, descending)) && y in Top(coins, descending) ::
      Precedes(y, x, descending)
  {
    var sorted := SortByChange(coins, descending);
    var k := if |coins| < TopCount then |coins| else TopCount;
    assert |sorted| == |multiset(sorted)| == |coins|;
    var shown, rest := sorted[..k], sorted[k..];
    assert sorted == shown + rest;
    assert multiset(coins) == multiset(shown) + multiset(rest);
    forall x, y | x in multiset(coins) - multiset(shown) && y in shown
      ensures Precedes(y, x, descending)
    {
      assert x in rest;
      var j :| 0 <= j < |rest| && rest[j] == x;
      var i :| 0 <= i < |shown| && shown[i] == y;
      assert sorted[i] == y && sorted[k + j] == x;
    }
  }

  /** Gainers are the ten largest changes: no coin left out has a larger change than one shown. */
  lemma GainersAreLargest(coins: seq<Coin>)
    ensures forall x, y | x in multiset(coins) - multiset(Gainers(coins)) && y in Gainers(coins) ::
      ChangeKey(x) <= ChangeKey(y)
  {
    TopIsBest(coins, true);
  }

  /** Losers are the ten smallest changes: no coin left out has a smaller change than one shown. */
  lemma LosersAreSmallest(coins: seq<Coin>)
    ensures forall x, y | x in multiset(coins) - multiset(Losers(coins)) && y in Losers(coins) ::
      ChangeKey(y) <= ChangeKey(x)
  {
    TopIsBest(coins, false);
  }
}
