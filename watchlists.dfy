/** The per-user favourite lists: `toggleFavorite` on one user's list of coin ids. */
module Watchlists {
  import opened Seqs

  /** The list with every occurrence of `id` removed and the rest kept in order (script.js:191). */
  function Without(list: seq<string>, id: string): (r: seq<string>)
    ensures id !in r
    ensures forall x | x in list && x != id :: multiset(r)[x] == multiset(list)[x]
    ensures IsSubsequence(r, list)
    ensures id in list ==> |r| < |list|
  {
    var keep := (x: string) => x != id;
    FilterCount(list, keep);
    FilterIsSubsequence(list, keep);
    Filter(list, keep)
  }

  /** The list after clicking the star of `id`: removed if it was there, appended otherwise. */
  function Toggle(list: seq<string>, id: string): (r: seq<string>)
    ensures id in r <==> id !in list
    ensures forall x :: x != id ==> (x in r <==> x in list)
    ensures id !in list ==> r == list + [id]
    ensures id in list ==> r == Without(list, id)
    ensures id in list ==> IsSubsequence(r, list) && |r| < |list|
  {
    if id in list then Without(list, id) else list + [id]
  }

  /** Starring an id that is not in the list and starring it again gives back exactly the list. */
  lemma ToggleRoundTrip(list: seq<string>, id: string)
    requires id !in list
    ensures Toggle(Toggle(list, id), id) == list
  {
    var keep := (x: string) => x != id;
    FilterAppend(list, [id], keep);
    FilterKeepsAll(list, keep);
    assert Filter([id], keep) == [];
  }

  /** Two clicks on the same star leave the set of favourites as it was, even when the stored
      list held `id` more than once. */
  lemma ToggleTwiceSameMembers(list: seq<string>, id: string)
    ensures forall x :: x in Toggle(Toggle(list, id), id) <==> x in list
  {
  }

  /** A list without duplicates stays without duplicates. */
  lemma ToggleKeepsDistinct(list: seq<string>, id: string)
    requires Distinct(list)
    ensures Distinct(Toggle(list, id))
  {
    if id in list {
      FilterKeepsDistinct(list, (x: string) => x != id);
    } else {
      var r := list + [id];
      assert multiset(r) == multiset(list) + multiset{id};
      assert multiset(list)[id] == 0;
    }
  }
}
