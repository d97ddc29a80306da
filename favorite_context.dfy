/**
 * `FavoriteProvider`: the signed-in user's favorite coins, mirrored into
 * the `simulatedFavorites` storage key. The authentication state
 * (`isAuthenticated`, `token`) is passed to each operation, as the
 * provider reads it from the auth context when the callback runs.
 */
module FavoriteContext {
  import opened JsValues
  import opened Seqs

  /** `favoriteCoins.filter(fav => fav !== symbol)` keeps these. */
  function Other(symbol: string): string -> bool
  {
    (fav: string) => fav != symbol
  }

  /** In a duplicate-free list, no element before or after the symbol's position equals it. */
  lemma OnlyOccurrence(favs: seq<string>, symbol: string, i: nat)
    requires Distinct(favs)
    requires i < |favs| && favs[i] == symbol
    ensures forall x :: x in favs[..i] ==> Other(symbol)(x)
    ensures forall x :: x in favs[i + 1..] ==> Other(symbol)(x)
  {
    var before, after := favs[..i], favs[i + 1..];
    forall x | x in before ensures x != symbol {
      var k :| 0 <= k < |before| && before[k] == x;
      assert favs[k] == x;
    }
    forall x | x in after ensures x != symbol {
      var k :| 0 <= k < |after| && after[k] == x;
      assert favs[i + 1 + k] == x;
    }
  }

  /** Filtering out a symbol that occurs only between `before` and `after` leaves `before + after`. */
  lemma FilterOutMiddle(before: seq<string>, symbol: string, after: seq<string>)
    requires forall x :: x in before ==> Other(symbol)(x)
    requires forall x :: x in after ==> Other(symbol)(x)
    ensures Filter(before + ([symbol] + after), Other(symbol)) == before + after
  {
    var p := Other(symbol);
    var rest := [symbol] + after;
    FilterKeepsAll(before, p);
    FilterKeepsAll(after, p);
    assert Filter([symbol], p) == [] by {
      assert !p(symbol);
      assert [symbol][1..] == [];
    }
    FilterConcat([symbol], after, p);
    assert Filter(rest, p) == after;
    FilterConcat(before, rest, p);
  }

  /** Removing a symbol from a duplicate-free list deletes its one occurrence and keeps the rest in order. */
  lemma {:induction false} RemoveDeletesOne(favs: seq<string>, symbol: string, i: nat)
    requires Distinct(favs)
    requires i < |favs| && favs[i] == symbol
    ensures Filter(favs, Other(symbol)) == favs[..i] + favs[i + 1..]
  {
    OnlyOccurrence(favs, symbol, i);
    assert favs == favs[..i] + ([symbol] + favs[i + 1..]);
    FilterOutMiddle(favs[..i], symbol, favs[i + 1..]);
  }

  /** The provider's state and its storage key. */
  class FavoritesStore {
    var favorites: seq<string>
    /** `localStorage['simulatedFavorites']`, parsed. */
    var stored: Option<seq<string>>
    var loading: bool
    var error: Option<string>

    /** The list, and whatever is stored for it, never holds a symbol twice. */
    predicate Valid()
      reads this
    {
      Distinct(favorites) && (stored.Some? ==> Distinct(stored.value))
    }

    /**
     * The provider mounts over whatever `simulatedFavorites` already holds;
     * only this provider writes that key, always a duplicate-free list.
     */
    constructor (initialStored: Option<seq<string>>)
      requires initialStored.Some? ==> Distinct(initialStored.value)
      ensures Valid()
      ensures favorites == [] && stored == initialStored && !loading && error == None
    {
      favorites := [];
      stored := initialStored;
      loading := false;
      error := None;
    }

    /** `isFavorite(symbol)` */
    function IsFavorite(symbol: string): (b: bool)
      reads this
      ensures b <==> exists i :: 0 <= i < |favorites| && favorites[i] == symbol
    {
      symbol in favorites
    }

    /** `fetchFavorites`: the stored list when signed in, the empty list otherwise. */
    method Fetch(authenticated: bool, token: Option<string>)
      modifies this
      ensures !(authenticated && TruthyStr(token)) ==>
                favorites == [] && stored == old(stored) && loading == old(loading) && error == old(error)
      ensures authenticated && TruthyStr(token) ==>
                favorites == (if old(stored).Some? then old(stored).value else [])
                && stored == old(stored) && !loading && error == None
      ensures old(Valid()) ==> Valid()
    {
      if !authenticated || !TruthyStr(token) {
        favorites := [];
        return;
      }
      loading := true;
      error := None;
      favorites := if stored.Some? then stored.value else [];
      loading := false;
    }

    /** `addFavorite`: appends a new symbol and stores the list; a no-op when signed out or already present. */
    method Add(authenticated: bool, token: Option<string>, symbol: string)
      modifies this
      ensures !(authenticated && TruthyStr(token)) || symbol in old(favorites) ==> unchanged(this)
      ensures authenticated && TruthyStr(token) && symbol !in old(favorites) ==>
                favorites == old(favorites) + [symbol] && stored == Some(favorites) && !loading && error == None
      ensures old(Valid()) ==> Valid()
      ensures IsFavorite(symbol) || !(authenticated && TruthyStr(token))
    {
      if !authenticated || !TruthyStr(token) {
        return;
      }
      if symbol in favorites {
        return;
      }
      loading := true;
      error := None;
      var updated := favorites + [symbol];
      stored := Some(updated);
      favorites := updated;
      loading := false;
    }

    /** `removeFavorite`: drops the symbol and stores the list; a no-op when signed out or absent. */
    method Remove(authenticated: bool, token: Option<string>, symbol: string)
      modifies this
      ensures !(authenticated && TruthyStr(token)) || symbol !in old(favorites) ==> unchanged(this)
      ensures authenticated && TruthyStr(token) && symbol in old(favorites) ==>
                favorites == Filter(old(favorites), Other(symbol)) && stored == Some(favorites)
                && !loading && error == None
      ensures old(Valid()) ==> Valid()
      ensures !IsFavorite(symbol) || !(authenticated && TruthyStr(token))
    {
      if !authenticated || !TruthyStr(token) {
        return;
      }
      if symbol !in favorites {
        return;
      }
      loading := true;
      error := None;
      if Distinct(favorites) {
        FilterDistinct(favorites, Other(symbol));
      }
      var updated := Filter(favorites, Other(symbol));
      stored := Some(updated);
      favorites := updated;
      loading := false;
    }

    /** The effect on a change of authentication: refetch when signed in, otherwise clear the list and the key. */
    method AuthChanged(authenticated: bool, token: Option<string>)
      modifies this
      ensures !authenticated ==> favorites == [] && stored == None && loading == old(loading) && error == old(error)
      ensures authenticated && TruthyStr(token) ==>
                favorites == (if old(stored).Some? then old(stored).value else []) && stored == old(stored)
                && !loading && error == None
      ensures authenticated && !TruthyStr(token) ==>
                favorites == [] && stored == old(stored) && loading == old(loading) && error == old(error)
      ensures old(Valid()) ==> Valid()
    {
      if authenticated {
        Fetch(authenticated, token);
      } else {
        favorites := [];
        stored := None;
      }
    }
  }
}
