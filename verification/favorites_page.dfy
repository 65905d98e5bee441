/**
 * The favorites page (frontend/src/pages/Favorites.tsx): the list of saved
 * destinations, its count label and the handler a card calls to drop an entry.
 */
module FavoritesPage {
  import opened Common
  import opened Seqs
  import opened Types

  function KeepOthers(destinationId: int): FavoriteResponse -> bool {
    (f: FavoriteResponse) => f.destination.id != destinationId
  }

  /** `favorites.filter(fav => fav.destination.id !== destinationId)`. */
  function WithoutDestination(favorites: seq<FavoriteResponse>, destinationId: int): (r: seq<FavoriteResponse>)
    ensures |r| <= |favorites|
    ensures forall i :: 0 <= i < |r| ==> r[i].destination.id != destinationId
  {
    Filter(favorites, KeepOthers(destinationId))
  }

  /** Entries for the removed destination are gone; every other entry stays, as often as before and in order. */
  lemma WithoutDestinationExact(favorites: seq<FavoriteResponse>, destinationId: int)
    ensures forall i :: 0 <= i < |WithoutDestination(favorites, destinationId)| ==>
              WithoutDestination(favorites, destinationId)[i].destination.id != destinationId
    ensures forall f: FavoriteResponse :: f.destination.id != destinationId ==>
              multiset(WithoutDestination(favorites, destinationId))[f] == multiset(favorites)[f]
    ensures IsSubsequence(WithoutDestination(favorites, destinationId), favorites)
  {
    FilterMultiset(favorites, KeepOthers(destinationId));
    FilterIsSubsequence(favorites, KeepOthers(destinationId));
  }

  /** Removing a destination that is not listed leaves the list as it was. */
  lemma WithoutAbsentDestination(favorites: seq<FavoriteResponse>, destinationId: int)
    requires forall i :: 0 <= i < |favorites| ==> favorites[i].destination.id != destinationId
    ensures WithoutDestination(favorites, destinationId) == favorites
  {
    FilterKeepsAll(favorites, KeepOthers(destinationId));
  }

  /** The noun after the count: singular exactly when one favorite is listed. */
  function CountLabel(count: int): (noun: string)
    ensures noun == "destination" <==> count == 1
    ensures noun == "destination" || noun == "destinations"
  {
    if count == 1 then "destination" else "destinations"
  }

  /**
   * The list after `handleRemoveFavorite` has awaited the remove-by-destination
   * call: filtered when the call resolved, untouched when it was rejected.
   */
  function AfterRemoveCall(favorites: seq<FavoriteResponse>, destinationId: int, removed: Outcome): (r: seq<FavoriteResponse>)
    ensures removed.Rejected? ==> r == favorites
    ensures removed.Resolved? ==> forall i :: 0 <= i < |r| ==> r[i].destination.id != destinationId
  {
    if removed.Resolved? then WithoutDestination(favorites, destinationId) else favorites
  }

  class FavoritesPageState {
    var favorites: seq<FavoriteResponse>
    var loading: bool
    var error: string

    constructor ()
      ensures favorites == [] && loading && error == ""
    {
      favorites := [];
      loading := true;
      error := "";
    }

    /** `fetchFavorites`: the fetched list or the error text; loading stops either way. */
    method FetchFavorites(response: Result<seq<FavoriteResponse>, string>)
      modifies this
      ensures !loading
      ensures response.Success? ==> favorites == response.value && error == old(error)
      ensures response.Failure? ==>
                favorites == old(favorites) && error == ErrorText(response.error, "Failed to load favorites")
    {
      if response.Success? {
        favorites := response.value;
      } else {
        error := ErrorText(response.error, "Failed to load favorites");
      }
      loading := false;
    }

    /**
     * `handleRemoveFavorite` as written: it always asks the server to remove
     * the favorite for `destinationId` again, and filters the local list only
     * if that call resolves; a rejection is shown as an alert.
     */
    method HandleRemoveFavorite(destinationId: int, removed: Outcome) returns (request: int, alert: Option<string>)
      modifies this
      ensures request == destinationId
      ensures favorites == AfterRemoveCall(old(favorites), destinationId, removed)
      ensures removed.Resolved? ==> alert == None
      ensures removed.Rejected? ==> alert == Some(ErrorText(removed.message, "Failed to remove favorite"))
      ensures loading == old(loading) && error == old(error)
    {
      request := destinationId;
      if removed.Resolved? {
        favorites := WithoutDestination(favorites, destinationId);
        alert := None;
      } else {
        alert := Some(ErrorText(removed.message, "Failed to remove favorite"));
      }
    }

    /**
     * Corrected handler: the card has already removed the favorite on the
     * server before it calls back, so the page only drops the entry locally.
     */
    method HandleCardRemoved(destinationId: int)
      modifies this
      ensures favorites == WithoutDestination(old(favorites), destinationId)
      ensures loading == old(loading) && error == old(error)
    {
      favorites := WithoutDestination(favorites, destinationId);
    }
  }
}
