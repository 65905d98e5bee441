/**
 * The destination card (frontend/src/components/TravelCard.tsx): its heart
 * button, which adds or removes the destination from the user's favorites,
 * and the membership check made when the card mounts.
 *
 * The toggle awaits a server call between its two halves; the model splits it
 * into `BeginToggle`, which decides the call and raises the loading flag, and
 * `CompleteToggle`, which receives the call's outcome.
 */
module TravelCard {
  import opened Common
  import opened Types
  import FavoritesPage

  /** The server call a toggle makes. */
  datatype FavoriteCall = AddFavorite(destinationId: int) | RemoveFavorite(destinationId: int)

  /** `favorites.some(fav => fav.destination.id === destinationId)`. */
  predicate IsFavoriteIn(favorites: seq<FavoriteResponse>, destinationId: int) {
    exists i :: 0 <= i < |favorites| && favorites[i].destination.id == destinationId
  }

  /** Once the page has dropped a destination, no listed favorite is that destination. */
  lemma RemovedIsNoLongerFavorite(favorites: seq<FavoriteResponse>, destinationId: int)
    ensures !IsFavoriteIn(FavoritesPage.WithoutDestination(favorites, destinationId), destinationId)
  {
    FavoritesPage.WithoutDestinationExact(favorites, destinationId);
  }

  /** The call a toggle makes from a given membership: remove when favorite, add otherwise. */
  function CallFor(isFavorite: bool, destinationId: int): (call: FavoriteCall)
    ensures call.destinationId == destinationId
    ensures call.RemoveFavorite? <==> isFavorite
  {
    if isFavorite then RemoveFavorite(destinationId) else AddFavorite(destinationId)
  }

  /** Membership after a completed toggle: flipped when the call resolved, kept when it was rejected. */
  function AfterToggle(isFavorite: bool, outcome: Outcome): (r: bool)
    ensures outcome.Resolved? ==> r != isFavorite
    ensures outcome.Rejected? ==> r == isFavorite
  {
    if outcome.Resolved? then !isFavorite else isFavorite
  }

  /** Two toggles that both succeed return the card to where it started. */
  lemma ToggleTwiceRestores(isFavorite: bool, first: Outcome, second: Outcome)
    requires first.Resolved? && second.Resolved?
    ensures AfterToggle(AfterToggle(isFavorite, first), second) == isFavorite
  {
  }

  class TravelCardState {
    const destinationId: int
    const isFavoritePage: bool
    /** Whether the parent passed `onRemoveFavorite`. */
    const hasRemoveCallback: bool
    /** Whether the parent passed `onDelete`. */
    const hasDeleteCallback: bool
    var isFavorite: bool
    var favoriteLoading: bool
    /** The call a toggle is awaiting, if any. */
    var pending: Option<FavoriteCall>

    /** The loading flag is up exactly while a call is awaited, and that call matches the membership it started from. */
    ghost predicate Valid()
      reads this
    {
      (favoriteLoading <==> pending.Some?) &&
      (pending.Some? ==> pending.value == CallFor(isFavorite, destinationId))
    }

    constructor (destinationId: int, isFavoritePage: bool, hasRemoveCallback: bool, hasDeleteCallback: bool)
      ensures Valid()
      ensures this.destinationId == destinationId && this.isFavoritePage == isFavoritePage
      ensures this.hasRemoveCallback == hasRemoveCallback && this.hasDeleteCallback == hasDeleteCallback
      ensures !isFavorite && !favoriteLoading
    {
      this.destinationId := destinationId;
      this.isFavoritePage := isFavoritePage;
      this.hasRemoveCallback := hasRemoveCallback;
      this.hasDeleteCallback := hasDeleteCallback;
      isFavorite := false;
      favoriteLoading := false;
      pending := None;
    }

    /**
     * The mount effect. On the favorites page the card is a favorite without
     * asking; elsewhere it fetches the user's favorites (`fetched`) and looks
     * for its destination, alerting on failure. Returns whether the fetch was
     * made and the alert shown.
     */
    method Mount(fetched: Result<seq<FavoriteResponse>, string>) returns (fetchIssued: bool, alert: Option<string>)
      requires Valid() && !favoriteLoading
      modifies this
      ensures Valid() && !favoriteLoading
      ensures fetchIssued <==> !isFavoritePage
      ensures isFavoritePage ==> isFavorite && alert == None
      ensures !isFavoritePage && fetched.Success? ==>
                isFavorite == IsFavoriteIn(fetched.value, destinationId) && alert == None
      ensures !isFavoritePage && fetched.Failure? ==>
                isFavorite == old(isFavorite) && alert == Some(ErrorText(fetched.error, "Failed to update favorites"))
    {
      alert := None;
      if !isFavoritePage {
        fetchIssued := true;
        if fetched.Success? {
          isFavorite := exists i :: 0 <= i < |fetched.value| && fetched.value[i].destination.id == destinationId;
        } else {
          alert := Some(ErrorText(fetched.error, "Failed to update favorites"));
        }
      } else {
        fetchIssued := false;
        isFavorite := true;
      }
    }

    /**
     * First half of `handleToggleFavorite`: ignored while a toggle is in
     * flight; otherwise raises the loading flag and issues the remove or add
     * call that matches the current membership.
     */
    method BeginToggle() returns (call: Option<FavoriteCall>)
      requires Valid()
      modifies this
      ensures Valid()
      ensures old(favoriteLoading) ==> call == None && favoriteLoading && pending == old(pending)
      ensures !old(favoriteLoading) ==> favoriteLoading && call == Some(CallFor(isFavorite, destinationId))
      ensures call.Some? ==> pending == call
      ensures isFavorite == old(isFavorite)
    {
      if favoriteLoading {
        return None;
      }
      favoriteLoading := true;
      call := Some(CallFor(isFavorite, destinationId));
      pending := call;
    }

    /**
     * Second half: the awaited call's outcome. A successful remove clears the
     * heart and, on the favorites page, notifies the parent; a successful add
     * sets it; a failure keeps it and alerts. The loading flag drops in every
     * case.
     */
    method CompleteToggle(outcome: Outcome) returns (notifyParent: Option<int>, alert: Option<string>)
      requires Valid() && favoriteLoading
      modifies this
      ensures Valid() && !favoriteLoading
      ensures isFavorite == AfterToggle(old(isFavorite), outcome)
      ensures notifyParent.Some? <==>
                outcome.Resolved? && old(isFavorite) && isFavoritePage && hasRemoveCallback
      ensures notifyParent.Some? ==> notifyParent.value == destinationId
      ensures outcome.Resolved? ==> alert == None
      ensures outcome.Rejected? ==> alert == Some(ErrorText(outcome.message, "Failed to update favorites"))
    {
      notifyParent := None;
      alert := None;
      if outcome.Resolved? {
        if isFavorite {
          isFavorite := false;
          if isFavoritePage && hasRemoveCallback {
            notifyParent := Some(destinationId);
          }
        } else {
          isFavorite := true;
        }
      } else {
        alert := Some(ErrorText(outcome.message, "Failed to update favorites"));
      }
      favoriteLoading := false;
      pending := None;
    }

    /** Two clicks whose calls both succeed leave the membership as it was. */
    method ToggleTwice(first: Outcome, second: Outcome) returns (calls: seq<FavoriteCall>)
      requires Valid() && !favoriteLoading
      requires first.Resolved? && second.Resolved?
      modifies this
      ensures Valid() && !favoriteLoading
      ensures isFavorite == old(isFavorite)
      ensures calls == [CallFor(old(isFavorite), destinationId), CallFor(!old(isFavorite), destinationId)]
    {
      var c1 := BeginToggle();
      var _, _ := CompleteToggle(first);
      var c2 := BeginToggle();
      var _, _ := CompleteToggle(second);
      calls := [c1.value, c2.value];
    }

    /** `handleDelete`: the parent's delete handler is called with the card's id when one was passed. */
    method HandleDelete() returns (deleted: Option<int>)
      ensures deleted.Some? <==> hasDeleteCallback
      ensures deleted.Some? ==> deleted.value == destinationId
    {
      deleted := if hasDeleteCallback then Some(destinationId) else None;
    }
  }
}
