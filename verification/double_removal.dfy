/**
 * Removing a favorite from the favorites page. The card
 * (frontend/src/components/TravelCard.tsx) removes the favorite on the
 * server and then calls the page's handler
 * (frontend/src/pages/Favorites.tsx), which asks the server to remove it a
 * second time and filters its list only if that second call succeeds.
 */
module DoubleRemoval {
  import opened Common
  import opened Types
  import Entities
  import Database
  import FavoritesService
  import FavoritesPage
  import TravelCard

  /** The client's view of a server call: resolved on success, rejected with the HTTP layer's message otherwise. */
  function OutcomeOf<T>(r: Result<T, Entities.Error>, message: string): (o: Outcome)
    ensures o.Resolved? <==> r.Success?
  {
    if r.Success? then Resolved else Rejected(message)
  }

  /**
   * As written: the card's removal succeeds, so the page's repeated removal
   * finds nothing and is rejected, and the page keeps listing the
   * destination it was asked to drop.
   */
  lemma DoubleRemovalKeepsEntry(server: map<int, Entities.Favorite>, userId: int, destinationId: int,
                                page: seq<FavoriteResponse>, message: string)
    requires Database.UniqueFavorites(server)
    requires FavoritesService.HasFavorite(server, userId, destinationId)
    requires TravelCard.IsFavoriteIn(page, destinationId)
    ensures FavoritesService.RemoveByDestination(server, userId, destinationId).Success?
    ensures
      var afterCard := FavoritesService.RemoveByDestination(server, userId, destinationId).value;
      var second := FavoritesService.RemoveByDestination(afterCard, userId, destinationId);
      second == Failure(Entities.NotFound("Favorite not found")) &&
      FavoritesPage.AfterRemoveCall(page, destinationId, OutcomeOf(second, message)) == page &&
      TravelCard.IsFavoriteIn(FavoritesPage.AfterRemoveCall(page, destinationId, OutcomeOf(second, message)), destinationId)
  {
    FavoritesService.SecondRemoveFails(server, userId, destinationId);
  }

  /** A concrete instance: user 1's only favorite, destination 7, listed once on the page. */
  lemma DoubleRemovalExample(d: Destination)
    requires d.id == 7
    ensures
      var server := map[10 := Entities.Favorite(10, 1, 7)];
      var page := [FavoriteResponse(10, d)];
      var afterCard := FavoritesService.RemoveByDestination(server, 1, 7);
      afterCard == Success(map[]) &&
      FavoritesService.RemoveByDestination(afterCard.value, 1, 7) == Failure(Entities.NotFound("Favorite not found")) &&
      FavoritesPage.AfterRemoveCall(page, 7, OutcomeOf(FavoritesService.RemoveByDestination(afterCard.value, 1, 7), "")) == page
  {
    var server := map[10 := Entities.Favorite(10, 1, 7)];
    assert FavoritesService.Matches(server[10], 1, 7);
    var afterCard := FavoritesService.RemoveByDestination(server, 1, 7);
    assert afterCard.value == map[] by {
      assert forall k :: k in server ==> FavoritesService.Matches(server[k], 1, 7);
    }
  }

  /**
   * Corrected: the card has removed the favorite once, and the page only
   * drops the entry locally. The server no longer holds the pair, the page
   * no longer lists the destination, and every other entry stays listed.
   */
  lemma SingleRemovalDropsEntry(server: map<int, Entities.Favorite>, userId: int, destinationId: int,
                                page: seq<FavoriteResponse>)
    requires Database.UniqueFavorites(server)
    requires FavoritesService.HasFavorite(server, userId, destinationId)
    ensures FavoritesService.RemoveByDestination(server, userId, destinationId).Success?
    ensures !FavoritesService.HasFavorite(FavoritesService.RemoveByDestination(server, userId, destinationId).value,
                                          userId, destinationId)
    ensures !TravelCard.IsFavoriteIn(FavoritesPage.WithoutDestination(page, destinationId), destinationId)
    ensures forall f: FavoriteResponse :: f.destination.id != destinationId ==>
              multiset(FavoritesPage.WithoutDestination(page, destinationId))[f] == multiset(page)[f]
  {
    TravelCard.RemovedIsNoLongerFavorite(page, destinationId);
    FavoritesPage.WithoutDestinationExact(page, destinationId);
  }

  /**
   * The corrected flow on the page and card objects: the card's successful
   * remove notifies the page, and the page's corrected handler drops the
   * destination without a second server call.
   */
  method RemoveFromFavoritesPage(card: TravelCard.TravelCardState, page: FavoritesPage.FavoritesPageState, removed: Outcome)
    returns (notified: Option<int>)
    requires card.Valid() && !card.favoriteLoading && card.isFavorite
    requires card.isFavoritePage && card.hasRemoveCallback
    requires removed.Resolved?
    modifies card, page
    ensures card.Valid() && !card.isFavorite
    ensures notified == Some(card.destinationId)
    ensures page.favorites == FavoritesPage.WithoutDestination(old(page.favorites), card.destinationId)
    ensures !TravelCard.IsFavoriteIn(page.favorites, card.destinationId)
  {
    var call := card.BeginToggle();
    var alert;
    notified, alert := card.CompleteToggle(removed);
    page.HandleCardRemoved(notified.value);
    TravelCard.RemovedIsNoLongerFavorite(old(page.favorites), card.destinationId);
  }
}
