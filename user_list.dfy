/** The list view of nearby walkers: each card shows how long ago the walker
    was last seen and one favourite action button, which depends on whether
    the walker is already a favourite. */
module UserList {
  import opened TimeAgo

  datatype User = User(
    id: string,
    name: string,
    dogName: string,
    dogBreed: string,
    status: string,
    isOnline: bool,
    isFavorite: bool,
    /** `lastSeen.getTime()`, in milliseconds. */
    lastSeenMs: int)

  /** `formatLastSeen`, given `now.getTime() - date.getTime()`: the minute
      count is floored and then bucketed by the thresholds 1, 60 and 1440. */
  function FormatLastSeen(diffMs: int): Elapsed
  {
    var diffMins := FloorDiv(diffMs, MsPerMinute);
    if diffMins < 1 then JustNow
    else if diffMins < 60 then Minutes(diffMins)
    else if diffMins < 1440 then Hours(FloorDiv(diffMins, 60))
    else Days(FloorDiv(diffMins, 1440))
  }

  /** The list's bucketing agrees with the millisecond reference on every
      difference, negative ones included. */
  lemma FormatLastSeenIsClassify(diffMs: int)
    ensures FormatLastSeen(diffMs) == Classify(diffMs)
  {
    MinutesThenHours(diffMs);
    MinutesThenDays(diffMs);
  }

  /** What the favourite button of a card does when pressed. */
  datatype FavoriteAction = RemoveFavorite(userId: string) | RequestFavorite(userId: string)

  /** A favourite shows only the remove button, anyone else only the request
      button; either one carries the card's own user id. */
  function FavoriteButton(u: User): (a: FavoriteAction)
    ensures a.userId == u.id
    ensures a.RemoveFavorite? <==> u.isFavorite
    ensures a.RequestFavorite? <==> !u.isFavorite
  {
    if u.isFavorite then RemoveFavorite(u.id) else RequestFavorite(u.id)
  }

  datatype Card = Card(userId: string, heart: bool, lastSeen: Elapsed, favoriteAction: FavoriteAction)

  /** The list body: an empty-state notice, or one card per walker in order. */
  datatype View = NoWalkersNotice | Cards(cards: seq<Card>)

  function Render(users: seq<User>, nowMs: int): (v: View)
    ensures v.NoWalkersNotice? <==> users == []
    ensures v.Cards? ==> |v.cards| == |users|
    ensures v.Cards? ==> forall i :: 0 <= i < |users| ==>
      && v.cards[i].userId == users[i].id
      && v.cards[i].heart == users[i].isFavorite
      && v.cards[i].lastSeen == Classify(nowMs - users[i].lastSeenMs)
      && v.cards[i].favoriteAction == FavoriteButton(users[i])
  {
    if users == [] then NoWalkersNotice
    else
      var cards := seq(|users|, i requires 0 <= i < |users| =>
        Card(users[i].id, users[i].isFavorite, FormatLastSeen(nowMs - users[i].lastSeenMs), FavoriteButton(users[i])));
      assert forall i :: 0 <= i < |users| ==> cards[i].lastSeen == Classify(nowMs - users[i].lastSeenMs) by {
        forall i | 0 <= i < |users| {
          FormatLastSeenIsClassify(nowMs - users[i].lastSeenMs);
        }
      }
      Cards(cards)
  }
}
