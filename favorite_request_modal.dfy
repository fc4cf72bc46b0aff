/** The dialog listing incoming favourite requests. It only renders the
    requests it is given and forwards the pressed button's request id to the
    accept or reject callback; deciding what accepting or rejecting does is
    left to its caller. */
module FavoriteRequestModal {
  import opened TimeAgo
  import UserList

  datatype User = User(id: string, name: string, nickname: string, dogName: string, dogBreed: string)

  datatype FavoriteRequest = FavoriteRequest(
    id: string,
    fromUser: User,
    toUser: User,
    /** `timestamp.getTime()`, in milliseconds. */
    timestampMs: int)

  /** `formatTimeAgo`, given `now.getTime() - date.getTime()`. It is written
      out separately in the source, with the same thresholds as the list's
      `formatLastSeen`. */
  function FormatTimeAgo(diffMs: int): Elapsed
  {
    var diffMins := FloorDiv(diffMs, MsPerMinute);
    if diffMins < 1 then JustNow
    else if diffMins < 60 then Minutes(diffMins)
    else if diffMins < 1440 then Hours(FloorDiv(diffMins, 60))
    else Days(FloorDiv(diffMins, 1440))
  }

  lemma FormatTimeAgoIsClassify(diffMs: int)
    ensures FormatTimeAgo(diffMs) == Classify(diffMs)
  {
    MinutesThenHours(diffMs);
    MinutesThenDays(diffMs);
  }

  /** The two copies of the bucketing compute the same label for every
      millisecond difference. */
  lemma FormatTimeAgoMatchesFormatLastSeen(diffMs: int)
    ensures FormatTimeAgo(diffMs) == UserList.FormatLastSeen(diffMs)
  {
    FormatTimeAgoIsClassify(diffMs);
    UserList.FormatLastSeenIsClassify(diffMs);
  }

  /** The callback a button press invokes, with the id it passes. */
  datatype Dispatch = OnAccept(requestId: string) | OnReject(requestId: string)

  datatype RequestCard = RequestCard(
    requestId: string,
    fromDogName: string,
    fromNickname: string,
    fromDogBreed: string,
    age: Elapsed,
    accept: Dispatch,
    reject: Dispatch)

  /** The dialog body: an empty-state notice, or one card per request. */
  datatype View = NoRequestsNotice | Cards(cards: seq<RequestCard>)

  function Render(requests: seq<FavoriteRequest>, nowMs: int): (v: View)
    ensures v.NoRequestsNotice? <==> requests == []
    ensures v.Cards? ==> |v.cards| == |requests|
    ensures v.Cards? ==> forall i :: 0 <= i < |requests| ==>
      && v.cards[i].requestId == requests[i].id
      && v.cards[i].fromDogName == requests[i].fromUser.dogName
      && v.cards[i].fromNickname == requests[i].fromUser.nickname
      && v.cards[i].fromDogBreed == requests[i].fromUser.dogBreed
      && v.cards[i].age == Classify(nowMs - requests[i].timestampMs)
      && v.cards[i].accept == OnAccept(requests[i].id)
      && v.cards[i].reject == OnReject(requests[i].id)
  {
    if requests == [] then NoRequestsNotice
    else
      var cards := seq(|requests|, i requires 0 <= i < |requests| =>
        var r := requests[i];
        RequestCard(r.id, r.fromUser.dogName, r.fromUser.nickname, r.fromUser.dogBreed,
                    FormatTimeAgo(nowMs - r.timestampMs), OnAccept(r.id), OnReject(r.id)));
      assert forall i :: 0 <= i < |requests| ==> cards[i].age == Classify(nowMs - requests[i].timestampMs) by {
        forall i | 0 <= i < |requests| {
          FormatTimeAgoIsClassify(nowMs - requests[i].timestampMs);
        }
      }
      Cards(cards)
  }

  /** Request ids are distinct. */
  predicate DistinctRequestIds(requests: seq<FavoriteRequest>)
  {
    forall a, b :: 0 <= a < b < |requests| ==> requests[a].id != requests[b].id
  }

  /** With distinct request ids, the accept (and the reject) action of a
      request is offered by exactly one card, the one for that request. */
  lemma ActionsSelectOneCard(requests: seq<FavoriteRequest>, nowMs: int, j: int, k: int)
    requires DistinctRequestIds(requests)
    requires 0 <= j < |requests| && 0 <= k < |requests|
    ensures Render(requests, nowMs).Cards?
    ensures Render(requests, nowMs).cards[j].accept == OnAccept(requests[k].id) <==> j == k
    ensures Render(requests, nowMs).cards[j].reject == OnReject(requests[k].id) <==> j == k
  {
    var v := Render(requests, nowMs);
    if j != k {
      assert v.cards[j].accept == OnAccept(requests[j].id);
      assert requests[j].id != requests[k].id;
    }
  }
}
