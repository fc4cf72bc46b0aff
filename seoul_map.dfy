/** The hand-drawn Seoul map: each walker's latitude/longitude is projected
    linearly around a fixed centre and clamped to the visible panel (in
    percent of its width and height), and the marker's colour, icon, heart
    badge and stacking layer are chosen from the walker's identity, presence
    and favourite flag. Coordinates are exact reals. */
module SeoulMap {

  datatype Location = Location(lat: real, lng: real)

  /** A walker as the map receives it. The source marks `isFavorite` optional;
      an absent flag reads as false, which is what `isFavorite` holds here. */
  datatype MapUser = MapUser(
    id: string,
    name: string,
    dogName: string,
    location: Location,
    isOnline: bool,
    isFavorite: bool)

  /** The id the page reserves for the local user. */
  const SelfId: string := "me"

  const CenterLat: real := 37.5665
  const CenterLng: real := 126.9780
  const LatRange: real := 0.1
  const LngRange: real := 0.1
  /** Percent of the panel per `LatRange`/`LngRange` of offset. */
  const Scale: real := 40.0
  const MinPercent: real := 10.0
  const MaxPercent: real := 90.0

  /** Horizontal position before clamping: east of the centre is right of 50%. */
  function RawX(lng: real): (x: real)
    ensures (x - 50.0) * LngRange == (lng - CenterLng) * Scale
  {
    50.0 + ((lng - CenterLng) / LngRange) * Scale
  }

  /** Vertical position before clamping: north of the centre is above 50%
      (screen y grows downward). */
  function RawY(lat: real): (y: real)
    ensures (50.0 - y) * LatRange == (lat - CenterLat) * Scale
  {
    50.0 - ((lat - CenterLat) / LatRange) * Scale
  }

  /** `Math.max(10, Math.min(90, v))`. */
  function Clamp(v: real): (c: real)
    ensures MinPercent <= c <= MaxPercent
    ensures MinPercent <= v <= MaxPercent ==> c == v
    ensures v < MinPercent ==> c == MinPercent
    ensures v > MaxPercent ==> c == MaxPercent
  {
    var low := if MaxPercent < v then MaxPercent else v;
    if MinPercent > low then MinPercent else low
  }

  datatype Position = Position(left: real, top: real)

  /** Where a marker is placed, in percent of the panel. */
  function Project(loc: Location): (p: Position)
    ensures MinPercent <= p.left <= MaxPercent && MinPercent <= p.top <= MaxPercent
  {
    Position(Clamp(RawX(loc.lng)), Clamp(RawY(loc.lat)))
  }

  /** The reference centre lands in the middle of the panel. */
  lemma CenterProjectsToMiddle()
    ensures Project(Location(CenterLat, CenterLng)) == Position(50.0, 50.0)
  {
  }

  /** Clamping never reverses order. */
  lemma ClampMonotonic(u: real, v: real)
    requires u <= v
    ensures Clamp(u) <= Clamp(v)
  {
  }

  /** Moving east never moves a marker left; moving north never moves it
      down (the latitude axis is inverted). */
  lemma ProjectMonotonic(a: Location, b: Location)
    ensures a.lng <= b.lng ==> Project(a).left <= Project(b).left
    ensures a.lat <= b.lat ==> Project(a).top >= Project(b).top
  {
    if a.lng <= b.lng {
      ClampMonotonic(RawX(a.lng), RawX(b.lng));
    }
    if a.lat <= b.lat {
      ClampMonotonic(RawY(b.lat), RawY(a.lat));
    }
  }

  /** A point within one range of the centre on both axes is placed
      without clamping, exactly by the linear map. */
  lemma NearPointsAreNotClamped(loc: Location)
    requires CenterLng - LngRange <= loc.lng <= CenterLng + LngRange
    requires CenterLat - LatRange <= loc.lat <= CenterLat + LatRange
    ensures Project(loc) == Position(RawX(loc.lng), RawY(loc.lat))
  {
  }

  datatype MarkerColor = Orange | Green | Gray
  datatype Icon = House | Dog
  datatype Layer = Z10 | Z20

  /** The visual encoding of one marker. `onlineDot` is the small presence dot
      next to the dog's name; `selfCaption` is the "my location" caption. */
  datatype MarkerStyle = MarkerStyle(
    color: MarkerColor,
    icon: Icon,
    heartBadge: bool,
    onlineDot: bool,
    selfCaption: bool,
    layer: Layer)

  predicate IsCurrentUser(u: MapUser)
  {
    u.id == SelfId
  }

  function Style(u: MapUser): (st: MarkerStyle)
    ensures st.color == Orange <==> IsCurrentUser(u)
    ensures st.color == Green <==> !IsCurrentUser(u) && u.isOnline
    ensures st.color == Gray <==> !IsCurrentUser(u) && !u.isOnline
    ensures st.icon == House <==> IsCurrentUser(u)
    ensures st.layer == Z20 <==> IsCurrentUser(u)
    ensures st.selfCaption <==> IsCurrentUser(u)
    ensures st.heartBadge <==> u.isFavorite
    ensures st.onlineDot <==> u.isOnline
  {
    var self := IsCurrentUser(u);
    MarkerStyle(
      if self then Orange else if u.isOnline then Green else Gray,
      if self then House else Dog,
      u.isFavorite,
      u.isOnline,
      self,
      if self then Z20 else Z10)
  }

  /** The local user's marker looks the same whether or not it is online,
      apart from the presence dot. */
  lemma SelfStyleIgnoresPresence(u: MapUser)
    requires IsCurrentUser(u)
    ensures Style(u).(onlineDot := false) == Style(u.(isOnline := false)).(onlineDot := false)
  {
  }

  /** One marker per walker, in the order given; `caption` is the dog name
      written under the marker. */
  datatype Marker = Marker(id: string, caption: string, position: Position, style: MarkerStyle)

  function Markers(users: seq<MapUser>): (ms: seq<Marker>)
    ensures |ms| == |users|
    ensures forall i :: 0 <= i < |users| ==>
      ms[i].id == users[i].id && ms[i].caption == users[i].dogName && ms[i].position == Project(users[i].location) && ms[i].style == Style(users[i])
  {
    seq(|users|, i requires 0 <= i < |users| =>
      Marker(users[i].id, users[i].dogName, Project(users[i].location), Style(users[i])))
  }
}
