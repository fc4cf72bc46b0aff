/** The main page's state: a fixed roster of nearby walkers and the local
    user's own profile, with the handlers that replace parts of that state
    and the lists derived from it. */
module IndexPage {
  import opened Seqs
  import SeoulMap
  import ProfileModal

  type Location = SeoulMap.Location

  /** A walker in the roster. */
  datatype User = User(
    id: string,
    name: string,
    dogName: string,
    dogBreed: string,
    location: Location,
    status: string,
    isOnline: bool,
    isFavorite: bool,
    /** `lastSeen.getTime()`, in milliseconds. */
    lastSeenMs: int)

  /** The local user, who has no favourite flag and no last-seen time. */
  datatype CurrentUser = CurrentUser(
    id: string,
    name: string,
    dogName: string,
    dogBreed: string,
    location: Location,
    status: string,
    isOnline: bool)

  /** The fixed location the "share location" action always reports
      (central Myeongdong). */
  const SharedLocation: Location := SeoulMap.Location(37.5665, 126.9780)

  /** The hard-coded roster; `nowMs` is the clock reading at start-up. */
  function MockUsers(nowMs: int): (us: seq<User>)
    ensures |us| == 3
    ensures DistinctIds(us) && NoSelf(us)
  {
    [ User("1", "김민수", "콩이", "골든리트리버", SeoulMap.Location(37.5665, 126.9780),
           "지금 남산공원에 있어요! 🐕", true, true, nowMs),
      User("2", "배용남", "라떼", "시바견", SeoulMap.Location(37.5658, 126.9775),
           "7시에 한강공원 산책 나갈게요~", false, false, nowMs - 30 * 60 * 1000),
      User("3", "정재혁", "솜이", "푸들", SeoulMap.Location(37.5672, 126.9785),
           "조용한 곳에서 산책 중...", true, true, nowMs) ]
  }

  const InitialCurrentUser: CurrentUser :=
    CurrentUser(SeoulMap.SelfId, "나", "내 강아지", "믹스", SeoulMap.Location(37.5665, 126.9780), "산책 준비 중...", true)

  /** No two walkers share an id. */
  predicate DistinctIds(us: seq<User>)
  {
    forall i, j :: 0 <= i < j < |us| ==> us[i].id != us[j].id
  }

  /** No walker uses the id reserved for the local user. */
  predicate NoSelf(us: seq<User>)
  {
    forall i :: 0 <= i < |us| ==> us[i].id != SeoulMap.SelfId
  }

  /** `prev.map(user => user.id === userId ? {...user, isFavorite: !user.isFavorite} : user)`:
      the favourite flag is negated on exactly the walkers with that id; every
      other walker, and every other field, is left alone. */
  function Toggle(us: seq<User>, userId: string): (r: seq<User>)
    ensures |r| == |us|
    ensures forall i :: 0 <= i < |us| ==> r[i].isFavorite == (us[i].isFavorite != (us[i].id == userId))
    ensures forall i :: 0 <= i < |us| ==> r[i].(isFavorite := us[i].isFavorite) == us[i]
  {
    seq(|us|, i requires 0 <= i < |us| =>
      if us[i].id == userId then us[i].(isFavorite := !us[i].isFavorite) else us[i])
  }

  /** Toggling an id nobody has changes nothing. */
  lemma ToggleAbsent(us: seq<User>, userId: string)
    requires forall i :: 0 <= i < |us| ==> us[i].id != userId
    ensures Toggle(us, userId) == us
  {
  }

  /** Toggling the same id twice restores the roster. */
  lemma ToggleTwice(us: seq<User>, userId: string)
    ensures Toggle(Toggle(us, userId), userId) == us
  {
    var once, twice := Toggle(us, userId), Toggle(Toggle(us, userId), userId);
    forall i | 0 <= i < |us| ensures twice[i] == us[i] {
      assert once[i].id == us[i].id;
    }
  }

  /** With distinct ids, a toggle changes at most one walker, and that walker
      is the one with the given id. */
  lemma ToggleChangesAtMostOne(us: seq<User>, userId: string, i: int, j: int)
    requires DistinctIds(us)
    requires 0 <= i < |us| && 0 <= j < |us|
    requires Toggle(us, userId)[i] != us[i] && Toggle(us, userId)[j] != us[j]
    ensures i == j && us[i].id == userId
  {
  }

  /** A toggle keeps the ids, so it keeps the roster's id invariants. */
  lemma TogglePreservesIds(us: seq<User>, userId: string)
    ensures forall i :: 0 <= i < |us| ==> Toggle(us, userId)[i].id == us[i].id
    ensures DistinctIds(us) ==> DistinctIds(Toggle(us, userId))
    ensures NoSelf(us) ==> NoSelf(Toggle(us, userId))
  {
    var r := Toggle(us, userId);
    assert forall i :: 0 <= i < |us| ==> r[i].id == r[i].(isFavorite := us[i].isFavorite).id == us[i].id;
  }

  function IsFavorite(u: User): bool { u.isFavorite }
  function IsOnline(u: User): bool { u.isOnline }

  /** `users.filter(user => user.isFavorite)`. */
  function FavoriteUsers(us: seq<User>): (r: seq<User>)
    ensures |r| <= |us|
    ensures forall i :: 0 <= i < |r| ==> r[i].isFavorite && r[i] in us
    ensures forall i :: 0 <= i < |us| && us[i].isFavorite ==> us[i] in r
  {
    FilterMembers(us, IsFavorite);
    Filter(us, IsFavorite)
  }

  /** `users.filter(user => user.isOnline)`. */
  function OnlineUsers(us: seq<User>): (r: seq<User>)
    ensures |r| <= |us|
    ensures forall i :: 0 <= i < |r| ==> r[i].isOnline && r[i] in us
    ensures forall i :: 0 <= i < |us| && us[i].isOnline ==> us[i] in r
  {
    FilterMembers(us, IsOnline);
    Filter(us, IsOnline)
  }

  /** Favourite and online lists keep roster order: the lists of two roster
      halves are the halves of the lists. */
  lemma FiltersKeepOrder(a: seq<User>, b: seq<User>)
    ensures FavoriteUsers(a + b) == FavoriteUsers(a) + FavoriteUsers(b)
    ensures OnlineUsers(a + b) == OnlineUsers(a) + OnlineUsers(b)
  {
    FilterAppend(a, b, IsFavorite);
    FilterAppend(a, b, IsOnline);
  }

  /** Toggling a walker who is in the roster once moves the favourite count by
      exactly one. */
  lemma ToggleMovesFavoriteCountByOne(us: seq<User>, k: int)
    requires DistinctIds(us) && 0 <= k < |us|
    ensures |FavoriteUsers(Toggle(us, us[k].id))| == |FavoriteUsers(us)| + (if us[k].isFavorite then -1 else 1)
  {
    FilterLength(us, IsFavorite);
    FilterLength(Toggle(us, us[k].id), IsFavorite);
    ToggleMovesCountByOne(us, k);
  }

  /** The same, stated on the number of favourites in the roster. */
  lemma ToggleMovesCountByOne(us: seq<User>, k: int)
    requires DistinctIds(us) && 0 <= k < |us|
    ensures Count(Toggle(us, us[k].id), IsFavorite) == Count(us, IsFavorite) + (if us[k].isFavorite then -1 else 1)
  {
    var r := Toggle(us, us[k].id);
    forall i | 0 <= i < |us| && i != k
      ensures r[i] == us[i]
    {
      assert us[i].id != us[k].id;
    }
    assert r[..k] == us[..k];
    assert r[k + 1..] == us[k + 1..];
    assert IsFavorite(r[k]) == !IsFavorite(us[k]);
    CountSplit(us, k, IsFavorite);
    CountSplit(r, k, IsFavorite);
  }

  /** Counting across one element in the middle. */
  lemma {:induction false} CountSplit(s: seq<User>, k: int, keep: User -> bool)
    requires 0 <= k < |s|
    ensures Count(s, keep) == Count(s[..k], keep) + (if keep(s[k]) then 1 else 0) + Count(s[k + 1..], keep)
    decreases k
  {
    if k > 0 {
      assert s[1..][..k - 1] == s[1..k];
      assert s[1..][k - 1 + 1..] == s[k + 1..];
      CountSplit(s[1..], k - 1, keep);
      assert s[..k][1..] == s[1..k];
    } else {
      assert s[..0] == [];
      assert s == [s[0]] + s[1..];
    }
  }

  /** `{...prev, status: message}`. */
  function WithStatus(u: CurrentUser, message: string): (r: CurrentUser)
    ensures r.status == message
    ensures r.(status := u.status) == u
  {
    u.(status := message)
  }

  /** `{...prev, location: seoulLocation}`. */
  function WithSharedLocation(u: CurrentUser): (r: CurrentUser)
    ensures r.location == SharedLocation
    ensures r.(location := u.location) == u
  {
    u.(location := SharedLocation)
  }

  /** Sharing the location twice is the same as sharing it once. */
  lemma ShareLocationIdempotent(u: CurrentUser)
    ensures WithSharedLocation(WithSharedLocation(u)) == WithSharedLocation(u)
  {
  }

  /** The profile the editor is opened with (`user={currentUser}`). */
  function ProfileOf(u: CurrentUser): (p: ProfileModal.User)
    ensures p.id == u.id && p.name == u.name && p.dogName == u.dogName
    ensures p.dogBreed == u.dogBreed && p.status == u.status
  {
    ProfileModal.User(u.id, u.name, u.dogName, u.dogBreed, u.status)
  }

  /** `{...prev, ...updatedUser, location: prev.location, isOnline: prev.isOnline}`:
      every profile field comes from the submitted record, while the location
      and presence are always the previous ones. */
  function MergeProfile(prev: CurrentUser, updated: ProfileModal.User): (r: CurrentUser)
    ensures ProfileOf(r) == updated
    ensures r.location == prev.location && r.isOnline == prev.isOnline
  {
    CurrentUser(updated.id, updated.name, updated.dogName, updated.dogBreed, prev.location, updated.status, prev.isOnline)
  }

  /** Saving the profile exactly as the editor received it changes nothing. */
  lemma SaveUneditedIsNoOp(u: CurrentUser)
    ensures MergeProfile(u, ProfileOf(u)) == u
  {
  }

  /** A save depends only on the submitted record and the previous location and
      presence: the previous name, dog, breed and status are all overwritten. */
  lemma SaveOverwritesProfile(a: CurrentUser, b: CurrentUser, updated: ProfileModal.User)
    requires a.location == b.location && a.isOnline == b.isOnline
    ensures MergeProfile(a, updated) == MergeProfile(b, updated)
  {
  }

  /** The local user as the map receives it; it has no favourite flag, which
      the map reads as false. */
  function MapEntryOfCurrent(u: CurrentUser): SeoulMap.MapUser
  {
    SeoulMap.MapUser(u.id, u.name, u.dogName, u.location, u.isOnline, false)
  }

  function MapEntry(u: User): SeoulMap.MapUser
  {
    SeoulMap.MapUser(u.id, u.name, u.dogName, u.location, u.isOnline, u.isFavorite)
  }

  /** `[currentUser, ...users]`. */
  function MapUsers(current: CurrentUser, us: seq<User>): (r: seq<SeoulMap.MapUser>)
    ensures |r| == |us| + 1
    ensures && r[0].id == current.id && r[0].name == current.name && r[0].dogName == current.dogName
            && r[0].location == current.location && r[0].isOnline == current.isOnline && !r[0].isFavorite
    ensures forall i :: 0 <= i < |us| ==>
      && r[i + 1].id == us[i].id && r[i + 1].name == us[i].name && r[i + 1].dogName == us[i].dogName
      && r[i + 1].location == us[i].location
      && r[i + 1].isOnline == us[i].isOnline && r[i + 1].isFavorite == us[i].isFavorite
  {
    [MapEntryOfCurrent(current)] + seq(|us|, i requires 0 <= i < |us| => MapEntry(us[i]))
  }

  /** On a Seoul map given the page's list, every marker shows its person's
      presence dot and dog's name, and a heart exactly on the walkers that are favourites: the local user's
      marker never carries one. */
  lemma MapMarkersShowPeople(current: CurrentUser, us: seq<User>)
    ensures var ms := SeoulMap.Markers(MapUsers(current, us));
      && ms[0].caption == current.dogName
      && ms[0].style.onlineDot == current.isOnline && !ms[0].style.heartBadge
      && ms[0].position == SeoulMap.Project(current.location)
      && forall i :: 0 <= i < |us| ==>
        && ms[i + 1].id == us[i].id && ms[i + 1].caption == us[i].dogName
        && ms[i + 1].style.onlineDot == us[i].isOnline
        && ms[i + 1].style.heartBadge == us[i].isFavorite
        && ms[i + 1].position == SeoulMap.Project(us[i].location)
  {
    var r := MapUsers(current, us);
    var ms := SeoulMap.Markers(r);
    forall i | 0 <= i < |us|
      ensures ms[i + 1].id == us[i].id && ms[i + 1].caption == us[i].dogName
      ensures ms[i + 1].style.onlineDot == us[i].isOnline
      ensures ms[i + 1].style.heartBadge == us[i].isFavorite && ms[i + 1].position == SeoulMap.Project(us[i].location)
    {
      assert ms[i + 1].style == SeoulMap.Style(r[i + 1]);
    }
  }

  /** On the map, the local user's marker (first) is the only orange house on
      the top layer, as long as it keeps the reserved id and no walker uses it. */
  lemma OnlySelfMarkerIsHome(current: CurrentUser, us: seq<User>, k: int)
    requires current.id == SeoulMap.SelfId && NoSelf(us)
    requires 0 <= k < |us| + 1
    ensures var st := SeoulMap.Style(MapUsers(current, us)[k]);
      (st.color == SeoulMap.Orange) == (k == 0) && (st.icon == SeoulMap.House) == (k == 0) && (st.layer == SeoulMap.Z20) == (k == 0)
  {
    var r := MapUsers(current, us);
    if k > 0 {
      assert r[k].id == us[k - 1].id;
    }
  }

  class Page {
    var users: seq<User>
    var currentUser: CurrentUser
    /** The profile editor's state. The page renders the editor from the
        start, so the form is created once, from the profile at start-up. */
    var editor: ProfileModal.ProfileForm

    /** The roster's ids stay distinct and never collide with the local
        user's reserved id. */
    ghost predicate Valid()
      reads this
    {
      DistinctIds(users) && NoSelf(users)
    }

    constructor (nowMs: int)
      ensures Valid()
      ensures users == MockUsers(nowMs) && currentUser == InitialCurrentUser
      ensures fresh(editor) && editor.formData == ProfileOf(InitialCurrentUser)
    {
      users := MockUsers(nowMs);
      currentUser := InitialCurrentUser;
      editor := new ProfileModal.ProfileForm(ProfileOf(InitialCurrentUser));
    }

    /** `toggleFavorite(userId)`. */
    method ToggleFavorite(userId: string)
      requires Valid()
      modifies this
      ensures Valid()
      ensures users == Toggle(old(users), userId)
      ensures currentUser == old(currentUser) && editor == old(editor)
      ensures forall k :: 0 <= k < |old(users)| && old(users)[k].id == userId ==>
        |Favorites()| == |old(Favorites())| + (if old(users)[k].isFavorite then -1 else 1)
    {
      forall k | 0 <= k < |users| && users[k].id == userId
        ensures |FavoriteUsers(Toggle(users, userId))| == |FavoriteUsers(users)| + (if users[k].isFavorite then -1 else 1)
      {
        ToggleMovesFavoriteCountByOne(users, k);
      }
      TogglePreservesIds(users, userId);
      users := Toggle(users, userId);
    }

    /** `handleSendMessage(message)`: only the local user's status changes. */
    method HandleSendMessage(message: string)
      requires Valid()
      modifies this
      ensures Valid()
      ensures currentUser == old(currentUser).(status := message)
      ensures users == old(users) && editor == old(editor)
    {
      currentUser := WithStatus(currentUser, message);
    }

    /** `handleLocationShare()`: only the local user's location changes, to
        the fixed shared location. */
    method HandleLocationShare()
      requires Valid()
      modifies this
      ensures Valid()
      ensures currentUser == old(currentUser).(location := SharedLocation)
      ensures users == old(users) && editor == old(editor)
    {
      currentUser := WithSharedLocation(currentUser);
    }

    /** The profile editor's `onSave(updatedUser)`. */
    method SaveProfile(updated: ProfileModal.User)
      requires Valid()
      modifies this
      ensures Valid()
      ensures currentUser == MergeProfile(old(currentUser), updated)
      ensures users == old(users) && editor == old(editor)
    {
      currentUser := MergeProfile(currentUser, updated);
    }

    /** A field of the open profile editor was edited. */
    method EditProfile(field: ProfileModal.Field, value: string)
      modifies editor
      ensures editor.formData == ProfileModal.Set(old(editor.formData), field, value)
    {
      editor.HandleChange(field, value);
    }

    /** The profile editor was submitted: its form goes to `onSave`. */
    method SubmitProfile()
      requires Valid()
      modifies this
      ensures Valid()
      ensures currentUser == MergeProfile(old(currentUser), editor.formData)
      ensures users == old(users) && editor == old(editor)
    {
      var saved := editor.HandleSubmit();
      SaveProfile(saved);
    }

    /** Corrected behaviour: the editor is created afresh from the current
        profile each time it is opened, so an unedited save keeps every field. */
    method OpenProfileEditor()
      modifies this
      ensures fresh(editor) && editor.formData == ProfileOf(currentUser)
      ensures users == old(users) && currentUser == old(currentUser)
    {
      editor := new ProfileModal.ProfileForm(ProfileOf(currentUser));
    }

    /** `favoriteUsers`. */
    function Favorites(): (r: seq<User>)
      reads this
      ensures forall i :: 0 <= i < |r| ==> r[i].isFavorite && r[i] in users
      ensures forall i :: 0 <= i < |users| && users[i].isFavorite ==> users[i] in r
    {
      FavoriteUsers(users)
    }

    /** `onlineUsers`; its length is the count the view toggle shows. */
    function Online(): (r: seq<User>)
      reads this
      ensures forall i :: 0 <= i < |r| ==> r[i].isOnline && r[i] in users
      ensures forall i :: 0 <= i < |users| && users[i].isOnline ==> users[i] in r
    {
      OnlineUsers(users)
    }

    /** The list the map is given. */
    function MapInput(): (r: seq<SeoulMap.MapUser>)
      reads this
      ensures |r| == |users| + 1 && r[0].id == currentUser.id
      ensures r[0].isOnline == currentUser.isOnline && r[0].dogName == currentUser.dogName
    {
      MapUsers(currentUser, users)
    }
  }

  /** As written, the editor keeps the profile it was created with: after a
      status message, saving the editor without touching it puts the start-up
      status back. */
  method StaleEditorRevertsStatus(nowMs: int, message: string) returns (p: Page)
    requires message != InitialCurrentUser.status
    ensures p.currentUser.status == InitialCurrentUser.status != message
  {
    p := new Page(nowMs);
    p.HandleSendMessage(message);
    p.SubmitProfile();
  }

  /** With the editor opened afresh, saving it without edits changes nothing,
      whatever happened to the profile before. */
  method ReopenedEditorKeepsProfile(p: Page) returns (before: CurrentUser, after: CurrentUser)
    requires p.Valid()
    modifies p
    ensures before == after
  {
    before := p.currentUser;
    p.OpenProfileEditor();
    p.SubmitProfile();
    SaveUneditedIsNoOp(before);
    after := p.currentUser;
  }
}
