# paw-track core, modelled in Dafny

paw-track is a small web app in which dog owners see nearby walkers on a map
or in a list, share a status message and a location, and mark walkers as
favourites. The page mounts `src/components/Map.tsx`, a grid background with
randomly placed markers; the repository also holds a hand-drawn Seoul map
(`src/components/SeoulMap.tsx`) with a real projection, which the page does
not show and which is modelled here on its own. This project models the parts of it that hold
logic rather than layout:

- **Page state** (`index_page.dfy`, module `IndexPage`): the fixed roster of
  walkers and the local user's profile, held by the class `Page`. Its methods
  are the page's handlers: toggle a walker's favourite flag, set the status
  from a message, share the fixed location, save the profile editor's form.
  The page also derives the favourite and online lists and the map's input list.
- **Map projection and marker encoding** (`seoul_map.dfy`, module `SeoulMap`):
  latitude/longitude are mapped linearly around (37.5665, 126.9780), with a
  span of 0.1 degrees and a scale of 40 percent. Each axis is then clamped to
  [10, 90] percent. Colour, icon, heart badge and stacking layer depend only
  on whether the marker is the local user (`id == "me"`), on presence and on
  the favourite flag. Coordinates are exact reals.
- **Elapsed-time labels** (`time_ago.dfy`, `user_list.dfy`,
  `favorite_request_modal.dfy`): the list's `formatLastSeen` and the
  request dialog's `formatTimeAgo` are two copies of the same code. Each is
  modelled as written. Both are proved equal to one reference function,
  `TimeAgo.Classify`, which works on milliseconds directly.
- **Walker list and request dialog** (`UserList`, `FavoriteRequestModal`):
  there is one card per entry, in order, or an empty-state notice. The
  favourite button's action depends on the favourite flag. Each button passes
  the id of its own card.
- **Message composer** (`message_modal.dfy`, module `MessageModal`): the
  twelve quick messages, the category tabs, and a draft that is sent only
  when `trim()` leaves something. JavaScript's `trim` is modelled in
  `js_string.dfy` using the ECMAScript whitespace and line-terminator code
  points.
- **Profile editor** (`profile_modal.dfy`, module `ProfileModal`): a form
  initialised from a profile, edited one field at a time, and submitted
  unchanged.

`seqs.dfy` (module `Seqs`) holds the order-preserving filter that models
`Array.prototype.filter`.

Clock readings (`new Date()`, `Date.now()`) are parameters: a millisecond
difference `diffMs`, or the current time `nowMs`. One reading stands for a
whole render, where the source reads the clock again for each card. Callbacks such as `onSend`,
`onSave`, `onAccept` and `onReject` are represented by the value they receive:
an out-parameter, or a `Dispatch`/`FavoriteAction` value that names the
callback and its argument. The Korean display labels of the time buckets are
constructors of `TimeAgo.Elapsed`.

## Model

| member | source | states |
|---|---|---|
| Seqs.Filter | src/pages/Index.tsx:95-96 | The filtered list is no longer than its input. |
| Seqs.FilterMembers | src/pages/Index.tsx:95-96 | Each element of the filtered list comes from the input and satisfies the predicate. Each input element that satisfies the predicate appears in it. |
| Seqs.FilterAppend | src/pages/Index.tsx:95-96 | Filtering distributes over concatenation, so the original relative order is kept. |
| Seqs.FilterAll | src/pages/Index.tsx:95-96 | Filtering by a predicate every element meets gives the list back unchanged. |
| Seqs.FilterNone | src/pages/Index.tsx:95-96 | Filtering by a predicate no element meets gives the empty list. |
| Seqs.FilterLength | src/pages/Index.tsx:95-96 | The filtered list is exactly as long as the number of input elements that satisfy the predicate. |
| TimeAgo.FloorDiv | src/components/UserList.tsx:27 | `Math.floor(a / b)` for a positive divisor is the unique q with q*b <= a < q*b + b. This holds for negative `a` too. |
| TimeAgo.Classify | src/components/UserList.tsx:29-32 | The reference bucketing. "Just now" exactly when less than one minute has elapsed, which includes negative differences. Otherwise the label carries the whole number of minutes (1-59), hours (1-23) or days (at least 1) that have elapsed. |
| TimeAgo.MinutesThenHours | src/components/UserList.tsx:31 | Flooring milliseconds to minutes and then minutes to hours gives the same count as flooring milliseconds to hours. |
| TimeAgo.MinutesThenDays | src/components/UserList.tsx:32 | The same for days: minutes floored by 1440 equal milliseconds floored by a day. |
| UserList.FormatLastSeen | src/components/UserList.tsx:24-33 | As written: minutes by floor division, then the 1/60/1440-minute thresholds. It has no contract of its own; `FormatLastSeenIsClassify` proves it equal to `TimeAgo.Classify`. |
| UserList.FormatLastSeenIsClassify | src/components/UserList.tsx:24-33 | `formatLastSeen` (floor to minutes, then thresholds 1, 60, 1440) picks the same bucket and count as the reference for every millisecond difference. |
| UserList.FavoriteButton | src/components/UserList.tsx:101-119 | A favourite gets only the remove action and anyone else only the request action. Either action carries the card's own user id. |
| UserList.Render | src/components/UserList.tsx:42-141 | An empty list shows the empty notice and nothing else. Otherwise there is one card per walker, in order, carrying that walker's id, heart flag, last-seen bucket and favourite action. |
| FavoriteRequestModal.FormatTimeAgo | src/components/FavoriteRequestModal.tsx:37-46 | As written, the same chain as `formatLastSeen`. It has no contract of its own; `FormatTimeAgoIsClassify` proves it equal to `TimeAgo.Classify`. |
| FavoriteRequestModal.FormatTimeAgoIsClassify | src/components/FavoriteRequestModal.tsx:37-46 | `formatTimeAgo` agrees with the reference bucketing for every millisecond difference. |
| FavoriteRequestModal.FormatTimeAgoMatchesFormatLastSeen | src/components/FavoriteRequestModal.tsx:37-46 | The two copies of the bucketing compute the same label for every input. |
| FavoriteRequestModal.Render | src/components/FavoriteRequestModal.tsx:62-108 | An empty request list shows the empty notice with no actions. Otherwise there is one card per request, in order, showing the sender's dog name, nickname and breed and the request's age bucket. Its accept button dispatches `onAccept` with that request's id, its reject button `onReject` with the same id. |
| FavoriteRequestModal.ActionsSelectOneCard | src/components/FavoriteRequestModal.tsx:88-100 | When request ids are distinct, the accept (and the reject) action for a request is offered by exactly one card, the card for that request. |
| JsString.TrimStart | src/components/MessageModal.tsx:41 | The result is a suffix of the input. Everything removed is whitespace, and the result does not start with whitespace. |
| JsString.TrimEnd | src/components/MessageModal.tsx:41 | The result is a prefix of the input. Everything removed is whitespace, and the result does not end with whitespace. |
| JsString.Trim | src/components/MessageModal.tsx:41 | `s.trim()` is no longer than `s` and neither starts nor ends with whitespace. `TrimEmptyIffBlank` says when it is empty. |
| JsString.TrimEmptyIffBlank | src/components/MessageModal.tsx:41 | `s.trim()` is empty exactly when every character of `s` is whitespace. |
| MessageModal.FilteredMessages | src/components/MessageModal.tsx:38 | As written: the table filtered by the selected category. It has no contract of its own; `FilteredMessagesExact` and `FilteredMessagesShape` state what it yields. |
| MessageModal.TableBlocks | src/components/MessageModal.tsx:13-26 | The quick-message table has twelve rows: four "now", then four "later", then four "social". |
| MessageModal.FilterBlock | src/components/MessageModal.tsx:38 | A block of rows sharing one category passes a category filter either whole or not at all. |
| MessageModal.FilterThreeBlocks | src/components/MessageModal.tsx:38 | A "now" block, a "later" block and a "social" block laid end to end, filtered by a category, yield exactly that category's block. |
| MessageModal.FilterBlocks | src/components/MessageModal.tsx:38 | In any table laid out in three blocks, the category filter yields exactly that category's block. |
| MessageModal.FilteredMessagesExact | src/components/MessageModal.tsx:13-38 | Each tab shows exactly its own category's block of the table, in table order. |
| MessageModal.FilteredMessagesShape | src/components/MessageModal.tsx:13-38 | Each tab shows four messages, all of its own category. |
| MessageModal.Sendable | src/components/MessageModal.tsx:41 | As written: `message.trim()` is non-empty. It has no contract of its own; `SendableIffNotBlank` characterises it. |
| MessageModal.SendableIffNotBlank | src/components/MessageModal.tsx:40-42 | The send guard passes exactly when the message has a non-whitespace character. |
| MessageModal.PredefinedMessagesSendable | src/components/MessageModal.tsx:82 | Pressing a quick message always sends it, because no table text is blank. |
| MessageModal.Composer.constructor | src/components/MessageModal.tsx:29-30 | The composer starts on the "now" tab with an empty draft. |
| MessageModal.Composer.Filtered | src/components/MessageModal.tsx:38 | The shown quick messages are four, all of the selected category. |
| MessageModal.Composer.SelectCategory | src/components/MessageModal.tsx:65 | A tab press selects that category and keeps the draft. |
| MessageModal.Composer.ChangeDraft | src/components/MessageModal.tsx:98 | Typing replaces the draft and keeps the tab. |
| MessageModal.Composer.HandleSendMessage | src/components/MessageModal.tsx:40-45 | `onSend` receives the untrimmed message exactly when its trim is non-empty, and then the draft is cleared. A blank message changes nothing. |
| MessageModal.Composer.SendDisabled | src/components/MessageModal.tsx:109 | As written: `!customMessage.trim()`. It has no contract of its own; `SendButtonMatchesGuard` proves it the negation of the send guard. |
| MessageModal.SendButtonMatchesGuard | src/components/MessageModal.tsx:107-109 | The send button is disabled exactly when pressing it would not send the draft. |
| ProfileModal.Set | src/components/ProfileModal.tsx:36-38 | After `{...u, [field]: value}` the field reads `value`, and every other field reads as before. |
| ProfileModal.FieldsDetermineUser | src/components/ProfileModal.tsx:8-14 | Two profiles that agree on every field of `keyof User` are equal. |
| ProfileModal.SetSetSameField | src/components/ProfileModal.tsx:36-38 | Of two changes to the same field, the second one wins. |
| ProfileModal.SetSetCommute | src/components/ProfileModal.tsx:36-38 | Changes to different fields commute. |
| ProfileModal.SetOwnValue | src/components/ProfileModal.tsx:36-38 | Writing back a field's current value changes nothing. |
| ProfileModal.ProfileForm.constructor | src/components/ProfileModal.tsx:29 | The form starts equal to the profile it was opened with. |
| ProfileModal.ProfileForm.HandleChange | src/components/ProfileModal.tsx:36-38 | One field takes the new value. The form's other fields are unchanged. |
| ProfileModal.ProfileForm.HandleSubmit | src/components/ProfileModal.tsx:31-34 | `onSave` receives the current form unchanged. |
| ProfileModal.SubmitUnedited | src/components/ProfileModal.tsx:29-34 | Opening the editor and submitting without edits hands back the profile it was opened with. |
| IndexPage.MockUsers | src/pages/Index.tsx:16-50 | The start-up roster has three walkers with distinct ids, none of them the local user's id `me`. |
| IndexPage.Toggle | src/pages/Index.tsx:87-93 | The toggle keeps the roster's length and order. It negates `isFavorite` on exactly the walkers with the given id and changes no other field of any walker. |
| IndexPage.ToggleAbsent | src/pages/Index.tsx:87-93 | Toggling an id that no walker has leaves the roster unchanged. |
| IndexPage.ToggleTwice | src/pages/Index.tsx:87-93 | Toggling the same id twice restores the roster. |
| IndexPage.ToggleChangesAtMostOne | src/pages/Index.tsx:87-93 | When ids are distinct, a toggle changes at most one walker, the one with that id. |
| IndexPage.TogglePreservesIds | src/pages/Index.tsx:87-93 | A toggle keeps every id, so ids stay distinct and none becomes `me`. |
| IndexPage.FavoriteUsers | src/pages/Index.tsx:95 | The favourite list holds exactly the roster's favourite walkers and is no longer than the roster. |
| IndexPage.OnlineUsers | src/pages/Index.tsx:96 | The online list holds exactly the roster's online walkers and is no longer than the roster. |
| IndexPage.FiltersKeepOrder | src/pages/Index.tsx:95-96 | Both derived lists keep roster order: the list for two roster halves is the two halves' lists, concatenated. |
| IndexPage.ToggleMovesCountByOne | src/pages/Index.tsx:87-93 | When ids are distinct, toggling a listed walker changes the number of favourites in the roster by exactly one, down if the walker was a favourite and up otherwise. |
| IndexPage.ToggleMovesFavoriteCountByOne | src/pages/Index.tsx:87-95 | When ids are distinct, toggling a listed walker changes the favourite count by exactly one, down if the walker was a favourite and up otherwise. |
| IndexPage.CountSplit | src/pages/Index.tsx:95 | The count of matching walkers splits around any position. |
| IndexPage.WithStatus | src/pages/Index.tsx:78-79 | The status becomes the message. Every other field of the local user is unchanged. |
| IndexPage.WithSharedLocation | src/pages/Index.tsx:68-71 | The location becomes (37.5665, 126.9780). Every other field is unchanged. |
| IndexPage.ShareLocationIdempotent | src/pages/Index.tsx:68-71 | Sharing the location twice is the same as sharing it once. |
| IndexPage.ProfileOf | src/pages/Index.tsx:150-153 | The editor receives the local user's id, name, dog name, breed and status. |
| IndexPage.MergeProfile | src/pages/Index.tsx:154-161 | After a save, id, name, dog name, breed and status come from the submitted record. Location and presence are always the previous ones. |
| IndexPage.SaveUneditedIsNoOp | src/pages/Index.tsx:150-161 | Saving the profile exactly as the editor received it changes nothing. |
| IndexPage.SaveOverwritesProfile | src/pages/Index.tsx:154-161 | The saved profile depends only on the submitted record and the previous location and presence. |
| IndexPage.MapUsers | src/pages/Index.tsx:127 | The map receives the local user first and then every walker in roster order, `|users| + 1` entries in all. Each entry keeps its person's id, name, dog name, location and presence. Walkers keep their favourite flag, and the local user has none. |
| IndexPage.MapMarkersShowPeople | src/components/SeoulMap.tsx:88-112 | On a Seoul map given the page's list, every marker is placed by its person's location and shows that person's dog name and presence dot. Walkers show a heart exactly when they are favourites, and the local user's marker never shows one. |
| IndexPage.OnlySelfMarkerIsHome | src/pages/Index.tsx:126-129 | When the local user keeps the id `me` and no walker uses it, the first map entry is the only orange house marker on the top layer. |
| IndexPage.Page.constructor | src/pages/Index.tsx:53-63 | The page starts with the mock roster, the initial local profile, and a profile editor loaded with that profile. |
| IndexPage.Page.ToggleFavorite | src/pages/Index.tsx:87-96 | The roster becomes its toggle. The local user and the editor are unchanged, and the roster's id invariant is kept. Toggling a listed walker's id moves the favourite list's length by exactly one, down if the walker was a favourite and up otherwise. |
| IndexPage.Page.HandleSendMessage | src/pages/Index.tsx:78-85 | Only the local user's status changes, to the message. The roster is unchanged. |
| IndexPage.Page.HandleLocationShare | src/pages/Index.tsx:68-76 | Only the local user's location changes, to the fixed shared location. The roster is unchanged. |
| IndexPage.Page.SaveProfile | src/pages/Index.tsx:154-162 | The local user becomes the merge of the previous profile and the submitted record. The roster is unchanged. |
| IndexPage.Page.EditProfile | src/components/ProfileModal.tsx:36-38 | A field edit in the mounted editor changes that one field of its form. |
| IndexPage.Page.SubmitProfile | src/pages/Index.tsx:150-161 | Submitting the mounted editor merges its current form into the local user. |
| IndexPage.Page.OpenProfileEditor | src/pages/Index.tsx:150-153 | Corrected behaviour: opening the editor loads it from the current profile. |
| IndexPage.Page.Favorites | src/pages/Index.tsx:95 | `favoriteUsers` holds exactly the favourite walkers of the current roster. |
| IndexPage.Page.Online | src/pages/Index.tsx:96 | `onlineUsers` holds exactly the online walkers of the current roster. |
| IndexPage.Page.MapInput | src/pages/Index.tsx:127 | The map input has one more entry than the roster. The local user comes first, with its own presence and dog name. |
| IndexPage.StaleEditorRevertsStatus | src/components/ProfileModal.tsx:29 | As written, after a status message an unedited profile save restores the start-up status. |
| IndexPage.ReopenedEditorKeepsProfile | src/pages/Index.tsx:150-161 | With the editor reloaded on opening, an unedited save leaves the local user exactly as it was. |
| SeoulMap.RawX | src/components/SeoulMap.tsx:85-90 | Before clamping, x - 50 is the longitude offset times 40/0.1, so x is 50 + ((lng - 126.9780) / 0.1) * 40. |
| SeoulMap.RawY | src/components/SeoulMap.tsx:85-91 | Before clamping, 50 - y is the latitude offset times 40/0.1. The axis is inverted. |
| SeoulMap.Clamp | src/components/SeoulMap.tsx:93-94 | The result is always within [10, 90]. It is the identity inside that range, 10 below it and 90 above it. |
| SeoulMap.Project | src/components/SeoulMap.tsx:85-94 | Both coordinates of every marker lie within [10, 90], for any input offset. |
| SeoulMap.CenterProjectsToMiddle | src/components/SeoulMap.tsx:85-91 | The reference centre projects to (50, 50). |
| SeoulMap.ClampMonotonic | src/components/SeoulMap.tsx:93-94 | Clamping preserves order. |
| SeoulMap.ProjectMonotonic | src/components/SeoulMap.tsx:90-94 | Clamped x does not decrease with longitude. Clamped y does not increase with latitude. |
| SeoulMap.NearPointsAreNotClamped | src/components/SeoulMap.tsx:90-94 | A point within one span of the centre on both axes is placed by the linear map alone. |
| SeoulMap.Style | src/components/SeoulMap.tsx:80-114 | Orange exactly for `me`, green exactly for others online, gray exactly for others offline. House icon, top layer and "my location" caption exactly for `me`. Heart badge exactly for favourites, presence dot exactly for online users. |
| SeoulMap.SelfStyleIgnoresPresence | src/components/SeoulMap.tsx:97-102 | The local user's marker does not depend on presence, apart from the presence dot. |
| SeoulMap.Markers | src/components/SeoulMap.tsx:78-123 | There is one marker per user, in order, with that user's id, dog-name caption, projected position and style. |

## Left out

- The favourite-request workflow (create, deduplicate, accept, reject, pending queue). No file of the repository implements it. The request dialog only displays requests and forwards ids, and the page never mounts it.
- The page passes `onToggleFavorite` to `UserList`, whose props are `onFavoriteRequest` and `onRemoveFavorite`. Each component is modelled on its own terms, and the two are not wired together.
- `src/components/Map.tsx`, which the page actually mounts, places markers with `Math.random()`. `IndexPage.MapUsers` models the list it receives, which has the same shape as the input of the Seoul map. The Seoul map's projection and styling are modelled.
- `src/components/KakaoMap.tsx`: it loads a third-party map SDK and builds its objects. None of that is logic of the app.
- DOM construction: `innerHTML`, `appendChild`, click listeners, the decorative districts, landmarks and legend, CSS classes other than the marker colour and layer, toasts, and the open/close flags of the dialogs and view toggle.
- Presentational components with no logic: Header, QuickActions, StatusCard, ViewToggle, FavoriteUsers.
- The profile editor's breed drop-down list. The form accepts any string, as `handleChange` does.
- Clock reads are parameters. The Korean time labels are `TimeAgo.Elapsed` constructors.
- UserList.Render and FavoriteRequestModal.Render: the source reads the clock once per card (`new Date()` inside `formatLastSeen` and `formatTimeAgo`). The model takes one reading, `nowMs`, for the whole render, so it does not capture cards rendered across a minute boundary.
- The `console.log` handlers: the walker card's message and location buttons (src/components/UserList.tsx:125, :134) and the map's `onUserClick` (src/pages/Index.tsx:128) only log, and change no state.
- SeoulMap.Project: coordinates are exact reals. IEEE rounding, NaN and infinities are not modelled. A NaN would pass through `Math.max`/`Math.min` and defeat the clamp.
- TimeAgo.FloorDiv: `Math.floor` of a floating-point quotient equals integer floor division only for differences within 2^53 ms. Larger ones are not modelled.
- Strings: a JavaScript string is a sequence of UTF-16 code units, while a Dafny string is a sequence of Unicode scalar values. Trimming removes only whitespace, which lies in the Basic Multilingual Plane, so the two views agree on what `trim` keeps.
- `lastSeen` and `timestamp` are millisecond integers (`getTime()`), not `Date` objects.

## Findings

| source | as written | input that shows it | evidently intended | confidence | as-written member | corrected member |
|---|---|---|---|---|---|---|
| src/components/ProfileModal.tsx:29 | `useState(user)` reads `user` only when the editor first mounts, and the page mounts the editor once (src/pages/Index.tsx:150-167). The form therefore keeps the profile from start-up. | Send the status message "hello", then open the profile editor and save without editing. The status reverts to the start-up status. | The editor shows, and an unedited save keeps, the current profile. | medium; not executed | IndexPage.StaleEditorRevertsStatus | IndexPage.Page.OpenProfileEditor |
