# TikTok-style video app: verified model of its state machines

The app is a short-video client. It has two front ends. The web front end
(`app/`) is built from custom components. The native front end (`src/`) uses
React Native with a Supabase backend. A script (`scripts/figma-sync.js`)
regenerates component files from a design document. None of these pieces is
a large algorithm. Each is a small state machine or a list/string operation,
and this project models them one source file at a time:

| module | source file | what it models |
|---|---|---|
| `VideoFeed` | app/components/VideoFeed.js | swipe and wheel paging over the feed, with clamping and a single playing item |
| `CommentsPanel` | app/components/CommentsPanel.js | optimistic comment posting, the load guard and fallback, relative time labels |
| `InteractionBar` | app/components/InteractionBar.js | like and follow toggles with their counter |
| `SearchPage` | app/pages/SearchPage.js | the search history (recent first, no repeats, at most ten, stored) |
| `UploadPage` | app/pages/UploadPage.js | the hashtag scanner, form switches, validation and reset |
| `VideosApi` | src/api/videos.js | page ranges, row shaping, error policy, the like toggle |
| `FigmaSync` | scripts/figma-sync.js | component search, name sanitising, the index file, the version gate |
| `HomeScreen` | src/screens/HomeScreen.js | the sample-data fallback and the item in view |
| `ProfilePage` | app/pages/ProfilePage.js | the liked-videos filter, the tabs and the grid |
| `WebVideoPlayer` | app/components/VideoPlayer.js | play and mute toggles over the `<video>` element |
| `NativeVideoPlayer` | src/components/VideoPlayer.js | `paused` following `isActive`, and the local like flag |
| `HomePage` | app/pages/HomePage.js | opening and closing the comments panel |
| `AdminScreen` | src/screens/AdminScreen.js | the seed data (authors, likes, comments), the abort/continue policy, the clearing order |

Four support modules sit beside them:

- `Wrappers` holds the `Option`/`Result` types.
- `JsText` models the JavaScript string built-ins the components rely on: `trim` with the ECMAScript whitespace set, `includes`, `startsWith`, and integer-to-decimal conversion.
- `Subsequences` holds the order-preserving sub-list facts behind `filter` and `slice`.
- `ActiveItem` is the "only the item at `currentIndex` is active" derivation that both feeds share.

Modelling conventions:

- **Objects become classes.** A component whose methods assign its fields is a `class` with those fields. Each method's `modifies` clause names exactly the fields the source assigns.
- **Async handlers are split at the `await`.** One method is the synchronous part, up to the `await`. A second method is the continuation. Its parameter says how the awaited call ended, so intermediate states (a temporary comment in the list, `isLoading` raised) can be observed.
- **Outside inputs are parameters.** These are the backend's answers, the current time (integer milliseconds), local-storage contents and random picks.
- **Backend requests are values.** Each query is a datatype. The backend is either a function from query to `{ data, error }`, or an outcome parameter.

## Model

| member | source | states |
|---|---|---|
| ActiveItem.Flags | app/components/VideoFeed.js:125-128 | one flag per item, raised exactly at `currentIndex` |
| ActiveItem.CountRaisedOneHot | app/components/VideoFeed.js:125-128 | a flag list raised only at position k has one raised flag if k is in range, none otherwise |
| ActiveItem.AtMostOneActive | app/components/VideoFeed.js:125-128 | at most one item plays; exactly one when `currentIndex` is a valid position |
| VideoFeed.SampleVideos | app/components/VideoFeed.js:79-99 | the two built-in videos, ids "1" and "2" |
| VideoFeed.StepIndex | app/components/VideoFeed.js:45-48 | forward moves up by one unless at the last index; backward moves down by one unless at 0 |
| VideoFeed.TouchEndIndex | app/components/VideoFeed.js:40-51 | a swipe whose size is at most 50 keeps the index (the test is a strict `>`); larger up/down swipes step forward/back with clamping; the index moves by at most one and stays in range |
| VideoFeed.WheelIndex | app/components/VideoFeed.js:53-60 | no threshold: a positive delta steps forward, a negative one steps back, zero does nothing; moves by at most one; stays in range |
| VideoFeed.WheelRunClamps | app/components/VideoFeed.js:53-60 | n wheel ticks in one direction end at min(index + n, last) or max(index - n, 0) |
| VideoFeed.WheelRunInRange | app/components/VideoFeed.js:53-60 | any tick sequence keeps the index in range and within distance n of the start |
| VideoFeed.Feed.constructor | app/components/VideoFeed.js:7-13 | no videos, index 0, touch start 0, offset 0 |
| VideoFeed.Feed.LoadVideos | app/components/VideoFeed.js:79-101 | the list becomes the two samples |
| VideoFeed.Feed.HandleTouchStart | app/components/VideoFeed.js:32-34 | records the start position only; the index and offset are unchanged |
| VideoFeed.Feed.HandleTouchEnd | app/components/VideoFeed.js:40-51 | the index becomes `TouchEndIndex` of the old index, and the `index × 100` vh offset is kept |
| VideoFeed.Feed.HandleWheel | app/components/VideoFeed.js:53-60 | the index becomes `WheelIndex` of the old index, and the offset is kept |
| VideoFeed.Feed.NextVideo | app/components/VideoFeed.js:62-65 | the index goes up by one, with no bound check of its own; the offset follows |
| VideoFeed.Feed.PreviousVideo | app/components/VideoFeed.js:67-70 | the index goes down by one; the offset follows |
| VideoFeed.Feed.ScrollToVideo | app/components/VideoFeed.js:72-77 | the offset is `currentIndex × 100` vh |
| VideoFeed.Feed.PlayingFlags | app/components/VideoFeed.js:125-128 | `isPlaying` is true only at `currentIndex`; at most one video plays |
| VideoFeed.ConnectedFeed | app/components/VideoFeed.js:15-19 | a connected feed holds the samples, with index 0 in range |
| CommentsPanel.TempId | app/components/CommentsPanel.js:81 | the temporary id is `temp-` followed by the time |
| CommentsPanel.TempIdInjective | app/components/CommentsPanel.js:81 | different times give different temporary ids |
| CommentsPanel.TempComment | app/components/CommentsPanel.js:80-88 | the temporary comment carries the temporary id, the typed text and the time |
| CommentsPanel.MockComments | app/components/CommentsPanel.js:54-75 | exactly two comments, ids "1" and "2", created now and one hour ago |
| CommentsPanel.ReplaceById | app/components/CommentsPanel.js:108-110 | same length; every comment with the id is replaced, the others stay in place |
| CommentsPanel.RemoveById | app/components/CommentsPanel.js:116 | no comment with the id survives; the survivors come from the list |
| CommentsPanel.RemoveByIdKeepsOthers | app/components/CommentsPanel.js:116 | the survivors keep their order, and every comment with another id survives as often as it occurred |
| CommentsPanel.RemoveAbsentId | app/components/CommentsPanel.js:116 | removing an id that is absent changes nothing |
| CommentsPanel.RollbackRestores | app/components/CommentsPanel.js:90-116 | with a unique temporary id, inserting then removing it gives back the earlier list |
| CommentsPanel.ConfirmReplacesInPlace | app/components/CommentsPanel.js:90-110 | with a unique temporary id, confirming puts the saved comment in front of the unchanged earlier list |
| CommentsPanel.AgeOf | app/components/CommentsPanel.js:133-138 | the bucket boundaries at one minute, one hour and one day (both directions), and the whole number of units elapsed |
| CommentsPanel.FormatTime | app/components/CommentsPanel.js:130-139 | "방금" exactly below 60000 ms; otherwise ⌊diff/60000⌋분 전, ⌊diff/3600000⌋시간 전 or ⌊diff/86400000⌋일 전 |
| CommentsPanel.AgeLabelJustNow | app/components/CommentsPanel.js:135-138 | only the first bucket produces "방금", since every other label starts with a digit |
| CommentsPanel.AgeMonotone | app/components/CommentsPanel.js:133-138 | an older comment never shows a smaller age |
| CommentsPanel.Panel.constructor | app/components/CommentsPanel.js:8-16 | closed, empty, not loading, user "test-user-1" |
| CommentsPanel.Panel.BeginLoadComments | app/components/CommentsPanel.js:24-27 | a load starts only when none is running; `isLoading` is raised |
| CommentsPanel.Panel.FinishLoadComments | app/components/CommentsPanel.js:39-51 | delivered comments replace the list; a failure installs the two mock comments; `isLoading` ends false |
| CommentsPanel.Panel.LoadMockComments | app/components/CommentsPanel.js:54-75 | the list becomes the mock comments |
| CommentsPanel.Panel.AddComment | app/components/CommentsPanel.js:77-93 | blank text changes nothing; otherwise the temporary comment goes in front, the earlier comments keep their order, and the text is cleared |
| CommentsPanel.Panel.CommentAdded | app/components/CommentsPanel.js:105-110 | the temporary comment is replaced in place |
| CommentsPanel.Panel.CommentFailed | app/components/CommentsPanel.js:114-116 | the temporary comment is filtered out |
| CommentsPanel.PostThenFail | app/components/CommentsPanel.js:77-120 | a failed post leaves the list as it was before |
| CommentsPanel.PostThenConfirm | app/components/CommentsPanel.js:77-120 | a confirmed post leaves the saved comment in front of the old list and the text empty |
| InteractionBar.ToggledLike | app/components/InteractionBar.js:30-34 | the flag flips, and the counter moves with it so that the unliked baseline is kept |
| InteractionBar.ToggleLikeTwice | app/components/InteractionBar.js:30-34 | two toggles restore the flag and the counter |
| InteractionBar.Bar.constructor | app/components/InteractionBar.js:11-19 | not liked, not following, all counters 0 |
| InteractionBar.Bar.ToggleLike | app/components/InteractionBar.js:30-34 | flips `isLiked`, adds 1 when now liked and subtracts 1 otherwise; nothing else is in its frame |
| InteractionBar.Bar.ToggleFollow | app/components/InteractionBar.js:36-39 | flips `isFollowing` only |
| InteractionBar.LikeTwice | app/components/InteractionBar.js:30-34 | two likes in a row restore the bar, and the follow flag and other counters are untouched |
| SearchPage.RemoveAll | app/pages/SearchPage.js:75-92 | the entry is gone, every other entry keeps its multiplicity, and the order is kept |
| SearchPage.AddedHistory | app/pages/SearchPage.js:75-80 | the query is first, the length is between 1 and 10, and the rest is the filtered old history cut to fit |
| SearchPage.AddedHistoryOnce | app/pages/SearchPage.js:76-77 | after an add the query occurs exactly once |
| SearchPage.AddedHistoryKeepsOrder | app/pages/SearchPage.js:76-78 | the surviving older entries keep their relative order |
| SearchPage.AddedHistoryNoDuplicates | app/pages/SearchPage.js:76-78 | a duplicate-free history stays duplicate-free |
| SearchPage.RepeatNewestSearch | app/pages/SearchPage.js:75-80 | searching again for the newest entry leaves a duplicate-free history unchanged |
| SearchPage.RemoveAbsent | app/pages/SearchPage.js:89 | removing an absent entry changes nothing |
| SearchPage.IndexOf | app/pages/SearchPage.js:66 | the first position of a character, or -1 exactly when it is absent |
| SearchPage.RemoveFirstHash | app/pages/SearchPage.js:66 | `replace('#', '')` deletes exactly the first `#` and keeps the text before and after it; a string without one is unchanged |
| SearchPage.MockResults | app/pages/SearchPage.js:54-68 | two users and three videos, each with distinct ids, and one hashtag named after the query without its first `#` |
| SearchPage.TrendingMock | app/pages/SearchPage.js:23-32 | the eight trending hashtags |
| SearchPage.Page.constructor | app/pages/SearchPage.js:2-14 | an empty query, no results, tab "top", and the stored history (absent reads as empty) |
| SearchPage.Page.LoadTrendingHashtags | app/pages/SearchPage.js:20-37 | the trending list becomes the mock list |
| SearchPage.Page.HandleSearch | app/pages/SearchPage.js:39-51 | a blank query only clears `searchQuery`; any other query is stored untrimmed, raises `isLoading` and is added to the history, which stays persisted |
| SearchPage.Page.SearchResultsArrived | app/pages/SearchPage.js:54-72 | the results become the mock results and `isLoading` drops |
| SearchPage.Page.AddToSearchHistory | app/pages/SearchPage.js:75-80 | the history becomes `AddedHistory` of the old one and is written to storage |
| SearchPage.Page.ClearSearchHistory | app/pages/SearchPage.js:82-86 | the history is empty and the stored entry is removed |
| SearchPage.Page.RemoveFromHistory | app/pages/SearchPage.js:88-92 | every occurrence is removed, the rest keep their order, and storage follows |
| SearchPage.Page.SwitchTab | app/pages/SearchPage.js:94-97 | the tab is set |
| UploadPage.TagRunLength | app/pages/UploadPage.js:31 | the length of the longest run of `[\w가-힣]` characters at the start |
| UploadPage.HashtagMatchesSound | app/pages/UploadPage.js:31 | every match is a `#` followed by a maximal run of tag characters taken from the text; matches come in text order and do not overlap |
| UploadPage.HashtagMatchesComplete | app/pages/UploadPage.js:31 | every `#` directly followed by a tag character starts a match |
| UploadPage.NoHashTagNoMatch | app/pages/UploadPage.js:31 | a text with no `#` followed by a tag character has no match, so the empty fallback applies |
| UploadPage.HashtagMatchesAtHash | app/pages/UploadPage.js:31 | at a `#` and a tag character the match takes the whole run, and the scan resumes after the run |
| UploadPage.HashtagMatchesElsewhere | app/pages/UploadPage.js:31 | any other character is skipped |
| UploadPage.ExtractHashtags | app/pages/UploadPage.js:30-34 | the tags are the runs of the matches, in the same order, each a non-empty word of tag characters without `#`; no possible start gives no tags |
| UploadPage.ExtractHashtagsSkip | app/pages/UploadPage.js:31 | a character that cannot start a match contributes no tag |
| UploadPage.TagRunOfWord | app/pages/UploadPage.js:31 | a run stops exactly at the first character that is not a tag character |
| UploadPage.ExtractHashtagsStep | app/pages/UploadPage.js:30-34 | a `#` followed by a complete tag word yields that word, and the scan resumes after it |
| UploadPage.ExtractHashtagText | app/pages/UploadPage.js:30-34 | scanning `#t1 #t2 …` gives back t1, t2, … in order |
| UploadPage.ToggledPrivacy | app/pages/UploadPage.js:36-39 | "public" becomes "private", and anything else becomes "public" |
| UploadPage.TogglePrivacyTwice | app/pages/UploadPage.js:36-39 | two toggles restore either setting |
| UploadPage.Page.constructor | app/pages/UploadPage.js:2-12 | every field at its default, not uploading |
| UploadPage.Page.HandleFileSelect | app/pages/UploadPage.js:14-23 | only a file whose type starts with `video/` is taken; otherwise an alert, and the selection is unchanged |
| UploadPage.Page.HandleDescriptionChange | app/pages/UploadPage.js:25-28 | the text is stored and the hashtags are recomputed from it |
| UploadPage.Page.TogglePrivacy | app/pages/UploadPage.js:36-39 | the privacy setting toggles |
| UploadPage.Page.ToggleComments | app/pages/UploadPage.js:41-44 | flips its own switch only |
| UploadPage.Page.ToggleDuet | app/pages/UploadPage.js:46-49 | flips its own switch only |
| UploadPage.Page.StartUpload | app/pages/UploadPage.js:51-58 | starts exactly when there is a file and a non-blank description; otherwise an alert, with `isUploading` untouched |
| UploadPage.Page.FinishUpload | app/pages/UploadPage.js:60-83 | success resets every field and goes home; failure keeps the form; `isUploading` ends false on both paths |
| VideosApi.VideosPageQuery | src/api/videos.js:19-21 | public rows only, newest first, starting at page·limit and holding exactly `limit` rows |
| VideosApi.PagesAdjacent | src/api/videos.js:21 | page p + 1 starts right after page p ends |
| VideosApi.PagesDisjoint | src/api/videos.js:21 | with a positive limit, different pages share no row |
| VideosApi.FirstCount | src/api/videos.js:27-28 | the first aggregate's count, or 0 when any part is missing |
| VideosApi.ToFeedVideo | src/api/videos.js:25-30 | the row is kept, and a missing user becomes `{}` |
| VideosApi.GetVideos | src/api/videos.js:4-35 | the default arguments are used; an error or missing data gives `[]`; otherwise each row becomes the feed video `ToFeedVideo` builds from it, one for one, with its counts |
| VideosApi.GetVideosDefaults | src/api/videos.js:4 | omitted arguments mean page 0 and limit 10, which is rows 0 to 9 |
| VideosApi.GetComments | src/api/videos.js:66-87 | an error gives `[]`; otherwise the data is passed through |
| VideosApi.AddComment | src/api/videos.js:89-114 | an error is rethrown; otherwise the inserted row is returned |
| VideosApi.ToggledLikes | src/api/videos.js:46-58 | membership of the pair flips, and every other pair is untouched |
| VideosApi.ToggleLikesTwice | src/api/videos.js:46-58 | two toggles restore the table |
| VideosApi.LikesTable.LikeVideo | src/api/videos.js:37-64 | found means delete and `liked: false`; not found means insert and `liked: true`; a write error leaves the table and is rethrown |
| VideosApi.LikeVideoToggles | src/api/videos.js:37-64 | with working queries, a call is exactly `ToggledLikes` |
| FigmaSync.ToComponent | scripts/figma-sync.js:59-65 | id, name and type copied; a missing description becomes "" and missing properties become `{}` |
| FigmaSync.SelectComponents | scripts/figma-sync.js:58 | keeps the component nodes of a list, in order |
| FigmaSync.SelectComponentsAppend | scripts/figma-sync.js:58 | selecting from a concatenation is the concatenation of the selections |
| FigmaSync.ComponentsArePreorderSelection | scripts/figma-sync.js:57-73 | the search returns exactly the COMPONENT/COMPONENT_SET nodes in pre-order, children of components included |
| FigmaSync.ComponentsArePreorderSelectionAll | scripts/figma-sync.js:68-73 | the same for a list of sibling trees |
| FigmaSync.Traverse | scripts/figma-sync.js:57-71 | the accumulator gains exactly the components of the subtree, in pre-order |
| FigmaSync.ExtractComponents | scripts/figma-sync.js:54-75 | the result is the pre-order selection of component nodes under the document's children |
| FigmaSync.SanitizeName | scripts/figma-sync.js:197 | only ASCII letters and digits remain, and a name made only of them is unchanged |
| FigmaSync.SanitizeNameKeepsAlnum | scripts/figma-sync.js:197 | the result is a subsequence of the name holding each ASCII letter and digit as often as the name does |
| FigmaSync.SanitizeNameAppend | scripts/figma-sync.js:197 | sanitising works character by character |
| FigmaSync.SanitizeNameIdempotent | scripts/figma-sync.js:197 | sanitising twice is sanitising once |
| FigmaSync.IndexAfter | scripts/figma-sync.js:211-233 | a missing file becomes the header plus the export line and a newline; a text that already holds the line is left as it is; otherwise the old text is a prefix of the new one; the line is always present afterwards |
| FigmaSync.IndexAfterIdempotent | scripts/figma-sync.js:224-228 | updating twice for one name equals updating once |
| FigmaSync.IndexAfterKeeps | scripts/figma-sync.js:224-228 | export lines already present survive later updates |
| FigmaSync.ComponentIndexFile.UpdateComponentIndex | scripts/figma-sync.js:211-233 | the file becomes `IndexAfter` of its old content; a failed write leaves it unchanged |
| FigmaSync.GetLastVersion | scripts/figma-sync.js:41-48 | the trimmed file content, or none when the file cannot be read |
| FigmaSync.SavedNames | scripts/figma-sync.js:330-332 | one save per component, in order, under the sanitised name |
| FigmaSync.SyncVersionGate | scripts/figma-sync.js:319-322 | an unchanged version does nothing at all |
| FigmaSync.RunSavesVersionLast | scripts/figma-sync.js:330-338 | after the gate, a stored version is the last effect, right after the tasks, with one save per component before it |
| FigmaSync.SyncSavesVersionLast | scripts/figma-sync.js:330-338 | the version is saved last, right after the task registration, and only once every component was saved |
| FigmaSync.Sync | scripts/figma-sync.js:309-346 | the run's effects in order: failure exits, the version gate, saves (stopping at a failing save), tasks, then the version |
| HomeScreen.SampleVideos | src/screens/HomeScreen.js:17-44 | the two fallback videos |
| HomeScreen.LoadedVideos | src/screens/HomeScreen.js:75-88 | an error or a throw gives the samples; success gives the data, falling back only when the data is null (an empty list is kept) |
| HomeScreen.LoadedError | src/screens/HomeScreen.js:75-88 | the message of the error that occurred, else nothing |
| HomeScreen.EmptyFeedOnlyFromEmptyAnswer | src/screens/HomeScreen.js:75-88 | the feed is empty exactly when the backend answered with no rows and no error |
| HomeScreen.Screen.constructor | src/screens/HomeScreen.js:48-51 | no videos, index 0, loading, no error |
| HomeScreen.Screen.StartLoad | src/screens/HomeScreen.js:58-60 | loading is on and the old error is cleared |
| HomeScreen.Screen.FinishLoad | src/screens/HomeScreen.js:62-90 | the list is `LoadedVideos`; a failure records its message; `loading` ends false on every path |
| HomeScreen.Screen.OnViewableItemsChanged | src/screens/HomeScreen.js:93-97 | the first viewable index becomes current; an empty list changes nothing |
| HomeScreen.Screen.ActiveFlags | src/screens/HomeScreen.js:123-125 | only `currentIndex` is active, so at most one player plays |
| HomeScreen.Screen.ShowsErrorBanner | src/screens/HomeScreen.js:115-119 | the banner appears for a truthy error, which is a recorded non-empty message |
| HomeScreen.Load | src/screens/HomeScreen.js:57-91 | a full load ends not loading, with an empty list only after an empty answer and the error of that load recorded |
| ProfilePage.MockVideos | app/pages/ProfilePage.js:44-93 | six videos, the k-th (from 0) with id k + 1 and created k days ago |
| ProfilePage.LikedVideos | app/pages/ProfilePage.js:96-97 | exactly the videos whose id is stored, as a subsequence in `videos` order; nothing stored gives nothing |
| ProfilePage.LikedVideosCounts | app/pages/ProfilePage.js:96-97 | a video whose id is stored occurs in the liked list as often as in `videos` |
| ProfilePage.LikedVideosAll | app/pages/ProfilePage.js:96-97 | when every id is stored, the liked list is the whole list |
| ProfilePage.LikedVideosSameIds | app/pages/ProfilePage.js:96-97 | only the set of stored ids matters |
| ProfilePage.Grid | app/pages/ProfilePage.js:312-323 | all videos on "videos"; the liked list on "liked" when non-empty; otherwise one placeholder |
| ProfilePage.Page.constructor | app/pages/ProfilePage.js:7-19 | user "test-user-1", no profile yet, zero stats, tab "videos" |
| ProfilePage.Page.LoadUserData | app/pages/ProfilePage.js:25-100 | the mock profile, stats and videos; the liked list is filtered by the stored ids |
| ProfilePage.Page.SwitchTab | app/pages/ProfilePage.js:111-114 | the tab is set |
| ProfilePage.Page.Render | app/pages/ProfilePage.js:124-323 | only the loading view until the user is known; after that, the grid for the tab |
| ProfilePage.LikedTabAfterLoad | app/pages/ProfilePage.js:96-323 | with nothing stored the liked tab shows the placeholder; with all six ids stored it shows all six videos |
| WebVideoPlayer.Player.constructor | app/components/VideoPlayer.js:9-16 | playing, unmuted, no controls, no element |
| WebVideoPlayer.Player.SetupVideoAsWritten | app/components/VideoPlayer.js:23-41 | the element is tuned; if the player is playing, the element is muted and started, while `isMuted` is left unchanged |
| WebVideoPlayer.Player.SetupVideo | app/components/VideoPlayer.js:23-41 | corrected setup: muting for autoplay also sets `isMuted`, so the flag matches the element |
| WebVideoPlayer.Player.TogglePlay | app/components/VideoPlayer.js:43-53 | no element means no-op; otherwise pause or play the element and flip `isPlaying`; the element keeps its other attributes |
| WebVideoPlayer.Player.ToggleMute | app/components/VideoPlayer.js:55-61 | no element means no-op; otherwise flip `isMuted` and give the element the new value |
| WebVideoPlayer.Player.ShowsPlayOverlay | app/components/VideoPlayer.js:88 | the play overlay is shown exactly when not playing |
| WebVideoPlayer.Player.MuteIcon | app/components/VideoPlayer.js:134 | 🔇 exactly when `isMuted`, else 🔊 |
| WebVideoPlayer.MuteMismatchAsWritten | app/components/VideoPlayer.js:33-134 | as written, the element is muted while the icon shows 🔊 |
| WebVideoPlayer.FirstMutePressAsWritten | app/components/VideoPlayer.js:55-61 | as written, the first press leaves the element muted |
| WebVideoPlayer.FirstMutePress | app/components/VideoPlayer.js:23-61 | corrected, the icon matches the element, and the first press turns the sound on |
| NativeVideoPlayer.LikeButtonFor | src/components/VideoPlayer.js:83-85 | "favorite" when liked, "favorite-border" otherwise; the count is `likes_count` regardless |
| NativeVideoPlayer.LikeKeepsCount | src/components/VideoPlayer.js:83-85 | liking changes the icon but never the count |
| NativeVideoPlayer.Player.constructor | src/components/VideoPlayer.js:16-17 | `paused` starts as `!isActive`, not liked |
| NativeVideoPlayer.Player.SetActive | src/components/VideoPlayer.js:19-21 | a changed `isActive` resets `paused` to `!isActive`; an unchanged one leaves `paused` |
| NativeVideoPlayer.Player.Press | src/components/VideoPlayer.js:40 | flips `paused` |
| NativeVideoPlayer.Player.HandleLike | src/components/VideoPlayer.js:23-26 | flips `liked` |
| NativeVideoPlayer.Player.ShowsPauseIcon | src/components/VideoPlayer.js:115 | the pause icon shows exactly when paused |
| NativeVideoPlayer.PressThenSwitch | src/components/VideoPlayer.js:19-40 | a change of `isActive` overrides an earlier manual press |
| HomePage.Page.constructor | app/pages/HomePage.js:2-5 | comments closed, no video |
| HomePage.Page.OpenComments | app/pages/HomePage.js:8-12 | the event's video becomes current and the panel opens |
| HomePage.Page.CloseComments | app/pages/HomePage.js:14-18 | the panel closes and has no video; a closed panel never has a video |
| HomePage.Page.Panel | app/pages/HomePage.js:98-101 | the panel receives exactly `currentVideoId` and `commentsOpen` |
| HomePage.OpenThenClose | app/pages/HomePage.js:8-18 | opening then closing returns to the initial state |
| AdminScreen.SampleUsers | src/screens/AdminScreen.js:14-39 | the three seed users |
| AdminScreen.SampleVideos | src/screens/AdminScreen.js:42-76 | the three seed videos, all public |
| AdminScreen.VideosToInsert | src/screens/AdminScreen.js:102-105 | video i goes to user i mod \|users\|; with no users it throws |
| AdminScreen.RoundRobinAuthors | src/screens/AdminScreen.js:102-105 | while there are users enough, video i is by user i; every author is a seeded user |
| AdminScreen.LikesOf | src/screens/AdminScreen.js:122-127 | the first min(2, \|users\|) users like the video, in order |
| AdminScreen.LikePairsLength | src/screens/AdminScreen.js:120-128 | there are \|videos\|·min(2, \|users\|) likes |
| AdminScreen.LikePairsAt | src/screens/AdminScreen.js:120-128 | like v·m + i pairs video v with user i |
| AdminScreen.BuildLikes | src/screens/AdminScreen.js:120-128 | the nested loops build exactly `LikePairs` |
| AdminScreen.CommentsFor | src/screens/AdminScreen.js:149-158 | two comments per video, in order, each by a seeded user with a sample text |
| AdminScreen.BuildComments | src/screens/AdminScreen.js:149-158 | the nested loops build exactly `CommentsFor` |
| AdminScreen.BuildLikesAndComments | src/screens/AdminScreen.js:118-167 | the likes request is sent only when there are likes, then the comments request only when there are comments; their rows are exactly `LikePairs` and `CommentsFor` |
| AdminScreen.Screen.constructor | src/screens/AdminScreen.js:79-80 | not loading, empty status |
| AdminScreen.Screen.SeedDatabase | src/screens/AdminScreen.js:82-180 | a users error aborts before any video; a videos error aborts before any like; likes and comments are sent only when non-empty; their errors still end in success; `loading` ends false |
| AdminScreen.Screen.ClearDatabase | src/screens/AdminScreen.js:182-203 | deletes likes, comments, videos, then users; a thrown request stops the sequence; `loading` ends false |
| JsText.TrimEmptyIffBlank | app/components/CommentsPanel.js:78 | `trim()` is empty exactly when every character is whitespace |
| JsText.TrimIsInfix | app/pages/SearchPage.js:40 | the trimmed text occurs inside the original |
| JsText.DecimalString | app/components/CommentsPanel.js:81 | decimal digits with no leading zero |
| JsText.DecimalRoundTrip | app/components/CommentsPanel.js:81 | the decimal text reads back as the number |
| JsText.DecimalInjective | app/components/CommentsPanel.js:81 | different numbers have different decimal texts |
| JsText.IncludesAppend | scripts/figma-sync.js:225-226 | text that is contained stays contained after appending |
| JsText.IncludesInfix | scripts/figma-sync.js:225-226 | an appended line is contained in the result |

## Left out

- All render trees, styles and `formatNumber`/`formatCount`. They are presentation, and the number formats rely on floating-point `toFixed`.
- Script-tag module injection and `window` event plumbing in the comments panel. Whether the awaited call succeeds is a parameter. In the code as written, the `catch` cannot see a failure inside the injected script: the continuation never runs and `isLoading` stays raised. The two-phase model shows this state (`BeginLoadComments` without a `FinishLoadComments`). The unescaped interpolation of text into script source is not modelled.
- Clocks, timers, `localStorage`, `URL.createObjectURL`, `alert`, `fs`, `process.env` and `process.exit` are not modelled as such. Times, stored contents, preview URLs and outcomes are parameters. Alerts and exits are return values.
- ISO date strings are not modelled; times are integer milliseconds.
- The design service call, the generated component text, the platform config writers and the task list contents in the sync script are not modelled. A component save is recorded only as its sanitised name.
- FigmaSync.Sync: a failing write of the version file after a complete run is not modelled. A document whose top node has no `children` array (which throws in the source) is not modelled either.
- FigmaSync.Sync does not thread the index file through the component saves. The index is modelled on its own by `UpdateComponentIndex`.
- The `Math.random` choices of comment author and text. They are parameters `pickUser(k)`/`pickContent(k)` reduced into range.
- AdminScreen.Screen.SeedDatabase: a users insert that answers with no error and no rows (`users` null) is not modelled. Nor is a videos insert that answers with no error and no rows, where `videos.length` throws (src/screens/AdminScreen.js:116). Nor is a likes or comments insert that throws instead of answering with an error: the catch block (src/screens/AdminScreen.js:170-176) would then end in the `❌ 오류` status, while the model ends in `Seeded`. The message of the error thrown when there are no users is a parameter. The status line is a `Status` value whose text is `StatusText`. The progress states between requests are assigned, but no contract observes them.
- AdminScreen.Screen.ClearDatabase: errors that the backend answers with, rather than throws, are ignored by the source and are not modelled.
- VideosApi.LikesTable.LikeVideo: the likes table is a set of (video, user) pairs, so duplicate rows cannot arise. A failed lookup (including one that finds several rows) is the parameter `lookupFailed` and reads as "not found".
- WebVideoPlayer.VideoElement.Play: `play()` is taken to succeed. An autoplay refusal (a rejected promise) is not modelled. Neither is whether a later render's `muted` attribute overrides the element's state.
- WebVideoPlayer.Player.SetupVideo requires that an element found while the player is not playing already carries `isMuted`. This reflects the `muted: this.isMuted` attribute rendered on it (app/components/VideoPlayer.js:82).
- ProfilePage.Page.LoadUserData: the stored liked ids arrive already parsed. A malformed `likedVideos` entry, on which `JSON.parse` throws, is not modelled.
- SearchPage.Page.constructor: the stored history arrives already parsed, for the same reason.
- HomePage.Page.constructor: the source's constructor omits `super()` and would throw. The model gives the initial state the constructor intends.
- The stale-closure read of `liked` in the native player's `handleLike` is not modelled. Handlers run one at a time, so each flip sees the latest state.
- The `connectedCallback` wiring of the components, the navigation bar, the icon components, the bundler configuration and the static server are not modelled.

## Findings

| source | as written | input that shows it | evidently intended | confidence | as-written member | corrected member |
|---|---|---|---|---|---|---|
| app/components/VideoPlayer.js:33-38 | `setupVideo` mutes the playing element for autoplay but leaves `isMuted` false | a fresh player (playing, unmuted) whose element is found: the element is muted, the button shows 🔊, and the first press sets `isMuted` and keeps the element muted | muting for autoplay also records `isMuted`, so that the icon describes the element and the first press turns the sound on | medium, not executed | WebVideoPlayer.MuteMismatchAsWritten | WebVideoPlayer.FirstMutePress |
