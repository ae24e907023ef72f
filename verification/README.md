# Podcast client: downloads, offline library and player bookkeeping

A Dafny model of the bookkeeping core of a React Native podcast client and
its new-episode edge function:

- the two Redux slices, **player** and **download**;
- how an episode identifier is derived from an audio URL;
- the download chain of `DownloadManager.downloadEpisode`;
- the offline reconciliation and play-list mapping of the *My Library* screen;
- the download bookkeeping of the *All Episodes* screen and of the download button;
- push-notification routing and episode construction;
- the auth user/profile merge;
- the navigator's tab icons and screen sets;
- the `check-new-episodes` function: how it builds the newest episode, its per-user records, and its checkpoint rule.

There is one module per source file. Shared modules:

- `Wrappers`: `Option`.
- `Js`: JavaScript's `||` on optional strings, where `null`, `undefined` and `""` all count as absent. It also renders `Date.now()` in decimal.
- `EpisodeIdentity`: `split` with a one-character separator, and the `last segment, cut at ?` identifier.
- `Collaborators`: calls to the services the client awaits but whose code is not part of this model.

How each kind of source code is modelled:

- **Redux slices.** Each is a value-level `Reduce(state, action)` plus a class whose methods assign the fields in place. Every method is proved equal to `Reduce` on the old state. The properties are lemmas about `Reduce`.
- **Screens and controllers.** Their pure parts (joins, mappings, icon choice, routing) are functions with lemmas. Their stateful parts are classes with `modifies` methods over the screen's own state: sets, maps, lists and flags.
- **Inputs.** Each of the following is a parameter:
  - the hidden services, as the set of call kinds that reject on a run;
  - the clock;
  - the user's answer to a dialog;
  - the RSS captures;
  - the push outcome.

Two behaviours of the code that the model keeps as they are:

- **Catalog upsert failure.** A rejected upsert ends the download. `DownloadManager.downloadEpisode` (DownloadManager.ts:29-60) and `AllEpisodes.handleDownload` (AllEpisodes.tsx:129-162) await the upsert inside the same `try` as the transfer. `Collaborators.CallsUntilFailure` models that.
- **Duplicate downloads.** `addDownloadedEpisode` does not deduplicate: an entry already listed gets one more copy (`DownloadSlice.AddKeepsDuplicates`).

The metadata cache is written with different keys by different callers:

- `DownloadManager` writes `image`, `pubDate` and `audioUrl`;
- `AllEpisodes` writes `image_url`, `pub_date` and `audio_url`.

Each caller's keys are kept as written. What the cache returns to *My Library* is an input.

## Model

| member | source | states |
|---|---|---|
| Js.Or | src/controller/DownloadManager.ts:15 | `a \|\| b` is truthy iff either operand is; it is `a` when `a` is truthy, else `b` exactly as it is (null, undefined or `""`) |
| Js.OrElse | src/Screen/Dashboard/MyLibrary.tsx:96-103 | `a \|\| "literal"` is `a` when present and non-empty, else the literal; it is never empty when the literal is not |
| Js.DecimalString | src/Screen/Dashboard/AllEpisodes.tsx:127 | the rendered timestamp is a non-empty string of decimal digits |
| Js.DecimalRoundTrip | src/Screen/Dashboard/AllEpisodes.tsx:127 | reading the rendered digits back gives the timestamp |
| Js.DecimalInjective | src/Screen/Dashboard/AllEpisodes.tsx:127 | two different clocks never give the same `ep_<time>` suffix |
| EpisodeIdentity.Split | src/Screen/Dashboard/AllEpisodes.tsx:127 | `split` with a one-character separator gives at least one piece; no piece contains the separator; each piece's characters come from the input |
| EpisodeIdentity.JoinSplit | src/Screen/Dashboard/AllEpisodes.tsx:127 | joining the pieces with the separator gives back the input |
| EpisodeIdentity.SegmentOfDetermines | src/Screen/Dashboard/AllEpisodes.tsx:127 | if a URL is a prefix ending in `/`, then a segment with no `/` or `?`, then a query with no `/`, the derived identifier is exactly that segment |
| EpisodeIdentity.SegmentOfExists | src/Screen/Dashboard/AllEpisodes.tsx:127 | every URL splits that way around its derived identifier, so the identifier really is the text after the last `/`, up to the first `?` |
| EpisodeIdentity.QueryIndependent | src/Screen/Dashboard/AllEpisodes.tsx:127 | appending `?query` with no `/` in the query leaves the identifier unchanged |
| EpisodeIdentity.DownloadTimeId | src/Screen/Dashboard/AllEpisodes.tsx:127 | the download-time identifier is never empty; it is the segment when the segment is non-empty, else `ep_<now>` |
| EpisodeIdentity.RenderTimeId | src/Screen/Dashboard/AllEpisodes.tsx:184 | the identifier a row is looked up by contains no `/` or `?`, and is `''` for a missing URL |
| EpisodeIdentity.NotificationId | src/services/NotificationService.ts:131-133 | the identifier a notification builds is never empty |
| EpisodeIdentity.StableAcrossQueries | src/Screen/Dashboard/AllEpisodes.tsx:127 | downloads of one path with any two queries that have no `/`, at any two times, get the same identifier: the segment |
| EpisodeIdentity.RenderMatchesDownload | src/Screen/Dashboard/AllEpisodes.tsx:184-193 | when the segment is non-empty, a row looks up exactly the identifier its download stored |
| EpisodeIdentity.FallbackNeverMatches | src/Screen/Dashboard/AllEpisodes.tsx:184-193 | when the segment is empty, a row looks up `''`, and the stored `ep_<time>` identifier is never that |
| EpisodeIdentity.NotificationIdAgrees | src/services/NotificationService.ts:130-133 | the notification path's separate test for an empty URL changes nothing: it derives the download-time identifier |
| PlayerSlice.EpisodeAt | src/redux/playerSlice.ts:40 | `episodes[index] \|\| null` is an episode iff the index is in range, and then it is the indexed episode |
| PlayerSlice.Reduce | src/redux/playerSlice.ts:33-62 | `clearPlayer` restores the initial state; after `setPlaylist` or `setCurrentIndex` the current episode is the indexed one; each field changes only under its own actions (`isPlaying` under `setPlaybackState`, `isLiked` under `setLikeStatus`, `isDownloaded` under `setDownloadStatus`, the list under `setPlaylist`) or `clearPlayer` |
| PlayerSlice.ReducePreservesConsistency | src/redux/playerSlice.ts:33-62 | every reducer except `setCurrentEpisode` keeps `currentEpisode == episodes[currentIndex] \|\| null` |
| PlayerSlice.SelectionActionsEstablishConsistency | src/redux/playerSlice.ts:37-62 | `setPlaylist`, `setCurrentIndex` and `clearPlayer` establish that invariant from any state, including an out-of-range index |
| PlayerSlice.SetCurrentEpisodeIgnoresPlaylist | src/redux/playerSlice.ts:34-36 | `setCurrentEpisode` stores its payload verbatim, even an episode outside the playlist, which breaks the invariant |
| PlayerSlice.PlaylistThenIndex | src/redux/playerSlice.ts:37-48 | loading a playlist and then moving the index is the same as loading the playlist at that index |
| PlayerSlice.ClearPlayerIdempotent | src/redux/playerSlice.ts:55-62 | `clearPlayer` returns every field to its initial value, and doing it twice is the same as once |
| PlayerSlice.SliceTestCases | __tests__/playerSlice.test.ts:4-58 | the initial state is not playing, has no episode and an empty list; playback toggles both ways; `setCurrentEpisode` stores the episode given |
| PlayerSlice.Player.constructor | src/redux/playerSlice.ts:21-28 | the initial state: nothing playing, no episode, empty list, index 0, not liked, not downloaded |
| PlayerSlice.Player.SetCurrentEpisode | src/redux/playerSlice.ts:34-36 | only `currentEpisode` changes, to the payload; list and index are unchanged |
| PlayerSlice.Player.SetPlaylist | src/redux/playerSlice.ts:37-41 | stores the list and the index; `currentEpisode` is the indexed episode, or null when the index is out of range |
| PlayerSlice.Player.SetPlaybackState | src/redux/playerSlice.ts:42-44 | only `isPlaying` changes |
| PlayerSlice.Player.SetCurrentIndex | src/redux/playerSlice.ts:45-48 | stores the index even out of range; `currentEpisode` follows it; the list is unchanged |
| PlayerSlice.Player.SetLikeStatus | src/redux/playerSlice.ts:49-51 | only `isLiked` changes |
| PlayerSlice.Player.SetDownloadStatus | src/redux/playerSlice.ts:52-54 | only `isDownloaded` changes |
| PlayerSlice.Player.ClearPlayer | src/redux/playerSlice.ts:55-62 | every field goes back to its initial value |
| DownloadSlice.WithoutEpisode | src/redux/downloadSlice.ts:49-53 | the filtered list holds exactly the entries whose `episode_id` differs, and is no longer than the input |
| DownloadSlice.Reduce | src/redux/downloadSlice.ts:37-63 | a progress report is stored under its episode identifier and a removal deletes that key, other keys keeping their presence; an added episode goes to the head of the old list; a removal keeps exactly the entries with another `episode_id`; `clearAllDownloads` empties the list and zeroes the size; each field changes only under its own actions |
| DownloadSlice.WithoutEpisodeAppend | src/redux/downloadSlice.ts:49-53 | the filter decides entry by entry and keeps order: filtering `a + b` is filtering `a`, then `b` |
| DownloadSlice.WithoutAbsentEpisode | src/redux/downloadSlice.ts:49-53 | removing an identifier that is not listed leaves the list unchanged |
| DownloadSlice.WithoutEpisodeIdempotent | src/redux/downloadSlice.ts:49-53 | removing twice is the same as removing once |
| DownloadSlice.ProgressSetThenRemoved | src/redux/downloadSlice.ts:37-42 | setting and then removing an episode's progress leaves the map without that key, whatever was there before |
| DownloadSlice.AddThenRemove | src/redux/downloadSlice.ts:46-53 | removing an episode right after adding it is the same as removing it from the old list |
| DownloadSlice.AddKeepsDuplicates | src/redux/downloadSlice.ts:46-48 | `addDownloadedEpisode` does not deduplicate: an entry already listed gets one more copy |
| DownloadSlice.DownloadStore.constructor | src/redux/downloadSlice.ts:26-31 | no progress entries, no downloads, cache size 0, no error |
| DownloadSlice.DownloadStore.SetDownloadProgress | src/redux/downloadSlice.ts:37-39 | the entry under the report's episode identifier becomes the report; every other key is unchanged |
| DownloadSlice.DownloadStore.RemoveDownloadProgress | src/redux/downloadSlice.ts:40-42 | that key is deleted; removing an absent key changes nothing |
| DownloadSlice.DownloadStore.SetDownloadedEpisodes | src/redux/downloadSlice.ts:43-45 | only the list changes, to the payload |
| DownloadSlice.DownloadStore.AddDownloadedEpisode | src/redux/downloadSlice.ts:46-48 | the payload becomes the head; the old list follows unchanged; the length grows by one |
| DownloadSlice.DownloadStore.RemoveDownloadedEpisode | src/redux/downloadSlice.ts:49-53 | the list keeps exactly the entries with a different `episode_id`; the other fields are unchanged |
| DownloadSlice.DownloadStore.ClearAllDownloads | src/redux/downloadSlice.ts:54-57 | the list is emptied and the cache size zeroed; progress and error are untouched |
| DownloadSlice.DownloadStore.SetTotalCacheSize | src/redux/downloadSlice.ts:58-60 | only the cache size changes |
| DownloadSlice.DownloadStore.SetDownloadError | src/redux/downloadSlice.ts:61-63 | only the error changes |
| Collaborators.CallsUntilFailure | src/controller/DownloadManager.ts:29-67 | awaiting a chain in one `try` makes a prefix of it: all of it when nothing rejects; otherwise it ends at a rejecting call, and every earlier call resolved |
| Collaborators.NothingAfterFailure | src/controller/DownloadManager.ts:29-67 | no call after a rejecting one is made |
| DownloadManager.AudioUrlOf | src/controller/DownloadManager.ts:15 | the audio URL is `audioUrl` when truthy, else `audio_url`; it is truthy iff one of them is |
| DownloadManager.StepChain | src/controller/DownloadManager.ts:27-54 | the four calls are upsert, download, cache and library, in that order; all use the derived identifier and the user; the library status is `'downloaded'` |
| DownloadManager.ChainPrefix | src/controller/DownloadManager.ts:29-60 | the calls made stop right after the first kind that rejects |
| DownloadManager.Percentages | src/controller/DownloadManager.ts:37-39 | each progress report's `progress` is forwarded unchanged, in order |
| DownloadManager.DownloadEpisode | src/controller/DownloadManager.ts:7-68 | a missing audio URL or a missing user returns `false` with one alert and no call; otherwise the calls run in order up to the first rejection; success, with the derived identifier and `onComplete`, comes iff nothing rejects; a failure never calls `onComplete` |
| MyLibrary.Placeholder | src/Screen/Dashboard/MyLibrary.tsx:57-62 | the placeholder episode has the ledger's identifier, the title "Unknown Episode", and empty image and date |
| MyLibrary.Reconcile | src/Screen/Dashboard/MyLibrary.tsx:38-63 | an entry keeps the ledger record and always has an episode: the remote row if found, else the cached metadata, else the placeholder |
| MyLibrary.ReconcileAll | src/Screen/Dashboard/MyLibrary.tsx:37-65 | one entry per ledger record, in ledger order; entry `i` depends only on record `i` and its own lookups |
| MyLibrary.ThrowFallsThroughForThatRowOnly | src/Screen/Dashboard/MyLibrary.tsx:39-54 | a remote lookup that throws gives exactly the result of one that finds nothing, and no other entry changes |
| MyLibrary.PlayItemOf | src/Screen/Dashboard/MyLibrary.tsx:89-104 | in the downloads tab a non-empty `local_path` is the play URL, else `episode.audio_url`, else `""`; each of title, image, date and description is the episode's own value when present and non-empty, else "Unknown", the placeholder, `""` and `""`, so title and image are never empty |
| MyLibrary.HandlePlay | src/Screen/Dashboard/MyLibrary.tsx:87-108 | the player gets every item of the given list, in order, each mapped by `PlayItemOf`, and the tapped index unchanged |
| MyLibrary.LibraryScreen.Play | src/Screen/Dashboard/MyLibrary.tsx:85-108 | the list handed to the player is the liked list on the liked tab and the downloads list on the downloads tab, every entry in order, mapped for that tab |
| MyLibrary.DownloadsPlayFromDevice | src/Screen/Dashboard/MyLibrary.tsx:37-104 | a downloaded file plays from its local path whatever the remote table says; an episode neither remote nor cached plays as "Unknown Episode" with the placeholder image |
| MyLibrary.LibraryScreen.constructor | src/Screen/Dashboard/MyLibrary.tsx:14-18 | the liked tab, empty lists, loading and not refreshing |
| MyLibrary.LibraryScreen.SelectTab | src/Screen/Dashboard/MyLibrary.tsx:141-178 | only the active tab changes |
| MyLibrary.LibraryScreen.FetchLibraryAsWritten | src/Screen/Dashboard/MyLibrary.tsx:20-83 | with no user both lists empty, loading ends, and `refreshing` keeps its value; with a user, a rejected list query empties both lists, the downloads tab gets the reconciled ledger, the liked tab gets the rows or `[]`, and the other list is unchanged |
| MyLibrary.LibraryScreen.FetchLibrary | src/Screen/Dashboard/MyLibrary.tsx:20-83 | the same, except that every path ends both loading and refreshing |
| MyLibrary.LibraryScreen.OnRefreshAsWritten | src/Screen/Dashboard/MyLibrary.tsx:116-119 | after a refresh, the indicator is still on exactly when no one is signed in; signed out both lists are emptied; signed in, a rejected query empties both lists, the downloads tab gets the reconciled ledger and the liked tab the library rows (`[]` for a null answer), and the other tab's list is unchanged |
| MyLibrary.LibraryScreen.OnRefresh | src/Screen/Dashboard/MyLibrary.tsx:116-119 | after a refresh the indicator is off on every path; signed out, or after a rejected query, both lists are empty; otherwise the downloads tab gets the reconciled ledger and the liked tab the library rows (`[]` for a null answer), and the other tab's list is unchanged |
| MyLibrary.LibraryScreen.ShowsSpinner | src/Screen/Dashboard/MyLibrary.tsx:182 | the full-screen indicator shows exactly while loading and not refreshing |
| MyLibrary.LoggedOutRefreshSticks | src/Screen/Dashboard/MyLibrary.tsx:20-26 | signed out, a refresh as written leaves the refresh indicator spinning while the full-screen spinner stays hidden, and the list is empty |
| MyLibrary.LoggedOutRefreshEnds | src/Screen/Dashboard/MyLibrary.tsx:79-82 | with the corrected fetch, the same refresh ends with the indicator off |
| AllEpisodes.StepChain | src/Screen/Dashboard/AllEpisodes.tsx:129-155 | upsert, download and cache, in that order, all under the safe identifier |
| AllEpisodes.ChainPrefix | src/Screen/Dashboard/AllEpisodes.tsx:129-162 | the calls made stop right after the first kind that rejects; metadata is cached only after the transfer resolves |
| AllEpisodes.Row | src/Screen/Dashboard/AllEpisodes.tsx:183-196 | a row is downloading iff its URL is in flight; its progress is the value recorded under its URL, or 0 when none is; it is downloaded iff its render-time identifier is in the downloaded set; the download button shows iff it is not downloaded |
| AllEpisodes.RowAfterDownload | src/Screen/Dashboard/AllEpisodes.tsx:127-193 | once a download is recorded, its row shows as downloaded exactly when the URL's segment is non-empty; the `ep_<time>` fallback never matches |
| AllEpisodes.EpisodeList.constructor | src/Screen/Dashboard/AllEpisodes.tsx:95-97 | empty in-flight set, progress map and downloaded set |
| AllEpisodes.EpisodeList.CheckDownloads | src/Screen/Dashboard/AllEpisodes.tsx:100-109 | with a user, the downloaded set is exactly the ledger's `episode_id`s; without one, nothing changes |
| AllEpisodes.EpisodeList.HandleDownload | src/Screen/Dashboard/AllEpisodes.tsx:112-175 | a missing URL, and then a missing user, abort with no change; otherwise the calls run up to the first rejection; afterwards the URL is in neither the in-flight set nor the progress map; the safe identifier is added to the downloaded set only when all three calls resolve |
| DownloadButton.SpinnerExactlyWhenNoIcon | src/components/DownloadButton.tsx:136-158 | the spinner shows exactly when `getIcon` gives no icon, so the button is never blank; downloaded shows `circle-check`; idle shows `circle-down` |
| DownloadButton.TapFlow | src/components/DownloadButton.tsx:47-100 | a tap asks to log in iff there is no user; otherwise it offers delete iff downloaded, then cancel iff downloading, and otherwise starts |
| DownloadButton.CancelNeedsActiveEntry | src/components/DownloadButton.tsx:79-154 | a tap reaches the cancel dialog only while the store holds progress for the episode, because otherwise the button is disabled |
| DownloadButton.ProgressEntry | src/components/DownloadButton.tsx:108-115 | the store entry is the report's fraction times 100, with bytes written and content length copied |
| DownloadButton.IconName | src/components/DownloadButton.tsx:136-144 | a downloaded episode shows `circle-check`; there is no icon exactly when it is not downloaded and a download is starting or running; an idle episode shows `circle-down` |
| DownloadButton.ShowsSpinner | src/components/DownloadButton.tsx:154 | the spinner shows for a download that is starting or running, never for a downloaded episode, and never when idle |
| DownloadButton.Disabled | src/components/DownloadButton.tsx:152 | the button ignores taps exactly between a start and the first progress entry: an idle button can start and a running download can be cancelled |
| DownloadButton.Button.constructor | src/components/DownloadButton.tsx:21-34 | neither downloaded nor downloading |
| DownloadButton.Button.CheckDownloadStatus | src/components/DownloadButton.tsx:40-45 | with a user, `isDownloaded` takes the ledger's answer; without one, nothing changes |
| DownloadButton.Button.HandleDownload | src/components/DownloadButton.tsx:47-101 | the branch is `TapFlow`; a confirmed, successful delete removes the episode from the list and clears `isDownloaded`; a confirmed cancel that settles removes the progress entry and clears `isDownloading`; a start only raises `isDownloading` and leaves the store unchanged, the transfer still pending |
| DownloadButton.Button.OnProgress | src/components/DownloadButton.tsx:108-115 | each progress report replaces the store's entry for the episode with the scaled report; every other entry and the list are unchanged |
| DownloadButton.Button.FinishDownload | src/components/DownloadButton.tsx:118-133 | when the transfer settles the progress entry goes and `isDownloading` clears either way; only success sets `isDownloaded` and puts the ledger row at the head of the list; a failure leaves `isDownloaded` and the list unchanged |
| DownloadButton.CancelDuringDownload | src/components/DownloadButton.tsx:79-133 | a started download that has reported progress leaves the button enabled, a tap then reaches the cancel dialog, and the cancelled transfer's rejection ends in "Download Failed" |
| NotificationService.ToStored | src/services/NotificationService.ts:36-41 | the stored title defaults to 'New Notification' and the body to ''; the identifier and data are copied |
| NotificationService.RoutesToPlayer | src/services/NotificationService.ts:57-58 | an opened notification goes to the player when its data has type `new_episode` or a non-empty `episode_url`, and otherwise not; without data it never does |
| NotificationService.AudioUrlOf | src/services/NotificationService.ts:129 | the URL is `episode_url`, else `audioUrl`, else `''` |
| NotificationService.EpisodeFor | src/services/NotificationService.ts:129-142 | the built episode has a non-empty identifier, title and image; the title is `episode_title`, else `title`, else 'New Episode'; the description and image are the payload's when present and non-empty, else '' and the placeholder; `pubDate` is now |
| NotificationService.EpisodeIdMatchesDownload | src/services/NotificationService.ts:130-133 | a notification gives an episode the identifier a download of the same URL gives it |
| NotificationService.PushesOfOneFileAgree | src/services/NotificationService.ts:129-133 | two pushes of one file whose URLs differ only in a query agree on the identifier |
| NotificationService.Listener.Record | src/services/NotificationService.ts:76-95 | each notification is dispatched once with its defaults, and saved for the user only when a user ID is present |
| NotificationService.Listener.NavigateToPlayer | src/services/NotificationService.ts:123-148 | when navigation is not ready, nothing happens; otherwise the episode is built and the app goes to `Root` without it |
| NotificationService.Listener.OnClick | src/services/NotificationService.ts:35-67 | a click records the notification, then goes to the player path iff data exists and the type is 'new_episode' or `episode_url` is non-empty; otherwise it goes to `Root`/`Notifications` when navigation is ready |
| AuthHelpers.DispatchUserLogin | src/utils/authHelpers.ts:11-22 | `id` and `email` are copied; the name is from the profile, else metadata `display_name`, else metadata `name`; the avatar is from the profile, else the metadata; the metadata keeps every other key, and its `avatar_url` is the chosen avatar |
| AuthHelpers.EmptyProfileIsNoProfile | src/utils/authHelpers.ts:11-22 | a profile whose fields are empty or missing gives the same record as no profile |
| AuthHelpers.ProfileRefinesFirstDispatch | src/utils/authHelpers.ts:36-65 | the later dispatch with the profile keeps identity, email and every other metadata key; it changes the name and avatar only to the profile's own |
| AppNavigator.TabIcon | src/Appnavigation/Appnavigator.tsx:54-75 | every route gets a non-empty icon name |
| AppNavigator.FocusedTabIcons | src/Appnavigation/Appnavigator.tsx:57-69 | focused, Home shows `home`, Search `search`, Library `document-text` and Profile `person` |
| AppNavigator.OutlineWhenUnfocused | src/Appnavigation/Appnavigator.tsx:57-69 | each of the four tabs shows the `-outline` variant of its focused icon when unfocused, and never the help icon |
| AppNavigator.UnknownRouteIgnoresFocus | src/Appnavigation/Appnavigator.tsx:70-71 | any other route gets `help-circle-outline`, focused or not |
| AppNavigator.TabIconsDistinct | src/Appnavigation/Appnavigator.tsx:54-91 | no two tabs and focus states share an icon |
| AppNavigator.Screens | src/Appnavigation/Appnavigator.tsx:110-120 | signed in, only `Root` is registered; signed out, `Login`, `Register` and `RegisterForm` are |
| AppNavigator.ScreenSetsDisjoint | src/Appnavigation/Appnavigator.tsx:110-120 | no screen is registered in both states |
| CheckNewEpisodes.Trim | supabase/functions/check-new-episodes/index.ts:46-51 | `trim` leaves no ECMAScript white space or line terminator at either end, and never lengthens the text |
| CheckNewEpisodes.TrimParts | supabase/functions/check-new-episodes/index.ts:46-51 | what `trim` removed is white space, and only at the two ends |
| CheckNewEpisodes.TrimKeepsCore | supabase/functions/check-new-episodes/index.ts:46-51 | white space around a text that does not begin or end with white space trims to exactly that text |
| CheckNewEpisodes.TrimIdempotent | supabase/functions/check-new-episodes/index.ts:46-51 | trimming twice is trimming once |
| CheckNewEpisodes.StripTags | supabase/functions/check-new-episodes/index.ts:49 | `replace(/<[^>]*>/g, '')` leaves no `<` that has a `>` after it; it keeps only characters of the input; it never lengthens the text; with `KeepsTextOutsideTags`, it keeps every character outside a span, in order |
| CheckNewEpisodes.NoTagUnchanged | supabase/functions/check-new-episodes/index.ts:49 | text with nothing to strip is left unchanged |
| CheckNewEpisodes.StripTagsIdempotent | supabase/functions/check-new-episodes/index.ts:49 | stripping twice is stripping once |
| CheckNewEpisodes.KeepsTextOutsideTags | supabase/functions/check-new-episodes/index.ts:49 | text with no `<`, then one `<…>` span, then anything, strips to that text followed by what the rest strips to: characters outside spans are kept, in order |
| CheckNewEpisodes.ImageCapture | supabase/functions/check-new-episodes/index.ts:36-37 | an `itunes:image` match wins over `media:thumbnail`, even with an empty `href` |
| CheckNewEpisodes.BuildEpisode | supabase/functions/check-new-episodes/index.ts:40-52 | no episode iff the title or audio capture is missing; otherwise title and URL are trimmed; defaults are now, `''`, the placeholder and `'0:00'`; the description is stripped, then trimmed |
| CheckNewEpisodes.BuiltEpisodeIsClean | supabase/functions/check-new-episodes/index.ts:45-52 | a built episode's title, URL and description have no white space at either end, and its description has no markup left |
| CheckNewEpisodes.Latest | supabase/functions/check-new-episodes/index.ts:26-57 | `fetchLatestEpisode` gives no episode iff the feed could not be read or the title or audio capture is missing; otherwise title and audio URL are the trimmed captures |
| CheckNewEpisodes.DataFor | supabase/functions/check-new-episodes/index.ts:142-151 | the payload data has type 'new_episode', the title, the audio URL twice, the description, image and publication date of the episode, and its duration or `'0:00'` |
| CheckNewEpisodes.PushFor | supabase/functions/check-new-episodes/index.ts:61-78 | the push has the fixed heading, the episode title as its contents, and the same data as the records |
| CheckNewEpisodes.NotificationRecords | supabase/functions/check-new-episodes/index.ts:138-154 | one record per user, in order, unread, with the heading, the episode title as its body, and the push data |
| CheckNewEpisodes.RecordsMatchPush | supabase/functions/check-new-episodes/index.ts:138-154 | every listed user has a record, and each of their records is unread and says what the push said |
| CheckNewEpisodes.SaveForAllUsers | supabase/functions/check-new-episodes/index.ts:116-173 | a failed query or insert reports failure with count 0 and inserts nothing; with no users it reports success with count 0 and inserts nothing; otherwise it inserts one record per user and the count is their number |
| CheckNewEpisodes.AsWrittenAgreesExceptEmpty | supabase/functions/check-new-episodes/index.ts:208-211 | the comparison as written and the corrected one agree on every stored value except `""` |
| CheckNewEpisodes.IsNewEpisodeAsWritten | supabase/functions/check-new-episodes/index.ts:208-211 | as written, an episode is new iff the stored checkpoint is `""` or is not its audio URL |
| CheckNewEpisodes.EmptyUrlNeverSettlesAsWritten | supabase/functions/check-new-episodes/index.ts:208-211 | as written, an episode with an empty audio URL counts as new even when `""` is the stored checkpoint |
| CheckNewEpisodes.CheckpointSettles | supabase/functions/check-new-episodes/index.ts:208-211 | once the checkpoint holds a URL, that episode is not new, and any other URL is |
| CheckNewEpisodes.CheckpointOnlyAfterPush | supabase/functions/check-new-episodes/index.ts:214-239 | the checkpoint moves only after a push that went out and a checkpoint write that succeeded, and then to the latest audio URL, whether or not the records were saved |
| CheckNewEpisodes.PushIffNew | supabase/functions/check-new-episodes/index.ts:211-214 | a push is attempted exactly when the feed gave an episode whose URL the checkpoint does not hold |
| CheckNewEpisodes.NotifiedOnce | supabase/functions/check-new-episodes/index.ts:208-239 | after a run that pushed and moved the checkpoint, a run that finds the same episode sends and writes nothing |
| CheckNewEpisodes.RecordsOnlyWithPush | supabase/functions/check-new-episodes/index.ts:214-224 | records are added only when the push went out, the user query answered and the insert succeeded; then there is one per user, and the response counts them |
| CheckNewEpisodes.Handle | supabase/functions/check-new-episodes/index.ts:188-279 | with the corrected checkpoint comparison: no episode gives 500 "Failed to fetch RSS feed" and changes nothing; a stored checkpoint equal to the URL gives 200 "No new episodes" and changes nothing; the status is 500 exactly for no episode or a failed push of a new one; a 500 never moves the checkpoint or adds records; the checkpoint only ever moves to the latest URL |
| CheckNewEpisodes.HandleAsWritten | supabase/functions/check-new-episodes/index.ts:188-279 | as written, no episode gives the same 500; a stored `""` makes the latest episode be pushed again; a stored checkpoint equal to a non-empty URL gives "No new episodes" and changes nothing |
| CheckNewEpisodes.Serve | supabase/functions/check-new-episodes/index.ts:176-279 | with the corrected checkpoint comparison: a feed that yields no episode gives 500 "Failed to fetch RSS feed" and changes nothing; every response is 200 or 500; the checkpoint stays or becomes the latest audio URL |
| CheckNewEpisodes.HandleAsWrittenAgrees | supabase/functions/check-new-episodes/index.ts:208-211 | the run with the comparison as written gives the same response and tables as the corrected run whenever the stored checkpoint is not `""` |
| CheckNewEpisodes.EmptyUrlRepushedAsWritten | supabase/functions/check-new-episodes/index.ts:208-239 | as written, after a run pushes an episode with an empty audio URL and stores `""`, the next run that finds it pushes it again |
| CheckNewEpisodes.EdgeFunction.Run | supabase/functions/check-new-episodes/index.ts:176-279 | one run reads the newest episode from the feed, then changes the tables, and gives the response, exactly as `Serve` of the old tables says |
| CheckNewEpisodes.EdgeFunction.Respond | supabase/functions/check-new-episodes/index.ts:188-279 | once the feed has been read, the tables change and the response is given exactly as `Handle` says; the lemmas above prove what `Handle` guarantees for any parsed episode |

## Left out

- **Hidden services.** `DownloadService`, `DatabaseService` and `NotificationDatabaseService` are not part of this model. The same goes for `getEpisodeIdFromUrl`, `isDownloaded`, `deleteDownload`, `cancelDownload`, `getDownloadedEpisode(s)` and `getEpisodeMetadata`. Their calls are recorded as data, and their outcomes (resolves or rejects, what they return) are inputs.
- **Network and backend I/O.** This covers:
  - supabase queries;
  - the RSS `fetch`;
  - the OneSignal REST call and SDK setup (`initialize`, the permission request, the subscription log);
  - the auth listeners and client configuration.
- **The RSS regular expressions.** What each one captured is an input. Only the tag stripping and `trim` are modelled.
- **Time.** `Date.now()` and `new Date().toISOString()` are parameters. In the edge function, the feed parse and the record construction read the clock separately (`World.nowIso` and `World.savedIso`).
- **Floating point.** Progress is a `real`, so `* 100` is exact. `Math.round` and the progress-ring geometry are not modelled.
- **Rendering and styling.** JSX layout, styles, the loading and empty-state texts, and the `AllEpisodes` play button, which passes its list through to the player unchanged. Alert dialogs appear only as their titles, and a dialog's answer is an input.
- **Async scheduling.** Everything is sequential:
  - `setState` batching, `Promise.all` concurrency and the fire-and-forget `loadUserProfile` are not modelled;
  - a confirmation dialog's `onPress` is modelled as running inside the tap that opened it.
  - the download button's transfer is the exception: a start, each progress report and the settling are separate calls, so another tap can come in between. `AllEpisodes.handleDownload` runs its transfer to the end in one call, and its progress writes are modelled in order inside it.
- **Callbacks that throw.** The model does not let `onProgress` or `onComplete` throw.
- **Playback.** The TrackPlayer service wiring is SDK pass-through.
- **Liked items.** `MyLibrary`'s liked rows come from a hidden service. Only their `episode` field matters, and the model gives them the ledger record's shape.
- **Alert bodies.** The texts built from `error.message` are not modelled.
- CheckNewEpisodes.EdgeFunction.Run: uses the corrected new-episode test (see Findings), so it differs from the code on a stored empty checkpoint; `HandleAsWritten` is the run as written.
- CheckNewEpisodes.EdgeFunction.Respond: the same as `Run`: it follows `Handle`, the corrected comparison, not `HandleAsWritten`.
- CheckNewEpisodes.Handle: uses the corrected comparison, so when the stored checkpoint and the URL are both `""` it answers "No new episodes" where the code pushes again; `HandleAsWritten` is the code's behaviour.
- CheckNewEpisodes.Serve: built on `Handle`, so it shares that one difference on a stored `""`.
- DownloadButton.Button.HandleDownload: `rejects` stands for whichever awaited call of the branch taken rejects. A rejected `cancelDownload` is unhandled in the code, so the flags stay as they are, and the model states only that.
- MyLibrary.LibraryScreen.FetchLibrary: `listThrows` stands for any rejection inside the `try`: the list query, a remote lookup error that escapes, or a rejected `getEpisodeMetadata`, which fails the `Promise.all`. The `cache` parameter itself cannot reject.
- DownloadManager.DownloadEpisode: `getEpisodeIdFromUrl` is called before the `try` (DownloadManager.ts:27). If it threw, the promise would reject instead of answering `false`. The model's identifier function cannot throw.

## Findings

| source | as written | input that shows it | evidently intended | confidence | as-written member | corrected member |
|---|---|---|---|---|---|---|
| src/Screen/Dashboard/MyLibrary.tsx:21-26 | with no user, `fetchLibrary` returns before its `try`, so the `finally` that clears `refreshing` never runs | signed out, pull to refresh: `onRefresh` sets `refreshing` true and nothing sets it false again | every fetch ends the refresh indicator | medium, not executed | MyLibrary.LoggedOutRefreshSticks | MyLibrary.LoggedOutRefreshEnds |
| supabase/functions/check-new-episodes/index.ts:208-211 | `lastChecked?.value \|\| null` turns a stored `""` into `null`, which never equals the latest URL | a feed whose first enclosure has `url=""`: after the first run stores `""`, every later run pushes again | an episode is announced once, until the feed's newest URL changes | low, not executed | CheckNewEpisodes.EmptyUrlRepushedAsWritten | CheckNewEpisodes.NotifiedOnce |
