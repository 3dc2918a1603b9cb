# melody-ed player core in Dafny

melody-ed is a React music player for children's playlists. Its state lives
in a zustand store (`src/store.ts`). The store holds:

- the current song and the playlist it was started from;
- the transport flags `isPlaying`, `isLoading` and `hasError`;
- volume, progress and duration;
- the one `HTMLAudioElement` it drives;
- a closure-held list of teardown functions for that element.

The components around the store are modelled too:

- the player bar (`Player.tsx`);
- the carousel that pages through the playlists (`Carousel.tsx`);
- the playlist tiles (`PlaylistCard.tsx`);
- the song lists (`AllSongsModal.tsx`, `PlaylistSongsModal.tsx`);
- the two forms (`CreatePlaylistModal.tsx`, `AddSongModal.tsx`);
- the join that attaches songs to playlists and the next-position rule, both in `hooks/useSupabase.ts`.

The model has three layers:

- **`StoreSpec` / `StoreLaws`** are the store as values. A `Snapshot` holds every observable field together with the element's `src`, `currentTime`, `volume`, `paused` and whether its listeners are attached. There is one step function per command and per media event. `Run` folds a sequence of them. `StoreLaws` proves laws over single steps and over arbitrary sequences: idempotence, guards, what can and cannot clear an error, volume ownership and listener attachment.
- **`PlayerStore`** is the store as an object. Each command is a method that updates fields in place. Each method is proved to move `View()` exactly as the matching step function does. A `Valid()` invariant says three things:
  - the teardown list holds exactly the live element;
  - the live element has its listeners attached;
  - every element the store has discarded (the ghost set `retired`) is detached, paused and emptied.
- **Components** are pure functions for what they compute and classes for the `useState` hooks their handlers update. The forms, the card, the songs modal and the carousel each keep their busy flags and timers as fields.

`playPause` is `async`. The model splits it into two steps:

- `PlayPause`, which runs up to the `await` of `play()`;
- `PlaySettled(ok)`, its continuation.

A ghost counter, `pendingPlays`, tracks the continuations still owed. `setCurrentSong` awaits `load()`, which returns `undefined`. Its whole body therefore runs before the next event, and it is modelled as one step. Whether `load()` throws is the input `loadThrows`. Confirmation dialogs, the success or failure of an awaited callback, window widths and object URLs are inputs in the same way.

The code does less than one might expect:

- `setVolume` does not clamp the volume. A volume outside [0, 1] makes the element's setter throw `IndexSizeError`: with an element held, the store is left unchanged; without one, the volume is stored, and the next `initializeAudio` throws at src/store.ts:137. That call has already attached the new element's listeners, but the element is never stored or given a teardown entry, and `hasError` is not cleared.
- `seek` does not clamp the time.
- There is no tracking of pending `play()` calls and no tolerance for autoplay rejection: a rejected `play()` sets `hasError`.
- `setCurrentSong` resets neither `progress` nor `duration`.
- One element is reused across songs.
- After the last song of a playlist ends, `isPlaying` stays `true`. Nothing sets it to `false` (`StoreLaws.EndedAtLastSongStops`).
- `playNextSong` tests `hasError` on the snapshot it read before the load (`StoreLaws.StaleErrorSkipsPlay`).
- The carousel renders its tiles without `onDelete`, `onRemoveSong` or `onHide` (src/components/Carousel.tsx:90-94). The owner's delete-song button in a songs modal opened there calls a callback that does nothing (`PlaylistCard.ForwardDeleteSong`).
- In the song form, the success path of `handleSubmit` calls the `handleClose` of the render in which submit was pressed (src/components/AddSongModal.tsx:53). It revokes the preview URL of that moment. The file input stays enabled during the upload, so a file chosen meanwhile keeps its URL unrevoked (`AddSong.FileChosenDuringUploadLeaks`).
- With every playlist on one page, neither arrow changes the index (`Carousel.OnePageArrowsStay`). The `[currentIndex]` effect then does not run, no timer ends the animation, and once the mount timer has fired the arrows and dots stay blocked until a playlist click changes the index (`Carousel.CarouselState.NextSlide`).

## Model

| member | source | states |
|---|---|---|
| StoreSpec.IndexOfId | src/store.ts:86-88 | the first index whose song has the id, or -1 exactly when no song has it |
| StoreSpec.SetCurrentSongStep | src/store.ts:42-67 | ignored while loading; otherwise the song and playlist become current, playback stops, loading ends, and the error flag is set exactly when a song was loaded into an element and the load threw; volume, progress and duration are untouched |
| StoreSpec.PlayPauseStep | src/store.ts:157-167 | without an element, a song, an idle store and no error nothing changes; a playing element is paused; a paused one is started and the store is loading; song, playlist, error and volume are untouched |
| StoreSpec.PlaySettledStep | src/store.ts:168-175 | once `play()` settles, loading is over, playing means it resolved, and a rejection sets the error |
| StoreSpec.SeekStep | src/store.ts:178-184 | only with an element, idle and error-free: progress and the element's time become `time`, nothing else changes |
| StoreSpec.SetVolumeStep | src/store.ts:71-77 | with an element held and `v` outside [0, 1], the element's setter throws and nothing changes; otherwise the stored volume becomes `v`, and the element's does too when there is one; no other field changes |
| StoreSpec.PlayNextStep | src/store.ts:82-100 | with no successor in the current playlist the store is unchanged |
| StoreSpec.InitializeStep | src/store.ts:102-155 | for a stored volume in [0, 1]: a fresh element at that volume with listeners attached, and the error cleared; otherwise the old element is torn down and kept, and the error flag is kept; every other field unchanged |
| StoreSpec.CleanupStep | src/store.ts:186-200 | no element, not playing, not loading, no error, progress and duration 0; song, playlist and volume kept |
| StoreSpec.TimeUpdateStep | src/store.ts:115-117 | progress follows the element's time; no effect without an element |
| StoreSpec.LoadedMetadataStep | src/store.ts:119-121 | only the duration changes, and only while an element exists |
| StoreSpec.MediaErrorStep | src/store.ts:128-130 | an element error sets the error and stops playing and loading |
| StoreSpec.EndedStep | src/store.ts:123-126 | at the end of a track with no successor only the element is paused |
| StoreLaws.SetVolumeIdempotent | src/store.ts:71-77 | setting a volume twice is setting it once |
| StoreLaws.CleanupIdempotent | src/store.ts:186-200 | cleaning up twice is cleaning up once |
| StoreLaws.PlayPauseActsExactlyWhenGuarded | src/store.ts:159 | `playPause` changes the state if and only if its guard holds |
| StoreLaws.PlayPauseFromPaused | src/store.ts:165-175 | from paused, toggle then settle ends playing exactly when `play()` resolved, in error exactly when it rejected, never loading |
| StoreLaws.LoadingBlocksCommands | src/store.ts:45 | while loading, `setCurrentSong`, `playPause`, `seek` and `playNextSong` change nothing |
| StoreLaws.EndedLoadsSuccessor | src/store.ts:123-126 | at the end of song `i` of the playlist, song `i + 1` is loaded into the element with the same playlist, and started when there was no error and the load succeeded |
| StoreLaws.EndedAtLastSongStops | src/store.ts:90-93 | after the last song (or with no playlist or an unknown song) nothing is loaded, there is no wrap-around, and `isPlaying` keeps its value |
| StoreLaws.StaleErrorSkipsPlay | src/store.ts:94-98 | when the store was in error the successor loads cleanly and could play, yet no `play()` starts |
| StoreLaws.OnlySetVolumeChangesVolume | src/store.ts:71-77 | any sequence of commands and events without `setVolume` leaves the volume unchanged |
| StoreLaws.ErrorFreezesTransport | src/store.ts:159 | in error, any sequence of `playPause` and `seek` changes nothing |
| StoreLaws.ErrorPersists | src/store.ts:47 | the error stays set until `setCurrentSong`, `initializeAudio`, `cleanup` or an `ended` event |
| StoreLaws.PlayingOnlyAfterPlayResolves | src/store.ts:168 | `isPlaying` becomes true only when a `play()` call resolves |
| StoreLaws.ElementAlwaysListening | src/store.ts:132-137 | whatever runs, a healthy store stays healthy: any element held has its listeners attached, and the stored volume is in [0, 1] |
| StoreLaws.StepKeepsHealthy | src/store.ts:71-77 | a single command or event keeps the store healthy |
| StoreLaws.FromStartElementsListen | src/store.ts:30-40 | from the initial state, any element held is listening and the stored volume is in [0, 1] |
| PlayerStore.AudioElement.constructor | src/store.ts:111 | a new element: empty source, time 0, volume 1, paused, no listeners |
| PlayerStore.AudioElement.Pause | src/store.ts:163 | only `paused` changes |
| PlayerStore.AudioElement.Play | src/store.ts:167 | only `paused` changes |
| PlayerStore.AudioElement.Teardown | src/store.ts:140-148 | listeners removed, paused, source emptied; the closing `load()` puts the time back to 0; volume kept |
| PlayerStore.RunAll | src/store.ts:188 | every element in the list is torn down, its time back at 0 and its volume kept |
| PlayerStore.Store.RetireCurrent | src/store.ts:106-109 | the teardown list is run and emptied; the current element, if any, joins the retired ones, and every retired element is torn down |
| PlayerStore.Store.constructor | src/store.ts:31-40 | the initial state: nothing current, volume 0.5, no element |
| PlayerStore.Store.SetCurrentSong | src/store.ts:42-67 | the new state is `SetCurrentSongStep` of the old one; the element and the retired set are kept |
| PlayerStore.Store.SetVolume | src/store.ts:71-77 | reports a throw exactly when an element is held and `v` is outside [0, 1]; the new state is `SetVolumeStep` of the old one; keeps the store valid, which includes a volume in [0, 1] while an element is held |
| PlayerStore.Store.PlayPause | src/store.ts:157-167 | the new state is `PlayPauseStep` of the old one; a continuation is owed exactly when a `play()` started |
| PlayerStore.Store.PlaySettled | src/store.ts:168-175 | the new state is `PlaySettledStep`; one continuation fewer is owed |
| PlayerStore.Store.Seek | src/store.ts:178-184 | the new state is `SeekStep` of the old one |
| PlayerStore.Store.PlayNextSong | src/store.ts:82-100 | the new state is `PlayNextStep` of the old one |
| PlayerStore.Store.InitializeAudio | src/store.ts:102-155 | the new state is `InitializeStep`, and the previous element is retired; reports a throw exactly when the stored volume is outside [0, 1]; without a throw, a fresh element is the only teardown entry; with one, the store holds no element and the fresh element is left listening, unretired and unreachable by any teardown |
| PlayerStore.Store.Cleanup | src/store.ts:186-200 | the new state is `CleanupStep`; no element, no teardown entries, the old element retired |
| PlayerStore.Store.OnTimeUpdate | src/store.ts:115-117 | the new state is `TimeUpdateStep` of the old one |
| PlayerStore.Store.OnLoadedMetadata | src/store.ts:119-121 | the new state is `LoadedMetadataStep` of the old one |
| PlayerStore.Store.OnEnded | src/store.ts:123-126 | the new state is `EndedStep` of the old one |
| PlayerStore.Store.OnError | src/store.ts:128-130 | the new state is `MediaErrorStep` of the old one |
| SongClick.ClickMakesSongCurrent | src/components/AllSongsModal.tsx:24-32 | outside a load, after a click the clicked song's id is current; the same song and playlist if it was already current, otherwise the clicked song with the list's playlist |
| SongClick.ClickOtherSongStartsIt | src/components/PlaylistSongsModal.tsx:22-30 | clicking another song with an element and a clean load starts a `play()` of it, even after an error |
| SongClick.Perform | src/components/AllSongsModal.tsx:28-30 | running a click's action on the store object gives `ActionStep` of the old state |
| PlaylistJoin.FindSong | src/hooks/useSupabase.ts:62 | the first song with the id, or none exactly when no song has it |
| PlaylistJoin.RowsFor | src/hooks/useSupabase.ts:59-60 | only rows of the playlist, taken from the input, and every such row |
| PlaylistJoin.RowsForOne | src/hooks/useSupabase.ts:59-60 | a single row is kept exactly when it belongs to the playlist |
| PlaylistJoin.RowsForAppend | src/hooks/useSupabase.ts:59-60 | filtering a concatenation is concatenating the filtered parts, so the rows keep their order |
| PlaylistJoin.SongsForRows | src/hooks/useSupabase.ts:61-65 | at most one song per row, each one of the fetched songs |
| PlaylistJoin.Join | src/hooks/useSupabase.ts:58-71 | one playlist out per playlist in, all fields but `songs` copied; playlist `i` gets the songs of its own rows, in row order |
| PlaylistJoin.SongsFollowRows | src/hooks/useSupabase.ts:61-65 | when every row's song was fetched, song `k` is the song of row `k` |
| PlaylistJoin.UnmatchedRowsDropped | src/hooks/useSupabase.ts:65 | the songs are those of the rows whose song was fetched, in row order; the others are dropped |
| PlaylistJoin.MatchedRows | src/hooks/useSupabase.ts:65 | a row is kept exactly when it is an input row whose song was fetched |
| PlaylistJoin.MatchedRowsOne | src/hooks/useSupabase.ts:65 | a single row is kept exactly when its song was fetched |
| PlaylistJoin.MatchedRowsAppend | src/hooks/useSupabase.ts:65 | filtering a concatenation is concatenating the filtered parts, so the kept rows keep their order |
| PlaylistJoin.RowsForSorted | src/hooks/useSupabase.ts:45-48 | rows ordered by position stay ordered after filtering by playlist |
| PlaylistJoin.JoinedSongsBelongToUser | src/hooks/useSupabase.ts:32-36 | when only the user's songs are fetched, every joined song is the user's |
| PlaylistJoin.TopPosition | src/hooks/useSupabase.ts:106-113 | none exactly when the playlist has no row; otherwise a row's position no row of the playlist exceeds |
| PlaylistJoin.NextPositionAfterAll | src/hooks/useSupabase.ts:116 | the next position is the highest plus one (1 when there is none or it is 0) and above every row of the playlist |
| PlayerView.Digits | src/components/Player.tsx:8 | decimal digits only, no leading zero, one digit exactly below 10 |
| PlayerView.DigitsRoundTrip | src/components/Player.tsx:8 | reading the digits back gives the number |
| PlayerView.PadStart2 | src/components/Player.tsx:8 | a text of two or more characters is unchanged; a shorter one is padded in front with '0' to exactly two |
| PlayerView.FormatTimeFields | src/components/Player.tsx:5-9 | a time that is not negative shows its whole minutes, a colon, and its leftover seconds as exactly two digits |
| PlayerView.ParseClock | src/components/Player.tsx:8 | only a text with a colon three from the end parses |
| PlayerView.FormatTimeRoundTrip | src/components/Player.tsx:5-9 | the clock text of a time that is not negative reads back as its whole seconds |
| PlayerView.FormatTimeExamples | src/components/Player.tsx:5-9 | 0 shows "0:00", 75.5 shows "1:15", 600 shows "10:00" |
| PlayerView.PlayButtonMatchesStore | src/components/Player.tsx:95-96 | with an element mounted, the play button is enabled exactly when pressing it changes the store |
| PlayerView.MountThenUnmount | src/components/Player.tsx:27-32 | mounting then unmounting leaves no element and no teardown entries, every retired element torn down, and the state `CleanupStep(InitializeStep(old))`; when the stored volume is outside [0, 1], the element the mount created stays listening |
| Carousel.ItemsPerPage | src/components/Carousel.tsx:18-27 | between 1 and 4 playlists per page |
| Carousel.ItemsPerPageMonotonic | src/components/Carousel.tsx:18-27 | a wider window never shows fewer per page |
| Carousel.TotalPages | src/components/Carousel.tsx:35 | at least one page, every playlist has a page, no page is left empty |
| Carousel.JsRem | src/components/Carousel.tsx:40 | JavaScript's remainder: differs from the dividend by a multiple of the divisor, below it in size, and carries the dividend's sign |
| Carousel.OnePageArrowsStay | src/components/Carousel.tsx:35-47 | with every playlist on one page there is one page and neither arrow moves off page 0 |
| Carousel.ArrowsStayInRange | src/components/Carousel.tsx:37-47 | from any page, or from -1, both arrows land on an existing page |
| Carousel.ArrowsWrap | src/components/Carousel.tsx:37-47 | next from the last page is the first; previous from the first is the last |
| Carousel.ArrowsInverse | src/components/Carousel.tsx:37-47 | on an existing page each arrow undoes the other |
| Carousel.PlaylistIndex | src/components/Carousel.tsx:55 | the first index with the id, or -1 when none has it |
| Carousel.RenderedOnItsPage | src/components/Carousel.tsx:80-86 | the playlist at index `i` is drawn on page `i / perPage`, an existing page, in slot `i % perPage` |
| Carousel.RenderedOnce | src/components/Carousel.tsx:80-86 | no other page and slot draws that playlist |
| Carousel.ClickTargetsItsPage | src/components/Carousel.tsx:55-56 | a click on a listed playlist aims at the page it is drawn on |
| Carousel.AbsentPlaylistTargetsMinusOne | src/components/Carousel.tsx:55-56 | a click on an unlisted playlist aims at page -1 |
| Carousel.CarouselState.constructor | src/components/Carousel.tsx:30 | first page, not animating, page size from the width, reset timer armed |
| Carousel.CarouselState.Resize | src/components/Carousel.tsx:31 | only the page size changes |
| Carousel.CarouselState.NextSlide | src/components/Carousel.tsx:37-41 | ignored while animating; otherwise animating on the next page, with the reset timer armed only when the page changed |
| Carousel.CarouselState.PrevSlide | src/components/Carousel.tsx:43-47 | the same for the previous page |
| Carousel.CarouselState.DotClick | src/components/Carousel.tsx:127-131 | ignored while animating; otherwise animating on the chosen page |
| Carousel.CarouselState.PlaylistClick | src/components/Carousel.tsx:54-69 | a playlist on the shown page opens at once; otherwise the carousel moves to its page and queues the opening |
| Carousel.CarouselState.ResetTimerFired | src/components/Carousel.tsx:49-52 | the animation ends |
| Carousel.CarouselState.OpenTimerFired | src/components/Carousel.tsx:62-65 | the oldest queued playlist opens and the animation ends |
| AllSongs.AllSongsLength | src/components/AllSongsModal.tsx:16-22 | one entry per song of every playlist, a missing list counting none |
| AllSongs.AllSongsAt | src/components/AllSongsModal.tsx:16-22 | song `j` of playlist `i` sits at `Offset(i) + j` with its playlist's name and the playlist |
| AllSongs.EntryProvenance | src/components/AllSongsModal.tsx:16-22 | every entry is a song of one of the playlists, tagged with that playlist |
| AllSongs.SongInTwoPlaylists | src/components/AllSongsModal.tsx:16-22 | a song in two playlists is listed twice, once under each |
| AllSongs.ClickedEntryContinuesInItsPlaylist | src/components/AllSongsModal.tsx:60 | clicking an entry that is not current makes it current with its own playlist, and the next song is the next one of that playlist |
| PlaylistCard.OnlyTheOwnerModifies | src/components/PlaylistCard.tsx:28 | nobody may modify without a user or a playlist without an owner; whoever may modify is the owner |
| PlaylistCard.ModifyingASystemPlaylist | src/components/PlaylistCard.tsx:28-29 | only the system account may modify a system playlist, and then it is also offered hide |
| PlaylistCard.PlayClick | src/components/PlaylistCard.tsx:31-41 | toggle exactly for the current playlist; otherwise load its first song with it when it has songs, else nothing |
| PlaylistCard.PlayClickStaysInPlaylist | src/components/PlaylistCard.tsx:31-41 | after pressing play on a tile with songs, one of its songs is current; an empty tile that is not current leaves the store unchanged |
| PlaylistCard.ForwardDeleteSong | src/components/PlaylistCard.tsx:175 | offered exactly when the user may modify; it then sends the song's id to the playlist-level delete, or does nothing when there is none |
| PlaylistCard.GuestCannotEdit | src/components/PlaylistCard.tsx:175-177 | a guest gets no delete, remove or hide callbacks in the songs modal |
| PlaylistCard.Card.constructor | src/components/PlaylistCard.tsx:20-24 | nothing busy, nothing open |
| PlaylistCard.Card.DeleteClick | src/components/PlaylistCard.tsx:48-57 | a delete of this playlist is requested exactly when a callback exists, none is running and the user confirmed |
| PlaylistCard.Card.DeleteSettled | src/components/PlaylistCard.tsx:58-63 | busy flag cleared; alert exactly on failure |
| PlaylistCard.Card.HideClick | src/components/PlaylistCard.tsx:66-75 | a hide is requested exactly for a confirmed system playlist with a callback and none running |
| PlaylistCard.Card.HideSettled | src/components/PlaylistCard.tsx:76-81 | busy flag cleared; alert exactly on failure |
| PlaylistCard.Card.CardClick | src/components/PlaylistCard.tsx:84-95 | the parent is notified exactly when no animation ran; one timer is pending |
| PlaylistCard.Card.TransitionTimerFired | src/components/PlaylistCard.tsx:91-94 | the animation ends and the songs modal opens |
| PlaylistCard.Card.AddClick | src/components/PlaylistCard.tsx:43-46 | the add-song modal opens |
| PlaylistCard.Card.CloseModals | src/components/PlaylistCard.tsx:165-173 | the modal that closes is closed and the other is unchanged |
| PlaylistSongsModal.HideAndDeleteExclusive | src/components/PlaylistSongsModal.tsx:156-179 | hide only for system songs, delete only for others, never both |
| PlaylistSongsModal.ButtonsThroughCard | src/components/PlaylistCard.tsx:175-177 | opened from a tile, delete and remove are offered only to the owner, and a guest sees no action buttons |
| PlaylistSongsModal.ClickedSongContinuesInPlaylist | src/components/PlaylistSongsModal.tsx:22-30 | clicking song `j` when it is not current makes it current with this playlist; the next song is `j + 1` or none |
| PlaylistSongsModal.SongsModal.constructor | src/components/PlaylistSongsModal.tsx:18-20 | no busy ids |
| PlaylistSongsModal.SongsModal.BeginDelete | src/components/PlaylistSongsModal.tsx:32-41 | a delete is requested exactly when a callback exists, no truthy delete id is set and the user confirmed; other slots untouched |
| PlaylistSongsModal.SongsModal.SettleDelete | src/components/PlaylistSongsModal.tsx:42-47 | delete id cleared; alert exactly on failure |
| PlaylistSongsModal.SongsModal.BeginRemove | src/components/PlaylistSongsModal.tsx:50-59 | a removal from this playlist is requested under the same rule |
| PlaylistSongsModal.SongsModal.SettleRemove | src/components/PlaylistSongsModal.tsx:60-65 | remove id cleared; alert exactly on failure |
| PlaylistSongsModal.SongsModal.BeginHide | src/components/PlaylistSongsModal.tsx:68-77 | a hide of the song is requested under the same rule |
| PlaylistSongsModal.SongsModal.SettleHide | src/components/PlaylistSongsModal.tsx:78-83 | hide id cleared; alert exactly on failure |
| Text.TrimStart | src/components/CreatePlaylistModal.tsx:25 | the longest suffix not starting with white space; only white space cut |
| Text.TrimEnd | src/components/CreatePlaylistModal.tsx:25 | the longest prefix not ending with white space; only white space cut |
| Text.TrimShape | src/components/CreatePlaylistModal.tsx:25 | the trim is a contiguous part with only white space around it and none at its ends |
| Text.TrimKeepsTrimmed | src/components/CreatePlaylistModal.tsx:25 | a text without white space at its ends is its own trim |
| Text.TrimIdempotent | src/components/CreatePlaylistModal.tsx:25 | trimming twice is trimming once |
| Text.TrimEmptyIffAllWhite | src/components/CreatePlaylistModal.tsx:25 | the trim is empty exactly when the text is all white space |
| Text.TrimOr | src/components/CreatePlaylistModal.tsx:25-26 | never empty: the fallback for an all-white text, the trim otherwise |
| Text.TrimOrIdempotent | src/components/CreatePlaylistModal.tsx:25-26 | with a trimmed fallback, normalising twice is normalising once |
| CreatePlaylist.Payload | src/components/CreatePlaylistModal.tsx:23-27 | name, category and author copied; description and cover trimmed or defaulted, never empty |
| CreatePlaylist.PayloadIdempotent | src/components/CreatePlaylistModal.tsx:23-27 | submitting a payload again yields the same payload |
| CreatePlaylist.CreatePlaylistForm.constructor | src/components/CreatePlaylistModal.tsx:13-19 | the initial form |
| CreatePlaylist.CreatePlaylistForm.Change | src/components/CreatePlaylistModal.tsx:65 | one field takes the typed value |
| CreatePlaylist.CreatePlaylistForm.Submit | src/components/CreatePlaylistModal.tsx:21-36 | with the required fields filled and the cover empty or a URL, the payload is sent, the form reset and closed; otherwise nothing happens |
| AddSong.Payload | src/components/AddSongModal.tsx:47-51 | category from the playlist, cover trimmed or defaulted, the other fields copied |
| AddSong.PayloadCoverIdempotent | src/components/AddSongModal.tsx:50 | normalising the cover twice is normalising it once |
| AddSong.AddSongForm.constructor | src/components/AddSongModal.tsx:14-24 | the initial form, no file, no preview, not loading |
| AddSong.AddSongForm.Change | src/components/AddSongModal.tsx:113 | one field takes the typed value |
| AddSong.AddSongForm.FileChange | src/components/AddSongModal.tsx:27-40 | an MP3 becomes the file, preview and audio URL; anything else only alerts |
| AddSong.AddSongForm.Close | src/components/AddSongModal.tsx:62-76 | a non-empty current preview URL is revoked; the form is reset and closed |
| AddSong.AddSongForm.CloseWith | src/components/AddSongModal.tsx:62-76 | a `handleClose` closure revokes the preview URL it was created with, if non-empty, whatever the preview is now; the form is reset and closed |
| AddSong.AddSongForm.SubmitBegin | src/components/AddSongModal.tsx:42-51 | with a file, no submit running, the required fields filled and the cover empty or a URL, the payload is sent, the form is loading and the preview URL of that moment is the one the submit will revoke; otherwise nothing happens |
| AddSong.AddSongForm.SubmitSettled | src/components/AddSongModal.tsx:53-65 | success closes and resets the form, revoking the preview URL of submit time, not the current one; failure alerts and keeps the input; loading ends |
| AddSong.FileChosenDuringUploadLeaks | src/components/AddSongModal.tsx:42-65 | a file chosen while the upload runs keeps its preview URL unrevoked: only the submit-time URL "u1" is revoked |

## Left out

- `setIsPlaying`, `setProgress` and `setDuration` (src/store.ts:69, 79-80): plain setters that no modelled component calls.
- `audioContext` (src/store.ts:37, 152, 193): always `null`, so it is not modelled.
- What `load()` and `play()` do inside the browser, and their timing. `load()` is one step that throws or not. `play()` is a start and a later settlement.
- Interleavings inside `setCurrentSong`: it is atomic here, because it awaits `load()`, which returns `undefined`, so nothing else runs before it finishes.
- Floating point: times and volumes are mathematical reals. `NaN` and `Infinity` (an element's unknown `duration`) are not modelled.
- PlayerStore.Store.SetVolume and PlayerStore.Store.InitializeAudio: the `IndexSizeError` is reported as the result `threw`. Where it propagates is not modelled: the slider's `onChange` for `setVolume`, the player's mount effect for `initializeAudio`. Volumes come from any caller. The one caller in the code, the range slider (src/components/Player.tsx:116-122), only produces values in [0, 1].
- The progress-bar and volume-slider percentages and gradients: rendering only.
- Rendering, icons and styling.
- `App.tsx`, `AuthPage.tsx`, `Modal.tsx`, `Sidebar.tsx` and `PlaylistGrid.tsx` are not part of this model.
- Supabase requests: queries, inserts and deletes, their errors, and the `!user` guards around them. The join and the next-position rule take the fetched rows as inputs.
- `window.confirm`, `alert`, `URL.createObjectURL` and the awaited callbacks' outcomes: inputs or outputs of the steps. The alert text is not modelled.
- Console logging.
- The resize listener's removal on unmount (src/components/Carousel.tsx:32).
- The skip-back and skip-forward buttons of the player bar have no click handler, so there is nothing to model.
- AddSong.AddSongForm.FileChange: choosing a second file replaces the preview URL without revoking the first. The model records only the revocations the code makes.
- CreatePlaylist.CreatePlaylistForm.Submit and AddSong.AddSongForm.SubmitBegin: the browser's constraint validation (`required` inputs, the cover's `type="url"`) and the disabled submit button are modelled as a submit that does nothing. URL syntax is not modelled: whether the browser reads a non-empty cover as a URL is an input. Which field the browser reports is not modelled.
- PlaylistCard.CanModify: a playlist's `user_id` is modelled as fetched, a string or `null`. A playlist object whose `user_id` is `undefined` is not modelled; for it, `undefined === undefined` would let a signed-out visitor who is not a guest modify it.
- PlayerView.FormatTimeRoundTrip: the round trip is stated for times that are not negative. For negative input the text starts with the negative minute count and is not parsed back.
