/**
 * The rule the song lists and playlist cards follow when a song is clicked
 * (src/components/AllSongsModal.tsx:24-32, PlaylistSongsModal.tsx:22-30,
 * PlaylistCard.tsx:31-41): toggle when the clicked song is the current one,
 * otherwise load it with its playlist and toggle once the load has settled.
 */
module SongClick {
  import opened Types
  import opened StoreSpec
  import PlayerStore

  datatype Action =
    | Toggle                                          // `playPause()`
    | LoadThenToggle(song: Song, playlist: Playlist)  // `setCurrentSong(song, playlist).then(playPause)`
    | NoAction

  /** `currentSong?.id === song.id` */
  predicate IsCurrent(current: Option<Song>, song: Song)
  {
    current.Some? && current.value.id == song.id
  }

  /** `handlePlaySong(song, playlist)` of the two song lists. */
  function OnSongClick(current: Option<Song>, song: Song, playlist: Playlist): Action
  {
    if IsCurrent(current, song) then Toggle else LoadThenToggle(song, playlist)
  }

  /** What an action does to the store when the load and the toggle run back to back. */
  function ActionStep(s: Snapshot, a: Action, loadThrows: bool): Snapshot
  {
    match a
    case Toggle => PlayPauseStep(s)
    case LoadThenToggle(song, playlist) =>
      PlayPauseStep(SetCurrentSongStep(s, Some(song), Some(playlist), loadThrows))
    case NoAction => s
  }

  /**
   * Clicking a song in either list, unless a load is already in flight,
   * leaves a song with the clicked song's identity current: either it was
   * current already and only the transport toggled, or it has been loaded
   * with the list's playlist.
   */
  lemma ClickMakesSongCurrent(s: Snapshot, song: Song, playlist: Playlist, loadThrows: bool)
    requires !s.isLoading
    ensures var r := ActionStep(s, OnSongClick(s.currentSong, song, playlist), loadThrows);
      r.currentSong.Some? && r.currentSong.value.id == song.id &&
      (IsCurrent(s.currentSong, song) ==> r.currentSong == s.currentSong && r.currentPlaylist == s.currentPlaylist) &&
      (!IsCurrent(s.currentSong, song) ==> r.currentSong == Some(song) && r.currentPlaylist == Some(playlist))
  {
  }

  /**
   * Clicking a song other than the current one, with an element present and
   * a load that does not throw, starts a `play()` of that song even when the
   * store was in error before.
   */
  lemma ClickOtherSongStartsIt(s: Snapshot, song: Song, playlist: Playlist)
    requires !s.isLoading && s.media.Some? && !IsCurrent(s.currentSong, song)
    ensures var r := ActionStep(s, OnSongClick(s.currentSong, song, playlist), false);
      r.isLoading && !r.hasError && !r.isPlaying && !r.media.value.paused &&
      r.media.value.src == song.audioUrl
  {
  }

  /**
   * Performs an action on the store. `loadThrows` is the outcome of the
   * `load()` when the action loads a song; `started` tells whether a
   * `play()` call is outstanding afterwards.
   */
  method Perform(store: PlayerStore.Store, a: Action, loadThrows: bool) returns (started: bool)
    requires store.Valid()
    modifies store, store.audioElement
    ensures store.Valid()
    ensures store.View() == ActionStep(old(store.View()), a, loadThrows)
    ensures store.audioElement == old(store.audioElement) && store.retired == old(store.retired)
    ensures store.pendingPlays == old(store.pendingPlays) + (if started then 1 else 0)
  {
    started := false;
    match a
    case Toggle =>
      started := store.PlayPause();
    case LoadThenToggle(song, playlist) =>
      store.SetCurrentSong(Some(song), Some(playlist), loadThrows);
      started := store.PlayPause();
    case NoAction =>
  }
}
