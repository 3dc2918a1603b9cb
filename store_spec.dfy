/**
 * The player store of src/store.ts as a state machine over values.
 *
 * A `Snapshot` is everything an observer of the store can see: the store's
 * own fields plus the state of the one audio element (`media`). Every command
 * of the store and every listener it attaches to the element is a step
 * function from one snapshot to the next. The imperative store in module
 * PlayerStore is proved to move its fields exactly as these functions say.
 *
 * Awaited browser calls are split at the `await`: `load()` returns nothing,
 * so whether it throws is known before the await and `setCurrentSong` is one
 * step with a `loadThrows` outcome; `play()` settles later, so `playPause`
 * is the step up to the await and `PlaySettledStep` the continuation.
 */
module StoreSpec {
  import opened Types

  /** What the model keeps of an HTMLAudioElement. */
  datatype Media = Media(
    src: string,
    currentTime: real,
    volume: real,
    paused: bool,
    listening: bool)   // the store's four listeners are attached

  datatype Snapshot = Snapshot(
    currentSong: Option<Song>,
    currentPlaylist: Option<Playlist>,
    isPlaying: bool,
    volume: real,
    progress: real,
    duration: real,
    isLoading: bool,
    hasError: bool,
    media: Option<Media>)   // the store's `audioElement`

  /** The store as created (src/store.ts:31-40). */
  const Initial: Snapshot :=
    Snapshot(None, None, false, 0.5, 0.0, 0.0, false, false, None)

  /** The element `new Audio()` yields once the store has wired it up. */
  function FreshMedia(volume: real): Media
  {
    Media("", 0.0, volume, true, true)
  }

  /**
   * The volumes an HTMLMediaElement accepts: assigning its `volume` any
   * other value throws an `IndexSizeError` and changes nothing.
   */
  predicate InUnitRange(v: real)
  {
    0.0 <= v <= 1.0
  }

  /** `setVolume(v)` runs to its end: there is no element to refuse `v`, or `v` is accepted. */
  predicate VolumeAccepted(s: Snapshot, v: real)
  {
    s.media.None? || InUnitRange(v)
  }

  /** What the teardown closure leaves of an element: no listeners, paused, no source, time 0. */
  function TornDown(m: Media): Media
  {
    m.(src := "", currentTime := 0.0, paused := true, listening := false)
  }

  /** The guard of `playPause`: an element, a song, nothing loading, no error. */
  predicate CanToggle(s: Snapshot)
  {
    s.media.Some? && s.currentSong.Some? && !s.isLoading && !s.hasError
  }

  // ---------------------------------------------------------------------
  // Looking up the next song (the `findIndex` in playNextSong)
  // ---------------------------------------------------------------------

  /** Index of the first song with identity `id`, or -1. */
  function IndexOfId(songs: seq<Song>, id: string): (r: int)
    ensures -1 <= r < |songs|
    ensures r >= 0 ==> songs[r].id == id && forall k :: 0 <= k < r ==> songs[k].id != id
    ensures r == -1 <==> !HasId(songs, id)
  {
    if songs == [] then -1
    else if songs[0].id == id then 0
    else
      var i := IndexOfId(songs[1..], id);
      assert forall k :: 1 <= k < |songs| ==> songs[k] == songs[1..][k - 1];
      if i < 0 then -1 else i + 1
  }

  /** The song after the current one in the current playlist, if any. */
  function NextSong(playlist: Option<Playlist>, current: Option<Song>): Option<Song>
  {
    if playlist.None? || playlist.value.songs.None? || current.None? then None
    else
      var songs := playlist.value.songs.value;
      var i := IndexOfId(songs, current.value.id);
      if i < 0 || i + 1 >= |songs| then None else Some(songs[i + 1])
  }

  // ---------------------------------------------------------------------
  // Commands
  // ---------------------------------------------------------------------

  /** `setCurrentSong(song, playlist)`; `loadThrows` is whether `load()` throws. */
  function SetCurrentSongStep(s: Snapshot, song: Option<Song>, playlist: Option<Playlist>,
                              loadThrows: bool): (r: Snapshot)
    ensures s.isLoading ==> r == s
    ensures !s.isLoading ==>
      r.currentSong == song && r.currentPlaylist == playlist && !r.isPlaying && !r.isLoading
    ensures !s.isLoading ==> (r.hasError <==> song.Some? && s.media.Some? && loadThrows)
    ensures r.volume == s.volume && r.progress == s.progress && r.duration == s.duration
    ensures r.media.Some? <==> s.media.Some?
    ensures !s.isLoading && r.media.Some? ==>
      r.media.value.paused && r.media.value.currentTime == 0.0 &&
      r.media.value.volume == s.media.value.volume &&
      r.media.value.listening == s.media.value.listening &&
      r.media.value.src == (if song.Some? then song.value.audioUrl else s.media.value.src)
  {
    if s.isLoading then s
    else
      var media := if s.media.None? then None
        else Some(s.media.value.(
          paused := true,
          currentTime := 0.0,
          src := if song.Some? then song.value.audioUrl else s.media.value.src));
      s.(currentSong := song, currentPlaylist := playlist, isPlaying := false,
         isLoading := false, hasError := song.Some? && s.media.Some? && loadThrows,
         media := media)
  }

  /** `playPause` up to the `await` of `play()`. */
  function PlayPauseStep(s: Snapshot): (r: Snapshot)
    ensures !CanToggle(s) ==> r == s
    ensures CanToggle(s) && s.isPlaying ==>
      !r.isPlaying && !r.isLoading && r.media == Some(s.media.value.(paused := true))
    ensures CanToggle(s) && !s.isPlaying ==>
      !r.isPlaying && r.isLoading && r.media == Some(s.media.value.(paused := false))
    ensures r.currentSong == s.currentSong && r.currentPlaylist == s.currentPlaylist
    ensures r.hasError == s.hasError && r.volume == s.volume
    ensures r.progress == s.progress && r.duration == s.duration
  {
    if !CanToggle(s) then s
    else if s.isPlaying then
      s.(isPlaying := false, isLoading := false, media := Some(s.media.value.(paused := true)))
    else
      s.(isLoading := true, media := Some(s.media.value.(paused := false)))
  }

  /** The continuation of `playPause` once the `play()` promise settles. */
  function PlaySettledStep(s: Snapshot, ok: bool): (r: Snapshot)
    ensures !r.isLoading && r.isPlaying == ok
    ensures r.hasError == (s.hasError || !ok)
    ensures r.currentSong == s.currentSong && r.currentPlaylist == s.currentPlaylist
    ensures r.volume == s.volume && r.progress == s.progress && r.duration == s.duration
    ensures r.media == s.media
  {
    if ok then s.(isPlaying := true, isLoading := false)
    else s.(hasError := true, isPlaying := false, isLoading := false)
  }

  /** `seek(time)`: no clamping to the duration. */
  function SeekStep(s: Snapshot, time: real): (r: Snapshot)
    ensures s.media.None? || s.isLoading || s.hasError ==> r == s
    ensures s.media.Some? && !s.isLoading && !s.hasError ==>
      r.progress == time && r.media == Some(s.media.value.(currentTime := time)) &&
      r == s.(progress := r.progress, media := r.media)
  {
    if s.media.Some? && !s.isLoading && !s.hasError then
      s.(progress := time, media := Some(s.media.value.(currentTime := time)))
    else s
  }

  /**
   * `setVolume(volume)`: no clamping and no guard of its own. With an
   * element, a volume outside [0, 1] makes the element's setter throw before
   * the store is set, so nothing changes; without one, any volume is stored.
   */
  function SetVolumeStep(s: Snapshot, volume: real): (r: Snapshot)
    ensures !VolumeAccepted(s, volume) ==> r == s
    ensures VolumeAccepted(s, volume) ==> r.volume == volume
    ensures r.media.Some? <==> s.media.Some?
    ensures VolumeAccepted(s, volume) && s.media.Some? ==> r.media.value == s.media.value.(volume := volume)
    ensures r == s.(volume := r.volume, media := r.media)
  {
    if !VolumeAccepted(s, volume) then s
    else
      s.(volume := volume,
         media := if s.media.Some? then Some(s.media.value.(volume := volume)) else None)
  }

  /**
   * `playNextSong`: load the successor and, judged on the snapshot taken
   * BEFORE the load, start it.
   */
  function PlayNextStep(s: Snapshot, loadThrows: bool): (r: Snapshot)
    ensures NextSong(s.currentPlaylist, s.currentSong).None? ==> r == s
  {
    var next := NextSong(s.currentPlaylist, s.currentSong);
    if next.None? then s
    else
      var loaded := SetCurrentSongStep(s, next, s.currentPlaylist, loadThrows);
      if !s.hasError then PlayPauseStep(loaded) else loaded
  }

  /**
   * `initializeAudio`: a new element replaces the old one. The old one is
   * torn down first; when the stored volume is outside [0, 1], assigning it to
   * the new element throws before the element is adopted, so the store keeps
   * the (now torn-down) element it had and `hasError` is not cleared.
   */
  function InitializeStep(s: Snapshot): (r: Snapshot)
    ensures InUnitRange(s.volume) ==> r.media == Some(FreshMedia(s.volume)) && !r.hasError
    ensures !InUnitRange(s.volume) ==>
      r.hasError == s.hasError &&
      r.media == (if s.media.Some? then Some(TornDown(s.media.value)) else None)
    ensures r.currentSong == s.currentSong && r.currentPlaylist == s.currentPlaylist
    ensures r.isPlaying == s.isPlaying && r.isLoading == s.isLoading
    ensures r.volume == s.volume && r.progress == s.progress && r.duration == s.duration
  {
    if InUnitRange(s.volume) then s.(hasError := false, media := Some(FreshMedia(s.volume)))
    else s.(media := if s.media.Some? then Some(TornDown(s.media.value)) else None)
  }

  /** `cleanup`: drop the element and reset the transport state. */
  function CleanupStep(s: Snapshot): (r: Snapshot)
    ensures r.media.None? && !r.isPlaying && !r.isLoading && !r.hasError
    ensures r.progress == 0.0 && r.duration == 0.0
    ensures r.currentSong == s.currentSong && r.currentPlaylist == s.currentPlaylist
    ensures r.volume == s.volume
  {
    s.(media := None, isPlaying := false, progress := 0.0, duration := 0.0,
       isLoading := false, hasError := false)
  }

  // ---------------------------------------------------------------------
  // Listeners on the element; without an element none is attached
  // ---------------------------------------------------------------------

  /** `timeupdate` after playback reached `time`. */
  function TimeUpdateStep(s: Snapshot, time: real): (r: Snapshot)
    ensures s.media.None? ==> r == s
    ensures s.media.Some? ==> r.progress == time && r.media == Some(s.media.value.(currentTime := time))
    ensures r.isPlaying == s.isPlaying && r.hasError == s.hasError && r.isLoading == s.isLoading
    ensures r.volume == s.volume && r.currentSong == s.currentSong
  {
    if s.media.None? then s
    else s.(progress := time, media := Some(s.media.value.(currentTime := time)))
  }

  /** `loadedmetadata` with the element's `duration`. */
  function LoadedMetadataStep(s: Snapshot, duration: real): (r: Snapshot)
    ensures s.media.None? ==> r == s
    ensures s.media.Some? ==> r == s.(duration := duration)
  {
    if s.media.None? then s else s.(duration := duration)
  }

  /** `error` on the element (src/store.ts:128-130). */
  function MediaErrorStep(s: Snapshot): (r: Snapshot)
    ensures s.media.None? ==> r == s
    ensures s.media.Some? ==> r.hasError && !r.isPlaying && !r.isLoading
    ensures r.currentSong == s.currentSong && r.volume == s.volume && r.progress == s.progress
  {
    if s.media.None? then s else s.(hasError := true, isPlaying := false, isLoading := false)
  }

  /** `ended`: the element has stopped by itself, then `playNextSong` runs. */
  function EndedStep(s: Snapshot, loadThrows: bool): (r: Snapshot)
    ensures s.media.None? ==> r == s
    ensures s.media.Some? && NextSong(s.currentPlaylist, s.currentSong).None? ==>
      r == s.(media := Some(s.media.value.(paused := true)))
  {
    if s.media.None? then s
    else PlayNextStep(s.(media := Some(s.media.value.(paused := true))), loadThrows)
  }

  // ---------------------------------------------------------------------
  // Sequences of commands and events
  // ---------------------------------------------------------------------

  datatype Command =
    | SetCurrentSong(song: Option<Song>, playlist: Option<Playlist>, loadThrows: bool)
    | PlayPause
    | PlaySettled(ok: bool)
    | Seek(time: real)
    | SetVolume(volume: real)
    | InitializeAudio
    | Cleanup
    | TimeUpdate(time: real)
    | LoadedMetadata(duration: real)
    | Ended(nextLoadThrows: bool)
    | MediaError

  function Step(s: Snapshot, c: Command): Snapshot
  {
    match c
    case SetCurrentSong(song, playlist, loadThrows) => SetCurrentSongStep(s, song, playlist, loadThrows)
    case PlayPause => PlayPauseStep(s)
    case PlaySettled(ok) => PlaySettledStep(s, ok)
    case Seek(time) => SeekStep(s, time)
    case SetVolume(volume) => SetVolumeStep(s, volume)
    case InitializeAudio => InitializeStep(s)
    case Cleanup => CleanupStep(s)
    case TimeUpdate(time) => TimeUpdateStep(s, time)
    case LoadedMetadata(duration) => LoadedMetadataStep(s, duration)
    case Ended(loadThrows) => EndedStep(s, loadThrows)
    case MediaError => MediaErrorStep(s)
  }

  function Run(s: Snapshot, cs: seq<Command>): Snapshot
    decreases |cs|
  {
    if cs == [] then s else Run(Step(s, cs[0]), cs[1..])
  }

  /** The commands after which `hasError` may be false again. */
  predicate ClearsError(c: Command)
  {
    c.SetCurrentSong? || c.InitializeAudio? || c.Cleanup? || c.Ended?
  }
}
