/**
 * Properties of the player store's state machine (module StoreSpec) over
 * single steps and over arbitrary sequences of commands and element events.
 */
module StoreLaws {
  import opened Types
  import opened StoreSpec

  // ---------------------------------------------------------------------
  // Laws of single commands
  // ---------------------------------------------------------------------

  /** Calling `setVolume(v)` twice is the same as calling it once. */
  lemma SetVolumeIdempotent(s: Snapshot, v: real)
    ensures SetVolumeStep(SetVolumeStep(s, v), v) == SetVolumeStep(s, v)
  {
  }

  /** Calling `cleanup` twice is the same as calling it once. */
  lemma CleanupIdempotent(s: Snapshot)
    ensures CleanupStep(CleanupStep(s)) == CleanupStep(s)
  {
  }

  /**
   * `playPause` changes the snapshot exactly when its guard holds: it either
   * pauses a playing element or starts a `play()` call.
   */
  lemma PlayPauseActsExactlyWhenGuarded(s: Snapshot)
    ensures PlayPauseStep(s) != s <==> CanToggle(s)
  {
    if CanToggle(s) {
      if s.isPlaying {
        assert PlayPauseStep(s).isPlaying != s.isPlaying;
      } else {
        assert PlayPauseStep(s).isLoading != s.isLoading;
      }
    }
  }

  /**
   * From a paused state, a full `playPause` (the step and its continuation)
   * ends playing if `play()` resolves and in the error state if it rejects;
   * either way nothing is loading afterwards.
   */
  lemma PlayPauseFromPaused(s: Snapshot, ok: bool)
    requires CanToggle(s) && !s.isPlaying
    ensures var r := PlaySettledStep(PlayPauseStep(s), ok);
      !r.isLoading && r.isPlaying == ok && r.hasError == !ok &&
      r.currentSong == s.currentSong && r.media.value.src == s.media.value.src
  {
  }

  /**
   * While a load or a `play()` is in flight, `setCurrentSong`, `playPause`,
   * `seek` and `playNextSong` change nothing: `isLoading` serialises them.
   */
  lemma LoadingBlocksCommands(s: Snapshot, song: Option<Song>, playlist: Option<Playlist>,
                              loadThrows: bool, time: real)
    requires s.isLoading
    ensures SetCurrentSongStep(s, song, playlist, loadThrows) == s
    ensures PlayPauseStep(s) == s
    ensures SeekStep(s, time) == s
    ensures PlayNextStep(s, loadThrows) == s
  {
  }

  // ---------------------------------------------------------------------
  // End of track
  // ---------------------------------------------------------------------

  /**
   * At the end of a track whose song is first found at position `i` of the
   * current playlist and is not the last one, the next song is loaded with
   * the same playlist; if the store had no error and the load did not throw,
   * a `play()` of that song is under way.
   */
  lemma EndedLoadsSuccessor(s: Snapshot, i: nat, loadThrows: bool)
    requires s.media.Some? && !s.isLoading
    requires s.currentPlaylist.Some? && s.currentPlaylist.value.songs.Some?
    requires s.currentSong.Some?
    requires var songs := s.currentPlaylist.value.songs.value;
      i + 1 < |songs| && songs[i].id == s.currentSong.value.id &&
      forall k :: 0 <= k < i ==> songs[k].id != s.currentSong.value.id
    ensures var songs := s.currentPlaylist.value.songs.value;
      var r := EndedStep(s, loadThrows);
      r.currentSong == Some(songs[i + 1]) && r.currentPlaylist == s.currentPlaylist &&
      r.media.Some? && r.media.value.src == songs[i + 1].audioUrl &&
      (!s.hasError && !loadThrows ==> r.isLoading && !r.media.value.paused && !r.hasError)
  {
    var songs := s.currentPlaylist.value.songs.value;
    var i' := IndexOfId(songs, s.currentSong.value.id);
    assert i' == i by {
      assert HasId(songs, s.currentSong.value.id);
    }
  }

  /**
   * At the end of the last song of the playlist (or with no playlist, or
   * a current song the playlist does not hold) nothing is loaded and there
   * is no wrap-around: only the element has stopped, and `isPlaying` keeps
   * its value.
   */
  lemma EndedAtLastSongStops(s: Snapshot, loadThrows: bool)
    requires s.media.Some?
    requires s.currentPlaylist.None? || s.currentPlaylist.value.songs.None? ||
             s.currentSong.None? ||
             var songs := s.currentPlaylist.value.songs.value;
             |songs| > 0 && songs[|songs| - 1].id == s.currentSong.value.id &&
             forall k :: 0 <= k < |songs| - 1 ==> songs[k].id != s.currentSong.value.id
    ensures var r := EndedStep(s, loadThrows);
      r.currentSong == s.currentSong && r.isPlaying == s.isPlaying &&
      r.progress == s.progress && r.media == Some(s.media.value.(paused := true))
  {
    if s.currentPlaylist.Some? && s.currentPlaylist.value.songs.Some? && s.currentSong.Some? {
      var songs := s.currentPlaylist.value.songs.value;
      assert HasId(songs, s.currentSong.value.id);
      assert IndexOfId(songs, s.currentSong.value.id) == |songs| - 1;
    }
  }

  /**
   * `playNextSong` judges `hasError` on the snapshot taken before the load:
   * when the store was in error, the successor loads cleanly and could be
   * played, yet no `play()` is started.
   */
  lemma StaleErrorSkipsPlay(s: Snapshot)
    requires s.hasError && !s.isLoading && s.media.Some?
    requires NextSong(s.currentPlaylist, s.currentSong).Some?
    ensures var r := PlayNextStep(s, false);
      r.currentSong == NextSong(s.currentPlaylist, s.currentSong) &&
      !r.hasError && CanToggle(r) && !r.isLoading && !r.isPlaying
  {
  }

  // ---------------------------------------------------------------------
  // Sequences
  // ---------------------------------------------------------------------

  /** No command or event but `setVolume` changes the stored volume. */
  lemma {:induction false} OnlySetVolumeChangesVolume(s: Snapshot, cs: seq<Command>)
    requires forall k :: 0 <= k < |cs| ==> !cs[k].SetVolume?
    ensures Run(s, cs).volume == s.volume
    decreases |cs|
  {
    if cs != [] {
      assert Step(s, cs[0]).volume == s.volume;
      OnlySetVolumeChangesVolume(Step(s, cs[0]), cs[1..]);
    }
  }

  /** Once in error, any number of `playPause` and `seek` calls change nothing. */
  lemma {:induction false} ErrorFreezesTransport(s: Snapshot, cs: seq<Command>)
    requires s.hasError
    requires forall k :: 0 <= k < |cs| ==> cs[k].PlayPause? || cs[k].Seek?
    ensures Run(s, cs) == s
    decreases |cs|
  {
    if cs != [] {
      assert Step(s, cs[0]) == s;
      ErrorFreezesTransport(s, cs[1..]);
    }
  }

  /**
   * Once in error, the store stays in error until `setCurrentSong`,
   * `initializeAudio`, `cleanup` or an end of track (which loads a song).
   */
  lemma {:induction false} ErrorPersists(s: Snapshot, cs: seq<Command>)
    requires s.hasError
    requires forall k :: 0 <= k < |cs| ==> !ClearsError(cs[k])
    ensures Run(s, cs).hasError
    decreases |cs|
  {
    if cs != [] {
      assert Step(s, cs[0]).hasError;
      ErrorPersists(Step(s, cs[0]), cs[1..]);
    }
  }

  /** `isPlaying` turns true only when a `play()` call resolves. */
  lemma {:induction false} PlayingOnlyAfterPlayResolves(s: Snapshot, cs: seq<Command>)
    requires !s.isPlaying
    requires forall k :: 0 <= k < |cs| ==> cs[k] != PlaySettled(true)
    ensures !Run(s, cs).isPlaying
    decreases |cs|
  {
    if cs != [] {
      assert !Step(s, cs[0]).isPlaying;
      PlayingOnlyAfterPlayResolves(Step(s, cs[0]), cs[1..]);
    }
  }

  /**
   * The store holds an element only while that element has its listeners
   * attached and the stored volume is one an element accepts.
   */
  predicate Healthy(s: Snapshot)
  {
    s.media.Some? ==> s.media.value.listening && InUnitRange(s.volume)
  }

  /**
   * Whatever happens, a healthy store stays healthy: `setVolume` never stores
   * a volume an element it holds would refuse, and an `initializeAudio` that
   * throws on the stored volume only happens while no element is held.
   */
  lemma {:induction false} ElementAlwaysListening(s: Snapshot, cs: seq<Command>)
    requires Healthy(s)
    ensures Healthy(Run(s, cs))
    decreases |cs|
  {
    if cs != [] {
      StepKeepsHealthy(s, cs[0]);
      ElementAlwaysListening(Step(s, cs[0]), cs[1..]);
    }
  }

  /** One command or event keeps the store healthy. */
  lemma StepKeepsHealthy(s: Snapshot, c: Command)
    requires Healthy(s)
    ensures Healthy(Step(s, c))
  {
    match c
    case SetVolume(v) =>
      assert Healthy(SetVolumeStep(s, v));
    case InitializeAudio =>
      assert Healthy(InitializeStep(s));
    case _ =>
      assert Step(s, c).volume == s.volume;
  }

  /**
   * From the store's initial state, any element it holds is listening and
   * the stored volume lies in [0, 1].
   */
  lemma FromStartElementsListen(cs: seq<Command>)
    ensures var r := Run(Initial, cs);
      r.media.Some? ==> r.media.value.listening && InUnitRange(r.volume)
  {
    ElementAlwaysListening(Initial, cs);
  }
}
