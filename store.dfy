/**
 * The player store of src/store.ts as an object: the zustand store's fields
 * are fields of `Store`, its commands are methods that update them step by
 * step, and the one audio element it drives is an `AudioElement` object that
 * the commands mutate in place.
 *
 * Each method is proved to move the observable state as the matching step
 * function of module StoreSpec says, and to keep `Valid()`: the closure-held
 * `cleanupFunctions` holds exactly one teardown, for the current element,
 * when there is an element and none when there is not, and every element
 * the store has let go of has been torn down (listeners removed, paused,
 * source cleared), so none of them can reach the store again.
 */
module PlayerStore {
  import opened Types
  import opened StoreSpec

  /** The parts of an HTMLAudioElement the store touches. */
  class AudioElement {
    var src: string
    var currentTime: real
    var volume: real
    var paused: bool
    var listening: bool   // the store's four listeners are attached

    /** `new Audio()` */
    constructor ()
      ensures src == "" && currentTime == 0.0 && volume == 1.0 && paused && !listening
    {
      src := "";
      currentTime := 0.0;
      volume := 1.0;
      paused := true;
      listening := false;
    }

    function View(): Media
      reads this
    {
      Media(src, currentTime, volume, paused, listening)
    }

    /** The element has been torn down by its cleanup closure. */
    ghost predicate Retired()
      reads this
    {
      !listening && paused && src == ""
    }

    method Pause()
      modifies this
      ensures View() == old(View()).(paused := true)
    {
      paused := true;
    }

    /** The synchronous part of `play()`: the element leaves the paused state. */
    method Play()
      modifies this
      ensures View() == old(View()).(paused := false)
    {
      paused := false;
    }

    /**
     * The closure `initializeAudio` pushes onto `cleanupFunctions`
     * (src/store.ts:140-148): remove the four listeners, pause and clear the
     * source; the closing `load()` runs the media load algorithm, which puts
     * the playback position back to 0. The volume is kept.
     */
    method Teardown()
      modifies this
      ensures Retired()
      ensures currentTime == 0.0 && volume == old(volume)
    {
      listening := false;
      Pause();
      src := "";
      currentTime := 0.0;
    }
  }

  /** Run every teardown closure, in order (the `forEach` of src/store.ts:107,188). */
  method RunAll(fs: seq<AudioElement>)
    modifies set e | e in fs
    ensures forall e :: e in fs ==> e.Retired()
    ensures forall e :: e in fs ==> e.currentTime == 0.0 && e.volume == old(e.volume)
  {
    var i := 0;
    while i < |fs|
      invariant 0 <= i <= |fs|
      invariant forall j :: 0 <= j < i ==> fs[j].Retired()
      invariant forall j :: 0 <= j < i ==> fs[j].currentTime == 0.0
      invariant forall e :: e in fs ==> e.volume == old(e.volume)
    {
      fs[i].Teardown();
      i := i + 1;
    }
  }

  class Store {
    var currentSong: Option<Song>
    var currentPlaylist: Option<Playlist>
    var isPlaying: bool
    var volume: real
    var progress: real
    var duration: real
    var isLoading: bool
    var hasError: bool
    var audioElement: AudioElement?
    /** The closure-held teardown list; entry `e` tears down element `e`. */
    var cleanupFunctions: seq<AudioElement>

    /** Every element the store has discarded. */
    ghost var retired: set<AudioElement>
    /** `play()` calls whose continuation has not run yet. */
    ghost var pendingPlays: nat

    ghost predicate Valid()
      reads this, audioElement, retired
    {
      && (audioElement == null <==> cleanupFunctions == [])
      && (audioElement != null ==>
            cleanupFunctions == [audioElement] && audioElement.listening &&
            audioElement !in retired && InUnitRange(volume))
      && (forall e :: e in retired ==> e.Retired())
    }

    function View(): Snapshot
      reads this, audioElement
    {
      Snapshot(currentSong, currentPlaylist, isPlaying, volume, progress, duration,
               isLoading, hasError, if audioElement == null then None else Some(audioElement.View()))
    }

    constructor ()
      ensures Valid() && View() == Initial
      ensures retired == {} && pendingPlays == 0
    {
      currentSong := None;
      currentPlaylist := None;
      isPlaying := false;
      volume := 0.5;
      progress := 0.0;
      duration := 0.0;
      isLoading := false;
      hasError := false;
      audioElement := null;
      cleanupFunctions := [];
      retired := {};
      pendingPlays := 0;
    }

    /** src/store.ts:42-67 */
    method SetCurrentSong(song: Option<Song>, playlist: Option<Playlist>, loadThrows: bool)
      requires Valid()
      modifies this, audioElement
      ensures Valid()
      ensures View() == SetCurrentSongStep(old(View()), song, playlist, loadThrows)
      ensures audioElement == old(audioElement) && retired == old(retired)
      ensures pendingPlays == old(pendingPlays)
    {
      if isLoading {
        return;
      }
      isLoading, hasError := true, false;
      var element := audioElement;
      if element != null {
        element.Pause();
        element.currentTime := 0.0;
      }
      currentSong, currentPlaylist, isPlaying := song, playlist, false;
      if song.Some? && element != null {
        element.src := song.value.audioUrl;
        if loadThrows {
          hasError := true;
        }
      }
      isLoading := false;
    }

    /**
     * src/store.ts:71-77. `threw` reports the `IndexSizeError` the element's
     * volume setter raises for a volume outside [0, 1]; it leaves `set` unrun.
     */
    method SetVolume(v: real) returns (threw: bool)
      requires Valid()
      modifies this, audioElement
      ensures Valid()
      ensures threw <==> !VolumeAccepted(old(View()), v)
      ensures View() == SetVolumeStep(old(View()), v)
      ensures audioElement == old(audioElement) && retired == old(retired)
      ensures pendingPlays == old(pendingPlays)
    {
      if audioElement != null {
        if !InUnitRange(v) {
          return true;
        }
        audioElement.volume := v;
      }
      volume := v;
      threw := false;
    }

    /**
     * src/store.ts:157-167, up to the `await` of `play()`; `started` tells
     * whether a `play()` call is now outstanding.
     */
    method PlayPause() returns (started: bool)
      requires Valid()
      modifies this, audioElement
      ensures Valid()
      ensures View() == PlayPauseStep(old(View()))
      ensures started <==> CanToggle(old(View())) && !old(isPlaying)
      ensures pendingPlays == old(pendingPlays) + (if started then 1 else 0)
      ensures audioElement == old(audioElement) && retired == old(retired)
    {
      started := false;
      var element := audioElement;
      if element == null || currentSong.None? || isLoading || hasError {
        return;
      }
      if isPlaying {
        element.Pause();
        isPlaying := false;
      } else {
        isLoading := true;
        element.Play();
        started := true;
        pendingPlays := pendingPlays + 1;
        return;
      }
      isLoading := false;
    }

    /** src/store.ts:168-175: the continuation once `play()` resolves (`ok`) or rejects. */
    method PlaySettled(ok: bool)
      requires Valid() && pendingPlays > 0
      modifies this
      ensures Valid()
      ensures View() == PlaySettledStep(old(View()), ok)
      ensures pendingPlays == old(pendingPlays) - 1
      ensures audioElement == old(audioElement) && retired == old(retired)
    {
      if ok {
        isPlaying := true;
      } else {
        hasError, isPlaying := true, false;
      }
      isLoading := false;
      pendingPlays := pendingPlays - 1;
    }

    /** src/store.ts:178-184 */
    method Seek(time: real)
      requires Valid()
      modifies this, audioElement
      ensures Valid()
      ensures View() == SeekStep(old(View()), time)
      ensures audioElement == old(audioElement) && retired == old(retired)
      ensures pendingPlays == old(pendingPlays)
    {
      if audioElement != null && !isLoading && !hasError {
        audioElement.currentTime := time;
        progress := time;
      }
    }

    /**
     * src/store.ts:82-100. `loadThrows` is the outcome of the successor's
     * `load()`; `started` tells whether a `play()` of it is outstanding.
     */
    method PlayNextSong(loadThrows: bool) returns (started: bool)
      requires Valid()
      modifies this, audioElement
      ensures Valid()
      ensures View() == PlayNextStep(old(View()), loadThrows)
      ensures pendingPlays == old(pendingPlays) + (if started then 1 else 0)
      ensures audioElement == old(audioElement) && retired == old(retired)
    {
      started := false;
      var snapshotHasError := hasError;
      var next := NextSong(currentPlaylist, currentSong);
      if next.None? {
        return;
      }
      SetCurrentSong(next, currentPlaylist, loadThrows);
      if !snapshotHasError {
        started := PlayPause();
      }
    }

    /**
     * Run the teardown list and empty it (src/store.ts:107-108, 188-189):
     * the current element, if any, joins the retired ones.
     */
    method RetireCurrent()
      requires Valid()
      modifies this`cleanupFunctions, this`retired, audioElement
      ensures cleanupFunctions == []
      ensures retired == old(retired) + (if audioElement == null then {} else {audioElement})
      ensures forall e :: e in retired ==> e.Retired()
      ensures audioElement != null ==>
        audioElement.currentTime == 0.0 && audioElement.volume == old(audioElement.volume)
    {
      ghost var gone: set<AudioElement> := if audioElement == null then {} else {audioElement};
      assert gone == set e | e in cleanupFunctions;
      RunAll(cleanupFunctions);
      retired := retired + gone;
      cleanupFunctions := [];
    }

    /**
     * src/store.ts:102-155: tear down the previous element, then create,
     * wire and adopt a new one. `threw` reports the `IndexSizeError` of
     * line 137 for a stored volume outside [0, 1] (one `setVolume` stored
     * while no element existed); the new element, already listening, is then
     * the ghost `orphan`: no teardown entry reaches it and the store never
     * holds it.
     */
    method InitializeAudio() returns (threw: bool, ghost orphan: AudioElement?)
      requires Valid()
      modifies this, audioElement
      ensures Valid()
      ensures View() == InitializeStep(old(View()))
      ensures threw <==> !InUnitRange(old(volume))
      ensures !threw ==> fresh(audioElement) && |cleanupFunctions| == 1
      ensures threw ==> audioElement == null && cleanupFunctions == []
      ensures threw ==> orphan != null && fresh(orphan) && orphan.listening && orphan !in retired
      ensures retired == old(retired) + (if old(audioElement) == null then {} else {old(audioElement)})
      ensures pendingPlays == old(pendingPlays)
    {
      RetireCurrent();

      var element := new AudioElement();
      element.listening := true;   // the four addEventListener calls
      if !InUnitRange(volume) {
        return true, element;
      }
      element.volume := volume;
      cleanupFunctions := cleanupFunctions + [element];
      audioElement := element;
      hasError := false;
      threw, orphan := false, null;
    }

    /** src/store.ts:186-200 */
    method Cleanup()
      requires Valid()
      modifies this, audioElement
      ensures Valid()
      ensures View() == CleanupStep(old(View()))
      ensures audioElement == null && cleanupFunctions == []
      ensures retired == old(retired) + (if old(audioElement) == null then {} else {old(audioElement)})
      ensures pendingPlays == old(pendingPlays)
    {
      RetireCurrent();
      audioElement := null;
      isPlaying, progress, duration := false, 0.0, 0.0;
      isLoading, hasError := false, false;
    }

    // -------------------------------------------------------------------
    // The listeners; an element without listeners cannot call them
    // -------------------------------------------------------------------

    /** `timeupdate` once playback has reached `time` (src/store.ts:115-117). */
    method OnTimeUpdate(time: real)
      requires Valid()
      modifies this, audioElement
      ensures Valid()
      ensures View() == TimeUpdateStep(old(View()), time)
      ensures audioElement == old(audioElement) && retired == old(retired)
      ensures pendingPlays == old(pendingPlays)
    {
      if audioElement != null {
        audioElement.currentTime := time;
        progress := audioElement.currentTime;
      }
    }

    /** `loadedmetadata` with the element's `duration` (src/store.ts:119-121). */
    method OnLoadedMetadata(elementDuration: real)
      requires Valid()
      modifies this
      ensures Valid()
      ensures View() == LoadedMetadataStep(old(View()), elementDuration)
      ensures audioElement == old(audioElement) && retired == old(retired)
      ensures pendingPlays == old(pendingPlays)
    {
      if audioElement != null {
        duration := elementDuration;
      }
    }

    /** `ended` (src/store.ts:123-126). */
    method OnEnded(nextLoadThrows: bool) returns (started: bool)
      requires Valid()
      modifies this, audioElement
      ensures Valid()
      ensures View() == EndedStep(old(View()), nextLoadThrows)
      ensures pendingPlays == old(pendingPlays) + (if started then 1 else 0)
      ensures audioElement == old(audioElement) && retired == old(retired)
    {
      started := false;
      if audioElement != null {
        audioElement.paused := true;   // the element stopped at the end of the media
        started := PlayNextSong(nextLoadThrows);
      }
    }

    /** `error` (src/store.ts:128-130). */
    method OnError()
      requires Valid()
      modifies this
      ensures Valid()
      ensures View() == MediaErrorStep(old(View()))
      ensures audioElement == old(audioElement) && retired == old(retired)
      ensures pendingPlays == old(pendingPlays)
    {
      if audioElement != null {
        hasError, isPlaying, isLoading := true, false, false;
      }
    }
  }
}
