/**
 * The song list of one playlist, src/components/PlaylistSongsModal.tsx:
 * which per-song buttons it offers, what a click on a song asks of the
 * player store, and the busy ids its delete, remove and hide handlers keep
 * around their awaited callbacks.
 *
 * A busy id is `string | null` and only its truthiness matters, so the empty
 * string means "not busy": the model keeps that, and the state's
 * invariant says that two calls of one kind can only be in flight together
 * once an empty song id has been used.
 */
module PlaylistSongsModal {
  import opened Types
  import opened StoreSpec
  import opened SongClick
  import PlaylistCard

  /** `song.user_id === '00000000-...'` */
  predicate IsSystemSong(song: Song)
  {
    song.userId == Some(SystemUserId)
  }

  /** `isSystemSong && onHide` */
  predicate ShowsHide(song: Song, hasOnHide: bool)
  {
    IsSystemSong(song) && hasOnHide
  }

  /** `onRemoveSong` */
  predicate ShowsRemove(hasOnRemoveSong: bool)
  {
    hasOnRemoveSong
  }

  /** `onDeleteSong && !isSystemSong` */
  predicate ShowsDelete(song: Song, hasOnDeleteSong: bool)
  {
    hasOnDeleteSong && !IsSystemSong(song)
  }

  /** `disabled={busyId === song.id}` */
  predicate ButtonDisabled(busy: Option<string>, song: Song)
  {
    busy == Some(song.id)
  }

  /** The truthiness of a `string | null` busy id. */
  predicate Busy(busy: Option<string>)
  {
    busy.Some? && busy.value != ""
  }

  /**
   * Hide is offered only for the songs that ship with the application and
   * delete only for the others, so no song offers both; each needs its
   * callback.
   */
  lemma HideAndDeleteExclusive(song: Song, hasOnHide: bool, hasOnDeleteSong: bool)
    ensures ShowsHide(song, hasOnHide) ==> IsSystemSong(song) && hasOnHide
    ensures ShowsDelete(song, hasOnDeleteSong) ==> !IsSystemSong(song) && hasOnDeleteSong
    ensures !(ShowsHide(song, hasOnHide) && ShowsDelete(song, hasOnDeleteSong))
  {
  }

  /**
   * Opened from a playlist tile, the list offers delete and remove buttons
   * only to a user who may modify the playlist, and a guest sees no action
   * buttons at all.
   */
  lemma ButtonsThroughCard(song: Song, isGuest: bool, userId: Option<string>, p: Playlist,
                           hasOnRemoveSong: bool, hasOnHide: bool)
    ensures var w := PlaylistCard.SongsModalWiring(PlaylistCard.CanModify(isGuest, userId, p),
                                                   isGuest, hasOnRemoveSong, hasOnHide);
      (ShowsDelete(song, w.hasDeleteSong) || ShowsRemove(w.hasRemoveSong) ==>
         !isGuest && userId.Some? && userId == p.userId) &&
      (isGuest ==> !ShowsDelete(song, w.hasDeleteSong) && !ShowsRemove(w.hasRemoveSong) &&
                   !ShowsHide(song, w.hasHide))
  {
  }

  /** `handlePlaySong(song)`: the modal's own playlist goes with the song. */
  function ClickSong(current: Option<Song>, song: Song, p: Playlist): Action
  {
    OnSongClick(current, song, p)
  }

  /**
   * Clicking song `j` of the playlist, when it is not current, makes it
   * current with this playlist; with ids distinct in the playlist, playback
   * then continues with song `j + 1`, or stops after the last one.
   */
  lemma ClickedSongContinuesInPlaylist(s: Snapshot, p: Playlist, j: nat, loadThrows: bool)
    requires j < |SongsOf(p)|
    requires forall a, b :: 0 <= a < b < |SongsOf(p)| ==> SongsOf(p)[a].id != SongsOf(p)[b].id
    requires !s.isLoading && !IsCurrent(s.currentSong, SongsOf(p)[j])
    ensures var songs := SongsOf(p);
      var r := ActionStep(s, ClickSong(s.currentSong, songs[j], p), loadThrows);
      r.currentSong == Some(songs[j]) && r.currentPlaylist == Some(p) &&
      NextSong(r.currentPlaylist, r.currentSong) == (if j + 1 < |songs| then Some(songs[j + 1]) else None)
  {
    var songs := SongsOf(p);
    assert IndexOfId(songs, songs[j].id) == j;
  }

  /**
   * One busy slot's bookkeeping: `inFlight` calls of its kind have not
   * settled, and `sawEmptyId` records that one was started for an empty id.
   */
  ghost predicate SlotValid(busy: Option<string>, inFlight: nat, sawEmptyId: bool)
  {
    && (busy.Some? ==> inFlight > 0)
    && (busy == Some("") ==> sawEmptyId)
    && (busy.None? && inFlight > 0 ==> sawEmptyId)
    && (inFlight > 1 ==> sawEmptyId)
  }

  class SongsModal {
    var deletingSongId: Option<string>
    var removingSongId: Option<string>
    var hidingSongId: Option<string>
    ghost var deletes: nat
    ghost var removals: nat
    ghost var hides: nat
    ghost var sawEmptyId: bool

    ghost predicate Valid()
      reads this
    {
      && SlotValid(deletingSongId, deletes, sawEmptyId)
      && SlotValid(removingSongId, removals, sawEmptyId)
      && SlotValid(hidingSongId, hides, sawEmptyId)
    }

    constructor ()
      ensures Valid()
      ensures deletingSongId.None? && removingSongId.None? && hidingSongId.None?
      ensures deletes == 0 && removals == 0 && hides == 0 && !sawEmptyId
    {
      deletingSongId, removingSongId, hidingSongId := None, None, None;
      deletes, removals, hides, sawEmptyId := 0, 0, 0, false;
    }

    /**
     * The synchronous part of `handleDeleteSong`
     * (src/components/PlaylistSongsModal.tsx:32-41): `req` is the
     * `onDeleteSong` call it starts, if any.
     */
    method BeginDelete(songId: string, hasOnDeleteSong: bool, confirmed: bool) returns (req: Option<Request>)
      requires Valid()
      modifies this
      ensures Valid()
      ensures req == if hasOnDeleteSong && !Busy(old(deletingSongId)) && confirmed
                     then Some(DeleteSong(songId)) else None
      ensures deletingSongId == if req.Some? then Some(songId) else old(deletingSongId)
      ensures deletes == old(deletes) + (if req.Some? then 1 else 0)
      ensures removingSongId == old(removingSongId) && hidingSongId == old(hidingSongId)
      ensures removals == old(removals) && hides == old(hides)
    {
      req := None;
      if !hasOnDeleteSong || Busy(deletingSongId) {
        return;
      }
      if !confirmed {
        return;
      }
      deletingSongId := Some(songId);
      deletes := deletes + 1;
      sawEmptyId := sawEmptyId || songId == "";
      req := Some(DeleteSong(songId));
    }

    /** The `catch`/`finally` once `onDeleteSong` settles (src/components/PlaylistSongsModal.tsx:42-47). */
    method SettleDelete(failed: bool) returns (alerted: bool)
      requires Valid() && deletes > 0
      modifies this
      ensures Valid()
      ensures deletingSongId.None? && alerted == failed && deletes == old(deletes) - 1
      ensures removingSongId == old(removingSongId) && hidingSongId == old(hidingSongId)
      ensures removals == old(removals) && hides == old(hides) && sawEmptyId == old(sawEmptyId)
    {
      alerted := failed;
      deletingSongId := None;
      deletes := deletes - 1;
    }

    /** The synchronous part of `handleRemoveSong` (src/components/PlaylistSongsModal.tsx:50-59). */
    method BeginRemove(songId: string, p: Playlist, hasOnRemoveSong: bool, confirmed: bool)
      returns (req: Option<Request>)
      requires Valid()
      modifies this
      ensures Valid()
      ensures req == if hasOnRemoveSong && !Busy(old(removingSongId)) && confirmed
                     then Some(RemoveSong(songId, p.id)) else None
      ensures removingSongId == if req.Some? then Some(songId) else old(removingSongId)
      ensures removals == old(removals) + (if req.Some? then 1 else 0)
      ensures deletingSongId == old(deletingSongId) && hidingSongId == old(hidingSongId)
      ensures deletes == old(deletes) && hides == old(hides)
    {
      req := None;
      if !hasOnRemoveSong || Busy(removingSongId) {
        return;
      }
      if !confirmed {
        return;
      }
      removingSongId := Some(songId);
      removals := removals + 1;
      sawEmptyId := sawEmptyId || songId == "";
      req := Some(RemoveSong(songId, p.id));
    }

    /** The `catch`/`finally` once `onRemoveSong` settles (src/components/PlaylistSongsModal.tsx:60-65). */
    method SettleRemove(failed: bool) returns (alerted: bool)
      requires Valid() && removals > 0
      modifies this
      ensures Valid()
      ensures removingSongId.None? && alerted == failed && removals == old(removals) - 1
      ensures deletingSongId == old(deletingSongId) && hidingSongId == old(hidingSongId)
      ensures deletes == old(deletes) && hides == old(hides) && sawEmptyId == old(sawEmptyId)
    {
      alerted := failed;
      removingSongId := None;
      removals := removals - 1;
    }

    /** The synchronous part of `handleHideSong` (src/components/PlaylistSongsModal.tsx:68-77). */
    method BeginHide(songId: string, hasOnHide: bool, confirmed: bool) returns (req: Option<Request>)
      requires Valid()
      modifies this
      ensures Valid()
      ensures req == if hasOnHide && !Busy(old(hidingSongId)) && confirmed
                     then Some(Hide(songId, SongItem)) else None
      ensures hidingSongId == if req.Some? then Some(songId) else old(hidingSongId)
      ensures hides == old(hides) + (if req.Some? then 1 else 0)
      ensures deletingSongId == old(deletingSongId) && removingSongId == old(removingSongId)
      ensures deletes == old(deletes) && removals == old(removals)
    {
      req := None;
      if !hasOnHide || Busy(hidingSongId) {
        return;
      }
      if !confirmed {
        return;
      }
      hidingSongId := Some(songId);
      hides := hides + 1;
      sawEmptyId := sawEmptyId || songId == "";
      req := Some(Hide(songId, SongItem));
    }

    /** The `catch`/`finally` once `onHide` settles (src/components/PlaylistSongsModal.tsx:78-83). */
    method SettleHide(failed: bool) returns (alerted: bool)
      requires Valid() && hides > 0
      modifies this
      ensures Valid()
      ensures hidingSongId.None? && alerted == failed && hides == old(hides) - 1
      ensures deletingSongId == old(deletingSongId) && removingSongId == old(removingSongId)
      ensures deletes == old(deletes) && removals == old(removals) && sawEmptyId == old(sawEmptyId)
    {
      alerted := failed;
      hidingSongId := None;
      hides := hides - 1;
    }
  }
}
