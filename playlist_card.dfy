/**
 * A playlist tile, src/components/PlaylistCard.tsx: the predicates that
 * decide what the tile shows and allows, the play button's dispatch to the
 * player store, the busy flags its delete, hide and open handlers keep
 * around their awaited calls and timer, and how it wires its callbacks
 * into the songs modal it opens.
 *
 * `window.confirm` is an input, the awaited callback's failure is an input
 * of the step that settles it, and the `setTimeout` that ends the open
 * animation is a step of its own.
 */
module PlaylistCard {
  import opened Types
  import opened StoreSpec
  import opened SongClick

  /** `currentSong && playlist.songs?.some(song => song.id === currentSong.id)` */
  predicate IsCurrentPlaylist(current: Option<Song>, p: Playlist)
  {
    current.Some? && p.songs.Some? && HasId(p.songs.value, current.value.id)
  }

  /**
   * `!isGuest && user?.id === playlist.user_id`. Without a user the left side
   * is `undefined`; a playlist row as fetched carries `user_id` as a string
   * or `null` (`None` here), and `undefined === null` is false, so only a
   * signed-in user whose id is the owner's may modify.
   */
  predicate CanModify(isGuest: bool, userId: Option<string>, p: Playlist)
  {
    !isGuest && userId.Some? && p.userId.Some? && userId.value == p.userId.value
  }

  /** `playlist.user_id === '00000000-...'` */
  predicate IsSystemPlaylist(p: Playlist)
  {
    p.userId == Some(SystemUserId)
  }

  /**
   * Neither a signed-out visitor nor anybody at all may modify a playlist
   * without an owner; whoever may modify a playlist is its owner.
   */
  lemma OnlyTheOwnerModifies(isGuest: bool, userId: Option<string>, p: Playlist)
    ensures !CanModify(isGuest, None, p)
    ensures p.userId.None? ==> !CanModify(isGuest, userId, p)
    ensures CanModify(isGuest, userId, p) ==> userId.Some? && userId == p.userId
  {
  }

  /** Only the system account could both modify a system playlist and hide it. */
  lemma ModifyingASystemPlaylist(isGuest: bool, userId: Option<string>, p: Playlist)
    requires IsSystemPlaylist(p) && CanModify(isGuest, userId, p)
    ensures userId == Some(SystemUserId) && ShowsHide(p, isGuest)
  {
  }

  /** The hide button is rendered for a system playlist and a user who is not a guest. */
  predicate ShowsHide(p: Playlist, isGuest: bool)
  {
    IsSystemPlaylist(p) && !isGuest
  }

  /** `handlePlayClick`, src/components/PlaylistCard.tsx:31-41 */
  function PlayClick(current: Option<Song>, p: Playlist): (a: Action)
    ensures a == Toggle <==> IsCurrentPlaylist(current, p)
    ensures a.LoadThenToggle? <==> !IsCurrentPlaylist(current, p) && |SongsOf(p)| > 0
    ensures a.LoadThenToggle? ==> a.song == SongsOf(p)[0] && a.playlist == p
  {
    if IsCurrentPlaylist(current, p) then Toggle
    else if p.songs.Some? && |p.songs.value| > 0 then LoadThenToggle(p.songs.value[0], p)
    else NoAction
  }

  /**
   * Pressing play on a tile, unless a load is in flight, either toggles the
   * song of this playlist that is already current, loads the playlist's
   * first song with the playlist, or, for an empty playlist that holds no
   * current song, leaves the store as it was. Whenever the tile had a song
   * to offer, the current song afterwards is one of this playlist's songs.
   */
  lemma PlayClickStaysInPlaylist(s: Snapshot, p: Playlist, loadThrows: bool)
    requires !s.isLoading
    ensures var r := ActionStep(s, PlayClick(s.currentSong, p), loadThrows);
      (IsCurrentPlaylist(s.currentSong, p) ==> r.currentSong == s.currentSong) &&
      (!IsCurrentPlaylist(s.currentSong, p) && |SongsOf(p)| > 0 ==>
         r.currentSong == Some(SongsOf(p)[0]) && r.currentPlaylist == Some(p)) &&
      (!IsCurrentPlaylist(s.currentSong, p) && |SongsOf(p)| == 0 ==> r == s) &&
      (|SongsOf(p)| > 0 ==> r.currentSong.Some? && HasId(SongsOf(p), r.currentSong.value.id))
  {
    if !IsCurrentPlaylist(s.currentSong, p) && |SongsOf(p)| > 0 {
      assert SongsOf(p)[0].id == SongsOf(p)[0].id;
    }
  }

  /**
   * The callback the tile hands the songs modal as `onDeleteSong`
   * (src/components/PlaylistCard.tsx:175): present only when the user may
   * modify the playlist, and it passes the song's id on to the playlist-level
   * `onDelete`, which is optional and then does nothing. The carousel
   * renders its tiles without `onDelete` (src/components/Carousel.tsx:90-94),
   * so there the owner's delete button is the callback that does nothing.
   */
  function ForwardDeleteSong(canModify: bool, hasOnDelete: bool, songId: string): (r: Option<Option<Request>>)
    ensures r.None? <==> !canModify
    ensures canModify && hasOnDelete ==> r == Some(Some(DeletePlaylist(songId)))
    ensures canModify && !hasOnDelete ==> r == Some(None)
  {
    if !canModify then None
    else if hasOnDelete then Some(Some(DeletePlaylist(songId)))
    else Some(None)
  }

  /** Which of the songs modal's callbacks the tile passes (src/components/PlaylistCard.tsx:175-177). */
  datatype Wiring = Wiring(hasDeleteSong: bool, hasRemoveSong: bool, hasHide: bool)

  function SongsModalWiring(canModify: bool, isGuest: bool, hasOnRemoveSong: bool, hasOnHide: bool): Wiring
  {
    Wiring(canModify, canModify && hasOnRemoveSong, !isGuest && hasOnHide)
  }

  /** A guest can neither delete nor remove songs through the modal. */
  lemma GuestCannotEdit(userId: Option<string>, p: Playlist, hasOnRemoveSong: bool, hasOnHide: bool)
    ensures var w := SongsModalWiring(CanModify(true, userId, p), true, hasOnRemoveSong, hasOnHide);
      !w.hasDeleteSong && !w.hasRemoveSong && !w.hasHide
  {
  }

  /** The tile's own state. */
  class Card {
    var isDeleting: bool
    var isHiding: bool
    var isTransitioning: bool
    var isSongsModalOpen: bool
    var isAddModalOpen: bool
    /** Timers set by `handleCardClick` that have not fired yet. */
    var pendingTimers: nat

    /** A click is only accepted while no open animation runs, so at most one timer is pending. */
    predicate Valid()
      reads this
    {
      pendingTimers == if isTransitioning then 1 else 0
    }

    constructor ()
      ensures Valid()
      ensures !isDeleting && !isHiding && !isTransitioning && !isSongsModalOpen && !isAddModalOpen
    {
      isDeleting, isHiding, isTransitioning := false, false, false;
      isSongsModalOpen, isAddModalOpen := false, false;
      pendingTimers := 0;
    }

    /**
     * The synchronous part of `handleDeleteClick` (src/components/PlaylistCard.tsx:48-57):
     * `req` is the `onDelete` call it starts, if any.
     */
    method DeleteClick(p: Playlist, hasOnDelete: bool, confirmed: bool) returns (req: Option<Request>)
      requires Valid()
      modifies this`isDeleting
      ensures Valid()
      ensures req == if hasOnDelete && !old(isDeleting) && confirmed then Some(DeletePlaylist(p.id)) else None
      ensures isDeleting == (old(isDeleting) || req.Some?)
    {
      req := None;
      if !hasOnDelete || isDeleting {
        return;
      }
      if !confirmed {
        return;
      }
      isDeleting := true;
      req := Some(DeletePlaylist(p.id));
    }

    /** The `catch`/`finally` once `onDelete` settles (src/components/PlaylistCard.tsx:58-63). */
    method DeleteSettled(failed: bool) returns (alerted: bool)
      requires Valid() && isDeleting
      modifies this`isDeleting
      ensures Valid()
      ensures !isDeleting && alerted == failed
    {
      alerted := failed;
      isDeleting := false;
    }

    /** The synchronous part of `handleHideClick` (src/components/PlaylistCard.tsx:66-75). */
    method HideClick(p: Playlist, hasOnHide: bool, confirmed: bool) returns (req: Option<Request>)
      requires Valid()
      modifies this`isHiding
      ensures Valid()
      ensures req == if hasOnHide && !old(isHiding) && IsSystemPlaylist(p) && confirmed
                     then Some(Hide(p.id, PlaylistItem)) else None
      ensures isHiding == (old(isHiding) || req.Some?)
    {
      req := None;
      if !hasOnHide || isHiding || !IsSystemPlaylist(p) {
        return;
      }
      if !confirmed {
        return;
      }
      isHiding := true;
      req := Some(Hide(p.id, PlaylistItem));
    }

    /** The `catch`/`finally` once `onHide` settles (src/components/PlaylistCard.tsx:76-81). */
    method HideSettled(failed: bool) returns (alerted: bool)
      requires Valid() && isHiding
      modifies this`isHiding
      ensures Valid()
      ensures !isHiding && alerted == failed
    {
      alerted := failed;
      isHiding := false;
    }

    /**
     * `handleCardClick` (src/components/PlaylistCard.tsx:84-94): `notified`
     * tells whether the parent's `onClick` was called.
     */
    method CardClick() returns (notified: bool)
      requires Valid()
      modifies this`isTransitioning, this`pendingTimers
      ensures Valid()
      ensures notified <==> !old(isTransitioning)
      ensures isTransitioning
      ensures pendingTimers == 1
    {
      notified := false;
      if isTransitioning {
        return;
      }
      isTransitioning := true;
      notified := true;
      pendingTimers := pendingTimers + 1;
    }

    /** The 500 ms timer: the animation ends and the songs modal opens. */
    method TransitionTimerFired()
      requires Valid() && pendingTimers > 0
      modifies this`isTransitioning, this`isSongsModalOpen, this`pendingTimers
      ensures Valid()
      ensures !isTransitioning && isSongsModalOpen && pendingTimers == 0
    {
      pendingTimers := pendingTimers - 1;
      isTransitioning := false;
      isSongsModalOpen := true;
    }

    /** `handleAddClick` */
    method AddClick()
      modifies this`isAddModalOpen
      ensures isAddModalOpen
    {
      isAddModalOpen := true;
    }

    /** The two modals' `onClose`. */
    method CloseModals(addModal: bool, songsModal: bool)
      modifies this`isAddModalOpen, this`isSongsModalOpen
      ensures isAddModalOpen == (old(isAddModalOpen) && !addModal)
      ensures isSongsModalOpen == (old(isSongsModalOpen) && !songsModal)
    {
      if addModal {
        isAddModalOpen := false;
      }
      if songsModal {
        isSongsModalOpen := false;
      }
    }
  }
}
