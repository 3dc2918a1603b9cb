/**
 * The "All Songs" list of src/components/AllSongsModal.tsx: every song of
 * every playlist, each tagged with the playlist it came from, and what a
 * click on one of them asks of the player store.
 */
module AllSongs {
  import opened Types
  import opened StoreSpec
  import opened SongClick

  /** A song of the list with the name and the playlist it was listed under. */
  datatype Entry = Entry(song: Song, playlistName: string, playlist: Playlist)

  /** `(playlist.songs || []).map(song => ({ ...song, playlistName, playlist }))` */
  function EntriesOf(p: Playlist): seq<Entry>
  {
    seq(|SongsOf(p)|, j requires 0 <= j < |SongsOf(p)| => Entry(SongsOf(p)[j], p.name, p))
  }

  /** `playlists.flatMap(...)`, src/components/AllSongsModal.tsx:16-22 */
  function AllSongsOf(playlists: seq<Playlist>): seq<Entry>
  {
    if playlists == [] then [] else EntriesOf(playlists[0]) + AllSongsOf(playlists[1..])
  }

  /** The number of songs over all playlists, a missing list counting 0. */
  function TotalSongs(playlists: seq<Playlist>): nat
  {
    if playlists == [] then 0 else |SongsOf(playlists[0])| + TotalSongs(playlists[1..])
  }

  /** Where the entries of playlist `i` start: the songs of the playlists before it. */
  function Offset(playlists: seq<Playlist>, i: nat): nat
    requires i <= |playlists|
  {
    if i == 0 then 0 else |SongsOf(playlists[0])| + Offset(playlists[1..], i - 1)
  }

  /** The list holds one entry per song of every playlist (the "N songs available" count). */
  lemma {:induction false} AllSongsLength(playlists: seq<Playlist>)
    ensures |AllSongsOf(playlists)| == TotalSongs(playlists)
  {
    if playlists != [] {
      AllSongsLength(playlists[1..]);
    }
  }

  /**
   * Song `j` of playlist `i` sits at `Offset(playlists, i) + j`: entries are
   * ordered by playlist, then by the song's place in its playlist, and the
   * entry carries the song unchanged with its playlist's name and the playlist.
   */
  lemma {:induction false} AllSongsAt(playlists: seq<Playlist>, i: nat, j: nat)
    requires i < |playlists| && j < |SongsOf(playlists[i])|
    ensures Offset(playlists, i) + j < |AllSongsOf(playlists)|
    ensures AllSongsOf(playlists)[Offset(playlists, i) + j] ==
            Entry(SongsOf(playlists[i])[j], playlists[i].name, playlists[i])
  {
    if i > 0 {
      AllSongsAt(playlists[1..], i - 1, j);
    }
  }

  /** Every entry comes from one of the playlists and is one of its songs. */
  lemma {:induction false} EntryProvenance(playlists: seq<Playlist>, k: nat)
    requires k < |AllSongsOf(playlists)|
    ensures var e := AllSongsOf(playlists)[k];
      e.playlist in playlists && e.song in SongsOf(e.playlist) && e.playlistName == e.playlist.name
  {
    var head := EntriesOf(playlists[0]);
    if k >= |head| {
      EntryProvenance(playlists[1..], k - |head|);
    }
  }

  /** A song listed in several playlists appears once per playlist, the entries differing in their playlist. */
  lemma SongInTwoPlaylists(playlists: seq<Playlist>, i1: nat, j1: nat, i2: nat, j2: nat)
    requires i1 < i2 < |playlists|
    requires j1 < |SongsOf(playlists[i1])| && j2 < |SongsOf(playlists[i2])|
    requires SongsOf(playlists[i1])[j1] == SongsOf(playlists[i2])[j2]
    ensures Offset(playlists, i1) + j1 < Offset(playlists, i2) + j2 < |AllSongsOf(playlists)|
    ensures AllSongsOf(playlists)[Offset(playlists, i1) + j1].song ==
            AllSongsOf(playlists)[Offset(playlists, i2) + j2].song
  {
    AllSongsAt(playlists, i1, j1);
    AllSongsAt(playlists, i2, j2);
    OffsetGrows(playlists, i1, i2);
  }

  /** A later playlist's entries start after all of an earlier playlist's entries. */
  lemma {:induction false} OffsetGrows(playlists: seq<Playlist>, i1: nat, i2: nat)
    requires i1 < i2 <= |playlists|
    ensures Offset(playlists, i1) + |SongsOf(playlists[i1])| <= Offset(playlists, i2)
  {
    if i1 > 0 {
      OffsetGrows(playlists[1..], i1 - 1, i2 - 1);
    } else if i2 > 1 {
      OffsetGrows(playlists[1..], 0, i2 - 1);
    }
  }

  /**
   * `onClick={() => handlePlaySong(song, song.playlist)}`. The source passes
   * the whole entry, extra fields and all; the store reads only its `id`
   * and `audio_url`, which the entry shares with `e.song`.
   */
  function ClickEntry(current: Option<Song>, e: Entry): Action
  {
    OnSongClick(current, e.song, e.playlist)
  }

  /** The songs of `songs` have pairwise different ids. */
  predicate DistinctIds(songs: seq<Song>)
  {
    forall a, b :: 0 <= a < b < |songs| ==> songs[a].id != songs[b].id
  }

  /**
   * Clicking song `j` of playlist `i` in the list, when it is not the
   * current song, loads that song with that playlist; with ids distinct in
   * the playlist, playback then continues with song `j + 1` of the same
   * playlist, or stops after the last one.
   */
  lemma ClickedEntryContinuesInItsPlaylist(s: Snapshot, playlists: seq<Playlist>, i: nat, j: nat,
                                           loadThrows: bool)
    requires i < |playlists| && j < |SongsOf(playlists[i])|
    requires DistinctIds(SongsOf(playlists[i]))
    requires !s.isLoading && !IsCurrent(s.currentSong, SongsOf(playlists[i])[j])
    ensures Offset(playlists, i) + j < |AllSongsOf(playlists)|
    ensures var songs := SongsOf(playlists[i]);
      var r := ActionStep(s, ClickEntry(s.currentSong, AllSongsOf(playlists)[Offset(playlists, i) + j]), loadThrows);
      r.currentSong == Some(songs[j]) && r.currentPlaylist == Some(playlists[i]) &&
      NextSong(r.currentPlaylist, r.currentSong) == (if j + 1 < |songs| then Some(songs[j + 1]) else None)
  {
    AllSongsAt(playlists, i, j);
    var songs := SongsOf(playlists[i]);
    assert IndexOfId(songs, songs[j].id) == j;
  }
}
