/**
 * The record shapes the player and the playlist screens exchange
 * (src/types.ts). Optional properties (`user_id?`, `songs?`, ...) are
 * `Option`s; every string is a `seq<char>`.
 */
module Types {

  datatype Option<+T> = None | Some(value: T)

  datatype Song = Song(
    id: string,
    title: string,
    artist: string,
    coverUrl: string,
    audioUrl: string,
    category: string,
    ageRange: string,
    userId: Option<string>,
    createdAt: Option<string>)

  datatype Playlist = Playlist(
    id: string,
    name: string,
    description: string,
    coverUrl: string,
    category: string,
    createdBy: string,
    userId: Option<string>,
    createdAt: Option<string>,
    songs: Option<seq<Song>>)

  /** One row of the `playlist_songs` join table. */
  datatype PlaylistSong = PlaylistSong(
    id: string,
    playlistId: string,
    songId: string,
    position: int,
    createdAt: Option<string>)

  /** The owner id of the playlists and songs that ship with the application. */
  const SystemUserId: string := "00000000-0000-0000-0000-000000000000"

  /** The cover image both forms start from and fall back to (an Unsplash host and photo path). */
  const DefaultCover: string := "https://images.unsplash.com/" + "photo-1511379938547-c1f69419868d?w=800"

  /** `playlist.songs || []`: a missing song list reads as the empty one. */
  function SongsOf(p: Playlist): seq<Song>
  {
    if p.songs.Some? then p.songs.value else []
  }

  /** Some song of `songs` has the identity `id` (`songs.some(s => s.id === id)`). */
  predicate HasId(songs: seq<Song>, id: string)
  {
    exists k :: 0 <= k < |songs| && songs[k].id == id
  }

  /** The kind `onHide` is told it hides: `'playlist'` or `'song'`. */
  datatype ItemKind = PlaylistItem | SongItem

  /** A call the playlist screens make to a callback their parent passed in. */
  datatype Request =
    | DeletePlaylist(playlistId: string)               // `onDelete(playlistId)`
    | DeleteSong(songId: string)                       // `onDeleteSong(songId)`
    | RemoveSong(songId: string, playlistId: string)   // `onRemoveSong(songId, playlistId)`
    | Hide(itemId: string, kind: ItemKind)             // `onHide(itemId, itemType)`
}
