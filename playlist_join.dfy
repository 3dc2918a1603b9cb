/**
 * The pure parts of src/hooks/useSupabase.ts: attaching songs to the fetched
 * playlists through the `playlist_songs` rows (inside `fetchPlaylists`), and
 * the position `addSong` gives a new row. The three query results are inputs.
 */
module PlaylistJoin {
  import opened Types

  /** `songsData.find(s => s.id === id)`: the first fetched song with that id. */
  function FindSong(songs: seq<Song>, id: string): (r: Option<Song>)
    ensures r.Some? ==> r.value in songs && r.value.id == id
    ensures r.None? <==> !HasId(songs, id)
    ensures r.Some? ==> exists k :: 0 <= k < |songs| && songs[k] == r.value &&
                                    forall j :: 0 <= j < k ==> songs[j].id != id
  {
    if songs == [] then None
    else if songs[0].id == id then Some(songs[0])
    else
      var r := FindSong(songs[1..], id);
      assert forall k :: 1 <= k < |songs| ==> songs[k] == songs[1..][k - 1];
      r
  }

  /** `playlistSongsData.filter(ps => ps.playlist_id === playlistId)`, order kept. */
  function RowsFor(rows: seq<PlaylistSong>, playlistId: string): (r: seq<PlaylistSong>)
    ensures |r| <= |rows|
    ensures forall k :: 0 <= k < |r| ==> r[k].playlistId == playlistId && r[k] in rows
    ensures forall row :: row in rows && row.playlistId == playlistId ==> row in r
  {
    if rows == [] then []
    else if rows[0].playlistId == playlistId then [rows[0]] + RowsFor(rows[1..], playlistId)
    else RowsFor(rows[1..], playlistId)
  }

  /** A single row is kept exactly when it is the playlist's. */
  lemma RowsForOne(row: PlaylistSong, playlistId: string)
    ensures RowsFor([row], playlistId) == if row.playlistId == playlistId then [row] else []
  {
    assert [row][1..] == [];
  }

  /**
   * With `RowsForOne`: `RowsFor` is the filter that keeps the order, since
   * it distributes over concatenation.
   */
  lemma {:induction false} RowsForAppend(a: seq<PlaylistSong>, b: seq<PlaylistSong>, playlistId: string)
    ensures RowsFor(a + b, playlistId) == RowsFor(a, playlistId) + RowsFor(b, playlistId)
  {
    if a == [] {
      assert a + b == b;
    } else {
      assert (a + b)[0] == a[0];
      assert (a + b)[1..] == a[1..] + b;
      RowsForAppend(a[1..], b, playlistId);
    }
  }

  /** `.map(ps => find(...)).filter(Boolean)`: each row's song, rows without one dropped. */
  function SongsForRows(rows: seq<PlaylistSong>, songs: seq<Song>): (r: seq<Song>)
    ensures |r| <= |rows|
    ensures forall k :: 0 <= k < |r| ==> r[k] in songs
  {
    if rows == [] then []
    else
      var rest := SongsForRows(rows[1..], songs);
      match FindSong(songs, rows[0].songId)
      case Some(song) => [song] + rest
      case None => rest
  }

  /** `{ ...playlist, songs: playlistSongs }` */
  function WithSongs(p: Playlist, songs: seq<Song>, rows: seq<PlaylistSong>): Playlist
  {
    p.(songs := Some(SongsForRows(RowsFor(rows, p.id), songs)))
  }

  /** `playlistsData.map(...)`, the playlists as `fetchPlaylists` stores them. */
  function Join(playlists: seq<Playlist>, songs: seq<Song>, rows: seq<PlaylistSong>): (r: seq<Playlist>)
    ensures |r| == |playlists|
    ensures forall i :: 0 <= i < |r| ==> r[i] == playlists[i].(songs := r[i].songs)
    ensures forall i :: 0 <= i < |r| ==>
      r[i].songs == Some(SongsForRows(RowsFor(rows, playlists[i].id), songs))
  {
    seq(|playlists|, i requires 0 <= i < |playlists| => WithSongs(playlists[i], songs, rows))
  }

  /**
   * When every row finds its song, a playlist's songs are exactly its rows'
   * songs, one per row, in row order; so duplicate rows give duplicate songs.
   */
  lemma {:induction false} SongsFollowRows(rows: seq<PlaylistSong>, songs: seq<Song>)
    requires forall k :: 0 <= k < |rows| ==> HasId(songs, rows[k].songId)
    ensures |SongsForRows(rows, songs)| == |rows|
    ensures forall k :: 0 <= k < |rows| ==>
      SongsForRows(rows, songs)[k] == FindSong(songs, rows[k].songId).value
  {
    if rows != [] {
      SongsFollowRows(rows[1..], songs);
      assert forall k :: 1 <= k < |rows| ==> rows[k] == rows[1..][k - 1];
    }
  }

  /** Rows whose song was not fetched are dropped; the others keep their order. */
  lemma {:induction false} UnmatchedRowsDropped(rows: seq<PlaylistSong>, songs: seq<Song>)
    ensures |SongsForRows(rows, songs)| == |MatchedRows(rows, songs)|
    ensures forall k :: 0 <= k < |MatchedRows(rows, songs)| ==>
      SongsForRows(rows, songs)[k] == FindSong(songs, MatchedRows(rows, songs)[k].songId).value
  {
    if rows != [] {
      UnmatchedRowsDropped(rows[1..], songs);
      var rest, matched := SongsForRows(rows[1..], songs), MatchedRows(rows[1..], songs);
      var found := FindSong(songs, rows[0].songId);
      if found.Some? {
        assert SongsForRows(rows, songs) == [found.value] + rest;
        assert MatchedRows(rows, songs) == [rows[0]] + matched;
      } else {
        assert SongsForRows(rows, songs) == rest;
        assert MatchedRows(rows, songs) == matched;
      }
    }
  }

  /** The rows whose song is among the fetched songs. */
  function MatchedRows(rows: seq<PlaylistSong>, songs: seq<Song>): (r: seq<PlaylistSong>)
    ensures |r| <= |rows|
    ensures forall k :: 0 <= k < |r| ==> HasId(songs, r[k].songId) && r[k] in rows
    ensures forall row :: row in rows && HasId(songs, row.songId) ==> row in r
  {
    if rows == [] then []
    else if FindSong(songs, rows[0].songId).Some? then [rows[0]] + MatchedRows(rows[1..], songs)
    else MatchedRows(rows[1..], songs)
  }

  /** A single row is kept exactly when its song was fetched. */
  lemma MatchedRowsOne(row: PlaylistSong, songs: seq<Song>)
    ensures MatchedRows([row], songs) == if HasId(songs, row.songId) then [row] else []
  {
    assert [row][1..] == [];
  }

  /** With `MatchedRowsOne`: `MatchedRows` is an order-keeping filter too. */
  lemma {:induction false} MatchedRowsAppend(a: seq<PlaylistSong>, b: seq<PlaylistSong>, songs: seq<Song>)
    ensures MatchedRows(a + b, songs) == MatchedRows(a, songs) + MatchedRows(b, songs)
  {
    if a == [] {
      assert a + b == b;
    } else {
      assert (a + b)[0] == a[0];
      assert (a + b)[1..] == a[1..] + b;
      MatchedRowsAppend(a[1..], b, songs);
    }
  }

  /** Rows sorted by ascending position, as the `playlist_songs` query returns them. */
  predicate SortedByPosition(rows: seq<PlaylistSong>)
  {
    forall i, j :: 0 <= i < j < |rows| ==> rows[i].position <= rows[j].position
  }

  /** Filtering the rows for one playlist keeps them sorted by position. */
  lemma {:induction false} RowsForSorted(rows: seq<PlaylistSong>, playlistId: string)
    requires SortedByPosition(rows)
    ensures SortedByPosition(RowsFor(rows, playlistId))
  {
    if rows != [] {
      assert SortedByPosition(rows[1..]);
      RowsForSorted(rows[1..], playlistId);
      if rows[0].playlistId == playlistId {
        var rest := RowsFor(rows[1..], playlistId);
        forall k | 0 <= k < |rest|
          ensures rows[0].position <= rest[k].position
        {
          var j :| 0 <= j < |rows[1..]| && rows[1..][j] == rest[k];
          assert rows[1 + j] == rest[k];
        }
        SortedCons(rows[0], rest);
      }
    }
  }

  /** A row no later than any of a sorted list's rows can go in front of it. */
  lemma SortedCons(row: PlaylistSong, rest: seq<PlaylistSong>)
    requires SortedByPosition(rest)
    requires forall k :: 0 <= k < |rest| ==> row.position <= rest[k].position
    ensures SortedByPosition([row] + rest)
  {
    var r := [row] + rest;
    forall i, j | 0 <= i < j < |r|
      ensures r[i].position <= r[j].position
    {
      assert r[j] == rest[j - 1];
      if i > 0 {
        assert r[i] == rest[i - 1];
      }
    }
  }

  /**
   * When the songs query returned only the signed-in user's songs, every
   * song the join places in any playlist is one of that user's songs.
   */
  lemma JoinedSongsBelongToUser(playlists: seq<Playlist>, songs: seq<Song>,
                                rows: seq<PlaylistSong>, userId: string)
    requires forall k :: 0 <= k < |songs| ==> songs[k].userId == Some(userId)
    ensures forall i, k :: 0 <= i < |playlists| && 0 <= k < |SongsOf(Join(playlists, songs, rows)[i])| ==>
      var s := SongsOf(Join(playlists, songs, rows)[i])[k];
      s in songs && s.userId == Some(userId)
  {
  }

  // ---------------------------------------------------------------------
  // The position of a new row (`addSong`)
  // ---------------------------------------------------------------------

  /**
   * The `position` column of the playlist's highest row, as the query
   * ordered by descending position with `limit(1)` and `maybeSingle()` returns it.
   */
  function TopPosition(rows: seq<PlaylistSong>, playlistId: string): (r: Option<int>)
    ensures r.None? <==> forall k :: 0 <= k < |rows| ==> rows[k].playlistId != playlistId
    ensures r.Some? ==> (exists k :: 0 <= k < |rows| && rows[k].playlistId == playlistId &&
                                     rows[k].position == r.value)
    ensures r.Some? ==> forall k :: 0 <= k < |rows| && rows[k].playlistId == playlistId ==>
                                    rows[k].position <= r.value
  {
    if rows == [] then None
    else
      var rest := TopPosition(rows[1..], playlistId);
      assert forall k :: 1 <= k < |rows| ==> rows[k] == rows[1..][k - 1];
      if rows[0].playlistId != playlistId then rest
      else if rest.None? || rest.value < rows[0].position then Some(rows[0].position)
      else rest
  }

  /** `(positionData?.position || 0) + 1` */
  function NextPosition(top: Option<int>): int
  {
    (if top.Some? && top.value != 0 then top.value else 0) + 1
  }

  /**
   * A new row goes one past the playlist's highest position, or to 1 in an
   * empty playlist, so it sorts after every row already there.
   */
  lemma NextPositionAfterAll(rows: seq<PlaylistSong>, playlistId: string)
    ensures var top := TopPosition(rows, playlistId);
      NextPosition(top) == (if top.Some? then top.value + 1 else 1)
    ensures forall k :: 0 <= k < |rows| && rows[k].playlistId == playlistId ==>
      rows[k].position < NextPosition(TopPosition(rows, playlistId))
  {
  }
}
