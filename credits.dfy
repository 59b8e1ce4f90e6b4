/**
 * How the total likes credited to an artist (the likes of the songs filed
 * under its albums) change as songs, albums and likes are added.
 */
module Credits {
  import opened Lookup
  import opened Catalog

  /** A new song adds its own likes to its artist's total and nothing to the others. */
  lemma CreditedAppend(songs: seq<Song>, songAlbum: seq<AlbumId>, albumOwner: seq<ArtistId>, a: ArtistId, song: Song, al: AlbumId)
    requires |songAlbum| == |songs|
    ensures Credited(songs + [song], songAlbum + [al], albumOwner, a)
         == Credited(songs, songAlbum, albumOwner, a) + (if al < |albumOwner| && albumOwner[al] == a then song.likes else 0)
  {
    assert (songs + [song])[..|songs|] == songs;
    assert (songAlbum + [al])[..|songs|] == songAlbum;
  }

  /** Filing a new album changes no artist's total: no song is filed under it yet. */
  lemma {:induction false} CreditedNewAlbum(songs: seq<Song>, songAlbum: seq<AlbumId>, albumOwner: seq<ArtistId>, a: ArtistId, owner: ArtistId)
    requires |songAlbum| == |songs|
    requires forall i :: 0 <= i < |songAlbum| ==> songAlbum[i] < |albumOwner|
    ensures Credited(songs, songAlbum, albumOwner + [owner], a) == Credited(songs, songAlbum, albumOwner, a)
  {
    if |songs| > 0 {
      var n := |songs| - 1;
      assert forall i :: 0 <= i < |songAlbum[..n]| ==> songAlbum[..n][i] < |albumOwner| by {
        forall i | 0 <= i < |songAlbum[..n]| ensures songAlbum[..n][i] < |albumOwner| {
          assert songAlbum[..n][i] == songAlbum[i];
        }
      }
      CreditedNewAlbum(songs[..n], songAlbum[..n], albumOwner, a, owner);
      assert (albumOwner + [owner])[songAlbum[n]] == albumOwner[songAlbum[n]];
    }
  }

  /** An artist that owns no album is credited with no likes. */
  lemma {:induction false} CreditedNoAlbums(songs: seq<Song>, songAlbum: seq<AlbumId>, albumOwner: seq<ArtistId>, a: ArtistId)
    requires |songAlbum| == |songs|
    requires forall x :: 0 <= x < |albumOwner| ==> albumOwner[x] != a
    ensures Credited(songs, songAlbum, albumOwner, a) == 0
  {
    if |songs| > 0 {
      var n := |songs| - 1;
      CreditedNoAlbums(songs[..n], songAlbum[..n], albumOwner, a);
    }
  }

  /** One more like on song i adds one to the total of that song's artist only. */
  lemma {:induction false} CreditedLike(songs: seq<Song>, songAlbum: seq<AlbumId>, albumOwner: seq<ArtistId>, a: ArtistId, i: SongId)
    requires |songAlbum| == |songs| && i < |songs|
    ensures Credited(songs[i := songs[i].(likes := songs[i].likes + 1)], songAlbum, albumOwner, a)
         == Credited(songs, songAlbum, albumOwner, a)
            + (if songAlbum[i] < |albumOwner| && albumOwner[songAlbum[i]] == a then 1 else 0)
  {
    var liked := songs[i := songs[i].(likes := songs[i].likes + 1)];
    var n := |songs| - 1;
    if i < n {
      assert liked[..n] == songs[..n][i := songs[i].(likes := songs[i].likes + 1)];
      CreditedLike(songs[..n], songAlbum[..n], albumOwner, a, i);
    } else {
      assert liked[..n] == songs[..n];
    }
  }
}
