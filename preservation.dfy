/**
 * Every operation of the store keeps `Consistent`: albums and songs each
 * filed under exactly one owner, listener and liker lists without
 * duplicates, like counters equal to liker counts, artist counters equal to
 * the likes of their songs, and the latest-playlist table up to date.
 */
module Preservation {
  import opened Lookup
  import opened Catalog
  import opened Credits

  lemma EmptyConsistent()
    ensures Consistent(Empty())
  {
  }

  /** Listener and liker lists stay within the users when a user is added. */
  lemma UsersGrow(s: Store, t: Store)
    requires Consistent(s)
    requires t == s.(users := t.users) && |s.users| <= |t.users|
    ensures Consistent(t)
  {
    forall p | 0 <= p < |t.playlists|
      ensures ListenersOk(t.playlistListeners[p], t.playlistCreator[p], |t.users|)
    {
      assert ListenersOk(s.playlistListeners[p], s.playlistCreator[p], |s.users|);
    }
    forall id | 0 <= id < |t.songs|
      ensures LikersOk(t.songs[id], ListAt(t.songLikers, id), |t.users|)
    {
      assert LikersOk(s.songs[id], ListAt(s.songLikers, id), |s.users|);
    }
  }

  lemma CreateUserKeeps(s: Store, name: string, mobile: string)
    requires Consistent(s)
    ensures Consistent(CreateUser(s, name, mobile).next)
  {
    UsersGrow(s, CreateUser(s, name, mobile).next);
  }

  lemma CreateArtistKeeps(s: Store, name: string)
    requires Consistent(s)
    ensures Consistent(CreateArtist(s, name).next)
  {
    var t := CreateArtist(s, name).next;
    var n := |s.artists|;
    PartitionWiden(s.artistAlbums, s.albumOwner, n, n + 1);
    forall a | 0 <= a < |t.artists|
      ensures t.artists[a].likes == Credited(t.songs, t.songAlbum, t.albumOwner, a)
    {
      if a == n {
        CreditedNoAlbums(s.songs, s.songAlbum, s.albumOwner, n);
      }
    }
  }

  lemma AddAlbumKeeps(s: Store, a: ArtistId, title: string)
    requires Consistent(s) && a < |s.artists|
    ensures Consistent(AddAlbum(s, a, title))
  {
    var t := AddAlbum(s, a, title);
    PartitionAppend(s.artistAlbums, s.albumOwner, |s.artists|, a);
    PartitionWiden(s.albumSongs, s.songAlbum, |s.albums|, |s.albums| + 1);
    forall b | 0 <= b < |t.artists|
      ensures t.artists[b].likes == Credited(t.songs, t.songAlbum, t.albumOwner, b)
    {
      CreditedNewAlbum(s.songs, s.songAlbum, s.albumOwner, b, a);
    }
  }

  /** The artist found or created for an album keeps the store consistent and exists. */
  lemma ArtistNamedKeeps(s: Store, name: string)
    requires Consistent(s)
    ensures Consistent(ArtistNamed(s, name).next)
    ensures ArtistNamed(s, name).out < |ArtistNamed(s, name).next.artists|
  {
    if ArtistByName(s.artists, name).None? {
      CreateArtistKeeps(s, name);
    }
  }

  lemma CreateAlbumKeeps(s: Store, title: string, artistName: string)
    requires Consistent(s)
    ensures Consistent(CreateAlbum(s, title, artistName).next)
  {
    var found := ArtistNamed(s, artistName);
    ArtistNamedKeeps(s, artistName);
    AddAlbumKeeps(found.next, found.out, title);
  }

  lemma AddSongKeeps(s: Store, al: AlbumId, title: string, length: int)
    requires Consistent(s) && al < |s.albums|
    ensures Consistent(AddSong(s, al, title, length))
  {
    var t := AddSong(s, al, title, length);
    var id := |s.songs|;
    PartitionAppend(s.albumSongs, s.songAlbum, |s.albums|, al);
    forall a | 0 <= a < |t.artists|
      ensures t.artists[a].likes == Credited(t.songs, t.songAlbum, t.albumOwner, a)
    {
      CreditedAppend(s.songs, s.songAlbum, s.albumOwner, a, Song(title, length, 0), al);
    }
    forall j | 0 <= j < |t.songs|
      ensures LikersOk(t.songs[j], ListAt(t.songLikers, j), |t.users|)
    {
      if j < id {
        assert t.songs[j] == s.songs[j];
      } else {
        assert id !in s.songLikers;
      }
    }
  }

  lemma CreateSongKeeps(s: Store, title: string, albumName: string, length: int)
    requires Consistent(s)
    ensures Consistent(CreateSong(s, title, albumName, length).next)
  {
    match AlbumByTitle(s.albums, albumName)
    case None =>
    case Some(al) => AddSongKeeps(s, al, title, length);
  }

  /** A new playlist becomes its creator's latest; every other creator keeps theirs. */
  lemma AddPlaylistLatest(s: Store, u: UserId, title: string, matching: seq<SongId>)
    requires LatestConsistent(s)
    ensures LatestConsistent(AddPlaylist(s, u, title, matching).next)
  {
    var t := AddPlaylist(s, u, title, matching).next;
    var p := |s.playlists|;
    forall q | 0 <= q < |t.playlists|
      ensures t.playlistCreator[q] in t.creatorPlaylist && q <= t.creatorPlaylist[t.playlistCreator[q]]
    {
      if q < p && t.playlistCreator[q] != u {
        assert s.playlistCreator[q] in s.creatorPlaylist;
      }
    }
  }

  /** A new playlist holds songs of the store, in ascending order, and its creator as sole listener. */
  lemma AddPlaylistLists(s: Store, u: UserId, title: string, matching: seq<SongId>)
    requires PlaylistsConsistent(s) && u < |s.users|
    requires Increasing(matching) && forall k :: 0 <= k < |matching| ==> matching[k] < |s.songs|
    ensures PlaylistsConsistent(AddPlaylist(s, u, title, matching).next)
    ensures AddPlaylist(s, u, title, matching).next.playlistListeners[|s.playlists|] == [u]
  {
    var t := AddPlaylist(s, u, title, matching).next;
    var p := |s.playlists|;
    forall q | 0 <= q < |t.playlists|
      ensures ListenersOk(t.playlistListeners[q], t.playlistCreator[q], |t.users|)
    {
      if q < p {
        assert ListenersOk(s.playlistListeners[q], s.playlistCreator[q], |s.users|);
      } else {
        assert t.playlistListeners[q] == [u] && t.playlistCreator[q] == u;
      }
    }
  }

  lemma AddPlaylistKeeps(s: Store, u: UserId, title: string, matching: seq<SongId>)
    requires Consistent(s) && u < |s.users|
    requires Increasing(matching) && forall k :: 0 <= k < |matching| ==> matching[k] < |s.songs|
    ensures Consistent(AddPlaylist(s, u, title, matching).next)
  {
    var t := AddPlaylist(s, u, title, matching).next;
    AddPlaylistLists(s, u, title, matching);
    AddPlaylistLatest(s, u, title, matching);
    assert Filed(t) && LikersConsistent(t) && ArtistLikesConsistent(t);
  }

  lemma CreatePlaylistOnLengthKeeps(s: Store, mobile: string, title: string, length: int)
    requires Consistent(s)
    ensures Consistent(CreatePlaylistOnLength(s, mobile, title, length).next)
  {
    match UserByMobile(s.users, mobile)
    case None =>
    case Some(u) => AddPlaylistKeeps(s, u, title, SongsOfLength(s.songs, length));
  }

  lemma CreatePlaylistOnNameKeeps(s: Store, mobile: string, title: string, songTitles: seq<string>)
    requires Consistent(s)
    ensures Consistent(CreatePlaylistOnName(s, mobile, title, songTitles).next)
  {
    match UserByMobile(s.users, mobile)
    case None =>
    case Some(u) => AddPlaylistKeeps(s, u, title, SongsTitled(s.songs, songTitles));
  }

  /** Appending a user who is not yet on a list keeps the list free of duplicates. */
  lemma AppendAbsent(l: seq<UserId>, u: UserId)
    requires NoDuplicates(l) && u !in l
    ensures NoDuplicates(l + [u])
  {
    forall i, j | 0 <= i < j < |l + [u]|
      ensures (l + [u])[i] != (l + [u])[j]
    {
      if j == |l| {
        assert (l + [u])[i] == l[i];
      }
    }
  }

  lemma AddListenerKeeps(s: Store, p: PlaylistId, u: UserId)
    requires Consistent(s) && p < |s.playlists| && u < |s.users|
    requires u !in ListAt(s.playlistListeners, p)
    ensures Consistent(AddListener(s, p, u))
  {
    var listeners := ListAt(s.playlistListeners, p);
    AppendAbsent(listeners, u);
    assert ListenersOk(listeners + [u], s.playlistCreator[p], |s.users|);
  }

  lemma FindPlaylistKeeps(s: Store, mobile: string, title: string)
    requires Consistent(s)
    ensures Consistent(FindPlaylist(s, mobile, title).next)
  {
    match UserByMobile(s.users, mobile)
    case None =>
    case Some(u) =>
      match PlaylistByTitle(s.playlists, title)
      case None =>
      case Some(p) =>
        if u !in ListAt(s.playlistListeners, p) {
          AddListenerKeeps(s, p, u);
        }
  }

  /** Recording a new liker keeps every liker list and song counter consistent. */
  lemma AddLikeKeepsLikers(s: Store, u: UserId, id: SongId)
    requires Consistent(s) && u < |s.users| && id < |s.songs| && u !in ListAt(s.songLikers, id)
    ensures LikersConsistent(AddLike(s, u, id))
  {
    var liked := AddLike(s, u, id);
    var likers := ListAt(s.songLikers, id);
    AppendAbsent(likers, u);
    assert LikersOk(s.songs[id], likers, |s.users|);
    forall j | 0 <= j < |liked.songs|
      ensures LikersOk(liked.songs[j], ListAt(liked.songLikers, j), |liked.users|)
    {
      if j != id {
        assert LikersOk(s.songs[j], ListAt(s.songLikers, j), |s.users|);
      }
    }
  }

  /**
   * When albums and songs are each filed under one owner, the album and
   * artist scans that follow a like find the song's album and that album's
   * artist, so exactly that artist is credited.
   */
  lemma LikeCreditsOwner(s: Store, u: UserId, id: SongId)
    requires Filed(s) && id < |s.songs|
    ensures s.songAlbum[id] < |s.albumOwner| && s.albumOwner[s.songAlbum[id]] < |s.artists|
    ensures var a := s.albumOwner[s.songAlbum[id]];
            CreditArtist(AddLike(s, u, id), id)
            == AddLike(s, u, id).(artists := s.artists[a := s.artists[a].(likes := s.artists[a].likes + 1)])
  {
    var liked := AddLike(s, u, id);
    assert liked.albumSongs == s.albumSongs && liked.artistAlbums == s.artistAlbums;
    assert |liked.albums| == |s.albums| && liked.artists == s.artists;
    PartitionFind(s.albumSongs, s.songAlbum, |s.albums|, id);
    PartitionFind(s.artistAlbums, s.albumOwner, |s.artists|, s.songAlbum[id]);
  }

  /** After a new like, each artist's counter again equals the likes of its songs. */
  lemma LikeKeepsArtistLikes(s: Store, u: UserId, id: SongId)
    requires Consistent(s) && id < |s.songs|
    ensures ArtistLikesConsistent(CreditArtist(AddLike(s, u, id), id))
  {
    var liked := AddLike(s, u, id);
    LikeCreditsOwner(s, u, id);
    var a := s.albumOwner[s.songAlbum[id]];
    var t := CreditArtist(liked, id);
    assert t.artists == s.artists[a := s.artists[a].(likes := s.artists[a].likes + 1)];
    forall b | 0 <= b < |t.artists|
      ensures t.artists[b].likes == Credited(t.songs, t.songAlbum, t.albumOwner, b)
    {
      CreditedLike(s.songs, s.songAlbum, s.albumOwner, b, id);
    }
  }

  /** A store that differs only in like counters and liker lists is consistent once those are. */
  lemma CountersOnlyChanged(s: Store, t: Store)
    requires Consistent(s)
    requires t == s.(songs := t.songs, artists := t.artists, songLikers := t.songLikers)
    requires |t.songs| == |s.songs| && |t.artists| == |s.artists|
    requires LikersConsistent(t) && ArtistLikesConsistent(t)
    ensures Consistent(t)
  {
  }

  /** The likes of the song and of its artist each rise by one; every counter stays consistent. */
  lemma LikeSongKeeps(s: Store, mobile: string, title: string)
    requires Consistent(s)
    ensures Consistent(LikeSong(s, mobile, title).next)
  {
    match UserByMobile(s.users, mobile)
    case None =>
    case Some(u) =>
      match SongByTitle(s.songs, title)
      case None =>
      case Some(id) =>
        if u !in ListAt(s.songLikers, id) {
          var liked := AddLike(s, u, id);
          AddLikeKeepsLikers(s, u, id);
          LikeKeepsArtistLikes(s, u, id);
          LikeCreditsOwner(s, u, id);
          CountersOnlyChanged(s, CreditArtist(liked, id));
        }
  }
}
