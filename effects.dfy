/**
 * What each operation does to the store: when it fails (and that a failure
 * changes nothing), exactly what a successful call adds, and that repeating
 * a listener join or a like changes nothing.
 */
module Effects {
  import opened Lookup
  import opened Catalog
  import opened Preservation

  // ---------------------------------------------------------------------
  // createUser / createArtist

  /**
   * createUser appends one user and changes nothing else. Mobiles need not be
   * unique: a lookup of the new mobile still finds the earliest user with it,
   * and lookups of other mobiles are unaffected.
   */
  lemma CreateUserEffect(s: Store, name: string, mobile: string)
    ensures var st := CreateUser(s, name, mobile);
      && st.out == |s.users|
      && st.next == s.(users := s.users + [User(name, mobile)])
      && UserByMobile(st.next.users, mobile) ==
           (if UserByMobile(s.users, mobile).Some? then UserByMobile(s.users, mobile) else Some(|s.users|))
      && (forall m :: m != mobile ==> UserByMobile(st.next.users, m) == UserByMobile(s.users, m))
  {
    var users := s.users + [User(name, mobile)];
    forall m
      ensures UserByMobile(users, m) ==
                (if UserByMobile(s.users, m).Some? then UserByMobile(s.users, m)
                 else if m == mobile then Some(|s.users|) else None)
    {
      var r := UserByMobile(s.users, m);
      if r.Some? {
        assert users[r.value].mobile == m;
      } else if m == mobile {
        assert users[|s.users|].mobile == m;
      } else {
        assert forall j :: 0 <= j < |users| ==> users[j].mobile != m by {
          forall j | 0 <= j < |users| ensures users[j].mobile != m {
            if j < |s.users| { assert users[j] == s.users[j]; }
          }
        }
      }
    }
  }

  /**
   * createArtist appends one artist with no likes and changes nothing else.
   * Names need not be unique: a lookup of the name still finds the earliest
   * artist with it, and lookups of other names are unaffected.
   */
  lemma CreateArtistEffect(s: Store, name: string)
    ensures var st := CreateArtist(s, name);
      && st.out == |s.artists|
      && st.next == s.(artists := s.artists + [Artist(name, 0)])
      && ArtistByName(st.next.artists, name) ==
           (if ArtistByName(s.artists, name).Some? then ArtistByName(s.artists, name) else Some(|s.artists|))
      && (forall n :: n != name ==> ArtistByName(st.next.artists, n) == ArtistByName(s.artists, n))
  {
    var artists := s.artists + [Artist(name, 0)];
    forall n
      ensures ArtistByName(artists, n) ==
                (if ArtistByName(s.artists, n).Some? then ArtistByName(s.artists, n)
                 else if n == name then Some(|s.artists|) else None)
    {
      var r := ArtistByName(s.artists, n);
      if r.Some? {
        assert artists[r.value].name == n;
      } else if n == name {
        assert artists[|s.artists|].name == n;
      } else {
        assert forall j :: 0 <= j < |artists| ==> artists[j].name != n by {
          forall j | 0 <= j < |artists| ensures artists[j].name != n {
            if j < |s.artists| { assert artists[j] == s.artists[j]; }
          }
        }
      }
    }
  }

  // ---------------------------------------------------------------------
  // createAlbum

  /**
   * The artist is created only when no artist has that name; the album is
   * appended to the albums and, in either case, to the album list of the
   * first artist with that name, and to no other list.
   */
  lemma CreateAlbumEffect(s: Store, title: string, artistName: string)
    ensures var st := CreateAlbum(s, title, artistName);
      && st.out == |s.albums|
      && st.next.albums == s.albums + [Album(title)]
      && ((forall j :: 0 <= j < |s.artists| ==> s.artists[j].name != artistName) ==>
            st.next.artists == s.artists + [Artist(artistName, 0)])
      && ((exists j :: 0 <= j < |s.artists| && s.artists[j].name == artistName) ==>
            st.next.artists == s.artists)
  {
  }

  /** The album is filed under the first artist of the resulting list that has the name. */
  lemma CreateAlbumFiling(s: Store, title: string, artistName: string, a: ArtistId)
    requires a <= |s.artists|
    requires forall j :: 0 <= j < a ==> s.artists[j].name != artistName
    requires a < |s.artists| ==> s.artists[a].name == artistName
    ensures var st := CreateAlbum(s, title, artistName);
      && a < |st.next.artists| && st.next.artists[a].name == artistName
      && ListAt(st.next.artistAlbums, a) == ListAt(s.artistAlbums, a) + [|s.albums|]
      && (forall b :: b != a ==> ListAt(st.next.artistAlbums, b) == ListAt(s.artistAlbums, b))
      && st.next == s.(albums := s.albums + [Album(title)],
                       artists := if a < |s.artists| then s.artists else s.artists + [Artist(artistName, 0)],
                       artistAlbums := s.artistAlbums[a := ListAt(s.artistAlbums, a) + [|s.albums|]],
                       albumOwner := s.albumOwner + [a])
  {
    var found := ArtistByName(s.artists, artistName);
    if a < |s.artists| {
      assert found == Some(a);
    } else {
      assert found == None;
    }
  }

  // ---------------------------------------------------------------------
  // createSong

  /** createSong fails exactly when no album has the title, and then changes nothing. */
  lemma CreateSongFails(s: Store, title: string, albumName: string, length: int)
    ensures var st := CreateSong(s, title, albumName, length);
      && (st.out.Err? <==> forall j :: 0 <= j < |s.albums| ==> s.albums[j].title != albumName)
      && (st.out.Err? ==> st.out.error == AlbumNotFound(albumName) && st.next == s)
  {
  }

  /**
   * A successful createSong appends one song with no likes, and files it
   * under the first album with the title and under no other.
   */
  lemma CreateSongFiles(s: Store, title: string, albumName: string, length: int, al: AlbumId)
    requires al < |s.albums| && s.albums[al].title == albumName
    requires forall j :: 0 <= j < al ==> s.albums[j].title != albumName
    ensures var st := CreateSong(s, title, albumName, length);
      && st.out == Ok(|s.songs|)
      && st.next.songs == s.songs + [Song(title, length, 0)]
      && ListAt(st.next.albumSongs, al) == ListAt(s.albumSongs, al) + [|s.songs|]
      && (forall b :: b != al ==> ListAt(st.next.albumSongs, b) == ListAt(s.albumSongs, b))
      && st.next == s.(songs := s.songs + [Song(title, length, 0)],
                       albumSongs := s.albumSongs[al := ListAt(s.albumSongs, al) + [|s.songs|]],
                       songAlbum := s.songAlbum + [al])
  {
    assert AlbumByTitle(s.albums, albumName) == Some(al);
  }

  // ---------------------------------------------------------------------
  // createPlaylistOnLength / createPlaylistOnName

  /**
   * t is s with one more playlist, titled title, created by u, holding the
   * songs `matching`, whose one listener is u and which is now u's latest
   * playlist; no other playlist, listener list or latest entry changes, nor
   * any other field of the store.
   */
  ghost predicate PlaylistAdded(s: Store, t: Store, u: UserId, title: string, matching: seq<SongId>) {
    var p := |s.playlists|;
    && t.playlists == s.playlists + [Playlist(title)]
    && p in t.playlistSongs && t.playlistSongs[p] == matching
    && p in t.playlistListeners && t.playlistListeners[p] == [u]
    && u in t.creatorPlaylist && t.creatorPlaylist[u] == p
    && t == s.(playlists := s.playlists + [Playlist(title)],
               playlistSongs := s.playlistSongs[p := matching],
               playlistListeners := s.playlistListeners[p := [u]],
               creatorPlaylist := s.creatorPlaylist[u := p],
               playlistCreator := s.playlistCreator + [u])
  }

  /** Both builders fail exactly when no user has the mobile, and then change nothing. */
  lemma CreatePlaylistFails(s: Store, mobile: string, title: string, length: int, songTitles: seq<string>)
    ensures var st := CreatePlaylistOnLength(s, mobile, title, length);
      && (st.out.Err? <==> forall j :: 0 <= j < |s.users| ==> s.users[j].mobile != mobile)
      && (st.out.Err? ==> st.out.error == UserNotFound(mobile) && st.next == s)
    ensures var st := CreatePlaylistOnName(s, mobile, title, songTitles);
      && (st.out.Err? <==> forall j :: 0 <= j < |s.users| ==> s.users[j].mobile != mobile)
      && (st.out.Err? ==> st.out.error == UserNotFound(mobile) && st.next == s)
  {
  }

  /**
   * createPlaylistOnLength by the first user u with the mobile: the new
   * playlist holds exactly the songs of that length, in creation order.
   */
  lemma CreatePlaylistOnLengthEffect(s: Store, mobile: string, title: string, length: int, u: UserId)
    requires u < |s.users| && s.users[u].mobile == mobile
    requires forall j :: 0 <= j < u ==> s.users[j].mobile != mobile
    ensures var st := CreatePlaylistOnLength(s, mobile, title, length);
      && st.out == Ok(|s.playlists|)
      && PlaylistAdded(s, st.next, u, title, st.next.playlistSongs[|s.playlists|])
      && var chosen := st.next.playlistSongs[|s.playlists|];
         && Increasing(chosen)
         && (forall k :: 0 <= k < |chosen| ==> chosen[k] < |s.songs|)
         && (forall i :: 0 <= i < |s.songs| ==> (i in chosen <==> s.songs[i].length == length))
  {
    assert UserByMobile(s.users, mobile) == Some(u);
  }

  /**
   * createPlaylistOnName by the first user u with the mobile: the new
   * playlist holds exactly the songs whose title is listed, in creation
   * order, each once.
   */
  lemma CreatePlaylistOnNameEffect(s: Store, mobile: string, title: string, songTitles: seq<string>, u: UserId)
    requires u < |s.users| && s.users[u].mobile == mobile
    requires forall j :: 0 <= j < u ==> s.users[j].mobile != mobile
    ensures var st := CreatePlaylistOnName(s, mobile, title, songTitles);
      && st.out == Ok(|s.playlists|)
      && PlaylistAdded(s, st.next, u, title, st.next.playlistSongs[|s.playlists|])
      && var chosen := st.next.playlistSongs[|s.playlists|];
         && Increasing(chosen) && NoDuplicates(chosen)
         && (forall k :: 0 <= k < |chosen| ==> chosen[k] < |s.songs|)
         && (forall i :: 0 <= i < |s.songs| ==> (i in chosen <==> s.songs[i].title in songTitles))
  {
    assert UserByMobile(s.users, mobile) == Some(u);
  }

  // ---------------------------------------------------------------------
  // findPlaylist

  /**
   * findPlaylist fails exactly when no user has the mobile or no playlist
   * has the title (the user is looked up first), and then changes nothing.
   */
  lemma FindPlaylistFails(s: Store, mobile: string, title: string)
    ensures var st := FindPlaylist(s, mobile, title);
      && (st.out.Err? <==>
            ((forall j :: 0 <= j < |s.users| ==> s.users[j].mobile != mobile)
              || (forall j :: 0 <= j < |s.playlists| ==> s.playlists[j].title != title)))
      && (st.out.Err? ==> st.next == s)
      && ((forall j :: 0 <= j < |s.users| ==> s.users[j].mobile != mobile) ==>
            st.out == Err(UserNotFound(mobile)))
      && ((exists j :: 0 <= j < |s.users| && s.users[j].mobile == mobile) && st.out.Err? ==>
            st.out == Err(PlaylistNotFound(title)))
  {
  }

  /**
   * findPlaylist by the first user u with the mobile, on the first playlist
   * p with the title: u is appended to p's listeners unless already there;
   * nothing else changes.
   */
  lemma FindPlaylistJoins(s: Store, mobile: string, title: string, u: UserId, p: PlaylistId)
    requires u < |s.users| && s.users[u].mobile == mobile
    requires forall j :: 0 <= j < u ==> s.users[j].mobile != mobile
    requires p < |s.playlists| && s.playlists[p].title == title
    requires forall j :: 0 <= j < p ==> s.playlists[j].title != title
    ensures var st := FindPlaylist(s, mobile, title);
      var before := ListAt(s.playlistListeners, p);
      && st.out == Ok(p)
      && ListAt(st.next.playlistListeners, p) == (if u in before then before else before + [u])
      && (forall q :: q != p ==> ListAt(st.next.playlistListeners, q) == ListAt(s.playlistListeners, q))
      && st.next == s.(playlistListeners := st.next.playlistListeners)
  {
    assert UserByMobile(s.users, mobile) == Some(u);
    assert PlaylistByTitle(s.playlists, title) == Some(p);
  }

  /** A second identical findPlaylist returns the same playlist and changes nothing. */
  lemma FindPlaylistIdempotent(s: Store, mobile: string, title: string)
    ensures var st := FindPlaylist(s, mobile, title);
            FindPlaylist(st.next, mobile, title) == Step(st.next, st.out)
  {
    var st := FindPlaylist(s, mobile, title);
    assert st.next.users == s.users && st.next.playlists == s.playlists;
    match UserByMobile(s.users, mobile)
    case None =>
    case Some(u) =>
      match PlaylistByTitle(s.playlists, title)
      case None =>
      case Some(p) =>
        assert u in ListAt(st.next.playlistListeners, p);
  }

  // ---------------------------------------------------------------------
  // likeSong

  /**
   * likeSong fails exactly when no user has the mobile or no song has the
   * title (the user is looked up first), and then changes nothing.
   */
  lemma LikeSongFails(s: Store, mobile: string, title: string)
    ensures var st := LikeSong(s, mobile, title);
      && (st.out.Err? <==>
            ((forall j :: 0 <= j < |s.users| ==> s.users[j].mobile != mobile)
              || (forall j :: 0 <= j < |s.songs| ==> s.songs[j].title != title)))
      && (st.out.Err? ==> st.next == s)
      && ((forall j :: 0 <= j < |s.users| ==> s.users[j].mobile != mobile) ==>
            st.out == Err(UserNotFound(mobile)))
      && ((exists j :: 0 <= j < |s.users| && s.users[j].mobile == mobile) && st.out.Err? ==>
            st.out == Err(SongNotFound(title)))
  {
  }

  /**
   * A first like by the first user u with the mobile, on the first song id
   * with the title, filed under album al of artist a: u joins the song's
   * likers, and the song's and the artist's counters each rise by one; no
   * other counter, and no other table, changes.
   */
  lemma LikeSongCredits(s: Store, mobile: string, title: string, u: UserId, id: SongId, al: AlbumId, a: ArtistId)
    requires Filed(s)
    requires u < |s.users| && s.users[u].mobile == mobile
    requires forall j :: 0 <= j < u ==> s.users[j].mobile != mobile
    requires id < |s.songs| && s.songs[id].title == title
    requires forall j :: 0 <= j < id ==> s.songs[j].title != title
    requires id in ListAt(s.albumSongs, al) && al in ListAt(s.artistAlbums, a)
    requires u !in ListAt(s.songLikers, id)
    ensures var st := LikeSong(s, mobile, title);
      && st.out == Ok(id)
      && ListAt(st.next.songLikers, id) == ListAt(s.songLikers, id) + [u]
      && (forall j :: j != id ==> ListAt(st.next.songLikers, j) == ListAt(s.songLikers, j))
      && |st.next.songs| == |s.songs| && |st.next.artists| == |s.artists|
      && st.next.songs[id] == s.songs[id].(likes := s.songs[id].likes + 1)
      && (forall j :: 0 <= j < |s.songs| && j != id ==> st.next.songs[j] == s.songs[j])
      && a < |s.artists| && st.next.artists[a] == s.artists[a].(likes := s.artists[a].likes + 1)
      && (forall b :: 0 <= b < |s.artists| && b != a ==> st.next.artists[b] == s.artists[b])
      && st.next == s.(songs := st.next.songs, artists := st.next.artists, songLikers := st.next.songLikers)
  {
    PartitionFind(s.albumSongs, s.songAlbum, |s.albums|, id);
    PartitionFind(s.artistAlbums, s.albumOwner, |s.artists|, al);
    LikeSongOwner(s, mobile, title, u, id);
    LikedFields(s, u, id, a);
  }

  /** What recording a like and crediting artist a change, field by field. */
  lemma LikedFields(s: Store, u: UserId, id: SongId, a: ArtistId)
    requires id < |s.songs| && a < |s.artists|
    ensures var t := AddLike(s, u, id).(artists := s.artists[a := s.artists[a].(likes := s.artists[a].likes + 1)]);
      && ListAt(t.songLikers, id) == ListAt(s.songLikers, id) + [u]
      && (forall j :: j != id ==> ListAt(t.songLikers, j) == ListAt(s.songLikers, j))
      && |t.songs| == |s.songs| && |t.artists| == |s.artists|
      && t.songs[id] == s.songs[id].(likes := s.songs[id].likes + 1)
      && (forall j :: 0 <= j < |s.songs| && j != id ==> t.songs[j] == s.songs[j])
      && t.artists[a] == s.artists[a].(likes := s.artists[a].likes + 1)
      && (forall b :: 0 <= b < |s.artists| && b != a ==> t.artists[b] == s.artists[b])
      && t == s.(songs := t.songs, artists := t.artists, songLikers := t.songLikers)
  {
  }

  /** The store after a first like: the liker recorded, the song's and its album owner's counters raised. */
  lemma LikeSongOwner(s: Store, mobile: string, title: string, u: UserId, id: SongId)
    requires Filed(s)
    requires u < |s.users| && s.users[u].mobile == mobile
    requires forall j :: 0 <= j < u ==> s.users[j].mobile != mobile
    requires id < |s.songs| && s.songs[id].title == title
    requires forall j :: 0 <= j < id ==> s.songs[j].title != title
    requires u !in ListAt(s.songLikers, id)
    ensures s.songAlbum[id] < |s.albumOwner| && s.albumOwner[s.songAlbum[id]] < |s.artists|
    ensures var a := s.albumOwner[s.songAlbum[id]];
            LikeSong(s, mobile, title)
            == Step(AddLike(s, u, id).(artists := s.artists[a := s.artists[a].(likes := s.artists[a].likes + 1)]), Ok(id))
  {
    LikeSongFirst(s, mobile, title, u, id);
    LikeCreditsOwner(s, u, id);
  }

  /** A first like by the first matching user on the first matching song: record it, then credit the artist. */
  lemma LikeSongFirst(s: Store, mobile: string, title: string, u: UserId, id: SongId)
    requires u < |s.users| && s.users[u].mobile == mobile
    requires forall j :: 0 <= j < u ==> s.users[j].mobile != mobile
    requires id < |s.songs| && s.songs[id].title == title
    requires forall j :: 0 <= j < id ==> s.songs[j].title != title
    requires u !in ListAt(s.songLikers, id)
    ensures LikeSong(s, mobile, title) == Step(CreditArtist(AddLike(s, u, id), id), Ok(id))
  {
    assert UserByMobile(s.users, mobile) == Some(u);
    assert SongByTitle(s.songs, title) == Some(id);
  }

  /** A like by a user who already liked the song returns it and changes nothing. */
  lemma LikeSongRepeat(s: Store, mobile: string, title: string, u: UserId, id: SongId)
    requires u < |s.users| && s.users[u].mobile == mobile
    requires forall j :: 0 <= j < u ==> s.users[j].mobile != mobile
    requires id < |s.songs| && s.songs[id].title == title
    requires forall j :: 0 <= j < id ==> s.songs[j].title != title
    requires u in ListAt(s.songLikers, id)
    ensures LikeSong(s, mobile, title) == Step(s, Ok(id))
  {
    assert UserByMobile(s.users, mobile) == Some(u);
    assert SongByTitle(s.songs, title) == Some(id);
  }

  /** Crediting an artist changes the artists' like counters and nothing else. */
  lemma CreditArtistFrame(s: Store, id: SongId)
    ensures var t := CreditArtist(s, id);
            && |t.artists| == |s.artists|
            && (forall b :: 0 <= b < |s.artists| ==> t.artists[b].name == s.artists[b].name)
            && t == s.(artists := t.artists)
  {
  }

  /** A second identical likeSong returns the same song and changes nothing. */
  lemma LikeSongIdempotent(s: Store, mobile: string, title: string)
    ensures var st := LikeSong(s, mobile, title);
            LikeSong(st.next, mobile, title) == Step(st.next, st.out)
  {
    var st := LikeSong(s, mobile, title);
    match UserByMobile(s.users, mobile)
    case None =>
    case Some(u) =>
      match SongByTitle(s.songs, title)
      case None =>
      case Some(id) =>
        if u !in ListAt(s.songLikers, id) {
          var liked := AddLike(s, u, id);
          CreditArtistFrame(liked, id);
          var t := st.next;
          assert t == liked.(artists := t.artists);
          assert forall j :: 0 <= j < |s.songs| ==> t.songs[j].title == s.songs[j].title;
          LikeSongRepeat(t, mobile, title, u, id);
        }
  }
}
