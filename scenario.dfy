/**
 * A worked run of the store: an artist created on the fly by createAlbum
 * is credited with a like on a song of that album, and a repeated like by
 * the same user changes nothing.
 */
module Scenario {
  import opened Lookup
  import opened Catalog
  import opened Preservation

  /** User "Ann" (mobile "555"), album "Album1" of the auto-created artist "Test", song "S1" of length 200. */
  function Setup(): Store {
    Store([User("Ann", "555")], [Song("S1", 200, 0)], [], [Album("Album1")], [Artist("Test", 0)],
          map[0 := [0]], map[0 := [0]], map[], map[], map[], map[], map[],
          [0], [0], [])
  }

  /** The store after Ann's like of "S1". */
  function Liked(): Store {
    Setup().(songs := [Song("S1", 200, 1)], artists := [Artist("Test", 1)], songLikers := map[0 := [0]])
  }

  /**
   * createUser("Ann", "555"), then createAlbum("Album1", "Test") (creating
   * the artist), then createSong("S1", "Album1", 200) lead to Setup().
   */
  lemma SetupReached()
    ensures CreateSong(CreateAlbum(CreateUser(Empty(), "Ann", "555").next, "Album1", "Test").next,
                       "S1", "Album1", 200)
            == Step(Setup(), Ok(0))
  {
    var s0 := CreateUser(Empty(), "Ann", "555").next;
    assert s0 == Empty().(users := [User("Ann", "555")]);
    assert ArtistByName(s0.artists, "Test") == None;
    var s1 := CreateAlbum(s0, "Album1", "Test").next;
    assert s1 == s0.(albums := [Album("Album1")], artists := [Artist("Test", 0)],
                     artistAlbums := map[0 := [0]], albumOwner := [0]) by {
      assert ListAt(map[], 0) + [0] == [0];
    }
    assert AlbumByTitle(s1.albums, "Album1") == Some(0);
    assert CreateSong(s1, "S1", "Album1", 200).next == Setup() by {
      assert ListAt(map[], 0) + [0] == [0];
    }
  }

  /** Setup() is consistent, being reached from the empty store. */
  lemma SetupConsistent()
    ensures Consistent(Setup())
  {
    var s0 := CreateUser(Empty(), "Ann", "555").next;
    var s1 := CreateAlbum(s0, "Album1", "Test").next;
    EmptyConsistent();
    CreateUserKeeps(Empty(), "Ann", "555");
    CreateAlbumKeeps(s0, "Album1", "Test");
    CreateSongKeeps(s1, "S1", "Album1", 200);
    SetupReached();
  }

  /**
   * Ann's first like of "S1" gives the song and its artist "Test" one like
   * each; her second like returns the same song and changes nothing.
   */
  lemma LikeTwice()
    ensures LikeSong(Setup(), "555", "S1") == Step(Liked(), Ok(0))
    ensures LikeSong(Liked(), "555", "S1") == Step(Liked(), Ok(0))
  {
    var s := Setup();
    assert UserByMobile(s.users, "555") == Some(0);
    assert SongByTitle(s.songs, "S1") == Some(0);
    var liked := AddLike(s, 0, 0);
    assert liked == s.(songs := [Song("S1", 200, 1)], songLikers := map[0 := [0]]) by {
      assert ListAt(map[], 0) + [0] == [0];
    }
    assert FirstKeyContaining(liked.albumSongs, 1, 0) == Some(0);
    assert FirstKeyContaining(liked.artistAlbums, 1, 0) == Some(0);
    assert CreditArtist(liked, 0) == Liked();
    assert UserByMobile(Liked().users, "555") == Some(0);
    assert SongByTitle(Liked().songs, "S1") == Some(0);
  }
}
