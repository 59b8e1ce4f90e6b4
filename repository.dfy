/**
 * The in-memory catalog store `SpotifyRepository`: five entity lists and
 * seven relation tables, updated in place by its methods. Each method is
 * specified by the matching function of module Catalog: the new state and
 * the result are those the function computes from the old state, and the
 * invariant `Valid` (module Catalog's `Consistent`) is kept.
 */
module Spotify {
  import opened Lookup
  import opened Catalog
  import Preservation

  class SpotifyRepository {
    var artistAlbumMap: map<ArtistId, seq<AlbumId>>
    var albumSongMap: map<AlbumId, seq<SongId>>
    var playlistSongMap: map<PlaylistId, seq<SongId>>
    var playlistListenerMap: map<PlaylistId, seq<UserId>>
    var creatorPlaylistMap: map<UserId, PlaylistId>
    var userPlaylistMap: map<UserId, seq<PlaylistId>>
    var songLikeMap: map<SongId, seq<UserId>>

    var users: seq<User>
    var songs: seq<Song>
    var playlists: seq<Playlist>
    var albums: seq<Album>
    var artists: seq<Artist>

    // Bookkeeping for the proofs: the artist each album was filed under,
    // the album each song was filed under, the creator of each playlist.
    ghost var albumOwner: seq<ArtistId>
    ghost var songAlbum: seq<AlbumId>
    ghost var playlistCreator: seq<UserId>

    /** The state of the repository as a value. */
    ghost function Abs(): Store
      reads this
    {
      Store(users, songs, playlists, albums, artists,
            artistAlbumMap, albumSongMap, playlistSongMap, playlistListenerMap,
            creatorPlaylistMap, userPlaylistMap, songLikeMap,
            albumOwner, songAlbum, playlistCreator)
    }

    ghost predicate Valid()
      reads this
    {
      Consistent(Abs())
    }

    constructor ()
      ensures Valid() && Abs() == Empty()
    {
      artistAlbumMap := map[];
      albumSongMap := map[];
      playlistSongMap := map[];
      playlistListenerMap := map[];
      creatorPlaylistMap := map[];
      userPlaylistMap := map[];
      songLikeMap := map[];
      users := [];
      songs := [];
      playlists := [];
      albums := [];
      artists := [];
      albumOwner := [];
      songAlbum := [];
      playlistCreator := [];
      Preservation.EmptyConsistent();
    }

    method CreateUser(name: string, mobile: string) returns (user: UserId)
      requires Valid()
      modifies this
      ensures Valid()
      ensures Step(Abs(), user) == Catalog.CreateUser(old(Abs()), name, mobile)
    {
      Preservation.CreateUserKeeps(Abs(), name, mobile);
      user := |users|;
      users := users + [User(name, mobile)];
    }

    method CreateArtist(name: string) returns (artist: ArtistId)
      requires Valid()
      modifies this
      ensures Valid()
      ensures Step(Abs(), artist) == Catalog.CreateArtist(old(Abs()), name)
    {
      Preservation.CreateArtistKeeps(Abs(), name);
      artist := |artists|;
      artists := artists + [Artist(name, 0)];
    }

    method CreateAlbum(title: string, artistName: string) returns (album: AlbumId)
      requires Valid()
      modifies this
      ensures Valid()
      ensures Step(Abs(), album) == Catalog.CreateAlbum(old(Abs()), title, artistName)
    {
      Preservation.CreateAlbumKeeps(Abs(), title, artistName);
      var artist: ArtistId;
      match ArtistByName(artists, artistName) {
        case Some(a) =>
          artist := a;
        case None =>
          artist := CreateArtist(artistName);
      }
      assert Step(Abs(), artist) == ArtistNamed(old(Abs()), artistName);
      album := FileAlbum(artist, title);
    }

    /** Files a new album under artist. */
    method FileAlbum(artist: ArtistId, title: string) returns (album: AlbumId)
      modifies this
      ensures album == old(|albums|) && Abs() == AddAlbum(old(Abs()), artist, title)
    {
      album := |albums|;
      albums := albums + [Album(title)];
      artistAlbumMap := artistAlbumMap[artist := ListAt(artistAlbumMap, artist) + [album]];
      albumOwner := albumOwner + [artist];
    }

    method CreateSong(title: string, albumName: string, length: int) returns (r: Result<SongId>)
      requires Valid()
      modifies this
      ensures Valid()
      ensures Step(Abs(), r) == Catalog.CreateSong(old(Abs()), title, albumName, length)
    {
      Preservation.CreateSongKeeps(Abs(), title, albumName, length);
      var found := AlbumByTitle(albums, albumName);
      if found.None? {
        return Err(AlbumNotFound(albumName));
      }
      var song := FileSong(found.value, title, length);
      r := Ok(song);
    }

    /** Files a new song, with no likes yet, under album. */
    method FileSong(album: AlbumId, title: string, length: int) returns (song: SongId)
      modifies this
      ensures song == old(|songs|) && Abs() == AddSong(old(Abs()), album, title, length)
    {
      song := |songs|;
      songs := songs + [Song(title, length, 0)];
      albumSongMap := albumSongMap[album := ListAt(albumSongMap, album) + [song]];
      songAlbum := songAlbum + [album];
    }

    method CreatePlaylistOnLength(mobile: string, title: string, length: int) returns (r: Result<PlaylistId>)
      requires Valid()
      modifies this
      ensures Valid()
      ensures Step(Abs(), r) == Catalog.CreatePlaylistOnLength(old(Abs()), mobile, title, length)
    {
      Preservation.CreatePlaylistOnLengthKeeps(Abs(), mobile, title, length);
      var found := UserByMobile(users, mobile);
      if found.None? {
        return Err(UserNotFound(mobile));
      }
      var matching := SongsOfLength(songs, length);
      r := RegisterPlaylist(found.value, title, matching);
    }

    method CreatePlaylistOnName(mobile: string, title: string, songTitles: seq<string>) returns (r: Result<PlaylistId>)
      requires Valid()
      modifies this
      ensures Valid()
      ensures Step(Abs(), r) == Catalog.CreatePlaylistOnName(old(Abs()), mobile, title, songTitles)
    {
      Preservation.CreatePlaylistOnNameKeeps(Abs(), mobile, title, songTitles);
      var found := UserByMobile(users, mobile);
      if found.None? {
        return Err(UserNotFound(mobile));
      }
      var matching := SongsTitled(songs, songTitles);
      r := RegisterPlaylist(found.value, title, matching);
    }

    /** Registers a new playlist of the matching songs, created by user, who becomes its one listener. */
    method RegisterPlaylist(user: UserId, title: string, matching: seq<SongId>) returns (r: Result<PlaylistId>)
      modifies this
      ensures Step(Abs(), r) == AddPlaylist(old(Abs()), user, title, matching)
    {
      ghost var s := Abs();
      var playlist := |playlists|;
      playlists := playlists + [Playlist(title)];
      playlistSongMap := playlistSongMap[playlist := matching];
      playlistListenerMap := playlistListenerMap[playlist := [user]];
      creatorPlaylistMap := creatorPlaylistMap[user := playlist];
      playlistCreator := playlistCreator + [user];
      r := Ok(playlist);
      assert Abs() == AddPlaylist(s, user, title, matching).next;
    }

    method FindPlaylist(mobile: string, playlistTitle: string) returns (r: Result<PlaylistId>)
      requires Valid()
      modifies this
      ensures Valid()
      ensures Step(Abs(), r) == Catalog.FindPlaylist(old(Abs()), mobile, playlistTitle)
    {
      Preservation.FindPlaylistKeeps(Abs(), mobile, playlistTitle);
      var foundUser := UserByMobile(users, mobile);
      if foundUser.None? {
        return Err(UserNotFound(mobile));
      }
      var user := foundUser.value;
      var foundPlaylist := PlaylistByTitle(playlists, playlistTitle);
      if foundPlaylist.None? {
        return Err(PlaylistNotFound(playlistTitle));
      }
      var playlist := foundPlaylist.value;
      // Every registered playlist has a listener list (Valid).
      var listeners := playlistListenerMap[playlist];
      if user !in listeners {
        AddListener(playlist, user);
      }
      r := Ok(playlist);
    }

    /** Appends user to the listeners of playlist. */
    method AddListener(playlist: PlaylistId, user: UserId)
      modifies this
      ensures Abs() == Catalog.AddListener(old(Abs()), playlist, user)
    {
      playlistListenerMap := playlistListenerMap[playlist := ListAt(playlistListenerMap, playlist) + [user]];
    }

    method LikeSong(mobile: string, songTitle: string) returns (r: Result<SongId>)
      requires Valid()
      modifies this
      ensures Valid()
      ensures Step(Abs(), r) == Catalog.LikeSong(old(Abs()), mobile, songTitle)
    {
      Preservation.LikeSongKeeps(Abs(), mobile, songTitle);
      var foundUser := UserByMobile(users, mobile);
      if foundUser.None? {
        return Err(UserNotFound(mobile));
      }
      var user := foundUser.value;
      var foundSong := SongByTitle(songs, songTitle);
      if foundSong.None? {
        return Err(SongNotFound(songTitle));
      }
      var song := foundSong.value;
      var likers := ListAt(songLikeMap, song);
      if user !in likers {
        RecordLike(user, song);
        CreditArtistOf(song);
      }
      r := Ok(song);
    }

    /** Adds user to the likers of song and raises the song's like counter. */
    method RecordLike(user: UserId, song: SongId)
      requires song < |songs|
      modifies this
      ensures Abs() == AddLike(old(Abs()), user, song)
    {
      songLikeMap := songLikeMap[song := ListAt(songLikeMap, song) + [user]];
      songs := songs[song := songs[song].(likes := songs[song].likes + 1)];
    }

    /** Credits one like to the artist of the album that holds song. */
    method CreditArtistOf(song: SongId)
      modifies this
      ensures Abs() == CreditArtist(old(Abs()), song)
    {
      var album := FirstKeyContaining(albumSongMap, |albums|, song);
      if album.Some? {
        var artist := FirstKeyContaining(artistAlbumMap, |artists|, album.value);
        if artist.Some? {
          var a := artist.value;
          artists := artists[a := artists[a].(likes := artists[a].likes + 1)];
        }
      }
    }

    method MostPopularArtist() returns (name: Option<string>)
      ensures name == Catalog.MostPopularArtist(artists)
    {
      name := Catalog.MostPopularArtist(artists);
    }

    method MostPopularSong() returns (title: Option<string>)
      ensures title == Catalog.MostPopularSong(songs)
    {
      title := Catalog.MostPopularSong(songs);
    }
  }
}
