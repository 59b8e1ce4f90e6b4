/**
 * The catalog store's state as a value, its invariant, and one function per
 * operation of `SpotifyRepository` giving the state after the call and the
 * call's result. An entity is identified by its index in the list it was
 * appended to on creation (the Java code compares entities by reference and
 * registers every entity it constructs, so the two coincide).
 */
module Catalog {
  import opened Lookup

  type UserId = nat
  type ArtistId = nat
  type AlbumId = nat
  type SongId = nat
  type PlaylistId = nat

  datatype User = User(name: string, mobile: string)
  datatype Artist = Artist(name: string, likes: int)
  datatype Album = Album(title: string)
  datatype Song = Song(title: string, length: int, likes: int)
  datatype Playlist = Playlist(title: string)

  /** The lookups that can fail, with the key that was searched for. */
  datatype Error =
    | UserNotFound(mobile: string)
    | AlbumNotFound(title: string)
    | PlaylistNotFound(title: string)
    | SongNotFound(title: string)

  datatype Result<T> = Ok(value: T) | Err(error: Error)

  /**
   * The five entity lists and seven relation tables of the repository, plus
   * three bookkeeping lists that are not fields of the Java class: the
   * artist each album was filed under, the album each song was filed under,
   * and the creator of each playlist. Under `Consistent` the first two are
   * determined by the relation tables.
   */
  datatype Store = Store(
    users: seq<User>,
    songs: seq<Song>,
    playlists: seq<Playlist>,
    albums: seq<Album>,
    artists: seq<Artist>,
    artistAlbums: map<ArtistId, seq<AlbumId>>,
    albumSongs: map<AlbumId, seq<SongId>>,
    playlistSongs: map<PlaylistId, seq<SongId>>,
    playlistListeners: map<PlaylistId, seq<UserId>>,
    creatorPlaylist: map<UserId, PlaylistId>,
    userPlaylists: map<UserId, seq<PlaylistId>>,
    songLikers: map<SongId, seq<UserId>>,
    albumOwner: seq<ArtistId>,
    songAlbum: seq<AlbumId>,
    playlistCreator: seq<UserId>)

  /** The store after an operation, and what the operation returned. */
  datatype Step<T> = Step(next: Store, out: T)

  // ---------------------------------------------------------------------
  // Lookups: first element in creation order whose key field matches.

  function UserByMobile(users: seq<User>, mobile: string): (r: Option<UserId>)
    ensures r.Some? ==> r.value < |users| && users[r.value].mobile == mobile
    ensures r.Some? ==> forall j :: 0 <= j < r.value ==> users[j].mobile != mobile
    ensures r.None? <==> forall j :: 0 <= j < |users| ==> users[j].mobile != mobile
  {
    FirstMatch(users, (u: User) => u.mobile == mobile)
  }

  function ArtistByName(artists: seq<Artist>, name: string): (r: Option<ArtistId>)
    ensures r.Some? ==> r.value < |artists| && artists[r.value].name == name
    ensures r.Some? ==> forall j :: 0 <= j < r.value ==> artists[j].name != name
    ensures r.None? <==> forall j :: 0 <= j < |artists| ==> artists[j].name != name
  {
    FirstMatch(artists, (a: Artist) => a.name == name)
  }

  function AlbumByTitle(albums: seq<Album>, title: string): (r: Option<AlbumId>)
    ensures r.Some? ==> r.value < |albums| && albums[r.value].title == title
    ensures r.Some? ==> forall j :: 0 <= j < r.value ==> albums[j].title != title
    ensures r.None? <==> forall j :: 0 <= j < |albums| ==> albums[j].title != title
  {
    FirstMatch(albums, (a: Album) => a.title == title)
  }

  function PlaylistByTitle(playlists: seq<Playlist>, title: string): (r: Option<PlaylistId>)
    ensures r.Some? ==> r.value < |playlists| && playlists[r.value].title == title
    ensures r.Some? ==> forall j :: 0 <= j < r.value ==> playlists[j].title != title
    ensures r.None? <==> forall j :: 0 <= j < |playlists| ==> playlists[j].title != title
  {
    FirstMatch(playlists, (p: Playlist) => p.title == title)
  }

  function SongByTitle(songs: seq<Song>, title: string): (r: Option<SongId>)
    ensures r.Some? ==> r.value < |songs| && songs[r.value].title == title
    ensures r.Some? ==> forall j :: 0 <= j < r.value ==> songs[j].title != title
    ensures r.None? <==> forall j :: 0 <= j < |songs| ==> songs[j].title != title
  {
    FirstMatch(songs, (s: Song) => s.title == title)
  }

  // ---------------------------------------------------------------------
  // Song selections for the two playlist builders.

  /** The songs of the given length, in global creation order. */
  function SongsOfLength(songs: seq<Song>, length: int): (r: seq<SongId>)
    ensures Increasing(r)
    ensures forall k :: 0 <= k < |r| ==> r[k] < |songs|
    ensures forall i :: 0 <= i < |songs| ==> (i in r <==> songs[i].length == length)
  {
    Filter(songs, (s: Song) => s.length == length)
  }

  /**
   * The songs whose title occurs in titles, in global creation order; a
   * song is selected once however often its title is listed.
   */
  function SongsTitled(songs: seq<Song>, titles: seq<string>): (r: seq<SongId>)
    ensures Increasing(r) && NoDuplicates(r)
    ensures forall k :: 0 <= k < |r| ==> r[k] < |songs|
    ensures forall i :: 0 <= i < |songs| ==> (i in r <==> songs[i].title in titles)
  {
    Filter(songs, (s: Song) => s.title in titles)
  }

  // ---------------------------------------------------------------------
  // Popularity queries.

  /**
   * The name of the first artist, in creation order, with the most likes;
   * None when there is no artist.
   */
  function MostPopularArtist(artists: seq<Artist>): (r: Option<string>)
    ensures r.None? <==> |artists| == 0
    ensures r.Some? ==>
              exists i :: 0 <= i < |artists| && artists[i].name == r.value
                && (forall j :: 0 <= j < |artists| ==> artists[j].likes <= artists[i].likes)
                && (forall j :: 0 <= j < i ==> artists[j].likes < artists[i].likes)
  {
    if |artists| == 0 then None
    else
      var i := FirstMax(artists, (a: Artist) => a.likes);
      Some(artists[i].name)
  }

  /**
   * The title of the first song, in creation order, with the most likes;
   * None when there is no song.
   */
  function MostPopularSong(songs: seq<Song>): (r: Option<string>)
    ensures r.None? <==> |songs| == 0
    ensures r.Some? ==>
              exists i :: 0 <= i < |songs| && songs[i].title == r.value
                && (forall j :: 0 <= j < |songs| ==> songs[j].likes <= songs[i].likes)
                && (forall j :: 0 <= j < i ==> songs[j].likes < songs[i].likes)
  {
    if |songs| == 0 then None
    else
      var i := FirstMax(songs, (s: Song) => s.likes);
      Some(songs[i].title)
  }

  // ---------------------------------------------------------------------
  // The invariant.

  /**
   * The likes of those songs that were filed under an album of artist a
   * (through songAlbum and albumOwner).
   */
  ghost function Credited(songs: seq<Song>, songAlbum: seq<AlbumId>, albumOwner: seq<ArtistId>, a: ArtistId): int
    requires |songAlbum| == |songs|
  {
    if |songs| == 0 then 0
    else
      var n := |songs| - 1;
      Credited(songs[..n], songAlbum[..n], albumOwner, a)
        + (if songAlbum[n] < |albumOwner| && albumOwner[songAlbum[n]] == a then songs[n].likes else 0)
  }

  /**
   * Each album is filed under exactly one artist (albumOwner) and each song
   * under exactly one album (songAlbum) in the artist and album tables.
   */
  ghost predicate Filed(s: Store) {
    && |s.albumOwner| == |s.albums|
    && |s.songAlbum| == |s.songs|
    && Partition(s.artistAlbums, s.albumOwner, |s.artists|)
    && Partition(s.albumSongs, s.songAlbum, |s.albums|)
  }

  /** A listener list: starts with the creator, no user twice, only known users. */
  ghost predicate ListenersOk(listeners: seq<UserId>, creator: UserId, userCount: nat) {
    && |listeners| > 0
    && listeners[0] == creator
    && NoDuplicates(listeners)
    && forall i :: 0 <= i < |listeners| ==> listeners[i] < userCount
  }

  /** A liker list: as many entries as the song has likes, no user twice, only known users. */
  ghost predicate LikersOk(song: Song, likers: seq<UserId>, userCount: nat) {
    && song.likes == |likers|
    && NoDuplicates(likers)
    && forall i :: 0 <= i < |likers| ==> likers[i] < userCount
  }

  /** Every playlist has its song list and its listener list. */
  ghost predicate PlaylistsConsistent(s: Store) {
    && |s.playlistCreator| == |s.playlists|
    && (forall p :: p in s.playlistSongs ==>
          && p < |s.playlists|
          && Increasing(s.playlistSongs[p])
          && forall k :: 0 <= k < |s.playlistSongs[p]| ==> s.playlistSongs[p][k] < |s.songs|)
    && (forall p :: p in s.playlistListeners ==> p < |s.playlists|)
    && (forall p :: 0 <= p < |s.playlists| ==>
          && p in s.playlistSongs
          && p in s.playlistListeners
          && ListenersOk(s.playlistListeners[p], s.playlistCreator[p], |s.users|))
  }

  /** creatorPlaylist maps each creator to the last playlist they created. */
  ghost predicate LatestConsistent(s: Store) {
    && |s.playlistCreator| == |s.playlists|
    && (forall u :: u in s.creatorPlaylist ==>
          s.creatorPlaylist[u] < |s.playlists| && s.playlistCreator[s.creatorPlaylist[u]] == u)
    && (forall u, q :: u in s.creatorPlaylist && s.creatorPlaylist[u] < q < |s.playlists| ==>
          s.playlistCreator[q] != u)
    && (forall p :: 0 <= p < |s.playlists| ==>
          s.playlistCreator[p] in s.creatorPlaylist && p <= s.creatorPlaylist[s.playlistCreator[p]])
  }

  /** Each song's like counter is the length of its liker list. */
  ghost predicate LikersConsistent(s: Store) {
    && (forall id :: id in s.songLikers ==> id < |s.songs|)
    && (forall id :: 0 <= id < |s.songs| ==> LikersOk(s.songs[id], ListAt(s.songLikers, id), |s.users|))
  }

  /** Each artist's like counter is the total of the likes of its songs. */
  ghost predicate ArtistLikesConsistent(s: Store) {
    && |s.songAlbum| == |s.songs|
    && forall a :: 0 <= a < |s.artists| ==>
         s.artists[a].likes == Credited(s.songs, s.songAlbum, s.albumOwner, a)
  }

  /**
   * The invariant every operation keeps: each album is filed under exactly
   * one artist and each song under exactly one album; listener and liker
   * lists hold no duplicates; counters agree with the liker lists;
   * userPlaylists is never written.
   */
  ghost predicate Consistent(s: Store) {
    && Filed(s)
    && PlaylistsConsistent(s)
    && LatestConsistent(s)
    && LikersConsistent(s)
    && ArtistLikesConsistent(s)
    && s.userPlaylists == map[]
  }

  // ---------------------------------------------------------------------
  // The operations.

  /** The freshly constructed repository: every list and table empty. */
  function Empty(): Store {
    Store([], [], [], [], [], map[], map[], map[], map[], map[], map[], map[], [], [], [])
  }

  function CreateUser(s: Store, name: string, mobile: string): Step<UserId> {
    Step(s.(users := s.users + [User(name, mobile)]), |s.users|)
  }

  function CreateArtist(s: Store, name: string): Step<ArtistId> {
    Step(s.(artists := s.artists + [Artist(name, 0)]), |s.artists|)
  }

  /** The first artist named name, created when there is none. */
  function ArtistNamed(s: Store, name: string): Step<ArtistId> {
    match ArtistByName(s.artists, name)
    case Some(a) => Step(s, a)
    case None => CreateArtist(s, name)
  }

  /** Files a new album under artist a. */
  function AddAlbum(s: Store, a: ArtistId, title: string): Store {
    s.(albums := s.albums + [Album(title)],
       artistAlbums := s.artistAlbums[a := ListAt(s.artistAlbums, a) + [|s.albums|]],
       albumOwner := s.albumOwner + [a])
  }

  /** Files a new album under the first artist named artistName, creating that artist if needed. */
  function CreateAlbum(s: Store, title: string, artistName: string): Step<AlbumId> {
    var found := ArtistNamed(s, artistName);
    Step(AddAlbum(found.next, found.out, title), |found.next.albums|)
  }

  /** Files a new song, with no likes yet, under album al. */
  function AddSong(s: Store, al: AlbumId, title: string, length: int): Store {
    s.(songs := s.songs + [Song(title, length, 0)],
       albumSongs := s.albumSongs[al := ListAt(s.albumSongs, al) + [|s.songs|]],
       songAlbum := s.songAlbum + [al])
  }

  /** Files a new song under the first album titled albumName; fails when there is none. */
  function CreateSong(s: Store, title: string, albumName: string, length: int): Step<Result<SongId>> {
    match AlbumByTitle(s.albums, albumName)
    case None => Step(s, Err(AlbumNotFound(albumName)))
    case Some(al) => Step(AddSong(s, al, title, length), Ok(|s.songs|))
  }

  /** Registers a new playlist of the given songs, created by user u. */
  function AddPlaylist(s: Store, u: UserId, title: string, matching: seq<SongId>): Step<Result<PlaylistId>> {
    var p := |s.playlists|;
    Step(s.(playlists := s.playlists + [Playlist(title)],
            playlistSongs := s.playlistSongs[p := matching],
            playlistListeners := s.playlistListeners[p := [u]],
            creatorPlaylist := s.creatorPlaylist[u := p],
            playlistCreator := s.playlistCreator + [u]),
         Ok(p))
  }

  function CreatePlaylistOnLength(s: Store, mobile: string, title: string, length: int): Step<Result<PlaylistId>> {
    match UserByMobile(s.users, mobile)
    case None => Step(s, Err(UserNotFound(mobile)))
    case Some(u) => AddPlaylist(s, u, title, SongsOfLength(s.songs, length))
  }

  function CreatePlaylistOnName(s: Store, mobile: string, title: string, songTitles: seq<string>): Step<Result<PlaylistId>> {
    match UserByMobile(s.users, mobile)
    case None => Step(s, Err(UserNotFound(mobile)))
    case Some(u) => AddPlaylist(s, u, title, SongsTitled(s.songs, songTitles))
  }

  /** Adds the user to the first playlist titled title, unless already a listener. */
  function FindPlaylist(s: Store, mobile: string, title: string): Step<Result<PlaylistId>> {
    match UserByMobile(s.users, mobile)
    case None => Step(s, Err(UserNotFound(mobile)))
    case Some(u) =>
      match PlaylistByTitle(s.playlists, title)
      case None => Step(s, Err(PlaylistNotFound(title)))
      case Some(p) =>
        if u in ListAt(s.playlistListeners, p) then Step(s, Ok(p))
        else Step(AddListener(s, p, u), Ok(p))
  }

  /** Appends user u to the listeners of playlist p. */
  function AddListener(s: Store, p: PlaylistId, u: UserId): Store {
    s.(playlistListeners := s.playlistListeners[p := ListAt(s.playlistListeners, p) + [u]])
  }

  /** Records user u among the likers of song id and raises the song's counter by one. */
  function AddLike(s: Store, u: UserId, id: SongId): Store
    requires id < |s.songs|
  {
    s.(songLikers := s.songLikers[id := ListAt(s.songLikers, id) + [u]],
       songs := s.songs[id := s.songs[id].(likes := s.songs[id].likes + 1)])
  }

  /**
   * One more like for the artist of the album that holds song id, found by
   * scanning the album and artist tables; nothing when either scan fails.
   */
  function CreditArtist(s: Store, id: SongId): Store {
    match FirstKeyContaining(s.albumSongs, |s.albums|, id)
    case None => s
    case Some(al) =>
      match FirstKeyContaining(s.artistAlbums, |s.artists|, al)
      case None => s
      case Some(a) => s.(artists := s.artists[a := s.artists[a].(likes := s.artists[a].likes + 1)])
  }

  /** The user likes the first song titled title; a repeated like changes nothing. */
  function LikeSong(s: Store, mobile: string, title: string): Step<Result<SongId>> {
    match UserByMobile(s.users, mobile)
    case None => Step(s, Err(UserNotFound(mobile)))
    case Some(u) =>
      match SongByTitle(s.songs, title)
      case None => Step(s, Err(SongNotFound(title)))
      case Some(id) =>
        var likers := ListAt(s.songLikers, id);
        if u in likers then Step(s, Ok(id))
        else
          Step(CreditArtist(AddLike(s, u, id), id), Ok(id))
  }
}
