# SpotifyRepository, modelled in Dafny

This project models the in-memory catalog store `SpotifyRepository` of a small
music-streaming service. The store keeps users, songs, playlists, albums and
artists in lists. It also keeps seven relation tables: the albums of each
artist, the songs of each album, the songs and listeners of each playlist, the
latest playlist each user created, the playlists of each user (never written),
and the users who liked each song. Its operations:

- create users and artists;
- create an album, creating the artist on the fly when none has the name;
- create a song in an album;
- build a playlist from all songs of a length or from a list of titles;
- join a playlist as a listener;
- like a song, which also credits the song's artist;
- report the most popular artist and song.

Every lookup returns the first match in creation order.

Layout:

- `lookup.dfy` (module `Lookup`): the generic scans behind the Java stream
  pipelines.
  - `FirstMatch` is `filter(..).findFirst()`.
  - `Filter` is `filter(..).collect(toList())`.
  - `FirstMax` is `max(comparingInt(..))`. It keeps the earlier element on ties.
  - `FirstKeyContaining` is the `entrySet().stream().filter(contains)` scan of a
    table.
  - The `Partition` predicate says a table files every item under exactly one
    key.
- `catalog.dfy` (module `Catalog`): the state as a value.
  - `Store` holds the twelve Java fields and three bookkeeping lists.
  - `Consistent` is the invariant.
  - There is one function per operation. Each returns the new store and the
    result, and a result is `Err` where the Java code throws.
- `credits.dfy` (module `Credits`): how the likes credited to an artist change.
- `preservation.dfy` (module `Preservation`): every operation keeps `Consistent`.
- `effects.dfy` (module `Effects`): for each state-changing operation
  (`createUser`, `createArtist`, `createAlbum`, `createSong`, both playlist
  builders, `findPlaylist`, `likeSong`), the whole new store it produces, when
  it fails, and that repeated joins and likes change nothing. The two
  most-popular queries change nothing; their class methods modify nothing.
- `scenario.dfy` (module `Scenario`): a worked run in which an artist created
  on the fly by `createAlbum` earns a like, and a repeated like does not count.
- `repository.dfy` (module `Spotify`): class `SpotifyRepository` with the
  Java fields. Its methods update them in place.
  - Each state-changing operation ensures that the new state and the result
    are those of the matching `Catalog` function applied to the old state.
  - Each state-changing operation also requires and keeps `Valid()`, which is
    `Consistent` of the state. The queries `MostPopularArtist` and
    `MostPopularSong` need no precondition and modify nothing.
  - The private-style helpers `FileAlbum`, `FileSong`, `RegisterPlaylist`,
    `AddListener`, `RecordLike` and `CreditArtistOf` each perform one state
    update of an operation. They neither require nor ensure `Valid()`; the
    operation that calls them does.

An entity is identified by its index in the list it was added to. The Java code
compares entities by reference and adds every entity it constructs to its list,
so index equality and reference equality coincide. Java's `null` results become
`Option`, and its `Exception`s become `Result.Err` values that carry the
missing key.

No lookup of an artist can fail: `createAlbum` creates a missing artist
instead. So `Catalog.Error` has no artist-not-found case.

## Model

| member | source | states |
|---|---|---|
| Spotify.SpotifyRepository.constructor | src/main/java/com/driver/SpotifyRepository.java:24-39 | A new repository has every list and table empty and satisfies the invariant. |
| Preservation.EmptyConsistent | src/main/java/com/driver/SpotifyRepository.java:24-39 | The empty store satisfies the invariant. |
| Spotify.SpotifyRepository.CreateUser | src/main/java/com/driver/SpotifyRepository.java:41-45 | Appends User(name, mobile) and returns its id, with no uniqueness check; the invariant is kept. |
| Preservation.CreateUserKeeps | src/main/java/com/driver/SpotifyRepository.java:41-45 | Adding a user keeps the invariant. |
| Effects.CreateUserEffect | src/main/java/com/driver/SpotifyRepository.java:41-45 | createUser returns the new user's id, and the new store is the old one with exactly that user appended. A lookup of its mobile still finds the earliest user with it; lookups of other mobiles are unchanged. |
| Spotify.SpotifyRepository.CreateArtist | src/main/java/com/driver/SpotifyRepository.java:47-51 | Appends an artist with no likes and returns its id; the invariant is kept. |
| Preservation.CreateArtistKeeps | src/main/java/com/driver/SpotifyRepository.java:47-51 | A new artist owns no album, so its zero like counter equals the likes credited to it. |
| Effects.CreateArtistEffect | src/main/java/com/driver/SpotifyRepository.java:47-51 | createArtist returns the new artist's id, and the new store is the old one with exactly that artist, with no likes, appended. A lookup of its name still finds the earliest artist with it; lookups of other names are unchanged. |
| Catalog.ArtistByName | src/main/java/com/driver/SpotifyRepository.java:54-57 | The id of the first artist with the name; None exactly when no artist has it. |
| Preservation.ArtistNamedKeeps | src/main/java/com/driver/SpotifyRepository.java:54-57 | Finding or creating the album's artist keeps the invariant and yields an existing artist. |
| Spotify.SpotifyRepository.CreateAlbum | src/main/java/com/driver/SpotifyRepository.java:53-63 | Creates the artist only when none has the name, appends the album and files it under the first artist with the name; the invariant is kept. |
| Spotify.SpotifyRepository.FileAlbum | src/main/java/com/driver/SpotifyRepository.java:59-61 | Appends the album and adds it to its artist's album list. |
| Effects.CreateAlbumEffect | src/main/java/com/driver/SpotifyRepository.java:53-63 | createAlbum returns the new album's id and appends the album; it appends an artist named artistName exactly when no artist has that name, and otherwise leaves the artists unchanged. |
| Effects.CreateAlbumFiling | src/main/java/com/driver/SpotifyRepository.java:53-63 | The album goes at the end of the album list of the first artist with the name, whether old or new; the other album lists and all songs stay unchanged. The whole new store is the old one with the album appended and filed, the artist appended only when it was new, and nothing else changed. |
| Preservation.AddAlbumKeeps | src/main/java/com/driver/SpotifyRepository.java:59-61 | Filing a new album under an existing artist keeps every album under one artist and changes no artist's credited likes. |
| Preservation.CreateAlbumKeeps | src/main/java/com/driver/SpotifyRepository.java:53-63 | createAlbum keeps the invariant. |
| Catalog.AlbumByTitle | src/main/java/com/driver/SpotifyRepository.java:66-69 | The id of the first album with the title; None exactly when no album has it. |
| Spotify.SpotifyRepository.CreateSong | src/main/java/com/driver/SpotifyRepository.java:65-75 | Fails with AlbumNotFound and changes nothing when no album has the title; otherwise appends the song to the first such album; the invariant is kept. |
| Spotify.SpotifyRepository.FileSong | src/main/java/com/driver/SpotifyRepository.java:71-73 | Appends a song with no likes and adds it to its album's song list. |
| Effects.CreateSongFails | src/main/java/com/driver/SpotifyRepository.java:65-69 | createSong fails exactly when no album has the title; it then reports AlbumNotFound with that title and leaves the store unchanged. |
| Effects.CreateSongFiles | src/main/java/com/driver/SpotifyRepository.java:65-75 | A successful createSong appends one song with no likes and files it under the first album with the title only; albums, artists, users and artist tables stay unchanged. The whole new store is the old one with the song appended and filed, and nothing else changed. |
| Preservation.AddSongKeeps | src/main/java/com/driver/SpotifyRepository.java:71-73 | A new song with no likes is filed under one album and adds nothing to any artist's credited likes. |
| Preservation.CreateSongKeeps | src/main/java/com/driver/SpotifyRepository.java:65-75 | createSong keeps the invariant. |
| Catalog.UserByMobile | src/main/java/com/driver/SpotifyRepository.java:78-81 | The id of the first user with the mobile; None exactly when no user has it. |
| Catalog.SongsOfLength | src/main/java/com/driver/SpotifyRepository.java:83-85 | Exactly the ids of the songs of that length, in ascending (creation) order. |
| Catalog.SongsTitled | src/main/java/com/driver/SpotifyRepository.java:101-103 | Exactly the ids of the songs whose title is listed, in creation order, each once. |
| Spotify.SpotifyRepository.CreatePlaylistOnLength | src/main/java/com/driver/SpotifyRepository.java:77-93 | Fails with UserNotFound when no user has the mobile; otherwise registers the playlist of all songs of that length; the invariant is kept. |
| Spotify.SpotifyRepository.CreatePlaylistOnName | src/main/java/com/driver/SpotifyRepository.java:95-111 | Fails with UserNotFound when no user has the mobile; otherwise registers the playlist of all songs with a listed title; the invariant is kept. |
| Spotify.SpotifyRepository.RegisterPlaylist | src/main/java/com/driver/SpotifyRepository.java:87-92 | Appends the playlist, sets its songs, sets its creator as sole listener, and records it as the creator's latest playlist. |
| Effects.CreatePlaylistFails | src/main/java/com/driver/SpotifyRepository.java:77-111 | Both builders fail exactly when no user has the mobile; they then report UserNotFound with that mobile and change nothing. |
| Effects.CreatePlaylistOnLengthEffect | src/main/java/com/driver/SpotifyRepository.java:77-93 | For the first user with the mobile, the playlist list grows by one. The new playlist holds exactly the songs of that length, in creation order, and its listeners are exactly [user]. creatorPlaylist[user] is overwritten; no other playlist, listener list or latest entry changes, and every other field of the store stays as it was. |
| Effects.CreatePlaylistOnNameEffect | src/main/java/com/driver/SpotifyRepository.java:95-111 | The same for the name builder: the new playlist holds exactly the songs whose title is listed, in creation order and without repeats; the rest of the store changes as for the length builder. |
| Preservation.AddPlaylistLists | src/main/java/com/driver/SpotifyRepository.java:87-90 | The new playlist's songs are existing songs in ascending order, and its creator is its first and only listener. |
| Preservation.AddPlaylistLatest | src/main/java/com/driver/SpotifyRepository.java:91 | After put(user, playlist) each creator's entry is still their latest playlist. |
| Preservation.AddPlaylistKeeps | src/main/java/com/driver/SpotifyRepository.java:87-92 | Registering a playlist keeps the invariant. |
| Preservation.CreatePlaylistOnLengthKeeps | src/main/java/com/driver/SpotifyRepository.java:77-93 | createPlaylistOnLength keeps the invariant. |
| Preservation.CreatePlaylistOnNameKeeps | src/main/java/com/driver/SpotifyRepository.java:95-111 | createPlaylistOnName keeps the invariant. |
| Catalog.PlaylistByTitle | src/main/java/com/driver/SpotifyRepository.java:119-122 | The id of the first playlist with the title; None exactly when no playlist has it. |
| Spotify.SpotifyRepository.FindPlaylist | src/main/java/com/driver/SpotifyRepository.java:113-129 | Fails with UserNotFound, then PlaylistNotFound, changing nothing. Otherwise appends the user to the playlist's listeners unless already there. The invariant is kept. |
| Spotify.SpotifyRepository.AddListener | src/main/java/com/driver/SpotifyRepository.java:124-127 | Appends the user to the playlist's listener list. |
| Effects.FindPlaylistFails | src/main/java/com/driver/SpotifyRepository.java:113-122 | findPlaylist fails exactly when no user has the mobile or no playlist has the title, and then changes nothing. A missing user gives UserNotFound(mobile); a known user with no such playlist gives PlaylistNotFound(title). |
| Effects.FindPlaylistJoins | src/main/java/com/driver/SpotifyRepository.java:113-129 | On success the first matching playlist is returned. The user is appended to its listeners exactly when not already there; every other table and list stays unchanged. |
| Effects.FindPlaylistIdempotent | src/main/java/com/driver/SpotifyRepository.java:124-127 | A second identical findPlaylist returns the same result and changes nothing. |
| Preservation.AddListenerKeeps | src/main/java/com/driver/SpotifyRepository.java:124-127 | Appending an absent user keeps the listener list free of duplicates and its creator first. |
| Preservation.FindPlaylistKeeps | src/main/java/com/driver/SpotifyRepository.java:113-129 | findPlaylist keeps the invariant: no duplicate listener, the creator stays first. |
| Catalog.SongByTitle | src/main/java/com/driver/SpotifyRepository.java:137-140 | The id of the first song with the title; None exactly when no song has it. |
| Lookup.FirstKeyContaining | src/main/java/com/driver/SpotifyRepository.java:148-152 | The first key, in ascending order, whose list contains the item; None exactly when no key below the bound holds it. |
| Lookup.PartitionFind | src/main/java/com/driver/SpotifyRepository.java:148-159 | When a table files each item under one key, the scan finds that key, and no other key holds the item. The result therefore does not depend on the order in which the HashMap is iterated. |
| Spotify.SpotifyRepository.LikeSong | src/main/java/com/driver/SpotifyRepository.java:131-167 | Fails with UserNotFound, then SongNotFound, changing nothing; a repeat like returns the song and changes nothing. Otherwise it records the like and credits the artist. The invariant is kept. |
| Spotify.SpotifyRepository.RecordLike | src/main/java/com/driver/SpotifyRepository.java:142-145 | Appends the user to the song's likers and raises the song's like counter by one. |
| Spotify.SpotifyRepository.CreditArtistOf | src/main/java/com/driver/SpotifyRepository.java:147-164 | Raises the like counter of the artist found by the two table scans, and does nothing when either scan finds nothing. |
| Effects.LikeSongFails | src/main/java/com/driver/SpotifyRepository.java:131-140 | likeSong fails exactly when no user has the mobile or no song has the title, and then changes nothing. A missing user gives UserNotFound(mobile); a known user with no such song gives SongNotFound(title). |
| Effects.LikeSongFirst | src/main/java/com/driver/SpotifyRepository.java:142-165 | A first like on the first matching song records the like, then credits the artist. |
| Effects.LikeSongOwner | src/main/java/com/driver/SpotifyRepository.java:142-163 | In a store where albums and songs are filed once, a first like raises the counter of the artist owning the song's album. |
| Effects.LikeSongCredits | src/main/java/com/driver/SpotifyRepository.java:142-165 | A first like adds the user to the song's likers. It adds one like to the song and one to the artist of the album that holds it. All other counters, liker lists and tables stay unchanged. |
| Effects.LikeSongRepeat | src/main/java/com/driver/SpotifyRepository.java:142-143 | A like by a user who already liked the song returns it and changes nothing. |
| Effects.LikeSongIdempotent | src/main/java/com/driver/SpotifyRepository.java:131-167 | A second identical likeSong returns the same result and changes nothing, so two likes raise the counters by at most one. This holds for every store. |
| Effects.LikedFields | src/main/java/com/driver/SpotifyRepository.java:142-164 | Recording a like and crediting an artist change exactly three things: the song's likers list gains the user, that song's counter goes up by one and that artist's counter goes up by one. No other liker list, song or artist changes, and neither does any other field. |
| Effects.CreditArtistFrame | src/main/java/com/driver/SpotifyRepository.java:147-164 | The artist-credit step changes only the artists' like counters: the artist list keeps its length and names, and every other field stays as it was. |
| Preservation.AddLikeKeepsLikers | src/main/java/com/driver/SpotifyRepository.java:142-145 | After a new like every song's like counter still equals the length of its duplicate-free liker list. |
| Preservation.LikeCreditsOwner | src/main/java/com/driver/SpotifyRepository.java:148-163 | The scans after a like find the song's album and that album's artist, so exactly that artist gets one more like. |
| Preservation.LikeKeepsArtistLikes | src/main/java/com/driver/SpotifyRepository.java:144-163 | After a like each artist's counter still equals the total likes of the songs on its albums. |
| Preservation.LikeSongKeeps | src/main/java/com/driver/SpotifyRepository.java:131-167 | likeSong keeps the invariant. |
| Credits.CreditedAppend | src/main/java/com/driver/SpotifyRepository.java:71-73 | A new song adds its likes to its own artist's total and nothing to the other artists. |
| Credits.CreditedNewAlbum | src/main/java/com/driver/SpotifyRepository.java:59-61 | Filing a new album changes no artist's total. |
| Credits.CreditedNoAlbums | src/main/java/com/driver/SpotifyRepository.java:47-51 | An artist that owns no album is credited with no likes. |
| Credits.CreditedLike | src/main/java/com/driver/SpotifyRepository.java:145-162 | One more like on a song adds one to the total of that song's artist and to no other. |
| Catalog.Empty | src/main/java/com/driver/SpotifyRepository.java:24-39 | The value model of the constructor: every list and table empty. Its properties are stated by the Effects, Preservation and Scenario lemmas. |
| Catalog.CreateUser | src/main/java/com/driver/SpotifyRepository.java:41-45 | The value model of createUser: User(name, mobile) appended, its index returned. Its properties are stated by the Effects, Preservation and Scenario lemmas. |
| Catalog.CreateArtist | src/main/java/com/driver/SpotifyRepository.java:47-51 | The value model of createArtist: an artist with no likes appended, its index returned. Its properties are stated by the Effects, Preservation and Scenario lemmas. |
| Catalog.ArtistNamed | src/main/java/com/driver/SpotifyRepository.java:54-57 | The first artist with the name, or a newly created one when there is none (orElseGet). Its properties are stated by the Effects, Preservation and Scenario lemmas. |
| Catalog.AddAlbum | src/main/java/com/driver/SpotifyRepository.java:59-61 | The album appended and added to the end of its artist's album list. Its properties are stated by the Effects, Preservation and Scenario lemmas. |
| Catalog.CreateAlbum | src/main/java/com/driver/SpotifyRepository.java:53-63 | The value model of createAlbum: find or create the artist, then file the new album under it. Its properties are stated by the Effects, Preservation and Scenario lemmas. |
| Catalog.AddSong | src/main/java/com/driver/SpotifyRepository.java:71-73 | A song with no likes appended and added to the end of its album's song list. Its properties are stated by the Effects, Preservation and Scenario lemmas. |
| Catalog.CreateSong | src/main/java/com/driver/SpotifyRepository.java:65-75 | The value model of createSong: AlbumNotFound with the store unchanged, or the song filed under the first album with the title. Its properties are stated by the Effects, Preservation and Scenario lemmas. |
| Catalog.AddPlaylist | src/main/java/com/driver/SpotifyRepository.java:87-92 | The playlist appended with its songs, its creator as only listener, and as its creator's latest playlist. Its properties are stated by the Effects, Preservation and Scenario lemmas. |
| Catalog.CreatePlaylistOnLength | src/main/java/com/driver/SpotifyRepository.java:77-93 | The value model of createPlaylistOnLength: UserNotFound with the store unchanged, or a playlist of the songs of that length. Its properties are stated by the Effects, Preservation and Scenario lemmas. |
| Catalog.CreatePlaylistOnName | src/main/java/com/driver/SpotifyRepository.java:95-111 | The value model of createPlaylistOnName: UserNotFound with the store unchanged, or a playlist of the songs with a listed title. Its properties are stated by the Effects, Preservation and Scenario lemmas. |
| Catalog.FindPlaylist | src/main/java/com/driver/SpotifyRepository.java:113-129 | The value model of findPlaylist: UserNotFound, then PlaylistNotFound, or the user appended to the listeners unless already there. Its properties are stated by the Effects, Preservation and Scenario lemmas. |
| Catalog.AddListener | src/main/java/com/driver/SpotifyRepository.java:124-127 | The user appended to the playlist's listener list. Its properties are stated by the Effects, Preservation and Scenario lemmas. |
| Catalog.AddLike | src/main/java/com/driver/SpotifyRepository.java:142-145 | The user appended to the song's likers and the song's like counter raised by one. Its properties are stated by the Effects, Preservation and Scenario lemmas. |
| Catalog.CreditArtist | src/main/java/com/driver/SpotifyRepository.java:147-164 | The two table scans and the artist's like counter raised by one; the store unchanged when either scan finds nothing. Its properties are stated by the Effects, Preservation and Scenario lemmas. |
| Catalog.LikeSong | src/main/java/com/driver/SpotifyRepository.java:131-167 | The value model of likeSong: UserNotFound, then SongNotFound, the store unchanged on a repeat like, otherwise AddLike then CreditArtist. Its properties are stated by the Effects, Preservation and Scenario lemmas. |
| Lookup.FirstMatch | src/main/java/com/driver/SpotifyRepository.java:54-57 | The first index whose element satisfies the predicate; None exactly when none does. |
| Lookup.Filter | src/main/java/com/driver/SpotifyRepository.java:83-85 | Exactly the indices whose elements satisfy the predicate, in ascending order. |
| Lookup.FirstMax | src/main/java/com/driver/SpotifyRepository.java:169-174 | An index of a maximal key; every earlier element has a strictly smaller key, as when max keeps the first on ties. |
| Lookup.PartitionAppend | src/main/java/com/driver/SpotifyRepository.java:61 | computeIfAbsent(k).add(item) with a fresh item keeps every item filed under exactly one key. |
| Catalog.MostPopularArtist | src/main/java/com/driver/SpotifyRepository.java:169-174 | None exactly when there is no artist. Otherwise the name of an artist with the most likes, and every earlier artist has strictly fewer. |
| Catalog.MostPopularSong | src/main/java/com/driver/SpotifyRepository.java:176-181 | None exactly when there is no song. Otherwise the title of a song with the most likes, and every earlier song has strictly fewer. |
| Spotify.SpotifyRepository.MostPopularArtist | src/main/java/com/driver/SpotifyRepository.java:169-174 | Returns the most popular artist's name as above and changes nothing. |
| Spotify.SpotifyRepository.MostPopularSong | src/main/java/com/driver/SpotifyRepository.java:176-181 | Returns the most popular song's title as above and changes nothing. |
| Scenario.SetupReached | src/main/java/com/driver/SpotifyRepository.java:41-75 | createUser, createAlbum("Album1", "Test") with a new artist, then createSong("S1", "Album1", 200) give a store in which S1 is filed under Album1 and Album1 under Test. |
| Scenario.SetupConsistent | src/main/java/com/driver/SpotifyRepository.java:41-75 | That store satisfies the invariant. |
| Scenario.LikeTwice | src/main/java/com/driver/SpotifyRepository.java:131-167 | The user's first like of S1 gives S1 one like and artist Test one like; the second like returns S1 and changes nothing. |

## Left out

- The Spring `@Repository` annotation (lines 6-8) and the class's use as a
  bean are left out: they do not affect behaviour.
- Exception messages ("Album does not exist" and so on) are not modelled. A
  failure is the `Error` case saying which lookup failed, with its key.
- HashMap iteration order is not modelled. The `entrySet` scans of `likeSong`
  are modelled as ascending-key scans. `Lookup.PartitionFind` shows that in
  every consistent store at most one key holds the song or album, so no
  iteration order gives a different result.
- Java `int` overflow of the like counters is not modelled: `likes` is an
  unbounded `int`. A counter reaching 2^31 - 1 would wrap in Java.
- Aliasing is modelled as map updates. In Java, `computeIfAbsent` and `get`
  return the list stored in the table, and `add` changes it in place. The
  model writes the extended list back into the table. Every such list belongs
  to one table entry, so the two agree.
- Spotify.SpotifyRepository.FindPlaylist: reads the listener list with
  `playlistListenerMap[playlist]`, which needs `Valid()`.
  - The invariant gives every registered playlist such an entry, so Java's
    NullPointerException on a missing entry cannot occur.
  - Stores that do not satisfy the invariant are outside the model.
- The operations return ids, not the live entity objects the Java methods
  return (`return user`, `return song`, ...), and the model has no way to
  write the store except through its operations. In Java all twelve fields
  are `public` and the entities have public setters. A caller can therefore
  call `song.setLikes(7)`, change a lookup key such as a title or mobile,
  or clear a table (after `playlistListenerMap.clear()` a later
  `findPlaylist` throws a NullPointerException at line 125). The model
  assumes callers do none of this. Without that assumption the Java store
  does not guarantee the invariant (for example `likes == |likers|`).
- The `requires Valid()` on the class methods is the class invariant. The
  constructor establishes it and every state-changing method keeps it. So,
  under the assumption above that callers change the store only through
  its operations, every repository built through the class satisfies it.
  The Java methods have no precondition.
- The entity classes (`User`, `Artist`, `Album`, `Song`, `Playlist`) are not
  part of this model. They are taken to be plain records:
  - constructors store their arguments;
  - like counters start at 0;
  - getters and setters read and write the stored fields;
  - `equals` and `hashCode` are the inherited reference identity.
- `userPlaylistMap` is never written by the repository. It is a field of the
  class, and the invariant states that it stays empty.
- `albumOwner`, `songAlbum` and `playlistCreator` are ghost bookkeeping
  fields with no Java counterpart.
  - `albumOwner` records the artist each album was filed under.
  - `songAlbum` records the album each song was filed under.
  - `playlistCreator` records the creator of each playlist.
  - They state the invariant, including the artist like totals, which the
    Java code only maintains implicitly.
- Null arguments are not modelled. Dafny strings cannot be null, while Java
  accepts a null name, title or mobile. For example, after `createArtist(null)`
  every later artist scan throws a NullPointerException when it calls
  `getName().equals(..)` on that artist (line 55).
- Thread-safety: the store is single-threaded. Concurrent callers are not
  modelled.
