/**
 * The relational store the views and the importer work on, as in-memory
 * tables. Primary keys are handed out from counters, as the database's
 * sequences do; the invariant `Valid` gathers the schema's key, uniqueness
 * and foreign-key constraints.
 */
module Database {
  import opened Wrappers
  import opened Models

  /**
   * A row of `refresh_token`: the token string is the primary key, and the
   * expiry is an opaque timestamp.
   */
  datatype RefreshRow = RefreshRow(userId: int, expiration: int)

  /** The music catalog: songs, artists, albums and genres, and the next free id. */
  datatype Catalog = Catalog(
    songs: map<int, Song>,
    artists: map<int, Artist>,
    albums: map<int, Album>,
    genres: map<int, Genre>,
    nextId: int)

  predicate SongsKeyed(c: Catalog) {
    forall id :: id in c.songs ==> 0 < id < c.nextId && c.songs[id].id == id
  }

  predicate ArtistsKeyed(c: Catalog) {
    forall id :: id in c.artists ==> 0 < id < c.nextId && c.artists[id].id == id
  }

  predicate AlbumsKeyed(c: Catalog) {
    forall id :: id in c.albums ==> 0 < id < c.nextId && c.albums[id].id == id
  }

  predicate GenresKeyed(c: Catalog) {
    forall id :: id in c.genres ==> 0 < id < c.nextId && c.genres[id].id == id
  }

  /**
   * Every album's artists and genres exist, and the album lists each artist
   * once (`album_artist`'s unique pair). No constraint on the album's
   * genres is declared, so a genre may be listed twice.
   */
  predicate AlbumLinksValid(c: Catalog) {
    forall a :: a in c.albums ==>
      && NoDuplicates(c.albums[a].artists)
      && (forall i :: 0 <= i < |c.albums[a].artists| ==> c.albums[a].artists[i] in c.artists)
      && (forall i :: 0 <= i < |c.albums[a].genres| ==> c.albums[a].genres[i] in c.genres)
  }

  /** A song's NOT NULL artist and album keys name existing rows. */
  predicate SongLinksValid(c: Catalog) {
    forall s :: s in c.songs ==> c.songs[s].artistId in c.artists && c.songs[s].albumId in c.albums
  }

  predicate CatalogValid(c: Catalog) {
    && c.nextId > 0
    && SongsKeyed(c) && ArtistsKeyed(c) && AlbumsKeyed(c) && GenresKeyed(c)
    && UniqueArtistTitles(c.artists)
    && AlbumLinksValid(c)
    && SongLinksValid(c)
  }

  const EmptyCatalog := Catalog(map[], map[], map[], map[], 1)

  class Db {
    var users: map<int, User>
    var nextUserId: int
    var playlists: map<int, Playlist>
    var nextPlaylistId: int
    var catalog: Catalog
    var tokens: map<string, RefreshRow>

    ghost predicate Valid()
      reads this
    {
      && nextUserId > 0
      && (forall id :: id in users ==> 0 < id < nextUserId && users[id].id == id)
      && UniqueLogins(users)
      && nextPlaylistId > 0
      && (forall id :: id in playlists ==> 0 < id < nextPlaylistId && playlists[id].id == id)
      && CatalogValid(catalog)
      && PlaylistSongsExist(playlists, catalog)
    }

    constructor ()
      ensures Valid()
      ensures users == map[] && playlists == map[] && tokens == map[]
      ensures catalog == EmptyCatalog
    {
      users := map[];
      nextUserId := 1;
      playlists := map[];
      nextPlaylistId := 1;
      catalog := EmptyCatalog;
      tokens := map[];
    }
  }

  /** `playlist_song.song_id` references `song`. */
  predicate PlaylistSongsExist(playlists: map<int, Playlist>, c: Catalog) {
    forall p, i :: p in playlists && 0 <= i < |playlists[p].songs| ==> playlists[p].songs[i] in c.songs
  }
}
