/**
 * The entities of `ad_server/models.py`, their uniqueness and non-null
 * constraints, and `BaseModel.to_dict`.
 *
 * Relationship collections that the views and the importer use
 * (`album.artists`, `album.genres`, `playlist.songs`) are kept on the owning
 * record as ordered id sequences; they stand for the junction tables.
 */
module Models {
  import opened Wrappers
  import opened Http
  import opened Dicts

  /** `app_user`: `login` is NOT NULL and unique. */
  datatype User = User(id: int, login: string, passHash: string)

  /** `song`: `artist_id` and `album_id` are NOT NULL, so they are plain ids here. */
  datatype Song = Song(
    id: int,
    title: string,
    filePath: string,
    duration: Option<int>,
    albumPosition: Option<int>,
    listensCount: Option<int>,
    artistId: int,
    albumId: int,
    genreId: Option<int>)

  /** `artist`: `title` is unique. */
  datatype Artist = Artist(id: int, title: string)

  /** `album`, with its artist and genre memberships in insertion order. */
  datatype Album = Album(
    id: int,
    title: string,
    year: Option<int>,
    coverSmall: Option<string>,
    coverMedium: Option<string>,
    artists: seq<int>,
    genres: seq<int>)

  /** `genre`: the id is unique, the title is not. */
  datatype Genre = Genre(id: int, title: string)

  /** `playlist`, with its songs in the order they were added. */
  datatype Playlist = Playlist(
    id: int,
    title: string,
    songCount: Option<int>,
    userId: Option<int>,
    songs: seq<int>)

  /** `album_artist`: unique on (artist_id, album_id). */
  datatype AlbumArtist = AlbumArtist(id: int, artistId: Option<int>, albumId: Option<int>)

  /** `playlist_song` */
  datatype PlaylistSong = PlaylistSong(
    id: int,
    playlistId: Option<int>,
    songId: Option<int>,
    songPosition: Option<int>)

  /** No two users share a login. */
  predicate UniqueLogins(users: map<int, User>) {
    forall a, b :: a in users && b in users && users[a].login == users[b].login ==> a == b
  }

  /** Some user has this login. */
  predicate LoginTaken(users: map<int, User>, login: string) {
    exists id :: id in users && users[id].login == login
  }

  /** `User.query.filter_by(login=login).first()`; logins are unique, so the match is the only one. */
  function FindByLogin(users: map<int, User>, login: string): (u: Option<User>)
    requires UniqueLogins(users)
    ensures u.Some? <==> LoginTaken(users, login)
    ensures u.Some? ==> exists id :: id in users && users[id] == u.value && u.value.login == login
  {
    if LoginTaken(users, login) then
      var id :| id in users && users[id].login == login;
      Some(users[id])
    else None
  }

  /** No two artists share a title. */
  predicate UniqueArtistTitles(artists: map<int, Artist>) {
    forall a, b :: a in artists && b in artists && artists[a].title == artists[b].title ==> a == b
  }

  predicate NoDuplicates<T(==)>(s: seq<T>) {
    forall i, j :: 0 <= i < j < |s| ==> s[i] != s[j]
  }

  /**
   * The table-level constraint of `album_artist`: two rows with both
   * columns set never name the same pair (SQL treats NULLs as distinct).
   */
  predicate UniqueAlbumArtistPairs(rows: seq<AlbumArtist>) {
    forall i, j :: 0 <= i < j < |rows| && rows[i].artistId.Some? && rows[i].albumId.Some? ==>
      (rows[i].artistId, rows[i].albumId) != (rows[j].artistId, rows[j].albumId)
  }

  /** The `album_artist` rows that an album's artist list stands for, numbered from `firstId`. */
  function AlbumArtistRows(albumId: int, artists: seq<int>, firstId: int): (rows: seq<AlbumArtist>)
    ensures |rows| == |artists|
    ensures forall i :: 0 <= i < |rows| ==>
              rows[i] == AlbumArtist(firstId + i, Some(artists[i]), Some(albumId))
  {
    seq(|artists|, i requires 0 <= i < |artists| => AlbumArtist(firstId + i, Some(artists[i]), Some(albumId)))
  }

  /** An album's artist list satisfies the junction's unique constraint exactly when it repeats no artist. */
  lemma AlbumArtistRowsUnique(albumId: int, artists: seq<int>, firstId: int)
    ensures UniqueAlbumArtistPairs(AlbumArtistRows(albumId, artists, firstId)) <==> NoDuplicates(artists)
  {
    var rows := AlbumArtistRows(albumId, artists, firstId);
    if !NoDuplicates(artists) {
      var i, j :| 0 <= i < j < |artists| && artists[i] == artists[j];
      assert (rows[i].artistId, rows[i].albumId) == (rows[j].artistId, rows[j].albumId);
    }
  }

  // ---------------------------------------------------------------------
  // BaseModel.to_dict
  // ---------------------------------------------------------------------

  /** What `getattr(self, attr)` gives: a callable, or a plain value. */
  datatype AttrValue = Plain(v: Json) | Callable

  /** One key of the class's own `__dict__`, with the instance's value for it. */
  datatype ClassAttr = ClassAttr(name: string, value: AttrValue)

  predicate IsPrivate(name: string) {
    |name| > 0 && name[0] == '_'
  }

  /** An attribute that `to_dict` copies: not underscored, not callable. */
  predicate Exported(a: ClassAttr) {
    !IsPrivate(a.name) && a.value.Plain?
  }

  /** The `d[attr] = val` assignments that `to_dict` performs, in order. */
  function ExportedPairs(attrs: seq<ClassAttr>): seq<(string, Json)> {
    if attrs == [] then []
    else
      var last := attrs[|attrs| - 1];
      ExportedPairs(attrs[..|attrs| - 1]) + (if Exported(last) then [(last.name, last.value.v)] else [])
  }

  /**
   * `BaseModel.to_dict`: walk the class's own attribute names, skip the
   * underscored ones and the callable ones, copy the rest.
   */
  method ToDict(attrs: seq<ClassAttr>) returns (d: map<string, Json>)
    ensures d == Assign(map[], ExportedPairs(attrs))
  {
    d := map[];
    var i := 0;
    while i < |attrs|
      invariant 0 <= i <= |attrs|
      invariant d == Assign(map[], ExportedPairs(attrs[..i]))
    {
      var attr := attrs[i];
      assert attrs[..i + 1][..i] == attrs[..i];
      assert ExportedPairs(attrs[..i + 1]) ==
        ExportedPairs(attrs[..i]) + (if Exported(attr) then [(attr.name, attr.value.v)] else []);
      if IsPrivate(attr.name) {
        assert ExportedPairs(attrs[..i + 1]) == ExportedPairs(attrs[..i]) + [];
        assert ExportedPairs(attrs[..i]) + [] == ExportedPairs(attrs[..i]);
        i := i + 1;
        continue;
      }
      var val := attr.value;
      if val.Callable? {
        assert ExportedPairs(attrs[..i]) + [] == ExportedPairs(attrs[..i]);
        i := i + 1;
        continue;
      }
      AssignSnoc(map[], ExportedPairs(attrs[..i]), (attr.name, val.v));
      d := d[attr.name := val.v];
      i := i + 1;
    }
    assert attrs[..i] == attrs;
  }

  /** The pairs `to_dict` assigns are exactly the exported attributes, in order. */
  lemma {:induction false} ExportedPairsMembers(attrs: seq<ClassAttr>)
    ensures forall p :: p in ExportedPairs(attrs) <==>
              exists i :: 0 <= i < |attrs| && Exported(attrs[i]) && p == (attrs[i].name, attrs[i].value.v)
  {
    if attrs != [] {
      var init := attrs[..|attrs| - 1];
      ExportedPairsMembers(init);
      forall p | (exists i :: 0 <= i < |attrs| && Exported(attrs[i]) && p == (attrs[i].name, attrs[i].value.v))
        ensures p in ExportedPairs(attrs)
      {
        var i :| 0 <= i < |attrs| && Exported(attrs[i]) && p == (attrs[i].name, attrs[i].value.v);
        if i < |attrs| - 1 {
          assert init[i] == attrs[i];
        }
      }
      forall p | p in ExportedPairs(attrs)
        ensures exists i :: 0 <= i < |attrs| && Exported(attrs[i]) && p == (attrs[i].name, attrs[i].value.v)
      {
        if p in ExportedPairs(init) {
          var i :| 0 <= i < |init| && Exported(init[i]) && p == (init[i].name, init[i].value.v);
          assert attrs[i] == init[i];
        }
      }
    }
  }

  /**
   * What `to_dict` returns: a key for every own class attribute that is
   * neither underscored nor callable, and no other key; when the names are
   * distinct (as the keys of a `__dict__` are), each key maps to that
   * attribute's current value.
   */
  lemma ToDictContents(attrs: seq<ClassAttr>)
    ensures forall k :: k in Assign(map[], ExportedPairs(attrs)) <==>
              exists i :: 0 <= i < |attrs| && attrs[i].name == k && Exported(attrs[i])
    ensures (forall i, j :: 0 <= i < j < |attrs| ==> attrs[i].name != attrs[j].name) ==>
              forall i :: 0 <= i < |attrs| && Exported(attrs[i]) ==>
                Assign(map[], ExportedPairs(attrs))[attrs[i].name] == attrs[i].value.v
  {
    var pairs := ExportedPairs(attrs);
    ExportedPairsMembers(attrs);
    AssignKeys(map[], pairs);
    forall k ensures k in KeysOf(pairs) <==> exists i :: 0 <= i < |attrs| && attrs[i].name == k && Exported(attrs[i]) {
      if k in KeysOf(pairs) {
        var j :| 0 <= j < |pairs| && pairs[j].0 == k;
        assert pairs[j] in pairs;
      }
      if exists i :: 0 <= i < |attrs| && attrs[i].name == k && Exported(attrs[i]) {
        var i :| 0 <= i < |attrs| && attrs[i].name == k && Exported(attrs[i]);
        var p := (attrs[i].name, attrs[i].value.v);
        assert p in pairs;
        var j :| 0 <= j < |pairs| && pairs[j] == p;
      }
    }
    if forall i, j :: 0 <= i < j < |attrs| ==> attrs[i].name != attrs[j].name {
      forall i | 0 <= i < |attrs| && Exported(attrs[i])
        ensures Assign(map[], pairs)[attrs[i].name] == attrs[i].value.v
      {
        var k := attrs[i].name;
        var p := (k, attrs[i].value.v);
        assert p in pairs;
        var j :| 0 <= j < |pairs| && pairs[j] == p;
        ExportedNamesDistinct(attrs);
        assert IsLastFor(pairs, k, j);
        AssignLastWins(map[], pairs, k, j);
      }
    }
  }

  /** With distinct attribute names, `to_dict` assigns each key once. */
  lemma {:induction false} ExportedNamesDistinct(attrs: seq<ClassAttr>)
    requires forall a, b :: 0 <= a < b < |attrs| ==> attrs[a].name != attrs[b].name
    ensures forall j, j' :: 0 <= j < j' < |ExportedPairs(attrs)| ==>
              ExportedPairs(attrs)[j].0 != ExportedPairs(attrs)[j'].0
  {
    if attrs != [] {
      var init := attrs[..|attrs| - 1];
      var last := attrs[|attrs| - 1];
      var pi := ExportedPairs(init);
      ExportedNamesDistinct(init);
      if Exported(last) {
        ExportedPairsMembers(init);
        forall j | 0 <= j < |pi| ensures pi[j].0 != last.name {
          assert pi[j] in pi;
          var a :| 0 <= a < |init| && Exported(init[a]) && pi[j] == (init[a].name, init[a].value.v);
          assert init[a] == attrs[a];
        }
      }
    }
  }
}
