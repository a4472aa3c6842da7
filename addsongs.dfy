/**
 * The importer of `ad_server/utils/addsongs.py`: every `.mp3` file of a
 * folder becomes a song of the catalog, with its artists, album and genres
 * found by title or created.
 *
 * Directory listing, tag reading, the splitting of tag text into names and
 * the last.fm lookups are not part of this model: each file arrives as a
 * `TrackFile` carrying what they produced. Moving the file is not modelled;
 * the importer reports the destination paths instead.
 */
module AddSongs {
  import opened Wrappers
  import opened PyText
  import opened Http
  import opened Models
  import opened Database

  /** The result of a last.fm lookup: the data asked for, or the `ConnectionError` it raises. */
  datatype Lookup<T> = Found(value: T) | ConnectionError

  /** One directory entry, with what the importer reads from it. */
  datatype TrackFile = TrackFile(
    name: string,                       // the entry name from `os.listdir`
    isFile: bool,                       // `os.path.isfile`
    titleTag: Option<string>,           // first value of the `title` tag
    trackTag: Option<string>,           // first value of the `tracknumber` tag
    duration: Option<int>,              // `info.length`, kept opaque
    genreTitles: Option<seq<string>>,   // the genre tag split into names
    artistTitles: Option<seq<string>>,  // the artist tag split into names
    albumTag: Option<string>,           // first value of the `album` tag
    trackLookup: Lookup<string>,        // the album title the track lookup gives
    albumLookup: Lookup<(string, string)>) // the small and medium cover URLs

  /**
   * How `.first()` chooses among the rows a query matches: the database's
   * choice, which is an input here, constrained to return a match exactly
   * when there is one.
   */
  type Pick = set<int> -> Option<int>

  ghost predicate IsPick(pick: Pick) {
    forall s: set<int> :: (pick(s).Some? <==> s != {}) && (pick(s).Some? ==> pick(s).value in s)
  }

  // ---------------------------------------------------------------------
  // Skip rules and the track number
  // ---------------------------------------------------------------------

  /** The first filter: a regular file whose extension is `.mp3`. */
  predicate IsAudioFile(f: TrackFile) {
    f.isFile && Extension(f.name) == ".mp3"
  }

  /** The second filter: a title and at least one artist name. */
  predicate HasTags(f: TrackFile) {
    Truthy(f.titleTag) && f.artistTitles.Some? && f.artistTitles.value != []
  }

  /**
   * `tracknumber and int(tracknumber.split('/')[0])`: no tag gives no
   * position; text that is not an integer raises `ValueError`.
   */
  function TrackNumber(tag: Option<string>): Result<Option<int>, PyException> {
    match tag
    case None => Ok(None)
    case Some(t) =>
      match ParseInt(BeforeFirst(t, '/'))
      case None => Err(ValueError)
      case Some(n) => Ok(Some(n))
  }

  /** A `n/total` track tag gives position `n`, whatever the total says. */
  lemma TrackOfTotal(n: nat, total: string)
    ensures TrackNumber(Some(IntToString(n) + "/" + total)) == Ok(Some(n))
  {
    var digits := IntToString(n);
    assert '/' !in digits by {
      forall k | 0 <= k < |digits| ensures digits[k] != '/' {
        assert IsDigit(digits[k]);
      }
    }
    assert digits + "/" + total == digits + ['/'] + total;
    BeforeFirstOfJoined(digits, '/', total);
    IntToStringRoundTrip(n);
  }

  /** A track tag that begins with a letter stops the import with `ValueError`. */
  lemma LetterTrackFails(t: string)
    requires t != [] && 'a' <= t[0] <= 'z'
    ensures TrackNumber(Some(t)) == Err(ValueError)
  {
    var head := BeforeFirst(t, '/');
    assert head != [] && head[0] == t[0];
    LetterIsNotInt(head);
  }

  // ---------------------------------------------------------------------
  // Get-or-create by title
  // ---------------------------------------------------------------------

  predicate ArtistTitleTaken(artists: map<int, Artist>, title: string) {
    exists id :: id in artists && artists[id].title == title
  }

  lemma TitleTakenBy(artists: map<int, Artist>, id: int, title: string)
    requires id in artists && artists[id].title == title
    ensures ArtistTitleTaken(artists, title)
  {
  }

  /** `Artist.query.filter_by(title=t).first()`; artist titles are unique, so there is at most one. */
  function FindArtist(artists: map<int, Artist>, title: string): (r: Option<int>)
    requires UniqueArtistTitles(artists)
    ensures r.Some? <==> ArtistTitleTaken(artists, title)
    ensures r.Some? ==> r.value in artists && artists[r.value].title == title
  {
    if ArtistTitleTaken(artists, title) then
      var id :| id in artists && artists[id].title == title;
      Some(id)
    else None
  }

  /** The ids of the genres with this title (titles of genres are not unique). */
  function GenresTitled(genres: map<int, Genre>, title: string): set<int> {
    set id | id in genres && genres[id].title == title
  }

  /** Every row of `m` is still in `m'`, unchanged. */
  predicate Grows<T(==)>(m: map<int, T>, m': map<int, T>) {
    forall id :: id in m ==> id in m' && m'[id] == m[id]
  }

  lemma GrowsHas<T>(m: map<int, T>, m': map<int, T>, id: int)
    requires Grows(m, m') && id in m
    ensures id in m' && m'[id] == m[id]
  {
  }

  /** Albums keep everything but may gain genres at the end of their lists. */
  predicate AlbumsGrow(albums: map<int, Album>, albums': map<int, Album>) {
    forall id :: id in albums ==>
      && id in albums'
      && albums'[id].(genres := []) == albums[id].(genres := [])
      && albums[id].genres <= albums'[id].genres
  }

  /**
   * Existing rows survive: artists, genres and songs unchanged, albums
   * unchanged except that their genre lists may grow at the end.
   */
  predicate Extends(c: Catalog, c': Catalog) {
    && c.nextId <= c'.nextId
    && Grows(c.artists, c'.artists)
    && Grows(c.genres, c'.genres)
    && Grows(c.songs, c'.songs)
    && AlbumsGrow(c.albums, c'.albums)
  }

  lemma ExtendsTransitive(c1: Catalog, c2: Catalog, c3: Catalog)
    requires Extends(c1, c2) && Extends(c2, c3)
    ensures Extends(c1, c3)
  {
    forall id | id in c1.albums
      ensures c1.albums[id].genres <= c3.albums[id].genres
      ensures c3.albums[id].(genres := []) == c1.albums[id].(genres := [])
    {
      var g1, g2, g3 := c1.albums[id].genres, c2.albums[id].genres, c3.albums[id].genres;
      assert g3[..|g1|] == g2[..|g1|] == g1;
    }
  }

  /** The artist table of a valid catalog, grown by fresh artists with unique titles, gives a valid catalog. */
  lemma WithArtistsValid(c: Catalog, artists: map<int, Artist>, nextId: int)
    requires CatalogValid(c) && c.nextId <= nextId
    requires Grows(c.artists, artists) && UniqueArtistTitles(artists)
    requires forall id :: id in artists ==> 0 < id < nextId && artists[id].id == id
    ensures CatalogValid(c.(artists := artists, nextId := nextId))
    ensures Extends(c, c.(artists := artists, nextId := nextId))
  {
    var c' := c.(artists := artists, nextId := nextId);
    assert AlbumLinksValid(c);
    forall a, i | a in c.albums && 0 <= i < |c.albums[a].artists| ensures c.albums[a].artists[i] in artists {
      GrowsHas(c.artists, artists, c.albums[a].artists[i]);
    }
    forall s | s in c.songs ensures c.songs[s].artistId in artists {
      GrowsHas(c.artists, artists, c.songs[s].artistId);
    }
    assert AlbumLinksValid(c');
  }

  lemma WithGenresValid(c: Catalog, genres: map<int, Genre>, nextId: int)
    requires CatalogValid(c) && c.nextId <= nextId
    requires Grows(c.genres, genres)
    requires forall id :: id in genres ==> 0 < id < nextId && genres[id].id == id
    ensures CatalogValid(c.(genres := genres, nextId := nextId))
    ensures Extends(c, c.(genres := genres, nextId := nextId))
  {
    var c' := c.(genres := genres, nextId := nextId);
    assert AlbumLinksValid(c);
    forall a, i | a in c.albums && 0 <= i < |c.albums[a].genres| ensures c.albums[a].genres[i] in genres {
      GrowsHas(c.genres, genres, c.albums[a].genres[i]);
    }
    assert AlbumLinksValid(c');
  }

  /**
   * The artist loop: each name resolves to the artist with exactly that
   * title, which is created when there is none. The result keeps the
   * order of the names.
   */
  method GetOrCreateArtists(c: Catalog, titles: seq<string>) returns (c': Catalog, ids: seq<int>)
    requires CatalogValid(c)
    ensures CatalogValid(c') && Extends(c, c')
    ensures c'.albums == c.albums && c'.genres == c.genres && c'.songs == c.songs
    ensures |ids| == |titles|
    ensures forall i :: 0 <= i < |titles| ==> ids[i] in c'.artists && c'.artists[ids[i]].title == titles[i]
    ensures forall i :: 0 <= i < |titles| && ArtistTitleTaken(c.artists, titles[i]) ==>
              ids[i] == FindArtist(c.artists, titles[i]).value
    ensures forall id :: id in c'.artists && id !in c.artists ==>
              !ArtistTitleTaken(c.artists, c'.artists[id].title) && c'.artists[id].title in titles
  {
    var artists, next;
    artists, next, ids := ResolveArtists(c.artists, c.nextId, titles);
    WithArtistsValid(c, artists, next);
    c' := c.(artists := artists, nextId := next);
    forall k | 0 <= k < |titles| && ArtistTitleTaken(c.artists, titles[k])
      ensures ids[k] == FindArtist(c.artists, titles[k]).value
    {
      var old_id := FindArtist(c.artists, titles[k]).value;
      assert artists[old_id].title == artists[ids[k]].title;
    }
  }

  /** The loop of the artist block, on the artist table and the id counter. */
  method ResolveArtists(known: map<int, Artist>, start: int, titles: seq<string>)
    returns (artists: map<int, Artist>, next: int, ids: seq<int>)
    requires 0 < start && UniqueArtistTitles(known)
    requires forall id :: id in known ==> 0 < id < start && known[id].id == id
    ensures start <= next
    ensures forall id :: id in artists ==> 0 < id < next && artists[id].id == id
    ensures UniqueArtistTitles(artists) && Grows(known, artists)
    ensures |ids| == |titles|
    ensures forall k :: 0 <= k < |titles| ==> ids[k] in artists && artists[ids[k]].title == titles[k]
    ensures forall id :: id in artists && id !in known ==>
              !ArtistTitleTaken(known, artists[id].title) && artists[id].title in titles
  {
    artists := known;
    next := start;
    ids := [];
    var i := 0;
    while i < |titles|
      invariant 0 <= i <= |titles|
      invariant start <= next
      invariant forall id :: id in artists ==> 0 < id < next && artists[id].id == id
      invariant UniqueArtistTitles(artists) && Grows(known, artists)
      invariant |ids| == i
      invariant forall k :: 0 <= k < i ==> ids[k] in artists && artists[ids[k]].title == titles[k]
      invariant forall id :: id in artists && id !in known ==>
                  !ArtistTitleTaken(known, artists[id].title) && artists[id].title in titles[..i]
    {
      var found := FindArtist(artists, titles[i]);
      var id;
      if found.Some? {
        id := found.value;
      } else {
        id := next;
        assert !ArtistTitleTaken(known, titles[i]);
        assert next !in artists;
        artists := artists[next := Artist(next, titles[i])];
        next := next + 1;
      }
      ids := ids + [id];
      i := i + 1;
    }
    assert titles[..i] == titles;
  }

  /** Names given twice resolve to one artist, since artist titles are unique. */
  lemma SameTitleSameArtist(artists: map<int, Artist>, ids: seq<int>, titles: seq<string>, i: int, j: int)
    requires UniqueArtistTitles(artists) && |ids| == |titles|
    requires forall k :: 0 <= k < |titles| ==> ids[k] in artists && artists[ids[k]].title == titles[k]
    requires 0 <= i < |titles| && 0 <= j < |titles| && titles[i] == titles[j]
    ensures ids[i] == ids[j]
  {
    assert artists[ids[i]].title == artists[ids[j]].title;
  }

  /**
   * The genre loop: each name resolves to a genre with that title (the one
   * the database returns first), or to a new genre when there is none.
   */
  method GetOrCreateGenres(c: Catalog, titles: seq<string>, pick: Pick) returns (c': Catalog, ids: seq<int>)
    requires CatalogValid(c) && IsPick(pick)
    ensures CatalogValid(c') && Extends(c, c')
    ensures c'.albums == c.albums && c'.artists == c.artists && c'.songs == c.songs
    ensures |ids| == |titles|
    ensures forall i :: 0 <= i < |titles| ==> ids[i] in c'.genres && c'.genres[ids[i]].title == titles[i]
    ensures forall i :: 0 <= i < |titles| && GenresTitled(c.genres, titles[i]) != {} ==> ids[i] in c.genres
    ensures forall id :: id in c'.genres && id !in c.genres ==>
              GenresTitled(c.genres, c'.genres[id].title) == {} && c'.genres[id].title in titles
  {
    var genres, next;
    genres, next, ids := ResolveGenres(c.genres, c.nextId, titles, pick);
    WithGenresValid(c, genres, next);
    c' := c.(genres := genres, nextId := next);
  }

  /** The loop of the genre block, on the genre table and the id counter. */
  method ResolveGenres(known: map<int, Genre>, start: int, titles: seq<string>, pick: Pick)
    returns (genres: map<int, Genre>, next: int, ids: seq<int>)
    requires 0 < start && IsPick(pick)
    requires forall id :: id in known ==> 0 < id < start && known[id].id == id
    ensures start <= next
    ensures forall id :: id in genres ==> 0 < id < next && genres[id].id == id
    ensures Grows(known, genres)
    ensures |ids| == |titles|
    ensures forall k :: 0 <= k < |titles| ==> ids[k] in genres && genres[ids[k]].title == titles[k]
    ensures forall k :: 0 <= k < |titles| && GenresTitled(known, titles[k]) != {} ==> ids[k] in known
    ensures forall id :: id in genres && id !in known ==>
              GenresTitled(known, genres[id].title) == {} && genres[id].title in titles
  {
    genres := known;
    next := start;
    ids := [];
    var i := 0;
    while i < |titles|
      invariant 0 <= i <= |titles|
      invariant start <= next
      invariant forall id :: id in genres ==> 0 < id < next && genres[id].id == id
      invariant Grows(known, genres)
      invariant |ids| == i
      invariant forall k :: 0 <= k < i ==> ids[k] in genres && genres[ids[k]].title == titles[k]
      invariant forall k :: 0 <= k < i && GenresTitled(known, titles[k]) != {} ==> ids[k] in known
      invariant forall id :: id in genres && id !in known ==>
                  GenresTitled(known, genres[id].title) == {} && genres[id].title in titles[..i]
    {
      var matches := GenresTitled(genres, titles[i]);
      var found := pick(matches);
      var id;
      if found.Some? {
        id := found.value;
        assert id in genres && genres[id].title == titles[i];
        assert GenresTitled(known, titles[i]) != {} ==> id in known;
      } else {
        id := next;
        assert GenresTitled(known, titles[i]) == {} by {
          forall g | g in known ensures known[g].title != titles[i] {
            assert g in genres && genres[g] == known[g];
            assert g !in matches;
          }
        }
        assert next !in genres;
        genres := genres[next := Genre(next, titles[i])];
        next := next + 1;
      }
      ids := ids + [id];
      i := i + 1;
    }
    assert titles[..i] == titles;
  }

  // ---------------------------------------------------------------------
  // Extending an album's artists and genres
  // ---------------------------------------------------------------------

  /** `[x for x in extra if x not in lst]`, with `lst` as it was before the extension. */
  function Without(extra: seq<int>, lst: seq<int>): (r: seq<int>)
    ensures forall x :: x in r <==> x in extra && x !in lst
  {
    if extra == [] then []
    else
      var rest := Without(extra[..|extra| - 1], lst);
      var last := extra[|extra| - 1];
      assert extra == extra[..|extra| - 1] + [last];
      if last in lst then rest else rest + [last]
  }

  /** `lst.extend([x for x in extra if x not in lst])` as the importer writes it. */
  function ExtendAsWritten(lst: seq<int>, extra: seq<int>): seq<int> {
    lst + Without(extra, lst)
  }

  /**
   * The comprehension reads the list before anything is appended, so a
   * value named twice in `extra` is appended twice: a song tagged with the
   * same artist twice links that artist to the new album twice, which the
   * unique (artist, album) pair of `album_artist` refuses.
   */
  lemma ExtendAsWrittenDuplicates(a: int, albumId: int, firstId: int)
    ensures ExtendAsWritten([], [a, a]) == [a, a]
    ensures !NoDuplicates(ExtendAsWritten([], [a, a]))
    ensures !UniqueAlbumArtistPairs(AlbumArtistRows(albumId, ExtendAsWritten([], [a, a]), firstId))
  {
    var e := ExtendAsWritten([], [a, a]);
    assert e == [a, a] by {
      assert [a, a][..1] == [a];
      assert Without([a], []) == [a];
      assert Without([a, a], []) == [a, a];
    }
    assert e[0] == e[1];
    AlbumArtistRowsUnique(albumId, e, firstId);
  }

  /**
   * The extension the comprehension is meant to perform: append each value
   * of `extra` that is not yet in the list, as it grows.
   */
  function ExtendUnique(lst: seq<int>, extra: seq<int>): (r: seq<int>)
    ensures lst <= r
    ensures forall x :: x in r <==> x in lst || x in extra
    ensures NoDuplicates(lst) ==> NoDuplicates(r)
  {
    if extra == [] then lst
    else
      var rest := ExtendUnique(lst, extra[..|extra| - 1]);
      var last := extra[|extra| - 1];
      assert extra == extra[..|extra| - 1] + [last];
      if last in rest then rest else rest + [last]
  }

  /**
   * Where the source's comprehension causes no duplicate (the extra values
   * are themselves distinct), the corrected extension gives the same list.
   */
  lemma {:induction false} ExtendUniqueAgrees(lst: seq<int>, extra: seq<int>)
    requires NoDuplicates(extra)
    ensures ExtendUnique(lst, extra) == ExtendAsWritten(lst, extra)
  {
    if extra != [] {
      var init := extra[..|extra| - 1];
      var last := extra[|extra| - 1];
      assert NoDuplicates(init);
      ExtendUniqueAgrees(lst, init);
      assert last !in init;
      assert last in ExtendUnique(lst, init) <==> last in lst;
    }
  }

  // ---------------------------------------------------------------------
  // The album
  // ---------------------------------------------------------------------

  /** The album title: the tag, or the title the track lookup gives when the tag is empty. */
  function AlbumTitleOf(f: TrackFile): Lookup<string> {
    if Truthy(f.albumTag) then Found(f.albumTag.value) else f.trackLookup
  }

  /** The albums with this title that have an artist with this title. */
  function AlbumsMatching(c: Catalog, title: string, artistTitle: string): set<int> {
    set id | id in c.albums && c.albums[id].title == title &&
             exists j :: 0 <= j < |c.albums[id].artists| &&
                         c.albums[id].artists[j] in c.artists &&
                         c.artists[c.albums[id].artists[j]].title == artistTitle
  }

  /** What the album block decides: reuse an album, create one with the looked-up covers, or fall back. */
  datatype AlbumPlan = Reuse(id: int) | Create(title: string, coverSmall: string, coverMedium: string) | Unknown

  const UnknownAlbum := "unknown"

  /**
   * The album block. The query filters on the artist name left over from
   * the artist loop, the last one of the tag; a `ConnectionError` from
   * either lookup gives the fallback album.
   */
  function PlanAlbum(c: Catalog, f: TrackFile, lastArtistTitle: string, pick: Pick): (p: AlbumPlan)
    requires IsPick(pick)
    ensures p.Unknown? <==>
              AlbumTitleOf(f).ConnectionError? ||
              (AlbumsMatching(c, AlbumTitleOf(f).value, lastArtistTitle) == {} && f.albumLookup.ConnectionError?)
    ensures p.Reuse? ==> AlbumTitleOf(f).Found? && p.id in AlbumsMatching(c, AlbumTitleOf(f).value, lastArtistTitle)
    ensures p.Create? ==>
              && AlbumTitleOf(f).Found? && p.title == AlbumTitleOf(f).value
              && AlbumsMatching(c, p.title, lastArtistTitle) == {}
              && f.albumLookup == Found((p.coverSmall, p.coverMedium))
  {
    match AlbumTitleOf(f)
    case ConnectionError => Unknown
    case Found(title) =>
      match pick(AlbumsMatching(c, title, lastArtistTitle))
      case Some(id) => Reuse(id)
      case None =>
        match f.albumLookup
        case ConnectionError => Unknown
        case Found((small, medium)) => Create(title, small, medium)
  }

  /** Carry out an album plan: the catalog afterwards and the album the song goes to. */
  function ApplyPlan(c: Catalog, plan: AlbumPlan, artists: seq<int>): (r: (Catalog, int))
    requires CatalogValid(c)
    requires forall i :: 0 <= i < |artists| ==> artists[i] in c.artists
    requires plan.Reuse? ==> plan.id in c.albums
    ensures CatalogValid(r.0) && Extends(c, r.0) && r.1 in r.0.albums
    ensures r.0.artists == c.artists && r.0.genres == c.genres && r.0.songs == c.songs
    ensures plan.Reuse? ==> r == (c, plan.id)
    ensures !plan.Reuse? ==>
              r.1 == c.nextId && r.0 == c.(albums := c.albums[r.1 := r.0.albums[r.1]], nextId := c.nextId + 1)
    ensures plan.Create? ==>
              && r.1 !in c.albums
              && r.0.albums[r.1] == Album(r.1, plan.title, None, Some(plan.coverSmall), Some(plan.coverMedium),
                                          ExtendUnique([], artists), [])
    ensures plan.Unknown? ==>
              r.1 !in c.albums && r.0.albums[r.1] == Album(r.1, UnknownAlbum, None, None, None, [], [])
  {
    match plan
    case Reuse(id) => (c, id)
    case Create(title, small, medium) =>
      var id := c.nextId;
      var linked := ExtendUnique([], artists);
      var album := Album(id, title, None, Some(small), Some(medium), linked, []);
      assert forall j :: 0 <= j < |linked| ==> linked[j] in c.artists by {
        forall j | 0 <= j < |linked| ensures linked[j] in c.artists {
          assert linked[j] in linked;
        }
      }
      WithAlbumValid(c, album);
      (c.(albums := c.albums[id := album], nextId := id + 1), id)
    case Unknown =>
      var id := c.nextId;
      var album := Album(id, UnknownAlbum, None, None, None, [], []);
      WithAlbumValid(c, album);
      (c.(albums := c.albums[id := album], nextId := id + 1), id)
  }

  /** A new album row under the next id keeps the catalog valid. */
  lemma WithAlbumValid(c: Catalog, album: Album)
    requires CatalogValid(c) && album.id == c.nextId
    requires NoDuplicates(album.artists)
    requires forall i :: 0 <= i < |album.artists| ==> album.artists[i] in c.artists
    requires forall i :: 0 <= i < |album.genres| ==> album.genres[i] in c.genres
    ensures CatalogValid(c.(albums := c.albums[c.nextId := album], nextId := c.nextId + 1))
    ensures Extends(c, c.(albums := c.albums[c.nextId := album], nextId := c.nextId + 1))
  {
    var c' := c.(albums := c.albums[c.nextId := album], nextId := c.nextId + 1);
    assert AlbumLinksValid(c);
    assert AlbumLinksValid(c');
  }

  /** Extending one album's genres with existing genres keeps the catalog valid. */
  lemma WithAlbumGenresValid(c: Catalog, albumId: int, gs: seq<int>)
    requires CatalogValid(c) && albumId in c.albums
    requires c.albums[albumId].genres <= gs
    requires forall j :: 0 <= j < |gs| ==> gs[j] in c.genres
    ensures CatalogValid(c.(albums := c.albums[albumId := c.albums[albumId].(genres := gs)]))
    ensures Extends(c, c.(albums := c.albums[albumId := c.albums[albumId].(genres := gs)]))
  {
    var c' := c.(albums := c.albums[albumId := c.albums[albumId].(genres := gs)]);
    assert AlbumLinksValid(c);
    assert AlbumLinksValid(c');
  }

  /**
   * `album.genres.extend([g for g in genres if g not in album.genres])`, as
   * written: only this album changes, and it gains exactly the genres it
   * did not have (a genre named twice by the tag is appended twice).
   */
  function AddAlbumGenres(c: Catalog, albumId: int, genres: seq<int>): (c': Catalog)
    requires CatalogValid(c) && albumId in c.albums
    requires forall i :: 0 <= i < |genres| ==> genres[i] in c.genres
    ensures CatalogValid(c') && Extends(c, c')
    ensures c'.artists == c.artists && c'.genres == c.genres && c'.songs == c.songs && c'.nextId == c.nextId
    ensures c'.albums == c.albums[albumId := c.albums[albumId].(genres := ExtendAsWritten(c.albums[albumId].genres, genres))]
    ensures forall g :: g in c'.albums[albumId].genres <==> g in c.albums[albumId].genres || g in genres
  {
    var a := c.albums[albumId];
    var gs := ExtendAsWritten(a.genres, genres);
    assert forall j :: 0 <= j < |gs| ==> gs[j] in c.genres by {
      forall j | 0 <= j < |gs| ensures gs[j] in c.genres {
        assert gs[j] in gs;
        if gs[j] in a.genres {
          var k :| 0 <= k < |a.genres| && a.genres[k] == gs[j];
        } else {
          var k :| 0 <= k < |genres| && genres[k] == gs[j];
        }
      }
    }
    WithAlbumGenresValid(c, albumId, gs);
    c.(albums := c.albums[albumId := a.(genres := gs)])
  }

  // ---------------------------------------------------------------------
  // One file
  // ---------------------------------------------------------------------

  /** The state the loop carries from one file to the next. */
  datatype Step = Step(catalog: Catalog, imported: Option<int>, singleArtist: Option<int>)

  /** The song a file became, in the catalog after the file. */
  predicate ImportedAs(c: Catalog, c': Catalog, id: int, f: TrackFile, addedFolder: string) {
    && HasTags(f)
    && TrackNumber(f.trackTag).Ok?
    && id !in c.songs && id in c'.songs
    && c'.songs.Keys == c.songs.Keys + {id}
    && var s := c'.songs[id];
       && s.title == f.titleTag.value
       && s.filePath == PathJoin(addedFolder, f.name)
       && s.albumPosition == TrackNumber(f.trackTag).value
       && s.duration == f.duration
       && s.artistId in c'.artists && s.albumId in c'.albums
       && (forall i :: 0 <= i < |f.artistTitles.value| ==> ArtistTitleTaken(c'.artists, f.artistTitles.value[i]))
       && (|f.artistTitles.value| == 1 ==> c'.artists[s.artistId].title == f.artistTitles.value[0])
       && (f.genreTitles.Some? ==> GenresListed(c', s.albumId, f.genreTitles.value))
  }

  /** One of the album's genres has this title. */
  predicate HasGenreTitled(c: Catalog, albumId: int, title: string)
    requires albumId in c.albums
  {
    exists j :: 0 <= j < |c.albums[albumId].genres| &&
                c.albums[albumId].genres[j] in c.genres &&
                c.genres[c.albums[albumId].genres[j]].title == title
  }

  /** Every name is the title of one of the album's genres. */
  predicate GenresListed(c: Catalog, albumId: int, titles: seq<string>)
    requires albumId in c.albums
  {
    forall i :: 0 <= i < |titles| ==> HasGenreTitled(c, albumId, titles[i])
  }

  /** One of the album's artists has this title. */
  predicate HasArtistTitled(c: Catalog, albumId: int, title: string)
    requires albumId in c.albums
  {
    exists j :: 0 <= j < |c.albums[albumId].artists| &&
                c.albums[albumId].artists[j] in c.artists &&
                c.artists[c.albums[albumId].artists[j]].title == title
  }

  /** Every name is the title of one of the album's artists. */
  predicate ArtistsListed(c: Catalog, albumId: int, titles: seq<string>)
    requires albumId in c.albums
  {
    forall i :: 0 <= i < |titles| ==> HasArtistTitled(c, albumId, titles[i])
  }

  /** What an album plan leaves in the catalog for the song's album. */
  predicate PlannedAlbum(c: Catalog, c': Catalog, albumId: int, plan: AlbumPlan, artistTitles: seq<string>)
    requires albumId in c'.albums
  {
    && (plan.Reuse? ==> albumId == plan.id)
    && (plan.Create? ==>
          && albumId !in c.albums
          && c'.albums[albumId].title == plan.title
          && c'.albums[albumId].coverSmall == Some(plan.coverSmall)
          && c'.albums[albumId].coverMedium == Some(plan.coverMedium)
          && NoDuplicates(c'.albums[albumId].artists)
          && ArtistsListed(c', albumId, artistTitles))
    && (plan.Unknown? ==>
          && albumId !in c.albums
          && c'.albums[albumId].title == UnknownAlbum
          && c'.albums[albumId].artists == [])
  }

  /**
   * Among the albums only the song's album changed: it is new, or (by
   * `Extends`) it only gained genres. Every other album is as it was.
   */
  predicate OnlyAlbumChanged(albums: map<int, Album>, albums': map<int, Album>, albumId: int) {
    && albumId in albums'
    && albums'.Keys == albums.Keys + {albumId}
    && (forall id :: id in albums && id != albumId ==> albums'[id] == albums[id])
  }

  /** The genre is one the album had before, or a genre whose title the tag names. */
  predicate GenreFromTag(albums: map<int, Album>, genres': map<int, Genre>, albumId: int, f: TrackFile, g: int) {
    || (albumId in albums && g in albums[albumId].genres)
    || (f.genreTitles.Some? && g in genres' && genres'[g].title in f.genreTitles.value)
  }

  /** Each genre of the album is one it had before, or a genre whose title the tag names. */
  predicate GenresFromTag(albums: map<int, Album>, albums': map<int, Album>, genres': map<int, Genre>,
                          albumId: int, f: TrackFile)
    requires albumId in albums'
  {
    forall j :: 0 <= j < |albums'[albumId].genres| ==> GenreFromTag(albums, genres', albumId, f, albums'[albumId].genres[j])
  }

  /** A new genre row carries a title the tag names and no genre had before. */
  predicate NewGenresFromTag(genres: map<int, Genre>, genres': map<int, Genre>, f: TrackFile) {
    forall id :: id in genres' && id !in genres ==>
      f.genreTitles.Some? && genres'[id].title in f.genreTitles.value && GenresTitled(genres, genres'[id].title) == {}
  }

  /** A new artist row carries a title the tag names and no artist had before. */
  predicate NewArtistsFromTag(artists: map<int, Artist>, artists': map<int, Artist>, f: TrackFile) {
    forall id :: id in artists' && id !in artists ==>
      f.artistTitles.Some? && artists'[id].title in f.artistTitles.value &&
      !ArtistTitleTaken(artists, artists'[id].title)
  }

  /** What a file may change in the catalog besides adding its song: nothing beyond its tags. */
  predicate Confined(c: Catalog, c': Catalog, albumId: int, f: TrackFile) {
    && OnlyAlbumChanged(c.albums, c'.albums, albumId)
    && GenresFromTag(c.albums, c'.albums, c'.genres, albumId, f)
    && NewGenresFromTag(c.genres, c'.genres, f)
    && NewArtistsFromTag(c.artists, c'.artists, f)
  }

  /**
   * The album block and the genre block: carry out the album plan, then,
   * when the file names genres, find or create them and add them to the
   * album.
   */
  method PlaceAlbum(c: Catalog, f: TrackFile, artists: seq<int>, artistTitles: seq<string>, plan: AlbumPlan, pick: Pick)
    returns (c': Catalog, albumId: int)
    requires CatalogValid(c) && IsPick(pick)
    requires |artists| == |artistTitles|
    requires forall i :: 0 <= i < |artists| ==> artists[i] in c.artists && c.artists[artists[i]].title == artistTitles[i]
    requires plan.Reuse? ==> plan.id in c.albums
    ensures CatalogValid(c') && Extends(c, c') && albumId in c'.albums
    ensures c'.artists == c.artists && c'.songs == c.songs
    ensures PlannedAlbum(c, c', albumId, plan, artistTitles)
    ensures f.genreTitles.Some? ==> GenresListed(c', albumId, f.genreTitles.value)
    ensures OnlyAlbumChanged(c.albums, c'.albums, albumId)
    ensures GenresFromTag(c.albums, c'.albums, c'.genres, albumId, f)
    ensures NewGenresFromTag(c.genres, c'.genres, f)
  {
    var applied := ApplyPlan(c, plan, artists);
    var c2 := applied.0;
    albumId := applied.1;
    if plan.Create? {
      LinkedArtistsListed(c2, albumId, artists, artistTitles);
    }
    assert PlannedAlbum(c, c2, albumId, plan, artistTitles);
    c' := PlaceGenres(c2, albumId, f, pick);
    ExtendsTransitive(c, c2, c');
    KeepsPlannedAlbum(c, c2, c', albumId, plan, artistTitles);
    GenresFromTagBefore(c.albums, c2.albums, c'.albums, c'.genres, albumId, f);
  }

  /**
   * The genre block: when the file names genres, find or create them and
   * add them to the album. Only the album changes, and only by genres of
   * the tag.
   */
  method PlaceGenres(c: Catalog, albumId: int, f: TrackFile, pick: Pick) returns (c': Catalog)
    requires CatalogValid(c) && IsPick(pick) && albumId in c.albums
    ensures CatalogValid(c') && Extends(c, c') && albumId in c'.albums
    ensures c'.artists == c.artists && c'.songs == c.songs
    ensures f.genreTitles.Some? ==> GenresListed(c', albumId, f.genreTitles.value)
    ensures OnlyAlbumChanged(c.albums, c'.albums, albumId)
    ensures GenresFromTag(c.albums, c'.albums, c'.genres, albumId, f)
    ensures NewGenresFromTag(c.genres, c'.genres, f)
  {
    c' := c;
    if f.genreTitles.Some? && f.genreTitles.value != [] {
      var c3, genres := GetOrCreateGenres(c, f.genreTitles.value, pick);
      c' := AddAlbumGenres(c3, albumId, genres);
      ExtendsTransitive(c, c3, c');
      GenreBlockConfined(c.albums, c', albumId, genres, f);
      AddedGenresListed(c', albumId, genres, f.genreTitles.value);
    } else {
      var gs := c.albums[albumId].genres;
      assert forall j :: 0 <= j < |gs| ==> gs[j] in gs;
    }
  }

  /**
   * The album block either kept an album as it was or made one with no
   * genres, so the genres the album had after it are genres it had before.
   */
  lemma GenresFromTagBefore(albums: map<int, Album>, albums2: map<int, Album>, albums': map<int, Album>,
                            genres': map<int, Genre>, albumId: int, f: TrackFile)
    requires albumId in albums2 && albumId in albums'
    requires albumId in albums ==> albums2[albumId] == albums[albumId]
    requires albumId !in albums ==> albums2[albumId].genres == []
    requires GenresFromTag(albums2, albums', genres', albumId, f)
    ensures GenresFromTag(albums, albums', genres', albumId, f)
  {
    var gs := albums'[albumId].genres;
    forall j | 0 <= j < |gs| ensures GenreFromTag(albums, genres', albumId, f, gs[j]) {
      assert GenreFromTag(albums2, genres', albumId, f, gs[j]);
      if albumId !in albums {
        assert gs[j] !in albums2[albumId].genres;
      }
    }
  }

  /** An album linked to artists of these titles lists each title. */
  lemma LinkedArtistsListed(c: Catalog, albumId: int, artists: seq<int>, titles: seq<string>)
    requires albumId in c.albums && |artists| == |titles|
    requires forall i :: 0 <= i < |artists| ==> artists[i] in c.artists && c.artists[artists[i]].title == titles[i]
    requires forall i :: 0 <= i < |artists| ==> artists[i] in c.albums[albumId].artists
    ensures ArtistsListed(c, albumId, titles)
  {
    var linked := c.albums[albumId].artists;
    forall i | 0 <= i < |titles| ensures HasArtistTitled(c, albumId, titles[i]) {
      assert artists[i] in linked;
      var j :| 0 <= j < |linked| && linked[j] == artists[i];
    }
  }

  /** An album holding genres of these titles lists each title. */
  lemma AddedGenresListed(c: Catalog, albumId: int, genres: seq<int>, titles: seq<string>)
    requires albumId in c.albums && |genres| == |titles|
    requires forall i :: 0 <= i < |genres| ==> genres[i] in c.genres && c.genres[genres[i]].title == titles[i]
    requires forall i :: 0 <= i < |genres| ==> genres[i] in c.albums[albumId].genres
    ensures GenresListed(c, albumId, titles)
  {
    var gs := c.albums[albumId].genres;
    forall i | 0 <= i < |titles| ensures HasGenreTitled(c, albumId, titles[i]) {
      assert genres[i] in gs;
      var j :| 0 <= j < |gs| && gs[j] == genres[i];
    }
  }

  /**
   * The genre block adds to the album only the genres of the tag: the
   * album's genres are those it had and the resolved ones.
   */
  lemma GenreBlockConfined(albums: map<int, Album>, c': Catalog, albumId: int, genres: seq<int>, f: TrackFile)
    requires albumId in albums && albumId in c'.albums
    requires f.genreTitles.Some? && |genres| == |f.genreTitles.value|
    requires forall i :: 0 <= i < |genres| ==>
               genres[i] in c'.genres && c'.genres[genres[i]].title == f.genreTitles.value[i]
    requires forall g :: g in c'.albums[albumId].genres <==> g in albums[albumId].genres || g in genres
    ensures GenresFromTag(albums, c'.albums, c'.genres, albumId, f)
  {
    var gs := c'.albums[albumId].genres;
    forall j | 0 <= j < |gs| ensures GenreFromTag(albums, c'.genres, albumId, f, gs[j]) {
      var g := gs[j];
      assert g in gs;
      assert g in c'.albums[albumId].genres <==> g in albums[albumId].genres || g in genres;
      if g !in albums[albumId].genres {
        var i :| 0 <= i < |genres| && genres[i] == g;
        assert f.genreTitles.value[i] in f.genreTitles.value;
      }
    }
  }

  /** Adding genres to the album keeps what the plan made of it. */
  lemma KeepsPlannedAlbum(c: Catalog, c2: Catalog, c': Catalog, albumId: int, plan: AlbumPlan, artistTitles: seq<string>)
    requires albumId in c2.albums && PlannedAlbum(c, c2, albumId, plan, artistTitles)
    requires AlbumsGrow(c2.albums, c'.albums) && c'.artists == c2.artists
    ensures albumId in c'.albums && PlannedAlbum(c, c', albumId, plan, artistTitles)
  {
    assert c'.albums[albumId].(genres := []) == c2.albums[albumId].(genres := []);
    var linked := c2.albums[albumId].artists;
    assert c'.albums[albumId].artists == linked;
    if plan.Create? {
      assert ArtistsListed(c2, albumId, artistTitles);
      forall i | 0 <= i < |artistTitles| ensures HasArtistTitled(c', albumId, artistTitles[i]) {
        assert HasArtistTitled(c2, albumId, artistTitles[i]);
        var j :| 0 <= j < |linked| && linked[j] in c2.artists && c2.artists[linked[j]].title == artistTitles[i];
      }
    }
  }

  /** The song row the importer adds keeps the catalog valid. */
  lemma WithSongValid(c: Catalog, song: Song)
    requires CatalogValid(c) && song.id == c.nextId
    requires song.artistId in c.artists && song.albumId in c.albums
    ensures CatalogValid(c.(songs := c.songs[song.id := song], nextId := song.id + 1))
    ensures Extends(c, c.(songs := c.songs[song.id := song], nextId := song.id + 1))
  {
    assert song.id !in c.songs;
  }

  /** The row `Song(...)` the importer adds for a tagged file. */
  function SongRow(id: int, f: TrackFile, addedFolder: string, artistId: int, albumId: int): Song
    requires HasTags(f) && TrackNumber(f.trackTag).Ok?
  {
    Song(id, f.titleTag.value, PathJoin(addedFolder, f.name), f.duration, TrackNumber(f.trackTag).value, None,
         artistId, albumId, None)
  }

  /** The catalog with one more song row, under the next free id. */
  function WithSong(c: Catalog, song: Song): Catalog {
    c.(songs := c.songs[c.nextId := song], nextId := c.nextId + 1)
  }

  /**
   * Adding the song row of a tagged file to the catalog that the artist,
   * album and genre blocks left behind imports the file as its tags say.
   */
  lemma SongRowImported(c: Catalog, c3: Catalog, f: TrackFile, addedFolder: string, lastSingle: Option<int>,
                         pick: Pick, artists: seq<int>, albumId: int, single: int)
    requires HasTags(f) && TrackNumber(f.trackTag).Ok? && IsPick(pick)
    requires TagsPlaced(c, f, pick, c3, artists, albumId)
    requires lastSingle.Some? ==> lastSingle.value in c.artists
    requires |artists| == 1 ==> single == artists[0]
    requires |artists| != 1 ==> lastSingle == Some(single)
    ensures ImportedStep(c, f, addedFolder, lastSingle, pick,
                         Step(WithSong(c3, SongRow(c3.nextId, f, addedFolder, single, albumId)),
                              Some(c3.nextId), Some(single)))
  {
    var titles := f.artistTitles.value;
    var plan := PlanAlbum(c, f, titles[|titles| - 1], pick);
    var song := SongRow(c3.nextId, f, addedFolder, single, albumId);
    var c4 := WithSong(c3, song);
    assert CatalogValid(c3) && Extends(c, c3) && c3.songs == c.songs && albumId in c3.albums;
    assert PlannedAlbum(c, c3, albumId, plan, titles);
    if |artists| != 1 {
      GrowsHas(c.artists, c3.artists, single);
    }
    WithSongValid(c3, song);
    ExtendsTransitive(c, c3, c4);
    SameAlbumsKeepPlan(c, c3, c4, albumId, plan, titles);
    SongFromTags(c, c3, f, addedFolder, artists, albumId, single);
  }

  /** Adding a song changes no album and no artist, so the plan still describes the album. */
  lemma SameAlbumsKeepPlan(c: Catalog, c3: Catalog, c4: Catalog, albumId: int, plan: AlbumPlan, titles: seq<string>)
    requires albumId in c3.albums && PlannedAlbum(c, c3, albumId, plan, titles)
    requires c4.albums == c3.albums && c4.artists == c3.artists
    ensures PlannedAlbum(c, c4, albumId, plan, titles)
  {
    if plan.Create? {
      forall i | 0 <= i < |titles| ensures HasArtistTitled(c4, albumId, titles[i]) {
        assert HasArtistTitled(c3, albumId, titles[i]);
      }
    }
  }

  /** The new song row carries the file's tags and links to the placed artist and album. */
  lemma SongFromTags(c: Catalog, c3: Catalog, f: TrackFile, addedFolder: string, artists: seq<int>, albumId: int, single: int)
    requires HasTags(f) && TrackNumber(f.trackTag).Ok?
    requires CatalogValid(c3) && c3.songs == c.songs && albumId in c3.albums && single in c3.artists
    requires |artists| == |f.artistTitles.value|
    requires forall i :: 0 <= i < |artists| ==>
               artists[i] in c3.artists && c3.artists[artists[i]].title == f.artistTitles.value[i]
    requires |artists| == 1 ==> single == artists[0]
    requires f.genreTitles.Some? ==> GenresListed(c3, albumId, f.genreTitles.value)
    ensures ImportedAs(c, WithSong(c3, SongRow(c3.nextId, f, addedFolder, single, albumId)), c3.nextId, f, addedFolder)
  {
    var c4 := WithSong(c3, SongRow(c3.nextId, f, addedFolder, single, albumId));
    assert c4.artists == c3.artists && c4.albums == c3.albums && c4.genres == c3.genres;
    var titles := f.artistTitles.value;
    assert c3.nextId !in c.songs;
    forall i | 0 <= i < |titles| ensures ArtistTitleTaken(c3.artists, titles[i]) {
      TitleTakenBy(c3.artists, artists[i], titles[i]);
    }
    if f.genreTitles.Some? {
      var gs := f.genreTitles.value;
      forall i | 0 <= i < |gs| ensures HasGenreTitled(c4, albumId, gs[i]) {
        assert HasGenreTitled(c3, albumId, gs[i]);
      }
    }
  }

  /**
   * What one imported file leaves behind: a valid catalog that extends the
   * one before, the song the file became, its artist (the carried-over
   * single artist when the tag does not name exactly one), its album as
   * the album block planned it, and the single artist to carry on. No
   * other album changed, and every new artist and genre row, and every
   * genre the album gained, carries a title the tag names.
   */
  predicate ImportedStep(c: Catalog, f: TrackFile, addedFolder: string, lastSingle: Option<int>, pick: Pick, step: Step)
    requires HasTags(f) && IsPick(pick)
  {
    && step.imported.Some?
    && CatalogValid(step.catalog) && Extends(c, step.catalog)
    && step.singleArtist.Some? && step.singleArtist.value in step.catalog.artists
    && ImportedAs(c, step.catalog, step.imported.value, f, addedFolder)
    && var s := step.catalog.songs[step.imported.value];
       && (|f.artistTitles.value| != 1 ==> lastSingle == Some(s.artistId))
       && PlannedAlbum(c, step.catalog, s.albumId,
                       PlanAlbum(c, f, f.artistTitles.value[|f.artistTitles.value| - 1], pick),
                       f.artistTitles.value)
       && Confined(c, step.catalog, s.albumId, f)
  }

  /**
   * What the artist, album and genre blocks leave behind for a file: a
   * valid catalog extending the one before, with no new song, an artist of
   * each name of the tag, in order, and the album as planned, listing the
   * tag's genres. Nothing else changed beyond what the tag names.
   */
  predicate TagsPlaced(c: Catalog, f: TrackFile, pick: Pick, c3: Catalog, artists: seq<int>, albumId: int)
    requires HasTags(f) && IsPick(pick)
  {
    && CatalogValid(c3) && Extends(c, c3) && c3.songs == c.songs && albumId in c3.albums
    && |artists| == |f.artistTitles.value|
    && (forall i :: 0 <= i < |artists| ==>
          artists[i] in c3.artists && c3.artists[artists[i]].title == f.artistTitles.value[i])
    && PlannedAlbum(c, c3, albumId,
                    PlanAlbum(c, f, f.artistTitles.value[|f.artistTitles.value| - 1], pick),
                    f.artistTitles.value)
    && (f.genreTitles.Some? ==> GenresListed(c3, albumId, f.genreTitles.value))
    && Confined(c, c3, albumId, f)
  }

  /** The artist, album and genre blocks for a file that passed both filters. */
  method PlaceTags(c: Catalog, f: TrackFile, pick: Pick) returns (c3: Catalog, artists: seq<int>, albumId: int)
    requires CatalogValid(c) && IsPick(pick) && HasTags(f)
    ensures TagsPlaced(c, f, pick, c3, artists, albumId)
  {
    var titles := f.artistTitles.value;
    var c1;
    c1, artists := GetOrCreateArtists(c, titles);
    // New artists are linked to no album yet, so matching against `c` is matching against `c1`.
    var plan := PlanAlbum(c, f, titles[|titles| - 1], pick);
    c3, albumId := PlaceAlbum(c1, f, artists, titles, plan, pick);
    ExtendsTransitive(c, c1, c3);
  }

  /** One pass of the loop body for a file that passed both filters. */
  method ImportTagged(c: Catalog, f: TrackFile, addedFolder: string, lastSingle: Option<int>, pick: Pick)
    returns (r: Result<Step, PyException>)
    requires CatalogValid(c) && IsPick(pick) && HasTags(f) && TrackNumber(f.trackTag).Ok?
    requires lastSingle.Some? ==> lastSingle.value in c.artists
    ensures |f.artistTitles.value| != 1 && lastSingle.None? <==> r.Err?
    ensures r.Err? ==> r.error == UnboundLocalError
    ensures r.Ok? ==> ImportedStep(c, f, addedFolder, lastSingle, pick, r.value)
  {
    var c3, artists, albumId := PlaceTags(c, f, pick);
    var single := if |artists| == 1 then Some(artists[0]) else lastSingle;
    if single.None? {
      return Err(UnboundLocalError);
    }
    var song := SongRow(c3.nextId, f, addedFolder, single.value, albumId);
    SongRowImported(c, c3, f, addedFolder, lastSingle, pick, artists, albumId, single.value);
    r := Ok(Step(WithSong(c3, song), Some(c3.nextId), single));
  }

  /**
   * What one pass of the loop body does with a file. Skipped entries leave
   * the catalog as it is; a file that passes both filters and has a valid
   * track number is imported unless `single_artist` is unbound, which
   * raises `UnboundLocalError`; a bad track number raises `ValueError`.
   */
  predicate FileOutcome(c: Catalog, f: TrackFile, addedFolder: string, lastSingle: Option<int>, pick: Pick,
                        r: Result<Step, PyException>)
    requires IsPick(pick)
  {
    && (!IsAudioFile(f) ==> r == Ok(Step(c, None, lastSingle)))
    && (IsAudioFile(f) && TrackNumber(f.trackTag).Err? ==> r == Err(ValueError))
    && (IsAudioFile(f) && TrackNumber(f.trackTag).Ok? && !HasTags(f) ==> r == Ok(Step(c, None, lastSingle)))
    && (IsAudioFile(f) && TrackNumber(f.trackTag).Ok? && HasTags(f) ==>
          && (r.Err? <==> |f.artistTitles.value| != 1 && lastSingle.None?)
          && (r.Err? ==> r.error == UnboundLocalError)
          && (r.Ok? ==> r.value.imported.Some?))
    && (r.Err? ==> r.error in {ValueError, UnboundLocalError})
    && (r.Ok? ==>
          && CatalogValid(r.value.catalog) && Extends(c, r.value.catalog)
          && (r.value.singleArtist.Some? ==> r.value.singleArtist.value in r.value.catalog.artists))
    && (r.Ok? && r.value.imported.Some? ==>
          IsAudioFile(f) && HasTags(f) && ImportedStep(c, f, addedFolder, lastSingle, pick, r.value))
    && (r.Ok? && r.value.imported.None? ==> r.value == Step(c, None, lastSingle))
  }

  /**
   * The exception one entry raises, given whether `single_artist` is bound:
   * `ValueError` for a bad track number of an `.mp3`, `UnboundLocalError`
   * for a tagged file that does not name exactly one artist while
   * `single_artist` is unbound.
   */
  function EntryError(f: TrackFile, seen: bool): (r: Option<PyException>)
    ensures r.Some? ==> IsAudioFile(f)
  {
    if !IsAudioFile(f) then None
    else if TrackNumber(f.trackTag).Err? then Some(ValueError)
    else if HasTags(f) && |f.artistTitles.value| != 1 && !seen then Some(UnboundLocalError)
    else None
  }

  /** Whether `single_artist` is bound after an entry that raised nothing. */
  function SeenAfter(f: TrackFile, seen: bool): bool {
    seen || (IsAudioFile(f) && HasTags(f))
  }

  /**
   * The exception that stops the import of these entries, read off the
   * tags alone: the first entry that raises, with `single_artist` bound
   * once a tagged file has been imported.
   */
  function ImportError(files: seq<TrackFile>, seen: bool): (r: Option<PyException>)
    ensures r.Some? ==> exists i :: 0 <= i < |files| && IsAudioFile(files[i])
  {
    if files == [] then None
    else if EntryError(files[0], seen).Some? then EntryError(files[0], seen)
    else
      var r := ImportError(files[1..], SeenAfter(files[0], seen));
      assert r.Some? ==> exists i :: 0 <= i < |files| && IsAudioFile(files[i]) by {
        if r.Some? {
          var j :| 0 <= j < |files[1..]| && IsAudioFile(files[1..][j]);
          assert files[j + 1] == files[1..][j];
        }
      }
      r
  }

  /** Once `single_artist` is bound it stays bound, so `UnboundLocalError` cannot follow. */
  lemma {:induction false} BoundNeverUnbound(files: seq<TrackFile>)
    ensures ImportError(files, true) != Some(UnboundLocalError)
  {
    if files != [] && EntryError(files[0], true).None? {
      BoundNeverUnbound(files[1..]);
    }
  }

  /** The entries from `i` on: entry `i` raises, or the rest are imported after it. */
  lemma ImportErrorStep(files: seq<TrackFile>, i: int, seen: bool)
    requires 0 <= i < |files|
    ensures ImportError(files[i..], seen) ==
            if EntryError(files[i], seen).Some? then EntryError(files[i], seen)
            else ImportError(files[i + 1..], SeenAfter(files[i], seen))
  {
    assert files[i..][0] == files[i];
    assert files[i..][1..] == files[i + 1..];
  }

  /** A file's outcome read as the loop sees it: the exception it raises, and whether `single_artist` is bound after it. */
  lemma EntryOutcome(c: Catalog, f: TrackFile, addedFolder: string, lastSingle: Option<int>, pick: Pick,
                     r: Result<Step, PyException>)
    requires IsPick(pick) && FileOutcome(c, f, addedFolder, lastSingle, pick, r)
    ensures r.Err? <==> EntryError(f, lastSingle.Some?).Some?
    ensures r.Err? ==> r.error == EntryError(f, lastSingle.Some?).value
    ensures r.Ok? ==> (r.value.singleArtist.Some? <==> SeenAfter(f, lastSingle.Some?))
  {
  }

  /**
   * One pass of the loop body, up to and including the commit: the
   * exceptions stop the import before the commit.
   */
  method ImportFile(c: Catalog, f: TrackFile, addedFolder: string, lastSingle: Option<int>, pick: Pick)
    returns (r: Result<Step, PyException>)
    requires CatalogValid(c) && IsPick(pick)
    requires lastSingle.Some? ==> lastSingle.value in c.artists
    ensures FileOutcome(c, f, addedFolder, lastSingle, pick, r)
  {
    if !f.isFile || Extension(f.name) != ".mp3" {
      return Ok(Step(c, None, lastSingle));
    }
    var track := TrackNumber(f.trackTag);
    if track.Err? {
      return Err(ValueError);
    }
    if f.titleTag.None? || f.titleTag.value == "" || f.artistTitles.None? || f.artistTitles.value == [] {
      return Ok(Step(c, None, lastSingle));
    }
    r := ImportTagged(c, f, addedFolder, lastSingle, pick);
  }

  // ---------------------------------------------------------------------
  // The whole folder
  // ---------------------------------------------------------------------

  /** The destination of a file: `<MEDIA_STORAGE>/added/<name>`. */
  function Destination(storage: string, name: string): string {
    PathJoin(PathJoin(storage, "added"), name)
  }

  /** The destination lies directly in the `added` folder of the media storage. */
  lemma DestinationInAdded(storage: string, name: string)
    requires storage != []
    requires name != [] && '/' !in name
    ensures Dirname(Destination(storage, name)) == PathJoin(storage, "added")
  {
    var added := PathJoin(storage, "added");
    assert added[|added| - 5..] == "added";
    assert added[|added| - 1] == 'd';
    DirnameOfJoin(added, name);
  }

  /**
   * One pass of the loop body against the session: import the file and
   * commit what it added. An exception leaves the database as it was.
   */
  method CommitFile(db: Db, f: TrackFile, addedFolder: string, lastSingle: Option<int>, pick: Pick)
    returns (r: Result<Step, PyException>)
    requires db.Valid() && IsPick(pick)
    requires lastSingle.Some? ==> lastSingle.value in db.catalog.artists
    modifies db`catalog
    ensures db.Valid() && Extends(old(db.catalog), db.catalog)
    ensures FileOutcome(old(db.catalog), f, addedFolder, lastSingle, pick, r)
    ensures r.Err? ==> unchanged(db)
    ensures r.Ok? ==>
              && db.catalog == r.value.catalog
              && (r.value.singleArtist.Some? ==> r.value.singleArtist.value in db.catalog.artists)
              && (r.value.imported.Some? ==>
                    && IsAudioFile(f) && HasTags(f)
                    && r.value.imported.value in db.catalog.songs
                    && db.catalog.songs[r.value.imported.value].filePath == PathJoin(addedFolder, f.name))
  {
    r := ImportFile(db.catalog, f, addedFolder, lastSingle, pick);
    ImportedFileStored(db.catalog, f, addedFolder, lastSingle, pick, r);
    if r.Ok? {
      Commit(db, r.value.catalog);
    }
  }

  /** `db.session.commit()`: the session's catalog becomes the one the file left behind. */
  method Commit(db: Db, c': Catalog)
    requires db.Valid() && CatalogValid(c') && Extends(db.catalog, c')
    modifies db`catalog
    ensures db.Valid() && db.catalog == c'
  {
    ExtendsKeepsPlaylists(db.playlists, db.catalog, c');
    db.catalog := c';
  }

  /**
   * The destinations of the files that pass both filters, in listing
   * order: what `add_songs_to_db` returns when no exception stops it.
   */
  function ImportedDestinations(files: seq<TrackFile>, storage: string): (r: seq<string>)
    ensures |r| <= |files|
  {
    if files == [] then []
    else
      var last := files[|files| - 1];
      ImportedDestinations(files[..|files| - 1], storage) +
        (if IsAudioFile(last) && HasTags(last) then [Destination(storage, last.name)] else [])
  }

  /** One more entry of the listing adds its destination when it passes both filters. */
  lemma DestinationsOfPrefix(files: seq<TrackFile>, storage: string, i: int)
    requires 0 <= i < |files|
    ensures ImportedDestinations(files[..i + 1], storage) ==
            ImportedDestinations(files[..i], storage) +
              (if IsAudioFile(files[i]) && HasTags(files[i]) then [Destination(storage, files[i].name)] else [])
  {
    assert files[..i + 1][..i] == files[..i];
  }

  /**
   * After a file the catalog is valid and extends the one before, and an
   * imported file has a song row whose path is the file's place in the
   * `added` folder.
   */
  lemma ImportedFileStored(c: Catalog, f: TrackFile, addedFolder: string, lastSingle: Option<int>, pick: Pick,
                           r: Result<Step, PyException>)
    requires IsPick(pick) && FileOutcome(c, f, addedFolder, lastSingle, pick, r)
    ensures r.Ok? ==>
              && CatalogValid(r.value.catalog) && Extends(c, r.value.catalog)
              && (r.value.singleArtist.Some? ==> r.value.singleArtist.value in r.value.catalog.artists)
    ensures r.Ok? && r.value.imported.Some? ==>
              && IsAudioFile(f) && HasTags(f)
              && r.value.imported.value in r.value.catalog.songs
              && r.value.catalog.songs[r.value.imported.value].filePath == PathJoin(addedFolder, f.name)
  {
  }

  /** `dest` is where one of the files that passed both filters is moved to. */
  predicate MovedFile(files: seq<TrackFile>, storage: string, dest: string) {
    exists i :: 0 <= i < |files| && IsAudioFile(files[i]) && HasTags(files[i]) &&
                dest == Destination(storage, files[i].name)
  }

  /** Some song row of the catalog has this file path. */
  predicate SongStoredAt(c: Catalog, path: string) {
    exists id :: id in c.songs && c.songs[id].filePath == path
  }

  /**
   * The bookkeeping of the folder loop after `i` entries: each reported
   * destination comes from an entry before `i` that passed both filters,
   * and a song row of `c` carries that destination as its path.
   */
  predicate Progress(c: Catalog, files: seq<TrackFile>, storage: string, i: int,
                     moved: seq<string>, sources: seq<int>, songIds: seq<int>) {
    && 0 <= i <= |files|
    && |sources| == |moved| == |songIds|
    && (forall k :: 0 <= k < |moved| ==>
          && 0 <= sources[k] < i && IsAudioFile(files[sources[k]]) && HasTags(files[sources[k]])
          && moved[k] == Destination(storage, files[sources[k]].name))
    && (forall k :: 0 <= k < |moved| ==> songIds[k] in c.songs && c.songs[songIds[k]].filePath == moved[k])
  }

  /** One more entry: the catalog only grew, and an imported entry adds its destination and song. */
  lemma ProgressStep(c: Catalog, c': Catalog, files: seq<TrackFile>, storage: string, i: int,
                     moved: seq<string>, sources: seq<int>, songIds: seq<int>, imported: Option<int>)
    requires Progress(c, files, storage, i, moved, sources, songIds) && i < |files|
    requires Grows(c.songs, c'.songs)
    requires imported.Some? ==>
               && IsAudioFile(files[i]) && HasTags(files[i]) && imported.value in c'.songs
               && c'.songs[imported.value].filePath == Destination(storage, files[i].name)
    ensures imported.None? ==> Progress(c', files, storage, i + 1, moved, sources, songIds)
    ensures imported.Some? ==>
              Progress(c', files, storage, i + 1, moved + [Destination(storage, files[i].name)],
                       sources + [i], songIds + [imported.value])
  {
    forall k | 0 <= k < |moved| ensures songIds[k] in c'.songs && c'.songs[songIds[k]].filePath == moved[k] {
      GrowsHas(c.songs, c'.songs, songIds[k]);
    }
    if imported.Some? {
      var dest := Destination(storage, files[i].name);
      var moved', sources', songIds' := moved + [dest], sources + [i], songIds + [imported.value];
      forall k | 0 <= k < |moved'|
        ensures 0 <= sources'[k] < i + 1 && IsAudioFile(files[sources'[k]]) && HasTags(files[sources'[k]])
        ensures moved'[k] == Destination(storage, files[sources'[k]].name)
        ensures songIds'[k] in c'.songs && c'.songs[songIds'[k]].filePath == moved'[k]
      {
        if k < |moved| {
          assert moved'[k] == moved[k] && sources'[k] == sources[k] && songIds'[k] == songIds[k];
        } else {
          assert moved'[k] == dest && sources'[k] == i && songIds'[k] == imported.value;
        }
      }
    }
  }

  /** One pass of the folder loop: commit entry `i` and record its destination when it was imported. */
  method ImportEntry(db: Db, files: seq<TrackFile>, i: int, storage: string, single: Option<int>, pick: Pick,
                     moved: seq<string>, ghost sources: seq<int>, ghost songIds: seq<int>)
    returns (r: Result<Option<int>, PyException>, moved': seq<string>, ghost sources': seq<int>, ghost songIds': seq<int>)
    requires db.Valid() && IsPick(pick) && 0 <= i < |files|
    requires single.Some? ==> single.value in db.catalog.artists
    requires Progress(db.catalog, files, storage, i, moved, sources, songIds)
    modifies db`catalog
    ensures db.Valid() && Extends(old(db.catalog), db.catalog)
    ensures r.Err? ==> unchanged(db) && r.error in {ValueError, UnboundLocalError}
    ensures r.Err? <==> EntryError(files[i], single.Some?).Some?
    ensures r.Err? ==> r.error == EntryError(files[i], single.Some?).value
    ensures r.Ok? ==>
              && (r.value.Some? <==> SeenAfter(files[i], single.Some?))
              && (r.value.Some? ==> r.value.value in db.catalog.artists)
              && Progress(db.catalog, files, storage, i + 1, moved', sources', songIds')
              && moved' == moved + (if IsAudioFile(files[i]) && HasTags(files[i])
                                    then [Destination(storage, files[i].name)] else [])
  {
    var addedFolder := PathJoin(storage, "added");
    var step := CommitFile(db, files[i], addedFolder, single, pick);
    EntryOutcome(old(db.catalog), files[i], addedFolder, single, pick, step);
    if step.Err? {
      return Err(step.error), moved, sources, songIds;
    }
    var imported := step.value.imported;
    assert Destination(storage, files[i].name) == PathJoin(addedFolder, files[i].name);
    ProgressStep(old(db.catalog), db.catalog, files, storage, i, moved, sources, songIds, imported);
    r := Ok(step.value.singleArtist);
    if imported.Some? {
      moved', sources', songIds' :=
        moved + [Destination(storage, files[i].name)], sources + [i], songIds + [imported.value];
    } else {
      moved', sources', songIds' := moved, sources, songIds;
    }
  }

  /**
   * `add_songs_to_db`: import the files in listing order, committing after
   * each one. The result lists the destinations the imported files are
   * moved to, each the path of a song row of the catalog; an exception
   * ends the import, keeping the files committed before it.
   */
  method AddSongsToDb(db: Db, mediaStorage: Option<string>, files: seq<TrackFile>, pick: Pick)
    returns (r: Result<seq<string>, PyException>)
    requires db.Valid() && IsPick(pick)
    modifies db`catalog
    ensures db.Valid()
    ensures !Truthy(mediaStorage) ==> r == Err(ValueError) && unchanged(db)
    ensures Extends(old(db.catalog), db.catalog)
    ensures r.Err? ==> r.error in {ValueError, UnboundLocalError}
    ensures Truthy(mediaStorage) ==> (r.Err? <==> ImportError(files, false).Some?)
    ensures Truthy(mediaStorage) && r.Err? ==> r.error == ImportError(files, false).value
    ensures r.Ok? ==> r.value == ImportedDestinations(files, mediaStorage.value)
    ensures r.Ok? ==> forall k :: 0 <= k < |r.value| ==>
              MovedFile(files, mediaStorage.value, r.value[k]) && SongStoredAt(db.catalog, r.value[k])
  {
    if mediaStorage.None? || mediaStorage.value == "" {
      return Err(ValueError);
    }
    var storage := mediaStorage.value;
    var moved: seq<string> := [];
    ghost var sources: seq<int> := [];
    ghost var songIds: seq<int> := [];
    var single: Option<int> := None;
    var i := 0;
    while i < |files|
      invariant db.Valid()
      invariant Extends(old(db.catalog), db.catalog)
      invariant single.Some? ==> single.value in db.catalog.artists
      invariant Progress(db.catalog, files, storage, i, moved, sources, songIds)
      invariant moved == ImportedDestinations(files[..i], storage)
      invariant ImportError(files, false) == ImportError(files[i..], single.Some?)
    {
      ghost var before := db.catalog;
      var step;
      ImportErrorStep(files, i, single.Some?);
      step, moved, sources, songIds := ImportEntry(db, files, i, storage, single, pick, moved, sources, songIds);
      if step.Err? {
        return Err(step.error);
      }
      ExtendsTransitive(old(db.catalog), before, db.catalog);
      DestinationsOfPrefix(files, storage, i);
      single := step.value;
      i := i + 1;
    }
    assert files[..i] == files;
    Finished(db.catalog, files, storage, moved, sources, songIds);
    r := Ok(moved);
  }

  /** At the end of the loop, every reported destination is a moved file with a song row. */
  lemma Finished(c: Catalog, files: seq<TrackFile>, storage: string,
                 moved: seq<string>, sources: seq<int>, songIds: seq<int>)
    requires Progress(c, files, storage, |files|, moved, sources, songIds)
    ensures forall k :: 0 <= k < |moved| ==> MovedFile(files, storage, moved[k]) && SongStoredAt(c, moved[k])
  {
    forall k | 0 <= k < |moved| ensures MovedFile(files, storage, moved[k]) && SongStoredAt(c, moved[k]) {
      MovedFrom(files, storage, sources[k], moved[k]);
      StoredBy(c, songIds[k], moved[k]);
    }
  }

  lemma MovedFrom(files: seq<TrackFile>, storage: string, j: int, dest: string)
    requires 0 <= j < |files| && IsAudioFile(files[j]) && HasTags(files[j])
    requires dest == Destination(storage, files[j].name)
    ensures MovedFile(files, storage, dest)
  {
  }

  lemma StoredBy(c: Catalog, id: int, path: string)
    requires id in c.songs && c.songs[id].filePath == path
    ensures SongStoredAt(c, path)
  {
  }

  /** Playlists keep pointing at existing songs when the catalog only grows. */
  lemma ExtendsKeepsPlaylists(playlists: map<int, Playlist>, c: Catalog, c': Catalog)
    requires PlaylistSongsExist(playlists, c) && Extends(c, c')
    ensures PlaylistSongsExist(playlists, c')
  {
    forall p, i | p in playlists && 0 <= i < |playlists[p].songs|
      ensures playlists[p].songs[i] in c'.songs
    {
      var song := playlists[p].songs[i];
      assert song in c.songs;
      assert Grows(c.songs, c'.songs);
      assert song in c'.songs;
    }
  }
}
