# AudioDementiaServer in Dafny

This project models the core of AudioDementiaServer, a Flask server for a
music library. It covers:

- the account views: registration, and issuing, refreshing and revoking tokens;
- the catalog and playlist views: parameter checking, searches and listings,
  playlist creation and deletion, adding and removing songs, and streaming a song;
- the JSON response envelopes of `messages.py` and `errors.py`;
- the database entities of `models.py` and `BaseModel.to_dict`;
- the folder importer `add_songs_to_db`, which turns `.mp3` files into songs,
  artists, albums and genres.

The database is a class `Database.Db`. Its fields are the user table, the
playlist table, the music catalog and the refresh-token table, and its
`Valid()` invariant collects:

- the primary keys;
- the unique login;
- the unique artist title;
- the non-null foreign keys of a song;
- the unique `(artist, album)` pairs.

The views that change the store are methods on a `Db`. Each states the
response for every branch, and states the new tables or `unchanged(db)`.
The read-only views are functions.

Some code is outside this model: the model methods the views call, password
hashing, token generation, last.fm lookups and tag reading. Each enters as a
function-valued input or as a field of the input record. Where the tests
rely on such a method, a predicate states what they rely on:

- `Users.Lawful` for the refresh-token operations;
- `Media.Paginates` for the paginated queries;
- `AddSongs.IsPick` for `.first()`.

Modules, one per file:

| module | file | models |
|---|---|---|
| `Wrappers` | wrappers.dfy | `Option` and `Result` |
| `PyText` | pytext.dfy | `str.isspace`, `int(str)`, `str(int)`, `split(sep)[0]`, `os.path.splitext`, `os.path.join` and `os.path.dirname` |
| `Dicts` | dicts.dfy | `d[k] = v` in a loop, where the last write wins |
| `Http` | http.dfy | JSON values, responses, werkzeug reason phrases, escaped exceptions |
| `Messages` | messages.dfy | `ad_server/views/messages.py` |
| `Errors` | errors.dfy | `ad_server/views/errors.py` |
| `Models` | models.dfy | `ad_server/models.py` |
| `Database` | database.dfy | the store the views and the importer share |
| `Media` | media.dfy | `ad_server/views/media.py` |
| `Users` | users.dfy | `ad_server/views/users.py` |
| `AddSongs` | addsongs.dfy | `ad_server/utils/addsongs.py` |

## Model

| member | source | states |
|---|---|---|
| `PyText.BlankMeansAllSpace` | ad_server/views/media.py:137 | `title == '' or title.isspace()` holds exactly when every character of the title is white space |
| `PyText.IntToStringRoundTrip` | ad_server/views/media.py:321-322 | `int(str(n)) == n` for every integer, negatives included: an id rendered into a message or a `last_id` parses back to itself |
| `PyText.LetterIsNotInt` | ad_server/views/media.py:31-32 | text that begins with a letter makes `int()` raise `ValueError` |
| `PyText.Mp3Extension` | ad_server/utils/addsongs.py:32 | `splitext(f)[1] == '.mp3'` holds exactly when the name ends in `.mp3` and some character before that is not a dot |
| `PyText.DirnameOfJoin` | tests/test_add_songs.py:27-28 | the directory part of `join(dir, name)` is `dir`, for a name without a slash |
| `PyText.BeforeFirstOfJoined` | ad_server/utils/addsongs.py:42 | `(a + sep + b).split(sep)[0] == a` when `a` has no `sep` |
| `Dicts.AssignKeys` | ad_server/views/messages.py:14-15 | after assigning pairs in order, the keys are the old keys plus the assigned ones |
| `Dicts.AssignUntouched` | ad_server/views/messages.py:14-15 | a key that no pair assigns keeps its old value |
| `Dicts.AssignLastWins` | ad_server/views/messages.py:14-15 | a key gets the value of its last assignment |
| `Messages.SendMessage` | ad_server/views/messages.py:7-19 | the loop builds the envelope: base entries, then every extra copied in order |
| `Messages.EnvelopeContents` | ad_server/views/messages.py:7-19 | the status code is the one passed in, and the keys are exactly `status`, `message` and the extras. `status` is the reason phrase (with the `Internal Server Error` fallback) and `message` is the message, unless an extra replaces it. Each extra has the value of its last occurrence |
| `Messages.ExtraOverridesStatus` | ad_server/views/messages.py:14-15 | an extra named `status` replaces the reason phrase |
| `Messages.BadRequest` | ad_server/views/messages.py:23-24 | 400 with phrase `Bad Request` and the message, nothing else |
| `Messages.InternalError` | ad_server/views/messages.py:26-27 | 500 with phrase `Internal Server Error` and the message |
| `Messages.Forbidden` | ad_server/views/messages.py:29-30 | 403 with phrase `Forbidden` and the message |
| `Messages.NotFound` | ad_server/views/messages.py:32-33 | 404 with phrase `Not Found` and the message |
| `Messages.Unauthorized` | ad_server/views/messages.py:35-36 | 401 with phrase `Unauthorized` and the message |
| `Messages.Success` | ad_server/views/messages.py:42-43 | the status code as given (200 by default), the keys `status`, `message` and the extras, and each extra with its last value |
| `Messages.SuccessDefaults` | ad_server/views/messages.py:42-43 | `success(message)` is exactly the plain 200 `OK` envelope |
| `Errors.Error` | ad_server/views/errors.py:5-12 | the status code as given, and exactly the keys `error` (the reason phrase, or `Internal Server Error` for an unknown code) and `message` |
| `Errors.BadRequest` | ad_server/views/errors.py:15-16 | 400 with `error` = `Bad Request` |
| `Errors.InternalError` | ad_server/views/errors.py:19-20 | 500 with `error` = `Internal Server Error` |
| `Errors.Forbidden` | ad_server/views/errors.py:23-24 | 403 with `error` = `Forbidden` |
| `Errors.NotFound` | ad_server/views/errors.py:27-28 | 404 with `error` = `Not Found` |
| `Errors.ErrorMatchesEnvelope` | ad_server/views/errors.py:5-12 | `error(s, m)` and `send_message(s, m)` agree on status code, reason phrase and message |
| `Errors.UnknownStatusPhrase` | ad_server/views/errors.py:7 | a status that werkzeug's table does not name keeps its code, gets the `Internal Server Error` phrase, and has an empty message by default |
| `Models.FindByLogin` | ad_server/views/users.py:19 | finds a user exactly when the login is taken, and the user found has that login |
| `Models.AlbumArtistRowsUnique` | ad_server/models.py:76-81 | an album's artist list satisfies the unique `(artist_id, album_id)` constraint of `album_artist` exactly when no artist repeats |
| `Models.ToDict` | ad_server/models.py:11-20 | the loop assigns the exported attributes in `__dict__` order |
| `Models.ExportedPairsMembers` | ad_server/models.py:13-19 | the assigned pairs are exactly the attributes that are neither underscored nor callable, with their values |
| `Models.ToDictContents` | ad_server/models.py:11-20 | the keys of `to_dict` are exactly the class attribute names (`__class__.__dict__`) that are neither underscored nor callable on the instance. With distinct names, each maps to the attribute's value |
| `Models.ExportedNamesDistinct` | ad_server/models.py:13-19 | distinct attribute names give distinct assigned keys |
| `Media.FirstFailure` | ad_server/views/media.py:25-32 | the index of the first declared parameter that fails: every earlier one converts |
| `Media.ConvertedPairs` | ad_server/views/media.py:31 | the `kwargs[p] = t(param)` assignments, one per declared parameter, in order |
| `Media.CheckParams` | ad_server/views/media.py:21-37 | the decorator loop computes `RequiredParams`: reject at the first failure, otherwise pass every converted parameter |
| `Media.RejectsFirstBadParam` | ad_server/views/media.py:32-34 | the first missing or unconvertible parameter is reported as 400 `Parameter {p} of type {t} is required` |
| `Media.ProceedsWithEveryParam` | ad_server/views/media.py:25-35 | when all parameters convert, the view gets every declared name, each bound to its converted value |
| `Media.StrParamNeverFails` | ad_server/views/media.py:31 | a present `str` parameter never fails, and it is passed on as `str(value)` |
| `Media.NullIntParamEscapes` | ad_server/views/media.py:31-32 | `int(None)` from a JSON null raises `TypeError`, which the decorator lets escape |
| `Media.NonIntegerIdRejected` | tests/test_media_views.py:39-51 | `id=notinteger` in the query string is rejected with the 400 parameter message |
| `Media.QueryTextNotInt` | ad_server/views/media.py:30-32 | query text that `int()` refuses is the `ValueError` case |
| `Media.RejectedViewNotCalled` | ad_server/views/media.py:33-35 | when the decorator rejects, the response does not depend on the view |
| `Media.PageDefaults` | ad_server/views/media.py:64-65 | `per_page` defaults to 20 and `last_id` to 0, and a given non-empty value is passed through as text |
| `Media.NextPageFollows` | tests/test_media_views.py:390-440 | chaining pages by the last id gives two disjoint pages that ascend together |
| `Media.ChainedPages` | tests/test_media_views.py:390-440 | a page past the last id of an ascending page continues it |
| `Media.PageAfterCursor` | tests/test_media_views.py:390-440 | a page fetched with `last_id = str(id)` holds only rows after `id` |
| `Media.ListResponseClassifies` | ad_server/views/media.py:69-77 | a failed query gives 500, an empty one 404, and otherwise 200 with the rows under the key. Each of the three statuses holds exactly in its case |
| `Media.PlaylistSongs` | ad_server/views/media.py:53-77 | an unknown playlist is 404 `Playlist not found`, otherwise the page is classified |
| `Media.GenreSongs` | ad_server/views/media.py:80-104 | an unknown genre is 404 `Genre not found`, otherwise the page is classified |
| `Media.AlbumSongs` | ad_server/views/media.py:107-128 | an unknown album is 404 `Album not found`, otherwise the songs are classified |
| `Media.TitleSearch` | ad_server/views/media.py:137-153 | a blank title is 400 `Title parameter is an empty string`, otherwise the page is classified |
| `Media.BlankTitleRunsNoQuery` | ad_server/views/media.py:162-163 | for a blank title, the three search views answer 400 whatever their queries do |
| `Media.TopList` | ad_server/views/media.py:40-50 | a failed or empty ranking is 500, otherwise 200 `Top 5 ...` with the rows |
| `Media.TopGenres` | ad_server/views/media.py:40-50 | `top_genres`: a failed or empty ranking is 500, otherwise 200 `Top 5 genres` with the rows under `genres` |
| `Media.TopAlbums` | ad_server/views/media.py:235-245 | `top_albums`: a failed or empty ranking is 500, otherwise 200 `Top 5 albums` with the rows under `albums` |
| `Media.SongsByTitle` | ad_server/views/media.py:131-153 | `songs_by_title`: a blank title is 400; otherwise the page is 404 `Songs not found with title <t>`, or 200 `Songs mathing title <t>` with the rows under `songs`, or 500 when the query fails |
| `Media.SongsByArtist` | ad_server/views/media.py:156-178 | `songs_by_artist`: a blank title is 400; otherwise 404 `Songs not found for artist <t>`, or 200 `Songs by artist matching title <t>` with the rows under `songs`, or 500 |
| `Media.AlbumsByTitle` | ad_server/views/media.py:210-232 | `albums_by_title`: a blank title is 400; otherwise 404 `Albums not found with title <t>`, or 200 `Abums mathing title <t>` with the rows under `albums`, or 500 |
| `Media.UserPlaylists` | ad_server/views/media.py:248-278 | an unknown `username` is 404 `User not found`. A missing or empty one means the caller. The target's playlists are classified |
| `Media.ChecksInOrder` | ad_server/views/media.py:318-331 | a missing playlist is 404, then a stranger gets 403 `Operation is forbidden`, then a missing song is 404. All checks pass exactly when the playlist exists, the caller owns it and the song exists |
| `Media.CreatePlaylist` | ad_server/views/media.py:281-305 | a blank title is 400 and a store failure 500, both with nothing changed. Otherwise exactly one playlist is added under a fresh id, with that title, owned by the caller and empty |
| `Media.CreateAddsOneOwned` | ad_server/views/media.py:295-299 | creating a playlist gives its owner exactly one more playlist and no one else any |
| `Media.AddSongToPlaylist` | ad_server/views/media.py:308-341 | a failed check returns its response and a store failure 500, both with nothing changed. Otherwise the song is appended to that playlist and nothing else changes |
| `Media.RemoveFirst` | ad_server/views/media.py:370 | `list.remove`: one fewer element when present, unchanged when absent, and the multiset loses exactly one copy |
| `Media.RemovedSongsExist` | ad_server/views/media.py:370 | after a removal, every playlist entry is still an existing song |
| `Media.RemoveAfterAdd` | tests/test_media_views.py:344-364 | removing a song just added restores the playlist |
| `Media.AddRemoveMembership` | tests/test_media_views.py:344-364 | after adding, the song is a member and the count is one more. After removing it again, the count is back and the song is gone |
| `Media.DeleteSongFromPlaylist` | ad_server/views/media.py:344-380 | a failed check returns its response. A song not in the playlist is 400 `This song is already not in playlist`. A store failure is 500. All three change nothing. Otherwise the first occurrence is removed and nothing else changes |
| `Media.DeletePlaylist` | ad_server/views/media.py:383-409 | a failed check returns its response and a store failure 500, both with nothing changed. Otherwise exactly that playlist is removed, and the message names the playlist and the owner's login |
| `Media.DeleteRemovesOnlyIt` | ad_server/views/media.py:401-405 | the owner loses exactly the deleted playlist and keeps all the others |
| `Media.DeleteMessageNames` | ad_server/views/media.py:404-405 | the deletion message contains the playlist title and the owner's login |
| `Media.StreamFile` | ad_server/views/media.py:195-202 | the chunks are non-empty, at most 512 bytes, all but the last exactly 512, and together they are the file |
| `Media.StreamSong` | ad_server/views/media.py:181-207 | an unknown id is 400 `Invalid id provided` with no commit. Otherwise the commit happens and the file is streamed as `audio/mpeg` in chunks of at most 512 bytes |
| `Users.RegisterUser` | ad_server/views/users.py:11-25 | a missing or empty login or password is 400 and a taken login is 400, both with nothing changed. Otherwise exactly one user with that login is added |
| `Users.RegistrationTakesLogin` | ad_server/views/users.py:19-24 | a registration makes the login taken, keeps logins unique and adds exactly one user |
| `Users.GetToken` | ad_server/views/users.py:28-38 | returns 200 `Access token retrieved` with the access token and the new refresh token, stores the new token table, and changes nothing else |
| `Users.RefreshToken` | ad_server/views/users.py:41-54 | a missing token is 400 and an invalid one 401 `Provided token is not valid`. Otherwise 200 with an access token for the token's user |
| `Users.RevokeToken` | ad_server/views/users.py:57-66 | a missing token is 400 with nothing changed. Otherwise it always succeeds, and the token table is the revoked one |
| `Users.IssuedTokenRefreshes` | tests/test_users_views.py:107-116 | a refresh token from `get_token` buys an access token for the same user |
| `Users.RevokedTokenRefused` | tests/test_users_views.py:125-142 | a revoked token is refused with 401 |
| `AddSongs.TrackNumber` | ad_server/utils/addsongs.py:41-42 | no tag gives no position, and text before `/` that is not an integer is `ValueError` |
| `AddSongs.TrackOfTotal` | ad_server/utils/addsongs.py:41-42 | a tag `n/total` gives position `n` |
| `AddSongs.LetterTrackFails` | ad_server/utils/addsongs.py:41-42 | a tag beginning with a letter raises `ValueError` |
| `AddSongs.FindArtist` | ad_server/utils/addsongs.py:55 | finds an artist exactly when one has the title, and it is that artist |
| `AddSongs.GetOrCreateArtists` | ad_server/utils/addsongs.py:52-59 | each name resolves in order to an artist with exactly that title: the existing one if there is one, otherwise a new one. Existing rows are kept and the catalog stays valid |
| `AddSongs.ResolveArtists` | ad_server/utils/addsongs.py:54-59 | the artist loop on the artist table keeps titles unique and creates only artists whose title was missing |
| `AddSongs.SameTitleSameArtist` | ad_server/models.py:47 | a name given twice resolves to the same artist |
| `AddSongs.GetOrCreateGenres` | ad_server/utils/addsongs.py:95-102 | each name resolves to a genre with that title, an existing one whenever one exists. New genres are created only for missing titles. Existing rows are kept |
| `AddSongs.ResolveGenres` | ad_server/utils/addsongs.py:97-102 | the genre loop on the genre table, with the same promise |
| `AddSongs.ExtendsTransitive` | ad_server/utils/addsongs.py:28-123 | catalog growth composes across blocks and files |
| `AddSongs.Without` | ad_server/utils/addsongs.py:87 | the comprehension keeps exactly the values of `extra` not in the list |
| `AddSongs.ExtendAsWrittenDuplicates` | ad_server/utils/addsongs.py:86-88 | as written, a tag naming one artist twice links it twice, breaking the `album_artist` unique pair |
| `AddSongs.ExtendUnique` | ad_server/utils/addsongs.py:86-88 | the corrected extension keeps the old list as a prefix, adds exactly the new values, and adds no repeats |
| `AddSongs.ExtendUniqueAgrees` | ad_server/utils/addsongs.py:86-88 | when the extra values are distinct, the corrected and the written extension agree |
| `AddSongs.PlanAlbum` | ad_server/utils/addsongs.py:61-93 | the fallback album is chosen exactly when a lookup fails. An existing matching album is reused when there is one. Otherwise a new album gets the looked-up covers |
| `AddSongs.ApplyPlan` | ad_server/utils/addsongs.py:74-93 | a reused album changes nothing. Otherwise exactly one album row is added under the next id and nothing else changes: a created album has the title, the covers and the deduplicated artists, and the fallback is an `unknown` album without artists |
| `AddSongs.AddAlbumGenres` | ad_server/utils/addsongs.py:103 | only this album changes, and its genre list becomes the old list extended as written. Its genres are afterwards exactly the old ones and the resolved ones, and the catalog stays valid |
| `AddSongs.PlaceAlbum` | ad_server/utils/addsongs.py:61-103 | the album is as planned, lists every artist name (when created) and every genre name of the tags, and the catalog only grows. No other album changes, each genre of the album was there before or carries a title of the tag, and each new genre row carries a title of the tag that no genre had |
| `AddSongs.PlaceGenres` | ad_server/utils/addsongs.py:95-103 | the genre block lists every genre name of the tag on the album and changes no other album, artist or song. The album gains only genres titled by the tag, and new genre rows carry missing titles of the tag |
| `AddSongs.GenreBlockConfined` | ad_server/utils/addsongs.py:103 | an album holding its old genres and the resolved ones holds only genres it had or genres titled by the tag |
| `AddSongs.GenresFromTagBefore` | ad_server/utils/addsongs.py:74-103 | the album block reuses an album unchanged or makes one without genres, so "had before the genre block" means "had before the file" |
| `AddSongs.LinkedArtistsListed` | ad_server/utils/addsongs.py:84-88 | an album linked to the resolved artists lists every artist name of the tag |
| `AddSongs.AddedGenresListed` | ad_server/utils/addsongs.py:95-103 | an album holding the resolved genres lists every genre name of the tag |
| `AddSongs.KeepsPlannedAlbum` | ad_server/utils/addsongs.py:95-103 | adding genres keeps what the album block made of the album |
| `AddSongs.PlaceTags` | ad_server/utils/addsongs.py:52-103 | the artist, album and genre blocks together: artists in tag order, the planned album, the genres listed, and no song yet. Nothing changes beyond the tag: no other album, and every new artist and genre row and every genre added to the album carries a title the tag names |
| `AddSongs.SongRowImported` | ad_server/utils/addsongs.py:105-119 | after the artist, album and genre blocks, the added song row imports the file as its tags say. The catalog stays valid and only grows, and the single artist carries on. The song is fresh and carries the file's title and destination. It links to the single artist and to the album as planned |
| `AddSongs.SongFromTags` | ad_server/utils/addsongs.py:108-116 | the new song has the file's title, `added/<name>` path, track position and duration, and links to the single artist and the album |
| `AddSongs.ImportTagged` | ad_server/utils/addsongs.py:52-119 | `UnboundLocalError` exactly when the tag does not name one artist and no earlier file set `single_artist`. Otherwise the file is imported as its tags say, and no other album changes and no artist or genre row appears that the tag does not name |
| `AddSongs.ImportFile` | ad_server/utils/addsongs.py:28-119 | a non-`.mp3` entry is skipped. A bad track number is `ValueError`. A file without a title or artists is skipped. Otherwise the file is imported, or `UnboundLocalError` exactly when `single_artist` is unbound. A skip changes nothing |
| `AddSongs.DestinationInAdded` | ad_server/utils/addsongs.py:26 | the destination lies directly in `<MEDIA_STORAGE>/added` |
| `AddSongs.CommitFile` | ad_server/utils/addsongs.py:110-119 | the outcome of the file as `ImportFile` states it, against the catalog before the file. An exception leaves the database unchanged. Otherwise the catalog is the file's result, only grows, and stays valid, and an imported file has a song whose path is its destination |
| `AddSongs.ImportedFileStored` | ad_server/utils/addsongs.py:108-118 | after a file the catalog is valid and extends the one before, and an imported file has a song row at `added/<name>` |
| `AddSongs.Commit` | ad_server/utils/addsongs.py:118 | the session's catalog becomes the file's result and the database stays valid |
| `AddSongs.ProgressStep` | ad_server/utils/addsongs.py:28-123 | each entry keeps the bookkeeping: destinations come from imported files, each with a song row |
| `AddSongs.AddSongsToDb` | ad_server/utils/addsongs.py:20-123 | no `MEDIA_STORAGE` is `ValueError` with nothing changed. The catalog only grows and stays valid. With a storage set, an exception is raised exactly when `ImportError` of the listing names one, and it is that exception. Without an exception the result is exactly the destinations of the entries that pass both filters, in listing order, each the path of a song row |
| `AddSongs.ImportEntry` | ad_server/utils/addsongs.py:28-119 | one entry raises exactly the exception `EntryError` names for it, leaving the database unchanged. Otherwise `single_artist` is bound afterwards exactly when it was before or the entry was imported, and the entry's destination is added exactly when it passes both filters |
| `AddSongs.EntryError` | ad_server/utils/addsongs.py:28-42 | only an `.mp3` entry can raise: `ValueError` for a bad track number, `UnboundLocalError` for a tagged file without exactly one artist while `single_artist` is unbound (lines 105-115) |
| `AddSongs.ImportError` | ad_server/utils/addsongs.py:26-115 | the exception that stops the loop is that of the first entry that raises; a listing with no `.mp3` file raises nothing |
| `AddSongs.BoundNeverUnbound` | ad_server/utils/addsongs.py:105-106 | once `single_artist` is bound, no later entry raises `UnboundLocalError` |
| `AddSongs.ImportErrorStep` | ad_server/utils/addsongs.py:26-115 | the loop raises at entry `i` or carries on with the rest, `single_artist` updated |
| `AddSongs.EntryOutcome` | ad_server/utils/addsongs.py:28-119 | a file's outcome raises exactly `EntryError`'s exception, and binds `single_artist` exactly as `SeenAfter` says |
| `AddSongs.ImportedDestinations` | ad_server/utils/addsongs.py:28-123 | the destinations of the entries that pass both filters, no more than there are entries |
| `AddSongs.DestinationsOfPrefix` | ad_server/utils/addsongs.py:28-123 | one more entry adds its destination exactly when it passes both filters |
| `AddSongs.Finished` | ad_server/utils/addsongs.py:121-123 | every file moved at the end has a song row at its destination |
| `AddSongs.ExtendsKeepsPlaylists` | ad_server/utils/addsongs.py:118-119 | importing keeps every playlist entry pointing at an existing song |

## Left out

- Flask plumbing is not modelled: routing, `jsonify`, headers, `g.current_user` and request parsing. The acting user and the parsed request are inputs.
- JSON parameter values are limited to null, booleans, integers and strings. Floats, lists and objects are not modelled.
- `int()` accepts only ASCII digits here. Unicode digits are not modelled.
- PyText.IsSpaceChar: lists the white-space code points of Python's `str.isspace` by number. No Unicode database is consulted.
- The model methods the views call are not in `ad_server/models.py` and enter as inputs: `get_songs`, `get_by_title`, `get_by_artist_title`, `get_top`, `get_playlists`, `play_song`, `RefreshToken.*` and the `User(password=...)` constructor. Position and expiry algorithms are not invented.
- Media.NextPageFollows: pagination is stated only as the contract the tests check, through the predicate `Paginates`. It is not derived from a query.
- Media.AddSongToPlaylist: `Playlist.add_song` is modelled as appending the song id. Position numbering and `song_count` are not part of this model.
- Media.StreamSong: the generator is modelled as the full chunk list. Laziness and partial reads are not modelled.
- Media.StreamSong: `play_song`'s increment of `listens_count` is not modelled. Its result is an input.
- A store failure (`SQLAlchemyError`) is the boolean input `storeFails`. Rollback is modelled as "nothing changed", and concurrency is not modelled.
- `ad_server/views/auth.py` is not part of this model. The caller of a protected view is given, and token and password checks are not modelled.
- The refresh-token table is a map from token to `(user_id, expiration)`. The unique `user_id` of the migration is not enforced.
- One id counter serves all four catalog tables. Which id the database assigns to a new row is not modelled beyond "fresh".
- The importer's directory listing, `EasyMP3` tag reading, the regular expression that splits tag text into names, and the file move are not modelled. Each file arrives as a `TrackFile` carrying their results, and the move is reported as a destination path.
- `duration` is a float in the source and is kept as an opaque optional value.
- The last.fm calls pass keywords that `search_on_lastfm` does not accept, so in the source they raise `TypeError`. The model follows the intended behaviour: a lookup returns data or fails with `ConnectionError`.
- `.first()` is the input `Pick`: some row of the matching set, or none when the set is empty. Which row the database returns is not modelled.
- AddSongs.PlanAlbum: matches albums against the catalog before the artist loop. New artists belong to no album yet, so the match is the same.
- Http.StatusPhrase: is werkzeug 1.0's `HTTP_STATUS_CODES`. The repository pins no werkzeug version, and other versions name a few codes differently.
- AddSongs.ApplyPlan: links a new album to its artists with the corrected extension of the Findings table, so an artist named twice is linked once.
- AddSongs.AddAlbumGenres: follows line 103 as written, so a genre named twice by the tag is listed twice on the album. No constraint on the album's genres is declared.
- AddSongs.ImportTagged: follows the source as written in two places. `single_artist` carries over from an earlier file, or is unbound when no file has set it yet. The album query filters on the last artist name of the tag.
- `Album.artists`, `Album.genres` and `Playlist.songs` are used by the views and the importer but are not declared in `ad_server/models.py`. The model keeps them as id lists on the records.
- Two stale references are not modelled: the `filepath` keyword against the `file_path` column, and the `AlbumGenre` import in the tests.
- One test expects the message `Provided refresh token is not valid`. The source's message is `Provided token is not valid`, and the model follows the source.
- `errors.unauthorized`, which `auth.py` calls, does not exist in `ad_server/views/errors.py` and is not modelled.

## Findings

| source | as written | input that shows it | evidently intended | confidence | as-written member | corrected member |
|---|---|---|---|---|---|---|
| ad_server/utils/addsongs.py:86-88 | `album.artists.extend([a for a in artists if a not in album.artists])` filters against the list as it was before the extension. Line 103 does the same for genres, but no unique constraint is declared for them, so the model keeps that line as written | an `artist` tag that splits into the same name twice, such as `Foo, Foo`: both names resolve to the same artist, and the new album is linked to it twice | each artist is linked to the album at most once, as the unique `(artist_id, album_id)` constraint of `album_artist` requires | not executed | `AddSongs.ExtendAsWrittenDuplicates` | `AddSongs.ExtendUnique`, `AddSongs.ExtendUniqueAgrees` |
