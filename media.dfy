/**
 * The catalog and playlist views of `ad_server/views/media.py`.
 *
 * The acting user (`g.current_user`) and the parsed request are explicit
 * inputs. The model methods the views call but whose code is not part of
 * this model (`get_songs`, `get_by_title`, `get_by_artist_title`,
 * `get_top`, `get_playlists`, `play_song`) are function-valued inputs; a
 * database error during commit is the input `storeFails`.
 */
module Media {
  import opened Wrappers
  import opened Http
  import opened Dicts
  import opened PyText
  import opened Models
  import opened Database
  import opened Messages

  // ---------------------------------------------------------------------
  // required_params
  // ---------------------------------------------------------------------

  datatype ParamType = IntParam | StrParam

  /** `t.__name__` */
  function TypeName(t: ParamType): string {
    match t
    case IntParam => "int"
    case StrParam => "str"
  }

  /** A parameter value as a JSON body carries it. */
  datatype ParamValue = PNull | PBool(b: bool) | PInt(i: int) | PStr(s: string)

  /** The parts of a request the views read. */
  datatype Request = Request(
    isJson: bool,
    json: map<string, ParamValue>,
    args: map<string, string>,
    form: map<string, string>)

  /**
   * `request.json[p]` for a JSON request, else `request.values[p]` (the
   * query string, then the form); `None` is the `KeyError`.
   */
  function Lookup(req: Request, p: string): Option<ParamValue> {
    if req.isJson then
      if p in req.json then Some(req.json[p]) else None
    else if p in req.args then Some(PStr(req.args[p]))
    else if p in req.form then Some(PStr(req.form[p]))
    else None
  }

  /** A converted argument handed to the view. */
  datatype Arg = IntArg(i: int) | StrArg(s: string)

  /** The `KeyError`, `ValueError` and `TypeError` that fetching and converting can raise. */
  datatype ParamError = Missing | BadValue | WrongType

  /** Python's `str(v)`. */
  function PyStr(v: ParamValue): string {
    match v
    case PNull => "None"
    case PBool(b) => if b then "True" else "False"
    case PInt(i) => IntToString(i)
    case PStr(s) => s
  }

  /** `t(param)`: Python's `int(...)` or `str(...)`. */
  function Convert(t: ParamType, v: ParamValue): Result<Arg, ParamError> {
    match t
    case StrParam => Ok(StrArg(PyStr(v)))
    case IntParam =>
      match v
      case PNull => Err(WrongType)
      case PBool(b) => Ok(IntArg(if b then 1 else 0))
      case PInt(i) => Ok(IntArg(i))
      case PStr(s) =>
        match ParseInt(s)
        case Some(n) => Ok(IntArg(n))
        case None => Err(BadValue)
  }

  /** One step of the decorator's loop: fetch parameter `p` and convert it. */
  function Fetch(req: Request, p: string, t: ParamType): Result<Arg, ParamError> {
    match Lookup(req, p)
    case None => Err(Missing)
    case Some(v) => Convert(t, v)
  }

  /** The decorator's argument: parameter names and types, in declaration order. */
  type Required = seq<(string, ParamType)>

  /** The index of the first declared parameter that cannot be fetched and converted, or `|required|`. */
  function FirstFailure(required: Required, req: Request): (k: nat)
    ensures k <= |required|
    ensures forall j :: 0 <= j < k ==> Fetch(req, required[j].0, required[j].1).Ok?
    ensures k < |required| ==> Fetch(req, required[k].0, required[k].1).Err?
  {
    if required == [] then 0
    else if Fetch(req, required[0].0, required[0].1).Err? then 0
    else 1 + FirstFailure(required[1..], req)
  }

  predicate AllFetched(required: Required, req: Request) {
    forall j :: 0 <= j < |required| ==> Fetch(req, required[j].0, required[j].1).Ok?
  }

  /** The `kwargs[p] = t(param)` assignments of a run in which every parameter converts. */
  function ConvertedPairs(required: Required, req: Request): (pairs: seq<(string, Arg)>)
    requires AllFetched(required, req)
    ensures |pairs| == |required|
    ensures forall j :: 0 <= j < |pairs| ==>
              pairs[j] == (required[j].0, Fetch(req, required[j].0, required[j].1).value)
  {
    seq(|required|, j requires 0 <= j < |required| && AllFetched(required, req) =>
      (required[j].0, Fetch(req, required[j].0, required[j].1).value))
  }

  /** Converting one more parameter extends the assignments by one pair. */
  lemma ConvertedPairsSnoc(required: Required, req: Request, i: nat)
    requires i < |required|
    requires AllFetched(required[..i], req)
    requires Fetch(req, required[i].0, required[i].1).Ok?
    ensures AllFetched(required[..i + 1], req)
    ensures ConvertedPairs(required[..i + 1], req) ==
              ConvertedPairs(required[..i], req) + [(required[i].0, Fetch(req, required[i].0, required[i].1).value)]
  {
    var pre := required[..i];
    var ext := required[..i + 1];
    assert forall j :: 0 <= j < i ==> ext[j] == pre[j];
    assert ext[i] == required[i];
  }

  /** The decorator's error message. */
  function MissingParamMessage(p: string, t: ParamType): string {
    "Parameter " + p + " of type " + TypeName(t) + " is required"
  }

  /** What the decorator does: call the view with these arguments, or answer without calling it. */
  datatype Guard = Proceed(args: map<string, Arg>) | Reject(response: Response)

  /**
   * The outcome of `required_params(required)` on a request: the first
   * parameter that is missing or fails to convert with `ValueError` yields
   * the 400 message; a `TypeError` (`int(None)`) is not caught and escapes;
   * otherwise every parameter is passed on converted.
   */
  function RequiredParams(required: Required, req: Request): Guard {
    var k := FirstFailure(required, req);
    if k == |required| then
      Proceed(Assign(map[], ConvertedPairs(required, req)))
    else if Fetch(req, required[k].0, required[k].1) == Err(WrongType) then
      Reject(Uncaught(TypeError))
    else
      Reject(BadRequest(MissingParamMessage(required[k].0, required[k].1)))
  }

  /** `required_params`' wrapper `check_params`: fill `kwargs` one parameter at a time. */
  method CheckParams(required: Required, req: Request) returns (g: Guard)
    ensures g == RequiredParams(required, req)
  {
    var kwargs: map<string, Arg> := map[];
    var i := 0;
    while i < |required|
      invariant 0 <= i <= |required|
      invariant i <= FirstFailure(required, req)
      invariant AllFetched(required[..i], req)
      invariant kwargs == Assign(map[], ConvertedPairs(required[..i], req))
    {
      var (p, t) := required[i];
      var fetched := Fetch(req, p, t);
      if fetched.Err? {
        assert FirstFailure(required, req) == i;
        if fetched.error == WrongType {
          return Reject(Uncaught(TypeError));
        }
        return Reject(BadRequest(MissingParamMessage(p, t)));
      }
      ConvertedPairsSnoc(required, req, i);
      AssignSnoc(map[], ConvertedPairs(required[..i], req), (p, fetched.value));
      kwargs := kwargs[p := fetched.value];
      i := i + 1;
    }
    assert required[..i] == required;
    return Proceed(kwargs);
  }

  /** The view runs only when the decorator lets the request through. */
  function Guarded(g: Guard, view: map<string, Arg> -> Response): Response {
    match g
    case Reject(r) => r
    case Proceed(args) => view(args)
  }

  /** The first parameter that is missing or does not convert is the one reported, with status 400. */
  lemma RejectsFirstBadParam(required: Required, req: Request, k: nat)
    requires k < |required|
    requires forall j :: 0 <= j < k ==> Fetch(req, required[j].0, required[j].1).Ok?
    requires Fetch(req, required[k].0, required[k].1) in {Err(Missing), Err(BadValue)}
    ensures RequiredParams(required, req) ==
              Reject(BadRequest(MissingParamMessage(required[k].0, required[k].1)))
    ensures StatusOf(RequiredParams(required, req).response) == 400
  {
    var f := FirstFailure(required, req);
    assert f == k;
  }

  /**
   * When every parameter converts, the view is called with every declared
   * name bound; with distinct names, each to its converted value.
   */
  lemma ProceedsWithEveryParam(required: Required, req: Request)
    requires AllFetched(required, req)
    ensures RequiredParams(required, req).Proceed?
    ensures forall j :: 0 <= j < |required| ==> required[j].0 in RequiredParams(required, req).args
    ensures (forall i, j :: 0 <= i < j < |required| ==> required[i].0 != required[j].0) ==>
              forall j :: 0 <= j < |required| ==>
                RequiredParams(required, req).args[required[j].0] == Fetch(req, required[j].0, required[j].1).value
  {
    var pairs := ConvertedPairs(required, req);
    assert FirstFailure(required, req) == |required|;
    AssignKeys(map[], pairs);
    forall j | 0 <= j < |required| ensures required[j].0 in KeysOf(pairs) {
      assert pairs[j].0 == required[j].0;
    }
    if forall i, j :: 0 <= i < j < |required| ==> required[i].0 != required[j].0 {
      forall j | 0 <= j < |required|
        ensures Assign(map[], pairs)[required[j].0] == Fetch(req, required[j].0, required[j].1).value
      {
        assert IsLastFor(pairs, required[j].0, j);
        AssignLastWins(map[], pairs, required[j].0, j);
      }
    }
  }

  /** A `str` parameter that is present never fails: `str()` accepts any value. */
  lemma StrParamNeverFails(req: Request, p: string)
    requires Lookup(req, p).Some?
    ensures Fetch(req, p, StrParam).Ok?
    ensures Fetch(req, p, StrParam).value == StrArg(PyStr(Lookup(req, p).value))
  {
  }

  /** `int(None)` from a JSON null raises `TypeError`, which the decorator does not catch. */
  lemma NullIntParamEscapes(req: Request, p: string)
    requires req.isJson && p in req.json && req.json[p] == PNull
    ensures RequiredParams([(p, IntParam)], req) == Reject(Uncaught(TypeError))
  {
    assert FirstFailure([(p, IntParam)], req) == 0;
  }

  /** The request of the decorator test: `id=notinteger` in the query string. */
  lemma NonIntegerIdRejected()
    ensures RequiredParams([("id", IntParam)], Request(false, map[], map["id" := "notinteger"], map[])) ==
              Reject(BadRequest("Parameter " + "id" + " of type " + "int" + " is required"))
  {
    var req := Request(false, map[], map["id" := "notinteger"], map[]);
    LetterIsNotInt("notinteger");
    QueryTextNotInt(req, "id");
    RejectsFirstBadParam([("id", IntParam)], req, 0);
  }

  /** A query-string value that is not an integer fails `int()` with `ValueError`. */
  lemma QueryTextNotInt(req: Request, p: string)
    requires !req.isJson && p in req.args && ParseInt(req.args[p]) == None
    ensures Fetch(req, p, IntParam) == Err(BadValue)
  {
  }

  /** A view reached through a rejecting decorator is never called: its result does not matter. */
  lemma RejectedViewNotCalled(required: Required, req: Request, v1: map<string, Arg> -> Response, v2: map<string, Arg> -> Response)
    requires RequiredParams(required, req).Reject?
    ensures Guarded(RequiredParams(required, req), v1) == Guarded(RequiredParams(required, req), v2)
  {
  }

  // ---------------------------------------------------------------------
  // Pagination arguments and list results
  // ---------------------------------------------------------------------

  /** A `per_page` or `last_id` value: the default number, or the query-string text passed on as is. */
  datatype PageArg = PageDefault(n: int) | PageText(s: string)

  /** `request.args.get(name) or default` */
  function PageParam(args: map<string, string>, name: string, default: int): PageArg {
    if name in args && args[name] != "" then PageText(args[name]) else PageDefault(default)
  }

  function PerPage(args: map<string, string>): PageArg {
    PageParam(args, "per_page", 20)
  }

  function LastId(args: map<string, string>): PageArg {
    PageParam(args, "last_id", 0)
  }

  /** `per_page` defaults to 20 and `last_id` to 0; a given value is passed through as text. */
  lemma PageDefaults(args: map<string, string>)
    ensures "per_page" !in args ==> PerPage(args) == PageDefault(20)
    ensures "last_id" !in args ==> LastId(args) == PageDefault(0)
    ensures "per_page" in args && args["per_page"] != "" ==> PerPage(args) == PageText(args["per_page"])
    ensures "last_id" in args && args["last_id"] != "" ==> LastId(args) == PageText(args["last_id"])
  {
  }

  /** The number a page argument stands for. */
  function PageValue(a: PageArg): Option<int> {
    match a
    case PageDefault(n) => Some(n)
    case PageText(s) => ParseInt(s)
  }

  /** One result row of a catalog query: its id and its other serialised fields. */
  datatype Row = Row(id: int, fields: map<string, Json>)

  function RowJson(row: Row): Json {
    JObject(row.fields["id" := JInt(row.id)])
  }

  function RowsJson(rows: seq<Row>): Json {
    JList(seq(|rows|, i requires 0 <= i < |rows| => RowJson(rows[i])))
  }

  /** A paginated query: `(per_page, last)` to rows, or `None` when it failed. */
  type PagedQuery = (PageArg, PageArg) -> Option<seq<Row>>

  predicate StrictlyAscending(rows: seq<Row>) {
    forall i, j :: 0 <= i < j < |rows| ==> rows[i].id < rows[j].id
  }

  /** What the tests require of one page: ascending ids, all after the cursor, at most `per_page` rows. */
  predicate PageOk(rows: seq<Row>, perPage: PageArg, last: PageArg) {
    && StrictlyAscending(rows)
    && (PageValue(last).Some? ==> forall i :: 0 <= i < |rows| ==> rows[i].id > PageValue(last).value)
    && (PageValue(perPage).Some? ==> |rows| <= PageValue(perPage).value)
  }

  /** The contract of cursor pagination, for every page a query returns. */
  ghost predicate Paginates(q: PagedQuery) {
    forall perPage, last :: PageAnswered(q, perPage, last)
  }

  /** The page `q` returns for `(per_page, last)`, if any, meets `PageOk`. */
  predicate PageAnswered(q: PagedQuery, perPage: PageArg, last: PageArg) {
    q(perPage, last).Some? ==> PageOk(q(perPage, last).value, perPage, last)
  }

  /**
   * Chaining pages as a client does, passing the last id of a page as the
   * next `last_id`: the next page lies strictly after the first, so the two
   * are disjoint and together still ascend.
   */
  lemma NextPageFollows(q: PagedQuery, perPage1: PageArg, last: PageArg, perPage2: PageArg,
                        first: seq<Row>, second: seq<Row>)
    requires Paginates(q)
    requires q(perPage1, last) == Some(first) && first != []
    requires q(perPage2, PageText(IntToString(first[|first| - 1].id))) == Some(second)
    ensures StrictlyAscending(first + second)
    ensures forall i, j :: 0 <= i < |first| && 0 <= j < |second| ==> first[i].id != second[j].id
  {
    var cursor := first[|first| - 1].id;
    PageOf(q, perPage1, last, first);
    PageAfterCursor(q, perPage2, cursor, second);
    ChainedPages(first, second);
  }

  /** A page that ascends past the last id of an ascending page continues it. */
  lemma ChainedPages(first: seq<Row>, second: seq<Row>)
    requires first != [] && StrictlyAscending(first) && StrictlyAscending(second)
    requires forall j :: 0 <= j < |second| ==> second[j].id > first[|first| - 1].id
    ensures StrictlyAscending(first + second)
    ensures forall i, j :: 0 <= i < |first| && 0 <= j < |second| ==> first[i].id < second[j].id
  {
    forall i, j | 0 <= i < |first| && 0 <= j < |second| ensures first[i].id < second[j].id {
      assert first[i].id <= first[|first| - 1].id;
    }
    AscendingConcat(first, second);
  }

  lemma PageOf(q: PagedQuery, perPage: PageArg, last: PageArg, rows: seq<Row>)
    requires Paginates(q) && q(perPage, last) == Some(rows)
    ensures PageOk(rows, perPage, last)
  {
    assert PageAnswered(q, perPage, last);
  }

  /** A page fetched with `last_id` set to the text of an id ascends and holds only rows after that id. */
  lemma PageAfterCursor(q: PagedQuery, perPage: PageArg, cursor: int, rows: seq<Row>)
    requires Paginates(q) && q(perPage, PageText(IntToString(cursor))) == Some(rows)
    ensures StrictlyAscending(rows)
    ensures forall j :: 0 <= j < |rows| ==> rows[j].id > cursor
  {
    PageOf(q, perPage, PageText(IntToString(cursor)), rows);
    IntToStringRoundTrip(cursor);
  }

  /** Two ascending runs, the second entirely after the first, ascend together. */
  lemma AscendingConcat(first: seq<Row>, second: seq<Row>)
    requires StrictlyAscending(first) && StrictlyAscending(second)
    requires forall i, j :: 0 <= i < |first| && 0 <= j < |second| ==> first[i].id < second[j].id
    ensures StrictlyAscending(first + second)
  {
    var both := first + second;
    forall i, j | 0 <= i < j < |both| ensures both[i].id < both[j].id {
      if j < |first| {
        assert both[i] == first[i] && both[j] == first[j];
      } else if i >= |first| {
        assert both[i] == second[i - |first|] && both[j] == second[j - |first|];
      } else {
        assert both[i] == first[i] && both[j] == second[j - |first|];
      }
    }
  }

  const ErrorOccured := "Error occured. Please try later"
  const EmptyTitle := "Title parameter is an empty string"

  /** The classification every list view applies to a query result. */
  function ListResponse(rows: Option<seq<Row>>, notFound: string, found: string, key: string): Response {
    match rows
    case None => InternalError(ErrorOccured)
    case Some(rs) =>
      if rs == [] then NotFound(notFound) else Success(found, extras := [(key, RowsJson(rs))])
  }

  /** `r` is how a list view answers for `rows`. */
  predicate ListedAs(r: Response, rows: Option<seq<Row>>, notFound: string, found: string, key: string) {
    && (rows.None? ==> r == InternalError(ErrorOccured))
    && (rows == Some([]) ==> r == NotFound(notFound))
    && (rows.Some? && rows.value != [] ==>
          r.JsonResponse? && r.status == 200 && key in r.body && r.body[key] == RowsJson(rows.value) &&
          (key != "message" ==> MessageOf(r) == found))
  }

  /** A failed query is a 500, an empty one a 404, anything else a 200 carrying the rows under `key`. */
  lemma ListResponseClassifies(rows: Option<seq<Row>>, notFound: string, found: string, key: string)
    ensures ListedAs(ListResponse(rows, notFound, found, key), rows, notFound, found, key)
    ensures StatusOf(ListResponse(rows, notFound, found, key)) == 500 <==> rows.None?
    ensures StatusOf(ListResponse(rows, notFound, found, key)) == 404 <==> rows == Some([])
    ensures StatusOf(ListResponse(rows, notFound, found, key)) == 200 <==> rows.Some? && rows.value != []
  {
    if rows.Some? && rows.value != [] {
      var extras := [(key, RowsJson(rows.value))];
      assert IsLastFor(extras, extras[0].0, 0);
      assert "message" !in KeysOf(extras) <== key != "message";
    }
  }

  // ---------------------------------------------------------------------
  // Read-only views
  // ---------------------------------------------------------------------

  /** `playlist_songs(id)` */
  function PlaylistSongs(id: int, playlists: map<int, Playlist>, args: map<string, string>,
                         getSongs: Playlist -> PagedQuery): (r: Response)
    ensures id !in playlists ==> r == NotFound("Playlist not found")
    ensures id in playlists ==>
              ListedAs(r, getSongs(playlists[id])(PerPage(args), LastId(args)),
                       "Songs not found for playlist " + playlists[id].title,
                       "Songs from playlist " + playlists[id].title, "songs")
  {
    if id !in playlists then NotFound("Playlist not found")
    else
      var p := playlists[id];
      var rows := getSongs(p)(PerPage(args), LastId(args));
      ListResponseClassifies(rows, "Songs not found for playlist " + p.title, "Songs from playlist " + p.title, "songs");
      ListResponse(rows, "Songs not found for playlist " + p.title, "Songs from playlist " + p.title, "songs")
  }

  /** `genre_songs(id)` */
  function GenreSongs(id: int, genres: map<int, Genre>, args: map<string, string>,
                      getSongs: Genre -> PagedQuery): (r: Response)
    ensures id !in genres ==> r == NotFound("Genre not found")
    ensures id in genres ==>
              ListedAs(r, getSongs(genres[id])(PerPage(args), LastId(args)),
                       "Songs not found for genre " + genres[id].title,
                       "Songs from genre " + genres[id].title, "songs")
  {
    if id !in genres then NotFound("Genre not found")
    else
      var g := genres[id];
      var rows := getSongs(g)(PerPage(args), LastId(args));
      ListResponseClassifies(rows, "Songs not found for genre " + g.title, "Songs from genre " + g.title, "songs");
      ListResponse(rows, "Songs not found for genre " + g.title, "Songs from genre " + g.title, "songs")
  }

  /** `album_songs(id)`: the album's songs, without pagination. */
  function AlbumSongs(id: int, albums: map<int, Album>, getSongs: Album -> Option<seq<Row>>): (r: Response)
    ensures id !in albums ==> r == NotFound("Album not found")
    ensures id in albums ==>
              ListedAs(r, getSongs(albums[id]),
                       "Songs not found for album " + albums[id].title,
                       "Songs from album " + albums[id].title, "songs")
  {
    if id !in albums then NotFound("Album not found")
    else
      var a := albums[id];
      ListResponseClassifies(getSongs(a), "Songs not found for album " + a.title, "Songs from album " + a.title, "songs");
      ListResponse(getSongs(a), "Songs not found for album " + a.title, "Songs from album " + a.title, "songs")
  }

  /** The search views: reject a blank title before querying, then classify the page. */
  function TitleSearch(title: string, args: map<string, string>, query: string -> PagedQuery,
                       notFound: string, found: string, key: string): (r: Response)
    ensures IsBlank(title) ==> r == BadRequest(EmptyTitle)
    ensures !IsBlank(title) ==> ListedAs(r, query(title)(PerPage(args), LastId(args)), notFound, found, key)
  {
    if title == "" || IsSpace(title) then BadRequest(EmptyTitle)
    else
      ListResponseClassifies(query(title)(PerPage(args), LastId(args)), notFound, found, key);
      ListResponse(query(title)(PerPage(args), LastId(args)), notFound, found, key)
  }

  /** `songs_by_title(title)` */
  function SongsByTitle(title: string, args: map<string, string>, getByTitle: string -> PagedQuery): (r: Response)
    ensures IsBlank(title) ==> r == BadRequest(EmptyTitle)
    ensures !IsBlank(title) ==>
              ListedAs(r, getByTitle(title)(PerPage(args), LastId(args)),
                       "Songs not found with title " + title, "Songs mathing title " + title, "songs")
  {
    TitleSearch(title, args, getByTitle, "Songs not found with title " + title, "Songs mathing title " + title, "songs")
  }

  /** `songs_by_artist(title)` */
  function SongsByArtist(title: string, args: map<string, string>, getByArtistTitle: string -> PagedQuery): (r: Response)
    ensures IsBlank(title) ==> r == BadRequest(EmptyTitle)
    ensures !IsBlank(title) ==>
              ListedAs(r, getByArtistTitle(title)(PerPage(args), LastId(args)),
                       "Songs not found for artist " + title, "Songs by artist matching title " + title, "songs")
  {
    TitleSearch(title, args, getByArtistTitle, "Songs not found for artist " + title,
                "Songs by artist matching title " + title, "songs")
  }

  /** `albums_by_title(title)` */
  function AlbumsByTitle(title: string, args: map<string, string>, getByTitle: string -> PagedQuery): (r: Response)
    ensures IsBlank(title) ==> r == BadRequest(EmptyTitle)
    ensures !IsBlank(title) ==>
              ListedAs(r, getByTitle(title)(PerPage(args), LastId(args)),
                       "Albums not found with title " + title, "Abums mathing title " + title, "albums")
  {
    TitleSearch(title, args, getByTitle, "Albums not found with title " + title, "Abums mathing title " + title, "albums")
  }

  /**
   * A blank or white-space title is answered with 400 before any query
   * runs: the three search views answer the same whatever the queries do.
   */
  lemma BlankTitleRunsNoQuery(title: string, args: map<string, string>, q1: string -> PagedQuery, q2: string -> PagedQuery)
    requires IsBlank(title)
    ensures SongsByTitle(title, args, q1) == SongsByTitle(title, args, q2) == BadRequest(EmptyTitle)
    ensures SongsByArtist(title, args, q1) == SongsByArtist(title, args, q2) == BadRequest(EmptyTitle)
    ensures AlbumsByTitle(title, args, q1) == AlbumsByTitle(title, args, q2) == BadRequest(EmptyTitle)
  {
  }

  const TopLimit := 5

  /** `top_genres` and `top_albums`: a failed or empty ranking is a 500, not a 404. */
  function TopList(getTop: int -> Option<seq<Row>>, noun: string, key: string): (r: Response)
    ensures getTop(TopLimit).None? || getTop(TopLimit) == Some([]) ==> r == InternalError(ErrorOccured)
    ensures getTop(TopLimit).Some? && getTop(TopLimit).value != [] ==>
              r.JsonResponse? && r.status == 200 && key in r.body && "message" in r.body &&
              r.body[key] == RowsJson(getTop(TopLimit).value) &&
              (key != "message" ==> r.body["message"] == JStr("Top 5 " + noun))
  {
    var top := getTop(TopLimit);
    if top.None? || top.value == [] then InternalError(ErrorOccured)
    else
      var extras := [(key, RowsJson(top.value))];
      assert IsLastFor(extras, extras[0].0, 0);
      assert extras[0].0 in KeysOf(extras);
      assert key != "message" ==> "message" !in KeysOf(extras);
      Success("Top " + IntToString(TopLimit) + " " + noun, extras := extras)
  }

  /** `top_genres` */
  function TopGenres(getTop: int -> Option<seq<Row>>): (r: Response)
    ensures getTop(TopLimit).None? || getTop(TopLimit) == Some([]) ==> r == InternalError(ErrorOccured)
    ensures getTop(TopLimit).Some? && getTop(TopLimit).value != [] ==>
              r.JsonResponse? && r.status == 200 &&
              "genres" in r.body && "message" in r.body &&
              r.body["genres"] == RowsJson(getTop(TopLimit).value) && r.body["message"] == JStr("Top 5 genres")
  {
    TopList(getTop, "genres", "genres")
  }

  /** `top_albums` */
  function TopAlbums(getTop: int -> Option<seq<Row>>): (r: Response)
    ensures getTop(TopLimit).None? || getTop(TopLimit) == Some([]) ==> r == InternalError(ErrorOccured)
    ensures getTop(TopLimit).Some? && getTop(TopLimit).value != [] ==>
              r.JsonResponse? && r.status == 200 &&
              "albums" in r.body && "message" in r.body &&
              r.body["albums"] == RowsJson(getTop(TopLimit).value) && r.body["message"] == JStr("Top 5 albums")
  {
    TopList(getTop, "albums", "albums")
  }

  /**
   * `user_playlists`: the playlists of the user named by the `username`
   * parameter, or of the caller when it is missing or empty.
   */
  function UserPlaylists(username: Option<string>, current: User, users: map<int, User>,
                         getPlaylists: User -> Option<seq<Row>>): (r: Response)
    requires UniqueLogins(users)
    ensures username.Some? && username.value != "" && FindByLogin(users, username.value).None? ==>
              r == NotFound("User not found")
    ensures var target := if username.Some? && username.value != "" then FindByLogin(users, username.value) else Some(current);
            target.Some? ==>
              ListedAs(r, getPlaylists(target.value), "Playlists not found for user " + target.value.login,
                       "Playlists of user " + target.value.login, "playlists")
  {
    var user := if username.Some? && username.value != "" then FindByLogin(users, username.value) else Some(current);
    match user
    case None => NotFound("User not found")
    case Some(u) =>
      var rows := getPlaylists(u);
      ListResponseClassifies(rows, "Playlists not found for user " + u.login, "Playlists of user " + u.login, "playlists");
      ListResponse(rows, "Playlists not found for user " + u.login, "Playlists of user " + u.login, "playlists")
  }

  // ---------------------------------------------------------------------
  // Playlist mutations
  // ---------------------------------------------------------------------

  /** The ids of the playlists a user owns. */
  function OwnedBy(playlists: map<int, Playlist>, uid: int): set<int> {
    set id | id in playlists && playlists[id].userId == Some(uid)
  }

  /**
   * The checks of the playlist mutations, in the source's order: the
   * playlist exists, then the caller owns it. `None` when both pass.
   */
  function OwnerCheck(playlists: map<int, Playlist>, actor: User, playlistId: int): Option<Response> {
    if playlistId !in playlists then
      Some(NotFound("Playlist with id " + IntToString(playlistId) + " is not found"))
    else if playlists[playlistId].userId != Some(actor.id) then
      Some(Forbidden("Operation is forbidden"))
    else None
  }

  /** The checks of adding and removing a song: `OwnerCheck`, then the song exists. */
  function MembershipCheck(playlists: map<int, Playlist>, songs: map<int, Song>, actor: User,
                           playlistId: int, songId: int): Option<Response> {
    var owner := OwnerCheck(playlists, actor, playlistId);
    if owner.Some? then owner
    else if songId !in songs then Some(NotFound("Song with id " + IntToString(songId) + " is not found"))
    else None
  }

  /** The order of the checks: a missing playlist is a 404 even for a stranger; ownership is checked before the song. */
  lemma ChecksInOrder(playlists: map<int, Playlist>, songs: map<int, Song>, actor: User, playlistId: int, songId: int)
    ensures playlistId !in playlists ==>
              StatusOf(MembershipCheck(playlists, songs, actor, playlistId, songId).value) == 404
    ensures playlistId in playlists && playlists[playlistId].userId != Some(actor.id) ==>
              MembershipCheck(playlists, songs, actor, playlistId, songId) == Some(Forbidden("Operation is forbidden"))
    ensures MembershipCheck(playlists, songs, actor, playlistId, songId).None? <==>
              playlistId in playlists && playlists[playlistId].userId == Some(actor.id) && songId in songs
    ensures playlistId in playlists && playlists[playlistId].userId == Some(actor.id) && songId !in songs ==>
              StatusOf(MembershipCheck(playlists, songs, actor, playlistId, songId).value) == 404
  {
  }

  /** `create_playlist(title)` */
  method CreatePlaylist(db: Db, actor: User, title: string, storeFails: bool) returns (r: Response)
    requires db.Valid()
    modifies db`playlists, db`nextPlaylistId
    ensures db.Valid()
    ensures IsBlank(title) ==> r == BadRequest(EmptyTitle) && unchanged(db)
    ensures !IsBlank(title) && storeFails ==>
              r == InternalError("Unsuccesfull creation of playlist. Internal error") && unchanged(db)
    ensures !IsBlank(title) && !storeFails ==>
              && r == Success("New playlist " + title + " have been created.")
              && old(db.nextPlaylistId) !in old(db.playlists)
              && db.playlists == old(db.playlists)[old(db.nextPlaylistId) :=
                   Playlist(old(db.nextPlaylistId), title, None, Some(actor.id), [])]
              && unchanged(db`users, db`nextUserId, db`catalog, db`tokens)
  {
    if title == "" || IsSpace(title) {
      return BadRequest(EmptyTitle);
    }
    if storeFails {
      return InternalError("Unsuccesfull creation of playlist. Internal error");
    }
    var id := db.nextPlaylistId;
    db.playlists := db.playlists[id := Playlist(id, title, None, Some(actor.id), [])];
    db.nextPlaylistId := id + 1;
    r := Success("New playlist " + title + " have been created.");
  }

  /** Creating a playlist gives its owner exactly one more playlist, and no one else any. */
  lemma CreateAddsOneOwned(playlists: map<int, Playlist>, id: int, title: string, uid: int, other: int)
    requires id !in playlists
    requires other != uid
    ensures OwnedBy(playlists[id := Playlist(id, title, None, Some(uid), [])], uid) == OwnedBy(playlists, uid) + {id}
    ensures |OwnedBy(playlists[id := Playlist(id, title, None, Some(uid), [])], uid)| == |OwnedBy(playlists, uid)| + 1
    ensures OwnedBy(playlists[id := Playlist(id, title, None, Some(uid), [])], other) == OwnedBy(playlists, other)
  {
    var after := playlists[id := Playlist(id, title, None, Some(uid), [])];
    assert OwnedBy(after, uid) == OwnedBy(playlists, uid) + {id};
    assert id !in OwnedBy(playlists, uid);
  }

  /** Deleting a playlist removes exactly that one: its owner keeps all the others. */
  lemma DeleteRemovesOnlyIt(playlists: map<int, Playlist>, id: int, uid: int)
    requires id in playlists && playlists[id].userId == Some(uid)
    ensures OwnedBy(playlists - {id}, uid) == OwnedBy(playlists, uid) - {id}
    ensures |OwnedBy(playlists - {id}, uid)| == |OwnedBy(playlists, uid)| - 1
    ensures forall other :: other != id && other in playlists ==> other in playlists - {id}
  {
    assert OwnedBy(playlists - {id}, uid) == OwnedBy(playlists, uid) - {id};
    assert id in OwnedBy(playlists, uid);
  }

  /** Python's `list.remove(x)`: drop the first occurrence; `x` absent is the `ValueError` case. */
  function RemoveFirst(s: seq<int>, x: int): (r: seq<int>)
    ensures x in s ==> |r| == |s| - 1
    ensures x !in s ==> r == s
    ensures multiset(r) == multiset(s) - multiset{x}
  {
    if s == [] then []
    else if s[0] == x then
      assert s == [s[0]] + s[1..];
      s[1..]
    else
      assert s == [s[0]] + s[1..];
      [s[0]] + RemoveFirst(s[1..], x)
  }

  /** Removing a song from a playlist leaves only songs that exist. */
  lemma RemovedSongsExist(playlists: map<int, Playlist>, c: Catalog, id: int, songId: int)
    requires PlaylistSongsExist(playlists, c) && id in playlists
    ensures PlaylistSongsExist(playlists[id := playlists[id].(songs := RemoveFirst(playlists[id].songs, songId))], c)
  {
    var p := playlists[id];
    var remaining := RemoveFirst(p.songs, songId);
    forall i | 0 <= i < |remaining| ensures remaining[i] in c.songs {
      assert remaining[i] in multiset(remaining);
      assert remaining[i] in p.songs;
    }
  }

  /** Adding a song that was not in the playlist and then removing it restores the playlist. */
  lemma {:induction false} RemoveAfterAdd(s: seq<int>, x: int)
    requires x !in s
    ensures RemoveFirst(s + [x], x) == s
  {
    if s != [] {
      assert (s + [x])[1..] == s[1..] + [x];
      RemoveAfterAdd(s[1..], x);
    }
  }

  /** After adding, the song is a member and the count went up by one; after removing it again, it is gone. */
  lemma AddRemoveMembership(s: seq<int>, x: int)
    requires x !in s
    ensures x in s + [x] && |s + [x]| == |s| + 1
    ensures |RemoveFirst(s + [x], x)| == |s| && x !in RemoveFirst(s + [x], x)
  {
    RemoveAfterAdd(s, x);
  }

  /** `add_song_to_playlist(playlist_id, song_id)` */
  method AddSongToPlaylist(db: Db, actor: User, playlistId: int, songId: int, storeFails: bool) returns (r: Response)
    requires db.Valid()
    modifies db`playlists
    ensures db.Valid()
    ensures var check := MembershipCheck(old(db.playlists), old(db.catalog.songs), actor, playlistId, songId);
            check.Some? ==> r == check.value && unchanged(db)
    ensures var check := MembershipCheck(old(db.playlists), old(db.catalog.songs), actor, playlistId, songId);
            check.None? && storeFails ==> r == InternalError("Internal error.") && unchanged(db)
    ensures var check := MembershipCheck(old(db.playlists), old(db.catalog.songs), actor, playlistId, songId);
            check.None? && !storeFails ==>
              var p := old(db.playlists)[playlistId];
              && r == Success("Song " + old(db.catalog.songs)[songId].title + " was added to playlist " + p.title)
              && db.playlists == old(db.playlists)[playlistId := p.(songs := p.songs + [songId])]
              && unchanged(db`users, db`nextUserId, db`nextPlaylistId, db`catalog, db`tokens)
  {
    var check := MembershipCheck(db.playlists, db.catalog.songs, actor, playlistId, songId);
    if check.Some? {
      return check.value;
    }
    if storeFails {
      return InternalError("Internal error.");
    }
    var p := db.playlists[playlistId];
    var song := db.catalog.songs[songId];
    db.playlists := db.playlists[playlistId := p.(songs := p.songs + [songId])];
    r := Success("Song " + song.title + " was added to playlist " + p.title);
  }

  /** `delete_song_from_playlist(playlist_id, song_id)` */
  method DeleteSongFromPlaylist(db: Db, actor: User, playlistId: int, songId: int, storeFails: bool) returns (r: Response)
    requires db.Valid()
    modifies db`playlists
    ensures db.Valid()
    ensures var check := MembershipCheck(old(db.playlists), old(db.catalog.songs), actor, playlistId, songId);
            check.Some? ==> r == check.value && unchanged(db)
    ensures var check := MembershipCheck(old(db.playlists), old(db.catalog.songs), actor, playlistId, songId);
            check.None? && songId !in old(db.playlists)[playlistId].songs ==>
              r == BadRequest("This song is already not in playlist") && unchanged(db)
    ensures var check := MembershipCheck(old(db.playlists), old(db.catalog.songs), actor, playlistId, songId);
            check.None? && songId in old(db.playlists)[playlistId].songs && storeFails ==>
              r == InternalError("Internal error.") && unchanged(db)
    ensures var check := MembershipCheck(old(db.playlists), old(db.catalog.songs), actor, playlistId, songId);
            check.None? && songId in old(db.playlists)[playlistId].songs && !storeFails ==>
              var p := old(db.playlists)[playlistId];
              && r == Success("Song " + old(db.catalog.songs)[songId].title + " was deleted from playlist " + p.title)
              && db.playlists == old(db.playlists)[playlistId := p.(songs := RemoveFirst(p.songs, songId))]
              && unchanged(db`users, db`nextUserId, db`nextPlaylistId, db`catalog, db`tokens)
  {
    var check := MembershipCheck(db.playlists, db.catalog.songs, actor, playlistId, songId);
    if check.Some? {
      return check.value;
    }
    var p := db.playlists[playlistId];
    var song := db.catalog.songs[songId];
    if songId !in p.songs {
      return BadRequest("This song is already not in playlist");
    }
    if storeFails {
      return InternalError("Internal error.");
    }
    var remaining := RemoveFirst(p.songs, songId);
    RemovedSongsExist(db.playlists, db.catalog, playlistId, songId);
    db.playlists := db.playlists[playlistId := p.(songs := remaining)];
    r := Success("Song " + song.title + " was deleted from playlist " + p.title);
  }

  /** `delete_playlist(id)` */
  method DeletePlaylist(db: Db, actor: User, id: int, storeFails: bool) returns (r: Response)
    requires db.Valid()
    modifies db`playlists
    ensures db.Valid()
    ensures var check := OwnerCheck(old(db.playlists), actor, id);
            check.Some? ==> r == check.value && unchanged(db)
    ensures OwnerCheck(old(db.playlists), actor, id).None? && storeFails ==>
              r == InternalError("Internal error. Playlist deletion failed.") && unchanged(db)
    ensures OwnerCheck(old(db.playlists), actor, id).None? && !storeFails ==>
              && r == Success("Playlist " + old(db.playlists)[id].title + " of user " + actor.login + " is deleted")
              && db.playlists == old(db.playlists) - {id}
              && unchanged(db`users, db`nextUserId, db`nextPlaylistId, db`catalog, db`tokens)
  {
    var check := OwnerCheck(db.playlists, actor, id);
    if check.Some? {
      return check.value;
    }
    if storeFails {
      return InternalError("Internal error. Playlist deletion failed.");
    }
    var p := db.playlists[id];
    db.playlists := db.playlists - {id};
    r := Success("Playlist " + p.title + " of user " + actor.login + " is deleted");
  }

  predicate IsSubstring(part: string, whole: string) {
    exists i :: 0 <= i <= |whole| - |part| && whole[i..][..|part|] == part
  }

  /** The deletion message names both the playlist and its owner. */
  lemma DeleteMessageNames(title: string, login: string)
    ensures IsSubstring(title, "Playlist " + title + " of user " + login + " is deleted")
    ensures IsSubstring(login, "Playlist " + title + " of user " + login + " is deleted")
  {
    var m := "Playlist " + title + " of user " + login + " is deleted";
    assert m[9..][..|title|] == title;
    var k := 9 + |title| + 9;
    assert m[k..][..|login|] == login;
  }

  // ---------------------------------------------------------------------
  // Streaming
  // ---------------------------------------------------------------------

  const ChunkSize := 512

  /** The bytes of a chunk sequence, joined in order. */
  function Concat(chunks: seq<seq<byte>>): seq<byte> {
    if chunks == [] then [] else Concat(chunks[..|chunks| - 1]) + chunks[|chunks| - 1]
  }

  /** `f.read(512)` at offset `pos`. */
  function ReadChunk(contents: seq<byte>, pos: nat): seq<byte>
    requires pos <= |contents|
  {
    if |contents| - pos <= ChunkSize then contents[pos..] else contents[pos..pos + ChunkSize]
  }

  /**
   * `stream_file`: read 512 bytes at a time and hand each chunk on until a
   * read comes back empty. The chunks are non-empty, none longer than 512,
   * all but the last exactly 512, and together they are the file.
   */
  method StreamFile(contents: seq<byte>) returns (chunks: seq<seq<byte>>)
    ensures Concat(chunks) == contents
    ensures forall i :: 0 <= i < |chunks| ==> 0 < |chunks[i]| <= ChunkSize
    ensures forall i :: 0 <= i < |chunks| - 1 ==> |chunks[i]| == ChunkSize
  {
    chunks := [];
    var pos := 0;
    var chunk := ReadChunk(contents, pos);
    while chunk != []
      invariant 0 <= pos <= |contents|
      invariant chunk == ReadChunk(contents, pos)
      invariant Concat(chunks) == contents[..pos]
      invariant forall i :: 0 <= i < |chunks| ==> 0 < |chunks[i]| <= ChunkSize
      invariant forall i :: 0 <= i < |chunks| - 1 ==> |chunks[i]| == ChunkSize
      invariant |chunks| > 0 && |chunks[|chunks| - 1]| < ChunkSize ==> pos == |contents|
      decreases |contents| - pos
    {
      assert contents[..pos + |chunk|] == contents[..pos] + chunk;
      chunks := chunks + [chunk];
      pos := pos + |chunk|;
      chunk := ReadChunk(contents, pos);
    }
    assert contents[..pos] == contents;
  }

  /**
   * `stream_song(id)`: `play_song` gives the file path (or nothing for an
   * unknown id); an unknown id is a 400 and nothing is committed, otherwise
   * the commit happens and the file is streamed as `audio/mpeg`.
   */
  method StreamSong(played: Option<string>, readFile: string -> seq<byte>) returns (r: Response, committed: bool)
    ensures committed <==> played.Some? && played.value != ""
    ensures !committed ==> r == BadRequest("Invalid id provided")
    ensures committed ==>
              && r.StreamResponse? && r.status == 200 && r.contentType == "audio/mpeg"
              && Concat(r.chunks) == readFile(played.value)
              && forall i :: 0 <= i < |r.chunks| ==> 0 < |r.chunks[i]| <= ChunkSize
  {
    if played.None? || played.value == "" {
      return BadRequest("Invalid id provided"), false;
    }
    var chunks := StreamFile(readFile(played.value));
    r := StreamResponse(200, "audio/mpeg", chunks);
    committed := true;
  }
}
