/**
 * The account views of `ad_server/views/users.py`: registration and the
 * access/refresh token calls.
 *
 * The request body fields are inputs (`None` when absent). Password hashing,
 * access-token generation and the `RefreshToken` model operations are not
 * part of this model and are function-valued inputs; `TokenOps` bundles the
 * last, with the laws the tests rely on.
 */
module Users {
  import opened Wrappers
  import opened Http
  import opened Dicts
  import opened Models
  import opened Database
  import opened Messages
  import opened PyText

  const MissingCredentials := "Login and password required for registration"
  const LoginAlreadyTaken := "This username is already taken"
  const MissingRefreshToken := "You should provide refresh token for this call"
  const InvalidRefreshToken := "Provided token is not valid"
  const TokensRetrieved := "Access token retrieved"

  /** `register_user` */
  method RegisterUser(db: Db, login: Option<string>, password: Option<string>, hashPassword: string -> string)
    returns (r: Response)
    requires db.Valid()
    modifies db
    ensures db.Valid()
    ensures !Truthy(login) || !Truthy(password) ==> r == BadRequest(MissingCredentials) && unchanged(db)
    ensures Truthy(login) && Truthy(password) && LoginTaken(old(db.users), login.value) ==>
              r == BadRequest(LoginAlreadyTaken) && unchanged(db)
    ensures Truthy(login) && Truthy(password) && !LoginTaken(old(db.users), login.value) ==>
              && r == Success("Successful registration")
              && old(db.nextUserId) !in old(db.users)
              && db.users == old(db.users)[old(db.nextUserId) :=
                   User(old(db.nextUserId), login.value, hashPassword(password.value))]
              && unchanged(db`playlists, db`nextPlaylistId, db`catalog, db`tokens)
  {
    if login.None? || login.value == "" || password.None? || password.value == "" {
      return BadRequest(MissingCredentials);
    }
    var existing := FindByLogin(db.users, login.value);
    if existing.Some? {
      return BadRequest(LoginAlreadyTaken);
    }
    var id := db.nextUserId;
    db.users := db.users[id := User(id, login.value, hashPassword(password.value))];
    db.nextUserId := id + 1;
    r := Success("Successful registration");
  }

  /**
   * A registration adds exactly one user and makes the login taken, so
   * registering it again is refused; logins stay unique.
   */
  lemma RegistrationTakesLogin(users: map<int, User>, id: int, login: string, passHash: string)
    requires UniqueLogins(users) && id !in users && !LoginTaken(users, login)
    ensures LoginTaken(users[id := User(id, login, passHash)], login)
    ensures UniqueLogins(users[id := User(id, login, passHash)])
    ensures |users[id := User(id, login, passHash)].Keys| == |users.Keys| + 1
  {
    var after := users[id := User(id, login, passHash)];
    assert after[id].login == login;
    assert after.Keys == users.Keys + {id};
  }

  /** The `RefreshToken` model operations, as functions over the token table. */
  datatype TokenOps = TokenOps(
    create: (map<string, RefreshRow>, int) -> (string, map<string, RefreshRow>),
    validToken: (map<string, RefreshRow>, string) -> Option<RefreshRow>,
    revoke: (map<string, RefreshRow>, string) -> map<string, RefreshRow>)

  /**
   * What the views and the tests rely on: a created token is non-empty and
   * valid for its user; a revoked token is no longer valid; a valid token
   * is a row of the table.
   */
  ghost predicate Lawful(ops: TokenOps) {
    && (forall t, uid :: ops.create(t, uid).0 != "")
    && (forall t, uid :: ops.validToken(ops.create(t, uid).1, ops.create(t, uid).0).Some?)
    && (forall t, uid :: ops.validToken(ops.create(t, uid).1, ops.create(t, uid).0).Some? ==>
          ops.validToken(ops.create(t, uid).1, ops.create(t, uid).0).value.userId == uid)
    && (forall t, tok :: ops.validToken(ops.revoke(t, tok), tok).None?)
    && (forall t, tok :: ops.validToken(t, tok).Some? ==> tok in t && t[tok] == ops.validToken(t, tok).value)
  }

  /** `get_token`: issue an access token and a new refresh token for the authenticated user. */
  method GetToken(db: Db, user: User, ops: TokenOps, generateToken: int -> string) returns (r: Response)
    modifies db
    ensures var (refresh, table) := ops.create(old(db.tokens), user.id);
            && db.tokens == table
            && r.JsonResponse? && r.status == 200
            && r.body.Keys == {"status", "message", "access_token", "refresh_token"}
            && r.body["message"] == JStr(TokensRetrieved)
            && r.body["access_token"] == JStr(generateToken(user.id))
            && r.body["refresh_token"] == JStr(refresh)
    ensures unchanged(db`users, db`nextUserId, db`playlists, db`nextPlaylistId, db`catalog)
  {
    var accessToken := generateToken(user.id);
    var (refresh, table) := ops.create(db.tokens, user.id);
    db.tokens := table;
    var extras := [("access_token", JStr(accessToken)), ("refresh_token", JStr(refresh))];
    assert IsLastFor(extras, "access_token", 0) && IsLastFor(extras, "refresh_token", 1);
    assert "message" !in KeysOf(extras);
    assert KeysOf(extras) == {"access_token", "refresh_token"} by {
      assert extras[0].0 == "access_token" && extras[1].0 == "refresh_token";
    }
    r := Success(TokensRetrieved, extras := extras);
  }

  /**
   * `refresh_token`: a new access token for the owner of a valid refresh
   * token. Nothing is written: the refresh token is neither deleted nor
   * replaced.
   */
  function RefreshToken(token: Option<string>, tokens: map<string, RefreshRow>, ops: TokenOps,
                        generateToken: int -> string): (r: Response)
    ensures !Truthy(token) ==> r == BadRequest(MissingRefreshToken)
    ensures Truthy(token) && ops.validToken(tokens, token.value).None? ==> r == Unauthorized(InvalidRefreshToken)
    ensures Truthy(token) && ops.validToken(tokens, token.value).Some? ==>
              && r.JsonResponse? && r.status == 200
              && "message" in r.body && "access_token" in r.body
              && r.body["message"] == JStr(TokensRetrieved)
              && r.body["access_token"] == JStr(generateToken(ops.validToken(tokens, token.value).value.userId))
  {
    if token.None? || token.value == "" then BadRequest(MissingRefreshToken)
    else
      match ops.validToken(tokens, token.value)
      case None => Unauthorized(InvalidRefreshToken)
      case Some(row) =>
        var extras := [("access_token", JStr(generateToken(row.userId)))];
        assert IsLastFor(extras, "access_token", 0);
        assert "message" !in KeysOf(extras);
        Success(TokensRetrieved, extras := extras)
  }

  /** `revoke_token`: revoke the given refresh token; it succeeds whether or not the token existed. */
  method RevokeToken(db: Db, token: Option<string>, ops: TokenOps) returns (r: Response)
    modifies db
    ensures !Truthy(token) ==> r == BadRequest(MissingRefreshToken) && unchanged(db)
    ensures Truthy(token) ==>
              && r == Success("Token is successfully revoked")
              && db.tokens == ops.revoke(old(db.tokens), token.value)
              && unchanged(db`users, db`nextUserId, db`playlists, db`nextPlaylistId, db`catalog)
  {
    if token.None? || token.value == "" {
      return BadRequest(MissingRefreshToken);
    }
    db.tokens := ops.revoke(db.tokens, token.value);
    r := Success("Token is successfully revoked");
  }

  /** The refresh token handed out by `get_token` buys a new access token for the same user. */
  lemma IssuedTokenRefreshes(tokens: map<string, RefreshRow>, user: User, ops: TokenOps, generateToken: int -> string)
    requires Lawful(ops)
    ensures var (refresh, table) := ops.create(tokens, user.id);
            && RefreshToken(Some(refresh), table, ops, generateToken).status == 200
            && RefreshToken(Some(refresh), table, ops, generateToken).body["access_token"] == JStr(generateToken(user.id))
  {
    var (refresh, table) := ops.create(tokens, user.id);
    assert refresh != "";
    assert ops.validToken(table, refresh).Some?;
  }

  /** Once revoked, a refresh token is refused with 401. */
  lemma RevokedTokenRefused(tokens: map<string, RefreshRow>, token: string, ops: TokenOps, generateToken: int -> string)
    requires Lawful(ops) && token != ""
    ensures RefreshToken(Some(token), ops.revoke(tokens, token), ops, generateToken) == Unauthorized(InvalidRefreshToken)
    ensures StatusOf(RefreshToken(Some(token), ops.revoke(tokens, token), ops, generateToken)) == 401
  {
    assert ops.validToken(ops.revoke(tokens, token), token).None?;
  }
}
