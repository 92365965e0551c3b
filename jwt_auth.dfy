/**
 * Bearer-token authentication: issuing a token that names a user and expires
 * an hour later, and recovering the user from an `Authorization` header.
 *
 * The signing and checking of tokens (secret key, algorithm, expiry check) is
 * the `encode`/`decode` pair supplied by the caller; `decode` answers `None`
 * for every token the library rejects.
 */
module JwtAuth {
  import opened Records
  import opened Strings

  /** Tokens expire sixty minutes after they are issued. */
  const TokenLifetimeSeconds: int := 3600

  const MissingToken := HttpError(401, "Missing or invalid token")
  const InvalidToken := HttpError(401, "Invalid or expired token")

  /** The payload of a token: the `sub` claim (possibly missing) and the expiry time. */
  datatype Claims = Claims(sub: Option<string>, exp: int)

  /** `create_access_token` at time `now` (seconds). */
  function CreateAccessToken(username: string, now: int, encode: Claims -> string): (r: string)
    ensures r == encode(Claims(Some(username), now + 60 * 60))
  {
    encode(Claims(Some(username), now + TokenLifetimeSeconds))
  }

  /** `verify_token`: the `sub` claim of a token the decoder accepts. */
  function VerifyToken(token: string, decode: string -> Option<Claims>): (r: Option<string>)
    ensures r.Some? <==> decode(token).Some? && decode(token).value.sub.Some?
    ensures r.Some? ==> r == decode(token).value.sub
  {
    match decode(token)
    case None => None
    case Some(c) => c.sub
  }

  /** Splitting a `Bearer ` header on spaces yields "Bearer" and then the token. */
  lemma BearerSplit(h: string)
    requires StartsWith(h, "Bearer ")
    ensures var parts := Split(h, " ");
      |parts| >= 2 && parts[0] == "Bearer" && parts[1] == Split(h[7..], " ")[0]
  {
    forall j: nat | j < 6
      ensures !OccursAt(h, " ", j)
    {
      assert h[j] == h[..7][j];
    }
    assert h[6] == h[..7][6];
    assert OccursAt(h, " ", 6);
    SplitFirst(h, " ", 6);
    assert h[..6] == h[..7][..6];
  }

  /** `authorization.split(" ")[1]`: the first space-separated piece after "Bearer ". */
  function TokenOf(h: string): (r: string)
    requires StartsWith(h, "Bearer ")
    ensures r == Split(h[7..], " ")[0]
  {
    BearerSplit(h);
    Split(h, " ")[1]
  }

  /** `get_current_user`: the user a well-formed, accepted header names. */
  function GetCurrentUser(authorization: Option<string>, decode: string -> Option<Claims>): (r: Result<string>)
    ensures (authorization.None? || !StartsWith(authorization.value, "Bearer ")) ==> r == Err(MissingToken)
    ensures r.Ok? ==> r.value != [] && authorization.Some? && StartsWith(authorization.value, "Bearer ")
    ensures r.Err? ==> r.error == MissingToken || r.error == InvalidToken
    ensures authorization.Some? && StartsWith(authorization.value, "Bearer ") ==>
      var user := VerifyToken(TokenOf(authorization.value), decode);
      (r.Ok? <==> user.Some? && user.value != "") && (r.Ok? ==> Some(r.value) == user)
  {
    if authorization.None? || authorization.value == "" || !StartsWith(authorization.value, "Bearer ") then
      Err(MissingToken)
    else
      match VerifyToken(TokenOf(authorization.value), decode)
      case None => Err(InvalidToken)
      case Some(u) => if u == "" then Err(InvalidToken) else Ok(u)
  }

  /** The token read from a header is the text after "Bearer " up to the next space. */
  lemma TokenOfHeader(h: string)
    requires StartsWith(h, "Bearer ")
    ensures var token := TokenOf(h);
      var rest := h[7..];
      StartsWith(rest, token) && ' ' !in token && (token == rest || rest[|token|] == ' ')
  {
    BearerSplit(h);
    var rest := h[7..];
    FirstPiece(rest, " ");
    var token := Split(rest, " ")[0];
    if ' ' in token {
      var k :| 0 <= k < |token| && token[k] == ' ';
      assert OccursAt(token, " ", k);
      ContainsIff(token, " ");
    }
    if token != rest {
      assert rest[|token|..|token| + 1] == " ";
    }
  }

  /** A token just issued for a non-empty user name authenticates that user, provided the
      decoder accepts what the encoder signed and tokens carry no space (base64url text). */
  lemma IssuedTokenAuthenticates(username: string, now: int, encode: Claims -> string, decode: string -> Option<Claims>)
    requires username != []
    requires var c := Claims(Some(username), now + TokenLifetimeSeconds);
      ' ' !in encode(c) && decode(encode(c)) == Some(c)
    ensures GetCurrentUser(Some("Bearer " + CreateAccessToken(username, now, encode)), decode) == Ok(username)
  {
    var t := CreateAccessToken(username, now, encode);
    var h := "Bearer " + t;
    assert h[..7] == "Bearer ";
    BearerSplit(h);
    assert h[7..] == t;
    ContainsFirstChar(t, " ");
    SplitWithoutSeparator(t, " ");
  }

  /** A header the decoder rejects, or whose token carries no user, is refused. */
  lemma RejectedTokens(h: string, decode: string -> Option<Claims>)
    requires StartsWith(h, "Bearer ")
    requires var token := TokenOf(h);
      decode(token).None? || decode(token).value.sub in {None, Some("")}
    ensures GetCurrentUser(Some(h), decode) == Err(InvalidToken)
  {
    BearerSplit(h);
  }
}
