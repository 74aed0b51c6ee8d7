/**
 * `global/security/jwt/filter/JwtAuthorizationFilter.java`: the per-request
 * filter that turns a Bearer access token into an authenticated account.
 * Signature and expiry checking (`validateAndParse`) is a parameter; the
 * blacklist of the token store is not an input, because the filter never
 * consults it.
 */
module JwtFilter {
  import opened Common
  import opened JavaStrings
  import opened Users
  import opened UserStore
  import opened UserDetailsLoading
  import opened Jwt

  const BearerPrefix: string := "Bearer "

  /**
   * `resolveToken`: the header without its "Bearer " prefix, when the
   * header has text and starts with exactly that prefix; otherwise null.
   */
  function ResolveToken(header: Option<string>): (token: Option<string>)
    ensures token.Some? <==> header.Some? && HasText(header.value) && StartsWith(header.value, BearerPrefix)
    ensures token.Some? ==> header.value == BearerPrefix + token.value
  {
    if header.Some? && HasText(header.value) && StartsWith(header.value, BearerPrefix)
    then Some(header.value[|BearerPrefix|..])
    else None
  }

  /** `shouldNotFilter`: the root, the auth endpoints and the API documentation are skipped. */
  predicate ShouldNotFilter(path: string)
  {
    path == "/"
    || StartsWith(path, "/v1/auth/")
    || StartsWith(path, "/swagger")
    || StartsWith(path, "/v3/api-docs")
  }

  /**
   * `claims.get(name, String.class)`: null when absent, the string when it
   * is one, and a type-mismatch error for any other value.
   */
  function StringClaim(c: Claims, name: string): (r: Result<Option<string>, ErrorCode>)
    ensures r.Failure? <==> name in c.custom && !c.custom[name].Text?
    ensures r.Success? && r.value.Some? <==> name in c.custom && c.custom[name].Text?
    ensures r.Success? && r.value.Some? ==> c.custom[name] == Text(r.value.value)
  {
    if name !in c.custom then Success(None)
    else match c.custom[name]
      case Text(s) => Success(Some(s))
      case _ => Failure(ClaimTypeMismatch)
  }

  /**
   * `doFilterInternal`: `Success(None)` when the chain proceeds without
   * authentication, `Success(Some(u))` when it proceeds authenticated as
   * `u`, and `Failure(e)` when an exception ends the request.
   */
  function DoFilter(header: Option<string>, validate: string -> Result<Claims, ErrorCode>, users: seq<User>)
    : (r: Result<Option<User>, ErrorCode>)
    reads users
    ensures r.Success? && r.value.Some? ==> r.value.value in users && r.value.value.status == UserStatus.Approve
    ensures r.Success? && r.value.Some? ==>
      var t := ResolveToken(header);
      t.Some? && validate(t.value).Success? && StringClaim(validate(t.value).value, ClaimTokenType) == Success(Some("access"))
  {
    var token := ResolveToken(header);
    if token.None? || !HasText(token.value) then Success(None)
    else match validate(token.value)
      case Failure(e) => Failure(e)
      case Success(claims) =>
        match StringClaim(claims, ClaimTokenType)
        case Failure(e) => Failure(e)
        case Success(tokenType) =>
          if tokenType != Some("access") then Failure(AuthNotAccessToken)
          else match StringClaim(claims, ClaimPreferredUsername)
            case Failure(e) => Failure(e)
            case Success(username) =>
              if username.None? || !HasText(username.value) then Success(None)
              else match LoadUserByUsername(users, username.value)
                case Failure(e) => Failure(e)
                case Success(user) => Success(Some(user))
  }

  // ---------------------------------------------------------------------
  // Properties of the filter.
  // ---------------------------------------------------------------------

  /** The header written at login, "Bearer " followed by the token, resolves back to the token. */
  lemma ResolveBearer(t: string)
    ensures ResolveToken(Some(BearerPrefix + t)) == Some(t)
  {
    var h := BearerPrefix + t;
    assert h[0] == 'B' && !IsWhitespace(h[0]);
    assert h[..|BearerPrefix|] == BearerPrefix;
  }

  /** The prefix is case-sensitive: a lower-case "bearer " header carries no token. */
  lemma LowerCaseBearerIgnored(t: string)
    ensures ResolveToken(Some("bearer " + t)) == None
  {
    assert ("bearer " + t)[0] == 'b';
  }

  /** A token of whitespace only, or none at all, lets the request through unauthenticated. */
  lemma BlankTokenProceedsUnauthenticated(header: Option<string>, validate: string -> Result<Claims, ErrorCode>, users: seq<User>)
    requires ResolveToken(header).None? || !HasText(ResolveToken(header).value)
    ensures DoFilter(header, validate, users) == Success(None)
  {
  }

  /**
   * A validated token whose `token_type` is a string other than "access"
   * (a refresh token, for one) is refused with AUTH_NOT_ACCESS_TOKEN.
   */
  lemma NonAccessTokenRefused(t: string, validate: string -> Result<Claims, ErrorCode>, users: seq<User>, kind: string)
    requires HasText(t) && kind != "access"
    requires validate(t).Success? && ClaimTokenType in validate(t).value.custom
    requires validate(t).value.custom[ClaimTokenType] == Text(kind)
    ensures DoFilter(Some(BearerPrefix + t), validate, users) == Failure(AuthNotAccessToken)
  {
    ResolveBearer(t);
  }

  /** Every refresh token the provider issues is refused by the filter. */
  lemma RefreshTokenRefused(t: string, validate: string -> Result<Claims, ErrorCode>, users: seq<User>,
                            issuer: string, userId: UserId, now: int)
    requires HasText(t) && validate(t) == Success(CreateRefreshToken(issuer, userId, now))
    ensures DoFilter(Some(BearerPrefix + t), validate, users) == Failure(AuthNotAccessToken)
  {
    assert "refresh" != "access";
    NonAccessTokenRefused(t, validate, users, "refresh");
  }

  /** An access token without a usable `preferred_username` leaves the request unauthenticated. */
  lemma BlankUsernameProceedsUnauthenticated(t: string, validate: string -> Result<Claims, ErrorCode>, users: seq<User>)
    requires HasText(t) && validate(t).Success?
    requires StringClaim(validate(t).value, ClaimTokenType) == Success(Some("access"))
    requires var u := StringClaim(validate(t).value, ClaimPreferredUsername);
      u.Success? && (u.value.None? || !HasText(u.value.value))
    ensures DoFilter(Some(BearerPrefix + t), validate, users) == Success(None)
  {
    ResolveBearer(t);
  }

  /**
   * A validated access token naming an approved account authenticates
   * that account, whatever the token store says: there is no blacklist
   * check on this path.
   */
  lemma AccessTokenAuthenticates(t: string, validate: string -> Result<Claims, ErrorCode>, users: seq<User>, username: string)
    requires HasText(t) && HasText(username) && validate(t).Success?
    requires StringClaim(validate(t).value, ClaimTokenType) == Success(Some("access"))
    requires StringClaim(validate(t).value, ClaimPreferredUsername) == Success(Some(username))
    requires LoadUserByUsername(users, username).Success?
    ensures DoFilter(Some(BearerPrefix + t), validate, users) == Success(Some(LoadUserByUsername(users, username).value))
  {
    ResolveBearer(t);
  }

  /**
   * The internal authorization endpoint `/v1/internal/authz/check` is
   * filtered, since it starts with none of the skipped prefixes; sign-in
   * under "/v1/auth/" is not.
   */
  lemma AuthzEndpointIsFiltered()
    ensures !ShouldNotFilter("/v1/internal/authz/check")
    ensures ShouldNotFilter("/v1/auth/sign-in")
  {
    var path := "/v1/internal/authz/check";
    assert path[4] == 'i' && "/v1/auth/"[4] == 'a';
    assert path[..9][4] == 'i';
    assert path[..9] != "/v1/auth/";
    assert path[1] == 'v' && "/swagger"[1] == 's' && "/v3/api-docs"[1] == 'v';
    assert path[..8][1] == 'v' && path[..8] != "/swagger";
    assert path[2] == '1' && "/v3/api-docs"[2] == '3';
    assert path[..12][2] == '1' && path[..12] != "/v3/api-docs";
    assert "/v1/auth/sign-in"[..9] == "/v1/auth/";
  }
}
