/** src/core/src/models/token.rs: the token audience, its text form, and the
    claims of a freshly issued access or refresh token. Key loading, signing,
    verification and the environment-configured lifetimes are outside the
    model; the lifetimes are parameters. */
module CoreToken {
  import opened Wrappers
  import opened Vocabulary
  import opened CoreUtils
  import CoreUser

  /** `Token`: the audience a token is issued for. */
  datatype Token = Access | Refresh

  /** `impl Display for Token`. */
  function TokenLabel(t: Token): string {
    match t
    case Access => "access"
    case Refresh => "refresh"
  }

  /** `Token::from_str`: an exact, untrimmed match on the two labels; any
      other text is a `Parse` error carrying it. */
  function ParseToken(s: string): (r: Result<Token, DomainError>)
    ensures r.Ok? <==> s == "access" || s == "refresh"
    ensures r.Ok? ==> TokenLabel(r.value) == s
    ensures r.Err? ==> r == Err(Parse(s))
  {
    match s
    case "access" => Ok(Access)
    case "refresh" => Ok(Refresh)
    case _ => Err(Parse(s))
  }

  /** `parse(display(t)) == t`. */
  lemma TokenRoundTrip(t: Token)
    ensures ParseToken(TokenLabel(t)) == Ok(t)
  {
  }

  /** The issuer every token names. */
  const Issuer: string := "event_microservice"

  /** `Claims`: the registered JWT claims plus the user's role. Times are
      seconds since the epoch. */
  datatype Claims = Claims(
    iss: string,
    sub: CoreUser.UserId,
    aud: Token,
    exp: Timestamp,
    nbf: Timestamp,
    iat: Timestamp,
    role: UserRole)

  /** `Claims::new_access`: valid from `now`, expiring `accessExpiresAfter`
      seconds later. */
  function NewAccess(userId: CoreUser.UserId, now: Timestamp, role: UserRole, accessExpiresAfter: int)
    : (c: Claims)
    ensures c.iss == Issuer && c.sub == userId && c.role == role
    ensures c.aud == Access
    ensures c.nbf == now && c.iat == now && c.exp == now + accessExpiresAfter
  {
    Claims(Issuer, userId, Access, now + accessExpiresAfter, now, now, role)
  }

  /** `Claims::new_refresh`: valid from `now`, expiring
      `refreshExpiresAfter` seconds later. */
  function NewRefresh(userId: CoreUser.UserId, now: Timestamp, role: UserRole, refreshExpiresAfter: int)
    : (c: Claims)
    ensures c.iss == Issuer && c.sub == userId && c.role == role
    ensures c.aud == Refresh
    ensures c.nbf == now && c.iat == now && c.exp == now + refreshExpiresAfter
  {
    Claims(Issuer, userId, Refresh, now + refreshExpiresAfter, now, now, role)
  }

  /** `Claims::is_access`. */
  predicate IsAccess(c: Claims) {
    c.aud == Access
  }

  /** `Claims::is_refresh`. */
  predicate IsRefresh(c: Claims) {
    c.aud == Refresh
  }

  /** Every set of claims is exactly one of access and refresh; a new access
      token is an access token and a new refresh token a refresh token. */
  lemma AudienceExclusive(c: Claims, userId: CoreUser.UserId, now: Timestamp, role: UserRole, after: int)
    ensures IsAccess(c) != IsRefresh(c)
    ensures IsAccess(NewAccess(userId, now, role, after)) && !IsRefresh(NewAccess(userId, now, role, after))
    ensures IsRefresh(NewRefresh(userId, now, role, after)) && !IsAccess(NewRefresh(userId, now, role, after))
  {
  }

  /** The two constructors differ only in the audience and the expiry: with
      the same lifetime the refresh claims are the access claims with the
      audience swapped. */
  lemma NewRefreshIsNewAccessRetargeted(userId: CoreUser.UserId, now: Timestamp, role: UserRole,
                                        accessAfter: int, refreshAfter: int)
    ensures NewRefresh(userId, now, role, refreshAfter)
      == NewAccess(userId, now, role, accessAfter).(aud := Refresh, exp := now + refreshAfter)
  {
  }
}
