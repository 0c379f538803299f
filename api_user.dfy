/** src/presentation/src/api/user/dto.rs: what the user endpoints accept and
    return. Credentials are checked against byte-length limits; a role comes
    in as text; a user goes out with a signed id and its role's label. */
module ApiUser {
  import opened Wrappers
  import opened Text
  import opened RustInt
  import opened Vocabulary
  import CoreUtils
  import opened CoreUser
  import opened ApiUtils

  const MinLoginLen: nat := 6
  const MaxLoginLen: nat := 30
  const MinPasswordLen: nat := 8
  const MaxPasswordLen: nat := 100

  /** `TryFrom<UserCredentialsDto> for UserCredentials`: the login's and
      then the password's byte length, lower bound before upper; the first
      failing check decides the error, and what passes is kept as sent. */
  function CredentialsFromDto(login: string, password: string): (r: Result<UserCredentials, HandlerError>)
    ensures r.Ok? <==> (MinLoginLen <= Utf8Len(login) <= MaxLoginLen
      && MinPasswordLen <= Utf8Len(password) <= MaxPasswordLen)
    ensures r.Ok? ==> r.value == UserCredentials(login, password)
    ensures r == Err(HandlerError.MinLoginLen) <==> Utf8Len(login) < MinLoginLen
    ensures r == Err(HandlerError.MaxLoginLen) <==> Utf8Len(login) > MaxLoginLen
    ensures r == Err(HandlerError.MinPasswordLen) <==> (MinLoginLen <= Utf8Len(login) <= MaxLoginLen
      && Utf8Len(password) < MinPasswordLen)
    ensures r == Err(HandlerError.MaxPasswordLen) <==> (MinLoginLen <= Utf8Len(login) <= MaxLoginLen
      && Utf8Len(password) > MaxPasswordLen)
  {
    if Utf8Len(login) < MinLoginLen then Err(HandlerError.MinLoginLen)
    else if Utf8Len(login) > MaxLoginLen then Err(HandlerError.MaxLoginLen)
    else if Utf8Len(password) < MinPasswordLen then Err(HandlerError.MinPasswordLen)
    else if Utf8Len(password) > MaxPasswordLen then Err(HandlerError.MaxPasswordLen)
    else Ok(UserCredentials(login, password))
  }

  /** The limits count bytes, not characters: a login of three to fifteen
      two-byte letters is within bounds, though three letters are fewer
      characters than the 6 minimum. */
  lemma LoginLimitCountsBytes(login: string, password: string)
    requires 3 <= |login| <= 15
    requires forall i :: 0 <= i < |login| ==> 0x80 <= login[i] as int < 0x800
    requires forall i :: 0 <= i < |password| ==> password[i] as int < 0x80
    requires MinPasswordLen <= |password| <= MaxPasswordLen
    ensures CredentialsFromDto(login, password) == Ok(UserCredentials(login, password))
  {
    Utf8LenTwoByte(login);
  }

  /** `TryFrom<UserRoleDto> for UserRole`: the role parse, its error wrapped
      as `HandlerError::Parse`. */
  function RoleFromDto(role: string): (r: Result<UserRole, HandlerError>)
    ensures r.Ok? <==> ParseRole(role).Ok?
    ensures r.Ok? ==> ParseRole(role) == Ok(r.value)
    ensures r.Err? ==> r.error == HandlerError.Parse(CoreUtils.Parse(role))
  {
    match ParseRole(role)
    case Ok(v) => Ok(v)
    case Err(e) => Err(HandlerError.Parse(e))
  }

  datatype UserDto = UserDto(
    id: i64,
    login: string,
    role: string,
    createdAt: Timestamp,
    updatedAt: Timestamp)

  /** `From<UserModel> for UserDto`: the id `as i64`, the role as its label.
      Nothing is lost: the id casts back and the label is accepted by the
      role endpoint as the same role. */
  function UserDtoFrom(m: UserModel): (d: UserDto)
    ensures U64FromI64(d.id) == m.id && RoleFromDto(d.role) == Ok(m.role)
    ensures d.login == m.login && d.createdAt == m.createdAt && d.updatedAt == m.updatedAt
  {
    CastsInverse64(0, m.id);
    ParseRoleLabel(m.role);
    UserDto(I64FromU64(m.id), m.login, RoleLabel(m.role), m.createdAt, m.updatedAt)
  }

  /** An id past `i64::MAX` goes out negative. */
  lemma UserDtoLargeIdNegative(m: UserModel)
    requires m.id > I64_MAX
    ensures UserDtoFrom(m).id == m.id - TWO_64 < 0
  {
  }
}
