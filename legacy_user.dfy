/** src/domain/user/model.rs: the older crate's `UserRole` parsing, user model
    and `UserFilter` / `UserOrder` tokens, with `UserError` for the failures
    that belong to users. */
module LegacyUser {
  import opened Wrappers
  import opened Text
  import opened RustInt
  import opened Vocabulary
  import opened LegacyUtils

  /** Ids are signed in the older crate. */
  type UserId = i64

  datatype UserModel = UserModel(
    id: UserId,
    login: string,
    role: UserRole,
    createdAt: Timestamp,
    updatedAt: Timestamp)

  /** `UserUpdate`: the one column an update sets. */
  datatype UserUpdate = Role(role: UserRole) | Password(password: string) | Login(login: string)

  /** `UserRole::from_str`: the trimmed text must be a role label exactly;
      the error is `UserError::Role` with the untrimmed text. */
  function ParseRole(s: string): (r: Result<UserRole, UserError>)
    ensures r.Ok? <==> RoleFromLabel(Trim(s)).Some?
    ensures r.Ok? ==> RoleLabel(r.value) == Trim(s)
    ensures r.Err? ==> r == Err(UserError.Role(s))
  {
    match Trim(s)
    case "User" => Ok(UserRole.User)
    case "Organizer" => Ok(Organizer)
    case "Admin" => Ok(Admin)
    case _ => Err(UserError.Role(s))
  }

  /** The role parse as a filter value: `?` lifts `UserError` into
      `DomainError::User`. */
  function ParseRoleValue(s: string): (r: Result<UserRole, DomainError>)
    ensures r.Ok? ==> ParseRole(s) == Ok(r.value)
    ensures r.Err? ==> r == Err(DomainError.User(UserError.Role(s)))
  {
    match ParseRole(s)
    case Ok(role) => Ok(role)
    case Err(e) => Err(DomainError.User(e))
  }

  /** `parse(display(r)) == r`, also with whitespace around the label. */
  lemma RoleRoundTrip(role: UserRole, a: string, b: string)
    requires AllWhitespace(a) && AllWhitespace(b)
    ensures ParseRole(a + RoleLabel(role) + b) == Ok(role)
  {
    TrimPadded(a, RoleLabel(role), b);
  }

  lemma ParseRoleLabel(role: UserRole)
    ensures ParseRoleValue(RoleLabel(role)) == Ok(role)
  {
    RoleRoundTrip(role, "", "");
    assert "" + RoleLabel(role) + "" == RoleLabel(role);
  }

  /** `UserFilter`: a comparison on the role or on the login. */
  datatype UserFilter =
    | Role(roleOp: Vocabulary.FilterOp<UserRole>)
    | Login(loginOp: Vocabulary.FilterOp<string>)

  const UserFilterFields: set<string> := {"role", "login"}

  function FilterColumn(f: UserFilter): (c: string)
    ensures c in UserFilterFields && IsIdentifier(c)
  {
    match f
    case Role(_) => "role"
    case Login(_) => "login"
  }

  function FilterKind(f: UserFilter): Operator {
    match f
    case Role(op) => op.Kind()
    case Login(op) => op.Kind()
  }

  function FilterValueText(f: UserFilter): string {
    match f
    case Role(op) => RoleLabel(op.value)
    case Login(op) => op.value
  }

  function FilterText(f: UserFilter): string {
    FilterColumn(f) + " " + Keyword(FilterKind(f)) + " " + FilterValueText(f)
  }

  /** A login value survives the whole-token trim when it is non-empty and
      does not end in whitespace. */
  predicate FilterPrintable(f: UserFilter) {
    match f
    case Role(_) => true
    case Login(op) => |op.value| > 0 && !IsWhitespace(op.value[|op.value| - 1])
  }

  function ParseUserFilterOf(field: string, rest: string): (r: Result<UserFilter, DomainError>)
    requires field in UserFilterFields
    ensures r.Ok? ==> FilterColumn(r.value) == field
    ensures field == "role" ==> (
      && (r.Ok? <==> ParseFilterOp(rest, ParseRoleValue).Ok?)
      && (r.Ok? ==> r.value == UserFilter.Role(ParseFilterOp(rest, ParseRoleValue).value))
      && (r.Err? ==> r.error == ParseFilterOp(rest, ParseRoleValue).error))
    ensures field == "login" ==> (
      && (r.Ok? <==> ParseFilterOp(rest, ParseText).Ok?)
      && (r.Ok? ==> r.value == UserFilter.Login(ParseFilterOp(rest, ParseText).value))
      && (r.Err? ==> r.error == ParseFilterOp(rest, ParseText).error))
  {
    if field == "role" then
      MapOk(ParseFilterOp(rest, ParseRoleValue), op => UserFilter.Role(op))
    else
      MapOk(ParseFilterOp(rest, ParseText), op => UserFilter.Login(op))
  }

  /** `UserFilter::from_str`: a token without a space is the crate-wide
      `DomainError::Filter`, an unknown field is `UserError::Filter`; both
      carry the trimmed token. */
  function ParseUserFilter(token: string): (r: Result<UserFilter, DomainError>)
    ensures ' ' !in Trim(token) ==> r == Err(DomainError.Filter(Trim(token)))
    ensures ' ' in Trim(token) && Trim(SplitOnce(Trim(token)).value.0) !in UserFilterFields
      ==> r == Err(DomainError.User(UserError.Filter(Trim(token))))
    ensures r.Ok? ==>
      && ' ' in Trim(token)
      && FilterColumn(r.value) == Trim(SplitOnce(Trim(token)).value.0)
    ensures ' ' in Trim(token) && Trim(SplitOnce(Trim(token)).value.0) in UserFilterFields ==>
      r == ParseUserFilterOf(Trim(SplitOnce(Trim(token)).value.0), SplitOnce(Trim(token)).value.1)
  {
    var s := Trim(token);
    match SplitOnce(s)
    case None => Err(DomainError.Filter(s))
    case Some((field, rest)) =>
      if Trim(field) in UserFilterFields then ParseUserFilterOf(Trim(field), rest)
      else Err(DomainError.User(UserError.Filter(s)))
  }

  /** A printable filter's value text is non-empty and does not end in
      whitespace. */
  lemma ValueTextEdge(f: UserFilter)
    requires FilterPrintable(f)
    ensures |FilterValueText(f)| > 0 && !IsWhitespace(FilterValueText(f)[|FilterValueText(f)| - 1])
  {
  }

  lemma UserFilterOfText(f: UserFilter)
    ensures ParseUserFilterOf(FilterColumn(f), Keyword(FilterKind(f)) + " " + FilterValueText(f)) == Ok(f)
  {
    match f
    case Role(op) =>
      ParseFilterOpOf(op.Kind(), RoleLabel(op.value), ParseRoleValue);
      ParseRoleLabel(op.value);
      MakeFilterOpOf(op);
    case Login(op) =>
      ParseFilterOpOf(op.Kind(), op.value, ParseText);
      MakeFilterOpOf(op);
  }

  /** Every filter is read back from its token, whatever whitespace surrounds
      it. */
  lemma UserFilterRoundTrip(f: UserFilter, a: string, b: string)
    requires FilterPrintable(f) && AllWhitespace(a) && AllWhitespace(b)
    ensures ParseUserFilter(a + FilterText(f) + b) == Ok(f)
  {
    var column := FilterColumn(f);
    var v := FilterValueText(f);
    var rest := Keyword(FilterKind(f)) + " " + v;
    ValueTextEdge(f);
    assert rest[|rest| - 1] == v[|v| - 1];
    var text := FilterText(f);
    PaddedToken(a, text, column, rest, b);
    assert ParseUserFilter(a + text + b) == ParseUserFilterOf(column, rest);
    UserFilterOfText(f);
  }

  /** `UserOrder`: a sort column and its direction. */
  datatype UserOrder =
    | Id(dir: Vocabulary.OrderOp)
    | Role(dir: Vocabulary.OrderOp)
    | CreatedAt(dir: Vocabulary.OrderOp)
    | UpdatedAt(dir: Vocabulary.OrderOp)

  const UserOrderFields: set<string> := {"id", "role", "created_at", "updated_at"}

  function OrderColumn(o: UserOrder): (c: string)
    ensures c in UserOrderFields && IsIdentifier(c)
  {
    match o
    case Id(_) => "id"
    case Role(_) => "role"
    case CreatedAt(_) => "created_at"
    case UpdatedAt(_) => "updated_at"
  }

  function UserOrderOf(field: string, dir: Vocabulary.OrderOp): (r: Option<UserOrder>)
    ensures r.Some? <==> field in UserOrderFields
    ensures r.Some? ==> OrderColumn(r.value) == field && r.value.dir == dir
  {
    match field
    case "id" => Some(UserOrder.Id(dir))
    case "role" => Some(UserOrder.Role(dir))
    case "created_at" => Some(UserOrder.CreatedAt(dir))
    case "updated_at" => Some(UserOrder.UpdatedAt(dir))
    case _ => None
  }

  lemma UserOrderOfColumn(o: UserOrder, dir: Vocabulary.OrderOp)
    ensures UserOrderOf(OrderColumn(o), dir) == Some(o.(dir := dir))
  {
  }

  /** `UserOrder::from_str`: an unknown field is `UserError::Order` with the
      untrimmed token; a bad direction is the crate-wide `OrderOp` error. */
  function ParseUserOrder(s: string): (r: Result<UserOrder, DomainError>)
    ensures ' ' in s && Trim(SplitOnce(s).value.0) !in UserOrderFields
      ==> r == Err(DomainError.User(UserError.Order(s)))
    ensures ' ' !in s && Trim(s) !in UserOrderFields ==> r == Err(DomainError.User(UserError.Order(s)))
    ensures r.Ok? && ' ' in s ==>
      && OrderColumn(r.value) == Trim(SplitOnce(s).value.0)
      && ParseOrderOp(SplitOnce(s).value.1) == Ok(r.value.dir)
    ensures r.Ok? && ' ' !in s ==> OrderColumn(r.value) == Trim(s) && r.value.dir == DefaultOrderOp
    ensures r.Err? ==> r.error.User? || r.error.OrderOp?
    ensures ' ' in s && Trim(SplitOnce(s).value.0) in UserOrderFields ==>
      && (r.Ok? <==> ParseOrderOp(SplitOnce(s).value.1).Ok?)
      && (r.Err? ==> r == Err(DomainError.OrderOp(SplitOnce(s).value.1)))
    ensures ' ' !in s && Trim(s) in UserOrderFields ==> r.Ok?
  {
    match SplitOnce(s)
    case Some((field, op)) =>
      if Trim(field) in UserOrderFields then
        var dir :- ParseOrderOp(op); Ok(UserOrderOf(Trim(field), dir).value)
      else Err(DomainError.User(UserError.Order(s)))
    case None =>
      match UserOrderOf(Trim(s), DefaultOrderOp)
      case Some(o) => Ok(o)
      case None => Err(DomainError.User(UserError.Order(s)))
  }

  lemma UserOrderRoundTrip(o: UserOrder)
    ensures ParseUserOrder(OrderColumn(o) + " " + OrderOpKeyword(o.dir)) == Ok(o)
    ensures o.dir == Asc ==> ParseUserOrder(OrderColumn(o)) == Ok(o)
  {
    var c := OrderColumn(o);
    var k := OrderOpKeyword(o.dir);
    IdentifierToken(c, k);
    ParseOrderOpKeyword(o.dir);
    UserOrderOfColumn(o, o.dir);
  }

  /** `UserOrder::default()`. */
  function DefaultUserOrder(): (o: UserOrder)
    ensures ParseUserOrder("id") == Ok(o)
  {
    var o := UserOrder.Id(DefaultOrderOp);
    UserOrderRoundTrip(o);
    o
  }
}
