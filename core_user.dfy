/** src/core/src/models/user.rs: `UserRole` parsing, the user model, and the
    `UserFilter` / `UserOrder` query tokens. */
module CoreUser {
  import opened Wrappers
  import opened Text
  import opened RustInt
  import opened Vocabulary
  import opened CoreUtils

  type UserId = u64

  datatype UserCredentials = UserCredentials(login: string, password: string)

  datatype UserModel = UserModel(
    id: UserId,
    login: string,
    role: UserRole,
    createdAt: Timestamp,
    updatedAt: Timestamp)

  /** `UserUpdate`: the one column an update sets. */
  datatype UserUpdate = Role(role: UserRole) | Password(password: string) | Login(login: string)

  /** `UserRole::from_str`: the trimmed text must be a role label exactly
      (case matters); the error carries the untrimmed text. */
  function ParseRole(s: string): (r: Result<UserRole, DomainError>)
    ensures r.Ok? <==> RoleFromLabel(Trim(s)).Some?
    ensures r.Ok? ==> RoleLabel(r.value) == Trim(s)
    ensures r.Err? ==> r == Err(Parse(s))
  {
    match Trim(s)
    case "User" => Ok(User)
    case "Organizer" => Ok(Organizer)
    case "Admin" => Ok(Admin)
    case _ => Err(Parse(s))
  }

  /** `parse(display(r)) == r`, also with whitespace around the label. */
  lemma RoleRoundTrip(role: UserRole, a: string, b: string)
    requires AllWhitespace(a) && AllWhitespace(b)
    ensures ParseRole(a + RoleLabel(role) + b) == Ok(role)
  {
    TrimPadded(a, RoleLabel(role), b);
  }

  lemma ParseRoleLabel(role: UserRole)
    ensures ParseRole(RoleLabel(role)) == Ok(role)
  {
    RoleRoundTrip(role, "", "");
    assert "" + RoleLabel(role) + "" == RoleLabel(role);
  }

  /** `UserFilter`: a comparison on the role or on the login. */
  datatype UserFilter =
    | Role(roleOp: Vocabulary.FilterOp<UserRole>)
    | Login(loginOp: Vocabulary.FilterOp<string>)

  const UserFilterFields: set<string> := {"role", "login"}

  /** The field a filter token names, which is also its SQL column. */
  function FilterColumn(f: UserFilter): (c: string)
    ensures c in UserFilterFields && IsIdentifier(c)
  {
    match f
    case Role(_) => "role"
    case Login(_) => "login"
  }

  function FilterKind(f: UserFilter): Operator {
    match f
    case Role(op) => op.Kind()
    case Login(op) => op.Kind()
  }

  /** The value text a caller writes for a filter. */
  function FilterValueText(f: UserFilter): string {
    match f
    case Role(op) => RoleLabel(op.value)
    case Login(op) => op.value
  }

  /** A token `<field> <op> <value>` naming the filter. */
  function FilterText(f: UserFilter): string {
    FilterColumn(f) + " " + Keyword(FilterKind(f)) + " " + FilterValueText(f)
  }

  /** The login filters whose value survives the whole-token trim: a login
      value must be non-empty and must not end in whitespace. */
  predicate FilterPrintable(f: UserFilter) {
    match f
    case Role(_) => true
    case Login(op) => |op.value| > 0 && !IsWhitespace(op.value[|op.value| - 1])
  }

  /** The value half of a filter token whose field is known: the rest of the
      token is a `FilterOp` over that field's value type. */
  function ParseUserFilterOf(field: string, rest: string): (r: Result<UserFilter, DomainError>)
    requires field in UserFilterFields
    ensures r.Ok? ==> FilterColumn(r.value) == field
    ensures field == "role" ==> (
      && (r.Ok? <==> ParseFilterOp(rest, ParseRole).Ok?)
      && (r.Ok? ==> r.value == UserFilter.Role(ParseFilterOp(rest, ParseRole).value))
      && (r.Err? ==> r.error == ParseFilterOp(rest, ParseRole).error))
    ensures field == "login" ==> (
      && (r.Ok? <==> ParseFilterOp(rest, ParseText).Ok?)
      && (r.Ok? ==> r.value == UserFilter.Login(ParseFilterOp(rest, ParseText).value))
      && (r.Err? ==> r.error == ParseFilterOp(rest, ParseText).error))
  {
    if field == "role" then
      MapOk(ParseFilterOp(rest, ParseRole), op => UserFilter.Role(op))
    else
      MapOk(ParseFilterOp(rest, ParseText), op => UserFilter.Login(op))
  }

  /** `UserFilter::from_str`: trim the token, split at the first space, the
      trimmed head must be `role` or `login`, the tail goes to `FilterOp`. */
  function ParseUserFilter(token: string): (r: Result<UserFilter, DomainError>)
    ensures ' ' !in Trim(token) ==> r == Err(DomainError.Filter(Trim(token)))
    ensures ' ' in Trim(token) && Trim(SplitOnce(Trim(token)).value.0) !in UserFilterFields
      ==> r == Err(DomainError.Filter(Trim(token)))
    ensures r.Ok? ==>
      && ' ' in Trim(token)
      && FilterColumn(r.value) == Trim(SplitOnce(Trim(token)).value.0)
    ensures ' ' in Trim(token) && Trim(SplitOnce(Trim(token)).value.0) in UserFilterFields ==>
      r == ParseUserFilterOf(Trim(SplitOnce(Trim(token)).value.0), SplitOnce(Trim(token)).value.1)
  {
    var s := Trim(token);
    match SplitOnce(s)
    case None => Err(DomainError.Filter(s))
    case Some((field, rest)) =>
      if Trim(field) in UserFilterFields then ParseUserFilterOf(Trim(field), rest)
      else Err(DomainError.Filter(s))
  }

  /** A printable filter's value text is non-empty and does not end in
      whitespace. */
  lemma ValueTextEdge(f: UserFilter)
    requires FilterPrintable(f)
    ensures |FilterValueText(f)| > 0 && !IsWhitespace(FilterValueText(f)[|FilterValueText(f)| - 1])
  {
  }

  /** The value half of every filter's token reads back as the filter. */
  lemma UserFilterOfText(f: UserFilter)
    ensures ParseUserFilterOf(FilterColumn(f), Keyword(FilterKind(f)) + " " + FilterValueText(f)) == Ok(f)
  {
    match f
    case Role(op) =>
      ParseFilterOpOf(op.Kind(), RoleLabel(op.value), ParseRole);
      ParseRoleLabel(op.value);
      MakeFilterOpOf(op);
    case Login(op) =>
      ParseFilterOpOf(op.Kind(), op.value, ParseText);
      MakeFilterOpOf(op);
  }

  /** Every filter is read back from its token, whatever whitespace surrounds
      it; a login value keeps its inner spaces. */
  lemma UserFilterRoundTrip(f: UserFilter, a: string, b: string)
    requires FilterPrintable(f) && AllWhitespace(a) && AllWhitespace(b)
    ensures ParseUserFilter(a + FilterText(f) + b) == Ok(f)
  {
    var column := FilterColumn(f);
    var v := FilterValueText(f);
    var rest := Keyword(FilterKind(f)) + " " + v;
    ValueTextEdge(f);
    assert rest[|rest| - 1] == v[|v| - 1];
    var text := FilterText(f);
    PaddedToken(a, text, column, rest, b);
    assert ParseUserFilter(a + text + b) == ParseUserFilterOf(column, rest);
    UserFilterOfText(f);
  }

  /** `UserOrder`: a sort column and its direction. */
  datatype UserOrder =
    | Id(dir: Vocabulary.OrderOp)
    | Role(dir: Vocabulary.OrderOp)
    | CreatedAt(dir: Vocabulary.OrderOp)
    | UpdatedAt(dir: Vocabulary.OrderOp)

  const UserOrderFields: set<string> := {"id", "role", "created_at", "updated_at"}

  /** The field an order token names, which is also its SQL column. */
  function OrderColumn(o: UserOrder): (c: string)
    ensures c in UserOrderFields && IsIdentifier(c)
  {
    match o
    case Id(_) => "id"
    case Role(_) => "role"
    case CreatedAt(_) => "created_at"
    case UpdatedAt(_) => "updated_at"
  }

  /** The order field table: the order a column name selects. */
  function UserOrderOf(field: string, dir: Vocabulary.OrderOp): (r: Option<UserOrder>)
    ensures r.Some? <==> field in UserOrderFields
    ensures r.Some? ==> OrderColumn(r.value) == field && r.value.dir == dir
  {
    match field
    case "id" => Some(UserOrder.Id(dir))
    case "role" => Some(UserOrder.Role(dir))
    case "created_at" => Some(UserOrder.CreatedAt(dir))
    case "updated_at" => Some(UserOrder.UpdatedAt(dir))
    case _ => None
  }

  /** The table inverts `OrderColumn`. */
  lemma UserOrderOfColumn(o: UserOrder, dir: Vocabulary.OrderOp)
    ensures UserOrderOf(OrderColumn(o), dir) == Some(o.(dir := dir))
  {
  }

  /** `UserOrder::from_str`: with a space, the trimmed head names the column
      and the tail is an `OrderOp`; without one, the trimmed token names the
      column and the direction is the default. The token itself is not
      trimmed first. */
  function ParseUserOrder(s: string): (r: Result<UserOrder, DomainError>)
    ensures ' ' in s && Trim(SplitOnce(s).value.0) !in UserOrderFields ==> r == Err(Order(s))
    ensures ' ' !in s && Trim(s) !in UserOrderFields ==> r == Err(Order(s))
    ensures r.Ok? && ' ' in s ==>
      && OrderColumn(r.value) == Trim(SplitOnce(s).value.0)
      && ParseOrderOp(SplitOnce(s).value.1) == Ok(r.value.dir)
    ensures r.Ok? && ' ' !in s ==> OrderColumn(r.value) == Trim(s) && r.value.dir == DefaultOrderOp
    ensures r.Err? ==> r.error.Order? || r.error.OrderOp?
    ensures ' ' in s && Trim(SplitOnce(s).value.0) in UserOrderFields ==>
      && (r.Ok? <==> ParseOrderOp(SplitOnce(s).value.1).Ok?)
      && (r.Err? ==> r == Err(DomainError.OrderOp(SplitOnce(s).value.1)))
    ensures ' ' !in s && Trim(s) in UserOrderFields ==> r.Ok?
  {
    match SplitOnce(s)
    case Some((field, op)) =>
      if Trim(field) in UserOrderFields then
        var dir :- ParseOrderOp(op); Ok(UserOrderOf(Trim(field), dir).value)
      else Err(Order(s))
    case None =>
      match UserOrderOf(Trim(s), DefaultOrderOp)
      case Some(o) => Ok(o)
      case None => Err(Order(s))
  }

  /** `<column> <asc|desc>` reads back as that order, and a bare column reads
      back as that column ascending. */
  lemma UserOrderRoundTrip(o: UserOrder)
    ensures ParseUserOrder(OrderColumn(o) + " " + OrderOpKeyword(o.dir)) == Ok(o)
    ensures o.dir == Asc ==> ParseUserOrder(OrderColumn(o)) == Ok(o)
  {
    var c := OrderColumn(o);
    var k := OrderOpKeyword(o.dir);
    IdentifierToken(c, k);
    ParseOrderOpKeyword(o.dir);
    UserOrderOfColumn(o, o.dir);
  }

  /** `UserOrder::default()`: what a bare `id` token means. */
  function DefaultUserOrder(): (o: UserOrder)
    ensures ParseUserOrder("id") == Ok(o)
  {
    var o := UserOrder.Id(DefaultOrderOp);
    UserOrderRoundTrip(o);
    o
  }
}
