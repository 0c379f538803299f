/** The closed vocabularies of the query language, identical in the current
    crate (src/core/src/models) and the older one (src/domain): the six
    comparison operators, `FilterOp<T>`, `OrderOp`, and the two enumerated
    labels `EventStatus` and `UserRole`. Each generation wraps the lookups
    below in its own `FromStr` with its own error type. */
module Vocabulary {
  import opened Wrappers
  import opened Text

  /** The tag of a `FilterOp` variant, without its payload. */
  datatype Operator = Equal | NotEqual | Greater | Less | GreaterOrEqual | LessOrEqual

  /** The token a caller writes for an operator. */
  function Keyword(k: Operator): string {
    match k
    case Equal => "eq"
    case NotEqual => "ne"
    case Greater => "gt"
    case Less => "lt"
    case GreaterOrEqual => "gte"
    case LessOrEqual => "lte"
  }

  /** The exact, case-sensitive match on the operator token. */
  function OperatorFromKeyword(s: string): (r: Option<Operator>)
    ensures r.Some? ==> Keyword(r.value) == s
  {
    match s
    case "eq" => Some(Equal)
    case "ne" => Some(NotEqual)
    case "gt" => Some(Greater)
    case "lt" => Some(Less)
    case "gte" => Some(GreaterOrEqual)
    case "lte" => Some(LessOrEqual)
    case _ => None
  }

  /** Every operator token is recognised, so the lookup is the inverse of
      `Keyword` and the keyword set is exactly six strings. */
  lemma OperatorKeywordRoundTrip(k: Operator)
    ensures OperatorFromKeyword(Keyword(k)) == Some(k)
  {
  }

  /** An operator token is a single word with nothing for `trim` to cut. */
  lemma KeywordIsWord(k: Operator)
    ensures ' ' !in Keyword(k) && Trim(Keyword(k)) == Keyword(k)
  {
    TrimNoEdgeSpace(Keyword(k));
  }

  /** The SQL text of an operator. */
  function Symbol(k: Operator): string {
    match k
    case Equal => "="
    case NotEqual => "!="
    case Greater => ">"
    case Less => "<"
    case GreaterOrEqual => ">="
    case LessOrEqual => "<="
  }

  /** The six SQL comparison symbols the compiler may emit. */
  const SqlOperators: set<string> := {"=", "!=", ">", "<", ">=", "<="}

  /** `FilterOp<T>`: a comparison and the value it compares against. */
  datatype FilterOp<T> =
    | Eq(value: T) | Ne(value: T) | Gt(value: T) | Lt(value: T) | Gte(value: T) | Lte(value: T)
  {
    function Kind(): Operator {
      match this
      case Eq(_) => Equal
      case Ne(_) => NotEqual
      case Gt(_) => Greater
      case Lt(_) => Less
      case Gte(_) => GreaterOrEqual
      case Lte(_) => LessOrEqual
    }

    /** `FilterOp::operation`: the SQL symbol of the variant, one of six
        fixed strings, chosen by the variant alone. */
    function Operation(): (r: string)
      ensures r in SqlOperators
      ensures r == Symbol(Kind())
    {
      match this
      case Eq(_) => "="
      case Ne(_) => "!="
      case Gt(_) => ">"
      case Lt(_) => "<"
      case Gte(_) => ">="
      case Lte(_) => "<="
    }
  }

  /** The variant selected by an operator, carrying `v`. */
  function MakeFilterOp<T>(k: Operator, v: T): (r: FilterOp<T>)
    ensures r.Kind() == k && r.value == v
  {
    match k
    case Equal => Eq(v)
    case NotEqual => Ne(v)
    case Greater => Gt(v)
    case Less => Lt(v)
    case GreaterOrEqual => Gte(v)
    case LessOrEqual => Lte(v)
  }

  /** A `FilterOp` is its variant and its payload, nothing more. */
  lemma FilterOpDeterminedByKindAndValue<T>(a: FilterOp<T>, b: FilterOp<T>)
    requires a.Kind() == b.Kind() && a.value == b.value
    ensures a == b
  {
  }

  /** Rebuilding a `FilterOp` from its variant and payload gives it back. */
  lemma MakeFilterOpOf<T>(f: FilterOp<T>)
    ensures MakeFilterOp(f.Kind(), f.value) == f
  {
    FilterOpDeterminedByKindAndValue(MakeFilterOp(f.Kind(), f.value), f);
  }

  /** `operation()` does not look at the payload: two operators of the same
      variant render the same symbol whatever they carry. */
  lemma OperationIgnoresValue<T, U>(a: FilterOp<T>, b: FilterOp<U>)
    requires a.Kind() == b.Kind()
    ensures a.Operation() == b.Operation()
  {
  }

  /** `time::OffsetDateTime` / `PrimitiveDateTime`, as whole seconds since
      the Unix epoch. The model only copies and offsets them. */
  type Timestamp = int

  /** `OrderOp`; `#[default]` is `Asc`. */
  datatype OrderOp = Asc | Desc

  const DefaultOrderOp: OrderOp := Asc

  /** The exact, lowercase direction token. */
  function OrderOpFromKeyword(s: string): Option<OrderOp> {
    match s
    case "asc" => Some(Asc)
    case "desc" => Some(Desc)
    case _ => None
  }

  /** The lowercase token a caller writes for a direction. */
  function OrderOpKeyword(o: OrderOp): string {
    match o
    case Asc => "asc"
    case Desc => "desc"
  }

  /** `impl Display for OrderOp`: the uppercase SQL keyword. */
  function OrderOpDisplay(o: OrderOp): (r: string)
    ensures r == "ASC" || r == "DESC"
  {
    match o
    case Asc => "ASC"
    case Desc => "DESC"
  }

  /** `EventStatus`; `#[default]` is `OnReview`. */
  datatype EventStatus = Approved | Rejected | OnReview

  const DefaultEventStatus: EventStatus := OnReview

  /** `impl Display for EventStatus`. */
  function StatusLabel(s: EventStatus): string {
    match s
    case Approved => "Approved"
    case Rejected => "Rejected"
    case OnReview => "OnReview"
  }

  /** The exact, case-sensitive match on a status label. */
  function StatusFromLabel(t: string): (r: Option<EventStatus>)
    ensures r.Some? ==> StatusLabel(r.value) == t
  {
    match t
    case "Approved" => Some(Approved)
    case "Rejected" => Some(Rejected)
    case "OnReview" => Some(OnReview)
    case _ => None
  }

  /** `UserRole`; `#[default]` is `User`. */
  datatype UserRole = User | Organizer | Admin

  const DefaultUserRole: UserRole := User

  /** Position in declaration order, which is what `#[derive(PartialOrd, Ord)]`
      compares. */
  function RoleRank(r: UserRole): nat {
    match r
    case User => 0
    case Organizer => 1
    case Admin => 2
  }

  /** The derived `<` on roles. */
  predicate RoleLess(a: UserRole, b: UserRole) {
    RoleRank(a) < RoleRank(b)
  }

  /** The derived order is a strict total order with `User < Organizer <
      Admin`, and the default role is the least one. */
  lemma RoleOrderTotal(a: UserRole, b: UserRole, c: UserRole)
    ensures RoleLess(User, Organizer) && RoleLess(Organizer, Admin)
    ensures !RoleLess(a, a)
    ensures a == b || RoleLess(a, b) || RoleLess(b, a)
    ensures RoleLess(a, b) && RoleLess(b, c) ==> RoleLess(a, c)
    ensures !RoleLess(a, DefaultUserRole)
  {
  }

  /** `impl Display for UserRole`. */
  function RoleLabel(r: UserRole): string {
    match r
    case User => "User"
    case Organizer => "Organizer"
    case Admin => "Admin"
  }

  /** The exact, case-sensitive match on a role label. */
  function RoleFromLabel(t: string): (r: Option<UserRole>)
    ensures r.Some? ==> RoleLabel(r.value) == t
  {
    match t
    case "User" => Some(User)
    case "Organizer" => Some(Organizer)
    case "Admin" => Some(Admin)
    case _ => None
  }
}
