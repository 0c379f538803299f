/** src/core/src/models/favorite.rs: the favorite key and its display, the
    favorite models, and the `FavoriteFilter` / `FavoriteOrder` query tokens. */
module CoreFavorite {
  import opened Wrappers
  import opened Text
  import opened RustInt
  import opened Vocabulary
  import opened CoreUtils
  import CoreUser
  import CoreEvent

  /** `FavoriteId`: a favorite is keyed by the user and the event. */
  datatype FavoriteId = FavoriteId(userId: CoreUser.UserId, eventId: CoreEvent.EventId)

  datatype FavoriteModel = FavoriteModel(
    userId: CoreUser.UserId,
    eventId: CoreEvent.EventId,
    createdAt: Timestamp,
    updatedAt: Timestamp)

  /** A favorite joined with its event; the timestamps are the favorite's. */
  datatype FavoriteEventModel = FavoriteEventModel(
    event: CoreEvent.EventModel,
    createdAt: Timestamp,
    updatedAt: Timestamp)

  /** `impl Display for FavoriteId`: `user <user id> and event <event id>`. */
  function FavoriteIdText(id: FavoriteId): string {
    "user " + NatToString(id.userId) + " and event " + NatToString(id.eventId)
  }

  /** After the fixed `user ` prefix, the first space ends the user id. */
  lemma FavoriteIdTextSplit(id: FavoriteId)
    ensures |FavoriteIdText(id)| >= 5
    ensures SplitOnce(FavoriteIdText(id)[5..])
      == Some((NatToString(id.userId), "and event " + NatToString(id.eventId)))
  {
    var p, e := NatToString(id.userId), NatToString(id.eventId);
    assert FavoriteIdText(id)[5..] == p + " " + ("and event " + e);
    assert ' ' !in p by {
      forall i | 0 <= i < |p| ensures p[i] != ' ' {
        assert IsDigit(p[i]);
      }
    }
    SplitOnceOf(p, "and event " + e);
  }

  /** The display names a favorite unambiguously: two keys with the same
      text are the same key. */
  lemma FavoriteIdTextInjective(a: FavoriteId, b: FavoriteId)
    requires FavoriteIdText(a) == FavoriteIdText(b)
    ensures a == b
  {
    FavoriteIdTextSplit(a);
    FavoriteIdTextSplit(b);
    var x, y := "and event " + NatToString(a.eventId), "and event " + NatToString(b.eventId);
    assert x == y;
    assert x[10..] == NatToString(a.eventId) && y[10..] == NatToString(b.eventId);
    NatToStringInjective(a.userId, b.userId);
    NatToStringInjective(a.eventId, b.eventId);
  }

  /** `FavoriteFilter`: a comparison on the event id, the only filter field. */
  datatype FavoriteFilter = EventId(eventOp: Vocabulary.FilterOp<CoreEvent.EventId>)

  const FavoriteFilterFields: set<string> := {"event_id"}

  /** The field a filter token names, which is also its SQL column. */
  function FilterColumn(f: FavoriteFilter): (c: string)
    ensures c in FavoriteFilterFields && IsIdentifier(c)
  {
    "event_id"
  }

  /** A token `event_id <op> <decimal id>` naming the filter. */
  function FilterText(f: FavoriteFilter): string {
    FilterColumn(f) + " " + Keyword(f.eventOp.Kind()) + " " + NatToString(f.eventOp.value)
  }

  /** `FavoriteFilter::from_str`: trim the token, split at the first space,
      the trimmed head must be `event_id`, the tail is a `FilterOp<u64>`. */
  function ParseFavoriteFilter(token: string): (r: Result<FavoriteFilter, DomainError>)
    ensures ' ' !in Trim(token) ==> r == Err(DomainError.Filter(Trim(token)))
    ensures ' ' in Trim(token) && Trim(SplitOnce(Trim(token)).value.0) != "event_id"
      ==> r == Err(DomainError.Filter(Trim(token)))
    ensures ' ' in Trim(token) && Trim(SplitOnce(Trim(token)).value.0) == "event_id" ==>
      r == match ParseFilterOp(SplitOnce(Trim(token)).value.1, ParseU64)
           case Ok(op) => Ok(FavoriteFilter.EventId(op))
           case Err(e) => Err(e)
  {
    var s := Trim(token);
    match SplitOnce(s)
    case None => Err(DomainError.Filter(s))
    case Some((field, rest)) =>
      if Trim(field) == "event_id" then
        var f :- ParseFilterOp(rest, ParseU64); Ok(FavoriteFilter.EventId(f))
      else Err(DomainError.Filter(s))
  }

  /** Every filter is read back from its token, whatever whitespace surrounds
      it. */
  lemma FavoriteFilterRoundTrip(f: FavoriteFilter, a: string, b: string)
    requires AllWhitespace(a) && AllWhitespace(b)
    ensures ParseFavoriteFilter(a + FilterText(f) + b) == Ok(f)
  {
    var op := f.eventOp;
    var digits := NatToString(op.value);
    var rest := Keyword(op.Kind()) + " " + digits;
    assert rest[|rest| - 1] == digits[|digits| - 1];
    PaddedToken(a, FilterText(f), "event_id", rest, b);
    ParseU64RoundTrip(op.value);
    ParseFilterOpText(op, digits, ParseU64);
  }


  /** `FavoriteOrder`: a sort column and its direction. */
  datatype FavoriteOrder =
    | EventId(dir: Vocabulary.OrderOp)
    | CreatedAt(dir: Vocabulary.OrderOp)
    | UpdatedAt(dir: Vocabulary.OrderOp)

  const FavoriteOrderFields: set<string> := {"event_id", "created_at", "updated_at"}

  /** The field an order token names, which is also its SQL column. */
  function OrderColumn(o: FavoriteOrder): (c: string)
    ensures c in FavoriteOrderFields && IsIdentifier(c)
  {
    match o
    case EventId(_) => "event_id"
    case CreatedAt(_) => "created_at"
    case UpdatedAt(_) => "updated_at"
  }

  /** The order field table: the order a column name selects. */
  function FavoriteOrderOf(field: string, dir: Vocabulary.OrderOp): (r: Option<FavoriteOrder>)
    ensures r.Some? <==> field in FavoriteOrderFields
    ensures r.Some? ==> OrderColumn(r.value) == field && r.value.dir == dir
  {
    match field
    case "event_id" => Some(FavoriteOrder.EventId(dir))
    case "created_at" => Some(FavoriteOrder.CreatedAt(dir))
    case "updated_at" => Some(FavoriteOrder.UpdatedAt(dir))
    case _ => None
  }

  /** The table inverts `OrderColumn`. */
  lemma FavoriteOrderOfColumn(o: FavoriteOrder, dir: Vocabulary.OrderOp)
    ensures FavoriteOrderOf(OrderColumn(o), dir) == Some(o.(dir := dir))
  {
  }

  /** `FavoriteOrder::from_str`: with a space, the trimmed head names the
      column and the tail is an `OrderOp`; without one, the trimmed token
      names the column and the direction is the default. The token itself is
      not trimmed first. */
  function ParseFavoriteOrder(s: string): (r: Result<FavoriteOrder, DomainError>)
    ensures ' ' in s && Trim(SplitOnce(s).value.0) !in FavoriteOrderFields ==> r == Err(Order(s))
    ensures ' ' !in s && Trim(s) !in FavoriteOrderFields ==> r == Err(Order(s))
    ensures r.Ok? && ' ' in s ==>
      && OrderColumn(r.value) == Trim(SplitOnce(s).value.0)
      && ParseOrderOp(SplitOnce(s).value.1) == Ok(r.value.dir)
    ensures r.Ok? && ' ' !in s ==> OrderColumn(r.value) == Trim(s) && r.value.dir == DefaultOrderOp
    ensures r.Err? ==> r.error.Order? || r.error.OrderOp?
    ensures ' ' in s && Trim(SplitOnce(s).value.0) in FavoriteOrderFields ==>
      && (r.Ok? <==> ParseOrderOp(SplitOnce(s).value.1).Ok?)
      && (r.Err? ==> r == Err(DomainError.OrderOp(SplitOnce(s).value.1)))
    ensures ' ' !in s && Trim(s) in FavoriteOrderFields ==> r.Ok?
  {
    match SplitOnce(s)
    case Some((field, op)) =>
      if Trim(field) in FavoriteOrderFields then
        var dir :- ParseOrderOp(op); Ok(FavoriteOrderOf(Trim(field), dir).value)
      else Err(Order(s))
    case None =>
      match FavoriteOrderOf(Trim(s), DefaultOrderOp)
      case Some(o) => Ok(o)
      case None => Err(Order(s))
  }

  /** `<column> <asc|desc>` reads back as that order, and a bare column reads
      back as that column ascending. */
  lemma FavoriteOrderRoundTrip(o: FavoriteOrder)
    ensures ParseFavoriteOrder(OrderColumn(o) + " " + OrderOpKeyword(o.dir)) == Ok(o)
    ensures o.dir == Asc ==> ParseFavoriteOrder(OrderColumn(o)) == Ok(o)
  {
    var c := OrderColumn(o);
    var k := OrderOpKeyword(o.dir);
    IdentifierToken(c, k);
    ParseOrderOpKeyword(o.dir);
    FavoriteOrderOfColumn(o, o.dir);
  }

  /** `FavoriteOrder::default()`: what a bare `event_id` token means. */
  function DefaultFavoriteOrder(): (o: FavoriteOrder)
    ensures ParseFavoriteOrder("event_id") == Ok(o)
  {
    var o := FavoriteOrder.EventId(DefaultOrderOp);
    FavoriteOrderRoundTrip(o);
    o
  }
}
