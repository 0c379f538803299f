/** src/domain/favorite/model.rs: the older crate's favorite models and the
    `FavoriteFilter` / `FavoriteOrder` tokens, with `FavoriteError` for the
    failures that belong to favorites. Event ids are signed `i64`, so a
    negative id is a valid filter value. */
module LegacyFavorite {
  import opened Wrappers
  import opened Text
  import opened RustInt
  import opened Vocabulary
  import opened LegacyUtils
  import LegacyUser
  import LegacyEvent

  datatype FavoriteModel = FavoriteModel(
    userId: LegacyUser.UserId,
    eventId: LegacyEvent.EventId,
    createdAt: Timestamp,
    updatedAt: Timestamp)

  datatype FavoriteEventModel = FavoriteEventModel(
    event: LegacyEvent.EventModel,
    createdAt: Timestamp,
    updatedAt: Timestamp)

  /** `FavoriteFilter`: a comparison on the event id. */
  datatype FavoriteFilter = EventId(eventOp: Vocabulary.FilterOp<LegacyEvent.EventId>)

  function FilterText(f: FavoriteFilter): string {
    "event_id" + " " + Keyword(f.eventOp.Kind()) + " " + IntToString(f.eventOp.value)
  }

  /** `FavoriteFilter::from_str`: no space is `DomainError::Filter`, a field
      other than `event_id` is `FavoriteError::Filter`, both with the trimmed
      token; the tail is a `FilterOp<i64>`. */
  function ParseFavoriteFilter(token: string): (r: Result<FavoriteFilter, DomainError>)
    ensures ' ' !in Trim(token) ==> r == Err(DomainError.Filter(Trim(token)))
    ensures ' ' in Trim(token) && Trim(SplitOnce(Trim(token)).value.0) != "event_id"
      ==> r == Err(DomainError.Favorite(FavoriteError.Filter(Trim(token))))
    ensures ' ' in Trim(token) && Trim(SplitOnce(Trim(token)).value.0) == "event_id" ==>
      r == match ParseFilterOp(SplitOnce(Trim(token)).value.1, ParseI64)
           case Ok(op) => Ok(FavoriteFilter.EventId(op))
           case Err(e) => Err(e)
  {
    var s := Trim(token);
    match SplitOnce(s)
    case None => Err(DomainError.Filter(s))
    case Some((field, rest)) =>
      if Trim(field) == "event_id" then
        var f :- ParseFilterOp(rest, ParseI64); Ok(FavoriteFilter.EventId(f))
      else Err(DomainError.Favorite(FavoriteError.Filter(s)))
  }

  /** Every filter, negative ids included, is read back from its token. */
  lemma FavoriteFilterRoundTrip(f: FavoriteFilter, a: string, b: string)
    requires AllWhitespace(a) && AllWhitespace(b)
    ensures ParseFavoriteFilter(a + FilterText(f) + b) == Ok(f)
  {
    var op := f.eventOp;
    var digits := IntToString(op.value);
    var rest := Keyword(op.Kind()) + " " + digits;
    assert rest[|rest| - 1] == digits[|digits| - 1];
    PaddedToken(a, FilterText(f), "event_id", rest, b);
    ParseI64RoundTrip(op.value);
    ParseFilterOpText(op, digits, ParseI64);
  }


  /** `FavoriteOrder`: a sort column and its direction. */
  datatype FavoriteOrder =
    | EventId(dir: Vocabulary.OrderOp)
    | CreatedAt(dir: Vocabulary.OrderOp)
    | UpdatedAt(dir: Vocabulary.OrderOp)

  const FavoriteOrderFields: set<string> := {"event_id", "created_at", "updated_at"}

  function OrderColumn(o: FavoriteOrder): (c: string)
    ensures c in FavoriteOrderFields && IsIdentifier(c)
  {
    match o
    case EventId(_) => "event_id"
    case CreatedAt(_) => "created_at"
    case UpdatedAt(_) => "updated_at"
  }

  function FavoriteOrderOf(field: string, dir: Vocabulary.OrderOp): (r: Option<FavoriteOrder>)
    ensures r.Some? <==> field in FavoriteOrderFields
    ensures r.Some? ==> OrderColumn(r.value) == field && r.value.dir == dir
  {
    match field
    case "event_id" => Some(FavoriteOrder.EventId(dir))
    case "created_at" => Some(FavoriteOrder.CreatedAt(dir))
    case "updated_at" => Some(FavoriteOrder.UpdatedAt(dir))
    case _ => None
  }

  lemma FavoriteOrderOfColumn(o: FavoriteOrder, dir: Vocabulary.OrderOp)
    ensures FavoriteOrderOf(OrderColumn(o), dir) == Some(o.(dir := dir))
  {
  }

  /** `FavoriteOrder::from_str`: an unknown field is `FavoriteError::Order`
      with the untrimmed token. */
  function ParseFavoriteOrder(s: string): (r: Result<FavoriteOrder, DomainError>)
    ensures ' ' in s && Trim(SplitOnce(s).value.0) !in FavoriteOrderFields
      ==> r == Err(DomainError.Favorite(FavoriteError.Order(s)))
    ensures ' ' !in s && Trim(s) !in FavoriteOrderFields
      ==> r == Err(DomainError.Favorite(FavoriteError.Order(s)))
    ensures r.Ok? && ' ' in s ==>
      && OrderColumn(r.value) == Trim(SplitOnce(s).value.0)
      && ParseOrderOp(SplitOnce(s).value.1) == Ok(r.value.dir)
    ensures r.Ok? && ' ' !in s ==> OrderColumn(r.value) == Trim(s) && r.value.dir == DefaultOrderOp
    ensures r.Err? ==> r.error.Favorite? || r.error.OrderOp?
    ensures ' ' in s && Trim(SplitOnce(s).value.0) in FavoriteOrderFields ==>
      && (r.Ok? <==> ParseOrderOp(SplitOnce(s).value.1).Ok?)
      && (r.Err? ==> r == Err(DomainError.OrderOp(SplitOnce(s).value.1)))
    ensures ' ' !in s && Trim(s) in FavoriteOrderFields ==> r.Ok?
  {
    match SplitOnce(s)
    case Some((field, op)) =>
      if Trim(field) in FavoriteOrderFields then
        var dir :- ParseOrderOp(op); Ok(FavoriteOrderOf(Trim(field), dir).value)
      else Err(DomainError.Favorite(FavoriteError.Order(s)))
    case None =>
      match FavoriteOrderOf(Trim(s), DefaultOrderOp)
      case Some(o) => Ok(o)
      case None => Err(DomainError.Favorite(FavoriteError.Order(s)))
  }

  lemma FavoriteOrderRoundTrip(o: FavoriteOrder)
    ensures ParseFavoriteOrder(OrderColumn(o) + " " + OrderOpKeyword(o.dir)) == Ok(o)
    ensures o.dir == Asc ==> ParseFavoriteOrder(OrderColumn(o)) == Ok(o)
  {
    var c := OrderColumn(o);
    var k := OrderOpKeyword(o.dir);
    IdentifierToken(c, k);
    ParseOrderOpKeyword(o.dir);
    FavoriteOrderOfColumn(o, o.dir);
  }

  /** `FavoriteOrder::default()`. */
  function DefaultFavoriteOrder(): (o: FavoriteOrder)
    ensures ParseFavoriteOrder("event_id") == Ok(o)
  {
    var o := FavoriteOrder.EventId(DefaultOrderOp);
    FavoriteOrderRoundTrip(o);
    o
  }
}
