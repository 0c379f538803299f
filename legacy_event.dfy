/** src/domain/event/model.rs: the older crate's `EventStatus` parsing, event
    model and `EventFilter` / `EventOrder` tokens, with `EventError` for the
    failures that belong to events. Ids are signed and the stored cost is an
    `i32`. */
module LegacyEvent {
  import opened Wrappers
  import opened Text
  import opened RustInt
  import opened Vocabulary
  import opened LegacyUtils
  import LegacyUser

  type EventId = i64

  datatype NewEvent = NewEvent(
    organizerId: LegacyUser.UserId,
    title: string,
    description: string,
    date: Timestamp,
    cost: u32,
    address: string)

  datatype EventModel = EventModel(
    id: EventId,
    organizerId: LegacyUser.UserId,
    title: string,
    description: string,
    date: Timestamp,
    cost: i32,
    address: string,
    status: EventStatus,
    createdAt: Timestamp,
    updatedAt: Timestamp)

  /** `EventUpdate`: the one column an update sets. */
  datatype EventUpdate =
    | Status(status: EventStatus)
    | Title(title: string)
    | Description(description: string)
    | Cost(cost: u32)
    | Address(address: string)

  /** `EventStatus::from_str`: the trimmed text must be a status label
      exactly; the error is `EventError::Status` with the untrimmed text. */
  function ParseStatus(s: string): (r: Result<EventStatus, EventError>)
    ensures r.Ok? <==> StatusFromLabel(Trim(s)).Some?
    ensures r.Ok? ==> StatusLabel(r.value) == Trim(s)
    ensures r.Err? ==> r == Err(EventError.Status(s))
  {
    match Trim(s)
    case "Approved" => Ok(Approved)
    case "Rejected" => Ok(Rejected)
    case "OnReview" => Ok(OnReview)
    case _ => Err(EventError.Status(s))
  }

  /** The status parse as a filter value, its error lifted into
      `DomainError`. */
  function ParseStatusValue(s: string): (r: Result<EventStatus, DomainError>)
    ensures r.Ok? ==> ParseStatus(s) == Ok(r.value)
    ensures r.Err? ==> r == Err(DomainError.Event(EventError.Status(s)))
  {
    match ParseStatus(s)
    case Ok(status) => Ok(status)
    case Err(e) => Err(DomainError.Event(e))
  }

  /** `parse(display(s)) == s`, also with whitespace around the label. */
  lemma StatusRoundTrip(status: EventStatus, a: string, b: string)
    requires AllWhitespace(a) && AllWhitespace(b)
    ensures ParseStatus(a + StatusLabel(status) + b) == Ok(status)
  {
    TrimPadded(a, StatusLabel(status), b);
  }

  lemma ParseStatusLabel(status: EventStatus)
    ensures ParseStatusValue(StatusLabel(status)) == Ok(status)
  {
    StatusRoundTrip(status, "", "");
    assert "" + StatusLabel(status) + "" == StatusLabel(status);
  }

  /** `EventFilter`: a comparison on one of four columns. */
  datatype EventFilter =
    | OrganizerId(organizerOp: Vocabulary.FilterOp<LegacyUser.UserId>)
    | Status(statusOp: Vocabulary.FilterOp<EventStatus>)
    | Title(titleOp: Vocabulary.FilterOp<string>)
    | Cost(costOp: Vocabulary.FilterOp<u32>)

  const EventFilterFields: set<string> := {"organizer_id", "status", "title", "cost"}

  /** The four filter fields, as the tag that selects a value parser. */
  datatype FilterField = OrganizerIdField | StatusField | TitleField | CostField

  /** The SQL column, which is also the token's field name, of a field. */
  function FieldColumn(k: FilterField): (c: string)
    ensures c in EventFilterFields && IsIdentifier(c)
  {
    match k
    case OrganizerIdField => "organizer_id"
    case StatusField => "status"
    case TitleField => "title"
    case CostField => "cost"
  }

  /** The filter field table: the field a name selects. */
  function FilterFieldOf(name: string): (r: Option<FilterField>)
    ensures r.Some? <==> name in EventFilterFields
    ensures r.Some? ==> FieldColumn(r.value) == name
  {
    match name
    case "organizer_id" => Some(OrganizerIdField)
    case "status" => Some(StatusField)
    case "title" => Some(TitleField)
    case "cost" => Some(CostField)
    case _ => None
  }

  /** The table inverts `FieldColumn`. */
  lemma FilterFieldOfColumn(k: FilterField)
    ensures FilterFieldOf(FieldColumn(k)) == Some(k)
  {
  }

  /** The field a filter compares. */
  function FieldOf(f: EventFilter): FilterField {
    match f
    case OrganizerId(_) => OrganizerIdField
    case Status(_) => StatusField
    case Title(_) => TitleField
    case Cost(_) => CostField
  }

  /** The field a filter token names, which is also its SQL column. */
  function FilterColumn(f: EventFilter): (c: string)
    ensures c in EventFilterFields && IsIdentifier(c)
  {
    FieldColumn(FieldOf(f))
  }

  function FilterKind(f: EventFilter): Operator {
    match f
    case OrganizerId(op) => op.Kind()
    case Status(op) => op.Kind()
    case Title(op) => op.Kind()
    case Cost(op) => op.Kind()
  }

  /** The value text a caller writes: organizer ids may be negative. */
  function FilterValueText(f: EventFilter): string {
    match f
    case OrganizerId(op) => IntToString(op.value)
    case Status(op) => StatusLabel(op.value)
    case Title(op) => op.value
    case Cost(op) => NatToString(op.value)
  }

  function FilterText(f: EventFilter): string {
    FilterColumn(f) + " " + Keyword(FilterKind(f)) + " " + FilterValueText(f)
  }

  predicate FilterPrintable(f: EventFilter) {
    match f
    case Title(op) => |op.value| > 0 && !IsWhitespace(op.value[|op.value| - 1])
    case _ => true
  }

  /** The `organizer_id` arm: the tail is a `FilterOp<i64>`; a parse error is passed on
      as it is. */
  function OrganizerIdFilterOf(rest: string): (r: Result<EventFilter, DomainError>)
    ensures r.Ok? <==> ParseFilterOp(rest, ParseI64).Ok?
    ensures r.Ok? ==> r.value == EventFilter.OrganizerId(ParseFilterOp(rest, ParseI64).value)
    ensures r.Err? ==> r.error == ParseFilterOp(rest, ParseI64).error
  {
    MapOk(ParseFilterOp(rest, ParseI64), op => EventFilter.OrganizerId(op))
  }

  /** The `status` arm: the tail is a `FilterOp<EventStatus>`; a parse error is passed on
      as it is. */
  function StatusFilterOf(rest: string): (r: Result<EventFilter, DomainError>)
    ensures r.Ok? <==> ParseFilterOp(rest, ParseStatusValue).Ok?
    ensures r.Ok? ==> r.value == EventFilter.Status(ParseFilterOp(rest, ParseStatusValue).value)
    ensures r.Err? ==> r.error == ParseFilterOp(rest, ParseStatusValue).error
  {
    MapOk(ParseFilterOp(rest, ParseStatusValue), op => EventFilter.Status(op))
  }

  /** The `title` arm: the tail is a `FilterOp<String>`; a parse error is passed on
      as it is. */
  function TitleFilterOf(rest: string): (r: Result<EventFilter, DomainError>)
    ensures r.Ok? <==> ParseFilterOp(rest, ParseText).Ok?
    ensures r.Ok? ==> r.value == EventFilter.Title(ParseFilterOp(rest, ParseText).value)
    ensures r.Err? ==> r.error == ParseFilterOp(rest, ParseText).error
  {
    MapOk(ParseFilterOp(rest, ParseText), op => EventFilter.Title(op))
  }

  /** The `cost` arm: the tail is a `FilterOp<u32>`; a parse error is passed on
      as it is. */
  function CostFilterOf(rest: string): (r: Result<EventFilter, DomainError>)
    ensures r.Ok? <==> ParseFilterOp(rest, ParseU32).Ok?
    ensures r.Ok? ==> r.value == EventFilter.Cost(ParseFilterOp(rest, ParseU32).value)
    ensures r.Err? ==> r.error == ParseFilterOp(rest, ParseU32).error
  {
    MapOk(ParseFilterOp(rest, ParseU32), op => EventFilter.Cost(op))
  }

  /** The value half of a filter token whose field is known: the rest of the
      token goes to that field's arm. */
  function ParseEventFilterOf(field: FilterField, rest: string): (r: Result<EventFilter, DomainError>)
    ensures r.Ok? ==> FieldOf(r.value) == field
    ensures field == OrganizerIdField ==> r == OrganizerIdFilterOf(rest)
    ensures field == StatusField ==> r == StatusFilterOf(rest)
    ensures field == TitleField ==> r == TitleFilterOf(rest)
    ensures field == CostField ==> r == CostFilterOf(rest)
  {
    match field
    case OrganizerIdField => OrganizerIdFilterOf(rest)
    case StatusField => StatusFilterOf(rest)
    case TitleField => TitleFilterOf(rest)
    case CostField => CostFilterOf(rest)
  }

  /** `EventFilter::from_str`: a token without a space is the crate-wide
      `DomainError::Filter`, an unknown field is `EventError::Filter`; both
      carry the trimmed token. */
  function ParseEventFilter(token: string): (r: Result<EventFilter, DomainError>)
    ensures ' ' !in Trim(token) ==> r == Err(DomainError.Filter(Trim(token)))
    ensures ' ' in Trim(token) && Trim(SplitOnce(Trim(token)).value.0) !in EventFilterFields
      ==> r == Err(DomainError.Event(EventError.Filter(Trim(token))))
    ensures r.Ok? ==>
      && ' ' in Trim(token)
      && FilterColumn(r.value) == Trim(SplitOnce(Trim(token)).value.0)
    ensures ' ' in Trim(token) && Trim(SplitOnce(Trim(token)).value.0) in EventFilterFields ==>
      r == ParseEventFilterOf(FilterFieldOf(Trim(SplitOnce(Trim(token)).value.0)).value, SplitOnce(Trim(token)).value.1)
  {
    var s := Trim(token);
    match SplitOnce(s)
    case None => Err(DomainError.Filter(s))
    case Some((field, rest)) =>
      match FilterFieldOf(Trim(field))
      case Some(k) => ParseEventFilterOf(k, rest)
      case None => Err(DomainError.Event(EventError.Filter(s)))
  }

  /** A printable filter's value text is non-empty and does not end in
      whitespace. */
  lemma ValueTextEdge(f: EventFilter)
    requires FilterPrintable(f)
    ensures |FilterValueText(f)| > 0 && !IsWhitespace(FilterValueText(f)[|FilterValueText(f)| - 1])
  {
  }

  lemma OrganizerIdFilterOfText(f: EventFilter)
    requires f.OrganizerId?
    ensures ParseEventFilterOf(FieldOf(f), Keyword(FilterKind(f)) + " " + FilterValueText(f)) == Ok(f)
  {
    ParseI64RoundTrip(f.organizerOp.value);
    ParseFilterOpText(f.organizerOp, IntToString(f.organizerOp.value), ParseI64);
  }

  lemma StatusFilterOfText(f: EventFilter)
    requires f.Status?
    ensures ParseEventFilterOf(FieldOf(f), Keyword(FilterKind(f)) + " " + FilterValueText(f)) == Ok(f)
  {
    ParseStatusLabel(f.statusOp.value);
    ParseFilterOpText(f.statusOp, StatusLabel(f.statusOp.value), ParseStatusValue);
  }

  lemma TitleFilterOfText(f: EventFilter)
    requires f.Title?
    ensures ParseEventFilterOf(FieldOf(f), Keyword(FilterKind(f)) + " " + FilterValueText(f)) == Ok(f)
  {
    ParseFilterOpText(f.titleOp, f.titleOp.value, ParseText);
  }

  lemma CostFilterOfText(f: EventFilter)
    requires f.Cost?
    ensures ParseEventFilterOf(FieldOf(f), Keyword(FilterKind(f)) + " " + FilterValueText(f)) == Ok(f)
  {
    ParseU32RoundTrip(f.costOp.value);
    ParseFilterOpText(f.costOp, NatToString(f.costOp.value), ParseU32);
  }

  /** The value half of every filter's token reads back as the filter. */
  lemma EventFilterOfText(f: EventFilter)
    ensures ParseEventFilterOf(FieldOf(f), Keyword(FilterKind(f)) + " " + FilterValueText(f)) == Ok(f)
  {
    match f
    case OrganizerId(_) => OrganizerIdFilterOfText(f);
    case Status(_) => StatusFilterOfText(f);
    case Title(_) => TitleFilterOfText(f);
    case Cost(_) => CostFilterOfText(f);
  }

  /** Every filter is read back from its token, whatever whitespace surrounds
      it; negative organizer ids included. */
  lemma EventFilterRoundTrip(f: EventFilter, a: string, b: string)
    requires FilterPrintable(f) && AllWhitespace(a) && AllWhitespace(b)
    ensures ParseEventFilter(a + FilterText(f) + b) == Ok(f)
  {
    var column := FilterColumn(f);
    var v := FilterValueText(f);
    var rest := Keyword(FilterKind(f)) + " " + v;
    ValueTextEdge(f);
    assert rest[|rest| - 1] == v[|v| - 1];
    var text := FilterText(f);
    PaddedToken(a, text, column, rest, b);
    FilterFieldOfColumn(FieldOf(f));
    assert ParseEventFilter(a + text + b) == ParseEventFilterOf(FieldOf(f), rest);
    EventFilterOfText(f);
  }

  /** `EventOrder`: a sort column and its direction. */
  datatype EventOrder =
    | Id(dir: Vocabulary.OrderOp)
    | OrganizerId(dir: Vocabulary.OrderOp)
    | Cost(dir: Vocabulary.OrderOp)
    | Status(dir: Vocabulary.OrderOp)
    | CreatedAt(dir: Vocabulary.OrderOp)
    | UpdatedAt(dir: Vocabulary.OrderOp)

  const EventOrderFields: set<string> :=
    {"id", "organizer_id", "cost", "status", "created_at", "updated_at"}

  function OrderColumn(o: EventOrder): (c: string)
    ensures c in EventOrderFields && IsIdentifier(c)
  {
    match o
    case Id(_) => "id"
    case OrganizerId(_) => "organizer_id"
    case Cost(_) => "cost"
    case Status(_) => "status"
    case CreatedAt(_) => "created_at"
    case UpdatedAt(_) => "updated_at"
  }

  function EventOrderOf(field: string, dir: Vocabulary.OrderOp): (r: Option<EventOrder>)
    ensures r.Some? <==> field in EventOrderFields
    ensures r.Some? ==> OrderColumn(r.value) == field && r.value.dir == dir
  {
    match field
    case "id" => Some(EventOrder.Id(dir))
    case "organizer_id" => Some(EventOrder.OrganizerId(dir))
    case "cost" => Some(EventOrder.Cost(dir))
    case "status" => Some(EventOrder.Status(dir))
    case "created_at" => Some(EventOrder.CreatedAt(dir))
    case "updated_at" => Some(EventOrder.UpdatedAt(dir))
    case _ => None
  }

  lemma EventOrderOfColumn(o: EventOrder, dir: Vocabulary.OrderOp)
    ensures EventOrderOf(OrderColumn(o), dir) == Some(o.(dir := dir))
  {
  }

  /** `EventOrder::from_str`: an unknown field is `EventError::Order` with the
      untrimmed token; a bad direction is the crate-wide `OrderOp` error. */
  function ParseEventOrder(s: string): (r: Result<EventOrder, DomainError>)
    ensures ' ' in s && Trim(SplitOnce(s).value.0) !in EventOrderFields
      ==> r == Err(DomainError.Event(EventError.Order(s)))
    ensures ' ' !in s && Trim(s) !in EventOrderFields ==> r == Err(DomainError.Event(EventError.Order(s)))
    ensures r.Ok? && ' ' in s ==>
      && OrderColumn(r.value) == Trim(SplitOnce(s).value.0)
      && ParseOrderOp(SplitOnce(s).value.1) == Ok(r.value.dir)
    ensures r.Ok? && ' ' !in s ==> OrderColumn(r.value) == Trim(s) && r.value.dir == DefaultOrderOp
    ensures r.Err? ==> r.error.Event? || r.error.OrderOp?
    ensures ' ' in s && Trim(SplitOnce(s).value.0) in EventOrderFields ==>
      && (r.Ok? <==> ParseOrderOp(SplitOnce(s).value.1).Ok?)
      && (r.Err? ==> r == Err(DomainError.OrderOp(SplitOnce(s).value.1)))
    ensures ' ' !in s && Trim(s) in EventOrderFields ==> r.Ok?
  {
    match SplitOnce(s)
    case Some((field, op)) =>
      if Trim(field) in EventOrderFields then
        var dir :- ParseOrderOp(op); Ok(EventOrderOf(Trim(field), dir).value)
      else Err(DomainError.Event(EventError.Order(s)))
    case None =>
      match EventOrderOf(Trim(s), DefaultOrderOp)
      case Some(o) => Ok(o)
      case None => Err(DomainError.Event(EventError.Order(s)))
  }

  lemma EventOrderRoundTrip(o: EventOrder)
    ensures ParseEventOrder(OrderColumn(o) + " " + OrderOpKeyword(o.dir)) == Ok(o)
    ensures o.dir == Asc ==> ParseEventOrder(OrderColumn(o)) == Ok(o)
  {
    var c := OrderColumn(o);
    var k := OrderOpKeyword(o.dir);
    IdentifierToken(c, k);
    ParseOrderOpKeyword(o.dir);
    EventOrderOfColumn(o, o.dir);
  }

  /** `EventOrder::default()`. */
  function DefaultEventOrder(): (o: EventOrder)
    ensures ParseEventOrder("id") == Ok(o)
  {
    var o := EventOrder.Id(DefaultOrderOp);
    EventOrderRoundTrip(o);
    o
  }
}
