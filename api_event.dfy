/** src/presentation/src/api/event/dto.rs: what the event endpoints accept
    and return. A new event comes in with signed id and cost, which must not
    be negative; an event goes out with signed numbers and its status's
    label. */
module ApiEvent {
  import opened Wrappers
  import opened RustInt
  import opened Vocabulary
  import CoreUtils
  import opened CoreEvent
  import opened ApiUtils

  /** `TryFrom<EventStatusDto> for EventStatus`: the status parse, its
      error wrapped as `HandlerError::Parse`. */
  function StatusFromDto(status: string): (r: Result<EventStatus, HandlerError>)
    ensures r.Ok? <==> ParseStatus(status).Ok?
    ensures r.Ok? ==> ParseStatus(status) == Ok(r.value)
    ensures r.Err? ==> r.error == HandlerError.Parse(CoreUtils.Parse(status))
  {
    match ParseStatus(status)
    case Ok(v) => Ok(v)
    case Err(e) => Err(HandlerError.Parse(e))
  }

  datatype NewEventDto = NewEventDto(
    organizerId: i64,
    title: string,
    description: string,
    date: Timestamp,
    cost: i32,
    address: string)

  /** `TryFrom<NewEventDto> for NewEvent`: organizer id and cost through
      `try_into`, which fails on a negative value; the rest is kept. */
  function NewEventFromDto(d: NewEventDto): (r: Result<NewEvent, HandlerError>)
    ensures r.Ok? <==> d.organizerId >= 0 && d.cost >= 0
    ensures r.Err? ==> r.error == LsThanZero
    ensures r.Ok? ==> (r.value.organizerId == d.organizerId && r.value.cost == d.cost
      && r.value.title == d.title && r.value.description == d.description
      && r.value.date == d.date && r.value.address == d.address)
  {
    match TryUnsigned(d.organizerId)
    case None => Err(LsThanZero)
    case Some(organizerId) =>
      match TryUnsigned(d.cost)
      case None => Err(LsThanZero)
      case Some(cost) => Ok(NewEvent(organizerId, d.title, d.description, d.date, cost, d.address))
  }

  /** A new event whose numbers fit the signed types is accepted as sent. */
  lemma NewEventFromDtoOnto(n: NewEvent)
    requires n.organizerId <= I64_MAX && n.cost <= I32_MAX
    ensures NewEventFromDto(NewEventDto(n.organizerId, n.title, n.description, n.date, n.cost, n.address)) == Ok(n)
  {
  }

  datatype EventDto = EventDto(
    id: i64,
    organizerId: i64,
    title: string,
    description: string,
    date: Timestamp,
    cost: i32,
    address: string,
    status: string,
    createdAt: Timestamp,
    updatedAt: Timestamp)

  /** `From<EventModel> for EventDto`: ids `as i64`, the cost `as i32`, the
      status as its label. Nothing is lost: the numbers cast back and the
      label is accepted by the status endpoint as the same status. */
  function EventDtoFrom(m: EventModel): (d: EventDto)
    ensures U64FromI64(d.id) == m.id && U64FromI64(d.organizerId) == m.organizerId
    ensures U32FromI32(d.cost) == m.cost && StatusFromDto(d.status) == Ok(m.status)
    ensures d.title == m.title && d.description == m.description && d.date == m.date
    ensures d.address == m.address && d.createdAt == m.createdAt && d.updatedAt == m.updatedAt
  {
    CastsInverse64(0, m.id);
    CastsInverse64(0, m.organizerId);
    CastsInverse32(0, m.cost);
    ParseStatusLabel(m.status);
    EventDto(I64FromU64(m.id), I64FromU64(m.organizerId), m.title, m.description, m.date,
      I32FromU32(m.cost), m.address, StatusLabel(m.status), m.createdAt, m.updatedAt)
  }

  /** A cost past `i32::MAX` goes out negative. */
  lemma EventDtoLargeCostNegative(m: EventModel)
    requires m.cost > I32_MAX
    ensures EventDtoFrom(m).cost == m.cost - TWO_32 < 0
  {
  }
}
