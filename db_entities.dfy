/** src/infrastructure/src/db/{event,user,favorite}/entity.rs: the rows the
    current repositories read, and their conversion into the domain models.
    Ids and costs are stored signed and reinterpreted with `as`; a stored
    label is parsed with `unwrap`, modelled here as `None` where it would
    panic. */
module DbEntities {
  import opened Wrappers
  import opened Text
  import opened RustInt
  import opened Vocabulary
  import opened CoreEvent
  import opened CoreUser
  import opened CoreFavorite

  datatype EventEntity = EventEntity(
    id: i64,
    organizerId: i64,
    title: string,
    description: string,
    date: Timestamp,
    cost: i32,
    address: string,
    status: string,
    createdAt: Timestamp,
    updatedAt: Timestamp)

  /** `From<EventEntity> for EventModel`: ids `as u64`, the cost `as u32`,
      the status parsed; it panics exactly when the status does not parse,
      and the casts lose nothing. */
  function EventFromEntity(e: EventEntity): (r: Option<EventModel>)
    ensures r.Some? <==> ParseStatus(e.status).Ok?
    ensures r.Some? ==> (I64FromU64(r.value.id) == e.id && I64FromU64(r.value.organizerId) == e.organizerId
      && I32FromU32(r.value.cost) == e.cost)
    ensures r.Some? ==> StatusLabel(r.value.status) == Trim(e.status)
    ensures r.Some? ==> (r.value.title == e.title && r.value.description == e.description
      && r.value.date == e.date && r.value.address == e.address
      && r.value.createdAt == e.createdAt && r.value.updatedAt == e.updatedAt)
  {
    CastsInverse64(e.id, 0);
    CastsInverse64(e.organizerId, 0);
    CastsInverse32(e.cost, 0);
    match ParseStatus(e.status)
    case Ok(status) =>
      Some(EventModel(U64FromI64(e.id), U64FromI64(e.organizerId), e.title, e.description, e.date,
        U32FromI32(e.cost), e.address, status, e.createdAt, e.updatedAt))
    case Err(_) => None
  }

  /** The row an event is stored as: ids `as i64`, the cost `as i32`, the
      status as its label. */
  function EntityOfEvent(m: EventModel): EventEntity {
    EventEntity(I64FromU64(m.id), I64FromU64(m.organizerId), m.title, m.description, m.date,
      I32FromU32(m.cost), m.address, StatusLabel(m.status), m.createdAt, m.updatedAt)
  }

  /** Reading back a stored event gives the event: the casts undo each other
      and the label parses back. */
  lemma EventEntityRoundTrip(m: EventModel)
    ensures EventFromEntity(EntityOfEvent(m)) == Some(m)
  {
    CastsInverse64(0, m.id);
    CastsInverse64(0, m.organizerId);
    CastsInverse32(0, m.cost);
    ParseStatusLabel(m.status);
  }

  /** A negative id in a row reads as a huge unsigned id: `as u64` wraps. */
  lemma EventNegativeIdWraps(e: EventEntity)
    requires EventFromEntity(e).Some? && e.id < 0
    ensures EventFromEntity(e).value.id == e.id + TWO_64
  {
  }

  datatype UserEntity = UserEntity(
    id: i64,
    login: string,
    passwordHash: string,
    role: string,
    createdAt: Timestamp,
    updatedAt: Timestamp)

  /** `From<UserEntity> for UserModel`: the id `as u64`, the role parsed
      (panicking exactly when it does not parse); the hash is not carried
      over. */
  function UserFromEntity(e: UserEntity): (r: Option<UserModel>)
    ensures r.Some? <==> ParseRole(e.role).Ok?
    ensures r.Some? ==> I64FromU64(r.value.id) == e.id && RoleLabel(r.value.role) == Trim(e.role)
    ensures r.Some? ==> (r.value.login == e.login && r.value.createdAt == e.createdAt
      && r.value.updatedAt == e.updatedAt)
  {
    CastsInverse64(e.id, 0);
    match ParseRole(e.role)
    case Ok(role) => Some(UserModel(U64FromI64(e.id), e.login, role, e.createdAt, e.updatedAt))
    case Err(_) => None
  }

  /** The hash never reaches the model: rows that differ only in it convert
      alike. */
  lemma UserHashDropped(e: UserEntity, hash: string)
    ensures UserFromEntity(e.(passwordHash := hash)) == UserFromEntity(e)
  {
  }

  /** Reading back a stored user, whatever its hash, gives the user. */
  lemma UserEntityRoundTrip(m: UserModel, hash: string)
    ensures UserFromEntity(UserEntity(I64FromU64(m.id), m.login, hash, RoleLabel(m.role), m.createdAt, m.updatedAt))
      == Some(m)
  {
    CastsInverse64(0, m.id);
    ParseRoleLabel(m.role);
  }

  datatype FavoriteEntity = FavoriteEntity(
    userId: i64,
    eventId: i64,
    createdAt: Timestamp,
    updatedAt: Timestamp)

  /** `From<FavoriteEntity> for FavoriteModel`: both ids `as u64`, the
      timestamps as they are; it cannot fail, and the casts lose nothing. */
  function FavoriteFromEntity(e: FavoriteEntity): (r: FavoriteModel)
    ensures I64FromU64(r.userId) == e.userId && I64FromU64(r.eventId) == e.eventId
    ensures r.createdAt == e.createdAt && r.updatedAt == e.updatedAt
  {
    CastsInverse64(e.userId, 0);
    CastsInverse64(e.eventId, 0);
    FavoriteModel(U64FromI64(e.userId), U64FromI64(e.eventId), e.createdAt, e.updatedAt)
  }

  /** Reading back a stored favorite gives the favorite. */
  lemma FavoriteEntityRoundTrip(m: FavoriteModel)
    ensures FavoriteFromEntity(FavoriteEntity(I64FromU64(m.userId), I64FromU64(m.eventId), m.createdAt, m.updatedAt))
      == m
  {
    CastsInverse64(0, m.userId);
    CastsInverse64(0, m.eventId);
  }

  /** The joined row of the favorites listing: the event's columns under
      `event_` names, the favorite's timestamps under `favorite_` names. */
  datatype FavoriteEventProjection = FavoriteEventProjection(
    eventId: i64,
    eventOrganizerId: i64,
    eventTitle: string,
    eventDescription: string,
    eventDate: Timestamp,
    eventCost: i32,
    eventAddress: string,
    eventStatus: string,
    eventCreatedAt: Timestamp,
    eventUpdatedAt: Timestamp,
    favoriteCreatedAt: Timestamp,
    favoriteUpdatedAt: Timestamp)

  /** `From<FavoriteEventProjection> for FavoriteEventModel`: the event is
      built from the `event_` columns with the same casts and parse as an
      event row; the outer timestamps are the favorite's. */
  function FavoriteEventFromProjection(p: FavoriteEventProjection): Option<FavoriteEventModel> {
    match ParseStatus(p.eventStatus)
    case Ok(status) =>
      var event := EventModel(U64FromI64(p.eventId), U64FromI64(p.eventOrganizerId), p.eventTitle,
        p.eventDescription, p.eventDate, U32FromI32(p.eventCost), p.eventAddress, status,
        p.eventCreatedAt, p.eventUpdatedAt);
      Some(FavoriteEventModel(event, p.favoriteCreatedAt, p.favoriteUpdatedAt))
    case Err(_) => None
  }

  /** The `event_` columns of a projection, as an event row. */
  function EventColumns(p: FavoriteEventProjection): EventEntity {
    EventEntity(p.eventId, p.eventOrganizerId, p.eventTitle, p.eventDescription, p.eventDate,
      p.eventCost, p.eventAddress, p.eventStatus, p.eventCreatedAt, p.eventUpdatedAt)
  }

  /** Each `event_` column lands in the same `EventModel` field as the
      column of that name in an event row: the projection converts as its
      event columns do, wrapped with the favorite's timestamps, and fails
      exactly when they fail. */
  lemma ProjectionAsEventRow(p: FavoriteEventProjection)
    ensures FavoriteEventFromProjection(p).Some? <==> EventFromEntity(EventColumns(p)).Some?
    ensures FavoriteEventFromProjection(p).Some? ==> (FavoriteEventFromProjection(p).value
      == FavoriteEventModel(EventFromEntity(EventColumns(p)).value, p.favoriteCreatedAt, p.favoriteUpdatedAt))
  {
  }
}
