/** src/infrastructure/src/db/favorite/postgresql.rs: the statements
    `PgFavoriteRepository` sends. `list` grows a `QueryBuilder` whose head
    already binds the user id; `get`, `create` and `delete` are fixed text
    with fixed binds. */
module PgFavorite {
  import opened RustInt
  import opened Vocabulary
  import opened SqlBuilder
  import opened ListQuery
  import opened CoreUtils
  import opened CoreFavorite

  /** The joined event and favorite columns, each under its projection
      name. */
  const Projection: string :=
    "e.id AS event_id, e.organizer_id AS event_organizer_id, e.title AS event_title, "
    + "e.description AS event_description, e.date AS event_date, e.cost AS event_cost, "
    + "e.address AS event_address, e.status AS event_status, e.created_at AS event_created_at, "
    + "e.updated_at AS event_updated_at, f.created_at AS favorite_created_at, "
    + "f.updated_at AS favorite_updated_at"

  /** The `list` head, up to the user id's placeholder. */
  const ListHead: string :=
    "SELECT " + Projection + " FROM \"favorite\" f RIGHT JOIN \"event\" e ON f.event_id = e.id WHERE f.user_id = "

  /** The comparison one filter becomes: `event_id`, the operator's symbol,
      and the id cast `as i64`. */
  function FilterClause(f: FavoriteFilter): (c: Clause)
    ensures c.column == FilterColumn(f) && c.symbol == Symbol(f.eventOp.Kind())
    ensures c.value.Int8? && U64FromI64(c.value.int8) == f.eventOp.value
  {
    CastsInverse64(0, f.eventOp.value);
    Clause("event_id", f.eventOp.Operation(), Int8(I64FromU64(f.eventOp.value)))
  }

  function Clauses(filters: seq<FavoriteFilter>): (r: seq<Clause>)
    ensures |r| == |filters|
  {
    seq(|filters|, i requires 0 <= i < |filters| => FilterClause(filters[i]))
  }

  /** The sort item one order becomes: its column and its direction. */
  function SortOf(o: FavoriteOrder): (s: Sort)
    ensures s.column == OrderColumn(o) && s.dir == o.dir
  {
    match o
    case EventId(op) => Sort("event_id", op)
    case CreatedAt(op) => Sort("created_at", op)
    case UpdatedAt(op) => Sort("updated_at", op)
  }

  function Sorts(orderBy: seq<FavoriteOrder>): (r: seq<Sort>)
    ensures |r| == |orderBy|
  {
    seq(|orderBy|, i requires 0 <= i < |orderBy| => SortOf(orderBy[i]))
  }

  /** The head and its one bind, the user id as `$1`. */
  function Head(): seq<Fragment> {
    [Lit(ListHead), Param(1)]
  }

  /** The `list` statement: the filters follow the user condition, so they
      are led by `AND`. */
  function ListStatement(filters: seq<FavoriteFilter>, orderBy: seq<FavoriteOrder>): seq<Fragment> {
    ListFragments(Head(), 1, " AND ", Clauses(filters), Sorts(orderBy))
  }

  /** The `list` statement's binds: the user id first; page and page size
      are cast `as i32`. */
  function ListBinds(userId: i64, offset: Offset, filters: seq<FavoriteFilter>): seq<Value> {
    ListArgs([Int8(userId)], Clauses(filters), I32FromU32(offset.limit), I32FromU32(offset.page))
  }

  /** `list`: the statement up to `build_query_as()`. */
  method List(userId: i64, offset: Offset, filters: seq<FavoriteFilter>, orderBy: seq<FavoriteOrder>) returns (q: Query)
    ensures q == Query(ListStatement(filters, orderBy), ListBinds(userId, offset, filters))
  {
    var qb := new QueryBuilder(ListHead);
    qb.PushBind(Int8(userId));
    assert qb.fragments == Head() && qb.args == [Int8(userId)];
    PushListTail(qb, " AND ", Clauses(filters), Sorts(orderBy),
      I32FromU32(offset.limit), I32FromU32(offset.page));
    q := qb.Build();
  }

  /** How a filter reads in the statement: `event_id op $n`. */
  function WhereItems(filters: seq<FavoriteFilter>, first: nat): (r: seq<string>)
    ensures |r| == |filters|
  {
    seq(|filters|, i requires 0 <= i < |filters| =>
      FilterColumn(filters[i]) + " " + Symbol(filters[i].eventOp.Kind()) + " " + Placeholder(first + i))
  }

  /** How an order reads in the statement: `column ASC|DESC`. */
  function OrderItems(orderBy: seq<FavoriteOrder>): (r: seq<string>)
    ensures |r| == |orderBy|
  {
    seq(|orderBy|, i requires 0 <= i < |orderBy| => OrderColumn(orderBy[i]) + " " + OrderOpDisplay(orderBy[i].dir))
  }

  lemma HeadFacts()
    ensures Render(Head()) == ListHead + Placeholder(1)
    ensures Params(Head()) == Iota(1)
  {
    RenderOne(Lit(ListHead));
    RenderSnoc([Lit(ListHead)], Param(1));
    assert [Lit(ListHead)] + [Param(1)] == Head();
    assert Iota(1) == [1];
  }

  /** The `list` text: the user condition on `$1` is always there; then
      `AND` and the filters joined by `AND` (nothing without filters),
      `ORDER BY` and the orders joined by commas (nothing without orders),
      and the paging tail. */
  lemma ListText(filters: seq<FavoriteFilter>, orderBy: seq<FavoriteOrder>)
    ensures Render(ListStatement(filters, orderBy))
      == ListHead + Placeholder(1) + SectionText(" AND ", " AND ", WhereItems(filters, 2))
        + SectionText(" ORDER BY ", ", ", OrderItems(orderBy)) + PageText(|filters| + 2)
  {
    var cs, ss := Clauses(filters), Sorts(orderBy);
    assert ListStatement(filters, orderBy) == ListFragments(Head(), 1, " AND ", cs, ss);
    ListRendered(Head(), 1, " AND ", cs, ss);
    HeadFacts();
    WhereItemsAre(filters, 2);
    OrderItemsAre(orderBy);
  }

  /** The generic clause texts of these filters are their `column op $n` items. */
  lemma WhereItemsAre(filters: seq<FavoriteFilter>, first: nat)
    ensures ClauseTexts(Clauses(filters), first) == WhereItems(filters, first)
  {
  }

  /** The generic sort texts of these orders are their `column ASC|DESC` items. */
  lemma OrderItemsAre(orderBy: seq<FavoriteOrder>)
    ensures SortTexts(Sorts(orderBy)) == OrderItems(orderBy)
  {
  }

  /** Placeholders `$1 .. $n` occur in order, one per bind. */
  lemma ListNumberedBinds(userId: i64, offset: Offset, filters: seq<FavoriteFilter>, orderBy: seq<FavoriteOrder>)
    ensures Numbered(ListStatement(filters, orderBy), ListBinds(userId, offset, filters))
  {
    HeadFacts();
    ListNumbered(Head(), [Int8(userId)], " AND ", Clauses(filters), Sorts(orderBy),
      I32FromU32(offset.limit), I32FromU32(offset.page));
  }

  /** The binds: the user id, each filter's id in filter order, then page
      size, page size, page number: 1 + |filters| + 3 of them. */
  lemma ListBindsOrder(userId: i64, offset: Offset, filters: seq<FavoriteFilter>)
    ensures |ListBinds(userId, offset, filters)| == 1 + |filters| + 3
    ensures ListBinds(userId, offset, filters)[0] == Int8(userId)
    ensures forall i :: 0 <= i < |filters| ==> ListBinds(userId, offset, filters)[1 + i] == FilterClause(filters[i]).value
    ensures ListBinds(userId, offset, filters)[1 + |filters|..]
      == [Int4(I32FromU32(offset.limit)), Int4(I32FromU32(offset.limit)), Int4(I32FromU32(offset.page))]
  {
    var cs := Clauses(filters);
    ListArgsAt([Int8(userId)], cs, I32FromU32(offset.limit), I32FromU32(offset.page));
    assert ListBinds(userId, offset, filters)[..1] == [Int8(userId)];
    forall i | 0 <= i < |filters|
      ensures ListBinds(userId, offset, filters)[1 + i] == FilterClause(filters[i]).value
    {
      assert cs[i] == FilterClause(filters[i]);
    }
  }

  /** Filter values never reach the text: filters with the same operators
      give the same statement. */
  lemma ListValuesNotInText(filters: seq<FavoriteFilter>, filters': seq<FavoriteFilter>, orderBy: seq<FavoriteOrder>)
    requires |filters| == |filters'|
    requires forall i :: 0 <= i < |filters| ==> filters[i].eventOp.Kind() == filters'[i].eventOp.Kind()
    ensures ListStatement(filters, orderBy) == ListStatement(filters', orderBy)
  {
    assert Shape(Clauses(filters)) == Shape(Clauses(filters'));
    ValuesNotInText(Head(), 1, " AND ", Clauses(filters), Clauses(filters'), Sorts(orderBy));
  }

  const GetText: seq<string> := [
    "SELECT " + Projection + " FROM \"favorite\" f JOIN \"event\" e ON f.event_id = e.id WHERE f.user_id = ",
    " AND f.event_id = ", ""]

  /** `get`: the user id, then the event id. */
  function Get(userId: i64, eventId: i64): (q: Query)
    ensures Numbered(q.fragments, q.args) && q.args == [Int8(userId), Int8(eventId)]
  {
    Query(Template(GetText), [Int8(userId), Int8(eventId)])
  }

  /** `get` reads `... WHERE f.user_id = $1 AND f.event_id = $2`. */
  lemma GetSql(userId: i64, eventId: i64)
    ensures Get(userId, eventId).Sql() == GetText[0] + Placeholder(1) + " AND f.event_id = " + Placeholder(2)
  {
    TemplateRender(GetText);
    TemplateText2("SELECT " + Projection + " FROM \"favorite\" f JOIN \"event\" e ON f.event_id = e.id WHERE f.user_id = ", " AND f.event_id = ", "");
  }

  const Returning: string := "RETURNING user_id, event_id, created_at, updated_at"

  const CreateText: seq<string> :=
    ["INSERT INTO \"favorite\" (user_id, event_id) VALUES (", ", ", ") " + Returning]

  /** `create`: the user id, then the event id. */
  function Create(userId: i64, eventId: i64): (q: Query)
    ensures Numbered(q.fragments, q.args) && q.args == [Int8(userId), Int8(eventId)]
  {
    Query(Template(CreateText), [Int8(userId), Int8(eventId)])
  }

  /** `create` reads `INSERT ... (user_id, event_id) VALUES ($1, $2) ...`. */
  lemma CreateSql(userId: i64, eventId: i64)
    ensures Create(userId, eventId).Sql()
      == "INSERT INTO \"favorite\" (user_id, event_id) VALUES (" + Placeholder(1) + ", " + Placeholder(2) + ") " + Returning
  {
    TemplateRender(CreateText);
    TemplateText2("INSERT INTO \"favorite\" (user_id, event_id) VALUES (", ", ", ") " + Returning);
  }

  const DeleteText: seq<string> :=
    ["DELETE FROM \"favorite\" WHERE user_id = ", " AND event_id = ", " " + Returning]

  /** `delete`: the user id, then the event id. */
  function Delete(userId: i64, eventId: i64): (q: Query)
    ensures Numbered(q.fragments, q.args) && q.args == [Int8(userId), Int8(eventId)]
  {
    Query(Template(DeleteText), [Int8(userId), Int8(eventId)])
  }

  /** `delete` reads `... WHERE user_id = $1 AND event_id = $2 ...`. */
  lemma DeleteSql(userId: i64, eventId: i64)
    ensures Delete(userId, eventId).Sql()
      == "DELETE FROM \"favorite\" WHERE user_id = " + Placeholder(1) + " AND event_id = " + Placeholder(2) + " " + Returning
  {
    TemplateRender(DeleteText);
    TemplateText2("DELETE FROM \"favorite\" WHERE user_id = ", " AND event_id = ", " " + Returning);
  }
}
