/** src/infrastructure/src/db/event/postgresql.rs: the statements
    `PgEventRepository` sends. `list` and `update` grow a `QueryBuilder`;
    `create`, `get` and `delete` are fixed text with fixed binds. */
module PgEvent {
  import opened Wrappers
  import opened Text
  import opened RustInt
  import opened Vocabulary
  import opened SqlBuilder
  import opened ListQuery
  import opened CoreUtils
  import opened CoreEvent

  /** The columns every statement returns, in `EventEntity`'s order. */
  const Columns: string :=
    "id, organizer_id, title, description, date, cost, address, status, created_at, updated_at"

  const ListHead: string := "SELECT " + Columns + " FROM \"event\""

  /** The comparison one filter becomes: the filter's own column, the
      operator's symbol, and its value cast as the column is typed. */
  function FilterClause(f: EventFilter): (c: Clause)
    ensures c.column == FilterColumn(f) && c.symbol == Symbol(FilterKind(f))
    ensures f.OrganizerId? ==> c.value.Int8? && U64FromI64(c.value.int8) == f.organizerOp.value
    ensures f.Cost? ==> c.value.Int4? && U32FromI32(c.value.int4) == f.costOp.value
    ensures f.Status? ==> c.value.Str? && ParseStatus(c.value.str) == Ok(f.statusOp.value)
    ensures f.Title? ==> c.value == Str(f.titleOp.value)
  {
    match f
    case OrganizerId(op) =>
      CastsInverse64(0, op.value);
      Clause("organizer_id", op.Operation(), Int8(I64FromU64(op.value)))
    case Cost(op) =>
      CastsInverse32(0, op.value);
      Clause("cost", op.Operation(), Int4(I32FromU32(op.value)))
    case Status(op) =>
      ParseStatusLabel(op.value);
      Clause("status", op.Operation(), Str(StatusLabel(op.value)))
    case Title(op) => Clause("title", op.Operation(), Str(op.value))
  }

  function Clauses(filters: seq<EventFilter>): (r: seq<Clause>)
    ensures |r| == |filters|
  {
    seq(|filters|, i requires 0 <= i < |filters| => FilterClause(filters[i]))
  }

  /** The sort item one order becomes: its column and its direction. */
  function SortOf(o: EventOrder): (s: Sort)
    ensures s.column == OrderColumn(o) && s.dir == o.dir
  {
    match o
    case Id(op) => Sort("id", op)
    case OrganizerId(op) => Sort("organizer_id", op)
    case Status(op) => Sort("status", op)
    case Cost(op) => Sort("cost", op)
    case CreatedAt(op) => Sort("created_at", op)
    case UpdatedAt(op) => Sort("updated_at", op)
  }

  function Sorts(orderBy: seq<EventOrder>): (r: seq<Sort>)
    ensures |r| == |orderBy|
  {
    seq(|orderBy|, i requires 0 <= i < |orderBy| => SortOf(orderBy[i]))
  }

  /** The `list` statement's text. */
  function ListStatement(filters: seq<EventFilter>, orderBy: seq<EventOrder>): seq<Fragment> {
    ListFragments([Lit(ListHead)], 0, " WHERE ", Clauses(filters), Sorts(orderBy))
  }

  /** The `list` statement's binds; page and page size are cast `as i32`. */
  function ListBinds(offset: Offset, filters: seq<EventFilter>): seq<Value> {
    ListArgs([], Clauses(filters), I32FromU32(offset.limit), I32FromU32(offset.page))
  }

  /** `list`: the statement up to `build_query_as()`. */
  method List(offset: Offset, filters: seq<EventFilter>, orderBy: seq<EventOrder>) returns (q: Query)
    ensures q == Query(ListStatement(filters, orderBy), ListBinds(offset, filters))
  {
    var qb := new QueryBuilder(ListHead);
    PushListTail(qb, " WHERE ", Clauses(filters), Sorts(orderBy),
      I32FromU32(offset.limit), I32FromU32(offset.page));
    q := qb.Build();
  }

  /** How a filter reads in the statement: `column op $n`. */
  function WhereItems(filters: seq<EventFilter>, first: nat): (r: seq<string>)
    ensures |r| == |filters|
  {
    seq(|filters|, i requires 0 <= i < |filters| =>
      FilterColumn(filters[i]) + " " + Symbol(FilterKind(filters[i])) + " " + Placeholder(first + i))
  }

  /** How an order reads in the statement: `column ASC|DESC`. */
  function OrderItems(orderBy: seq<EventOrder>): (r: seq<string>)
    ensures |r| == |orderBy|
  {
    seq(|orderBy|, i requires 0 <= i < |orderBy| => OrderColumn(orderBy[i]) + " " + OrderOpDisplay(orderBy[i].dir))
  }

  /** The `list` text: the SELECT, `WHERE` and the filters joined by `AND`
      (nothing without filters), `ORDER BY` and the orders joined by commas
      (nothing without orders: there is no default order), and the paging
      tail with the three placeholders after the filters'. */
  lemma ListText(filters: seq<EventFilter>, orderBy: seq<EventOrder>)
    ensures Render(ListStatement(filters, orderBy))
      == ListHead + SectionText(" WHERE ", " AND ", WhereItems(filters, 1))
        + SectionText(" ORDER BY ", ", ", OrderItems(orderBy)) + PageText(|filters| + 1)
  {
    var cs, ss := Clauses(filters), Sorts(orderBy);
    assert ListStatement(filters, orderBy) == ListFragments([Lit(ListHead)], 0, " WHERE ", cs, ss);
    ListRendered([Lit(ListHead)], 0, " WHERE ", cs, ss);
    RenderOne(Lit(ListHead));
    WhereItemsAre(filters, 1);
    OrderItemsAre(orderBy);
  }

  /** The generic clause texts of these filters are their `column op $n` items. */
  lemma WhereItemsAre(filters: seq<EventFilter>, first: nat)
    ensures ClauseTexts(Clauses(filters), first) == WhereItems(filters, first)
  {
  }

  /** The generic sort texts of these orders are their `column ASC|DESC` items. */
  lemma OrderItemsAre(orderBy: seq<EventOrder>)
    ensures SortTexts(Sorts(orderBy)) == OrderItems(orderBy)
  {
  }

  /** Placeholders `$1 .. $n` occur in order, one per bind. */
  lemma ListNumberedBinds(offset: Offset, filters: seq<EventFilter>, orderBy: seq<EventOrder>)
    ensures Numbered(ListStatement(filters, orderBy), ListBinds(offset, filters))
  {
    RenderOne(Lit(ListHead));
    ListNumbered([Lit(ListHead)], [], " WHERE ", Clauses(filters), Sorts(orderBy),
      I32FromU32(offset.limit), I32FromU32(offset.page));
  }

  /** The binds: each filter's value in filter order, then page size, page
      size, page number. */
  lemma ListBindsOrder(offset: Offset, filters: seq<EventFilter>)
    ensures |ListBinds(offset, filters)| == |filters| + 3
    ensures forall i :: 0 <= i < |filters| ==> ListBinds(offset, filters)[i] == FilterClause(filters[i]).value
    ensures ListBinds(offset, filters)[|filters|..]
      == [Int4(I32FromU32(offset.limit)), Int4(I32FromU32(offset.limit)), Int4(I32FromU32(offset.page))]
  {
    var cs := Clauses(filters);
    ListArgsAt([], cs, I32FromU32(offset.limit), I32FromU32(offset.page));
    forall i | 0 <= i < |filters|
      ensures ListBinds(offset, filters)[i] == FilterClause(filters[i]).value
    {
      assert ListBinds(offset, filters)[0 + i] == cs[i].value;
    }
  }

  /** Filter values never reach the text: filters on the same fields with
      the same operators give the same statement, whatever they compare
      against. */
  lemma ListValuesNotInText(filters: seq<EventFilter>, filters': seq<EventFilter>, orderBy: seq<EventOrder>)
    requires |filters| == |filters'|
    requires forall i :: 0 <= i < |filters| ==>
      FieldOf(filters[i]) == FieldOf(filters'[i]) && FilterKind(filters[i]) == FilterKind(filters'[i])
    ensures ListStatement(filters, orderBy) == ListStatement(filters', orderBy)
  {
    assert Shape(Clauses(filters)) == Shape(Clauses(filters'));
    ValuesNotInText([Lit(ListHead)], 0, " WHERE ", Clauses(filters), Clauses(filters'), Sorts(orderBy));
  }

  const Returning: string := "RETURNING " + Columns

  /** The column an update sets. */
  function UpdateColumn(changes: EventUpdate): (c: string)
    ensures c in {"title", "cost", "address", "status", "description"}
  {
    match changes
    case Title(_) => "title"
    case Cost(_) => "cost"
    case Address(_) => "address"
    case Status(_) => "status"
    case Description(_) => "description"
  }

  /** The text pushed for the update's column: `column = `. */
  function Assignment(changes: EventUpdate): (a: string)
    ensures a == UpdateColumn(changes) + " = "
  {
    match changes
    case Title(_) => "title = "
    case Cost(_) => "cost = "
    case Address(_) => "address = "
    case Status(_) => "status = "
    case Description(_) => "description = "
  }

  /** The value an update binds, cast as the column is typed. */
  function UpdateValue(changes: EventUpdate): Value
  {
    match changes
    case Title(title) => Str(title)
    case Cost(cost) => Int4(I32FromU32(cost))
    case Address(address) => Str(address)
    case Status(status) => Str(StatusLabel(status))
    case Description(description) => Str(description)
  }

  /** The bound value decodes back to the update: the cost cast back `as
      u32`, the label parsed back to the enum, text as given. */
  lemma UpdateValueDecodes(changes: EventUpdate)
    ensures changes.Cost? ==> UpdateValue(changes).Int4? && U32FromI32(UpdateValue(changes).int4) == changes.cost
    ensures changes.Status? ==> UpdateValue(changes).Str? && ParseStatus(UpdateValue(changes).str) == Ok(changes.status)
    ensures changes.Title? ==> UpdateValue(changes) == Str(changes.title)
    ensures changes.Address? ==> UpdateValue(changes) == Str(changes.address)
    ensures changes.Description? ==> UpdateValue(changes) == Str(changes.description)
  {
    match changes {
      case Cost(cost) => CastsInverse32(0, cost);
      case Status(status) => ParseStatusLabel(status);
      case _ =>
    }
  }

  function UpdateStatement(changes: EventUpdate): seq<Fragment> {
    UpdateFragments("UPDATE \"event\" SET ", Assignment(changes), Returning)
  }

  /** The `match changes` of `update`: the column, the new value bound,
      a space. */
  method PushChange(qb: QueryBuilder, changes: EventUpdate)
    modifies qb
    ensures qb.fragments == old(qb.fragments) + [Lit(Assignment(changes)), Param(|old(qb.args)| + 1), Lit(" ")]
    ensures qb.args == old(qb.args) + [UpdateValue(changes)]
  {
    match changes {
      case Title(title) =>
        PushAssignment(qb, "title = ", Str(title));
      case Cost(cost) =>
        PushAssignment(qb, "cost = ", Int4(I32FromU32(cost)));
      case Address(address) =>
        PushAssignment(qb, "address = ", Str(address));
      case Status(status) =>
        PushAssignment(qb, "status = ", Str(StatusLabel(status)));
      case Description(description) =>
        PushAssignment(qb, "description = ", Str(description));
    }
  }

  /** `update`: one `column = $1` chosen by the update, then `WHERE id = $2`
      and the returned columns. */
  method Update(id: i64, changes: EventUpdate) returns (q: Query)
    ensures q == Query(UpdateStatement(changes), [UpdateValue(changes), Int8(id)])
  {
    var qb := new QueryBuilder("UPDATE \"event\" SET ");
    PushChange(qb, changes);
    assert qb.fragments == [Lit("UPDATE \"event\" SET "), Lit(Assignment(changes)), Param(1), Lit(" ")];
    PushWhereId(qb, id);
    qb.Push(Returning);
    assert qb.fragments == UpdateStatement(changes);
    q := qb.Build();
  }

  /** The update reads `UPDATE "event" SET column = $1 WHERE id = $2
      RETURNING ...`, with the new value as `$1` and the id as `$2`. */
  lemma UpdateText(id: i64, changes: EventUpdate)
    ensures Render(UpdateStatement(changes))
      == "UPDATE \"event\" SET " + UpdateColumn(changes) + " = " + Placeholder(1) + " WHERE id = " + Placeholder(2) + " " + Returning
    ensures Numbered(UpdateStatement(changes), [UpdateValue(changes), Int8(id)])
  {
    UpdateShape("UPDATE \"event\" SET ", UpdateColumn(changes), Returning);
    Iota2();
  }

  /** `create`: the six columns and, in the same order, their six binds. */
  function Create(organizerId: i64, title: string, description: string, date: Timestamp, cost: i32, address: string): (q: Query)
    ensures Numbered(q.fragments, q.args)
    ensures q.args == [Int8(organizerId), Str(title), Str(description), Time(date), Int4(cost), Str(address)]
  {
    Query(Template(CreateText), [Int8(organizerId), Str(title), Str(description), Time(date), Int4(cost), Str(address)])
  }

  const CreateText: seq<string> := [
    "INSERT INTO \"event\" (organizer_id, title, description, date, cost, address) VALUES (",
    ", ", ", ", ", ", ", ", ", ", ") " + Returning]

  /** `create` reads `INSERT ... (organizer_id, ..., address) VALUES ($1, ..., $6) RETURNING ...`. */
  lemma CreateSql(organizerId: i64, title: string, description: string, date: Timestamp, cost: i32, address: string)
    ensures Create(organizerId, title, description, date, cost, address).Sql()
      == "INSERT INTO \"event\" (organizer_id, title, description, date, cost, address) VALUES ("
        + Placeholder(1) + ", " + Placeholder(2) + ", " + Placeholder(3) + ", "
        + Placeholder(4) + ", " + Placeholder(5) + ", " + Placeholder(6) + ") " + Returning
  {
    TemplateRender(CreateText);
    TemplateText6("INSERT INTO \"event\" (organizer_id, title, description, date, cost, address) VALUES (", ", ", ") " + Returning);
  }

  /** `get`: the event with the bound id. */
  function Get(id: i64): (q: Query)
    ensures Numbered(q.fragments, q.args) && q.args == [Int8(id)]
  {
    Query(Template([ListHead + " WHERE id = ", ""]), [Int8(id)])
  }

  /** `get` reads `SELECT <columns> FROM "event" WHERE id = $1`. */
  lemma GetSql(id: i64)
    ensures Get(id).Sql() == ListHead + " WHERE id = " + Placeholder(1)
  {
    TemplateRender([ListHead + " WHERE id = ", ""]);
    TemplateText1(ListHead + " WHERE id = ", "");
    assert ListHead + " WHERE id = " + Placeholder(1) + "" == ListHead + " WHERE id = " + Placeholder(1);
  }

  /** `delete`: the event with the bound id, returning its columns. */
  function Delete(id: i64): (q: Query)
    ensures Numbered(q.fragments, q.args) && q.args == [Int8(id)]
  {
    Query(Template(["DELETE FROM \"event\" WHERE id = ", " " + Returning]), [Int8(id)])
  }

  /** `delete` reads `DELETE FROM "event" WHERE id = $1 RETURNING ...`. */
  lemma DeleteSql(id: i64)
    ensures Delete(id).Sql() == "DELETE FROM \"event\" WHERE id = " + Placeholder(1) + " " + Returning
  {
    TemplateRender(["DELETE FROM \"event\" WHERE id = ", " " + Returning]);
    TemplateText1("DELETE FROM \"event\" WHERE id = ", " " + Returning);
  }
}
