/** src/infrastructure/src/db/user/postgresql.rs: the statements
    `PgUserRepository` sends. `list` and `update` grow a `QueryBuilder`;
    `get`, `create`, `delete` and `get_by_login` are fixed text with fixed
    binds. */
module PgUser {
  import opened Wrappers
  import opened RustInt
  import opened Vocabulary
  import opened SqlBuilder
  import opened ListQuery
  import opened CoreUtils
  import opened CoreUser

  /** The columns every statement returns, in `UserEntity`'s order. */
  const Columns: string := "id, login, password_hash, role, created_at, updated_at"

  const ListHead: string := "SELECT " + Columns + " FROM \"user\""

  /** The comparison one filter becomes: the filter's own column, the
      operator's symbol, and its value; a role is bound as its label. */
  function FilterClause(f: UserFilter): (c: Clause)
    ensures c.column == FilterColumn(f) && c.symbol == Symbol(FilterKind(f))
    ensures f.Role? ==> c.value.Str? && ParseRole(c.value.str) == Ok(f.roleOp.value)
    ensures f.Login? ==> c.value == Str(f.loginOp.value)
  {
    match f
    case Login(op) => Clause("login", op.Operation(), Str(op.value))
    case Role(op) =>
      ParseRoleLabel(op.value);
      Clause("role", op.Operation(), Str(RoleLabel(op.value)))
  }

  function Clauses(filters: seq<UserFilter>): (r: seq<Clause>)
    ensures |r| == |filters|
  {
    seq(|filters|, i requires 0 <= i < |filters| => FilterClause(filters[i]))
  }

  /** The sort item one order becomes: its column and its direction. */
  function SortOf(o: UserOrder): (s: Sort)
    ensures s.column == OrderColumn(o) && s.dir == o.dir
  {
    match o
    case Id(op) => Sort("id", op)
    case Role(op) => Sort("role", op)
    case CreatedAt(op) => Sort("created_at", op)
    case UpdatedAt(op) => Sort("updated_at", op)
  }

  function Sorts(orderBy: seq<UserOrder>): (r: seq<Sort>)
    ensures |r| == |orderBy|
  {
    seq(|orderBy|, i requires 0 <= i < |orderBy| => SortOf(orderBy[i]))
  }

  function ListStatement(filters: seq<UserFilter>, orderBy: seq<UserOrder>): seq<Fragment> {
    ListFragments([Lit(ListHead)], 0, " WHERE ", Clauses(filters), Sorts(orderBy))
  }

  /** The `list` statement's binds; page and page size are cast `as i32`. */
  function ListBinds(offset: Offset, filters: seq<UserFilter>): seq<Value> {
    ListArgs([], Clauses(filters), I32FromU32(offset.limit), I32FromU32(offset.page))
  }

  /** `list`: the statement up to `build_query_as()`. */
  method List(offset: Offset, filters: seq<UserFilter>, orderBy: seq<UserOrder>) returns (q: Query)
    ensures q == Query(ListStatement(filters, orderBy), ListBinds(offset, filters))
  {
    var qb := new QueryBuilder(ListHead);
    PushListTail(qb, " WHERE ", Clauses(filters), Sorts(orderBy),
      I32FromU32(offset.limit), I32FromU32(offset.page));
    q := qb.Build();
  }

  /** How a filter reads in the statement: `column op $n`. */
  function WhereItems(filters: seq<UserFilter>, first: nat): (r: seq<string>)
    ensures |r| == |filters|
  {
    seq(|filters|, i requires 0 <= i < |filters| =>
      FilterColumn(filters[i]) + " " + Symbol(FilterKind(filters[i])) + " " + Placeholder(first + i))
  }

  /** How an order reads in the statement: `column ASC|DESC`. */
  function OrderItems(orderBy: seq<UserOrder>): (r: seq<string>)
    ensures |r| == |orderBy|
  {
    seq(|orderBy|, i requires 0 <= i < |orderBy| => OrderColumn(orderBy[i]) + " " + OrderOpDisplay(orderBy[i].dir))
  }

  /** The `list` text: the SELECT, `WHERE` and the filters joined by `AND`
      (nothing without filters), `ORDER BY` and the orders joined by commas
      (nothing without orders), and the paging tail. */
  lemma ListText(filters: seq<UserFilter>, orderBy: seq<UserOrder>)
    ensures Render(ListStatement(filters, orderBy))
      == ListHead + SectionText(" WHERE ", " AND ", WhereItems(filters, 1))
        + SectionText(" ORDER BY ", ", ", OrderItems(orderBy)) + PageText(|filters| + 1)
  {
    var cs, ss := Clauses(filters), Sorts(orderBy);
    assert ListStatement(filters, orderBy) == ListFragments([Lit(ListHead)], 0, " WHERE ", cs, ss);
    ListRendered([Lit(ListHead)], 0, " WHERE ", cs, ss);
    RenderOne(Lit(ListHead));
    WhereItemsAre(filters, 1);
    OrderItemsAre(orderBy);
  }

  /** The generic clause texts of these filters are their `column op $n` items. */
  lemma WhereItemsAre(filters: seq<UserFilter>, first: nat)
    ensures ClauseTexts(Clauses(filters), first) == WhereItems(filters, first)
  {
  }

  /** The generic sort texts of these orders are their `column ASC|DESC` items. */
  lemma OrderItemsAre(orderBy: seq<UserOrder>)
    ensures SortTexts(Sorts(orderBy)) == OrderItems(orderBy)
  {
  }

  /** Placeholders `$1 .. $n` occur in order, one per bind. */
  lemma ListNumberedBinds(offset: Offset, filters: seq<UserFilter>, orderBy: seq<UserOrder>)
    ensures Numbered(ListStatement(filters, orderBy), ListBinds(offset, filters))
  {
    RenderOne(Lit(ListHead));
    ListNumbered([Lit(ListHead)], [], " WHERE ", Clauses(filters), Sorts(orderBy),
      I32FromU32(offset.limit), I32FromU32(offset.page));
  }

  /** The binds: each filter's value in filter order, then page size, page
      size, page number. */
  lemma ListBindsOrder(offset: Offset, filters: seq<UserFilter>)
    ensures |ListBinds(offset, filters)| == |filters| + 3
    ensures forall i :: 0 <= i < |filters| ==> ListBinds(offset, filters)[i] == FilterClause(filters[i]).value
    ensures ListBinds(offset, filters)[|filters|..]
      == [Int4(I32FromU32(offset.limit)), Int4(I32FromU32(offset.limit)), Int4(I32FromU32(offset.page))]
  {
    var cs := Clauses(filters);
    ListArgsAt([], cs, I32FromU32(offset.limit), I32FromU32(offset.page));
    forall i | 0 <= i < |filters|
      ensures ListBinds(offset, filters)[i] == FilterClause(filters[i]).value
    {
      assert ListBinds(offset, filters)[0 + i] == cs[i].value;
    }
  }

  /** Filter values never reach the text: filters on the same fields with
      the same operators give the same statement. */
  lemma ListValuesNotInText(filters: seq<UserFilter>, filters': seq<UserFilter>, orderBy: seq<UserOrder>)
    requires |filters| == |filters'|
    requires forall i :: 0 <= i < |filters| ==>
      FilterColumn(filters[i]) == FilterColumn(filters'[i]) && FilterKind(filters[i]) == FilterKind(filters'[i])
    ensures ListStatement(filters, orderBy) == ListStatement(filters', orderBy)
  {
    assert Shape(Clauses(filters)) == Shape(Clauses(filters'));
    ValuesNotInText([Lit(ListHead)], 0, " WHERE ", Clauses(filters), Clauses(filters'), Sorts(orderBy));
  }

  const Returning: string := "RETURNING " + Columns

  /** The column an update sets: a password change sets the hash column. */
  function UpdateColumn(changes: UserUpdate): (c: string)
    ensures c in {"login", "password_hash", "role"}
  {
    match changes
    case Login(_) => "login"
    case Password(_) => "password_hash"
    case Role(_) => "role"
  }

  /** The text pushed for the update's column: `column = `. */
  function Assignment(changes: UserUpdate): (a: string)
    ensures a == UpdateColumn(changes) + " = "
  {
    match changes
    case Login(_) => "login = "
    case Password(_) => "password_hash = "
    case Role(_) => "role = "
  }

  /** The value an update binds; a role is bound as its label. */
  function UpdateValue(changes: UserUpdate): Value
  {
    match changes
    case Login(login) => Str(login)
    case Password(password) => Str(password)
    case Role(role) => Str(RoleLabel(role))
  }

  /** The bound value decodes back to the update: the label parses back to
      the role, text is bound as given. */
  lemma UpdateValueDecodes(changes: UserUpdate)
    ensures changes.Role? ==> UpdateValue(changes).Str? && ParseRole(UpdateValue(changes).str) == Ok(changes.role)
    ensures changes.Login? ==> UpdateValue(changes) == Str(changes.login)
    ensures changes.Password? ==> UpdateValue(changes) == Str(changes.password)
  {
    match changes {
      case Role(role) => ParseRoleLabel(role);
      case _ =>
    }
  }

  function UpdateStatement(changes: UserUpdate): seq<Fragment> {
    UpdateFragments("UPDATE \"user\" SET ", Assignment(changes), Returning)
  }

  /** The `match changes` of `update`: the column, the new value bound, a
      space. */
  method PushChange(qb: QueryBuilder, changes: UserUpdate)
    modifies qb
    ensures qb.fragments == old(qb.fragments) + [Lit(Assignment(changes)), Param(|old(qb.args)| + 1), Lit(" ")]
    ensures qb.args == old(qb.args) + [UpdateValue(changes)]
  {
    match changes {
      case Login(login) =>
        PushAssignment(qb, "login = ", Str(login));
      case Password(password) =>
        PushAssignment(qb, "password_hash = ", Str(password));
      case Role(role) =>
        PushAssignment(qb, "role = ", Str(RoleLabel(role)));
    }
  }

  /** `update`: one `column = $1` chosen by the update, then `WHERE id = $2`
      and the returned columns. */
  method Update(id: i64, changes: UserUpdate) returns (q: Query)
    ensures q == Query(UpdateStatement(changes), [UpdateValue(changes), Int8(id)])
  {
    var qb := new QueryBuilder("UPDATE \"user\" SET ");
    PushChange(qb, changes);
    assert qb.fragments == [Lit("UPDATE \"user\" SET "), Lit(Assignment(changes)), Param(1), Lit(" ")];
    PushWhereId(qb, id);
    qb.Push(Returning);
    assert qb.fragments == UpdateStatement(changes);
    q := qb.Build();
  }

  /** The update reads `UPDATE "user" SET column = $1 WHERE id = $2
      RETURNING ...`, with the new value as `$1` and the id as `$2`. */
  lemma UpdateText(id: i64, changes: UserUpdate)
    ensures Render(UpdateStatement(changes))
      == "UPDATE \"user\" SET " + UpdateColumn(changes) + " = " + Placeholder(1) + " WHERE id = " + Placeholder(2) + " " + Returning
    ensures Numbered(UpdateStatement(changes), [UpdateValue(changes), Int8(id)])
  {
    UpdateShape("UPDATE \"user\" SET ", UpdateColumn(changes), Returning);
    Iota2();
  }

  /** `get`: the user with the bound id. */
  function Get(id: i64): (q: Query)
    ensures Numbered(q.fragments, q.args) && q.args == [Int8(id)]
  {
    Query(Template([ListHead + " WHERE id = ", ""]), [Int8(id)])
  }

  /** `get` reads `SELECT <columns> FROM "user" WHERE id = $1`. */
  lemma GetSql(id: i64)
    ensures Get(id).Sql() == ListHead + " WHERE id = " + Placeholder(1)
  {
    TemplateRender([ListHead + " WHERE id = ", ""]);
    TemplateText1(ListHead + " WHERE id = ", "");
    assert ListHead + " WHERE id = " + Placeholder(1) + "" == ListHead + " WHERE id = " + Placeholder(1);
  }

  const CreateText: seq<string> :=
    ["INSERT INTO \"user\" (login, password_hash) VALUES (", ", ", ") " + Returning]

  /** `create`: the login, then the password hash. */
  function Create(login: string, passwordHash: string): (q: Query)
    ensures Numbered(q.fragments, q.args) && q.args == [Str(login), Str(passwordHash)]
  {
    Query(Template(CreateText), [Str(login), Str(passwordHash)])
  }

  /** `create` reads `INSERT ... (login, password_hash) VALUES ($1, $2)
      RETURNING ...`: the login is `$1`, the hash `$2`. */
  lemma CreateSql(login: string, passwordHash: string)
    ensures Create(login, passwordHash).Sql()
      == "INSERT INTO \"user\" (login, password_hash) VALUES ("
        + Placeholder(1) + ", " + Placeholder(2) + ") " + Returning
  {
    TemplateRender(CreateText);
    TemplateText2("INSERT INTO \"user\" (login, password_hash) VALUES (", ", ", ") " + Returning);
  }

  /** `delete`: the user with the bound id, returning its columns. */
  function Delete(id: i64): (q: Query)
    ensures Numbered(q.fragments, q.args) && q.args == [Int8(id)]
  {
    Query(Template(["DELETE FROM \"user\" WHERE id = ", " " + Returning]), [Int8(id)])
  }

  /** `delete` reads `DELETE FROM "user" WHERE id = $1 RETURNING ...`. */
  lemma DeleteSql(id: i64)
    ensures Delete(id).Sql() == "DELETE FROM \"user\" WHERE id = " + Placeholder(1) + " " + Returning
  {
    TemplateRender(["DELETE FROM \"user\" WHERE id = ", " " + Returning]);
    TemplateText1("DELETE FROM \"user\" WHERE id = ", " " + Returning);
  }

  /** `get_by_login`: the login is the only bind. */
  function GetByLogin(login: string): (q: Query)
    ensures Numbered(q.fragments, q.args) && q.args == [Str(login)]
  {
    Query(Template([ListHead + " WHERE login = ", ""]), [Str(login)])
  }

  /** `get_by_login` reads `SELECT <columns> FROM "user" WHERE login = $1`. */
  lemma GetByLoginSql(login: string)
    ensures GetByLogin(login).Sql() == ListHead + " WHERE login = " + Placeholder(1)
  {
    TemplateRender([ListHead + " WHERE login = ", ""]);
    TemplateText1(ListHead + " WHERE login = ", "");
    assert ListHead + " WHERE login = " + Placeholder(1) + "" == ListHead + " WHERE login = " + Placeholder(1);
  }
}
