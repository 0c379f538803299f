/** src/infrastructure/src/db/error.rs: how a failure reported by the
    database driver becomes a `DbError`. Only the two integrity-constraint
    SQLSTATE codes of PostgreSQL's error class 23 are told apart: 23503
    (foreign_key_violation) and 23505 (unique_violation); everything else is
    `Other`, carrying the original error. */
module DbErrors {
  import opened Wrappers

  /** What of a driver error the conversion looks at: a database error has a
      SQLSTATE code and may name the table and column involved; any other
      driver error (I/O, pool, decoding, ...) is opaque. */
  datatype SqlxError =
    | Database(code: string, table: Option<string>, column: Option<string>)
    | NonDatabase(description: string)

  /** A failed migration, opaque. */
  datatype MigrateError = MigrateError(description: string)

  /** The error kept as `source`. */
  datatype Source = Sqlx(sqlx: SqlxError) | Migrate(migrate: MigrateError)

  datatype DbError =
    | ForeignKeyViolation(table: string, column: string, source: SqlxError)
    | UniqueViolation(table: string, column: string, source: SqlxError)
    | Other(cause: Source)

  const ForeignKeyViolationCode: string := "23503"
  const UniqueViolationCode: string := "23505"

  /** `impl From<sqlx::Error> for DbError`. `None` is the `unwrap` panic: a
      violation whose report lacks the table or the column. */
  function FromSqlx(e: SqlxError): (r: Option<DbError>)
    ensures r.None? <==> (e.Database? && e.code in {ForeignKeyViolationCode, UniqueViolationCode}
      && (e.table.None? || e.column.None?))
    ensures r.Some? && r.value.ForeignKeyViolation? <==> (e.Database? && e.code == ForeignKeyViolationCode
      && e.table.Some? && e.column.Some?)
    ensures r.Some? && r.value.UniqueViolation? <==> (e.Database? && e.code == UniqueViolationCode
      && e.table.Some? && e.column.Some?)
    ensures r.Some? && !r.value.Other? ==> (Some(r.value.table) == e.table && Some(r.value.column) == e.column
      && r.value.source == e)
    ensures r.Some? && r.value.Other? ==> r.value.cause == Sqlx(e)
  {
    match e
    case NonDatabase(_) => Some(Other(Sqlx(e)))
    case Database(code, table, column) =>
      if code == ForeignKeyViolationCode then
        if table.Some? && column.Some? then Some(ForeignKeyViolation(table.value, column.value, e)) else None
      else if code == UniqueViolationCode then
        if table.Some? && column.Some? then Some(UniqueViolation(table.value, column.value, e)) else None
      else Some(Other(Sqlx(e)))
  }

  /** `impl From<MigrateError> for DbError`: never a constraint violation. */
  function FromMigrate(e: MigrateError): (r: DbError)
    ensures r.Other? && r.cause.Migrate? && r.cause.migrate == e
  {
    Other(Migrate(e))
  }
}
