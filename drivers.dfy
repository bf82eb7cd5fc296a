/**
 * The database driver the assemblers consult, and the syntax objects whose
 * rendering belongs to it.
 *
 * The driver classes (BaseDriver, MySQLDriver, PgSQLDriver, SQLiteDriver),
 * Expression, JoinExpression and Column are not part of this model. Their
 * rendering operations are carried here as function-valued fields with no
 * fixed meaning, so every property proved about the assemblers holds for
 * any quoting, placeholder and inflation rule a driver may use.
 */
module Drivers {
  import opened Php

  /** `$driver->type`: `'mysql'`, `'pgsql'` or `'sqlite'`. */
  datatype DriverType = MySQL | PgSQL | SQLite

  /** One condition added to an Expression by `equal($column, $value)`. */
  datatype Cond = Equal(column: Key, value: Scalar)

  /** A join added by `join($table, $type)`. */
  datatype JoinExpression = JoinExpression(table: string, joinType: string)

  /** A column definition: name, SQL type, nullability and default value. */
  datatype Column = Column(name: string, sqlType: string, notNull: bool, default: Option<Scalar>)

  datatype Driver = Driver(
    kind: DriverType,
    /** `$driver->placeholder`: bind values instead of inlining them */
    placeholder: bool,
    /** `$driver->trim`: trim the finished statement */
    trim: bool,
    quoteTableName: Option<string> -> string,
    quoteColumn: Scalar -> string,
    quoteIdentifier: string -> string,
    quote: string -> string,
    placeHolder: Scalar -> string,
    inflate: Scalar -> string,
    /** `Expression::toSql()` for an expression holding these conditions */
    expressionSql: seq<Cond> -> string,
    /** `JoinExpression::toSql()` */
    joinSql: JoinExpression -> string,
    /** `Column::buildDefinitionSqlForModify($driver, $args)` */
    definitionForModify: Column -> string
  )
}
