/**
 * The text QueryBuilder's `build*` helpers produce, as functions of the
 * builder's state and its driver.
 */
module QuerySql {
  import opened Php
  import opened Strings
  import opened Drivers

  /** `QueryBuilder::INSERT`, `UPDATE`, `DELETE`, `SELECT`. */
  const INSERT: int := 1
  const UPDATE: int := 2
  const DELETE: int := 3
  const SELECT: int := 4

  /** What a QueryBuilder holds when it is built; `where`/`having` are the conditions of the attached expressions. */
  datatype State = State(
    table: Option<string>,
    alias: Option<string>,
    selected: PhpArray<string>,
    insert: PhpArray<Scalar>,
    update: PhpArray<Scalar>,
    joins: seq<JoinExpression>,
    where: Option<seq<Cond>>,
    having: Option<seq<Cond>>,
    groupBys: seq<string>,
    orders: seq<(string, string)>,
    limit: Option<int>,
    offset: Option<int>,
    returning: Option<string>,
    behavior: int
  )

  /** The driver's `trim` flag decides whether the finished text is trimmed. */
  function Finish(d: Driver, sql: string): string {
    if d.trim then Trim(sql) else sql
  }

  /** `getTableSql()`. */
  function TableSql(d: Driver, table: Option<string>, alias: Option<string>): string {
    d.quoteTableName(table) + (if TruthyString(alias) then " " + alias.value else "")
  }

  /** One entry of `selected`: a string key is a column shown under an alias, an integer key a bare column. */
  function SelectColumn(d: Driver, entry: (Key, string)): string {
    match entry.0
    case StrKey(column) => d.quoteColumn(Str(column)) + "  AS " + entry.1
    case IntKey(_) => d.quoteColumn(Str(entry.1))
  }

  function SelectColumns(d: Driver, selected: PhpArray<string>): seq<string> {
    seq(|selected|, i requires 0 <= i < |selected| => SelectColumn(d, selected[i]))
  }

  /** `buildSelectColumns()`. */
  function SelectColumnsSql(d: Driver, selected: PhpArray<string>): string {
    Join(", ", SelectColumns(d, selected))
  }

  /** The text of every join, one after the other. */
  function JoinsSql(d: Driver, joins: seq<JoinExpression>): string {
    if joins == [] then "" else JoinsSql(d, joins[..|joins| - 1]) + d.joinSql(joins[|joins| - 1])
  }

  /** `buildConditionSql()`. */
  function ConditionSql(d: Driver, where: Option<seq<Cond>>): string {
    if where.Some? then " WHERE " + d.expressionSql(where.value) else ""
  }

  /** `buildHavingSql()`. */
  function HavingSql(d: Driver, having: Option<seq<Cond>>): string {
    if having.Some? then " HAVING " + d.expressionSql(having.value) else ""
  }

  /** `buildGroupBySql()`. */
  function GroupBySql(d: Driver, groupBys: seq<string>): string {
    if groupBys == [] then ""
    else " GROUP BY " + Join(",", seq(|groupBys|, i requires 0 <= i < |groupBys| => d.quoteColumn(Str(groupBys[i]))))
  }

  function OrderPart(d: Driver, order: (string, string)): string {
    d.quoteColumn(Str(order.0)) + " " + order.1
  }

  /** `buildOrderSql()`. */
  function OrderSql(d: Driver, orders: seq<(string, string)>): string {
    if orders == [] then ""
    else " ORDER BY " + Join(",", seq(|orders|, i requires 0 <= i < |orders| => OrderPart(d, orders[i])))
  }

  /**
   * `buildLimitSql()`. A limit or offset counts only when it is truthy, so 0
   * counts as unset; SQLite gets nothing.
   */
  function LimitSql(kind: DriverType, limit: Option<int>, offset: Option<int>): (r: string)
    ensures r == "" <==> kind == SQLite || !TruthyInt(limit)
    ensures kind == PgSQL && TruthyInt(limit) && TruthyInt(offset) ==>
      r == " LIMIT " + IntToString(limit.value) + " OFFSET " + IntToString(offset.value)
    ensures kind == MySQL && TruthyInt(limit) && TruthyInt(offset) ==>
      r == " LIMIT " + IntToString(offset.value) + " , " + IntToString(limit.value)
    ensures kind != SQLite && TruthyInt(limit) && !TruthyInt(offset) ==>
      r == " LIMIT " + IntToString(limit.value)
  {
    match kind
    case PgSQL =>
      if TruthyInt(limit) && TruthyInt(offset) then
        " LIMIT " + IntToString(limit.value) + " OFFSET " + IntToString(offset.value)
      else if TruthyInt(limit) then " LIMIT " + IntToString(limit.value)
      else ""
    case MySQL =>
      if TruthyInt(limit) && TruthyInt(offset) then
        " LIMIT " + IntToString(offset.value) + " , " + IntToString(limit.value)
      else if TruthyInt(limit) then " LIMIT " + IntToString(limit.value)
      else ""
    case SQLite => ""
  }

  /** Text without a space cannot contain a separator that starts with one. */
  lemma NoSpaceNoSeparator(a: string, c: string, sep: string, b: string)
    requires forall k :: 0 <= k < |a| ==> a[k] != ' '
    requires |sep| >= 1 && sep[0] == ' '
    ensures a != c + sep + b
  {
    assert (c + sep + b)[|c|] == ' ';
  }

  /** Two texts split around the same space-led separator split at the same place. */
  lemma SplitAtSeparator(a: string, b: string, c: string, d: string, sep: string)
    requires forall k :: 0 <= k < |a| ==> a[k] != ' '
    requires forall k :: 0 <= k < |c| ==> c[k] != ' '
    requires |sep| >= 1 && sep[0] == ' '
    requires a + sep + b == c + sep + d
    ensures a == c && b == d
  {
    var x := a + sep + b;
    assert x[|a|] == ' ' && (c + sep + d)[|c|] == ' ';
    assert a == x[..|a|] && c == x[..|c|];
    assert b == x[|a| + |sep|..] && d == x[|c| + |sep|..];
  }

  /** Equal texts with the same prefix have the same rest. */
  lemma DropPrefix(p: string, x: string, y: string)
    requires p + x == p + y
    ensures x == y
  {
    assert x == (p + x)[|p|..] && y == (p + y)[|p|..];
  }

  /** What follows ` LIMIT ` in the text of MySQL and PostgreSQL. */
  function LimitArguments(kind: DriverType, l: int, o: Option<int>): string {
    if !TruthyInt(o) then IntToString(l)
    else if kind == PgSQL then IntToString(l) + " OFFSET " + IntToString(o.value)
    else IntToString(o.value) + " , " + IntToString(l)
  }

  lemma LimitSqlSplits(kind: DriverType, l: Option<int>, o: Option<int>)
    requires kind != SQLite && TruthyInt(l)
    ensures LimitSql(kind, l, o) == " LIMIT " + LimitArguments(kind, l.value, o)
  {
    var L := IntToString(l.value);
    if TruthyInt(o) {
      var O := IntToString(o.value);
      if kind == PgSQL {
        assert " LIMIT " + L + " OFFSET " + O == " LIMIT " + (L + " OFFSET " + O);
      } else {
        assert " LIMIT " + O + " , " + L == " LIMIT " + (O + " , " + L);
      }
    }
  }

  /** The text after ` LIMIT ` tells the limit, whether an offset follows, and the offset. */
  lemma LimitArgumentsInjective(kind: DriverType, l1: int, o1: Option<int>, l2: int, o2: Option<int>)
    requires kind != SQLite
    requires LimitArguments(kind, l1, o1) == LimitArguments(kind, l2, o2)
    ensures l1 == l2
    ensures TruthyInt(o1) <==> TruthyInt(o2)
    ensures TruthyInt(o1) ==> o1.value == o2.value
  {
    var sep := if kind == PgSQL then " OFFSET " else " , ";
    IntToStringFacts(l1, l2);
    IntToStringFacts(l2, l1);
    if TruthyInt(o1) && TruthyInt(o2) {
      IntToStringFacts(o1.value, o2.value);
      IntToStringFacts(o2.value, o1.value);
      if kind == PgSQL {
        SplitAtSeparator(IntToString(l1), IntToString(o1.value), IntToString(l2), IntToString(o2.value), sep);
      } else {
        SplitAtSeparator(IntToString(o1.value), IntToString(l1), IntToString(o2.value), IntToString(l2), sep);
      }
    } else if TruthyInt(o1) {
      if kind == PgSQL {
        NoSpaceNoSeparator(IntToString(l2), IntToString(l1), sep, IntToString(o1.value));
      } else {
        NoSpaceNoSeparator(IntToString(l2), IntToString(o1.value), sep, IntToString(l1));
      }
    } else if TruthyInt(o2) {
      if kind == PgSQL {
        NoSpaceNoSeparator(IntToString(l1), IntToString(l2), sep, IntToString(o2.value));
      } else {
        NoSpaceNoSeparator(IntToString(l1), IntToString(o2.value), sep, IntToString(l2));
      }
    }
  }

  /**
   * The LIMIT text of MySQL and PostgreSQL determines what it was built from:
   * the limit, whether an offset was written, and the offset if it was.
   */
  lemma LimitSqlDeterminesArguments(kind: DriverType, l1: Option<int>, o1: Option<int>, l2: Option<int>, o2: Option<int>)
    requires kind != SQLite && TruthyInt(l1) && TruthyInt(l2)
    requires LimitSql(kind, l1, o1) == LimitSql(kind, l2, o2)
    ensures l1.value == l2.value
    ensures TruthyInt(o1) <==> TruthyInt(o2)
    ensures TruthyInt(o1) ==> o1.value == o2.value
  {
    LimitSqlSplits(kind, l1, o1);
    LimitSqlSplits(kind, l2, o2);
    DropPrefix(" LIMIT ", LimitArguments(kind, l1.value, o1), LimitArguments(kind, l2.value, o2));
    LimitArgumentsInjective(kind, l1.value, o1, l2.value, o2);
  }

  /** UPDATE and DELETE carry a LIMIT only on MySQL and SQLite. */
  function UpdateDeleteLimitSql(kind: DriverType, limit: Option<int>, offset: Option<int>): string {
    if kind == MySQL || kind == SQLite then LimitSql(kind, limit, offset) else ""
  }

  /** The column an insert or placeholder-mode update entry is about: an integer key names it by its value. */
  function ColumnOf(entry: (Key, Scalar)): Scalar {
    if entry.0.IntKey? then entry.1 else KeyValue(entry.0)
  }

  /** One `column = value` pair of `buildSetterSql()`. */
  function Setter(d: Driver, entry: (Key, Scalar)): string {
    if d.placeholder then
      d.quoteColumn(ColumnOf(entry)) + " = " + d.placeHolder(ColumnOf(entry))
    else
      d.quoteColumn(KeyValue(entry.0)) + " = " + d.inflate(entry.1)
  }

  function Setters(d: Driver, update: PhpArray<Scalar>): seq<string> {
    seq(|update|, i requires 0 <= i < |update| => Setter(d, update[i]))
  }

  /** `buildSetterSql()`. */
  function SetterSql(d: Driver, update: PhpArray<Scalar>): string {
    Join(", ", Setters(d, update))
  }

  /** The column list of an INSERT, in the order of the insert array. */
  function InsertColumns(d: Driver, insert: PhpArray<Scalar>): seq<string> {
    seq(|insert|, i requires 0 <= i < |insert| => d.quoteColumn(ColumnOf(insert[i])))
  }

  /** The value list of an INSERT: a placeholder per column, or the inlined value. */
  function InsertValues(d: Driver, insert: PhpArray<Scalar>): seq<string> {
    seq(|insert|, i requires 0 <= i < |insert| =>
      if d.placeholder then d.placeHolder(ColumnOf(insert[i])) else d.inflate(insert[i].1))
  }

  /** The RETURNING suffix: only for PostgreSQL, and only when a column was asked for. */
  function ReturningSql(d: Driver, returning: Option<string>): string {
    if TruthyString(returning) && d.kind == PgSQL then " RETURNING " + d.quoteColumn(Str(returning.value)) else ""
  }

  /** `buildSelect()`. */
  function SelectSql(d: Driver, st: State): string {
    Finish(d,
      "SELECT " + SelectColumnsSql(d, st.selected) + " FROM " + TableSql(d, st.table, st.alias) + " "
      + JoinsSql(d, st.joins)
      + ConditionSql(d, st.where)
      + GroupBySql(d, st.groupBys)
      + HavingSql(d, st.having)
      + OrderSql(d, st.orders)
      + LimitSql(d.kind, st.limit, st.offset))
  }

  /** `buildInsert()`. */
  function InsertSql(d: Driver, st: State): string {
    Finish(d,
      "INSERT INTO " + TableSql(d, st.table, st.alias) + " ( "
      + Join(",", InsertColumns(d, st.insert)) + ") VALUES (" + Join(",", InsertValues(d, st.insert)) + ")"
      + ReturningSql(d, st.returning))
  }

  /** `buildUpdate()`. */
  function UpdateSql(d: Driver, st: State): string {
    Finish(d,
      "UPDATE " + TableSql(d, st.table, st.alias) + " SET "
      + SetterSql(d, st.update)
      + JoinsSql(d, st.joins)
      + ConditionSql(d, st.where)
      + UpdateDeleteLimitSql(d.kind, st.limit, st.offset))
  }

  /** `buildDelete()`. */
  function DeleteSql(d: Driver, st: State): string {
    Finish(d,
      "DELETE FROM " + TableSql(d, st.table, st.alias) + " "
      + ConditionSql(d, st.where)
      + UpdateDeleteLimitSql(d.kind, st.limit, st.offset))
  }

  // ---------------------------------------------------------------------
  // Properties of the assemblers

  /** The LIMIT phrasing of each driver for a limit of 10 and an offset of 5. */
  lemma LimitPhrasingExample()
    ensures LimitSql(MySQL, Some(10), Some(5)) == " LIMIT 5 , 10"
    ensures LimitSql(PgSQL, Some(10), Some(5)) == " LIMIT 10 OFFSET 5"
    ensures LimitSql(SQLite, Some(10), Some(5)) == ""
    ensures LimitSql(MySQL, Some(10), Some(0)) == " LIMIT 10"
    ensures LimitSql(PgSQL, None, Some(5)) == ""
  {
    assert NatToString(1) == "1";
    assert NatToString(10) == NatToString(1) + "0";
    assert NatToString(5) == "5";
  }

  /** A list-form `select('a', 'b', ...)` renders each name quoted, in order, with no alias. */
  lemma ListSelectQuotesEachName(d: Driver, names: seq<string>)
    ensures SelectColumns(d, Indexed(names)) == seq(|names|, i requires 0 <= i < |names| => d.quoteColumn(Str(names[i])))
  {
  }

  /** A mapping-form `select(array('col' => 'alias'))` renders `col  AS alias`. */
  lemma MappedSelectShowsAlias(d: Driver, column: string, alias: string)
    ensures SelectColumnsSql(d, [(StrKey(column), alias)]) == d.quoteColumn(Str(column)) + "  AS " + alias
  {
  }

  /** INSERT's column list and value list have one entry per insert entry, and entry i of each is about the same column. */
  lemma InsertListsInLockStep(d: Driver, insert: PhpArray<Scalar>, i: nat)
    requires i < |insert|
    ensures |InsertColumns(d, insert)| == |InsertValues(d, insert)| == |insert|
    ensures InsertColumns(d, insert)[i] == d.quoteColumn(ColumnOf(insert[i]))
    ensures d.placeholder ==> InsertValues(d, insert)[i] == d.placeHolder(ColumnOf(insert[i]))
    ensures !d.placeholder ==> InsertValues(d, insert)[i] == d.inflate(insert[i].1)
    ensures insert[i].0.IntKey? ==> ColumnOf(insert[i]) == insert[i].1
  {
  }

  /** On PostgreSQL, UPDATE and DELETE text does not depend on the limit and offset. */
  lemma PgsqlUpdateDeleteIgnoreLimit(d: Driver, st: State)
    requires d.kind == PgSQL
    ensures UpdateSql(d, st) == UpdateSql(d, st.(limit := None, offset := None))
    ensures DeleteSql(d, st) == DeleteSql(d, st.(limit := None, offset := None))
  {
  }

  /** On MySQL and SQLite, untrimmed UPDATE and DELETE text ends with the LIMIT clause. */
  lemma UpdateDeleteEndWithLimit(d: Driver, st: State)
    requires d.kind != PgSQL && !d.trim
    ensures UpdateSql(d, st) == UpdateSql(d, st.(limit := None, offset := None)) + LimitSql(d.kind, st.limit, st.offset)
    ensures DeleteSql(d, st) == DeleteSql(d, st.(limit := None, offset := None)) + LimitSql(d.kind, st.limit, st.offset)
  {
  }

  /** RETURNING changes the INSERT text only on PostgreSQL with a returning column set, and then it is a suffix. */
  lemma ReturningOnlyOnPgsql(d: Driver, st: State)
    ensures d.kind != PgSQL || !TruthyString(st.returning) ==>
      InsertSql(d, st) == InsertSql(d, st.(returning := None))
    ensures d.kind == PgSQL && TruthyString(st.returning) && !d.trim ==>
      InsertSql(d, st) == InsertSql(d, st.(returning := None)) + " RETURNING " + d.quoteColumn(Str(st.returning.value))
  {
  }

  /** A SELECT with no optional clause set is `SELECT <columns> FROM <table> `. */
  lemma BareSelect(d: Driver, st: State)
    requires st.joins == [] && st.where.None? && st.groupBys == [] && st.having.None? && st.orders == []
    requires !TruthyInt(st.limit)
    ensures SelectSql(d, st) == Finish(d, "SELECT " + SelectColumnsSql(d, st.selected) + " FROM " + TableSql(d, st.table, st.alias) + " ")
  {
    var head := "SELECT " + SelectColumnsSql(d, st.selected) + " FROM " + TableSql(d, st.table, st.alias) + " ";
    assert JoinsSql(d, st.joins) == "" && ConditionSql(d, st.where) == "" && GroupBySql(d, st.groupBys) == "";
    assert HavingSql(d, st.having) == "" && OrderSql(d, st.orders) == "" && LimitSql(d.kind, st.limit, st.offset) == "";
    assert head + "" + "" + "" + "" + "" + "" == head;
  }

  /** ORDER BY and GROUP BY text is empty exactly when their lists are. */
  lemma OrderGroupEmptyIff(d: Driver, orders: seq<(string, string)>, groupBys: seq<string>)
    ensures OrderSql(d, orders) == "" <==> orders == []
    ensures GroupBySql(d, groupBys) == "" <==> groupBys == []
  {
  }
}
