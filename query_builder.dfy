/**
 * QueryBuilder: a mutable CRUD statement builder. Its setters record the
 * pieces of the statement and the statement kind (`behavior`); `Build`
 * renders the kind last chosen, with the text given in QuerySql.
 */
module QueryBuilders {
  import opened Php
  import opened Strings
  import opened Drivers
  import opened QuerySql

  /**
   * The part of an Expression this model needs: the conditions added to it,
   * in order. Its rendering is the driver's `expressionSql`.
   */
  class Expression {
    var conds: seq<Cond>

    constructor()
      ensures conds == []
    {
      conds := [];
    }

    /** `equal($column, $value)`: adds one equality condition and returns the same expression. */
    method Equal(column: Key, value: Scalar) returns (self: Expression)
      modifies this
      ensures self == this
      ensures conds == old(conds) + [Cond.Equal(column, value)]
    {
      conds := conds + [Cond.Equal(column, value)];
      self := this;
    }
  }

  /** The arguments of `select(...)`: a list of column names, or one array as the first argument. */
  datatype SelectArgs = Columns(names: seq<string>) | Mapping(columns: PhpArray<string>)

  /** What `select(...)` stores in `selected`. */
  function SelectedOf(args: SelectArgs): PhpArray<string> {
    match args
    case Columns(names) => Indexed(names)
    case Mapping(columns) => columns
  }

  /** The conditions `whereFromArgs($args)` adds: one equality per entry, in order. */
  function EqualsOf(args: PhpArray<Scalar>): seq<Cond> {
    seq(|args|, i requires 0 <= i < |args| => Cond.Equal(args[i].0, args[i].1))
  }

  /** The exception `build()` throws. */
  datatype BuildError = BehaviorNotDefined

  class QueryBuilder {
    var table: Option<string>
    var alias: Option<string>
    var limit: Option<int>
    var offset: Option<int>
    var groupBys: seq<string>
    var joinExpr: seq<JoinExpression>
    var returning: Option<string>
    const driver: Driver
    var where: Expression?
    var having: Expression?
    var orders: seq<(string, string)>
    var selected: PhpArray<string>
    var insert: PhpArray<Scalar>
    var update: PhpArray<Scalar>
    var behavior: int

    /** The WHERE and HAVING expressions are distinct objects. */
    ghost predicate Valid()
      reads this
    {
      where != null && having != null ==> where != having
    }

    /** The builder's state as the assemblers read it. */
    function Snapshot(): State
      reads this, where, having
    {
      State(table, alias, selected, insert, update, joinExpr,
            if where == null then None else Some(where.conds),
            if having == null then None else Some(having.conds),
            groupBys, orders, limit, offset, returning, behavior)
    }

    /** `new QueryBuilder($table)`: selects `*` from `table`; the driver is given here. */
    constructor(driver: Driver, table: Option<string> := None)
      ensures Valid() && this.driver == driver && where == null && having == null
      ensures Snapshot() == State(table, None, [(IntKey(0), "*")], [], [], [], None, None, [], [], None, None, None, SELECT)
    {
      this.driver := driver;
      this.table := table;
      alias, limit, offset, returning := None, None, None, None;
      groupBys, joinExpr, orders := [], [], [];
      where, having := null, null;
      selected := [(IntKey(0), "*")];
      insert, update := [], [];
      behavior := SELECT;
    }

    /** `table($table)`. */
    method Table(t: string) returns (self: QueryBuilder)
      requires Valid()
      modifies this
      ensures self == this && Valid() && where == old(where) && having == old(having)
      ensures Snapshot() == old(Snapshot()).(table := Some(t))
    {
      table := Some(t);
      self := this;
    }

    /** `update($args)`: records the column => value map and makes this an UPDATE. */
    method Update(args: PhpArray<Scalar>) returns (self: QueryBuilder)
      requires Valid()
      modifies this
      ensures self == this && Valid() && where == old(where) && having == old(having)
      ensures Snapshot() == old(Snapshot()).(update := args, behavior := UPDATE)
    {
      update := args;
      behavior := UPDATE;
      self := this;
    }

    /** `select(...)`: an array first argument replaces `selected`; otherwise the arguments become a list. */
    method Select(args: SelectArgs) returns (self: QueryBuilder)
      requires Valid()
      requires args.Columns? ==> |args.names| >= 1
      modifies this
      ensures self == this && Valid() && where == old(where) && having == old(having)
      ensures Snapshot() == old(Snapshot()).(selected := SelectedOf(args), behavior := SELECT)
    {
      match args {
        case Mapping(columns) => selected := columns;
        case Columns(names) => selected := Indexed(names);
      }
      behavior := SELECT;
      self := this;
    }

    /** `insert($args)`: records the column => value map and makes this an INSERT. */
    method Insert(args: PhpArray<Scalar>) returns (self: QueryBuilder)
      requires Valid()
      modifies this
      ensures self == this && Valid() && where == old(where) && having == old(having)
      ensures Snapshot() == old(Snapshot()).(insert := args, behavior := INSERT)
    {
      insert := args;
      behavior := INSERT;
      self := this;
    }

    /** `delete()`. */
    method Delete() returns (self: QueryBuilder)
      requires Valid()
      modifies this
      ensures self == this && Valid() && where == old(where) && having == old(having)
      ensures Snapshot() == old(Snapshot()).(behavior := DELETE)
    {
      behavior := DELETE;
      self := this;
    }

    /** `limit($limit)`: accepted on every driver, SQLite included. */
    method Limit(n: int) returns (self: QueryBuilder)
      requires Valid()
      modifies this
      ensures self == this && Valid() && where == old(where) && having == old(having)
      ensures Snapshot() == old(Snapshot()).(limit := Some(n))
    {
      limit := Some(n);
      self := this;
    }

    /** `offset($offset)`. */
    method Offset(n: int) returns (self: QueryBuilder)
      requires Valid()
      modifies this
      ensures self == this && Valid() && where == old(where) && having == old(having)
      ensures Snapshot() == old(Snapshot()).(offset := Some(n))
    {
      offset := Some(n);
      self := this;
    }

    /** `alias($alias)`. */
    method Alias(a: string) returns (self: QueryBuilder)
      requires Valid()
      modifies this
      ensures self == this && Valid() && where == old(where) && having == old(having)
      ensures Snapshot() == old(Snapshot()).(alias := Some(a))
    {
      alias := Some(a);
      self := this;
    }

    /** `join($table, $type = 'LEFT')`: appends a join and returns it. */
    method Join(t: string, joinType: string := "LEFT") returns (j: JoinExpression)
      requires Valid()
      modifies this
      ensures j == JoinExpression(t, joinType) && Valid() && where == old(where) && having == old(having)
      ensures Snapshot() == old(Snapshot()).(joins := old(joinExpr) + [j])
    {
      j := JoinExpression(t, joinType);
      joinExpr := joinExpr + [j];
    }

    /** `where()`: the WHERE expression, created empty on first use and the same object afterwards. */
    method Where() returns (e: Expression)
      requires Valid()
      modifies this
      ensures Valid() && where == e && having == old(having)
      ensures old(where) != null ==> e == old(where)
      ensures old(where) == null ==> fresh(e) && e.conds == []
      ensures Snapshot() == old(Snapshot()).(where := Some(e.conds))
    {
      if where != null {
        return where;
      }
      e := new Expression();
      where := e;
    }

    /** `whereFromArgs($args)`: adds `column = value` to the WHERE expression for each entry; an empty array does nothing. */
    method WhereFromArgs(args: PhpArray<Scalar>) returns (self: QueryBuilder)
      requires Valid()
      modifies this, where
      ensures self == this && Valid() && having == old(having)
      ensures args == [] ==> where == old(where) && Snapshot() == old(Snapshot())
      ensures args != [] ==> where != null && (old(where) != null ==> where == old(where))
      ensures args != [] ==> Snapshot() == old(Snapshot()).(where := Some(old(Snapshot()).where.GetOr([]) + EqualsOf(args)))
    {
      self := this;
      if args == [] {
        return;
      }
      var e := Where();
      ghost var expr, start := e, e.conds;
      var i := 0;
      while i < |args|
        modifies expr
        invariant 0 <= i <= |args|
        invariant e == expr == where
        invariant e.conds == start + EqualsOf(args[..i])
      {
        assert EqualsOf(args[..i + 1]) == EqualsOf(args[..i]) + [Cond.Equal(args[i].0, args[i].1)];
        e := e.Equal(args[i].0, args[i].1);
        i := i + 1;
      }
      assert args[..i] == args;
    }

    /** `returning($column)`: the column RETURNING names (PostgreSQL only). */
    method Returning(column: string) returns (self: QueryBuilder)
      requires Valid()
      modifies this
      ensures self == this && Valid() && where == old(where) && having == old(having)
      ensures Snapshot() == old(Snapshot()).(returning := Some(column))
    {
      returning := Some(column);
      self := this;
    }

    /** `order($column, $order = 'desc')`: appends one (column, ordering) pair. */
    method Order(column: string, ordering: string := "desc") returns (self: QueryBuilder)
      requires Valid()
      modifies this
      ensures self == this && Valid() && where == old(where) && having == old(having)
      ensures Snapshot() == old(Snapshot()).(orders := old(orders) + [(column, ordering)])
    {
      orders := orders + [(column, ordering)];
      self := this;
    }

    /** `orderBy($column, $order = 'desc')`: the same as `order`. */
    method OrderBy(column: string, ordering: string := "desc") returns (self: QueryBuilder)
      requires Valid()
      modifies this
      ensures self == this && Valid() && where == old(where) && having == old(having)
      ensures Snapshot() == old(Snapshot()).(orders := old(orders) + [(column, ordering)])
    {
      orders := orders + [(column, ordering)];
      self := this;
    }

    /** `groupBy(...)`: several columns replace the list, a single column is appended to it. */
    method GroupBy(columns: seq<string>) returns (self: QueryBuilder)
      requires Valid()
      requires |columns| >= 1
      modifies this
      ensures self == this && Valid() && where == old(where) && having == old(having)
      ensures Snapshot() == old(Snapshot()).(groupBys := if |columns| > 1 then columns else old(groupBys) + [columns[0]])
    {
      if |columns| > 1 {
        groupBys := columns;
      } else {
        groupBys := groupBys + [columns[0]];
      }
      self := this;
    }

    /** `having()`: a new, empty HAVING expression each time. */
    method Having() returns (e: Expression)
      requires Valid()
      modifies this
      ensures Valid() && having == e && where == old(where)
      ensures fresh(e) && e.conds == []
      ensures Snapshot() == old(Snapshot()).(having := Some([]))
    {
      e := new Expression();
      having := e;
    }

    // -------------------------------------------------------------------
    // build() and its helpers

    /** `build()`: renders the statement kind in `behavior`; any other value throws and yields no text. */
    method Build() returns (r: Result<string, BuildError>)
      ensures behavior == UPDATE ==> r == Success(UpdateSql(driver, Snapshot()))
      ensures behavior == INSERT ==> r == Success(InsertSql(driver, Snapshot()))
      ensures behavior == DELETE ==> r == Success(DeleteSql(driver, Snapshot()))
      ensures behavior == SELECT ==> r == Success(SelectSql(driver, Snapshot()))
      ensures r.Failure? <==> behavior !in {UPDATE, INSERT, DELETE, SELECT}
    {
      if behavior == 0 {
        return Failure(BehaviorNotDefined);
      }
      var sql: string;
      if behavior == UPDATE {
        sql := BuildUpdate();
      } else if behavior == INSERT {
        sql := BuildInsert();
      } else if behavior == DELETE {
        sql := BuildDelete();
      } else if behavior == SELECT {
        sql := BuildSelect();
      } else {
        return Failure(BehaviorNotDefined);
      }
      r := Success(sql);
    }

    /** `buildSelectColumns()`. */
    method BuildSelectColumns() returns (sql: string)
      ensures sql == SelectColumnsSql(driver, selected)
    {
      var cols: seq<string> := [];
      var i := 0;
      while i < |selected|
        invariant 0 <= i <= |selected|
        invariant |cols| == i
        invariant forall j :: 0 <= j < i ==> cols[j] == SelectColumn(driver, selected[j])
      {
        var (k, v) := selected[i];
        match k {
          case StrKey(column) =>
            cols := cols + [driver.quoteColumn(Str(column)) + "  AS " + v];
          case IntKey(_) =>
            cols := cols + [driver.quoteColumn(Str(v))];
        }
        i := i + 1;
      }
      assert cols == SelectColumns(driver, selected);
      sql := Strings.Join(", ", cols);
    }

    /** `buildJoinSql()`. */
    method BuildJoinSql() returns (sql: string)
      ensures sql == JoinsSql(driver, joinExpr)
    {
      sql := "";
      var i := 0;
      while i < |joinExpr|
        invariant 0 <= i <= |joinExpr|
        invariant sql == JoinsSql(driver, joinExpr[..i])
      {
        assert joinExpr[..i + 1][..i] == joinExpr[..i];
        sql := sql + driver.joinSql(joinExpr[i]);
        i := i + 1;
      }
      assert joinExpr[..i] == joinExpr;
    }

    /** `buildOrderSql()`. */
    method BuildOrderSql() returns (sql: string)
      ensures sql == OrderSql(driver, orders)
    {
      sql := "";
      if orders != [] {
        sql := sql + " ORDER BY ";
        var parts: seq<string> := [];
        var i := 0;
        while i < |orders|
          invariant 0 <= i <= |orders|
          invariant |parts| == i
          invariant forall j :: 0 <= j < i ==> parts[j] == OrderPart(driver, orders[j])
        {
          var (column, ordering) := orders[i];
          parts := parts + [driver.quoteColumn(Str(column)) + " " + ordering];
          i := i + 1;
        }
        var os := orders;
        assert parts == seq(|os|, j requires 0 <= j < |os| => OrderPart(driver, os[j]));
        sql := sql + Strings.Join(",", parts);
      }
    }

    /** `buildSetterSql()`. */
    method BuildSetterSql() returns (sql: string)
      ensures sql == SetterSql(driver, update)
    {
      var conds: seq<string> := [];
      var i := 0;
      if driver.placeholder {
        while i < |update|
          invariant 0 <= i <= |update|
          invariant |conds| == i
          invariant forall j :: 0 <= j < i ==> conds[j] == Setter(driver, update[j])
        {
          var (k, v) := update[i];
          var column := if k.IntKey? then v else KeyValue(k);
          conds := conds + [driver.quoteColumn(column) + " = " + driver.placeHolder(column)];
          i := i + 1;
        }
      } else {
        while i < |update|
          invariant 0 <= i <= |update|
          invariant |conds| == i
          invariant forall j :: 0 <= j < i ==> conds[j] == Setter(driver, update[j])
        {
          var (k, v) := update[i];
          conds := conds + [driver.quoteColumn(KeyValue(k)) + " = " + driver.inflate(v)];
          i := i + 1;
        }
      }
      assert conds == Setters(driver, update);
      sql := Strings.Join(", ", conds);
    }

    /** `buildDelete()`. */
    method BuildDelete() returns (sql: string)
      ensures sql == DeleteSql(driver, Snapshot())
    {
      sql := "DELETE FROM " + TableSql(driver, table, alias) + " ";
      sql := sql + ConditionSql(driver, Snapshot().where);
      ghost var body := sql;
      if driver.kind == MySQL || driver.kind == SQLite {
        sql := sql + LimitSql(driver.kind, limit, offset);
      }
      assert sql == body + UpdateDeleteLimitSql(driver.kind, limit, offset);
      if driver.trim {
        sql := Trim(sql);
      }
    }

    /** `buildUpdate()`. */
    method BuildUpdate() returns (sql: string)
      ensures sql == UpdateSql(driver, Snapshot())
    {
      sql := "UPDATE " + TableSql(driver, table, alias) + " SET ";
      var setters := BuildSetterSql();
      sql := sql + setters;
      var joins := BuildJoinSql();
      sql := sql + joins;
      sql := sql + ConditionSql(driver, Snapshot().where);
      ghost var body := sql;
      if driver.kind == MySQL || driver.kind == SQLite {
        sql := sql + LimitSql(driver.kind, limit, offset);
      }
      assert sql == body + UpdateDeleteLimitSql(driver.kind, limit, offset);
      if driver.trim {
        sql := Trim(sql);
      }
    }

    /** `buildSelect()`. */
    method BuildSelect() returns (sql: string)
      ensures sql == SelectSql(driver, Snapshot())
    {
      var columns := BuildSelectColumns();
      sql := "SELECT " + columns + " FROM " + TableSql(driver, table, alias) + " ";
      var joins := BuildJoinSql();
      sql := sql + joins;
      sql := sql + ConditionSql(driver, Snapshot().where);
      sql := sql + GroupBySql(driver, groupBys);
      sql := sql + HavingSql(driver, Snapshot().having);
      var order := BuildOrderSql();
      sql := sql + order;
      sql := sql + LimitSql(driver.kind, limit, offset);
      if driver.trim {
        sql := Trim(sql);
      }
    }

    /** The two foreach loops of `buildInsert()`: the column and value lists, built side by side. */
    method BuildInsertLists() returns (columns: seq<string>, values: seq<string>)
      ensures columns == InsertColumns(driver, insert)
      ensures values == InsertValues(driver, insert)
    {
      columns := [];
      values := [];
      var i := 0;
      if driver.placeholder {
        while i < |insert|
          invariant 0 <= i <= |insert|
          invariant |columns| == |values| == i
          invariant forall j :: 0 <= j < i ==> columns[j] == driver.quoteColumn(ColumnOf(insert[j]))
          invariant forall j :: 0 <= j < i ==> values[j] == driver.placeHolder(ColumnOf(insert[j]))
        {
          var (k, v) := insert[i];
          var column := if k.IntKey? then v else KeyValue(k);
          columns := columns + [driver.quoteColumn(column)];
          values := values + [driver.placeHolder(column)];
          i := i + 1;
        }
      } else {
        while i < |insert|
          invariant 0 <= i <= |insert|
          invariant |columns| == |values| == i
          invariant forall j :: 0 <= j < i ==> columns[j] == driver.quoteColumn(ColumnOf(insert[j]))
          invariant forall j :: 0 <= j < i ==> values[j] == driver.inflate(insert[j].1)
        {
          var (k, v) := insert[i];
          var column := if k.IntKey? then v else KeyValue(k);
          columns := columns + [driver.quoteColumn(column)];
          values := values + [driver.inflate(v)];
          i := i + 1;
        }
      }
      assert columns == InsertColumns(driver, insert);
      assert values == InsertValues(driver, insert);
    }

    /** `buildInsert()`. */
    method BuildInsert() returns (sql: string)
      ensures sql == InsertSql(driver, Snapshot())
    {
      var columns, values := BuildInsertLists();
      sql := "INSERT INTO " + TableSql(driver, table, alias) + " ( ";
      sql := sql + Strings.Join(",", columns) + ") VALUES (" + Strings.Join(",", values) + ")";
      ghost var body := sql;
      if TruthyString(returning) && driver.kind == PgSQL {
        sql := sql + " RETURNING " + driver.quoteColumn(Str(returning.value));
      }
      assert sql == body + ReturningSql(driver, returning);
      ghost var st := Snapshot();
      assert st.table == table && st.alias == alias && st.insert == insert && st.returning == returning;
      assert sql == "INSERT INTO " + TableSql(driver, st.table, st.alias) + " ( "
        + Strings.Join(",", InsertColumns(driver, st.insert)) + ") VALUES (" + Strings.Join(",", InsertValues(driver, st.insert)) + ")"
        + ReturningSql(driver, st.returning);
      if driver.trim {
        sql := Trim(sql);
      }
    }
  }
}
