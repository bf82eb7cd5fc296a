/**
 * The `CHANGE COLUMN from to <definition> [AFTER x | FIRST]` fragment of
 * ALTER TABLE. The position suffix is MySQL syntax and is written only for
 * the MySQL driver; when both are given, AFTER is written and FIRST dropped.
 */
module AlterTableChangeColumns {
  import opened Php
  import Strings
  import opened Drivers
  import opened ArgumentArrays

  /**
   * What `__construct($fromColumn, ...)` and `after($column)` accept: a
   * Column object, or a plain value (a name is a `Str`).
   */
  datatype ColumnArg = Col(column: Column) | Plain(value: Scalar)

  /** The name the from-column is written under: a string as it is, a Column by its name, anything else not at all. */
  function FromSql(d: Driver, from: ColumnArg): string {
    match from
    case Col(c) => d.quoteIdentifier(c.name)
    case Plain(Str(n)) => d.quoteIdentifier(n)
    case Plain(_) => ""
  }

  /** What `after($column)` stores: a Column's name, or the argument itself. */
  function AfterValue(column: ColumnArg): Scalar {
    match column
    case Col(c) => Str(c.name)
    case Plain(v) => v
  }

  /** PHP's `(string)` of a scalar, as string concatenation applies it. */
  function ScalarText(v: Scalar): string {
    match v
    case Str(s) => s
    case Int(i) => Strings.IntToString(i)
    case Bool(b) => if b then "1" else ""
    case Null => ""
  }

  /** The position suffix: MySQL only, a truthy `after` first, then `first`. */
  function PositionSql(d: Driver, after: Scalar, first: bool): string {
    if d.kind != MySQL then ""
    else if TruthyScalar(after) then " AFTER " + d.quoteIdentifier(ScalarText(after))
    else if first then " FIRST"
    else ""
  }

  /** The whole fragment for the given fields. */
  function ChangeColumnSql(d: Driver, from: ColumnArg, to: Column, after: Scalar, first: bool): string {
    "CHANGE COLUMN " + FromSql(d, from) + " " + d.quoteIdentifier(to.name) + " " + d.definitionForModify(to)
    + PositionSql(d, after, first)
  }

  /** The fragment starts with `CHANGE COLUMN`, then the from-name, the to-name and the definition, in that order. */
  lemma ChangeColumnShape(d: Driver, from: ColumnArg, to: Column, after: Scalar, first: bool)
    ensures var head := "CHANGE COLUMN " + FromSql(d, from) + " " + d.quoteIdentifier(to.name) + " " + d.definitionForModify(to);
      var r := ChangeColumnSql(d, from, to, after, first);
      |head| <= |r| && r[..|head|] == head && r[..14] == "CHANGE COLUMN "
  {
    var head := "CHANGE COLUMN " + FromSql(d, from) + " " + d.quoteIdentifier(to.name) + " " + d.definitionForModify(to);
    var r := ChangeColumnSql(d, from, to, after, first);
    assert r == head + PositionSql(d, after, first);
    assert r[..|head|] == head;
    assert head[..14] == "CHANGE COLUMN ";
  }

  /** A from-column given as a Column is written exactly as its name would be. */
  lemma ColumnAndNameAgree(d: Driver, c: Column)
    ensures FromSql(d, Col(c)) == FromSql(d, Plain(Str(c.name)))
  {
  }

  /** With MySQL and a truthy `after`, the suffix is AFTER whatever `first` says. */
  lemma AfterBeatsFirst(d: Driver, after: Scalar)
    requires d.kind == MySQL && TruthyScalar(after)
    ensures PositionSql(d, after, true) == PositionSql(d, after, false) == " AFTER " + d.quoteIdentifier(ScalarText(after))
  {
  }

  /** A value PHP counts as false in `after` is ignored: the suffix is what `first` alone gives. */
  lemma FalsyAfterIgnored(d: Driver, after: Scalar, first: bool)
    requires !TruthyScalar(after)
    ensures PositionSql(d, after, first) == PositionSql(d, Null, first)
    ensures PositionSql(d, after, first) == (if d.kind == MySQL && first then " FIRST" else "")
  {
  }

  /** `after()` with a non-zero integer stores it as is; MySQL writes it, as text, after AFTER. */
  lemma AfterInteger(d: Driver, i: int, first: bool)
    requires d.kind == MySQL && i != 0
    ensures AfterValue(Plain(Int(i))) == Int(i)
    ensures PositionSql(d, AfterValue(Plain(Int(i))), first) == " AFTER " + d.quoteIdentifier(Strings.IntToString(i))
  {
  }

  /** Any driver other than MySQL writes no position suffix, whatever the fields hold. */
  lemma NoPositionOffMySQL(d: Driver, from: ColumnArg, to: Column, after: Scalar, first: bool)
    requires d.kind != MySQL
    ensures ChangeColumnSql(d, from, to, after, first) == ChangeColumnSql(d, from, to, Null, false)
  {
  }

  class AlterTableChangeColumn {
    const fromColumn: ColumnArg
    const toColumn: Column
    /** null until `after()` is called */
    var after: Scalar
    /** unset (false) until `first()` is called */
    var first: bool

    constructor(fromColumn: ColumnArg, toColumn: Column)
      ensures this.fromColumn == fromColumn && this.toColumn == toColumn
      ensures after == Null && !first
    {
      this.fromColumn := fromColumn;
      this.toColumn := toColumn;
      after := Null;
      first := false;
    }

    /** `after($column)`: a Column is stored by its name, anything else as it is. */
    method After(column: ColumnArg) returns (self: AlterTableChangeColumn)
      modifies this
      ensures self == this
      ensures after == AfterValue(column)
      ensures first == old(first)
    {
      match column {
        case Col(c) => after := Str(c.name);
        case Plain(v) => after := v;
      }
      self := this;
    }

    /** `first()`. */
    method First() returns (self: AlterTableChangeColumn)
      modifies this
      ensures self == this
      ensures first && after == old(after)
    {
      first := true;
      self := this;
    }

    /** `toSql($driver, $args)`; the argument ledger is left to the column definition, which is not modelled. */
    method ToSql(d: Driver, args: ArgumentArray) returns (sql: string)
      ensures sql == ChangeColumnSql(d, fromColumn, toColumn, after, first)
    {
      sql := "CHANGE COLUMN ";
      match fromColumn {
        case Plain(Str(n)) => sql := sql + d.quoteIdentifier(n);
        case Col(c) => sql := sql + d.quoteIdentifier(c.name);
        case Plain(_) =>
      }
      sql := sql + " " + d.quoteIdentifier(toColumn.name) + " " + d.definitionForModify(toColumn);
      if d.kind == MySQL {
        if TruthyScalar(after) {
          sql := sql + " AFTER " + d.quoteIdentifier(ScalarText(after));
        } else if first {
          sql := sql + " FIRST";
        }
      }
    }
  }
}
