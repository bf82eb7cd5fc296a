# SQLBuilder: a Dafny model of the CRUD query builder and its argument ledger

SQLBuilder is a PHP library that assembles SQL text from builder objects. This
project models four parts of it:

- **QueryBuilder** is a mutable builder. Its setters record a table, an
  alias, the selected columns, the insert and update maps, joins, WHERE and
  HAVING expressions, orders, group-bys, a limit, an offset and a RETURNING
  column. A `behavior` tag records which statement kind is built.
  `build()` dispatches to one of four assemblers:
  - `SELECT`
  - `INSERT`
  - `UPDATE`
  - `DELETE`

  Each assembler writes its clauses in a fixed order, phrases LIMIT/OFFSET
  per driver, keeps INSERT columns and values in lock-step, and adds
  `RETURNING` only for PostgreSQL.
- **CreateUserQuery / UserSpecification** build MySQL's
  `CREATE USER account@host [IDENTIFIED BY ... | IDENTIFIED WITH ...], ...`.
- **AlterTableChangeColumn** builds the ALTER TABLE fragment
  `CHANGE COLUMN from to <definition>`. A MySQL-only `AFTER x` / `FIRST`
  suffix follows it.
- **ArgumentArray** is the ledger of bound values. It holds an append-only
  list of binds and an insertion-ordered map from mark to value.

Modules:

- `Php` (php.dfy): PHP values, `Option`/`Result`, and the truthiness tests.
- `Strings` (strings.dfy): `join`, integer-to-text and `trim`.
- `PhpArrays` (php_arrays.dfy): a PHP array as an insertion-ordered map.
- `Drivers` (drivers.dfy): the driver and the syntax objects it renders.
- `ArgumentArrays` (argument_array.dfy): the argument ledger.
- `QuerySql` (query_sql.dfy): the text of each assembler, as functions of a
  builder snapshot.
- `QueryBuilders` (query_builder.dfy): the builder class, its setters and its
  `build*` methods. Each method with a loop is proved equal to its `QuerySql`
  function.
- `CreateUserQueries` (create_user_query.dfy).
- `AlterTableChangeColumns` (alter_table_change_column.dfy).

The driver is a record. It carries three plain fields:

- `kind`: MySQL, PostgreSQL or SQLite;
- `placeholder`;
- `trim`.

Its quoting, placeholder, inflation and rendering operations are
function-valued fields with no fixed meaning. Every property below therefore
holds for any driver implementation.

PHP truthiness is written out:

- A string (table alias, RETURNING column, password, plugin) is set when it
  is present, not `""` and not `"0"`.
- The AFTER value may be any scalar. It is set unless it is null, false, 0,
  `""` or `"0"`.
- A limit or offset is set when it is present and not 0.

### Behaviour of the code worth knowing

- Building with no table is not an error. The driver quotes a null table
  name like any other.
- RETURNING on a driver other than PostgreSQL is silently dropped, and so is
  AFTER/FIRST on a driver other than MySQL. Neither raises an error.
- Adding a mark that is already bound is not an error. Its value is
  overwritten in place and the bind is still appended to the list.
- The INSERT column list opens with `"( "`, with a space after the
  parenthesis.
- MySQL's LIMIT with an offset is phrased `" LIMIT <offset> , <limit>"`.
- An aliased select column is written with two spaces before `AS`.

## Model

| member | source | states |
|---|---|---|
| `QueryBuilders.QueryBuilder.constructor` | src/SQLBuilder/QueryBuilder.php:104-109 | a new builder selects `*` (one integer-keyed entry) with behaviour SELECT from the given table; every other piece is unset or empty |
| `QueryBuilders.QueryBuilder.Table` | src/SQLBuilder/QueryBuilder.php:118-122 | only the table changes; the builder itself is returned |
| `QueryBuilders.QueryBuilder.Update` | src/SQLBuilder/QueryBuilder.php:135-140 | only the update map and the behaviour (UPDATE) change |
| `QueryBuilders.QueryBuilder.Select` | src/SQLBuilder/QueryBuilder.php:149-158 | an array argument replaces `selected` as given; a list of names becomes an integer-keyed array; the behaviour becomes SELECT; nothing else changes |
| `QueryBuilders.QueryBuilder.Insert` | src/SQLBuilder/QueryBuilder.php:163-168 | only the insert map and the behaviour (INSERT) change |
| `QueryBuilders.QueryBuilder.Delete` | src/SQLBuilder/QueryBuilder.php:175-179 | only the behaviour (DELETE) changes |
| `QueryBuilders.QueryBuilder.Limit` | src/SQLBuilder/QueryBuilder.php:183-190 | only the limit changes, on every driver |
| `QueryBuilders.QueryBuilder.Offset` | src/SQLBuilder/QueryBuilder.php:198-205 | only the offset changes, on every driver |
| `QueryBuilders.QueryBuilder.Alias` | src/SQLBuilder/QueryBuilder.php:214-218 | only the alias changes |
| `QueryBuilders.QueryBuilder.Join` | src/SQLBuilder/QueryBuilder.php:229-235 | exactly one join of the given table and type (default `LEFT`) is appended and returned |
| `QueryBuilders.QueryBuilder.Where` | src/SQLBuilder/QueryBuilder.php:245-258 | the first call attaches a fresh empty expression; later calls return the same expression; nothing else changes |
| `QueryBuilders.QueryBuilder.WhereFromArgs` | src/SQLBuilder/QueryBuilder.php:268-278 | an empty array changes nothing; otherwise the WHERE expression (created if missing, reused if present) gains one equality per entry, in the array's order, after the conditions it already had |
| `QueryBuilders.Expression.Equal` | src/SQLBuilder/QueryBuilder.php:275 | one equality condition is appended and the same expression is returned |
| `QueryBuilders.QueryBuilder.Returning` | src/SQLBuilder/QueryBuilder.php:288-292 | only the RETURNING column changes |
| `QueryBuilders.QueryBuilder.Order` | src/SQLBuilder/QueryBuilder.php:301-305 | exactly one (column, ordering) pair is appended, with ordering `desc` by default |
| `QueryBuilders.QueryBuilder.OrderBy` | src/SQLBuilder/QueryBuilder.php:309-313 | the same effect as `Order` |
| `QueryBuilders.QueryBuilder.GroupBy` | src/SQLBuilder/QueryBuilder.php:321-330 | several columns replace the group-by list; a single column is appended to it |
| `QueryBuilders.QueryBuilder.Having` | src/SQLBuilder/QueryBuilder.php:338-344 | every call attaches a fresh, empty HAVING expression; WHERE is untouched |
| `QueryBuilders.QueryBuilder.Build` | src/SQLBuilder/QueryBuilder.php:351-374 | each of the four behaviours yields exactly its own assembler's text; any other behaviour (0 included) fails with no text, and only those fail |
| `QueryBuilders.QueryBuilder.BuildSelectColumns` | src/SQLBuilder/QueryBuilder.php:399-413 | the loop yields the `", "`-join of one rendering per selected entry, in order: string key `quote(k)  AS v`, integer key `quote(v)` |
| `QueryBuilders.QueryBuilder.BuildDelete` | src/SQLBuilder/QueryBuilder.php:415-427 | `DELETE FROM table ` + WHERE, then LIMIT only on MySQL and SQLite, trimmed if the driver trims |
| `QueryBuilders.QueryBuilder.BuildUpdate` | src/SQLBuilder/QueryBuilder.php:430-447 | `UPDATE table SET` + setters + joins + WHERE, then LIMIT only on MySQL and SQLite |
| `QueryBuilders.QueryBuilder.BuildSelect` | src/SQLBuilder/QueryBuilder.php:453-475 | the SELECT clauses in the order columns, table, joins, WHERE, GROUP BY, HAVING, ORDER BY, LIMIT |
| `QueryBuilders.QueryBuilder.BuildInsertLists` | src/SQLBuilder/QueryBuilder.php:486-503 | both loops build the column list and the value list entry by entry from the insert map, in its order |
| `QueryBuilders.QueryBuilder.BuildInsert` | src/SQLBuilder/QueryBuilder.php:480-515 | `INSERT INTO table ( cols) VALUES (vals)`, with RETURNING only on PostgreSQL |
| `QueryBuilders.QueryBuilder.BuildJoinSql` | src/SQLBuilder/QueryBuilder.php:517-524 | the loop yields the joins' texts concatenated in the order the joins were added |
| `QueryBuilders.QueryBuilder.BuildOrderSql` | src/SQLBuilder/QueryBuilder.php:526-539 | empty for no orders, else ` ORDER BY ` and `quote(column) ordering` per pair, comma-joined in order |
| `QueryBuilders.QueryBuilder.BuildSetterSql` | src/SQLBuilder/QueryBuilder.php:576-601 | one `column = value` per update entry, in order; the placeholder and inline forms are both covered |
| `QuerySql.LimitSql` | src/SQLBuilder/QueryBuilder.php:541-562 | the text is empty exactly when the driver is SQLite or no limit is set; PostgreSQL gives ` LIMIT l OFFSET o`, MySQL ` LIMIT o , l`, and a limit alone ` LIMIT l` |
| `QuerySql.LimitSqlDeterminesArguments` | src/SQLBuilder/QueryBuilder.php:544-557 | on MySQL and PostgreSQL, equal LIMIT texts come from the same limit, both or neither with an offset, and the same offset: the text can be read back |
| `QuerySql.LimitPhrasingExample` | src/SQLBuilder/QueryBuilder.php:544-560 | limit 10, offset 5: MySQL ` LIMIT 5 , 10`, PostgreSQL ` LIMIT 10 OFFSET 5`, SQLite nothing; an offset of 0 or a missing limit counts as unset |
| `QuerySql.ListSelectQuotesEachName` | src/SQLBuilder/QueryBuilder.php:408-410 | a list-form select renders each name quoted, in order, with no alias |
| `QuerySql.MappedSelectShowsAlias` | src/SQLBuilder/QueryBuilder.php:405-407 | a `column => alias` entry renders as `quote(column)  AS alias` |
| `QuerySql.InsertListsInLockStep` | src/SQLBuilder/QueryBuilder.php:488-503 | the column and value lists are as long as the insert map, and entry i of both is about entry i's column (the value for an integer key); a placeholder per column, or the inflated value |
| `QuerySql.PgsqlUpdateDeleteIgnoreLimit` | src/SQLBuilder/QueryBuilder.php:420-422 | on PostgreSQL, UPDATE and DELETE text is the same whatever the limit and offset |
| `QuerySql.UpdateDeleteEndWithLimit` | src/SQLBuilder/QueryBuilder.php:440-442 | on MySQL and SQLite (untrimmed), UPDATE and DELETE text is the text without limit followed by the LIMIT clause |
| `QuerySql.ReturningOnlyOnPgsql` | src/SQLBuilder/QueryBuilder.php:508-510 | RETURNING leaves INSERT text unchanged unless the driver is PostgreSQL and a column is set, and then it is exactly the suffix ` RETURNING quote(col)` |
| `QuerySql.BareSelect` | src/SQLBuilder/QueryBuilder.php:453-475 | with no join, WHERE, GROUP BY, HAVING, ORDER BY or limit, SELECT is `SELECT cols FROM table ` alone |
| `QuerySql.OrderGroupEmptyIff` | src/SQLBuilder/QueryBuilder.php:526-539 | ORDER BY and GROUP BY text is empty if and only if its list is empty |
| `Strings.JoinSnoc` | src/SQLBuilder/QueryBuilder.php:412 | joining one more part appends the separator and the part |
| `Strings.NatToString` | src/SQLBuilder/QueryBuilder.php:546 | the decimal text of a number is non-empty, all digits, with no leading zero |
| `Strings.ParseNatToString` | src/SQLBuilder/QueryBuilder.php:546 | reading back the decimal text of n gives n |
| `Strings.ParseIntToString` | src/SQLBuilder/QueryBuilder.php:553 | the text of any integer, sign included, is well formed and reads back as that integer |
| `Strings.IntToStringFacts` | src/SQLBuilder/QueryBuilder.php:555 | the text of an integer holds no space, and distinct integers have distinct texts |
| `Strings.TrimLeft` | src/SQLBuilder/QueryBuilder.php:424-425 | a suffix of the input, with only strippable characters removed and none left at its start |
| `Strings.TrimRight` | src/SQLBuilder/QueryBuilder.php:444-445 | a prefix of the input, with only strippable characters removed and none left at its end |
| `Strings.Trim` | src/SQLBuilder/QueryBuilder.php:472-473 | a slice `s[i..j]` of the input such that everything before `i` and from `j` on is strippable, with no strippable character left at either end |
| `Strings.TrimIdempotent` | src/SQLBuilder/QueryBuilder.php:512-513 | trimming twice is trimming once |
| `PhpArrays.Lookup` | src/SQLBuilder/ArgumentArray.php:52 | a lookup finds nothing exactly when the key is absent; otherwise it is the value stored at the key's position |
| `PhpArrays.Put` | src/SQLBuilder/ArgumentArray.php:42 | a present key keeps the key order as it was; a new key is appended last |
| `PhpArrays.PutLookup` | src/SQLBuilder/ArgumentArray.php:42 | after the assignment the key reads as the new value and every other key as before |
| `PhpArrays.PutUnique` | src/SQLBuilder/ArgumentArray.php:42 | assignment keeps the keys unique |
| `PhpArrays.IndexOf` | src/SQLBuilder/ArgumentArray.php:57 | the position of the first entry with that key |
| `PhpArrays.Remove` | src/SQLBuilder/ArgumentArray.php:57 | the key is gone; removing an absent key changes nothing |
| `PhpArrays.RemoveLookup` | src/SQLBuilder/ArgumentArray.php:57 | every other key reads as before the removal |
| `PhpArrays.RemoveConcat` | src/SQLBuilder/ArgumentArray.php:57 | unsetting a key in two arrays laid end to end unsets it in each half |
| `PhpArrays.RemoveInPlace` | src/SQLBuilder/ArgumentArray.php:57 | with unique keys, removal takes out exactly that key's entry and keeps the rest in order |
| `PhpArrays.RemoveUnique` | src/SQLBuilder/ArgumentArray.php:57 | removal keeps the keys unique |
| `ArgumentArrays.ArgsOfKeys` | src/SQLBuilder/ArgumentArray.php:31-34 | the map's keys are exactly the marks that were added |
| `ArgumentArrays.ArgsOfSize` | src/SQLBuilder/ArgumentArray.php:31-34 | the map never has more entries than there are binds, and has exactly as many if and only if no mark was added twice |
| `ArgumentArrays.ReAddKeepsPlace` | src/SQLBuilder/ArgumentArray.php:33 | a mark added again keeps its place in the map and takes the later value |
| `ArgumentArrays.ArgumentArray.constructor` | src/SQLBuilder/ArgumentArray.php:20-25 | a new ledger has no binds and an empty map |
| `ArgumentArrays.ArgumentArray.GetIterator` | src/SQLBuilder/ArgumentArray.php:27-29 | iterates the map in insertion order |
| `ArgumentArrays.ArgumentArray.Add` | src/SQLBuilder/ArgumentArray.php:31-34 | the bind list grows by exactly this bind; the map takes the mark's value in place or at the end; keys stay unique; the map stays the fold of the bind list |
| `ArgumentArrays.ArgumentArray.GetBindings` | src/SQLBuilder/ArgumentArray.php:36-38 | the bind list |
| `ArgumentArrays.ArgumentArray.OffsetSet` | src/SQLBuilder/ArgumentArray.php:40-43 | the map is assigned; the bind list is unchanged |
| `ArgumentArrays.ArgumentArray.OffsetExists` | src/SQLBuilder/ArgumentArray.php:45-48 | true if and only if the key is present and its value is not null |
| `ArgumentArrays.ArgumentArray.OffsetGet` | src/SQLBuilder/ArgumentArray.php:50-53 | the stored value, or null for an absent key |
| `ArgumentArrays.ArgumentArray.OffsetUnset` | src/SQLBuilder/ArgumentArray.php:55-58 | the key is removed from the map; the bind list is unchanged; keys stay unique |
| `ArgumentArrays.ArgumentArray.GetArgs` | src/SQLBuilder/ArgumentArray.php:60-63 | the map itself |
| `ArgumentArrays.ArgumentArray.ToArray` | src/SQLBuilder/ArgumentArray.php:65-67 | the same map as `GetArgs` |
| `CreateUserQueries.Fragments` | src/SQLBuilder/Query/MySQLQuery/CreateUserQuery.php:113-122 | one fragment per specification, in order |
| `CreateUserQueries.Values` | src/SQLBuilder/Query/MySQLQuery/CreateUserQuery.php:103 | one value per specification object, in order |
| `CreateUserQueries.PasswordWins` | src/SQLBuilder/Query/MySQLQuery/CreateUserQuery.php:115-117 | with a truthy password the fragment is `account@host IDENTIFIED BY quote(pass)` whatever the plugin |
| `CreateUserQueries.PluginWithoutPassword` | src/SQLBuilder/Query/MySQLQuery/CreateUserQuery.php:118-120 | without a password a truthy plugin gives `IDENTIFIED WITH quoteIdentifier(plugin)`; with neither there is no IDENTIFIED clause |
| `CreateUserQueries.CreateUserAppend` | src/SQLBuilder/Query/MySQLQuery/CreateUserQuery.php:121-123 | one more specification extends the statement by `", "` and its fragment |
| `CreateUserQueries.SingleUser` | src/SQLBuilder/Query/MySQLQuery/CreateUserQuery.php:123 | a single specification gives `CREATE USER ` followed by its fragment |
| `CreateUserQueries.UserSpecification.constructor` | src/SQLBuilder/Query/MySQLQuery/CreateUserQuery.php:44-57 | host `localhost`, no password and no plugin, and the given account and parent |
| `CreateUserQueries.UserSpecification.Account` | src/SQLBuilder/Query/MySQLQuery/CreateUserQuery.php:59-63 | only the account changes; the same specification is returned |
| `CreateUserQueries.UserSpecification.Host` | src/SQLBuilder/Query/MySQLQuery/CreateUserQuery.php:65-68 | only the host changes; the same specification is returned |
| `CreateUserQueries.UserSpecification.IdentifiedBy` | src/SQLBuilder/Query/MySQLQuery/CreateUserQuery.php:70-73 | only the password changes; the same specification is returned |
| `CreateUserQueries.UserSpecification.IdentifiedWith` | src/SQLBuilder/Query/MySQLQuery/CreateUserQuery.php:75-78 | only the plugin changes; the same specification is returned |
| `CreateUserQueries.UserSpecification.GetAccount` | src/SQLBuilder/Query/MySQLQuery/CreateUserQuery.php:80-82 | the account |
| `CreateUserQueries.UserSpecification.GetPassword` | src/SQLBuilder/Query/MySQLQuery/CreateUserQuery.php:84-86 | the password |
| `CreateUserQueries.UserSpecification.GetHost` | src/SQLBuilder/Query/MySQLQuery/CreateUserQuery.php:88-90 | the host |
| `CreateUserQueries.UserSpecification.GetAuthPlugin` | src/SQLBuilder/Query/MySQLQuery/CreateUserQuery.php:92-94 | the plugin |
| `CreateUserQueries.CreateUserQuery.constructor` | src/SQLBuilder/Query/MySQLQuery/CreateUserQuery.php:103 | a new query has no specifications |
| `CreateUserQueries.CreateUserQuery.User` | src/SQLBuilder/Query/MySQLQuery/CreateUserQuery.php:105-109 | exactly one fresh specification (this account, host `localhost`, no password or plugin) is appended last and returned; earlier specifications keep their values |
| `CreateUserQueries.CreateUserQuery.ToSql` | src/SQLBuilder/Query/MySQLQuery/CreateUserQuery.php:111-124 | the loop yields `CREATE USER ` and the fragments joined by `", "` in order; the argument ledger is unchanged |
| `AlterTableChangeColumns.ChangeColumnShape` | SQLBuilder/Universal/Syntax/AlterTableChangeColumn.php:44-52 | the text starts with `CHANGE COLUMN `, then the from-name, ` `, the quoted to-name, ` ` and the definition |
| `AlterTableChangeColumns.ColumnAndNameAgree` | SQLBuilder/Universal/Syntax/AlterTableChangeColumn.php:45-49 | a from-column given as a Column is written as its name would be |
| `AlterTableChangeColumns.AfterBeatsFirst` | SQLBuilder/Universal/Syntax/AlterTableChangeColumn.php:54-60 | on MySQL with a truthy AFTER value, the suffix is ` AFTER quote(x)` whether FIRST is set or not |
| `AlterTableChangeColumns.FalsyAfterIgnored` | SQLBuilder/Universal/Syntax/AlterTableChangeColumn.php:54-60 | an AFTER value PHP counts as false is ignored: on MySQL the suffix is ` FIRST` exactly when FIRST is set, elsewhere nothing |
| `AlterTableChangeColumns.AfterInteger` | SQLBuilder/Universal/Syntax/AlterTableChangeColumn.php:27-56 | `after()` with a non-zero integer stores it unchanged, and MySQL writes ` AFTER ` and the quoted decimal text of that integer |
| `AlterTableChangeColumns.NoPositionOffMySQL` | SQLBuilder/Universal/Syntax/AlterTableChangeColumn.php:54 | on any other driver the text is the same whatever AFTER and FIRST hold |
| `AlterTableChangeColumns.AlterTableChangeColumn.constructor` | SQLBuilder/Universal/Syntax/AlterTableChangeColumn.php:22-25 | keeps both columns; AFTER and FIRST start unset |
| `AlterTableChangeColumns.AlterTableChangeColumn.After` | SQLBuilder/Universal/Syntax/AlterTableChangeColumn.php:27-34 | a Column is stored by its name, any other value as it is; FIRST is untouched; the object is returned |
| `AlterTableChangeColumns.AlterTableChangeColumn.First` | SQLBuilder/Universal/Syntax/AlterTableChangeColumn.php:36-40 | sets FIRST, leaves AFTER; the object is returned |
| `AlterTableChangeColumns.AlterTableChangeColumn.ToSql` | SQLBuilder/Universal/Syntax/AlterTableChangeColumn.php:42-62 | the fragment for the object's current fields, with the position suffix only on MySQL |

## Left out

- The driver classes (`getQuoteTableName`, `getQuoteColumn`, `quoteIdentifier`, `quote`, `getPlaceHolder`, `inflate`) are not part of this model. They are uninterpreted fields of the driver record, so no escaping rule is specified.
- `Expression`, `JoinExpression` and `Column::buildDefinitionSqlForModify` are not part of this model, and their texts are uninterpreted driver fields:
  - an Expression is kept only as the list of `equal()` conditions added through the builder;
  - a join is kept only as its table and type; its `ON` conditions are not modelled.
- Any effect of `buildDefinitionSqlForModify` on the ArgumentArray is not modelled. `AlterTableChangeColumns.AlterTableChangeColumn.ToSql` and `CreateUserQueries.CreateUserQuery.ToSql` take the ledger without changing it.
- The driver comes in through the QueryBuilder constructor. In PHP it is a public field the caller assigns.
- `where($args)` with a non-empty array forwards to `whereFromArgs`. It is modelled as the two separate methods `Where` and `WhereFromArgs`.
- `UserSpecification::__call`, which forwards unknown calls to the parent query, is left out. Dynamic dispatch has no counterpart here; the `parent` back-reference is kept.
- The `is_array($v)` branches of `buildSetterSql` concatenate a PHP array into the text, which is runtime-specific. Update values are scalars.
- Null `insert` and `update` maps are treated as empty ones, since iterating over null yields nothing.
- PHP's key normalisation is not modelled. A numeric string such as `"1"` would become an integer key; here keys are taken as given.
- Values are limited to strings, integers, booleans and null. Floats and objects are not modelled.
- The notice PHP emits when `offsetGet` reads a missing key is not modelled. The result is null.
- `QueryBuilders.QueryBuilder.Select`: requires at least one argument in the list form. PHP reads `$columns[0]`, which is undefined for a call with no arguments.
- `QueryBuilders.QueryBuilder.GroupBy`: requires at least one column, the one named parameter of `groupBy($column)`.
- `CreateUserQueries.UserSpecification.Account`: accounts and hosts are strings, although PHP accepts any value there.
- `quoteIdentifier` is modelled as taking a string. A non-string AFTER value reaches it as its PHP string form (`AlterTableChangeColumns.ScalarText`); the driver code is not part of this model.
- `AlterTableChangeColumns.AlterTableChangeColumn.After`: arrays and objects other than a Column are not modelled as arguments; any scalar is.
- `AlterTableChangeColumns.AlterTableChangeColumn.First`: only sets the flag to true; the field starts false rather than null, which PHP treats alike.
- src/SQLBuilder/Testing/PDOQueryTestCase.php is not part of this model. It opens database connections, reads files and executes SQL.
