# sql-dialect in Dafny

A model of the core of `sql-dialect`, a JavaScript library that builds SQL
text from JavaScript values. It has two halves.

- **Dialects.** A dialect (`Dialect`, with the `MySql`, `PostgreSql` and
  `Sqlite` variants) knows how to escape identifiers, quote and cast
  values, and compile condition trees. A condition tree is made of nested
  arrays and objects whose keys are operators (`:and`, `:in`,
  `:between`, `()`), formatters (`:name`, `:value`, `:plain`) or field
  names. A dialect also keeps a registry of column types (`type`), of
  native-to-abstract type mappings (`map`/`mapped`), of column and table
  meta syntax, and of constraint templates. It turns a field description
  into a column definition (`field`, `column`).
- **Statements.** The statement builders (`Select`, `Insert`, `Update`,
  `Delete`, `Truncate`, `CreateTable`, `DropTable` and their MySQL,
  PostgreSQL and SQLite variants) collect their clauses through chained
  setters. `toString()` renders them through the dialect they hold.

JavaScript values are the datatype `Nodes.Node`: null, booleans,
integers, strings, arrays, objects kept as ordered entry lists, and a
`Raw` node for an object whose `toString()` is opaque (a nested statement).
The JavaScript `Map`s and plain objects that the source mutates are
ordered association lists (`Ordered`), with insertion order kept.

The modules follow the source:
- `Identifiers`, `Casting`, `Operators`, `Compiler` and `Columns` hold the
  dialect's pure logic as functions. `CompilerProps` holds the properties
  of the compiler.
- `Vendors` holds the vendor tables and `_column` renderers.
- `Dialects` holds the `Dialect` class, whose registries are mutable fields.
- `Statements`, `Selects`, `CreateTables`, `Updates`, `Inserts`, `Deletes`,
  `DropTables` and `Truncates` hold one class per statement. Each class
  has its parts as fields and setters that modify them. Every `toString`
  is a method proved equal to a rendering function, and the lemmas are
  stated about those functions.
- `MySqlStatements`, `PostgreSqlStatements` and `SqliteStatements` hold
  the vendor statements. A JavaScript subclass is modelled by composition:
  the vendor class holds the base statement object it extends.

Thrown exceptions are the error side of `Wrappers.Result` (`Err(e)`).
Both the library's own `Error`s and the `TypeError`s the JavaScript
runtime raises are modelled this way.

Several facts are parameters rather than code:
- The caller-supplied quoter and caster hooks are function values.
- The placeholder-filling template library (`string-placeholder`) is the
  `fill` function value a dialect is constructed with.
- The `schemas` and `aliases` options are passed in.

## Model

| member | source | states |
|---|---|---|
| Identifiers.Undot | src/dialect.js:712-720 | a dotted name splits at its last dot into a prefix and a dot-free field that rebuild it; a name without a dot has an empty prefix |
| Identifiers.NameStrPlain | src/dialect.js:685-704 | a name without a dot, with no alias for the empty prefix, is escaped whole |
| Identifiers.NameStrQualified | src/dialect.js:689-693 | a dotted name escapes its (possibly aliased) prefix and its field separately, joined by a dot |
| Identifiers.PrefixName | src/dialect.js:504-507 | a name that already has a qualifier is kept; a bare name gets the prefix and a dot |
| Identifiers.PrefixNameIdempotent | src/dialect.js:504-507 | prefixing a prefixed name again changes nothing |
| Casting.EscapeTextRoundTrip | src/dialect.js:732-752 | the backslash escaping that `quote()` computes loses nothing: the escaped text reads back to the original string |
| Casting.ValueRoundTrip | src/dialect.js:763-792 | without hooks, NULL, booleans, integers and strings without a single quote render as SQL literals that read back to the same value |
| Casting.QuoteUnescaped | src/dialect.js:728-754 | as written, `quote()` returns the raw text between quotes, so a string holding a single quote not followed by another renders as a literal that does not read back |
| Casting.QuoteUnescapedExamples | src/dialect.js:753 | the string `'` renders as `'''`, and the string `x' OR '1'='1` renders as text that is not a single literal |
| Casting.ValueArrayOfInts | src/dialect.js:775-789 | an array of integers renders as the numbers joined by commas inside braces, with or without a quoter |
| Operators.DefaultEntries | src/dialect.js:138-183 | `=` and `!=` carry `:is` and `:is not` for NULL, `:and` and `:or` join infix, `:between` and `:in` use their builders, and `()` the `(%s)` format |
| Operators.VendorEntries | src/dialect/postgre-sql.js:25-46 | the vendor operators add the PostgreSQL `:concat` and `:regexp` formats, the MySQL `#` format and the set-operation builder for `:union` and `:union all` |
| Operators.NullComparison | src/dialect.js:572 | an operator with a NULL alternative renders `a IS NULL` style when the second part is the NULL literal, and `a op b` otherwise |
| Operators.KeywordForms | src/dialect.js:573 | a keyword operator is written upper-cased without its colon, a symbolic one as it is |
| Operators.BuilderBeatsFormat | src/dialect.js:574-580 | a builder takes priority over a format |
| Operators.FormatIgnoresKeyword | src/dialect.js:578-581 | with a format and no builder, the operator's keyword and NULL alternative play no part |
| Operators.FormatFillsFirstSlot | src/dialect.js:578-580 | a format has the comma-joined parts put in place of its first `%s` only |
| Operators.ConcatKeepsSecondSlot | src/dialect/postgre-sql.js:36 | as written, the two-slot `:concat` format gets both operands in its first slot and keeps the second `%s` as text |
| Operators.FormatReadsDollarPattern | src/dialect.js:579 | a `$&` in the parts is read as the replacement pattern and becomes the matched `%s` |
| Operators.SetOperations | src/dialect.js:207-209 | the set builder joins the queries with `UNION` or `UNION ALL` |
| Operators.BetweenForm | src/dialect.js:203-206 | between renders the field, `BETWEEN`, the first bound, `AND` and the last bound |
| Operators.InForm | src/dialect.js:199-202 | the list builder renders the field, `IN` and the other parts in parentheses |
| Operators.FunctionCallBuild | src/dialect.js:192-195 | an unregistered `f()` renders as the upper-cased call of `f` without its colon, with the parts as its arguments |
| Compiler.NameOfPlain | src/dialect.js:685-704 | a name without a dot renders as the escaped name |
| Compiler.PrefixList | src/dialect.js:466-495 | prefixing keeps one entry per name |
| Compiler.Prefix | src/dialect.js:466-495 | the loop computes the prefixed names of a name or list of names |
| Compiler.ConditionParts | src/dialect.js:601-626 | the loop computes the SQL parts of a condition list, threading the walk state and stopping at the first error |
| Compiler.Escapes | src/dialect.js:415-456 | computes the escaped names of a name or list, each once, in first-seen order |
| CompilerProps.EscapesFromAddsRendered | src/dialect.js:415-456 | the escape map adds each rendered name once, in first-seen order, or fails with the first error |
| CompilerProps.NamesAreDistinct | src/dialect.js:401-403 | `names()` lists the rendered names without duplicates, each rendered name exactly once |
| CompilerProps.NamesRepeat | src/dialect.js:401-456 | a field listed twice is rendered once |
| CompilerProps.AliasForms | src/dialect.js:436-447 | `{'t.f': 'a'}` and `{t: [{f: 'a'}]}` both render `"t"."f" AS "a"` |
| CompilerProps.AliasDotted | src/dialect.js:443-447 | a dotted key with a string alias renders the escaped qualified name `AS` the escaped alias |
| CompilerProps.AliasGroup | src/dialect.js:436-441 | a table key holding a list of aliased fields renders each field qualified by the escaped table |
| CompilerProps.GroupMember | src/dialect.js:443-447 | under a prefix, an aliased field renders as the prefix, a dot, the escaped field `AS` the escaped alias |
| CompilerProps.PrefixIdempotent | src/dialect.js:466-495 | prefixing a list of names twice gives what prefixing once gives, and keeps it prefixable |
| CompilerProps.PrefixOneIdempotent | src/dialect.js:473-492 | prefixing one name, keyed field or operator entry twice gives what prefixing once gives |
| CompilerProps.PrefixedKeyIsField | src/dialect.js:485-487 | a prefixed field key is still not an operator |
| CompilerProps.PrefixNames | src/dialect.js:473-491 | a bare name and a keyed field get the prefix, a qualified name is kept, values are left alone when not prefixing, and a `:name` operand is prefixed |
| CompilerProps.ConditionsPrepend | src/dialect.js:525-544 | empty conditions render nothing, and a prefix is written before a non-empty result only |
| CompilerProps.ConditionsAnd | src/dialect.js:533-544 | by default the condition parts are joined with `AND` |
| CompilerProps.UnknownNames | src/dialect.js:565-567 | an unregistered colon operator fails with the unknown-operator error, and an unregistered formatter with the unknown-formatter error |
| CompilerProps.UnknownJoinOperator | src/dialect.js:565-567 | an unregistered joining operator fails however the conditions look |
| CompilerProps.GroupedOperator | src/dialect.js:559-563 | a registered operator called with `()` renders the operator's result in parentheses |
| CompilerProps.FunctionCallOperator | src/dialect.js:564 | an unregistered `f()` renders as a function call over the rendered parts |
| CompilerProps.FirstKeyOnly | src/dialect.js:613-620 | only the first key of a condition object is read |
| CompilerProps.PartsOfInts | src/dialect.js:601-626 | a list of integers renders as their decimal texts |
| CompilerProps.OperatorOnField | src/dialect.js:656-659 | an operator on a field renders with the escaped field name as its first part |
| CompilerProps.FieldScalarPath | src/dialect.js:643-645 | a field with a scalar value is the `=` comparison of the field and the value |
| CompilerProps.FieldOperatorPath | src/dialect.js:647-659 | a field with an object value uses the object's operator, or `IN` when the key is not an operator |
| CompilerProps.FieldNull | src/dialect.js:643-644 | `{field: null}` renders `field IS NULL` |
| CompilerProps.FieldEquals | src/dialect.js:643-644 | `{field: value}` renders `field = value` with the value as a literal |
| CompilerProps.FieldIn | src/dialect.js:652-654 | `{field: [1, 2]}` renders `field IN (1, 2)` |
| CompilerProps.FieldBetween | src/dialect.js:656-659 | `{field: {':between': [lo, hi]}}` renders `field BETWEEN lo AND hi` |
| CompilerProps.FieldFormatter | src/dialect.js:650-651 | `{field: {':plain': x}}` renders `field = x` with x unquoted |
| Columns.MapAddOrder | src/dialect.js:295-303 | a new type is put first among a native type's candidates; an existing one keeps its options; the others are unchanged |
| Columns.ScoreBounds | src/dialect.js:330-335 | a candidate's score lies between minus and plus its number of options, and is the maximum exactly when every option matches strictly |
| Columns.Pick | src/dialect.js:328-340 | the chosen candidate has the highest score, which is not negative, and no later candidate reaches it; none is chosen when every score is negative |
| Columns.MappedWinner | src/dialect.js:311-345 | an unregistered native type, or one whose candidates all score negative, maps to `string`; otherwise the last best-scoring candidate wins |
| Columns.EarliestWinsTie | src/dialect.js:295-340 | of two types registered for a native type with equal scores, the one registered first wins |
| Columns.DefaultKeys | src/dialect.js:365-373 | a field definition starts from seven defaults: name, type, length, precision, serial, default, null |
| Columns.FieldErrors | src/dialect.js:353-363 | a field without a name fails with the missing-name error, and one without a native type whose type is undefined fails with the unknown-type error; otherwise it succeeds |
| Columns.FieldContents | src/dialect.js:353-374 | every property of a formatted field is its own, else its type's (when it has no native type), else the default |
| Columns.SeededGet | src/dialect.js:357-363 | before the defaults, a field's properties are its own, else its type's when it has no native type |
| Columns.FieldIdempotent | src/dialect.js:353-374 | formatting a formatted field again changes nothing |
| Columns.FieldHasDefaults | src/dialect.js:365-373 | a formatted field has every default property |
| Columns.PrepareColumnEffect | src/dialect.js:802-812 | a numeric column with an empty default becomes nullable without a default, its native type is lowercased, and nothing else changes; a non-string native type is a type error |
| Columns.PrepareFieldEffect | src/dialect.js:805-810 | the same adjustment on an already formatted field |
| Columns.FormatColumnForms | src/dialect.js:822-831 | a type gets its truthy length and precision in parentheses, comma-separated, and nothing without them |
| Columns.MetaPartsDefined | src/dialect.js:868-873 | names without a meta definition render nothing |
| Columns.MetaOne | src/dialect.js:841-858 | a meta restricted to one name renders that name's meta or nothing |
| Columns.ConstraintResult | src/dialect.js:896-937 | an unknown constraint, or one without a template, fails with the invalid-template error; otherwise the result is the trimmed template fill of the collected data |
| Columns.IndexSlotKept | src/dialect.js:906-913 | without `key` or `index` entries the index slot is not touched |
| Columns.IndexSlot | src/dialect.js:908-913 | a `key` or `index` entry sets the index slot to the definition's text when it has one |
| Columns.ColumnSlots | src/dialect.js:926-932 | column lists become the escaped names joined by commas, and the constraint name is the escaped underscore-joined columns |
| Vendors.RegisteredEntry | src/dialect.js:295-303 | after a sequence of `map()` calls a native type is registered exactly when some call named it, with the candidates those calls produce |
| Vendors.SingleCandidate | src/dialect.js:311-345 | a native type mapped once without options maps to that type |
| Vendors.TinyintEntry | src/dialect/my-sql.js:126-127 | MySQL's `tinyint` has `integer` before `boolean` with length 1 |
| Vendors.TinyintChoice | src/dialect.js:328-344 | with those candidates, length 1 maps to `boolean`, other lengths and the bare type to `integer` |
| Vendors.TinyintMapping | src/dialect/my-sql.js:126-127 | in MySQL, `tinyint(1)` maps to `boolean` and any other `tinyint` to `integer` |
| Vendors.TimestamptzMapping | src/dialect/postgre-sql.js:133 | in PostgreSQL, `timestamptz` maps to `datetime` |
| Vendors.UnmappedType | src/dialect.js:322-326 | a native type no `map()` call names maps to `string` |
| Vendors.SerialTails | src/dialect/my-sql.js:161-176 | a serial column renders `NOT NULL AUTO_INCREMENT` in MySQL and `NOT NULL` in PostgreSQL and SQLite, with no null flag or default |
| Vendors.MySqlDefault | src/dialect/my-sql.js:163-176 | a MySQL non-serial column renders its null flag and its default (formatted with the states `{field}`), except for a null default or a blob native type |
| Vendors.PostgreSqlSqliteDefault | src/dialect/postgre-sql.js:170-183 | a PostgreSQL or SQLite non-serial column renders its null flag and its default (formatted with the states `{field}`) unless the default is null |
| Vendors.FloatWithPrecision | src/dialect/my-sql.js:150-154 | a float with a precision is rendered with the vendor's decimal type |
| Vendors.DefaultFormatter | src/dialect/my-sql.js:165-172 | a default given as `{':plain': x}` renders `DEFAULT x`; an empty object asks for an unknown formatter |
| Vendors.DefaultSeesField | src/dialect/my-sql.js:167-172 | a non-object default is cast through `:value` with the states `{field: field}`, so a configured caster receives the column's field definition and nothing else |
| Vendors.DefaultCastByFieldType | src/dialect/sqlite.js:126-133 | with a caster that reads `states.field.type`, the default `'1'` renders `DEFAULT 1` for an integer column and `DEFAULT '1'` for a string column |
| Vendors.AnsiHasNoColumn | src/dialect.js:802-812 | the base dialect has no column renderer, so `column()` fails |
| Vendors.SqliteSerialRender | src/dialect/sqlite.js:103-137 | an SQLite serial integer `id` renders `"id" integer NOT NULL` |
| Vendors.PlainHead | src/dialect/sqlite.js:116 | a column head is the escaped name and the native type |
| Vendors.SqliteCollate | src/dialect/sqlite.js:64-68 | SQLite's collation is quoted |
| Vendors.BooleanDefault | src/dialect.js:771-772 | a boolean default renders `DEFAULT TRUE` or `DEFAULT FALSE` |
| Dialects.StatementKindOf | src/dialect.js:383-392 | a registered statement name gives its statement class; any other name fails with the unsupported-statement error |
| Dialects.Dialect.constructor | src/dialect.js:42-131 | a dialect holds its vendor's escape, operators, meta and constraints, the given hooks, the configured types overridden by the vendor's, and the vendor's `map()` calls registered in order |
| Dialects.Dialect.RegisterMaps | src/dialect/my-sql.js:98-130 | the loop registers the `map()` calls in order |
| Dialects.Dialect.SetQuoter | src/dialect.js:251-256 | a given quoter replaces the current one; the current one is returned |
| Dialects.Dialect.SetCaster | src/dialect.js:264-269 | a given caster replaces the current one; the current one is returned |
| Dialects.Dialect.Type | src/dialect.js:278-286 | a given definition is stored; an undefined type fails with the unknown-type error, otherwise its definition is returned |
| Dialects.Dialect.Map | src/dialect.js:295-303 | registers one candidate type for a native type |
| Dialects.Dialect.Mapped | src/dialect.js:311-345 | the loop finds the abstract type the registry maps a column to |
| Dialects.Dialect.ScoreOf | src/dialect.js:332-335 | the loop computes a candidate's score |
| Dialects.Dialect.Meta | src/dialect.js:841-858 | the loop renders the meta of the data, space-separated |
| Dialects.Dialect.Constraint | src/dialect.js:896-938 | the loop fills the constraint data and renders the trimmed template |
| Statements.EnabledFlags | src/statement.js:213-221 | a flag is listed by `_buildFlags` exactly when some entry stores it as enabled |
| Statements.SetNewFlag | src/statement.js:78-81 | setting a flag never set before appends it to the rendered flags when enabled and renders nothing for it otherwise |
| Statements.FlagsSnoc | src/statement.js:213-221 | the rendered flags of a map with one more entry are the earlier ones followed by that entry's `_buildFlag` |
| Statements.FlagRendered | src/statement.js:78-81 | whatever was stored before, a flag is rendered after `setFlag` exactly when it was set to a truthy value |
| Statements.MatchFromSound | src/statement.js:4 | a match of the lazy prefix at `k` is a prefix without line terminators, followed by white space that ends at a direction |
| Statements.OrderMatchSound | src/statement.js:4 | a match splits the text into a column without line terminators, a non-empty run of white space, an `asc`/`desc` direction in any case, and the rest |
| Statements.OrderMatchComplete | src/statement.js:4 | every text of the form column, white space, direction is matched, with a column no longer than the given one |
| Statements.PlainColumnAscending | src/statement.js:184-191 | a column name without white space is ordered `ASC` |
| Statements.ColumnDescending | src/statement.js:184-188 | `'name DESC'` gives the column `name` and the direction as written |
| Statements.OrderOverwrites | src/statement.js:145-147 | re-ordering a column already present overwrites its direction in place; a new column is appended; other columns keep their direction |
| Statements.CtesRecorded | src/statement.js:116-131 | new, distinct names are all recorded after the earlier ones, in order, and the call succeeds |
| Statements.CteDuplicate | src/statement.js:121-128 | the first name already recorded stops the call with the duplicate error, and the names before it stay recorded |
| Statements.CteForm | src/statement.js:261-272 | with queries, the prefix is `WITH`, the comma-joined `name AS (query)` items and one trailing space; the trim removes nothing since every item ends with `)` |
| Statements.Statement.constructor | src/statement.js:14-35 | a new statement holds the given dialect and no flags, conditions, queries, order or limit |
| Statements.Statement.SetDialect | src/statement.js:43-47 | the dialect is replaced |
| Statements.Statement.GetDialect | src/statement.js:48-51 | the dialect is returned when set, otherwise the missing-dialect error |
| Statements.Statement.Data | src/statement.js:61-69 | no argument is an error; two arguments store the value under the name and return it; otherwise the stored value is read |
| Statements.Statement.SetFlag | src/statement.js:78-81 | the flag stores the truthiness of `enable` (true by default) and every other flag is unchanged; the argument is returned as given |
| Statements.Statement.Where | src/statement.js:99-108 | a truthy, non-empty condition set is wrapped into a list and appended; anything else adds nothing |
| Statements.Statement.With | src/statement.js:116-131 | no queries change nothing; otherwise the names are recorded as `AddCtes` specifies, stopping at the first duplicate |
| Statements.Statement.Order | src/statement.js:139-149 | with no fields or a falsy first field nothing changes; otherwise the `_order` map of the fields is merged in, or its type error is returned and the order kept |
| Statements.Statement.Limit | src/statement.js:158-167 | a falsy limit changes nothing; otherwise the limit, followed by ` OFFSET` and the offset when that is truthy |
| Statements.Statement.BuildFlags | src/statement.js:213-221 | the loop computes the flags text that `FlagsSql` specifies |
| Statements.Statement.BuildOrder | src/statement.js:249-259 | the loop computes the `ORDER BY` clause that `OrderSql` specifies |
| Statements.Statement.BuildCte | src/statement.js:261-272 | the loop computes the `WITH` prefix that `CteSql` specifies, including the TypeError of a null query's `toString()` |
| Statements.CteItemsDefined | src/statement.js:265-269 | the CTE items render exactly when no query is null; otherwise the result is the TypeError `query.toString()` raises |
| Selects.Truthies | src/statement/select.js:75-82 | keeps exactly the truthy sources, in order, and never more than were given |
| Selects.SelectAllFrom | src/statement/select.js:191-205 | a SELECT with only a table renders `SELECT * FROM` and the escaped table name: no fields means `*`, and every empty clause renders nothing |
| Selects.NothingElse | src/statement/select.js:193-205 | no fields render ` *`; no joins, no group, no conditions and no order render nothing |
| Selects.NoWaitNeedsLock | src/statement/select.js:207-210 | without a lock clause, `NOWAIT` is not rendered, whatever the `noWait` setting |
| Selects.LockAppended | src/statement/select.js:207-210 | a lock clause is appended after the statement, followed by `NOWAIT` when that is set, before the alias wrap |
| Selects.AliasWraps | src/statement/select.js:212 | a truthy alias turns the statement into `(sql) AS name` with the alias escaped as a name |
| Selects.JoinWithoutOn | src/statement/select.js:233-251 | one join without conditions renders ` TYPE JOIN table` with a leading space |
| Selects.PlainJoin | src/statement/select.js:237-248 | a join without conditions is its type, `JOIN` and the escaped table name, with no `ON` |
| Selects.GroupOnce | src/statement/select.js:121-133 | the group keeps each field once, holds exactly the old fields and the new ones, and grouping the same fields again changes nothing |
| Selects.GroupNames | src/statement/select.js:220-226 | the `GROUP BY` list of plain names is each name escaped, in insertion order |
| Selects.Select.constructor | src/statement/select.js:14-42 | a new SELECT has no fields, sources, joins, group, having, lock or alias, no wait off, and a base statement with nothing set |
| Selects.Select.Distinct | src/statement/select.js:50-54 | sets the `DISTINCT` flag, on by default or as the argument's truthiness |
| Selects.Select.Fields | src/statement/select.js:62-67 | appends the fields, taking a single list argument as the list itself |
| Selects.Select.From | src/statement/select.js:75-82 | appends the truthy sources; when none is truthy it fails with the empty-source error and changes nothing |
| Selects.Select.Join | src/statement/select.js:92-100 | a truthy table appends a join with its conditions wrapped into a list and its type upper-cased (`LEFT` by default); a falsy table changes nothing |
| Selects.Select.Where | src/statement/select.js:108-113 | appends the conditions, a falsy argument adding none and a nested list being unwrapped |
| Selects.Select.Group | src/statement/select.js:121-133 | adds the truthy fields to the group, each at most once, keeping first-insertion order |
| Selects.Select.Having | src/statement/select.js:141-146 | appends the arguments as one condition list, and nothing when there are none |
| Selects.Select.NoWait | src/statement/select.js:164-167 | stores the no-wait setting, on by default or as the argument's truthiness |
| Selects.Select.SetAlias | src/statement/select.js:176-182 | stores the subquery alias |
| Selects.Select.BuildGroup | src/statement/select.js:220-226 | the loop computes the escaped group names joined by commas |
| Selects.Select.BuildJoins | src/statement/select.js:233-251 | the loop computes the joins each rendered, space-separated after a leading space, or nothing without joins |
| Selects.Select.ToString | src/statement/select.js:191-213 | fails without a dialect; otherwise renders the statement from its parts under the dialect's compiler |
| Text.NonEmpty | src/statement/create-table.js:189 | keeps exactly the non-empty definition pieces, in order |
| CreateTables.RequiresTableAndColumns | src/statement/create-table.js:130-138 | the statement is refused without a table name, then refused without columns, and renders only with both and a dialect |
| CreateTables.PrimaryConstraintWins | src/statement/create-table.js:168-182 | an explicit `primary` constraint clears the serial column found earlier, so no second primary key is added |
| CreateTables.PrimaryStaysCleared | src/statement/create-table.js:168-182 | once no serial column is pending, the constraints never bring one back |
| CreateTables.PrimaryIsSerialColumn | src/statement/create-table.js:158-166 | with no serial column the pending primary key is unchanged; otherwise it is the name of the last serial column; every column gives exactly one definition piece |
| CreateTables.PrimaryKept | src/statement/create-table.js:168-182 | constraints none of which is `primary` leave the pending primary key as it was |
| CreateTables.SerialAddsPrimaryKey | src/statement/create-table.js:158-189 | with a serial column and no `primary` constraint, the definition is the column and constraint pieces followed by `PRIMARY KEY` on the last serial column |
| CreateTables.DefinitionOfColumns | src/statement/create-table.js:151-190 | with no serial column and no constraint, the definition is the non-empty column definitions joined by commas inside parentheses |
| CreateTables.TypeOfColumn | src/statement/create-table.js:117-123 | a column's type is its own `type`, or `string` when it has none; setting one column leaves every other column's type as it was |
| CreateTables.CreateTable.constructor | src/statement/create-table.js:13-28 | a new CREATE TABLE has no flag, no table, no columns, no constraints and no meta |
| CreateTables.CreateTable.IfNotExists | src/statement/create-table.js:36-39 | stores the soft-create setting, on by default or as the argument's truthiness |
| CreateTables.CreateTable.Table | src/statement/create-table.js:47-50 | stores the table |
| CreateTables.CreateTable.Columns | src/statement/create-table.js:58-70 | each object argument adds or replaces the column named by its first key; a single list argument is the list of columns |
| CreateTables.CreateTable.Meta | src/statement/create-table.js:78-83 | a given meta replaces the table meta; a missing one keeps it |
| CreateTables.CreateTable.Constraints | src/statement/create-table.js:91-96 | a given list replaces the constraints; a missing one keeps them |
| CreateTables.CreateTable.Constraint | src/statement/create-table.js:104-109 | a given constraint is appended; a missing one changes nothing |
| CreateTables.CreateTable.BuildColumns | src/statement/create-table.js:158-166 | the loop computes each column's definition, in column order, and the last serial column |
| CreateTables.CreateTable.BuildConstraints | src/statement/create-table.js:168-182 | the loop computes each constraint's definition, fails on a constraint without a type, and clears the pending primary key on a `primary` one |
| CreateTables.CreateTable.BuildDefinition | src/statement/create-table.js:151-190 | the columns, then the constraints, then a primary key for a pending serial column, non-empty pieces joined inside parentheses |
| CreateTables.CreateTable.ToString | src/statement/create-table.js:130-144 | renders `CREATE TABLE`, the soft-create flag, the table name, the definition and the table meta, or the error that stops it |
| Inserts.RowValueAt | src/statement/insert.js:93-98 | the i-th value of a row is that entry's value cast knowing its column name and the statement's schema |
| Inserts.RowAt | src/statement/insert.js:90-101 | the i-th rendered row is the parenthesised, comma-joined values of the i-th inserted record |
| Inserts.FieldEscapes | src/statement/insert.js:71-79 | string field names never fail to escape; each is escaped on its own and a repeated name is listed once |
| Inserts.ColumnList | src/statement/insert.js:71-79 | the column list is the distinct escaped keys of the first row, comma-joined, and empty without rows |
| Inserts.RequiresInto | src/statement/insert.js:66-69 | rendering succeeds only with a target and a dialect; without a target it fails with the missing `INTO` error whatever else is set |
| Inserts.NoRows | src/statement/insert.js:66-101 | a bare insert with no rows still writes the empty column list and an empty `VALUES` clause |
| Inserts.InsertInto | src/statement/insert.js:74-82 | for a named target the flags follow `INSERT`, then `INTO` the escaped table, the column list and the rows |
| Inserts.Insert.constructor | src/statement/insert.js:14-36 | a new statement has no flags, no target, no rows and no returned columns, and keeps the schema it is given |
| Inserts.Insert.Into | src/statement/insert.js:44-47 | the target is replaced |
| Inserts.Insert.Values | src/statement/insert.js:55-58 | the row is appended after the earlier ones |
| Inserts.Insert.BuildRow | src/statement/insert.js:94-98 | the inner loop computes the parenthesised row that `RowSql` specifies |
| Inserts.Insert.BuildValues | src/statement/insert.js:90-101 | the outer loop computes the `VALUES` clause that `ValuesSql` specifies |
| Inserts.Insert.ToString | src/statement/insert.js:66-83 | the result is the rendering `InsertSql` specifies for the current parts and dialect, error cases included |
| Updates.AssignmentAt | src/statement/update.js:98-108 | the i-th assignment is the escaped key, ` = `, and the value cast knowing its column and the schema |
| Updates.RequiresTableAndValues | src/statement/update.js:69-76 | rendering succeeds only with a table, at least one value and a dialect; the two missing-clause errors are raised in that order |
| Updates.UpdateAll | src/statement/update.js:78-90 | a bare update of a named table renders `UPDATE t SET a = x, ...` in the values' order |
| Updates.Update.constructor | src/statement/update.js:13-40 | a new statement has no table and no values and keeps the schema it is given |
| Updates.Update.Table | src/statement/update.js:48-51 | the table is replaced |
| Updates.Update.Values | src/statement/update.js:59-62 | the values are replaced, not merged |
| Updates.Update.BuildSet | src/statement/update.js:98-108 | the loop computes the `SET` clause that `SetSql` specifies |
| Updates.Update.ToString | src/statement/update.js:69-91 | the result is the rendering `UpdateSql` specifies, error cases included |
| Deletes.RequiresFrom | src/statement/delete.js:62-65 | rendering succeeds only with a source and a dialect; without a source it fails with the missing `FROM` error |
| Deletes.DeleteAll | src/statement/delete.js:62-80 | a bare delete of a named table renders `DELETE FROM t` and nothing else |
| Deletes.Delete.constructor | src/statement/delete.js:19-44 | a new statement has no source and no returned columns and keeps the schema it is given |
| Deletes.Delete.From | src/statement/delete.js:52-55 | the source is replaced |
| Deletes.Delete.ToString | src/statement/delete.js:62-80 | the result is the rendering `DeleteSql` specifies, error cases included |
| Truncates.RequiresTable | src/statement/truncate.js:50-56 | rendering succeeds only with a table and a dialect; without a table it fails with the missing `TABLE` error |
| Truncates.TruncateOne | src/statement/truncate.js:50-56 | one named table renders `TRUNCATE TABLE t` with the table escaped |
| Truncates.Truncate.constructor | src/statement/truncate.js:14-31 | a new statement has no table |
| Truncates.Truncate.Table | src/statement/truncate.js:40-43 | the table is replaced |
| Truncates.Truncate.ToString | src/statement/truncate.js:50-56 | the result is the rendering `TruncateSql` specifies, error cases included |
| DropTables.RequiresTables | src/statement/drop-table.js:82-92 | rendering succeeds exactly when there is at least one table, a dialect, and the names render; no tables gives the missing `TABLE` error |
| DropTables.DropOne | src/statement/drop-table.js:87-91 | `IF EXISTS` comes before the escaped table, `CASCADE` and `RESTRICT` after it, each only when set |
| DropTables.DropTable.constructor | src/statement/drop-table.js:17-31 | a new statement has no tables and all three flags off |
| DropTables.DropTable.IfExists | src/statement/drop-table.js:39-42 | the flag is on when called without an argument, otherwise it takes the argument's truthiness |
| DropTables.DropTable.Table | src/statement/drop-table.js:50-53 | the given tables replace the earlier ones |
| DropTables.DropTable.Cascade | src/statement/drop-table.js:61-64 | the flag is on by default, otherwise it takes the argument's truthiness |
| DropTables.DropTable.Restrict | src/statement/drop-table.js:72-75 | the flag is on by default, otherwise it takes the argument's truthiness |
| DropTables.DropTable.ToString | src/statement/drop-table.js:82-92 | the result is the rendering `DropSql` specifies, error cases included |
| MySqlStatements.LockModes | src/statement/mysql/select.js:32-48 | a missing mode locks `FOR UPDATE`; exactly `update` and `share` (in any case) are accepted, `share` gives `LOCK IN SHARE MODE`, and any other string fails with the MySQL lock-mode error naming the lowercased mode |
| MySqlStatements.LockCaseInsensitive | src/statement/mysql/select.js:33 | a mode and its lowercase form lock alike |
| MySqlStatements.KeywordsDistinct | src/statement/mysql/select.js:6-13 | each SELECT, INSERT, UPDATE and DELETE setter writes its own flag, so no two setters of a statement share one |
| MySqlStatements.FirstFlag | src/statement/mysql/select.js:56-59 | a setter on a statement without flags renders its keyword right after the statement's keyword when enabled, and nothing when disabled |
| MySqlStatements.MySqlSelect.constructor | src/statement/select.js:14-42 | a new MySQL SELECT starts as a base SELECT does |
| MySqlStatements.MySqlSelect.Lock | src/statement/mysql/select.js:32-48 | an accepted mode stores its clause; a refused mode returns the error and leaves the lock as it was |
| MySqlStatements.MySqlSelect.SetOption | src/statement/mysql/select.js:56-136 | each of the eight setters stores its flag, on by default or as the argument's truthiness, and leaves every other flag unchanged |
| MySqlStatements.MySqlInsert.constructor | src/statement/insert.js:14-36 | a new MySQL INSERT starts as a base INSERT does |
| MySqlStatements.MySqlInsert.SetOption | src/statement/mysql/insert.js:20-56 | each of the four setters stores its flag and leaves every other flag unchanged |
| MySqlStatements.MySqlUpdate.constructor | src/statement/update.js:13-40 | a new MySQL UPDATE starts as a base UPDATE does |
| MySqlStatements.MySqlUpdate.SetOption | src/statement/mysql/update.js:16-30 | `lowPriority` and `ignore` store their flag and leave every other flag unchanged |
| MySqlStatements.MySqlDelete.constructor | src/statement/delete.js:19-44 | a new MySQL DELETE starts as a base DELETE does |
| MySqlStatements.MySqlDelete.SetOption | src/statement/mysql/delete.js:17-43 | `lowPriority`, `ignore` and `quick` store their flag and leave every other flag unchanged |
| PostgreSqlStatements.LockModes | src/statement/postgresql/select.js:23-48 | exactly the four modes are accepted, each stores `FOR` followed by the mode in upper case, and any other string fails with the PostgreSQL lock-mode error |
| PostgreSqlStatements.LockClausesDistinct | src/statement/postgresql/select.js:30-46 | distinct accepted modes store distinct clauses |
| PostgreSqlStatements.LockDefaults | src/statement/postgresql/select.js:23-24 | a missing mode locks `FOR UPDATE`, and modes are matched whatever their case |
| PostgreSqlStatements.DeleteReturningStar | src/statement/postgresql/delete.js:14-22 | `returning('*')` on a bare DELETE renders `DELETE FROM t RETURNING *` |
| PostgreSqlStatements.PostgreSqlSelect.constructor | src/statement/select.js:14-42 | a new PostgreSQL SELECT starts as a base SELECT does |
| PostgreSqlStatements.PostgreSqlSelect.Lock | src/statement/postgresql/select.js:23-48 | an accepted mode stores its clause; a refused mode returns the error and leaves the lock as it was |
| PostgreSqlStatements.PostgreSqlInsert.constructor | src/statement/insert.js:14-36 | a new PostgreSQL INSERT starts as a base INSERT does |
| PostgreSqlStatements.PostgreSqlInsert.Returning | src/statement/postgresql/insert.js:15-23 | a truthy argument is wrapped into a list whose entries are appended; a falsy one adds nothing |
| PostgreSqlStatements.PostgreSqlUpdate.constructor | src/statement/update.js:13-40 | a new PostgreSQL UPDATE starts as a base UPDATE does |
| PostgreSqlStatements.PostgreSqlUpdate.Returning | src/statement/postgresql/update.js:15-24 | a truthy argument is wrapped into a list whose entries are appended; a falsy one adds nothing |
| PostgreSqlStatements.PostgreSqlDelete.constructor | src/statement/delete.js:19-44 | a new PostgreSQL DELETE starts as a base DELETE does |
| PostgreSqlStatements.PostgreSqlDelete.Returning | src/statement/postgresql/delete.js:14-22 | a lone array argument is the list, otherwise all arguments are; nothing is added when the first argument is falsy |
| SqliteStatements.KeywordsDistinct | src/statement/sqlite/insert.js:4-8 | the five conflict setters write five distinct flags |
| SqliteStatements.InsertOr | src/statement/sqlite/insert.js:20-23 | a conflict clause set on a plain INSERT renders right after `INSERT`: `INSERT OR ABORT INTO t (...) VALUES ...` |
| SqliteStatements.RequiresTable | src/statement/sqlite/truncate.js:51-54 | rendering succeeds only with a table and a dialect; without a table it fails with the missing `TABLE` error |
| SqliteStatements.TruncateOne | src/statement/sqlite/truncate.js:51-59 | one table renders as two DELETEs: its rows, then its `SQLITE_SEQUENCE` entry, matched by the escaped table name |
| SqliteStatements.SequenceName | src/statement/sqlite/truncate.js:57 | `SQLITE_SEQUENCE` is escaped whole |
| SqliteStatements.SqliteInsert.constructor | src/statement/insert.js:14-36 | a new SQLite INSERT starts as a base INSERT does |
| SqliteStatements.SqliteInsert.SetOption | src/statement/sqlite/insert.js:20-67 | each of the five conflict setters stores its flag and leaves every other flag unchanged |
| SqliteStatements.SqliteUpdate.constructor | src/statement/update.js:13-40 | a new SQLite UPDATE starts as a base UPDATE does |
| SqliteStatements.SqliteUpdate.SetOption | src/statement/sqlite/update.js:20-67 | each of the five conflict setters stores its flag and leaves every other flag unchanged |
| SqliteStatements.SqliteTruncate.constructor | src/statement/sqlite/truncate.js:15-33 | a new statement has no table and keeps the schema it is given |
| SqliteStatements.SqliteTruncate.Table | src/statement/sqlite/truncate.js:41-44 | the table is replaced |
| SqliteStatements.SqliteTruncate.ToString | src/statement/sqlite/truncate.js:51-59 | the result is the rendering `TruncateSql` specifies, error cases included |

## Left out

- Floating-point numbers: `Node` has integers only, so `String(1.5)` and float defaults, lengths and precisions are out of reach.
- `toLowerCase`/`toUpperCase` are modelled on the ASCII letters only. The library applies them to operator names, keys, type names and lock modes.
- Registry lookups in plain objects (`_types`, `_maps`, `_operators`, `_formatters`, `_meta`, `_constraints`): in JavaScript a name such as `constructor` or `toString` also finds an inherited member. The model's maps hold own entries only.
- Object key order: JavaScript lists integer-like keys first. The ordered records keep insertion order for every key.
- A JavaScript object cannot repeat a key. The model's records can, and the lemmas that need distinct keys say so (`UniqueKeys`).
- Object identity: `Map` keys and `===` on objects compare by reference. The model compares values, so two equal objects are the same group field or the same mapping option.
- `Dialect.classes()` and the configurable `classes`, `operators`, `builders` and `formatters` options, with the deep `merge` of the configuration: the model fixes the vendor's tables. Only the configured `quoter`, `caster` and `types` are parameters. This is because the merge is a foreign library.
- `dateFormat` is stored by the constructor and never read, so it is not a field.
- The `name: 'MINUS'` of MySQL's `:except` is never read by the set builder, so it is not modelled.
- `Dialects.StatementKindOf`: `statement(name, config)` is modelled as the class lookup and its error. The construction of the statement object is each class's constructor.
- `src/index.js`, `src/statement/index.js` and `index.js` only re-export the classes. `src/statement/sqlite/select.js` and `src/statement/sqlite/delete.js` are not part of this model.
- The placeholder fill of `string-placeholder` (with `clean: true`) is the `fill` parameter of the dialect. The constraint lemmas speak of the data handed to it, not of the filled text.
- `Casting.Quote` models `quote()` as written: it returns the text between quotes unchanged and discards the escaped string it computes. That escaping is modelled on its own (`Casting.EscapeText`, with its round trip).
- `Compiler.NameField` treats the field's operator payload as immutable: it renders `[{':name': field}, ...payload]` as a fresh list. The source `unshift`s `{':name': field}` into the caller's own array, so rendering the same statement a second time sees the field twice.
- `CompilerProps.OperatorOnField` states the rendering of a payload that no earlier rendering has changed; a repeated `toString()` of the same statement is not modelled.
- `Compiler.Prefix` requires no `null` name, since `null.constructor` throws in the source. It also requires no empty object: the source would prefix the key `undefined`.
- An empty object in `order()` or `columns()` is skipped. The source stores an entry under the key `undefined`.
- `Statements.Statement.Data`: the values are kept in a map of their own. In the source they share `_parts` with the clauses, so `data('where', …)` would replace the WHERE list.
- `Statements.Statement.With`: a CTE query is any `Node`; a live statement is a `Raw` node holding its rendered text.
- `Selects.Select.Join`: the join type is a string or missing. Any other value would reach `toUpperCase` and throw.
- The base `Select.lock()` does nothing, so it has no member. The vendor `lock()` methods are modelled.
- `MySqlStatements.MySqlSelect.Lock` and `PostgreSqlStatements.PostgreSqlSelect.Lock`:
  - A non-string mode is an error, because `toLowerCase` is not a function on it.
  - The `false` entry of the lock table is unreachable, since the lowered mode is always a string.
- Flags, `ifExists`, `ifNotExists`, `noWait`, `cascade` and `restrict` store the truthiness of their argument, which is all the renderers read. The source stores the argument itself.
- The `forUpdate` part of UPDATE is initialised and never read, so it is not a field.
- The `schema` of TRUNCATE is kept and never read.
- INSERT and UPDATE values that are not objects (an array of arrays, a primitive) are outside `Record`.
- `Inserts.Insert.BuildValues`: each INSERT row is rendered in its own key order, as the source writes it.
- The test suites under `spec/` are not modelled.
