// The `CREATE TABLE` statement: the table, its columns (an ordered map
// from column name to descriptor), its constraints and its table options,
// and the renderer, whose column and constraint loops are proved equal to
// `Definition`.

module CreateTables {

  import opened Wrappers
  import opened Text
  import opened Ordered
  import opened Nodes
  import opened Casting
  import opened Compiler
  import opened Dialects
  import opened Statements

  /** `columns(columns)`: one array argument is the list, otherwise every
      argument is a column. */
  function ColumnArgs(args: seq<Node>): seq<Node>
  {
    if |args| == 1 && args[0].List? then args[0].items else args
  }

  /** The `columns()` loop: each plain object sets its first key to its
      value; anything else is skipped. */
  function ColumnsAdded(columns: Record, cols: seq<Node>): Record
    decreases |cols|
  {
    if cols == [] then columns
    else
      var next := if cols[0].Obj? && cols[0].entries != [] then Put(columns, cols[0].entries[0].0, cols[0].entries[0].1) else columns;
      ColumnsAdded(next, cols[1..])
  }

  /** `type(name)`: the `type` of the named column when it has one, else
      `'string'`. */
  function ColumnType(columns: Record, name: string): Node
  {
    var column := Get(columns, name);
    if column.Some? && Truthy(column.value) && column.value.Obj? && Get(column.value.entries, "type").Some?
    then Get(column.value.entries, "type").value
    else Str("string")
  }

  /** The schema a constraint's expressions are cast against: the
      statement itself, through its columns. */
  function ConstraintOptions(columns: Record): CondOptions
  {
    CondOptions("", ":and", map["" := TableSchema(columns)], map[])
  }

  /** `Object.assign({ name }, column)`. */
  function ColumnField(name: string, column: Node): Record
  {
    Assign([("name", Str(name))], OwnEntries(column))
  }

  /** Whether a prepared field is marked `serial`. */
  predicate IsSerial(field: Record)
  {
    Get(field, "serial").Some? && Truthy(Get(field, "serial").value)
  }

  /** The column loop of `_buildDefinition`: the rendered columns so far,
      the pending primary key column (empty for none) and the columns left. */
  function ColumnsFrom(s: Snapshot, acc: seq<string>, primary: string, columns: Record): Result<(seq<string>, string)>
    decreases |columns|
  {
    if columns == [] then Ok((acc, primary))
    else
      var name := columns[0].0;
      var field :- SnapshotField(s, ColumnField(name, columns[0].1));
      var sql :- SnapshotColumn(s, field);
      ColumnsFrom(s, acc + [sql], if IsSerial(field) then name else primary, columns[1..])
  }

  /** One turn of the column loop. */
  lemma ColumnsStep(s: Snapshot, acc: seq<string>, primary: string, columns: Record, field: Record, sql: string)
    requires columns != []
    requires SnapshotField(s, ColumnField(columns[0].0, columns[0].1)) == Ok(field)
    requires SnapshotColumn(s, field) == Ok(sql)
    ensures ColumnsFrom(s, acc, primary, columns) ==
            ColumnsFrom(s, acc + [sql], if IsSerial(field) then columns[0].0 else primary, columns[1..])
  {
  }

  /** The constraint loop of `_buildDefinition`. */
  function ConstraintsFrom(s: Snapshot, columns: Record, acc: seq<string>, primary: string, constraints: seq<Record>): Result<(seq<string>, string)>
    decreases |constraints|
  {
    if constraints == [] then Ok((acc, primary))
    else
      var c := constraints[0];
      var t := Get(c, "type");
      if t.None? then Err(MissingConstraintType)
      else
        var meta :- SnapshotConstraint(s, JsString(t.value), c, ConstraintOptions(columns));
        ConstraintsFrom(s, columns, if meta != "" then acc + [meta] else acc,
                        if t.value == Str("primary") then "" else primary, constraints[1..])
  }

  /** The primary key constraint `_buildDefinition` adds for a serial
      column when no `primary` constraint was given. */
  function PrimaryItem(s: Snapshot, primary: string): Result<seq<string>>
  {
    if primary == "" then Ok([])
    else
      var pk :- SnapshotConstraint(s, "primary", [("column", Str(primary))], DefaultOptions);
      Ok([pk])
  }

  /** `_buildDefinition()`. */
  function Definition(s: Snapshot, columns: Record, constraints: seq<Record>): Result<string>
  {
    var cols :- ColumnsFrom(s, [], "", columns);
    var items :- ConstraintsFrom(s, columns, cols.0, cols.1, constraints);
    var pk :- PrimaryItem(s, items.1);
    Ok(" (" + Join(NonEmpty(items.0 + pk), ", ") + ")")
  }

  /** The parts of a `CREATE TABLE`. */
  datatype TableParts = TableParts(
    ifNotExists: bool,
    table: Node,
    columns: Record,
    constraints: seq<Record>,
    meta: Record)

  /** `toString()`: a table and at least one column are required before
      the dialect is consulted. */
  function CreateTableSql(d: Option<Snapshot>, p: TableParts): Result<string>
  {
    if !Truthy(p.table) then Err(CreateTableMissing("table name"))
    else if p.columns == [] then Err(CreateTableMissing("columns"))
    else if d.None? then Err(MissingDialect)
    else
      var s := d.value;
      var name :- NameOf(s.env, p.table, map[]);
      var def :- Definition(s, p.columns, p.constraints);
      Ok("CREATE TABLE" + Flag("IF NOT EXISTS", p.ifNotExists) + Chunk(name) + def + Chunk(SnapshotMeta(s, "table", p.meta, None)))
  }

  // ---------------------------------------------------------------------
  // What the rendering promises.

  /** The statement is refused without a table or without columns, in that
      order, whatever the dialect. */
  lemma RequiresTableAndColumns(d: Option<Snapshot>, p: TableParts)
    ensures CreateTableSql(d, p).Ok? ==> Truthy(p.table) && p.columns != [] && d.Some?
    ensures !Truthy(p.table) ==> CreateTableSql(d, p) == Err(CreateTableMissing("table name"))
    ensures Truthy(p.table) && p.columns == [] ==> CreateTableSql(d, p) == Err(CreateTableMissing("columns"))
  {
  }

  /** A `primary` constraint among the given ones suppresses the primary
      key a serial column would otherwise add. */
  lemma {:induction false} PrimaryConstraintWins(s: Snapshot, columns: Record, acc: seq<string>, primary: string, constraints: seq<Record>, i: int)
    requires 0 <= i < |constraints| && Get(constraints[i], "type") == Some(Str("primary"))
    requires ConstraintsFrom(s, columns, acc, primary, constraints).Ok?
    ensures ConstraintsFrom(s, columns, acc, primary, constraints).value.1 == ""
    decreases |constraints|
  {
    var c := constraints[0];
    var t := Get(c, "type");
    var meta := SnapshotConstraint(s, JsString(t.value), c, ConstraintOptions(columns)).value;
    var acc' := if meta != "" then acc + [meta] else acc;
    var primary' := if t.value == Str("primary") then "" else primary;
    if i == 0 {
      PrimaryStaysCleared(s, columns, acc', constraints[1..]);
    } else {
      assert constraints[1..][i - 1] == constraints[i];
      PrimaryConstraintWins(s, columns, acc', primary', constraints[1..], i - 1);
    }
  }

  /** Once cleared, the pending primary key stays cleared. */
  lemma {:induction false} PrimaryStaysCleared(s: Snapshot, columns: Record, acc: seq<string>, constraints: seq<Record>)
    requires ConstraintsFrom(s, columns, acc, "", constraints).Ok?
    ensures ConstraintsFrom(s, columns, acc, "", constraints).value.1 == ""
    decreases |constraints|
  {
    if constraints != [] {
      var c := constraints[0];
      var t := Get(c, "type");
      var meta := SnapshotConstraint(s, JsString(t.value), c, ConstraintOptions(columns)).value;
      PrimaryStaysCleared(s, columns, if meta != "" then acc + [meta] else acc, constraints[1..]);
    }
  }

  /** Whether a column's prepared field is marked `serial`. */
  predicate SerialColumn(s: Snapshot, column: (string, Node))
  {
    var field := SnapshotField(s, ColumnField(column.0, column.1));
    field.Ok? && IsSerial(field.value)
  }

  /** The pending primary key is the name of the last serial column; with
      no serial column it is the one the loop started with. */
  lemma {:induction false} PrimaryIsSerialColumn(s: Snapshot, acc: seq<string>, primary: string, columns: Record)
    requires ColumnsFrom(s, acc, primary, columns).Ok?
    ensures var p := ColumnsFrom(s, acc, primary, columns).value.1;
            (forall i :: 0 <= i < |columns| ==> !SerialColumn(s, columns[i])) ==> p == primary
    ensures var p := ColumnsFrom(s, acc, primary, columns).value.1;
            forall j :: (0 <= j < |columns| && SerialColumn(s, columns[j]) &&
                         (forall k :: j < k < |columns| ==> !SerialColumn(s, columns[k]))) ==> p == columns[j].0
    ensures |ColumnsFrom(s, acc, primary, columns).value.0| == |acc| + |columns|
    decreases |columns|
  {
    if columns != [] {
      var name := columns[0].0;
      var field := SnapshotField(s, ColumnField(name, columns[0].1)).value;
      var sql := SnapshotColumn(s, field).value;
      var primary' := if IsSerial(field) then name else primary;
      var rest := columns[1..];
      ColumnsStep(s, acc, primary, columns, field, sql);
      PrimaryIsSerialColumn(s, acc + [sql], primary', rest);
      var p := ColumnsFrom(s, acc, primary, columns).value.1;
      assert p == ColumnsFrom(s, acc + [sql], primary', rest).value.1;
      assert SerialColumn(s, columns[0]) <==> IsSerial(field);
      forall j | 0 <= j < |columns| && SerialColumn(s, columns[j]) &&
                 (forall k :: j < k < |columns| ==> !SerialColumn(s, columns[k]))
        ensures p == columns[j].0
      {
        TailNoSerial(s, columns, j);
        if j > 0 {
          assert rest[j - 1] == columns[j];
        }
      }
      if forall i :: 0 <= i < |columns| ==> !SerialColumn(s, columns[i]) {
        TailNoSerial(s, columns, 0);
      }
    }
  }

  /** No serial column after `j`, seen from the rest of the columns. */
  lemma TailNoSerial(s: Snapshot, columns: Record, j: int)
    requires columns != [] && 0 <= j
    requires forall k :: j < k < |columns| ==> !SerialColumn(s, columns[k])
    ensures forall k :: j - 1 < k < |columns| - 1 ==> !SerialColumn(s, columns[1..][k])
  {
    forall k | j - 1 < k < |columns| - 1
      ensures !SerialColumn(s, columns[1..][k])
    {
      assert columns[1..][k] == columns[k + 1];
    }
  }

  /** Without a `primary` constraint, the constraint loop keeps the
      pending primary key. */
  lemma {:induction false} PrimaryKept(s: Snapshot, columns: Record, acc: seq<string>, primary: string, constraints: seq<Record>)
    requires forall c :: 0 <= c < |constraints| ==> Get(constraints[c], "type") != Some(Str("primary"))
    requires ConstraintsFrom(s, columns, acc, primary, constraints).Ok?
    ensures ConstraintsFrom(s, columns, acc, primary, constraints).value.1 == primary
    decreases |constraints|
  {
    if constraints != [] {
      var c := constraints[0];
      var t := Get(c, "type");
      var meta := SnapshotConstraint(s, JsString(t.value), c, ConstraintOptions(columns)).value;
      assert t != Some(Str("primary"));
      assert forall k :: 0 <= k < |constraints[1..]| ==> constraints[1..][k] == constraints[k + 1];
      PrimaryKept(s, columns, if meta != "" then acc + [meta] else acc, primary, constraints[1..]);
    }
  }

  /** A serial column and no `primary` constraint: the definition ends
      with `PRIMARY KEY` on the last serial column, after the columns and
      the other constraints. */
  lemma SerialAddsPrimaryKey(s: Snapshot, columns: Record, constraints: seq<Record>, j: int, pk: string)
    requires 0 <= j < |columns| && SerialColumn(s, columns[j]) && columns[j].0 != ""
    requires forall k :: j < k < |columns| ==> !SerialColumn(s, columns[k])
    requires forall c :: 0 <= c < |constraints| ==> Get(constraints[c], "type") != Some(Str("primary"))
    requires ColumnsFrom(s, [], "", columns).Ok?
    requires ConstraintsFrom(s, columns, ColumnsFrom(s, [], "", columns).value.0, ColumnsFrom(s, [], "", columns).value.1, constraints).Ok?
    requires SnapshotConstraint(s, "primary", [("column", Str(columns[j].0))], DefaultOptions) == Ok(pk)
    ensures var cols := ColumnsFrom(s, [], "", columns).value;
            var items := ConstraintsFrom(s, columns, cols.0, cols.1, constraints).value;
            Definition(s, columns, constraints) == Ok(" (" + Join(NonEmpty(items.0 + [pk]), ", ") + ")")
  {
    var cols := ColumnsFrom(s, [], "", columns).value;
    PrimaryIsSerialColumn(s, [], "", columns);
    assert cols.1 == columns[j].0;
    PrimaryKept(s, columns, cols.0, cols.1, constraints);
    var items := ConstraintsFrom(s, columns, cols.0, cols.1, constraints).value;
    assert PrimaryItem(s, items.1) == Ok([pk]);
  }

  /** Without constraints and without a serial column, the definition is
      the columns in order, between parentheses. */
  lemma DefinitionOfColumns(s: Snapshot, columns: Record, cols: seq<string>)
    requires ColumnsFrom(s, [], "", columns) == Ok((cols, ""))
    ensures Definition(s, columns, []) == Ok(" (" + Join(NonEmpty(cols), ", ") + ")")
  {
    assert cols + [] == cols;
  }

  /** A column's type is the one its descriptor gives, or `'string'`. */
  lemma TypeOfColumn(columns: Record, name: string, es: Record)
    ensures ColumnType(Put(columns, name, Obj(es)), name) == if Get(es, "type").Some? then Get(es, "type").value else Str("string")
    ensures forall other :: other != name ==> ColumnType(Put(columns, name, Obj(es)), other) == ColumnType(columns, other)
  {
  }

  // ---------------------------------------------------------------------

  class CreateTable {
    const base: Statement
    var ifNotExists: bool
    var table: Node
    var columns: Record
    var constraints: seq<Record>
    var meta: Record

    constructor(d: Option<Dialect>)
      ensures fresh(base) && base.dialect == d
      ensures Parts() == TableParts(false, Str(""), [], [], [])
    {
      base := new Statement(d);
      ifNotExists := false;
      table := Str("");
      columns := [];
      constraints := [];
      meta := [];
    }

    function Parts(): TableParts
      reads this
    {
      TableParts(ifNotExists, table, columns, constraints, meta)
    }

    /** `ifNotExists(ifNotExists = true)`. */
    method IfNotExists(on: Option<Node>)
      modifies this`ifNotExists
      ensures ifNotExists == (on.None? || Truthy(on.value))
    {
      ifNotExists := on.None? || Truthy(on.value);
    }

    /** `table(table)`. */
    method Table(t: Node)
      modifies this`table
      ensures table == t
    {
      table := t;
    }

    /** `columns(columns)`. */
    method Columns(args: seq<Node>)
      modifies this`columns
      ensures columns == ColumnsAdded(old(columns), ColumnArgs(args))
    {
      var cols := ColumnArgs(args);
      var i := 0;
      while i < |cols|
        invariant 0 <= i <= |cols|
        invariant ColumnsAdded(columns, cols[i..]) == ColumnsAdded(old(columns), cols)
      {
        var column := cols[i];
        if column.Obj? && column.entries != [] {
          columns := Put(columns, column.entries[0].0, column.entries[0].1);
        }
        i := i + 1;
      }
    }

    /** `meta(meta)`: a given object replaces the table options. */
    method Meta(m: Option<Record>)
      modifies this`meta
      ensures meta == if m.Some? then m.value else old(meta)
    {
      if m.Some? {
        meta := m.value;
      }
    }

    /** `constraints(constraints)`: a given list replaces the constraints. */
    method Constraints(cs: Option<seq<Record>>)
      modifies this`constraints
      ensures constraints == if cs.Some? then cs.value else old(constraints)
    {
      if cs.Some? {
        constraints := cs.value;
      }
    }

    /** `constraint(constraint)`: a given constraint is added. */
    method Constraint(c: Option<Record>)
      modifies this`constraints
      ensures constraints == if c.Some? then old(constraints) + [c.value] else old(constraints)
    {
      if c.Some? {
        constraints := constraints + [c.value];
      }
    }

    /** `type(name)`. */
    function Type(name: string): Node
      reads this
    {
      ColumnType(columns, name)
    }

    /** The column loop of `_buildDefinition()`. */
    method BuildColumns(d: Dialect) returns (r: Result<(seq<string>, string)>)
      ensures r == ColumnsFrom(d.State(), [], "", columns)
    {
      ghost var s := d.State();
      var result: seq<string> := [];
      var primary := "";
      var i := 0;
      while i < |columns|
        invariant 0 <= i <= |columns|
        invariant ColumnsFrom(s, result, primary, columns[i..]) == ColumnsFrom(s, [], "", columns)
      {
        var name := columns[i].0;
        var field := d.Field(ColumnField(name, columns[i].1));
        assert field == SnapshotField(s, ColumnField(name, columns[i].1));
        if field.Err? {
          assert ColumnsFrom(s, result, primary, columns[i..]) == Err(field.error);
          return Err(field.error);
        }
        var sql := d.Column(field.value);
        assert sql == SnapshotColumn(s, field.value);
        if sql.Err? {
          assert ColumnsFrom(s, result, primary, columns[i..]) == Err(sql.error);
          return Err(sql.error);
        }
        ColumnsStep(s, result, primary, columns[i..], field.value, sql.value);
        assert columns[i..][1..] == columns[i + 1..];
        if IsSerial(field.value) {
          primary := name;
        }
        result := result + [sql.value];
        i := i + 1;
      }
      assert columns[i..] == [];
      r := Ok((result, primary));
    }

    /** The constraint loop of `_buildDefinition()`. */
    method BuildConstraints(d: Dialect, result0: seq<string>, primary0: string) returns (r: Result<(seq<string>, string)>)
      ensures r == ConstraintsFrom(d.State(), columns, result0, primary0, constraints)
    {
      ghost var s := d.State();
      var result, primary := result0, primary0;
      var j := 0;
      while j < |constraints|
        invariant 0 <= j <= |constraints|
        invariant ConstraintsFrom(s, columns, result, primary, constraints[j..]) == ConstraintsFrom(s, columns, result0, primary0, constraints)
      {
        var c := constraints[j];
        var t := Get(c, "type");
        if t.None? {
          return Err(MissingConstraintType);
        }
        var meta := d.Constraint(JsString(t.value), c, ConstraintOptions(columns));
        if meta.Err? {
          return Err(meta.error);
        }
        if meta.value != "" {
          result := result + [meta.value];
        }
        if t.value == Str("primary") {
          primary := "";
        }
        j := j + 1;
      }
      assert constraints[j..] == [];
      r := Ok((result, primary));
    }

    /** `_buildDefinition()`. */
    method BuildDefinition(d: Dialect) returns (r: Result<string>)
      ensures r == Definition(d.State(), columns, constraints)
    {
      var cols :- BuildColumns(d);
      var items :- BuildConstraints(d, cols.0, cols.1);
      var result := items.0;
      if items.1 != "" {
        var pk := d.Constraint("primary", [("column", Str(items.1))], DefaultOptions);
        if pk.Err? {
          return Err(pk.error);
        }
        result := result + [pk.value];
      } else {
        assert result + [] == result;
      }
      r := Ok(" (" + Join(NonEmpty(result), ", ") + ")");
    }

    /** `toString()`. */
    method ToString() returns (r: Result<string>)
      ensures r == CreateTableSql(StateOf(base.dialect), Parts())
    {
      if !Truthy(table) {
        return Err(CreateTableMissing("table name"));
      }
      if columns == [] {
        return Err(CreateTableMissing("columns"));
      }
      var d :- base.GetDialect();
      var name :- NameOf(d.CompilerEnv(), table, map[]);
      var def :- BuildDefinition(d);
      var m := d.Meta("table", meta, None);
      r := Ok("CREATE TABLE" + Flag("IF NOT EXISTS", ifNotExists) + Chunk(name) + def + Chunk(m));
    }
  }
}
