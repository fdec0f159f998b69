// The `INSERT` statement: a target table, the rows to insert (each an
// ordered object of column names and values), and the parts every statement
// shares. The column list is taken from the first row; the nested loops of
// `_buildValues()` are a method proved equal to the function they are
// specified by.

module Inserts {

  import opened Wrappers
  import opened Text
  import opened Ordered
  import opened Nodes
  import opened Identifiers
  import opened Casting
  import opened Compiler
  import opened Dialects
  import opened Statements

  /** The values of one row, cast knowing their column and the
      statement's schema, in the row's own order. */
  function RowValues(env: Env, schema: SchemaRef, row: Record): (r: seq<string>)
    ensures |r| == |row|
    decreases |row|
  {
    if row == [] then []
    else
      var e := row[|row| - 1];
      RowValues(env, schema, row[..|row| - 1]) + [Value(env.quoter, env.caster, e.1, ColumnStates(e.0, schema))]
  }

  /** One parenthesised row. */
  function RowSql(env: Env, schema: SchemaRef, row: Record): string
  {
    "(" + Join(RowValues(env, schema, row), ", ") + ")"
  }

  /** The parenthesised rows, in insertion order. */
  function Rows(env: Env, schema: SchemaRef, rows: seq<Record>): (r: seq<string>)
    ensures |r| == |rows|
    decreases |rows|
  {
    if rows == [] then [] else Rows(env, schema, rows[..|rows| - 1]) + [RowSql(env, schema, rows[|rows| - 1])]
  }

  /** `_buildValues()`: the clause is written even without rows. */
  function ValuesSql(env: Env, schema: SchemaRef, rows: seq<Record>): string
  {
    " VALUES " + Join(Rows(env, schema, rows), ", ")
  }

  /** `Object.keys(values[0])`, or no fields without rows. */
  function InsertFields(rows: seq<Record>): seq<string>
  {
    if rows != [] then Keys(rows[0]) else []
  }

  /** The field names as the string nodes `names(fields)` receives. */
  function FieldNodes(fields: seq<string>): (r: seq<Node>)
    ensures |r| == |fields|
    decreases |fields|
  {
    if fields == [] then [] else [Str(fields[0])] + FieldNodes(fields[1..])
  }

  /** Each field name escaped on its own. */
  function FieldNames(esc: string, fields: seq<string>): (r: seq<string>)
    ensures |r| == |fields|
    decreases |fields|
  {
    if fields == [] then [] else [NameStr(esc, fields[0], map[])] + FieldNames(esc, fields[1..])
  }

  /** What `toString()` reads besides the shared parts. */
  datatype InsertParts = InsertParts(into: Node, values: seq<Record>, returning: seq<Node>)

  /** `toString()`: a target is required before the dialect is consulted;
      the column list and the rows follow it. */
  function InsertSql(d: Option<Snapshot>, schema: SchemaRef, c: Common, p: InsertParts): Result<string>
  {
    if !Truthy(p.into) then Err(MissingClause("INSERT", "INTO"))
    else if d.None? then Err(MissingDialect)
    else
      var env := d.value.env;
      var cte :- CteSql(c.ctes);
      var into :- NameOf(env, p.into, map[]);
      var fields :- Names(env, List(FieldNodes(InsertFields(p.values))), map[]);
      var returning :- Names(env, List(p.returning), map[]);
      Ok(cte + "INSERT" + FlagsSql(c.flags) + Clause("INTO", into) + Chunk("(" + fields + ")") +
         ValuesSql(env, schema, p.values) + Clause("RETURNING", returning))
  }

  // ---------------------------------------------------------------------
  // What the rendering promises.

  /** The value at position `i` of a row is the value of the row's column
      at position `i`, cast with that column's name. */
  lemma {:induction false} RowValueAt(env: Env, schema: SchemaRef, row: Record, i: int)
    requires 0 <= i < |row|
    ensures RowValues(env, schema, row)[i] == Value(env.quoter, env.caster, row[i].1, ColumnStates(row[i].0, schema))
    decreases |row|
  {
    if i < |row| - 1 {
      var front := row[..|row| - 1];
      RowValueAt(env, schema, front, i);
      assert front[i] == row[i];
    }
  }

  /** Row `i` of the statement is rendered from row `i` alone, in that
      row's own column order. */
  lemma {:induction false} RowAt(env: Env, schema: SchemaRef, rows: seq<Record>, i: int)
    requires 0 <= i < |rows|
    ensures Rows(env, schema, rows)[i] == "(" + Join(RowValues(env, schema, rows[i]), ", ") + ")"
    decreases |rows|
  {
    if i < |rows| - 1 {
      var front := rows[..|rows| - 1];
      RowAt(env, schema, front, i);
      assert front[i] == rows[i];
    }
  }

  /** String field names never fail and are escaped one by one, a repeated
      name once. */
  lemma {:induction false} FieldEscapes(env: Env, acc: seq<string>, fields: seq<string>)
    ensures EscapesFrom(env, acc, FieldNodes(fields), "", map[]) == Ok(AddAll(acc, FieldNames(env.escape, fields)))
    decreases |fields|
  {
    if fields != [] {
      var n := NameStr(env.escape, fields[0], map[]);
      var items := FieldNodes(fields);
      assert items[0] == Str(fields[0]) && items[1..] == FieldNodes(fields[1..]);
      assert EscapeItem(env, Str(fields[0]), "", map[]) == Ok([n]);
      assert AddAll(acc, [n]) == Add(acc, n) by {
        assert [n][1..] == [];
      }
      FieldEscapes(env, Add(acc, n), fields[1..]);
      var names := FieldNames(env.escape, fields);
      assert names[0] == n && names[1..] == FieldNames(env.escape, fields[1..]);
    }
  }

  /** The column list names the distinct keys of the first row. */
  lemma ColumnList(env: Env, rows: seq<Record>)
    ensures Names(env, List(FieldNodes(InsertFields(rows))), map[]) ==
            Ok(Join(AddAll([], FieldNames(env.escape, InsertFields(rows))), ", "))
  {
    FieldEscapes(env, [], InsertFields(rows));
  }

  /** The statement is refused without a target, whatever the dialect. */
  lemma RequiresInto(d: Option<Snapshot>, schema: SchemaRef, c: Common, p: InsertParts)
    ensures InsertSql(d, schema, c, p).Ok? ==> Truthy(p.into) && d.Some?
    ensures !Truthy(p.into) ==> InsertSql(d, schema, c, p) == Err(MissingClause("INSERT", "INTO"))
  {
  }

  /** Without rows the column list and the `VALUES` clause are empty, but
      both are still written. */
  lemma NoRows(s: Snapshot, schema: SchemaRef, t: string)
    requires t != ""
    ensures InsertSql(Some(s), schema, Common([], [], [], [], ""), InsertParts(Str(t), [], [])) ==
            Ok("INSERT INTO " + NameStr(s.env.escape, t, map[]) + " () VALUES ")
  {
    var env := s.env;
    var n := NameStr(env.escape, t, map[]);
    NameNonEmpty(env.escape, t, map[]);
    assert InsertFields([]) == [] && FieldNodes([]) == [];
    assert Names(env, List([]), map[]) == Ok("") by { NoNames(env, DefaultOptions); }
    Rendered(s, schema, Common([], [], [], [], ""), InsertParts(Str(t), [], []), "", n, "", "");
    assert ValuesSql(env, schema, []) == " VALUES ";
    NoRowsText(n);
  }

  /** The empty parts of a statement without rows add nothing to its text. */
  lemma NoRowsText(n: string)
    requires n != ""
    ensures "" + "INSERT" + FlagsSql([]) + Clause("INTO", n) + Chunk("(" + "" + ")") + " VALUES " + Clause("RETURNING", "")
            == "INSERT INTO " + n + " () VALUES "
  {
    assert "(" + "" + ")" == "()";
    assert Clause("INTO", n) == " INTO " + n && Chunk("()") == " ()";
    assert FlagsSql([]) == "" && Clause("RETURNING", "") == "";
    assert "" + "INSERT" + "" + (" INTO " + n) + " ()" + " VALUES " + "" == "INSERT INTO " + n + " () VALUES ";
  }

  /** A named target without returned columns: the flags follow `INSERT`,
      the column list names the keys of the first row, and every row
      follows `VALUES`. */
  lemma InsertInto(s: Snapshot, schema: SchemaRef, flags: seq<(string, bool)>, t: string, rows: seq<Record>)
    requires t != ""
    ensures InsertSql(Some(s), schema, Common(flags, [], [], [], ""), InsertParts(Str(t), rows, [])) ==
            Ok("INSERT" + FlagsSql(flags) + " INTO " + NameStr(s.env.escape, t, map[]) +
               " (" + Join(AddAll([], FieldNames(s.env.escape, InsertFields(rows))), ", ") + ")" +
               ValuesSql(s.env, schema, rows))
  {
    var env := s.env;
    var n := NameStr(env.escape, t, map[]);
    var cols := Join(AddAll([], FieldNames(env.escape, InsertFields(rows))), ", ");
    NameNonEmpty(env.escape, t, map[]);
    ColumnList(env, rows);
    assert Names(env, List([]), map[]) == Ok("") by { NoNames(env, DefaultOptions); }
    Rendered(s, schema, Common(flags, [], [], [], ""), InsertParts(Str(t), rows, []), "", n, cols, "");
    IntoText(FlagsSql(flags), n, cols, ValuesSql(env, schema, rows));
  }

  lemma IntoText(flags: string, n: string, cols: string, rows: string)
    requires n != ""
    ensures "" + "INSERT" + flags + Clause("INTO", n) + Chunk("(" + cols + ")") + rows + Clause("RETURNING", "")
            == "INSERT" + flags + " INTO " + n + " (" + cols + ")" + rows
  {
    assert Clause("INTO", n) == " INTO " + n;
    assert Chunk("(" + cols + ")") == " " + ("(" + cols + ")");
    assert Clause("RETURNING", "") == "";
    assert "" + "INSERT" + flags + (" INTO " + n) + (" " + ("(" + cols + ")")) + rows + "" ==
           "INSERT" + flags + " INTO " + n + " (" + cols + ")" + rows;
  }

  /** The rendering once the dialect's names are known. */
  lemma Rendered(s: Snapshot, schema: SchemaRef, c: Common, p: InsertParts, cte: string, into: string, fields: string, returning: string)
    requires Truthy(p.into)
    requires CteSql(c.ctes) == Ok(cte)
    requires NameOf(s.env, p.into, map[]) == Ok(into)
    requires Names(s.env, List(FieldNodes(InsertFields(p.values))), map[]) == Ok(fields)
    requires Names(s.env, List(p.returning), map[]) == Ok(returning)
    ensures InsertSql(Some(s), schema, c, p) ==
            Ok(cte + "INSERT" + FlagsSql(c.flags) + Clause("INTO", into) + Chunk("(" + fields + ")") +
               ValuesSql(s.env, schema, p.values) + Clause("RETURNING", returning))
  {
  }

  class Insert {
    const base: Statement
    /** `config.schema || null`. */
    const schema: SchemaRef
    var into: Node
    var values: seq<Record>
    /** Filled by the PostgreSQL statement only. */
    var returning: seq<Node>

    constructor(d: Option<Dialect>, schema0: SchemaRef)
      ensures fresh(base)
      ensures base.dialect == d && base.Parts() == Common([], [], [], [], "") && base.extra == map[]
      ensures schema == schema0 && Parts() == InsertParts(Str(""), [], [])
    {
      base := new Statement(d);
      schema := schema0;
      into := Str("");
      values := [];
      returning := [];
    }

    function Parts(): InsertParts
      reads this
    {
      InsertParts(into, values, returning)
    }

    /** `into(into)`. */
    method Into(t: Node)
      modifies this`into
      ensures into == t
    {
      into := t;
    }

    /** `values(values)`: one more row. */
    method Values(row: Record)
      modifies this`values
      ensures values == old(values) + [row]
    {
      values := values + [row];
    }

    /** The inner loop of `_buildValues()`: the entries of one row. */
    method BuildRow(env: Env, row: Record) returns (r: string)
      ensures r == RowSql(env, schema, row)
    {
      var data: seq<string> := [];
      var k := 0;
      while k < |row|
        invariant 0 <= k <= |row|
        invariant data == RowValues(env, schema, row[..k])
      {
        var key := row[k].0;
        data := data + [Value(env.quoter, env.caster, row[k].1, States(map[], map[], Some(Str(key)), if schema.NullSchema? then None else Some(schema), None))];
        assert row[..k + 1][..k] == row[..k];
        k := k + 1;
      }
      assert row[..k] == row;
      r := "(" + Join(data, ", ") + ")";
    }

    /** `_buildValues()`: the outer loop over the rows. */
    method BuildValues(env: Env) returns (r: string)
      ensures r == ValuesSql(env, schema, values)
    {
      var parts: seq<string> := [];
      var i := 0;
      while i < |values|
        invariant 0 <= i <= |values|
        invariant parts == Rows(env, schema, values[..i])
      {
        var row := BuildRow(env, values[i]);
        parts := parts + [row];
        assert values[..i + 1][..i] == values[..i];
        i := i + 1;
      }
      assert values[..i] == values;
      r := " VALUES " + Join(parts, ", ");
    }

    /** `toString()`. */
    method ToString() returns (r: Result<string>)
      ensures r == InsertSql(StateOf(base.dialect), schema, base.Parts(), Parts())
    {
      if !Truthy(into) {
        return Err(MissingClause("INSERT", "INTO"));
      }
      var fields := if |values| > 0 then Keys(values[0]) else [];
      var d :- base.GetDialect();
      var env := d.CompilerEnv();
      var cte :- base.BuildCte();
      var flags := base.BuildFlags();
      var target :- NameOf(env, into, map[]);
      var columns :- Names(env, List(FieldNodes(fields)), map[]);
      var rows := BuildValues(env);
      var ret :- Names(env, List(returning), map[]);
      r := Ok(cte + "INSERT" + flags + Clause("INTO", target) + Chunk("(" + columns + ")") + rows + Clause("RETURNING", ret));
    }
  }
}
