// The `UPDATE` statement: a table, the values to set (an ordered object of
// column names and values), and the parts every statement shares. The
// `SET` loop is a method proved equal to the function it is specified by.

module Updates {

  import opened Wrappers
  import opened Text
  import opened Nodes
  import opened Identifiers
  import opened Casting
  import opened Compiler
  import opened Dialects
  import opened Statements

  /** One `SET` assignment: the escaped column name, and the value cast
      knowing its column and the statement's schema. */
  function Assignment(env: Env, schema: SchemaRef, e: (string, Node)): string
  {
    NameStr(env.escape, e.0, map[]) + " = " + Value(env.quoter, env.caster, e.1, ColumnStates(e.0, schema))
  }

  /** The assignments of the values, in their order. */
  function Assignments(env: Env, schema: SchemaRef, values: Record): (r: seq<string>)
    ensures |r| == |values|
    decreases |values|
  {
    if values == [] then []
    else Assignments(env, schema, values[..|values| - 1]) + [Assignment(env, schema, values[|values| - 1])]
  }

  /** `_buildSet()`. */
  function SetSql(env: Env, schema: SchemaRef, values: Record): string
  {
    var items := Assignments(env, schema, values);
    if items != [] then " SET " + Join(items, ", ") else ""
  }

  /** What `toString()` reads besides the shared parts. */
  datatype UpdateParts = UpdateParts(table: Node, values: Record, returning: seq<Node>)

  /** `toString()`: a table and at least one value are required, and the
      `WITH` prefix is built, before the dialect is consulted; the parts are
      then rendered in clause order. */
  function UpdateSql(d: Option<Snapshot>, schema: SchemaRef, c: Common, p: UpdateParts): Result<string>
  {
    if !Truthy(p.table) then Err(MissingClause("UPDATE", "TABLE"))
    else if p.values == [] then Err(MissingClause("UPDATE", "VALUES"))
    else
      var cte :- CteSql(c.ctes);
      if d.None? then Err(MissingDialect)
      else
        var env := d.value.env;
        var table :- Names(env, p.table, map[]);
        var where :- Conditions(env, List(c.where), SchemaOptions(schema));
        var returning :- Names(env, List(p.returning), map[]);
        Ok(cte + "UPDATE" + FlagsSql(c.flags) + Chunk(table) + SetSql(env, schema, p.values) +
           Clause("WHERE", where) + OrderSql(env, c.order, map[]) + Clause("LIMIT", c.limit) + Clause("RETURNING", returning))
  }

  // ---------------------------------------------------------------------
  // What the rendering promises.

  /** The assignment at position `i` sets the column at position `i` to its
      own value: one assignment per column, in the order of the values. */
  lemma {:induction false} AssignmentAt(env: Env, schema: SchemaRef, values: Record, i: int)
    requires 0 <= i < |values|
    ensures Assignments(env, schema, values)[i] ==
            NameStr(env.escape, values[i].0, map[]) + " = " + Value(env.quoter, env.caster, values[i].1, ColumnStates(values[i].0, schema))
    decreases |values|
  {
    if i < |values| - 1 {
      var front := values[..|values| - 1];
      AssignmentAt(env, schema, front, i);
      assert front[i] == values[i];
    }
  }

  /** The statement is refused without a table or without values, in that
      order, whatever the dialect. */
  lemma RequiresTableAndValues(d: Option<Snapshot>, schema: SchemaRef, c: Common, p: UpdateParts)
    ensures UpdateSql(d, schema, c, p).Ok? ==> Truthy(p.table) && p.values != [] && d.Some?
    ensures !Truthy(p.table) ==> UpdateSql(d, schema, c, p) == Err(MissingClause("UPDATE", "TABLE"))
    ensures Truthy(p.table) && p.values == [] ==> UpdateSql(d, schema, c, p) == Err(MissingClause("UPDATE", "VALUES"))
  {
  }

  /** A table and some values with nothing else give the bare statement:
      every row of the table is updated. */
  lemma UpdateAll(s: Snapshot, schema: SchemaRef, t: string, values: Record)
    requires t != "" && values != []
    ensures UpdateSql(Some(s), schema, Common([], [], [], [], ""), UpdateParts(Str(t), values, [])) ==
            Ok("UPDATE " + NameStr(s.env.escape, t, map[]) + " SET " + Join(Assignments(s.env, schema, values), ", "))
  {
    var env := s.env;
    var n := NameStr(env.escape, t, map[]);
    var setSql := " SET " + Join(Assignments(env, schema, values), ", ");
    var c := Common([], [], [], [], "");
    var p := UpdateParts(Str(t), values, []);
    assert SetSql(env, schema, values) == setSql;
    assert Names(env, Str(t), map[]) == Ok(n) by { OneNameStr(env, t); }
    assert Conditions(env, List([]), SchemaOptions(schema)) == Ok("") && Names(env, List([]), map[]) == Ok("") by {
      NoNames(env, SchemaOptions(schema));
    }
    Rendered(s, schema, c, p, "", n, "", "");
    NameNonEmpty(env.escape, t, map[]);
    BareText(env, n, setSql);
    assert "UPDATE " + n + setSql == "UPDATE " + n + " SET " + Join(Assignments(env, schema, values), ", ");
  }

  /** The empty parts of a bare statement add nothing to its text. */
  lemma BareText(env: Env, n: string, setSql: string)
    requires n != ""
    ensures "" + "UPDATE" + FlagsSql([]) + Chunk(n) + setSql +
            Clause("WHERE", "") + OrderSql(env, [], map[]) + Clause("LIMIT", "") + Clause("RETURNING", "")
            == "UPDATE " + n + setSql
  {
    assert Chunk(n) == " " + n;
    assert Clause("WHERE", "") == "" && Clause("LIMIT", "") == "" && Clause("RETURNING", "") == "";
    assert FlagsSql([]) == "" && OrderSql(env, [], map[]) == "";
    assert "" + "UPDATE" + "" + " " + n + setSql + "" + "" + "" + "" == "UPDATE " + n + setSql;
  }

  /** The rendering once the dialect's names and conditions are known. */
  lemma Rendered(s: Snapshot, schema: SchemaRef, c: Common, p: UpdateParts, cte: string, table: string, where: string, returning: string)
    requires Truthy(p.table) && p.values != []
    requires CteSql(c.ctes) == Ok(cte)
    requires Names(s.env, p.table, map[]) == Ok(table)
    requires Conditions(s.env, List(c.where), SchemaOptions(schema)) == Ok(where)
    requires Names(s.env, List(p.returning), map[]) == Ok(returning)
    ensures UpdateSql(Some(s), schema, c, p) ==
            Ok(cte + "UPDATE" + FlagsSql(c.flags) + Chunk(table) + SetSql(s.env, schema, p.values) +
               Clause("WHERE", where) + OrderSql(s.env, c.order, map[]) + Clause("LIMIT", c.limit) + Clause("RETURNING", returning))
  {
  }

  class Update {
    const base: Statement
    /** `config.schema || null`. */
    const schema: SchemaRef
    var table: Node
    var values: Record
    /** Filled by the PostgreSQL statement only. */
    var returning: seq<Node>

    constructor(d: Option<Dialect>, schema0: SchemaRef)
      ensures fresh(base)
      ensures base.dialect == d && base.Parts() == Common([], [], [], [], "") && base.extra == map[]
      ensures schema == schema0 && Parts() == UpdateParts(Str(""), [], [])
    {
      base := new Statement(d);
      schema := schema0;
      table := Str("");
      values := [];
      returning := [];
    }

    function Parts(): UpdateParts
      reads this
    {
      UpdateParts(table, values, returning)
    }

    /** `table(table)`. */
    method Table(t: Node)
      modifies this`table
      ensures table == t
    {
      table := t;
    }

    /** `values(values)`: the given values replace the earlier ones. */
    method Values(v: Record)
      modifies this`values
      ensures values == v
    {
      values := v;
    }

    /** `_buildSet()`: the `for..in` loop over the values. */
    method BuildSet(env: Env) returns (r: string)
      ensures r == SetSql(env, schema, values)
    {
      var items: seq<string> := [];
      var i := 0;
      while i < |values|
        invariant 0 <= i <= |values|
        invariant items == Assignments(env, schema, values[..i])
      {
        var key := values[i].0;
        var states := States(map[], map[], Some(Str(key)), None, None);
        if !schema.NullSchema? {
          states := states.(schema := Some(schema));
        }
        items := items + [NameStr(env.escape, key, map[]) + " = " + Value(env.quoter, env.caster, values[i].1, states)];
        assert values[..i + 1][..i] == values[..i];
        i := i + 1;
      }
      assert values[..i] == values;
      r := if |items| > 0 then " SET " + Join(items, ", ") else "";
    }

    /** `toString()`. */
    method ToString() returns (r: Result<string>)
      ensures r == UpdateSql(StateOf(base.dialect), schema, base.Parts(), Parts())
    {
      if !Truthy(table) {
        return Err(MissingClause("UPDATE", "TABLE"));
      }
      if values == [] {
        return Err(MissingClause("UPDATE", "VALUES"));
      }
      var cte :- base.BuildCte();
      var d :- base.GetDialect();
      var env := d.CompilerEnv();
      var flags := base.BuildFlags();
      var name :- Names(env, table, map[]);
      var setSql := BuildSet(env);
      var where :- Conditions(env, List(base.where), SchemaOptions(schema));
      var order := base.BuildOrder(env, map[]);
      var ret :- Names(env, List(returning), map[]);
      r := Ok(cte + "UPDATE" + flags + Chunk(name) + setSql + Clause("WHERE", where) + order + Clause("LIMIT", base.limit) + Clause("RETURNING", ret));
    }
  }
}
