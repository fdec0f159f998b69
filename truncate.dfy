// The `TRUNCATE` statement: one table (or a list of them).

module Truncates {

  import opened Wrappers
  import opened Text
  import opened Nodes
  import opened Identifiers
  import opened Compiler
  import opened Dialects
  import opened Statements

  /** `toString()`: a table is required before the dialect is consulted. */
  function TruncateSql(d: Option<Snapshot>, table: Node): Result<string>
  {
    if !Truthy(table) then Err(MissingClause("TRUNCATE", "TABLE"))
    else if d.None? then Err(MissingDialect)
    else
      var names :- Names(d.value.env, table, map[]);
      Ok("TRUNCATE" + Clause("TABLE", names))
  }

  /** The statement is refused without a table, whatever the dialect. */
  lemma RequiresTable(d: Option<Snapshot>, table: Node)
    ensures TruncateSql(d, table).Ok? ==> Truthy(table) && d.Some?
    ensures !Truthy(table) ==> TruncateSql(d, table) == Err(MissingClause("TRUNCATE", "TABLE"))
  {
  }

  /** One named table. */
  lemma TruncateOne(s: Snapshot, t: string)
    requires t != ""
    ensures TruncateSql(Some(s), Str(t)) == Ok("TRUNCATE TABLE " + NameStr(s.env.escape, t, map[]))
  {
    var n := NameStr(s.env.escape, t, map[]);
    NameNonEmpty(s.env.escape, t, map[]);
    assert Names(s.env, Str(t), map[]) == Ok(n) by { OneNameStr(s.env, t); }
    Rendered(s, Str(t), n);
    TableText(n);
  }

  lemma TableText(n: string)
    requires n != ""
    ensures "TRUNCATE" + Clause("TABLE", n) == "TRUNCATE TABLE " + n
  {
    assert Clause("TABLE", n) == " TABLE " + n;
    assert "TRUNCATE" + (" TABLE " + n) == "TRUNCATE TABLE " + n;
  }

  /** The rendering once the dialect's names are known. */
  lemma Rendered(s: Snapshot, table: Node, names: string)
    requires Truthy(table)
    requires Names(s.env, table, map[]) == Ok(names)
    ensures TruncateSql(Some(s), table) == Ok("TRUNCATE" + Clause("TABLE", names))
  {
  }

  class Truncate {
    const base: Statement
    var table: Node

    constructor(d: Option<Dialect>)
      ensures fresh(base)
      ensures base.dialect == d && base.Parts() == Common([], [], [], [], "") && base.extra == map[]
      ensures table == Str("")
    {
      base := new Statement(d);
      table := Str("");
    }

    /** `table(table)`. */
    method Table(t: Node)
      modifies this`table
      ensures table == t
    {
      table := t;
    }

    /** `toString()`. */
    method ToString() returns (r: Result<string>)
      ensures r == TruncateSql(StateOf(base.dialect), table)
    {
      if !Truthy(table) {
        return Err(MissingClause("TRUNCATE", "TABLE"));
      }
      var d :- base.GetDialect();
      var names :- Names(d.CompilerEnv(), table, map[]);
      r := Ok("TRUNCATE" + Clause("TABLE", names));
    }
  }
}
