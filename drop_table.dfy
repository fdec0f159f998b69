// The `DROP TABLE` statement: the tables to drop and three flags.

module DropTables {

  import opened Wrappers
  import opened Text
  import opened Nodes
  import opened Identifiers
  import opened Compiler
  import opened Dialects
  import opened Statements

  /** What `toString()` reads. */
  datatype DropParts = DropParts(ifExists: bool, tables: seq<Node>, cascade: bool, restrict: bool)

  /** `toString()`: at least one table is required before the dialect is
      consulted. */
  function DropSql(d: Option<Snapshot>, p: DropParts): Result<string>
  {
    if p.tables == [] then Err(MissingClause("DROP TABLE", "TABLE"))
    else if d.None? then Err(MissingDialect)
    else
      var tables :- Names(d.value.env, List(p.tables), map[]);
      Ok("DROP TABLE" + Flag("IF EXISTS", p.ifExists) + Chunk(tables) + Flag("CASCADE", p.cascade) + Flag("RESTRICT", p.restrict))
  }

  // ---------------------------------------------------------------------
  // What the rendering promises.

  /** The statement is refused without tables, whatever the dialect. */
  lemma RequiresTables(d: Option<Snapshot>, p: DropParts)
    ensures DropSql(d, p).Ok? <==> p.tables != [] && d.Some? && Names(d.value.env, List(p.tables), map[]).Ok?
    ensures p.tables == [] ==> DropSql(d, p) == Err(MissingClause("DROP TABLE", "TABLE"))
  {
  }

  /** One named table: `IF EXISTS` is written before it, `CASCADE` and
      `RESTRICT` after it, each only when set. */
  lemma DropOne(s: Snapshot, t: string, ifExists: bool, cascade: bool, restrict: bool)
    requires t != ""
    ensures DropSql(Some(s), DropParts(ifExists, [Str(t)], cascade, restrict)) ==
            Ok("DROP TABLE" + Flag("IF EXISTS", ifExists) + " " + NameStr(s.env.escape, t, map[]) +
               Flag("CASCADE", cascade) + Flag("RESTRICT", restrict))
  {
    var n := NameStr(s.env.escape, t, map[]);
    NameNonEmpty(s.env.escape, t, map[]);
    OneName(s.env, t);
    FlagsText(n, ifExists, cascade, restrict);
  }

  lemma FlagsText(n: string, ifExists: bool, cascade: bool, restrict: bool)
    requires n != ""
    ensures "DROP TABLE" + Flag("IF EXISTS", ifExists) + Chunk(n) + Flag("CASCADE", cascade) + Flag("RESTRICT", restrict) ==
            "DROP TABLE" + Flag("IF EXISTS", ifExists) + " " + n + Flag("CASCADE", cascade) + Flag("RESTRICT", restrict)
  {
    var head := "DROP TABLE" + Flag("IF EXISTS", ifExists);
    assert Chunk(n) == " " + n;
    assert head + (" " + n) == head + " " + n;
  }

  class DropTable {
    const base: Statement
    var ifExists: bool
    var tables: seq<Node>
    var cascade: bool
    var restrict: bool

    constructor(d: Option<Dialect>)
      ensures fresh(base)
      ensures base.dialect == d && base.Parts() == Common([], [], [], [], "") && base.extra == map[]
      ensures Parts() == DropParts(false, [], false, false)
    {
      base := new Statement(d);
      ifExists := false;
      tables := [];
      cascade := false;
      restrict := false;
    }

    function Parts(): DropParts
      reads this
    {
      DropParts(ifExists, tables, cascade, restrict)
    }

    /** `ifExists(ifExists)`. */
    method IfExists(enable: Option<Node>)
      modifies this`ifExists
      ensures ifExists == Enable(enable)
    {
      ifExists := enable.None? || Truthy(enable.value);
    }

    /** `table(...tables)`: the given tables replace the earlier ones. */
    method Table(ts: seq<Node>)
      modifies this`tables
      ensures tables == ts
    {
      tables := ts;
    }

    /** `cascade(cascade = true)`. */
    method Cascade(enable: Option<Node>)
      modifies this`cascade
      ensures cascade == Enable(enable)
    {
      cascade := enable.None? || Truthy(enable.value);
    }

    /** `restrict(restrict = true)`. */
    method Restrict(enable: Option<Node>)
      modifies this`restrict
      ensures restrict == Enable(enable)
    {
      restrict := enable.None? || Truthy(enable.value);
    }

    /** `toString()`. */
    method ToString() returns (r: Result<string>)
      ensures r == DropSql(StateOf(base.dialect), Parts())
    {
      if |tables| == 0 {
        return Err(MissingClause("DROP TABLE", "TABLE"));
      }
      var d :- base.GetDialect();
      var names :- Names(d.CompilerEnv(), List(tables), map[]);
      r := Ok("DROP TABLE" + Flag("IF EXISTS", ifExists) + Chunk(names) + Flag("CASCADE", cascade) + Flag("RESTRICT", restrict));
    }
  }
}
