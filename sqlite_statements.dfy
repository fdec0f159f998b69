// The SQLite statements: the conflict clause of INSERT and UPDATE, and a
// TRUNCATE written as two DELETEs, since SQLite has no TRUNCATE. Each
// class holds the base statement it extends.

module SqliteStatements {

  import opened Wrappers
  import opened Text
  import opened Ordered
  import opened Nodes
  import opened Identifiers
  import opened Casting
  import opened Compiler
  import opened Dialects
  import opened Statements
  import opened Inserts
  import opened Updates

  // ---------------------------------------------------------------------
  // Conflict clauses.

  datatype ConflictOption = OrAbort | OrFail | OrIgnore | OrReplace | OrRollback

  function ConflictKeyword(o: ConflictOption): string
  {
    match o
    case OrAbort => "OR ABORT"
    case OrFail => "OR FAIL"
    case OrIgnore => "OR IGNORE"
    case OrReplace => "OR REPLACE"
    case OrRollback => "OR ROLLBACK"
  }

  /** Each setter has its own flag. */
  lemma KeywordsDistinct()
    ensures forall a: ConflictOption, b: ConflictOption :: ConflictKeyword(a) == ConflictKeyword(b) ==> a == b
  {
  }

  /** The conflict clause set on an INSERT without other flags goes right
      after `INSERT`: `INSERT OR ABORT INTO t (...) VALUES ...`. */
  lemma InsertOr(s: Snapshot, schema: SchemaRef, o: ConflictOption, t: string, rows: seq<Record>)
    requires t != ""
    ensures InsertSql(Some(s), schema, Common(Put([], ConflictKeyword(o), true), [], [], [], ""), InsertParts(Str(t), rows, [])) ==
            Ok("INSERT " + ConflictKeyword(o) + " INTO " + NameStr(s.env.escape, t, map[]) +
               " (" + Join(AddAll([], FieldNames(s.env.escape, InsertFields(rows))), ", ") + ")" +
               ValuesSql(s.env, schema, rows))
  {
    var flags := Put([], ConflictKeyword(o), true);
    assert FlagsSql(flags) == " " + ConflictKeyword(o) by {
      SetNewFlag([], ConflictKeyword(o), true);
      assert FlagsSql([]) == "";
    }
    InsertInto(s, schema, flags, t, rows);
    OrText(ConflictKeyword(o), NameStr(s.env.escape, t, map[]),
           Join(AddAll([], FieldNames(s.env.escape, InsertFields(rows))), ", "), ValuesSql(s.env, schema, rows));
  }

  lemma OrText(k: string, n: string, cols: string, rows: string)
    ensures "INSERT" + (" " + k) + " INTO " + n + " (" + cols + ")" + rows ==
            "INSERT " + k + " INTO " + n + " (" + cols + ")" + rows
  {
    assert "INSERT" + (" " + k) == "INSERT " + k;
  }

  // ---------------------------------------------------------------------
  // TRUNCATE.

  /** `toString()`: the rows are deleted, then the table's entry in
      `SQLITE_SEQUENCE`, which resets its autoincrement counter. */
  function TruncateSql(d: Option<Snapshot>, table: Node): Result<string>
  {
    if !Truthy(table) then Err(MissingClause("TRUNCATE", "TABLE"))
    else if d.None? then Err(MissingDialect)
    else
      var env := d.value.env;
      var names :- Names(env, table, map[]);
      var sequence :- Names(env, Str("SQLITE_SEQUENCE"), map[]);
      Ok("DELETE" + Clause("FROM", names) + ";" + "DELETE" + Clause("FROM", sequence) + " WHERE name=" + names)
  }

  /** The statement is refused without a table, whatever the dialect. */
  lemma RequiresTable(d: Option<Snapshot>, table: Node)
    ensures TruncateSql(d, table).Ok? ==> Truthy(table) && d.Some?
    ensures !Truthy(table) ==> TruncateSql(d, table) == Err(MissingClause("TRUNCATE", "TABLE"))
  {
  }

  /** One named table: both statements name it, the second one compares
      the sequence entry's name with the escaped table name. */
  lemma TruncateOne(s: Snapshot, t: string)
    requires t != ""
    ensures var n := NameStr(s.env.escape, t, map[]);
            TruncateSql(Some(s), Str(t)) ==
            Ok("DELETE FROM " + n + ";DELETE FROM " + (s.env.escape + "SQLITE_SEQUENCE" + s.env.escape) + " WHERE name=" + n)
  {
    var esc := s.env.escape;
    var n := NameStr(esc, t, map[]);
    var q := esc + "SQLITE_SEQUENCE" + esc;
    NameNonEmpty(esc, t, map[]);
    assert Names(s.env, Str(t), map[]) == Ok(n) by { OneNameStr(s.env, t); }
    assert Names(s.env, Str("SQLITE_SEQUENCE"), map[]) == Ok(q) by { SequenceName(s.env); }
    TruncateRendered(s, Str(t), n, q);
    TruncateText(n, q);
  }

  /** `SQLITE_SEQUENCE` is escaped whole. */
  lemma SequenceName(env: Env)
    ensures Names(env, Str("SQLITE_SEQUENCE"), map[]) == Ok(env.escape + "SQLITE_SEQUENCE" + env.escape)
  {
    var w := "SQLITE_SEQUENCE";
    assert NameStr(env.escape, w, map[]) == env.escape + w + env.escape by {
      assert '.' !in w && w != "*";
      NameStrPlain(env.escape, w, map[]);
    }
    assert Names(env, Str(w), map[]) == Ok(NameStr(env.escape, w, map[])) by { OneNameStr(env, w); }
  }

  /** The rendering once the dialect's names are known. */
  lemma TruncateRendered(s: Snapshot, table: Node, names: string, sequence: string)
    requires Truthy(table)
    requires Names(s.env, table, map[]) == Ok(names)
    requires Names(s.env, Str("SQLITE_SEQUENCE"), map[]) == Ok(sequence)
    ensures TruncateSql(Some(s), table) ==
            Ok("DELETE" + Clause("FROM", names) + ";" + "DELETE" + Clause("FROM", sequence) + " WHERE name=" + names)
  {
  }

  lemma TruncateText(n: string, q: string)
    requires n != ""
    requires q != ""
    ensures "DELETE" + Clause("FROM", n) + ";" + "DELETE" + Clause("FROM", q) + " WHERE name=" + n ==
            "DELETE FROM " + n + ";DELETE FROM " + q + " WHERE name=" + n
  {
    assert Clause("FROM", n) == " FROM " + n;
    assert Clause("FROM", q) == " FROM " + q;
    assert "DELETE" + (" FROM " + n) + ";" + "DELETE" + (" FROM " + q) + " WHERE name=" + n ==
           "DELETE FROM " + n + ";DELETE FROM " + q + " WHERE name=" + n;
  }

  // ---------------------------------------------------------------------

  class SqliteInsert {
    const insert: Insert

    constructor(d: Option<Dialect>, schema: SchemaRef)
      ensures fresh(insert) && fresh(insert.base)
      ensures insert.base.dialect == d && insert.base.Parts() == Common([], [], [], [], "")
      ensures insert.schema == schema && insert.Parts() == InsertParts(Str(""), [], [])
    {
      insert := new Insert(d, schema);
    }

    /** `orAbort()`, `orFail()`, `orIgnore()`, `orReplace()`, `orRollback()`. */
    method SetOption(o: ConflictOption, enable: Option<Node>)
      modifies insert.base`flags
      ensures insert.base.flags == Put(old(insert.base.flags), ConflictKeyword(o), Enable(enable))
      ensures insert.base.GetFlag(ConflictKeyword(o)) == Some(Enable(enable))
      ensures forall f :: f != ConflictKeyword(o) ==> insert.base.GetFlag(f) == old(insert.base.GetFlag(f))
    {
      var _ := insert.base.SetFlag(ConflictKeyword(o), enable);
    }
  }

  class SqliteUpdate {
    const update: Update

    constructor(d: Option<Dialect>, schema: SchemaRef)
      ensures fresh(update) && fresh(update.base)
      ensures update.base.dialect == d && update.base.Parts() == Common([], [], [], [], "")
      ensures update.schema == schema && update.Parts() == UpdateParts(Str(""), [], [])
    {
      update := new Update(d, schema);
    }

    /** `orAbort()`, `orFail()`, `orIgnore()`, `orReplace()`, `orRollback()`. */
    method SetOption(o: ConflictOption, enable: Option<Node>)
      modifies update.base`flags
      ensures update.base.flags == Put(old(update.base.flags), ConflictKeyword(o), Enable(enable))
      ensures update.base.GetFlag(ConflictKeyword(o)) == Some(Enable(enable))
      ensures forall f :: f != ConflictKeyword(o) ==> update.base.GetFlag(f) == old(update.base.GetFlag(f))
    {
      var _ := update.base.SetFlag(ConflictKeyword(o), enable);
    }
  }

  class SqliteTruncate {
    const base: Statement
    /** `config.schema`; kept, never read. */
    const schema: SchemaRef
    var table: Node

    constructor(d: Option<Dialect>, schema0: SchemaRef)
      ensures fresh(base)
      ensures base.dialect == d && base.Parts() == Common([], [], [], [], "") && base.extra == map[]
      ensures schema == schema0 && table == Str("")
    {
      base := new Statement(d);
      schema := schema0;
      table := Str("");
    }

    /** `table(table)`. */
    method Table(t: Node)
      modifies this`table
      ensures table == t
    {
      table := t;
    }

    /** `toString()`. */
    method ToString() returns (r: Result<string>)
      ensures r == TruncateSql(StateOf(base.dialect), table)
    {
      if !Truthy(table) {
        return Err(MissingClause("TRUNCATE", "TABLE"));
      }
      var d :- base.GetDialect();
      var env := d.CompilerEnv();
      var names :- Names(env, table, map[]);
      var sequence :- Names(env, Str("SQLITE_SEQUENCE"), map[]);
      r := Ok("DELETE" + Clause("FROM", names) + ";" + "DELETE" + Clause("FROM", sequence) + " WHERE name=" + names);
    }
  }
}
