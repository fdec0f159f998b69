// The PostgreSQL statements: the SELECT lock modes, and the `RETURNING`
// list of INSERT, UPDATE and DELETE. Each class holds the base statement
// it extends.

module PostgreSqlStatements {

  import opened Wrappers
  import opened Text
  import opened Nodes
  import opened Identifiers
  import opened Casting
  import opened Compiler
  import opened Dialects
  import opened Statements
  import opened Selects
  import opened Inserts
  import opened Updates
  import opened Deletes

  // ---------------------------------------------------------------------
  // SELECT locks.

  /** The lock clause stored for a lowercased mode. */
  function LockClause(mode: string): Result<string>
  {
    if mode == "update" then Ok("FOR UPDATE")
    else if mode == "share" then Ok("FOR SHARE")
    else if mode == "no key update" then Ok("FOR NO KEY UPDATE")
    else if mode == "key share" then Ok("FOR KEY SHARE")
    else Err(InvalidLockMode("PostgreSQL", mode))
  }

  /** `lock(mode = 'update')`: the mode is lowercased, then looked up. */
  function LockFor(mode: Option<Node>): Result<string>
  {
    var m :- LockMode(mode);
    LockClause(m)
  }

  const Modes: seq<string> := ["update", "share", "no key update", "key share"]

  /** The four accepted modes, each with its own clause `FOR <MODE>`, and
      the error for any other string. */
  lemma LockModes(m: string)
    ensures LockClause(m).Ok? <==> m in Modes
    ensures LockClause(m).Ok? ==> LockClause(m).value == "FOR " + Upper(m)
    ensures !(m in Modes) ==> LockClause(m) == Err(InvalidLockMode("PostgreSQL", m))
  {
    UpperModes();
    if m == "update" {
      assert Modes[0] == m;
    } else if m == "share" {
      assert Modes[1] == m;
    } else if m == "no key update" {
      assert Modes[2] == m;
    } else if m == "key share" {
      assert Modes[3] == m;
    } else {
      assert forall i :: 0 <= i < |Modes| ==> Modes[i] != m;
    }
  }

  lemma UpperModes()
    ensures Upper("update") == "UPDATE" && Upper("share") == "SHARE"
    ensures Upper("no key update") == "NO KEY UPDATE" && Upper("key share") == "KEY SHARE"
  {
    assert Upper("update") == "UPDATE";
    assert Upper("share") == "SHARE";
    assert Upper("no key update") == "NO KEY UPDATE";
    assert Upper("key share") == "KEY SHARE";
  }

  /** Distinct modes store distinct clauses. */
  lemma LockClausesDistinct(a: string, b: string)
    requires LockClause(a).Ok? && LockClause(b).Ok? && LockClause(a) == LockClause(b)
    ensures a == b
  {
  }

  /** A missing mode locks for update, and modes are matched whatever
      their case. */
  lemma LockDefaults(s: string)
    ensures LockFor(None) == Ok("FOR UPDATE")
    ensures LockFor(Some(Str(s))) == LockFor(Some(Str(Lower(s))))
  {
    LowerIdempotent(s);
  }

  // ---------------------------------------------------------------------
  // RETURNING.

  /** `returning(fields)` of INSERT and UPDATE: a truthy argument is
      wrapped into a list, whose entries are appended. */
  function ReturningOf(fields: Node): seq<Node>
  {
    if Truthy(fields) then Wrap(fields) else []
  }

  /** `returning(...fields)` of DELETE: one array argument is the list,
      otherwise all arguments are; nothing is added when the first argument
      is falsy. */
  function DeleteReturningOf(args: seq<Node>): seq<Node>
  {
    if args == [] || !Truthy(args[0]) then []
    else if |args| == 1 && args[0].List? then args[0].items
    else args
  }

  /** `returning('*')` on a bare DELETE renders `RETURNING *` last. */
  lemma DeleteReturningStar(s: Snapshot, schema: SchemaRef, t: string)
    requires t != ""
    ensures DeleteSql(Some(s), schema, Common([], [], [], [], ""), DeleteParts(Str(t), DeleteReturningOf([Str("*")]))) ==
            Ok("DELETE FROM " + NameStr(s.env.escape, t, map[]) + " RETURNING *")
  {
    var env := s.env;
    var n := NameStr(env.escape, t, map[]);
    assert DeleteReturningOf([Str("*")]) == [Str("*")];
    assert NameStr(env.escape, "*", map[]) == "*";
    NameNonEmpty(env.escape, t, map[]);
    assert Names(env, Str(t), map[]) == Ok(n) by { OneNameStr(env, t); }
    assert Names(env, List([Str("*")]), map[]) == Ok("*") by { OneName(env, "*"); }
    assert Conditions(env, List([]), SchemaOptions(schema)) == Ok("") by { NoNames(env, SchemaOptions(schema)); }
    Deletes.Rendered(s, schema, Common([], [], [], [], ""), DeleteParts(Str(t), [Str("*")]), "", n, "", "*");
    StarText(env, n);
  }

  lemma StarText(env: Env, n: string)
    requires n != ""
    ensures "" + "DELETE" + FlagsSql([]) + Clause("FROM", n) + Clause("WHERE", "") +
            OrderSql(env, [], map[]) + Clause("LIMIT", "") + Clause("RETURNING", "*")
            == "DELETE FROM " + n + " RETURNING *"
  {
    var tail := " RETURNING *";
    assert Clause("RETURNING", "*") == tail;
    assert Clause("FROM", n) == " FROM " + n;
    assert Clause("WHERE", "") == "" && Clause("LIMIT", "") == "";
    assert FlagsSql([]) == "" && OrderSql(env, [], map[]) == "";
    assert "" + "DELETE" + "" + (" FROM " + n) + "" + "" + "" + tail == "DELETE FROM " + n + tail;
  }

  // ---------------------------------------------------------------------

  class PostgreSqlSelect {
    const select: Select

    constructor(d: Option<Dialect>)
      ensures fresh(select) && fresh(select.base)
      ensures select.base.dialect == d && select.base.Parts() == Common([], [], [], [], "")
      ensures select.Parts() == SelectParts(Query([], [], [], [], []), "", false, None)
    {
      select := new Select(d);
    }

    /** `lock(mode)`: an accepted mode stores its clause; any other mode is
        refused and the lock is kept. */
    method Lock(mode: Option<Node>) returns (r: Result<()>)
      modifies select`lock
      ensures LockFor(mode).Ok? ==> r == Ok(()) && select.lock == LockFor(mode).value
      ensures LockFor(mode).Err? ==> r == Err(LockFor(mode).error) && select.lock == old(select.lock)
    {
      var m :- LockMode(mode);
      if m == "update" {
        select.lock := "FOR UPDATE";
      } else if m == "share" {
        select.lock := "FOR SHARE";
      } else if m == "no key update" {
        select.lock := "FOR NO KEY UPDATE";
      } else if m == "key share" {
        select.lock := "FOR KEY SHARE";
      } else {
        return Err(InvalidLockMode("PostgreSQL", m));
      }
      r := Ok(());
    }
  }

  class PostgreSqlInsert {
    const insert: Insert

    constructor(d: Option<Dialect>, schema: SchemaRef)
      ensures fresh(insert) && fresh(insert.base)
      ensures insert.base.dialect == d && insert.base.Parts() == Common([], [], [], [], "")
      ensures insert.schema == schema && insert.Parts() == InsertParts(Str(""), [], [])
    {
      insert := new Insert(d, schema);
    }

    /** `returning(fields)`. */
    method Returning(fields: Node)
      modifies insert`returning
      ensures insert.returning == old(insert.returning) + ReturningOf(fields)
    {
      if !Truthy(fields) {
        return;
      }
      var arr := if fields.List? then fields.items else [fields];
      if |arr| > 0 {
        insert.returning := insert.returning + arr;
      }
    }
  }

  class PostgreSqlUpdate {
    const update: Update

    constructor(d: Option<Dialect>, schema: SchemaRef)
      ensures fresh(update) && fresh(update.base)
      ensures update.base.dialect == d && update.base.Parts() == Common([], [], [], [], "")
      ensures update.schema == schema && update.Parts() == UpdateParts(Str(""), [], [])
    {
      update := new Update(d, schema);
    }

    /** `returning(fields)`. */
    method Returning(fields: Node)
      modifies update`returning
      ensures update.returning == old(update.returning) + ReturningOf(fields)
    {
      if !Truthy(fields) {
        return;
      }
      var arr := if fields.List? then fields.items else [fields];
      if |arr| > 0 {
        update.returning := update.returning + arr;
      }
    }
  }

  class PostgreSqlDelete {
    const delete: Delete

    constructor(d: Option<Dialect>, schema: SchemaRef)
      ensures fresh(delete) && fresh(delete.base)
      ensures delete.base.dialect == d && delete.base.Parts() == Common([], [], [], [], "")
      ensures delete.schema == schema && delete.Parts() == DeleteParts(Str(""), [])
    {
      delete := new Delete(d, schema);
    }

    /** `returning(...fields)`. */
    method Returning(args: seq<Node>)
      modifies delete`returning
      ensures delete.returning == old(delete.returning) + DeleteReturningOf(args)
    {
      var arr := if |args| == 1 && args[0].List? then args[0].items else args;
      if |args| > 0 && Truthy(args[0]) {
        delete.returning := delete.returning + arr;
      }
    }
  }
}
