// The `DELETE` statement: a source table and the parts every statement
// shares.

module Deletes {

  import opened Wrappers
  import opened Text
  import opened Nodes
  import opened Identifiers
  import opened Casting
  import opened Compiler
  import opened Dialects
  import opened Statements

  /** What `toString()` reads besides the shared parts. */
  datatype DeleteParts = DeleteParts(from: Node, returning: seq<Node>)

  /** `toString()`: a source is required before the dialect is consulted;
      the parts are then rendered in clause order. */
  function DeleteSql(d: Option<Snapshot>, schema: SchemaRef, c: Common, p: DeleteParts): Result<string>
  {
    if !Truthy(p.from) then Err(MissingClause("DELETE", "FROM"))
    else if d.None? then Err(MissingDialect)
    else
      var env := d.value.env;
      var cte :- CteSql(c.ctes);
      var from :- Names(env, p.from, map[]);
      var where :- Conditions(env, List(c.where), SchemaOptions(schema));
      var returning :- Names(env, List(p.returning), map[]);
      Ok(cte + "DELETE" + FlagsSql(c.flags) + Clause("FROM", from) + Clause("WHERE", where) +
         OrderSql(env, c.order, map[]) + Clause("LIMIT", c.limit) + Clause("RETURNING", returning))
  }

  // ---------------------------------------------------------------------
  // What the rendering promises.

  /** The statement is refused without a source, whatever the dialect. */
  lemma RequiresFrom(d: Option<Snapshot>, schema: SchemaRef, c: Common, p: DeleteParts)
    ensures DeleteSql(d, schema, c, p).Ok? ==> Truthy(p.from) && d.Some?
    ensures !Truthy(p.from) ==> DeleteSql(d, schema, c, p) == Err(MissingClause("DELETE", "FROM"))
  {
  }

  /** A source with nothing else deletes every row of it. */
  lemma DeleteAll(s: Snapshot, schema: SchemaRef, t: string)
    requires t != ""
    ensures DeleteSql(Some(s), schema, Common([], [], [], [], ""), DeleteParts(Str(t), [])) ==
            Ok("DELETE FROM " + NameStr(s.env.escape, t, map[]))
  {
    var env := s.env;
    var n := NameStr(env.escape, t, map[]);
    NameNonEmpty(env.escape, t, map[]);
    assert Names(env, Str(t), map[]) == Ok(n) by { OneNameStr(env, t); }
    assert Conditions(env, List([]), SchemaOptions(schema)) == Ok("") && Names(env, List([]), map[]) == Ok("") by {
      NoNames(env, SchemaOptions(schema));
    }
    Rendered(s, schema, Common([], [], [], [], ""), DeleteParts(Str(t), []), "", n, "", "");
    BareText(env, n);
  }

  /** The empty parts of a bare statement add nothing to its text. */
  lemma BareText(env: Env, n: string)
    requires n != ""
    ensures "" + "DELETE" + FlagsSql([]) + Clause("FROM", n) + Clause("WHERE", "") +
            OrderSql(env, [], map[]) + Clause("LIMIT", "") + Clause("RETURNING", "")
            == "DELETE FROM " + n
  {
    assert Clause("FROM", n) == " FROM " + n;
    assert Clause("WHERE", "") == "" && Clause("LIMIT", "") == "" && Clause("RETURNING", "") == "";
    assert FlagsSql([]) == "" && OrderSql(env, [], map[]) == "";
    assert "" + "DELETE" + "" + (" FROM " + n) + "" + "" + "" + "" == "DELETE FROM " + n;
  }

  /** The rendering once the dialect's names and conditions are known. */
  lemma Rendered(s: Snapshot, schema: SchemaRef, c: Common, p: DeleteParts, cte: string, from: string, where: string, returning: string)
    requires Truthy(p.from)
    requires CteSql(c.ctes) == Ok(cte)
    requires Names(s.env, p.from, map[]) == Ok(from)
    requires Conditions(s.env, List(c.where), SchemaOptions(schema)) == Ok(where)
    requires Names(s.env, List(p.returning), map[]) == Ok(returning)
    ensures DeleteSql(Some(s), schema, c, p) ==
            Ok(cte + "DELETE" + FlagsSql(c.flags) + Clause("FROM", from) + Clause("WHERE", where) +
               OrderSql(s.env, c.order, map[]) + Clause("LIMIT", c.limit) + Clause("RETURNING", returning))
  {
  }

  class Delete {
    const base: Statement
    /** `config.schema`, null by default. */
    const schema: SchemaRef
    var from: Node
    /** Filled by the PostgreSQL statement only. */
    var returning: seq<Node>

    constructor(d: Option<Dialect>, schema0: SchemaRef)
      ensures fresh(base)
      ensures base.dialect == d && base.Parts() == Common([], [], [], [], "") && base.extra == map[]
      ensures schema == schema0 && Parts() == DeleteParts(Str(""), [])
    {
      base := new Statement(d);
      schema := schema0;
      from := Str("");
      returning := [];
    }

    function Parts(): DeleteParts
      reads this
    {
      DeleteParts(from, returning)
    }

    /** `from(from)`. */
    method From(t: Node)
      modifies this`from
      ensures from == t
    {
      from := t;
    }

    /** `toString()`. */
    method ToString() returns (r: Result<string>)
      ensures r == DeleteSql(StateOf(base.dialect), schema, base.Parts(), Parts())
    {
      if !Truthy(from) {
        return Err(MissingClause("DELETE", "FROM"));
      }
      var d :- base.GetDialect();
      var env := d.CompilerEnv();
      var cte :- base.BuildCte();
      var flags := base.BuildFlags();
      var source :- Names(env, from, map[]);
      var where :- Conditions(env, List(base.where), SchemaOptions(schema));
      var order := base.BuildOrder(env, map[]);
      var ret :- Names(env, List(returning), map[]);
      r := Ok(cte + "DELETE" + flags + Clause("FROM", source) + Clause("WHERE", where) + order + Clause("LIMIT", base.limit) + Clause("RETURNING", ret));
    }
  }
}
