// The `SELECT` statement: its own parts (fields, sources, joins, groups,
// havings, lock and subquery alias) next to the shared ones of its base
// statement, the setters, and the renderer `toString(schemas, aliases)`
// proved equal to `SelectSql`.

module Selects {

  import opened Wrappers
  import opened Text
  import opened Ordered
  import opened Nodes
  import opened Identifiers
  import opened Casting
  import opened Compiler
  import opened Dialects
  import opened Statements

  /** `xs.filter(Boolean)`. */
  function Truthies(xs: seq<Node>): (r: seq<Node>)
    ensures forall x :: x in r <==> x in xs && Truthy(x)
    ensures |r| <= |xs|
    decreases |xs|
  {
    if xs == [] then []
    else
      var init, last := xs[..|xs| - 1], xs[|xs| - 1];
      assert xs == init + [last];
      Truthies(init) + (if Truthy(last) then [last] else [])
  }

  /** `toArray(item)` of one argument: nothing for a falsy value, the
      rest-argument convention for an array, the value alone otherwise. */
  function ToArray(item: Node): seq<Node>
  {
    if !Truthy(item) then [] else if item.List? then RestArgs(item.items) else [item]
  }

  /** One `join(join, on, type)`. */
  datatype JoinPart = JoinPart(table: Node, on: seq<Node>, kind: string)

  /** What a `SELECT` reads: fields, sources, joins, groups and havings. */
  datatype Query = Query(
    fields: seq<Node>,
    from: seq<Node>,
    joins: seq<JoinPart>,
    group: seq<Node>,
    having: seq<Node>)

  /** The parts of a `SELECT` beyond the shared ones; `lock` is empty when
      no lock is set. */
  datatype SelectParts = SelectParts(
    query: Query,
    lock: string,
    noWait: bool,
    alias: Option<Node>)

  /** The `{schemas, aliases}` options of the `WHERE`, `HAVING` and `ON`
      conditions. */
  function Opts(schemas: map<string, SchemaRef>, aliases: map<string, string>): CondOptions
  {
    CondOptions("", ":and", schemas, aliases)
  }

  /** One item of `_buildJoins`: type, `JOIN`, the table, then `ON` and the
      conditions when there are any. */
  function JoinSql(env: Env, j: JoinPart, schemas: map<string, SchemaRef>, aliases: map<string, string>): Result<string>
  {
    var table :- NameOf(env, j.table, map[]);
    if j.on == [] then Ok(Join([j.kind, "JOIN", table], " "))
    else
      var on :- Conditions(env, List(j.on), Opts(schemas, aliases));
      Ok(Join([j.kind, "JOIN", table, "ON", on], " "))
  }

  /** The `_buildJoins` loop: `acc` and the joins still to render. */
  function JoinsFrom(env: Env, acc: seq<string>, joins: seq<JoinPart>, schemas: map<string, SchemaRef>, aliases: map<string, string>): Result<seq<string>>
    decreases |joins|
  {
    if joins == [] then Ok(acc)
    else
      var s :- JoinSql(env, joins[0], schemas, aliases);
      JoinsFrom(env, acc + [s], joins[1..], schemas, aliases)
  }

  /** `_buildJoins(schemas, aliases)`. */
  function JoinsSql(env: Env, joins: seq<JoinPart>, schemas: map<string, SchemaRef>, aliases: map<string, string>): Result<string>
  {
    var xs :- JoinsFrom(env, [], joins, schemas, aliases);
    Ok(if xs != [] then " " + Join(xs, " ") else "")
  }

  /** The `_buildGroup` loop: `acc` and the fields still to name. */
  function GroupFrom(env: Env, acc: seq<string>, group: seq<Node>): Result<seq<string>>
    decreases |group|
  {
    if group == [] then Ok(acc)
    else
      var n :- NameOf(env, group[0], map[]);
      GroupFrom(env, acc + [n], group[1..])
  }

  /** `_buildGroup()`. */
  function GroupSql(env: Env, group: seq<Node>): Result<string>
  {
    var xs :- GroupFrom(env, [], group);
    Ok(Join(xs, ", "))
  }

  /** The selected fields, or `*` when there are none. */
  function FieldsChunk(env: Env, fields: seq<Node>): Result<string>
  {
    var f :- Names(env, List(fields), map[]);
    Ok(Chunk(if f != "" then f else "*"))
  }

  /** The clauses of `toString` from `FROM` to `LIMIT`. */
  function SelectTail(env: Env, c: Common, q: Query, schemas: map<string, SchemaRef>, aliases: map<string, string>): Result<string>
  {
    var from :- Names(env, List(q.from), map[]);
    var joins :- JoinsSql(env, q.joins, schemas, aliases);
    var where :- Conditions(env, List(c.where), Opts(schemas, aliases));
    var group :- GroupSql(env, q.group);
    var having :- Conditions(env, List(q.having), Opts(schemas, aliases));
    Ok(Clause("FROM", from) + joins + Clause("WHERE", where) + Clause("GROUP BY", group) +
       Clause("HAVING", having) + OrderSql(env, c.order, aliases) + Clause("LIMIT", c.limit))
  }

  /** The statement before the lock and the alias. */
  function SelectCore(env: Env, c: Common, q: Query, schemas: map<string, SchemaRef>, aliases: map<string, string>): Result<string>
  {
    var fields :- FieldsChunk(env, q.fields);
    var cte :- CteSql(c.ctes);
    var tail :- SelectTail(env, c, q, schemas, aliases);
    Ok(cte + "SELECT" + FlagsSql(c.flags) + fields + tail)
  }

  /** The lock clause, followed by `NOWAIT` when asked for. */
  function LockSql(lock: string, noWait: bool): string
  {
    if lock != "" then " " + lock + Flag("NOWAIT", noWait) else ""
  }

  /** A truthy alias makes the statement a named subquery. */
  function AliasWrap(env: Env, alias: Option<Node>, sql: string): Result<string>
  {
    if alias.Some? && Truthy(alias.value) then
      var n :- NameOf(env, alias.value, map[]);
      Ok("(" + sql + ") AS " + n)
    else Ok(sql)
  }

  /** `toString(schemas, aliases)` under a dialect. */
  function SelectSql(env: Env, c: Common, p: SelectParts, schemas: map<string, SchemaRef>, aliases: map<string, string>): Result<string>
  {
    var core :- SelectCore(env, c, p.query, schemas, aliases);
    AliasWrap(env, p.alias, core + LockSql(p.lock, p.noWait))
  }

  // ---------------------------------------------------------------------
  // What the rendering promises.

  /** A statement with one table and nothing else selects every column of
      it. */
  lemma SelectAllFrom(env: Env, t: string, schemas: map<string, SchemaRef>, aliases: map<string, string>)
    requires t != ""
    ensures SelectSql(env, Common([], [], [], [], ""), SelectParts(Query([], [Str(t)], [], [], []), "", false, None), schemas, aliases)
            == Ok("SELECT * FROM " + NameStr(env.escape, t, map[]))
  {
    var n := NameStr(env.escape, t, map[]);
    BareCore(env, t, schemas, aliases);
    assert n + "" == n;
    assert "SELECT * FROM " + n + LockSql("", false) == "SELECT * FROM " + n;
  }

  lemma BareCore(env: Env, t: string, schemas: map<string, SchemaRef>, aliases: map<string, string>)
    requires t != ""
    ensures SelectCore(env, Common([], [], [], [], ""), Query([], [Str(t)], [], [], []), schemas, aliases)
            == Ok("SELECT * FROM " + NameStr(env.escape, t, map[]))
  {
    var n := NameStr(env.escape, t, map[]);
    var tail := " FROM " + n;
    BareTail(env, t, schemas, aliases);
    assert FieldsChunk(env, []) == Ok(" *") by { NothingElse(env, schemas, aliases); }
    CoreText(n);
  }

  lemma CoreText(n: string)
    ensures "" + "SELECT" + FlagsSql([]) + " *" + (" FROM " + n) == "SELECT * FROM " + n
  {
    assert FlagsSql([]) == "";
    assert "" + "SELECT" + "" + " *" + (" FROM " + n) == "SELECT * FROM " + n;
  }

  lemma BareTail(env: Env, t: string, schemas: map<string, SchemaRef>, aliases: map<string, string>)
    requires t != ""
    ensures SelectTail(env, Common([], [], [], [], ""), Query([], [Str(t)], [], [], []), schemas, aliases)
            == Ok(" FROM " + NameStr(env.escape, t, map[]))
  {
    var n := NameStr(env.escape, t, map[]);
    NameNonEmpty(env.escape, t, map[]);
    assert Names(env, List([Str(t)]), map[]) == Ok(n) by { OneName(env, t); }
    NothingElse(env, schemas, aliases);
    TailRendered(env, Common([], [], [], [], ""), Query([], [Str(t)], [], [], []), schemas, aliases, n, "", "", "", "");
    TailText(env, n, aliases);
  }

  lemma TailText(env: Env, n: string, aliases: map<string, string>)
    requires n != ""
    ensures Clause("FROM", n) + "" + Clause("WHERE", "") + Clause("GROUP BY", "") +
            Clause("HAVING", "") + OrderSql(env, [], aliases) + Clause("LIMIT", "") == " FROM " + n
  {
    var tail := " FROM " + n;
    assert Clause("FROM", n) == tail;
    assert OrderSql(env, [], aliases) == "";
    assert Clause("WHERE", "") == "" && Clause("GROUP BY", "") == "" && Clause("HAVING", "") == "" && Clause("LIMIT", "") == "";
    assert tail + "" + "" + "" + "" + "" + "" == tail;
  }

  /** The clauses from `FROM` to `LIMIT` once their parts are known. */
  lemma TailRendered(env: Env, c: Common, q: Query, schemas: map<string, SchemaRef>, aliases: map<string, string>,
                     from: string, joins: string, where: string, group: string, having: string)
    requires Names(env, List(q.from), map[]) == Ok(from)
    requires JoinsSql(env, q.joins, schemas, aliases) == Ok(joins)
    requires Conditions(env, List(c.where), Opts(schemas, aliases)) == Ok(where)
    requires GroupSql(env, q.group) == Ok(group)
    requires Conditions(env, List(q.having), Opts(schemas, aliases)) == Ok(having)
    ensures SelectTail(env, c, q, schemas, aliases) ==
            Ok(Clause("FROM", from) + joins + Clause("WHERE", where) + Clause("GROUP BY", group) +
               Clause("HAVING", having) + OrderSql(env, c.order, aliases) + Clause("LIMIT", c.limit))
  {
  }

  lemma NothingElse(env: Env, schemas: map<string, SchemaRef>, aliases: map<string, string>)
    ensures FieldsChunk(env, []) == Ok(" *")
    ensures JoinsSql(env, [], schemas, aliases) == Ok("")
    ensures GroupSql(env, []) == Ok("")
    ensures Conditions(env, List([]), Opts(schemas, aliases)) == Ok("")
    ensures OrderSql(env, [], aliases) == ""
  {
    assert Names(env, List([]), map[]) == Ok("");
    assert Chunk("*") == " *";
  }

  /** With no lock set, `NOWAIT` changes nothing. */
  lemma NoWaitNeedsLock(env: Env, c: Common, p: SelectParts, schemas: map<string, SchemaRef>, aliases: map<string, string>, core: string)
    requires p.lock == ""
    requires SelectCore(env, c, p.query, schemas, aliases) == Ok(core)
    ensures SelectSql(env, c, p, schemas, aliases) == AliasWrap(env, p.alias, core)
  {
    assert core + LockSql(p.lock, p.noWait) == core;
  }

  /** A lock is written after every clause and before the alias wraps the
      statement; `NOWAIT` follows it. */
  lemma LockAppended(env: Env, c: Common, p: SelectParts, schemas: map<string, SchemaRef>, aliases: map<string, string>, core: string)
    requires p.lock != ""
    requires SelectCore(env, c, p.query, schemas, aliases) == Ok(core)
    ensures SelectSql(env, c, p, schemas, aliases) == AliasWrap(env, p.alias, core + (" " + p.lock + Flag("NOWAIT", p.noWait)))
  {
  }

  /** A truthy alias wraps the whole statement in parentheses. */
  lemma AliasWraps(env: Env, a: Node, n: string, sql: string)
    requires Truthy(a) && NameOf(env, a, map[]) == Ok(n)
    ensures AliasWrap(env, Some(a), sql) == Ok("(" + sql + ") AS " + n)
  {
  }

  /** A join without conditions is its type, `JOIN` and the table. */
  lemma JoinWithoutOn(env: Env, t: string, kind: string, schemas: map<string, SchemaRef>, aliases: map<string, string>)
    ensures JoinsSql(env, [JoinPart(Str(t), [], kind)], schemas, aliases) == Ok(" " + kind + " JOIN " + NameStr(env.escape, t, map[]))
  {
    var n := NameStr(env.escape, t, map[]);
    PlainJoin(env, t, kind, schemas, aliases);
    OneJoin(env, JoinPart(Str(t), [], kind), schemas, aliases, kind + " JOIN " + n);
    LeadingSpace(kind, n);
  }

  lemma LeadingSpace(kind: string, n: string)
    ensures " " + (kind + " JOIN " + n) == " " + kind + " JOIN " + n
  {
  }

  /** A join without conditions: its type, `JOIN` and the table. */
  lemma PlainJoin(env: Env, t: string, kind: string, schemas: map<string, SchemaRef>, aliases: map<string, string>)
    ensures JoinSql(env, JoinPart(Str(t), [], kind), schemas, aliases) == Ok(kind + " JOIN " + NameStr(env.escape, t, map[]))
  {
    var n := NameStr(env.escape, t, map[]);
    JoinSmall(kind, "JOIN", n, " ");
    assert NameOf(env, Str(t), map[]) == Ok(n);
    assert kind + " " + "JOIN" + " " + n == kind + " JOIN " + n;
  }

  /** One join renders as its item after a space. */
  lemma OneJoin(env: Env, j: JoinPart, schemas: map<string, SchemaRef>, aliases: map<string, string>, item: string)
    requires JoinSql(env, j, schemas, aliases) == Ok(item)
    ensures JoinsSql(env, [j], schemas, aliases) == Ok(" " + item)
  {
    assert [j][1..] == [];
    assert [] + [item] == [item];
    assert JoinsFrom(env, [], [j], schemas, aliases) == Ok([item]);
    JoinSmall(item, item, item, " ");
  }

  /** Grouping keeps each field once, in the order it was first grouped:
      grouping the same fields again changes nothing. */
  lemma GroupOnce(group: seq<Node>, xs: seq<Node>)
    requires NoDup(group)
    ensures NoDup(AddAll(group, xs))
    ensures forall x :: x in AddAll(group, xs) <==> x in group || x in xs
    ensures AddAll(AddAll(group, xs), xs) == AddAll(group, xs)
  {
    AddAllElements(group, xs);
    AddAllPresent(AddAll(group, xs), xs);
  }

  /** The names of string group fields, in order. */
  function StrNames(esc: string, group: seq<Node>): seq<string>
    requires forall i :: 0 <= i < |group| ==> group[i].Str?
  {
    if group == [] then [] else [NameStr(esc, group[0].s, map[])] + StrNames(esc, group[1..])
  }

  /** Group fields that are strings never fail, and render one name each,
      in order. */
  lemma {:induction false} GroupNames(env: Env, acc: seq<string>, group: seq<Node>)
    requires forall i :: 0 <= i < |group| ==> group[i].Str?
    ensures GroupFrom(env, acc, group) == Ok(acc + StrNames(env.escape, group))
    decreases |group|
  {
    if group == [] {
      assert acc + [] == acc;
    } else {
      var n := NameStr(env.escape, group[0].s, map[]);
      assert NameOf(env, group[0], map[]) == Ok(n);
      GroupNames(env, acc + [n], group[1..]);
      assert acc + [n] + StrNames(env.escape, group[1..]) == acc + ([n] + StrNames(env.escape, group[1..]));
    }
  }

  // ---------------------------------------------------------------------

  class Select {
    const base: Statement
    var fields: seq<Node>
    var from: seq<Node>
    var joins: seq<JoinPart>
    var group: seq<Node>
    var having: seq<Node>
    var lock: string
    var noWait: bool
    var alias: Option<Node>

    constructor(d: Option<Dialect>)
      ensures fresh(base)
      ensures base.dialect == d && base.Parts() == Common([], [], [], [], "") && base.extra == map[]
      ensures Parts() == SelectParts(Query([], [], [], [], []), "", false, None)
    {
      base := new Statement(d);
      fields := [];
      from := [];
      joins := [];
      group := [];
      having := [];
      lock := "";
      noWait := false;
      alias := None;
    }

    function Parts(): SelectParts
      reads this
    {
      SelectParts(Query(fields, from, joins, group, having), lock, noWait, alias)
    }

    /** `distinct(enable = true)`. */
    method Distinct(enable: Option<Node>)
      modifies base`flags
      ensures base.flags == Put(old(base.flags), "DISTINCT", enable.None? || Truthy(enable.value))
    {
      var _ := base.SetFlag("DISTINCT", enable);
    }

    /** `fields(...fields)`. */
    method Fields(args: seq<Node>)
      modifies this`fields
      ensures fields == old(fields) + RestArgs(args)
    {
      fields := fields + RestArgs(args);
    }

    /** `from(...source)`: the truthy sources are added; none is refused. */
    method From(source: seq<Node>) returns (r: Result<()>)
      modifies this`from
      ensures Truthies(source) == [] ==> r == Err(EmptyFrom) && from == old(from)
      ensures Truthies(source) != [] ==> r == Ok(()) && from == old(from) + Truthies(source)
    {
      var tables := Truthies(source);
      if tables == [] {
        return Err(EmptyFrom);
      }
      from := from + tables;
      r := Ok(());
    }

    /** `join(join, on = [], type = 'LEFT')`: a falsy table is ignored; a
        single condition becomes a list; the type is upper-cased. */
    method Join(table: Node, on: Option<Node>, kind: Option<string>)
      modifies this`joins
      ensures !Truthy(table) ==> joins == old(joins)
      ensures Truthy(table) ==>
                joins == old(joins) + [JoinPart(table, if on.Some? then Wrap(on.value) else [],
                                                if kind.Some? then Upper(kind.value) else "LEFT")]
    {
      if !Truthy(table) {
        return;
      }
      var conditions := if on.Some? then Wrap(on.value) else [];
      var k := if kind.Some? then Upper(kind.value) else "LEFT";
      joins := joins + [JoinPart(table, conditions, k)];
    }

    /** `where(conditions)`: the conditions are added one by one, not as
        a group. */
    method Where(conditions: Node)
      modifies base`where
      ensures base.where == old(base.where) + ToArray(conditions)
    {
      base.where := base.where + ToArray(conditions);
    }

    /** `group(...fields)`: each truthy field is added once, in the order
        it is first grouped. */
    method Group(args: seq<Node>)
      modifies this`group
      ensures group == AddAll(old(group), Truthies(RestArgs(args)))
    {
      var xs := RestArgs(args);
      var i := 0;
      while i < |xs|
        invariant 0 <= i <= |xs|
        invariant group == AddAll(old(group), Truthies(xs[..i]))
      {
        assert xs[..i + 1][..i] == xs[..i];
        if Truthy(xs[i]) {
          assert Truthies(xs[..i + 1]) == Truthies(xs[..i]) + [xs[i]];
          AddAllSnoc(old(group), Truthies(xs[..i]), xs[i]);
          group := Add(group, xs[i]);
        } else {
          assert Truthies(xs[..i + 1]) == Truthies(xs[..i]);
        }
        i := i + 1;
      }
      assert xs[..i] == xs;
    }

    /** `having(...conditions)`: the arguments are added as one group. */
    method Having(args: seq<Node>)
      modifies this`having
      ensures having == if args != [] then old(having) + [List(args)] else old(having)
    {
      if args != [] {
        having := having + [List(args)];
      }
    }

    /** `noWait(noWait = true)`. */
    method NoWait(on: Option<Node>)
      modifies this`noWait
      ensures noWait == (on.None? || Truthy(on.value))
    {
      noWait := on.None? || Truthy(on.value);
    }

    /** `alias(alias)` with an argument. */
    method SetAlias(a: Option<Node>)
      modifies this`alias
      ensures alias == a
    {
      alias := a;
    }

    /** `_buildGroup()`. */
    method BuildGroup(env: Env) returns (r: Result<string>)
      ensures r == GroupSql(env, group)
    {
      var result: seq<string> := [];
      var i := 0;
      while i < |group|
        invariant 0 <= i <= |group|
        invariant GroupFrom(env, result, group[i..]) == GroupFrom(env, [], group)
      {
        var n := NameOf(env, group[i], map[]);
        if n.Err? {
          return Err(n.error);
        }
        result := result + [n.value];
        i := i + 1;
      }
      r := Ok(Text.Join(result, ", "));
    }

    /** `_buildJoins(schemas, aliases)`. */
    method BuildJoins(env: Env, schemas: map<string, SchemaRef>, aliases: map<string, string>) returns (r: Result<string>)
      ensures r == JoinsSql(env, joins, schemas, aliases)
    {
      var result: seq<string> := [];
      var i := 0;
      while i < |joins|
        invariant 0 <= i <= |joins|
        invariant JoinsFrom(env, result, joins[i..], schemas, aliases) == JoinsFrom(env, [], joins, schemas, aliases)
      {
        var j := JoinSql(env, joins[i], schemas, aliases);
        if j.Err? {
          return Err(j.error);
        }
        result := result + [j.value];
        i := i + 1;
      }
      r := Ok(if result != [] then " " + Text.Join(result, " ") else "");
    }

    /** `toString(schemas, aliases)`. */
    method ToString(schemas: map<string, SchemaRef>, aliases: map<string, string>) returns (r: Result<string>)
      ensures base.dialect.None? ==> r == Err(MissingDialect)
      ensures base.dialect.Some? ==> r == SelectSql(base.dialect.value.CompilerEnv(), base.Parts(), Parts(), schemas, aliases)
    {
      var d :- base.GetDialect();
      var env := d.CompilerEnv();
      var names :- FieldsChunk(env, fields);
      var cte :- base.BuildCte();
      var flags := base.BuildFlags();
      var tables :- Names(env, List(from), map[]);
      var joined :- BuildJoins(env, schemas, aliases);
      var where :- Conditions(env, List(base.where), Opts(schemas, aliases));
      var grouped :- BuildGroup(env);
      var had :- Conditions(env, List(having), Opts(schemas, aliases));
      var order := base.BuildOrder(env, aliases);
      var tail := Clause("FROM", tables) + joined + Clause("WHERE", where) + Clause("GROUP BY", grouped) +
                  Clause("HAVING", had) + order + Clause("LIMIT", base.limit);
      TailRendered(env, base.Parts(), Parts().query, schemas, aliases, tables, joined, where, grouped, had);
      var sql := cte + "SELECT" + flags + names + tail;
      assert SelectCore(env, base.Parts(), Parts().query, schemas, aliases) == Ok(sql);
      if lock != "" {
        sql := sql + LockSql(lock, noWait);
      } else {
        assert sql + LockSql(lock, noWait) == sql;
      }
      r := AliasWrap(env, alias, sql);
    }
  }

  // ---------------------------------------------------------------------
  // The `lock(mode = 'update')` of the vendor `SELECT` statements.

  /** `mode.toLowerCase()`, with the default mode; a value that is not a
      string has no such method. */
  function LockMode(mode: Option<Node>): Result<string>
  {
    if mode.None? then Ok("update")
    else if mode.value.Str? then Ok(Lower(mode.value.s))
    else Err(TypeError("mode.toLowerCase is not a function"))
  }
}
