// The tables of the three vendor dialects (escape character, operators,
// type definitions, type mappings, meta attributes, constraint templates)
// and their `_column` renderers.

module Vendors {

  import opened Wrappers
  import opened Text
  import opened Ordered
  import opened Nodes
  import opened Identifiers
  import opened Casting
  import opened Operators
  import opened Compiler
  import opened Columns

  /** The base (ANSI) dialect and the three vendor dialects. */
  datatype Vendor = Ansi | MySql | PostgreSql | Sqlite

  function EscapeOf(v: Vendor): string
  {
    if v == MySql then "`" else "\""
  }

  function OperatorsOf(v: Vendor): map<string, OpConfig>
  {
    match v
    case Ansi => DefaultOperators()
    case MySql => MySqlOperators()
    case PostgreSql => PostgreSqlOperators()
    case Sqlite => SqliteOperators()
  }

  // ---------------------------------------------------------------------
  // Type definitions, as the `type(name, config)` calls of the
  // constructors leave them. The base dialect starts with none.

  function TypesOf(v: Vendor): TypeTable
  {
    match v
    case Ansi => map[]
    case MySql => map[
      "id" := [("use", Str("int"))],
      "serial" := [("use", Str("int")), ("serial", Bool(true))],
      "string" := [("use", Str("varchar")), ("length", Int(255))],
      "text" := [("use", Str("text"))],
      "integer" := [("use", Str("int"))],
      "boolean" := [("use", Str("boolean"))],
      "float" := [("use", Str("float"))],
      "decimal" := [("use", Str("decimal")), ("precision", Int(2))],
      "date" := [("use", Str("date"))],
      "time" := [("use", Str("time"))],
      "datetime" := [("use", Str("datetime"))],
      "binary" := [("use", Str("blob"))]]
    case PostgreSql => map[
      "id" := [("use", Str("integer"))],
      "serial" := [("use", Str("serial")), ("serial", Bool(true))],
      "string" := [("use", Str("varchar")), ("length", Int(255))],
      "text" := [("use", Str("text"))],
      "integer" := [("use", Str("integer"))],
      "boolean" := [("use", Str("boolean"))],
      "float" := [("use", Str("real"))],
      "decimal" := [("use", Str("numeric")), ("precision", Int(2))],
      "date" := [("use", Str("date"))],
      "time" := [("use", Str("time"))],
      "datetime" := [("use", Str("timestamp"))],
      "binary" := [("use", Str("bytea"))]]
    case Sqlite => map[
      "id" := [("use", Str("integer"))],
      "serial" := [("use", Str("integer")), ("serial", Bool(true))],
      "string" := [("use", Str("varchar")), ("length", Int(255))],
      "text" := [("use", Str("text"))],
      "integer" := [("use", Str("integer"))],
      "boolean" := [("use", Str("boolean"))],
      "float" := [("use", Str("real"))],
      "decimal" := [("use", Str("decimal")), ("precision", Int(2))],
      "date" := [("use", Str("date"))],
      "time" := [("use", Str("time"))],
      "datetime" := [("use", Str("timestamp"))],
      "binary" := [("use", Str("blob"))]]
  }

  // ---------------------------------------------------------------------
  // Type mappings, as the sequence of `map(use, type, options)` calls of
  // the constructors.

  /** One `map(use, type, options)` call. */
  datatype MapCall = MapCall(use: string, typeName: string, options: Record)

  function M(use: string, t: string): MapCall { MapCall(use, t, []) }

  function MapCallsOf(v: Vendor): seq<MapCall>
  {
    match v
    case Ansi => []
    case MySql => MySqlCallsA() + MySqlCallsB() + MySqlTinyint() + MySqlCallsC()
    case PostgreSql => PostgreSqlCallsA() + PostgreSqlCallsB() + PostgreSqlCallsC() + PostgreSqlCallsD() +
      [M("timestamptz", "datetime")] + PostgreSqlCallsE()
    case Sqlite => [
      M("boolean", "boolean"), M("blob", "binary"), M("date", "date"), M("integer", "integer"),
      MapCall("decimal", "decimal", [("precision", Int(2))]), M("real", "float"), M("text", "text"),
      M("time", "time"), M("timestamp", "datetime"), M("varchar", "string")]
  }

  // The MySQL calls in their order, in four runs: before `tinyint`, the
  // two `tinyint` calls, and after them.
  function MySqlCallsA(): seq<MapCall>
  {
    [M("bigint", "integer"), M("bit", "string"), M("blob", "string"), M("char", "string"),
     M("date", "date"), M("datetime", "datetime"), M("decimal", "decimal"), M("double", "float"),
     M("float", "float"), M("geometry", "string"), M("geometrycollection", "string"), M("int", "integer"),
     M("linestring", "string"), M("longblob", "string")]
  }

  function MySqlCallsB(): seq<MapCall>
  {
    [M("longtext", "string"), M("mediumblob", "string"),
     M("mediumint", "integer"), M("mediumtext", "string"), M("multilinestring", "string"), M("multipolygon", "string"),
     M("multipoint", "string"), M("point", "string"), M("polygon", "string"), M("smallint", "integer"),
     M("text", "string"), M("time", "string"), M("timestamp", "datetime"), M("tinyblob", "string")]
  }

  function MySqlTinyint(): seq<MapCall>
  {
    [MapCall("tinyint", "boolean", [("length", Int(1))]), M("tinyint", "integer")]
  }

  function MySqlCallsC(): seq<MapCall>
  {
    [M("tinytext", "string"), M("varchar", "string"), M("year", "string")]
  }

  // The PostgreSQL calls in their order, in runs around `timestamptz`.
  function PostgreSqlCallsA(): seq<MapCall>
  {
    [M("bit", "string"), M("bool", "boolean"), M("boolean", "boolean"), M("box", "string"),
     M("bytea", "binary"), M("char", "string"), M("character", "string"), M("character varying", "string"),
     M("cidr", "string"), M("circle", "string"), M("date", "date")]
  }

  function PostgreSqlCallsB(): seq<MapCall>
  {
    [M("decimal", "string"),
     M("float4", "float"), M("float8", "float"), M("inet", "string"), M("int2", "integer"),
     M("int4", "integer"), M("int8", "integer"), M("integer", "integer"), M("json", "string"),
     M("lseg", "string"), M("line", "string")]
  }

  function PostgreSqlCallsC(): seq<MapCall>
  {
    [M("macaddr", "string"), M("numeric", "decimal"),
     M("path", "string"), M("polygon", "string"), M("real", "float"), M("serial", "serial"),
     M("string", "string"), M("text", "string"), M("time", "time"), M("time with time zone", "time"),
     M("time without time zone", "time")]
  }

  function PostgreSqlCallsD(): seq<MapCall>
  {
    [M("timestamp", "datetime"), M("timestamp with time zone", "datetime"),
     M("timestamp without time zone", "datetime")]
  }

  function PostgreSqlCallsE(): seq<MapCall>
  {
    [M("tsquery", "string"),
     M("tsvector", "string"), M("txid_snapshot", "string"), M("uuid", "string"), M("varbit", "string"),
     M("varchar", "string"), M("xml", "string")]
  }

  /** One `map()` call on the registry. */
  function MapStep(maps: MapTable, c: MapCall): MapTable
  {
    maps[c.use := MapAdd(if c.use in maps then maps[c.use] else [], c.typeName, c.options)]
  }

  /** The registry after the calls, in order. */
  function Registered(calls: seq<MapCall>): MapTable
    decreases |calls|
  {
    if calls == [] then map[] else MapStep(Registered(calls[..|calls| - 1]), calls[|calls| - 1])
  }

  /** The candidates the calls for `use` alone build. */
  function EntryOf(calls: seq<MapCall>, use: string): MapEntry
    decreases |calls|
  {
    if calls == [] then []
    else
      var e := EntryOf(calls[..|calls| - 1], use);
      var c := calls[|calls| - 1];
      if c.use == use then MapAdd(e, c.typeName, c.options) else e
  }

  /** The calls for one native type never disturb another's candidates. */
  lemma {:induction false} RegisteredEntry(calls: seq<MapCall>, use: string)
    ensures use in Registered(calls) <==> exists i :: 0 <= i < |calls| && calls[i].use == use
    ensures use in Registered(calls) ==> Registered(calls)[use] == EntryOf(calls, use)
    ensures use !in Registered(calls) ==> EntryOf(calls, use) == []
    decreases |calls|
  {
    if calls != [] {
      var init := calls[..|calls| - 1];
      var c := calls[|calls| - 1];
      RegisteredEntry(init, use);
      assert Registered(calls) == MapStep(Registered(init), c);
      assert EntryOf(calls, use) == if c.use == use then MapAdd(EntryOf(init, use), c.typeName, c.options) else EntryOf(init, use);
      assert (exists i :: 0 <= i < |calls| && calls[i].use == use) <==>
             (exists i :: 0 <= i < |init| && init[i].use == use) || c.use == use by {
        if c.use == use {
          assert calls[|calls| - 1].use == use;
        }
        forall i | 0 <= i < |init| && init[i].use == use
          ensures calls[i].use == use
        {
          assert init[i] == calls[i];
        }
        forall i | 0 <= i < |calls| - 1 && calls[i].use == use
          ensures init[i].use == use
        {
          assert init[i] == calls[i];
        }
      }
    }
  }

  /** A native type registered once, with no options, maps to its
      abstract type whatever the column's options. */
  lemma SingleCandidate(calls: seq<MapCall>, use: string, t: string, column: Node)
    requires EntryOf(calls, use) == [(t, [])] && t != ""
    requires MappedInput(column).0 == use
    ensures Mapped(Registered(calls), column) == t
  {
    RegisteredEntry(calls, use);
    var e := EntryOf(calls, use);
    assert e[..0] == [];
    assert Score([], MappedInput(column).1) == 0;
    assert Pick(e, MappedInput(column).1) == (Some(0), 0);
  }

  // ---------------------------------------------------------------------
  // Meta attributes and constraint templates.

  function PlainMeta(k: string): MetaDef { MetaDef(k, false, " ", None) }

  function MetaOf(v: Vendor): MetaTable
  {
    match v
    case Ansi => map[]
    case MySql => map[
      "column" := map[
        "charset" := PlainMeta("CHARACTER SET"),
        "collate" := PlainMeta("COLLATE"),
        "comment" := MetaDef("COMMENT", true, " ", None)],
      "table" := map[
        "charset" := PlainMeta("DEFAULT CHARSET"),
        "collate" := PlainMeta("COLLATE"),
        "engine" := PlainMeta("ENGINE"),
        "tablespace" := PlainMeta("TABLESPACE")]]
    case PostgreSql => map["table" := map["tablespace" := PlainMeta("TABLESPACE")]]
    case Sqlite => map["column" := map["collate" := MetaDef("COLLATE", true, " ", None)]]
  }

  function Template(t: string): ConstraintDef { ConstraintDef(t, None, None) }

  const ForeignKeyTemplate := "FOREIGN KEY (${foreignKey}) REFERENCES ${to} (${primaryKey}) ${on}"

  /** The constraint templates; the base dialect has no table. */
  function ConstraintsOf(v: Vendor): Option<map<string, ConstraintDef>>
  {
    match v
    case Ansi => None
    case MySql => Some(map[
      "primary" := Template("PRIMARY KEY (${column})"),
      "foreign key" := Template(ForeignKeyTemplate),
      "index" := Template("INDEX ${name} (${column})"),
      "unique" := ConstraintDef("UNIQUE ${index} ${name} (${column})", Some("KEY"), Some("INDEX")),
      "check" := Template("${constraint} CHECK (${expr})")])
    case _ => Some(map[
      "primary" := Template("PRIMARY KEY (${column})"),
      "foreign key" := Template(ForeignKeyTemplate),
      "unique" := Template("CONSTRAINT ${name} UNIQUE ${index} (${column})"),
      "check" := Template("${constraint} CHECK (${expr})")])
  }

  // ---------------------------------------------------------------------
  // The `_column` renderers.

  /** `field[k]`, with an absent property read as null (every use below
      treats undefined and null alike). */
  function Prop(f: Record, k: string): Node
  {
    var v := Get(f, k);
    if v.Some? then v.value else Null
  }

  /** The NULL / NOT NULL flag: only a boolean `null` gives one. */
  function NullFlag(f: Record): string
  {
    var n := Prop(f, "null");
    if n.Bool? then (if n.b then "NULL" else "NOT NULL") else ""
  }

  /** The states `{ field: field }` a DEFAULT value is formatted with. */
  function DefaultStates(field: Record): States
  {
    NoStates.(field := Some(field))
  }

  /** `DEFAULT ...`: a plain object default `{formatter: v}` goes through
      that formatter, any other default through `:value`; either way the
      column's field definition is handed on in the states. */
  function DefaultClause(env: Env, dft: Node, field: Record): Result<string>
  {
    var (op, v) := if dft.Obj? then (if dft.entries == [] then ("undefined", Null) else dft.entries[0]) else (":value", dft);
    var r :- Format(env, op, v, DefaultStates(field));
    Ok("DEFAULT " + r.val)
  }

  /** The native types for which MySQL takes no DEFAULT. */
  const BlobColumns: set<string> := {"text", "blob", "geometry", "json"}

  /** The escaped name and the native type with its size. */
  function ColumnHead(env: Env, f: Record, floatUse: string): Result<string>
  {
    var precision := Prop(f, "precision");
    var use := if Prop(f, "type") == Str("float") && Truthy(precision) then floatUse else JsString(Prop(f, "use"));
    var name :- NameOf(env, Prop(f, "name"), map[]);
    Ok(name + " " + FormatColumn(use, Prop(f, "length"), precision))
  }

  /** The parts between the type and the trailing meta: the serial text
      for a serial column, else the null flag followed, when the vendor
      takes one, by the DEFAULT clause. */
  function Middle(env: Env, f: Record, serialText: string, takesDefault: bool): Result<seq<string>>
  {
    if Truthy(Prop(f, "serial")) then Ok([serialText])
    else if takesDefault then
      var d :- DefaultClause(env, Prop(f, "default"), f);
      Ok([NullFlag(f), d])
    else Ok([NullFlag(f)])
  }

  /** The native type MySQL checks against its BLOB columns. */
  function MySqlUse(f: Record): string
  {
    if Prop(f, "type") == Str("float") && Truthy(Prop(f, "precision")) then "decimal" else JsString(Prop(f, "use"))
  }

  /** MySQL writes a DEFAULT for a non-null default, except on text,
      blob, geometry and json columns. */
  predicate MySqlTakesDefault(f: Record)
  {
    !Prop(f, "default").Null? && Lower(MySqlUse(f)) !in BlobColumns
  }

  /** The MySQL parts, in order: name and type, charset and collate, the
      serial or null flag, the default, the comment. */
  function MySqlParts(env: Env, meta: MetaTable, f: Record): Result<seq<string>>
  {
    var head :- ColumnHead(env, f, "decimal");
    var tail :- MySqlTail(env, meta, f);
    Ok([head] + tail)
  }

  function MySqlTail(env: Env, meta: MetaTable, f: Record): Result<seq<string>>
  {
    var middle :- Middle(env, f, "NOT NULL AUTO_INCREMENT", MySqlTakesDefault(f));
    Ok([Meta(env, meta, "column", f, Some(["charset", "collate"]))] + middle
       + [Meta(env, meta, "column", f, Some(["comment"]))])
  }

  /** The PostgreSQL parts, in order: name and type, the serial or null
      flag, the default, the comment meta (which has no definition). */
  function PostgreSqlParts(env: Env, meta: MetaTable, f: Record): Result<seq<string>>
  {
    var head :- ColumnHead(env, f, "numeric");
    var tail :- PostgreSqlTail(env, meta, f);
    Ok([head] + tail)
  }

  function PostgreSqlTail(env: Env, meta: MetaTable, f: Record): Result<seq<string>>
  {
    var middle :- Middle(env, f, "NOT NULL", !Prop(f, "default").Null?);
    Ok(middle + [Meta(env, meta, "column", f, Some(["comment"]))])
  }

  /** The SQLite parts, in order: name and type, collate, the serial or
      null flag, the default. */
  function SqliteParts(env: Env, meta: MetaTable, f: Record): Result<seq<string>>
  {
    var head :- ColumnHead(env, f, "numeric");
    var tail :- SqliteTail(env, meta, f);
    Ok([head] + tail)
  }

  function SqliteTail(env: Env, meta: MetaTable, f: Record): Result<seq<string>>
  {
    var middle :- Middle(env, f, "NOT NULL", !Prop(f, "default").Null?);
    Ok([Meta(env, meta, "column", f, Some(["collate"]))] + middle)
  }

  /** `_column(field)`; the base dialect has none. */
  function RenderColumn(v: Vendor, env: Env, meta: MetaTable, f: Record): Result<string>
  {
    var parts :- match v
      case Ansi => Err(TypeError("this._column is not a function"))
      case MySql => MySqlParts(env, meta, f)
      case PostgreSql => PostgreSqlParts(env, meta, f)
      case Sqlite => SqliteParts(env, meta, f);
    Ok(Join(NonEmpty(parts), " "))
  }

  /** `column(field)`. */
  function ColumnSql(v: Vendor, env: Env, types: TypeTable, meta: MetaTable, field: Record): Result<string>
  {
    var f :- PrepareColumn(types, field);
    RenderColumn(v, env, meta, f)
  }

  // ---------------------------------------------------------------------
  // Properties of the vendor tables and renderers.

  /** The environment the expression compiler gets from a vendor dialect
      without hooks. */
  function VendorEnv(v: Vendor): Env
  {
    Env(EscapeOf(v), OperatorsOf(v), None, None)
  }

  lemma {:induction false} EntryAppend(calls: seq<MapCall>, more: seq<MapCall>, use: string)
    requires forall i :: 0 <= i < |more| ==> more[i].use != use
    ensures EntryOf(calls + more, use) == EntryOf(calls, use)
    decreases |more|
  {
    if more == [] {
      assert calls + more == calls;
    } else {
      var more' := more[..|more| - 1];
      assert (calls + more)[..|calls + more| - 1] == calls + more';
      assert (calls + more)[|calls + more| - 1] == more[|more| - 1];
      EntryAppend(calls, more', use);
    }
  }

  /** The `for..in` loop of `mapped` over two candidates. */
  lemma PickPair(a: (string, Record), b: (string, Record), options: Record)
    ensures Pick([a, b], options).0 ==
              var s0 := Score(a.1, options);
              var s1 := Score(b.1, options);
              if s1 >= (if s0 >= 0 then s0 else 0) then Some(1) else if s0 >= 0 then Some(0) else None
  {
    assert [a, b][..1] == [a];
    assert [a][..0] == [];
  }

  lemma TinyintEntry()
    ensures EntryOf(MapCallsOf(MySql), "tinyint") == [("integer", []), ("boolean", [("length", Int(1))])]
    ensures "tinyint" in Registered(MapCallsOf(MySql))
  {
    var head := MySqlCallsA() + MySqlCallsB();
    var t1 := MapCall("tinyint", "boolean", [("length", Int(1))]);
    var t2 := M("tinyint", "integer");
    var e1: MapEntry := [("boolean", [("length", Int(1))])];
    var e2: MapEntry := [("integer", []), ("boolean", [("length", Int(1))])];
    NoTinyintBefore();
    assert head + MySqlTinyint() == head + [t1] + [t2];
    assert EntryOf(head + [t1], "tinyint") == e1 by {
      EntrySnoc(head, t1, "tinyint");
      assert MapAdd([], "boolean", [("length", Int(1))]) == e1;
    }
    assert EntryOf(head + [t1] + [t2], "tinyint") == e2 by {
      EntrySnoc(head + [t1], t2, "tinyint");
      assert MapAdd(e1, "integer", []) == e2;
    }
    assert EntryOf(MapCallsOf(MySql), "tinyint") == e2 by {
      EntryAppend(head + MySqlTinyint(), MySqlCallsC(), "tinyint");
    }
    assert "tinyint" in Registered(MapCallsOf(MySql)) by {
      RegisteredEntry(MapCallsOf(MySql), "tinyint");
      assert MapCallsOf(MySql)[28].use == "tinyint";
    }
  }

  lemma NoTinyintBefore()
    ensures EntryOf(MySqlCallsA() + MySqlCallsB(), "tinyint") == []
  {
    assert EntryOf(MySqlCallsA(), "tinyint") == [] by {
      EntryAppend([], MySqlCallsA(), "tinyint");
      assert [] + MySqlCallsA() == MySqlCallsA();
    }
    EntryAppend(MySqlCallsA(), MySqlCallsB(), "tinyint");
  }

  lemma TinyintInput(m: int)
    ensures MappedInput(Obj([("use", Str("tinyint")), ("length", Int(m))])) == ("tinyint", [("length", Int(m))])
  {
    var es := [("use", Str("tinyint")), ("length", Int(m))];
    assert Put([], "use", Str("tinyint")) == [("use", Str("tinyint"))];
    assert Put([("use", Str("tinyint"))], "length", Int(m)) == es;
    assert es[1..] == [("length", Int(m))] && es[1..][1..] == [];
    assert Assign([("use", Str("tinyint"))], [("length", Int(m))]) == Assign(es, []);
    assert Assign([], es) == es;
    assert Remove(es, "use") == [("length", Int(m))];
  }

  lemma LengthScore(m: int)
    ensures Score([("length", Int(1))], [("length", Int(m))]) == if m == 1 then 1 else -1
    ensures Score([("length", Int(1))], []) == -1
  {
    assert [("length", Int(1))][..0] == [];
  }

  /** A `tinyint` entry with `boolean` for length 1 behind `integer`:
      `boolean` when the length is 1, `integer` for any other length and
      without one. */
  lemma TinyintChoice(maps: MapTable, n: int)
    requires "tinyint" in maps && maps["tinyint"] == [("integer", []), ("boolean", [("length", Int(1))])]
    requires n != 1
    ensures Mapped(maps, Obj([("use", Str("tinyint")), ("length", Int(1))])) == "boolean"
    ensures Mapped(maps, Obj([("use", Str("tinyint")), ("length", Int(n))])) == "integer"
    ensures Mapped(maps, Str("tinyint")) == "integer"
  {
    TinyintInput(1);
    TinyintInput(n);
    assert MappedInput(Str("tinyint")) == ("tinyint", []);
    TinyintOptions(maps, Obj([("use", Str("tinyint")), ("length", Int(1))]), [("length", Int(1))]);
    TinyintOptions(maps, Obj([("use", Str("tinyint")), ("length", Int(n))]), [("length", Int(n))]);
    TinyintOptions(maps, Str("tinyint"), []);
  }

  /** The `tinyint` choice for one set of options. */
  lemma TinyintOptions(maps: MapTable, column: Node, options: Record)
    requires "tinyint" in maps && maps["tinyint"] == [("integer", []), ("boolean", [("length", Int(1))])]
    requires MappedInput(column) == ("tinyint", options)
    requires options == [] || (|options| == 1 && options[0].0 == "length" && options[0].1.Int?)
    ensures Mapped(maps, column) == if options == [("length", Int(1))] then "boolean" else "integer"
  {
    var a: (string, Record) := ("integer", []);
    var b: (string, Record) := ("boolean", [("length", Int(1))]);
    assert Score(a.1, options) == 0;
    if options == [] {
      LengthScore(1);
    } else {
      LengthScore(options[0].1.i);
      assert options == [("length", Int(options[0].1.i))];
    }
    PickPair(a, b, options);
  }

  /** MySQL `tinyint`: `boolean` when the length is 1, `integer` for any
      other length and without one. */
  lemma TinyintMapping(n: int)
    requires n != 1
    ensures Mapped(Registered(MapCallsOf(MySql)), Obj([("use", Str("tinyint")), ("length", Int(1))])) == "boolean"
    ensures Mapped(Registered(MapCallsOf(MySql)), Obj([("use", Str("tinyint")), ("length", Int(n))])) == "integer"
    ensures Mapped(Registered(MapCallsOf(MySql)), Str("tinyint")) == "integer"
  {
    TinyintEntry();
    RegisteredEntry(MapCallsOf(MySql), "tinyint");
    TinyintChoice(Registered(MapCallsOf(MySql)), n);
  }

  /** PostgreSQL registers `timestamptz` once, with no options, so it
      resolves to `datetime` whatever the column's options. */
  lemma TimestamptzMapping(column: Node)
    requires MappedInput(column).0 == "timestamptz"
    ensures Mapped(Registered(MapCallsOf(PostgreSql)), column) == "datetime"
  {
    TimestamptzEntry();
    SingleCandidate(MapCallsOf(PostgreSql), "timestamptz", "datetime", column);
  }

  lemma TimestamptzEntry()
    ensures EntryOf(MapCallsOf(PostgreSql), "timestamptz") == [("datetime", [])]
  {
    var c := M("timestamptz", "datetime");
    var head := PostgreSqlCallsA() + PostgreSqlCallsB() + PostgreSqlCallsC() + PostgreSqlCallsD();
    NoTimestamptzBefore();
    assert EntryOf(head + [c], "timestamptz") == [("datetime", [])] by {
      EntrySnoc(head, c, "timestamptz");
    }
    EntryAppend(head + [c], PostgreSqlCallsE(), "timestamptz");
  }

  lemma NoTimestamptzBefore()
    ensures EntryOf(PostgreSqlCallsA() + PostgreSqlCallsB() + PostgreSqlCallsC() + PostgreSqlCallsD(), "timestamptz") == []
  {
    var ab := PostgreSqlCallsA() + PostgreSqlCallsB();
    assert EntryOf(PostgreSqlCallsA(), "timestamptz") == [] by {
      EntryAppend([], PostgreSqlCallsA(), "timestamptz");
      assert [] + PostgreSqlCallsA() == PostgreSqlCallsA();
    }
    assert EntryOf(ab, "timestamptz") == [] by {
      EntryAppend(PostgreSqlCallsA(), PostgreSqlCallsB(), "timestamptz");
    }
    assert EntryOf(ab + PostgreSqlCallsC(), "timestamptz") == [] by {
      EntryAppend(ab, PostgreSqlCallsC(), "timestamptz");
    }
    EntryAppend(ab + PostgreSqlCallsC(), PostgreSqlCallsD(), "timestamptz");
  }

  lemma EntrySnoc(calls: seq<MapCall>, c: MapCall, use: string)
    ensures EntryOf(calls + [c], use) ==
              if c.use == use then MapAdd(EntryOf(calls, use), c.typeName, c.options) else EntryOf(calls, use)
  {
    assert (calls + [c])[..|calls|] == calls;
  }

  /** A native type without a mapping resolves to 'string'. */
  lemma UnmappedType(v: Vendor, column: Node)
    requires forall c :: c in MapCallsOf(v) ==> c.use != MappedInput(column).0
    ensures Mapped(Registered(MapCallsOf(v)), column) == "string"
  {
    RegisteredEntry(MapCallsOf(v), MappedInput(column).0);
  }

  /** A serial column gets the vendor's serial text in place of the null
      flag, and no DEFAULT. */
  lemma SerialTails(env: Env, meta: MetaTable, f: Record)
    requires Truthy(Prop(f, "serial"))
    ensures MySqlTail(env, meta, f) == Ok([Meta(env, meta, "column", f, Some(["charset", "collate"])),
              "NOT NULL AUTO_INCREMENT", Meta(env, meta, "column", f, Some(["comment"]))])
    ensures PostgreSqlTail(env, meta, f) == Ok(["NOT NULL", Meta(env, meta, "column", f, Some(["comment"]))])
    ensures SqliteTail(env, meta, f) == Ok([Meta(env, meta, "column", f, Some(["collate"])), "NOT NULL"])
  {
    var m1 := Meta(env, meta, "column", f, Some(["charset", "collate"]));
    var m2 := Meta(env, meta, "column", f, Some(["comment"]));
    var k := Meta(env, meta, "column", f, Some(["collate"]));
    assert [m1] + ["NOT NULL AUTO_INCREMENT"] + [m2] == [m1, "NOT NULL AUTO_INCREMENT", m2];
    assert ["NOT NULL"] + [m2] == ["NOT NULL", m2];
    assert [k] + ["NOT NULL"] == [k, "NOT NULL"];
  }

  /** MySQL, not serial: the null flag follows charset and collate; a
      non-null default is written except for text, blob, geometry and json
      columns. */
  lemma MySqlDefault(env: Env, meta: MetaTable, f: Record)
    requires !Truthy(Prop(f, "serial"))
    ensures var m1 := Meta(env, meta, "column", f, Some(["charset", "collate"]));
            var m2 := Meta(env, meta, "column", f, Some(["comment"]));
            var d := DefaultClause(env, Prop(f, "default"), f);
            MySqlTail(env, meta, f) ==
              if !MySqlTakesDefault(f) then Ok([m1, NullFlag(f), m2])
              else if d.Ok? then Ok([m1, NullFlag(f), d.value, m2]) else Err(d.error)
  {
    var m1 := Meta(env, meta, "column", f, Some(["charset", "collate"]));
    var m2 := Meta(env, meta, "column", f, Some(["comment"]));
    var d := DefaultClause(env, Prop(f, "default"), f);
    var t := MySqlTakesDefault(f);
    var middle := Middle(env, f, "NOT NULL AUTO_INCREMENT", t);
    assert MySqlTail(env, meta, f) == if middle.Ok? then Ok([m1] + middle.value + [m2]) else Err(middle.error);
    MiddleNotSerial(env, f, "NOT NULL AUTO_INCREMENT", t);
    if !t {
      assert [m1] + [NullFlag(f)] + [m2] == [m1, NullFlag(f), m2];
    } else if d.Ok? {
      assert [m1] + [NullFlag(f), d.value] + [m2] == [m1, NullFlag(f), d.value, m2];
    }
  }

  lemma MiddleNotSerial(env: Env, f: Record, serialText: string, takesDefault: bool)
    requires !Truthy(Prop(f, "serial"))
    ensures var d := DefaultClause(env, Prop(f, "default"), f);
            Middle(env, f, serialText, takesDefault) ==
              if !takesDefault then Ok([NullFlag(f)])
              else if d.Ok? then Ok([NullFlag(f), d.value]) else Err(d.error)
  {
  }

  /** PostgreSQL and SQLite, not serial: the null flag, then the default
      whenever it is not null. */
  lemma PostgreSqlSqliteDefault(env: Env, meta: MetaTable, f: Record)
    requires !Truthy(Prop(f, "serial"))
    ensures var m := Meta(env, meta, "column", f, Some(["comment"]));
            var d := DefaultClause(env, Prop(f, "default"), f);
            PostgreSqlTail(env, meta, f) ==
              if Prop(f, "default").Null? then Ok([NullFlag(f), m])
              else if d.Ok? then Ok([NullFlag(f), d.value, m]) else Err(d.error)
    ensures var k := Meta(env, meta, "column", f, Some(["collate"]));
            var d := DefaultClause(env, Prop(f, "default"), f);
            SqliteTail(env, meta, f) ==
              if Prop(f, "default").Null? then Ok([k, NullFlag(f)])
              else if d.Ok? then Ok([k, NullFlag(f), d.value]) else Err(d.error)
  {
    var m := Meta(env, meta, "column", f, Some(["comment"]));
    var k := Meta(env, meta, "column", f, Some(["collate"]));
    var d := DefaultClause(env, Prop(f, "default"), f);
    if Prop(f, "default").Null? {
      assert [NullFlag(f)] + [m] == [NullFlag(f), m];
      assert [k] + [NullFlag(f)] == [k, NullFlag(f)];
    } else if d.Ok? {
      assert [NullFlag(f), d.value] + [m] == [NullFlag(f), d.value, m];
      assert [k] + [NullFlag(f), d.value] == [k, NullFlag(f), d.value];
    }
  }

  /** A float with a precision is written with the vendor's exact type. */
  lemma FloatWithPrecision(env: Env, f: Record, floatUse: string, name: string)
    requires Prop(f, "type") == Str("float") && Truthy(Prop(f, "precision"))
    requires NameOf(env, Prop(f, "name"), map[]) == Ok(name)
    ensures ColumnHead(env, f, floatUse) == Ok(name + " " + FormatColumn(floatUse, Prop(f, "length"), Prop(f, "precision")))
  {
  }

  /** A formatter object as default goes through that formatter; `:plain`
      writes its text as it is; an empty object names no formatter. */
  lemma DefaultFormatter(env: Env, text: string, field: Record)
    ensures DefaultClause(env, Obj([(":plain", Str(text))]), field) == Ok("DEFAULT " + text)
    ensures DefaultClause(env, Obj([]), field) == Err(UnknownFormatter("undefined"))
  {
  }

  /** Any other default is cast through `:value`, and a configured caster
      receives the column's field definition as `states.field`, with no
      name, schema or aliases set. */
  lemma DefaultSeesField(env: Env, dft: Node, field: Record)
    requires !dft.Obj?
    ensures DefaultClause(env, dft, field) == Ok("DEFAULT " + Value(env.quoter, env.caster, dft, DefaultStates(field)))
    ensures env.caster.Some? ==>
              DefaultClause(env, dft, field) == Ok("DEFAULT " + env.caster.value(dft, States(map[], map[], None, None, Some(field))))
  {
  }

  /** A caster that decides by the field's type, as a caller may configure
      one: integers are written bare, anything else is quoted. */
  function FieldTypeCaster(quoter: Option<Quoter>): Caster
  {
    (v: Node, st: States) =>
      if st.field.Some? && Prop(st.field.value, "type") == Str("integer") then JsString(v)
      else Quote(quoter, JsString(v))
  }

  /** With that caster, the default `'1'` of an integer column is written
      `DEFAULT 1`, and of a string column `DEFAULT '1'`. */
  lemma DefaultCastByFieldType(env: Env, field: Record)
    requires env.caster == Some(FieldTypeCaster(None))
    ensures Prop(field, "type") == Str("integer") ==> DefaultClause(env, Str("1"), field) == Ok("DEFAULT 1")
    ensures Prop(field, "type") == Str("string") ==> DefaultClause(env, Str("1"), field) == Ok("DEFAULT '1'")
  {
    DefaultSeesField(env, Str("1"), field);
    var st := States(map[], map[], None, None, Some(field));
    var cast := FieldTypeCaster(None)(Str("1"), st);
    assert JsString(Str("1")) == "1";
    assert Quote(None, "1") == "'1'";
    if Prop(field, "type") == Str("integer") {
      assert cast == "1";
    } else if Prop(field, "type") == Str("string") {
      assert cast == "'1'";
    }
    assert "DEFAULT " + "1" == "DEFAULT 1" && "DEFAULT " + "'1'" == "DEFAULT '1'";
  }

  /** The column of the base dialect cannot be rendered. */
  lemma AnsiHasNoColumn(env: Env, meta: MetaTable, f: Record)
    ensures RenderColumn(Ansi, env, meta, f).Err?
  {
  }

  /** `{ id: { type: 'serial' } }` in SQLite, once prepared: the name, the
      native type and the serial text, and nothing else. */
  lemma SqliteSerialRender(f: Record)
    requires Prop(f, "name") == Str("id") && Prop(f, "use") == Str("integer")
    requires Prop(f, "serial") == Bool(true) && Prop(f, "length") == Null && Prop(f, "precision") == Null
    requires Get(f, "collate") == None
    ensures RenderColumn(Sqlite, VendorEnv(Sqlite), MetaOf(Sqlite), f) == Ok("\"id\" integer NOT NULL")
  {
    var env := VendorEnv(Sqlite);
    PlainHead(env, f, "numeric", "id", "integer");
    var h := Escape("\"", "id") + " " + "integer";
    SerialTail(f);
    assert SqliteParts(env, MetaOf(Sqlite), f) == Ok([h] + ["", "NOT NULL"]);
    JoinSkippingEmpty(h, "NOT NULL");
    IdLiteral();
  }

  /** `filter(Boolean).join(' ')` over a name and type, an empty meta and
      a flag. */
  lemma JoinSkippingEmpty(h: string, t: string)
    requires h != "" && t != ""
    ensures Join(NonEmpty([h] + ["", t]), " ") == h + " " + t
  {
    var ps := [h] + ["", t];
    assert ps[1..] == ["", t] && ps[1..][1..] == [t] && ps[1..][1..][1..] == [];
    assert NonEmpty(ps[1..][1..]) == [t] + NonEmpty([]);
    assert NonEmpty(ps[1..]) == [] + NonEmpty(ps[1..][1..]);
    assert NonEmpty(ps) == [h] + NonEmpty(ps[1..]);
    assert NonEmpty(ps) == [h, t];
    JoinSmall(h, t, "", " ");
  }

  lemma IdLiteral()
    ensures Escape("\"", "id") + " " + "integer" + " " + "NOT NULL" == "\"id\" integer NOT NULL"
  {
  }

  /** A column without length or precision is its escaped name and its
      native type. */
  lemma PlainHead(env: Env, f: Record, floatUse: string, n: string, u: string)
    requires '.' !in n && Prop(f, "name") == Str(n) && Prop(f, "use") == Str(u)
    requires Prop(f, "length") == Null && Prop(f, "precision") == Null
    ensures ColumnHead(env, f, floatUse) == Ok(Escape(env.escape, n) + " " + u)
  {
    NameOfPlain(env, n);
    FormatColumnForms(u, Null, Null);
  }

  lemma SerialTail(f: Record)
    requires Prop(f, "serial") == Bool(true) && Get(f, "collate") == None
    ensures SqliteTail(VendorEnv(Sqlite), MetaOf(Sqlite), f) == Ok(["", "NOT NULL"])
  {
    var env := VendorEnv(Sqlite);
    var k := Meta(env, MetaOf(Sqlite), "column", f, Some(["collate"]));
    MetaOne(env, MetaOf(Sqlite), "column", f, "collate");
    assert MetaPart(env, MetaOf(Sqlite), "column", f, "collate") == [];
    assert Middle(env, f, "NOT NULL", !Prop(f, "default").Null?) == Ok(["NOT NULL"]);
    assert [k] + ["NOT NULL"] == ["", "NOT NULL"];
  }

  /** SQLite casts the collation as a value: `COLLATE 'NOCASE'`. */
  lemma SqliteCollate(c: string, f: Record)
    requires Get(f, "collate") == Some(Str(c)) && c != ""
    ensures Meta(VendorEnv(Sqlite), MetaOf(Sqlite), "column", f, Some(["collate"])) == "COLLATE '" + c + "'"
  {
    var env := VendorEnv(Sqlite);
    MetaOne(env, MetaOf(Sqlite), "column", f, "collate");
    assert Metadata(env, MetaOf(Sqlite), "column", "collate", Str(c)) == Some("COLLATE" + " " + Quote(None, c));
  }

  /** Without a caster, a boolean default is `DEFAULT TRUE` or
      `DEFAULT FALSE`. */
  lemma BooleanDefault(v: Vendor, b: bool, field: Record)
    ensures DefaultClause(VendorEnv(v), Bool(b), field) == Ok(if b then "DEFAULT TRUE" else "DEFAULT FALSE")
  {
    assert Format(VendorEnv(v), ":value", Bool(b), DefaultStates(field)) == Ok(Out(if b then "TRUE" else "FALSE", DefaultStates(field)));
    assert "DEFAULT " + "TRUE" == "DEFAULT TRUE" && "DEFAULT " + "FALSE" == "DEFAULT FALSE";
  }
}
