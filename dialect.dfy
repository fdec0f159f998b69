// The `Dialect` object: its registries (quoter, caster, type definitions
// and type mappings) change in place, so it is a class; the tables a
// vendor constructor installs are constant fields. The loops of `mapped`,
// `meta` and `constraint` are methods proved equal to the functions of
// `Columns`.

module Dialects {

  import opened Wrappers
  import opened Text
  import opened Ordered
  import opened Nodes
  import opened Casting
  import opened Operators
  import opened Compiler
  import opened Columns
  import opened Vendors

  /** What a statement reads from its dialect when it renders. */
  datatype Snapshot = Snapshot(
    vendor: Vendor,
    env: Env,
    types: TypeTable,
    meta: MetaTable,
    constraints: Option<map<string, ConstraintDef>>,
    fill: Fill)

  /** `column(field)` under a snapshot. */
  function SnapshotColumn(s: Snapshot, field: Record): Result<string>
  {
    ColumnSql(s.vendor, s.env, s.types, s.meta, field)
  }

  /** `constraint(name, constraint, options)` under a snapshot. */
  function SnapshotConstraint(s: Snapshot, name: string, constraint: Record, opts: CondOptions): Result<string>
  {
    Columns.Constraint(s.env, s.fill, s.constraints, name, constraint, opts)
  }

  /** `field(field)` under a snapshot. */
  function SnapshotField(s: Snapshot, field: Record): Result<Record>
  {
    Columns.Field(s.types, field)
  }

  /** `meta(kind, data, names)` under a snapshot. */
  function SnapshotMeta(s: Snapshot, kind: string, data: Record, names: Option<seq<string>>): string
  {
    Columns.Meta(s.env, s.meta, kind, data, names)
  }

  /** The statement names `statement(name)` knows. */
  datatype StatementKind = SelectKind | InsertKind | UpdateKind | DeleteKind | TruncateKind | CreateTableKind | DropTableKind

  function KindName(k: StatementKind): string
  {
    match k
    case SelectKind => "select"
    case InsertKind => "insert"
    case UpdateKind => "update"
    case DeleteKind => "delete"
    case TruncateKind => "truncate"
    case CreateTableKind => "create table"
    case DropTableKind => "drop table"
  }

  /** The class lookup of `statement(name)`: a registered name gives its
      statement, any other name is refused. */
  function StatementKindOf(name: string): (r: Result<StatementKind>)
    ensures r.Ok? ==> KindName(r.value) == name
    ensures r.Err? ==> r.error == UnsupportedStatement(name) && forall k :: KindName(k) != name
  {
    match name
    case "select" => Ok(SelectKind)
    case "insert" => Ok(InsertKind)
    case "update" => Ok(UpdateKind)
    case "delete" => Ok(DeleteKind)
    case "truncate" => Ok(TruncateKind)
    case "create table" => Ok(CreateTableKind)
    case "drop table" => Ok(DropTableKind)
    case _ => Err(UnsupportedStatement(name))
  }

  class Dialect {
    const vendor: Vendor
    const escape: string
    const operators: map<string, OpConfig>
    const meta: MetaTable
    const constraints: Option<map<string, ConstraintDef>>
    /** The placeholder fill of the templating library. */
    const fill: Fill
    var quoter: Option<Quoter>
    var caster: Option<Caster>
    var types: TypeTable
    var maps: MapTable

    /** The base constructor followed by a vendor's: the configured hooks
        and types, the vendor's tables, its `type()` calls (which replace
        configured definitions of the same name) and its `map()` calls in
        order. */
    constructor(v: Vendor, quoter0: Option<Quoter>, caster0: Option<Caster>, configTypes: TypeTable, fill0: Fill)
      ensures vendor == v && escape == EscapeOf(v) && operators == OperatorsOf(v)
      ensures meta == MetaOf(v) && constraints == ConstraintsOf(v) && fill == fill0
      ensures quoter == quoter0 && caster == caster0
      ensures types == configTypes + TypesOf(v)
      ensures maps == Registered(MapCallsOf(v))
    {
      vendor := v;
      escape := EscapeOf(v);
      operators := OperatorsOf(v);
      meta := MetaOf(v);
      constraints := ConstraintsOf(v);
      fill := fill0;
      quoter := quoter0;
      caster := caster0;
      types := configTypes + TypesOf(v);
      maps := map[];
      new;
      RegisterMaps(MapCallsOf(v));
    }

    /** The `map()` calls of a vendor constructor, in order, on an empty
        registry. */
    method RegisterMaps(calls: seq<MapCall>)
      requires maps == map[]
      modifies this`maps
      ensures maps == Registered(calls)
    {
      var i := 0;
      while i < |calls|
        invariant 0 <= i <= |calls|
        invariant maps == Registered(calls[..i])
      {
        Map(calls[i].use, calls[i].typeName, Some(calls[i].options));
        assert calls[..i + 1][..i] == calls[..i];
        i := i + 1;
      }
      assert calls[..i] == calls;
    }

    /** What the expression compiler reads from this dialect. */
    function CompilerEnv(): Env
      reads this
    {
      Env(escape, operators, quoter, caster)
    }

    function State(): Snapshot
      reads this
    {
      Snapshot(vendor, CompilerEnv(), types, meta, constraints, fill)
    }

    /** `quoter(q)`: a given hook replaces the current one; the current
        hook is returned. */
    method SetQuoter(q: Option<Quoter>) returns (r: Option<Quoter>)
      modifies this`quoter
      ensures quoter == (if q.Some? then q else old(quoter))
      ensures r == quoter
    {
      if q.Some? {
        quoter := q;
      }
      r := quoter;
    }

    /** `caster(c)`. */
    method SetCaster(c: Option<Caster>) returns (r: Option<Caster>)
      modifies this`caster
      ensures caster == (if c.Some? then c else old(caster))
      ensures r == caster
    {
      if c.Some? {
        caster := c;
      }
      r := caster;
    }

    /** `type(name, config)`: a given definition is stored first; then the
        definition is returned, or the name is refused. */
    method Type(name: string, config: Option<Record>) returns (r: Result<Record>)
      modifies this`types
      ensures types == if config.Some? then old(types)[name := config.value] else old(types)
      ensures r.Ok? <==> name in types
      ensures r.Ok? ==> r.value == types[name]
      ensures r.Err? ==> r.error == UnknownColumnType(name)
      ensures config.Some? ==> r == Ok(config.value)
    {
      if config.Some? {
        types := types[name := config.value];
      }
      if name !in types {
        return Err(UnknownColumnType(name));
      }
      r := Ok(types[name]);
    }

    /** `map(use, type, options)`: the candidates of `use` become
        `Object.assign({}, {[type]: options || {}}, old)`. */
    method Map(use: string, t: string, options: Option<Record>)
      modifies this`maps
      ensures maps == MapStep(old(maps), MapCall(use, t, if options.Some? then options.value else []))
    {
      var entry := if use in maps then maps[use] else [];
      maps := maps[use := MapAdd(entry, t, if options.Some? then options.value else [])];
    }

    /** `mapped(column)`: the two nested `for..in` loops score every
        candidate and keep the last one that reaches the running maximum. */
    method Mapped(column: Node) returns (r: string)
      ensures r == Columns.Mapped(maps, column)
    {
      var (use, options) := MappedInput(column);
      if use !in maps {
        return "string";
      }
      var entry := maps[use];
      var best: Option<nat> := None;
      var max := 0;
      var i := 0;
      while i < |entry|
        invariant 0 <= i <= |entry|
        invariant (best, max) == Pick(entry[..i], options)
      {
        var cpt := ScoreOf(entry[i].1, options);
        assert entry[..i + 1][..i] == entry[..i];
        if cpt >= max {
          best := Some(i);
          max := cpt;
        }
        i := i + 1;
      }
      assert entry[..i] == entry;
      r := if best.Some? && entry[best.value].0 != "" then entry[best.value].0 else "string";
    }

    /** The inner loop of `mapped`: one point per option the column
        matches, minus one per option it does not. */
    method ScoreOf(value: Record, options: Record) returns (cpt: int)
      ensures cpt == Score(value, options)
    {
      cpt := 0;
      var k := 0;
      while k < |value|
        invariant 0 <= k <= |value|
        invariant cpt == Score(value[..k], options)
      {
        cpt := if StrictEqual(value[k].1, Get(options, value[k].0)) then cpt + 1 else cpt - 1;
        assert value[..k + 1][..k] == value[..k];
        k := k + 1;
      }
      assert value[..k] == value;
    }

    /** `field(field)`. */
    function Field(field: Record): Result<Record>
      reads this
    {
      Columns.Field(types, field)
    }

    /** `column(field)`. */
    function Column(field: Record): Result<string>
      reads this
    {
      ColumnSql(vendor, CompilerEnv(), types, meta, field)
    }

    /** `meta(kind, data, names)`: the loop over the names keeps each
        non-empty metadata of a truthy value. */
    method Meta(kind: string, data: Record, names: Option<seq<string>>) returns (r: string)
      ensures r == Columns.Meta(CompilerEnv(), meta, kind, data, names)
    {
      var items := MetaNames(data, names);
      var result: seq<string> := [];
      var i := 0;
      while i < |items|
        invariant 0 <= i <= |items|
        invariant result == MetaParts(CompilerEnv(), meta, kind, data, items[..i])
      {
        result := result + MetaPart(CompilerEnv(), meta, kind, data, items[i]);
        assert items[..i + 1][..i] == items[..i];
        i := i + 1;
      }
      assert items[..i] == items;
      r := Join(result, " ");
    }

    /** `constraint(name, constraint, options)`: the `for..of` loop over the
        descriptor's entries fills the data map, which fills the template. */
    method Constraint(name: string, constraint: Record, opts: CondOptions) returns (r: Result<string>)
      ensures r == Columns.Constraint(CompilerEnv(), fill, constraints, name, constraint, opts)
    {
      if constraints.None? {
        return Err(TypeError("this._constraints is undefined"));
      }
      if name !in constraints.value || constraints.value[name].template == "" {
        return Err(InvalidConstraintTemplate(name));
      }
      var def := constraints.value[name];
      var env := CompilerEnv();
      var entries := ConstraintEntries(constraint);
      var data: seq<(string, string)> := [];
      var i := 0;
      while i < |entries|
        invariant 0 <= i <= |entries|
        invariant ConstraintData(env, def, opts, data, entries[i..]) == ConstraintData(env, def, opts, [], entries)
      {
        var next := ConstraintField(env, def, opts, data, entries[i].0, entries[i].1);
        if next.Err? {
          return Err(next.error);
        }
        data := next.value;
        i := i + 1;
      }
      r := Ok(Trim(fill(def.template, data)));
    }
  }

  /** The dialect a statement holds, if any. */
  function StateOf(d: Option<Dialect>): Option<Snapshot>
    reads if d.Some? then {d.value} else {}
  {
    if d.Some? then Some(d.value.State()) else None
  }
}
