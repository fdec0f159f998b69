// The type and mapping engine of the dialect (`type`, `map`, `mapped`,
// `field`, `column`, `_formatColumn`) and what `meta`, `_metadata` and
// `constraint` compute, as functions on the dialect's tables. The dialect
// class runs the loops of the source against these functions.

module Columns {

  import opened Wrappers
  import opened Text
  import opened Ordered
  import opened Nodes
  import opened Identifiers
  import opened Casting
  import opened Compiler

  // ---------------------------------------------------------------------
  // Type definitions and type mappings.

  /** The `_types` registry: an abstract type name and its definition. */
  type TypeTable = map<string, Record>

  /** `type(name)` for a settled registry. */
  function LookupType(types: TypeTable, name: string): Result<Record>
  {
    if name in types then Ok(types[name]) else Err(UnknownColumnType(name))
  }

  /** The candidates of one native type, in `for..in` order: an abstract
      type name and the options that select it. */
  type MapEntry = seq<(string, Record)>

  /** The `_maps` registry. */
  type MapTable = map<string, MapEntry>

  /** `map(use, type, options)` on the candidates of `use`: the copy is
      `Object.assign({}, {[type]: options}, old)`. */
  function MapAdd(entry: MapEntry, t: string, options: Record): MapEntry
  {
    Assign([(t, options)], entry)
  }

  /** A newly registered type comes first; re-registering a type moves it
      to the front but keeps the options it was first given; the other
      candidates keep their options and their order. */
  lemma MapAddOrder(entry: MapEntry, t: string, options: Record)
    requires UniqueKeys(entry)
    ensures UniqueKeys(MapAdd(entry, t, options))
    ensures Keys(MapAdd(entry, t, options)) == [t] + Without(Keys(entry), t)
    ensures Get(MapAdd(entry, t, options), t) == if t in Keys(entry) then Get(entry, t) else Some(options)
    ensures forall u :: u != t ==> Get(MapAdd(entry, t, options), u) == Get(entry, u)
  {
    AssignKeys([(t, options)], entry);
    AssignUnique([(t, options)], entry);
    assert Keys([(t, options)]) == [t];
    AddAllOthers([t], Keys(entry), t);
  }

  // ---------------------------------------------------------------------
  // `mapped(column)`: the best-scoring candidate of the native type.

  /** A JavaScript primitive, for which `===` compares values. */
  predicate Primitive(v: Node)
  {
    v.Null? || v.Bool? || v.Int? || v.Str?
  }

  /** `value[key] === options[key]` with `options[key]` read as `b`. */
  predicate StrictEqual(a: Node, b: Option<Node>)
  {
    b == Some(a) && Primitive(a)
  }

  /** `typeof column === 'object'` splits the argument into the native type
      name (its `use`) and the options the candidates are scored against. */
  function MappedInput(column: Node): (string, Record)
  {
    if column.Null? || column.List? || column.Obj? || column.Raw? then
      var own := Assign([], OwnEntries(column));
      var use := Get(own, "use");
      (if use.Some? then JsString(use.value) else "undefined", Remove(own, "use"))
    else (JsString(column), [])
  }

  /** The `cpt` counter for one candidate after its first `|value|` options:
      one up for each option the column matches, one down for each other. */
  function Score(value: Record, options: Record): int
    decreases |value|
  {
    if value == [] then 0
    else
      var last := value[|value| - 1];
      Score(value[..|value| - 1], options) + (if StrictEqual(last.1, Get(options, last.0)) then 1 else -1)
  }

  /** A score lies between minus and plus the number of options, and is
      the top value exactly when the column matches every option. */
  lemma {:induction false} ScoreBounds(value: Record, options: Record)
    ensures -|value| <= Score(value, options) <= |value|
    ensures Score(value, options) == |value| <==>
            forall i :: 0 <= i < |value| ==> StrictEqual(value[i].1, Get(options, value[i].0))
    decreases |value|
  {
    if value != [] {
      var init := value[..|value| - 1];
      ScoreBounds(init, options);
      assert forall i :: 0 <= i < |init| ==> init[i] == value[i];
    }
  }

  /** The `for (type in map)` loop after its first `|entry|` candidates:
      the index of the current `result` and the value of `max`. A candidate
      takes over when it scores at least `max`, which starts at 0. */
  function Pick(entry: MapEntry, options: Record): (r: (Option<nat>, int))
    ensures r.1 >= 0
    ensures r.0.None? ==> r.1 == 0 && forall j :: 0 <= j < |entry| ==> Score(entry[j].1, options) < 0
    ensures r.0.Some? ==> r.0.value < |entry| && r.1 == Score(entry[r.0.value].1, options)
    ensures r.0.Some? ==> forall j :: 0 <= j < |entry| ==> Score(entry[j].1, options) <= r.1
    ensures r.0.Some? ==> forall j :: r.0.value < j < |entry| ==> Score(entry[j].1, options) < r.1
    decreases |entry|
  {
    if entry == [] then (None, 0)
    else
      var init := entry[..|entry| - 1];
      var (best, max) := Pick(init, options);
      assert forall j :: 0 <= j < |init| ==> init[j] == entry[j];
      var cpt := Score(entry[|entry| - 1].1, options);
      if cpt >= max then (Some(|entry| - 1), cpt) else (best, max)
  }

  /** `mapped(column)`: the winning candidate's name, or 'string' when the
      native type has no mapping, no candidate scores at least 0, or the
      name is empty. */
  function Mapped(maps: MapTable, column: Node): string
  {
    var (use, options) := MappedInput(column);
    if use !in maps then "string"
    else
      var entry := maps[use];
      var best := Pick(entry, options).0;
      if best.Some? && entry[best.value].0 != "" then entry[best.value].0 else "string"
  }

  /** Candidate `i` scores at least 0, no candidate scores more, and every
      later candidate scores less. */
  predicate LastBest(entry: MapEntry, options: Record, i: int)
  {
    0 <= i < |entry| && Score(entry[i].1, options) >= 0 &&
    (forall j :: 0 <= j < |entry| ==> Score(entry[j].1, options) <= Score(entry[i].1, options)) &&
    (forall j :: i < j < |entry| ==> Score(entry[j].1, options) < Score(entry[i].1, options))
  }

  /** What `mapped` answers: 'string' without a mapping or without a
      candidate scoring at least 0; otherwise the last of the best-scoring
      candidates (unless its name is empty). */
  lemma MappedWinner(maps: MapTable, column: Node)
    ensures MappedInput(column).0 !in maps ==> Mapped(maps, column) == "string"
    ensures MappedInput(column).0 in maps ==>
              var entry := maps[MappedInput(column).0];
              var options := MappedInput(column).1;
              ((forall j :: 0 <= j < |entry| ==> Score(entry[j].1, options) < 0) ==> Mapped(maps, column) == "string") &&
              (forall i :: LastBest(entry, options, i) && entry[i].0 != "" ==> Mapped(maps, column) == entry[i].0)
  {
    var (use, options) := MappedInput(column);
    if use in maps {
      var entry := maps[use];
      var best := Pick(entry, options);
      forall i | LastBest(entry, options, i) && entry[i].0 != ""
        ensures Mapped(maps, column) == entry[i].0
      {
        assert best.0.Some?;
        assert best.0.value == i;
      }
    }
  }

  /** Of two types registered for the same native type, the one registered
      first is iterated last and therefore wins a tie. */
  lemma EarliestWinsTie(t1: string, o1: Record, t2: string, o2: Record, options: Record)
    requires t1 != t2
    requires Score(o1, options) == Score(o2, options) >= 0
    ensures MapAdd(MapAdd([], t1, o1), t2, o2) == [(t2, o2), (t1, o1)]
    ensures Pick(MapAdd(MapAdd([], t1, o1), t2, o2), options).0 == Some(1)
  {
    var e := MapAdd(MapAdd([], t1, o1), t2, o2);
    assert MapAdd([], t1, o1) == [(t1, o1)];
    assert Put([], t1, o1) == [(t1, o1)];
    assert Put([(t2, o2)], t1, o1) == [(t2, o2)] + Put([], t1, o1);
    assert Assign(Put([(t2, o2)], t1, o1), []) == Put([(t2, o2)], t1, o1);
    assert e == [(t2, o2), (t1, o1)];
    var first := e[..1];
    assert first == [(t2, o2)];
    assert Pick(first[..0], options) == (None, 0);
    assert Pick(first, options) == (Some(0), Score(o2, options));
  }

  // ---------------------------------------------------------------------
  // `field(field)` and `column(field)`.

  /** The defaults `field()` fills in, in their order. */
  const FieldDefaults: Record := [
    ("name", Null), ("type", Null), ("length", Null), ("precision", Null),
    ("serial", Bool(false)), ("default", Null), ("null", Null)]

  /** The registry key the abstract type is looked up under:
      `String(field.type)`, or 'string' when there is no type. */
  function TypeKey(field: Record): string
  {
    var t := Get(field, "type");
    if t.Some? then JsString(t.value) else "string"
  }

  /** A field without `use` is laid over a copy of its type definition. */
  function Seeded(types: TypeTable, field: Record): Result<Record>
  {
    if Get(field, "use").Some? then Ok(field)
    else
      var def :- LookupType(types, TypeKey(field));
      Ok(Assign(Assign([], def), field))
  }

  /** `field(field)`. */
  function Field(types: TypeTable, field: Record): Result<Record>
  {
    if Get(field, "name").None? then Err(MissingColumnName)
    else
      var seeded :- Seeded(types, field);
      Ok(Assign(FieldDefaults, seeded))
  }

  /** Every type definition is a plain object (no key twice). */
  predicate WellFormedTypes(types: TypeTable)
  {
    forall t :: t in types ==> UniqueKeys(types[t])
  }

  lemma DefaultKeys()
    ensures Keys(FieldDefaults) == ["name", "type", "length", "precision", "serial", "default", "null"]
    ensures UniqueKeys(FieldDefaults)
  {
    var ks := ["name", "type", "length", "precision", "serial", "default", "null"];
    assert Keys(FieldDefaults) == ks;
    assert NoDup(ks);
  }

  /** `field()` fails exactly without a name, or without `use` for an
      unregistered type. */
  lemma FieldErrors(types: TypeTable, field: Record)
    ensures Get(field, "name").None? ==> Field(types, field) == Err(MissingColumnName)
    ensures Get(field, "name").Some? && Get(field, "use").None? && TypeKey(field) !in types ==>
              Field(types, field) == Err(UnknownColumnType(TypeKey(field)))
    ensures Field(types, field).Ok? <==>
              Get(field, "name").Some? && (Get(field, "use").Some? || TypeKey(field) in types)
  {
  }

  /** The result starts with the seven default keys, and each property
      comes from the field itself, then (when the field has no `use`) from
      its type definition, then from the defaults. */
  lemma FieldContents(types: TypeTable, field: Record)
    requires UniqueKeys(field) && WellFormedTypes(types) && Field(types, field).Ok?
    ensures var g := Field(types, field).value;
            UniqueKeys(g) && |Keys(g)| >= 7 && Keys(g)[..7] == Keys(FieldDefaults) &&
            forall k :: Get(g, k) ==
              if Get(field, k).Some? then Get(field, k)
              else if Get(field, "use").None? && Get(types[TypeKey(field)], k).Some? then Get(types[TypeKey(field)], k)
              else Get(FieldDefaults, k)
  {
    var g := Field(types, field).value;
    var seeded := Seeded(types, field).value;
    assert g == Assign(FieldDefaults, seeded);
    SeededUnique(types, field);
    DefaultKeys();
    AssignUnique(FieldDefaults, seeded);
    AssignKeys(FieldDefaults, seeded);
    AddAllElements(Keys(FieldDefaults), Keys(seeded));
    SeededGet(types, field);
  }

  /** What the seeded field holds: the field's own properties over its
      type definition's. */
  lemma SeededGet(types: TypeTable, field: Record)
    requires UniqueKeys(field) && WellFormedTypes(types) && Seeded(types, field).Ok?
    ensures forall k :: Get(Seeded(types, field).value, k) ==
              if Get(field, k).Some? then Get(field, k)
              else if Get(field, "use").None? then Get(types[TypeKey(field)], k)
              else None
  {
    if Get(field, "use").None? {
      var def := types[TypeKey(field)];
      assert Seeded(types, field).value == Assign(Assign([], def), field);
      assert forall k :: Get(Assign([], def), k) == Get(def, k);
    }
  }

  lemma SeededUnique(types: TypeTable, field: Record)
    requires UniqueKeys(field) && Seeded(types, field).Ok?
    ensures UniqueKeys(Seeded(types, field).value)
  {
    if Get(field, "use").None? {
      var def := types[TypeKey(field)];
      AssignUnique([], def);
      AssignUnique(Assign([], def), field);
    }
  }

  /** `field()` is idempotent once the result names its native type, which
      it does when the field has `use` or every type definition has one. */
  lemma FieldIdempotent(types: TypeTable, field: Record)
    requires UniqueKeys(field) && Field(types, field).Ok?
    requires Get(field, "use").Some? || forall t :: t in types ==> "use" in Keys(types[t])
    ensures Field(types, Field(types, field).value) == Field(types, field)
  {
    var seeded := Seeded(types, field).value;
    var g := Assign(FieldDefaults, seeded);
    assert Field(types, field) == Ok(g);
    SeededUnique(types, field);
    DefaultKeys();
    assert "use" in Keys(seeded) by {
      if Get(field, "use").None? {
        var def := types[TypeKey(field)];
        assert seeded == Assign(Assign([], def), field);
        AssignKeys([], def);
        AddAllElements([], Keys(def));
        AssignKeys(Assign([], def), field);
        AddAllElements(Keys(Assign([], def)), Keys(field));
      }
    }
    AssignKeys(FieldDefaults, seeded);
    AddAllElements(Keys(FieldDefaults), Keys(seeded));
    assert "name" in Keys(g) && "use" in Keys(g);
    assert Seeded(types, g) == Ok(g);
    AssignAgain(FieldDefaults, seeded);
  }

  /** `IS_NUMERIC_EXP.test(type)`: the type text starts with integer, float
      or boolean (the pattern has no end anchor). */
  predicate IsNumericType(t: Node)
  {
    var s := JsString(t);
    StartsWith(s, "integer") || StartsWith(s, "float") || StartsWith(s, "boolean")
  }

  /** A numeric column whose default is the empty string. */
  predicate BlankNumeric(f: Record)
  {
    Get(f, "type").Some? && IsNumericType(Get(f, "type").value) && Get(f, "default") == Some(Str(""))
  }

  /** `column(field)` before the vendor's `_column`: a numeric column with
      a blank default is made nullable with no default, and `use` is
      lowercased (a `use` that is not a string has no `toLowerCase`). */
  function PrepareColumn(types: TypeTable, field: Record): Result<Record>
  {
    var f :- Field(types, field);
    PrepareField(f)
  }

  /** What `column()` does to the result of `field()`. */
  function PrepareField(f: Record): Result<Record>
  {
    var g := if BlankNumeric(f) then Put(Put(f, "null", Bool(true)), "default", Null) else f;
    var use := Get(g, "use");
    if use.Some? && use.value.Str? then Ok(Put(g, "use", Str(Lower(use.value.s))))
    else Err(TypeError("use.toLowerCase is not a function"))
  }

  /** The result of `field()` has every default key. */
  lemma FieldHasDefaults(types: TypeTable, field: Record)
    requires Field(types, field).Ok?
    ensures forall k :: k in Keys(FieldDefaults) ==> k in Keys(Field(types, field).value)
  {
    var seeded := Seeded(types, field).value;
    AssignKeys(FieldDefaults, seeded);
    AddAllElements(Keys(FieldDefaults), Keys(seeded));
  }

  /** The prepared column keeps the keys of `field()`'s result and changes
      only `use`, and `null`/`default` for a blank numeric default. */
  lemma PrepareColumnEffect(types: TypeTable, field: Record)
    requires Field(types, field).Ok?
    ensures var f := Field(types, field).value;
            match PrepareColumn(types, field)
            case Ok(g) =>
              Keys(g) == Keys(f) &&
              Get(f, "use").Some? && Get(f, "use").value.Str? &&
              Get(g, "use") == Some(Str(Lower(Get(f, "use").value.s))) &&
              Get(g, "null") == (if BlankNumeric(f) then Some(Bool(true)) else Get(f, "null")) &&
              Get(g, "default") == (if BlankNumeric(f) then Some(Null) else Get(f, "default")) &&
              forall k :: k != "use" && k != "null" && k != "default" ==> Get(g, k) == Get(f, k)
            case Err(e) => e.TypeError? && !(Get(f, "use").Some? && Get(f, "use").value.Str?)
  {
    var f := Field(types, field).value;
    FieldHasDefaults(types, field);
    DefaultKeys();
    PrepareFieldEffect(f);
  }

  lemma PrepareFieldEffect(f: Record)
    requires "null" in Keys(f) && "default" in Keys(f)
    ensures match PrepareField(f)
            case Ok(g) =>
              Keys(g) == Keys(f) &&
              Get(f, "use").Some? && Get(f, "use").value.Str? &&
              Get(g, "use") == Some(Str(Lower(Get(f, "use").value.s))) &&
              Get(g, "null") == (if BlankNumeric(f) then Some(Bool(true)) else Get(f, "null")) &&
              Get(g, "default") == (if BlankNumeric(f) then Some(Null) else Get(f, "default")) &&
              forall k :: k != "use" && k != "null" && k != "default" ==> Get(g, k) == Get(f, k)
            case Err(e) => e.TypeError? && !(Get(f, "use").Some? && Get(f, "use").value.Str?)
  {
    var g0 := Put(Put(f, "null", Bool(true)), "default", Null);
    PutKeys(f, "null", Bool(true));
    PutKeys(Put(f, "null", Bool(true)), "default", Null);
    var h := if BlankNumeric(f) then g0 else f;
    assert Keys(h) == Keys(f);
    assert Get(h, "use") == Get(f, "use");
    if Get(h, "use").Some? && Get(h, "use").value.Str? {
      PutKeys(h, "use", Str(Lower(Get(h, "use").value.s)));
    }
  }

  /** `_formatColumn(name, length, precision)`: the truthy size parts, in
      that order, joined with ',' in parentheses after the name. */
  function FormatColumn(name: string, length: Node, precision: Node): string
  {
    var size := (if Truthy(length) then [JsString(length)] else []) + (if Truthy(precision) then [JsString(precision)] else []);
    if size == [] then name else name + "(" + Join(size, ",") + ")"
  }

  lemma FormatColumnForms(name: string, length: Node, precision: Node)
    ensures Truthy(length) && Truthy(precision) ==>
              FormatColumn(name, length, precision) == name + "(" + JsString(length) + "," + JsString(precision) + ")"
    ensures Truthy(length) && !Truthy(precision) ==>
              FormatColumn(name, length, precision) == name + "(" + JsString(length) + ")"
    ensures !Truthy(length) && Truthy(precision) ==>
              FormatColumn(name, length, precision) == name + "(" + JsString(precision) + ")"
    ensures !Truthy(length) && !Truthy(precision) ==> FormatColumn(name, length, precision) == name
  {
    var l := JsString(length);
    var p := JsString(precision);
    if Truthy(length) && Truthy(precision) {
      assert [l] + [p] == [l, p];
      SizeText(name, l, p);
    } else if Truthy(length) {
      assert [l] + [] == [l];
      JoinSmall(l, "", "", ",");
    } else if Truthy(precision) {
      assert [] + [p] == [p];
      JoinSmall(p, "", "", ",");
    }
  }

  lemma SizeText(name: string, l: string, p: string)
    ensures name + "(" + Join([l, p], ",") + ")" == name + "(" + l + "," + p + ")"
  {
    JoinSmall(l, p, "", ",");
    assert name + "(" + (l + "," + p) + ")" == name + "(" + l + "," + p + ")";
  }

  // ---------------------------------------------------------------------
  // `meta(type, data, names)` and `_metadata(type, name, value)`.

  /** One meta attribute with the defaults of `_metadata` laid under it:
      keyword, whether the value is cast with `value()`, the join text,
      and the allowed values when there is a list of them. */
  datatype MetaDef = MetaDef(keyword: string, escape: bool, join: string, options: Option<seq<Node>>)

  /** The `_meta` table: `column` and `table` attributes by name. */
  type MetaTable = map<string, map<string, MetaDef>>

  /** `_metadata(kind, name, value)`: nothing without a definition or for a
      value outside the allowed ones (compared with `===`), otherwise the
      keyword, the join text and the (cast) value; a lone ' ' becomes ''. */
  function Metadata(env: Env, table: MetaTable, kind: string, name: string, value: Node): Option<string>
  {
    if kind !in table || name !in table[kind] then None
    else
      var m := table[kind][name];
      if m.options.Some? && !(Primitive(value) && value in m.options.value) then None
      else
        var text := if m.escape then Value(env.quoter, env.caster, value, NoStates) else JsString(value);
        var result := m.keyword + m.join + text;
        Some(if result != " " then result else "")
  }

  /** What one name adds to the result of `meta`: the metadata when the
      value is truthy and the metadata is a non-empty text. */
  function MetaPart(env: Env, table: MetaTable, kind: string, data: Record, name: string): seq<string>
  {
    var v := Get(data, name);
    if v.Some? && Truthy(v.value) then
      var m := Metadata(env, table, kind, name, v.value);
      if m.Some? && m.value != "" then [m.value] else []
    else []
  }

  /** The `result` list of `meta` after the names `items`. */
  function MetaParts(env: Env, table: MetaTable, kind: string, data: Record, items: seq<string>): seq<string>
    decreases |items|
  {
    if items == [] then []
    else MetaParts(env, table, kind, data, items[..|items| - 1]) + MetaPart(env, table, kind, data, items[|items| - 1])
  }

  /** The names `meta` visits: the given list, or the keys of `data`. */
  function MetaNames(data: Record, names: Option<seq<string>>): seq<string>
  {
    if names.Some? then names.value else Keys(data)
  }

  /** `meta(kind, data, names)`. */
  function Meta(env: Env, table: MetaTable, kind: string, data: Record, names: Option<seq<string>>): string
  {
    Join(MetaParts(env, table, kind, data, MetaNames(data, names)), " ")
  }

  /** The parts for a list of names are the parts for each name in turn. */
  lemma {:induction false} MetaPartsAppend(env: Env, table: MetaTable, kind: string, data: Record, a: seq<string>, b: seq<string>)
    ensures MetaParts(env, table, kind, data, a + b) == MetaParts(env, table, kind, data, a) + MetaParts(env, table, kind, data, b)
    decreases |b|
  {
    if b == [] {
      assert a + b == a;
    } else {
      var b' := b[..|b| - 1];
      assert (a + b)[..|a + b| - 1] == a + b';
      assert (a + b)[|a + b| - 1] == b[|b| - 1];
      MetaPartsAppend(env, table, kind, data, a, b');
    }
  }

  /** Every part names an attribute defined for the kind; so a kind without
      definitions, or names without definitions, give the empty text. */
  lemma {:induction false} MetaPartsDefined(env: Env, table: MetaTable, kind: string, data: Record, items: seq<string>)
    requires forall name :: name in items ==> kind !in table || name !in table[kind]
    ensures MetaParts(env, table, kind, data, items) == []
    decreases |items|
  {
    if items != [] {
      MetaPartsDefined(env, table, kind, data, items[..|items| - 1]);
    }
  }

  /** Asking for one name gives that attribute alone, or nothing. */
  lemma MetaOne(env: Env, table: MetaTable, kind: string, data: Record, name: string)
    ensures Meta(env, table, kind, data, Some([name])) ==
              (if MetaPart(env, table, kind, data, name) == [] then "" else MetaPart(env, table, kind, data, name)[0])
  {
    assert [name][..0] == [];
    var p := MetaPart(env, table, kind, data, name);
    assert MetaParts(env, table, kind, data, [name]) == p;
    if p != [] {
      assert p == [p[0]];
      JoinSmall(p[0], "", "", " ");
    }
  }

  // ---------------------------------------------------------------------
  // The `data` map of `constraint(name, constraint, options)`.

  /** A constraint template and the texts a `key` or `index` entry puts in
      the `index` slot. */
  datatype ConstraintDef = ConstraintDef(template: string, key: Option<string>, index: Option<string>)

  /** The placeholder fill of the template library: a template and the
      named texts to put in its `${...}` slots. */
  type Fill = (string, seq<(string, string)>) -> string

  /** `_val.map(this.name.bind(this))`: each element named on its own (the
      index passed as aliases selects no alias). */
  function ColumnNames(env: Env, vals: seq<Node>): Result<seq<string>>
  {
    if vals == [] then Ok([])
    else
      var n :- NameOf(env, vals[0], map[]);
      var rest :- ColumnNames(env, vals[1..]);
      Ok([n] + rest)
  }

  /** `_val.join('_')`. */
  function ElementStrings(vals: seq<Node>): (r: seq<string>)
    ensures |r| == |vals|
  {
    if vals == [] then [] else [ElementString(vals[0])] + ElementStrings(vals[1..])
  }

  /** One turn of the `for..of` loop over the descriptor's entries. */
  function ConstraintField(env: Env, def: ConstraintDef, opts: CondOptions, data: seq<(string, string)>,
                           name: string, value: Node): Result<seq<(string, string)>>
  {
    if name == "key" || name == "index" then
      var slot := if name == "key" then def.key else def.index;
      Ok(if slot.Some? then Put(data, "index", slot.value) else data)
    else if name == "to" then
      var n :- NameOf(env, value, map[]);
      Ok(Put(data, "to", n))
    else if name == "on" then Ok(Put(data, "on", "ON " + JsString(value)))
    else if name == "constraint" then
      var n :- NameOf(env, value, map[]);
      Ok(Put(data, "constraint", "CONSTRAINT " + n))
    else if name == "expr" then
      var e :- Conditions(env, List(Wrap(value)), opts);
      Ok(Put(data, "expr", e))
    else if name == "column" || name == "primaryKey" || name == "foreignKey" then
      var vals := Wrap(value);
      var ns :- ColumnNames(env, vals);
      Ok(Put(Put(data, name, Join(ns, ", ")), "name", NameStr(env.escape, Join(ElementStrings(vals), "_"), map[])))
    else Ok(data)
  }

  /** The loop over the descriptor's entries, from the `data` built so far. */
  function ConstraintData(env: Env, def: ConstraintDef, opts: CondOptions, data: seq<(string, string)>,
                          entries: Record): Result<seq<(string, string)>>
    decreases |entries|
  {
    if entries == [] then Ok(data)
    else
      var next :- ConstraintField(env, def, opts, data, entries[0].0, entries[0].1);
      ConstraintData(env, def, opts, next, entries[1..])
  }

  /** `Object.assign({}, {options: []}, constraint)`. */
  function ConstraintEntries(constraint: Record): Record
  {
    Assign([("options", List([]))], constraint)
  }

  /** `constraint(name, constraint, options)`; `defs` is `None` for a dialect
      without a constraint table. */
  function Constraint(env: Env, fill: Fill, defs: Option<map<string, ConstraintDef>>, name: string,
                      constraint: Record, opts: CondOptions): Result<string>
  {
    if defs.None? then Err(TypeError("this._constraints is undefined"))
    else if name !in defs.value || defs.value[name].template == "" then Err(InvalidConstraintTemplate(name))
    else
      var def := defs.value[name];
      var data :- ConstraintData(env, def, opts, [], ConstraintEntries(constraint));
      Ok(Trim(fill(def.template, data)))
  }

  /** Without a template the constraint is refused; otherwise it is the
      trimmed fill of the template with the data of the descriptor. */
  lemma ConstraintResult(env: Env, fill: Fill, defs: Option<map<string, ConstraintDef>>, name: string,
                         constraint: Record, opts: CondOptions)
    requires defs.Some?
    ensures name !in defs.value || defs.value[name].template == "" ==>
              Constraint(env, fill, defs, name, constraint, opts) == Err(InvalidConstraintTemplate(name))
    ensures Constraint(env, fill, defs, name, constraint, opts).Ok? ==>
              name in defs.value && defs.value[name].template != "" &&
              var data := ConstraintData(env, defs.value[name], opts, [], ConstraintEntries(constraint));
              data.Ok? && Constraint(env, fill, defs, name, constraint, opts).value == Trim(fill(defs.value[name].template, data.value))
  {
  }

  /** Entries other than `key` and `index` never touch the `index` slot. */
  lemma {:induction false} IndexSlotKept(env: Env, def: ConstraintDef, opts: CondOptions, data: seq<(string, string)>, entries: Record)
    requires "key" !in Keys(entries) && "index" !in Keys(entries)
    requires ConstraintData(env, def, opts, data, entries).Ok?
    ensures Get(ConstraintData(env, def, opts, data, entries).value, "index") == Get(data, "index")
    decreases |entries|
  {
    if entries != [] {
      assert Keys(entries) == [entries[0].0] + Keys(entries[1..]);
      var next := ConstraintField(env, def, opts, data, entries[0].0, entries[0].1).value;
      assert Get(next, "index") == Get(data, "index");
      IndexSlotKept(env, def, opts, next, entries[1..]);
    }
  }

  /** A `key` entry fills the `index` slot with the template's key text, an
      `index` entry with its index text, when no later entry overrides it. */
  lemma IndexSlot(env: Env, def: ConstraintDef, opts: CondOptions, data: seq<(string, string)>,
                  which: string, v: Node, rest: Record)
    requires which == "key" || which == "index"
    requires "key" !in Keys(rest) && "index" !in Keys(rest)
    requires ConstraintData(env, def, opts, data, [(which, v)] + rest).Ok?
    ensures Get(ConstraintData(env, def, opts, data, [(which, v)] + rest).value, "index") ==
              (var slot := if which == "key" then def.key else def.index;
               if slot.Some? then slot else Get(data, "index"))
  {
    var es := [(which, v)] + rest;
    assert es[0] == (which, v) && es[1..] == rest;
    var next := ConstraintField(env, def, opts, data, which, v).value;
    IndexSlotKept(env, def, opts, next, rest);
  }

  /** Strings as values. */
  function Strs(cols: seq<string>): (r: seq<Node>)
    ensures |r| == |cols|
  {
    if cols == [] then [] else [Str(cols[0])] + Strs(cols[1..])
  }

  /** Each column escaped on its own. */
  function EscapedNames(esc: string, cols: seq<string>): (r: seq<string>)
    ensures |r| == |cols|
  {
    if cols == [] then [] else [NameStr(esc, cols[0], map[])] + EscapedNames(esc, cols[1..])
  }

  /** Plain column names are each escaped; joined with '_' they give the
      name of the constraint. */
  lemma {:induction false} ColumnNamesOfStrings(env: Env, cols: seq<string>)
    ensures ColumnNames(env, Strs(cols)) == Ok(EscapedNames(env.escape, cols))
    decreases |cols|
  {
    if cols != [] {
      var vals := Strs(cols);
      ColumnNamesOfStrings(env, cols[1..]);
      assert vals[0] == Str(cols[0]) && vals[1..] == Strs(cols[1..]);
      assert NameOf(env, vals[0], map[]) == Ok(NameStr(env.escape, cols[0], map[]));
    }
  }

  lemma {:induction false} ElementStringsOfStrings(cols: seq<string>)
    ensures ElementStrings(Strs(cols)) == cols
    decreases |cols|
  {
    if cols != [] {
      var vals := Strs(cols);
      ElementStringsOfStrings(cols[1..]);
      assert vals[0] == Str(cols[0]) && vals[1..] == Strs(cols[1..]);
      assert ElementString(vals[0]) == cols[0];
      assert ElementStrings(vals) == [ElementString(vals[0])] + ElementStrings(vals[1..]);
      assert cols == [cols[0]] + cols[1..];
    }
  }

  /** A column list puts the escaped, comma-joined columns in its own slot
      and the escaped '_'-joined columns in the `name` slot. */
  lemma ColumnSlots(env: Env, def: ConstraintDef, opts: CondOptions, data: seq<(string, string)>,
                    which: string, cols: seq<string>)
    requires which == "column" || which == "primaryKey" || which == "foreignKey"
    ensures var r := ConstraintField(env, def, opts, data, which, List(Strs(cols)));
            r.Ok? &&
            Get(r.value, which) == Some(Join(EscapedNames(env.escape, cols), ", ")) &&
            Get(r.value, "name") == Some(NameStr(env.escape, Join(cols, "_"), map[]))
  {
    var vals := Strs(cols);
    assert Wrap(List(vals)) == vals;
    ColumnNamesOfStrings(env, cols);
    ElementStringsOfStrings(cols);
    ColumnCase(env, def, opts, data, which, List(vals), EscapedNames(env.escape, cols));
  }

  /** The column case once the escaped names are known. */
  lemma ColumnCase(env: Env, def: ConstraintDef, opts: CondOptions, data: seq<(string, string)>,
                   which: string, value: Node, ns: seq<string>)
    requires which == "column" || which == "primaryKey" || which == "foreignKey"
    requires ColumnNames(env, Wrap(value)) == Ok(ns)
    ensures ConstraintField(env, def, opts, data, which, value) ==
            Ok(Put(Put(data, which, Join(ns, ", ")), "name", NameStr(env.escape, Join(ElementStrings(Wrap(value)), "_"), map[])))
  {
    assert which[0] in "cpf";
    assert which != "key" && which != "index" && which != "to" && which != "on" && which != "constraint" && which != "expr" by {
      assert "key"[0] == 'k' && "index"[0] == 'i' && "to"[0] == 't' && "on"[0] == 'o' && "expr"[0] == 'e';
      assert which == "constraint" ==> |which| == 10;
    }
  }
}
