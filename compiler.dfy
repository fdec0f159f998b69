// The expression compiler of `Dialect`: `conditions`, `_operator`,
// `_conditions`, `_name`, `format`, `name`, `names`, `escapes` and
// `prefix`. The walk is one family of mutually recursive functions that
// thread the formatter states; the loops of the source are methods below
// proved equal to them.

module Compiler {

  import opened Wrappers
  import opened Text
  import opened Ordered
  import opened Nodes
  import opened Identifiers
  import opened Casting
  import opened Operators

  /** What the compiler reads from a dialect. */
  datatype Env = Env(
    escape: string,
    operators: map<string, OpConfig>,
    quoter: Option<Quoter>,
    caster: Option<Caster>)

  /** The options of `conditions()`: `prepend` (false is the empty text),
      the join operator, and the schema and alias maps. */
  datatype CondOptions = CondOptions(
    prepend: string,
    joinOp: string,
    schemas: map<string, SchemaRef>,
    aliases: map<string, string>)

  const DefaultOptions := CondOptions("", ":and", map[], map[])

  /** A result together with the states after it was computed. */
  datatype Out<T> = Out(val: T, st: States)

  const Formatters: set<string> := {":name", ":value", ":plain"}

  /** `isOperator(op)`. */
  predicate IsOperator(env: Env, op: string)
  {
    (|op| > 0 && op[0] == ':') || op in env.operators
  }

  /** What `conditions()` treats as no condition at all. */
  predicate IsEmptyTree(tree: Node)
  {
    !Truthy(tree) || (tree.List? && tree.items == []) || (tree.Obj? && tree.entries == [])
  }

  /** The `:name` formatter applied to a string. */
  function FormatNameStr(env: Env, s: string, st: States): Out<string>
  {
    var (p, f) := Undot(s);
    var alias := Aliased(st.aliases, p);
    var schema := if alias in st.schemas && !st.schemas[alias].NullSchema? then Some(st.schemas[alias]) else None;
    Out(NameStr(env.escape, s, st.aliases), st.(name := Some(Str(f)), schema := schema))
  }

  /** The parts an operator gets from the field name `_name` puts first. */
  function HeadParts(env: Env, head: Option<string>, st: States): Out<seq<string>>
  {
    if head.None? then Out([], st)
    else
      var o := FormatNameStr(env, head.value, st);
      Out([o.val], o.st)
  }

  // ---------------------------------------------------------------------
  // The walk.

  /** One element of `_conditions`. */
  function Item(env: Env, v: Node, st: States): Result<Out<seq<string>>>
    decreases Size(v), 0, 0
  {
    match v
    case List(xs) => Parts(env, xs, st)
    case Obj(es) =>
      if es == [] then Err(TypeError("an empty object has no first key"))
      else
        FirstEntrySize(v);
        WrapSize(es[0].1);
        var name := es[0].0;
        var key := Lower(name);
        if key in Formatters then
          var r :- Format(env, key, es[0].1, st);
          Ok(Out([r.val], r.st))
        else if IsOperator(env, key) then
          var r :- Operator(env, key, None, Wrap(es[0].1), st);
          Ok(Out([r.val], r.st))
        else
          var r :- NameField(env, name, es[0].1, st);
          Ok(Out([r.val], r.st))
    case _ => Ok(Out([Value(env.quoter, env.caster, v, st)], st))
  }

  /** `_conditions(items, states)`: the SQL parts of the items, nested
      arrays spliced in place. */
  function Parts(env: Env, items: seq<Node>, st: States): Result<Out<seq<string>>>
    decreases SizeSeq(items), 1, 0
  {
    if items == [] then Ok(Out([], st))
    else
      var a :- Item(env, items[0], st);
      var b :- Parts(env, items[1..], a.st);
      Ok(Out(a.val + b.val, b.st))
  }

  /** `_operator(op, items, states)`; `head` is the field name `_name`
      puts in front of the operands as `{':name': name}`. */
  function Operator(env: Env, op: string, head: Option<string>, items: seq<Node>, st: States): Result<Out<string>>
    decreases SizeSeq(items), 2, |op|
  {
    if op !in env.operators && EndsWith(op, "()") && op[..|op| - 2] in env.operators then
      var r :- Operator(env, op[..|op| - 2], head, items, st);
      Ok(Out("(" + r.val + ")", r.st))
    else if op !in env.operators && !EndsWith(op, "()") then
      Err(UnknownOperator(op))
    else
      var cfg := if op in env.operators then env.operators[op] else WithBuilder(FunctionCall);
      var h := HeadParts(env, head, st);
      var ps :- Parts(env, items, h.st);
      Ok(Out(Build(cfg, op, h.val + ps.val), ps.st))
  }

  /** The states `_name` sets before it renders the condition: the field
      without its prefix, and the schema registered for the prefix. */
  function FieldStates(name: string, st: States): States
  {
    var (p, f) := Undot(name);
    st.(name := Some(Str(f)), schema := if p in st.schemas then Some(st.schemas[p]) else None)
  }

  /** `_name(name, payload, states)`: a condition on a field. */
  function NameField(env: Env, name: string, payload: Node, st: States): Result<Out<string>>
    decreases Size(payload), 3, 0
  {
    var escaped := NameStr(env.escape, name, st.aliases);
    var st1 := FieldStates(name, st);
    SingletonSize(payload);
    if !(payload.List? || payload.Obj?) then
      Operator(env, "=", Some(name), [payload], st1)
    else if FirstEntry(payload).None? then
      Err(TypeError("an empty payload has no first key"))
    else
      FirstEntrySize(payload);
      var (key, inner) := FirstEntry(payload).value;
      WrapSize(inner);
      var op := Lower(key);
      if op in Formatters then
        var r :- Format(env, op, inner, st1);
        Ok(Out(escaped + " = " + r.val, r.st))
      else if op !in env.operators then
        Operator(env, ":in", Some(name), [payload], st1)
      else
        Operator(env, op, Some(name), Wrap(inner), st1)
  }

  /** `conditions(tree, options)`. */
  function Conditions(env: Env, tree: Node, opts: CondOptions): Result<string>
    decreases Size(tree), 4, 0
  {
    if IsEmptyTree(tree) then Ok("")
    else
      WrapSize(tree);
      var r :- Operator(env, Lower(opts.joinOp), None, Wrap(tree), States(opts.aliases, opts.schemas, None, None, None));
      Ok(if opts.prepend != "" && r.val != "" then opts.prepend + " " + r.val else r.val)
  }

  /** An `escapes()` element that gives one name. */
  function EscapeLeaf(env: Env, v: Node, prefix: string, aliases: map<string, string>): Result<string>
    decreases Size(v), 5, 0
  {
    match v
    case Str(s) =>
      var n := NameStr(env.escape, s, aliases);
      Ok(if prefix != "" then prefix + "." + n else n)
    case Obj(es) =>
      if es == [] then Err(TypeError("an empty object has no first key"))
      else if IsOperator(env, es[0].0) then Conditions(env, v, DefaultOptions)
      else
        FirstEntrySize(v);
        var alias :- NameOf(env, es[0].1, map[]);
        var n := NameStr(env.escape, es[0].0, aliases) + " AS " + alias;
        Ok(if prefix != "" then prefix + "." + n else n)
    case Null => Err(TypeError("null has no toString"))
    case _ => Ok(JsString(v))
  }

  /** One `{name: alias}` entry, outside any group. */
  lemma AliasLeaf(env: Env, v: Node, nk: string, na: string)
    requires v.Obj? && v.entries != [] && !IsOperator(env, v.entries[0].0)
    requires NameStr(env.escape, v.entries[0].0, map[]) == nk && NameOf(env, v.entries[0].1, map[]) == Ok(na)
    ensures EscapeLeaf(env, v, "", map[]) == Ok(nk + " AS " + na)
  {
    assert v == Obj(v.entries);
  }

  /** An object `{table: [fields]}` in a name list: the fields are named
      under the (aliased) table. */
  predicate IsGroup(env: Env, v: Node)
  {
    v.Obj? && v.entries != [] && !IsOperator(env, v.entries[0].0) && v.entries[0].1.List?
  }

  /** One `escapes()` element: an array and a table group give all their
      names, anything else one name. */
  function EscapeItem(env: Env, v: Node, prefix: string, aliases: map<string, string>): Result<seq<string>>
    decreases Size(v), 6, 0
  {
    if v.List? then EscapesFrom(env, [], v.items, prefix, aliases)
    else if IsGroup(env, v) then
      FirstEntrySize(v);
      var key := v.entries[0].0;
      EscapesFrom(env, [], v.entries[0].1.items, Escape(env.escape, Aliased(aliases, key)), aliases)
    else
      var n :- EscapeLeaf(env, v, prefix, aliases);
      Ok([n])
  }

  /** `escapes(items, prefix, aliases)` added to the ordered set `acc`. */
  function EscapesFrom(env: Env, acc: seq<string>, items: seq<Node>, prefix: string, aliases: map<string, string>): Result<seq<string>>
    decreases SizeSeq(items), 7, 0
  {
    if items == [] then Ok(acc)
    else
      var r :- EscapeItem(env, items[0], prefix, aliases);
      EscapesFrom(env, AddAll(acc, r), items[1..], prefix, aliases)
  }

  /** `names(fields, aliases)`. */
  function Names(env: Env, v: Node, aliases: map<string, string>): Result<string>
    decreases Size(v), 8, 0
  {
    WrapSize(v);
    var xs :- EscapesFrom(env, [], Wrap(v), "", aliases);
    Ok(Join(xs, ", "))
  }

  /** `name(v, aliases)`: a string is one identifier, anything else a list. */
  function NameOf(env: Env, v: Node, aliases: map<string, string>): Result<string>
    decreases Size(v), 9, 0
  {
    if v.Str? then Ok(NameStr(env.escape, v.s, aliases)) else Names(env, v, aliases)
  }

  /** A plain string name is escaped whole. */
  lemma NameOfPlain(env: Env, s: string)
    requires '.' !in s
    ensures NameOf(env, Str(s), map[]) == Ok(Escape(env.escape, s))
  {
    NameStrPlain(env.escape, s, map[]);
  }

  /** The `:name` formatter. */
  function FormatName(env: Env, v: Node, st: States): Result<Out<string>>
    decreases Size(v), 10, 0
  {
    if v.Str? then Ok(FormatNameStr(env, v.s, st))
    else
      var escaped :- NameOf(env, v, st.aliases);
      var alias := Aliased(st.aliases, "");
      var schema := if alias in st.schemas && !st.schemas[alias].NullSchema? then Some(st.schemas[alias]) else None;
      Ok(Out(escaped, st.(name := Some(v), schema := schema)))
  }

  /** `format(key, v, states)`. */
  function Format(env: Env, key: string, v: Node, st: States): Result<Out<string>>
    decreases Size(v), 11, 0
  {
    if key == ":name" then FormatName(env, v, st)
    else if key == ":value" then Ok(Out(Value(env.quoter, env.caster, v, st), st))
    else if key == ":plain" then Ok(Out(JsString(v), st))
    else Err(UnknownFormatter(key))
  }

  // ---------------------------------------------------------------------
  // `prefix(names, prefix, prefixValue)`.

  /** The inputs `prefix()` accepts: no null element and no empty object,
      also inside the operand arrays it descends into. */
  predicate PrefixSafe(env: Env, items: seq<Node>)
    decreases items, 1
  {
    forall k :: 0 <= k < |items| ==> PrefixSafeOne(env, items[k])
  }

  predicate PrefixSafeOne(env: Env, v: Node)
    decreases v, 0
  {
    !v.Null? &&
    (v.Obj? ==>
       v.entries != [] &&
       (IsOperator(env, v.entries[0].0) && v.entries[0].0 != ":name" && v.entries[0].1.List? ==>
          PrefixSafe(env, v.entries[0].1.items)))
  }

  function PrefixList(env: Env, items: seq<Node>, prefix: string, prefixValue: bool): (r: seq<Node>)
    requires PrefixSafe(env, items)
    ensures |r| == |items|
    decreases items, 1
  {
    seq(|items|, k requires 0 <= k < |items| => PrefixOne(env, items[k], prefix, prefixValue))
  }

  /** One element of `prefix()`: an object keeps only its first entry, a
      field key is prefixed, a `:name` operand is prefixed, the operand
      array of another operator is walked without prefixing its plain
      values, and any other element is prefixed when `prefixValue` holds. */
  function PrefixOne(env: Env, v: Node, prefix: string, prefixValue: bool): Node
    requires PrefixSafeOne(env, v)
    decreases v, 0
  {
    if v.Obj? then
      var (key, val) := v.entries[0];
      if IsOperator(env, key) then
        if key == ":name" then Obj([(key, PrefixName(val, prefix))])
        else if val.List? then Obj([(key, List(PrefixList(env, val.items, prefix, false)))])
        else Obj([(key, val)])
      else Obj([(PrefixName(Str(key), prefix).s, val)])
    else if prefixValue then PrefixName(v, prefix)
    else v
  }

  /** `prefix(names, prefix, prefixValue)`. */
  method Prefix(env: Env, names: Node, prefix: string, prefixValue: bool) returns (r: seq<Node>)
    requires PrefixSafe(env, Wrap(names))
    ensures r == PrefixList(env, Wrap(names), prefix, prefixValue)
    decreases names
  {
    var items := Wrap(names);
    r := [];
    var i := 0;
    while i < |items|
      invariant 0 <= i <= |items|
      invariant r == PrefixList(env, items[..i], prefix, prefixValue)
    {
      var value := items[i];
      var o: Node;
      if value.Obj? {
        var (key, val) := value.entries[0];
        if IsOperator(env, key) {
          if key == ":name" {
            o := Obj([(key, PrefixName(val, prefix))]);
          } else if val.List? {
            var sub := Prefix(env, val, prefix, false);
            o := Obj([(key, List(sub))]);
          } else {
            o := Obj([(key, val)]);
          }
        } else {
          o := Obj([(PrefixName(Str(key), prefix).s, val)]);
        }
      } else {
        o := if prefixValue then PrefixName(value, prefix) else value;
      }
      r := r + [o];
      i := i + 1;
    }
    assert items[..i] == items;
  }

  // ---------------------------------------------------------------------
  // The loops of `_conditions` and `escapes`.

  /** `parts` put in front of the parts of a successful result. */
  function Prepended(parts: seq<string>, r: Result<Out<seq<string>>>): Result<Out<seq<string>>>
  {
    if r.Err? then r else Ok(Out(parts + r.value.val, r.value.st))
  }

  lemma PrependedNothing(r: Result<Out<seq<string>>>)
    ensures Prepended([], r) == r
  {
    if r.Ok? {
      assert [] + r.value.val == r.value.val;
    }
  }

  /** The loop of `_conditions`: each item's parts are appended in order,
      with the states passed from one item to the next. */
  method ConditionParts(env: Env, items: seq<Node>, st: States) returns (r: Result<Out<seq<string>>>)
    ensures r == Parts(env, items, st)
  {
    var parts: seq<string> := [];
    var cur := st;
    var i := 0;
    assert items[0..] == items;
    PrependedNothing(Parts(env, items, st));
    while i < |items|
      invariant 0 <= i <= |items|
      invariant Parts(env, items, st) == Prepended(parts, Parts(env, items[i..], cur))
    {
      var a := Item(env, items[i], cur);
      assert items[i..][0] == items[i] && items[i..][1..] == items[i + 1..];
      if a.Err? {
        return Err(a.error);
      }
      var b := Parts(env, items[i + 1..], a.value.st);
      if b.Ok? {
        assert parts + (a.value.val + b.value.val) == (parts + a.value.val) + b.value.val;
      }
      parts := parts + a.value.val;
      cur := a.value.st;
      i := i + 1;
    }
    assert items[i..] == [] && parts + [] == parts;
    r := Ok(Out(parts, cur));
  }

  /** The loop of `escapes`: each element's names are added to the ordered
      set in turn. */
  method Escapes(env: Env, names: Node, prefix: string, aliases: map<string, string>) returns (r: Result<seq<string>>)
    ensures r == EscapesFrom(env, [], Wrap(names), prefix, aliases)
  {
    var items := Wrap(names);
    var sql: seq<string> := [];
    var i := 0;
    while i < |items|
      invariant 0 <= i <= |items|
      invariant EscapesFrom(env, [], items, prefix, aliases) == EscapesFrom(env, sql, items[i..], prefix, aliases)
    {
      var one := EscapeItem(env, items[i], prefix, aliases);
      if one.Err? {
        return Err(one.error);
      }
      assert items[i..][1..] == items[i + 1..];
      sql := AddAll(sql, one.value);
      i := i + 1;
    }
    r := Ok(sql);
  }
}
