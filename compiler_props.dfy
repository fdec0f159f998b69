// Properties of the expression compiler: the de-duplicated name lists,
// the idempotence of `prefix()`, the error cases, the `op()` forms, and
// the field shorthands of `_name`.

module CompilerProps {

  import opened Wrappers
  import opened Text
  import opened Ordered
  import opened Nodes
  import opened Identifiers
  import opened Casting
  import opened Operators
  import opened Compiler

  // ---------------------------------------------------------------------
  // `names` / `escapes`.

  /** Every name the elements render, in order, repetitions included. */
  function Rendered(env: Env, items: seq<Node>, prefix: string, aliases: map<string, string>): Result<seq<string>>
  {
    if items == [] then Ok([])
    else
      var r :- EscapeItem(env, items[0], prefix, aliases);
      var rest :- Rendered(env, items[1..], prefix, aliases);
      Ok(r + rest)
  }

  /** `escapes` adds the rendered names to its Map in order: the result is
      the ordered set of first occurrences. */
  lemma {:induction false} EscapesFromAddsRendered(env: Env, acc: seq<string>, items: seq<Node>, prefix: string, aliases: map<string, string>)
    ensures EscapesFrom(env, acc, items, prefix, aliases)
         == (var r := Rendered(env, items, prefix, aliases); if r.Err? then Err(r.error) else Ok(AddAll(acc, r.value)))
    decreases items
  {
    if items != [] {
      var a := EscapeItem(env, items[0], prefix, aliases);
      if a.Ok? {
        EscapesFromAddsRendered(env, AddAll(acc, a.value), items[1..], prefix, aliases);
        var rest := Rendered(env, items[1..], prefix, aliases);
        if rest.Ok? {
          AddAllAppend(acc, a.value, rest.value);
        }
      }
    }
  }

  /** `names` lists every rendered name exactly once, in the order of first
      occurrence, joined with ", ". */
  lemma NamesAreDistinct(env: Env, v: Node, aliases: map<string, string>)
    ensures var r := Rendered(env, Wrap(v), "", aliases);
      && (r.Err? ==> Names(env, v, aliases) == Err(r.error))
      && (r.Ok? ==> Names(env, v, aliases) == Ok(Join(Dedup(r.value), ", ")) && NoDup(Dedup(r.value))
                    && forall x :: x in Dedup(r.value) <==> x in r.value)
  {
    EscapesFromAddsRendered(env, [], Wrap(v), "", aliases);
    var r := Rendered(env, Wrap(v), "", aliases);
    if r.Ok? {
      DedupFacts(r.value);
    }
  }

  lemma RenderedOne(env: Env, v: Node, prefix: string, aliases: map<string, string>)
    ensures Rendered(env, [v], prefix, aliases) == EscapeItem(env, v, prefix, aliases)
  {
    assert [v][1..] == [];
    var a := EscapeItem(env, v, prefix, aliases);
    if a.Ok? {
      assert a.value + [] == a.value;
    }
  }

  /** Listing a field (or a list of fields) twice names it once. */
  lemma NamesRepeat(env: Env, v: Node, aliases: map<string, string>)
    ensures Names(env, List([v, v]), aliases) == Names(env, List([v]), aliases)
  {
    EscapesFromAddsRendered(env, [], [v, v], "", aliases);
    EscapesFromAddsRendered(env, [], [v], "", aliases);
    RenderedOne(env, v, "", aliases);
    assert [v, v][1..] == [v];
    var a := EscapeItem(env, v, "", aliases);
    if a.Ok? {
      assert Rendered(env, [v, v], "", aliases) == Ok(a.value + a.value);
      AddAllAppend([], a.value, a.value);
      AddAllElements([], a.value);
      AddAllPresent(AddAll([], a.value), a.value);
    }
  }

  /** `{'t.f': 'A'}` and `{t: [{f: 'A'}]}` name the same aliased column. */
  lemma AliasForms(env: Env, t: string, f: string, a: string)
    requires t != "" && t[0] != ':' && '.' !in f && '.' !in a && (f == "" || f[0] != ':')
    requires t !in env.operators && f !in env.operators && t + "." + f !in env.operators
    ensures var expected := Escape(env.escape, t) + "." + Escape(env.escape, f) + " AS " + Escape(env.escape, a);
      && Names(env, Obj([(t + "." + f, Str(a))]), map[]) == Ok(expected)
      && Names(env, Obj([(t, List([Obj([(f, Str(a))])]))]), map[]) == Ok(expected)
  {
    AliasDotted(env, t, f, a);
    AliasGroup(env, t, f, a);
  }

  lemma AliasDotted(env: Env, t: string, f: string, a: string)
    requires t != "" && t[0] != ':' && '.' !in f && '.' !in a
    requires t + "." + f !in env.operators
    ensures Names(env, Obj([(t + "." + f, Str(a))]), map[])
         == Ok(Escape(env.escape, t) + "." + Escape(env.escape, f) + " AS " + Escape(env.escape, a))
  {
    var esc := env.escape;
    NameStrPlain(esc, a, map[]);
    NameStrQualified(esc, t, f, map[]);
    var n := Escape(esc, t) + "." + Escape(esc, f) + " AS " + Escape(esc, a);
    var dotted := Obj([(t + "." + f, Str(a))]);
    assert (t + "." + f)[0] == t[0];
    assert !IsGroup(env, dotted);
    assert EscapeLeaf(env, dotted, "", map[]) == Ok(n) by {
      DottedLeaf(env, t, f, a);
    }
    assert EscapeItem(env, dotted, "", map[]) == Ok([n]);
    RenderedOne(env, dotted, "", map[]);
    EscapesFromAddsRendered(env, [], [dotted], "", map[]);
    assert AddAll([], [n]) == [n];
  }

  lemma DottedLeaf(env: Env, t: string, f: string, a: string)
    requires t != "" && t[0] != ':' && '.' !in f && '.' !in a
    requires t + "." + f !in env.operators
    ensures EscapeLeaf(env, Obj([(t + "." + f, Str(a))]), "", map[])
         == Ok(Escape(env.escape, t) + "." + Escape(env.escape, f) + " AS " + Escape(env.escape, a))
  {
    var esc := env.escape;
    var key := t + "." + f;
    assert key[0] == t[0];
    NameStrPlain(esc, a, map[]);
    NameStrQualified(esc, t, f, map[]);
    var v := Obj([(key, Str(a))]);
    assert v.entries[0] == (key, Str(a));
    assert NameOf(env, Str(a), map[]) == Ok(Escape(esc, a));
    AliasLeaf(env, v, Escape(esc, t) + "." + Escape(esc, f), Escape(esc, a));
  }

  lemma AliasGroup(env: Env, t: string, f: string, a: string)
    requires t != "" && t[0] != ':' && '.' !in f && '.' !in a && (f == "" || f[0] != ':')
    requires t !in env.operators && f !in env.operators
    ensures Names(env, Obj([(t, List([Obj([(f, Str(a))])]))]), map[])
         == Ok(Escape(env.escape, t) + "." + Escape(env.escape, f) + " AS " + Escape(env.escape, a))
  {
    var esc := env.escape;
    var n := Escape(esc, t) + "." + Escape(esc, f) + " AS " + Escape(esc, a);
    var inner := Obj([(f, Str(a))]);
    var group := Obj([(t, List([inner]))]);
    var p := Escape(esc, t);
    assert p != "" by { if t != "*" { assert |p| >= |t|; } }
    GroupMember(env, f, a, p);
    RenderedOne(env, inner, p, map[]);
    EscapesFromAddsRendered(env, [], [inner], p, map[]);
    assert AddAll([], [n]) == [n];
    assert Aliased(map[], t) == t;
    assert IsGroup(env, group);
    assert EscapeItem(env, group, "", map[]) == EscapesFrom(env, [], [inner], p, map[]);
    RenderedOne(env, group, "", map[]);
    EscapesFromAddsRendered(env, [], [group], "", map[]);
  }

  lemma GroupMember(env: Env, f: string, a: string, p: string)
    requires '.' !in f && '.' !in a && p != ""
    ensures !IsOperator(env, f) ==>
      EscapeItem(env, Obj([(f, Str(a))]), p, map[]) == Ok([p + "." + Escape(env.escape, f) + " AS " + Escape(env.escape, a)])
  {
    NameStrPlain(env.escape, a, map[]);
    NameStrPlain(env.escape, f, map[]);
    var v := Obj([(f, Str(a))]);
    if !IsOperator(env, f) {
      assert !IsGroup(env, v);
      assert NameOf(env, Str(a), map[]) == Ok(Escape(env.escape, a));
      assert EscapeLeaf(env, v, p, map[]) == Ok(p + "." + (Escape(env.escape, f) + " AS " + Escape(env.escape, a)));
      assert EscapeItem(env, v, p, map[]) == Ok([p + "." + (Escape(env.escape, f) + " AS " + Escape(env.escape, a))]);
      assert p + "." + (Escape(env.escape, f) + " AS " + Escape(env.escape, a))
          == p + "." + Escape(env.escape, f) + " AS " + Escape(env.escape, a);
    }
  }

  // ---------------------------------------------------------------------
  // `prefix()`.

  /** The registries never name an operator with a dot in it. */
  predicate DotFreeOperators(env: Env)
  {
    forall op :: op in env.operators ==> '.' !in op
  }

  /** `prefix()` is idempotent: prefixing its result again changes nothing. */
  lemma PrefixIdempotent(env: Env, items: seq<Node>, prefix: string, prefixValue: bool)
    requires PrefixSafe(env, items) && DotFreeOperators(env) && (prefix == [] || prefix[0] != ':')
    ensures PrefixSafe(env, PrefixList(env, items, prefix, prefixValue))
    ensures PrefixList(env, PrefixList(env, items, prefix, prefixValue), prefix, prefixValue)
         == PrefixList(env, items, prefix, prefixValue)
    decreases items, 1
  {
    var once := PrefixList(env, items, prefix, prefixValue);
    forall k | 0 <= k < |items|
      ensures PrefixSafeOne(env, once[k]) && PrefixOne(env, once[k], prefix, prefixValue) == once[k]
    {
      PrefixOneIdempotent(env, items[k], prefix, prefixValue);
    }
  }

  lemma PrefixOneIdempotent(env: Env, v: Node, prefix: string, prefixValue: bool)
    requires PrefixSafeOne(env, v) && DotFreeOperators(env) && (prefix == [] || prefix[0] != ':')
    ensures PrefixSafeOne(env, PrefixOne(env, v, prefix, prefixValue))
    ensures PrefixOne(env, PrefixOne(env, v, prefix, prefixValue), prefix, prefixValue) == PrefixOne(env, v, prefix, prefixValue)
    decreases v, 0
  {
    if v.Obj? {
      var (key, val) := v.entries[0];
      if IsOperator(env, key) {
        if key == ":name" {
          PrefixNameIdempotent(val, prefix);
        } else if val.List? {
          PrefixIdempotent(env, val.items, prefix, false);
        }
      } else {
        var k2 := PrefixName(Str(key), prefix).s;
        PrefixNameIdempotent(Str(key), prefix);
        PrefixedKeyIsField(env, key, prefix);
      }
    } else if prefixValue {
      PrefixNameIdempotent(v, prefix);
    }
  }

  /** A field key stays a field key once prefixed. */
  lemma PrefixedKeyIsField(env: Env, key: string, prefix: string)
    requires !IsOperator(env, key) && DotFreeOperators(env) && (prefix == [] || prefix[0] != ':')
    ensures !IsOperator(env, PrefixName(Str(key), prefix).s)
  {
    var k2 := PrefixName(Str(key), prefix).s;
    if Undot(key).0 == "" {
      assert k2 == prefix + "." + Undot(key).1;
      assert k2[|prefix|] == '.';
      assert k2[0] != ':' by {
        if prefix != [] { assert k2[0] == prefix[0]; }
      }
    }
  }

  /** Unqualified names get the prefix; qualified names and, without
      `prefixValue`, plain values are kept. */
  lemma PrefixNames(env: Env, s: string, prefix: string)
    requires s != [] && s[0] != ':' && s !in env.operators
    ensures '.' !in s ==> PrefixOne(env, Str(s), prefix, true) == Str(prefix + "." + s)
    ensures '.' !in s ==> PrefixOne(env, Obj([(s, Int(1))]), prefix, true) == Obj([(prefix + "." + s, Int(1))])
    ensures '.' in s && s[0] != '.' ==> PrefixOne(env, Str(s), prefix, true) == Str(s)
    ensures PrefixOne(env, Str(s), prefix, false) == Str(s)
    ensures PrefixOne(env, Obj([(":name", Str(s))]), prefix, false) == Obj([(":name", PrefixName(Str(s), prefix))])
  {
  }

  // ---------------------------------------------------------------------
  // `conditions()` and `_operator`.

  /** Empty input renders nothing; `prepend` is put in front of a
      non-empty rendering only. */
  lemma ConditionsPrepend(env: Env, tree: Node, opts: CondOptions)
    ensures IsEmptyTree(tree) ==> Conditions(env, tree, opts) == Ok("")
    ensures Conditions(env, tree, opts)
         == (var r := Conditions(env, tree, opts.(prepend := ""));
             if r.Ok? && opts.prepend != "" && r.value != "" then Ok(opts.prepend + " " + r.value) else r)
  {
  }

  /** With the default `:and`, the rendered items are joined with AND. */
  lemma ConditionsAnd(env: Env, tree: Node, opts: CondOptions)
    requires ":and" in env.operators && env.operators[":and"] == Plain && Lower(opts.joinOp) == ":and"
    requires !IsEmptyTree(tree) && opts.prepend == ""
    ensures Conditions(env, tree, opts)
         == (var ps := Parts(env, Wrap(tree), States(opts.aliases, opts.schemas, None, None, None));
             if ps.Err? then Err(ps.error) else Ok(Join(ps.value.val, " AND ")))
  {
    KeywordFacts();
    var st0 := States(opts.aliases, opts.schemas, None, None, None);
    var ps := Parts(env, Wrap(tree), st0);
    if ps.Ok? {
      assert [] + ps.value.val == ps.value.val;
      assert " " + "AND" + " " == " AND ";
    }
  }

  /** An operator that is neither registered nor written `op()` is an
      error, and so is a formatter that does not exist. */
  lemma UnknownNames(env: Env, k: string, x: Node, rest: Record, st: States, key: string, v: Node)
    requires var op := Lower(k); |op| > 0 && op[0] == ':' && op !in env.operators && !EndsWith(op, "()") && op !in Formatters
    ensures Item(env, Obj([(k, x)] + rest), st) == Err(UnknownOperator(Lower(k)))
    ensures key !in Formatters ==> Format(env, key, v, st) == Err(UnknownFormatter(key))
  {
    assert (Obj([(k, x)] + rest)).entries[0] == (k, x);
  }

  /** A join operator that does not exist is reported the same way. */
  lemma UnknownJoinOperator(env: Env, tree: Node, opts: CondOptions)
    requires !IsEmptyTree(tree) && Lower(opts.joinOp) !in env.operators && !EndsWith(Lower(opts.joinOp), "()")
    ensures Conditions(env, tree, opts) == Err(UnknownOperator(Lower(opts.joinOp)))
  {
  }

  /** `op()` with `op` registered wraps `op`'s rendering in parentheses. */
  lemma GroupedOperator(env: Env, op: string, head: Option<string>, items: seq<Node>, st: States)
    requires op in env.operators && op + "()" !in env.operators
    ensures Operator(env, op + "()", head, items, st)
         == (var r := Operator(env, op, head, items, st); if r.Err? then r else Ok(Out("(" + r.value.val + ")", r.value.st)))
  {
    var g := op + "()";
    assert EndsWith(g, "()") && g[..|g| - 2] == op;
  }

  /** `f()` with neither `f` nor `f()` registered is a function call: the
      name upper-cased (without its colon) and the parts in parentheses. */
  lemma FunctionCallOperator(env: Env, f: string, items: seq<Node>, st: States)
    requires f !in env.operators && f + "()" !in env.operators
    ensures Operator(env, f + "()", None, items, st)
         == (var ps := Parts(env, items, st);
             if ps.Err? then Err(ps.error)
             else Ok(Out(Upper(if f != [] && f[0] == ':' then f[1..] else f) + "(" + Join(ps.value.val, ", ") + ")", ps.value.st)))
  {
    var g := f + "()";
    assert EndsWith(g, "()") && g[..|g| - 2] == f;
    var ps := Parts(env, items, st);
    if ps.Ok? {
      assert [] + ps.value.val == ps.value.val;
      FunctionCallBuild(f, ps.value.val);
    }
  }

  /** Only the first key of an object is read. */
  lemma FirstKeyOnly(env: Env, es: Record, name: string, st: States)
    requires es != []
    ensures Item(env, Obj(es), st) == Item(env, Obj([es[0]]), st)
    ensures NameField(env, name, Obj(es), st) == NameField(env, name, Obj([es[0]]), st)
  {
    var (p, f) := Undot(name);
    var st1 := st.(name := Some(Str(f)), schema := if p in st.schemas then Some(st.schemas[p]) else None);
    var h := HeadParts(env, Some(name), st1);
    FirstKeyItem(env, es, h.st);
    assert [Obj(es)][1..] == [] && [Obj([es[0]])][1..] == [];
    assert Parts(env, [Obj(es)], h.st) == Parts(env, [Obj([es[0]])], h.st);
  }

  lemma FirstKeyItem(env: Env, es: Record, st: States)
    requires es != []
    ensures Item(env, Obj(es), st) == Item(env, Obj([es[0]]), st)
  {
  }

  // ---------------------------------------------------------------------
  // The field shorthands of `_name`.

  /** The default entries the shorthands use, no caster, and no operator
      named "0" (the key an array payload is read with). */
  predicate StandardOperators(env: Env)
  {
    && "=" in env.operators && env.operators["="] == OpConfig(Some(":is"), None, None)
    && ":in" in env.operators && env.operators[":in"] == WithBuilder(ListOf)
    && ":between" in env.operators && env.operators[":between"] == WithBuilder(Between)
    && "0" !in env.operators
    && env.caster.None?
  }

  function Ints(xs: seq<int>): seq<Node>
  {
    seq(|xs|, k requires 0 <= k < |xs| => Int(xs[k]))
  }

  function IntTexts(xs: seq<int>): seq<string>
  {
    seq(|xs|, k requires 0 <= k < |xs| => IntToString(xs[k]))
  }

  /** Integers render as their decimal text and leave the states alone. */
  lemma {:induction false} PartsOfInts(env: Env, xs: seq<int>, st: States)
    requires env.caster.None?
    ensures Parts(env, Ints(xs), st) == Ok(Out(IntTexts(xs), st))
  {
    if xs != [] {
      PartsOfInts(env, xs[1..], st);
      assert Ints(xs)[0] == Int(xs[0]) && Ints(xs)[1..] == Ints(xs[1..]);
      assert Item(env, Int(xs[0]), st) == Ok(Out([IntToString(xs[0])], st));
      assert IntTexts(xs) == [IntToString(xs[0])] + IntTexts(xs[1..]);
    } else {
      assert Ints(xs) == [] && IntTexts(xs) == [];
    }
  }

  /** The escaped field name `_name` puts first. */
  function FieldName(env: Env, name: string, st: States): string
  {
    NameStr(env.escape, name, st.aliases)
  }

  /** A registered operator given the field first: the escaped field name
      is its first part, before the parts of the operands. */
  lemma OperatorOnField(env: Env, op: string, name: string, items: seq<Node>, st: States)
    requires op in env.operators
    ensures var h := FormatNameStr(env, name, st);
      Operator(env, op, Some(name), items, st)
      == (var ps := Parts(env, items, h.st);
          if ps.Err? then Err(ps.error) else Ok(Out(Build(env.operators[op], op, [FieldName(env, name, st)] + ps.value.val), ps.value.st)))
  {
  }

  /** `{f: v}` with `v` neither an array nor an object goes through `=`. */
  lemma FieldScalarPath(env: Env, name: string, v: Node, st: States)
    requires !(v.List? || v.Obj?)
    ensures NameField(env, name, v, st) == Operator(env, "=", Some(name), [v], FieldStates(name, st))
  {
  }

  /** `{f: {op: x}}` (or `{f: [x, ...]}`, read with key "0"): a registered
      operator gets the field first; any other key goes through `:in`. */
  lemma FieldOperatorPath(env: Env, name: string, v: Node, st: States)
    requires FirstEntry(v).Some? && Lower(FirstEntry(v).value.0) !in Formatters
    ensures var (key, inner) := FirstEntry(v).value;
      NameField(env, name, v, st)
      == if Lower(key) in env.operators then Operator(env, Lower(key), Some(name), Wrap(inner), FieldStates(name, st))
         else Operator(env, ":in", Some(name), [v], FieldStates(name, st))
  {
  }

  /** One operand that renders as one part. */
  lemma SingleParts(env: Env, v: Node, st: States, t: string)
    requires Item(env, v, st) == Ok(Out([t], st))
    ensures Parts(env, [v], st) == Ok(Out([t], st))
  {
    assert [v][1..] == [];
    assert Parts(env, [], st) == Ok(Out([], st));
    assert [t] + [] == [t];
  }

  /** `{f: v}` with a scalar `v` of one part `t`: the `=` entry is built
      from the field name and `t`. */
  lemma EqualsShorthand(env: Env, name: string, v: Node, st: States, t: string)
    requires StandardOperators(env) && !(v.List? || v.Obj?)
    requires forall st' :: Item(env, v, st') == Ok(Out([t], st'))
    ensures NameField(env, name, v, st).Ok?
    ensures NameField(env, name, v, st).value.val == Build(OpConfig(Some(":is"), None, None), "=", [FieldName(env, name, st), t])
  {
    var st1 := FieldStates(name, st);
    FieldScalarPath(env, name, v, st);
    OperatorOnField(env, "=", name, [v], st1);
    var h := FormatNameStr(env, name, st1);
    SingleParts(env, v, h.st, t);
    var n := FieldName(env, name, st);
    assert FieldName(env, name, st1) == n;
    assert [n] + [t] == [n, t];
  }

  lemma NullItem(env: Env)
    requires env.caster.None?
    ensures forall st' :: Item(env, Null, st') == Ok(Out(["NULL"], st'))
  {
  }

  /** `{f: null}` is `f IS NULL`. */
  lemma FieldNull(env: Env, name: string, st: States)
    requires StandardOperators(env)
    ensures NameField(env, name, Null, st).Ok?
    ensures NameField(env, name, Null, st).value.val == FieldName(env, name, st) + " IS NULL"
  {
    var n := FieldName(env, name, st);
    var cfg := OpConfig(Some(":is"), None, None);
    assert NameField(env, name, Null, st).Ok? && NameField(env, name, Null, st).value.val == Build(cfg, "=", [n, "NULL"]) by {
      NullItem(env);
      EqualsShorthand(env, name, Null, st, "NULL");
    }
    IsNullText(n);
  }

  lemma IsNullText(n: string)
    ensures Build(OpConfig(Some(":is"), None, None), "=", [n, "NULL"]) == n + " IS NULL"
  {
    assert Keyword(":is") == "IS" && Keyword("=") == "=" by { KeywordFacts(); }
    NullComparison(OpConfig(Some(":is"), None, None), "=", ":is", "IS", n, "");
    assert n + " " + "IS" + " NULL" == n + " IS NULL";
  }

  /** `{f: v}` for a scalar `v` that does not render as NULL is `f = v`. */
  lemma FieldEquals(env: Env, name: string, v: Node, st: States)
    requires StandardOperators(env)
    requires v.Bool? || v.Int? || v.Str? || v.Raw?
    requires Value(env.quoter, None, v, NoStates) != "NULL"
    ensures NameField(env, name, v, st).Ok?
    ensures NameField(env, name, v, st).value.val == FieldName(env, name, st) + " = " + Value(env.quoter, None, v, NoStates)
  {
    var t := Value(env.quoter, None, v, NoStates);
    assert forall st' :: Item(env, v, st') == Ok(Out([t], st'));
    EqualsShorthand(env, name, v, st, t);
    EqualsText(FieldName(env, name, st), t);
  }

  lemma EqualsText(n: string, t: string)
    requires t != "NULL"
    ensures Build(OpConfig(Some(":is"), None, None), "=", [n, t]) == n + " = " + t
  {
    assert Keyword(":is") == "IS" && Keyword("=") == "=" by { KeywordFacts(); }
    NullComparison(OpConfig(Some(":is"), None, None), "=", ":is", "IS", n, t);
    assert n + " " + "=" + " " + t == n + " = " + t;
  }

  /** `{f: [1, 2, 3]}` is `f IN (1, 2, 3)`. */
  lemma FieldIn(env: Env, name: string, xs: seq<int>, st: States)
    requires StandardOperators(env) && xs != []
    ensures NameField(env, name, List(Ints(xs)), st).Ok?
    ensures NameField(env, name, List(Ints(xs)), st).value.val == FieldName(env, name, st) + " IN (" + Join(IntTexts(xs), ", ") + ")"
  {
    KeywordFacts();
    var payload := List(Ints(xs));
    var st1 := FieldStates(name, st);
    assert Lower("0") == "0";
    FieldOperatorPath(env, name, payload, st);
    OperatorOnField(env, ":in", name, [payload], st1);
    var h := FormatNameStr(env, name, st1);
    assert [payload][1..] == [];
    PartsOfInts(env, xs, h.st);
    assert IntTexts(xs) + [] == IntTexts(xs);
    assert Parts(env, [payload], h.st) == Ok(Out(IntTexts(xs), h.st));
    var n := FieldName(env, name, st);
    assert FieldName(env, name, st1) == n;
    InForm(n, IntTexts(xs));
  }

  /** `{f: {':between': [lo, hi]}}` is `f BETWEEN lo AND hi`. */
  lemma FieldBetween(env: Env, name: string, lo: int, hi: int, st: States)
    requires StandardOperators(env)
    ensures NameField(env, name, Obj([(":between", List(Ints([lo, hi])))]), st).Ok?
    ensures NameField(env, name, Obj([(":between", List(Ints([lo, hi])))]), st).value.val
         == FieldName(env, name, st) + " BETWEEN " + IntToString(lo) + " AND " + IntToString(hi)
  {
    KeywordFacts();
    var payload := Obj([(":between", List(Ints([lo, hi])))]);
    var st1 := FieldStates(name, st);
    assert Lower(":between") == ":between";
    FieldOperatorPath(env, name, payload, st);
    OperatorOnField(env, ":between", name, Ints([lo, hi]), st1);
    var h := FormatNameStr(env, name, st1);
    PartsOfInts(env, [lo, hi], h.st);
    assert IntTexts([lo, hi]) == [IntToString(lo), IntToString(hi)];
    var n := FieldName(env, name, st);
    assert FieldName(env, name, st1) == n;
    assert [n] + [IntToString(lo), IntToString(hi)] == [n, IntToString(lo), IntToString(hi)];
    BetweenForm(n, IntToString(lo), IntToString(hi));
  }

  /** `{f: {':plain': x}}` (the formatter key in any case) is `f = x` with
      `x` as its text. */
  lemma FieldFormatter(env: Env, name: string, k: string, x: Node, st: States)
    requires Lower(k) == ":plain"
    ensures NameField(env, name, Obj([(k, x)]), st).Ok?
    ensures NameField(env, name, Obj([(k, x)]), st).value.val == FieldName(env, name, st) + " = " + JsString(x)
  {
    assert ":plain" in Formatters;
    var st1 := FieldStates(name, st);
    assert Format(env, ":plain", x, st1) == Ok(Out(JsString(x), st1));
  }
}
