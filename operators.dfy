// The operator registry of the dialects and the builders that render an
// operator from the SQL parts of its operands.

module Operators {

  import opened Wrappers
  import opened Text

  /** The named builders an operator may use. */
  datatype BuilderKind = FunctionCall | Prefix | ListOf | Between | SetOp | AliasOf

  /** An operator's configuration: the operator used instead when the
      second part is NULL, a builder, and a `%s` format. */
  datatype OpConfig = OpConfig(nullAlt: Option<string>, builder: Option<BuilderKind>, format: Option<string>)

  const Plain := OpConfig(None, None, None)

  function WithBuilder(b: BuilderKind): OpConfig { OpConfig(None, Some(b), None) }

  function WithFormat(f: string): OpConfig { OpConfig(None, None, Some(f)) }

  /** The operators every dialect knows. */
  function DefaultOperators(): map<string, OpConfig>
  {
    map[
      "=" := OpConfig(Some(":is"), None, None),
      "<=>" := Plain, "<" := Plain, ">" := Plain, "<=" := Plain, ">=" := Plain,
      "!=" := OpConfig(Some(":is not"), None, None),
      "<>" := Plain, "-" := Plain, "+" := Plain, "*" := Plain, "/" := Plain, "%" := Plain,
      ">>" := Plain, "<<" := Plain, ":=" := Plain, "&" := Plain, "|" := Plain,
      ":mod" := Plain, ":div" := Plain, ":like" := Plain, ":not like" := Plain,
      ":is" := Plain, ":is not" := Plain,
      ":distinct" := WithBuilder(Prefix), "~" := WithBuilder(Prefix),
      ":between" := WithBuilder(Between), ":not between" := WithBuilder(Between),
      ":in" := WithBuilder(ListOf), ":not in" := WithBuilder(ListOf),
      ":exists" := WithBuilder(ListOf), ":not exists" := WithBuilder(ListOf),
      ":all" := WithBuilder(ListOf), ":any" := WithBuilder(ListOf), ":some" := WithBuilder(ListOf),
      ":as" := WithBuilder(AliasOf),
      ":not" := WithBuilder(Prefix),
      ":and" := Plain, ":or" := Plain, ":xor" := Plain,
      "()" := WithFormat("(%s)")
    ]
  }

  /** MySQL adds `#`, REGEXP and the set operations. The `name` given to
      `:except` is not read by the builder. */
  function MySqlOperators(): map<string, OpConfig>
  {
    DefaultOperators() + map[
      "#" := WithFormat("%s ^ %s"),
      ":regexp" := WithFormat("%s REGEXP %s"),
      ":union" := WithBuilder(SetOp), ":union all" := WithBuilder(SetOp),
      ":minus" := WithBuilder(SetOp), ":except" := WithBuilder(SetOp)
    ]
  }

  /** PostgreSQL adds its regular expression, root, factorial, concat,
      power and absolute value operators and the set operations. */
  function PostgreSqlOperators(): map<string, OpConfig>
  {
    DefaultOperators() + map[
      ":regexp" := WithFormat("%s ~ %s"), ":regexi" := WithFormat("%s ~* %s"),
      ":not regexp" := WithFormat("%s !~ %s"), ":not regexi" := WithFormat("%s !~* %s"),
      ":square root" := WithFormat("|/ %s"), ":cube root" := WithFormat("||/ %s"),
      ":fact" := WithFormat("!! %s"),
      "|/" := WithFormat("|/ %s"), "||/" := WithFormat("||/ %s"), "!!" := WithFormat("!! %s"),
      ":concat" := WithFormat("%s || %s"), ":pow" := WithFormat("%s ^ %s"), "@" := WithFormat("@ %s"),
      ":union" := WithBuilder(SetOp), ":union all" := WithBuilder(SetOp),
      ":except" := WithBuilder(SetOp), ":except all" := WithBuilder(SetOp),
      ":intersect" := WithBuilder(SetOp), ":intersect all" := WithBuilder(SetOp)
    ]
  }

  /** SQLite adds the set operations it supports. */
  function SqliteOperators(): map<string, OpConfig>
  {
    DefaultOperators() + map[
      ":union" := WithBuilder(SetOp), ":union all" := WithBuilder(SetOp), ":except" := WithBuilder(SetOp)
    ]
  }

  // ---------------------------------------------------------------------

  /** `parts[k]` as string concatenation writes it: a missing part reads
      as the text "undefined". */
  function Part(parts: seq<string>, k: int): string
  {
    if 0 <= k < |parts| then parts[k] else "undefined"
  }

  /** The SQL keyword of an operator: a leading ':' is dropped and the
      rest is upper-cased; symbolic operators are kept as they are. */
  function Keyword(op: string): string
  {
    if |op| > 0 && op[0] == ':' then Upper(op[1..]) else op
  }

  /** The builders of `_defaultBuilders`. */
  function RunBuilder(b: BuilderKind, op: string, parts: seq<string>): string
  {
    match b
    case FunctionCall => Upper(if |op| >= 2 then op[..|op| - 2] else "") + "(" + Join(parts, ", ") + ")"
    case Prefix => op + " " + Part(parts, 0)
    case ListOf => Part(parts, 0) + " " + op + " (" + Join(if parts == [] then [] else parts[1..], ", ") + ")"
    case Between =>
      var rest := if parts == [] then [] else parts[1..];
      Part(parts, 0) + " " + op + " " + Part(rest, 0) + " AND " + Part(rest, |rest| - 1)
    case SetOp => Join(parts, " " + op + " ")
    case AliasOf => "(" + Part(parts, 0) + ") " + op + " " + Part(parts, 1)
  }

  /** The operator an expression is rendered with: the configured NULL
      alternative when the second part is the NULL literal. */
  function Effective(cfg: OpConfig, op: string, parts: seq<string>): string
  {
    if |parts| > 1 && parts[1] == "NULL" && cfg.nullAlt.Some? && cfg.nullAlt.value != "" then cfg.nullAlt.value else op
  }

  /** The tail of `_operator`: a builder wins over a format, and a format
      over joining the parts with the operator keyword. */
  function Build(cfg: OpConfig, op: string, parts: seq<string>): string
  {
    var kw := Keyword(Effective(cfg, op, parts));
    if cfg.builder.Some? then RunBuilder(cfg.builder.value, kw, parts)
    else if cfg.format.Some? then ReplaceFirst(cfg.format.value, "%s", Join(parts, ", "))
    else Join(parts, " " + kw + " ")
  }

  // ---------------------------------------------------------------------
  // Properties of the rendering.

  /** The configurations the lemmas below rely on. */
  lemma DefaultEntries()
    ensures DefaultOperators()["="] == OpConfig(Some(":is"), None, None)
    ensures DefaultOperators()["!="] == OpConfig(Some(":is not"), None, None)
    ensures DefaultOperators()[":and"] == Plain && DefaultOperators()[":or"] == Plain
    ensures DefaultOperators()[":between"] == WithBuilder(Between)
    ensures DefaultOperators()[":in"] == WithBuilder(ListOf)
    ensures DefaultOperators()["()"] == WithFormat("(%s)")
  {
  }

  /** The vendor entries the lemmas below rely on. */
  lemma VendorEntries()
    ensures PostgreSqlOperators()[":concat"] == WithFormat("%s || %s")
    ensures PostgreSqlOperators()[":regexp"] == WithFormat("%s ~ %s")
    ensures MySqlOperators()["#"] == WithFormat("%s ^ %s")
    ensures SqliteOperators()[":union"] == WithBuilder(SetOp)
    ensures MySqlOperators()[":union all"] == WithBuilder(SetOp)
  {
  }

  /** `=` and `!=` (configured with `:is` and `:is not`) against the NULL
      literal render as IS and IS NOT; against any other part they are
      joined as written. */
  lemma NullComparison(cfg: OpConfig, op: string, alt: string, kw: string, a: string, b: string)
    requires cfg == OpConfig(Some(alt), None, None) && alt != "" && Keyword(alt) == kw && Keyword(op) == op
    ensures Build(cfg, op, [a, "NULL"]) == a + " " + kw + " NULL"
    ensures b != "NULL" ==> Build(cfg, op, [a, b]) == a + " " + op + " " + b
  {
    JoinSmall(a, "NULL", "", " " + kw + " ");
    JoinSmall(a, b, "", " " + op + " ");
  }

  lemma KeywordFacts()
    ensures Keyword("=") == "=" && Keyword("!=") == "!="
    ensures Keyword(":is") == "IS" && Keyword(":is not") == "IS NOT"
    ensures Keyword(":union") == "UNION" && Keyword(":union all") == "UNION ALL"
    ensures Keyword(":in") == "IN" && Keyword(":between") == "BETWEEN" && Keyword(":and") == "AND"
  {
    assert Upper("is") == "IS";
    assert Upper("is not") == "IS NOT";
    assert Upper("union") == "UNION";
    assert Upper("union all") == "UNION ALL";
    assert Upper("in") == "IN";
    assert Upper("between") == "BETWEEN";
    assert Upper("and") == "AND";
  }

  /** Keyword operators are written upper-cased without their colon; a
      symbolic operator is written as it is. */
  lemma KeywordForms(op: string)
    requires op == [] || op[0] != ':'
    ensures Keyword(op) == op
    ensures Keyword(":" + op) == Upper(op)
  {
    assert (":" + op)[1..] == op;
  }

  /** A builder takes priority over a format: the format is then ignored. */
  lemma BuilderBeatsFormat(nullAlt: Option<string>, b: BuilderKind, f: string, op: string, parts: seq<string>)
    ensures Build(OpConfig(nullAlt, Some(b), Some(f)), op, parts) == Build(OpConfig(nullAlt, Some(b), None), op, parts)
  {
  }

  /** A format takes priority over the infix join: the operator's own
      keyword, and its NULL alternative, then play no part. */
  lemma FormatIgnoresKeyword(n1: Option<string>, n2: Option<string>, f: string, op1: string, op2: string, parts: seq<string>)
    ensures Build(OpConfig(n1, None, Some(f)), op1, parts) == Build(OpConfig(n2, None, Some(f)), op2, parts)
  {
  }

  /** A format has the comma-joined parts put in place of its first `%s`
      only; the rest of the format is kept as it is (when the parts hold no
      `$`, which `replace` would read as a pattern). */
  lemma FormatFillsFirstSlot(f: string, op: string, parts: seq<string>, i: nat)
    requires OccursAt(f, "%s", i) && forall k :: 0 <= k < i ==> !OccursAt(f, "%s", k)
    requires '$' !in Join(parts, ", ")
    ensures Build(WithFormat(f), op, parts) == f[..i] + Join(parts, ", ") + f[i + 2..]
  {
    ReplaceFirstPlain(f, "%s", Join(parts, ", "), i);
  }

  /** So a two-slot format such as PostgreSQL's `:concat` gets both operands
      in its first slot and keeps the second `%s` as text. */
  lemma ConcatKeepsSecondSlot(a: string, b: string)
    requires '$' !in a && '$' !in b
    ensures Build(WithFormat("%s || %s"), ":concat", [a, b]) == a + ", " + b + " || %s"
  {
    var f := "%s || %s";
    assert f[0..2] == "%s";
    assert OccursAt(f, "%s", 0);
    JoinSmall(a, b, "", ", ");
    assert forall c :: c in a + ", " + b ==> c in a || c in ", " || c in b;
    FormatFillsFirstSlot(f, ":concat", [a, b], 0);
    assert f[2..] == " || %s";
  }

  /** A `$&` in the parts is read by `replace` as the matched `%s`. */
  lemma FormatReadsDollarPattern()
    ensures Build(WithFormat("(%s)"), "()", ["'$&'"]) == "('%s')"
  {
    var f := "(%s)";
    assert f[1..3] == "%s" && f[0..2] == "(%";
    assert OccursAt(f, "%s", 1) && !OccursAt(f, "%s", 0);
    assert IndexOf(f, "%s") == 1;
    assert Join(["'$&'"], ", ") == "'$&'";
    assert Substitute("'$&'", "%s", "(", ")") == "'%s'" by {
      assert Substitute("'", "%s", "(", ")") == "'";
      assert Substitute("$&'", "%s", "(", ")") == "%s'";
    }
  }

  /** The set operations join the rendered queries with their keyword. */
  lemma SetOperations(a: string, b: string)
    ensures Build(WithBuilder(SetOp), ":union", [a, b]) == a + " UNION " + b
    ensures Build(WithBuilder(SetOp), ":union all", [a, b]) == a + " UNION ALL " + b
  {
    KeywordFacts();
    assert " " + "UNION" + " " == " UNION " && " " + "UNION ALL" + " " == " UNION ALL ";
    JoinSmall(a, b, "", " UNION ");
    JoinSmall(a, b, "", " UNION ALL ");
  }

  /** BETWEEN takes the field first, then the two bounds. */
  lemma BetweenForm(f: string, lo: string, hi: string)
    ensures Build(WithBuilder(Between), ":between", [f, lo, hi]) == f + " BETWEEN " + lo + " AND " + hi
  {
    KeywordFacts();
  }

  /** IN lists every part after the field. */
  lemma InForm(f: string, rest: seq<string>)
    ensures Build(WithBuilder(ListOf), ":in", [f] + rest) == f + " IN (" + Join(rest, ", ") + ")"
  {
    KeywordFacts();
    assert ([f] + rest)[1..] == rest;
  }

  /** An unregistered `f()` is rendered as a call of `f`, upper-cased and
      without its colon. */
  lemma FunctionCallBuild(f: string, parts: seq<string>)
    ensures Build(WithBuilder(FunctionCall), f + "()", parts)
         == Upper(if f != [] && f[0] == ':' then f[1..] else f) + "(" + Join(parts, ", ") + ")"
  {
    var g := f + "()";
    var kw := Keyword(g);
    if f != [] && f[0] == ':' {
      assert g[0] == ':' && g[1..] == f[1..] + "()";
      UpperFacts(f[1..], "()");
      assert kw == Upper(f[1..]) + "()";
      assert kw[..|kw| - 2] == Upper(f[1..]);
      UpperFacts(f[1..], "");
    } else {
      assert g[0] != ':' by { if f == [] { assert g[0] == '('; } else { assert g[0] == f[0]; } }
      assert kw == g;
      assert kw[..|kw| - 2] == f;
    }
  }
}
