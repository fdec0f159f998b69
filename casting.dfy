// Value rendering: `value(value, states)`, its array `cast`, and
// `quote(string)`, with the caller-supplied quoter and caster hooks.

module Casting {

  import opened Wrappers
  import opened Text
  import opened Nodes

  /** What a caster receives as `states.schema`: no schema (null), a
      schema object supplied by the caller, or a CREATE TABLE statement
      (passed as its own schema, with its column definitions). */
  datatype SchemaRef = NullSchema | UserSchema(id: nat) | TableSchema(columns: Record)

  /** The walk state shared by the formatters: the alias and schema maps
      given by the caller, the `name` and `schema` slots that the `:name`
      formatter and `_name` fill in before values are cast, and the
      `field` slot through which a column renderer hands its field
      definition to the caster of a DEFAULT value. */
  datatype States = States(
    aliases: map<string, string>,
    schemas: map<string, SchemaRef>,
    name: Option<Node>,
    schema: Option<SchemaRef>,
    field: Option<Record>)

  const NoStates := States(map[], map[], None, None, None)

  /** A caster hook `(value, states) => string`. */
  type Caster = (Node, States) -> string

  /** A quoter hook `string => string`. */
  type Quoter = string -> string

  /** `quote(string)`: the quoter hook when one is set; otherwise the text
      between single quotes, as it is. */
  function Quote(quoter: Option<Quoter>, s: string): string
  {
    if quoter.Some? then quoter.value(s) else "'" + s + "'"
  }

  /** `value(v, states)`. */
  function Value(quoter: Option<Quoter>, caster: Option<Caster>, v: Node, st: States): string
    decreases v, 1
  {
    if caster.Some? then caster.value(v, st)
    else
      match v
      case Null => "NULL"
      case Bool(b) => if b then "TRUE" else "FALSE"
      case Str(s) => Quote(quoter, s)
      case List(xs) => CastArray(quoter, xs, st)
      case _ => JsString(v)
  }

  /** The inner `cast` of `value()`: nested arrays are cast, other elements
      go through `value()`, and the results are joined with ',' in braces. */
  function CastArray(quoter: Option<Quoter>, xs: seq<Node>, st: States): string
    decreases xs, 0
  {
    "{" + Join(seq(|xs|, k requires 0 <= k < |xs| =>
                   if xs[k].List? then CastArray(quoter, xs[k].items, st) else Value(quoter, None, xs[k], st)), ",") + "}"
  }

  // ---------------------------------------------------------------------
  // The escaping `quote()` computes before it returns the unescaped text:
  // NUL, backspace, tab, substitute, newline and carriage return become
  // backslash sequences, and `"`, `'`, `\` and `%` get a backslash.

  function EscapeChar(c: char): string
  {
    if c == '\0' then "\\0"
    else if c == '\U{0008}' then "\\b"
    else if c == '\t' then "\\t"
    else if c == '\U{001A}' then "\\z"
    else if c == '\n' then "\\n"
    else if c == '\r' then "\\r"
    else if c == '"' || c == '\'' || c == '\\' || c == '%' then ['\\', c]
    else [c]
  }

  function EscapeText(s: string): string
  {
    if s == [] then "" else EscapeChar(s[0]) + EscapeText(s[1..])
  }

  /** The character a backslash sequence `\x` stands for. */
  function Unescaped(x: char): char
  {
    if x == '0' then '\0' else if x == 'b' then '\U{0008}' else if x == 't' then '\t'
    else if x == 'z' then '\U{001A}' else if x == 'n' then '\n' else if x == 'r' then '\r' else x
  }

  /** Reads a backslash-escaped text back. */
  function UnescapeText(t: string): Option<string>
  {
    if t == [] then Some("")
    else if t[0] != '\\' then
      var rest := UnescapeText(t[1..]);
      if rest.Some? then Some([t[0]] + rest.value) else None
    else if |t| < 2 then None
    else if t[1] in "0btznr\"'\\%" then
      var rest := UnescapeText(t[2..]);
      if rest.Some? then Some([Unescaped(t[1])] + rest.value) else None
    else None
  }

  /** The escaped text loses nothing: it reads back to the original
      string. */
  lemma {:induction false} EscapeTextRoundTrip(s: string)
    ensures UnescapeText(EscapeText(s)) == Some(s)
  {
    if s != [] {
      EscapeTextRoundTrip(s[1..]);
      assert EscapeText(s) == EscapeChar(s[0]) + EscapeText(s[1..]);
      UnescapeStep(s[0], EscapeText(s[1..]));
      assert s == [s[0]] + s[1..];
    }
  }

  /** One escaped character reads back, whatever follows it. */
  lemma UnescapeStep(c: char, rest: string)
    ensures UnescapeText(EscapeChar(c) + rest) ==
            if UnescapeText(rest).Some? then Some([c] + UnescapeText(rest).value) else None
  {
    var e := EscapeChar(c);
    EscapeCharShape(c);
    if |e| == 1 {
      assert (e + rest)[0] == c && (e + rest)[1..] == rest;
    } else {
      assert (e + rest)[0] == '\\' && (e + rest)[1] == e[1] && (e + rest)[2..] == rest;
    }
  }

  /** A character is kept as it is, or written as a backslash and a
      character that reads back to it. */
  lemma EscapeCharShape(c: char)
    ensures |EscapeChar(c)| == 1 ==> EscapeChar(c) == [c] && c != '\\'
    ensures |EscapeChar(c)| != 1 ==>
              |EscapeChar(c)| == 2 && EscapeChar(c)[0] == '\\' && EscapeChar(c)[1] in "0btznr\"'\\%" &&
              Unescaped(EscapeChar(c)[1]) == c
  {
  }

  // ---------------------------------------------------------------------
  // Reading a rendered literal back as SQL does: NULL, TRUE, FALSE, a
  // decimal integer, or a single-quoted string where a quote inside the
  // string is written twice.

  function ParseQuoted(body: string): Option<string>
  {
    if body == [] then Some("")
    else if body[0] != '\'' then
      var rest := ParseQuoted(body[1..]);
      if rest.Some? then Some([body[0]] + rest.value) else None
    else if |body| >= 2 && body[1] == '\'' then
      var rest := ParseQuoted(body[2..]);
      if rest.Some? then Some("'" + rest.value) else None
    else None
  }

  function ParseLiteral(t: string): Option<Node>
  {
    if t == "NULL" then Some(Null)
    else if t == "TRUE" then Some(Bool(true))
    else if t == "FALSE" then Some(Bool(false))
    else if |t| >= 2 && t[0] == '\'' && t[|t| - 1] == '\'' then
      var s := ParseQuoted(t[1..|t| - 1]);
      if s.Some? then Some(Str(s.value)) else None
    else
      var i := ParseInt(t);
      if i.Some? then Some(Int(i.value)) else None
  }

  lemma {:induction false} ParseQuotedPlain(s: string)
    requires '\'' !in s
    ensures ParseQuoted(s) == Some(s)
  {
    if s != [] {
      assert s == [s[0]] + s[1..];
      ParseQuotedPlain(s[1..]);
    }
  }

  /** Without hooks, a scalar renders as a SQL literal that reads back to
      the same value, provided a string holds no single quote. */
  lemma ValueRoundTrip(v: Node, st: States)
    requires v.Null? || v.Bool? || v.Int? || (v.Str? && '\'' !in v.s)
    ensures ParseLiteral(Value(None, None, v, st)) == Some(v)
  {
    match v
    case Int(i) =>
      IntToStringRoundTrip(i);
      NatToStringDigits(if i < 0 then -i else i);
      var t := IntToString(i);
      assert t[0] == '-' || IsDigit(t[0]);
    case Str(s) =>
      var t := "'" + s + "'";
      assert t[1..|t| - 1] == s;
      ParseQuotedPlain(s);
    case _ =>
  }

  /** A single quote that is not followed by another one ends the body of
      a literal early. */
  lemma {:induction false} ParseQuotedStops(a: string, b: string)
    requires '\'' !in a && (b == [] || b[0] != '\'')
    ensures ParseQuoted(a + "'" + b) == None
    decreases |a|
  {
    if a != [] {
      assert (a + "'" + b)[0] == a[0];
      assert (a + "'" + b)[1..] == a[1..] + "'" + b;
      ParseQuotedStops(a[1..], b);
    } else {
      assert a + "'" + b == "'" + b;
    }
  }

  /** `quote()` does not double a quote inside the string, so a string that
      holds a lone single quote does not render as one SQL string literal. */
  lemma QuoteUnescaped(a: string, b: string, st: States)
    requires '\'' !in a && (b == [] || b[0] != '\'')
    ensures ParseLiteral(Value(None, None, Str(a + "'" + b), st)) == None
  {
    var s := a + "'" + b;
    var t := "'" + s + "'";
    assert Value(None, None, Str(s), st) == t;
    assert t[0] == '\'' && t[|t| - 1] == '\'' && |t| >= 2;
    assert t != "NULL" && t != "TRUE" && t != "FALSE" by {
      assert "NULL"[0] != '\'' && "TRUE"[0] != '\'' && "FALSE"[0] != '\'';
    }
    assert t[1..|t| - 1] == s;
    ParseQuotedStops(a, b);
  }

  /** Two instances: a lone quote, and the classic injected condition. */
  lemma QuoteUnescapedExamples()
    ensures Value(None, None, Str("'"), NoStates) == "'''"
    ensures ParseLiteral(Value(None, None, Str("'"), NoStates)) == None
    ensures ParseLiteral(Value(None, None, Str("x' OR '1'='1"), NoStates)) == None
  {
    assert "" + "'" + "" == "'";
    QuoteUnescaped("", "", NoStates);
    assert "x" + "'" + " OR '1'='1" == "x' OR '1'='1";
    QuoteUnescaped("x", " OR '1'='1", NoStates);
  }

  /** Arrays render in braces, one cast element per item, joined with ','. */
  lemma ValueArrayOfInts(xs: seq<int>, quoter: Option<Quoter>, st: States)
    ensures Value(quoter, None, List(seq(|xs|, k requires 0 <= k < |xs| => Int(xs[k]))), st)
         == "{" + Join(seq(|xs|, k requires 0 <= k < |xs| => IntToString(xs[k])), ",") + "}"
  {
    var ns := seq(|xs|, k requires 0 <= k < |xs| => Int(xs[k]));
    assert seq(|ns|, k requires 0 <= k < |ns| =>
                   if ns[k].List? then CastArray(quoter, ns[k].items, st) else Value(quoter, None, ns[k], st))
        == seq(|xs|, k requires 0 <= k < |xs| => IntToString(xs[k]));
  }
}
