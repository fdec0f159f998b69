// The JavaScript string primitives the library relies on: Array.join,
// toLowerCase/toUpperCase, String(number), lastIndexOf, indexOf,
// String.prototype.replace with a string pattern, and trim.

module Text {

  import opened Wrappers

  /** `parts.join(sep)`. */
  function Join(parts: seq<string>, sep: string): string
  {
    if parts == [] then ""
    else if |parts| == 1 then parts[0]
    else parts[0] + sep + Join(parts[1..], sep)
  }

  lemma JoinSmall(a: string, b: string, c: string, sep: string)
    ensures Join([a], sep) == a
    ensures Join([a, b], sep) == a + sep + b
    ensures Join([a, b, c], sep) == a + sep + b + sep + c
  {
    assert [a, b][1..] == [b];
    assert [b, c][1..] == [c];
    assert Join([b, c], sep) == b + sep + c;
    assert [a, b, c][1..] == [b, c];
  }

  lemma {:induction false} JoinAppend(parts: seq<string>, x: string, sep: string)
    ensures Join(parts + [x], sep) == if parts == [] then x else Join(parts, sep) + sep + x
  {
    if |parts| > 1 {
      assert (parts + [x])[1..] == parts[1..] + [x];
      JoinAppend(parts[1..], x, sep);
    } else if |parts| == 1 {
      assert (parts + [x])[1..] == [x];
    }
  }

  /** `parts.filter(Boolean)` on strings: the empty ones are dropped. */
  function NonEmpty(parts: seq<string>): (r: seq<string>)
    ensures forall p :: p in r <==> p in parts && p != ""
  {
    if parts == [] then [] else (if parts[0] == "" then [] else [parts[0]]) + NonEmpty(parts[1..])
  }

  // ---------------------------------------------------------------------
  // Case mapping. The library calls toLowerCase/toUpperCase on operator
  // names, field keys and type names; the model maps the ASCII letters.

  function LowerChar(c: char): char
  {
    if 'A' <= c <= 'Z' then (c as int + 32) as char else c
  }

  function UpperChar(c: char): char
  {
    if 'a' <= c <= 'z' then (c as int - 32) as char else c
  }

  function Lower(s: string): (r: string)
    ensures |r| == |s|
  {
    seq(|s|, i requires 0 <= i < |s| => LowerChar(s[i]))
  }

  function Upper(s: string): (r: string)
    ensures |r| == |s|
  {
    seq(|s|, i requires 0 <= i < |s| => UpperChar(s[i]))
  }

  lemma LowerIdempotent(s: string)
    ensures Lower(Lower(s)) == Lower(s)
  {
  }

  lemma UpperFacts(s: string, t: string)
    ensures Upper(s + t) == Upper(s) + Upper(t)
    ensures Upper(Upper(s)) == Upper(s)
    ensures Upper("()") == "()"
  {
    assert Upper("()") == "()";
  }

  // ---------------------------------------------------------------------
  // Decimal rendering of integers, as String(n) does for an integer-valued
  // number, and the matching parser used by the round-trip lemmas.

  function DigitChar(d: nat): char
    requires d < 10
  {
    "0123456789"[d]
  }

  function NatToString(n: nat): string
    decreases n
  {
    if n < 10 then [DigitChar(n)] else NatToString(n / 10) + [DigitChar(n % 10)]
  }

  function IntToString(i: int): string
  {
    if i < 0 then "-" + NatToString(-i) else NatToString(i)
  }

  predicate IsDigit(c: char) { '0' <= c <= '9' }

  predicate AllDigits(s: string) { forall k :: 0 <= k < |s| ==> IsDigit(s[k]) }

  function DigitValue(c: char): nat
    requires IsDigit(c)
  {
    (c as int - '0' as int) as nat
  }

  function ParseNat(s: string): nat
    requires AllDigits(s)
  {
    if s == [] then 0 else ParseNat(s[..|s| - 1]) * 10 + DigitValue(s[|s| - 1])
  }

  /** Reads back what IntToString writes: an optional '-' and one or more digits. */
  function ParseInt(s: string): Option<int>
  {
    if |s| > 1 && s[0] == '-' && AllDigits(s[1..]) then Some(-(ParseNat(s[1..]) as int))
    else if |s| > 0 && AllDigits(s) then Some(ParseNat(s) as int)
    else None
  }

  lemma {:induction false} NatToStringDigits(n: nat)
    ensures |NatToString(n)| > 0 && AllDigits(NatToString(n))
    ensures ParseNat(NatToString(n)) == n
    decreases n
  {
    var s := NatToString(n);
    if n >= 10 {
      NatToStringDigits(n / 10);
      var p := NatToString(n / 10);
      assert s == p + [DigitChar(n % 10)];
      assert s[..|s| - 1] == p;
    }
  }

  /** String(i) parses back to i. */
  lemma IntToStringRoundTrip(i: int)
    ensures ParseInt(IntToString(i)) == Some(i)
  {
    NatToStringDigits(if i < 0 then -i else i);
    var s := IntToString(i);
    if i < 0 {
      assert s[1..] == NatToString(-i);
    } else {
      assert s[0] != '-';
    }
  }

  // ---------------------------------------------------------------------
  // Searching.

  /** `s.lastIndexOf(c)`. */
  function LastIndexOf(s: string, c: char): (r: int)
    ensures -1 <= r < |s|
    ensures r >= 0 ==> s[r] == c && c !in s[r + 1..]
    ensures r == -1 ==> c !in s
  {
    if s == [] then -1
    else if s[|s| - 1] == c then |s| - 1
    else
      assert s == s[..|s| - 1] + [s[|s| - 1]];
      LastIndexOf(s[..|s| - 1], c)
  }

  predicate OccursAt(s: string, pat: string, k: int)
  {
    0 <= k && k + |pat| <= |s| && s[k..k + |pat|] == pat
  }

  function IndexFrom(s: string, pat: string, from: nat): (r: int)
    requires from <= |s|
    ensures r == -1 || (from <= r && OccursAt(s, pat, r))
    ensures r == -1 ==> forall k :: from <= k <= |s| ==> !OccursAt(s, pat, k)
    ensures r >= 0 ==> forall k :: from <= k < r ==> !OccursAt(s, pat, k)
    decreases |s| - from
  {
    if OccursAt(s, pat, from) then from
    else if from + |pat| >= |s| then
      assert forall k :: from <= k <= |s| ==> !OccursAt(s, pat, k);
      -1
    else IndexFrom(s, pat, from + 1)
  }

  /** `s.indexOf(pat)`: the first position where `pat` occurs, or -1. */
  function IndexOf(s: string, pat: string): (r: int)
    ensures r == -1 || OccursAt(s, pat, r)
    ensures r == -1 ==> forall k :: 0 <= k <= |s| ==> !OccursAt(s, pat, k)
    ensures r >= 0 ==> forall k :: 0 <= k < r ==> !OccursAt(s, pat, k)
  {
    IndexFrom(s, pat, 0)
  }

  predicate StartsWith(s: string, p: string) { |p| <= |s| && s[..|p|] == p }

  predicate EndsWith(s: string, p: string) { |p| <= |s| && s[|s| - |p|..] == p }

  // ---------------------------------------------------------------------
  // `template.replace(pattern, replacement)` with a string pattern:
  // only the first occurrence is replaced, and the replacement text is
  // read for the `$` patterns of GetSubstitution (no capture groups).

  function Substitute(repl: string, matched: string, before: string, after: string): string
    decreases |repl|
  {
    if repl == [] then ""
    else if repl[0] == '$' && |repl| > 1 && repl[1] == '$' then "$" + Substitute(repl[2..], matched, before, after)
    else if repl[0] == '$' && |repl| > 1 && repl[1] == '&' then matched + Substitute(repl[2..], matched, before, after)
    else if repl[0] == '$' && |repl| > 1 && repl[1] == '`' then before + Substitute(repl[2..], matched, before, after)
    else if repl[0] == '$' && |repl| > 1 && repl[1] == '\'' then after + Substitute(repl[2..], matched, before, after)
    else [repl[0]] + Substitute(repl[1..], matched, before, after)
  }

  function ReplaceFirst(s: string, pat: string, repl: string): string
  {
    var i := IndexOf(s, pat);
    if i < 0 then s
    else s[..i] + Substitute(repl, pat, s[..i], s[i + |pat|..]) + s[i + |pat|..]
  }

  lemma {:induction false} SubstitutePlain(repl: string, matched: string, before: string, after: string)
    requires '$' !in repl
    ensures Substitute(repl, matched, before, after) == repl
    decreases |repl|
  {
    if repl != [] {
      SubstitutePlain(repl[1..], matched, before, after);
    }
  }

  /** A replacement without `$` is inserted verbatim in place of the first
      occurrence of the pattern, and the rest of the template is kept. */
  lemma ReplaceFirstPlain(s: string, pat: string, repl: string, i: nat)
    requires '$' !in repl
    requires OccursAt(s, pat, i)
    requires forall k :: 0 <= k < i ==> !OccursAt(s, pat, k)
    ensures ReplaceFirst(s, pat, repl) == s[..i] + repl + s[i + |pat|..]
  {
    var j := IndexOf(s, pat);
    assert j == i;
    SubstitutePlain(repl, pat, s[..i], s[i + |pat|..]);
  }

  // ---------------------------------------------------------------------
  // White space: the characters JavaScript's `\s` and `trim` treat as
  // white space or line terminators.

  predicate IsLineTerminator(c: char)
  {
    c == '\n' || c == '\r' || c == '\U{2028}' || c == '\U{2029}'
  }

  predicate IsSpace(c: char)
  {
    c == ' ' || c == '\t' || c == '\U{000B}' || c == '\U{000C}' || c == '\U{00A0}' || c == '\U{FEFF}'
    || c == '\U{1680}' || ('\U{2000}' <= c <= '\U{200A}') || c == '\U{202F}' || c == '\U{205F}' || c == '\U{3000}'
    || IsLineTerminator(c)
  }

  function TrimStart(s: string): (r: string)
    ensures r == [] || !IsSpace(r[0])
    ensures exists k :: 0 <= k <= |s| && r == s[k..]
  {
    if s != [] && IsSpace(s[0]) then
      var r := TrimStart(s[1..]);
      var k :| 0 <= k <= |s| - 1 && r == s[1..][k..];
      assert r == s[k + 1..];
      r
    else
      assert s == s[0..];
      s
  }

  function TrimEnd(s: string): (r: string)
    ensures r == [] || !IsSpace(r[|r| - 1])
    ensures exists k :: 0 <= k <= |s| && r == s[..k]
  {
    if s != [] && IsSpace(s[|s| - 1]) then
      var r := TrimEnd(s[..|s| - 1]);
      var k :| 0 <= k <= |s| - 1 && r == s[..|s| - 1][..k];
      assert r == s[..k];
      r
    else
      assert s == s[..|s|];
      s
  }

  /** `s.trim()`. */
  function Trim(s: string): string
  {
    TrimEnd(TrimStart(s))
  }

  lemma TrimStartStops(s: string)
    requires s != [] && !IsSpace(s[0])
    ensures TrimStart(s) == s
  {
  }

  lemma {:induction false} TrimEndStops(s: string)
    requires s != [] && !IsSpace(s[|s| - 1])
    ensures TrimEnd(s) == s
  {
  }

  /** Trimming a text that has exactly one leading space and ends in a
      non-space character removes that space and nothing else. */
  lemma TrimLeadingSpace(t: string)
    requires t != [] && !IsSpace(t[0]) && !IsSpace(t[|t| - 1])
    ensures Trim(" " + t) == t
  {
    assert (" " + t)[1..] == t;
    TrimStartStops(t);
    TrimEndStops(t);
  }
}
