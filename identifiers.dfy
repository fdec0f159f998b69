// Identifier handling of the dialect: splitting `table.field`, wrapping a
// name in the dialect's escape character, alias substitution, and the
// `_prefix` helper of `prefix()`.

module Identifiers {

  import opened Text
  import opened Nodes

  /** `undot(field)`: splits at the last dot into [prefix, field]; a name
      without a dot has an empty prefix. */
  function Undot(name: string): (r: (string, string))
    ensures '.' in name ==> name == r.0 + "." + r.1 && '.' !in r.1
    ensures '.' !in name ==> r == ("", name)
  {
    var pos := LastIndexOf(name, '.');
    if pos == -1 then ("", name)
    else
      assert name == name[..pos] + "." + name[pos + 1..];
      (name[..pos], name[pos + 1..])
  }

  /** `escape(name)`: '*' is kept, any other name is wrapped in the escape
      character; nothing inside the name is doubled. */
  function Escape(esc: string, name: string): string
  {
    if name == "*" then "*" else esc + name + esc
  }

  /** `aliases[p]` when it is set to a non-empty alias, `p` otherwise. */
  function Aliased(aliases: map<string, string>, p: string): string
  {
    if p in aliases && aliases[p] != "" then aliases[p] else p
  }

  /** `name(name, aliases)` for a string name. */
  function NameStr(esc: string, name: string, aliases: map<string, string>): string
  {
    var (p, f) := Undot(name);
    var q := Aliased(aliases, p);
    if q != "" then Escape(esc, q) + "." + Escape(esc, f) else Escape(esc, name)
  }

  /** An unqualified name is escaped whole. */
  lemma NameStrPlain(esc: string, name: string, aliases: map<string, string>)
    requires '.' !in name && Aliased(aliases, "") == ""
    ensures NameStr(esc, name, aliases) == Escape(esc, name)
  {
  }

  /** A qualified name escapes the (aliased) prefix and the field apart, so
      `'t.*'` gives the escaped table followed by `.*`. */
  lemma NameStrQualified(esc: string, t: string, f: string, aliases: map<string, string>)
    requires '.' !in f && Aliased(aliases, t) != ""
    ensures NameStr(esc, t + "." + f, aliases) == Escape(esc, Aliased(aliases, t)) + "." + Escape(esc, f)
  {
    var name := t + "." + f;
    assert '.' in name by { assert name[|t|] == '.'; }
    var (p, g) := Undot(name);
    UndotUnique(t, f, p, g);
  }

  lemma UndotUnique(t: string, f: string, p: string, g: string)
    requires '.' !in f && '.' !in g && t + "." + f == p + "." + g
    ensures p == t && g == f
  {
    var s := t + "." + f;
    assert s[|t|] == '.' && s[|p|] == '.';
    assert forall k :: |t| < k < |s| ==> s[k] != '.' by {
      forall k | |t| < k < |s| ensures s[k] != '.' { assert s[k] == f[k - |t| - 1]; }
    }
    assert forall k :: |p| < k < |s| ==> s[k] != '.' by {
      forall k | |p| < k < |s| ensures s[k] != '.' { assert s[k] == g[k - |p| - 1]; }
    }
    assert |t| == |p|;
    assert g == s[|p| + 1..] == f;
    assert p == s[..|p|] == t;
  }

  /** `_prefix(name, prefix)`: a name that already has a prefix is kept,
      any other value `v` becomes the string `prefix + '.' + v`. */
  function PrefixName(name: Node, prefix: string): (r: Node)
    ensures r.Str?
    ensures name.Str? && '.' in name.s && name.s[0] != '.' ==> r == name
    ensures name.Str? && '.' !in name.s ==> r == Str(prefix + "." + name.s)
  {
    if name.Str? then
      var (a, f) := Undot(name.s);
      if a != "" then name else Str(prefix + "." + f)
    else Str(prefix + "." + JsString(name))
  }

  /** `_prefix` is idempotent: a name it returns already carries a prefix
      (or is `.field`, which it rebuilds as it is). */
  lemma PrefixNameIdempotent(name: Node, prefix: string)
    ensures PrefixName(PrefixName(name, prefix), prefix) == PrefixName(name, prefix)
  {
    var r := PrefixName(name, prefix);
    if !(name.Str? && Undot(name.s).0 != "") {
      var g := if name.Str? then Undot(name.s).1 else JsString(name);
      assert r == Str(prefix + "." + g);
      var s := prefix + "." + g;
      assert s[|prefix|] == '.';
      var (a2, f2) := Undot(s);
      if a2 == "" {
        assert s == "." + f2 && '.' !in f2;
        assert forall k :: 0 < k < |s| ==> s[k] == f2[k - 1];
        assert |prefix| == 0;
        assert f2 == s[1..] == g;
      }
    }
  }
}
