// The `Statement` base class: the parts every statement shares (flags,
// WHERE groups, common table expressions, ORDER BY, LIMIT), their setters,
// and the clause builders. The builders that loop are methods proved
// equal to the functions they are specified by.

module Statements {

  import opened Wrappers
  import opened Text
  import opened Ordered
  import opened Nodes
  import opened Identifiers
  import opened Casting
  import opened Compiler
  import opened Dialects

  // ---------------------------------------------------------------------
  // Clause builders.

  /** `_buildClause(clause, expression)`. */
  function Clause(clause: string, expr: string): string
  {
    if expr != "" then " " + clause + " " + expr else ""
  }

  /** `_buildFlag(flag, value)`. */
  function Flag(flag: string, on: bool): string
  {
    if on then " " + flag else ""
  }

  /** `_buildChunk(sql)`. */
  function Chunk(sql: string): string
  {
    if sql != "" then " " + sql else ""
  }

  /** How the flag setters read their argument: a missing one turns the
      flag on; a given one is read for its truthiness. */
  function Enable(enable: Option<Node>): bool
  {
    enable.None? || Truthy(enable.value)
  }

  /** The flags stored as enabled, in the order they were first set. */
  function Enabled(flags: seq<(string, bool)>): seq<string>
    decreases |flags|
  {
    if flags == [] then []
    else Enabled(flags[..|flags| - 1]) + (if flags[|flags| - 1].1 then [flags[|flags| - 1].0] else [])
  }

  /** `_buildFlags(flags)`. */
  function FlagsSql(flags: seq<(string, bool)>): string
  {
    var e := Enabled(flags);
    if e == [] then "" else " " + Join(e, " ")
  }

  /** A flag is listed exactly when some entry stores it as enabled, and
      the list follows the entries' order. */
  lemma {:induction false} EnabledFlags(flags: seq<(string, bool)>)
    ensures forall x :: x in Enabled(flags) <==> exists i :: 0 <= i < |flags| && flags[i].0 == x && flags[i].1
    ensures |Enabled(flags)| <= |flags|
    decreases |flags|
  {
    if flags != [] {
      var init := flags[..|flags| - 1];
      EnabledFlags(init);
      assert forall i :: 0 <= i < |init| ==> init[i] == flags[i];
    }
  }

  lemma EnabledSnoc(flags: seq<(string, bool)>, f: string, b: bool)
    ensures Enabled(flags + [(f, b)]) == Enabled(flags) + (if b then [f] else [])
  {
    assert (flags + [(f, b)])[..|flags|] == flags;
  }

  /** Setting a flag that was never set adds it at the end of the rendered
      list when it is enabled, and renders nothing for it otherwise. */
  lemma SetNewFlag(flags: seq<(string, bool)>, f: string, b: bool)
    requires f !in Keys(flags)
    ensures FlagsSql(Put(flags, f, b)) == FlagsSql(flags) + Flag(f, b)
  {
    PutNew(flags, f, b);
    FlagsSnoc(flags, f, b);
  }

  lemma FlagsSnoc(flags: seq<(string, bool)>, f: string, b: bool)
    ensures FlagsSql(flags + [(f, b)]) == FlagsSql(flags) + Flag(f, b)
  {
    EnabledSnoc(flags, f, b);
    var e := Enabled(flags);
    if b {
      assert Enabled(flags + [(f, b)]) == e + [f];
      JoinAppend(e, f, " ");
      if e == [] {
        assert FlagsSql(flags + [(f, b)]) == " " + f;
      } else {
        var j := Join(e, " ");
        assert FlagsSql(flags + [(f, b)]) == " " + (j + " " + f);
        assert FlagsSql(flags) == " " + j;
        SpaceJoin(j, f);
      }
    } else {
      assert Enabled(flags + [(f, b)]) == e;
    }
  }

  lemma SpaceJoin(j: string, f: string)
    ensures " " + (j + " " + f) == " " + j + (" " + f)
  {
  }

  /** Whatever was stored before, a flag is rendered after it is set
      exactly when it is set to true. */
  lemma FlagRendered(flags: seq<(string, bool)>, f: string, b: bool)
    requires UniqueKeys(flags)
    ensures f in Enabled(Put(flags, f, b)) <==> b
  {
    var m := Put(flags, f, b);
    PutUnique(flags, f, b);
    EnabledFlags(m);
    if f in Enabled(m) {
      var i :| 0 <= i < |m| && m[i].0 == f && m[i].1;
      GetAt(m, i);
    } else if b {
      var i := IndexOfKey(m, f);
      GetAt(m, i);
    }
  }

  /** A put of a new key appends it. */
  lemma {:induction false} PutNew<V>(m: seq<(string, V)>, k: string, v: V)
    requires k !in Keys(m)
    ensures Put(m, k, v) == m + [(k, v)]
  {
    if m != [] {
      assert Keys(m) == [m[0].0] + Keys(m[1..]);
      PutNew(m[1..], k, v);
      assert [m[0]] + (m[1..] + [(k, v)]) == m + [(k, v)];
    }
  }

  /** In a map without repeated keys, the entry at `i` is the one `get`
      reads. */
  lemma {:induction false} GetAt<V>(m: seq<(string, V)>, i: int)
    requires UniqueKeys(m) && 0 <= i < |m|
    ensures Get(m, m[i].0) == Some(m[i].1)
    decreases i
  {
    assert Keys(m) == [m[0].0] + Keys(m[1..]);
    if i > 0 {
      NoDupCons(m[0].0, Keys(m[1..]));
      assert m[1..][i - 1] == m[i];
      KeysIndex(m);
      KeysIndex(m[1..]);
      GetAt(m[1..], i - 1);
    }
  }

  /** The position of a present key. */
  function IndexOfKey<V>(m: seq<(string, V)>, k: string): (i: int)
    requires k in Keys(m)
    ensures 0 <= i < |m| && m[i].0 == k
  {
    assert Keys(m) == [m[0].0] + Keys(m[1..]);
    if m[0].0 == k then 0 else 1 + IndexOfKey(m[1..], k)
  }

  // ---------------------------------------------------------------------
  // `order(...)`: `/^(.*?)\s+((?:a|de)sc)/i` and the `_order` map.

  /** The end of the run of white space that starts at `j`. */
  function SpaceEnd(s: string, j: nat): (r: nat)
    requires j <= |s|
    ensures j <= r <= |s|
    ensures forall i :: j <= i < r ==> IsSpace(s[i])
    ensures r == |s| || !IsSpace(s[r])
    decreases |s| - j
  {
    if j < |s| && IsSpace(s[j]) then SpaceEnd(s, j + 1) else j
  }

  /** `(?:a|de)sc` matched, ignoring ASCII case, at `j`. */
  function DirectionAt(s: string, j: nat): Option<string>
    requires j <= |s|
  {
    if j + 3 <= |s| && Lower(s[j..j + 3]) == "asc" then Some(s[j..j + 3])
    else if j + 4 <= |s| && Lower(s[j..j + 4]) == "desc" then Some(s[j..j + 4])
    else None
  }

  /** The lazy `^(.*?)` tried with the prefix ending at `k`, then at each
      later end; `.` does not cross a line terminator. After the greedy
      `\s+` only the whole run can be followed by a direction, which does
      not start with white space. */
  function MatchFrom(s: string, k: nat): Option<(string, string)>
    requires k <= |s|
    decreases |s| - k
  {
    if k < |s| && IsSpace(s[k]) && DirectionAt(s, SpaceEnd(s, k)).Some? then
      Some((s[..k], DirectionAt(s, SpaceEnd(s, k)).value))
    else if k < |s| && !IsLineTerminator(s[k]) then MatchFrom(s, k + 1)
    else None
  }

  /** `value.match(ORDER_DIR_EXP)`: the column and the direction, as
      written. */
  function OrderMatch(s: string): Option<(string, string)>
  {
    MatchFrom(s, 0)
  }

  /** A direction, as written, of one of the two forms. */
  predicate IsDirection(d: string)
  {
    Lower(d) == "asc" || Lower(d) == "desc"
  }

  lemma {:induction false} MatchFromSound(s: string, k: nat)
    requires k <= |s|
    ensures var r := MatchFrom(s, k);
            r.Some? ==> k <= |r.value.0| < |s| && r.value.0 == s[..|r.value.0|] && IsSpace(s[|r.value.0|]) &&
                        (forall i :: k <= i < |r.value.0| ==> !IsLineTerminator(s[i])) &&
                        DirectionAt(s, SpaceEnd(s, |r.value.0|)) == Some(r.value.1)
    decreases |s| - k
  {
    if !(k < |s| && IsSpace(s[k]) && DirectionAt(s, SpaceEnd(s, k)).Some?) && k < |s| && !IsLineTerminator(s[k]) {
      MatchFromSound(s, k + 1);
    }
  }

  lemma DirectionAtForm(s: string, j: nat)
    requires j <= |s| && DirectionAt(s, j).Some?
    ensures var d := DirectionAt(s, j).value; IsDirection(d) && j + |d| <= |s| && s[j..j + |d|] == d
  {
  }

  /** A match splits the text into a column without line terminators, a
      non-empty run of white space, a direction and whatever follows. */
  lemma OrderMatchSound(s: string)
    ensures var r := OrderMatch(s);
            r.Some? ==> exists w, rest :: s == r.value.0 + w + r.value.1 + rest && w != [] &&
                          (forall i :: 0 <= i < |w| ==> IsSpace(w[i])) &&
                          (forall i :: 0 <= i < |r.value.0| ==> !IsLineTerminator(r.value.0[i])) &&
                          IsDirection(r.value.1)
  {
    var r := OrderMatch(s);
    if r.Some? {
      MatchFromSound(s, 0);
      var c := r.value.0;
      var d := r.value.1;
      var e := SpaceEnd(s, |c|);
      DirectionAtForm(s, e);
      var w := s[|c|..e];
      var rest := s[e + |d|..];
      SplitAt(s, |c|, e, e + |d|);
      assert forall i :: 0 <= i < |c| ==> c[i] == s[i];
      assert forall i :: 0 <= i < |w| ==> w[i] == s[|c| + i];
      assert s == c + w + d + rest;
    }
  }

  /** A text is its four pieces cut at three positions. */
  lemma SplitAt<T>(s: seq<T>, i: int, j: int, k: int)
    requires 0 <= i <= j <= k <= |s|
    ensures s == s[..i] + s[i..j] + s[j..k] + s[k..]
  {
  }

  lemma LowerHead(d: string, x: string)
    requires Lower(d) == x && x != []
    ensures d != [] && LowerChar(d[0]) == x[0]
  {
    assert Lower(d)[0] == LowerChar(d[0]);
  }

  /** A direction written at `j` is the one `DirectionAt` reads. */
  lemma DirectionOf(s: string, j: nat, d: string)
    requires IsDirection(d) && j + |d| <= |s| && s[j..j + |d|] == d
    ensures DirectionAt(s, j) == Some(d)
  {
    if Lower(d) == "asc" {
      assert |d| == 3;
    } else {
      assert |d| == 4;
      LowerHead(d, "desc");
      assert s[j..j + 3][0] == d[0];
      assert Lower(s[j..j + 3])[0] == 'd';
    }
  }

  /** A text of the form column, white space, direction is matched, and
      the lazy prefix is at most that column. */
  lemma OrderMatchComplete(s: string, c: string, w: string, d: string, rest: string)
    requires s == c + w + d + rest && w != [] && IsDirection(d)
    requires forall i :: 0 <= i < |w| ==> IsSpace(w[i])
    requires forall i :: 0 <= i < |c| ==> !IsLineTerminator(c[i])
    ensures OrderMatch(s).Some? && |OrderMatch(s).value.0| <= |c|
  {
    if Lower(d) == "asc" { LowerHead(d, "asc"); } else { LowerHead(d, "desc"); }
    assert !IsSpace(d[0]);
    var e := |c| + |w|;
    assert s[e] == d[0];
    assert forall i :: |c| <= i < e ==> s[i] == w[i - |c|];
    assert SpaceEnd(s, |c|) == e;
    assert s[e..e + |d|] == d;
    DirectionOf(s, e, d);
    assert forall i :: 0 <= i < |c| ==> s[i] == c[i];
    MatchReaches(s, |c|, 0);
  }

  lemma {:induction false} MatchReaches(s: string, n: nat, k: nat)
    requires k <= n < |s| && IsSpace(s[n]) && DirectionAt(s, SpaceEnd(s, n)).Some?
    requires forall i :: 0 <= i < n ==> !IsLineTerminator(s[i])
    ensures MatchFrom(s, k).Some? && |MatchFrom(s, k).value.0| <= n
    decreases n - k
  {
    if k < n && !(IsSpace(s[k]) && DirectionAt(s, SpaceEnd(s, k)).Some?) {
      MatchReaches(s, n, k + 1);
    }
  }

  /** What one `fields` element puts in the `_order` map: an object its
      first key and value, a string its match or itself with `ASC`; any
      other value has no `match` method. */
  function OrderEntry(v: Node): Result<Option<(string, Node)>>
  {
    match v
    case Obj(es) => Ok(if es != [] then Some(es[0]) else None)
    case Str(s) =>
      var m := OrderMatch(s);
      Ok(Some(if m.Some? then (m.value.0, Str(m.value.1)) else (s, Str("ASC"))))
    case _ => Err(TypeError("value.match is not a function"))
  }

  /** The `_order` loop: the map `acc` and the remaining fields. */
  function OrderFrom(acc: Record, fields: seq<Node>): Result<Record>
    decreases |fields|
  {
    if fields == [] then Ok(acc)
    else
      var e :- OrderEntry(fields[0]);
      OrderFrom(if e.Some? then Put(acc, e.value.0, e.value.1) else acc, fields[1..])
  }

  /** The rest-argument convention of `order(...)`, `fields(...)` and
      `group(...)`: `Array.isArray(args[0]) ? args[0] : args`. */
  function RestArgs(fields: seq<Node>): seq<Node>
  {
    if fields != [] && fields[0].List? then fields[0].items else fields
  }

  /** A column name without white space is ordered ascending. */
  lemma PlainColumnAscending(s: string)
    requires forall i :: 0 <= i < |s| ==> !IsSpace(s[i])
    ensures OrderEntry(Str(s)) == Ok(Some((s, Str("ASC"))))
  {
    MatchFromSound(s, 0);
  }

  /** `'name DESC'` gives the column `name` and the direction as written. */
  lemma ColumnDescending(c: string, d: string)
    requires IsDirection(d)
    requires forall i :: 0 <= i < |c| ==> !IsSpace(c[i])
    ensures OrderEntry(Str(c + " " + d)) == Ok(Some((c, Str(d))))
  {
    MatchOfColumn(c, d);
  }

  lemma MatchOfColumn(c: string, d: string)
    requires IsDirection(d)
    requires forall i :: 0 <= i < |c| ==> !IsSpace(c[i])
    ensures OrderMatch(c + " " + d) == Some((c, d))
  {
    var s := c + " " + d;
    assert s == c + " " + d + "";
    OrderMatchComplete(s, c, " ", d, "");
    var r := OrderMatch(s).value;
    MatchFromSound(s, 0);
    assert r.0 == c by {
      assert forall i :: 0 <= i < |c| ==> s[i] == c[i];
      assert |r.0| == |c|;
    }
    assert r.1 == d by {
      if Lower(d) == "asc" { LowerHead(d, "asc"); } else { LowerHead(d, "desc"); }
      assert s[|c| + 1] == d[0];
      assert SpaceEnd(s, |c|) == |c| + 1;
      assert s[|c| + 1..|c| + 1 + |d|] == d;
      DirectionOf(s, |c| + 1, d);
    }
  }

  /** Re-ordering a present column overwrites its direction and keeps its
      position; a new column is appended. */
  lemma OrderOverwrites(order: Record, col: string, dir: Node)
    requires UniqueKeys(order)
    ensures Keys(Assign(order, [(col, dir)])) == if col in Keys(order) then Keys(order) else Keys(order) + [col]
    ensures Get(Assign(order, [(col, dir)]), col) == Some(dir)
    ensures forall k :: k != col ==> Get(Assign(order, [(col, dir)]), k) == Get(order, k)
  {
    assert Assign(order, [(col, dir)]) == Put(order, col, dir);
    PutKeys(order, col, dir);
  }

  // ---------------------------------------------------------------------
  // `with(queries)`.

  /** The `with` loop over the query names: each name is recorded in
      turn, and the first one already recorded stops the loop. */
  function AddCtes(ctes: Record, queries: Record): (Record, Result<()>)
    decreases |queries|
  {
    if queries == [] then (ctes, Ok(()))
    else if queries[0].0 in Keys(ctes) then (ctes, Err(DuplicateCte(queries[0].0)))
    else AddCtes(Put(ctes, queries[0].0, queries[0].1), queries[1..])
  }

  /** New, distinct names are all recorded after the earlier ones. */
  lemma {:induction false} CtesRecorded(ctes: Record, queries: Record)
    requires UniqueKeys(queries)
    requires forall k :: k in Keys(queries) ==> k !in Keys(ctes)
    ensures AddCtes(ctes, queries) == (ctes + queries, Ok(()))
    decreases |queries|
  {
    if queries == [] {
      assert ctes + queries == ctes;
    } else {
      var q := queries[0];
      var rest := queries[1..];
      var next := ctes + [q];
      assert AddCtes(ctes, queries) == AddCtes(next, rest) by {
        assert q.0 in Keys(queries);
        CteFirst(ctes, queries);
      }
      FreshShift(ctes, queries);
      CtesRecorded(next, rest);
      PrefixShift(ctes, queries, |queries|);
      assert queries[..|queries|] == queries && rest[..|queries| - 1] == rest;
    }
  }

  /** The hypotheses of `CtesRecorded` once the first name is recorded. */
  lemma FreshShift(ctes: Record, queries: Record)
    requires UniqueKeys(queries) && queries != []
    requires forall k :: k in Keys(queries) ==> k !in Keys(ctes)
    ensures UniqueKeys(queries[1..])
    ensures forall k :: k in Keys(queries[1..]) ==> k !in Keys(ctes + [queries[0]])
  {
    var q := queries[0];
    var rest := queries[1..];
    assert Keys(queries) == [q.0] + Keys(rest);
    NoDupCons(q.0, Keys(rest));
    KeysSnoc(ctes, q);
  }

  /** A name already recorded stops the call with an error; the names
      before it in the same call stay recorded. */
  lemma {:induction false} CteDuplicate(ctes: Record, queries: Record, i: int)
    requires UniqueKeys(queries) && 0 <= i < |queries|
    requires queries[i].0 in Keys(ctes)
    requires forall j :: 0 <= j < i ==> queries[j].0 !in Keys(ctes)
    ensures AddCtes(ctes, queries) == (ctes + queries[..i], Err(DuplicateCte(queries[i].0)))
    decreases i
  {
    if i == 0 {
      assert ctes + queries[..0] == ctes;
    } else {
      var q := queries[0];
      var rest := queries[1..];
      var next := ctes + [q];
      CteFirst(ctes, queries);
      CteShift(ctes, queries, i);
      CteDuplicate(next, rest, i - 1);
      assert rest[i - 1] == queries[i];
      PrefixShift(ctes, queries, i);
    }
  }

  lemma PrefixShift<T>(a: seq<T>, s: seq<T>, i: int)
    requires 0 < i <= |s|
    ensures (a + [s[0]]) + s[1..][..i - 1] == a + s[..i]
  {
    assert s[..i] == [s[0]] + s[1..][..i - 1];
  }

  /** A new first name is recorded at the end. */
  lemma CteFirst(ctes: Record, queries: Record)
    requires queries != [] && queries[0].0 !in Keys(ctes)
    ensures AddCtes(ctes, queries) == AddCtes(ctes + [queries[0]], queries[1..])
  {
    PutNew(ctes, queries[0].0, queries[0].1);
  }

  /** The hypotheses of `CteDuplicate` once the first name is recorded. */
  lemma CteShift(ctes: Record, queries: Record, i: int)
    requires UniqueKeys(queries) && 0 < i < |queries|
    requires queries[i].0 in Keys(ctes)
    requires forall j :: 0 <= j < i ==> queries[j].0 !in Keys(ctes)
    ensures UniqueKeys(queries[1..])
    ensures queries[1..][i - 1].0 in Keys(ctes + [queries[0]])
    ensures forall j :: 0 <= j < i - 1 ==> queries[1..][j].0 !in Keys(ctes + [queries[0]])
  {
    var q := queries[0];
    var rest := queries[1..];
    assert Keys(queries) == [q.0] + Keys(rest);
    NoDupCons(q.0, Keys(rest));
    KeysIndex(rest);
    KeysSnoc(ctes, q);
    forall j | 0 <= j < i - 1 ensures rest[j].0 !in Keys(ctes + [q]) {
      assert rest[j] == queries[j + 1];
      assert Keys(rest)[j] == rest[j].0;
    }
    assert rest[i - 1] == queries[i];
  }

  lemma {:induction false} KeysSnoc<V>(m: seq<(string, V)>, e: (string, V))
    ensures Keys(m + [e]) == Keys(m) + [e.0]
    decreases |m|
  {
    if m != [] {
      assert (m + [e])[1..] == m[1..] + [e];
      KeysSnoc(m[1..], e);
    }
  }

  /** The `AS` items of `_buildCTE`, in insertion order; `query.toString()`
      throws on a null query. */
  function CteItems(ctes: Record): (r: Result<seq<string>>)
    ensures r.Ok? ==> |r.value| == |ctes|
    decreases |ctes|
  {
    if ctes == [] then Ok([])
    else
      var items :- CteItems(ctes[..|ctes| - 1]);
      var last := ctes[|ctes| - 1];
      if last.1.Null? then Err(TypeError("null has no toString"))
      else Ok(items + [last.0 + " AS (" + JsString(last.1) + ")"])
  }

  /** `_buildCTE()`. */
  function CteSql(ctes: Record): Result<string>
  {
    if ctes == [] then Ok("")
    else
      var items :- CteItems(ctes);
      Ok(Trim(Clause("WITH", Join(items, ", "))) + " ")
  }

  /** The common table expressions render as `WITH a AS (q1), b AS (q2) `. */
  lemma CteForm(ctes: Record)
    requires ctes != [] && CteItems(ctes).Ok?
    ensures CteSql(ctes) == Ok("WITH " + Join(CteItems(ctes).value, ", ") + " ")
  {
    var items := CteItems(ctes).value;
    var j := Join(items, ", ");
    forall x | x in items ensures |x| > 0 && x[|x| - 1] == ')' {
      CteItemsEnd(ctes, x);
    }
    JoinEnds(items, ", ", ')');
    var t := "WITH " + j;
    assert t[0] == 'W' && t[|t| - 1] == ')';
    assert Clause("WITH", j) == " " + t;
    TrimLeadingSpace(t);
  }

  /** The queries render exactly when none of them is null. */
  lemma {:induction false} CteItemsDefined(ctes: Record)
    ensures CteItems(ctes).Ok? <==> forall i :: 0 <= i < |ctes| ==> !ctes[i].1.Null?
    ensures CteItems(ctes).Err? ==> CteItems(ctes) == Err(TypeError("null has no toString"))
    decreases |ctes|
  {
    if ctes != [] {
      var init := ctes[..|ctes| - 1];
      CteItemsDefined(init);
      assert forall i :: 0 <= i < |init| ==> init[i] == ctes[i];
    }
  }

  lemma {:induction false} CteItemsEnd(ctes: Record, x: string)
    requires CteItems(ctes).Ok? && x in CteItems(ctes).value
    ensures |x| > 0 && x[|x| - 1] == ')'
    decreases |ctes|
  {
    var init := CteItems(ctes[..|ctes| - 1]).value;
    if x !in init {
      assert x == ctes[|ctes| - 1].0 + " AS (" + JsString(ctes[|ctes| - 1].1) + ")";
    } else {
      CteItemsEnd(ctes[..|ctes| - 1], x);
    }
  }

  /** A query that fails to render fails the whole prefix list after it. */
  lemma {:induction false} CteErrorStays(ctes: Record, n: nat)
    requires n <= |ctes| && CteItems(ctes[..n]).Err?
    ensures CteItems(ctes) == CteItems(ctes[..n])
    decreases |ctes| - n
  {
    if n < |ctes| {
      assert ctes[..n + 1][..n] == ctes[..n];
      CteErrorStays(ctes, n + 1);
    } else {
      assert ctes[..n] == ctes;
    }
  }

  lemma {:induction false} JoinEnds(xs: seq<string>, sep: string, c: char)
    requires xs != [] && forall x :: x in xs ==> |x| > 0 && x[|x| - 1] == c
    ensures |Join(xs, sep)| > 0 && Join(xs, sep)[|Join(xs, sep)| - 1] == c
    decreases |xs|
  {
    assert xs[0] in xs;
    if |xs| > 1 {
      assert forall x :: x in xs[1..] ==> x in xs;
      JoinEnds(xs[1..], sep, c);
    }
  }

  // ---------------------------------------------------------------------
  // `_buildOrder(aliases)`.

  /** The `name + ' ' + dir` items, in insertion order; a column is a
      string, whose name never fails. */
  function OrderItems(env: Env, order: Record, aliases: map<string, string>): (r: seq<string>)
    ensures |r| == |order|
    decreases |order|
  {
    if order == [] then []
    else
      var last := order[|order| - 1];
      OrderItems(env, order[..|order| - 1], aliases) + [NameStr(env.escape, last.0, aliases) + " " + JsString(last.1)]
  }

  /** `_buildOrder(aliases)`. */
  function OrderSql(env: Env, order: Record, aliases: map<string, string>): string
  {
    Clause("ORDER BY", Join(OrderItems(env, order, aliases), ", "))
  }

  // ---------------------------------------------------------------------
  // What the data statements share.

  /** The states a column value is cast with: the column's name, and the
      statement's schema when one was configured. */
  function ColumnStates(key: string, schema: SchemaRef): States
  {
    States(map[], map[], Some(Str(key)), if schema.NullSchema? then None else Some(schema), None)
  }

  /** `conditions(where, {schemas: {'': schema}})`. */
  function SchemaOptions(schema: SchemaRef): CondOptions
  {
    CondOptions("", ":and", map["" := schema], map[])
  }

  /** A non-empty name never escapes to nothing. */
  lemma NameNonEmpty(esc: string, t: string, aliases: map<string, string>)
    requires t != ""
    ensures NameStr(esc, t, aliases) != ""
  {
    var (p, f) := Undot(t);
    var q := Aliased(aliases, p);
    if q != "" {
      assert |Escape(esc, q) + "." + Escape(esc, f)| > 0;
    } else {
      assert |Escape(esc, t)| > 0;
    }
  }

  /** `names([t])` of one string name gives that name. */
  lemma OneName(env: Env, t: string)
    ensures Names(env, List([Str(t)]), map[]) == Ok(NameStr(env.escape, t, map[]))
  {
    var n := NameStr(env.escape, t, map[]);
    assert EscapeItem(env, Str(t), "", map[]) == Ok([n]);
    assert AddAll([], [n]) == [n];
    assert [Str(t)][1..] == [];
    assert EscapesFrom(env, [], [Str(t)], "", map[]) == Ok([n]);
  }

  /** So does `names(t)`. */
  lemma OneNameStr(env: Env, t: string)
    ensures Names(env, Str(t), map[]) == Ok(NameStr(env.escape, t, map[]))
  {
    OneName(env, t);
    assert Wrap(Str(t)) == Wrap(List([Str(t)]));
  }

  /** No names, no conditions: nothing is rendered. */
  lemma NoNames(env: Env, opts: CondOptions)
    ensures Names(env, List([]), map[]) == Ok("")
    ensures Conditions(env, List([]), opts) == Ok("")
  {
    assert Join([], ", ") == "";
  }

  /** The parts a statement's renderer reads. */
  datatype Common = Common(flags: seq<(string, bool)>, where: seq<Node>, ctes: Record, order: Record, limit: string)

  class Statement {
    var dialect: Option<Dialect>
    var flags: seq<(string, bool)>
    var where: seq<Node>
    var ctes: Record
    var order: Record
    var limit: string
    /** Parts set through `data(name, value)`. */
    var extra: map<string, Node>

    constructor(d: Option<Dialect>)
      ensures dialect == d && flags == [] && where == [] && ctes == [] && order == [] && limit == "" && extra == map[]
    {
      dialect := d;
      flags := [];
      where := [];
      ctes := [];
      order := [];
      limit := "";
      extra := map[];
    }

    function Parts(): Common
      reads this
    {
      Common(flags, where, ctes, order, limit)
    }

    /** `dialect(d)` with a dialect. */
    method SetDialect(d: Dialect)
      modifies this`dialect
      ensures dialect == Some(d)
    {
      dialect := Some(d);
    }

    /** `dialect()`. */
    method GetDialect() returns (r: Result<Dialect>)
      ensures dialect.None? ==> r == Err(MissingDialect)
      ensures dialect.Some? ==> r == Ok(dialect.value)
    {
      if dialect.None? {
        return Err(MissingDialect);
      }
      r := Ok(dialect.value);
    }

    /** `data(...args)`: no argument is refused, two set a part, and one
        (or more than two) read it. */
    method Data(args: seq<Node>) returns (r: Result<Option<Node>>)
      modifies this`extra
      ensures args == [] ==> r == Err(MissingName) && extra == old(extra)
      ensures |args| == 2 ==> extra == old(extra)[JsString(args[0]) := args[1]] && r == Ok(Some(args[1]))
      ensures |args| == 1 || |args| > 2 ==>
                extra == old(extra) &&
                r == Ok(if JsString(args[0]) in extra then Some(extra[JsString(args[0])]) else None)
    {
      if args == [] {
        return Err(MissingName);
      }
      var name := JsString(args[0]);
      if |args| == 2 {
        extra := extra[name := args[1]];
        return Ok(Some(args[1]));
      }
      r := Ok(if name in extra then Some(extra[name]) else None);
    }

    /** `getFlag(flag)`. */
    function GetFlag(flag: string): Option<bool>
      reads this
    {
      Get(flags, flag)
    }

    /** `setFlag(flag, enable = true)`: stores the truthiness of `enable`
        and returns `enable` itself. */
    method SetFlag(flag: string, enable: Option<Node>) returns (r: Node)
      modifies this`flags
      ensures flags == Put(old(flags), flag, Enable(enable))
      ensures GetFlag(flag) == Some(Enable(enable))
      ensures forall f :: f != flag ==> GetFlag(f) == old(GetFlag(f))
      ensures r == if enable.Some? then enable.value else Bool(true)
    {
      var on := enable.None? || Truthy(enable.value);
      flags := Put(flags, flag, on);
      r := if enable.Some? then enable.value else Bool(true);
    }

    /** `where(conditions)`: a truthy argument is added as one group. */
    method Where(conditions: Node)
      modifies this`where
      ensures where == if Truthy(conditions) && Wrap(conditions) != [] then old(where) + [List(Wrap(conditions))] else old(where)
    {
      if !Truthy(conditions) {
        return;
      }
      var args := Wrap(conditions);
      if args != [] {
        where := where + [List(args)];
      }
    }

    /** `with(queries)`. */
    method With(queries: Option<Record>) returns (r: Result<()>)
      modifies this`ctes
      ensures queries.None? ==> ctes == old(ctes) && r == Ok(())
      ensures queries.Some? ==> (ctes, r) == AddCtes(old(ctes), queries.value)
    {
      if queries.None? {
        return Ok(());
      }
      var qs := queries.value;
      var i := 0;
      while i < |qs|
        invariant 0 <= i <= |qs|
        invariant AddCtes(ctes, qs[i..]) == AddCtes(old(ctes), qs)
      {
        var name := qs[i].0;
        if name in Keys(ctes) {
          return Err(DuplicateCte(name));
        }
        ctes := Put(ctes, name, qs[i].1);
        i := i + 1;
      }
      r := Ok(());
    }

    /** `order(...fields)`: the `_order` loop builds a map, whose entries
        then overwrite or extend the recorded order. */
    method Order(fields: seq<Node>) returns (r: Result<()>)
      modifies this`order
      ensures fields == [] || !Truthy(fields[0]) ==> r == Ok(()) && order == old(order)
      ensures fields != [] && Truthy(fields[0]) ==>
                var m := OrderFrom([], RestArgs(fields));
                (m.Err? ==> r == Err(m.error) && order == old(order)) &&
                (m.Ok? ==> r == Ok(()) && order == Assign(old(order), m.value))
    {
      if fields == [] || !Truthy(fields[0]) {
        return Ok(());
      }
      var args := RestArgs(fields);
      var result: Record := [];
      var i := 0;
      while i < |args|
        invariant 0 <= i <= |args|
        invariant OrderFrom(result, args[i..]) == OrderFrom([], args)
      {
        var e := OrderEntry(args[i]);
        if e.Err? {
          return Err(e.error);
        }
        if e.value.Some? {
          result := Put(result, e.value.value.0, e.value.value.1);
        }
        i := i + 1;
      }
      var j := 0;
      while j < |result|
        invariant 0 <= j <= |result|
        invariant Assign(order, result[j..]) == Assign(old(order), result)
      {
        order := Put(order, result[j].0, result[j].1);
        j := j + 1;
      }
      r := Ok(());
    }

    /** `limit(limit, offset)`. */
    method Limit(lim: Node, offset: Node)
      modifies this`limit
      ensures !Truthy(lim) ==> limit == old(limit)
      ensures Truthy(lim) ==> limit == JsString(lim) + (if Truthy(offset) then " OFFSET " + JsString(offset) else "")
    {
      if !Truthy(lim) {
        return;
      }
      limit := if Truthy(offset) then JsString(lim) + " OFFSET " + JsString(offset) else JsString(lim);
    }

    /** `_buildFlags(this._parts.flags)`. */
    method BuildFlags() returns (r: string)
      ensures r == FlagsSql(flags)
    {
      var enabled: seq<string> := [];
      var i := 0;
      while i < |flags|
        invariant 0 <= i <= |flags|
        invariant enabled == Enabled(flags[..i])
      {
        if flags[i].1 {
          enabled := enabled + [flags[i].0];
        }
        assert flags[..i + 1][..i] == flags[..i];
        i := i + 1;
      }
      assert flags[..i] == flags;
      r := if enabled != [] then " " + Join(enabled, " ") else "";
    }

    /** `_buildOrder(aliases)`. */
    method BuildOrder(env: Env, aliases: map<string, string>) returns (r: string)
      ensures r == OrderSql(env, order, aliases)
    {
      var result: seq<string> := [];
      var i := 0;
      while i < |order|
        invariant 0 <= i <= |order|
        invariant result == OrderItems(env, order[..i], aliases)
      {
        assert order[..i + 1][..i] == order[..i];
        var n := NameOf(env, Str(order[i].0), aliases);
        result := result + [n.value + " " + JsString(order[i].1)];
        i := i + 1;
      }
      assert order[..i] == order;
      r := Clause("ORDER BY", Join(result, ", "));
    }

    /** `_buildCTE()`. */
    method BuildCte() returns (r: Result<string>)
      ensures r == CteSql(ctes)
    {
      if ctes == [] {
        return Ok("");
      }
      var queries: seq<string> := [];
      var i := 0;
      while i < |ctes|
        invariant 0 <= i <= |ctes|
        invariant CteItems(ctes[..i]) == Ok(queries)
      {
        assert ctes[..i + 1][..i] == ctes[..i];
        if ctes[i].1.Null? {
          assert CteItems(ctes[..i + 1]).Err?;
          CteErrorStays(ctes, i + 1);
          assert ctes[..|ctes|] == ctes;
          return Err(TypeError("null has no toString"));
        }
        queries := queries + [ctes[i].0 + " AS (" + JsString(ctes[i].1) + ")"];
        i := i + 1;
      }
      assert ctes[..i] == ctes;
      r := Ok(Trim(Clause("WITH", Join(queries, ", "))) + " ");
    }
  }
}
