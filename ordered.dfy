// Insertion-ordered maps (a JavaScript `Map`, or a plain object whose
// keys are not integer-like) as sequences of entries, and the ordered
// set that `Map.set(k, k)` builds when the same key may come twice.

module Ordered {

  import opened Wrappers

  function Keys<K, V>(m: seq<(K, V)>): (r: seq<K>)
    ensures |r| == |m|
  {
    if m == [] then [] else [m[0].0] + Keys(m[1..])
  }

  lemma {:induction false} KeysIndex<K, V>(m: seq<(K, V)>)
    ensures forall i :: 0 <= i < |m| ==> Keys(m)[i] == m[i].0
    decreases |m|
  {
    if m != [] {
      KeysIndex(m[1..]);
      assert Keys(m) == [m[0].0] + Keys(m[1..]);
    }
  }

  predicate UniqueKeys<K(==), V>(m: seq<(K, V)>)
  {
    NoDup(Keys(m))
  }

  lemma NoDupSnoc<T>(s: seq<T>, x: T)
    requires NoDup(s) && x !in s
    ensures NoDup(s + [x])
  {
  }

  lemma NoDupCons<T>(x: T, s: seq<T>)
    ensures NoDup([x] + s) <==> x !in s && NoDup(s)
  {
    if NoDup([x] + s) {
      forall i, j | 0 <= i < j < |s| ensures s[i] != s[j] {
        assert ([x] + s)[i + 1] == s[i] && ([x] + s)[j + 1] == s[j];
      }
      forall i | 0 <= i < |s| ensures s[i] != x {
        assert ([x] + s)[i + 1] == s[i] && ([x] + s)[0] == x;
      }
    }
  }

  /** `m.get(k)`: the value of the first entry for `k`. */
  function Get<K(==), V>(m: seq<(K, V)>, k: K): (r: Option<V>)
    ensures r.None? <==> k !in Keys(m)
  {
    if m == [] then None
    else if m[0].0 == k then Some(m[0].1)
    else
      assert Keys(m) == [m[0].0] + Keys(m[1..]);
      Get(m[1..], k)
  }

  /** `m.set(k, v)`: an existing key keeps its position and takes the new
      value; a new key is appended. */
  function Put<K(==,!new), V>(m: seq<(K, V)>, k: K, v: V): (r: seq<(K, V)>)
    ensures Get(r, k) == Some(v)
    ensures forall k' :: k' != k ==> Get(r, k') == Get(m, k')
  {
    if m == [] then [(k, v)]
    else if m[0].0 == k then [(k, v)] + m[1..]
    else [m[0]] + Put(m[1..], k, v)
  }

  /** Putting keeps the order of the keys, appending a new key at the end. */
  lemma {:induction false} PutKeys<K(!new), V>(m: seq<(K, V)>, k: K, v: V)
    ensures Keys(Put(m, k, v)) == if k in Keys(m) then Keys(m) else Keys(m) + [k]
  {
    if m != [] && m[0].0 != k {
      PutKeys(m[1..], k, v);
      assert Keys(m) == [m[0].0] + Keys(m[1..]);
    }
  }

  lemma PutUnique<K(!new), V>(m: seq<(K, V)>, k: K, v: V)
    requires UniqueKeys(m)
    ensures UniqueKeys(Put(m, k, v))
  {
    PutKeys(m, k, v);
    if k !in Keys(m) {
      NoDupSnoc(Keys(m), k);
    }
  }

  /** `Object.assign(target, source)` for plain objects: every entry of
      `source`, in order, is put into `target`. */
  function Assign<K(==,!new), V>(target: seq<(K, V)>, source: seq<(K, V)>): (r: seq<(K, V)>)
    ensures UniqueKeys(source) ==> forall k :: Get(r, k) == if Get(source, k).Some? then Get(source, k) else Get(target, k)
    decreases |source|
  {
    if source == [] then target
    else
      var r := Assign(Put(target, source[0].0, source[0].1), source[1..]);
      NoDupCons(source[0].0, Keys(source[1..]));
      r
  }

  /** The keys of the assigned object: those of `target`, then the new
      keys of `source` in order. */
  lemma {:induction false} AssignKeys<K(!new), V>(target: seq<(K, V)>, source: seq<(K, V)>)
    ensures Keys(Assign(target, source)) == AddAll(Keys(target), Keys(source))
    decreases |source|
  {
    if source != [] {
      var t2 := Put(target, source[0].0, source[0].1);
      AssignKeys(t2, source[1..]);
      PutKeys(target, source[0].0, source[0].1);
      assert Keys(source) == [source[0].0] + Keys(source[1..]);
    }
  }

  lemma {:induction false} AssignUnique<K(!new), V>(target: seq<(K, V)>, source: seq<(K, V)>)
    requires UniqueKeys(target)
    ensures UniqueKeys(Assign(target, source))
    decreases |source|
  {
    if source != [] {
      PutUnique(target, source[0].0, source[0].1);
      AssignUnique(Put(target, source[0].0, source[0].1), source[1..]);
    }
  }

  /** Two objects with the same keys in the same order and the same values
      are the same object. */
  lemma {:induction false} RecordsEqual<K(!new), V>(a: seq<(K, V)>, b: seq<(K, V)>)
    requires UniqueKeys(a) && UniqueKeys(b) && Keys(a) == Keys(b)
    requires forall k :: Get(a, k) == Get(b, k)
    ensures a == b
    decreases |a|
  {
    if a != [] {
      assert Keys(a) == [a[0].0] + Keys(a[1..]) && Keys(b) == [b[0].0] + Keys(b[1..]);
      NoDupCons(a[0].0, Keys(a[1..]));
      NoDupCons(b[0].0, Keys(b[1..]));
      assert Get(a, a[0].0) == Some(a[0].1) && Get(b, a[0].0) == Some(b[0].1);
      forall k ensures Get(a[1..], k) == Get(b[1..], k) {
        if k != a[0].0 {
          assert Get(a, k) == Get(a[1..], k) && Get(b, k) == Get(b[1..], k);
        }
      }
      assert Keys(a[1..]) == Keys(a)[1..] == Keys(b)[1..] == Keys(b[1..]);
      RecordsEqual(a[1..], b[1..]);
      assert a == [a[0]] + a[1..] && b == [b[0]] + b[1..];
    }
  }

  /** Assigning an object over defaults a second time changes nothing. */
  lemma AssignAgain<K(!new), V>(defaults: seq<(K, V)>, x: seq<(K, V)>)
    requires UniqueKeys(defaults) && UniqueKeys(x)
    ensures Assign(defaults, Assign(defaults, x)) == Assign(defaults, x)
  {
    var y := Assign(defaults, x);
    var z := Assign(defaults, y);
    AssignUnique(defaults, x);
    AssignUnique(defaults, y);
    AssignAgainKeys(defaults, x);
    forall k ensures Get(z, k) == Get(y, k) {
      if Get(y, k).None? {
        assert Get(defaults, k).None?;
      }
    }
    RecordsEqual(z, y);
  }

  lemma AssignAgainKeys<K(!new), V>(defaults: seq<(K, V)>, x: seq<(K, V)>)
    requires UniqueKeys(defaults)
    ensures Keys(Assign(defaults, Assign(defaults, x))) == Keys(Assign(defaults, x))
  {
    var y := Assign(defaults, x);
    AssignKeys(defaults, x);
    AssignKeys(defaults, y);
    AddAllAgain(Keys(defaults), Keys(x));
  }

  /** Adding what was added already adds nothing. */
  lemma AddAllAgain<T>(d: seq<T>, xs: seq<T>)
    requires NoDup(d)
    ensures AddAll(d, AddAll(d, xs)) == AddAll(d, xs)
  {
    var ys := AddAll(d, xs);
    AddAllElements(d, xs);
    var rest := ys[|d|..];
    assert ys == d + rest;
    AddAllAppend(d, d, rest);
    AddAllPresent(d, d);
    AddAllFresh(d, rest);
  }

  lemma {:induction false} AddAllPresent<T>(acc: seq<T>, xs: seq<T>)
    requires forall x :: x in xs ==> x in acc
    ensures AddAll(acc, xs) == acc
    decreases |xs|
  {
    if xs != [] {
      AddAllPresent(acc, xs[1..]);
    }
  }

  /** Adding elements that are new and distinct appends them. */
  lemma {:induction false} AddAllFresh<T>(acc: seq<T>, xs: seq<T>)
    requires NoDup(acc + xs)
    ensures AddAll(acc, xs) == acc + xs
    decreases |xs|
  {
    if xs != [] {
      assert (acc + xs)[|acc|] == xs[0];
      forall i | 0 <= i < |acc| ensures acc[i] != xs[0] {
        assert (acc + xs)[i] == acc[i];
      }
      assert acc + xs == (acc + [xs[0]]) + xs[1..];
      AddAllFresh(acc + [xs[0]], xs[1..]);
    }
  }

  // ---------------------------------------------------------------------
  /** `delete m[k]`: every entry for `k` is dropped. */
  function Remove<K(==,!new), V>(m: seq<(K, V)>, k: K): (r: seq<(K, V)>)
    ensures forall k' :: Get(r, k') == if k' == k then None else Get(m, k')
    ensures |r| <= |m|
  {
    if m == [] then []
    else if m[0].0 == k then Remove(m[1..], k)
    else [m[0]] + Remove(m[1..], k)
  }

  /** The elements of `xs` other than `t`, in order. */
  function Without<T(==,!new)>(xs: seq<T>, t: T): (r: seq<T>)
    ensures forall x :: x in r <==> x in xs && x != t
  {
    if xs == [] then [] else (if xs[0] == t then [] else [xs[0]]) + Without(xs[1..], t)
  }

  /** Adding to a set that holds `t` and nothing else of a duplicate-free
      `xs` appends the elements of `xs` other than `t`. */
  lemma {:induction false} AddAllOthers<T(!new)>(acc: seq<T>, xs: seq<T>, t: T)
    requires t in acc && NoDup(xs)
    requires forall x :: x in xs && x in acc ==> x == t
    ensures AddAll(acc, xs) == acc + Without(xs, t)
    decreases |xs|
  {
    if xs != [] {
      var x := xs[0];
      assert forall y :: y in xs[1..] ==> y != x by {
        forall y | y in xs[1..] ensures y != x {
          var j :| 0 <= j < |xs[1..]| && xs[1..][j] == y;
          assert xs[j + 1] == y;
        }
      }
      if x == t {
        AddAllOthers(acc, xs[1..], t);
      } else {
        AddAllOthers(acc + [x], xs[1..], t);
        assert acc + [x] + Without(xs[1..], t) == acc + ([x] + Without(xs[1..], t));
      }
    }
  }

  // The ordered set built by `sql.set(name, name)` for each name in turn.

  predicate NoDup<T(==)>(s: seq<T>)
  {
    forall i, j :: 0 <= i < j < |s| ==> s[i] != s[j]
  }

  function Add<T(==)>(acc: seq<T>, x: T): seq<T>
  {
    if x in acc then acc else acc + [x]
  }

  /** Adds every element of `xs`, in order, to the ordered set `acc`. */
  function AddAll<T(==)>(acc: seq<T>, xs: seq<T>): seq<T>
    decreases |xs|
  {
    if xs == [] then acc else AddAll(Add(acc, xs[0]), xs[1..])
  }

  /** The distinct elements of `xs` in the order of their first occurrence. */
  function Dedup<T(==)>(xs: seq<T>): seq<T>
  {
    AddAll([], xs)
  }

  lemma {:induction false} AddAllAppend<T>(acc: seq<T>, a: seq<T>, b: seq<T>)
    ensures AddAll(acc, a + b) == AddAll(AddAll(acc, a), b)
    decreases |a|
  {
    if a == [] {
      assert a + b == b;
    } else {
      assert (a + b)[0] == a[0];
      assert (a + b)[1..] == a[1..] + b;
      AddAllAppend(Add(acc, a[0]), a[1..], b);
    }
  }

  lemma {:induction false} AddAllElements<T>(acc: seq<T>, xs: seq<T>)
    ensures forall x :: x in AddAll(acc, xs) <==> x in acc || x in xs
    ensures NoDup(acc) ==> NoDup(AddAll(acc, xs))
    ensures |acc| <= |AddAll(acc, xs)| && AddAll(acc, xs)[..|acc|] == acc
    decreases |xs|
  {
    if xs != [] {
      AddAllElements(Add(acc, xs[0]), xs[1..]);
      assert forall x :: x in xs <==> x == xs[0] || x in xs[1..] by {
        assert xs == [xs[0]] + xs[1..];
      }
    }
  }

  lemma AddAllSnoc<T>(acc: seq<T>, xs: seq<T>, x: T)
    ensures AddAll(acc, xs + [x]) == Add(AddAll(acc, xs), x)
  {
    AddAllAppend(acc, xs, [x]);
  }

  /** Adding the distinct elements of `b` is the same as adding `b`. */
  lemma {:induction false} AddAllDedup<T>(acc: seq<T>, b: seq<T>)
    ensures AddAll(acc, Dedup(b)) == AddAll(acc, b)
    decreases |b|
  {
    if b != [] {
      var b', x := b[..|b| - 1], b[|b| - 1];
      assert b == b' + [x];
      AddAllSnoc([], b', x);
      AddAllDedup(acc, b');
      AddAllSnoc(acc, b', x);
      AddAllElements([], b');
      AddAllElements(acc, b');
      if x in Dedup(b') {
        assert Dedup(b) == Dedup(b');
      } else {
        assert Dedup(b) == Dedup(b') + [x];
        AddAllSnoc(acc, Dedup(b'), x);
      }
    }
  }

  /** The deduplication keeps the first occurrence of each element: every
      element of `xs` is kept, none twice, in first-occurrence order. */
  lemma DedupFacts<T>(xs: seq<T>)
    ensures NoDup(Dedup(xs))
    ensures forall x :: x in Dedup(xs) <==> x in xs
  {
    AddAllElements([], xs);
  }
}
