// The JavaScript values the library walks: condition trees, field lists,
// column descriptors and default values.

module Nodes {

  import opened Wrappers
  import opened Text
  import opened Ordered

  /** A JavaScript value. `Obj` is a plain object with its own enumerable
      properties in order; `Raw` is any other object (a nested statement, a
      date) represented by the text its `toString()` gives. */
  datatype Node =
    | Null
    | Bool(b: bool)
    | Int(i: int)
    | Str(s: string)
    | List(items: seq<Node>)
    | Obj(entries: seq<(string, Node)>)
    | Raw(text: string)

  /** A plain object's properties. */
  type Record = seq<(string, Node)>

  /** JavaScript truthiness; every array and object is truthy. */
  predicate Truthy(v: Node)
  {
    match v
    case Null => false
    case Bool(b) => b
    case Int(i) => i != 0
    case Str(s) => s != ""
    case _ => true
  }

  /** `Array.isArray(v) ? v : [v]`. */
  function Wrap(v: Node): seq<Node>
  {
    if v.List? then v.items else [v]
  }

  /** `String(v)`. */
  function JsString(v: Node): string
    decreases v, 0
  {
    match v
    case Null => "null"
    case Bool(b) => if b then "true" else "false"
    case Int(i) => IntToString(i)
    case Str(s) => s
    case List(xs) => Join(seq(|xs|, k requires 0 <= k < |xs| => ElementString(xs[k])), ",")
    case Obj(_) => "[object Object]"
    case Raw(t) => t
  }

  /** How `Array.prototype.join` writes one element: null becomes ''. */
  function ElementString(v: Node): string
    decreases v, 1
  {
    if v.Null? then "" else JsString(v)
  }

  /** The first own property of an object, or the element at index 0 of an
      array (key '0'), as `Object.keys(v)[0]` and `v[key]` see them. */
  function FirstEntry(v: Node): Option<(string, Node)>
  {
    match v
    case Obj(es) => if es == [] then None else Some(es[0])
    case List(xs) => if xs == [] then None else Some(("0", xs[0]))
    case _ => None
  }

  /** The own enumerable properties `Object.assign` copies from `v`. */
  function OwnEntries(v: Node): Record
  {
    match v
    case Obj(es) => es
    case List(xs) => seq(|xs|, k requires 0 <= k < |xs| => (IntToString(k), xs[k]))
    case Str(s) => seq(|s|, k requires 0 <= k < |s| => (IntToString(k), Str([s[k]])))
    case _ => []
  }

  // ---------------------------------------------------------------------
  // A size measure for the mutually recursive walkers.

  function Size(v: Node): (r: nat)
    ensures r >= 1
    decreases v, 1, 0
  {
    match v
    case List(xs) => 1 + SizeSeq(xs)
    case Obj(es) => 1 + SizeFields(v, 0)
    case _ => 1
  }

  function SizeSeq(xs: seq<Node>): nat
    decreases xs
  {
    if xs == [] then 0 else Size(xs[0]) + SizeSeq(xs[1..])
  }

  function SizeFields(v: Node, k: nat): nat
    requires v.Obj?
    decreases v, 0, |v.entries| - k
  {
    if k >= |v.entries| then 0 else Size(v.entries[k].1) + SizeFields(v, k + 1)
  }

  lemma WrapSize(v: Node)
    ensures SizeSeq(Wrap(v)) <= Size(v)
    ensures v.List? ==> SizeSeq(Wrap(v)) < Size(v)
  {
    if !v.List? {
      assert SizeSeq([v]) == Size(v) + SizeSeq([]);
    }
  }

  lemma SingletonSize(v: Node)
    ensures SizeSeq([v]) == Size(v)
  {
    assert SizeSeq([v]) == Size(v) + SizeSeq([]);
  }

  lemma FirstEntrySize(v: Node)
    requires FirstEntry(v).Some?
    ensures Size(FirstEntry(v).value.1) < Size(v)
  {
    if v.Obj? {
      assert SizeFields(v, 0) == Size(v.entries[0].1) + SizeFields(v, 1);
    }
  }

  lemma HeadSize(xs: seq<Node>)
    requires xs != []
    ensures Size(xs[0]) <= SizeSeq(xs) && SizeSeq(xs[1..]) < SizeSeq(xs)
  {
  }
}
