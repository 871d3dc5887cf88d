/**
 * Documents as they arrive from the search cluster, and the nested
 * `flatten` helper of `grab` (es_export_csv.py:84-101) that turns one of
 * them into a flat record keyed by dotted paths.
 */
module Flatten {
  import opened Wrappers
  import opened Strings

  /** A JSON scalar. Numbers are integers here (floating point is not modelled). */
  datatype Scalar = Str(s: string) | Int(i: int) | Bool(b: bool) | Null

  /** A JSON value: a scalar, an object (its entries in iteration order) or an array. */
  datatype Value =
    | Leaf(scalar: Scalar)
    | Map(entries: seq<(string, Value)>)
    | List(items: seq<Value>)

  /** The `(key, value)` pairs that `flatten` returns. */
  type Pair = (string, Scalar)

  /** What `dict(...)` builds from those pairs: a flat record. Its values are
      scalars by type: no record holds an object or an array. */
  type Record = map<string, Scalar>

  /** `'.'.join(path)`. */
  function Dotted(path: seq<string>): string
  {
    Join(path, ".")
  }

  predicate AllStrings(items: seq<Value>)
  {
    forall j :: 0 <= j < |items| ==> items[j].Leaf? && items[j].scalar.Str?
  }

  function Texts(items: seq<Value>): seq<string>
    requires AllStrings(items)
  {
    seq(|items|, j requires 0 <= j < |items| => items[j].scalar.s)
  }

  /** The one cell a non-object value becomes: a scalar is kept unchanged, a
      list becomes `','.join(list)`, which fails unless every element is a
      string (Python raises `TypeError`). */
  function Cell(v: Value): (c: Option<Scalar>)
    requires !v.Map?
    ensures v.Leaf? ==> c == Some(v.scalar)
    ensures v.List? ==> (c.Some? <==> AllStrings(v.items))
  {
    match v
    case Leaf(s) => Some(s)
    case List(items) => if AllStrings(items) then Some(Str(Join(Texts(items), ","))) else None
  }

  /** `flatten(d, path)` on the entries of `d` from index `i` on; `None`
      stands for the exception a non-string list element raises. */
  function FlattenFrom(es: seq<(string, Value)>, path: seq<string>, i: nat): (r: Option<seq<Pair>>)
    requires i <= |es|
    ensures r.Some? && |path| > 0 ==>
              forall m :: 0 <= m < |r.value| ==> Dotted(path) + "." <= r.value[m].0
    decreases Map(es), |es| - i
  {
    if i == |es| then Some([])
    else
      var key := es[i].0;
      var head :=
        if es[i].1.Map? then FlattenFrom(es[i].1.entries, path + [key], 0)
        else match Cell(es[i].1)
          case None => None
          case Some(c) => Some([(Dotted(path + [key]), c)]);
      var tail := FlattenFrom(es, path, i + 1);
      if head.None? || tail.None? then None
      else
        NestsUnder(path, key);
        Some(head.value + tail.value)
  }

  /** A key one level below `path` begins with `path`'s dotted key and a '.'. */
  lemma NestsUnder(path: seq<string>, key: string)
    ensures |path| > 0 ==> Dotted(path) + "." <= Dotted(path + [key])
  {
    if |path| > 0 {
      JoinAppend(path, key, ".");
    }
  }

  /** `flatten(d)` with the default empty path. */
  function FlattenPairs(es: seq<(string, Value)>): Option<seq<Pair>>
  {
    FlattenFrom(es, [], 0)
  }

  /** A Python dict never repeats a key. */
  predicate DistinctKeys(es: seq<(string, Value)>)
  {
    forall i, j :: 0 <= i < j < |es| ==> es[i].0 != es[j].0
  }

  /** Every object, at every depth, has distinct keys and no key holds a
      '.': then each dotted key names exactly one path. */
  predicate UnambiguousKeys(es: seq<(string, Value)>)
    decreases Map(es)
  {
    DistinctKeys(es) &&
    forall j :: 0 <= j < |es| ==>
      '.' !in es[j].0 && (es[j].1.Map? ==> UnambiguousKeys(es[j].1.entries))
  }

  /** Entry `i` is the last one carrying its key, so its value survives in a dict. */
  predicate LastWithKey(pairs: seq<Pair>, i: nat)
    requires i < |pairs|
  {
    forall j :: i < j < |pairs| ==> pairs[j].0 != pairs[i].0
  }

  /** The keys the pairs mention. */
  function KeysOf(pairs: seq<Pair>): set<string>
  {
    set p | p in pairs :: p.0
  }

  /** `dict(pairs)`: every key of the pairs, each with the value of its last pair. */
  function ToRecord(pairs: seq<Pair>): (r: Record)
    ensures r.Keys == KeysOf(pairs)
    ensures forall i :: 0 <= i < |pairs| && LastWithKey(pairs, i) ==> r[pairs[i].0] == pairs[i].1
    ensures forall k :: k in r ==> (k, r[k]) in pairs
  {
    if pairs == [] then map[]
    else
      var n := |pairs| - 1;
      var prev := ToRecord(pairs[..n]);
      assert pairs == pairs[..n] + [pairs[n]];
      assert KeysOf(pairs) == KeysOf(pairs[..n]) + {pairs[n].0};
      var r := prev[pairs[n].0 := pairs[n].1];
      forall i | 0 <= i < n && LastWithKey(pairs, i)
        ensures r[pairs[i].0] == pairs[i].1
      {
        assert pairs[..n][i] == pairs[i];
        assert LastWithKey(pairs[..n], i);
      }
      r
  }

  /** `dict(flatten(d))`. */
  function FlattenDoc(es: seq<(string, Value)>): Option<Record>
  {
    match FlattenPairs(es)
    case None => None
    case Some(pairs) => Some(ToRecord(pairs))
  }

  /** `x` is stored in the document `es` under the key path `path`. */
  ghost predicate At(es: seq<(string, Value)>, path: seq<string>, x: Value)
    decreases path, 1
  {
    |path| > 0 && exists j :: 0 <= j < |es| && Via(es, j, path, x)
  }

  /** Entry `j` of `es` leads, along `path`, to `x`. */
  ghost predicate Via(es: seq<(string, Value)>, j: nat, path: seq<string>, x: Value)
    requires j < |es|
    decreases path, 0
  {
    |path| > 0 && es[j].0 == path[0] &&
    (if |path| == 1 then es[j].1 == x
     else es[j].1.Map? && At(es[j].1.entries, path[1..], x))
  }
}
