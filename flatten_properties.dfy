/**
 * What `flatten` (es_export_csv.py:84-101) guarantees: every scalar or list
 * in a document turns up under its dotted path, nothing else turns up, the
 * only failure is a list with a non-string element, an empty object adds
 * nothing, and a document without nesting comes back unchanged.
 */
module FlattenProperties {
  import opened Wrappers
  import opened Strings
  import opened Flatten

  lemma {:induction false} CompleteFrom(es: seq<(string, Value)>, prefix: seq<string>, i: nat, j: nat,
                                        path: seq<string>, x: Value)
    requires i <= j < |es|
    requires FlattenFrom(es, prefix, i).Some?
    requires Via(es, j, path, x) && !x.Map?
    ensures Cell(x).Some?
    ensures (Dotted(prefix + path), Cell(x).value) in FlattenFrom(es, prefix, i).value
    decreases |path|, |es| - i
  {
    var key := es[i].0;
    if i < j {
      CompleteFrom(es, prefix, i + 1, j, path, x);
    } else if |path| == 1 {
      assert prefix + [key] == prefix + path;
    } else {
      var sub := es[i].1.entries;
      assert Via(es, i, path, x);
      assert At(sub, path[1..], x);
      var k :| 0 <= k < |sub| && Via(sub, k, path[1..], x);
      CompleteFrom(sub, prefix + [key], 0, k, path[1..], x);
      assert prefix + [key] + path[1..] == prefix + path;
    }
  }

  /** A scalar or list stored under keys k1, ..., kn is emitted under the
      key "k1.….kn": a scalar unchanged, a list joined with ','. The dotted
      key is therefore a column of the record. */
  lemma FlattenComplete(es: seq<(string, Value)>, path: seq<string>, x: Value)
    requires FlattenPairs(es).Some?
    requires At(es, path, x) && !x.Map?
    ensures Cell(x).Some?
    ensures (Dotted(path), Cell(x).value) in FlattenPairs(es).value
    ensures FlattenDoc(es).Some? && Dotted(path) in FlattenDoc(es).value
  {
    var j :| 0 <= j < |es| && Via(es, j, path, x);
    CompleteFrom(es, [], 0, j, path, x);
    assert [] + path == path;
  }

  lemma {:induction false} SoundFrom(es: seq<(string, Value)>, prefix: seq<string>, i: nat, k: string, c: Scalar)
    requires i <= |es|
    requires FlattenFrom(es, prefix, i).Some?
    requires (k, c) in FlattenFrom(es, prefix, i).value
    ensures exists path, x :: At(es, path, x) && !x.Map? && k == Dotted(prefix + path) && Cell(x) == Some(c)
    decreases Map(es), |es| - i
  {
    var key := es[i].0;
    var tail := FlattenFrom(es, prefix, i + 1);
    if tail.Some? && (k, c) in tail.value {
      SoundFrom(es, prefix, i + 1, k, c);
    } else if es[i].1.Map? {
      var sub := es[i].1.entries;
      SoundFrom(sub, prefix + [key], 0, k, c);
      var rest, x :| At(sub, rest, x) && !x.Map? && k == Dotted(prefix + [key] + rest) && Cell(x) == Some(c);
      var path := [key] + rest;
      assert path[1..] == rest;
      assert Via(es, i, path, x);
      assert prefix + [key] + rest == prefix + path;
    } else {
      assert Via(es, i, [key], es[i].1);
    }
  }

  /** Every pair `flatten` emits comes from a scalar or list of the document,
      stored under the path the key spells: no object or list is ever emitted
      as a value, and no key is made up. */
  lemma FlattenSound(es: seq<(string, Value)>, k: string, c: Scalar)
    requires FlattenPairs(es).Some?
    requires (k, c) in FlattenPairs(es).value
    ensures exists path, x :: At(es, path, x) && !x.Map? && k == Dotted(path) && Cell(x) == Some(c)
  {
    SoundFrom(es, [], 0, k, c);
    forall path: seq<string> ensures [] + path == path { }
  }

  lemma {:induction false} FailsFrom(es: seq<(string, Value)>, prefix: seq<string>, i: nat)
    requires i <= |es|
    requires FlattenFrom(es, prefix, i).None?
    ensures exists path, x :: At(es, path, x) && x.List? && !AllStrings(x.items)
    decreases Map(es), |es| - i
  {
    var key := es[i].0;
    if FlattenFrom(es, prefix, i + 1).None? {
      FailsFrom(es, prefix, i + 1);
    } else if es[i].1.Map? {
      var sub := es[i].1.entries;
      FailsFrom(sub, prefix + [key], 0);
      var rest, x :| At(sub, rest, x) && x.List? && !AllStrings(x.items);
      var path := [key] + rest;
      assert path[1..] == rest;
      assert Via(es, i, path, x);
      assert At(es, path, x);
    } else {
      assert Via(es, i, [key], es[i].1);
      assert At(es, [key], es[i].1);
    }
  }

  /** Flattening fails exactly when some list in the document holds an
      element that is not a string (where Python's `','.join` raises). */
  lemma FlattenFails(es: seq<(string, Value)>)
    ensures FlattenPairs(es).None? <==> exists path, x :: At(es, path, x) && x.List? && !AllStrings(x.items)
  {
    if FlattenPairs(es).None? {
      FailsFrom(es, [], 0);
    } else if exists path, x :: At(es, path, x) && x.List? && !AllStrings(x.items) {
      var path, x :| At(es, path, x) && x.List? && !AllStrings(x.items);
      FlattenComplete(es, path, x);
      assert false;
    }
  }

  lemma {:induction false} SuffixOnly(es: seq<(string, Value)>, prefix: seq<string>, i: nat,
                                      es2: seq<(string, Value)>, i2: nat)
    requires i <= |es| && i2 <= |es2|
    requires es[i..] == es2[i2..]
    ensures FlattenFrom(es, prefix, i) == FlattenFrom(es2, prefix, i2)
    decreases |es| - i
  {
    if i < |es| {
      assert es[i] == es[i..][0] == es2[i2];
      assert es[i + 1..] == es[i..][1..] == es2[i2 + 1..];
      SuffixOnly(es, prefix, i + 1, es2, i2 + 1);
    }
  }

  lemma {:induction false} DropFrom(es: seq<(string, Value)>, prefix: seq<string>, i: nat, j: nat)
    requires j <= i < |es|
    requires es[i].1 == Map([])
    ensures FlattenFrom(es, prefix, j) == FlattenFrom(es[..i] + es[i + 1..], prefix, j)
    decreases i - j
  {
    var dropped := es[..i] + es[i + 1..];
    if j == i {
      assert dropped[i..] == es[i + 1..];
      SuffixOnly(es, prefix, i + 1, dropped, i);
      var tail := FlattenFrom(es, prefix, i + 1);
      if tail.Some? {
        assert [] + tail.value == tail.value;
      }
    } else {
      assert dropped[j] == es[j];
      DropFrom(es, prefix, i, j + 1);
    }
  }

  /** The entry reached by following positions `idx` down through nested
      objects holds an empty object. */
  predicate EmptyAt(es: seq<(string, Value)>, idx: seq<nat>)
    decreases idx
  {
    |idx| > 0 && idx[0] < |es| &&
    (if |idx| == 1 then es[idx[0]].1 == Map([])
     else es[idx[0]].1.Map? && EmptyAt(es[idx[0]].1.entries, idx[1..]))
  }

  /** The document with that empty object's entry removed. */
  function DropEmpty(es: seq<(string, Value)>, idx: seq<nat>): (r: seq<(string, Value)>)
    requires EmptyAt(es, idx)
    ensures |idx| == 1 ==> r == es[..idx[0]] + es[idx[0] + 1..]
    ensures |idx| > 1 ==> |r| == |es| && r[idx[0]].0 == es[idx[0]].0 && r[idx[0]].1.Map?
    ensures |idx| > 1 ==> forall m :: 0 <= m < |es| && m != idx[0] ==> r[m] == es[m]
    decreases idx
  {
    var i := idx[0];
    if |idx| == 1 then es[..i] + es[i + 1..]
    else es[i := (es[i].0, Map(DropEmpty(es[i].1.entries, idx[1..])))]
  }

  /** Swapping one nested object for another that flattens the same way
      under its path leaves the whole flattening unchanged. */
  lemma {:induction false} ReplaceFrom(es: seq<(string, Value)>, es2: seq<(string, Value)>, prefix: seq<string>,
                                       i: nat, j: nat)
    requires i < |es| == |es2| && j <= |es|
    requires forall m :: 0 <= m < |es| && m != i ==> es2[m] == es[m]
    requires es2[i].0 == es[i].0 && es[i].1.Map? && es2[i].1.Map?
    requires FlattenFrom(es[i].1.entries, prefix + [es[i].0], 0) == FlattenFrom(es2[i].1.entries, prefix + [es[i].0], 0)
    ensures FlattenFrom(es, prefix, j) == FlattenFrom(es2, prefix, j)
    decreases |es| - j
  {
    if j < |es| {
      ReplaceFrom(es, es2, prefix, i, j + 1);
    }
  }

  lemma {:induction false} DropEmptyFrom(es: seq<(string, Value)>, prefix: seq<string>, idx: seq<nat>)
    requires EmptyAt(es, idx)
    ensures FlattenFrom(es, prefix, 0) == FlattenFrom(DropEmpty(es, idx), prefix, 0)
    decreases idx
  {
    var i := idx[0];
    if |idx| == 1 {
      DropFrom(es, prefix, i, 0);
    } else {
      var key := es[i].0;
      DropEmptyFrom(es[i].1.entries, prefix + [key], idx[1..]);
      ReplaceFrom(es, DropEmpty(es, idx), prefix, i, 0);
    }
  }

  /** An object with no entries, at any depth, contributes no pair at all:
      removing its entry from the document does not change the result. */
  lemma EmptyObjectAddsNothing(es: seq<(string, Value)>, idx: seq<nat>)
    requires EmptyAt(es, idx)
    ensures FlattenPairs(es) == FlattenPairs(DropEmpty(es, idx))
  {
    DropEmptyFrom(es, [], idx);
  }

  predicate Flat(es: seq<(string, Value)>)
  {
    forall j :: 0 <= j < |es| ==> es[j].1.Leaf?
  }

  lemma {:induction false} LeavesFrom(es: seq<(string, Value)>, i: nat)
    requires i <= |es| && Flat(es)
    ensures FlattenFrom(es, [], i).Some?
    ensures |FlattenFrom(es, [], i).value| == |es| - i
    ensures forall m :: 0 <= m < |es| - i ==> FlattenFrom(es, [], i).value[m] == (es[i + m].0, es[i + m].1.scalar)
    decreases |es| - i
  {
    if i < |es| {
      LeavesFrom(es, i + 1);
      assert [] + [es[i].0] == [es[i].0];
    }
  }

  lemma FlatPairs(es: seq<(string, Value)>)
    requires Flat(es)
    ensures FlattenPairs(es).Some? && |FlattenPairs(es).value| == |es|
    ensures forall j :: 0 <= j < |es| ==> FlattenPairs(es).value[j] == (es[j].0, es[j].1.scalar)
  {
    LeavesFrom(es, 0);
    forall j | 0 <= j < |es| ensures FlattenPairs(es).value[j] == (es[j].0, es[j].1.scalar) {
      assert 0 + j == j;
    }
  }

  /** With no key repeated, `dict(pairs)` holds every pair. */
  lemma DistinctPairsRecord(pairs: seq<Pair>)
    requires forall i, j :: 0 <= i < j < |pairs| ==> pairs[i].0 != pairs[j].0
    ensures forall j :: 0 <= j < |pairs| ==> ToRecord(pairs)[pairs[j].0] == pairs[j].1
  {
    assert forall j :: 0 <= j < |pairs| ==> LastWithKey(pairs, j);
  }

  /** A document with no nested objects and no lists flattens to a record
      with exactly its keys, each holding its original value. */
  lemma FlatDocumentUnchanged(es: seq<(string, Value)>)
    requires Flat(es) && DistinctKeys(es)
    ensures FlattenDoc(es).Some?
    ensures FlattenDoc(es).value.Keys == set j | 0 <= j < |es| :: es[j].0
    ensures forall j :: 0 <= j < |es| ==> FlattenDoc(es).value[es[j].0] == es[j].1.scalar
  {
    FlatPairs(es);
    var pairs := FlattenPairs(es).value;
    DistinctPairsRecord(pairs);
    var keys := set j | 0 <= j < |es| :: es[j].0;
    forall k | k in KeysOf(pairs) ensures k in keys {
      var p :| p in pairs && p.0 == k;
      var j :| 0 <= j < |pairs| && pairs[j] == p;
    }
    forall k | k in keys ensures k in KeysOf(pairs) {
      var j :| 0 <= j < |es| && es[j].0 == k;
      assert pairs[j] in pairs;
    }
  }

  /** A list of strings becomes one string that splits back, on ',', into
      the original elements when none of them contains a comma. */
  lemma ListJoinRoundTrip(items: seq<Value>)
    requires |items| >= 1 && AllStrings(items)
    requires forall j :: 0 <= j < |items| ==> ',' !in items[j].scalar.s
    ensures Cell(List(items)).Some? && Cell(List(items)).value.Str?
    ensures Split(Cell(List(items)).value.s, ',') == Texts(items)
  {
    SplitJoin(Texts(items), ',');
  }

  /** Distinct key paths give distinct dotted keys as long as no key
      contains a '.'; two columns can only collide through such a key. */
  lemma DottedInjective(p: seq<string>, q: seq<string>)
    requires |p| >= 1 && |q| >= 1
    requires forall i :: 0 <= i < |p| ==> '.' !in p[i]
    requires forall i :: 0 <= i < |q| ==> '.' !in q[i]
    requires Dotted(p) == Dotted(q)
    ensures p == q
  {
    SplitJoin(p, '.');
    SplitJoin(q, '.');
  }

  /** A scalar or list nested at least one level deep becomes a column
      whose name contains a '.'. */
  lemma NestedKeyHasDot(es: seq<(string, Value)>, path: seq<string>, x: Value)
    requires FlattenDoc(es).Some?
    requires At(es, path, x) && !x.Map? && |path| >= 2
    ensures Dotted(path) in FlattenDoc(es).value && '.' in Dotted(path)
  {
    FlattenComplete(es, path, x);
    var key := Dotted(path);
    assert key == path[0] + "." + Dotted(path[1..]);
    assert key[|path[0]|] == '.';
  }

  /** Every column of a flattened document is the dotted path of a scalar
      or list of the document, and holds that value's cell. */
  lemma RecordColumnOrigin(es: seq<(string, Value)>, k: string)
    requires FlattenDoc(es).Some? && k in FlattenDoc(es).value
    ensures exists path, x :: At(es, path, x) && !x.Map? && k == Dotted(path) && Cell(x) == Some(FlattenDoc(es).value[k])
  {
    var c := FlattenDoc(es).value[k];
    assert (k, c) in FlattenPairs(es).value;
    FlattenSound(es, k, c);
  }

  /** A path depends only on the entry it starts at: it survives into any
      document holding that entry, and it starts with that entry's key. */
  lemma AtWithin(es: seq<(string, Value)>, es2: seq<(string, Value)>, path: seq<string>, x: Value)
    requires forall e :: e in es ==> e in es2
    requires At(es, path, x)
    ensures At(es2, path, x)
    ensures exists e :: e in es && e.0 == path[0]
  {
    var j :| 0 <= j < |es| && Via(es, j, path, x);
    assert es[j] in es2;
    var k :| 0 <= k < |es2| && es2[k] == es[j];
    assert Via(es2, k, path, x);
  }

  /** With unambiguous keys, no key along a stored path holds a '.'. */
  lemma {:induction false} PathSegments(es: seq<(string, Value)>, path: seq<string>, x: Value)
    requires UnambiguousKeys(es) && At(es, path, x)
    ensures forall i :: 0 <= i < |path| ==> '.' !in path[i]
    decreases path
  {
    var j :| 0 <= j < |es| && Via(es, j, path, x);
    if |path| > 1 {
      PathSegments(es[j].1.entries, path[1..], x);
      forall i | 1 <= i < |path| ensures '.' !in path[i] {
        assert path[i] == path[1..][i - 1];
      }
    }
  }

  /** With distinct keys in every object, a path leads to one value only. */
  lemma {:induction false} AtUnique(es: seq<(string, Value)>, path: seq<string>, x: Value, y: Value)
    requires UnambiguousKeys(es) && At(es, path, x) && At(es, path, y)
    ensures x == y
    decreases path
  {
    var j :| 0 <= j < |es| && Via(es, j, path, x);
    var k :| 0 <= k < |es| && Via(es, k, path, y);
    assert j == k by {
      assert es[j].0 == es[k].0;
    }
    if |path| > 1 {
      AtUnique(es[j].1.entries, path[1..], x, y);
    }
  }

  /** The value a record holds under a dotted key is the cell of the one
      scalar or list stored under that path, whenever every object has
      distinct, dot-free keys: then no other leaf can write to the column. */
  lemma FlattenRecordValue(es: seq<(string, Value)>, path: seq<string>, x: Value)
    requires UnambiguousKeys(es) && FlattenDoc(es).Some?
    requires At(es, path, x) && !x.Map?
    ensures Dotted(path) in FlattenDoc(es).value
    ensures Cell(x).Some? && FlattenDoc(es).value[Dotted(path)] == Cell(x).value
  {
    FlattenComplete(es, path, x);
    var rec := FlattenDoc(es).value;
    var k := Dotted(path);
    var c := rec[k];
    assert (k, c) in FlattenPairs(es).value;
    FlattenSound(es, k, c);
    var path', y :| At(es, path', y) && !y.Map? && k == Dotted(path') && Cell(y) == Some(c);
    PathSegments(es, path, x);
    PathSegments(es, path', y);
    DottedInjective(path, path');
    AtUnique(es, path, x, y);
  }

  /** {"a": {"b": 1, "c": {"d": 2}}} flattens to {"a.b": 1, "a.c.d": 2}. */
  lemma NestedExample()
    ensures FlattenDoc([("a", Map([("b", Leaf(Int(1))), ("c", Map([("d", Leaf(Int(2)))]))]))])
            == Some(map["a.b" := Int(1), "a.c.d" := Int(2)])
  {
    var c := [("d", Leaf(Int(2)))];
    var a := [("b", Leaf(Int(1))), ("c", Map(c))];
    var doc := [("a", Map(a))];
    assert Dotted(["a", "c", "d"]) == "a.c.d";
    assert Dotted(["a", "b"]) == "a.b";
    assert ["a", "c"] + ["d"] == ["a", "c", "d"];
    assert ["a"] + ["b"] == ["a", "b"];
    assert ["a"] + ["c"] == ["a", "c"];
    assert [] + ["a"] == ["a"];
    assert FlattenFrom(c, ["a", "c"], 1) == Some([]);
    assert Cell(Leaf(Int(2))) == Some(Int(2));
    assert Cell(Leaf(Int(1))) == Some(Int(1));
    assert [("a.c.d", Int(2))] + [] == [("a.c.d", Int(2))];
    assert FlattenFrom(c, ["a", "c"], 0) == Some([("a.c.d", Int(2))]);
    assert FlattenFrom(a, ["a"], 2) == Some([]);
    assert FlattenFrom(a, ["a"], 1) == Some([("a.c.d", Int(2))]);
    assert [("a.b", Int(1))] + [("a.c.d", Int(2))] == [("a.b", Int(1)), ("a.c.d", Int(2))];
    assert FlattenFrom(a, ["a"], 0) == Some([("a.b", Int(1)), ("a.c.d", Int(2))]);
    assert FlattenFrom(doc, [], 1) == Some([]);
    assert [("a.b", Int(1)), ("a.c.d", Int(2))] + [] == [("a.b", Int(1)), ("a.c.d", Int(2))];
    assert FlattenFrom(doc, [], 0) == Some([("a.b", Int(1)), ("a.c.d", Int(2))]);
  }

  /** {"a.b": 1, "a": {"b": 2}} flattens to {"a.b": 2}: when two paths
      spell the same dotted key, the value emitted last wins. */
  lemma CollisionExample()
    ensures FlattenDoc([("a.b", Leaf(Int(1))), ("a", Map([("b", Leaf(Int(2)))]))])
            == Some(map["a.b" := Int(2)])
  {
    var inner := [("b", Leaf(Int(2)))];
    var doc := [("a.b", Leaf(Int(1))), ("a", Map(inner))];
    assert Dotted(["a", "b"]) == "a.b";
    assert Dotted(["a.b"]) == "a.b";
    assert [] + ["a.b"] == ["a.b"];
    assert [] + ["a"] == ["a"];
    assert ["a"] + ["b"] == ["a", "b"];
    assert Cell(Leaf(Int(1))) == Some(Int(1));
    assert Cell(Leaf(Int(2))) == Some(Int(2));
    assert FlattenFrom(inner, ["a"], 1) == Some([]);
    assert [("a.b", Int(2))] + [] == [("a.b", Int(2))];
    assert FlattenFrom(inner, ["a"], 0) == Some([("a.b", Int(2))]);
    assert FlattenFrom(doc, [], 2) == Some([]);
    assert FlattenFrom(doc, [], 1) == Some([("a.b", Int(2))]);
    assert [("a.b", Int(1))] + [("a.b", Int(2))] == [("a.b", Int(1)), ("a.b", Int(2))];
    var pairs := [("a.b", Int(1)), ("a.b", Int(2))];
    assert FlattenPairs(doc) == Some(pairs);
    assert LastWithKey(pairs, 1);
    var rec := ToRecord(pairs);
    assert rec.Keys == {"a.b"} by {
      assert KeysOf(pairs) == {"a.b"};
    }
    assert rec["a.b"] == Int(2);
    assert rec == map["a.b" := Int(2)];
    assert FlattenDoc(doc) == Some(rec);
  }

  /** An empty list and a list holding only "" both become the cell "":
      the joined text cannot tell them apart. */
  lemma EmptyListCells()
    ensures Cell(List([])) == Some(Str(""))
    ensures Cell(List([Leaf(Str(""))])) == Some(Str(""))
  {
    assert Texts([Leaf(Str(""))]) == [""];
  }

  /** {"tags": ["x", "y", "z"]} flattens to {"tags": "x,y,z"}. */
  lemma ListExample()
    ensures FlattenDoc([("tags", List([Leaf(Str("x")), Leaf(Str("y")), Leaf(Str("z"))]))])
            == Some(map["tags" := Str("x,y,z")])
  {
    var items := [Leaf(Str("x")), Leaf(Str("y")), Leaf(Str("z"))];
    assert Texts(items) == ["x", "y", "z"];
    assert Join(["x", "y", "z"], ",") == "x,y,z";
    assert Dotted(["tags"]) == "tags";
    assert [] + ["tags"] == ["tags"];
    assert Cell(List(items)) == Some(Str("x,y,z"));
    assert FlattenFrom([("tags", List(items))], [], 1) == Some([]);
    assert [("tags", Str("x,y,z"))] + [] == [("tags", Str("x,y,z"))];
    assert FlattenPairs([("tags", List(items))]) == Some([("tags", Str("x,y,z"))]);
  }
}
