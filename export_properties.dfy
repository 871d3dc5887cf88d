/**
 * What a run of `grab` guarantees about its table (es_export_csv.py:104-132):
 * the columns do not depend on the order of the records, the header is the
 * one sorted arrangement of them, every line reads back to its record with
 * blanks for the columns it lacks, and the metadata handling of the two
 * extraction modes.
 */
module ExportProperties {
  import opened Wrappers
  import opened Strings
  import opened Flatten
  import opened FlattenProperties
  import opened Export

  /** A column is a key of at least one record, and every such key is a column. */
  lemma {:induction false} AllKeysMembers(records: seq<Record>)
    ensures forall k :: k in AllKeys(records) <==> exists i :: 0 <= i < |records| && k in records[i]
  {
    if records != [] {
      var n := |records| - 1;
      AllKeysMembers(records[..n]);
      assert forall i :: 0 <= i < n ==> records[..n][i] == records[i];
    }
  }

  /** The column set is the same for any reordering of the records. */
  lemma ColumnsIgnoreOrder(a: seq<Record>, b: seq<Record>)
    requires multiset(a) == multiset(b)
    ensures AllKeys(a) == AllKeys(b)
  {
    AllKeysMembers(a);
    AllKeysMembers(b);
    forall k | k in AllKeys(a) ensures k in AllKeys(b) {
      var i :| 0 <= i < |a| && k in a[i];
      assert a[i] in multiset(b);
      var j :| 0 <= j < |b| && b[j] == a[i];
    }
    forall k | k in AllKeys(b) ensures k in AllKeys(a) {
      var j :| 0 <= j < |b| && k in b[j];
      assert b[j] in multiset(a);
      var i :| 0 <= i < |a| && a[i] == b[j];
    }
  }

  /** The header is the same for any reordering of the records: there is
      only one sorted arrangement of the column set. */
  lemma HeaderIgnoresOrder(h1: seq<string>, a: seq<Record>, h2: seq<string>, b: seq<Record>)
    requires multiset(a) == multiset(b)
    requires IsHeader(h1, a) && IsHeader(h2, b)
    ensures h1 == h2
  {
    ColumnsIgnoreOrder(a, b);
    SortedUnique(h1, h2);
  }

  /** Two tables a run may produce from the same records are identical. */
  lemma TableDetermined(t1: Table, t2: Table, records: seq<Record>, noHeader: bool)
    requires IsHeader(t1.fieldNames, records) && t1.lines == Render(t1.fieldNames, records, noHeader)
    requires IsHeader(t2.fieldNames, records) && t2.lines == Render(t2.fieldNames, records, noHeader)
    ensures t1 == t2
  {
    SortedUnique(t1.fieldNames, t2.fieldNames);
  }

  /** `dict(zip(header, row))`: a written line read back against its header. */
  function ReadRow(header: seq<string>, row: seq<Scalar>): map<string, Scalar>
    requires |row| == |header|
  {
    if header == [] then map[]
    else
      var n := |header| - 1;
      ReadRow(header[..n], row[..n])[header[n] := row[n]]
  }

  /** A record seen through the given columns, blank where it has no value. */
  function Padded(record: Record, columns: set<string>): map<string, Scalar>
  {
    map k | k in columns :: if k in record then record[k] else BLANK
  }

  /** Reading a record's line back against the header gives, column by
      column, the record's value or a blank where the key is missing. */
  lemma {:induction false} RowRoundTrip(record: Record, header: seq<string>)
    ensures ReadRow(header, Row(record, header)) == Padded(record, Elements(header))
  {
    if header != [] {
      var n := |header| - 1;
      RowRoundTrip(record, header[..n]);
      assert Row(record, header)[..n] == Row(record, header[..n]);
      assert header == header[..n] + [header[n]];
      assert Elements(header) == Elements(header[..n]) + {header[n]};
    }
  }

  /** The lines of a table: the header row first unless suppressed, then one
      line per record in the records' order, each reading back to that record
      padded with blanks to the full column set. Nothing is lost: every value
      of every record is in its line under its own key. */
  lemma RenderLines(header: seq<string>, records: seq<Record>, noHeader: bool)
    requires IsHeader(header, records)
    ensures var skip := if noHeader then 0 else 1;
            && |Render(header, records, noHeader)| == |records| + skip
            && (!noHeader ==> Render(header, records, noHeader)[0] == HeaderRow(header))
            && forall i :: 0 <= i < |records| ==>
                 Render(header, records, noHeader)[i + skip] == Row(records[i], header) &&
                 |Render(header, records, noHeader)[i + skip]| == |header| &&
                 ReadRow(header, Render(header, records, noHeader)[i + skip]) == Padded(records[i], AllKeys(records))
  {
    forall i | 0 <= i < |records|
      ensures ReadRow(header, Row(records[i], header)) == Padded(records[i], AllKeys(records))
    {
      RowRoundTrip(records[i], header);
    }
  }

  /** Records {"a": 1} and {"b": 2} give the columns a, b and the lines
      (a, b), (1, blank), (blank, 2). */
  lemma MissingFieldExample(header: seq<string>)
    requires IsHeader(header, [map["a" := Int(1)], map["b" := Int(2)]])
    ensures header == ["a", "b"]
    ensures Render(header, [map["a" := Int(1)], map["b" := Int(2)]], false)
            == [[Str("a"), Str("b")], [Int(1), BLANK], [BLANK, Int(2)]]
  {
    var records := [map["a" := Int(1)], map["b" := Int(2)]];
    assert records[..1] == [map["a" := Int(1)]];
    assert AllKeys(records) == {"a", "b"};
    assert Below("a", "b");
    assert Elements(["a", "b"]) == {"a", "b"};
    SortedUnique(header, ["a", "b"]);
    assert HeaderRow(header) == [Str("a"), Str("b")];
    assert Row(records[0], header) == [Int(1), BLANK];
    assert Row(records[1], header) == [BLANK, Int(2)];
  }

  lemma {:induction false} LookupWithout(hit: Hit, key: string, other: string)
    requires key != other
    ensures Lookup(Without(hit, key), other) == Lookup(hit, other)
  {
    if hit != [] {
      var n := |hit| - 1;
      LookupWithout(hit[..n], key, other);
      var w := Without(hit, key);
      var front := Without(hit[..n], key);
      if hit[n].0 == key {
        assert w == front;
      } else {
        assert w == front + [hit[n]];
        assert w[..|w| - 1] == front;
      }
    }
  }

  /** `del` on a dict removes exactly the one entry for the key and keeps
      the others in their order, which is the order `flatten` walks them. */
  lemma WithoutRemovesOne(hit: Hit, key: string)
    requires DistinctKeys(hit) && HasKey(hit, key)
    ensures exists j :: 0 <= j < |hit| && hit[j].0 == key && Without(hit, key) == hit[..j] + hit[j + 1..]
  {
    var j :| 0 <= j < |hit| && hit[j].0 == key;
    WithoutAt(hit, key, j);
  }

  /** The same removal, with the position of the entry named. */
  lemma {:induction false} WithoutAt(hit: Hit, key: string, j: nat)
    requires DistinctKeys(hit) && j < |hit| && hit[j].0 == key
    ensures Without(hit, key) == hit[..j] + hit[j + 1..]
  {
    var n := |hit| - 1;
    var front := hit[..n];
    assert hit == front + [hit[n]];
    if j == n {
      assert !HasKey(front, key) by {
        forall i | 0 <= i < |front| ensures front[i].0 != key {
          assert hit[i].0 != hit[n].0;
        }
      }
      assert Without(hit, key) == front;
    } else {
      assert hit[n].0 != key;
      assert DistinctKeys(front);
      WithoutAt(front, key, j);
      assert Without(hit, key) == front[..j] + front[j + 1..] + [hit[n]];
      DropAppended(front, hit[n], j);
    }
  }

  /** Cutting entry j out of a sequence with one more entry at its end. */
  lemma DropAppended(front: Hit, last: (string, Value), j: nat)
    requires j < |front|
    ensures (front + [last])[..j] + (front + [last])[j + 1..] == front[..j] + front[j + 1..] + [last]
  {
    var s := front + [last];
    assert s[..j] == front[..j];
    assert s[j + 1..] == front[j + 1..] + [last];
  }

  /** In only-source mode the record is the flattened `_source` object and
      nothing else; a hit without one, or with a non-object one, fails. */
  lemma OnlySourceFlattensSource(hit: Hit)
    ensures Extract(hit, true) == match Lookup(hit, SOURCE_KEY)
                                  case Some(Map(source)) => FlattenDoc(source)
                                  case _ => None
  {
    if HasKey(hit, SORT_KEY) {
      LookupWithout(hit, SORT_KEY, SOURCE_KEY);
    }
  }

  /** A key that no entry of a document has, and that holds no '.', is not
      a column of the flattened document. */
  lemma AbsentKeyNoColumn(es: seq<(string, Value)>, key: string)
    requires forall e :: e in es ==> e.0 != key
    requires '.' !in key
    requires FlattenDoc(es).Some?
    ensures key !in FlattenDoc(es).value
  {
    var pairs := FlattenPairs(es).value;
    if key in FlattenDoc(es).value {
      assert key in KeysOf(pairs);
      var p :| p in pairs && p.0 == key;
      FlattenSound(es, p.0, p.1);
      assert false;
    }
  }

  /** Column `k` is the dotted path of a scalar or list of `hit` reached
      through an entry other than `skipped`. */
  ghost predicate ColumnVia(hit: Hit, k: string, skipped: string)
  {
    exists path, x :: At(hit, path, x) && !x.Map? && path[0] != skipped && k == Dotted(path)
  }

  /** The columns of a document made of some of `hit`'s entries, none of
      them keyed `skipped`, all come from `hit` through other entries. */
  lemma ColumnsAvoid(es: seq<(string, Value)>, hit: Hit, skipped: string)
    requires forall e :: e in es ==> e in hit && e.0 != skipped
    requires FlattenDoc(es).Some?
    ensures forall k :: k in FlattenDoc(es).value ==> ColumnVia(hit, k, skipped)
  {
    forall k | k in FlattenDoc(es).value ensures ColumnVia(hit, k, skipped) {
      RecordColumnOrigin(es, k);
      var path, x :| At(es, path, x) && !x.Map? && k == Dotted(path);
      AtWithin(es, hit, path, x);
    }
  }

  /** In full-record mode the `sort` entry is gone before flattening: every
      column is the dotted path of a scalar or list of the hit reached
      through some entry other than `sort`, so no column is named `sort`. */
  lemma FullRecordHasNoSortColumn(hit: Hit)
    requires Extract(hit, false).Some?
    ensures SORT_KEY !in Extract(hit, false).value
    ensures forall k :: k in Extract(hit, false).value ==> ColumnVia(hit, k, SORT_KEY)
  {
    var h := if HasKey(hit, SORT_KEY) then Without(hit, SORT_KEY) else hit;
    assert Extract(hit, false) == FlattenDoc(h);
    forall e | e in h ensures e in hit && e.0 != SORT_KEY {
      if !HasKey(hit, SORT_KEY) {
        var j :| 0 <= j < |hit| && hit[j] == e;
      }
    }
    assert '.' !in SORT_KEY;
    AbsentKeyNoColumn(h, SORT_KEY);
    ColumnsAvoid(h, hit, SORT_KEY);
  }

  /** Without a positive total, or without hits, no record is collected and
      the run stops with "Query returned no results". */
  lemma NothingCollected(hits: seq<Hit>, total: int, onlySource: bool)
    requires total <= 0 || hits == []
    ensures Collected(hits, total, onlySource) == Some([])
  {
  }
}
