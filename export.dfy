/**
 * The rest of `grab` (es_export_csv.py:103-132): hits are flattened into
 * records up to the requested total, an empty result is refused, the
 * columns are the sorted union of all record keys, and each record becomes
 * one row in column order with blanks for its missing keys.
 */
module Export {
  import opened Wrappers
  import opened Strings
  import opened Flatten

  /** One search hit: a JSON object with its metadata and `_source`. */
  type Hit = seq<(string, Value)>

  /** The two ways a run ends without a table. Every exception raised while
      the hits are flattened is reported as a connection failure. */
  datatype Failure = ConnectionError | NoResults

  /** The text a failed run exits with. The connection failure names the
      host it tried, and the two failures are told apart by their text. */
  function Message(f: Failure, host: string): (r: string)
    ensures f == ConnectionError ==> CONNECT_PREFIX + host <= r
    ensures f == NoResults <==> r == "Query returned no results"
  {
    match f
    case ConnectionError =>
      CONNECT_PREFIX + host
      + "\". Please ensure that ElasticSearch is running, and your credentials are correct."
    case NoResults => "Query returned no results"
  }

  const CONNECT_PREFIX := "Error connecting to ElasticSearch at \""

  /** The cursor field a sorted search attaches to each hit. */
  const SORT_KEY := "sort"

  /** The field holding the indexed document itself. */
  const SOURCE_KEY := "_source"

  /** The value `csv.DictWriter` writes for a missing key (its `restval`). */
  const BLANK := Str("")

  /** `key in hit`. */
  predicate HasKey(hit: Hit, key: string)
  {
    exists j :: 0 <= j < |hit| && hit[j].0 == key
  }

  /** `hit[key]`, `None` standing for the `KeyError` of a missing key. */
  function Lookup(hit: Hit, key: string): (r: Option<Value>)
    ensures r.Some? <==> HasKey(hit, key)
    ensures r.Some? ==> (key, r.value) in hit
  {
    if hit == [] then None
    else
      var n := |hit| - 1;
      assert forall j :: 0 <= j < n ==> hit[..n][j] == hit[j];
      if hit[n].0 == key then Some(hit[n].1) else Lookup(hit[..n], key)
  }

  /** `del hit[key]`: the hit without its entry for `key`, the rest in
      order (see `ExportProperties.WithoutRemovesOne`). */
  function Without(hit: Hit, key: string): (r: Hit)
    ensures forall e :: e in r <==> e in hit && e.0 != key
    ensures !HasKey(hit, key) ==> r == hit
  {
    if hit == [] then []
    else
      var n := |hit| - 1;
      assert hit == hit[..n] + [hit[n]];
      assert HasKey(hit[..n], key) ==> HasKey(hit, key);
      Without(hit[..n], key) + (if hit[n].0 == key then [] else [hit[n]])
  }

  /** The record one hit contributes: after dropping `sort`, either the
      flattened `_source` (only-source mode) or the whole flattened hit.
      A missing or non-object `_source` fails as Python does. */
  function Extract(hit: Hit, onlySource: bool): Option<Record>
  {
    var h := if HasKey(hit, SORT_KEY) then Without(hit, SORT_KEY) else hit;
    if onlySource then
      match Lookup(h, SOURCE_KEY)
      case Some(Map(source)) => FlattenDoc(source)
      case _ => None
    else FlattenDoc(h)
  }

  /** The records of a run, given what each hit it looks at yields: all of
      them in order, or `None` as soon as one hit fails, since a single
      exception aborts the whole loop. */
  function Gather(results: seq<Option<Record>>): (r: Option<seq<Record>>)
    ensures r.Some? <==> forall i :: 0 <= i < |results| ==> results[i].Some?
    ensures r.Some? ==> |r.value| == |results|
    ensures r.Some? ==> forall i :: 0 <= i < |results| ==> results[i] == Some(r.value[i])
  {
    if results == [] then Some([])
    else
      var n := |results| - 1;
      assert forall i :: 0 <= i < n ==> results[..n][i] == results[i];
      match Gather(results[..n])
      case None => None
      case Some(front) =>
        match results[n]
        case None => None
        case Some(rec) => Some(front + [rec])
  }

  /** How many hits the loop looks at: it stops at `total` (none at all when
      `total` is not positive) or when the hits run out. */
  function Bound(n: nat, total: int): nat
  {
    if total <= 0 then 0 else if total < n then total else n
  }

  /** What each hit the loop looks at yields. */
  function Extracted(hits: seq<Hit>, total: int, onlySource: bool): seq<Option<Record>>
  {
    seq(Bound(|hits|, total), i requires 0 <= i < Bound(|hits|, total) => Extract(hits[i], onlySource))
  }

  /** The records a run collects from its hits. */
  function Collected(hits: seq<Hit>, total: int, onlySource: bool): Option<seq<Record>>
  {
    Gather(Extracted(hits, total, onlySource))
  }

  /** One pass of the collection loop's body (es_export_csv.py:108-113):
      drop the `sort` cursor, then flatten `_source` or the whole hit. This
      is the step-by-step form of `Extract`, proved equal to it; what the
      step promises is stated about `Extract` by
      `ExportProperties.OnlySourceFlattensSource` and
      `ExportProperties.FullRecordHasNoSortColumn`. */
  method RecordOf(hit: Hit, onlySource: bool) returns (rec: Option<Record>)
    ensures rec == Extract(hit, onlySource)
  {
    var h := hit;
    if HasKey(h, SORT_KEY) {
      h := Without(h, SORT_KEY);
    }
    if onlySource {
      rec := match Lookup(h, SOURCE_KEY)
        case Some(Map(source)) => FlattenDoc(source)
        case _ => None;
    } else {
      rec := FlattenDoc(h);
    }
  }

  /** The collection loop of es_export_csv.py:104-113. */
  method CollectRecords(hits: seq<Hit>, total: int, onlySource: bool) returns (records: Option<seq<Record>>)
    ensures records == Collected(hits, total, onlySource)
    ensures records.Some? ==> |records.value| <= |hits| && (|records.value| <= total || |records.value| == 0)
    ensures records.Some? ==>
              forall i :: 0 <= i < |records.value| ==> Extract(hits[i], onlySource) == Some(records.value[i])
  {
    var recs: seq<Record> := [];
    var i := 0;
    while i < |hits|
      invariant i <= Bound(|hits|, total) && |recs| == i
      invariant forall j :: 0 <= j < i ==> Extract(hits[j], onlySource) == Some(recs[j])
    {
      if i >= total {
        break;
      }
      var rec := RecordOf(hits[i], onlySource);
      if rec.None? {
        assert Extracted(hits, total, onlySource)[i].None?;
        return None;
      }
      recs := recs + [rec.value];
      i := i + 1;
    }
    ghost var seen := Extracted(hits, total, onlySource);
    assert i == |seen|;
    assert forall j :: 0 <= j < i ==> seen[j] == Some(recs[j]);
    records := Some(recs);
    assert Collected(hits, total, onlySource).value == recs;
  }

  /** Every key of every record. */
  function AllKeys(records: seq<Record>): set<string>
  {
    if records == [] then {}
    else AllKeys(records[..|records| - 1]) + records[|records| - 1].Keys
  }

  /** The `field_names` loop of es_export_csv.py:122-125. */
  method ColumnUnion(records: seq<Record>) returns (fieldNames: set<string>)
    ensures fieldNames == AllKeys(records)
  {
    fieldNames := {};
    var i := 0;
    while i < |records|
      invariant i <= |records|
      invariant fieldNames == AllKeys(records[..i])
    {
      var keys := records[i].Keys;
      while keys != {}
        invariant keys <= records[i].Keys
        invariant fieldNames == AllKeys(records[..i]) + (records[i].Keys - keys)
        decreases keys
      {
        var key :| key in keys;
        fieldNames := fieldNames + {key};
        keys := keys - {key};
      }
      assert records[..i + 1][..i] == records[..i];
      i := i + 1;
    }
    assert records[..i] == records;
  }

  /** Python's `sorted` on a set of strings: its elements in increasing
      code-point order. */
  method SortedColumns(names: set<string>) returns (header: seq<string>)
    ensures StrictlySorted(header) && Elements(header) == names
  {
    header := [];
    var rest := names;
    while rest != {}
      invariant StrictlySorted(header)
      invariant Elements(header) + rest == names && Elements(header) !! rest
      decreases rest
    {
      var name :| name in rest;
      header := Insert(header, name);
      rest := rest - {name};
    }
  }

  /** `header` is the column list a run writes for these records. */
  predicate IsHeader(header: seq<string>, records: seq<Record>)
  {
    StrictlySorted(header) && Elements(header) == AllKeys(records)
  }

  /** The line `writeheader` writes: each column's name. */
  function HeaderRow(header: seq<string>): seq<Scalar>
  {
    seq(|header|, j requires 0 <= j < |header| => Str(header[j]))
  }

  /** The line `csv.DictWriter` writes for one record: its values in column
      order, `restval` for the keys it lacks. */
  function Row(record: Record, header: seq<string>): seq<Scalar>
  {
    seq(|header|, j requires 0 <= j < |header| => if header[j] in record then record[header[j]] else BLANK)
  }

  /** The lines written: the header unless suppressed, then one per record. */
  function Render(header: seq<string>, records: seq<Record>, noHeader: bool): seq<seq<Scalar>>
  {
    (if noHeader then [] else [HeaderRow(header)])
    + seq(|records|, i requires 0 <= i < |records| => Row(records[i], header))
  }

  /** The table of a successful run: its columns and the lines written. */
  datatype Table = Table(fieldNames: seq<string>, lines: seq<seq<Scalar>>)

  /** `grab` from the moment the hits arrive (es_export_csv.py:103-132). */
  method Grab(hits: seq<Hit>, total: int, onlySource: bool, noHeader: bool) returns (out: Result<Table, Failure>)
    ensures out == Failure(ConnectionError) <==> Collected(hits, total, onlySource).None?
    ensures out == Failure(NoResults) <==> Collected(hits, total, onlySource) == Some([])
    ensures out.Success? ==>
              Collected(hits, total, onlySource).Some? &&
              IsHeader(out.value.fieldNames, Collected(hits, total, onlySource).value) &&
              out.value.lines == Render(out.value.fieldNames, Collected(hits, total, onlySource).value, noHeader)
  {
    var records := CollectRecords(hits, total, onlySource);
    if records.None? {
      return Failure(ConnectionError);
    }
    if |records.value| == 0 {
      return Failure(NoResults);
    }
    var fieldNames := ColumnUnion(records.value);
    var header := SortedColumns(fieldNames);
    out := Success(Table(header, Render(header, records.value, noHeader)));
  }
}
