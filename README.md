# es-export-csv: the document-to-table pipeline, modelled in Dafny

`es_export_csv.py` exports search hits from an Elasticsearch index to a CSV
file. Its `grab` function does three things once the hits arrive:

1. It flattens each hit into a record. The nested `flatten` helper walks a JSON
   object. A nested object recurses with its key added to the path. A list
   becomes one comma-joined string. Any other value is kept unchanged under
   the dotted key `'.'.join(path + [key])`. `dict(...)` turns the resulting
   pairs into a record, and when two pairs share a key the last one wins.
2. It collects records from the hits in order. It stops after `total` hits.
   It deletes the `sort` cursor from each hit. It then flattens either the
   hit's `_source` (only-source mode) or the whole hit (full-record mode).
3. It refuses an empty result with "Query returned no results". The columns
   are the sorted union of all record keys. The header line is written
   unless `--no-header` is given. Each record becomes one line in column
   order, with `''` (the `restval` of `csv.DictWriter`) for missing keys.

The command-line flag `--only-source` is declared with `store_false` and a
default of `True`. So `only_source` is true unless the flag is passed, and
passing the flag selects full-record mode. The model takes the mode as the
boolean `onlySource` and does not model the flag.

Layout:

- `wrappers.dfy`: `Option` and `Result`.
- `strings.dfy` (module `Strings`): Python's `str.join`, its inverse
  `split`, and Python's code-point ordering of `str` values (`Below`). Dafny's
  own `<` on sequences means "proper prefix", so it cannot be used here.
  Also strictly sorted sequences, with insertion and uniqueness.
- `flatten.dfy` (module `Flatten`): JSON values as a tagged union
  (`Leaf | Map | List`), `FlattenFrom`/`FlattenPairs` (the `flatten` helper),
  `ToRecord` (`dict(...)`) and `FlattenDoc`. A list with a non-string element
  makes `','.join` raise `TypeError`; here it yields `None`.
- `flatten_properties.dfy`: what flattening guarantees.
- `export.dfy` (module `Export`): per-hit extraction, the collection loop
  (`CollectRecords`), the column-union loop (`ColumnUnion`), `sorted`
  (`SortedColumns`), line rendering (`Row`, `HeaderRow`, `Render`) and `Grab`,
  which composes them. `Grab` returns either a table or a failure.
- `export_properties.dfy`: what the table guarantees.

Three behaviours of the code are easy to miss, and the model keeps them:

- `sort` is deleted in both modes, not only in full-record mode. Line 108
  comes before the mode test. In only-source mode the deletion has no effect
  (`OnlySourceFlattensSource`).
- A list with a non-string element is not coerced and is not a separate
  error. The `TypeError` is caught by the bare `except` and reported as the
  connection failure, so the model returns `ConnectionError`. The same holds
  for a hit without `_source`, or one whose `_source` is not an object.
- Given the hits, the collection loop with a `total` of zero or less
  collects none of them, so the run ends with "Query returned no results"
  (`NothingCollected`). What the cluster itself returns for the `size` it is
  sent (es_export_csv.py:67) is not part of this model.

## Model

Functions that only compute (`FlattenPairs`, `FlattenDoc`, `Extract`, `Bound`,
`Collected`, `HeaderRow`, `Row`, `Render`, `Join`, `Below`) are stated through
the lemmas and methods whose rows name them.

| member | source | states |
|---|---|---|
| `Strings.SplitJoin` | es_export_csv.py:97 | For one or more parts, none containing the one-character separator, `Split` on that character recovers exactly the parts `Join` combined. The empty list is excluded: `[]` and `[""]` both join to `""` (`EmptyListCells`). |
| `Strings.JoinAppend` | es_export_csv.py:93 | `Join` of a non-empty path extended by one key is the old join, the separator, then the key: the dotted key of `[*path, key]`. |
| `Strings.BelowIrreflexive` | es_export_csv.py:129 | No string sorts strictly before itself under `Below`, Python's `<` on `str`. |
| `Strings.BelowTransitive` | es_export_csv.py:129 | `Below` is transitive. |
| `Strings.BelowTotal` | es_export_csv.py:129 | Of two different strings exactly one sorts before the other, so `sorted` has one answer. |
| `Strings.Insert` | es_export_csv.py:129 | Inserting a new name into a strictly sorted list keeps it strictly sorted and adds exactly that name. |
| `Strings.SortedUnique` | es_export_csv.py:129 | A strictly sorted header is determined by its set of columns. |
| `Flatten.Cell` | es_export_csv.py:96-99 | A scalar is emitted unchanged. A list yields a value exactly when all its elements are strings; otherwise `','.join` fails. |
| `Flatten.FlattenFrom` | es_export_csv.py:91-99 | Under a non-empty path, every key `flatten` emits begins with the path's dotted key and a '.': nested values stay under their parent's prefix. |
| `Flatten.NestsUnder` | es_export_csv.py:93 | The dotted key of `[*path, key]` begins with the dotted key of `path` and a '.'. |
| `Flatten.ToRecord` | es_export_csv.py:111-113 | `dict(pairs)` has exactly the keys of the pairs. Each key holds the value of its last pair, so the last of several pairs with the same dotted key wins, and every entry is one of the pairs. |
| `FlattenProperties.DistinctPairsRecord` | es_export_csv.py:111-113 | When no two pairs share a key, `dict(pairs)` holds every pair's value under its key. |
| `FlattenProperties.FlattenComplete` | es_export_csv.py:91-99 | Every scalar or list stored under keys k1…kn is emitted by `FlattenPairs` under `'.'.join([k1,…,kn])`: a scalar unchanged, a list as its comma join. That dotted key is a column of `FlattenDoc`'s record. |
| `FlattenProperties.FlattenSound` | es_export_csv.py:91-99 | Every pair `FlattenPairs` emits comes from a scalar or list stored in the document under the path its key spells. No object or list is ever emitted as a value, and no key is made up. |
| `FlattenProperties.FlattenFails` | es_export_csv.py:96-97 | Flattening fails exactly when some list in the document, at any depth, holds a non-string element. |
| `FlattenProperties.RecordColumnOrigin` | es_export_csv.py:93-113 | Every column of `FlattenDoc`'s record is the dotted path of a scalar or list of the document and holds that value's cell. |
| `FlattenProperties.PathSegments` | es_export_csv.py:91-93 | In a document whose objects have distinct, dot-free keys, no key along a stored path holds a '.'. |
| `FlattenProperties.AtUnique` | es_export_csv.py:91-93 | In a document whose objects, at every depth, have distinct and dot-free keys, a key path leads to one value only. |
| `FlattenProperties.FlattenRecordValue` | es_export_csv.py:93-113 | When every object has distinct, dot-free keys, the record holds, under the dotted path of each scalar or list, exactly that value's cell: no other leaf overwrites the column. |
| `FlattenProperties.AtWithin` | es_export_csv.py:91-93 | A path stored among some entries is stored in any document holding all of those entries, and it starts with the key of one of them. |
| `FlattenProperties.ReplaceFrom` | es_export_csv.py:91-94 | Swapping a nested object for one that flattens identically under its path leaves the whole flattening unchanged. |
| `FlattenProperties.EmptyObjectAddsNothing` | es_export_csv.py:91-94 | An empty object at any depth contributes no pair: removing its entry (`DropEmpty`) leaves `FlattenPairs` unchanged. |
| `FlattenProperties.FlatDocumentUnchanged` | es_export_csv.py:91-99 | A document with no nested objects and no lists flattens to a record with exactly its keys and its original values. |
| `FlattenProperties.ListJoinRoundTrip` | es_export_csv.py:96-97 | A non-empty list of strings becomes one string. It splits back on ',' into the original elements when none contains a comma. |
| `FlattenProperties.DottedInjective` | es_export_csv.py:93-99 | Two non-empty key paths whose keys contain no '.' give the same dotted key only if they are the same path. Columns collide only through keys that contain dots (`CollisionExample`). |
| `FlattenProperties.NestedKeyHasDot` | es_export_csv.py:93-99 | A scalar or list stored under a path of two or more keys becomes a column whose name contains '.'. |
| `FlattenProperties.NestedExample` | es_export_csv.py:84-101 | `{"a": {"b": 1, "c": {"d": 2}}}` flattens to `{"a.b": 1, "a.c.d": 2}`. |
| `FlattenProperties.ListExample` | es_export_csv.py:96-97 | `{"tags": ["x","y","z"]}` flattens to `{"tags": "x,y,z"}`. |
| `FlattenProperties.CollisionExample` | es_export_csv.py:93-113 | `{"a.b": 1, "a": {"b": 2}}` flattens to `{"a.b": 2}`: when two paths spell the same dotted key, `dict` keeps the value emitted last. |
| `FlattenProperties.EmptyListCells` | es_export_csv.py:96-97 | The empty list and the list `[""]` both become the cell `""`. |
| `Export.Message` | es_export_csv.py:116-119 | The connection failure's text names the host it tried; the text is "Query returned no results" exactly for the empty result. |
| `Export.Lookup` | es_export_csv.py:111 | `hit['_source']` yields a value exactly when the key is present, and that value is the one stored under the key. |
| `Export.Without` | es_export_csv.py:108-109 | `del hit['sort']` keeps exactly the entries whose key is not `sort`, and leaves a hit without `sort` unchanged. |
| `ExportProperties.WithoutAt` | es_export_csv.py:108-109 | In a hit with distinct keys, deleting the key of entry j gives the hit with just entry j cut out, the rest in order. |
| `ExportProperties.WithoutRemovesOne` | es_export_csv.py:108-109 | Deleting a key present in a hit removes exactly its one entry and keeps the others in their order, the order `flatten` walks them. |
| `Export.RecordOf` | es_export_csv.py:108-113 | One pass of the loop body yields exactly `Extract`: `sort` dropped, then `_source` or the whole hit flattened. |
| `Export.Gather` | es_export_csv.py:104-116 | The run gets records only if every hit it looks at yields one. Then it gets one record per hit, in hit order. |
| `Export.CollectRecords` | es_export_csv.py:104-113 | The loop computes exactly `Collected`: the first `Bound` = min(len(hits), total) hits, or none when total ≤ 0, each turned into a record in order. At most `total` records are kept, and record i comes from hit i. |
| `Export.ColumnUnion` | es_export_csv.py:122-125 | The nested loops build exactly the union of the key sets of all records. |
| `Export.SortedColumns` | es_export_csv.py:129 | `sorted(field_names)` lists every column exactly once, in strictly increasing code-point order. |
| `Export.Grab` | es_export_csv.py:104-132 | The run fails with the connection error exactly when some hit it looks at cannot be flattened. It fails with "no results" exactly when no hits are looked at. Otherwise the header is the sorted column union and the lines are `Render` of the records. |
| `ExportProperties.AllKeysMembers` | es_export_csv.py:122-125 | A name is a column exactly when at least one record has it as a key. |
| `ExportProperties.ColumnsIgnoreOrder` | es_export_csv.py:122-125 | Any reordering of the records gives the same column set. |
| `ExportProperties.HeaderIgnoresOrder` | es_export_csv.py:122-129 | Any reordering of the records gives the same header. |
| `ExportProperties.TableDetermined` | es_export_csv.py:129-132 | Two tables written from the same records, in the same order, are identical. |
| `ExportProperties.RowRoundTrip` | es_export_csv.py:129-132 | A record's `Row`, read back against the header, gives the record's value in each column where it has one and `''` elsewhere. |
| `ExportProperties.RenderLines` | es_export_csv.py:122-132 | `Render` writes `HeaderRow` first unless `no_header` is set, then record i's `Row` as line i, in record order. Every line has one cell per column and reads back to its record padded with blanks to the full column set, so no value is lost. |
| `ExportProperties.MissingFieldExample` | es_export_csv.py:122-132 | Records `{"a":1}` and `{"b":2}` give the header a, b and the lines (a, b), (1, ''), ('', 2). |
| `ExportProperties.LookupWithout` | es_export_csv.py:108-111 | Deleting `sort` does not change the lookup of any other key. |
| `ExportProperties.OnlySourceFlattensSource` | es_export_csv.py:108-111 | In only-source mode `Extract` gives the flattened `_source` object. A hit without `_source`, or with a non-object `_source`, fails. |
| `ExportProperties.AbsentKeyNoColumn` | es_export_csv.py:91-99 | A dot-free key that no top-level entry carries is never a column. |
| `ExportProperties.ColumnsAvoid` | es_export_csv.py:93-113 | Every column of a document made of some of a hit's entries, none keyed `skipped`, is the dotted path of a scalar or list of the hit reached through another entry. |
| `ExportProperties.FullRecordHasNoSortColumn` | es_export_csv.py:108-113 | In full-record mode every column is the dotted path of a scalar or list of the hit reached through an entry other than `sort`, and no column is named `sort`. |
| `ExportProperties.NothingCollected` | es_export_csv.py:105-107 | With `total` ≤ 0, or with no hits, `Collected` is empty. The run then stops with "Query returned no results" (lines 118-119). |

## Left out

- Client setup, authentication and `getpass` (es_export_csv.py:20-32) are left out: they are network I/O through a library outside this model.
- Query construction and the choice between `scan` and `search` (es_export_csv.py:34-82) are left out. That code only builds arguments for the client and paginates inside the client. The hits arrive as a parameter.
- Exceptions raised by the client while the hits are iterated are not modelled. Only the failures that flattening itself raises become `ConnectionError`. The message text is `Export.Message`.
- Numbers are integers. Floating-point JSON numbers are not modelled.
- CSV quoting and escaping, `str()` rendering of non-string cells, and opening the output file (es_export_csv.py:128-132) are left out. Lines are sequences of cells, not text.
- `del hit['sort']` changes the caller's hit in place. The model deletes from a local copy, because the caller never looks at the hits again.
- The insertion order of keys inside a record is not modelled. Records are maps, and `csv.DictWriter` writes cells in header order, so that order is never visible.
- `Export.SortedColumns` stands for Python's built-in `sorted`. Only its result is modelled, not Python's sorting algorithm.
- argparse, `main`, the module-level logger setting (es_export_csv.py:9) and `setup.py` (packaging metadata only) are left out.
- A JSON object is a sequence of entries, so the type itself allows a repeated key, which a Python dict cannot hold. Lemmas that rely on distinct keys ask for them (`DistinctKeys`, or `UnambiguousKeys` for distinct and dot-free keys at every depth). The flattening functions themselves accept any sequence of entries.
