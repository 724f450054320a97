/**
 * The append-only CSV event logs of the usability tool, with the file system seen
 * abstractly as a map from path to the rows of the file. A record is a Python dict:
 * field names with values, in insertion order. `save_to_csv` turns it into a one-row
 * DataFrame and writes it; `load_from_csv` reads a file back.
 */
module CsvLog {

  /** A cell: text, a whole number or a boolean. */
  datatype Value = Text(s: string) | Number(n: int) | Flag(b: bool)

  type Row = seq<Value>

  /** Field names and values, in the dictionary's order. */
  type Record = seq<(string, Value)>

  /** Path to the rows of the file at that path; a path not in the map has no file. */
  type Store = map<string, seq<Row>>

  /** The header row: the record's field names, in order. */
  function HeaderRow(r: Record): (h: Row)
    ensures |h| == |r|
    ensures forall i :: 0 <= i < |r| ==> h[i] == Text(r[i].0)
  {
    if r == [] then [] else [Text(r[0].0)] + HeaderRow(r[1..])
  }

  /** The data row: the record's values, in order. */
  function DataRow(r: Record): (d: Row)
    ensures |d| == |r|
    ensures forall i :: 0 <= i < |r| ==> d[i] == r[i].1
  {
    if r == [] then [] else [r[0].1] + DataRow(r[1..])
  }

  /** The rows of the file at `path`, none if there is no file. */
  function Existing(files: Store, path: string): seq<Row>
  {
    if path in files then files[path] else []
  }

  /** `save_to_csv` of usability.py: a missing file is created holding the header
      row and the data row; an existing file gets the data row appended, with no
      check of its header. */
  function Append(files: Store, path: string, r: Record): (f: Store)
    ensures f.Keys == files.Keys + {path}
    ensures forall p :: p in files && p != path ==> f[p] == files[p]
    ensures path !in files ==> f[path] == [HeaderRow(r), DataRow(r)]
    ensures path in files ==> |f[path]| == |files[path]| + 1
    ensures path in files ==> f[path][..|files[path]|] == files[path]
    ensures path in files ==> f[path][|files[path]|] == DataRow(r)
  {
    if path !in files then files[path := [HeaderRow(r), DataRow(r)]]
    else files[path := files[path] + [DataRow(r)]]
  }

  /** `save_to_csv` of test.py: the header row is written on every call, so either
      way the file ends with a header row followed by the data row. */
  function AppendWithHeader(files: Store, path: string, r: Record): (f: Store)
    ensures f.Keys == files.Keys + {path}
    ensures forall p :: p in files && p != path ==> f[p] == files[p]
    ensures |f[path]| == |Existing(files, path)| + 2
    ensures f[path][..|Existing(files, path)|] == Existing(files, path)
    ensures f[path][|f[path]| - 2] == HeaderRow(r) && f[path][|f[path]| - 1] == DataRow(r)
  {
    if path !in files then files[path := [HeaderRow(r), DataRow(r)]]
    else files[path := files[path] + [HeaderRow(r), DataRow(r)]]
  }

  /** A loaded table: the column row and the data rows. */
  datatype Frame = Frame(columns: Row, rows: seq<Row>)

  const EmptyFrame := Frame([], [])

  /** `load_from_csv`: the first row of the file names the columns and the others
      are data; a missing file gives an empty table, not an error. */
  function Load(files: Store, path: string): (fr: Frame)
    ensures path !in files ==> fr == EmptyFrame
    ensures path in files && files[path] != [] ==> [fr.columns] + fr.rows == files[path]
  {
    if path in files && files[path] != [] then Frame(files[path][0], files[path][1..])
    else EmptyFrame
  }

  // Reading a table back as records.

  function Name(v: Value): string
  {
    if v.Text? then v.s else ""
  }

  /** The record a data row stands for under the given column row: names and
      cells paired position by position. */
  function Fields(columns: Row, row: Row): (r: Record)
    ensures |r| == if |columns| < |row| then |columns| else |row|
    ensures forall i :: 0 <= i < |r| ==> r[i] == (Name(columns[i]), row[i])
  {
    if row == [] || columns == [] then [] else [(Name(columns[0]), row[0])] + Fields(columns[1..], row[1..])
  }

  /** Every data row is as wide as the column row. */
  predicate Aligned(fr: Frame)
  {
    forall i :: 0 <= i < |fr.rows| ==> |fr.rows[i]| == |fr.columns|
  }

  /** The records of a table, one per data row, in file order. */
  function Records(fr: Frame): (rs: seq<Record>)
    ensures |rs| == |fr.rows|
    ensures forall i :: 0 <= i < |rs| ==> rs[i] == Fields(fr.columns, fr.rows[i])
  {
    seq(|fr.rows|, i requires 0 <= i < |fr.rows| => Fields(fr.columns, fr.rows[i]))
  }

  /** A record read back under its own header is the record. */
  lemma FieldsOfRecord(r: Record)
    ensures Fields(HeaderRow(r), DataRow(r)) == r
  {
    var f := Fields(HeaderRow(r), DataRow(r));
    assert |f| == |r|;
    forall i | 0 <= i < |r| ensures f[i] == r[i] {
      assert Name(Text(r[i].0)) == r[i].0;
    }
  }

  // Sequences of saves.

  /** The data rows of a sequence of records. */
  function DataRows(rs: seq<Record>): (d: seq<Row>)
    ensures |d| == |rs|
    ensures forall i :: 0 <= i < |rs| ==> d[i] == DataRow(rs[i])
  {
    if rs == [] then [] else [DataRow(rs[0])] + DataRows(rs[1..])
  }

  /** usability.py's `save_to_csv` called once per record, in order. */
  function SaveAll(files: Store, path: string, rs: seq<Record>): Store
    decreases |rs|
  {
    if rs == [] then files else SaveAll(Append(files, path, rs[0]), path, rs[1..])
  }

  /** Saving into an existing file appends the data rows in order and nothing else. */
  lemma {:induction false} SaveAllExisting(files: Store, path: string, rs: seq<Record>)
    requires path in files
    ensures path in SaveAll(files, path, rs)
    ensures SaveAll(files, path, rs)[path] == files[path] + DataRows(rs)
    decreases |rs|
  {
    if rs != [] {
      var next := Append(files, path, rs[0]);
      SaveAllExisting(next, path, rs[1..]);
      assert next[path] == files[path] + [DataRow(rs[0])];
      assert DataRows(rs) == [DataRow(rs[0])] + DataRows(rs[1..]);
    }
  }

  /** Saves into a missing file: one header row, from the first record, then a data
      row per record in order (the header is not rewritten for later records). */
  lemma SaveAllFresh(files: Store, path: string, rs: seq<Record>)
    requires path !in files && rs != []
    ensures path in SaveAll(files, path, rs)
    ensures SaveAll(files, path, rs)[path] == [HeaderRow(rs[0])] + DataRows(rs)
  {
    var first := Append(files, path, rs[0]);
    SaveAllExisting(first, path, rs[1..]);
    assert SaveAll(files, path, rs) == SaveAll(first, path, rs[1..]);
    var h, d, tail := HeaderRow(rs[0]), DataRow(rs[0]), DataRows(rs[1..]);
    assert first[path] == [h, d];
    assert DataRows(rs) == [d] + tail;
    PairThenTail(h, d, tail);
  }

  lemma PairThenTail<T>(a: T, b: T, t: seq<T>)
    ensures [a, b] + t == [a] + ([b] + t)
  {
  }

  /** Saves to one path leave every other path as it was. */
  lemma {:induction false} SaveAllElsewhere(files: Store, path: string, rs: seq<Record>, p: string)
    requires p != path
    ensures p in SaveAll(files, path, rs) <==> p in files
    ensures p in files ==> SaveAll(files, path, rs)[p] == files[p]
    decreases |rs|
  {
    if rs != [] {
      SaveAllElsewhere(Append(files, path, rs[0]), path, rs[1..], p);
    }
  }

  /** Records that share the first one's field names, in the same order. */
  predicate SameFields(rs: seq<Record>)
  {
    forall i :: 0 <= i < |rs| ==> HeaderRow(rs[i]) == HeaderRow(rs[0])
  }

  /** Round trip: saving records with one schema into a missing file and loading it
      gives back exactly those records, in order. */
  lemma LoadAfterSaves(files: Store, path: string, rs: seq<Record>)
    requires path !in files && rs != [] && SameFields(rs)
    ensures Load(SaveAll(files, path, rs), path) == Frame(HeaderRow(rs[0]), DataRows(rs))
    ensures Aligned(Load(SaveAll(files, path, rs), path))
    ensures Records(Load(SaveAll(files, path, rs), path)) == rs
  {
    SaveAllFresh(files, path, rs);
    var fr := Load(SaveAll(files, path, rs), path);
    assert fr == Frame(HeaderRow(rs[0]), DataRows(rs));
    assert Aligned(fr) by {
      forall i | 0 <= i < |fr.rows| ensures |fr.rows[i]| == |fr.columns| {
        assert |HeaderRow(rs[i])| == |HeaderRow(rs[0])|;
      }
    }
    var back := Records(fr);
    forall i | 0 <= i < |rs| ensures back[i] == rs[i] {
      FieldsOfRecord(rs[i]);
    }
  }

  /** No schema check: every saved record is read back under the first record's
      field names, whatever its own names are. */
  lemma LoadedUnderFirstHeader(files: Store, path: string, rs: seq<Record>)
    requires path !in files && rs != []
    ensures |Records(Load(SaveAll(files, path, rs), path))| == |rs|
    ensures forall i :: 0 <= i < |rs| ==>
              Records(Load(SaveAll(files, path, rs), path))[i] == Fields(HeaderRow(rs[0]), DataRow(rs[i]))
  {
    SaveAllFresh(files, path, rs);
    assert Load(SaveAll(files, path, rs), path) == Frame(HeaderRow(rs[0]), DataRows(rs));
  }

  /** For instance, a record with another field name reads back under the first
      record's name. */
  lemma SchemaDriftMislabels()
    ensures var rs := [[("a", Number(1))], [("b", Number(2))]];
            Records(Load(SaveAll(map[], "log.csv", rs), "log.csv")) == [[("a", Number(1))], [("a", Number(2))]]
  {
    var rs := [[("a", Number(1))], [("b", Number(2))]];
    SaveAllFresh(map[], "log.csv", rs);
    assert HeaderRow(rs[0]) == [Text("a")];
    assert DataRow(rs[0]) == [Number(1)] && DataRow(rs[1]) == [Number(2)];
    assert DataRows(rs) == [[Number(1)], [Number(2)]];
    var fr := Load(SaveAll(map[], "log.csv", rs), "log.csv");
    assert fr == Frame([Text("a")], [[Number(1)], [Number(2)]]);
    assert Aligned(fr);
    var back := Records(fr);
    assert back[0] == Fields([Text("a")], [Number(1)]) == [("a", Number(1))];
    assert back[1] == Fields([Text("a")], [Number(2)]) == [("a", Number(2))];
    assert back == [[("a", Number(1))], [("a", Number(2))]];
  }

  // test.py's variant, which writes the header on every call.

  /** A header row and a data row per record, in order. */
  function Interleaved(rs: seq<Record>): (rows: seq<Row>)
    ensures |rows| == 2 * |rs|
    ensures forall i :: 0 <= i < |rs| ==> rows[2 * i] == HeaderRow(rs[i])
    ensures forall i :: 0 <= i < |rs| ==> rows[2 * i + 1] == DataRow(rs[i])
  {
    if rs == [] then [] else [HeaderRow(rs[0]), DataRow(rs[0])] + Interleaved(rs[1..])
  }

  /** test.py's `save_to_csv` called once per record, in order. */
  function SaveAllWithHeader(files: Store, path: string, rs: seq<Record>): Store
    decreases |rs|
  {
    if rs == [] then files else SaveAllWithHeader(AppendWithHeader(files, path, rs[0]), path, rs[1..])
  }

  /** After n saves the file holds what it held before, then n header rows
      interleaved with n data rows, whether or not it existed. */
  lemma {:induction false} SaveAllWithHeaderRows(files: Store, path: string, rs: seq<Record>)
    ensures Existing(SaveAllWithHeader(files, path, rs), path) == Existing(files, path) + Interleaved(rs)
    decreases |rs|
  {
    if rs != [] {
      var next := AppendWithHeader(files, path, rs[0]);
      SaveAllWithHeaderRows(next, path, rs[1..]);
      assert Existing(next, path) == Existing(files, path) + [HeaderRow(rs[0]), DataRow(rs[0])];
      assert Interleaved(rs) == [HeaderRow(rs[0]), DataRow(rs[0])] + Interleaved(rs[1..]);
    }
  }

  /** Loading what test.py wrote: from the second save on, each header row comes
      back as a data row, so n saves give 2n - 1 data rows. */
  lemma RepeatedHeaderReadAsData(files: Store, path: string, rs: seq<Record>)
    requires path !in files && |rs| >= 2
    ensures |Load(SaveAllWithHeader(files, path, rs), path).rows| == 2 * |rs| - 1
    ensures Load(SaveAllWithHeader(files, path, rs), path).rows[1] == HeaderRow(rs[1])
  {
    SaveAllWithHeaderRows(files, path, rs);
    var after := SaveAllWithHeader(files, path, rs);
    assert path in after by {
      assert Existing(after, path) != [];
    }
    assert after[path] == Interleaved(rs);
    assert after[path][2] == HeaderRow(rs[1]);
  }
}
