/** write_output_csv of blueshark/output/writer.py: the header and rows of
    the CSV file written for a list of result dictionaries. The file system
    is reduced to whether the directory and file can be written, and
    Python's str() of a list item is a parameter. */
module Writer {
  import opened Wrappers
  import opened Definitions

  /** One result dictionary, in insertion order. */
  type Entry = seq<(string, Value)>

  /** What ends up on disk: no file at all, or a header and its rows. */
  datatype CsvFile = NoFile | File(header: seq<string>, rows: seq<Entry>)

  // ---------------------------------------------------------------------
  // String order and the header
  // ---------------------------------------------------------------------

  /** Python's `<` on str: code point by code point, a proper prefix first. */
  predicate StrLess(a: string, b: string) {
    if |a| == 0 then |b| > 0
    else if |b| == 0 then false
    else if a[0] != b[0] then a[0] < b[0]
    else StrLess(a[1..], b[1..])
  }

  lemma {:induction false} StrLessIrreflexive(a: string)
    ensures !StrLess(a, a)
  {
    if |a| > 0 {
      StrLessIrreflexive(a[1..]);
    }
  }

  lemma {:induction false} StrLessTransitive(a: string, b: string, c: string)
    requires StrLess(a, b) && StrLess(b, c)
    ensures StrLess(a, c)
  {
    if |a| > 0 && a[0] == b[0] && b[0] == c[0] {
      StrLessTransitive(a[1..], b[1..], c[1..]);
    }
  }

  lemma {:induction false} StrLessTotal(a: string, b: string)
    requires a != b
    ensures StrLess(a, b) || StrLess(b, a)
  {
    if |a| > 0 && |b| > 0 && a[0] == b[0] {
      assert a == [a[0]] + a[1..] && b == [b[0]] + b[1..];
      StrLessTotal(a[1..], b[1..]);
    }
  }

  /** Ascending without repeats, as `sorted` leaves a set of keys. */
  predicate StrictlySorted(keys: seq<string>) {
    forall i, j :: 0 <= i < j < |keys| ==> StrLess(keys[i], keys[j])
  }

  /** Adding one key to a sorted key list, as adding it to the set does. */
  function InsertKey(k: string, keys: seq<string>): (r: seq<string>)
    ensures forall z :: z in r <==> z in keys || z == k
  {
    if |keys| == 0 then [k]
    else if k == keys[0] then keys
    else if StrLess(k, keys[0]) then [k] + keys
    else [keys[0]] + InsertKey(k, keys[1..])
  }

  lemma {:induction false} InsertKeySorted(k: string, keys: seq<string>)
    requires StrictlySorted(keys)
    ensures StrictlySorted(InsertKey(k, keys))
  {
    if |keys| > 0 && k != keys[0] {
      if StrLess(k, keys[0]) {
        var r := [k] + keys;
        forall i, j | 0 <= i < j < |r|
          ensures StrLess(r[i], r[j])
        {
          if i == 0 && j > 1 {
            StrLessTransitive(k, keys[0], keys[j - 1]);
          }
        }
      } else {
        StrLessTotal(k, keys[0]);
        var t := InsertKey(k, keys[1..]);
        InsertKeySorted(k, keys[1..]);
        var r := [keys[0]] + t;
        forall i, j | 0 <= i < j < |r|
          ensures StrLess(r[i], r[j])
        {
          if i == 0 {
            assert r[j] in t;
            if r[j] != k {
              var m :| 1 <= m < |keys| && keys[m] == r[j];
            }
          } else {
            assert r[i] == t[i - 1] && r[j] == t[j - 1];
          }
        }
      }
    }
  }

  /** The keys of one entry added to a key list. */
  function AddKeys(keys: seq<string>, entry: Entry): (r: seq<string>)
    ensures forall z :: z in r <==> z in keys || HasKey(entry, z)
  {
    if |entry| == 0 then keys
    else
      var r := InsertKey(entry[|entry| - 1].0, AddKeys(keys, entry[..|entry| - 1]));
      assert forall z :: HasKey(entry, z) <==> HasKey(entry[..|entry| - 1], z) || z == entry[|entry| - 1].0 by {
        forall z | HasKey(entry, z) && z != entry[|entry| - 1].0
          ensures HasKey(entry[..|entry| - 1], z)
        {
          var i :| 0 <= i < |entry| && entry[i].0 == z;
          assert entry[..|entry| - 1][i].0 == z;
        }
        forall z | HasKey(entry[..|entry| - 1], z)
          ensures HasKey(entry, z)
        {
          var i :| 0 <= i < |entry| - 1 && entry[..|entry| - 1][i].0 == z;
          assert entry[i].0 == z;
        }
      }
      r
  }

  lemma {:induction false} AddKeysSorted(keys: seq<string>, entry: Entry)
    requires StrictlySorted(keys)
    ensures StrictlySorted(AddKeys(keys, entry))
  {
    if |entry| > 0 {
      AddKeysSorted(keys, entry[..|entry| - 1]);
      InsertKeySorted(entry[|entry| - 1].0, AddKeys(keys, entry[..|entry| - 1]));
    }
  }

  /** `sorted({k for entry in data for k in entry})` */
  function Header(data: seq<Entry>): (keys: seq<string>)
    ensures forall z :: z in keys <==> exists i :: 0 <= i < |data| && HasKey(data[i], z)
  {
    if |data| == 0 then []
    else
      var r := AddKeys(Header(data[..|data| - 1]), data[|data| - 1]);
      assert forall i :: 0 <= i < |data| - 1 ==> data[..|data| - 1][i] == data[i];
      r
  }

  /** The header lists every key that occurs, once each, in ascending
      order. */
  lemma {:induction false} HeaderSorted(data: seq<Entry>)
    ensures StrictlySorted(Header(data))
  {
    if |data| > 0 {
      HeaderSorted(data[..|data| - 1]);
      AddKeysSorted(Header(data[..|data| - 1]), data[|data| - 1]);
    }
  }

  // ---------------------------------------------------------------------
  // Rows
  // ---------------------------------------------------------------------

  /** `sep.join(strs)` */
  function Join(sep: string, strs: seq<string>): string {
    if |strs| == 0 then ""
    else if |strs| == 1 then strs[0]
    else Join(sep, strs[..|strs| - 1]) + sep + strs[|strs| - 1]
  }

  /** `str(i) for i in v`: each item shown as a string. */
  function Shown(items: seq<Value>, show: Value -> string): (strs: seq<string>)
    ensures |strs| == |items|
  {
    seq(|items|, i requires 0 <= i < |items| => show(items[i]))
  }

  /** The value of one column: "" for a key the entry lacks, the items of a
      list or tuple shown and joined with sep, anything else as it is. */
  function CellValue(entry: Entry, k: string, sep: string, show: Value -> string): Value {
    if !HasKey(entry, k) then VStr("")
    else
      var v := Get(entry, k);
      if v.VList? || v.VTuple? then
        VStr(Join(sep, Shown(v.items, show)))
      else v
  }

  /** The row written for one entry: the header's keys in order. */
  function RowOf(entry: Entry, keys: seq<string>, sep: string, show: Value -> string): (row: Entry)
    ensures |row| == |keys|
    ensures forall j :: 0 <= j < |keys| ==> row[j] == (keys[j], CellValue(entry, keys[j], sep, show))
  {
    seq(|keys|, j requires 0 <= j < |keys| => (keys[j], CellValue(entry, keys[j], sep, show)))
  }

  /** Read as a dictionary, a row has exactly the header's keys. Under a
      key its entry lacks it holds "", under a list or tuple the items shown
      and joined with sep, and under any other value that value; so no
      value is left a list or a tuple. */
  lemma RowAsDict(entry: Entry, keys: seq<string>, sep: string, show: Value -> string, k: string)
    ensures HasKey(RowOf(entry, keys, sep, show), k) <==> k in keys
    ensures var v := Get(RowOf(entry, keys, sep, show), k);
      k in keys ==> !v.VList? && !v.VTuple?
    ensures var v := Get(RowOf(entry, keys, sep, show), k);
      k in keys && !HasKey(entry, k) ==> v == VStr("")
    ensures var v := Get(RowOf(entry, keys, sep, show), k);
      var w := Get(entry, k);
      k in keys && HasKey(entry, k) && (w.VList? || w.VTuple?) ==> v == VStr(Join(sep, Shown(w.items, show)))
    ensures var v := Get(RowOf(entry, keys, sep, show), k);
      var w := Get(entry, k);
      k in keys && HasKey(entry, k) && !w.VList? && !w.VTuple? ==> v == w
  {
    var row := RowOf(entry, keys, sep, show);
    if k in keys {
      var j :| 0 <= j < |keys| && keys[j] == k;
      assert row[j].0 == k;
    }
    if HasKey(row, k) {
      var j :| 0 <= j < |row| && row[j].0 == k;
      assert keys[j] == k;
    }
  }

  /** The rows loop: one row per entry, in the order of the entries. */
  method BuildRows(data: seq<Entry>, keys: seq<string>, sep: string, show: Value -> string) returns (rows: seq<Entry>)
    ensures |rows| == |data|
    ensures forall i :: 0 <= i < |data| ==> rows[i] == RowOf(data[i], keys, sep, show)
  {
    rows := [];
    for i := 0 to |data|
      invariant |rows| == i
      invariant forall n :: 0 <= n < i ==> rows[n] == RowOf(data[n], keys, sep, show)
    {
      var entry := data[i];
      var row: Entry := [];
      for j := 0 to |keys|
        invariant row == RowOf(entry, keys[..j], sep, show)
      {
        var k := keys[j];
        var v := if HasKey(entry, k) then Get(entry, k) else VStr("");
        if v.VList? || v.VTuple? {
          v := VStr(Join(sep, Shown(v.items, show)));
        }
        row := row + [(k, v)];
      }
      assert keys[..|keys|] == keys;
      rows := rows + [row];
    }
  }

  /** write_output_csv. An empty data list writes nothing; otherwise the
      file gets the header and one row per entry, or, when the directory
      or the file cannot be written, RuntimeError is raised. */
  method WriteOutputCsv(data: seq<Entry>, sep: string, show: Value -> string, writable: bool) returns (r: Result<CsvFile>)
    ensures |data| == 0 ==> r == Ok(NoFile)
    ensures |data| > 0 && !writable ==> r == Err(RuntimeError)
    ensures |data| > 0 && writable ==> r.Ok? && r.value.File?
    ensures r.Ok? && r.value.File? ==> r.value.header == Header(data) && |r.value.rows| == |data|
    ensures r.Ok? && r.value.File? ==>
      forall i :: 0 <= i < |data| ==> r.value.rows[i] == RowOf(data[i], Header(data), sep, show)
  {
    if |data| == 0 {
      return Ok(NoFile);
    }
    var keys := Header(data);
    var rows := BuildRows(data, keys, sep, show);
    if !writable {
      return Err(RuntimeError);
    }
    return Ok(File(keys, rows));
  }
}
