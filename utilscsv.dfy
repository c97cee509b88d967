/**
 * `exportToCSV` in `src/lib/utils.ts`: a list of records written as
 * semicolon-separated text. The header row is the first record's keys,
 * translated to Portuguese where a translation exists; string values are
 * quoted with inner quotes doubled, other values are written as they are.
 * The file download itself is not part of this model.
 */
module UtilsCsv {
  import Strs
  import Csv
  import opened Ledger

  /** A field value: a string, any other value as `String(v)` writes it, or nothing (null, undefined, a missing key). */
  datatype Value = Str(s: string) | Other(text: string) | Missing

  /** A record: its keys, in order, with their values. */
  type Record = seq<(string, Value)>

  const HeaderMap: seq<(string, string)> := [
    ("id", "ID"), ("type", "Tipo"), ("category", "Categoria"), ("amount", "Valor"),
    ("description", "Descrição"), ("date", "Data"), ("income", "Receita"), ("expense", "Despesa")]

  /** The value of the first pair with key `k`. */
  function Lookup<V(==)>(m: seq<(string, V)>, k: string): (r: Option<V>)
    ensures r.Some? ==> exists i :: 0 <= i < |m| && m[i] == (k, r.value)
    ensures r.None? ==> forall i :: 0 <= i < |m| ==> m[i].0 != k
    decreases |m|
  {
    if m == [] then None
    else if m[0].0 == k then Some(m[0].1)
    else
      var r := Lookup(m[1..], k);
      if r.Some? then
        var i :| 0 <= i < |m[1..]| && m[1..][i] == (k, r.value);
        assert m[i + 1] == (k, r.value);
        r
      else r
  }

  /** `headerMap[h] || h`. */
  function TranslateHeader(h: string): (r: string)
    ensures Lookup(HeaderMap, h).Some? ==> r == Lookup(HeaderMap, h).value
    ensures Lookup(HeaderMap, h).None? ==> r == h
  {
    match Lookup(HeaderMap, h)
    case Some(t) => if t != "" then t else h
    case None => h
  }

  /** `Object.keys(row)`. */
  function KeysOf(row: Record): (ks: seq<string>)
    ensures |ks| == |row|
    ensures forall i :: 0 <= i < |row| ==> ks[i] == row[i].0
  {
    seq(|row|, i requires 0 <= i < |row| => row[i].0)
  }

  /** `row[header]`. */
  function Get(row: Record, k: string): Value
  {
    match Lookup(row, k)
    case Some(v) => v
    case None => Missing
  }

  /** How a value is written: strings quoted, everything else bare (`join` writes nothing for a missing value). */
  function CellOf(v: Value): Csv.Cell
  {
    match v
    case Str(s) => Csv.Quoted(s)
    case Other(t) => Csv.Bare(t)
    case Missing => Csv.Bare("")
  }

  /** The text a reader should get back for a value. */
  function TextOf(v: Value): string
  {
    match v
    case Str(s) => s
    case Other(t) => t
    case Missing => ""
  }

  function HeaderLine(headers: seq<string>): string
  {
    Strs.Join(seq(|headers|, i requires 0 <= i < |headers| => TranslateHeader(headers[i])), ";")
  }

  function RowCells(row: Record, headers: seq<string>): (cs: seq<Csv.Cell>)
    ensures |cs| == |headers|
  {
    seq(|headers|, i requires 0 <= i < |headers| => CellOf(Get(row, headers[i])))
  }

  /** One record as a line, its values in the header order. */
  function RowLine(row: Record, headers: seq<string>): string
  {
    Csv.RowText(RowCells(row, headers), ';')
  }

  function RowLines(rows: seq<Record>, headers: seq<string>): (ls: seq<string>)
    ensures |ls| == |rows|
    ensures forall i :: 0 <= i < |rows| ==> ls[i] == RowLine(rows[i], headers)
  {
    seq(|rows|, i requires 0 <= i < |rows| => RowLine(rows[i], headers))
  }

  /** The lines of the file: the header, then one line per record, in order. */
  function CsvRows(data: seq<Record>): (ls: seq<string>)
    requires data != []
    ensures |ls| == |data| + 1
    ensures ls[0] == HeaderLine(KeysOf(data[0]))
    ensures forall i :: 0 <= i < |data| ==> ls[i + 1] == RowLine(data[i], KeysOf(data[0]))
  {
    [HeaderLine(KeysOf(data[0]))] + RowLines(data, KeysOf(data[0]))
  }

  /** `exportToCSV(data)`: nothing for an empty list, else the lines joined with line breaks. */
  method ExportToCsv(data: seq<Record>) returns (content: Option<string>)
    ensures content.None? <==> data == []
    ensures content.Some? ==> content.value == Strs.Join(CsvRows(data), "\n")
  {
    if |data| == 0 {
      return None;
    }
    var headers := KeysOf(data[0]);
    var csvRows := [HeaderLine(headers)];
    var i := 0;
    while i < |data|
      invariant 0 <= i <= |data|
      invariant csvRows == [HeaderLine(headers)] + RowLines(data[..i], headers)
    {
      assert RowLines(data[..i + 1], headers) == RowLines(data[..i], headers) + [RowLine(data[i], headers)];
      csvRows := csvRows + [RowLine(data[i], headers)];
      i := i + 1;
    }
    assert data[..|data|] == data;
    content := Some(Strs.Join(csvRows, "\n"));
  }

  /** A value whose written form is safe: a quoted string, or a bare text without separator or quote. */
  predicate Writable(v: Value)
  {
    v.Other? ==> forall i :: 0 <= i < |v.text| ==> v.text[i] != ';' && v.text[i] != '"'
  }

  /** Reading a line back with ";" as separator gives the record's values in header order. */
  lemma RowLineFields(row: Record, headers: seq<string>)
    requires |headers| >= 1
    requires forall i :: 0 <= i < |headers| ==> Writable(Get(row, headers[i]))
    ensures Csv.ParseRow(RowLine(row, headers), ';') ==
            seq(|headers|, i requires 0 <= i < |headers| => TextOf(Get(row, headers[i])))
  {
    var cells := RowCells(row, headers);
    forall i | 0 <= i < |cells| ensures Csv.Fits(cells[i], ';') {
      assert cells[i] == CellOf(Get(row, headers[i]));
    }
    Csv.RowRoundTrip(cells, ';');
  }
}
