/**
 * Comma- or semicolon-separated rows in the sense of RFC 4180, section 2:
 * a field may be enclosed in double quotes, and a double quote inside such
 * a field is written twice (rule 7). `Render` is what the exporters write;
 * `ParseRow` is an independent reader used to state what a written row
 * means.
 */
module Csv {
  import Strs
  import NumFmt
  import Calendar

  /** Every `"` written twice: `str.replace(/"/g, '""')`. */
  function DoubleQuotes(s: string): (r: string)
    ensures |r| == |s| + Strs.CountChar(s, '"')
    decreases |s|
  {
    if s == [] then [] else (if s[0] == '"' then "\"\"" else [s[0]]) + DoubleQuotes(s[1..])
  }

  /** A field as written: quoted (with doubled quotes) or bare. */
  datatype Cell = Quoted(text: string) | Bare(text: string)

  function Render(c: Cell): string
  {
    match c
    case Quoted(t) => "\"" + DoubleQuotes(t) + "\""
    case Bare(t) => t
  }

  /** Text without a quote. */
  predicate NoQuote(s: string)
  {
    forall i :: 0 <= i < |s| ==> s[i] != '"'
  }

  /** Text without the separator or a quote: safe to write bare. */
  predicate Plain(s: string, sep: char)
  {
    forall i :: 0 <= i < |s| ==> s[i] != sep && s[i] != '"'
  }

  /** `"${text}"`: the text between quotes, inner quotes left as they are. */
  function QuotedVerbatim(text: string): string { "\"" + text + "\"" }

  /** A bare field must not contain the separator or a quote. */
  predicate Fits(c: Cell, sep: char)
  {
    c.Bare? ==> forall i :: 0 <= i < |c.text| ==> c.text[i] != sep && c.text[i] != '"'
  }

  /** The row as written: the rendered cells joined with the separator. */
  function RowText(cells: seq<Cell>, sep: char): string
    decreases |cells|
  {
    if cells == [] then ""
    else if |cells| == 1 then Render(cells[0])
    else Render(cells[0]) + [sep] + RowText(cells[1..], sep)
  }

  function Texts(cells: seq<Cell>): (ts: seq<string>)
    ensures |ts| == |cells|
    ensures forall i :: 0 <= i < |cells| ==> ts[i] == cells[i].text
  {
    seq(|cells|, i requires 0 <= i < |cells| => cells[i].text)
  }

  // ---- the reader ----

  /** Content of a quoted field (after its opening quote) and the text after its closing quote. */
  function ReadQuoted(s: string): (r: (string, string))
    ensures |r.1| <= |s|
    decreases |s|
  {
    if s == [] then ("", "")
    else if s[0] == '"' then
      if |s| > 1 && s[1] == '"' then
        var (v, rest) := ReadQuoted(s[2..]);
        ("\"" + v, rest)
      else ("", s[1..])
    else
      var (v, rest) := ReadQuoted(s[1..]);
      ([s[0]] + v, rest)
  }

  /** A bare field: everything up to the next separator. */
  function ReadBare(s: string, sep: char): (r: (string, string))
    ensures |r.1| <= |s|
    ensures r.1 == [] || r.1[0] == sep
    decreases |s|
  {
    if s == [] || s[0] == sep then ("", s)
    else
      var (v, rest) := ReadBare(s[1..], sep);
      ([s[0]] + v, rest)
  }

  /** The first field of `s` and the text after it (empty, or starting with the separator). */
  function ReadField(s: string, sep: char): (r: (string, string))
    ensures |r.1| <= |s|
  {
    if s != [] && s[0] == '"' then
      var (q, after) := ReadQuoted(s[1..]);
      var (tail, rest) := ReadBare(after, sep);
      (q + tail, rest)
    else ReadBare(s, sep)
  }

  /** The field values of one row. */
  function ParseRow(s: string, sep: char): (fields: seq<string>)
    ensures |fields| >= 1
    decreases |s|
  {
    var (v, rest) := ReadField(s, sep);
    if rest == [] then [v] else [v] + ParseRow(rest[1..], sep)
  }

  lemma {:induction false} ReadQuotedDoubled(t: string, rest: string)
    requires rest == [] || rest[0] != '"'
    ensures ReadQuoted(DoubleQuotes(t) + "\"" + rest) == (t, rest)
    decreases |t|
  {
    if t != [] {
      var x := DoubleQuotes(t[1..]) + "\"" + rest;
      ReadQuotedDoubled(t[1..], rest);
      DoubleQuotesCons(t, rest);
      ReadQuotedEscaped(t[0], x);
      assert t == [t[0]] + t[1..];
    } else {
      assert DoubleQuotes(t) + "\"" + rest == "\"" + rest;
    }
  }

  /** One character as `DoubleQuotes` writes it. */
  function Escaped(c: char): string { if c == '"' then "\"\"" else [c] }

  lemma DoubleQuotesCons(t: string, rest: string)
    requires t != []
    ensures DoubleQuotes(t) + "\"" + rest == Escaped(t[0]) + (DoubleQuotes(t[1..]) + "\"" + rest)
  {
  }

  /** Reading an escaped character inside a quoted field gives the character back. */
  lemma ReadQuotedEscaped(c: char, x: string)
    ensures ReadQuoted(Escaped(c) + x) == ([c] + ReadQuoted(x).0, ReadQuoted(x).1)
  {
    var s := Escaped(c) + x;
    if c == '"' {
      assert s[2..] == x;
    } else {
      assert s[1..] == x;
    }
  }

  lemma {:induction false} ReadBareText(t: string, rest: string, sep: char)
    requires forall i :: 0 <= i < |t| ==> t[i] != sep
    requires rest == [] || rest[0] == sep
    ensures ReadBare(t + rest, sep) == (t, rest)
    decreases |t|
  {
    if t != [] {
      assert (t + rest)[1..] == t[1..] + rest;
      ReadBareText(t[1..], rest, sep);
      assert t == [t[0]] + t[1..];
    } else {
      assert t + rest == rest;
    }
  }

  /** The field read first from a rendered cell followed by `rest`. */
  lemma ReadCell(c: Cell, rest: string, sep: char)
    requires Fits(c, sep) && sep != '"'
    requires rest == [] || rest[0] == sep
    ensures ReadField(Render(c) + rest, sep) == (c.text, rest)
  {
    match c
    case Quoted(t) => ReadQuotedCell(t, rest, sep);
    case Bare(t) => ReadBareCell(t, rest, sep);
  }

  lemma ReadQuotedCell(t: string, rest: string, sep: char)
    requires sep != '"'
    requires rest == [] || rest[0] == sep
    ensures ReadField(Render(Quoted(t)) + rest, sep) == (t, rest)
  {
    var inner := DoubleQuotes(t) + "\"" + rest;
    RenderQuotedThen(t, rest);
    ReadQuotedDoubled(t, rest);
    ReadFieldOpen(inner, sep);
    ReadBareAtSep(rest, sep);
    assert t + [] == t;
  }

  lemma RenderQuotedThen(t: string, rest: string)
    ensures Render(Quoted(t)) + rest == ['"'] + (DoubleQuotes(t) + "\"" + rest)
  {
  }

  /** A field that opens with a quote: the quoted content, then bare text up to the separator. */
  lemma ReadFieldOpen(inner: string, sep: char)
    ensures ReadField(['"'] + inner, sep) == (ReadQuoted(inner).0 + ReadBare(ReadQuoted(inner).1, sep).0,
                                              ReadBare(ReadQuoted(inner).1, sep).1)
  {
    assert (['"'] + inner)[1..] == inner;
  }

  /** At the separator or the end, a bare field is empty. */
  lemma ReadBareAtSep(rest: string, sep: char)
    requires rest == [] || rest[0] == sep
    ensures ReadBare(rest, sep) == ([], rest)
  {
  }

  lemma ReadBareCell(t: string, rest: string, sep: char)
    requires forall i :: 0 <= i < |t| ==> t[i] != sep && t[i] != '"'
    requires rest == [] || rest[0] == sep
    requires sep != '"'
    ensures ReadField(t + rest, sep) == (t, rest)
  {
    ReadBareText(t, rest, sep);
    if t != [] {
      assert (t + rest)[0] == t[0];
    } else {
      assert t + rest == rest;
    }
  }

  /** Reading a written row gives back exactly the cells' texts (RFC 4180, section 2, rules 6 and 7). */
  lemma {:induction false} RowRoundTrip(cells: seq<Cell>, sep: char)
    requires |cells| >= 1
    requires sep != '"'
    requires forall i :: 0 <= i < |cells| ==> Fits(cells[i], sep)
    ensures ParseRow(RowText(cells, sep), sep) == Texts(cells)
    decreases |cells|
  {
    if |cells| == 1 {
      ReadCell(cells[0], "", sep);
      assert RowText(cells, sep) == Render(cells[0]) + "";
    } else {
      var rest := [sep] + RowText(cells[1..], sep);
      ReadCell(cells[0], rest, sep);
      assert RowText(cells, sep) == Render(cells[0]) + rest;
      RowRoundTrip(cells[1..], sep);
      assert rest[1..] == RowText(cells[1..], sep);
      assert Texts(cells) == [cells[0].text] + Texts(cells[1..]);
    }
  }

  /** Un-doubling the inside of an escaped field gives the original text back. */
  lemma UndoubleInside(t: string)
    ensures ReadQuoted(DoubleQuotes(t) + "\"") == (t, "")
  {
    ReadQuotedDoubled(t, "");
    assert DoubleQuotes(t) + "\"" + "" == DoubleQuotes(t) + "\"";
  }

  /** A field that fits, then the separator: the row reads as that field followed by the rest's fields. */
  lemma ParseRowCons(c: Cell, rest: string, sep: char)
    requires Fits(c, sep) && sep != '"'
    ensures ParseRow(Render(c) + [sep] + rest, sep) == [c.text] + ParseRow(rest, sep)
  {
    ReadCell(c, [sep] + rest, sep);
    assert Render(c) + [sep] + rest == Render(c) + ([sep] + rest);
    assert ([sep] + rest)[1..] == rest;
  }

  /** The last field of a row. */
  lemma ParseRowLast(c: Cell, sep: char)
    requires Fits(c, sep) && sep != '"'
    ensures ParseRow(Render(c), sep) == [c.text]
  {
    ReadCell(c, "", sep);
    assert Render(c) + "" == Render(c);
  }

  /** Text without a quote is written unchanged. */
  lemma {:induction false} DoubleQuotesNone(s: string)
    requires forall i :: 0 <= i < |s| ==> s[i] != '"'
    ensures DoubleQuotes(s) == s
    decreases |s|
  {
    if s != [] {
      DoubleQuotesNone(s[1..]);
      assert s == [s[0]] + s[1..];
    }
  }

  /** A quoted cell without a quote inside is the text between quotes as it is. */
  lemma QuotedNone(s: string)
    requires NoQuote(s)
    ensures Render(Quoted(s)) == QuotedVerbatim(s)
  {
    DoubleQuotesNone(s);
  }

  /** Every cell rendered. */
  function Renders(cells: seq<Cell>): (r: seq<string>)
    ensures |r| == |cells|
    ensures forall i :: 0 <= i < |cells| ==> r[i] == Render(cells[i])
  {
    seq(|cells|, i requires 0 <= i < |cells| => Render(cells[i]))
  }

  /** A row is its rendered cells joined with the separator. */
  lemma {:induction false} RowTextJoin(cells: seq<Cell>, sep: char)
    ensures RowText(cells, sep) == Strs.Join(Renders(cells), [sep])
    decreases |cells|
  {
    if |cells| > 1 {
      RowTextJoin(cells[1..], sep);
      assert Renders(cells)[1..] == Renders(cells[1..]);
    }
  }

  /** The rendered cells joined with the separator read back as the cells' texts. */
  lemma JoinRoundTrip(cells: seq<Cell>, sep: char)
    requires |cells| >= 1
    requires sep != '"'
    requires forall i :: 0 <= i < |cells| ==> Fits(cells[i], sep)
    ensures ParseRow(Strs.Join(Renders(cells), [sep]), sep) == Texts(cells)
  {
    RowTextJoin(cells, sep);
    RowRoundTrip(cells, sep);
  }

  /** A rendered number holds no comma, semicolon or quote. */
  lemma NumberPlain(s: string, sep: char)
    requires forall i :: 0 <= i < |s| ==> NumFmt.NumberChar(s[i])
    requires sep == ',' || sep == ';'
    ensures Plain(s, sep)
  {
  }

  /** A percentage as `toFixed(1)` writes it, followed by "%", holds no comma, semicolon or quote. */
  lemma PercentPlain(num: real, den: real, sep: char)
    requires sep == ',' || sep == ';'
    ensures Plain(NumFmt.PercentText(num, den) + "%", sep)
  {
    var p := NumFmt.PercentText(num, den);
    if den != 0.0 {
      NumberPlain(p, sep);
    }
    assert Plain("%", sep);
  }

  /** Text made of ISO date characters holds no comma, semicolon or quote. */
  lemma IsoTextPlain(s: string, sep: char)
    requires forall i :: 0 <= i < |s| ==> Calendar.IsoChar(s[i])
    requires sep == ',' || sep == ';'
    ensures Plain(s, sep)
  {
  }

  /** A date's `toISOString()` text holds no comma, semicolon or quote. */
  lemma TimestampPlain(d: Calendar.Date, sep: char)
    requires Calendar.Valid(d)
    requires sep == ',' || sep == ';'
    ensures Plain(Calendar.Timestamp(d), sep)
  {
    IsoTextPlain(Calendar.Timestamp(d), sep);
  }
}
