/**
 * Text helpers shared by every module: substring search, prefixes,
 * decimal digits, lower-casing, trimming, joining and splitting.
 * JavaScript and Python strings are modelled as `seq<char>`.
 */
module Strs {
  import Seqs

  /** `s.includes(sub)` / Python `sub in s`. */
  predicate Contains(s: string, sub: string)
    decreases |s|
  {
    sub <= s || (|s| > 0 && Contains(s[1..], sub))
  }

  /** `sub` occurs in `s` starting at index `i`. */
  predicate OccursAt(s: string, sub: string, i: int)
  {
    0 <= i && i + |sub| <= |s| && s[i..i + |sub|] == sub
  }

  /** `Contains` means `sub` occurs at some index of `s`. */
  lemma {:induction false} ContainsAt(s: string, sub: string, i: int)
    requires OccursAt(s, sub, i)
    ensures Contains(s, sub)
    decreases i
  {
    if i > 0 {
      assert OccursAt(s[1..], sub, i - 1) by {
        assert s[1..][i - 1..i - 1 + |sub|] == s[i..i + |sub|];
      }
      ContainsAt(s[1..], sub, i - 1);
    } else {
      assert sub <= s;
    }
  }

  /** A text contains itself, with anything around it. */
  lemma ContainsInfix(a: string, b: string, c: string)
    ensures Contains(a + b + c, b)
  {
    assert (a + b + c)[|a|..|a| + |b|] == b;
    ContainsAt(a + b + c, b, |a|);
  }

  /** `arr.some(w => s.includes(w))`. */
  predicate ContainsAny(s: string, words: seq<string>)
  {
    exists i :: 0 <= i < |words| && Contains(s, words[i])
  }

  /** Index of the first word of `words` that occurs in `s`, or |words| when none does. */
  function FirstContained(s: string, words: seq<string>): (k: nat)
    ensures k <= |words|
    ensures k < |words| ==> Contains(s, words[k])
    ensures forall j :: 0 <= j < k ==> !Contains(s, words[j])
    ensures k == |words| <==> !ContainsAny(s, words)
    decreases |words|
  {
    if words == [] then 0
    else if Contains(s, words[0]) then 0
    else 1 + FirstContained(s, words[1..])
  }

  /**
   * An `if (s.includes(..) || ..) .. else if ..` chain as a table: the index
   * of the first group with a word that occurs in `s`, or |groups| when no
   * group has one.
   */
  function FirstGroup<T>(s: string, groups: seq<(T, seq<string>)>): (k: nat)
    ensures k <= |groups|
    ensures k < |groups| ==> ContainsAny(s, groups[k].1)
    ensures forall j :: 0 <= j < k ==> !ContainsAny(s, groups[j].1)
    decreases |groups|
  {
    if groups == [] then 0
    else if ContainsAny(s, groups[0].1) then 0
    else 1 + FirstGroup(s, groups[1..])
  }

  /** Unfolding `FirstGroup` once. */
  lemma FirstGroupStep<T>(msg: string, g: (T, seq<string>), rest: seq<(T, seq<string>)>)
    ensures FirstGroup(msg, [g] + rest) == if ContainsAny(msg, g.1) then 0 else 1 + FirstGroup(msg, rest)
  {
    assert ([g] + rest)[1..] == rest;
  }

  /** The first group of a concatenation is in the first part when any there matches. */
  lemma {:induction false} FirstGroupAppend<T>(msg: string, xs: seq<(T, seq<string>)>, ys: seq<(T, seq<string>)>)
    ensures FirstGroup(msg, xs + ys) ==
            if FirstGroup(msg, xs) < |xs| then FirstGroup(msg, xs) else |xs| + FirstGroup(msg, ys)
    decreases |xs|
  {
    if xs == [] {
      assert xs + ys == ys;
    } else {
      assert (xs + ys)[1..] == xs[1..] + ys;
      FirstGroupAppend(msg, xs[1..], ys);
    }
  }

  /** `s.endsWith(suffix)`. */
  predicate EndsWith(s: string, suffix: string)
  {
    |suffix| <= |s| && s[|s| - |suffix|..] == suffix
  }

  lemma EndsWithAppend(a: string, b: string)
    ensures EndsWith(a + b, b)
  {
    assert (a + b)[|a|..] == b;
  }

  lemma EndsWithGrow(a: string, s: string, suffix: string)
    requires EndsWith(s, suffix)
    ensures EndsWith(a + s, suffix)
  {
    assert (a + s)[|a + s| - |suffix|..] == s[|s| - |suffix|..];
  }

  lemma PrefixAppend(p: string, a: string, b: string)
    requires p <= a
    ensures p <= a + b
  {
    assert (a + b)[..|p|] == a[..|p|];
  }

  /** Two prefixes that differ at one position cannot both start the same text. */
  lemma PrefixesDiffer(p: string, q: string, s: string, k: nat)
    requires q <= s && k < |p| && k < |q| && p[k] != q[k]
    ensures !(p <= s) && s != p
  {
  }

  /** Two suffixes that differ at one position from the end cannot both end the same text. */
  lemma SuffixesDiffer(p: string, q: string, s: string, j: nat)
    requires EndsWith(s, q) && 0 < j <= |p| && j <= |q| && p[|p| - j] != q[|q| - j]
    ensures !EndsWith(s, p) && s != p
  {
    assert s[|s| - j] == q[|q| - j];
    assert EndsWith(p, p);
  }

  /** A text starts with itself, and with what it is prefixed to. */
  lemma PrefixOfAppend(p: string, t: string)
    ensures p <= p && p <= p + t
  {
  }

  /** The character right after a prefix is the first character of what follows it. */
  lemma CharAfter(p: string, x: string, c: string)
    requires x != []
    ensures |p| < |p + x + c| && (p + x + c)[|p|] == x[0]
  {
  }

  /** A prefix occurs in the text. */
  lemma PrefixContained(p: string, s: string)
    requires p <= s
    ensures Contains(s, p)
  {
  }

  /** Where `sub` occurs in a text that contains it. */
  lemma {:induction false} OccursIndex(s: string, sub: string) returns (i: nat)
    requires Contains(s, sub)
    ensures OccursAt(s, sub, i)
    decreases |s|
  {
    if sub <= s {
      i := 0;
      assert s[..|sub|] == sub;
    } else {
      var k := OccursIndex(s[1..], sub);
      i := k + 1;
      assert s[1..][k..k + |sub|] == s[i..i + |sub|];
    }
  }

  /** A text that contains `b` contains whatever `b` contains. */
  lemma ContainsTrans(a: string, b: string, c: string)
    requires Contains(a, b) && Contains(b, c)
    ensures Contains(a, c)
  {
    var i := OccursIndex(a, b);
    var j := OccursIndex(b, c);
    assert a[i..i + |b|] == b;
    assert b[j..j + |c|] == c;
    forall k | 0 <= k < |c| ensures a[i + j + k] == c[k] {
      assert a[i + j + k] == a[i..i + |b|][j + k];
      assert b[j + k] == b[j..j + |c|][k];
    }
    assert a[i + j..i + j + |c|] == c;
    ContainsAt(a, c, i + j);
  }

  /** Text added on either side keeps what a text contains. */
  lemma ContainsGrow(a: string, s: string, b: string, sub: string)
    requires Contains(s, sub)
    ensures Contains(a + s + b, sub)
  {
    ContainsInfix(a, s, b);
    ContainsTrans(a + s + b, s, sub);
  }

  /** Text added after keeps what a text contains. */
  lemma ContainsExtend(s: string, b: string, sub: string)
    requires Contains(s, sub)
    ensures Contains(s + b, sub)
  {
    ContainsGrow("", s, b, sub);
    assert "" + s + b == s + b;
  }

  /** Every part occurs in the joined text. */
  lemma {:induction false} JoinHasPart(parts: seq<string>, sep: string, i: nat)
    requires i < |parts|
    ensures Contains(Join(parts, sep), parts[i])
    decreases |parts|
  {
    if |parts| == 1 {
      PrefixContained(parts[0], parts[0]);
    } else if i == 0 {
      PrefixAppend(parts[0], parts[0], sep);
      PrefixAppend(parts[0], parts[0] + sep, Join(parts[1..], sep));
      PrefixContained(parts[0], Join(parts, sep));
    } else {
      JoinHasPart(parts[1..], sep, i - 1);
      ContainsGrow(parts[0] + sep, Join(parts[1..], sep), "", parts[i]);
      assert parts[0] + sep + Join(parts[1..], sep) + "" == Join(parts, sep);
    }
  }

  // ---- characters ----

  predicate IsDigit(c: char) { '0' <= c <= '9' }

  function DigitVal(c: char): nat
    requires IsDigit(c)
  {
    (c as int - '0' as int) as nat
  }

  function DigitChar(n: nat): (c: char)
    requires n < 10
    ensures IsDigit(c) && DigitVal(c) == n
  {
    ('0' as int + n) as char
  }

  predicate AllDigits(s: string) { forall i :: 0 <= i < |s| ==> IsDigit(s[i]) }

  predicate HasDigit(s: string) { exists i :: 0 <= i < |s| && IsDigit(s[i]) }

  /** Decimal rendering of a natural number, without leading zeros (`String(n)`). */
  function NatStr(n: nat): (s: string)
    ensures |s| >= 1 && AllDigits(s)
    ensures n < 10 <==> |s| == 1
    ensures n >= 10 ==> s[0] != '0'
    ensures n < 100 ==> |s| <= 2
    ensures n < 10000 ==> |s| <= 4
    decreases n
  {
    if n < 10 then [DigitChar(n)] else NatStr(n / 10) + [DigitChar(n % 10)]
  }

  /** `String(i)` for an integer. */
  function IntStr(i: int): string
  {
    if i < 0 then "-" + NatStr(-i) else NatStr(i)
  }

  /** Value of a run of decimal digits, as `parseInt` reads it. */
  function ParseDigits(s: string): nat
    requires AllDigits(s)
    decreases |s|
  {
    if s == [] then 0 else 10 * ParseDigits(s[..|s| - 1]) + DigitVal(s[|s| - 1])
  }

  lemma {:induction false} ParseNatStr(n: nat)
    ensures ParseDigits(NatStr(n)) == n
    decreases n
  {
    if n >= 10 {
      ParseNatStr(n / 10);
      var s := NatStr(n);
      assert s[..|s| - 1] == NatStr(n / 10);
    }
  }

  /** Leading zeros do not change the value of a digit run. */
  lemma {:induction false} ParseLeadingZero(s: string)
    requires AllDigits(s)
    ensures ParseDigits("0" + s) == ParseDigits(s)
    decreases |s|
  {
    if s != [] {
      assert ("0" + s)[..|"0" + s| - 1] == "0" + s[..|s| - 1];
      ParseLeadingZero(s[..|s| - 1]);
    }
  }

  /** The longest run of digits at the start of `s`. */
  function DigitPrefix(s: string): (r: string)
    ensures r <= s && AllDigits(r)
    ensures |r| == |s| || !IsDigit(s[|r|])
    decreases |s|
  {
    if s != [] && IsDigit(s[0]) then [s[0]] + DigitPrefix(s[1..]) else []
  }

  /** What `parseInt` yields: `NaN`, or an integer. */
  datatype ParsedInt = NaN | Int(value: int)

  /**
   * `parseInt(s)` in base 10: leading white space and one sign are skipped,
   * then the leading digits are read; without any digit the result is NaN.
   */
  function ParseInt(s: string): (r: ParsedInt)
    ensures r.NaN? <==> DigitPrefix(SignSkipped(TrimStart(s))) == []
  {
    var t := TrimStart(s);
    var d := DigitPrefix(SignSkipped(t));
    if d == [] then NaN
    else if t[0] == '-' then Int(-(ParseDigits(d) as int))
    else Int(ParseDigits(d))
  }

  function SignSkipped(t: string): string
  {
    if t != [] && (t[0] == '-' || t[0] == '+') then t[1..] else t
  }

  /** `parseInt(String(n)) === n`. */
  lemma ParseIntNatStr(n: nat)
    ensures ParseInt(NatStr(n)) == Int(n)
  {
    var s := NatStr(n);
    assert IsDigit(s[0]) && !IsSpace(s[0]);
    assert TrimStart(s) == s;
    assert SignSkipped(s) == s;
    DigitPrefixAll(s);
    ParseNatStr(n);
  }

  /** `parseInt(String(i) + rest)` is `i` when `rest` does not go on with a digit. */
  lemma ParseIntIntStr(i: int, rest: string)
    requires rest == [] || !IsDigit(rest[0])
    ensures ParseInt(IntStr(i) + rest) == Int(i)
  {
    var n: nat := if i < 0 then -i else i;
    var d := NatStr(n);
    ParseNatStr(n);
    if i < 0 {
      assert IntStr(i) + rest == "-" + (d + rest);
      ParseIntNegDigits(d, rest);
      assert ParseInt("-" + (d + rest)) == Int(-(n as int));
    } else {
      assert IntStr(i) + rest == d + rest;
      ParseIntDigits(d, rest);
      assert ParseInt(d + rest) == Int(n);
    }
  }

  lemma ParseIntDigits(d: string, rest: string)
    requires d != [] && AllDigits(d) && (rest == [] || !IsDigit(rest[0]))
    ensures ParseInt(d + rest) == Int(ParseDigits(d))
  {
    var s := d + rest;
    assert s[0] == d[0];
    assert !IsSpace(s[0]);
    assert TrimStart(s) == s;
    assert SignSkipped(s) == s;
    DigitPrefixStop(d, rest);
  }

  lemma ParseIntNegDigits(d: string, rest: string)
    requires d != [] && AllDigits(d) && (rest == [] || !IsDigit(rest[0]))
    ensures ParseInt("-" + (d + rest)) == Int(-(ParseDigits(d) as int))
  {
    var s := "-" + (d + rest);
    assert s[0] == '-';
    assert TrimStart(s) == s;
    assert s[1..] == d + rest;
    assert SignSkipped(s) == d + rest;
    DigitPrefixStop(d, rest);
  }

  /** The leading digits of digits followed by a non-digit are those digits. */
  lemma {:induction false} DigitPrefixStop(s: string, rest: string)
    requires AllDigits(s) && (rest == [] || !IsDigit(rest[0]))
    ensures DigitPrefix(s + rest) == s
    decreases |s|
  {
    if s != [] {
      assert (s + rest)[1..] == s[1..] + rest;
      DigitPrefixStop(s[1..], rest);
    }
  }

  lemma {:induction false} DigitPrefixAll(s: string)
    requires AllDigits(s)
    ensures DigitPrefix(s) == s
    decreases |s|
  {
    if s != [] {
      DigitPrefixAll(s[1..]);
    }
  }

  /** `String(n).padStart(2, "0")`. */
  function Pad2(n: nat): (s: string)
    ensures AllDigits(s) && ParseDigits(s) == n
    ensures n < 100 ==> |s| == 2
  {
    ParseNatStr(n);
    if n < 10 then (ParseLeadingZero(NatStr(n)); "0" + NatStr(n)) else NatStr(n)
  }

  /** `str.padStart(width, "0")` on a digit string. */
  function PadZeros(s: string, width: nat): (r: string)
    ensures |r| == if |s| >= width then |s| else width
    ensures AllDigits(s) ==> AllDigits(r) && ParseDigits(r) == ParseDigits(s)
    decreases width - |s|
  {
    if |s| >= width then s
    else
      var r := PadZeros("0" + s, width);
      assert AllDigits(s) ==> AllDigits("0" + s) by {
        if AllDigits(s) { assert forall i :: 1 <= i < |"0" + s| ==> ("0" + s)[i] == s[i - 1]; }
      }
      if AllDigits(s) then ParseLeadingZero(s); r else r
  }

  // ---- case ----

  /**
   * `toLowerCase` / Python `lower()` restricted to the letters a Portuguese
   * sentence uses: ASCII A-Z and the Latin-1 capitals (except the
   * multiplication sign).
   */
  function LowerChar(c: char): (r: char)
  {
    if 'A' <= c <= 'Z' then (c as int + 32) as char
    else if 'À' <= c <= 'Þ' && c != '×' then (c as int + 32) as char
    else c
  }

  function Lower(s: string): (r: string)
    ensures |r| == |s|
    ensures forall i :: 0 <= i < |s| ==> r[i] == LowerChar(s[i])
  {
    seq(|s|, i requires 0 <= i < |s| => LowerChar(s[i]))
  }

  /** `toUpperCase` on the same letters: a-z and the Latin-1 small letters (except the division sign and ÿ). */
  function UpperChar(c: char): (r: char)
  {
    if 'a' <= c <= 'z' then (c as int - 32) as char
    else if 'à' <= c <= 'þ' && c != '÷' then (c as int - 32) as char
    else c
  }

  function Upper(s: string): (r: string)
    ensures |r| == |s|
    ensures forall i :: 0 <= i < |s| ==> r[i] == UpperChar(s[i])
  {
    seq(|s|, i requires 0 <= i < |s| => UpperChar(s[i]))
  }

  /** `c.repeat(n)`. */
  function Repeat(c: char, n: nat): (r: string)
    ensures |r| == n
    ensures forall i :: 0 <= i < n ==> r[i] == c
  {
    seq(n, i requires 0 <= i < n => c)
  }

  lemma LowerIdempotent(s: string)
    ensures Lower(Lower(s)) == Lower(s)
  {
  }

  // ---- whitespace ----

  predicate IsSpace(c: char)
  {
    c == ' ' || c == '\t' || c == '\n' || c == '\r' || c == '\U{000B}' || c == '\U{000C}' || c == '\U{00A0}'
  }

  function TrimStart(s: string): (r: string)
    ensures |r| <= |s| && r == s[|s| - |r|..]
    ensures r == [] || !IsSpace(r[0])
    decreases |s|
  {
    if s != [] && IsSpace(s[0]) then TrimStart(s[1..]) else s
  }

  function TrimEnd(s: string): (r: string)
    ensures |r| <= |s| && r == s[..|r|]
    ensures r == [] || !IsSpace(r[|r| - 1])
    decreases |s|
  {
    if s != [] && IsSpace(s[|s| - 1]) then TrimEnd(s[..|s| - 1]) else s
  }

  /** `str.trim()`: no leading or trailing white space, and a contiguous piece of the input. */
  function Trim(s: string): (r: string)
    ensures |r| <= |s|
    ensures r == [] || (!IsSpace(r[0]) && !IsSpace(r[|r| - 1]))
  {
    TrimEnd(TrimStart(s))
  }

  // ---- joining and splitting ----

  /** `parts.join(sep)`. */
  function Join(parts: seq<string>, sep: string): (r: string)
    decreases |parts|
  {
    if parts == [] then ""
    else if |parts| == 1 then parts[0]
    else parts[0] + sep + Join(parts[1..], sep)
  }

  /** The text of each element with its position: `s.map((x, i) => item(i, x))`. */
  function Items<T>(s: seq<T>, item: (nat, T) -> string): (r: seq<string>)
    ensures |r| == |s|
    ensures forall i :: 0 <= i < |s| ==> r[i] == item(i, s[i])
  {
    seq(|s|, i requires 0 <= i < |s| => item(i, s[i]))
  }

  /** Joining one more part adds the separator and the part, unless it is the first. */
  lemma {:induction false} JoinSnoc(parts: seq<string>, x: string, sep: string)
    ensures Join(parts + [x], sep) == if parts == [] then x else Join(parts, sep) + sep + x
    decreases |parts|
  {
    if parts == [] {
      assert parts + [x] == [x];
    } else {
      var rest := parts[1..];
      assert (parts + [x])[0] == parts[0];
      assert (parts + [x])[1..] == rest + [x];
      JoinSnoc(rest, x, sep);
      if rest != [] {
        var j := Join(rest, sep);
        Seqs.AppendAssoc(parts[0] + sep, j, sep);
        Seqs.AppendAssoc(parts[0] + sep, j + sep, x);
      }
    }
  }

  /**
   * `s.forEach((x, i) => { text += item(i, x); if (i < s.length - 1) text += sep; })`:
   * the items joined by the separator.
   */
  method AppendJoined<T>(text: string, s: seq<T>, item: (nat, T) -> string, sep: string) returns (r: string)
    ensures r == text + Join(Items(s, item), sep)
  {
    var parts := Items(s, item);
    r := text;
    var index := 0;
    while index < |s|
      invariant 0 <= index <= |s|
      invariant r == text + Join(parts[..index], sep) + (if 0 < index < |s| then sep else "")
    {
      assert parts[..index + 1] == parts[..index] + [parts[index]];
      JoinSnoc(parts[..index], parts[index], sep);
      if index > 0 {
        var joined := Join(parts[..index], sep);
        Seqs.AppendAssoc(text, joined, sep);
        Seqs.AppendAssoc(text, joined + sep, parts[index]);
      }
      r := r + item(index, s[index]);
      if index < |s| - 1 {
        r := r + sep;
      }
      index := index + 1;
    }
    assert parts[..|s|] == parts;
  }

  /** `row(x) + "\n"` appended for every element, in order. */
  function Lines<T>(s: seq<T>, row: T -> string): string
    decreases |s|
  {
    if s == [] then "" else Lines(s[..|s| - 1], row) + row(s[|s| - 1]) + "\n"
  }

  /** The lines of two lists one after the other are the lines of the concatenation. */
  lemma {:induction false} LinesAppend<T>(a: seq<T>, b: seq<T>, row: T -> string)
    ensures Lines(a + b, row) == Lines(a, row) + Lines(b, row)
    decreases |b|
  {
    if b != [] {
      var b', x := b[..|b| - 1], b[|b| - 1];
      LinesAppend(a, b', row);
      LastOfAppend(a, b);
      var u, v := Lines(a, row), Lines(b', row);
      assert Lines(a + b, row) == (u + v) + row(x) + "\n";
      assert Lines(b, row) == v + row(x) + "\n";
      assert (u + v) + row(x) + "\n" == u + (v + row(x) + "\n");
    } else {
      assert a + b == a;
    }
  }

  /** Two row renderings that agree on every element give the same lines. */
  lemma {:induction false} LinesAgree<T>(s: seq<T>, f: T -> string, g: T -> string)
    requires forall x :: x in s ==> f(x) == g(x)
    ensures Lines(s, f) == Lines(s, g)
    decreases |s|
  {
    if s != [] {
      assert forall x :: x in s[..|s| - 1] ==> x in s;
      LinesAgree(s[..|s| - 1], f, g);
    }
  }

  /** The last element and the rest of `a + b`, for a non-empty `b`. */
  lemma LastOfAppend<T>(a: seq<T>, b: seq<T>)
    requires b != []
    ensures (a + b)[..|a + b| - 1] == a + b[..|b| - 1]
    ensures (a + b)[|a + b| - 1] == b[|b| - 1]
  {
  }

  /** Appending `row(x)` and a line break for each element in turn (`for (const x of s) text += row(x) + "\n"`). */
  method AppendLines<T>(text: string, s: seq<T>, row: T -> string) returns (r: string)
    ensures r == text + Lines(s, row)
  {
    r := text;
    var i := 0;
    while i < |s|
      invariant 0 <= i <= |s|
      invariant r == text + Lines(s[..i], row)
    {
      assert s[..i + 1][..i] == s[..i];
      r := r + row(s[i]) + "\n";
      i := i + 1;
    }
    assert s[..|s|] == s;
  }

  /** `block(x)` appended for every element, in order, with nothing between. */
  function Concat<T>(s: seq<T>, block: T -> string): string
    decreases |s|
  {
    if s == [] then "" else Concat(s[..|s| - 1], block) + block(s[|s| - 1])
  }

  /** Appending `block(x)` for each element in turn (`s.forEach(x => text += block(x))`). */
  method AppendEach<T>(text: string, s: seq<T>, block: T -> string) returns (r: string)
    ensures r == text + Concat(s, block)
  {
    r := text;
    var i := 0;
    while i < |s|
      invariant 0 <= i <= |s|
      invariant r == text + Concat(s[..i], block)
    {
      assert s[..i + 1][..i] == s[..i];
      r := r + block(s[i]);
      i := i + 1;
    }
    assert s[..|s|] == s;
  }

  /** Index of the first `c` in `s`, or |s|. */
  function IndexOfChar(s: string, c: char): (k: nat)
    ensures k <= |s|
    ensures k < |s| ==> s[k] == c
    ensures forall j :: 0 <= j < k ==> s[j] != c
  {
    if s == [] then 0 else if s[0] == c then 0 else 1 + IndexOfChar(s[1..], c)
  }

  /** `s.split(c)` for a one-character separator. */
  function Split(s: string, c: char): (parts: seq<string>)
    ensures |parts| >= 1
    decreases |s|
  {
    var k := IndexOfChar(s, c);
    if k == |s| then [s] else [s[..k]] + Split(s[k + 1..], c)
  }

  /** Splitting a text that has no separator gives the text back. */
  lemma SplitNone(s: string, c: char)
    requires forall i :: 0 <= i < |s| ==> s[i] != c
    ensures Split(s, c) == [s]
  {
  }

  /** Splitting `a + c + rest` where `a` has no `c` peels off `a`. */
  lemma SplitFirst(a: string, c: char, rest: string)
    requires forall i :: 0 <= i < |a| ==> a[i] != c
    ensures Split(a + [c] + rest, c) == [a] + Split(rest, c)
  {
    var s := a + [c] + rest;
    assert IndexOfChar(s, c) == |a| by {
      assert s[|a|] == c;
      assert forall j :: 0 <= j < |a| ==> s[j] == a[j];
    }
    assert s[..|a|] == a;
    assert s[|a| + 1..] == rest;
  }

  /** Number of occurrences of `c` in `s`. */
  function CountChar(s: string, c: char): nat
    decreases |s|
  {
    if s == [] then 0 else (if s[0] == c then 1 else 0) + CountChar(s[1..], c)
  }

  /** Replace every `a` by `b` (`s.replace(/a/g, b)` for one character). */
  function ReplaceChar(s: string, a: char, b: char): (r: string)
    ensures |r| == |s|
    ensures forall i :: 0 <= i < |s| ==> r[i] == (if s[i] == a then b else s[i])
  {
    seq(|s|, i requires 0 <= i < |s| => if s[i] == a then b else s[i])
  }

  // ---- ordering ----

  /** `a <= b` on strings, and `a.localeCompare(b) <= 0` on the digit-and-dash keys the charts sort: code-unit order. */
  predicate StrLe(a: string, b: string)
    decreases |a|
  {
    a == [] || (b != [] && (a[0] < b[0] || (a[0] == b[0] && StrLe(a[1..], b[1..]))))
  }

  lemma {:induction false} StrLeTotal(a: string, b: string)
    ensures StrLe(a, b) || StrLe(b, a)
    decreases |a|
  {
    if a != [] && b != [] && a[0] == b[0] {
      StrLeTotal(a[1..], b[1..]);
    }
  }

  lemma {:induction false} StrLeTrans(a: string, b: string, c: string)
    requires StrLe(a, b) && StrLe(b, c)
    ensures StrLe(a, c)
    decreases |a|
  {
    if a != [] && b[0] == a[0] && c[0] == b[0] {
      StrLeTrans(a[1..], b[1..], c[1..]);
    }
  }

  /** Code-unit order is a total preorder, so the sorts that use it are sorted by it. */
  lemma StrLeOrder()
    ensures Seqs.TotalPreorder(StrLe)
  {
    forall a, b ensures StrLe(a, b) || StrLe(b, a) {
      StrLeTotal(a, b);
    }
    forall a, b, c | StrLe(a, b) && StrLe(b, c) ensures StrLe(a, c) {
      StrLeTrans(a, b, c);
    }
  }

  lemma {:induction false} StrLeAntisymmetric(a: string, b: string)
    requires StrLe(a, b) && StrLe(b, a)
    ensures a == b
    decreases |a|
  {
    if a != [] {
      StrLeAntisymmetric(a[1..], b[1..]);
    }
  }

  /** Strings of one length compare first on everything but the last character, then on that. */
  lemma StrLeSnoc(a: string, b: string, x: char, y: char)
    requires |a| == |b|
    ensures StrLe(a + [x], b + [y]) <==> (a != b && StrLe(a, b)) || (a == b && x <= y)
  {
    StrLeConcat(a, [x], b, [y]);
    StrLeChar(x, y);
  }

  lemma StrLeChar(x: char, y: char)
    ensures StrLe([x], [y]) <==> x <= y
  {
    assert [x][1..] == [] && [y][1..] == [];
    assert StrLe([], []);
  }

  /** On digit strings of one length, string order is numeric order and equal strings are equal numbers. */
  lemma {:induction false} StrLeDigits(a: string, b: string)
    requires |a| == |b| && AllDigits(a) && AllDigits(b)
    ensures StrLe(a, b) <==> ParseDigits(a) <= ParseDigits(b)
    ensures a == b <==> ParseDigits(a) == ParseDigits(b)
    decreases |a|
  {
    if a != [] {
      var ia, ib := a[..|a| - 1], b[..|b| - 1];
      var x, y := a[|a| - 1], b[|b| - 1];
      assert a == ia + [x] && b == ib + [y];
      StrLeDigits(ia, ib);
      StrLeSnoc(ia, ib, x, y);
      var pa, pb := ParseDigits(ia), ParseDigits(ib);
      assert ParseDigits(a) == 10 * pa + DigitVal(x);
      assert ParseDigits(b) == 10 * pb + DigitVal(y);
      DigitsEqual(pa, pb, x, y);
    }
  }

  /** A number ending in one more digit: equal values have equal leading parts and equal last digits. */
  lemma DigitsEqual(pa: nat, pb: nat, x: char, y: char)
    requires IsDigit(x) && IsDigit(y)
    ensures 10 * pa + DigitVal(x) == 10 * pb + DigitVal(y) <==> pa == pb && x == y
  {
    if pa < pb {
      assert 10 * pa + DigitVal(x) < 10 * pb;
    } else if pb < pa {
      assert 10 * pb + DigitVal(y) < 10 * pa;
    }
  }

  /** Behind prefixes of one length, the prefixes decide unless they are equal. */
  lemma {:induction false} StrLeConcat(a: string, b: string, c: string, d: string)
    requires |a| == |c|
    ensures StrLe(a + b, c + d) <==> (a != c && StrLe(a, c)) || (a == c && StrLe(b, d))
    decreases |a|
  {
    if a != [] {
      assert (a + b)[1..] == a[1..] + b;
      assert (c + d)[1..] == c[1..] + d;
      StrLeConcat(a[1..], b, c[1..], d);
      if a[0] == c[0] {
        assert a != c <==> a[1..] != c[1..] by {
          if a[1..] == c[1..] { assert a == [a[0]] + a[1..]; assert c == [c[0]] + c[1..]; }
        }
      }
    } else {
      assert a + b == b && c + d == d;
    }
  }
}
