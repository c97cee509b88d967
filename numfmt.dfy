/**
 * `Number.prototype.toFixed(f)` on an exact decimal value: the magnitude is
 * rounded to `f` decimals (a tie goes to the larger magnitude) and a
 * minus sign is kept for negative inputs.
 */
module NumFmt {
  import Strs

  function Pow10(f: nat): (p: nat)
    ensures p >= 1
  {
    if f == 0 then 1 else 10 * Pow10(f - 1)
  }

  /** Characters that can appear in a rendered number. */
  predicate NumberChar(c: char) { Strs.IsDigit(c) || c == '-' || c == '.' }

  /**
   * `s` writes the number `n / 10^f`: with no decimals, the digits of `n`;
   * otherwise digits, a point, and exactly `f` digits, the two digit runs
   * read together giving `n`.
   */
  predicate Denotes(s: string, f: nat, n: nat)
  {
    if f == 0 then |s| >= 1 && Strs.AllDigits(s) && Strs.ParseDigits(s) == n
    else
      |s| >= f + 2 && s[|s| - f - 1] == '.' &&
      Strs.AllDigits(s[..|s| - f - 1]) && Strs.AllDigits(s[|s| - f..]) &&
      Strs.ParseDigits(s[..|s| - f - 1]) * Pow10(f) + Strs.ParseDigits(s[|s| - f..]) == n
  }

  /**
   * `n / 10^f` written with `f` decimals: the digits of `n` with a point
   * before the last `f` of them, zeros added in front where `n` has too few.
   */
  function Decimals(n: nat, f: nat): (s: string)
    ensures |s| >= 1 && Strs.IsDigit(s[0])
    ensures forall i :: 0 <= i < |s| ==> NumberChar(s[i])
    decreases f
  {
    if f == 0 then Strs.NatStr(n)
    else if f == 1 then Strs.NatStr(n / 10) + "." + [Strs.DigitChar(n % 10)]
    else Decimals(n / 10, f - 1) + [Strs.DigitChar(n % 10)]
  }

  /** The text `Decimals` writes denotes `n / 10^f`: a point before the last `f` digits, the digits reading back as `n`. */
  lemma {:induction false} DecimalsDenote(n: nat, f: nat)
    ensures Denotes(Decimals(n, f), f, n)
    decreases f
  {
    var last := Strs.DigitChar(n % 10);
    if f == 0 {
      Strs.ParseNatStr(n);
    } else if f == 1 {
      Strs.ParseNatStr(n / 10);
      LastDigit(n);
      OneDecimal(Strs.NatStr(n / 10), last);
    } else {
      DecimalsDenote(n / 10, f - 1);
      LastDigit(n);
      OneMoreDecimal(Decimals(n / 10, f - 1), last, f - 1, n / 10);
    }
  }

  /** A number is ten times its leading digits plus its last digit. */
  lemma LastDigit(n: nat)
    ensures 10 * (n / 10) + Strs.DigitVal(Strs.DigitChar(n % 10)) == n
  {
  }

  /** Digits, a point and one digit `c` write the digits' number times ten plus `c`. */
  lemma OneDecimal(whole: string, c: char)
    requires |whole| >= 1 && Strs.AllDigits(whole) && Strs.IsDigit(c)
    ensures Denotes(whole + "." + [c], 1, 10 * Strs.ParseDigits(whole) + Strs.DigitVal(c))
  {
    assert [c][..0] == [];
    assert Strs.ParseDigits([c]) == Strs.DigitVal(c);
    assert Pow10(1) == 10;
    PointBetween(whole, [c], 1, 10 * Strs.ParseDigits(whole) + Strs.DigitVal(c));
  }

  /** Digits, a point and `f` digits write the number the two runs read together give. */
  lemma PointBetween(whole: string, frac: string, f: nat, n: nat)
    requires f >= 1 && |frac| == f && |whole| >= 1 && Strs.AllDigits(whole) && Strs.AllDigits(frac)
    requires Strs.ParseDigits(whole) * Pow10(f) + Strs.ParseDigits(frac) == n
    ensures Denotes(whole + "." + frac, f, n)
  {
    var s := whole + "." + frac;
    assert s[..|s| - f - 1] == whole;
    assert s[|s| - f..] == frac;
  }

  /** One more digit `c` behind `f` decimals gives `f + 1` decimals and ten times the number plus `c`. */
  lemma OneMoreDecimal(d: string, c: char, f: nat, m: nat)
    requires f >= 1 && Denotes(d, f, m) && Strs.IsDigit(c)
    ensures Denotes(d + [c], f + 1, 10 * m + Strs.DigitVal(c))
  {
    var s := d + [c];
    var whole, frac := d[..|d| - f - 1], d[|d| - f..];
    assert s[..|s| - (f + 1) - 1] == whole;
    assert s[|s| - (f + 1)..] == frac + [c];
    assert (frac + [c])[..|frac|] == frac;
    var w, q := Strs.ParseDigits(whole), Strs.ParseDigits(frac);
    assert Strs.ParseDigits(frac + [c]) == 10 * q + Strs.DigitVal(c);
    calc {
      w * Pow10(f + 1) + (10 * q + Strs.DigitVal(c));
      10 * (w * Pow10(f) + q) + Strs.DigitVal(c);
      10 * m + Strs.DigitVal(c);
    }
  }

  /** `|x| * 10^f` rounded to a whole number, a tie going to the larger magnitude. */
  function Rounded(a: real, f: nat): nat
    requires a >= 0.0
  {
    (a * Pow10(f) as real + 0.5).Floor
  }

  /** The rounded value is the whole number within half of `a * 10^f`, the upper one on a tie. */
  lemma RoundedSpec(a: real, f: nat)
    requires a >= 0.0
    ensures var n := Rounded(a, f); a * Pow10(f) as real - 0.5 < n as real <= a * Pow10(f) as real + 0.5
  {
  }

  /**
   * `x.toFixed(f)`: a minus sign exactly for a negative `x`, then the
   * magnitude rounded to `f` decimals, a tie going away from zero.
   */
  function Fixed(x: real, f: nat): (s: string)
    ensures |s| >= 1
    ensures forall i :: 0 <= i < |s| ==> NumberChar(s[i])
    ensures (s[0] == '-') <==> x < 0.0
  {
    var a := if x < 0.0 then -x else x;
    var body := Decimals(Rounded(a, f), f);
    if x < 0.0 then "-" + body else body
  }

  /** After the sign, the text of `toFixed` reads back as the magnitude rounded to `f` decimals. */
  lemma FixedDenotes(x: real, f: nat)
    ensures var s, a := Fixed(x, f), if x < 0.0 then -x else x;
            Denotes(if x < 0.0 then s[1..] else s, f, Rounded(a, f))
  {
    var a := if x < 0.0 then -x else x;
    var body := Decimals(Rounded(a, f), f);
    DecimalsDenote(Rounded(a, f), f);
    if x < 0.0 {
      assert Fixed(x, f)[1..] == ("-" + body)[1..] == body;
    }
  }

  /** `toFixed(2)`. */
  function Fixed2(x: real): string { Fixed(x, 2) }

  /** `toFixed(1)`. */
  function Fixed1(x: real): string { Fixed(x, 1) }

  /** A JavaScript number as the reports meet it: a finite value, an infinity or NaN. */
  datatype JsNumber = Finite(value: real) | PosInfinity | NegInfinity | NaN

  /** `num / den`: dividing by zero gives an infinity with the numerator's sign, or NaN for 0 / 0. */
  function Quotient(num: real, den: real): (q: JsNumber)
    ensures den != 0.0 <==> q.Finite?
    ensures den != 0.0 ==> q == Finite(num / den) && q.value * den == num
  {
    if den != 0.0 then Finite(num / den)
    else if num > 0.0 then PosInfinity
    else if num < 0.0 then NegInfinity
    else NaN
  }

  /** `(num / den) * 100`. */
  function Percent(num: real, den: real): (p: JsNumber)
    ensures den != 0.0 ==> p == Finite(num / den * 100.0)
    ensures den == 0.0 ==> p == Quotient(num, den)
  {
    match Quotient(num, den)
    case Finite(q) => Finite(q * 100.0)
    case other => other
  }

  /** A real with no fractional part. */
  predicate IsWhole(v: real) { v == v.Floor as real }

  /** `Math.round(x)`: halves go up; the infinities and NaN are kept. */
  function JsRound(x: JsNumber): (r: JsNumber)
    ensures r.Finite? <==> x.Finite?
    ensures x.Finite? ==> IsWhole(r.value) && x.value - 0.5 < r.value <= x.value + 0.5
    ensures !x.Finite? ==> r == x
  {
    match x
    case Finite(v) => Finite((v + 0.5).Floor as real)
    case other => other
  }

  /** `Math.min(bound, x)`: NaN stays NaN. */
  function MinWith(bound: real, x: JsNumber): (r: JsNumber)
    ensures r.NaN? <==> x.NaN?
    ensures x.Finite? ==> r == Finite(if x.value < bound then x.value else bound)
    ensures x.PosInfinity? ==> r == Finite(bound)
    ensures x.NegInfinity? ==> r == x
  {
    match x
    case Finite(v) => Finite(if v < bound then v else bound)
    case PosInfinity => Finite(bound)
    case other => other
  }

  /** `Math.max(bound, x)`: NaN stays NaN. */
  function MaxWith(bound: real, x: JsNumber): (r: JsNumber)
    ensures r.NaN? <==> x.NaN?
    ensures x.Finite? ==> r == Finite(if x.value > bound then x.value else bound)
    ensures x.NegInfinity? ==> r == Finite(bound)
    ensures x.PosInfinity? ==> r == x
  {
    match x
    case Finite(v) => Finite(if v > bound then v else bound)
    case NegInfinity => Finite(bound)
    case other => other
  }

  /** `String(x)` for a whole number or a non-finite value. */
  function WholeText(x: JsNumber): string
  {
    match x
    case Finite(v) => IntText(v.Floor)
    case PosInfinity => "Infinity"
    case NegInfinity => "-Infinity"
    case NaN => "NaN"
  }

  /** `x >= bound`: false whenever `x` is NaN. */
  predicate AtLeast(x: JsNumber, bound: real)
  {
    match x
    case Finite(v) => v >= bound
    case PosInfinity => true
    case _ => false
  }

  /** `x > bound`: false whenever `x` is NaN. */
  predicate Above(x: JsNumber, bound: real)
  {
    match x
    case Finite(v) => v > bound
    case PosInfinity => true
    case _ => false
  }

  /** `x < bound`: false whenever `x` is NaN. */
  predicate Below(x: JsNumber, bound: real)
  {
    match x
    case Finite(v) => v < bound
    case NegInfinity => true
    case _ => false
  }

  /** `x.toFixed(1)`, including the texts of the infinities and NaN. */
  function Text1(x: JsNumber): string
  {
    match x
    case Finite(v) => Fixed1(v)
    case PosInfinity => "Infinity"
    case NegInfinity => "-Infinity"
    case NaN => "NaN"
  }

  /** `((num / den) * 100).toFixed(1)`. */
  function PercentText(num: real, den: real): (s: string)
    ensures den != 0.0 ==> s == Fixed1(num / den * 100.0)
    ensures den == 0.0 ==> s == (if num > 0.0 then "Infinity" else if num < 0.0 then "-Infinity" else "NaN")
  {
    Text1(Percent(num, den))
  }

  /** `String(n)` for a whole number. */
  function IntText(n: int): (s: string)
    ensures forall i :: 0 <= i < |s| ==> NumberChar(s[i])
  {
    Strs.IntStr(n)
  }
}
