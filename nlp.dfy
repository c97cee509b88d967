/**
 * The one-shot sentence extractor `nlp_extract.py`: one Portuguese sentence
 * becomes a record of type, amount, category, date and description. Each
 * regular expression of the script is a hand-written scanner here that tries
 * start positions, alternatives and repetition counts in the order Python's
 * backtracking matcher does; "today" is a parameter.
 */
module Nlp {
  import opened Strs
  import opened Calendar
  import opened Ledger

  // ---- character classes ----

  /**
   * Python's `\w` on the characters a sentence can hold: ASCII letters and
   * digits, `_`, the Latin-1 letters and numeric signs, and the Latin
   * Extended-A and -B letters.
   */
  predicate WordChar(c: char)
  {
    ('a' <= c <= 'z') || ('A' <= c <= 'Z') || IsDigit(c) || c == '_'
    || c == 'ª' || c == '²' || c == '³' || c == 'µ' || c == '¹' || c == 'º' || ('¼' <= c <= '¾')
    || ('À' <= c <= 'ɏ' && c != '×' && c != '÷')
  }

  /** `\w` at index `j`, false outside the text. */
  predicate WordCharAt(t: string, j: int)
  {
    0 <= j < |t| && WordChar(t[j])
  }

  /** `\b` at index `i`: a word character on exactly one side. */
  predicate Boundary(t: string, i: int)
  {
    WordCharAt(t, i - 1) != WordCharAt(t, i)
  }

  /** `[a-zçãáéíóúâêôõü]`. */
  predicate Letter(c: char)
  {
    ('a' <= c <= 'z') || c == 'ç' || c == 'ã' || c == 'á' || c == 'é' || c == 'í' || c == 'ó' || c == 'ú'
    || c == 'â' || c == 'ê' || c == 'ô' || c == 'õ' || c == 'ü'
  }

  // ---- type ----

  const IncomeWords: seq<string> := ["recebi", "ganhei", "entrada", "depositaram", "vendi", "salário", "bonus",
    "recebimento", "entrou", "lucro", "venda", "recebido", "pix", "transferência"]
  const ExpenseWords: seq<string> := ["paguei", "gastei", "comprei", "pago", "gasto", "pagar", "despesa", "compra",
    "pagamento", "saída", "debitei", "debito", "transferi", "enviei", "retirei", "retirada", "pix", "boleto", "cartão"]
  /** The substrings of the fallback at the end of the script. */
  const IncomeHints: seq<string> := ["recebi", "ganhei", "entrada", "depositaram", "vendi", "salário", "bonus", "recebimento"]

  /** `\b(w)\b` matches at index `i`. */
  predicate WordAt(t: string, w: string, i: int)
  {
    OccursAt(t, w, i) && Boundary(t, i) && Boundary(t, i + |w|)
  }

  /** `re.search(r"\b(w1|w2|...)\b", t)` succeeds: some word of the list matches at some index. */
  predicate HasWord(t: string, ws: seq<string>)
  {
    exists i, k :: 0 <= i <= |t| && 0 <= k < |ws| && WordAt(t, ws[k], i)
  }

  /** Whether some word of `ws` matches at index `i`, trying the alternatives in order. */
  function AltAt(t: string, ws: seq<string>, i: int): (b: bool)
    ensures b <==> exists k :: 0 <= k < |ws| && WordAt(t, ws[k], i)
    decreases |ws|
  {
    if ws == [] then false
    else WordAt(t, ws[0], i) || (assert forall k :: 1 <= k < |ws| ==> ws[1..][k - 1] == ws[k]; AltAt(t, ws[1..], i))
  }

  /** The scan of `re.search`: the alternation is tried at index `i`, then at the next indexes. */
  function ScanWords(t: string, ws: seq<string>, i: nat): bool
    decreases |t| + 1 - i
  {
    if i > |t| then false else AltAt(t, ws, i) || ScanWords(t, ws, i + 1)
  }

  /** The scanner succeeds from `i` exactly when some word matches at `i` or later. */
  lemma {:induction false} ScanWordsFrom(t: string, ws: seq<string>, i: nat)
    ensures ScanWords(t, ws, i) <==> exists j, k :: i <= j <= |t| && 0 <= k < |ws| && WordAt(t, ws[k], j)
    decreases |t| + 1 - i
  {
    if i <= |t| {
      ScanWordsFrom(t, ws, i + 1);
      if exists j, k :: i <= j <= |t| && 0 <= k < |ws| && WordAt(t, ws[k], j) {
        var j, k :| i <= j <= |t| && 0 <= k < |ws| && WordAt(t, ws[k], j);
        assert j == i || (i + 1 <= j <= |t| && WordAt(t, ws[k], j));
      }
    }
  }

  /** The scanner from the start is the regular expression's search. */
  lemma ScanWordsSpec(t: string, ws: seq<string>)
    ensures ScanWords(t, ws, 0) <==> HasWord(t, ws)
  {
    ScanWordsFrom(t, ws, 0);
  }

  /** `tipo` after the two regular expressions (lines 9-13): income first, then expense, else none. */
  function RegexKind(t: string): Option<Kind>
  {
    if ScanWords(t, IncomeWords, 0) then Some(Income)
    else if ScanWords(t, ExpenseWords, 0) then Some(Expense)
    else None
  }

  /** The final `tipo`: the regular expressions' answer, else income when an income hint occurs anywhere. */
  function KindOf(t: string): Kind
  {
    match RegexKind(t)
    case Some(k) => k
    case None => if ContainsAny(t, IncomeHints) then Income else Expense
  }

  /**
   * The type is never missing; an income word wins over an expense word; an
   * expense word alone gives an expense; with neither, the type is income
   * exactly when an income hint occurs as a substring.
   */
  lemma KindPrecedence(t: string)
    ensures HasWord(t, IncomeWords) ==> KindOf(t) == Income
    ensures !HasWord(t, IncomeWords) && HasWord(t, ExpenseWords) ==> KindOf(t) == Expense
    ensures !HasWord(t, IncomeWords) && !HasWord(t, ExpenseWords) ==>
              (KindOf(t) == Income <==> ContainsAny(t, IncomeHints))
  {
    ScanWordsSpec(t, IncomeWords);
    ScanWordsSpec(t, ExpenseWords);
  }

  /** "pix" is in both lists, so a word-bounded "pix" makes the sentence income. */
  lemma PixIsIncome(t: string, i: int)
    requires 0 <= i <= |t| && WordAt(t, "pix", i)
    ensures KindOf(t) == Income
  {
    assert IncomeWords[12] == "pix";
    assert WordAt(t, IncomeWords[12], i);
    KindPrecedence(t);
  }

  // ---- amount ----

  /** Index of the first digit at or after `i`, or |t|. */
  function FirstDigit(t: string, i: nat): (d: nat)
    requires i <= |t|
    ensures i <= d <= |t|
    ensures d < |t| ==> IsDigit(t[d])
    ensures forall j :: i <= j < d ==> !IsDigit(t[j])
    decreases |t| - i
  {
    if i == |t| || IsDigit(t[i]) then i else FirstDigit(t, i + 1)
  }

  /** Length of the run of at most `max` digits starting at `i` (greedy `\d{1,max}`). */
  function DigitRun(t: string, i: nat, max: nat): (n: nat)
    requires i <= |t|
    ensures n <= max && i + n <= |t|
    ensures forall j :: i <= j < i + n ==> IsDigit(t[j])
    ensures n < max && i + n < |t| ==> !IsDigit(t[i + n])
    decreases max
  {
    if max == 0 || i == |t| || !IsDigit(t[i]) then 0 else 1 + DigitRun(t, i + 1, max - 1)
  }

  predicate Separator(c: char) { c == '.' || c == ',' }

  /**
   * Group 2 of `(r\$[\s]*)?(\d{1,5}(?:[.,]\d{1,2})?)\s*(reais|r\$)?`, which
   * starts at the first digit `d`, split at its separator: up to five digits,
   * then the one or two digits after a `.` or `,` when they are there. The
   * trailing groups can match the empty text, so nothing is given back.
   */
  function AmountParts(t: string, d: nat): (parts: (string, string))
    requires d < |t| && IsDigit(t[d])
    ensures 1 <= |parts.0| <= 5 && AllDigits(parts.0) && |parts.1| <= 2 && AllDigits(parts.1)
  {
    var j := d + DigitRun(t, d, 5);
    if j + 1 < |t| && Separator(t[j]) && IsDigit(t[j + 1]) then (t[d..j], t[j + 1..j + 1 + DigitRun(t, j + 1, 2)])
    else (t[d..j], [])
  }

  function Pow10(n: nat): (p: nat)
    ensures p >= 1
  {
    if n == 0 then 1 else 10 * Pow10(n - 1)
  }

  /** `float(g.replace(",", "."))`: the whole digits plus the fraction digits over their power of ten. */
  function DecimalValue(whole: string, fraction: string): real
    requires AllDigits(whole) && AllDigits(fraction)
  {
    ParseDigits(whole) as real + ParseDigits(fraction) as real / Pow10(|fraction|) as real
  }

  /** `valor`: none without a digit, otherwise the value of the matched group. */
  function Amount(t: string): Option<real>
  {
    var d := FirstDigit(t, 0);
    if d == |t| then None
    else
      var (w, f) := AmountParts(t, d);
      Some(DecimalValue(w, f))
  }

  /**
   * The matched group starts at the first digit and holds one to five digits,
   * then either nothing or a separator with one or two digits; the whole part
   * stops early only at five digits, and the fraction only at two.
   */
  lemma AmountPartsShape(t: string, d: nat)
    requires d < |t| && IsDigit(t[d])
    ensures var (w, f) := AmountParts(t, d);
            1 <= |w| <= 5 && AllDigits(w) && |f| <= 2 && AllDigits(f) && t[d..d + |w|] == w
            && (|w| < 5 && d + |w| < |t| ==> !IsDigit(t[d + |w|]))
            && (f != [] ==> d + |w| + 1 + |f| <= |t| && Separator(t[d + |w|]) && t[d + |w| + 1..d + |w| + 1 + |f|] == f)
  {
  }

  /** The amount is missing exactly when the text holds no digit; otherwise it is below 100000 and not negative. */
  lemma AmountSpec(t: string)
    ensures Amount(t).None? <==> !HasDigit(t)
    ensures Amount(t).Some? ==> 0.0 <= Amount(t).value < 100000.0
  {
    var d := FirstDigit(t, 0);
    if d < |t| {
      AmountPartsShape(t, d);
      var (w, f) := AmountParts(t, d);
      DigitsBound(w);
      DigitsBound(f);
      assert Pow10(|w|) <= 100000 by { Pow10Mono(|w|, 5); }
      Below(ParseDigits(f) as real, Pow10(|f|) as real);
    }
  }

  lemma {:induction false} Pow10Mono(a: nat, b: nat)
    requires a <= b
    ensures Pow10(a) <= Pow10(b)
    decreases b
  {
    if a < b {
      Pow10Mono(a, b - 1);
    }
  }

  /** At most `n` digits are worth less than 10 to the `n`. */
  lemma {:induction false} DigitsBound(s: string)
    requires AllDigits(s)
    ensures ParseDigits(s) < Pow10(|s|)
    decreases |s|
  {
    if s != [] {
      DigitsBound(s[..|s| - 1]);
    }
  }

  /** A fraction part is worth less than 1. */
  lemma Below(a: real, b: real)
    requires 0.0 <= a < b
    ensures 0.0 <= a / b < 1.0
  {
    var q := a / b;
    assert q * b == a;
  }

  // ---- category ----

  /** The prepositions of the category expression, in the order of its alternation. */
  const Prepositions: seq<string> := ["na", "no", "em", "para", "do", "da", "de", "pro", "pra", "ao", "aos", "às", "dos", "das"]

  const Keywords: seq<string> := ["mercado", "pizzaria", "restaurante", "farmácia", "aluguel", "salário", "transporte",
    "lazer", "luz", "água", "internet", "padaria", "cinema", "bar", "academia", "escola",
    "faculdade", "livro", "presente", "viagem", "combustível", "gasolina", "energia", "telefone",
    "cartão crédito", "cartão débito", "cartão", "boleto", "pix", "iptu", "ipva", "seguro", "condomínio"]

  const StopWords: seq<string> := ["na", "no", "em", "para", "do", "da", "de", "pro", "pra", "ao", "aos", "às", "dos", "das",
    "reais", "recebi", "ganhei", "entrada", "depositaram", "vendi", "paguei", "gastei", "comprei",
    "pago", "gasto", "pagar", "despesa", "compra", "pagamento", "ontem", "hoje", "amanhã"]

  /** `[a-zçãáéíóúâêôõü\s]`. */
  predicate GroupChar(c: char) { Letter(c) || IsSpace(c) }

  /** `(?:\s|$|\d|r\$)` matches at index `e`. */
  predicate Stop(t: string, e: nat)
  {
    e >= |t| || IsSpace(t[e]) || IsDigit(t[e]) || OccursAt(t, "r$", e)
  }

  /** Length of the run of white space starting at `i` (greedy `\s+`, zero when there is none). */
  function SpaceRun(t: string, i: nat): (n: nat)
    requires i <= |t|
    ensures i + n <= |t|
    ensures forall j :: i <= j < i + n ==> IsSpace(t[j])
    ensures i + n < |t| ==> !IsSpace(t[i + n])
    decreases |t| - i
  {
    if i == |t| || !IsSpace(t[i]) then 0 else 1 + SpaceRun(t, i + 1)
  }

  /**
   * The lazy group `(...+?)` started at `s` and grown to end at `e`: it grows
   * one character at a time and stops at the first end where the stop
   * expression matches; a character outside the class fails it.
   */
  function LazyGroup(t: string, s: nat, e: nat): (g: Option<nat>)
    requires s < e <= |t|
    requires forall j :: s <= j < e - 1 ==> GroupChar(t[j])
    ensures g.Some? ==> e <= g.value <= |t| && Stop(t, g.value)
    ensures g.Some? ==> forall j :: s <= j < g.value ==> GroupChar(t[j])
    ensures g.Some? ==> forall j :: e <= j < g.value ==> !Stop(t, j)
    ensures g.None? ==> exists j :: s <= j < |t| && !GroupChar(t[j])
    decreases |t| - e
  {
    if !GroupChar(t[e - 1]) then None
    else if Stop(t, e) then Some(e)
    else match LazyGroup(t, s, e + 1)
      case Some(f) => Some(f)
      case None => None
  }

  /** `\s+` giving back one character at a time, from `n` spaces down to one, before the group. */
  function TrySpaces(t: string, a: nat, n: nat): Option<(nat, nat)>
    requires a + n <= |t|
    decreases n
  {
    if n == 0 then None
    else if a + n < |t| && LazyGroup(t, a + n, a + n + 1).Some? then Some((a + n, LazyGroup(t, a + n, a + n + 1).value))
    else TrySpaces(t, a, n - 1)
  }

  /** The alternatives of the preposition group tried in order at index `p`. */
  function TryPrepositions(t: string, p: nat, ps: seq<string>): Option<(nat, nat)>
    requires p <= |t|
    decreases |ps|
  {
    if ps == [] then None
    else
      var a := p + |ps[0]|;
      var m := if OccursAt(t, ps[0], p) then SpaceRun(t, a) else 0;
      if m > 0 && TrySpaces(t, a, m).Some? then TrySpaces(t, a, m)
      else TryPrepositions(t, p, ps[1..])
  }

  /** `re.search` of the category expression from index `p`: the start and end of group 1. */
  function CategoryMatch(t: string, ps: seq<string>, p: nat): (r: Option<(nat, nat)>)
    requires p <= |t|
    decreases |t| - p
  {
    if TryPrepositions(t, p, ps).Some? then TryPrepositions(t, p, ps)
    else if p == |t| then None
    else CategoryMatch(t, ps, p + 1)
  }

  /** `re.findall(r"\b[a-zçãáéíóúâêôõü]+\b", t)` from index `i`, in order. */
  function Tokens(t: string, i: nat): (ws: seq<string>)
    requires i <= |t|
    ensures forall k :: 0 <= k < |ws| ==> ws[k] != [] && forall j :: 0 <= j < |ws[k]| ==> Letter(ws[k][j])
    decreases |t| - i
  {
    if i == |t| then []
    else if Letter(t[i]) && Boundary(t, i) && Boundary(t, i + LetterRun(t, i)) then
      [t[i..i + LetterRun(t, i)]] + Tokens(t, i + LetterRun(t, i))
    else Tokens(t, i + 1)
  }

  /** Length of the run of class letters starting at `i`. */
  function LetterRun(t: string, i: nat): (n: nat)
    requires i <= |t|
    ensures i + n <= |t|
    ensures forall j :: i <= j < i + n ==> Letter(t[j])
    ensures i + n < |t| ==> !Letter(t[i + n])
    decreases |t| - i
  {
    if i == |t| || !Letter(t[i]) then 0 else 1 + LetterRun(t, i + 1)
  }

  /** The tokens that are not in the stop list. */
  function Relevant(ws: seq<string>, stops: seq<string>): (r: seq<string>)
    ensures forall k :: 0 <= k < |r| ==> r[k] in ws && r[k] !in stops
    decreases |ws|
  {
    if ws == [] then []
    else if ws[|ws| - 1] in stops then Relevant(ws[..|ws| - 1], stops)
    else Relevant(ws[..|ws| - 1], stops) + [ws[|ws| - 1]]
  }

  /** The `for palavra in palavras_chave` loop with its `break`, over the keyword list `words`. */
  method FirstKeyword(t: string, words: seq<string>) returns (c: Option<string>)
    ensures c.Some? <==> ContainsAny(t, words)
    ensures c.Some? ==> c.value == words[FirstContained(t, words)]
  {
    c := None;
    for i := 0 to |words|
      invariant forall j :: 0 <= j < i ==> !Contains(t, words[j])
      invariant c == None
    {
      if Contains(t, words[i]) {
        c := Some(words[i]);
        assert FirstContained(t, words) == i;
        return;
      }
    }
  }

  /**
   * `categoria` with the keyword and stop lists as parameters: the stripped
   * group after the leftmost preposition; else the first keyword of the list
   * found in the text; else the last token not in the stop list; else none.
   */
  function CategoryWith(t: string, ps: seq<string>, keywords: seq<string>, stops: seq<string>): Option<string>
  {
    match CategoryMatch(t, ps, 0)
    case Some((s, e)) => if s <= e <= |t| then Some(Trim(t[s..e])) else None
    case None =>
      var k := FirstContained(t, keywords);
      if k < |keywords| then Some(keywords[k])
      else
        var ws := Relevant(Tokens(t, 0), stops);
        if ws != [] then Some(ws[|ws| - 1]) else None
  }

  function Category(t: string): Option<string>
  {
    CategoryWith(t, Prepositions, Keywords, StopWords)
  }

  /**
   * The category expression's group ends where the stop expression first
   * matches, holds only class characters, and is never empty before trimming.
   */
  lemma {:induction false} CategoryGroupSpec(t: string, ps: seq<string>, p: nat)
    requires p <= |t|
    ensures var r := CategoryMatch(t, ps, p);
            r.Some? ==> (p <= r.value.0 < r.value.1 <= |t| && Stop(t, r.value.1)
              && (forall j :: r.value.0 <= j < r.value.1 ==> GroupChar(t[j]))
              && (forall j :: r.value.0 < j < r.value.1 ==> !Stop(t, j)))
    decreases |t| - p
  {
    if TryPrepositions(t, p, ps).Some? {
      TryPrepositionsSpec(t, p, ps);
    } else if p < |t| {
      CategoryGroupSpec(t, ps, p + 1);
    }
  }

  lemma {:induction false} TryPrepositionsSpec(t: string, p: nat, ps: seq<string>)
    requires p <= |t|
    ensures var r := TryPrepositions(t, p, ps);
            r.Some? ==> (p < r.value.0 < r.value.1 <= |t| && Stop(t, r.value.1)
              && (forall j :: r.value.0 <= j < r.value.1 ==> GroupChar(t[j]))
              && (forall j :: r.value.0 < j < r.value.1 ==> !Stop(t, j)))
    decreases |ps|
  {
    if ps != [] {
      var a := p + |ps[0]|;
      var m := if OccursAt(t, ps[0], p) then SpaceRun(t, a) else 0;
      if m > 0 && TrySpaces(t, a, m).Some? {
        TrySpacesSpec(t, a, m);
      } else {
        TryPrepositionsSpec(t, p, ps[1..]);
      }
    }
  }

  lemma {:induction false} TrySpacesSpec(t: string, a: nat, n: nat)
    requires a + n <= |t|
    ensures var r := TrySpaces(t, a, n);
            r.Some? ==> (a < r.value.0 <= a + n && r.value.0 < r.value.1 <= |t| && Stop(t, r.value.1)
              && (forall j :: r.value.0 <= j < r.value.1 ==> GroupChar(t[j]))
              && (forall j :: r.value.0 < j < r.value.1 ==> !Stop(t, j)))
    decreases n
  {
    if n > 0 {
      if a + n < |t| && LazyGroup(t, a + n, a + n + 1).Some? {
        var g := LazyGroup(t, a + n, a + n + 1).value;
        assert TrySpaces(t, a, n) == Some((a + n, g));
      } else {
        TrySpacesSpec(t, a, n - 1);
        assert TrySpaces(t, a, n) == TrySpaces(t, a, n - 1);
      }
    }
  }

  /** Tier 1: a preposition match decides, and the category holds only class characters. */
  lemma CategoryFirstTier(t: string, ps: seq<string>, keywords: seq<string>, stops: seq<string>)
    requires CategoryMatch(t, ps, 0).Some?
    ensures CategoryWith(t, ps, keywords, stops).Some?
    ensures AllPass(CategoryWith(t, ps, keywords, stops).value, GroupChar)
  {
    CategoryGroupSpec(t, ps, 0);
    var (s, e) := CategoryMatch(t, ps, 0).value;
    assert AllPass(t[s..e], GroupChar) by {
      forall j | 0 <= j < e - s ensures GroupChar(t[s..e][j]) {
        assert t[s..e][j] == t[s + j];
      }
    }
    TrimWithin(t[s..e], GroupChar);
  }

  /** Tier 2: without a preposition match, the first keyword found decides and no earlier keyword occurs. */
  lemma CategorySecondTier(t: string, ps: seq<string>, keywords: seq<string>, stops: seq<string>)
    requires CategoryMatch(t, ps, 0).None? && ContainsAny(t, keywords)
    ensures CategoryWith(t, ps, keywords, stops) == Some(keywords[FirstContained(t, keywords)])
    ensures forall j :: 0 <= j < FirstContained(t, keywords) ==> !Contains(t, keywords[j])
  {
  }

  /** Tier 3: without either, the category is the last token outside the stop list, a word of class letters. */
  lemma CategoryThirdTier(t: string, ps: seq<string>, keywords: seq<string>, stops: seq<string>)
    requires CategoryMatch(t, ps, 0).None? && !ContainsAny(t, keywords)
    ensures CategoryWith(t, ps, keywords, stops).Some? <==> Relevant(Tokens(t, 0), stops) != []
    ensures CategoryWith(t, ps, keywords, stops).Some? ==>
              var c := CategoryWith(t, ps, keywords, stops).value;
              c in Tokens(t, 0) && c !in stops && c != [] && forall j :: 0 <= j < |c| ==> Letter(c[j])
  {
    var ws := Relevant(Tokens(t, 0), stops);
    if ws != [] {
      var w := ws[|ws| - 1];
      assert w in Tokens(t, 0);
    }
  }

  /** All characters of `x` pass `p`. */
  predicate AllPass(x: string, p: char -> bool)
  {
    forall j :: 0 <= j < |x| ==> p(x[j])
  }

  /** Trimming keeps only characters that pass a test every character of the text passes. */
  lemma TrimWithin(x: string, p: char -> bool)
    requires AllPass(x, p)
    ensures AllPass(Trim(x), p)
  {
    TrimStartWithin(x, p);
    TrimEndWithin(TrimStart(x), p);
  }

  lemma {:induction false} TrimStartWithin(x: string, p: char -> bool)
    requires AllPass(x, p)
    ensures AllPass(TrimStart(x), p)
    decreases |x|
  {
    if x != [] && IsSpace(x[0]) {
      assert AllPass(x[1..], p) by {
        forall j | 0 <= j < |x| - 1 ensures p(x[1..][j]) {
          assert x[1..][j] == x[j + 1];
        }
      }
      TrimStartWithin(x[1..], p);
    }
  }

  lemma {:induction false} TrimEndWithin(x: string, p: char -> bool)
    requires AllPass(x, p)
    ensures AllPass(TrimEnd(x), p)
    decreases |x|
  {
    if x != [] && IsSpace(x[|x| - 1]) {
      assert AllPass(x[..|x| - 1], p);
      TrimEndWithin(x[..|x| - 1], p);
    }
  }

  // ---- date ----

  /** A date Python's `datetime` accepts: a calendar date in years 1 to 9999. */
  predicate PyDate(d: Date) { Valid(d) && 1 <= d.year <= 9999 }

  predicate DateSep(c: char) { c == '/' || c == '-' }

  /**
   * `(\d{1,2})[/-](\d{1,2})(?:[/-](\d{2,4}))?` matched at index `p`: the
   * day, the month and the year when given. A two-digit day is never
   * shortened, since its second digit cannot be a separator.
   */
  function ExplicitAt(t: string, p: nat): Option<(nat, nat, Option<nat>)>
    requires p <= |t|
  {
    if p == |t| || !IsDigit(t[p]) then None
    else
      var k := DigitRun(t, p, 2);
      var m := p + k + 1;
      if m < |t| && DateSep(t[p + k]) && IsDigit(t[m]) then
        var mk := DigitRun(t, m, 2);
        var y := m + mk;
        var year := if y + 2 < |t| && DateSep(t[y]) && DigitRun(t, y + 1, 4) >= 2
                    then Some(ParseDigits(t[y + 1..y + 1 + DigitRun(t, y + 1, 4)])) else None;
        Some((ParseDigits(t[p..p + k]), ParseDigits(t[m..y]), year))
      else None
  }

  function ExplicitSearch(t: string, p: nat): Option<(nat, nat, Option<nat>)>
    requires p <= |t|
    decreases |t| - p
  {
    if ExplicitAt(t, p).Some? then ExplicitAt(t, p)
    else if p == |t| then None
    else ExplicitSearch(t, p + 1)
  }

  /** `dia\s+(\d{1,2})` matched at index `p`: the day. */
  function DiaAt(t: string, p: nat): Option<nat>
    requires p <= |t|
  {
    if OccursAt(t, "dia", p) then
      var n := SpaceRun(t, p + 3);
      var q := p + 3 + n;
      if n > 0 && q < |t| && IsDigit(t[q]) then Some(ParseDigits(t[q..q + DigitRun(t, q, 2)])) else None
    else None
  }

  function DiaSearch(t: string, p: nat): Option<nat>
    requires p <= |t|
    decreases |t| - p
  {
    if DiaAt(t, p).Some? then DiaAt(t, p)
    else if p == |t| then None
    else DiaSearch(t, p + 1)
  }

  /** `str(datetime(...).date())` falling back to today when the date does not exist. */
  function OrToday(c: Date, today: Date): Date
  {
    if PyDate(c) then c else today
  }

  /**
   * `data`: yesterday for "ontem", else tomorrow for "amanhã", else the first
   * explicit date (this year when the year is missing), else "dia N" of this
   * month, else today. `None` is the `OverflowError` Python raises for the day
   * before 0001-01-01 or after 9999-12-31.
   */
  function DateOf(t: string, today: Date): Option<Date>
    requires PyDate(today)
  {
    if Contains(t, "ontem") then (if today == Date(1, 1, 1) then None else Some(PrevDay(today)))
    else if Contains(t, "amanhã") then (if today == Date(9999, 12, 31) then None else Some(NextDay(today)))
    else match ExplicitSearch(t, 0)
      case Some((d, m, y)) => Some(OrToday(Date(if y.Some? then y.value else today.year, m, d), today))
      case None =>
        match DiaSearch(t, 0)
        case Some(d) => Some(OrToday(Date(today.year, today.month, d), today))
        case None => Some(today)
  }

  /**
   * The date is always one Python accepts; only yesterday of the first
   * representable day and tomorrow of the last one raise; an explicit date
   * that does not exist gives today.
   */
  lemma DateSpec(t: string, today: Date)
    requires PyDate(today)
    ensures DateOf(t, today).None? <==>
              (Contains(t, "ontem") && today == Date(1, 1, 1))
              || (!Contains(t, "ontem") && Contains(t, "amanhã") && today == Date(9999, 12, 31))
    ensures DateOf(t, today).Some? ==> PyDate(DateOf(t, today).value)
    ensures Contains(t, "ontem") && DateOf(t, today).Some? ==> NextDay(DateOf(t, today).value) == today
    ensures !Contains(t, "ontem") && !Contains(t, "amanhã") && ExplicitSearch(t, 0).Some? ==>
              var (d, m, y) := ExplicitSearch(t, 0).value;
              var c := Date(if y.Some? then y.value else today.year, m, d);
              DateOf(t, today) == Some(if PyDate(c) then c else today)
    ensures Contains(t, "ontem") && today != Date(1, 1, 1) ==> DateOf(t, today) == Some(PrevDay(today))
    ensures !Contains(t, "ontem") && Contains(t, "amanhã") && today != Date(9999, 12, 31) ==>
              DateOf(t, today) == Some(NextDay(today)) && PrevDay(NextDay(today)) == today
    ensures !Contains(t, "ontem") && !Contains(t, "amanhã") && ExplicitSearch(t, 0).None? && DiaSearch(t, 0).Some? ==>
              var c := Date(today.year, today.month, DiaSearch(t, 0).value);
              DateOf(t, today) == Some(if PyDate(c) then c else today)
    ensures !Contains(t, "ontem") && !Contains(t, "amanhã") && ExplicitSearch(t, 0).None? && DiaSearch(t, 0).None? ==>
              DateOf(t, today) == Some(today)
  {
    if Contains(t, "ontem") {
      if today != Date(1, 1, 1) {
        Yesterday(today);
      }
    } else if Contains(t, "amanhã") {
      if today != Date(9999, 12, 31) {
        Tomorrow(today);
        NextPrev(today);
      }
    }
  }

  /** Yesterday of any day but the first representable one is representable, and today follows it. */
  lemma Yesterday(today: Date)
    requires PyDate(today) && today != Date(1, 1, 1)
    ensures PyDate(PrevDay(today)) && NextDay(PrevDay(today)) == today
  {
    NextPrev(today);
  }

  /** Tomorrow of any day but the last representable one is representable. */
  lemma Tomorrow(today: Date)
    requires PyDate(today) && today != Date(9999, 12, 31)
    ensures PyDate(NextDay(today))
  {
  }

  // ---- the record ----

  /** The printed object: exactly the keys type, amount, category, date and description. */
  datatype Extraction = Extraction(kind: Kind, amount: Option<real>, category: Option<string>, date: string, description: string)

  /** The whole script on `sys.argv[1]`; `None` when the date arithmetic raises. */
  function Extract(text: string, today: Date): (r: Option<Extraction>)
    requires PyDate(today)
    ensures r.Some? <==> DateOf(Lower(text), today).Some?
    ensures r.Some? ==> r.value.description == Lower(text) && |r.value.date| == 10
  {
    var t := Lower(text);
    match DateOf(t, today)
    case None => None
    case Some(d) =>
      DateSpec(t, today);
      Some(Extraction(KindOf(t), Amount(t), Category(t), Iso(d), t))
  }
}
