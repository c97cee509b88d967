/**
 * The local fallback of the `ia-transacao` route: installment detection,
 * amount extraction, income/expense classification, category mapping, goal
 * association and description cleaning, and the request and AI-reply
 * validation of `POST`. The route's regular expressions are written as data
 * for a small matcher that follows JavaScript's order of trial: leftmost
 * start first, alternatives in order, optional parts tried before they are
 * skipped, repetitions greedy.
 */
module IaRoute {
  import opened Strs
  import opened Seqs
  import opened Ledger
  import Nlp

  // ---- the matcher ----

  /** A piece matched without choice: `\s{min,}` taken greedily, or a literal. */
  datatype Basic = Ws(min: nat) | Lit(s: string)

  /**
   * A pattern element: a fixed piece, an optional run of pieces, a choice of
   * runs, a captured digit run `(\d+)`, a captured number
   * `(\d+(?:[,.]?\d+)?)`, or a captured choice of words.
   */
  datatype Tok = B(b: Basic) | Opt(inner: seq<Basic>) | Branch(alts: seq<seq<Basic>>) | Digits | Number | Word(words: seq<string>)

  /**
   * A captured group, with the values the route reads from it: `parseInt` of
   * a digit run; `parseInt` and `parseFloat` (after the comma becomes a
   * point) of a number; the text of a word.
   */
  datatype Cap = DigitsCap(n: nat) | NumberCap(whole: nat, value: real) | WordCap(w: string)

  function BasicEnd(t: string, i: nat, b: Basic): (r: Option<nat>)
    requires i <= |t|
    ensures r.Some? ==> i <= r.value <= |t|
  {
    match b
    case Ws(m) => var n := Nlp.SpaceRun(t, i); if n >= m then Some(i + n) else None
    case Lit(s) => if OccursAt(t, s, i) then Some(i + |s|) else None
  }

  /** A run of fixed pieces, one after the other. */
  function SeqEnd(t: string, i: nat, bs: seq<Basic>): (r: Option<nat>)
    requires i <= |t|
    ensures r.Some? ==> i <= r.value <= |t|
    decreases |bs|
  {
    if bs == [] then Some(i)
    else match BasicEnd(t, i, bs[0])
      case None => None
      case Some(j) => SeqEnd(t, j, bs[1..])
  }

  /** End of the maximal digit run starting at `i`. */
  function DigitsEnd(t: string, i: nat): (j: nat)
    requires i <= |t|
    ensures i <= j <= |t|
    ensures forall k :: i <= k < j ==> IsDigit(t[k])
    ensures AllDigits(t[i..j])
    ensures j < |t| ==> !IsDigit(t[j])
    decreases |t| - i
  {
    if i == |t| || !IsDigit(t[i]) then i else DigitsEnd(t, i + 1)
  }

  /** `\d+(?:[,.]?\d+)?` from `i`: the digit run, then a separator and a second run when both are there. */
  function NumberParts(t: string, i: nat): (r: (nat, nat))
    requires i < |t| && IsDigit(t[i])
    ensures i < r.0 <= |t| && AllDigits(t[i..r.0])
    ensures r.1 == r.0 || (r.0 < r.1 && r.1 <= |t| && Nlp.Separator(t[r.0]) && r.0 + 1 < r.1 && AllDigits(t[r.0 + 1..r.1]))
  {
    var j := DigitsEnd(t, i);
    if j + 1 < |t| && Nlp.Separator(t[j]) && IsDigit(t[j + 1]) then
      var e := DigitsEnd(t, j + 1);
      (j, e)
    else (j, j)
  }

  /** The captured number and where it ends. */
  function NumberCapAt(t: string, i: nat): (r: (Cap, nat))
    requires i < |t| && IsDigit(t[i])
    ensures r.0.NumberCap? && r.0.value >= 0.0 && i < r.1 <= |t|
  {
    var (j, e) := NumberParts(t, i);
    var whole := ParseDigits(t[i..j]);
    var fraction := if e == j then [] else t[j + 1..e];
    assert AllDigits(fraction);
    var f := ParseDigits(fraction) as real / Nlp.Pow10(|fraction|) as real;
    assert f >= 0.0;
    (NumberCap(whole, Nlp.DecimalValue(t[i..j], fraction)), e)
  }

  /**
   * The first way, in JavaScript's order of trial, that the elements match
   * from `i`: where the match ends and the groups it captured.
   */
  function Match(t: string, i: nat, toks: seq<Tok>): (r: Option<(nat, seq<Cap>)>)
    requires i <= |t|
    ensures r.Some? ==> i <= r.value.0 <= |t|
    decreases |toks|, 1, 0
  {
    if toks == [] then Some((i, []))
    else
      var rest := toks[1..];
      match toks[0]
      case B(b) =>
        (match BasicEnd(t, i, b)
         case None => None
         case Some(j) => Match(t, j, rest))
      case Opt(inner) =>
        var taken := match SeqEnd(t, i, inner) case None => None case Some(j) => Match(t, j, rest);
        if taken.Some? then taken else Match(t, i, rest)
      case Branch(alts) => TryBranch(t, i, alts, rest)
      case Digits =>
        if i < |t| && IsDigit(t[i]) then
          var j := DigitsEnd(t, i);
          (match Match(t, j, rest)
           case None => None
           case Some((e, caps)) => Some((e, [DigitsCap(ParseDigits(t[i..j]))] + caps)))
        else None
      case Number =>
        if i < |t| && IsDigit(t[i]) then
          var (c, j) := NumberCapAt(t, i);
          (match Match(t, j, rest)
           case None => None
           case Some((e, caps)) => Some((e, [c] + caps)))
        else None
      case Word(ws) => TryWord(t, i, ws, rest)
  }

  /** A choice: the first alternative after which the rest matches. */
  function TryBranch(t: string, i: nat, alts: seq<seq<Basic>>, rest: seq<Tok>): (r: Option<(nat, seq<Cap>)>)
    requires i <= |t|
    ensures r.Some? ==> i <= r.value.0 <= |t|
    decreases |rest| + 1, 0, |alts|
  {
    if alts == [] then None
    else
      var first := match SeqEnd(t, i, alts[0]) case None => None case Some(j) => Match(t, j, rest);
      if first.Some? then first else TryBranch(t, i, alts[1..], rest)
  }

  /** A captured choice of words: the first word after which the rest matches. */
  function TryWord(t: string, i: nat, ws: seq<string>, rest: seq<Tok>): (r: Option<(nat, seq<Cap>)>)
    requires i <= |t|
    ensures r.Some? ==> i <= r.value.0 <= |t|
    decreases |rest| + 1, 0, |ws|
  {
    if ws == [] then None
    else
      var first := if OccursAt(t, ws[0], i) then
                     (match Match(t, i + |ws[0]|, rest)
                      case None => None
                      case Some((e, caps)) => Some((e, [WordCap(ws[0])] + caps)))
                   else None;
      if first.Some? then first else TryWord(t, i, ws[1..], rest)
  }

  /** The leftmost index from `p` on where the pattern matches, |t| + 1 when there is none. */
  function Leftmost(t: string, p: nat, toks: seq<Tok>): (q: nat)
    requires p <= |t|
    ensures p <= q <= |t| + 1
    ensures q <= |t| ==> Match(t, q, toks).Some?
    ensures forall r :: p <= r < q && r <= |t| ==> Match(t, r, toks).None?
    decreases |t| - p
  {
    if Match(t, p, toks).Some? then p else if p == |t| then p + 1 else Leftmost(t, p + 1, toks)
  }

  /** `text.match(pattern)`: the groups of the match at the leftmost index where the pattern matches. */
  function Search(t: string, toks: seq<Tok>): (r: Option<seq<Cap>>)
    ensures r.Some? <==> Leftmost(t, 0, toks) <= |t|
    ensures r.Some? ==> r.value == Match(t, Leftmost(t, 0, toks), toks).value.1
  {
    var q := Leftmost(t, 0, toks);
    if q <= |t| then Some(Match(t, q, toks).value.1) else None
  }

  // ---- installments ----

  function L(s: string): seq<Basic> { [Lit(s)] }

  const XOrTimes: Tok := Branch([L("x"), L("vezes"), L("parcelas"), L("parcela")])

  /** The fourteen patterns of `detectInstallments`, in order. */
  const InstallmentPatterns: seq<seq<Tok>> := [
    [Opt([Lit("em"), Ws(1)]), Digits, B(Ws(0)), XOrTimes],
    [B(Lit("parcelad")), Branch([L("o"), L("a")]), B(Ws(1)), Opt([Lit("em"), Ws(1)]), Digits],
    [B(Lit("dividid")), Branch([L("o"), L("a")]), B(Ws(1)), Opt([Lit("em"), Ws(1)]), Digits],
    [Digits, B(Ws(0)), Branch([L("x"), L("vezes")]), B(Ws(1)), Branch([L("de"), [Lit("sem"), Ws(1), Lit("juros")]])],
    [B(Lit("em")), B(Ws(1)), Word(["duas", "dois"]), B(Ws(1)), B(Lit("vezes"))],
    [B(Lit("em")), B(Ws(1)), Word(["três", "tres"]), B(Ws(1)), B(Lit("vezes"))],
    [B(Lit("em")), B(Ws(1)), Word(["quatro"]), B(Ws(1)), B(Lit("vezes"))],
    [B(Lit("em")), B(Ws(1)), Word(["cinco"]), B(Ws(1)), B(Lit("vezes"))],
    [Word(["duas", "dois"]), B(Ws(1)), B(Lit("vezes"))],
    [Word(["três", "tres"]), B(Ws(1)), B(Lit("vezes"))],
    [Word(["quatro"]), B(Ws(1)), B(Lit("vezes"))],
    [Word(["cinco"]), B(Ws(1)), B(Lit("vezes"))],
    [Digits, B(Ws(0)), Branch([L("vez"), L("vezes")]), Opt([Ws(1), Lit("de")])],
    [B(Lit("em")), B(Ws(1)), Digits, B(Ws(0)), Branch([L("parte"), L("partes")])]
  ]

  /** `numberWords`, in its key order. */
  const NumberWords: seq<(string, nat)> := [("duas", 2), ("dois", 2), ("três", 3), ("tres", 3), ("quatro", 4),
    ("cinco", 5), ("seis", 6), ("sete", 7), ("oito", 8), ("nove", 9), ("dez", 10)]

  /** `numberWords[w]`, 0 (falsy) when `w` is not a key. */
  function WordValue(table: seq<(string, nat)>, w: string): nat
  {
    if table == [] then 0 else if table[0].0 == w then table[0].1 else WordValue(table[1..], w)
  }

  /** The `for ... of Object.entries(numberWords)` scan: the value of the first key found in the text, else 0. */
  function WordInText(table: seq<(string, nat)>, t: string): nat
  {
    if table == [] then 0 else if Contains(t, table[0].0) then table[0].1 else WordInText(table[1..], t)
  }

  /** The `installments` the if-chain computes from a match's groups. */
  function CountOf(t: string, caps: seq<Cap>, table: seq<(string, nat)>): nat
  {
    if caps == [] then WordInText(table, t)
    else match caps[0]
      case DigitsCap(n) => n
      case NumberCap(w, _) => w
      case WordCap(w) => if WordValue(table, w) > 0 then WordValue(table, w) else WordInText(table, t)
  }

  predicate Plausible(n: nat) { 1 < n <= 100 }

  /** The count a pattern yields when it matches and the count is in range. */
  function Yield(t: string, pat: seq<Tok>, table: seq<(string, nat)>): Option<nat>
  {
    match Search(t, pat)
    case None => None
    case Some(caps) => if Plausible(CountOf(t, caps, table)) then Some(CountOf(t, caps, table)) else None
  }

  /** `detectInstallments` over the lowercased text: the first pattern, in order, that yields a count in (1, 100]. */
  function Installments(t: string, ps: seq<seq<Tok>>, table: seq<(string, nat)>): (r: Option<nat>)
    ensures r.Some? ==> Plausible(r.value)
    ensures r.Some? <==> exists i :: 0 <= i < |ps| && Yield(t, ps[i], table).Some?
    ensures r.Some? ==> exists i :: 0 <= i < |ps| && Yield(t, ps[i], table) == r
                          && forall j :: 0 <= j < i ==> Yield(t, ps[j], table).None?
    decreases |ps|
  {
    if ps == [] then None
    else if Yield(t, ps[0], table).Some? then Yield(t, ps[0], table)
    else
      var r := Installments(t, ps[1..], table);
      assert forall i :: 1 <= i < |ps| ==> ps[1..][i - 1] == ps[i];
      r
  }

  /** The `for (const pattern of installmentPatterns)` loop with its early return. */
  method DetectInstallments(text: string, ps: seq<seq<Tok>>, table: seq<(string, nat)>) returns (r: Option<nat>)
    ensures r == Installments(Lower(text), ps, table)
  {
    var t := Lower(text);
    for i := 0 to |ps|
      invariant Installments(t, ps, table) == Installments(t, ps[i..], table)
    {
      assert ps[i..][1..] == ps[i + 1..];
      match Search(t, ps[i]) {
        case None =>
        case Some(caps) =>
          var n := CountOf(t, caps, table);
          if 1 < n <= 100 {
            return Some(n);
          }
      }
    }
    assert ps[|ps|..] == [];
    return None;
  }

  // ---- amount ----

  const ParcelasOr: Tok := Branch([L("x"), L("vezes"), L("parcelas"), L("parcela")])
  const MaybeReal: Tok := Opt([Lit("r$"), Ws(0)])

  /** The "N x de V" patterns of `extractAmount`, in order. */
  const TotalPatterns: seq<seq<Tok>> := [
    [Digits, B(Ws(0)), ParcelasOr, B(Ws(1)), B(Lit("de")), B(Ws(1)), MaybeReal, Number],
    [Digits, B(Ws(0)), ParcelasOr, B(Ws(1)), MaybeReal, Number],
    [B(Lit("em")), B(Ws(1)), Digits, B(Ws(0)), ParcelasOr, B(Ws(1)), B(Lit("de")), B(Ws(1)), MaybeReal, Number]
  ]

  /** The plain amount patterns of `extractAmount`, in order; the last one takes any number. */
  const AmountPatterns: seq<seq<Tok>> := [
    [B(Lit("r$")), B(Ws(0)), Number],
    [Number, B(Ws(0)), Branch([L("reais"), L("reai"), L("r$"), L("rs")])],
    [Number, B(Ws(0)), Branch([L("real"), L("reais")])],
    [Branch([L("gastei"), L("paguei"), L("recebi"), L("ganhei"), L("custou"), L("comprei"), L("vendi")]), B(Ws(1)), MaybeReal, Number],
    [Branch([L("valor"), L("preço"), L("preco")]), B(Ws(1)), Opt([Lit("de"), Ws(1)]), MaybeReal, Number],
    [Number, B(Ws(0)), Branch([L("contos"), L("conto"), L("paus"), L("pau"), L("pratas"), L("prata"), L("dinheiro")])],
    [Number]
  ]

  /** `installments * installmentValue` for a match whose count and value are both positive. */
  function TotalOf(caps: seq<Cap>): Option<real>
  {
    if |caps| >= 2 && caps[0].DigitsCap? && caps[1].NumberCap? && caps[0].n > 0 && caps[1].value > 0.0
    then Some(caps[0].n as real * caps[1].value) else None
  }

  /** A positive `parseFloat` of the first group. */
  function PlainOf(caps: seq<Cap>): Option<real>
  {
    if caps != [] && caps[0].NumberCap? && caps[0].value > 0.0 then Some(caps[0].value) else None
  }

  function FirstTotal(t: string, vs: seq<seq<Tok>>): (r: Option<real>)
    ensures r.Some? ==> r.value > 0.0
    ensures r.Some? ==> exists i :: 0 <= i < |vs| && Search(t, vs[i]).Some? && TotalOf(Search(t, vs[i]).value) == r
    decreases |vs|
  {
    if vs == [] then None
    else match Search(t, vs[0])
      case Some(caps) =>
        if TotalOf(caps).Some? then TotalOf(caps)
        else var r := FirstTotal(t, vs[1..]); assert forall i :: 1 <= i < |vs| ==> vs[1..][i - 1] == vs[i]; r
      case None => var r := FirstTotal(t, vs[1..]); assert forall i :: 1 <= i < |vs| ==> vs[1..][i - 1] == vs[i]; r
  }

  function FirstPlain(t: string, ps: seq<seq<Tok>>): (r: Option<real>)
    ensures r.Some? ==> r.value > 0.0
    ensures r.Some? ==> exists i :: 0 <= i < |ps| && Search(t, ps[i]).Some? && PlainOf(Search(t, ps[i]).value) == r
    decreases |ps|
  {
    if ps == [] then None
    else match Search(t, ps[0])
      case Some(caps) =>
        if PlainOf(caps).Some? then PlainOf(caps)
        else var r := FirstPlain(t, ps[1..]); assert forall i :: 1 <= i < |ps| ==> ps[1..][i - 1] == ps[i]; r
      case None => var r := FirstPlain(t, ps[1..]); assert forall i :: 1 <= i < |ps| ==> ps[1..][i - 1] == ps[i]; r
  }

  /**
   * `extractAmount` over the lowercased text: the total of the first "N x de
   * V" pattern whose first match has N and V positive, else the first
   * positive number of the plain patterns, else 0; never negative.
   */
  function AmountWith(t: string, vs: seq<seq<Tok>>, ps: seq<seq<Tok>>): (r: real)
    ensures r >= 0.0
    ensures r > 0.0 <==> FirstTotal(t, vs).Some? || FirstPlain(t, ps).Some?
    ensures FirstTotal(t, vs).Some? ==> r == FirstTotal(t, vs).value
    ensures FirstTotal(t, vs).None? && FirstPlain(t, ps).Some? ==> r == FirstPlain(t, ps).value
  {
    match FirstTotal(t, vs)
    case Some(x) => x
    case None =>
      match FirstPlain(t, ps)
      case Some(v) => v
      case None => 0.0
  }

  /** `extractAmount`: its two `for (const pattern of ...)` loops, then 0. */
  method ExtractAmount(text: string, vs: seq<seq<Tok>>, ps: seq<seq<Tok>>) returns (amount: real)
    ensures amount == AmountWith(Lower(text), vs, ps)
  {
    var t := Lower(text);
    var total := TotalLoop(t, vs);
    if total.Some? {
      return total.value;
    }
    var plain := PlainLoop(t, ps);
    if plain.Some? {
      return plain.value;
    }
    return 0.0;
  }

  /** The loop over the "N x de V" patterns, returning the first positive product. */
  method TotalLoop(t: string, vs: seq<seq<Tok>>) returns (r: Option<real>)
    ensures r == FirstTotal(t, vs)
  {
    for i := 0 to |vs|
      invariant FirstTotal(t, vs) == FirstTotal(t, vs[i..])
    {
      assert vs[i..][1..] == vs[i + 1..];
      var m := Search(t, vs[i]);
      if m.Some? {
        var total := TotalOf(m.value);
        if total.Some? {
          return total;
        }
      }
    }
    assert vs[|vs|..] == [];
    return None;
  }

  /** The loop over the plain amount patterns, returning the first positive number. */
  method PlainLoop(t: string, ps: seq<seq<Tok>>) returns (r: Option<real>)
    ensures r == FirstPlain(t, ps)
  {
    for i := 0 to |ps|
      invariant FirstPlain(t, ps) == FirstPlain(t, ps[i..])
    {
      assert ps[i..][1..] == ps[i + 1..];
      var m := Search(t, ps[i]);
      if m.Some? {
        var a := PlainOf(m.value);
        if a.Some? {
          return a;
        }
      }
    }
    assert ps[|ps|..] == [];
    return None;
  }

  // ---- type and category ----

  const IncomeWords: seq<string> := ["recebi", "ganhei", "receita", "salário", "salario", "ganho", "entrada", "recebimento",
    "pagamento recebido", "dinheiro que recebi", "lucro", "rendimento", "venda", "vendeu", "vendi", "freelance", "freela",
    "bonificação", "bônus", "prêmio", "comissão", "dividendos"]

  /** `determineTransactionType`: income exactly when some income word occurs in the lowercased text. */
  function KindOf(t: string, words: seq<string>): (k: Kind)
    ensures k == Income <==> exists i :: 0 <= i < |words| && Contains(t, words[i])
  {
    if ContainsAny(t, words) then Income else Expense
  }

  /** `determineCategory` for income: the first branch whose words occur, else "outros". */
  function IncomeCategory(t: string): string
  {
    if Contains(t, "salário") || Contains(t, "salario") || Contains(t, "trabalho") then "salario"
    else if Contains(t, "freelance") || Contains(t, "freela") then "freelance"
    else if Contains(t, "venda") || Contains(t, "vendeu") || Contains(t, "vendi") then "vendas"
    else if Contains(t, "investimento") || Contains(t, "dividendo") || Contains(t, "renda") then "investimentos"
    else if Contains(t, "presente") || Contains(t, "gift") || Contains(t, "doação") then "presentes"
    else "outros"
  }

  const IncomeCategories: seq<string> := ["salario", "freelance", "vendas", "investimentos", "presentes", "outros"]

  /** An income category is one of the six the route knows. */
  lemma IncomeCategoryKnown(t: string)
    ensures IncomeCategory(t) in IncomeCategories
  {
  }

  datatype Mapping = Mapping(category: string, keywords: seq<string>)

  const ExpenseMappings: seq<Mapping> := [
    Mapping("alimentacao", ["mercado", "comida", "alimento", "supermercado", "açougue", "acougue", "padaria", "restaurante",
      "lanche", "pizza", "hambúrguer", "hamburguer", "delivery", "ifood"]),
    Mapping("transporte", ["gasolina", "transporte", "uber", "taxi", "ônibus", "onibus", "metro", "metrô", "combustível",
      "combustivel", "estacionamento", "99", "viagem", "passagem", "pedágio", "pedagio"]),
    Mapping("saude", ["remédio", "remedio", "médico", "medico", "saúde", "saude", "hospital", "farmácia", "farmacia",
      "consulta", "exame", "dentista", "plano de saúde", "plano de saude"]),
    Mapping("casa", ["casa", "aluguel", "moradia", "apartamento", "condomínio", "condominio", "água", "agua", "luz",
      "energia", "internet", "gás", "gas", "iptu", "reforma"]),
    Mapping("vestuario", ["roupa", "sapato", "camisa", "calça", "calca", "vestido", "tênis", "tenis", "moda", "loja", "shopping"]),
    Mapping("lazer", ["cinema", "show", "festa", "diversão", "entretenimento", "jogo", "streaming", "netflix", "spotify"]),
    Mapping("educacao", ["curso", "educação", "educacao", "livro", "faculdade", "escola", "ensino", "aula", "material escolar"])
  ]

  /** Expense: the category of the first mapping, in order, with a keyword in the text, else "outros". */
  function ExpenseCategory(t: string, ms: seq<Mapping>): (c: string)
    ensures c == "outros" || exists i :: 0 <= i < |ms| && c == ms[i].category && ContainsAny(t, ms[i].keywords)
    ensures forall i :: 0 <= i < |ms| && ContainsAny(t, ms[i].keywords) ==>
              exists j :: 0 <= j <= i && c == ms[j].category
    decreases |ms|
  {
    if ms == [] then "outros"
    else if ContainsAny(t, ms[0].keywords) then ms[0].category
    else
      var c := ExpenseCategory(t, ms[1..]);
      assert forall i :: 1 <= i < |ms| ==> ms[1..][i - 1] == ms[i];
      c
  }

  function CategoryOf(t: string, k: Kind, ms: seq<Mapping>): string
  {
    if k == Income then IncomeCategory(t) else ExpenseCategory(t, ms)
  }

  // ---- goal association ----

  datatype MetaGroup = MetaGroup(keywords: seq<string>, names: seq<string>)

  const MetaGroups: seq<MetaGroup> := [
    MetaGroup(["viagem", "viajar", "turismo", "férias"], ["viagem"]),
    MetaGroup(["casa", "apartamento", "imóvel", "moradia"], ["casa"]),
    MetaGroup(["carro", "veículo", "automóvel"], ["carro"]),
    MetaGroup(["emergência", "reserva", "emergencia"], ["emergência", "reserva"]),
    MetaGroup(["curso", "educação", "estudo", "faculdade"], ["educação", "curso"])
  ]

  /** Index of the first goal whose lowercased name occurs in the text, or |metas|. */
  function NamedIn(t: string, metas: seq<Meta>): (k: nat)
    ensures k <= |metas|
    ensures k < |metas| ==> Contains(t, Lower(metas[k].nome))
    ensures forall j :: 0 <= j < k ==> !Contains(t, Lower(metas[j].nome))
    decreases |metas|
  {
    if metas == [] then 0
    else if Contains(t, Lower(metas[0].nome)) then 0
    else
      var k := NamedIn(t, metas[1..]);
      assert forall j :: 1 <= j < |metas| ==> metas[1..][j - 1] == metas[j];
      1 + k
  }

  /** `metas.find(m => m.nome.toLowerCase().includes(name))`: the first goal whose name holds `name`. */
  function Holding(metas: seq<Meta>, name: string): (k: nat)
    ensures k <= |metas|
    ensures k < |metas| ==> Contains(Lower(metas[k].nome), name)
    decreases |metas|
  {
    if metas == [] then 0
    else if Contains(Lower(metas[0].nome), name) then 0
    else 1 + Holding(metas[1..], name)
  }

  /** The names of one keyword group, tried in order. */
  function ByNames(names: seq<string>, metas: seq<Meta>): (r: Option<string>)
    ensures r.Some? ==> exists i :: 0 <= i < |metas| && metas[i].id == r.value
    decreases |names|
  {
    if names == [] then None
    else
      var k := Holding(metas, names[0]);
      if k < |metas| then Some(metas[k].id) else ByNames(names[1..], metas)
  }

  /** The keyword groups, tried in order; a group whose names find no goal passes to the next. */
  function ByGroups(t: string, groups: seq<MetaGroup>, metas: seq<Meta>): (r: Option<string>)
    ensures r.Some? ==> exists i :: 0 <= i < |metas| && metas[i].id == r.value
    decreases |groups|
  {
    if groups == [] then None
    else if ContainsAny(t, groups[0].keywords) && ByNames(groups[0].names, metas).Some? then ByNames(groups[0].names, metas)
    else ByGroups(t, groups[1..], metas)
  }

  /**
   * `findAssociatedMeta` over the lowercased text: none for no goals; the
   * first goal named in the text; else the keyword groups. The result is
   * always the id of one of the goals.
   */
  function MetaFor(t: string, metas: seq<Meta>, groups: seq<MetaGroup>): (r: Option<string>)
    ensures metas == [] ==> r.None?
    ensures r.Some? ==> exists i :: 0 <= i < |metas| && metas[i].id == r.value
    ensures NamedIn(t, metas) < |metas| ==> r == Some(metas[NamedIn(t, metas)].id)
  {
    if metas == [] then None
    else
      var k := NamedIn(t, metas);
      if k < |metas| then Some(metas[k].id) else ByGroups(t, groups, metas)
  }

  /** The loops of `findAssociatedMeta`, with their early returns. */
  method FindAssociatedMeta(text: string, metas: seq<Meta>, groups: seq<MetaGroup>) returns (r: Option<string>)
    ensures r == MetaFor(Lower(text), metas, groups)
  {
    if |metas| == 0 {
      return None;
    }
    var t := Lower(text);
    for i := 0 to |metas|
      invariant forall j :: 0 <= j < i ==> !Contains(t, Lower(metas[j].nome))
    {
      if Contains(t, Lower(metas[i].nome)) {
        assert NamedIn(t, metas) == i by { NamedInFirst(t, metas, i); }
        return Some(metas[i].id);
      }
    }
    assert NamedIn(t, metas) == |metas| by { NamedInFirst(t, metas, |metas|); }
    for g := 0 to |groups|
      invariant ByGroups(t, groups, metas) == ByGroups(t, groups[g..], metas)
    {
      assert groups[g..][1..] == groups[g + 1..];
      if ContainsAny(t, groups[g].keywords) {
        var names := groups[g].names;
        for n := 0 to |names|
          invariant ByNames(names, metas) == ByNames(names[n..], metas)
        {
          assert names[n..][1..] == names[n + 1..];
          var k := Holding(metas, names[n]);
          if k < |metas| {
            return Some(metas[k].id);
          }
        }
        assert names[|names|..] == [];
      }
    }
    assert groups[|groups|..] == [];
    return None;
  }

  /** The first goal named in the text is found by the scan that stops at it. */
  lemma NamedInFirst(t: string, metas: seq<Meta>, i: nat)
    requires i <= |metas|
    requires forall j :: 0 <= j < i ==> !Contains(t, Lower(metas[j].nome))
    requires i < |metas| ==> Contains(t, Lower(metas[i].nome))
    ensures NamedIn(t, metas) == i
  {
  }

  // ---- description ----

  /** The characters the cleaning keeps: `\w`, `\s`, the accented vowels and ç, and `.,!?()$/€£¥%+-`. */
  predicate Kept(c: char)
  {
    ('a' <= c <= 'z') || ('A' <= c <= 'Z') || IsDigit(c) || c == '_' || IsSpace(c)
    || c in "áéíóúàèìòùâêîôûãõçÁÉÍÓÚÀÈÌÒÙÂÊÎÔÛÃÕÇ.,!?()$/€£¥%+-"
  }

  /** The description: trimmed, cleaned of other characters, cut to 100 characters plus "..." when longer. */
  function Description(text: string): (d: string)
    ensures |d| <= 103
    ensures |Filter(Trim(text), Kept)| <= 100 ==> d == Filter(Trim(text), Kept)
    ensures |Filter(Trim(text), Kept)| > 100 ==> d == Filter(Trim(text), Kept)[..100] + "..."
    ensures forall i :: 0 <= i < |d| ==> Kept(d[i])
  {
    var clean := Filter(Trim(text), Kept);
    if |clean| > 100 then clean[..100] + "..." else clean
  }

  // ---- the local reply ----

  datatype Message = NoMessage | MetaMessage | InstallmentMessage(count: nat, perInstallment: real)

  /** The transaction of a local reply; `installments` and `recurrence` only on installment replies. */
  datatype LocalTx = LocalTx(kind: Kind, amount: real, description: string, category: string, date: string,
                             metaId: Option<string>, installments: Option<nat>, recurrence: Option<string>)

  datatype LocalReply =
    | NoAmount
    | Local(tx: LocalTx, isInstallment: bool, totalAmount: Option<real>, message: Message)

  /** The tables the route uses, gathered. */
  datatype Tables = Tables(installments: seq<seq<Tok>>, numberWords: seq<(string, nat)>, totals: seq<seq<Tok>>,
                           amounts: seq<seq<Tok>>, incomeWords: seq<string>, mappings: seq<Mapping>, groups: seq<MetaGroup>)

  const RouteTables: Tables := Tables(InstallmentPatterns, NumberWords, TotalPatterns, AmountPatterns, IncomeWords,
                                      ExpenseMappings, MetaGroups)

  /**
   * `fallbackLocalProcessing`, with `today` the `YYYY-MM-DD` of the current
   * UTC date: no amount fails; an installment count splits the amount.
   */
  function Fallback(text: string, metas: seq<Meta>, today: string, tb: Tables): LocalReply
  {
    var t := Lower(text);
    var amount := AmountWith(t, tb.totals, tb.amounts);
    if amount <= 0.0 then NoAmount
    else
      var kind := KindOf(t, tb.incomeWords);
      var category := CategoryOf(t, kind, tb.mappings);
      var installments := Installments(t, tb.installments, tb.numberWords);
      var metaId := MetaFor(t, metas, tb.groups);
      var description := Description(text);
      match installments
      case Some(n) =>
        var per := PerInstallment(amount, n);
        Local(LocalTx(kind, per, description, category, today, metaId, Some(n), Some("monthly")),
              true, Some(amount), InstallmentMessage(n, per))
      case None =>
        Local(LocalTx(kind, amount, description, category, today, metaId, None, None),
              false, None, if metaId.Some? && metaId.value != "" then MetaMessage else NoMessage)
  }

  /** The local reply fails exactly when no positive amount was found; otherwise it is dated today and its description is at most 103 characters. */
  lemma FallbackFails(text: string, metas: seq<Meta>, today: string, tb: Tables)
    ensures Fallback(text, metas, today, tb).NoAmount? <==> AmountWith(Lower(text), tb.totals, tb.amounts) == 0.0
    ensures var r := Fallback(text, metas, today, tb);
            r.Local? ==> r.tx.amount > 0.0 && |r.tx.description| <= 103 && r.tx.date == today
  {
    var t := Lower(text);
    var amount := AmountWith(t, tb.totals, tb.amounts);
  }

  /**
   * An installment reply carries a count in (1, 100], parts that multiply
   * back to the total, and a monthly recurrence; a reply without
   * installments carries the whole amount.
   */
  lemma FallbackInstallments(text: string, metas: seq<Meta>, today: string, tb: Tables)
    ensures var r := Fallback(text, metas, today, tb);
            r.Local? && r.isInstallment ==>
              r.tx.installments.Some? && Plausible(r.tx.installments.value) && r.totalAmount.Some?
              && r.tx.amount == PerInstallment(r.totalAmount.value, r.tx.installments.value)
              && r.tx.recurrence == Some("monthly")
    ensures var r := Fallback(text, metas, today, tb);
            r.Local? && !r.isInstallment ==>
              r.tx.amount == AmountWith(Lower(text), tb.totals, tb.amounts) && r.tx.installments.None?
  {
    var t := Lower(text);
    var amount := AmountWith(t, tb.totals, tb.amounts);
    match Installments(t, tb.installments, tb.numberWords)
    case Some(n) =>
    case None =>
  }

  /** The goal of a local reply is one of the goals sent. */
  lemma FallbackMeta(text: string, metas: seq<Meta>, today: string, tb: Tables)
    ensures var r := Fallback(text, metas, today, tb);
            r.Local? && r.tx.metaId.Some? ==> exists i :: 0 <= i < |metas| && metas[i].id == r.tx.metaId.value
  {
  }

  // ---- POST ----

  /** A JSON value in the AI reply's `amount` field. */
  datatype JsonAmount = Absent | Num(x: real) | Str(s: string)

  /** `transaction` of the AI reply, each field possibly missing. */
  datatype AiTx = AiTx(kind: Option<string>, amount: JsonAmount, description: Option<string>, category: Option<string>,
                       date: Option<string>, installments: Option<real>)

  datatype AiResult = AiResult(success: bool, tx: Option<AiTx>)

  /** What the AI call gave: an exception, an empty content, text that is not JSON, or a JSON reply. */
  datatype AiOutcome = Threw | NoContent | NotJson | Json(result: AiResult)

  /** The request body: `text` (missing or empty is refused) and the goals. */
  datatype Request = Request(text: Option<string>, metas: seq<Meta>)

  datatype Reply =
    | Error(status: nat, message: string)
    | FromFallback(local: LocalReply)
    | AiInstallment(tx: AiTx, perInstallment: real, installments: real, total: real)
    | AiPassThrough(result: AiResult)

  predicate Truthy(s: Option<string>) { s.Some? && s.value != "" }

  predicate TruthyAmount(a: JsonAmount) { (a.Num? && a.x != 0.0) || (a.Str? && a.s != "") }

  const MissingText: string := "Texto é obrigatório"
  const EmptyAi: string := "Erro na resposta da IA"
  const Incomplete: string := "Dados da transação incompletos"
  const BadType: string := "Tipo de transação inválido"
  const BadAmount: string := "Valor da transação inválido"
  const Internal: string := "Erro interno do servidor"

  /** `amount / installments` for a count above one: the parts multiply back to the amount. */
  function Divided(amount: real, n: real): (per: real)
    requires n > 0.0
    ensures per * n == amount
  {
    amount / n
  }

  /** The checks on a JSON reply that reports success with a transaction. */
  function CheckAi(result: AiResult): Reply
  {
    if result.success && result.tx.Some? then
      var tx := result.tx.value;
      if !Truthy(tx.kind) || !TruthyAmount(tx.amount) || !Truthy(tx.description) || !Truthy(tx.category) || !Truthy(tx.date)
      then Error(400, Incomplete)
      else if tx.kind.value != "income" && tx.kind.value != "expense" then Error(400, BadType)
      else if !tx.amount.Num? || tx.amount.x <= 0.0 then Error(400, BadAmount)
      else if tx.installments.Some? && tx.installments.value > 1.0 then
        AiInstallment(tx, Divided(tx.amount.x, tx.installments.value), tx.installments.value, tx.amount.x)
      else AiPassThrough(result)
    else AiPassThrough(result)
  }

  /**
   * `POST`: an unreadable body is a 500; a missing or empty text a 400;
   * without an API key, or when the AI call fails or replies with text that
   * is not JSON, the local fallback answers; an empty AI reply is a 500;
   * otherwise the AI reply is checked.
   */
  function Post(req: Option<Request>, hasKey: bool, ai: AiOutcome, today: string, tb: Tables): Reply
  {
    if req.None? then Error(500, Internal)
    else if !Truthy(req.value.text) then Error(400, MissingText)
    else
      var fallback := FromFallback(Fallback(req.value.text.value, req.value.metas, today, tb));
      if !hasKey then fallback
      else match ai
        case Threw => fallback
        case NoContent => Error(500, EmptyAi)
        case NotJson => fallback
        case Json(result) => CheckAi(result)
  }

  /** A text that is missing or empty is refused, an unreadable body is a 500, and without an API key the local fallback answers. */
  lemma PostRefuses(req: Option<Request>, hasKey: bool, ai: AiOutcome, today: string, tb: Tables)
    ensures req.None? ==> Post(req, hasKey, ai, today, tb) == Error(500, Internal)
    ensures req.Some? && !Truthy(req.value.text) ==> Post(req, hasKey, ai, today, tb) == Error(400, MissingText)
    ensures req.Some? && Truthy(req.value.text) && (!hasKey || ai.Threw? || ai.NotJson?) ==>
              Post(req, hasKey, ai, today, tb) == FromFallback(Fallback(req.value.text.value, req.value.metas, today, tb))
  {
  }

  /**
   * With a text and a key, an empty AI reply is a 500; a successful reply
   * whose transaction misses a field is a 400, one whose type is neither
   * income nor expense another, and one whose amount is not a positive
   * number a third.
   */
  lemma PostAiErrors(req: Option<Request>, ai: AiOutcome, today: string, tb: Tables)
    requires req.Some? && Truthy(req.value.text)
    ensures ai.NoContent? ==> Post(req, true, ai, today, tb) == Error(500, EmptyAi)
    ensures ai.Json? && ai.result.success && ai.result.tx.Some? ==>
              var tx := ai.result.tx.value;
              var r := Post(req, true, ai, today, tb);
              ((!Truthy(tx.kind) || !TruthyAmount(tx.amount) || !Truthy(tx.description) || !Truthy(tx.category) || !Truthy(tx.date))
                 <==> r == Error(400, Incomplete)) &&
              (r == Error(400, BadType) <==> r != Error(400, Incomplete) && tx.kind.value != "income" && tx.kind.value != "expense") &&
              (r == Error(400, BadAmount) <==>
                 r != Error(400, Incomplete) && r != Error(400, BadType) && (!tx.amount.Num? || tx.amount.x <= 0.0))
  {
  }

  /**
   * An accepted AI transaction has a type of income or expense and a
   * positive numeric amount; an installment reply splits that amount into
   * a count above one of parts.
   */
  lemma PostAccepts(req: Option<Request>, hasKey: bool, ai: AiOutcome, today: string, tb: Tables)
    ensures var r := Post(req, hasKey, ai, today, tb);
            r.AiInstallment? ==>
              (r.tx.kind == Some("income") || r.tx.kind == Some("expense")) && r.tx.amount.Num? && r.total > 0.0
              && r.installments > 1.0 && r.perInstallment == Divided(r.total, r.installments)
    ensures var r := Post(req, hasKey, ai, today, tb);
            r.AiPassThrough? && r.result.success && r.result.tx.Some? ==>
              var tx := r.result.tx.value;
              (tx.kind == Some("income") || tx.kind == Some("expense")) && tx.amount.Num? && tx.amount.x > 0.0
  {
  }
}
