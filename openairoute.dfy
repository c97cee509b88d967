/**
 * The context-aware assistant endpoint: the reply is chosen by keywords in
 * the lower-cased message, first matching group wins, and built piece by
 * piece from the figures of the context the client computed (balance,
 * totals, top spending categories, goals, 30-day trend, latest
 * transactions); a message with no keyword gets the general summary.
 */
module OpenAiRoute {
  import opened Ledger
  import opened Seqs
  import opened Strs
  import NumFmt

  /** One of `categoriasMaisGastosas`. */
  datatype CategoriaGasto = CategoriaGasto(categoria: string, valor: real)

  /** One of `detalheMetas`. */
  datatype DetalheMeta = DetalheMeta(nome: string, valor: real)

  /** One of `ultimasTransacoes`. */
  datatype UltimaTransacao = UltimaTransacao(tipo: string, valor: real, categoria: string, descricao: string, data: string)

  /** `tendenciaUltimos30Dias`. */
  datatype Tendencia = Tendencia(receitas: real, despesas: real, saldo: real)

  /** `detalhesTransacoes`; the daily average is interpolated as the text the client sent. */
  datatype DetalhesTransacoes = DetalhesTransacoes(ultimasTransacoes: Option<seq<UltimaTransacao>>, mediaGastosDiarios: string)

  /** The `context` of a request; an absent optional part is `None`. */
  datatype Context = Context(
    saldo: real,
    totalReceitas: real,
    totalDespesas: real,
    totalTransacoes: nat,
    metasAtivas: nat,
    categoriasMaisGastosas: Option<seq<CategoriaGasto>>,
    tendenciaUltimos30Dias: Option<Tendencia>,
    detalhesTransacoes: Option<DetalhesTransacoes>,
    detalheMetas: Option<seq<DetalheMeta>>)

  /** `Math.abs`. */
  function Abs(x: real): (r: real)
    ensures r >= 0.0 && (r == x || r == -x)
  {
    if x < 0.0 then -x else x
  }

  // ---- choosing the branch ----

  datatype Topic = Balance | Spending | Income | Goals | Saving | Trend | Movements | Summary

  const BalanceWords: seq<string> := ["saldo", "situação"]
  const SpendingWords: seq<string> := ["gasto", "despesa"]
  const IncomeWords: seq<string> := ["receita", "renda"]
  const GoalWords: seq<string> := ["meta", "objetivo"]
  const SavingWords: seq<string> := ["economizar", "economia"]
  const TrendWords: seq<string> := ["tendência", "últimos"]
  const MovementWords: seq<string> := ["transaç", "moviment"]

  /** The `if (messageLower.includes(..) || messageLower.includes(..)) .. else if ..` chain. */
  function TopicOf(msg: string): Topic
  {
    if ContainsAny(msg, BalanceWords) then Balance
    else if ContainsAny(msg, SpendingWords) then Spending
    else if ContainsAny(msg, IncomeWords) then Topic.Income
    else if ContainsAny(msg, GoalWords) then Goals
    else if ContainsAny(msg, SavingWords) then Saving
    else if ContainsAny(msg, TrendWords) then Trend
    else if ContainsAny(msg, MovementWords) then Movements
    else Summary
  }

  const FirstGroups: seq<(Topic, seq<string>)> :=
    [(Balance, BalanceWords), (Spending, SpendingWords), (Topic.Income, IncomeWords), (Goals, GoalWords)]

  const LastGroups: seq<(Topic, seq<string>)> :=
    [(Saving, SavingWords), (Trend, TrendWords), (Movements, MovementWords)]

  /** The keyword groups in the order they are tried. */
  function Groups(): seq<(Topic, seq<string>)>
  {
    FirstGroups + LastGroups
  }

  /**
   * The branch is that of the first group, in the order balance, spending,
   * income, goals, saving, trend, movements, that has a word in the
   * message; with none it is the general summary.
   */
  lemma TopicIsFirstGroup(msg: string)
    ensures var k := FirstGroup(msg, Groups());
            TopicOf(msg) == if k < |Groups()| then Groups()[k].0 else Summary
  {
    FirstGroupAppend(msg, FirstGroups, LastGroups);
    FirstTopics(msg);
    var k := FirstGroup(msg, FirstGroups);
    if k < |FirstGroups| {
      assert (FirstGroups + LastGroups)[k] == FirstGroups[k];
    } else {
      LastTopics(msg);
      var j := FirstGroup(msg, LastGroups);
      if j < |LastGroups| {
        assert (FirstGroups + LastGroups)[4 + j] == LastGroups[j];
      }
    }
  }

  lemma FirstTopics(msg: string)
    ensures var k := FirstGroup(msg, FirstGroups);
            (k < |FirstGroups| ==> TopicOf(msg) == FirstGroups[k].0) &&
            (k == |FirstGroups| ==> !ContainsAny(msg, BalanceWords) && !ContainsAny(msg, SpendingWords) &&
                                    !ContainsAny(msg, IncomeWords) && !ContainsAny(msg, GoalWords))
  {
    var a, b, c, d := (Balance, BalanceWords), (Spending, SpendingWords), (Topic.Income, IncomeWords), (Goals, GoalWords);
    assert FirstGroups == [a] + ([b] + ([c] + ([d] + [])));
    FirstGroupStep(msg, d, []);
    FirstGroupStep(msg, c, [d] + []);
    FirstGroupStep(msg, b, [c] + ([d] + []));
    FirstGroupStep(msg, a, [b] + ([c] + ([d] + [])));
    var k := FirstGroup(msg, FirstGroups);
    if ContainsAny(msg, BalanceWords) {
      assert k == 0;
    } else if ContainsAny(msg, SpendingWords) {
      assert k == 1;
    } else if ContainsAny(msg, IncomeWords) {
      assert k == 2;
    } else if ContainsAny(msg, GoalWords) {
      assert k == 3;
    } else {
      assert k == 4;
    }
  }

  lemma LastTopics(msg: string)
    requires !ContainsAny(msg, BalanceWords) && !ContainsAny(msg, SpendingWords)
    requires !ContainsAny(msg, IncomeWords) && !ContainsAny(msg, GoalWords)
    ensures var k := FirstGroup(msg, LastGroups);
            TopicOf(msg) == if k < |LastGroups| then LastGroups[k].0 else Summary
  {
    var e, f, g := (Saving, SavingWords), (Trend, TrendWords), (Movements, MovementWords);
    assert LastGroups == [e] + ([f] + ([g] + []));
    FirstGroupStep(msg, g, []);
    FirstGroupStep(msg, f, [g] + []);
    FirstGroupStep(msg, e, [f] + ([g] + []));
    var k := FirstGroup(msg, LastGroups);
    if ContainsAny(msg, SavingWords) {
      assert k == 0;
    } else if ContainsAny(msg, TrendWords) {
      assert k == 1;
    } else if ContainsAny(msg, MovementWords) {
      assert k == 2;
    } else {
      assert k == 3;
    }
  }

  // ---- the balance branch ----

  const PositiveOpening: string := "✅ Sua situação financeira está positiva! Você tem um saldo de R$ "
  const HighBalance: string := "Com esse saldo, você está em uma excelente posição para fazer investimentos ou criar uma reserva de emergência."
  const MidBalance: string := "É um bom valor para manter como reserva de emergência e talvez investir uma parte."
  const LowBalance: string := "É importante manter esse saldo positivo e tentar aumentá-lo gradualmente."
  const NegativeOpening: string := "⚠️ Atenção! Você está com saldo negativo de R$ "
  const NegativeClose: string := ". Precisa urgentemente reduzir gastos ou aumentar receitas."

  /** The advice for a positive balance: above 5000, above 1000, or up to 1000. */
  function BalanceAdvice(saldo: real): string
  {
    if saldo > 5000.0 then HighBalance else if saldo > 1000.0 then MidBalance else LowBalance
  }

  function BalanceText(saldo: real): string
  {
    if saldo > 0.0 then PositiveOpening + NumFmt.Fixed2(saldo) + ". " + BalanceAdvice(saldo)
    else NegativeOpening + NumFmt.Fixed2(Abs(saldo)) + NegativeClose
  }

  /** The balance branch as the handler writes it, assigning and appending to `response`. */
  method BalanceReply(saldo: real) returns (response: string)
    ensures response == BalanceText(saldo)
  {
    if saldo > 0.0 {
      response := PositiveOpening + NumFmt.Fixed2(saldo) + ". ";
      if saldo > 5000.0 {
        response := response + HighBalance;
      } else if saldo > 1000.0 {
        response := response + MidBalance;
      } else {
        response := response + LowBalance;
      }
    } else {
      response := NegativeOpening + NumFmt.Fixed2(Abs(saldo)) + NegativeClose;
    }
  }

  /** The two openings part at the 47th character. */
  lemma BalanceOpeningsDiffer()
    ensures |PositiveOpening| > 46 && |NegativeOpening| > 46 && PositiveOpening[46] != NegativeOpening[46]
  {
  }

  /**
   * A positive balance opens with the positive verdict and ends with the
   * advice of its band; a zero or negative one opens with the warning and
   * shows the amount without a sign.
   */
  lemma BalanceSpec(saldo: real)
    ensures var r := BalanceText(saldo);
            (saldo > 0.0 <==> PositiveOpening <= r) &&
            (saldo <= 0.0 <==> NegativeOpening <= r) &&
            (saldo > 0.0 ==> EndsWith(r, BalanceAdvice(saldo))) &&
            (saldo <= 0.0 ==> |NegativeOpening| < |r| && r[|NegativeOpening|] != '-')
  {
    var r := BalanceText(saldo);
    BalanceOpeningsDiffer();
    if saldo > 0.0 {
      var amount, advice := NumFmt.Fixed2(saldo), BalanceAdvice(saldo);
      EndsWithAppend(PositiveOpening + amount + ". ", advice);
      AppendAssoc(PositiveOpening + amount, ". ", advice);
      AppendAssoc(PositiveOpening, amount, ". " + advice);
      PrefixOfAppend(PositiveOpening, amount + (". " + advice));
      PrefixesDiffer(NegativeOpening, PositiveOpening, r, 46);
    } else {
      var amount := NumFmt.Fixed2(Abs(saldo));
      CharAfter(NegativeOpening, amount, NegativeClose);
      AppendAssoc(NegativeOpening, amount, NegativeClose);
      PrefixOfAppend(NegativeOpening, amount + NegativeClose);
      PrefixesDiffer(PositiveOpening, NegativeOpening, r, 46);
    }
  }

  // ---- the spending branch ----

  const SpendingOpening: string := "💸 Você teve R$ "
  const InExpenses: string := " em despesas. "
  const LargestLabel: string := "Suas maiores despesas são: "
  const CategoryLabel: string := "A categoria \""
  const Represents: string := "\" representa "
  const OfSpending: string := "% dos seus gastos."
  const OverIncome: string := " ⚠️ Suas despesas estão maiores que suas receitas!"

  /** `${index + 1}º ${cat.categoria} (R$ ${cat.valor.toFixed(2)})`. */
  function RankItem(index: nat, cat: CategoriaGasto): string
  {
    NatStr(index + 1) + "º " + cat.categoria + " (R$ " + NumFmt.Fixed2(cat.valor) + ")"
  }

  /** `A categoria "${maiorCategoria.categoria}" representa ${percentualMaior}% dos seus gastos.` */
  function Share(maior: CategoriaGasto, totalDespesas: real): string
  {
    CategoryLabel + maior.categoria + Represents + NumFmt.PercentText(maior.valor, totalDespesas) + OfSpending
  }

  /** `categoriasMaisGastosas && categoriasMaisGastosas.length > 0`. */
  predicate HasCategories(c: Context)
  {
    c.categoriasMaisGastosas.Some? && c.categoriasMaisGastosas.value != []
  }

  /** The spending text before the warning: the total, then the ranking and the largest share. */
  function SpendingBody(c: Context): string
  {
    var head := SpendingOpening + NumFmt.Fixed2(c.totalDespesas) + InExpenses;
    if HasCategories(c) then
      var cats := c.categoriasMaisGastosas.value;
      head + LargestLabel + Join(Items(cats, RankItem), ", ") + ". " + Share(cats[0], c.totalDespesas)
    else head
  }

  /** The spending text: the body, then the warning when expenses exceed income. */
  function SpendingText(c: Context): string
  {
    if c.totalDespesas > c.totalReceitas then SpendingBody(c) + OverIncome else SpendingBody(c)
  }

  method SpendingReply(c: Context) returns (response: string)
    ensures response == SpendingText(c)
  {
    response := SpendingOpening + NumFmt.Fixed2(c.totalDespesas) + InExpenses;
    if HasCategories(c) {
      var cats := c.categoriasMaisGastosas.value;
      response := response + LargestLabel;
      response := AppendJoined(response, cats, RankItem, ", ");
      response := response + ". ";
      var maiorCategoria := cats[0];
      var percentualMaior := NumFmt.PercentText(maiorCategoria.valor, c.totalDespesas);
      response := response + (CategoryLabel + maiorCategoria.categoria + Represents + percentualMaior + OfSpending);
    }
    if c.totalDespesas > c.totalReceitas {
      response := response + OverIncome;
    }
  }

  /** An item of the ranking starts with its position and names its category. */
  lemma RankItemSpec(i: nat, cat: CategoriaGasto)
    ensures Contains(RankItem(i, cat), cat.categoria) && NatStr(i + 1) <= RankItem(i, cat)
  {
    var n, amount := NatStr(i + 1), NumFmt.Fixed2(cat.valor);
    ContainsInfix(n + "º ", cat.categoria, " (R$ ");
    ContainsExtend(n + "º " + cat.categoria + " (R$ ", amount, cat.categoria);
    ContainsExtend(n + "º " + cat.categoria + " (R$ " + amount, ")", cat.categoria);
    PrefixOfAppend(n, "º ");
    PrefixAppend(n, n + "º ", cat.categoria);
    PrefixAppend(n, n + "º " + cat.categoria, " (R$ ");
    PrefixAppend(n, n + "º " + cat.categoria + " (R$ ", amount);
    PrefixAppend(n, n + "º " + cat.categoria + " (R$ " + amount, ")");
  }

  /** The ranking has one item per category, numbered from 1, each naming its category. */
  lemma RankingSpec(cats: seq<CategoriaGasto>)
    ensures var items := Items(cats, RankItem);
            |items| == |cats| &&
            forall i :: 0 <= i < |cats| ==> Contains(items[i], cats[i].categoria) && NatStr(i + 1) <= items[i]
  {
    forall i | 0 <= i < |cats|
      ensures Contains(RankItem(i, cats[i]), cats[i].categoria) && NatStr(i + 1) <= RankItem(i, cats[i])
    {
      RankItemSpec(i, cats[i]);
    }
  }

  /** The warning closes the text exactly when expenses exceed income, after the ranking of the categories. */
  lemma SpendingSpec(c: Context)
    ensures c.totalDespesas > c.totalReceitas ==> EndsWith(SpendingText(c), OverIncome)
    ensures c.totalDespesas <= c.totalReceitas ==> SpendingText(c) == SpendingBody(c)
    ensures HasCategories(c) ==>
              var cats := c.categoriasMaisGastosas.value;
              var head := SpendingOpening + NumFmt.Fixed2(c.totalDespesas) + InExpenses + LargestLabel;
              head + Join(Items(cats, RankItem), ", ") <= SpendingText(c)
  {
    EndsWithAppend(SpendingBody(c), OverIncome);
    if HasCategories(c) {
      var cats := c.categoriasMaisGastosas.value;
      var head := SpendingOpening + NumFmt.Fixed2(c.totalDespesas) + InExpenses + LargestLabel;
      var ranked := head + Join(Items(cats, RankItem), ", ");
      PrefixOfAppend(ranked, ". ");
      PrefixAppend(ranked, ranked + ". ", Share(cats[0], c.totalDespesas));
      PrefixAppend(ranked, SpendingBody(c), OverIncome);
    }
  }

  // ---- the income branch ----

  const IncomeOpening: string := "💰 Suas receitas totalizam R$ "
  const SurplusOpening: string := "Parabéns! Você tem uma sobra de R$ "
  const SurplusClose: string := " este período. Considere investir essa quantia."
  const Even: string := "Suas receitas e despesas estão equilibradas, mas seria ideal ter uma margem de segurança."
  const DeficitOpening: string := "Atenção! Você tem um déficit de R$ "
  const DeficitClose: string := ". Precisa aumentar receitas ou reduzir gastos."

  /** The verdict on income against expenses. */
  function IncomeVerdict(receitas: real, despesas: real): string
  {
    if receitas > despesas then SurplusOpening + NumFmt.Fixed2(receitas - despesas) + SurplusClose
    else if receitas == despesas then Even
    else DeficitOpening + NumFmt.Fixed2(despesas - receitas) + DeficitClose
  }

  function IncomeText(receitas: real, despesas: real): string
  {
    (IncomeOpening + NumFmt.Fixed2(receitas) + ". ") + IncomeVerdict(receitas, despesas)
  }

  /** `IncomeVerdict` case by case, for the step-by-step method below. */
  lemma SurplusVerdict(receitas: real, despesas: real)
    requires receitas > despesas
    ensures IncomeVerdict(receitas, despesas) == SurplusOpening + NumFmt.Fixed2(receitas - despesas) + SurplusClose
  {
  }

  lemma EvenVerdict(receitas: real, despesas: real)
    requires receitas == despesas
    ensures IncomeVerdict(receitas, despesas) == Even
  {
  }

  lemma DeficitVerdict(receitas: real, despesas: real)
    requires receitas < despesas
    ensures IncomeVerdict(receitas, despesas) == DeficitOpening + NumFmt.Fixed2(despesas - receitas) + DeficitClose
  {
  }

  method IncomeReply(receitas: real, despesas: real) returns (response: string)
    ensures response == IncomeText(receitas, despesas)
  {
    response := IncomeOpening + NumFmt.Fixed2(receitas) + ". ";
    if receitas > despesas {
      var sobra := receitas - despesas;
      SurplusVerdict(receitas, despesas);
      response := response + (SurplusOpening + NumFmt.Fixed2(sobra) + SurplusClose);
    } else if receitas == despesas {
      EvenVerdict(receitas, despesas);
      response := response + Even;
    } else {
      var deficit := despesas - receitas;
      DeficitVerdict(receitas, despesas);
      response := response + (DeficitOpening + NumFmt.Fixed2(deficit) + DeficitClose);
    }
  }

  /** The three verdicts end differently. */
  lemma IncomeVerdictsDiffer()
    ensures |SurplusClose| > 3 && |Even| > 3 && |DeficitClose| > 3
    ensures SurplusClose[|SurplusClose| - 3] != Even[|Even| - 3]
    ensures SurplusClose[|SurplusClose| - 2] != DeficitClose[|DeficitClose| - 2]
    ensures Even[|Even| - 2] != DeficitClose[|DeficitClose| - 2]
  {
  }

  /**
   * Exactly one of three verdicts: a surplus when income is larger, the even
   * message when they are equal, a deficit when expenses are larger; the
   * amount of a surplus or a deficit is shown without a sign.
   */
  lemma IncomeSpec(receitas: real, despesas: real)
    ensures var v := IncomeVerdict(receitas, despesas);
            (EndsWith(v, SurplusClose) <==> receitas > despesas) &&
            (v == Even <==> receitas == despesas) &&
            (EndsWith(v, DeficitClose) <==> receitas < despesas) &&
            (receitas > despesas ==> SurplusOpening <= v && |SurplusOpening| < |v| && v[|SurplusOpening|] != '-') &&
            (receitas < despesas ==> DeficitOpening <= v && |DeficitOpening| < |v| && v[|DeficitOpening|] != '-')
  {
    var v := IncomeVerdict(receitas, despesas);
    IncomeVerdictsDiffer();
    if receitas > despesas {
      var amount := NumFmt.Fixed2(receitas - despesas);
      CharAfter(SurplusOpening, amount, SurplusClose);
      AppendAssoc(SurplusOpening, amount, SurplusClose);
      PrefixOfAppend(SurplusOpening, amount + SurplusClose);
      EndsWithAppend(SurplusOpening + amount, SurplusClose);
      SuffixesDiffer(DeficitClose, SurplusClose, v, 2);
      SuffixesDiffer(Even, SurplusClose, v, 3);
    } else if receitas == despesas {
      EndsWithAppend([], Even);
      SuffixesDiffer(SurplusClose, Even, v, 3);
      SuffixesDiffer(DeficitClose, Even, v, 2);
    } else {
      var amount := NumFmt.Fixed2(despesas - receitas);
      CharAfter(DeficitOpening, amount, DeficitClose);
      AppendAssoc(DeficitOpening, amount, DeficitClose);
      PrefixOfAppend(DeficitOpening, amount + DeficitClose);
      EndsWithAppend(DeficitOpening + amount, DeficitClose);
      SuffixesDiffer(SurplusClose, DeficitClose, v, 2);
      SuffixesDiffer(Even, DeficitClose, v, 2);
    }
  }

  // ---- the goals branch ----

  const GoalsOpening: string := "🎯 Você tem "
  const ActiveGoals: string := " meta(s) ativa(s). "
  const NoGoals: string := "Que tal estabelecer algumas metas financeiras? Isso ajuda muito no controle das finanças!"
  const YourGoals: string := "Suas metas: "
  const StayFocused: string := "Continue focado em suas metas! Elas são fundamentais para o sucesso financeiro."

  /** `${meta.nome} (R$ ${meta.valor.toFixed(2)})`. */
  function GoalItem(index: nat, meta: DetalheMeta): string
  {
    meta.nome + " (R$ " + NumFmt.Fixed2(meta.valor) + ")"
  }

  /** `detalheMetas && detalheMetas.length > 0`. */
  predicate HasGoalDetails(c: Context)
  {
    c.detalheMetas.Some? && c.detalheMetas.value != []
  }

  function GoalsText(c: Context): string
  {
    var head := GoalsOpening + NatStr(c.metasAtivas) + ActiveGoals;
    if c.metasAtivas == 0 then head + NoGoals
    else
      var listed := if HasGoalDetails(c) then head + YourGoals + Join(Items(c.detalheMetas.value, GoalItem), ", ") + ". " else head;
      listed + StayFocused
  }

  method GoalsReply(c: Context) returns (response: string)
    ensures response == GoalsText(c)
  {
    response := GoalsOpening + NatStr(c.metasAtivas) + ActiveGoals;
    if c.metasAtivas == 0 {
      response := response + NoGoals;
    } else {
      if HasGoalDetails(c) {
        response := response + YourGoals;
        response := AppendJoined(response, c.detalheMetas.value, GoalItem, ", ");
        response := response + ". ";
      }
      response := response + StayFocused;
    }
  }

  /**
   * With no active goals the text suggests creating some and lists none,
   * whatever details came; otherwise it ends with the encouragement, after
   * the goals listed by name when there are details.
   */
  lemma GoalsSpec(c: Context)
    ensures c.metasAtivas == 0 ==> EndsWith(GoalsText(c), NoGoals) && GoalsText(c) == GoalsText(c.(detalheMetas := None))
    ensures c.metasAtivas > 0 ==> EndsWith(GoalsText(c), StayFocused)
    ensures c.metasAtivas > 0 && HasGoalDetails(c) ==>
              forall m :: m in c.detalheMetas.value ==> Contains(GoalsText(c), m.nome)
  {
    var head := GoalsOpening + NatStr(c.metasAtivas) + ActiveGoals;
    if c.metasAtivas == 0 {
      EndsWithAppend(head, NoGoals);
    } else {
      var listed := if HasGoalDetails(c) then head + YourGoals + Join(Items(c.detalheMetas.value, GoalItem), ", ") + ". " else head;
      EndsWithAppend(listed, StayFocused);
      if HasGoalDetails(c) {
        var ms := c.detalheMetas.value;
        var joined := Join(Items(ms, GoalItem), ", ");
        forall m | m in ms ensures Contains(GoalsText(c), m.nome) {
          var i :| 0 <= i < |ms| && ms[i] == m;
          JoinHasPart(Items(ms, GoalItem), ", ", i);
          GoalItemNames(i, m);
          ContainsTrans(joined, GoalItem(i, m), m.nome);
          ContainsGrow(head + YourGoals, joined, ". ", m.nome);
          ContainsExtend(listed, StayFocused, m.nome);
        }
      }
    }
  }

  /** A goal's item starts with its name. */
  lemma GoalItemNames(i: nat, m: DetalheMeta)
    ensures Contains(GoalItem(i, m), m.nome)
  {
    var amount := NumFmt.Fixed2(m.valor);
    PrefixOfAppend(m.nome, " (R$ ");
    PrefixAppend(m.nome, m.nome + " (R$ ", amount);
    PrefixAppend(m.nome, m.nome + " (R$ " + amount, ")");
    PrefixContained(m.nome, GoalItem(i, m));
  }

  // ---- the saving branch ----

  const FocusOn: string := "💡 Para economizar, foque na categoria \""
  const WhereYouSpend: string := "\" onde você gasta R$ "
  const ReduceTip: string := "Tente reduzir 10-20% nessa categoria no próximo mês."
  const GeneralSaving: string := "💡 Para economizar: revise gastos desnecessários, compare preços antes de comprar e estabeleça um orçamento mensal para cada categoria."

  function SavingText(c: Context): string
  {
    if HasCategories(c) then
      var maiorGasto := c.categoriasMaisGastosas.value[0];
      (FocusOn + maiorGasto.categoria + WhereYouSpend + NumFmt.Fixed2(maiorGasto.valor) + ". ") + ReduceTip
    else GeneralSaving
  }

  method SavingReply(c: Context) returns (response: string)
    ensures response == SavingText(c)
  {
    if HasCategories(c) {
      var maiorGasto := c.categoriasMaisGastosas.value[0];
      response := FocusOn + maiorGasto.categoria + WhereYouSpend + NumFmt.Fixed2(maiorGasto.valor) + ". ";
      response := response + ReduceTip;
    } else {
      response := GeneralSaving;
    }
  }

  /** The two saving texts end differently. */
  lemma SavingEndingsDiffer()
    ensures |ReduceTip| > 2 && |GeneralSaving| > 2 && ReduceTip[|ReduceTip| - 2] != GeneralSaving[|GeneralSaving| - 2]
  {
  }

  /** With categories the tip names the first of them; without, the generic advice is given. */
  lemma SavingSpec(c: Context)
    ensures HasCategories(c) ==> Contains(SavingText(c), c.categoriasMaisGastosas.value[0].categoria) &&
                                 EndsWith(SavingText(c), ReduceTip)
    ensures !HasCategories(c) <==> SavingText(c) == GeneralSaving
  {
    if HasCategories(c) {
      var g := c.categoriasMaisGastosas.value[0];
      var amount := NumFmt.Fixed2(g.valor);
      var r := SavingText(c);
      EndsWithAppend(FocusOn + g.categoria + WhereYouSpend + amount + ". ", ReduceTip);
      ContainsInfix(FocusOn, g.categoria, WhereYouSpend);
      ContainsExtend(FocusOn + g.categoria + WhereYouSpend, amount, g.categoria);
      ContainsExtend(FocusOn + g.categoria + WhereYouSpend + amount, ". ", g.categoria);
      ContainsExtend(FocusOn + g.categoria + WhereYouSpend + amount + ". ", ReduceTip, g.categoria);
      SavingEndingsDiffer();
      SuffixesDiffer(GeneralSaving, ReduceTip, r, 2);
    }
  }

  // ---- the trend branch ----

  const TrendOpening: string := "📈 Nos últimos 30 dias: receitas R$ "
  const TrendExpenses: string := ", despesas R$ "
  const GoodTrendOpening: string := "Resultado positivo de R$ "
  const GoodTrendClose: string := "! Tendência boa."
  const BadTrendOpening: string := "Resultado negativo de R$ "
  const BadTrendClose: string := ". Precisa melhorar a tendência."

  /** The trend text; with no trend in the context the reply stays empty. */
  function TrendText(t: Option<Tendencia>): string
  {
    match t
    case None => ""
    case Some(tr) =>
      (TrendOpening + NumFmt.Fixed2(tr.receitas) + TrendExpenses + NumFmt.Fixed2(tr.despesas) + ". ") +
      (if tr.saldo > 0.0 then GoodTrendOpening + NumFmt.Fixed2(tr.saldo) + GoodTrendClose
       else BadTrendOpening + NumFmt.Fixed2(Abs(tr.saldo)) + BadTrendClose)
  }

  method TrendReply(t: Option<Tendencia>) returns (response: string)
    ensures response == TrendText(t)
  {
    response := "";
    if t.Some? {
      var receitas, despesas, saldoTendencia := t.value.receitas, t.value.despesas, t.value.saldo;
      response := TrendOpening + NumFmt.Fixed2(receitas) + TrendExpenses + NumFmt.Fixed2(despesas) + ". ";
      if saldoTendencia > 0.0 {
        response := response + (GoodTrendOpening + NumFmt.Fixed2(saldoTendencia) + GoodTrendClose);
      } else {
        response := response + (BadTrendOpening + NumFmt.Fixed2(Abs(saldoTendencia)) + BadTrendClose);
      }
    }
  }

  /** The reply is empty exactly when no trend came; a trend's result is positive or negative by its balance. */
  lemma TrendSpec(t: Option<Tendencia>)
    ensures TrendText(t) == "" <==> t.None?
    ensures t.Some? && t.value.saldo > 0.0 ==> EndsWith(TrendText(t), GoodTrendClose)
    ensures t.Some? && t.value.saldo <= 0.0 ==> EndsWith(TrendText(t), BadTrendClose)
  {
    if t.Some? {
      var tr := t.value;
      var head := TrendOpening + NumFmt.Fixed2(tr.receitas) + TrendExpenses + NumFmt.Fixed2(tr.despesas) + ". ";
      if tr.saldo > 0.0 {
        var tail := GoodTrendOpening + NumFmt.Fixed2(tr.saldo) + GoodTrendClose;
        EndsWithAppend(GoodTrendOpening + NumFmt.Fixed2(tr.saldo), GoodTrendClose);
        EndsWithGrow(head, tail, GoodTrendClose);
      } else {
        var tail := BadTrendOpening + NumFmt.Fixed2(Abs(tr.saldo)) + BadTrendClose;
        EndsWithAppend(BadTrendOpening + NumFmt.Fixed2(Abs(tr.saldo)), BadTrendClose);
        EndsWithGrow(head, tail, BadTrendClose);
      }
    }
  }

  // ---- the transactions branch ----

  const RecordedOpening: string := "📊 Você tem "
  const Recorded: string := " transações registradas. "
  const RecordMore: string := "Que tal registrar mais movimentações para ter um controle financeiro mais preciso?"
  const GoodControl: string := "Ótimo controle! "
  const LatestLabel: string := "Suas últimas movimentações: "
  const DailyAverage: string := ". Média diária de gastos: R$ "

  /** `${t.tipo} de R$ ${t.valor.toFixed(2)} (${t.categoria})`. */
  function RecentItem(index: nat, t: UltimaTransacao): string
  {
    t.tipo + " de R$ " + NumFmt.Fixed2(t.valor) + " (" + t.categoria + ")"
  }

  /** `detalhesTransacoes && detalhesTransacoes.ultimasTransacoes`: an empty list passes too. */
  predicate HasLatest(c: Context)
  {
    c.detalhesTransacoes.Some? && c.detalhesTransacoes.value.ultimasTransacoes.Some?
  }

  function MovementsText(c: Context): string
  {
    var head := RecordedOpening + NatStr(c.totalTransacoes) + Recorded;
    if c.totalTransacoes < 5 then head + RecordMore
    else if HasLatest(c) then
      var d := c.detalhesTransacoes.value;
      head + GoodControl + LatestLabel + Join(Items(Take(d.ultimasTransacoes.value, 3), RecentItem), ", ") +
      (DailyAverage + d.mediaGastosDiarios + ".")
    else head + GoodControl
  }

  /**
   * `all.slice(0, 3).forEach((x, index) => { text += item(index, x); if (index < 2 && index < all.length - 1) text += ", "; })`:
   * the first three items joined by commas.
   */
  method AppendFirstThree<T>(text: string, all: seq<T>, item: (nat, T) -> string) returns (r: string)
    ensures r == text + Join(Items(Take(all, 3), item), ", ")
  {
    var shown := Take(all, 3);
    var parts := Items(shown, item);
    r := text;
    var index := 0;
    while index < |shown|
      invariant 0 <= index <= |shown|
      invariant r == text + Join(parts[..index], ", ") + (if 0 < index < |shown| then ", " else "")
    {
      assert parts[..index + 1] == parts[..index] + [parts[index]];
      JoinSnoc(parts[..index], parts[index], ", ");
      r := r + item(index, shown[index]);
      assert (index < 2 && index < |all| - 1) == (index + 1 < |shown|);
      if index < 2 && index < |all| - 1 {
        r := r + ", ";
      }
      index := index + 1;
    }
    assert parts[..|shown|] == parts;
  }

  method MovementsReply(c: Context) returns (response: string)
    ensures response == MovementsText(c)
  {
    response := RecordedOpening + NatStr(c.totalTransacoes) + Recorded;
    if c.totalTransacoes < 5 {
      response := response + RecordMore;
    } else {
      response := response + GoodControl;
      if HasLatest(c) {
        var d := c.detalhesTransacoes.value;
        response := response + LatestLabel;
        response := AppendFirstThree(response, d.ultimasTransacoes.value, RecentItem);
        response := response + (DailyAverage + d.mediaGastosDiarios + ".");
      }
    }
  }

  /**
   * Fewer than five transactions ask for more records; from five on, at most
   * the first three of the latest transactions are listed, and one that is
   * not among the first three is never named by its item.
   */
  lemma MovementsSpec(c: Context)
    ensures c.totalTransacoes < 5 ==> EndsWith(MovementsText(c), RecordMore)
    ensures c.totalTransacoes >= 5 && !HasLatest(c) ==> EndsWith(MovementsText(c), GoodControl)
    ensures HasLatest(c) ==>
              var all := c.detalhesTransacoes.value.ultimasTransacoes.value;
              |Items(Take(all, 3), RecentItem)| == (if |all| < 3 then |all| else 3) &&
              forall i :: 0 <= i < |Take(all, 3)| ==> Items(Take(all, 3), RecentItem)[i] == RecentItem(i, all[i])
  {
    var head := RecordedOpening + NatStr(c.totalTransacoes) + Recorded;
    EndsWithAppend(head, RecordMore);
    EndsWithAppend(head, GoodControl);
  }

  // ---- the general summary ----

  const SummaryOpening: string := "📊 Resumo financeiro: Saldo R$ "
  const Transactions: string := " transações, "
  const ActiveGoalsSummary: string := " metas ativas. "
  const PositiveBalance: string := "Balanço positivo de R$ "
  const PositiveClose: string := "! 💚"
  const NegativeBalance: string := "Balanço negativo de R$ "
  const NegativeBalanceClose: string := ". ⚠️"
  const EvenBalance: string := "Balanço equilibrado. ⚖️"
  const AskMore: string := "\n\nPerguntação mais específica sobre gastos, receitas, metas ou tendências para análises detalhadas!"

  /** The verdict on `balancoGeral`, income minus expenses. */
  function BalanceVerdict(balanco: real): string
  {
    if balanco > 0.0 then PositiveBalance + NumFmt.Fixed2(balanco) + PositiveClose
    else if balanco < 0.0 then NegativeBalance + NumFmt.Fixed2(Abs(balanco)) + NegativeBalanceClose
    else EvenBalance
  }

  function SummaryText(c: Context): string
  {
    var head := SummaryOpening + NumFmt.Fixed2(c.saldo) + ", ";
    var counts := head + (NatStr(c.totalTransacoes) + Transactions + NatStr(c.metasAtivas) + ActiveGoalsSummary);
    counts + BalanceVerdict(c.totalReceitas - c.totalDespesas) + AskMore
  }

  /** `BalanceVerdict` case by case, for the step-by-step method below. */
  lemma PositiveVerdict(balanco: real)
    requires balanco > 0.0
    ensures BalanceVerdict(balanco) == PositiveBalance + NumFmt.Fixed2(balanco) + PositiveClose
  {
  }

  lemma NegativeVerdict(balanco: real)
    requires balanco < 0.0
    ensures BalanceVerdict(balanco) == NegativeBalance + NumFmt.Fixed2(Abs(balanco)) + NegativeBalanceClose
  {
  }

  lemma EvenBalanceVerdict(balanco: real)
    requires balanco == 0.0
    ensures BalanceVerdict(balanco) == EvenBalance
  {
  }

  /** `SummaryText` with its verdict given, in the order the method below appends the pieces. */
  lemma SummaryTextWith(c: Context, verdict: string)
    requires verdict == BalanceVerdict(c.totalReceitas - c.totalDespesas)
    ensures SummaryText(c) ==
              (SummaryOpening + NumFmt.Fixed2(c.saldo) + ", ") +
              (NatStr(c.totalTransacoes) + Transactions + NatStr(c.metasAtivas) + ActiveGoalsSummary) +
              verdict + AskMore
  {
  }

  method SummaryReply(c: Context) returns (response: string)
    ensures response == SummaryText(c)
  {
    var balancoGeral := c.totalReceitas - c.totalDespesas;
    response := SummaryOpening + NumFmt.Fixed2(c.saldo) + ", ";
    response := response + (NatStr(c.totalTransacoes) + Transactions + NatStr(c.metasAtivas) + ActiveGoalsSummary);
    if balancoGeral > 0.0 {
      PositiveVerdict(balancoGeral);
      SummaryTextWith(c, PositiveBalance + NumFmt.Fixed2(balancoGeral) + PositiveClose);
      response := response + (PositiveBalance + NumFmt.Fixed2(balancoGeral) + PositiveClose);
    } else if balancoGeral < 0.0 {
      NegativeVerdict(balancoGeral);
      SummaryTextWith(c, NegativeBalance + NumFmt.Fixed2(Abs(balancoGeral)) + NegativeBalanceClose);
      response := response + (NegativeBalance + NumFmt.Fixed2(Abs(balancoGeral)) + NegativeBalanceClose);
    } else {
      EvenBalanceVerdict(balancoGeral);
      SummaryTextWith(c, EvenBalance);
      response := response + EvenBalance;
    }
    response := response + AskMore;
  }

  /** The three verdicts part after "Balanço ", and at their last character. */
  lemma BalanceVerdictsDiffer()
    ensures |PositiveBalance| > 22 && |NegativeBalance| > 22 && |EvenBalance| > 22
    ensures PositiveBalance[11] != NegativeBalance[11]
    ensures PositiveBalance[22] != EvenBalance[22] && NegativeBalance[22] != EvenBalance[22]
  {
  }

  /**
   * The summary's verdict follows the sign of income minus expenses, the
   * amount written without a sign, and the text always closes by inviting
   * a more specific question.
   */
  lemma SummarySpec(c: Context)
    ensures var b := c.totalReceitas - c.totalDespesas;
            var v := BalanceVerdict(b);
            (PositiveBalance <= v <==> b > 0.0) &&
            (NegativeBalance <= v <==> b < 0.0) &&
            (v == EvenBalance <==> b == 0.0) &&
            (b > 0.0 ==> |PositiveBalance| < |v| && v[|PositiveBalance|] != '-') &&
            (b < 0.0 ==> |NegativeBalance| < |v| && v[|NegativeBalance|] != '-')
    ensures EndsWith(SummaryText(c), AskMore)
  {
    var b := c.totalReceitas - c.totalDespesas;
    var v := BalanceVerdict(b);
    BalanceVerdictsDiffer();
    if b > 0.0 {
      var amount := NumFmt.Fixed2(b);
      CharAfter(PositiveBalance, amount, PositiveClose);
      AppendAssoc(PositiveBalance, amount, PositiveClose);
      PrefixOfAppend(PositiveBalance, amount + PositiveClose);
      PrefixesDiffer(NegativeBalance, PositiveBalance, v, 11);
      PrefixesDiffer(EvenBalance, PositiveBalance, v, 22);
    } else if b < 0.0 {
      var amount := NumFmt.Fixed2(Abs(b));
      CharAfter(NegativeBalance, amount, NegativeBalanceClose);
      AppendAssoc(NegativeBalance, amount, NegativeBalanceClose);
      PrefixOfAppend(NegativeBalance, amount + NegativeBalanceClose);
      PrefixesDiffer(PositiveBalance, NegativeBalance, v, 11);
      PrefixesDiffer(EvenBalance, NegativeBalance, v, 22);
    } else {
      PrefixOfAppend(EvenBalance, "");
      PrefixesDiffer(PositiveBalance, EvenBalance, v, 22);
      PrefixesDiffer(NegativeBalance, EvenBalance, v, 22);
    }
    var head := SummaryOpening + NumFmt.Fixed2(c.saldo) + ", ";
    var counts := head + (NatStr(c.totalTransacoes) + Transactions + NatStr(c.metasAtivas) + ActiveGoalsSummary);
    EndsWithAppend(counts + v, AskMore);
  }

  // ---- the endpoint ----

  const Apology: string := "Desculpe, não consegui acessar seus dados financeiros no momento. Tente novamente."
  const InternalError: string := "Erro interno do servidor"

  /** The reply body: `{ response }`, or `{ error }` with a status. */
  datatype Reply = Replied(response: string) | Failed(status: nat, error: string)

  /** The text of the branch the message selects. */
  function ResponseText(msg: string, c: Context): string
  {
    match TopicOf(msg)
    case Balance => BalanceText(c.saldo)
    case Spending => SpendingText(c)
    case Income => IncomeText(c.totalReceitas, c.totalDespesas)
    case Goals => GoalsText(c)
    case Saving => SavingText(c)
    case Trend => TrendText(c.tendenciaUltimos30Dias)
    case Movements => MovementsText(c)
    case Summary => SummaryText(c)
  }

  /**
   * The reply to a request: a message that is missing (or not a string)
   * fails in `toLowerCase` before anything else; a missing context gets the
   * apology; otherwise the branch text.
   */
  function ReplyTo(message: Option<string>, context: Option<Context>): Reply
  {
    if message.None? then Failed(500, InternalError)
    else if context.None? then Replied(Apology)
    else Replied(ResponseText(Lower(message.value), context.value))
  }

  /** `POST`: lower-case the message, check the context, then run the branch the keywords select (`TopicOf`). */
  method Post(message: Option<string>, context: Option<Context>) returns (r: Reply)
    ensures r == ReplyTo(message, context)
  {
    if message.None? {
      return Failed(500, InternalError);
    }
    var messageLower := Lower(message.value);
    if context.None? {
      return Replied(Apology);
    }
    var c := context.value;
    var response: string;
    match TopicOf(messageLower) {
      case Balance =>
        response := BalanceReply(c.saldo);
      case Spending =>
        response := SpendingReply(c);
      case Income =>
        response := IncomeReply(c.totalReceitas, c.totalDespesas);
      case Goals =>
        response := GoalsReply(c);
      case Saving =>
        response := SavingReply(c);
      case Trend =>
        response := TrendReply(c.tendenciaUltimos30Dias);
      case Movements =>
        response := MovementsReply(c);
      case Summary =>
        response := SummaryReply(c);
    }
    r := Replied(response);
  }

  /**
   * A missing message is a server error whatever the context; a missing
   * context gives the apology; a message whose keywords match no branch
   * gets the summary, which closes with the invitation to ask more.
   */
  lemma ReplySpec(message: Option<string>, context: Option<Context>)
    ensures ReplyTo(message, context).Failed? <==> message.None?
    ensures ReplyTo(message, context).Failed? ==> ReplyTo(message, context).status == 500
    ensures message.Some? && context.None? ==> ReplyTo(message, context) == Replied(Apology)
    ensures message.Some? && context.Some? && TopicOf(Lower(message.value)) == Summary ==>
              EndsWith(ReplyTo(message, context).response, AskMore)
  {
    if message.Some? && context.Some? && TopicOf(Lower(message.value)) == Summary {
      SummarySpec(context.value);
    }
  }
}
