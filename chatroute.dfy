/**
 * The chat endpoint's simulated assistant: the answer is chosen by keywords
 * in the lower-cased last message, trying the four data-driven topics only
 * when the user's transactions, goals and balance came with the request,
 * then the general topics, the greetings and a default text.
 */
module ChatRoute {
  import opened Seqs
  import opened Strs
  import opened Ledger
  import NumFmt
  import ExportManager

  datatype ChatMessage = ChatMessage(role: string, content: string)

  /** The optional `transactionData` of a request. */
  datatype TransactionData = TransactionData(transactions: seq<Transaction>, metas: seq<Meta>, saldo: real)

  /** `messages[messages.length - 1]?.content.toLowerCase() || ""`. */
  function LastMessage(ms: seq<ChatMessage>): string
  {
    if ms == [] then "" else Lower(ms[|ms| - 1].content)
  }

  /** The keywords are searched in the last message lower-cased, or in "" when there is none. */
  lemma LastMessageSpec(ms: seq<ChatMessage>)
    ensures ms == [] ==> LastMessage(ms) == ""
    ensures ms != [] ==> |LastMessage(ms)| == |ms[|ms| - 1].content| &&
                         Lower(LastMessage(ms)) == LastMessage(ms) &&
                         LastMessage(ms) == LastMessage([ChatMessage("user", Lower(ms[|ms| - 1].content))])
  {
    if ms != [] {
      LowerIdempotent(ms[|ms| - 1].content);
    }
  }

  // ---- choosing the topic ----

  datatype Topic = Situation | Saving | Goals | Investing | Planning | Emergency | Greeting | Fallback

  const SituationWords: seq<string> := ["como está", "situação", "resumo"]
  const SavingWords: seq<string> := ["economizar", "reduzir", "gasto"]
  const GoalWords: seq<string> := ["meta", "objetivo"]
  const InvestingWords: seq<string> := ["investir", "aplicar", "rendimento"]
  const PlanningWords: seq<string> := ["orçamento", "planejamento"]
  const EmergencyWords: seq<string> := ["emergência", "reserva"]
  const GreetingWords: seq<string> := ["oi", "olá", "tchau", "obrigado"]

  /** The chain of `if`s in `generateFinancialAIResponse`. */
  function TopicOf(msg: string, hasData: bool): Topic
  {
    if hasData && ContainsAny(msg, SituationWords) then Situation
    else if hasData && ContainsAny(msg, SavingWords) then Saving
    else if hasData && ContainsAny(msg, GoalWords) then Goals
    else if hasData && ContainsAny(msg, InvestingWords) then Investing
    else if ContainsAny(msg, PlanningWords) then Planning
    else if ContainsAny(msg, EmergencyWords) then Emergency
    else if ContainsAny(msg, GreetingWords) then Greeting
    else Fallback
  }

  const DataGroups: seq<(Topic, seq<string>)> :=
    [(Situation, SituationWords), (Saving, SavingWords), (Goals, GoalWords), (Investing, InvestingWords)]

  const GeneralGroups: seq<(Topic, seq<string>)> :=
    [(Planning, PlanningWords), (Emergency, EmergencyWords), (Greeting, GreetingWords)]

  /** The keyword groups in the order they are tried. */
  function Groups(hasData: bool): seq<(Topic, seq<string>)>
  {
    if hasData then DataGroups + GeneralGroups else GeneralGroups
  }

  /**
   * The topic is that of the first group, in the order situation, saving,
   * goals, investing (only with data), planning, emergency, greeting, that
   * has a word in the message; with none it is the default. Without data
   * the four data topics never answer.
   */
  lemma TopicIsFirstGroup(msg: string, hasData: bool)
    ensures var gs := Groups(hasData);
            var k := FirstGroup(msg, gs);
            TopicOf(msg, hasData) == if k < |gs| then gs[k].0 else Fallback
    ensures !hasData ==> TopicOf(msg, hasData) in {Planning, Emergency, Greeting, Fallback}
  {
    if hasData {
      WithData(msg);
    } else {
      WithoutData(msg);
    }
  }

  lemma WithoutData(msg: string)
    ensures var k := FirstGroup(msg, GeneralGroups);
            TopicOf(msg, false) == if k < |GeneralGroups| then GeneralGroups[k].0 else Fallback
  {
    var p, e, g := (Planning, PlanningWords), (Emergency, EmergencyWords), (Greeting, GreetingWords);
    assert GeneralGroups == [p] + ([e] + ([g] + []));
    FirstGroupStep(msg, g, []);
    FirstGroupStep(msg, e, [g] + []);
    FirstGroupStep(msg, p, [e] + ([g] + []));
    var k := FirstGroup(msg, GeneralGroups);
    if ContainsAny(msg, PlanningWords) {
      assert k == 0;
    } else if ContainsAny(msg, EmergencyWords) {
      assert k == 1;
    } else if ContainsAny(msg, GreetingWords) {
      assert k == 2;
    } else {
      assert k == 3;
    }
  }

  lemma WithData(msg: string)
    ensures var gs := Groups(true);
            var k := FirstGroup(msg, gs);
            TopicOf(msg, true) == if k < |gs| then gs[k].0 else Fallback
  {
    FirstGroupAppend(msg, DataGroups, GeneralGroups);
    var k := FirstGroup(msg, DataGroups);
    if k < |DataGroups| {
      DataTopic(msg);
      assert (DataGroups + GeneralGroups)[k] == DataGroups[k];
    } else {
      DataTopic(msg);
      WithoutData(msg);
      var j := FirstGroup(msg, GeneralGroups);
      if j < |GeneralGroups| {
        assert (DataGroups + GeneralGroups)[4 + j] == GeneralGroups[j];
      }
    }
  }

  /** The data topics in the order they are tried. */
  lemma DataTopic(msg: string)
    ensures var k := FirstGroup(msg, DataGroups);
            (k < |DataGroups| ==> TopicOf(msg, true) == DataGroups[k].0) &&
            (k == |DataGroups| ==> TopicOf(msg, true) == TopicOf(msg, false))
  {
    var a, b, c, d := (Situation, SituationWords), (Saving, SavingWords), (Goals, GoalWords), (Investing, InvestingWords);
    assert DataGroups == [a] + ([b] + ([c] + ([d] + [])));
    FirstGroupStep(msg, d, []);
    FirstGroupStep(msg, c, [d] + []);
    FirstGroupStep(msg, b, [c] + ([d] + []));
    FirstGroupStep(msg, a, [b] + ([c] + ([d] + [])));
    var k := FirstGroup(msg, DataGroups);
    if ContainsAny(msg, SituationWords) {
      assert k == 0;
    } else if ContainsAny(msg, SavingWords) {
      assert k == 1;
    } else if ContainsAny(msg, GoalWords) {
      assert k == 2;
    } else if ContainsAny(msg, InvestingWords) {
      assert k == 3;
    } else {
      assert k == 4;
    }
  }


  // ---- the four data-driven answers ----

  /** `Math.max(x, 1)`. */
  function AtLeastOne(x: real): (r: real)
    ensures r >= 1.0 && r >= x
    ensures r == x || r == 1.0
  {
    if x > 1.0 then x else 1.0
  }

  /** The figures of the situation answer. */
  datatype Figures = Figures(receitas: real, despesas: real, economia: real, taxa: real)

  function FiguresOf(ts: seq<Transaction>): Figures
  {
    var receitas := Sum(Filter(ts, IsIncome), Amount);
    var despesas := Sum(Filter(ts, IsExpense), Amount);
    var economia := receitas - despesas;
    Figures(receitas, despesas, economia, economia / AtLeastOne(receitas) * 100.0)
  }

  /**
   * The situation answer shows the income total, the expense total and
   * their difference; the savings rate is that difference as a percentage of
   * the income, or of 1 when the income is below 1, so it is positive exactly
   * when the difference is.
   */
  lemma FiguresSpec(ts: seq<Transaction>)
    ensures var f := FiguresOf(ts);
            f.receitas == IncomeTotal(ts) && f.despesas == ExpenseTotal(ts) && f.economia == Net(ts) &&
            (f.receitas >= 1.0 ==> f.taxa * f.receitas == f.economia * 100.0) &&
            (f.receitas < 1.0 ==> f.taxa == f.economia * 100.0) &&
            (f.taxa > 0.0 <==> f.economia > 0.0)
  {
    FilterIncomeTotal(ts);
    FilterExpenseTotal(ts);
    NetIsIncomeMinusExpense(ts);
    var f := FiguresOf(ts);
    var d := AtLeastOne(f.receitas);
    assert f.economia / d * d == f.economia;
    RatePositive(f.economia, d);
  }

  /** Dividing by a positive number keeps the sign. */
  lemma RatePositive(e: real, d: real)
    requires d > 0.0
    ensures e / d * 100.0 > 0.0 <==> e > 0.0
  {
    if e > 0.0 {
      assert e / d > 0.0;
    } else {
      assert e / d * d == e;
      assert e / d <= 0.0;
    }
  }

  const SituationTitle: string := "📊 **Análise da sua situação financeira:**\n\n💰 **Saldo atual:** R$ "
  const IncomeLabel: string := "\n📈 **Total de receitas:** R$ "
  const ExpenseLabel: string := "\n📉 **Total de despesas:** R$ "
  const RateLabel: string := "\n💡 **Taxa de economia:** "
  const SavingVerdict: string := "✅ Parabéns! Você está economizando."
  const Overspending: string := "⚠️ Atenção: suas despesas estão altas."
  const ActiveGoalsLabel: string := "🎯 **Metas ativas:** "
  const GoalsCreated: string := " metas criadas\n\n**Sugestão:** "
  const KeepGoing: string := "Continue assim e considere investir o excedente!"
  const ReviewCategories: string := "Revise suas categorias de gastos e identifique onde pode economizar."

  /** The situation answer's text. */
  function SituationText(saldo: real, f: Figures, metas: nat): string
  {
    SituationTitle + NumFmt.Fixed2(saldo) + IncomeLabel + NumFmt.Fixed2(f.receitas) +
    ExpenseLabel + NumFmt.Fixed2(f.despesas) + RateLabel + NumFmt.Fixed1(f.taxa) + "%\n\n" +
    (if f.economia > 0.0 then SavingVerdict else Overspending) + "\n\n" +
    ActiveGoalsLabel + NatStr(metas) + GoalsCreated +
    (if f.economia > 0.0 then KeepGoing else ReviewCategories)
  }

  /** The situation text ends by suggesting investing the surplus exactly when there is one. */
  lemma SituationAdvice(saldo: real, f: Figures, metas: nat)
    ensures var r := SituationText(saldo, f, metas);
            (f.economia > 0.0 ==> |KeepGoing| <= |r| && r[|r| - |KeepGoing|..] == KeepGoing) &&
            (f.economia <= 0.0 ==> |ReviewCategories| <= |r| && r[|r| - |ReviewCategories|..] == ReviewCategories)
  {
    var tail := if f.economia > 0.0 then KeepGoing else ReviewCategories;
    var head := SituationTitle + NumFmt.Fixed2(saldo) + IncomeLabel + NumFmt.Fixed2(f.receitas) +
      ExpenseLabel + NumFmt.Fixed2(f.despesas) + RateLabel + NumFmt.Fixed1(f.taxa) + "%\n\n" +
      (if f.economia > 0.0 then SavingVerdict else Overspending) + "\n\n" +
      ActiveGoalsLabel + NatStr(metas) + GoalsCreated;
    assert SituationText(saldo, f, metas) == head + tail;
    assert (head + tail)[|head|..] == tail;
  }

  /** `topCategorias`: the three largest expense totals per category, largest first. */
  function TopCategories(ts: seq<Transaction>): seq<(string, real)>
  {
    TopByValue(ExpenseByCategory(ts), 3)
  }

  /** `${i + 1}. ${cat}: R$ ${val.toFixed(2)}`. */
  function RankLine(top: seq<(string, real)>, i: nat): string
    requires i < |top|
  {
    NatStr(i + 1) + ". " + top[i].0 + ": R$ " + NumFmt.Fixed2(top[i].1)
  }

  function Ranking(top: seq<(string, real)>): string
  {
    Join(seq(|top|, i requires 0 <= i < |top| => RankLine(top, i)), "\n")
  }

  /** `topCategorias[i]?.[0]` in a template: the name, or "undefined" past the end. */
  function NameAt(top: seq<(string, real)>, i: nat): string
  {
    if i < |top| then top[i].0 else "undefined"
  }

  const SavingTitle: string := "💡 **Dicas para economizar baseadas nos seus dados:**\n\n🔍 **Suas maiores categorias de gasto:**\n"
  const AdviceTitle: string := "\n\n📋 **Sugestões personalizadas:**\n• Analise a categoria \""
  const LimitAdvice: string := "\" - é onde você mais gasta\n• Defina um limite mensal para \""
  const CheaperAdvice: string := "\"\n• Considere alternativas mais baratas para \""
  const SavingGoal: string := "\"\n\n🎯 **Meta sugerida:** Reduzir 10-15% dos gastos na categoria principal"

  /** The saving answer's text. */
  function SavingText(top: seq<(string, real)>): string
  {
    SavingTitle + Ranking(top) + AdviceTitle + NameAt(top, 0) + LimitAdvice + NameAt(top, 1) +
    CheaperAdvice + NameAt(top, 2) + SavingGoal
  }

  /**
   * The ranking lists at most three categories, largest first, each with its
   * expense total; no category left out spends more than the last one
   * listed. With fewer than three categories the advice names "undefined"
   * in place of the missing ones.
   */
  lemma TopCategoriesSpec(ts: seq<Transaction>)
    ensures |TopCategories(ts)| <= 3 && |TopCategories(ts)| <= |Keys(Filter(ts, IsExpense), Category)|
    ensures SortedBy(TopCategories(ts), ByValueDesc)
    ensures forall e :: e in TopCategories(ts) ==> e in ExpenseByCategory(ts)
    ensures var top := TopCategories(ts);
            forall e :: e in ExpenseByCategory(ts) ==> e in top || e.1 <= top[|top| - 1].1
    ensures forall i :: |TopCategories(ts)| <= i < 3 ==> NameAt(TopCategories(ts), i) == "undefined"
    ensures TopCategories(ts) == [] <==> forall t :: t in ts ==> t.kind != Expense
  {
    var es := ExpenseByCategory(ts);
    var top := TopCategories(ts);
    assert top == TopByValue(es, 3);
    assert |es| == |Keys(Filter(ts, IsExpense), Category)|;
    TopByValueSpec(es, 3);
    forall e | e in es ensures e in top || e.1 <= top[|top| - 1].1 {
    }
    ExpenseByCategoryEmpty(ts);
  }

  /** An entry of the expense map is a category with the total of its expenses. */
  lemma ExpenseEntry(ts: seq<Transaction>, e: (string, real))
    requires e in ExpenseByCategory(ts)
    ensures e.1 == KeySum(Filter(ts, IsExpense), Category, Amount, e.0)
  {
  }

  /** `metasAtingidas`, the success rate and the goals still to reach. */
  datatype GoalFigures = GoalFigures(atingidas: nat, total: nat, taxa: int)

  function GoalFiguresOf(d: TransactionData): GoalFigures
  {
    var atingidas := ReachedCount(d.metas, d.transactions);
    var total := |d.metas|;
    GoalFigures(atingidas, total, Round(atingidas as real / AtLeastOne(total as real) * 100.0))
  }

  /**
   * The goals answer counts the goals whose signed linked sum reaches the
   * target; the rate is between 0 and 100, 100 when every goal of a
   * non-empty list is reached and 0 for no goals; a list with one goal in
   * two hundred still missing also rounds to 100.
   */
  lemma GoalFiguresSpec(d: TransactionData)
    ensures var g := GoalFiguresOf(d);
            g.atingidas == ReachedCount(d.metas, d.transactions) &&
            g.atingidas <= g.total == |d.metas| &&
            0 <= g.taxa <= 100 &&
            (g.atingidas == g.total && g.total > 0 ==> g.taxa == 100) &&
            (g.total == 0 ==> g.taxa == 0) &&
            (g.total > 0 && g.total >= 200 * (g.total - g.atingidas) ==> g.taxa == 100)
  {
    var g := GoalFiguresOf(d);
    var q := g.atingidas as real / AtLeastOne(g.total as real);
    if g.total > 0 {
      assert AtLeastOne(g.total as real) == g.total as real;
      RateBounds(g.atingidas, g.total);
    }
  }

  /** A share `a / n` of at most 1 rounds to a rate from 0 to 100, to 100 from 99.5% on. */
  lemma RateBounds(a: nat, n: nat)
    requires 0 < n && a <= n
    ensures 0 <= Round(a as real / n as real * 100.0) <= 100
    ensures n >= 200 * (n - a) ==> Round(a as real / n as real * 100.0) == 100
  {
    var q := a as real / n as real;
    ExportManager.DivMul(a as real, n as real);
    ExportManager.ScaleCompare(q, n as real, 1.0);
    ExportManager.ScaleCompare(q, n as real, 0.0);
    assert 0.0 <= q * 100.0 <= 100.0;
    if n >= 200 * (n - a) {
      assert a as real >= 0.995 * n as real;
      ExportManager.ScaleCompare(q, n as real, 0.995);
      assert q * 100.0 >= 99.5;
    }
  }

  const GoalsTitle: string := "🎯 **Análise das suas metas:**\n\n📊 **Status atual:** "
  const GoalsReached: string := " metas atingidas\n📈 **Taxa de sucesso:** "
  const AllReached: string := "🎉 **Parabéns!** Você atingiu todas as suas metas!"
  const KeepFirm: string := "💪 **Continue firme!** Você está a "
  const GoalsLeft: string := " meta(s) do seu objetivo."
  const TipLabel: string := "\n\n💡 **Dica:** "
  const InvestGoal: string := "Com seu saldo positivo, considere criar uma meta de investimento!"
  const BalanceFirst: string := "Foque primeiro em equilibrar suas finanças antes de criar novas metas."

  /** The goals answer's text. */
  function GoalsText(g: GoalFigures, saldo: real): string
  {
    GoalsTitle + NatStr(g.atingidas) + "/" + NatStr(g.total) + GoalsReached + IntStr(g.taxa) + "%\n\n" +
    (if g.atingidas == g.total then AllReached else KeepFirm + IntStr(g.total as int - g.atingidas as int) + GoalsLeft) +
    TipLabel + (if saldo > 0.0 then InvestGoal else BalanceFirst)
  }

  /** `mediaEconomia`: the balance per month, taking one month per 30 transactions and at least one. */
  function MonthlySaving(d: TransactionData): real
  {
    d.saldo / AtLeastOne(|d.transactions| as real / 30.0)
  }

  /** Up to 30 transactions the monthly estimate is the balance; beyond, the balance over a month per 30 transactions. */
  lemma MonthlySavingSpec(d: TransactionData)
    ensures |d.transactions| <= 30 ==> MonthlySaving(d) == d.saldo
    ensures |d.transactions| > 30 ==> MonthlySaving(d) * (|d.transactions| as real / 30.0) == d.saldo
    ensures MonthlySaving(d) > 0.0 <==> d.saldo > 0.0
  {
    var m := AtLeastOne(|d.transactions| as real / 30.0);
    ExportManager.DivMul(d.saldo, m);
    ExportManager.ScaleCompare(MonthlySaving(d), m, 0.0);
  }

  const InvestTitle: string := "💰 **Análise de investimentos baseada no seu perfil:**\n\n📊 **Sua capacidade de investimento:**\n• Saldo disponível: R$ "
  const MonthlyLabel: string := "\n• Economia mensal estimada: R$ "
  const StrategyTitle: string := "\n\n🎯 **Sugestões de estratégia:**\n"
  const Diversify: string := "• Considere investir 70% em renda fixa e 30% em renda variável\n• Reserve uma parte para emergências (3-6 meses de gastos)"
  const ReserveFirst: string := "• Foque primeiro em criar uma reserva de emergência\n• Comece com investimentos de baixo risco"
  const NextSteps: string := "\n\n📈 **Próximos passos:**\n1. Defina uma meta de investimento mensal\n2. Estude sobre Tesouro Direto e CDBs\n3. Considere aportes automáticos"

  /** The strategy of the investing answer: diversify above a balance of 1000, build a reserve otherwise. */
  function Strategy(saldo: real): string
  {
    if saldo > 1000.0 then Diversify else ReserveFirst
  }

  /** The investing answer's text. */
  function InvestingText(saldo: real, monthly: real): string
  {
    InvestTitle + NumFmt.Fixed2(saldo) + MonthlyLabel + NumFmt.Fixed2(monthly) +
    StrategyTitle + Strategy(saldo) + NextSteps
  }

  // ---- the general answers ----

  const PlanningReply: string := "📋 **Dicas de planejamento financeiro:**\n\n🏗️ **Regra 50-30-20:**\n• 50% para necessidades (moradia, alimentação)\n• 30% para desejos (lazer, compras)\n• 20% para poupança e investimentos\n\n📊 **Como organizar:**\n1. Liste todas as receitas e despesas\n2. Categorize os gastos por prioridade\n3. Defina metas realistas para cada categoria\n4. Monitore mensalmente e ajuste quando necessário"
  const EmergencyReply: string := "🆘 **Reserva de emergência:**\n\n💡 **O que é:** Valor guardado para imprevistos\n📊 **Quanto guardar:** 3 a 6 meses de gastos essenciais\n\n🎯 **Como começar:**\n1. Calcule seus gastos mensais básicos\n2. Defina uma meta (ex: R$ 5.000)\n3. Poupe um valor fixo todo mês\n4. Mantenha em investimento de alta liquidez\n\n✅ **Onde investir:** Poupança, CDB liquidez diária, ou Tesouro Selic"
  const Cumprimento: string := "Olá! 👋 Sou seu assistente financeiro inteligente. Posso te ajudar com análises, dicas de economia, planejamento e muito mais. Como posso te ajudar hoje?"
  const DefaultReply: string := "🤖 Sou seu assistente financeiro! Posso te ajudar com:\n\n📊 Análise da sua situação atual\n💡 Dicas de economia personalizadas\n🎯 Estratégias para atingir metas\n💰 Sugestões de investimento\n📋 Planejamento financeiro\n\nO que você gostaria de saber?"

  /**
   * The answer `generateFinancialAIResponse` settles on: its topic and the
   * figures its text shows. `Render` gives the text.
   */
  datatype Answer =
    | SituationAnswer(saldo: real, figures: Figures, metas: nat)
    | SavingAnswer(top: seq<(string, real)>)
    | GoalsAnswer(goals: GoalFigures, balance: real)
    | InvestingAnswer(available: real, monthly: real)
    | PlanningAnswer
    | EmergencyAnswer
    | GreetingAnswer
    | DefaultAnswer

  function AnswerOf(ms: seq<ChatMessage>, data: Option<TransactionData>): Answer
  {
    match TopicOf(LastMessage(ms), data.Some?)
    case Situation => SituationAnswer(data.value.saldo, FiguresOf(data.value.transactions), |data.value.metas|)
    case Saving => SavingAnswer(TopCategories(data.value.transactions))
    case Goals => GoalsAnswer(GoalFiguresOf(data.value), data.value.saldo)
    case Investing => InvestingAnswer(data.value.saldo, MonthlySaving(data.value))
    case Planning => PlanningAnswer
    case Emergency => EmergencyAnswer
    case Greeting => GreetingAnswer
    case Fallback => DefaultAnswer
  }

  /** The text of an answer. */
  function Render(a: Answer): string
  {
    match a
    case SituationAnswer(saldo, f, metas) => SituationText(saldo, f, metas)
    case SavingAnswer(top) => SavingText(top)
    case GoalsAnswer(g, saldo) => GoalsText(g, saldo)
    case InvestingAnswer(saldo, monthly) => InvestingText(saldo, monthly)
    case PlanningAnswer => PlanningReply
    case EmergencyAnswer => EmergencyReply
    case GreetingAnswer => Cumprimento
    case DefaultAnswer => DefaultReply
  }

  /** `generateFinancialAIResponse`. */
  function GenerateFinancialAIResponse(ms: seq<ChatMessage>, data: Option<TransactionData>): string
  {
    Render(AnswerOf(ms, data))
  }

  /**
   * The figures an answer shows come from the request's data: the situation
   * shows the income and expense totals and the net, the saving answer the
   * largest expense categories, the goals answer the count of goals whose
   * signed sum reaches the target, the investing answer the balance spread
   * over the months. Without data only the general answers are given.
   */
  lemma AnswerSpec(ms: seq<ChatMessage>, data: Option<TransactionData>)
    ensures data.None? ==> AnswerOf(ms, data) in {PlanningAnswer, EmergencyAnswer, GreetingAnswer, DefaultAnswer}
    ensures var a := AnswerOf(ms, data);
            (a.SituationAnswer? ==>
               data.Some? && a.saldo == data.value.saldo && a.metas == |data.value.metas| &&
               a.figures.receitas == IncomeTotal(data.value.transactions) &&
               a.figures.despesas == ExpenseTotal(data.value.transactions) &&
               a.figures.economia == Net(data.value.transactions)) &&
            (a.SavingAnswer? ==> data.Some? && |a.top| <= 3 && forall e :: e in a.top ==> e in ExpenseByCategory(data.value.transactions)) &&
            (a.GoalsAnswer? ==> data.Some? && a.goals.atingidas <= a.goals.total == |data.value.metas| && 0 <= a.goals.taxa <= 100) &&
            (a.InvestingAnswer? ==>
               data.Some? && a.available == data.value.saldo && (a.monthly > 0.0 <==> data.value.saldo > 0.0))
  {
    TopicIsFirstGroup(LastMessage(ms), data.Some?);
    if data.Some? {
      var d := data.value;
      match TopicOf(LastMessage(ms), true)
      case Situation => FiguresSpec(d.transactions);
      case Saving => TopCategoriesSpec(d.transactions);
      case Goals => GoalFiguresSpec(d);
      case Investing => MonthlySavingSpec(d);
      case _ =>
    }
  }

  // ---- the endpoint ----

  /** The `messages` field of a request body, or a body that is not JSON at all. */
  datatype MessagesField = Unreadable | Absent | NotAnArray | Messages(ms: seq<ChatMessage>)

  /** The reply: an error with its status, or the assistant's message whose content is `Render(answer)`. */
  datatype ChatResponse = Failed(status: nat, error: string) | Answered(role: string, answer: Answer)

  const MissingMessages: string := "Mensagens são obrigatórias"
  const ServerError: string := "Erro interno do servidor"

  /** `POST`: an unreadable body is a 500, missing messages a 400, otherwise the assistant answers. */
  function Post(messages: MessagesField, data: Option<TransactionData>): (r: ChatResponse)
    ensures r.Failed? <==> !messages.Messages?
    ensures r.Failed? ==> (r.status == 500 <==> messages.Unreadable?) && (r.status == 400 <==> !messages.Unreadable?)
    ensures r.Answered? ==> r.role == "assistant" && r.answer == AnswerOf(messages.ms, data)
  {
    if messages.Unreadable? then Failed(500, ServerError)
    else if !messages.Messages? then Failed(400, MissingMessages)
    else Answered("assistant", AnswerOf(messages.ms, data))
  }
}
