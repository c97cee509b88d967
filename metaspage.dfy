/**
 * The goals page: each goal's card (the amount collected by adding every
 * linked transaction whatever its kind, the progress percentage, whether the
 * goal is reached, what is missing and how many transactions are linked),
 * the four summary counts, and the create / edit form.
 */
module MetasPage {
  import opened Seqs
  import opened Ledger
  import NumFmt
  import MetasProgress
  import ExportManager

  /** `calcularProgresso`'s `valorAcumulado`: the amounts of the linked transactions added up, income and expense alike. */
  function Collected(ts: seq<Transaction>, m: Meta): real
  {
    Sum(Linked(ts, m.id), Amount)
  }

  /** `calcularProgresso`'s `percentual`: `Math.min(100, Math.round(valorAcumulado / meta.valor * 100))`. */
  function Percentual(ts: seq<Transaction>, m: Meta): NumFmt.JsNumber
  {
    MetasProgress.Progress(Collected(ts, m), m.valor)
  }

  /** `valorAcumulado >= meta.valor`. */
  predicate Atingida(ts: seq<Transaction>, m: Meta)
  {
    Collected(ts, m) >= m.valor
  }

  /** One goal card. */
  datatype Card = Card(
    nome: string,
    valorAcumulado: real,
    valor: real,
    percentual: NumFmt.JsNumber,
    atingida: bool,
    faltam: real,
    transacoes: nat)

  function CardOf(ts: seq<Transaction>, m: Meta): Card
  {
    Card(m.nome, Collected(ts, m), m.valor, Percentual(ts, m), Atingida(ts, m),
         Remaining(m.valor, Collected(ts, m)), |Linked(ts, m.id)|)
  }

  /**
   * The card adds the linked income and the linked expense, so it exceeds
   * the signed sum the charts show by twice the linked expense. The goal is
   * reached exactly when nothing is missing; otherwise what is missing
   * completes the target. The transaction count is the number of linked
   * transactions, and a reached goal with a positive target shows 100%.
   */
  lemma CardSpec(ts: seq<Transaction>, m: Meta)
    ensures var c := CardOf(ts, m);
            c.valorAcumulado == IncomeTotal(Linked(ts, m.id)) + ExpenseTotal(Linked(ts, m.id)) &&
            c.valorAcumulado == Accumulated(ts, m) + 2.0 * ExpenseTotal(Linked(ts, m.id)) &&
            (c.atingida <==> c.faltam == 0.0) &&
            (c.faltam > 0.0 ==> c.valorAcumulado + c.faltam == m.valor) &&
            c.transacoes == Count(ts, LinksTo(m.id)) &&
            (c.atingida && m.valor > 0.0 ==> c.percentual == NumFmt.Finite(100.0))
  {
    var linked := Linked(ts, m.id);
    AmountsAddUp(linked);
    AccumulatedIsNet(ts, m);
    CountFilter(ts, LinksTo(m.id));
    if Atingida(ts, m) && m.valor > 0.0 {
      ExportManager.PercentAtLeast(Collected(ts, m), m.valor, 1.0);
    }
  }

  /** Only income linked: the card's amount is the signed sum the charts use. */
  lemma IncomeOnlyAgrees(ts: seq<Transaction>, m: Meta)
    requires forall t :: t in ts && t.metaId == Some(m.id) ==> t.kind == Income
    ensures Collected(ts, m) == Accumulated(ts, m)
  {
    var linked := Linked(ts, m.id);
    FilterSpec(ts, LinksTo(m.id));
    AmountsAddUp(linked);
    AccumulatedIsNet(ts, m);
    ExpenseFree(linked);
  }

  /** A list without expenses has no expense total. */
  lemma {:induction false} ExpenseFree(ts: seq<Transaction>)
    requires forall t :: t in ts ==> t.kind == Income
    ensures ExpenseTotal(ts) == 0.0
    decreases |ts|
  {
    if ts != [] {
      ExpenseFree(ts[..|ts| - 1]);
    }
  }

  // ---- the summary counts ----

  /** `percentual >= 100`. */
  function Reached(ts: seq<Transaction>): Meta -> bool
  {
    (m: Meta) => NumFmt.AtLeast(Percentual(ts, m), 100.0)
  }

  /** `p > 0 && p < 100`. */
  function InProgress(ts: seq<Transaction>): Meta -> bool
  {
    (m: Meta) => NumFmt.Above(Percentual(ts, m), 0.0) && NumFmt.Below(Percentual(ts, m), 100.0)
  }

  /** `percentual === 0`. */
  function AtStart(ts: seq<Transaction>): Meta -> bool
  {
    (m: Meta) => Percentual(ts, m) == NumFmt.Finite(0.0)
  }

  /** The summary: the number of goals, then "Atingidas", "Progresso" and "Início". */
  datatype Stats = Stats(total: nat, atingidas: nat, emProgresso: nat, inicio: nat)

  function StatsOf(metas: seq<Meta>, ts: seq<Transaction>): Stats
  {
    Stats(|metas|, Count(metas, Reached(ts)), Count(metas, InProgress(ts)), Count(metas, AtStart(ts)))
  }

  /**
   * For a positive target, "Atingidas" counts a goal exactly when it has
   * collected at least 99.5% of it, since the percentage is rounded first:
   * every reached card is counted, and so is a card that still misses less
   * than half a percent.
   */
  lemma ReachedStat(ts: seq<Transaction>, m: Meta)
    requires m.valor > 0.0
    ensures Reached(ts)(m) <==> Collected(ts, m) >= 0.995 * m.valor
    ensures Atingida(ts, m) ==> Reached(ts)(m)
  {
    ExportManager.PercentAtLeast(Collected(ts, m), m.valor, 0.995);
  }

  /**
   * Between 99.5% and the target, a goal with a positive target is counted
   * under "Atingidas" and shows 100% while its card is not reached and still
   * misses something.
   */
  lemma CountedBeforeReached(ts: seq<Transaction>, m: Meta)
    requires m.valor > 0.0
    requires 0.995 * m.valor <= Collected(ts, m) < m.valor
    ensures Reached(ts)(m) && !CardOf(ts, m).atingida
    ensures CardOf(ts, m).percentual == NumFmt.Finite(100.0)
    ensures CardOf(ts, m).faltam == m.valor - Collected(ts, m) > 0.0
  {
    ReachedStat(ts, m);
  }

  /** One transaction of 995 for a goal of 1000 is such a goal. */
  lemma CountedBeforeReachedExample()
    ensures var m := Meta("g", "Viagem", 1000.0);
            var t := Transaction(1, Income, "Poupança", 995.0, "", Calendar.Date(2025, 1, 1), Some("g"), None, "");
            Reached([t])(m) && !CardOf([t], m).atingida && CardOf([t], m).faltam == 5.0
  {
    var m := Meta("g", "Viagem", 1000.0);
    var t := Transaction(1, Income, "Poupança", 995.0, "", Calendar.Date(2025, 1, 1), Some("g"), None, "");
    CollectedSingle(t, m);
    CountedBeforeReached([t], m);
  }

  /** A single linked transaction collects its amount. */
  lemma CollectedSingle(t: Transaction, m: Meta)
    requires t.metaId == Some(m.id)
    ensures Collected([t], m) == t.amount
  {
    assert [t][..0] == [];
    assert Linked([t], m.id) == [t];
    assert Sum([t], Amount) == Sum([t][..0], Amount) + Amount(t);
  }

  /** Non-negative amounts collect a non-negative sum. */
  lemma CollectedNonNeg(ts: seq<Transaction>, m: Meta)
    requires forall t :: t in ts ==> t.amount >= 0.0
    ensures Collected(ts, m) >= 0.0
  {
    var linked := Linked(ts, m.id);
    FilterSpec(ts, LinksTo(m.id));
    assert forall i :: 0 <= i < |linked| ==> Amount(linked[i]) >= 0.0 by {
      forall i | 0 <= i < |linked| ensures Amount(linked[i]) >= 0.0 {
        assert linked[i] in linked;
      }
    }
    SumNonNeg(linked, Amount);
  }

  /** A positive target and a non-negative sum give a whole percentage from 0 to 100. */
  lemma ProgressBetween(c: real, valor: real)
    requires valor > 0.0 && c >= 0.0
    ensures var p := MetasProgress.Progress(c, valor);
            p.Finite? && NumFmt.IsWhole(p.value) && 0.0 <= p.value <= 100.0
  {
    ExportManager.PercentAtLeast(c, valor, 0.0);
    MetasProgress.ProgressSpec(c, valor);
  }

  /** A positive target and non-negative linked amounts: the goal is in exactly one count. */
  lemma OneStat(ts: seq<Transaction>, m: Meta)
    requires m.valor > 0.0
    requires forall t :: t in ts ==> t.amount >= 0.0
    ensures (if Reached(ts)(m) then 1 else 0) + (if InProgress(ts)(m) then 1 else 0) +
            (if AtStart(ts)(m) then 1 else 0) == 1
  {
    CollectedNonNeg(ts, m);
    ProgressBetween(Collected(ts, m), m.valor);
  }

  /**
   * With positive targets and non-negative amounts, every goal is in exactly
   * one of "Atingidas", "Progresso" and "Início".
   */
  lemma {:induction false} CountsPartition(metas: seq<Meta>, ts: seq<Transaction>)
    requires forall m :: m in metas ==> m.valor > 0.0
    requires forall t :: t in ts ==> t.amount >= 0.0
    ensures var s := StatsOf(metas, ts); s.atingidas + s.emProgresso + s.inicio == s.total
    decreases |metas|
  {
    if metas != [] {
      var init := metas[..|metas| - 1];
      assert forall m :: m in init ==> m in metas;
      CountsPartition(init, ts);
      OneStat(ts, metas[|metas| - 1]);
    }
  }

  /**
   * A zero target: with nothing collected the percentage is NaN and the goal
   * is in no count, with something collected it is reached, and with a
   * negative sum it is -Infinity and again in no count.
   */
  lemma ZeroTarget(ts: seq<Transaction>, m: Meta)
    requires m.valor == 0.0
    ensures Collected(ts, m) == 0.0 ==>
              Percentual(ts, m).NaN? && !Reached(ts)(m) && !InProgress(ts)(m) && !AtStart(ts)(m)
    ensures Collected(ts, m) > 0.0 ==> Reached(ts)(m) && Atingida(ts, m)
    ensures Collected(ts, m) < 0.0 ==>
              Percentual(ts, m).NegInfinity? && !Reached(ts)(m) && !InProgress(ts)(m) && !AtStart(ts)(m)
  {
    MetasProgress.ProgressSpec(Collected(ts, m), m.valor);
  }

  /** A single goal with a zero target and no transactions: one goal, and every count is 0. */
  lemma ZeroTargetUncounted(m: Meta)
    requires m.valor == 0.0
    ensures StatsOf([m], []) == Stats(1, 0, 0, 0)
  {
    assert Linked([], m.id) == [];
    ZeroTarget([], m);
    assert [m][..0] == [];
  }

  // ---- the form ----

  datatype HttpMethod = Post | Put

  /** What the form sends: the method, the address and the body. */
  datatype Request = Request(httpMethod: HttpMethod, url: string, nome: string, valor: real)

  const Collection: string := "/api/metas"
  const Missing: string := "Preencha todos os campos"
  const Updated: string := "Meta atualizada com sucesso!"
  const Created: string := "Meta criada com sucesso!"
  const SaveFailed: string := "Erro ao salvar meta"

  /** `editingId` is truthy: a goal is being edited. */
  predicate Editing(editingId: Option<string>)
  {
    editingId.Some? && editingId.value != ""
  }

  /** `!formData.nome || !formData.valor` fails: both fields are filled. */
  predicate Filled(nome: string, valor: Option<real>)
  {
    nome != "" && valor.Some?
  }

  /** The request `handleSubmit` sends. */
  function RequestOf(editingId: Option<string>, nome: string, valor: real): Request
  {
    if Editing(editingId) then Request(Put, Collection + "/" + editingId.value, nome, valor)
    else Request(Post, Collection, nome, valor)
  }

  function SuccessMessage(editingId: Option<string>): string
  {
    if Editing(editingId) then Updated else Created
  }

  /**
   * Editing a goal updates it with PUT at its own address, the collection
   * address followed by its id; otherwise a new goal is created with POST at
   * the collection. The body carries the fields as typed.
   */
  lemma RequestSpec(editingId: Option<string>, nome: string, valor: real)
    ensures var r := RequestOf(editingId, nome, valor);
            r.nome == nome && r.valor == valor &&
            (r.httpMethod == Put <==> Editing(editingId)) &&
            (r.httpMethod == Put ==> Collection + "/" <= r.url && r.url[|Collection| + 1..] == editingId.value) &&
            (r.httpMethod == Post ==> r.url == Collection)
  {
    if Editing(editingId) {
      var r := RequestOf(editingId, nome, valor);
      assert r.url == (Collection + "/") + editingId.value;
    }
  }

  /**
   * The form: its two fields (the number field is `None` when empty), the
   * goal being edited, and the toasts shown, the requests sent and the
   * reloads asked for so far.
   */
  class MetaForm {
    var nome: string
    var valor: Option<real>
    var editingId: Option<string>
    var toasts: seq<Toast>
    var sent: seq<Request>
    var reloads: nat

    constructor ()
      ensures nome == "" && valor.None? && editingId.None?
      ensures toasts == [] && sent == [] && reloads == 0
    {
      nome := "";
      valor := None;
      editingId := None;
      toasts := [];
      sent := [];
      reloads := 0;
    }

    /**
     * `handleSubmit`, with the server's answer as `ok`. An empty field only
     * shows an error. Otherwise the request is sent; on success the toast
     * says whether the goal was updated or created, the form is cleared, the
     * editing ends and the page reloads; on failure an error is shown and the
     * form is kept.
     */
    method HandleSubmit(ok: bool)
      modifies this
      ensures !Filled(old(nome), old(valor)) ==>
                toasts == old(toasts) + [Toast(Missing, false)] && sent == old(sent) &&
                nome == old(nome) && valor == old(valor) && editingId == old(editingId) && reloads == old(reloads)
      ensures Filled(old(nome), old(valor)) ==>
                sent == old(sent) + [RequestOf(old(editingId), old(nome), old(valor).value)]
      ensures Filled(old(nome), old(valor)) && ok ==>
                toasts == old(toasts) + [Toast(SuccessMessage(old(editingId)), true)] &&
                nome == "" && valor.None? && editingId.None? && reloads == old(reloads) + 1
      ensures Filled(old(nome), old(valor)) && !ok ==>
                toasts == old(toasts) + [Toast(SaveFailed, false)] &&
                nome == old(nome) && valor == old(valor) && editingId == old(editingId) && reloads == old(reloads)
    {
      if nome == "" || valor.None? {
        toasts := toasts + [Toast(Missing, false)];
        return;
      }
      var request := RequestOf(editingId, nome, valor.value);
      sent := sent + [request];
      if ok {
        toasts := toasts + [Toast(SuccessMessage(editingId), true)];
        nome := "";
        valor := None;
        editingId := None;
        reloads := reloads + 1;
      } else {
        toasts := toasts + [Toast(SaveFailed, false)];
      }
    }

    /** `handleEdit`: the goal's name and target fill the form and it becomes the goal being edited. */
    method HandleEdit(m: Meta)
      modifies this
      ensures nome == m.nome && valor == Some(m.valor) && editingId == Some(m.id)
      ensures toasts == old(toasts) && sent == old(sent) && reloads == old(reloads)
    {
      nome := m.nome;
      valor := Some(m.valor);
      editingId := Some(m.id);
    }

    /** `handleCancelEdit`: the form is cleared and nothing is being edited. */
    method HandleCancelEdit()
      modifies this
      ensures nome == "" && valor.None? && editingId.None?
      ensures toasts == old(toasts) && sent == old(sent) && reloads == old(reloads)
    {
      nome := "";
      valor := None;
      editingId := None;
    }
  }
}
