/**
 * The transaction form with installments: the required-field check, the
 * number of installments read from its field, and, for more than one, one
 * request per installment with the amount split evenly, a numbered
 * description and the date moved one month further each time.
 */
module TxForm {
  import opened Seqs
  import opened Strs
  import opened Ledger
  import Calendar
  import NumFmt

  /**
   * The form's fields. An empty select is `None`; the number input is held
   * as the number it contains (`None` when empty) and the date input as the
   * day it names (`None` when empty).
   */
  datatype Form = Form(
    kind: Option<Kind>,
    category: string,
    amount: Option<real>,
    description: string,
    date: Option<Day>,
    metaId: string,
    installments: string)

  /** The fields after a reset: everything empty, today's date, one installment. */
  function Defaults(today: Day): Form
  {
    Form(None, "", None, "", Some(today), "", "1")
  }

  /** `type`, `category`, `amount` and `date` are all filled in. */
  predicate Complete(f: Form)
  {
    f.kind.Some? && f.category != "" && f.amount.Some? && f.date.Some?
  }

  /** One call of `handleInputChange`: the field it names, with its new value. */
  datatype Edit =
    | SetKind(newKind: Option<Kind>)
    | SetCategory(newCategory: string)
    | SetAmount(newAmount: Option<real>)
    | SetDescription(newDescription: string)
    | SetDate(newDate: Option<Day>)
    | SetMetaId(newMetaId: string)
    | SetInstallments(newInstallments: string)

  /** Whether two edits name the same field. */
  predicate SameField(e: Edit, e': Edit)
  {
    match e
    case SetKind(_) => e'.SetKind?
    case SetCategory(_) => e'.SetCategory?
    case SetAmount(_) => e'.SetAmount?
    case SetDescription(_) => e'.SetDescription?
    case SetDate(_) => e'.SetDate?
    case SetMetaId(_) => e'.SetMetaId?
    case SetInstallments(_) => e'.SetInstallments?
  }

  /** `{ ...prev, [field]: value }`: the named field takes the value, every other field is kept. */
  function Apply(f: Form, e: Edit): (g: Form)
    ensures g.kind == (if e.SetKind? then e.newKind else f.kind)
    ensures g.category == (if e.SetCategory? then e.newCategory else f.category)
    ensures g.amount == (if e.SetAmount? then e.newAmount else f.amount)
    ensures g.description == (if e.SetDescription? then e.newDescription else f.description)
    ensures g.date == (if e.SetDate? then e.newDate else f.date)
    ensures g.metaId == (if e.SetMetaId? then e.newMetaId else f.metaId)
    ensures g.installments == (if e.SetInstallments? then e.newInstallments else f.installments)
  {
    match e
    case SetKind(v) => f.(kind := v)
    case SetCategory(v) => f.(category := v)
    case SetAmount(v) => f.(amount := v)
    case SetDescription(v) => f.(description := v)
    case SetDate(v) => f.(date := v)
    case SetMetaId(v) => f.(metaId := v)
    case SetInstallments(v) => f.(installments := v)
  }

  /** A second edit of the same field overwrites the first. */
  lemma EditLastWins(f: Form, e: Edit, e': Edit)
    requires SameField(e, e')
    ensures Apply(Apply(f, e), e') == Apply(f, e')
  {
  }

  /** Edits of different fields can be made in either order. */
  lemma EditsCommute(f: Form, e: Edit, e': Edit)
    requires !SameField(e, e')
    ensures Apply(Apply(f, e), e') == Apply(Apply(f, e'), e)
  {
  }

  /** The description, goal and installments are optional: editing them neither completes nor spoils a form. */
  lemma OptionalEditKeepsComplete(f: Form, e: Edit)
    requires e.SetDescription? || e.SetMetaId? || e.SetInstallments?
    ensures Complete(Apply(f, e)) <==> Complete(f)
  {
  }

  /** `parseInt(formData.installments) || 1`: NaN and 0 both become 1. */
  function Count(f: Form): (n: int)
    ensures n != 0
    ensures ParseInt(f.installments).Int? && ParseInt(f.installments).value != 0 ==> n == ParseInt(f.installments).value
    ensures n == 1 <==> ParseInt(f.installments) in {NaN, Int(0), Int(1)}
  {
    var p := ParseInt(f.installments);
    if p.NaN? || p.value == 0 then 1 else p.value
  }

  /** Every option of the installments select (`"1"`, `"2"`, … `"24"`) reads back as its own number. */
  lemma CountOfOption(f: Form, k: nat)
    requires k >= 1 && f.installments == NatStr(k)
    ensures Count(f) == k
  {
    ParseIntNatStr(k);
  }

  /** `value || null` for an optional text field. */
  function OrNull(s: string): (r: Option<string>)
    ensures r.None? <==> s == ""
    ensures r.Some? ==> r.value == s
  {
    if s == "" then None else Some(s)
  }

  /** The body of one POST to `/api/transactions`. */
  datatype Post = Post(
    kind: Kind,
    category: string,
    amount: real,
    description: Option<string>,
    date: Day,
    metaId: Option<string>,
    installments: Option<int>,
    recurrence: Option<string>)

  /** `setMonth(getMonth() + i)` on a copy of the base date: JavaScript rolls a missing day into the next month. */
  function InstallmentDate(base: Day, i: nat): Day
  {
    Calendar.MakeDate(base.year, base.month - 1 + i, base.day)
  }

  /** `${description || category} (${i + 1}/${n})`. */
  function InstallmentLabel(f: Form, i: nat, n: nat): string
  {
    (if f.description != "" then f.description else f.category) + " (" + NatStr(i + 1) + "/" + NatStr(n) + ")"
  }

  /** The request for installment `i` of `n`. */
  function InstallmentPost(f: Form, n: nat, i: nat): Post
    requires Complete(f) && n > 1
  {
    Post(f.kind.value, f.category, PerInstallment(f.amount.value, n), Some(InstallmentLabel(f, i, n)),
         InstallmentDate(f.date.value, i), OrNull(f.metaId), Some(n), Some("monthly"))
  }

  /** The `n` installment requests, in order. */
  function Installments(f: Form, n: nat): (r: seq<Post>)
    requires Complete(f) && n > 1
    ensures |r| == n && forall i :: 0 <= i < n ==> r[i] == InstallmentPost(f, n, i)
  {
    seq(n, i requires 0 <= i < n => InstallmentPost(f, n, i))
  }

  /** The requests `handleSubmit` sends for a complete form, in the order it sends them. */
  function Requests(f: Form): seq<Post>
    requires Complete(f)
  {
    var n := Count(f);
    if n > 1 then Installments(f, n)
    else [Post(f.kind.value, f.category, f.amount.value, OrNull(f.description), f.date.value, OrNull(f.metaId), None, None)]
  }

  function PostAmount(p: Post): real { p.amount }

  /**
   * With more than one installment: exactly `n` requests, each for the same
   * share of the total and together for the total, all of the form's type,
   * category and goal, carrying the count and a monthly recurrence, the first
   * on the chosen date and each later one strictly after the previous.
   */
  lemma ScheduleSpec(f: Form)
    requires Complete(f) && Count(f) > 1
    ensures |Requests(f)| == Count(f)
    ensures forall i :: 0 <= i < |Requests(f)| ==>
              Requests(f)[i].amount == PerInstallment(f.amount.value, Count(f)) &&
              Requests(f)[i].kind == f.kind.value && Requests(f)[i].category == f.category &&
              Requests(f)[i].metaId == OrNull(f.metaId) &&
              Requests(f)[i].installments == Some(Count(f)) && Requests(f)[i].recurrence == Some("monthly")
    ensures Sum(Requests(f), PostAmount) == f.amount.value
  {
    var n: nat := Count(f);
    var rs := Requests(f);
    forall i | 0 <= i < |rs| ensures rs[i] == InstallmentPost(f, n, i) {
      RequestAt(f, i);
    }
    SharesAddUp(rs, f.amount.value, n);
  }

  /** `n` requests for the same share of `amount` add up to `amount`. */
  lemma SharesAddUp(rs: seq<Post>, amount: real, n: nat)
    requires n > 0 && |rs| == n
    requires forall i :: 0 <= i < n ==> rs[i].amount == PerInstallment(amount, n)
    ensures Sum(rs, PostAmount) == amount
  {
    var per := PerInstallment(amount, n);
    SumConst(rs, PostAmount, per);
  }

  lemma RequestAt(f: Form, i: nat)
    requires Complete(f) && Count(f) > 1 && i < Count(f)
    ensures |Requests(f)| == Count(f) && Requests(f)[i] == InstallmentPost(f, Count(f), i)
  {
  }

  /** The first installment falls on the chosen date, and each later one strictly after the one before. */
  lemma ScheduleDates(f: Form)
    requires Complete(f) && Count(f) > 1
    ensures Requests(f)[0].date == f.date.value
    ensures forall i, j :: 0 <= i < j < |Requests(f)| ==> Calendar.Lt(Requests(f)[i].date, Requests(f)[j].date)
  {
    var base := f.date.value;
    var rs := Requests(f);
    Calendar.MakeDateExact(base.year, base.month - 1, base.day);
    RequestAt(f, 0);
    forall i, j | 0 <= i < j < |rs| ensures Calendar.Lt(rs[i].date, rs[j].date) {
      RequestAt(f, i);
      RequestAt(f, j);
      InstallmentsLater(base, i, j);
    }
  }

  /** Installment `j` falls strictly after installment `i < j`. */
  lemma InstallmentsLater(base: Day, i: nat, j: nat)
    requires i < j
    ensures Calendar.Lt(InstallmentDate(base, i), InstallmentDate(base, j))
  {
    var a, b := base.month - 1 + i, base.month - 1 + j;
    Calendar.MonthsLater(base.year, a, b, base.day);
    Calendar.AddDaysLater(InstallmentDate(base, i), Calendar.MonthSpan(base.year, a, b));
  }

  /** One installment (or a count that is not above one): a single request for the whole amount, with no count and no recurrence. */
  lemma SingleSpec(f: Form)
    requires Complete(f) && Count(f) <= 1
    ensures |Requests(f)| == 1
    ensures Requests(f)[0].amount == f.amount.value && Requests(f)[0].date == f.date.value
    ensures Requests(f)[0].description == OrNull(f.description)
    ensures Requests(f)[0].installments.None? && Requests(f)[0].recurrence.None?
  {
  }

  const Missing: string := "Preencha todos os campos obrigatórios"
  const Failure: string := "Erro ao adicionar transação"
  const Saved: string := "Transação adicionada com sucesso!"

  /** The success toast: the schedule for installments, a plain confirmation otherwise. */
  function SuccessMessage(f: Form): string
    requires Complete(f)
  {
    var n := Count(f);
    if n > 1 then "✨ " + NatStr(n) + " parcelas criadas: " + NatStr(n) + "x de R$ " + NumFmt.Fixed2(PerInstallment(f.amount.value, n))
    else Saved
  }

  /** Whether some request in `0..n` is answered with an error (`failing` holds the failing positions). */
  predicate AnyFailed(n: nat, failing: set<nat>)
  {
    exists i :: i in failing && i < n
  }

  /** The form component: its fields, the toasts it has shown, the requests it has sent and how often it told the page to reload. */
  class InstallmentForm {
    var form: Form
    var toasts: seq<Toast>
    var sent: seq<Post>
    var reloads: nat

    constructor (today: Day)
      ensures form == Defaults(today) && toasts == [] && sent == [] && reloads == 0
    {
      form := Defaults(today);
      toasts := [];
      sent := [];
      reloads := 0;
    }

    /** `handleInputChange`: one field of the form edited, nothing else. */
    method HandleInputChange(e: Edit)
      modifies this
      ensures form == Apply(old(form), e)
      ensures toasts == old(toasts) && sent == old(sent) && reloads == old(reloads)
    {
      form := Apply(form, e);
    }

    /**
     * `handleSubmit`. An incomplete form only shows an error. Otherwise every
     * request is sent; if any fails the form is kept and an error is shown,
     * else the success toast is shown, the form is reset and the page reloads.
     */
    method HandleSubmit(today: Day, failing: set<nat>)
      modifies this
      ensures !Complete(old(form)) ==>
                toasts == old(toasts) + [Toast(Missing, false)] && sent == old(sent) &&
                form == old(form) && reloads == old(reloads)
      ensures Complete(old(form)) ==> sent == old(sent) + Requests(old(form))
      ensures Complete(old(form)) && AnyFailed(|Requests(old(form))|, failing) ==>
                toasts == old(toasts) + [Toast(Failure, false)] && form == old(form) && reloads == old(reloads)
      ensures Complete(old(form)) && !AnyFailed(|Requests(old(form))|, failing) ==>
                toasts == old(toasts) + [Toast(SuccessMessage(old(form)), true)] &&
                form == Defaults(today) && reloads == old(reloads) + 1
    {
      var f := form;
      if !(f.kind.Some? && f.category != "" && f.amount.Some? && f.date.Some?) {
        toasts := toasts + [Toast(Missing, false)];
        return;
      }
      var p := ParseInt(f.installments);
      var installments := if p.NaN? || p.value == 0 then 1 else p.value;
      var promises: seq<Post>;
      if installments > 1 {
        promises := Schedule(f, installments);
      } else {
        promises := [Post(f.kind.value, f.category, f.amount.value, OrNull(f.description), f.date.value, OrNull(f.metaId), None, None)];
      }
      sent := sent + promises;
      var failed := exists i :: i in failing && i < |promises|;
      if failed {
        toasts := toasts + [Toast(Failure, false)];
      } else {
        toasts := toasts + [Toast(SuccessMessage(f), true)];
        form := Defaults(today);
        reloads := reloads + 1;
      }
    }
  }

  /** The `for` loop pushing one request per installment. */
  method Schedule(f: Form, n: nat) returns (promises: seq<Post>)
    requires Complete(f) && n > 1
    ensures promises == Installments(f, n)
  {
    promises := [];
    var base := f.date.value;
    var amount := PerInstallment(f.amount.value, n);
    for i := 0 to n
      invariant |promises| == i
      invariant forall k :: 0 <= k < i ==> promises[k] == InstallmentPost(f, n, k)
    {
      var date := InstallmentDate(base, i);
      var description := InstallmentLabel(f, i, n);
      var post := Post(f.kind.value, f.category, amount, Some(description), date, OrNull(f.metaId), Some(n), Some("monthly"));
      assert post == InstallmentPost(f, n, i);
      ghost var before := promises;
      promises := promises + [post];
      assert forall k :: 0 <= k < i ==> promises[k] == before[k];
    }
  }
}
