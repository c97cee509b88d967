/**
 * The transaction form of the dashboard: the same required-field check as
 * the installment form, one record whose description falls back to the
 * category, a local store while offline, and one toast per achievement the
 * server reports as unlocked.
 */
module QuickForm {
  import opened Strs
  import opened Ledger
  import TxForm

  /** The `transactionData` record sent to the server or stored locally. */
  datatype Record = Record(
    kind: Kind,
    category: string,
    amount: real,
    description: string,
    date: Day,
    metaId: Option<string>,
    installments: int,
    recurrence: Option<string>)

  /** The record built from a complete form. */
  function RecordOf(f: TxForm.Form): Record
    requires TxForm.Complete(f)
  {
    var p := ParseInt(f.installments);
    Record(f.kind.value, f.category, f.amount.value,
           if f.description != "" then f.description else f.category,
           f.date.value,
           TxForm.OrNull(f.metaId),
           TxForm.Count(f),
           if p.Int? && p.value > 1 then Some("monthly") else None)
  }

  /**
   * The description is the one typed, or the category when none was, so it
   * is never empty; the count is never 0; and the recurrence is monthly
   * exactly when the count is above one.
   */
  lemma RecordSpec(f: TxForm.Form)
    requires TxForm.Complete(f)
    ensures RecordOf(f).description != ""
    ensures f.description != "" ==> RecordOf(f).description == f.description
    ensures f.description == "" ==> RecordOf(f).description == f.category
    ensures RecordOf(f).installments != 0
    ensures RecordOf(f).recurrence == Some("monthly") <==> RecordOf(f).installments > 1
    ensures RecordOf(f).recurrence.None? <==> RecordOf(f).installments <= 1
  {
  }

  /** What the POST answered: an error (or no answer), or the parsed reply. */
  datatype Response =
    | Rejected
    | Accepted(achievements: Option<seq<string>>, success: bool, message: string)

  /** The toast for one unlocked achievement. */
  function AchievementToast(name: string): Toast
  {
    Toast("🏆 Conquista Desbloqueada: " + name + "!", true)
  }

  /** The toasts of `newAchievements.forEach(...)`, one per achievement, in order. */
  function Unlocked(names: seq<string>): (r: seq<Toast>)
  {
    seq(|names|, i requires 0 <= i < |names| => AchievementToast(names[i]))
  }

  /** One success toast per achievement, in order, each naming it. */
  lemma UnlockedSpec(names: seq<string>)
    ensures |Unlocked(names)| == |names|
    ensures forall i :: 0 <= i < |names| ==> Unlocked(names)[i].success && Contains(Unlocked(names)[i].message, names[i])
  {
    forall i | 0 <= i < |names| ensures Contains(Unlocked(names)[i].message, names[i]) {
      var prefix := "🏆 Conquista Desbloqueada: ";
      ContainsInfix(prefix, names[i], "!");
    }
  }

  /** The toasts of an accepted reply: the achievements, then the server's message or the plain confirmation. */
  function AcceptedToasts(r: Response): seq<Toast>
    requires r.Accepted?
  {
    (if r.achievements.Some? then Unlocked(r.achievements.value) else []) +
    [if r.success then Toast(r.message, true) else Toast(SavedOnline, true)]
  }

  const SavedOnline: string := "✅ Transação salva com sucesso!"
  const SavedOffline: string := "Você está offline. Transação salva localmente!"
  const OfflineError: string := "Erro ao salvar transação offline."

  /**
   * The form component: its fields, its toasts, the records stored locally,
   * the records posted, the `local-transaction-added` events dispatched and
   * the reloads requested from the page.
   */
  class EntryForm {
    var form: TxForm.Form
    var toasts: seq<Toast>
    var pending: seq<Record>
    var posted: seq<Record>
    var events: nat
    var reloads: nat

    constructor (today: Day)
      ensures form == TxForm.Defaults(today) && toasts == [] && pending == [] && posted == []
      ensures events == 0 && reloads == 0
    {
      form := TxForm.Defaults(today);
      toasts := [];
      pending := [];
      posted := [];
      events := 0;
      reloads := 0;
    }

    /** `handleInputChange`: one field of the form edited, nothing else. */
    method HandleInputChange(e: TxForm.Edit)
      modifies this
      ensures form == TxForm.Apply(old(form), e)
      ensures toasts == old(toasts) && pending == old(pending) && posted == old(posted)
      ensures events == old(events) && reloads == old(reloads)
    {
      form := TxForm.Apply(form, e);
    }

    /** `resetForm`: every field back to its default, today's date. */
    method ResetForm(today: Day)
      modifies this
      ensures form == TxForm.Defaults(today)
      ensures toasts == old(toasts) && pending == old(pending) && posted == old(posted)
      ensures events == old(events) && reloads == old(reloads)
    {
      form := TxForm.Defaults(today);
    }

    /**
     * `handleSubmit`, given whether the browser is online, whether the local
     * store accepted the record and what the server answered. An incomplete
     * form only shows an error. Offline, the record is stored (or an error
     * shown) and nothing is posted. Online, the record is posted; an accepted
     * reply shows the achievement toasts and a confirmation and resets the
     * form, a rejected one shows an error and keeps it.
     */
    method HandleSubmit(today: Day, online: bool, stored: bool, response: Response)
      modifies this
      ensures !TxForm.Complete(old(form)) ==>
                toasts == old(toasts) + [Toast(TxForm.Missing, false)] && form == old(form) &&
                pending == old(pending) && posted == old(posted) && events == old(events) && reloads == old(reloads)
      ensures TxForm.Complete(old(form)) && !online ==>
                posted == old(posted) && reloads == old(reloads) &&
                if stored then
                  pending == old(pending) + [RecordOf(old(form))] && form == TxForm.Defaults(today) &&
                  toasts == old(toasts) + [Toast(SavedOffline, true)] && events == old(events) + 1
                else
                  pending == old(pending) && form == old(form) &&
                  toasts == old(toasts) + [Toast(OfflineError, false)] && events == old(events)
      ensures TxForm.Complete(old(form)) && online ==>
                posted == old(posted) + [RecordOf(old(form))] && pending == old(pending) && events == old(events) &&
                if response.Accepted? then
                  toasts == old(toasts) + AcceptedToasts(response) && form == TxForm.Defaults(today) && reloads == old(reloads) + 1
                else
                  toasts == old(toasts) + [Toast(TxForm.Failure, false)] && form == old(form) && reloads == old(reloads)
    {
      var f := form;
      if !(f.kind.Some? && f.category != "" && f.amount.Some? && f.date.Some?) {
        toasts := toasts + [Toast(TxForm.Missing, false)];
        return;
      }
      if !online {
        SaveOffline(RecordOf(f), today, stored);
      } else {
        Send(RecordOf(f), today, response);
      }
    }

    /** The offline branch: store the record locally, confirm, reset and notify the sync manager. */
    method SaveOffline(transactionData: Record, today: Day, stored: bool)
      modifies this
      ensures posted == old(posted) && reloads == old(reloads)
      ensures stored ==>
                pending == old(pending) + [transactionData] && form == TxForm.Defaults(today) &&
                toasts == old(toasts) + [Toast(SavedOffline, true)] && events == old(events) + 1
      ensures !stored ==>
                pending == old(pending) && form == old(form) &&
                toasts == old(toasts) + [Toast(OfflineError, false)] && events == old(events)
    {
      if stored {
        pending := pending + [transactionData];
        toasts := toasts + [Toast(SavedOffline, true)];
        ResetForm(today);
        events := events + 1;
      } else {
        toasts := toasts + [Toast(OfflineError, false)];
      }
    }

    /** The online branch: post the record and react to the reply. */
    method Send(transactionData: Record, today: Day, response: Response)
      modifies this
      ensures posted == old(posted) + [transactionData] && pending == old(pending) && events == old(events)
      ensures response.Accepted? ==>
                toasts == old(toasts) + AcceptedToasts(response) && form == TxForm.Defaults(today) && reloads == old(reloads) + 1
      ensures response.Rejected? ==>
                toasts == old(toasts) + [Toast(TxForm.Failure, false)] && form == old(form) && reloads == old(reloads)
    {
      posted := posted + [transactionData];
      if response.Rejected? {
        toasts := toasts + [Toast(TxForm.Failure, false)];
        return;
      }
      var shown := [];
      if response.achievements.Some? {
        shown := ShowAchievements(response.achievements.value);
      }
      if response.success {
        toasts := toasts + shown + [Toast(response.message, true)];
      } else {
        toasts := toasts + shown + [Toast(SavedOnline, true)];
      }
      ResetForm(today);
      reloads := reloads + 1;
    }
  }

  /** The `forEach` over the unlocked achievements, one toast each. */
  method ShowAchievements(names: seq<string>) returns (shown: seq<Toast>)
    ensures shown == Unlocked(names)
  {
    shown := [];
    for i := 0 to |names|
      invariant shown == Unlocked(names[..i])
    {
      assert names[..i + 1] == names[..i] + [names[i]];
      shown := shown + [AchievementToast(names[i])];
    }
    assert names[..|names|] == names;
  }
}
