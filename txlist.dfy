/**
 * The transaction history card: the ten most recent transactions (newest
 * date first, the higher id first on the same date), each with the name of
 * the goal it is linked to, a note when more than ten exist, and the result
 * of deleting one.
 */
module TxList {
  import opened Seqs
  import opened Ledger
  import Calendar

  /** The list's comparator: later date first, then higher id first. */
  predicate NewerFirst(a: Transaction, b: Transaction)
  {
    var da := Calendar.DayNumber(a.date);
    var db := Calendar.DayNumber(b.date);
    da > db || (da == db && a.id >= b.id)
  }

  lemma NewerFirstOrder()
    ensures TotalPreorder(NewerFirst)
  {
  }

  /** How many transactions the card shows. */
  const Shown: nat := 10

  /** `[...transactions].sort(...).slice(0, 10)`: a sorted copy, cut to ten. */
  function Recent(ts: seq<Transaction>): seq<Transaction>
  {
    Take(Sort(ts, NewerFirst), Shown)
  }

  /**
   * The card shows min(10, n) transactions, all from the list, in order
   * (date descending, then id descending), and none left out is newer than
   * the last one shown.
   */
  lemma RecentSpec(ts: seq<Transaction>)
    ensures |Recent(ts)| == if |ts| < 10 then |ts| else 10
    ensures forall x :: x in Recent(ts) ==> x in ts
    ensures forall i, j :: 0 <= i < j < |Recent(ts)| ==>
              Calendar.DayNumber(Recent(ts)[i].date) > Calendar.DayNumber(Recent(ts)[j].date) ||
              (Calendar.DayNumber(Recent(ts)[i].date) == Calendar.DayNumber(Recent(ts)[j].date) && Recent(ts)[i].id >= Recent(ts)[j].id)
    ensures forall x :: x in ts && x !in Recent(ts) ==>
              var last := Recent(ts)[|Recent(ts)| - 1];
              Calendar.DayNumber(last.date) > Calendar.DayNumber(x.date) ||
              (Calendar.DayNumber(last.date) == Calendar.DayNumber(x.date) && last.id >= x.id)
  {
    NewerFirstOrder();
    TopSpec(ts, Shown, NewerFirst);
    forall i, j | 0 <= i < j < |Recent(ts)|
      ensures Calendar.DayNumber(Recent(ts)[i].date) > Calendar.DayNumber(Recent(ts)[j].date) ||
              (Calendar.DayNumber(Recent(ts)[i].date) == Calendar.DayNumber(Recent(ts)[j].date) && Recent(ts)[i].id >= Recent(ts)[j].id)
    {
      assert NewerFirst(Recent(ts)[i], Recent(ts)[j]);
    }
    forall x | x in ts && x !in Recent(ts)
      ensures var last := Recent(ts)[|Recent(ts)| - 1];
              Calendar.DayNumber(last.date) > Calendar.DayNumber(x.date) ||
              (Calendar.DayNumber(last.date) == Calendar.DayNumber(x.date) && last.id >= x.id)
    {
      var last := Recent(ts)[|Recent(ts)| - 1];
      assert NewerFirst(last, x);
    }
  }

  /** `getMetaName`: no name without a (non-empty) goal id or for an unknown one, else the goal's name. */
  function MetaNameOf(metas: seq<Meta>, metaId: Option<string>): (r: Option<string>)
    ensures (metaId.None? || metaId == Some("")) ==> r.None?
    ensures r.Some? <==> metaId.Some? && metaId.value != "" && exists m :: m in metas && m.id == metaId.value
    ensures r.Some? ==> exists i :: 0 <= i < |metas| && metas[i].id == metaId.value && metas[i].nome == r.value &&
                          forall j :: 0 <= j < i ==> metas[j].id != metaId.value
  {
    if metaId.None? || metaId.value == "" then None
    else
      match FindMeta(metas, metaId)
      case None => None
      case Some(m) => Some(m.nome)
  }

  /** One line of the card: the transaction, the goal badge (only for a non-empty name) and the sign before the amount. */
  datatype Row = Row(tx: Transaction, badge: Option<string>, sign: char)

  /** The card body: the empty state, or the rows and whether the "showing 10 of N" note appears. */
  datatype View = EmptyState | Listing(rows: seq<Row>, total: nat, more: bool)

  function RowOf(metas: seq<Meta>, t: Transaction): Row
  {
    var name := MetaNameOf(metas, t.metaId);
    Row(t, if name.Some? && name.value != "" then name else None, if t.kind == Income then '+' else '-')
  }

  function RowsOf(metas: seq<Meta>, ts: seq<Transaction>): (r: seq<Row>)
    ensures |r| == |ts|
    ensures forall i :: 0 <= i < |ts| ==> r[i] == RowOf(metas, ts[i])
  {
    seq(|ts|, i requires 0 <= i < |ts| => RowOf(metas, ts[i]))
  }

  function ListView(ts: seq<Transaction>, metas: seq<Meta>): View
  {
    if |ts| == 0 then EmptyState
    else Listing(RowsOf(metas, Recent(ts)), |ts|, |ts| > Shown)
  }

  /**
   * The empty state appears exactly for no transactions; otherwise one row
   * per shown transaction, in order, with a goal badge exactly when the
   * transaction names a known goal with a non-empty name, a "+" exactly for
   * income, and the note exactly when there are more than ten.
   */
  lemma ListViewSpec(ts: seq<Transaction>, metas: seq<Meta>)
    ensures ListView(ts, metas).EmptyState? <==> ts == []
    ensures ts != [] ==> ListView(ts, metas).total == |ts| && (ListView(ts, metas).more <==> |ts| > 10)
    ensures ts != [] ==> |ListView(ts, metas).rows| == if |ts| < 10 then |ts| else 10
    ensures ts != [] ==> forall i :: 0 <= i < |ListView(ts, metas).rows| ==>
              var row := ListView(ts, metas).rows[i];
              row.tx == Recent(ts)[i] &&
              (row.badge.Some? <==> (row.tx.metaId.Some? && row.tx.metaId.value != "" &&
                 exists m :: m in metas && m.id == row.tx.metaId.value && m == FindMeta(metas, row.tx.metaId).value && m.nome != "")) &&
              (row.sign == '+' <==> row.tx.kind == Income)
  {
    RecentSpec(ts);
    if ts != [] {
      var rows := ListView(ts, metas).rows;
      forall i | 0 <= i < |rows|
        ensures var row := rows[i];
                row.tx == Recent(ts)[i] &&
                (row.badge.Some? <==> (row.tx.metaId.Some? && row.tx.metaId.value != "" &&
                  exists m :: m in metas && m.id == row.tx.metaId.value && m == FindMeta(metas, row.tx.metaId).value && m.nome != "")) &&
                (row.sign == '+' <==> row.tx.kind == Income)
      {
        RowSpec(metas, Recent(ts)[i]);
      }
    }
  }

  /** A row carries a badge exactly when its goal id names a known goal whose name is not empty. */
  lemma RowSpec(metas: seq<Meta>, t: Transaction)
    ensures var row := RowOf(metas, t);
            row.tx == t &&
            (row.badge.Some? <==> (t.metaId.Some? && t.metaId.value != "" &&
              exists m :: m in metas && m.id == t.metaId.value && m == FindMeta(metas, t.metaId).value && m.nome != "")) &&
            (row.sign == '+' <==> t.kind == Income)
  {
    var found := FindMeta(metas, t.metaId);
    if t.metaId.Some? && t.metaId.value != "" && found.None? {
      forall m | m in metas ensures m.id != t.metaId.value {
        var k :| 0 <= k < |metas| && metas[k] == m;
      }
    }
  }

  /** `deleteTransaction`, given whether the DELETE request answered ok: the toast and whether the list is reloaded. */
  function DeleteResult(ok: bool): (r: (Toast, bool))
    ensures r.0.success <==> ok
    ensures r.1 <==> r.0.success
  {
    if ok then (Toast("Transação removida com sucesso!", true), true)
    else (Toast("Erro ao remover transação", false), false)
  }
}
