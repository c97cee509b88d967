/**
 * The offline queue of `SyncManager`: transactions saved locally while
 * offline wait in the browser's store and are posted to the server, in
 * queue order, once the client is online. An accepted item leaves the
 * store, a rejected one stays for a later attempt, and a network error
 * stops the drain.
 */
module Sync {
  import opened Seqs
  import opened Ledger

  /** The request body: a queued item without its local key and timestamp. */
  datatype Body = Body(kind: Kind, category: string, amount: real, description: Option<string>, date: string,
                       metaId: Option<string>, installments: Option<int>, recurrence: Option<string>)

  /** A queued transaction; `id` is the store's key, missing until the store assigns one. */
  datatype Pending = Pending(id: Option<int>, kind: Kind, category: string, amount: real, description: Option<string>,
                             date: string, metaId: Option<string>, installments: Option<int>,
                             recurrence: Option<string>, timestamp: int)

  /**
   * What became of one request: an OK response, any other response, or an
   * exception anywhere in the loop body (the `fetch` failing, `response.json()`
   * failing on a non-JSON error body, or the store's delete failing), which
   * the `catch` turns into the end of the drain.
   */
  datatype Outcome = Accepted | Rejected | NetworkError

  datatype Toast = Syncing(count: nat) | Synced(count: nat)

  /** `const { id, timestamp, ...txData } = tx`. */
  function Strip(p: Pending): Body
  {
    Body(p.kind, p.category, p.amount, p.description, p.date, p.metaId, p.installments, p.recurrence)
  }

  /** Stripping forgets the key and the timestamp and nothing else. */
  lemma StripForgets(p: Pending, q: Pending)
    ensures Strip(p) == Strip(q) <==> p.(id := q.id, timestamp := q.timestamp) == q
  {
  }

  /** `if (id)`: a key that is present and not 0. */
  predicate HasKey(p: Pending) { p.id.Some? && p.id.value != 0 }

  /** `deletePendingTransaction(key)`. */
  function OtherKey(k: int): Pending -> bool
  {
    (p: Pending) => p.id != Some(k)
  }

  /** The items whose key is not among `keys`. */
  function Kept(keys: seq<int>): Pending -> bool
  {
    (p: Pending) => !(p.id.Some? && p.id.value in keys)
  }

  /** The keys deleted after OK responses, in order. */
  function AcceptedKeys(items: seq<Pending>, os: seq<Outcome>): (keys: seq<int>)
    requires |items| == |os|
    decreases |items|
  {
    if items == [] then []
    else
      var n := |items| - 1;
      AcceptedKeys(items[..n], os[..n]) + (if os[n] == Accepted && HasKey(items[n]) then [items[n].id.value] else [])
  }

  /** The request bodies of the items, in order. */
  function Bodies(items: seq<Pending>): (bs: seq<Body>)
    ensures |bs| == |items|
    decreases |items|
  {
    if items == [] then [] else Bodies(items[..|items| - 1]) + [Strip(items[|items| - 1])]
  }

  predicate IsAccepted(o: Outcome) { o == Accepted }

  /** Position of the first network error, or the length when there is none. */
  function FirstError(os: seq<Outcome>): (k: nat)
    ensures k <= |os|
    ensures forall j :: 0 <= j < k ==> os[j] != NetworkError
    ensures k < |os| ==> os[k] == NetworkError
  {
    if os == [] || os[0] == NetworkError then 0 else 1 + FirstError(os[1..])
  }

  /** The store, the requests sent so far and the number of OK responses. */
  datatype Drained = Drained(store: seq<Pending>, sent: seq<Body>, success: nat)

  /** One item handled without a network error. */
  function Apply(st: Drained, p: Pending, o: Outcome): Drained
  {
    var store := if o == Accepted && HasKey(p) then Filter(st.store, OtherKey(p.id.value)) else st.store;
    Drained(store, st.sent + [Strip(p)], if o == Accepted then st.success + 1 else st.success)
  }

  /** The items handled one after another. */
  function Fold(st: Drained, items: seq<Pending>, os: seq<Outcome>): Drained
    requires |items| == |os|
    decreases |items|
  {
    if items == [] then st
    else
      var n := |items| - 1;
      Apply(Fold(st, items[..n], os[..n]), items[n], os[n])
  }

  /**
   * The loop of `syncPendingTransactions` over the snapshot `store0`: the
   * items before the first network error are handled; the item that met the
   * error was sent but changes nothing else.
   */
  function Drain(store0: seq<Pending>, sent0: seq<Body>, os: seq<Outcome>): Drained
    requires |os| == |store0|
  {
    var k := FirstError(os);
    var st := Fold(Drained(store0, sent0, 0), store0[..k], os[..k]);
    if k < |store0| then st.(sent := st.sent + [Strip(store0[k])]) else st
  }

  lemma FoldStep(st: Drained, items: seq<Pending>, os: seq<Outcome>, i: nat)
    requires |items| == |os| && i < |items|
    ensures Fold(st, items[..i + 1], os[..i + 1]) == Apply(Fold(st, items[..i], os[..i]), items[i], os[i])
  {
    assert items[..i + 1][..i] == items[..i];
    assert os[..i + 1][..i] == os[..i];
  }

  /** Deleting one more key from what was kept keeps what avoids the longer list of keys. */
  lemma {:induction false} KeptMore(s: seq<Pending>, keys: seq<int>, k: int)
    ensures Filter(Filter(s, Kept(keys)), OtherKey(k)) == Filter(s, Kept(keys + [k]))
    decreases |s|
  {
    if s != [] {
      KeptMore(s[..|s| - 1], keys, k);
    }
  }

  /** Handling items deletes exactly the keys of the accepted ones. */
  lemma {:induction false} FoldStore(st: Drained, items: seq<Pending>, os: seq<Outcome>)
    requires |items| == |os|
    ensures Fold(st, items, os).store == Filter(st.store, Kept(AcceptedKeys(items, os)))
    decreases |items|
  {
    if items == [] {
      FilterAll(st.store, Kept([]));
    } else {
      var n := |items| - 1;
      FoldStore(st, items[..n], os[..n]);
      var keys := AcceptedKeys(items[..n], os[..n]);
      if os[n] == Accepted && HasKey(items[n]) {
        KeptMore(st.store, keys, items[n].id.value);
      } else {
        assert AcceptedKeys(items, os) == keys + [] == keys;
      }
    }
  }

  /** Handling items sends every item's body, in order. */
  lemma {:induction false} FoldSent(st: Drained, items: seq<Pending>, os: seq<Outcome>)
    requires |items| == |os|
    ensures Fold(st, items, os).sent == st.sent + Bodies(items)
    decreases |items|
  {
    if items != [] {
      var n := |items| - 1;
      FoldSent(st, items[..n], os[..n]);
    }
  }

  /** Handling items counts the OK responses. */
  lemma {:induction false} FoldCount(st: Drained, items: seq<Pending>, os: seq<Outcome>)
    requires |items| == |os|
    ensures Fold(st, items, os).success == st.success + Count(os, IsAccepted)
    decreases |items|
  {
    if items != [] {
      var n := |items| - 1;
      FoldCount(st, items[..n], os[..n]);
      assert os[..n] == os[..|os| - 1];
    }
  }

  /** An accepted key was the key of an item before it that got an OK response. */
  lemma {:induction false} AcceptedKeysSpec(items: seq<Pending>, os: seq<Outcome>, key: int)
    requires |items| == |os|
    ensures key in AcceptedKeys(items, os) <==>
            exists j :: 0 <= j < |items| && os[j] == Accepted && HasKey(items[j]) && items[j].id.value == key
    decreases |items|
  {
    if items != [] {
      var n := |items| - 1;
      AcceptedKeysSpec(items[..n], os[..n], key);
      if key in AcceptedKeys(items, os) && key !in AcceptedKeys(items[..n], os[..n]) {
        assert os[n] == Accepted && HasKey(items[n]) && items[n].id.value == key;
      }
      if exists j :: 0 <= j < |items| && os[j] == Accepted && HasKey(items[j]) && items[j].id.value == key {
        var j :| 0 <= j < |items| && os[j] == Accepted && HasKey(items[j]) && items[j].id.value == key;
        if j < n {
          assert items[..n][j] == items[j] && os[..n][j] == os[j];
        }
      }
    }
  }

  /** No two queued items share a key (the store's keys are unique). */
  predicate UniqueKeys(s: seq<Pending>)
  {
    forall a, b :: 0 <= a < b < |s| && s[a].id.Some? ==> s[a].id != s[b].id
  }

  /**
   * The drain's requests and count: the items before the first network error
   * are sent, the erroring one is sent too, and later ones are not; the
   * success count is the number of OK responses before the error.
   */
  lemma DrainSent(store0: seq<Pending>, sent0: seq<Body>, os: seq<Outcome>)
    requires |os| == |store0|
    ensures var k := FirstError(os);
            Drain(store0, sent0, os).sent == sent0 + Bodies(store0[..if k < |store0| then k + 1 else k])
    ensures Drain(store0, sent0, os).success == Count(os[..FirstError(os)], IsAccepted)
    ensures Drain(store0, sent0, os).store == Filter(store0, Kept(AcceptedKeys(store0[..FirstError(os)], os[..FirstError(os)])))
  {
    var k := FirstError(os);
    var st := Drained(store0, sent0, 0);
    FoldStore(st, store0[..k], os[..k]);
    FoldSent(st, store0[..k], os[..k]);
    FoldCount(st, store0[..k], os[..k]);
    if k < |store0| {
      assert Bodies(store0[..k + 1]) == Bodies(store0[..k]) + [Strip(store0[k])] by {
        assert store0[..k + 1][..k] == store0[..k];
      }
    }
  }

  /** With unique keys, an item survives handling `k` items exactly when it was not among them with an OK response and a key. */
  lemma Survives(store0: seq<Pending>, os: seq<Outcome>, k: nat, j: nat)
    requires |os| == |store0| && k <= |store0| && j < |store0| && UniqueKeys(store0)
    ensures Kept(AcceptedKeys(store0[..k], os[..k]))(store0[j]) <==> !(j < k && os[j] == Accepted && HasKey(store0[j]))
  {
    var keys := AcceptedKeys(store0[..k], os[..k]);
    var p := store0[j];
    if p.id.Some? {
      AcceptedKeysSpec(store0[..k], os[..k], p.id.value);
      if j < k && os[j] == Accepted && HasKey(p) {
        assert store0[..k][j] == p && os[..k][j] == os[j];
      }
      if p.id.value in keys {
        var i :| 0 <= i < k && os[..k][i] == Accepted && HasKey(store0[..k][i]) && store0[..k][i].id.value == p.id.value;
        assert store0[i].id == p.id;
      }
    }
  }

  /**
   * The drain's store: the surviving items in their order, an item leaving
   * exactly when it came before the first network error, got an OK response
   * and has a key.
   */
  lemma DrainStore(store0: seq<Pending>, sent0: seq<Body>, os: seq<Outcome>)
    requires |os| == |store0| && UniqueKeys(store0)
    ensures Subseq(Drain(store0, sent0, os).store, store0)
    ensures forall j :: 0 <= j < |store0| ==>
              (store0[j] in Drain(store0, sent0, os).store <==>
               !(j < FirstError(os) && os[j] == Accepted && HasKey(store0[j])))
  {
    var k := FirstError(os);
    var keep := Kept(AcceptedKeys(store0[..k], os[..k]));
    DrainSent(store0, sent0, os);
    FilterSpec(store0, keep);
    forall j | 0 <= j < |store0|
      ensures store0[j] in Filter(store0, keep) <==> !(j < k && os[j] == Accepted && HasKey(store0[j]))
    {
      Survives(store0, os, k, j);
    }
  }

  /** The sync widget's badge. */
  datatype Badge = SyncingBadge | OnlineBadge(pending: nat) | OfflineBadge(pending: nat)

  class SyncManager {
    /** The browser's store of queued transactions, in key order. */
    var store: seq<Pending>
    /** Bodies posted to the server, in order. */
    var sent: seq<Body>
    var pendingCount: nat
    var isSyncing: bool
    var toasts: seq<Toast>
    /** `transactions-synced` events dispatched. */
    var events: nat

    /** Between calls the badge count is the size of the store and no drain is running. */
    predicate Valid()
      reads this
    {
      pendingCount == |store| && !isSyncing
    }

    constructor()
      ensures store == [] && sent == [] && toasts == [] && events == 0 && Valid()
    {
      store, sent, pendingCount, isSyncing, toasts, events := [], [], 0, false, [], 0;
    }

    /** `fetchPendingCount`. */
    method FetchPendingCount()
      modifies this
      ensures pendingCount == |store| && store == old(store) && sent == old(sent)
      ensures isSyncing == old(isSyncing) && toasts == old(toasts) && events == old(events)
    {
      pendingCount := |store|;
    }

    /** A transaction saved offline elsewhere; the `local-transaction-added` listener refreshes the count. */
    method AddLocal(p: Pending)
      modifies this
      ensures store == old(store) + [p] && pendingCount == |store| && sent == old(sent)
      ensures isSyncing == old(isSyncing) && toasts == old(toasts) && events == old(events)
    {
      store := store + [p];
      pendingCount := |store|;
    }

    /**
     * `syncPendingTransactions`, with `outcomes[i]` what became of the i-th
     * request. Does nothing while a drain runs or while offline; an empty
     * store only resets the count; otherwise the store, the requests and the
     * toasts follow `Drain`, the count is refreshed and the flag cleared.
     */
    method SyncPending(online: bool, outcomes: seq<Outcome>)
      requires |outcomes| == |store|
      modifies this
      ensures old(isSyncing) || !online ==>
                store == old(store) && sent == old(sent) && pendingCount == old(pendingCount)
                && isSyncing == old(isSyncing) && toasts == old(toasts) && events == old(events)
      ensures !old(isSyncing) && online && old(store) == [] ==>
                store == [] && sent == old(sent) && pendingCount == 0
                && !isSyncing && toasts == old(toasts) && events == old(events)
      ensures !old(isSyncing) && online && old(store) != [] ==>
                var d := Drain(old(store), old(sent), outcomes);
                store == d.store && sent == d.sent && Valid() && events == old(events) + 1
                && toasts == old(toasts) + [Syncing(|old(store)|)] + (if d.success > 0 then [Synced(d.success)] else [])
    {
      if isSyncing || !online {
        return;
      }
      var pending := store;
      if |pending| == 0 {
        pendingCount := 0;
        return;
      }
      isSyncing := true;
      toasts := toasts + [Syncing(|pending|)];
      var successCount := SendAll(outcomes);
      if successCount > 0 {
        toasts := toasts + [Synced(successCount)];
      }
      pendingCount := |store|;
      isSyncing := false;
      events := events + 1;
    }

    /**
     * The `for` loop of `syncPendingTransactions`: each queued item is posted
     * in order; an OK response deletes it and counts, a network error stops.
     */
    method SendAll(outcomes: seq<Outcome>) returns (successCount: nat)
      requires |outcomes| == |store|
      modifies this
      ensures Drained(store, sent, successCount) == Drain(old(store), old(sent), outcomes)
      ensures pendingCount == old(pendingCount) && isSyncing == old(isSyncing)
      ensures toasts == old(toasts) && events == old(events)
    {
      var pending := store;
      successCount := 0;
      var i := 0;
      while i < |pending|
        invariant 0 <= i <= FirstError(outcomes)
        invariant pendingCount == old(pendingCount) && isSyncing == old(isSyncing)
        invariant toasts == old(toasts) && events == old(events)
        invariant Drained(store, sent, successCount) == Fold(Drained(pending, old(sent), 0), pending[..i], outcomes[..i])
      {
        var tx := pending[i];
        FoldStep(Drained(pending, old(sent), 0), pending, outcomes, i);
        sent := sent + [Strip(tx)];
        if outcomes[i] == NetworkError {
          break;
        }
        if outcomes[i] == Accepted {
          if tx.id.Some? && tx.id.value != 0 {
            store := Filter(store, OtherKey(tx.id.value));
          }
          successCount := successCount + 1;
        }
        i := i + 1;
      }
      assert FirstError(outcomes) == i;
    }

    /** The widget: hidden with nothing queued and no drain running, otherwise the state it shows. */
    function View(online: bool): (b: Option<Badge>)
      reads this
      ensures b.None? <==> pendingCount == 0 && !isSyncing
      ensures b == Some(SyncingBadge) <==> isSyncing
      ensures !isSyncing && pendingCount != 0 ==>
                b == Some(if online then OnlineBadge(pendingCount) else OfflineBadge(pendingCount))
    {
      if pendingCount == 0 && !isSyncing then None
      else if isSyncing then Some(SyncingBadge)
      else if online then Some(OnlineBadge(pendingCount))
      else Some(OfflineBadge(pendingCount))
    }
  }

  /** What can reach the widget: a count refresh, an offline save elsewhere, or a sync attempt with its outcomes. */
  datatype Event = Refresh | Add(p: Pending) | Sync(online: bool, outcomes: seq<Outcome>)

  /** Any run of these, from mounting on, leaves the count equal to the queue and no drain running. */
  method Session(events: seq<Event>) returns (m: SyncManager)
    ensures m.Valid()
  {
    m := new SyncManager();
    for i := 0 to |events|
      invariant m.Valid()
    {
      match events[i] {
        case Refresh => m.FetchPendingCount();
        case Add(p) => m.AddLocal(p);
        case Sync(online, outcomes) =>
          if |outcomes| == |m.store| {
            m.SyncPending(online, outcomes);
          }
      }
    }
  }
}
