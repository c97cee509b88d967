/**
 * The notification list held by the `useNotifications` hook: new
 * notifications are merged in front (dropping titles already shown), tips
 * and manual notifications are pushed in front, entries are marked read or
 * removed, and at most 15 entries are ever kept.
 */
module Notifications {
  import opened Seqs

  datatype NoticeType = Success | Warning | Info | Error
  datatype Topic = Finance | Goals | Budget | Insights | Alerts
  datatype Priority = Low | Medium | High | Critical

  /**
   * One notification. `timestamp` is in milliseconds; the id, built from the
   * clock and a random number in the hook, is given by the caller.
   */
  datatype Notification = Notification(
    id: string,
    kind: NoticeType,
    title: string,
    message: string,
    timestamp: int,
    read: bool,
    icon: string,
    topic: Topic,
    priority: Priority,
    actionable: bool)

  /** Most entries the list keeps. */
  const Cap: nat := 15

  /** Thirty minutes in milliseconds: a tip is not repeated within this window. */
  const TipWindow: int := 30 * 60 * 1000

  /** `createNotification`: every new notification starts unread. */
  function Create(id: string, kind: NoticeType, title: string, message: string, icon: string,
                  topic: Topic, priority: Priority, actionable: bool, now: int): (n: Notification)
    ensures !n.read && n.id == id && n.title == title && n.timestamp == now
    ensures n.topic == topic && n.priority == priority
  {
    Notification(id, kind, title, message, now, false, icon, topic, priority, actionable)
  }

  function Title(n: Notification): string { n.title }

  /** `prev.map(n => n.title)`. */
  function Titles(s: seq<Notification>): (ts: seq<string>)
    ensures |ts| == |s|
    ensures forall i :: 0 <= i < |s| ==> ts[i] == s[i].title
  {
    seq(|s|, i requires 0 <= i < |s| => s[i].title)
  }

  /** The new notifications whose title is not already in the list, in their order. */
  function Fresh(prev: seq<Notification>, news: seq<Notification>): seq<Notification>
  {
    Filter(news, TitleNotIn(Titles(prev)))
  }

  /** `newNotif => !existingTitles.includes(newNotif.title)`. */
  function TitleNotIn(titles: seq<string>): Notification -> bool
  {
    (n: Notification) => n.title !in titles
  }

  /** `notif => notif.id !== id`. */
  function OtherId(id: string): Notification -> bool
  {
    (n: Notification) => n.id != id
  }

  /** `notif => notif.category !== category`. */
  function OtherTopic(topic: Topic): Notification -> bool
  {
    (n: Notification) => n.topic != topic
  }

  /** The merge effect: fresh notifications in front of the list, cut to 15; the list as it was when nothing is fresh. */
  function Merged(prev: seq<Notification>, news: seq<Notification>): seq<Notification>
  {
    var unseen := Fresh(prev, news);
    if unseen == [] then prev else Take(unseen + prev, Cap)
  }

  /** `[n, ...prev.slice(0, 14)]`. */
  function PushFront(prev: seq<Notification>, n: Notification): (r: seq<Notification>)
    ensures 1 <= |r| <= Cap && r[0] == n
    ensures r[1..] == Take(prev, Cap - 1)
  {
    [n] + Take(prev, Cap - 1)
  }

  /** Some entry with the tip's title is less than thirty minutes old. */
  predicate RecentSimilar(prev: seq<Notification>, title: string, now: int)
  {
    exists i :: 0 <= i < |prev| && prev[i].title == title && now - prev[i].timestamp < TipWindow
  }

  /** `markAsRead`: the entries with that id become read. */
  function MarkRead(s: seq<Notification>, id: string): (r: seq<Notification>)
    ensures |r| == |s|
    ensures forall i :: 0 <= i < |s| ==> r[i] == if s[i].id == id then s[i].(read := true) else s[i]
  {
    seq(|s|, i requires 0 <= i < |s| => if s[i].id == id then s[i].(read := true) else s[i])
  }

  /** `markAllAsRead`. */
  function MarkAllRead(s: seq<Notification>): (r: seq<Notification>)
    ensures |r| == |s|
    ensures forall i :: 0 <= i < |s| ==> r[i] == s[i].(read := true)
  {
    seq(|s|, i requires 0 <= i < |s| => s[i].(read := true))
  }

  predicate IsUnread(n: Notification) { !n.read }

  /** `filter(n => !n.read).length`. */
  function Unread(s: seq<Notification>): nat { Count(s, IsUnread) }

  /** `filter(n => n.priority === 'critical' && !n.read).length`. */
  function CriticalUnread(s: seq<Notification>): nat
  {
    Count(s, IsCriticalUnread)
  }

  predicate IsCriticalUnread(n: Notification) { n.priority == Critical && !n.read }

  function TopicOf(n: Notification): Topic { n.topic }
  function One(n: Notification): real { 1.0 }

  /** `notificationsByCategory`: the number of entries per topic, in order of first appearance. */
  function ByTopic(s: seq<Notification>): seq<(Topic, real)>
  {
    Entries(s, TopicOf, One)
  }

  /** The list the hook holds. */
  class NotificationList {
    var items: seq<Notification>

    /** At most 15 entries. */
    predicate Valid()
      reads this
    {
      |items| <= Cap
    }

    /** `useState<Notification[]>([])`. */
    constructor()
      ensures items == [] && Valid()
    {
      items := [];
    }

    /** The merge effect run when the analysis produces notifications. */
    method Merge(news: seq<Notification>)
      requires Valid()
      modifies this
      ensures items == Merged(old(items), news) && Valid()
    {
      var unseen := Fresh(items, news);
      if unseen != [] {
        items := Take(unseen + items, Cap);
      }
    }

    /** `addNotification`. */
    method Add(n: Notification)
      modifies this
      ensures items == PushFront(old(items), n) && Valid()
    {
      items := PushFront(items, n);
    }

    /** The periodic tip: pushed in front unless a same-title entry is recent. */
    method AddTip(tip: Notification, now: int)
      requires Valid()
      modifies this
      ensures items == if RecentSimilar(old(items), tip.title, now) then old(items) else PushFront(old(items), tip)
      ensures Valid()
    {
      var similar := false;
      var i := 0;
      while i < |items|
        invariant 0 <= i <= |items|
        invariant similar <==> exists j :: 0 <= j < i && items[j].title == tip.title && now - items[j].timestamp < TipWindow
      {
        if items[i].title == tip.title && now - items[i].timestamp < TipWindow {
          similar := true;
        }
        i := i + 1;
      }
      if !similar {
        items := PushFront(items, tip);
      }
    }

    method MarkAsRead(id: string)
      requires Valid()
      modifies this
      ensures items == MarkRead(old(items), id) && Valid()
    {
      items := MarkRead(items, id);
    }

    method MarkAllAsRead()
      requires Valid()
      modifies this
      ensures items == MarkAllRead(old(items)) && Valid()
    {
      items := MarkAllRead(items);
    }

    method Remove(id: string)
      requires Valid()
      modifies this
      ensures items == Filter(old(items), OtherId(id)) && Valid()
    {
      items := Filter(items, OtherId(id));
    }

    method ClearAll()
      modifies this
      ensures items == [] && Valid()
    {
      items := [];
    }

    method ClearRead()
      requires Valid()
      modifies this
      ensures items == Filter(old(items), IsUnread) && Valid()
    {
      items := Filter(items, IsUnread);
    }

    method ClearByTopic(topic: Topic)
      requires Valid()
      modifies this
      ensures items == Filter(old(items), OtherTopic(topic)) && Valid()
    {
      items := Filter(items, OtherTopic(topic));
    }

    /** `unreadCount`. */
    function UnreadCount(): nat
      reads this
    {
      Unread(items)
    }
  }

  // ---- properties ----

  /** A merge keeps at most 15 entries whenever the list had at most 15. */
  lemma MergedBound(prev: seq<Notification>, news: seq<Notification>)
    requires |prev| <= Cap
    ensures |Merged(prev, news)| <= Cap
  {
  }

  /**
   * After a merge, every entry is an old one or a new one whose title was not
   * in the list before; with nothing fresh the list is unchanged.
   */
  lemma MergedEntries(prev: seq<Notification>, news: seq<Notification>)
    ensures Fresh(prev, news) == [] ==> Merged(prev, news) == prev
    ensures forall n :: n in Merged(prev, news) ==> n in prev || (n in news && n.title !in Titles(prev))
  {
    var titles := Titles(prev);
    var unseen := Fresh(prev, news);
    FilterSpec(news, TitleNotIn(titles));
    if unseen != [] {
      forall n | n in Merged(prev, news) ensures n in prev || (n in news && n.title !in titles) {
        assert n in unseen + prev;
      }
    }
  }

  /** The fresh entries come first, in order, when they fit. */
  lemma MergedFront(prev: seq<Notification>, news: seq<Notification>)
    requires Fresh(prev, news) != []
    requires |Fresh(prev, news)| + |prev| <= Cap
    ensures Merged(prev, news) == Fresh(prev, news) + prev
  {
  }

  /** Marking one id read touches only the entries with that id; the other entries, the length and the order are unchanged. */
  lemma MarkReadOthers(s: seq<Notification>, id: string)
    ensures forall i :: 0 <= i < |s| && s[i].id != id ==> MarkRead(s, id)[i] == s[i]
    ensures forall i :: 0 <= i < |s| && s[i].id == id ==> MarkRead(s, id)[i].read
    ensures Unread(MarkRead(s, id)) <= Unread(s)
  {
    UnreadMap(s, MarkRead(s, id));
  }

  /** After marking everything read, nothing is unread. */
  lemma {:induction false} MarkAllReadUnread(s: seq<Notification>)
    ensures Unread(MarkAllRead(s)) == 0
    ensures CriticalUnread(MarkAllRead(s)) == 0
    decreases |s|
  {
    if s != [] {
      var r := MarkAllRead(s);
      MarkAllReadUnread(s[..|s| - 1]);
      assert r[..|r| - 1] == MarkAllRead(s[..|s| - 1]);
    }
  }

  /** Two lists of the same length where every unread entry of the first is unread in the second: no more unread entries in the first. */
  lemma {:induction false} UnreadMap(s: seq<Notification>, r: seq<Notification>)
    requires |r| == |s|
    requires forall i :: 0 <= i < |s| ==> (r[i].read || !s[i].read) && (!r[i].read ==> !s[i].read)
    ensures Unread(r) <= Unread(s)
    decreases |s|
  {
    if s != [] {
      UnreadMap(s[..|s| - 1], r[..|r| - 1]);
    }
  }

  /** The critical unread entries are among the unread ones. */
  lemma {:induction false} CriticalAmongUnread(s: seq<Notification>)
    ensures CriticalUnread(s) <= Unread(s)
    decreases |s|
  {
    if s != [] {
      CriticalAmongUnread(s[..|s| - 1]);
    }
  }

  /** Every entry is counted in exactly one topic: the per-topic counts add up to the total. */
  lemma ByTopicTotal(s: seq<Notification>)
    ensures SumValues(ByTopic(s)) == |s| as real
  {
    EntriesTotal(s, TopicOf, One);
    SumOnes(s);
  }

  lemma {:induction false} SumOnes(s: seq<Notification>)
    ensures Sum(s, One) == |s| as real
    decreases |s|
  {
    if s != [] {
      SumOnes(s[..|s| - 1]);
    }
  }

  function PriorityOf(n: Notification): Priority { n.priority }

  /** `notificationsByPriority`: the number of entries per priority, in order of first appearance. */
  function ByPriority(s: seq<Notification>): seq<(Priority, real)>
  {
    Entries(s, PriorityOf, One)
  }

  function WithPriority(p: Priority): Notification -> bool
  {
    (n: Notification) => n.priority == p
  }

  /**
   * Each priority that occurs is listed once, with the number of entries of
   * that priority; a priority that does not occur is not listed; and the
   * counts add up to the total.
   */
  lemma ByPrioritySpec(s: seq<Notification>)
    ensures forall i :: 0 <= i < |ByPriority(s)| ==>
              ByPriority(s)[i].1 == Count(s, WithPriority(ByPriority(s)[i].0)) as real
    ensures forall p :: p in Labels(ByPriority(s)) <==> exists n :: n in s && n.priority == p
    ensures Distinct(Labels(ByPriority(s)))
    ensures SumValues(ByPriority(s)) == |s| as real
  {
    EntriesLabels(s, PriorityOf, One);
    EntriesTotal(s, PriorityOf, One);
    SumOnes(s);
    forall p ensures KeySum(s, PriorityOf, One, p) == Count(s, WithPriority(p)) as real {
      PriorityTally(s, p);
    }
    forall p | exists n :: n in s && n.priority == p
      ensures p in Labels(ByPriority(s))
    {
      var n :| n in s && n.priority == p;
      assert PriorityOf(n) == p;
    }
  }

  lemma {:induction false} PriorityTally(s: seq<Notification>, p: Priority)
    ensures KeySum(s, PriorityOf, One, p) == Count(s, WithPriority(p)) as real
    decreases |s|
  {
    if s != [] {
      var init := s[..|s| - 1];
      PriorityTally(init, p);
      assert s == init + [s[|s| - 1]];
      KeySumSnoc(init, s[|s| - 1], PriorityOf, One, p);
    }
  }

  /** One hour in milliseconds. */
  const HourMs: int := 60 * 60 * 1000

  function NotOlderThan(since: int): Notification -> bool
  {
    (n: Notification) => n.timestamp >= since
  }

  /** `recentNotifications`: the entries of the last hour before `now`, in list order. */
  function Recent(s: seq<Notification>, now: int): seq<Notification>
  {
    Filter(s, NotOlderThan(now - HourMs))
  }

  /** The recent entries are a part of the list in its order, exactly those stamped within the hour. */
  lemma RecentSpec(s: seq<Notification>, now: int)
    ensures Subseq(Recent(s, now), s)
    ensures forall n :: n in Recent(s, now) <==> n in s && n.timestamp >= now - HourMs
  {
    FilterSpec(s, NotOlderThan(now - HourMs));
  }

  /** A removal keeps exactly the entries that fail its test, in their order. */
  lemma RemovalKeeps(s: seq<Notification>, p: Notification -> bool)
    ensures Subseq(Filter(s, x => !p(x)), s)
    ensures forall n :: n in Filter(s, x => !p(x)) <==> n in s && !p(n)
    ensures |Filter(s, x => !p(x))| <= |s|
  {
    FilterSpec(s, x => !p(x));
  }

  /** A list built from the empty one by any sequence of the list operations never holds more than 15 entries. */
  method Session(ops: seq<Op>) returns (list: NotificationList)
    ensures fresh(list) && list.Valid()
  {
    list := new NotificationList();
    var k := 0;
    while k < |ops|
      invariant 0 <= k <= |ops|
      invariant list.Valid()
      modifies list
    {
      match ops[k] {
        case MergeOp(news) => list.Merge(news);
        case AddOp(n) => list.Add(n);
        case TipOp(tip, now) => list.AddTip(tip, now);
        case MarkOp(id) => list.MarkAsRead(id);
        case MarkAllOp => list.MarkAllAsRead();
        case RemoveOp(id) => list.Remove(id);
        case ClearAllOp => list.ClearAll();
        case ClearReadOp => list.ClearRead();
        case ClearTopicOp(t) => list.ClearByTopic(t);
      }
      k := k + 1;
    }
  }

  /** One call of a control function. */
  datatype Op =
    | MergeOp(news: seq<Notification>)
    | AddOp(n: Notification)
    | TipOp(tip: Notification, now: int)
    | MarkOp(id: string)
    | MarkAllOp
    | RemoveOp(id: string)
    | ClearAllOp
    | ClearReadOp
    | ClearTopicOp(topic: Topic)
}
