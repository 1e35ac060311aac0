/** The farmer's notification centre: the unread counter, the type tabs,
    mark-as-read, mark-all-as-read, delete, the relative time label and the
    grouping of a list by calendar date. */
module NotificationsPanel {
  import opened Wrappers
  import Text
  import Seqs

  datatype NotificationType = OrderNote | InventoryNote | SystemNote | PromotionNote

  datatype Notification = Notification(
    id: string,
    kind: NotificationType,
    title: string,
    description: string,
    timestamp: int,
    isRead: bool,
    link: Option<string>,
    actionText: Option<string>)

  /** `activeTab`: `'all'` or one notification type. */
  datatype NotificationTab = AllNotifications | OnlyType(kind: NotificationType)

  predicate IsUnread(n: Notification)
  {
    !n.isRead
  }

  /** `unreadCount`: the number of notifications not yet read; zero exactly when
      every notification is read. */
  function UnreadCount(ns: seq<Notification>): (c: nat)
    ensures c == |Seqs.Filter(ns, IsUnread)|
    ensures c <= |ns|
    ensures c == 0 <==> forall i :: 0 <= i < |ns| ==> ns[i].isRead
  {
    var unread := Seqs.Filter(ns, IsUnread);
    assert forall i :: 0 <= i < |ns| && !ns[i].isRead ==> ns[i] in unread;
    assert unread != [] ==> unread[0] in ns && !unread[0].isRead;
    Seqs.Count(ns, IsUnread)
  }

  /** `filteredNotifications`: everything under `'all'`, otherwise exactly the
      notifications of the tab's type, in order. */
  function TabFiltered(ns: seq<Notification>, tab: NotificationTab): (r: seq<Notification>)
    ensures tab == AllNotifications ==> r == ns
    ensures tab.OnlyType? ==> forall n :: n in r <==> n in ns && n.kind == tab.kind
    ensures Seqs.IsSubsequence(r, ns)
  {
    var keep := (n: Notification) => tab.AllNotifications? || n.kind == tab.kind;
    Seqs.FilterIsSubsequence(ns, keep);
    Seqs.Filter(ns, keep)
  }

  /** The `map` of `markAsRead(id)`: only the notifications with that id become
      read; length, order and every other field are kept. */
  function MarkedRead(ns: seq<Notification>, id: string): (r: seq<Notification>)
    ensures |r| == |ns|
    ensures forall i :: 0 <= i < |ns| && ns[i].id == id ==> r[i] == ns[i].(isRead := true)
    ensures forall i :: 0 <= i < |ns| && ns[i].id != id ==> r[i] == ns[i]
  {
    Seqs.UpdateWhere(ns, (n: Notification) => n.id == id, (n: Notification) => n.(isRead := true))
  }

  /** Marking one notification read never raises the unread count, and lowers it
      by the number of unread notifications carrying that id. */
  lemma {:induction false} MarkedReadCount(ns: seq<Notification>, id: string)
    ensures Seqs.Count(MarkedRead(ns, id), IsUnread)
            == Seqs.Count(ns, IsUnread) - Seqs.Count(ns, (n: Notification) => n.id == id && !n.isRead)
    ensures UnreadCount(MarkedRead(ns, id)) <= UnreadCount(ns)
  {
    if ns != [] {
      MarkedReadCount(ns[1..], id);
      assert MarkedRead(ns, id)[1..] == MarkedRead(ns[1..], id);
    }
  }

  /** The `map` of `markAllAsRead`: every notification becomes read and nothing
      else changes; afterwards the unread count is zero. */
  function AllMarkedRead(ns: seq<Notification>): (r: seq<Notification>)
    ensures |r| == |ns|
    ensures forall i :: 0 <= i < |ns| ==> r[i] == ns[i].(isRead := true)
    ensures UnreadCount(r) == 0
  {
    Seqs.UpdateWhere(ns, (n: Notification) => true, (n: Notification) => n.(isRead := true))
  }

  /** The "Mark all as read" button is enabled only while something is unread. */
  predicate MarkAllEnabled(ns: seq<Notification>)
  {
    UnreadCount(ns) != 0
  }

  /** A disabled "Mark all as read" button guards a no-op: when nothing is
      unread, marking all read returns the same list. */
  lemma DisabledMarkAllIsNoOp(ns: seq<Notification>)
    requires !MarkAllEnabled(ns)
    ensures AllMarkedRead(ns) == ns
  {
    assert forall i :: 0 <= i < |ns| ==> ns[i].(isRead := true) == ns[i];
  }

  /** `deleteNotification(id)`: exactly the notifications with that id go, the
      rest stay in order. */
  function WithoutNotification(ns: seq<Notification>, id: string): (r: seq<Notification>)
    ensures forall n :: n in r <==> n in ns && n.id != id
    ensures Seqs.IsSubsequence(r, ns)
    ensures (forall i :: 0 <= i < |ns| ==> ns[i].id != id) ==> r == ns
    ensures |r| == |ns| - Seqs.Count(ns, (n: Notification) => n.id == id)
  {
    Seqs.FilterOutLength(ns, (n: Notification) => n.id == id, (n: Notification) => n.id != id);
    Seqs.FilterIsSubsequence(ns, (n: Notification) => n.id != id);
    Seqs.Filter(ns, (n: Notification) => n.id != id)
  }

  // ---------------------------------------------------------------------
  // `formatTime`
  // ---------------------------------------------------------------------

  datatype TimeUnit = Day | Hour | Minute

  /** What `formatTime` reports: a whole number of one unit, or "Just now". */
  datatype Elapsed = Ago(count: int, unit: TimeUnit) | JustNow

  const MinuteMs: int := 60 * 1000
  const HourMs: int := 60 * MinuteMs
  const DayMs: int := 24 * HourMs

  /** The chain of floored divisions and the `if` cascade of `formatTime`,
      applied to `now - timestamp` in milliseconds. Each answer is the largest
      unit of which at least one whole has passed, counted in whole units;
      anything under a minute, or in the future, is "Just now". */
  function Classify(diffMs: int): (e: Elapsed)
    ensures e.Ago? && e.unit == Day ==> e.count >= 1 && e.count * DayMs <= diffMs < (e.count + 1) * DayMs
    ensures e.Ago? && e.unit == Hour ==> 1 <= e.count < 24 && e.count * HourMs <= diffMs < (e.count + 1) * HourMs
    ensures e.Ago? && e.unit == Minute ==> 1 <= e.count < 60 && e.count * MinuteMs <= diffMs < (e.count + 1) * MinuteMs
    ensures e == JustNow <==> diffMs < MinuteMs
  {
    // Math.floor of a quotient by a positive divisor is Dafny's `/` on int.
    var secs := diffMs / 1000;
    var mins := secs / 60;
    var hours := mins / 60;
    var days := hours / 24;
    if days > 0 then Ago(days, Day)
    else if hours > 0 then Ago(hours, Hour)
    else if mins > 0 then Ago(mins, Minute)
    else JustNow
  }

  function UnitWord(u: TimeUnit): string
  {
    match u
    case Day => "day"
    case Hour => "hour"
    case Minute => "minute"
  }

  /** The label `formatTime` renders. */
  function FormatTime(diffMs: int): (text: string)
  {
    match Classify(diffMs)
    case JustNow => "Just now"
    case Ago(n, u) => Text.Decimal(n) + " " + UnitWord(u) + (if n > 1 then "s" else "") + " ago"
  }

  /** The unit is plural exactly when the count is above one. */
  lemma PluralOnlyAboveOne(diffMs: int)
    requires Classify(diffMs).Ago?
    ensures var e := Classify(diffMs);
            var text := FormatTime(diffMs);
            |text| >= 5 && (text[|text| - 5..] == "s ago" <==> e.count > 1)
  {
    var e := Classify(diffMs);
    var text := FormatTime(diffMs);
    var stem := Text.Decimal(e.count) + " " + UnitWord(e.unit);
    assert stem[|stem| - 1] != 's';
    if e.count > 1 {
      assert text == stem + "s ago";
    } else {
      assert text == stem + " ago";
      assert text[|text| - 5..] == [stem[|stem| - 1]] + " ago";
      assert text[|text| - 5..][0] != "s ago"[0];
    }
  }

  // ---------------------------------------------------------------------
  // Grouping by calendar date in `NotificationList`
  // ---------------------------------------------------------------------

  /** The notifications that fall on the date `day`, in list order. */
  function OnDate(ns: seq<Notification>, dateKey: int -> string, day: string): (r: seq<Notification>)
    ensures forall n :: n in r <==> n in ns && dateKey(n.timestamp) == day
  {
    Seqs.Filter(ns, (n: Notification) => dateKey(n.timestamp) == day)
  }

  /** The distinct dates of the list, in order of first appearance: the order in
      which `Object.entries` lists the groups. */
  function FirstDates(ns: seq<Notification>, dateKey: int -> string): (days: seq<string>)
    ensures forall day :: day in days <==> exists i :: 0 <= i < |ns| && dateKey(ns[i].timestamp) == day
    ensures forall i, j :: 0 <= i < j < |days| ==> days[i] != days[j]
  {
    if ns == [] then []
    else
      var earlier := FirstDates(ns[..|ns| - 1], dateKey);
      var day := dateKey(ns[|ns| - 1].timestamp);
      assert forall i :: 0 <= i < |ns| - 1 ==> ns[..|ns| - 1][i] == ns[i];
      if day in earlier then earlier else earlier + [day]
  }

  /** What one more notification does to the dates: its date is added at the
      end if new, and a date not seen yet has no notifications so far. */
  lemma DatesStep(ns: seq<Notification>, dateKey: int -> string, i: nat)
    requires i < |ns|
    ensures var day := dateKey(ns[i].timestamp);
            var before := FirstDates(ns[..i], dateKey);
            FirstDates(ns[..i + 1], dateKey) == (if day in before then before else before + [day])
    ensures var day := dateKey(ns[i].timestamp);
            day !in FirstDates(ns[..i], dateKey) ==> OnDate(ns[..i], dateKey, day) == []
  {
    assert ns[..i + 1][..i] == ns[..i];
  }

  /** One more notification joins the end of its own date's group and leaves
      every other group as it was. */
  lemma OnDateStep(ns: seq<Notification>, dateKey: int -> string, i: nat, d: string)
    requires i < |ns|
    ensures OnDate(ns[..i + 1], dateKey, d)
            == OnDate(ns[..i], dateKey, d) + (if d == dateKey(ns[i].timestamp) then [ns[i]] else [])
  {
    assert ns[..i + 1] == ns[..i] + [ns[i]];
    Seqs.FilterAppend(ns[..i], ns[i], (m: Notification) => dateKey(m.timestamp) == d);
  }

  /** `groups` and `order` are the grouping of `ns`: the keys in order of first
      appearance, and each date's notifications in list order. */
  ghost predicate Grouped(ns: seq<Notification>, dateKey: int -> string,
                          groups: map<string, seq<Notification>>, order: seq<string>)
  {
    && order == FirstDates(ns, dateKey)
    && (forall day :: day in groups <==> day in order)
    && (forall day :: day in groups ==> groups[day] == OnDate(ns, dateKey, day))
  }

  /** The dictionary after `(groups[day] ||= []).push(n)`. */
  function Pushed(groups: map<string, seq<Notification>>, day: string, n: Notification): (r: map<string, seq<Notification>>)
    ensures r.Keys == groups.Keys + {day}
  {
    if day in groups then groups[day := groups[day] + [n]] else groups[day := [n]]
  }

  /** The key order after the push: a new date goes last. */
  function PushedOrder(groups: map<string, seq<Notification>>, order: seq<string>, day: string): seq<string>
  {
    if day in groups then order else order + [day]
  }

  /** The dates part of one pass: the key order and the key set still agree. */
  lemma OrderStep(ns: seq<Notification>, dateKey: int -> string, i: nat,
                  groups: map<string, seq<Notification>>, order: seq<string>)
    requires i < |ns|
    requires order == FirstDates(ns[..i], dateKey)
    requires forall day :: day in groups <==> day in order
    ensures var day := dateKey(ns[i].timestamp);
            && PushedOrder(groups, order, day) == FirstDates(ns[..i + 1], dateKey)
            && forall d :: d in Pushed(groups, day, ns[i]) <==> d in PushedOrder(groups, order, day)
  {
    DatesStep(ns, dateKey, i);
  }

  /** The groups part of one pass: every group is still its date's filter. */
  lemma ValuesStep(ns: seq<Notification>, dateKey: int -> string, i: nat,
                   groups: map<string, seq<Notification>>)
    requires i < |ns|
    requires dateKey(ns[i].timestamp) in groups <==> dateKey(ns[i].timestamp) in FirstDates(ns[..i], dateKey)
    requires forall day :: day in groups ==> groups[day] == OnDate(ns[..i], dateKey, day)
    ensures var after := Pushed(groups, dateKey(ns[i].timestamp), ns[i]);
            forall d :: d in after ==> after[d] == OnDate(ns[..i + 1], dateKey, d)
  {
    var day := dateKey(ns[i].timestamp);
    var after := Pushed(groups, day, ns[i]);
    DatesStep(ns, dateKey, i);
    forall d | d in after
      ensures after[d] == OnDate(ns[..i + 1], dateKey, d)
    {
      OnDateStep(ns, dateKey, i, d);
    }
  }

  /** One pass of the `forEach`: pushing `ns[i]` onto its date's group (made
      new, and its date keyed, the first time) extends the grouping by it. */
  lemma GroupedStep(ns: seq<Notification>, dateKey: int -> string, i: nat,
                    groups: map<string, seq<Notification>>, order: seq<string>)
    requires i < |ns| && Grouped(ns[..i], dateKey, groups, order)
    ensures var day := dateKey(ns[i].timestamp);
            Grouped(ns[..i + 1], dateKey, Pushed(groups, day, ns[i]), PushedOrder(groups, order, day))
  {
    var day := dateKey(ns[i].timestamp);
    assert day in groups <==> day in FirstDates(ns[..i], dateKey);
    OrderStep(ns, dateKey, i, groups, order);
    ValuesStep(ns, dateKey, i, groups);
  }

  /** The dictionary and key order the `forEach` has built after the
      notifications of `ns`, one push per notification. */
  ghost function Grouping(ns: seq<Notification>, dateKey: int -> string): (map<string, seq<Notification>>, seq<string>)
  {
    if ns == [] then (map[], [])
    else
      var (groups, order) := Grouping(ns[..|ns| - 1], dateKey);
      var n := ns[|ns| - 1];
      var day := dateKey(n.timestamp);
      (Pushed(groups, day, n), PushedOrder(groups, order, day))
  }

  /** The pushes build the grouping: keys in order of first appearance, and
      each date's notifications in list order. */
  lemma {:induction false} GroupingIsGrouped(ns: seq<Notification>, dateKey: int -> string)
    ensures Grouped(ns, dateKey, Grouping(ns, dateKey).0, Grouping(ns, dateKey).1)
  {
    if ns != [] {
      var m := |ns| - 1;
      GroupingIsGrouped(ns[..m], dateKey);
      GroupedStep(ns, dateKey, m, Grouping(ns[..m], dateKey).0, Grouping(ns[..m], dateKey).1);
      assert ns[..m + 1] == ns;
    }
  }

  /** The `forEach` that builds `groupedByDate`: a dictionary from date to the
      notifications of that date, plus its key order. Every date of the list
      gets exactly the notifications of that date, in list order, and the keys
      come in order of first appearance. */
  method GroupByDate(ns: seq<Notification>, dateKey: int -> string)
    returns (groups: map<string, seq<Notification>>, order: seq<string>)
    ensures order == FirstDates(ns, dateKey)
    ensures forall day :: day in groups <==> day in order
    ensures forall day :: day in groups ==> groups[day] == OnDate(ns, dateKey, day)
  {
    groups := map[];
    order := [];
    var i := 0;
    while i < |ns|
      invariant 0 <= i <= |ns|
      invariant (groups, order) == Grouping(ns[..i], dateKey)
    {
      var n := ns[i];
      var day := dateKey(n.timestamp);
      assert ns[..i + 1][..i] == ns[..i];
      if day in groups {
        groups := groups[day := groups[day] + [n]];
      } else {
        groups := groups[day := [n]];
        order := order + [day];
      }
      i := i + 1;
    }
    assert ns[..i] == ns;
    GroupingIsGrouped(ns, dateKey);
  }

  /** Every notification lies in exactly one group, the one of its own date, and
      no group is empty. */
  lemma GroupsPartition(ns: seq<Notification>, dateKey: int -> string, k: nat)
    requires k < |ns|
    ensures dateKey(ns[k].timestamp) in FirstDates(ns, dateKey)
    ensures forall day :: ns[k] in OnDate(ns, dateKey, day) <==> day == dateKey(ns[k].timestamp)
    ensures forall day :: day in FirstDates(ns, dateKey) ==> OnDate(ns, dateKey, day) != []
  {
    forall day | day in FirstDates(ns, dateKey)
      ensures OnDate(ns, dateKey, day) != []
    {
      var i :| 0 <= i < |ns| && dateKey(ns[i].timestamp) == day;
      assert ns[i] in OnDate(ns, dateKey, day);
    }
  }

  /** The panel state: the notification list and the active tab. */
  class NotificationCentre {
    var notifications: seq<Notification>
    var activeTab: NotificationTab

    constructor (initial: seq<Notification>)
      ensures notifications == initial && activeTab == AllNotifications
    {
      notifications := initial;
      activeTab := AllNotifications;
    }

    /** The list under the active tab. */
    function Visible(): seq<Notification>
      reads this
    {
      TabFiltered(notifications, activeTab)
    }

    method MarkAsRead(id: string)
      modifies this
      ensures notifications == MarkedRead(old(notifications), id)
      ensures UnreadCount(notifications) <= UnreadCount(old(notifications))
      ensures activeTab == old(activeTab)
    {
      MarkedReadCount(notifications, id);
      notifications := MarkedRead(notifications, id);
    }

    method MarkAllAsRead()
      modifies this
      ensures notifications == AllMarkedRead(old(notifications))
      ensures UnreadCount(notifications) == 0
      ensures activeTab == old(activeTab)
    {
      notifications := AllMarkedRead(notifications);
    }

    method DeleteNotification(id: string)
      modifies this
      ensures notifications == WithoutNotification(old(notifications), id)
      ensures activeTab == old(activeTab)
    {
      notifications := WithoutNotification(notifications, id);
    }

    method SelectTab(tab: NotificationTab)
      modifies this
      ensures activeTab == tab && notifications == old(notifications)
    {
      activeTab := tab;
    }
  }
}
