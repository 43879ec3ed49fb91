/** The notification log: a list, newest first, and a counter of unread entries. */
module Notifications {
  import opened Common

  datatype Priority = Low | Medium | High

  datatype NotificationKind = Warning | Alert | Info | Success

  /** The data each message template interpolates; the text formatting itself is not modelled. */
  datatype Message =
    | CriticalFillMessage(binName: string, fillLevel: real)
    | HighFillMessage(binName: string, fillLevel: real)
    | LowBatteryMessage(binName: string, batteryLevel: real)
    | ConnectivityMessage(binName: string, state: string)
    | BinEmptiedMessage(lat: real, lng: real)
    | RouteCompletedMessage(routeName: string)

  /** What a caller passes to addNotification. */
  datatype NotificationPayload = NotificationPayload(
    title: string,
    message: Message,
    kind: NotificationKind,
    binId: Option<string>,
    priority: Priority)

  datatype Notification = Notification(
    id: string,
    title: string,
    message: Message,
    kind: NotificationKind,
    binId: Option<string>,
    timestamp: int,
    read: bool,
    priority: Priority)

  /** The stored entry: the payload plus a generated id, a timestamp and `read = false`. */
  function NewNotification(p: NotificationPayload, id: string, timestamp: int): (n: Notification)
    ensures !n.read && n.id == id && n.timestamp == timestamp
    ensures n.title == p.title && n.message == p.message && n.kind == p.kind
    ensures n.binId == p.binId && n.priority == p.priority
  {
    Notification(id, p.title, p.message, p.kind, p.binId, timestamp, false, p.priority)
  }

  /** Number of entries with `read == false`. */
  function UnreadCount(ns: seq<Notification>): (r: nat)
    ensures r <= |ns|
  {
    if ns == [] then 0
    else (if ns[0].read then 0 else 1) + UnreadCount(ns[1..])
  }

  lemma {:induction false} UnreadCountUpdate(ns: seq<Notification>, k: nat, n: Notification)
    requires k < |ns|
    ensures UnreadCount(ns[k := n]) ==
      UnreadCount(ns) - (if ns[k].read then 0 else 1) + (if n.read then 0 else 1)
    decreases |ns|
  {
    if k > 0 {
      UnreadCountUpdate(ns[1..], k - 1, n);
      assert ns[k := n][1..] == ns[1..][k - 1 := n];
    } else {
      assert ns[k := n][1..] == ns[1..];
    }
  }

  lemma {:induction false} UnreadEntryCounts(ns: seq<Notification>, k: nat)
    requires k < |ns| && !ns[k].read
    ensures UnreadCount(ns) >= 1
  {
    UnreadCountUpdate(ns, k, ns[k].(read := true));
  }

  function FindNotification(ns: seq<Notification>, id: string): (r: Option<nat>)
    ensures r.Some? ==> r.value < |ns| && ns[r.value].id == id
    ensures r.Some? ==> forall j :: 0 <= j < r.value ==> ns[j].id != id
    ensures r.None? <==> forall j :: 0 <= j < |ns| ==> ns[j].id != id
  {
    FirstIndex(ns, (n: Notification) => n.id == id)
  }

  /** Whether markAsRead(id) has any effect: the first entry with the id exists and is unread. */
  predicate MarksSomething(ns: seq<Notification>, id: string) {
    FindNotification(ns, id).Some? && !ns[FindNotification(ns, id).value].read
  }

  /** The list after markAsRead(id). */
  function MarkedRead(ns: seq<Notification>, id: string): (r: seq<Notification>)
    ensures |r| == |ns|
    ensures !MarksSomething(ns, id) ==> r == ns
    ensures MarksSomething(ns, id) ==>
      var k := FindNotification(ns, id).value;
      r[k] == ns[k].(read := true) && forall j :: 0 <= j < |ns| && j != k ==> r[j] == ns[j]
  {
    if MarksSomething(ns, id) then
      var k := FindNotification(ns, id).value;
      ns[k := ns[k].(read := true)]
    else ns
  }

  /** A second markAsRead with the same id changes nothing. */
  lemma MarkAsReadIdempotent(ns: seq<Notification>, id: string)
    ensures MarkedRead(MarkedRead(ns, id), id) == MarkedRead(ns, id)
  {
    var once := MarkedRead(ns, id);
    if MarksSomething(ns, id) {
      var k := FindNotification(ns, id).value;
      assert once[k].id == id;
      assert forall j :: 0 <= j < k ==> once[j].id != id;
      assert FindNotification(once, id) == Some(k);
    }
  }

  /** The list after markAllAsRead. */
  function AllRead(ns: seq<Notification>): (r: seq<Notification>)
    ensures |r| == |ns| && forall i :: 0 <= i < |ns| ==> r[i] == ns[i].(read := true)
  {
    seq(|ns|, i requires 0 <= i < |ns| => ns[i].(read := true))
  }

  lemma {:induction false} AllReadHasNoUnread(ns: seq<Notification>)
    ensures UnreadCount(AllRead(ns)) == 0
    decreases |ns|
  {
    if ns != [] {
      AllReadHasNoUnread(ns[1..]);
      assert AllRead(ns)[1..] == AllRead(ns[1..]);
    }
  }

  lemma MarkAllAsReadIdempotent(ns: seq<Notification>)
    ensures AllRead(AllRead(ns)) == AllRead(ns)
  {
  }

  // ---------------------------------------------------------------- the invariant

  /** The counter equals the number of unread entries. */
  predicate CounterMatches(ns: seq<Notification>, unreadCount: int) {
    unreadCount == UnreadCount(ns)
  }

  lemma AddKeepsCounter(ns: seq<Notification>, unreadCount: int, p: NotificationPayload, id: string, timestamp: int)
    requires CounterMatches(ns, unreadCount)
    ensures CounterMatches([NewNotification(p, id, timestamp)] + ns, unreadCount + 1)
  {
    assert ([NewNotification(p, id, timestamp)] + ns)[1..] == ns;
  }

  lemma MarkAsReadKeepsCounter(ns: seq<Notification>, unreadCount: int, id: string)
    requires CounterMatches(ns, unreadCount)
    ensures CounterMatches(MarkedRead(ns, id),
                           if MarksSomething(ns, id) then MaxInt(0, unreadCount - 1) else unreadCount)
  {
    if MarksSomething(ns, id) {
      var k := FindNotification(ns, id).value;
      UnreadEntryCounts(ns, k);
      UnreadCountUpdate(ns, k, ns[k].(read := true));
    }
  }

  lemma MarkAllAsReadKeepsCounter(ns: seq<Notification>)
    ensures CounterMatches(AllRead(ns), 0)
  {
    AllReadHasNoUnread(ns);
  }

  // ---------------------------------------------------------------- the slice

  class NotificationsStore {
    var notifications: seq<Notification>
    var unreadCount: int

    ghost predicate Valid()
      reads this
    {
      CounterMatches(notifications, unreadCount)
    }

    constructor ()
      ensures notifications == [] && unreadCount == 0
      ensures Valid()
    {
      notifications := [];
      unreadCount := 0;
    }

    /** `id` and `timestamp` stand for the generated id and `new Date()`. */
    method AddNotification(payload: NotificationPayload, id: string, timestamp: int)
      modifies this
      ensures notifications == [NewNotification(payload, id, timestamp)] + old(notifications)
      ensures unreadCount == old(unreadCount) + 1
      ensures old(Valid()) ==> Valid()
    {
      notifications := [NewNotification(payload, id, timestamp)] + notifications;
      unreadCount := unreadCount + 1;
      if old(Valid()) {
        AddKeepsCounter(old(notifications), old(unreadCount), payload, id, timestamp);
      }
    }

    method MarkAsRead(id: string)
      modifies this
      ensures notifications == MarkedRead(old(notifications), id)
      ensures unreadCount ==
        if MarksSomething(old(notifications), id) then MaxInt(0, old(unreadCount) - 1)
        else old(unreadCount)
      ensures old(Valid()) ==> Valid()
    {
      var k := FindNotification(notifications, id);
      if k.Some? && !notifications[k.value].read {
        var i := k.value;
        notifications := notifications[i := notifications[i].(read := true)];
        unreadCount := MaxInt(0, unreadCount - 1);
      }
      if old(Valid()) {
        MarkAsReadKeepsCounter(old(notifications), old(unreadCount), id);
      }
    }

    method MarkAllAsRead()
      modifies this
      ensures notifications == AllRead(old(notifications))
      ensures unreadCount == 0
      ensures Valid()
    {
      var i := 0;
      while i < |notifications|
        invariant 0 <= i <= |notifications| == |old(notifications)|
        invariant forall j :: 0 <= j < i ==> notifications[j] == old(notifications)[j].(read := true)
        invariant forall j :: i <= j < |notifications| ==> notifications[j] == old(notifications)[j]
      {
        notifications := notifications[i := notifications[i].(read := true)];
        i := i + 1;
      }
      unreadCount := 0;
      MarkAllAsReadKeepsCounter(old(notifications));
    }

    method ClearNotifications()
      modifies this
      ensures notifications == [] && unreadCount == 0
      ensures Valid()
    {
      notifications := [];
      unreadCount := 0;
    }
  }
}
