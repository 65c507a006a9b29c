/**
  The notifications slice (lib/features/notifications/notificationsSlice.ts):
  the list of notifications, the unread and total counters the bell badge
  shows, and the loading, error and real-time flags. Each reducer, and each
  phase of each asynchronous operation, is a method that takes its payload;
  its `modifies` clause names exactly the fields the reducer assigns.
*/
module NotificationsSlice {
  import opened Common
  import opened ApiTypes

  /** The list after marking the first entry with `id` read, if it is unread
      (`find`, then set `isRead` and, for the server's copy, `updatedAt`). */
  function MarkedAsRead(ns: seq<Notification>, id: string, stamp: Option<string>): seq<Notification> {
    var i := FirstIndex(ns, NotificationId, id);
    if 0 <= i && !ns[i].isRead then ns[i := MarkRead(ns[i], stamp)] else ns
  }

  /** `find` by `id` reaches an unread entry. */
  predicate FoundUnread(ns: seq<Notification>, id: string) {
    var i := FirstIndex(ns, NotificationId, id);
    0 <= i && !ns[i].isRead
  }

  /** Marking a present unread entry read changes that entry alone, lowers the
      unread count by one and keeps every id in place; otherwise nothing changes. */
  lemma MarkedAsReadEffect(ns: seq<Notification>, id: string, stamp: Option<string>)
    ensures var r := MarkedAsRead(ns, id, stamp);
      && |r| == |ns|
      && (forall j :: 0 <= j < |ns| ==> r[j].id == ns[j].id)
      && (FoundUnread(ns, id) ==>
            var i := FirstIndex(ns, NotificationId, id);
            && r[i].isRead && r[i].id == id
            && (forall j :: 0 <= j < |ns| && j != i ==> r[j] == ns[j])
            && UnreadIn(r) == UnreadIn(ns) - 1)
      && (!FoundUnread(ns, id) ==> r == ns)
  {
    var i := FirstIndex(ns, NotificationId, id);
    if FoundUnread(ns, id) {
      UnreadInUpdate(ns, i, MarkRead(ns[i], stamp));
    }
  }

  /** Marking the same id read twice is marking it once: the second call finds
      the entry already read. */
  lemma MarkedAsReadIdempotent(ns: seq<Notification>, id: string, stamp: Option<string>)
    ensures MarkedAsRead(MarkedAsRead(ns, id, stamp), id, stamp) == MarkedAsRead(ns, id, stamp)
  {
    var i := FirstIndex(ns, NotificationId, id);
    if FoundUnread(ns, id) {
      FirstIndexAfterUpdate(ns, NotificationId, i, MarkRead(ns[i], stamp), id);
    }
  }

  /** Removing a present id from a list with unique ids lowers the total by
      one and the unread count by one exactly when the removed entry was
      unread, and the ids left are still unique. */
  lemma DeletedCounts(ns: seq<Notification>, id: string)
    requires UniqueKeys(ns, NotificationId) && 0 <= FirstIndex(ns, NotificationId, id)
    ensures |Without(ns, NotificationId, id)| == |ns| - 1
    ensures UnreadIn(Without(ns, NotificationId, id))
         == UnreadIn(ns) - (if FoundUnread(ns, id) then 1 else 0)
    ensures UniqueKeys(Without(ns, NotificationId, id), NotificationId)
  {
    var i := FirstIndex(ns, NotificationId, id);
    WithoutUnique(ns, NotificationId, id);
    UnreadInRemove(ns, i);
    UniqueAfterRemove(ns, i);
  }

  /** The seed list: eight notifications, the first three unread. Every
      `createdAt` and `updatedAt` is the time the store was created. */
  function InitialNotifications(now: string): seq<Notification> {
    [ Notification("1", Bug, "You have a bug that needs...", "9:00 AM", false, now, now),
      Notification("2", User, "New user registered", "8:45 AM", false, now, now),
      Notification("3", Bug, "You have a bug that needs...", "8:30 AM", false, now, now),
      Notification("4", Subscription, "Andi Lane subscribed to you", "8:15 AM", true, now, now),
      Notification("5", Data, "Released a new version", "8:00 AM", true, now, now),
      Notification("6", Bug, "Submitted a bug", "7:45 AM", true, now, now),
      Notification("7", Data, "Modified a data in Figma", "7:30 AM", true, now, now),
      Notification("8", Page, "Deleted a page in Project X", "7:15 AM", true, now, now) ]
  }

  /** The seed agrees with the seed counters: 8 entries, 3 unread, no id twice. */
  lemma InitialCounts(now: string)
    ensures var r := InitialNotifications(now);
      |r| == 8 && UnreadIn(r) == 3 && UniqueKeys(r, NotificationId)
  {
    var r := InitialNotifications(now);
    assert UnreadIn(r[3..]) == 0;
    assert r[2..][1..] == r[3..];
    assert r[1..][1..] == r[2..];
    assert UnreadIn(r[2..]) == 1;
    assert UnreadIn(r[1..]) == 2;
    InitialIdsUnique(now);
  }

  /** The seed ids are the digits 1 to 8, in order, so no id occurs twice. */
  lemma InitialIdsUnique(now: string)
    ensures UniqueKeys(InitialNotifications(now), NotificationId)
  {
    var r := InitialNotifications(now);
    assert forall i :: 0 <= i < |r| ==> NotificationId(r[i]) == [('1' as int + i) as char];
  }

  class State {
    var notifications: seq<Notification>
    var unreadCount: int
    var totalCount: int
    var isLoading: bool
    var error: Option<string>
    var isRealTimeConnected: bool

    /** The counters describe the list: `unreadCount` unread entries out of
        `totalCount`, and no id twice. */
    predicate CountsAgree()
      reads this`notifications, this`unreadCount, this`totalCount
    {
      && unreadCount == UnreadIn(notifications)
      && totalCount == |notifications|
      && UniqueKeys(notifications, NotificationId)
    }

    /** The initial state: the seed list, 3 unread out of 8, nothing loading,
        no error, not connected. */
    constructor(now: string)
      ensures notifications == InitialNotifications(now)
      ensures unreadCount == 3 && totalCount == 8
      ensures !isLoading && error == None && !isRealTimeConnected
      ensures CountsAgree()
    {
      notifications := InitialNotifications(now);
      unreadCount := 3;
      totalCount := 8;
      isLoading := false;
      error := None;
      isRealTimeConnected := false;
      InitialCounts(now);
    }

    // -------------------------------------------------------------------------
    // Reducers
    // -------------------------------------------------------------------------

    /** `markAsRead`: the first entry with `id`, if unread, becomes read and the
        unread counter drops by one, never below zero. */
    method MarkAsRead(id: string)
      modifies this`notifications, this`unreadCount
      ensures notifications == MarkedAsRead(old(notifications), id, None)
      ensures unreadCount
           == if FoundUnread(old(notifications), id) then Max(0, old(unreadCount) - 1) else old(unreadCount)
      ensures old(CountsAgree()) ==> CountsAgree()
    {
      var i := FindIndex(notifications, NotificationId, id);
      if 0 <= i && !notifications[i].isRead {
        notifications := notifications[i := MarkRead(notifications[i], None)];
        unreadCount := Max(0, unreadCount - 1);
      }
      MarkedAsReadEffect(old(notifications), id, None);
      UniqueAfterRewrite(old(notifications), notifications);
    }

    /** `markAllAsRead`: every entry read, unread counter zero. */
    method MarkAllAsRead()
      modifies this`notifications, this`unreadCount
      ensures notifications == AllMarkedRead(old(notifications), None)
      ensures unreadCount == 0
      ensures old(CountsAgree()) ==> CountsAgree()
    {
      ReadEach(None);
      unreadCount := 0;
      UniqueAfterRewrite(old(notifications), notifications);
    }

    /** The `forEach` that marks each entry read in place. */
    method ReadEach(stamp: Option<string>)
      modifies this`notifications
      ensures notifications == AllMarkedRead(old(notifications), stamp)
    {
      var i := 0;
      while i < |notifications|
        invariant |notifications| == |old(notifications)|
        invariant 0 <= i <= |notifications|
        invariant forall j :: 0 <= j < i ==> notifications[j] == MarkRead(old(notifications)[j], stamp)
        invariant forall j :: i <= j < |notifications| ==> notifications[j] == old(notifications)[j]
      {
        notifications := notifications[i := MarkRead(notifications[i], stamp)];
        i := i + 1;
      }
    }

    /** `addNotification`: the payload goes first, the totals grow by one, and
        the unread counter grows only for an unread payload. */
    method AddNotification(n: Notification)
      modifies this`notifications, this`unreadCount, this`totalCount
      ensures notifications == [n] + old(notifications)
      ensures unreadCount == old(unreadCount) + (if n.isRead then 0 else 1)
      ensures totalCount == old(totalCount) + 1
      ensures old(CountsAgree()) && FirstIndex(old(notifications), NotificationId, n.id) < 0 ==> CountsAgree()
    {
      notifications := [n] + notifications;
      if !n.isRead {
        unreadCount := unreadCount + 1;
      }
      totalCount := totalCount + 1;
      UnreadInConcat([n], old(notifications));
      if old(CountsAgree()) && FirstIndex(old(notifications), NotificationId, n.id) < 0 {
        UniqueAfterPrepend(n, old(notifications));
      }
    }

    /** `clearError`. */
    method ClearError()
      modifies this`error
      ensures error == None
    {
      error := None;
    }

    /** `setRealTimeConnection`. */
    method SetRealTimeConnection(connected: bool)
      modifies this`isRealTimeConnected
      ensures isRealTimeConnected == connected
    {
      isRealTimeConnected := connected;
    }

    // -------------------------------------------------------------------------
    // fetchNotifications
    // -------------------------------------------------------------------------

    method FetchPending()
      modifies this`isLoading, this`error
      ensures isLoading && error == None
    {
      isLoading := true;
      error := None;
    }

    /** The server's list and counters are copied as they are, whether or not
        they agree with each other; `error` is left as it was. */
    method FetchFulfilled(payload: NotificationsResponse)
      modifies this`isLoading, this`notifications, this`unreadCount, this`totalCount
      ensures !isLoading
      ensures notifications == payload.notifications
      ensures unreadCount == payload.unreadCount && totalCount == payload.totalCount
    {
      isLoading := false;
      notifications := payload.notifications;
      unreadCount := payload.unreadCount;
      totalCount := payload.totalCount;
    }

    method FetchRejected(message: string)
      modifies this`isLoading, this`error
      ensures !isLoading && error == Some(message)
    {
      isLoading := false;
      error := Some(message);
    }

    // -------------------------------------------------------------------------
    // markNotificationAsRead (no pending case)
    // -------------------------------------------------------------------------

    /** The server's copy of the entry names it by id and carries the new
        `updatedAt`; only an entry that is still unread here is changed. */
    method MarkAsReadFulfilled(payload: Notification)
      modifies this`notifications, this`unreadCount
      ensures notifications == MarkedAsRead(old(notifications), payload.id, Some(payload.updatedAt))
      ensures unreadCount
           == if FoundUnread(old(notifications), payload.id) then Max(0, old(unreadCount) - 1) else old(unreadCount)
      ensures old(CountsAgree()) ==> CountsAgree()
    {
      var i := FindIndex(notifications, NotificationId, payload.id);
      if 0 <= i && !notifications[i].isRead {
        notifications := notifications[i := MarkRead(notifications[i], Some(payload.updatedAt))];
        unreadCount := Max(0, unreadCount - 1);
      }
      MarkedAsReadEffect(old(notifications), payload.id, Some(payload.updatedAt));
      UniqueAfterRewrite(old(notifications), notifications);
    }

    /** Records the error only; `isLoading` is not touched. */
    method MarkAsReadRejected(message: string)
      modifies this`error
      ensures error == Some(message)
    {
      error := Some(message);
    }

    // -------------------------------------------------------------------------
    // markAllNotificationsAsRead
    // -------------------------------------------------------------------------

    method MarkAllPending()
      modifies this`isLoading, this`error
      ensures isLoading && error == None
    {
      isLoading := true;
      error := None;
    }

    /** Every entry read with `updatedAt` set to `now`, unread counter zero. */
    method MarkAllFulfilled(now: string)
      modifies this`isLoading, this`notifications, this`unreadCount
      ensures !isLoading
      ensures notifications == AllMarkedRead(old(notifications), Some(now))
      ensures unreadCount == 0
      ensures old(CountsAgree()) ==> CountsAgree()
    {
      isLoading := false;
      ReadEach(Some(now));
      unreadCount := 0;
      UniqueAfterRewrite(old(notifications), notifications);
    }

    method MarkAllRejected(message: string)
      modifies this`isLoading, this`error
      ensures !isLoading && error == Some(message)
    {
      isLoading := false;
      error := Some(message);
    }

    // -------------------------------------------------------------------------
    // deleteNotification (no pending case)
    // -------------------------------------------------------------------------

    /** Every entry with `id` is dropped; the unread counter drops (floored at
        zero) when the first such entry was unread; the total drops (floored at
        zero) even when no entry had the id. */
    method DeleteFulfilled(id: string)
      modifies this`notifications, this`unreadCount, this`totalCount
      ensures notifications == Without(old(notifications), NotificationId, id)
      ensures unreadCount
           == if FoundUnread(old(notifications), id) then Max(0, old(unreadCount) - 1) else old(unreadCount)
      ensures totalCount == Max(0, old(totalCount) - 1)
      ensures old(CountsAgree()) && 0 <= FirstIndex(old(notifications), NotificationId, id) ==> CountsAgree()
    {
      var ns, unread, total := notifications, unreadCount, totalCount;
      var i := FindIndex(notifications, NotificationId, id);
      if 0 <= i && !notifications[i].isRead {
        unreadCount := Max(0, unreadCount - 1);
      }
      notifications := Without(notifications, NotificationId, id);
      totalCount := Max(0, totalCount - 1);
      if unread == UnreadIn(ns) && total == |ns| && UniqueKeys(ns, NotificationId) && 0 <= i {
        DeletedCounts(ns, id);
      }
    }

    /** Records the error only. */
    method DeleteRejected(message: string)
      modifies this`error
      ensures error == Some(message)
    {
      error := Some(message);
    }

    // -------------------------------------------------------------------------
    // fetchUnreadCount and subscribeToRealTimeNotifications
    // -------------------------------------------------------------------------

    /** The server's count replaces the counter, whatever the list holds. */
    method UnreadCountFulfilled(count: int)
      modifies this`unreadCount
      ensures unreadCount == count
    {
      unreadCount := count;
    }

    method SubscribeFulfilled()
      modifies this`isRealTimeConnected
      ensures isRealTimeConnected
    {
      isRealTimeConnected := true;
    }

    method SubscribeRejected(message: string)
      modifies this`isRealTimeConnected, this`error
      ensures !isRealTimeConnected && error == Some(message)
    {
      isRealTimeConnected := false;
      error := Some(message);
    }
  }

  /** Ids stay unique when entries are rewritten in place without changing ids. */
  lemma UniqueAfterRewrite(a: seq<Notification>, b: seq<Notification>)
    requires |a| == |b| && forall j :: 0 <= j < |a| ==> a[j].id == b[j].id
    ensures UniqueKeys(a, NotificationId) ==> UniqueKeys(b, NotificationId)
  {
  }

  lemma UniqueAfterPrepend(n: Notification, ns: seq<Notification>)
    requires UniqueKeys(ns, NotificationId) && FirstIndex(ns, NotificationId, n.id) < 0
    ensures UniqueKeys([n] + ns, NotificationId)
  {
    var r := [n] + ns;
    forall i, j | 0 <= i < j < |r| ensures r[i].id != r[j].id {
      assert r[j] == ns[j - 1];
      if i > 0 {
        assert r[i] == ns[i - 1];
      }
    }
  }

  lemma UniqueAfterRemove(ns: seq<Notification>, i: nat)
    requires i < |ns| && UniqueKeys(ns, NotificationId)
    ensures UniqueKeys(ns[..i] + ns[i + 1..], NotificationId)
  {
    var r := ns[..i] + ns[i + 1..];
    forall a, b | 0 <= a < b < |r| ensures r[a].id != r[b].id {
      var a', b' := if a < i then a else a + 1, if b < i then b else b + 1;
      assert r[a] == ns[a'] && r[b] == ns[b'];
    }
  }
}
