/**
 * The in-app notification list: notifications pushed in order, marked read
 * one id at a time, and the count of those still unread.
 *
 * The generated id and the creation time are parameters.
 */
module NotificationContext {
  import opened Wrappers
  import opened Seqs

  datatype Level = Info | Success | Warning | Error

  datatype AppNotification = AppNotification(id: string, level: Level, message: string, createdAt: string, read: Option<bool>)

  /** `!n.read` is false only for a notification whose flag is `true`. */
  predicate IsRead(n: AppNotification)
  {
    n.read == Some(true)
  }

  predicate IsUnread(n: AppNotification)
  {
    !IsRead(n)
  }

  /** `unread`: the number of notifications not yet read. */
  function UnreadCount(list: seq<AppNotification>): (c: nat)
    ensures c <= |list|
  {
    |Filter(list, IsUnread)|
  }

  /** The count is zero exactly when every notification is read. */
  lemma NoneUnreadIffAllRead(list: seq<AppNotification>)
    ensures UnreadCount(list) == 0 <==> forall n :: n in list ==> IsRead(n)
  {
    var f := Filter(list, IsUnread);
    if exists n :: n in list && !IsRead(n) {
      var n :| n in list && !IsRead(n);
      assert n in f;
    }
    NoMembersEmpty(f);
  }

  function MarkOne(n: AppNotification, id: string): AppNotification
  {
    if n.id == id then n.(read := Some(true)) else n
  }

  /** `markRead`: every notification with the id becomes read; nothing else changes. */
  function MarkedRead(list: seq<AppNotification>, id: string): (r: seq<AppNotification>)
    ensures |r| == |list|
    ensures forall i :: 0 <= i < |list| && list[i].id != id ==> r[i] == list[i]
    ensures forall i :: 0 <= i < |list| && list[i].id == id ==> r[i] == list[i].(read := Some(true))
  {
    Map(list, Marker(id))
  }

  function Marker(id: string): AppNotification -> AppNotification
  {
    (n: AppNotification) => MarkOne(n, id)
  }

  /** The notifications with the id that are still unread. */
  function UnreadWithId(id: string): AppNotification -> bool
  {
    (n: AppNotification) => n.id == id && IsUnread(n)
  }

  /** Marking the same id read twice is the same as once. */
  lemma MarkReadIdempotent(list: seq<AppNotification>, id: string)
    ensures MarkedRead(MarkedRead(list, id), id) == MarkedRead(list, id)
  {
  }

  /** After marking, nothing with that id is unread. */
  lemma MarkedIdsRead(list: seq<AppNotification>, id: string)
    ensures forall n :: n in MarkedRead(list, id) && n.id == id ==> IsRead(n)
  {
  }

  /** A pushed notification adds one to the count unless it arrives already read. */
  lemma PushCount(list: seq<AppNotification>, n: AppNotification)
    ensures UnreadCount(list + [n]) == UnreadCount(list) + (if IsRead(n) then 0 else 1)
  {
    FilterSnoc(list, n, IsUnread);
  }

  /** Marking read lowers the count by the number of unread notifications with that id. */
  lemma {:induction false} MarkReadCount(list: seq<AppNotification>, id: string)
    ensures UnreadCount(MarkedRead(list, id)) == UnreadCount(list) - |Filter(list, UnreadWithId(id))|
  {
    if list != [] {
      var init := list[..|list| - 1];
      var last := list[|list| - 1];
      MarkReadCount(init, id);
      assert list == init + [last];
      MarkReadStep(init, last, id);
    }
  }

  /** The three counts of `MarkReadCount` for one more notification. */
  lemma MarkReadStep(init: seq<AppNotification>, last: AppNotification, id: string)
    ensures UnreadCount(MarkedRead(init + [last], id)) == UnreadCount(MarkedRead(init, id)) + (if IsRead(MarkOne(last, id)) then 0 else 1)
    ensures UnreadCount(init + [last]) == UnreadCount(init) + (if IsRead(last) then 0 else 1)
    ensures |Filter(init + [last], UnreadWithId(id))| == |Filter(init, UnreadWithId(id))| + (if last.id == id && IsUnread(last) then 1 else 0)
  {
    MapSnoc(init, last, Marker(id));
    PushCount(init, last);
    PushCount(MarkedRead(init, id), MarkOne(last, id));
    FilterSnoc(init, last, UnreadWithId(id));
  }

  class Provider {
    var notifications: seq<AppNotification>

    constructor()
      ensures notifications == []
    {
      notifications := [];
    }

    function Unread(): (c: nat)
      reads this
      ensures c <= |notifications|
      ensures c == 0 <==> forall n :: n in notifications ==> IsRead(n)
    {
      NoneUnreadIffAllRead(notifications);
      UnreadCount(notifications)
    }

    /** `push`: appended at the end with the generated id and time. */
    method Push(level: Level, message: string, read: Option<bool>, id: string, createdAt: string)
      modifies this
      ensures notifications == old(notifications) + [AppNotification(id, level, message, createdAt, read)]
      ensures Unread() == old(Unread()) + (if read == Some(true) then 0 else 1)
    {
      PushCount(notifications, AppNotification(id, level, message, createdAt, read));
      notifications := notifications + [AppNotification(id, level, message, createdAt, read)];
    }

    method MarkRead(id: string)
      modifies this
      ensures notifications == MarkedRead(old(notifications), id)
      ensures Unread() <= old(Unread())
    {
      MarkReadCount(notifications, id);
      notifications := MarkedRead(notifications, id);
    }

    /** The browser going offline posts a warning. */
    method WentOffline(id: string, createdAt: string)
      modifies this
      ensures notifications == old(notifications) + [AppNotification(id, Warning, "You are offline", createdAt, None)]
      ensures Unread() == old(Unread()) + 1
    {
      Push(Warning, "You are offline", None, id, createdAt);
    }

    /** The browser coming back online posts a success. */
    method CameOnline(id: string, createdAt: string)
      modifies this
      ensures notifications == old(notifications) + [AppNotification(id, Success, "Back online", createdAt, None)]
      ensures Unread() == old(Unread()) + 1
    {
      Push(Success, "Back online", None, id, createdAt);
    }
  }
}
