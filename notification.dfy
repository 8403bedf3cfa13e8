/**
 * Notification actions. `createNotification` is called by other actions to
 * tell a user about an event and never fails; the mark operations only flip
 * `read` flags, and only on the caller's own notifications.
 */
module Notifications {
  import opened Common
  import opened Seqs
  import opened Store

  /** The `type` parameter's default. */
  function KindOrDefault(kind: Option<NotificationType>): (r: NotificationType)
    ensures kind.None? ==> r == Info
    ensures kind.Some? ==> r == kind.value
  {
    if kind.Some? then kind.value else Info
  }

  function NewNotification(id: string, userId: string, title: string, message: string,
                           kind: NotificationType, now: int): Notification {
    Notification(id, userId, title, message, kind, false, now)
  }

  /** The database accepts the row: fresh id and an existing user. */
  predicate CanInsertNotification(t: Tables, n: Notification) {
    KeyFree(t.notifications, NotificationId, n.id) && FindUser(t, n.userId).Some?
  }

  /** The store after `createNotification`: the row is added, or, when the insert fails, nothing changes. */
  function Notify(t: Tables, n: Notification): Tables {
    if CanInsertNotification(t, n) then t.(notifications := t.notifications + [n]) else t
  }

  lemma NotifyConsistent(t: Tables, n: Notification)
    requires Consistent(t)
    ensures Consistent(Notify(t, n))
  {
    if CanInsertNotification(t, n) {
      AppendUnique(t.notifications, NotificationId, n);
    }
  }

  /** `createNotification`: no session check, no reply, and a failed insert is swallowed. */
  method CreateNotification(db: Db, userId: string, title: string, message: string,
                            kind: Option<NotificationType>, newId: string, now: int)
    requires db.Valid()
    modifies db
    ensures db.Valid()
    ensures db.t == Notify(old(db.t), NewNotification(newId, userId, title, message, KindOrDefault(kind), now))
  {
    var n := NewNotification(newId, userId, title, message, KindOrDefault(kind), now);
    NotifyConsistent(db.t, n);
    if CanInsertNotification(db.t, n) {
      db.t := db.t.(notifications := db.t.notifications + [n]);
    }
  }

  // ---------------------------------------------------------------------------
  // Unread counts
  // ---------------------------------------------------------------------------

  function IsUnread(n: Notification): bool { !n.read }

  function UnreadCount(ns: seq<Notification>): nat {
    CountWhere(ns, IsUnread)
  }

  function OfUser(userId: string): Notification -> bool {
    (n: Notification) => n.userId == userId
  }

  function UnreadOf(userId: string): Notification -> bool {
    (n: Notification) => n.userId == userId && !n.read
  }

  /** A created notification is unread: the user's unread count grows by one, everyone else's stays. */
  lemma NotifyAddsUnread(t: Tables, n: Notification, userId: string)
    requires CanInsertNotification(t, n) && !n.read
    ensures CountWhere(Notify(t, n).notifications, UnreadOf(userId)) ==
      CountWhere(t.notifications, UnreadOf(userId)) + (if n.userId == userId then 1 else 0)
  {
    CountAppend(t.notifications, n, UnreadOf(userId));
  }

  // ---------------------------------------------------------------------------
  // Read flags
  // ---------------------------------------------------------------------------

  /** Sets `read` on the notifications satisfying `p`; nothing else changes. */
  function ReadWhere(ns: seq<Notification>, p: Notification -> bool): (r: seq<Notification>)
    ensures |r| == |ns|
    ensures forall i :: 0 <= i < |ns| ==> r[i] == ns[i].(read := ns[i].read || p(ns[i]))
  {
    if |ns| == 0 then [] else [ns[0].(read := ns[0].read || p(ns[0]))] + ReadWhere(ns[1..], p)
  }

  function UnreadAnd(p: Notification -> bool): Notification -> bool {
    (n: Notification) => !n.read && p(n)
  }

  /** Marking removes from the unread count exactly the unread notifications it marks. */
  lemma {:induction false} UnreadAfterMarking(ns: seq<Notification>, p: Notification -> bool)
    ensures UnreadCount(ReadWhere(ns, p)) == UnreadCount(ns) - CountWhere(ns, UnreadAnd(p))
  {
    if |ns| > 0 {
      UnreadAfterMarking(ns[1..], p);
      assert ReadWhere(ns, p)[1..] == ReadWhere(ns[1..], p);
    }
  }

  function MatchesIdOf(id: string, userId: string): Notification -> bool {
    (n: Notification) => n.id == id && n.userId == userId
  }

  /** `markNotificationAsRead` on the table: the row with that id, only if the caller owns it. */
  function MarkOneRead(ns: seq<Notification>, id: string, userId: string): (r: seq<Notification>)
    ensures |r| == |ns|
    ensures forall i :: 0 <= i < |ns| ==> r[i].id == ns[i].id && r[i].userId == ns[i].userId
    ensures forall i :: 0 <= i < |ns| ==> (r[i].read <==> ns[i].read || (ns[i].id == id && ns[i].userId == userId))
    ensures forall i :: 0 <= i < |ns| && ns[i].userId != userId ==> r[i] == ns[i]
  {
    ReadWhere(ns, MatchesIdOf(id, userId))
  }

  /** `markAllNotificationsAsRead` on the table: every unread row of the caller. */
  function MarkAllRead(ns: seq<Notification>, userId: string): (r: seq<Notification>)
    ensures |r| == |ns|
    ensures forall i :: 0 <= i < |ns| ==> r[i].id == ns[i].id && r[i].userId == ns[i].userId
    ensures forall i :: 0 <= i < |ns| && ns[i].userId == userId ==> r[i].read
    ensures forall i :: 0 <= i < |ns| && ns[i].userId != userId ==> r[i] == ns[i]
  {
    ReadWhere(ns, UnreadOf(userId))
  }

  /** After mark-all the caller has no unread notification left. */
  lemma MarkAllLeavesNoneUnread(ns: seq<Notification>, userId: string)
    ensures CountWhere(MarkAllRead(ns, userId), UnreadOf(userId)) == 0
  {
    var r := MarkAllRead(ns, userId);
    FilterNone(r, UnreadOf(userId));
  }

  lemma MarkAllIdempotent(ns: seq<Notification>, userId: string)
    ensures MarkAllRead(MarkAllRead(ns, userId), userId) == MarkAllRead(ns, userId)
  {
    var once := MarkAllRead(ns, userId);
    var twice := MarkAllRead(once, userId);
    assert forall i :: 0 <= i < |ns| ==> twice[i] == once[i];
  }

  method MarkNotificationAsRead(db: Db, session: Option<Session>, id: string)
    requires db.Valid()
    modifies db
    ensures db.Valid()
    ensures UserOf(session).None? ==> db.t == old(db.t)
    ensures UserOf(session).Some? ==>
      db.t == old(db.t).(notifications := MarkOneRead(old(db.t).notifications, id, UserOf(session).value))
  {
    var user := UserOf(session);
    if user.None? {
      return;
    }
    // with no matching row the update throws and the catch leaves the table as it was; marking nothing is the same table
    var ns := MarkOneRead(db.t.notifications, id, user.value);
    assert forall i :: 0 <= i < |ns| ==> NotificationId(ns[i]) == NotificationId(db.t.notifications[i]);
    db.t := db.t.(notifications := ns);
  }

  method MarkAllNotificationsAsRead(db: Db, session: Option<Session>)
    requires db.Valid()
    modifies db
    ensures db.Valid()
    ensures UserOf(session).None? ==> db.t == old(db.t)
    ensures UserOf(session).Some? ==>
      db.t == old(db.t).(notifications := MarkAllRead(old(db.t).notifications, UserOf(session).value))
  {
    var user := UserOf(session);
    if user.None? {
      return;
    }
    var ns := MarkAllRead(db.t.notifications, user.value);
    assert forall i :: 0 <= i < |ns| ==> NotificationId(ns[i]) == NotificationId(db.t.notifications[i]);
    db.t := db.t.(notifications := ns);
  }

  // ---------------------------------------------------------------------------
  // getUserNotifications
  // ---------------------------------------------------------------------------

  function NotificationCreatedAt(n: Notification): int { n.createdAt }

  /** The page size of `getUserNotifications`. */
  const PageSize := 20

  /** The caller's notifications, newest first, at most `PageSize` of them. */
  function GetUserNotifications(t: Tables, session: Option<Session>): (r: seq<Notification>)
    ensures UserOf(session).None? ==> r == []
    ensures UserOf(session).Some? ==> |r| == Min(PageSize, CountWhere(t.notifications, OfUser(UserOf(session).value)))
    ensures UserOf(session).Some? ==> multiset(r) <= multiset(Filter(t.notifications, OfUser(UserOf(session).value)))
    ensures forall i :: 0 <= i < |r| ==> r[i] in t.notifications && Some(r[i].userId) == UserOf(session)
    ensures forall i, j :: 0 <= i < j < |r| ==> r[i].createdAt >= r[j].createdAt
  {
    match UserOf(session)
    case None => []
    case Some(uid) => Latest(t.notifications, OfUser(uid), NotificationCreatedAt, PageSize)
  }

  /** A notification of the caller left off the page is no newer than every one on it. */
  lemma GetUserNotificationsNewest(t: Tables, session: Option<Session>, k: nat)
    requires UserOf(session).Some? && k < |t.notifications| && t.notifications[k].userId == UserOf(session).value
    requires t.notifications[k] !in GetUserNotifications(t, session)
    ensures |GetUserNotifications(t, session)| == PageSize
    ensures forall i :: 0 <= i < PageSize ==> GetUserNotifications(t, session)[i].createdAt >= t.notifications[k].createdAt
  {
    LatestNewest(t.notifications, OfUser(UserOf(session).value), NotificationCreatedAt, PageSize, t.notifications[k]);
  }
}
