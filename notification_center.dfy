/**
 * The notification bell: it keeps the fetched notifications and a separate
 * unread counter, and updates both optimistically after each server call.
 */
module NotificationCenterUi {
  import opened Common
  import opened Seqs
  import opened Store
  import opened Notifications

  function HasId(id: string): Notification -> bool {
    (n: Notification) => n.id == id
  }

  function Always(): Notification -> bool {
    (n: Notification) => true
  }

  /** The optimistic counter update of the click handler: one less, never below zero. */
  function DecrementClamped(count: int): (r: int)
    ensures r >= 0
    ensures count >= 1 ==> r == count - 1
    ensures count <= 0 ==> r == 0
  {
    if count - 1 < 0 then 0 else count - 1
  }

  /**
   * Clicking an already-read notification still lowers the counter: with one
   * unread and one read notification, clicking the read one leaves the counter
   * at 0 while one notification is still unread.
   */
  lemma MarkAsReadMiscounts()
    ensures var a := Notification("a", "u", "Payment Received", "paid", Success, false, 2);
      var b := Notification("b", "u", "Maintenance Update", "done", Info, true, 1);
      var ns := [a, b];
      UnreadCount(ns) == 1 &&
      DecrementClamped(UnreadCount(ns)) == 0 &&
      UnreadCount(ReadWhere(ns, HasId("b"))) == 1
  {
    var a := Notification("a", "u", "Payment Received", "paid", Success, false, 2);
    var b := Notification("b", "u", "Maintenance Update", "done", Info, true, 1);
    var ns := [a, b];
    var after := ReadWhere(ns, HasId("b"));
    assert after == [a, b];
    assert Filter(ns, IsUnread) == [a] by {
      assert ns[1..] == [b];
      assert [b][1..] == [];
    }
  }

  class NotificationCenter {
    var notifications: seq<Notification>
    var unreadCount: int

    /** The counter agrees with the list. */
    predicate Valid()
      reads this
    {
      unreadCount == UnreadCount(notifications)
    }

    /** Whether the red dot and the "Mark all read" button are shown. */
    predicate ShowsUnread()
      reads this
    {
      unreadCount > 0
    }

    constructor ()
      ensures notifications == [] && unreadCount == 0
      ensures Valid() && !ShowsUnread()
    {
      notifications := [];
      unreadCount := 0;
    }

    /** `fetchNotifications`: replaces the list and recounts. */
    method FetchNotifications(db: Db, session: Option<Session>)
      modifies this
      ensures notifications == GetUserNotifications(db.t, session)
      ensures unreadCount == UnreadCount(notifications)
      ensures Valid()
    {
      var data := GetUserNotifications(db.t, session);
      notifications := data;
      unreadCount := UnreadCount(data);
    }

    /** `handleMarkAsRead` as written: the counter drops by one whether or not the notification was unread. */
    method HandleMarkAsRead(db: Db, session: Option<Session>, id: string)
      requires db.Valid()
      modifies this, db
      ensures db.Valid()
      ensures UserOf(session).None? ==> db.t == old(db.t)
      ensures UserOf(session).Some? ==>
        db.t == old(db.t).(notifications := MarkOneRead(old(db.t).notifications, id, UserOf(session).value))
      ensures notifications == ReadWhere(old(notifications), HasId(id))
      ensures unreadCount == DecrementClamped(old(unreadCount))
    {
      MarkNotificationAsRead(db, session, id);
      notifications := ReadWhere(notifications, HasId(id));
      unreadCount := DecrementClamped(unreadCount);
    }

    /** `handleMarkAsRead` lowering the counter only by the unread notifications the click marks. */
    method HandleMarkAsReadCorrected(db: Db, session: Option<Session>, id: string)
      requires db.Valid()
      modifies this, db
      ensures db.Valid()
      ensures UserOf(session).None? ==> db.t == old(db.t)
      ensures UserOf(session).Some? ==>
        db.t == old(db.t).(notifications := MarkOneRead(old(db.t).notifications, id, UserOf(session).value))
      ensures notifications == ReadWhere(old(notifications), HasId(id))
      ensures old(Valid()) ==> Valid()
    {
      MarkNotificationAsRead(db, session, id);
      var marked := CountWhere(notifications, UnreadAnd(HasId(id)));
      UnreadAfterMarking(notifications, HasId(id));
      notifications := ReadWhere(notifications, HasId(id));
      unreadCount := unreadCount - marked;
    }

    /** `handleMarkAllRead`: everything read, counter zero. */
    method HandleMarkAllRead(db: Db, session: Option<Session>)
      requires db.Valid()
      modifies this, db
      ensures db.Valid()
      ensures UserOf(session).None? ==> db.t == old(db.t)
      ensures UserOf(session).Some? ==>
        db.t == old(db.t).(notifications := MarkAllRead(old(db.t).notifications, UserOf(session).value))
      ensures notifications == ReadWhere(old(notifications), Always())
      ensures forall i :: 0 <= i < |notifications| ==> notifications[i].read
      ensures unreadCount == 0 && Valid() && !ShowsUnread()
    {
      MarkAllNotificationsAsRead(db, session);
      notifications := ReadWhere(notifications, Always());
      unreadCount := 0;
      FilterNone(notifications, IsUnread);
    }
  }

  /** Clicking a notification that is already read leaves the unread count as it was. */
  lemma {:induction false} MarkingReadOneKeepsCount(ns: seq<Notification>, id: string)
    requires forall i :: 0 <= i < |ns| && ns[i].id == id ==> ns[i].read
    ensures UnreadCount(ReadWhere(ns, HasId(id))) == UnreadCount(ns)
  {
    UnreadAfterMarking(ns, HasId(id));
    FilterNone(ns, UnreadAnd(HasId(id)));
  }
}
