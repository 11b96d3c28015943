/** `components/NotificationsPanel.tsx`: the slide-in list of notifications. The only change
    the panel ever makes is "Mark all as read"; no notification is added or removed, so the
    "No new notifications" message for an empty list can never appear. */
module NotificationsPanel {
  import Seqs

  datatype Notification = Notification(id: int, kind: string, title: string, message: string,
                                       time: string, read: bool)

  const INITIAL_NOTIFICATIONS: seq<Notification> := [
    Notification(1, "info", "System Update", "Coursue dashboard has been updated to v2.0", "2m ago", false),
    Notification(2, "success", "Course Completed", "You successfully finished \"UI Design Basics\"", "1h ago", false),
    Notification(3, "message", "New Mentor Reply", "Jason Ranti replied to your comment", "3h ago", true)
  ]

  /** `markAllRead`: every notification is kept in place with only its flag set. */
  function MarkedAllRead(ns: seq<Notification>): (r: seq<Notification>)
    ensures |r| == |ns|
    ensures forall i :: 0 <= i < |r| ==> r[i].read && r[i] == ns[i].(read := true)
  {
    seq(|ns|, i requires 0 <= i < |ns| => ns[i].(read := true))
  }

  /** A notification drawn with the unread dot. */
  predicate IsUnread(n: Notification) {
    !n.read
  }

  /** How many notifications still carry the unread dot: the length of the list filtered
      to the unread ones. */
  function UnreadCount(ns: seq<Notification>): (n: nat)
    ensures n == |Seqs.Filter(ns, IsUnread)|
    ensures n <= |ns|
  {
    if ns == [] then 0 else (if ns[0].read then 0 else 1) + UnreadCount(ns[1..])
  }

  /** The unread dot shows on no notification exactly when the count is zero. */
  lemma {:induction false} UnreadCountZeroIff(ns: seq<Notification>)
    ensures UnreadCount(ns) == 0 <==> forall i :: 0 <= i < |ns| ==> ns[i].read
  {
    if ns != [] {
      UnreadCountZeroIff(ns[1..]);
      assert forall i :: 1 <= i < |ns| ==> ns[i] == ns[1..][i - 1];
    }
  }

  /** After "Mark all as read" no dot is left, and pressing it again changes nothing. */
  lemma MarkAllReadClearsAndIsIdempotent(ns: seq<Notification>)
    ensures UnreadCount(MarkedAllRead(ns)) == 0
    ensures MarkedAllRead(MarkedAllRead(ns)) == MarkedAllRead(ns)
  {
    UnreadCountZeroIff(MarkedAllRead(ns));
  }

  /** Two of the initial three are unread. */
  lemma InitialUnread()
    ensures UnreadCount(INITIAL_NOTIFICATIONS) == 2
  {
  }

  class Panel {
    var notifications: seq<Notification>

    /** The list keeps the initial notifications' identities and texts. */
    ghost predicate Valid()
      reads this
    {
      |notifications| == |INITIAL_NOTIFICATIONS| &&
      forall i :: 0 <= i < |notifications| ==> notifications[i].(read := true) == INITIAL_NOTIFICATIONS[i].(read := true)
    }

    /** `notifications.length === 0` selects the empty-list message. */
    predicate ShowsEmptyMessage()
      reads this
    {
      |notifications| == 0
    }

    constructor ()
      ensures Valid() && notifications == INITIAL_NOTIFICATIONS
    {
      notifications := INITIAL_NOTIFICATIONS;
    }

    method MarkAllRead()
      requires Valid()
      modifies this
      ensures Valid() && notifications == MarkedAllRead(old(notifications))
    {
      notifications := MarkedAllRead(notifications);
    }
  }

  /** In every reachable state the list is non-empty. */
  lemma NeverEmpty(p: Panel)
    requires p.Valid()
    ensures !p.ShowsEmptyMessage()
  {
  }
}
