/**
 * The bell-and-panel variant of the unread feed in
 * src/components/NotificationCenter.tsx. It shares the list operations of
 * `LiveFeed`, but its counter comes from a separate count query, its
 * mark-as-read updates the list whatever the durable write did (that write,
 * `markNotificationAsRead` in src/lib/notifications.ts, swallows every
 * error), and mark-all issues one durable write per unread id.
 */
module NotificationCenter {
  import opened Common
  import opened Text
  import opened Notifications
  import opened LiveFeed

  /** The badge on the bell: hidden at 0 or below, the count for 1 to 9, "9+" above. */
  function BadgeLabel(count: int): (badge: Option<string>)
    ensures badge.None? <==> count <= 0
    ensures count > 9 ==> badge == Some("9+")
    ensures 1 <= count <= 9 ==> badge.Some? && |badge.value| == 1 && IsDigit(badge.value[0])
  {
    if count <= 0 then None
    else if count > 9 then Some("9+")
    else Some(NatToString(count))
  }

  /** A shown numeral reads back as the count: the badge tells 1 to 9 apart. */
  lemma BadgeShowsCount(count: int)
    requires 1 <= count <= 9
    ensures BadgeLabel(count).Some? && ParseNat(BadgeLabel(count).value) == count
  {
    ParseNatToString(count);
  }

  /** Two counts with the same badge are equal or both above 9, or both hidden. */
  lemma BadgeDistinguishes(m: int, n: int)
    requires BadgeLabel(m) == BadgeLabel(n)
    ensures m == n || (m > 9 && n > 9) || (m <= 0 && n <= 0)
  {
    if 1 <= m <= 9 && 1 <= n <= 9 {
      NatToStringInjective(m, n);
    }
  }

  /** `handleMarkAsRead`: the durable write's outcome is ignored. */
  function CenterMarkAsRead(f: Feed, id: string): (r: Feed)
    ensures r == AfterMarkAsRead(f, id, true)
    ensures f.unreadCount >= 0 ==> r.unreadCount >= 0
  {
    Feed(MarkRead(f.items, id), Decrement(f.unreadCount))
  }

  /** `handleMarkAllAsRead`, signed in: every entry read and the counter 0, even with nothing unread. */
  function CenterMarkAll(f: Feed): (r: Feed)
    ensures r.items == AllRead(f.items)
    ensures Synced(r) && r.unreadCount == 0 && |r.items| == |f.items|
    ensures Flipped(f.items, r.items) == CountUnread(f.items)
  {
    CountAllRead(f.items);
    MarkAllFlipsUnread(f.items);
    Feed(AllRead(f.items), 0)
  }

  /** The panel's state; `writes` records the ids sent to the durable mark-as-read, in order. */
  class Center {
    var notifications: seq<Notification>
    var unreadCount: int
    var writes: seq<string>

    ghost predicate Valid()
      reads this
    {
      unreadCount >= 0
    }

    function State(): Feed
      reads this
    {
      Feed(notifications, unreadCount)
    }

    constructor ()
      ensures Valid() && State() == Feed([], 0) && writes == []
    {
      notifications := [];
      unreadCount := 0;
      writes := [];
    }

    /** `fetchNotifications`: the list only; the counter is left to the count query. */
    method FetchNotifications(signedIn: bool, outcome: FetchOutcome)
      requires Valid()
      modifies this`notifications
      ensures Valid()
      ensures notifications == if signedIn && outcome.Fetched? then outcome.rows.GetOr([]) else old(notifications)
    {
      if !signedIn {
        return;
      }
      match outcome {
        case FetchFailed =>
        case Fetched(rows) => notifications := rows.GetOr([]);
      }
    }

    /** `fetchUnreadCount`: the counter from the store's count, `count || 0`, whatever the list holds. */
    method FetchUnreadCount(signedIn: bool, q: CountQuery)
      requires Valid()
      modifies this`unreadCount
      ensures Valid()
      ensures unreadCount == if signedIn then UnreadCountOf(q) else old(unreadCount)
    {
      if signedIn {
        unreadCount := UnreadCountOf(q);
      }
    }

    method HandleInsert(n: Notification)
      requires Valid()
      modifies this`notifications, this`unreadCount
      ensures Valid() && State() == OnInsert(old(State()), n)
    {
      notifications := [n] + notifications;
      unreadCount := unreadCount + 1;
    }

    method HandleMarkAsRead(id: string)
      requires Valid()
      modifies this
      ensures Valid()
      ensures State() == CenterMarkAsRead(old(State()), id)
      ensures writes == old(writes) + [id]
    {
      writes := writes + [id];
      notifications := MarkRead(notifications, id);
      unreadCount := Decrement(unreadCount);
    }

    /** One durable write per unread id, in list order, then everything read and the counter 0. */
    method HandleMarkAllAsRead(signedIn: bool)
      requires Valid()
      modifies this
      ensures Valid()
      ensures !signedIn ==> State() == old(State()) && writes == old(writes)
      ensures signedIn ==> State() == CenterMarkAll(old(State()))
      ensures signedIn ==> writes == old(writes) + UnreadIds(old(notifications))
    {
      if !signedIn {
        return;
      }
      var unreadIds := UnreadIds(notifications);
      var i := 0;
      while i < |unreadIds|
        invariant 0 <= i <= |unreadIds|
        invariant writes == old(writes) + unreadIds[..i]
        invariant notifications == old(notifications) && unreadCount == old(unreadCount)
      {
        writes := writes + [unreadIds[i]];
        i := i + 1;
      }
      assert unreadIds[..i] == unreadIds;
      notifications := AllRead(notifications);
      unreadCount := 0;
    }
  }
}
