/**
 * The live unread feed of src/hooks/useNotifications.ts: an ordered list of
 * notifications (newest first) and an `unreadCount` that the handlers update
 * on their own. The counter is floored at zero, but it is not tied to the
 * list: it is set from the list only by a fetch and by mark-all, and an
 * UPDATE event or a mark-as-read decrements it without looking at whether
 * the entry was unread. The lemmas below say when the two stay in step and
 * give inputs on which they drift apart.
 */
module LiveFeed {
  import opened Common
  import opened Notifications

  /** A notification as the feed holds it. */
  datatype Notification = Notification(
    id: string,
    kind: RecordType,
    title: string,
    message: string,
    read: bool,
    createdAt: string,
    reportId: Option<string>)

  /** The hook's state: the list and the counter. */
  datatype Feed = Feed(items: seq<Notification>, unreadCount: int)

  function Unread(n: Notification): nat {
    if n.read then 0 else 1
  }

  function CountUnread(items: seq<Notification>): (c: nat)
    ensures c <= |items|
  {
    if items == [] then 0 else Unread(items[0]) + CountUnread(items[1..])
  }

  /** The counter agrees with the list. */
  predicate Synced(f: Feed) {
    f.unreadCount == CountUnread(f.items)
  }

  predicate UniqueIds(items: seq<Notification>) {
    forall i, j :: 0 <= i < j < |items| ==> items[i].id != items[j].id
  }

  /** `Math.max(0, c - 1)`. */
  function Decrement(c: int): (r: int)
    ensures r >= 0
    ensures c >= 1 ==> r == c - 1
    ensures c < 1 ==> r == 0
  {
    if c - 1 > 0 then c - 1 else 0
  }

  /** Every entry with id `id` marked read; the rest untouched. */
  function MarkRead(items: seq<Notification>, id: string): (r: seq<Notification>)
    ensures |r| == |items|
    ensures forall i :: 0 <= i < |items| ==> r[i] == if items[i].id == id then items[i].(read := true) else items[i]
  {
    seq(|items|, i requires 0 <= i < |items| => if items[i].id == id then items[i].(read := true) else items[i])
  }

  /** Every entry with the id of `n` replaced by `n`; the rest untouched. */
  function ReplaceById(items: seq<Notification>, n: Notification): (r: seq<Notification>)
    ensures |r| == |items|
    ensures forall i :: 0 <= i < |items| ==> r[i] == if items[i].id == n.id then n else items[i]
  {
    seq(|items|, i requires 0 <= i < |items| => if items[i].id == n.id then n else items[i])
  }

  function AllRead(items: seq<Notification>): (r: seq<Notification>)
    ensures |r| == |items|
    ensures forall i :: 0 <= i < |items| ==> r[i] == items[i].(read := true)
  {
    seq(|items|, i requires 0 <= i < |items| => items[i].(read := true))
  }

  /** `items.filter(n => !n.read).map(n => n.id)`. */
  function UnreadIds(items: seq<Notification>): (ids: seq<string>)
    ensures |ids| == CountUnread(items)
  {
    if items == [] then []
    else (if items[0].read then [] else [items[0].id]) + UnreadIds(items[1..])
  }

  /** Every id in `ids` is the id of an unread entry of `items`. */
  predicate IdsOfUnread(items: seq<Notification>, ids: seq<string>) {
    forall k :: 0 <= k < |ids| ==> exists i :: 0 <= i < |items| && !items[i].read && items[i].id == ids[k]
  }

  /** Every id listed is the id of an unread entry. */
  lemma {:induction false} UnreadIdsFromUnread(items: seq<Notification>)
    ensures IdsOfUnread(items, UnreadIds(items))
  {
    if items != [] {
      var ids := UnreadIds(items);
      var tail := items[1..];
      var rest := UnreadIds(tail);
      UnreadIdsFromUnread(tail);
      var head: seq<string> := if items[0].read then [] else [items[0].id];
      assert ids == head + rest;
      forall k | 0 <= k < |ids| ensures exists i :: 0 <= i < |items| && !items[i].read && items[i].id == ids[k] {
        if k < |head| {
          assert !items[0].read && items[0].id == ids[k];
        } else {
          var j := k - |head|;
          assert 0 <= j < |rest| && ids[k] == rest[j];
          var i :| 0 <= i < |tail| && !tail[i].read && tail[i].id == rest[j];
          assert items[i + 1] == tail[i];
        }
      }
    }
  }

  /**
   * The ids come out in list order: the list splits into pieces whose ids
   * concatenate, and a single entry gives its id exactly when it is unread.
   */
  lemma {:induction false} UnreadIdsAppend(a: seq<Notification>, b: seq<Notification>)
    ensures UnreadIds(a + b) == UnreadIds(a) + UnreadIds(b)
  {
    if a == [] {
      assert a + b == b;
    } else {
      var c := a + b;
      assert c[0] == a[0] && c[1..] == a[1..] + b;
      UnreadIdsAppend(a[1..], b);
      var head: seq<string> := if a[0].read then [] else [a[0].id];
      assert UnreadIds(c) == head + UnreadIds(a[1..] + b);
      assert UnreadIds(a) == head + UnreadIds(a[1..]);
      assert head + (UnreadIds(a[1..]) + UnreadIds(b)) == (head + UnreadIds(a[1..])) + UnreadIds(b);
    }
  }

  /** `items.filter(n => n.id !== id)`. */
  function RemoveId(items: seq<Notification>, id: string): (r: seq<Notification>)
    ensures |r| <= |items|
  {
    if items == [] then []
    else (if items[0].id == id then [] else [items[0]]) + RemoveId(items[1..], id)
  }

  /** Exactly the entries with the id go: each other entry is kept as often as it occurred. */
  lemma {:induction false} RemoveIdCounts(items: seq<Notification>, id: string)
    ensures forall x :: multiset(RemoveId(items, id))[x] == if x.id == id then 0 else multiset(items)[x]
  {
    if items != [] {
      RemoveIdCounts(items[1..], id);
      assert items == [items[0]] + items[1..];
      var head := if items[0].id == id then [] else [items[0]];
      assert RemoveId(items, id) == head + RemoveId(items[1..], id);
    }
  }

  /** An entry is kept exactly when it was there and has another id. */
  lemma RemoveIdMembers(items: seq<Notification>, id: string)
    ensures forall x :: x in RemoveId(items, id) <==> x in items && x.id != id
  {
    var r := RemoveId(items, id);
    RemoveIdCounts(items, id);
    forall x ensures x in r <==> x in items && x.id != id {
      assert x in r <==> multiset(r)[x] > 0;
      assert x in items <==> multiset(items)[x] > 0;
    }
  }

  /** The kept entries stay in their order: removal distributes over concatenation. */
  lemma {:induction false} RemoveIdAppend(a: seq<Notification>, b: seq<Notification>, id: string)
    ensures RemoveId(a + b, id) == RemoveId(a, id) + RemoveId(b, id)
  {
    if a == [] {
      assert a + b == b;
    } else {
      var c := a + b;
      assert c[0] == a[0] && c[1..] == a[1..] + b;
      RemoveIdAppend(a[1..], b, id);
      var head := if a[0].id == id then [] else [a[0]];
      assert RemoveId(c, id) == head + RemoveId(a[1..] + b, id);
      assert RemoveId(a, id) == head + RemoveId(a[1..], id);
      assert head + (RemoveId(a[1..], id) + RemoveId(b, id)) == (head + RemoveId(a[1..], id)) + RemoveId(b, id);
    }
  }

  /** `items.find(n => n.id === id)`. */
  function FindById(items: seq<Notification>, id: string): (r: Option<Notification>)
    ensures r.Some? ==> r.value in items && r.value.id == id
    ensures r.None? ==> forall x :: x in items ==> x.id != id
  {
    if items == [] then None
    else if items[0].id == id then Some(items[0])
    else FindById(items[1..], id)
  }

  /** `find` returns the first entry with the id, not any later one. */
  lemma {:induction false} FindByIdFirst(items: seq<Notification>, id: string, i: nat)
    requires i < |items| && items[i].id == id
    requires forall k :: 0 <= k < i ==> items[k].id != id
    ensures FindById(items, id) == Some(items[i])
  {
    if i > 0 {
      FindByIdFirst(items[1..], id, i - 1);
    }
  }

  datatype FetchOutcome = Fetched(rows: Option<seq<Notification>>) | FetchFailed

  /** `fetchNotifications`: the rows replace the list and the counter is recomputed from them. */
  function AfterFetch(f: Feed, outcome: FetchOutcome): (r: Feed)
    ensures outcome.FetchFailed? ==> r == f
    ensures outcome.Fetched? ==> r.items == outcome.rows.GetOr([]) && r.unreadCount >= 0
  {
    match outcome
    case FetchFailed => f
    case Fetched(rows) => var items := rows.GetOr([]); Feed(items, CountUnread(items))
  }

  /** The INSERT handler: the new record in front, everything else in order, the counter up by one. */
  function OnInsert(f: Feed, n: Notification): (r: Feed)
    ensures r.items == [n] + f.items && r.items[1..] == f.items
    ensures r.unreadCount == f.unreadCount + 1
  {
    Feed([n] + f.items, f.unreadCount + 1)
  }

  /** The UPDATE handler: a read record decrements the counter whatever the entry was before. */
  function OnUpdate(f: Feed, n: Notification): (r: Feed)
    ensures r.items == ReplaceById(f.items, n)
    ensures r.unreadCount == if n.read then Decrement(f.unreadCount) else f.unreadCount
  {
    Feed(ReplaceById(f.items, n), if n.read then Decrement(f.unreadCount) else f.unreadCount)
  }

  /** `markAsRead`: nothing on a store error; otherwise the id becomes read and the counter drops by one, floored. */
  function AfterMarkAsRead(f: Feed, id: string, storeOk: bool): (r: Feed)
    ensures !storeOk ==> r == f
    ensures storeOk ==> r.items == MarkRead(f.items, id) && r.unreadCount == Decrement(f.unreadCount)
  {
    if storeOk then Feed(MarkRead(f.items, id), Decrement(f.unreadCount)) else f
  }

  /** `markAllAsRead`: a no-op signed out or with nothing unread; on success all read and the counter 0. */
  function AfterMarkAllAsRead(f: Feed, signedIn: bool, storeOk: bool): (r: Feed)
    ensures !signedIn || CountUnread(f.items) == 0 || !storeOk ==> r == f
    ensures signedIn && CountUnread(f.items) > 0 && storeOk ==> r == Feed(AllRead(f.items), 0)
  {
    if !signedIn || |UnreadIds(f.items)| == 0 || !storeOk then f
    else Feed(AllRead(f.items), 0)
  }

  /** `deleteNotification`: the entries with the id go; the counter drops only if the entry found was unread. */
  function AfterDelete(f: Feed, id: string, storeOk: bool): (r: Feed)
    ensures !storeOk ==> r == f
    ensures storeOk ==> r.items == RemoveId(f.items, id)
    ensures storeOk ==> (r.unreadCount ==
      match FindById(f.items, id)
      case Some(n) => if n.read then f.unreadCount else Decrement(f.unreadCount)
      case None => f.unreadCount)
  {
    if !storeOk then f
    else
      var found := FindById(f.items, id);
      Feed(RemoveId(f.items, id),
           if found.Some? && !found.value.read then Decrement(f.unreadCount) else f.unreadCount)
  }

  // ---------------------------------------------------------------------------
  // The counter never goes negative.

  lemma NeverNegative(f: Feed, n: Notification, id: string, outcome: FetchOutcome, signedIn: bool, ok: bool)
    requires f.unreadCount >= 0
    ensures AfterFetch(f, outcome).unreadCount >= 0
    ensures OnInsert(f, n).unreadCount >= 0
    ensures OnUpdate(f, n).unreadCount >= 0
    ensures AfterMarkAsRead(f, id, ok).unreadCount >= 0
    ensures AfterMarkAllAsRead(f, signedIn, ok).unreadCount >= 0
    ensures AfterDelete(f, id, ok).unreadCount >= 0
  {
  }

  // ---------------------------------------------------------------------------
  // Counting facts.

  lemma {:induction false} CountUnreadSet(items: seq<Notification>, i: nat, n: Notification)
    requires i < |items|
    ensures CountUnread(items[i := n]) == CountUnread(items) - Unread(items[i]) + Unread(n)
  {
    if i > 0 {
      CountUnreadSet(items[1..], i - 1, n);
      assert items[i := n][1..] == items[1..][i - 1 := n];
    }
  }

  lemma {:induction false} CountAllRead(items: seq<Notification>)
    ensures CountUnread(AllRead(items)) == 0
  {
    if items != [] {
      assert AllRead(items)[1..] == AllRead(items[1..]);
      CountAllRead(items[1..]);
    }
  }

  /** How many entries went from unread to read between two lists of the same length. */
  function Flipped(before: seq<Notification>, after: seq<Notification>): nat
    requires |before| == |after|
  {
    if before == [] then 0
    else (if !before[0].read && after[0].read then 1 else 0) + Flipped(before[1..], after[1..])
  }

  /** Mark-all flips exactly the entries that were unread. */
  lemma {:induction false} MarkAllFlipsUnread(items: seq<Notification>)
    ensures Flipped(items, AllRead(items)) == CountUnread(items)
  {
    if items != [] {
      assert AllRead(items)[1..] == AllRead(items[1..]);
      MarkAllFlipsUnread(items[1..]);
    }
  }

  lemma MarkReadAt(items: seq<Notification>, i: nat)
    requires UniqueIds(items) && i < |items|
    ensures MarkRead(items, items[i].id) == items[i := items[i].(read := true)]
  {
  }

  lemma ReplaceAt(items: seq<Notification>, i: nat, n: Notification)
    requires UniqueIds(items) && i < |items| && items[i].id == n.id
    ensures ReplaceById(items, n) == items[i := n]
  {
  }

  lemma {:induction false} RemoveAbsent(items: seq<Notification>, id: string)
    requires forall k :: 0 <= k < |items| ==> items[k].id != id
    ensures RemoveId(items, id) == items
  {
    if items != [] {
      RemoveAbsent(items[1..], id);
    }
  }

  lemma {:induction false} CountRemoveAt(items: seq<Notification>, i: nat)
    requires UniqueIds(items) && i < |items|
    ensures CountUnread(RemoveId(items, items[i].id)) == CountUnread(items) - Unread(items[i])
    ensures FindById(items, items[i].id) == Some(items[i])
  {
    var id := items[i].id;
    if i == 0 {
      assert forall k :: 0 <= k < |items[1..]| ==> items[1..][k] == items[k + 1];
      RemoveAbsent(items[1..], id);
      assert RemoveId(items, id) == items[1..];
      assert CountUnread(items) == Unread(items[0]) + CountUnread(items[1..]);
      assert FindById(items, id) == Some(items[0]);
    } else {
      assert items[0].id != id;
      assert items[1..][i - 1] == items[i];
      CountRemoveAt(items[1..], i - 1);
    }
  }

  // ---------------------------------------------------------------------------
  // When the counter stays in step with the list.

  /** After a successful fetch the counter is the number of unread rows fetched. */
  lemma FetchSyncs(f: Feed, outcome: FetchOutcome)
    requires outcome.Fetched?
    ensures Synced(AfterFetch(f, outcome))
  {
  }

  /** Every record the dispatcher inserts is unread, so its INSERT event keeps the counter in step. */
  lemma InsertUnreadKeepsSync(f: Feed, n: Notification)
    requires Synced(f) && !n.read
    ensures Synced(OnInsert(f, n))
  {
    assert (OnInsert(f, n).items)[1..] == f.items;
  }

  /** An UPDATE that marks a single unread entry read keeps the counter in step. */
  lemma UpdateUnreadToReadKeepsSync(f: Feed, i: nat, n: Notification)
    requires Synced(f) && UniqueIds(f.items) && i < |f.items|
    requires f.items[i].id == n.id && !f.items[i].read && n.read
    ensures Synced(OnUpdate(f, n))
  {
    ReplaceAt(f.items, i, n);
    CountUnreadSet(f.items, i, n);
  }

  /** Marking a single unread entry read keeps the counter in step. */
  lemma MarkAsReadKeepsSync(f: Feed, i: nat)
    requires Synced(f) && UniqueIds(f.items) && i < |f.items| && !f.items[i].read
    ensures Synced(AfterMarkAsRead(f, f.items[i].id, true))
  {
    MarkReadAt(f.items, i);
    CountUnreadSet(f.items, i, f.items[i].(read := true));
  }

  /** Mark-all on success flips exactly the unread entries and leaves the counter in step at 0. */
  lemma MarkAllSyncs(f: Feed)
    requires CountUnread(f.items) > 0
    ensures var r := AfterMarkAllAsRead(f, true, true);
      Synced(r) && r.unreadCount == 0 && Flipped(f.items, r.items) == CountUnread(f.items)
  {
    CountAllRead(f.items);
    MarkAllFlipsUnread(f.items);
  }

  /** Deleting keeps the counter in step when ids are unique. */
  lemma DeleteKeepsSync(f: Feed, id: string)
    requires Synced(f) && UniqueIds(f.items)
    ensures Synced(AfterDelete(f, id, true))
  {
    var found := FindById(f.items, id);
    if found.Some? {
      var i :| 0 <= i < |f.items| && f.items[i] == found.value;
      CountRemoveAt(f.items, i);
    } else {
      RemoveAbsent(f.items, id);
    }
  }

  // ---------------------------------------------------------------------------
  // Where the counter drifts from the list.

  /** Marking the same id twice decrements twice, while the list changes once. */
  lemma MarkAsReadTwice(f: Feed, id: string)
    ensures var twice := AfterMarkAsRead(AfterMarkAsRead(f, id, true), id, true);
      && twice.items == AfterMarkAsRead(f, id, true).items
      && twice.unreadCount == Decrement(Decrement(f.unreadCount))
  {
  }

  const A := Notification("a", StatusChangeType, "t", "m", false, "2024-01-02", None)
  const B := Notification("b", NewCommentType, "t", "m", false, "2024-01-01", None)

  /** Two unread entries, counter 2: marking "a" twice leaves "b" unread but the counter at 0. */
  lemma DoubleMarkAsReadDrifts()
    ensures var f := Feed([A, B], 2);
      var twice := AfterMarkAsRead(AfterMarkAsRead(f, "a", true), "a", true);
      Synced(f) && twice.unreadCount == 0 && CountUnread(twice.items) == 1
  {
    var f := Feed([A, B], 2);
    var once := MarkRead(f.items, "a");
    assert once == [A.(read := true), B];
    assert MarkRead(once, "a") == once;
    assert CountUnread([B]) == 1;
  }

  /** An UPDATE event for an entry that is already read still decrements the counter. */
  lemma UpdateOfReadEntryDrifts()
    ensures var f := Feed([A, B.(read := true)], 1);
      var r := OnUpdate(f, B.(read := true));
      Synced(f) && r.unreadCount == 0 && CountUnread(r.items) == 1
  {
    var f := Feed([A, B.(read := true)], 1);
    assert ReplaceById(f.items, B.(read := true)) == f.items;
    assert CountUnread([B.(read := true)]) == 0;
  }

  /** The hook's state, updated in place by each handler. */
  class NotificationFeed {
    var notifications: seq<Notification>
    var unreadCount: int
    var loading: bool

    ghost predicate Valid()
      reads this
    {
      unreadCount >= 0
    }

    function State(): Feed
      reads this
    {
      Feed(notifications, unreadCount)
    }

    constructor ()
      ensures Valid() && State() == Feed([], 0) && loading
    {
      notifications := [];
      unreadCount := 0;
      loading := true;
    }

    method Fetch(signedIn: bool, outcome: FetchOutcome)
      requires Valid()
      modifies this
      ensures Valid()
      ensures State() == if signedIn then AfterFetch(old(State()), outcome) else old(State())
      ensures loading == if signedIn then false else old(loading)
    {
      if !signedIn {
        return;
      }
      loading := true;
      match outcome {
        case FetchFailed =>
        case Fetched(rows) =>
          notifications := rows.GetOr([]);
          unreadCount := CountUnread(notifications);
      }
      loading := false;
    }

    method HandleInsert(n: Notification)
      requires Valid()
      modifies this`notifications, this`unreadCount
      ensures Valid() && State() == OnInsert(old(State()), n)
    {
      notifications := [n] + notifications;
      unreadCount := unreadCount + 1;
    }

    method HandleUpdate(n: Notification)
      requires Valid()
      modifies this`notifications, this`unreadCount
      ensures Valid() && State() == OnUpdate(old(State()), n)
    {
      notifications := ReplaceById(notifications, n);
      if n.read {
        unreadCount := Decrement(unreadCount);
      }
    }

    method MarkAsRead(id: string, storeOk: bool)
      requires Valid()
      modifies this`notifications, this`unreadCount
      ensures Valid() && State() == AfterMarkAsRead(old(State()), id, storeOk)
    {
      if !storeOk {
        return;
      }
      notifications := MarkRead(notifications, id);
      unreadCount := Decrement(unreadCount);
    }

    method MarkAllAsRead(signedIn: bool, storeOk: bool)
      requires Valid()
      modifies this`notifications, this`unreadCount
      ensures Valid() && State() == AfterMarkAllAsRead(old(State()), signedIn, storeOk)
    {
      if !signedIn {
        return;
      }
      var unreadIds := UnreadIds(notifications);
      if |unreadIds| == 0 {
        return;
      }
      if !storeOk {
        return;
      }
      notifications := AllRead(notifications);
      unreadCount := 0;
    }

    method DeleteNotification(id: string, storeOk: bool)
      requires Valid()
      modifies this`notifications, this`unreadCount
      ensures Valid() && State() == AfterDelete(old(State()), id, storeOk)
    {
      if !storeOk {
        return;
      }
      var found := FindById(notifications, id);
      notifications := RemoveId(notifications, id);
      if found.Some? && !found.value.read {
        unreadCount := Decrement(unreadCount);
      }
    }
  }
}
