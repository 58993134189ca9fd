/**
 * The notification centre: an ordered list of notifications held in one
 * state cell, replaced wholesale by "mark as read", "mark all as read" and
 * "remove", and an unread count derived from the list on every render.
 */
module Notifications {
  import opened Support

  /** One notification; `kind` is the `type` field, `urgent` is optional. */
  datatype Notification = Notification(
    id: string,
    kind: string,
    title: string,
    message: string,
    timestamp: Instant,
    read: bool,
    urgent: Option<bool>)

  /** `notifications.filter((n) => !n.read).length`. */
  function CountUnread(ns: seq<Notification>): (r: nat)
    ensures r <= |ns|
    ensures r == 0 <==> forall i :: 0 <= i < |ns| ==> ns[i].read
  {
    if ns == [] then 0 else (if ns[0].read then 0 else 1) + CountUnread(ns[1..])
  }

  /** The number of unread entries that carry `id`. */
  function CountUnreadWithId(ns: seq<Notification>, id: string): (r: nat)
    ensures r <= CountUnread(ns)
  {
    if ns == [] then 0
    else (if !ns[0].read && ns[0].id == id then 1 else 0) + CountUnreadWithId(ns[1..], id)
  }

  /** The number of entries that carry `id`. */
  function CountWithId(ns: seq<Notification>, id: string): (r: nat)
    ensures r <= |ns|
  {
    if ns == [] then 0 else (if ns[0].id == id then 1 else 0) + CountWithId(ns[1..], id)
  }

  /** True when `id` is carried by some entry. */
  predicate HasId(ns: seq<Notification>, id: string) {
    exists i :: 0 <= i < |ns| && ns[i].id == id
  }

  /**
   * The `markAsRead(id)` transform: each entry carrying `id` becomes read,
   * all other entries and all other fields stay as they were, in place.
   */
  function WithRead(ns: seq<Notification>, id: string): (r: seq<Notification>)
    ensures |r| == |ns|
    ensures forall i :: 0 <= i < |ns| ==> r[i].read == (ns[i].read || ns[i].id == id)
    ensures forall i :: 0 <= i < |ns| ==> r[i].(read := ns[i].read) == ns[i]
  {
    if ns == [] then []
    else [if ns[0].id == id then ns[0].(read := true) else ns[0]] + WithRead(ns[1..], id)
  }

  /** The `markAllAsRead()` transform: every entry becomes read, nothing else changes. */
  function AllRead(ns: seq<Notification>): (r: seq<Notification>)
    ensures |r| == |ns|
    ensures forall i :: 0 <= i < |ns| ==> r[i].read && r[i].(read := ns[i].read) == ns[i]
  {
    if ns == [] then [] else [ns[0].(read := true)] + AllRead(ns[1..])
  }

  /**
   * The `removeNotification(id)` transform, `filter((n) => n.id !== id)`:
   * no entry carrying `id` remains, every other entry does.
   */
  function WithoutId(ns: seq<Notification>, id: string): (r: seq<Notification>)
    ensures |r| == |ns| - CountWithId(ns, id)
    ensures forall i :: 0 <= i < |r| ==> r[i].id != id
    ensures forall n :: n in r <==> n in ns && n.id != id
  {
    if ns == [] then []
    else if ns[0].id == id then WithoutId(ns[1..], id)
    else [ns[0]] + WithoutId(ns[1..], id)
  }

  /** Marking as read changes nothing when no entry carries the id. */
  lemma {:induction false} WithReadAbsent(ns: seq<Notification>, id: string)
    requires !HasId(ns, id)
    ensures WithRead(ns, id) == ns
  {
    var r := WithRead(ns, id);
    forall i | 0 <= i < |ns|
      ensures r[i] == ns[i]
    {
      assert ns[i].id != id;
    }
  }

  /** Marking as read twice is marking as read once. */
  lemma {:induction false} WithReadIdempotent(ns: seq<Notification>, id: string)
    ensures WithRead(WithRead(ns, id), id) == WithRead(ns, id)
  {
    var once := WithRead(ns, id);
    var twice := WithRead(once, id);
    forall i | 0 <= i < |ns|
      ensures twice[i] == once[i]
    {
      assert once[i].id == ns[i].id by {
        assert once[i].(read := ns[i].read) == ns[i];
      }
      assert twice[i].(read := once[i].read) == once[i];
    }
  }

  /** Marking as read lowers the unread count by exactly the unread entries carrying the id; it never raises it. */
  lemma {:induction false} WithReadUnreadCount(ns: seq<Notification>, id: string)
    ensures CountUnread(WithRead(ns, id)) == CountUnread(ns) - CountUnreadWithId(ns, id)
  {
    if ns != [] {
      WithReadUnreadCount(ns[1..], id);
      assert WithRead(ns, id)[1..] == WithRead(ns[1..], id);
    }
  }

  /** After marking all as read the unread count is 0, and ids, titles and messages are unchanged in order. */
  lemma AllReadClearsCount(ns: seq<Notification>)
    ensures CountUnread(AllRead(ns)) == 0
    ensures |AllRead(ns)| == |ns|
    ensures forall i :: 0 <= i < |ns| ==>
      AllRead(ns)[i].id == ns[i].id && AllRead(ns)[i].title == ns[i].title && AllRead(ns)[i].message == ns[i].message
  {
    var r := AllRead(ns);
    forall i | 0 <= i < |ns|
      ensures r[i].id == ns[i].id && r[i].title == ns[i].title && r[i].message == ns[i].message
    {
      assert r[i].(read := ns[i].read) == ns[i];
    }
  }

  /** Removal keeps relative order: it distributes over concatenation. */
  lemma {:induction false} WithoutIdAppend(a: seq<Notification>, b: seq<Notification>, id: string)
    ensures WithoutId(a + b, id) == WithoutId(a, id) + WithoutId(b, id)
  {
    if a == [] {
      assert a + b == b;
    } else {
      var ab := a + b;
      assert ab[0] == a[0] && ab[1..] == a[1..] + b;
      WithoutIdAppend(a[1..], b, id);
      if a[0].id == id {
        assert WithoutId(ab, id) == WithoutId(a[1..] + b, id);
      } else {
        calc {
          WithoutId(ab, id);
          [a[0]] + WithoutId(a[1..] + b, id);
          [a[0]] + (WithoutId(a[1..], id) + WithoutId(b, id));
          ([a[0]] + WithoutId(a[1..], id)) + WithoutId(b, id);
        }
      }
    }
  }

  /** Removing an id no entry carries is a no-op. */
  lemma {:induction false} WithoutIdAbsent(ns: seq<Notification>, id: string)
    requires !HasId(ns, id)
    ensures WithoutId(ns, id) == ns
  {
    if ns != [] {
      assert ns[0].id != id;
      assert !HasId(ns[1..], id) by {
        forall i | 0 <= i < |ns[1..]| ensures ns[1..][i].id != id {
          assert ns[1..][i] == ns[i + 1];
        }
      }
      WithoutIdAbsent(ns[1..], id);
      assert ns == [ns[0]] + ns[1..];
    }
  }

  /** Removal drops from the unread count exactly the unread entries carrying the id. */
  lemma {:induction false} WithoutIdUnreadCount(ns: seq<Notification>, id: string)
    ensures CountUnread(WithoutId(ns, id)) == CountUnread(ns) - CountUnreadWithId(ns, id)
  {
    if ns != [] {
      WithoutIdUnreadCount(ns[1..], id);
      if ns[0].id != id {
        assert ([ns[0]] + WithoutId(ns[1..], id))[1..] == WithoutId(ns[1..], id);
      }
    }
  }

  // ---------------------------------------------------------------------
  // Icon and colour dispatch on the notification type.

  datatype Icon = DollarSign | Heart | Calendar | AlertCircle

  /** `getIcon(type)`: a specific icon for the three known types, the alert icon for every other (including "system"). */
  function IconFor(kind: string): (icon: Icon)
    ensures icon == DollarSign <==> kind == "donation"
    ensures icon == Heart <==> kind == "volunteer"
    ensures icon == Calendar <==> kind == "event"
    ensures icon == AlertCircle <==> kind != "donation" && kind != "volunteer" && kind != "event"
  {
    if kind == "donation" then DollarSign
    else if kind == "volunteer" then Heart
    else if kind == "event" then Calendar
    else AlertCircle
  }

  const DefaultColor := "text-nature-600"

  /** `getIconColor(type)`: "donation" shares the default colour, "volunteer" and "event" have their own. */
  function IconColorFor(kind: string): (color: string)
    ensures color == DefaultColor <==> kind != "volunteer" && kind != "event"
    ensures kind == "volunteer" ==> color == "text-sunny-600"
    ensures kind == "event" ==> color == "text-mint-600"
  {
    if kind == "donation" then "text-nature-600"
    else if kind == "volunteer" then "text-sunny-600"
    else if kind == "event" then "text-mint-600"
    else DefaultColor
  }

  // ---------------------------------------------------------------------
  // The component's state cell.

  /** The three seed notifications, `now` standing for `Date.now()`: two, four and six hours old. */
  function Seed(now: Instant): (ns: seq<Notification>)
    ensures |ns| == 3 && CountUnread(ns) == 2
  {
    [ Notification("1", "donation", "New Donation Received",
        "$250 donation from John Smith for Clean Water Initiative", now - 2 * 60 * 60 * 1000, false, None),
      Notification("2", "volunteer", "Volunteer Application",
        "Sarah Johnson applied for Beach Cleanup event", now - 4 * 60 * 60 * 1000, false, Some(true)),
      Notification("3", "event", "Event Milestone",
        "Community Garden project reached 50 volunteers", now - 6 * 60 * 60 * 1000, true, None) ]
  }

  class NotificationCenter {
    var notifications: seq<Notification>

    constructor (now: Instant)
      ensures notifications == Seed(now)
      ensures UnreadCount() == 2
    {
      notifications := Seed(now);
    }

    /** The badge number, recomputed from the list. */
    function UnreadCount(): (n: nat)
      reads this
      ensures n <= |notifications|
      ensures n == 0 <==> forall i :: 0 <= i < |notifications| ==> notifications[i].read
    {
      CountUnread(notifications)
    }

    method MarkAsRead(id: string)
      modifies this
      ensures notifications == WithRead(old(notifications), id)
      ensures UnreadCount() == old(UnreadCount()) - CountUnreadWithId(old(notifications), id)
    {
      WithReadUnreadCount(notifications, id);
      notifications := WithRead(notifications, id);
    }

    method MarkAllAsRead()
      modifies this
      ensures notifications == AllRead(old(notifications))
      ensures UnreadCount() == 0
    {
      AllReadClearsCount(notifications);
      notifications := AllRead(notifications);
    }

    method RemoveNotification(id: string)
      modifies this
      ensures notifications == WithoutId(old(notifications), id)
      ensures UnreadCount() == old(UnreadCount()) - CountUnreadWithId(old(notifications), id)
    {
      WithoutIdUnreadCount(notifications, id);
      notifications := WithoutId(notifications, id);
    }
  }

  /** Removing id "2" from the entries 1, 2, 3 leaves 1 and 3, in that order. */
  lemma RemoveMiddleExample(now: Instant)
    ensures WithoutId(Seed(now), "2") == [Seed(now)[0], Seed(now)[2]]
  {
  }
}
