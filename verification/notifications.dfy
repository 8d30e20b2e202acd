/** The notification store: an ordered list, newest first, plus an unread
    count that is re-derived from the list after every change and never
    adjusted on its own. Ids and timestamps are parameters. */
module NotificationStore {

  datatype Kind = WaterReminder | SleepReminder | WorkoutReminder | NutritionReminder | General

  datatype Notification = Notification(id: string, title: string, message: string, timestamp: int, kind: Kind, read: bool)

  /** Entries with `read == false` (`notifications.filter(n => !n.read).length`). */
  function UnreadCount(items: seq<Notification>): (r: nat)
    ensures r <= |items|
    ensures r == 0 <==> forall i :: 0 <= i < |items| ==> items[i].read
  {
    if |items| == 0 then 0 else (if items[0].read then 0 else 1) + UnreadCount(items[1..])
  }

  lemma {:induction false} UnreadCountAppend(a: seq<Notification>, b: seq<Notification>)
    ensures UnreadCount(a + b) == UnreadCount(a) + UnreadCount(b)
  {
    if |a| > 0 {
      assert (a + b)[1..] == a[1..] + b;
      UnreadCountAppend(a[1..], b);
    } else {
      assert a + b == b;
    }
  }

  /** How many entries carry `id`, and how many of those are unread. */
  function WithId(items: seq<Notification>, id: string): nat
  {
    if |items| == 0 then 0 else (if items[0].id == id then 1 else 0) + WithId(items[1..], id)
  }

  function UnreadWithId(items: seq<Notification>, id: string): nat
  {
    if |items| == 0 then 0
    else (if items[0].id == id && !items[0].read then 1 else 0) + UnreadWithId(items[1..], id)
  }

  /** The store's state: the list and the count the badge shows. */
  datatype Center = Center(items: seq<Notification>, unreadCount: nat)

  ghost predicate Consistent(c: Center)
  {
    c.unreadCount == UnreadCount(c.items)
  }

  /** The effect that runs after every change of the list: it stores the
      list and recounts the unread entries. */
  function Settle(items: seq<Notification>): (c: Center)
    ensures c.items == items && Consistent(c)
  {
    Center(items, UnreadCount(items))
  }

  /** The state before anything is loaded. */
  const Initial := Center([], 0)

  /** Loading a saved list recounts its unread entries. */
  function Load(saved: seq<Notification>): (c: Center)
    ensures c.items == saved && Consistent(c)
  {
    Settle(saved)
  }

  /** Prepends a fresh unread notification. */
  function AddNotification(c: Center, id: string, now: int, title: string, message: string, kind: Kind): (r: Center)
    ensures Consistent(r)
    ensures |r.items| == |c.items| + 1 && r.items[1..] == c.items
    ensures r.items[0] == Notification(id, title, message, now, kind, false)
    ensures r.unreadCount == UnreadCount(c.items) + 1
    ensures Consistent(c) ==> r.unreadCount == c.unreadCount + 1
  {
    var n := Notification(id, title, message, now, kind, false);
    assert ([n] + c.items)[1..] == c.items;
    Settle([n] + c.items)
  }

  function ReadAll(items: seq<Notification>): (r: seq<Notification>)
    ensures |r| == |items|
    ensures forall i :: 0 <= i < |items| ==> r[i] == items[i].(read := true)
  {
    if |items| == 0 then [] else [items[0].(read := true)] + ReadAll(items[1..])
  }

  /** Every entry becomes read; nothing else about the list changes. */
  function MarkAllAsRead(c: Center): (r: Center)
    ensures Consistent(r) && r.unreadCount == 0
    ensures |r.items| == |c.items|
    ensures forall i :: 0 <= i < |c.items| ==> r.items[i] == c.items[i].(read := true)
  {
    Settle(ReadAll(c.items))
  }

  lemma MarkAllAsReadIdempotent(c: Center)
    ensures MarkAllAsRead(MarkAllAsRead(c)) == MarkAllAsRead(c)
  {
    var once := MarkAllAsRead(c);
    var twice := MarkAllAsRead(once);
    assert twice.items == once.items;
  }

  function ReadWithId(items: seq<Notification>, id: string): (r: seq<Notification>)
    ensures |r| == |items|
    ensures forall i :: 0 <= i < |items| ==> r[i] == (if items[i].id == id then items[i].(read := true) else items[i])
    ensures UnreadCount(r) == UnreadCount(items) - UnreadWithId(items, id)
  {
    if |items| == 0 then []
    else
      var n := items[0];
      var r := [if n.id == id then n.(read := true) else n] + ReadWithId(items[1..], id);
      assert r[1..] == ReadWithId(items[1..], id);
      r
  }

  /** Only entries whose id is `id` change, and only their `read` flag. */
  function MarkAsRead(c: Center, id: string): (r: Center)
    ensures Consistent(r)
    ensures |r.items| == |c.items|
    ensures forall i :: 0 <= i < |c.items| && c.items[i].id == id ==> r.items[i] == c.items[i].(read := true)
    ensures forall i :: 0 <= i < |c.items| && c.items[i].id != id ==> r.items[i] == c.items[i]
    ensures r.unreadCount == UnreadCount(c.items) - UnreadWithId(c.items, id)
  {
    Settle(ReadWithId(c.items, id))
  }

  lemma MarkAsReadAbsentIsIdentity(c: Center, id: string)
    requires forall i :: 0 <= i < |c.items| ==> c.items[i].id != id
    ensures MarkAsRead(c, id).items == c.items
  {
  }

  /** `items.filter(n => n.id !== id)`. */
  function DropId(items: seq<Notification>, id: string): (r: seq<Notification>)
    ensures |r| == |items| - WithId(items, id)
    ensures forall i :: 0 <= i < |r| ==> r[i].id != id
    ensures UnreadCount(r) == UnreadCount(items) - UnreadWithId(items, id)
  {
    if |items| == 0 then []
    else if items[0].id == id then DropId(items[1..], id)
    else
      var r := [items[0]] + DropId(items[1..], id);
      assert r[1..] == DropId(items[1..], id);
      r
  }

  /** Dropping distributes over concatenation: the survivors keep their
      relative order. */
  lemma {:induction false} DropIdAppend(a: seq<Notification>, b: seq<Notification>, id: string)
    ensures DropId(a + b, id) == DropId(a, id) + DropId(b, id)
  {
    if |a| == 0 {
      assert a + b == b;
    } else {
      assert (a + b)[1..] == a[1..] + b;
      DropIdAppend(a[1..], b, id);
    }
  }

  lemma {:induction false} DropIdKeepsOthers(items: seq<Notification>, id: string, n: Notification)
    requires n in items && n.id != id
    ensures n in DropId(items, id)
  {
    if items[0] != n {
      DropIdKeepsOthers(items[1..], id, n);
    }
  }

  /** Removes exactly the entries with `id`. */
  function ClearNotification(c: Center, id: string): (r: Center)
    ensures Consistent(r)
    ensures |r.items| == |c.items| - WithId(c.items, id)
    ensures forall i :: 0 <= i < |r.items| ==> r.items[i].id != id
    ensures r.unreadCount == UnreadCount(c.items) - UnreadWithId(c.items, id)
  {
    Settle(DropId(c.items, id))
  }

  function ClearAllNotifications(c: Center): (r: Center)
    ensures r.items == [] && r.unreadCount == 0
  {
    Settle([])
  }

  /** With unique ids, clearing an existing id removes one entry, and the
      count drops by one exactly when that entry was unread. */
  lemma ClearOneOfUniqueIds(c: Center, k: nat)
    requires Consistent(c) && k < |c.items|
    requires forall i, j :: 0 <= i < j < |c.items| ==> c.items[i].id != c.items[j].id
    ensures |ClearNotification(c, c.items[k].id).items| == |c.items| - 1
    ensures ClearNotification(c, c.items[k].id).unreadCount == c.unreadCount - (if c.items[k].read then 0 else 1)
  {
    var id := c.items[k].id;
    var a, n, b := c.items[..k], c.items[k], c.items[k + 1..];
    assert c.items == a + [n] + b;
    assert forall i :: 0 <= i < |b| ==> b[i] == c.items[k + 1 + i];
    CountsOnUniqueSplit(a, n, b);
  }

  lemma CountsOnUniqueSplit(a: seq<Notification>, n: Notification, b: seq<Notification>)
    requires forall i :: 0 <= i < |a| ==> a[i].id != n.id
    requires forall i :: 0 <= i < |b| ==> b[i].id != n.id
    ensures WithId(a + [n] + b, n.id) == 1
    ensures UnreadWithId(a + [n] + b, n.id) == (if n.read then 0 else 1)
  {
    NoIdCounts(a, n.id);
    NoIdCounts(b, n.id);
    IdCountsAppend(a, [n] + b, n.id);
    assert a + [n] + b == a + ([n] + b);
    assert ([n] + b)[1..] == b;
  }

  lemma {:induction false} NoIdCounts(s: seq<Notification>, id: string)
    requires forall i :: 0 <= i < |s| ==> s[i].id != id
    ensures WithId(s, id) == 0 && UnreadWithId(s, id) == 0
  {
    if |s| > 0 {
      NoIdCounts(s[1..], id);
    }
  }

  lemma {:induction false} IdCountsAppend(a: seq<Notification>, b: seq<Notification>, id: string)
    ensures WithId(a + b, id) == WithId(a, id) + WithId(b, id)
    ensures UnreadWithId(a + b, id) == UnreadWithId(a, id) + UnreadWithId(b, id)
  {
    if |a| > 0 {
      assert (a + b)[1..] == a[1..] + b;
      IdCountsAppend(a[1..], b, id);
    } else {
      assert a + b == b;
    }
  }
}
