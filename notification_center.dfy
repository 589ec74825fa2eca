/** `NotificationCenter`: the notification list and its separately kept
    unread counter. The counter is adjusted by -1 per mark or delete instead
    of being recomputed, so it can drift from the list. */
module NotificationCenter {
  import opened Common

  datatype Notification = Notification(id: string, message: string, read: bool)

  function IsUnread(n: Notification): bool { !n.read }

  /** The number of unread entries. */
  function CountUnread(ns: seq<Notification>): (c: nat)
    ensures c <= |ns|
  {
    CountWhere(ns, IsUnread)
  }

  /** The counter is positive exactly when some entry is unread. */
  lemma UnreadExists(ns: seq<Notification>)
    ensures CountUnread(ns) > 0 <==> exists i :: 0 <= i < |ns| && IsUnread(ns[i])
  {
    var r := Filter(ns, IsUnread);
    if |r| > 0 {
      assert r[0] in ns;
    }
  }

  /** The number of unread entries carrying `id`. */
  function UnreadWithId(ns: seq<Notification>, id: string): nat {
    CountWhere(ns, (n: Notification) => n.id == id && !n.read)
  }

  /** `prev.map(n => n.id === id ? {...n, read: true} : n)`. */
  function MarkRead(ns: seq<Notification>, id: string): (r: seq<Notification>)
    ensures |r| == |ns|
    ensures forall i :: 0 <= i < |ns| ==>
      r[i] == if ns[i].id == id then ns[i].(read := true) else ns[i]
  {
    seq(|ns|, i requires 0 <= i < |ns| => if ns[i].id == id then ns[i].(read := true) else ns[i])
  }

  /** `prev.map(n => ({...n, read: true}))`. */
  function MarkAllRead(ns: seq<Notification>): (r: seq<Notification>)
    ensures |r| == |ns|
    ensures forall i :: 0 <= i < |ns| ==> r[i] == ns[i].(read := true)
  {
    seq(|ns|, i requires 0 <= i < |ns| => ns[i].(read := true))
  }

  /** `prev.filter(n => n.id !== id)`. */
  function RemoveId(ns: seq<Notification>, id: string): (r: seq<Notification>)
    ensures forall n :: n in r <==> n in ns && n.id != id
    ensures IsSubsequence(r, ns)
    ensures forall n :: multiset(r)[n] == if n.id == id then 0 else multiset(ns)[n]
  {
    FilterCounts(ns, (n: Notification) => n.id != id);
    Filter(ns, (n: Notification) => n.id != id)
  }

  /** `notifications.find(n => n.id === id)`. */
  function Find(ns: seq<Notification>, id: string): (r: Option<Notification>)
    ensures r.None? <==> forall n :: n in ns ==> n.id != id
    ensures r.Some? ==> r.value in ns && r.value.id == id
    ensures r.Some? ==> exists k :: 0 <= k < |ns| && ns[k] == r.value && forall j :: 0 <= j < k ==> ns[j].id != id
    decreases |ns|
  {
    if ns == [] then None
    else if ns[0].id == id then Some(ns[0])
    else Find(ns[1..], id)
  }

  /** `!notifications.find(...)?.read`: delete decrements unless the first match is read. */
  predicate DeleteDecrements(ns: seq<Notification>, id: string) {
    match Find(ns, id)
    case None => true
    case Some(n) => !n.read
  }

  /** Marking an id read removes exactly its unread entries from the count. */
  lemma {:induction false} MarkReadCount(ns: seq<Notification>, id: string)
    ensures CountUnread(MarkRead(ns, id)) == CountUnread(ns) - UnreadWithId(ns, id)
    decreases |ns|
  {
    if ns != [] {
      MarkReadCount(ns[1..], id);
      assert MarkRead(ns, id)[1..] == MarkRead(ns[1..], id);
    }
  }

  /** Deleting an id removes exactly its unread entries from the count. */
  lemma {:induction false} RemoveIdCount(ns: seq<Notification>, id: string)
    ensures CountUnread(RemoveId(ns, id)) == CountUnread(ns) - UnreadWithId(ns, id)
    decreases |ns|
  {
    if ns != [] {
      RemoveIdCount(ns[1..], id);
      assert ns == [ns[0]] + ns[1..];
    }
  }

  /** After mark-all, nothing is unread. */
  lemma {:induction false} MarkAllReadCount(ns: seq<Notification>)
    ensures CountUnread(MarkAllRead(ns)) == 0
    decreases |ns|
  {
    if ns != [] {
      MarkAllReadCount(ns[1..]);
      assert MarkAllRead(ns)[1..] == MarkAllRead(ns[1..]);
    }
  }

  /** The counter stays exact across a mark-as-read iff the id had exactly one unread entry. */
  lemma MarkReadKeepsCount(ns: seq<Notification>, id: string, counter: int)
    requires counter == CountUnread(ns)
    ensures counter - 1 == CountUnread(MarkRead(ns, id)) <==> UnreadWithId(ns, id) == 1
  {
    MarkReadCount(ns, id);
  }

  /** Marking an id none of whose entries is unread (an entry already read,
      marked again) leaves the true count as it was, so the decremented
      counter falls one below it. */
  lemma MarkReadDrift(ns: seq<Notification>, id: string, counter: int)
    requires counter == CountUnread(ns) && UnreadWithId(ns, id) == 0
    ensures CountUnread(MarkRead(ns, id)) == counter
    ensures counter - 1 < CountUnread(MarkRead(ns, id))
  {
    MarkReadCount(ns, id);
  }

  /** Deleting an id that is not in the list still decrements the counter. */
  lemma DeleteAbsentDecrements(ns: seq<Notification>, id: string)
    requires forall n :: n in ns ==> n.id != id
    ensures DeleteDecrements(ns, id)
    ensures RemoveId(ns, id) == ns
  {
    FilterKeepsAll(ns, (n: Notification) => n.id != id);
  }

  /** At most one entry carries `id`. */
  ghost predicate UniqueId(ns: seq<Notification>, id: string) {
    forall i, j :: 0 <= i < j < |ns| && ns[i].id == id ==> ns[j].id != id
  }

  /** With a unique id, the unread entries with that id are the first match, if it is unread. */
  lemma {:induction false} UniqueUnreadWithId(ns: seq<Notification>, id: string)
    requires UniqueId(ns, id)
    ensures UnreadWithId(ns, id) == if Find(ns, id).Some? && !Find(ns, id).value.read then 1 else 0
    decreases |ns|
  {
    if ns != [] {
      assert UniqueId(ns[1..], id) by {
        forall i, j | 0 <= i < j < |ns[1..]| && ns[1..][i].id == id ensures ns[1..][j].id != id {
          assert ns[i + 1].id == id;
        }
      }
      UniqueUnreadWithId(ns[1..], id);
      if ns[0].id == id {
        assert forall n :: n in ns[1..] ==> n.id != id by {
          forall n | n in ns[1..] ensures n.id != id {
            var j :| 0 <= j < |ns[1..]| && ns[1..][j] == n;
            assert ns[j + 1] == n;
          }
        }
        assert Find(ns[1..], id).None?;
      }
    }
  }

  /** With unique ids the counter stays exact across a delete iff the id was in the list:
      deleting a missing id still decrements. */
  lemma DeleteKeepsCount(ns: seq<Notification>, id: string, counter: int)
    requires UniqueId(ns, id) && counter == CountUnread(ns)
    ensures counter - (if DeleteDecrements(ns, id) then 1 else 0) == CountUnread(RemoveId(ns, id))
      <==> Find(ns, id).Some?
  {
    UniqueUnreadWithId(ns, id);
    RemoveIdCount(ns, id);
  }

  class Center {
    var notifications: seq<Notification>
    var unreadCount: int
    var isOpen: bool

    /** The counter agrees with the list. */
    predicate Consistent()
      reads this
    {
      unreadCount == CountUnread(notifications)
    }

    constructor()
      ensures notifications == [] && unreadCount == 0 && !isOpen
      ensures Consistent()
    {
      notifications := [];
      unreadCount := 0;
      isOpen := false;
    }

    /** The badge and the "Mark all as read" button. */
    predicate ShowsBadge()
      reads this
    {
      unreadCount > 0
    }

    /** `fetchNotifications`: `outcome` is the awaited service call. */
    method Fetch(outcome: Result<seq<Notification>>)
      modifies this
      ensures outcome.Ok? ==> notifications == outcome.value && Consistent()
      ensures outcome.Err? ==> notifications == old(notifications) && unreadCount == old(unreadCount)
      ensures isOpen == old(isOpen)
    {
      if outcome.Ok? {
        notifications := outcome.value;
        unreadCount := CountWhere(outcome.value, IsUnread);
      }
    }

    /** `handleMarkAsRead(id)`; `ok` says whether the service call resolved. */
    method MarkAsRead(id: string, ok: bool)
      modifies this
      ensures ok ==> notifications == MarkRead(old(notifications), id) && unreadCount == old(unreadCount) - 1
      ensures !ok ==> notifications == old(notifications) && unreadCount == old(unreadCount)
      ensures isOpen == old(isOpen)
    {
      if ok {
        notifications := MarkRead(notifications, id);
        unreadCount := unreadCount - 1;
      }
    }

    /** `handleMarkAllAsRead`: restores the counter from any state. */
    method MarkAllAsRead(ok: bool)
      modifies this
      ensures ok ==> notifications == MarkAllRead(old(notifications)) && unreadCount == 0 && Consistent()
      ensures !ok ==> notifications == old(notifications) && unreadCount == old(unreadCount)
      ensures isOpen == old(isOpen)
    {
      if ok {
        MarkAllReadCount(notifications);
        notifications := MarkAllRead(notifications);
        unreadCount := 0;
      }
    }

    /** `handleDelete(id)`: the decrement is decided on the list before the delete. */
    method Delete(id: string, ok: bool)
      modifies this
      ensures ok ==> notifications == RemoveId(old(notifications), id)
      ensures ok ==> unreadCount == old(unreadCount) - (if DeleteDecrements(old(notifications), id) then 1 else 0)
      ensures !ok ==> notifications == old(notifications) && unreadCount == old(unreadCount)
      ensures isOpen == old(isOpen)
    {
      if ok {
        var found := Find(notifications, id);
        notifications := RemoveId(notifications, id);
        if !(found.Some? && found.value.read) {
          unreadCount := unreadCount - 1;
        }
      }
    }

    method SetOpen(open: bool)
      modifies this
      ensures isOpen == open
      ensures notifications == old(notifications) && unreadCount == old(unreadCount)
    {
      isOpen := open;
    }
  }
}
