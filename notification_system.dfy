/**
 * NotificationSystem: one poll of the admin-written notification list,
 * delivering the current user's unread notifications and marking them read.
 */
module Notifications {
  import opened Wrappers
  import opened Records
  import opened Seqs
  import opened Storage

  /** `notif.userId === userId && !notif.read`, with the raw stored user id. */
  predicate Deliverable(n: Notification, uid: Option<string>)
  {
    uid == Some(n.userId) && !n.read
  }

  /** The filter: the deliverable notifications, in list order. */
  function UnreadFor(ns: seq<Notification>, uid: Option<string>): (r: seq<Notification>)
    ensures |r| <= |ns|
    ensures forall n :: n in r ==> n in ns && Deliverable(n, uid)
    ensures forall i :: 0 <= i < |ns| && Deliverable(ns[i], uid) ==> ns[i] in r
    decreases |ns|
  {
    if |ns| == 0 then []
    else
      var k := |ns| - 1;
      UnreadFor(ns[..k], uid) + (if Deliverable(ns[k], uid) then [ns[k]] else [])
  }

  /**
   * The filter keeps list order: filtering a concatenation is concatenating
   * the filtered parts, so the delivered entries appear as they do in the list.
   */
  lemma {:induction false} UnreadForAppend(a: seq<Notification>, b: seq<Notification>, uid: Option<string>)
    ensures UnreadFor(a + b, uid) == UnreadFor(a, uid) + UnreadFor(b, uid)
    decreases |b|
  {
    if |b| > 0 {
      var k := |b| - 1;
      assert (a + b)[..|a| + k] == a + b[..k];
      assert (a + b)[|a| + k] == b[k];
      UnreadForAppend(a, b[..k], uid);
    } else {
      assert a + b == a;
    }
  }

  /** The loop body for one entry: delivered entries get `read` set. */
  function MarkOne(n: Notification, uid: Option<string>): (r: Notification)
    ensures r.userId == n.userId && r.message == n.message
    ensures r.read == (n.read || uid == Some(n.userId))
  {
    if Deliverable(n, uid) then n.(read := true) else n
  }

  /** The list as written back: the user's entries read, every other entry as it was. */
  function MarkRead(ns: seq<Notification>, uid: Option<string>): (r: seq<Notification>)
    ensures |r| == |ns|
    ensures forall i :: 0 <= i < |ns| ==> r[i] == ns[i].(read := ns[i].read || uid == Some(ns[i].userId))
  {
    seq(|ns|, i requires 0 <= i < |ns| => MarkOne(ns[i], uid))
  }

  /** The badge count is the number of entries the poll flips. */
  lemma {:induction false} DeliveredCountIsFlippedCount(ns: seq<Notification>, uid: Option<string>)
    ensures |UnreadFor(ns, uid)| == |Changed(ns, MarkRead(ns, uid))|
    decreases |ns|
  {
    if |ns| > 0 {
      var k := |ns| - 1;
      var r := MarkRead(ns, uid);
      assert r[..k] == MarkRead(ns[..k], uid);
      DeliveredCountIsFlippedCount(ns[..k], uid);
      assert (r[k] != ns[k]) == Deliverable(ns[k], uid);
    }
  }

  /** A second poll finds nothing: each notification is delivered at most once. */
  lemma {:induction false} DeliveredOnce(ns: seq<Notification>, uid: Option<string>)
    ensures UnreadFor(MarkRead(ns, uid), uid) == []
    decreases |ns|
  {
    if |ns| > 0 {
      var k := |ns| - 1;
      assert MarkRead(ns, uid)[..k] == MarkRead(ns[..k], uid);
      DeliveredOnce(ns[..k], uid);
    }
  }

  /** With nothing to deliver the list is already what it would be written back as. */
  lemma {:induction false} NothingDeliverableNoChange(ns: seq<Notification>, uid: Option<string>)
    requires UnreadFor(ns, uid) == []
    ensures MarkRead(ns, uid) == ns
    decreases |ns|
  {
    if |ns| > 0 {
      var k := |ns| - 1;
      assert UnreadFor(ns[..k], uid) == [];
      NothingDeliverableNoChange(ns[..k], uid);
      assert MarkRead(ns, uid)[..k] == MarkRead(ns[..k], uid);
    }
  }

  /** Two unread notifications for the user and one for another: exactly the two are delivered. */
  lemma TwoOfThreeExample(me: string, other: string, m1: string, m2: string, m3: string)
    requires me != other
    ensures var ns := [Notification(me, m1, false), Notification(other, m2, false), Notification(me, m3, false)];
      && UnreadFor(ns, Some(me)) == [ns[0], ns[2]]
      && MarkRead(ns, Some(me)) == [ns[0].(read := true), ns[1], ns[2].(read := true)]
  {
    var ns := [Notification(me, m1, false), Notification(other, m2, false), Notification(me, m3, false)];
    assert ns[..2][..1] == ns[..1] && ns[..1][..0] == [];
    assert UnreadFor(ns[..1], Some(me)) == [ns[0]];
    assert UnreadFor(ns[..2], Some(me)) == [ns[0]];
  }

  class NotificationSystem {
    /** The shared local store. */
    const store: Store
    /** Whether the page has a badge element. */
    const hasBadge: bool
    /** The count the badge shows; None until the first update. */
    var badge: Option<nat>
    /** Every notification shown as a popup, oldest first. */
    var shown: seq<Notification>

    constructor (store: Store, hasBadge: bool)
      ensures this.store == store && this.hasBadge == hasBadge && badge == None && shown == []
    {
      this.store := store;
      this.hasBadge := hasBadge;
      badge := None;
      shown := [];
    }

    /**
     * checkForNotifications, one poll: shows the user's unread notifications,
     * sets the badge to their number, marks exactly them read, and writes the
     * list back only when there was at least one.
     */
    method CheckForNotifications()
      modifies this, store
      ensures var uid := old(store.userId);
        var delivered := UnreadFor(old(store.userNotifications), uid);
        && shown == old(shown) + delivered
        && badge == (if |delivered| > 0 && hasBadge then Some(|delivered|) else old(badge))
        && store.Contents() == (if |delivered| > 0 then
                                  old(store.Contents()).(userNotifications := MarkRead(old(store.userNotifications), uid),
                                                         writes := old(store.writes) + [NotificationsKey])
                                else old(store.Contents()))
    {
      var adminNotifications := store.userNotifications;
      var userId := store.userId;
      var userNotifications, marked := ScanNotifications(adminNotifications, userId);
      if |userNotifications| > 0 {
        UpdateBadge(|userNotifications|);
        shown := shown + userNotifications;
        store.SetUserNotifications(marked);
      }
    }

    /**
     * The filter and the `forEach` of checkForNotifications in one pass: the
     * user's unread entries in list order, and the list with them marked read.
     */
    method ScanNotifications(adminNotifications: seq<Notification>, userId: Option<string>)
      returns (userNotifications: seq<Notification>, marked: seq<Notification>)
      ensures userNotifications == UnreadFor(adminNotifications, userId)
      ensures marked == MarkRead(adminNotifications, userId)
    {
      userNotifications := [];
      marked := adminNotifications;
      var i := 0;
      while i < |adminNotifications|
        invariant 0 <= i <= |adminNotifications| == |marked|
        invariant userNotifications == UnreadFor(adminNotifications[..i], userId)
        invariant forall k :: 0 <= k < i ==> marked[k] == MarkOne(adminNotifications[k], userId)
        invariant forall k :: i <= k < |marked| ==> marked[k] == adminNotifications[k]
      {
        var notif := adminNotifications[i];
        if userId.Some? && notif.userId == userId.value && !notif.read {
          userNotifications := userNotifications + [notif];
          marked := marked[i := notif.(read := true)];
        }
        assert adminNotifications[..i + 1][..i] == adminNotifications[..i];
        i := i + 1;
      }
      assert adminNotifications[..|adminNotifications|] == adminNotifications;
    }

    /** updateBadge: shows the count when the page has a badge element. */
    method UpdateBadge(count: nat)
      modifies this
      ensures badge == (if hasBadge then Some(count) else old(badge))
      ensures shown == old(shown)
    {
      if hasBadge {
        badge := Some(count);
      }
    }
  }
}
