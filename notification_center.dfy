/** The bell popover: the unread badge, marking one notification read on click, and marking
    all of them read. */
module NotificationCenter {
  import opened Types
  import opened UserContext
  import opened Seqs

  /** `notifications.filter(n => !n.isRead)`: every unread notification kept, in order. */
  function Unread(ns: seq<Notification>): (r: seq<Notification>)
    ensures forall n :: n in r <==> n in ns && !n.isRead
    ensures IsSubseq(r, ns)
    ensures |r| <= |ns|
  {
    if ns == [] then []
    else
      var rest := Unread(ns[1..]);
      if ns[0].isRead then rest
      else
        assert ([ns[0]] + rest)[1..] == rest;
        [ns[0]] + rest
  }

  /** Filtering a concatenation filters each part. */
  lemma {:induction false} UnreadAppend(a: seq<Notification>, b: seq<Notification>)
    ensures Unread(a + b) == Unread(a) + Unread(b)
  {
    if a != [] {
      assert (a + b)[1..] == a[1..] + b;
      UnreadAppend(a[1..], b);
    } else {
      assert a + b == b;
    }
  }

  /** One more notification adds itself to the unread list exactly when it is unread. */
  lemma UnreadSnoc(ns: seq<Notification>, n: nat)
    requires 0 < n <= |ns|
    ensures Unread(ns[..n]) == Unread(ns[..n - 1]) + (if ns[n - 1].isRead then [] else [ns[n - 1]])
  {
    assert ns[..n] == ns[..n - 1] + [ns[n - 1]];
    UnreadAppend(ns[..n - 1], [ns[n - 1]]);
    assert Unread([ns[n - 1]]) == if ns[n - 1].isRead then [] else [ns[n - 1]] by {
      assert [ns[n - 1]][1..] == [];
    }
  }

  /** The positions among the first `n` that hold an unread notification. */
  function UnreadPositions(ns: seq<Notification>, n: nat): set<int>
    requires n <= |ns|
  {
    set i | 0 <= i < n && !ns[i].isRead
  }

  /** One more position adds itself to the unread positions exactly when it is unread. */
  lemma UnreadPositionsStep(ns: seq<Notification>, n: nat)
    requires 0 < n <= |ns|
    ensures |UnreadPositions(ns, n)| == |UnreadPositions(ns, n - 1)| + (if ns[n - 1].isRead then 0 else 1)
  {
    var before := UnreadPositions(ns, n - 1);
    var after := UnreadPositions(ns, n);
    if ns[n - 1].isRead {
      assert after == before;
    } else {
      assert after == before + {n - 1};
      assert n - 1 !in before;
    }
  }

  /** No position comes before the first one, and no notification is kept from none. */
  lemma UnreadLengthBase(ns: seq<Notification>)
    ensures |Unread(ns[..0])| == |UnreadPositions(ns, 0)| == 0
  {
    assert ns[..0] == [];
    assert UnreadPositions(ns, 0) == {};
  }

  /** The count for the first `n` follows from the count for the first `n - 1`. */
  lemma UnreadLengthStep(ns: seq<Notification>, n: nat)
    requires 0 < n <= |ns|
    requires |Unread(ns[..n - 1])| == |UnreadPositions(ns, n - 1)|
    ensures |Unread(ns[..n])| == |UnreadPositions(ns, n)|
  {
    UnreadSnoc(ns, n);
    UnreadPositionsStep(ns, n);
  }

  /** The unread list has exactly as many entries as there are unread notifications. */
  lemma UnreadLength(ns: seq<Notification>)
    ensures |Unread(ns)| == |set i | 0 <= i < |ns| && !ns[i].isRead|
  {
    UnreadLengthBase(ns);
    var n := 0;
    while n < |ns|
      invariant n <= |ns|
      invariant |Unread(ns[..n])| == |UnreadPositions(ns, n)|
    {
      UnreadLengthStep(ns, n + 1);
      n := n + 1;
    }
    assert ns[..|ns|] == ns;
  }

  /** `unreadCount`: the number of positions holding an unread notification. */
  function UnreadCount(ns: seq<Notification>): (c: nat)
    ensures c == |set i | 0 <= i < |ns| && !ns[i].isRead|
    ensures c <= |ns|
    ensures c == 0 <==> forall i :: 0 <= i < |ns| ==> ns[i].isRead
  {
    var r := Unread(ns);
    UnreadLength(ns);
    assert r == [] <==> forall i :: 0 <= i < |ns| ==> ns[i].isRead by {
      if r != [] { assert r[0] in r; }
      if exists i :: 0 <= i < |ns| && !ns[i].isRead {
        var i :| 0 <= i < |ns| && !ns[i].isRead;
        assert ns[i] in r;
      }
    }
    |r|
  }

  /** Reading more notifications never raises the count. */
  lemma UnreadCountMonotone(a: seq<Notification>, b: seq<Notification>)
    requires |a| == |b| && forall i :: 0 <= i < |a| ==> a[i].isRead ==> b[i].isRead
    ensures UnreadCount(b) <= UnreadCount(a)
  {
    FewerUnreadPositions(a, b);
    CountIsPositions(a);
    CountIsPositions(b);
  }

  /** Where `a` is read, `b` is read, so every unread position of `b` is one of `a`. */
  lemma FewerUnreadPositions(a: seq<Notification>, b: seq<Notification>)
    requires |a| == |b| && forall i :: 0 <= i < |a| ==> a[i].isRead ==> b[i].isRead
    ensures |UnreadPositions(b, |b|)| <= |UnreadPositions(a, |a|)|
  {
    var pa, pb := UnreadPositions(a, |a|), UnreadPositions(b, |b|);
    forall i | i in pb
      ensures i in pa
    {
    }
    SubsetCard(pb, pa);
  }

  /** A subset has at most as many elements as the set holding it. */
  lemma SubsetCard(small: set<int>, big: set<int>)
    requires small <= big
    ensures |small| <= |big|
  {
    var rest := big - small;
    assert big == small + rest;
    assert small * rest == {};
  }

  /** The count is the number of unread positions of the whole list. */
  lemma CountIsPositions(ns: seq<Notification>)
    ensures UnreadCount(ns) == |UnreadPositions(ns, |ns|)|
  {
  }

  /** A click on one notification never raises the unread count. */
  lemma MarkAsReadNeverRaisesCount(ns: seq<Notification>, id: int)
    ensures UnreadCount(MarkAsRead(ns, id)) <= UnreadCount(ns)
  {
    UnreadCountMonotone(ns, MarkAsRead(ns, id));
  }

  /** The ids of the listed notifications, in list order. */
  function Ids(ns: seq<Notification>): (r: seq<int>)
    ensures |r| == |ns| && forall i :: 0 <= i < |ns| ==> r[i] == ns[i].id
  {
    seq(|ns|, i requires 0 <= i < |ns| => ns[i].id)
  }

  /** `markNotificationAsRead` for each of `ids` in turn, each reading the list the previous one
      left. */
  function MarkIds(ns: seq<Notification>, ids: seq<int>): seq<Notification>
    decreases |ids|
  {
    if ids == [] then ns
    else MarkAsRead(MarkIds(ns, ids[..|ids| - 1]), ids[|ids| - 1])
  }

  /** Marking one more id extends the fold by one step. */
  lemma MarkIdsStep(ns: seq<Notification>, ids: seq<int>, i: nat)
    requires i < |ids| && |ids| == |ns| && forall k :: 0 <= k < |ns| ==> ids[k] == ns[k].id
    ensures MarkIds(ns, ids[..i + 1]) == MarkAsRead(MarkIds(ns, ids[..i]), ns[i].id)
  {
    assert ids[..i + 1][..i] == ids[..i];
  }

  /** After the first `k` ids are marked, the first `k` notifications are read, and the list is
      the same apart from read flags. */
  lemma {:induction false} MarkIdsPrefix(ns: seq<Notification>, k: nat)
    requires k <= |ns|
    ensures var r := MarkIds(ns, Ids(ns)[..k]);
      |r| == |ns| &&
      (forall i :: 0 <= i < |ns| ==> SameButRead(r[i], ns[i]) && (ns[i].isRead ==> r[i].isRead)) &&
      forall i :: 0 <= i < k ==> r[i].isRead
  {
    if k == 0 {
      assert Ids(ns)[..0] == [];
    } else {
      MarkIdsPrefix(ns, k - 1);
      MarkIdsPrefixStep(ns, k);
    }
  }

  /** Marking the `k`-th id reads the `k`-th notification and keeps what the earlier ids did. */
  lemma MarkIdsPrefixStep(ns: seq<Notification>, k: nat)
    requires 0 < k <= |ns|
    requires var r := MarkIds(ns, Ids(ns)[..k - 1]);
      |r| == |ns| &&
      (forall i :: 0 <= i < |ns| ==> SameButRead(r[i], ns[i]) && (ns[i].isRead ==> r[i].isRead)) &&
      forall i :: 0 <= i < k - 1 ==> r[i].isRead
    ensures var r := MarkIds(ns, Ids(ns)[..k]);
      |r| == |ns| &&
      (forall i :: 0 <= i < |ns| ==> SameButRead(r[i], ns[i]) && (ns[i].isRead ==> r[i].isRead)) &&
      forall i :: 0 <= i < k ==> r[i].isRead
  {
    assert Ids(ns)[..k][..k - 1] == Ids(ns)[..k - 1];
    var prev := MarkIds(ns, Ids(ns)[..k - 1]);
    assert prev[k - 1].id == ns[k - 1].id by {
      assert SameButRead(prev[k - 1], ns[k - 1]);
      assert prev[k - 1].(isRead := false).id == prev[k - 1].id;
    }
  }

  /** Marking every listed id reads everything, keeps the list's length and order and every
      other field, and brings the count to zero. */
  lemma MarkAllReadsAll(ns: seq<Notification>)
    ensures var r := MarkIds(ns, Ids(ns));
      |r| == |ns| &&
      (forall i :: 0 <= i < |ns| ==> r[i].isRead && SameButRead(r[i], ns[i])) &&
      UnreadCount(r) == 0
  {
    MarkIdsPrefix(ns, |ns|);
    assert Ids(ns)[..|ns|] == Ids(ns);
  }

  /** The bell's badge, with the count, shown only while something is unread; the "Mark all as
      read" control is shown under the same condition. */
  function Badge(ns: seq<Notification>): (b: Option<nat>)
    ensures b.Some? <==> exists i :: 0 <= i < |ns| && !ns[i].isRead
    ensures b.Some? ==> b.value == UnreadCount(ns) && 0 < b.value <= |ns|
  {
    if UnreadCount(ns) > 0 then Some(UnreadCount(ns)) else None
  }

  predicate MarkAllOffered(ns: seq<Notification>) {
    UnreadCount(ns) > 0
  }

  /** After marking all, neither the badge nor the control is shown. */
  lemma MarkAllHidesControls(ns: seq<Notification>)
    ensures Badge(MarkIds(ns, Ids(ns))).None? && !MarkAllOffered(MarkIds(ns, Ids(ns)))
  {
    MarkAllReadsAll(ns);
  }

  /** The popover's open flag. */
  class NotificationCenterView {
    var open: bool

    constructor()
      ensures !open
    {
      open := false;
    }

    /** The trigger and outside clicks. */
    method SetOpen(b: bool)
      modifies this`open
      ensures open == b
    {
      open := b;
    }

    /** The "View all notifications" button. */
    method ViewAll()
      modifies this`open
      ensures !open
    {
      open := false;
    }

    /** A click on a row marks exactly the notifications with its id read and closes the
        popover. */
    method HandleNotificationClick(store: UserStore, n: Notification)
      modifies this`open, store
      ensures !open
      ensures store.notifications == MarkAsRead(old(store.notifications), n.id)
      ensures store.currentUser == old(store.currentUser) && store.isAuthenticated == old(store.isAuthenticated)
      ensures store.savedSlot == old(store.savedSlot)
      ensures UnreadCount(store.notifications) <= UnreadCount(old(store.notifications))
    {
      store.MarkNotificationAsRead(n.id);
      MarkAsReadNeverRaisesCount(old(store.notifications), n.id);
      open := false;
    }

    /** `handleMarkAllAsRead`: `markNotificationAsRead` for every listed notification in turn. */
    method HandleMarkAllAsRead(store: UserStore)
      modifies store
      ensures store.notifications == MarkIds(old(store.notifications), Ids(old(store.notifications)))
      ensures |store.notifications| == |old(store.notifications)|
      ensures forall i :: 0 <= i < |store.notifications| ==>
        store.notifications[i].isRead && SameButRead(store.notifications[i], old(store.notifications)[i])
      ensures UnreadCount(store.notifications) == 0
      ensures store.currentUser == old(store.currentUser) && store.isAuthenticated == old(store.isAuthenticated)
      ensures store.savedSlot == old(store.savedSlot)
    {
      var listed := store.GetNotifications();
      var ids := Ids(listed);
      var i := 0;
      while i < |listed|
        invariant i <= |listed|
        invariant store.notifications == MarkIds(listed, ids[..i])
        invariant store.currentUser == old(store.currentUser) && store.isAuthenticated == old(store.isAuthenticated)
        invariant store.savedSlot == old(store.savedSlot)
      {
        MarkIdsStep(listed, ids, i);
        store.MarkNotificationAsRead(listed[i].id);
        i := i + 1;
      }
      assert ids[..|listed|] == ids;
      MarkAllReadsAll(listed);
    }
  }
}
