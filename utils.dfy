/**
 * Queries over a user's notifications and the bulk read marker: the newest-first listing with
 * optional channel, unread and limit filters, the unread count behind a badge, and marking all
 * or some of a user's notifications read. Ids are positions, so newest first is descending id.
 */
module Utils {
  import opened Wrappers
  import opened Models
  import opened Channels

  /** The row belongs to the user and, when a channel is given, was created for that channel. */
  predicate Listed(n: Notification, user: UserId, channel: Option<string>, unreadOnly: bool) {
    n.recipient.id == user && (channel.None? || channel.value in n.channels) && (!unreadOnly || !n.IsRead())
  }

  predicate Descending(ids: seq<nat>) {
    forall a, b | 0 <= a < b < |ids| :: ids[a] > ids[b]
  }

  /** The ids below `k` of the listed rows, newest first. */
  function Matching(ns: seq<Notification>, k: nat, user: UserId, channel: Option<string>, unreadOnly: bool): (ids: seq<nat>)
    requires k <= |ns|
    ensures forall id: nat :: id in ids <==> id < k && Listed(ns[id], user, channel, unreadOnly)
    ensures Descending(ids)
  {
    if k == 0 then []
    else
      var rest := Matching(ns, k - 1, user, channel, unreadOnly);
      assert forall j | 0 <= j < |rest| :: rest[j] in rest;
      if Listed(ns[k - 1], user, channel, unreadOnly) then [k - 1] + rest else rest
  }

  /**
   * get_notifications: the user's notifications (on the channel, unread only if asked) newest
   * first, cut to the first `limit` when a limit is given.
   */
  function GetNotifications(ns: seq<Notification>, user: UserId, channel: Option<string>, unreadOnly: bool, limit: Option<nat>): (ids: seq<nat>)
    ensures Descending(ids)
    ensures forall id | id in ids :: id < |ns| && Listed(ns[id], user, channel, unreadOnly)
    ensures limit.Some? ==> |ids| <= limit.value
  {
    var all := Matching(ns, |ns|, user, channel, unreadOnly);
    if limit.Some? && limit.value < |all| then all[..limit.value] else all
  }

  /**
   * Without a limit every listed row is returned; with one, the result is the newest `limit` of
   * them: a prefix of the unlimited listing.
   */
  lemma GetNotificationsLimit(ns: seq<Notification>, user: UserId, channel: Option<string>, unreadOnly: bool, limit: nat)
    ensures forall id: nat :: id in GetNotifications(ns, user, channel, unreadOnly, None) <==>
      id < |ns| && Listed(ns[id], user, channel, unreadOnly)
    ensures
      var all := GetNotifications(ns, user, channel, unreadOnly, None);
      var some := GetNotifications(ns, user, channel, unreadOnly, Some(limit));
      |some| == (if limit < |all| then limit else |all|) && some == all[..|some|]
  {
  }

  /** The rows the listing selects, as a set of ids. */
  function ListedIds(ns: seq<Notification>, k: nat, user: UserId, channel: Option<string>, unreadOnly: bool): (r: set<nat>)
    requires k <= |ns|
    ensures forall id: nat :: id in r <==> id < k && Listed(ns[id], user, channel, unreadOnly)
  {
    if k == 0 then {}
    else ListedIds(ns, k - 1, user, channel, unreadOnly) + if Listed(ns[k - 1], user, channel, unreadOnly) then {k - 1} else {}
  }

  /** get_unread_count: the number of the user's unread notifications on the channel. */
  function UnreadCount(ns: seq<Notification>, user: UserId, channel: string): nat {
    |GetNotifications(ns, user, Some(channel), true, None)|
  }

  /** The listing has no duplicates, so its length is the number of rows it selects. */
  lemma {:induction false} MatchingCount(ns: seq<Notification>, k: nat, user: UserId, channel: Option<string>, unreadOnly: bool)
    requires k <= |ns|
    ensures |Matching(ns, k, user, channel, unreadOnly)| == |ListedIds(ns, k, user, channel, unreadOnly)|
  {
    if k > 0 {
      MatchingCount(ns, k - 1, user, channel, unreadOnly);
      assert k - 1 !in ListedIds(ns, k - 1, user, channel, unreadOnly);
    }
  }

  /** The badge count is the number of the user's unread rows on the channel. */
  lemma UnreadCountIsSize(ns: seq<Notification>, user: UserId, channel: string)
    ensures UnreadCount(ns, user, channel) == |ListedIds(ns, |ns|, user, Some(channel), true)|
  {
    MatchingCount(ns, |ns|, user, Some(channel), true);
  }

  /** A row is selected by mark_notifications_as_read: the user's, and among the ids when ids are given. */
  predicate Selected(ns: seq<Notification>, i: nat, user: UserId, ids: Option<set<nat>>)
    requires i < |ns|
  {
    ns[i].recipient.id == user && (ids.None? || i in ids.value)
  }

  /** The rows after marking: every selected row read, an already read one keeping its time. */
  function MarkedAsRead(ns: seq<Notification>, user: UserId, ids: Option<set<nat>>, now: nat): (r: seq<Notification>)
    ensures |r| == |ns|
    ensures forall i | 0 <= i < |ns| :: r[i] == if Selected(ns, i, user, ids) then ns[i].MarkedRead(now) else ns[i]
  {
    seq(|ns|, i requires 0 <= i < |ns| => if Selected(ns, i, user, ids) then ns[i].MarkedRead(now) else ns[i])
  }

  /**
   * mark_notifications_as_read: sets the read time of the user's unread notifications, all of
   * them or only the given ids.
   */
  method MarkNotificationsAsRead(db: Database, user: UserId, ids: Option<set<nat>>, now: nat)
    requires db.Valid()
    modifies db
    ensures db.Valid()
    ensures db.notifications == MarkedAsRead(old(db.notifications), user, ids, now)
    ensures db.channelPrefs == old(db.channelPrefs) && db.frequencyPrefs == old(db.frequencyPrefs)
    ensures db.outbox == old(db.outbox)
  {
    ghost var ns := db.notifications;
    var i := 0;
    while i < |db.notifications|
      invariant db.Valid() && |db.notifications| == |ns| && i <= |ns|
      invariant forall j | 0 <= j < i :: db.notifications[j] == MarkedAsRead(ns, user, ids, now)[j]
      invariant forall j | i <= j < |ns| :: db.notifications[j] == ns[j]
      invariant db.channelPrefs == old(db.channelPrefs) && db.frequencyPrefs == old(db.frequencyPrefs)
      invariant db.outbox == old(db.outbox)
    {
      var n := db.notifications[i];
      if n.recipient.id == user && (ids.None? || i in ids.value) && !n.IsRead() {
        db.MarkAsRead(i, now);
      }
      i := i + 1;
    }
    assert db.notifications == MarkedAsRead(ns, user, ids, now);
  }

  /**
   * After marking, every selected row is read, a row read before keeps its time, and rows of
   * other users or outside the ids are untouched; marking again changes nothing.
   */
  lemma MarkedAsReadEffect(ns: seq<Notification>, user: UserId, ids: Option<set<nat>>, now: nat, later: nat)
    ensures forall i | 0 <= i < |ns| && Selected(ns, i, user, ids) :: MarkedAsRead(ns, user, ids, now)[i].IsRead()
    ensures forall i | 0 <= i < |ns| && ns[i].IsRead() :: MarkedAsRead(ns, user, ids, now)[i].read == ns[i].read
    ensures forall i | 0 <= i < |ns| && !Selected(ns, i, user, ids) :: MarkedAsRead(ns, user, ids, now)[i] == ns[i]
    ensures MarkedAsRead(MarkedAsRead(ns, user, ids, now), user, ids, later) == MarkedAsRead(ns, user, ids, now)
  {
    var once := MarkedAsRead(ns, user, ids, now);
    forall i | 0 <= i < |ns|
      ensures MarkedAsRead(once, user, ids, later)[i] == once[i]
    {
      assert Selected(once, i, user, ids) == Selected(ns, i, user, ids);
      MarkAsReadIdempotent(ns[i], now, later);
    }
  }

  /** Marking all of a user's notifications leaves no unread count on any channel. */
  lemma MarkAllClearsUnread(ns: seq<Notification>, user: UserId, channel: string, now: nat)
    ensures UnreadCount(MarkedAsRead(ns, user, None, now), user, channel) == 0
  {
    var after := MarkedAsRead(ns, user, None, now);
    UnreadCountIsSize(after, user, channel);
    assert ListedIds(after, |after|, user, Some(channel), true) == {};
  }

  /** Marking one user's notifications changes neither the listings nor the counts of another user. */
  lemma MarkLeavesOthers(ns: seq<Notification>, user: UserId, other: UserId, ids: Option<set<nat>>, now: nat, channel: Option<string>, unreadOnly: bool)
    requires other != user
    ensures GetNotifications(MarkedAsRead(ns, user, ids, now), other, channel, unreadOnly, None) ==
            GetNotifications(ns, other, channel, unreadOnly, None)
  {
    var after := MarkedAsRead(ns, user, ids, now);
    MatchingAgree(ns, after, |ns|, other, channel, unreadOnly);
  }

  /** Two tables that agree on which rows are listed give the same listing. */
  lemma {:induction false} MatchingAgree(a: seq<Notification>, b: seq<Notification>, k: nat, user: UserId, channel: Option<string>, unreadOnly: bool)
    requires k <= |a| && k <= |b|
    requires forall i | 0 <= i < k :: Listed(a[i], user, channel, unreadOnly) == Listed(b[i], user, channel, unreadOnly)
    ensures Matching(a, k, user, channel, unreadOnly) == Matching(b, k, user, channel, unreadOnly)
  {
    if k > 0 {
      MatchingAgree(a, b, k - 1, user, channel, unreadOnly);
    }
  }
}
