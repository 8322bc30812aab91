/**
 * The digest job: for a target frequency, every unread notification whose email row is pending
 * and whose type's effective email frequency for its recipient is the target is collected; each
 * recipient gets one message listing all of theirs, newest first, and every listed row is marked
 * sent. A dry run only counts.
 */
module Digest {
  import opened Wrappers
  import opened Catalog
  import opened Definitions
  import opened Registry
  import opened Models
  import opened Types
  import opened Channels

  const EmailKey := EmailChannel.key

  /** A notification the digest for `target` must deliver. */
  predicate Qualifies(types: Entries<NotificationType>, freqs: Entries<Frequency>, fprefs: FrequencyPrefs,
                      n: Notification, target: string)
    requires KeyedFrequencies(freqs)
  {
    EmailKey in n.channels && !n.IsSentOn(EmailKey) && !n.IsRead() &&
    NotificationFrequency(types, freqs, fprefs, n).Ok? &&
    NotificationFrequency(types, freqs, fprefs, n).value.key == target
  }

  /** Ids below `k` of the qualifying notifications, newest (highest id) first. */
  function PendingIds(types: Entries<NotificationType>, freqs: Entries<Frequency>, fprefs: FrequencyPrefs,
                      ns: seq<Notification>, target: string, k: nat): (ids: seq<nat>)
    requires KeyedFrequencies(freqs) && k <= |ns|
    ensures forall x | x in ids :: x < k
    ensures IdsIn(ids, ns)
    decreases k
  {
    if k == 0 then []
    else
      var rest := PendingIds(types, freqs, fprefs, ns, target, k - 1);
      if Qualifies(types, freqs, fprefs, ns[k - 1], target) then [k - 1] + rest else rest
  }

  /** The pending ids are exactly the qualifying rows below `k`. */
  lemma {:induction false} PendingIdsMembers(types: Entries<NotificationType>, freqs: Entries<Frequency>, fprefs: FrequencyPrefs,
                                             ns: seq<Notification>, target: string, k: nat)
    requires KeyedFrequencies(freqs) && k <= |ns|
    ensures forall j: nat :: j in PendingIds(types, freqs, fprefs, ns, target, k) <==> j < k && Qualifies(types, freqs, fprefs, ns[j], target)
    decreases k
  {
    if k > 0 {
      PendingIdsMembers(types, freqs, fprefs, ns, target, k - 1);
    }
  }

  /** Strictly decreasing ids: newest first. */
  predicate NewestFirst(ids: seq<nat>) {
    forall a, c :: 0 <= a < c < |ids| ==> ids[a] > ids[c]
  }

  lemma {:induction false} PendingNewestFirst(types: Entries<NotificationType>, freqs: Entries<Frequency>, fprefs: FrequencyPrefs,
                                              ns: seq<Notification>, target: string, k: nat)
    requires KeyedFrequencies(freqs) && k <= |ns|
    ensures NewestFirst(PendingIds(types, freqs, fprefs, ns, target, k))
    decreases k
  {
    if k > 0 {
      PendingNewestFirst(types, freqs, fprefs, ns, target, k - 1);
      var rest := PendingIds(types, freqs, fprefs, ns, target, k - 1);
      var ids := PendingIds(types, freqs, fprefs, ns, target, k);
      if Qualifies(types, freqs, fprefs, ns[k - 1], target) {
        assert ids == [k - 1] + rest;
        forall a, c | 0 <= a < c < |ids| ensures ids[a] > ids[c] {
          assert ids[c] == rest[c - 1] && rest[c - 1] in rest;
          if a > 0 {
            assert ids[a] == rest[a - 1];
          }
        }
      }
    }
  }

  /** The recipients with an address among the given rows, each once, in order of first appearance. */
  function Recipients(ns: seq<Notification>, ids: seq<nat>): (us: seq<User>)
    requires IdsIn(ids, ns)
    ensures forall u | u in us :: u.email != "" && exists a :: 0 <= a < |ids| && ns[ids[a]].recipient == u
    ensures forall a :: 0 <= a < |ids| && ns[ids[a]].recipient.email != "" ==> ns[ids[a]].recipient in us
    decreases |ids|
  {
    if ids == [] then []
    else
      var init := ids[..|ids| - 1];
      var prev := Recipients(ns, init);
      var u := ns[ids[|ids| - 1]].recipient;
      assert forall a :: 0 <= a < |init| ==> init[a] == ids[a];
      if u.email == "" || u in prev then prev else prev + [u]
  }

  predicate Unique(us: seq<User>) {
    forall a, b :: 0 <= a < b < |us| ==> us[a] != us[b]
  }

  /** No recipient is listed twice. */
  lemma {:induction false} RecipientsDistinct(ns: seq<Notification>, ids: seq<nat>)
    requires IdsIn(ids, ns)
    ensures Unique(Recipients(ns, ids))
    decreases |ids|
  {
    if ids != [] {
      RecipientsDistinct(ns, ids[..|ids| - 1]);
      var prev := Recipients(ns, ids[..|ids| - 1]);
      var us := Recipients(ns, ids);
      var u := ns[ids[|ids| - 1]].recipient;
      assert Unique(prev);
      if !(u.email == "" || u in prev) {
        assert us == prev + [u];
        forall a, b | 0 <= a < b < |us| ensures us[a] != us[b] {
          assert us[a] == prev[a] && prev[a] in prev;
          if b < |prev| {
            assert us[b] == prev[b];
          } else {
            assert us[b] == u;
          }
        }
      } else {
        assert us == prev;
      }
    }
  }

  /** The rows of one recipient, in the given order. */
  function UserBatch(ns: seq<Notification>, ids: seq<nat>, u: User): (b: seq<nat>)
    requires IdsIn(ids, ns)
    ensures IdsIn(b, ns)
    ensures forall x :: x in b <==> x in ids && ns[x].recipient == u
    decreases |ids|
  {
    if ids == [] then []
    else
      var rest := UserBatch(ns, ids[1..], u);
      if ns[ids[0]].recipient == u then [ids[0]] + rest else rest
  }

  lemma {:induction false} UserBatchNewestFirst(ns: seq<Notification>, ids: seq<nat>, u: User)
    requires IdsIn(ids, ns) && NewestFirst(ids)
    ensures NewestFirst(UserBatch(ns, ids, u))
    decreases |ids|
  {
    if ids != [] {
      assert NewestFirst(ids[1..]);
      UserBatchNewestFirst(ns, ids[1..], u);
      var rest := UserBatch(ns, ids[1..], u);
      forall x | x in rest ensures x < ids[0] {
        var c :| 0 <= c < |ids[1..]| && ids[1..][c] == x;
        assert ids[c + 1] == x;
      }
      var b := UserBatch(ns, ids, u);
      if ns[ids[0]].recipient == u {
        assert b == [ids[0]] + rest;
        forall a, c | 0 <= a < c < |b| ensures b[a] > b[c] {
          assert b[c] == rest[c - 1] && rest[c - 1] in rest;
          if a > 0 {
            assert b[a] == rest[a - 1];
          }
        }
      }
    }
  }

  datatype Batch = Batch(user: User, ids: seq<nat>)

  predicate PlanIn(plan: seq<Batch>, ns: seq<Notification>) {
    forall i :: 0 <= i < |plan| ==> IdsIn(plan[i].ids, ns)
  }

  function BatchesFor(ns: seq<Notification>, pend: seq<nat>, us: seq<User>): (plan: seq<Batch>)
    requires IdsIn(pend, ns)
    ensures |plan| == |us|
    ensures forall i :: 0 <= i < |us| ==> plan[i] == Batch(us[i], UserBatch(ns, pend, us[i]))
    ensures PlanIn(plan, ns)
  {
    if us == [] then [] else [Batch(us[0], UserBatch(ns, pend, us[0]))] + BatchesFor(ns, pend, us[1..])
  }

  /**
   * The digests the job sends: one batch per recipient with an address, holding all of that
   * recipient's qualifying rows, newest first.
   */
  function Plan(types: Entries<NotificationType>, freqs: Entries<Frequency>, fprefs: FrequencyPrefs,
                ns: seq<Notification>, target: string): (plan: seq<Batch>)
    requires KeyedFrequencies(freqs)
    ensures PlanIn(plan, ns)
  {
    var pend := PendingIds(types, freqs, fprefs, ns, target, |ns|);
    BatchesFor(ns, pend, Recipients(ns, pend))
  }

  /** Each batch is non-empty and goes to a recipient with an address. */
  lemma PlanBatchesNonEmpty(types: Entries<NotificationType>, freqs: Entries<Frequency>, fprefs: FrequencyPrefs,
                            ns: seq<Notification>, target: string, i: nat)
    requires KeyedFrequencies(freqs)
    requires i < |Plan(types, freqs, fprefs, ns, target)|
    ensures Plan(types, freqs, fprefs, ns, target)[i].ids != []
    ensures Plan(types, freqs, fprefs, ns, target)[i].user.email != ""
  {
    var pend := PendingIds(types, freqs, fprefs, ns, target, |ns|);
    var us := Recipients(ns, pend);
    assert us[i] in us;
    var a :| 0 <= a < |pend| && ns[pend[a]].recipient == us[i];
    assert pend[a] in UserBatch(ns, pend, us[i]);
  }

  lemma PlanReady(types: Entries<NotificationType>, freqs: Entries<Frequency>, fprefs: FrequencyPrefs,
                  ns: seq<Notification>, target: string)
    requires KeyedFrequencies(freqs)
    ensures var plan := Plan(types, freqs, fprefs, ns, target);
      forall i :: 0 <= i < |plan| ==> plan[i].ids != [] && plan[i].user.email != ""
  {
    var plan := Plan(types, freqs, fprefs, ns, target);
    forall i | 0 <= i < |plan| ensures plan[i].ids != [] && plan[i].user.email != "" {
      PlanBatchesNonEmpty(types, freqs, fprefs, ns, target, i);
    }
  }

  /** Each batch lists its rows newest first. */
  lemma PlanBatchNewestFirst(types: Entries<NotificationType>, freqs: Entries<Frequency>, fprefs: FrequencyPrefs,
                             ns: seq<Notification>, target: string, i: nat)
    requires KeyedFrequencies(freqs)
    requires i < |Plan(types, freqs, fprefs, ns, target)|
    ensures NewestFirst(Plan(types, freqs, fprefs, ns, target)[i].ids)
  {
    var pend := PendingIds(types, freqs, fprefs, ns, target, |ns|);
    PendingNewestFirst(types, freqs, fprefs, ns, target, |ns|);
    UserBatchNewestFirst(ns, pend, Recipients(ns, pend)[i]);
  }

  /** No recipient gets two digests in one run. */
  lemma PlanUsersDistinct(types: Entries<NotificationType>, freqs: Entries<Frequency>, fprefs: FrequencyPrefs,
                          ns: seq<Notification>, target: string, i: nat, j: nat)
    requires KeyedFrequencies(freqs)
    requires i < j < |Plan(types, freqs, fprefs, ns, target)|
    ensures Plan(types, freqs, fprefs, ns, target)[i].user != Plan(types, freqs, fprefs, ns, target)[j].user
  {
    var pend := PendingIds(types, freqs, fprefs, ns, target, |ns|);
    var us := Recipients(ns, pend);
    RecipientsDistinct(ns, pend);
    var plan := BatchesFor(ns, pend, us);
    assert Plan(types, freqs, fprefs, ns, target) == plan;
    assert Unique(us);
    assert plan[i].user == us[i] && plan[j].user == us[j];
  }

  /** Each planned row qualifies and belongs to its batch's recipient. */
  lemma PlanRowsQualify(types: Entries<NotificationType>, freqs: Entries<Frequency>, fprefs: FrequencyPrefs,
                        ns: seq<Notification>, target: string, i: nat, x: nat)
    requires KeyedFrequencies(freqs)
    requires i < |Plan(types, freqs, fprefs, ns, target)| && x in Plan(types, freqs, fprefs, ns, target)[i].ids
    ensures x < |ns| && Qualifies(types, freqs, fprefs, ns[x], target)
    ensures ns[x].recipient == Plan(types, freqs, fprefs, ns, target)[i].user
  {
    var pend := PendingIds(types, freqs, fprefs, ns, target, |ns|);
    PendingIdsMembers(types, freqs, fprefs, ns, target, |ns|);
    assert x in pend;
  }

  /** Every qualifying row of a recipient with an address is in one of the planned batches. */
  lemma PlanCoversPending(types: Entries<NotificationType>, freqs: Entries<Frequency>, fprefs: FrequencyPrefs,
                          ns: seq<Notification>, target: string, j: nat)
    requires KeyedFrequencies(freqs)
    requires j < |ns| && Qualifies(types, freqs, fprefs, ns[j], target) && ns[j].recipient.email != ""
    ensures exists i :: 0 <= i < |Plan(types, freqs, fprefs, ns, target)| && j in Plan(types, freqs, fprefs, ns, target)[i].ids
  {
    var plan := Plan(types, freqs, fprefs, ns, target);
    var pend := PendingIds(types, freqs, fprefs, ns, target, |ns|);
    var us := Recipients(ns, pend);
    PendingIdsMembers(types, freqs, fprefs, ns, target, |ns|);
    assert j in pend;
    var a :| 0 <= a < |pend| && pend[a] == j;
    var i :| 0 <= i < |us| && us[i] == ns[j].recipient;
    assert j in plan[i].ids;
  }

  /** The store after every batch of the plan has been marked sent on the email channel. */
  function MarkBatches(ns: seq<Notification>, plan: seq<Batch>, now: nat): (r: seq<Notification>)
    requires AllValid(ns) && PlanIn(plan, ns)
    ensures |r| == |ns| && AllValid(r)
    decreases |plan|
  {
    if plan == [] then ns
    else
      var prev := MarkBatches(ns, plan[..|plan| - 1], now);
      MarkAllSent(prev, plan[|plan| - 1].ids, EmailKey, now)
  }

  /** Marking only sets sent timestamps: every other field stays, and a sent row stays sent. */
  predicate OnlySentGrows(ns: seq<Notification>, ms: seq<Notification>) {
    |ns| == |ms| &&
    (forall j | 0 <= j < |ns| :: ms[j].(sentAt := ns[j].sentAt) == ns[j]) &&
    (forall j, k | 0 <= j < |ns| && k in ns[j].sentAt :: k in ms[j].sentAt)
  }

  lemma MarkAllSentGrows(ns: seq<Notification>, ids: seq<nat>, now: nat)
    requires IdsIn(ids, ns) && AllValid(ns)
    ensures OnlySentGrows(ns, MarkAllSent(ns, ids, EmailKey, now))
  {
    forall j | 0 <= j < |ns| {
      MarkAllSentEffect(ns, ids, EmailKey, now, j);
    }
  }

  lemma {:induction false} MarkBatchesGrows(ns: seq<Notification>, plan: seq<Batch>, now: nat)
    requires AllValid(ns) && PlanIn(plan, ns)
    ensures OnlySentGrows(ns, MarkBatches(ns, plan, now))
    decreases |plan|
  {
    if plan != [] {
      var init := plan[..|plan| - 1];
      MarkBatchesGrows(ns, init, now);
      var prev := MarkBatches(ns, init, now);
      MarkAllSentGrows(prev, plan[|plan| - 1].ids, now);
      var r := MarkBatches(ns, plan, now);
      forall j | 0 <= j < |ns| ensures r[j].(sentAt := ns[j].sentAt) == ns[j] {
        assert r[j].(sentAt := prev[j].sentAt) == prev[j];
      }
    }
  }

  /** Every row of every batch that has an email row ends up sent on it. */
  lemma {:induction false} MarkBatchesMarks(ns: seq<Notification>, plan: seq<Batch>, now: nat, i: nat, x: nat)
    requires AllValid(ns) && PlanIn(plan, ns)
    requires i < |plan| && x in plan[i].ids && EmailKey in ns[x].channels
    ensures x < |ns| && MarkBatches(ns, plan, now)[x].IsSentOn(EmailKey)
    decreases |plan|
  {
    var init := plan[..|plan| - 1];
    var prev := MarkBatches(ns, init, now);
    MarkBatchesGrows(ns, init, now);
    var last := plan[|plan| - 1];
    assert x < |ns|;
    assert prev[x].(sentAt := ns[x].sentAt) == ns[x];
    MarkAllSentEffect(prev, last.ids, EmailKey, now, x);
    if i < |plan| - 1 {
      MarkBatchesMarks(ns, init, now, i, x);
    }
  }

  /** After the run, a row that still qualifies belongs to a recipient without an address. */
  lemma QualifyingAfterRun(types: Entries<NotificationType>, freqs: Entries<Frequency>, fprefs: FrequencyPrefs,
                           ns: seq<Notification>, target: string, now: nat, j: nat)
    requires KeyedFrequencies(freqs) && AllValid(ns)
    requires var ms := MarkBatches(ns, Plan(types, freqs, fprefs, ns, target), now);
      j < |ms| && Qualifies(types, freqs, fprefs, ms[j], target)
    ensures MarkBatches(ns, Plan(types, freqs, fprefs, ns, target), now)[j].recipient.email == ""
  {
    var plan := Plan(types, freqs, fprefs, ns, target);
    var ms := MarkBatches(ns, plan, now);
    MarkBatchesGrows(ns, plan, now);
    assert ms[j].(sentAt := ns[j].sentAt) == ns[j];
    assert NotificationFrequency(types, freqs, fprefs, ms[j]) == NotificationFrequency(types, freqs, fprefs, ns[j]);
    assert !ns[j].IsSentOn(EmailKey);
    assert Qualifies(types, freqs, fprefs, ns[j], target);
    if ns[j].recipient.email != "" {
      PlanCoversPending(types, freqs, fprefs, ns, target, j);
      var i :| 0 <= i < |plan| && j in plan[i].ids;
      MarkBatchesMarks(ns, plan, now, i, j);
    }
  }

  /**
   * The job is idempotent: once a run has marked its plan, a second run with the same target
   * finds nothing to send.
   */
  lemma RunLeavesNothingPending(types: Entries<NotificationType>, freqs: Entries<Frequency>, fprefs: FrequencyPrefs,
                                ns: seq<Notification>, target: string, now: nat)
    requires KeyedFrequencies(freqs) && AllValid(ns)
    ensures Plan(types, freqs, fprefs, MarkBatches(ns, Plan(types, freqs, fprefs, ns, target), now), target) == []
  {
    var ms := MarkBatches(ns, Plan(types, freqs, fprefs, ns, target), now);
    var pend := PendingIds(types, freqs, fprefs, ms, target, |ms|);
    var us := Recipients(ms, pend);
    if us != [] {
      var a :| 0 <= a < |pend| && ms[pend[a]].recipient == us[0];
      PendingIdsMembers(types, freqs, fprefs, ms, target, |ms|);
      assert pend[a] in pend;
      QualifyingAfterRun(types, freqs, fprefs, ns, target, now, pend[a]);
    }
  }

  /** The messages of a plan, in plan order. */
  function Messages(ns: seq<Notification>, plan: seq<Batch>, f: Frequency): (ms: seq<EmailMessage>)
    requires PlanIn(plan, ns)
    ensures |ms| == |plan|
    ensures forall i :: 0 <= i < |plan| ==> ms[i] == DigestMessage(plan[i].user, f, Pick(ns, plan[i].ids))
  {
    seq(|plan|, i requires 0 <= i < |plan| => DigestMessage(plan[i].user, f, Pick(ns, plan[i].ids)))
  }

  /** A digest message depends only on text and url, which marking leaves alone. */
  lemma MessageSurvivesMarking(ns: seq<Notification>, ms: seq<Notification>, user: User, f: Frequency, ids: seq<nat>)
    requires OnlySentGrows(ns, ms) && IdsIn(ids, ns)
    ensures DigestMessage(user, f, Pick(ms, ids)) == DigestMessage(user, f, Pick(ns, ids))
  {
    var a := DigestEntries(Pick(ms, ids));
    var b := DigestEntries(Pick(ns, ids));
    forall i | 0 <= i < |ids| ensures a[i] == b[i] {
      assert ms[ids[i]].(sentAt := ns[ids[i]].sentAt) == ns[ids[i]];
    }
    assert a == b;
  }

  /**
   * One step of the run: marking batch `i` after the first `i` gives the first `i + 1`, and its
   * message, built from the store as it stands, is the next message of the plan.
   */
  lemma RunPlanStep(ns: seq<Notification>, cur: seq<Notification>, plan: seq<Batch>, f: Frequency, now: nat, i: nat)
    requires AllValid(ns) && PlanIn(plan, ns) && i < |plan|
    requires PlanIn(plan[..i], ns) && cur == MarkBatches(ns, plan[..i], now)
    ensures PlanIn(plan[..i + 1], ns) && IdsIn(plan[i].ids, cur) && AllValid(cur)
    ensures MarkAllSent(cur, plan[i].ids, EmailKey, now) == MarkBatches(ns, plan[..i + 1], now)
    ensures Messages(ns, plan[..i], f) + [DigestMessage(plan[i].user, f, Pick(cur, plan[i].ids))] == Messages(ns, plan[..i + 1], f)
  {
    assert plan[..i + 1][..i] == plan[..i];
    assert IdsIn(plan[i].ids, ns);
    MarkBatchesGrows(ns, plan[..i], now);
    MessageSurvivesMarking(ns, cur, plan[i].user, f, plan[i].ids);
    MessagesSnoc(ns, plan, f, i);
  }

  lemma MessagesSnoc(ns: seq<Notification>, plan: seq<Batch>, f: Frequency, i: nat)
    requires PlanIn(plan, ns) && i < |plan|
    ensures PlanIn(plan[..i], ns) && PlanIn(plan[..i + 1], ns)
    ensures Messages(ns, plan[..i + 1], f) == Messages(ns, plan[..i], f) + [DigestMessage(plan[i].user, f, Pick(ns, plan[i].ids))]
  {
    assert IdsIn(plan[i].ids, ns);
  }

  /** Sends each planned digest in turn and marks its rows. */
  method RunPlan(db: Database, plan: seq<Batch>, f: Frequency, now: nat)
    requires db.Valid() && PlanIn(plan, db.notifications)
    requires forall i :: 0 <= i < |plan| ==> plan[i].ids != [] && plan[i].user.email != ""
    modifies db
    ensures db.Valid()
    ensures db.channelPrefs == old(db.channelPrefs) && db.frequencyPrefs == old(db.frequencyPrefs)
    ensures db.notifications == MarkBatches(old(db.notifications), plan, now)
    ensures db.outbox == old(db.outbox) + Messages(old(db.notifications), plan, f)
  {
    ghost var ns0 := db.notifications;
    assert AllValid(ns0);
    var i := 0;
    while i < |plan|
      invariant 0 <= i <= |plan|
      invariant db.Valid()
      invariant db.channelPrefs == old(db.channelPrefs) && db.frequencyPrefs == old(db.frequencyPrefs)
      invariant PlanIn(plan, ns0) && AllValid(ns0) && PlanIn(plan[..i], ns0)
      invariant db.notifications == MarkBatches(ns0, plan[..i], now)
      invariant db.outbox == old(db.outbox) + Messages(ns0, plan[..i], f)
    {
      RunPlanStep(ns0, db.notifications, plan, f, now, i);
      ghost var before := db.outbox;
      var sent := SendDigest(db, plan[i].user, f, plan[i].ids, now);
      assert sent;
      assert db.outbox == old(db.outbox) + (Messages(ns0, plan[..i], f) + [DigestMessage(plan[i].user, f, Pick(MarkBatches(ns0, plan[..i], now), plan[i].ids))]);
      i := i + 1;
    }
    assert plan[..|plan|] == plan;
  }

  /**
   * send_digest_notifications. An unknown or realtime target is a no-op; a dry run changes
   * nothing; otherwise each planned recipient gets their digest and their rows are marked. The
   * result is the number of digests (that would have been) sent.
   */
  method SendDigestNotifications(db: Database, reg: NotificationRegistry, target: string, dryRun: bool, now: nat)
    returns (count: nat)
    requires db.Valid() && reg.Valid()
    modifies db
    ensures db.Valid()
    ensures db.channelPrefs == old(db.channelPrefs) && db.frequencyPrefs == old(db.frequencyPrefs)
    ensures Find(reg.frequencies, target).None? || Find(reg.frequencies, target).value.isRealtime ==>
      count == 0 && db.notifications == old(db.notifications) && db.outbox == old(db.outbox)
    ensures Find(reg.frequencies, target).Some? && !Find(reg.frequencies, target).value.isRealtime ==>
      count == |Plan(reg.types, reg.frequencies, old(db.frequencyPrefs), old(db.notifications), target)|
    ensures dryRun ==> db.notifications == old(db.notifications) && db.outbox == old(db.outbox)
    ensures Find(reg.frequencies, target).Some? && !Find(reg.frequencies, target).value.isRealtime && !dryRun ==>
      db.notifications == MarkBatches(old(db.notifications), Plan(reg.types, reg.frequencies, old(db.frequencyPrefs), old(db.notifications), target), now) &&
      db.outbox == old(db.outbox) + Messages(old(db.notifications), Plan(reg.types, reg.frequencies, old(db.frequencyPrefs), old(db.notifications), target), Find(reg.frequencies, target).value)
  {
    var found := Find(reg.frequencies, target);
    if found.None? || found.value.isRealtime {
      return 0;
    }
    var plan := Plan(reg.types, reg.frequencies, db.frequencyPrefs, db.notifications, target);
    count := |plan|;
    if !dryRun {
      PlanReady(reg.types, reg.frequencies, db.frequencyPrefs, db.notifications, target);
      RunPlan(db, plan, found.value, now);
    }
  }
}
