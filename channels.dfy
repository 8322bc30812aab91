/**
 * Channel behaviour: `process` (send now under a realtime frequency, otherwise leave the row
 * pending), the email channel's `send_now` and `send_digest`, and the plain-text message formats
 * they produce.
 */
module Channels {
  import opened Wrappers
  import opened Text
  import opened Catalog
  import opened Definitions
  import opened Registry
  import opened Models
  import opened Types

  /** EmailChannel.should_send: delivery needs an address. */
  predicate ShouldSend(n: Notification) {
    n.recipient.email != ""
  }

  /** Subject of an immediate email: the stored subject, else the type's description. */
  function NowSubject(t: NotificationType, n: Notification): (s: string)
    ensures s == "" ==> n.subject == "" && t.description == ""
    ensures n.subject != "" ==> s == n.subject
    ensures n.subject == "" ==> s == t.description
  {
    if n.subject != "" then n.subject else t.description
  }

  /** Body of an immediate email: the text, then the url on its own line when there is one. */
  function NowBody(n: Notification): (b: string)
    ensures StartsWith(b, n.text)
    ensures n.url == "" ==> b == n.text
    ensures n.url != "" ==> |b| == |n.text| + 1 + |n.url| && EndsWith(b, "\n" + n.url)
  {
    if n.url != "" then
      assert (n.text + "\n" + n.url)[..|n.text|] == n.text;
      assert (n.text + "\n" + n.url)[|n.text|..] == "\n" + n.url;
      n.text + "\n" + n.url
    else n.text
  }

  function NowMessage(t: NotificationType, n: Notification): EmailMessage {
    EmailMessage(n.recipient.email, NowSubject(t, n), NowBody(n))
  }

  function Plural(count: nat): string {
    if count == 1 then "" else "s"
  }

  /** "<Frequency name> digest - N new notification(s)" */
  function DigestSubject(f: Frequency, count: nat): (s: string)
    ensures StartsWith(s, f.name + " digest - ")
    ensures s[|f.name + " digest - "|..] == NatToString(count) + " new notification" + Plural(count)
  {
    var s := f.name + " digest - " + NatToString(count) + " new notification" + Plural(count);
    assert s[..|f.name + " digest - "|] == f.name + " digest - ";
    assert s == (f.name + " digest - ") + (NatToString(count) + " new notification" + Plural(count));
    s
  }

  /** The subject line states the count exactly: two different counts never share a subject. */
  lemma DigestSubjectDeterminesCount(f: Frequency, m: nat, n: nat)
    requires DigestSubject(f, m) == DigestSubject(f, n)
    ensures m == n
  {
    var p := f.name + " digest - ";
    var xm := " new notification" + Plural(m);
    var xn := " new notification" + Plural(n);
    assert DigestSubject(f, m) == p + (NatToString(m) + xm);
    assert DigestSubject(f, n) == p + (NatToString(n) + xn);
    assert NatToString(m) + xm == (p + (NatToString(m) + xm))[|p|..];
    assert NatToString(n) + xn == (p + (NatToString(n) + xn))[|p|..];
    DigitsThenSpace(NatToString(m), xm, NatToString(n), xn);
    NatToStringInjective(m, n);
  }

  /** The plural "notifications" is used exactly when the count is not one. */
  lemma DigestSubjectPlural(f: Frequency, count: nat)
    ensures EndsWith(DigestSubject(f, count), "notifications") <==> count != 1
  {
    var s := DigestSubject(f, count);
    var stem := f.name + " digest - " + NatToString(count) + " new notification";
    if count == 1 {
      assert s == stem;
      assert s[|s| - 1] == 'n';
    } else {
      assert s == stem + "s";
      assert s[|s| - |"notifications"|..] == "notifications";
    }
  }

  /** One digest line: "- text", then "  url" on the next line when there is a url. */
  function DigestEntry(n: Notification): (e: string)
    ensures StartsWith(e, "- " + n.text)
    ensures n.url == "" ==> e == "- " + n.text
    ensures n.url != "" ==> e[|"- " + n.text|..] == "\n  " + n.url
  {
    var head := "- " + n.text;
    if n.url != "" then
      assert (head + "\n  " + n.url)[..|head|] == head;
      assert (head + "\n  " + n.url)[|head|..] == "\n  " + n.url;
      head + "\n  " + n.url
    else head
  }

  function DigestEntries(ns: seq<Notification>): (es: seq<string>)
    ensures |es| == |ns|
    ensures forall i :: 0 <= i < |ns| ==> es[i] == DigestEntry(ns[i])
  {
    seq(|ns|, i requires 0 <= i < |ns| => DigestEntry(ns[i]))
  }

  function DigestHeader(count: nat): string {
    "You have " + NatToString(count) + " new notification" + Plural(count) + ":\n\n"
  }

  /** Digest body: the header with the count, then one entry per notification in the given order. */
  function DigestBody(ns: seq<Notification>): (b: string)
    ensures StartsWith(b, DigestHeader(|ns|))
    ensures b[|DigestHeader(|ns|)|..] == Join(DigestEntries(ns), "\n")
  {
    var h := DigestHeader(|ns|);
    var b := h + Join(DigestEntries(ns), "\n");
    assert b[..|h|] == h;
    assert b[|h|..] == Join(DigestEntries(ns), "\n");
    b
  }

  /**
   * The entries follow the order of the notifications: adding one more notification to a digest
   * adds its entry as the last line.
   */
  lemma DigestBodyAppend(ns: seq<Notification>, n: Notification)
    requires ns != []
    ensures DigestBody(ns + [n])[|DigestHeader(|ns| + 1)|..] ==
      DigestBody(ns)[|DigestHeader(|ns|)|..] + "\n" + DigestEntry(n)
  {
    assert DigestEntries(ns + [n]) == DigestEntries(ns) + [DigestEntry(n)];
    JoinAppend(DigestEntries(ns), "\n", DigestEntry(n));
  }

  /** Every notification of a digest appears in its body, text and url line together. */
  lemma DigestBodyListsEach(ns: seq<Notification>, i: nat)
    requires i < |ns|
    ensures Contains(DigestBody(ns), DigestEntry(ns[i]))
    ensures Contains(DigestBody(ns), "- " + ns[i].text)
  {
    var es := DigestEntries(ns);
    JoinContains(es, "\n", i);
    ContainsAfterPrefix(DigestHeader(|ns|), Join(es, "\n"), es[i]);
    var e := DigestEntry(ns[i]);
    var head := "- " + ns[i].text;
    var n := ns[i];
    if n.url != "" {
      assert e == head + ("\n  " + n.url);
      ContainsPrefix(head, "\n  " + n.url, head);
    } else {
      assert StartsWith(e, head);
    }
    ContainsWithin(DigestBody(ns), e, head);
  }

  /** A string containing `mid`, where `mid` contains `sub`, contains `sub`. */
  lemma {:induction false} ContainsWithin(s: string, mid: string, sub: string)
    requires Contains(s, mid) && Contains(mid, sub)
    ensures Contains(s, sub)
    decreases |s|
  {
    if StartsWith(s, mid) {
      assert s == mid + s[|mid|..];
      ContainsInPrefix(mid, s[|mid|..], sub);
    } else {
      ContainsWithin(s[1..], mid, sub);
      assert s == [s[0]] + s[1..];
      ContainsAfterPrefix([s[0]], s[1..], sub);
    }
  }

  lemma {:induction false} ContainsInPrefix(s: string, rest: string, sub: string)
    requires Contains(s, sub)
    ensures Contains(s + rest, sub)
    decreases |s|
  {
    if StartsWith(s, sub) {
      ContainsPrefix(s, rest, sub);
    } else {
      ContainsInPrefix(s[1..], rest, sub);
      assert (s + rest)[1..] == s[1..] + rest;
    }
  }

  function DigestMessage(user: User, f: Frequency, ns: seq<Notification>): EmailMessage {
    EmailMessage(user.email, DigestSubject(f, |ns|), DigestBody(ns))
  }

  /** Every id names a stored notification. */
  predicate IdsIn(ids: seq<nat>, ns: seq<Notification>) {
    forall i :: 0 <= i < |ids| ==> ids[i] < |ns|
  }

  /** The notifications with the given ids, in the order of the ids. */
  function Pick(ns: seq<Notification>, ids: seq<nat>): (r: seq<Notification>)
    requires IdsIn(ids, ns)
    ensures |r| == |ids|
    ensures forall i :: 0 <= i < |ids| ==> r[i] == ns[ids[i]]
  {
    seq(|ids|, i requires 0 <= i < |ids| => ns[ids[i]])
  }

  predicate AllValid(ns: seq<Notification>) {
    forall n | n in ns :: n.Valid()
  }

  /** The store after marking the channel sent on each of the ids in turn. */
  function MarkAllSent(ns: seq<Notification>, ids: seq<nat>, channelKey: string, now: nat): (r: seq<Notification>)
    requires IdsIn(ids, ns) && AllValid(ns)
    ensures |r| == |ns| && AllValid(r)
    decreases |ids|
  {
    if ids == [] then ns
    else
      var prev := MarkAllSent(ns, ids[..|ids| - 1], channelKey, now);
      var id := ids[|ids| - 1];
      assert prev[id] in prev;
      var r := prev[id := prev[id].MarkedSent(channelKey, now)];
      assert forall j | 0 <= j < |r| :: r[j].Valid() by {
        forall j | 0 <= j < |r| ensures r[j].Valid() {
          if j != id { assert r[j] == prev[j] && prev[j] in prev; }
        }
      }
      r
  }

  /** Marking one more id updates that one row of the store marked so far. */
  lemma MarkAllSentSnoc(ns: seq<Notification>, ids: seq<nat>, channelKey: string, now: nat, i: nat)
    requires IdsIn(ids, ns) && AllValid(ns) && i < |ids|
    ensures IdsIn(ids[..i], ns) && IdsIn(ids[..i + 1], ns)
    ensures var cur := MarkAllSent(ns, ids[..i], channelKey, now);
      MarkAllSent(ns, ids[..i + 1], channelKey, now) == cur[ids[i] := cur[ids[i]].MarkedSent(channelKey, now)]
  {
    assert ids[..i + 1][..i] == ids[..i];
  }

  /**
   * After marking, each listed notification that has the channel is sent on it, an unlisted one
   * is unchanged, and no other field or channel of any notification moves.
   */
  lemma {:induction false} MarkAllSentEffect(ns: seq<Notification>, ids: seq<nat>, channelKey: string, now: nat, j: nat)
    requires IdsIn(ids, ns) && AllValid(ns) && j < |ns|
    ensures j in ids && channelKey in ns[j].channels ==> MarkAllSent(ns, ids, channelKey, now)[j].IsSentOn(channelKey)
    ensures j !in ids ==> MarkAllSent(ns, ids, channelKey, now)[j] == ns[j]
    ensures MarkAllSent(ns, ids, channelKey, now)[j].(sentAt := ns[j].sentAt) == ns[j]
    ensures forall k :: k != channelKey ==>
      (MarkAllSent(ns, ids, channelKey, now)[j].IsSentOn(k) <==> ns[j].IsSentOn(k))
    ensures forall k | k in ns[j].sentAt ::
      k in MarkAllSent(ns, ids, channelKey, now)[j].sentAt && MarkAllSent(ns, ids, channelKey, now)[j].sentAt[k] == ns[j].sentAt[k]
    decreases |ids|
  {
    if ids != [] {
      var init := ids[..|ids| - 1];
      MarkAllSentEffect(ns, init, channelKey, now, j);
      assert forall x :: x in ids <==> x in init || x == ids[|ids| - 1] by {
        assert ids == init + [ids[|ids| - 1]];
      }
    }
  }

  /**
   * The email frequency that applies to a notification: the effective frequency of its type for
   * its recipient; a type that is no longer registered is a lookup error.
   */
  function NotificationFrequency(types: Entries<NotificationType>, freqs: Entries<Frequency>, fprefs: FrequencyPrefs, n: Notification): (r: Result<Frequency, RegistryError>)
    requires KeyedFrequencies(freqs)
    ensures r.Err? <==> n.notificationType !in Keys(types)
    ensures r.Err? ==> r.error == NotFound(n.notificationType)
  {
    match Find(types, n.notificationType)
    case None => Err(NotFound(n.notificationType))
    case Some(t) => Ok(EffectiveFrequency(freqs, t, fprefs, n.recipient.id))
  }

  /** What a delivery step changes: the notification rows and the mail outbox. */
  datatype Delivery = Delivery(notifications: seq<Notification>, outbox: seq<EmailMessage>)

  predicate DeliveryValid(d: Delivery) {
    AllValid(d.notifications)
  }

  /** Mail only grows, by appending. */
  predicate OutboxGrows(d: Delivery, e: Delivery) {
    |d.outbox| <= |e.outbox| && e.outbox[..|d.outbox|] == d.outbox
  }

  /** A sent row stays sent with its first timestamp. */
  predicate SentKept(d: Delivery, e: Delivery) {
    |d.notifications| == |e.notifications| &&
    forall j, k | 0 <= j < |d.notifications| && k in d.notifications[j].sentAt ::
      k in e.notifications[j].sentAt && e.notifications[j].sentAt[k] == d.notifications[j].sentAt[k]
  }

  /** Only sent timestamps may differ: every other field of every row is as before. */
  predicate RowsKept(d: Delivery, e: Delivery) {
    |d.notifications| == |e.notifications| &&
    forall j | 0 <= j < |d.notifications| :: e.notifications[j].(sentAt := d.notifications[j].sentAt) == d.notifications[j]
  }

  /**
   * send_now on notification `id`: the email channel appends one message and marks its row,
   * unless the recipient has no address, in which case nothing happens; other channels mark their
   * row. No other notification changes.
   */
  function SendNowEffect(t: NotificationType, c: Channel, d: Delivery, id: nat, now: nat): (e: Delivery)
    requires DeliveryValid(d) && id < |d.notifications|
    ensures DeliveryValid(e) && OutboxGrows(d, e) && SentKept(d, e) && RowsKept(d, e)
    ensures |e.outbox| == |d.outbox| + (if c.kind.EmailKind? && ShouldSend(d.notifications[id]) then 1 else 0)
    ensures c.kind.EmailKind? && ShouldSend(d.notifications[id]) ==> e.outbox[|d.outbox|].to == d.notifications[id].recipient.email
    ensures c.kind.EmailKind? && ShouldSend(d.notifications[id]) ==> e.outbox == d.outbox + [NowMessage(t, d.notifications[id])]
    ensures !c.kind.EmailKind? ==> e.outbox == d.outbox
    ensures c.kind.EmailKind? && !ShouldSend(d.notifications[id]) ==> e == d
    ensures !c.kind.EmailKind? || ShouldSend(d.notifications[id]) ==>
      (e.notifications[id].IsSentOn(c.key) <==> c.key in d.notifications[id].channels)
    ensures forall j | 0 <= j < |d.notifications| && j != id :: e.notifications[j] == d.notifications[j]
  {
    var n := d.notifications[id];
    assert n in d.notifications;
    if c.kind.EmailKind? && !ShouldSend(n) then d
    else
      var ns := d.notifications[id := n.MarkedSent(c.key, now)];
      assert AllValid(ns) by {
        forall m | m in ns ensures m.Valid() {
          var j :| 0 <= j < |ns| && ns[j] == m;
          if j != id { assert ns[j] == d.notifications[j] && d.notifications[j] in d.notifications; }
        }
      }
      Delivery(ns, if c.kind.EmailKind? then d.outbox + [NowMessage(t, n)] else d.outbox)
  }

  /**
   * process on notification `id`: a channel without realtime support changes nothing; otherwise
   * an unregistered type is an error that changes nothing, a realtime frequency sends now, and any
   * other frequency leaves the row pending.
   */
  function ProcessEffect(types: Entries<NotificationType>, freqs: Entries<Frequency>, fprefs: FrequencyPrefs,
                         c: Channel, d: Delivery, id: nat, now: nat): (r: (Outcome<RegistryError>, Delivery))
    requires KeyedFrequencies(freqs) && DeliveryValid(d) && id < |d.notifications|
    ensures DeliveryValid(r.1) && OutboxGrows(d, r.1) && SentKept(d, r.1) && RowsKept(d, r.1)
    ensures !c.supportsRealtime ==> r == (Pass, d)
    ensures r.0.Fail? <==> c.supportsRealtime && d.notifications[id].notificationType !in Keys(types)
    ensures r.0.Fail? ==> r.1 == d
    ensures r.0.Pass? && c.supportsRealtime && !NotificationFrequency(types, freqs, fprefs, d.notifications[id]).value.isRealtime ==>
      r.1 == d
    ensures c.supportsRealtime && d.notifications[id].notificationType in Keys(types) &&
            NotificationFrequency(types, freqs, fprefs, d.notifications[id]).value.isRealtime ==>
      r.1 == SendNowEffect(Find(types, d.notifications[id].notificationType).value, c, d, id, now)
  {
    if !c.supportsRealtime then (Pass, d)
    else
      var n := d.notifications[id];
      match Find(types, n.notificationType)
      case None => (Fail(NotFound(n.notificationType)), d)
      case Some(t) =>
        if EffectiveFrequency(freqs, t, fprefs, n.recipient.id).isRealtime then (Pass, SendNowEffect(t, c, d, id, now))
        else (Pass, d)
  }

  /** A pending row under a non-realtime frequency is left for the digest: process sends nothing. */
  lemma DigestFrequencyStaysPending(types: Entries<NotificationType>, freqs: Entries<Frequency>, fprefs: FrequencyPrefs,
                                    c: Channel, d: Delivery, id: nat, now: nat)
    requires KeyedFrequencies(freqs) && DeliveryValid(d) && id < |d.notifications|
    requires d.notifications[id].notificationType in Keys(types)
    requires !NotificationFrequency(types, freqs, fprefs, d.notifications[id]).value.isRealtime
    ensures ProcessEffect(types, freqs, fprefs, c, d, id, now).1 == d
  {
  }

  /** send_now as a step on the store; its effect is SendNowEffect. */
  method SendNow(db: Database, t: NotificationType, c: Channel, id: nat, now: nat)
    requires db.Valid() && id < |db.notifications|
    modifies db
    ensures db.Valid()
    ensures Delivery(db.notifications, db.outbox) ==
      SendNowEffect(t, c, Delivery(old(db.notifications), old(db.outbox)), id, now)
    ensures db.channelPrefs == old(db.channelPrefs) && db.frequencyPrefs == old(db.frequencyPrefs)
  {
    var n := db.notifications[id];
    if c.kind.EmailKind? {
      if ShouldSend(n) {
        db.SendMail(NowMessage(t, n));
        db.MarkSentOnChannel(id, c.key, now);
      }
    } else {
      db.MarkSentOnChannel(id, c.key, now);
    }
  }

  /** process as a step on the store; its effect is ProcessEffect. */
  method Process(db: Database, reg: NotificationRegistry, c: Channel, id: nat, now: nat) returns (r: Outcome<RegistryError>)
    requires db.Valid() && reg.Valid() && id < |db.notifications|
    modifies db
    ensures db.Valid()
    ensures (r, Delivery(db.notifications, db.outbox)) ==
      ProcessEffect(reg.types, reg.frequencies, old(db.frequencyPrefs), c, Delivery(old(db.notifications), old(db.outbox)), id, now)
    ensures db.channelPrefs == old(db.channelPrefs) && db.frequencyPrefs == old(db.frequencyPrefs)
  {
    if !c.supportsRealtime {
      return Pass;
    }
    var n := db.notifications[id];
    var t := Find(reg.types, n.notificationType);
    if t.None? {
      return Fail(NotFound(n.notificationType));
    }
    var f := EffectiveFrequency(reg.frequencies, t.value, db.frequencyPrefs, n.recipient.id);
    if f.isRealtime {
      SendNow(db, t.value, c, id, now);
    }
    r := Pass;
  }

  /**
   * EmailChannel.send_digest: one message to the user listing the notifications, then every one
   * of them is marked sent on the email channel. Nothing happens for an empty batch or a user
   * without an address.
   */
  method SendDigest(db: Database, user: User, f: Frequency, ids: seq<nat>, now: nat) returns (sent: bool)
    requires db.Valid() && IdsIn(ids, db.notifications)
    modifies db
    ensures db.Valid()
    ensures sent <==> ids != [] && user.email != ""
    ensures sent ==>
      db.outbox == old(db.outbox) + [DigestMessage(user, f, Pick(old(db.notifications), ids))] &&
      db.notifications == MarkAllSent(old(db.notifications), ids, EmailChannel.key, now)
    ensures !sent ==> db.outbox == old(db.outbox) && db.notifications == old(db.notifications)
    ensures db.channelPrefs == old(db.channelPrefs) && db.frequencyPrefs == old(db.frequencyPrefs)
  {
    if ids == [] || user.email == "" {
      return false;
    }
    db.SendMail(DigestMessage(user, f, Pick(db.notifications, ids)));
    var i := 0;
    while i < |ids|
      invariant 0 <= i <= |ids|
      invariant db.Valid()
      invariant IdsIn(ids, db.notifications)
      invariant db.notifications == MarkAllSent(old(db.notifications), ids[..i], EmailChannel.key, now)
      invariant db.outbox == old(db.outbox) + [DigestMessage(user, f, Pick(old(db.notifications), ids))]
      invariant db.channelPrefs == old(db.channelPrefs) && db.frequencyPrefs == old(db.frequencyPrefs)
    {
      MarkAllSentSnoc(old(db.notifications), ids, EmailChannel.key, now, i);
      db.MarkSentOnChannel(ids[i], EmailChannel.key, now);
      i := i + 1;
    }
    assert ids[..|ids|] == ids;
    sent := true;
  }
}
