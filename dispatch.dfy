/**
 * send_notification: validate the type, collect the enabled channels, build the notification,
 * consult the type's should_save hook, store it and let every enabled channel process it, with
 * each channel's failure isolated from the others.
 */
module Dispatch {
  import opened Wrappers
  import opened Text
  import opened Catalog
  import opened Definitions
  import opened Registry
  import opened Models
  import opened Types
  import opened Channels

  datatype DispatchError =
    | TypeNotRegistered(typeKey: string, available: seq<string>)   // ValueError before anything is written
    | ShouldSaveRaised(reason: string)                              // the hook's exception, propagated

  /** Python's rendering of a list of strings: ['a', 'b']. */
  function QuotedList(ks: seq<string>): string {
    "[" + Join(seq(|ks|, i requires 0 <= i < |ks| => "'" + ks[i] + "'"), ", ") + "]"
  }

  const NotRegisteredHead := "Notification type '"
  const NotRegisteredMiddle := "' not registered. "
  const NoTypesTail := "No notification types are currently registered."
  const AvailableHead := "Available types: "

  /**
   * The ValueError text for an unregistered type: it names the type, says it is not registered,
   * and lists the registered keys or says that there are none.
   */
  function DispatchErrorMessage(e: DispatchError): (m: string)
    ensures e.TypeNotRegistered? ==> Contains(m, "not registered") && Contains(m, e.typeKey)
    ensures e.TypeNotRegistered? && e.available == [] ==> Contains(m, NoTypesTail)
    ensures e.TypeNotRegistered? && e.available != [] ==> Contains(m, AvailableHead + QuotedList(e.available))
    ensures e.ShouldSaveRaised? ==> m == e.reason
  {
    match e
    case ShouldSaveRaised(reason) => reason
    case TypeNotRegistered(key, available) =>
      var tail := if available == [] then NoTypesTail else AvailableHead + QuotedList(available);
      NotRegisteredParts(key, tail);
      NotRegisteredHead + key + NotRegisteredMiddle + tail
  }

  lemma NotRegisteredParts(key: string, tail: string)
    ensures var m := NotRegisteredHead + key + NotRegisteredMiddle + tail;
      Contains(m, "not registered") && Contains(m, key) && Contains(m, tail)
  {
    var m := NotRegisteredHead + key + NotRegisteredMiddle + tail;
    assert NotRegisteredMiddle == "' " + "not registered" + ". ";
    ContainsMiddle(NotRegisteredHead + key + "' ", "not registered", ". " + tail);
    assert m == (NotRegisteredHead + key + "' ") + "not registered" + (". " + tail);
    ContainsMiddle(NotRegisteredHead, key, NotRegisteredMiddle + tail);
    assert m == NotRegisteredHead + key + (NotRegisteredMiddle + tail);
    ContainsMiddle(NotRegisteredHead + key + NotRegisteredMiddle, tail, "");
    assert m == NotRegisteredHead + key + NotRegisteredMiddle + tail + "";
  }

  /** The keyword arguments that become notification fields. */
  datatype Fields = Fields(subject: string, text: string, url: string, metadata: Option<map<string, string>>)

  /** What the type's should_save hook does with the built notification. */
  datatype SaveDecision = Save | Skip | Raise(reason: string)

  function ChannelKeys(cs: seq<Channel>): (ks: seq<string>)
    ensures |ks| == |cs|
    ensures forall i :: 0 <= i < |cs| ==> ks[i] == cs[i].key
  {
    seq(|cs|, i requires 0 <= i < |cs| => cs[i].key)
  }

  /**
   * The loop that collects the enabled channels: keys and instances stay index-aligned and are
   * exactly the registered channels enabled for the recipient, in registry order.
   */
  method CollectEnabledChannels(chans: seq<Channel>, t: NotificationType, prefs: ChannelPrefs, user: UserId)
    returns (keys: seq<string>, instances: seq<Channel>)
    ensures instances == EnabledChannels(t, chans, prefs, user)
    ensures keys == ChannelKeys(instances)
  {
    keys, instances := [], [];
    var i := 0;
    while i < |chans|
      invariant 0 <= i <= |chans|
      invariant instances == EnabledChannels(t, chans[..i], prefs, user)
      invariant keys == ChannelKeys(instances)
    {
      assert chans[..i + 1][..i] == chans[..i];
      if ChannelEnabled(t, chans[i], prefs, user) {
        keys := keys + [chans[i].key];
        instances := instances + [chans[i]];
      }
      i := i + 1;
    }
    assert chans[..|chans|] == chans;
  }

  /**
   * Every channel processes the stored notification in turn; a channel whose process raises
   * (its key is in `failing`) changes nothing and the loop goes on.
   */
  function ProcessAll(types: Entries<NotificationType>, freqs: Entries<Frequency>, fprefs: FrequencyPrefs,
                      chans: seq<Channel>, failing: set<string>, d: Delivery, id: nat, now: nat): (e: Delivery)
    requires KeyedFrequencies(freqs) && DeliveryValid(d) && id < |d.notifications|
    ensures DeliveryValid(e) && RowsKept(d, e)
    decreases |chans|
  {
    if chans == [] then d
    else
      var prev := ProcessAll(types, freqs, fprefs, chans[..|chans| - 1], failing, d, id, now);
      var c := chans[|chans| - 1];
      if c.key in failing then prev
      else
        var e := ProcessEffect(types, freqs, fprefs, c, prev, id, now).1;
        RowsKeptTransitive(d, prev, e);
        e
  }

  lemma RowsKeptTransitive(a: Delivery, b: Delivery, c: Delivery)
    requires RowsKept(a, b) && RowsKept(b, c)
    ensures RowsKept(a, c)
  {
    forall j | 0 <= j < |a.notifications|
      ensures c.notifications[j].(sentAt := a.notifications[j].sentAt) == a.notifications[j]
    {
      assert c.notifications[j].(sentAt := b.notifications[j].sentAt) == b.notifications[j];
    }
  }

  /** The channels that do not raise, in order. */
  function Succeeding(chans: seq<Channel>, failing: set<string>): (r: seq<Channel>)
    ensures forall c :: c in r <==> c in chans && c.key !in failing
    decreases |chans|
  {
    if chans == [] then []
    else
      var init := Succeeding(chans[..|chans| - 1], failing);
      var c := chans[|chans| - 1];
      assert chans == chans[..|chans| - 1] + [c];
      if c.key in failing then init else init + [c]
  }

  /**
   * Failure isolation: running with failing channels has exactly the effect of running only the
   * channels that succeed, so one channel's failure never keeps a later channel from delivering.
   */
  lemma {:induction false} FailuresAreIsolated(types: Entries<NotificationType>, freqs: Entries<Frequency>, fprefs: FrequencyPrefs,
                                               chans: seq<Channel>, failing: set<string>, d: Delivery, id: nat, now: nat)
    requires KeyedFrequencies(freqs) && DeliveryValid(d) && id < |d.notifications|
    ensures ProcessAll(types, freqs, fprefs, chans, failing, d, id, now) ==
            ProcessAll(types, freqs, fprefs, Succeeding(chans, failing), {}, d, id, now)
    decreases |chans|
  {
    if chans != [] {
      var init := chans[..|chans| - 1];
      var c := chans[|chans| - 1];
      FailuresAreIsolated(types, freqs, fprefs, init, failing, d, id, now);
      var s := Succeeding(init, failing);
      if c.key !in failing {
        assert (s + [c])[..|s + [c]| - 1] == s;
      }
    }
  }

  /** The processing loop: each channel in order, failures caught. */
  method ProcessChannels(db: Database, reg: NotificationRegistry, chans: seq<Channel>, failing: set<string>, id: nat, now: nat)
    returns (processed: seq<string>)
    requires db.Valid() && reg.Valid() && id < |db.notifications|
    modifies db
    ensures db.Valid()
    ensures db.channelPrefs == old(db.channelPrefs) && db.frequencyPrefs == old(db.frequencyPrefs)
    ensures processed == ChannelKeys(chans)
    ensures Delivery(db.notifications, db.outbox) ==
      ProcessAll(reg.types, reg.frequencies, old(db.frequencyPrefs), chans, failing,
                 Delivery(old(db.notifications), old(db.outbox)), id, now)
  {
    ghost var start := Delivery(db.notifications, db.outbox);
    processed := [];
    var i := 0;
    while i < |chans|
      invariant 0 <= i <= |chans|
      invariant db.Valid() && id < |db.notifications|
      invariant db.channelPrefs == old(db.channelPrefs) && db.frequencyPrefs == old(db.frequencyPrefs)
      invariant processed == ChannelKeys(chans[..i])
      invariant Delivery(db.notifications, db.outbox) ==
        ProcessAll(reg.types, reg.frequencies, db.frequencyPrefs, chans[..i], failing, start, id, now)
    {
      var c := chans[i];
      assert chans[..i + 1][..i] == chans[..i];
      if c.key !in failing {
        var _ := Process(db, reg, c, id, now);
      }
      processed := processed + [c.key];
      i := i + 1;
    }
    assert chans[..|chans|] == chans;
  }

  /**
   * The enabled channels for a registered type: the policy of the registered type with that key,
   * applied to the registered channels.
   */
  function DispatchChannels(types: Entries<NotificationType>, chans: seq<Channel>, prefs: ChannelPrefs,
                            typeKey: string, user: UserId): (r: seq<Channel>)
    requires typeKey in Keys(types)
    ensures forall c :: c in r ==> c in chans
  {
    EnabledChannels(Find(types, typeKey).value, chans, prefs, user)
  }

  /**
   * send_notification. Returns the new notification's id, None when nothing was created, or the
   * error; `processed` lists the channels whose process was called, in order.
   */
  method SendNotification(db: Database, reg: NotificationRegistry, recipient: User, t: NotificationType,
                          actor: Option<User>, target: Option<Target>, fields: Fields,
                          decision: SaveDecision, failing: set<string>, now: nat)
    returns (r: Result<Option<nat>, DispatchError>, processed: seq<string>)
    requires db.Valid() && reg.Valid()
    modifies db
    ensures db.Valid()
    ensures db.channelPrefs == old(db.channelPrefs) && db.frequencyPrefs == old(db.frequencyPrefs)
    ensures t.key !in Keys(reg.types) ==>
      r == Err(TypeNotRegistered(t.key, Keys(reg.types))) && processed == [] &&
      db.notifications == old(db.notifications) && db.outbox == old(db.outbox)
    ensures t.key in Keys(reg.types) && (DispatchChannels(reg.types, Values(reg.channels), old(db.channelPrefs), t.key, recipient.id) == [] ||
                                         decision.Skip?) ==>
      r == Ok(None) && processed == [] && db.notifications == old(db.notifications) && db.outbox == old(db.outbox)
    ensures t.key in Keys(reg.types) && DispatchChannels(reg.types, Values(reg.channels), old(db.channelPrefs), t.key, recipient.id) != [] &&
            decision.Raise? ==>
      r == Err(ShouldSaveRaised(decision.reason)) && processed == [] &&
      db.notifications == old(db.notifications) && db.outbox == old(db.outbox)
    ensures t.key in Keys(reg.types) && DispatchChannels(reg.types, Values(reg.channels), old(db.channelPrefs), t.key, recipient.id) != [] &&
            decision.Save? ==>
      var enabled := DispatchChannels(reg.types, Values(reg.channels), old(db.channelPrefs), t.key, recipient.id);
      var n := NewNotification(recipient, t.key, actor, target, fields.subject, fields.text, fields.url, fields.metadata, ChannelKeys(enabled));
      var id := |old(db.notifications)|;
      r == Ok(Some(id)) && processed == ChannelKeys(enabled) &&
      Delivery(db.notifications, db.outbox) ==
        ProcessAll(reg.types, reg.frequencies, old(db.frequencyPrefs), enabled, failing,
                   Delivery(old(db.notifications) + [n], old(db.outbox)), id, now)
  {
    processed := [];
    if Find(reg.types, t.key).None? {
      return Err(TypeNotRegistered(t.key, Keys(reg.types))), processed;
    }
    var policy := Find(reg.types, t.key).value;
    var keys, instances := CollectEnabledChannels(Values(reg.channels), policy, db.channelPrefs, recipient.id);
    if keys == [] {
      return Ok(None), processed;
    }
    var n := NewNotification(recipient, t.key, actor, target, fields.subject, fields.text, fields.url, fields.metadata, keys);
    match decision {
      case Raise(reason) =>
        return Err(ShouldSaveRaised(reason)), processed;
      case Skip =>
        return Ok(None), processed;
      case Save =>
    }
    var id := db.Insert(n);
    processed := ProcessChannels(db, reg, instances, failing, id, now);
    r := Ok(Some(id));
  }

  /**
   * The stored notification carries the type key, the enabled channel keys and the given fields;
   * it starts unread, and processing only ever sets sent timestamps on it.
   */
  lemma DispatchedRow(types: Entries<NotificationType>, freqs: Entries<Frequency>, fprefs: FrequencyPrefs,
                      enabled: seq<Channel>, failing: set<string>, ns: seq<Notification>, outbox: seq<EmailMessage>,
                      n: Notification, now: nat)
    requires KeyedFrequencies(freqs) && AllValid(ns) && n.Valid()
    ensures var e := ProcessAll(types, freqs, fprefs, enabled, failing, Delivery(ns + [n], outbox), |ns|, now);
      e.notifications[|ns|].(sentAt := n.sentAt) == n && e.notifications[..|ns|] == ns
  {
    var d := Delivery(ns + [n], outbox);
    var e := ProcessAll(types, freqs, fprefs, enabled, failing, d, |ns|, now);
    assert e.notifications[|ns|].(sentAt := d.notifications[|ns|].sentAt) == d.notifications[|ns|];
    ProcessAllTouchesOnlyRow(types, freqs, fprefs, enabled, failing, d, |ns|, now);
  }

  /** Processing notification `id` never changes another notification. */
  lemma {:induction false} ProcessAllTouchesOnlyRow(types: Entries<NotificationType>, freqs: Entries<Frequency>, fprefs: FrequencyPrefs,
                                                    chans: seq<Channel>, failing: set<string>, d: Delivery, id: nat, now: nat)
    requires KeyedFrequencies(freqs) && DeliveryValid(d) && id < |d.notifications|
    ensures forall j | 0 <= j < |d.notifications| && j != id ::
      ProcessAll(types, freqs, fprefs, chans, failing, d, id, now).notifications[j] == d.notifications[j]
    decreases |chans|
  {
    if chans != [] {
      ProcessAllTouchesOnlyRow(types, freqs, fprefs, chans[..|chans| - 1], failing, d, id, now);
    }
  }
}
