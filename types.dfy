/**
 * Per-type delivery policy: which channels a user receives a notification type on, and at what
 * email frequency; plus the per-type preference writers (disable/enable a channel, set or reset
 * the email frequency).
 */
module Types {
  import opened Wrappers
  import opened Catalog
  import opened Definitions
  import opened Registry
  import opened Models

  type ChannelPrefs = map<ChannelPrefKey, bool>
  type FrequencyPrefs = map<FrequencyPrefKey, string>

  /** The channel default before any user row: the type's explicit list, else the channel's flag. */
  predicate DefaultEnabled(t: NotificationType, c: Channel) {
    if t.defaultChannels.Some? then c.key in t.defaultChannels.value else c.enabledByDefault
  }

  /**
   * is_channel_enabled: a forbidden channel is off, a required channel is on, otherwise the
   * user's stored row decides, and without a row the default does.
   */
  predicate ChannelEnabled(t: NotificationType, c: Channel, prefs: ChannelPrefs, user: UserId) {
    if c.key in t.forbiddenChannels then false
    else if c.key in t.requiredChannels then true
    else if (user, t.key, c.key) in prefs then prefs[(user, t.key, c.key)]
    else DefaultEnabled(t, c)
  }

  /** get_enabled_channels: the registered channels enabled for the user, in registry order. */
  function EnabledChannels(t: NotificationType, chans: seq<Channel>, prefs: ChannelPrefs, user: UserId): (r: seq<Channel>)
    ensures forall c :: c in r <==> c in chans && ChannelEnabled(t, c, prefs, user)
    ensures |r| <= |chans|
  {
    if chans == [] then []
    else
      var init := EnabledChannels(t, chans[..|chans| - 1], prefs, user);
      var last := chans[|chans| - 1];
      assert chans == chans[..|chans| - 1] + [last];
      if ChannelEnabled(t, last, prefs, user) then init + [last] else init
  }

  /**
   * Registry order is kept: the channels enabled from a concatenation are those enabled from the
   * first part, followed by those enabled from the second.
   */
  lemma {:induction false} EnabledChannelsAppend(t: NotificationType, a: seq<Channel>, b: seq<Channel>, prefs: ChannelPrefs, user: UserId)
    ensures EnabledChannels(t, a + b, prefs, user) == EnabledChannels(t, a, prefs, user) + EnabledChannels(t, b, prefs, user)
    decreases |b|
  {
    if b == [] {
      assert a + b == a;
    } else {
      var init := b[..|b| - 1];
      assert (a + b)[..|a + b| - 1] == a + init;
      assert (a + b)[|a + b| - 1] == b[|b| - 1];
      EnabledChannelsAppend(t, a, init, prefs, user);
    }
  }

  /** A single channel is kept exactly when it is enabled. */
  lemma EnabledChannelsSingle(t: NotificationType, c: Channel, prefs: ChannelPrefs, user: UserId)
    ensures EnabledChannels(t, [c], prefs, user) == if ChannelEnabled(t, c, prefs, user) then [c] else []
  {
    assert [c][..0] == [];
  }

  /** The rows a user owns in the channel table. */
  function UserChannelRows(prefs: ChannelPrefs, user: UserId): (rows: ChannelPrefs)
    ensures forall k :: k in rows <==> k in prefs && k.0 == user
    ensures forall k | k in rows :: rows[k] == prefs[k]
  {
    map k | k in prefs && k.0 == user :: prefs[k]
  }

  /** No user row mentions the type. */
  predicate NoRowsFor(prefs: ChannelPrefs, user: UserId, typeKey: string) {
    forall k | k in prefs :: k.0 != user || k.1 != typeKey
  }

  /** A required channel is enabled even when its default is off. */
  lemma RequiredChannelsEnabled(t: NotificationType, chans: seq<Channel>, prefs: ChannelPrefs, user: UserId, c: Channel)
    requires c in chans && c.key in t.requiredChannels && c.key !in t.forbiddenChannels
    ensures c in EnabledChannels(t, chans, prefs, user)
  {
  }

  /** A forbidden channel is never enabled, whatever its default or the user's rows. */
  lemma ForbiddenChannelsExcluded(t: NotificationType, chans: seq<Channel>, prefs: ChannelPrefs, user: UserId, c: Channel)
    requires c.key in t.forbiddenChannels
    ensures c !in EnabledChannels(t, chans, prefs, user)
  {
  }

  /**
   * Without user rows and without required or forbidden channels, a type with no explicit
   * default list gets exactly the channels enabled by default, and one with a list gets exactly
   * the listed ones.
   */
  lemma DefaultsWithoutRows(t: NotificationType, chans: seq<Channel>, prefs: ChannelPrefs, user: UserId)
    requires NoRowsFor(prefs, user, t.key)
    requires t.requiredChannels == [] && t.forbiddenChannels == []
    ensures t.defaultChannels == None ==>
      forall c :: c in EnabledChannels(t, chans, prefs, user) <==> c in chans && c.enabledByDefault
    ensures t.defaultChannels.Some? ==>
      forall c :: c in EnabledChannels(t, chans, prefs, user) <==> c in chans && c.key in t.defaultChannels.value
  {
    forall c | c in chans
      ensures ChannelEnabled(t, c, prefs, user) == DefaultEnabled(t, c)
    {
      assert (user, t.key, c.key) !in prefs;
    }
  }

  /** An empty default list plus required channels yields exactly the required channels. */
  lemma EmptyDefaultsGiveRequired(t: NotificationType, chans: seq<Channel>, prefs: ChannelPrefs, user: UserId)
    requires NoRowsFor(prefs, user, t.key)
    requires t.defaultChannels == Some([]) && t.forbiddenChannels == []
    ensures forall c :: c in EnabledChannels(t, chans, prefs, user) <==> c in chans && c.key in t.requiredChannels
  {
    forall c | c in chans && c.key !in t.requiredChannels
      ensures !ChannelEnabled(t, c, prefs, user)
    {
      assert (user, t.key, c.key) !in prefs;
    }
  }

  /**
   * A disabled row removes exactly that channel; every other channel keeps its state (a required
   * channel cannot be removed this way).
   */
  lemma DisabledRowRemovesOnlyThatChannel(t: NotificationType, chans: seq<Channel>, prefs: ChannelPrefs, user: UserId, c: Channel)
    requires c.key !in t.requiredChannels
    ensures c !in EnabledChannels(t, chans, prefs[(user, t.key, c.key) := false], user)
    ensures forall d | d in chans && d.key != c.key ::
      d in EnabledChannels(t, chans, prefs[(user, t.key, c.key) := false], user) <==> d in EnabledChannels(t, chans, prefs, user)
  {
  }

  /** The enabled list depends on nothing but the user's own rows. */
  lemma {:induction false} OtherUsersUnaffected(t: NotificationType, chans: seq<Channel>, p1: ChannelPrefs, p2: ChannelPrefs, user: UserId)
    requires UserChannelRows(p1, user) == UserChannelRows(p2, user)
    ensures EnabledChannels(t, chans, p1, user) == EnabledChannels(t, chans, p2, user)
    decreases |chans|
  {
    if chans != [] {
      OtherUsersUnaffected(t, chans[..|chans| - 1], p1, p2, user);
      var c := chans[|chans| - 1];
      var k := (user, t.key, c.key);
      assert k in p1 <==> k in UserChannelRows(p1, user);
      assert k in p2 <==> k in UserChannelRows(p2, user);
      if k in p1 {
        assert p1[k] == UserChannelRows(p1, user)[k] == UserChannelRows(p2, user)[k] == p2[k];
      }
      assert ChannelEnabled(t, c, p1, user) == ChannelEnabled(t, c, p2, user);
    }
  }

  /**
   * get_email_frequency: the user's stored frequency when it names a registered frequency,
   * otherwise the type's default.
   */
  function EffectiveFrequency(freqs: Entries<Frequency>, t: NotificationType, fprefs: FrequencyPrefs, user: UserId): (f: Frequency)
    requires KeyedFrequencies(freqs)
    ensures (user, t.key) !in fprefs ==> f == t.defaultFrequency
    ensures (user, t.key) in fprefs && fprefs[(user, t.key)] in Keys(freqs) ==>
      f.key == fprefs[(user, t.key)] && f in Values(freqs)
    ensures (user, t.key) in fprefs && fprefs[(user, t.key)] !in Keys(freqs) ==> f == t.defaultFrequency
  {
    if (user, t.key) in fprefs then
      match Find(freqs, fprefs[(user, t.key)])
      case Some(f) =>
        ValuesHoldEntry(freqs, fprefs[(user, t.key)], f);
        f
      case None => t.defaultFrequency
    else t.defaultFrequency
  }

  lemma ValuesHoldEntry(freqs: Entries<Frequency>, k: string, f: Frequency)
    requires KeyedFrequencies(freqs) && (k, f) in freqs
    ensures f.key == k && f in Values(freqs)
  {
    var i :| 0 <= i < |freqs| && freqs[i] == (k, f);
    assert Values(freqs)[i] == f;
  }

  /** disable_channel: stores a disabled row; repeating it leaves one row. */
  method DisableChannel(db: Database, user: UserId, t: NotificationType, c: Channel)
    modifies db
    ensures db.channelPrefs == old(db.channelPrefs)[(user, t.key, c.key) := false]
    ensures db.notifications == old(db.notifications) && db.frequencyPrefs == old(db.frequencyPrefs)
    ensures db.outbox == old(db.outbox)
  {
    db.channelPrefs := db.channelPrefs[(user, t.key, c.key) := false];
  }

  /** enable_channel: the disabled row is replaced by an enabled one. */
  method EnableChannel(db: Database, user: UserId, t: NotificationType, c: Channel)
    modifies db
    ensures db.channelPrefs == old(db.channelPrefs)[(user, t.key, c.key) := true]
    ensures db.notifications == old(db.notifications) && db.frequencyPrefs == old(db.frequencyPrefs)
    ensures db.outbox == old(db.outbox)
  {
    db.channelPrefs := db.channelPrefs[(user, t.key, c.key) := true];
  }

  /**
   * After disable a non-required channel is off for that user and nothing changes for any other
   * user; after enable a non-forbidden channel is on. Both are idempotent.
   */
  lemma DisableEnableEffect(t: NotificationType, c: Channel, prefs: ChannelPrefs, user: UserId, other: UserId)
    requires other != user
    ensures c.key !in t.requiredChannels ==> !ChannelEnabled(t, c, prefs[(user, t.key, c.key) := false], user)
    ensures c.key !in t.forbiddenChannels ==> ChannelEnabled(t, c, prefs[(user, t.key, c.key) := true], user)
    ensures UserChannelRows(prefs[(user, t.key, c.key) := false], other) == UserChannelRows(prefs, other)
    ensures UserChannelRows(prefs[(user, t.key, c.key) := true], other) == UserChannelRows(prefs, other)
    ensures prefs[(user, t.key, c.key) := false][(user, t.key, c.key) := false] == prefs[(user, t.key, c.key) := false]
  {
    assert UserChannelRows(prefs[(user, t.key, c.key) := false], other) == UserChannelRows(prefs, other);
    assert UserChannelRows(prefs[(user, t.key, c.key) := true], other) == UserChannelRows(prefs, other);
  }

  /** set_email_frequency: an upsert of the single (user, type) row. */
  method SetEmailFrequency(db: Database, user: UserId, t: NotificationType, f: Frequency)
    modifies db
    ensures db.frequencyPrefs == old(db.frequencyPrefs)[(user, t.key) := f.key]
    ensures db.notifications == old(db.notifications) && db.channelPrefs == old(db.channelPrefs)
    ensures db.outbox == old(db.outbox)
  {
    db.frequencyPrefs := db.frequencyPrefs[(user, t.key) := f.key];
  }

  /** reset_email_frequency_to_default: deletes the (user, type) row. */
  method ResetEmailFrequencyToDefault(db: Database, user: UserId, t: NotificationType)
    modifies db
    ensures db.frequencyPrefs == old(db.frequencyPrefs) - {(user, t.key)}
    ensures db.notifications == old(db.notifications) && db.channelPrefs == old(db.channelPrefs)
    ensures db.outbox == old(db.outbox)
  {
    db.frequencyPrefs := db.frequencyPrefs - {(user, t.key)};
  }

  /**
   * After set, the effective frequency is the one set (when registered); after reset, it is the
   * type default; other (user, type) pairs keep theirs.
   */
  lemma FrequencyUpsertAndReset(freqs: Entries<Frequency>, t: NotificationType, fprefs: FrequencyPrefs, user: UserId, f: Frequency)
    requires KeyedFrequencies(freqs) && f in Values(freqs)
    ensures EffectiveFrequency(freqs, t, fprefs[(user, t.key) := f.key], user) == f
    ensures EffectiveFrequency(freqs, t, fprefs - {(user, t.key)}, user) == t.defaultFrequency
  {
    var p := fprefs[(user, t.key) := f.key];
    var i :| 0 <= i < |freqs| && Values(freqs)[i] == f;
    assert freqs[i] in freqs;
    assert f.key in Keys(freqs) by { assert Keys(freqs)[i] == freqs[i].0; }
    var g := EffectiveFrequency(freqs, t, p, user);
    var j :| 0 <= j < |freqs| && Values(freqs)[j] == g;
    assert freqs[j] in freqs;
    assert Keys(freqs)[i] == Keys(freqs)[j];
  }

  /** Frequency rows of other users or types do not move a user's effective frequency. */
  lemma FrequencyIsolation(freqs: Entries<Frequency>, t: NotificationType, fprefs: FrequencyPrefs, user: UserId, other: FrequencyPrefKey, key: string)
    requires KeyedFrequencies(freqs) && other != (user, t.key)
    ensures EffectiveFrequency(freqs, t, fprefs[other := key], user) == EffectiveFrequency(freqs, t, fprefs, user)
  {
  }
}
