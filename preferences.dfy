/**
 * The settings page of a user: the view of every registered type's channel toggles and email
 * frequency, and the form save that replaces all of the user's preference rows at once. Form
 * fields are named `<type key>__<channel key>` (present = enabled) and `<type key>__frequency`.
 */
module Preferences {
  import opened Wrappers
  import opened Catalog
  import opened Definitions
  import opened Registry
  import opened Models
  import opened Types

  /** One channel's entry in a type's settings: its key, whether it is on, whether it is locked on. */
  datatype ChannelSetting = ChannelSetting(channel: string, enabled: bool, required: bool)

  /** One type's settings: a setting per registered channel and the effective email frequency key. */
  datatype TypeSettings = TypeSettings(notificationType: string, channels: seq<ChannelSetting>, emailFrequency: string)

  /** Submitted form data: field name to value. */
  type Form = map<string, string>

  function FieldKey(typeKey: string, channelKey: string): string {
    typeKey + "__" + channelKey
  }

  function FrequencyField(typeKey: string): string {
    typeKey + "__frequency"
  }

  function ChannelSettings(t: NotificationType, chans: seq<Channel>, prefs: ChannelPrefs, user: UserId): seq<ChannelSetting> {
    seq(|chans|, i requires 0 <= i < |chans| =>
      ChannelSetting(chans[i].key, ChannelEnabled(t, chans[i], prefs, user), chans[i].key in t.requiredChannels))
  }

  /**
   * One type's settings: a setting per registered channel in registry order, a required channel
   * shown on and locked, a forbidden one off, and the user's effective email frequency.
   */
  function TypeView(t: NotificationType, chans: seq<Channel>, freqs: Entries<Frequency>, prefs: ChannelPrefs, fprefs: FrequencyPrefs, user: UserId): (v: TypeSettings)
    requires KeyedFrequencies(freqs)
    ensures v.notificationType == t.key && |v.channels| == |chans|
    ensures forall j | 0 <= j < |chans| :: v.channels[j].channel == chans[j].key
    ensures forall j | 0 <= j < |chans| :: v.channels[j].required <==> chans[j].key in t.requiredChannels
    ensures forall j | 0 <= j < |chans| && chans[j].key in t.forbiddenChannels :: !v.channels[j].enabled
    ensures forall j | 0 <= j < |chans| && chans[j].key in t.requiredChannels && chans[j].key !in t.forbiddenChannels ::
      v.channels[j].enabled
    ensures (user, t.key) !in fprefs ==> v.emailFrequency == t.defaultFrequency.key
  {
    TypeSettings(t.key, ChannelSettings(t, chans, prefs, user), EffectiveFrequency(freqs, t, fprefs, user).key)
  }

  /** get_notification_preferences: one entry per registered type, in registry order. */
  function PreferencesView(types: seq<NotificationType>, chans: seq<Channel>, freqs: Entries<Frequency>, prefs: ChannelPrefs, fprefs: FrequencyPrefs, user: UserId): (r: seq<TypeSettings>)
    requires KeyedFrequencies(freqs)
    ensures |r| == |types|
    ensures forall i | 0 <= i < |types| :: r[i].notificationType == types[i].key && |r[i].channels| == |chans|
  {
    seq(|types|, i requires 0 <= i < |types| => TypeView(types[i], chans, freqs, prefs, fprefs, user))
  }

  /** The save writes a row for (user, type, channel) when the channel is registered and not required. */
  predicate WritesRow(t: NotificationType, chans: seq<Channel>, user: UserId, k: ChannelPrefKey) {
    k.0 == user && k.1 == t.key && exists c :: c in chans && c.key == k.2 && c.key !in t.requiredChannels
  }

  predicate WritesAnyRow(types: seq<NotificationType>, chans: seq<Channel>, user: UserId, k: ChannelPrefKey) {
    exists t :: t in types && WritesRow(t, chans, user, k)
  }

  /** The save stores a frequency row for a type only when the form picks a non-default frequency. */
  predicate WritesFrequency(t: NotificationType, user: UserId, form: Form, k: FrequencyPrefKey) {
    k.0 == user && k.1 == t.key && FrequencyField(k.1) in form && form[FrequencyField(k.1)] != t.defaultFrequency.key
  }

  predicate WritesAnyFrequency(types: seq<NotificationType>, user: UserId, form: Form, k: FrequencyPrefKey) {
    k.0 == user && FrequencyField(k.1) in form && exists t :: t in types && WritesFrequency(t, user, form, k)
  }

  /** The channel table without the user's rows. */
  function WithoutUserChannels(prefs: ChannelPrefs, user: UserId): (r: ChannelPrefs)
    ensures forall k :: k in r <==> k in prefs && k.0 != user
    ensures forall k | k in r :: r[k] == prefs[k]
  {
    map k | k in prefs && k.0 != user :: prefs[k]
  }

  /** The frequency table without the user's rows. */
  function WithoutUserFrequencies(fprefs: FrequencyPrefs, user: UserId): (r: FrequencyPrefs)
    ensures forall k :: k in r <==> k in fprefs && k.0 != user
    ensures forall k | k in r :: r[k] == fprefs[k]
  {
    map k | k in fprefs && k.0 != user :: fprefs[k]
  }

  /**
   * The rows one type's toggles write: every non-required channel gets a row saying whether its
   * field was submitted.
   */
  function TypeToggles(t: NotificationType, chans: seq<Channel>, prefs: ChannelPrefs, user: UserId, form: Form): ChannelPrefs {
    if chans == [] then prefs
    else
      var c := chans[|chans| - 1];
      var p := TypeToggles(t, chans[..|chans| - 1], prefs, user, form);
      if c.key in t.requiredChannels then p
      else p[(user, t.key, c.key) := FieldKey(t.key, c.key) in form]
  }

  /** The rows the toggles of all the given types write. */
  function Toggles(types: seq<NotificationType>, chans: seq<Channel>, prefs: ChannelPrefs, user: UserId, form: Form): ChannelPrefs {
    if types == [] then prefs
    else TypeToggles(types[|types| - 1], chans, Toggles(types[..|types| - 1], chans, prefs, user, form), user, form)
  }

  /** The frequency rows the save writes for the given types. */
  function FrequencyRows(types: seq<NotificationType>, fprefs: FrequencyPrefs, user: UserId, form: Form): FrequencyPrefs {
    if types == [] then fprefs
    else
      var t := types[|types| - 1];
      var p := FrequencyRows(types[..|types| - 1], fprefs, user, form);
      if FrequencyField(t.key) in form && form[FrequencyField(t.key)] != t.defaultFrequency.key then
        p[(user, t.key) := form[FrequencyField(t.key)]]
      else p
  }

  /** One type's toggles write exactly its non-required channels' rows, each saying whether the field was submitted. */
  lemma {:induction false} TypeTogglesLookup(t: NotificationType, chans: seq<Channel>, prefs: ChannelPrefs, user: UserId, form: Form)
    ensures forall k :: k in TypeToggles(t, chans, prefs, user, form) <==> k in prefs || WritesRow(t, chans, user, k)
    ensures forall k | k in TypeToggles(t, chans, prefs, user, form) ::
      TypeToggles(t, chans, prefs, user, form)[k] == if WritesRow(t, chans, user, k) then FieldKey(k.1, k.2) in form else prefs[k]
    decreases |chans|
  {
    if chans != [] {
      var init := chans[..|chans| - 1];
      var c := chans[|chans| - 1];
      assert chans == init + [c];
      TypeTogglesLookup(t, init, prefs, user, form);
      assert forall k :: WritesRow(t, chans, user, k) <==>
        WritesRow(t, init, user, k) || (c.key !in t.requiredChannels && k == (user, t.key, c.key));
    }
  }

  /** All types' toggles write exactly the rows some type's toggles write. */
  lemma {:induction false} TogglesLookup(types: seq<NotificationType>, chans: seq<Channel>, prefs: ChannelPrefs, user: UserId, form: Form)
    ensures forall k :: k in Toggles(types, chans, prefs, user, form) <==> k in prefs || WritesAnyRow(types, chans, user, k)
    ensures forall k | k in Toggles(types, chans, prefs, user, form) ::
      Toggles(types, chans, prefs, user, form)[k] == if WritesAnyRow(types, chans, user, k) then FieldKey(k.1, k.2) in form else prefs[k]
    decreases |types|
  {
    if types != [] {
      var init := types[..|types| - 1];
      var t := types[|types| - 1];
      assert types == init + [t];
      TogglesLookup(init, chans, prefs, user, form);
      TypeTogglesLookup(t, chans, Toggles(init, chans, prefs, user, form), user, form);
    }
  }

  /** The frequency rows written are exactly the non-default submitted frequencies. */
  lemma {:induction false} FrequencyRowsLookup(types: seq<NotificationType>, fprefs: FrequencyPrefs, user: UserId, form: Form)
    ensures forall k :: k in FrequencyRows(types, fprefs, user, form) <==> k in fprefs || WritesAnyFrequency(types, user, form, k)
    ensures forall k | k in FrequencyRows(types, fprefs, user, form) && WritesAnyFrequency(types, user, form, k) ::
      FrequencyRows(types, fprefs, user, form)[k] == form[FrequencyField(k.1)]
    ensures forall k | k in FrequencyRows(types, fprefs, user, form) && !WritesAnyFrequency(types, user, form, k) ::
      FrequencyRows(types, fprefs, user, form)[k] == fprefs[k]
    decreases |types|
  {
    if types != [] {
      var init := types[..|types| - 1];
      var t := types[|types| - 1];
      assert types == init + [t];
      FrequencyRowsLookup(init, fprefs, user, form);
      assert forall k :: WritesAnyFrequency(types, user, form, k) <==>
        WritesAnyFrequency(init, user, form, k) || WritesFrequency(t, user, form, k);
    }
  }

  /** The channel table after a save of `form` by `user`. */
  function SavedChannelPrefs(types: seq<NotificationType>, chans: seq<Channel>, prefs: ChannelPrefs, user: UserId, form: Form): ChannelPrefs {
    Toggles(types, chans, WithoutUserChannels(prefs, user), user, form)
  }

  /** The frequency table after a save of `form` by `user`. */
  function SavedFrequencyPrefs(types: seq<NotificationType>, fprefs: FrequencyPrefs, user: UserId, form: Form): FrequencyPrefs {
    FrequencyRows(types, WithoutUserFrequencies(fprefs, user), user, form)
  }

  /** The inner loop of the save: one type's channel toggles. */
  method SaveTypeToggles(db: Database, t: NotificationType, chans: seq<Channel>, user: UserId, form: Form)
    modifies db
    ensures db.channelPrefs == TypeToggles(t, chans, old(db.channelPrefs), user, form)
    ensures db.frequencyPrefs == old(db.frequencyPrefs)
    ensures db.notifications == old(db.notifications) && db.outbox == old(db.outbox)
  {
    var j := 0;
    while j < |chans|
      invariant 0 <= j <= |chans|
      invariant db.channelPrefs == TypeToggles(t, chans[..j], old(db.channelPrefs), user, form)
      invariant db.frequencyPrefs == old(db.frequencyPrefs)
      invariant db.notifications == old(db.notifications) && db.outbox == old(db.outbox)
    {
      var c := chans[j];
      assert chans[..j + 1][..j] == chans[..j];
      if c.key !in t.requiredChannels {
        db.channelPrefs := db.channelPrefs[(user, t.key, c.key) := FieldKey(t.key, c.key) in form];
      }
      j := j + 1;
    }
    assert chans[..j] == chans;
  }

  /**
   * save_notification_preferences: deletes all of the user's channel and frequency rows, then for
   * every registered type writes a row per non-required channel (enabled exactly when its field
   * was submitted) and a frequency row when the submitted frequency differs from the default.
   */
  method SavePreferences(db: Database, reg: NotificationRegistry, user: UserId, form: Form)
    modifies db
    ensures db.channelPrefs == SavedChannelPrefs(reg.AllTypes(), reg.AllChannels(), old(db.channelPrefs), user, form)
    ensures db.frequencyPrefs == SavedFrequencyPrefs(reg.AllTypes(), old(db.frequencyPrefs), user, form)
    ensures db.notifications == old(db.notifications) && db.outbox == old(db.outbox)
  {
    var types := reg.AllTypes();
    var chans := reg.AllChannels();
    db.channelPrefs := WithoutUserChannels(db.channelPrefs, user);
    db.frequencyPrefs := WithoutUserFrequencies(db.frequencyPrefs, user);
    ghost var cleared, clearedFrequencies := db.channelPrefs, db.frequencyPrefs;
    var i := 0;
    while i < |types|
      invariant 0 <= i <= |types|
      invariant db.channelPrefs == Toggles(types[..i], chans, cleared, user, form)
      invariant db.frequencyPrefs == FrequencyRows(types[..i], clearedFrequencies, user, form)
      invariant db.notifications == old(db.notifications) && db.outbox == old(db.outbox)
    {
      var t := types[i];
      SaveStep(types, i, chans, cleared, clearedFrequencies, user, form);
      SaveTypeToggles(db, t, chans, user, form);
      var field := FrequencyField(t.key);
      if field in form && form[field] != t.defaultFrequency.key {
        db.frequencyPrefs := db.frequencyPrefs[(user, t.key) := form[field]];
      }
      i := i + 1;
    }
    assert types[..i] == types;
  }

  /** One more type in the save loop: its toggles, then its frequency row. */
  lemma SaveStep(types: seq<NotificationType>, i: nat, chans: seq<Channel>, prefs: ChannelPrefs, fprefs: FrequencyPrefs, user: UserId, form: Form)
    requires i < |types|
    ensures Toggles(types[..i + 1], chans, prefs, user, form) == TypeToggles(types[i], chans, Toggles(types[..i], chans, prefs, user, form), user, form)
    ensures
      var t := types[i];
      var p := FrequencyRows(types[..i], fprefs, user, form);
      FrequencyRows(types[..i + 1], fprefs, user, form) ==
        if FrequencyField(t.key) in form && form[FrequencyField(t.key)] != t.defaultFrequency.key then p[(user, t.key) := form[FrequencyField(t.key)]]
        else p
  {
    assert types[..i + 1][..i] == types[..i];
  }

  /** No two types in the list share a key (the registry guarantees it). */
  predicate UniqueTypeKeys(types: seq<NotificationType>) {
    forall t1, t2 | t1 in types && t2 in types && t1.key == t2.key :: t1 == t2
  }

  /** No two channels in the list share a key (the registry guarantees it). */
  predicate UniqueChannelKeys(chans: seq<Channel>) {
    forall c1, c2 | c1 in chans && c2 in chans && c1.key == c2.key :: c1 == c2
  }

  lemma RegisteredTypesUnique(es: Entries<NotificationType>)
    requires KeyedTypes(es)
    ensures UniqueTypeKeys(Values(es))
  {
    forall t1, t2 | t1 in Values(es) && t2 in Values(es) && t1.key == t2.key
      ensures t1 == t2
    {
      var i :| 0 <= i < |es| && Values(es)[i] == t1;
      var j :| 0 <= j < |es| && Values(es)[j] == t2;
      assert es[i] in es && es[j] in es;
      assert Keys(es)[i] == Keys(es)[j];
    }
  }

  lemma RegisteredChannelsUnique(es: Entries<Channel>)
    requires KeyedChannels(es)
    ensures UniqueChannelKeys(Values(es))
  {
    forall c1, c2 | c1 in Values(es) && c2 in Values(es) && c1.key == c2.key
      ensures c1 == c2
    {
      var i :| 0 <= i < |es| && Values(es)[i] == c1;
      var j :| 0 <= j < |es| && Values(es)[j] == c2;
      assert es[i] in es && es[j] in es;
      assert Keys(es)[i] == Keys(es)[j];
    }
  }

  /**
   * After a save, a registered channel of a registered type is on exactly when it is not
   * forbidden and either required or submitted; whatever the user had stored before is gone.
   */
  lemma SaveThenChannelView(types: seq<NotificationType>, chans: seq<Channel>, prefs: ChannelPrefs, user: UserId, form: Form, t: NotificationType, c: Channel)
    requires t in types && c in chans
    ensures ChannelEnabled(t, c, SavedChannelPrefs(types, chans, prefs, user, form), user) <==>
      c.key !in t.forbiddenChannels && (c.key in t.requiredChannels || FieldKey(t.key, c.key) in form)
  {
    TogglesLookup(types, chans, WithoutUserChannels(prefs, user), user, form);
    var k := (user, t.key, c.key);
    if c.key !in t.requiredChannels {
      assert WritesRow(t, chans, user, k);
      assert WritesAnyRow(types, chans, user, k);
    }
  }

  /**
   * After a save, a type's email frequency is the submitted one when it names a registered
   * frequency, and the type's default otherwise (no field, the default itself, or an unknown key).
   */
  lemma SaveThenFrequencyView(types: seq<NotificationType>, freqs: Entries<Frequency>, fprefs: FrequencyPrefs, user: UserId, form: Form, t: NotificationType)
    requires KeyedFrequencies(freqs) && UniqueTypeKeys(types) && t in types
    ensures EffectiveFrequency(freqs, t, SavedFrequencyPrefs(types, fprefs, user, form), user).key ==
      if FrequencyField(t.key) in form && form[FrequencyField(t.key)] in Keys(freqs) then form[FrequencyField(t.key)]
      else t.defaultFrequency.key
  {
    FrequencyRowsLookup(types, WithoutUserFrequencies(fprefs, user), user, form);
    var k := (user, t.key);
    var saved := SavedFrequencyPrefs(types, fprefs, user, form);
    assert WritesAnyFrequency(types, user, form, k) <==> WritesFrequency(t, user, form, k);
    assert k in saved <==> WritesFrequency(t, user, form, k);
  }

  /** Every row the user owns after a save was written by it: the previous rows are all replaced. */
  lemma SaveReplacesUserRows(types: seq<NotificationType>, chans: seq<Channel>, prefs: ChannelPrefs, fprefs: FrequencyPrefs, user: UserId, form: Form)
    ensures forall k | k in SavedChannelPrefs(types, chans, prefs, user, form) && k.0 == user ::
      WritesAnyRow(types, chans, user, k) && SavedChannelPrefs(types, chans, prefs, user, form)[k] == (FieldKey(k.1, k.2) in form)
    ensures forall k | k in SavedFrequencyPrefs(types, fprefs, user, form) && k.0 == user ::
      WritesAnyFrequency(types, user, form, k) && SavedFrequencyPrefs(types, fprefs, user, form)[k] == form[FrequencyField(k.1)]
  {
    TogglesLookup(types, chans, WithoutUserChannels(prefs, user), user, form);
    FrequencyRowsLookup(types, WithoutUserFrequencies(fprefs, user), user, form);
  }

  /**
   * A required channel is never stored as a row, so leaving it out of the form cannot disable it,
   * and a stored frequency always differs from its type's default.
   */
  lemma SaveStoresOnlyOverrides(types: seq<NotificationType>, chans: seq<Channel>, prefs: ChannelPrefs, fprefs: FrequencyPrefs, user: UserId, form: Form, t: NotificationType)
    requires UniqueTypeKeys(types) && t in types
    ensures forall c | c in chans && c.key in t.requiredChannels ::
      (user, t.key, c.key) !in SavedChannelPrefs(types, chans, prefs, user, form)
    ensures (user, t.key) in SavedFrequencyPrefs(types, fprefs, user, form) ==>
      SavedFrequencyPrefs(types, fprefs, user, form)[(user, t.key)] != t.defaultFrequency.key
  {
    TogglesLookup(types, chans, WithoutUserChannels(prefs, user), user, form);
    FrequencyRowsLookup(types, WithoutUserFrequencies(fprefs, user), user, form);
    var saved := SavedChannelPrefs(types, chans, prefs, user, form);
    forall c | c in chans && c.key in t.requiredChannels
      ensures (user, t.key, c.key) !in saved
    {
      var k := (user, t.key, c.key);
      assert !WritesRow(t, chans, user, k);
      assert !WritesAnyRow(types, chans, user, k);
    }
    var k := (user, t.key);
    assert WritesAnyFrequency(types, user, form, k) <==> WritesFrequency(t, user, form, k);
  }

  /** A save by one user leaves every other user's rows as they were. */
  lemma SaveIsolation(types: seq<NotificationType>, chans: seq<Channel>, prefs: ChannelPrefs, fprefs: FrequencyPrefs, user: UserId, other: UserId, form: Form)
    requires other != user
    ensures UserChannelRows(SavedChannelPrefs(types, chans, prefs, user, form), other) == UserChannelRows(prefs, other)
    ensures forall k: FrequencyPrefKey | k.0 == other ::
      (k in SavedFrequencyPrefs(types, fprefs, user, form) <==> k in fprefs) &&
      (k in fprefs ==> SavedFrequencyPrefs(types, fprefs, user, form)[k] == fprefs[k])
  {
    TogglesLookup(types, chans, WithoutUserChannels(prefs, user), user, form);
    FrequencyRowsLookup(types, WithoutUserFrequencies(fprefs, user), user, form);
    assert UserChannelRows(SavedChannelPrefs(types, chans, prefs, user, form), other) == UserChannelRows(prefs, other);
  }

  /** The form fields of one type's enabled channels. */
  function ChannelForm(t: NotificationType, chans: seq<Channel>, prefs: ChannelPrefs, user: UserId): Form {
    if chans == [] then map[]
    else
      var c := chans[|chans| - 1];
      var m := ChannelForm(t, chans[..|chans| - 1], prefs, user);
      if ChannelEnabled(t, c, prefs, user) then m[FieldKey(t.key, c.key) := "on"] else m
  }

  /** A type's form has a field for exactly its enabled channels. */
  lemma {:induction false} ChannelFormFields(t: NotificationType, chans: seq<Channel>, prefs: ChannelPrefs, user: UserId)
    ensures forall k :: k in ChannelForm(t, chans, prefs, user) <==>
      exists c :: c in chans && ChannelEnabled(t, c, prefs, user) && FieldKey(t.key, c.key) == k
    decreases |chans|
  {
    if chans != [] {
      var init := chans[..|chans| - 1];
      assert chans == init + [chans[|chans| - 1]];
      ChannelFormFields(t, init, prefs, user);
    }
  }

  /**
   * The form as the settings page submits it when the user changes nothing: a field for every
   * enabled channel and the current frequency of every type.
   */
  function SettingsForm(types: seq<NotificationType>, chans: seq<Channel>, freqs: Entries<Frequency>, prefs: ChannelPrefs, fprefs: FrequencyPrefs, user: UserId): Form
    requires KeyedFrequencies(freqs)
  {
    if types == [] then map[]
    else
      var t := types[|types| - 1];
      SettingsForm(types[..|types| - 1], chans, freqs, prefs, fprefs, user) +
        ChannelForm(t, chans, prefs, user)[FrequencyField(t.key) := EffectiveFrequency(freqs, t, fprefs, user).key]
  }

  /**
   * Field names can be told apart: a channel field names one (type, channel) pair and is never a
   * frequency field. Keys containing "__" could break this.
   */
  predicate Unambiguous(types: seq<NotificationType>, chans: seq<Channel>) {
    (forall t1, t2, c1, c2 | t1 in types && t2 in types && c1 in chans && c2 in chans &&
      FieldKey(t1.key, c1.key) == FieldKey(t2.key, c2.key) :: t1.key == t2.key && c1.key == c2.key) &&
    (forall t1, t2, c | t1 in types && t2 in types && c in chans :: FieldKey(t1.key, c.key) != FrequencyField(t2.key))
  }

  lemma FrequencyFieldInjective(a: string, b: string)
    requires FrequencyField(a) == FrequencyField(b)
    ensures a == b
  {
    assert a == FrequencyField(a)[..|a|] == FrequencyField(b)[..|b|] == b;
  }

  /** A type's form has the field of (t, c) only when it is t's form and c is enabled. */
  lemma ChannelFormAt(last: NotificationType, t: NotificationType, c: Channel, chans: seq<Channel>, prefs: ChannelPrefs, user: UserId)
    requires c in chans && UniqueChannelKeys(chans) && (last.key == t.key ==> last == t)
    requires forall c' | c' in chans && FieldKey(last.key, c'.key) == FieldKey(t.key, c.key) :: last.key == t.key && c'.key == c.key
    ensures FieldKey(t.key, c.key) in ChannelForm(last, chans, prefs, user) <==> last == t && ChannelEnabled(t, c, prefs, user)
  {
    ChannelFormFields(last, chans, prefs, user);
    if FieldKey(t.key, c.key) in ChannelForm(last, chans, prefs, user) {
      var c' :| c' in chans && ChannelEnabled(last, c', prefs, user) && FieldKey(last.key, c'.key) == FieldKey(t.key, c.key);
      assert c' == c;
    }
  }

  /** The settings form of some of the registered types, read at a registered channel's field. */
  lemma {:induction false} SettingsFormChannelField(types: seq<NotificationType>, all: seq<NotificationType>, chans: seq<Channel>, freqs: Entries<Frequency>, prefs: ChannelPrefs, fprefs: FrequencyPrefs, user: UserId, t: NotificationType, c: Channel)
    requires KeyedFrequencies(freqs) && UniqueTypeKeys(all) && UniqueChannelKeys(chans) && Unambiguous(all, chans)
    requires forall x | x in types :: x in all
    requires t in all && c in chans
    ensures FieldKey(t.key, c.key) in SettingsForm(types, chans, freqs, prefs, fprefs, user) <==>
      t in types && ChannelEnabled(t, c, prefs, user)
    decreases |types|
  {
    if types != [] {
      var init := types[..|types| - 1];
      var last := types[|types| - 1];
      assert types == init + [last];
      SettingsFormChannelField(init, all, chans, freqs, prefs, fprefs, user, t, c);
      assert FieldKey(t.key, c.key) != FrequencyField(last.key);
      ChannelFormAt(last, t, c, chans, prefs, user);
    }
  }

  /** The settings form of some of the registered types, read at a registered type's frequency field. */
  lemma {:induction false} SettingsFormFrequency(types: seq<NotificationType>, all: seq<NotificationType>, chans: seq<Channel>, freqs: Entries<Frequency>, prefs: ChannelPrefs, fprefs: FrequencyPrefs, user: UserId, t: NotificationType)
    requires KeyedFrequencies(freqs) && UniqueTypeKeys(all) && Unambiguous(all, chans)
    requires forall x | x in types :: x in all
    requires t in all
    ensures FrequencyField(t.key) in SettingsForm(types, chans, freqs, prefs, fprefs, user) <==> t in types
    ensures t in types ==>
      SettingsForm(types, chans, freqs, prefs, fprefs, user)[FrequencyField(t.key)] == EffectiveFrequency(freqs, t, fprefs, user).key
    decreases |types|
  {
    if types != [] {
      var init := types[..|types| - 1];
      var last := types[|types| - 1];
      assert types == init + [last];
      SettingsFormFrequency(init, all, chans, freqs, prefs, fprefs, user, t);
      var cf := ChannelForm(last, chans, prefs, user);
      ChannelFormFields(last, chans, prefs, user);
      assert FrequencyField(t.key) !in cf;
      assert FrequencyField(t.key) == FrequencyField(last.key) <==> t == last by {
        if FrequencyField(t.key) == FrequencyField(last.key) {
          FrequencyFieldInjective(t.key, last.key);
        }
      }
    }
  }

  /** One channel toggle survives the save of the unchanged settings form. */
  lemma SaveViewRoundTripToggle(types: seq<NotificationType>, chans: seq<Channel>, freqs: Entries<Frequency>, prefs: ChannelPrefs, fprefs: FrequencyPrefs, user: UserId, t: NotificationType, c: Channel)
    requires KeyedFrequencies(freqs) && UniqueTypeKeys(types) && UniqueChannelKeys(chans) && Unambiguous(types, chans)
    requires t in types && c in chans
    ensures
      var form := SettingsForm(types, chans, freqs, prefs, fprefs, user);
      ChannelEnabled(t, c, SavedChannelPrefs(types, chans, prefs, user, form), user) == ChannelEnabled(t, c, prefs, user)
  {
    var form := SettingsForm(types, chans, freqs, prefs, fprefs, user);
    SaveThenChannelView(types, chans, prefs, user, form, t, c);
    SettingsFormChannelField(types, types, chans, freqs, prefs, fprefs, user, t, c);
  }

  /** One type's channel settings survive the save of the unchanged settings form. */
  lemma SaveViewRoundTripChannels(types: seq<NotificationType>, chans: seq<Channel>, freqs: Entries<Frequency>, prefs: ChannelPrefs, fprefs: FrequencyPrefs, user: UserId, t: NotificationType)
    requires KeyedFrequencies(freqs) && UniqueTypeKeys(types) && UniqueChannelKeys(chans) && Unambiguous(types, chans)
    requires t in types
    ensures
      var form := SettingsForm(types, chans, freqs, prefs, fprefs, user);
      ChannelSettings(t, chans, SavedChannelPrefs(types, chans, prefs, user, form), user) == ChannelSettings(t, chans, prefs, user)
  {
    var form := SettingsForm(types, chans, freqs, prefs, fprefs, user);
    var saved := SavedChannelPrefs(types, chans, prefs, user, form);
    forall c | c in chans
      ensures ChannelEnabled(t, c, saved, user) == ChannelEnabled(t, c, prefs, user)
    {
      SaveViewRoundTripToggle(types, chans, freqs, prefs, fprefs, user, t, c);
    }
    ChannelSettingsAgree(t, chans, saved, prefs, user);
  }

  /** The channel settings depend on the table only through which channels are enabled. */
  lemma ChannelSettingsAgree(t: NotificationType, chans: seq<Channel>, p1: ChannelPrefs, p2: ChannelPrefs, user: UserId)
    requires forall c | c in chans :: ChannelEnabled(t, c, p1, user) == ChannelEnabled(t, c, p2, user)
    ensures ChannelSettings(t, chans, p1, user) == ChannelSettings(t, chans, p2, user)
  {
    assert forall j | 0 <= j < |chans| :: ChannelEnabled(t, chans[j], p1, user) == ChannelEnabled(t, chans[j], p2, user);
  }

  /** One type's email frequency survives the save of the unchanged settings form. */
  lemma SaveViewRoundTripFrequency(types: seq<NotificationType>, chans: seq<Channel>, freqs: Entries<Frequency>, prefs: ChannelPrefs, fprefs: FrequencyPrefs, user: UserId, t: NotificationType)
    requires KeyedFrequencies(freqs) && UniqueTypeKeys(types) && Unambiguous(types, chans)
    requires t in types
    ensures
      var form := SettingsForm(types, chans, freqs, prefs, fprefs, user);
      EffectiveFrequency(freqs, t, SavedFrequencyPrefs(types, fprefs, user, form), user).key == EffectiveFrequency(freqs, t, fprefs, user).key
  {
    var form := SettingsForm(types, chans, freqs, prefs, fprefs, user);
    SaveThenFrequencyView(types, freqs, fprefs, user, form, t);
    SettingsFormFrequency(types, types, chans, freqs, prefs, fprefs, user, t);
  }

  /**
   * Saving the form the settings page submits unchanged gives back the same settings: the save
   * and the view are inverse to each other.
   */
  lemma SaveViewRoundTrip(types: seq<NotificationType>, chans: seq<Channel>, freqs: Entries<Frequency>, prefs: ChannelPrefs, fprefs: FrequencyPrefs, user: UserId)
    requires KeyedFrequencies(freqs) && UniqueTypeKeys(types) && UniqueChannelKeys(chans) && Unambiguous(types, chans)
    ensures
      var form := SettingsForm(types, chans, freqs, prefs, fprefs, user);
      PreferencesView(types, chans, freqs, SavedChannelPrefs(types, chans, prefs, user, form),
                      SavedFrequencyPrefs(types, fprefs, user, form), user) ==
      PreferencesView(types, chans, freqs, prefs, fprefs, user)
  {
    var form := SettingsForm(types, chans, freqs, prefs, fprefs, user);
    var saved := SavedChannelPrefs(types, chans, prefs, user, form);
    var savedF := SavedFrequencyPrefs(types, fprefs, user, form);
    forall t | t in types
      ensures TypeView(t, chans, freqs, saved, savedF, user) == TypeView(t, chans, freqs, prefs, fprefs, user)
    {
      SaveViewRoundTripChannels(types, chans, freqs, prefs, fprefs, user, t);
      SaveViewRoundTripFrequency(types, chans, freqs, prefs, fprefs, user, t);
    }
    ViewsAgree(types, chans, freqs, saved, savedF, prefs, fprefs, user);
  }

  /** The settings view depends on the tables only through each type's settings. */
  lemma ViewsAgree(types: seq<NotificationType>, chans: seq<Channel>, freqs: Entries<Frequency>, p1: ChannelPrefs, f1: FrequencyPrefs, p2: ChannelPrefs, f2: FrequencyPrefs, user: UserId)
    requires KeyedFrequencies(freqs)
    requires forall t | t in types :: TypeView(t, chans, freqs, p1, f1, user) == TypeView(t, chans, freqs, p2, f2, user)
    ensures PreferencesView(types, chans, freqs, p1, f1, user) == PreferencesView(types, chans, freqs, p2, f2, user)
  {
    assert forall i | 0 <= i < |types| :: TypeView(types[i], chans, freqs, p1, f1, user) == TypeView(types[i], chans, freqs, p2, f2, user);
  }

  /** With registry-held types and channels, the round trip needs only unambiguous field names. */
  lemma RegisteredRoundTrip(reg: NotificationRegistry, prefs: ChannelPrefs, fprefs: FrequencyPrefs, user: UserId)
    requires reg.Valid() && Unambiguous(reg.AllTypes(), reg.AllChannels())
    ensures
      var form := SettingsForm(reg.AllTypes(), reg.AllChannels(), reg.frequencies, prefs, fprefs, user);
      PreferencesView(reg.AllTypes(), reg.AllChannels(), reg.frequencies,
                      SavedChannelPrefs(reg.AllTypes(), reg.AllChannels(), prefs, user, form),
                      SavedFrequencyPrefs(reg.AllTypes(), fprefs, user, form), user) ==
      PreferencesView(reg.AllTypes(), reg.AllChannels(), reg.frequencies, prefs, fprefs, user)
  {
    RegisteredTypesUnique(reg.types);
    RegisteredChannelsUnique(reg.channels);
    SaveViewRoundTrip(reg.AllTypes(), reg.AllChannels(), reg.frequencies, prefs, fprefs, user);
  }

  /**
   * With no stored rows, a type without explicit, required or forbidden channels shows each
   * channel at its default and unlocked, and shows the type's default frequency.
   */
  lemma ViewWithoutRows(t: NotificationType, chans: seq<Channel>, freqs: Entries<Frequency>, prefs: ChannelPrefs, fprefs: FrequencyPrefs, user: UserId)
    requires KeyedFrequencies(freqs) && NoRowsFor(prefs, user, t.key) && (user, t.key) !in fprefs
    requires t.defaultChannels == None && t.requiredChannels == [] && t.forbiddenChannels == []
    ensures |TypeView(t, chans, freqs, prefs, fprefs, user).channels| == |chans|
    ensures forall j | 0 <= j < |chans| ::
      TypeView(t, chans, freqs, prefs, fprefs, user).channels[j] == ChannelSetting(chans[j].key, chans[j].enabledByDefault, false)
    ensures TypeView(t, chans, freqs, prefs, fprefs, user).emailFrequency == t.defaultFrequency.key
  {
    forall j | 0 <= j < |chans|
      ensures ChannelEnabled(t, chans[j], prefs, user) == chans[j].enabledByDefault
    {
      assert (user, t.key, chans[j].key) !in prefs;
    }
  }

  /** A disabled row shows as that channel switched off; every other channel shows as before. */
  lemma ViewShowsDisabledRow(t: NotificationType, chans: seq<Channel>, freqs: Entries<Frequency>, prefs: ChannelPrefs, fprefs: FrequencyPrefs, user: UserId, c: Channel)
    requires KeyedFrequencies(freqs) && c.key !in t.requiredChannels
    ensures forall j | 0 <= j < |chans| ::
      TypeView(t, chans, freqs, prefs[(user, t.key, c.key) := false], fprefs, user).channels[j].enabled ==
      if chans[j].key == c.key then false else TypeView(t, chans, freqs, prefs, fprefs, user).channels[j].enabled
  {
  }
}
