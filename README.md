# django-generic-notifications: a verified model of the notification engine

This project models the policy and dispatch engine of django-generic-notifications in Dafny. It
covers the core that decides who receives a notification, on which channels, when and how, with
storage abstracted to sequences and maps:

- **Registry.** A `NotificationRegistry` object holds three insertion-ordered catalogues (types,
  channels, frequencies). It supports register/replace, get (a missing key is an error),
  unregister (reports whether anything was removed), clear, and the realtime-frequency filter.
- **Channel policy.** `EnabledChannels` is the enabled set of a type for a user. It is built from
  the type's default, required and forbidden channels, the channels' default flags and the user's
  stored rows. The per-type preference writers are disable/enable a channel and set/reset the
  email frequency, plus the effective-frequency lookup with its fallback to the type default.
- **Dispatcher.** `send_notification` validates the type and collects the enabled channels. It
  returns nothing when none are enabled and consults the `should_save` hook. It then stores the
  notification and lets every enabled channel process it in order, with each channel's failure
  isolated from the others.
- **Channels.** `process` sends now under a realtime frequency and otherwise leaves the row
  pending. The email channel's `send_now` and `send_digest` produce the plain-text subject and body
  formats.
- **Digest job.** It selects the unread, unsent email rows whose effective frequency is the target.
  Each recipient gets one message, newest first, and every included row is marked sent. A dry run
  changes nothing.
- **Queries.** The newest-first listing (channel, unread-only and limit filters), the unread count
  and the bulk read marker.
- **Preferences page.** The settings view and the form save that replaces all of a user's rows.
  The two are proved inverse: saving the unchanged form gives back the same view.
- **Validation and URLs.** Row validation (`clean`) and the absolute-url rule of a notification.

Stored state is the `Database` class (models.dfy):

- the notification rows, whose position is their id, so newest first means descending id;
- the channel preference table `map<(user, type, channel), bool>`;
- the frequency preference table `map<(user, type), frequency key>`;
- the outbox of messages handed to the mail transport.

Operations that change state are methods with `modifies` clauses. Each method's new state is tied
to a pure function of the old state, and lemmas prove the source's promises about that function.

Clocks, exceptions and hooks become parameters:

- timestamps are `now: nat` arguments;
- the `should_save` hook is a `SaveDecision` argument (save, skip or raise);
- a channel whose `process` raises is named in a `failing` set and changes nothing.

Every other module and test of the repository is not part of this model. For the registry, types,
channels, preferences, digest and models modules, the model follows the behaviour their test suites
state, and the table below cites those tests.

## Model

| member | source | states |
|---|---|---|
| Catalog.Find | tests/test_registry.py:112-119 | a key is found exactly when it is registered, and the value found is the one stored under it |
| Catalog.Put | tests/test_registry.py:352-372 | after storing, the key finds the new value and every other key finds what it found before |
| Catalog.PutKeys | tests/test_registry.py:352-372 | storing under a present key keeps the key order, and storing under a new key appends it |
| Catalog.Remove | tests/test_registry.py:189-266 | after removal the key is gone, other keys are unchanged, and the remaining entries are exactly the old entries under other keys |
| Catalog.RemoveCount | tests/test_registry.py:189-266 | with distinct keys, removing a present key removes exactly one entry and removing an absent key removes none |
| Registry.RealtimeOnly | tests/test_registry.py:172-187 | a frequency is kept exactly when it is in the list and flagged realtime |
| Registry.NotificationRegistry.constructor | tests/test_registry.py:107-110 | a new registry holds no types, channels or frequencies |
| Registry.NotificationRegistry.RegisterType | tests/test_registry.py:112-125 | a type is stored under its key and replaces any earlier one; anything else fails with "Must register a NotificationType subclass" and changes nothing; the other catalogues never change |
| Registry.NotificationRegistry.RegisterChannel | tests/test_registry.py:127-147 | a channel is stored under its key; anything else fails with the BaseChannel message and changes nothing |
| Registry.NotificationRegistry.RegisterFrequency | tests/test_registry.py:149-162 | a frequency is stored under its key; anything else fails with the BaseFrequency message and changes nothing |
| Registry.NotificationRegistry.GetType | tests/test_registry.py:164-170 | success exactly when the key is registered, returning the entry with that key; otherwise a not-found error for the key |
| Registry.NotificationRegistry.GetChannel | tests/test_registry.py:164-170 | success exactly when the key is registered; otherwise a not-found error for the key |
| Registry.NotificationRegistry.GetFrequency | tests/test_registry.py:164-170 | success exactly when the key is registered; otherwise a not-found error for the key |
| Registry.NotificationRegistry.AllTypes | tests/test_registry.py:374-380 | a list with one entry per registered type, in registration order; each entry is what GetType finds under its key |
| Registry.NotificationRegistry.AllChannels | generic_notifications/__init__.py:47 | a list with one entry per registered channel, in registration order; each entry is what GetChannel finds under its key |
| Registry.NotificationRegistry.AllFrequencies | tests/test_registry.py:374-380 | a list with one entry per registered frequency, in registration order; each entry is what GetFrequency finds under its key |
| Registry.NotificationRegistry.RealtimeFrequencies | tests/test_registry.py:172-187 | exactly the registered frequencies flagged realtime, empty when there are none |
| Registry.NotificationRegistry.UnregisterType | tests/test_registry.py:189-210 | returns whether the key was present, removes it, shrinks the catalogue by one exactly when it was present, and leaves the other catalogues alone |
| Registry.NotificationRegistry.UnregisterChannel | tests/test_registry.py:212-242 | the same for channels |
| Registry.NotificationRegistry.UnregisterFrequency | tests/test_registry.py:244-266 | the same for frequencies |
| Registry.NotificationRegistry.ClearTypes | tests/test_registry.py:268-293 | empties the types and leaves channels and frequencies as they were |
| Registry.NotificationRegistry.ClearChannels | tests/test_registry.py:294-323 | empties the channels only |
| Registry.NotificationRegistry.ClearFrequencies | tests/test_registry.py:324-350 | empties the frequencies only |
| Registry.ReRegisterReplaces | tests/test_registry.py:352-372 | registering a second type with the same key leaves one entry, holding the second type |
| Definitions.PlainType | tests/test_types.py:174-194 | a type declared without a channel policy has no explicit default list, no required or forbidden channels, and the Daily default frequency |
| Models.Notification.MarkedRead | tests/test_models.py:264-289 | the row becomes read; an unread row gets the given time, a read row is unchanged, and nothing but the read field moves |
| Models.Notification.MarkedSent | tests/test_models.py:299-312 | the channel is sent exactly when the notification has that channel; every other channel keeps its state, an earlier sent time is kept, and nothing but the sent state moves |
| Models.Notification.IsRead | tests/test_models.py:291-297 | a notification is read exactly when a read time is set; Notification.MarkedRead makes it read and keeps the first time |
| Models.Notification.IsSentOn | tests/test_models.py:299-312 | a notification is sent on a channel exactly when a sent time is recorded for it; Notification.MarkedSent sets it only for the notification's own channels, so another channel stays unsent |
| Models.NewNotification | tests/test_models.py:208-215 | a new notification is unread, sent on no channel, has empty metadata when none is given, and carries the given fields and channels |
| Models.Database.Insert | generic_notifications/__init__.py:69 | the row is appended, its id is its position, and the preference tables and outbox are unchanged |
| Models.Database.MarkAsRead | tests/test_models.py:264-289 | exactly the one row is replaced by its read version |
| Models.Database.MarkSentOnChannel | tests/test_models.py:299-312 | exactly the one row is replaced by its version sent on the channel |
| Models.MarkAsReadIdempotent | tests/test_models.py:276-289 | marking read twice keeps the first timestamp |
| Models.MarkSentIdempotent | tests/test_models.py:299-312 | marking a channel sent twice keeps the first timestamp |
| Models.CleanNotification | tests/test_models.py:250-262 | passes exactly when the type key is registered, else fails with "Unknown notification type: key" |
| Models.CleanChannelPreference | tests/test_models.py:63-119 | passes exactly when type and channel are registered and the row does not disable a required channel; an unknown type or channel fails with the "Unknown …: key" message, and disabling a required channel fails with "Cannot disable <channel> channel for <type name> - this channel is required" |
| Models.CleanFrequencyPreference | tests/test_models.py:160-193 | passes exactly when type and frequency are registered; unknown keys fail with the "Unknown …: key" message |
| Models.AbsoluteUrl | tests/test_models.py:314-387 | an empty url gives "" and an absolute url is kept; otherwise, with base = NOTIFICATION_BASE_URL when set and BASE_URL else, the result is the url unchanged when base is empty, and otherwise base (prefixed with http:// under DEBUG and https:// without it when base has no scheme) followed by the url |
| Types.ChannelEnabled | tests/test_types.py:91-108 | a forbidden channel is off, a required one on, otherwise the user's own row decides and without one the default; DisableEnableEffect and OtherUsersUnaffected state the per-user effect of rows |
| Types.EnabledChannels | tests/test_types.py:110-131 | a channel is in the result exactly when it is registered and enabled for the user, and the result keeps registry order |
| Types.EnabledChannelsAppend | generic_notifications/__init__.py:45-50 | the channels enabled from a concatenation are those enabled from the first part followed by those from the second, so registry order is kept |
| Types.EnabledChannelsSingle | generic_notifications/__init__.py:47-50 | a single channel is kept exactly when it is enabled; with EnabledChannelsAppend this makes the result the order-keeping filter of the registry's channels |
| Types.RequiredChannelsEnabled | tests/test_channel_defaults.py:52-78 | a registered required channel that is not forbidden is always enabled |
| Types.ForbiddenChannelsExcluded | tests/test_channel_defaults.py:76-82 | a forbidden channel is never enabled, whatever its default or the user's rows |
| Types.DefaultsWithoutRows | tests/test_channel_defaults.py:24-50 | without user rows or required/forbidden channels, no explicit list gives exactly the channels enabled by default, and an explicit list gives exactly the listed channels |
| Types.EmptyDefaultsGiveRequired | tests/test_channel_defaults.py:84-105 | an empty default list gives exactly the required channels |
| Types.DisabledRowRemovesOnlyThatChannel | tests/test_channel_defaults.py:107-115 | a disabled row for a non-required channel removes that channel and no other |
| Types.OtherUsersUnaffected | tests/test_types.py:133-140 | the enabled list depends only on the user's own rows |
| Types.EffectiveFrequency | tests/test_types.py:163-194 | the user's stored frequency when it names a registered one, otherwise the type's default |
| Types.DisableChannel | tests/test_types.py:39-64 | stores the single disabled row for (user, type, channel) and changes nothing else |
| Types.EnableChannel | tests/test_types.py:66-89 | stores the single enabled row for (user, type, channel) and changes nothing else |
| Types.DisableEnableEffect | tests/test_types.py:39-89 | after disable a non-required channel is off and after enable a non-forbidden channel is on; other users' rows do not change; disabling twice equals disabling once |
| Types.SetEmailFrequency | tests/test_types.py:142-161 | upserts the single (user, type) row with the new key |
| Types.ResetEmailFrequencyToDefault | tests/test_types.py:196-215 | deletes the (user, type) row |
| Types.FrequencyUpsertAndReset | tests/test_types.py:142-215 | after set, the effective frequency is the one set; after reset, it is the type default |
| Types.FrequencyIsolation | tests/test_types.py:142-161 | a row for another user or type never changes a user's effective frequency |
| Channels.ShouldSend | tests/test_channels.py:103-124 | an email can be delivered exactly when the recipient has an address; SendNowEffect and SendDigest send nothing without one |
| Channels.NowSubject | tests/test_channels.py:127-164 | the stored subject when there is one, otherwise exactly the type's description |
| Channels.NowBody | tests/test_channels.py:328-346 | the text, followed by a newline and the url exactly when a url is set |
| Channels.NowMessage | tests/test_channels.py:127-164 | the immediate email goes to the recipient's address with NowSubject as subject and NowBody as body; SendNowEffect appends exactly this message |
| Channels.DigestSubject | tests/test_management_commands.py:105 | the subject is "<frequency name> digest - " followed by the count, " new notification" and an "s" unless the count is one |
| Channels.DigestSubjectDeterminesCount | tests/test_management_commands.py:105 | two digest subjects are equal only for equal counts: the count is rendered exactly |
| Channels.DigestSubjectPlural | tests/test_management_commands.py:230-234 | the subject ends in "notifications" exactly when the count is not one |
| Channels.DigestEntry | tests/test_channels.py:348-384 | a digest line is "- " and the text, followed by a newline, two spaces and the url exactly when the url is not empty |
| Channels.DigestBody | tests/test_management_commands.py:106 | the body is "You have N new notification(s):" and a blank line, N being the number of notifications, followed by the entries of the notifications in order, joined by newlines |
| Channels.DigestBodyAppend | tests/test_channels.py:348-384 | one more notification adds its entry as the last line of the body, after a newline, and keeps the earlier lines as they were |
| Channels.DigestBodyListsEach | tests/test_channels.py:348-384 | every notification's line, with its url line, appears in the body |
| Channels.MarkAllSent | tests/test_channels.py:272-303 | marking keeps the number of rows and their validity |
| Channels.MarkAllSentEffect | tests/test_channels.py:272-303 | every listed row that has the channel is sent on it, unlisted rows are unchanged, other channels keep their state, and earlier sent times are kept |
| Channels.NotificationFrequency | tests/test_channels.py:66-101 | the email frequency of a notification is its recipient's effective frequency for its type, and an error for an unregistered type |
| Channels.SendNowEffect | tests/test_channels.py:66-124 | the email channel appends exactly the message built from the notification to the outbox and marks the row, unless the address is empty, when nothing changes; other channels leave the outbox alone and only mark their row; no other notification changes |
| Channels.ProcessEffect | tests/test_channels.py:36-101 | a channel without realtime support changes nothing; an unregistered type is an error that changes nothing; a realtime frequency sends now; any other frequency leaves the row pending |
| Channels.DigestFrequencyStaysPending | tests/test_channels.py:84-101 | under a non-realtime frequency, process sends nothing and the row stays unsent |
| Channels.SendNow | tests/test_channels.py:127-164 | the store changes exactly as SendNowEffect says |
| Channels.Process | tests/test_channels.py:36-101 | the store and the result are exactly as ProcessEffect says |
| Channels.DigestMessage | tests/test_channels.py:272-303 | the digest goes to the user's address with DigestSubject for the batch size and DigestBody of the batch; SendDigest sends exactly this message |
| Channels.SendDigest | tests/test_channels.py:272-303 | one digest message for a non-empty batch to a user with an address, and every row in it is marked sent; otherwise nothing |
| Digest.PendingIds | tests/test_management_commands.py:137-286 | every id names a stored row; PendingIdsMembers and PendingNewestFirst state that they are exactly the qualifying rows, newest first |
| Digest.PendingIdsMembers | tests/test_management_commands.py:137-203 | the pending rows are exactly the unread rows with an unsent email row whose effective frequency is the target |
| Digest.PendingNewestFirst | tests/test_management_commands.py:205-244 | the pending rows are listed newest first |
| Digest.RecipientsDistinct | tests/test_management_commands.py:287-326 | no recipient is listed twice |
| Digest.Plan | tests/test_management_commands.py:287-326 | every row of every batch is a stored row; PlanBatchesNonEmpty, PlanRowsQualify, PlanCoversPending, PlanUsersDistinct and PlanBatchNewestFirst state one digest per addressed user holding exactly its qualifying rows, newest first |
| Digest.PlanBatchesNonEmpty | tests/test_management_commands.py:328-338 | every planned digest has at least one row and goes to an address |
| Digest.PlanBatchNewestFirst | tests/test_management_commands.py:287-326 | each digest lists its rows newest first |
| Digest.PlanUsersDistinct | tests/test_management_commands.py:287-326 | no user gets two digests in one run |
| Digest.PlanRowsQualify | tests/test_management_commands.py:137-203 | every row in a digest qualifies and belongs to the digest's recipient |
| Digest.PlanCoversPending | tests/test_management_commands.py:205-244 | every qualifying row of a recipient with an address is in some digest (there is no age window) |
| Digest.MarkBatchesGrows | tests/test_management_commands.py:172-203 | running the plan only sets sent times: every other field stays, and a sent row stays sent |
| Digest.MarkBatchesMarks | tests/test_management_commands.py:205-244 | every row included in a digest ends up sent on email |
| Digest.QualifyingAfterRun | tests/test_management_commands.py:205-244 | after the run, a row that still qualifies belongs to a recipient without an address |
| Digest.RunLeavesNothingPending | tests/test_management_commands.py:172-203 | a second run right after the first finds nothing to send |
| Digest.RunPlan | tests/test_management_commands.py:287-326 | the outbox gains the plan's messages in order and the rows are marked exactly as the plan says |
| Digest.SendDigestNotifications | tests/test_management_commands.py:63-135 | an unknown or realtime target and a dry run change nothing; the count is the number of planned digests; a real run sends the plan and marks it |
| Dispatch.DispatchErrorMessage | generic_notifications/__init__.py:31-42 | the error names the type and says "not registered"; it lists the available keys, or says that none are registered |
| Dispatch.CollectEnabledChannels | generic_notifications/__init__.py:45-50 | the key list and the instance list stay index-aligned and are exactly the enabled registered channels, in registry order |
| Dispatch.ProcessAll | generic_notifications/__init__.py:72-80 | processing the channels in turn only ever sets sent times |
| Dispatch.FailuresAreIsolated | generic_notifications/__init__.py:72-80 | running with failing channels has exactly the effect of running only the channels that succeed |
| Dispatch.ProcessChannels | generic_notifications/__init__.py:71-80 | every channel is visited once, in order, and the store changes exactly as ProcessAll says |
| Dispatch.SendNotification | generic_notifications/__init__.py:10-82 | an unregistered type is an error with nothing written; no enabled channel or a skipping hook gives no notification; a raising hook propagates its error; otherwise the notification is stored with the type key and the enabled channel keys, and every enabled channel processes it in order |
| Dispatch.DispatchedRow | generic_notifications/__init__.py:57-64 | the stored row carries the type key, the channels and the given fields; processing sets only its sent times and no other row changes |
| Dispatch.ProcessAllTouchesOnlyRow | generic_notifications/__init__.py:72-80 | processing one notification never changes another |
| Preferences.WithoutUserChannels | tests/test_preferences.py:133-156 | the user's channel rows are deleted and every other row is kept |
| Preferences.WithoutUserFrequencies | tests/test_preferences.py:133-156 | the user's frequency rows are deleted and every other row is kept |
| Preferences.TogglesLookup | tests/test_preferences.py:104-121 | after the toggles, a row for a non-required registered channel says whether its field was submitted, and no other row changes |
| Preferences.FrequencyRowsLookup | tests/test_preferences.py:197-212 | a frequency row is written exactly for the types whose submitted frequency differs from the default, holding the submitted key |
| Preferences.SaveTypeToggles | tests/test_preferences.py:104-121 | the loop over one type's channels writes exactly that type's toggles |
| Preferences.SavePreferences | tests/test_preferences.py:104-156 | the tables become the saved tables: the user's old rows are cleared, then every type's toggles and non-default frequency are written |
| Preferences.SaveThenChannelView | tests/test_preferences.py:104-121 | after a save, a channel is on exactly when it is not forbidden and either required or submitted |
| Preferences.SaveThenFrequencyView | tests/test_preferences.py:197-212 | after a save, the effective frequency is the submitted one when registered, otherwise the default |
| Preferences.SaveReplacesUserRows | tests/test_preferences.py:133-156 | every row the user owns after a save was written by that save |
| Preferences.SaveStoresOnlyOverrides | tests/test_preferences.py:158-171 | a required channel is never stored, and a stored frequency always differs from its type's default |
| Preferences.SaveIsolation | tests/test_preferences.py:173-195 | a save by one user leaves every other user's rows unchanged |
| Preferences.ChannelFormFields | tests/test_preferences.py:104-121 | a type's form has a field for exactly its enabled channels |
| Preferences.SaveViewRoundTrip | tests/test_preferences.py:44-87 | saving the form the settings view shows, unchanged, gives back exactly the same settings view |
| Preferences.RegisteredRoundTrip | tests/test_preferences.py:104-131 | for the registry's types and channels, the view/save round trip needs only unambiguous field names |
| Preferences.TypeView | tests/test_preferences.py:44-87 | one setting per registered channel in registry order; a required channel shows on and locked, a forbidden one off; without a row of the user the type's default frequency |
| Preferences.PreferencesView | tests/test_preferences.py:44-87 | one entry per registered type, in registry order, each holding a setting for every registered channel |
| Preferences.ViewWithoutRows | tests/test_preferences.py:44-53 | with no rows, each channel shows its default and unlocked, and the frequency is the type default |
| Preferences.ViewShowsDisabledRow | tests/test_preferences.py:55-67 | a disabled row shows that channel off and every other channel as before |
| Utils.GetNotifications | tests/test_utils.py:236-265 | newest first, only the user's rows (on the channel, unread if asked), at most `limit` of them |
| Utils.GetNotificationsLimit | tests/test_utils.py:252-258 | without a limit every listed row is returned; with one, the newest `limit` rows, a prefix of the full listing |
| Utils.UnreadCount | tests/test_utils.py:175-213 | the length of the user's unread listing on the channel; UnreadCountIsSize makes it the number of such rows and MarkAllClearsUnread makes it zero |
| Utils.UnreadCountIsSize | tests/test_utils.py:175-213 | the unread count is the number of the user's unread rows on the channel |
| Utils.MarkNotificationsAsRead | tests/test_utils.py:113-167 | the store becomes MarkedAsRead of the old store, and the preference tables and outbox are unchanged |
| Utils.MarkedAsRead | tests/test_utils.py:113-167 | every row selected (the user's, and among the ids when ids are given) becomes its read version and every other row is kept; MarkedAsReadEffect states what that means for read times and other users |
| Utils.MarkedAsReadEffect | tests/test_utils.py:113-167 | selected rows become read, a read row keeps its time, other users' rows and unlisted ids are untouched, and marking again changes nothing |
| Utils.MarkAllClearsUnread | tests/test_utils.py:113-130 | after marking all of a user's rows, their unread count is zero on every channel |
| Utils.MarkLeavesOthers | tests/test_utils.py:157-167 | marking one user's rows never changes another user's listing |

## Left out

- Django ORM, querysets and `transaction.atomic`: storage is the `Database` class, and each
  operation is one atomic step.
- Email transport, template rendering and HTML alternatives: a message is added to an outbox
  sequence. Only the plain-text fallback formats are modelled.
- The `get_subject`/`get_text` hooks of a notification are not modelled. The stored subject and
  text are used directly.
- Logging, the management-command wrapper (argument parsing, log levels, swallowed errors) and the
  query-count performance tests are not modelled.
- The `force` flag of the register calls is not modelled; registering always replaces.
- Registry isolation needs no lemma: two registry objects share no state. Registry.RegistryWalkthrough
  exercises it.
- Dispatch.SendNotification: the `should_save` hook is an input decision, so any grouping or
  updating of existing notifications it does is left out.
- Dispatch.SendNotification: a channel's exception is a `failing` key that changes nothing, so
  partial effects of a failing channel are not modelled.
- Dispatch.DispatchErrorMessage: names the type by its key, where the source formats the type
  class itself.
- Timestamps are natural numbers supplied by the caller, not clock readings.
- Generic content-type targets are a (content type, object id) pair and are never dereferenced.
- Preferences.SavePreferences: writes an explicit enabled row for each submitted non-required
  channel and a disabled row for each absent one. The tests count only the disabled rows. With
  that choice, a channel off by default that the user switches on stays on.
- Preferences.SaveViewRoundTrip: requires field names to be unambiguous (no type or channel key
  built so that `<type>__<channel>` collides with another pair or with a frequency field).
- Utils.MarkNotificationsAsRead: an empty id set selects nothing. `None` selects all of the user's
  rows.
- Utils.GetNotifications: a channel of `None` applies no channel filter.
- A type whose key is no longer registered never qualifies for a digest. Its `process` reports a
  not-found error and changes nothing.
- The digest body joins entries with a single newline. The subject and body wording follow the
  tests' strings.
- Types.EnableChannel: stores an explicit enabled row, where the source deletes the disabled row.
  For a channel that is off by default, enabling it therefore turns it on, while the source falls
  back to the default and leaves it off.
