/**
 * Stored state: notification rows with their per-channel delivery state, the two preference
 * tables, and the outbox of mail handed to the transport. Row validation (`clean`) and the
 * absolute-url rule of a notification are here too.
 */
module Models {
  import opened Wrappers
  import opened Text
  import opened Catalog
  import opened Definitions
  import opened Registry

  type UserId = nat

  datatype User = User(id: UserId, email: string)

  /** The object a notification is about (a generic relation in the source). */
  datatype Target = Target(contentType: string, objectId: nat)

  /**
   * A notification row. `read` is the read timestamp (None = unread). `channels` lists the
   * channels it was created for; `sentAt` holds the sent timestamp of each channel row that has
   * been delivered (absent = pending).
   */
  datatype Notification = Notification(
    recipient: User,
    notificationType: string,
    actor: Option<User>,
    target: Option<Target>,
    subject: string,
    text: string,
    url: string,
    metadata: map<string, string>,
    read: Option<nat>,
    channels: seq<string>,
    sentAt: map<string, nat>)
  {
    /** Only channels the notification was created for can be marked sent. */
    predicate Valid() {
      forall k | k in sentAt :: k in channels
    }

    predicate IsRead() {
      read.Some?
    }

    predicate IsSentOn(channelKey: string) {
      channelKey in sentAt
    }

    /** mark_as_read: sets the read timestamp once; later calls keep the first one. */
    function MarkedRead(now: nat): (n: Notification)
      ensures n.IsRead()
      ensures Valid() ==> n.Valid()
      ensures IsRead() ==> n == this
      ensures !IsRead() ==> n.read == Some(now)
      ensures n.(read := read) == this
    {
      if read.Some? then this else this.(read := Some(now))
    }

    /**
     * mark_sent_on_channel: the channel's row becomes sent; a channel without a row stays
     * unsent, an already sent row keeps its timestamp, and every other channel is untouched.
     */
    function MarkedSent(channelKey: string, now: nat): (n: Notification)
      requires Valid()
      ensures n.Valid()
      ensures n.IsSentOn(channelKey) <==> channelKey in channels
      ensures forall k :: k != channelKey ==> (n.IsSentOn(k) <==> IsSentOn(k))
      ensures forall k :: k in sentAt ==> k in n.sentAt && n.sentAt[k] == sentAt[k]
      ensures n.(sentAt := sentAt) == this
    {
      if channelKey in channels && channelKey !in sentAt then this.(sentAt := sentAt[channelKey := now])
      else this
    }
  }

  /**
   * A notification as constructed by the dispatcher: unread, nothing sent yet, metadata empty
   * unless given.
   */
  function NewNotification(
    recipient: User, typeKey: string, actor: Option<User>, target: Option<Target>,
    subject: string, text: string, url: string, metadata: Option<map<string, string>>,
    channels: seq<string>): (n: Notification)
    ensures n.Valid() && !n.IsRead()
    ensures forall k :: !n.IsSentOn(k)
    ensures n.recipient == recipient && n.notificationType == typeKey && n.channels == channels
    ensures n.actor == actor && n.target == target
    ensures n.subject == subject && n.text == text && n.url == url
    ensures metadata == None ==> n.metadata == map[]
  {
    Notification(recipient, typeKey, actor, target, subject, text, url,
                 if metadata.Some? then metadata.value else map[], None, channels, map[])
  }

  /** Channel preference rows are keyed by (user, type key, channel key). */
  type ChannelPrefKey = (UserId, string, string)

  /** Frequency preference rows are keyed by (user, type key) and hold a frequency key. */
  type FrequencyPrefKey = (UserId, string)

  datatype EmailMessage = EmailMessage(to: string, subject: string, body: string)

  class Database {
    var notifications: seq<Notification>
    var channelPrefs: map<ChannelPrefKey, bool>
    var frequencyPrefs: map<FrequencyPrefKey, string>
    var outbox: seq<EmailMessage>

    ghost predicate Valid()
      reads this
    {
      forall n | n in notifications :: n.Valid()
    }

    constructor ()
      ensures Valid()
      ensures notifications == [] && channelPrefs == map[] && frequencyPrefs == map[] && outbox == []
    {
      notifications, channelPrefs, frequencyPrefs, outbox := [], map[], map[], [];
    }

    /** Saves a new row; its id is its position. */
    method Insert(n: Notification) returns (id: nat)
      requires Valid() && n.Valid()
      modifies this
      ensures Valid()
      ensures id == |old(notifications)| && notifications == old(notifications) + [n]
      ensures channelPrefs == old(channelPrefs) && frequencyPrefs == old(frequencyPrefs)
      ensures outbox == old(outbox)
    {
      id := |notifications|;
      notifications := notifications + [n];
    }

    method MarkAsRead(id: nat, now: nat)
      requires Valid() && id < |notifications|
      modifies this
      ensures Valid()
      ensures notifications == old(notifications)[id := old(notifications)[id].MarkedRead(now)]
      ensures channelPrefs == old(channelPrefs) && frequencyPrefs == old(frequencyPrefs)
      ensures outbox == old(outbox)
    {
      var updated := notifications[id].MarkedRead(now);
      notifications := notifications[id := updated];
      assert forall i | 0 <= i < |notifications| :: notifications[i].Valid();
    }

    method MarkSentOnChannel(id: nat, channelKey: string, now: nat)
      requires Valid() && id < |notifications|
      modifies this
      ensures Valid()
      ensures notifications == old(notifications)[id := old(notifications)[id].MarkedSent(channelKey, now)]
      ensures channelPrefs == old(channelPrefs) && frequencyPrefs == old(frequencyPrefs)
      ensures outbox == old(outbox)
    {
      var updated := notifications[id].MarkedSent(channelKey, now);
      notifications := notifications[id := updated];
      assert forall i | 0 <= i < |notifications| :: notifications[i].Valid();
    }

    /** Hands one message to the mail transport. */
    method SendMail(m: EmailMessage)
      modifies this
      ensures outbox == old(outbox) + [m]
      ensures notifications == old(notifications)
      ensures channelPrefs == old(channelPrefs) && frequencyPrefs == old(frequencyPrefs)
    {
      outbox := outbox + [m];
    }
  }

  /** Marking read twice leaves the first timestamp. */
  lemma MarkAsReadIdempotent(n: Notification, first: nat, second: nat)
    ensures n.MarkedRead(first).MarkedRead(second) == n.MarkedRead(first)
    ensures n.MarkedRead(first).read == (if n.IsRead() then n.read else Some(first))
  {
  }

  /** A channel row is sent at most once: marking it again keeps the first timestamp. */
  lemma MarkSentIdempotent(n: Notification, channelKey: string, first: nat, second: nat)
    requires n.Valid()
    ensures n.MarkedSent(channelKey, first).MarkedSent(channelKey, second) == n.MarkedSent(channelKey, first)
  {
  }

  /** Notification.clean: the type key must be registered. */
  function CleanNotification(reg: NotificationRegistry, n: Notification): (r: Outcome<string>)
    reads reg
    requires reg.Valid()
    ensures r.Pass? <==> n.notificationType in Keys(reg.types)
    ensures r.Fail? ==> r.error == "Unknown notification type: " + n.notificationType
  {
    if reg.GetType(n.notificationType).Ok? then Pass
    else Fail("Unknown notification type: " + n.notificationType)
  }

  /** A channel preference row: `enabled == false` is what the source calls a disabled row. */
  datatype ChannelPreference = ChannelPreference(user: UserId, notificationType: string, channel: string, enabled: bool)

  /**
   * Channel preference clean: type and channel keys must be registered, and a required channel
   * cannot be disabled.
   */
  function CleanChannelPreference(reg: NotificationRegistry, row: ChannelPreference): (r: Outcome<string>)
    reads reg
    requires reg.Valid()
    ensures r.Pass? <==>
      row.notificationType in Keys(reg.types) && row.channel in Keys(reg.channels) &&
      (row.enabled || row.channel !in reg.GetType(row.notificationType).value.requiredChannels)
    ensures row.notificationType !in Keys(reg.types) ==>
      r == Fail("Unknown notification type: " + row.notificationType)
    ensures row.notificationType in Keys(reg.types) && row.channel !in Keys(reg.channels) ==>
      r == Fail("Unknown channel: " + row.channel)
    ensures row.notificationType in Keys(reg.types) && row.channel in Keys(reg.channels) && !row.enabled &&
            row.channel in reg.GetType(row.notificationType).value.requiredChannels ==>
      r == Fail("Cannot disable " + row.channel + " channel for " + reg.GetType(row.notificationType).value.name +
                " - this channel is required")
  {
    match reg.GetType(row.notificationType)
    case Err(_) => Fail("Unknown notification type: " + row.notificationType)
    case Ok(t) =>
      if reg.GetChannel(row.channel).Err? then Fail("Unknown channel: " + row.channel)
      else if !row.enabled && row.channel in t.requiredChannels then
        Fail("Cannot disable " + row.channel + " channel for " + t.name + " - this channel is required")
      else Pass
  }

  datatype FrequencyPreference = FrequencyPreference(user: UserId, notificationType: string, frequency: string)

  /** Frequency preference clean: type and frequency keys must be registered. */
  function CleanFrequencyPreference(reg: NotificationRegistry, row: FrequencyPreference): (r: Outcome<string>)
    reads reg
    requires reg.Valid()
    ensures r.Pass? <==> row.notificationType in Keys(reg.types) && row.frequency in Keys(reg.frequencies)
    ensures row.notificationType !in Keys(reg.types) ==>
      r == Fail("Unknown notification type: " + row.notificationType)
    ensures row.notificationType in Keys(reg.types) && row.frequency !in Keys(reg.frequencies) ==>
      r == Fail("Unknown frequency: " + row.frequency)
  {
    if reg.GetType(row.notificationType).Err? then Fail("Unknown notification type: " + row.notificationType)
    else if reg.GetFrequency(row.frequency).Err? then Fail("Unknown frequency: " + row.frequency)
    else Pass
  }

  /** The two settings a notification's absolute url is built from ("" = not set) and DEBUG. */
  datatype UrlSettings = UrlSettings(notificationBaseUrl: string, baseUrl: string, debug: bool)

  predicate HasScheme(u: string) {
    StartsWith(u, "http://") || StartsWith(u, "https://")
  }

  predicate EndsWith(s: string, suffix: string) {
    |suffix| <= |s| && s[|s| - |suffix|..] == suffix
  }

  /** The base a relative url is put behind: NOTIFICATION_BASE_URL when set, else BASE_URL. */
  function UrlBase(settings: UrlSettings): string {
    if settings.notificationBaseUrl != "" then settings.notificationBaseUrl else settings.baseUrl
  }

  /**
   * get_absolute_url: an empty url stays empty, an absolute url is kept, otherwise the url is
   * put behind NOTIFICATION_BASE_URL, else BASE_URL, else left relative; a base without a scheme
   * gets http:// under DEBUG and https:// otherwise.
   */
  function AbsoluteUrl(url: string, settings: UrlSettings): (r: string)
    ensures url == "" ==> r == ""
    ensures HasScheme(url) ==> r == url
    ensures EndsWith(r, url)
    ensures settings.notificationBaseUrl == "" && settings.baseUrl == "" ==> r == url
    ensures url != "" && !HasScheme(url) && (settings.notificationBaseUrl != "" || settings.baseUrl != "") ==>
      HasScheme(r)
    ensures url != "" && !HasScheme(url) && settings.notificationBaseUrl != "" ==>
      Contains(r, settings.notificationBaseUrl)
    ensures url != "" && !HasScheme(url) && UrlBase(settings) != "" && !HasScheme(UrlBase(settings)) ==>
      StartsWith(r, if settings.debug then "http://" else "https://")
    ensures url != "" && !HasScheme(url) && UrlBase(settings) != "" ==>
      r == (if HasScheme(UrlBase(settings)) then UrlBase(settings)
            else (if settings.debug then "http://" else "https://") + UrlBase(settings)) + url
  {
    if url == "" || HasScheme(url) then url
    else
      var base := UrlBase(settings);
      if base == "" then url
      else
        var full := if HasScheme(base) then base else (if settings.debug then "http://" else "https://") + base;
        assert StartsWith(full + url, "http://") <== StartsWith(full, "http://");
        assert StartsWith(full + url, "https://") <== StartsWith(full, "https://");
        assert (full + url)[|full + url| - |url|..] == url;
        ContainsAfterFull(full, base, url, settings.debug);
        full + url
  }

  lemma ContainsAfterFull(full: string, base: string, url: string, debug: bool)
    requires full == base || full == (if debug then "http://" else "https://") + base
    ensures Contains(full + url, base)
  {
    assert StartsWith(base + url, base) by { assert (base + url)[..|base|] == base; }
    ContainsPrefix(base, url, base);
    if full != base {
      var scheme := if debug then "http://" else "https://";
      assert full + url == scheme + (base + url);
      ContainsAfterPrefix(scheme, base + url, base);
    }
  }
}
