/**
 * The three kinds of registered policy objects: notification types, delivery channels and
 * delivery frequencies. Each is identified by its string key. The source's classes become values
 * here; their behaviour (resolution, processing) lives in the modules that use them.
 */
module Definitions {
  import opened Wrappers

  /** A delivery cadence; only realtime frequencies deliver immediately. */
  datatype Frequency = Frequency(key: string, name: string, description: string, isRealtime: bool)

  /** Which delivery a channel performs when it sends a single notification. */
  datatype ChannelKind = WebsiteKind | EmailKind | OtherKind

  datatype Channel = Channel(
    key: string,
    name: string,
    kind: ChannelKind,
    enabledByDefault: bool,
    supportsRealtime: bool,
    supportsDigest: bool)

  /**
   * A notification category and its channel policy. `defaultChannels == None` means: every
   * registered channel whose `enabledByDefault` flag is set.
   */
  datatype NotificationType = NotificationType(
    key: string,
    name: string,
    description: string,
    defaultChannels: Option<seq<string>>,
    requiredChannels: seq<string>,
    forbiddenChannels: seq<string>,
    defaultFrequency: Frequency)

  const RealtimeFrequency := Frequency("realtime", "Realtime", "", true)
  const DailyFrequency := Frequency("daily", "Daily", "", false)

  const WebsiteChannel := Channel("website", "Website", WebsiteKind, true, true, false)
  const EmailChannel := Channel("email", "Email", EmailKind, true, true, true)

  /** A type declared with only a key, a name and a description gets these defaults. */
  function PlainType(key: string, name: string, description: string): (t: NotificationType)
    ensures t.key == key && t.defaultChannels == None
    ensures t.requiredChannels == [] && t.forbiddenChannels == []
    ensures t.defaultFrequency == DailyFrequency
  {
    NotificationType(key, name, description, None, [], [], DailyFrequency)
  }

  /** The built-in system message type: email is required and delivery is realtime. */
  const SystemMessage := NotificationType(
    "system_message", "System Message", "Important system notifications",
    None, [EmailChannel.key], [], RealtimeFrequency)

  /**
   * Whatever a caller hands to a register call. The source accepts any object and checks that it
   * is a subclass of the right base; `OtherValue` is anything that is not.
   */
  datatype Registrable =
    | TypeClass(notificationType: NotificationType)
    | ChannelClass(channel: Channel)
    | FrequencyClass(frequency: Frequency)
    | OtherValue(repr: string)
}
