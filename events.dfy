/**
 * The records the server reads from the database and the pure filters and
 * texts built from them: the message sender match, preview and
 * description (firebase-notification-server.js:451-541), the activity texts
 * (570-612), Jarif's login details with their "Unknown" defaults (618-649),
 * and the login-page access text that leaves Jarif out (661-694).
 *
 * A field that is missing in the database is the empty string (or 0)
 * here: every use of such a field in the source is a truthiness test
 * (`||`, `!x`) or an equality with a non-empty id, under which both read
 * the same.
 */
module Events {
  import opened Basics
  import opened Format

  datatype Attachment = Attachment(mimeType: string, name: string)

  /** A chat message; `savedBy` and `readBy` hold the users whose entry in
      the stored map is truthy. */
  datatype Message = Message(
    id: string,
    key: string,
    sender: string,
    senderId: string,
    from: string,
    uid: string,
    text: string,
    attachment: Option<Attachment>,
    isVoiceMessage: bool,
    timestampFull: int,
    timestamp: int,
    savedBy: set<string>,
    readBy: set<string>)

  /** Jarif's notification settings (truthiness of each flag). */
  datatype Settings = Settings(
    messageNotifications: bool,
    activityNotifications: bool,
    offlineNotifications: bool)

  /** The device details of one of Jarif's logins; a missing `deviceInfo`
      object reads as one whose fields are all missing. */
  datatype DeviceInfo = DeviceInfo(
    deviceModel: string,
    deviceType: string,
    platform: string,
    screenSize: string,
    windowSize: string,
    deviceId: string,
    timezone: string,
    userAgent: string)

  /** A record under `jarifLogins`; `id` is its database key. */
  datatype JarifLoginEvent = JarifLoginEvent(id: string, timestamp: int, deviceInfo: DeviceInfo)

  /** A record under `loginAccess`. */
  datatype LoginAccess = LoginAccess(
    userId: string,
    timestamp: int,
    deviceId: string,
    deviceModel: string,
    deviceType: string,
    userAgent: string,
    screenSize: string,
    windowSize: string,
    platform: string)

  /** Messages older than this when they arrive are ignored (786-790). */
  const MESSAGE_MAX_AGE_MS := 5 * 60 * 1000

  /** The message was sent by `user`, whichever of the four sender fields
      the client filled in (453-457). */
  predicate SentBy(m: Message, user: string) {
    m.sender == user || m.senderId == user || m.from == user || m.uid == user
  }

  /** A message whose four sender fields are all missing is from nobody. */
  lemma SentByNeedsAField(m: Message, user: string)
    requires user != ""
    requires m.sender == "" && m.senderId == "" && m.from == "" && m.uid == ""
    ensures !SentBy(m, user)
  {
  }

  /** The id used for de-duplication: `id`, or `key` when `id` is missing (481). */
  function MessageId(m: Message): (id: string)
    ensures m.id != "" ==> id == m.id
    ensures id == "" <==> m.id == "" && m.key == ""
    ensures m.id == "" ==> id == m.key
  {
    if m.id == "" && m.key != "" then m.key else m.id
  }

  /** `jarifSettings && jarifSettings.messageNotifications`: a failed or
      empty settings read counts as disabled (485-502). */
  predicate MessageNotificationsOn(settings: Read<Settings>) {
    settings.Found? && settings.value.messageNotifications
  }

  /** The settings flag that enables a notification for Fidha coming online
      (`activityNotifications`) or going offline (`offlineNotifications`);
      no settings record means disabled (577, 595). */
  predicate EdgeEnabled(settings: Read<Settings>, online: bool) {
    settings.Found? &&
    (if online then settings.value.activityNotifications else settings.value.offlineNotifications)
  }

  /** `timestamp || Date.now()` (624-626, 673). */
  function StampOrNow(timestamp: int, now: int): int {
    if timestamp != 0 then timestamp else now
  }

  /** Jarif saved or read the message already (505-511). */
  predicate HandledBy(m: Message, user: string) {
    user in m.savedBy || user in m.readBy
  }

  /** `timestampFull || timestamp || Date.now()` (478, 784-785). */
  function MessageTime(m: Message, now: int): int {
    if m.timestampFull != 0 then m.timestampFull
    else if m.timestamp != 0 then m.timestamp
    else now
  }

  /** The listener skips a message whose time is more than five minutes
      before now; a message without a time is never too old. */
  predicate IsRecent(m: Message, now: int) {
    MessageTime(m, now) >= now - MESSAGE_MAX_AGE_MS
  }

  /** The label of an attachment: voice messages first, then by MIME type (521-527). */
  function FileType(isVoiceMessage: bool, a: Attachment): (kind: string)
    ensures kind in {"Voice message", "Image", "Video", "File"}
    ensures kind == "Voice message" <==> isVoiceMessage
    ensures kind == "Image" <==> !isVoiceMessage && "image/" <= a.mimeType
    ensures kind == "Video" <==> !isVoiceMessage && !("image/" <= a.mimeType) && "video/" <= a.mimeType
  {
    if isVoiceMessage then "Voice message"
    else if "image/" <= a.mimeType then "Image"
    else if "video/" <= a.mimeType then "Video"
    else "File"
  }

  /** The preview of a message: an attachment is shown as its label and
      file name (the text is then dropped), otherwise the text, or
      "Attachment" when there is none; capped at 500 characters (519-535). */
  function MessageContent(m: Message): (content: string)
    ensures |content| <= PREVIEW_LIMIT && content != ""
    ensures m.attachment.None? && m.text != "" && |m.text| <= PREVIEW_LIMIT ==> content == m.text
    ensures m.attachment.None? && |m.text| > PREVIEW_LIMIT ==> content == m.text[..497] + "..."
    ensures m.attachment.None? && m.text == "" ==> content == "Attachment"
    ensures m.attachment.Some? ==> "[" + FileType(m.isVoiceMessage, m.attachment.value) + ": " <= content
  {
    match m.attachment
    case None => Truncate(OrElse(m.text, "Attachment"))
    case Some(a) =>
      Truncate("[" + FileType(m.isVoiceMessage, a) + ": " + OrElse(a.name, "Attachment") + "]")
  }

  /** The embed description of a message notification (540). */
  function MessageDescription(content: string, time: string): string {
    "`Fi✨ sent a message`\n\n**Message:** " + content + "\n**Time:** " + time
  }

  /** A short text message reaches the notification verbatim. */
  lemma TextMessageQuoted(m: Message, time: string)
    requires m.attachment.None? && m.text != "" && |m.text| <= PREVIEW_LIMIT
    ensures Contains(MessageDescription(MessageContent(m), time), m.text)
  {
    var head := "`Fi✨ sent a message`\n\n**Message:** ";
    var d := MessageDescription(MessageContent(m), time);
    assert d == head + m.text + ("\n**Time:** " + time);
    assert m.text <= d[|head|..];
    ContainsAt(d, m.text, |head|);
  }

  /** The embed description of an offline (`online == false`) or online
      (`online == true`) notification (585, 603). */
  function ActivityDescription(online: bool, time: string): string {
    if online then "`Fi✨ is now active`\n\n**Time:** " + time
    else "`Fi✨ is no longer active`\n\n**Time:** " + time
  }

  /** `value || "Unknown"`. */
  function OrUnknown(value: string): (shown: string)
    ensures shown != ""
    ensures value != "" ==> shown == value
    ensures value == "" ==> shown == "Unknown"
  {
    OrElse(value, "Unknown")
  }

  /** The eight device lines of a Jarif login notification (628-638). */
  function DeviceDetails(d: DeviceInfo): string {
    "**Device Model:** " + OrUnknown(d.deviceModel) + "\n"
    + "**Device Type:** " + OrUnknown(d.deviceType) + "\n"
    + "**Platform:** " + OrUnknown(d.platform) + "\n"
    + "**Screen:** " + OrUnknown(d.screenSize) + "\n"
    + "**Window:** " + OrUnknown(d.windowSize) + "\n"
    + "**Device ID:** " + OrUnknown(d.deviceId) + "\n"
    + "**Timezone:** " + OrUnknown(d.timezone) + "\n"
    + "**Browser:** " + OrUnknown(d.userAgent)
  }

  /** The device with every missing field replaced by "Unknown". */
  function WithDefaults(d: DeviceInfo): DeviceInfo {
    DeviceInfo(OrUnknown(d.deviceModel), OrUnknown(d.deviceType), OrUnknown(d.platform),
               OrUnknown(d.screenSize), OrUnknown(d.windowSize), OrUnknown(d.deviceId),
               OrUnknown(d.timezone), OrUnknown(d.userAgent))
  }

  /** A missing device field is shown exactly as the literal "Unknown", and
      no field is ever shown empty. */
  lemma MissingDeviceFieldsReadUnknown(d: DeviceInfo)
    ensures DeviceDetails(d) == DeviceDetails(WithDefaults(d))
    ensures var n := WithDefaults(d);
      n.deviceModel != "" && n.deviceType != "" && n.platform != "" && n.screenSize != ""
      && n.windowSize != "" && n.deviceId != "" && n.timezone != "" && n.userAgent != ""
  {
  }

  /** The embed description of a Jarif login notification (643). */
  function JarifLoginDescription(d: DeviceInfo, loginTime: string): string {
    "`Jarif is now active`\n\n" + DeviceDetails(d) + "\n\n**Login Time:** " + loginTime
  }

  /** `loginData.userId || "Unknown user"` (663). */
  function AccessUser(a: LoginAccess): string {
    OrElse(a.userId, "Unknown user")
  }

  /** The page was opened as Jarif: the user id is Jarif's or contains it (666-671). */
  predicate IsJarifAccess(user: string, jarif: string) {
    user == jarif || Contains(user, jarif)
  }

  /** The equality test adds nothing to the containment test: Jarif's own
      opens are exactly the user ids that contain Jarif's id. */
  lemma JarifAccessIsContainment(user: string, jarif: string)
    ensures IsJarifAccess(user, jarif) <==> Contains(user, jarif)
  {
    if user == jarif {
      ContainsAt(user, jarif, 0);
    }
  }

  /** The embed description of a login-page access notification (676-692). */
  function AccessDescription(a: LoginAccess, time: string): string {
    "`\U{1F513} Login page was opened`\n\n**User:** " + AccessUser(a) + "\n"
    + "**Device ID:** " + OrElse(a.deviceId, "Unknown device")
    + "\n**Model:** " + OrUnknown(a.deviceModel) + " (" + OrUnknown(a.deviceType) + ")"
    + "\n**Platform:** " + OrUnknown(a.platform)
    + "\n**Screen:** " + OrUnknown(a.screenSize)
    + "\n**Window:** " + OrUnknown(a.windowSize)
    + "\n**User Agent:** " + OrUnknown(a.userAgent)
    + "\n**Time:** " + time
  }
}
