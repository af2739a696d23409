# Discord notification server: a verified model of its decision engine

`firebase-notification-server.js` watches a two-user chat (Fidha and Jarif) in a
realtime database. It posts Discord webhook notifications to Jarif when Fidha
writes a message or comes online or goes offline while Jarif is away. It also
posts when someone other than Jarif opens the login page, and it reports
Jarif's own logins to a dedicated webhook.

This project models the part of the server that decides what to send and where:

- **Webhook rotation** (`config.dfy`, `rotation.dfy`). There are three general
  webhooks (primary, secondary, tertiary) plus the jarif webhook. Rotation
  follows a fixed cycle and has a 60 s anti-flap guard. A background check
  returns to primary after 3 h and forces a rotation after 30 min of rate
  limiting. Each HTTP outcome changes the rotation state in its own way.
  - The pure functions `AfterRotate`, `AfterResponse` and
    `AfterBackgroundCheck` say what each step does.
  - The class `Router` holds the state as fields and is proved against them.
- **The send gate** (`format.dfy`, `dispatch.dfy`). Each notification passes
  through:
  - a per-category cooldown;
  - a once-per-second event key;
  - a choice of colour and footer;
  - the handling of the webhook's answer, including the retry on the rotated
    webhook after a 429.

  Jarif's login notices never touch the rotation state.
- **Presence** (`presence.dfy`). Jarif counts as offline under a conservative
  60 s rule. Fidha counts as active only within a 10 s heartbeat window.
  - The presence listener debounces readings against the last reading it
    acted on.
  - The activity check announces only real online/offline edges.
- **Filters and texts** (`events.dfy`). The message filter matches the sender
  on four fields and then runs a chain of skip conditions. It also builds the
  attachment label and the 500-character preview. The Jarif login details
  default every field to "Unknown". The login-page check leaves Jarif out.
- **Bounded processed-id sets** (`bounded.dfy`). Each set is replaced by its
  newest half once it grows past its cap.

Time, every database read and the webhook's answer are parameters of the
operation that uses them:
- `Read<T>` is `Found | Missing | Failed`.
- `Response` is `Status(code) | Thrown(message)`.
- The locale date formatting is an opaque `Formatter`.

## Model

| member | source | states |
|---|---|---|
| Config.InitialWebhook | firebase-notification-server.js:79-88 | the active webhook at start is the first configured one in the order primary, secondary, tertiary, jarif: it is configured, and every slot before it is not |
| Config.NextWebhook | firebase-notification-server.js:170-191 | a rotation always lands on a configured slot, and never on the jarif slot while a general webhook is configured |
| Config.RotationOrder | firebase-notification-server.js:170-191 | rotation takes the next slot of the cycle primary→secondary→tertiary→primary when it is configured; otherwise it falls back to primary, and without primary to the first configured of secondary, tertiary and jarif |
| Config.RotationsStayConfigured | firebase-notification-server.js:161-200 | any number of rotations from a configured slot keeps the active slot configured, and off the jarif slot while a general webhook exists |
| Config.FullCycle | firebase-notification-server.js:170-178 | with all three general webhooks configured, three rotations visit all three and return to the start |
| Config.StuckOnPrimaryWithoutSecondary | firebase-notification-server.js:170-181 | without a secondary webhook, rotation never leaves primary, even when tertiary is configured |
| Rotation.SignalsRateLimit | firebase-notification-server.js:380-434 | the outcomes handled as a rate limit: a 429, or a thrown error whose message mentions "Cloudflare", "rate limit" or "banned" |
| Rotation.SignalsBadWebhook | firebase-notification-server.js:404-414 | the outcomes that rotate without marking a rate limit: 403, 404 and any 5xx |
| Rotation.AfterRateLimit | firebase-notification-server.js:383-388 | a rate limit as a step on the rotation state: marked at now with one more failure, then `rotateWebhook()` |
| Rotation.AfterSuccess | firebase-notification-server.js:421-424 | a 2xx as a step on the rotation state: the rate-limit flag and the failure count cleared, the webhook and the rate-limit start kept |
| Rotation.CanRotate | firebase-notification-server.js:164 | the anti-flap guard: a rotation may happen only once 60 s have passed since the last switch |
| Rotation.AfterRotate | firebase-notification-server.js:161-200 | `rotateWebhook()` as a step on the rotation state: nothing within 60 s of the last switch; otherwise the next slot of the cycle, the switch time set to now, the rate limit, its start time and the failure count cleared (properties in `RotateGuard`) |
| Rotation.AfterResponse | firebase-notification-server.js:380-445 | a general send's answer as a step on the rotation state, tested in the source's order: 429 or an error mentioning Cloudflare, a rate limit or a ban marks the rate limit and rotates; 403, 404 and 5xx rotate; a 2xx clears the rate limit and the failures; anything else changes nothing (properties in `RateLimitOutcome`, `SuccessStays`, `NoFlapWithinGuard`) |
| Rotation.DueBackToPrimary | firebase-notification-server.js:205-209 | the background check returns to primary when a switch has happened, 3 h have passed since it, the active webhook is not primary and primary is configured |
| Rotation.RateLimitedTooLong | firebase-notification-server.js:219-223 | the background check forces a rotation when the webhook is rate limited, the rate limit has a start time and it began more than 30 min ago |
| Rotation.AfterBackgroundCheck | firebase-notification-server.js:202-226 | the minute check as a step on the rotation state: back to a configured primary after 3 h elsewhere, else a rotation after 30 min of rate limiting (properties in `BackgroundCheckOutcome`) |
| Rotation.RotateGuard | firebase-notification-server.js:161-200 | within 60 s of the last switch a rotation changes nothing; after that it moves to the next slot, sets the switch time to now and clears the rate limit, its start time and the failure count |
| Rotation.TransitionsKeepConsistent | firebase-notification-server.js:161-226 | rotation, every response outcome and the background check all keep the active slot configured |
| Rotation.RateLimitOutcome | firebase-notification-server.js:380-388 | a rate-limit signal rotates when the guard allows; otherwise it stays put with the rate limit recorded at now and one more failure counted |
| Rotation.NoFlapWithinGuard | firebase-notification-server.js:164-166 | within 60 s of a switch no outcome at all changes the active webhook or the switch time |
| Rotation.SuccessStays | firebase-notification-server.js:415-424 | a 2xx never rotates, and it clears the rate-limit flag and the failure count |
| Rotation.BackgroundCheckOutcome | firebase-notification-server.js:202-226 | after 3 h away from a configured primary the check returns to primary and clears the rate limit; otherwise, rate limited for more than 30 min, it rotates; otherwise it changes nothing |
| Rotation.Router.constructor | firebase-notification-server.js:79-92 | start-up state: the initial webhook, switch time 0, not rate limited, no failures |
| Rotation.Router.RotateWebhook | firebase-notification-server.js:161-200 | `rotateWebhook()` returns whether the guard passed and leaves exactly the state `AfterRotate` describes; the URL stays that of the named slot |
| Rotation.Router.RecordRateLimit | firebase-notification-server.js:383-388 | marks the webhook rate limited at now, counts a failure, then rotates |
| Rotation.Router.RecordSuccess | firebase-notification-server.js:421-424 | a 2xx clears the rate-limit flag and the failure count and keeps the webhook |
| Rotation.Router.RecordResponse | firebase-notification-server.js:380-445 | the rotation state after a general send is `AfterResponse` of the old one: 429 or a Cloudflare/rate-limit/ban error, then 403/404/5xx, then 2xx |
| Rotation.Router.CheckWebhookRotation | firebase-notification-server.js:202-226 | the periodic check leaves the state `AfterBackgroundCheck` describes |
| Bounded.Inserted | firebase-notification-server.js:324 | `Set.add`: the result holds exactly the old elements and the new one, stays free of duplicates, leaves an element already present in its place, and otherwise appends the new one as the newest |
| Bounded.AddBounded | firebase-notification-server.js:322-328 | adding to a set within its cap leaves it without duplicates and within its cap, and the added element is in it |
| Bounded.AddBoundedKeepsNewest | firebase-notification-server.js:544-547 | the trimmed set is the newest part of the set with the element added: all of it while within the cap, exactly the kept half once past it, and a new element is the newest |
| Bounded.AddBoundedAddsOnly | firebase-notification-server.js:651-655 | nothing enters the set but the added element |
| Bounded.RecentSurvives | firebase-notification-server.js:739-743 | an element among the d+1 newest survives any keep-d-1 further additions, so the newest element is never the one evicted |
| Presence.JarifOffline | firebase-notification-server.js:238-248 | `checkJarifPresenceDirectly`: a read error or a missing record counts as offline, and so does a record whose flag is off or whose heartbeat is more than 60 s old (both directions in `JarifOnlineOnlyWhenFresh`) |
| Presence.FidhaActive | firebase-notification-server.js:811-816 | Fidha's reading: active exactly when the record exists, its flag is set and its heartbeat is less than 10 s old |
| Presence.JarifOnlineOnlyWhenFresh | firebase-notification-server.js:238-248 | Jarif is online exactly when Jarif's record exists, its flag is set and its heartbeat is at most 60 s old; a missing record or a read error means offline |
| Presence.JarifOfflineMonotone | firebase-notification-server.js:244-248 | for a fixed record, offline stays offline as time passes |
| Presence.JarifGoesOfflineAtLimit | firebase-notification-server.js:244-248 | with the flag set, offline exactly when the heartbeat is more than 60 s old |
| Presence.FidhaInactiveMonotone | firebase-notification-server.js:810-816 | for a fixed record, once Fidha reads inactive, Fidha stays inactive |
| Presence.ActiveWindowIsStricter | firebase-notification-server.js:811-816 | a record that reads active under the 10 s rule also reads online under the 60 s rule |
| Format.CooldownMs | firebase-notification-server.js:126-128 | the cooldowns: 10 s for messages, 5 s for presence notices and for logins |
| Format.GroupOf | firebase-notification-server.js:289-307 | the cooldown clock of each notice: the presence clock for both presence edges, the login clock for login-page openings and for Jarif's own logins, the message clock for messages |
| Format.Colour | firebase-notification-server.js:339-343 | each notice's embed colour, a 24-bit RGB value: green online, red offline, yellow login page, blue Jarif login, purple message |
| Format.Footer | firebase-notification-server.js:332-337 | the footer is the notice's own prefix ("Came online at ", "Went offline at ", "Accessed at ", "Logged in at ", "Sent at ") followed by the formatted time |
| Format.ColoursAndFootersDistinguishNotices | firebase-notification-server.js:332-343 | the five kinds of notice have five distinct colours and five distinct footers |
| Format.DecimalString | firebase-notification-server.js:318 | the second count in an event key is a non-empty string of digits |
| Format.DecimalStringInjective | firebase-notification-server.js:318 | different second counts render differently |
| Format.KindTag | firebase-notification-server.js:309-318 | the kind word of an event key: "activity", "offline", "login", "jarif_login" or "message" |
| Format.EventKey | firebase-notification-server.js:309-318 | the event key is the notice's kind word, an underscore and the decimal count of whole seconds since the epoch (one key per kind per second: `EventKeyInjective`) |
| Format.EventKeyInjective | firebase-notification-server.js:309-318 | two event keys are equal exactly when they are for the same kind of notice in the same wall-clock second |
| Format.Truncate | firebase-notification-server.js:533-535 | a preview is at most 500 characters; a short one is unchanged; a long one is its first 497 characters followed by "..." |
| Events.SentBy | firebase-notification-server.js:453-457 | a message is from a user when any of its four sender fields (`sender`, `senderId`, `from`, `uid`) is that user's id |
| Events.SentByNeedsAField | firebase-notification-server.js:453-462 | a message whose four sender fields are all missing is from no user |
| Events.MessageId | firebase-notification-server.js:481 | the de-duplication id is the message's `id`, or its database key when `id` is missing; it is empty only when both are |
| Events.MessageNotificationsOn | firebase-notification-server.js:499 | message notifications are on only when the settings were read, exist and have the flag set; a failed or missing read counts as off |
| Events.MessageTime | firebase-notification-server.js:478 | the message time is `timestampFull`, else `timestamp`, else the time of the check |
| Events.IsRecent | firebase-notification-server.js:786-790 | the listener keeps a message whose time is at most five minutes before now |
| Events.HandledBy | firebase-notification-server.js:505-511 | Jarif has handled a message when Jarif's id is among the message's `savedBy` or `readBy` entries |
| Events.FileType | firebase-notification-server.js:521-527 | an attachment is a voice message exactly when flagged so; otherwise an image or a video by MIME prefix, else a file |
| Events.MessageContent | firebase-notification-server.js:519-535 | the preview is non-empty and at most 500 characters; a short text message is its text, a long one its first 497 characters and "...", an empty one "Attachment"; an attachment's preview starts with "[", its label and ": " |
| Events.MessageDescription | firebase-notification-server.js:540 | the message notification's description: the "sent a message" line, the preview after "**Message:**" and the time after "**Time:**" |
| Events.TextMessageQuoted | firebase-notification-server.js:537-541 | a short text message appears verbatim in the notification |
| Events.ActivityDescription | firebase-notification-server.js:585-603 | "is now active" for the online edge, "is no longer active" for the offline edge, each followed by the time |
| Events.EdgeEnabled | firebase-notification-server.js:577-595 | the flag that enables an edge: `activityNotifications` for coming online, `offlineNotifications` for going offline, off when the settings are missing |
| Events.StampOrNow | firebase-notification-server.js:624-626 | a login record's time is its `timestamp`, or the time of the check when missing |
| Events.OrUnknown | firebase-notification-server.js:628-638 | a device field is shown as itself, or as "Unknown" when missing, never empty |
| Events.MissingDeviceFieldsReadUnknown | firebase-notification-server.js:623-638 | the device lines equal those of the device with every missing field replaced by "Unknown" |
| Events.DeviceDetails | firebase-notification-server.js:628-638 | the eight labelled device lines of a Jarif login notice, in the source's order, each field or "Unknown" |
| Events.JarifLoginDescription | firebase-notification-server.js:640-645 | the Jarif login notice's description: "Jarif is now active", the device lines, then the login time |
| Events.AccessUser | firebase-notification-server.js:663 | the user of a login-page opening is its `userId`, or "Unknown user" when missing |
| Events.IsJarifAccess | firebase-notification-server.js:663-669 | an opening is Jarif's own when the user equals Jarif's id or contains it |
| Events.JarifAccessIsContainment | firebase-notification-server.js:663-671 | the login-page check treats as Jarif's own exactly the user ids that contain Jarif's id |
| Events.AccessDescription | firebase-notification-server.js:676-692 | the login-page notification's description: the user or "Unknown user", the device id or "Unknown device", model and type, platform, screen, window and user agent each or "Unknown", then the time |
| Dispatch.Notifier.constructor | firebase-notification-server.js:119-125 | start-up: no notices sent, all sets empty, Fidha taken as offline; the presence listener starts with no reading acted on and no pending timer (804-805) |
| Dispatch.SendView.LastSent | firebase-notification-server.js:289-307 | the clock that gates a cooldown group: the presence clock, the message clock or the login clock |
| Dispatch.SendView.CoolingDown | firebase-notification-server.js:289-307 | a notice is cut by its cooldown when less than its group's cooldown has passed since that group's last successful notification |
| Dispatch.SendEffect | firebase-notification-server.js:270-446 | what one send does to the event keys, the three cooldown clocks, the rotation state and the active webhook: dropped exactly when the notice's cooldown has not run out, then exactly when this second's event key is taken, changing nothing either way; otherwise posted with the effect `PostEffect` gives |
| Dispatch.PostEffect | firebase-notification-server.js:320-445 | a post records the event key in the bounded set; only a 2xx moves a clock, and only the notice's own, to now; Jarif's logins keep the rotation state and the active webhook, other notices leave the rotation state as `AfterResponse` says; a retry is due exactly on a non-Jarif 429 that moved the active webhook off the one posted to |
| Dispatch.Notifier.Send | firebase-notification-server.js:270-446 | the new send state is as `SendEffect` says; the payload (mention, description, the notice's colour and footer) is posted to the given webhook or else the active one; a send that posts nothing leaves the router untouched |
| Dispatch.Notifier.Post | firebase-notification-server.js:320-445 | past the gate: always posts, to the target given, with the notice's payload, and leaves the state `PostEffect` describes |
| Dispatch.Notifier.Deliver | firebase-notification-server.js:380-445 | the answer's effect: only a 2xx moves only the notice's own clock, the rotation state follows `AfterResponse` for non-Jarif notices and is untouched for Jarif's logins, and a retry is due exactly on a non-Jarif 429 that moved the active webhook |
| Dispatch.Notifier.SendAndRetry | firebase-notification-server.js:390-403 | the first attempt goes to the active webhook and the retry, when there is one, to the webhook the first answer rotated to, each with the notice's payload and each a send with the effect `SendEffect` gives (through an intermediate state); a retry happens exactly when the first attempt posted and asked for one, is never cut by the cooldown, and fired within the 60 s guard never asks for another; a retry that got a 2xx leaves the rotated webhook active; the final rotation state and clocks are stated outright |
| Dispatch.Notifier.SameSecondTwice | firebase-notification-server.js:309-324 | once a notice has been posted, a second one of the same kind in the same second is not posted |
| Dispatch.Notifier.MessageOutcome | firebase-notification-server.js:451-548 | what the message check did: each skip verdict exactly when its condition is the first one met (not from Fidha, Jarif online, id processed, notifications off, saved or read by Jarif, cooldown running), changing nothing; otherwise a send never cut by the cooldown, with `SendEffect`, and the id recorded whatever became of it |
| Dispatch.Notifier.MessagePosted | firebase-notification-server.js:537-541 | the message notification goes to the active webhook with the mention, the description quoting the preview and the message time, and the message colour and footer (332-343) |
| Dispatch.Notifier.CheckMessage | firebase-notification-server.js:451-548 | each verdict holds exactly when its skip condition is the first one met, in the source's order: not from Fidha, Jarif online, id already processed, message notifications off, saved or read by Jarif, message cooldown running; each skip changes nothing; otherwise the send, never cut by the cooldown, has the effect `SendEffect` gives, its payload quotes the preview and the message time, and the id is recorded whatever became of the send |
| Dispatch.Notifier.NotifyMessage | firebase-notification-server.js:519-545 | sends the message notification with the effect `SendEffect` gives, to the active webhook with the preview and the message time, then records the id (an empty id is not recorded) |
| Dispatch.Notifier.RecordMessageId | firebase-notification-server.js:543-547 | a non-empty id is added to the bounded set of processed message ids; an empty one is not |
| Dispatch.Notifier.TwoMessages | firebase-notification-server.js:417-419 | after a message notification got a 2xx, a second message checked less than 10 s later is not notified |
| Dispatch.Notifier.ActivityOutcome | firebase-notification-server.js:553-613 | what the activity check did: each verdict exactly when its condition is the first one met (Jarif online, settings unreadable, no edge, edge flag off, cooldown running); the remembered state follows the reading except on the three early returns; a sent edge carries its notice, `SendEffect` and its description |
| Dispatch.Notifier.CheckActivity | firebase-notification-server.js:553-613 | each verdict holds exactly when its condition is the first one met: Jarif online, settings unreadable, no change of the remembered state, the edge's flag off, presence cooldown running; otherwise the notice of that edge is sent, never cut by the cooldown, with the effect `SendEffect` gives and the edge's description; the remembered state becomes the reading except on the Jarif-online, unreadable-settings and cooldown returns |
| Dispatch.Notifier.OnFidhaPresence | firebase-notification-server.js:808-819 | each presence event replaces the pending debounced reading with the 10 s-window reading of the record |
| Dispatch.Notifier.FireFidhaDebounce | firebase-notification-server.js:819-826 | no pending reading does nothing; a reading equal to the last one acted on is dropped, changing nothing else; any other is remembered and checked, with everything `CheckActivity` states about that check |
| Dispatch.Notifier.QuietOfflineReading | firebase-notification-server.js:586-612 | a checked inactive reading with Jarif's record missing and every flag off sends nothing yet leaves Fidha remembered as inactive |
| Dispatch.Notifier.CheckJarifLogin | firebase-notification-server.js:618-656 | skipped exactly when there is no jarif webhook, then exactly when the id is missing, then exactly when it was processed, each changing nothing; otherwise the send to the jarif webhook, under the login cooldown, has the effect `SendEffect` gives with "Unknown"-defaulted device lines, never touches the rotation state or asks for a retry, and the id is recorded whatever became of the send |
| Dispatch.Notifier.AccessOutcome | firebase-notification-server.js:661-699 | what the login-page check did: Jarif's own openings exactly when the user contains Jarif's id, changing nothing; any other sent to the active webhook with `SendEffect` and the access description |
| Dispatch.Notifier.CheckLoginPageAccess | firebase-notification-server.js:661-699 | Jarif's own openings (user id containing Jarif's) change nothing; any other is sent to the active webhook with the effect `SendEffect` gives and the access description |
| Dispatch.Notifier.AccessStampsLoginClock | firebase-notification-server.js:416-419 | a login-page notice that got a 2xx sets the login clock to now and leaves the presence clock alone |
| Dispatch.Notifier.OnLoginAccess | firebase-notification-server.js:728-751 | a key seen before is skipped, changing nothing; any other is checked, with everything `CheckLoginPageAccess` states, and recorded, Jarif's own openings included |
| Dispatch.Notifier.OnMessageAdded | firebase-notification-server.js:778-801 | a message more than five minutes old is skipped, changing nothing; any other is checked with its database key as id, with everything `CheckMessage` states about that check |

## Left out

- HTTP server routes, environment parsing, the service-account key and `process.exit` are start-up and serving code outside the decision engine. The webhook configuration and the two user ids are constructor parameters. The constructor requires at least one webhook, because the server exits otherwise.
- Database reads, listeners, record removal, the five-minute cleanup of old login records and the blocked-devices logger are data-store I/O. Records, presence and settings are passed in as values.
- `fetch`, its timeout and the response body text are network I/O. The webhook's answer is a `Response` parameter.
  - A timeout is a `Thrown` error whose message mentions none of the rate-limit words.
  - `response.text()` throwing inside the non-2xx branch is not modelled; the text is only logged.
- Timers (the 2 s retry, the 2 s debounce, the minute-by-minute rotation check) are not modelled as timers. Each firing is an explicit method call with its own time.
  - `SendAndRetry` assumes no other event runs between the first attempt and its retry.
- Handlers are modelled as atomic. In the server, other events can run between the awaits inside a handler; for example, two copies of the same message can both pass the processed-id check.
- Dispatch.Notifier.Send: the source reads the clock again inside `rotateWebhook`, after the post, while the model uses one `now` for the whole send. Each other handler likewise uses one clock reading.
- `formatBahrainTime` and `formatBahrainDateTime` (locale formatting) are an opaque `Formatter`. The ISO timestamp and the JSON serialisation of the body are left out.
- Logging, signal handlers and the uncaught-exception handlers are not modelled.
- Strings are sequences of characters, so the 500-character preview and its 497-character cut count characters. JavaScript counts UTF-16 code units, which differ for characters outside the Basic Multilingual Plane.
- A missing field is the empty string or 0. That reads the same under every `||` and truthiness test the server applies. Non-string values (a numeric user id, for example) are not modelled, so the `typeof userId === "string"` test always holds.
- The "no webhook URL available" skip at the top of `sendDiscordNotification` cannot happen. The active webhook is always set (`Router.Valid`), and the callers pass only a configured jarif webhook or the active one.
- Null records (`if (!loginData) return`) are not modelled; a listener always receives a record. The Jarif-login listener only copies the database key into the record's id, so `CheckJarifLogin` takes a record whose id is that key.
- The notification flags `isActivity`, `isOffline`, `isLogin` and `isJarifLogin` become one `Notice` kind. Every caller sets at most one flag, so other combinations are not modelled.
- Jarif's own logins pass through the login cooldown (302-307), as the code does.
