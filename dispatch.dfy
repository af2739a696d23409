/**
 * The dispatch state and its handlers: `sendDiscordNotification`
 * (firebase-notification-server.js:270-446), `checkMessageForNotification`
 * (451-548), `checkActivityForNotification` (553-613),
 * `checkJarifLoginForNotification` (618-656), `checkLoginPageAccess`
 * (661-699), and the decision parts of the database listeners that feed
 * them (704-830).
 *
 * The clock, the HTTP outcome of a post and every database read are
 * parameters of the handler that uses them.
 */
module Dispatch {
  import opened Basics
  import opened Config
  import opened Rotation
  import opened Bounded
  import opened Presence
  import opened Format
  import opened Events

  /** The JSON body posted to the webhook, less its ISO timestamp. */
  datatype Payload = Payload(content: string, description: string, colour: int, footer: string)

  /** What one call of `sendDiscordNotification` did. */
  datatype SendResult =
    | CooledDown       // the notice's cooldown had not run out
    | DuplicateEvent   // a notice of this kind already got past the gate this second
    | Posted(url: string, payload: Payload, retry: bool)
      // posted to `url`; `retry`: a second attempt on the rotated webhook is scheduled

  datatype MessageVerdict =
    | NotFromFidha
    | JarifIsOnline
    | AlreadyProcessed
    | NotificationsOff
    | HandledByJarif
    | MessageCoolingDown
    | MessageSent(send: SendResult)

  datatype ActivityVerdict =
    | JarifOnline
    | SettingsUnreadable
    | NoTransition
    | EdgeDisabled
    | PresenceCoolingDown
    | ActivitySent(notice: Notice, send: SendResult)

  datatype DebounceVerdict = NoTimer | SameAsLast | PresenceChecked(activity: ActivityVerdict)

  datatype JarifLoginVerdict =
    | NoJarifWebhook
    | MissingId
    | LoginAlreadyProcessed
    | LoginSent(send: SendResult)

  datatype AccessVerdict = JarifOwnAccess | AccessSent(send: SendResult)

  datatype AccessListenerVerdict = AccessAlreadyHandled | AccessHandled(access: AccessVerdict)

  datatype MessageListenerVerdict = TooOld | MessageChecked(check: MessageVerdict)

  /** A snapshot of everything a send reads or changes: the event keys, the
      three cooldown clocks (79-92), the rotation state and the active
      webhook. */
  datatype SendView = SendView(events: seq<string>, presenceClock: int, messageClock: int, loginClock: int,
                               rotation: RotationState, active: Option<string>)
  {
    /** The time of the last successful notification of a cooldown group. */
    function LastSent(g: CooldownGroup): int
    {
      match g
      case PresenceGroup => presenceClock
      case MessageGroup => messageClock
      case LoginGroup => loginClock
    }

    /** The notice's cooldown has not yet run out at `now`. */
    predicate CoolingDown(n: Notice, now: int)
    {
      now - LastSent(GroupOf(n)) < CooldownMs(GroupOf(n))
    }
  }

  /** The effect of a post of `notice` to `url` at `now` that got `resp`
      (340-445), taking the state from `before` to `after`: the event key is
      recorded, only a 2xx advances a clock, and only the notice's own;
      Jarif's logins leave the rotation state untouched, any other notice
      leaves it as `AfterResponse` says; a retry is due exactly after a
      non-Jarif 429 that moved the active webhook away from `url`. */
  predicate PostEffect(w: Webhooks, before: SendView, after: SendView, notice: Notice, now: nat,
                       resp: Response, url: string, retry: bool)
  {
    after.events == AddBounded(before.events, EventKey(notice, now), SMALL_SET_CAP, SMALL_SET_KEEP)
    && (forall g :: (after.LastSent(g) ==
          if IsSuccess(resp) && g == GroupOf(notice) then now else before.LastSent(g)))
    && after.rotation ==
         (if notice == JarifLogin then before.rotation else AfterResponse(w, before.rotation, resp, now))
    && (notice == JarifLogin ==> after.active == before.active)
    && (retry <==> notice != JarifLogin && resp == Status(429) && after.active != Some(url))
  }

  /** The effect of one call of `sendDiscordNotification` for `notice` at
      `now` that returned `r` (270-446): dropped exactly when the group's
      cooldown has not run out, then exactly when this second's event key
      is taken, changing nothing either way; otherwise posted, with the
      effect `PostEffect` describes. */
  predicate SendEffect(w: Webhooks, before: SendView, after: SendView, notice: Notice, now: nat,
                       resp: Response, r: SendResult)
  {
    (r == CooledDown <==> before.CoolingDown(notice, now))
    && (r == DuplicateEvent <==> !before.CoolingDown(notice, now) && EventKey(notice, now) in before.events)
    && (!r.Posted? ==> after == before)
    && (r.Posted? ==> PostEffect(w, before, after, notice, now, resp, r.url, r.retry))
  }

  /** The delay before the retry after a 429 (391-403). */
  const RETRY_DELAY_MS := 2000

  class Notifier {
    const router: Router
    /** `USER_FIDHA` and `USER_JARIF`, never empty (73-74). */
    const fidha: string
    const jarif: string

    var previousFiOnlineState: bool
    var processedMessageIds: seq<string>
    var processedPresenceEvents: seq<string>
    var processedJarifLoginIds: seq<string>
    var lastPresenceNotificationTime: int
    var lastMessageNotificationTime: int
    var lastLoginNotificationTime: int
    /** The login-access listener's own `processedLoginIds` (709). */
    var processedLoginIds: seq<string>
    /** The presence listener's `lastFiPresenceState` (null at first, 804). */
    var lastFiPresenceState: Option<bool>
    /** The value the pending 2 s debounce timer will act on, if one is set (805). */
    var pendingFiPresence: Option<bool>

    ghost predicate Valid()
      reads this`processedMessageIds, this`processedPresenceEvents, this`processedJarifLoginIds,
            this`processedLoginIds, router
    {
      router.Valid() && fidha != "" && jarif != ""
      && WithinCap(processedMessageIds, MESSAGE_IDS_CAP) && "" !in processedMessageIds
      && WithinCap(processedPresenceEvents, SMALL_SET_CAP)
      && WithinCap(processedJarifLoginIds, SMALL_SET_CAP)
      && WithinCap(processedLoginIds, SMALL_SET_CAP)
    }

    /** What a send reads and changes, as a value. */
    ghost function View(): SendView
      reads this`processedPresenceEvents, this`lastPresenceNotificationTime,
            this`lastMessageNotificationTime, this`lastLoginNotificationTime, router
    {
      SendView(processedPresenceEvents, lastPresenceNotificationTime, lastMessageNotificationTime,
               lastLoginNotificationTime, router.State(), router.activeWebhook)
    }

    constructor (webhooks: Webhooks, fidha: string, jarif: string)
      requires webhooks.AnyConfigured()
      requires fidha != "" && jarif != ""
      ensures Valid() && fresh(router)
      ensures router.webhooks == webhooks && this.fidha == fidha && this.jarif == jarif
      ensures router.State() == RotationState(InitialWebhook(webhooks), 0, false, 0, 0)
      ensures !previousFiOnlineState && lastFiPresenceState.None? && pendingFiPresence.None?
      ensures processedMessageIds == processedPresenceEvents == processedJarifLoginIds == processedLoginIds == []
      ensures lastPresenceNotificationTime == lastMessageNotificationTime == lastLoginNotificationTime == 0
    {
      router := new Router(webhooks);
      this.fidha := fidha;
      this.jarif := jarif;
      previousFiOnlineState := false;
      processedMessageIds := [];
      processedPresenceEvents := [];
      processedJarifLoginIds := [];
      lastPresenceNotificationTime := 0;
      lastMessageNotificationTime := 0;
      lastLoginNotificationTime := 0;
      processedLoginIds := [];
      lastFiPresenceState := None;
      pendingFiPresence := None;
    }

    /** `sendDiscordNotification` for a notice of kind `notice`, posted to
        `webhookUrl` or else to the active webhook, whose HTTP outcome is
        `resp` (270-446). */
    method Send(notice: Notice, webhookUrl: Option<string>, description: string, now: nat,
                fmt: Formatter, resp: Response) returns (r: SendResult)
      requires Valid()
      modifies this`processedPresenceEvents, this`lastPresenceNotificationTime,
               this`lastMessageNotificationTime, this`lastLoginNotificationTime, router
      ensures Valid()
      ensures SendEffect(router.webhooks, old(View()), View(), notice, now, resp, r)
      ensures !r.Posted? || notice == JarifLogin ==> unchanged(router)
      ensures r.Posted? ==> EventKey(notice, now) in processedPresenceEvents
      // what is posted, and where
      ensures r.Posted? ==>
        r.url == (if webhookUrl.Some? then webhookUrl.value else old(router.activeWebhook).value)
        && r.payload == Payload(MENTION, description, Colour(notice), Footer(notice, fmt.time(now)))
    {
      var target := if webhookUrl.Some? then webhookUrl.value else router.activeWebhook.value;
      var group := GroupOf(notice);
      if group == PresenceGroup && now - lastPresenceNotificationTime < PRESENCE_COOLDOWN {
        return CooledDown;
      }
      if group == MessageGroup && now - lastMessageNotificationTime < MESSAGE_COOLDOWN {
        return CooledDown;
      }
      if group == LoginGroup && now - lastLoginNotificationTime < LOGIN_COOLDOWN {
        return CooledDown;
      }

      if EventKey(notice, now) in processedPresenceEvents {
        return DuplicateEvent;
      }
      r := Post(notice, target, description, now, fmt, resp);
    }

    /** The part of `sendDiscordNotification` past the gate (340-445): the
        event key is recorded, the payload posted to `target`, and the
        webhook's answer handled. */
    method Post(notice: Notice, target: string, description: string, now: nat, fmt: Formatter,
                resp: Response) returns (r: SendResult)
      requires Valid()
      modifies this`processedPresenceEvents, this`lastPresenceNotificationTime,
               this`lastMessageNotificationTime, this`lastLoginNotificationTime, router
      ensures Valid()
      ensures r.Posted? && r.url == target
      ensures r.payload == Payload(MENTION, description, Colour(notice), Footer(notice, fmt.time(now)))
      ensures PostEffect(router.webhooks, old(View()), View(), notice, now, resp, target, r.retry)
      ensures EventKey(notice, now) in processedPresenceEvents
      ensures notice == JarifLogin ==> unchanged(router)
    {
      processedPresenceEvents :=
        AddBounded(processedPresenceEvents, EventKey(notice, now), SMALL_SET_CAP, SMALL_SET_KEEP);
      var payload := Payload(MENTION, description, Colour(notice), Footer(notice, fmt.time(now)));
      var retry := Deliver(notice, target, now, resp);
      return Posted(target, payload, retry);
    }

    /** The handling of the webhook's answer (380-445): the cooldown clock of
        the notice's group on a 2xx, the rotation state for any notice but
        Jarif's logins, and whether a retry on the rotated webhook is due. */
    method Deliver(notice: Notice, target: string, now: int, resp: Response) returns (retry: bool)
      requires router.Valid()
      modifies this`lastPresenceNotificationTime, this`lastMessageNotificationTime,
               this`lastLoginNotificationTime, router
      ensures router.Valid()
      ensures forall g :: (View().LastSent(g) ==
          if IsSuccess(resp) && g == GroupOf(notice) then now else old(View()).LastSent(g))
      ensures notice == JarifLogin ==> unchanged(router)
      ensures notice != JarifLogin ==>
        router.State() == AfterResponse(router.webhooks, old(router.State()), resp, now)
      ensures retry <==> notice != JarifLogin && resp == Status(429) && router.activeWebhook != Some(target)
    {
      var privileged := notice == JarifLogin;
      if !privileged {
        router.RecordResponse(resp, now);
      }
      if resp.Status? && IsOk(resp.code) {
        var group := GroupOf(notice);
        if group == PresenceGroup {
          lastPresenceNotificationTime := now;
        } else if group == LoginGroup {
          lastLoginNotificationTime := now;
        } else {
          lastMessageNotificationTime := now;
        }
      }
      retry := !privileged && resp == Status(429) && router.activeWebhook != Some(target);
    }

    /** A send to the active webhook followed, when the source schedules it
        after a 429, by its retry at `retryAt` on the webhook active by then
        (390-403). The retry goes to the webhook the first answer rotated
        to, it is never cut by the cooldown, and fired within the 60 s
        anti-flap window it never asks for a further retry. */
    method SendAndRetry(notice: Notice, description: string, now: nat, retryAt: nat,
                        fmt: Formatter, first: Response, second: Response)
      returns (r1: SendResult, r2: Option<SendResult>, ghost between: SendView)
      requires Valid()
      requires now + RETRY_DELAY_MS <= retryAt
      modifies this`processedPresenceEvents, this`lastPresenceNotificationTime,
               this`lastMessageNotificationTime, this`lastLoginNotificationTime, router
      ensures Valid()
      // each attempt is one send: the first from the old state to `between`,
      // the retry, when there is one, from `between` to the final state
      ensures SendEffect(router.webhooks, old(View()), between, notice, now, first, r1)
      ensures r2.Some? ==> SendEffect(router.webhooks, between, View(), notice, retryAt, second, r2.value)
      ensures r2.None? ==> View() == between
      ensures r1.Posted? ==>
        Some(r1.url) == old(router.activeWebhook)
        && r1.payload == Payload(MENTION, description, Colour(notice), Footer(notice, fmt.time(now)))
      ensures r2.Some? && r2.value.Posted? ==>
        r2.value.payload == Payload(MENTION, description, Colour(notice), Footer(notice, fmt.time(retryAt)))
      ensures r2.Some? <==> r1.Posted? && r1.retry
      ensures r2.Some? ==> r2.value != CooledDown
      // a retry that got a 2xx leaves the rotated webhook active
      ensures r2.Some? && r2.value.Posted? && IsSuccess(second) ==>
        router.activeWebhook == Some(r2.value.url) && router.activeWebhook != old(router.activeWebhook)
      ensures r2.Some? && r2.value.Posted? ==>
        r2.value.url != r1.url
        && Some(r2.value.url) ==
             router.webhooks.Url(AfterResponse(router.webhooks, old(router.State()), first, now).name)
      ensures r2.Some? && r2.value.Posted? && retryAt < now + SWITCH_GUARD_MS ==> !r2.value.retry
      // the rotation state after both attempts
      ensures router.State() ==
        if r2.Some? && r2.value.Posted? then
          AfterResponse(router.webhooks, AfterResponse(router.webhooks, old(router.State()), first, now), second, retryAt)
        else if r1.Posted? && notice != JarifLogin then
          AfterResponse(router.webhooks, old(router.State()), first, now)
        else old(router.State())
      // the notice's clock moves to the time of a 2xx, the other clocks stay
      ensures forall g :: (View().LastSent(g) ==
          if g != GroupOf(notice) then old(View()).LastSent(g)
          else if r2.Some? && r2.value.Posted? && IsSuccess(second) then retryAt
          else if r1.Posted? && IsSuccess(first) then now
          else old(View()).LastSent(g))
    {
      r1 := Send(notice, None, description, now, fmt, first);
      between := View();
      if r1.Posted? && r1.retry {
        ghost var s1 := router.State();
        var again := Send(notice, router.activeWebhook, description, retryAt, fmt, second);
        if retryAt < now + SWITCH_GUARD_MS {
          NoFlapWithinGuard(router.webhooks, s1, second, retryAt);
        }
        if again.Posted? && IsSuccess(second) {
          SuccessStays(router.webhooks, s1, second.code, retryAt);
        }
        r2 := Some(again);
      } else {
        r2 := None;
      }
    }

    /** Two notices of the same kind in the same wall-clock second: once the
        first is posted, the second is never posted, whatever the webhook
        answered the first time. */
    method SameSecondTwice(notice: Notice, description: string, now: nat, later: nat,
                           fmt: Formatter, first: Response, second: Response)
      returns (r1: SendResult, r2: SendResult)
      requires Valid()
      requires now <= later && now / 1000 == later / 1000
      modifies this`processedPresenceEvents, this`lastPresenceNotificationTime,
               this`lastMessageNotificationTime, this`lastLoginNotificationTime, router
      ensures Valid()
      ensures r1.Posted? ==> !r2.Posted?
    {
      r1 := Send(notice, None, description, now, fmt, first);
      r2 := Send(notice, None, description, later, fmt, second);
      EventKeyInjective(notice, now, notice, later);
    }

    /** What `checkMessageForNotification` (451-548) did with message `m` at
        `now`, given Jarif's presence, Jarif's settings and the webhook's answer:
        the skip chain in the source's order, each skip changing nothing;
        otherwise a send that the handler's own cooldown test never lets be
        cooled down, after which the id is recorded whatever became of it. */
    twostate predicate MessageOutcome(m: Message, now: nat, jarifPresence: Read<PresenceRecord>,
                                      settings: Read<Settings>, resp: Response, v: MessageVerdict)
      reads this, router
    {
      var fromFidha := SentBy(m, fidha);
      var away := fromFidha && JarifOffline(jarifPresence, now);
      var unseen := away && MessageId(m) !in old(processedMessageIds);
      var wanted := unseen && MessageNotificationsOn(settings);
      var unhandled := wanted && !HandledBy(m, jarif);
      var due := unhandled && now - old(lastMessageNotificationTime) >= MESSAGE_COOLDOWN;
      (v == NotFromFidha <==> !fromFidha)
      && (v == JarifIsOnline <==> fromFidha && !away)
      && (v == AlreadyProcessed <==> away && !unseen)
      && (v == NotificationsOff <==> unseen && !wanted)
      && (v == HandledByJarif <==> wanted && !unhandled)
      && (v == MessageCoolingDown <==> unhandled && !due)
      && (v.MessageSent? <==> due)
      && (!v.MessageSent? ==> View() == old(View()) && processedMessageIds == old(processedMessageIds))
      && (v.MessageSent? ==>
            v.send != CooledDown
            && SendEffect(router.webhooks, old(View()), View(), NewMessage, now, resp, v.send)
            && processedMessageIds ==
                 (if MessageId(m) != "" then
                    AddBounded(old(processedMessageIds), MessageId(m), MESSAGE_IDS_CAP, MESSAGE_IDS_KEEP)
                  else old(processedMessageIds)))
    }

    /** The notification posted for message `m` at `now`, to the webhook
        that was active (537-541, with the colour and footer of 332-343). */
    static predicate MessagePosted(m: Message, now: int, fmt: Formatter, active: Option<string>, send: SendResult)
      requires send.Posted?
    {
      Some(send.url) == active
      && send.payload ==
           Payload(MENTION, MessageDescription(MessageContent(m), fmt.dateTime(MessageTime(m, now))),
                   Colour(NewMessage), Footer(NewMessage, fmt.time(now)))
    }

    /** `checkMessageForNotification` (451-548) at time `now`. */
    method CheckMessage(m: Message, now: nat, jarifPresence: Read<PresenceRecord>,
                        settings: Read<Settings>, fmt: Formatter, resp: Response)
      returns (v: MessageVerdict)
      requires Valid()
      modifies this`processedMessageIds, this`processedPresenceEvents, this`lastPresenceNotificationTime,
               this`lastMessageNotificationTime, this`lastLoginNotificationTime, router
      ensures Valid()
      ensures MessageOutcome(m, now, jarifPresence, settings, resp, v)
      ensures v.MessageSent? && v.send.Posted? ==> MessagePosted(m, now, fmt, old(router.activeWebhook), v.send)
      ensures v.MessageSent? && MessageId(m) != "" ==> MessageId(m) in processedMessageIds
    {
      if !(m.sender == fidha || m.senderId == fidha || m.from == fidha || m.uid == fidha) {
        return NotFromFidha;
      }
      if !JarifOffline(jarifPresence, now) {
        return JarifIsOnline;
      }
      var id := MessageId(m);
      if id in processedMessageIds {
        return AlreadyProcessed;
      }
      if !(settings.Found? && settings.value.messageNotifications) {
        return NotificationsOff;
      }
      if jarif in m.savedBy || jarif in m.readBy {
        return HandledByJarif;
      }
      if now - lastMessageNotificationTime < MESSAGE_COOLDOWN {
        return MessageCoolingDown;
      }
      var send := NotifyMessage(m, now, fmt, resp);
      return MessageSent(send);
    }

    /** The tail of `checkMessageForNotification` once every skip test has
        passed (519-545): the preview is sent, then the id is recorded
        whatever became of the send. */
    method NotifyMessage(m: Message, now: nat, fmt: Formatter, resp: Response) returns (send: SendResult)
      requires Valid()
      modifies this`processedMessageIds, this`processedPresenceEvents, this`lastPresenceNotificationTime,
               this`lastMessageNotificationTime, this`lastLoginNotificationTime, router
      ensures Valid()
      ensures SendEffect(router.webhooks, old(View()), View(), NewMessage, now, resp, send)
      ensures send.Posted? ==> MessagePosted(m, now, fmt, old(router.activeWebhook), send)
      ensures processedMessageIds ==
        if MessageId(m) != "" then AddBounded(old(processedMessageIds), MessageId(m), MESSAGE_IDS_CAP, MESSAGE_IDS_KEEP)
        else old(processedMessageIds)
    {
      var dateTime := fmt.dateTime(MessageTime(m, now));
      var content := MessageContent(m);
      send := Send(NewMessage, None, MessageDescription(content, dateTime), now, fmt, resp);
      RecordMessageId(MessageId(m));
    }

    /** The recording of a checked message's id (543-547): an empty id is
        never recorded, any other is added to the bounded set. */
    method RecordMessageId(id: string)
      requires Valid()
      modifies this`processedMessageIds
      ensures Valid()
      ensures processedMessageIds ==
        if id != "" then AddBounded(old(processedMessageIds), id, MESSAGE_IDS_CAP, MESSAGE_IDS_KEEP)
        else old(processedMessageIds)
      ensures id != "" ==> id in processedMessageIds
    {
      if id != "" {
        AddBoundedAddsNothingEmpty(processedMessageIds, id);
        processedMessageIds := AddBounded(processedMessageIds, id, MESSAGE_IDS_CAP, MESSAGE_IDS_KEEP);
      }
    }

    /** Two message checks less than 10 s apart: after the first one's post
        got a 2xx, the second is cut by the message cooldown. */
    method TwoMessages(m1: Message, m2: Message, now: nat, later: nat,
                       jarifPresence: Read<PresenceRecord>, settings: Read<Settings>,
                       fmt: Formatter, first: Response, second: Response)
      returns (v1: MessageVerdict, v2: MessageVerdict)
      requires Valid()
      requires now <= later < now + MESSAGE_COOLDOWN
      modifies this`processedMessageIds, this`processedPresenceEvents, this`lastPresenceNotificationTime,
               this`lastMessageNotificationTime, this`lastLoginNotificationTime, router
      ensures Valid()
      ensures v1.MessageSent? && v1.send.Posted? && IsSuccess(first) ==> !v2.MessageSent?
    {
      v1 := CheckMessage(m1, now, jarifPresence, settings, fmt, first);
      v2 := CheckMessage(m2, later, jarifPresence, settings, fmt, second);
    }

    /** What `checkActivityForNotification(isActive)` (553-613) did at `now`:
        only an edge of the remembered state whose flag is on is announced,
        once the presence cooldown is over; the remembered state follows
        Fidha except on the three early returns. */
    twostate predicate ActivityOutcome(isActive: bool, now: nat, jarifPresence: Read<PresenceRecord>,
                                       settings: Read<Settings>, fmt: Formatter, resp: Response,
                                       v: ActivityVerdict)
      reads this, router
    {
      var away := JarifOffline(jarifPresence, now);
      var readable := away && !settings.Failed?;
      var edge := readable && old(previousFiOnlineState) != isActive;
      var enabled := edge && EdgeEnabled(settings, isActive);
      var due := enabled && now - old(lastPresenceNotificationTime) >= PRESENCE_COOLDOWN;
      var notice := if isActive then CameOnline else WentOffline;
      (v == JarifOnline <==> !away)
      && (v == SettingsUnreadable <==> away && !readable)
      && (v == NoTransition <==> readable && !edge)
      && (v == EdgeDisabled <==> edge && !enabled)
      && (v == PresenceCoolingDown <==> enabled && !due)
      && (v.ActivitySent? <==> due)
      && previousFiOnlineState ==
           (if v == JarifOnline || v == SettingsUnreadable || v == PresenceCoolingDown
            then old(previousFiOnlineState) else isActive)
      && (!v.ActivitySent? ==> View() == old(View()))
      && (v.ActivitySent? ==>
            v.notice == notice && v.send != CooledDown
            && SendEffect(router.webhooks, old(View()), View(), notice, now, resp, v.send)
            && (v.send.Posted? ==>
                  Some(v.send.url) == old(router.activeWebhook)
                  && v.send.payload ==
                       Payload(MENTION, ActivityDescription(isActive, fmt.dateTime(now)),
                               Colour(notice), Footer(notice, fmt.time(now)))))
    }

    /** `checkActivityForNotification(isActive)` (553-613) at time `now`. */
    method CheckActivity(isActive: bool, now: nat, jarifPresence: Read<PresenceRecord>,
                         settings: Read<Settings>, fmt: Formatter, resp: Response)
      returns (v: ActivityVerdict)
      requires Valid()
      modifies this`previousFiOnlineState, this`processedPresenceEvents, this`lastPresenceNotificationTime,
               this`lastMessageNotificationTime, this`lastLoginNotificationTime, router
      ensures Valid()
      ensures ActivityOutcome(isActive, now, jarifPresence, settings, fmt, resp, v)
    {
      if !JarifOffline(jarifPresence, now) {
        return JarifOnline;
      }
      if settings.Failed? {
        return SettingsUnreadable;
      }
      // The two edges, "went offline" (575-591) and "came online" (592-608),
      // differ only in the notice, the settings flag and the description.
      var wasOnline := previousFiOnlineState;
      if wasOnline == isActive {
        previousFiOnlineState := isActive;
        return NoTransition;
      }
      if !EdgeEnabled(settings, isActive) {
        previousFiOnlineState := isActive;
        return EdgeDisabled;
      }
      if now - lastPresenceNotificationTime < PRESENCE_COOLDOWN {
        return PresenceCoolingDown;
      }
      var notice := if isActive then CameOnline else WentOffline;
      var send := Send(notice, None, ActivityDescription(isActive, fmt.dateTime(now)), now, fmt, resp);
      previousFiOnlineState := isActive;
      return ActivitySent(notice, send);
    }

    /** A value event on Fidha's presence record at time `now` (808-819): it
        reads the record as active or not and (re)starts the 2 s debounce
        timer with that reading, dropping any reading still pending. */
    method OnFidhaPresence(val: Option<PresenceRecord>, now: int)
      modifies this`pendingFiPresence
      ensures pendingFiPresence == Some(FidhaActive(val, now))
    {
      pendingFiPresence := Some(FidhaActive(val, now));
    }

    /** The debounce timer firing (819-826): a reading equal to the last one
        acted on is dropped; any other is remembered and checked. */
    method FireFidhaDebounce(now: nat, jarifPresence: Read<PresenceRecord>, settings: Read<Settings>,
                             fmt: Formatter, resp: Response) returns (v: DebounceVerdict)
      requires Valid()
      modifies this`pendingFiPresence, this`lastFiPresenceState, this`previousFiOnlineState,
               this`processedPresenceEvents, this`lastPresenceNotificationTime,
               this`lastMessageNotificationTime, this`lastLoginNotificationTime, router
      ensures Valid()
      ensures pendingFiPresence.None?
      ensures v == NoTimer <==> old(pendingFiPresence).None?
      ensures v == SameAsLast <==> old(pendingFiPresence).Some? && old(lastFiPresenceState) == old(pendingFiPresence)
      ensures !v.PresenceChecked? ==>
        View() == old(View()) && lastFiPresenceState == old(lastFiPresenceState)
        && previousFiOnlineState == old(previousFiOnlineState)
      ensures v.PresenceChecked? ==>
        lastFiPresenceState == old(pendingFiPresence)
        && ActivityOutcome(old(pendingFiPresence).value, now, jarifPresence, settings, fmt, resp, v.activity)
    {
      if pendingFiPresence.None? {
        return NoTimer;
      }
      var actuallyActive := pendingFiPresence.value;
      pendingFiPresence := None;
      if lastFiPresenceState == Some(actuallyActive) {
        return SameAsLast;
      }
      lastFiPresenceState := Some(actuallyActive);
      var activity := CheckActivity(actuallyActive, now, jarifPresence, settings, fmt, resp);
      return PresenceChecked(activity);
    }

    /** A debounced "inactive" reading checked while Jarif's record is
        missing and every notification flag is off: nothing is sent, yet
        Fidha is remembered as inactive (590-591, 612). */
    method QuietOfflineReading(now: nat, fmt: Formatter, resp: Response) returns (v: DebounceVerdict)
      requires Valid()
      requires pendingFiPresence == Some(false)
      modifies this`pendingFiPresence, this`lastFiPresenceState, this`previousFiOnlineState,
               this`processedPresenceEvents, this`lastPresenceNotificationTime,
               this`lastMessageNotificationTime, this`lastLoginNotificationTime, router
      ensures Valid()
      ensures v.PresenceChecked? ==> !previousFiOnlineState && View() == old(View())
    {
      v := FireFidhaDebounce(now, Missing, Found(Settings(false, false, false)), fmt, resp);
    }

    /** `checkJarifLoginForNotification` (618-656) for a record of the
        `jarifLogins` list: posted to the jarif webhook, gated by the login
        cooldown, never touching the rotation state. */
    method CheckJarifLogin(e: JarifLoginEvent, now: nat, fmt: Formatter, resp: Response)
      returns (v: JarifLoginVerdict)
      requires Valid()
      modifies this`processedJarifLoginIds, this`processedPresenceEvents, this`lastPresenceNotificationTime,
               this`lastMessageNotificationTime, this`lastLoginNotificationTime, router
      ensures Valid()
      ensures unchanged(router)
      ensures v == NoJarifWebhook <==> router.webhooks.jarif.None?
      ensures v == MissingId <==> router.webhooks.jarif.Some? && e.id == ""
      ensures v == LoginAlreadyProcessed <==>
        router.webhooks.jarif.Some? && e.id != "" && e.id in old(processedJarifLoginIds)
      ensures !v.LoginSent? ==> View() == old(View()) && processedJarifLoginIds == old(processedJarifLoginIds)
      // the id is recorded once a send was attempted, whatever became of it
      ensures v.LoginSent? ==>
        SendEffect(router.webhooks, old(View()), View(), JarifLogin, now, resp, v.send)
        && processedJarifLoginIds == AddBounded(old(processedJarifLoginIds), e.id, SMALL_SET_CAP, SMALL_SET_KEEP)
        && e.id in processedJarifLoginIds
      ensures v.LoginSent? && v.send.Posted? ==>
        v.send.url == router.webhooks.jarif.value && !v.send.retry
        && v.send.payload ==
             Payload(MENTION, JarifLoginDescription(e.deviceInfo, fmt.dateTime(StampOrNow(e.timestamp, now))),
                     Colour(JarifLogin), Footer(JarifLogin, fmt.time(now)))
    {
      if router.webhooks.jarif.None? {
        return NoJarifWebhook;
      }
      if e.id == "" {
        return MissingId;
      }
      if e.id in processedJarifLoginIds {
        return LoginAlreadyProcessed;
      }
      var dateTime := fmt.dateTime(StampOrNow(e.timestamp, now));
      var send := Send(JarifLogin, router.webhooks.jarif, JarifLoginDescription(e.deviceInfo, dateTime),
                       now, fmt, resp);
      processedJarifLoginIds := AddBounded(processedJarifLoginIds, e.id, SMALL_SET_CAP, SMALL_SET_KEEP);
      return LoginSent(send);
    }

    /** What `checkLoginPageAccess` (661-699) did with an opening of the
        login page: Jarif's own openings change nothing; any other is sent
        to the active webhook under the login cooldown. */
    twostate predicate AccessOutcome(a: LoginAccess, now: nat, fmt: Formatter, resp: Response, v: AccessVerdict)
      reads this, router
    {
      (v == JarifOwnAccess <==> Contains(AccessUser(a), jarif))
      && (v == JarifOwnAccess ==> View() == old(View()))
      && (v.AccessSent? ==>
            SendEffect(router.webhooks, old(View()), View(), LoginPage, now, resp, v.send)
            && (v.send.Posted? ==>
                  Some(v.send.url) == old(router.activeWebhook)
                  && v.send.payload ==
                       Payload(MENTION, AccessDescription(a, fmt.dateTime(StampOrNow(a.timestamp, now))),
                               Colour(LoginPage), Footer(LoginPage, fmt.time(now)))))
    }

    /** `checkLoginPageAccess` (661-699) at time `now`. */
    method CheckLoginPageAccess(a: LoginAccess, now: nat, fmt: Formatter, resp: Response)
      returns (v: AccessVerdict)
      requires Valid()
      modifies this`processedPresenceEvents, this`lastPresenceNotificationTime,
               this`lastMessageNotificationTime, this`lastLoginNotificationTime, router
      ensures Valid()
      ensures AccessOutcome(a, now, fmt, resp, v)
    {
      var userId := AccessUser(a);
      JarifAccessIsContainment(userId, jarif);
      if userId == jarif || Contains(userId, jarif) {
        return JarifOwnAccess;
      }
      var dateTime := fmt.dateTime(StampOrNow(a.timestamp, now));
      var send := Send(LoginPage, None, AccessDescription(a, dateTime), now, fmt, resp);
      return AccessSent(send);
    }

    /** An opening of the login page by someone else whose notification got
        a 2xx: the login cooldown restarts at `now` (417-419). */
    method AccessStampsLoginClock(a: LoginAccess, now: nat, fmt: Formatter) returns (v: AccessVerdict)
      requires Valid()
      modifies this`processedPresenceEvents, this`lastPresenceNotificationTime,
               this`lastMessageNotificationTime, this`lastLoginNotificationTime, router
      ensures Valid()
      ensures v.AccessSent? && v.send.Posted? ==>
        lastLoginNotificationTime == now && lastPresenceNotificationTime == old(lastPresenceNotificationTime)
    {
      v := CheckLoginPageAccess(a, now, fmt, Status(200));
      if v.AccessSent? && v.send.Posted? {
        assert View().LastSent(LoginGroup) == now;
        assert View().LastSent(PresenceGroup) == old(View()).LastSent(PresenceGroup);
      }
    }

    /** A `child_added` event on `loginAccess` with database key `loginId`
        (728-751): a key seen before is skipped; otherwise the access is
        checked and the key recorded, Jarif's own openings included. */
    method OnLoginAccess(loginId: string, a: LoginAccess, now: nat, fmt: Formatter, resp: Response)
      returns (v: AccessListenerVerdict)
      requires Valid()
      modifies this`processedLoginIds, this`processedPresenceEvents, this`lastPresenceNotificationTime,
               this`lastMessageNotificationTime, this`lastLoginNotificationTime, router
      ensures Valid()
      ensures v == AccessAlreadyHandled <==> loginId in old(processedLoginIds)
      ensures v == AccessAlreadyHandled ==> View() == old(View()) && processedLoginIds == old(processedLoginIds)
      ensures v.AccessHandled? ==>
        AccessOutcome(a, now, fmt, resp, v.access)
        && processedLoginIds == AddBounded(old(processedLoginIds), loginId, SMALL_SET_CAP, SMALL_SET_KEEP)
        && loginId in processedLoginIds
    {
      if loginId in processedLoginIds {
        return AccessAlreadyHandled;
      }
      var access := CheckLoginPageAccess(a, now, fmt, resp);
      processedLoginIds := AddBounded(processedLoginIds, loginId, SMALL_SET_CAP, SMALL_SET_KEEP);
      return AccessHandled(access);
    }

    /** A `child_added` event on `messages` with database key `key`
        (778-801): the key becomes the message id, and a message more than
        five minutes old is skipped. */
    method OnMessageAdded(key: string, m: Message, now: nat, jarifPresence: Read<PresenceRecord>,
                          settings: Read<Settings>, fmt: Formatter, resp: Response)
      returns (v: MessageListenerVerdict)
      requires Valid()
      modifies this`processedMessageIds, this`processedPresenceEvents, this`lastPresenceNotificationTime,
               this`lastMessageNotificationTime, this`lastLoginNotificationTime, router
      ensures Valid()
      ensures v == TooOld <==> !IsRecent(m, now)
      ensures v == TooOld ==> View() == old(View()) && processedMessageIds == old(processedMessageIds)
      ensures v.MessageChecked? ==>
        MessageOutcome(m.(id := key), now, jarifPresence, settings, resp, v.check)
      ensures v.MessageChecked? && v.check.MessageSent? && v.check.send.Posted? ==>
        MessagePosted(m.(id := key), now, fmt, old(router.activeWebhook), v.check.send)
    {
      var message := m.(id := key);
      if MessageTime(message, now) < now - MESSAGE_MAX_AGE_MS {
        return TooOld;
      }
      var check := CheckMessage(message, now, jarifPresence, settings, fmt, resp);
      return MessageChecked(check);
    }
  }
}
