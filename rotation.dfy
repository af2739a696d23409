/**
 * Webhook rotation: the module-level state `activeWebhook`,
 * `activeWebhookName`, `webhookSwitchTime`, `isRateLimited`,
 * `rateLimitStartTime` and `failedAttempts`
 * (firebase-notification-server.js:79-92), the functions `rotateWebhook`
 * and `checkWebhookRotation` that update it (161-226), and the way an HTTP
 * outcome of a general-purpose send changes it (380-445).
 *
 * The pure functions below state what each step does to the state; the
 * class `Router` holds the state in fields and updates it step by step as
 * the source does, and each of its methods is proved against them.
 */
module Rotation {
  import opened Basics
  import opened Config

  /** `rotateWebhook` refuses to switch within this long of the last switch. */
  const SWITCH_GUARD_MS := 60000
  /** `WEBHOOK_ROTATION_DURATION`: after this long off primary, go back to it. */
  const WEBHOOK_ROTATION_DURATION := 3 * 60 * 60 * 1000
  /** Rate limited for longer than this forces a rotation. */
  const RATE_LIMIT_ROTATE_AFTER_MS := 30 * 60 * 1000

  /** What a `fetch` to a webhook produced: a response status, or a thrown
      error with its message (a timeout is an error whose message is the
      abort message). */
  datatype Response = Status(code: int) | Thrown(message: string)

  /** `response.ok` */
  predicate IsOk(code: int) {
    200 <= code <= 299
  }

  /** A 429, or a thrown error that mentions Cloudflare, a rate limit or a ban. */
  predicate SignalsRateLimit(resp: Response) {
    match resp
    case Status(code) => code == 429
    case Thrown(message) =>
      Contains(message, "Cloudflare") || Contains(message, "rate limit") || Contains(message, "banned")
  }

  /** A 403 or 404 (webhook invalid) or a 5xx (server error). */
  predicate SignalsBadWebhook(resp: Response) {
    resp.Status? && (resp.code == 403 || resp.code == 404 || resp.code >= 500)
  }

  /** A 2xx response. */
  predicate IsSuccess(resp: Response) {
    resp.Status? && IsOk(resp.code)
  }

  /** The rotation fields other than the URL, which is always
      `WEBHOOKS[name]` (see `Consistent`). */
  datatype RotationState = RotationState(
    name: WebhookName,
    switchTime: int,
    rateLimited: bool,
    rateLimitStart: int,
    failedAttempts: nat)

  /** The active slot is configured, and the jarif slot serves general
      notifications only when no general webhook is configured. */
  predicate Consistent(w: Webhooks, s: RotationState) {
    w.Url(s.name).Some? && (w.AnyGeneral() ==> s.name != Jarif)
  }

  /** The anti-flap guard of `rotateWebhook` has passed. */
  predicate CanRotate(s: RotationState, now: int) {
    now - s.switchTime >= SWITCH_GUARD_MS
  }

  /** `rotateWebhook()` at time `now`. */
  function AfterRotate(w: Webhooks, s: RotationState, now: int): RotationState {
    if !CanRotate(s, now) then s
    else RotationState(NextWebhook(w, s.name), now, false, 0, 0)
  }

  /** Marking the webhook rate limited, then `rotateWebhook()`. */
  function AfterRateLimit(w: Webhooks, s: RotationState, now: int): RotationState {
    AfterRotate(w, s.(rateLimited := true, rateLimitStart := now, failedAttempts := s.failedAttempts + 1), now)
  }

  /** A 2xx clears the rate-limit flag and the failure count (not the start time). */
  function AfterSuccess(s: RotationState): RotationState {
    s.(rateLimited := false, failedAttempts := 0)
  }

  /** The state after a general-purpose send to the active webhook got `resp`. */
  function AfterResponse(w: Webhooks, s: RotationState, resp: Response, now: int): RotationState {
    if SignalsRateLimit(resp) then AfterRateLimit(w, s, now)
    else if SignalsBadWebhook(resp) then AfterRotate(w, s, now)
    else if IsSuccess(resp) then AfterSuccess(s)
    else s
  }

  /** The condition under which `checkWebhookRotation` returns to primary. */
  predicate DueBackToPrimary(w: Webhooks, s: RotationState, now: int) {
    s.switchTime > 0 && now - s.switchTime >= WEBHOOK_ROTATION_DURATION
    && s.name != Primary && w.primary.Some?
  }

  /** The condition under which `checkWebhookRotation` forces a rotation. */
  predicate RateLimitedTooLong(s: RotationState, now: int) {
    s.rateLimited && s.rateLimitStart > 0 && now - s.rateLimitStart > RATE_LIMIT_ROTATE_AFTER_MS
  }

  /** `checkWebhookRotation()` at time `now`. */
  function AfterBackgroundCheck(w: Webhooks, s: RotationState, now: int): RotationState {
    var s1 := if DueBackToPrimary(w, s, now)
              then s.(name := Primary, switchTime := now, rateLimited := false, rateLimitStart := 0)
              else s;
    if RateLimitedTooLong(s1, now) then AfterRotate(w, s1, now) else s1
  }

  /** Within 60 s of the last switch a rotation changes nothing; after it, a
      rotation moves to the next slot, restarts the guard and clears all
      rate-limit bookkeeping. */
  lemma RotateGuard(w: Webhooks, s: RotationState, now: int)
    ensures now - s.switchTime < SWITCH_GUARD_MS ==> AfterRotate(w, s, now) == s
    ensures now - s.switchTime >= SWITCH_GUARD_MS ==>
      var t := AfterRotate(w, s, now);
      t.name == NextWebhook(w, s.name) && t.switchTime == now
      && !t.rateLimited && t.rateLimitStart == 0 && t.failedAttempts == 0
  {
  }

  /** Every transition keeps the active slot configured. */
  lemma TransitionsKeepConsistent(w: Webhooks, s: RotationState, resp: Response, now: int)
    requires Consistent(w, s)
    ensures Consistent(w, AfterRotate(w, s, now))
    ensures Consistent(w, AfterResponse(w, s, resp, now))
    ensures Consistent(w, AfterBackgroundCheck(w, s, now))
  {
  }

  /** A rate-limit signal either rotates (guard passed) or records the rate
      limit at `now` and counts one more failure on the same webhook. */
  lemma RateLimitOutcome(w: Webhooks, s: RotationState, resp: Response, now: int)
    requires SignalsRateLimit(resp)
    ensures var t := AfterResponse(w, s, resp, now);
      if CanRotate(s, now) then
        t.name == NextWebhook(w, s.name) && t.switchTime == now && !t.rateLimited && t.failedAttempts == 0
      else
        t.name == s.name && t.switchTime == s.switchTime
        && t.rateLimited && t.rateLimitStart == now && t.failedAttempts == s.failedAttempts + 1
  {
  }

  /** No outcome at all moves the active webhook within 60 s of a switch:
      the anti-flap guard. */
  lemma NoFlapWithinGuard(w: Webhooks, s: RotationState, resp: Response, now: int)
    requires now - s.switchTime < SWITCH_GUARD_MS
    ensures AfterResponse(w, s, resp, now).name == s.name
    ensures AfterResponse(w, s, resp, now).switchTime == s.switchTime
  {
  }

  /** A 2xx never rotates and leaves the webhook not rate limited. */
  lemma SuccessStays(w: Webhooks, s: RotationState, code: int, now: int)
    requires IsOk(code)
    ensures var t := AfterResponse(w, s, Status(code), now);
      t.name == s.name && t.switchTime == s.switchTime && !t.rateLimited && t.failedAttempts == 0
  {
  }

  /** After 3 h away from a configured primary the background check returns
      to it and clears the rate limit; rate limited for more than 30 min
      otherwise forces a rotation once the guard allows it. */
  lemma BackgroundCheckOutcome(w: Webhooks, s: RotationState, now: int)
    ensures DueBackToPrimary(w, s, now) ==>
      var t := AfterBackgroundCheck(w, s, now);
      t.name == Primary && t.switchTime == now && !t.rateLimited && t.rateLimitStart == 0
      && t.failedAttempts == s.failedAttempts
    ensures !DueBackToPrimary(w, s, now) && RateLimitedTooLong(s, now) ==>
      AfterBackgroundCheck(w, s, now) == AfterRotate(w, s, now)
    ensures !DueBackToPrimary(w, s, now) && !RateLimitedTooLong(s, now) ==>
      AfterBackgroundCheck(w, s, now) == s
  {
  }

  /** The rotation state held in place, as the source's module-level variables. */
  class Router {
    const webhooks: Webhooks
    var activeWebhook: Option<string>
    var activeWebhookName: WebhookName
    var webhookSwitchTime: int
    var isRateLimited: bool
    var rateLimitStartTime: int
    var failedAttempts: nat

    ghost function State(): RotationState
      reads this
    {
      RotationState(activeWebhookName, webhookSwitchTime, isRateLimited, rateLimitStartTime, failedAttempts)
    }

    /** `activeWebhook` is always `WEBHOOKS[activeWebhookName]`, and is set. */
    ghost predicate Valid()
      reads this
    {
      Consistent(webhooks, State()) && activeWebhook == webhooks.Url(activeWebhookName)
    }

    /** Start-up (79-92): the first configured webhook, named by comparing
        its URL with each slot in turn. */
    constructor (webhooks: Webhooks)
      requires webhooks.AnyConfigured()
      ensures Valid() && this.webhooks == webhooks
      ensures State() == RotationState(InitialWebhook(webhooks), 0, false, 0, 0)
      ensures activeWebhook.Some?
    {
      this.webhooks := webhooks;
      var url := webhooks.primary.Or(webhooks.secondary).Or(webhooks.tertiary).Or(webhooks.jarif);
      activeWebhook := url;
      activeWebhookName :=
        if url == webhooks.primary then Primary
        else if url == webhooks.secondary then Secondary
        else if url == webhooks.tertiary then Tertiary
        else Jarif;
      webhookSwitchTime := 0;
      isRateLimited := false;
      rateLimitStartTime := 0;
      failedAttempts := 0;
    }

    /** `rotateWebhook()` (161-200). */
    method RotateWebhook(now: int) returns (rotated: bool)
      requires Valid()
      modifies this
      ensures Valid()
      ensures rotated == CanRotate(old(State()), now)
      ensures State() == AfterRotate(webhooks, old(State()), now)
    {
      if now - webhookSwitchTime < SWITCH_GUARD_MS {
        return false;
      }
      if activeWebhookName == Primary && webhooks.secondary.Some? {
        activeWebhook := webhooks.secondary;
        activeWebhookName := Secondary;
      } else if activeWebhookName == Secondary && webhooks.tertiary.Some? {
        activeWebhook := webhooks.tertiary;
        activeWebhookName := Tertiary;
      } else if activeWebhookName == Tertiary && webhooks.primary.Some? {
        activeWebhook := webhooks.primary;
        activeWebhookName := Primary;
      } else if webhooks.primary.Some? {
        activeWebhook := webhooks.primary;
        activeWebhookName := Primary;
      } else {
        // fall back to any configured webhook, named by URL comparison
        activeWebhook := webhooks.secondary.Or(webhooks.tertiary).Or(webhooks.jarif);
        activeWebhookName :=
          if activeWebhook == webhooks.secondary then Secondary
          else if activeWebhook == webhooks.tertiary then Tertiary
          else Jarif;
      }
      webhookSwitchTime := now;
      isRateLimited := false;
      rateLimitStartTime := 0;
      failedAttempts := 0;
      return true;
    }

    /** The rate-limit bookkeeping of a 429 or a ban-like error, followed by
        `rotateWebhook()` (383-388, 430-440). */
    method RecordRateLimit(now: int) returns (rotated: bool)
      requires Valid()
      modifies this
      ensures Valid()
      ensures rotated == CanRotate(old(State()), now)
      ensures State() == AfterRateLimit(webhooks, old(State()), now)
    {
      isRateLimited := true;
      rateLimitStartTime := now;
      failedAttempts := failedAttempts + 1;
      rotated := RotateWebhook(now);
    }

    /** The bookkeeping of a 2xx on a general-purpose send (421-424). */
    method RecordSuccess()
      requires Valid()
      modifies this
      ensures Valid()
      ensures State() == AfterSuccess(old(State()))
      ensures activeWebhook == old(activeWebhook)
    {
      isRateLimited := false;
      failedAttempts := 0;
    }

    /** What a general-purpose send does to the rotation state once the
        webhook answered `resp` (380-445): a 429 or a ban-like error records
        the rate limit and rotates, a 403, 404 or 5xx rotates, a 2xx clears
        the rate limit, anything else changes nothing. */
    method RecordResponse(resp: Response, now: int)
      requires Valid()
      modifies this
      ensures Valid()
      ensures State() == AfterResponse(webhooks, old(State()), resp, now)
    {
      match resp {
        case Status(code) =>
          if code == 429 {
            var _ := RecordRateLimit(now);
          } else if code == 403 || code == 404 {
            var _ := RotateWebhook(now);
          } else if !IsOk(code) {
            if code >= 500 {
              var _ := RotateWebhook(now);
            }
          } else {
            RecordSuccess();
          }
        case Thrown(message) =>
          if Contains(message, "Cloudflare") || Contains(message, "rate limit") || Contains(message, "banned") {
            var _ := RecordRateLimit(now);
          }
      }
    }

    /** `checkWebhookRotation()` (202-226), run every minute. */
    method CheckWebhookRotation(now: int)
      requires Valid()
      modifies this
      ensures Valid()
      ensures State() == AfterBackgroundCheck(webhooks, old(State()), now)
    {
      if webhookSwitchTime > 0 && now - webhookSwitchTime >= WEBHOOK_ROTATION_DURATION {
        if activeWebhookName != Primary && webhooks.primary.Some? {
          activeWebhook := webhooks.primary;
          activeWebhookName := Primary;
          webhookSwitchTime := now;
          isRateLimited := false;
          rateLimitStartTime := 0;
        }
      }
      if isRateLimited && rateLimitStartTime > 0 && now - rateLimitStartTime > RATE_LIMIT_ROTATE_AFTER_MS {
        var _ := RotateWebhook(now);
      }
    }
  }
}
