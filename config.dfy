/**
 * The configured Discord webhooks and the fixed order in which the server
 * picks and rotates among them (firebase-notification-server.js:35-52,
 * 79-88 and 161-200).
 */
module Config {
  import opened Basics

  /** The four webhook slots. `Jarif` is the dedicated webhook for Jarif's
      own logins; the other three are the general-purpose ones. */
  datatype WebhookName = Primary | Secondary | Tertiary | Jarif

  /** The webhook URLs read from the environment at start-up; `None` for a
      slot whose variables are unset or empty. */
  datatype Webhooks = Webhooks(
    primary: Option<string>,
    secondary: Option<string>,
    tertiary: Option<string>,
    jarif: Option<string>)
  {
    /** `WEBHOOKS[name]` */
    function Url(name: WebhookName): Option<string> {
      match name
      case Primary => primary
      case Secondary => secondary
      case Tertiary => tertiary
      case Jarif => jarif
    }

    /** Some general-purpose webhook is configured. */
    predicate AnyGeneral() {
      primary.Some? || secondary.Some? || tertiary.Some?
    }

    /** Some webhook at all is configured: the server refuses to start otherwise. */
    predicate AnyConfigured() {
      AnyGeneral() || jarif.Some?
    }
  }

  /** Position of a slot in the start-up preference order. */
  function Rank(name: WebhookName): nat {
    match name
    case Primary => 0
    case Secondary => 1
    case Tertiary => 2
    case Jarif => 3
  }

  /** The slot `activeWebhook` starts on: the first configured one in the
      order primary, secondary, tertiary, jarif. (When nothing is configured
      the source's name comparison `null === WEBHOOKS.primary` yields
      "primary"; the server exits before that matters.) */
  function InitialWebhook(w: Webhooks): (name: WebhookName)
    ensures w.AnyConfigured() ==> w.Url(name).Some?
    ensures forall n :: Rank(n) < Rank(name) ==> w.Url(n).None?
  {
    if w.primary.Some? then Primary
    else if w.secondary.Some? then Secondary
    else if w.tertiary.Some? then Tertiary
    else if w.jarif.Some? then Jarif
    else Primary
  }

  /** The fixed cycle primary -> secondary -> tertiary -> primary. */
  function CycleNext(name: WebhookName): WebhookName {
    match name
    case Primary => Secondary
    case Secondary => Tertiary
    case Tertiary => Primary
    case Jarif => Primary
  }

  /** The slot `rotateWebhook` moves to from `from` once its anti-flap guard
      has passed: the next one in the cycle when that one is configured,
      otherwise primary when configured, otherwise the first configured of
      secondary, tertiary, jarif. (With nothing configured the source's
      name comparison yields "secondary".) */
  function NextWebhook(w: Webhooks, from: WebhookName): (to: WebhookName)
    ensures w.AnyConfigured() ==> w.Url(to).Some?
    ensures w.AnyGeneral() ==> to != Jarif
  {
    if from == Primary && w.secondary.Some? then Secondary
    else if from == Secondary && w.tertiary.Some? then Tertiary
    else if from == Tertiary && w.primary.Some? then Primary
    else if w.primary.Some? then Primary
    else if w.secondary.Some? then Secondary
    else if w.tertiary.Some? then Tertiary
    else if w.jarif.Some? then Jarif
    else Secondary
  }

  /** The slot reached from `from` after `n` successful rotations. */
  function Rotations(w: Webhooks, from: WebhookName, n: nat): WebhookName {
    if n == 0 then from else NextWebhook(w, Rotations(w, from, n - 1))
  }

  /** Rotation follows the cycle whenever the next slot of the cycle is
      configured, and otherwise falls back to primary when it can. */
  lemma RotationOrder(w: Webhooks, from: WebhookName)
    ensures from != Jarif && w.Url(CycleNext(from)).Some? ==> NextWebhook(w, from) == CycleNext(from)
    ensures (from == Jarif || w.Url(CycleNext(from)).None?) && w.primary.Some? ==> NextWebhook(w, from) == Primary
    ensures (from == Jarif || w.Url(CycleNext(from)).None?) && w.primary.None? && w.AnyConfigured() ==>
              NextWebhook(w, from) == InitialWebhook(w)
  {
  }

  /** Any number of rotations from a configured slot stays on configured
      slots, and never reaches the jarif slot while a general one exists. */
  lemma {:induction false} RotationsStayConfigured(w: Webhooks, from: WebhookName, n: nat)
    requires w.Url(from).Some?
    requires w.AnyGeneral() ==> from != Jarif
    ensures w.Url(Rotations(w, from, n)).Some?
    ensures w.AnyGeneral() ==> Rotations(w, from, n) != Jarif
  {
    if n > 0 {
      RotationsStayConfigured(w, from, n - 1);
    }
  }

  /** With all three general webhooks configured, three rotations visit
      each of them once and come back to the start. */
  lemma FullCycle(w: Webhooks, from: WebhookName)
    requires w.primary.Some? && w.secondary.Some? && w.tertiary.Some?
    requires from != Jarif
    ensures Rotations(w, from, 3) == from
    ensures {Rotations(w, from, 0), Rotations(w, from, 1), Rotations(w, from, 2)}
            == {Primary, Secondary, Tertiary}
  {
    assert Rotations(w, from, 1) == CycleNext(from);
    assert Rotations(w, from, 2) == CycleNext(CycleNext(from));
    assert Rotations(w, from, 3) == CycleNext(CycleNext(CycleNext(from)));
  }

  /** As written, rotation never leaves primary when secondary is unset:
      the tertiary webhook is then never used, however many rotations. */
  lemma {:induction false} StuckOnPrimaryWithoutSecondary(w: Webhooks, n: nat)
    requires w.primary.Some? && w.secondary.None?
    ensures Rotations(w, Primary, n) == Primary
  {
    if n > 0 {
      StuckOnPrimaryWithoutSecondary(w, n - 1);
    }
  }
}
