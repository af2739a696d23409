/**
 * What `sendDiscordNotification` derives from the kind of notification
 * before it posts: the cooldown category, the per-second event key, the
 * embed colour and the footer (firebase-notification-server.js:285-343),
 * and the 500-character cap on message previews (533-535).
 */
module Format {

  /** The kind of notification, given in the source by the flags `isActivity`,
      `isOffline`, `isLogin` and `isJarifLogin` (none set: a message). Every
      caller sets at most one flag. */
  datatype Notice = CameOnline | WentOffline | LoginPage | JarifLogin | NewMessage

  /** The three cooldown clocks. */
  datatype CooldownGroup = PresenceGroup | MessageGroup | LoginGroup

  const PRESENCE_COOLDOWN := 5000
  const MESSAGE_COOLDOWN := 10000
  const LOGIN_COOLDOWN := 5000

  /** The user mention every notification starts with. */
  const MENTION := "<@765280345260032030>"

  /** Which cooldown clock gates a notice (289-307). Jarif's own logins
      share the login clock. */
  function GroupOf(n: Notice): CooldownGroup {
    match n
    case CameOnline => PresenceGroup
    case WentOffline => PresenceGroup
    case LoginPage => LoginGroup
    case JarifLogin => LoginGroup
    case NewMessage => MessageGroup
  }

  /** The minimum time between two successful notifications of a group
      (126-128): 10 s for messages, 5 s for presence and for logins. */
  function CooldownMs(g: CooldownGroup): (ms: nat)
    ensures g == MessageGroup ==> ms == 10000
    ensures g != MessageGroup ==> ms == 5000
  {
    match g
    case PresenceGroup => PRESENCE_COOLDOWN
    case MessageGroup => MESSAGE_COOLDOWN
    case LoginGroup => LOGIN_COOLDOWN
  }

  /** The embed colour (339-343), a 24-bit RGB value as the embed requires. */
  function Colour(n: Notice): (rgb: int)
    ensures 0 <= rgb < 0x100_0000
  {
    match n
    case CameOnline => 3066993
    case WentOffline => 15158332
    case LoginPage => 16776960
    case JarifLogin => 3447003
    case NewMessage => 10181046
  }

  /** The footer text before the formatted time (332-337). */
  function FooterPrefix(n: Notice): string {
    match n
    case CameOnline => "Came online at "
    case WentOffline => "Went offline at "
    case LoginPage => "Accessed at "
    case JarifLogin => "Logged in at "
    case NewMessage => "Sent at "
  }

  function Footer(n: Notice, time: string): string {
    FooterPrefix(n) + time
  }

  /** Each kind of notice has its own colour and its own footer. */
  lemma ColoursAndFootersDistinguishNotices(a: Notice, b: Notice, t: string)
    ensures Colour(a) == Colour(b) <==> a == b
    ensures Footer(a, t) == Footer(b, t) <==> a == b
  {
    if Footer(a, t) == Footer(b, t) {
      var fa, fb := FooterPrefix(a), FooterPrefix(b);
      assert fa[0] == Footer(a, t)[0] && fb[0] == Footer(b, t)[0];
      assert fa[1] == Footer(a, t)[1] && fb[1] == Footer(b, t)[1];
    }
  }

  /** The word that starts an event key (309-318). */
  function KindTag(n: Notice): string {
    match n
    case CameOnline => "activity"
    case WentOffline => "offline"
    case LoginPage => "login"
    case JarifLogin => "jarif_login"
    case NewMessage => "message"
  }

  predicate IsDigit(c: char) {
    '0' <= c <= '9'
  }

  function DigitChar(d: nat): (c: char)
    requires d < 10
    ensures IsDigit(c)
  {
    "0123456789"[d]
  }

  /** The decimal rendering JavaScript gives a non-negative integer in a
      template string. */
  function DecimalString(n: nat): (s: string)
    ensures |s| > 0 && (forall c | c in s :: IsDigit(c))
    ensures n >= 10 ==> |s| >= 2
  {
    if n < 10 then [DigitChar(n)] else DecimalString(n / 10) + [DigitChar(n % 10)]
  }

  /** Different numbers have different decimal renderings. */
  lemma {:induction false} DecimalStringInjective(a: nat, b: nat)
    requires DecimalString(a) == DecimalString(b)
    ensures a == b
  {
    if a >= 10 && b >= 10 {
      var sa, sb := DecimalString(a), DecimalString(b);
      assert DigitChar(a % 10) == sa[|sa| - 1] == sb[|sb| - 1] == DigitChar(b % 10);
      assert DecimalString(a / 10) == sa[..|sa| - 1] == sb[..|sb| - 1] == DecimalString(b / 10);
      DecimalStringInjective(a / 10, b / 10);
    } else if a < 10 && b < 10 {
      assert DigitChar(a) == DecimalString(a)[0] == DecimalString(b)[0] == DigitChar(b);
    }
  }

  /** `` `${kind}_${Math.floor(now / 1000)}` ``: the key that lets through at
      most one notice of a kind per wall-clock second. */
  function EventKey(n: Notice, now: nat): string {
    KindTag(n) + "_" + DecimalString(now / 1000)
  }

  /** The part of `s` after its last `_` (all of `s` when it has none). */
  function AfterLastUnderscore(s: string): (d: string)
    ensures '_' !in d
  {
    if s == [] || s[|s| - 1] == '_' then [] else AfterLastUnderscore(s[..|s| - 1]) + [s[|s| - 1]]
  }

  /** Reading back the part after the last `_` of `p + "_" + d`. */
  lemma {:induction false} AfterLastUnderscoreOf(p: string, d: string)
    requires '_' !in d
    ensures AfterLastUnderscore(p + "_" + d) == d
    decreases |d|
  {
    var s := p + "_" + d;
    if d != [] {
      assert s[..|s| - 1] == p + "_" + d[..|d| - 1];
      AfterLastUnderscoreOf(p, d[..|d| - 1]);
    }
  }

  /** A string ending in `_` followed by a run of characters without `_` is
      split there in only one way. */
  lemma SplitAtLastUnderscore(p1: string, d1: string, p2: string, d2: string)
    requires '_' !in d1 && '_' !in d2
    requires p1 + "_" + d1 == p2 + "_" + d2
    ensures p1 == p2 && d1 == d2
  {
    var s := p1 + "_" + d1;
    AfterLastUnderscoreOf(p1, d1);
    AfterLastUnderscoreOf(p2, d2);
    assert p1 == s[..|p1|] == p2;
  }

  /** Two event keys are equal exactly when they are for the same kind of
      notice in the same wall-clock second. */
  lemma EventKeyInjective(a: Notice, ta: nat, b: Notice, tb: nat)
    ensures EventKey(a, ta) == EventKey(b, tb) <==> a == b && ta / 1000 == tb / 1000
  {
    if EventKey(a, ta) == EventKey(b, tb) {
      var da, db := DecimalString(ta / 1000), DecimalString(tb / 1000);
      assert '_' !in da && '_' !in db by {
        assert !IsDigit('_');
      }
      SplitAtLastUnderscore(KindTag(a), da, KindTag(b), db);
      DecimalStringInjective(ta / 1000, tb / 1000);
      var ka, kb := KindTag(a), KindTag(b);
      assert ka[0] == kb[0] && |ka| == |kb|;
      assert |ka| > 1 ==> ka[1] == kb[1];
    }
  }

  /** The longest message preview a notification carries. */
  const PREVIEW_LIMIT := 500

  /** A preview longer than 500 characters is cut to its first 497 followed
      by "..." (533-535). */
  function Truncate(s: string): (r: string)
    ensures |r| <= PREVIEW_LIMIT
    ensures |s| <= PREVIEW_LIMIT ==> r == s
    ensures |s| > PREVIEW_LIMIT ==> |r| == PREVIEW_LIMIT && s[..497] <= r && r[497..] == "..."
  {
    if |s| > PREVIEW_LIMIT then s[..497] + "..." else s
  }

  /** The opaque Bahrain-time renderings `formatBahrainTime` and
      `formatBahrainDateTime` (133-156), given as functions of the
      timestamp. */
  datatype Formatter = Formatter(time: int -> string, dateTime: int -> string)
}
