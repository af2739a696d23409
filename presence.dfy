/**
 * The two presence predicates: the conservative "Jarif is offline" check
 * made before every message and activity notification
 * (firebase-notification-server.js:231-265) and the "Fidha is actually
 * active" reading of Fidha's presence record (810-816).
 */
module Presence {
  import opened Basics

  /** Jarif counts as online only with a heartbeat at most this old. */
  const JARIF_HEARTBEAT_LIMIT_MS := 60000
  /** Fidha counts as active only with a heartbeat younger than this. */
  const FIDHA_HEARTBEAT_WINDOW_MS := 10000

  /** A presence record as stored for a user: `online` holds when the stored
      flag is the boolean `true` (any other value reads as false), and
      `heartbeat` is 0 when the field is missing. */
  datatype PresenceRecord = PresenceRecord(online: bool, heartbeat: int)

  /** `checkJarifPresenceDirectly()`: a failed read or a missing record
      counts as offline; otherwise offline when the flag is not set or the
      heartbeat is more than 60 s old. */
  predicate JarifOffline(read: Read<PresenceRecord>, now: int) {
    match read
    case Failed => true
    case Missing => true
    case Found(p) => !p.online || now - p.heartbeat > JARIF_HEARTBEAT_LIMIT_MS
  }

  /** Jarif is seen online only through a record with the flag set and a
      heartbeat within the last 60 s; anything unknown reads as offline. */
  lemma JarifOnlineOnlyWhenFresh(read: Read<PresenceRecord>, now: int)
    ensures !JarifOffline(read, now) <==>
      read.Found? && read.value.online && read.value.heartbeat >= now - JARIF_HEARTBEAT_LIMIT_MS
  {
  }

  /** For a fixed record, offline stays offline as time passes: staleness
      never turns back into presence without a new heartbeat. */
  lemma JarifOfflineMonotone(read: Read<PresenceRecord>, now: int, later: int)
    requires now <= later
    requires JarifOffline(read, now)
    ensures JarifOffline(read, later)
  {
  }

  /** A set flag with a fresh heartbeat turns offline exactly when the
      heartbeat becomes older than 60 s. */
  lemma JarifGoesOfflineAtLimit(p: PresenceRecord, now: int)
    requires p.online
    ensures JarifOffline(Found(p), now) <==> now > p.heartbeat + JARIF_HEARTBEAT_LIMIT_MS
  {
  }

  /** The presence listener's `actuallyActive`: a record exists, its flag is
      set and its heartbeat is less than 10 s old. */
  predicate FidhaActive(val: Option<PresenceRecord>, now: int) {
    match val
    case None => false
    case Some(p) => p.online && now - p.heartbeat < FIDHA_HEARTBEAT_WINDOW_MS
  }

  /** For a fixed record, once Fidha reads inactive, Fidha stays inactive. */
  lemma FidhaInactiveMonotone(val: Option<PresenceRecord>, now: int, later: int)
    requires now <= later
    requires !FidhaActive(val, now)
    ensures !FidhaActive(val, later)
  {
  }

  /** The 10 s window is the stricter one: a record that makes Fidha active
      would also make its owner count as online under the 60 s rule. */
  lemma ActiveWindowIsStricter(p: PresenceRecord, now: int)
    requires FidhaActive(Some(p), now)
    ensures !JarifOffline(Found(p), now)
  {
  }
}
