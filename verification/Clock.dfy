/** Time stamps: an ISO-8601 text is either absent, unreadable, or an instant. */
module Clock {

  datatype Stamp = Missing | Malformed(text: string) | At(instant: nat)

  /** `stamp or _utc_now()` */
  function OrNow(stamp: Stamp, now: nat): Stamp {
    if stamp.Missing? then At(now) else stamp
  }
}
