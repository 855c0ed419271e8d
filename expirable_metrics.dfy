/** `ExpirableMetrics`: a deadline relative to the clock, refreshed by each lookup. */
module Expiry {
  import opened JavaNumbers
  import opened Common

  /** Twelve hours, the lifetime of a series that is never refreshed. */
  const DEFAULT_EXPIRE_TIME_MS: Long := 12 * 60 * 60 * 1000

  /** A deadline has passed only once the clock is strictly beyond it. */
  predicate DeadlinePassed(deadline: Long, now: Millis)
  {
    now > deadline
  }

  /** The deadline after `updateExpireTime(ttl)` at time `now`: a positive ttl sets it to
      `now + ttl` (long arithmetic), a non-positive one leaves it as it was. */
  function RefreshedDeadline(deadline: Long, now: Millis, ttl: Long): (d: Long)
    ensures ttl <= 0 ==> d == deadline
    ensures ttl > 0 && now + ttl <= LONG_MAX ==> d == now + ttl
  {
    if ttl > 0 then AddLong(now, ttl) else deadline
  }

  /** After a refresh with a positive ttl (and no overflow), the deadline has passed at a
      later time exactly when that time is beyond `now + ttl`, whatever it was before. */
  lemma RefreshedDeadlinePassed(deadline: Long, now: Millis, ttl: Long, later: Millis)
    requires 0 < ttl && now + ttl <= LONG_MAX
    ensures DeadlinePassed(RefreshedDeadline(deadline, now, ttl), later) <==> later > now + ttl
  {
  }

  class ExpirableMetrics {
    var expireTime: Long

    /** A new series lives for twelve hours unless refreshed. */
    constructor (now: Millis)
      ensures expireTime == AddLong(now, DEFAULT_EXPIRE_TIME_MS)
    {
      expireTime := AddLong(now, DEFAULT_EXPIRE_TIME_MS);
    }

    predicate IsExpired(now: Millis)
      reads this
    {
      DeadlinePassed(expireTime, now)
    }

    method UpdateExpireTime(now: Millis, ttlInMs: Long)
      modifies this
      ensures expireTime == RefreshedDeadline(old(expireTime), now, ttlInMs)
    {
      if ttlInMs > 0 {
        expireTime := AddLong(now, ttlInMs);
      }
    }
  }
}
