/** Types shared by every part of the metrics client, and the collaborators whose
    code is not part of this model (the tag helpers and the package constants),
    which the model receives as values. */
module Common {
  import opened JavaNumbers

  datatype Option<+T> = None | Some(value: T)

  /** A Java call that either returns a value or throws. */
  datatype Result<+T> = Ok(value: T) | Threw(exception: string)

  /** A tag mapping, key to value. A Dafny map has no iteration order, so it already
      stands for the sorted `TreeMap` copies the source builds before encoding. */
  type Tags = map<string, string>

  /** A reading of the wall clock, in milliseconds since the epoch. */
  type Millis = x: int | 0 <= x <= LONG_MAX

  /** `MAX_FLUSH_SIZE` is a positive Java `int`. */
  type FlushSize = x: int | 0 < x <= INT_MAX witness 1

  /** The tag helpers: `processTags` turns a tag mapping into its signature string and
      `recoverTags` turns a signature back into a mapping. Their definitions are not
      part of this model, so nothing is assumed about them. */
  datatype TagCodec = TagCodec(processTags: Tags -> string, recoverTags: string -> Tags)

  /** The constants the metrics code reads from its package's `Constant` class and from
      the metrics configuration: the two destination URLs already have the configured
      domain substituted into their format strings. */
  datatype Settings = Settings(
    maxFlushSize: FlushSize,   // items drained per flush
    itemExpireMs: Long,        // default lifetime of a queued item
    codec: TagCodec,
    counterUrl: string,        // where counters are delivered
    otherUrl: string)          // where stores and timers are delivered

  function Min(a: int, b: int): int { if a <= b then a else b }

  /** `System.currentTimeMillis() / 1000L`: the unix-seconds timestamp of a flush.
      The clock is never negative, so Java's truncating division agrees with Dafny's. */
  function UnixSeconds(now: Millis): (s: Long)
    ensures s * 1000 <= now < s * 1000 + 1000
  {
    now / 1000
  }
}
