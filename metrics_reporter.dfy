/** `MetricsReporter`: the facade callers use. A builder fixes whether metrics are on, the
    base tags and the manager prefix; each report is gated on the switch and forwarded to
    the manager of that prefix, and an exception is turned into a `message:*` tag on a
    latency report. */
module Reporter {
  import opened JavaNumbers
  import opened Common

  const HOST_TAG: string := "host"
  const CONNECT_TIMEOUT_TAG: string := "message:connect-timeout"
  const READ_TIMEOUT_TAG: string := "message:read-timeout"
  const TIMEOUT_TAG: string := "message:timeout"
  const OTHER_TAG: string := "message:other"

  /** The tag map a report carries: the base tags extended by the caller's `key:value`
      strings. The merge itself (`appendTags`) is not part of this model, so the two
      parts are kept side by side. */
  datatype TagArg = Appended(base: Tags, tagKvs: seq<string>)

  /** A call the reporter makes on the manager of its prefix. */
  datatype ManagerCall =
    | EmitCounter(key: string, value: Long, tags: TagArg)
    | EmitTimer(key: string, value: Long, tags: TagArg)
    | EmitStore(key: string, value: Long, tags: TagArg)

  /** A built reporter: the switch, the base tags and the prefix of its manager. */
  datatype MetricsReporter = MetricsReporter(enableMetrics: bool, baseTags: Tags, managerPrefix: string)

  /** `counter(key, value, tagKvs...)`: nothing when metrics are off, else the counter
      observation with the base tags. */
  function Counter(r: MetricsReporter, key: string, value: Long, tagKvs: seq<string>): (c: Option<ManagerCall>)
    ensures c.None? <==> !r.enableMetrics
    ensures c.Some? ==> c.value.EmitCounter? && c.value.key == key && c.value.value == value &&
                        c.value.tags == Appended(r.baseTags, tagKvs)
  {
    if !r.enableMetrics then None else Some(EmitCounter(key, value, Appended(r.baseTags, tagKvs)))
  }

  /** `timer(key, value, tagKvs...)`: nothing when metrics are off, else the timer sample
      with the base tags. */
  function Timer(r: MetricsReporter, key: string, value: Long, tagKvs: seq<string>): (c: Option<ManagerCall>)
    ensures c.None? <==> !r.enableMetrics
    ensures c.Some? ==> c.value.EmitTimer? && c.value.key == key && c.value.value == value &&
                        c.value.tags == Appended(r.baseTags, tagKvs)
  {
    if !r.enableMetrics then None else Some(EmitTimer(key, value, Appended(r.baseTags, tagKvs)))
  }

  /** `store(key, value, tagKvs...)`: nothing when metrics are off, else the gauge
      observation with the base tags. */
  function Store(r: MetricsReporter, key: string, value: Long, tagKvs: seq<string>): (c: Option<ManagerCall>)
    ensures c.None? <==> !r.enableMetrics
    ensures c.Some? ==> c.value.EmitStore? && c.value.key == key && c.value.value == value &&
                        c.value.tags == Appended(r.baseTags, tagKvs)
  {
    if !r.enableMetrics then None else Some(EmitStore(key, value, Appended(r.baseTags, tagKvs)))
  }

  /** `latency(key, begin, tagKvs...)`: nothing when metrics are off, else a timer sample
      of the time elapsed since `begin` (a Java long subtraction), read at `now`. */
  function Latency(r: MetricsReporter, key: string, begin: Long, tagKvs: seq<string>, now: Millis): (c: Option<ManagerCall>)
    ensures c.None? <==> !r.enableMetrics
    ensures c.Some? ==> c.value.EmitTimer? && c.value.key == key &&
                        c.value.tags == Appended(r.baseTags, tagKvs)
    ensures c.Some? && 0 <= begin <= now ==> c.value.value == now - begin && c.value.value >= 0
    ensures c.Some? ==> (c.value.value - (now - begin)) % TWO_64 == 0
  {
    if !r.enableMetrics then None else Some(EmitTimer(key, SubLong(now, begin), Appended(r.baseTags, tagKvs)))
  }

  /** The classes `exception` tells apart. A `SocketTimeoutException` is also an
      `InterruptedIOException`. */
  datatype ExceptionKind = SocketTimeout | OtherInterruptedIO | OtherException

  predicate IsInterruptedIO(k: ExceptionKind)
  {
    k == SocketTimeout || k == OtherInterruptedIO
  }

  /** An exception as `exception` sees it: its class and its localized message, which
      Java allows to be null (`None`). */
  datatype JavaException = JavaException(kind: ExceptionKind, localizedMessage: Option<string>)

  /** `sub` occurs in `s` starting at position `i`. */
  predicate OccursAt(s: string, sub: string, i: int)
  {
    0 <= i && i + |sub| <= |s| && s[i..i + |sub|] == sub
  }

  /** Java `s.contains(sub)`. */
  predicate Contains(s: string, sub: string)
  {
    exists i :: 0 <= i <= |s| - |sub| && OccursAt(s, sub, i)
  }

  /** The message is present and contains `sub`. */
  predicate Mentions(e: JavaException, sub: string)
  {
    e.localizedMessage.Some? && Contains(e.localizedMessage.value, sub)
  }

  /** The three rules of the classification, before their order is taken into account. */
  predicate ConnectRule(e: JavaException)
  {
    e.kind == SocketTimeout && Mentions(e, "connect timed")
  }

  predicate ReadRule(e: JavaException)
  {
    e.kind == SocketTimeout && Mentions(e, "Read timed")
  }

  predicate TimeoutRule(e: JavaException)
  {
    IsInterruptedIO(e.kind) && Mentions(e, "timeout")
  }

  /** The message tag of `exception`, the first matching rule winning, with a null message
      matching no rule. */
  function MessageTag(e: JavaException): (tag: string)
    ensures tag in {CONNECT_TIMEOUT_TAG, READ_TIMEOUT_TAG, TIMEOUT_TAG, OTHER_TAG}
    ensures tag == CONNECT_TIMEOUT_TAG <==> ConnectRule(e)
    ensures tag == READ_TIMEOUT_TAG <==> ReadRule(e) && !ConnectRule(e)
    ensures tag == TIMEOUT_TAG <==> TimeoutRule(e) && !ConnectRule(e) && !ReadRule(e)
    ensures tag == OTHER_TAG <==> !ConnectRule(e) && !ReadRule(e) && !TimeoutRule(e)
  {
    if e.kind == SocketTimeout && Mentions(e, "connect timed") then CONNECT_TIMEOUT_TAG
    else if e.kind == SocketTimeout && Mentions(e, "Read timed") then READ_TIMEOUT_TAG
    else if IsInterruptedIO(e.kind) && Mentions(e, "timeout") then TIMEOUT_TAG
    else OTHER_TAG
  }

  /** The if-chain of `exception` as the code evaluates it: `getLocalizedMessage()` is
      dereferenced as soon as the `instanceof` test of a rule passes, so a socket timeout
      or another interrupted-I/O exception whose message is null throws a
      `NullPointerException` instead of being classified. Otherwise it agrees with
      `MessageTag`. */
  function MessageTagAsWritten(e: JavaException): (r: Result<string>)
    ensures r.Threw? <==> IsInterruptedIO(e.kind) && e.localizedMessage.None?
    ensures r.Ok? ==> r.value == MessageTag(e)
  {
    if e.kind == SocketTimeout && e.localizedMessage.None? then Threw("NullPointerException")
    else if e.kind == SocketTimeout && Contains(e.localizedMessage.value, "connect timed") then Ok(CONNECT_TIMEOUT_TAG)
    else if e.kind == SocketTimeout && Contains(e.localizedMessage.value, "Read timed") then Ok(READ_TIMEOUT_TAG)
    else if IsInterruptedIO(e.kind) && e.localizedMessage.None? then Threw("NullPointerException")
    else if IsInterruptedIO(e.kind) && Contains(e.localizedMessage.value, "timeout") then Ok(TIMEOUT_TAG)
    else Ok(OTHER_TAG)
  }

  /** The tag array `exception` passes on: the caller's tags, in order, then the message tag. */
  function ExceptionTags(tagKvs: seq<string>, msgTag: string): (newTagKvs: seq<string>)
    ensures |newTagKvs| == |tagKvs| + 1
    ensures newTagKvs[..|tagKvs|] == tagKvs
    ensures newTagKvs[|tagKvs|] == msgTag
  {
    tagKvs + [msgTag]
  }

  /** `exception(key, begin, e, tagKvs...)` with a null message classified as `other`: a
      latency report whose tags are the caller's followed by the message tag. */
  function Exception(r: MetricsReporter, key: string, begin: Long, e: JavaException, tagKvs: seq<string>,
                     now: Millis): (c: Option<ManagerCall>)
    ensures c.None? <==> !r.enableMetrics
    ensures c.Some? ==>
      c.value == EmitTimer(key, SubLong(now, begin), Appended(r.baseTags, tagKvs + [MessageTag(e)]))
  {
    Latency(r, key, begin, ExceptionTags(tagKvs, MessageTag(e)), now)
  }

  /** `exception` as the code evaluates it: the classification runs before the switch is
      consulted, so its `NullPointerException` escapes even when metrics are off. */
  function ExceptionAsWritten(r: MetricsReporter, key: string, begin: Long, e: JavaException,
                              tagKvs: seq<string>, now: Millis): (c: Result<Option<ManagerCall>>)
    ensures c.Threw? <==> IsInterruptedIO(e.kind) && e.localizedMessage.None?
    ensures c.Ok? ==> c.value == Exception(r, key, begin, e, tagKvs, now)
  {
    var msgTag := MessageTagAsWritten(e);
    if msgTag.Threw? then Threw(msgTag.exception)
    else Ok(Latency(r, key, begin, ExceptionTags(tagKvs, msgTag.value), now))
  }

  /** A socket timeout without a message makes `exception` throw where the classification
      evidently meant to report `message:other`, whether or not metrics are on. */
  lemma NullMessageThrows(r: MetricsReporter, key: string, begin: Long, tagKvs: seq<string>, now: Millis)
    ensures var e := JavaException(SocketTimeout, None);
      ExceptionAsWritten(r, key, begin, e, tagKvs, now).Threw? &&
      MessageTag(e) == OTHER_TAG
  {
  }

  /** OkHttp's connect timeout ("connect timed out") is tagged `message:connect-timeout`. */
  lemma ConnectTimedOut()
    ensures MessageTag(JavaException(SocketTimeout, Some("connect timed out"))) == CONNECT_TIMEOUT_TAG
  {
    assert OccursAt("connect timed out", "connect timed", 0);
  }

  /** A socket timeout whose message names neither a connect nor a read timeout falls
      through to the interrupted-I/O rule. */
  lemma SocketTimeoutFallsThrough()
    ensures MessageTag(JavaException(SocketTimeout, Some("timeout"))) == TIMEOUT_TAG
  {
    var e := JavaException(SocketTimeout, Some("timeout"));
    assert OccursAt("timeout", "timeout", 0);
    assert !Mentions(e, "connect timed") && !Mentions(e, "Read timed");
  }

  /** Only interrupted-I/O exceptions are ever classified: any other exception is tagged
      `message:other`, whatever its message. */
  lemma {:induction false} OtherExceptionIsOther(message: Option<string>)
    ensures MessageTag(JavaException(OtherException, message)) == OTHER_TAG
  {
    assert !IsInterruptedIO(OtherException);
  }

  /** `ReporterBuilder`: its setters ignore null and empty values, so a set prefix or set
      of base tags is never empty. */
  class ReporterBuilder {
    var enableMetrics: bool
    var baseTags: Option<Tags>
    var prefix: Option<string>

    ghost predicate Valid()
      reads this`baseTags, this`prefix
    {
      (baseTags.Some? ==> baseTags.value != map[]) && (prefix.Some? ==> prefix.value != "")
    }

    constructor ()
      ensures Valid() && !enableMetrics && baseTags == None && prefix == None
    {
      enableMetrics := false;
      baseTags := None;
      prefix := None;
    }

    /** `enableMetrics(flag)`. */
    method EnableMetrics(enableMetrics: bool)
      modifies this`enableMetrics
      ensures this.enableMetrics == enableMetrics
    {
      this.enableMetrics := enableMetrics;
    }

    /** `baseTags(tags)`: a null or empty map leaves the setting as it was. */
    method BaseTags(baseTags: Option<Tags>)
      requires Valid()
      modifies this`baseTags
      ensures Valid()
      ensures baseTags.Some? && baseTags.value != map[] ==> this.baseTags == baseTags
      ensures baseTags.None? || baseTags.value == map[] ==> this.baseTags == old(this.baseTags)
    {
      if baseTags.Some? && baseTags.value != map[] {
        this.baseTags := baseTags;
      }
    }

    /** `prefix(p)`: a null or empty prefix leaves the setting as it was. */
    method Prefix(prefix: Option<string>)
      requires Valid()
      modifies this`prefix
      ensures Valid()
      ensures prefix.Some? && prefix.value != "" ==> this.prefix == prefix
      ensures prefix.None? || prefix.value == "" ==> this.prefix == old(this.prefix)
    {
      if prefix.Some? && prefix.value != "" {
        this.prefix := prefix;
      }
    }

    /** `build()`: unset base tags become an empty map, `host` is put into them (the
      builder keeps the result), an unset prefix becomes `defaultPrefix`, and the reporter
      takes the switch, the base tags and the manager of the prefix. `hostAddr` is the
      local host address. */
    method Build(hostAddr: string, defaultPrefix: string) returns (reporter: MetricsReporter)
      requires Valid()
      modifies this`baseTags, this`prefix
      ensures baseTags.Some? && prefix.Some?
      ensures reporter == MetricsReporter(enableMetrics, baseTags.value, prefix.value)
      ensures HOST_TAG in reporter.baseTags && reporter.baseTags[HOST_TAG] == hostAddr
      ensures old(baseTags).None? ==> reporter.baseTags == map[HOST_TAG := hostAddr]
      ensures old(baseTags).Some? ==> reporter.baseTags == old(baseTags).value[HOST_TAG := hostAddr]
      ensures old(prefix).Some? ==> reporter.managerPrefix == old(prefix).value
      ensures old(prefix).None? ==> reporter.managerPrefix == defaultPrefix
      ensures defaultPrefix != "" ==> reporter.managerPrefix != ""
    {
      if baseTags.None? {
        baseTags := Some(map[]);
      }
      baseTags := Some(baseTags.value[HOST_TAG := hostAddr]);
      if prefix.None? || prefix.value == "" {
        prefix := Some(defaultPrefix);
      }
      reporter := MetricsReporter(enableMetrics, baseTags.value, prefix.value);
    }
  }
}
