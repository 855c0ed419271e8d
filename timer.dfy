/** `Timer`: a series of raw durations for one name and one tag set. Each flush feeds
    the queued samples into a sliding-window reservoir, consumes its snapshot and reports
    ten summary points. */
module Timers {
  import opened JavaNumbers
  import opened Common
  import opened Requests
  import opened Expiry
  import opened Transport
  import opened SlidingWindow

  /** Default flush period of the three-argument constructor. */
  const DEFAULT_FLUSH_TIME: Int := 10 * 1000

  /** The name suffixes of a timer's report, in the order they are built. */
  const SUFFIXES: seq<string> :=
    ["count", "max", "min", "avg", "median", "pct75", "pct90", "pct95", "pct99", "pct999"]

  /** The floating-point summaries of a snapshot: mean, median and the 75th, 90th, 95th,
      99th and 99.9th percentiles. */
  datatype FloatStats = FloatStats(mean: real, median: real, p75: real, p90: real,
                                   p95: real, p99: real, p999: real)

  /** `UniformSnapshot.getMax`: the largest sample, or 0 for an empty window. */
  function SnapshotMax(values: seq<Long>): (r: Long)
    ensures values == [] ==> r == 0
    ensures values != [] ==> r in values && forall i :: 0 <= i < |values| ==> values[i] <= r
    decreases |values|
  {
    if values == [] then 0
    else if |values| == 1 then values[0]
    else
      var rest := SnapshotMax(values[1..]);
      assert forall i :: 1 <= i < |values| ==> values[i] == values[1..][i - 1];
      if values[0] >= rest then values[0] else rest
  }

  /** `UniformSnapshot.getMin`: the smallest sample, or 0 for an empty window. */
  function SnapshotMin(values: seq<Long>): (r: Long)
    ensures values == [] ==> r == 0
    ensures values != [] ==> r in values && forall i :: 0 <= i < |values| ==> r <= values[i]
    decreases |values|
  {
    if values == [] then 0
    else if |values| == 1 then values[0]
    else
      var rest := SnapshotMin(values[1..]);
      assert forall i :: 1 <= i < |values| ==> values[i] == values[1..][i - 1];
      if values[0] <= rest then values[0] else rest
  }

  /** `buildMetricList(shot, size)`: ten requests, one per suffix in the fixed order, all
      sharing one timestamp and each carrying the timer's tag map. Count is the number of
      samples drained, max and min come from the snapshot, the rest from its
      floating-point summaries `stats`. */
  function BuildMetricList(name: string, tagMap: Tags, shot: seq<Long>, stats: FloatStats,
                           size: Int, timestamp: Long): (data: Batch<Num>)
    requires size >= 0
    ensures |data| == |SUFFIXES| == 10
    ensures forall i :: 0 <= i < 10 ==>
      data[i].metric == name + "." + SUFFIXES[i] && data[i].timestamp == timestamp && data[i].tags == tagMap
    ensures data[0].value == LongValue(size)
    ensures data[1].value == LongValue(SnapshotMax(shot))
    ensures data[2].value == LongValue(SnapshotMin(shot))
    ensures data[3].value == DoubleValue(stats.mean) && data[4].value == DoubleValue(stats.median)
    ensures data[5].value == DoubleValue(stats.p75) && data[6].value == DoubleValue(stats.p90)
    ensures data[7].value == DoubleValue(stats.p95) && data[8].value == DoubleValue(stats.p99)
    ensures data[9].value == DoubleValue(stats.p999)
  {
    [ MetricRequest(name + "." + "count", timestamp, LongValue(size), tagMap),
      MetricRequest(name + "." + "max", timestamp, LongValue(SnapshotMax(shot)), tagMap),
      MetricRequest(name + "." + "min", timestamp, LongValue(SnapshotMin(shot)), tagMap),
      MetricRequest(name + "." + "avg", timestamp, DoubleValue(stats.mean), tagMap),
      MetricRequest(name + "." + "median", timestamp, DoubleValue(stats.median), tagMap),
      MetricRequest(name + "." + "pct75", timestamp, DoubleValue(stats.p75), tagMap),
      MetricRequest(name + "." + "pct90", timestamp, DoubleValue(stats.p90), tagMap),
      MetricRequest(name + "." + "pct95", timestamp, DoubleValue(stats.p95), tagMap),
      MetricRequest(name + "." + "pct99", timestamp, DoubleValue(stats.p99), tagMap),
      MetricRequest(name + "." + "pct999", timestamp, DoubleValue(stats.p999), tagMap) ]
  }

  class Timer {
    const name: string
    const tagMap: Tags
    const settings: Settings
    const flushTimeMs: Int
    const httpCli: MetricsHttpClient
    const reservoir: LockFreeSlidingWindowReservoir
    const expirableMetrics: ExpirableMetrics
    var queue: seq<Long>
    var closed: bool

    ghost predicate Valid()
      reads reservoir
    {
      reservoir.Valid()
    }

    /** `new Timer(name, tags, reservoir, flushTimeMs)`: the tag map is recovered from the
      signature once, here. The periodic flush it schedules is not part of this model. */
    constructor (name: string, tags: string, reservoir: LockFreeSlidingWindowReservoir, flushTimeMs: Int,
                 settings: Settings, transports: HttpClientCache, now: Millis)
      requires transports.Valid()
      modifies transports`clients
      ensures transports.Valid()
      ensures settings.otherUrl in transports.clients && httpCli == transports.clients[settings.otherUrl]
      ensures transports.clients == old(transports.clients)[settings.otherUrl := httpCli]
      ensures this.name == name && tagMap == settings.codec.recoverTags(tags)
      ensures this.reservoir == reservoir && this.flushTimeMs == flushTimeMs && this.settings == settings
      ensures httpCli.url == settings.otherUrl
      ensures fresh(expirableMetrics) && expirableMetrics.expireTime == AddLong(now, Expiry.DEFAULT_EXPIRE_TIME_MS)
      ensures queue == [] && !closed
    {
      var cli := transports.GetClient(settings.otherUrl);
      httpCli := cli;
      this.name := name;
      tagMap := settings.codec.recoverTags(tags);
      this.reservoir := reservoir;
      this.flushTimeMs := flushTimeMs;
      this.settings := settings;
      expirableMetrics := new ExpirableMetrics(now);
      queue := [];
      closed := false;
    }

    predicate IsExpired(now: Millis)
      reads expirableMetrics
    {
      expirableMetrics.IsExpired(now)
    }

    method UpdateExpireTime(now: Millis, ttlInMs: Long)
      modifies expirableMetrics
      ensures expirableMetrics.expireTime == RefreshedDeadline(old(expirableMetrics.expireTime), now, ttlInMs)
    {
      expirableMetrics.UpdateExpireTime(now, ttlInMs);
    }

    /** `emit(value)`: the sample joins the tail of the queue. */
    method Emit(value: Long)
      modifies this`queue
      ensures queue == old(queue) + [value]
    {
      queue := queue + [value];
    }

    /** `flush()`: moves `min(MAX_FLUSH_SIZE, |queue|)` samples, oldest first, into the
      reservoir, consumes its snapshot and emits the ten-point report of that snapshot,
      even when nothing was drained. `stats` gives the floating-point summaries of a
      snapshot. The reservoir is empty afterwards. */
    method Flush(now: Millis, stats: seq<Long> -> FloatStats, net: Network) returns (sent: Batch<Num>)
      requires Valid()
      modifies this`queue, reservoir, httpCli`log
      ensures Valid()
      ensures httpCli.log == old(httpCli.log) + [sent]
      ensures var k := Min(settings.maxFlushSize, |old(queue)|);
        var shot := Fed(old(reservoir.measurements), old(reservoir.count), old(queue)[..k]);
        queue == old(queue)[k..] &&
        reservoir.measurements == [] &&
        reservoir.count == WrapLong(old(reservoir.count) + k) &&
        sent == BuildMetricList(name, tagMap, shot, stats(shot), k, UnixSeconds(now))
    {
      var size := DrainIntoReservoir();
      var shot := reservoir.GetSnapshot();
      sent := BuildMetricList(name, tagMap, shot, stats(shot), size, UnixSeconds(now));
      var _, _ := httpCli.Emit(sent, net);
    }

    /** The poll loop of `flush()`: `size` samples, oldest first, go from the queue into
      the reservoir, one `update` each. */
    method DrainIntoReservoir() returns (size: Int)
      requires Valid()
      modifies this`queue, reservoir
      ensures Valid()
      ensures size == Min(settings.maxFlushSize, |old(queue)|)
      ensures queue == old(queue)[size..]
      ensures reservoir.measurements == Fed(old(reservoir.measurements), old(reservoir.count), old(queue)[..size])
      ensures reservoir.count == WrapLong(old(reservoir.count) + size)
    {
      ghost var queue0 := queue;
      ghost var m0, c0 := reservoir.measurements, reservoir.count;
      ghost var k := Min(settings.maxFlushSize, |queue|);
      size := 0;
      while size < settings.maxFlushSize && queue != []
        invariant 0 <= size <= k
        invariant queue == queue0[size..]
        invariant reservoir.Valid()
        invariant reservoir.measurements == Fed(m0, c0, queue0[..size])
        invariant reservoir.count == WrapLong(c0 + size)
        decreases settings.maxFlushSize - size
      {
        var item := queue[0];
        queue := queue[1..];
        FedStep(m0, c0, queue0, size);
        reservoir.Update(item);
        CountStep(c0, size);
        size := size + 1;
      }
    }

    /** `close()`: stops the periodic flush. */
    method Close()
      modifies this`closed
      ensures closed
    {
      closed := true;
    }
  }

  /** A reservoir that starts empty and receives fewer samples than its capacity reports
      exactly those samples: count is how many were drained, max is the largest of them
      and min the smallest (so 1, 2, 3, 4, 5 report count 5, max 5 and min 1). */
  lemma {:induction false} FreshWindowReport(name: string, tagMap: Tags, count: Long, drained: seq<Long>,
                                             stats: FloatStats, timestamp: Long)
    requires 0 < |drained| <= DEFAULT_MAX_WINDOW_SIZE
    ensures var data := BuildMetricList(name, tagMap, Fed([], count, drained), stats, |drained|, timestamp);
      data[0].value == LongValue(|drained|) &&
      data[1].value.LongValue? && data[1].value.l in drained &&
      (forall i :: 0 <= i < |drained| ==> drained[i] <= data[1].value.l) &&
      data[2].value.LongValue? && data[2].value.l in drained &&
      (forall i :: 0 <= i < |drained| ==> data[2].value.l <= drained[i])
  {
    FedAppends([], count, drained);
    assert [] + drained == drained;
  }

  /** Every reported max and min is a sample that was in the reservoir before the flush
      or was drained in it. */
  lemma {:induction false} ExtremesComeFromWindow(m: seq<Long>, count: Long, drained: seq<Long>)
    requires m != [] || drained != []
    ensures var shot := Fed(m, count, drained);
      (SnapshotMax(shot) in m || SnapshotMax(shot) in drained) &&
      (SnapshotMin(shot) in m || SnapshotMin(shot) in drained)
  {
    var shot := Fed(m, count, drained);
    FedSamplesFromInputs(m, count, drained);
    if drained == [] {
      assert shot == m;
    } else {
      assert drained[|drained| - 1] in shot;
    }
  }
}
