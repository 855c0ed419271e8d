/** `Counter`: a series whose observations are summed per tag signature over each flush
    window and reset once reported. */
module Counters {
  import opened JavaNumbers
  import opened Common
  import opened Requests
  import opened Items
  import opened Expiry
  import opened Transport

  /** Default flush period of the one-argument constructor. */
  const DEFAULT_EXPIRE_TIME_MS: Int := 10 * 1000

  /** One poll of `flush()`: the first item of a signature creates a request holding its
      value, named after the series and tagged with the recovered tags; a later one adds
      its value to that request (long arithmetic). */
  function SumStep(acc: map<string, MetricRequest<Long>>, it: Item<Long>, name: string,
                   recover: string -> Tags): map<string, MetricRequest<Long>>
  {
    if it.tags in acc then acc[it.tags := acc[it.tags].(value := AddLong(acc[it.tags].value, it.value))]
    else acc[it.tags := MetricRequest(name, 0, it.value, recover(it.tags))]
  }

  /** The aggregation map after folding `items`, oldest first, into `m`. */
  function SumInto(m: map<string, MetricRequest<Long>>, items: seq<Item<Long>>, name: string,
                   recover: string -> Tags): map<string, MetricRequest<Long>>
    decreases |items|
  {
    if items == [] then m
    else SumStep(SumInto(m, items[..|items| - 1], name, recover), items[|items| - 1], name, recover)
  }

  /** Reference definition: the exact sum of the values of the items tagged `sig`. */
  function SumOf(items: seq<Item<Long>>, sig: string): int
    decreases |items|
  {
    if items == [] then 0
    else
      var it := items[|items| - 1];
      SumOf(items[..|items| - 1], sig) + (if it.tags == sig then it.value else 0)
  }

  lemma {:induction false} SumOfAbsent(items: seq<Item<Long>>, sig: string)
    requires sig !in Signatures(items)
    ensures SumOf(items, sig) == 0
    decreases |items|
  {
    if items != [] {
      SignaturesSnoc(items);
      SumOfAbsent(items[..|items| - 1], sig);
    }
  }

  /** A signature is pending after the fold exactly when it was pending before or occurs
      in the window. */
  lemma {:induction false} SumIntoHas(m: map<string, MetricRequest<Long>>, items: seq<Item<Long>>,
                                      name: string, recover: string -> Tags, sig: string)
    ensures sig in SumInto(m, items, name, recover) <==> sig in m || sig in Signatures(items)
    decreases |items|
  {
    if items != [] {
      SumIntoHas(m, items[..|items| - 1], name, recover, sig);
      SignaturesSnoc(items);
    }
  }

  /** One poll on a pending entry whose value is the narrowed running sum `x`: the entry
      keeps its other fields and its value becomes the narrowed `x` plus the item's value
      when the item carries its signature. */
  lemma SumStepPending(acc: map<string, MetricRequest<Long>>, it: Item<Long>, name: string,
                       recover: string -> Tags, sig: string, r0: MetricRequest<Long>, x: int)
    requires sig in acc && acc[sig] == r0.(value := WrapLong(x))
    ensures sig in SumStep(acc, it, name, recover)
    ensures SumStep(acc, it, name, recover)[sig] ==
      r0.(value := WrapLong(x + (if it.tags == sig then it.value else 0)))
  {
    if it.tags == sig {
      WrapLongAdd(x, it.value);
    }
  }

  /** One signature at a time, already pending: the entry gains the window's sum,
      narrowed to a Java long, and keeps its name, timestamp and tags. */
  lemma {:induction false} SumIntoPending(m: map<string, MetricRequest<Long>>, items: seq<Item<Long>>,
                                          name: string, recover: string -> Tags, sig: string)
    requires sig in m
    ensures sig in SumInto(m, items, name, recover)
    ensures SumInto(m, items, name, recover)[sig] == m[sig].(value := WrapLong(m[sig].value + SumOf(items, sig)))
    decreases |items|
  {
    if items != [] {
      var n := |items| - 1;
      SumIntoPending(m, items[..n], name, recover, sig);
      SumStepPending(SumInto(m, items[..n], name, recover), items[n], name, recover,
                     sig, m[sig], m[sig].value + SumOf(items[..n], sig));
    }
  }

  /** One signature at a time, new in this window: the entry holds the window's sum
      alone, narrowed to a Java long, named after the series with the recovered tags. */
  lemma {:induction false} SumIntoNew(m: map<string, MetricRequest<Long>>, items: seq<Item<Long>>,
                                      name: string, recover: string -> Tags, sig: string)
    requires sig !in m && sig in Signatures(items)
    ensures sig in SumInto(m, items, name, recover)
    ensures SumInto(m, items, name, recover)[sig] == MetricRequest(name, 0, WrapLong(SumOf(items, sig)), recover(sig))
    decreases |items|
  {
    var n := |items| - 1;
    var init := items[..n];
    var it := items[n];
    SignaturesSnoc(items);
    if sig in Signatures(init) {
      SumIntoNew(m, init, name, recover, sig);
      SumStepPending(SumInto(m, init, name, recover), it, name, recover,
                     sig, MetricRequest(name, 0, 0, recover(sig)), SumOf(init, sig));
    } else {
      SumIntoHas(m, init, name, recover, sig);
      SumOfAbsent(init, sig);
    }
  }

  /** Sum and reset, for the whole map: one entry per signature pending before or seen in
      the window (each entry's value is given by `SumIntoPending` and `SumIntoNew`). */
  lemma SumIntoKeys(m: map<string, MetricRequest<Long>>, items: seq<Item<Long>>,
                    name: string, recover: string -> Tags)
    ensures SumInto(m, items, name, recover).Keys == m.Keys + Signatures(items)
  {
    var r := SumInto(m, items, name, recover);
    forall sig | sig in r || sig in m || sig in Signatures(items)
      ensures sig in r <==> sig in m || sig in Signatures(items)
    {
      SumIntoHas(m, items, name, recover, sig);
    }
  }

  /** The end-to-end case: within one window, k observations with one signature, starting
      from an empty map, become exactly one request carrying their sum. */
  lemma OneSignatureOneRequest(items: seq<Item<Long>>, sig: string, name: string, recover: string -> Tags)
    requires items != [] && forall i :: 0 <= i < |items| ==> items[i].tags == sig
    ensures SumInto(map[], items, name, recover).Keys == {sig}
    ensures SumInto(map[], items, name, recover)[sig].value == WrapLong(SumOf(items, sig))
  {
    SumIntoKeys(map[], items, name, recover);
    SumIntoNew(map[], items, name, recover, sig);
    assert items[0].tags in Signatures(items);
  }

  class Counter {
    const name: string
    const settings: Settings
    const flushTimeMs: Int
    const httpCli: MetricsHttpClient
    const expirableMetrics: ExpirableMetrics
    var valueMap: map<string, MetricRequest<Long>>
    var queue: seq<Item<Long>>
    var closed: bool

    /** `new Counter(name, flushTimeMs)`: an empty series bound to the counter transport,
      living twelve hours until first refreshed. The periodic flush it schedules is not
      part of this model. */
    constructor (name: string, flushTimeMs: Int, settings: Settings, transports: HttpClientCache, now: Millis)
      requires transports.Valid()
      modifies transports`clients
      ensures transports.Valid()
      ensures settings.counterUrl in transports.clients && httpCli == transports.clients[settings.counterUrl]
      ensures transports.clients == old(transports.clients)[settings.counterUrl := httpCli]
      ensures this.name == name && this.flushTimeMs == flushTimeMs && this.settings == settings
      ensures httpCli.url == settings.counterUrl
      ensures fresh(expirableMetrics) && expirableMetrics.expireTime == AddLong(now, Expiry.DEFAULT_EXPIRE_TIME_MS)
      ensures valueMap == map[] && queue == [] && !closed
    {
      this.name := name;
      this.flushTimeMs := flushTimeMs;
      this.settings := settings;
      var cli := transports.GetClient(settings.counterUrl);
      httpCli := cli;
      expirableMetrics := new ExpirableMetrics(now);
      valueMap := map[];
      queue := [];
      closed := false;
    }

    predicate IsExpired(now: Millis)
      reads expirableMetrics
    {
      expirableMetrics.IsExpired(now)
    }

    method UpdateExpireTime(now: Millis, ttlInMs: Long)
      modifies expirableMetrics
      ensures expirableMetrics.expireTime == RefreshedDeadline(old(expirableMetrics.expireTime), now, ttlInMs)
    {
      expirableMetrics.UpdateExpireTime(now, ttlInMs);
    }

    /** `emit(value, tags)`: one item, keyed by the signature of the sorted tags, joins the
      tail of the queue; the aggregation map is left alone. */
    method Emit(value: Long, tags: Tags, now: Millis)
      modifies this`queue
      ensures queue == old(queue) + [DefaultItem(settings.codec.processTags(tags), value, now, settings.itemExpireMs)]
    {
      var tag := settings.codec.processTags(tags);
      var item := DefaultItem(tag, value, now, settings.itemExpireMs);
      queue := queue + [item];
    }

    /** `flush()`: polls `min(MAX_FLUSH_SIZE, |queue|)` items from the front and sums them
      into the map; then every pending request is taken out of the map, stamped with one
      shared timestamp and emitted as one batch, whose order is the map's iteration
      order `order`. Nothing is sent when nothing is pending. Whatever the transport does,
      including throwing, the flush completes normally. */
    method Flush(now: Millis, net: Network) returns (sent: Option<Batch<Long>>, order: seq<string>)
      modifies this`valueMap, this`queue, httpCli`log
      ensures var k := Min(settings.maxFlushSize, |old(queue)|);
        var pending := SumInto(old(valueMap), old(queue)[..k], name, settings.codec.recoverTags);
        queue == old(queue)[k..] &&
        valueMap == map[] &&
        (sent.None? <==> pending == map[]) &&
        (sent.None? ==> httpCli.log == old(httpCli.log)) &&
        (sent.Some? ==> Lists(order, pending.Keys) &&
                        sent.value == StampedBatch(pending, order, UnixSeconds(now)) &&
                        |sent.value| == |pending.Keys| &&
                        httpCli.log == old(httpCli.log) + [LongBatch(sent.value)])
    {
      var _ := DrainIntoMap();
      sent, order := Report(now, net);
    }

    /** The poll loop of `flush()`: `size` items, oldest first, leave the queue and are
      summed into the map by signature. */
    method DrainIntoMap() returns (size: Int)
      modifies this`valueMap, this`queue
      ensures size == Min(settings.maxFlushSize, |old(queue)|)
      ensures queue == old(queue)[size..]
      ensures valueMap == SumInto(old(valueMap), old(queue)[..size], name, settings.codec.recoverTags)
    {
      ghost var queue0 := queue;
      ghost var k := Min(settings.maxFlushSize, |queue|);
      size := 0;
      while size < settings.maxFlushSize && queue != []
        invariant 0 <= size <= k
        invariant queue == queue0[size..]
        invariant valueMap == SumInto(old(valueMap), queue0[..size], name, settings.codec.recoverTags)
        decreases settings.maxFlushSize - size
      {
        var item := queue[0];
        queue := queue[1..];
        if item.tags !in valueMap {
          valueMap := valueMap[item.tags := MetricRequest(name, 0, item.value, settings.codec.recoverTags(item.tags))];
        } else {
          var tmp := valueMap[item.tags].value;
          tmp := AddLong(tmp, item.value);
          valueMap := valueMap[item.tags := valueMap[item.tags].(value := tmp)];
        }
        assert queue0[..size + 1][..size] == queue0[..size];
        size := size + 1;
      }
    }

    /** The report step of `flush()`: when anything is pending, every pending request
      leaves the map, is stamped with one timestamp and the batch, in the map's iteration
      order `order`, goes to the transport; otherwise nothing is sent. */
    method Report(now: Millis, net: Network) returns (sent: Option<Batch<Long>>, order: seq<string>)
      modifies this`valueMap, httpCli`log
      ensures valueMap == map[]
      ensures sent.None? <==> old(valueMap) == map[]
      ensures sent.None? ==> httpCli.log == old(httpCli.log)
      ensures sent.Some? ==>
        Lists(order, old(valueMap).Keys) &&
        sent.value == StampedBatch(old(valueMap), order, UnixSeconds(now)) &&
        |sent.value| == |old(valueMap).Keys| &&
        httpCli.log == old(httpCli.log) + [LongBatch(sent.value)]
    {
      sent, order := None, [];
      if valueMap != map[] {
        order := IterationOrder(valueMap);
        ListsCardinality(order, valueMap.Keys);
        var requestList := ValuesIn(valueMap, order);
        var timestamp := UnixSeconds(now);
        valueMap := map[];
        var stamped := StampAll(requestList, timestamp);
        var _, _ := httpCli.Emit(LongBatch(stamped), net);
        sent := Some(stamped);
      }
    }

    /** `close()`: stops the periodic flush. */
    method Close()
      modifies this`closed
      ensures closed
    {
      closed := true;
    }
  }
}
