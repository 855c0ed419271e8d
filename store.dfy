/** `Store`: a gauge series; within each flush window the newest observation per tag
    signature wins, and the map is reset once reported. */
module Stores {
  import opened JavaNumbers
  import opened Common
  import opened Requests
  import opened Items
  import opened Expiry
  import opened Transport

  /** Default flush period of the one-argument constructor. */
  const DEFAULT_EXPIRE_TIME_MS: Int := 10 * 1000

  /** One poll of `flush()`: a signature already pending has its value overwritten by
      the item's, a new one gets a request holding the item's value, named after the
      series with the recovered tags. */
  function LastStep(acc: map<string, MetricRequest<real>>, it: Item<real>, name: string,
                    recover: string -> Tags): map<string, MetricRequest<real>>
  {
    if it.tags in acc then acc[it.tags := acc[it.tags].(value := it.value)]
    else acc[it.tags := MetricRequest(name, 0, it.value, recover(it.tags))]
  }

  /** The aggregation map after folding `items`, oldest first, into `m`. */
  function LastInto(m: map<string, MetricRequest<real>>, items: seq<Item<real>>, name: string,
                    recover: string -> Tags): map<string, MetricRequest<real>>
    decreases |items|
  {
    if items == [] then m
    else LastStep(LastInto(m, items[..|items| - 1], name, recover), items[|items| - 1], name, recover)
  }

  /** Reference definition: the position of the newest item tagged `sig`, or -1. */
  function LastIndex(items: seq<Item<real>>, sig: string): (i: int)
    ensures -1 <= i < |items|
    ensures i >= 0 ==> items[i].tags == sig
    ensures forall j :: i < j < |items| ==> items[j].tags != sig
    decreases |items|
  {
    if items == [] then -1
    else if items[|items| - 1].tags == sig then |items| - 1
    else LastIndex(items[..|items| - 1], sig)
  }

  /** One signature at a time: it is pending after the fold exactly when it was pending
      before or occurs in the window; if it occurs, its value is that of its newest item
      (and a new entry is named after the series with the recovered tags); otherwise the
      entry is as it was. */
  lemma {:induction false} LastIntoAt(m: map<string, MetricRequest<real>>, items: seq<Item<real>>,
                                      name: string, recover: string -> Tags, sig: string)
    ensures sig in LastInto(m, items, name, recover) <==> sig in m || LastIndex(items, sig) >= 0
    ensures LastIndex(items, sig) >= 0 ==>
      LastInto(m, items, name, recover)[sig].value == items[LastIndex(items, sig)].value
    ensures LastIndex(items, sig) >= 0 && sig !in m ==>
      LastInto(m, items, name, recover)[sig] == MetricRequest(name, 0, items[LastIndex(items, sig)].value, recover(sig))
    ensures LastIndex(items, sig) >= 0 && sig in m ==>
      LastInto(m, items, name, recover)[sig] == m[sig].(value := items[LastIndex(items, sig)].value)
    ensures LastIndex(items, sig) < 0 && sig in m ==> LastInto(m, items, name, recover)[sig] == m[sig]
    decreases |items|
  {
    if items != [] {
      var n := |items| - 1;
      LastIntoAt(m, items[..n], name, recover, sig);
    }
  }

  /** A signature occurs in the window exactly when it has a newest item. */
  lemma {:induction false} LastIndexFound(items: seq<Item<real>>, sig: string)
    ensures LastIndex(items, sig) >= 0 <==> sig in Signatures(items)
    decreases |items|
  {
    if items != [] {
      SignaturesSnoc(items);
      LastIndexFound(items[..|items| - 1], sig);
    }
  }

  /** Last value wins, for the whole map: one entry per signature pending before or seen
      in the window. */
  lemma LastIntoKeys(m: map<string, MetricRequest<real>>, items: seq<Item<real>>, name: string, recover: string -> Tags)
    ensures LastInto(m, items, name, recover).Keys == m.Keys + Signatures(items)
  {
    var r := LastInto(m, items, name, recover);
    forall sig | sig in r || sig in m || sig in Signatures(items)
      ensures sig in r <==> sig in m || sig in Signatures(items)
    {
      LastIntoAt(m, items, name, recover, sig);
      LastIndexFound(items, sig);
    }
  }

  /** Two observations v1 then v2 with one signature in one window, from an empty map,
      become exactly one request carrying v2. */
  lemma {:induction false} SecondValueWins(a: Item<real>, b: Item<real>, name: string, recover: string -> Tags)
    requires a.tags == b.tags
    ensures LastInto(map[], [a, b], name, recover).Keys == {a.tags}
    ensures LastInto(map[], [a, b], name, recover)[a.tags].value == b.value
  {
    LastIntoKeys(map[], [a, b], name, recover);
    LastIntoAt(map[], [a, b], name, recover, a.tags);
    assert Signatures([a, b]) == {a.tags};
  }

  class Store {
    const name: string
    const settings: Settings
    const flushTimeMs: Int
    const httpCli: MetricsHttpClient
    const expirableMetrics: ExpirableMetrics
    var valueMap: map<string, MetricRequest<real>>
    var queue: seq<Item<real>>
    var closed: bool

    /** `new Store(name, flushTimeMs)`: an empty series bound to the store transport,
      living twelve hours until first refreshed. The periodic flush it schedules is not
      part of this model. */
    constructor (name: string, flushTimeMs: Int, settings: Settings, transports: HttpClientCache, now: Millis)
      requires transports.Valid()
      modifies transports`clients
      ensures transports.Valid()
      ensures settings.otherUrl in transports.clients && httpCli == transports.clients[settings.otherUrl]
      ensures transports.clients == old(transports.clients)[settings.otherUrl := httpCli]
      ensures this.name == name && this.flushTimeMs == flushTimeMs && this.settings == settings
      ensures httpCli.url == settings.otherUrl
      ensures fresh(expirableMetrics) && expirableMetrics.expireTime == AddLong(now, Expiry.DEFAULT_EXPIRE_TIME_MS)
      ensures valueMap == map[] && queue == [] && !closed
    {
      var cli := transports.GetClient(settings.otherUrl);
      httpCli := cli;
      this.name := name;
      this.flushTimeMs := flushTimeMs;
      this.settings := settings;
      expirableMetrics := new ExpirableMetrics(now);
      valueMap := map[];
      queue := [];
      closed := false;
    }

    predicate IsExpired(now: Millis)
      reads expirableMetrics
    {
      expirableMetrics.IsExpired(now)
    }

    method UpdateExpireTime(now: Millis, ttlInMs: Long)
      modifies expirableMetrics
      ensures expirableMetrics.expireTime == RefreshedDeadline(old(expirableMetrics.expireTime), now, ttlInMs)
    {
      expirableMetrics.UpdateExpireTime(now, ttlInMs);
    }

    /** `emit(value, tags)`: one item, keyed by the signature of the sorted tags, joins the
      tail of the queue; the aggregation map is left alone. */
    method Emit(value: real, tags: Tags, now: Millis)
      modifies this`queue
      ensures queue == old(queue) + [DefaultItem(settings.codec.processTags(tags), value, now, settings.itemExpireMs)]
    {
      var tag := settings.codec.processTags(tags);
      var item := DefaultItem(tag, value, now, settings.itemExpireMs);
      queue := queue + [item];
    }

    /** `flush()`: polls `min(MAX_FLUSH_SIZE, |queue|)` items from the front, the newest
      value per signature winning; then every pending request is taken out of the map,
      stamped with one shared timestamp and emitted as one batch in the map's iteration
      order `order`. Nothing is sent when nothing is pending. Whatever the transport
      does, including throwing, the flush completes normally. */
    method Flush(now: Millis, net: Network) returns (sent: Option<Batch<real>>, order: seq<string>)
      modifies this`valueMap, this`queue, httpCli`log
      ensures var k := Min(settings.maxFlushSize, |old(queue)|);
        var pending := LastInto(old(valueMap), old(queue)[..k], name, settings.codec.recoverTags);
        queue == old(queue)[k..] &&
        valueMap == map[] &&
        (sent.None? <==> pending == map[]) &&
        (sent.None? ==> httpCli.log == old(httpCli.log)) &&
        (sent.Some? ==> Lists(order, pending.Keys) &&
                        sent.value == StampedBatch(pending, order, UnixSeconds(now)) &&
                        |sent.value| == |pending.Keys| &&
                        httpCli.log == old(httpCli.log) + [DoubleBatch(sent.value)])
    {
      var _ := DrainIntoMap();
      sent, order := Report(now, net);
    }

    /** The poll loop of `flush()`: `size` items, oldest first, leave the queue; each
      overwrites the value pending for its signature. */
    method DrainIntoMap() returns (size: Int)
      modifies this`valueMap, this`queue
      ensures size == Min(settings.maxFlushSize, |old(queue)|)
      ensures queue == old(queue)[size..]
      ensures valueMap == LastInto(old(valueMap), old(queue)[..size], name, settings.codec.recoverTags)
    {
      ghost var queue0 := queue;
      ghost var k := Min(settings.maxFlushSize, |queue|);
      size := 0;
      while size < settings.maxFlushSize && queue != []
        invariant 0 <= size <= k
        invariant queue == queue0[size..]
        invariant valueMap == LastInto(old(valueMap), queue0[..size], name, settings.codec.recoverTags)
        decreases settings.maxFlushSize - size
      {
        var item := queue[0];
        queue := queue[1..];
        if item.tags in valueMap {
          valueMap := valueMap[item.tags := valueMap[item.tags].(value := item.value)];
        } else {
          valueMap := valueMap[item.tags := MetricRequest(name, 0, item.value, settings.codec.recoverTags(item.tags))];
        }
        assert queue0[..size + 1][..size] == queue0[..size];
        size := size + 1;
      }
    }

    /** The report step of `flush()`: when anything is pending, every pending request
      leaves the map, is stamped with one timestamp and the batch, in the map's iteration
      order `order`, goes to the transport; otherwise nothing is sent. */
    method Report(now: Millis, net: Network) returns (sent: Option<Batch<real>>, order: seq<string>)
      modifies this`valueMap, httpCli`log
      ensures valueMap == map[]
      ensures sent.None? <==> old(valueMap) == map[]
      ensures sent.None? ==> httpCli.log == old(httpCli.log)
      ensures sent.Some? ==>
        Lists(order, old(valueMap).Keys) &&
        sent.value == StampedBatch(old(valueMap), order, UnixSeconds(now)) &&
        |sent.value| == |old(valueMap).Keys| &&
        httpCli.log == old(httpCli.log) + [DoubleBatch(sent.value)]
    {
      sent, order := None, [];
      if valueMap != map[] {
        order := IterationOrder(valueMap);
        ListsCardinality(order, valueMap.Keys);
        var requestList := ValuesIn(valueMap, order);
        var timestamp := UnixSeconds(now);
        valueMap := map[];
        var stamped := StampAll(requestList, timestamp);
        var _, _ := httpCli.Emit(DoubleBatch(stamped), net);
        sent := Some(stamped);
      }
    }

    /** `close()`: stops the periodic flush. */
    method Close()
      modifies this`closed
      ensures closed
    {
      closed := true;
    }
  }
}
