/** `MetricsClient`: the per-prefix series registry. Counters and stores are registered
    under `prefix + "." + name`, timers under that name followed by the signature of their
    tags; every lookup refreshes the series' deadline, and `tidy` closes and removes the
    series whose deadline has passed. */
module Registry {
  import opened JavaNumbers
  import opened Common
  import opened Items
  import opened Expiry
  import opened Transport
  import opened SlidingWindow
  import opened Counters
  import opened Stores
  import opened Timers

  const DEFAULT_TTL_MS: Int := 100 * 1000
  const DEFAULT_FLUSH_MS: Int := 15 * 1000

  /** The ttl a client keeps: a non-positive request falls back to the default. */
  function EffectiveTtl(ttlInMs: Long): (t: Long)
    ensures t > 0
    ensures ttlInMs > 0 ==> t == ttlInMs
    ensures ttlInMs <= 0 ==> t == 100000
  {
    if ttlInMs <= 0 then DEFAULT_TTL_MS else ttlInMs
  }

  /** The flush period a client gives its series: a non-positive request falls back to
      the default. */
  function EffectiveFlushInterval(flushInterval: Int): (f: Int)
    ensures f > 0
    ensures flushInterval > 0 ==> f == flushInterval
    ensures flushInterval <= 0 ==> f == 15000
  {
    if flushInterval <= 0 then DEFAULT_FLUSH_MS else flushInterval
  }

  /** The registry key of a timer: its series name followed by the signature of its tags,
      so one name with two tag sets is two timers. */
  function TimerKey(seriesName: string, tags: Tags, codec: TagCodec): (key: string)
    ensures |key| == |seriesName| + |codec.processTags(tags)|
    ensures key[..|seriesName|] == seriesName
    ensures key[|seriesName|..] == codec.processTags(tags)
  {
    seriesName + codec.processTags(tags)
  }

  /** Two timer lookups with the same series name share a timer exactly when their tags
      have the same signature. */
  lemma TimerKeyInjective(seriesName: string, tags1: Tags, tags2: Tags, codec: TagCodec)
    ensures TimerKey(seriesName, tags1, codec) == TimerKey(seriesName, tags2, codec) <==>
            codec.processTags(tags1) == codec.processTags(tags2)
  {
    var k1, k2 := TimerKey(seriesName, tags1, codec), TimerKey(seriesName, tags2, codec);
    if k1 == k2 {
      assert k1[|seriesName|..] == k2[|seriesName|..];
    }
  }

  class MetricsClient {
    const prefix: string
    const ttlInMs: Long
    const flushInterval: Int
    const settings: Settings
    const transports: HttpClientCache
    var storeMetrics: map<string, Store>
    var counterMetrics: map<string, Counter>
    var timerMetrics: map<string, Timer>
    var shutDown: bool

    /** Every series was made by this client: it carries the client's settings and flush
      period, and a counter or store is registered under its own name. */
    ghost predicate Valid()
      reads this`counterMetrics, this`storeMetrics, this`timerMetrics
    {
      ttlInMs > 0 && flushInterval > 0 && CountersValid() && StoresValid() && TimersValid()
    }

    ghost predicate CountersValid()
      reads this`counterMetrics
    {
      forall k :: k in counterMetrics ==>
        counterMetrics[k].name == k && counterMetrics[k].settings == settings &&
        counterMetrics[k].flushTimeMs == flushInterval
    }

    ghost predicate StoresValid()
      reads this`storeMetrics
    {
      forall k :: k in storeMetrics ==>
        storeMetrics[k].name == k && storeMetrics[k].settings == settings &&
        storeMetrics[k].flushTimeMs == flushInterval
    }

    ghost predicate TimersValid()
      reads this`timerMetrics
    {
      forall k :: k in timerMetrics ==>
        timerMetrics[k].settings == settings && timerMetrics[k].flushTimeMs == flushInterval
    }

    /** `new MetricsClient(prefix, ttlInMs, flushInterval)`: non-positive periods fall back
      to their defaults. The periodic `tidy` it schedules, every ttl, is not part of this
      model. */
    constructor (prefix: string, ttlInMs: Long, flushInterval: Int, settings: Settings, transports: HttpClientCache)
      ensures Valid()
      ensures this.prefix == prefix && this.settings == settings && this.transports == transports
      ensures this.ttlInMs == EffectiveTtl(ttlInMs) && this.flushInterval == EffectiveFlushInterval(flushInterval)
      ensures storeMetrics == map[] && counterMetrics == map[] && timerMetrics == map[] && !shutDown
    {
      this.prefix := prefix;
      this.ttlInMs := EffectiveTtl(ttlInMs);
      this.flushInterval := EffectiveFlushInterval(flushInterval);
      this.settings := settings;
      this.transports := transports;
      storeMetrics, counterMetrics, timerMetrics := map[], map[], map[];
      shutDown := false;
    }

    /** `getOrAddTsCounter(name)`: the registered counter, or a new one registered from
      then on; either way its deadline becomes `now + ttl`. */
    method GetOrAddTsCounter(name: string, now: Millis) returns (c: Counter)
      requires Valid() && transports.Valid()
      modifies this`counterMetrics, transports`clients
      modifies if name in counterMetrics then {counterMetrics[name].expirableMetrics} else {}
      ensures Valid() && transports.Valid()
      ensures name in counterMetrics && counterMetrics[name] == c && c.name == name && c.settings == settings
      ensures name in old(counterMetrics) ==> c == old(counterMetrics[name]) && counterMetrics == old(counterMetrics)
      ensures name in old(counterMetrics) ==> transports.clients == old(transports.clients)
      ensures name !in old(counterMetrics) ==>
        fresh(c) && counterMetrics == old(counterMetrics)[name := c] && c.queue == [] && c.valueMap == map[] && !c.closed &&
        settings.counterUrl in transports.clients && c.httpCli == transports.clients[settings.counterUrl] &&
        transports.clients == old(transports.clients)[settings.counterUrl := c.httpCli]
      ensures c.expirableMetrics.expireTime == AddLong(now, ttlInMs)
    {
      if name !in counterMetrics {
        c := new Counter(name, flushInterval, settings, transports, now);
        c.UpdateExpireTime(now, ttlInMs);
        counterMetrics := counterMetrics[name := c];
        return;
      }
      c := counterMetrics[name];
      c.UpdateExpireTime(now, ttlInMs);
    }

    /** `getOrAddTsStore(name)`: the registered store, or a new one registered from then
      on; either way its deadline becomes `now + ttl`. */
    method GetOrAddTsStore(name: string, now: Millis) returns (s: Store)
      requires Valid() && transports.Valid()
      modifies this`storeMetrics, transports`clients
      modifies if name in storeMetrics then {storeMetrics[name].expirableMetrics} else {}
      ensures Valid() && transports.Valid()
      ensures name in storeMetrics && storeMetrics[name] == s && s.name == name && s.settings == settings
      ensures name in old(storeMetrics) ==> s == old(storeMetrics[name]) && storeMetrics == old(storeMetrics)
      ensures name in old(storeMetrics) ==> transports.clients == old(transports.clients)
      ensures name !in old(storeMetrics) ==>
        fresh(s) && storeMetrics == old(storeMetrics)[name := s] && s.queue == [] && s.valueMap == map[] && !s.closed &&
        settings.otherUrl in transports.clients && s.httpCli == transports.clients[settings.otherUrl] &&
        transports.clients == old(transports.clients)[settings.otherUrl := s.httpCli]
      ensures s.expirableMetrics.expireTime == AddLong(now, ttlInMs)
    {
      if name !in storeMetrics {
        s := new Store(name, flushInterval, settings, transports, now);
        s.UpdateExpireTime(now, ttlInMs);
        storeMetrics := storeMetrics[name := s];
        return;
      }
      s := storeMetrics[name];
      s.UpdateExpireTime(now, ttlInMs);
    }

    /** `getOrAddTsTimer(name, tags)`: the timer registered under the name followed by the
      signature of the sorted tags, or a new one, with a fresh empty reservoir, registered
      from then on; either way its deadline becomes `now + ttl`. */
    method GetOrAddTsTimer(name: string, tags: Tags, now: Millis) returns (t: Timer)
      requires Valid() && transports.Valid()
      modifies this`timerMetrics, transports`clients
      modifies if TimerKey(name, tags, settings.codec) in timerMetrics
               then {timerMetrics[TimerKey(name, tags, settings.codec)].expirableMetrics} else {}
      ensures Valid() && transports.Valid()
      ensures var key := TimerKey(name, tags, settings.codec);
        key in timerMetrics && timerMetrics[key] == t &&
        (key in old(timerMetrics) ==>
          t == old(timerMetrics[key]) && timerMetrics == old(timerMetrics) && transports.clients == old(transports.clients)) &&
        (key !in old(timerMetrics) ==>
          fresh(t) && fresh(t.reservoir) && timerMetrics == old(timerMetrics)[key := t] &&
          settings.otherUrl in transports.clients && t.httpCli == transports.clients[settings.otherUrl] &&
          transports.clients == old(transports.clients)[settings.otherUrl := t.httpCli] &&
          t.name == name && t.tagMap == settings.codec.recoverTags(settings.codec.processTags(tags)) &&
          t.queue == [] && !t.closed && t.Valid() && t.reservoir.measurements == [])
      ensures t.expirableMetrics.expireTime == AddLong(now, ttlInMs)
    {
      var tag := settings.codec.processTags(tags);
      var tagString := name + tag;
      if tagString !in timerMetrics {
        var reservoir := new LockFreeSlidingWindowReservoir();
        t := new Timer(name, tag, reservoir, flushInterval, settings, transports, now);
        t.UpdateExpireTime(now, ttlInMs);
        timerMetrics := timerMetrics[tagString := t];
        return;
      }
      t := timerMetrics[tagString];
      t.UpdateExpireTime(now, ttlInMs);
    }

    /** `emitCounter(name, value, tags)`: the counter `prefix.name` gets the observation at
      the tail of its queue, after its deadline is refreshed. */
    method EmitCounter(name: string, value: Long, tags: Tags, now: Millis)
      requires Valid() && transports.Valid()
      modifies this`counterMetrics, transports`clients
      modifies if prefix + "." + name in counterMetrics
               then {counterMetrics[prefix + "." + name].expirableMetrics} else {}
      modifies (if prefix + "." + name in counterMetrics then {counterMetrics[prefix + "." + name]} else {})`queue
      ensures Valid() && transports.Valid()
      ensures var key := prefix + "." + name;
        var item := DefaultItem(settings.codec.processTags(tags), value, now, settings.itemExpireMs);
        key in counterMetrics && counterMetrics[key].expirableMetrics.expireTime == AddLong(now, ttlInMs) &&
        (key in old(counterMetrics) ==>
          counterMetrics == old(counterMetrics) && transports.clients == old(transports.clients) && counterMetrics[key].queue == old(counterMetrics[key].queue) + [item] &&
          counterMetrics[key].valueMap == old(counterMetrics[key].valueMap) &&
          counterMetrics[key].closed == old(counterMetrics[key].closed)) &&
        (key !in old(counterMetrics) ==>
          fresh(counterMetrics[key]) && counterMetrics == old(counterMetrics)[key := counterMetrics[key]] &&
          settings.counterUrl in transports.clients &&
          transports.clients == old(transports.clients)[settings.counterUrl := counterMetrics[key].httpCli] &&
          counterMetrics[key].queue == [item] && counterMetrics[key].valueMap == map[] && !counterMetrics[key].closed)
    {
      var c := GetOrAddTsCounter(prefix + "." + name, now);
      c.Emit(value, tags, now);
    }

    /** `emitStore(name, value, tags)`: the store `prefix.name` gets the observation at the
      tail of its queue, after its deadline is refreshed. */
    method EmitStore(name: string, value: real, tags: Tags, now: Millis)
      requires Valid() && transports.Valid()
      modifies this`storeMetrics, transports`clients
      modifies if prefix + "." + name in storeMetrics
               then {storeMetrics[prefix + "." + name].expirableMetrics} else {}
      modifies (if prefix + "." + name in storeMetrics then {storeMetrics[prefix + "." + name]} else {})`queue
      ensures Valid() && transports.Valid()
      ensures var key := prefix + "." + name;
        var item := DefaultItem(settings.codec.processTags(tags), value, now, settings.itemExpireMs);
        key in storeMetrics && storeMetrics[key].expirableMetrics.expireTime == AddLong(now, ttlInMs) &&
        (key in old(storeMetrics) ==>
          storeMetrics == old(storeMetrics) && transports.clients == old(transports.clients) && storeMetrics[key].queue == old(storeMetrics[key].queue) + [item] &&
          storeMetrics[key].valueMap == old(storeMetrics[key].valueMap) &&
          storeMetrics[key].closed == old(storeMetrics[key].closed)) &&
        (key !in old(storeMetrics) ==>
          fresh(storeMetrics[key]) && storeMetrics == old(storeMetrics)[key := storeMetrics[key]] &&
          settings.otherUrl in transports.clients &&
          transports.clients == old(transports.clients)[settings.otherUrl := storeMetrics[key].httpCli] &&
          storeMetrics[key].queue == [item] && storeMetrics[key].valueMap == map[] && !storeMetrics[key].closed)
    {
      var s := GetOrAddTsStore(prefix + "." + name, now);
      s.Emit(value, tags, now);
    }

    /** `emitTimer(name, value, tags)`: the timer of `prefix.name` and these tags gets the
      sample at the tail of its queue, after its deadline is refreshed. */
    method EmitTimer(name: string, value: Long, tags: Tags, now: Millis)
      requires Valid() && transports.Valid()
      modifies this`timerMetrics, transports`clients
      modifies if TimerKey(prefix + "." + name, tags, settings.codec) in timerMetrics
               then {timerMetrics[TimerKey(prefix + "." + name, tags, settings.codec)].expirableMetrics} else {}
      modifies (if TimerKey(prefix + "." + name, tags, settings.codec) in timerMetrics
                then {timerMetrics[TimerKey(prefix + "." + name, tags, settings.codec)]} else {})`queue
      ensures Valid() && transports.Valid()
      ensures var key := TimerKey(prefix + "." + name, tags, settings.codec);
        key in timerMetrics && timerMetrics[key].expirableMetrics.expireTime == AddLong(now, ttlInMs) &&
        (key in old(timerMetrics) ==>
          timerMetrics == old(timerMetrics) && transports.clients == old(transports.clients) && timerMetrics[key].queue == old(timerMetrics[key].queue) + [value] &&
          timerMetrics[key].closed == old(timerMetrics[key].closed)) &&
        (key !in old(timerMetrics) ==>
          fresh(timerMetrics[key]) && timerMetrics == old(timerMetrics)[key := timerMetrics[key]] &&
          settings.otherUrl in transports.clients &&
          transports.clients == old(transports.clients)[settings.otherUrl := timerMetrics[key].httpCli] &&
          timerMetrics[key].queue == [value] && !timerMetrics[key].closed &&
          timerMetrics[key].Valid() && timerMetrics[key].reservoir.measurements == [])
    {
      var t := GetOrAddTsTimer(prefix + "." + name, tags, now);
      t.Emit(value);
    }

    /** The keys of the stores whose deadline has passed at `now`. */
    ghost function ExpiredStoresKeys(now: Millis): set<string>
      reads this`storeMetrics, set k | k in storeMetrics :: storeMetrics[k].expirableMetrics
    {
      set k | k in storeMetrics && storeMetrics[k].IsExpired(now)
    }

    /** The keys of the expired stores, collected before any is removed. */
    method ExpiredStores(now: Millis) returns (keys: set<string>)
      ensures keys == ExpiredStoresKeys(now)
    {
      keys := set k | k in storeMetrics && storeMetrics[k].IsExpired(now);
    }

    /** Each store listed in `keys` is closed and unregistered. */
    method CloseAndRemoveStores(keys: set<string>)
      requires StoresValid() && keys <= storeMetrics.Keys
      modifies this`storeMetrics, set k | k in keys :: storeMetrics[k]
      ensures StoresValid()
      ensures storeMetrics == old(storeMetrics) - keys
      ensures forall k :: k in keys ==> old(storeMetrics)[k].closed
    {
      var rest := keys;
      while rest != {}
        invariant StoresValid()
        invariant rest <= keys
        invariant storeMetrics == old(storeMetrics) - (keys - rest)
        invariant forall k :: k in keys - rest ==> old(storeMetrics)[k].closed
        decreases rest
      {
        var key :| key in rest;
        storeMetrics[key].Close();
        storeMetrics := storeMetrics - {key};
        rest := rest - {key};
      }
    }

    /** The store part of `tidy()`: every expired store is closed and removed; every other
      one stays registered with all its fields as they were. */
    method TidyStores(now: Millis)
      requires Valid()
      modifies this`storeMetrics, set k | k in storeMetrics && storeMetrics[k].IsExpired(now) :: storeMetrics[k]
      ensures Valid()
      ensures storeMetrics == old(storeMetrics) - old(ExpiredStoresKeys(now))
      ensures forall k :: k in storeMetrics ==> !storeMetrics[k].IsExpired(now) && unchanged(storeMetrics[k])
      ensures forall k :: k in old(ExpiredStoresKeys(now)) ==> old(storeMetrics)[k].closed
    {
      var expiredStores := ExpiredStores(now);
      CloseAndRemoveStores(expiredStores);
    }

    /** The keys of the counters whose deadline has passed at `now`. */
    ghost function ExpiredCountersKeys(now: Millis): set<string>
      reads this`counterMetrics, set k | k in counterMetrics :: counterMetrics[k].expirableMetrics
    {
      set k | k in counterMetrics && counterMetrics[k].IsExpired(now)
    }

    /** The keys of the expired counters, collected before any is removed. */
    method ExpiredCounters(now: Millis) returns (keys: set<string>)
      ensures keys == ExpiredCountersKeys(now)
    {
      keys := set k | k in counterMetrics && counterMetrics[k].IsExpired(now);
    }

    /** Each counter listed in `keys` is closed and unregistered. */
    method CloseAndRemoveCounters(keys: set<string>)
      requires CountersValid() && keys <= counterMetrics.Keys
      modifies this`counterMetrics, set k | k in keys :: counterMetrics[k]
      ensures CountersValid()
      ensures counterMetrics == old(counterMetrics) - keys
      ensures forall k :: k in keys ==> old(counterMetrics)[k].closed
    {
      var rest := keys;
      while rest != {}
        invariant CountersValid()
        invariant rest <= keys
        invariant counterMetrics == old(counterMetrics) - (keys - rest)
        invariant forall k :: k in keys - rest ==> old(counterMetrics)[k].closed
        decreases rest
      {
        var key :| key in rest;
        counterMetrics[key].Close();
        counterMetrics := counterMetrics - {key};
        rest := rest - {key};
      }
    }

    /** The counter part of `tidy()`: every expired counter is closed and removed; every other
      one stays registered with all its fields as they were. */
    method TidyCounters(now: Millis)
      requires Valid()
      modifies this`counterMetrics, set k | k in counterMetrics && counterMetrics[k].IsExpired(now) :: counterMetrics[k]
      ensures Valid()
      ensures counterMetrics == old(counterMetrics) - old(ExpiredCountersKeys(now))
      ensures forall k :: k in counterMetrics ==> !counterMetrics[k].IsExpired(now) && unchanged(counterMetrics[k])
      ensures forall k :: k in old(ExpiredCountersKeys(now)) ==> old(counterMetrics)[k].closed
    {
      var expiredCounters := ExpiredCounters(now);
      CloseAndRemoveCounters(expiredCounters);
    }

    /** The keys of the timers whose deadline has passed at `now`. */
    ghost function ExpiredTimersKeys(now: Millis): set<string>
      reads this`timerMetrics, set k | k in timerMetrics :: timerMetrics[k].expirableMetrics
    {
      set k | k in timerMetrics && timerMetrics[k].IsExpired(now)
    }

    /** The keys of the expired timers, collected before any is removed. */
    method ExpiredTimers(now: Millis) returns (keys: set<string>)
      ensures keys == ExpiredTimersKeys(now)
    {
      keys := set k | k in timerMetrics && timerMetrics[k].IsExpired(now);
    }

    /** Each timer listed in `keys` is closed and unregistered. */
    method CloseAndRemoveTimers(keys: set<string>)
      requires TimersValid() && keys <= timerMetrics.Keys
      modifies this`timerMetrics, set k | k in keys :: timerMetrics[k]
      ensures TimersValid()
      ensures timerMetrics == old(timerMetrics) - keys
      ensures forall k :: k in keys ==> old(timerMetrics)[k].closed
    {
      var rest := keys;
      while rest != {}
        invariant TimersValid()
        invariant rest <= keys
        invariant timerMetrics == old(timerMetrics) - (keys - rest)
        invariant forall k :: k in keys - rest ==> old(timerMetrics)[k].closed
        decreases rest
      {
        var key :| key in rest;
        timerMetrics[key].Close();
        timerMetrics := timerMetrics - {key};
        rest := rest - {key};
      }
    }

    /** The timer part of `tidy()`: every expired timer is closed and removed; every other
      one stays registered with all its fields as they were. */
    method TidyTimers(now: Millis)
      requires Valid()
      modifies this`timerMetrics, set k | k in timerMetrics && timerMetrics[k].IsExpired(now) :: timerMetrics[k]
      ensures Valid()
      ensures timerMetrics == old(timerMetrics) - old(ExpiredTimersKeys(now))
      ensures forall k :: k in timerMetrics ==> !timerMetrics[k].IsExpired(now) && unchanged(timerMetrics[k])
      ensures forall k :: k in old(ExpiredTimersKeys(now)) ==> old(timerMetrics)[k].closed
    {
      var expiredTimers := ExpiredTimers(now);
      CloseAndRemoveTimers(expiredTimers);
    }

    /** The second half of `tidy()`: counters, then timers. */
    method TidyCountersAndTimers(now: Millis)
      requires Valid()
      modifies this`counterMetrics, this`timerMetrics
      modifies set k | k in counterMetrics && counterMetrics[k].IsExpired(now) :: counterMetrics[k]
      modifies set k | k in timerMetrics && timerMetrics[k].IsExpired(now) :: timerMetrics[k]
      ensures Valid()
      ensures counterMetrics == old(counterMetrics) - old(ExpiredCountersKeys(now))
      ensures timerMetrics == old(timerMetrics) - old(ExpiredTimersKeys(now))
      ensures forall k :: k in old(ExpiredCountersKeys(now)) ==> old(counterMetrics)[k].closed
      ensures forall k :: k in old(ExpiredTimersKeys(now)) ==> old(timerMetrics)[k].closed
      ensures forall k :: k in counterMetrics ==> unchanged(counterMetrics[k])
      ensures forall k :: k in timerMetrics ==> unchanged(timerMetrics[k])
    {
      ghost var timers := ExpiredTimersKeys(now);
      TidyCounters(now);
      assert ExpiredTimersKeys(now) == timers;
      TidyTimers(now);
    }

    /** `tidy()`: stores, then counters, then timers; in each map exactly the expired
      series are closed and removed. */
    method Tidy(now: Millis)
      requires Valid()
      modifies this`storeMetrics, this`counterMetrics, this`timerMetrics
      modifies set k | k in storeMetrics && storeMetrics[k].IsExpired(now) :: storeMetrics[k]
      modifies set k | k in counterMetrics && counterMetrics[k].IsExpired(now) :: counterMetrics[k]
      modifies set k | k in timerMetrics && timerMetrics[k].IsExpired(now) :: timerMetrics[k]
      ensures Valid()
      ensures storeMetrics == old(storeMetrics) - old(ExpiredStoresKeys(now))
      ensures counterMetrics == old(counterMetrics) - old(ExpiredCountersKeys(now))
      ensures timerMetrics == old(timerMetrics) - old(ExpiredTimersKeys(now))
      ensures forall k :: k in old(ExpiredStoresKeys(now)) ==> old(storeMetrics)[k].closed
      ensures forall k :: k in old(ExpiredCountersKeys(now)) ==> old(counterMetrics)[k].closed
      ensures forall k :: k in old(ExpiredTimersKeys(now)) ==> old(timerMetrics)[k].closed
      ensures forall k :: k in storeMetrics ==> unchanged(storeMetrics[k])
      ensures forall k :: k in counterMetrics ==> unchanged(counterMetrics[k])
      ensures forall k :: k in timerMetrics ==> unchanged(timerMetrics[k])
    {
      ghost var counters, timers := ExpiredCountersKeys(now), ExpiredTimersKeys(now);
      TidyStores(now);
      assert ExpiredCountersKeys(now) == counters && ExpiredTimersKeys(now) == timers;
      TidyCountersAndTimers(now);
    }

    /** `close()`: a last `tidy`, then the sweep stops. */
    method Close(now: Millis)
      requires Valid()
      modifies this`storeMetrics, this`counterMetrics, this`timerMetrics, this`shutDown
      modifies set k | k in storeMetrics && storeMetrics[k].IsExpired(now) :: storeMetrics[k]
      modifies set k | k in counterMetrics && counterMetrics[k].IsExpired(now) :: counterMetrics[k]
      modifies set k | k in timerMetrics && timerMetrics[k].IsExpired(now) :: timerMetrics[k]
      ensures Valid() && shutDown
      ensures storeMetrics == old(storeMetrics) - old(ExpiredStoresKeys(now))
      ensures counterMetrics == old(counterMetrics) - old(ExpiredCountersKeys(now))
      ensures timerMetrics == old(timerMetrics) - old(ExpiredTimersKeys(now))
      ensures forall k :: k in old(ExpiredStoresKeys(now)) ==> old(storeMetrics)[k].closed
      ensures forall k :: k in old(ExpiredCountersKeys(now)) ==> old(counterMetrics)[k].closed
      ensures forall k :: k in old(ExpiredTimersKeys(now)) ==> old(timerMetrics)[k].closed
      ensures forall k :: k in storeMetrics ==> unchanged(storeMetrics[k])
      ensures forall k :: k in counterMetrics ==> unchanged(counterMetrics[k])
      ensures forall k :: k in timerMetrics ==> unchanged(timerMetrics[k])
    {
      Tidy(now);
      shutDown := true;
    }
  }

  /** The process-wide cache of clients by prefix, as an explicit object. */
  class MetricsClientCache {
    const settings: Settings
    const transports: HttpClientCache
    var clients: map<string, MetricsClient>

    ghost predicate Valid()
      reads this, clients.Values
    {
      forall p :: p in clients ==> clients[p].prefix == p && clients[p].Valid() &&
                                   clients[p].settings == settings && clients[p].transports == transports
    }

    constructor (settings: Settings, transports: HttpClientCache)
      ensures Valid() && this.settings == settings && this.transports == transports && clients == map[]
    {
      this.settings := settings;
      this.transports := transports;
      clients := map[];
    }

    /** `getClientByPrefix(prefix)`: the cached client for `prefix`, or a new one with the
      default ttl and flush period, cached from then on; an entry is never replaced. */
    method GetClientByPrefix(prefix: string) returns (c: MetricsClient)
      requires Valid()
      modifies this`clients
      ensures Valid()
      ensures prefix in clients && clients[prefix] == c && c.prefix == prefix
      ensures prefix in old(clients) ==> c == old(clients)[prefix] && clients == old(clients)
      ensures prefix !in old(clients) ==>
        fresh(c) && clients == old(clients)[prefix := c] &&
        c.ttlInMs == DEFAULT_TTL_MS && c.flushInterval == DEFAULT_FLUSH_MS &&
        c.counterMetrics == map[] && c.storeMetrics == map[] && c.timerMetrics == map[]
    {
      if prefix in clients {
        return clients[prefix];
      }
      c := new MetricsClient(prefix, DEFAULT_TTL_MS, DEFAULT_FLUSH_MS, settings, transports);
      clients := clients[prefix := c];
    }
  }
}
