# Metrics client of the BytePlus Java SDK, in Dafny

This project models the core of the SDK's metrics client (package
`byteplus.sdk.core.metrics`) and proves properties of that model.

Callers report three kinds of series through a `MetricsReporter`:

- counters, summed per tag signature over each flush window;
- stores (gauges), where the newest value per tag signature wins within a window;
- timers, whose samples pass through a sliding-window reservoir and are reported as ten summary points.

A `MetricsClient` per prefix keeps the series in three maps. Every lookup refreshes a
series' deadline, and `tidy` closes and removes the series whose deadline has passed.
A flush of a counter or store with something pending, and every timer flush, hands one
batch to a `MetricsHttpClient`, one per destination URL. It sends the batch with at most two
attempts. It also has a pending queue bounded at 5000 batches that drops what does not fit.
A ghost log on each transport records the batches handed to it, so the contract of a flush
states what reaches the transport, and not only what the flush returns.

One module per source file:

| file | module | source |
|---|---|---|
| `java_numbers.dfy` | `JavaNumbers` | Java `long`/`int` wrap-around, written out |
| `common.dfy` | `Common` | shared types; the tag helpers and package constants as values |
| `metric_request.dfy` | `Requests` | `MetricRequest`, batches, map iteration order, timestamp stamping |
| `expirable_metrics.dfy` | `Expiry` | `ExpirableMetrics` |
| `item.dfy` | `Items` | `Item` |
| `reservoir.dfy` | `SlidingWindow` | `MetricsClient.LockFreeSlidingWindowReservoir` |
| `metrics_http_client.dfy` | `Transport` | `MetricsHttpClient` |
| `counter.dfy` | `Counters` | `Counter` |
| `store.dfy` | `Stores` | `Store` |
| `timer.dfy` | `Timers` | `Timer` |
| `metrics_client.dfy` | `Registry` | `MetricsClient` |
| `metrics_reporter.dfy` | `Reporter` | `MetricsReporter` |

Classes whose fields the source updates in place (`ExpirableMetrics`, the reservoir, the
three series, the registry, the transport, the builder) are Dafny classes. Each method's
frame names the fields and objects it may change, and its postcondition states their new
values. For example, `tidy` may touch only the expired series, and it states that every
surviving series is unchanged, and an emit may touch only the queue and deadline of the
series it reuses. The aggregation done by each flush is specified by a fold
function (`SumInto`, `LastInto`, `Fed`). Lemmas relate that fold to an independent
reference definition (`SumOf`, `LastIndex`) or bound it.

Collaborators whose code is not part of this model enter as values:

- the clock, as a `now` parameter in milliseconds;
- `MetricsHelper.processTags`/`recoverTags`, as the function fields of a `TagCodec`;
- the package `Constant` values (`MAX_FLUSH_SIZE`, the item lifetime, the two URLs), as a `Settings` value;
- the network, as `Network`: whether the JSON serializer accepts a batch, and the outcome of each attempt;
- the floating-point summaries of a timer snapshot, as a function `seq<Long> -> FloatStats`;
- the local host address and the default metrics prefix, as `Build` parameters.

The process-wide static caches (`MetricsHttpClient.clientCache`,
`MetricsClient.clientCache`) are explicit objects, `HttpClientCache` and
`MetricsClientCache`.

## Model

| member | source | states |
|---|---|---|
| Common.UnixSeconds | src/main/java/byteplus/sdk/core/metrics/Counter.java:74 | the flush timestamp is the whole number of seconds in `now`: `s*1000 <= now < s*1000 + 1000` |
| Requests.LongBatch | src/main/java/byteplus/sdk/core/metrics/Counter.java:84 | a counter batch reaches the transport element by element unchanged, its values as longs |
| Requests.DoubleBatch | src/main/java/byteplus/sdk/core/metrics/Store.java:80 | a store batch reaches the transport element by element unchanged, its values as doubles |
| Requests.IterationOrder | src/main/java/byteplus/sdk/core/metrics/Counter.java:72 | the request list built from the map's values lists every pending key exactly once, in some order |
| Requests.ListsCardinality | src/main/java/byteplus/sdk/core/metrics/Counter.java:72 | such a listing has exactly as many entries as the map has keys, so a flush sends one request per pending signature |
| Requests.StampAll | src/main/java/byteplus/sdk/core/metrics/Counter.java:81-83 | every request of the batch gets the one shared timestamp, and nothing else about it changes |
| Expiry.RefreshedDeadline | src/main/java/byteplus/sdk/core/metrics/ExpirableMetrics.java:19-23 | a non-positive ttl leaves the deadline unchanged; a positive one sets it to `now + ttl` when that fits in a long |
| Expiry.RefreshedDeadlinePassed | src/main/java/byteplus/sdk/core/metrics/ExpirableMetrics.java:15-23 | after a positive refresh the series is expired at a later time exactly when that time is beyond `now + ttl`, whatever the old deadline |
| Expiry.ExpirableMetrics.constructor | src/main/java/byteplus/sdk/core/metrics/ExpirableMetrics.java:7-13 | a new series' deadline is `now` plus twelve hours |
| Expiry.ExpirableMetrics.UpdateExpireTime | src/main/java/byteplus/sdk/core/metrics/ExpirableMetrics.java:19-23 | the deadline becomes `RefreshedDeadline` of the old one |
| Items.NewItem | src/main/java/byteplus/sdk/core/metrics/Item.java:17-22 | tags and value are kept; a non-positive lifetime is replaced by the default; the deadline is `now` plus the lifetime |
| Items.DefaultItem | src/main/java/byteplus/sdk/core/metrics/Item.java:13-15 | tags and value are kept, and the item lives exactly the default lifetime: its deadline is `now` plus that default, in long arithmetic |
| Items.NewItemExpiry | src/main/java/byteplus/sdk/core/metrics/Item.java:24-26 | an item with a positive lifetime is expired exactly when the clock is strictly beyond creation time plus lifetime |
| Items.EqualsIffSameTags | src/main/java/byteplus/sdk/core/metrics/Item.java:28-37 | two items are equal exactly when their tag strings are, and equality is symmetric |
| Items.EqualsReflexiveAndTyped | src/main/java/byteplus/sdk/core/metrics/Item.java:28-37 | an item equals itself and never equals null or a non-item |
| Items.EqualItemsHashEqual | src/main/java/byteplus/sdk/core/metrics/Item.java:39-42 | equal items have equal hash codes, so a map keyed by items is keyed by tag strings |
| Items.Utf16Char | src/main/java/byteplus/sdk/core/metrics/Item.java:41 | a character below U+10000 is one code unit; any other is a high and a low surrogate that decode back to it |
| Items.UnitsHashIsWrappedPolynomial | src/main/java/byteplus/sdk/core/metrics/Item.java:41 | the overflowing `31*h + u` loop over code units is the exact polynomial narrowed to 32 bits |
| Items.StringHashIsWrappedPolynomial | src/main/java/byteplus/sdk/core/metrics/Item.java:39-42 | the hash of a tag string is the polynomial of its UTF-16 code units, narrowed to 32 bits |
| Items.SupplementaryCharHash | src/main/java/byteplus/sdk/core/metrics/Item.java:41 | U+1F600 is the pair 0xD83D, 0xDE00, and its one-character string hashes to 1772899, as Java's does |
| SlidingWindow.Slot | src/main/java/byteplus/sdk/core/metrics/MetricsClient.java:203 | the masked-and-truncated slot index is `count mod 65536`, always a valid index |
| SlidingWindow.Updated | src/main/java/byteplus/sdk/core/metrics/MetricsClient.java:202-209 | below capacity the sample is appended; at capacity exactly the slot `Slot(count)` is overwritten and every other slot is kept |
| SlidingWindow.FedSize | src/main/java/byteplus/sdk/core/metrics/MetricsClient.java:202-209 | the window never exceeds 65536: feeding `n` samples leaves the old size plus `n`, capped at 65536 |
| SlidingWindow.FedAppends | src/main/java/byteplus/sdk/core/metrics/MetricsClient.java:204-208 | while capacity is not reached, feeding only appends, in order |
| SlidingWindow.FedSamplesFromInputs | src/main/java/byteplus/sdk/core/metrics/MetricsClient.java:202-209 | every sample in the window was there before or was fed in, and the last one fed is always kept |
| SlidingWindow.LockFreeSlidingWindowReservoir.constructor | src/main/java/byteplus/sdk/core/metrics/MetricsClient.java:191-194 | a new reservoir is empty with count 0 |
| SlidingWindow.LockFreeSlidingWindowReservoir.Update | src/main/java/byteplus/sdk/core/metrics/MetricsClient.java:202-209 | the window becomes `Updated(old window, old count, v)` and the count advances by one (long arithmetic) |
| SlidingWindow.LockFreeSlidingWindowReservoir.GetSnapshot | src/main/java/byteplus/sdk/core/metrics/MetricsClient.java:212-222 | the snapshot is the window, in order; the window is cleared and the count kept |
| Transport.GenerateMetricsHeader | src/main/java/byteplus/sdk/core/metrics/MetricsHttpClient.java:116-121 | exactly the headers `Content-Type` and `Accept`, both `application/json` |
| Transport.BuildMetricsRequest | src/main/java/byteplus/sdk/core/metrics/MetricsHttpClient.java:105-114 | a request with verb `POST` carrying the batch to the client's URL with those headers; it throws exactly when building the request fails (serialization or a malformed URL) |
| Transport.OfferedAllKeepsEarliest | src/main/java/byteplus/sdk/core/metrics/MetricsHttpClient.java:67-73 | offering batches to the bounded queue keeps the earliest ones in order and drops exactly the excess; its length is the old length plus the number offered, capped at 5000 |
| Transport.MetricsHttpClient.constructor | src/main/java/byteplus/sdk/core/metrics/MetricsHttpClient.java:49-51 | a new transport has the given URL, an empty queue and an empty delivery log |
| Transport.MetricsHttpClient.Put | src/main/java/byteplus/sdk/core/metrics/MetricsHttpClient.java:67-73 | below 5000 the batch joins the tail; at 5000 it is dropped and the queue is unchanged |
| Transport.MetricsHttpClient.Send | src/main/java/byteplus/sdk/core/metrics/MetricsHttpClient.java:75-97 | one or two attempts; true exactly when one of the first two attempts succeeds; it stops at the first success; a failure costs both attempts |
| Transport.MetricsHttpClient.Emit | src/main/java/byteplus/sdk/core/metrics/MetricsHttpClient.java:99-102 | the batch is appended to the delivery log; a failure to build the request escapes with no attempt made; otherwise the result is that of `Send` |
| Transport.MetricsHttpClient.Stop | src/main/java/byteplus/sdk/core/metrics/MetricsHttpClient.java:124-126 | the worker is stopped |
| Transport.HttpClientCache.GetClient | src/main/java/byteplus/sdk/core/metrics/MetricsHttpClient.java:35-47 | the cached transport for the URL is returned and the cache is unchanged; otherwise a fresh one, with empty queue and log, is cached under the URL; an entry is never replaced |
| Counters.SumIntoHas | src/main/java/byteplus/sdk/core/metrics/Counter.java:57-70 | after the drain a signature is pending exactly when it was pending before or occurs among the polled items |
| Counters.SumStepPending | src/main/java/byteplus/sdk/core/metrics/Counter.java:65-68 | one poll on a pending entry adds the item's value with long wrap-around and keeps the entry's other fields |
| Counters.SumIntoPending | src/main/java/byteplus/sdk/core/metrics/Counter.java:57-70 | an entry already pending ends with its old value plus the exact sum of the window's values for it, narrowed to a long |
| Counters.SumIntoNew | src/main/java/byteplus/sdk/core/metrics/Counter.java:57-70 | a new signature gets one request named after the series, with timestamp 0, the recovered tags and the narrowed window sum |
| Counters.SumIntoKeys | src/main/java/byteplus/sdk/core/metrics/Counter.java:57-70 | the pending keys after the drain are the old ones plus the signatures of the polled items |
| Counters.OneSignatureOneRequest | src/main/java/byteplus/sdk/core/metrics/Counter.java:57-70 | k observations with one signature in one window become exactly one request carrying their sum |
| Counters.Counter.constructor | src/main/java/byteplus/sdk/core/metrics/Counter.java:42-51 | an empty series whose transport is the cache entry for the counter URL: the cached one when present, else a new one added to the cache, with no other change to it; deadline twelve hours ahead |
| Counters.Counter.UpdateExpireTime | src/main/java/byteplus/sdk/core/metrics/Counter.java:33-36 | the deadline is refreshed as `ExpirableMetrics.updateExpireTime` does |
| Counters.Counter.Emit | src/main/java/byteplus/sdk/core/metrics/Counter.java:94-102 | one item keyed by the signature of the tags joins the tail of the queue; the map is untouched |
| Counters.Counter.Flush | src/main/java/byteplus/sdk/core/metrics/Counter.java:53-92 | the first `MAX_FLUSH_SIZE` items (the whole queue when shorter) are polled and folded by `SumInto`; the map is emptied; when nothing is pending nothing reaches the transport, else its log gains exactly one batch: one request per pending signature, stamped with one timestamp |
| Counters.Counter.DrainIntoMap | src/main/java/byteplus/sdk/core/metrics/Counter.java:56-70 | the first `MAX_FLUSH_SIZE` items (the whole queue when shorter) leave the queue, oldest first, and the map becomes `SumInto` of the old map and those items |
| Counters.Counter.Report | src/main/java/byteplus/sdk/core/metrics/Counter.java:72-88 | the map is emptied; nothing is sent when it was empty, else the transport's log gains exactly the stamped batch of every pending request, one per key |
| Counters.Counter.Close | src/main/java/byteplus/sdk/core/metrics/Counter.java:104-106 | the series is closed |
| Stores.LastIndex | src/main/java/byteplus/sdk/core/metrics/Store.java:55-66 | reference definition: the position of the newest polled item with a signature, or -1 |
| Stores.LastIntoAt | src/main/java/byteplus/sdk/core/metrics/Store.java:55-66 | a signature is pending after the drain exactly when it was before or occurs in the window; if it occurs its value is that of its newest item; otherwise the entry is unchanged |
| Stores.LastIndexFound | src/main/java/byteplus/sdk/core/metrics/Store.java:55-66 | a signature has a newest item exactly when it occurs in the window |
| Stores.LastIntoKeys | src/main/java/byteplus/sdk/core/metrics/Store.java:55-66 | the pending keys after the drain are the old ones plus the signatures of the polled items |
| Stores.SecondValueWins | src/main/java/byteplus/sdk/core/metrics/Store.java:55-66 | v1 then v2 with one signature in one window become exactly one request carrying v2 |
| Stores.Store.constructor | src/main/java/byteplus/sdk/core/metrics/Store.java:42-50 | an empty series whose transport is the cache entry for the store/timer URL, cached or added with no other change to the cache; deadline twelve hours ahead |
| Stores.Store.UpdateExpireTime | src/main/java/byteplus/sdk/core/metrics/Store.java:32-35 | the deadline is refreshed as `ExpirableMetrics.updateExpireTime` does |
| Stores.Store.Emit | src/main/java/byteplus/sdk/core/metrics/Store.java:91-99 | one item keyed by the signature of the tags joins the tail of the queue |
| Stores.Store.Flush | src/main/java/byteplus/sdk/core/metrics/Store.java:52-89 | the first `MAX_FLUSH_SIZE` items (the whole queue when shorter) are polled and folded by `LastInto`; the map is emptied; when nothing is pending nothing reaches the transport, else its log gains exactly one batch: one request per pending signature, stamped with one timestamp |
| Stores.Store.DrainIntoMap | src/main/java/byteplus/sdk/core/metrics/Store.java:54-66 | the first `MAX_FLUSH_SIZE` items (the whole queue when shorter) leave the queue, oldest first, and the map becomes `LastInto` of the old map and those items |
| Stores.Store.Report | src/main/java/byteplus/sdk/core/metrics/Store.java:68-84 | the map is emptied; nothing is sent when it was empty, else the transport's log gains exactly the stamped batch of every pending request, one per key |
| Stores.Store.Close | src/main/java/byteplus/sdk/core/metrics/Store.java:101-103 | the series is closed |
| Timers.SnapshotMax | src/main/java/byteplus/sdk/core/metrics/Timer.java:95 | the reported max is a sample of the snapshot and no sample exceeds it; 0 for an empty snapshot |
| Timers.SnapshotMin | src/main/java/byteplus/sdk/core/metrics/Timer.java:103 | the reported min is a sample of the snapshot and no sample is below it; 0 for an empty snapshot |
| Timers.BuildMetricList | src/main/java/byteplus/sdk/core/metrics/Timer.java:78-162 | exactly ten requests, suffixes in the fixed order, one shared timestamp, the timer's tags; count is the drained size, max/min from the snapshot, the rest from its summaries |
| Timers.FreshWindowReport | src/main/java/byteplus/sdk/core/metrics/Timer.java:59-104 | an empty reservoir fed fewer than 65536 samples reports their count, and a max and min that are among them and bound them |
| Timers.ExtremesComeFromWindow | src/main/java/byteplus/sdk/core/metrics/Timer.java:59-104 | every reported max and min was in the reservoir before the flush or was drained in it |
| Timers.Timer.constructor | src/main/java/byteplus/sdk/core/metrics/Timer.java:48-57 | the tag map is recovered from the signature once; the transport is the cache entry for the store/timer URL, cached or added with no other change to the cache; deadline twelve hours ahead |
| Timers.Timer.UpdateExpireTime | src/main/java/byteplus/sdk/core/metrics/Timer.java:35-38 | the deadline is refreshed as `ExpirableMetrics.updateExpireTime` does |
| Timers.Timer.Emit | src/main/java/byteplus/sdk/core/metrics/Timer.java:164-166 | the sample joins the tail of the queue |
| Timers.Timer.DrainIntoReservoir | src/main/java/byteplus/sdk/core/metrics/Timer.java:61-66 | the first `MAX_FLUSH_SIZE` samples (the whole queue when shorter), oldest first, are fed to the reservoir, which ends as `Fed` says, its count advanced by that many |
| Timers.Timer.Flush | src/main/java/byteplus/sdk/core/metrics/Timer.java:59-76 | the drained window's snapshot is consumed (reservoir empty afterwards), and the transport's log gains exactly its ten-point report, even when nothing was drained |
| Timers.Timer.Close | src/main/java/byteplus/sdk/core/metrics/Timer.java:168-170 | the series is closed |
| Registry.EffectiveTtl | src/main/java/byteplus/sdk/core/metrics/MetricsClient.java:57 | a non-positive ttl becomes 100000 ms; a positive one is kept |
| Registry.EffectiveFlushInterval | src/main/java/byteplus/sdk/core/metrics/MetricsClient.java:58 | a non-positive flush interval becomes 15000 ms; a positive one is kept |
| Registry.TimerKey | src/main/java/byteplus/sdk/core/metrics/MetricsClient.java:157-161 | a timer's key starts with its series name and ends with the signature of its sorted tags |
| Registry.TimerKeyInjective | src/main/java/byteplus/sdk/core/metrics/MetricsClient.java:157-161 | two timer lookups with one series name share a key exactly when their tag signatures are equal |
| Registry.MetricsClient.constructor | src/main/java/byteplus/sdk/core/metrics/MetricsClient.java:55-64 | the client keeps the clamped ttl and flush interval and starts with three empty maps |
| Registry.MetricsClient.GetOrAddTsCounter | src/main/java/byteplus/sdk/core/metrics/MetricsClient.java:141-154 | afterwards the key is registered; an existing counter is reused and neither the map nor the transport cache changes; otherwise a fresh, empty, open one is added, bound to the cache entry for its URL; either way its deadline is `now + ttl` |
| Registry.MetricsClient.GetOrAddTsStore | src/main/java/byteplus/sdk/core/metrics/MetricsClient.java:126-139 | the same for stores: reuse changes neither the map nor the transport cache; a new empty, open store is added and bound to the cache entry for its URL |
| Registry.MetricsClient.GetOrAddTsTimer | src/main/java/byteplus/sdk/core/metrics/MetricsClient.java:156-174 | the same for timers under `TimerKey`; a new open timer gets a fresh empty reservoir, the recovered tags and the cache entry for its URL |
| Registry.MetricsClient.EmitCounter | src/main/java/byteplus/sdk/core/metrics/MetricsClient.java:114-116 | the counter `prefix.name` is registered, its deadline refreshed, and the observation appended to its queue; a reused counter keeps its pending map and its closed flag, and the transport cache changes only when a new counter was made, which starts open with an empty pending map |
| Registry.MetricsClient.EmitStore | src/main/java/byteplus/sdk/core/metrics/MetricsClient.java:122-124 | the same for the store `prefix.name`: a reused store keeps its pending map and closed flag, a new one starts open and empty |
| Registry.MetricsClient.EmitTimer | src/main/java/byteplus/sdk/core/metrics/MetricsClient.java:118-120 | the same for the timer of `prefix.name` and these tags: a reused timer keeps its closed flag, a new one starts open with a valid, empty reservoir |
| Registry.MetricsClient.ExpiredStores | src/main/java/byteplus/sdk/core/metrics/MetricsClient.java:67-68 | collects exactly the keys of the stores whose deadline has passed |
| Registry.MetricsClient.CloseAndRemoveStores | src/main/java/byteplus/sdk/core/metrics/MetricsClient.java:70-80 | each listed store is closed, and the map loses exactly those keys |
| Registry.MetricsClient.TidyStores | src/main/java/byteplus/sdk/core/metrics/MetricsClient.java:67-80 | exactly the expired stores are closed and removed; the frame holds only the expired ones, and every remaining store is unexpired and unchanged in every field |
| Registry.MetricsClient.ExpiredCounters | src/main/java/byteplus/sdk/core/metrics/MetricsClient.java:82-83 | collects exactly the keys of the expired counters |
| Registry.MetricsClient.CloseAndRemoveCounters | src/main/java/byteplus/sdk/core/metrics/MetricsClient.java:85-95 | each listed counter is closed, and the map loses exactly those keys |
| Registry.MetricsClient.TidyCounters | src/main/java/byteplus/sdk/core/metrics/MetricsClient.java:82-95 | exactly the expired counters are closed and removed; the frame holds only the expired ones, and every remaining counter is unexpired and unchanged in every field |
| Registry.MetricsClient.ExpiredTimers | src/main/java/byteplus/sdk/core/metrics/MetricsClient.java:97-98 | collects exactly the keys of the expired timers |
| Registry.MetricsClient.CloseAndRemoveTimers | src/main/java/byteplus/sdk/core/metrics/MetricsClient.java:100-110 | each listed timer is closed, and the map loses exactly those keys |
| Registry.MetricsClient.TidyTimers | src/main/java/byteplus/sdk/core/metrics/MetricsClient.java:97-110 | exactly the expired timers are closed and removed; the frame holds only the expired ones, and every remaining timer is unexpired and unchanged in every field |
| Registry.MetricsClient.TidyCountersAndTimers | src/main/java/byteplus/sdk/core/metrics/MetricsClient.java:82-110 | exactly the expired counters and timers are closed and removed, and every surviving one is unchanged |
| Registry.MetricsClient.Tidy | src/main/java/byteplus/sdk/core/metrics/MetricsClient.java:66-111 | in each of the three maps exactly the expired series are closed and removed, and every surviving series is unchanged |
| Registry.MetricsClient.Close | src/main/java/byteplus/sdk/core/metrics/MetricsClient.java:176-179 | a last tidy (the expired series closed and removed, the survivors unchanged), then the sweep is shut down |
| Registry.MetricsClientCache.GetClientByPrefix | src/main/java/byteplus/sdk/core/metrics/MetricsClient.java:37-49 | the same client for the same prefix; a new one, with default ttl and flush interval, is created at most once per prefix and never replaced |
| Reporter.Counter | src/main/java/byteplus/sdk/core/metrics/MetricsReporter.java:74-79 | no call when metrics are off; otherwise the counter observation with the base tags and the caller's tags |
| Reporter.Timer | src/main/java/byteplus/sdk/core/metrics/MetricsReporter.java:86-91 | no call when metrics are off; otherwise the timer sample with the base tags and the caller's tags |
| Reporter.Latency | src/main/java/byteplus/sdk/core/metrics/MetricsReporter.java:98-104 | no call when metrics are off; otherwise a timer sample of `now - begin` (long arithmetic; exact and non-negative when `begin <= now`) |
| Reporter.Store | src/main/java/byteplus/sdk/core/metrics/MetricsReporter.java:111-116 | no call when metrics are off; otherwise the gauge observation with the base tags and the caller's tags |
| Reporter.MessageTag | src/main/java/byteplus/sdk/core/metrics/MetricsReporter.java:119-128 | the tag is one of four; each is chosen exactly when its rule matches and no earlier rule does |
| Reporter.MessageTagAsWritten | src/main/java/byteplus/sdk/core/metrics/MetricsReporter.java:119-128 | throws exactly for an interrupted-I/O exception without a message; otherwise agrees with `MessageTag` |
| Reporter.ExceptionTags | src/main/java/byteplus/sdk/core/metrics/MetricsReporter.java:129-131 | n+1 tags: the caller's, in order, then the message tag |
| Reporter.Exception | src/main/java/byteplus/sdk/core/metrics/MetricsReporter.java:118-133 | no call when metrics are off; otherwise a latency sample tagged with the caller's tags followed by the message tag |
| Reporter.ExceptionAsWritten | src/main/java/byteplus/sdk/core/metrics/MetricsReporter.java:118-133 | throws for an interrupted-I/O exception without a message, whether metrics are on or off; otherwise agrees with `Exception` |
| Reporter.NullMessageThrows | src/main/java/byteplus/sdk/core/metrics/MetricsReporter.java:120 | a socket timeout without a message throws instead of being tagged `message:other` |
| Reporter.ConnectTimedOut | src/main/java/byteplus/sdk/core/metrics/MetricsReporter.java:120-121 | "connect timed out" on a socket timeout is tagged `message:connect-timeout` |
| Reporter.SocketTimeoutFallsThrough | src/main/java/byteplus/sdk/core/metrics/MetricsReporter.java:120-125 | a socket timeout mentioning only "timeout" falls through to `message:timeout`, since it is also an interrupted-I/O exception |
| Reporter.OtherExceptionIsOther | src/main/java/byteplus/sdk/core/metrics/MetricsReporter.java:124-127 | an exception that is not an interrupted-I/O exception is always `message:other` |
| Reporter.ReporterBuilder.constructor | src/main/java/byteplus/sdk/core/metrics/MetricsReporter.java:22-30 | a new builder has metrics off and neither base tags nor prefix set |
| Reporter.ReporterBuilder.EnableMetrics | src/main/java/byteplus/sdk/core/metrics/MetricsReporter.java:32-35 | the switch is set |
| Reporter.ReporterBuilder.BaseTags | src/main/java/byteplus/sdk/core/metrics/MetricsReporter.java:37-42 | null or empty tags are ignored, otherwise they are kept; set tags are never empty |
| Reporter.ReporterBuilder.Prefix | src/main/java/byteplus/sdk/core/metrics/MetricsReporter.java:44-49 | a null or empty prefix is ignored, otherwise it is kept; a set prefix is never empty |
| Reporter.ReporterBuilder.Build | src/main/java/byteplus/sdk/core/metrics/MetricsReporter.java:51-64 | the base tags (empty when unset) always gain `host`; an unset prefix becomes the default; the reporter carries the switch, the tags and the prefix of its manager |

## Left out

- Threads and scheduling: the executors, `scheduleAtFixedRate`, the transport's worker loop (`MetricsHttpClient.java:53-64`), `parallelStream` and the `synchronized` blocks. Each `flush`, `tidy` and lookup is one atomic sequential step. Because the worker is left out, nothing here ever takes batches off a transport's queue.
- OkHttp and fastjson: `newCall().execute()` becomes one outcome per attempt in `Network.attempt`. The JSON text of a batch is not modelled; only whether serialization succeeds is.
- The floating-point statistics of a snapshot (mean, median, percentiles) come from the `stats` function passed to `Timer.Flush`. Max and min are computed on integers.
- `MetricsHelper` (`processTags`, `recoverTags`, `appendTags`, `LocalHostUtil`, `NamedThreadFactory`, `ExceptionUtil`) is not part of this model. `processTags`/`recoverTags` are opaque function values, and nothing is assumed about how they relate. `appendTags` is kept symbolic, as `TagArg.Appended(baseTags, tagKvs)`.
- `MetricsManager` and `MetricsConfig` are not part of this model. The reporter returns the call it would make on the manager of its prefix. The configured domain is already substituted into the two URLs in `Settings`.
- The metrics package's `Constant` is not part of this model: `MAX_FLUSH_SIZE`, the item lifetime, the URLs and `DEFAULT_METRICS_PREFIX` are parameters.
- Logging has no behavioural effect and is left out.
- The clock is the `now` parameter. A method that reads it twice in the source reads it once here.
- Null tag maps: `new TreeMap<>(null)` throws in `emit` and in `getOrAddTsTimer`, so the `tags != null` test at `MetricsClient.java:159` can never be false. A Dafny map is never null, so this path is not modelled.
- Requests.IterationOrder: the order of `HashMap.values()` is left unspecified, not modelled. A flush returns the order it used as `order`, and the batch is stated in that order.
- Counters.Counter.Flush and Stores.Store.Flush: they do not model a `MetricRequest` object shared between the map and the list. The requests are values, stamped after they are taken out of the map, which gives the same batch.
- Reporter.ReporterBuilder.Build: the source puts `host` into the caller's own map object, so the caller sees it too. The builder keeps its tags by value, so that aliasing is not modelled.
- Reporter.ReporterBuilder.Build: when the caller passed an unmodifiable map, `baseTags.put` (`MetricsReporter.java:55`) throws `UnsupportedOperationException`. A Dafny map value is always updatable, so the model's `Build` never throws.
- Reporter.Store: a long value is forwarded; the manager's conversion to a double is not part of this model.
- Timers.SnapshotMax and Timers.SnapshotMin: they state the result of codahale's `UniformSnapshot` on the copied values (the largest and smallest sample, 0 when empty). That library is not part of this model.
- The private no-argument constructor of `MetricsClient`, the one-argument series constructors and the three-argument `Timer` constructor only supply defaults. Their constants are declared (`Counters.DEFAULT_EXPIRE_TIME_MS`, `Stores.DEFAULT_EXPIRE_TIME_MS`, `Timers.DEFAULT_FLUSH_TIME`), and the full constructors are modelled.
- The delivery log of `MetricsHttpClient` is ghost state with no source counterpart. It records what a flush hands to `emit`, whatever the network then does.
- `LockFreeSlidingWindowReservoir.size()` is the function `Size()`, with no contract beyond its body.
- `ClientHolder`'s timeouts (800 ms) and protocol list configure the HTTP library. Only the constant is kept.

## Findings

| source | as written | input that shows it | evidently intended | confidence | as-written member | corrected member |
|---|---|---|---|---|---|---|
| src/main/java/byteplus/sdk/core/metrics/MetricsReporter.java:120-124 | `e.getLocalizedMessage().contains(...)` runs as soon as the `instanceof` test passes, with no null check | a `SocketTimeoutException` (or any `InterruptedIOException`) whose message is null throws `NullPointerException` from `exception`, even when metrics are disabled | a null message matches no rule, and the exception is tagged `message:other` | medium, not executed | Reporter.ExceptionAsWritten, Reporter.NullMessageThrows | Reporter.Exception, Reporter.MessageTag |
