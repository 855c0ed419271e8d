/** `MetricsHttpClient`: the delivery transport. One instance per destination URL, a
    bounded queue of pending batches that drops when full, and a send with a fixed
    number of attempts. The network is an oracle of per-attempt outcomes. */
module Transport {
  import opened JavaNumbers
  import opened Common
  import opened Requests

  const CONTENT_TYPE_JSON: string := "application/json"
  /** The connect, write and read timeout of the shared HTTP client. */
  const DEFAULT_HTTP_TIMEOUT_MS: int := 800
  /** Capacity of the pending-batch queue. */
  const MAX_REQUEST_SIZE: int := 5000
  /** Attempts per send. */
  const MAX_TRY_TIMES: int := 2

  /** What one `newCall(request).execute()` does: a response, successful or not, or a
      thrown exception. */
  datatype AttemptOutcome = Responded(successful: bool) | Failed(exception: string)

  predicate Succeeded(o: AttemptOutcome)
  {
    o.Responded? && o.successful
  }

  /** The world outside: whether the JSON serializer accepts the batch, and the outcome
      of the i-th network attempt of a send. */
  datatype Network = Network(serializes: bool, attempt: nat -> AttemptOutcome)

  /** The HTTP request a batch becomes: verb, destination, headers and the batch as the
      body (its JSON text is not part of this model). */
  datatype HttpRequest = HttpRequest(verb: string, url: string, headers: map<string, string>, body: Batch<Num>)

  /** `generateMetricsHeader`: content negotiation only, JSON both ways. */
  function GenerateMetricsHeader(): (h: map<string, string>)
    ensures h.Keys == {"Content-Type", "Accept"}
    ensures forall k :: k in h ==> h[k] == CONTENT_TYPE_JSON
  {
    map["Content-Type" := CONTENT_TYPE_JSON, "Accept" := CONTENT_TYPE_JSON]
  }

  /** `buildMetricsRequest`: a POST of the batch to `url` with the JSON headers; the
      serializer is the one step that can throw. */
  function BuildMetricsRequest(url: string, requests: Batch<Num>, net: Network): (r: Result<HttpRequest>)
    ensures r.Ok? <==> net.serializes
    ensures r.Ok? ==> r.value.verb == "POST" && r.value.url == url && r.value.body == requests &&
                      r.value.headers == GenerateMetricsHeader()
  {
    if net.serializes then Ok(HttpRequest("POST", url, GenerateMetricsHeader(), requests))
    else Threw("serialization failed")
  }

  /** The queue after `offer(batch)` on a queue bounded by `MAX_REQUEST_SIZE`. */
  function Offered(queue: seq<Batch<Num>>, batch: Batch<Num>): seq<Batch<Num>>
  {
    if |queue| < MAX_REQUEST_SIZE then queue + [batch] else queue
  }

  /** The queue after offering `batches` one by one. */
  function OfferedAll(queue: seq<Batch<Num>>, batches: seq<Batch<Num>>): seq<Batch<Num>>
    decreases |batches|
  {
    if batches == [] then queue
    else Offered(OfferedAll(queue, batches[..|batches| - 1]), batches[|batches| - 1])
  }

  /** Offering more batches than there is room for keeps the earliest ones, in order, and
      drops exactly the excess: the queue never holds more than `MAX_REQUEST_SIZE`. */
  lemma {:induction false} OfferedAllKeepsEarliest(queue: seq<Batch<Num>>, batches: seq<Batch<Num>>)
    requires |queue| <= MAX_REQUEST_SIZE
    ensures OfferedAll(queue, batches) ==
      queue + batches[..Min(|batches|, MAX_REQUEST_SIZE - |queue|)]
    ensures |OfferedAll(queue, batches)| == Min(|queue| + |batches|, MAX_REQUEST_SIZE)
    decreases |batches|
  {
    if batches != [] {
      var n := |batches| - 1;
      OfferedAllKeepsEarliest(queue, batches[..n]);
      var room := MAX_REQUEST_SIZE - |queue|;
      if n < room {
        assert batches[..n] + [batches[n]] == batches[..n + 1];
        assert queue + batches[..n] + [batches[n]] == queue + batches[..n + 1];
      } else {
        assert batches[..n][..room] == batches[..room];
      }
    }
  }

  /** One transport per URL. */
  class MetricsHttpClient {
    const url: string
    var queue: seq<Batch<Num>>
    var stopped: bool
    /** Every batch handed to `emit`, oldest first: what the series' flushes delivered. */
    ghost var log: seq<Batch<Num>>

    ghost predicate Valid()
      reads this`queue
    {
      |queue| <= MAX_REQUEST_SIZE
    }

    /** The worker thread the constructor starts is not part of this model. */
    constructor (url: string)
      ensures Valid() && this.url == url && queue == [] && !stopped && log == []
    {
      this.url := url;
      queue := [];
      stopped := false;
      log := [];
    }

    /** `put`: a non-blocking `offer`; when the queue is full the batch is dropped and
      the caller sees nothing. */
    method Put(metricRequests: Batch<Num>)
      requires Valid()
      modifies this`queue
      ensures Valid()
      ensures queue == Offered(old(queue), metricRequests)
      ensures |old(queue)| < MAX_REQUEST_SIZE ==> queue == old(queue) + [metricRequests]
      ensures |old(queue)| >= MAX_REQUEST_SIZE ==> queue == old(queue)
    {
      if |queue| < MAX_REQUEST_SIZE {
        queue := queue + [metricRequests];
      }
    }

    /** `send`: at most `MAX_TRY_TIMES` attempts; the first successful response ends it
      with `true`; an unsuccessful response or an exception costs one attempt. `attempts`
      is how many network calls were made. */
    method Send(request: HttpRequest, net: Network) returns (ok: bool, attempts: nat)
      ensures 1 <= attempts <= MAX_TRY_TIMES
      ensures ok <==> exists i :: 0 <= i < MAX_TRY_TIMES && Succeeded(net.attempt(i))
      ensures forall i :: 0 <= i < attempts - 1 ==> !Succeeded(net.attempt(i))
      ensures ok ==> Succeeded(net.attempt(attempts - 1))
      ensures !ok ==> attempts == MAX_TRY_TIMES
    {
      attempts := 0;
      for i := 0 to MAX_TRY_TIMES
        invariant attempts == i
        invariant forall j :: 0 <= j < i ==> !Succeeded(net.attempt(j))
      {
        var response := net.attempt(i);
        attempts := attempts + 1;
        if response.Responded? && response.successful {
          return true, attempts;
        }
      }
      return false, attempts;
    }

    /** `emit`: builds the request and sends it synchronously. A serializer failure
      escapes as an exception before any attempt is made. */
    method Emit(metricRequests: Batch<Num>, net: Network) returns (r: Result<bool>, attempts: nat)
      modifies this`log
      ensures log == old(log) + [metricRequests]
      ensures r.Threw? <==> !net.serializes
      ensures r.Threw? ==> attempts == 0
      ensures r.Ok? ==> 1 <= attempts <= MAX_TRY_TIMES
      ensures r.Ok? ==> (r.value <==> exists i :: 0 <= i < MAX_TRY_TIMES && Succeeded(net.attempt(i)))
    {
      log := log + [metricRequests];
      var request := BuildMetricsRequest(url, metricRequests, net);
      if request.Threw? {
        return Threw(request.exception), 0;
      }
      var ok;
      ok, attempts := Send(request.value, net);
      r := Ok(ok);
    }

    /** `stop`: shuts the worker down. */
    method Stop()
      modifies this`stopped
      ensures stopped
    {
      stopped := true;
    }
  }

  /** The process-wide `clientCache`, as an explicit object. */
  class HttpClientCache {
    var clients: map<string, MetricsHttpClient>

    ghost predicate Valid()
      reads this, clients.Values
    {
      forall u :: u in clients ==> clients[u].url == u && clients[u].Valid()
    }

    constructor ()
      ensures Valid() && clients == map[]
    {
      clients := map[];
    }

    /** `getClient(url)`: the cached transport for `url`, or a new one that is cached
      from then on; an existing entry is never replaced. */
    method GetClient(url: string) returns (c: MetricsHttpClient)
      requires Valid()
      modifies this`clients
      ensures Valid()
      ensures c.url == url && c.Valid()
      ensures url in old(clients) ==> c == old(clients)[url] && clients == old(clients)
      ensures url !in old(clients) ==> fresh(c) && clients == old(clients)[url := c] && c.queue == [] && c.log == []
    {
      if url in clients {
        return clients[url];
      }
      c := new MetricsHttpClient(url);
      clients := clients[url := c];
    }
  }
}
