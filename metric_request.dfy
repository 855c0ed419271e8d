/** The wire unit: one metric point of a batch, and the two steps every aggregating
    flush takes to turn its map of pending requests into a batch. */
module Requests {
  import opened JavaNumbers
  import opened Common

  /** `MetricRequest<T>`: name, unix-seconds timestamp, value and flat tag mapping.
      A freshly built request has timestamp 0 until a flush stamps it. */
  datatype MetricRequest<T> = MetricRequest(metric: string, timestamp: Long, value: T, tags: Tags)

  /** The values a timer reports: count, max and min are longs, the rest doubles
      (a double is carried as a `real`; no arithmetic is done on it here). */
  datatype Num = LongValue(l: Long) | DoubleValue(d: real)

  /** One batch, sent in a single network call. */
  type Batch<T> = seq<MetricRequest<T>>

  /** No source counterpart: the transport takes a raw `List<MetricRequest>`, and a counter
      passes its list on unchanged. This only retypes each long value as a `Num` so that one
      transport type serves all three series. */
  function LongBatch(rs: Batch<Long>): (b: Batch<Num>)
    ensures |b| == |rs|
    ensures forall i :: 0 <= i < |rs| ==>
      b[i] == MetricRequest(rs[i].metric, rs[i].timestamp, LongValue(rs[i].value), rs[i].tags)
  {
    if rs == [] then []
    else
      var r := rs[0];
      [MetricRequest(r.metric, r.timestamp, LongValue(r.value), r.tags)] + LongBatch(rs[1..])
  }

  /** No source counterpart: a store's list passed on unchanged, each double value retyped
      as a `Num`. */
  function DoubleBatch(rs: Batch<real>): (b: Batch<Num>)
    ensures |b| == |rs|
    ensures forall i :: 0 <= i < |rs| ==>
      b[i] == MetricRequest(rs[i].metric, rs[i].timestamp, DoubleValue(rs[i].value), rs[i].tags)
  {
    if rs == [] then []
    else
      var r := rs[0];
      [MetricRequest(r.metric, r.timestamp, DoubleValue(r.value), r.tags)] + DoubleBatch(rs[1..])
  }

  /** `keys` lists each element of `s` exactly once, in some order. */
  ghost predicate Lists<K>(keys: seq<K>, s: set<K>)
  {
    (forall i, j :: 0 <= i < j < |keys| ==> keys[i] != keys[j]) &&
    (forall i :: 0 <= i < |keys| ==> keys[i] in s) &&
    (forall k :: k in s ==> k in keys)
  }

  /** A listing without repeats is exactly as long as the set it lists. */
  lemma {:induction false} ListsCardinality<K>(keys: seq<K>, s: set<K>)
    requires Lists(keys, s)
    ensures |keys| == |s|
    decreases |keys|
  {
    if keys != [] {
      var n := |keys| - 1;
      var last := keys[n];
      assert keys[..n] + [last] == keys;
      forall k | k in s - {last} ensures k in keys[..n] {
        var i :| 0 <= i < |keys| && keys[i] == k;
        assert i != n;
      }
      ListsCardinality(keys[..n], s - {last});
    }
  }

  /** `new ArrayList<>(valueMap.values())`: the map's keys in its (unspecified) iteration
      order, each exactly once. */
  method IterationOrder<V>(m: map<string, V>) returns (keys: seq<string>)
    ensures Lists(keys, m.Keys)
  {
    keys := [];
    var rest := m.Keys;
    while rest != {}
      invariant rest <= m.Keys
      invariant forall i, j :: 0 <= i < j < |keys| ==> keys[i] != keys[j]
      invariant forall i :: 0 <= i < |keys| ==> keys[i] in m.Keys && keys[i] !in rest
      invariant forall k :: k in m.Keys ==> k in rest || k in keys
      decreases rest
    {
      var k :| k in rest;
      keys := keys + [k];
      rest := rest - {k};
    }
  }

  /** The map's values in the order of `keys`. */
  function ValuesIn<V>(m: map<string, V>, keys: seq<string>): (vs: seq<V>)
    requires forall i :: 0 <= i < |keys| ==> keys[i] in m
    ensures |vs| == |keys| && forall i :: 0 <= i < |keys| ==> vs[i] == m[keys[i]]
  {
    seq(|keys|, i requires 0 <= i < |keys| => m[keys[i]])
  }

  /** The loop `for (request : requestList) request.setTimestamp(timestamp)`: every request
      of the batch carries the one shared timestamp, and nothing else about it changes. */
  method StampAll<T>(rs: Batch<T>, timestamp: Long) returns (stamped: Batch<T>)
    ensures |stamped| == |rs|
    ensures forall i :: 0 <= i < |rs| ==> stamped[i] == rs[i].(timestamp := timestamp)
  {
    stamped := [];
    for i := 0 to |rs|
      invariant |stamped| == i
      invariant forall j :: 0 <= j < i ==> stamped[j] == rs[j].(timestamp := timestamp)
    {
      stamped := stamped + [rs[i].(timestamp := timestamp)];
    }
  }

  /** What an aggregating flush hands to the transport: the pending requests of `m` in
      the order `keys`, each stamped with `timestamp`. */
  ghost function StampedBatch<T>(m: map<string, MetricRequest<T>>, keys: seq<string>, timestamp: Long): Batch<T>
    requires forall i :: 0 <= i < |keys| ==> keys[i] in m
  {
    seq(|keys|, i requires 0 <= i < |keys| => m[keys[i]].(timestamp := timestamp))
  }
}
