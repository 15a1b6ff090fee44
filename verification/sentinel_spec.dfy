/**
 The sentinel's local state (sentinel/server.go) as a value and what each operation does to
 it. The replica sets kept in etcd are part of the state. Results of etcd calls are
 parameters.
 */
module SentinelSpec {
  import opened Common
  import opened RingOrder
  import opened RingChanges
  import opened HashRingImpl

  datatype Status = Healthy | Suspicious | Down
  datatype Broker = Broker(address: string, status: Status, topics: seq<string>)
  datatype Entry = Entry(brokers: seq<string>, version: nat, replicaCount: nat, leader: Option<string>)

  /** brokers: the registry; cache and locks: replica cache and topic versions; stored: the
      replica sets in etcd. */
  datatype Sentinel = Sentinel(ring: Ring, brokers: map<string, Broker>, cache: map<string, Entry>,
                               locks: map<string, nat>, stored: map<string, seq<string>>)

  datatype Config = Config(hash: Hash, replicas: nat)

  // ---- registry ----

  function Appear(c: Config, s: Sentinel, id: string, address: string, topics: seq<string>): Sentinel {
    s.(brokers := s.brokers[id := Broker(address, Healthy, topics)], ring := Add(s.ring, c.hash, c.replicas, id))
  }

  function Vanish(c: Config, s: Sentinel, id: string): Sentinel {
    s.(brokers := s.brokers - {id}, ring := Remove(s.ring, c.hash, c.replicas, id))
  }

  /** A heartbeat or an etcd PUT event: a new broker joins, a known one is healthy again. */
  function SeenAlive(c: Config, s: Sentinel, id: string, address: string): Sentinel {
    if id in s.brokers
    then s.(brokers := s.brokers[id := s.brokers[id].(address := address, status := Healthy)])
    else Appear(c, s, id, address, [])
  }

  function Register(c: Config, s: Sentinel, id: string, address: string, topics: seq<string>): Sentinel {
    if id in s.brokers then s
    else
      var t := Appear(c, s, id, address, topics);
      t.(cache := Without(t.cache, topics))
  }

  function Unregister(c: Config, s: Sentinel, id: string): Sentinel {
    if id !in s.brokers then s
    else
      var t := Vanish(c, s, id);
      t.(cache := Without(t.cache, s.brokers[id].topics))
  }

  function Lost(c: Config, s: Sentinel, id: string): Sentinel {
    if id in s.brokers then Vanish(c, s, id) else s
  }

  function Without<V>(m: map<string, V>, keys: seq<string>): map<string, V> {
    m - set k | k in keys
  }

  function SetStatus(brokers: map<string, Broker>, ids: seq<string>, status: Status): map<string, Broker> {
    map id | id in brokers :: if id in ids then brokers[id].(status := status) else brokers[id]
  }

  // ---- placement ----

  function IsHealthy(brokers: map<string, Broker>): string -> bool {
    id => id in brokers && brokers[id].status == Healthy
  }

  function Eligible(brokers: map<string, Broker>, current: seq<string>): string -> bool {
    id => id !in current && id in brokers && brokers[id].status == Healthy
  }

  function Reachable(brokers: map<string, Broker>, unreachable: seq<string>): string -> bool {
    id => id !in unreachable && id in brokers && brokers[id].status == Healthy
  }

  function NotIn(ids: seq<string>): string -> bool {
    id => id !in ids
  }

  /** The healthy ones among the first `count` nodes offered for a topic. */
  function Placed(c: Config, s: Sentinel, topic: string, count: nat): seq<string> {
    Filter(Take(Offered(Walk(s.ring, c.hash(topic))), count), IsHealthy(s.brokers))
  }

  /** Every broker the replacement search may use, in the order it meets them. */
  function Candidates(c: Config, s: Sentinel, topic: string, current: seq<string>): seq<string> {
    Filter(Offered(Walk(s.ring, c.hash(topic))), Eligible(s.brokers, current))
  }

  /** Top up `current` to `count` brokers, or fail when the candidates run out. */
  function TopUp(c: Config, s: Sentinel, topic: string, current: seq<string>, count: nat): Option<seq<string>> {
    if |current| >= count then Some(current)
    else
      var needed, found := count - |current|, Candidates(c, s, topic, current);
      if |found| < needed then None else Some(current + found[..needed])
  }

  /** Generate and store a replica set; a failed write to etcd is only logged. */
  function Generate(c: Config, s: Sentinel, topic: string, count: nat, setOk: bool): Sentinel {
    if setOk then s.(stored := s.stored[topic := Placed(c, s, topic, count)]) else s
  }

  /** Handle reports of unreachable brokers against the replica set in etcd. The second
      result is the replica set on success. */
  function HandleUnreachable(c: Config, s: Sentinel, topic: string, count: nat, unreachable: seq<string>,
                             getOk: bool, setOk: bool): (Sentinel, Option<seq<string>>) {
    var t := s.(brokers := SetStatus(s.brokers, unreachable, Down));
    if !getOk then (t, None)
    else
      var now := if topic in t.stored then t.stored[topic] else [];
      var kept := Filter(now, Reachable(t.brokers, unreachable));
      var full := TopUp(c, t, topic, kept, count);
      if full.None? || |full.value| != count || !setOk then (t, None)
      else (t.(stored := t.stored[topic := full.value]), full)
  }

  // ---- the replica cache ----

  function FirstOf(ids: seq<string>): Option<string> {
    if ids == [] then None else Some(ids[0])
  }

  function Version(s: Sentinel, topic: string): nat {
    if topic in s.locks then s.locks[topic] else 0
  }

  function PutCache(s: Sentinel, topic: string, ids: seq<string>, count: nat): Sentinel {
    var v := Version(s, topic) + 1;
    s.(locks := s.locks[topic := v], cache := s.cache[topic := Entry(ids, v, count, FirstOf(ids))])
  }

  function Touch(s: Sentinel, topic: string): Sentinel {
    s.(locks := s.locks[topic := Version(s, topic)])
  }

  function CacheHit(s: Sentinel, topic: string, count: nat): bool {
    topic in s.cache && s.cache[topic].replicaCount == count
  }

  /** Fill the cache unless it holds an entry for the same replica count. */
  function Fill(c: Config, s: Sentinel, topic: string, count: nat): Sentinel {
    if CacheHit(s, topic, count) then Touch(s, topic)
    else PutCache(s, topic, Placed(c, s, topic, count), count)
  }

  /** Drop reported brokers from a cached entry and top it up. The second result holds the
      brokers to go on with: None when the replacement search failed. */
  function Repair(c: Config, s: Sentinel, topic: string, count: nat, unreachable: seq<string>)
    : (Sentinel, Option<seq<string>>)
    requires topic in s.cache
  {
    var u := s.(brokers := SetStatus(s.brokers, unreachable, Down));
    var kept := Filter(s.cache[topic].brokers, NotIn(unreachable));
    if |kept| >= count then (u, Some(kept))
    else
      var full := TopUp(c, u, topic, kept, count);
      if full.None? then (u, None) else (PutCache(u, topic, full.value, count), full)
  }

  /** A legacy query. */
  function Legacy(c: Config, s: Sentinel, topic: string, count: nat, unreachable: seq<string>)
    : (Sentinel, Option<seq<string>>)
  {
    var t := Fill(c, s, topic, count);
    if unreachable == [] then (t, Some(t.cache[topic].brokers)) else Repair(c, t, topic, count, unreachable)
  }

  // ---- runs ----

  datatype Op =
    | KeepAlive(id: string, address: string, renewed: bool)
    | RegisterBroker(id: string, address: string, topics: seq<string>)
    | UnregisterBroker(id: string, released: bool)
    | HeartbeatPut(id: string, broker: Option<string>)
    | HeartbeatDelete(id: string)
    | GenerateReplicas(topic: string, count: nat, setOk: bool)
    | ReportUnreachable(topic: string, count: nat, unreachable: seq<string>, getOk: bool, setOk: bool)
    | LegacyQuery(topic: string, count: nat, unreachable: seq<string>)
    | Invalidate(topic: string)

  function Next(c: Config, s: Sentinel, op: Op): Sentinel {
    match op
    case KeepAlive(id, address, renewed) => if renewed then SeenAlive(c, s, id, address) else s
    case RegisterBroker(id, address, topics) => Register(c, s, id, address, topics)
    case UnregisterBroker(id, released) => if released then Unregister(c, s, id) else s
    case HeartbeatPut(id, broker) => if broker.Some? then SeenAlive(c, s, id, broker.value) else s
    case HeartbeatDelete(id) => Lost(c, s, id)
    case GenerateReplicas(topic, count, setOk) => Generate(c, s, topic, count, setOk)
    case ReportUnreachable(topic, count, ids, getOk, setOk) =>
      HandleUnreachable(c, s, topic, count, ids, getOk, setOk).0
    case LegacyQuery(topic, count, ids) => Legacy(c, s, topic, count, ids).0
    case Invalidate(topic) => s.(cache := Without(s.cache, [topic]))
  }

  function Fresh(): Sentinel {
    Sentinel(Ring([], map[]), map[], map[], map[], map[])
  }

  function Run(c: Config, ops: seq<Op>): Sentinel {
    if ops == [] then Fresh() else Next(c, Run(c, ops[..|ops| - 1]), ops[|ops| - 1])
  }
}
