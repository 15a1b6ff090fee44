/**
 Which brokers the sentinel picks, and what each operation does to the registry and the
 replica cache: placement takes the nearest brokers clockwise, replacement changes as little
 as it can.
 */
module SentinelPlacement {
  import opened Common
  import opened RingOrder
  import opened RingChanges
  import opened HashRingImpl
  import opened RingOffers
  import opened SentinelSpec
  import opened SentinelTheorems

  // ---- picking in order ----

  ghost predicate Before(order: seq<string>, a: string, b: string) {
    exists p, q :: 0 <= p < q < |order| && order[p] == a && order[q] == b
  }

  /** The ids stand in the order in which `order` lists them. */
  ghost predicate OrderedBy(ids: seq<string>, order: seq<string>) {
    forall i, j :: 0 <= i < j < |ids| ==> Before(order, ids[i], ids[j])
  }

  lemma {:induction false} PositionIn(s: seq<string>, keep: string -> bool, i: nat) returns (p: nat)
    requires i < |Filter(s, keep)|
    ensures p < |s| && s[p] == Filter(s, keep)[i]
  {
    var rest := s[..|s| - 1];
    if i < |Filter(rest, keep)| {
      p := PositionIn(rest, keep, i);
    } else {
      p := |s| - 1;
    }
  }

  lemma BeforeMore(s: seq<string>, more: seq<string>, a: string, b: string)
    requires Before(s, a, b)
    ensures Before(s + more, a, b)
  {
    var p, q :| 0 <= p < q < |s| && s[p] == a && s[q] == b;
    assert (s + more)[p] == a && (s + more)[q] == b;
  }

  lemma {:induction false} FilterOrdered(s: seq<string>, keep: string -> bool)
    ensures OrderedBy(Filter(s, keep), s)
  {
    if s != [] {
      var rest, last := s[..|s| - 1], s[|s| - 1];
      FilterOrdered(rest, keep);
      var f, r := Filter(s, keep), Filter(rest, keep);
      assert s == rest + [last];
      forall i, j | 0 <= i < j < |f| ensures Before(s, f[i], f[j]) {
        if j < |r| {
          BeforeMore(rest, [last], f[i], f[j]);
        } else {
          var p := PositionIn(rest, keep, i);
          assert s[p] == f[i] && s[|s| - 1] == f[j];
        }
      }
    }
  }

  /** What the first n of a filtered sequence leave out comes later. */
  lemma NearestFirst(s: seq<string>, keep: string -> bool, n: nat, a: string, b: string)
    requires n <= |Filter(s, keep)| && a in Filter(s, keep)[..n] && b in Filter(s, keep) && b !in Filter(s, keep)[..n]
    ensures Before(s, a, b)
  {
    var f := Filter(s, keep);
    FilterOrdered(s, keep);
    var i :| 0 <= i < n && f[..n][i] == a;
    var j :| 0 <= j < |f| && f[j] == b;
    if j < n {
      assert false;
    }
    assert Before(s, f[i], f[j]);
  }

  // ---- placement ----

  ghost predicate Good(brokers: map<string, Broker>, id: string) {
    id in brokers && brokers[id].status == Healthy
  }

  /** The brokers clockwise from a topic's position. */
  function Nearest(c: Config, s: Sentinel, topic: string): seq<string> {
    Order(s.ring, c.hash(topic))
  }

  /** The iterator offers all registered brokers, in this order. */
  lemma NearestIs(c: Config, s: Sentinel, topic: string)
    requires Settled(c, s) && c.replicas >= 2
    ensures Offered(Walk(s.ring, c.hash(topic))) == Nearest(c, s, topic)
    ensures |Nearest(c, s, topic)| == |s.brokers.Keys| && forall id :: id in Nearest(c, s, topic) <==> id in s.brokers
  {
    hide IsRingOf, NoCollision, Offered, Walk, Distinct;
    GetNodesOnRing(s.ring, c.hash, c.replicas, s.brokers.Keys, c.hash(topic), 0);
    WalkMembers(s.ring, c.hash, c.replicas, s.brokers.Keys, c.hash(topic));
  }

  lemma TakeIs(s: seq<string>, n: nat)
    ensures Take(s, n) == s[..Min(n, |s|)]
  {
  }

  /** With at least two virtual nodes a broker, placement takes exactly the healthy ones among
      the first `count` brokers clockwise, in that order. */
  lemma PlacedIs(c: Config, s: Sentinel, topic: string, count: nat)
    requires Settled(c, s) && c.replicas >= 2
    ensures var o := Nearest(c, s, topic);
      && |o| == |s.brokers.Keys| && NoRepeat(Placed(c, s, topic, count)) && OrderedBy(Placed(c, s, topic, count), o)
      && forall id :: id in Placed(c, s, topic, count) <==> id in o[..Min(count, |o|)] && Good(s.brokers, id)
  {
    hide Settled, Nearest, Offered, Walk, NoRepeat, Filter, Take;
    var o := Nearest(c, s, topic);
    PlacedOk(c, s, topic, count);
    NearestIs(c, s, topic);
    TakeIs(o, count);
    var first, keep := o[..Min(count, |o|)], IsHealthy(s.brokers);
    FilterMembers(first, keep);
    FilterOrdered(first, keep);
    hide OrderedBy;
    OrderedMore(Filter(first, keep), first, o[Min(count, |o|)..]);
    assert o == first + o[Min(count, |o|)..];
  }

  lemma OrderedMore(ids: seq<string>, order: seq<string>, more: seq<string>)
    requires OrderedBy(ids, order)
    ensures OrderedBy(ids, order + more)
  {
    hide Before;
    forall i, j | 0 <= i < j < |ids| ensures Before(order + more, ids[i], ids[j]) {
      BeforeMore(order, more, ids[i], ids[j]);
    }
  }

  /** Hence all of them when every broker is healthy. */
  lemma AllPlaced(c: Config, s: Sentinel, topic: string, count: nat)
    requires Settled(c, s) && c.replicas >= 2 && forall id :: id in s.brokers ==> s.brokers[id].status == Healthy
    ensures var o := Nearest(c, s, topic);
      |o| == |s.brokers.Keys| && Placed(c, s, topic, count) == o[..Min(count, |s.brokers.Keys|)]
  {
    hide Settled, Nearest, Offered, Walk, Filter, Take;
    var o := Nearest(c, s, topic);
    NearestIs(c, s, topic);
    TakeIs(o, count);
    FilterAll(o[..Min(count, |o|)], IsHealthy(s.brokers));
  }

  /** In every run a generated replica set is stored, if etcd takes it, and consists of the
      healthy ones among the first `count` registered brokers clockwise. */
  lemma GeneratedIs(c: Config, ops: seq<Op>, ids: set<string>, topic: string, count: nat, setOk: bool)
    requires NoCollision(c.hash, c.replicas, ids) && "" !in ids && c.replicas >= 2
    requires forall k :: 0 <= k < |ops| ==> Mentions(ops[k]) <= ids
    ensures var (s, t) := (Run(c, ops), Next(c, Run(c, ops), GenerateReplicas(topic, count, setOk)));
      var o := Nearest(c, s, topic);
      if !setOk then t == s
      else
        && topic in t.stored && t == s.(stored := s.stored[topic := t.stored[topic]]) && |o| == |s.brokers.Keys|
        && OrderedBy(t.stored[topic], o) && NoRepeat(t.stored[topic])
        && forall id :: id in t.stored[topic] <==> id in o[..Min(count, |o|)] && Good(s.brokers, id)
  {
    hide Run, Settled, NoCollision, Placed, Nearest, OrderedBy, NoRepeat;
    RunSettled(c, ops, ids);
    PlacedIs(c, Run(c, ops), topic, count);
  }

  // ---- replacement ----

  /** What topping up adds is spare, in clockwise order, and nearer than what it leaves out. */
  lemma TopUpNearest(c: Config, s: Sentinel, topic: string, current: seq<string>, count: nat)
    requires Settled(c, s) && c.replicas >= 2 && |current| <= count && TopUp(c, s, topic, current, count).Some?
    ensures var full, o := TopUp(c, s, topic, current, count).value, Nearest(c, s, topic);
      && current <= full && OrderedBy(full[|current|..], o)
      && (forall id :: id in full[|current|..] ==> Good(s.brokers, id) && id !in current)
      && (forall a, b :: a in full[|current|..] && Good(s.brokers, b) && b !in full ==> Before(o, a, b))
  {
    hide Settled, Nearest, Offered, Walk, Filter, OrderedBy, Before;
    var full, o, keep := TopUp(c, s, topic, current, count).value, Nearest(c, s, topic), Eligible(s.brokers, current);
    NearestIs(c, s, topic);
    var found, needed := Filter(o, keep), count - |current|;
    FilterMembers(o, keep);
    FilterOrdered(o, keep);
    if |current| < count {
      assert full == current + found[..needed] && full[|current|..] == found[..needed];
      FirstOrdered(found, needed, o);
      forall id | id in full[|current|..] ensures Good(s.brokers, id) && id !in current {
        assert id in found[..needed] && id in found;
      }
      forall a, b | a in full[|current|..] && Good(s.brokers, b) && b !in full ensures Before(o, a, b) {
        NearestFirst(o, keep, needed, a, b);
      }
    } else {
      assert full[|current|..] == [];
      NoneOrdered(o);
    }
  }

  lemma NoneOrdered(order: seq<string>)
    ensures OrderedBy([], order)
  {
  }

  lemma FirstOrdered(ids: seq<string>, n: nat, order: seq<string>)
    requires OrderedBy(ids, order) && n <= |ids|
    ensures OrderedBy(ids[..n], order)
  {
    hide Before;
    forall i, j | 0 <= i < j < n ensures Before(order, ids[..n][i], ids[..n][j]) {
      assert Before(order, ids[i], ids[j]);
    }
  }

  /** Failure handling replaces as little as it can: the replicas that are still registered,
      healthy and unreported stay in front, in their order, and the others give way to the
      nearest spare brokers clockwise. */
  lemma UnreachableKeeps(c: Config, s: Sentinel, topic: string, count: nat, unreachable: seq<string>,
                         getOk: bool, setOk: bool)
    returns (k: nat)
    requires Settled(c, s) && c.replicas >= 2
    requires HandleUnreachable(c, s, topic, count, unreachable, getOk, setOk).1.Some?
    ensures var left := SetStatus(s.brokers, unreachable, Down);
      var now := if topic in s.stored then s.stored[topic] else [];
      var full, o := HandleUnreachable(c, s, topic, count, unreachable, getOk, setOk).1.value, Nearest(c, s, topic);
      && k <= |full| == count && OrderedBy(full[..k], now)
      && (forall id :: id in full[..k] <==> id in now && Good(left, id) && id !in unreachable)
      && OrderedBy(full[k..], o) && (forall id :: id in full[k..] ==> Good(left, id) && id !in now)
      && (forall a, b :: a in full[k..] && Good(left, b) && b !in full ==> Before(o, a, b))
  {
    var left := SetStatus(s.brokers, unreachable, Down);
    var t := s.(brokers := left);
    var now := if topic in s.stored then s.stored[topic] else [];
    var kept := Filter(now, Reachable(left, unreachable));
    StatusKeys(s.brokers, unreachable, Down);
    SameRing(c, s, t);
    hide RingOk, NoCollision, Candidates, Filter, Order, Before;
    k := |kept|;
    TopUpNearest(c, t, topic, kept, count);
    FilterMembers(now, Reachable(left, unreachable));
    FilterOrdered(now, Reachable(left, unreachable));
    var full := TopUp(c, t, topic, kept, count).value;
    assert full[..k] == kept;
    assert forall id :: Good(left, id) ==> id !in unreachable;
  }

  /** The same for a cached entry: the brokers that were not reported stay in front. */
  lemma RepairKeeps(c: Config, s: Sentinel, topic: string, count: nat, unreachable: seq<string>) returns (k: nat)
    requires Settled(c, s) && c.replicas >= 2 && CacheOk(s) && topic in s.cache && s.cache[topic].replicaCount == count
    requires Repair(c, s, topic, count, unreachable).1.Some?
    ensures var (left, now) := (SetStatus(s.brokers, unreachable, Down), s.cache[topic].brokers);
      var full, o := Repair(c, s, topic, count, unreachable).1.value, Nearest(c, s, topic);
      && k <= |full| && OrderedBy(full[..k], now)
      && (forall id :: id in full[..k] <==> id in now && id !in unreachable)
      && OrderedBy(full[k..], o) && (forall id :: id in full[k..] ==> Good(left, id) && id !in full[..k])
      && (forall a, b :: a in full[k..] && Good(left, b) && b !in full ==> Before(o, a, b))
  {
    var left := SetStatus(s.brokers, unreachable, Down);
    var t := s.(brokers := left);
    var now := s.cache[topic].brokers;
    var kept := Filter(now, NotIn(unreachable));
    StatusKeys(s.brokers, unreachable, Down);
    SameRing(c, s, t);
    hide RingOk, NoCollision, Candidates, Filter, Order, Before, TopUp, CacheOk;
    k := |kept|;
    FilterMembers(now, NotIn(unreachable));
    FilterOrdered(now, NotIn(unreachable));
    if |kept| < count {
      TopUpNearest(c, t, topic, kept, count);
    }
    var full := Repair(c, s, topic, count, unreachable).1.value;
    assert full[..k] == kept;
  }

  // ---- the registry ----

  /** Everything but the registry and the ring is as it was. */
  ghost predicate OnlyRegistry(s: Sentinel, t: Sentinel) {
    t.cache == s.cache && t.locks == s.locks && t.stored == s.stored
  }

  ghost predicate OthersKept(s: Sentinel, t: Sentinel, id: string) {
    t.brokers.Keys - {id} == s.brokers.Keys - {id}
    && forall x :: x in s.brokers && x != id ==> x in t.brokers && t.brokers[x] == s.brokers[x]
  }

  /** A heartbeat makes its broker registered and healthy under the address it came from,
      whatever was known of it, keeps the topics of a known one, and changes no other. */
  lemma HeartbeatRevives(c: Config, s: Sentinel, id: string, address: string, put: bool)
    ensures var t := Next(c, s, if put then HeartbeatPut(id, Some(address)) else KeepAlive(id, address, true));
      && id in t.brokers && OthersKept(s, t, id) && OnlyRegistry(s, t)
      && t.brokers[id] == Broker(address, Healthy, if id in s.brokers then s.brokers[id].topics else [])
      && (id in s.brokers ==> t.ring == s.ring)
  {
    hide SeenAlive;
    SeenIs(c, s, id, address);
  }

  lemma SeenIs(c: Config, s: Sentinel, id: string, address: string)
    ensures var t := SeenAlive(c, s, id, address);
      && id in t.brokers && OthersKept(s, t, id) && OnlyRegistry(s, t)
      && t.brokers[id] == Broker(address, Healthy, if id in s.brokers then s.brokers[id].topics else [])
      && (id in s.brokers ==> t.ring == s.ring)
  {
    hide Add;
  }

  /** Without a renewed lease or a broker in the event nothing happens. */
  lemma NoHeartbeat(c: Config, s: Sentinel, id: string, address: string)
    ensures Next(c, s, KeepAlive(id, address, false)) == s && Next(c, s, HeartbeatPut(id, None)) == s
    ensures Next(c, s, UnregisterBroker(id, false)) == s
  {
  }

  /** Exactly the entries of these topics are gone from the cache. */
  ghost predicate Dropped(s: Sentinel, t: Sentinel, topics: seq<string>) {
    && (forall topic :: topic in t.cache <==> topic in s.cache && topic !in topics)
    && (forall topic :: topic in t.cache ==> t.cache[topic] == s.cache[topic])
    && t.locks == s.locks && t.stored == s.stored
  }

  /** Registration takes an unknown broker in as healthy, with its topics, whose cached entries
      are dropped; a known one is refused. */
  lemma RegisterDrops(c: Config, s: Sentinel, id: string, address: string, topics: seq<string>)
    ensures var t := Next(c, s, RegisterBroker(id, address, topics));
      if id in s.brokers then t == s
      else
        && OthersKept(s, t, id) && id in t.brokers && t.brokers[id] == Broker(address, Healthy, topics)
        && Dropped(s, t, topics)
  {
    hide Add;
  }

  /** A broker that unregisters is gone, and so are the cached entries of its topics. */
  lemma UnregisterDrops(c: Config, s: Sentinel, id: string)
    ensures var t := Next(c, s, UnregisterBroker(id, true));
      && id !in t.brokers && OthersKept(s, t, id)
      && Dropped(s, t, if id in s.brokers then s.brokers[id].topics else [])
  {
    hide Remove;
  }

  /** A broker whose lease ran out is gone; its topics keep their cached entries. */
  lemma LostStaysCached(c: Config, s: Sentinel, id: string)
    ensures var t := Next(c, s, HeartbeatDelete(id));
      id !in t.brokers && OthersKept(s, t, id) && OnlyRegistry(s, t)
  {
    hide Remove;
  }

  /** Reports mark exactly the reported brokers that are registered as down. */
  lemma ReportsMarkDown(c: Config, s: Sentinel, op: Op, id: string)
    requires op.ReportUnreachable? || (op.LegacyQuery? && op.unreachable != [])
    ensures var t := Next(c, s, op);
      && (id in t.brokers <==> id in s.brokers)
      && (id in s.brokers ==>
            t.brokers[id] == if id in op.unreachable then s.brokers[id].(status := Down) else s.brokers[id])
  {
    hide HandleUnreachable, Legacy, SetStatus;
    StatusIs(s.brokers, op.unreachable, id);
    if op.ReportUnreachable? {
      UnreachableRegistry(c, s, op);
    } else {
      QueryMarks(c, s, op);
    }
  }

  lemma StatusIs(brokers: map<string, Broker>, ids: seq<string>, id: string)
    ensures var t := SetStatus(brokers, ids, Down);
      && (id in t <==> id in brokers)
      && (id in brokers ==> t[id] == if id in ids then brokers[id].(status := Down) else brokers[id])
  {
  }

  lemma QueryMarks(c: Config, s: Sentinel, op: Op)
    requires op.LegacyQuery? && op.unreachable != []
    ensures Legacy(c, s, op.topic, op.count, op.unreachable).0.brokers == SetStatus(s.brokers, op.unreachable, Down)
  {
    hide SetStatus, TopUp, Filter, Placed;
  }

  // ---- the cache ----

  lemma InvalidateDrops(c: Config, s: Sentinel, topic: string)
    ensures var t := Next(c, s, Invalidate(topic)); Dropped(s, t, [topic]) && t.brokers == s.brokers && t.ring == s.ring
  {
  }

  /** A query without reports answers with the cached brokers: the entry that was there, if it
      was for the same replica count, or else the brokers placed now, under the next version. */
  lemma QueryIs(c: Config, s: Sentinel, topic: string, count: nat)
    ensures var (t, ids) := Legacy(c, s, topic, count, []);
      && topic in t.cache && ids == Some(t.cache[topic].brokers) && t.brokers == s.brokers && t.stored == s.stored
      && (forall x :: x != topic ==> (x in t.cache <==> x in s.cache) && Version(t, x) == Version(s, x))
      && (forall x :: x != topic && x in s.cache ==> t.cache[x] == s.cache[x])
      && if topic in s.cache && s.cache[topic].replicaCount == count
         then t.cache[topic] == s.cache[topic] && Version(t, topic) == Version(s, topic)
         else
           && t.cache[topic].brokers == Placed(c, s, topic, count) && t.cache[topic].replicaCount == count
           && t.cache[topic].version == Version(t, topic) == Version(s, topic) + 1
  {
    hide Placed;
  }
}
