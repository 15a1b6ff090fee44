/**
 The sentinel of sentinel/server.go with the maps its methods update in place. Every method
 is proved equal to its step on values. A BrokerInfo is a value held by the registry and the
 cache and replica sets hold broker ids.
 */
module SentinelImpl {
  import opened Common
  import opened RingOrder
  import opened HashRingImpl
  import opened SentinelSpec

  const VIRTUAL_NODES := 150

  // ---- loop steps ----

  lemma FilterStep(s: seq<string>, k: nat, keep: string -> bool)
    requires k < |s|
    ensures Filter(s[..k + 1], keep) == Filter(s[..k], keep) + if keep(s[k]) then [s[k]] else []
  {
    assert s[..k + 1][..k] == s[..k];
  }

  lemma FilterPrefix(s: seq<string>, k: nat, keep: string -> bool)
    requires k <= |s|
    ensures Filter(s[..k], keep) <= Filter(s, keep)
  {
    assert s == s[..k] + s[k..];
    FilterConcat(s[..k], s[k..], keep);
  }

  lemma StatusStep(brokers: map<string, Broker>, ids: seq<string>, k: nat, status: Status)
    requires k < |ids|
    ensures var m := SetStatus(brokers, ids[..k], status);
      SetStatus(brokers, ids[..k + 1], status)
      == if ids[k] in m then m[ids[k] := m[ids[k]].(status := status)] else m
  {
    assert ids[..k + 1] == ids[..k] + [ids[k]];
  }

  lemma WithoutStep(cache: map<string, Entry>, topics: seq<string>, k: nat)
    requires k < |topics|
    ensures Without(cache, topics[..k + 1]) == Without(cache, topics[..k]) - {topics[k]}
  {
    assert topics[..k + 1] == topics[..k] + [topics[k]];
  }

  /** Where an iterating caller stands: k nodes taken, none of them empty or with the error. */
  ghost predicate Taken(w: seq<string>, k: nat) {
    var o := Distinct(w);
    k <= |o| && "" !in o[..k] && (k > 0 && k == |o| ==> !EndsFresh(w))
  }

  lemma TakeOne(w: seq<string>, k: nat)
    requires Taken(w, k) && k < |Distinct(w)| && Distinct(w)[k] != "" && !(k + 1 == |Distinct(w)| && EndsFresh(w))
    ensures Taken(w, k + 1)
  {
    var o := Distinct(w);
    assert o[..k + 1] == o[..k] + [o[k]];
  }

  /** Filtering what was taken gives a prefix of filtering what is offered; all of it when
      the iterator stopped the caller. */
  lemma TakenFiltered(w: seq<string>, k: nat, keep: string -> bool)
    requires Taken(w, k)
    ensures k <= |Offered(w)| && Filter(Distinct(w)[..k], keep) <= Filter(Offered(w), keep)
    ensures Offered(w)[..k] == Distinct(w)[..k]
    ensures var o := Distinct(w); k == |o| || o[k] == "" || (k == |o| - 1 && EndsFresh(w)) ==>
      Offered(w) == o[..k]
  {
    OfferedIs(w, k);
    FilterPrefix(Offered(w), k, keep);
    assert k == |Offered(w)| ==> Offered(w)[..k] == Offered(w);
  }

  class SentinelServer {
    const hashRing: HashRing
    var brokers: map<string, Broker>
    var replicationCache: map<string, Entry>
    var topicLocks: map<string, nat>
    /** The replica sets the sentinels keep in etcd. */
    var topicReplicas: map<string, seq<string>>

    function View(): Sentinel
      reads this, hashRing
    {
      Sentinel(hashRing.View(), brokers, replicationCache, topicLocks, topicReplicas)
    }

    function Setup(): Config {
      Config(hashRing.hash, hashRing.replicas)
    }

    constructor (hash: Hash)
      ensures View() == Fresh() && Setup() == Config(hash, VIRTUAL_NODES) && fresh(hashRing)
    {
      hashRing := new HashRing(hash, VIRTUAL_NODES);
      brokers, replicationCache, topicLocks, topicReplicas := map[], map[], map[], map[];
    }

    /** A new broker joins with its ring nodes; a known one is refreshed. */
    method NoteAlive(id: string, address: string)
      modifies this, hashRing
      ensures View() == SeenAlive(Setup(), old(View()), id, address)
    {
      if id !in brokers {
        brokers := brokers[id := Broker(address, Healthy, [])];
        hashRing.AddNode(id);
      } else {
        brokers := brokers[id := brokers[id].(address := address, status := Healthy)];
      }
    }

    method KeepAlive(id: string, address: string, renewed: bool) returns (ok: bool)
      modifies this, hashRing
      ensures View() == Next(Setup(), old(View()), Op.KeepAlive(id, address, renewed)) && ok == renewed
    {
      if !renewed {
        return false;
      }
      NoteAlive(id, address);
      return true;
    }

    method HandleBrokerHeartbeatPut(id: string, broker: Option<string>)
      modifies this, hashRing
      ensures View() == Next(Setup(), old(View()), HeartbeatPut(id, broker))
    {
      if broker.Some? {
        NoteAlive(id, broker.value);
      }
    }

    method HandleBrokerHeartbeatDelete(id: string)
      modifies this, hashRing
      ensures View() == Next(Setup(), old(View()), HeartbeatDelete(id))
    {
      if id in brokers {
        hashRing.RemoveNode(id);
        brokers := brokers - {id};
      }
    }

    method InvalidateCache(topic: string)
      modifies this`replicationCache
      ensures View() == Next(Setup(), old(View()), Invalidate(topic))
    {
      replicationCache := replicationCache - {topic};
    }

    method InvalidateAll(topics: seq<string>)
      modifies this`replicationCache
      ensures replicationCache == Without(old(replicationCache), topics)
    {
      var i := 0;
      while i < |topics|
        invariant i <= |topics| && replicationCache == Without(old(replicationCache), topics[..i])
      {
        WithoutStep(old(replicationCache), topics, i);
        replicationCache := replicationCache - {topics[i]};
        i := i + 1;
      }
      assert topics[..i] == topics;
    }

    method RegisterBroker(id: string, address: string, topics: seq<string>) returns (ok: bool)
      modifies this, hashRing
      ensures View() == Next(Setup(), old(View()), Op.RegisterBroker(id, address, topics))
      ensures ok <==> id !in old(brokers)
    {
      if id in brokers {
        return false;
      }
      brokers := brokers[id := Broker(address, Healthy, topics)];
      hashRing.AddNode(id);
      InvalidateAll(topics);
      return true;
    }

    method UnregisterBroker(id: string, released: bool) returns (ok: bool)
      modifies this, hashRing
      ensures View() == Next(Setup(), old(View()), Op.UnregisterBroker(id, released))
      ensures ok <==> released && id in old(brokers)
    {
      if !released || id !in brokers {
        return false;
      }
      hashRing.RemoveNode(id);
      InvalidateAll(brokers[id].topics);
      brokers := brokers - {id};
      return true;
    }

    method UpdateBrokerStatus(ids: seq<string>, status: Status)
      modifies this`brokers
      ensures brokers == SetStatus(old(brokers), ids, status)
    {
      var i := 0;
      while i < |ids|
        invariant i <= |ids| && brokers == SetStatus(old(brokers), ids[..i], status)
      {
        StatusStep(old(brokers), ids, i, status);
        if ids[i] in brokers {
          brokers := brokers[ids[i] := brokers[ids[i]].(status := status)];
        }
        i := i + 1;
      }
      assert ids[..i] == ids;
    }

    /** The first `needed` eligible brokers clockwise from the topic. The search ends because
        every turn takes one more node of a finite order. */
    method FindReplacementBrokers(topic: string, current: seq<string>, needed: nat)
      returns (found: seq<string>, ok: bool)
      ensures var all := Candidates(Setup(), View(), topic, current);
        found == Take(all, needed) && (ok <==> needed <= |all|)
    {
      hide Distinct, EndsFresh, Offered, Walk, Filter, Taken;
      var iter := hashRing.GetNodeIter(topic);
      ghost var w := Walk(hashRing.View(), hashRing.hash(topic));
      ghost var keep := Eligible(brokers, current);
      ghost var k := 0;
      found := [];
      StartTaking(w, keep);
      while |found| < needed
        invariant iter.Valid() && iter.hashRing == hashRing && iter.key == topic && fresh(iter) && iter.returned == k
        invariant Taken(w, k) && k <= |Distinct(w)| && found == Filter(Distinct(w)[..k], keep) && |found| <= needed
        decreases |Distinct(w)| - k
      {
        TakenFiltered(w, k, keep);
        var id, err := iter.Next();
        if err || id == "" {
          return found, false;
        }
        FilterStep(Distinct(w), k, keep);
        TakeOne(w, k);
        if id !in current && id in brokers && brokers[id].status == Healthy {
          found := found + [id];
        }
        k := k + 1;
      }
      TakenFiltered(w, k, keep);
      return found, true;
    }

    /** The healthy ones among the first `count` brokers clockwise from the topic. */
    method CollectHealthy(topic: string, count: nat) returns (ids: seq<string>)
      ensures ids == Placed(Setup(), View(), topic, count)
    {
      hide Distinct, EndsFresh, Offered, Walk, Filter, Taken;
      var iter := hashRing.GetNodeIter(topic);
      ghost var w := Walk(hashRing.View(), hashRing.hash(topic));
      ghost var keep := IsHealthy(brokers);
      ids := [];
      StartTaking(w, keep);
      var i := 0;
      while i < count
        invariant iter.Valid() && iter.hashRing == hashRing && iter.key == topic && fresh(iter) && iter.returned == i
        invariant i <= count && Taken(w, i) && i <= |Distinct(w)| && ids == Filter(Distinct(w)[..i], keep)
      {
        TakenFiltered(w, i, keep);
        var id, err := iter.Next();
        if id == "" || err {
          return;
        }
        FilterStep(Distinct(w), i, keep);
        TakeOne(w, i);
        if id in brokers && brokers[id].status == Healthy {
          ids := ids + [id];
        }
        i := i + 1;
      }
      TakenFiltered(w, i, keep);
    }

    method GenerateAndStoreTopicLeader(topic: string, count: nat, setOk: bool) returns (leader: Option<string>)
      modifies this`topicReplicas
      ensures View() == Next(Setup(), old(View()), GenerateReplicas(topic, count, setOk))
      ensures leader == FirstOf(Placed(Setup(), old(View()), topic, count))
    {
      hide Placed;
      var ids := CollectHealthy(topic, count);
      if setOk {
        topicReplicas := topicReplicas[topic := ids];
      }
      leader := if ids == [] then None else Some(ids[0]);
    }

    method HandleUnreachableBrokersForLeader(topic: string, count: nat, unreachable: seq<string>,
                                             getOk: bool, setOk: bool)
      returns (placed: Option<seq<string>>)
      modifies this
      ensures (View(), placed) == HandleUnreachable(Setup(), old(View()), topic, count, unreachable, getOk, setOk)
    {
      hide Candidates, Filter, SetStatus;
      UpdateBrokerStatus(unreachable, Down);
      if !getOk {
        return None;
      }
      var now := if topic in topicReplicas then topicReplicas[topic] else [];
      var current := KeepReachable(now, unreachable);
      if |current| < count {
        var found, ok := FindReplacementBrokers(topic, current, count - |current|);
        if !ok {
          return None;
        }
        current := current + found;
      }
      if |current| != count || !setOk {
        return None;
      }
      topicReplicas := topicReplicas[topic := current];
      return Some(current);
    }

    method KeepReachable(now: seq<string>, unreachable: seq<string>) returns (kept: seq<string>)
      ensures kept == Filter(now, Reachable(brokers, unreachable))
    {
      kept := [];
      var i := 0;
      while i < |now|
        invariant i <= |now| && kept == Filter(now[..i], Reachable(brokers, unreachable))
      {
        FilterStep(now, i, Reachable(brokers, unreachable));
        if now[i] !in unreachable && now[i] in brokers && brokers[now[i]].status == Healthy {
          kept := kept + [now[i]];
        }
        i := i + 1;
      }
      assert now[..i] == now;
    }

    method Store(topic: string, ids: seq<string>, count: nat)
      requires topic in topicLocks
      modifies this`topicLocks, this`replicationCache
      ensures View() == PutCache(old(View()), topic, ids, count)
    {
      topicLocks := topicLocks[topic := topicLocks[topic] + 1];
      replicationCache := replicationCache[topic := Entry(ids, topicLocks[topic], count, FirstOf(ids))];
    }

    method GetTopicLeaderLegacy(topic: string, count: nat, unreachable: seq<string>)
      returns (ids: Option<seq<string>>)
      modifies this
      ensures (View(), ids) == Legacy(Setup(), old(View()), topic, count, unreachable)
    {
      hide Candidates, SetStatus, Filter, Offered, Walk, Repair;
      if topic !in topicLocks {
        topicLocks := topicLocks[topic := 0];
      }
      var now;
      if topic in replicationCache && replicationCache[topic].replicaCount == count {
        now := replicationCache[topic].brokers;
      } else {
        now := CollectHealthy(topic, count);
        Store(topic, now, count);
      }
      assert View() == Fill(Setup(), old(View()), topic, count);
      if unreachable == [] {
        return Some(now);
      }
      ids := RepairEntry(topic, now, count, unreachable);
    }

    method RepairEntry(topic: string, now: seq<string>, count: nat, unreachable: seq<string>)
      returns (ids: Option<seq<string>>)
      requires topic in topicLocks && topic in replicationCache && replicationCache[topic].brokers == now
      modifies this
      ensures (View(), ids) == Repair(Setup(), old(View()), topic, count, unreachable)
    {
      hide Candidates, SetStatus, Filter;
      UpdateBrokerStatus(unreachable, Down);
      var kept := DropReported(now, unreachable);
      if |kept| >= count {
        return Some(kept);
      }
      var found, ok := FindReplacementBrokers(topic, kept, count - |kept|);
      if !ok {
        return None;
      }
      Store(topic, kept + found, count);
      return Some(kept + found);
    }

    method DropReported(now: seq<string>, unreachable: seq<string>) returns (kept: seq<string>)
      ensures kept == Filter(now, NotIn(unreachable))
    {
      kept := [];
      var i := 0;
      while i < |now|
        invariant i <= |now| && kept == Filter(now[..i], NotIn(unreachable))
      {
        FilterStep(now, i, NotIn(unreachable));
        if now[i] !in unreachable {
          kept := kept + [now[i]];
        }
        i := i + 1;
      }
      assert now[..i] == now;
    }
  }

  lemma StartTaking(w: seq<string>, keep: string -> bool)
    ensures Taken(w, 0) && Filter(Distinct(w)[..0], keep) == []
  {
  }
}
