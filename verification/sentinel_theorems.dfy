/**
 What every run of the sentinel keeps: the ring is that of the registry, stored replica sets
 are sound, and the replica cache agrees with the topic versions.
 */
module SentinelTheorems {
  import opened Common
  import opened RingOrder
  import opened RingChanges
  import opened HashRingImpl
  import opened RingOffers
  import opened SentinelSpec

  // ---- the ring is that of the registry ----

  function Mentions(op: Op): set<string> {
    match op
    case KeepAlive(id, _, _) => {id}
    case RegisterBroker(id, _, _) => {id}
    case HeartbeatPut(id, _) => {id}
    case _ => {}
  }

  ghost predicate RingOk(c: Config, s: Sentinel) {
    IsRingOf(s.ring, c.hash, c.replicas, s.brokers.Keys)
  }

  lemma FewerCollisions(hash: Hash, replicas: nat, some: set<string>, all: set<string>)
    requires NoCollision(hash, replicas, all) && some <= all
    ensures NoCollision(hash, replicas, some)
  {
  }

  lemma AppearOk(c: Config, s: Sentinel, id: string, address: string, topics: seq<string>, ids: set<string>)
    requires RingOk(c, s) && NoCollision(c.hash, c.replicas, ids) && s.brokers.Keys + {id} <= ids && id !in s.brokers
    ensures RingOk(c, Appear(c, s, id, address, topics))
  {
    FewerCollisions(c.hash, c.replicas, s.brokers.Keys + {id}, ids);
    AddGivesRing(s.ring, c.hash, c.replicas, s.brokers.Keys, id);
    assert Appear(c, s, id, address, topics).brokers.Keys == s.brokers.Keys + {id};
  }

  lemma VanishOk(c: Config, s: Sentinel, id: string, ids: set<string>)
    requires RingOk(c, s) && NoCollision(c.hash, c.replicas, ids) && s.brokers.Keys <= ids && id in s.brokers
    ensures RingOk(c, Vanish(c, s, id))
  {
    FewerCollisions(c.hash, c.replicas, s.brokers.Keys + {id}, ids);
    RemoveGivesRing(s.ring, c.hash, c.replicas, s.brokers.Keys, id);
    assert Vanish(c, s, id).brokers.Keys == s.brokers.Keys - {id};
  }

  lemma RingKept(c: Config, s: Sentinel, op: Op, ids: set<string>)
    requires RingOk(c, s) && NoCollision(c.hash, c.replicas, ids) && s.brokers.Keys + Mentions(op) <= ids
    ensures RingOk(c, Next(c, s, op)) && Next(c, s, op).brokers.Keys <= ids
  {
    hide RingOk, NoCollision, Appear, Vanish, SeenAlive, Lost, Generate, HandleUnreachable, Legacy;
    match op
    case KeepAlive(id, address, _) => SeenOk(c, s, id, address, ids);
    case RegisterBroker(id, address, topics) =>
      if id !in s.brokers {
        AppearOk(c, s, id, address, topics, ids);
        AppearKeys(c, s, id, address, topics);
        SameRing(c, Appear(c, s, id, address, topics), Next(c, s, op));
      }
    case UnregisterBroker(id, _) =>
      if id in s.brokers {
        VanishOk(c, s, id, ids);
        VanishKeys(c, s, id);
        SameRing(c, Vanish(c, s, id), Unregister(c, s, id));
      }
    case HeartbeatPut(id, broker) =>
      if broker.Some? {
        SeenOk(c, s, id, broker.value, ids);
      }
    case HeartbeatDelete(id) =>
      LostOk(c, s, id, ids);
    case _ =>
      NotRegistry(c, s, op);
      SameRing(c, s, Next(c, s, op));
  }

  lemma LostOk(c: Config, s: Sentinel, id: string, ids: set<string>)
    requires RingOk(c, s) && NoCollision(c.hash, c.replicas, ids) && s.brokers.Keys <= ids
    ensures RingOk(c, Lost(c, s, id)) && Lost(c, s, id).brokers.Keys <= ids
  {
    if id in s.brokers {
      VanishOk(c, s, id, ids);
    }
  }

  lemma AppearKeys(c: Config, s: Sentinel, id: string, address: string, topics: seq<string>)
    ensures Appear(c, s, id, address, topics).brokers.Keys == s.brokers.Keys + {id}
  {
  }

  lemma VanishKeys(c: Config, s: Sentinel, id: string)
    ensures Vanish(c, s, id).brokers.Keys == s.brokers.Keys - {id}
  {
  }

  /** Placement, replacement and caching leave ring and registered ids alone. */
  lemma NotRegistry(c: Config, s: Sentinel, op: Op)
    requires op.GenerateReplicas? || op.ReportUnreachable? || op.LegacyQuery? || op.Invalidate?
    ensures Next(c, s, op).ring == s.ring && Next(c, s, op).brokers.Keys == s.brokers.Keys
  {
    hide HandleUnreachable, Legacy, Placed;
    match op
    case ReportUnreachable(topic, count, ids, getOk, setOk) =>
      hide SetStatus, TopUp, Filter;
      StatusKeys(s.brokers, ids, Down);
      UnreachableRegistry(c, s, op);
    case LegacyQuery(topic, count, ids) => LegacyRegistry(c, s, topic, count, ids);
    case _ =>
  }

  lemma StatusKeys(brokers: map<string, Broker>, ids: seq<string>, status: Status)
    ensures SetStatus(brokers, ids, status).Keys == brokers.Keys
  {
  }

  lemma UnreachableRegistry(c: Config, s: Sentinel, op: Op)
    requires op.ReportUnreachable?
    ensures var t := HandleUnreachable(c, s, op.topic, op.count, op.unreachable, op.getOk, op.setOk).0;
      t.ring == s.ring && t.brokers == SetStatus(s.brokers, op.unreachable, Down)
  {
    hide SetStatus, TopUp, Filter;
  }

  lemma LegacyRegistry(c: Config, s: Sentinel, topic: string, count: nat, ids: seq<string>)
    ensures var t := Legacy(c, s, topic, count, ids).0; t.ring == s.ring && t.brokers.Keys == s.brokers.Keys
  {
    hide SetStatus, TopUp, Filter, Placed;
    StatusKeys(s.brokers, ids, Down);
  }

  lemma SeenOk(c: Config, s: Sentinel, id: string, address: string, ids: set<string>)
    requires RingOk(c, s) && NoCollision(c.hash, c.replicas, ids) && s.brokers.Keys + {id} <= ids
    ensures RingOk(c, SeenAlive(c, s, id, address)) && SeenAlive(c, s, id, address).brokers.Keys <= ids
  {
    if id in s.brokers {
      assert SeenAlive(c, s, id, address).brokers.Keys == s.brokers.Keys;
    } else {
      AppearOk(c, s, id, address, [], ids);
    }
  }

  lemma SameRing(c: Config, s: Sentinel, t: Sentinel)
    requires RingOk(c, s) && t.ring == s.ring && t.brokers.Keys == s.brokers.Keys
    ensures RingOk(c, t)
  {
  }

  lemma {:induction false} RunRingOk(c: Config, ops: seq<Op>, ids: set<string>)
    requires NoCollision(c.hash, c.replicas, ids) && forall k :: 0 <= k < |ops| ==> Mentions(ops[k]) <= ids
    ensures RingOk(c, Run(c, ops)) && Run(c, ops).brokers.Keys <= ids
  {
    if ops != [] {
      RunRingOk(c, ops[..|ops| - 1], ids);
      hide RingOk, NoCollision, Next;
      RingKept(c, Run(c, ops[..|ops| - 1]), ops[|ops| - 1], ids);
    }
  }

  /** Ring and registry agree: after any operations the ring is exactly the sorted virtual
      nodes of the registered brokers, and two runs that end with the same brokers end with
      the same ring, whatever happened on the way. */
  lemma RingMatchesRegistry(c: Config, ops: seq<Op>, other: seq<Op>, ids: set<string>)
    requires NoCollision(c.hash, c.replicas, ids)
    requires forall k :: 0 <= k < |ops| ==> Mentions(ops[k]) <= ids
    requires forall k :: 0 <= k < |other| ==> Mentions(other[k]) <= ids
    ensures IsRingOf(Run(c, ops).ring, c.hash, c.replicas, Run(c, ops).brokers.Keys)
    ensures Run(c, ops).brokers.Keys == Run(c, other).brokers.Keys ==> Run(c, ops).ring == Run(c, other).ring
  {
    RunRingOk(c, ops, ids);
    RunRingOk(c, other, ids);
    hide IsRingOf, Run;
    if Run(c, ops).brokers.Keys == Run(c, other).brokers.Keys {
      RingUnique(Run(c, ops).ring, Run(c, other).ring, c.hash, c.replicas, Run(c, ops).brokers.Keys);
    }
  }

  // ---- replica sets ----

  ghost predicate NoRepeat(s: seq<string>) {
    forall i, j :: 0 <= i < j < |s| ==> s[i] != s[j]
  }

  lemma {:induction false} FilterNoRepeat(s: seq<string>, keep: string -> bool)
    requires NoRepeat(s)
    ensures NoRepeat(Filter(s, keep)) && |Filter(s, keep)| <= |s|
  {
    if s != [] {
      FilterNoRepeat(s[..|s| - 1], keep);
      FilterMembers(s[..|s| - 1], keep);
      var r := Filter(s[..|s| - 1], keep);
      forall i | 0 <= i < |r| ensures r[i] != s[|s| - 1] {
        assert r[i] in r;
      }
    }
  }

  lemma OfferedNoRepeat(w: seq<string>)
    ensures NoRepeat(Offered(w)) && "" !in Offered(w)
  {
    forall i, j | 0 <= i < j < |Offered(w)| ensures Offered(w)[i] != Offered(w)[j] {
      DistinctOnce(w, i, j);
    }
  }

  lemma TakeNoRepeat(s: seq<string>, n: nat)
    requires NoRepeat(s)
    ensures NoRepeat(Take(s, n)) && |Take(s, n)| <= n
  {
  }

  lemma PlacedOk(c: Config, s: Sentinel, topic: string, count: nat)
    ensures NoRepeat(Placed(c, s, topic, count)) && |Placed(c, s, topic, count)| <= count
    ensures forall id :: id in Placed(c, s, topic, count) ==> IsHealthy(s.brokers)(id)
  {
    var all := Offered(Walk(s.ring, c.hash(topic)));
    OfferedNoRepeat(Walk(s.ring, c.hash(topic)));
    TakeNoRepeat(all, count);
    FilterNoRepeat(Take(all, count), IsHealthy(s.brokers));
    FilterMembers(Take(all, count), IsHealthy(s.brokers));
  }

  lemma CandidatesOk(c: Config, s: Sentinel, topic: string, current: seq<string>)
    ensures NoRepeat(Candidates(c, s, topic, current))
    ensures forall id :: id in Candidates(c, s, topic, current) ==> id !in current && IsHealthy(s.brokers)(id)
  {
    var all := Offered(Walk(s.ring, c.hash(topic)));
    OfferedNoRepeat(Walk(s.ring, c.hash(topic)));
    FilterNoRepeat(all, Eligible(s.brokers, current));
    FilterMembers(all, Eligible(s.brokers, current));
  }

  /** Topping up keeps the ids distinct, adds healthy brokers only, and ends with exactly
      `count` of them unless there were more to begin with. */
  lemma TopUpOk(c: Config, s: Sentinel, topic: string, current: seq<string>, count: nat)
    requires NoRepeat(current) && TopUp(c, s, topic, current, count).Some?
    ensures var full := TopUp(c, s, topic, current, count).value;
      && NoRepeat(full) && |full| == (if |current| > count then |current| else count) && current <= full
      && forall id :: id in full ==> id in current || IsHealthy(s.brokers)(id)
  {
    if |current| < count {
      var needed, found := count - |current|, Candidates(c, s, topic, current);
      CandidatesOk(c, s, topic, current);
      Joined(current, found, needed);
    }
  }

  lemma Joined(current: seq<string>, found: seq<string>, n: nat)
    requires NoRepeat(current) && NoRepeat(found) && n <= |found| && forall id :: id in found ==> id !in current
    ensures NoRepeat(current + found[..n])
    ensures forall id :: id in current + found[..n] ==> id in current || id in found
  {
    forall i, j | 0 <= i < j < |current| + n ensures (current + found[..n])[i] != (current + found[..n])[j] {
      if i < |current| <= j {
        assert found[j - |current|] in found && current[i] in current;
      }
    }
  }

  // ---- when the search succeeds ----

  function HealthyIds(brokers: map<string, Broker>): set<string> {
    set id | id in brokers && brokers[id].status == Healthy
  }

  /** Healthy registered brokers that are not in use yet. */
  function Spare(brokers: map<string, Broker>, current: seq<string>): set<string> {
    HealthyIds(brokers) - Elements(current)
  }

  /** Registry and ring agree, ids are non-empty and hashes do not collide. */
  ghost predicate Settled(c: Config, s: Sentinel) {
    RingOk(c, s) && NoCollision(c.hash, c.replicas, s.brokers.Keys) && "" !in s.brokers
  }

  /** Filtering the whole order by eligibility finds every spare broker once. */
  lemma OrderHasSpare(c: Config, s: Sentinel, topic: string, current: seq<string>)
    requires Settled(c, s) && c.replicas >= 1
    ensures |Filter(Order(s.ring, c.hash(topic)), Eligible(s.brokers, current))| == |Spare(s.brokers, current)|
  {
    var o, keep := Order(s.ring, c.hash(topic)), Eligible(s.brokers, current);
    WalkMembers(s.ring, c.hash, c.replicas, s.brokers.Keys, c.hash(topic));
    OrderNoRepeat(s.ring, c.hash(topic));
    hide Order, IsRingOf, NoCollision;
    FilterNoRepeat(o, keep);
    FilterMembers(o, keep);
    ElementsSize(Filter(o, keep));
    assert Elements(Filter(o, keep)) == Spare(s.brokers, current);
  }

  lemma OrderNoRepeat(r: Ring, h: nat)
    ensures NoRepeat(Order(r, h))
  {
    forall i, j | 0 <= i < j < |Order(r, h)| ensures Order(r, h)[i] != Order(r, h)[j] {
      DistinctOnce(Walk(r, h), i, j);
    }
  }

  /** With at least two virtual nodes a broker the search finds every spare broker. */
  lemma SearchFindsAll(c: Config, s: Sentinel, topic: string, current: seq<string>)
    requires Settled(c, s) && c.replicas >= 2
    ensures |Candidates(c, s, topic, current)| == |Spare(s.brokers, current)|
  {
    OrderHasSpare(c, s, topic, current);
    hide IsRingOf, NoCollision, Order, Filter, Eligible, Walk, Offered;
    GetNodesOnRing(s.ring, c.hash, c.replicas, s.brokers.Keys, c.hash(topic), 0);
  }

  /** With a single one it misses the last broker of the walk: it then fails although there
      are enough spare brokers exactly when that broker is eligible and every one is needed. */
  lemma SearchMissesLast(c: Config, s: Sentinel, topic: string, current: seq<string>, needed: nat)
    requires Settled(c, s) && c.replicas >= 1
    ensures var w := Walk(s.ring, c.hash(topic));
      |Candidates(c, s, topic, current)| < needed <= |Spare(s.brokers, current)|
      <==> c.replicas == 1 && |s.brokers.Keys| >= 2 && w != [] && Eligible(s.brokers, current)(w[|w| - 1])
           && needed == |Spare(s.brokers, current)|
  {
    hide Settled, Walk, Offered, Distinct, Eligible, Filter, EndsFresh, Spare;
    OrderHasSpare(c, s, topic, current);
    BareRing(c, s, topic);
    MissesLast(Walk(s.ring, c.hash(topic)), Eligible(s.brokers, current));
  }

  lemma BareRing(c: Config, s: Sentinel, topic: string)
    requires Settled(c, s) && c.replicas >= 1
    ensures var w := Walk(s.ring, c.hash(topic));
      "" !in w && (EndsFresh(w) <==> c.replicas == 1 && |s.brokers.Keys| >= 2)
  {
    hide IsRingOf, NoCollision, EndsFresh, Walk;
    WalkMembers(s.ring, c.hash, c.replicas, s.brokers.Keys, c.hash(topic));
    ErrorOnlyOnBareRings(s.ring, c.hash, c.replicas, s.brokers.Keys, c.hash(topic));
  }

  lemma MissesLast(w: seq<string>, keep: string -> bool)
    requires "" !in w
    ensures EndsFresh(w) ==> w != []
    ensures |Filter(Distinct(w), keep)| - |Filter(Offered(w), keep)|
      == if EndsFresh(w) && keep(w[|w| - 1]) then 1 else 0
  {
    hide Distinct, Offered;
    OfferedAll(w);
    if EndsFresh(w) {
      FilterConcat(Offered(w), [w[|w| - 1]], keep);
      FilterOne(w[|w| - 1], keep);
    }
  }

  lemma RunSettled(c: Config, ops: seq<Op>, ids: set<string>)
    requires NoCollision(c.hash, c.replicas, ids) && "" !in ids
    requires forall k :: 0 <= k < |ops| ==> Mentions(ops[k]) <= ids
    ensures Settled(c, Run(c, ops))
  {
    RunRingOk(c, ops, ids);
    FewerCollisions(c.hash, c.replicas, Run(c, ops).brokers.Keys, ids);
  }

  /** In every run with at least two virtual nodes a broker, the replacement search succeeds
      if and only if enough registered healthy brokers are not in use. */
  lemma SearchSucceeds(c: Config, ops: seq<Op>, ids: set<string>, topic: string, current: seq<string>, needed: nat)
    requires NoCollision(c.hash, c.replicas, ids) && "" !in ids && c.replicas >= 2
    requires forall k :: 0 <= k < |ops| ==> Mentions(ops[k]) <= ids
    ensures var s := Run(c, ops);
      needed <= |Candidates(c, s, topic, current)| <==> needed <= |Spare(s.brokers, current)|
  {
    hide Run, Settled, NoCollision;
    RunSettled(c, ops, ids);
    SearchFindsAll(c, Run(c, ops), topic, current);
  }

  ghost predicate StoredOk(s: Sentinel) {
    forall topic :: topic in s.stored ==> NoRepeat(s.stored[topic])
  }

  /** Failure handling is sound: the set stored on success has exactly `count` distinct
      brokers, each registered and healthy, none of them reported. */
  lemma UnreachableSound(c: Config, s: Sentinel, topic: string, count: nat, unreachable: seq<string>,
                         getOk: bool, setOk: bool)
    requires StoredOk(s)
    ensures var (t, full) := HandleUnreachable(c, s, topic, count, unreachable, getOk, setOk);
      && StoredOk(t)
      && (full.None? ==> t.stored == s.stored)
      && (full.Some? ==>
            && t.stored == s.stored[topic := full.value] && |full.value| == count && NoRepeat(full.value)
            && forall id :: id in full.value ==> IsHealthy(t.brokers)(id) && id !in unreachable)
  {
    hide Candidates;
    var t := s.(brokers := SetStatus(s.brokers, unreachable, Down));
    var now := if topic in t.stored then t.stored[topic] else [];
    var kept := Filter(now, Reachable(t.brokers, unreachable));
    FilterNoRepeat(now, Reachable(t.brokers, unreachable));
    FilterMembers(now, Reachable(t.brokers, unreachable));
    var full := TopUp(c, t, topic, kept, count);
    if full.Some? {
      TopUpOk(c, t, topic, kept, count);
    }
  }

  lemma StoredKept(c: Config, s: Sentinel, op: Op)
    requires StoredOk(s)
    ensures StoredOk(Next(c, s, op))
  {
    hide NoRepeat, Placed, TopUp, Filter;
    match op
    case GenerateReplicas(topic, count, _) => PlacedOk(c, s, topic, count);
    case ReportUnreachable(topic, count, ids, getOk, setOk) => UnreachableSound(c, s, topic, count, ids, getOk, setOk);
    case _ =>
  }

  /** Stored replica sets never repeat a broker, in any run. */
  lemma {:induction false} StoredNeverRepeat(c: Config, ops: seq<Op>)
    ensures StoredOk(Run(c, ops))
  {
    if ops != [] {
      StoredNeverRepeat(c, ops[..|ops| - 1]);
      hide StoredOk, Next;
      StoredKept(c, Run(c, ops[..|ops| - 1]), ops[|ops| - 1]);
    }
  }

  /** Reports of unreachable brokers are handled if and only if etcd answers, at most `count`
      replicas are left, and at least `count` registered brokers are healthy and unreported. */
  lemma UnreachableSucceeds(c: Config, ops: seq<Op>, ids: set<string>, topic: string, count: nat,
                            unreachable: seq<string>, getOk: bool, setOk: bool)
    requires NoCollision(c.hash, c.replicas, ids) && "" !in ids && c.replicas >= 2
    requires forall k :: 0 <= k < |ops| ==> Mentions(ops[k]) <= ids
    ensures var s := Run(c, ops);
      var left := SetStatus(s.brokers, unreachable, Down);
      var now := if topic in s.stored then s.stored[topic] else [];
      HandleUnreachable(c, s, topic, count, unreachable, getOk, setOk).1.Some?
      <==> getOk && setOk && |Filter(now, Reachable(left, unreachable))| <= count <= |HealthyIds(left)|
  {
    hide Run, Settled, NoCollision, SetStatus, Filter, StoredOk, NoRepeat, RingOk;
    var s := Run(c, ops);
    RunSettled(c, ops, ids);
    StoredNeverRepeat(c, ops);
    UnreachableIff(c, s, topic, count, unreachable, getOk, setOk);
  }

  lemma UnreachableIff(c: Config, s: Sentinel, topic: string, count: nat, unreachable: seq<string>,
                       getOk: bool, setOk: bool)
    requires Settled(c, s) && c.replicas >= 2 && StoredOk(s)
    ensures var left := SetStatus(s.brokers, unreachable, Down);
      var now := if topic in s.stored then s.stored[topic] else [];
      HandleUnreachable(c, s, topic, count, unreachable, getOk, setOk).1.Some?
      <==> getOk && setOk && |Filter(now, Reachable(left, unreachable))| <= count <= |HealthyIds(left)|
  {
    var left := SetStatus(s.brokers, unreachable, Down);
    var t := s.(brokers := left);
    var now := if topic in s.stored then s.stored[topic] else [];
    var kept := Filter(now, Reachable(left, unreachable));
    assert NoRepeat(now);
    StatusKeys(s.brokers, unreachable, Down);
    SameRing(c, s, t);
    hide RingOk, NoCollision, Candidates, SetStatus, StoredOk, TopUp, Filter, Spare, HealthyIds, NoRepeat;
    KeptIsHealthy(left, unreachable, now);
    SearchFindsAll(c, t, topic, kept);
    SpareSize(left, kept);
    TopUpIff(c, t, topic, kept, count);
  }

  lemma TopUpIff(c: Config, s: Sentinel, topic: string, current: seq<string>, count: nat)
    ensures var full := TopUp(c, s, topic, current, count);
      full.Some? && |full.value| == count
      <==> |current| <= count <= |current| + |Candidates(c, s, topic, current)|
  {
    hide Candidates;
  }

  lemma KeptIsHealthy(brokers: map<string, Broker>, unreachable: seq<string>, now: seq<string>)
    requires NoRepeat(now)
    ensures var kept := Filter(now, Reachable(brokers, unreachable));
      NoRepeat(kept) && Elements(kept) <= HealthyIds(brokers)
  {
    FilterNoRepeat(now, Reachable(brokers, unreachable));
    FilterMembers(now, Reachable(brokers, unreachable));
  }

  lemma SpareSize(brokers: map<string, Broker>, kept: seq<string>)
    requires NoRepeat(kept) && Elements(kept) <= HealthyIds(brokers)
    ensures |Spare(brokers, kept)| == |HealthyIds(brokers)| - |kept|
  {
    ElementsSize(kept);
  }

  // ---- the replica cache ----

  ghost predicate EntryOk(e: Entry) {
    NoRepeat(e.brokers) && |e.brokers| <= e.replicaCount && e.leader == FirstOf(e.brokers)
  }

  ghost predicate CacheOk(s: Sentinel) {
    forall topic :: topic in s.cache ==>
      EntryOk(s.cache[topic]) && topic in s.locks && s.cache[topic].version == s.locks[topic]
  }

  /** Between two states, a topic's version only grows; and while it stays the same an entry
      of the later state is the entry of the earlier one. */
  ghost predicate TopicMoves(s: Sentinel, t: Sentinel, topic: string) {
    && (topic in s.locks ==> topic in t.locks)
    && Version(s, topic) <= Version(t, topic)
    && (topic in t.cache && Version(t, topic) == Version(s, topic) ==>
          topic in s.cache && s.cache[topic] == t.cache[topic])
  }

  ghost predicate CacheMoves(s: Sentinel, t: Sentinel) {
    forall topic :: TopicMoves(s, t, topic)
  }

  lemma PutCacheOk(s: Sentinel, topic: string, ids: seq<string>, count: nat)
    requires CacheOk(s) && NoRepeat(ids) && |ids| <= count
    ensures CacheOk(PutCache(s, topic, ids, count)) && CacheMoves(s, PutCache(s, topic, ids, count))
  {
  }

  lemma FillOk(c: Config, s: Sentinel, topic: string, count: nat)
    requires CacheOk(s)
    ensures CacheOk(Fill(c, s, topic, count)) && CacheMoves(s, Fill(c, s, topic, count))
    ensures Fill(c, s, topic, count).cache[topic].replicaCount == count
  {
    hide Placed, NoRepeat;
    PlacedOk(c, s, topic, count);
    PutCacheOk(s, topic, Placed(c, s, topic, count), count);
  }

  lemma {:induction false} FilterFull(s: seq<string>, keep: string -> bool)
    requires |Filter(s, keep)| >= |s|
    ensures Filter(s, keep) == s
  {
    if s != [] {
      FilterShorter(s[..|s| - 1], keep);
      FilterFull(s[..|s| - 1], keep);
      assert s == s[..|s| - 1] + [s[|s| - 1]];
    }
  }

  lemma {:induction false} FilterShorter(s: seq<string>, keep: string -> bool)
    ensures |Filter(s, keep)| <= |s|
  {
    if s != [] {
      FilterShorter(s[..|s| - 1], keep);
    }
  }

  /** What a repair hands on is what the cache then holds: exactly `count` distinct brokers,
      none of them just reported. A failed one leaves the cache alone. */
  lemma RepairOk(c: Config, s: Sentinel, topic: string, count: nat, unreachable: seq<string>)
    requires CacheOk(s) && topic in s.cache && s.cache[topic].replicaCount == count
    ensures var (t, full) := Repair(c, s, topic, count, unreachable);
      && CacheOk(t) && CacheMoves(s, t) && (full.None? ==> t.cache == s.cache)
      && (full.Some? ==>
            && topic in t.cache && t.cache[topic].brokers == full.value && t.cache[topic].replicaCount == count
            && |full.value| == count && NoRepeat(full.value)
            && forall id :: id in full.value ==> id !in unreachable)
  {
    hide NoRepeat, Candidates, TopUp, CacheMoves;
    var now := s.cache[topic].brokers;
    var u := s.(brokers := SetStatus(s.brokers, unreachable, Down));
    var kept := Filter(now, NotIn(unreachable));
    assert EntryOk(s.cache[topic]);
    FilterNoRepeat(now, NotIn(unreachable));
    FilterMembers(now, NotIn(unreachable));
    SameCache(s, u);
    if |kept| >= count {
      FilterFull(now, NotIn(unreachable));
    } else if TopUp(c, u, topic, kept, count).Some? {
      TopUpOk(c, u, topic, kept, count);
      PutCacheOk(u, topic, TopUp(c, u, topic, kept, count).value, count);
      MovesOn(s, u, PutCache(u, topic, TopUp(c, u, topic, kept, count).value, count));
    }
  }

  lemma SameCache(s: Sentinel, t: Sentinel)
    requires s.cache == t.cache && s.locks == t.locks
    ensures CacheMoves(s, t)
  {
  }

  lemma MovesOn(s: Sentinel, t: Sentinel, u: Sentinel)
    requires CacheMoves(s, t) && CacheMoves(t, u)
    ensures CacheMoves(s, u)
  {
    forall topic ensures TopicMoves(s, u, topic) {
      assert TopicMoves(s, t, topic) && TopicMoves(t, u, topic);
    }
  }

  lemma LegacyOk(c: Config, s: Sentinel, topic: string, count: nat, unreachable: seq<string>)
    requires CacheOk(s)
    ensures var t := Legacy(c, s, topic, count, unreachable).0; CacheOk(t) && CacheMoves(s, t)
  {
    hide CacheOk, CacheMoves, Repair;
    FillOk(c, s, topic, count);
    var t := Fill(c, s, topic, count);
    if unreachable != [] {
      RepairOk(c, t, topic, count, unreachable);
      MovesOn(s, t, Repair(c, t, topic, count, unreachable).0);
    }
  }

  lemma CacheKept(c: Config, s: Sentinel, op: Op)
    requires CacheOk(s)
    ensures CacheOk(Next(c, s, op)) && CacheMoves(s, Next(c, s, op))
  {
    hide EntryOk, Placed, TopUp, Legacy, Filter, Add, Remove;
    match op
    case LegacyQuery(topic, count, ids) => LegacyOk(c, s, topic, count, ids);
    case _ =>
  }

  /** Replica cache: in every run each cached entry has distinct brokers, at most as many as
      asked for, its leader first, and the version of its topic's lock. */
  lemma {:induction false} RunCacheOk(c: Config, ops: seq<Op>)
    ensures CacheOk(Run(c, ops))
  {
    if ops != [] {
      RunCacheOk(c, ops[..|ops| - 1]);
      hide CacheOk, Next;
      CacheKept(c, Run(c, ops[..|ops| - 1]), ops[|ops| - 1]);
    }
  }

  lemma {:induction false} RunMoves(c: Config, ops: seq<Op>, i: nat)
    requires i <= |ops|
    ensures CacheMoves(Run(c, ops[..i]), Run(c, ops))
    decreases |ops|
  {
    if i == |ops| {
      assert ops[..i] == ops;
      SameCache(Run(c, ops), Run(c, ops));
    } else {
      var rest := ops[..|ops| - 1];
      assert rest[..i] == ops[..i];
      RunMoves(c, rest, i);
      RunCacheOk(c, rest);
      hide CacheMoves, Next, CacheOk;
      CacheKept(c, Run(c, rest), ops[|ops| - 1]);
      MovesOn(Run(c, ops[..i]), Run(c, rest), Run(c, ops));
    }
  }

  /** Versions strictly grow across replacements and invalidations: whenever two moments of a
      run both have an entry for a topic and the version did not grow, the entry is the same
      and was there, unchanged, at every moment in between. */
  lemma VersionsGrow(c: Config, ops: seq<Op>, topic: string, i: nat, j: nat, k: nat)
    requires i <= j <= k <= |ops|
    requires topic in Run(c, ops[..i]).cache && topic in Run(c, ops[..k]).cache
    ensures var (a, b, d) := (Run(c, ops[..i]), Run(c, ops[..j]), Run(c, ops[..k]));
      && a.cache[topic].version <= d.cache[topic].version
      && (a.cache[topic].version == d.cache[topic].version ==>
            topic in b.cache && a.cache[topic] == b.cache[topic] == d.cache[topic])
  {
    var (a, b, d) := (Run(c, ops[..i]), Run(c, ops[..j]), Run(c, ops[..k]));
    RunMoves(c, ops[..j], i);
    RunMoves(c, ops[..k], j);
    assert ops[..j][..i] == ops[..i] && ops[..k][..j] == ops[..j];
    RunCacheOk(c, ops[..i]);
    RunCacheOk(c, ops[..k]);
    hide Run;
    assert TopicMoves(a, b, topic) && TopicMoves(b, d, topic);
  }
}
