/**
 What callers of the iterator get on the ring of a set of nodes: all of them, except that with
 a single virtual node a node the last one comes with the error and is dropped.
 */
module RingOffers {
  import opened RingOrder
  import opened HashRingImpl

  lemma ClockwiseOnce(nodes: seq<nat>, h: nat, p: nat, q: nat)
    requires Increasing(nodes) && p < q < |nodes|
    ensures Clockwise(nodes, h)[p] != Clockwise(nodes, h)[q]
  {
  }

  /** Every walk position shows a virtual node of its owner. */
  lemma WalkAt(r: Ring, hash: Hash, replicas: nat, nodes: set<string>, h: nat, p: nat) returns (i: nat)
    requires IsRingOf(r, hash, replicas, nodes) && p < |r.nodes|
    ensures var n := Walk(r, h)[p]; n in nodes && i < replicas && Clockwise(r.nodes, h)[p] == VirtualHash(hash, n, i)
  {
    ClockwiseMembers(r.nodes, h);
    var v := Clockwise(r.nodes, h)[p];
    assert v in r.nodes && Owned(r, hash, replicas, nodes, v);
    i :| 0 <= i < replicas && VirtualHash(hash, r.owner[v], i) == v;
  }

  lemma PositionOf(r: Ring, hash: Hash, replicas: nat, nodes: set<string>, h: nat, n: string, i: nat) returns (p: nat)
    requires IsRingOf(r, hash, replicas, nodes) && n in nodes && i < replicas
    ensures p < |r.nodes| && Clockwise(r.nodes, h)[p] == VirtualHash(hash, n, i) && Walk(r, h)[p] == n
  {
    ClockwiseMembers(r.nodes, h);
    assert VirtualHash(hash, n, i) in Clockwise(r.nodes, h);
    p :| 0 <= p < |Clockwise(r.nodes, h)| && Clockwise(r.nodes, h)[p] == VirtualHash(hash, n, i);
  }

  lemma SecondVirtualNode(r: Ring, hash: Hash, replicas: nat, nodes: set<string>, h: nat)
    requires IsRingOf(r, hash, replicas, nodes) && NoCollision(hash, replicas, nodes) && replicas >= 2
    ensures !EndsFresh(Walk(r, h))
  {
    hide IsRingOf, Clockwise;
    var w := Walk(r, h);
    if |w| >= 2 {
      var last := |w| - 1;
      var i := WalkAt(r, hash, replicas, nodes, h, last);
      var j := if i == 0 then 1 else 0;
      var p := PositionOf(r, hash, replicas, nodes, h, w[last], j);
      assert p != last && w[..last][p] == w[last];
    }
  }

  lemma OneVirtualNode(r: Ring, hash: Hash, nodes: set<string>, h: nat)
    requires IsRingOf(r, hash, 1, nodes)
    ensures EndsFresh(Walk(r, h)) <==> |r.nodes| >= 2
  {
    hide IsRingOf, Clockwise;
    var w := Walk(r, h);
    if |w| >= 2 {
      var last := |w| - 1;
      forall p | 0 <= p < last ensures w[..last][p] != w[last] {
        OwnersDiffer(r, hash, nodes, h, p, last);
      }
    }
  }

  lemma OwnersDiffer(r: Ring, hash: Hash, nodes: set<string>, h: nat, p: nat, q: nat)
    requires IsRingOf(r, hash, 1, nodes) && p < q < |r.nodes|
    ensures Walk(r, h)[p] != Walk(r, h)[q]
  {
    ClockwiseOnce(r.nodes, h, p, q);
    hide IsRingOf, Clockwise, Walk;
    var i := WalkAt(r, hash, 1, nodes, h, p);
    var j := WalkAt(r, hash, 1, nodes, h, q);
  }

  lemma TwoNodes(r: Ring, hash: Hash, nodes: set<string>)
    requires IsRingOf(r, hash, 1, nodes) && NoCollision(hash, 1, nodes)
    ensures |r.nodes| >= 2 <==> |nodes| >= 2
  {
    if |r.nodes| >= 2 {
      var i := WalkAt(r, hash, 1, nodes, 0, 0);
      var j := WalkAt(r, hash, 1, nodes, 0, 1);
      ClockwiseOnce(r.nodes, 0, 0, 1);
      var a, b := Walk(r, 0)[0], Walk(r, 0)[1];
      assert {a, b} <= nodes && a != b;
      SizeTwo(nodes, a, b);
    }
    if |nodes| >= 2 {
      var a :| a in nodes;
      assert nodes != {a};
      var b :| b in nodes && b != a;
      var p := PositionOf(r, hash, 1, nodes, 0, a, 0);
      var q := PositionOf(r, hash, 1, nodes, 0, b, 0);
      assert p != q;
    }
  }

  lemma SizeTwo(s: set<string>, a: string, b: string)
    requires a in s && b in s && a != b
    ensures |s| >= 2
  {
    assert |s - {a}| == |s| - 1 && b in s - {a};
  }

  /** The iterator's error ever comes exactly on rings with one virtual node a node and at
      least two nodes. */
  lemma ErrorOnlyOnBareRings(r: Ring, hash: Hash, replicas: nat, nodes: set<string>, h: nat)
    requires IsRingOf(r, hash, replicas, nodes) && NoCollision(hash, replicas, nodes) && replicas >= 1
    ensures EndsFresh(Walk(r, h)) <==> replicas == 1 && |nodes| >= 2
  {
    hide IsRingOf, NoCollision, EndsFresh, Walk;
    if replicas >= 2 {
      SecondVirtualNode(r, hash, replicas, nodes, h);
    } else {
      OneVirtualNode(r, hash, nodes, h);
      TwoNodes(r, hash, nodes);
    }
  }

  // ---- sizes ----

  function Elements(s: seq<string>): set<string> {
    set x | x in s
  }

  lemma {:induction false} ElementsSize(s: seq<string>)
    requires forall i, j :: 0 <= i < j < |s| ==> s[i] != s[j]
    ensures |Elements(s)| == |s|
  {
    if s != [] {
      var rest, last := s[..|s| - 1], s[|s| - 1];
      ElementsSize(rest);
      assert Elements(s) == Elements(rest) + {last};
      assert last !in Elements(rest);
    }
  }

  lemma OrderSize(r: Ring, hash: Hash, replicas: nat, nodes: set<string>, h: nat)
    requires IsRingOf(r, hash, replicas, nodes) && replicas >= 1
    ensures Elements(Order(r, h)) == nodes && |Order(r, h)| == |nodes|
  {
    WalkMembers(r, hash, replicas, nodes, h);
    forall i, j | 0 <= i < j < |Order(r, h)| ensures Order(r, h)[i] != Order(r, h)[j] {
      DistinctOnce(Walk(r, h), i, j);
    }
    ElementsSize(Order(r, h));
    assert Elements(Order(r, h)) == nodes;
  }

  /** With at least two virtual nodes a node, GetNodes returns exactly the first
      min(count, number of nodes) nodes of the clockwise order. */
  lemma GetNodesOnRing(r: Ring, hash: Hash, replicas: nat, nodes: set<string>, h: nat, count: nat)
    requires IsRingOf(r, hash, replicas, nodes) && NoCollision(hash, replicas, nodes) && replicas >= 2 && "" !in nodes
    ensures Offered(Walk(r, h)) == Order(r, h) && |Order(r, h)| == |nodes|
    ensures Take(Offered(Walk(r, h)), count) == Order(r, h)[..if count < |nodes| then count else |nodes|]
  {
    hide IsRingOf, NoCollision, EndsFresh, Walk, Offered, Distinct;
    WalkMembers(r, hash, replicas, nodes, h);
    OrderSize(r, hash, replicas, nodes, h);
    ErrorOnlyOnBareRings(r, hash, replicas, nodes, h);
    OfferedAll(Walk(r, h));
  }
}
