/**
 The consistent-hash ring of internal/utils/hash.go and its iterator, with the fields the
 source updates in place, proved against RingOrder and RingChanges.
 */
module HashRingImpl {
  import opened RingOrder
  import opened RingChanges

  // ---- walking a ring ----

  /** The walk ends on a node it has not met before, and that node is not the first. */
  predicate EndsFresh(w: seq<string>) {
    |w| >= 2 && w[|w| - 1] !in w[..|w| - 1]
  }

  lemma {:induction false} DistinctSame(w: seq<string>, pos: nat, p: nat)
    requires pos <= p <= |w| && forall q :: pos <= q < p ==> w[q] in w[..pos]
    ensures Distinct(w[..p]) == Distinct(w[..pos])
    decreases p
  {
    if pos < p {
      DistinctSame(w, pos, p - 1);
      assert w[..p][..p - 1] == w[..p - 1];
      assert w[p - 1] in w[..pos] && w[..pos] <= w[..p - 1];
    }
  }

  /** Meeting a new node at position p yields the next element of the order. */
  lemma DistinctNext(w: seq<string>, pos: nat, p: nat)
    requires pos <= p < |w| && (forall q :: pos <= q < p ==> w[q] in w[..pos]) && w[p] !in w[..pos]
    ensures w[p] !in w[..p]
    ensures Distinct(w[..p + 1]) == Distinct(w[..pos]) + [w[p]] && Distinct(w[..p + 1]) <= Distinct(w)
    ensures |Distinct(w[..pos])| < |Distinct(w)| && Distinct(w)[|Distinct(w[..pos])|] == w[p]
  {
    DistinctSame(w, pos, p);
    forall q | 0 <= q < p ensures w[q] != w[p] {
      if q < pos {
        assert w[q] in w[..pos];
      }
    }
    assert w[..p + 1][..p] == w[..p];
    DistinctPrefix(w, p + 1);
  }

  /** The step that hands out the last node ends the walk exactly when the walk ends fresh. */
  lemma LastFresh(w: seq<string>, pos: nat, p: nat)
    requires pos <= p < |w| && (forall q :: pos <= q < p ==> w[q] in w[..pos]) && w[p] !in w[..pos]
    ensures pos > 0 && p == |w| - 1 <==> |Distinct(w[..pos])| == |Distinct(w)| - 1 && EndsFresh(w)
  {
    DistinctNext(w, pos, p);
    if p == |w| - 1 {
      assert w[..p + 1] == w;
    } else if EndsFresh(w) {
      var n := |w| - 1;
      DistinctPrefix(w[..n], p + 1);
      assert w[..n][..p + 1] == w[..p + 1];
    }
  }

  /** Remainder by n of a number below 2n. */
  function Wrap(x: nat, n: nat): nat
    requires x < 2 * n
  {
    if x < n then x else x - n
  }

  function Modulo(x: nat, n: nat): (r: nat)
    requires x < 2 * n
    ensures r == Wrap(x, n) < n
  {
    assert x >= n ==> x == n * 1 + (x - n);
    x % n
  }

  /** An iterator that walked the first `pos` positions of w, starting at index `start`. */
  ghost predicate WalkedTo(w: seq<string>, start: nat, pos: nat, curr: nat, seen: set<string>, started: bool,
                           returned: nat) {
    && pos <= |w| && (w != [] ==> start < |w| && curr == Wrap(start + pos, |w|))
    && (forall x :: x in seen <==> x in w[..pos])
    && (started <==> pos > 0)
    && returned == |Distinct(w[..pos])|
  }

  /** Positions pos..p hold only nodes met before. */
  ghost predicate Searched(w: seq<string>, pos: nat, p: nat)
    requires pos <= |w|
  {
    forall q :: pos <= q < p && q < |w| ==> w[q] in w[..pos]
  }

  /** The i-th index after the current one is a walk position: a new one, or one walked. */
  lemma LookAhead(n: nat, start: nat, pos: nat, i: nat)
    requires start < n && pos <= n && i < n
    ensures Wrap(Wrap(start + pos, n) + i, n) == Wrap(start + Wrap(pos + i, n), n) < n
    ensures pos + i >= n ==> Wrap(pos + i, n) < pos
    ensures pos + i < n ==> Wrap(pos + i, n) == pos + i
    ensures pos + i < n ==> Wrap(Wrap(start + pos + i, n) + 1, n) == Wrap(start + pos + i + 1, n)
  {
  }

  lemma FoundNext(w: seq<string>, start: nat, pos: nat, curr: nat, seen: set<string>, started: bool, returned: nat,
                  p: nat)
    requires WalkedTo(w, start, pos, curr, seen, started, returned)
    requires pos <= p < |w| && Searched(w, pos, p) && w[p] !in seen
    ensures WalkedTo(w, start, p + 1, Wrap(start + p + 1, |w|), seen + {w[p]}, true, returned + 1)
    ensures returned < |Distinct(w)| && w[p] == Distinct(w)[returned]
    ensures started && Wrap(start + p + 1, |w|) == start <==> returned + 1 == |Distinct(w)| && EndsFresh(w)
  {
    hide Distinct, EndsFresh;
    DistinctNext(w, pos, p);
    LastFresh(w, pos, p);
    SeenGrows(w, pos, p, seen);
  }

  lemma SeenGrows(w: seq<string>, pos: nat, p: nat, seen: set<string>)
    requires pos <= p < |w| && Searched(w, pos, p) && forall x :: x in seen <==> x in w[..pos]
    ensures forall x :: x in seen + {w[p]} <==> x in w[..p + 1]
  {
    forall x ensures x in seen + {w[p]} <==> x in w[..p + 1] {
      if x in w[..p + 1] {
        var q :| 0 <= q <= p && w[q] == x;
        if q < pos {
          assert w[..pos][q] == x;
        }
      }
    }
  }

  /** What the search loop reads off the iterator's state at step i. */
  lemma LookingAt(w: seq<string>, start: nat, pos: nat, curr: nat, seen: set<string>, started: bool, returned: nat,
                  i: nat)
    requires WalkedTo(w, start, pos, curr, seen, started, returned) && i < |w| && Searched(w, pos, pos + i)
    ensures start < |w| && curr + i < 2 * |w| && pos + i < 2 * |w|
    ensures var p := Wrap(pos + i, |w|);
      && p < |w| && Wrap(curr + i, |w|) == Wrap(start + p, |w|)
      && (w[p] in seen ==> Searched(w, pos, pos + i + 1))
      && (w[p] !in seen ==> p == pos + i && Wrap(Wrap(curr + i, |w|) + 1, |w|) == Wrap(start + p + 1, |w|))
  {
    LookAhead(|w|, start, pos, i);
    var p := Wrap(pos + i, |w|);
    if p < pos {
      assert w[p] in w[..pos];
    }
  }

  lemma Exhausted(w: seq<string>, start: nat, pos: nat, curr: nat, seen: set<string>, started: bool, returned: nat)
    requires WalkedTo(w, start, pos, curr, seen, started, returned) && Searched(w, pos, pos + |w|)
    ensures Distinct(w[..pos]) == Distinct(w) && returned == |Distinct(w)|
  {
    DistinctSame(w, pos, |w|);
    assert w[..|w|] == w;
  }

  lemma WalkStart(r: Ring, h: nat, start: nat, pos: nat, curr: nat, seen: set<string>, started: bool, returned: nat)
    requires WalkedTo(Walk(r, h), start, pos, curr, seen, started, returned)
    ensures var w := Walk(r, h); |w| == |r.nodes| && pos <= |w| && Searched(w, pos, pos) && (w == [] ==> pos == 0)
  {
  }

  lemma ClockwiseAt(r: Ring, h: nat, p: nat)
    requires p < |r.nodes|
    ensures |Walk(r, h)| == |r.nodes|
    ensures Walk(r, h)[p] == Owner(r, r.nodes[Wrap(StartIndex(r.nodes, h) + p, |r.nodes|)])
  {
  }

  lemma SetOneMore(owner: map<nat, string>, hs: seq<nat>, h: nat, node: string)
    ensures SetOwner(owner, hs + [h], node) == SetOwner(owner, hs, node)[h := node]
  {
  }

  lemma UnsetOneMore(owner: map<nat, string>, hs: seq<nat>, h: nat)
    ensures Unset(owner, hs + [h]) == Unset(owner, hs) - {h}
  {
  }

  /** The inner loop of RemoveNode: find the first occurrence and cut it out. */
  method DropFirst(nodes: seq<nat>, h: nat) returns (r: seq<nat>)
    ensures r == RemoveFirst(nodes, h)
  {
    var j := 0;
    while j < |nodes| && nodes[j] != h
      invariant j <= |nodes| && RemoveFirst(nodes, h) == nodes[..j] + RemoveFirst(nodes[j..], h)
    {
      assert nodes[j..][1..] == nodes[j + 1..];
      j := j + 1;
    }
    if j < |nodes| {
      assert nodes[j..][1..] == nodes[j + 1..];
      r := nodes[..j] + nodes[j + 1..];
    } else {
      r := nodes;
    }
  }

  class HashRing {
    const hash: Hash
    const replicas: nat
    var nodes: seq<nat>
    var nodeMap: map<nat, string>

    function View(): Ring
      reads this
    {
      Ring(nodes, nodeMap)
    }

    constructor (hash: Hash, replicas: nat)
      ensures this.hash == hash && this.replicas == replicas && View() == Ring([], map[])
    {
      this.hash, this.replicas := hash, replicas;
      nodes, nodeMap := [], map[];
    }

    method AddNode(node: string)
      modifies this
      ensures View() == Add(old(View()), hash, replicas, node)
    {
      var i := 0;
      while i < replicas
        invariant i <= replicas
        invariant nodes == old(nodes) + VirtualHashes(hash, node, i)
        invariant nodeMap == SetOwner(old(nodeMap), VirtualHashes(hash, node, i), node)
      {
        var h := VirtualHash(hash, node, i);
        nodes := nodes + [h];
        nodeMap := nodeMap[h := node];
        SetOneMore(old(nodeMap), VirtualHashes(hash, node, i), h, node);
        i := i + 1;
      }
      nodes := Sort(nodes);
    }

    method RemoveNode(node: string)
      modifies this
      ensures View() == Remove(old(View()), hash, replicas, node)
    {
      var i := 0;
      while i < replicas
        invariant i <= replicas
        invariant nodes == RemoveEach(old(nodes), VirtualHashes(hash, node, i))
        invariant nodeMap == Unset(old(nodeMap), VirtualHashes(hash, node, i))
      {
        var h := VirtualHash(hash, node, i);
        nodes := DropFirst(nodes, h);
        nodeMap := nodeMap - {h};
        UnsetOneMore(old(nodeMap), VirtualHashes(hash, node, i), h);
        i := i + 1;
        assert VirtualHashes(hash, node, i)[..i - 1] == VirtualHashes(hash, node, i - 1);
      }
    }

    method GetNodeIter(key: string) returns (iter: NodeIterator)
      ensures fresh(iter) && iter.hashRing == this && iter.key == key && iter.Valid() && iter.returned == 0
    {
      var start := 0;
      if nodes != [] {
        start := StartIndex(nodes, hash(key));
      }
      iter := new NodeIterator(this, key, start);
    }

    /** The node of a key is the first one clockwise. */
    method GetNode(key: string) returns (node: string)
      ensures var o := Order(View(), hash(key)); node == if o == [] then "" else o[0]
    {
      var iter := GetNodeIter(key);
      var err;
      node, err := iter.Next();
    }

    /** The first `count` nodes of the order, cut short before a node returned with an error
        and before an empty id. */
    method GetNodes(key: string, count: nat) returns (r: seq<string>)
      ensures r == Take(Offered(Walk(View(), hash(key))), count)
    {
      hide Distinct, Offered, Walk, StartIndex, EndsFresh;
      r := [];
      if nodes == [] {
        NoneOffered(View(), hash(key));
        return;
      }
      var iter := GetNodeIter(key);
      ghost var w := Walk(View(), hash(key));
      var i := 0;
      while i < count
        invariant iter.Valid() && iter.hashRing == this && iter.key == key && fresh(iter)
        invariant 0 <= i == iter.returned == |r| <= count
        invariant |r| <= |Distinct(w)| && r == Distinct(w)[..|r|] && "" !in r
        invariant r != [] && |r| == |Distinct(w)| ==> !EndsFresh(w)
        invariant View() == old(View())
      {
        var node, err := iter.Next();
        if node == "" || err {
          break;
        }
        r := r + [node];
        i := i + 1;
      }
      OfferedIs(w, |r|);
    }
  }

  class NodeIterator {
    const hashRing: HashRing
    const key: string
    const startIdx: nat
    var currIdx: nat
    var seen: set<string>
    var started: bool
    /** How many nodes were handed out, and how many walk positions are behind. */
    ghost var returned: nat
    ghost var pos: nat

    ghost function Path(): seq<string>
      reads hashRing
    {
      Walk(hashRing.View(), hashRing.hash(key))
    }

    ghost predicate Valid()
      reads this, hashRing
    {
      && (hashRing.nodes != [] ==> startIdx == StartIndex(hashRing.nodes, hashRing.hash(key)))
      && WalkedTo(Path(), startIdx, pos, currIdx, seen, started, returned)
    }

    constructor (ring: HashRing, key: string, start: nat)
      requires ring.nodes != [] ==> start == StartIndex(ring.nodes, ring.hash(key))
      ensures hashRing == ring && this.key == key && Valid() && returned == 0
    {
      hashRing, this.key, startIdx := ring, key, start;
      currIdx, seen, started := start, {}, false;
      returned, pos := 0, 0;
    }

    /** The k-th call hands out the k-th node of the clockwise order and then "" for ever.
        The error comes with the last node exactly when the walk ends on it. */
    method Next() returns (node: string, err: bool)
      requires Valid()
      modifies this
      ensures Valid()
      ensures var o := Distinct(Path());
        if old(returned) < |o|
        then node == o[old(returned)] && returned == old(returned) + 1
             && (err <==> returned == |o| && EndsFresh(Path()))
        else node == "" && !err && returned == old(returned)
    {
      hide Distinct, Walk, StartIndex, EndsFresh, WalkedTo, Searched, Modulo, Wrap;
      ghost var w := Path();
      WalkStart(hashRing.View(), hashRing.hash(key), startIdx, pos, currIdx, seen, started, returned);
      if hashRing.nodes == [] {
        Exhausted(w, startIdx, pos, currIdx, seen, started, returned);
        return "", false;
      }
      var n := |hashRing.nodes|;
      var i := 0;
      while i < n
        invariant i <= n && |w| == n && pos <= |w| && Searched(w, pos, pos + i)
        invariant unchanged(this)
      {
        LookingAt(w, startIdx, pos, currIdx, seen, started, returned, i);
        ClockwiseAt(hashRing.View(), hashRing.hash(key), Wrap(pos + i, n));
        var nodeIdx := Modulo(currIdx + i, n);
        node := Owner(hashRing.View(), hashRing.nodes[nodeIdx]);
        if node !in seen {
          FoundNext(w, startIdx, pos, currIdx, seen, started, returned, pos + i);
          seen := seen + {node};
          currIdx := Modulo(nodeIdx + 1, n);
          pos, returned := pos + i + 1, returned + 1;
          if started && currIdx == startIdx {
            return node, true;
          }
          started := true;
          return node, false;
        }
        i := i + 1;
      }
      Exhausted(w, startIdx, pos, currIdx, seen, started, returned);
      return "", false;
    }

    method Reset()
      requires Valid()
      modifies this
      ensures Valid() && returned == 0
    {
      currIdx, seen, started := startIdx, {}, false;
      returned, pos := 0, 0;
    }
  }

  // ---- what callers of the iterator keep ----

  /** The nodes a caller gets before an error or an empty id: the whole order, less its last
      node when that one comes with the error. */
  function Offered(w: seq<string>): seq<string> {
    BeforeEmpty(if EndsFresh(w) then Butlast(Distinct(w)) else Distinct(w))
  }

  function Butlast(s: seq<string>): seq<string> {
    if s == [] then [] else s[..|s| - 1]
  }

  function BeforeEmpty(s: seq<string>): (r: seq<string>)
    ensures r <= s && "" !in r && (|r| < |s| ==> s[|r|] == "")
  {
    if s == [] || s[0] == "" then [] else [s[0]] + BeforeEmpty(s[1..])
  }

  function Take<T>(s: seq<T>, n: nat): seq<T> {
    if n <= |s| then s[..n] else s
  }

  lemma NoneOffered(r: Ring, h: nat)
    requires r.nodes == []
    ensures Offered(Walk(r, h)) == []
  {
    assert Distinct(Walk(r, h)) == [];
  }

  /** A caller that got k nodes and then stopped got the first k offered, and all of them
      when it was an error, an empty id or the end that stopped it. */
  lemma OfferedIs(w: seq<string>, k: nat)
    requires var o := Distinct(w); k <= |o| && "" !in o[..k] && (k > 0 && k == |o| ==> !EndsFresh(w))
    ensures k <= |Offered(w)| && Offered(w)[..k] == Distinct(w)[..k]
    ensures var o := Distinct(w); k == |o| || o[k] == "" || (k == |o| - 1 && EndsFresh(w)) ==> k == |Offered(w)|
  {
    hide Distinct;
    var c := if EndsFresh(w) then Butlast(Distinct(w)) else Distinct(w);
    assert c[..k] == Distinct(w)[..k];
    BeforeEmptyIs(c, k);
  }

  lemma BeforeEmptyIs(c: seq<string>, k: nat)
    requires k <= |c| && "" !in c[..k]
    ensures k <= |BeforeEmpty(c)| && BeforeEmpty(c)[..k] == c[..k]
    ensures k == |c| || c[k] == "" ==> k == |BeforeEmpty(c)|
  {
    var n := |BeforeEmpty(c)|;
    if k < n {
      assert BeforeEmpty(c)[k] == c[k];
    }
  }

  lemma AllOffered(s: seq<string>)
    requires "" !in s
    ensures BeforeEmpty(s) == s
  {
    assert forall k :: 0 <= k < |s| ==> s[k] in s;
  }

  lemma OfferedAll(w: seq<string>)
    requires "" !in w
    ensures EndsFresh(w) ==> Distinct(w) == Offered(w) + [w[|w| - 1]]
    ensures !EndsFresh(w) ==> Distinct(w) == Offered(w)
  {
    DistinctMembers(w);
    var o := Distinct(w);
    if EndsFresh(w) {
      assert o == Butlast(o) + [w[|w| - 1]];
      assert forall x :: x in Butlast(o) ==> x in o;
      AllOffered(Butlast(o));
    } else {
      AllOffered(o);
    }
  }

  /** With non-empty ids GetNodes hands out min(count, D) nodes of the order, and one fewer
      exactly when the node that comes with the error is among the first `count`. */
  lemma OfferedLength(w: seq<string>, count: nat)
    requires "" !in w
    ensures var o := Distinct(w);
      var k := (if count < |o| then count else |o|) - if EndsFresh(w) && count >= |o| then 1 else 0;
      0 <= k && Take(Offered(w), count) == o[..k]
  {
    hide Distinct, Offered, EndsFresh;
    OfferedAll(w);
  }
}
