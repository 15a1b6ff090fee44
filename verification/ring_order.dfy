/**
 The clockwise order of a consistent-hash ring (internal/utils/hash.go) as a value: sorted
 virtual-node hashes, their owners, and the order in which a key meets distinct owners.
 CRC32 is an uninterpreted function from strings to numbers.
 */
module RingOrder {

  type Hash = string -> nat

  /** strconv.Itoa on the non-negative numbers it is used for. */
  function Itoa(n: nat): string {
    if n < 10 then [Digit(n)] else Itoa(n / 10) + [Digit(n % 10)]
  }

  function Digit(d: nat): char
    requires d < 10
  {
    "0123456789"[d]
  }

  function VirtualHash(hash: Hash, node: string, i: nat): nat {
    hash(node + ":" + Itoa(i))
  }

  datatype Ring = Ring(nodes: seq<nat>, owner: map<nat, string>)

  // ---- sequences ----

  ghost predicate Increasing(s: seq<nat>) {
    forall i, j :: 0 <= i < j < |s| ==> s[i] < s[j]
  }

  lemma HasMember(s: seq<nat>)
    requires s != []
    ensures exists x :: x in s
  {
    assert s[0] in s;
  }

  /** An increasing sequence is determined by its elements. */
  lemma {:induction false} IncreasingUnique(a: seq<nat>, b: seq<nat>)
    requires Increasing(a) && Increasing(b) && forall x :: x in a <==> x in b
    ensures a == b
  {
    if a == [] {
      if b != [] {
        HasMember(b);
        assert false;
      }
    } else {
      assert a[0] in b && b != [];
      var n, m := |a| - 1, |b| - 1;
      assert a[n] in b && b[m] in a;
      assert a[n] == b[m];
      forall x ensures x in a[..n] <==> x in b[..m] {
        if x in a[..n] {
          assert x in a && x in b;
        }
        if x in b[..m] {
          assert x in b && x in a;
        }
      }
      IncreasingUnique(a[..n], b[..m]);
      assert a == a[..n] + [a[n]] && b == b[..m] + [b[m]];
    }
  }

  function Filter<T>(s: seq<T>, keep: T -> bool): (r: seq<T>) {
    if s == [] then []
    else
      var r := Filter(s[..|s| - 1], keep);
      if keep(s[|s| - 1]) then r + [s[|s| - 1]] else r
  }

  lemma {:induction false} FilterMembers<T>(s: seq<T>, keep: T -> bool)
    ensures forall x :: x in Filter(s, keep) <==> x in s && keep(x)
  {
    if s != [] {
      FilterMembers(s[..|s| - 1], keep);
      assert s == s[..|s| - 1] + [s[|s| - 1]];
    }
  }

  lemma {:induction false} FilterConcat<T>(a: seq<T>, b: seq<T>, keep: T -> bool)
    ensures Filter(a + b, keep) == Filter(a, keep) + Filter(b, keep)
  {
    if b == [] {
      assert a + b == a;
    } else {
      FilterConcat(a, b[..|b| - 1], keep);
      assert (a + b)[..|a + b| - 1] == a + b[..|b| - 1];
    }
  }

  lemma {:induction false} FilterSwap<T>(s: seq<T>, p: T -> bool, q: T -> bool)
    ensures Filter(Filter(s, p), q) == Filter(Filter(s, q), p)
  {
    if s != [] {
      var rest, last := s[..|s| - 1], s[|s| - 1];
      FilterSwap(rest, p, q);
      FilterConcat(Filter(rest, p), [last], q);
      FilterConcat(Filter(rest, q), [last], p);
      FilterOne(last, p);
      FilterOne(last, q);
    }
  }

  lemma FilterOne<T>(x: T, keep: T -> bool)
    ensures Filter([x], keep) == if keep(x) then [x] else []
  {
    assert [x][..0] == [];
  }

  lemma {:induction false} FilterIncreasing(s: seq<nat>, keep: nat -> bool)
    requires Increasing(s)
    ensures Increasing(Filter(s, keep))
  {
    if s != [] {
      FilterIncreasing(s[..|s| - 1], keep);
      FilterMembers(s[..|s| - 1], keep);
      var r := Filter(s[..|s| - 1], keep);
      forall i | 0 <= i < |r| ensures r[i] < s[|s| - 1] {
        assert r[i] in s[..|s| - 1];
      }
    }
  }

  lemma {:induction false} FilterAll<T>(s: seq<T>, keep: T -> bool)
    requires forall x :: x in s ==> keep(x)
    ensures Filter(s, keep) == s
  {
    if s != [] {
      FilterAll(s[..|s| - 1], keep);
      assert s == s[..|s| - 1] + [s[|s| - 1]];
    }
  }

  lemma {:induction false} FilterNone<T>(s: seq<T>, keep: T -> bool)
    requires forall x :: x in s ==> !keep(x)
    ensures Filter(s, keep) == []
  {
    if s != [] {
      FilterNone(s[..|s| - 1], keep);
    }
  }

  // ---- first occurrences ----

  /** The distinct elements of s in order of first occurrence. */
  function Distinct<T(==)>(s: seq<T>): seq<T> {
    if s == [] then []
    else
      var rest := s[..|s| - 1];
      if s[|s| - 1] in rest then Distinct(rest) else Distinct(rest) + [s[|s| - 1]]
  }

  lemma {:induction false} DistinctMembers<T>(s: seq<T>)
    ensures forall x :: x in Distinct(s) <==> x in s
  {
    if s != [] {
      DistinctMembers(s[..|s| - 1]);
      assert s == s[..|s| - 1] + [s[|s| - 1]];
    }
  }

  lemma {:induction false} DistinctOnce<T>(s: seq<T>, i: nat, j: nat)
    requires i < j < |Distinct(s)|
    ensures Distinct(s)[i] != Distinct(s)[j]
  {
    var rest := s[..|s| - 1];
    if j < |Distinct(rest)| {
      DistinctOnce(rest, i, j);
    } else {
      DistinctMembers(rest);
      assert Distinct(rest)[i] in Distinct(rest);
    }
  }

  lemma {:induction false} DistinctPrefix<T>(s: seq<T>, k: nat)
    requires k <= |s|
    ensures Distinct(s[..k]) <= Distinct(s)
    decreases |s|
  {
    if k < |s| {
      DistinctPrefix(s[..|s| - 1], k);
      assert s[..|s| - 1][..k] == s[..k];
    } else {
      assert s[..k] == s;
    }
  }

  function Not(x: string): string -> bool {
    y => y != x
  }

  /** Deleting x before or after keeping first occurrences is the same. */
  lemma {:induction false} DistinctFilter(s: seq<string>, x: string)
    ensures Filter(Distinct(s), Not(x)) == Distinct(Filter(s, Not(x)))
  {
    var keep := Not(x);
    if s != [] {
      var rest, last := s[..|s| - 1], s[|s| - 1];
      DistinctFilter(rest, x);
      FilterMembers(rest, keep);
      DistinctMembers(rest);
      FilterConcat(Distinct(rest), [last], keep);
      FilterOne(last, keep);
      var f := Filter(rest, keep);
      assert keep(last) ==> (f + [last])[..|f|] == f;
    }
  }

  // ---- rings ----

  /** The ring holds exactly the virtual nodes of `nodes`, sorted, each owned by its node. */
  ghost predicate IsRingOf(r: Ring, hash: Hash, replicas: nat, nodes: set<string>) {
    && Increasing(r.nodes)
    && (forall h :: h in r.nodes <==> h in r.owner)
    && (forall h :: h in r.owner ==> Owned(r, hash, replicas, nodes, h))
    && (forall n, i :: n in nodes && 0 <= i < replicas ==>
          VirtualHash(hash, n, i) in r.owner && r.owner[VirtualHash(hash, n, i)] == n)
  }

  ghost predicate Owned(r: Ring, hash: Hash, replicas: nat, nodes: set<string>, h: nat)
    requires h in r.owner
  {
    r.owner[h] in nodes && exists i :: 0 <= i < replicas && VirtualHash(hash, r.owner[h], i) == h
  }

  /** Virtual nodes of `nodes` never share a hash. */
  ghost predicate NoCollision(hash: Hash, replicas: nat, nodes: set<string>) {
    forall a, i, b, j ::
      (a in nodes && b in nodes && 0 <= i < replicas && 0 <= j < replicas
       && VirtualHash(hash, a, i) == VirtualHash(hash, b, j)) ==> a == b && i == j
  }

  /** A set of nodes has only one ring, whatever the history of additions and removals. */
  lemma RingUnique(a: Ring, b: Ring, hash: Hash, replicas: nat, nodes: set<string>)
    requires IsRingOf(a, hash, replicas, nodes) && IsRingOf(b, hash, replicas, nodes)
    ensures a == b
  {
    forall h ensures h in a.owner <==> h in b.owner
      ensures h in a.owner ==> h in b.owner && a.owner[h] == b.owner[h]
    {
      if h in a.owner {
        assert Owned(a, hash, replicas, nodes, h);
      }
      if h in b.owner {
        assert Owned(b, hash, replicas, nodes, h);
      }
    }
    IncreasingUnique(a.nodes, b.nodes);
    assert a.owner == b.owner;
  }

  /** What sort.Search finds: the first position with a hash at or after h. */
  function FirstAtLeast(nodes: seq<nat>, h: nat): (i: nat)
    ensures i <= |nodes|
    ensures forall k :: 0 <= k < i ==> nodes[k] < h
    ensures i < |nodes| ==> nodes[i] >= h
  {
    if nodes == [] || nodes[0] >= h then 0 else 1 + FirstAtLeast(nodes[1..], h)
  }

  /** Where iteration for a key hash starts. */
  function StartIndex(nodes: seq<nat>, h: nat): (i: nat)
    ensures nodes != [] ==> i < |nodes|
  {
    var i := FirstAtLeast(nodes, h);
    if i == |nodes| then 0 else i
  }

  function Clockwise(nodes: seq<nat>, h: nat): (r: seq<nat>)
    ensures |r| == |nodes|
  {
    if nodes == [] then [] else nodes[StartIndex(nodes, h)..] + nodes[..StartIndex(nodes, h)]
  }

  function Owner(r: Ring, h: nat): string {
    if h in r.owner then r.owner[h] else ""
  }

  function Owners(r: Ring, s: seq<nat>): (o: seq<string>)
    ensures |o| == |s| && forall i :: 0 <= i < |s| ==> o[i] == Owner(r, s[i])
  {
    seq(|s|, i requires 0 <= i < |s| => Owner(r, s[i]))
  }

  /** The owners met going clockwise from a key hash, every virtual node in turn. */
  function Walk(r: Ring, h: nat): seq<string> {
    Owners(r, Clockwise(r.nodes, h))
  }

  /** ... and each node at its first occurrence. */
  function Order(r: Ring, h: nat): seq<string> {
    Distinct(Walk(r, h))
  }

  lemma ClockwiseMembers(nodes: seq<nat>, h: nat)
    ensures forall x :: x in Clockwise(nodes, h) <==> x in nodes
  {
    if nodes != [] {
      var i := StartIndex(nodes, h);
      assert nodes == nodes[..i] + nodes[i..];
    }
  }

  lemma WalkMembers(r: Ring, hash: Hash, replicas: nat, nodes: set<string>, h: nat)
    requires IsRingOf(r, hash, replicas, nodes) && replicas > 0
    ensures forall n :: n in Walk(r, h) <==> n in nodes
    ensures forall n :: n in Order(r, h) <==> n in nodes
  {
    ClockwiseMembers(r.nodes, h);
    DistinctMembers(Walk(r, h));
    forall n ensures n in Walk(r, h) <==> n in nodes {
      if n in nodes {
        WalkMeets(r, h, VirtualHash(hash, n, 0));
      }
      if n in Walk(r, h) {
        var k :| 0 <= k < |Walk(r, h)| && Walk(r, h)[k] == n;
        assert Clockwise(r.nodes, h)[k] in r.nodes;
        assert Owned(r, hash, replicas, nodes, Clockwise(r.nodes, h)[k]);
      }
    }
  }

  lemma WalkMeets(r: Ring, h: nat, v: nat)
    requires v in r.nodes
    ensures Owner(r, v) in Walk(r, h)
  {
    ClockwiseMembers(r.nodes, h);
    var k :| 0 <= k < |Clockwise(r.nodes, h)| && Clockwise(r.nodes, h)[k] == v;
    assert Walk(r, h)[k] == Owner(r, v);
  }

  // ---- minimal disruption ----

  function AtLeast(h: nat): nat -> bool {
    x => x >= h
  }

  function Below(h: nat): nat -> bool {
    x => x < h
  }

  function OwnedByOther(r: Ring, x: string): nat -> bool {
    (v: nat) => Owner(r, v) != x
  }

  lemma ClockwiseByFilter(nodes: seq<nat>, h: nat)
    requires Increasing(nodes)
    ensures Clockwise(nodes, h) == Filter(nodes, AtLeast(h)) + Filter(nodes, Below(h))
  {
    hide Filter, FirstAtLeast;
    var i := FirstAtLeast(nodes, h);
    var lo, hi := nodes[..i], nodes[i..];
    forall k | i <= k < |nodes| ensures nodes[k] >= h {
      assert nodes[i] <= nodes[k];
    }
    SplitAt(lo, hi, h);
    assert nodes == lo + hi;
    if i == |nodes| {
      assert lo == nodes && hi == [];
    }
  }

  lemma SplitAt(lo: seq<nat>, hi: seq<nat>, h: nat)
    requires (forall x :: x in lo ==> x < h) && (forall x :: x in hi ==> x >= h)
    ensures Filter(lo + hi, AtLeast(h)) == hi && Filter(lo + hi, Below(h)) == lo
  {
    FilterConcat(lo, hi, AtLeast(h));
    FilterConcat(lo, hi, Below(h));
    FilterNone(lo, AtLeast(h));
    FilterAll(hi, AtLeast(h));
    FilterAll(lo, Below(h));
    FilterNone(hi, Below(h));
  }

  lemma {:induction false} OwnersFilter(r: Ring, s: seq<nat>, x: string)
    ensures Owners(r, Filter(s, OwnedByOther(r, x))) == Filter(Owners(r, s), Not(x))
  {
    var p := OwnedByOther(r, x);
    if s != [] {
      var rest, last := s[..|s| - 1], s[|s| - 1];
      OwnersFilter(r, rest, x);
      assert Owners(r, s)[..|s| - 1] == Owners(r, rest);
      assert Owners(r, Filter(rest, p) + [last]) == Owners(r, Filter(rest, p)) + [Owner(r, last)];
    }
  }

  /** The smaller ring is the larger one without x's virtual nodes. */
  lemma SmallerRing(small: Ring, big: Ring, hash: Hash, replicas: nat, nodes: set<string>, x: string)
    requires IsRingOf(small, hash, replicas, nodes) && IsRingOf(big, hash, replicas, nodes + {x}) && x !in nodes
    ensures small.nodes == Filter(big.nodes, OwnedByOther(big, x))
    ensures forall v :: v in small.nodes ==> Owner(small, v) == Owner(big, v)
  {
    var keep := OwnedByOther(big, x);
    FilterIncreasing(big.nodes, keep);
    FilterMembers(big.nodes, keep);
    forall v ensures v in small.nodes <==> v in Filter(big.nodes, keep)
      ensures v in small.nodes ==> Owner(small, v) == Owner(big, v)
    {
      if v in small.nodes {
        assert Owned(small, hash, replicas, nodes, v);
      }
      if v in big.nodes {
        assert Owned(big, hash, replicas, nodes + {x}, v);
      }
    }
    IncreasingUnique(small.nodes, Filter(big.nodes, keep));
  }

  lemma ClockwiseWithout(nodes: seq<nat>, h: nat, keep: nat -> bool)
    requires Increasing(nodes)
    ensures Clockwise(Filter(nodes, keep), h) == Filter(Clockwise(nodes, h), keep)
  {
    var up, down := Filter(nodes, AtLeast(h)), Filter(nodes, Below(h));
    ClockwiseByFilter(nodes, h);
    FilterIncreasing(nodes, keep);
    ClockwiseByFilter(Filter(nodes, keep), h);
    FilterSwap(nodes, keep, AtLeast(h));
    FilterSwap(nodes, keep, Below(h));
    FilterConcat(up, down, keep);
  }

  lemma SameOwners(a: Ring, b: Ring, s: seq<nat>)
    requires forall v :: v in s ==> Owner(a, v) == Owner(b, v)
    ensures Owners(a, s) == Owners(b, s)
  {
  }

  /** Minimal disruption: with and without x, a key meets the other nodes in the same
      order. */
  lemma MinimalDisruption(small: Ring, big: Ring, hash: Hash, replicas: nat, nodes: set<string>, x: string, h: nat)
    requires IsRingOf(small, hash, replicas, nodes) && IsRingOf(big, hash, replicas, nodes + {x}) && x !in nodes
    ensures Filter(Order(big, h), Not(x)) == Order(small, h)
  {
    SmallerRing(small, big, hash, replicas, nodes, x);
    assert Increasing(big.nodes);
    hide IsRingOf, Increasing, Owner, OwnedByOther, Clockwise, Filter, Distinct;
    ClockwiseWithout(big.nodes, h, OwnedByOther(big, x));
    ClockwiseMembers(small.nodes, h);
    SameOwners(small, big, Clockwise(small.nodes, h));
    OwnersFilter(big, Clockwise(big.nodes, h), x);
    DistinctFilter(Walk(big, h), x);
  }

  /** ... so the node a key maps to changes only to or from x. */
  lemma KeysMoveOnlyToNewNode(small: Ring, big: Ring, hash: Hash, replicas: nat, nodes: set<string>, x: string, h: nat)
    requires IsRingOf(small, hash, replicas, nodes) && IsRingOf(big, hash, replicas, nodes + {x}) && x !in nodes
    requires Order(small, h) != [] && Order(big, h) != []
    ensures Order(big, h)[0] == x || Order(big, h)[0] == Order(small, h)[0]
  {
    hide IsRingOf, Order, Filter;
    MinimalDisruption(small, big, hash, replicas, nodes, x, h);
    if Order(big, h)[0] != x {
      FirstKept(Order(big, h), x);
    }
  }

  lemma FirstKept(o: seq<string>, x: string)
    requires o != [] && o[0] != x
    ensures Filter(o, Not(x)) != [] && Filter(o, Not(x))[0] == o[0]
  {
    assert o == [o[0]] + o[1..];
    FilterConcat([o[0]], o[1..], Not(x));
    FilterOne(o[0], Not(x));
  }
}
