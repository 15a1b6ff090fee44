/**
 What adding and removing a node do to a ring, as functions on values: append the virtual
 hashes and sort; delete the first occurrence of each virtual hash.
 */
module RingChanges {
  import opened RingOrder

  // ---- counting and sorting ----

  function Count(s: seq<nat>, x: nat): nat {
    if s == [] then 0 else Count(s[..|s| - 1], x) + if s[|s| - 1] == x then 1 else 0
  }

  lemma {:induction false} CountConcat(a: seq<nat>, b: seq<nat>, x: nat)
    ensures Count(a + b, x) == Count(a, x) + Count(b, x)
  {
    if b == [] {
      assert a + b == a;
    } else {
      CountConcat(a, b[..|b| - 1], x);
      assert (a + b)[..|a + b| - 1] == a + b[..|b| - 1];
    }
  }

  lemma {:induction false} CountIn(s: seq<nat>, x: nat)
    ensures Count(s, x) > 0 <==> x in s
  {
    if s != [] {
      CountIn(s[..|s| - 1], x);
      assert s == s[..|s| - 1] + [s[|s| - 1]];
    }
  }

  ghost predicate Sorted(s: seq<nat>) {
    forall i, j :: 0 <= i < j < |s| ==> s[i] <= s[j]
  }

  ghost predicate SameCounts(a: seq<nat>, b: seq<nat>) {
    forall x :: Count(a, x) == Count(b, x)
  }

  /** A sorted sequence is determined by how often it holds each element. */
  lemma {:induction false} SortedUnique(a: seq<nat>, b: seq<nat>)
    requires Sorted(a) && Sorted(b) && SameCounts(a, b)
    ensures a == b
  {
    if a != [] && b != [] {
      var n, m := |a| - 1, |b| - 1;
      CountIn(a, a[n]);
      CountIn(b, a[n]);
      CountIn(a, b[m]);
      CountIn(b, b[m]);
      assert a[n] == b[m];
      assert SameCounts(a[..n], b[..m]) by {
        forall x ensures Count(a[..n], x) == Count(b[..m], x) {
          assert Count(a, x) == Count(b, x);
        }
      }
      SortedUnique(a[..n], b[..m]);
    } else if a != [] {
      assert Count(a, a[0]) == Count(b, a[0]);
      CountIn(a, a[0]);
    } else if b != [] {
      assert Count(a, b[0]) == Count(b, b[0]);
      CountIn(b, b[0]);
    }
  }

  function InsertSorted(s: seq<nat>, x: nat): seq<nat> {
    if s == [] then [x]
    else if s[|s| - 1] <= x then s + [x]
    else InsertSorted(s[..|s| - 1], x) + [s[|s| - 1]]
  }

  /** sort.Slice on numbers. */
  function Sort(s: seq<nat>): seq<nat> {
    if s == [] then [] else InsertSorted(Sort(s[..|s| - 1]), s[|s| - 1])
  }

  lemma CountOne(s: seq<nat>, x: nat, y: nat)
    ensures Count(s + [x], y) == Count(s, y) + if x == y then 1 else 0
  {
    assert (s + [x])[..|s|] == s;
  }

  lemma {:induction false} InsertSortedCount(s: seq<nat>, x: nat, y: nat)
    ensures Count(InsertSorted(s, x), y) == Count(s, y) + if x == y then 1 else 0
  {
    if s != [] && s[|s| - 1] > x {
      InsertSortedCount(s[..|s| - 1], x, y);
      CountOne(InsertSorted(s[..|s| - 1], x), s[|s| - 1], y);
    } else {
      CountOne(s, x, y);
    }
  }

  lemma {:induction false} InsertSortedBound(s: seq<nat>, x: nat, m: nat)
    requires x <= m && forall k :: 0 <= k < |s| ==> s[k] <= m
    ensures forall k :: 0 <= k < |InsertSorted(s, x)| ==> InsertSorted(s, x)[k] <= m
  {
    if s != [] && s[|s| - 1] > x {
      InsertSortedBound(s[..|s| - 1], x, m);
    }
  }

  lemma {:induction false} InsertKeepsSorted(s: seq<nat>, x: nat)
    requires Sorted(s)
    ensures Sorted(InsertSorted(s, x))
  {
    if s != [] && s[|s| - 1] > x {
      InsertKeepsSorted(s[..|s| - 1], x);
      InsertSortedBound(s[..|s| - 1], x, s[|s| - 1]);
    }
  }

  lemma {:induction false} SortSorts(s: seq<nat>)
    ensures Sorted(Sort(s)) && SameCounts(Sort(s), s)
  {
    if s != [] {
      var r, x := Sort(s[..|s| - 1]), s[|s| - 1];
      SortSorts(s[..|s| - 1]);
      InsertKeepsSorted(r, x);
      forall y ensures Count(Sort(s), y) == Count(s, y) {
        InsertSortedCount(r, x, y);
        assert Count(r, y) == Count(s[..|s| - 1], y);
      }
    }
  }

  function RemoveFirst(s: seq<nat>, h: nat): seq<nat> {
    if s == [] then []
    else if s[0] == h then s[1..]
    else [s[0]] + RemoveFirst(s[1..], h)
  }

  lemma {:induction false} RemoveFirstCount(s: seq<nat>, h: nat, y: nat)
    ensures Count(RemoveFirst(s, h), y) == Count(s, y) - if h == y && h in s then 1 else 0
  {
    if s != [] {
      RemoveFirstCount(s[1..], h, y);
      assert s == [s[0]] + s[1..];
      CountConcat([s[0]], s[1..], y);
      CountConcat([s[0]], RemoveFirst(s[1..], h), y);
    }
  }

  lemma {:induction false} RemoveFirstBound(s: seq<nat>, h: nat, m: nat)
    requires forall k :: 0 <= k < |s| ==> m <= s[k]
    ensures forall k :: 0 <= k < |RemoveFirst(s, h)| ==> m <= RemoveFirst(s, h)[k]
  {
    if s != [] {
      RemoveFirstBound(s[1..], h, m);
    }
  }

  lemma {:induction false} RemoveFirstKeepsSorted(s: seq<nat>, h: nat)
    requires Sorted(s)
    ensures Sorted(RemoveFirst(s, h))
  {
    if s != [] {
      RemoveFirstKeepsSorted(s[1..], h);
      RemoveFirstBound(s[1..], h, s[0]);
    }
  }

  function RemoveEach(s: seq<nat>, hs: seq<nat>): seq<nat> {
    if hs == [] then s else RemoveFirst(RemoveEach(s, hs[..|hs| - 1]), hs[|hs| - 1])
  }

  lemma {:induction false} RemoveEachSorted(s: seq<nat>, hs: seq<nat>)
    requires Sorted(s)
    ensures Sorted(RemoveEach(s, hs))
  {
    if hs != [] {
      RemoveEachSorted(s, hs[..|hs| - 1]);
      RemoveFirstKeepsSorted(RemoveEach(s, hs[..|hs| - 1]), hs[|hs| - 1]);
    }
  }

  function Minus(a: nat, b: nat): nat {
    if a >= b then a - b else 0
  }

  lemma {:induction false} RemoveEachCount(s: seq<nat>, hs: seq<nat>, y: nat)
    ensures Count(RemoveEach(s, hs), y) == Minus(Count(s, y), Count(hs, y))
  {
    if hs != [] {
      var r := RemoveEach(s, hs[..|hs| - 1]);
      RemoveEachCount(s, hs[..|hs| - 1], y);
      RemoveFirstCount(r, hs[|hs| - 1], y);
      CountIn(r, y);
    }
  }

  // ---- the two operations ----

  function VirtualHashes(hash: Hash, node: string, k: nat): (r: seq<nat>)
    ensures |r| == k && forall i :: 0 <= i < k ==> r[i] == VirtualHash(hash, node, i)
  {
    if k == 0 then [] else VirtualHashes(hash, node, k - 1) + [VirtualHash(hash, node, k - 1)]
  }

  function SetOwner(owner: map<nat, string>, hs: seq<nat>, node: string): map<nat, string> {
    owner + map h | h in hs :: node
  }

  function Unset(owner: map<nat, string>, hs: seq<nat>): map<nat, string> {
    owner - set h | h in hs
  }

  function Add(r: Ring, hash: Hash, replicas: nat, node: string): Ring {
    var hs := VirtualHashes(hash, node, replicas);
    Ring(Sort(r.nodes + hs), SetOwner(r.owner, hs, node))
  }

  function Remove(r: Ring, hash: Hash, replicas: nat, node: string): Ring {
    var hs := VirtualHashes(hash, node, replicas);
    Ring(RemoveEach(r.nodes, hs), Unset(r.owner, hs))
  }

  lemma AddCount(r: Ring, hs: seq<nat>, y: nat)
    ensures Count(Sort(r.nodes + hs), y) == Count(r.nodes, y) + Count(hs, y)
  {
    SortSorts(r.nodes + hs);
    CountConcat(r.nodes, hs, y);
    assert Count(Sort(r.nodes + hs), y) == Count(r.nodes + hs, y);
  }

  lemma NodesRestored(r: Ring, hs: seq<nat>)
    requires Sorted(r.nodes)
    ensures RemoveEach(Sort(r.nodes + hs), hs) == r.nodes
  {
    SortSorts(r.nodes + hs);
    RemoveEachSorted(Sort(r.nodes + hs), hs);
    forall y ensures Count(RemoveEach(Sort(r.nodes + hs), hs), y) == Count(r.nodes, y) {
      AddCount(r, hs, y);
      RemoveEachCount(Sort(r.nodes + hs), hs, y);
    }
    SortedUnique(RemoveEach(Sort(r.nodes + hs), hs), r.nodes);
  }

  lemma OwnersRestored(owner: map<nat, string>, hs: seq<nat>, node: string)
    ensures Unset(SetOwner(owner, hs, node), hs) == owner <==> forall k :: 0 <= k < |hs| ==> hs[k] !in owner
  {
    var back := Unset(SetOwner(owner, hs, node), hs);
    assert forall h :: h in back <==> h in owner && h !in hs;
    if k :| 0 <= k < |hs| && hs[k] in owner {
      assert hs[k] !in back;
    } else {
      assert back == owner;
    }
  }

  /** Removing a node right after adding it restores the ring exactly when none of its
      virtual hashes was already taken: a collision loses the earlier owner. */
  lemma RemoveUndoesAdd(r: Ring, hash: Hash, replicas: nat, node: string)
    requires Sorted(r.nodes)
    ensures Remove(Add(r, hash, replicas, node), hash, replicas, node) == r
        <==> forall i :: 0 <= i < replicas ==> VirtualHash(hash, node, i) !in r.owner
  {
    hide Sorted, RemoveEach, Sort, Unset, SetOwner;
    var hs := VirtualHashes(hash, node, replicas);
    NodesRestored(r, hs);
    OwnersRestored(r.owner, hs, node);
  }

  // ---- rings of sets ----

  lemma {:induction false} TwiceCounted(s: seq<nat>, i: nat, j: nat)
    requires i < j < |s| && s[i] == s[j]
    ensures Count(s, s[i]) >= 2
  {
    CountIn(s[..j], s[i]);
    assert s == s[..j] + s[j..];
    CountConcat(s[..j], s[j..], s[i]);
    assert s[..j][i] == s[i];
    CountIn(s[j..], s[i]);
    assert s[j..][0] == s[i];
  }

  lemma OnceIncreasing(s: seq<nat>)
    requires Sorted(s) && forall x :: Count(s, x) <= 1
    ensures Increasing(s)
  {
    forall i, j | 0 <= i < j < |s| ensures s[i] < s[j] {
      if s[i] == s[j] {
        TwiceCounted(s, i, j);
        assert false;
      }
    }
  }

  lemma {:induction false} IncreasingOnce(s: seq<nat>, x: nat)
    requires Increasing(s)
    ensures Count(s, x) == if x in s then 1 else 0
  {
    if s != [] {
      assert s == s[..|s| - 1] + [s[|s| - 1]];
      IncreasingOnce(s[..|s| - 1], x);
    }
  }

  lemma {:induction false} HashesOnce(hash: Hash, node: string, k: nat, replicas: nat, nodes: set<string>, x: nat)
    requires k <= replicas && node in nodes && NoCollision(hash, replicas, nodes)
    ensures var hs := VirtualHashes(hash, node, k); Count(hs, x) == if x in hs then 1 else 0
  {
    if k > 0 {
      HashesOnce(hash, node, k - 1, replicas, nodes, x);
      HashIsNew(hash, node, k - 1, replicas, nodes);
      hide NoCollision, VirtualHash;
      CountOne(VirtualHashes(hash, node, k - 1), VirtualHash(hash, node, k - 1), x);
    }
  }

  lemma HashIsNew(hash: Hash, node: string, k: nat, replicas: nat, nodes: set<string>)
    requires k < replicas && node in nodes && NoCollision(hash, replicas, nodes)
    ensures VirtualHash(hash, node, k) !in VirtualHashes(hash, node, k)
  {
    var hs := VirtualHashes(hash, node, k);
    forall j | 0 <= j < k ensures hs[j] != VirtualHash(hash, node, k) {
      assert hs[j] == VirtualHash(hash, node, j);
    }
  }

  /** Every hash of a ring belongs to one of its nodes, so another node's hashes are new. */
  lemma ForeignHash(r: Ring, hash: Hash, replicas: nat, nodes: set<string>, node: string, i: nat)
    requires IsRingOf(r, hash, replicas, nodes) && NoCollision(hash, replicas, nodes + {node}) && i < replicas
    ensures var h := VirtualHash(hash, node, i); h in r.owner <==> node in nodes
    ensures var h := VirtualHash(hash, node, i); h in r.owner ==> r.owner[h] == node
  {
    var h := VirtualHash(hash, node, i);
    if h in r.owner {
      assert Owned(r, hash, replicas, nodes, h);
      var j :| 0 <= j < replicas && VirtualHash(hash, r.owner[h], j) == h;
    }
  }

  lemma NewHashes(r: Ring, hash: Hash, replicas: nat, nodes: set<string>, node: string, x: nat)
    requires IsRingOf(r, hash, replicas, nodes) && NoCollision(hash, replicas, nodes + {node}) && node !in nodes
    ensures var hs := VirtualHashes(hash, node, replicas);
      Count(r.nodes, x) + Count(hs, x) == if x in r.nodes || x in hs then 1 else 0
  {
    var hs := VirtualHashes(hash, node, replicas);
    IncreasingOnce(r.nodes, x);
    HashesOnce(hash, node, replicas, replicas, nodes + {node}, x);
    if x in hs {
      var i :| 0 <= i < |hs| && hs[i] == x;
      ForeignHash(r, hash, replicas, nodes, node, i);
    }
  }

  lemma AddMembers(r: Ring, hash: Hash, replicas: nat, nodes: set<string>, node: string)
    requires IsRingOf(r, hash, replicas, nodes) && node !in nodes && NoCollision(hash, replicas, nodes + {node})
    ensures var r', hs := Add(r, hash, replicas, node), VirtualHashes(hash, node, replicas);
      Increasing(r'.nodes) && forall h :: h in r'.nodes <==> h in r.nodes || h in hs
  {
    hide IsRingOf, NoCollision, VirtualHashes, Sort, Count, Increasing;
    var hs := VirtualHashes(hash, node, replicas);
    var s := Sort(r.nodes + hs);
    SortSorts(r.nodes + hs);
    forall h ensures Count(s, h) <= 1 && (h in s <==> h in r.nodes || h in hs) {
      AddCount(r, hs, h);
      NewHashes(r, hash, replicas, nodes, node, h);
      CountIn(s, h);
    }
    OnceIncreasing(s);
  }

  /** Adding an absent node gives the ring of the larger set. */
  lemma AddGivesRing(r: Ring, hash: Hash, replicas: nat, nodes: set<string>, node: string)
    requires IsRingOf(r, hash, replicas, nodes) && node !in nodes && NoCollision(hash, replicas, nodes + {node})
    ensures IsRingOf(Add(r, hash, replicas, node), hash, replicas, nodes + {node})
  {
    var hs := VirtualHashes(hash, node, replicas);
    var r' := Add(r, hash, replicas, node);
    AddMembers(r, hash, replicas, nodes, node);
    assert forall h :: h in r'.owner <==> h in r.owner || h in hs;
    forall h | h in r'.owner ensures Owned(r', hash, replicas, nodes + {node}, h) {
      AddedOwner(r, hash, replicas, nodes, node, h);
    }
    forall n, i | n in nodes + {node} && 0 <= i < replicas
      ensures VirtualHash(hash, n, i) in r'.owner && r'.owner[VirtualHash(hash, n, i)] == n
    {
      AddedHash(r, hash, replicas, nodes, node, n, i);
    }
  }

  lemma AddedOwner(r: Ring, hash: Hash, replicas: nat, nodes: set<string>, node: string, h: nat)
    requires forall v :: v in r.owner ==> Owned(r, hash, replicas, nodes, v)
    requires h in Add(r, hash, replicas, node).owner
    ensures Owned(Add(r, hash, replicas, node), hash, replicas, nodes + {node}, h)
  {
    var hs := VirtualHashes(hash, node, replicas);
    if h in hs {
      var i :| 0 <= i < |hs| && hs[i] == h;
      assert VirtualHash(hash, node, i) == h;
    } else {
      assert Owned(r, hash, replicas, nodes, h);
    }
  }

  lemma OthersHash(hash: Hash, replicas: nat, nodes: set<string>, node: string, n: string, i: nat)
    requires NoCollision(hash, replicas, nodes) && node in nodes && n in nodes && n != node && i < replicas
    ensures VirtualHash(hash, n, i) !in VirtualHashes(hash, node, replicas)
  {
    var hs := VirtualHashes(hash, node, replicas);
    forall j | 0 <= j < replicas ensures hs[j] != VirtualHash(hash, n, i) {
      assert VirtualHash(hash, node, j) == hs[j];
    }
  }

  lemma AddedHash(r: Ring, hash: Hash, replicas: nat, nodes: set<string>, node: string, n: string, i: nat)
    requires IsRingOf(r, hash, replicas, nodes) && NoCollision(hash, replicas, nodes + {node})
    requires n in nodes + {node} && i < replicas
    ensures var r', h := Add(r, hash, replicas, node), VirtualHash(hash, n, i);
      h in r'.owner && r'.owner[h] == n
  {
    var hs := VirtualHashes(hash, node, replicas);
    if n == node {
      assert hs[i] in hs;
    } else {
      OthersHash(hash, replicas, nodes + {node}, node, n, i);
      assert VirtualHash(hash, n, i) in r.owner && r.owner[VirtualHash(hash, n, i)] == n;
      hide IsRingOf, NoCollision, VirtualHashes;
    }
  }

  lemma RemoveMembers(r: Ring, hash: Hash, replicas: nat, nodes: set<string>, node: string)
    requires IsRingOf(r, hash, replicas, nodes) && NoCollision(hash, replicas, nodes + {node})
    ensures var r', hs := Remove(r, hash, replicas, node), VirtualHashes(hash, node, replicas);
      Increasing(r'.nodes) && forall h :: h in r'.nodes <==> h in r.nodes && h !in hs
  {
    var hs := VirtualHashes(hash, node, replicas);
    var s := RemoveEach(r.nodes, hs);
    assert Increasing(r.nodes);
    RemoveEachSorted(r.nodes, hs);
    hide IsRingOf, NoCollision, VirtualHashes, RemoveEach, Count, Increasing;
    forall h ensures Count(s, h) <= 1 && (h in s <==> h in r.nodes && h !in hs) {
      RemoveEachCount(r.nodes, hs, h);
      IncreasingOnce(r.nodes, h);
      HashesOnce(hash, node, replicas, replicas, nodes + {node}, h);
      CountIn(s, h);
    }
    OnceIncreasing(s);
  }

  /** Removing a node, present or not, gives the ring of the set without it. */
  lemma RemoveGivesRing(r: Ring, hash: Hash, replicas: nat, nodes: set<string>, node: string)
    requires IsRingOf(r, hash, replicas, nodes) && NoCollision(hash, replicas, nodes + {node})
    ensures IsRingOf(Remove(r, hash, replicas, node), hash, replicas, nodes - {node})
  {
    var hs := VirtualHashes(hash, node, replicas);
    var r' := Remove(r, hash, replicas, node);
    RemoveMembers(r, hash, replicas, nodes, node);
    assert forall h :: h in r'.owner <==> h in r.owner && h !in hs;
    forall h | h in r'.owner ensures Owned(r', hash, replicas, nodes - {node}, h) {
      KeptOwner(r, hash, replicas, nodes, node, h);
    }
    forall n, i | n in nodes - {node} && 0 <= i < replicas
      ensures VirtualHash(hash, n, i) in r'.owner && r'.owner[VirtualHash(hash, n, i)] == n
    {
      KeptHash(r, hash, replicas, nodes, node, n, i);
    }
  }

  lemma KeptOwner(r: Ring, hash: Hash, replicas: nat, nodes: set<string>, node: string, h: nat)
    requires forall v :: v in r.owner ==> Owned(r, hash, replicas, nodes, v)
    requires h in Remove(r, hash, replicas, node).owner
    ensures Owned(Remove(r, hash, replicas, node), hash, replicas, nodes - {node}, h)
  {
    var hs := VirtualHashes(hash, node, replicas);
    assert Owned(r, hash, replicas, nodes, h);
    var i :| 0 <= i < replicas && VirtualHash(hash, r.owner[h], i) == h;
    if r.owner[h] == node {
      assert false;
    }
  }

  lemma KeptHash(r: Ring, hash: Hash, replicas: nat, nodes: set<string>, node: string, n: string, i: nat)
    requires IsRingOf(r, hash, replicas, nodes) && NoCollision(hash, replicas, nodes + {node})
    requires n in nodes - {node} && i < replicas
    ensures var r', h := Remove(r, hash, replicas, node), VirtualHash(hash, n, i);
      h in r'.owner && r'.owner[h] == n
  {
    OthersHash(hash, replicas, nodes + {node}, node, n, i);
    assert VirtualHash(hash, n, i) in r.owner && r.owner[VirtualHash(hash, n, i)] == n;
    hide IsRingOf, NoCollision, VirtualHashes;
  }
}
