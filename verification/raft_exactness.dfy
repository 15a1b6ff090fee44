/**
 The conditions of RaftSafety are exact, call by call, over all states of the log invariant:
 a success reply proves the slots they let the leader count and no more, and a follower may
 take a slot for committed exactly as far as they let it.
 */
module RaftExactness {
  import opened RaftTypes
  import opened RaftHandlers
  import opened RaftHistory
  import opened RaftLog
  import opened RaftCommit
  import opened RaftSafety

  /** The request quotes this leader log. */
  ghost predicate Quotes(leader: Log, req: AppendRequest) {
    && req.prevLogIndex + |req.entries| <= |leader|
    && req.entries == leader[req.prevLogIndex..req.prevLogIndex + |req.entries|]
    && (req.prevLogIndex > 0 ==> req.prevLogTerm == leader[req.prevLogIndex - 1].term)
  }

  /** Leader logs as the log invariant has them. */
  ghost predicate LeadersOk(h: History) {
    0 in h.leaderLog && h.leaderLog[0] == [SENTINEL] && forall t :: t in h.leaderLog ==> LeaderLogOk(h, t)
  }

  /** In a state of the log invariant where `leader` is the log of the request's term, node n
      answers the request with success. */
  ghost predicate Accepts(h: History, leader: Log, n: NodeState, req: AppendRequest) {
    && LeadersOk(h) && req.term in h.leaderLog && h.leaderLog[req.term] == leader && Quotes(leader, req)
    && NodeOk(n) && NodeLogOk(h, n) && (n.role == Leader ==> n.currentTerm != req.term)
    && HandleAppend(n, req).1.success
  }

  /** After accepting, the node holds the leader's first i slots. */
  ghost predicate HoldsAfter(n: NodeState, leader: Log, req: AppendRequest, i: nat)
    requires NodeOk(n)
  {
    var r := HandleAppend(n, req).0.log;
    i <= |r| && i <= |leader| && r[..i] == leader[..i]
  }

  lemma AcceptsProven(h: History, leader: Log, n: NodeState, req: AppendRequest)
    requires Accepts(h, leader, n, req)
    ensures HoldsAfter(n, leader, req, Proven(leader, req)) && HoldsAfter(n, leader, req, Reach(req))
    ensures req.prevLogIndex <= |n.log| && PrevMatches(n.log, req) && req.term >= n.currentTerm
    ensures HandleAppend(n, req).0.log == Merge(n.log, req.prevLogIndex, req.entries)
  {
    hide GoodLog, Merge, Proven;
    AcceptedHolds(h, n, req);
    ReachBelow(leader, req);
    var r := HandleAppend(n, req).0.log;
    assert r[..Reach(req)] == r[..Proven(leader, req)][..Reach(req)];
    assert leader[..Reach(req)] == leader[..Proven(leader, req)][..Reach(req)];
  }

  lemma ReachBelow(leader: Log, req: AppendRequest)
    ensures Reach(req) <= Proven(leader, req) <= Reach(req) + 1
  {
  }

  lemma FewerHeld(n: NodeState, leader: Log, req: AppendRequest, i: nat, j: nat)
    requires NodeOk(n) && HoldsAfter(n, leader, req, j) && i <= j
    ensures HoldsAfter(n, leader, req, i)
  {
    var r := HandleAppend(n, req).0.log;
    assert r[..i] == r[..j][..i] && leader[..i] == leader[..j][..i];
  }

  // ---- building states of the invariant ----

  /** The part of a log that a leader of term t could have started from. */
  function UpTo(log: Log, t: nat): (r: Log)
    ensures r <= log && (r == log || LastTerm(log) > t) && (LastTerm(r) <= t || |r| == 1)
    decreases |log|
  {
    if LastTerm(log) <= t || |log| == 1 then log else UpTo(log[..|log| - 1], t)
  }

  lemma {:induction false} UpToHas(log: Log, t: nat, k: nat)
    requires LogShape(log) && k < |log| && log[k].term <= t
    ensures k < |UpTo(log, t)|
    decreases |log|
  {
    if LastTerm(log) > t && |log| > 1 {
      assert LogShape(log[..|log| - 1]) by { ShapePrefix(log, |log| - 1); }
      UpToHas(log[..|log| - 1], t, k);
    }
  }

  lemma ShapePrefix(log: Log, n: nat)
    requires LogShape(log) && 1 <= n <= |log|
    ensures LogShape(log[..n])
  {
  }

  /** Leader logs: `top` for term t, `own` for term u, parts of `base` for the others. */
  ghost function Leaders(base: Log, own: Log, u: nat, top: Log, t: nat): map<nat, Log> {
    map x | 0 <= x <= t :: if x == t then top else if x == u then own else UpTo(base, x)
  }

  ghost function StateOf(leaderLog: map<nat, Log>): History {
    NoHistory().(leaderLog := leaderLog)
  }

  function Node(log: Log, t: nat): NodeState {
    NodeState("n", {}, Follower, t, "", "", log, 0, 0, map[], map[], {}, [])
  }

  /** A slot that a log shares with the base is vouched for by the base's part. */
  lemma BaseSlot(base: Log, own: Log, u: nat, top: Log, t: nat, log: Log, k: nat)
    requires LogShape(base) && k < |log| && k < |base| && log[..k + 1] == base[..k + 1]
    requires base[k].term < t && base[k].term != u
    ensures SlotAgrees(Leaders(base, own, u, top, t), log, k)
  {
    assert log[k] == log[..k + 1][k] == base[..k + 1][k] == base[k];
    UpToHas(base, base[k].term, k);
    var part := UpTo(base, base[k].term);
    assert part[..k + 1] == base[..k + 1];
  }

  /** Parts of a good log are good leader logs. */
  lemma PartGood(base: Log, own: Log, u: nat, top: Log, t: nat, x: nat)
    requires GoodLog(Leaders(base, own, u, top, t), base) && x < t && x != u
    ensures GoodLog(Leaders(base, own, u, top, t), UpTo(base, x)) && LastTerm(UpTo(base, x)) <= x
  {
    var part := UpTo(base, x);
    PrefixGood(Leaders(base, own, u, top, t), base, |part|);
    assert base[..|part|] == part;
    if |part| == 1 {
      assert part[0] == base[0] == SENTINEL;
    }
  }

  /** The state is one of the invariant when base, own and top are good logs of it. */
  lemma StateOk(base: Log, own: Log, u: nat, top: Log, t: nat)
    requires t >= 1 && u >= 1
    requires var m := Leaders(base, own, u, top, t); GoodLog(m, base) && GoodLog(m, own) && GoodLog(m, top)
    requires LastTerm(own) <= u && LastTerm(top) <= t
    ensures LeadersOk(StateOf(Leaders(base, own, u, top, t)))
  {
    var m := Leaders(base, own, u, top, t);
    var h := StateOf(m);
    forall x | x in m ensures LeaderLogOk(h, x) {
      if x != t && x != u {
        PartGood(base, own, u, top, t, x);
      }
    }
    SentinelOnly(base);
  }

  lemma {:induction false} SentinelOnly(log: Log)
    requires LogShape(log)
    ensures UpTo(log, 0) == [SENTINEL]
    decreases |log|
  {
    if |log| > 1 {
      ShapePrefix(log, |log| - 1);
      SentinelOnly(log[..|log| - 1]);
    } else {
      assert log == [log[0]];
    }
  }

  // ---- what a success reply proves ----

  /** Any non-empty part of the leader's log can be a follower's. */
  lemma PartAccepts(leader: Log, req: AppendRequest, n: nat) returns (h: History, node: NodeState)
    requires LogShape(leader) && LastTerm(leader) <= req.term && req.term >= 1 && Quotes(leader, req)
    requires 1 <= n <= |leader| && (req.prevLogIndex > 0 ==> req.prevLogIndex < n)
    ensures Accepts(h, leader, node, req) && node.log == leader[..n]
  {
    var t := req.term;
    var m := Leaders(leader, leader, t, leader, t);
    SelfGood(leader, t);
    hide GoodLog, LeadersOk, SlotAgrees;
    StateOk(leader, leader, t, leader, t);
    PrefixGood(m, leader, n);
    h, node := StateOf(m), Node(leader[..n], t);
    assert req.prevLogIndex > 0 ==> leader[..n][req.prevLogIndex - 1] == leader[req.prevLogIndex - 1];
    assert LastTerm(leader[..n]) <= t;
    NodeAccepts(m, leader, req, leader[..n]);
  }

  lemma SelfGood(leader: Log, t: nat)
    requires LogShape(leader) && LastTerm(leader) <= t
    ensures GoodLog(Leaders(leader, leader, t, leader, t), leader)
  {
    var m := Leaders(leader, leader, t, leader, t);
    forall k | 0 <= k < |leader| ensures SlotAgrees(m, leader, k) {
      if leader[k].term < t {
        BaseSlot(leader, leader, t, leader, t, leader, k);
      }
    }
  }

  lemma NodeAccepts(m: map<nat, Log>, leader: Log, req: AppendRequest, log: Log)
    requires LeadersOk(StateOf(m)) && req.term in m && m[req.term] == leader && Quotes(leader, req)
    requires GoodLog(m, log) && LastTerm(log) <= req.term && PrevMatches(log, req)
    ensures Accepts(StateOf(m), leader, Node(log, req.term), req)
  {
    hide GoodLog, LeadersOk, Quotes;
  }

  /** When a term is missing from the leader's log, a leader of that term can have put its own
      entry behind the one the request checks. */
  lemma GapAccepts(leader: Log, req: AppendRequest, u: nat) returns (h: History, node: NodeState)
    requires LogShape(leader) && LastTerm(leader) <= req.term && Quotes(leader, req)
    requires req.entries == [] && 1 <= req.prevLogIndex < |leader|
    requires 1 <= u < req.term && req.prevLogTerm <= u && !Occurs(leader, req.prevLogIndex, u)
    ensures Accepts(h, leader, node, req)
    ensures node.log == leader[..req.prevLogIndex] + [Entry(u, req.prevLogIndex, Nil)]
  {
    var t, prev := req.term, req.prevLogIndex;
    var log := leader[..prev] + [Entry(u, prev, Nil)];
    var m := Leaders(leader, log, u, leader, t);
    GapShape(leader, prev, u);
    GapGood(leader, prev, log, u, t);
    assert log[prev - 1] == leader[prev - 1];
    hide GoodLog, LeadersOk, SlotAgrees, LogShape, Occurs;
    StateOk(leader, log, u, leader, t);
    h, node := StateOf(m), Node(log, t);
    NodeAccepts(m, leader, req, log);
  }

  lemma GapGood(leader: Log, prev: nat, log: Log, u: nat, t: nat)
    requires LogShape(leader) && LastTerm(leader) <= t && 1 <= prev < |leader| && 1 <= u < t
    requires leader[prev - 1].term <= u && !Occurs(leader, prev, u)
    requires LogShape(log) && |log| == prev + 1 && log[..prev] == leader[..prev] && log[prev].term == u
    ensures var m := Leaders(leader, log, u, leader, t); GoodLog(m, leader) && GoodLog(m, log)
  {
    var m := Leaders(leader, log, u, leader, t);
    forall k | 0 <= k < |leader| ensures SlotAgrees(m, leader, k) {
      if leader[k].term == u {
        assert k < prev;
        assert log[..k + 1] == log[..prev][..k + 1] == leader[..prev][..k + 1] == leader[..k + 1];
      } else if leader[k].term < t {
        BaseSlot(leader, log, u, leader, t, leader, k);
      }
    }
    forall k | 0 <= k < |log| ensures SlotAgrees(m, log, k) {
      if k < prev {
        assert log[..k + 1] == log[..prev][..k + 1] == leader[..prev][..k + 1] == leader[..k + 1];
        assert log[k] == log[..prev][k] == leader[k];
        if leader[k].term != u {
          assert leader[k].term <= leader[prev - 1].term;
          BaseSlot(leader, log, u, leader, t, log, k);
        }
      }
    }
  }

  lemma GapShape(leader: Log, prev: nat, u: nat)
    requires LogShape(leader) && 1 <= prev < |leader| && u >= 1 && leader[prev - 1].term <= u
    ensures LogShape(leader[..prev] + [Entry(u, prev, Nil)])
  {
    var log := leader[..prev] + [Entry(u, prev, Nil)];
    assert forall k :: 0 <= k < prev ==> log[k] == leader[k] && leader[k].term <= leader[prev - 1].term;
  }

  /** A node that accepts the request and then holds no more than it proves. */
  lemma Bare(leader: Log, req: AppendRequest, i: nat) returns (h: History, node: NodeState)
    requires LogShape(leader) && LastTerm(leader) <= req.term && req.term >= 1 && Quotes(leader, req)
    requires Proven(leader, req) < i <= |leader|
    ensures Accepts(h, leader, node, req) && !HoldsAfter(node, leader, req, i)
  {
    var prev := req.prevLogIndex;
    if req.entries == [] && prev >= 1 && !NoGap(leader, req) {
      var u: nat :| (if req.prevLogTerm == 0 then 1 else req.prevLogTerm) <= u < req.term && !Occurs(leader, prev, u);
      h, node := GapAccepts(leader, req, u);
      AcceptsProven(h, leader, node, req);
      assert leader[prev].term != u;
      assert leader[..i][prev] == leader[prev];
    } else {
      h, node := PartAccepts(leader, req, Proven(leader, req));
      AcceptsProven(h, leader, node, req);
      PartStays(leader, req, node);
    }
  }

  lemma PartStays(leader: Log, req: AppendRequest, node: NodeState)
    requires req.prevLogIndex <= |node.log| && Quotes(leader, req)
    requires Proven(leader, req) <= |leader| && node.log == leader[..Proven(leader, req)]
    requires req.prevLogIndex + |req.entries| <= |node.log|
    ensures Merge(node.log, req.prevLogIndex, req.entries) == node.log
  {
    SameEntries(node.log, req.prevLogIndex, req.entries);
  }

  lemma {:induction false} SameEntries(log: Log, prev: nat, entries: seq<Entry>)
    requires prev + |entries| <= |log| && entries == log[prev..prev + |entries|]
    ensures Merge(log, prev, entries) == log
    decreases |entries|
  {
    if entries != [] {
      assert entries[0] == log[prev];
      SameEntries(log, prev + 1, entries[1..]);
    }
  }

  /** A success reply proves that the node holds the leader's first i slots, whatever node of
      whatever state of the log invariant sent it, exactly for i up to Proven. So counting a
      peer's next index on one reply is justified exactly under AckCovers. */
  lemma SuccessProves(leader: Log, req: AppendRequest, i: nat)
    requires LogShape(leader) && LastTerm(leader) <= req.term && req.term >= 1 && Quotes(leader, req)
    requires i <= |leader|
    ensures (forall h: History, n: NodeState :: Accepts(h, leader, n, req) ==> HoldsAfter(n, leader, req, i))
        <==> i <= Proven(leader, req)
  {
    hide Quotes, LogShape, NoGap, HoldsAfter, Proven;
    if i <= Proven(leader, req) {
      forall h: History, n: NodeState | Accepts(h, leader, n, req) ensures HoldsAfter(n, leader, req, i) {
        AcceptsProven(h, leader, n, req);
        FewerHeld(n, leader, req, i, Proven(leader, req));
      }
    } else {
      var h, n := Bare(leader, req, i);
      assert Accepts(h, leader, n, req) && !HoldsAfter(n, leader, req, i);
    }
  }

  // ---- what a follower may take for committed ----

  /** `log` up to n and then entries of term t, up to length m. */
  function Diverge(log: Log, n: nat, m: nat, t: nat): (r: Log)
    requires 1 <= n <= |log| && n <= m
    ensures |r| == m && r[..n] == log[..n] && forall k :: n <= k < m ==> r[k] == Entry(t, k, Nil)
    decreases m
  {
    if m == n then log[..n] else Diverge(log, n, m - 1, t) + [Entry(t, m - 1, Nil)]
  }

  lemma DivergeShape(log: Log, n: nat, m: nat, t: nat)
    requires LogShape(log) && 1 <= n <= |log| && n <= m && LastTerm(log) < t
    ensures LogShape(Diverge(log, n, m, t)) && LastTerm(Diverge(log, n, m, t)) <= t
  {
    var r := Diverge(log, n, m, t);
    assert forall k :: 0 <= k < n ==> r[k] == r[..n][k] == log[k];
    assert forall k :: 0 <= k < |log| ==> log[k].term <= LastTerm(log);
  }

  /** A follower whose log has no entry of term t cannot tell what its leader has behind the
      first n slots. */
  lemma OtherLeader(log: Log, n: nat, m: nat, t: nat) returns (h: History, other: Log)
    requires LogShape(log) && 1 <= n <= |log| && n <= m && LastTerm(log) < t
    ensures LeadersOk(h) && t in h.leaderLog && h.leaderLog[t] == other && GoodLog(h.leaderLog, log)
    ensures forall x :: LastTerm(log) <= x < t ==> x in h.leaderLog && h.leaderLog[x] == log
    ensures |other| == m && other[..n] == log[..n] && forall k :: n <= k < m ==> other[k] == Entry(t, k, Nil)
  {
    other := Diverge(log, n, m, t);
    DivergeShape(log, n, m, t);
    BothGood(log, n, other, t);
    StateOk(log, other, t, other, t);
    h := StateOf(Leaders(log, other, t, other, t));
    hide GoodLog, LeadersOk, Diverge;
  }

  lemma BothGood(log: Log, n: nat, other: Log, t: nat)
    requires LogShape(log) && LogShape(other) && LastTerm(log) < t && n <= |log| && n <= |other|
    requires other[..n] == log[..n] && forall k :: n <= k < |other| ==> other[k].term == t
    ensures var l := Leaders(log, other, t, other, t); GoodLog(l, log) && GoodLog(l, other)
  {
    var l := Leaders(log, other, t, other, t);
    forall k | 0 <= k < |log| ensures SlotAgrees(l, log, k) {
      assert log[k].term <= LastTerm(log);
      BaseSlot(log, other, t, other, t, log, k);
    }
    forall k | 0 <= k < |other| ensures SlotAgrees(l, other, k) {
      if k < n {
        assert log[k].term <= LastTerm(log);
        assert other[..k + 1] == other[..n][..k + 1] == log[..n][..k + 1] == log[..k + 1];
        BaseSlot(log, other, t, other, t, other, k);
      } else {
        assert t in l && l[t] == other;
      }
    }
  }

  /** ... so it accepts the request from that leader too. */
  lemma AcceptsOther(h: History, leader: Log, n: NodeState, req: AppendRequest, m: nat)
    returns (h': History, other: Log)
    requires Accepts(h, leader, n, req) && LastTerm(n.log) < req.term && m > Reach(req)
    requires Merge(n.log, req.prevLogIndex, req.entries) == n.log && Reach(req) <= |n.log|
    ensures Accepts(h', other, n, req) && |other| == m && other[Reach(req)].term == req.term
  {
    assert LogShape(n.log);
    AcceptsProven(h, leader, n, req);
    hide GoodLog, LeadersOk, HandleAppend, Merge, PrevMatches, LogShape, Quotes;
    h', other := OtherLeader(n.log, Reach(req), m, req.term);
    QuotedToo(leader, other, req);
  }

  lemma QuotedToo(leader: Log, other: Log, req: AppendRequest)
    requires Quotes(leader, req) && Reach(req) <= |leader| && Reach(req) <= |other|
    requires other[..Reach(req)] == leader[..Reach(req)]
    ensures Quotes(other, req)
  {
    var prev, known, k := req.prevLogIndex, req.prevLogIndex + |req.entries|, Reach(req);
    assert other[prev..known] == other[..k][prev..known] == leader[..k][prev..known] == leader[prev..known];
    assert prev > 0 ==> other[prev - 1] == other[..k][prev - 1] == leader[..k][prev - 1];
  }

  /** The slots a follower takes for committed are those of the leader, in every state of the
      log invariant in which it accepts the request from a leader that has committed them,
      exactly under CommitCovered. */
  lemma CommitProves(h: History, leader: Log, n: NodeState, req: AppendRequest)
    requires Accepts(h, leader, n, req) && TakesCommit(n, req)
    ensures req.prevLogIndex <= |n.log|
    ensures CommitWithin(n, req)
        <==> (forall h': History, other: Log :: Accepts(h', other, n, req) && req.leaderCommit < |other| ==>
                HoldsAfter(n, other, req, TakenCommit(n, req)))
  {
    AcceptsProven(h, leader, n, req);
    var r := HandleAppend(n, req).0.log;
    var ci := TakenCommit(n, req);
    if CommitWithin(n, req) {
      forall h': History, other: Log | Accepts(h', other, n, req) && req.leaderCommit < |other|
        ensures HoldsAfter(n, other, req, ci)
      {
        CommitAgrees(h', other, n, req);
      }
    } else {
      KeptLog(h, leader, n, req);
      var h', other := AcceptsOther(h, leader, n, req, req.leaderCommit + 1);
      assert !HoldsAfter(n, other, req, ci) by {
        assert r[Reach(req)].term <= LastTerm(r);
        assert r[..ci][Reach(req)] != other[..ci][Reach(req)];
      }
    }
  }

  lemma CommitAgrees(h: History, leader: Log, n: NodeState, req: AppendRequest)
    requires Accepts(h, leader, n, req) && TakesCommit(n, req) && req.leaderCommit < |leader|
    requires req.prevLogIndex <= |n.log| && CommitWithin(n, req)
    ensures HoldsAfter(n, leader, req, TakenCommit(n, req))
  {
    AcceptsProven(h, leader, n, req);
    var r := HandleAppend(n, req).0.log;
    var ci := TakenCommit(n, req);
    if ci <= Reach(req) {
      FewerHeld(n, leader, req, ci, Reach(req));
    } else {
      AppendKeepsGood(h, n.log, req);
      assert SlotAgrees(h.leaderLog, r, |r| - 1);
      assert r[..ci] == r[..|r|][..ci] && leader[..ci] == leader[..|r|][..ci];
    }
  }

  /** A follower that takes more than the request reaches kept its log. */
  lemma KeptLog(h: History, leader: Log, n: NodeState, req: AppendRequest)
    requires Accepts(h, leader, n, req) && req.prevLogIndex <= |n.log| && TakenCommit(n, req) > Reach(req)
    ensures Merge(n.log, req.prevLogIndex, req.entries) == n.log && HandleAppend(n, req).0.log == n.log
  {
    AcceptsProven(h, leader, n, req);
    AppendKeepsGood(h, n.log, req);
  }

  /** A request built at the peer's next index proves that index exactly when it carries
      entries, or only the sentinel is counted, or there is no gap behind the entry before. */
  lemma BuiltCovers(n: NodeState, peer: NodeId, heartbeat: bool)
    requires NodeOk(n) && peer in n.peers && peer != n.id
    ensures var next, req := Lookup(n.nextIndex, peer), BuildAppend(n, peer, heartbeat);
      next <= Proven(n.log, req) <==> (!heartbeat && next <= |n.log|) || next == 1 || NoGap(n.log, req)
  {
  }

  /** There is none when that entry is of the leader's own term: inside a settled term even
      heartbeats may be counted. */
  lemma OwnTermHasNoGap(leader: Log, req: AppendRequest)
    requires req.prevLogTerm == req.term
    ensures NoGap(leader, req)
  {
  }
}
