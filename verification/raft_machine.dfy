/**
 State Machine Safety, in runs that satisfy both hypotheses of RaftSafety: what any two
 nodes have applied agrees slot by slot.
 */
module RaftMachine {
  import opened Common
  import opened RaftTypes
  import opened RaftHandlers
  import opened RaftCluster
  import opened RaftHistory
  import opened RaftElection
  import opened RaftLog
  import opened RaftCommit
  import opened RaftSafety

  /** The first `ci` slots of `log` were committed by a leader of a term up to `limit`. */
  ghost predicate Committed(h: History, log: Log, ci: nat, limit: nat) {
    ci == 0 || exists k :: k in h.commits && k.term <= limit && ci <= k.index && Holds(h, log, k.term, ci)
  }

  ghost predicate NodeSafe(h: History, n: NodeState) {
    && n.commitIndex < |n.log| && n.lastApplied == n.commitIndex
    && n.applied == n.log[..n.commitIndex]
    && Committed(h, n.log, n.commitIndex, n.currentTerm)
  }

  ghost predicate RequestSafe(h: History, req: AppendRequest) {
    && req.term in h.leaderLog && req.leaderCommit <= |h.leaderLog[req.term]|
    && Committed(h, h.leaderLog[req.term], req.leaderCommit, req.term)
  }

  ghost predicate SafeInv(c: Cluster, h: History) {
    && (forall n :: n in c.nodes ==> NodeSafe(h, c.nodes[n]))
    && (forall p :: p in c.net && p.AppReq? ==> RequestSafe(h, p.areq))
  }

  // ---- committed slots are in every later leader's log ----

  lemma CommitIsChoosable(c: Cluster, h: History, k: Commit)
    requires c.nodes.Keys == c.members && CommitOk(c, h, k)
    ensures Choosable(c, h, k.term, k.index)
  {
    SubsetSize(Ackers(c, h, k.term, k.index), Supporters(c, h, k.term, k.index));
  }

  lemma LeaderHoldsCommit(c: Cluster, h: History, k: Commit, t: nat)
    requires c.nodes.Keys == c.members && ChoiceInv(c, h) && CommitOk(c, h, k)
    requires t in h.leaderLog && k.term <= t
    ensures Holds(h, h.leaderLog[t], k.term, k.index)
  {
    CommitIsChoosable(c, h, k);
    assert ChoiceOk(c, h, k.term, k.index);
  }

  lemma HoldsLess(h: History, log: Log, t: nat, i: nat, j: nat)
    requires Holds(h, log, t, i) && j <= i
    ensures Holds(h, log, t, j)
  {
    assert log[..j] == log[..i][..j];
    assert h.leaderLog[t][..j] == h.leaderLog[t][..i][..j];
  }

  /** A log holds its own committed slots of any leader from that term on. */
  lemma CommittedMatchesLeader(c: Cluster, h: History, log: Log, ci: nat, limit: nat, t: nat)
    requires c.nodes.Keys == c.members && ChoiceInv(c, h) && (forall k :: k in h.commits ==> CommitOk(c, h, k))
    requires Committed(h, log, ci, limit) && t in h.leaderLog && limit <= t
    ensures Holds(h, log, t, ci)
  {
    if ci > 0 {
      var k :| k in h.commits && k.term <= limit && ci <= k.index && Holds(h, log, k.term, ci);
      LeaderHoldsCommit(c, h, k, t);
      HoldsLess(h, h.leaderLog[t], k.term, k.index, ci);
    }
  }

  lemma CommittedGrows(h: History, h': History, log: Log, log': Log, ci: nat, limit: nat, limit': nat)
    requires Committed(h, log, ci, limit) && limit <= limit' && h.commits <= h'.commits && LogsGrow(h, h')
    requires ci <= |log| && ci <= |log'| && log'[..ci] == log[..ci]
    ensures Committed(h', log', ci, limit')
  {
    if ci > 0 {
      var k :| k in h.commits && k.term <= limit && ci <= k.index && Holds(h, log, k.term, ci);
      assert Holds(h', log', k.term, ci);
    }
  }

  /** A shorter part of a committed prefix is committed, in any log that shares it. */
  lemma CommittedLess(h: History, leader: Log, log: Log, lc: nat, ci: nat, limit: nat)
    requires Committed(h, leader, lc, limit) && ci <= lc <= |leader| && ci <= |log| && log[..ci] == leader[..ci]
    ensures Committed(h, log, ci, limit)
  {
    if ci > 0 {
      var k :| k in h.commits && k.term <= limit && lc <= k.index && Holds(h, leader, k.term, lc);
      HoldsLess(h, leader, k.term, lc, ci);
      assert Holds(h, log, k.term, ci);
    }
  }

  // ---- a follower accepting a request ----

  /** Merging never touches the committed slots. */
  lemma MergeKeepsCommitted(h: History, n: NodeState, req: AppendRequest)
    requires NodeLogOk(h, n) && AppendOk(h, req) && LeaderLogOk(h, req.term) && PrevMatches(n.log, req)
    requires n.commitIndex < |n.log| && Holds(h, n.log, req.term, n.commitIndex)
    ensures req.prevLogIndex <= |n.log|
    ensures var r := Merge(n.log, req.prevLogIndex, req.entries);
      n.commitIndex < |r| && r[..n.commitIndex] == n.log[..n.commitIndex]
  {
    hide GoodLog, Merge, AppendOk, PrevMatches;
    AppendKeepsGood(h, n.log, req);
    var r := Merge(n.log, req.prevLogIndex, req.entries);
    assert Holds(h, r, req.term, n.commitIndex);
    if r != n.log {
      var known := req.prevLogIndex + |req.entries|;
      if known <= n.commitIndex {
        HoldsLess(h, n.log, req.term, n.commitIndex, known);
      }
    }
  }

  /** What an accepted request does to the indices of a node that has applied up to its
      commit index. */
  lemma Accepting(n: NodeState, req: AppendRequest)
    requires NodeOk(n) && n.lastApplied == n.commitIndex
    requires req.term >= n.currentTerm && PrevMatches(n.log, req)
    requires n.commitIndex < |Merge(n.log, req.prevLogIndex, req.entries)|
    ensures var n' := HandleAppend(n, req).0;
      var r := Merge(n.log, req.prevLogIndex, req.entries);
      var ci := if req.leaderCommit > n.commitIndex then Min(req.leaderCommit, |r| - 1) else n.commitIndex;
      && n'.log == r && n'.currentTerm == req.term && n'.commitIndex == n'.lastApplied == ci
      && n.commitIndex <= ci && n'.applied == n.applied + r[n.commitIndex..ci]
  {
  }

  lemma Refusing(n: NodeState, req: AppendRequest)
    requires NodeOk(n) && (req.term < n.currentTerm || !PrevMatches(n.log, req))
    ensures var n' := HandleAppend(n, req).0;
      && n'.log == n.log && n'.commitIndex == n.commitIndex && n'.lastApplied == n.lastApplied
      && n'.applied == n.applied && n'.currentTerm >= n.currentTerm
  {
  }

  lemma AcceptedSafe(h: History, n: NodeState, req: AppendRequest, r: Log, ci: nat, n': NodeState)
    requires NodeSafe(h, n) && RequestSafe(h, req) && n.currentTerm <= req.term
    requires n.commitIndex < |r| && r[..n.commitIndex] == n.log[..n.commitIndex]
    requires ci == if req.leaderCommit > n.commitIndex then Min(req.leaderCommit, |r| - 1) else n.commitIndex
    requires req.leaderCommit > n.commitIndex ==> Holds(h, r, req.term, ci)
    requires n'.log == r && n'.currentTerm == req.term && n'.commitIndex == n'.lastApplied == ci
    requires n'.applied == n.applied + r[n.commitIndex..ci]
    ensures NodeSafe(h, n')
  {
    assert n'.applied == r[..ci];
    if req.leaderCommit > n.commitIndex {
      CommittedLess(h, h.leaderLog[req.term], r, req.leaderCommit, ci, req.term);
    } else {
      CommittedGrows(h, h, n.log, r, n.commitIndex, n.currentTerm, req.term);
    }
  }

  /** What the node takes for committed is the leader's. */
  ghost predicate CommitHeld(h: History, n: NodeState, req: AppendRequest) {
    TakesCommit(n, req) && req.prevLogIndex <= |n.log| ==>
      var r: seq<Entry> := Merge(n.log, req.prevLogIndex, req.entries);
      r != [] && Holds(h, r, req.term, TakenCommit(n, req))
  }

  lemma ReceiverSafe(h: History, n: NodeState, s: Step)
    requires NodeOk(n) && NodeLogOk(h, n) && NodeSafe(h, n)
    requires s.Deliver? && s.packet.AppReq? && CommitHeld(h, n, s.packet.areq)
    requires var req := s.packet.areq;
      && AppendOk(h, req) && LeaderLogOk(h, req.term) && RequestSafe(h, req)
      && (req.term >= n.currentTerm ==> Holds(h, n.log, req.term, n.commitIndex))
    ensures NodeSafe(h, Act(n, s))
  {
    hide HandleAppend, NodeLogOk, AppendOk, LeaderLogOk, RequestSafe, Holds, Committed;
    var req := s.packet.areq;
    if req.term >= n.currentTerm && PrevMatches(n.log, req) {
      MergeKeepsCommitted(h, n, req);
      Accepting(n, req);
      var r := Merge(n.log, req.prevLogIndex, req.entries);
      AcceptedSafe(h, n, req, r, Act(n, s).commitIndex, Act(n, s));
    } else {
      Refusing(n, req);
      StillSafe(h, h, n, Act(n, s));
    }
  }

  // ---- a leader committing ----

  lemma CommitterSafe(h: History, n: NodeState, s: Step)
    requires NodeOk(n) && NodeLogOk(h, n) && NodeSafe(h, n)
    requires s.Deliver? && s.packet.AppRep?
    ensures NodeSafe(Record(h, n, s), Act(n, s))
  {
    var h', n' := Record(h, n, s), Act(n, s);
    if n'.commitIndex > n.commitIndex {
      NewCommit(h, n, s);
      var k := Commit(n.currentTerm, n'.commitIndex);
      assert k in h'.commits;
      assert Holds(h', n'.log, k.term, n'.commitIndex);
      assert n'.applied == n.log[..n'.commitIndex];
    } else {
      QuietReply(n, s);
      CommittedGrows(h, h', n.log, n'.log, n.commitIndex, n.currentTerm, n'.currentTerm);
    }
  }

  lemma QuietReply(n: NodeState, s: Step)
    requires NodeOk(n) && s.Deliver? && s.packet.AppRep? && Act(n, s).commitIndex <= n.commitIndex
    ensures var n' := Act(n, s);
      && n'.log == n.log && n'.commitIndex == n.commitIndex && n'.lastApplied == n.lastApplied
      && n'.applied == n.applied && n'.currentTerm >= n.currentTerm
  {
  }

  // ---- other steps ----

  lemma OtherActs(n: NodeState, s: Step)
    requires NodeOk(n) && !(s.Deliver? && (s.packet.AppReq? || s.packet.AppRep?))
    ensures var n' := Act(n, s);
      && n.log <= n'.log && n'.commitIndex == n.commitIndex && n'.lastApplied == n.lastApplied
      && n'.applied == n.applied && n'.currentTerm >= n.currentTerm
  {
  }

  lemma StillSafe(h: History, h': History, n: NodeState, n': NodeState)
    requires NodeSafe(h, n) && LogsGrow(h, h') && h.commits <= h'.commits
    requires n.log <= n'.log && n'.commitIndex == n.commitIndex && n'.lastApplied == n.lastApplied
    requires n'.applied == n.applied && n'.currentTerm >= n.currentTerm
    ensures NodeSafe(h', n')
  {
    assert n'.log[..n.commitIndex] == n.log[..n.commitIndex];
    CommittedGrows(h, h', n.log, n'.log, n.commitIndex, n.currentTerm, n'.currentTerm);
  }

  lemma RequestStillSafe(h: History, h': History, req: AppendRequest)
    requires RequestSafe(h, req) && LogsGrow(h, h') && h.commits <= h'.commits
    ensures RequestSafe(h', req)
  {
    var a, b := h.leaderLog[req.term], h'.leaderLog[req.term];
    assert b[..req.leaderCommit] == a[..req.leaderCommit];
    CommittedGrows(h, h', a, b, req.leaderCommit, req.term, req.term);
  }

  // ---- what a node acknowledged in its current term ----

  /** A node still in the term of an acknowledgement still holds what it acknowledged. */
  ghost predicate HeldInv(c: Cluster, h: History) {
    forall a :: a in h.acks && a.node in c.nodes && c.nodes[a.node].currentTerm == a.term ==>
      Holds(h, c.nodes[a.node].log, a.term, a.index)
  }

  lemma ActorStillHolds(h: History, n: NodeState, s: Step, a: Ack)
    requires ActorLogKnows(h, n, s) && LogsGrow(h, Record(h, n, s)) && Holds(h, n.log, a.term, a.index)
    requires a.term == n.currentTerm == Act(n, s).currentTerm
    ensures Holds(Record(h, n, s), Act(n, s).log, a.term, a.index)
  {
    hide GoodLog, NodeLogOk, LeaderLogOk, AppendOk, Record, Merge;
    if s.Deliver? && s.packet.AppReq? && s.packet.areq.term >= n.currentTerm {
      assert s.packet.areq.term == a.term;
    }
    ActorKeepsHold(h, n, s, a.term, a.index);
  }

  lemma HeldInvKept(c: Cluster, h: History, s: Step, c': Cluster, h': History)
    requires AckInv(c, h) && HeldInv(c, h) && Steps(c, h, s, c', h')
    requires ActorLogKnows(h, c.nodes[Actor(s)], s) && h' == Record(h, c.nodes[Actor(s)], s)
    requires c'.nodes == c.nodes[Actor(s) := Act(c.nodes[Actor(s)], s)]
    ensures HeldInv(c', h')
  {
    hide ActorLogKnows, Record, Act, Holds;
    forall a | a in h'.acks && a.node in c'.nodes && c'.nodes[a.node].currentTerm == a.term
      ensures Holds(h', c'.nodes[a.node].log, a.term, a.index)
    {
      if a in h.acks {
        assert AckOk(c, h, a);
        if a.node == Actor(s) {
          ActorStillHolds(h, c.nodes[Actor(s)], s, a);
        } else {
          HoldsGrows(h, h', c.nodes[a.node].log, a.term, a.index);
        }
      }
    }
  }

  /** A log that ends in an entry of term t is wholly the leader of t's. */
  lemma EndsInTerm(h: History, log: Log, t: nat, j: nat)
    requires GoodLog(h.leaderLog, log) && LastTerm(log) == t && j <= |log|
    ensures Holds(h, log, t, j)
  {
    assert SlotAgrees(h.leaderLog, log, |log| - 1);
    assert log[..j] == log[..|log|][..j] && h.leaderLog[t][..j] == h.leaderLog[t][..|log|][..j];
  }

  /** A covered commit is the leader's: read off the request, or off the end of the log. */
  lemma CoveredIsHeld(h: History, n: NodeState, s: Step)
    requires NodeOk(n) && NodeLogOk(h, n) && s.Deliver? && s.packet.AppReq? && CommitCovered(n, s)
    requires AppendOk(h, s.packet.areq) && LeaderLogOk(h, s.packet.areq.term)
    ensures CommitHeld(h, n, s.packet.areq)
  {
    var req := s.packet.areq;
    if TakesCommit(n, req) && req.prevLogIndex <= |n.log| {
      hide GoodLog, AppendOk, PrevMatches, Merge;
      AppendKeepsGood(h, n.log, req);
      var r := Merge(n.log, req.prevLogIndex, req.entries);
      var ci := TakenCommit(n, req);
      if ci <= Reach(req) {
        SentinelHeld(h, r, req.term);
        HoldsLess(h, r, req.term, Reach(req), ci);
      } else {
        EndsInTerm(h, r, req.term, ci);
      }
    }
  }

  /** What an earlier request of the term proved is still there after this one. */
  lemma EarlierIsHeld(c: Cluster, h: History, s: Step, p: Packet)
    requires AckInv(c, h) && HeldInv(c, h) && Actor(s) in c.nodes && c.nodes[Actor(s)].id == Actor(s)
    requires s.Deliver? && s.packet.AppReq? && AppendOk(h, s.packet.areq) && LeaderLogOk(h, s.packet.areq.term)
    requires NodeOk(c.nodes[Actor(s)]) && NodeLogOk(h, c.nodes[Actor(s)])
    requires s.packet.areq.prevLogIndex <= |c.nodes[Actor(s)].log|
    requires p in c.net && Accepted(p, Actor(s), s.packet.areq.term)
    requires TakenCommit(c.nodes[Actor(s)], s.packet.areq) <= Reach(p.areq)
    ensures CommitHeld(h, c.nodes[Actor(s)], s.packet.areq)
  {
    var n, req := c.nodes[Actor(s)], s.packet.areq;
    if TakesCommit(n, req) {
      var a := AckOfRequest(h.leaderLog, n.id, p.areq);
      assert a in h.acks && AckOk(c, h, a);
      assert Holds(h, n.log, req.term, a.index);
      hide GoodLog, AppendOk, PrevMatches, Merge, AckInv, HeldInv;
      var ci := TakenCommit(n, req);
      HoldsLess(h, n.log, req.term, a.index, ci);
      AppendKeepsGood(h, n.log, req);
    }
  }

  /** An index that is not above the node's own commits nothing new. */
  lemma OldIsHeld(h: History, n: NodeState, req: AppendRequest)
    requires NodeOk(n) && NodeLogOk(h, n) && AppendOk(h, req) && LeaderLogOk(h, req.term)
    requires req.prevLogIndex <= |n.log| && TakenCommit(n, req) <= n.commitIndex
    requires req.term >= n.currentTerm ==> Holds(h, n.log, req.term, n.commitIndex)
    ensures CommitHeld(h, n, req)
  {
    if TakesCommit(n, req) {
      hide GoodLog, AppendOk, PrevMatches, Merge;
      HoldsLess(h, n.log, req.term, n.commitIndex, TakenCommit(n, req));
      AppendKeepsGood(h, n.log, req);
    }
  }

  lemma JustifiedIsHeld(c: Cluster, h: History, s: Step)
    requires WellFormed(c) && Enabled(c, s) && AckInv(c, h) && HeldInv(c, h) && CommitJustified(c, s)
    requires ActorLogKnows(h, c.nodes[Actor(s)], s) && s.Deliver? && s.packet.AppReq?
    requires var (n, req) := (c.nodes[Actor(s)], s.packet.areq);
      req.term >= n.currentTerm ==> Holds(h, n.log, req.term, n.commitIndex)
    ensures CommitHeld(h, c.nodes[Actor(s)], s.packet.areq)
  {
    var n := c.nodes[Actor(s)];
    hide AckInv, HeldInv, CommitHeld, AppendOk, LeaderLogOk, NodeLogOk, CommitCovered, TakenCommit, Reach, Holds;
    if CommitCovered(n, s) {
      CoveredIsHeld(h, n, s);
    } else if TakenCommit(n, s.packet.areq) <= n.commitIndex {
      OldIsHeld(h, n, s.packet.areq);
    } else {
      var p :| p in c.net && Accepted(p, n.id, s.packet.areq.term) && TakenCommit(n, s.packet.areq) <= Reach(p.areq);
      EarlierIsHeld(c, h, s, p);
    }
  }

  // ---- every step ----

  lemma ActorSafe(c: Cluster, h: History, s: Step, h': History)
    requires WellFormed(c) && Enabled(c, s) && ActorReady(c, s)
    requires h' == Record(h, c.nodes[Actor(s)], s) && LogsGrow(h, h') && h.commits <= h'.commits
    requires Inv(c, h) && CommitInv(c, h) && SafeInv(c, h)
    requires ActorLogKnows(h, c.nodes[Actor(s)], s) && HeldInv(c, h) && CommitJustified(c, s)
    ensures NodeSafe(h', Act(c.nodes[Actor(s)], s))
  {
    hide VoteInv, LogInv, AckInv, NodeSafe, RequestSafe, NodeLogOk, LeaderLogOk, CommitJustified, CommitHeld, Holds,
      Record, Act, HeldInv;
    var n := c.nodes[Actor(s)];
    if s.Deliver? && s.packet.AppReq? {
      var req := s.packet.areq;
      if req.term >= n.currentTerm {
        SafeHolds(c, h, n, req.term);
      }
      JustifiedIsHeld(c, h, s);
      ReceiverSafe(h, n, s);
      StillSafe(h, h', Act(n, s), Act(n, s));
    } else if s.Deliver? && s.packet.AppRep? {
      CommitterSafe(h, n, s);
    } else {
      OtherActs(n, s);
      StillSafe(h, h', n, Act(n, s));
    }
  }

  lemma SafeHolds(c: Cluster, h: History, n: NodeState, t: nat)
    requires c.nodes.Keys == c.members && ChoiceInv(c, h) && (forall k :: k in h.commits ==> CommitOk(c, h, k))
    requires NodeSafe(h, n) && t in h.leaderLog && n.currentTerm <= t
    ensures Holds(h, n.log, t, n.commitIndex)
  {
    CommittedMatchesLeader(c, h, n.log, n.commitIndex, n.currentTerm, t);
  }

  /** A built request carries its sender's commit index. */
  lemma BuiltRequestSafe(h: History, n: NodeState, peer: NodeId, heartbeat: bool)
    requires NodeSafe(h, n) && NodeLogOk(h, n) && n.role == Leader && Lookup(n.nextIndex, peer) >= 1
    ensures RequestSafe(h, BuildAppend(n, peer, heartbeat))
  {
  }

  lemma EmittedRequestSafe(h: History, n: NodeState, s: Step, p: Packet, h': History)
    requires NodeOk(n) && NodeSafe(h, n) && NodeLogOk(h, n) && LogsGrow(h, h') && h.commits <= h'.commits
    requires s.SendAppend? ==> s.peer in n.peers && s.peer != n.id && n.role == Leader
    requires p in Emit(n, s) && p.AppReq?
    ensures RequestSafe(h', p.areq)
  {
    BuiltRequestSafe(h, n, s.peer, s.heartbeat);
    RequestStillSafe(h, h', p.areq);
  }

  lemma SafeInvIs(c: Cluster, h: History)
    requires forall m :: m in c.nodes ==> NodeSafe(h, c.nodes[m])
    requires forall p :: p in c.net && p.AppReq? ==> RequestSafe(h, p.areq)
    ensures SafeInv(c, h)
  {
  }

  lemma NodesStaySafe(c: Cluster, h: History, s: Step, c': Cluster, h': History)
    requires WellFormed(c) && Enabled(c, s) && ActorReady(c, s)
    requires c' == Next(c, s) && h' == Record(h, c.nodes[Actor(s)], s)
    requires Inv(c, h) && CommitInv(c, h) && SafeInv(c, h) && Steps(c, h, s, c', h')
    requires HeldInv(c, h) && CommitJustified(c, s)
    ensures forall m :: m in c'.nodes ==> NodeSafe(h', c'.nodes[m])
  {
    hide VoteInv, LogInv, AckInv, ChoiceInv, CommitInv, NodeSafe, RequestSafe, CommitJustified, HeldInv, ActorLogKnows,
      Record, Act, LogsGrow, Emit;
    InvGivesActorLog(c, h, s);
    forall m | m in c'.nodes ensures NodeSafe(h', c'.nodes[m]) {
      if m == Actor(s) {
        ActorSafe(c, h, s, h');
      } else {
        StillSafe(h, h', c.nodes[m], c.nodes[m]);
      }
    }
  }

  lemma RequestsStaySafe(c: Cluster, h: History, s: Step, c': Cluster, h': History)
    requires WellFormed(c) && Enabled(c, s) && ActorReady(c, s)
    requires c' == Next(c, s) && h' == Record(h, c.nodes[Actor(s)], s)
    requires Inv(c, h) && SafeInv(c, h) && Steps(c, h, s, c', h')
    ensures forall p :: p in c'.net && p.AppReq? ==> RequestSafe(h', p.areq)
  {
    hide VoteInv, LogInv, AckInv, ChoiceInv, NodeSafe, RequestSafe, ActorLogKnows, Record, Act, LogsGrow, Emit;
    InvGivesActorLog(c, h, s);
    forall p | p in c'.net && p.AppReq? ensures RequestSafe(h', p.areq) {
      if p in c.net {
        RequestStillSafe(h, h', p.areq);
      } else {
        EmittedRequestSafe(h, c.nodes[Actor(s)], s, p, h');
      }
    }
  }

  lemma SafeInvKept(c: Cluster, h: History, s: Step, c': Cluster, h': History)
    requires WellFormed(c) && Enabled(c, s) && ActorReady(c, s)
    requires c' == Next(c, s) && h' == Record(h, c.nodes[Actor(s)], s)
    requires Inv(c, h) && CommitInv(c, h) && SafeInv(c, h) && Steps(c, h, s, c', h')
    requires HeldInv(c, h) && CommitJustified(c, s)
    ensures SafeInv(c', h')
  {
    hide Inv, CommitInv, SafeInv, Steps, HeldInv, CommitJustified, Record, Next, Enabled;
    NodesStaySafe(c, h, s, c', h');
    RequestsStaySafe(c, h, s, c', h');
    SafeInvIs(c', h');
  }

  /** Two committed prefixes never disagree. */
  lemma CommittedAgree(c: Cluster, h: History, a: NodeState, b: NodeState)
    requires c.nodes.Keys == c.members && ChoiceInv(c, h) && (forall k :: k in h.commits ==> CommitOk(c, h, k))
    requires NodeSafe(h, a) && NodeSafe(h, b)
    ensures a.applied <= b.applied || b.applied <= a.applied
  {
    if a.commitIndex > 0 && b.commitIndex > 0 {
      var j :| j in h.commits && j.term <= a.currentTerm && a.commitIndex <= j.index
               && Holds(h, a.log, j.term, a.commitIndex);
      var k :| k in h.commits && k.term <= b.currentTerm && b.commitIndex <= k.index
               && Holds(h, b.log, k.term, b.commitIndex);
      if j.term <= k.term {
        HoldsAtLater(c, h, a.log, j, a.commitIndex, k.term);
      } else {
        HoldsAtLater(c, h, b.log, k, b.commitIndex, j.term);
      }
    }
  }

  lemma HoldsAtLater(c: Cluster, h: History, log: Log, k: Commit, ci: nat, t: nat)
    requires c.nodes.Keys == c.members && ChoiceInv(c, h) && k in h.commits && CommitOk(c, h, k)
    requires Holds(h, log, k.term, ci) && ci <= k.index && t in h.leaderLog && k.term <= t
    ensures Holds(h, log, t, ci)
  {
    LeaderHoldsCommit(c, h, k, t);
    HoldsLess(h, h.leaderLog[t], k.term, k.index, ci);
  }
}
