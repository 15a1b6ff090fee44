/**
 Logs: every slot of every log agrees with the log of the leader that created it, so two
 logs that share a term at a slot are identical up to it; every step keeps this.
 */
module RaftLog {
  import opened RaftTypes
  import opened RaftHandlers
  import opened RaftCluster
  import opened RaftHistory
  import opened RaftElection

  // ---- good logs ----

  /** Log Matching: the same term at a slot means the same log up to it. */
  lemma SameTermSamePrefix(leaderLog: map<nat, Log>, a: Log, b: Log, k: nat)
    requires GoodLog(leaderLog, a) && GoodLog(leaderLog, b)
    requires k < |a| && k < |b| && a[k].term == b[k].term
    ensures a[..k + 1] == b[..k + 1]
  {
    assert SlotAgrees(leaderLog, a, k) && SlotAgrees(leaderLog, b, k);
  }

  ghost predicate Matching(a: Log, b: Log) {
    forall k :: 0 <= k < |a| && k < |b| && a[k].term == b[k].term ==> a[..k + 1] == b[..k + 1]
  }

  lemma GoodLogsMatch(leaderLog: map<nat, Log>, a: Log, b: Log)
    requires GoodLog(leaderLog, a) && GoodLog(leaderLog, b)
    ensures Matching(a, b)
  {
    forall k | 0 <= k < |a| && k < |b| && a[k].term == b[k].term ensures a[..k + 1] == b[..k + 1] {
      SameTermSamePrefix(leaderLog, a, b, k);
    }
  }

  lemma PrefixGood(leaderLog: map<nat, Log>, log: Log, j: nat)
    requires GoodLog(leaderLog, log) && 1 <= j <= |log|
    ensures GoodLog(leaderLog, log[..j])
    ensures LastTerm(log[..j]) <= LastTerm(log)
  {
    var p := log[..j];
    forall k | 0 <= k < |p| ensures SlotAgrees(leaderLog, p, k) {
      assert SlotAgrees(leaderLog, log, k);
      assert p[..k + 1] == log[..k + 1];
    }
  }

  ghost predicate LogsGrow(h: History, h': History) {
    forall t :: t in h.leaderLog ==> t in h'.leaderLog && h.leaderLog[t] <= h'.leaderLog[t]
  }

  lemma GoodLogGrows(h: History, h': History, log: Log)
    requires GoodLog(h.leaderLog, log) && LogsGrow(h, h')
    ensures GoodLog(h'.leaderLog, log)
  {
    forall k | 0 <= k < |log| ensures SlotAgrees(h'.leaderLog, log, k) {
      assert SlotAgrees(h.leaderLog, log, k);
    }
  }

  // ---- merging ----

  /** Whatever the tail of `log`, merging leader entries after a matching prefix yields
      either the unchanged log, which then already held them, or the leader's prefix; and
      no slot on which the two agreed is lost. */
  lemma {:induction false} MergeWithLeader(log: Log, leader: Log, prev: nat, entries: seq<Entry>)
    requires Matching(log, leader)
    requires prev <= |log| && prev + |entries| <= |leader| && log[..prev] == leader[..prev]
    requires entries == leader[prev..prev + |entries|]
    ensures var r := Merge(log, prev, entries);
      && |r| >= prev + |entries| && r[..prev + |entries|] == leader[..prev + |entries|]
      && (r == log || r == leader[..prev + |entries|])
      && (prev + |entries| <= |log| && log[..prev + |entries|] == leader[..prev + |entries|] ==> r == log)
      && (forall j :: 0 <= j <= |log| && j <= |leader| && log[..j] == leader[..j] ==>
            |r| >= j && r[..j] == leader[..j])
    decreases |entries|
  {
    if entries == [] {
    } else if prev < |log| && log[prev].term == entries[0].term {
      assert entries[0] == leader[prev];
      assert log[..prev + 1] == leader[..prev + 1];
      MergeWithLeader(log, leader, prev + 1, entries[1..]);
    } else {
      var r := log[..prev] + entries;
      assert r == leader[..prev + |entries|];
      forall j | 0 <= j <= |log| && j <= |leader| && log[..j] == leader[..j]
        ensures |r| >= j && r[..j] == leader[..j]
      {
        assert j <= prev;
      }
    }
  }

  /** A request that passes the consistency check matches the receiver's log so far. */
  lemma CheckedPrefix(h: History, log: Log, req: AppendRequest)
    requires GoodLog(h.leaderLog, log) && AppendOk(h, req) && PrevMatches(log, req)
    requires GoodLog(h.leaderLog, h.leaderLog[req.term])
    ensures var leader := h.leaderLog[req.term];
      && req.prevLogIndex <= |log| && req.prevLogIndex + |req.entries| <= |leader|
      && log[..req.prevLogIndex] == leader[..req.prevLogIndex]
      && req.entries == leader[req.prevLogIndex..req.prevLogIndex + |req.entries|]
  {
    var leader := h.leaderLog[req.term];
    var prev := req.prevLogIndex;
    if prev > 0 {
      assert log[prev - 1].term == req.prevLogTerm;
      SameTermSamePrefix(h.leaderLog, log, leader, prev - 1);
    }
  }

  /** The log after a successful append: still good, and it holds the leader's first
      prev + |entries| slots. */
  lemma AppendKeepsGood(h: History, log: Log, req: AppendRequest)
    requires GoodLog(h.leaderLog, log) && AppendOk(h, req) && PrevMatches(log, req)
    requires LeaderLogOk(h, req.term)
    ensures req.prevLogIndex <= |log|
    ensures var r := Merge(log, req.prevLogIndex, req.entries);
      var known := req.prevLogIndex + |req.entries|;
      && |r| > 0 && GoodLog(h.leaderLog, r) && (LastTerm(r) <= LastTerm(log) || LastTerm(r) <= req.term)
      && Holds(h, r, req.term, known)
      && (forall j :: 0 <= j <= |log| && Holds(h, log, req.term, j) ==> Holds(h, r, req.term, j))
      && (r == log || r == h.leaderLog[req.term][..known])
      && (Holds(h, log, req.term, known) ==> r == log)
  {
    hide GoodLog, Merge, PrevMatches;
    CheckedPrefix(h, log, req);
    var leader := h.leaderLog[req.term];
    GoodLogsMatch(h.leaderLog, log, leader);
    hide Matching;
    MergeWithLeader(log, leader, req.prevLogIndex, req.entries);
    MergedGood(h.leaderLog, log, leader, req.prevLogIndex, req.entries);
  }

  lemma MergedGood(leaderLog: map<nat, Log>, log: Log, leader: Log, prev: nat, entries: seq<Entry>)
    requires GoodLog(leaderLog, log) && GoodLog(leaderLog, leader)
    requires prev <= |log| && prev + |entries| <= |leader| && log[..prev] == leader[..prev]
    requires entries == leader[prev..prev + |entries|]
    ensures var r := Merge(log, prev, entries);
      |r| > 0 && GoodLog(leaderLog, r) && (LastTerm(r) <= LastTerm(log) || LastTerm(r) <= LastTerm(leader))
  {
    assert |log| > 0;
    GoodLogsMatch(leaderLog, log, leader);
    MergeWithLeader(log, leader, prev, entries);
    hide GoodLog, Merge, Matching;
    if prev + |entries| > 0 {
      PrefixGood(leaderLog, leader, prev + |entries|);
    }
  }

  // ---- the history's logs only grow ----

  /** A winner's log becomes its term's leader log; nobody else's changes. */
  lemma NewLeaderLogOk(h: History, n: NodeState, s: Step)
    requires ActorKnows(h, n, s) && NodeLogOk(h, n) && LogsGrow(h, Record(h, n, s)) && Wins(n, s)
    ensures LeaderLogOk(Record(h, n, s), n.currentTerm)
  {
    GoodLogGrows(h, Record(h, n, s), n.log);
  }

  /** Leader Append-Only: the entry a leader proposes goes behind its whole log. */
  lemma ExtendedLogOk(h: History, n: NodeState, s: Step)
    requires ActorKnows(h, n, s) && NodeLogOk(h, n) && LogsGrow(h, Record(h, n, s)) && Extends(n, s)
    requires n.currentTerm >= 1
    ensures LeaderLogOk(Record(h, n, s), n.currentTerm)
    ensures Record(h, n, s).leaderLog[n.currentTerm] == Act(n, s).log
  {
    var h' := Record(h, n, s);
    GoodLogGrows(h, h', n.log);
    ProposedGood(h'.leaderLog, n.log, h'.leaderLog[n.currentTerm], n.currentTerm);
  }

  lemma ProposedGood(leaderLog: map<nat, Log>, log: Log, log': Log, t: nat)
    requires GoodLog(leaderLog, log) && LastTerm(log) <= t && t >= 1 && t in leaderLog && leaderLog[t] == log'
    requires |log'| == |log| + 1 && log'[..|log|] == log
    requires log'[|log|].term == t && log'[|log|].index == |log|
    ensures GoodLog(leaderLog, log')
  {
    assert forall k :: 0 <= k < |log| ==> log'[k] == log'[..|log|][k] == log[k];
    assert LogShape(log');
    forall k | 0 <= k < |log'| ensures SlotAgrees(leaderLog, log', k) {
      if k < |log| {
        assert SlotAgrees(leaderLog, log, k);
        assert log'[..k + 1] == log'[..|log|][..k + 1] == log[..k + 1];
      }
    }
  }

  // ---- the node that takes the step ----

  /** A leader gets no append request of its own term. */
  lemma LeaderHearsNoRival(c: Cluster, h: History, s: Step)
    requires VoteInv(c, h) && Enabled(c, s) && s.Deliver? && s.packet.AppReq?
    requires c.nodes[Actor(s)].role == Leader
    ensures s.packet.areq.term != c.nodes[Actor(s)].currentTerm
  {
    assert PacketOk(c, h, s.packet);
    assert NodeVotesOk(h, c.nodes[Actor(s)]);
  }

  lemma ReceiverLogOk(h: History, n: NodeState, req: AppendRequest)
    requires NodeOk(n) && NodeLogOk(h, n) && AppendOk(h, req) && LeaderLogOk(h, req.term)
    requires n.role == Leader ==> req.term != n.currentTerm
    ensures NodeLogOk(h, HandleAppend(n, req).0)
  {
    hide GoodLog, Merge, AppendOk, Holds, PrevMatches;
    if req.term >= n.currentTerm && PrevMatches(n.log, req) {
      AppendKeepsGood(h, n.log, req);
    }
  }

  /** What the log invariant says about the node that is about to take a step. */
  ghost predicate ActorLogKnows(h: History, n: NodeState, s: Step) {
    && ActorKnows(h, n, s) && NodeLogOk(h, n)
    && (n.role != Follower ==> n.currentTerm >= 1)
    && h.leaderLog.Keys == h.leaderOf.Keys + {0}
    && (s.Deliver? && s.packet.AppReq? ==>
          && AppendOk(h, s.packet.areq) && LeaderLogOk(h, s.packet.areq.term)
          && (n.role == Leader ==> s.packet.areq.term != n.currentTerm))
  }

  lemma InvGivesActorLog(c: Cluster, h: History, s: Step)
    requires VoteInv(c, h) && LogInv(c, h) && Enabled(c, s)
    ensures ActorLogKnows(h, c.nodes[Actor(s)], s)
  {
    var n := c.nodes[Actor(s)];
    InvGivesActor(c, h, s);
    assert NodeLogOk(h, n) && NodeVotesOk(h, n);
    if n.role == Leader {
      assert ElectedOk(c, h, n.currentTerm);
      if s.Deliver? && s.packet.AppReq? {
        LeaderHearsNoRival(c, h, s);
      }
    }
  }

  lemma LeaderLogsGrow(h: History, n: NodeState, s: Step)
    requires ActorLogKnows(h, n, s)
    ensures var h' := Record(h, n, s);
      && LogsGrow(h, h')
      && h'.leaderLog.Keys == h'.leaderOf.Keys + {0}
      && (0 in h.leaderLog ==> h'.leaderLog[0] == h.leaderLog[0])
  {
  }

  lemma QuietLogOk(h: History, n: NodeState, s: Step, h': History, n': NodeState)
    requires NodeLogOk(h, n) && Evolves(n, s, n') && n'.log == n.log && LogsGrow(h, h')
    requires n'.role == Leader ==> n.currentTerm in h'.leaderLog && h'.leaderLog[n.currentTerm] == n.log
    ensures NodeLogOk(h', n')
  {
    GoodLogGrows(h, h', n.log);
  }

  lemma ActorLogOk(h: History, n: NodeState, s: Step)
    requires ActorLogKnows(h, n, s) && LogsGrow(h, Record(h, n, s))
    ensures NodeLogOk(Record(h, n, s), Act(n, s))
  {
    ActEvolves(n, s);
    if Extends(n, s) {
      ExtendedLogOk(h, n, s);
    } else if s.Deliver? && s.packet.AppReq? {
      ReceiverLogOk(h, n, s.packet.areq);
    } else {
      QuietLogOk(h, n, s, Record(h, n, s), Act(n, s));
    }
  }

  lemma OtherLogOk(h: History, n: NodeState, s: Step, m: NodeState)
    requires ActorLogKnows(h, n, s) && LogsGrow(h, Record(h, n, s))
    requires m.id != n.id && NodeLogOk(h, m) && NodeVotesOk(h, m)
    ensures NodeLogOk(Record(h, n, s), m)
  {
    GoodLogGrows(h, Record(h, n, s), m.log);
  }

  // ---- packets ----

  lemma AppendOkGrows(h: History, h': History, req: AppendRequest)
    requires AppendOk(h, req) && LogsGrow(h, h')
    ensures AppendOk(h', req)
  {
    var leader, leader' := h.leaderLog[req.term], h'.leaderLog[req.term];
    assert leader == leader'[..|leader|];
  }

  /** A built request quotes its sender's log, even when nextIndex ran past the end. */
  lemma BuiltAppendOk(h: History, n: NodeState, peer: NodeId, heartbeat: bool)
    requires NodeLogOk(h, n) && n.role == Leader && Lookup(n.nextIndex, peer) >= 1
    ensures AppendOk(h, BuildAppend(n, peer, heartbeat))
  {
  }

  lemma LeaderLogKept(h: History, n: NodeState, s: Step, t: nat)
    requires ActorLogKnows(h, n, s) && LogsGrow(h, Record(h, n, s))
    requires t in h.leaderLog ==> LeaderLogOk(h, t)
    requires t in Record(h, n, s).leaderLog
    ensures LeaderLogOk(Record(h, n, s), t)
  {
    if t == n.currentTerm && Wins(n, s) {
      NewLeaderLogOk(h, n, s);
    } else if t == n.currentTerm && Extends(n, s) {
      ExtendedLogOk(h, n, s);
    } else {
      GoodLogGrows(h, Record(h, n, s), h.leaderLog[t]);
    }
  }

  lemma BallotLogKept(h: History, n: NodeState, s: Step, k: (NodeId, nat))
    requires ActorLogKnows(h, n, s) && LogsGrow(h, Record(h, n, s))
    requires k in h.ballots ==> GoodLog(h.leaderLog, h.ballots[k].log)
    requires k in Record(h, n, s).ballots
    ensures GoodLog(Record(h, n, s).leaderLog, Record(h, n, s).ballots[k].log)
  {
    if k in h.ballots {
      RecordGrows(h, n, s);
      GoodLogGrows(h, Record(h, n, s), h.ballots[k].log);
    } else {
      CastVote(h, n, s, k.0, k.1);
      GoodLogGrows(h, Record(h, n, s), n.log);
    }
  }

  lemma EmittedAppendOk(h: History, n: NodeState, s: Step, p: Packet)
    requires ActorLogKnows(h, n, s) && LogsGrow(h, Record(h, n, s))
    requires s.SendAppend? ==> s.peer in n.peers && s.peer != n.id && n.role == Leader
    requires p in Emit(n, s) && (p.AppReq? || p.AppRep?)
    ensures AppendOk(Record(h, n, s), p.areq)
  {
    if s.SendAppend? {
      BuiltAppendOk(h, n, s.peer, s.heartbeat);
    }
    AppendOkGrows(h, Record(h, n, s), p.areq);
  }

  lemma LogInvKept(c: Cluster, h: History, s: Step)
    requires VoteInv(c, h) && LogInv(c, h) && Enabled(c, s)
    ensures LogInv(Next(c, s), Record(h, c.nodes[Actor(s)], s))
    ensures LogsGrow(h, Record(h, c.nodes[Actor(s)], s))
  {
    hide NodeLogOk, LeaderLogOk, AppendOk, GoodLog, NodeVotesOk, PacketOk, BallotOk, ElectedOk;
    var n := c.nodes[Actor(s)];
    InvGivesActorLog(c, h, s);
    LeaderLogsGrow(h, n, s);
    LogHistoryKept(h, n, s);
    LogNodesKept(c, h, s);
    LogPacketsKept(c, h, s);
  }

  lemma LogHistoryKept(h: History, n: NodeState, s: Step)
    requires ActorLogKnows(h, n, s) && LogsGrow(h, Record(h, n, s))
    requires forall t :: t in h.leaderLog ==> LeaderLogOk(h, t)
    requires forall k :: k in h.ballots ==> GoodLog(h.leaderLog, h.ballots[k].log)
    ensures var h' := Record(h, n, s);
      && (forall t :: t in h'.leaderLog ==> LeaderLogOk(h', t))
      && (forall k :: k in h'.ballots ==> GoodLog(h'.leaderLog, h'.ballots[k].log))
  {
    var h' := Record(h, n, s);
    forall t | t in h'.leaderLog ensures LeaderLogOk(h', t) {
      LeaderLogKept(h, n, s, t);
    }
    forall k | k in h'.ballots ensures GoodLog(h'.leaderLog, h'.ballots[k].log) {
      BallotLogKept(h, n, s, k);
    }
  }

  lemma LogNodesKept(c: Cluster, h: History, s: Step)
    requires WellFormed(c) && Enabled(c, s) && ActorLogKnows(h, c.nodes[Actor(s)], s)
    requires forall m :: m in c.nodes ==> NodeVotesOk(h, c.nodes[m]) && NodeLogOk(h, c.nodes[m])
    requires LogsGrow(h, Record(h, c.nodes[Actor(s)], s))
    ensures forall m :: m in Next(c, s).nodes ==> NodeLogOk(Record(h, c.nodes[Actor(s)], s), Next(c, s).nodes[m])
  {
    hide Record, Act, Emit, NodeLogOk, NodeVotesOk, LogsGrow;
    var n := c.nodes[Actor(s)];
    var c', h' := Next(c, s), Record(h, n, s);
    forall m | m in c'.nodes ensures NodeLogOk(h', c'.nodes[m]) {
      if m == n.id {
        ActorLogOk(h, n, s);
      } else {
        OtherLogOk(h, n, s, c.nodes[m]);
      }
    }
  }

  lemma LogPacketsKept(c: Cluster, h: History, s: Step)
    requires WellFormed(c) && Enabled(c, s) && ActorLogKnows(h, c.nodes[Actor(s)], s)
    requires forall p :: p in c.net && (p.AppReq? || p.AppRep?) ==> AppendOk(h, p.areq)
    requires LogsGrow(h, Record(h, c.nodes[Actor(s)], s))
    ensures forall p :: p in Next(c, s).net && (p.AppReq? || p.AppRep?) ==>
      AppendOk(Record(h, c.nodes[Actor(s)], s), p.areq)
  {
    var n := c.nodes[Actor(s)];
    var c', h' := Next(c, s), Record(h, n, s);
    forall p | p in c'.net && (p.AppReq? || p.AppRep?) ensures AppendOk(h', p.areq) {
      if p in c.net {
        AppendOkGrows(h, h', p.areq);
      } else {
        EmittedAppendOk(h, n, s, p);
      }
    }
  }
}
