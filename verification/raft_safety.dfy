/**
 What the commit index means. The source counts every success reply as one more matched
 slot, and a follower commits up to its own last index, so committed slots are safe only in
 runs where
   - the slot a leader counts is proven by a request that the peer accepted in its term, and
   - a follower moves its commit index up only within what a request of the leader's term
     that it accepted reached, or its log ends in an entry of that term.
 Both can be checked at the call; RaftExactness shows that no less will do.
 */
module RaftSafety {
  import opened Common
  import opened RaftTypes
  import opened RaftHandlers
  import opened RaftCluster
  import opened RaftHistory
  import opened RaftElection
  import opened RaftLog
  import opened RaftCommit

  /** A success reply that the leader counts answers a request that proves the counted
      slots. */
  ghost predicate AckCovers(n: NodeState, s: Step) {
    s.Deliver? && s.packet.AppRep? && Counted(n, s.packet.arep) ==>
      Lookup(n.nextIndex, s.packet.src) <= Proven(n.log, s.packet.areq)
  }

  /** `node` accepted a request of term t, and answered with p. */
  ghost predicate Accepted(p: Packet, node: NodeId, t: nat) {
    p.AppRep? && p.src == node && p.areq.term == t && p.arep.success
  }

  /** The request behind the counted reply, or an earlier one of this term that the peer
      accepted, proves the counted slots. */
  ghost predicate AckJustified(c: Cluster, s: Step)
    requires Actor(s) in c.nodes
  {
    var n := c.nodes[Actor(s)];
    AckCovers(n, s)
    || (s.Deliver? && s.packet.AppRep?
        && exists p :: p in c.net && Accepted(p, s.packet.src, n.currentTerm)
                       && Lookup(n.nextIndex, s.packet.src) <= Proven(n.log, p.areq))
  }

  /** The node takes a new commit index from the request. */
  predicate TakesCommit(n: NodeState, req: AppendRequest) {
    req.term >= n.currentTerm && PrevMatches(n.log, req) && req.leaderCommit > n.commitIndex
  }

  /** ... namely this one. */
  function TakenCommit(n: NodeState, req: AppendRequest): nat
    requires req.prevLogIndex <= |n.log|
  {
    Min(req.leaderCommit, |Merge(n.log, req.prevLogIndex, req.entries)| - 1)
  }

  /** It stays within the slots the request quotes, or the log then ends in an entry of the
      leader's term. */
  predicate CommitWithin(n: NodeState, req: AppendRequest)
    requires req.prevLogIndex <= |n.log|
  {
    var r: seq<Entry> := Merge(n.log, req.prevLogIndex, req.entries);
    TakenCommit(n, req) <= Reach(req) || r[|r| - 1].term == req.term
  }

  /** A follower moves its commit index only within these bounds. */
  predicate CommitCovered(n: NodeState, s: Step) {
    s.Deliver? && s.packet.AppReq? && TakesCommit(n, s.packet.areq) ==> CommitWithin(n, s.packet.areq)
  }

  /** ... or within those of an earlier request of this term that it accepted, or not at all:
      the index it takes is not above its own. */
  ghost predicate CommitJustified(c: Cluster, s: Step)
    requires Actor(s) in c.nodes
  {
    var n := c.nodes[Actor(s)];
    CommitCovered(n, s)
    || (s.Deliver? && s.packet.AppReq? && s.packet.areq.prevLogIndex <= |n.log|
        && (TakenCommit(n, s.packet.areq) <= n.commitIndex
            || exists p :: p in c.net && Accepted(p, n.id, s.packet.areq.term)
                           && TakenCommit(n, s.packet.areq) <= Reach(p.areq)))
  }

  // ---- match indices are backed by acknowledgements ----

  ghost predicate Backed(h: History, n: NodeState) {
    n.role == Leader ==>
      && Acked(h, n.id, n.currentTerm, |n.log|)
      && forall p :: p in n.peers && p != n.id && Lookup(n.matchIndex, p) > 1 ==>
           Acked(h, p, n.currentTerm, Lookup(n.matchIndex, p))
  }

  ghost function Ackers(c: Cluster, h: History, t: nat, j: nat): set<NodeId> {
    set q | q in c.members && Acked(h, q, t, j)
  }

  /** A commit is of a slot of the committing leader's own term, held by a majority. */
  ghost predicate CommitOk(c: Cluster, h: History, k: Commit) {
    && k.term in h.leaderOf && k.term in h.leaderLog
    && 1 <= k.index <= |h.leaderLog[k.term]| && h.leaderLog[k.term][k.index - 1].term == k.term
    && Majority(c, Ackers(c, h, k.term, k.index))
  }

  ghost predicate CommitInv(c: Cluster, h: History) {
    && (forall n :: n in c.nodes ==> Backed(h, c.nodes[n]))
    && (forall k :: k in h.commits ==> CommitOk(c, h, k))
  }

  /** `q` acknowledged the first i slots of term t's leader, or i is only the sentinel. */
  ghost predicate Matches(h: History, q: NodeId, t: nat, i: nat) {
    i > 1 ==> Acked(h, q, t, i)
  }

  /** The reply the leader counts was sent in its own term, so its acknowledgement counts
      for this term's log. */
  lemma CountedAck(c: Cluster, h: History, s: Step)
    requires VoteInv(c, h) && AckInv(c, h) && Enabled(c, s) && s.Deliver? && s.packet.AppRep?
    requires NodeLogOk(h, c.nodes[Actor(s)])
    requires Counted(c.nodes[Actor(s)], s.packet.arep) && AckJustified(c, s)
    ensures Matches(h, s.packet.src, c.nodes[Actor(s)].currentTerm, Lookup(c.nodes[Actor(s)].nextIndex, s.packet.src))
  {
    var n, peer := c.nodes[Actor(s)], s.packet.src;
    CountedTerm(c, h, s);
    hide VoteInv, Proven;
    var p := s.packet;
    if !AckCovers(n, s) {
      p :| p in c.net && Accepted(p, peer, n.currentTerm) && Lookup(n.nextIndex, peer) <= Proven(n.log, p.areq);
    }
    assert AckOfRequest(h.leaderLog, peer, p.areq) in h.acks;
  }

  /** The counted reply answers a request of the leader's current term. */
  lemma CountedTerm(c: Cluster, h: History, s: Step)
    requires VoteInv(c, h) && AckInv(c, h) && Enabled(c, s) && s.Deliver? && s.packet.AppRep?
    requires Counted(c.nodes[Actor(s)], s.packet.arep)
    ensures s.packet.areq.term == c.nodes[Actor(s)].currentTerm
  {
    assert PacketOk(c, h, s.packet);
    assert ElectedOk(c, h, s.packet.areq.term);
  }

  lemma AckedGrows(h: History, h': History, q: NodeId, t: nat, i: nat, j: nat)
    requires Acked(h, q, t, i) && h.acks <= h'.acks && j <= i
    ensures Acked(h', q, t, j)
  {
    var a :| a in h.acks && a.node == q && a.term == t && a.index >= i;
    assert a in h'.acks;
  }

  lemma BackedGrows(h: History, h': History, n: NodeState)
    requires Backed(h, n) && h.acks <= h'.acks
    ensures Backed(h', n)
  {
    if n.role == Leader {
      AckedGrows(h, h', n.id, n.currentTerm, |n.log|, |n.log|);
      forall p | p in n.peers && p != n.id && Lookup(n.matchIndex, p) > 1
        ensures Acked(h', p, n.currentTerm, Lookup(n.matchIndex, p))
      {
        AckedGrows(h, h', p, n.currentTerm, Lookup(n.matchIndex, p), Lookup(n.matchIndex, p));
      }
    }
  }

  /** The leader just before tryCommitLogs runs: the reply is counted. */
  function Counting(n: NodeState, peer: NodeId): NodeState {
    var next := Lookup(n.nextIndex, peer);
    n.(nextIndex := n.nextIndex[peer := next + 1], matchIndex := n.matchIndex[peer := next])
  }

  lemma CountingBacked(h: History, n: NodeState, peer: NodeId)
    requires Backed(h, n) && n.role == Leader && Matches(h, peer, n.currentTerm, Lookup(n.nextIndex, peer))
    ensures Backed(h, Counting(n, peer))
  {
  }

  /** The majority that lets a leader commit has acknowledged the slot. */
  lemma CommittableIsHeld(c: Cluster, h: History, n: NodeState, i: nat)
    requires n.role == Leader && Backed(h, n) && n.peers == c.members && n.id in c.members
    requires Committable(n, i) && i > 1
    ensures Majority(c, Ackers(c, h, n.currentTerm, i))
  {
    var matched := MatchedPeers(n, i);
    forall p | p in matched + {n.id} ensures p in Ackers(c, h, n.currentTerm, i) {
      if p == n.id {
        AckedGrows(h, h, p, n.currentTerm, |n.log|, i);
      } else {
        AckedGrows(h, h, p, n.currentTerm, Lookup(n.matchIndex, p), i);
      }
    }
    SubsetSize(matched + {n.id}, Ackers(c, h, n.currentTerm, i));
  }

  lemma NewCommit(h: History, n: NodeState, s: Step)
    requires NodeOk(n) && s.Deliver? && s.packet.AppRep? && Act(n, s).commitIndex > n.commitIndex
    ensures Counted(n, s.packet.arep) && Committable(Counting(n, s.packet.src), Act(n, s).commitIndex)
    ensures Act(n, s).commitIndex <= LastIndex(n.log)
  {
  }

  lemma WinnerBacked(h: History, n: NodeState, s: Step)
    requires NodeOk(n) && Wins(n, s)
    ensures Backed(Record(h, n, s), Act(n, s))
  {
    assert Ack(n.id, n.currentTerm, |n.log|) in Record(h, n, s).acks;
  }

  lemma ProposerBacked(h: History, n: NodeState, s: Step)
    requires NodeOk(n) && Extends(n, s) && Backed(h, n)
    ensures Backed(Record(h, n, s), Act(n, s))
  {
    BackedGrows(h, Record(h, n, s), n);
    assert Ack(n.id, n.currentTerm, |n.log| + 1) in Record(h, n, s).acks;
  }

  lemma ReplyBacked(h: History, n: NodeState, s: Step)
    requires NodeOk(n) && s.Deliver? && s.packet.AppRep? && Backed(h, n)
    requires Counted(n, s.packet.arep) ==>
      Matches(h, s.packet.src, n.currentTerm, Lookup(n.nextIndex, s.packet.src))
    ensures Backed(h, Act(n, s))
  {
    if Counted(n, s.packet.arep) {
      CountingBacked(h, n, s.packet.src);
    }
  }

  /** A step in which a sitting leader neither proposes nor counts leaves
      its log and indices as they were. */
  lemma IdleLeader(n: NodeState, s: Step)
    requires NodeOk(n) && Act(n, s).role == Leader
    requires !Wins(n, s) && !Extends(n, s) && !(s.Deliver? && s.packet.AppRep?)
    requires n.role == Leader && s.Deliver? && s.packet.AppReq? ==> s.packet.areq.term != n.currentTerm
    ensures Act(n, s) == n.(votedFor := Act(n, s).votedFor)
  {
    match s
    case Deliver(VoteReq(_, _, _)) =>
    case Deliver(VoteRep(_, _, _, _)) =>
    case Deliver(AppReq(_, _, req)) =>
      assert req.term < n.currentTerm;
    case _ =>
  }

  lemma ActorBacked(h: History, n: NodeState, s: Step)
    requires ActorLogKnows(h, n, s) && Backed(h, n) && h.acks <= Record(h, n, s).acks
    requires s.Deliver? && s.packet.AppRep? && Counted(n, s.packet.arep) ==>
      Matches(h, s.packet.src, n.currentTerm, Lookup(n.nextIndex, s.packet.src))
    ensures Backed(Record(h, n, s), Act(n, s))
  {
    hide ActorLogKnows, Record;
    ActorIsOk(h, n, s);
    if Wins(n, s) {
      WinnerBacked(h, n, s);
    } else if Extends(n, s) {
      ProposerBacked(h, n, s);
    } else if s.Deliver? && s.packet.AppRep? {
      ReplyBacked(h, n, s);
      BackedGrows(h, Record(h, n, s), Act(n, s));
    } else if Act(n, s).role == Leader {
      IdleLeader(n, s);
      BackedGrows(h, Record(h, n, s), n);
    }
  }

  lemma ActorIsOk(h: History, n: NodeState, s: Step)
    requires ActorLogKnows(h, n, s)
    ensures NodeOk(n)
    ensures n.role == Leader && s.Deliver? && s.packet.AppReq? ==> s.packet.areq.term != n.currentTerm
  {
  }

  lemma CommitOkGrows(c: Cluster, h: History, c': Cluster, h': History, k: Commit)
    requires CommitOk(c, h, k) && c'.members == c.members && LogsGrow(h, h') && HistoryGrows(h, h')
    ensures CommitOk(c', h', k)
  {
    forall q | q in Ackers(c, h, k.term, k.index) ensures q in Ackers(c', h', k.term, k.index) {
      AckedGrows(h, h', q, k.term, k.index, k.index);
    }
    SubsetSize(Ackers(c, h, k.term, k.index), Ackers(c', h', k.term, k.index));
  }

  lemma NewCommitOk(c: Cluster, h: History, s: Step)
    requires WellFormed(c) && Enabled(c, s) && ActorLogKnows(h, c.nodes[Actor(s)], s) && Backed(h, c.nodes[Actor(s)])
    requires s.Deliver? && s.packet.AppRep? && Act(c.nodes[Actor(s)], s).commitIndex > c.nodes[Actor(s)].commitIndex
    requires Matches(h, s.packet.src, c.nodes[Actor(s)].currentTerm, Lookup(c.nodes[Actor(s)].nextIndex, s.packet.src))
    ensures CommitOk(c, h, Commit(c.nodes[Actor(s)].currentTerm, Act(c.nodes[Actor(s)], s).commitIndex))
  {
    var n := c.nodes[Actor(s)];
    NewCommit(h, n, s);
    CountingBacked(h, n, s.packet.src);
    CommittableIsHeld(c, h, Counting(n, s.packet.src), Act(n, s).commitIndex);
  }

  lemma NodeLogIs(c: Cluster, h: History, id: NodeId)
    requires LogInv(c, h) && id in c.nodes
    ensures NodeLogOk(h, c.nodes[id])
  {
  }

  /** The counted reply, if there is one, is backed. */
  lemma CountMatches(c: Cluster, h: History, s: Step)
    requires ActorReady(c, s) && Enabled(c, s) && AckJustified(c, s)
    requires Inv(c, h)
    ensures var n := c.nodes[Actor(s)];
      s.Deliver? && s.packet.AppRep? && Counted(n, s.packet.arep) ==>
        Matches(h, s.packet.src, n.currentTerm, Lookup(n.nextIndex, s.packet.src))
  {
    hide VoteInv, LogInv, AckInv, ChoiceInv, AckJustified, Matches, NodeLogOk, Enabled;
    NodeLogIs(c, h, Actor(s));
    if s.Deliver? && s.packet.AppRep? && Counted(c.nodes[Actor(s)], s.packet.arep) {
      CountedAck(c, h, s);
    }
  }

  lemma BackedKept(c: Cluster, h: History, s: Step, c': Cluster, h': History)
    requires WellFormed(c) && Enabled(c, s) && ActorLogKnows(h, c.nodes[Actor(s)], s) && h.acks <= h'.acks
    requires forall m :: m in c.nodes ==> Backed(h, c.nodes[m])
    requires c' == Next(c, s) && h' == Record(h, c.nodes[Actor(s)], s)
    requires var n := c.nodes[Actor(s)];
      s.Deliver? && s.packet.AppRep? && Counted(n, s.packet.arep) ==>
        Matches(h, s.packet.src, n.currentTerm, Lookup(n.nextIndex, s.packet.src))
    ensures forall m :: m in c'.nodes ==> Backed(h', c'.nodes[m])
  {
    hide ActorLogKnows, Backed, Record, Act, Emit, Matches, Counted;
    forall m | m in c'.nodes ensures Backed(h', c'.nodes[m]) {
      if m == Actor(s) {
        ActorBacked(h, c.nodes[m], s);
      } else {
        BackedGrows(h, h', c.nodes[m]);
      }
    }
  }

  lemma CommitsKept(c: Cluster, h: History, s: Step, c': Cluster, h': History)
    requires WellFormed(c) && Enabled(c, s) && ActorLogKnows(h, c.nodes[Actor(s)], s) && Backed(h, c.nodes[Actor(s)])
    requires (forall k :: k in h.commits ==> CommitOk(c, h, k)) && HistoryGrows(h, h') && LogsGrow(h, h')
    requires c'.members == c.members && h' == Record(h, c.nodes[Actor(s)], s)
    requires var n := c.nodes[Actor(s)];
      s.Deliver? && s.packet.AppRep? && Counted(n, s.packet.arep) ==>
        Matches(h, s.packet.src, n.currentTerm, Lookup(n.nextIndex, s.packet.src))
    ensures forall k :: k in h'.commits ==> CommitOk(c', h', k)
  {
    hide ActorLogKnows, Backed, CommitOk, HistoryGrows, LogsGrow, Matches, Counted;
    forall k | k in h'.commits ensures CommitOk(c', h', k) {
      if k !in h.commits {
        ActorIsOk(h, c.nodes[Actor(s)], s);
        NewCommit(h, c.nodes[Actor(s)], s);
        NewCommitOk(c, h, s);
      }
      CommitOkGrows(c, h, c', h', k);
    }
  }

  lemma CommitInvKept(c: Cluster, h: History, s: Step, c': Cluster, h': History)
    requires Inv(c, h) && CommitInv(c, h) && Steps(c, h, s, c', h') && AckJustified(c, s)
    requires c' == Next(c, s) && h' == Record(h, c.nodes[Actor(s)], s)
    ensures CommitInv(c', h')
  {
    hide VoteInv, LogInv, AckInv, ChoiceInv, ActorLogKnows, Backed, CommitOk, HistoryGrows, LogsGrow, AckJustified,
      Record, Act, Emit, Matches, Counted, NewAckOk, Evolves;
    InvGivesActorLog(c, h, s);
    AcksOnlyGrow(h, h');
    CountMatches(c, h, s);
    BackedKept(c, h, s, c', h');
    CommitsKept(c, h, s, c', h');
  }

  lemma AcksOnlyGrow(h: History, h': History)
    requires HistoryGrows(h, h')
    ensures h.acks <= h'.acks
  {
  }
}
