/**
 Elections: majorities intersect, a term gets at most one leader, and every step keeps the
 invariant about votes, leaders and packets.
 */
module RaftElection {
  import opened RaftTypes
  import opened RaftHandlers
  import opened RaftCluster
  import opened RaftHistory

  // ---- majorities ----

  lemma {:induction false} SubsetSize<T>(a: set<T>, b: set<T>)
    requires a <= b
    ensures |a| <= |b|
  {
    if a != {} {
      var x :| x in a;
      SubsetSize(a - {x}, b - {x});
    }
  }

  lemma MajoritiesMeet(c: Cluster, a: set<NodeId>, b: set<NodeId>) returns (v: NodeId)
    requires Majority(c, a) && Majority(c, b)
    ensures v in a && v in b
  {
    if a * b == {} {
      SubsetSize(a + b, c.members);
      assert false;
    }
    v :| v in a * b;
  }

  // ---- what a step does to the node that takes it ----

  ghost predicate Evolves(n: NodeState, s: Step, n': NodeState) {
    && n'.id == n.id && n'.peers == n.peers
    && n.currentTerm <= n'.currentTerm
    && (n'.currentTerm == n.currentTerm && n.votedFor != "" ==> n'.votedFor == n.votedFor)
    && (n'.currentTerm == n.currentTerm && n'.role == Candidate ==> n.role == Candidate)
    && (n'.currentTerm > n.currentTerm ==> if s.Timeout? then n'.role == Candidate else n'.role == Follower)
    && (n'.role == Leader ==> n'.currentTerm == n.currentTerm)
    && (n.role == Leader && n'.currentTerm == n.currentTerm ==> n'.role == Leader)
    && (n'.role == Leader && n.role != Leader ==> Wins(n, s))
    && (!s.Timeout? && !(s.Deliver? && s.packet.VoteRep?) ==> n'.votes == n.votes)
    && (!s.Timeout? && !(s.Deliver? && s.packet.VoteReq?) ==>
          n'.votedFor == if n'.currentTerm == n.currentTerm then n.votedFor else "")
    && (n'.log == n.log
        || (s.ClientPropose? && n.role == Leader)
        || (s.Deliver? && s.packet.AppReq? && n'.currentTerm == s.packet.areq.term))
  }

  lemma ActEvolves(n: NodeState, s: Step)
    requires NodeOk(n)
    ensures Evolves(n, s, Act(n, s))
  {
    hide HandleVote, HandleVoteReply, HandleAppend, HandleAppendReply;
    match s
    case Deliver(VoteReq(_, _, req)) => VoteEvolves(n, s);
    case Deliver(VoteRep(_, _, _, _)) => VoteReplyEvolves(n, s);
    case Deliver(AppReq(_, _, req)) => AppendEvolves(n, req);
    case Deliver(AppRep(src, _, reply, _)) => AppendReplyEvolves(n, src, reply);
    case _ =>
  }

  lemma VoteEvolves(n: NodeState, s: Step)
    requires s.Deliver? && s.packet.VoteReq?
    ensures Evolves(n, s, HandleVote(n, s.packet.vreq).0)
  {
    hide UpToDate, NodeOk;
  }

  lemma VoteReplyEvolves(n: NodeState, s: Step)
    requires s.Deliver? && s.packet.VoteRep?
    ensures Evolves(n, s, HandleVoteReply(n, s.packet.src, s.packet.vrep))
  {
    hide ForPeers, NodeOk;
  }

  lemma AppendEvolves(n: NodeState, req: AppendRequest)
    requires NodeOk(n)
    ensures var m := HandleAppend(n, req).0;
      && m.id == n.id && m.peers == n.peers && m.votes == n.votes
      && (if req.term > n.currentTerm then m.currentTerm == req.term && m.role == Follower && m.votedFor == ""
          else m.currentTerm == n.currentTerm && m.role == n.role && m.votedFor == n.votedFor)
      && (m.log != n.log ==> m.currentTerm == req.term)
  {
    hide Merge, PrevMatches;
  }

  lemma AppendReplyEvolves(n: NodeState, peer: NodeId, reply: AppendReply)
    requires NodeOk(n)
    ensures var m := HandleAppendReply(n, peer, reply);
      && m.id == n.id && m.peers == n.peers && m.votes == n.votes && m.log == n.log
      && (if reply.term > n.currentTerm then m.currentTerm == reply.term && m.role == Follower && m.votedFor == ""
          else m.currentTerm == n.currentTerm && m.role == n.role && m.votedFor == n.votedFor)
  {
    hide Highest, MatchedPeers;
  }

  // ---- at most one leader per term ----

  /** A counted vote was cast for the counting candidate in its current term, although the
      reply carries the voter's term from before it adopted the request's. */
  lemma CountedVote(c: Cluster, h: History, p: Packet)
    requires VoteInv(c, h) && p in c.net && p.VoteRep?
    requires p.vrep.term == c.nodes[p.dst].currentTerm && p.vrep.granted
    ensures VotedFor(h, p.src, c.nodes[p.dst].currentTerm, p.dst)
  {
    assert PacketOk(c, h, p);
  }

  lemma WinnerHasMajority(c: Cluster, h: History, s: Step)
    requires VoteInv(c, h) && Enabled(c, s) && Wins(c.nodes[Actor(s)], s)
    ensures var n := c.nodes[Actor(s)];
      && Majority(c, n.votes + {s.packet.src})
      && forall v :: v in n.votes + {s.packet.src} ==> VotedFor(h, v, n.currentTerm, n.id)
  {
    CountedVote(c, h, s.packet);
    assert NodeVotesOk(h, c.nodes[Actor(s)]);
  }

  /** A term that elects a leader had none. */
  lemma FreshTerm(c: Cluster, h: History, s: Step)
    requires VoteInv(c, h) && Enabled(c, s) && Wins(c.nodes[Actor(s)], s)
    ensures c.nodes[Actor(s)].currentTerm !in h.leaderOf
  {
    var n := c.nodes[Actor(s)];
    WinnerHasMajority(c, h, s);
    if n.currentTerm in h.leaderOf {
      assert ElectedOk(c, h, n.currentTerm);
      var v := MajoritiesMeet(c, n.votes + {s.packet.src}, h.quorum[n.currentTerm]);
      assert false;
    }
  }

  // ---- every step ----

  /** Only the actor changes, and it changes as Evolves says. */
  ghost predicate NodesMove(c: Cluster, s: Step, c': Cluster) {
    && WellFormed(c) && WellFormed(c') && Enabled(c, s)
    && c'.members == c.members && c.net <= c'.net
    && (forall n :: n in c.nodes && n != Actor(s) ==> c'.nodes[n] == c.nodes[n])
    && Evolves(c.nodes[Actor(s)], s, c'.nodes[Actor(s)])
  }

  /** Nothing recorded is lost. */
  ghost predicate HistoryGrows(h: History, h': History) {
    && (forall t :: t in h.leaderOf ==> t in h'.leaderOf && h'.leaderOf[t] == h.leaderOf[t])
    && (forall t :: t in h.leaderOf && t in h.quorum ==> t in h'.quorum && h'.quorum[t] == h.quorum[t])
    && (forall k :: k in h.ballots ==> k in h'.ballots && h'.ballots[k] == h.ballots[k])
    && h.acks <= h'.acks && h.commits <= h'.commits
  }

  lemma StepMovesNodes(c: Cluster, s: Step)
    requires WellFormed(c) && Enabled(c, s)
    ensures NodesMove(c, s, Next(c, s))
  {
    ActEvolves(c.nodes[Actor(s)], s);
  }

  /** What the invariant says about the node that is about to take a step. */
  ghost predicate ActorKnows(h: History, n: NodeState, s: Step) {
    && NodeOk(n) && NodeVotesOk(h, n) && n.id in n.peers
    && (forall t :: (n.id, t) in h.ballots ==>
          && t <= n.currentTerm && h.ballots[(n.id, t)].candidate != ""
          && (t == n.currentTerm ==> n.votedFor == h.ballots[(n.id, t)].candidate))
    && (s.Deliver? && s.packet.VoteRep? && s.packet.vrep.term == n.currentTerm && s.packet.vrep.granted ==>
          s.packet.src in n.peers && VotedFor(h, s.packet.src, n.currentTerm, n.id))
    && (Wins(n, s) ==> n.currentTerm !in h.leaderOf)
  }

  lemma InvGivesActor(c: Cluster, h: History, s: Step)
    requires VoteInv(c, h) && Enabled(c, s)
    ensures ActorKnows(h, c.nodes[Actor(s)], s)
  {
    var n := c.nodes[Actor(s)];
    forall t | (n.id, t) in h.ballots
      ensures t <= n.currentTerm && h.ballots[(n.id, t)].candidate != ""
      ensures (t == n.currentTerm ==> n.votedFor == h.ballots[(n.id, t)].candidate)
    {
      assert BallotOk(c, h, n.id, t);
    }
    if s.Deliver? && s.packet.VoteRep? && s.packet.vrep.term == n.currentTerm && s.packet.vrep.granted {
      CountedVote(c, h, s.packet);
    }
    if Wins(n, s) {
      FreshTerm(c, h, s);
    }
  }

  lemma RecordGrows(h: History, n: NodeState, s: Step)
    requires ActorKnows(h, n, s)
    ensures HistoryGrows(h, Record(h, n, s))
  {
  }

  ghost predicate Moves(c: Cluster, h: History, s: Step, c': Cluster, h': History) {
    NodesMove(c, s, c') && HistoryGrows(h, h')
  }

  lemma StepMoves(c: Cluster, h: History, s: Step)
    requires VoteInv(c, h) && Enabled(c, s)
    ensures Moves(c, h, s, Next(c, s), Record(h, c.nodes[Actor(s)], s))
  {
    StepMovesNodes(c, s);
    InvGivesActor(c, h, s);
    RecordGrows(h, c.nodes[Actor(s)], s);
  }

  // ---- what was there before stays in order ----

  /** A candidate still running for a term was running before, with the same log. */
  lemma RunningBefore(c: Cluster, h: History, s: Step, c': Cluster, h': History, m: NodeId, t: nat)
    requires Moves(c, h, s, c', h') && (s.Deliver? ==> PacketOk(c, h, s.packet))
    requires Running(c', h', m, t) && m in c.nodes && t <= c.nodes[m].currentTerm
    requires NodeVotesOk(h, c.nodes[m])
    ensures Running(c, h, m, t) && c'.nodes[m].log == c.nodes[m].log
  {
  }

  lemma OldBallotsKept(c: Cluster, h: History, s: Step, c': Cluster, h': History, v: NodeId, t: nat)
    requires Moves(c, h, s, c', h') && (s.Deliver? ==> PacketOk(c, h, s.packet))
    requires (v, t) in h.ballots && BallotOk(c, h, v, t)
    requires NodeVotesOk(h, c.nodes[h.ballots[(v, t)].candidate])
    ensures BallotOk(c', h', v, t)
  {
    var b := h.ballots[(v, t)];
    if Running(c', h', b.candidate, t) {
      RunningBefore(c, h, s, c', h', b.candidate, t);
    }
  }

  lemma OldLeadersKept(c: Cluster, h: History, s: Step, c': Cluster, h': History, t: nat)
    requires Moves(c, h, s, c', h') && t in h.leaderOf && ElectedOk(c, h, t)
    ensures ElectedOk(c', h', t)
  {
    hide NodesMove, Majority;
    var n := h.leaderOf[t];
    MovesIs(c, s, c', n);
    assert h'.quorum[t] == h.quorum[t];
    assert Majority(c', h.quorum[t]) by { SameMajority(c, c', h.quorum[t]); }
  }

  lemma SameMajority(c: Cluster, c': Cluster, q: set<NodeId>)
    requires Majority(c, q) && c'.members == c.members
    ensures Majority(c', q)
  {
  }

  lemma MovesIs(c: Cluster, s: Step, c': Cluster, n: NodeId)
    requires NodesMove(c, s, c') && n in c.nodes
    ensures c'.members == c.members && n in c'.nodes && c.nodes[n].currentTerm <= c'.nodes[n].currentTerm
    ensures c'.nodes[n].currentTerm == c.nodes[n].currentTerm && c.nodes[n].role == Leader ==>
      c'.nodes[n].role == Leader
  {
  }

  lemma OldPacketsKept(c: Cluster, h: History, s: Step, c': Cluster, h': History, p: Packet)
    requires Moves(c, h, s, c', h') && (s.Deliver? ==> PacketOk(c, h, s.packet))
    requires p in c.net && PacketOk(c, h, p) && NodeVotesOk(h, c.nodes[p.src])
    ensures PacketOk(c', h', p)
  {
    if p.VoteReq? && Running(c', h', p.src, p.vreq.term) {
      RunningBefore(c, h, s, c', h', p.src, p.vreq.term);
    }
  }

  lemma OtherVotesKept(c: Cluster, h: History, s: Step, c': Cluster, h': History, m: NodeId)
    requires Moves(c, h, s, c', h')
    requires m in c.nodes && m != Actor(s) && NodeVotesOk(h, c.nodes[m])
    ensures NodeVotesOk(h', c'.nodes[m])
  {
  }

  // ---- what the step adds is in order ----

  lemma VoterVotesOk(h: History, n: NodeState, s: Step)
    requires ActorKnows(h, n, s) && s.Deliver? && s.packet.VoteReq? && s.packet.vreq.candidate != ""
    ensures NodeVotesOk(Record(h, n, s), Act(n, s))
  {
    hide Record, Act, BallotsAfter, HandleVote;
    var req, h', n' := s.packet.vreq, Record(h, n, s), Act(n, s);
    VoterOutcome(n, req);
    VoterRecord(h, n, s);
    if n'.votedFor != "" {
      if HandleVote(n, req).1.granted {
        assert VotedFor(h', n.id, req.term, req.candidate);
      } else {
        assert VotedFor(h, n.id, n.currentTerm, n.votedFor);
      }
    }
  }

  lemma VoterOutcome(n: NodeState, req: VoteRequest)
    ensures var (m, reply) := HandleVote(n, req);
      && m.id == n.id && m.peers == n.peers
      && (m.role == Follower || (m.role == n.role && m.currentTerm == n.currentTerm && m.votes == n.votes))
      && (if reply.granted then
            && m.votedFor == req.candidate && m.currentTerm == req.term >= n.currentTerm
            && (req.term == n.currentTerm && n.votedFor != "" ==> n.votedFor == req.candidate)
          else m.votedFor == "" || (m.votedFor == n.votedFor && m.currentTerm == n.currentTerm))
  {
    hide UpToDate;
  }

  /** The vote that is on record after a request was granted went to the candidate. */
  lemma VoterRecord(h: History, n: NodeState, s: Step)
    requires ActorKnows(h, n, s) && s.Deliver? && s.packet.VoteReq?
    ensures Act(n, s) == HandleVote(n, s.packet.vreq).0
    ensures Record(h, n, s).leaderOf == h.leaderOf
    ensures forall k :: k in h.ballots ==> k in Record(h, n, s).ballots && Record(h, n, s).ballots[k] == h.ballots[k]
    ensures HandleVote(n, s.packet.vreq).1.granted ==>
      VotedFor(Record(h, n, s), n.id, s.packet.vreq.term, s.packet.vreq.candidate)
  {
    hide HandleVote, NodeVotesOk;
    VoterOutcome(n, s.packet.vreq);
  }

  lemma CandidateVotesOk(h: History, n: NodeState, s: Step)
    requires ActorKnows(h, n, s) && (s.Timeout? || (s.Deliver? && s.packet.VoteRep?))
    ensures NodeVotesOk(Record(h, n, s), Act(n, s))
  {
  }

  lemma QuietVotesOk(h: History, n: NodeState, s: Step, h': History, n': NodeState)
    requires NodeVotesOk(h, n) && Evolves(n, s, n') && HistoryGrows(h, h')
    requires !s.Timeout? && !(s.Deliver? && (s.packet.VoteReq? || s.packet.VoteRep?))
    ensures NodeVotesOk(h', n')
  {
  }

  lemma ActorVotesOk(h: History, n: NodeState, s: Step)
    requires ActorKnows(h, n, s)
    requires s.Deliver? && s.packet.VoteReq? ==> s.packet.vreq.candidate != ""
    ensures NodeVotesOk(Record(h, n, s), Act(n, s))
  {
    if s.Deliver? && s.packet.VoteReq? {
      VoterVotesOk(h, n, s);
    } else if s.Timeout? || (s.Deliver? && s.packet.VoteRep?) {
      CandidateVotesOk(h, n, s);
    } else {
      ActEvolves(n, s);
      RecordGrows(h, n, s);
      QuietVotesOk(h, n, s, Record(h, n, s), Act(n, s));
    }
  }

  /** A vote is cast in the voter's new term, for a candidate whose log, as quoted in its
      request, is at least as up to date as the voter's. */
  lemma CastVote(h: History, n: NodeState, s: Step, v: NodeId, t: nat)
    requires ActorKnows(h, n, s)
    requires (v, t) in Record(h, n, s).ballots && (v, t) !in h.ballots
    ensures var b := Record(h, n, s).ballots[(v, t)];
      && v == n.id && t == Act(n, s).currentTerm && Act(n, s).votedFor == b.candidate && b.log == n.log
      && (n.currentTerm < t || n.votedFor == "")
      && ((s.Timeout? && b.candidate == n.id)
          || (s.Deliver? && s.packet.VoteReq? && b.candidate == s.packet.vreq.candidate && t == s.packet.vreq.term
              && UpToDate(n.log, s.packet.vreq.lastLogIndex, s.packet.vreq.lastLogTerm)))
  {
  }

  lemma NewBallotOk(c: Cluster, h: History, s: Step, c': Cluster, h': History, v: NodeId, t: nat)
    requires VoteInv(c, h) && Moves(c, h, s, c', h')
    requires h' == Record(h, c.nodes[Actor(s)], s) && c'.nodes[Actor(s)] == Act(c.nodes[Actor(s)], s)
    requires (v, t) in h'.ballots && (v, t) !in h.ballots
    ensures BallotOk(c', h', v, t)
  {
    var n := c.nodes[Actor(s)];
    InvGivesActor(c, h, s);
    CastVote(h, n, s, v, t);
    if s.Deliver? {
      assert PacketOk(c, h, s.packet);
      if Running(c', h', s.packet.src, t) {
        RunningBefore(c, h, s, c', h', s.packet.src, t);
      }
    }
  }

  lemma NewLeaderOk(c: Cluster, c': Cluster, h': History, n: NodeId, q: set<NodeId>)
    requires n in c'.nodes && c'.members == c.members
    requires c'.nodes[n].role == Leader && c'.nodes[n].currentTerm >= 1
    requires var t := c'.nodes[n].currentTerm;
      && t in h'.leaderOf && h'.leaderOf[t] == n && t in h'.quorum && h'.quorum[t] == q
      && Majority(c, q) && forall v :: v in q ==> VotedFor(h', v, t, n)
    ensures ElectedOk(c', h', c'.nodes[n].currentTerm)
  {
  }

  lemma ElectedKept(c: Cluster, h: History, s: Step, c': Cluster, h': History)
    requires VoteInv(c, h) && Moves(c, h, s, c', h')
    requires h' == Record(h, c.nodes[Actor(s)], s) && c'.nodes[Actor(s)] == Act(c.nodes[Actor(s)], s)
    ensures forall t :: t in h'.leaderOf ==> ElectedOk(c', h', t)
  {
    var n := c.nodes[Actor(s)];
    forall t | t in h'.leaderOf ensures ElectedOk(c', h', t) {
      if t in h.leaderOf {
        OldLeadersKept(c, h, s, c', h', t);
      } else {
        WinnerHasMajority(c, h, s);
        WinnerLeads(n, s);
        NewLeaderOk(c, c', h', n.id, n.votes + {s.packet.src});
      }
    }
  }

  lemma WinnerLeads(n: NodeState, s: Step)
    requires NodeOk(n) && Wins(n, s)
    ensures Act(n, s).role == Leader && Act(n, s).currentTerm == n.currentTerm
  {
  }

  /** A granted reply follows a recorded vote for the request's candidate and term. */
  lemma GrantedReply(h: History, n: NodeState, s: Step)
    requires ActorKnows(h, n, s) && s.Deliver? && s.packet.VoteReq? && s.packet.vreq.candidate != ""
    requires HandleVote(n, s.packet.vreq).1.granted
    ensures VotedFor(Record(h, n, s), n.id, s.packet.vreq.term, s.packet.vreq.candidate)
    ensures HandleVote(n, s.packet.vreq).1.term <= s.packet.vreq.term
  {
  }

  /** Append requests and their replies name the leader of the term. */
  lemma LedPacket(c': Cluster, h: History, h': History, n: NodeState, s: Step, p: Packet)
    requires NodeOk(n) && NodeVotesOk(h, n) && HistoryGrows(h, h')
    requires s.SendAppend? ==> s.peer in n.peers && s.peer != n.id
    requires (s.SendAppend? && n.role == Leader) || (s.Deliver? && s.packet.AppReq?)
    requires s.Deliver? && s.packet.AppReq? ==>
      var req := s.packet.areq;
      req.leader == s.packet.src && req.term in h.leaderOf && h.leaderOf[req.term] == req.leader
    requires p in Emit(n, s)
    ensures PacketOk(c', h', p)
  {
    hide HandleAppend;
  }

  lemma VoteReplyOk(c: Cluster, h: History, s: Step, c': Cluster, h': History, p: Packet)
    requires NodesMove(c, s, c') && s.Deliver? && s.packet.VoteReq? && PacketOk(c, h, s.packet)
    requires ActorReady(c, s) && ActorKnows(h, c.nodes[Actor(s)], s)
    requires h' == Record(h, c.nodes[Actor(s)], s) && p in Emit(c.nodes[Actor(s)], s)
    requires c.nodes[Actor(s)].id == Actor(s)
    ensures PacketOk(c', h', p)
  {
    hide NodesMove, ActorKnows, Record, HandleVote;
    var n := c.nodes[Actor(s)];
    MovesIs(c, s, c', s.packet.vreq.candidate);
    assert s.packet.vreq.candidate != "" by { MemberNamed(c, s, c', s.packet.vreq.candidate); }
    if HandleVote(n, s.packet.vreq).1.granted {
      GrantedReply(h, n, s);
    }
  }

  lemma MemberNamed(c: Cluster, s: Step, c': Cluster, n: NodeId)
    requires NodesMove(c, s, c') && n in c.nodes
    ensures n != "" && c.nodes[n].id == n && ActorReady(c, s) && Actor(s) in c'.nodes
    ensures s.SendAppend? ==> s.peer in c.nodes[Actor(s)].peers && s.peer != s.node && c.nodes[Actor(s)].role == Leader
  {
  }

  lemma NewPacketOk(c: Cluster, h: History, s: Step, c': Cluster, h': History, p: Packet)
    requires ActorReady(c, s) && Actor(s) in c'.nodes && Enabled(c, s)
    requires Moves(c, h, s, c', h') && (s.Deliver? ==> PacketOk(c, h, s.packet))
    requires ActorKnows(h, c.nodes[Actor(s)], s)
    requires h' == Record(h, c.nodes[Actor(s)], s) && c'.nodes[Actor(s)] == Act(c.nodes[Actor(s)], s)
    requires s.SendAppend? ==> s.peer in c.nodes[Actor(s)].peers && s.peer != c.nodes[Actor(s)].id
    requires p in Emit(c.nodes[Actor(s)], s)
    ensures PacketOk(c', h', p)
  {
    hide NodesMove, HistoryGrows, Record, HandleVote, HandleAppend, NodeVotesOk;
    MemberNamed(c, s, c', Actor(s));
    var n := c.nodes[Actor(s)];
    match s
    case SendVote(_, _) => BuiltVote(c, c', h', n, p);
    case SendAppend(_, _, _) => LedPacket(c', h, h', n, s, p);
    case Deliver(VoteReq(_, _, _)) => VoteReplyOk(c, h, s, c', h', p);
    case Deliver(AppReq(_, _, _)) => LedPacket(c', h, h', n, s, p);
    case _ =>
  }

  lemma BuiltVote(c: Cluster, c': Cluster, h': History, n: NodeState, p: Packet)
    requires n.id in c'.nodes && c'.nodes[n.id] == n && p.VoteReq? && p.vreq == BuildVote(n) && p.src == n.id
    ensures PacketOk(c', h', p)
  {
  }

  /** What a step starts from. */
  ghost predicate Starts(c: Cluster, h: History, s: Step, c': Cluster, h': History) {
    && WellFormed(c) && Enabled(c, s) && ActorReady(c, s) && Moves(c, h, s, c', h')
    && c' == Next(c, s) && h' == Record(h, c.nodes[Actor(s)], s) && c'.nodes[Actor(s)] == Act(c.nodes[Actor(s)], s)
    && ActorKnows(h, c.nodes[Actor(s)], s) && (s.Deliver? ==> PacketOk(c, h, s.packet))
  }

  lemma BallotsKept(c: Cluster, h: History, s: Step, c': Cluster, h': History)
    requires VoteInv(c, h) && Starts(c, h, s, c', h')
    ensures forall v, t :: (v, t) in h'.ballots ==> BallotOk(c', h', v, t)
  {
    hide NodeVotesOk, ElectedOk, ActorKnows, Moves, Record, Act, Emit, PacketOk, NodeOk;
    forall v, t | (v, t) in h'.ballots ensures BallotOk(c', h', v, t) {
      if (v, t) in h.ballots {
        assert BallotOk(c, h, v, t);
        OldBallotsKept(c, h, s, c', h', v, t);
      } else {
        NewBallotOk(c, h, s, c', h', v, t);
      }
    }
  }

  lemma VotesKept(c: Cluster, h: History, s: Step, c': Cluster, h': History)
    requires VoteInv(c, h) && Starts(c, h, s, c', h')
    ensures forall m :: m in c'.nodes ==> NodeVotesOk(h', c'.nodes[m])
  {
    hide NodeVotesOk, BallotOk, ElectedOk, ActorKnows, Moves, Record, Act, Emit, NodeOk;
    forall m | m in c'.nodes ensures NodeVotesOk(h', c'.nodes[m]) {
      if m == Actor(s) {
        ActorVotesOk(h, c.nodes[m], s);
      } else {
        OtherVotesKept(c, h, s, c', h', m);
      }
    }
  }

  lemma PacketsKept(c: Cluster, h: History, s: Step, c': Cluster, h': History)
    requires VoteInv(c, h) && Starts(c, h, s, c', h')
    ensures forall p :: p in c'.net ==> PacketOk(c', h', p)
  {
    hide PacketOk, NodeVotesOk, BallotOk, ElectedOk, ActorKnows, Moves, Record, Act, Emit, NodeOk;
    forall p | p in c'.net ensures PacketOk(c', h', p) {
      if p in c.net {
        OldPacketsKept(c, h, s, c', h', p);
      } else {
        NewPacketOk(c, h, s, c', h', p);
      }
    }
  }

  lemma StartsIs(c: Cluster, h: History, s: Step)
    requires VoteInv(c, h) && Enabled(c, s)
    ensures ActorReady(c, s) && Starts(c, h, s, Next(c, s), Record(h, c.nodes[Actor(s)], s))
  {
    hide PacketOk, NodeVotesOk, BallotOk, ElectedOk, ActorKnows, Moves, Record, Act, Emit;
    StepMoves(c, h, s);
    InvGivesActor(c, h, s);
  }

  lemma VoteInvKept(c: Cluster, h: History, s: Step)
    requires VoteInv(c, h) && Enabled(c, s)
    ensures VoteInv(Next(c, s), Record(h, c.nodes[Actor(s)], s))
  {
    hide PacketOk, NodeVotesOk, BallotOk, ElectedOk, ActorKnows, Moves, Record, Next;
    StartsIs(c, h, s);
    var c', h' := Next(c, s), Record(h, c.nodes[Actor(s)], s);
    BallotsKept(c, h, s, c', h');
    VotesKept(c, h, s, c', h');
    ElectedKept(c, h, s, c', h');
    PacketsKept(c, h, s, c', h');
  }
}
