/**
 Commitment: what a majority could still come to hold in a term is in the log of every
 later leader, so a committed slot is never lost.
 */
module RaftCommit {
  import opened RaftTypes
  import opened RaftHandlers
  import opened RaftCluster
  import opened RaftHistory
  import opened RaftElection
  import opened RaftLog

  // ---- acknowledgements ----

  /** A step adds at most acknowledgements of the actor, in the term it ends up in, for
      slots its log then shares with that term's leader. */
  ghost predicate NewAckOk(h: History, n': NodeState, a: Ack) {
    && a.node == n'.id && a.term == n'.currentTerm && a.term in h.leaderOf
    && Holds(h, n'.log, a.term, a.index)
  }

  lemma AckOfAppend(h: History, n: NodeState, req: AppendRequest)
    requires NodeOk(n) && NodeLogOk(h, n) && AppendOk(h, req) && LeaderLogOk(h, req.term) && req.term in h.leaderOf
    requires HandleAppend(n, req).1.success
    ensures NewAckOk(h, HandleAppend(n, req).0, AckOfRequest(h.leaderLog, n.id, req))
  {
    hide GoodLog, NoGap, AppendOk, PrevMatches, LeaderLogOk, NodeLogOk, Merge, Proven;
    AcceptedHolds(h, n, req);
  }

  /** A node that accepts a request then holds all the slots it proves. */
  lemma AcceptedHolds(h: History, n: NodeState, req: AppendRequest)
    requires NodeOk(n) && NodeLogOk(h, n) && AppendOk(h, req) && LeaderLogOk(h, req.term)
    requires HandleAppend(n, req).1.success
    ensures Holds(h, HandleAppend(n, req).0.log, req.term, Proven(h.leaderLog[req.term], req))
    ensures req.prevLogIndex <= |n.log|
    ensures HandleAppend(n, req).0.log == Merge(n.log, req.prevLogIndex, req.entries)
  {
    hide GoodLog, NoGap, AppendOk, PrevMatches;
    AppendKeepsGood(h, n.log, req);
    var r := Merge(n.log, req.prevLogIndex, req.entries);
    SentinelHeld(h, r, req.term);
    if req.entries == [] && req.prevLogIndex >= 1 && NoGap(h.leaderLog[req.term], req) {
      NextSlotHeld(h, n.log, req);
    }
  }

  lemma SentinelHeld(h: History, log: Log, t: nat)
    requires t in h.leaderLog && LeaderLogOk(h, t) && GoodLog(h.leaderLog, log)
    ensures Holds(h, log, t, 1)
  {
    assert log[..1] == [SENTINEL] == h.leaderLog[t][..1];
  }

  /** Without a gap, the slot behind the checked entry is the leader's too. */
  lemma NextSlotHeld(h: History, log: Log, req: AppendRequest)
    requires GoodLog(h.leaderLog, log) && LastTerm(log) <= req.term && PrevMatches(log, req) && req.prevLogIndex >= 1
    requires req.term in h.leaderLog && LeaderLogOk(h, req.term) && NoGap(h.leaderLog[req.term], req)
    ensures Holds(h, log, req.term, req.prevLogIndex + 1)
  {
    var prev, leader := req.prevLogIndex, h.leaderLog[req.term];
    var u := log[prev].term;
    assert log[prev - 1].term <= u <= log[|log| - 1].term;
    assert SlotAgrees(h.leaderLog, log, prev);
    if u < req.term {
      assert Occurs(leader, prev, u);
      var k :| prev <= k < |leader| && leader[k].term == u;
      assert SlotAgrees(h.leaderLog, leader, k);
      assert leader[..prev + 1] == leader[..k + 1][..prev + 1];
      assert h.leaderLog[u][..prev + 1] == h.leaderLog[u][..k + 1][..prev + 1];
    }
  }

  lemma AckOfStep(h: History, n: NodeState, s: Step, a: Ack)
    requires ActorLogKnows(h, n, s) && (s.Deliver? && s.packet.AppReq? ==> s.packet.areq.term in h.leaderOf)
    requires a in Record(h, n, s).acks && a !in h.acks
    ensures NewAckOk(Record(h, n, s), Act(n, s), a)
  {
    hide GoodLog, LeaderLogOk, AppendOk;
    if s.Deliver? && s.packet.AppReq? {
      AckOfAppend(h, n, s.packet.areq);
      assert Record(h, n, s).leaderLog == h.leaderLog;
    } else if Extends(n, s) {
    } else {
      WinnerLeads(n, s);
    }
  }

  lemma ReplyOfStep(h: History, n: NodeState, s: Step, p: Packet)
    requires NodeOk(n) && s.Deliver? && s.packet.AppReq? && p in Emit(n, s) && p.arep.success
    ensures p.arep.term <= p.areq.term
    ensures AckOfRequest(h.leaderLog, p.src, p.areq) in Record(h, n, s).acks && Record(h, n, s).leaderLog == h.leaderLog
  {
  }

  lemma AckOkGrows(c: Cluster, h: History, c': Cluster, h': History, a: Ack)
    requires AckOk(c, h, a) && LogsGrow(h, h') && HistoryGrows(h, h')
    requires forall m :: m in c.nodes ==> m in c'.nodes && c.nodes[m].currentTerm <= c'.nodes[m].currentTerm
    ensures AckOk(c', h', a)
  {
  }

  /** Everything a step does, as the commitment proof uses it. */
  ghost predicate Steps(c: Cluster, h: History, s: Step, c': Cluster, h': History) {
    && NodesMove(c, s, c') && HistoryGrows(h, h') && LogsGrow(h, h')
    && (forall a :: a in h'.acks && a !in h.acks ==> NewAckOk(h', c'.nodes[Actor(s)], a))
  }

  lemma StepSteps(c: Cluster, h: History, s: Step)
    requires VoteInv(c, h) && LogInv(c, h) && Enabled(c, s)
    ensures Steps(c, h, s, Next(c, s), Record(h, c.nodes[Actor(s)], s))
  {
    hide NodeLogOk, LeaderLogOk, AppendOk, GoodLog, NodeVotesOk, BallotOk, ElectedOk, Holds;
    var n := c.nodes[Actor(s)];
    StepMoves(c, h, s);
    InvGivesActorLog(c, h, s);
    LeaderLogsGrow(h, n, s);
    assert s.Deliver? ==> PacketOk(c, h, s.packet);
    forall a | a in Record(h, n, s).acks && a !in h.acks
      ensures NewAckOk(Record(h, n, s), Next(c, s).nodes[Actor(s)], a)
    {
      AckOfStep(h, n, s, a);
    }
  }

  lemma AcksKept(c: Cluster, h: History, s: Step, c': Cluster, h': History)
    requires AckInv(c, h) && Steps(c, h, s, c', h')
    ensures forall a :: a in h.acks ==> a in h'.acks
    ensures forall a :: a in h'.acks ==> AckOk(c', h', a)
  {
    hide AckOk;
    forall a | a in h'.acks ensures AckOk(c', h', a) {
      if a in h.acks {
        AckOkGrows(c, h, c', h', a);
      } else {
        NewAckIsOk(c, h, s, c', h', a);
      }
    }
  }

  lemma NewAckIsOk(c: Cluster, h: History, s: Step, c': Cluster, h': History, a: Ack)
    requires Steps(c, h, s, c', h') && a in h'.acks && a !in h.acks
    ensures AckOk(c', h', a)
  {
  }

  lemma AckInvKept(c: Cluster, h: History, s: Step, c': Cluster, h': History)
    requires WellFormed(c) && Enabled(c, s) && ActorReady(c, s)
    requires c' == Next(c, s) && h' == Record(h, c.nodes[Actor(s)], s)
    requires AckInv(c, h) && Steps(c, h, s, c', h')
    requires OwnGrowth(h, h') && forall p :: p in c.net && p.AppRep? ==> p.areq.term in h.leaderLog
    ensures AckInv(c', h')
  {
    hide AckOk, Steps, Record, Next, AckOfRequest, OwnGrowth;
    AcksKept(c, h, s, c', h');
    forall p | p in c'.net && p.AppRep? && p.arep.success
      ensures p.arep.term <= p.areq.term
      ensures AckOfRequest(h'.leaderLog, p.src, p.areq) in h'.acks
    {
      if p !in c.net {
        NewReply(c, s, p);
        ReplyOfStep(h, c.nodes[Actor(s)], s, p);
      } else {
        SameAck(h, h', p.src, p.areq);
      }
    }
  }

  lemma NewReply(c: Cluster, s: Step, p: Packet)
    requires WellFormed(c) && Enabled(c, s) && ActorReady(c, s)
    requires p in Next(c, s).net && p !in c.net && p.AppRep?
    ensures s.Deliver? && s.packet.AppReq? && p in Emit(c.nodes[Actor(s)], s)
  {
    hide HandleAppend, HandleVote, NodeOk;
  }

  /** A term's leader log grows by entries of that term only. */
  ghost predicate OwnGrowth(h: History, h': History) {
    forall t :: t in h.leaderLog ==>
      && t in h'.leaderLog && h.leaderLog[t] <= h'.leaderLog[t]
      && forall k :: |h.leaderLog[t]| <= k < |h'.leaderLog[t]| ==> h'.leaderLog[t][k].term == t
  }

  lemma RecordOwnGrowth(h: History, n: NodeState, s: Step)
    requires ActorLogKnows(h, n, s)
    ensures OwnGrowth(h, Record(h, n, s))
  {
    hide BallotsAfter, AcksAfter, CommitsAfter, GoodLog, AppendOk;
  }

  /** ... so what a request proves never changes. */
  lemma SameAck(h: History, h': History, node: NodeId, req: AppendRequest)
    requires OwnGrowth(h, h') && req.term in h.leaderLog
    ensures AckOfRequest(h'.leaderLog, node, req) == AckOfRequest(h.leaderLog, node, req)
  {
    var a, b := h.leaderLog[req.term], h'.leaderLog[req.term];
    forall u: nat | u < req.term ensures Occurs(a, req.prevLogIndex, u) <==> Occurs(b, req.prevLogIndex, u) {
      if k :| req.prevLogIndex <= k < |a| && a[k].term == u {
        assert b[k].term == u;
      }
      if k :| req.prevLogIndex <= k < |b| && b[k].term == u {
        assert k < |a| && a[k] == b[k];
      }
    }
    assert NoGap(a, req) <==> NoGap(b, req);
  }

  // ---- what can still be chosen only shrinks ----

  lemma SupportersShrink(c: Cluster, h: History, s: Step, c': Cluster, h': History, t: nat, j: nat)
    requires Steps(c, h, s, c', h')
    ensures Supporters(c', h', t, j) <= Supporters(c, h, t, j)
  {
    forall q | q in Supporters(c', h', t, j) ensures q in Supporters(c, h, t, j) {
      if c'.nodes[q].currentTerm > t {
        var a :| a in h'.acks && a.node == q && a.term == t && a.index >= j;
        assert a in h.acks;
      }
    }
  }

  /** A slot that was there before can only be chosen if it could be before. */
  lemma ChoosableBefore(c: Cluster, h: History, s: Step, c': Cluster, h': History, t: nat, j: nat)
    requires Steps(c, h, s, c', h') && Choosable(c', h', t, j)
    requires t in h.leaderOf && t in h.leaderLog && j <= |h.leaderLog[t]|
    ensures Choosable(c, h, t, j)
  {
    SupportersShrink(c, h, s, c', h', t, j);
    SubsetSize(Supporters(c', h', t, j), Supporters(c, h, t, j));
  }

  lemma HoldsGrows(h: History, h': History, log: Log, t: nat, j: nat)
    requires LogsGrow(h, h') && Holds(h, log, t, j)
    ensures Holds(h', log, t, j)
  {
  }

  lemma HoldsPrefix(h: History, log: Log, log': Log, t: nat, j: nat)
    requires Holds(h, log, t, j) && log <= log'
    ensures Holds(h, log', t, j)
  {
  }

  // ---- a new leader holds what could be chosen ----

  /** The election restriction at work: a log at least as up to date as one that holds
      the chosen slots holds them too. */
  lemma UpToDateHolds(h: History, b: Log, m: Log, t: nat, j: nat)
    requires GoodLog(h.leaderLog, b) && GoodLog(h.leaderLog, m) && UpToDate(b, LastIndex(m), LastTerm(m))
    requires Holds(h, b, t, j) && j >= 1 && h.leaderLog[t][j - 1].term == t
    requires LastTerm(m) in h.leaderLog && GoodLog(h.leaderLog, h.leaderLog[LastTerm(m)])
    requires LastTerm(m) > t ==> Holds(h, h.leaderLog[LastTerm(m)], t, j)
    ensures Holds(h, m, t, j)
  {
    var u := LastTerm(m);
    var leader := h.leaderLog[u];
    assert SlotAgrees(h.leaderLog, m, |m| - 1);
    assert m == leader[..|m|];
    assert b[j - 1] == b[..j][j - 1] == h.leaderLog[t][j - 1];
    assert LastTerm(b) >= t;
    if u == LastTerm(b) {
      assert SlotAgrees(h.leaderLog, b, |b| - 1);
      assert b == leader[..|b|];
      assert m[..j] == b[..j];
    } else {
      assert leader[j - 1] == leader[..j][j - 1] == h.leaderLog[t][j - 1];
      assert leader[|m| - 1].term == u;
      assert j <= |m|;
      assert m[..j] == leader[..j];
    }
  }

  /** Some voter of the new leader acknowledged the slot, and still held it when voting. */
  lemma VoterHeld(c: Cluster, h: History, c': Cluster, h': History, n: NodeId, q: set<NodeId>, u: nat, t: nat, j: nat)
    returns (v: NodeId)
    requires c.nodes.Keys == c.members && c'.nodes.Keys == c'.members == c.members
    requires Majority(c, q)
      && forall v :: v in q ==> VotedFor(h, v, u, n) && v in c'.nodes && u <= c'.nodes[v].currentTerm
    requires forall a :: a in h'.acks && a !in h.acks ==> a.term != t
    requires Choosable(c', h', t, j) && t < u && ChoiceOk(c, h, t, j)
    ensures v in q && VotedFor(h, v, u, n) && Holds(h, h.ballots[(v, u)].log, t, j)
  {
    v := MajoritiesMeet(c, q, Supporters(c', h', t, j));
    var a :| a in h'.acks && a.node == v && a.term == t && a.index >= j;
    assert a in h.acks;
  }

  lemma VotersMovedOn(c: Cluster, h: History, s: Step, c': Cluster)
    requires VoteInv(c, h) && NodesMove(c, s, c') && Wins(c.nodes[Actor(s)], s)
    ensures var n := c.nodes[Actor(s)];
      && Majority(c, n.votes + {s.packet.src})
      && forall v :: v in n.votes + {s.packet.src} ==>
           && VotedFor(h, v, n.currentTerm, n.id) && v in c'.nodes && n.currentTerm <= c'.nodes[v].currentTerm
           && UpToDate(h.ballots[(v, n.currentTerm)].log, LastIndex(n.log), LastTerm(n.log))
  {
    hide VoteInv, NodesMove, Enabled;
    MoveIs(c, s, c');
    var n := c.nodes[Actor(s)];
    WinnerIs(c, h, s);
    WinnerHasMajority(c, h, s);
    FreshTerm(c, h, s);
    forall v | v in n.votes + {s.packet.src}
      ensures v in c'.nodes && n.currentTerm <= c'.nodes[v].currentTerm
      ensures VotedFor(h, v, n.currentTerm, n.id)
      ensures UpToDate(h.ballots[(v, n.currentTerm)].log, LastIndex(n.log), LastTerm(n.log))
    {
      VoterBallot(c, h, v, n.currentTerm);
    }
  }

  lemma MoveIs(c: Cluster, s: Step, c': Cluster)
    requires NodesMove(c, s, c')
    ensures Enabled(c, s) && Actor(s) in c.nodes && c'.nodes.Keys == c.nodes.Keys
    ensures forall v :: v in c.nodes ==> c.nodes[v].currentTerm <= c'.nodes[v].currentTerm
  {
  }

  lemma WinnerIs(c: Cluster, h: History, s: Step)
    requires VoteInv(c, h) && Enabled(c, s)
    ensures Actor(s) in c.nodes && c.nodes[Actor(s)].id == Actor(s)
  {
  }

  lemma VoterBallot(c: Cluster, h: History, v: NodeId, t: nat)
    requires VoteInv(c, h) && (v, t) in h.ballots
    ensures BallotOk(c, h, v, t)
  {
  }

  /** ... and its log then was no more up to date than the winner's is now. */
  lemma WinnersVoter(c: Cluster, h: History, s: Step, c': Cluster, h': History, t: nat, j: nat) returns (v: NodeId)
    requires ActorReady(c, s) && c'.nodes.Keys == c'.members && Wins(c.nodes[Actor(s)], s)
    requires Choosable(c', h', t, j) && ChoiceOk(c, h, t, j)
    requires VoteInv(c, h) && Steps(c, h, s, c', h') && t < c.nodes[Actor(s)].currentTerm
    ensures var n := c.nodes[Actor(s)];
      && VotedFor(h, v, n.currentTerm, n.id)
      && Holds(h, h.ballots[(v, n.currentTerm)].log, t, j)
      && UpToDate(h.ballots[(v, n.currentTerm)].log, LastIndex(n.log), LastTerm(n.log))
  {
    hide VoteInv, NodesMove, Steps, Supporters, ChoiceOk, Holds, UpToDate;
    StepsIs(c, h, s, c', h');
    var n := c.nodes[Actor(s)];
    VotersMovedOn(c, h, s, c');
    OldAcksOnly(c, h, s, c', h', t);
    v := VoterHeld(c, h, c', h', n.id, n.votes + {s.packet.src}, n.currentTerm, t, j);
  }

  lemma StepsIs(c: Cluster, h: History, s: Step, c': Cluster, h': History)
    requires Steps(c, h, s, c', h')
    ensures NodesMove(c, s, c') && Enabled(c, s) && ActorReady(c, s)
    ensures c.nodes.Keys == c.members && c'.nodes.Keys == c'.members == c.members
  {
  }

  lemma OldAcksOnly(c: Cluster, h: History, s: Step, c': Cluster, h': History, t: nat)
    requires Steps(c, h, s, c', h') && t < c.nodes[Actor(s)].currentTerm
    ensures forall a :: a in h'.acks && a !in h.acks ==> a.term != t
  {
  }

  lemma WinnerHolds(c: Cluster, h: History, s: Step, c': Cluster, h': History, t: nat, j: nat)
    requires ActorReady(c, s) && c'.nodes.Keys == c'.members && Wins(c.nodes[Actor(s)], s)
    requires Choosable(c, h, t, j) && Choosable(c', h', t, j) && ChoiceOk(c, h, t, j)
    requires VoteInv(c, h) && LogInv(c, h) && Steps(c, h, s, c', h') && t < c.nodes[Actor(s)].currentTerm
    ensures Holds(h, c.nodes[Actor(s)].log, t, j)
  {
    hide VoteInv, LogInv, Steps, Choosable, ChoiceOk, Holds, UpToDate, GoodLog, NodeLogOk, LeaderLogOk;
    StepsIs(c, h, s, c', h');
    var n := c.nodes[Actor(s)];
    var v := WinnersVoter(c, h, s, c', h', t, j);
    WinnerLogs(c, h, n.id, v, n.currentTerm);
    ChoiceIs(c, h, t, j);
    VotedLogHolds(h, h.ballots[(v, n.currentTerm)].log, n, t, j);
  }

  lemma WinnerLogs(c: Cluster, h: History, id: NodeId, v: NodeId, u: nat)
    requires LogInv(c, h) && id in c.nodes && (v, u) in h.ballots
    ensures GoodLog(h.leaderLog, h.ballots[(v, u)].log) && NodeLogOk(h, c.nodes[id])
    ensures forall t :: t in h.leaderLog ==> LeaderLogOk(h, t)
  {
  }

  lemma ChoiceIs(c: Cluster, h: History, t: nat, j: nat)
    requires c.nodes.Keys == c.members && Choosable(c, h, t, j) && ChoiceOk(c, h, t, j)
    ensures j >= 1 && t in h.leaderLog && j <= |h.leaderLog[t]| && h.leaderLog[t][j - 1].term == t
    ensures forall u :: t < u && u in h.leaderLog ==> Holds(h, h.leaderLog[u], t, j)
  {
  }

  lemma VotedLogHolds(h: History, b: Log, n: NodeState, t: nat, j: nat)
    requires GoodLog(h.leaderLog, b) && NodeLogOk(h, n) && UpToDate(b, LastIndex(n.log), LastTerm(n.log))
    requires Holds(h, b, t, j) && j >= 1 && h.leaderLog[t][j - 1].term == t
    requires forall u :: u in h.leaderLog ==> LeaderLogOk(h, u)
    requires forall u :: t < u && u in h.leaderLog ==> Holds(h, h.leaderLog[u], t, j)
    ensures Holds(h, n.log, t, j)
  {
    assert SlotAgrees(h.leaderLog, n.log, |n.log| - 1);
    assert LeaderLogOk(h, LastTerm(n.log));
    UpToDateHolds(h, b, n.log, t, j);
  }

  // ---- slots that were there before ----

  lemma OldLeaderHolds(h: History, h': History, t: nat, j: nat, t': nat)
    requires LogsGrow(h, h') && t' in h.leaderLog && Holds(h, h.leaderLog[t'], t, j)
    ensures Holds(h', h'.leaderLog[t'], t, j)
  {
    HoldsPrefix(h, h.leaderLog[t'], h'.leaderLog[t'], t, j);
    HoldsGrows(h, h', h'.leaderLog[t'], t, j);
  }

  lemma NewTermIsWinners(h: History, n: NodeState, s: Step, t': nat)
    requires ActorLogKnows(h, n, s) && t' !in h.leaderLog && t' in Record(h, n, s).leaderLog
    ensures Wins(n, s) && t' == n.currentTerm && Record(h, n, s).leaderLog[t'] == n.log
  {
  }

  lemma LaterLeadersHold(c: Cluster, h: History, s: Step, c': Cluster, h': History, t: nat, j: nat, t': nat)
    requires ActorReady(c, s) && c'.nodes.Keys == c'.members && h' == Record(h, c.nodes[Actor(s)], s)
    requires Choosable(c, h, t, j) && Choosable(c', h', t, j) && ChoiceOk(c, h, t, j)
    requires VoteInv(c, h) && LogInv(c, h) && Steps(c, h, s, c', h')
    requires t < t' && t' in h'.leaderLog
    ensures Holds(h', h'.leaderLog[t'], t, j)
  {
    hide VoteInv, LogInv, Record, Choosable, Holds, ActorLogKnows;
    if t' in h.leaderLog {
      OldLeaderHolds(h, h', t, j, t');
    } else {
      InvGivesActorLog(c, h, s);
      NewTermIsWinners(h, c.nodes[Actor(s)], s, t');
      WinnerHolds(c, h, s, c', h', t, j);
      HoldsGrows(h, h', c.nodes[Actor(s)].log, t, j);
    }
  }

  /** A log that holds the slots keeps them through an append by a leader that does. */
  lemma AppendKeepsHold(h: History, n: NodeState, req: AppendRequest, t: nat, j: nat)
    requires NodeOk(n) && NodeLogOk(h, n) && AppendOk(h, req) && LeaderLogOk(h, req.term)
    requires Holds(h, n.log, t, j) && Holds(h, h.leaderLog[req.term], t, j)
    ensures Holds(h, HandleAppend(n, req).0.log, t, j)
  {
    hide GoodLog, AppendOk, PrevMatches, Merge, LeaderLogOk;
    if req.term >= n.currentTerm && PrevMatches(n.log, req) {
      AppendKeepsGood(h, n.log, req);
      assert Holds(h, n.log, req.term, j);
      AppendedLog(n, req);
    } else {
      RefusedLog(n, req);
    }
  }

  lemma AppendedLog(n: NodeState, req: AppendRequest)
    requires NodeOk(n) && req.term >= n.currentTerm && PrevMatches(n.log, req) && req.prevLogIndex <= |n.log|
    ensures HandleAppend(n, req).0.log == Merge(n.log, req.prevLogIndex, req.entries)
  {
    hide PrevMatches, Merge;
  }

  lemma RefusedLog(n: NodeState, req: AppendRequest)
    requires NodeOk(n) && !(req.term >= n.currentTerm && PrevMatches(n.log, req))
    ensures HandleAppend(n, req).0.log == n.log
  {
    hide PrevMatches, Merge;
  }

  lemma ActorKeepsHold(h: History, n: NodeState, s: Step, t: nat, j: nat)
    requires ActorLogKnows(h, n, s) && LogsGrow(h, Record(h, n, s)) && Holds(h, n.log, t, j)
    requires s.Deliver? && s.packet.AppReq? && s.packet.areq.term >= n.currentTerm ==>
      Holds(h, h.leaderLog[s.packet.areq.term], t, j)
    ensures Holds(Record(h, n, s), Act(n, s).log, t, j)
  {
    hide GoodLog, NodeLogOk, LeaderLogOk, AppendOk;
    ActEvolves(n, s);
    if s.Deliver? && s.packet.AppReq? {
      if s.packet.areq.term >= n.currentTerm {
        AppendKeepsHold(h, n, s.packet.areq, t, j);
      }
    } else if Extends(n, s) {
      HoldsPrefix(h, n.log, Act(n, s).log, t, j);
    }
    HoldsGrows(h, Record(h, n, s), Act(n, s).log, t, j);
  }

  lemma OldAckerHolds(c: Cluster, h: History, s: Step, c': Cluster, h': History, t: nat, j: nat, q: NodeId)
    requires ActorReady(c, s) && Actor(s) in c'.nodes && q in c.nodes && q in c'.nodes
    requires c'.nodes[Actor(s)] == Act(c.nodes[Actor(s)], s) && h' == Record(h, c.nodes[Actor(s)], s)
    requires VoteInv(c, h) && LogInv(c, h) && AckInv(c, h) && Steps(c, h, s, c', h')
    requires t in h.leaderLog && j <= |h.leaderLog[t]| && ChoiceOk(c, h, t, j) && Acked(h, q, t, j)
    ensures Holds(h', c'.nodes[q].log, t, j)
  {
    hide GoodLog, NodeLogOk, LeaderLogOk, AppendOk, NodeVotesOk, ElectedOk, BallotOk, PacketOk;
    var n := c.nodes[Actor(s)];
    if q != Actor(s) {
      HoldsGrows(h, h', c.nodes[q].log, t, j);
    } else {
      var a :| a in h.acks && a.node == q && a.term == t && a.index >= j;
      assert AckOk(c, h, a);
      InvGivesActorLog(c, h, s);
      ReceivedLeaderHolds(c, h, s, t, j);
      ActorKeepsHold(h, n, s, t, j);
    }
  }

  lemma ReceivedLeaderHolds(c: Cluster, h: History, s: Step, t: nat, j: nat)
    requires Actor(s) in c.nodes && ActorLogKnows(h, c.nodes[Actor(s)], s) && ChoiceOk(c, h, t, j)
    requires t in h.leaderLog && j <= |h.leaderLog[t]| && t <= c.nodes[Actor(s)].currentTerm
    ensures s.Deliver? && s.packet.AppReq? && s.packet.areq.term >= c.nodes[Actor(s)].currentTerm ==>
      s.packet.areq.term in h.leaderLog && Holds(h, h.leaderLog[s.packet.areq.term], t, j)
  {
  }

  lemma NewAckerHolds(h: History, n: NodeState, a: Ack, j: nat)
    requires NewAckOk(h, n, a) && j <= a.index
    ensures Holds(h, n.log, a.term, j)
  {
    assert n.log[..j] == n.log[..a.index][..j];
    assert h.leaderLog[a.term][..j] == h.leaderLog[a.term][..a.index][..j];
  }

  lemma AckersHold(c: Cluster, h: History, s: Step, c': Cluster, h': History, t: nat, j: nat, q: NodeId)
    requires VoteInv(c, h) && LogInv(c, h) && AckInv(c, h) && Steps(c, h, s, c', h')
    requires c'.nodes[Actor(s)] == Act(c.nodes[Actor(s)], s) && h' == Record(h, c.nodes[Actor(s)], s)
    requires t in h.leaderLog && j <= |h.leaderLog[t]| && ChoiceOk(c, h, t, j)
    requires q in c'.nodes && Acked(h', q, t, j)
    ensures Holds(h', c'.nodes[q].log, t, j)
  {
    hide VoteInv, LogInv, AckInv, ChoiceOk, Record, Act, Holds;
    var a :| a in h'.acks && a.node == q && a.term == t && a.index >= j;
    if a in h.acks {
      OldAckerHolds(c, h, s, c', h', t, j, q);
    } else {
      NewAckerHolds(h', c'.nodes[Actor(s)], a, j);
    }
  }

  /** Nobody acknowledges slots of a term before one it has voted in. */
  lemma AckBeforeVote(c: Cluster, h: History, s: Step, c': Cluster, h': History, t: nat, j: nat, v: NodeId, t': nat)
    requires VoteInv(c, h) && Steps(c, h, s, c', h')
    requires h' == Record(h, c.nodes[Actor(s)], s) && ActorKnows(h, c.nodes[Actor(s)], s)
    requires c'.nodes[Actor(s)] == Act(c.nodes[Actor(s)], s)
    requires t < t' && (v, t') in h'.ballots && Acked(h', v, t, j)
    ensures Acked(h, v, t, j)
  {
    hide NodeVotesOk, ElectedOk, PacketOk, Holds;
    var a :| a in h'.acks && a.node == v && a.term == t && a.index >= j;
    if (v, t') in h.ballots {
      assert BallotOk(c, h, v, t');
    } else {
      CastVote(h, c.nodes[Actor(s)], s, v, t');
    }
    assert a in h.acks;
  }

  lemma VoterHadIt(c: Cluster, h: History, s: Step, c': Cluster, h': History, t: nat, j: nat, v: NodeId, t': nat)
    requires VoteInv(c, h) && Steps(c, h, s, c', h')
    requires h' == Record(h, c.nodes[Actor(s)], s) && ActorKnows(h, c.nodes[Actor(s)], s)
    requires c'.nodes[Actor(s)] == Act(c.nodes[Actor(s)], s)
    requires ChoiceOk(c, h, t, j)
    requires t < t' && (v, t') in h'.ballots && Acked(h', v, t, j)
    ensures Holds(h', h'.ballots[(v, t')].log, t, j)
  {
    hide VoteInv, Holds, Record, Acked, ActorKnows;
    AckBeforeVote(c, h, s, c', h', t, j, v, t');
    if (v, t') in h.ballots {
      HoldsGrows(h, h', h.ballots[(v, t')].log, t, j);
    } else {
      CastVote(h, c.nodes[Actor(s)], s, v, t');
      HoldsGrows(h, h', c.nodes[Actor(s)].log, t, j);
    }
  }

  // ---- the slot a leader has just proposed ----

  lemma QuorumMovedOn(c: Cluster, h: History, t: nat)
    requires VoteInv(c, h) && t in h.leaderOf
    ensures t in h.quorum && Majority(c, h.quorum[t])
    ensures forall v :: v in h.quorum[t] ==> v in c.nodes && t <= c.nodes[v].currentTerm
  {
    assert ElectedOk(c, h, t);
    forall v | v in h.quorum[t] ensures v in c.nodes && t <= c.nodes[v].currentTerm {
      assert BallotOk(c, h, v, t);
    }
  }

  /** If there is a later leader, its voters are lost to this term for good. */
  lemma NewSlotHasNoLaterLeader(c: Cluster, h: History, s: Step, c': Cluster, h': History, t': nat)
    requires VoteInv(c, h) && AckInv(c, h) && Steps(c, h, s, c', h') && Extends(c.nodes[Actor(s)], s)
    requires h' == Record(h, c.nodes[Actor(s)], s)
    requires var n := c.nodes[Actor(s)];
      && n.currentTerm < t' && t' in h.leaderOf
      && n.currentTerm in h.leaderLog && h.leaderLog[n.currentTerm] == n.log
    ensures !Choosable(c', h', c.nodes[Actor(s)].currentTerm, |c.nodes[Actor(s)].log| + 1)
  {
    hide VoteInv, AckInv, Steps, Record, Holds, Supporters;
    StepsIs(c, h, s, c', h');
    var n := c.nodes[Actor(s)];
    var t, j := n.currentTerm, |n.log| + 1;
    QuorumMovedOn(c, h, t');
    if Choosable(c', h', t, j) {
      var v := MajoritiesMeet(c, h.quorum[t'], Supporters(c', h', t, j));
      LostToTerm(c, h, s, c', h', v);
      assert false;
    }
  }

  /** A node that moved on to a later term never supports a slot proposed only now. */
  lemma LostToTerm(c: Cluster, h: History, s: Step, c': Cluster, h': History, v: NodeId)
    requires AckInv(c, h) && Steps(c, h, s, c', h') && Extends(c.nodes[Actor(s)], s)
    requires h' == Record(h, c.nodes[Actor(s)], s) && c'.nodes.Keys == c'.members
    requires var n := c.nodes[Actor(s)];
      && v in c.nodes && n.currentTerm < c.nodes[v].currentTerm
      && n.currentTerm in h.leaderLog && h.leaderLog[n.currentTerm] == n.log
    ensures v !in Supporters(c', h', c.nodes[Actor(s)].currentTerm, |c.nodes[Actor(s)].log| + 1)
  {
    hide Holds;
  }

  lemma NewSlotAckers(c: Cluster, h: History, s: Step, c': Cluster, h': History, q: NodeId, j: nat)
    requires AckInv(c, h) && Steps(c, h, s, c', h') && h' == Record(h, c.nodes[Actor(s)], s)
    requires var n := c.nodes[Actor(s)]; n.currentTerm in h.leaderLog && j > |h.leaderLog[n.currentTerm]|
    requires Acked(h', q, c.nodes[Actor(s)].currentTerm, j)
    ensures q == Actor(s) && Holds(h', c'.nodes[q].log, c.nodes[Actor(s)].currentTerm, j)
  {
    var t := c.nodes[Actor(s)].currentTerm;
    var a :| a in h'.acks && a.node == q && a.term == t && a.index >= j;
    if a in h.acks {
      assert false;
    }
    NewAckerHolds(h', c'.nodes[Actor(s)], a, j);
  }

  lemma NewSlotChoice(c: Cluster, h: History, s: Step, c': Cluster, h': History, j: nat)
    requires VoteInv(c, h) && AckInv(c, h) && Steps(c, h, s, c', h') && Extends(c.nodes[Actor(s)], s)
    requires h' == Record(h, c.nodes[Actor(s)], s) && ActorLogKnows(h, c.nodes[Actor(s)], s)
    requires j == |c.nodes[Actor(s)].log| + 1 && Choosable(c', h', c.nodes[Actor(s)].currentTerm, j)
    ensures ChoiceOk(c', h', c.nodes[Actor(s)].currentTerm, j)
  {
    hide VoteInv, AckInv, Steps, Choosable, ChoiceOk, Acked, Holds, Record, ActorLogKnows;
    StepsIs(c, h, s, c', h');
    var n := c.nodes[Actor(s)];
    var t := n.currentTerm;
    LeaderExtends(h, n, s);
    forall t' | t < t' && t' in h'.leaderLog ensures false {
      NewSlotHasNoLaterLeader(c, h, s, c', h', t');
    }
    forall q | q in c'.nodes && Acked(h', q, t, j) ensures Holds(h', c'.nodes[q].log, t, j) {
      NewSlotAckers(c, h, s, c', h', q, j);
    }
    forall v, t' | t < t' && (v, t') in h'.ballots && Acked(h', v, t, j) ensures false {
      NewSlotAckers(c, h, s, c', h', v, j);
    }
    ChoiceOkIs(c', h', t, j);
  }

  lemma LeaderExtends(h: History, n: NodeState, s: Step)
    requires ActorLogKnows(h, n, s) && Extends(n, s)
    ensures n.currentTerm in h.leaderLog && h.leaderLog[n.currentTerm] == n.log
    ensures forall t :: n.currentTerm < t && t in Record(h, n, s).leaderLog ==> t in h.leaderOf
    ensures forall t :: (n.id, t) in Record(h, n, s).ballots ==> t <= n.currentTerm
  {
    hide GoodLog, AppendOk;
  }

  lemma ChoiceOkIs(c: Cluster, h: History, t: nat, j: nat)
    requires forall t' :: t < t' && t' in h.leaderLog ==> Holds(h, h.leaderLog[t'], t, j)
    requires forall q :: q in c.nodes && Acked(h, q, t, j) ==> Holds(h, c.nodes[q].log, t, j)
    requires forall v, t' :: t < t' && (v, t') in h.ballots && Acked(h, v, t, j) ==>
      Holds(h, h.ballots[(v, t')].log, t, j)
    ensures ChoiceOk(c, h, t, j)
  {
  }

  // ---- all slots ----

  lemma OldSlotChoice(c: Cluster, h: History, s: Step, c': Cluster, h': History, t: nat, j: nat)
    requires ActorReady(c, s) && Actor(s) in c'.nodes && c'.nodes.Keys == c'.members
    requires c'.nodes[Actor(s)] == Act(c.nodes[Actor(s)], s) && h' == Record(h, c.nodes[Actor(s)], s)
    requires VoteInv(c, h) && LogInv(c, h) && AckInv(c, h) && Steps(c, h, s, c', h')
    requires Choosable(c, h, t, j) && Choosable(c', h', t, j) && ChoiceOk(c, h, t, j)
    ensures ChoiceOk(c', h', t, j)
  {
    hide VoteInv, LogInv, AckInv, Steps, Choosable, ChoiceOk, Record, Act, Holds, Acked, ActorKnows, NodesMove;
    StepsIs(c, h, s, c', h');
    ChoiceIs(c, h, t, j);
    InvGivesActor(c, h, s);
    forall t' | t < t' && t' in h'.leaderLog ensures Holds(h', h'.leaderLog[t'], t, j) {
      LaterLeadersHold(c, h, s, c', h', t, j, t');
    }
    forall q | q in c'.nodes && Acked(h', q, t, j) ensures Holds(h', c'.nodes[q].log, t, j) {
      AckersHold(c, h, s, c', h', t, j, q);
    }
    forall v, t' | t < t' && (v, t') in h'.ballots && Acked(h', v, t, j)
      ensures Holds(h', h'.ballots[(v, t')].log, t, j)
    {
      VoterHadIt(c, h, s, c', h', t, j, v, t');
    }
    ChoiceOkIs(c', h', t, j);
  }

  /** Nothing of a term's own is in the log its leader starts with. */
  lemma FreshLeaderHasNoSlot(h: History, n: NodeState, s: Step, j: nat)
    requires ActorLogKnows(h, n, s) && Wins(n, s) && 1 <= j <= |n.log|
    ensures n.log[j - 1].term != n.currentTerm
  {
    assert SlotAgrees(h.leaderLog, n.log, j - 1);
  }

  /** Where a choosable slot can come from. */
  lemma SlotOrigin(h: History, n: NodeState, s: Step, t: nat, j: nat)
    requires ActorLogKnows(h, n, s)
    requires var h' := Record(h, n, s);
      t in h'.leaderOf && t in h'.leaderLog && 1 <= j <= |h'.leaderLog[t]| && h'.leaderLog[t][j - 1].term == t
    ensures || (t in h.leaderOf && t in h.leaderLog && j <= |h.leaderLog[t]|)
            || (Extends(n, s) && t == n.currentTerm && j == |n.log| + 1)
  {
    if Wins(n, s) && t == n.currentTerm {
      FreshLeaderHasNoSlot(h, n, s, j);
    }
  }

  lemma SlotChoice(c: Cluster, h: History, s: Step, c': Cluster, h': History, t: nat, j: nat)
    requires ActorReady(c, s) && Actor(s) in c'.nodes && c'.nodes.Keys == c'.members
    requires c'.nodes[Actor(s)] == Act(c.nodes[Actor(s)], s) && h' == Record(h, c.nodes[Actor(s)], s)
    requires VoteInv(c, h) && LogInv(c, h) && AckInv(c, h) && ChoiceInv(c, h) && Steps(c, h, s, c', h')
    requires ActorLogKnows(h, c.nodes[Actor(s)], s) && Choosable(c', h', t, j)
    ensures ChoiceOk(c', h', t, j)
  {
    hide VoteInv, LogInv, AckInv, Record, Act, ChoiceOk, ActorLogKnows, Supporters, Majority, Holds;
    SlotOrigin(h, c.nodes[Actor(s)], s, t, j);
    if t in h.leaderOf && t in h.leaderLog && j <= |h.leaderLog[t]| {
      ChoosableBefore(c, h, s, c', h', t, j);
      OldSlotChoice(c, h, s, c', h', t, j);
    } else {
      NewSlotChoice(c, h, s, c', h', j);
    }
  }

  lemma ChoiceInvKept(c: Cluster, h: History, s: Step, c': Cluster, h': History)
    requires ActorReady(c, s) && Actor(s) in c'.nodes && c'.nodes.Keys == c'.members
    requires c'.nodes[Actor(s)] == Act(c.nodes[Actor(s)], s) && h' == Record(h, c.nodes[Actor(s)], s)
    requires VoteInv(c, h) && LogInv(c, h) && AckInv(c, h) && ChoiceInv(c, h) && Steps(c, h, s, c', h')
    requires ActorLogKnows(h, c.nodes[Actor(s)], s)
    ensures ChoiceInv(c', h')
  {
    hide VoteInv, LogInv, AckInv, Record, Act, ChoiceOk, ActorLogKnows, Choosable, HistoryGrows, LogsGrow;
    forall t, j | Choosable(c', h', t, j) ensures ChoiceOk(c', h', t, j) {
      SlotChoice(c, h, s, c', h', t, j);
    }
  }

  lemma ReadyToAct(c: Cluster, h: History, s: Step)
    requires VoteInv(c, h) && LogInv(c, h) && Enabled(c, s)
    ensures WellFormed(c) && ActorReady(c, s) && Next(c, s).nodes[Actor(s)] == Act(c.nodes[Actor(s)], s)
    ensures forall p :: p in c.net && p.AppRep? ==> p.areq.term in h.leaderLog
  {
    hide Act, Emit, AppendOk, BallotOk, NodeVotesOk, ElectedOk, PacketOk, NodeLogOk, LeaderLogOk, GoodLog;
    forall p | p in c.net && p.AppRep? ensures p.areq.term in h.leaderLog {
      RequestTerm(h, p.areq);
    }
  }

  lemma RequestTerm(h: History, req: AppendRequest)
    requires AppendOk(h, req)
    ensures req.term in h.leaderLog
  {
  }

  lemma InvKept(c: Cluster, h: History, s: Step)
    requires Inv(c, h) && Enabled(c, s)
    ensures Inv(Next(c, s), Record(h, c.nodes[Actor(s)], s))
  {
    hide VoteInv, LogInv, AckInv, ChoiceInv, Record, Next, Steps, ActorLogKnows, OwnGrowth;
    ReadyToAct(c, h, s);
    var c', h' := Next(c, s), Record(h, c.nodes[Actor(s)], s);
    StepSteps(c, h, s);
    StepsIs(c, h, s, c', h');
    InvGivesActorLog(c, h, s);
    RecordOwnGrowth(h, c.nodes[Actor(s)], s);
    VoteInvKept(c, h, s);
    LogInvKept(c, h, s);
    AckInvKept(c, h, s, c', h');
    ChoiceInvKept(c, h, s, c', h');
  }

  lemma InvStart(members: set<NodeId>)
    requires "" !in members
    ensures Inv(Start(members), NoHistory())
  {
    hide LogInv, VoteInv, Supporters;
    LogInvStart(members);
    VoteInvStart(members);
  }

  lemma VoteInvStart(members: set<NodeId>)
    requires "" !in members
    ensures VoteInv(Start(members), NoHistory())
  {
    hide WellFormed, ForPeers;
  }

  lemma LogInvStart(members: set<NodeId>)
    requires "" !in members
    ensures LogInv(Start(members), NoHistory())
  {
    assert GoodLog(NoHistory().leaderLog, [SENTINEL]);
  }

  /** Every reachable cluster satisfies the invariant. */
  lemma {:induction false} RunInv(members: set<NodeId>, steps: seq<Step>)
    requires ValidRun(members, steps)
    ensures Inv(Exec(members, steps), HistoryOf(members, steps))
    decreases |steps|
  {
    if steps == [] {
      InvStart(members);
    } else {
      var before := steps[..|steps| - 1];
      RunInv(members, before);
      InvKept(Exec(members, before), HistoryOf(members, before), steps[|steps| - 1]);
    }
  }
}
