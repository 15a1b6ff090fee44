/**
 What a run has done so far, recorded beside the cluster and read by no node. All the
 invariants of the Raft proofs are stated over a cluster and its history.
 */
module RaftHistory {
  import opened RaftTypes
  import opened RaftHandlers
  import opened RaftCluster

  /** A vote: who it went to, and the voter's log when it was first cast. */
  datatype Ballot = Ballot(candidate: NodeId, log: Log)

  /** `node` held the first `index` slots of the leader of `term`, while in that term. */
  datatype Ack = Ack(node: NodeId, term: nat, index: nat)

  /** The leader of `term` moved its commit index to `index`. */
  datatype Commit = Commit(term: nat, index: nat)

  datatype History = History(
    leaderLog: map<nat, Log>,                  // the log of each term's leader, as long as it led
    leaderOf: map<nat, NodeId>,
    quorum: map<nat, set<NodeId>>,             // who elected it
    ballots: map<(NodeId, nat), Ballot>,
    acks: set<Ack>,
    commits: set<Commit>)

  function NoHistory(): History {
    History(map[0 := [SENTINEL]], map[], map[], map[], {}, {})
  }

  /** The step in which candidate `n` counts the vote that makes it leader. */
  predicate Wins(n: NodeState, s: Step) {
    && s.Deliver? && s.packet.VoteRep?
    && n.role == Candidate && s.packet.vrep.term == n.currentTerm && s.packet.vrep.granted
    && |n.votes + {s.packet.src}| > |n.peers| / 2
  }

  /** The step in which leader `n` extends its log. */
  predicate Extends(n: NodeState, s: Step) {
    s.ClientPropose? && n.role == Leader
  }

  function BallotsAfter(ballots: map<(NodeId, nat), Ballot>, n: NodeState, s: Step): map<(NodeId, nat), Ballot> {
    match s
    case Timeout(_) => ballots[(n.id, n.currentTerm + 1) := Ballot(n.id, n.log)]
    case Deliver(VoteReq(_, _, req)) =>
      if HandleVote(n, req).1.granted && (n.id, req.term) !in ballots
      then ballots[(n.id, req.term) := Ballot(req.candidate, n.log)]
      else ballots
    case _ => ballots
  }

  function LeaderLogAfter(leaderLog: map<nat, Log>, n: NodeState, s: Step): map<nat, Log> {
    if Wins(n, s) then leaderLog[n.currentTerm := n.log]
    else if Extends(n, s) then leaderLog[n.currentTerm := Propose(n, s.command).log]
    else leaderLog
  }

  /** The log of a term's leader so far. */
  function TermLog(leaderLog: map<nat, Log>, t: nat): Log {
    if t in leaderLog then leaderLog[t] else [SENTINEL]
  }

  ghost function AcksAfter(h: History, n: NodeState, s: Step): set<Ack>
    requires NodeOk(n)
  {
    if Wins(n, s) then h.acks + {Ack(n.id, n.currentTerm, |n.log|)}
    else if Extends(n, s) then h.acks + {Ack(n.id, n.currentTerm, |n.log| + 1)}
    else if s.Deliver? && s.packet.AppReq? && HandleAppend(n, s.packet.areq).1.success
    then h.acks + {AckOfRequest(h.leaderLog, n.id, s.packet.areq)}
    else h.acks
  }

  /** What accepting a request acknowledges. */
  ghost function AckOfRequest(leaderLog: map<nat, Log>, node: NodeId, req: AppendRequest): Ack {
    Ack(node, req.term, Proven(TermLog(leaderLog, req.term), req))
  }

  function CommitsAfter(commits: set<Commit>, n: NodeState, s: Step): set<Commit>
    requires NodeOk(n)
  {
    if s.Deliver? && s.packet.AppRep? && Act(n, s).commitIndex > n.commitIndex
    then commits + {Commit(n.currentTerm, Act(n, s).commitIndex)}
    else commits
  }

  /** The history after node `n` took step `s`. */
  ghost function Record(h: History, n: NodeState, s: Step): History
    requires NodeOk(n)
  {
    History(
      LeaderLogAfter(h.leaderLog, n, s),
      if Wins(n, s) then h.leaderOf[n.currentTerm := n.id] else h.leaderOf,
      if Wins(n, s) then h.quorum[n.currentTerm := n.votes + {s.packet.src}] else h.quorum,
      BallotsAfter(h.ballots, n, s),
      AcksAfter(h, n, s),
      CommitsAfter(h.commits, n, s))
  }

  ghost function HistoryOf(members: set<NodeId>, steps: seq<Step>): History
    requires ValidRun(members, steps)
  {
    if steps == [] then NoHistory()
    else
      var before := steps[..|steps| - 1];
      var s := steps[|steps| - 1];
      LastActor(members, steps);
      Record(HistoryOf(members, before), Exec(members, before).nodes[Actor(s)], s)
  }

  // ---- shapes of logs ----

  /** Sentinel first, each entry at its own slot, terms never decreasing and positive
      after the sentinel. */
  ghost predicate LogShape(log: Log) {
    && log[0] == SENTINEL
    && (forall k :: 0 <= k < |log| ==> log[k].index == k)
    && (forall k :: 1 <= k < |log| ==> log[k].term >= 1)
    && (forall j, k :: 0 <= j <= k < |log| ==> log[j].term <= log[k].term)
  }

  /** Up to slot k, `log` is the log of the leader that created its entry at k. */
  ghost predicate SlotAgrees(leaderLog: map<nat, Log>, log: Log, k: nat)
    requires k < |log|
  {
    var t := log[k].term;
    t in leaderLog && k < |leaderLog[t]| && log[..k + 1] == leaderLog[t][..k + 1]
  }

  ghost predicate GoodLog(leaderLog: map<nat, Log>, log: Log) {
    LogShape(log) && forall k :: 0 <= k < |log| ==> SlotAgrees(leaderLog, log, k)
  }

  // ---- elections ----

  /** `n` is a candidate of term t, and t has no leader yet. */
  ghost predicate Running(c: Cluster, h: History, n: NodeId, t: nat) {
    n in c.nodes && c.nodes[n].role == Candidate && c.nodes[n].currentTerm == t && t !in h.leaderOf
  }

  ghost predicate VotedFor(h: History, v: NodeId, t: nat, candidate: NodeId) {
    (v, t) in h.ballots && h.ballots[(v, t)].candidate == candidate
  }

  ghost predicate Majority(c: Cluster, q: set<NodeId>) {
    q <= c.members && 2 * |q| > |c.members|
  }

  ghost predicate BallotOk(c: Cluster, h: History, v: NodeId, t: nat)
    requires (v, t) in h.ballots
  {
    var b := h.ballots[(v, t)];
    && v in c.nodes && b.candidate in c.nodes
    && t <= c.nodes[v].currentTerm && t <= c.nodes[b.candidate].currentTerm
    && (t == c.nodes[v].currentTerm ==> c.nodes[v].votedFor == b.candidate)
    && (Running(c, h, b.candidate, t) ==>
          UpToDate(b.log, LastIndex(c.nodes[b.candidate].log), LastTerm(c.nodes[b.candidate].log)))
  }

  ghost predicate NodeVotesOk(h: History, n: NodeState) {
    && (n.votedFor != "" ==> VotedFor(h, n.id, n.currentTerm, n.votedFor))
    && (n.role == Leader ==> n.currentTerm in h.leaderOf && h.leaderOf[n.currentTerm] == n.id)
    && (n.role == Candidate ==>
          && n.currentTerm >= 1
          && n.votes <= n.peers
          && forall v :: v in n.votes ==> VotedFor(h, v, n.currentTerm, n.id))
  }

  ghost predicate ElectedOk(c: Cluster, h: History, t: nat)
    requires t in h.leaderOf
  {
    var n := h.leaderOf[t];
    && t >= 1
    && n in c.nodes && t <= c.nodes[n].currentTerm
    && (t == c.nodes[n].currentTerm ==> c.nodes[n].role == Leader)
    && t in h.quorum && Majority(c, h.quorum[t])
    && forall v :: v in h.quorum[t] ==> VotedFor(h, v, t, n)
  }

  ghost predicate PacketOk(c: Cluster, h: History, p: Packet) {
    if p.AppReq? || p.AppRep? then
      && p.areq.leader == (if p.AppReq? then p.src else p.dst)
      && p.areq.term in h.leaderOf && h.leaderOf[p.areq.term] == p.areq.leader
    else
      && p.vreq.candidate in c.nodes
      && p.vreq.candidate == (if p.VoteReq? then p.src else p.dst)
      && p.vreq.term <= c.nodes[p.vreq.candidate].currentTerm
      && (p.VoteReq? && Running(c, h, p.src, p.vreq.term) ==>
            var log := c.nodes[p.src].log;
            p.vreq.lastLogIndex == LastIndex(log) && p.vreq.lastLogTerm == LastTerm(log))
      && (p.VoteRep? && p.vrep.granted ==>
            p.vrep.term <= p.vreq.term && VotedFor(h, p.src, p.vreq.term, p.dst))
  }

  ghost predicate VoteInv(c: Cluster, h: History) {
    && WellFormed(c)
    && (forall v, t :: (v, t) in h.ballots ==> BallotOk(c, h, v, t))
    && (forall n :: n in c.nodes ==> NodeVotesOk(h, c.nodes[n]))
    && (forall t :: t in h.leaderOf ==> ElectedOk(c, h, t))
    && (forall p :: p in c.net ==> PacketOk(c, h, p))
  }

  // ---- logs ----

  ghost predicate LeaderLogOk(h: History, t: nat)
    requires t in h.leaderLog
  {
    GoodLog(h.leaderLog, h.leaderLog[t]) && LastTerm(h.leaderLog[t]) <= t
  }

  ghost predicate NodeLogOk(h: History, n: NodeState) {
    && GoodLog(h.leaderLog, n.log)
    && LastTerm(n.log) <= n.currentTerm
    && (n.role == Leader ==> n.currentTerm in h.leaderLog && h.leaderLog[n.currentTerm] == n.log)
  }

  /** An append request quotes the log of its term's leader, or points past its end. */
  ghost predicate AppendOk(h: History, req: AppendRequest) {
    && req.term in h.leaderLog
    && var leader := h.leaderLog[req.term];
    && (req.entries != [] ==>
          && req.prevLogIndex + |req.entries| <= |leader|
          && leader[req.prevLogIndex..req.prevLogIndex + |req.entries|] == req.entries)
    && (req.prevLogIndex > 0 ==>
          || (req.prevLogIndex <= |leader| && req.prevLogTerm == leader[req.prevLogIndex - 1].term)
          || (req.prevLogTerm == 0 && req.entries == [] && req.prevLogIndex >= 2))
  }

  ghost predicate LogInv(c: Cluster, h: History) {
    && 0 in h.leaderLog && h.leaderLog[0] == [SENTINEL]
    && h.leaderLog.Keys == h.leaderOf.Keys + {0}
    && (forall t :: t in h.leaderLog ==> LeaderLogOk(h, t))
    && (forall n :: n in c.nodes ==> NodeLogOk(h, c.nodes[n]))
    && (forall k :: k in h.ballots ==> GoodLog(h.leaderLog, h.ballots[k].log))
    && (forall p :: p in c.net && (p.AppReq? || p.AppRep?) ==> AppendOk(h, p.areq))
  }

  // ---- acknowledgements and commitment ----

  ghost predicate AckOk(c: Cluster, h: History, a: Ack) {
    && a.node in c.nodes && a.term in h.leaderOf && a.term in h.leaderLog
    && a.index <= |h.leaderLog[a.term]| && a.term <= c.nodes[a.node].currentTerm
  }

  ghost predicate AckInv(c: Cluster, h: History) {
    && (forall a :: a in h.acks ==> AckOk(c, h, a))
    && (forall p :: p in c.net && p.AppRep? && p.arep.success ==>
          && p.arep.term <= p.areq.term
          && AckOfRequest(h.leaderLog, p.src, p.areq) in h.acks)
  }

  ghost predicate Acked(h: History, q: NodeId, t: nat, j: nat) {
    exists a :: a in h.acks && a.node == q && a.term == t && a.index >= j
  }

  /** Members that hold the first j slots of term t's leader, or could still come to. */
  ghost function Supporters(c: Cluster, h: History, t: nat, j: nat): set<NodeId>
    requires c.nodes.Keys == c.members
  {
    set q | q in c.members && (c.nodes[q].currentTerm <= t || Acked(h, q, t, j))
  }

  /** Slot j-1 was created by the leader of t, and a majority holds it or still could. */
  ghost predicate Choosable(c: Cluster, h: History, t: nat, j: nat)
    requires c.nodes.Keys == c.members
  {
    && t in h.leaderOf && t in h.leaderLog
    && 1 <= j <= |h.leaderLog[t]| && h.leaderLog[t][j - 1].term == t
    && Majority(c, Supporters(c, h, t, j))
  }

  /** `log` starts with the first j slots of the leader of t. */
  ghost predicate Holds(h: History, log: Log, t: nat, j: nat) {
    t in h.leaderLog && j <= |h.leaderLog[t]| && j <= |log| && log[..j] == h.leaderLog[t][..j]
  }

  /** What could be chosen in t is in the log of every later leader, of every node that
      acknowledged it, and was in the log of every such node when it voted later. */
  ghost predicate ChoiceOk(c: Cluster, h: History, t: nat, j: nat) {
    && (forall t' :: t < t' && t' in h.leaderLog ==> Holds(h, h.leaderLog[t'], t, j))
    && (forall q :: q in c.nodes && Acked(h, q, t, j) ==> Holds(h, c.nodes[q].log, t, j))
    && (forall v, t' :: t < t' && (v, t') in h.ballots && Acked(h, v, t, j) ==>
          Holds(h, h.ballots[(v, t')].log, t, j))
  }

  ghost predicate ChoiceInv(c: Cluster, h: History)
    requires c.nodes.Keys == c.members
  {
    forall t, j :: Choosable(c, h, t, j) ==> ChoiceOk(c, h, t, j)
  }

  ghost predicate Inv(c: Cluster, h: History) {
    VoteInv(c, h) && LogInv(c, h) && AckInv(c, h) && ChoiceInv(c, h)
  }
}
