/**
 What one handler, timeout or client call of a RaftNode does, as functions on NodeState.
 The class RaftNode in raft_node.dfy is proved to compute exactly these.
 */
module RaftHandlers {
  import opened Common
  import opened RaftTypes

  /** What the constructor establishes and every handler keeps: enough for no index to
      underflow and no slice to leave its bounds. */
  ghost predicate NodeOk(n: NodeState) {
    && n.commitIndex <= n.lastApplied == |n.applied|
    && n.peers - {n.id} <= n.nextIndex.Keys
    && forall p :: p in n.nextIndex ==> n.nextIndex[p] >= 1
  }

  /** A handler changes neither identity nor membership, and keeps NodeOk. */
  ghost predicate Keeps(n: NodeState, n': NodeState) {
    n'.id == n.id && n'.peers == n.peers && (NodeOk(n) ==> NodeOk(n'))
  }

  /** `m` with every peer but the node itself set to `value`. */
  function ForPeers(m: map<NodeId, nat>, id: NodeId, peers: set<NodeId>, value: nat): map<NodeId, nat> {
    m + map p | p in peers && p != id :: value
  }

  function Init(id: NodeId, peers: set<NodeId>): (n: NodeState)
    ensures NodeOk(n)
  {
    NodeState(id, peers, Follower, 0, "", "", [SENTINEL], 0, 0,
              ForPeers(map[], id, peers, 1), ForPeers(map[], id, peers, 0), {}, [])
  }

  // ---- elections ----

  function StartElection(n: NodeState): (n': NodeState)
    ensures Keeps(n, n')
  {
    n.(currentTerm := n.currentTerm + 1, role := Candidate, votedFor := n.id, votes := {n.id})
  }

  function BuildVote(n: NodeState): VoteRequest {
    VoteRequest(n.currentTerm, n.id, LastIndex(n.log), LastTerm(n.log))
  }

  /** Adopting a higher term. */
  function StepDown(n: NodeState, term: nat): NodeState {
    n.(currentTerm := term, role := Follower, votedFor := "")
  }

  function HandleVote(n: NodeState, req: VoteRequest): (r: (NodeState, VoteReply))
    ensures Keeps(n, r.0)
  {
    if req.term < n.currentTerm then (n, VoteReply(n.currentTerm, false))
    else
      var m := if req.term > n.currentTerm then StepDown(n, req.term).(leaderID := "") else n;
      if (m.votedFor == "" || m.votedFor == req.candidate) && UpToDate(m.log, req.lastLogIndex, req.lastLogTerm)
      then (m.(votedFor := req.candidate), VoteReply(n.currentTerm, true))
      else (m, VoteReply(n.currentTerm, false))
  }

  function BecomeLeader(n: NodeState): (n': NodeState)
    ensures Keeps(n, n')
  {
    n.(role := Leader,
       leaderID := n.id,
       nextIndex := ForPeers(n.nextIndex, n.id, n.peers, LastIndex(n.log) + 1),
       matchIndex := ForPeers(n.matchIndex, n.id, n.peers, 0))
  }

  function HandleVoteReply(n: NodeState, peer: NodeId, reply: VoteReply): (n': NodeState)
    ensures Keeps(n, n')
  {
    if reply.term > n.currentTerm then StepDown(n, reply.term).(leaderID := "")
    else if n.role != Candidate || reply.term != n.currentTerm || !reply.granted then n
    else
      var m := n.(votes := n.votes + {peer});
      if |m.votes| > |n.peers| / 2 then BecomeLeader(m) else m
  }

  // ---- log replication ----

  function BuildAppend(n: NodeState, peer: NodeId, heartbeat: bool): AppendRequest
    requires Lookup(n.nextIndex, peer) >= 1
  {
    var next := Lookup(n.nextIndex, peer);
    var entries := if !heartbeat && next <= |n.log| then n.log[next - 1..] else [];
    AppendRequest(n.currentTerm, n.id, next - 1, TermAt(n.log, next - 1), entries, n.commitIndex)
  }

  function Propose(n: NodeState, command: Command): (n': NodeState)
    ensures Keeps(n, n')
  {
    if n.role != Leader then n
    else n.(log := n.log + [Entry(n.currentTerm, LastIndex(n.log) + 1, command)])
  }

  /** Entries already present with the same term are kept; from the first slot that is
      missing or has another term, the rest of the log is replaced by the new entries. */
  function Merge(log: seq<Entry>, prev: nat, entries: seq<Entry>): (r: seq<Entry>)
    requires prev <= |log|
    ensures |r| >= prev + |entries|
    decreases |entries|
  {
    if entries == [] then log
    else if prev < |log| && log[prev].term == entries[0].term then Merge(log, prev + 1, entries[1..])
    else log[..prev] + entries
  }

  function ApplyLogs(n: NodeState): NodeState
    requires n.lastApplied < n.commitIndex ==> n.commitIndex <= |n.log|
  {
    if n.lastApplied < n.commitIndex
    then n.(lastApplied := n.commitIndex, applied := n.applied + n.log[n.lastApplied..n.commitIndex])
    else n
  }

  /** The consistency check on the entry before the new ones. */
  predicate PrevMatches(log: Log, req: AppendRequest) {
    req.prevLogIndex > 0 ==>
      req.prevLogIndex <= LastIndex(log) && TermAt(log, req.prevLogIndex) == req.prevLogTerm
  }

  /** The node after the term and leader fields were brought up to date. */
  function Adopt(n: NodeState, req: AppendRequest): NodeState {
    (if req.term > n.currentTerm then StepDown(n, req.term) else n).(leaderID := req.leader)
  }

  function HandleAppend(n: NodeState, req: AppendRequest): (r: (NodeState, AppendReply))
    requires NodeOk(n)
    ensures Keeps(n, r.0)
  {
    if req.term < n.currentTerm then (n, AppendReply(n.currentTerm, false))
    else if !PrevMatches(n.log, req) then (Adopt(n, req), AppendReply(n.currentTerm, false))
    else
      var m := Adopt(n, req).(log := Merge(n.log, req.prevLogIndex, req.entries));
      (if req.leaderCommit > m.commitIndex
       then ApplyLogs(m.(commitIndex := Min(req.leaderCommit, LastIndex(m.log))))
       else m,
       AppendReply(n.currentTerm, true))
  }

  // ---- what accepting a request proves ----

  /** The slots a request quotes, up to its last entry; the sentinel is always shared. */
  function Reach(req: AppendRequest): nat {
    if req.prevLogIndex + |req.entries| == 0 then 1 else req.prevLogIndex + |req.entries|
  }

  /** A slot of `log` from `from` on has this term. */
  ghost predicate Occurs(log: Log, from: nat, term: nat) {
    exists k :: from <= k < |log| && log[k].term == term
  }

  /** Every term from that of the entry before the request up to the leader's own occurs in
      the leader's log from there on, so no other leader can have filled that slot. */
  ghost predicate NoGap(leader: Log, req: AppendRequest) {
    forall u :: (if req.prevLogTerm == 0 then 1 else req.prevLogTerm) <= u < req.term ==>
      Occurs(leader, req.prevLogIndex, u)
  }

  /** How many of its own slots a leader with this log may take for held by a node that
      accepts the request. The check on the previous entry demands one slot beyond it, and
      without a gap that slot can only be the leader's. */
  ghost function Proven(leader: Log, req: AppendRequest): nat {
    if req.entries == [] && req.prevLogIndex >= 1 && NoGap(leader, req) then req.prevLogIndex + 1 else Reach(req)
  }

  // ---- commitment ----

  function MatchedPeers(n: NodeState, i: nat): set<NodeId> {
    set p | p in n.peers && p != n.id && Lookup(n.matchIndex, p) >= i
  }

  /** A slot of the current term that a majority, the leader included, is counted to hold. */
  predicate Committable(n: NodeState, i: nat) {
    1 <= i <= |n.log| && n.log[i - 1].term == n.currentTerm && 1 + |MatchedPeers(n, i)| > |n.peers| / 2
  }

  /** The highest committable index in (commitIndex, i], or the commit index itself. */
  function Highest(n: NodeState, i: nat): (r: nat)
    ensures r == n.commitIndex || (n.commitIndex < r <= i && Committable(n, r))
    ensures forall j :: r < j <= i ==> !Committable(n, j)  || j <= n.commitIndex
  {
    if i <= n.commitIndex then n.commitIndex
    else if Committable(n, i) then i
    else Highest(n, i - 1)
  }

  function TryCommit(n: NodeState): (n': NodeState)
    requires NodeOk(n)
    ensures Keeps(n, n')
  {
    ApplyLogs(n.(commitIndex := Highest(n, LastIndex(n.log))))
  }

  /** A reply that the leader counts. */
  predicate Counted(n: NodeState, reply: AppendReply) {
    n.role == Leader && reply.term == n.currentTerm && reply.success
  }

  function HandleAppendReply(n: NodeState, peer: NodeId, reply: AppendReply): (n': NodeState)
    requires NodeOk(n)
    ensures Keeps(n, n')
  {
    if reply.term > n.currentTerm then StepDown(n, reply.term).(leaderID := "")
    else if n.role != Leader || reply.term != n.currentTerm then n
    else
      var next := Lookup(n.nextIndex, peer);
      if reply.success then
        TryCommit(n.(nextIndex := n.nextIndex[peer := next + 1], matchIndex := n.matchIndex[peer := next]))
      else if next > 1 then
        n.(nextIndex := n.nextIndex[peer := next - 1])
      else n
  }
}
