/**
 A cluster of at least two nodes can always go on: from every state of every run some
 continuation elects a leader, brings every node's log up to the leader's and commits a
 further command. A single node never leads.
 */
module RaftProgress {
  import opened Common
  import opened RaftTypes
  import opened RaftHandlers
  import opened RaftCluster
  import opened RaftHistory
  import opened RaftElection
  import opened RaftLog
  import opened RaftCommit

  // ---- one handler call ----

  /** Of two logs one is at least as up to date as the other. */
  lemma UpToDateTotal(a: Log, b: Log)
    ensures UpToDate(a, LastIndex(b), LastTerm(b)) || UpToDate(b, LastIndex(a), LastTerm(a))
  {
  }

  lemma UpToDateTransitive(a: Log, b: Log, c: Log)
    requires UpToDate(a, LastIndex(b), LastTerm(b)) && UpToDate(b, LastIndex(c), LastTerm(c))
    ensures UpToDate(a, LastIndex(c), LastTerm(c))
  {
  }

  /** A longer log with the same start is up to date, if terms never decrease. */
  lemma LongerIsUpToDate(a: Log, b: Log)
    requires a <= b && LastTerm(a) <= LastTerm(b)
    ensures UpToDate(a, LastIndex(b), LastTerm(b))
  {
  }

  /** A node that has not voted in the request's term grants every candidate that is at least
      as up to date, in its own term as well as in a new one, and asks no more than that. */
  lemma Grants(n: NodeState, req: VoteRequest)
    requires req.term >= n.currentTerm && (req.term == n.currentTerm ==> n.votedFor == "")
    ensures var (m, reply) := HandleVote(n, req);
      && (reply.granted <==> UpToDate(n.log, req.lastLogIndex, req.lastLogTerm))
      && reply.term == n.currentTerm && m.currentTerm == req.term && m.log == n.log
      && (reply.granted ==> m.votedFor == req.candidate) && (!reply.granted ==> m.votedFor == "")
  {
  }

  /** One that has voted in the term grants its candidate again and nobody else; an old request
      is refused and changes nothing. */
  lemma GrantsAgain(n: NodeState, req: VoteRequest)
    requires req.term <= n.currentTerm && (req.term == n.currentTerm ==> n.votedFor != "")
    ensures var (m, reply) := HandleVote(n, req);
      && (reply.granted <==> req.term == n.currentTerm && req.candidate == n.votedFor
                             && UpToDate(n.log, req.lastLogIndex, req.lastLogTerm))
      && m == n && reply.term == n.currentTerm
  {
  }

  /** The term a delivered message was sent in. */
  function TermOf(p: Packet): nat {
    match p
    case VoteReq(_, _, req) => req.term
    case VoteRep(_, _, reply, _) => reply.term
    case AppReq(_, _, req) => req.term
    case AppRep(_, _, reply, _) => reply.term
  }

  /** After any delivery a node is in the larger of its own and the message's term, and follows
      without a vote of its own when that term was new to it, except for the vote it may give
      right away. It knows the leader whose request it took and forgets it with a new term. Only
      a candidate's count of votes changes a role within a term. */
  lemma LargerTerm(n: NodeState, p: Packet)
    requires NodeOk(n)
    ensures var m := Act(n, Deliver(p));
      && m.currentTerm == (if TermOf(p) > n.currentTerm then TermOf(p) else n.currentTerm)
      && (TermOf(p) > n.currentTerm ==> m.role == Follower && (m.votedFor == "" || p.VoteReq?))
      && (TermOf(p) <= n.currentTerm && !p.VoteRep? ==> m.role == n.role)
      && (TermOf(p) < n.currentTerm ==> m == n)
      && (p.AppReq? && TermOf(p) >= n.currentTerm ==> m.leaderID == p.areq.leader)
      && (!p.AppReq? && TermOf(p) > n.currentTerm ==> m.leaderID == "")
  {
    hide Merge, ForPeers, Highest, UpToDate, PrevMatches, MatchedPeers;
    match p
    case VoteReq(_, _, _) =>
    case VoteRep(_, _, _, _) =>
    case AppReq(_, _, _) =>
    case AppRep(_, _, _, _) =>
  }

  /** A new leader counts nobody and starts every peer at its last slot. */
  lemma LeaderStarts(n: NodeState, peer: NodeId)
    requires peer in n.peers && peer != n.id
    ensures var m := BecomeLeader(n);
      && m.role == Leader && m.leaderID == n.id && m.currentTerm == n.currentTerm && m.log == n.log
      && Lookup(m.nextIndex, peer) == |n.log| && Lookup(m.matchIndex, peer) == 0
  {
  }

  /** A counted vote makes a leader exactly when the votes are more than half of the peers. */
  lemma VoteCounts(n: NodeState, peer: NodeId, reply: VoteReply)
    requires n.role == Candidate && reply.term == n.currentTerm && reply.granted
    ensures var m := HandleVoteReply(n, peer, reply);
      && m.votes == n.votes + {peer} && m.currentTerm == n.currentTerm && m.log == n.log
      && (m.role == Leader <==> 2 * |n.votes + {peer}| > |n.peers|) && (m.role != Leader ==> m.role == Candidate)
  {
  }

  /** Any other reply of the term, or of an older one, changes nothing. */
  lemma VoteIgnored(n: NodeState, peer: NodeId, reply: VoteReply)
    requires reply.term <= n.currentTerm && !(n.role == Candidate && reply.term == n.currentTerm && reply.granted)
    ensures HandleVoteReply(n, peer, reply) == n
  {
  }

  /** A request is accepted if and only if it is not of an older term and there is no entry
      before its own, or the node has that entry, with that term, and one more; the answer
      carries the term from before the request was seen. */
  lemma AppendAnswer(n: NodeState, req: AppendRequest)
    requires NodeOk(n)
    ensures var (m, reply) := HandleAppend(n, req);
      var prev := req.prevLogIndex;
      && (reply.success <==> req.term >= n.currentTerm
                             && (prev > 0 ==> prev < |n.log| && n.log[prev - 1].term == req.prevLogTerm))
      && reply.term == n.currentTerm && (!reply.success ==> m.log == n.log && m.commitIndex == n.commitIndex)
  {
    hide Merge;
  }

  /** A refused request moves the peer's next index back by one, down to the first slot; an
      accepted one moves it on. */
  lemma NextMoves(n: NodeState, peer: NodeId, reply: AppendReply)
    requires NodeOk(n) && n.role == Leader && reply.term == n.currentTerm && peer in n.nextIndex
    ensures var (m, next) := (HandleAppendReply(n, peer, reply), n.nextIndex[peer]);
      && peer in m.nextIndex
      && m.nextIndex[peer] == (if reply.success then next + 1 else if next > 1 then next - 1 else 1)
      && Lookup(m.matchIndex, peer) == (if reply.success then next else Lookup(n.matchIndex, peer))
      && m.role == Leader && m.currentTerm == n.currentTerm && m.log == n.log && m.id == n.id && m.peers == n.peers
      && (forall p :: p != peer ==> Lookup(m.matchIndex, p) == Lookup(n.matchIndex, p))
  {
    hide Highest;
  }

  // ---- continuing a run ----

  ghost predicate Reached(members: set<NodeId>, steps: seq<Step>, c: Cluster) {
    ValidRun(members, steps) && Exec(members, steps) == c
  }

  ghost predicate Prolongs(steps: seq<Step>, steps': seq<Step>) {
    steps <= steps'
  }

  lemma ProlongsSelf(a: seq<Step>)
    ensures Prolongs(a, a)
  {
  }

  lemma ProlongsMore(a: seq<Step>, b: seq<Step>, c: seq<Step>)
    requires Prolongs(a, b) && Prolongs(b, c)
    ensures Prolongs(a, c)
  {
  }

  lemma ReachedIs(members: set<NodeId>, steps: seq<Step>, c: Cluster) returns (h: History)
    requires Reached(members, steps, c)
    ensures WellFormed(c) && c.members == c.nodes.Keys == members
    ensures LogInv(c, h)
  {
    hide VoteInv, LogInv, AckInv, ChoiceInv, HistoryOf, ValidRun, Exec;
    RunInv(members, steps);
    h := HistoryOf(members, steps);
  }

  /** What a step of node n makes of the cluster. */
  ghost predicate Moved(c: Cluster, s: Step, c': Cluster)
    requires Actor(s) in c.nodes && NodeOk(c.nodes[Actor(s)])
    requires s.SendAppend? ==> s.peer in c.nodes[Actor(s)].peers && s.peer != c.nodes[Actor(s)].id
  {
    var n := c.nodes[Actor(s)];
    c'.members == c.members && c'.nodes == c.nodes[Actor(s) := Act(n, s)] && c'.net == c.net + Emit(n, s)
  }

  lemma Do(members: set<NodeId>, steps: seq<Step>, c: Cluster, s: Step) returns (c': Cluster)
    requires Reached(members, steps, c) && WellFormed(c) && Enabled(c, s) && Actor(s) in c.nodes
    ensures Reached(members, steps + [s], c') && WellFormed(c') && Moved(c, s, c')
  {
    hide Act, Emit, ValidRun, Exec;
    ExtendRun(members, steps, s);
    c' := Next(c, s);
  }

  // ---- one round of replication ----

  lemma SendOne(members: set<NodeId>, steps: seq<Step>, c: Cluster, x: NodeId, y: NodeId)
    returns (steps': seq<Step>, c': Cluster)
    requires Reached(members, steps, c) && WellFormed(c) && x in c.nodes && y in c.nodes && x != y
    requires c.nodes[x].role == Leader
    ensures Prolongs(steps, steps') && |steps'| == |steps| + 1 && Reached(members, steps', c') && WellFormed(c')
    ensures c'.members == c.members && c'.nodes == c.nodes && AppReq(x, y, BuildAppend(c.nodes[x], y, false)) in c'.net
  {
    hide Reached, BuildAppend;
    var s := SendAppend(x, y, false);
    c' := Do(members, steps, c, s);
    steps' := steps + [s];
    assert c'.nodes == c.nodes;
  }

  lemma AnswerOne(members: set<NodeId>, steps: seq<Step>, c: Cluster, x: NodeId, y: NodeId, req: AppendRequest)
    returns (steps': seq<Step>, c': Cluster)
    requires Reached(members, steps, c) && WellFormed(c) && x in c.nodes && y in c.nodes && x != y
    requires AppReq(x, y, req) in c.net
    ensures Prolongs(steps, steps') && |steps'| == |steps| + 1 && Reached(members, steps', c') && WellFormed(c')
    ensures c'.members == c.members && c'.nodes == c.nodes[y := HandleAppend(c.nodes[y], req).0]
    ensures AppRep(y, x, HandleAppend(c.nodes[y], req).1, req) in c'.net
  {
    hide Reached, HandleAppend;
    var s := Deliver(AppReq(x, y, req));
    c' := Do(members, steps, c, s);
    steps' := steps + [s];
  }

  lemma ReadOne(members: set<NodeId>, steps: seq<Step>, c: Cluster, x: NodeId, y: NodeId, reply: AppendReply,
                req: AppendRequest)
    returns (steps': seq<Step>, c': Cluster)
    requires Reached(members, steps, c) && WellFormed(c) && x in c.nodes && y in c.nodes && x != y
    requires AppRep(y, x, reply, req) in c.net
    ensures Prolongs(steps, steps') && |steps'| == |steps| + 1 && Reached(members, steps', c') && WellFormed(c')
    ensures c'.members == c.members && c'.nodes == c.nodes[x := HandleAppendReply(c.nodes[x], y, reply)]
  {
    hide Reached, HandleAppendReply;
    var s := Deliver(AppRep(y, x, reply, req));
    c' := Do(members, steps, c, s);
    steps' := steps + [s];
  }

  lemma NodeIsOk(c: Cluster, n: NodeId)
    requires WellFormed(c) && n in c.nodes
    ensures NodeOk(c.nodes[n]) && c.nodes[n].id == n && c.nodes[n].peers == c.members == c.nodes.Keys && n != ""
    ensures forall p :: p in c.nodes && p != n ==> p in c.nodes[n].nextIndex && c.nodes[n].nextIndex[p] >= 1
  {
  }

  /** x sends y an append request, y answers it, and x reads the answer. */
  lemma Round(members: set<NodeId>, steps: seq<Step>, c: Cluster, x: NodeId, y: NodeId)
    returns (steps': seq<Step>, c': Cluster)
    requires Reached(members, steps, c) && WellFormed(c) && x in c.nodes && y in c.nodes && x != y
    requires c.nodes[x].role == Leader && NodeOk(c.nodes[x]) && NodeOk(c.nodes[y])
    requires Lookup(c.nodes[x].nextIndex, y) >= 1
    ensures Prolongs(steps, steps') && |steps'| == |steps| + 3 && Reached(members, steps', c') && WellFormed(c')
    ensures var (m, reply) := HandleAppend(c.nodes[y], BuildAppend(c.nodes[x], y, false));
      c'.members == c.members && c'.nodes == c.nodes[y := m][x := HandleAppendReply(c.nodes[x], y, reply)]
  {
    hide Reached, Prolongs, WellFormed, NodeOk, HandleAppend, HandleAppendReply, BuildAppend;
    var req := BuildAppend(c.nodes[x], y, false);
    var reply := HandleAppend(c.nodes[y], req).1;
    var steps1, c1 := SendOne(members, steps, c, x, y);
    var steps2, c2 := AnswerOne(members, steps1, c1, x, y, req);
    steps', c' := ReadOne(members, steps2, c2, x, y, reply, req);
    ProlongsMore(steps, steps1, steps2);
    ProlongsMore(steps, steps2, steps');
  }

  /** y's log starts with x's. */
  ghost predicate Follows(y: NodeState, x: NodeState) {
    x.log <= y.log
  }

  /** An accepted request carries whatever the follower lacks of the leader's log. */
  lemma AcceptedFollows(h: History, x: NodeState, y: NodeState, peer: NodeId)
    requires NodeOk(x) && NodeOk(y) && NodeLogOk(h, x) && NodeLogOk(h, y) && x.role == Leader
    requires LeaderLogOk(h, x.currentTerm) && Lookup(x.nextIndex, peer) >= 1
    requires y.currentTerm <= x.currentTerm && HandleAppend(y, BuildAppend(x, peer, false)).1.success
    ensures var m := HandleAppend(y, BuildAppend(x, peer, false)).0;
      Follows(m, x) && m.commitIndex >= Min(x.commitIndex, LastIndex(x.log))
  {
    hide GoodLog, Merge, HandleAppend, AppendOk, LeaderLogOk;
    var req := BuildAppend(x, peer, false);
    BuiltOk(h, x, peer);
    AppendTaken(y, req);
    AcceptedHolds(h, y, req);
    assert LeaderLogOk(h, x.currentTerm) ==> GoodLog(h.leaderLog, x.log) by { LeaderIsGood(h, x); }
    CheckedPrefix(h, y.log, req);
    assert req.prevLogIndex + |req.entries| >= |x.log|;
    AppendKeepsGood(h, y.log, req);
    WholeLog(h, HandleAppend(y, req).0.log, x.currentTerm, req.prevLogIndex + |req.entries|);
  }

  lemma LeaderIsGood(h: History, x: NodeState)
    requires x.currentTerm in h.leaderLog && LeaderLogOk(h, x.currentTerm) && h.leaderLog[x.currentTerm] == x.log
    ensures GoodLog(h.leaderLog, x.log)
  {
  }

  lemma WholeLog(h: History, r: Log, t: nat, k: nat)
    requires Holds(h, r, t, k) && t in h.leaderLog && k >= |h.leaderLog[t]|
    ensures h.leaderLog[t] <= r
  {
    assert h.leaderLog[t][..k] == h.leaderLog[t];
  }

  lemma AppendTaken(n: NodeState, req: AppendRequest)
    requires NodeOk(n) && HandleAppend(n, req).1.success
    ensures PrevMatches(n.log, req)
    ensures var m := HandleAppend(n, req).0;
      req.leaderCommit > n.commitIndex ==> m.commitIndex == Min(req.leaderCommit, LastIndex(m.log))
    ensures req.leaderCommit <= n.commitIndex ==> HandleAppend(n, req).0.commitIndex == n.commitIndex
  {
    hide Merge;
  }

  lemma BuiltOk(h: History, x: NodeState, peer: NodeId)
    requires x.currentTerm in h.leaderLog && h.leaderLog[x.currentTerm] == x.log && Lookup(x.nextIndex, peer) >= 1
    ensures AppendOk(h, BuildAppend(x, peer, false))
  {
    var req := BuildAppend(x, peer, false);
    var next := Lookup(x.nextIndex, peer);
    if next <= |x.log| {
      assert x.log[next - 1..next - 1 + |req.entries|] == req.entries;
    }
  }

  /** What one round comes to when both are in the same term. */
  lemma RoundOutcome(h: History, x: NodeState, y: NodeState, peer: NodeId)
    requires NodeOk(x) && NodeOk(y) && NodeLogOk(h, x) && NodeLogOk(h, y) && x.role == Leader
    requires LeaderLogOk(h, x.currentTerm) && peer in x.nextIndex && x.nextIndex[peer] >= 1
    requires y.currentTerm == x.currentTerm
    ensures var (m, reply) := HandleAppend(y, BuildAppend(x, peer, false));
      && reply.term == x.currentTerm && m.currentTerm == y.currentTerm
      && (x.nextIndex[peer] == 1 ==> reply.success)
      && (!reply.success ==> m.log == y.log && m.commitIndex == y.commitIndex)
      && (reply.success ==> Follows(m, x) && m.commitIndex >= Min(x.commitIndex, LastIndex(x.log)))
  {
    hide Merge, GoodLog, NodeLogOk, LeaderLogOk, Follows;
    if HandleAppend(y, BuildAppend(x, peer, false)).1.success {
      AcceptedFollows(h, x, y, peer);
    }
  }

  // ---- catching up ----

  /** Nodes other than these two are as they were. */
  ghost predicate SameBut(c: Cluster, c': Cluster, x: NodeId, y: NodeId) {
    && c'.members == c.members && c'.nodes.Keys == c.nodes.Keys
    && forall z :: z in c.nodes && z != x && z != y ==> c'.nodes[z] == c.nodes[z]
  }

  /** The leader goes on leading its term with the same log. */
  ghost predicate StillLeads(n: NodeState, n': NodeState) {
    && n'.role == Leader && n'.currentTerm == n.currentTerm && n'.log == n.log && n'.commitIndex >= n.commitIndex
    && n'.id == n.id && n'.peers == n.peers
  }

  /** Whatever a majority is counted to hold is committed. */
  ghost predicate Tried(n: NodeState) {
    forall i :: n.commitIndex < i <= LastIndex(n.log) ==> !Committable(n, i)
  }

  lemma TryTries(n: NodeState)
    requires NodeOk(n)
    ensures Tried(TryCommit(n)) && TryCommit(n).commitIndex >= n.commitIndex
  {
    var m := TryCommit(n);
    forall i | m.commitIndex < i <= LastIndex(m.log) ensures !Committable(m, i) {
      assert !Committable(n, i);
      assert MatchedPeers(m, i) == MatchedPeers(n, i);
    }
  }

  /** More than half of the peers, the leader included, are counted to hold slot j, which is of
      the leader's own term. */
  ghost predicate HalfHold(n: NodeState, j: nat) {
    && 1 <= j <= |n.log| && n.log[j - 1].term == n.currentTerm
    && 2 * (1 + |set p | p in n.peers && p != n.id && Lookup(n.matchIndex, p) >= j|) > |n.peers|
  }

  lemma HalfIs(n: NodeState, j: nat)
    ensures HalfHold(n, j) <==> Committable(n, j)
  {
    assert MatchedPeers(n, j) == set p | p in n.peers && p != n.id && Lookup(n.matchIndex, p) >= j;
  }

  /** A counted success commits slot i if and only if it or a later slot, before the last one,
      is of the leader's term and held by more than half. */
  lemma CommitsIff(n: NodeState, peer: NodeId, reply: AppendReply, i: nat)
    requires NodeOk(n) && n.role == Leader && reply == AppendReply(n.currentTerm, true) && n.commitIndex < i
    ensures var m := HandleAppendReply(n, peer, reply);
      m.commitIndex >= i <==> exists j :: i <= j <= LastIndex(n.log) && HalfHold(m, j)
  {
    hide HalfHold, Committable;
    var m := HandleAppendReply(n, peer, reply);
    var next := Lookup(n.nextIndex, peer);
    var k := n.(nextIndex := n.nextIndex[peer := next + 1], matchIndex := n.matchIndex[peer := next]);
    forall j ensures HalfHold(m, j) <==> Committable(k, j) {
      HalfIs(m, j);
      SameMatches(m, k, j);
    }
    if m.commitIndex >= i {
      assert HalfHold(m, m.commitIndex);
    }
  }

  lemma SameMatches(a: NodeState, b: NodeState, j: nat)
    requires a.log == b.log && a.currentTerm == b.currentTerm && a.peers == b.peers && a.id == b.id
    requires a.matchIndex == b.matchIndex
    ensures Committable(a, j) <==> Committable(b, j)
  {
    assert MatchedPeers(a, j) == MatchedPeers(b, j);
  }

  lemma ReplyOutcome(n: NodeState, peer: NodeId, reply: AppendReply)
    requires NodeOk(n) && n.role == Leader && reply.term == n.currentTerm && peer in n.nextIndex
    ensures var m := HandleAppendReply(n, peer, reply);
      StillLeads(n, m) && (reply.success ==> Tried(m)) && (!reply.success ==> m.commitIndex == n.commitIndex)
  {
    hide Highest, TryCommit;
    NextMoves(n, peer, reply);
    if reply.success {
      var next := Lookup(n.nextIndex, peer);
      TryTries(n.(nextIndex := n.nextIndex[peer := next + 1], matchIndex := n.matchIndex[peer := next]));
    }
  }

  lemma LogsAre(members: set<NodeId>, steps: seq<Step>, c: Cluster, x: NodeId, y: NodeId) returns (h: History)
    requires Reached(members, steps, c) && x in c.nodes && y in c.nodes && c.nodes[x].role == Leader
    ensures NodeLogOk(h, c.nodes[x]) && NodeLogOk(h, c.nodes[y])
    ensures c.nodes[x].currentTerm in h.leaderLog && LeaderLogOk(h, c.nodes[x].currentTerm)
  {
    hide Reached, LogInv, WellFormed, NodeLogOk, LeaderLogOk;
    h := ReachedIs(members, steps, c);
    LeaderLogIs(c, h, x, y);
  }

  lemma LeaderLogIs(c: Cluster, h: History, x: NodeId, y: NodeId)
    requires LogInv(c, h) && x in c.nodes && y in c.nodes && c.nodes[x].role == Leader
    ensures NodeLogOk(h, c.nodes[x]) && NodeLogOk(h, c.nodes[y])
    ensures c.nodes[x].currentTerm in h.leaderLog && LeaderLogOk(h, c.nodes[x].currentTerm)
  {
    hide GoodLog;
  }

  /** One round in the same term: either y now has all of x's log, or x will ask one slot
      further back. */
  lemma RoundStep(members: set<NodeId>, steps: seq<Step>, c: Cluster, x: NodeId, y: NodeId)
    returns (steps': seq<Step>, c': Cluster, accepted: bool)
    requires Reached(members, steps, c) && WellFormed(c) && x in c.nodes && y in c.nodes && x != y
    requires c.nodes[x].role == Leader && c.nodes[y].currentTerm == c.nodes[x].currentTerm
    ensures Prolongs(steps, steps') && |steps'| == |steps| + 3 && Reached(members, steps', c') && WellFormed(c')
    ensures SameBut(c, c', x, y) && StillLeads(c.nodes[x], c'.nodes[x])
    ensures c'.nodes[y].currentTerm == c.nodes[y].currentTerm
    ensures y in c.nodes[x].nextIndex && y in c'.nodes[x].nextIndex
    ensures forall p :: p != y ==> Lookup(c'.nodes[x].matchIndex, p) == Lookup(c.nodes[x].matchIndex, p)
    ensures NodeOk(c.nodes[y]) && accepted == HandleAppend(c.nodes[y], BuildAppend(c.nodes[x], y, false)).1.success
    ensures accepted ==>
      && Follows(c'.nodes[y], c.nodes[x]) && Tried(c'.nodes[x])
      && c'.nodes[y].commitIndex >= Min(c.nodes[x].commitIndex, LastIndex(c.nodes[x].log))
      && c'.nodes[x].nextIndex[y] == c.nodes[x].nextIndex[y] + 1
      && Lookup(c'.nodes[x].matchIndex, y) == c.nodes[x].nextIndex[y]
    ensures !accepted ==>
      && c.nodes[x].nextIndex[y] > 1 && c'.nodes[x].nextIndex[y] == c.nodes[x].nextIndex[y] - 1
      && c'.nodes[y].log == c.nodes[y].log
  {
    hide Reached, Prolongs, WellFormed, NodeOk, HandleAppend, HandleAppendReply, BuildAppend, NodeLogOk, LeaderLogOk,
      Tried, Follows, StillLeads;
    var n, m := c.nodes[x], c.nodes[y];
    NodeIsOk(c, x);
    NodeIsOk(c, y);
    var h := LogsAre(members, steps, c, x, y);
    RoundOutcome(h, n, m, y);
    var reply := HandleAppend(m, BuildAppend(n, y, false)).1;
    NextMoves(n, y, reply);
    ReplyOutcome(n, y, reply);
    steps', c' := Round(members, steps, c, x, y);
    accepted := reply.success;
  }

  /** A peer in the leader's term has all of the leader's log after at most as many rounds as
      the next index the leader starts from. */
  lemma {:induction false} CatchUp(members: set<NodeId>, steps: seq<Step>, c: Cluster, x: NodeId, y: NodeId)
    returns (steps': seq<Step>, c': Cluster)
    requires Reached(members, steps, c) && WellFormed(c) && x in c.nodes && y in c.nodes && x != y
    requires c.nodes[x].role == Leader && c.nodes[y].currentTerm == c.nodes[x].currentTerm
    ensures Prolongs(steps, steps') && |steps'| <= |steps| + 3 * Lookup(c.nodes[x].nextIndex, y)
    ensures Reached(members, steps', c') && WellFormed(c') && SameBut(c, c', x, y)
    ensures StillLeads(c.nodes[x], c'.nodes[x]) && Tried(c'.nodes[x])
    ensures c'.nodes[y].currentTerm == c.nodes[y].currentTerm && Follows(c'.nodes[y], c.nodes[x])
    ensures c'.nodes[y].commitIndex >= Min(c.nodes[x].commitIndex, LastIndex(c.nodes[x].log))
    ensures y in c'.nodes[x].nextIndex && Lookup(c'.nodes[x].matchIndex, y) + 1 == c'.nodes[x].nextIndex[y] >= 2
    ensures forall p :: p != y ==> Lookup(c'.nodes[x].matchIndex, p) == Lookup(c.nodes[x].matchIndex, p)
    decreases Lookup(c.nodes[x].nextIndex, y)
  {
    hide Reached, Prolongs, WellFormed, Tried, Follows;
    NodeIsOk(c, x);
    var steps1, c1, accepted := RoundStep(members, steps, c, x, y);
    if accepted {
      steps', c' := steps1, c1;
    } else {
      steps', c' := CatchUp(members, steps1, c1, x, y);
      ProlongsMore(steps, steps1, steps');
      assert Follows(c'.nodes[y], c.nodes[x]) by { SameLog(c'.nodes[y], c.nodes[x], c1.nodes[x]); }
    }
  }

  lemma SameLog(y: NodeState, a: NodeState, b: NodeState)
    requires a.log == b.log
    ensures Follows(y, a) == Follows(y, b)
  {
  }

  /** A peer in an older term adopts the leader's with the first request it gets. */
  lemma Contact(members: set<NodeId>, steps: seq<Step>, c: Cluster, x: NodeId, y: NodeId)
    returns (steps': seq<Step>, c': Cluster)
    requires Reached(members, steps, c) && WellFormed(c) && x in c.nodes && y in c.nodes && x != y
    requires c.nodes[x].role == Leader && c.nodes[y].currentTerm <= c.nodes[x].currentTerm
    ensures Prolongs(steps, steps') && Reached(members, steps', c') && WellFormed(c')
    ensures SameBut(c, c', x, y) && c'.nodes[x] == c.nodes[x] && c'.nodes[y].currentTerm == c.nodes[x].currentTerm
  {
    hide Reached, Prolongs, WellFormed, HandleAppend, BuildAppend;
    NodeIsOk(c, x);
    NodeIsOk(c, y);
    var req := BuildAppend(c.nodes[x], y, false);
    var steps1, c1 := SendOne(members, steps, c, x, y);
    steps', c' := AnswerOne(members, steps1, c1, x, y, req);
    ProlongsMore(steps, steps1, steps');
    LargerTerm(c.nodes[y], AppReq(x, y, req));
    BuiltTerm(c.nodes[x], y);
  }

  lemma BuiltTerm(n: NodeState, peer: NodeId)
    requires Lookup(n.nextIndex, peer) >= 1
    ensures BuildAppend(n, peer, false).term == n.currentTerm
  {
  }

  /** A follower that has the leader's log accepts whatever is asked of it. */
  lemma FollowerAccepts(x: NodeState, y: NodeState, peer: NodeId)
    requires NodeOk(y) && Lookup(x.nextIndex, peer) >= 1 && Lookup(x.nextIndex, peer) <= |x.log|
    requires Follows(y, x) && y.currentTerm <= x.currentTerm
    ensures HandleAppend(y, BuildAppend(x, peer, false)).1.success
  {
    hide Merge;
  }

  lemma {:induction false} Raise(members: set<NodeId>, steps: seq<Step>, c: Cluster, x: NodeId, y: NodeId)
    returns (steps': seq<Step>, c': Cluster)
    requires Reached(members, steps, c) && WellFormed(c) && x in c.nodes && y in c.nodes && x != y
    requires c.nodes[x].role == Leader && c.nodes[y].currentTerm == c.nodes[x].currentTerm
    requires Follows(c.nodes[y], c.nodes[x]) && Tried(c.nodes[x])
    requires y in c.nodes[x].nextIndex && Lookup(c.nodes[x].matchIndex, y) + 1 == c.nodes[x].nextIndex[y]
    ensures Prolongs(steps, steps') && Reached(members, steps', c') && WellFormed(c') && SameBut(c, c', x, y)
    ensures StillLeads(c.nodes[x], c'.nodes[x]) && Tried(c'.nodes[x])
    ensures c'.nodes[y].currentTerm == c.nodes[y].currentTerm && Follows(c'.nodes[y], c.nodes[x])
    ensures c'.nodes[y].commitIndex
      >= Min(c.nodes[y].commitIndex, Min(c.nodes[x].commitIndex, LastIndex(c.nodes[x].log)))
    ensures Lookup(c'.nodes[x].matchIndex, y) >= LastIndex(c.nodes[x].log)
    ensures forall p :: p != y ==> Lookup(c'.nodes[x].matchIndex, p) == Lookup(c.nodes[x].matchIndex, p)
    decreases LastIndex(c.nodes[x].log) - Lookup(c.nodes[x].matchIndex, y)
  {
    hide Reached, Prolongs, WellFormed, Tried, Follows, HandleAppend, BuildAppend;
    if Lookup(c.nodes[x].matchIndex, y) >= LastIndex(c.nodes[x].log) {
      steps', c' := steps, c;
      ProlongsSelf(steps);
    } else {
      var steps1, c1, accepted := RoundStep(members, steps, c, x, y);
      FollowerAccepts(c.nodes[x], c.nodes[y], y);
      SameLog(c1.nodes[y], c.nodes[x], c1.nodes[x]);
      steps', c' := Raise(members, steps1, c1, x, y);
      ProlongsMore(steps, steps1, steps');
      SameLog(c'.nodes[y], c.nodes[x], c1.nodes[x]);
    }
  }

  /** y has all of x's log, as x knows. */
  ghost predicate Replicated(x: NodeState, y: NodeState) {
    Follows(y, x) && y.currentTerm == x.currentTerm && Lookup(x.matchIndex, y.id) >= LastIndex(x.log)
  }

  lemma Replicate(members: set<NodeId>, steps: seq<Step>, c: Cluster, x: NodeId, y: NodeId)
    returns (steps': seq<Step>, c': Cluster)
    requires Reached(members, steps, c) && WellFormed(c) && x in c.nodes && y in c.nodes && x != y
    requires c.nodes[x].role == Leader && c.nodes[y].currentTerm <= c.nodes[x].currentTerm
    ensures Prolongs(steps, steps') && Reached(members, steps', c') && WellFormed(c') && SameBut(c, c', x, y)
    ensures StillLeads(c.nodes[x], c'.nodes[x]) && Tried(c'.nodes[x]) && Replicated(c'.nodes[x], c'.nodes[y])
    ensures c'.nodes[y].commitIndex >= Min(c.nodes[x].commitIndex, LastIndex(c.nodes[x].log))
    ensures forall p :: p != y ==> Lookup(c'.nodes[x].matchIndex, p) == Lookup(c.nodes[x].matchIndex, p)
  {
    hide Reached, Prolongs, WellFormed, Tried, Follows;
    var steps1, c1 := Contact(members, steps, c, x, y);
    var steps2, c2 := CatchUp(members, steps1, c1, x, y);
    SameLog(c2.nodes[y], c1.nodes[x], c2.nodes[x]);
    steps', c' := Raise(members, steps2, c2, x, y);
    ProlongsMore(steps, steps1, steps2);
    ProlongsMore(steps, steps2, steps');
    SameLog(c'.nodes[y], c2.nodes[x], c'.nodes[x]);
    NodeIsOk(c', y);
  }

  /** The same for several peers, one after the other. */
  lemma {:induction false} ReplicateAll(members: set<NodeId>, steps: seq<Step>, c: Cluster, x: NodeId,
                                        todo: set<NodeId>)
    returns (steps': seq<Step>, c': Cluster)
    requires Reached(members, steps, c) && WellFormed(c) && x in c.nodes && todo <= c.nodes.Keys && x !in todo
    requires c.nodes[x].role == Leader && forall y :: y in todo ==> c.nodes[y].currentTerm <= c.nodes[x].currentTerm
    ensures Prolongs(steps, steps') && Reached(members, steps', c') && WellFormed(c') && c'.members == c.members
    ensures c'.nodes.Keys == c.nodes.Keys && StillLeads(c.nodes[x], c'.nodes[x]) && (todo != {} ==> Tried(c'.nodes[x]))
    ensures forall y :: y in todo ==>
      && Replicated(c'.nodes[x], c'.nodes[y])
      && c'.nodes[y].commitIndex >= Min(c.nodes[x].commitIndex, LastIndex(c.nodes[x].log))
    ensures forall z :: z in c.nodes && z != x && z !in todo ==> c'.nodes[z] == c.nodes[z]
    ensures forall p :: p !in todo ==> Lookup(c'.nodes[x].matchIndex, p) == Lookup(c.nodes[x].matchIndex, p)
    decreases |todo|
  {
    hide Reached, Prolongs, WellFormed, Tried, Replicated;
    if todo == {} {
      steps', c' := steps, c;
      ProlongsSelf(steps);
    } else {
      var y :| y in todo;
      var rest := todo - {y};
      var steps1, c1 := ReplicateAll(members, steps, c, x, rest);
      steps', c' := Replicate(members, steps1, c1, x, y);
      ProlongsMore(steps, steps1, steps');
      forall z | z in todo
        ensures Replicated(c'.nodes[x], c'.nodes[z])
        ensures c'.nodes[z].commitIndex >= Min(c.nodes[x].commitIndex, LastIndex(c.nodes[x].log))
      {
        if z != y {
          NodeIsOk(c1, z);
          StillReplicated(c1.nodes[x], c'.nodes[x], c1.nodes[z], y);
        }
      }
    }
  }

  lemma StillReplicated(x: NodeState, x': NodeState, z: NodeState, y: NodeId)
    requires Replicated(x, z) && StillLeads(x, x') && z.id != y
    requires Lookup(x'.matchIndex, z.id) == Lookup(x.matchIndex, z.id)
    ensures Replicated(x', z)
  {
  }

  // ---- elections ----

  lemma {:induction false} TermBound(c: Cluster, some: set<NodeId>) returns (t: nat)
    requires some <= c.nodes.Keys
    ensures forall n :: n in some ==> c.nodes[n].currentTerm < t
  {
    if some == {} {
      t := 0;
    } else {
      var n :| n in some;
      t := TermBound(c, some - {n});
      if c.nodes[n].currentTerm >= t {
        t := c.nodes[n].currentTerm + 1;
      }
    }
  }

  /** Some node is at least as up to date as every other. */
  lemma {:induction false} MostUpToDate(c: Cluster, some: set<NodeId>) returns (x: NodeId)
    requires some <= c.nodes.Keys && some != {}
    ensures x in some
    ensures forall n :: n in some ==> UpToDate(c.nodes[n].log, LastIndex(c.nodes[x].log), LastTerm(c.nodes[x].log))
    decreases |some|
  {
    hide UpToDate;
    var n :| n in some;
    UpToDateTotal(c.nodes[n].log, c.nodes[n].log);
    if some == {n} {
      x := n;
    } else {
      var y := MostUpToDate(c, some - {n});
      UpToDateTotal(c.nodes[n].log, c.nodes[y].log);
      if UpToDate(c.nodes[n].log, LastIndex(c.nodes[y].log), LastTerm(c.nodes[y].log)) {
        x := y;
      } else {
        x := n;
        forall m | m in some ensures UpToDate(c.nodes[m].log, LastIndex(c.nodes[x].log), LastTerm(c.nodes[x].log)) {
          if m != n {
            UpToDateTransitive(c.nodes[m].log, c.nodes[y].log, c.nodes[n].log);
          }
        }
      }
    }
  }

  /** Running for a term, or already leading it. */
  ghost predicate Runs(n: NodeState, t: nat, log: Log) {
    n.currentTerm == t && n.log == log && n.votedFor == n.id && (n.role == Leader || n.role == Candidate)
  }

  /** A candidate that has this vote, or a leader. */
  ghost predicate HasVote(n: NodeState, v: NodeId) {
    n.role == Leader || v in n.votes
  }

  /** Not more than half of them. */
  ghost predicate Few(votes: set<NodeId>, members: set<NodeId>) {
    2 * |votes| <= |members|
  }

  /** x stands for election until its term is past t. */
  lemma {:induction false} StandUntil(members: set<NodeId>, steps: seq<Step>, c: Cluster, x: NodeId, t: nat)
    returns (steps': seq<Step>, c': Cluster)
    requires Reached(members, steps, c) && WellFormed(c) && x in c.nodes && c.nodes[x].role != Leader
    ensures Prolongs(steps, steps') && Reached(members, steps', c') && WellFormed(c') && SameBut(c, c', x, x)
    ensures c'.nodes[x].role == Candidate && c'.nodes[x].currentTerm >= t
    ensures Runs(c'.nodes[x], c'.nodes[x].currentTerm, c.nodes[x].log) && HasVote(c'.nodes[x], x)
    decreases t - c.nodes[x].currentTerm
  {
    hide Reached, Prolongs, WellFormed;
    NodeIsOk(c, x);
    var steps1, c1 := Stand(members, steps, c, x);
    if c1.nodes[x].currentTerm >= t {
      steps', c' := steps1, c1;
    } else {
      steps', c' := StandUntil(members, steps1, c1, x, t);
      ProlongsMore(steps, steps1, steps');
    }
  }

  lemma Stand(members: set<NodeId>, steps: seq<Step>, c: Cluster, x: NodeId)
    returns (steps': seq<Step>, c': Cluster)
    requires Reached(members, steps, c) && WellFormed(c) && x in c.nodes && c.nodes[x].role != Leader
    ensures Prolongs(steps, steps') && Reached(members, steps', c') && WellFormed(c')
    ensures c'.members == c.members && c'.nodes == c.nodes[x := StartElection(c.nodes[x])]
  {
    hide Reached, NodeOk;
    c' := Do(members, steps, c, Timeout(x));
    steps' := steps + [Timeout(x)];
  }

  lemma AskOne(members: set<NodeId>, steps: seq<Step>, c: Cluster, x: NodeId, y: NodeId)
    returns (steps': seq<Step>, c': Cluster)
    requires Reached(members, steps, c) && WellFormed(c) && x in c.nodes && y in c.nodes && x != y
    ensures Prolongs(steps, steps') && Reached(members, steps', c') && WellFormed(c')
    ensures c'.members == c.members && c'.nodes == c.nodes && VoteReq(x, y, BuildVote(c.nodes[x])) in c'.net
  {
    hide Reached, BuildVote;
    var s := SendVote(x, y);
    c' := Do(members, steps, c, s);
    steps' := steps + [s];
    assert c'.nodes == c.nodes;
  }

  lemma VoteOne(members: set<NodeId>, steps: seq<Step>, c: Cluster, x: NodeId, y: NodeId, req: VoteRequest)
    returns (steps': seq<Step>, c': Cluster)
    requires Reached(members, steps, c) && WellFormed(c) && x in c.nodes && y in c.nodes && x != y
    requires VoteReq(x, y, req) in c.net
    ensures Prolongs(steps, steps') && Reached(members, steps', c') && WellFormed(c') && c.net <= c'.net
    ensures c'.members == c.members && c'.nodes == c.nodes[y := HandleVote(c.nodes[y], req).0]
    ensures VoteRep(y, x, HandleVote(c.nodes[y], req).1, req) in c'.net
  {
    hide Reached, HandleVote;
    var s := Deliver(VoteReq(x, y, req));
    c' := Do(members, steps, c, s);
    steps' := steps + [s];
  }

  lemma CountOne(members: set<NodeId>, steps: seq<Step>, c: Cluster, x: NodeId, y: NodeId, reply: VoteReply,
                 req: VoteRequest)
    returns (steps': seq<Step>, c': Cluster)
    requires Reached(members, steps, c) && WellFormed(c) && x in c.nodes && y in c.nodes && x != y
    requires VoteRep(y, x, reply, req) in c.net
    ensures Prolongs(steps, steps') && Reached(members, steps', c') && WellFormed(c')
    ensures c'.members == c.members && c'.nodes == c.nodes[x := HandleVoteReply(c.nodes[x], y, reply)]
  {
    hide Reached, HandleVoteReply;
    var s := Deliver(VoteRep(y, x, reply, req));
    c' := Do(members, steps, c, s);
    steps' := steps + [s];
  }

  /** x gets the vote of y: the first request brings y into the term, with a reply in its old
      term that does not count, the second is answered in the new one. */
  lemma WinVote(members: set<NodeId>, steps: seq<Step>, c: Cluster, x: NodeId, y: NodeId)
    returns (steps': seq<Step>, c': Cluster)
    requires Reached(members, steps, c) && WellFormed(c) && x in c.nodes && y in c.nodes && x != y
    requires Runs(c.nodes[x], c.nodes[x].currentTerm, c.nodes[x].log)
    requires c.nodes[y].currentTerm < c.nodes[x].currentTerm
    requires UpToDate(c.nodes[y].log, LastIndex(c.nodes[x].log), LastTerm(c.nodes[x].log))
    ensures Prolongs(steps, steps') && Reached(members, steps', c') && WellFormed(c') && SameBut(c, c', x, y)
    ensures Runs(c'.nodes[x], c.nodes[x].currentTerm, c.nodes[x].log)
    ensures HasVote(c'.nodes[x], y) && forall v :: HasVote(c.nodes[x], v) ==> HasVote(c'.nodes[x], v)
    ensures c'.nodes[y].currentTerm == c.nodes[x].currentTerm
    ensures c'.nodes[x].role == Leader || Few(c'.nodes[x].votes, c.members)
  {
    hide Reached, Prolongs, WellFormed, HandleVote, HandleVoteReply, UpToDate, Few;
    var n, m := c.nodes[x], c.nodes[y];
    NodeIsOk(c, x);
    NodeIsOk(c, y);
    var req := BuildVote(n);
    var steps1, c1 := AskOne(members, steps, c, x, y);
    var steps2, c2 := VoteOne(members, steps1, c1, x, y, req);
    Grants(m, req);
    var m2 := c2.nodes[y];
    var steps3, c3 := VoteOne(members, steps2, c2, x, y, req);
    GrantsAgain(m2, req);
    var reply := HandleVote(m2, req).1;
    steps', c' := CountOne(members, steps3, c3, x, y, reply, req);
    ProlongsMore(steps, steps1, steps2);
    ProlongsMore(steps, steps2, steps3);
    ProlongsMore(steps, steps3, steps');
    Counts(n, y, reply);
  }

  lemma Counts(n: NodeState, peer: NodeId, reply: VoteReply)
    requires Runs(n, n.currentTerm, n.log) && reply == VoteReply(n.currentTerm, true)
    ensures var m := HandleVoteReply(n, peer, reply);
      && Runs(m, n.currentTerm, n.log) && HasVote(m, peer) && (forall v :: HasVote(n, v) ==> HasVote(m, v))
      && (m.role == Leader || Few(m.votes, n.peers))
  {
    hide ForPeers;
  }

  /** A node that could vote for x. */
  ghost predicate MayVote(x: NodeState, y: NodeState) {
    y.currentTerm < x.currentTerm && UpToDate(y.log, LastIndex(x.log), LastTerm(x.log))
  }

  /** x gets the votes of all these nodes. */
  lemma {:induction false} WinVotes(members: set<NodeId>, steps: seq<Step>, c: Cluster, x: NodeId, todo: set<NodeId>)
    returns (steps': seq<Step>, c': Cluster)
    requires Reached(members, steps, c) && WellFormed(c) && x in c.nodes && todo <= c.nodes.Keys && x !in todo
    requires Runs(c.nodes[x], c.nodes[x].currentTerm, c.nodes[x].log) && HasVote(c.nodes[x], x)
    requires forall y :: y in todo ==> MayVote(c.nodes[x], c.nodes[y])
    ensures Prolongs(steps, steps') && Reached(members, steps', c') && WellFormed(c')
    ensures c'.members == c.members && c'.nodes.Keys == c.nodes.Keys
    ensures Runs(c'.nodes[x], c.nodes[x].currentTerm, c.nodes[x].log) && HasVote(c'.nodes[x], x)
    ensures forall y :: y in todo ==> c'.nodes[y].currentTerm == c.nodes[x].currentTerm && HasVote(c'.nodes[x], y)
    ensures forall z :: z in c.nodes && z != x && z !in todo ==> c'.nodes[z] == c.nodes[z]
    ensures todo != {} ==> c'.nodes[x].role == Leader || Few(c'.nodes[x].votes, c.members)
    decreases |todo|
  {
    hide Reached, Prolongs, WellFormed, UpToDate, Runs, Few, HasVote;
    if todo == {} {
      steps', c' := steps, c;
      ProlongsSelf(steps);
    } else {
      var y :| y in todo;
      var rest := todo - {y};
      var steps1, c1 := WinVotes(members, steps, c, x, rest);
      RunsIs(c1.nodes[x], c.nodes[x].currentTerm, c.nodes[x].log);
      assert c1.nodes[y] == c.nodes[y] && MayVote(c.nodes[x], c.nodes[y]);
      steps', c' := WinVote(members, steps1, c1, x, y);
      ProlongsMore(steps, steps1, steps');
      forall z | z in todo ensures c'.nodes[z].currentTerm == c.nodes[x].currentTerm && HasVote(c'.nodes[x], z) {
        assert z != y ==> c'.nodes[z] == c1.nodes[z] && HasVote(c1.nodes[x], z);
      }
    }
  }

  lemma RunsIs(n: NodeState, t: nat, log: Log)
    requires Runs(n, t, log)
    ensures n.currentTerm == t && n.log == log
  {
  }

  /** A candidate can become leader with any majority of nodes in older terms that are no more
      up to date. */
  lemma Elected(members: set<NodeId>, steps: seq<Step>, c: Cluster, x: NodeId, q: set<NodeId>)
    returns (steps': seq<Step>, c': Cluster)
    requires Reached(members, steps, c) && WellFormed(c) && x in q && q <= c.nodes.Keys && |q| >= 2
    requires 2 * |q| > |c.members|
    requires Runs(c.nodes[x], c.nodes[x].currentTerm, c.nodes[x].log) && HasVote(c.nodes[x], x)
    requires forall y :: y in q && y != x ==> MayVote(c.nodes[x], c.nodes[y])
    ensures Prolongs(steps, steps') && Reached(members, steps', c') && WellFormed(c') && c'.members == c.members
    ensures c'.nodes.Keys == c.nodes.Keys && c'.nodes[x].role == Leader
    ensures c'.nodes[x].currentTerm == c.nodes[x].currentTerm && c'.nodes[x].log == c.nodes[x].log
    ensures forall y :: y in q ==> c'.nodes[y].currentTerm == c.nodes[x].currentTerm
  {
    hide Reached, Prolongs, UpToDate, NodeOk, MayVote, WellFormed;
    var todo := q - {x};
    assert |q| == |todo| + 1;
    steps', c' := WinVotes(members, steps, c, x, todo);
    if c'.nodes[x].role != Leader {
      forall v | v in q ensures v in c'.nodes[x].votes {
        assert HasVote(c'.nodes[x], v);
      }
      SubsetSize(q, c'.nodes[x].votes);
      assert false;
    }
  }

  /** A leader that hears of a newer term stops leading. */
  lemma Deposed(members: set<NodeId>, steps: seq<Step>, c: Cluster, x: NodeId, z: NodeId)
    returns (steps': seq<Step>, c': Cluster)
    requires Reached(members, steps, c) && WellFormed(c) && x in c.nodes && z in c.nodes
    requires c.nodes[x].role == Leader && c.nodes[z].currentTerm > c.nodes[x].currentTerm
    ensures Prolongs(steps, steps') && Reached(members, steps', c') && WellFormed(c') && SameBut(c, c', x, x)
    ensures c'.nodes[x].role == Follower && c'.nodes[x].log == c.nodes[x].log
  {
    hide Reached, Prolongs, WellFormed, NodeOk;
    NodeIsOk(c, x);
    NodeIsOk(c, z);
    Refused(c.nodes[z], BuildAppend(c.nodes[x], z, false));
    BuiltTerm(c.nodes[x], z);
    hide HandleAppend, BuildAppend;
    steps', c' := Round(members, steps, c, x, z);
    assert c.nodes[z := c.nodes[z]] == c.nodes;
  }

  lemma Refused(n: NodeState, req: AppendRequest)
    requires NodeOk(n) && req.term < n.currentTerm
    ensures HandleAppend(n, req) == (n, AppendReply(n.currentTerm, false))
  {
  }

  /** From every state of every run of two or more nodes some continuation has a leader whose
      term nobody is past. */
  lemma Lead(members: set<NodeId>, steps: seq<Step>, c: Cluster)
    returns (steps': seq<Step>, c': Cluster, x: NodeId)
    requires Reached(members, steps, c) && WellFormed(c) && |c.members| >= 2
    ensures Prolongs(steps, steps') && Reached(members, steps', c') && WellFormed(c') && c'.members == c.members
    ensures x in c'.nodes && c'.nodes[x].role == Leader
    ensures forall y :: y in c'.nodes ==> c'.nodes[y].currentTerm <= c'.nodes[x].currentTerm
  {
    hide Reached, Prolongs, NodeOk, UpToDate;
    assert c.members != {};
    x := MostUpToDate(c, c.members);
    if c.nodes[x].role == Leader && forall y :: y in c.nodes ==> c.nodes[y].currentTerm <= c.nodes[x].currentTerm {
      steps', c' := steps, c;
      ProlongsSelf(steps);
    } else {
      var steps1, c1 := steps, c;
      ProlongsSelf(steps);
      if c.nodes[x].role == Leader {
        var z :| z in c.nodes && c.nodes[z].currentTerm > c.nodes[x].currentTerm;
        steps1, c1 := Deposed(members, steps, c, x, z);
      }
      var steps2, c2 := RunAndWin(members, steps1, c1, x);
      ProlongsMore(steps, steps1, steps2);
      steps', c' := steps2, c2;
    }
  }

  lemma RunAndWin(members: set<NodeId>, steps: seq<Step>, c: Cluster, x: NodeId)
    returns (steps': seq<Step>, c': Cluster)
    requires Reached(members, steps, c) && WellFormed(c) && |c.members| >= 2
    requires x in c.nodes && c.nodes[x].role != Leader
    requires forall y :: y in c.nodes ==> UpToDate(c.nodes[y].log, LastIndex(c.nodes[x].log), LastTerm(c.nodes[x].log))
    ensures Prolongs(steps, steps') && Reached(members, steps', c') && WellFormed(c') && c'.members == c.members
    ensures c'.nodes.Keys == c.nodes.Keys && c'.nodes[x].role == Leader
    ensures forall y :: y in c'.nodes ==> c'.nodes[y].currentTerm <= c'.nodes[x].currentTerm
  {
    hide Reached, Prolongs, NodeOk, UpToDate;
    var t := TermBound(c, c.members);
    var steps1, c1 := StandUntil(members, steps, c, x, t);
    steps', c' := Elected(members, steps1, c1, x, c1.members);
    ProlongsMore(steps, steps1, steps');
  }

  // ---- progress ----

  /** The leader takes a command. */
  lemma TakeCommand(members: set<NodeId>, steps: seq<Step>, c: Cluster, x: NodeId, command: Command)
    returns (steps': seq<Step>, c': Cluster)
    requires Reached(members, steps, c) && WellFormed(c) && x in c.nodes && c.nodes[x].role == Leader
    ensures Prolongs(steps, steps') && Reached(members, steps', c') && WellFormed(c') && SameBut(c, c', x, x)
    ensures c'.nodes[x] == Propose(c.nodes[x], command)
  {
    hide Reached, NodeOk, Propose;
    var s := ClientPropose(x, command);
    c' := Do(members, steps, c, s);
    steps' := steps + [s];
  }

  /** What everyone is counted to hold, and tried to commit, is committed. */
  lemma CommittedBy(c: Cluster, x: NodeId, i: nat)
    requires WellFormed(c) && x in c.nodes && |c.members| >= 2 && Tried(c.nodes[x])
    requires 1 <= i <= LastIndex(c.nodes[x].log) && c.nodes[x].log[i - 1].term == c.nodes[x].currentTerm
    requires forall y :: y in c.nodes && y != x ==> Lookup(c.nodes[x].matchIndex, y) >= i
    ensures c.nodes[x].commitIndex >= i
  {
    hide NodeOk;
    var n := c.nodes[x];
    assert MatchedPeers(n, i) == c.members - {x};
    assert |c.members - {x}| == |c.members| - 1;
    assert Committable(n, i);
  }

  /** The command is in slot i of every node's log, at or before its commit index. */
  ghost predicate CommittedEverywhere(c: Cluster, i: nat, command: Command) {
    forall y :: y in c.nodes ==>
      1 <= i < |c.nodes[y].log| && c.nodes[y].log[i - 1].command == command && c.nodes[y].commitIndex >= i
  }

  /** The leader replicates to everyone twice: the first time commits, the second time tells. */
  lemma Spread(members: set<NodeId>, steps: seq<Step>, c: Cluster, x: NodeId)
    returns (steps': seq<Step>, c': Cluster)
    requires Reached(members, steps, c) && WellFormed(c) && |c.members| >= 2
    requires x in c.nodes && c.nodes[x].role == Leader
    requires forall y :: y in c.nodes ==> c.nodes[y].currentTerm <= c.nodes[x].currentTerm
    requires |c.nodes[x].log| >= 2 && c.nodes[x].log[LastIndex(c.nodes[x].log) - 1].term == c.nodes[x].currentTerm
    ensures Prolongs(steps, steps') && Reached(members, steps', c') && WellFormed(c') && c'.members == c.members
    ensures c'.nodes.Keys == c.nodes.Keys && StillLeads(c.nodes[x], c'.nodes[x])
    ensures forall y :: y in c'.nodes ==>
      c.nodes[x].log <= c'.nodes[y].log && c'.nodes[y].commitIndex >= LastIndex(c.nodes[x].log)
  {
    hide Reached, Prolongs, Tried, NodeOk;
    var todo, i := c.members - {x}, LastIndex(c.nodes[x].log);
    assert |todo| == |c.members| - 1;
    var steps1, c1 := ReplicateAll(members, steps, c, x, todo);
    forall y | y in c1.nodes && y != x ensures Lookup(c1.nodes[x].matchIndex, y) >= i {
      assert Replicated(c1.nodes[x], c1.nodes[y]);
    }
    CommittedBy(c1, x, i);
    steps', c' := ReplicateAll(members, steps1, c1, x, todo);
    ProlongsMore(steps, steps1, steps');
    forall y | y in c'.nodes
      ensures c.nodes[x].log <= c'.nodes[y].log && c'.nodes[y].commitIndex >= i
    {
      if y != x {
        assert Replicated(c'.nodes[x], c'.nodes[y]);
      }
    }
  }

  /** Progress: from every state of every run of two or more nodes, some continuation commits
      any further command on every node. */
  lemma Progress(members: set<NodeId>, steps: seq<Step>, command: Command)
    returns (steps': seq<Step>, i: nat)
    requires ValidRun(members, steps) && |members| >= 2
    ensures steps <= steps' && ValidRun(members, steps') && CommittedEverywhere(Exec(members, steps'), i, command)
  {
    hide ValidRun, Exec, WellFormed;
    var c := Exec(members, steps);
    var steps1, c1, x := Lead(members, steps, c);
    var steps2, c2 := TakeTwo(members, steps1, c1, x, command);
    var c3;
    steps', c3 := Spread(members, steps2, c2, x);
    i := LastIndex(c2.nodes[x].log);
    ProlongsMore(steps, steps1, steps2);
    ProlongsMore(steps, steps2, steps');
    SlotEverywhere(c3, c2.nodes[x].log, i, command);
  }

  lemma SlotEverywhere(c: Cluster, log: Log, i: nat, command: Command)
    requires 1 <= i < |log| && log[i - 1].command == command
    requires forall y :: y in c.nodes ==> log <= c.nodes[y].log && c.nodes[y].commitIndex >= i
    ensures CommittedEverywhere(c, i, command)
  {
    forall y | y in c.nodes
      ensures i < |c.nodes[y].log| && c.nodes[y].log[i - 1].command == command && c.nodes[y].commitIndex >= i
    {
      assert c.nodes[y].log[i - 1] == log[i - 1];
    }
  }

  /** The last slot of a log is never committed, so the command needs another one behind it. */
  lemma TakeTwo(members: set<NodeId>, steps: seq<Step>, c: Cluster, x: NodeId, command: Command)
    returns (steps': seq<Step>, c': Cluster)
    requires Reached(members, steps, c) && WellFormed(c) && x in c.nodes && c.nodes[x].role == Leader
    ensures Prolongs(steps, steps') && Reached(members, steps', c') && WellFormed(c') && SameBut(c, c', x, x)
    ensures c'.nodes[x] == c.nodes[x].(log := c'.nodes[x].log)
    ensures var (log, i) := (c'.nodes[x].log, LastIndex(c'.nodes[x].log));
      i >= 1 && log[i - 1].command == command && log[i - 1].term == c.nodes[x].currentTerm
  {
    hide Reached, Prolongs, WellFormed, Propose;
    var steps1, c1 := TakeCommand(members, steps, c, x, command);
    Proposes(c.nodes[x], command);
    steps', c' := TakeCommand(members, steps1, c1, x, Nil);
    Proposes(c1.nodes[x], Nil);
    ProlongsMore(steps, steps1, steps');
    assert c'.nodes[x].log[|c.nodes[x].log|] == c1.nodes[x].log[|c.nodes[x].log|];
  }

  lemma Proposes(n: NodeState, command: Command)
    requires n.role == Leader
    ensures var m := Propose(n, command);
      && m == n.(log := m.log) && |m.log| == |n.log| + 1 && m.log[..|n.log|] == n.log
      && m.log[|n.log|] == Entry(n.currentTerm, |n.log|, command)
  {
  }

  ghost predicate Idle(c: Cluster, n: NodeId) {
    && c.members == c.nodes.Keys == {n} && c.net == {}
    && c.nodes[n].role != Leader && c.nodes[n].log == [SENTINEL] && c.nodes[n].commitIndex == 0
  }

  lemma IdleStep(c: Cluster, s: Step, n: NodeId)
    requires WellFormed(c) && Enabled(c, s) && Idle(c, n)
    ensures Idle(Next(c, s), n)
  {
    hide NodeOk;
    match s
    case Timeout(_) =>
    case SendVote(_, _) => assert false;
    case SendAppend(_, _, _) => assert false;
    case ClientPropose(_, _) =>
    case Deliver(_) => assert false;
  }

  /** A node without others never leads, so it never takes or commits anything: its votes are
      only counted when a reply comes in. */
  lemma {:induction false} LonerNeverLeads(members: set<NodeId>, steps: seq<Step>, n: NodeId)
    requires ValidRun(members, steps) && members == {n}
    ensures Idle(Exec(members, steps), n)
    decreases |steps|
  {
    if steps == [] {
    } else {
      hide Next, Enabled, Idle, WellFormed;
      var before, s := steps[..|steps| - 1], steps[|steps| - 1];
      LonerNeverLeads(members, before, n);
      IdleStep(Exec(members, before), s, n);
    }
  }

  /** The exact condition: a further command can be committed everywhere if and only if the
      cluster has at least two nodes. */
  lemma ProgressIff(members: set<NodeId>, steps: seq<Step>, command: Command)
    requires ValidRun(members, steps) && members != {}
    ensures |members| >= 2 <==>
      exists steps', i :: steps <= steps' && ValidRun(members, steps')
                          && CommittedEverywhere(Exec(members, steps'), i, command)
  {
    hide ValidRun, Exec;
    if |members| >= 2 {
      var steps', i := Progress(members, steps, command);
    } else {
      var n :| n in members;
      assert members == {n} by { assert |members - {n}| == |members| - 1; }
      forall steps': seq<Step>, i | ValidRun(members, steps')
        ensures !CommittedEverywhere(Exec(members, steps'), i, command)
      {
        LonerNeverLeads(members, steps', n);
        assert n in Exec(members, steps').nodes;
      }
    }
  }
}
