/**
 Neither hypothesis of the commitment theorems can be dropped: a run of three nodes for
 each, in which only that hypothesis fails and the promise is broken.
 */
module RaftCounterexamples {
  import opened RaftTypes
  import opened RaftHandlers
  import opened RaftCluster
  import opened RaftSafety
  import opened RaftTheorems
  import opened RaftExactness

  const ABC: set<NodeId> := {"a", "b", "c"}

  ghost predicate Reached(steps: seq<Step>, c: Cluster) {
    ValidRun(ABC, steps) && Exec(ABC, steps) == c
  }

  /** Which of the two hypotheses the run satisfies. */
  ghost predicate Tame(steps: seq<Step>, acks: bool, commits: bool)
    requires ValidRun(ABC, steps)
  {
    (acks ==> AcksCover(ABC, steps)) && (commits ==> CommitsCovered(ABC, steps))
  }

  lemma SameCluster(steps: seq<Step>, s: Step, i: nat)
    requires ValidRun(ABC, steps) && ValidRun(ABC, steps + [s]) && i < |steps|
    ensures ClusterAt(ABC, steps + [s], i) == ClusterAt(ABC, steps, i)
  {
    hide ValidRun, Exec, ClusterAt, ActorAt;
    ClusterIs(ABC, steps, i);
    ClusterIs(ABC, steps + [s], i);
    assert (steps + [s])[..i] == steps[..i];
  }

  lemma LastCluster(steps: seq<Step>, c: Cluster, s: Step)
    requires Reached(steps, c) && Enabled(c, s) && ValidRun(ABC, steps + [s])
    ensures ClusterAt(ABC, steps + [s], |steps|) == c
  {
    hide ValidRun, Exec, ClusterAt, ActorAt;
    ClusterIs(ABC, steps + [s], |steps|);
    assert (steps + [s])[..|steps|] == steps;
  }

  lemma StillTame(steps: seq<Step>, c: Cluster, s: Step, acks: bool, commits: bool)
    requires ActorReady(c, s) && Enabled(c, s) && ValidRun(ABC, steps + [s])
    requires Reached(steps, c) && Tame(steps, acks, commits)
    requires acks ==> AckCovers(c.nodes[Actor(s)], s)
    requires commits ==> CommitCovered(c.nodes[Actor(s)], s)
    ensures Tame(steps + [s], acks, commits)
  {
    hide AckCovers, CommitCovered, Exec, ValidRun, ClusterAt;
    var more := steps + [s];
    forall i | 0 <= i < |more|
      ensures acks ==> AckJustified(ClusterAt(ABC, more, i), more[i])
      ensures commits ==> CommitJustified(ClusterAt(ABC, more, i), more[i])
    {
      if i < |steps| {
        SameCluster(steps, s, i);
        assert more[i] == steps[i];
      } else {
        LastCluster(steps, c, s);
      }
    }
  }

  /** A reachable cluster together with the hypotheses its run satisfies. */
  ghost predicate Good(steps: seq<Step>, c: Cluster, acks: bool, commits: bool) {
    Reached(steps, c) && Tame(steps, acks, commits)
  }

  /** Node n of a reachable cluster. */
  ghost predicate Member(c: Cluster, n: NodeId) {
    && c.nodes.Keys == c.members == ABC && n in ABC
    && NodeOk(c.nodes[n]) && c.nodes[n].id == n && c.nodes[n].peers == ABC
  }

  lemma GoodMember(steps: seq<Step>, c: Cluster, acks: bool, commits: bool, n: NodeId)
    requires Good(steps, c, acks, commits) && n in ABC
    ensures Member(c, n)
  {
  }

  /** Take one more step. */
  lemma Do(steps: seq<Step>, c: Cluster, s: Step, acks: bool, commits: bool) returns (c': Cluster)
    requires Good(steps, c, acks, commits) && Member(c, Actor(s)) && Enabled(c, s)
    requires acks ==> AckCovers(c.nodes[Actor(s)], s)
    requires commits ==> CommitCovered(c.nodes[Actor(s)], s)
    ensures Good(steps + [s], c', acks, commits)
    ensures c' == Cluster(c.members, c.nodes[Actor(s) := Act(c.nodes[Actor(s)], s)], c.net + Emit(c.nodes[Actor(s)], s))
  {
    hide AckCovers, CommitCovered, Exec, ValidRun, Tame, Act, Emit;
    ExtendRun(ABC, steps, s);
    c' := Next(c, s);
    StillTame(steps, c, s, acks, commits);
  }

  // ---- an election of x by y ----

  function Voted(n: NodeState, x: NodeId, t: nat): NodeState {
    n.(currentTerm := t, role := Follower, votedFor := x, leaderID := "")
  }

  function Elected(n: NodeState, y: NodeId): NodeState {
    BecomeLeader(StartElection(n).(votes := {n.id, y}))
  }

  lemma VoteOutcome(y: NodeState, p: Packet)
    requires NodeOk(y) && p.VoteReq? && p.vreq.term >= y.currentTerm
    requires UpToDate(y.log, p.vreq.lastLogIndex, p.vreq.lastLogTerm)
    requires p.vreq.term == y.currentTerm ==> y.votedFor == p.vreq.candidate
    ensures Act(y, Deliver(p)) == if y.currentTerm == p.vreq.term then y else Voted(y, p.vreq.candidate, p.vreq.term)
    ensures Emit(y, Deliver(p)) == {VoteRep(y.id, p.src, VoteReply(y.currentTerm, true), p.vreq)}
    ensures AckCovers(y, Deliver(p)) && CommitCovered(y, Deliver(p))
  {
  }

  lemma WinOutcome(x: NodeState, p: Packet)
    requires NodeOk(x) && p.VoteRep? && p.vrep == VoteReply(x.currentTerm, true) && x.peers == ABC
    requires x.role == Candidate && x.votes == {x.id} && p.src != x.id
    ensures Act(x, Deliver(p)) == BecomeLeader(x.(votes := {x.id, p.src}))
    ensures Emit(x, Deliver(p)) == {}
    ensures AckCovers(x, Deliver(p)) && CommitCovered(x, Deliver(p))
  {
    assert {x.id} + {p.src} == {x.id, p.src} && |{x.id, p.src}| == 2 && |ABC| == 3;
  }

  lemma CampaignOutcome(x: NodeState, y: NodeId)
    requires NodeOk(x)
    ensures Act(x, Timeout(x.id)) == StartElection(x) && Emit(x, Timeout(x.id)) == {}
    ensures Act(x, SendVote(x.id, y)) == x && Emit(x, SendVote(x.id, y)) == {VoteReq(x.id, y, BuildVote(x))}
    ensures AckCovers(x, Timeout(x.id)) && CommitCovered(x, Timeout(x.id))
    ensures AckCovers(x, SendVote(x.id, y)) && CommitCovered(x, SendVote(x.id, y))
  {
  }

  /** Node x times out, asks y twice and counts the second reply: the first carries y's
      term from before it moved on and is ignored. */
  lemma Elect(steps: seq<Step>, c: Cluster, x: NodeId, y: NodeId, acks: bool, commits: bool)
    returns (steps': seq<Step>, c': Cluster)
    requires Good(steps, c, acks, commits) && Member(c, x) && Member(c, y) && x != y
    requires c.nodes[x].role != Leader && c.nodes[y].currentTerm <= c.nodes[x].currentTerm
    requires UpToDate(c.nodes[y].log, LastIndex(c.nodes[x].log), LastTerm(c.nodes[x].log))
    ensures Good(steps', c', acks, commits) && steps <= steps'
    ensures c'.members == ABC && c.net <= c'.net
    ensures c'.nodes == c.nodes[x := Elected(c.nodes[x], y)][y := Voted(c.nodes[y], x, c.nodes[x].currentTerm + 1)]
  {
    hide AckCovers, CommitCovered, Good, Act, Emit, NodeOk, UpToDate, BecomeLeader;
    var n, m := c.nodes[x], c.nodes[y];
    CampaignOutcome(n, y);
    var c1 := Do(steps, c, Timeout(x), acks, commits);
    steps' := steps + [Timeout(x)];
    GoodMember(steps', c1, acks, commits, x);
    CampaignOutcome(c1.nodes[x], y);
    var c2 := Do(steps', c1, SendVote(x, y), acks, commits);
    steps' := steps' + [SendVote(x, y)];
    var p := VoteReq(x, y, BuildVote(StartElection(n)));
    VoteOutcome(m, p);
    var c3 := Do(steps', c2, Deliver(p), acks, commits);
    steps' := steps' + [Deliver(p)];
    GoodMember(steps', c3, acks, commits, y);
    VoteOutcome(c3.nodes[y], p);
    var c4 := Do(steps', c3, Deliver(p), acks, commits);
    steps' := steps' + [Deliver(p)];
    var q := VoteRep(y, x, VoteReply(n.currentTerm + 1, true), p.vreq);
    WinOutcome(c4.nodes[x], q);
    c' := Do(steps', c4, Deliver(q), acks, commits);
    steps' := steps' + [Deliver(q)];
  }

  // ---- a leader with two entries of its own, and one peer y ----

  function TwoEntries(t: nat, first: string, second: string): Log {
    [SENTINEL, Entry(t, 1, Payload(first)), Entry(t, 2, Payload(second))]
  }

  lemma ProposeOutcome(n: NodeState, first: string, second: string)
    requires NodeOk(n) && n.role == Leader && n.log == [SENTINEL]
    ensures var s, t := ClientPropose(n.id, Payload(first)), ClientPropose(n.id, Payload(second));
      var m := Act(n, s);
      && Emit(n, s) == {} && NodeOk(m) && Emit(m, t) == {}
      && Act(m, t) == n.(log := TwoEntries(n.currentTerm, first, second))
      && AckCovers(n, s) && CommitCovered(n, s) && AckCovers(m, t) && CommitCovered(m, t)
  {
  }

  lemma ProposeTwo(steps: seq<Step>, c: Cluster, x: NodeId, first: string, second: string, acks: bool, commits: bool)
    returns (steps': seq<Step>, c': Cluster)
    requires Good(steps, c, acks, commits) && Member(c, x)
    requires c.nodes[x].role == Leader && c.nodes[x].log == [SENTINEL]
    ensures Good(steps', c', acks, commits) && steps <= steps' && c'.members == ABC && c'.net == c.net
    ensures c'.nodes == c.nodes[x := c.nodes[x].(log := TwoEntries(c.nodes[x].currentTerm, first, second))]
  {
    hide Good, Act, Emit, NodeOk, TwoEntries, AckCovers, CommitCovered;
    ProposeOutcome(c.nodes[x], first, second);
    var s, t := ClientPropose(x, Payload(first)), ClientPropose(x, Payload(second));
    var c1 := Do(steps, c, s, acks, commits);
    GoodMember(steps + [s], c1, acks, commits, x);
    c' := Do(steps + [s], c1, t, acks, commits);
    steps' := steps + [s] + [t];
  }

  /** Leader x has two entries of its term, has committed nothing and counted nobody but
      possibly y. */
  ghost predicate Fresh(n: NodeState, y: NodeId, next: nat, matched: nat) {
    && NodeOk(n) && n.role == Leader && n.peers == ABC && n.id in ABC && y in ABC && y != n.id
    && n.currentTerm >= 1 && |n.log| == 3 && n.log[0] == SENTINEL
    && n.log[1].term == n.log[2].term == n.currentTerm
    && n.commitIndex == n.lastApplied == 0 && n.applied == []
    && Lookup(n.nextIndex, y) == next && Lookup(n.matchIndex, y) == matched
    && forall z :: z in ABC && z != y ==> Lookup(n.matchIndex, z) == 0
  }

  function Counted1(n: NodeState, y: NodeId): NodeState {
    n.(nextIndex := n.nextIndex[y := 2], matchIndex := n.matchIndex[y := 1])
  }

  function Counted2(n: NodeState, y: NodeId): NodeState
    requires |n.log| == 3
  {
    n.(nextIndex := n.nextIndex[y := 3], matchIndex := n.matchIndex[y := 2],
       commitIndex := 2, lastApplied := 2, applied := n.log[..2])
  }

  /** The first counted success moves no commit index. */
  lemma CountFirst(n: NodeState, p: Packet)
    requires p.AppRep? && Fresh(n, p.src, 1, 0) && p.arep == AppendReply(n.currentTerm, true)
    ensures Act(n, Deliver(p)) == Counted1(n, p.src) && Emit(n, Deliver(p)) == {}
    ensures Fresh(Counted1(n, p.src), p.src, 2, 1)
  {
    var m := Counted1(n, p.src);
    assert MatchedPeers(m, 2) == {};
    assert Highest(m, 2) == Highest(m, 1) == Highest(m, 0) == 0;
  }

  /** The second commits slot 1. */
  lemma CountSecond(n: NodeState, p: Packet)
    requires p.AppRep? && Fresh(n, p.src, 2, 1) && p.arep == AppendReply(n.currentTerm, true)
    ensures Act(n, Deliver(p)) == Counted2(n, p.src) && Emit(n, Deliver(p)) == {}
  {
    var m := n.(nextIndex := n.nextIndex[p.src := 3], matchIndex := n.matchIndex[p.src := 2]);
    assert MatchedPeers(m, 2) == {p.src};
    assert |ABC| == 3;
    assert Highest(m, 2) == 2;
  }

  // ---- heartbeats count as replication ----

  lemma HeartbeatOutcome(x: NodeState, y: NodeId)
    requires Fresh(x, y, 1, 0)
    ensures Emit(x, SendAppend(x.id, y, true)) == {AppReq(x.id, y, AppendRequest(x.currentTerm, x.id, 0, 0, [], 0))}
    ensures Act(x, SendAppend(x.id, y, true)) == x
  {
  }

  lemma HeartbeatAnswer(y: NodeState, p: Packet)
    requires NodeOk(y) && p.AppReq? && p.areq == AppendRequest(y.currentTerm, p.src, 0, 0, [], 0)
    ensures Act(y, Deliver(p)) == y.(leaderID := p.src)
    ensures Emit(y, Deliver(p)) == {AppRep(y.id, p.src, AppendReply(y.currentTerm, true), p.areq)}
    ensures CommitCovered(y, Deliver(p))
  {
  }

  /** Leader x sends y one heartbeat and counts the answer twice. */
  lemma HeartbeatCommit(steps: seq<Step>, c: Cluster, x: NodeId, y: NodeId)
    returns (steps': seq<Step>, before: Cluster, last: Step, c': Cluster)
    requires Good(steps, c, false, true) && Member(c, x) && Member(c, y)
    requires Fresh(c.nodes[x], y, 1, 0) && c.nodes[y].currentTerm == c.nodes[x].currentTerm && |c.nodes[x].log| == 3
    ensures Good(steps', before, false, true) && Good(steps' + [last], c', false, true) && steps <= steps'
    ensures Actor(last) == x && last.Deliver? && last.packet.AppRep? && c'.members == ABC
    ensures before.nodes.Keys == ABC && before.nodes[x] == Counted1(c.nodes[x], y)
    ensures c'.nodes == c.nodes[y := c.nodes[y].(leaderID := x)][x := Counted2(Counted1(c.nodes[x], y), y)]
  {
    hide Good, Act, Emit, CommitCovered, NodeOk, Fresh, Counted1, Counted2;
    var n, m := c.nodes[x], c.nodes[y];
    var s := SendAppend(x, y, true);
    FreshLeads(n, y, 1, 0);
    HeartbeatOutcome(n, y);
    SendIsTame(n, s);
    var c1 := Do(steps, c, s, false, true);
    var p := AppReq(x, y, AppendRequest(n.currentTerm, x, 0, 0, [], 0));
    HeartbeatAnswer(m, p);
    var c2 := Do(steps + [s], c1, Deliver(p), false, true);
    last := Deliver(AppRep(y, x, AppendReply(n.currentTerm, true), p.areq));
    CountFirst(n, last.packet);
    SendIsTame(n, last);
    before := Do(steps + [s] + [Deliver(p)], c2, last, false, true);
    steps' := steps + [s] + [Deliver(p)] + [last];
    GoodMember(steps', before, false, true, x);
    FreshLeads(before.nodes[x], y, 2, 1);
    CountSecond(before.nodes[x], last.packet);
    SendIsTame(before.nodes[x], last);
    c' := Do(steps', before, last, false, true);
  }

  lemma FreshLeads(n: NodeState, y: NodeId, next: nat, matched: nat)
    requires Fresh(n, y, next, matched)
    ensures n.role == Leader && y != n.id && |n.log| == 3
    ensures Counted1(n, y).currentTerm == n.currentTerm && Counted1(n, y).log == n.log
  {
  }

  lemma SendIsTame(n: NodeState, s: Step)
    requires s.SendAppend? || (s.Deliver? && s.packet.AppRep?)
    ensures CommitCovered(n, s)
  {
  }

  lemma AtEnd(steps: seq<Step>, c: Cluster, n: NodeId, more: seq<Step>)
    requires Reached(steps, c) && ValidRun(ABC, more) && steps <= more && n in ABC
    ensures At(ABC, more, |steps|, n) == c.nodes[n]
  {
    hide ValidRun, Exec;
    assert more[..|steps|] == steps;
  }

  lemma StartIsGood(acks: bool, commits: bool) returns (c: Cluster)
    ensures Good([], c, acks, commits) && c.members == ABC
    ensures forall n :: n in ABC ==> n in c.nodes && c.nodes[n] == Init(n, ABC)
  {
    hide Init, WellFormed;
    c := Start(ABC);
  }

  /** The bound of RaftExactness.SuccessProves is met in a run: `b` answers the first heartbeat
      of leader `a` with success and does not hold one slot more than the request proves. */
  lemma UnprovenIsReached() returns (steps: seq<Step>, req: AppendRequest)
    ensures ValidRun(ABC, steps) && AppReq("a", "b", req) in Exec(ABC, steps).net
    ensures var (a, b) := (At(ABC, steps, |steps|, "a"), At(ABC, steps, |steps|, "b"));
      && a.role == Leader && a.currentTerm == req.term && NodeOk(b) && HandleAppend(b, req).1.success
      && Proven(a.log, req) < |a.log| && !HoldsAfter(b, a.log, req, Proven(a.log, req) + 1)
  {
    hide Good, Fresh, NodeOk, Exec, ValidRun, Act, Emit, CommitCovered, Voted, Init, HandleAppend, Proven, HoldsAfter;
    var steps1, c1 := OneLeader(false);
    var n, s := c1.nodes["a"], SendAppend("a", "b", true);
    FreshLeads(n, "b", 1, 0);
    HeartbeatOutcome(n, "b");
    SendIsTame(n, s);
    var c2 := Do(steps1, c1, s, false, true);
    steps, req := steps1 + [s], AppendRequest(n.currentTerm, "a", 0, 0, [], 0);
    GoodRun(steps, c2, false, true);
    AtEnd(steps, c2, "a", steps);
    AtEnd(steps, c2, "b", steps);
    HeartbeatProvesOne(n, c2.nodes["b"], req);
  }

  lemma HeartbeatProvesOne(x: NodeState, y: NodeState, req: AppendRequest)
    requires y == Voted(Init("b", ABC), "a", 1) && req == AppendRequest(1, "a", 0, 0, [], 0) && |x.log| == 3
    ensures NodeOk(y) && HandleAppend(y, req).1.success && Proven(x.log, req) == 1 && !HoldsAfter(y, x.log, req, 2)
  {
  }

  /** Without the hypothesis on acknowledgements Leader Completeness fails: here `a`
      commits slot 1 in term 1 after one answered heartbeat, and `b` then leads term 2
      with nothing but the sentinel in its log. */
  lemma CompletenessNeedsCover() returns (steps: seq<Step>, i: nat)
    ensures ValidRun(ABC, steps) && CommitsCovered(ABC, steps)
    ensures CommitsIn(ABC, steps, i, "a", 2)
    ensures var b := At(ABC, steps, |steps|, "b");
      b.role == Leader && At(ABC, steps, i, "a").currentTerm < b.currentTerm && |b.log| < 2
  {
    hide Good, Fresh, UpToDate, NodeOk, Exec, ValidRun, TwoEntries, CommitsCovered, At,
      Act, Emit, Elected, BecomeLeader;
    var steps1, c1 := OneLeader(false);
    var steps2, before, last, c2 := HeartbeatCommit(steps1, c1, "a", "b");
    GoodMember(steps2 + [last], c2, false, true, "b");
    GoodMember(steps2 + [last], c2, false, true, "c");
    EmptyLogsElect(c2, "b", "c");
    var c3;
    steps, c3 := Elect(steps2 + [last], c2, "b", "c", false, true);
    ElectedFacts(c2.nodes["b"], "c");
    i := |steps2|;
    CommittedOnTheWay(steps2, before, last, c2, steps, c3, false);
    AtEnd(steps, c3, "b", steps);
  }

  lemma CommittedOnTheWay(steps2: seq<Step>, before: Cluster, last: Step, c2: Cluster, steps: seq<Step>, c3: Cluster,
                          acks: bool)
    requires Good(steps2, before, acks, true) && Good(steps2 + [last], c2, acks, true) && Good(steps, c3, acks, true)
    requires steps2 + [last] <= steps && Actor(last) == "a" && last.Deliver? && last.packet.AppRep?
    requires "a" in before.nodes && "a" in c2.nodes
    requires before.nodes["a"].commitIndex < c2.nodes["a"].commitIndex == 2
    ensures Reached(steps, c3) && ValidRun(ABC, steps) && CommitsCovered(ABC, steps) && (acks ==> AcksCover(ABC, steps))
    ensures CommitsIn(ABC, steps, |steps2|, "a", 2) && At(ABC, steps, |steps2|, "a") == before.nodes["a"]
  {
    hide Good, ValidRun, CommitsCovered, AcksCover, At, Exec;
    GoodRun(steps, c3, acks, true);
    GoodRun(steps2, before, acks, true);
    GoodRun(steps2 + [last], c2, acks, true);
    AtEnd(steps2, before, "a", steps);
    AtEnd(steps2 + [last], c2, "a", steps);
    assert steps[|steps2|] == last;
  }

  /** `a` leads term 1 with two entries; `b` voted for it, `c` knows nothing. */
  lemma OneLeader(acks: bool) returns (steps: seq<Step>, c: Cluster)
    ensures Good(steps, c, acks, true) && Member(c, "a") && Member(c, "b") && c.members == ABC
    ensures Fresh(c.nodes["a"], "b", 1, 0) && |c.nodes["a"].log| == 3 && c.nodes["a"].currentTerm == 1
    ensures c.nodes["a"].commitIndex == 0
    ensures c.nodes["b"] == Voted(Init("b", ABC), "a", 1) && c.nodes["c"] == Init("c", ABC)
  {
    hide Good, Fresh, NodeOk, Init, Elected, Voted, TwoEntries;
    var c0 := StartIsGood(acks, true);
    steps, c := FirstLeader(c0, "a", "b", "x", "y", acks, true);
    FirstIsFresh("a", "b", "x", "y");
    FirstFacts("a", "b", "x", "y");
    GoodMember(steps, c, acks, true, "a");
    GoodMember(steps, c, acks, true, "b");
  }

  lemma FirstFacts(x: NodeId, y: NodeId, first: string, second: string)
    ensures var n := Elected(Init(x, ABC), y).(log := TwoEntries(1, first, second));
      |n.log| == 3 && n.currentTerm == 1 && n.commitIndex == 0
  {
  }

  lemma GoodRun(steps: seq<Step>, c: Cluster, acks: bool, commits: bool)
    requires Good(steps, c, acks, commits)
    ensures Reached(steps, c) && ValidRun(ABC, steps)
    ensures (acks ==> AcksCover(ABC, steps)) && (commits ==> CommitsCovered(ABC, steps))
  {
  }

  lemma EmptyLogsElect(c: Cluster, x: NodeId, y: NodeId)
    requires x in c.nodes && y in c.nodes && c.nodes[x].log == c.nodes[y].log
    ensures UpToDate(c.nodes[y].log, LastIndex(c.nodes[x].log), LastTerm(c.nodes[x].log))
  {
  }

  /** Node x, elected by y from the start, proposes two commands. */
  lemma FirstLeader(c: Cluster, x: NodeId, y: NodeId, first: string, second: string, acks: bool, commits: bool)
    returns (steps: seq<Step>, c': Cluster)
    requires Good([], c, acks, commits) && c.members == ABC && x in ABC && y in ABC && x != y
    requires forall n :: n in ABC ==> n in c.nodes && c.nodes[n] == Init(n, ABC)
    ensures Good(steps, c', acks, commits) && c'.members == ABC
    ensures c'.nodes == c.nodes[x := Elected(Init(x, ABC), y).(log := TwoEntries(1, first, second))]
                               [y := Voted(Init(y, ABC), x, 1)]
  {
    hide Good, Act, Emit, NodeOk, UpToDate, TwoEntries, Init, Elected, Voted;
    InitFacts(x);
    InitFacts(y);
    ElectedFacts(Init(x, ABC), y);
    GoodMember([], c, acks, commits, x);
    GoodMember([], c, acks, commits, y);
    EmptyLogsElect(c, x, y);
    var s1, c1 := Elect([], c, x, y, acks, commits);
    GoodMember(s1, c1, acks, commits, x);
    steps, c' := ProposeTwo(s1, c1, x, first, second, acks, commits);
  }

  lemma InitFacts(n: NodeId)
    ensures var x := Init(n, ABC); x.id == n && x.role == Follower && x.currentTerm == 0 && x.log == [SENTINEL]
  {
  }

  lemma ElectedFacts(n: NodeState, y: NodeId)
    ensures var x := Elected(n, y); x.role == Leader && x.currentTerm == n.currentTerm + 1 && x.log == n.log
  {
  }

  lemma FirstIsFresh(x: NodeId, y: NodeId, first: string, second: string)
    requires x in ABC && y in ABC && x != y
    ensures Fresh(Elected(Init(x, ABC), y).(log := TwoEntries(1, first, second)), y, 1, 0)
  {
  }

  // ---- a follower commits what it never checked ----

  lemma FirstAppend(x: NodeState, y: NodeId)
    requires Fresh(x, y, 1, 0)
    ensures Emit(x, SendAppend(x.id, y, false)) == {AppReq(x.id, y, AppendRequest(x.currentTerm, x.id, 0, 0, x.log, 0))}
    ensures Act(x, SendAppend(x.id, y, false)) == x
  {
    assert x.log[0..] == x.log;
  }

  lemma FirstAnswer(y: NodeState, p: Packet)
    requires NodeOk(y) && y.log == [SENTINEL] && p.AppReq? && |p.areq.entries| == 3 && p.areq.entries[0] == SENTINEL
    requires p.areq == AppendRequest(y.currentTerm, p.src, 0, 0, p.areq.entries, 0)
    ensures Act(y, Deliver(p)) == y.(leaderID := p.src, log := p.areq.entries)
    ensures Emit(y, Deliver(p)) == {AppRep(y.id, p.src, AppendReply(y.currentTerm, true), p.areq)}
    ensures CommitCovered(y, Deliver(p))
  {
    assert Merge(y.log, 1, p.areq.entries[1..]) == y.log + p.areq.entries[1..] == p.areq.entries;
  }

  lemma SecondAppend(x: NodeState, y: NodeId)
    requires Fresh(x, y, 2, 1)
    ensures Emit(x, SendAppend(x.id, y, false)) ==
      {AppReq(x.id, y, AppendRequest(x.currentTerm, x.id, 1, 0, x.log[1..], 0))}
    ensures Act(x, SendAppend(x.id, y, false)) == x
  {
  }

  lemma SecondAnswer(y: NodeState, p: Packet)
    requires NodeOk(y) && |y.log| == 3 && y.log[0] == SENTINEL
    requires p.AppReq? && p.areq == AppendRequest(y.currentTerm, p.src, 1, 0, y.log[1..], 0)
    ensures Act(y, Deliver(p)) == y.(leaderID := p.src)
    ensures Emit(y, Deliver(p)) == {AppRep(y.id, p.src, AppendReply(y.currentTerm, true), p.areq)}
    ensures CommitCovered(y, Deliver(p))
  {
    var es := y.log[1..];
    assert Merge(y.log, 3, es[1..][1..]) == y.log;
    assert Merge(y.log, 2, es[1..]) == y.log;
    assert Merge(y.log, 1, es) == y.log;
  }

  /** The heartbeat reaches the old leader, whose own unreplicated entries fill the slots
      that the new leader has committed. */
  lemma StaleCommit(y: NodeState, p: Packet, t: nat)
    requires NodeOk(y) && |y.log| == 3 && y.currentTerm < t && y.commitIndex == y.lastApplied == 0 && y.applied == []
    requires p.AppReq? && p.areq == AppendRequest(t, p.src, 0, 0, [], 2)
    ensures Act(y, Deliver(p)).applied == y.log[..2]
  {
  }

  lemma LateHeartbeat(x: NodeState, y: NodeId)
    requires Lookup(x.nextIndex, y) == 1 && x.commitIndex == 2 && NodeOk(x) && y in x.peers && y != x.id
    ensures Emit(x, SendAppend(x.id, y, true)) == {AppReq(x.id, y, AppendRequest(x.currentTerm, x.id, 0, 0, [], 2))}
    ensures Act(x, SendAppend(x.id, y, true)) == x
  {
  }

  lemma NotAReply(n: NodeState, s: Step)
    requires s.SendAppend? || s.Timeout? || (s.Deliver? && s.packet.AppReq?)
    ensures AckCovers(n, s)
  {
  }

  /** First exchange: y copies the whole log. */
  lemma Replicate(steps: seq<Step>, c: Cluster, x: NodeId, y: NodeId, commits: bool)
    returns (steps': seq<Step>, c': Cluster)
    requires Good(steps, c, true, commits) && Member(c, x) && Member(c, y) && Fresh(c.nodes[x], y, 1, 0)
    requires c.nodes[y].currentTerm == c.nodes[x].currentTerm && c.nodes[y].log == [SENTINEL]
    ensures Good(steps', c', true, commits) && c'.members == ABC
    ensures c'.nodes == c.nodes[y := c.nodes[y].(leaderID := x, log := c.nodes[x].log)][x := Counted1(c.nodes[x], y)]
    ensures Fresh(c'.nodes[x], y, 2, 1)
  {
    hide Good, Act, Emit, AckCovers, CommitCovered, NodeOk, Fresh, Counted1;
    var n, m := c.nodes[x], c.nodes[y];
    var s := SendAppend(x, y, false);
    FreshLeads(n, y, 1, 0);
    FreshLog(n, y, 1, 0);
    FirstAppend(n, y);
    NotAReply(n, s);
    SendIsTame(n, s);
    var c1 := Do(steps, c, s, true, commits);
    var p := AppReq(x, y, AppendRequest(n.currentTerm, x, 0, 0, n.log, 0));
    FirstAnswer(m, p);
    NotAReply(m, Deliver(p));
    var c2 := Do(steps + [s], c1, Deliver(p), true, commits);
    var q := AppRep(y, x, AppendReply(n.currentTerm, true), p.areq);
    CountFirst(n, q);
    CoversNext(n, q);
    SendIsTame(n, Deliver(q));
    c' := Do(steps + [s] + [Deliver(p)], c2, Deliver(q), true, commits);
    steps' := steps + [s] + [Deliver(p)] + [Deliver(q)];
  }

  lemma CoversNext(n: NodeState, q: Packet)
    requires q.AppRep? && q.areq.entries != [] && Lookup(n.nextIndex, q.src) <= q.areq.prevLogIndex + |q.areq.entries|
    ensures AckCovers(n, Deliver(q))
  {
  }

  lemma FreshLog(n: NodeState, y: NodeId, next: nat, matched: nat)
    requires Fresh(n, y, next, matched)
    ensures |n.log| == 3 && n.log[0] == SENTINEL && Lookup(n.nextIndex, y) == next
  {
  }

  /** Second exchange: the leader counts slot 1 and commits it. */
  lemma Confirm(steps: seq<Step>, c: Cluster, x: NodeId, y: NodeId, commits: bool)
    returns (steps': seq<Step>, before: Cluster, last: Step, c': Cluster)
    requires Good(steps, c, true, commits) && Member(c, x) && Member(c, y) && Fresh(c.nodes[x], y, 2, 1)
    requires c.nodes[y].currentTerm == c.nodes[x].currentTerm && c.nodes[y].log == c.nodes[x].log
    ensures |c.nodes[x].log| == 3
    ensures Good(steps', before, true, commits) && Good(steps' + [last], c', true, commits) && c'.members == ABC
    ensures Actor(last) == x && last.Deliver? && last.packet.AppRep?
    ensures before.nodes.Keys == ABC && before.nodes[x] == c.nodes[x]
    ensures c'.nodes == c.nodes[y := c.nodes[y].(leaderID := x)][x := Counted2(c.nodes[x], y)]
  {
    hide Good, Act, Emit, AckCovers, CommitCovered, NodeOk, Fresh, Counted2;
    var n, m := c.nodes[x], c.nodes[y];
    var s := SendAppend(x, y, false);
    FreshLeads(n, y, 2, 1);
    FreshLog(n, y, 2, 1);
    SecondAppend(n, y);
    NotAReply(n, s);
    SendIsTame(n, s);
    var c1 := Do(steps, c, s, true, commits);
    var p := AppReq(x, y, AppendRequest(n.currentTerm, x, 1, 0, n.log[1..], 0));
    SecondAnswer(m, p);
    NotAReply(m, Deliver(p));
    before := Do(steps + [s], c1, Deliver(p), true, commits);
    var q := AppRep(y, x, AppendReply(n.currentTerm, true), p.areq);
    CountSecond(n, q);
    CoversNext(n, q);
    last := Deliver(q);
    SendIsTame(n, last);
    steps' := steps + [s] + [Deliver(p)];
    c' := Do(steps', before, last, true, commits);
  }

  /** `b` led term 1 and proposed two entries nobody else has; `c` leads term 2, elected by
      `a`, with two entries of its own. */
  lemma RivalSetup() returns (steps: seq<Step>, c: Cluster)
    ensures Good(steps, c, true, false) && c.members == ABC && c.nodes.Keys == ABC
    ensures Fresh(c.nodes["c"], "a", 1, 0) && c.nodes["c"].currentTerm == 2
      && c.nodes["c"].log == TwoEntries(2, "y1", "y2")
    ensures Lookup(c.nodes["c"].nextIndex, "b") == 1
    ensures c.nodes["a"].currentTerm == 2 && c.nodes["a"].log == [SENTINEL]
    ensures c.nodes["b"] == Elected(Init("b", ABC), "a").(log := TwoEntries(1, "x1", "x2"))
  {
    hide Good, NodeOk, AckCovers, UpToDate, Fresh, TwoEntries, Elected, BecomeLeader, Init;
    var c0 := StartIsGood(true, false);
    var s1, c1 := FirstLeader(c0, "b", "a", "x1", "x2", true, false);
    GoodMember(s1, c1, true, false, "c");
    InitFacts("a");
    InitFacts("c");
    TimeoutOutcome(c1.nodes["c"]);
    var c2 := Do(s1, c1, Timeout("c"), true, false);
    GoodMember(s1 + [Timeout("c")], c2, true, false, "c");
    GoodMember(s1 + [Timeout("c")], c2, true, false, "a");
    EmptyLogsElect(c2, "c", "a");
    var s3, c3 := Elect(s1 + [Timeout("c")], c2, "c", "a", true, false);
    GoodMember(s3, c3, true, false, "c");
    ElectedFacts(c2.nodes["c"], "a");
    steps, c := ProposeTwo(s3, c3, "c", "y1", "y2", true, false);
    RivalIsFresh();
  }

  lemma TimeoutOutcome(n: NodeState)
    requires NodeOk(n)
    ensures Act(n, Timeout(n.id)) == StartElection(n) && Emit(n, Timeout(n.id)) == {} && AckCovers(n, Timeout(n.id))
  {
  }

  lemma RivalIsFresh()
    ensures var n := Elected(StartElection(Init("c", ABC)), "a").(log := TwoEntries(2, "y1", "y2"));
      Fresh(n, "a", 1, 0) && Lookup(n.nextIndex, "b") == 1
  {
  }

  lemma RivalFacts()
    ensures var n := Elected(Init("b", ABC), "a").(log := TwoEntries(1, "x1", "x2"));
      && |n.log| == 3 && n.currentTerm == 1 && n.commitIndex == n.lastApplied == 0 && n.applied == []
      && n.log[..2] == [SENTINEL, Entry(1, 1, Payload("x1"))]
    ensures TwoEntries(2, "y1", "y2")[..2] == [SENTINEL, Entry(2, 1, Payload("y1"))]
  {
  }

  /** `c` commits its first entry; the old leader `b` still has its own. */
  lemma RivalCommits() returns (steps: seq<Step>, c: Cluster)
    ensures Good(steps, c, true, false) && c.members == ABC && c.nodes.Keys == ABC
    ensures var x := c.nodes["c"];
      && x.role == Leader && x.currentTerm == 2 && x.commitIndex == 2 && Lookup(x.nextIndex, "b") == 1
      && x.applied == TwoEntries(2, "y1", "y2")[..2]
    ensures c.nodes["b"] == Elected(Init("b", ABC), "a").(log := TwoEntries(1, "x1", "x2"))
  {
    hide Good, NodeOk, Fresh, TwoEntries, Elected, Init;
    var s1, c1 := RivalSetup();
    GoodMember(s1, c1, true, false, "c");
    GoodMember(s1, c1, true, false, "a");
    FreshLeads(c1.nodes["c"], "a", 1, 0);
    var s2, c2 := Replicate(s1, c1, "c", "a", false);
    GoodMember(s2, c2, true, false, "c");
    GoodMember(s2, c2, true, false, "a");
    var s3, before, last;
    s3, before, last, c := Confirm(s2, c2, "c", "a", false);
    steps := s3 + [last];
  }

  /** Without the hypothesis on follower commits State Machine Safety fails, although
      every counted acknowledgement covers its slot: `c` has applied its entry at slot 1
      and `b` applies another one there. */
  lemma MachineSafetyNeedsCover() returns (steps: seq<Step>)
    ensures ValidRun(ABC, steps) && AcksCover(ABC, steps)
    ensures var b, c := At(ABC, steps, |steps|, "b").applied, At(ABC, steps, |steps|, "c").applied;
      |b| == |c| == 2 && b[1] != c[1]
  {
    hide Good, NodeOk, TwoEntries, Elected, Init, At, AcksCover, AckCovers, Act, Emit, ValidRun, Exec;
    var s1, c1 := RivalCommits();
    GoodMember(s1, c1, true, false, "c");
    GoodMember(s1, c1, true, false, "b");
    var s := SendAppend("c", "b", true);
    LateHeartbeat(c1.nodes["c"], "b");
    NotAReply(c1.nodes["c"], s);
    var c2 := Do(s1, c1, s, true, false);
    var p := AppReq("c", "b", AppendRequest(2, "c", 0, 0, [], 2));
    RivalFacts();
    StaleCommit(c2.nodes["b"], p, 2);
    NotAReply(c2.nodes["b"], Deliver(p));
    GoodMember(s1 + [s], c2, true, false, "b");
    var c3 := Do(s1 + [s], c2, Deliver(p), true, false);
    steps := s1 + [s] + [Deliver(p)];
    GoodRun(steps, c3, true, false);
    AtEnd(steps, c3, "b", steps);
    AtEnd(steps, c3, "c", steps);
  }

  // ---- the hypotheses can be met ----

  /** A run that satisfies both hypotheses in which `a` replicates and commits slot 1 in
      term 1 and `b` leads term 2: neither theorem is empty. */
  lemma HypothesesAreMet() returns (steps: seq<Step>, i: nat)
    ensures ValidRun(ABC, steps) && AcksCover(ABC, steps) && CommitsCovered(ABC, steps)
    ensures CommitsIn(ABC, steps, i, "a", 2)
    ensures var b := At(ABC, steps, |steps|, "b");
      b.role == Leader && At(ABC, steps, i, "a").currentTerm < b.currentTerm
  {
    hide Good, Fresh, UpToDate, NodeOk, Exec, ValidRun, TwoEntries, CommitsCovered, AcksCover, At, Act, Emit, Elected,
      BecomeLeader, Init, Counted1;
    var s1, c1 := OneLeader(true);
    InitFacts("b");
    InitFacts("c");
    var s2, c2 := Replicate(s1, c1, "a", "b", true);
    GoodMember(s2, c2, true, true, "a");
    GoodMember(s2, c2, true, true, "b");
    FreshLeads(c1.nodes["a"], "b", 1, 0);
    var s3, before, last, c3 := Confirm(s2, c2, "a", "b", true);
    GoodMember(s3 + [last], c3, true, true, "b");
    GoodMember(s3 + [last], c3, true, true, "c");
    FreshCommit(c2.nodes["a"], "b");
    LongerLogElects(c3.nodes["b"].log);
    var c4;
    steps, c4 := Elect(s3 + [last], c3, "b", "c", true, true);
    ElectedFacts(c3.nodes["b"], "c");
    i := |s3|;
    CommittedOnTheWay(s3, before, last, c3, steps, c4, true);
    AtEnd(steps, c4, "b", steps);
  }

  lemma LongerLogElects(log: Log)
    requires |log| == 3 && log[2].term >= 1
    ensures UpToDate([SENTINEL], LastIndex(log), LastTerm(log))
  {
  }

  lemma FreshCommit(n: NodeState, y: NodeId)
    requires Fresh(n, y, 2, 1)
    ensures |n.log| == 3 && n.commitIndex == 0 && n.log[2].term >= 1
  {
  }
}
