/**
 A topic's Raft cluster: one RaftNode per member and a network that only grows, so that
 messages may be lost, duplicated and reordered. A run is a sequence of steps; one step is
 one handler, timeout, client call, or the building of one request.
 */
module RaftCluster {
  import opened RaftTypes
  import opened RaftHandlers

  /** Packets in flight. A reply packet also carries the request it answers; no handler
      reads that field, it only lets a run be described. */
  datatype Packet =
    | VoteReq(src: NodeId, dst: NodeId, vreq: VoteRequest)
    | VoteRep(src: NodeId, dst: NodeId, vrep: VoteReply, vreq: VoteRequest)
    | AppReq(src: NodeId, dst: NodeId, areq: AppendRequest)
    | AppRep(src: NodeId, dst: NodeId, arep: AppendReply, areq: AppendRequest)

  datatype Cluster = Cluster(members: set<NodeId>, nodes: map<NodeId, NodeState>, net: set<Packet>)

  datatype Step =
    | Timeout(node: NodeId)
    | SendVote(node: NodeId, peer: NodeId)
    | SendAppend(node: NodeId, peer: NodeId, heartbeat: bool)
    | ClientPropose(node: NodeId, command: Command)
    | Deliver(packet: Packet)

  ghost predicate WellFormed(c: Cluster) {
    && c.nodes.Keys == c.members
    && "" !in c.members
    && (forall n :: n in c.members ==>
          c.nodes[n].id == n && c.nodes[n].peers == c.members && NodeOk(c.nodes[n]))
    && (forall p :: p in c.net ==> p.src in c.members && p.dst in c.members && p.src != p.dst)
  }

  /** A vote request may be built at any time, even after the node moved on; an append
      request is built while its sender is leader. */
  predicate Enabled(c: Cluster, s: Step)
    requires c.nodes.Keys == c.members
  {
    match s
    case Timeout(n) => n in c.members && c.nodes[n].role != Leader
    case SendVote(n, peer) => n in c.members && peer in c.members && peer != n
    case SendAppend(n, peer, _) => n in c.members && peer in c.members && peer != n && c.nodes[n].role == Leader
    case ClientPropose(n, _) => n in c.members
    case Deliver(p) => p in c.net
  }

  /** The node that takes the step. */
  function Actor(s: Step): NodeId {
    if s.Deliver? then s.packet.dst else s.node
  }

  function Act(n: NodeState, s: Step): (n': NodeState)
    requires NodeOk(n)
    ensures Keeps(n, n')
  {
    match s
    case Timeout(_) => StartElection(n)
    case SendVote(_, _) => n
    case SendAppend(_, _, _) => n
    case ClientPropose(_, command) => Propose(n, command)
    case Deliver(VoteReq(_, _, req)) => HandleVote(n, req).0
    case Deliver(VoteRep(src, _, reply, _)) => HandleVoteReply(n, src, reply)
    case Deliver(AppReq(_, _, req)) => HandleAppend(n, req).0
    case Deliver(AppRep(src, _, reply, _)) => HandleAppendReply(n, src, reply)
  }

  /** The packets a step puts on the network. */
  function Emit(n: NodeState, s: Step): set<Packet>
    requires NodeOk(n)
    requires s.SendAppend? ==> s.peer in n.peers && s.peer != n.id
  {
    match s
    case Timeout(_) => {}
    case SendVote(_, peer) => {VoteReq(n.id, peer, BuildVote(n))}
    case SendAppend(_, peer, heartbeat) => {AppReq(n.id, peer, BuildAppend(n, peer, heartbeat))}
    case ClientPropose(_, _) => {}
    case Deliver(VoteReq(src, _, req)) => {VoteRep(n.id, src, HandleVote(n, req).1, req)}
    case Deliver(AppReq(src, _, req)) => {AppRep(n.id, src, HandleAppend(n, req).1, req)}
    case Deliver(_) => {}
  }

  function Next(c: Cluster, s: Step): (c': Cluster)
    requires WellFormed(c) && Enabled(c, s)
    ensures WellFormed(c')
  {
    var n := c.nodes[Actor(s)];
    c.(nodes := c.nodes[n.id := Act(n, s)], net := c.net + Emit(n, s))
  }

  function Start(members: set<NodeId>): (c: Cluster)
    requires "" !in members
    ensures WellFormed(c)
  {
    Cluster(members, map n | n in members :: Init(n, members), {})
  }

  /** The node that takes step s is one of the cluster and in good order. */
  ghost predicate ActorReady(c: Cluster, s: Step) {
    c.nodes.Keys == c.members && Actor(s) in c.nodes && NodeOk(c.nodes[Actor(s)])
  }

  /** A run from the initial cluster: every step was enabled when it was taken. */
  ghost predicate ValidRun(members: set<NodeId>, steps: seq<Step>)
    decreases |steps|, 0
  {
    && "" !in members
    && (steps == [] ||
        (var before := steps[..|steps| - 1];
         ValidRun(members, before) && Enabled(Exec(members, before), steps[|steps| - 1])))
  }

  /** The cluster a run leads to. In every reachable state every node index is in bounds. */
  ghost function Exec(members: set<NodeId>, steps: seq<Step>): (c: Cluster)
    requires ValidRun(members, steps)
    ensures WellFormed(c) && c.members == members
    decreases |steps|, 1
  {
    if steps == [] then Start(members)
    else Next(Exec(members, steps[..|steps| - 1]), steps[|steps| - 1])
  }

  lemma {:induction false} PrefixIsRun(members: set<NodeId>, steps: seq<Step>, k: nat)
    requires ValidRun(members, steps) && k <= |steps|
    ensures ValidRun(members, steps[..k])
    decreases |steps|
  {
    hide Exec, Enabled;
    if k < |steps| {
      PrefixIsRun(members, steps[..|steps| - 1], k);
      assert steps[..|steps| - 1][..k] == steps[..k];
    } else {
      assert steps[..k] == steps;
    }
  }

  lemma LastActor(members: set<NodeId>, steps: seq<Step>)
    requires ValidRun(members, steps) && steps != []
    ensures var before := steps[..|steps| - 1];
      && ValidRun(members, before) && Enabled(Exec(members, before), steps[|steps| - 1])
      && ActorReady(Exec(members, before), steps[|steps| - 1])
  {
    hide Exec;
  }

  lemma ExtendRun(members: set<NodeId>, steps: seq<Step>, s: Step)
    requires ValidRun(members, steps) && Enabled(Exec(members, steps), s)
    ensures ValidRun(members, steps + [s])
    ensures Exec(members, steps + [s]) == Next(Exec(members, steps), s)
  {
    assert (steps + [s])[..|steps|] == steps;
  }
}
