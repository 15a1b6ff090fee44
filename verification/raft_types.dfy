/**
 Values exchanged and kept by a per-topic Raft node (internal/raft/raft.go).

 Index convention of the source: protocol index i names log slot i-1, slot 0 holds
 a term-0 sentinel, and the "last log index" of a log is its length minus one.
 */
module RaftTypes {

  type NodeId = string

  datatype Command = Nil | Payload(data: string)

  datatype Entry = Entry(term: nat, index: nat, command: Command)

  const SENTINEL: Entry := Entry(0, 0, Nil)

  /** A log is never empty: it starts with the sentinel. */
  type Log = s: seq<Entry> | |s| > 0 witness [SENTINEL]

  datatype Role = Follower | Candidate | Leader

  datatype VoteRequest = VoteRequest(term: nat, candidate: NodeId, lastLogIndex: nat, lastLogTerm: nat)

  datatype VoteReply = VoteReply(term: nat, granted: bool)

  datatype AppendRequest = AppendRequest(term: nat, leader: NodeId, prevLogIndex: nat, prevLogTerm: nat,
                                         entries: seq<Entry>, leaderCommit: nat)

  datatype AppendReply = AppendReply(term: nat, success: bool)

  /** The fields of a RaftNode. An absent vote is the empty id, as in the source;
      `votes` is the key set of the votes map; `applied` records, in call order, the
      entries whose commands were handed to the apply callback. */
  datatype NodeState = NodeState(
    id: NodeId,
    peers: set<NodeId>,
    role: Role,
    currentTerm: nat,
    votedFor: NodeId,
    leaderID: NodeId,
    log: Log,
    commitIndex: nat,
    lastApplied: nat,
    nextIndex: map<NodeId, nat>,
    matchIndex: map<NodeId, nat>,
    votes: set<NodeId>,
    applied: seq<Entry>)

  /** Reading a missing key of a Go map of integers yields zero. */
  function Lookup(m: map<NodeId, nat>, key: NodeId): nat {
    if key in m then m[key] else 0
  }

  function LastIndex(log: Log): nat {
    |log| - 1
  }

  function LastTerm(log: Log): nat {
    log[|log| - 1].term
  }

  /** Term at a protocol index; zero for index 0 and past the end. */
  function TermAt(log: Log, index: nat): nat {
    if index == 0 || index > |log| then 0 else log[index - 1].term
  }

  /** A log ending in (lastIndex, lastTerm) is at least as up to date as `log`. */
  predicate UpToDate(log: Log, lastIndex: nat, lastTerm: nat) {
    if lastTerm != LastTerm(log) then lastTerm > LastTerm(log) else lastIndex >= LastIndex(log)
  }
}
