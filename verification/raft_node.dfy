/**
 The mutable Raft node (internal/raft/raft.go): the source's fields updated in place.
 Every method is proved to take View() to the value the handler functions give.
 */
module RaftNodeImpl {
  import opened Common
  import opened RaftTypes
  import H = RaftHandlers

  class RaftNode {
    var id: NodeId
    var peers: set<NodeId>
    var role: Role
    var currentTerm: nat
    var votedFor: NodeId
    var leaderID: NodeId
    var log: Log
    var commitIndex: nat
    var lastApplied: nat
    var nextIndex: map<NodeId, nat>
    var matchIndex: map<NodeId, nat>
    var votes: set<NodeId>
    var applied: seq<Entry>

    function View(): NodeState
      reads this
    {
      NodeState(id, peers, role, currentTerm, votedFor, leaderID, log, commitIndex, lastApplied,
                nextIndex, matchIndex, votes, applied)
    }

    constructor (id: NodeId, peers: set<NodeId>)
      ensures View() == H.Init(id, peers)
    {
      this.id, this.peers := id, peers;
      role, currentTerm, votedFor, leaderID := Follower, 0, "", "";
      log, commitIndex, lastApplied, applied := [SENTINEL], 0, 0, [];
      votes := {};
      var next := SetForPeers(map[], id, peers, 1);
      var matched := SetForPeers(map[], id, peers, 0);
      nextIndex, matchIndex := next, matched;
    }

    method StartElection()
      modifies this
      ensures View() == H.StartElection(old(View()))
    {
      currentTerm := currentTerm + 1;
      role := Candidate;
      votedFor := id;
      votes := {};
      votes := votes + {id};
    }

    method RequestVote() returns (req: VoteRequest)
      ensures req == H.BuildVote(View())
    {
      req := VoteRequest(currentTerm, id, LastIndex(log), LastTerm(log));
    }

    method SendAppendEntries(peer: NodeId, heartbeat: bool) returns (req: AppendRequest)
      requires Lookup(nextIndex, peer) >= 1
      ensures req == H.BuildAppend(View(), peer, heartbeat)
    {
      var next := Lookup(nextIndex, peer);
      var entries := [];
      if !heartbeat {
        if next <= |log| {
          entries := log[next - 1..];
        }
      }
      req := AppendRequest(currentTerm, id, next - 1, TermAt(log, next - 1), entries, commitIndex);
    }

    method Propose(command: Command) returns (ok: bool)
      modifies this
      ensures View() == H.Propose(old(View()), command)
      ensures ok == (old(role) == Leader)
    {
      if role != Leader {
        return false;
      }
      log := log + [Entry(currentTerm, LastIndex(log) + 1, command)];
      ok := true;
    }

    method HandleRequestVote(req: VoteRequest) returns (reply: VoteReply)
      modifies this
      ensures (View(), reply) == H.HandleVote(old(View()), req)
    {
      reply := VoteReply(currentTerm, false);
      if req.term < currentTerm {
        return;
      }
      if req.term > currentTerm {
        currentTerm, role, votedFor, leaderID := req.term, Follower, "", "";
      }
      if (votedFor == "" || votedFor == req.candidate) && UpToDate(log, req.lastLogIndex, req.lastLogTerm) {
        votedFor := req.candidate;
        reply := reply.(granted := true);
      }
    }

    method HandleRequestVoteResponse(peer: NodeId, reply: VoteReply)
      modifies this
      ensures View() == H.HandleVoteReply(old(View()), peer, reply)
    {
      if reply.term > currentTerm {
        currentTerm, role, votedFor, leaderID := reply.term, Follower, "", "";
        return;
      }
      if role != Candidate || reply.term != currentTerm {
        return;
      }
      if reply.granted {
        votes := votes + {peer};
        if |votes| > |peers| / 2 {
          BecomeLeader();
        }
      }
    }

    method BecomeLeader()
      modifies this
      ensures View() == H.BecomeLeader(old(View()))
    {
      hide H.ForPeers;
      role := Leader;
      leaderID := id;
      nextIndex := SetForPeers(nextIndex, id, peers, LastIndex(log) + 1);
      matchIndex := SetForPeers(matchIndex, id, peers, 0);
    }

    method HandleAppendEntries(req: AppendRequest) returns (reply: AppendReply)
      requires H.NodeOk(View())
      modifies this
      ensures (View(), reply) == H.HandleAppend(old(View()), req)
    {
      hide H.Merge, H.NodeOk;
      reply := AppendReply(currentTerm, false);
      if req.term < currentTerm {
        return;
      }
      if req.term > currentTerm {
        currentTerm, role, votedFor := req.term, Follower, "";
      }
      leaderID := req.leader;
      assert View() == H.Adopt(old(View()), req);
      hide H.Adopt, H.ApplyLogs;
      if req.prevLogIndex > 0 {
        if req.prevLogIndex > LastIndex(log) || TermAt(log, req.prevLogIndex) != req.prevLogTerm {
          return;
        }
      }
      AppendAll(req.prevLogIndex, req.entries);
      AdvanceCommit(req.leaderCommit);
      reply := reply.(success := true);
    }

    method AdvanceCommit(leaderCommit: nat)
      requires log != []
      modifies this
      ensures var n := old(View());
        View() == if leaderCommit > n.commitIndex
                  then H.ApplyLogs(n.(commitIndex := Min(leaderCommit, LastIndex(n.log))))
                  else n
    {
      if leaderCommit > commitIndex {
        commitIndex := Min(leaderCommit, LastIndex(log));
        ApplyLogs();
      }
    }

    /** The append loop: truncate at a conflicting slot, append past the end. */
    method AppendAll(prev: nat, entries: seq<Entry>)
      requires prev < |log|
      modifies this`log
      ensures log == H.Merge(old(log), prev, entries)
    {
      var i := 0;
      while i < |entries|
        invariant 0 <= i <= |entries| && prev + i <= |log|
        invariant H.Merge(log, prev + i, entries[i..]) == H.Merge(old(log), prev, entries)
      {
        var slots: seq<Entry> := log;
        var index := prev + i + 1;
        if index <= |slots| {
          if slots[index - 1].term != entries[i].term {
            slots := slots[..index - 1];
          }
        }
        if index > |slots| {
          slots := slots + [entries[i]];
        }
        assert entries[i..][1..] == entries[i + 1..];
        assert entries[i..] == [entries[i]] + entries[i + 1..];
        MergeAfterAppend(log, slots, prev + i, entries[i..]);
        log := slots;
        i := i + 1;
      }
    }

    method ApplyLogs()
      requires lastApplied < commitIndex ==> commitIndex <= |log|
      modifies this
      ensures View() == H.ApplyLogs(old(View()))
    {
      while lastApplied < commitIndex
        invariant old(lastApplied) <= lastApplied
        invariant old(lastApplied) < commitIndex ==> lastApplied <= commitIndex <= |log|
        invariant applied == old(applied)
          + (if old(lastApplied) < commitIndex then log[old(lastApplied)..lastApplied] else [])
        invariant old(lastApplied) >= commitIndex ==> lastApplied == old(lastApplied)
        invariant View() == old(View()).(lastApplied := lastApplied, applied := applied)
      {
        lastApplied := lastApplied + 1;
        applied := applied + [log[lastApplied - 1]];
      }
    }

    method HandleAppendEntriesResponse(peer: NodeId, reply: AppendReply)
      requires H.NodeOk(View())
      modifies this
      ensures View() == H.HandleAppendReply(old(View()), peer, reply)
    {
      if reply.term > currentTerm {
        currentTerm, role, votedFor, leaderID := reply.term, Follower, "", "";
        return;
      }
      if role != Leader || reply.term != currentTerm {
        return;
      }
      if reply.success {
        nextIndex := nextIndex[peer := Lookup(nextIndex, peer) + 1];
        matchIndex := matchIndex[peer := nextIndex[peer] - 1];
        TryCommitLogs();
      } else {
        if Lookup(nextIndex, peer) > 1 {
          nextIndex := nextIndex[peer := Lookup(nextIndex, peer) - 1];
        }
      }
    }

    method TryCommitLogs()
      requires H.NodeOk(View())
      modifies this
      ensures View() == H.TryCommit(old(View()))
    {
      var i := commitIndex + 1;
      while i <= LastIndex(log)
        invariant i > old(commitIndex)
        invariant i <= |log| || i == old(commitIndex) + 1
        invariant commitIndex == H.Highest(old(View()), i - 1)
        invariant View() == old(View()).(commitIndex := commitIndex)
        decreases |log| - i
      {
        if log[i - 1].term == currentTerm {
          var count := CountMatched(i);
          if count > |peers| / 2 {
            commitIndex := i;
          }
        }
        i := i + 1;
      }
      HighestPastEnd(old(View()), i - 1);
      ApplyLogs();
    }

    /** The leader itself plus the peers known to hold index i. */
    method CountMatched(i: nat) returns (count: nat)
      ensures count == 1 + |H.MatchedPeers(View(), i)|
    {
      count := 1;
      var todo := peers;
      ghost var seen: set<NodeId> := {};
      while todo != {}
        invariant todo <= peers
        invariant seen == set p | p in peers - todo && p != id && Lookup(matchIndex, p) >= i
        invariant count == 1 + |seen|
        decreases todo
      {
        var p :| p in todo;
        if p != id && Lookup(matchIndex, p) >= i {
          assert p !in seen;
          count := count + 1;
          seen := seen + {p};
        }
        todo := todo - {p};
      }
      assert seen == H.MatchedPeers(View(), i);
    }
  }

  /** The loops that set an index for every peer but the node itself. */
  method SetForPeers(m: map<NodeId, nat>, id: NodeId, peers: set<NodeId>, value: nat)
    returns (r: map<NodeId, nat>)
    ensures r == H.ForPeers(m, id, peers, value)
  {
    r := m;
    var todo := peers;
    while todo != {}
      invariant todo <= peers
      invariant r.Keys == m.Keys + (peers - todo - {id})
      invariant forall p :: p in r ==> r[p] == if p in peers - todo && p != id then value else m[p]
      decreases todo
    {
      var p :| p in todo;
      if p != id {
        r := r[p := value];
      }
      todo := todo - {p};
    }
  }

  /** One iteration of the append loop leaves the final merge unchanged. */
  lemma MergeAfterAppend(log: seq<Entry>, slots: seq<Entry>, at: nat, entries: seq<Entry>)
    requires at <= |log| && entries != []
    requires slots == if at < |log| && log[at].term == entries[0].term then log else log[..at] + [entries[0]]
    ensures H.Merge(slots, at + 1, entries[1..]) == H.Merge(log, at, entries)
  {
    if !(at < |log| && log[at].term == entries[0].term) {
      assert log[..at] + entries == slots + entries[1..];
      assert slots[..at + 1] == slots;
    }
  }

  /** Nothing between the last index and the commit index can change the commit index. */
  lemma HighestPastEnd(n: NodeState, i: nat)
    requires i == LastIndex(n.log) || (i == n.commitIndex && LastIndex(n.log) <= i)
    ensures H.Highest(n, i) == H.Highest(n, LastIndex(n.log))
  {
  }
}
