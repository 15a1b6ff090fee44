/**
 The Raft results, stated over whole runs and without mention of the recorded history.
 Times i and j are positions in the run: the cluster after the first i steps is
 Exec(members, steps[..i]).
 */
module RaftTheorems {
  import opened RaftTypes
  import opened RaftHandlers
  import opened RaftCluster
  import opened RaftHistory
  import opened RaftElection
  import opened RaftLog
  import opened RaftCommit
  import opened RaftSafety
  import opened RaftMachine

  /** Node `n` after the first i steps. */
  ghost function At(members: set<NodeId>, steps: seq<Step>, i: nat, n: NodeId): NodeState
    requires ValidRun(members, steps) && i <= |steps| && n in members
  {
    PrefixIsRun(members, steps, i);
    Exec(members, steps[..i]).nodes[n]
  }

  ghost function HistoryAt(members: set<NodeId>, steps: seq<Step>, i: nat): History
    requires ValidRun(members, steps) && i <= |steps|
  {
    PrefixIsRun(members, steps, i);
    HistoryOf(members, steps[..i])
  }

  lemma StepAt(members: set<NodeId>, steps: seq<Step>, i: nat)
    requires ValidRun(members, steps) && i < |steps|
    ensures ValidRun(members, steps[..i]) && ValidRun(members, steps[..i + 1])
    ensures Enabled(Exec(members, steps[..i]), steps[i]) && ActorReady(Exec(members, steps[..i]), steps[i])
    ensures Exec(members, steps[..i + 1]) == Next(Exec(members, steps[..i]), steps[i])
    ensures HistoryOf(members, steps[..i + 1])
         == Record(HistoryOf(members, steps[..i]), Exec(members, steps[..i]).nodes[Actor(steps[i])], steps[i])
  {
    hide ValidRun, Exec, HistoryOf, Next, Record, Enabled;
    PrefixIsRun(members, steps, i + 1);
    LastStep(members, steps[..i + 1]);
    assert steps[..i + 1][..i] == steps[..i];
  }

  lemma LastStep(members: set<NodeId>, run: seq<Step>)
    requires ValidRun(members, run) && run != []
    ensures var (before, s) := (run[..|run| - 1], run[|run| - 1]);
      && ValidRun(members, before) && Enabled(Exec(members, before), s) && ActorReady(Exec(members, before), s)
      && Exec(members, run) == Next(Exec(members, before), s)
      && HistoryOf(members, run) == Record(HistoryOf(members, before), Exec(members, before).nodes[Actor(s)], s)
  {
    hide Next, Record, Enabled, ActorReady;
    LastActor(members, run);
  }

  /** What step i does to node n. */
  lemma NodeStepAt(members: set<NodeId>, steps: seq<Step>, i: nat, n: NodeId)
    requires ValidRun(members, steps) && i < |steps| && n in members
    ensures NodeOk(At(members, steps, i, n)) && At(members, steps, i, n).id == n
    ensures At(members, steps, i, n).peers == members
    ensures At(members, steps, i + 1, n)
         == if Actor(steps[i]) == n then Act(At(members, steps, i, n), steps[i]) else At(members, steps, i, n)
  {
    hide ValidRun, HistoryOf, Act, Emit, NodeOk;
    StepAt(members, steps, i);
  }

  lemma InvAt(members: set<NodeId>, steps: seq<Step>, i: nat)
    requires ValidRun(members, steps) && i <= |steps|
    ensures ValidRun(members, steps[..i]) && Inv(Exec(members, steps[..i]), HistoryAt(members, steps, i))
  {
    PrefixIsRun(members, steps, i);
    RunInv(members, steps[..i]);
  }

  lemma {:induction false} HistoryGrowsTo(members: set<NodeId>, steps: seq<Step>, i: nat, j: nat)
    requires ValidRun(members, steps) && i <= j <= |steps|
    ensures HistoryGrows(HistoryAt(members, steps, i), HistoryAt(members, steps, j))
    ensures LogsGrow(HistoryAt(members, steps, i), HistoryAt(members, steps, j))
    decreases j
  {
    hide ValidRun, Exec, HistoryOf, Next, Record, VoteInv, LogInv, AckInv, ChoiceInv, HistoryGrows, LogsGrow, NodesMove;
    if i < j {
      HistoryGrowsTo(members, steps, i, j - 1);
      InvAt(members, steps, j - 1);
      StepAt(members, steps, j - 1);
      StepSteps(Exec(members, steps[..j - 1]), HistoryAt(members, steps, j - 1), steps[j - 1]);
      GrowsTransitive(HistoryAt(members, steps, i), HistoryAt(members, steps, j - 1), HistoryAt(members, steps, j));
    } else {
      GrowsReflexive(HistoryAt(members, steps, i));
    }
  }

  lemma GrowsTransitive(a: History, b: History, c: History)
    requires HistoryGrows(a, b) && HistoryGrows(b, c) && LogsGrow(a, b) && LogsGrow(b, c)
    ensures HistoryGrows(a, c) && LogsGrow(a, c)
  {
  }

  lemma GrowsReflexive(a: History)
    ensures HistoryGrows(a, a) && LogsGrow(a, a)
  {
  }

  // ---- Election Safety ----

  lemma LeaderIsRecorded(members: set<NodeId>, steps: seq<Step>, i: nat, n: NodeId)
    requires ValidRun(members, steps) && i <= |steps| && n in members && At(members, steps, i, n).role == Leader
    ensures var h := HistoryAt(members, steps, i);
      var t := At(members, steps, i, n).currentTerm;
      t in h.leaderOf && h.leaderOf[t] == n && t in h.leaderLog && h.leaderLog[t] == At(members, steps, i, n).log
  {
    InvAt(members, steps, i);
    var c, h := Exec(members, steps[..i]), HistoryAt(members, steps, i);
    assert NodeVotesOk(h, c.nodes[n]) && NodeLogOk(h, c.nodes[n]);
  }

  /** At most one node is ever leader in a term, over the whole run. */
  lemma ElectionSafety(members: set<NodeId>, steps: seq<Step>, i: nat, j: nat, a: NodeId, b: NodeId)
    requires ValidRun(members, steps) && i <= |steps| && j <= |steps| && a in members && b in members
    requires At(members, steps, i, a).role == Leader && At(members, steps, j, b).role == Leader
    requires At(members, steps, i, a).currentTerm == At(members, steps, j, b).currentTerm
    ensures a == b
  {
    LeaderIsRecorded(members, steps, i, a);
    LeaderIsRecorded(members, steps, j, b);
    if i <= j {
      HistoryGrowsTo(members, steps, i, j);
    } else {
      HistoryGrowsTo(members, steps, j, i);
    }
  }

  // ---- Log Matching and Leader Append-Only ----

  lemma GoodLogAt(members: set<NodeId>, steps: seq<Step>, i: nat, j: nat, n: NodeId)
    requires ValidRun(members, steps) && i <= j <= |steps| && n in members
    ensures GoodLog(HistoryAt(members, steps, j).leaderLog, At(members, steps, i, n).log)
  {
    InvAt(members, steps, i);
    var c, h := Exec(members, steps[..i]), HistoryAt(members, steps, i);
    assert NodeLogOk(h, c.nodes[n]);
    HistoryGrowsTo(members, steps, i, j);
    GoodLogGrows(h, HistoryAt(members, steps, j), c.nodes[n].log);
  }

  /** Two logs, at any two times, with the same term at a slot are identical up to it. */
  lemma LogMatching(members: set<NodeId>, steps: seq<Step>, i: nat, j: nat, a: NodeId, b: NodeId, k: nat)
    requires ValidRun(members, steps) && i <= |steps| && j <= |steps| && a in members && b in members
    requires k < |At(members, steps, i, a).log| && k < |At(members, steps, j, b).log|
    requires At(members, steps, i, a).log[k].term == At(members, steps, j, b).log[k].term
    ensures At(members, steps, i, a).log[..k + 1] == At(members, steps, j, b).log[..k + 1]
  {
    GoodLogAt(members, steps, i, |steps|, a);
    GoodLogAt(members, steps, j, |steps|, b);
    SameTermSamePrefix(HistoryAt(members, steps, |steps|).leaderLog,
                       At(members, steps, i, a).log, At(members, steps, j, b).log, k);
  }

  /** A leader's log only grows while it leads a term. */
  lemma LeaderAppendOnly(members: set<NodeId>, steps: seq<Step>, i: nat, j: nat, a: NodeId)
    requires ValidRun(members, steps) && i <= j <= |steps| && a in members
    requires At(members, steps, i, a).role == Leader && At(members, steps, j, a).role == Leader
    requires At(members, steps, i, a).currentTerm == At(members, steps, j, a).currentTerm
    ensures At(members, steps, i, a).log <= At(members, steps, j, a).log
  {
    LeaderIsRecorded(members, steps, i, a);
    LeaderIsRecorded(members, steps, j, a);
    HistoryGrowsTo(members, steps, i, j);
  }

  // ---- Global index safety ----

  /** The sentinel stays at slot 0, every entry carries its slot number, terms never
      decrease along a log, and every next index is at least 1. */
  lemma IndexSafety(members: set<NodeId>, steps: seq<Step>, i: nat, n: NodeId)
    requires ValidRun(members, steps) && i <= |steps| && n in members
    ensures LogShape(At(members, steps, i, n).log)
    ensures forall p :: p in members && p != n ==> Lookup(At(members, steps, i, n).nextIndex, p) >= 1
  {
    hide ValidRun, Exec, HistoryOf, SlotAgrees, LogShape;
    GoodLogAt(members, steps, i, i, n);
  }

  // ---- Apply discipline ----

  /** A step hands the apply callback the next slots of the node's own log, in order, or
      nothing; whatever happens to the commit index. */
  lemma AppliesInOrder(n: NodeState, s: Step)
    requires NodeOk(n)
    ensures AppliedNext(n, Act(n, s))
  {
    hide Merge, ForPeers, Highest, UpToDate, PrevMatches, MatchedPeers;
    match s
    case Deliver(VoteReq(_, _, _)) =>
    case Deliver(VoteRep(_, _, _, _)) =>
    case Deliver(AppReq(_, _, _)) =>
    case Deliver(AppRep(_, _, _, _)) =>
    case _ =>
  }

  /** From n to n', the apply callback got the next slots of the node's own log, in order,
      or nothing. */
  ghost predicate AppliedNext(n: NodeState, n': NodeState) {
    && n'.commitIndex <= n'.lastApplied == |n'.applied|
    && (n'.applied == n.applied
        || (|n.applied| < |n'.applied| <= |n'.log|
            && n'.applied == n.applied + n'.log[|n.applied|..|n'.applied|]))
  }

  /** The k-th call of the apply callback is for slot k, in every run. */
  lemma {:induction false} ApplyDiscipline(members: set<NodeId>, steps: seq<Step>, i: nat, n: NodeId)
    requires ValidRun(members, steps) && i <= |steps| && n in members
    ensures AppliedSlots(At(members, steps, i, n))
    decreases i
  {
    hide ValidRun, Exec, Act, NodeOk, At;
    if i > 0 {
      ApplyDiscipline(members, steps, i - 1, n);
      NodeStepAt(members, steps, i - 1, n);
      IndexSafety(members, steps, i, n);
      AppliesInOrder(At(members, steps, i - 1, n), steps[i - 1]);
    } else {
      NodeAtStart(members, steps, n);
    }
  }

  /** Slots 0, 1, 2, ... once each, as far as lastApplied, which is never behind the
      commit index. */
  ghost predicate AppliedSlots(n: NodeState) {
    && n.commitIndex <= n.lastApplied == |n.applied|
    && forall k :: 0 <= k < |n.applied| ==> n.applied[k].index == k
  }

  lemma NodeAtStart(members: set<NodeId>, steps: seq<Step>, n: NodeId)
    requires ValidRun(members, steps) && n in members
    ensures At(members, steps, 0, n) == Init(n, members)
  {
    PrefixIsRun(members, steps, 0);
    assert steps[..0] == [];
  }

  lemma {:induction false} AppliedGrows(members: set<NodeId>, steps: seq<Step>, i: nat, j: nat, n: NodeId)
    requires ValidRun(members, steps) && i <= j <= |steps| && n in members
    ensures At(members, steps, i, n).applied <= At(members, steps, j, n).applied
    decreases j
  {
    hide ValidRun, Exec, Act, NodeOk, At;
    if i < j {
      AppliedGrows(members, steps, i, j - 1, n);
      NodeStepAt(members, steps, j - 1, n);
      AppliesInOrder(At(members, steps, j - 1, n), steps[j - 1]);
    }
  }

  // ---- Election restriction ----

  /** In step k, `v`, which had no vote in term t yet, voted for `candidate` in that term
      while its log was `log`. */
  ghost predicate VotedIn(members: set<NodeId>, steps: seq<Step>, k: nat, v: NodeId, t: nat,
                          candidate: NodeId, log: Log)
    requires ValidRun(members, steps)
  {
    && k < |steps| && v in members && Actor(steps[k]) == v
    && At(members, steps, k, v).log == log
    && (At(members, steps, k, v).currentTerm < t || At(members, steps, k, v).votedFor == "")
    && At(members, steps, k + 1, v).currentTerm == t && At(members, steps, k + 1, v).votedFor == candidate
  }

  lemma {:induction false} BallotWasCast(members: set<NodeId>, steps: seq<Step>, i: nat, v: NodeId, t: nat)
    returns (k: nat)
    requires ValidRun(members, steps) && i <= |steps| && (v, t) in HistoryAt(members, steps, i).ballots
    ensures var b := HistoryAt(members, steps, i).ballots[(v, t)];
      k < i && VotedIn(members, steps, k, v, t, b.candidate, b.log)
    decreases i
  {
    hide ValidRun, Exec, HistoryOf, HistoryAt, VotedIn, LogsGrow;
    if i == 0 {
      NoBallotsAtStart(members, steps);
    } else if (v, t) in HistoryAt(members, steps, i - 1).ballots {
      HistoryGrowsTo(members, steps, i - 1, i);
      k := BallotWasCast(members, steps, i - 1, v, t);
    } else {
      k := i - 1;
      CastIn(members, steps, k, v, t);
    }
  }

  lemma NoBallotsAtStart(members: set<NodeId>, steps: seq<Step>)
    requires ValidRun(members, steps)
    ensures HistoryAt(members, steps, 0) == NoHistory()
  {
    PrefixIsRun(members, steps, 0);
    assert steps[..0] == [];
  }

  lemma CastIn(members: set<NodeId>, steps: seq<Step>, k: nat, v: NodeId, t: nat)
    requires ValidRun(members, steps) && k < |steps|
    requires (v, t) in HistoryAt(members, steps, k + 1).ballots && (v, t) !in HistoryAt(members, steps, k).ballots
    ensures var b := HistoryAt(members, steps, k + 1).ballots[(v, t)];
      VotedIn(members, steps, k, v, t, b.candidate, b.log)
  {
    hide ValidRun, Exec, HistoryOf, Next, Record, LogInv, AckInv, ChoiceInv, VoteInv, ActorKnows, Act, NodeOk;
    StepAt(members, steps, k);
    InvAt(members, steps, k);
    var c, h, s := Exec(members, steps[..k]), HistoryAt(members, steps, k), steps[k];
    InvGivesActor(c, h, s);
    CastVote(h, c.nodes[Actor(s)], s, v, t);
    NodeStepAt(members, steps, k, Actor(s));
  }

  /** `v` voted for `candidate` in term t before step i, when its log was no more up to
      date than `log`. */
  ghost predicate GaveVote(members: set<NodeId>, steps: seq<Step>, i: nat, v: NodeId, t: nat,
                           candidate: NodeId, log: Log)
    requires ValidRun(members, steps)
  {
    exists k: nat, its: Log :: k < i && VotedIn(members, steps, k, v, t, candidate, its)
                            && UpToDate(its, LastIndex(log), LastTerm(log))
  }

  /** Whoever becomes leader was voted for by a majority, each of whose logs was, when it
      voted, no more up to date than the new leader's. */
  lemma ElectionRestriction(members: set<NodeId>, steps: seq<Step>, i: nat, n: NodeId) returns (voters: set<NodeId>)
    requires ValidRun(members, steps) && i < |steps| && n in members
    requires At(members, steps, i, n).role != Leader && At(members, steps, i + 1, n).role == Leader
    ensures voters <= members && 2 * |voters| > |members|
    ensures forall v :: v in voters ==>
      GaveVote(members, steps, i, v, At(members, steps, i + 1, n).currentTerm, n, At(members, steps, i + 1, n).log)
  {
    hide ValidRun, Exec, HistoryOf, Next, Record, LogInv, AckInv, ChoiceInv, VoteInv, Act, VotedIn, NodeOk;
    StepAt(members, steps, i);
    InvAt(members, steps, i);
    NodeStepAt(members, steps, i, n);
    var c, h, s := Exec(members, steps[..i]), HistoryAt(members, steps, i), steps[i];
    var m, w := c.nodes[n], At(members, steps, i + 1, n);
    StepMovesNodes(c, s);
    VotersMovedOn(c, h, s, Next(c, s));
    voters := m.votes + {s.packet.src};
    forall v | v in voters ensures GaveVote(members, steps, i, v, w.currentTerm, n, w.log) {
      var k := BallotWasCast(members, steps, i, v, w.currentTerm);
      assert VotedIn(members, steps, k, v, w.currentTerm, n, h.ballots[(v, w.currentTerm)].log);
    }
  }

  // ---- Leader Completeness ----

  lemma ActorIsMember(members: set<NodeId>, steps: seq<Step>, i: nat)
    requires ValidRun(members, steps) && i < |steps|
    ensures Actor(steps[i]) in members
  {
    hide ValidRun, Exec, Next;
    StepAt(members, steps, i);
    Ready(Exec(members, steps[..i]), steps[i]);
  }

  /** The node that takes step i, before it does. */
  ghost function ActorAt(members: set<NodeId>, steps: seq<Step>, i: nat): NodeState
    requires ValidRun(members, steps) && i < |steps|
  {
    ActorIsMember(members, steps, i);
    At(members, steps, i, Actor(steps[i]))
  }

  /** The cluster before step i, in which its actor is a node. */
  ghost function ClusterAt(members: set<NodeId>, steps: seq<Step>, i: nat): (c: Cluster)
    requires ValidRun(members, steps) && i < |steps|
    ensures Actor(steps[i]) in c.nodes && c.nodes[Actor(steps[i])] == ActorAt(members, steps, i)
  {
    StepAt(members, steps, i);
    Exec(members, steps[..i])
  }

  lemma ClusterIs(members: set<NodeId>, steps: seq<Step>, i: nat)
    requires ValidRun(members, steps) && i < |steps|
    ensures ValidRun(members, steps[..i]) && ClusterAt(members, steps, i) == Exec(members, steps[..i])
  {
    hide ValidRun, Exec, ActorAt;
    PrefixIsRun(members, steps, i);
  }

  /** Every slot a leader of the run counts is proven by a request the peer accepted. */
  ghost predicate AcksCover(members: set<NodeId>, steps: seq<Step>)
    requires ValidRun(members, steps)
  {
    forall i :: 0 <= i < |steps| ==> AckJustified(ClusterAt(members, steps, i), steps[i])
  }

  /** No follower of the run commits past what it may take for the leader's. */
  ghost predicate CommitsCovered(members: set<NodeId>, steps: seq<Step>)
    requires ValidRun(members, steps)
  {
    forall i :: 0 <= i < |steps| ==> CommitJustified(ClusterAt(members, steps, i), steps[i])
  }

  lemma AckCoversAt(members: set<NodeId>, steps: seq<Step>, i: nat)
    requires ValidRun(members, steps) && i < |steps| && AcksCover(members, steps)
    ensures ValidRun(members, steps[..i]) && Actor(steps[i]) in members
    ensures AckJustified(Exec(members, steps[..i]), steps[i])
  {
    hide ValidRun, Exec, AckJustified;
    StepAt(members, steps, i);
    assert ClusterAt(members, steps, i) == Exec(members, steps[..i]);
  }

  lemma CommitCoveredAt(members: set<NodeId>, steps: seq<Step>, i: nat)
    requires ValidRun(members, steps) && i < |steps| && CommitsCovered(members, steps)
    ensures ValidRun(members, steps[..i]) && Actor(steps[i]) in members
    ensures CommitJustified(Exec(members, steps[..i]), steps[i])
  {
    hide ValidRun, Exec, CommitJustified;
    StepAt(members, steps, i);
    assert ClusterAt(members, steps, i) == Exec(members, steps[..i]);
  }

  lemma {:induction false} CommitInvAt(members: set<NodeId>, steps: seq<Step>, i: nat)
    requires ValidRun(members, steps) && i <= |steps| && AcksCover(members, steps)
    ensures ValidRun(members, steps[..i])
    ensures CommitInv(Exec(members, steps[..i]), HistoryAt(members, steps, i))
    decreases i
  {
    hide ValidRun, Exec, HistoryOf, Next, Record, Inv, CommitInv, AckJustified, AcksCover, Steps, Enabled, WellFormed;
    PrefixIsRun(members, steps, i);
    if i > 0 {
      CommitInvAt(members, steps, i - 1);
      StepAt(members, steps, i - 1);
      InvAt(members, steps, i - 1);
      AckCoversAt(members, steps, i - 1);
      CommitStep(Exec(members, steps[..i - 1]), HistoryAt(members, steps, i - 1), steps[i - 1]);
    } else {
      CommitInvStart(members, steps);
    }
  }

  lemma CommitStep(c: Cluster, h: History, s: Step)
    requires WellFormed(c) && Enabled(c, s) && ActorReady(c, s)
    requires Inv(c, h) && CommitInv(c, h) && AckJustified(c, s)
    ensures CommitInv(Next(c, s), Record(h, c.nodes[Actor(s)], s))
  {
    hide Next, Record, LogInv, AckInv, ChoiceInv, VoteInv, CommitInv, AckJustified, Steps;
    StepSteps(c, h, s);
    CommitInvKept(c, h, s, Next(c, s), Record(h, c.nodes[Actor(s)], s));
  }

  lemma CommitInvStart(members: set<NodeId>, steps: seq<Step>)
    requires ValidRun(members, steps)
    ensures ValidRun(members, steps[..0])
    ensures CommitInv(Exec(members, steps[..0]), HistoryAt(members, steps, 0))
    ensures SafeInv(Exec(members, steps[..0]), HistoryAt(members, steps, 0))
  {
    PrefixIsRun(members, steps, 0);
    assert steps[..0] == [];
  }

  /** In step i the leader `a` moves its commit index to `index`. */
  ghost predicate CommitsIn(members: set<NodeId>, steps: seq<Step>, i: nat, a: NodeId, index: nat)
    requires ValidRun(members, steps)
  {
    && i < |steps| && a in members && Actor(steps[i]) == a
    && steps[i].Deliver? && steps[i].packet.AppRep?
    && At(members, steps, i, a).commitIndex < At(members, steps, i + 1, a).commitIndex == index
  }

  lemma CommitRecorded(members: set<NodeId>, steps: seq<Step>, i: nat, a: NodeId, index: nat)
    requires ValidRun(members, steps) && CommitsIn(members, steps, i, a, index)
    ensures var t := At(members, steps, i, a).currentTerm;
      && Commit(t, index) in HistoryAt(members, steps, i + 1).commits
      && At(members, steps, i, a).role == Leader && index <= |At(members, steps, i, a).log|
  {
    hide ValidRun, Exec, HistoryOf, Act, NodeOk;
    StepAt(members, steps, i);
    NodeStepAt(members, steps, i, a);
    NewCommit(HistoryAt(members, steps, i), At(members, steps, i, a), steps[i]);
  }

  /** What could be chosen at time j could be chosen at every earlier time at which a
      later leader already existed. */
  lemma {:induction false} ChoosableEarlier(members: set<NodeId>, steps: seq<Step>, i: nat, j: nat, t: nat,
                                            k: nat, t': nat)
    requires ValidRun(members, steps) && i <= j <= |steps| && ValidRun(members, steps[..j])
    requires Choosable(Exec(members, steps[..j]), HistoryAt(members, steps, j), t, k)
    requires t < t' && t' in HistoryAt(members, steps, i).leaderOf
    ensures ValidRun(members, steps[..i])
    ensures Choosable(Exec(members, steps[..i]), HistoryAt(members, steps, i), t, k)
    decreases j
  {
    hide ValidRun, Exec, HistoryOf, Choosable, LogsGrow;
    if i < j {
      HistoryGrowsTo(members, steps, i, j - 1);
      PrefixIsRun(members, steps, j - 1);
      ChoosableOneEarlier(members, steps, j - 1, t, k, t');
      ChoosableEarlier(members, steps, i, j - 1, t, k, t');
    }
  }

  lemma ChoosableOneEarlier(members: set<NodeId>, steps: seq<Step>, i: nat, t: nat, k: nat, t': nat)
    requires ValidRun(members, steps) && i < |steps|
      && ValidRun(members, steps[..i]) && ValidRun(members, steps[..i + 1])
    requires Choosable(Exec(members, steps[..i + 1]), HistoryAt(members, steps, i + 1), t, k)
    requires t < t' && t' in HistoryAt(members, steps, i).leaderOf
    ensures Choosable(Exec(members, steps[..i]), HistoryAt(members, steps, i), t, k)
  {
    hide ValidRun, Exec, HistoryOf, LogInv, AckInv, ChoiceInv, VoteInv, Next, Record, Supporters, Steps;
    StepAt(members, steps, i);
    InvAt(members, steps, i);
    var c, h, s := Exec(members, steps[..i]), HistoryAt(members, steps, i), steps[i];
    StepSteps(c, h, s);
    InvGivesActorLog(c, h, s);
    SlotOrigin(h, c.nodes[Actor(s)], s, t, k);
    if t in h.leaderOf && t in h.leaderLog && k <= |h.leaderLog[t]| {
      ChoosableBefore(c, h, s, Next(c, s), Record(h, c.nodes[Actor(s)], s), t, k);
    } else {
      NewSlotHasNoLaterLeader(c, h, s, Next(c, s), Record(h, c.nodes[Actor(s)], s), t');
    }
  }

  lemma CommitChoosable(members: set<NodeId>, steps: seq<Step>, i: nat, a: NodeId, index: nat, m: nat)
    requires ValidRun(members, steps) && AcksCover(members, steps) && CommitsIn(members, steps, i, a, index)
    requires i < m <= |steps|
    ensures ValidRun(members, steps[..m])
    ensures Choosable(Exec(members, steps[..m]), HistoryAt(members, steps, m),
      At(members, steps, i, a).currentTerm, index)
  {
    hide ValidRun, Exec, HistoryOf, CommitsIn, AcksCover, CommitOk, Choosable, Backed;
    CommitInRun(members, steps, i, a, index);
    CommitRecorded(members, steps, i, a, index);
    HistoryGrowsTo(members, steps, i + 1, m);
    CommitInvAt(members, steps, m);
    CommitIsChoosable(Exec(members, steps[..m]), HistoryAt(members, steps, m),
                      Commit(At(members, steps, i, a).currentTerm, index));
  }

  lemma ChosenIsHeld(members: set<NodeId>, steps: seq<Step>, j: nat, t: nat, index: nat, t': nat)
    requires ValidRun(members, steps) && j <= |steps| && ValidRun(members, steps[..j])
    requires Choosable(Exec(members, steps[..j]), HistoryAt(members, steps, j), t, index)
    requires t < t' && t' in HistoryAt(members, steps, j).leaderLog
    ensures Holds(HistoryAt(members, steps, j), HistoryAt(members, steps, j).leaderLog[t'], t, index)
  {
    hide ValidRun, Exec, HistoryOf, HistoryAt, VoteInv, LogInv, AckInv, Choosable, Holds, Acked;
    InvAt(members, steps, j);
    assert ChoiceOk(Exec(members, steps[..j]), HistoryAt(members, steps, j), t, index);
  }

  /** The log of a term's leader reads the same at any two times. */
  lemma SamePart(members: set<NodeId>, steps: seq<Step>, i: nat, j: nat, t: nat, index: nat)
    requires ValidRun(members, steps) && i <= |steps| && j <= |steps|
    requires var a, b := HistoryAt(members, steps, i).leaderLog, HistoryAt(members, steps, j).leaderLog;
      t in a && t in b && index <= |a[t]| && index <= |b[t]|
    ensures HistoryAt(members, steps, i).leaderLog[t][..index] == HistoryAt(members, steps, j).leaderLog[t][..index]
  {
    hide ValidRun, Exec, HistoryOf, HistoryAt, HistoryGrows;
    HistoryGrowsTo(members, steps, i, |steps|);
    HistoryGrowsTo(members, steps, j, |steps|);
  }

  /** Leader Completeness: what a leader commits in term t is in the log of every node
      that ever leads a later term. */
  lemma LeaderCompleteness(members: set<NodeId>, steps: seq<Step>, i: nat, a: NodeId, index: nat, j: nat, b: NodeId)
    requires ValidRun(members, steps) && AcksCover(members, steps)
    requires CommitsIn(members, steps, i, a, index)
    requires j <= |steps| && b in members && At(members, steps, j, b).role == Leader
    requires At(members, steps, i, a).currentTerm < At(members, steps, j, b).currentTerm
    ensures index <= |At(members, steps, i, a).log| && index <= |At(members, steps, j, b).log|
    ensures At(members, steps, j, b).log[..index] == At(members, steps, i, a).log[..index]
  {
    hide ValidRun, Exec, HistoryOf, HistoryAt, At, CommitsIn, AcksCover, Choosable;
    CommitInRun(members, steps, i, a, index);
    var t, t' := At(members, steps, i, a).currentTerm, At(members, steps, j, b).currentTerm;
    CommitRecorded(members, steps, i, a, index);
    LeaderIsRecorded(members, steps, i, a);
    LeaderIsRecorded(members, steps, j, b);
    var m := if j <= i then i + 1 else j;
    CommitChoosable(members, steps, i, a, index, m);
    ChoosableEarlier(members, steps, j, m, t, index, t');
    ChosenIsHeld(members, steps, j, t, index, t');
    SamePart(members, steps, i, j, t, index);
  }

  lemma CommitInRun(members: set<NodeId>, steps: seq<Step>, i: nat, a: NodeId, index: nat)
    requires ValidRun(members, steps) && CommitsIn(members, steps, i, a, index)
    ensures i < |steps| && a in members
  {
  }

  // ---- State Machine Safety ----

  lemma {:induction false} SafeInvAt(members: set<NodeId>, steps: seq<Step>, i: nat)
    requires ValidRun(members, steps) && i <= |steps| && AcksCover(members, steps) && CommitsCovered(members, steps)
    ensures ValidRun(members, steps[..i])
    ensures SafeInv(Exec(members, steps[..i]), HistoryAt(members, steps, i))
    decreases i
  {
    hide ValidRun, Exec, HistoryOf, Next, Record, LogInv, AckInv, ChoiceInv, VoteInv, CommitInv, SafeInv, HeldInv,
      CommitJustified, CommitsCovered, AcksCover, Steps;
    PrefixIsRun(members, steps, i);
    if i > 0 {
      SafeInvAt(members, steps, i - 1);
      CommitInvAt(members, steps, i - 1);
      StepAt(members, steps, i - 1);
      InvAt(members, steps, i - 1);
      CommitCoveredAt(members, steps, i - 1);
      HeldInvAt(members, steps, i - 1);
      Ready(Exec(members, steps[..i - 1]), steps[i - 1]);
      SafeStep(Exec(members, steps[..i - 1]), HistoryAt(members, steps, i - 1), steps[i - 1]);
    } else {
      CommitInvStart(members, steps);
    }
  }

  lemma {:induction false} HeldInvAt(members: set<NodeId>, steps: seq<Step>, i: nat)
    requires ValidRun(members, steps) && i <= |steps|
    ensures ValidRun(members, steps[..i])
    ensures HeldInv(Exec(members, steps[..i]), HistoryAt(members, steps, i))
    decreases i
  {
    hide ValidRun, Exec, HistoryOf, Next, Record, LogInv, AckInv, ChoiceInv, VoteInv, HeldInv, Steps;
    PrefixIsRun(members, steps, i);
    if i > 0 {
      HeldInvAt(members, steps, i - 1);
      StepAt(members, steps, i - 1);
      InvAt(members, steps, i - 1);
      HeldStep(Exec(members, steps[..i - 1]), HistoryAt(members, steps, i - 1), steps[i - 1]);
    } else {
      HeldStart(members, steps);
    }
  }

  lemma HeldStart(members: set<NodeId>, steps: seq<Step>)
    requires ValidRun(members, steps)
    ensures ValidRun(members, steps[..0])
    ensures HeldInv(Exec(members, steps[..0]), HistoryAt(members, steps, 0))
  {
    PrefixIsRun(members, steps, 0);
    assert steps[..0] == [];
  }

  lemma HeldStep(c: Cluster, h: History, s: Step)
    requires WellFormed(c) && Inv(c, h) && HeldInv(c, h) && Enabled(c, s)
    ensures HeldInv(Next(c, s), Record(h, c.nodes[Actor(s)], s))
  {
    hide Record, LogInv, AckInv, ChoiceInv, VoteInv, HeldInv, Steps, Act, Emit, ActorLogKnows;
    StepSteps(c, h, s);
    InvGivesActorLog(c, h, s);
    HeldInvKept(c, h, s, Next(c, s), Record(h, c.nodes[Actor(s)], s));
  }

  lemma Ready(c: Cluster, s: Step)
    requires WellFormed(c) && Enabled(c, s)
    ensures ActorReady(c, s)
  {
  }

  lemma SafeStep(c: Cluster, h: History, s: Step)
    requires WellFormed(c) && Enabled(c, s) && ActorReady(c, s) && CommitJustified(c, s)
    requires Inv(c, h) && CommitInv(c, h) && SafeInv(c, h) && HeldInv(c, h)
    ensures SafeInv(Next(c, s), Record(h, c.nodes[Actor(s)], s))
  {
    hide Next, Record, LogInv, AckInv, ChoiceInv, VoteInv, CommitInv, SafeInv, HeldInv, CommitJustified, Steps;
    StepSteps(c, h, s);
    SafeInvKept(c, h, s, Next(c, s), Record(h, c.nodes[Actor(s)], s));
  }

  lemma AppliedAgreeAt(members: set<NodeId>, steps: seq<Step>, i: nat, a: NodeId, b: NodeId)
    requires ValidRun(members, steps) && AcksCover(members, steps) && CommitsCovered(members, steps)
    requires i <= |steps| && a in members && b in members
    ensures At(members, steps, i, a).applied <= At(members, steps, i, b).applied
         || At(members, steps, i, b).applied <= At(members, steps, i, a).applied
  {
    hide ValidRun, Exec, HistoryOf, LogInv, AckInv, ChoiceInv, VoteInv, NodeSafe, RequestSafe, CommitOk, Backed;
    InvAt(members, steps, i);
    CommitInvAt(members, steps, i);
    SafeInvAt(members, steps, i);
    var c, h := Exec(members, steps[..i]), HistoryAt(members, steps, i);
    CommittedAgree(c, h, c.nodes[a], c.nodes[b]);
  }

  /** State Machine Safety: at any two times, what two nodes have applied agrees as far as
      both go. */
  lemma StateMachineSafety(members: set<NodeId>, steps: seq<Step>, i: nat, a: NodeId, j: nat, b: NodeId)
    requires ValidRun(members, steps) && AcksCover(members, steps) && CommitsCovered(members, steps)
    requires i <= |steps| && j <= |steps| && a in members && b in members
    ensures At(members, steps, i, a).applied <= At(members, steps, j, b).applied
         || At(members, steps, j, b).applied <= At(members, steps, i, a).applied
  {
    hide ValidRun, Exec, At, AcksCover, CommitsCovered;
    if i <= j {
      AppliedGrows(members, steps, i, j, a);
      AppliedAgreeAt(members, steps, j, a, b);
    } else {
      AppliedGrows(members, steps, j, i, b);
      AppliedAgreeAt(members, steps, i, a, b);
    }
  }

  /** In such a run no node's log loses a committed slot, and each has applied exactly its
      committed slots. */
  lemma CommittedStays(members: set<NodeId>, steps: seq<Step>, i: nat, n: NodeId)
    requires ValidRun(members, steps) && AcksCover(members, steps) && CommitsCovered(members, steps)
    requires i <= |steps| && n in members
    ensures var x := At(members, steps, i, n);
      x.commitIndex < |x.log| && x.lastApplied == x.commitIndex && x.applied == x.log[..x.commitIndex]
  {
    hide ValidRun, Exec, HistoryOf, Committed, RequestSafe;
    SafeInvAt(members, steps, i);
    assert NodeSafe(HistoryAt(members, steps, i), At(members, steps, i, n));
  }
}
