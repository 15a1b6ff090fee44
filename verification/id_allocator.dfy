/**
 The compare-and-swap id allocator of internal/etcd/etcd.go: any number of callers read the
 counter key and try to swap it for the next value, retrying when it changed in between.
 The key is present.
 */
module IdAllocator {

  datatype Step = Read(caller: nat) | Commit(caller: nat)

  /** The key's value, what each caller inside a call read, and the ids handed out so far. */
  datatype Allocator = Allocator(value: nat, read: map<nat, nat>, issued: seq<(nat, nat)>)

  predicate Succeeds(s: Allocator, step: Step) {
    step.Commit? && step.caller in s.read && s.value == s.read[step.caller]
  }

  function Next(s: Allocator, step: Step): Allocator {
    match step
    case Read(c) => s.(read := s.read[c := s.value])
    case Commit(c) =>
      if Succeeds(s, step)
      then Allocator(s.read[c] + 1, s.read - {c}, s.issued + [(c, s.read[c] + 1)])
      else s.(read := s.read - {c}) // the caller tries again from its read
  }

  /** Any interleaving: a run is any sequence of steps, and a commit without a read does
      nothing. */
  function Exec(start: nat, run: seq<Step>): Allocator {
    if run == [] then Allocator(start, map[], [])
    else Next(Exec(start, run[..|run| - 1]), run[|run| - 1])
  }

  /** Under every interleaving the ids are consecutive in the order they were handed out, so
      no two calls get the same one. */
  lemma {:induction false} IdsConsecutive(start: nat, run: seq<Step>)
    ensures var s := Exec(start, run);
      && s.value == start + |s.issued|
      && forall k :: 0 <= k < |s.issued| ==> s.issued[k].1 == start + k + 1
  {
    if run != [] {
      IdsConsecutive(start, run[..|run| - 1]);
    }
  }

  /** Another caller's step moves the value by one when it is a commit that succeeds. */
  lemma OthersStep(s: Allocator, step: Step, c: nat)
    requires c in s.read && step.caller != c
    ensures var t := Next(s, step);
      c in t.read && t.read[c] == s.read[c] && t.value == s.value + if Succeeds(s, step) then 1 else 0
  {
  }

  /** While a caller's read is pending, the value moves on exactly when another caller's
      commit succeeds. */
  lemma {:induction false} ValueMoves(start: nat, run: seq<Step>, i: nat, j: nat, c: nat)
    requires i < j <= |run| && run[i] == Read(c) && forall k :: i < k < j ==> run[k].caller != c
    ensures var s, t := Exec(start, run[..i]), Exec(start, run[..j]);
      && c in t.read && t.read[c] == s.value <= t.value
      && (s.value < t.value <==> exists k :: i < k < j && Won(start, run, k))
    decreases j
  {
    assert run[..j][..j - 1] == run[..j - 1];
    if j > i + 1 {
      ValueMoves(start, run, i, j - 1, c);
      OthersStep(Exec(start, run[..j - 1]), run[j - 1], c);
      hide Next, Succeeds, Exec;
      assert Exec(start, run[..j]) == Next(Exec(start, run[..j - 1]), run[j - 1]) by { LastStep(start, run[..j]); }
      if Won(start, run, j - 1) {
        assert i < j - 1 < j;
      }
    }
  }

  lemma LastStep(start: nat, run: seq<Step>)
    requires run != []
    ensures Exec(start, run) == Next(Exec(start, run[..|run| - 1]), run[|run| - 1])
  {
  }

  /** Step k is a commit that succeeded. */
  ghost predicate Won(start: nat, run: seq<Step>, k: nat) {
    k < |run| && Succeeds(Exec(start, run[..k]), run[k])
  }

  /** A commit that succeeds hands the next id to its own caller; no other step hands out any. */
  lemma HandedTo(start: nat, run: seq<Step>, j: nat)
    requires j < |run|
    ensures var s, t := Exec(start, run[..j]), Exec(start, run[..j + 1]);
      t.issued == if Won(start, run, j) then s.issued + [(run[j].caller, start + |s.issued| + 1)] else s.issued
  {
    assert run[..j + 1][..j] == run[..j];
    IdsConsecutive(start, run[..j]);
  }

  /** A commit fails exactly when another caller's commit succeeded between this caller's
      read and its commit, so some caller always makes progress. */
  lemma FailureIsAccountedFor(start: nat, run: seq<Step>, i: nat, j: nat, c: nat)
    requires i < j < |run| && run[i] == Read(c) && run[j] == Commit(c)
    requires forall k :: i < k < j ==> run[k].caller != c
    ensures !Won(start, run, j) <==> exists k :: i < k < j && run[k].caller != c && Won(start, run, k)
  {
    ValueMoves(start, run, i, j, c);
    if k :| i < k < j && Won(start, run, k) {
      assert run[k].caller != c;
    }
  }
}
